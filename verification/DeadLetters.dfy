/** The dead-letter appends of the stream writers: each entry gets at most one, so an acknowledged
    entry is missing exactly when that one append failed and the entry is not stored. */
module DeadLetters {
  import opened WriterBatch
  import opened WriterProtocol

  /** The entries a writer in this phase may still dead-letter. */
  function ToAppend(p: Phase): seq<Id> {
    match p
    case Idle => []
    case Exited => []
    case Discarding(failed, added, batch) => (if added && failed != [] then failed[1..] else failed) + batch.ids
    case InsertingBodies(batch, _) => batch.ids
    case InsertingRows(batch, _, _) => batch.ids
    case Sleeping(batch, _) => batch.ids
    case Acking(_) => []
    case DeadLettering(batch, sent) => if sent <= |batch.ids| then batch.ids[sent..] else []
  }

  predicate Fresh(s: World, ids: seq<Id>) {
    forall i | 0 <= i < |ids| :: !DeadLettered(s, ids[i])
  }

  predicate AllFrom(ids: seq<Id>, from: Id) { forall i | 0 <= i < |ids| :: ids[i] >= from }

  /** No entry has both a successful and a failed append, only delivered ones have any, and what a
      writer may still dead-letter has none. */
  ghost predicate LettersOk(s: World) {
    s.dlq !! s.lost && (forall id: Id | DeadLettered(s, id) :: id < s.delivered) &&
    forall w | w in s.writers :: Fresh(s, ToAppend(s.writers[w]))
  }

  /** What a writer may still dead-letter is pending with it, each entry once. */
  lemma ToAppendOwned(s: World, w: WriterId, p: Phase)
    requires PhaseOk(s, w, p)
    ensures Owned(s, w, ToAppend(p))
  {
    match p
    case Discarding(failed, added, batch) =>
      var ids := failed + batch.ids;
      assert ids[1..] == failed[1..] + batch.ids;
      OwnedFrom(s, w, ids, 1);
    case DeadLettering(batch, sent) => OwnedFrom(s, w, batch.ids, sent);
    case _ =>
  }

  lemma OwnedFrom(s: World, w: WriterId, ids: seq<Id>, n: nat)
    requires Owned(s, w, ids) && n <= |ids|
    ensures Owned(s, w, ids[n..])
  {}

  // ---- each action keeps it ----

  /** What has not been delivered has had no append. */
  lemma FreshlyDelivered(s: World, ids: seq<Id>)
    requires LettersOk(s) && AllFrom(ids, s.delivered)
    ensures Fresh(s, ids)
  {
    forall i | 0 <= i < |ids| ensures !DeadLettered(s, ids[i]) {}
  }

  /** A step without an append, after which the writer may dead-letter nothing stale. */
  lemma QuietStep(s: World, t: World, w: WriterId, p: Phase)
    requires LettersOk(s) && t.dlq == s.dlq && t.lost == s.lost && t.delivered >= s.delivered
    requires t.writers == s.writers[w := p] && Fresh(s, ToAppend(p))
    ensures LettersOk(t)
  {
    forall v | v in t.writers ensures Fresh(t, ToAppend(t.writers[v])) {
      if v != w { assert Fresh(s, ToAppend(s.writers[v])); }
    }
    forall id: Id | DeadLettered(t, id) ensures id < t.delivered { assert DeadLettered(s, id); }
  }

  /** The append of the first entry the writer may still dead-letter. */
  lemma AppendStep(s: World, t: World, w: WriterId, p: Phase, id: Id, ok: bool)
    requires Inv(s) && LettersOk(s) && w in s.writers && ToAppend(s.writers[w]) == [id] + ToAppend(p)
    requires t.dlq == (if ok then s.dlq + {id} else s.dlq) && t.lost == (if ok then s.lost else s.lost + {id})
    requires t.delivered == s.delivered && t.writers == s.writers[w := p]
    ensures LettersOk(t)
  {
    var ids := ToAppend(s.writers[w]);
    ToAppendOwned(s, w, s.writers[w]);
    assert ids[0] == id && id in s.pending && s.pending[id] == w;
    assert Fresh(s, ids) && !DeadLettered(s, ids[0]);
    forall v | v in t.writers ensures Fresh(t, ToAppend(t.writers[v])) {
      if v == w { RestFresh(s, t, id, ToAppend(p), w); } else { OthersFresh(s, t, v, id, w); }
    }
    forall x: Id | DeadLettered(t, x) ensures x < t.delivered { assert x == id || DeadLettered(s, x); }
  }

  lemma RestFresh(s: World, t: World, id: Id, rest: seq<Id>, w: WriterId)
    requires Fresh(s, [id] + rest) && Owned(s, w, [id] + rest)
    requires forall x | DeadLettered(t, x) :: x == id || DeadLettered(s, x)
    ensures Fresh(t, rest)
  {
    forall i | 0 <= i < |rest| ensures !DeadLettered(t, rest[i]) {
      assert ([id] + rest)[i + 1] == rest[i] && ([id] + rest)[0] == id;
    }
  }

  lemma OthersFresh(s: World, t: World, v: WriterId, id: Id, w: WriterId)
    requires Inv(s) && LettersOk(s) && v in s.writers && v != w && id in s.pending && s.pending[id] == w
    requires forall x | DeadLettered(t, x) :: x == id || DeadLettered(s, x)
    ensures Fresh(t, ToAppend(s.writers[v]))
  {
    ToAppendOwned(s, v, s.writers[v]);
    assert Fresh(s, ToAppend(s.writers[v]));
  }

  lemma DiscardAddLetters(s: World, w: WriterId, ok: bool)
    requires Inv(s) && LettersOk(s) && Enabled(s, DiscardAdd(w, ok))
    ensures LettersOk(Apply(s, DiscardAdd(w, ok)))
  {
    var p := PhaseOf(s, w);
    assert p.failed + p.batch.ids == [p.failed[0]] + (p.failed[1..] + p.batch.ids);
    AppendStep(s, Apply(s, DiscardAdd(w, ok)), w, p.(added := true), p.failed[0], ok);
  }

  lemma DeadLetterLetters(s: World, w: WriterId, ok: bool)
    requires Inv(s) && LettersOk(s) && Enabled(s, DeadLetter(w, ok))
    ensures LettersOk(Apply(s, DeadLetter(w, ok)))
  {
    var p := PhaseOf(s, w);
    assert p.batch.ids[p.sent..] == [p.batch.ids[p.sent]] + p.batch.ids[p.sent + 1..];
    AppendStep(s, Apply(s, DeadLetter(w, ok)), w, p.(sent := p.sent + 1), p.batch.ids[p.sent], ok);
  }

  lemma AfterDiscardFrom(failed: seq<Id>, batch: Batch, from: Id)
    requires AllFrom(failed, from) && AllFrom(batch.ids, from)
    ensures AllFrom(ToAppend(AfterDiscard(failed, batch)), from)
  {}

  /** What a read leaves to dead-letter is what it delivered. */
  lemma ReadToAppend(stream: seq<Payload>, ids: seq<Id>, from: Id, p: Phase)
    requires forall i | 0 <= i < |ids| :: from <= ids[i] < |stream|
    requires p == AfterDiscard(Failed(stream, ids), BatchOf(stream, Decoded(stream, ids)))
    ensures AllFrom(ToAppend(p), from)
  {
    var failed, decoded := Failed(stream, ids), Decoded(stream, ids);
    forall i | 0 <= i < |failed| ensures failed[i] >= from { assert failed[i] in ids; }
    forall i | 0 <= i < |decoded| ensures decoded[i] >= from { assert decoded[i] in ids; }
    AfterDiscardFrom(failed, BatchOf(stream, decoded), from);
  }

  lemma MoveAfterRead(s: World, t: World, w: WriterId, n: nat, p: Phase)
    requires LettersOk(s) && t == MoveTo(Deliver(s, w, n), w, p)
    requires AllFrom(ToAppend(p), s.delivered)
    ensures LettersOk(t)
  {
    FreshlyDelivered(s, ToAppend(p));
    QuietStep(s, t, w, p);
  }

  lemma ReadMoves(s: World, w: WriterId, n: nat, ids: seq<Id>) returns (p: Phase)
    requires Enabled(s, Read(w, n)) && ids == Next(s, n)
    ensures p == AfterDiscard(Failed(s.stream, ids), BatchOf(s.stream, Decoded(s.stream, ids)))
    ensures Apply(s, Read(w, n)) == MoveTo(Deliver(s, w, n), w, p)
  {
    p := AfterDiscard(Failed(s.stream, ids), BatchOf(s.stream, Decoded(s.stream, ids)));
  }

  lemma ReadLetters(s: World, w: WriterId, n: nat)
    requires LettersOk(s) && Enabled(s, Read(w, n))
    ensures LettersOk(Apply(s, Read(w, n)))
  {
    var ids := Next(s, n);
    var p := ReadMoves(s, w, n, ids);
    ReadToAppend(s.stream, ids, s.delivered, p);
    MoveAfterRead(s, Apply(s, Read(w, n)), w, n, p);
  }

  lemma DiscardAckLetters(s: World, w: WriterId, applied: bool)
    requires LettersOk(s) && Enabled(s, DiscardAck(w, applied))
    ensures LettersOk(Apply(s, DiscardAck(w, applied)))
  {
    var p := PhaseOf(s, w);
    var rest := p.failed[1..];
    assert Fresh(s, ToAppend(s.writers[w]));
    assert rest == [] ==> rest + p.batch.ids == p.batch.ids;
    QuietStep(s, Apply(s, DiscardAck(w, applied)), w, AfterDiscard(rest, p.batch));
  }

  /** The moves that leave the same batch, or nothing, to dead-letter. */
  lemma BatchMove(s: World, t: World, w: WriterId, p: Phase)
    requires LettersOk(s) && w in s.writers && t.dlq == s.dlq && t.lost == s.lost && t.delivered == s.delivered
    requires t.writers == s.writers[w := p] && (ToAppend(p) == [] || ToAppend(p) == ToAppend(s.writers[w]))
    ensures LettersOk(t)
  {
    assert Fresh(s, ToAppend(s.writers[w]));
    QuietStep(s, t, w, p);
  }

  predicate MovesBatch(a: Action) {
    a.PutBodies? || a.PutRows? || a.Wake? || a.Shutdown? || a.Ack? || a.DeadAck? || a.Crash?
  }

  lemma BatchActionLetters(s: World, a: Action)
    requires LettersOk(s) && Enabled(s, a) && MovesBatch(a)
    ensures LettersOk(Apply(s, a))
  {
    var t := Apply(s, a);
    BatchMove(s, t, a.w, PhaseOf(t, a.w));
  }

  /** A step of no writer. */
  lemma OutsideStep(s: World, t: World)
    requires LettersOk(s) && t.dlq == s.dlq && t.lost == s.lost && t.delivered >= s.delivered && t.writers == s.writers
    ensures LettersOk(t)
  {
    forall v | v in t.writers ensures Fresh(t, ToAppend(t.writers[v])) { assert Fresh(s, ToAppend(s.writers[v])); }
    forall id: Id | DeadLettered(t, id) ensures id < t.delivered { assert DeadLettered(s, id); }
  }

  lemma ActionKeepsLetters(s: World, a: Action)
    requires Inv(s) && LettersOk(s) && Enabled(s, a)
    ensures LettersOk(Apply(s, a))
  {
    match a
    case Publish(_) => OutsideStep(s, Apply(s, a));
    case Join(w) => QuietStep(s, Apply(s, a), w, Idle);
    case Read(w, n) => ReadLetters(s, w, n);
    case ReadLost(_, _) => OutsideStep(s, Apply(s, a));
    case DiscardAdd(w, ok) => DiscardAddLetters(s, w, ok);
    case DiscardAck(w, applied) => DiscardAckLetters(s, w, applied);
    case DeadLetter(w, ok) => DeadLetterLetters(s, w, ok);
    case _ => BatchActionLetters(s, a);
  }

  lemma {:induction false} RunKeepsLetters(s: World, run: seq<Action>)
    requires Inv(s) && LettersOk(s) && Possible(s, run)
    ensures LettersOk(After(s, run)) && Inv(After(s, run))
    decreases |run|
  {
    if run != [] {
      ActionKeepsLetters(s, run[0]);
      ActionKeeps(s, run[0]);
      RunKeepsLetters(Apply(s, run[0]), run[1..]);
    }
  }

  // ---- what it gives ----

  /** Exactly which acknowledged entries are missing: those whose one dead-letter append failed and
      that are not stored. */
  lemma MissingExactly(run: seq<Action>, id: Id)
    requires Possible(EMPTY, run) && id in After(EMPTY, run).acked
    ensures var s := After(EMPTY, run);
      (Stored(s, id) || id in s.dlq) <==> !(id in s.lost && !Stored(s, id))
  {
    RunKeepsLetters(EMPTY, run);
  }

  // ---- referential integrity ----

  /** Every span published in this run carries the bodies its row names. */
  predicate PublishesSelfContained(run: seq<Action>) {
    forall i | 0 <= i < |run| :: run[i].Publish? && run[i].payload.Span? ==> SelfContained(run[i].payload)
  }

  predicate AllSelfContained(stream: seq<Payload>) {
    forall i | 0 <= i < |stream| :: stream[i].Span? ==> SelfContained(stream[i])
  }

  lemma {:induction false} StreamSelfContained(s: World, run: seq<Action>)
    requires Possible(s, run) && PublishesSelfContained(run) && AllSelfContained(s.stream)
    ensures AllSelfContained(After(s, run).stream)
    decreases |run|
  {
    if run != [] {
      assert run[0].Publish? && run[0].payload.Span? ==> SelfContained(run[0].payload);
      StreamSelfContained(Apply(s, run[0]), run[1..]);
    }
  }

  /** The entry's row is in ClickHouse together with every body it names. */
  ghost predicate Resolves(s: World, id: Id) {
    id < |s.stream| && s.stream[id].Span? && s.stream[id].obs in s.rows &&
    forall h | h in s.stream[id].obs.hashes :: h in s.hashes
  }

  lemma StoredResolves(s: World, id: Id)
    requires Stored(s, id) && AllSelfContained(s.stream)
    ensures Resolves(s, id)
  {
    forall h | h in s.stream[id].obs.hashes ensures h in s.hashes {
      var i :| 0 <= i < |s.stream[id].bodies| && s.stream[id].bodies[i].hash == h;
      assert s.stream[id].bodies[i] in s.stream[id].bodies;
    }
  }

  /** Referential integrity at acknowledgement: in every run, when publishers send complete spans and
      the dead-letter queue accepts appends, an acknowledged entry is dead-lettered or its row is
      stored together with every body the row names. */
  lemma AcknowledgedResolves(run: seq<Action>, id: Id)
    requires Possible(EMPTY, run) && DlqAvailable(run) && PublishesSelfContained(run)
    requires id in After(EMPTY, run).acked
    ensures var s := After(EMPTY, run); id in s.dlq || Resolves(s, id)
  {
    var s := After(EMPTY, run);
    NothingAcknowledgedIsMissing(run, id);
    StreamSelfContained(EMPTY, run);
    if Stored(s, id) { StoredResolves(s, id); }
  }
}
