/** What the stream writers get done: how a batch that is read comes to be settled when the database, the
    queue and the stream answer. */
module WriterProgress {
  import opened WriterBatch
  import opened WriterProtocol

  /** The run is possible here and ends there. */
  predicate Leads(s: World, run: seq<Action>, t: World) { Possible(s, run) && After(s, run) == t }

  lemma {:induction false} LeadsOn(s: World, run: seq<Action>, t: World, rest: seq<Action>, u: World)
    requires Leads(s, run, t) && Leads(t, rest, u)
    ensures Leads(s, run + rest, u)
    decreases |run|
  {
    if run == [] {
      assert run + rest == rest;
    } else {
      LeadsOn(Apply(s, run[0]), run[1..], t, rest, u);
      assert run + rest == [run[0]] + (run[1..] + rest);
      RunCons(s, run[0], Apply(s, run[0]), run[1..] + rest, u);
    }
  }

  lemma OneLeads(s: World, a: Action, t: World)
    requires Enabled(s, a) && Apply(s, a) == t
    ensures Leads(s, [a], t)
  {
    RunCons(s, a, t, [], t);
    assert [a] + [] == [a];
  }

  lemma TwoLead(s: World, a: Action, t: World, b: Action, u: World)
    requires Enabled(s, a) && Apply(s, a) == t && Enabled(t, b) && Apply(t, b) == u
    ensures Leads(s, [a, b], u)
  {
    OneLeads(s, a, t);
    OneLeads(t, b, u);
    LeadsOn(s, [a], t, [b], u);
    assert [a] + [b] == [a, b];
  }

  // ---- undecodable entries ----

  /** These entries are dead-lettered and acknowledged, and the writer goes on to its batch. */
  function Discarded(s: World, w: WriterId, ids: seq<Id>, p: Phase): World {
    s.(dlq := s.dlq + IdSet(ids), acked := s.acked + IdSet(ids), pending := s.pending - IdSet(ids),
       writers := s.writers[w := p])
  }

  lemma DiscardOne(s: World, w: WriterId, failed: seq<Id>, batch: Batch) returns (run: seq<Action>)
    requires failed != [] && PhaseOf(s, w) == Discarding(failed, false, batch)
    ensures Leads(s, run, Discarded(s, w, failed[..1], AfterDiscard(failed[1..], batch)))
  {
    var added := MoveTo(Lettered(s, failed[0], true), w, Discarding(failed, true, batch));
    var gone := MoveTo(Acknowledge(added, {failed[0]}), w, AfterDiscard(failed[1..], batch));
    assert IdSet(failed[..1]) == {failed[0]};
    assert gone == Discarded(s, w, failed[..1], AfterDiscard(failed[1..], batch));
    TwoLead(s, DiscardAdd(w, true), added, DiscardAck(w, true), gone);
    run := [DiscardAdd(w, true), DiscardAck(w, true)];
  }

  lemma DiscardedTwice(s: World, w: WriterId, ids: seq<Id>, p: Phase, more: seq<Id>, q: Phase)
    ensures Discarded(Discarded(s, w, ids, p), w, more, q) == Discarded(s, w, ids + more, q)
  {
    assert IdSet(ids + more) == IdSet(ids) + IdSet(more);
    var t, u := Discarded(Discarded(s, w, ids, p), w, more, q), Discarded(s, w, ids + more, q);
    assert t.dlq == u.dlq && t.acked == u.acked && t.pending == u.pending && t.writers == u.writers;
  }

  lemma {:induction false} DiscardAll(s: World, w: WriterId, failed: seq<Id>, batch: Batch) returns (run: seq<Action>)
    requires PhaseOf(s, w) == AfterDiscard(failed, batch) && w in s.writers
    ensures Leads(s, run, Discarded(s, w, failed, AfterDiscard([], batch)))
    decreases |failed|
  {
    if failed == [] {
      assert Discarded(s, w, failed, AfterDiscard([], batch)) == s;
      return [];
    }
    var first := DiscardOne(s, w, failed, batch);
    var t := Discarded(s, w, failed[..1], AfterDiscard(failed[1..], batch));
    var rest := DiscardAll(t, w, failed[1..], batch);
    DiscardedTwice(s, w, failed[..1], AfterDiscard(failed[1..], batch), failed[1..], AfterDiscard([], batch));
    assert failed[..1] + failed[1..] == failed;
    LeadsOn(s, first, t, rest, Discarded(s, w, failed, AfterDiscard([], batch)));
    run := first + rest;
  }

  // ---- a batch that goes in ----

  function Rows(batch: Batch): set<ObsRow> { set r | r in batch.obs }

  /** The batch is stored and acknowledged, and its writer reads again. */
  function Inserted(s: World, w: WriterId, batch: Batch): World {
    s.(hashes := s.hashes + HashSet(batch.bodies), rows := s.rows + Rows(batch),
       acked := s.acked + IdSet(batch.ids), pending := s.pending - IdSet(batch.ids), writers := s.writers[w := Idle])
  }

  lemma InsertAll(s: World, w: WriterId, batch: Batch, failures: nat) returns (run: seq<Action>)
    requires PhaseOf(s, w) == InsertingBodies(batch, failures)
    ensures Leads(s, run, Inserted(s, w, batch))
  {
    var bodies := MoveTo(s.(hashes := s.hashes + HashSet(batch.bodies)), w, InsertingRows(batch, failures, true));
    var rows := MoveTo(bodies.(rows := s.rows + Rows(batch)), w, Acking(batch));
    assert Apply(bodies, PutRows(w, true, {}, false)) == rows;
    TwoLead(s, PutBodies(w, true, {}), bodies, PutRows(w, true, {}, false), rows);
    var acked := MoveTo(Acknowledge(rows, IdSet(batch.ids)), w, Idle);
    assert acked == Inserted(s, w, batch);
    OneLeads(rows, Ack(w, true), acked);
    run := [PutBodies(w, true, {}), PutRows(w, true, {}, false)];
    LeadsOn(s, run, rows, [Ack(w, true)], acked);
    run := run + [Ack(w, true)];
  }

  /** Each entry the read delivered is acknowledged, and stored or, where it cannot be decoded, dead-lettered. */
  ghost predicate AllNew(s: World, u: World, n: nat) {
    forall id: Id | s.delivered <= id < s.delivered + n && id < |s.stream| ::
      id in u.acked && id !in u.pending && if s.stream[id].Garbled? then id in u.dlq else Stored(u, id)
  }

  /** What was pending before stays so. */
  predicate AllOld(s: World, u: World) {
    forall id | id in s.pending :: id in u.pending && u.pending[id] == s.pending[id]
  }

  /** The read is dealt with, its writer is idle, and nothing else has changed hands. */
  ghost predicate SettledAll(s: World, t: World, w: WriterId, n: nat) {
    t.stream == s.stream && t.delivered == s.delivered + n && t.lost == s.lost && t.writers == s.writers[w := Idle] &&
    AllOld(s, t) && AllNew(s, t, n)
  }

  /** What is left once both lists are dealt with. */
  function Finished(t: World, w: WriterId, failed: seq<Id>, batch: Batch): World {
    var u := Discarded(t, w, failed, AfterDiscard([], batch));
    if batch.ids == [] then u else Inserted(u, w, batch)
  }

  lemma FinishRead(t: World, w: WriterId, failed: seq<Id>, batch: Batch) returns (run: seq<Action>)
    requires PhaseOf(t, w) == AfterDiscard(failed, batch) && w in t.writers
    ensures Leads(t, run, Finished(t, w, failed, batch))
  {
    var u := Discarded(t, w, failed, AfterDiscard([], batch));
    run := DiscardAll(t, w, failed, batch);
    if batch.ids != [] {
      var rest := InsertAll(u, w, batch, 0);
      LeadsOn(t, run, u, rest, Inserted(u, w, batch));
      run := run + rest;
    }
  }

  lemma SplitIds(stream: seq<Payload>, ids: seq<Id>, id: Id)
    requires forall j | 0 <= j < |ids| :: ids[j] < |stream|
    requires id in ids
    ensures if stream[id].Garbled? then id in Failed(stream, ids) else id in Decoded(stream, ids)
  {
    DecodeSplits(stream, ids);
    assert id in multiset(ids);
  }

  lemma StoredInBatch(u: World, b: Batch, id: Id)
    requires BatchOk(u, b) && id in b.ids && HashSet(b.bodies) <= u.hashes && Rows(b) <= u.rows
    ensures Stored(u, id)
  {
    forall r | r in b.obs ensures r in u.rows { assert r in Rows(b); }
    InsertedIsStored(u, b);
  }

  lemma FinishedStores(t: World, w: WriterId, failed: seq<Id>, batch: Batch, id: Id)
    requires BatchOk(t, batch)
    ensures var u := Finished(t, w, failed, batch);
      (id in failed ==> id in u.acked && id !in u.pending && id in u.dlq) &&
      (id in batch.ids ==> id in u.acked && id !in u.pending && Stored(u, id))
  {
    var u := Finished(t, w, failed, batch);
    if id in batch.ids {
      BatchGrows(t, u, batch);
      StoredInBatch(u, batch, id);
    }
  }

  lemma FinishedKeeps(t: World, w: WriterId, failed: seq<Id>, batch: Batch, id: Id)
    requires id !in failed && id !in batch.ids && id in t.pending
    ensures var u := Finished(t, w, failed, batch); id in u.pending && u.pending[id] == t.pending[id]
  {}

  lemma FinishedFrame(t: World, w: WriterId, failed: seq<Id>, batch: Batch)
    ensures var u := Finished(t, w, failed, batch);
      u.stream == t.stream && u.delivered == t.delivered && u.lost == t.lost && u.writers == t.writers[w := Idle]
  {}

  lemma OldIsNotRead(s: World, n: nat, id: Id)
    requires Inv(s) && id in s.pending && s.delivered + n <= |s.stream|
    ensures id !in Next(s, n) && id !in Failed(s.stream, Next(s, n)) && id !in Decoded(s.stream, Next(s, n))
  {}

  /** What a read hands the writer. */
  datatype Load = Load(ids: seq<Id>, failed: seq<Id>, batch: Batch)

  function LoadOf(s: World, n: nat): Load
    requires s.delivered + n <= |s.stream|
  {
    var ids := Next(s, n);
    Load(ids, Failed(s.stream, ids), BatchOf(s.stream, Decoded(s.stream, ids)))
  }

  lemma LoadIsOk(s: World, t: World, n: nat)
    requires s.delivered + n <= |s.stream| && t.stream == s.stream
    ensures BatchOk(t, LoadOf(s, n).batch)
    ensures forall id: Id | s.delivered <= id < s.delivered + n ::
      if s.stream[id].Garbled? then id in LoadOf(s, n).failed else id in LoadOf(s, n).batch.ids
  {
    var ids := Next(s, n);
    BatchOfIsOk(t, Decoded(s.stream, ids));
    forall id: Id | s.delivered <= id < s.delivered + n
      ensures if s.stream[id].Garbled? then id in LoadOf(s, n).failed else id in LoadOf(s, n).batch.ids
    {
      assert ids[id - s.delivered] == id;
      SplitIds(s.stream, ids, id);
    }
  }

  lemma NewSettled(t: World, u: World, w: WriterId, load: Load, id: Id)
    requires BatchOk(t, load.batch) && u == Finished(t, w, load.failed, load.batch) && id < |t.stream|
    requires if t.stream[id].Garbled? then id in load.failed else id in load.batch.ids
    ensures id in u.acked && id !in u.pending && if t.stream[id].Garbled? then id in u.dlq else Stored(u, id)
  {
    FinishedStores(t, w, load.failed, load.batch, id);
  }

  lemma OldKept(s: World, t: World, u: World, w: WriterId, n: nat, id: Id)
    requires Inv(s) && id in s.pending && s.delivered + n <= |s.stream| && t.pending == Deliver(s, w, n).pending
    requires u == Finished(t, w, LoadOf(s, n).failed, LoadOf(s, n).batch)
    ensures id in u.pending && u.pending[id] == s.pending[id]
  {
    OldIsNotRead(s, n, id);
    FinishedKeeps(t, w, LoadOf(s, n).failed, LoadOf(s, n).batch, id);
  }

  lemma NewAreSettled(s: World, t: World, u: World, w: WriterId, n: nat)
    requires s.delivered + n <= |s.stream| && t.stream == s.stream
    requires u == Finished(t, w, LoadOf(s, n).failed, LoadOf(s, n).batch)
    ensures AllNew(s, u, n)
  {
    var load := LoadOf(s, n);
    LoadIsOk(s, t, n);
    forall id: Id | s.delivered <= id < s.delivered + n
      ensures id in u.acked && id !in u.pending && if s.stream[id].Garbled? then id in u.dlq else Stored(u, id)
    {
      NewSettled(t, u, w, load, id);
    }
  }

  lemma OldAreKept(s: World, t: World, u: World, w: WriterId, n: nat)
    requires Inv(s) && s.delivered + n <= |s.stream| && t.pending == Deliver(s, w, n).pending
    requires u == Finished(t, w, LoadOf(s, n).failed, LoadOf(s, n).batch)
    ensures AllOld(s, u)
  {
    forall id | id in s.pending ensures id in u.pending && u.pending[id] == s.pending[id] {
      OldKept(s, t, u, w, n, id);
    }
  }

  lemma ReadLeads(s: World, w: WriterId, n: nat) returns (u: World)
    requires Enabled(s, Read(w, n))
    ensures u == MoveTo(Deliver(s, w, n), w, AfterDiscard(LoadOf(s, n).failed, LoadOf(s, n).batch))
    ensures Leads(s, [Read(w, n)], u)
  {
    u := MoveTo(Deliver(s, w, n), w, AfterDiscard(LoadOf(s, n).failed, LoadOf(s, n).batch));
    assert Apply(s, Read(w, n)) == u;
    OneLeads(s, Read(w, n), u);
  }

  lemma MovedTwice(writers: map<WriterId, Phase>, w: WriterId, p: Phase, q: Phase)
    ensures writers[w := p][w := q] == writers[w := q]
  {}

  lemma ReadSettles(s: World, u: World, t: World, w: WriterId, n: nat, p: Phase)
    requires Inv(s) && u == MoveTo(Deliver(s, w, n), w, p) && s.delivered + n <= |s.stream|
    requires t == Finished(u, w, LoadOf(s, n).failed, LoadOf(s, n).batch)
    ensures SettledAll(s, t, w, n)
  {
    NewAreSettled(s, u, t, w, n);
    OldAreKept(s, u, t, w, n);
    FinishedFrame(u, w, LoadOf(s, n).failed, LoadOf(s, n).batch);
    MovedTwice(s.writers, w, p, Idle);
  }

  /** Progress: from every state the invariant allows, an idle writer that reads n new entries can, when every insert,
      append and acknowledgement succeeds, settle all of them and be idle again; the rest is untouched. */
  lemma ReadCanSettle(s: World, w: WriterId, n: nat) returns (run: seq<Action>, t: World)
    requires Inv(s) && Enabled(s, Read(w, n))
    ensures Leads(s, [Read(w, n)] + run, t) && SettledAll(s, t, w, n)
  {
    var load := LoadOf(s, n);
    var u := ReadLeads(s, w, n);
    run := FinishRead(u, w, load.failed, load.batch);
    t := Finished(u, w, load.failed, load.batch);
    LeadsOn(s, [Read(w, n)], u, run, t);
    ReadSettles(s, u, t, w, n, AfterDiscard(load.failed, load.batch));
  }

  // ---- a batch that does not go in ----

  /** One failed attempt, of which nothing was stored. */
  lemma FailedAttempt(s: World, w: WriterId, batch: Batch, failures: nat, transient: bool) returns (run: seq<Action>)
    requires PhaseOf(s, w) == InsertingBodies(batch, failures)
    ensures Leads(s, run, MoveTo(s, w, AfterFailure(batch, failures, transient)))
  {
    var bodies := MoveTo(s, w, InsertingRows(batch, failures, false));
    var t := MoveTo(s, w, AfterFailure(batch, failures, transient));
    assert s.hashes + {} * HashSet(batch.bodies) == s.hashes && s.rows + {} * Rows(batch) == s.rows;
    assert Apply(s, PutBodies(w, false, {})) == bodies;
    assert Apply(bodies, PutRows(w, false, {}, transient)) == t;
    TwoLead(s, PutBodies(w, false, {}), bodies, PutRows(w, false, {}, transient), t);
    run := [PutBodies(w, false, {}), PutRows(w, false, {}, transient)];
  }

  /** A failed attempt that is not the third lasting one, and the end of the sleep after it. */
  lemma FailedAndWoken(s: World, w: WriterId, batch: Batch, failures: nat, transient: bool) returns (run: seq<Action>)
    requires PhaseOf(s, w) == InsertingBodies(batch, failures) && (transient || failures + 1 < MAX_RETRIES)
    ensures Leads(s, run, MoveTo(s, w, InsertingBodies(batch, if transient then failures else failures + 1)))
  {
    run := FailedAttempt(s, w, batch, failures, transient);
    var slept := MoveTo(s, w, AfterFailure(batch, failures, transient));
    var woken := MoveTo(s, w, InsertingBodies(batch, if transient then failures else failures + 1));
    assert Apply(slept, Wake(w)) == woken;
    OneLeads(slept, Wake(w), woken);
    LeadsOn(s, run, slept, [Wake(w)], woken);
    run := run + [Wake(w)];
  }

  /** A network failure leaves everything as it was, however often it comes. */
  lemma {:induction false} OutageChangesNothing(s: World, w: WriterId, batch: Batch, failures: nat, times: nat)
    returns (run: seq<Action>)
    requires s.writers == s.writers[w := InsertingBodies(batch, failures)]
    ensures Leads(s, run, s) && |run| == 3 * times
  {
    run := [];
    if times > 0 {
      var before := OutageChangesNothing(s, w, batch, failures, times - 1);
      var bodies := MoveTo(s, w, InsertingRows(batch, failures, false));
      var slept := MoveTo(s, w, Sleeping(batch, failures));
      assert s.hashes + {} * HashSet(batch.bodies) == s.hashes && s.rows + {} * Rows(batch) == s.rows;
      assert Apply(s, PutBodies(w, false, {})) == bodies;
      assert Apply(bodies, PutRows(w, false, {}, true)) == slept;
      TwoLead(s, PutBodies(w, false, {}), bodies, PutRows(w, false, {}, true), slept);
      assert Apply(slept, Wake(w)) == s;
      OneLeads(slept, Wake(w), s);
      LeadsOn(s, [PutBodies(w, false, {}), PutRows(w, false, {}, true)], slept, [Wake(w)], s);
      run := [PutBodies(w, false, {}), PutRows(w, false, {}, true)] + [Wake(w)];
      LeadsOn(s, before, s, run, s);
      run := before + run;
    }
  }

  /** The appends from entry sent on have been made. */
  function Sent(s: World, w: WriterId, batch: Batch, sent: nat): World
    requires sent <= |batch.ids|
  {
    MoveTo(s.(dlq := s.dlq + IdSet(batch.ids[sent..])), w, DeadLettering(batch, |batch.ids|))
  }

  lemma {:induction false} LetterAll(s: World, w: WriterId, batch: Batch, sent: nat) returns (run: seq<Action>)
    requires s.writers == s.writers[w := DeadLettering(batch, sent)] && sent <= |batch.ids|
    ensures Leads(s, run, Sent(s, w, batch, sent))
    decreases |batch.ids| - sent
  {
    if sent == |batch.ids| {
      assert batch.ids[sent..] == [] && s.dlq + IdSet([]) == s.dlq;
      return [];
    }
    var t := MoveTo(Lettered(s, batch.ids[sent], true), w, DeadLettering(batch, sent + 1));
    assert Apply(s, DeadLetter(w, true)) == t;
    OneLeads(s, DeadLetter(w, true), t);
    run := LetterAll(t, w, batch, sent + 1);
    assert batch.ids[sent..] == [batch.ids[sent]] + batch.ids[sent + 1..];
    assert IdSet(batch.ids[sent..]) == {batch.ids[sent]} + IdSet(batch.ids[sent + 1..]);
    assert Sent(t, w, batch, sent + 1) == Sent(s, w, batch, sent);
    LeadsOn(s, [DeadLetter(w, true)], t, run, Sent(s, w, batch, sent));
    run := [DeadLetter(w, true)] + run;
  }

  lemma LetterAndAck(s: World, w: WriterId, batch: Batch) returns (run: seq<Action>)
    requires s.writers == s.writers[w := DeadLettering(batch, 0)]
    ensures Leads(s, run, Discarded(s, w, batch.ids, Idle))
  {
    run := LetterAll(s, w, batch, 0);
    var sent := Sent(s, w, batch, 0);
    assert batch.ids[0..] == batch.ids;
    assert Apply(sent, DeadAck(w, true)) == Discarded(s, w, batch.ids, Idle);
    OneLeads(sent, DeadAck(w, true), Discarded(s, w, batch.ids, Idle));
    LeadsOn(s, run, sent, [DeadAck(w, true)], Discarded(s, w, batch.ids, Idle));
    run := run + [DeadAck(w, true)];
  }

  /** Three lasting failures dead-letter and acknowledge the whole batch, when the queue accepts it; nothing of it is
      stored, and its writer reads again. */
  lemma BadBatchIsLettered(s: World, w: WriterId, batch: Batch) returns (run: seq<Action>)
    requires PhaseOf(s, w) == InsertingBodies(batch, 0)
    ensures Leads(s, run, Discarded(s, w, batch.ids, Idle))
  {
    var once, twice := MoveTo(s, w, InsertingBodies(batch, 1)), MoveTo(s, w, InsertingBodies(batch, 2));
    var dead := MoveTo(s, w, DeadLettering(batch, 0));
    run := FailedAndWoken(s, w, batch, 0, false);
    var second := FailedAndWoken(once, w, batch, 1, false);
    assert MoveTo(once, w, InsertingBodies(batch, 2)) == twice;
    LeadsOn(s, run, once, second, twice);
    var third := FailedAttempt(twice, w, batch, 2, false);
    assert MoveTo(twice, w, DeadLettering(batch, 0)) == dead;
    LeadsOn(s, run + second, twice, third, dead);
    var rest := LetterAndAck(dead, w, batch);
    assert Discarded(dead, w, batch.ids, Idle) == Discarded(s, w, batch.ids, Idle);
    LeadsOn(s, run + second + third, dead, rest, Discarded(s, w, batch.ids, Idle));
    run := run + second + third + rest;
  }
}
