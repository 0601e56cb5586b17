/** The consumer-group protocol of the stream writers: any number of publishers and writers, with
    reads that lose their reply, failing inserts, dead letters and acknowledgements, shutdown and
    crashes at any point. An entry's id is its position in the stream. */
module WriterProtocol {
  import opened WriterBatch

  type WriterId = nat

  const BATCH_SIZE: nat := 500

  /** Where one writer stands. failed holds the undecodable entries still to dead-letter, and added
      says whether the first of them has had its XADD. bodiesIn is the result of the body insert
      that the observation insert follows regardless. */
  datatype Phase =
    | Idle
    | Discarding(failed: seq<Id>, added: bool, batch: Batch)
    | InsertingBodies(batch: Batch, failures: nat)
    | InsertingRows(batch: Batch, failures: nat, bodiesIn: bool)
    | Sleeping(batch: Batch, failures: nat)
    | Acking(batch: Batch)
    | DeadLettering(batch: Batch, sent: nat)
    | Exited

  /** lost remembers the entries whose dead-letter append failed: the writer ignores that result. */
  datatype World = World(
    stream: seq<Payload>,
    delivered: nat,
    pending: map<Id, WriterId>,
    acked: set<Id>,
    dlq: set<Id>,
    lost: set<Id>,
    rows: set<ObsRow>,
    hashes: set<Hash>,
    writers: map<WriterId, Phase>)

  const EMPTY := World([], 0, map[], {}, {}, {}, {}, {}, map[])

  datatype Action =
    | Publish(payload: Payload)
    | Join(w: WriterId)
    | Read(w: WriterId, n: nat)
    | ReadLost(w: WriterId, n: nat)
    | DiscardAdd(w: WriterId, ok: bool)
    | DiscardAck(w: WriterId, applied: bool)
    | PutBodies(w: WriterId, ok: bool, stored: set<Hash>)
    | PutRows(w: WriterId, ok: bool, some: set<ObsRow>, transient: bool)
    | Wake(w: WriterId)
    | Shutdown(w: WriterId)
    | Ack(w: WriterId, applied: bool)
    | DeadLetter(w: WriterId, ok: bool)
    | DeadAck(w: WriterId, applied: bool)
    | Crash(w: WriterId)

  function PhaseOf(s: World, w: WriterId): Phase {
    if w in s.writers then s.writers[w] else Exited
  }

  /** n ids in stream order. */
  function Consecutive(from: Id, n: nat): (r: seq<Id>)
    ensures |r| == n && forall i | 0 <= i < n :: r[i] == from + i
  {
    if n == 0 then [] else Consecutive(from, n - 1) + [from + n - 1]
  }

  function Next(s: World, n: nat): seq<Id> { Consecutive(s.delivered, n) }

  /** When an action can happen. */
  predicate Enabled(s: World, a: Action) {
    match a
    case Publish(_) => true
    case Join(w) => w !in s.writers
    case Read(w, n) => PhaseOf(s, w).Idle? && 1 <= n <= BATCH_SIZE && s.delivered + n <= |s.stream|
    case ReadLost(w, n) => PhaseOf(s, w).Idle? && 1 <= n <= BATCH_SIZE && s.delivered + n <= |s.stream|
    case DiscardAdd(w, _) => var p := PhaseOf(s, w); p.Discarding? && p.failed != [] && !p.added
    case DiscardAck(w, _) => var p := PhaseOf(s, w); p.Discarding? && p.failed != [] && p.added
    case PutBodies(w, _, _) => PhaseOf(s, w).InsertingBodies?
    case PutRows(w, _, _, _) => PhaseOf(s, w).InsertingRows?
    case Wake(w) => PhaseOf(s, w).Sleeping?
    case Shutdown(w) => PhaseOf(s, w).Idle? || PhaseOf(s, w).Sleeping?
    case Ack(w, _) => PhaseOf(s, w).Acking?
    case DeadLetter(w, _) => var p := PhaseOf(s, w); p.DeadLettering? && p.sent < |p.batch.ids|
    case DeadAck(w, _) => var p := PhaseOf(s, w); p.DeadLettering? && p.sent == |p.batch.ids|
    case Crash(w) => w in s.writers
  }

  function Deliver(s: World, w: WriterId, n: nat): World {
    s.(delivered := s.delivered + n, pending := s.pending + map id | id in IdSet(Next(s, n)) :: w)
  }

  function Acknowledge(s: World, ids: set<Id>): World {
    s.(pending := s.pending - ids, acked := s.acked + ids)
  }

  /** What one dead-letter append leaves. */
  function Lettered(s: World, id: Id, ok: bool): World {
    if ok then s.(dlq := s.dlq + {id}) else s.(lost := s.lost + {id})
  }

  function MoveTo(s: World, w: WriterId, p: Phase): World { s.(writers := s.writers[w := p]) }

  function IdSet(ids: seq<Id>): set<Id> { set id | id in ids }

  function HashSet(bodies: seq<BodyRow>): set<Hash> { set b | b in bodies :: b.hash }

  /** After the undecodable entries: an empty batch goes back to reading. */
  function AfterDiscard(failed: seq<Id>, batch: Batch): Phase {
    if failed != [] then Discarding(failed, false, batch)
    else if batch.ids == [] then Idle
    else InsertingBodies(batch, 0)
  }

  function AfterFailure(batch: Batch, failures: nat, transient: bool): Phase {
    if transient then Sleeping(batch, failures)
    else if failures + 1 < MAX_RETRIES then Sleeping(batch, failures + 1)
    else DeadLettering(batch, 0)
  }

  function Apply(s: World, a: Action): World
    requires Enabled(s, a)
  {
    match a
    case Publish(payload) => s.(stream := s.stream + [payload])
    case Join(w) => MoveTo(s, w, Idle)
    case Read(w, n) =>
      var ids := Next(s, n);
      var decoded := Decoded(s.stream, ids);
      MoveTo(Deliver(s, w, n), w, AfterDiscard(Failed(s.stream, ids), BatchOf(s.stream, decoded)))
    case ReadLost(w, n) => Deliver(s, w, n)
    case DiscardAdd(w, ok) =>
      var p := PhaseOf(s, w);
      var t := Lettered(s, p.failed[0], ok);
      MoveTo(t, w, p.(added := true))
    case DiscardAck(w, applied) =>
      var p := PhaseOf(s, w);
      var t := if applied then Acknowledge(s, {p.failed[0]}) else s;
      MoveTo(t, w, AfterDiscard(p.failed[1..], p.batch))
    case PutBodies(w, ok, stored) =>
      var p := PhaseOf(s, w);
      var t := s.(hashes := s.hashes + if ok then HashSet(p.batch.bodies) else stored * HashSet(p.batch.bodies));
      MoveTo(t, w, InsertingRows(p.batch, p.failures, ok))
    case PutRows(w, ok, some, transient) =>
      var p := PhaseOf(s, w);
      var all := set r | r in p.batch.obs;
      var t := s.(rows := s.rows + if ok then all else some * all);
      MoveTo(t, w, if ok && p.bodiesIn then Acking(p.batch) else AfterFailure(p.batch, p.failures, transient))
    case Wake(w) => var p := PhaseOf(s, w); MoveTo(s, w, InsertingBodies(p.batch, p.failures))
    case Shutdown(w) => MoveTo(s, w, Exited)
    case Ack(w, applied) =>
      var p := PhaseOf(s, w);
      MoveTo(if applied then Acknowledge(s, IdSet(p.batch.ids)) else s, w, Idle)
    case DeadLetter(w, ok) =>
      var p := PhaseOf(s, w);
      var id := p.batch.ids[p.sent];
      var t := Lettered(s, id, ok);
      MoveTo(t, w, p.(sent := p.sent + 1))
    case DeadAck(w, applied) =>
      var p := PhaseOf(s, w);
      MoveTo(if applied then Acknowledge(s, IdSet(p.batch.ids)) else s, w, Idle)
    case Crash(w) => MoveTo(s, w, Exited)
  }

  // ---- the phases follow the retry loop ----

  /** One turn of the retry loop: the body insert, then the observation insert whatever came of it. */
  lemma OneTurn(s: World, w: WriterId, batch: Batch, failures: nat, t: Turn, stored: set<Hash>, some: set<ObsRow>)
    requires PhaseOf(s, w) == InsertingBodies(batch, failures)
    ensures var r := And(t.bodies, t.obs);
      var transient := r.Rejected? && IsTransient(r.message);
      var put := PutBodies(w, t.bodies.Inserted?, stored);
      var rows := PutRows(w, t.obs.Inserted?, some, transient);
      Enabled(s, put) && Enabled(Apply(s, put), rows) &&
      PhaseOf(Apply(Apply(s, put), rows), w) ==
        if r.Inserted? then Acking(batch) else AfterFailure(batch, failures, transient)
  {}

  /** What the loop does after a turn can be read off the phase the turn leads to. */
  lemma RetryFollowsPhases(turns: seq<Turn>, batch: Batch, failures: nat)
    requires turns != []
    ensures var r := And(turns[0].bodies, turns[0].obs);
      var p := if r.Inserted? then Acking(batch) else AfterFailure(batch, failures, IsTransient(r.message));
      Retry(turns, failures) ==
        match p
        case Acking(_) => Success
        case DeadLettering(_, _) => PermanentFailure
        case Sleeping(_, f) => if turns[0].shutdown then ShutDown else Retry(turns[1..], f)
        case _ => StillTrying
  {}

  // ---- runs ----

  /** Every action of the run can happen when its turn comes. */
  predicate Possible(s: World, run: seq<Action>)
    decreases |run|
  {
    run == [] || (Enabled(s, run[0]) && Possible(Apply(s, run[0]), run[1..]))
  }

  function After(s: World, run: seq<Action>): World
    requires Possible(s, run)
    decreases |run|
  {
    if run == [] then s else After(Apply(s, run[0]), run[1..])
  }

  // ---- the invariant ----

  /** The entry's observation and every body that came with it are in ClickHouse. */
  ghost predicate Stored(s: World, id: Id) {
    id < |s.stream| && s.stream[id].Span? && s.stream[id].obs in s.rows &&
    forall b | b in s.stream[id].bodies :: b.hash in s.hashes
  }

  predicate DeadLettered(s: World, id: Id) { id in s.dlq || id in s.lost }

  ghost predicate Settled(s: World, id: Id) { DeadLettered(s, id) || Stored(s, id) }

  /** Each delivered entry is pending or acknowledged, not both; acknowledged ones are settled. */
  ghost predicate LedgerOk(s: World) {
    s.delivered <= |s.stream| &&
    (forall id | id in s.pending :: id < s.delivered && id !in s.acked) &&
    (forall id | id in s.acked :: id < s.delivered && Settled(s, id)) &&
    forall id: Id | id < s.delivered :: id in s.pending || id in s.acked
  }

  predicate Distinct(ids: seq<Id>) { forall i, j | 0 <= i < j < |ids| :: ids[i] != ids[j] }

  /** These are different entries, all pending with this writer. */
  predicate Owned(s: World, w: WriterId, ids: seq<Id>) {
    Distinct(ids) && forall i | 0 <= i < |ids| :: ids[i] in s.pending && s.pending[ids[i]] == w
  }

  /** The batch has the row of each of its entries, and every hash they came with. */
  ghost predicate BatchOk(s: World, b: Batch) {
    |b.obs| == |b.ids| &&
    forall i | 0 <= i < |b.ids| ::
      b.ids[i] < |s.stream| && s.stream[b.ids[i]].Span? && b.obs[i] == s.stream[b.ids[i]].obs &&
      forall x | x in s.stream[b.ids[i]].bodies :: x.hash in HashSet(b.bodies)
  }

  ghost predicate Carries(s: World, w: WriterId, b: Batch) { Owned(s, w, b.ids) && BatchOk(s, b) }

  ghost predicate PhaseOk(s: World, w: WriterId, p: Phase) {
    match p
    case Idle => true
    case Exited => true
    case Discarding(failed, added, batch) =>
      failed != [] && Owned(s, w, failed + batch.ids) && BatchOk(s, batch) && (added ==> DeadLettered(s, failed[0]))
    case InsertingBodies(batch, failures) => Carries(s, w, batch) && failures < MAX_RETRIES
    case InsertingRows(batch, failures, bodiesIn) =>
      Carries(s, w, batch) && failures < MAX_RETRIES && (bodiesIn ==> HashSet(batch.bodies) <= s.hashes)
    case Sleeping(batch, failures) => Carries(s, w, batch) && failures < MAX_RETRIES
    case Acking(batch) => Carries(s, w, batch) && forall i | 0 <= i < |batch.ids| :: Stored(s, batch.ids[i])
    case DeadLettering(batch, sent) =>
      Carries(s, w, batch) && sent <= |batch.ids| && forall i | 0 <= i < sent :: DeadLettered(s, batch.ids[i])
  }

  ghost predicate Inv(s: World) {
    LedgerOk(s) && forall w | w in s.writers :: PhaseOk(s, w, s.writers[w])
  }

  /** Nothing published, stored or dead-lettered is ever taken back. */
  predicate Grows(s: World, t: World) {
    s.stream <= t.stream && s.dlq <= t.dlq && s.lost <= t.lost && s.rows <= t.rows && s.hashes <= t.hashes
  }

  /** What is pending with this writer stays so. */
  predicate Keeps(s: World, t: World, w: WriterId) {
    forall id | id in s.pending && s.pending[id] == w :: id in t.pending && t.pending[id] == w
  }

  lemma SettledGrows(s: World, t: World, id: Id)
    requires Grows(s, t)
    ensures Stored(s, id) ==> Stored(t, id)
    ensures DeadLettered(s, id) ==> DeadLettered(t, id)
  {}

  lemma CarriesGrows(s: World, t: World, w: WriterId, b: Batch)
    requires Grows(s, t) && Keeps(s, t, w) && Carries(s, w, b)
    ensures Carries(t, w, b)
  {}

  lemma PhaseGrows(s: World, t: World, w: WriterId, p: Phase)
    requires Grows(s, t) && Keeps(s, t, w) && PhaseOk(s, w, p)
    ensures PhaseOk(t, w, p)
  {
    match p
    case Idle =>
    case Exited =>
    case Discarding(failed, added, batch) =>
    case InsertingBodies(batch, failures) => CarriesGrows(s, t, w, batch);
    case InsertingRows(batch, failures, bodiesIn) => CarriesGrows(s, t, w, batch);
    case Sleeping(batch, failures) => CarriesGrows(s, t, w, batch);
    case Acking(batch) =>
      CarriesGrows(s, t, w, batch);
      forall i | 0 <= i < |batch.ids| ensures Stored(t, batch.ids[i]) { SettledGrows(s, t, batch.ids[i]); }
    case DeadLettering(batch, sent) =>
      CarriesGrows(s, t, w, batch);
  }

  /** One writer moves to a new phase; the others, and the ledger, are as they were or better. */
  lemma WriterMoves(s: World, t: World, w: WriterId, p: Phase)
    requires Inv(s) && Grows(s, t) && LedgerOk(t) && PhaseOk(t, w, p)
    requires forall v | v in s.writers && v != w :: Keeps(s, t, v)
    requires t.writers == s.writers[w := p]
    ensures Inv(t)
  {
    forall v | v in t.writers ensures PhaseOk(t, v, t.writers[v]) {
      if v != w { PhaseGrows(s, t, v, s.writers[v]); }
    }
  }

  /** The ledger survives every step that only adds. */
  lemma LedgerGrows(s: World, t: World)
    requires LedgerOk(s) && Grows(s, t)
    requires t.delivered == s.delivered && t.pending == s.pending && t.acked == s.acked
    ensures LedgerOk(t)
  {}

  lemma LedgerAcks(s: World, ids: set<Id>)
    requires LedgerOk(s) && forall id | id in ids :: id in s.pending && Settled(s, id)
    ensures LedgerOk(Acknowledge(s, ids))
  {}

  lemma LedgerDelivers(s: World, w: WriterId, n: nat)
    requires LedgerOk(s) && s.delivered + n <= |s.stream|
    ensures LedgerOk(Deliver(s, w, n))
    ensures forall v :: Keeps(s, Deliver(s, w, n), v)
    ensures Owned(Deliver(s, w, n), w, Next(s, n))
  {
    var t := Deliver(s, w, n);
    var ids := Next(s, n);
    forall id: Id ensures id in IdSet(ids) <==> s.delivered <= id < s.delivered + n {
      if s.delivered <= id < s.delivered + n { assert ids[id - s.delivered] == id; }
    }
    forall id | id in t.acked ensures Settled(t, id) { SettledGrows(s, t, id); }
  }

  /** Acknowledging one writer's entries leaves the others' pending. */
  lemma AcksKeepOthers(s: World, w: WriterId, v: WriterId, ids: set<Id>)
    requires v != w && forall id | id in ids :: id in s.pending && s.pending[id] == w
    ensures Keeps(s, Acknowledge(s, ids), v)
  {}

  // ---- each action keeps it ----

  /** What a read leaves the writer with. */
  lemma ReadPhaseOk(t: World, w: WriterId, ids: seq<Id>)
    requires Owned(t, w, ids) && forall i | 0 <= i < |ids| :: ids[i] < |t.stream|
    ensures PhaseOk(t, w, AfterDiscard(Failed(t.stream, ids), BatchOf(t.stream, Decoded(t.stream, ids))))
  {
    SplitOwned(t, w, ids);
    BatchOfIsOk(t, Decoded(t.stream, ids));
  }

  lemma ReadKeeps(s: World, w: WriterId, n: nat)
    requires Inv(s) && Enabled(s, Read(w, n))
    ensures Inv(Apply(s, Read(w, n)))
  {
    var t, ids := Deliver(s, w, n), Next(s, n);
    LedgerDelivers(s, w, n);
    ReadPhaseOk(t, w, ids);
    MoveKeeps(s, t, w, AfterDiscard(Failed(s.stream, ids), BatchOf(s.stream, Decoded(s.stream, ids))));
  }

  /** Moving a writer on after a step that leaves the ledger in order. */
  lemma MoveKeeps(s: World, t: World, w: WriterId, p: Phase)
    requires Inv(s) && Grows(s, t) && LedgerOk(t) && PhaseOk(t, w, p) && t.writers == s.writers
    requires forall v | v in s.writers && v != w :: Keeps(s, t, v)
    ensures Inv(MoveTo(t, w, p))
  {
    var u := MoveTo(t, w, p);
    MovedLedger(t, w, p);
    PhaseGrows(t, u, w, p);
    forall v | v in s.writers && v != w ensures Keeps(s, u, v) { assert Keeps(s, t, v); }
    WriterMoves(s, u, w, p);
  }

  lemma MovedLedger(s: World, w: WriterId, p: Phase)
    requires LedgerOk(s)
    ensures LedgerOk(MoveTo(s, w, p))
  {}

  lemma {:induction false} SplitDistinct(stream: seq<Payload>, ids: seq<Id>)
    requires Distinct(ids) && forall i | 0 <= i < |ids| :: ids[i] < |stream|
    ensures Distinct(Failed(stream, ids)) && Distinct(Decoded(stream, ids))
  {
    if ids != [] { SplitDistinct(stream, ids[..|ids| - 1]); }
  }

  lemma DistinctJoin(xs: seq<Id>, ys: seq<Id>)
    requires Distinct(xs) && Distinct(ys)
    requires forall i, j | 0 <= i < |xs| && 0 <= j < |ys| :: xs[i] != ys[j]
    ensures Distinct(xs + ys)
  {}

  lemma OwnedPart(s: World, w: WriterId, ids: seq<Id>, part: seq<Id>)
    requires Owned(s, w, ids) && Distinct(part) && forall i | 0 <= i < |part| :: part[i] in ids
    ensures Owned(s, w, part)
  {}

  lemma SplitOwned(s: World, w: WriterId, ids: seq<Id>)
    requires Owned(s, w, ids) && forall i | 0 <= i < |ids| :: ids[i] < |s.stream|
    ensures Owned(s, w, Failed(s.stream, ids) + Decoded(s.stream, ids))
    ensures Owned(s, w, Decoded(s.stream, ids))
  {
    var f, d := Failed(s.stream, ids), Decoded(s.stream, ids);
    SplitDistinct(s.stream, ids);
    DistinctJoin(f, d);
    OwnedPart(s, w, ids, d);
    OwnedPart(s, w, ids, f + d);
  }

  lemma BatchOfIsOk(s: World, ids: seq<Id>)
    requires forall i | 0 <= i < |ids| :: ids[i] < |s.stream| && s.stream[ids[i]].Span?
    ensures BatchOk(s, BatchOf(s.stream, ids))
  {
    var b := BatchOf(s.stream, ids);
    DedupIsLossless(s.stream, ids);
    forall i, x | 0 <= i < |ids| && x in s.stream[ids[i]].bodies ensures x.hash in HashSet(b.bodies) {
      var j :| 0 <= j < |s.stream[ids[i]].bodies| && s.stream[ids[i]].bodies[j] == x;
      assert HasHash(s.stream[ids[i]].bodies, x.hash);
      assert HasHash(b.bodies, x.hash);
      var k :| 0 <= k < |b.bodies| && b.bodies[k].hash == x.hash;
      assert b.bodies[k] in b.bodies;
    }
  }

  lemma DiscardAddKeeps(s: World, w: WriterId, ok: bool)
    requires Inv(s) && Enabled(s, DiscardAdd(w, ok))
    ensures Inv(Apply(s, DiscardAdd(w, ok)))
  {
    var p := PhaseOf(s, w);
    var t := Lettered(s, p.failed[0], ok);
    LedgerGrows(s, t);
    PhaseGrows(s, t, w, p);
    MoveKeeps(s, t, w, p.(added := true));
  }

  /** Acknowledging the head of a list of owned entries leaves the rest owned. */
  lemma OwnedTail(s: World, w: WriterId, ids: seq<Id>)
    requires ids != [] && Owned(s, w, ids)
    ensures Owned(Acknowledge(s, {ids[0]}), w, ids[1..]) && Owned(s, w, ids[1..])
  {}

  lemma BatchGrows(s: World, t: World, b: Batch)
    requires Grows(s, t) && BatchOk(s, b)
    ensures BatchOk(t, b)
  {}

  lemma DiscardedPhaseOk(t: World, w: WriterId, failed: seq<Id>, batch: Batch)
    requires Owned(t, w, failed + batch.ids) && BatchOk(t, batch)
    ensures PhaseOk(t, w, AfterDiscard(failed, batch))
  {
    if failed == [] { assert failed + batch.ids == batch.ids; }
  }

  lemma DiscardAckKeeps(s: World, w: WriterId, applied: bool)
    requires Inv(s) && Enabled(s, DiscardAck(w, applied))
    ensures Inv(Apply(s, DiscardAck(w, applied)))
  {
    var p := PhaseOf(s, w);
    var ids := p.failed + p.batch.ids;
    var t := if applied then Acknowledge(s, {p.failed[0]}) else s;
    assert PhaseOk(s, w, p) && ids[0] == p.failed[0];
    OwnedTail(s, w, ids);
    assert ids[1..] == p.failed[1..] + p.batch.ids;
    if applied { LedgerAcks(s, {p.failed[0]}); }
    BatchGrows(s, t, p.batch);
    DiscardedPhaseOk(t, w, p.failed[1..], p.batch);
    forall v | v in s.writers && v != w ensures Keeps(s, t, v) { AcksKeepOthers(s, w, v, {p.failed[0]}); }
    MoveKeeps(s, t, w, AfterDiscard(p.failed[1..], p.batch));
  }

  lemma PutBodiesKeeps(s: World, w: WriterId, ok: bool, stored: set<Hash>)
    requires Inv(s) && Enabled(s, PutBodies(w, ok, stored))
    ensures Inv(Apply(s, PutBodies(w, ok, stored)))
  {
    var p := PhaseOf(s, w);
    var t := s.(hashes := s.hashes + if ok then HashSet(p.batch.bodies) else stored * HashSet(p.batch.bodies));
    LedgerGrows(s, t);
    PhaseGrows(s, t, w, p);
    MoveKeeps(s, t, w, InsertingRows(p.batch, p.failures, ok));
  }

  /** Once the bodies and then the rows are in, every entry of the batch is stored. */
  lemma InsertedIsStored(t: World, b: Batch)
    requires BatchOk(t, b) && HashSet(b.bodies) <= t.hashes && forall r | r in b.obs :: r in t.rows
    ensures forall i | 0 <= i < |b.ids| :: Stored(t, b.ids[i])
  {}

  lemma PutRowsKeeps(s: World, w: WriterId, ok: bool, some: set<ObsRow>, transient: bool)
    requires Inv(s) && Enabled(s, PutRows(w, ok, some, transient))
    ensures Inv(Apply(s, PutRows(w, ok, some, transient)))
  {
    var p := PhaseOf(s, w);
    var all := set r | r in p.batch.obs;
    var t := s.(rows := s.rows + if ok then all else some * all);
    LedgerGrows(s, t);
    PhaseGrows(s, t, w, p);
    if ok && p.bodiesIn {
      forall r | r in p.batch.obs ensures r in t.rows { assert r in all; }
      InsertedIsStored(t, p.batch);
      MoveKeeps(s, t, w, Acking(p.batch));
    } else {
      MoveKeeps(s, t, w, AfterFailure(p.batch, p.failures, transient));
    }
  }

  /** Acknowledging a whole settled batch. */
  lemma BatchAckKeeps(s: World, w: WriterId, b: Batch, applied: bool)
    requires Inv(s) && w in s.writers && Carries(s, w, b) && forall i | 0 <= i < |b.ids| :: Settled(s, b.ids[i])
    ensures Inv(MoveTo(if applied then Acknowledge(s, IdSet(b.ids)) else s, w, Idle))
  {
    var t := if applied then Acknowledge(s, IdSet(b.ids)) else s;
    forall id | id in IdSet(b.ids) ensures id in s.pending && s.pending[id] == w && Settled(s, id) {
      var i :| 0 <= i < |b.ids| && b.ids[i] == id;
    }
    if applied { LedgerAcks(s, IdSet(b.ids)); }
    forall v | v in s.writers && v != w ensures Keeps(s, t, v) { AcksKeepOthers(s, w, v, IdSet(b.ids)); }
    MoveKeeps(s, t, w, Idle);
  }

  lemma OneMoreSent(t: World, w: WriterId, batch: Batch, sent: nat)
    requires PhaseOk(t, w, DeadLettering(batch, sent)) && sent < |batch.ids| && DeadLettered(t, batch.ids[sent])
    ensures PhaseOk(t, w, DeadLettering(batch, sent + 1))
  {}

  lemma LetteredKeeps(s: World, w: WriterId, batch: Batch, sent: nat, ok: bool)
    requires Inv(s) && w in s.writers && s.writers[w] == DeadLettering(batch, sent) && sent < |batch.ids|
    ensures Inv(MoveTo(Lettered(s, batch.ids[sent], ok), w, DeadLettering(batch, sent + 1)))
  {
    var t := Lettered(s, batch.ids[sent], ok);
    LedgerGrows(s, t);
    PhaseGrows(s, t, w, DeadLettering(batch, sent));
    OneMoreSent(t, w, batch, sent);
    MoveKeeps(s, t, w, DeadLettering(batch, sent + 1));
  }

  lemma DeadLetterKeeps(s: World, w: WriterId, ok: bool)
    requires Inv(s) && Enabled(s, DeadLetter(w, ok))
    ensures Inv(Apply(s, DeadLetter(w, ok)))
  {
    var p := PhaseOf(s, w);
    LetteredKeeps(s, w, p.batch, p.sent, ok);
    assert Apply(s, DeadLetter(w, ok)) == MoveTo(Lettered(s, p.batch.ids[p.sent], ok), w, p.(sent := p.sent + 1));
  }

  lemma PublishKeeps(s: World, payload: Payload)
    requires Inv(s)
    ensures Inv(s.(stream := s.stream + [payload]))
  {
    var t := s.(stream := s.stream + [payload]);
    LedgerGrows(s, t);
    forall w | w in t.writers ensures PhaseOk(t, w, t.writers[w]) { PhaseGrows(s, t, w, s.writers[w]); }
  }

  lemma ReadLostKeeps(s: World, w: WriterId, n: nat)
    requires Inv(s) && s.delivered + n <= |s.stream|
    ensures Inv(Deliver(s, w, n))
  {
    LedgerDelivers(s, w, n);
    forall v | v in s.writers ensures PhaseOk(Deliver(s, w, n), v, s.writers[v]) {
      PhaseGrows(s, Deliver(s, w, n), v, s.writers[v]);
    }
  }

  /** The actions of the insert loop. */
  predicate Retries(a: Action) { a.PutBodies? || a.PutRows? || a.Wake? }

  lemma RetryKeeps(s: World, a: Action)
    requires Inv(s) && Enabled(s, a) && Retries(a)
    ensures Inv(Apply(s, a))
  {
    match a
    case PutBodies(w, ok, stored) => PutBodiesKeeps(s, w, ok, stored);
    case PutRows(w, ok, some, transient) => PutRowsKeeps(s, w, ok, some, transient);
    case Wake(w) => var p := PhaseOf(s, w); MoveKeeps(s, s, w, InsertingBodies(p.batch, p.failures));
  }

  /** The actions that end a batch or a writer. */
  predicate Ends(a: Action) { a.Shutdown? || a.Ack? || a.DeadAck? || a.Crash? }

  lemma EndKeeps(s: World, a: Action)
    requires Inv(s) && Enabled(s, a) && Ends(a)
    ensures Inv(Apply(s, a))
  {
    match a
    case Shutdown(w) => MoveKeeps(s, s, w, Exited);
    case Ack(w, applied) => BatchAckKeeps(s, w, PhaseOf(s, w).batch, applied);
    case DeadAck(w, applied) => BatchAckKeeps(s, w, PhaseOf(s, w).batch, applied);
    case Crash(w) => MoveKeeps(s, s, w, Exited);
  }

  /** Every action of every writer, publisher and failure keeps the invariant. */
  lemma ActionKeeps(s: World, a: Action)
    requires Inv(s) && Enabled(s, a)
    ensures Inv(Apply(s, a))
  {
    match a
    case Publish(payload) => PublishKeeps(s, payload);
    case Join(w) => MoveKeeps(s, s, w, Idle);
    case Read(w, n) => ReadKeeps(s, w, n);
    case ReadLost(w, n) => ReadLostKeeps(s, w, n);
    case DiscardAdd(w, ok) => DiscardAddKeeps(s, w, ok);
    case DiscardAck(w, applied) => DiscardAckKeeps(s, w, applied);
    case DeadLetter(w, ok) => DeadLetterKeeps(s, w, ok);
    case _ => if Retries(a) { RetryKeeps(s, a); } else { EndKeeps(s, a); }
  }

  lemma {:induction false} RunKeeps(s: World, run: seq<Action>)
    requires Inv(s) && Possible(s, run)
    ensures Inv(After(s, run))
    decreases |run|
  {
    if run != [] {
      ActionKeeps(s, run[0]);
      RunKeeps(Apply(s, run[0]), run[1..]);
    }
  }

  // ---- what it gives ----

  datatype Standing = Undelivered | Pending | Acknowledged

  /** Where a published entry stands. */
  predicate Stands(s: World, id: Id, at: Standing) {
    match at
    case Undelivered => s.delivered <= id
    case Pending => id in s.pending
    case Acknowledged => id in s.acked
  }

  /** Conservation: in every reachable state each published entry stands in exactly one place. */
  lemma ExactlyOneStanding(run: seq<Action>, id: Id)
    requires Possible(EMPTY, run) && id < |After(EMPTY, run).stream|
    ensures exists at :: Stands(After(EMPTY, run), id, at)
    ensures forall at, bt :: Stands(After(EMPTY, run), id, at) && Stands(After(EMPTY, run), id, bt) ==> at == bt
  {
    RunKeeps(EMPTY, run);
    var s := After(EMPTY, run);
    var at := if s.delivered <= id then Undelivered else if id in s.pending then Pending else Acknowledged;
    assert Stands(s, id, at);
  }

  /** Safety: an acknowledged entry is stored with every body it came with, or was dead-lettered,
      unless its own dead-letter append failed. */
  lemma AcknowledgedIsSettled(run: seq<Action>, id: Id)
    requires Possible(EMPTY, run) && id in After(EMPTY, run).acked
    ensures var s := After(EMPTY, run); Stored(s, id) || id in s.dlq || id in s.lost
  {
    RunKeeps(EMPTY, run);
  }

  /** No dead-letter append fails in this run. */
  predicate DlqAvailable(run: seq<Action>) {
    forall i | 0 <= i < |run| ::
      (run[i].DiscardAdd? ==> run[i].ok) && (run[i].DeadLetter? ==> run[i].ok)
  }

  lemma {:induction false} AvailableLosesNone(s: World, run: seq<Action>)
    requires Possible(s, run) && DlqAvailable(run)
    ensures After(s, run).lost == s.lost
    decreases |run|
  {
    if run != [] {
      assert run[0] in run;
      AvailableLosesNone(Apply(s, run[0]), run[1..]);
    }
  }

  /** With a dead-letter queue that accepts appends, nothing acknowledged is missing. */
  lemma NothingAcknowledgedIsMissing(run: seq<Action>, id: Id)
    requires Possible(EMPTY, run) && DlqAvailable(run) && id in After(EMPTY, run).acked
    ensures var s := After(EMPTY, run); Stored(s, id) || id in s.dlq
  {
    AcknowledgedIsSettled(run, id);
    AvailableLosesNone(EMPTY, run);
  }

  // ---- no redelivery ----

  function ActorOf(a: Action): (w: WriterId)
    requires !a.Publish?
  {
    a.w
  }

  /** What a writer acknowledges is its own. */
  lemma OwnAcks(s: World, w: WriterId, ids: seq<Id>, v: WriterId)
    requires Owned(s, w, ids) && v != w
    ensures Keeps(s, Acknowledge(s, IdSet(ids)), v)
  {}

  lemma OthersKeepPending(s: World, a: Action, v: WriterId)
    requires Inv(s) && Enabled(s, a) && (a.Publish? || ActorOf(a) != v)
    ensures Keeps(s, Apply(s, a), v)
  {
    match a
    case Read(w, n) => LedgerDelivers(s, w, n);
    case ReadLost(w, n) => LedgerDelivers(s, w, n);
    case DiscardAck(w, applied) =>
      var p := PhaseOf(s, w);
      assert (p.failed + p.batch.ids)[0] == p.failed[0];
      AcksKeepOthers(s, w, v, {p.failed[0]});
    case Ack(w, applied) => OwnAcks(s, w, PhaseOf(s, w).batch.ids, v);
    case DeadAck(w, applied) => OwnAcks(s, w, PhaseOf(s, w).batch.ids, v);
    case _ =>
  }

  lemma ExitedActsNoMore(s: World, a: Action, w: WriterId)
    requires w in s.writers && s.writers[w] == Exited && Enabled(s, a)
    ensures w in Apply(s, a).writers && Apply(s, a).writers[w] == Exited
    ensures a.Publish? || ActorOf(a) != w || a == Crash(w)
  {}

  /** Writers read only new entries, so what a stopped writer left pending is pending with it in
      every later state: it is neither acknowledged nor delivered again. */
  lemma {:induction false} LeftPendingStaysPending(s: World, run: seq<Action>, w: WriterId, id: Id)
    requires Inv(s) && Possible(s, run)
    requires w in s.writers && s.writers[w] == Exited && id in s.pending && s.pending[id] == w
    ensures id in After(s, run).pending && After(s, run).pending[id] == w
    decreases |run|
  {
    if run != [] {
      var t := Apply(s, run[0]);
      ExitedActsNoMore(s, run[0], w);
      if run[0] != Crash(w) { OthersKeepPending(s, run[0], w); }
      ActionKeeps(s, run[0]);
      LeftPendingStaysPending(t, run[1..], w, id);
    }
  }

  /** A writer told to stop while it waits to retry acknowledges nothing of its batch, then or ever. */
  lemma StoppedBatchStaysPending(s: World, w: WriterId, run: seq<Action>, id: Id)
    requires Inv(s) && w in s.writers && s.writers[w].Sleeping? && id in s.writers[w].batch.ids
    requires Possible(Apply(s, Shutdown(w)), run)
    ensures var t := After(Apply(s, Shutdown(w)), run); id in t.pending && t.pending[id] == w && id !in t.acked
  {
    var stopped := Apply(s, Shutdown(w));
    ActionKeeps(s, Shutdown(w));
    LeftPendingStaysPending(stopped, run, w, id);
    RunKeeps(stopped, run);
  }

  /** A publisher sends every body its observation row names. */
  predicate SelfContained(p: Payload) {
    p.Span? && forall h | h in p.obs.hashes :: HasHash(p.bodies, h)
  }

  /** The queue has to accept appends: one undecodable entry whose append fails is acknowledged and
      gone. */
  lemma FailedAppendLosesEntry() returns (run: seq<Action>)
    ensures Possible(EMPTY, run) && var s := After(EMPTY, run); 0 in s.acked && 0 !in s.dlq && !Stored(s, 0)
  {
    var none := Batch([], [], []);
    var s1 := EMPTY.(stream := [Garbled]);
    var s2 := s1.(writers := map[0 := Idle]);
    var s3 := s2.(delivered := 1, pending := map[0 := 0], writers := map[0 := Discarding([0], false, none)]);
    var s4 := s3.(lost := {0}, writers := map[0 := Discarding([0], true, none)]);
    var s5 := s4.(pending := map[], acked := {0}, writers := map[0 := Idle]);
    run := EndRun(s3, s4, s5, none);
    run := StartRun(s1, s2, s3, none, run);
    assert Apply(EMPTY, Publish(Garbled)) == s1;
    RunCons(EMPTY, Publish(Garbled), s1, run, s5);
    run := [Publish(Garbled)] + run;
  }

  lemma EndRun(s3: World, s4: World, s5: World, none: Batch) returns (run: seq<Action>)
    requires none == Batch([], [], []) && s3.writers == map[0 := Discarding([0], false, none)]
    requires s3.pending == map[0 := 0] && s3.acked == {} && s3.lost == {}
    requires s4 == s3.(lost := {0}, writers := map[0 := Discarding([0], true, none)])
    requires s5 == s4.(pending := map[], acked := {0}, writers := map[0 := Idle])
    ensures Possible(s3, run) && After(s3, run) == s5
  {
    FirstDiscard(s3, s4, s5, none);
    RunCons(s4, DiscardAck(0, true), s5, [], s5);
    run := [DiscardAck(0, true)] + [];
    RunCons(s3, DiscardAdd(0, false), s4, run, s5);
    run := [DiscardAdd(0, false)] + run;
  }

  lemma StartRun(s1: World, s2: World, s3: World, none: Batch, rest: seq<Action>) returns (run: seq<Action>)
    requires s1 == EMPTY.(stream := [Garbled]) && s2 == s1.(writers := map[0 := Idle]) && none == Batch([], [], [])
    requires s3 == s2.(delivered := 1, pending := map[0 := 0], writers := map[0 := Discarding([0], false, none)])
    requires Possible(s3, rest)
    ensures Possible(s1, run) && After(s1, run) == After(s3, rest)
  {
    FirstRead(s2, s3, none);
    RunCons(s2, Read(0, 1), s3, rest, After(s3, rest));
    run := [Read(0, 1)] + rest;
    assert Apply(s1, Join(0)) == s2;
    RunCons(s1, Join(0), s2, run, After(s3, rest));
    run := [Join(0)] + run;
  }

  lemma FirstRead(s: World, t: World, none: Batch)
    requires s == EMPTY.(stream := [Garbled], writers := map[0 := Idle]) && none == Batch([], [], [])
    requires t == s.(delivered := 1, pending := map[0 := 0], writers := map[0 := Discarding([0], false, none)])
    ensures Enabled(s, Read(0, 1)) && Apply(s, Read(0, 1)) == t
  {
    assert Consecutive(0, 0) == [];
    assert Next(s, 1) == [0];
    assert [0][..0] == [];
    assert Failed(s.stream, []) == [] && Decoded(s.stream, []) == [];
    assert Failed(s.stream, [0]) == [0] && Decoded(s.stream, [0]) == [];
    assert BatchOf(s.stream, []) == none;
  }

  lemma FirstDiscard(s3: World, s4: World, s5: World, none: Batch)
    requires none == Batch([], [], []) && s3.writers == map[0 := Discarding([0], false, none)]
    requires s3.pending == map[0 := 0] && s3.acked == {} && s3.lost == {}
    requires s4 == s3.(lost := {0}, writers := map[0 := Discarding([0], true, none)])
    requires s5 == s4.(pending := map[], acked := {0}, writers := map[0 := Idle])
    ensures Enabled(s3, DiscardAdd(0, false)) && Apply(s3, DiscardAdd(0, false)) == s4
    ensures Enabled(s4, DiscardAck(0, true)) && Apply(s4, DiscardAck(0, true)) == s5
  {
    assert [0][1..] == [];
    assert Acknowledge(s4, {0}) == s4.(pending := map[], acked := {0});
  }

  lemma RunCons(s: World, a: Action, t: World, rest: seq<Action>, u: World)
    requires Enabled(s, a) && Apply(s, a) == t && Possible(t, rest) && After(t, rest) == u
    ensures Possible(s, [a] + rest) && After(s, [a] + rest) == u
  {}
}
