/** What the stream writer does with one batch: decoding, deduplicating bodies, and the insert
    retry loop. */
module WriterBatch {
  import opened Common

  /** A digest of a body. */
  type Hash = string

  datatype BodyRow = BodyRow(hash: Hash, body: string)

  /** An observation row and the body hashes it names. */
  datatype ObsRow = ObsRow(key: string, hashes: seq<Hash>)

  /** A stream entry's payload; what bincode cannot decode is Garbled. */
  datatype Payload = Garbled | Span(obs: ObsRow, bodies: seq<BodyRow>)

  type Id = nat

  datatype Batch = Batch(ids: seq<Id>, obs: seq<ObsRow>, bodies: seq<BodyRow>)

  // ---- decoding ----

  function Failed(stream: seq<Payload>, ids: seq<Id>): (r: seq<Id>)
    requires forall i | 0 <= i < |ids| :: ids[i] < |stream|
    ensures forall i | 0 <= i < |r| :: r[i] in ids && r[i] < |stream| && stream[r[i]].Garbled?
  {
    if ids == [] then []
    else
      var n := |ids| - 1;
      Failed(stream, ids[..n]) + if stream[ids[n]].Garbled? then [ids[n]] else []
  }

  function Decoded(stream: seq<Payload>, ids: seq<Id>): (r: seq<Id>)
    requires forall i | 0 <= i < |ids| :: ids[i] < |stream|
    ensures forall i | 0 <= i < |r| :: r[i] in ids && r[i] < |stream| && stream[r[i]].Span?
  {
    if ids == [] then []
    else
      var n := |ids| - 1;
      Decoded(stream, ids[..n]) + if stream[ids[n]].Span? then [ids[n]] else []
  }

  lemma DecodeStep(stream: seq<Payload>, ids: seq<Id>, i: nat)
    requires i < |ids| && forall j | 0 <= j < |ids| :: ids[j] < |stream|
    ensures Failed(stream, ids[..i + 1]) == Failed(stream, ids[..i]) + if stream[ids[i]].Garbled? then [ids[i]] else []
    ensures Decoded(stream, ids[..i + 1]) == Decoded(stream, ids[..i]) + if stream[ids[i]].Span? then [ids[i]] else []
  {
    assert ids[..i + 1][..i] == ids[..i];
  }

  /** Every entry is in one list or the other, once. */
  lemma {:induction false} DecodeSplits(stream: seq<Payload>, ids: seq<Id>)
    requires forall j | 0 <= j < |ids| :: ids[j] < |stream|
    ensures multiset(Failed(stream, ids)) + multiset(Decoded(stream, ids)) == multiset(ids)
  {
    if ids != [] {
      var n := |ids| - 1;
      DecodeSplits(stream, ids[..n]);
      assert ids == ids[..n] + [ids[n]];
    }
  }

  /** These are the entries of one sort, garbled or not, at these positions of the read, which ascend and leave out
      none. */
  ghost predicate SortedOut(stream: seq<Payload>, ids: seq<Id>, garbled: bool, part: seq<Id>, at: seq<nat>) {
    |at| == |part| &&
    (forall k | 0 <= k < |at| :: at[k] < |ids| && part[k] == ids[at[k]]) &&
    (forall j, k | 0 <= j < k < |at| :: at[j] < at[k]) &&
    forall i | 0 <= i < |ids| :: ids[i] < |stream| && (i in at <==> stream[ids[i]].Garbled? == garbled)
  }

  lemma SortedSnoc(stream: seq<Payload>, front: seq<Id>, id: Id, garbled: bool, part: seq<Id>, at: seq<nat>)
    requires SortedOut(stream, front, garbled, part, at) && id < |stream|
    ensures var chosen := stream[id].Garbled? == garbled;
      SortedOut(stream, front + [id], garbled, part + (if chosen then [id] else []),
                at + if chosen then [|front|] else [])
  {
    var ids := front + [id];
    var chosen := stream[id].Garbled? == garbled;
    var more := at + if chosen then [|front|] else [];
    forall i | 0 <= i < |ids| ensures ids[i] < |stream| && (i in more <==> stream[ids[i]].Garbled? == garbled) {
      if i < |front| { assert ids[i] == front[i] && (i in more <==> i in at); }
    }
  }

  /** Both lists keep the order of the read. */
  lemma {:induction false} DecodeKeepsOrder(stream: seq<Payload>, ids: seq<Id>) returns (bad: seq<nat>, good: seq<nat>)
    requires forall j | 0 <= j < |ids| :: ids[j] < |stream|
    ensures SortedOut(stream, ids, true, Failed(stream, ids), bad)
    ensures SortedOut(stream, ids, false, Decoded(stream, ids), good)
  {
    if ids == [] { return [], []; }
    var front, id := ids[..|ids| - 1], ids[|ids| - 1];
    var bads, goods := DecodeKeepsOrder(stream, front);
    assert ids == front + [id];
    SortedSnoc(stream, front, id, true, Failed(stream, front), bads);
    SortedSnoc(stream, front, id, false, Decoded(stream, front), goods);
    bad := bads + if stream[id].Garbled? then [|front|] else [];
    good := goods + if stream[id].Span? then [|front|] else [];
  }

  /** The decode loop: every entry goes to one list or the other, in order. */
  method DecodeBatch(stream: seq<Payload>, ids: seq<Id>) returns (failed: seq<Id>, decoded: seq<Id>)
    requires forall i | 0 <= i < |ids| :: ids[i] < |stream|
    ensures failed == Failed(stream, ids) && decoded == Decoded(stream, ids)
  {
    failed, decoded := [], [];
    for i := 0 to |ids|
      invariant failed == Failed(stream, ids[..i]) && decoded == Decoded(stream, ids[..i])
    {
      DecodeStep(stream, ids, i);
      match stream[ids[i]]
      case Span(_, _) => decoded := decoded + [ids[i]];
      case Garbled => failed := failed + [ids[i]];
    }
    assert ids[..|ids|] == ids;
  }

  // ---- deduplicating bodies ----

  predicate HasHash(bodies: seq<BodyRow>, hash: Hash) {
    exists i | 0 <= i < |bodies| :: bodies[i].hash == hash
  }

  /** The rows whose hash no earlier row has. */
  function FirstOccurrences(bodies: seq<BodyRow>): seq<BodyRow> {
    if bodies == [] then []
    else
      var n := |bodies| - 1;
      FirstOccurrences(bodies[..n]) + if HasHash(bodies[..n], bodies[n].hash) then [] else [bodies[n]]
  }

  /** These entries are all spans. */
  predicate AllSpans(stream: seq<Payload>, ids: seq<Id>) {
    forall i | 0 <= i < |ids| :: ids[i] < |stream| && stream[ids[i]].Span?
  }

  function BodiesOf(stream: seq<Payload>, ids: seq<Id>): seq<BodyRow>
    requires AllSpans(stream, ids)
  {
    if ids == [] then [] else BodiesOf(stream, ids[..|ids| - 1]) + stream[ids[|ids| - 1]].bodies
  }

  function RowsOf(stream: seq<Payload>, ids: seq<Id>): seq<ObsRow>
    requires AllSpans(stream, ids)
  {
    seq(|ids|, i requires 0 <= i < |ids| && ids[i] < |stream| && stream[ids[i]].Span? => stream[ids[i]].obs)
  }

  /** The batch the writer inserts for these decoded entries. */
  function BatchOf(stream: seq<Payload>, ids: seq<Id>): Batch
    requires AllSpans(stream, ids)
  {
    Batch(ids, RowsOf(stream, ids), FirstOccurrences(BodiesOf(stream, ids)))
  }

  lemma {:induction false} FirstOccurrencesHashes(bodies: seq<BodyRow>, hash: Hash)
    ensures HasHash(FirstOccurrences(bodies), hash) <==> HasHash(bodies, hash)
  {
    if bodies != [] {
      var n := |bodies| - 1;
      FirstOccurrencesHashes(bodies[..n], hash);
      var firsts, kept := FirstOccurrences(bodies[..n]), FirstOccurrences(bodies);
      if HasHash(bodies, hash) {
        var i :| 0 <= i < |bodies| && bodies[i].hash == hash;
        if i < n { assert bodies[..n][i].hash == hash; }
        if HasHash(bodies[..n], hash) {
          var j :| 0 <= j < |firsts| && firsts[j].hash == hash;
          assert kept[j].hash == hash;
        } else {
          assert kept[|kept| - 1].hash == hash;
        }
      }
    }
  }

  predicate DistinctHashes(bodies: seq<BodyRow>) {
    forall i, j | 0 <= i < j < |bodies| :: bodies[i].hash != bodies[j].hash
  }

  lemma {:induction false} FirstOccurrencesDistinct(bodies: seq<BodyRow>)
    ensures DistinctHashes(FirstOccurrences(bodies))
  {
    if bodies != [] {
      var n := |bodies| - 1;
      FirstOccurrencesDistinct(bodies[..n]);
      FirstOccurrencesHashes(bodies[..n], bodies[n].hash);
    }
  }

  /** No earlier row has the hash of row i. */
  predicate FirstAt(bodies: seq<BodyRow>, i: nat) {
    i < |bodies| && !HasHash(bodies[..i], bodies[i].hash)
  }

  lemma FirstAtSnoc(front: seq<BodyRow>, row: BodyRow, i: nat)
    requires i <= |front|
    ensures FirstAt(front + [row], i) <==> if i < |front| then FirstAt(front, i) else !HasHash(front, row.hash)
  {
    var all := front + [row];
    assert all[..i] == front[..i];
    assert all[i] == if i < |front| then front[i] else row;
  }

  /** The kept rows are those at these positions, in order. */
  predicate KeptAt(bodies: seq<BodyRow>, kept: seq<BodyRow>, at: seq<nat>) {
    |at| == |kept| &&
    (forall k | 0 <= k < |at| :: FirstAt(bodies, at[k]) && kept[k] == bodies[at[k]]) &&
    (forall j, k | 0 <= j < k < |at| :: at[j] < at[k])
  }

  ghost predicate AllListed(bodies: seq<BodyRow>, at: seq<nat>) { forall i: nat | FirstAt(bodies, i) :: i in at }

  /** The kept rows are all the first ones of their hashes, at these positions. */
  ghost predicate KeptExactly(bodies: seq<BodyRow>, kept: seq<BodyRow>, at: seq<nat>) {
    KeptAt(bodies, kept, at) && AllListed(bodies, at)
  }

  lemma KeptOld(front: seq<BodyRow>, row: BodyRow, kept: seq<BodyRow>, at: seq<nat>)
    requires KeptExactly(front, kept, at) && HasHash(front, row.hash)
    ensures KeptExactly(front + [row], kept, at)
  {
    forall i: nat | i <= |front|
      ensures FirstAt(front + [row], i) <==> if i < |front| then FirstAt(front, i) else !HasHash(front, row.hash)
    {
      FirstAtSnoc(front, row, i);
    }
  }

  lemma KeptNew(front: seq<BodyRow>, row: BodyRow, kept: seq<BodyRow>, at: seq<nat>)
    requires KeptExactly(front, kept, at) && !HasHash(front, row.hash)
    ensures KeptExactly(front + [row], kept + [row], at + [|front|])
  {
    forall i: nat | i <= |front|
      ensures FirstAt(front + [row], i) <==> if i < |front| then FirstAt(front, i) else !HasHash(front, row.hash)
    {
      FirstAtSnoc(front, row, i);
    }
  }

  lemma FirstOccurrencesSnoc(front: seq<BodyRow>, row: BodyRow)
    ensures FirstOccurrences(front + [row])
         == FirstOccurrences(front) + if HasHash(front, row.hash) then [] else [row]
  {
    assert (front + [row])[..|front|] == front;
  }

  /** The rows kept are exactly the first ones of their hashes, in their order. */
  lemma {:induction false} KeptIsFirst(bodies: seq<BodyRow>) returns (at: seq<nat>)
    ensures KeptExactly(bodies, FirstOccurrences(bodies), at)
  {
    if bodies == [] { return []; }
    var front, row := bodies[..|bodies| - 1], bodies[|bodies| - 1];
    var before := KeptIsFirst(front);
    assert bodies == front + [row];
    FirstOccurrencesSnoc(front, row);
    at := KeptGrows(front, row, FirstOccurrences(front), before);
  }

  lemma KeptGrows(front: seq<BodyRow>, row: BodyRow, kept: seq<BodyRow>, before: seq<nat>) returns (at: seq<nat>)
    requires KeptExactly(front, kept, before)
    ensures KeptExactly(front + [row], kept + if HasHash(front, row.hash) then [] else [row], at)
  {
    if HasHash(front, row.hash) {
      KeptOld(front, row, kept, before);
      assert kept + [] == kept;
      at := before;
    } else {
      KeptNew(front, row, kept, before);
      at := before + [|front|];
    }
  }

  /** Deduplication loses nothing: the kept hashes are pairwise different and are exactly those of
      the batch, and row i still belongs to the entry later acknowledged as id i. */
  lemma DedupIsLossless(stream: seq<Payload>, ids: seq<Id>)
    requires AllSpans(stream, ids)
    ensures var b := BatchOf(stream, ids);
      DistinctHashes(b.bodies) && |b.obs| == |b.ids| &&
      (forall i | 0 <= i < |ids| :: b.obs[i] == stream[b.ids[i]].obs) &&
      (forall hash :: HasHash(b.bodies, hash) <==> exists i | 0 <= i < |ids| :: HasHash(stream[ids[i]].bodies, hash))
  {
    FirstOccurrencesDistinct(BodiesOf(stream, ids));
    forall hash
      ensures HasHash(BatchOf(stream, ids).bodies, hash)
         <==> exists i | 0 <= i < |ids| :: HasHash(stream[ids[i]].bodies, hash)
    {
      FirstOccurrencesHashes(BodiesOf(stream, ids), hash);
      BodiesOfHashes(stream, ids, hash);
    }
  }

  lemma HasHashJoin(xs: seq<BodyRow>, ys: seq<BodyRow>, hash: Hash)
    ensures HasHash(xs + ys, hash) <==> HasHash(xs, hash) || HasHash(ys, hash)
  {
    if HasHash(xs, hash) {
      var i :| 0 <= i < |xs| && xs[i].hash == hash;
      assert (xs + ys)[i].hash == hash;
    }
    if HasHash(ys, hash) {
      var i :| 0 <= i < |ys| && ys[i].hash == hash;
      assert (xs + ys)[|xs| + i].hash == hash;
    }
  }

  lemma {:induction false} BodiesOfHashes(stream: seq<Payload>, ids: seq<Id>, hash: Hash)
    requires AllSpans(stream, ids)
    ensures HasHash(BodiesOf(stream, ids), hash) <==> exists i | 0 <= i < |ids| :: HasHash(stream[ids[i]].bodies, hash)
  {
    if ids != [] {
      var n := |ids| - 1;
      BodiesOfHashes(stream, ids[..n], hash);
      HasHashJoin(BodiesOf(stream, ids[..n]), stream[ids[n]].bodies, hash);
      if i :| 0 <= i < |ids| && HasHash(stream[ids[i]].bodies, hash) {
        if i < n { assert ids[..n][i] == ids[i]; }
      }
      if i :| 0 <= i < n && HasHash(stream[ids[..n][i]].bodies, hash) { assert ids[..n][i] == ids[i]; }
    }
  }

  lemma BodiesSnoc(stream: seq<Payload>, front: seq<Id>, id: Id)
    requires AllSpans(stream, front) && AllSpans(stream, front + [id]) && id < |stream| && stream[id].Span?
    ensures BodiesOf(stream, front + [id]) == BodiesOf(stream, front) + stream[id].bodies
  {
    assert (front + [id])[..|front|] == front;
  }

  lemma RowsSnoc(stream: seq<Payload>, front: seq<Id>, id: Id)
    requires AllSpans(stream, front) && AllSpans(stream, front + [id]) && id < |stream| && stream[id].Span?
    ensures RowsOf(stream, front + [id]) == RowsOf(stream, front) + [stream[id].obs]
  {}

  /** Keeping one row: the inner loop of the dedup. */
  method KeepNew(bodies: seq<BodyRow>, seen: set<Hash>, kept: seq<BodyRow>, ghost before: seq<BodyRow>)
    returns (seen': set<Hash>, kept': seq<BodyRow>)
    requires kept == FirstOccurrences(before) && forall h :: h in seen <==> HasHash(before, h)
    ensures kept' == FirstOccurrences(before + bodies) && forall h :: h in seen' <==> HasHash(before + bodies, h)
  {
    seen', kept' := seen, kept;
    assert before + bodies[..0] == before;
    for i := 0 to |bodies|
      invariant kept' == FirstOccurrences(before + bodies[..i])
      invariant forall h :: h in seen' <==> HasHash(before + bodies[..i], h)
    {
      var b := bodies[i];
      var now, next := before + bodies[..i], before + bodies[..i + 1];
      assert next[..|next| - 1] == now && next[|next| - 1] == b;
      HasHashLast(now, b);
      assert next == now + [b];
      if b.hash !in seen' {
        seen' := seen' + {b.hash};
        kept' := kept' + [b];
      }
    }
    assert bodies[..|bodies|] == bodies;
  }

  lemma HasHashLast(xs: seq<BodyRow>, b: BodyRow)
    ensures forall h :: HasHash(xs + [b], h) <==> HasHash(xs, h) || h == b.hash
  {
    forall h ensures HasHash(xs + [b], h) <==> HasHash(xs, h) || h == b.hash {
      HasHashJoin(xs, [b], h);
      assert [b][0].hash == b.hash;
    }
  }

  /** The dedup loop. */
  method DedupBatch(stream: seq<Payload>, decoded: seq<Id>) returns (batch: Batch)
    requires AllSpans(stream, decoded)
    ensures batch == BatchOf(stream, decoded)
  {
    var seen: set<Hash> := {};
    var bodies: seq<BodyRow> := [];
    var obs: seq<ObsRow> := [];
    var ids: seq<Id> := [];
    for i := 0 to |decoded|
      invariant bodies == FirstOccurrences(BodiesOf(stream, decoded[..i]))
      invariant forall h :: h in seen <==> HasHash(BodiesOf(stream, decoded[..i]), h)
      invariant obs == RowsOf(stream, decoded[..i]) && ids == decoded[..i]
    {
      var payload := stream[decoded[i]];
      assert decoded[..i + 1] == decoded[..i] + [decoded[i]];
      BodiesSnoc(stream, decoded[..i], decoded[i]);
      RowsSnoc(stream, decoded[..i], decoded[i]);
      seen, bodies := KeepNew(payload.bodies, seen, bodies, BodiesOf(stream, decoded[..i]));
      obs := obs + [payload.obs];
      ids := ids + [decoded[i]];
    }
    assert decoded[..|decoded|] == decoded;
    batch := Batch(ids, obs, bodies);
  }

  // ---- classifying insert errors ----

  /** The lower case of a character, as far as it is an ASCII letter: those of A to Z, and of the Kelvin sign. */
  function LowerChar(c: char): char {
    if 'A' <= c <= 'Z' then c - 'A' + 'a' else if c == '\U{212A}' then 'k' else c
  }

  function Lower(s: string): string { seq(|s|, i requires 0 <= i < |s| => LowerChar(s[i])) }

  predicate Contains(s: string, part: string) {
    exists i | 0 <= i <= |s| :: part <= s[i..]
  }

  const TRANSIENT_SIGNS: seq<string> := [
    "network", "connect", "connection refused", "dns", "timeout", "broken pipe", "reset by peer", "eof",
    "os error", "tcp", "io error"]

  /** is_transient_error, of the error's text. */
  predicate IsTransient(message: string) {
    exists i | 0 <= i < |TRANSIENT_SIGNS| :: Contains(Lower(message), TRANSIENT_SIGNS[i])
  }

  // ---- backoff ----

  const MAX_RETRIES: nat := 3
  const BACKOFF_CAP: nat := 30_000

  /** transient_backoff_ms. */
  function TransientBackoff(attempt: nat): nat {
    var backoff := 200 * Pow2(if attempt < 7 then attempt else 7);
    if backoff < BACKOFF_CAP then backoff else BACKOFF_CAP
  }

  function PermanentBackoff(attempt: nat): nat { 100 * Pow2(attempt) }

  lemma {:induction false} Pow2Monotone(j: nat, k: nat)
    requires j <= k
    ensures Pow2(j) <= Pow2(k)
  {
    if j < k { Pow2Monotone(j, k - 1); }
  }

  /** The transient backoff never decreases with the attempt number and never reaches its cap: the
      largest value, from attempt 7 on, is 25.6 s. */
  lemma TransientBackoffBounds(j: nat, k: nat)
    requires j <= k
    ensures 200 <= TransientBackoff(j) <= TransientBackoff(k) <= 25_600 < BACKOFF_CAP
    ensures j >= 7 ==> TransientBackoff(j) == 25_600
  {
    assert Pow2(7) == 128 by { assert Pow2(3) == 8; assert Pow2(5) == 32; }
    var m, n := if j < 7 then j else 7, if k < 7 then k else 7;
    Pow2Monotone(0, m);
    Pow2Monotone(m, n);
    Pow2Monotone(n, 7);
  }

  // ---- the retry loop ----

  datatype Insert = Inserted | Rejected(message: string)

  /** One turn of the loop as the outside world decides it: both inserts, and whether shutdown
      fires during the sleep that follows a failure. */
  datatype Turn = Turn(bodies: Insert, obs: Insert, shutdown: bool)

  /** a.and(b): both have been evaluated; the first error wins. */
  function And(a: Insert, b: Insert): Insert { if a.Rejected? then a else b }

  datatype Outcome = Success | PermanentFailure | ShutDown | StillTrying

  /** How the loop ends after these turns, starting with some permanent failures behind it. */
  function Retry(turns: seq<Turn>, failures: nat): Outcome
    decreases |turns|
  {
    if turns == [] then StillTrying
    else match And(turns[0].bodies, turns[0].obs)
      case Inserted => Success
      case Rejected(message) =>
        if IsTransient(message) then
          if turns[0].shutdown then ShutDown else Retry(turns[1..], failures)
        else if failures + 1 >= MAX_RETRIES then PermanentFailure
        else if turns[0].shutdown then ShutDown
        else Retry(turns[1..], failures + 1)
  }

  predicate IsPermanent(t: Turn) {
    var r := And(t.bodies, t.obs);
    r.Rejected? && !IsTransient(r.message)
  }

  predicate IsTransientTurn(t: Turn) {
    var r := And(t.bodies, t.obs);
    r.Rejected? && IsTransient(r.message)
  }

  function Permanents(turns: seq<Turn>): nat {
    if turns == [] then 0 else Permanents(turns[1..]) + if IsPermanent(turns[0]) then 1 else 0
  }

  function Transients(turns: seq<Turn>): nat {
    if turns == [] then 0 else Transients(turns[1..]) + if IsTransientTurn(turns[0]) then 1 else 0
  }

  /** The sleep after the failed turn i, in milliseconds. */
  function Wait(turns: seq<Turn>, i: nat): nat
    requires i < |turns|
  {
    if IsPermanent(turns[i]) then PermanentBackoff(Permanents(turns[..i + 1]))
    else TransientBackoff(Permanents(turns[..i]))
  }

  /** The insert loop. It reports the turns it used and the backoffs it slept. */
  method InsertWithRetry(turns: seq<Turn>) returns (outcome: Outcome, used: nat, backoffs: seq<nat>)
    ensures outcome == Retry(turns, 0)
    ensures used <= |turns| && (outcome == StillTrying ==> used == |turns|)
    ensures outcome == Success <==> used > 0 && And(turns[used - 1].bodies, turns[used - 1].obs) == Inserted
    ensures Permanents(turns[..used]) <= MAX_RETRIES
    ensures outcome == PermanentFailure <==> Permanents(turns[..used]) == MAX_RETRIES
    ensures outcome == ShutDown ==> used > 0 && turns[used - 1].shutdown
    ensures outcome == ShutDown ==> And(turns[used - 1].bodies, turns[used - 1].obs).Rejected?
    ensures |backoffs| == if outcome == Success || outcome == PermanentFailure then used - 1 else used
    ensures forall i | 0 <= i < |backoffs| :: backoffs[i] == Wait(turns, i)
  {
    var failures := 0;
    used, backoffs := 0, [];
    while used < |turns|
      invariant used <= |turns| && Retry(turns, 0) == Retry(turns[used..], failures)
      invariant failures < MAX_RETRIES && failures == Permanents(turns[..used])
      invariant used > 0 ==> And(turns[used - 1].bodies, turns[used - 1].obs).Rejected?
      invariant |backoffs| == used && forall i | 0 <= i < used :: backoffs[i] == Wait(turns, i)
      decreases |turns| - used
    {
      var t := turns[used];
      assert turns[used..][1..] == turns[used + 1..];
      PermanentsStep(turns, used);
      used := used + 1;
      match And(t.bodies, t.obs)
      case Inserted => return Success, used, backoffs;
      case Rejected(message) =>
        if IsTransient(message) {
          backoffs := backoffs + [TransientBackoff(failures)];
          if t.shutdown { return ShutDown, used, backoffs; }
        } else {
          failures := failures + 1;
          if failures >= MAX_RETRIES { return PermanentFailure, used, backoffs; }
          backoffs := backoffs + [PermanentBackoff(failures)];
          if t.shutdown { return ShutDown, used, backoffs; }
        }
    }
    outcome := StillTrying;
  }

  lemma {:induction false} PermanentsStep(turns: seq<Turn>, i: nat)
    requires i < |turns|
    ensures Permanents(turns[..i + 1]) == Permanents(turns[..i]) + if IsPermanent(turns[i]) then 1 else 0
  {
    if i == 0 {
      assert turns[..1] == [turns[0]] && turns[..0] == [] && [turns[0]][1..] == [];
      assert Permanents([turns[0]]) == if IsPermanent(turns[0]) then 1 else 0;
    } else {
      assert turns[..i + 1][1..] == turns[1..][..i] && turns[..i][1..] == turns[1..][..i - 1];
      PermanentsStep(turns[1..], i - 1);
    }
  }

  /** With finitely many transient errors the loop ends: three turns more than there are transient
      ones are always enough. */
  lemma {:induction false} RetryEnds(turns: seq<Turn>, failures: nat)
    requires failures < MAX_RETRIES && Transients(turns) + (MAX_RETRIES - failures) <= |turns|
    ensures Retry(turns, failures) != StillTrying
    decreases |turns|
  {
    var rest := turns[1..];
    var r := And(turns[0].bodies, turns[0].obs);
    if r.Rejected? && !turns[0].shutdown {
      if IsTransient(r.message) {
        RetryEnds(rest, failures);
      } else if failures + 1 < MAX_RETRIES {
        RetryEnds(rest, failures + 1);
      }
    }
  }
}
