/** Inferring a fixture's invariants from a recorded run (infer_invariants). Arithmetic that the
    source does in floating point is done over the reals. */
module Inference {
  import opened Common
  import opened Json
  import opened KeyPaths
  import opened KeyOrder
  import opened Runs

  const METRIC_HEADROOM := 1.2

  // ---- Python's int() and round() ----

  function Truncate(x: real): int {
    if x >= 0.0 then x.Floor else -(-x).Floor
  }

  function Round(x: real): int {
    var low := x.Floor;
    var part := x - low as real;
    if part < 0.5 || (part == 0.5 && low % 2 == 0) then low else low + 1
  }

  function Round8(x: real): real { Round(x * 100_000_000.0) as real / 100_000_000.0 }

  // ---- pricing ----

  function Rates(model: string): (real, real) {
    if model == "gpt-4o-mini" || model == "gpt-4o-mini-2024-07-18" then (0.00000015, 0.00000060)
    else if model == "gpt-4o" || model == "gpt-4o-2024-08-06" then (0.0000025, 0.0000100)
    else if model == "gpt-3.5-turbo" then (0.0000005, 0.0000015)
    else (0.0, 0.0)
  }

  function SpanCost(inputTokens: int, outputTokens: int, model: string): real {
    inputTokens as real * Rates(model).0 + outputTokens as real * Rates(model).1
  }

  /** What a million tokens cost in dollars, read and written. */
  function PerMillion(model: string): (real, real) {
    if model == "gpt-4o-mini" || model == "gpt-4o-mini-2024-07-18" then (0.15, 0.60)
    else if model == "gpt-4o" || model == "gpt-4o-2024-08-06" then (2.50, 10.00)
    else if model == "gpt-3.5-turbo" then (0.50, 1.50)
    else (0.0, 0.0)
  }

  /** A call costs its input tokens at the one price and its output tokens at the other, which is the higher one for
      every model that has a price. */
  lemma SpanCostExactly(inputTokens: int, outputTokens: int, model: string)
    ensures 1_000_000.0 * SpanCost(inputTokens, outputTokens, model)
         == inputTokens as real * PerMillion(model).0 + outputTokens as real * PerMillion(model).1
    ensures SpanCost(1, 0, model) != 0.0 || SpanCost(0, 1, model) != 0.0
        ==> 0.0 < SpanCost(1, 0, model) < SpanCost(0, 1, model)
  {}

  /** Eight decimals, and none nearer. */
  lemma Round8IsNearest(x: real)
    ensures Round8(x) * 100_000_000.0 == (Round8(x) * 100_000_000.0).Floor as real
    ensures -0.5 <= 100_000_000.0 * (Round8(x) - x) <= 0.5
  {}

  // ---- schema ----

  /** infer_schema: only a dict or a list gets an entry. */
  function SchemaOf(op: string, body: Value): Option<SchemaEntry> {
    if body.Object? || body.Array? then Some(SchemaEntry(op, PathsOf(body).kinds, PathsOf(body).order)) else None
  }

  method InferSchema(op: string, body: Value) returns (r: Option<SchemaEntry>)
    ensures r == SchemaOf(op, body)
  {
    if !body.Object? && !body.Array? { return None; }
    var paths := new Collector();
    paths.Collect(body, "");
    return Some(SchemaEntry(op, paths.out.kinds, paths.out.order));
  }

  // ---- structure ----

  /** sorted(set(...)): the distinct strings in code-point order. */
  function InsertOp(op: string, ops: seq<string>): seq<string> {
    if ops == [] then [op]
    else if op == ops[0] then ops
    else if Before(op, ops[0]) then [op] + ops
    else [ops[0]] + InsertOp(op, ops[1..])
  }

  function RequiredOps(ops: seq<string>): seq<string> {
    if ops == [] then [] else InsertOp(ops[0], RequiredOps(ops[1..]))
  }

  predicate AscendingOps(ops: seq<string>) {
    forall i, j | 0 <= i < j < |ops| :: Before(ops[i], ops[j])
  }

  lemma {:induction false} InsertOpSorts(op: string, ops: seq<string>)
    requires AscendingOps(ops)
    ensures AscendingOps(InsertOp(op, ops))
    ensures forall p :: p in InsertOp(op, ops) <==> p == op || p in ops
  {
    if ops != [] && op != ops[0] {
      BeforeTotal(op, ops[0]);
      if Before(op, ops[0]) {
        forall j | 0 <= j < |ops| ensures Before(op, ops[j]) {
          if j > 0 { BeforeStrict(op, ops[0], ops[j]); }
        }
      } else {
        var rest := InsertOp(op, ops[1..]);
        InsertOpSorts(op, ops[1..]);
        forall j | 0 <= j < |rest| ensures Before(ops[0], rest[j]) {
          assert rest[j] in rest;
          if rest[j] != op { assert rest[j] in ops[1..]; }
        }
        assert ops == [ops[0]] + ops[1..];
      }
    }
  }

  /** The required operations are those of the run, each once, in code-point order. */
  lemma {:induction false} RequiredOpsAreTheOps(ops: seq<string>)
    ensures AscendingOps(RequiredOps(ops))
    ensures forall p :: p in RequiredOps(ops) <==> p in ops
  {
    if ops != [] {
      RequiredOpsAreTheOps(ops[1..]);
      InsertOpSorts(ops[0], RequiredOps(ops[1..]));
      assert ops == [ops[0]] + ops[1..];
    }
  }

  /** The position span_index maps a span id to: the last one that carries it. */
  function LastIndex(ids: seq<string>, id: string): (r: Option<nat>)
    ensures r.Some? ==> r.value < |ids| && ids[r.value] == id && forall j | r.value < j < |ids| :: ids[j] != id
    ensures r.None? ==> id !in ids
  {
    if ids == [] then None
    else if ids[|ids| - 1] == id then Some(|ids| - 1)
    else LastIndex(ids[..|ids| - 1], id)
  }

  function ParentOf(ids: seq<string>, parent: Option<string>): Option<nat> {
    if parent.None? || parent.value == "0000000000000000" then None else LastIndex(ids, parent.value)
  }

  // ---- columns of a run ----

  function Operations(obs: seq<Observation>): seq<string> {
    seq(|obs|, i requires 0 <= i < |obs| => obs[i].operation)
  }

  function SpanIds(obs: seq<Observation>): seq<string> {
    seq(|obs|, i requires 0 <= i < |obs| => obs[i].spanId)
  }

  function InputTokens(obs: seq<Observation>): seq<int> {
    seq(|obs|, i requires 0 <= i < |obs| => obs[i].inputTokens)
  }

  function OutputTokens(obs: seq<Observation>): seq<int> {
    seq(|obs|, i requires 0 <= i < |obs| => obs[i].outputTokens)
  }

  function Starts(obs: seq<Observation>): seq<int> {
    seq(|obs|, i requires 0 <= i < |obs| => obs[i].startedAt)
  }

  function Ends(obs: seq<Observation>): seq<int> {
    seq(|obs|, i requires 0 <= i < |obs| => obs[i].endedAt)
  }

  function Costs(obs: seq<Observation>): seq<real> {
    seq(|obs|, i requires 0 <= i < |obs| => SpanCost(obs[i].inputTokens, obs[i].outputTokens, obs[i].model))
  }

  function WallClock(obs: seq<Observation>): int
    requires obs != []
  {
    Max(Ends(obs)) - Min(Starts(obs))
  }

  function LatencyBound(wallClock: int): int { Round(wallClock as real * METRIC_HEADROOM) }

  function TokenBound(total: int): int { Truncate(total as real * METRIC_HEADROOM) + 1 }

  function ParentIndex(obs: seq<Observation>): seq<Option<nat>> {
    seq(|obs|, i requires 0 <= i < |obs| => ParentOf(SpanIds(obs), obs[i].parentSpanId))
  }

  function PerSpan(obs: seq<Observation>): seq<Option<SchemaEntry>> {
    seq(|obs|, i requires 0 <= i < |obs| => SchemaOf(obs[i].operation, obs[i].outputBody))
  }

  function MetricOf(obs: seq<Observation>): Metric
    requires obs != []
  {
    Metric(
      Some(Round8(SumReal(Costs(obs)) * METRIC_HEADROOM)),
      Some(LatencyBound(WallClock(obs))),
      Some(|obs|),
      Some(TokenBound(Sum(InputTokens(obs)))),
      Some(TokenBound(Sum(OutputTokens(obs)))))
  }

  /** The wall clock is the longest time from the start of a call to the end of one. */
  lemma WallClockSpans(obs: seq<Observation>)
    requires obs != []
    ensures forall i, j | 0 <= i < |obs| && 0 <= j < |obs| :: obs[i].endedAt - obs[j].startedAt <= WallClock(obs)
    ensures exists i, j | 0 <= i < |obs| && 0 <= j < |obs| :: obs[i].endedAt - obs[j].startedAt == WallClock(obs)
  {
    var i :| 0 <= i < |obs| && Ends(obs)[i] == Max(Ends(obs));
    var j :| 0 <= j < |obs| && Starts(obs)[j] == Min(Starts(obs));
    assert obs[i].endedAt - obs[j].startedAt == WallClock(obs);
    forall i, j | 0 <= i < |obs| && 0 <= j < |obs| ensures obs[i].endedAt - obs[j].startedAt <= WallClock(obs) {
      assert Ends(obs)[i] <= Max(Ends(obs)) && Min(Starts(obs)) <= Starts(obs)[j];
    }
  }

  /** Call k is the parent of call i: the last one that has the span id call i names. The zero id names none. */
  predicate IsParent(obs: seq<Observation>, i: nat, k: nat)
    requires i < |obs|
  {
    k < |obs| && obs[i].parentSpanId == Some(obs[k].spanId) && obs[k].spanId != "0000000000000000" &&
    forall j | k < j < |obs| :: obs[j].spanId != obs[k].spanId
  }

  lemma ParentsExactly(obs: seq<Observation>, i: nat)
    requires i < |obs|
    ensures forall k: nat :: ParentIndex(obs)[i] == Some(k) <==> IsParent(obs, i, k)
    ensures ParentIndex(obs)[i] == None <==> forall k: nat :: !IsParent(obs, i, k)
  {
    var ids := SpanIds(obs);
    var parent := ParentIndex(obs)[i];
    if parent.Some? { assert ids[parent.value] == obs[parent.value].spanId; }
    forall j | 0 <= j < |obs| ensures ids[j] == obs[j].spanId {}
    forall k: nat | IsParent(obs, i, k) ensures parent == Some(k) {
      assert ids[k] == obs[i].parentSpanId.value && ids[k] in ids;
    }
  }

  /** The invariants of a run. */
  function Inferred(obs: seq<Observation>): Invariants {
    if obs == [] then NO_INVARIANTS
    else Invariants(
      Some(Structural(Some(|obs|), Some(Operations(obs)), "exact", Some(RequiredOps(Operations(obs))),
                      Some(ParentIndex(obs)))),
      Some(PerSpan(obs)),
      Some(MetricOf(obs)),
      false)
  }

  method InferParents(obs: seq<Observation>) returns (parents: seq<Option<nat>>)
    ensures parents == ParentIndex(obs)
  {
    var ids := SpanIds(obs);
    parents := [];
    for i := 0 to |obs|
      invariant |parents| == i && forall j | 0 <= j < i :: parents[j] == ParentOf(ids, obs[j].parentSpanId)
    {
      parents := parents + [ParentOf(ids, obs[i].parentSpanId)];
    }
  }

  method InferPerSpan(obs: seq<Observation>) returns (perSpan: seq<Option<SchemaEntry>>)
    ensures perSpan == PerSpan(obs)
  {
    perSpan := [];
    for i := 0 to |obs|
      invariant |perSpan| == i && forall j | 0 <= j < i :: perSpan[j] == SchemaOf(obs[j].operation, obs[j].outputBody)
    {
      var entry := InferSchema(obs[i].operation, obs[i].outputBody);
      perSpan := perSpan + [entry];
    }
  }

  /** infer_invariants. */
  method InferInvariants(obs: seq<Observation>) returns (r: Invariants)
    ensures r == Inferred(obs)
  {
    if obs == [] { return NO_INVARIANTS; }
    var ops := Operations(obs);
    var parents := InferParents(obs);
    var perSpan := InferPerSpan(obs);
    return Invariants(Some(Structural(Some(|obs|), Some(ops), "exact", Some(RequiredOps(ops)), Some(parents))),
                      Some(perSpan), Some(MetricOf(obs)), false);
  }

  /** What the structural family of an index says of the calls: how many, their operations in order, and their
      parents. */
  predicate TellsCalls(st: Structural, obs: seq<Observation>) {
    st.spanCount == Some(|obs|) && st.sequenceMode == "exact" &&
    (st.operationSequence.Some? && |st.operationSequence.value| == |obs| &&
     forall i | 0 <= i < |obs| :: st.operationSequence.value[i] == obs[i].operation) &&
    st.parentIndex.Some? && |st.parentIndex.value| == |obs| &&
    forall i | 0 <= i < |obs| :: ParentIs(obs, i, st.parentIndex.value[i])
  }

  predicate ParentIs(obs: seq<Observation>, i: nat, parent: Option<nat>)
    requires i < |obs|
  {
    match parent case Some(k) => IsParent(obs, i, k) case None => IsOrphan(obs, i)
  }

  /** And it lists each operation of the run once. */
  predicate TellsStructure(st: Structural, obs: seq<Observation>) {
    TellsCalls(st, obs) && st.requiredOperations.Some? && AscendingOps(st.requiredOperations.value) &&
    (forall i | 0 <= i < |obs| :: obs[i].operation in st.requiredOperations.value) &&
    forall op | op in st.requiredOperations.value :: exists i | 0 <= i < |obs| :: obs[i].operation == op
  }

  /** No call of the run is its parent. */
  predicate IsOrphan(obs: seq<Observation>, i: nat)
    requires i < |obs|
  {
    forall k | 0 <= k < |obs| :: obs[i].parentSpanId != Some(obs[k].spanId) || obs[k].spanId == "0000000000000000"
  }

  /** What the schema family says: for each reply that is an object or an array, its paths and their kinds. */
  ghost predicate TellsSchema(entries: seq<Option<SchemaEntry>>, obs: seq<Observation>) {
    |entries| == |obs| && forall i | 0 <= i < |obs| ::
      if obs[i].outputBody.Object? || obs[i].outputBody.Array? then
        entries[i].Some? && entries[i].value.op == obs[i].operation &&
        entries[i].value.kinds == PathsOf(obs[i].outputBody).kinds &&
        (forall k :: k in entries[i].value.required <==> k in PathsOf(obs[i].outputBody).kinds)
      else entries[i].None?
  }

  /** An index says all of this, and nothing of a run without calls. */
  lemma InferredTells(obs: seq<Observation>)
    ensures obs == [] ==>
      Inferred(obs).structural == None && Inferred(obs).schema == None && Inferred(obs).metric == None
    ensures obs != [] ==>
      var inv := Inferred(obs);
      inv.structural.Some? && TellsStructure(inv.structural.value, obs) &&
      inv.schema.Some? && TellsSchema(inv.schema.value, obs) &&
      inv.metric.Some? && inv.metric.value.spanCount == Some(|obs|)
    ensures !Inferred(obs).semanticEnabled
  {
    if obs != [] {
      RequiredTell(obs);
      forall i | 0 <= i < |obs| && (obs[i].outputBody.Object? || obs[i].outputBody.Array?), k
        ensures k in PathsOf(obs[i].outputBody).order <==> k in PathsOf(obs[i].outputBody).kinds
      {
        PathsOfHolds(obs[i].outputBody, k);
      }
      forall i | 0 <= i < |obs| ensures ParentIs(obs, i, ParentIndex(obs)[i]) { ParentTold(obs, i); }
    }
  }

  lemma RequiredTell(obs: seq<Observation>)
    ensures var required := RequiredOps(Operations(obs));
      AscendingOps(required) && (forall i | 0 <= i < |obs| :: obs[i].operation in required) &&
      forall op | op in required :: exists i | 0 <= i < |obs| :: obs[i].operation == op
  {
    var ops := Operations(obs);
    RequiredOpsAreTheOps(ops);
    forall i | 0 <= i < |obs| ensures obs[i].operation in ops { assert ops[i] == obs[i].operation; }
    forall op | op in ops ensures exists i | 0 <= i < |obs| :: obs[i].operation == op {
      var i :| 0 <= i < |ops| && ops[i] == op;
      assert obs[i].operation == op;
    }
  }

  lemma ParentTold(obs: seq<Observation>, i: nat)
    requires i < |obs|
    ensures ParentIs(obs, i, ParentIndex(obs)[i])
  {
    ParentsExactly(obs, i);
    var ids := SpanIds(obs);
    if ParentIndex(obs)[i].None? {
      forall k | 0 <= k < |obs|
        ensures obs[i].parentSpanId != Some(obs[k].spanId) || obs[k].spanId == "0000000000000000"
      {
        assert ids[k] in ids;
      }
    }
  }

  // ---- what the bounds allow ----

  /** 1.2 n as a whole number and fifths. */
  lemma SixFifths(n: int) returns (q: int, r: int)
    ensures 6 * n == 5 * q + r && 0 <= r < 5 && (r == 0 <==> n % 5 == 0)
    ensures n as real * METRIC_HEADROOM == q as real + r as real / 5.0
  {
    q, r := n + n / 5, n % 5;
    assert n == 5 * (n / 5) + r;
    assert (6 * n) as real == (5 * q + r) as real;
  }

  lemma FloorOfFifths(x: real, q: int, r: int)
    requires 0 <= r < 5 && x == q as real + r as real / 5.0
    ensures x.Floor == q && (-x).Floor == if r == 0 then -q else -q - 1
  {}

  /** Rounding to the nearest millisecond never meets a tie here, and the bound admits exactly
      the totals with 5 s <= 6 w + 2. */
  lemma LatencyBoundExactly(wallClock: int, total: int)
    ensures total <= LatencyBound(wallClock) <==> 5 * total <= 6 * wallClock + 2
  {}

  /** A token ceiling admits the recorded total itself for every total above -10, so for every
      count that can occur. */
  lemma TokenBoundExactly(total: int)
    ensures total <= TokenBound(total) <==> total >= -9
  {}

  /** The worker's ceiling, Math.ceil(total * 1.2). */
  function WorkerTokenBound(total: int): int { -(-(total as real * METRIC_HEADROOM)).Floor }

  /** The worker's ceiling also admits the recorded total, but it is one lower than the
      recorder's exactly when 1.2 times the total is a whole number. */
  lemma WorkerTokenBoundExactly(total: nat)
    ensures total <= WorkerTokenBound(total)
    ensures TokenBound(total) == WorkerTokenBound(total) + (if total % 5 == 0 then 1 else 0)
  {
    var q, r := SixFifths(total);
    FloorOfFifths(total as real * METRIC_HEADROOM, q, r);
  }

  /** Math.round, halves upward. */
  function JsRound(x: real): int { (x + 0.5).Floor }

  /** The worker's latency bound, from the wall clock clamped at zero. */
  function WorkerLatencyBound(wallClock: int): int {
    JsRound((if wallClock < 0 then 0 else wallClock) as real * METRIC_HEADROOM)
  }

  /** The two roundings never differ, so the bounds agree exactly when no clock ran backwards. */
  lemma WorkerLatencyBoundAgrees(wallClock: int)
    ensures WorkerLatencyBound(wallClock) == LatencyBound(wallClock) <==> wallClock >= 0
  {}

  // ---- recorded runs of one call at a time ----

  /** Each call takes at most its own interval and ends before the next starts. */
  predicate Sequential(obs: seq<Observation>) {
    (forall i | 0 <= i < |obs| :: 0 <= obs[i].duration <= obs[i].endedAt - obs[i].startedAt) &&
    forall i | 0 < i < |obs| :: obs[i - 1].endedAt <= obs[i].startedAt
  }

  function Durations(obs: seq<Observation>): seq<int> {
    seq(|obs|, i requires 0 <= i < |obs| => obs[i].duration)
  }

  lemma {:induction false} DurationsFit(obs: seq<Observation>)
    requires obs != [] && Sequential(obs)
    ensures Sum(Durations(obs)) <= obs[|obs| - 1].endedAt - obs[0].startedAt
  {
    var n := |obs| - 1;
    var init := obs[..n];
    assert Durations(obs) == Durations(init) + [obs[n].duration];
    SumJoin(Durations(init), [obs[n].duration]);
    assert Sum([obs[n].duration]) == obs[n].duration;
    if n > 0 {
      DurationsFit(init);
      assert init[n - 1] == obs[n - 1];
    }
  }

  /** Calls that do not overlap take no longer in sum than the run took on the clock. */
  lemma SequentialFitsWallClock(obs: seq<Observation>)
    requires obs != [] && Sequential(obs)
    ensures 0 <= Sum(Durations(obs)) <= WallClock(obs)
  {
    DurationsFit(obs);
    assert Ends(obs)[|obs| - 1] <= Max(Ends(obs));
    assert Min(Starts(obs)) <= Starts(obs)[0];
    SumNonNegative(Durations(obs));
  }

  lemma {:induction xs} SumNonNegative(xs: seq<int>)
    requires forall i | 0 <= i < |xs| :: xs[i] >= 0
    ensures Sum(xs) >= 0
  {}
}
