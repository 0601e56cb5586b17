/** Evaluating invariants against a replayed run (evaluate_invariants). */
module Evaluation {
  import opened Common
  import opened Json
  import opened KeyPaths
  import opened Runs

  datatype Check =
    | SpanCount
    | OperationSequence
    | RequiredOperations
    | ParentIndexLength
    | InputTokensMax
    | OutputTokensMax
    | LatencyMax
    | MetricSpanCount
    | CostMax
    | SpanServed(span: nat)
    | RequiredKeys(span: nat)
    | KeyTypes(span: nat)
    | SemanticSkipped
    | NothingToCheck

  datatype Result = Result(check: Check, passed: bool)

  /** The results report on these checks, in this order, each by whether it is met. */
  ghost predicate Reports(results: seq<Result>, checks: seq<Check>, meets: Check -> bool) {
    |results| == |checks| &&
    forall i | 0 <= i < |results| :: results[i] == Result(checks[i], meets(checks[i]))
  }

  predicate AllPassed(results: seq<Result>) {
    forall i | 0 <= i < |results| :: results[i].passed
  }

  // ---- the one-pass subsequence test ----

  /** at picks increasing positions of full that spell sub. */
  ghost predicate Embedding(sub: seq<string>, full: seq<string>, at: seq<nat>) {
    |at| == |sub| &&
    (forall i | 0 <= i < |at| :: at[i] < |full| && full[at[i]] == sub[i]) &&
    forall i, j | 0 <= i < j < |at| :: at[i] < at[j]
  }

  ghost predicate Embeds(sub: seq<string>, full: seq<string>) {
    exists at :: Embedding(sub, full, at)
  }

  /** Matching each item at its first occurrence in what is left. */
  predicate Greedy(sub: seq<string>, full: seq<string>)
    decreases |full|
  {
    sub == [] ||
    (full != [] && if sub[0] == full[0] then Greedy(sub[1..], full[1..]) else Greedy(sub, full[1..]))
  }

  lemma {:induction false} GreedyEmbeds(sub: seq<string>, full: seq<string>) returns (at: seq<nat>)
    requires Greedy(sub, full)
    ensures Embedding(sub, full, at)
    decreases |full|
  {
    if sub == [] {
      at := [];
    } else if sub[0] == full[0] {
      var rest := GreedyEmbeds(sub[1..], full[1..]);
      at := [0] + seq(|rest|, i requires 0 <= i < |rest| => rest[i] + 1);
    } else {
      var rest := GreedyEmbeds(sub, full[1..]);
      at := seq(|rest|, i requires 0 <= i < |rest| => rest[i] + 1);
    }
  }

  lemma {:induction false} EmbeddingIsGreedy(sub: seq<string>, full: seq<string>, at: seq<nat>)
    requires Embedding(sub, full, at)
    ensures Greedy(sub, full)
    decreases |full|
  {
    if sub != [] {
      assert at[0] < |full|;
      if sub[0] == full[0] {
        var rest: seq<nat> := seq(|at| - 1, i requires 0 <= i < |at| - 1 => at[i + 1] - 1);
        EmbeddingIsGreedy(sub[1..], full[1..], rest);
      } else {
        var rest: seq<nat> := seq(|at|, i requires 0 <= i < |at| => assert at[0] <= at[i]; at[i] - 1);
        EmbeddingIsGreedy(sub, full[1..], rest);
      }
    }
  }

  lemma GreedyIsEmbeds(sub: seq<string>, full: seq<string>)
    ensures Greedy(sub, full) <==> Embeds(sub, full)
  {
    if Greedy(sub, full) { var at := GreedyEmbeds(sub, full); }
    if at :| Embedding(sub, full, at) { EmbeddingIsGreedy(sub, full, at); }
  }

  /** _is_subsequence: each membership test consumes the shared iterator up to its match. It
      succeeds exactly when an order-preserving embedding exists. */
  method IsSubsequence(sub: seq<string>, full: seq<string>) returns (r: bool)
    ensures r <==> Embeds(sub, full)
  {
    GreedyIsEmbeds(sub, full);
    var next := 0;
    for i := 0 to |sub|
      invariant next <= |full|
      invariant Greedy(sub, full) == Greedy(sub[i..], full[next..])
    {
      while next < |full| && full[next] != sub[i]
        invariant next <= |full|
        invariant Greedy(sub, full) == Greedy(sub[i..], full[next..])
      {
        assert full[next..][1..] == full[next + 1..];
        next := next + 1;
      }
      if next == |full| { return false; }
      assert full[next..][1..] == full[next + 1..] && sub[i..][1..] == sub[i + 1..];
      next := next + 1;
    }
    return true;
  }

  /** A run that passes in exact mode also passes in subsequence mode. */
  lemma ExactImpliesSubsequence(ops: seq<string>)
    ensures Embeds(ops, ops)
  {
    var at: seq<nat> := seq(|ops|, i => i);
    assert Embedding(ops, ops, at);
  }

  // ---- what each check asks ----

  function Operations(served: seq<Served>): seq<string> {
    seq(|served|, i requires 0 <= i < |served| => served[i].operation)
  }

  function InputTokens(served: seq<Served>): seq<int> {
    seq(|served|, i requires 0 <= i < |served| => served[i].inputTokens)
  }

  function OutputTokens(served: seq<Served>): seq<int> {
    seq(|served|, i requires 0 <= i < |served| => served[i].outputTokens)
  }

  function LiveCost(served: seq<Served>): real {
    if served == [] then 0.0
    else (if served[0].source == FromLive then served[0].cost else 0.0) + LiveCost(served[1..])
  }

  ghost predicate StructuralMeets(c: Check, st: Structural, served: seq<Served>) {
    match c
    case SpanCount => st.spanCount == Some(|served|)
    case OperationSequence =>
      st.operationSequence.Some? &&
      if st.sequenceMode == "exact" then st.operationSequence.value == Operations(served)
      else Embeds(st.operationSequence.value, Operations(served))
    case RequiredOperations =>
      st.requiredOperations.Some? && forall op | op in st.requiredOperations.value :: op in Operations(served)
    case ParentIndexLength => st.parentIndex.Some? && |st.parentIndex.value| == |served|
    case _ => false
  }

  /** durations are those the cassette recorded: a replay itself takes no time. */
  predicate MetricMeets(c: Check, m: Metric, served: seq<Served>, durations: seq<int>) {
    match c
    case InputTokensMax => m.inputTokensMax.Some? && Sum(InputTokens(served)) <= m.inputTokensMax.value
    case OutputTokensMax => m.outputTokensMax.Some? && Sum(OutputTokens(served)) <= m.outputTokensMax.value
    case LatencyMax => m.latencyMax.Some? && Sum(durations) <= m.latencyMax.value
    case MetricSpanCount => m.spanCount.Some? && |served| <= m.spanCount.value
    case CostMax => m.costMax.Some? && (LiveCost(served) > 0.0 ==> LiveCost(served) <= m.costMax.value)
    case _ => false
  }

  predicate SchemaMeets(c: Check, perSpan: seq<Option<SchemaEntry>>, served: seq<Served>) {
    match c
    case SpanServed(i) => i < |served|
    case RequiredKeys(i) =>
      i < |perSpan| && i < |served| && perSpan[i].Some? &&
      forall k | k in perSpan[i].value.required :: k in PathsOf(served[i].outputBody).kinds
    case KeyTypes(i) =>
      i < |perSpan| && i < |served| && perSpan[i].Some? &&
      KindsAgree(perSpan[i].value.kinds, PathsOf(served[i].outputBody).kinds)
    case _ => false
  }

  /** Where both name a path they give it the same kind. */
  predicate KindsAgree(expected: map<string, Kind>, actual: map<string, Kind>) {
    forall k | k in expected && k in actual :: expected[k] == actual[k]
  }

  // ---- which checks are made ----

  function When(c: bool, check: Check): seq<Check> { if c then [check] else [] }

  function StructuralChecks(st: Structural): seq<Check> {
    When(st.spanCount.Some?, SpanCount) +
    When(st.operationSequence.Some? && st.sequenceMode in {"exact", "subsequence"}, OperationSequence) +
    When(st.requiredOperations.Some?, RequiredOperations) +
    When(st.parentIndex.Some?, ParentIndexLength)
  }

  function MetricChecks(m: Metric): seq<Check> {
    When(m.inputTokensMax.Some?, InputTokensMax) + When(m.outputTokensMax.Some?, OutputTokensMax) +
    When(m.latencyMax.Some?, LatencyMax) + When(m.spanCount.Some?, MetricSpanCount) +
    When(m.costMax.Some?, CostMax)
  }

  function EntryChecks(entry: Option<SchemaEntry>, i: nat, count: nat): seq<Check> {
    if entry.None? then []
    else if i >= count then [SpanServed(i)]
    else When(entry.value.required != [], RequiredKeys(i)) + When(entry.value.kinds != map[], KeyTypes(i))
  }

  /** The checks for the first n schema entries of a run that served count calls. */
  function SchemaChecks(perSpan: seq<Option<SchemaEntry>>, n: nat, count: nat): seq<Check>
    requires n <= |perSpan|
  {
    if n == 0 then [] else SchemaChecks(perSpan, n - 1, count) + EntryChecks(perSpan[n - 1], n - 1, count)
  }

  // ---- the evaluator ----

  function One(made: bool, check: Check, passed: bool): seq<Result> {
    if made then [Result(check, passed)] else []
  }

  lemma ReportsGrow(xs: seq<Result>, cs: seq<Check>, made: bool, check: Check, passed: bool, meets: Check -> bool)
    requires Reports(xs, cs, meets) && (made ==> passed == meets(check))
    ensures Reports(xs + One(made, check, passed), cs + When(made, check), meets)
  {}

  lemma ReportsJoin(xs: seq<Result>, cs: seq<Check>, ys: seq<Result>, ds: seq<Check>, meets: Check -> bool)
    requires Reports(xs, cs, meets) && Reports(ys, ds, meets)
    ensures Reports(xs + ys, cs + ds, meets)
  {}

  method EvalStructural(st: Structural, served: seq<Served>) returns (results: seq<Result>)
    ensures Reports(results, StructuralChecks(st), c => StructuralMeets(c, st, served))
  {
    ghost var meets := c => StructuralMeets(c, st, served);
    results := [];
    var made := st.spanCount.Some?;
    var ok := made && |served| == st.spanCount.value;
    ReportsGrow(results, [], made, SpanCount, ok, meets);
    results := results + One(made, SpanCount, ok);
    ghost var done := When(made, SpanCount);
    assert [] + done == done;

    made := st.operationSequence.Some? && st.sequenceMode in {"exact", "subsequence"};
    if made {
      if st.sequenceMode == "exact" { ok := Operations(served) == st.operationSequence.value; }
      else { ok := IsSubsequence(st.operationSequence.value, Operations(served)); }
    }
    ReportsGrow(results, done, made, OperationSequence, ok, meets);
    results := results + One(made, OperationSequence, ok);
    done := done + When(made, OperationSequence);

    made := st.requiredOperations.Some?;
    ok := made && MissingOps(st.requiredOperations.value, Operations(served)) == [];
    ReportsGrow(results, done, made, RequiredOperations, ok, meets);
    results := results + One(made, RequiredOperations, ok);
    done := done + When(made, RequiredOperations);

    made := st.parentIndex.Some?;
    ok := made && |st.parentIndex.value| == |served|;
    ReportsGrow(results, done, made, ParentIndexLength, ok, meets);
    results := results + One(made, ParentIndexLength, ok);
  }

  function MissingOps(required: seq<string>, actual: seq<string>): (missing: seq<string>)
    ensures missing == [] <==> forall op | op in required :: op in actual
  {
    if required == [] then []
    else (if required[0] in actual then [] else [required[0]]) + MissingOps(required[1..], actual)
  }

  /** One of the four bounded totals. */
  method EvalBound(results: seq<Result>, check: Check, bound: Option<int>, actual: int,
                   ghost done: seq<Check>, ghost meets: Check -> bool)
    returns (r: seq<Result>)
    requires Reports(results, done, meets) && meets(check) == (bound.Some? && actual <= bound.value)
    ensures Reports(r, done + When(bound.Some?, check), meets)
  {
    var ok := bound.Some? && actual <= bound.value;
    ReportsGrow(results, done, bound.Some?, check, ok, meets);
    r := results + One(bound.Some?, check, ok);
  }

  /** cost_max_usd: a run without live calls costs nothing and always passes. */
  method EvalCost(results: seq<Result>, bound: Option<real>, served: seq<Served>,
                  ghost done: seq<Check>, ghost meets: Check -> bool)
    returns (r: seq<Result>)
    requires Reports(results, done, meets)
    requires meets(CostMax) == (bound.Some? && (LiveCost(served) > 0.0 ==> LiveCost(served) <= bound.value))
    ensures Reports(r, done + When(bound.Some?, CostMax), meets)
  {
    var cost := LiveCost(served);
    var ok := bound.Some?;
    if cost > 0.0 { ok := bound.Some? && cost <= bound.value; }
    ReportsGrow(results, done, bound.Some?, CostMax, ok, meets);
    r := results + One(bound.Some?, CostMax, ok);
  }

  method EvalMetric(m: Metric, served: seq<Served>, durations: seq<int>) returns (results: seq<Result>)
    ensures Reports(results, MetricChecks(m), c => MetricMeets(c, m, served, durations))
  {
    ghost var meets := c => MetricMeets(c, m, served, durations);
    results := EvalBound([], InputTokensMax, m.inputTokensMax, Sum(InputTokens(served)), [], meets);
    ghost var done := When(m.inputTokensMax.Some?, InputTokensMax);
    assert [] + done == done;
    results := EvalBound(results, OutputTokensMax, m.outputTokensMax, Sum(OutputTokens(served)), done, meets);
    done := done + When(m.outputTokensMax.Some?, OutputTokensMax);
    results := EvalBound(results, LatencyMax, m.latencyMax, Sum(durations), done, meets);
    done := done + When(m.latencyMax.Some?, LatencyMax);
    results := EvalBound(results, MetricSpanCount, m.spanCount, |served|, done, meets);
    done := done + When(m.spanCount.Some?, MetricSpanCount);
    results := EvalCost(results, m.costMax, served, done, meets);
  }

  /** The key paths of a served body; a missing body counts as an empty object. */
  method Flatten(body: Value) returns (paths: map<string, Kind>)
    ensures paths == PathsOf(body).kinds
  {
    var collector := new Collector();
    collector.Collect(if body.Null? then Object([]) else body, "");
    return collector.out.kinds;
  }

  method EvalEntry(perSpan: seq<Option<SchemaEntry>>, i: nat, served: seq<Served>) returns (results: seq<Result>)
    requires i < |perSpan|
    ensures Reports(results, EntryChecks(perSpan[i], i, |served|), c => SchemaMeets(c, perSpan, served))
  {
    ghost var meets := c => SchemaMeets(c, perSpan, served);
    if perSpan[i].None? { return []; }
    if i >= |served| { return [Result(SpanServed(i), false)]; }
    var entry := perSpan[i].value;
    var actual := Flatten(served[i].outputBody);
    var present := forall k | k in entry.required :: k in actual;
    assert present == meets(RequiredKeys(i));
    var agree := KindsAgree(entry.kinds, actual);
    assert agree == meets(KeyTypes(i));
    results := One(entry.required != [], RequiredKeys(i), present);
    ghost var done := When(entry.required != [], RequiredKeys(i));
    ReportsGrow(results, done, entry.kinds != map[], KeyTypes(i), agree, meets);
    results := results + One(entry.kinds != map[], KeyTypes(i), agree);
  }

  method EvalSchema(perSpan: seq<Option<SchemaEntry>>, served: seq<Served>) returns (results: seq<Result>)
    ensures Reports(results, SchemaChecks(perSpan, |perSpan|, |served|), c => SchemaMeets(c, perSpan, served))
  {
    ghost var meets := c => SchemaMeets(c, perSpan, served);
    results := [];
    for i := 0 to |perSpan|
      invariant Reports(results, SchemaChecks(perSpan, i, |served|), meets)
    {
      var more := EvalEntry(perSpan, i, served);
      ReportsJoin(results, SchemaChecks(perSpan, i, |served|), more, EntryChecks(perSpan[i], i, |served|), meets);
      results := results + more;
    }
  }

  // ---- all families together ----

  ghost predicate StructuralHolds(inv: Invariants, served: seq<Served>) {
    inv.structural.Some? ==>
      forall c | c in StructuralChecks(inv.structural.value) :: StructuralMeets(c, inv.structural.value, served)
  }

  predicate MetricHolds(inv: Invariants, served: seq<Served>, durations: seq<int>) {
    inv.metric.Some? ==>
      forall c | c in MetricChecks(inv.metric.value) :: MetricMeets(c, inv.metric.value, served, durations)
  }

  predicate SchemaHolds(inv: Invariants, served: seq<Served>) {
    inv.schema.Some? ==>
      forall c | c in SchemaChecks(inv.schema.value, |inv.schema.value|, |served|) ::
        SchemaMeets(c, inv.schema.value, served)
  }

  ghost predicate Holds(inv: Invariants, served: seq<Served>, durations: seq<int>) {
    StructuralHolds(inv, served) && MetricHolds(inv, served, durations) && SchemaHolds(inv, served)
  }

  /** What any of the checks asks. */
  ghost predicate Meets(c: Check, inv: Invariants, served: seq<Served>, durations: seq<int>) {
    if c.SemanticSkipped? || c.NothingToCheck? then true
    else if c.SpanServed? || c.RequiredKeys? || c.KeyTypes? then
      inv.schema.Some? && SchemaMeets(c, inv.schema.value, served)
    else if c.InputTokensMax? || c.OutputTokensMax? || c.LatencyMax? || c.MetricSpanCount? || c.CostMax? then
      inv.metric.Some? && MetricMeets(c, inv.metric.value, served, durations)
    else inv.structural.Some? && StructuralMeets(c, inv.structural.value, served)
  }

  function StructuralPart(inv: Invariants): seq<Check> {
    if inv.structural.Some? then StructuralChecks(inv.structural.value) else []
  }

  function MetricPart(inv: Invariants): seq<Check> {
    if inv.metric.Some? then MetricChecks(inv.metric.value) else []
  }

  function SchemaPart(inv: Invariants, count: nat): seq<Check> {
    if inv.schema.Some? then SchemaChecks(inv.schema.value, |inv.schema.value|, count) else []
  }

  function FamilyChecks(inv: Invariants, count: nat): seq<Check> {
    StructuralPart(inv) + MetricPart(inv) + SchemaPart(inv, count) + When(inv.semanticEnabled, SemanticSkipped)
  }

  /** All the checks made, in the order of their families; when there are none, one result says so. */
  function AllChecks(inv: Invariants, count: nat): seq<Check> {
    if FamilyChecks(inv, count) == [] then [NothingToCheck] else FamilyChecks(inv, count)
  }

  lemma StructuralOnly(inv: Invariants, served: seq<Served>, durations: seq<int>)
    requires inv.structural.Some?
    ensures forall c | c in StructuralChecks(inv.structural.value) ::
      StructuralMeets(c, inv.structural.value, served) == Meets(c, inv, served, durations)
  {
    forall c | c in StructuralChecks(inv.structural.value)
      ensures c.SpanCount? || c.OperationSequence? || c.RequiredOperations? || c.ParentIndexLength?
    {}
  }

  lemma MetricOnly(inv: Invariants, served: seq<Served>, durations: seq<int>)
    requires inv.metric.Some?
    ensures forall c | c in MetricChecks(inv.metric.value) ::
      MetricMeets(c, inv.metric.value, served, durations) == Meets(c, inv, served, durations)
  {
    forall c | c in MetricChecks(inv.metric.value)
      ensures c.InputTokensMax? || c.OutputTokensMax? || c.LatencyMax? || c.MetricSpanCount? || c.CostMax?
    {}
  }

  predicate OfSchema(c: Check) { c.SpanServed? || c.RequiredKeys? || c.KeyTypes? }

  lemma EntryChecksOnly(entry: Option<SchemaEntry>, i: nat, count: nat)
    ensures forall c | c in EntryChecks(entry, i, count) :: OfSchema(c)
  {}

  lemma {:induction false} SchemaChecksOnly(perSpan: seq<Option<SchemaEntry>>, n: nat, count: nat)
    requires n <= |perSpan|
    ensures forall c | c in SchemaChecks(perSpan, n, count) :: OfSchema(c)
  {
    if n > 0 {
      var before, more := SchemaChecks(perSpan, n - 1, count), EntryChecks(perSpan[n - 1], n - 1, count);
      SchemaChecksOnly(perSpan, n - 1, count);
      EntryChecksOnly(perSpan[n - 1], n - 1, count);
      forall c | c in before + more ensures OfSchema(c) { assert c in before || c in more; }
    }
  }

  lemma SchemaOnly(inv: Invariants, served: seq<Served>, durations: seq<int>)
    requires inv.schema.Some?
    ensures forall c | c in SchemaChecks(inv.schema.value, |inv.schema.value|, |served|) ::
      SchemaMeets(c, inv.schema.value, served) == Meets(c, inv, served, durations)
  {
    SchemaChecksOnly(inv.schema.value, |inv.schema.value|, |served|);
  }

  ghost predicate AllMeet(cs: seq<Check>, meets: Check -> bool) { forall c | c in cs :: meets(c) }

  lemma AllMeetJoin(cs: seq<Check>, ds: seq<Check>, meets: Check -> bool)
    ensures AllMeet(cs + ds, meets) <==> AllMeet(cs, meets) && AllMeet(ds, meets)
  {
    forall c ensures c in cs + ds <==> c in cs || c in ds {}
  }

  lemma AllMeetHolds(inv: Invariants, served: seq<Served>, durations: seq<int>, meets: Check -> bool)
    requires forall c :: meets(c) == Meets(c, inv, served, durations)
    ensures AllMeet(AllChecks(inv, |served|), meets) <==> Holds(inv, served, durations)
  {
    var a, b, c, d := StructuralPart(inv), MetricPart(inv), SchemaPart(inv, |served|),
      When(inv.semanticEnabled, SemanticSkipped);
    AllMeetJoin(a, b, meets);
    AllMeetJoin(a + b, c, meets);
    AllMeetJoin(a + b + c, d, meets);
    if inv.structural.Some? { StructuralOnly(inv, served, durations); }
    if inv.metric.Some? { MetricOnly(inv, served, durations); }
    if inv.schema.Some? { SchemaOnly(inv, served, durations); }
  }

  lemma ReportsSame(xs: seq<Result>, cs: seq<Check>, own: Check -> bool, meets: Check -> bool)
    requires Reports(xs, cs, own) && forall c | c in cs :: own(c) == meets(c)
    ensures Reports(xs, cs, meets)
  {}

  lemma ReportsPassed(results: seq<Result>, checks: seq<Check>, meets: Check -> bool)
    requires Reports(results, checks, meets)
    ensures AllPassed(results) <==> forall c | c in checks :: meets(c)
  {}

  method EvalStructuralPart(inv: Invariants, served: seq<Served>, ghost durations: seq<int>)
    returns (results: seq<Result>)
    ensures Reports(results, StructuralPart(inv), c => Meets(c, inv, served, durations))
  {
    if inv.structural.None? { return []; }
    results := EvalStructural(inv.structural.value, served);
    StructuralOnly(inv, served, durations);
    ReportsSame(results, StructuralPart(inv), c => StructuralMeets(c, inv.structural.value, served),
                c => Meets(c, inv, served, durations));
  }

  method EvalMetricPart(inv: Invariants, served: seq<Served>, durations: seq<int>) returns (results: seq<Result>)
    ensures Reports(results, MetricPart(inv), c => Meets(c, inv, served, durations))
  {
    if inv.metric.None? { return []; }
    results := EvalMetric(inv.metric.value, served, durations);
    MetricOnly(inv, served, durations);
    ReportsSame(results, MetricPart(inv), c => MetricMeets(c, inv.metric.value, served, durations),
                c => Meets(c, inv, served, durations));
  }

  method EvalSchemaPart(inv: Invariants, served: seq<Served>, ghost durations: seq<int>)
    returns (results: seq<Result>)
    ensures Reports(results, SchemaPart(inv, |served|), c => Meets(c, inv, served, durations))
  {
    if inv.schema.None? { return []; }
    results := EvalSchema(inv.schema.value, served);
    SchemaOnly(inv, served, durations);
    ReportsSame(results, SchemaPart(inv, |served|), c => SchemaMeets(c, inv.schema.value, served),
                c => Meets(c, inv, served, durations));
  }

  /** evaluate_invariants: one result for each check, by whether it is met. So every result passes exactly when
      every check the invariants ask for is met, and there is always at least one result. */
  method EvaluateInvariants(inv: Invariants, served: seq<Served>, durations: seq<int>) returns (results: seq<Result>)
    ensures Reports(results, AllChecks(inv, |served|), c => Meets(c, inv, served, durations))
    ensures results != []
    ensures AllPassed(results) <==> Holds(inv, served, durations)
  {
    ghost var meets := c => Meets(c, inv, served, durations);
    ghost var a, b, c := StructuralPart(inv), MetricPart(inv), SchemaPart(inv, |served|);
    var structural := EvalStructuralPart(inv, served, durations);
    var metric := EvalMetricPart(inv, served, durations);
    var schema := EvalSchemaPart(inv, served, durations);
    ReportsJoin(structural, a, metric, b, meets);
    ReportsJoin(structural + metric, a + b, schema, c, meets);
    results := structural + metric + schema;
    ReportsGrow(results, a + b + c, inv.semanticEnabled, SemanticSkipped, true, meets);
    results := results + One(inv.semanticEnabled, SemanticSkipped, true);
    if results == [] { results := [Result(NothingToCheck, true)]; }
    ReportsPassed(results, AllChecks(inv, |served|), meets);
    AllMeetHolds(inv, served, durations, meets);
  }
}
