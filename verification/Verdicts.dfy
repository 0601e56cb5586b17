/** Exactly which runs pass, for any ledger: first for whatever invariants an index holds, then for those
    inferred from a recording, whose paths are told by descent into the documents. */
module Verdicts {
  import opened Common
  import opened Json
  import opened KeyPaths
  import opened PathMeaning
  import opened Runs
  import opened Inference
  import Evaluation

  // ---- any invariants ----

  /** Some entry of the ledger is for this operation. */
  predicate Performed(served: seq<Served>, op: string) {
    exists i | 0 <= i < |served| :: served[i].operation == op
  }

  /** The operations of the ledger are these, in this order. */
  predicate PerformedInOrder(served: seq<Served>, ops: seq<string>) {
    |served| == |ops| && forall i | 0 <= i < |ops| :: served[i].operation == ops[i]
  }

  /** They are among those of the ledger, in this order. */
  ghost predicate PerformedAmong(served: seq<Served>, ops: seq<string>) {
    exists at: seq<nat> :: PickedAt(served, ops, at)
  }

  predicate PickedAt(served: seq<Served>, ops: seq<string>, at: seq<nat>) {
    |at| == |ops| &&
    (forall i | 0 <= i < |at| :: at[i] < |served| && served[at[i]].operation == ops[i]) &&
    forall i, j | 0 <= i < j < |at| :: at[i] < at[j]
  }

  /** What the structural family asks; an unknown sequence mode asks nothing. */
  ghost predicate StructureKept(st: Structural, served: seq<Served>) {
    (st.spanCount.Some? ==> |served| == st.spanCount.value) &&
    (st.operationSequence.Some? && st.sequenceMode == "exact" ==>
       PerformedInOrder(served, st.operationSequence.value)) &&
    (st.operationSequence.Some? && st.sequenceMode == "subsequence" ==>
       PerformedAmong(served, st.operationSequence.value)) &&
    (st.requiredOperations.Some? ==> forall op | op in st.requiredOperations.value :: Performed(served, op)) &&
    (st.parentIndex.Some? ==> |st.parentIndex.value| == |served|)
  }

  function TotalInput(served: seq<Served>): int {
    if served == [] then 0 else served[0].inputTokens + TotalInput(served[1..])
  }

  function TotalOutput(served: seq<Served>): int {
    if served == [] then 0 else served[0].outputTokens + TotalOutput(served[1..])
  }

  function Total(xs: seq<int>): int { if xs == [] then 0 else xs[0] + Total(xs[1..]) }

  /** What the live calls of the ledger cost. */
  function Spent(served: seq<Served>): real {
    if served == [] then 0.0
    else Spent(served[1..]) + if served[0].source == FromLive then served[0].cost else 0.0
  }

  /** What the metric family asks. A run that spent nothing meets any cost bound. */
  predicate BoundsKept(m: Metric, served: seq<Served>, durations: seq<int>) {
    (m.inputTokensMax.Some? ==> TotalInput(served) <= m.inputTokensMax.value) &&
    (m.outputTokensMax.Some? ==> TotalOutput(served) <= m.outputTokensMax.value) &&
    (m.latencyMax.Some? ==> Total(durations) <= m.latencyMax.value) &&
    (m.spanCount.Some? ==> |served| <= m.spanCount.value) &&
    (m.costMax.Some? ==> Spent(served) <= 0.0 || Spent(served) <= m.costMax.value)
  }

  /** What one schema entry asks of call i: it was served, with a body that has every required path, and
      the expected kind at each expected path it has. */
  predicate EntryKept(entry: SchemaEntry, i: nat, served: seq<Served>) {
    i < |served| &&
    (forall p | p in entry.required :: p in PathsOf(served[i].outputBody).kinds) &&
    forall p | p in entry.kinds && p in PathsOf(served[i].outputBody).kinds ::
      PathsOf(served[i].outputBody).kinds[p] == entry.kinds[p]
  }

  predicate SchemaKept(entries: seq<Option<SchemaEntry>>, served: seq<Served>) {
    forall i | 0 <= i < |entries| && entries[i].Some? :: EntryKept(entries[i].value, i, served)
  }

  lemma {:induction false} TotalsAgree(served: seq<Served>)
    ensures Sum(Evaluation.InputTokens(served)) == TotalInput(served)
    ensures Sum(Evaluation.OutputTokens(served)) == TotalOutput(served)
    ensures Evaluation.LiveCost(served) == Spent(served)
  {
    if served != [] {
      TotalsAgree(served[1..]);
      assert Evaluation.InputTokens(served)[1..] == Evaluation.InputTokens(served[1..]);
      assert Evaluation.OutputTokens(served)[1..] == Evaluation.OutputTokens(served[1..]);
    }
  }

  lemma {:induction false} TotalIsSum(xs: seq<int>)
    ensures Sum(xs) == Total(xs)
  {
    if xs != [] { TotalIsSum(xs[1..]); }
  }

  lemma EmbedsIsAmong(served: seq<Served>, ops: seq<string>)
    ensures Evaluation.Embeds(ops, Evaluation.Operations(served)) <==> PerformedAmong(served, ops)
  {
    var full := Evaluation.Operations(served);
    if at :| Evaluation.Embedding(ops, full, at) { assert PickedAt(served, ops, at); }
    if at :| PickedAt(served, ops, at) { assert Evaluation.Embedding(ops, full, at); }
  }

  lemma OperationsAreServed(served: seq<Served>, ops: seq<string>)
    ensures Evaluation.Operations(served) == ops <==> PerformedInOrder(served, ops)
    ensures forall op :: op in Evaluation.Operations(served) <==> Performed(served, op)
  {
    var full := Evaluation.Operations(served);
    forall op ensures op in full <==> Performed(served, op) {
      if i :| 0 <= i < |served| && served[i].operation == op { assert full[i] == op; }
    }
  }

  lemma StructuralHoldsExactly(st: Structural, served: seq<Served>)
    ensures (forall c | c in Evaluation.StructuralChecks(st) :: Evaluation.StructuralMeets(c, st, served))
       <==> StructureKept(st, served)
  {
    if st.operationSequence.Some? {
      EmbedsIsAmong(served, st.operationSequence.value);
      OperationsAreServed(served, st.operationSequence.value);
    }
    OperationsAreServed(served, []);
    StructuralMembers(st);
  }

  lemma StructuralMembers(st: Structural)
    ensures var cs := Evaluation.StructuralChecks(st);
      (Evaluation.SpanCount in cs <==> st.spanCount.Some?) &&
      (Evaluation.OperationSequence in cs <==>
         st.operationSequence.Some? && (st.sequenceMode == "exact" || st.sequenceMode == "subsequence")) &&
      (Evaluation.RequiredOperations in cs <==> st.requiredOperations.Some?) &&
      (Evaluation.ParentIndexLength in cs <==> st.parentIndex.Some?) &&
      forall c | c in cs :: c.SpanCount? || c.OperationSequence? || c.RequiredOperations? || c.ParentIndexLength?
  {}

  lemma MetricMembers(m: Metric)
    ensures var cs := Evaluation.MetricChecks(m);
      (Evaluation.InputTokensMax in cs <==> m.inputTokensMax.Some?) &&
      (Evaluation.OutputTokensMax in cs <==> m.outputTokensMax.Some?) &&
      (Evaluation.LatencyMax in cs <==> m.latencyMax.Some?) &&
      (Evaluation.MetricSpanCount in cs <==> m.spanCount.Some?) &&
      (Evaluation.CostMax in cs <==> m.costMax.Some?) &&
      forall c | c in cs :: c.InputTokensMax? || c.OutputTokensMax? || c.LatencyMax? || c.MetricSpanCount? || c.CostMax?
  {}

  lemma MetricHoldsExactly(m: Metric, served: seq<Served>, durations: seq<int>)
    ensures (forall c | c in Evaluation.MetricChecks(m) :: Evaluation.MetricMeets(c, m, served, durations))
       <==> BoundsKept(m, served, durations)
  {
    TotalsAgree(served);
    TotalIsSum(durations);
    MetricMembers(m);
  }

  /** The checks of entry i are met. */
  ghost predicate EntryMet(entries: seq<Option<SchemaEntry>>, i: nat, count: nat, meets: Evaluation.Check -> bool)
    requires i < |entries|
  {
    Evaluation.AllMeet(Evaluation.EntryChecks(entries[i], i, count), meets)
  }

  lemma EntryHoldsExactly(
      entries: seq<Option<SchemaEntry>>, served: seq<Served>, i: nat, meets: Evaluation.Check -> bool)
    requires i < |entries| && forall c :: meets(c) == Evaluation.SchemaMeets(c, entries, served)
    ensures EntryMet(entries, i, |served|, meets) <==> (entries[i].Some? ==> EntryKept(entries[i].value, i, served))
  {
    if entries[i].Some? { EntryMembers(entries[i].value, i, |served|); }
  }

  lemma EntryMembers(entry: SchemaEntry, i: nat, count: nat)
    ensures var cs := Evaluation.EntryChecks(Some(entry), i, count);
      (Evaluation.SpanServed(i) in cs <==> i >= count) &&
      (Evaluation.RequiredKeys(i) in cs <==> i < count && entry.required != []) &&
      (Evaluation.KeyTypes(i) in cs <==> i < count && entry.kinds != map[]) &&
      forall c | c in cs ::
        c == Evaluation.SpanServed(i) || c == Evaluation.RequiredKeys(i) || c == Evaluation.KeyTypes(i)
  {}

  /** Checks listed part by part are all met when those of each part are. */
  lemma {:induction false} PartByPart(
      part: nat -> seq<Evaluation.Check>, whole: nat -> seq<Evaluation.Check>, n: nat, meets: Evaluation.Check -> bool)
    requires whole(0) == [] && forall k: nat {:trigger part(k)} | k < n :: whole(k + 1) == whole(k) + part(k)
    ensures Evaluation.AllMeet(whole(n), meets) <==> forall i: nat | i < n :: Evaluation.AllMeet(part(i), meets)
  {
    if n > 0 {
      PartByPart(part, whole, n - 1, meets);
      assert whole(n - 1 + 1) == whole(n - 1) + part(n - 1);
      Evaluation.AllMeetJoin(whole(n - 1), part(n - 1), meets);
    }
  }

  lemma EntryByEntry(entries: seq<Option<SchemaEntry>>, count: nat, meets: Evaluation.Check -> bool)
    ensures Evaluation.AllMeet(Evaluation.SchemaChecks(entries, |entries|, count), meets) <==>
      forall i: nat | i < |entries| :: EntryMet(entries, i, count, meets)
  {
    var part := (i: nat) => if i < |entries| then Evaluation.EntryChecks(entries[i], i, count) else [];
    var whole := (k: nat) => if k <= |entries| then Evaluation.SchemaChecks(entries, k, count) else [];
    forall k: nat {:trigger part(k)} | k < |entries| ensures whole(k + 1) == whole(k) + part(k) {
      ChecksSnoc(entries, k, count);
    }
    PartByPart(part, whole, |entries|, meets);
    forall i: nat | i < |entries| ensures Evaluation.AllMeet(part(i), meets) == EntryMet(entries, i, count, meets) {}
  }

  lemma ChecksSnoc(entries: seq<Option<SchemaEntry>>, k: nat, count: nat)
    requires k < |entries|
    ensures Evaluation.SchemaChecks(entries, k + 1, count)
         == Evaluation.SchemaChecks(entries, k, count) + Evaluation.EntryChecks(entries[k], k, count)
  {}

  lemma SchemaHoldsExactly(entries: seq<Option<SchemaEntry>>, served: seq<Served>)
    ensures (forall c | c in Evaluation.SchemaChecks(entries, |entries|, |served|) ::
               Evaluation.SchemaMeets(c, entries, served)) <==> SchemaKept(entries, served)
  {
    var meets := c => Evaluation.SchemaMeets(c, entries, served);
    EntryByEntry(entries, |served|, meets);
    forall i | 0 <= i < |entries|
      ensures EntryMet(entries, i, |served|, meets) <==> (entries[i].Some? ==> EntryKept(entries[i].value, i, served))
    {
      EntryHoldsExactly(entries, served, i, meets);
    }
  }

  /** Exactly when a run passes the invariants of an index, whatever both hold. */
  lemma HoldsExactly(inv: Invariants, served: seq<Served>, durations: seq<int>)
    ensures Evaluation.Holds(inv, served, durations) <==>
      (inv.structural.Some? ==> StructureKept(inv.structural.value, served)) &&
      (inv.metric.Some? ==> BoundsKept(inv.metric.value, served, durations)) &&
      (inv.schema.Some? ==> SchemaKept(inv.schema.value, served))
  {
    if inv.structural.Some? { StructuralHoldsExactly(inv.structural.value, served); }
    if inv.metric.Some? { MetricHoldsExactly(inv.metric.value, served, durations); }
    if inv.schema.Some? { SchemaHoldsExactly(inv.schema.value, served); }
  }

  /** What a single result of the evaluator says. */
  ghost predicate Says(c: Evaluation.Check, inv: Invariants, served: seq<Served>, durations: seq<int>) {
    match c
    case SpanCount => inv.structural.Some? && inv.structural.value.spanCount == Some(|served|)
    case OperationSequence =>
      inv.structural.Some? && inv.structural.value.operationSequence.Some? &&
      if inv.structural.value.sequenceMode == "exact" then
        PerformedInOrder(served, inv.structural.value.operationSequence.value)
      else PerformedAmong(served, inv.structural.value.operationSequence.value)
    case RequiredOperations =>
      inv.structural.Some? && inv.structural.value.requiredOperations.Some? &&
      forall op | op in inv.structural.value.requiredOperations.value :: Performed(served, op)
    case ParentIndexLength =>
      inv.structural.Some? && inv.structural.value.parentIndex.Some? &&
      |inv.structural.value.parentIndex.value| == |served|
    case InputTokensMax =>
      inv.metric.Some? && inv.metric.value.inputTokensMax.Some? &&
      TotalInput(served) <= inv.metric.value.inputTokensMax.value
    case OutputTokensMax =>
      inv.metric.Some? && inv.metric.value.outputTokensMax.Some? &&
      TotalOutput(served) <= inv.metric.value.outputTokensMax.value
    case LatencyMax =>
      inv.metric.Some? && inv.metric.value.latencyMax.Some? && Total(durations) <= inv.metric.value.latencyMax.value
    case MetricSpanCount =>
      inv.metric.Some? && inv.metric.value.spanCount.Some? && |served| <= inv.metric.value.spanCount.value
    case CostMax =>
      inv.metric.Some? && inv.metric.value.costMax.Some? &&
      (Spent(served) <= 0.0 || Spent(served) <= inv.metric.value.costMax.value)
    case SpanServed(i) => inv.schema.Some? && i < |served|
    case RequiredKeys(i) =>
      inv.schema.Some? && i < |inv.schema.value| && inv.schema.value[i].Some? && i < |served| &&
      forall p | p in inv.schema.value[i].value.required :: p in PathsOf(served[i].outputBody).kinds
    case KeyTypes(i) =>
      inv.schema.Some? && i < |inv.schema.value| && inv.schema.value[i].Some? && i < |served| &&
      forall p | p in inv.schema.value[i].value.kinds && p in PathsOf(served[i].outputBody).kinds ::
        PathsOf(served[i].outputBody).kinds[p] == inv.schema.value[i].value.kinds[p]
    case SemanticSkipped => true
    case NothingToCheck => true
  }

  /** Each result passes exactly when what its check says is so. */
  lemma EachResultExactly(c: Evaluation.Check, inv: Invariants, served: seq<Served>, durations: seq<int>)
    ensures Evaluation.Meets(c, inv, served, durations) <==> Says(c, inv, served, durations)
  {
    if c.InputTokensMax? || c.OutputTokensMax? || c.CostMax? {
      TotalsAgree(served);
    } else if c.LatencyMax? {
      TotalIsSum(durations);
    } else if c.RequiredOperations? {
      OperationsAreServed(served, []);
    } else if c.OperationSequence? && inv.structural.Some? && inv.structural.value.operationSequence.Some? {
      EmbedsIsAmong(served, inv.structural.value.operationSequence.value);
      OperationsAreServed(served, inv.structural.value.operationSequence.value);
    }
  }

  // ---- the invariants of a recording ----

  /** Every leaf of the recorded body is a leaf of the served one, of the same type. */
  ghost predicate LeavesKept(recorded: Value, served: Value) {
    forall steps | steps != [] && EndsAtLeaf(recorded, steps) ::
      EndsAtLeaf(served, steps) && SameType(Descend(recorded, steps).value, Descend(served, steps).value)
  }

  /** Every path of the one is a path of the other, with the same kind. */
  predicate ListedAlike(m: map<string, Kind>, n: map<string, Kind>) {
    forall p | p in m :: p in n && m[p] == n[p]
  }

  lemma LeavesAreListed(recorded: Value, served: Value)
    requires WellFormed(recorded) && CleanKeys(recorded) && WellFormed(served) && CleanKeys(served)
    requires LeavesKept(recorded, served)
    ensures ListedAlike(PathsOf(recorded).kinds, PathsOf(served).kinds)
  {
    forall p | p in PathsOf(recorded).kinds
      ensures p in PathsOf(served).kinds && PathsOf(recorded).kinds[p] == PathsOf(served).kinds[p]
    {
      var steps := ListedHasSteps(recorded, p);
      LeafIsListed(served, steps);
      KindsAgreeByDescent(recorded, served, steps);
    }
  }

  lemma ListedAreLeaves(recorded: Value, served: Value)
    requires WellFormed(recorded) && CleanKeys(recorded) && WellFormed(served) && CleanKeys(served)
    requires ListedAlike(PathsOf(recorded).kinds, PathsOf(served).kinds)
    ensures LeavesKept(recorded, served)
  {
    forall steps | steps != [] && EndsAtLeaf(recorded, steps)
      ensures EndsAtLeaf(served, steps) && SameType(Descend(recorded, steps).value, Descend(served, steps).value)
    {
      DescentIsClean(recorded, steps);
      LeafIsListed(recorded, steps);
      ListedIsLeaf(served, steps);
      KindsAgreeByDescent(recorded, served, steps);
    }
  }

  lemma EntryKeptByDescent(recorded: Value, served: Value)
    requires WellFormed(recorded) && CleanKeys(recorded) && WellFormed(served) && CleanKeys(served)
    ensures LeavesKept(recorded, served) <==>
      (forall p | p in PathsOf(recorded).order :: p in PathsOf(served).kinds) &&
      Evaluation.KindsAgree(PathsOf(recorded).kinds, PathsOf(served).kinds)
  {
    forall p ensures p in PathsOf(recorded).order <==> p in PathsOf(recorded).kinds { PathsOfHolds(recorded, p); }
    if LeavesKept(recorded, served) { LeavesAreListed(recorded, served); }
    if ListedAlike(PathsOf(recorded).kinds, PathsOf(served).kinds) { ListedAreLeaves(recorded, served); }
  }

  /** At most 6/5 of the recorded total, rounded toward zero, plus one. */
  predicate WithinSixFifths(total: int, actual: int) {
    if total >= 0 then 5 * (actual - 1) <= 6 * total else 5 * (actual - 2) < 6 * total
  }

  lemma TokenBoundAdmits(total: int, actual: int)
    ensures actual <= TokenBound(total) <==> WithinSixFifths(total, actual)
  {}

  function CostBound(obs: seq<Observation>): real { Round8(SumReal(Costs(obs)) * METRIC_HEADROOM) }

  /** What the recorded calls cost at the prices of their models, in millionths. */
  function Priced(obs: seq<Observation>): real {
    if obs == [] then 0.0
    else
      var o, rates := obs[0], PerMillion(obs[0].model);
      Priced(obs[1..]) + (o.inputTokens as real * rates.0 + o.outputTokens as real * rates.1)
  }

  lemma {:induction false} CostsArePriced(obs: seq<Observation>)
    ensures 1_000_000.0 * SumReal(Costs(obs)) == Priced(obs)
  {
    if obs != [] {
      CostsArePriced(obs[1..]);
      assert Costs(obs)[1..] == Costs(obs[1..]);
      SpanCostExactly(obs[0].inputTokens, obs[0].outputTokens, obs[0].model);
    }
  }

  /** The bound on live spending: 6/5 of what the recorded calls cost, to the nearest eight decimals. */
  lemma CostBoundIsNearest(obs: seq<Observation>)
    ensures CostBound(obs) * 100_000_000.0 == (CostBound(obs) * 100_000_000.0).Floor as real
    ensures -0.5 <= 100_000_000.0 * CostBound(obs) - 120.0 * Priced(obs) <= 0.5
  {
    CostsArePriced(obs);
    Round8IsNearest(SumReal(Costs(obs)) * METRIC_HEADROOM);
  }

  ghost predicate BodiesKept(obs: seq<Observation>, served: seq<Served>)
    requires |obs| == |served|
  {
    forall i | 0 <= i < |obs| && (obs[i].outputBody.Object? || obs[i].outputBody.Array?) ::
      LeavesKept(obs[i].outputBody, served[i].outputBody)
  }

  /** Bodies whose paths can be read back from their texts. */
  predicate CleanRun(obs: seq<Observation>) {
    forall i | 0 <= i < |obs| :: WellFormed(obs[i].outputBody) && CleanKeys(obs[i].outputBody)
  }

  predicate CleanLedger(served: seq<Served>) {
    forall i | 0 <= i < |served| :: WellFormed(served[i].outputBody) && CleanKeys(served[i].outputBody)
  }

  /** Exactly which ledgers pass the invariants inferred from a recording, faithful to it or not: as many
      entries as calls, the same operations in order, totals and time within 6/5 of the recorded ones,
      live spending within its bound, and every leaf of a recorded object or array kept. */
  lemma RunPassesExactly(obs: seq<Observation>, served: seq<Served>, durations: seq<int>)
    requires obs != [] && CleanRun(obs) && CleanLedger(served)
    ensures Evaluation.Holds(Inferred(obs), served, durations) <==>
      |served| == |obs| && (forall i | 0 <= i < |obs| :: served[i].operation == obs[i].operation) &&
      WithinSixFifths(Sum(InputTokens(obs)), TotalInput(served)) &&
      WithinSixFifths(Sum(OutputTokens(obs)), TotalOutput(served)) &&
      5 * Total(durations) <= 6 * WallClock(obs) + 2 &&
      (Spent(served) <= 0.0 || Spent(served) <= CostBound(obs)) && BodiesKept(obs, served)
  {
    HoldsExactly(Inferred(obs), served, durations);
    TokenBoundAdmits(Sum(InputTokens(obs)), TotalInput(served));
    TokenBoundAdmits(Sum(OutputTokens(obs)), TotalOutput(served));
    LatencyBoundExactly(WallClock(obs), Total(durations));
    RequiredFollow(obs, served);
    if |served| == |obs| { SchemaKeptByDescent(obs, served); }
  }

  /** The structural family of an inferred index asks for the same operations in order. */
  lemma RequiredFollow(obs: seq<Observation>, served: seq<Served>)
    requires obs != []
    ensures StructureKept(Inferred(obs).structural.value, served) <==>
      |served| == |obs| && forall i | 0 <= i < |obs| :: served[i].operation == obs[i].operation
  {
    RequiredOpsAreTheOps(Operations(obs));
    if PerformedInOrder(served, Operations(obs)) {
      forall op | op in Operations(obs) ensures Performed(served, op) {
        var i :| 0 <= i < |obs| && Operations(obs)[i] == op;
        assert served[i].operation == op;
      }
    }
  }

  lemma SchemaKeptByDescent(obs: seq<Observation>, served: seq<Served>)
    requires CleanRun(obs) && CleanLedger(served) && |served| == |obs|
    ensures SchemaKept(PerSpan(obs), served) <==> BodiesKept(obs, served)
  {
    forall i | 0 <= i < |obs| && (obs[i].outputBody.Object? || obs[i].outputBody.Array?)
      ensures EntryKept(PerSpan(obs)[i].value, i, served) <==> LeavesKept(obs[i].outputBody, served[i].outputBody)
    {
      EntryKeptByDescent(obs[i].outputBody, served[i].outputBody);
    }
  }
}
