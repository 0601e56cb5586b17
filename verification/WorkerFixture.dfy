/** Fixtures promoted by the worker (processInvariantInfer), evaluated by the Python SDK. */
module WorkerFixtures {
  import opened Common
  import opened Json
  import opened KeyPaths
  import opened WorkerPaths
  import opened Runs
  import opened Inference
  import opened Numbers
  import opened Fixture
  import opened Replay
  import opened ReplayRuns
  import opened RecordReplay
  import opened SelfConsistency
  import opened WalkerAgreement
  import opened WorkerWriter
  import opened Verdicts
  import Evaluation

  /** inferSchema: only an object or an array gets an entry. */
  function WorkerSchemaOf(op: string, body: Value): Option<SchemaEntry> {
    if body.Object? || body.Array? then Some(SchemaEntry(op, WorkerPathsOf(body).kinds, WorkerPathsOf(body).order))
    else None
  }

  function WorkerPerSpan(obs: seq<Observation>): seq<Option<SchemaEntry>> {
    seq(|obs|, i requires 0 <= i < |obs| => WorkerSchemaOf(obs[i].operation, obs[i].outputBody))
  }

  function WorkerMetric(obs: seq<Observation>, cost: real): Metric
    requires obs != []
  {
    Metric(
      Some(cost),
      Some(WorkerLatencyBound(WallClock(obs))),
      Some(|obs|),
      Some(WorkerTokenBound(Sum(InputTokens(obs)))),
      Some(WorkerTokenBound(Sum(OutputTokens(obs)))))
  }

  /** What the worker stores. Its prices come from a table of its own, and it sorts the required
      operations its own way. */
  function WorkerInferred(obs: seq<Observation>, required: seq<string>, cost: real): Invariants
    requires obs != []
  {
    Invariants(
      Some(Structural(Some(|obs|), Some(Operations(obs)), "exact", Some(required), Some(ParentIndex(obs)))),
      Some(WorkerPerSpan(obs)),
      Some(WorkerMetric(obs, cost)),
      false)
  }

  /** The same kinds and the same required paths, in some order. */
  predicate SameEntry(a: Option<SchemaEntry>, b: Option<SchemaEntry>) {
    a.Some? == b.Some? &&
    (a.Some? ==> a.value.kinds == b.value.kinds &&
                 (forall k | k in a.value.required :: k in b.value.required) &&
                 forall k | k in b.value.required :: k in a.value.required)
  }

  predicate SameSchema(a: seq<Option<SchemaEntry>>, b: seq<Option<SchemaEntry>>) {
    |a| == |b| && forall i | 0 <= i < |a| :: SameEntry(a[i], b[i])
  }

  lemma SameEntryChecks(a: Option<SchemaEntry>, b: Option<SchemaEntry>, i: nat, count: nat)
    requires SameEntry(a, b)
    ensures Evaluation.EntryChecks(a, i, count) == Evaluation.EntryChecks(b, i, count)
  {
    if a.Some? {
      assert a.value.required != [] ==> a.value.required[0] in b.value.required;
      assert b.value.required != [] ==> b.value.required[0] in a.value.required;
    }
  }

  lemma {:induction false} SameSchemaChecks(
      a: seq<Option<SchemaEntry>>, b: seq<Option<SchemaEntry>>, n: nat, count: nat)
    requires SameSchema(a, b) && n <= |a|
    ensures Evaluation.SchemaChecks(a, n, count) == Evaluation.SchemaChecks(b, n, count)
  {
    if n > 0 {
      var i := n - 1;
      assert SameEntry(a[i], b[i]);
      SameSchemaChecks(a, b, i, count);
      SameEntryChecks(a[i], b[i], i, count);
    }
  }

  lemma SameSchemaMeets(
      a: seq<Option<SchemaEntry>>, b: seq<Option<SchemaEntry>>, served: seq<Served>, c: Evaluation.Check)
    requires SameSchema(a, b)
    ensures Evaluation.SchemaMeets(c, a, served) == Evaluation.SchemaMeets(c, b, served)
  {}

  lemma SchemaHoldsAlike(a: Invariants, b: Invariants, served: seq<Served>)
    requires a.schema.Some? && b.schema.Some? && SameSchema(a.schema.value, b.schema.value)
    ensures Evaluation.SchemaHolds(a, served) == Evaluation.SchemaHolds(b, served)
  {
    SameSchemaChecks(a.schema.value, b.schema.value, |a.schema.value|, |served|);
    var x, y := a.schema.value, b.schema.value;
    forall c ensures Evaluation.SchemaMeets(c, x, served) == Evaluation.SchemaMeets(c, y, served) {
      SameSchemaMeets(x, y, served, c);
    }
  }

  /** Where the walkers agree the worker infers the recorder's entry. */
  lemma WorkerEntryIsSame(op: string, body: Value)
    requires WellFormed(body) && !IndexConflict(body, "")
    ensures SameEntry(WorkerSchemaOf(op, body), SchemaOf(op, body))
  {
    SameKinds(body);
    forall k ensures k in WorkerPathsOf(body).order <==> k in PathsOf(body).order {
      PathsOfHolds(body, k);
      PathsOfHolds(JsValue(body), k);
    }
  }

  /** Without conflicting writes there is nothing to part. */
  lemma {:induction false} ConsistentHasNoConflict(v: Value, prefix: string)
    requires Consistent(Writes(v, prefix))
    ensures !IndexConflict(v, prefix)
    decreases v
  {
    match v
    case Array(items) =>
      if items != [] {
        ConsistentPart(Writes(v, prefix), Writes(items[0], prefix + "[]"), v, prefix);
        ConsistentHasNoConflict(items[0], prefix + "[]");
      }
    case Object(fields) =>
      forall i: nat, x | WrittenBy(fields, prefix, x, i) ensures x in Writes(v, prefix) {
        InFieldWrites(fields, prefix, x, i);
      }
      forall i | 0 <= i < |fields| ensures !IndexConflict(fields[i].value, Child(prefix, fields[i].key)) {
        forall x | x in Writes(fields[i].value, Child(prefix, fields[i].key)) ensures x in Writes(v, prefix) {
          assert WrittenBy(fields, prefix, x, i);
        }
        ConsistentHasNoConflict(fields[i].value, Child(prefix, fields[i].key));
      }
    case _ =>
  }

  lemma ConsistentPart(ws: seq<Write>, part: seq<Write>, v: Value, prefix: string)
    requires Consistent(ws) && v.Array? && v.items != []
    requires ws == Writes(v, prefix) && part == Writes(v.items[0], prefix + "[]")
    ensures Consistent(part)
  {
    forall x | x in part ensures x in ws {}
  }

  lemma WorkerMetricPasses(obs: seq<Observation>, served: seq<Served>, cost: real)
    requires obs != [] && FaithfulRun(obs, served) && Sequential(obs) && TokensCounted(obs)
    ensures var m := WorkerMetric(obs, cost);
      forall c | c in Evaluation.MetricChecks(m) :: Evaluation.MetricMeets(c, m, served, Durations(obs))
  {
    assert Evaluation.InputTokens(served) == InputTokens(obs);
    assert Evaluation.OutputTokens(served) == OutputTokens(obs);
    NoLiveCost(served);
    SequentialFitsWallClock(obs);
    WorkerLatencyBoundAgrees(WallClock(obs));
    LatencyBoundExactly(WallClock(obs), Sum(Durations(obs)));
    SumNonNegative(InputTokens(obs));
    SumNonNegative(OutputTokens(obs));
    WorkerTokenBoundExactly(Sum(InputTokens(obs)));
    WorkerTokenBoundExactly(Sum(OutputTokens(obs)));
    MetricChecksExactly(WorkerMetric(obs, cost), served, Durations(obs));
  }

  /** A fixture whose invariants the worker inferred passes the SDK's evaluation on every faithful
      replay, under the conditions under which one the SDK wrote does. */
  lemma WorkerFixturePasses(obs: seq<Observation>, served: seq<Served>, required: seq<string>, cost: real)
    requires obs != [] && WellFormedRun(obs) && FaithfulRun(obs, served)
    requires Sequential(obs) && TokensCounted(obs) && UnambiguousRun(obs)
    requires forall op :: op in required <==> op in Operations(obs)
    ensures Evaluation.Holds(WorkerInferred(obs, required, cost), served, Durations(obs))
  {
    var inv := WorkerInferred(obs, required, cost);
    RunPassesItself(obs, served);
    WorkerMetricPasses(obs, served, cost);
    assert Evaluation.Operations(served) == Operations(obs);
    forall i | 0 <= i < |obs| ensures SameEntry(WorkerPerSpan(obs)[i], PerSpan(obs)[i]) {
      ConsistentHasNoConflict(obs[i].outputBody, "");
      WorkerEntryIsSame(obs[i].operation, obs[i].outputBody);
    }
    SchemaHoldsAlike(inv, Inferred(obs), served);
  }

  // ---- any run ----

  /** Kinds and required paths the same, each entry asks the same of a run. */
  lemma SameEntryKept(a: Option<SchemaEntry>, b: Option<SchemaEntry>, i: nat, served: seq<Served>)
    requires SameEntry(a, b) && a.Some?
    ensures EntryKept(a.value, i, served) <==> EntryKept(b.value, i, served)
  {}

  lemma SameSchemaKept(a: seq<Option<SchemaEntry>>, b: seq<Option<SchemaEntry>>, served: seq<Served>)
    requires SameSchema(a, b)
    ensures SchemaKept(a, served) <==> SchemaKept(b, served)
  {
    forall i | 0 <= i < |a| && a[i].Some?
      ensures EntryKept(a[i].value, i, served) <==> EntryKept(b[i].value, i, served)
    {
      assert SameEntry(a[i], b[i]);
      SameEntryKept(a[i], b[i], i, served);
    }
  }

  lemma CleanEntriesSame(obs: seq<Observation>)
    requires CleanRun(obs)
    ensures SameSchema(WorkerPerSpan(obs), PerSpan(obs))
  {
    forall i | 0 <= i < |obs| ensures SameEntry(WorkerPerSpan(obs)[i], PerSpan(obs)[i]) {
      CleanIsConsistent(obs[i].outputBody);
      ConsistentHasNoConflict(obs[i].outputBody, "");
      WorkerEntryIsSame(obs[i].operation, obs[i].outputBody);
    }
  }

  /** At most 6/5 of the recorded total, rounded up. */
  lemma WorkerTokenBoundAdmits(total: int, actual: int)
    ensures actual <= WorkerTokenBound(total) <==> 5 * (actual - 1) < 6 * total
  {}

  lemma WorkerLatencyBoundAdmits(wallClock: int, actual: int)
    ensures actual <= WorkerLatencyBound(wallClock) <==> 5 * actual <= 6 * (if wallClock < 0 then 0 else wallClock) + 2
  {
    WorkerLatencyBoundAgrees(if wallClock < 0 then 0 else wallClock);
    LatencyBoundExactly(if wallClock < 0 then 0 else wallClock, actual);
  }

  lemma WorkerStructureAsks(obs: seq<Observation>, served: seq<Served>, required: seq<string>, cost: real)
    requires obs != [] && forall op :: op in required <==> op in Operations(obs)
    ensures StructureKept(WorkerInferred(obs, required, cost).structural.value, served) <==>
      |served| == |obs| && forall i | 0 <= i < |obs| :: served[i].operation == obs[i].operation
  {
    if PerformedInOrder(served, Operations(obs)) {
      forall op | op in Operations(obs) ensures Performed(served, op) {
        var i :| 0 <= i < |obs| && Operations(obs)[i] == op;
        assert served[i].operation == op;
      }
    }
  }

  /** Exactly which ledgers pass the invariants the worker infers from a run whose keys are clean: as many entries as
      calls, the same operations in order, totals within 6/5 of the recorded ones rounded up, time within 6/5 of the
      clock, live spending within the worker's bound, and every leaf of a recorded object or array kept. */
  lemma WorkerRunPassesExactly(
      obs: seq<Observation>, served: seq<Served>, durations: seq<int>, required: seq<string>, cost: real)
    requires obs != [] && CleanRun(obs) && CleanLedger(served)
    requires forall op :: op in required <==> op in Operations(obs)
    ensures Evaluation.Holds(WorkerInferred(obs, required, cost), served, durations) <==>
      |served| == |obs| && (forall i | 0 <= i < |obs| :: served[i].operation == obs[i].operation) &&
      5 * (TotalInput(served) - 1) < 6 * Sum(InputTokens(obs)) &&
      5 * (TotalOutput(served) - 1) < 6 * Sum(OutputTokens(obs)) &&
      5 * Total(durations) <= 6 * (if WallClock(obs) < 0 then 0 else WallClock(obs)) + 2 &&
      (Spent(served) <= 0.0 || Spent(served) <= cost) && BodiesKept(obs, served)
  {
    HoldsExactly(WorkerInferred(obs, required, cost), served, durations);
    WorkerTokenBoundAdmits(Sum(InputTokens(obs)), TotalInput(served));
    WorkerTokenBoundAdmits(Sum(OutputTokens(obs)), TotalOutput(served));
    WorkerLatencyBoundAdmits(WallClock(obs), Total(durations));
    WorkerStructureAsks(obs, served, required, cost);
    if |served| == |obs| {
      CleanEntriesSame(obs);
      SameSchemaKept(WorkerPerSpan(obs), PerSpan(obs), served);
      SchemaKeptByDescent(obs, served);
    }
  }

  /** The structural family says the same of the calls as the recorder's. */
  lemma WorkerTells(obs: seq<Observation>, required: seq<string>, cost: real)
    requires obs != []
    ensures TellsCalls(WorkerInferred(obs, required, cost).structural.value, obs)
    ensures WorkerInferred(obs, required, cost).structural.value.requiredOperations == Some(required)
  {
    forall i | 0 <= i < |obs| ensures ParentIs(obs, i, ParentIndex(obs)[i]) { ParentTold(obs, i); }
  }

  // ---- end to end ----

  /** A job whose invariants are those the worker inferred from the same rows. */
  ghost predicate InferredJob(job: Job, required: seq<string>, cost: real)
    requires job.rows != []
  {
    job.invariants == WorkerInferred(job.Obs(), required, cost) &&
    forall op :: op in required <==> op in Operations(job.Obs())
  }

  lemma JobReplayIsFaithful(job: Job, cfg: Config, calls: seq<Call>)
    requires job.rows != [] && WellFormedRun(job.Obs()) && BodiesRead(job) && PrintsNumbers(job.num)
    requires LikeStored(job, job.files) && DiskAfter(job).ReplayedBy(cfg) && Repeats(calls, job.Obs())
    ensures var d := DiskAfter(job); FaithfulRun(job.Obs(), Run(cfg, d.Entries(), Start(d.files), calls).0.served)
  {
    var obs, d := job.Obs(), DiskAfter(job);
    var run := Run(cfg, d.Entries(), Start(d.files), calls);
    assert calls[..|calls|] == calls;
    JobDiskOk(job);
    ReplayOfDisk(d, cfg, calls, |calls|);
    forall i | 0 <= i < |obs|
      ensures ServedFor(obs[i], run.0.served[i], i) && Alike(obs[i].outputBody, run.0.served[i].outputBody)
    {
      assert AnsweredAt(d, run.0.served[i], run.1[i], i);
    }
  }

  lemma JobHolds(job: Job, cfg: Config, calls: seq<Call>, served: seq<Served>)
    requires job.rows != []
    requires served == Run(cfg, DiskAfter(job).Entries(), Start(job.After()), calls).0.served
    ensures FixturePasses(job.After(), IndexPath(job.dir, job.slug), cfg, calls) <==>
      Evaluation.Holds(job.invariants, served, Durations(job.Obs()))
  {
    assert EntryDurations(DiskAfter(job).Entries()) == Durations(job.Obs());
  }

  /** End to end: infer, write the fixture, replay the recorded requests against it with the shim,
      evaluate the invariants in the index against the ledger. Everything passes, whatever JavaScript
      makes of the numbers. */
  lemma WorkerFixturePassesItself(job: Job, required: seq<string>, cost: real, cfg: Config, calls: seq<Call>)
    requires job.rows != [] && WellFormedRun(job.Obs()) && BodiesRead(job) && PrintsNumbers(job.num)
    requires LikeStored(job, job.files) && DiskAfter(job).ReplayedBy(cfg) && Repeats(calls, job.Obs())
    requires Sequential(job.Obs()) && TokensCounted(job.Obs()) && UnambiguousRun(job.Obs())
    requires InferredJob(job, required, cost)
    ensures FixturePasses(job.After(), IndexPath(job.dir, job.slug), cfg, calls)
  {
    var served := Run(cfg, DiskAfter(job).Entries(), Start(job.After()), calls).0.served;
    JobHolds(job, cfg, calls, served);
    JobReplayIsFaithful(job, cfg, calls);
    WorkerFixturePasses(job.Obs(), served, required, cost);
  }
}
