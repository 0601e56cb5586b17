/** A fixture passes its own invariants. */
module SelfConsistency {
  import opened Common
  import opened Json
  import opened KeyPaths
  import opened Numbers
  import opened Runs
  import opened Inference
  import opened Fixture
  import opened Replay
  import opened ReplayRuns
  import opened RecordReplay
  import opened Recorders
  import Evaluation

  /** A replayed body like the recorded one: an object or an array comes back equal up to key order and
      number tokens, an empty one as the empty object. */
  predicate Alike(recorded: Value, replayed: Value) {
    WellFormed(replayed) &&
    (recorded.Object? || recorded.Array? ==>
       if Falsy(recorded) then replayed == Object([]) else Same(Shape(recorded), Shape(replayed)))
  }

  lemma EchoIsAlike(recorded: Value, replayed: Value)
    requires Echoes(recorded, replayed)
    ensures Alike(recorded, replayed)
  {
    if !Falsy(recorded) { RenumberedSame(recorded, replayed, Zero); }
  }

  /** A replay served every observation of the run, in order, with a body like the recorded one. */
  predicate FaithfulRun(obs: seq<Observation>, served: seq<Served>) {
    |served| == |obs| &&
    forall i | 0 <= i < |obs| :: ServedFor(obs[i], served[i], i) && Alike(obs[i].outputBody, served[i].outputBody)
  }

  /** The walker sees only the shape. */
  lemma ShapePaths(v: Value)
    ensures Writes(Shape(v), "") == Writes(v, "") && PathsOf(Shape(v)) == PathsOf(v)
  {
    RenumberedWrites(v, "", Zero);
  }

  // ---- structure ----

  lemma StructuralPasses(obs: seq<Observation>, served: seq<Served>)
    requires obs != [] && FaithfulRun(obs, served)
    ensures Evaluation.StructuralHolds(Inferred(obs), served)
  {
    assert Evaluation.Operations(served) == Operations(obs);
    RequiredOpsAreTheOps(Operations(obs));
  }

  // ---- metric ----

  lemma {:induction false} NoLiveCost(served: seq<Served>)
    requires forall i | 0 <= i < |served| :: served[i].source == FromCassette
    ensures Evaluation.LiveCost(served) == 0.0
  {
    if served != [] {
      assert forall i | 0 <= i < |served| - 1 :: served[1..][i] == served[i + 1];
      NoLiveCost(served[1..]);
    }
  }

  /** The totals a run has to stay within for its metric checks to pass: floating point aside,
      five times the summed durations against six times the clock, and token totals above -10. */
  predicate MetricFits(obs: seq<Observation>)
    requires obs != []
  {
    5 * Sum(Durations(obs)) <= 6 * WallClock(obs) + 2 && Sum(InputTokens(obs)) >= -9 && Sum(OutputTokens(obs)) >= -9
  }

  lemma MetricPassesExactly(obs: seq<Observation>, served: seq<Served>)
    requires obs != [] && FaithfulRun(obs, served)
    ensures Evaluation.MetricHolds(Inferred(obs), served, Durations(obs)) <==> MetricFits(obs)
  {
    assert Evaluation.InputTokens(served) == InputTokens(obs);
    assert Evaluation.OutputTokens(served) == OutputTokens(obs);
    NoLiveCost(served);
    LatencyBoundExactly(WallClock(obs), Sum(Durations(obs)));
    TokenBoundExactly(Sum(InputTokens(obs)));
    TokenBoundExactly(Sum(OutputTokens(obs)));
    MetricChecksExactly(MetricOf(obs), served, Durations(obs));
  }

  lemma MetricCheckMembers(m: Metric, c: Evaluation.Check)
    requires m.inputTokensMax.Some? && m.outputTokensMax.Some? && m.latencyMax.Some? && m.spanCount.Some? &&
      m.costMax.Some?
    ensures c in Evaluation.MetricChecks(m) <==>
      c in {Evaluation.InputTokensMax, Evaluation.OutputTokensMax, Evaluation.LatencyMax,
            Evaluation.MetricSpanCount, Evaluation.CostMax}
  {}

  lemma MetricChecksExactly(m: Metric, served: seq<Served>, durations: seq<int>)
    requires m.inputTokensMax.Some? && m.outputTokensMax.Some? && m.latencyMax.Some? && m.spanCount.Some? &&
      m.costMax.Some?
    ensures (forall c | c in Evaluation.MetricChecks(m) :: Evaluation.MetricMeets(c, m, served, durations)) <==>
      Sum(Evaluation.InputTokens(served)) <= m.inputTokensMax.value &&
      Sum(Evaluation.OutputTokens(served)) <= m.outputTokensMax.value &&
      Sum(durations) <= m.latencyMax.value && |served| <= m.spanCount.value &&
      (Evaluation.LiveCost(served) > 0.0 ==> Evaluation.LiveCost(served) <= m.costMax.value)
  {
    MetricCheckMembers(m, Evaluation.InputTokensMax);
    MetricCheckMembers(m, Evaluation.OutputTokensMax);
    MetricCheckMembers(m, Evaluation.LatencyMax);
    MetricCheckMembers(m, Evaluation.MetricSpanCount);
    MetricCheckMembers(m, Evaluation.CostMax);
    var input := Evaluation.MetricMeets(Evaluation.InputTokensMax, m, served, durations);
    var output := Evaluation.MetricMeets(Evaluation.OutputTokensMax, m, served, durations);
    var latency := Evaluation.MetricMeets(Evaluation.LatencyMax, m, served, durations);
    var count := Evaluation.MetricMeets(Evaluation.MetricSpanCount, m, served, durations);
    var cost := Evaluation.MetricMeets(Evaluation.CostMax, m, served, durations);
    if input && output && latency && count && cost {
      forall c | c in Evaluation.MetricChecks(m) ensures Evaluation.MetricMeets(c, m, served, durations) {
        MetricCheckMembers(m, c);
      }
    }
  }

  // ---- schema ----

  /** The kinds inferred from the recorded body are those of the replayed one, where both have
      the path. */
  predicate SchemaFits(recorded: Value, replayed: Value) {
    recorded.Object? || recorded.Array? ==>
      Evaluation.KindsAgree(PathsOf(recorded).kinds, PathsOf(replayed).kinds)
  }

  /** No replayed body lacks a required path. */
  lemma AlikeKeepsPaths(recorded: Value, replayed: Value)
    requires WellFormed(recorded) && Alike(recorded, replayed) && (recorded.Object? || recorded.Array?)
    ensures forall p | p in PathsOf(recorded).order :: p in PathsOf(replayed).kinds
  {
    assert Falsy(recorded) ==> Writes(recorded, "") == [];
    ShapePaths(recorded);
    ShapePaths(replayed);
    forall p | p in PathsOf(recorded).order ensures p in PathsOf(replayed).kinds {
      PathsOfHolds(recorded, p);
      PathsOfHolds(replayed, p);
      if !Falsy(recorded) {
        WritesCarryOver(Shape(recorded), Shape(replayed), "", Write(p, PathsOf(recorded).kinds[p]));
      }
    }
  }

  /** A body whose own writes are consistent fits every body like it. */
  lemma ConsistentFits(recorded: Value, replayed: Value)
    requires WellFormed(recorded) && Alike(recorded, replayed) && Consistent(Writes(recorded, ""))
    ensures SchemaFits(recorded, replayed)
  {
    if recorded.Object? || recorded.Array? {
      if Falsy(recorded) {
        assert Writes(recorded, "") == [];
      } else {
        ShapePaths(recorded);
        ShapePaths(replayed);
        ShapeWellFormed(recorded);
        ShapeWellFormed(replayed);
        ConsistentIsOrderFree(Shape(recorded), Shape(replayed));
      }
    }
  }

  /** A recorded body fits every body equal to it up to key order exactly when its own writes are
      consistent. */
  lemma FitsEveryOrderExactly(recorded: Value)
    requires WellFormed(recorded) && (recorded.Object? || recorded.Array?)
    ensures (forall w | WellFormed(w) && Same(recorded, w) :: SchemaFits(recorded, w))
       <==> Consistent(Writes(recorded, ""))
  {
    if Consistent(Writes(recorded, "")) {
      forall w | WellFormed(w) && Same(recorded, w) ensures SchemaFits(recorded, w) {
        ConsistentIsOrderFree(recorded, w);
      }
    } else {
      var x, y :| x in Writes(recorded, "") && y in Writes(recorded, "") && x.path == y.path && x.kind != y.kind;
      PathsOfHolds(recorded, x.path);
      var loser := if PathsOf(recorded).kinds[x.path] == x.kind then y else x;
      EitherWriteCanWin(recorded, loser);
      var w :| WellFormed(w) && Same(recorded, w) && loser.path in PathsOf(w).kinds &&
        PathsOf(w).kinds[loser.path] == loser.kind;
      assert !SchemaFits(recorded, w);
    }
  }

  function Concat<T>(rows: seq<seq<T>>): seq<T> {
    if rows == [] then [] else Concat(rows[..|rows| - 1]) + rows[|rows| - 1]
  }

  lemma {:induction false} InConcat<T>(rows: seq<seq<T>>, x: T)
    ensures x in Concat(rows) <==> exists i | 0 <= i < |rows| :: x in rows[i]
  {
    if rows != [] {
      var n := |rows| - 1;
      InConcat(rows[..n], x);
      assert x in Concat(rows) <==> x in Concat(rows[..n]) || x in rows[n];
      forall i | 0 <= i < n ensures rows[..n][i] == rows[i] {}
    }
  }

  /** The checks each entry gets. */
  function CheckRows(perSpan: seq<Option<SchemaEntry>>, count: nat): (rows: seq<seq<Evaluation.Check>>)
    ensures |rows| == |perSpan|
  {
    seq(|perSpan|, i requires 0 <= i < |perSpan| => Evaluation.EntryChecks(perSpan[i], i, count))
  }

  lemma {:induction false} SchemaChecksConcat(perSpan: seq<Option<SchemaEntry>>, n: nat, count: nat)
    requires n <= |perSpan|
    ensures Evaluation.SchemaChecks(perSpan, n, count) == Concat(CheckRows(perSpan, count)[..n])
  {
    var rows := CheckRows(perSpan, count);
    if n > 0 {
      SchemaChecksConcat(perSpan, n - 1, count);
      assert rows[..n][..n - 1] == rows[..n - 1];
    }
  }

  lemma EntryPassesExactly(obs: seq<Observation>, served: seq<Served>, i: nat)
    requires WellFormedRun(obs) && FaithfulRun(obs, served) && i < |obs|
    ensures (forall c | c in Evaluation.EntryChecks(PerSpan(obs)[i], i, |served|) ::
               Evaluation.SchemaMeets(c, PerSpan(obs), served))
       <==> SchemaFits(obs[i].outputBody, served[i].outputBody)
  {
    var body := obs[i].outputBody;
    if body.Object? || body.Array? {
      AlikeKeepsPaths(body, served[i].outputBody);
      var entry := PerSpan(obs)[i].value;
      var cs := Evaluation.EntryChecks(PerSpan(obs)[i], i, |served|);
      assert entry.kinds != map[] ==> cs[|cs| - 1] == Evaluation.KeyTypes(i) && Evaluation.KeyTypes(i) in cs;
      forall c | c in cs
        ensures c == Evaluation.RequiredKeys(i) || (c == Evaluation.KeyTypes(i) && entry.kinds != map[])
      {}
    }
  }

  lemma SchemaPassesExactly(obs: seq<Observation>, served: seq<Served>)
    requires obs != [] && WellFormedRun(obs) && FaithfulRun(obs, served)
    ensures Evaluation.SchemaHolds(Inferred(obs), served)
       <==> forall i | 0 <= i < |obs| :: SchemaFits(obs[i].outputBody, served[i].outputBody)
  {
    var perSpan := PerSpan(obs);
    var rows := CheckRows(perSpan, |served|);
    SchemaChecksConcat(perSpan, |perSpan|, |served|);
    assert rows[..|perSpan|] == rows;
    forall i | 0 <= i < |obs| && Evaluation.SchemaHolds(Inferred(obs), served)
      ensures SchemaFits(obs[i].outputBody, served[i].outputBody)
    {
      EntryPassesExactly(obs, served, i);
      forall c | c in rows[i] ensures Evaluation.SchemaMeets(c, perSpan, served) { InConcat(rows, c); }
    }
    if forall i | 0 <= i < |obs| :: SchemaFits(obs[i].outputBody, served[i].outputBody) {
      forall c | c in Concat(rows) ensures Evaluation.SchemaMeets(c, perSpan, served) {
        InConcat(rows, c);
        var i :| 0 <= i < |rows| && c in rows[i];
        EntryPassesExactly(obs, served, i);
      }
    }
  }

  // ---- together ----

  /** Exactly when a faithful replay passes everything inferred from the run: the totals fit, and
      each replayed body gives every shared path the recorded kind. */
  lemma PassesExactly(obs: seq<Observation>, served: seq<Served>)
    requires obs != [] && WellFormedRun(obs) && FaithfulRun(obs, served)
    ensures Evaluation.Holds(Inferred(obs), served, Durations(obs)) <==>
      MetricFits(obs) && forall i | 0 <= i < |obs| :: SchemaFits(obs[i].outputBody, served[i].outputBody)
  {
    StructuralPasses(obs, served);
    MetricPassesExactly(obs, served);
    SchemaPassesExactly(obs, served);
  }

  /** A run whose output bodies have unambiguous paths. */
  predicate UnambiguousRun(obs: seq<Observation>) {
    forall i | 0 <= i < |obs| :: Consistent(Writes(obs[i].outputBody, ""))
  }

  lemma FaithfulReplayPasses(obs: seq<Observation>, served: seq<Served>)
    requires obs != [] && WellFormedRun(obs) && FaithfulRun(obs, served) && MetricFits(obs) && UnambiguousRun(obs)
    ensures Evaluation.Holds(Inferred(obs), served, Durations(obs))
  {
    forall i | 0 <= i < |obs| ensures SchemaFits(obs[i].outputBody, served[i].outputBody) {
      ConsistentFits(obs[i].outputBody, served[i].outputBody);
    }
    PassesExactly(obs, served);
  }

  predicate TokensCounted(obs: seq<Observation>) {
    forall i | 0 <= i < |obs| :: obs[i].inputTokens >= 0 && obs[i].outputTokens >= 0
  }

  lemma SequentialMetricFits(obs: seq<Observation>)
    requires obs != [] && Sequential(obs) && TokensCounted(obs)
    ensures MetricFits(obs)
  {
    SequentialFitsWallClock(obs);
    SumNonNegative(InputTokens(obs));
    SumNonNegative(OutputTokens(obs));
  }

  /** Self-consistency: a run of calls that do not overlap, with counted tokens and unambiguous
      output bodies, passes its own invariants on every faithful replay. */
  lemma RunPassesItself(obs: seq<Observation>, served: seq<Served>)
    requires WellFormedRun(obs) && FaithfulRun(obs, served)
    requires Sequential(obs) && TokensCounted(obs) && UnambiguousRun(obs)
    ensures Evaluation.Holds(Inferred(obs), served, Durations(obs))
  {
    if obs != [] {
      SequentialMetricFits(obs);
      FaithfulReplayPasses(obs, served);
    }
  }

  /** The durations the evaluator sums come from the fixture's entries. */
  function EntryDurations(entries: seq<Entry>): seq<int> {
    seq(|entries|, i requires 0 <= i < |entries| => entries[i].duration)
  }

  lemma ReplayIsFaithful(r: Recording, cfg: Config, calls: seq<Call>)
    requires r.Ok() && r.ReplayedBy(cfg) && Repeats(calls, r.obs)
    ensures var served := Run(cfg, r.Entries(), Start(r.After()), calls).0.served;
      FaithfulRun(r.obs, served) && forall k | 0 <= k < |r.obs| :: served[k].outputBody == r.ServedBody(k)
  {
    var run := Run(cfg, r.Entries(), Start(r.After()), calls);
    ReplayOfRecording(r, cfg, calls);
    forall k | 0 <= k < |r.obs|
      ensures ServedFor(r.obs[k], run.0.served[k], k) && Alike(r.obs[k].outputBody, run.0.served[k].outputBody) &&
        run.0.served[k].outputBody == r.ServedBody(k)
    {
      assert EchoedAt(r, run.0.served[k], run.1[k], k);
      EchoIsAlike(r.obs[k].outputBody, run.0.served[k].outputBody);
    }
  }

  /** The calls, replayed against the fixture at this path, pass the invariants in its index. */
  ghost predicate FixturePasses(files: Files, path: Path, cfg: Config, calls: seq<Call>) {
    path in files && files[path].IndexFile? &&
    var index := files[path].index;
    Evaluation.Holds(index.invariants, Run(cfg, index.observations, Start(files), calls).0.served,
                     EntryDurations(index.observations))
  }

  /** The fixture written from a recording does. */
  ghost predicate PassesItself(r: Recording, cfg: Config, calls: seq<Call>) {
    FixturePasses(r.After(), IndexPath(r.dir, r.slug), cfg, calls)
  }

  lemma IndexIsWritten(r: Recording)
    ensures var path := IndexPath(r.dir, r.slug);
      path in r.After() && r.After()[path] == IndexFile(IndexOf(r.sha, r.slug, r.obs, r.runName))
    ensures IndexOf(r.sha, r.slug, r.obs, r.runName).observations == r.Entries()
    ensures IndexOf(r.sha, r.slug, r.obs, r.runName).invariants == Inferred(r.obs)
    ensures EntryDurations(r.Entries()) == Durations(r.obs)
  {}

  lemma OwnHolds(r: Recording, cfg: Config, calls: seq<Call>, served: seq<Served>)
    requires served == Run(cfg, r.Entries(), Start(r.After()), calls).0.served
    ensures PassesItself(r, cfg, calls) <==> Evaluation.Holds(Inferred(r.obs), served, Durations(r.obs))
  {
    IndexIsWritten(r);
  }

  /** End to end: record, write the fixture, replay the recorded requests against it, evaluate the
      invariants in the index against the ledger. Everything passes. */
  lemma FixturePassesItself(r: Recording, cfg: Config, calls: seq<Call>)
    requires r.Ok() && r.ReplayedBy(cfg) && Repeats(calls, r.obs)
    requires Sequential(r.obs) && TokensCounted(r.obs) && UnambiguousRun(r.obs)
    ensures PassesItself(r, cfg, calls)
  {
    var served := Run(cfg, r.Entries(), Start(r.After()), calls).0.served;
    OwnHolds(r, cfg, calls, served);
    ReplayIsFaithful(r, cfg, calls);
    RunPassesItself(r.obs, served);
  }

  // ---- from the recorder ----

  /** What the recorder saw: one readable exchange at a time, with counted tokens and reply keys
      free of the path syntax. */
  predicate PlainExchanges(xs: seq<Exchange>) {
    (forall i | 0 <= i < |xs| ::
       Readable(xs[i]) && WellFormed(xs[i].request) && WellFormed(xs[i].reply) && CleanKeys(xs[i].reply) &&
       xs[i].startedAt <= xs[i].endedAt && xs[i].inputTokens >= 0 && xs[i].outputTokens >= 0) &&
    forall i | 0 < i < |xs| :: xs[i - 1].endedAt <= xs[i].startedAt
  }

  /** Such exchanges are recorded as a run the end-to-end result covers. */
  lemma PlainExchangesPass(xs: seq<Exchange>)
    requires PlainExchanges(xs)
    ensures Kept(xs) == xs
    ensures var obs := ObservedAll(xs);
      WellFormedRun(obs) && Sequential(obs) && TokensCounted(obs) && UnambiguousRun(obs) &&
      forall i | 0 <= i < |obs| :: obs[i].inputBody.Object?
  {
    var obs := ObservedAll(xs);
    ReadableAreKept(xs);
    forall i | 0 <= i < |obs| ensures Consistent(Writes(obs[i].outputBody, "")) { CleanIsConsistent(xs[i].reply); }
  }

  /** Overlap breaks it: two calls of 100 ms at the same time sum to 200 ms, and the bound inferred
      from 100 ms on the clock is 120 ms. */
  lemma OverlapFails(a: Observation, b: Observation, served: seq<Served>)
    requires WellFormedRun([a, b]) && FaithfulRun([a, b], served)
    requires a.startedAt == 0 && a.endedAt == 100 && a.duration == 100
    requires b.startedAt == 0 && b.endedAt == 100 && b.duration == 100
    ensures !Evaluation.Holds(Inferred([a, b]), served, Durations([a, b]))
  {
    var obs := [a, b];
    assert Durations(obs) == [100, 100] && Sum([100, 100]) == 200 by { assert [100, 100][1..] == [100]; }
    assert Ends(obs) == [100, 100] && Starts(obs) == [0, 0];
    PassesExactly(obs, served);
  }
}
