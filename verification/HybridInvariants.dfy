/** The cassette a hybrid run writes, against the invariants in its own index. */
module HybridInvariants {
  import opened Json
  import opened Canonical
  import opened Runs
  import opened Inference
  import opened Fixture
  import opened Cassettes
  import opened Replay
  import opened ReplayRuns
  import opened HybridClosure
  import opened SelfConsistency
  import opened OwnInvariants

  // ---- the tokens of the ledger ----

  predicate CountedEntries(obs: seq<Entry>) {
    forall i | 0 <= i < |obs| :: obs[i].inputTokens >= 0 && obs[i].outputTokens >= 0
  }

  predicate CountedCalls(calls: seq<Call>) {
    forall i | 0 <= i < |calls| :: calls[i].inputTokens >= 0 && calls[i].outputTokens >= 0
  }

  predicate CountedServed(served: seq<Served>) {
    forall i | 0 <= i < |served| :: served[i].inputTokens >= 0 && served[i].outputTokens >= 0
  }

  lemma HitCounted(cfg: Config, s: State, key: string, e: Entry, request: Value, c: Call)
    requires CountedServed(s.served) && e.inputTokens >= 0 && e.outputTokens >= 0
    ensures CountedServed(Hit(cfg, s, key, e, request, c).0.served)
  {}

  lemma MissCounted(cfg: Config, s: State, key: string, request: Value, c: Call)
    requires CountedServed(s.served) && c.inputTokens >= 0 && c.outputTokens >= 0
    ensures CountedServed(Miss(cfg, s, key, request, c).0.served)
  {}

  lemma StepCounted(cfg: Config, obs: seq<Entry>, s: State, c: Call)
    requires CountedEntries(obs) && CountedServed(s.served) && c.inputTokens >= 0 && c.outputTokens >= 0
    ensures CountedServed(Step(cfg, obs, s, c).0.served)
  {
    ForwardedExactly(cfg, obs, s, c);
    if Intercepts(c) {
      var request := c.request.value;
      var key := CanonicalHash(cfg.sha, request);
      var s' := s.(cursors := CursorsAfter(obs, s.cursors, key));
      match Fetch(obs, LookupResult(obs, s.cursors, key))
      case Found(e) =>
        assert e in obs;
        HitCounted(cfg, s', key, e, request, c);
      case NotFound => MissCounted(cfg, s', key, request, c);
      case BadIndex =>
    }
  }

  lemma {:induction false} LedgerCounted(cfg: Config, obs: seq<Entry>, files: Files, calls: seq<Call>)
    requires CountedEntries(obs) && CountedCalls(calls)
    ensures CountedServed(Run(cfg, obs, Start(files), calls).0.served)
  {
    if calls != [] {
      var n := |calls| - 1;
      var before := Run(cfg, obs, Start(files), calls[..n]);
      LedgerCounted(cfg, obs, files, calls[..n]);
      if !HasExited(before.1) { StepCounted(cfg, obs, before.0, calls[n]); }
    }
  }

  // ---- its clocks ----

  /** No clock runs backwards, and each call ends before the next starts. */
  predicate SequentialCalls(calls: seq<Call>) {
    (forall i | 0 <= i < |calls| :: calls[i].startedAt <= calls[i].endedAt) &&
    forall i, j | 0 <= i < j < |calls| :: calls[i].endedAt <= calls[j].startedAt
  }

  /** The calls that were answered follow each other too. */
  lemma {:induction false} LoggedSequential(calls: seq<Call>, outcomes: seq<Outcome>)
    requires |outcomes| <= |calls| && SequentialCalls(calls)
    ensures SequentialCalls(Logged(calls, outcomes))
    ensures forall i, j | 0 <= i < |Logged(calls, outcomes)| && |outcomes| <= j < |calls| ::
      Logged(calls, outcomes)[i].endedAt <= calls[j].startedAt
  {
    if outcomes != [] { LoggedSequential(calls, outcomes[..|outcomes| - 1]); }
  }

  lemma FollowedSequential(served: seq<Served>, calls: seq<Call>)
    requires Follows(served, calls) && SequentialCalls(calls)
    ensures Sequential(AsObservations(served))
  {
    forall i | 0 <= i < |served| ensures Answers(served[i], calls[i]) {}
  }

  lemma LedgerMetricFits(cfg: Config, obs: seq<Entry>, files: Files, calls: seq<Call>)
    requires SequentialCalls(calls) && CountedCalls(calls) && CountedEntries(obs)
    requires Run(cfg, obs, Start(files), calls).0.served != []
    ensures MetricFits(AsObservations(Run(cfg, obs, Start(files), calls).0.served))
  {
    var run := Run(cfg, obs, Start(files), calls);
    LedgerFollows(cfg, obs, files, calls);
    LedgerCounted(cfg, obs, files, calls);
    LoggedSequential(calls, run.1);
    FollowedSequential(run.0.served, Logged(calls, run.1));
    SequentialMetricFits(AsObservations(run.0.served));
  }

  // ---- the invariants ----

  /** The cassette of a hybrid run, read back and replayed with the calls that were answered. */
  ghost predicate CassettePasses(cfg: Config, obs: seq<Entry>, files: Files, calls: seq<Call>, later: Config) {
    var run := Run(cfg, obs, Start(files), calls);
    var after, path := Flush(cfg, run.0).files, IndexPath(cfg.dir, cfg.hybridSlug);
    |run.1| <= |calls| && FixturePasses(after, path, later, Logged(calls, run.1))
  }

  /** Exactly when the cassette a hybrid run leaves passes the invariants in its own index. */
  lemma HybridPassesExactly(
      texts: iset<string>, cfg: Config, obs: seq<Entry>, files: Files, calls: seq<Call>, later: Config)
    requires Run(cfg, obs, Start(files), calls).0.live != []
    requires ClosureWorld(texts, cfg, files, calls, Run(cfg, obs, Start(files), calls).0.served)
    requires ReplaysHybrid(later, cfg)
    ensures var r := LedgerRecording(texts, cfg, files, Run(cfg, obs, Start(files), calls).0);
      r.obs != [] && (CassettePasses(cfg, obs, files, calls, later) <==> MetricFits(r.obs) && StoredFit(r))
  {
    var run := Run(cfg, obs, Start(files), calls);
    var r := LedgerRecording(texts, cfg, files, run.0);
    CassetteIsWritten(texts, cfg, obs, files, calls);
    LedgerFollows(cfg, obs, files, calls);
    LedgerWellFormed(cfg, obs, files, calls);
    LedgerHolds(cfg, obs, files, calls);
    LedgerIsRecordable(texts, cfg, files, calls, run.0, later, r);
    FollowingRepeats(run.0.served, Logged(calls, run.1));
    RecordingPassesExactly(r, later, Logged(calls, run.1));
  }

  /** For calls one after the other, with counted tokens, the totals always fit: the stored bodies
      decide. */
  lemma SequentialHybridPassesExactly(
      texts: iset<string>, cfg: Config, obs: seq<Entry>, files: Files, calls: seq<Call>, later: Config)
    requires Run(cfg, obs, Start(files), calls).0.live != []
    requires ClosureWorld(texts, cfg, files, calls, Run(cfg, obs, Start(files), calls).0.served)
    requires ReplaysHybrid(later, cfg)
    requires SequentialCalls(calls) && CountedCalls(calls) && CountedEntries(obs)
    ensures CassettePasses(cfg, obs, files, calls, later) <==>
      StoredFit(LedgerRecording(texts, cfg, files, Run(cfg, obs, Start(files), calls).0))
  {
    HybridPassesExactly(texts, cfg, obs, files, calls, later);
    LedgerMetricFits(cfg, obs, files, calls);
  }
}
