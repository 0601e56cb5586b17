/** A hybrid run closes its own gaps: the cassette it writes replays the run in pure mode. */
module HybridClosure {
  import opened Common
  import opened Json
  import opened Canonical
  import opened Runs
  import opened Fixture
  import opened Cassettes
  import opened Replay
  import opened ReplayRuns
  import opened RecordReplay

  /** The files once the ledger has been flushed: a run with live calls adds one cassette. */
  function FinalFiles(cfg: Config, files: Files, s: State): Files {
    if s.live != [] then HybridFiles(cfg, s.(files := files)) else files
  }

  /** Until the ledger is flushed the run has not touched a file. */
  predicate FilesFollow(cfg: Config, files: Files, s: State) {
    s.files == if s.written then FinalFiles(cfg, files, s) else files
  }

  lemma FlushFollows(cfg: Config, files: Files, s: State)
    requires FilesFollow(cfg, files, s)
    ensures FilesFollow(cfg, files, Flush(cfg, s)) && Flush(cfg, s).files == FinalFiles(cfg, files, Flush(cfg, s))
  {}

  lemma HitFollows(cfg: Config, files: Files, s: State, key: string, e: Entry, request: Value, c: Call)
    requires FilesFollow(cfg, files, s) && !s.written
    ensures var next := Hit(cfg, s, key, e, request, c).0; FilesFollow(cfg, files, next) && !next.written
  {}

  lemma MissFollows(cfg: Config, files: Files, s: State, key: string, request: Value, c: Call)
    requires FilesFollow(cfg, files, s) && !s.written
    ensures var next := Miss(cfg, s, key, request, c);
      FilesFollow(cfg, files, next.0) && (next.0.written ==> next.1.Exited?)
  {
    FlushFollows(cfg, files, s.(misses := s.misses + 1));
  }

  lemma StepFollows(cfg: Config, obs: seq<Entry>, files: Files, s: State, c: Call)
    requires FilesFollow(cfg, files, s) && !s.written
    ensures var next := Step(cfg, obs, s, c);
      FilesFollow(cfg, files, next.0) && (next.0.written ==> next.1.Exited?)
  {
    if c.openai && c.request.Some? && !c.request.value.Null? {
      var request := c.request.value;
      var key := CanonicalHash(cfg.sha, request);
      var s' := s.(cursors := CursorsAfter(obs, s.cursors, key));
      match Fetch(obs, LookupResult(obs, s.cursors, key))
      case Found(e) => HitFollows(cfg, files, s', key, e, request, c);
      case NotFound => MissFollows(cfg, files, s', key, request, c);
      case BadIndex =>
    }
  }

  lemma {:induction false} RunFollows(cfg: Config, obs: seq<Entry>, files: Files, calls: seq<Call>)
    ensures var run := Run(cfg, obs, Start(files), calls);
      FilesFollow(cfg, files, run.0) && (run.0.written ==> HasExited(run.1))
  {
    if calls != [] {
      var n := |calls| - 1;
      RunFollows(cfg, obs, files, calls[..n]);
      var before := Run(cfg, obs, Start(files), calls[..n]);
      if !HasExited(before.1) { StepFollows(cfg, obs, files, before.0, calls[n]); }
    }
  }

  /** The ledger as the recording the new cassette is written from. */
  ghost function LedgerRecording(texts: iset<string>, cfg: Config, files: Files, s: State): Recording {
    Recording(texts, files, cfg.sha, cfg.hybridSlug, cfg.dir, AsObservations(s.served), cfg.slug + " (hybrid)")
  }

  /** However the run ended, flushing it at exit leaves the cassette of its whole ledger, with the
      index a later replay loads. */
  lemma CassetteIsWritten(texts: iset<string>, cfg: Config, obs: seq<Entry>, files: Files, calls: seq<Call>)
    requires Run(cfg, obs, Start(files), calls).0.live != []
    ensures var s := Run(cfg, obs, Start(files), calls).0;
      var r, index := LedgerRecording(texts, cfg, files, s), IndexPath(cfg.dir, cfg.hybridSlug);
      Flush(cfg, s).files == r.After() && index in r.After() && r.After()[index].IndexFile? &&
      r.After()[index].index.observations == r.Entries()
  {
    RunFollows(cfg, obs, files, calls);
    FlushFollows(cfg, files, Run(cfg, obs, Start(files), calls).0);
  }

  // ---- the ledger follows the calls that were answered ----

  /** The calls the ledger has an entry for. */
  predicate IsLogged(o: Outcome) { o.Answered? || o.WentLive? }

  /** The calls answered, by their outcomes. */
  function Logged(calls: seq<Call>, outcomes: seq<Outcome>): seq<Call>
    requires |outcomes| <= |calls|
  {
    if outcomes == [] then []
    else
      var n := |outcomes| - 1;
      Logged(calls, outcomes[..n]) + if IsLogged(outcomes[n]) then [calls[n]] else []
  }

  lemma LoggedStep(calls: seq<Call>, outcomes: seq<Outcome>, o: Outcome)
    requires |outcomes| < |calls|
    ensures Logged(calls, outcomes + [o]) == Logged(calls, outcomes) + if IsLogged(o) then [calls[|outcomes|]] else []
  {
    assert (outcomes + [o])[..|outcomes|] == outcomes;
  }

  lemma {:induction false} LoggedPrefix(calls: seq<Call>, outcomes: seq<Outcome>, n: nat)
    requires |outcomes| <= n <= |calls|
    ensures Logged(calls[..n], outcomes) == Logged(calls, outcomes)
  {
    if outcomes != [] { LoggedPrefix(calls, outcomes[..|outcomes| - 1], n); }
  }

  /** The entry stands for the call: its request, its two clock readings, and no time or the time between
      them. */
  predicate Answers(e: Served, c: Call) {
    c.openai && c.request == Some(e.inputBody) && e.inputBody.Object? && e.startedAt == c.startedAt &&
    e.endedAt == c.endedAt && (e.duration == 0 || e.duration == c.endedAt - c.startedAt)
  }

  /** Ledger entry i is the answer to call i. */
  predicate Follows(served: seq<Served>, calls: seq<Call>) {
    |served| == |calls| && forall i | 0 <= i < |calls| :: Answers(served[i], calls[i])
  }

  /** A call adds its own entry to the ledger if it is answered, and nothing otherwise. */
  predicate Logs(s: State, next: (State, Outcome), c: Call) {
    if IsLogged(next.1) then
      |next.0.served| == |s.served| + 1 && next.0.served[..|s.served|] == s.served &&
      Answers(next.0.served[|s.served|], c)
    else next.0.served == s.served
  }

  lemma AppendLogs(s: State, e: Served, o: Outcome, c: Call)
    requires Answers(e, c) && IsLogged(o)
    ensures Logs(s, (Append(s, e), o), c)
  {}

  lemma HitLogs(cfg: Config, s: State, key: string, e: Entry, request: Value, c: Call)
    requires c.openai && c.request == Some(request)
    ensures Logs(s, Hit(cfg, s, key, e, request, c), c)
  {
    var load := LoadBody(s.files, cfg.dir, cfg.slug, e.outputRef);
    if load.Loaded? && request.Object? {
      AppendLogs(s, HitEntry(s, key, e, request, OrEmpty(load.value), c), Hit(cfg, s, key, e, request, c).1, c);
    }
  }

  lemma MissLogs(cfg: Config, s: State, key: string, request: Value, c: Call)
    requires c.openai && c.request == Some(request)
    ensures Logs(s, Miss(cfg, s, key, request, c), c)
  {
    var next := Miss(cfg, s, key, request, c);
    if next.1.WentLive? { AppendLogs(s, LiveEntry(s, key, request, next.1.reply, c), next.1, c); }
  }

  /** The shim forwards every other call untouched. */
  predicate Intercepts(c: Call) { c.openai && c.request.Some? && !c.request.value.Null? }

  lemma StepLogs(cfg: Config, obs: seq<Entry>, s: State, c: Call)
    requires Intercepts(c)
    ensures Logs(s, Step(cfg, obs, s, c), c)
  {
    var request := c.request.value;
    var key := CanonicalHash(cfg.sha, request);
    var s' := s.(cursors := CursorsAfter(obs, s.cursors, key));
    match Fetch(obs, LookupResult(obs, s.cursors, key))
    case Found(e) =>
      assert Step(cfg, obs, s, c) == Hit(cfg, s', key, e, request, c);
      HitLogs(cfg, s', key, e, request, c);
    case NotFound =>
      assert Step(cfg, obs, s, c) == Miss(cfg, s', key, request, c);
      MissLogs(cfg, s', key, request, c);
    case BadIndex =>
  }

  lemma ForwardedExactly(cfg: Config, obs: seq<Entry>, s: State, c: Call)
    ensures Step(cfg, obs, s, c).1.Forwarded? <==> !Intercepts(c)
    ensures !Intercepts(c) ==> Step(cfg, obs, s, c).0 == s
  {}

  lemma FollowsGrow(before: seq<Served>, after: seq<Served>, calls: seq<Call>, c: Call)
    requires Follows(before, calls) && |after| == |before| + 1 && after[..|before|] == before
    requires Answers(after[|before|], c)
    ensures Follows(after, calls + [c])
  {
    forall i | 0 <= i < |before| ensures after[i] == before[i] { assert after[i] == after[..|before|][i]; }
  }

  /** One more call keeps the ledger and the answered calls together. */
  lemma StepFollowsCalls(cfg: Config, obs: seq<Entry>, s: State, logged: seq<Call>, c: Call)
    requires Follows(s.served, logged)
    ensures var next := Step(cfg, obs, s, c); Follows(next.0.served, logged + if IsLogged(next.1) then [c] else [])
  {
    var next := Step(cfg, obs, s, c);
    ForwardedExactly(cfg, obs, s, c);
    if Intercepts(c) {
      StepLogs(cfg, obs, s, c);
      if IsLogged(next.1) { FollowsGrow(s.served, next.0.served, logged, c); }
    }
    assert logged + [] == logged;
  }

  lemma {:induction false} RunsToTheEnd(cfg: Config, obs: seq<Entry>, s: State, calls: seq<Call>)
    ensures |Run(cfg, obs, s, calls).1| <= |calls|
    ensures !HasExited(Run(cfg, obs, s, calls).1) ==> |Run(cfg, obs, s, calls).1| == |calls|
  {
    if calls != [] { RunsToTheEnd(cfg, obs, s, calls[..|calls| - 1]); }
  }

  /** However a run ends, its ledger holds an entry for each answered call, in order, and no other. */
  lemma {:induction false} LedgerFollows(cfg: Config, obs: seq<Entry>, files: Files, calls: seq<Call>)
    ensures var run := Run(cfg, obs, Start(files), calls);
      |run.1| <= |calls| && Follows(run.0.served, Logged(calls, run.1))
  {
    if calls != [] {
      var n := |calls| - 1;
      var before := Run(cfg, obs, Start(files), calls[..n]);
      LedgerFollows(cfg, obs, files, calls[..n]);
      RunsToTheEnd(cfg, obs, Start(files), calls[..n]);
      LoggedPrefix(calls, before.1, n);
      if !HasExited(before.1) {
        StepFollowsCalls(cfg, obs, before.0, Logged(calls, before.1), calls[n]);
        LoggedStep(calls, before.1, Step(cfg, obs, before.0, calls[n]).1);
      }
    }
  }

  // ---- the ledger holds well-formed bodies ----

  /** What the agent and the provider sent was parsed from JSON. */
  predicate WellFormedCalls(calls: seq<Call>) {
    forall i | 0 <= i < |calls| ::
      (calls[i].request.Some? ==> WellFormed(calls[i].request.value)) &&
      (calls[i].reply.Some? ==> WellFormed(calls[i].reply.value))
  }

  /** So was every body file that parses. */
  predicate WellFormedFiles(files: Files) {
    forall p | p in files :: LoadFile(files[p]).Loaded? ==> WellFormed(LoadFile(files[p]).value)
  }

  lemma {:induction false} LoadFirstWellFormed(files: Files, paths: seq<Path>)
    requires WellFormedFiles(files)
    ensures var load := LoadFirst(files, paths); load.Loaded? ==> WellFormed(load.value)
  {
    if paths != [] { LoadFirstWellFormed(files, paths[1..]); }
  }

  lemma LoadBodyWellFormed(files: Files, dir: Path, slug: string, ref: Option<Path>)
    requires WellFormedFiles(files)
    ensures var load := LoadBody(files, dir, slug, ref); load.Loaded? ==> WellFormed(load.value)
  {
    if ref.Some? { LoadFirstWellFormed(files, Candidates(dir, slug, ref.value)); }
  }

  predicate WellFormedServed(served: seq<Served>) {
    forall i | 0 <= i < |served| :: WellFormed(served[i].inputBody) && WellFormed(served[i].outputBody)
  }

  lemma HitWellFormed(cfg: Config, s: State, key: string, e: Entry, request: Value, c: Call)
    requires WellFormedFiles(s.files) && WellFormed(request) && WellFormedServed(s.served)
    ensures WellFormedServed(Hit(cfg, s, key, e, request, c).0.served)
  {
    LoadBodyWellFormed(s.files, cfg.dir, cfg.slug, e.outputRef);
  }

  lemma MissWellFormed(cfg: Config, s: State, key: string, request: Value, c: Call)
    requires WellFormed(request) && (c.reply.Some? ==> WellFormed(c.reply.value)) && WellFormedServed(s.served)
    ensures WellFormedServed(Miss(cfg, s, key, request, c).0.served)
  {}

  lemma StepWellFormed(cfg: Config, obs: seq<Entry>, s: State, c: Call)
    requires WellFormedFiles(s.files) && WellFormedCalls([c]) && WellFormedServed(s.served)
    ensures WellFormedServed(Step(cfg, obs, s, c).0.served)
  {
    ForwardedExactly(cfg, obs, s, c);
    assert [c][0] == c;
    if Intercepts(c) {
      var request := c.request.value;
      var key := CanonicalHash(cfg.sha, request);
      var s' := s.(cursors := CursorsAfter(obs, s.cursors, key));
      match Fetch(obs, LookupResult(obs, s.cursors, key))
      case Found(e) => HitWellFormed(cfg, s', key, e, request, c);
      case NotFound => MissWellFormed(cfg, s', key, request, c);
      case BadIndex =>
    }
  }

  lemma {:induction false} LedgerWellFormed(cfg: Config, obs: seq<Entry>, files: Files, calls: seq<Call>)
    requires WellFormedFiles(files) && WellFormedCalls(calls)
    ensures WellFormedServed(Run(cfg, obs, Start(files), calls).0.served)
  {
    if calls != [] {
      var n := |calls| - 1;
      var before := Run(cfg, obs, Start(files), calls[..n]);
      LedgerWellFormed(cfg, obs, files, calls[..n]);
      RunFollows(cfg, obs, files, calls[..n]);
      if !HasExited(before.1) { StepWellFormed(cfg, obs, before.0, calls[n]); }
    }
  }

  // ---- the closure ----

  lemma FollowingRepeats(served: seq<Served>, calls: seq<Call>)
    requires Follows(served, calls) && WellFormedServed(served)
    ensures Repeats(calls, AsObservations(served))
  {
    forall i | 0 <= i < |calls| ensures RepeatsAt(calls[i], AsObservations(served)[i]) {
      assert Answers(served[i], calls[i]);
      SameReflexive(served[i].inputBody);
    }
  }

  /** What replaying the new cassette echoes is the logged body itself, up to key order: the ledger
      holds no falsy body but the empty object. */
  lemma EchoOfLogged(cfg: Config, obs: seq<Entry>, e: Served, replayed: Value)
    requires EntryOk(cfg, obs, e) && Echoes(e.outputBody, replayed)
    ensures Same(e.outputBody, replayed)
  {}

  /** A replay answers a call for every ledger entry, with the body the ledger logged. */
  predicate Closed(served: seq<Served>, replay: (State, seq<Outcome>)) {
    replay.0.misses == 0 && |replay.0.served| == |served| && |replay.1| == |served| &&
    forall i | 0 <= i < |served| ::
      replay.1[i].Answered? && Same(served[i].outputBody, replay.0.served[i].outputBody)
  }

  lemma ReplayedIsClosed(cfg: Config, obs: seq<Entry>, r: Recording, s: State, replay: (State, seq<Outcome>))
    requires LedgerOk(cfg, obs, s) && r.obs == AsObservations(s.served) && Echoed(r, replay)
    ensures Closed(s.served, replay)
  {
    forall i | 0 <= i < |s.served|
      ensures replay.1[i].Answered? && Same(s.served[i].outputBody, replay.0.served[i].outputBody)
    {
      assert EchoedAt(r, replay.0.served[i], replay.1[i], i);
      EchoOfLogged(cfg, obs, s.served[i], replay.0.served[i].outputBody);
    }
  }

  /** What the closure assumes of the world: a good store, parsed bodies, and no collision among the
      texts of the ledger and of what is already stored under the new slug. */
  ghost predicate ClosureWorld(texts: iset<string>, cfg: Config, files: Files, calls: seq<Call>, served: seq<Served>) {
    StoreOk(files, cfg.dir, cfg.sha) && WellFormedFiles(files) && WellFormedCalls(calls) &&
    CollisionFree(cfg.sha, texts) && RunTextsIn(texts, AsObservations(served)) &&
    StoredTextsIn(texts, files, cfg.dir, cfg.hybridSlug)
  }

  /** The replay is configured for the cassette the run writes. */
  ghost predicate ReplaysHybrid(later: Config, cfg: Config) {
    later.sha == cfg.sha && later.slug == cfg.hybridSlug && later.dir == cfg.dir
  }

  lemma LedgerReplays(
      texts: iset<string>, cfg: Config, obs: seq<Entry>, files: Files, s: State, logged: seq<Call>, later: Config,
      r: Recording)
    requires LedgerOk(cfg, obs, s) && Follows(s.served, logged) && WellFormedServed(s.served)
    requires r == LedgerRecording(texts, cfg, files, s) && r.Ok() && r.ReplayedBy(later)
    ensures Closed(s.served, Run(later, r.Entries(), Start(r.After()), logged))
  {
    FollowingRepeats(s.served, logged);
    ReplayOfRecording(r, later, logged);
    ReplayedIsClosed(cfg, obs, r, s, Run(later, r.Entries(), Start(r.After()), logged));
  }

  lemma LedgerIsRecordable(
      texts: iset<string>, cfg: Config, files: Files, calls: seq<Call>, s: State, later: Config, r: Recording)
    requires ClosureWorld(texts, cfg, files, calls, s.served) && WellFormedServed(s.served) && ReplaysHybrid(later, cfg)
    requires r == LedgerRecording(texts, cfg, files, s)
    ensures r.Ok() && r.ReplayedBy(later)
  {}

  /** The entry of the new cassette for ledger entry i. */
  predicate ListsServed(e: Entry, o: Served, i: nat) {
    e.index == i && e.spanId == SpanId(i) && e.parentSpanId == None && e.operation == o.operation &&
    e.model == o.model && e.system == "openai" && e.status == "ok" && e.startedAt == o.startedAt &&
    e.endedAt == o.endedAt && e.duration == o.duration && e.inputTokens == o.inputTokens &&
    e.outputTokens == o.outputTokens && e.matchKey == o.matchKey
  }

  /** The index under this path lists the ledger, and both references of entry i load the bodies it logged, up to key
      order. */
  ghost predicate ListsLedger(cfg: Config, after: Files, served: seq<Served>, i: nat)
    requires i < |served|
  {
    var path := IndexPath(cfg.dir, cfg.hybridSlug);
    path in after && after[path].IndexFile? && |after[path].index.observations| == |served| &&
    after[path].index.runName == cfg.slug + " (hybrid)" &&
    var e := after[path].index.observations[i];
    var request := LoadBody(after, cfg.dir, cfg.hybridSlug, e.inputRef);
    var reply := LoadBody(after, cfg.dir, cfg.hybridSlug, e.outputRef);
    ListsServed(e, served[i], i) && request.Loaded? && Same(served[i].inputBody, request.value) &&
    reply.Loaded? && Same(served[i].outputBody, reply.value)
  }

  lemma RecordingListsLedger(cfg: Config, r: Recording, served: seq<Served>, i: nat)
    requires i < |served| && r.Ok() && r.obs == AsObservations(served) && r.runName == cfg.slug + " (hybrid)"
    requires r.sha == cfg.sha && r.dir == cfg.dir && r.slug == cfg.hybridSlug && served[i].callIndex == i
    requires served[i].inputBody.Object? && served[i].matchKey == CanonicalHash(cfg.sha, served[i].inputBody)
    ensures ListsLedger(cfg, r.After(), served, i)
  {
    LoadsRecorded(r.texts, r.files, r.sha, r.slug, r.obs, r.dir, r.runName, i);
    IndexHead(r.files, r.sha, r.slug, r.obs, r.dir, r.runName);
    assert |r.runName| > 0;
  }

  lemma LoggedFacts(cfg: Config, obs: seq<Entry>, s: State, i: nat)
    requires LedgerOk(cfg, obs, s) && i < |s.served|
    ensures s.served[i].callIndex == i && s.served[i].inputBody.Object? &&
      s.served[i].matchKey == CanonicalHash(cfg.sha, s.served[i].inputBody)
  {
    assert EntryOk(cfg, obs, s.served[i]);
  }

  lemma LedgerListed(
      texts: iset<string>, cfg: Config, obs: seq<Entry>, files: Files, calls: seq<Call>, s: State, i: nat)
    requires ClosureWorld(texts, cfg, files, calls, s.served) && WellFormedServed(s.served)
    requires LedgerOk(cfg, obs, s) && i < |s.served|
    ensures ListsLedger(cfg, LedgerRecording(texts, cfg, files, s).After(), s.served, i)
  {
    LoggedFacts(cfg, obs, s, i);
    RecordingListsLedger(cfg, LedgerRecording(texts, cfg, files, s), s.served, i);
  }

  /** The cassette a hybrid run leaves lists its ledger in order, with the bodies it logged. */
  lemma CassetteListsLedger(
      texts: iset<string>, cfg: Config, obs: seq<Entry>, files: Files, calls: seq<Call>, i: nat)
    requires var s := Run(cfg, obs, Start(files), calls).0;
      s.live != [] && ClosureWorld(texts, cfg, files, calls, s.served) && i < |s.served|
    ensures var s := Run(cfg, obs, Start(files), calls).0; ListsLedger(cfg, Flush(cfg, s).files, s.served, i)
  {
    CassetteIsWritten(texts, cfg, obs, files, calls);
    LedgerWellFormed(cfg, obs, files, calls);
    LedgerHolds(cfg, obs, files, calls);
    LedgerListed(texts, cfg, obs, files, calls, Run(cfg, obs, Start(files), calls).0, i);
  }

  /** Hybrid closure: after any hybrid run with a live call, however it ended and whatever was replied,
      the cassette it leaves replays the calls it answered without a miss and with the bodies logged as
      served, call by call. */
  lemma HybridRunIsReplayable(
      texts: iset<string>, cfg: Config, obs: seq<Entry>, files: Files, calls: seq<Call>, later: Config)
    requires Run(cfg, obs, Start(files), calls).0.live != []
    requires ClosureWorld(texts, cfg, files, calls, Run(cfg, obs, Start(files), calls).0.served)
    requires ReplaysHybrid(later, cfg)
    ensures var run := Run(cfg, obs, Start(files), calls);
      var after, index := Flush(cfg, run.0).files, IndexPath(cfg.dir, cfg.hybridSlug);
      |run.1| <= |calls| && index in after && after[index].IndexFile? &&
      Closed(run.0.served, Run(later, after[index].index.observations, Start(after), Logged(calls, run.1)))
  {
    var run := Run(cfg, obs, Start(files), calls);
    var r := LedgerRecording(texts, cfg, files, run.0);
    CassetteIsWritten(texts, cfg, obs, files, calls);
    LedgerFollows(cfg, obs, files, calls);
    LedgerWellFormed(cfg, obs, files, calls);
    LedgerHolds(cfg, obs, files, calls);
    LedgerIsRecordable(texts, cfg, files, calls, run.0, later, r);
    LedgerReplays(texts, cfg, obs, files, run.0, Logged(calls, run.1), later, r);
  }

  // ---- runs in which every call is answered or forwarded ----

  function Intercepted(calls: seq<Call>): seq<Call> {
    if calls == [] then []
    else
      var n := |calls| - 1;
      Intercepted(calls[..n]) + if Intercepts(calls[n]) then [calls[n]] else []
  }

  function NotForwarded(outcomes: seq<Outcome>): seq<Outcome> {
    if outcomes == [] then []
    else
      var n := |outcomes| - 1;
      NotForwarded(outcomes[..n]) + if outcomes[n].Forwarded? then [] else [outcomes[n]]
  }

  lemma NotForwardedStep(outcomes: seq<Outcome>, o: Outcome)
    ensures NotForwarded(outcomes + [o]) == NotForwarded(outcomes) + if o.Forwarded? then [] else [o]
  {
    assert (outcomes + [o])[..|outcomes|] == outcomes;
  }

  /** The other calls leave no trace but their outcomes. */
  predicate SkipsTo(run: (State, seq<Outcome>), kept: (State, seq<Outcome>)) {
    run.0 == kept.0 && NotForwarded(run.1) == kept.1 && (HasExited(run.1) <==> HasExited(kept.1))
  }

  lemma {:induction false} ForwardedCallsSkip(cfg: Config, obs: seq<Entry>, s: State, calls: seq<Call>)
    ensures SkipsTo(Run(cfg, obs, s, calls), Run(cfg, obs, s, Intercepted(calls)))
  {
    if calls != [] {
      var n := |calls| - 1;
      var before := Run(cfg, obs, s, calls[..n]);
      ForwardedCallsSkip(cfg, obs, s, calls[..n]);
      SkipOne(cfg, obs, s, before, Intercepted(calls[..n]), calls[n]);
    }
  }

  lemma RunSnoc(cfg: Config, obs: seq<Entry>, s: State, calls: seq<Call>, c: Call)
    ensures var before := Run(cfg, obs, s, calls);
      Run(cfg, obs, s, calls + [c]) ==
        if HasExited(before.1) then before
        else (Step(cfg, obs, before.0, c).0, before.1 + [Step(cfg, obs, before.0, c).1])
  {
    RunStep(cfg, obs, s, calls + [c], |calls|);
    assert (calls + [c])[..|calls|] == calls && (calls + [c])[..|calls| + 1] == calls + [c];
  }

  lemma SkipsOn(run: (State, seq<Outcome>), kept: (State, seq<Outcome>), next: State, o: Outcome)
    requires SkipsTo(run, kept) && !HasExited(run.1)
    ensures o.Forwarded? ==> SkipsTo((run.0, run.1 + [o]), kept)
    ensures !o.Forwarded? ==> SkipsTo((next, run.1 + [o]), (next, kept.1 + [o]))
  {
    NotForwardedStep(run.1, o);
  }

  /** One more call of a run that went like the run of the kept calls. */
  lemma SkipOne(cfg: Config, obs: seq<Entry>, s: State, before: (State, seq<Outcome>), kept: seq<Call>, c: Call)
    requires SkipsTo(before, Run(cfg, obs, s, kept))
    ensures SkipsTo(
      if HasExited(before.1) then before
      else (Step(cfg, obs, before.0, c).0, before.1 + [Step(cfg, obs, before.0, c).1]),
      Run(cfg, obs, s, kept + if Intercepts(c) then [c] else []))
  {
    ForwardedExactly(cfg, obs, before.0, c);
    RunSnoc(cfg, obs, s, kept, c);
    if !HasExited(before.1) {
      SkipsOn(before, Run(cfg, obs, s, kept), Step(cfg, obs, before.0, c).0, Step(cfg, obs, before.0, c).1);
    }
    assert kept + [] == kept;
  }

  predicate Settled(o: Outcome) { o.Forwarded? || IsLogged(o) }

  /** No call exited or crashed. */
  predicate AllSettled(outcomes: seq<Outcome>) {
    forall i | 0 <= i < |outcomes| :: Settled(outcomes[i])
  }

  lemma SettledSplit(outcomes: seq<Outcome>, o: Outcome)
    requires AllSettled(outcomes + [o])
    ensures AllSettled(outcomes) && Settled(o)
  {
    assert (outcomes + [o])[|outcomes|] == o;
    forall i | 0 <= i < |outcomes| ensures Settled(outcomes[i]) { assert (outcomes + [o])[i] == outcomes[i]; }
  }

  /** When no call exits or crashes, the answered calls are the intercepted ones. */
  lemma {:induction false} AnsweredAreIntercepted(cfg: Config, obs: seq<Entry>, s: State, calls: seq<Call>)
    requires AllSettled(Run(cfg, obs, s, calls).1)
    ensures |Run(cfg, obs, s, calls).1| == |calls|
    ensures Logged(calls, Run(cfg, obs, s, calls).1) == Intercepted(calls)
  {
    if calls != [] {
      var n := |calls| - 1;
      var before := Run(cfg, obs, s, calls[..n]);
      assert !HasExited(before.1);
      var o := Step(cfg, obs, before.0, calls[n]).1;
      SettledSplit(before.1, o);
      AnsweredAreIntercepted(cfg, obs, s, calls[..n]);
      ForwardedExactly(cfg, obs, before.0, calls[n]);
      OneMoreAnswered(before.1, o, calls);
    }
  }

  lemma OneMoreAnswered(outcomes: seq<Outcome>, o: Outcome, calls: seq<Call>)
    requires calls != [] && |outcomes| == |calls| - 1
    requires Logged(calls[..|outcomes|], outcomes) == Intercepted(calls[..|outcomes|])
    requires Settled(o) && (o.Forwarded? <==> !Intercepts(calls[|outcomes|]))
    ensures Logged(calls, outcomes + [o]) == Intercepted(calls)
  {
    LoggedPrefix(calls, outcomes, |outcomes|);
    LoggedStep(calls, outcomes, o);
  }

  /** What is left of a replay without its forwarded calls answers all of the ledger. */
  predicate ClosedButForwarded(served: seq<Served>, calls: seq<Call>, replay: (State, seq<Outcome>)) {
    |replay.1| == |calls| && Closed(served, (replay.0, NotForwarded(replay.1)))
  }

  lemma ClosedOverAll(later: Config, entries: seq<Entry>, after: Files, calls: seq<Call>, served: seq<Served>)
    requires Closed(served, Run(later, entries, Start(after), Intercepted(calls)))
    ensures ClosedButForwarded(served, calls, Run(later, entries, Start(after), calls))
  {
    ForwardedCallsSkip(later, entries, Start(after), calls);
    RunsToTheEnd(later, entries, Start(after), calls);
  }

  /** So such a run can be replayed with the very calls it made. */
  lemma WholeRunIsReplayable(
      texts: iset<string>, cfg: Config, obs: seq<Entry>, files: Files, calls: seq<Call>, later: Config)
    requires Run(cfg, obs, Start(files), calls).0.live != []
    requires AllSettled(Run(cfg, obs, Start(files), calls).1)
    requires ClosureWorld(texts, cfg, files, calls, Run(cfg, obs, Start(files), calls).0.served)
    requires ReplaysHybrid(later, cfg)
    ensures var s := Run(cfg, obs, Start(files), calls).0;
      var after, index := Flush(cfg, s).files, IndexPath(cfg.dir, cfg.hybridSlug);
      index in after && after[index].IndexFile? &&
      ClosedButForwarded(s.served, calls, Run(later, after[index].index.observations, Start(after), calls))
  {
    var s := Run(cfg, obs, Start(files), calls).0;
    var after := Flush(cfg, s).files;
    AnsweredAreIntercepted(cfg, obs, Start(files), calls);
    HybridRunIsReplayable(texts, cfg, obs, files, calls, later);
    ClosedOverAll(later, after[IndexPath(cfg.dir, cfg.hybridSlug)].index.observations, after, calls, s.served);
  }
}
