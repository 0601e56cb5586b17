/** Which requests the guard refuses, and how each call of a replay ends: told from the calls and the entries. */
module ReplayExits {
  import opened Common
  import opened Json
  import opened JsonText
  import opened Canonical
  import opened Runs
  import opened Fixture
  import opened Cassettes
  import opened Replay
  import opened ReplayRuns
  import opened HybridClosure

  // ---- the guard ----

  /** The tool's function is an object that bears this name, and the name is not empty. */
  predicate FunctionNamed(tool: Value, name: Value) {
    tool.Object? && Get(tool.fields, "function").Some? && Get(tool.fields, "function").value.Object? &&
    Get(Get(tool.fields, "function").value.fields, "name") == Some(name) && !Falsy(name)
  }

  /** It has no function that bears a name, so the tool's own name counts; without one that is the empty text. */
  ghost predicate OwnNamed(tool: Value, name: Value) {
    tool.Object? && !(exists other :: FunctionNamed(tool, other)) &&
    (match Get(tool.fields, "function") case None => true case Some(f) => Falsy(f) || f.Object?) &&
    match Get(tool.fields, "name") case None => name == String("") case Some(own) => name == own
  }

  ghost predicate Bears(tool: Value, name: Value) { FunctionNamed(tool, name) || OwnNamed(tool, name) }

  lemma BearsExactly(tool: Value, name: Value)
    ensures ToolName(tool) == Some(name) <==> Bears(tool, name)
  {
    if tool.Object? && ToolName(tool).Some? && OwnNamed(tool, name) {
      assert FunctionNamed(tool, ToolName(tool).value) || OwnNamed(tool, ToolName(tool).value);
    }
  }

  ghost predicate Guarded(tool: Value, guard: set<string>) { exists text | text in guard :: Bears(tool, String(text)) }

  /** The name can be compared, and is not guarded. */
  ghost predicate Passes(tool: Value, guard: set<string>) {
    exists name :: Bears(tool, name) && !name.Array? && !name.Object? && (name.String? ==> name.text !in guard)
  }

  lemma CheckToolExactly(tool: Value, guard: set<string>)
    ensures CheckTool(tool, guard) == Refused <==> Guarded(tool, guard)
    ensures CheckTool(tool, guard) == Allowed <==> Passes(tool, guard)
  {
    forall name ensures ToolName(tool) == Some(name) <==> Bears(tool, name) { BearsExactly(tool, name); }
    if CheckTool(tool, guard) == Allowed { assert Bears(tool, ToolName(tool).value); }
  }

  /** A guarded tool that only passed ones precede. */
  ghost predicate GuardedFirst(tools: seq<Value>, guard: set<string>, i: nat) {
    i < |tools| && Guarded(tools[i], guard) && forall j | 0 <= j < i :: Passes(tools[j], guard)
  }

  lemma GuardedFirstCons(tools: seq<Value>, guard: set<string>)
    requires tools != []
    ensures (exists i :: GuardedFirst(tools, guard, i)) <==>
      Guarded(tools[0], guard) || (Passes(tools[0], guard) && exists i :: GuardedFirst(tools[1..], guard, i))
  {
    if Guarded(tools[0], guard) { assert GuardedFirst(tools, guard, 0); }
    if i: nat :| GuardedFirst(tools[1..], guard, i) {
      if Passes(tools[0], guard) { assert GuardedFirst(tools, guard, i + 1); }
    }
    if i: nat :| GuardedFirst(tools, guard, i) {
      if i > 0 { assert GuardedFirst(tools[1..], guard, i - 1); }
    }
  }

  ghost predicate AllPass(tools: seq<Value>, guard: set<string>) {
    forall i | 0 <= i < |tools| :: Passes(tools[i], guard)
  }

  lemma {:induction false} CheckToolsExactly(tools: seq<Value>, guard: set<string>)
    ensures CheckTools(tools, guard) == Refused <==> exists i :: GuardedFirst(tools, guard, i)
    ensures CheckTools(tools, guard) == Allowed <==> AllPass(tools, guard)
  {
    if tools != [] {
      CheckToolExactly(tools[0], guard);
      CheckToolsExactly(tools[1..], guard);
      GuardedFirstCons(tools, guard);
      AllPassCons(tools, guard);
    }
  }

  lemma AllPassCons(tools: seq<Value>, guard: set<string>)
    requires tools != []
    ensures AllPass(tools, guard) <==> Passes(tools[0], guard) && AllPass(tools[1..], guard)
  {
    forall i | 0 < i < |tools| ensures tools[i] == tools[1..][i - 1] {}
  }

  /** The guard refuses a request exactly when a guarded name stands at a tool that only passed ones precede, and
      allows it exactly when there is no guard, no tool, or only tools that pass. On any other it raises. */
  lemma GuardExactly(request: seq<Field>, guard: set<string>)
    ensures CheckRequest(request, guard) == Refused <==>
      guard != {} && Get(request, "tools").Some? && Get(request, "tools").value.Array? &&
      exists i :: GuardedFirst(Get(request, "tools").value.items, guard, i)
    ensures CheckRequest(request, guard) == Allowed <==>
      guard == {} ||
      match Get(request, "tools")
      case None => true
      case Some(Array(tools)) => AllPass(tools, guard)
      case Some(tools) => tools == Object([]) || tools == String("")
  {
    match Get(request, "tools")
    case Some(Array(tools)) => CheckToolsExactly(tools, guard);
    case _ => CheckToolsExactly([], guard);
  }

  // ---- how a call ends ----

  function KeyOf(sha: Sha, c: Call): string
    requires Intercepts(c)
  {
    CanonicalHash(sha, c.request.value)
  }

  /** The keys of the calls that were looked up, in order. */
  function Asked(sha: Sha, calls: seq<Call>): seq<string> {
    if calls == [] then []
    else
      var n := |calls| - 1;
      Asked(sha, calls[..n]) + if Intercepts(calls[n]) then [KeyOf(sha, calls[n])] else []
  }

  /** The observations recorded for the request have all been served to earlier ones. */
  predicate Unanswered(cfg: Config, obs: seq<Entry>, calls: seq<Call>, k: nat)
    requires k < |calls|
  {
    Intercepts(calls[k]) &&
    var key := KeyOf(cfg.sha, calls[k]); |Occurrences(obs, key)| <= Count(Asked(cfg.sha, calls[..k]), key)
  }

  /** The request may go live. */
  predicate MayGoLive(cfg: Config, c: Call)
    requires Intercepts(c)
  {
    cfg.mode == Hybrid && c.request.value.Object? && CheckRequest(c.request.value.fields, cfg.guard) == Allowed
  }

  /** The guard stops it. */
  predicate IsStopped(cfg: Config, c: Call)
    requires Intercepts(c)
  {
    cfg.mode == Hybrid && c.request.value.Object? && CheckRequest(c.request.value.fields, cfg.guard) == Refused
  }

  /** How a call ends, given whether an observation is left for its request. */
  predicate EndsAs(cfg: Config, c: Call, unanswered: bool, o: Outcome)
    requires unanswered ==> Intercepts(c)
  {
    (o == Forwarded <==> !Intercepts(c)) && (o.Answered? ==> !unanswered) &&
    (o == Exited(78) <==> unanswered && cfg.mode == Pure) &&
    (o == Exited(79) <==> unanswered && IsStopped(cfg, c)) &&
    (o.Exited? ==> o.code == 78 || o.code == 79) &&
    (o.WentLive? <==> unanswered && MayGoLive(cfg, c) &&
                      UsageReadable(if c.reply.Some? then c.reply.value else Object([])))
  }

  /** What a call leaves of the rest of the state: the cursors, and what an exit flushes. */
  predicate Leaves(s: State, next: State, o: Outcome) {
    next.cursors == s.cursors &&
    if o.Exited? then next.misses == s.misses + 1 && (!s.written ==> next.written && next.servedFile == Some(s.served))
    else next.misses == s.misses && next.written == s.written && next.servedFile == s.servedFile
  }

  lemma HitEnds(cfg: Config, s: State, key: string, e: Entry, request: Value, c: Call)
    requires Intercepts(c) && c.request == Some(request)
    ensures var next := Hit(cfg, s, key, e, request, c);
      EndsAs(cfg, c, false, next.1) && Leaves(s, next.0, next.1)
  {}

  lemma MissEnds(cfg: Config, s: State, key: string, request: Value, c: Call)
    requires Intercepts(c) && c.request == Some(request)
    ensures var next := Miss(cfg, s, key, request, c);
      EndsAs(cfg, c, true, next.1) && Leaves(s, next.0, next.1)
  {}

  /** The state in which a call is looked up. */
  function LookedUp(cfg: Config, obs: seq<Entry>, s: State, c: Call): State {
    if Intercepts(c) then s.(cursors := CursorsAfter(obs, s.cursors, KeyOf(cfg.sha, c))) else s
  }

  /** What it then does with what was found. */
  function Continue(cfg: Config, s: State, found: Looked, c: Call): (State, Outcome)
    requires Intercepts(c)
  {
    match found
    case Found(e) => Hit(cfg, s, KeyOf(cfg.sha, c), e, c.request.value, c)
    case NotFound => Miss(cfg, s, KeyOf(cfg.sha, c), c.request.value, c)
    case BadIndex => (s, Crashed)
  }

  lemma LookedUpEnds(cfg: Config, s: State, found: Looked, c: Call)
    requires Intercepts(c)
    ensures var next := Continue(cfg, s, found, c);
      EndsAs(cfg, c, found.NotFound?, next.1) && Leaves(s, next.0, next.1)
  {
    match found
    case Found(e) => HitEnds(cfg, s, KeyOf(cfg.sha, c), e, c.request.value, c);
    case NotFound => MissEnds(cfg, s, KeyOf(cfg.sha, c), c.request.value, c);
    case BadIndex =>
  }

  lemma StepContinues(cfg: Config, obs: seq<Entry>, s: State, c: Call)
    ensures Step(cfg, obs, s, c) ==
      if Intercepts(c) then
        Continue(cfg, LookedUp(cfg, obs, s, c), Fetch(obs, LookupResult(obs, s.cursors, KeyOf(cfg.sha, c))), c)
      else (s, Forwarded)
  {}

  lemma FetchFinds(obs: seq<Entry>, found: Option<nat>)
    requires found.Some? ==> found.value < |obs|
    ensures Fetch(obs, found).NotFound? <==> found.None?
  {}

  /** What one call does, when the cursors say whether its request is answered. */
  lemma StepEnds(cfg: Config, obs: seq<Entry>, s: State, c: Call, unanswered: bool)
    requires unanswered ==> Intercepts(c)
    requires Intercepts(c) ==> (unanswered <==> LookupResult(obs, s.cursors, KeyOf(cfg.sha, c)).None?)
    ensures var next := Step(cfg, obs, s, c);
      EndsAs(cfg, c, unanswered, next.1) && Leaves(LookedUp(cfg, obs, s, c), next.0, next.1)
  {
    StepContinues(cfg, obs, s, c);
    if Intercepts(c) {
      var found := LookupResult(obs, s.cursors, KeyOf(cfg.sha, c));
      FetchFinds(obs, found);
      LookedUpEnds(cfg, LookedUp(cfg, obs, s, c), Fetch(obs, found), c);
    }
  }

  lemma StepLeaves(cfg: Config, obs: seq<Entry>, s: State, c: Call)
    ensures var next := Step(cfg, obs, s, c); Leaves(LookedUp(cfg, obs, s, c), next.0, next.1)
  {
    StepEnds(cfg, obs, s, c, Intercepts(c) && LookupResult(obs, s.cursors, KeyOf(cfg.sha, c)).None?);
  }

  lemma {:induction false} CursorsFollow(cfg: Config, obs: seq<Entry>, files: Files, calls: seq<Call>)
    requires !HasExited(Run(cfg, obs, Start(files), calls).1)
    ensures Run(cfg, obs, Start(files), calls).0.cursors == CursorsAll(obs, Asked(cfg.sha, calls))
  {
    if calls != [] {
      var n := |calls| - 1;
      var before := Run(cfg, obs, Start(files), calls[..n]);
      CursorsFollow(cfg, obs, files, calls[..n]);
      StepLeaves(cfg, obs, before.0, calls[n]);
      AskedStep(cfg, obs, calls, n);
    }
  }

  lemma AskedStep(cfg: Config, obs: seq<Entry>, calls: seq<Call>, n: nat)
    requires n + 1 == |calls|
    ensures CursorsAll(obs, Asked(cfg.sha, calls)) ==
      var before := CursorsAll(obs, Asked(cfg.sha, calls[..n]));
      if Intercepts(calls[n]) then CursorsAfter(obs, before, KeyOf(cfg.sha, calls[n])) else before
  {
    var keys := Asked(cfg.sha, calls[..n]);
    if Intercepts(calls[n]) {
      assert (keys + [KeyOf(cfg.sha, calls[n])])[..|keys|] == keys;
    } else {
      assert keys + [] == keys;
    }
  }

  /** Outcome k of a run is what call k does after the calls before it, none of which exited. */
  lemma {:induction false} OutcomeAt(cfg: Config, obs: seq<Entry>, s: State, calls: seq<Call>, k: nat)
    requires k < |Run(cfg, obs, s, calls).1|
    ensures k < |calls| && !HasExited(Run(cfg, obs, s, calls[..k]).1)
    ensures Run(cfg, obs, s, calls).1[k] == Step(cfg, obs, Run(cfg, obs, s, calls[..k]).0, calls[k]).1
  {
    var n := |calls| - 1;
    var before := Run(cfg, obs, s, calls[..n]);
    RunsToTheEnd(cfg, obs, s, calls[..n]);
    if k < |before.1| {
      OutcomeAt(cfg, obs, s, calls[..n], k);
      assert calls[..n][..k] == calls[..k] && calls[..n][k] == calls[k];
    } else {
      assert k == n && !HasExited(before.1);
    }
  }

  /** An exit is the last outcome. */
  lemma {:induction false} ExitIsLast(cfg: Config, obs: seq<Entry>, s: State, calls: seq<Call>, k: nat)
    requires k < |Run(cfg, obs, s, calls).1| && Run(cfg, obs, s, calls).1[k].Exited?
    ensures k == |Run(cfg, obs, s, calls).1| - 1
  {
    var n := |calls| - 1;
    var before := Run(cfg, obs, s, calls[..n]);
    if k < |before.1| { ExitIsLast(cfg, obs, s, calls[..n], k); }
  }

  lemma UnansweredExactly(cfg: Config, obs: seq<Entry>, calls: seq<Call>, k: nat, cursors: Cursors)
    requires k < |calls| && Intercepts(calls[k]) && cursors == CursorsAll(obs, Asked(cfg.sha, calls[..k]))
    ensures Unanswered(cfg, obs, calls, k) <==> LookupResult(obs, cursors, KeyOf(cfg.sha, calls[k])).None?
  {
    CursorCounts(obs, Asked(cfg.sha, calls[..k]), KeyOf(cfg.sha, calls[k]));
  }

  /** How each call of a run ends. A pure run exits with 78 at the first request that no recorded observation is left
      for, and with no other code; a hybrid run makes such a request live if the guard allows it, and exits with 79
      if it refuses. An exit ends the run. */
  lemma EndsExactly(cfg: Config, obs: seq<Entry>, files: Files, calls: seq<Call>, k: nat)
    requires k < |Run(cfg, obs, Start(files), calls).1|
    ensures var outcomes := Run(cfg, obs, Start(files), calls).1;
      k < |calls| && EndsAs(cfg, calls[k], Unanswered(cfg, obs, calls, k), outcomes[k]) &&
      (outcomes[k].Exited? ==> k == |outcomes| - 1)
  {
    OutcomeAt(cfg, obs, Start(files), calls, k);
    var s := Run(cfg, obs, Start(files), calls[..k]).0;
    CursorsFollow(cfg, obs, files, calls[..k]);
    if Intercepts(calls[k]) { UnansweredExactly(cfg, obs, calls, k, s.cursors); }
    StepEnds(cfg, obs, s, calls[k], Unanswered(cfg, obs, calls, k));
    if Run(cfg, obs, Start(files), calls).1[k].Exited? { ExitIsLast(cfg, obs, Start(files), calls, k); }
  }

  // ---- which observation answers ----

  /** The call adds one entry, for observation i and with the body its reference loads, and is answered with it. */
  predicate AnsweredFrom(cfg: Config, obs: seq<Entry>, files: Files, i: nat, s: State, next: (State, Outcome)) {
    i < |obs| && |next.0.served| == |s.served| + 1 && next.0.served[..|s.served|] == s.served &&
    var e, load := next.0.served[|s.served|], LoadBody(files, cfg.dir, cfg.slug, obs[i].outputRef);
    load.Loaded? && e.observationIndex == Some(i) && e.outputBody == OrEmpty(load.value) &&
    next.1 == Answered(Print(e.outputBody, Spaced, 0))
  }

  lemma HitAnswersFrom(cfg: Config, obs: seq<Entry>, s: State, i: nat, key: string, request: Value, c: Call)
    requires i < |obs| && Positional(obs) && Hit(cfg, s, key, obs[i], request, c).1.Answered?
    ensures AnsweredFrom(cfg, obs, s.files, i, s, Hit(cfg, s, key, obs[i], request, c))
  {}

  lemma FoundAnswers(cfg: Config, obs: seq<Entry>, s: State, c: Call, i: nat)
    requires Intercepts(c) && Positional(obs) && LookupResult(obs, s.cursors, KeyOf(cfg.sha, c)) == Some(i)
    requires i < |obs| && Step(cfg, obs, s, c).1.Answered?
    ensures AnsweredFrom(cfg, obs, s.files, i, s, Step(cfg, obs, s, c))
  {
    PositionalFetch(obs, Some(i));
    HitAnswersFrom(cfg, obs, LookedUp(cfg, obs, s, c), i, KeyOf(cfg.sha, c), c.request.value, c);
  }

  /** In any run over entries numbered by position, a request that is answered is answered from the observation
      recorded for it that as many equal requests precede, with the body on disk before the run. */
  lemma AnswerIsNth(cfg: Config, obs: seq<Entry>, files: Files, calls: seq<Call>, k: nat)
    requires Positional(obs) && k < |Run(cfg, obs, Start(files), calls).1|
    requires Run(cfg, obs, Start(files), calls).1[k].Answered?
    ensures k < |calls| && Intercepts(calls[k]) &&
      var key, s := KeyOf(cfg.sha, calls[k]), Run(cfg, obs, Start(files), calls[..k]).0;
      var n, at := Count(Asked(cfg.sha, calls[..k]), key), Occurrences(obs, key);
      n < |at| && AnsweredFrom(cfg, obs, files, at[n], s, Step(cfg, obs, s, calls[k]))
  {
    EndsExactly(cfg, obs, files, calls, k);
    OutcomeAt(cfg, obs, Start(files), calls, k);
    var s, key := Run(cfg, obs, Start(files), calls[..k]).0, KeyOf(cfg.sha, calls[k]);
    var n, at := Count(Asked(cfg.sha, calls[..k]), key), Occurrences(obs, key);
    CursorsFollow(cfg, obs, files, calls[..k]);
    CursorCounts(obs, Asked(cfg.sha, calls[..k]), key);
    RunFollows(cfg, obs, files, calls[..k]);
    FoundAnswers(cfg, obs, s, calls[k], at[n]);
  }

  // ---- what an exit leaves ----

  /** Nothing is flushed before a run exits; the exit counts one miss and flushes the ledger as it stands. */
  predicate FlushedAtExit(s: State, outcomes: seq<Outcome>) {
    if HasExited(outcomes) then s.misses == 1 && s.written && s.servedFile == Some(s.served)
    else s.misses == 0 && !s.written && s.servedFile == None
  }

  lemma FlushGrows(s: State, looked: State, next: State, outcomes: seq<Outcome>, o: Outcome)
    requires FlushedAtExit(s, outcomes) && !HasExited(outcomes)
    requires looked == s.(cursors := looked.cursors) && Leaves(looked, next, o)
    requires o.Exited? ==> next.served == s.served
    ensures FlushedAtExit(next, outcomes + [o])
  {
    assert (outcomes + [o])[|outcomes|] == o;
  }

  lemma StepFlushes(cfg: Config, obs: seq<Entry>, s: State, c: Call, outcomes: seq<Outcome>)
    requires FlushedAtExit(s, outcomes) && !HasExited(outcomes)
    ensures var next := Step(cfg, obs, s, c); FlushedAtExit(next.0, outcomes + [next.1])
  {
    var next := Step(cfg, obs, s, c);
    StepLeaves(cfg, obs, s, c);
    StepServes(cfg, obs, s, c);
    FlushGrows(s, LookedUp(cfg, obs, s, c), next.0, outcomes, next.1);
  }

  lemma StepServes(cfg: Config, obs: seq<Entry>, s: State, c: Call)
    ensures Step(cfg, obs, s, c).1.Exited? ==> Step(cfg, obs, s, c).0.served == s.served
  {
    ForwardedExactly(cfg, obs, s, c);
    if Intercepts(c) { StepLogs(cfg, obs, s, c); }
  }

  lemma {:induction false} ExitFlushes(cfg: Config, obs: seq<Entry>, files: Files, calls: seq<Call>)
    ensures var run := Run(cfg, obs, Start(files), calls); FlushedAtExit(run.0, run.1)
  {
    if calls != [] {
      var n := |calls| - 1;
      var before := Run(cfg, obs, Start(files), calls[..n]);
      ExitFlushes(cfg, obs, files, calls[..n]);
      if !HasExited(before.1) { StepFlushes(cfg, obs, before.0, calls[n], before.1); }
    }
  }
}
