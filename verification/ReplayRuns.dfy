/** Whole replays: what a run of calls does, and the served ledger it leaves. */
module ReplayRuns {
  import opened Common
  import opened Json
  import opened Canonical
  import opened Runs
  import opened Fixture
  import opened Cassettes
  import opened Replay

  function Start(files: Files): State { State(map[], [], [], 0, 0, false, None, files) }

  predicate HasExited(outcomes: seq<Outcome>) {
    outcomes != [] && outcomes[|outcomes| - 1].Exited?
  }

  /** A run of calls; sys.exit ends it. */
  function Run(cfg: Config, obs: seq<Entry>, s: State, calls: seq<Call>): (State, seq<Outcome>) {
    if calls == [] then (s, [])
    else
      var n := |calls| - 1;
      var before := Run(cfg, obs, s, calls[..n]);
      if HasExited(before.1) then before
      else
        var next := Step(cfg, obs, before.0, calls[n]);
        (next.0, before.1 + [next.1])
  }

  lemma RunStep(cfg: Config, obs: seq<Entry>, s: State, calls: seq<Call>, i: nat)
    requires i < |calls|
    ensures var before := Run(cfg, obs, s, calls[..i]);
      Run(cfg, obs, s, calls[..i + 1]) ==
        if HasExited(before.1) then before
        else (Step(cfg, obs, before.0, calls[i]).0, before.1 + [Step(cfg, obs, before.0, calls[i]).1])
  {
    assert calls[..i + 1][..i] == calls[..i];
  }

  /** While nothing has exited, the run goes on with the next call. */
  lemma RunExtends(
      cfg: Config, obs: seq<Entry>, s: State, calls: seq<Call>, i: nat, before: State, outcomes: seq<Outcome>)
    requires i < |calls| && Run(cfg, obs, s, calls[..i]) == (before, outcomes) && !HasExited(outcomes)
    ensures var next := Step(cfg, obs, before, calls[i]);
      Run(cfg, obs, s, calls[..i + 1]) == (next.0, outcomes + [next.1])
  {
    RunStep(cfg, obs, s, calls, i);
  }

  /** The shim, driven by an agent, makes exactly this run. */
  method Drive(shim: ReplayShim, calls: seq<Call>) returns (outcomes: seq<Outcome>)
    requires shim.Valid()
    modifies shim, shim.cassette, shim.disk
    ensures shim.Valid()
    ensures (shim.View(), outcomes) == Run(shim.cfg, shim.cassette.observations, old(shim.View()), calls)
  {
    outcomes := [];
    for i := 0 to |calls|
      invariant shim.Valid() && !HasExited(outcomes)
      invariant (shim.View(), outcomes) == Run(shim.cfg, shim.cassette.observations, old(shim.View()), calls[..i])
    {
      RunExtends(shim.cfg, shim.cassette.observations, old(shim.View()), calls, i, shim.View(), outcomes);
      var o := shim.Send(calls[i]);
      outcomes := outcomes + [o];
      if o.Exited? {
        ExitEndsRun(shim.cfg, shim.cassette.observations, old(shim.View()), calls, i + 1);
        return;
      }
    }
    assert calls[..|calls|] == calls;
  }

  lemma {:induction false} ExitEndsRun(cfg: Config, obs: seq<Entry>, s: State, calls: seq<Call>, i: nat)
    requires i <= |calls| && HasExited(Run(cfg, obs, s, calls[..i]).1)
    ensures Run(cfg, obs, s, calls) == Run(cfg, obs, s, calls[..i])
  {
    if i == |calls| {
      assert calls[..i] == calls;
    } else {
      var init := calls[..|calls| - 1];
      assert init[..i] == calls[..i];
      ExitEndsRun(cfg, obs, s, init, i);
    }
  }

  // ---- the served ledger ----

  function LiveOf(served: seq<Served>): seq<Served> {
    if served == [] then []
    else
      var n := |served| - 1;
      LiveOf(served[..n]) + if served[n].source == FromLive then [served[n]] else []
  }

  function HitCount(served: seq<Served>): nat {
    if served == [] then 0
    else
      var n := |served| - 1;
      HitCount(served[..n]) + if served[n].source == FromCassette then 1 else 0
  }

  /** The index a hit logs was recorded; where entries number themselves it is that of an entry with
      the requested key. */
  ghost predicate Recorded(obs: seq<Entry>, index: int, key: string) {
    (exists k | 0 <= k < |obs| :: obs[k].index == index) &&
    (Positional(obs) ==> 0 <= index < |obs| && obs[index].matchKey == key)
  }

  /** What one ledger entry says about the call it stands for. */
  ghost predicate EntryOk(cfg: Config, obs: seq<Entry>, e: Served) {
    e.inputBody.Object? && e.matchKey == CanonicalHash(cfg.sha, e.inputBody) &&
    match e.source
    case FromCassette =>
      e.observationIndex.Some? && Recorded(obs, e.observationIndex.value, e.matchKey) && !FalsyButEmpty(e.outputBody)
    case FromLive =>
      cfg.mode == Hybrid && e.observationIndex.None? && !NamesGuarded(e.inputBody, cfg.guard) && e.outputBody.Object?
  }

  /** The falsy values that or {} replaces. */
  predicate FalsyButEmpty(v: Value) { Falsy(v) && v != Object([]) }

  ghost predicate LedgerOk(cfg: Config, obs: seq<Entry>, s: State) {
    s.callIndex == |s.served| && s.live == LiveOf(s.served) &&
    forall i | 0 <= i < |s.served| :: s.served[i].callIndex == i && EntryOk(cfg, obs, s.served[i])
  }

  lemma AppendKeepsLedger(cfg: Config, obs: seq<Entry>, s: State, e: Served)
    requires LedgerOk(cfg, obs, s) && e.callIndex == s.callIndex && EntryOk(cfg, obs, e)
    ensures LedgerOk(cfg, obs, Append(s, e))
  {
    assert (s.served + [e])[..|s.served|] == s.served;
  }

  lemma StepKeepsLedger(cfg: Config, obs: seq<Entry>, s: State, c: Call)
    requires LedgerOk(cfg, obs, s)
    ensures LedgerOk(cfg, obs, Step(cfg, obs, s, c).0)
  {
    if c.openai && c.request.Some? && !c.request.value.Null? {
      var request := c.request.value;
      var key := CanonicalHash(cfg.sha, request);
      var s' := s.(cursors := CursorsAfter(obs, s.cursors, key));
      var found := LookupResult(obs, s.cursors, key);
      match Fetch(obs, found)
      case Found(e) =>
        FoundIsRecorded(obs, found.value, e, key);
        HitKeepsLedger(cfg, obs, s', key, e, request, c);
        SameLedger(cfg, obs, Hit(cfg, s', key, e, request, c).0, Step(cfg, obs, s, c).0);
      case NotFound =>
        MissKeepsLedger(cfg, obs, s', key, request, c);
        SameLedger(cfg, obs, Miss(cfg, s', key, request, c).0, Step(cfg, obs, s, c).0);
      case BadIndex => SameLedger(cfg, obs, s, s');
    }
  }

  lemma SameLedger(cfg: Config, obs: seq<Entry>, s: State, t: State)
    requires LedgerOk(cfg, obs, s) && t.callIndex == s.callIndex && t.served == s.served && t.live == s.live
    ensures LedgerOk(cfg, obs, t)
  {}

  lemma FoundIsRecorded(obs: seq<Entry>, k: nat, e: Entry, key: string)
    requires k < |obs| && obs[k].matchKey == key && Fetch(obs, Some(k)) == Found(e)
    ensures Recorded(obs, e.index, key)
  {
    if Positional(obs) { PositionalFetch(obs, Some(k)); }
  }

  lemma HitKeepsLedger(cfg: Config, obs: seq<Entry>, s: State, key: string, e: Entry, request: Value, c: Call)
    requires LedgerOk(cfg, obs, s) && key == CanonicalHash(cfg.sha, request) && Recorded(obs, e.index, key)
    ensures LedgerOk(cfg, obs, Hit(cfg, s, key, e, request, c).0)
  {
    var load := LoadBody(s.files, cfg.dir, cfg.slug, e.outputRef);
    if load.Loaded? && request.Object? {
      AppendKeepsLedger(cfg, obs, s, HitEntry(s, key, e, request, OrEmpty(load.value), c));
    }
  }

  lemma MissKeepsLedger(cfg: Config, obs: seq<Entry>, s: State, key: string, request: Value, c: Call)
    requires LedgerOk(cfg, obs, s) && key == CanonicalHash(cfg.sha, request)
    ensures LedgerOk(cfg, obs, Miss(cfg, s, key, request, c).0)
  {
    if cfg.mode == Hybrid && request.Object? && CheckRequest(request.fields, cfg.guard) == Allowed {
      GuardIsTight(request, cfg.guard);
      var reply := if c.reply.Some? then c.reply.value else Object([]);
      if UsageReadable(reply) { AppendKeepsLedger(cfg, obs, s, LiveEntry(s, key, request, reply, c)); }
    }
  }

  lemma {:induction false} SourcesAddUp(served: seq<Served>)
    ensures HitCount(served) + |LiveOf(served)| == |served|
    ensures (forall i | 0 <= i < |served| :: served[i].source == FromCassette) ==> LiveOf(served) == []
  {
    if served != [] {
      var n := |served| - 1;
      SourcesAddUp(served[..n]);
      if forall i | 0 <= i < |served| :: served[i].source == FromCassette {
        assert forall i | 0 <= i < n :: served[..n][i] == served[i];
      }
    }
  }

  /** The ledger over any run: entries number themselves, the live list is the live entries in
      order, hits and live calls make up the ledger, a pure run has no live entry, and no live
      entry names a guarded tool. */
  lemma {:induction false} LedgerHolds(cfg: Config, obs: seq<Entry>, files: Files, calls: seq<Call>)
    ensures var s := Run(cfg, obs, Start(files), calls).0;
      LedgerOk(cfg, obs, s) && HitCount(s.served) + |s.live| == |s.served| && (cfg.mode == Pure ==> s.live == [])
  {
    var s := Run(cfg, obs, Start(files), calls).0;
    if calls != [] {
      var n := |calls| - 1;
      LedgerHolds(cfg, obs, files, calls[..n]);
      StepKeepsLedger(cfg, obs, Run(cfg, obs, Start(files), calls[..n]).0, calls[n]);
    }
    SourcesAddUp(s.served);
  }
}
