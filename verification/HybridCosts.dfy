/** What each ledger entry of a replay says about its own call, and what the live calls of a run cost. */
module HybridCosts {
  import opened Common
  import opened Json
  import opened Canonical
  import opened Runs
  import opened Inference
  import opened Fixture
  import opened Cassettes
  import opened Replay
  import opened ReplayRuns
  import opened HybridClosure
  import opened Verdicts
  import Evaluation

  /** The model the request asks for; one that is not a text has no price. */
  function AskedModel(c: Call, default: string): string {
    if c.request.None? || !c.request.value.Object? then default
    else match Get(c.request.value.fields, "model")
      case None => default
      case Some(v) => if v.String? then v.text else ""
  }

  /** What the provider charges for the call. */
  function Price(c: Call): real {
    (c.inputTokens as real * PerMillion(AskedModel(c, "")).0 + c.outputTokens as real * PerMillion(AskedModel(c, "")).1)
      / 1_000_000.0
  }

  /** The entry of a call that went live: the reply, the call's own tokens, time and price. */
  predicate BilledTo(e: Served, c: Call, reply: Value) {
    e.source == FromLive && e.observationIndex == None && e.operation == "chat" && e.model == AskedModel(c, "") &&
    e.inputTokens == c.inputTokens && e.outputTokens == c.outputTokens && e.duration == c.endedAt - c.startedAt &&
    e.cost == Price(c) && e.outputBody == reply && reply == if c.reply.Some? then c.reply.value else Object([])
  }

  /** The entry of a call served from a recorded one: its operation and tokens, no time, no cost, and the model
      asked for, or the recorded one where none is. */
  predicate ServedFrom(e: Served, c: Call, entry: Entry) {
    e.source == FromCassette && e.observationIndex == Some(entry.index) && e.operation == entry.operation &&
    e.model == AskedModel(c, entry.model) && e.inputTokens == entry.inputTokens &&
    e.outputTokens == entry.outputTokens && e.duration == 0 && e.cost == 0.0
  }

  /** What the ledger entry of an answered call says about it. */
  ghost predicate Accounts(obs: seq<Entry>, e: Served, c: Call, o: Outcome) {
    match o
    case Answered(_) => exists k | 0 <= k < |obs| :: ServedFrom(e, c, obs[k])
    case WentLive(reply) => BilledTo(e, c, reply)
    case _ => false
  }

  /** The next outcome is accounted for by a new entry, or is no answer and adds none. */
  ghost predicate AccountsOne(obs: seq<Entry>, before: seq<Served>, after: seq<Served>, c: Call, o: Outcome) {
    if IsLogged(o) then |after| == |before| + 1 && after[..|before|] == before && Accounts(obs, after[|before|], c, o)
    else after == before
  }

  lemma AppendAccounts(obs: seq<Entry>, s: State, e: Served, c: Call, o: Outcome)
    requires IsLogged(o) && Accounts(obs, e, c, o)
    ensures AccountsOne(obs, s.served, Append(s, e).served, c, o)
  {}

  lemma HitAccounts(
      cfg: Config, obs: seq<Entry>, s: State, key: string, e: Entry, k: nat, request: Value, c: Call)
    requires k < |obs| && obs[k] == e && c.request == Some(request)
    ensures var next := Hit(cfg, s, key, e, request, c); AccountsOne(obs, s.served, next.0.served, c, next.1)
  {
    var load := LoadBody(s.files, cfg.dir, cfg.slug, e.outputRef);
    if load.Loaded? && request.Object? {
      var entry := HitEntry(s, key, e, request, OrEmpty(load.value), c);
      assert ServedFrom(entry, c, obs[k]);
      AppendAccounts(obs, s, entry, c, Hit(cfg, s, key, e, request, c).1);
    }
  }

  lemma PriceIsSpanCost(c: Call)
    ensures Price(c) == SpanCost(c.inputTokens, c.outputTokens, AskedModel(c, ""))
  {
    SpanCostExactly(c.inputTokens, c.outputTokens, AskedModel(c, ""));
  }

  lemma LiveIsBilled(s: State, key: string, request: Value, reply: Value, c: Call)
    requires request.Object? && c.request == Some(request)
    requires reply == if c.reply.Some? then c.reply.value else Object([])
    ensures BilledTo(LiveEntry(s, key, request, reply, c), c, reply)
  {
    PriceIsSpanCost(c);
  }

  lemma MissAccounts(cfg: Config, obs: seq<Entry>, s: State, key: string, request: Value, c: Call)
    requires c.request == Some(request)
    ensures var next := Miss(cfg, s, key, request, c); AccountsOne(obs, s.served, next.0.served, c, next.1)
  {
    var next := Miss(cfg, s, key, request, c);
    if next.1.WentLive? {
      LiveIsBilled(s, key, request, next.1.reply, c);
      AppendAccounts(obs, s, LiveEntry(s, key, request, next.1.reply, c), c, next.1);
    }
  }

  lemma StepAccounts(cfg: Config, obs: seq<Entry>, s: State, c: Call)
    ensures var next := Step(cfg, obs, s, c); AccountsOne(obs, s.served, next.0.served, c, next.1)
  {
    ForwardedExactly(cfg, obs, s, c);
    if Intercepts(c) {
      var request := c.request.value;
      var key := CanonicalHash(cfg.sha, request);
      var s' := s.(cursors := CursorsAfter(obs, s.cursors, key));
      match Fetch(obs, LookupResult(obs, s.cursors, key))
      case Found(e) =>
        var k :| 0 <= k < |obs| && obs[k] == e;
        HitAccounts(cfg, obs, s', key, e, k, request, c);
      case NotFound => MissAccounts(cfg, obs, s', key, request, c);
      case BadIndex =>
    }
  }

  // ---- whole runs ----

  /** The outcomes that left an entry. */
  function Replies(outcomes: seq<Outcome>): seq<Outcome> {
    if outcomes == [] then []
    else
      var n := |outcomes| - 1;
      Replies(outcomes[..n]) + if IsLogged(outcomes[n]) then [outcomes[n]] else []
  }

  /** Entry i of the ledger accounts for the i-th answered call. */
  ghost predicate AllAccounted(obs: seq<Entry>, served: seq<Served>, calls: seq<Call>, answers: seq<Outcome>) {
    |served| == |calls| == |answers| && forall i | 0 <= i < |served| :: Accounts(obs, served[i], calls[i], answers[i])
  }

  /** What the live calls of a run cost, from the calls alone. */
  function Charged(calls: seq<Call>, outcomes: seq<Outcome>): real
    requires |outcomes| <= |calls|
  {
    if outcomes == [] then 0.0
    else
      var n := |outcomes| - 1;
      Charged(calls, outcomes[..n]) + if outcomes[n].WentLive? then Price(calls[n]) else 0.0
  }

  lemma {:induction false} ChargedPrefix(calls: seq<Call>, outcomes: seq<Outcome>, n: nat)
    requires |outcomes| <= n <= |calls|
    ensures Charged(calls[..n], outcomes) == Charged(calls, outcomes)
  {
    if outcomes != [] { ChargedPrefix(calls, outcomes[..|outcomes| - 1], n); }
  }

  lemma {:induction false} SpentSnoc(served: seq<Served>, e: Served)
    ensures Spent(served + [e]) == Spent(served) + if e.source == FromLive then e.cost else 0.0
  {
    if served != [] {
      assert (served + [e])[1..] == served[1..] + [e];
      SpentSnoc(served[1..], e);
    } else {
      assert served + [e] == [e] && [e][1..] == [];
    }
  }

  /** Ledger, answered calls and charges up to here. */
  ghost predicate Accounted(obs: seq<Entry>, served: seq<Served>, calls: seq<Call>, outcomes: seq<Outcome>)
    requires |outcomes| <= |calls|
  {
    AllAccounted(obs, served, Logged(calls, outcomes), Replies(outcomes)) && Spent(served) == Charged(calls, outcomes)
  }

  lemma AccountedGrows(
      obs: seq<Entry>, served: seq<Served>, after: seq<Served>, calls: seq<Call>, outcomes: seq<Outcome>, o: Outcome)
    requires |outcomes| < |calls| && Accounted(obs, served, calls, outcomes)
    requires AccountsOne(obs, served, after, calls[|outcomes|], o)
    ensures Accounted(obs, after, calls, outcomes + [o])
  {
    assert (outcomes + [o])[..|outcomes|] == outcomes;
    LoggedStep(calls, outcomes, o);
    if IsLogged(o) {
      var e := after[|served|];
      assert after == served + [e];
      SpentSnoc(served, e);
    }
  }

  /** One more call. */
  lemma RunAccounts(cfg: Config, obs: seq<Entry>, before: State, outcomes: seq<Outcome>, calls: seq<Call>, n: nat)
    requires |outcomes| == n < |calls| && Accounted(obs, before.served, calls[..n], outcomes)
    ensures var next := Step(cfg, obs, before, calls[n]);
      Accounted(obs, next.0.served, calls, outcomes + [next.1])
  {
    var next := Step(cfg, obs, before, calls[n]);
    LoggedPrefix(calls, outcomes, n);
    ChargedPrefix(calls, outcomes, n);
    StepAccounts(cfg, obs, before, calls[n]);
    AccountedGrows(obs, before.served, next.0.served, calls, outcomes, next.1);
  }

  lemma AccountedPrefix(obs: seq<Entry>, served: seq<Served>, calls: seq<Call>, outcomes: seq<Outcome>, n: nat)
    requires |outcomes| <= n <= |calls| && Accounted(obs, served, calls[..n], outcomes)
    ensures Accounted(obs, served, calls, outcomes)
  {
    LoggedPrefix(calls, outcomes, n);
    ChargedPrefix(calls, outcomes, n);
  }

  /** However a run ends, entry i of its ledger accounts for the i-th call it answered, and its live entries cost
      what the provider charges for the calls that went live. */
  lemma {:induction false} LedgerAccounts(cfg: Config, obs: seq<Entry>, files: Files, calls: seq<Call>)
    ensures var run := Run(cfg, obs, Start(files), calls);
      |run.1| <= |calls| && Accounted(obs, run.0.served, calls, run.1)
  {
    if calls != [] {
      var n := |calls| - 1;
      var before := Run(cfg, obs, Start(files), calls[..n]);
      LedgerAccounts(cfg, obs, files, calls[..n]);
      if HasExited(before.1) {
        AccountedPrefix(obs, before.0.served, calls, before.1, n);
      } else {
        RunsToTheEnd(cfg, obs, Start(files), calls[..n]);
        RunAccounts(cfg, obs, before.0, before.1, calls, n);
      }
    }
  }

  /** The cost check, of a ledger that spent this much. */
  lemma CostCheck(served: seq<Served>, spent: real, m: Metric, durations: seq<int>)
    requires m.costMax.Some? && Spent(served) == spent
    ensures Evaluation.MetricMeets(Evaluation.CostMax, m, served, durations) <==>
      spent <= 0.0 || spent <= m.costMax.value
  {
    TotalsAgree(served);
  }

  /** A run meets its cost bound exactly when its live calls are free or cost no more than the bound. */
  lemma CostBoundExactly(cfg: Config, obs: seq<Entry>, files: Files, calls: seq<Call>, m: Metric, durations: seq<int>)
    requires m.costMax.Some?
    ensures var run := Run(cfg, obs, Start(files), calls);
      |run.1| <= |calls| &&
      (Evaluation.MetricMeets(Evaluation.CostMax, m, run.0.served, durations) <==>
         Charged(calls, run.1) <= 0.0 || Charged(calls, run.1) <= m.costMax.value)
  {
    var run := Run(cfg, obs, Start(files), calls);
    LedgerAccounts(cfg, obs, files, calls);
    CostCheck(run.0.served, Charged(calls, run.1), m, durations);
  }
}
