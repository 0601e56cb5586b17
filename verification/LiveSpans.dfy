/** The dashboard's live-span hook: an event source per connection attempt, a backoff timer between
    attempts, and a generation counter that outdates both. Events may come in any order, also from
    sources already closed. */
module LiveSpans {
  import opened Common

  const BACKOFF_INIT_MS: nat := 1_000
  const BACKOFF_MAX_MS: nat := 30_000

  /** A frame's payload. One without a span id has None: undefined equals undefined. */
  datatype LiveSpan = LiveSpan(spanId: Option<string>, operation: string, status: string, startTime: nat, model: string)

  datatype ConnState = Connecting | Open | Disconnected

  /** An event source, and what its handlers captured. */
  datatype Source = Source(gen: nat, run: string, open: bool)

  /** A timeout that will connect with this generation; it is pending until it fires or is cleared. */
  datatype Timer = Timer(gen: nat, run: string, delay: nat, pending: bool)

  /** The hook's refs and React state. A source or timer is known by its position; timerRef keeps
      naming a timer that has fired. mounted says whether the effect is set up. */
  datatype Hook = Hook(
    sources: seq<Source>, timers: seq<Timer>, es: Option<nat>, timerRef: Option<nat>,
    delay: nat, generation: nat, spans: seq<LiveSpan>, conn: ConnState, run: string, mounted: bool)

  const INITIAL := Hook([], [], None, None, BACKOFF_INIT_MS, 0, [], Connecting, "", false)

  /** A run change is a Cleanup and then a Setup. An unreadable frame is a Message of None. */
  datatype Event =
    | Setup(run: string)
    | Cleanup
    | Opened(source: nat)
    | Message(source: nat, payload: Option<LiveSpan>)
    | Errored(source: nat)
    | Fires(timer: nat)

  /** The refs name sources and timers that exist. */
  predicate RefsOk(s: Hook) {
    (s.es.Some? ==> s.es.value < |s.sources|) && (s.timerRef.Some? ==> s.timerRef.value < |s.timers|)
  }

  predicate Enabled(s: Hook, e: Event) {
    RefsOk(s) &&
    match e
    case Setup(_) => !s.mounted
    case Cleanup => s.mounted
    case Opened(i) => i < |s.sources|
    case Message(i, _) => i < |s.sources|
    case Errored(i) => i < |s.sources|
    case Fires(t) => t < |s.timers| && s.timers[t].pending
  }

  // ---- what the handlers do ----

  function CloseSource(s: Hook, i: nat): Hook
    requires i < |s.sources|
  {
    s.(sources := s.sources[i := s.sources[i].(open := false)])
  }

  function CloseEs(s: Hook): Hook
    requires RefsOk(s)
  {
    if s.es.None? then s else CloseSource(s, s.es.value).(es := None)
  }

  function Unschedule(s: Hook, t: nat): Hook
    requires t < |s.timers|
  {
    s.(timers := s.timers[t := s.timers[t].(pending := false)])
  }

  function ClearTimer(s: Hook): Hook
    requires RefsOk(s)
  {
    if s.timerRef.None? then s else Unschedule(s, s.timerRef.value).(timerRef := None)
  }

  function Connect(s: Hook, gen: nat, run: string): Hook {
    if gen != s.generation then s
    else s.(conn := Connecting, sources := s.sources + [Source(gen, run, true)], es := Some(|s.sources|))
  }

  function AddSpan(spans: seq<LiveSpan>, span: LiveSpan): seq<LiveSpan> {
    if exists i | 0 <= i < |spans| :: spans[i].spanId == span.spanId then spans else spans + [span]
  }

  function Doubled(delay: nat): nat { if delay * 2 < BACKOFF_MAX_MS then delay * 2 else BACKOFF_MAX_MS }

  /** A failed connection: close it, widen the delay, and schedule the next generation. */
  function Fail(s: Hook, i: nat): Hook
    requires i < |s.sources|
  {
    var source := s.sources[i];
    CloseSource(s, i).(
      es := None, conn := Disconnected, delay := Doubled(s.delay), generation := source.gen + 1,
      timers := s.timers + [Timer(source.gen + 1, source.run, s.delay, true)], timerRef := Some(|s.timers|))
  }

  function Step(s: Hook, e: Event): (r: Hook)
    requires Enabled(s, e)
    ensures RefsOk(r)
  {
    match e
    case Setup(run) =>
      var next := s.(generation := s.generation + 1, delay := BACKOFF_INIT_MS, run := run, mounted := true);
      Connect(CloseEs(ClearTimer(next)), s.generation + 1, run)
    case Cleanup => CloseEs(ClearTimer(s.(generation := s.generation + 1, mounted := false)))
    case Opened(i) =>
      if s.sources[i].gen != s.generation then CloseSource(s, i) else s.(conn := Open, delay := BACKOFF_INIT_MS)
    case Message(i, payload) =>
      if s.sources[i].gen != s.generation || payload.None? then s else s.(spans := AddSpan(s.spans, payload.value))
    case Errored(i) => if s.sources[i].gen != s.generation then s else Fail(s, i)
    case Fires(t) => Connect(Unschedule(s, t), s.timers[t].gen, s.timers[t].run)
  }

  // ---- the hook ----

  class LiveSpansHook {
    var sources: seq<Source>
    var timers: seq<Timer>
    var es: Option<nat>
    var timerRef: Option<nat>
    var delay: nat
    var generation: nat
    var spans: seq<LiveSpan>
    var conn: ConnState
    var run: string
    var mounted: bool

    ghost function State(): Hook
      reads this
    {
      Hook(sources, timers, es, timerRef, delay, generation, spans, conn, run, mounted)
    }

    constructor ()
      ensures State() == INITIAL
    {
      sources, timers, es, timerRef := [], [], None, None;
      delay, generation, spans, conn, run, mounted := BACKOFF_INIT_MS, 0, [], Connecting, "", false;
    }

    method DoClearTimer()
      requires RefsOk(State())
      modifies this
      ensures State() == ClearTimer(old(State()))
    {
      if timerRef.Some? {
        timers := timers[timerRef.value := timers[timerRef.value].(pending := false)];
        timerRef := None;
      }
    }

    method DoCloseEs()
      requires RefsOk(State())
      modifies this
      ensures State() == CloseEs(old(State()))
    {
      if es.Some? {
        sources := sources[es.value := sources[es.value].(open := false)];
        es := None;
      }
    }

    method DoConnect(gen: nat, forRun: string)
      modifies this
      ensures State() == Connect(old(State()), gen, forRun)
    {
      if gen != generation { return; }
      conn := Connecting;
      es := Some(|sources|);
      sources := sources + [Source(gen, forRun, true)];
    }

    method SetUp(runId: string)
      requires Enabled(State(), Setup(runId))
      modifies this
      ensures State() == Step(old(State()), Setup(runId))
    {
      run, mounted := runId, true;
      generation := generation + 1;
      delay := BACKOFF_INIT_MS;
      DoClearTimer();
      DoCloseEs();
      DoConnect(generation, runId);
    }

    method CleanUp()
      requires Enabled(State(), Cleanup)
      modifies this
      ensures State() == Step(old(State()), Cleanup)
    {
      mounted := false;
      generation := generation + 1;
      DoClearTimer();
      DoCloseEs();
    }

    method OnOpen(i: nat)
      requires Enabled(State(), Opened(i))
      modifies this
      ensures State() == Step(old(State()), Opened(i))
    {
      if sources[i].gen != generation {
        sources := sources[i := sources[i].(open := false)];
        return;
      }
      conn := Open;
      delay := BACKOFF_INIT_MS;
    }

    method OnMessage(i: nat, payload: Option<LiveSpan>)
      requires Enabled(State(), Message(i, payload))
      modifies this
      ensures State() == Step(old(State()), Message(i, payload))
    {
      if sources[i].gen != generation { return; }
      if payload.Some? { spans := AddSpan(spans, payload.value); }
    }

    method OnError(i: nat)
      requires Enabled(State(), Errored(i))
      modifies this
      ensures State() == Step(old(State()), Errored(i))
    {
      var gen := sources[i].gen;
      if gen != generation { return; }
      sources := sources[i := sources[i].(open := false)];
      es := None;
      conn := Disconnected;
      var wait := delay;
      delay := Doubled(wait);
      var nextGen := gen + 1;
      generation := nextGen;
      timerRef := Some(|timers|);
      timers := timers + [Timer(nextGen, sources[i].run, wait, true)];
    }

    method OnTimer(t: nat)
      requires Enabled(State(), Fires(t))
      modifies this
      ensures State() == Step(old(State()), Fires(t))
    {
      timers := timers[t := timers[t].(pending := false)];
      DoConnect(timers[t].gen, timers[t].run);
    }
  }

  // ---- runs of events ----

  predicate Possible(s: Hook, run: seq<Event>)
    decreases |run|
  {
    run == [] || (Enabled(s, run[0]) && Possible(Step(s, run[0]), run[1..]))
  }

  function After(s: Hook, run: seq<Event>): Hook
    requires Possible(s, run)
    decreases |run|
  {
    if run == [] then s else After(Step(s, run[0]), run[1..])
  }

  /** One event, handled by the hook. */
  method Handle(hook: LiveSpansHook, e: Event)
    requires Enabled(hook.State(), e)
    modifies hook
    ensures hook.State() == Step(old(hook.State()), e)
  {
    match e {
      case Setup(run) => hook.SetUp(run);
      case Cleanup => hook.CleanUp();
      case Opened(i) => hook.OnOpen(i);
      case Message(i, payload) => hook.OnMessage(i, payload);
      case Errored(i) => hook.OnError(i);
      case Fires(t) => hook.OnTimer(t);
    }
  }

  /** The hook, driven by events in any possible order, makes exactly this run and keeps the
      invariant. */
  method Drive(hook: LiveSpansHook, run: seq<Event>)
    requires Inv(hook.State()) && Possible(hook.State(), run)
    modifies hook
    ensures hook.State() == After(old(hook.State()), run) && Inv(hook.State())
  {
    for i := 0 to |run|
      invariant Inv(hook.State()) && Possible(hook.State(), run[i..])
      invariant After(hook.State(), run[i..]) == After(old(hook.State()), run)
    {
      assert run[i..][1..] == run[i + 1..];
      StepKeeps(hook.State(), run[i]);
      Handle(hook, run[i]);
    }
    assert run[|run|..] == [];
  }

  // ---- the invariant ----

  predicate DistinctSpans(spans: seq<LiveSpan>) {
    forall i, j | 0 <= i < j < |spans| :: spans[i].spanId != spans[j].spanId
  }

  /** The one open source, of this generation and run, is the one esRef holds; no other source has
      this generation. */
  predicate SourcesOk(s: Hook) {
    RefsOk(s) && (s.es.Some? ==> s.sources[s.es.value] == Source(s.generation, s.run, true)) &&
    forall i | 0 <= i < |s.sources| ::
      s.sources[i].gen <= s.generation &&
      (s.sources[i].open || s.sources[i].gen == s.generation ==> s.es == Some(i))
  }

  /** The one pending timer is the one timerRef holds, and it will connect this generation to this
      run. */
  predicate TimersOk(s: Hook) {
    RefsOk(s) &&
    forall t | 0 <= t < |s.timers| :: s.timers[t].pending ==>
      s.timerRef == Some(t) && s.timers[t].gen == s.generation && s.timers[t].run == s.run && s.es.None?
  }

  predicate TimerPending(s: Hook)
    requires RefsOk(s)
  {
    s.timerRef.Some? && s.timers[s.timerRef.value].pending
  }

  predicate Inv(s: Hook) {
    SourcesOk(s) && TimersOk(s) &&
    (s.mounted <==> s.es.Some? || TimerPending(s)) &&
    BACKOFF_INIT_MS <= s.delay <= BACKOFF_MAX_MS &&
    DistinctSpans(s.spans) &&
    (s.mounted ==> (s.conn.Disconnected? <==> s.es.None?))
  }

  lemma ConnectKeeps(s: Hook, gen: nat, run: string)
    requires SourcesOk(s) && TimersOk(s) && s.es.None? && !TimerPending(s) && s.mounted
    requires gen == s.generation && run == s.run
    requires forall i | 0 <= i < |s.sources| :: s.sources[i].gen < s.generation
    requires BACKOFF_INIT_MS <= s.delay <= BACKOFF_MAX_MS && DistinctSpans(s.spans)
    ensures Inv(Connect(s, gen, run))
  {}

  /** After a new generation starts and both refs are cleared, nothing is open or pending. */
  lemma ClearedIsQuiet(s: Hook, t: Hook)
    requires Inv(s) && RefsOk(t) && t.generation == s.generation + 1
    requires t.sources == s.sources && t.timers == s.timers && t.es == s.es && t.timerRef == s.timerRef
    ensures var q := CloseEs(ClearTimer(t));
      q == t.(sources := q.sources, timers := q.timers, es := None, timerRef := None) &&
      SourcesOk(q) && TimersOk(q) && Quiet(q) &&
      forall i | 0 <= i < |q.sources| :: q.sources[i].gen < q.generation
  {}

  /** Nothing is open and nothing will be. */
  predicate Quiet(s: Hook) {
    (forall i | 0 <= i < |s.sources| :: !s.sources[i].open) && forall t | 0 <= t < |s.timers| :: !s.timers[t].pending
  }

  lemma SetupKeeps(s: Hook, run: string)
    requires Inv(s) && !s.mounted
    ensures Inv(Step(s, Setup(run)))
  {
    var next := s.(generation := s.generation + 1, delay := BACKOFF_INIT_MS, run := run, mounted := true);
    ClearedIsQuiet(s, next);
    ConnectKeeps(CloseEs(ClearTimer(next)), s.generation + 1, run);
  }

  lemma CleanupKeeps(s: Hook)
    requires Inv(s) && s.mounted
    ensures Inv(Step(s, Cleanup)) && Quiet(Step(s, Cleanup))
  {
    ClearedIsQuiet(s, s.(generation := s.generation + 1, mounted := false));
  }

  lemma AddSpanKeeps(spans: seq<LiveSpan>, span: LiveSpan)
    requires DistinctSpans(spans)
    ensures DistinctSpans(AddSpan(spans, span)) && spans <= AddSpan(spans, span)
    ensures exists i | 0 <= i < |AddSpan(spans, span)| :: AddSpan(spans, span)[i].spanId == span.spanId
  {
    if AddSpan(spans, span) != spans { assert AddSpan(spans, span)[|spans|] == span; }
  }

  lemma FailKeeps(s: Hook, i: nat)
    requires Inv(s) && i < |s.sources| && s.sources[i].gen == s.generation
    ensures Inv(Fail(s, i))
  {}

  lemma FiresKeeps(s: Hook, t: nat)
    requires Inv(s) && Enabled(s, Fires(t))
    ensures Inv(Step(s, Fires(t)))
  {}

  lemma OpenedKeeps(s: Hook, i: nat)
    requires Inv(s) && i < |s.sources|
    ensures Inv(Step(s, Opened(i)))
  {}

  lemma StepKeeps(s: Hook, e: Event)
    requires Inv(s) && Enabled(s, e)
    ensures Inv(Step(s, e))
  {
    match e
    case Setup(run) => SetupKeeps(s, run);
    case Cleanup => CleanupKeeps(s);
    case Opened(i) => OpenedKeeps(s, i);
    case Message(_, payload) => if payload.Some? { AddSpanKeeps(s.spans, payload.value); }
    case Errored(i) => if s.sources[i].gen == s.generation { FailKeeps(s, i); }
    case Fires(t) => FiresKeeps(s, t);
  }

  lemma {:induction false} RunKeeps(s: Hook, run: seq<Event>)
    requires Inv(s) && Possible(s, run)
    ensures Inv(After(s, run))
    decreases |run|
  {
    if run != [] {
      StepKeeps(s, run[0]);
      RunKeeps(Step(s, run[0]), run[1..]);
    }
  }

  // ---- what it means ----

  function OpenSources(s: Hook): set<nat> { set i: nat | i < |s.sources| && s.sources[i].open }

  function PendingTimers(s: Hook): set<nat> { set t: nat | t < |s.timers| && s.timers[t].pending }

  /** In every reachable state: while mounted there is exactly one of an open source, the current one
      for the current run, and a pending timer, which will connect to that run; otherwise nothing. */
  lemma ReachableStates(run: seq<Event>)
    requires Possible(INITIAL, run)
    ensures var s := After(INITIAL, run);
      (!s.mounted ==> OpenSources(s) == {} && PendingTimers(s) == {}) &&
      (s.mounted ==> |OpenSources(s)| + |PendingTimers(s)| == 1) &&
      (forall i | i in OpenSources(s) :: s.es == Some(i) && s.sources[i].gen == s.generation &&
        s.sources[i].run == s.run) &&
      (forall t | t in PendingTimers(s) :: s.timers[t].gen == s.generation && s.timers[t].run == s.run) &&
      BACKOFF_INIT_MS <= s.delay <= BACKOFF_MAX_MS && DistinctSpans(s.spans)
  {
    RunKeeps(INITIAL, run);
    var s := After(INITIAL, run);
    if s.es.Some? {
      assert OpenSources(s) == {s.es.value} && PendingTimers(s) == {};
    } else {
      assert OpenSources(s) == {};
      if TimerPending(s) {
        assert PendingTimers(s) == {s.timerRef.value};
      } else {
        assert PendingTimers(s) == {};
      }
    }
  }

  function SourceOf(e: Event): Option<nat> {
    match e
    case Opened(i) => Some(i)
    case Message(i, _) => Some(i)
    case Errored(i) => Some(i)
    case _ => None
  }

  /** In a reachable state an event of a source of an older generation changes nothing. */
  lemma StaleEventsChangeNothing(s: Hook, e: Event)
    requires Inv(s) && Enabled(s, e) && SourceOf(e).Some? && s.sources[SourceOf(e).value].gen != s.generation
    ensures Step(s, e) == s
  {}

  // ---- backoff ----

  /** 1 s, 2 s, 4 s, 8 s, 16 s, then 30 s. */
  function Backoff(failures: nat): nat {
    if failures == 0 then BACKOFF_INIT_MS else Doubled(Backoff(failures - 1))
  }

  lemma {:induction false} BackoffIsExponential(n: nat)
    ensures Backoff(n) == if 1_000 * Pow2(n) < 30_000 then 1_000 * Pow2(n) else 30_000
  {
    if n > 0 { BackoffIsExponential(n - 1); }
  }

  lemma AfterCons(s: Hook, e: Event, t: Hook, rest: seq<Event>)
    requires Enabled(s, e) && t == Step(s, e) && Possible(t, rest)
    ensures Possible(s, [e] + rest) && After(s, [e] + rest) == After(t, rest)
  {}

  lemma TwoSteps(s: Hook, e: Event, t: Hook, f: Event)
    requires Enabled(s, e) && t == Step(s, e) && Enabled(t, f)
    ensures Possible(s, [e, f]) && After(s, [e, f]) == Step(t, f)
  {
    AfterCons(t, f, Step(t, f), []);
    AfterCons(s, e, t, [f]);
    assert [e] + [f] == [e, f] && [f] + [] == [f];
  }

  /** The newest source is the current one and the attempt after k failures is under way. */
  predicate Attempting(s: Hook, k: nat) {
    Inv(s) && s.mounted && s.es.Some? && s.es.value == |s.sources| - 1 && s.delay == Backoff(k)
  }

  /** One failed attempt and the timer that ends its wait. */
  function Round(s: Hook): Hook
    requires RefsOk(s) && s.sources != []
  {
    var failed := Step(s, Errored(|s.sources| - 1));
    if Enabled(failed, Fires(|s.timers|)) then Step(failed, Fires(|s.timers|)) else failed
  }

  lemma RoundTries(s: Hook, k: nat)
    requires Attempting(s, k)
    ensures var t := Round(s);
      Enabled(Step(s, Errored(|s.sources| - 1)), Fires(|s.timers|)) &&
      Attempting(t, k + 1) && t.run == s.run && t.spans == s.spans &&
      t.timers == s.timers + [Timer(s.generation + 1, s.run, Backoff(k), false)]
  {
    var failed := Step(s, Errored(|s.sources| - 1));
    StepKeeps(s, Errored(|s.sources| - 1));
    StepKeeps(failed, Fires(|s.timers|));
  }

  /** After n failures since s another attempt is under way, for the same run and with the same spans,
      and the k-th failure was waited out with Backoff(k). */
  predicate Waited(s: Hook, t: Hook, n: nat) {
    Attempting(t, n) && t.run == s.run && t.spans == s.spans && |t.timers| == |s.timers| + n &&
    forall k | |s.timers| <= k < |t.timers| :: t.timers[k].delay == Backoff(k - |s.timers|)
  }

  lemma RoundWaits(s: Hook, t: Hook, n: nat)
    requires Waited(s, t, n)
    ensures Waited(s, Round(t), n + 1)
  {
    var u := Round(t);
    RoundTries(t, n);
    forall k | |s.timers| <= k < |u.timers| ensures u.timers[k].delay == Backoff(k - |s.timers|) {
      if k < |t.timers| { assert u.timers[k] == t.timers[k]; }
    }
  }

  /** The state after an outage of n failed attempts: the hook keeps trying however long it lasts. */
  ghost function Outage(s: Hook, n: nat): (t: Hook)
    requires Attempting(s, 0)
    ensures Waited(s, t, n)
  {
    if n == 0 then s
    else
      var t := Outage(s, n - 1);
      RoundWaits(s, t, n - 1);
      Round(t)
  }

  // ---- spans ----

  /** A readable frame of a current source, and the run it was for. */
  datatype Frame = Frame(run: string, span: LiveSpan)

  function FrameAt(s: Hook, e: Event): seq<Frame>
    requires Enabled(s, e)
  {
    if e.Message? && s.sources[e.source].gen == s.generation && e.payload.Some?
    then [Frame(s.sources[e.source].run, e.payload.value)] else []
  }

  /** All such frames of a run of events, in order. */
  function Frames(s: Hook, run: seq<Event>): seq<Frame>
    requires Possible(s, run)
    decreases |run|
  {
    if run == [] then [] else FrameAt(s, run[0]) + Frames(Step(s, run[0]), run[1..])
  }

  predicate Listed(frames: seq<Frame>, id: Option<string>) {
    exists i | 0 <= i < |frames| :: frames[i].span.spanId == id
  }

  /** The first frame of each span id, in order. */
  function FirstOfEach(frames: seq<Frame>): seq<Frame> {
    if frames == [] then []
    else
      var n := |frames| - 1;
      FirstOfEach(frames[..n]) + if Listed(frames[..n], frames[n].span.spanId) then [] else [frames[n]]
  }

  function SpansOf(frames: seq<Frame>): (r: seq<LiveSpan>)
    ensures |r| == |frames| && forall i | 0 <= i < |r| :: r[i] == frames[i].span
  {
    seq(|frames|, i requires 0 <= i < |frames| => frames[i].span)
  }

  lemma {:induction false} FirstsListed(frames: seq<Frame>, id: Option<string>)
    ensures Listed(FirstOfEach(frames), id) <==> Listed(frames, id)
  {
    if frames != [] {
      var n := |frames| - 1;
      FirstsListed(frames[..n], id);
      ListedSnoc(frames[..n], frames[n], id);
      ListedSnoc(FirstOfEach(frames[..n]), frames[n], id);
      assert frames == frames[..n] + [frames[n]];
      assert FirstOfEach(frames[..n]) + [] == FirstOfEach(frames[..n]);
    }
  }

  lemma ListedSnoc(frames: seq<Frame>, f: Frame, id: Option<string>)
    ensures Listed(frames + [f], id) <==> Listed(frames, id) || f.span.spanId == id
  {
    var more := frames + [f];
    assert more[|frames|] == f;
    if Listed(frames, id) {
      var i :| 0 <= i < |frames| && frames[i].span.spanId == id;
      assert more[i].span.spanId == id;
    }
  }

  /** Hearing one more frame adds its span just when the frame is the first of its id. */
  lemma HearOne(past: seq<Frame>, f: Frame)
    ensures SpansOf(FirstOfEach(past + [f])) == AddSpan(SpansOf(FirstOfEach(past)), f.span)
  {
    var all, kept := past + [f], FirstOfEach(past);
    assert all[..|past|] == past;
    FirstsListed(past, f.span.spanId);
    assert SpansOf(kept + [f]) == SpansOf(kept) + [f.span];
    if Listed(kept, f.span.spanId) {
      var i :| 0 <= i < |kept| && kept[i].span.spanId == f.span.spanId;
      assert SpansOf(kept)[i].spanId == f.span.spanId;
    }
  }

  lemma StepSpans(s: Hook, e: Event)
    requires Enabled(s, e)
    ensures |FrameAt(s, e)| <= 1
    ensures Step(s, e).spans == if FrameAt(s, e) == [] then s.spans else AddSpan(s.spans, FrameAt(s, e)[0].span)
  {}

  lemma {:induction false} HearFrames(past: seq<Frame>, frames: seq<Frame>, spans: seq<LiveSpan>, after: seq<LiveSpan>)
    requires spans == SpansOf(FirstOfEach(past)) && |frames| <= 1
    requires after == if frames == [] then spans else AddSpan(spans, frames[0].span)
    ensures after == SpansOf(FirstOfEach(past + frames))
  {
    if frames == [] {
      assert past + frames == past;
    } else {
      HearOne(past, frames[0]);
      assert past + frames == past + [frames[0]];
    }
  }

  lemma {:induction false} RunHears(s: Hook, run: seq<Event>, past: seq<Frame>)
    requires Possible(s, run) && s.spans == SpansOf(FirstOfEach(past))
    ensures After(s, run).spans == SpansOf(FirstOfEach(past + Frames(s, run)))
    decreases |run|, 0
  {
    if run == [] {
      assert past + [] == past;
    } else {
      StepSpans(s, run[0]);
      HearFrames(past, FrameAt(s, run[0]), s.spans, Step(s, run[0]).spans);
      HearRest(Step(s, run[0]), run[1..], past, FrameAt(s, run[0]));
    }
  }

  lemma {:induction false} HearRest(t: Hook, rest: seq<Event>, past: seq<Frame>, frames: seq<Frame>)
    requires Possible(t, rest) && t.spans == SpansOf(FirstOfEach(past + frames))
    ensures After(t, rest).spans == SpansOf(FirstOfEach(past + (frames + Frames(t, rest))))
    decreases |rest|, 1
  {
    RunHears(t, rest, past + frames);
    assert past + (frames + Frames(t, rest)) == past + frames + Frames(t, rest);
  }

  /** After any run of events the list is what current sources ever sent, the first frame of each
      span id, in order, whichever run it was for. */
  lemma SpansAreFirstFrames(run: seq<Event>)
    requires Possible(INITIAL, run)
    ensures After(INITIAL, run).spans == SpansOf(FirstOfEach(Frames(INITIAL, run)))
  {
    RunHears(INITIAL, run, []);
    assert [] + Frames(INITIAL, run) == Frames(INITIAL, run);
  }

  lemma {:induction false} FirstsAreFrames(frames: seq<Frame>)
    ensures forall f | f in FirstOfEach(frames) :: f in frames
  {
    if frames != [] { FirstsAreFrames(frames[..|frames| - 1]); }
  }

  /** The stream of a run sends that run's spans: owner says which run a span id belongs to. */
  predicate SentByOwner(frames: seq<Frame>, owner: Option<string> -> string) {
    forall k | 0 <= k < |frames| :: owner(frames[k].span.spanId) == frames[k].run
  }

  /** Every listed span belongs to the run followed now. */
  predicate ShowsCurrentRun(s: Hook, owner: Option<string> -> string) {
    forall i | 0 <= i < |s.spans| :: owner(s.spans[i].spanId) == s.run
  }

  predicate AllFor(frames: seq<Frame>, run: string) { forall k | 0 <= k < |frames| :: frames[k].run == run }

  /** The list shows only spans of the current run if and only if no readable frame was ever received
      while another run was followed. */
  lemma ShowsCurrentRunExactly(run: seq<Event>, owner: Option<string> -> string)
    requires Possible(INITIAL, run) && SentByOwner(Frames(INITIAL, run), owner)
    ensures var s := After(INITIAL, run); ShowsCurrentRun(s, owner) <==> AllFor(Frames(INITIAL, run), s.run)
  {
    var s, frames := After(INITIAL, run), Frames(INITIAL, run);
    var kept := FirstOfEach(frames);
    SpansAreFirstFrames(run);
    FirstsAreFrames(frames);
    forall i | 0 <= i < |s.spans| ensures owner(s.spans[i].spanId) == kept[i].run { assert kept[i] in frames; }
    if ShowsCurrentRun(s, owner) {
      forall k | 0 <= k < |frames| ensures frames[k].run == s.run {
        FirstsListed(frames, frames[k].span.spanId);
        var i :| 0 <= i < |kept| && kept[i].span.spanId == frames[k].span.spanId;
        assert s.spans[i].spanId == frames[k].span.spanId;
      }
    }
    if AllFor(frames, s.run) {
      forall i | 0 <= i < |s.spans| ensures owner(s.spans[i].spanId) == s.run { assert kept[i] in frames; }
    }
  }

  /** Every set-up of these events is for this run. */
  predicate OnlyFollows(events: seq<Event>, run: string) {
    forall i | 0 <= i < |events| :: events[i].Setup? ==> events[i].run == run
  }

  lemma {:induction false} OneRunFrames(s: Hook, events: seq<Event>, run: string)
    requires Inv(s) && Possible(s, events) && OnlyFollows(events, run) && (s.mounted ==> s.run == run)
    ensures AllFor(Frames(s, events), run)
    decreases |events|
  {
    if events != [] {
      var t := Step(s, events[0]);
      StepKeeps(s, events[0]);
      OneRunFrames(t, events[1..], run);
    }
  }

  /** So a hook that has only ever followed one run lists only its spans. */
  lemma OneRunShowsItself(events: seq<Event>, run: string, owner: Option<string> -> string)
    requires Possible(INITIAL, events) && OnlyFollows(events, run) && After(INITIAL, events).run == run
    requires SentByOwner(Frames(INITIAL, events), owner)
    ensures ShowsCurrentRun(After(INITIAL, events), owner)
  {
    OneRunFrames(INITIAL, events, run);
    ShowsCurrentRunExactly(events, owner);
  }

  /** A span stays through a run change: the hook never clears the list it accumulates. */
  lemma SpansOutliveTheRun(a: string, b: string, span: LiveSpan)
    requires a != b
    ensures var run := [Setup(a), Message(0, Some(span)), Cleanup, Setup(b)];
      Possible(INITIAL, run) && After(INITIAL, run).run == b && After(INITIAL, run).spans == [span]
  {
    var s1 := Step(INITIAL, Setup(a));
    var s2 := Step(s1, Message(0, Some(span)));
    TwoSteps(s2, Cleanup, Step(s2, Cleanup), Setup(b));
    AfterCons(s1, Message(0, Some(span)), s2, [Cleanup, Setup(b)]);
    AfterCons(INITIAL, Setup(a), s1, [Message(0, Some(span)), Cleanup, Setup(b)]);
    assert [Message(0, Some(span))] + [Cleanup, Setup(b)] == [Message(0, Some(span)), Cleanup, Setup(b)];
    assert [Setup(a)] + [Message(0, Some(span)), Cleanup, Setup(b)] ==
      [Setup(a), Message(0, Some(span)), Cleanup, Setup(b)];
  }
}
