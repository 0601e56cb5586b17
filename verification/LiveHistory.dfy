/** The live-span hook over any run of events, told from the events: what it follows, what it shows, and how
    long it waits. */
module LiveHistory {
  import opened Common
  import opened LiveSpans

  /** The run last set up and whether it still is; the failures since that set-up or since a connection last
      opened; and whether the connection of now has opened. */
  datatype History = History(mounted: bool, run: string, failures: nat, connected: bool)

  const NOTHING := History(false, "", 0, false)

  /** What one event adds. Only the source that esRef holds counts. */
  function Add(h: History, s: Hook, e: Event): History {
    match e
    case Setup(run) => History(true, run, 0, false)
    case Cleanup => h.(mounted := false)
    case Opened(i) => if s.es == Some(i) then h.(failures := 0, connected := true) else h
    case Errored(i) => if s.es == Some(i) then h.(failures := h.failures + 1, connected := false) else h
    case Message(_, _) => h
    case Fires(_) => h.(connected := false)
  }

  function HistoryFrom(h: History, s: Hook, run: seq<Event>): History
    requires Possible(s, run)
    decreases |run|
  {
    if run == [] then h else HistoryFrom(Add(h, s, run[0]), Step(s, run[0]), run[1..])
  }

  /** The history of a run of events from the start. */
  function HistoryOf(run: seq<Event>): History
    requires Possible(INITIAL, run)
  {
    HistoryFrom(NOTHING, INITIAL, run)
  }

  /** What the hook shows for this history, and how long it will wait next. */
  predicate Reflects(s: Hook, h: History) {
    s.mounted == h.mounted && s.run == h.run && s.delay == Backoff(h.failures) &&
    (s.mounted ==> s.conn == if s.es.None? then Disconnected else if h.connected then Open else Connecting)
  }

  lemma CurrentSource(s: Hook, i: nat)
    requires Inv(s) && i < |s.sources|
    ensures s.sources[i].gen == s.generation <==> s.es == Some(i)
  {}

  lemma AddReflects(s: Hook, h: History, e: Event)
    requires Inv(s) && Enabled(s, e) && Reflects(s, h)
    ensures Reflects(Step(s, e), Add(h, s, e))
  {
    if SourceOf(e).Some? { CurrentSource(s, SourceOf(e).value); }
  }

  lemma {:induction false} RunReflects(s: Hook, h: History, run: seq<Event>)
    requires Inv(s) && Possible(s, run) && Reflects(s, h)
    ensures Inv(After(s, run)) && Reflects(After(s, run), HistoryFrom(h, s, run))
    decreases |run|
  {
    if run != [] {
      StepKeeps(s, run[0]);
      AddReflects(s, h, run[0]);
      RunReflects(Step(s, run[0]), Add(h, s, run[0]), run[1..]);
    }
  }

  /** After any run of events the hook follows the run last set up, shows whether its connection has opened, and
      would wait as long as the failures since the last opening or set-up ask for. */
  lemma ReflectsItsHistory(run: seq<Event>)
    requires Possible(INITIAL, run)
    ensures Reflects(After(INITIAL, run), HistoryOf(run))
  {
    RunReflects(INITIAL, NOTHING, run);
  }

  /** The wait that a failure schedules: the backoff of the failures before it, for the run followed then. The failed
      source is closed, and nothing else in the hook's lists changes. */
  lemma FailureWaits(run: seq<Event>, i: nat)
    requires Possible(INITIAL, run) && After(INITIAL, run).es == Some(i)
    ensures var s, h := After(INITIAL, run), HistoryOf(run);
      Enabled(s, Errored(i)) &&
      var t := Step(s, Errored(i));
      t.timers == s.timers + [Timer(t.generation, h.run, Backoff(h.failures), true)] && t.es == None &&
      t.timerRef == Some(|s.timers|) && t.sources == s.sources[i := s.sources[i].(open := false)] && t.spans == s.spans
  {
    RunReflects(INITIAL, NOTHING, run);
    CurrentSource(After(INITIAL, run), i);
  }

  /** A failure after an opening waits one second again. */
  lemma OpeningResetsTheWait(run: seq<Event>, i: nat)
    requires Possible(INITIAL, run) && After(INITIAL, run).es == Some(i)
    ensures var s := After(INITIAL, run);
      Enabled(s, Opened(i)) && Enabled(Step(s, Opened(i)), Errored(i)) &&
      var t := Step(Step(s, Opened(i)), Errored(i));
      t.timers == s.timers + [Timer(t.generation, s.run, 1_000, true)]
  {
    RunReflects(INITIAL, NOTHING, run);
    CurrentSource(After(INITIAL, run), i);
  }
}
