/** The replay shim: serving a cassette in pure and in hybrid mode, the served ledger, and the
    cassette a hybrid run writes. Step is what one intercepted call does; ReplayShim does it. */
module Replay {
  import opened Common
  import opened Json
  import opened JsonText
  import opened Canonical
  import opened Runs
  import opened Fixture
  import opened Cassettes
  import Inference

  datatype Mode = Pure | Hybrid

  /** guard is empty when irreversible tools are allowed; hybridSlug names the cassette a hybrid
      run writes. */
  datatype Config = Config(sha: Sha, dir: Path, slug: string, hybridSlug: string, mode: Mode, guard: set<string>)

  /** One intercepted request with what the outside world would supply: the parsed request, the
      provider's parsed reply to a live call, its token counts, and two clock readings. */
  datatype Call = Call(
    openai: bool,
    request: Option<Value>,
    reply: Option<Value>,
    inputTokens: int,
    outputTokens: int,
    startedAt: int,
    endedAt: int)

  datatype State = State(
    cursors: Cursors,
    served: seq<Served>,
    live: seq<Served>,
    callIndex: nat,
    misses: nat,
    written: bool,
    servedFile: Option<seq<Served>>,
    files: Files)

  datatype Outcome =
    | Forwarded
    | Answered(text: string)
    | WentLive(reply: Value)
    | Exited(code: nat)
    | Crashed

  // ---- the irreversible-tool guard ----

  datatype Verdict = Allowed | Refused | GuardCrashed

  function GetOr(fields: seq<Field>, key: string, default: Value): Value {
    match Get(fields, key) case Some(v) => v case None => default
  }

  /** The name the guard reads off a tool: its function's name, else its own. None when reading
      it raises. */
  function ToolName(tool: Value): Option<Value> {
    if !tool.Object? then None
    else
      var f := GetOr(tool.fields, "function", Null);
      if !Falsy(f) && !f.Object? then None
      else
        var name := if Falsy(f) then Null else GetOr(f.fields, "name", Null);
        if !Falsy(name) then Some(name) else Some(GetOr(tool.fields, "name", String("")))
  }

  function CheckTool(tool: Value, guard: set<string>): Verdict {
    match ToolName(tool)
    case None => GuardCrashed
    case Some(String(name)) => if name in guard then Refused else Allowed
    case Some(Array(_)) => GuardCrashed
    case Some(Object(_)) => GuardCrashed
    case Some(_) => Allowed
  }

  /** The first tool that is not allowed decides. */
  function CheckTools(tools: seq<Value>, guard: set<string>): Verdict {
    if tools == [] then Allowed
    else if CheckTool(tools[0], guard) != Allowed then CheckTool(tools[0], guard)
    else CheckTools(tools[1..], guard)
  }

  function CheckRequest(request: seq<Field>, guard: set<string>): Verdict {
    if guard == {} then Allowed
    else match GetOr(request, "tools", Array([]))
      case Array(tools) => CheckTools(tools, guard)
      case Object(fields) => if fields == [] then Allowed else GuardCrashed
      case String(text) => if text == "" then Allowed else GuardCrashed
      case _ => GuardCrashed
  }

  /** Some tool of the request bears a guarded name. */
  ghost predicate NamesGuarded(request: Value, guard: set<string>) {
    request.Object? && GetOr(request.fields, "tools", Array([])).Array? &&
    exists tool | tool in GetOr(request.fields, "tools", Array([])).items ::
      ToolName(tool).Some? && ToolName(tool).value.String? && ToolName(tool).value.text in guard
  }

  lemma {:induction false} AllowedNamesNone(tools: seq<Value>, guard: set<string>)
    requires CheckTools(tools, guard) == Allowed
    ensures forall tool | tool in tools :: CheckTool(tool, guard) == Allowed
  {
    if tools != [] { AllowedNamesNone(tools[1..], guard); }
  }

  /** A request the guard allows names no guarded tool. */
  lemma GuardIsTight(request: Value, guard: set<string>)
    requires request.Object? && CheckRequest(request.fields, guard) == Allowed
    ensures !NamesGuarded(request, guard)
  {
    if guard != {} && GetOr(request.fields, "tools", Array([])).Array? {
      AllowedNamesNone(GetOr(request.fields, "tools", Array([])).items, guard);
    }
  }

  // ---- one call ----

  function ModelOf(request: seq<Field>, default: string): string {
    match Get(request, "model") case None => default case Some(String(text)) => text case Some(_) => ""
  }

  function OrEmpty(v: Value): Value { if Falsy(v) then Object([]) else v }

  function HitEntry(s: State, key: string, e: Entry, request: Value, body: Value, c: Call): Served
    requires request.Object?
  {
    Served(s.callIndex, key, Some(e.index), FromCassette, e.operation, ModelOf(request.fields, e.model),
           e.inputTokens, e.outputTokens, c.startedAt, c.endedAt, 0, 0.0, request, body)
  }

  function LiveEntry(s: State, key: string, request: Value, reply: Value, c: Call): Served
    requires request.Object?
  {
    var model := ModelOf(request.fields, "");
    Served(s.callIndex, key, None, FromLive, "chat", model, c.inputTokens, c.outputTokens, c.startedAt, c.endedAt,
           c.endedAt - c.startedAt, Inference.SpanCost(c.inputTokens, c.outputTokens, model), request, reply)
  }

  /** The ledger as the observations of the cassette a hybrid run writes. */
  function AsObservation(e: Served): Observation {
    Observation(SpanId(e.callIndex), None, e.operation, e.model, "openai", "ok", e.startedAt, e.endedAt, e.duration,
                e.inputTokens, e.outputTokens, e.inputBody, e.outputBody)
  }

  function AsObservations(served: seq<Served>): seq<Observation> {
    seq(|served|, i requires 0 <= i < |served| => AsObservation(served[i]))
  }

  function HybridFiles(cfg: Config, s: State): Files {
    Written(s.files, cfg.sha, cfg.hybridSlug, AsObservations(s.served), cfg.dir, cfg.slug + " (hybrid)")
  }

  /** _write_served: only the first call writes, and only a run with live calls writes a cassette. */
  function Flush(cfg: Config, s: State): State {
    if s.written then s
    else
      var files := if s.live != [] then HybridFiles(cfg, s) else s.files;
      s.(written := true, servedFile := Some(s.served), files := files)
  }

  function Append(s: State, e: Served): State {
    var live := if e.source == FromLive then s.live + [e] else s.live;
    s.(served := s.served + [e], callIndex := s.callIndex + 1, live := live)
  }

  /** Serving observation e. */
  function Hit(cfg: Config, s: State, key: string, e: Entry, request: Value, c: Call): (State, Outcome) {
    match LoadBody(s.files, cfg.dir, cfg.slug, e.outputRef)
    case Raised => (s, Crashed)
    case Loaded(v) =>
      if !request.Object? then (s, Crashed)
      else (Append(s, HitEntry(s, key, e, request, OrEmpty(v), c)), Answered(Print(OrEmpty(v), Spaced, 0)))
  }

  /** A miss ends a pure run; in a hybrid run the guard may end it, else the call goes live. */
  function Miss(cfg: Config, s: State, key: string, request: Value, c: Call): (State, Outcome) {
    if cfg.mode == Pure then (Flush(cfg, s.(misses := s.misses + 1)), Exited(78))
    else if !request.Object? then (s, Crashed)
    else match CheckRequest(request.fields, cfg.guard)
      case Refused => (Flush(cfg, s.(misses := s.misses + 1)), Exited(79))
      case GuardCrashed => (s, Crashed)
      case Allowed =>
        var reply := if c.reply.Some? then c.reply.value else Object([]);
        if !UsageReadable(reply) then (s, Crashed)
        else (Append(s, LiveEntry(s, key, request, reply, c)), WentLive(reply))
  }

  /** _replay_send. */
  function Step(cfg: Config, obs: seq<Entry>, s: State, c: Call): (State, Outcome) {
    if !c.openai || c.request.None? || c.request.value.Null? then (s, Forwarded)
    else
      var request := c.request.value;
      var key := CanonicalHash(cfg.sha, request);
      var s' := s.(cursors := CursorsAfter(obs, s.cursors, key));
      match Fetch(obs, LookupResult(obs, s.cursors, key))
      case Found(e) => Hit(cfg, s', key, e, request, c)
      case NotFound => Miss(cfg, s', key, request, c)
      case BadIndex => (s', Crashed)
  }

  // ---- the shim ----

  class ReplayShim {
    const cfg: Config
    const cassette: Cassette
    const disk: Disk
    var served: seq<Served>
    var live: seq<Served>
    var callIndex: nat
    var misses: nat
    var written: bool
    var servedFile: Option<seq<Served>>

    ghost predicate Valid()
      reads this, cassette
    {
      cassette.Valid() && cassette.dir == cfg.dir && cassette.slug == cfg.slug
    }

    function View(): State
      reads this, cassette, disk
    {
      State(cassette.cursors, served, live, callIndex, misses, written, servedFile, disk.files)
    }

    constructor (cfg: Config, cassette: Cassette, disk: Disk)
      requires cassette.Valid()
      requires cassette.dir == cfg.dir && cassette.slug == cfg.slug
      ensures Valid() && this.cfg == cfg && this.cassette == cassette && this.disk == disk
      ensures View() == State(cassette.cursors, [], [], 0, 0, false, None, disk.files)
    {
      this.cfg, this.cassette, this.disk := cfg, cassette, disk;
      served, live, callIndex, misses, written, servedFile := [], [], 0, 0, false, None;
    }

    /** _write_served. */
    method WriteServed()
      modifies this, disk
      ensures View() == Flush(cfg, old(View()))
    {
      if written { return; }
      written := true;
      servedFile := Some(served);
      if live != [] {
        var _, _ := WriteFixture(disk, cfg.sha, cfg.hybridSlug, AsObservations(served), cfg.dir,
          cfg.slug + " (hybrid)");
      }
    }

    /** The guard's loop over the tools of a request. */
    method Guard(tools: seq<Value>) returns (v: Verdict)
      ensures v == CheckTools(tools, cfg.guard)
    {
      for i := 0 to |tools|
        invariant CheckTools(tools, cfg.guard) == CheckTools(tools[i..], cfg.guard)
      {
        assert tools[i..][1..] == tools[i + 1..];
        v := CheckTool(tools[i], cfg.guard);
        if v != Allowed { return; }
      }
      assert tools[|tools|..] == [];
      v := Allowed;
    }

    method CheckIrreversible(request: seq<Field>) returns (v: Verdict)
      ensures v == CheckRequest(request, cfg.guard)
    {
      if cfg.guard == {} { return Allowed; }
      var tools := GetOr(request, "tools", Array([]));
      match tools {
        case Array(items) => v := Guard(items);
        case Object(fields) => v := if fields == [] then Allowed else GuardCrashed;
        case String(text) => v := if text == "" then Allowed else GuardCrashed;
        case _ => v := GuardCrashed;
      }
    }

    method ServeHit(key: string, e: Entry, request: Value, c: Call) returns (r: Outcome)
      requires Valid()
      modifies this`served, this`callIndex
      ensures View() == Hit(cfg, old(View()), key, e, request, c).0 && r == Hit(cfg, old(View()), key, e, request, c).1
    {
      var loaded := cassette.Load(disk, e.outputRef);
      if loaded.Raised? { return Crashed; }
      var body := if Falsy(loaded.value) then Object([]) else loaded.value;
      if !request.Object? { return Crashed; }
      var entry := Served(callIndex, key, Some(e.index), FromCassette, e.operation, ModelOf(request.fields, e.model),
                          e.inputTokens, e.outputTokens, c.startedAt, c.endedAt, 0, 0.0, request, body);
      served := served + [entry];
      callIndex := callIndex + 1;
      return Answered(Print(body, Spaced, 0));
    }

    method CallLive(key: string, request: Value, c: Call) returns (r: Outcome)
      requires Valid() && cfg.mode == Hybrid
      modifies this, disk
      ensures View() == Miss(cfg, old(View()), key, request, c).0 && r == Miss(cfg, old(View()), key, request, c).1
    {
      if !request.Object? { return Crashed; }
      var verdict := CheckIrreversible(request.fields);
      if verdict == Refused {
        misses := misses + 1;
        WriteServed();
        return Exited(79);
      }
      if verdict == GuardCrashed { return Crashed; }
      r := RecordLive(key, request, c);
    }

    /** A live call that the guard let through, and its ledger entry. */
    method RecordLive(key: string, request: Value, c: Call) returns (r: Outcome)
      requires request.Object?
      modifies this`served, this`live, this`callIndex
      ensures var reply := if c.reply.Some? then c.reply.value else Object([]);
        if UsageReadable(reply) then
          View() == Append(old(View()), LiveEntry(old(View()), key, request, reply, c)) && r == WentLive(reply)
        else View() == old(View()) && r == Crashed
    {
      var reply := if c.reply.Some? then c.reply.value else Object([]);
      if !UsageReadable(reply) { return Crashed; }
      var model := ModelOf(request.fields, "");
      var cost := Inference.SpanCost(c.inputTokens, c.outputTokens, model);
      var entry := Served(callIndex, key, None, FromLive, "chat", model, c.inputTokens, c.outputTokens,
                          c.startedAt, c.endedAt, c.endedAt - c.startedAt, cost, request, reply);
      served := served + [entry];
      live := live + [entry];
      callIndex := callIndex + 1;
      return WentLive(reply);
    }

    method ServeMiss(key: string, request: Value, c: Call) returns (r: Outcome)
      requires Valid()
      modifies this, disk
      ensures View() == Miss(cfg, old(View()), key, request, c).0 && r == Miss(cfg, old(View()), key, request, c).1
    {
      if cfg.mode == Pure {
        misses := misses + 1;
        WriteServed();
        r := Exited(78);
      } else {
        r := CallLive(key, request, c);
      }
    }

    /** _replay_send. */
    method Send(c: Call) returns (r: Outcome)
      requires Valid()
      modifies this, cassette, disk
      ensures Valid()
      ensures View() == Step(cfg, cassette.observations, old(View()), c).0
      ensures r == Step(cfg, cassette.observations, old(View()), c).1
    {
      if !c.openai || c.request.None? || c.request.value.Null? { return Forwarded; }
      var request := c.request.value;
      var key := CanonicalHash(cfg.sha, request);
      var found := cassette.Lookup(key);
      assert View() == old(View()).(cursors := cassette.cursors);
      if found.BadIndex? { return Crashed; }
      if found.Found? {
        r := ServeHit(key, found.entry, request, c);
      } else {
        r := ServeMiss(key, request, c);
      }
    }
  }
}
