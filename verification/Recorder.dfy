/** The recorder: what one captured call becomes. */
module Recorders {
  import opened Common
  import opened Json
  import opened Runs

  /** One captured HTTP exchange: the parsed request, the parsed reply (Null when there was none),
      two clock readings and the token counts read from the reply's usage. */
  datatype Exchange = Exchange(
    request: Value, reply: Value, startedAt: int, endedAt: int, inputTokens: int, outputTokens: int)

  /** An exchange the recorder can read: its lookups raise on any other. */
  predicate Readable(x: Exchange) { x.request.Object? && (Falsy(x.reply) || UsageReadable(x.reply)) }

  function StatusOf(reply: Value): string {
    if reply.Object? && reply.fields != [] && Get(reply.fields, "error").None? then "ok" else "error"
  }

  function RequestModel(request: Value): string
    requires request.Object?
  {
    match Get(request.fields, "model") case Some(String(text)) => text case _ => ""
  }

  function Observed(i: nat, x: Exchange): Observation
    requires x.request.Object?
  {
    Observation(SpanId(i), None, "chat", RequestModel(x.request), "openai", StatusOf(x.reply), x.startedAt, x.endedAt,
                x.endedAt - x.startedAt, x.inputTokens, x.outputTokens, x.request, x.reply)
  }

  function ObservedAll(xs: seq<Exchange>): seq<Observation>
    requires forall i | 0 <= i < |xs| :: Readable(xs[i])
  {
    seq(|xs|, i requires 0 <= i < |xs| && Readable(xs[i]) => Observed(i, xs[i]))
  }

  /** The exchanges of a run that are recorded. */
  function Kept(xs: seq<Exchange>): (r: seq<Exchange>)
    ensures forall i | 0 <= i < |r| :: Readable(r[i])
  {
    if xs == [] then []
    else
      var n := |xs| - 1;
      Kept(xs[..n]) + if Readable(xs[n]) then [xs[n]] else []
  }

  lemma {:induction false} ReadableAreKept(xs: seq<Exchange>)
    requires forall i | 0 <= i < |xs| :: Readable(xs[i])
    ensures Kept(xs) == xs
  {
    if xs != [] { ReadableAreKept(xs[..|xs| - 1]); }
  }

  /** The span ids are the call numbers. */
  ghost predicate Numbered(obs: seq<Observation>) {
    forall i | 0 <= i < |obs| :: obs[i].spanId == SpanId(i)
  }

  lemma NumberedSnoc(obs: seq<Observation>, o: Observation)
    requires Numbered(obs) && o.spanId == SpanId(|obs|)
    ensures Numbered(obs + [o])
  {}

  lemma StatusAgrees(reply: Value)
    requires Falsy(reply) || reply.Object?
    ensures StatusOf(reply) == if !Falsy(reply) && Get(reply.fields, "error").None? then "ok" else "error"
  {}

  /** What the recorder reads from an exchange, unless one of its lookups raises. */
  method Read(x: Exchange, callIndex: nat) returns (o: Option<Observation>)
    ensures o == if Readable(x) then Some(Observed(callIndex, x)) else None
  {
    if !x.request.Object? { return None; }
    var body := if Falsy(x.reply) then Object([]) else x.reply;
    if !body.Object? { return None; }
    var usage := Get(body.fields, "usage");
    if usage.Some? && !usage.value.Object? { return None; }
    StatusAgrees(x.reply);
    var status := if !Falsy(x.reply) && Get(x.reply.fields, "error").None? then "ok" else "error";
    return Some(Observation(SpanId(callIndex), None, "chat", RequestModel(x.request), "openai", status, x.startedAt,
                            x.endedAt, x.endedAt - x.startedAt, x.inputTokens, x.outputTokens, x.request, x.reply));
  }

  class Recorder {
    var observations: seq<Observation>
    var callIndex: nat

    /** The call index numbers the observations. */
    ghost predicate Valid()
      reads this
    {
      callIndex == |observations| && Numbered(observations)
    }

    constructor ()
      ensures Valid() && observations == []
    {
      observations, callIndex := [], 0;
    }

    /** _record_observation. An exchange it cannot read raises before anything is stored. */
    method Record(x: Exchange) returns (raised: bool)
      requires Valid()
      modifies this
      ensures Valid() && raised == !Readable(x)
      ensures observations == old(observations) + if raised then [] else [Observed(old(callIndex), x)]
    {
      var o := Read(x, callIndex);
      if o.None? { return true; }
      NumberedSnoc(observations, o.value);
      observations := observations + [o.value];
      callIndex := callIndex + 1;
      return false;
    }

    /** A whole run: what raises is skipped, and the numbering goes on. */
    method RecordAll(xs: seq<Exchange>)
      requires Valid() && observations == []
      modifies this
      ensures Valid() && observations == ObservedAll(Kept(xs))
    {
      for i := 0 to |xs|
        invariant Valid() && observations == ObservedAll(Kept(xs[..i]))
      {
        assert xs[..i + 1][..i] == xs[..i];
        var _ := Record(xs[i]);
      }
      assert xs[..|xs|] == xs;
    }
  }

  // ---- what is recorded of a run ----

  /** The object has a field of this name. */
  predicate HasField(v: Value, key: string) {
    v.Object? && exists j | 0 <= j < |v.fields| :: v.fields[j].key == key
  }

  /** The observation captures the exchange as call i: both bodies, the clock readings and the time between them,
      the tokens of each side, the model asked for, and an ok status exactly for a reply without an error. */
  predicate Captures(o: Observation, x: Exchange, i: nat) {
    o.inputBody == x.request && o.outputBody == x.reply &&
    o.startedAt == x.startedAt && o.endedAt == x.endedAt && o.duration == x.endedAt - x.startedAt &&
    o.inputTokens == x.inputTokens && o.outputTokens == x.outputTokens &&
    o.spanId == SpanId(i) && o.parentSpanId == None && o.operation == "chat" && o.system == "openai" &&
    x.request.Object? &&
    (match Get(x.request.fields, "model") case Some(String(text)) => o.model == text case _ => o.model == "") &&
    o.status == if x.reply.Object? && x.reply.fields != [] && !HasField(x.reply, "error") then "ok" else "error"
  }

  /** The lookups succeed: the request is an object, and the reply is missing, empty or an object whose usage, if it
      has one, is an object. */
  predicate Succeeds(x: Exchange) {
    x.request.Object? &&
    match x.reply
    case Null => true
    case Object(fields) => Get(fields, "usage").None? || Get(fields, "usage").value.Object?
    case Bool(b) => !b
    case Number(token) => IsZeroToken(token)
    case String(text) => text == ""
    case Array(items) => items == []
  }

  /** These are the positions of the exchanges that are recorded, in order. */
  ghost predicate RecordedAt(xs: seq<Exchange>, at: seq<nat>) {
    (forall i | 0 <= i < |at| :: at[i] < |xs| && Succeeds(xs[at[i]])) &&
    (forall i, j | 0 <= i < j < |at| :: at[i] < at[j]) &&
    forall j | 0 <= j < |xs| && Succeeds(xs[j]) :: j in at
  }

  lemma SucceedsExactly(x: Exchange)
    ensures Readable(x) <==> Succeeds(x)
  {}

  lemma RecordedSnoc(front: seq<Exchange>, x: Exchange, at: seq<nat>)
    requires RecordedAt(front, at)
    ensures RecordedAt(front + [x], at + if Succeeds(x) then [|front|] else [])
  {
    var xs, more := front + [x], at + if Succeeds(x) then [|front|] else [];
    forall j | 0 <= j < |xs| && Succeeds(xs[j]) ensures j in more {
      if j < |front| {
        assert j in at;
      } else {
        assert more[|at|] == j;
      }
    }
  }

  /** The kept exchanges are those at these positions. */
  ghost predicate KeptAt(xs: seq<Exchange>, kept: seq<Exchange>, at: seq<nat>) {
    RecordedAt(xs, at) && |at| == |kept| && forall i | 0 <= i < |at| :: kept[i] == xs[at[i]]
  }

  lemma KeptSnoc(front: seq<Exchange>, x: Exchange, kept: seq<Exchange>, at: seq<nat>)
    requires KeptAt(front, kept, at)
    ensures var more := Succeeds(x);
      KeptAt(front + [x], kept + (if more then [x] else []), at + if more then [|front|] else [])
  {
    RecordedSnoc(front, x, at);
  }

  lemma {:induction false} KeptPositions(xs: seq<Exchange>) returns (at: seq<nat>)
    ensures KeptAt(xs, Kept(xs), at)
  {
    if xs == [] { return []; }
    var front, x := xs[..|xs| - 1], xs[|xs| - 1];
    at := KeptPositions(front);
    assert xs == front + [x];
    SucceedsExactly(x);
    KeptSnoc(front, x, Kept(front), at);
    at := at + if Succeeds(x) then [|front|] else [];
  }

  lemma FieldIsFound(fields: seq<Field>, key: string)
    ensures Get(fields, key).Some? <==> HasField(Object(fields), key)
  {}

  /** The recorded run captures, in order, exactly the exchanges whose lookups succeed. */
  lemma CapturesExactly(xs: seq<Exchange>) returns (at: seq<nat>)
    ensures var obs := ObservedAll(Kept(xs));
      RecordedAt(xs, at) && |at| == |obs| && forall i | 0 <= i < |at| :: Captures(obs[i], xs[at[i]], i)
  {
    at := KeptPositions(xs);
    forall i | 0 <= i < |at| ensures Captures(ObservedAll(Kept(xs))[i], xs[at[i]], i) {
      if xs[at[i]].reply.Object? { FieldIsFound(xs[at[i]].reply.fields, "error"); }
    }
  }

  // ---- span ids do not repeat ----

  /** The number a text of upper-case hex digits writes. */
  function HexNumber(s: string): nat {
    if s == "" then 0
    else HexNumber(s[..|s| - 1]) * 16 + DigitNumber(s[|s| - 1])
  }

  function DigitNumber(c: char): nat {
    if '0' <= c <= '9' then c as nat - '0' as nat
    else if 'A' <= c <= 'F' then c as nat - 'A' as nat + 10
    else 0
  }

  lemma {:induction false} HexTextNumber(n: nat)
    ensures HexNumber(HexText(n)) == n
  {
    if n < 16 {
      assert HexText(n)[..0] == "";
      assert HexNumber("") == 0;
    } else {
      HexTextNumber(n / 16);
      assert HexText(n)[..|HexText(n)| - 1] == HexText(n / 16);
    }
  }

  lemma {:induction false} LeadingZero(s: string)
    ensures HexNumber("0" + s) == HexNumber(s)
  {
    var t := "0" + s;
    if s == "" {
      assert t[..0] == "" && HexNumber("") == 0;
    } else {
      assert t[..|t| - 1] == "0" + s[..|s| - 1];
      LeadingZero(s[..|s| - 1]);
    }
  }

  lemma {:induction false} PaddingKeepsNumber(s: string)
    ensures HexNumber(PadTo16(s)) == HexNumber(s)
    decreases 16 - |s|
  {
    if |s| < 16 {
      LeadingZero(s);
      PaddingKeepsNumber("0" + s);
    }
  }

  /** Different calls get different span ids, however many there are. */
  lemma SpanIdsDiffer(i: nat, j: nat)
    ensures SpanId(i) == SpanId(j) <==> i == j
  {
    HexTextNumber(i);
    HexTextNumber(j);
    PaddingKeepsNumber(HexText(i));
    PaddingKeepsNumber(HexText(j));
  }
}
