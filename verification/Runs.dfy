/** What a recorded call, a replayed call and a fixture's invariants look like. */
module Runs {
  import opened Common
  import opened Json
  import opened KeyPaths

  /** One call as the recorder captured it. A missing body is Null, as None is in Python. */
  datatype Observation = Observation(
    spanId: string,
    parentSpanId: Option<string>,
    operation: string,
    model: string,
    system: string,
    status: string,
    startedAt: int,
    endedAt: int,
    duration: int,
    inputTokens: int,
    outputTokens: int,
    inputBody: Value,
    outputBody: Value)

  datatype Source = FromCassette | FromLive

  /** One entry of the served ledger. */
  datatype Served = Served(
    callIndex: nat,
    matchKey: string,
    observationIndex: Option<int>,
    source: Source,
    operation: string,
    model: string,
    inputTokens: int,
    outputTokens: int,
    startedAt: int,
    endedAt: int,
    duration: int,
    cost: real,
    inputBody: Value,
    outputBody: Value)

  datatype Structural = Structural(
    spanCount: Option<int>,
    operationSequence: Option<seq<string>>,
    sequenceMode: string,
    requiredOperations: Option<seq<string>>,
    parentIndex: Option<seq<Option<nat>>>)

  datatype SchemaEntry = SchemaEntry(op: string, kinds: map<string, Kind>, required: seq<string>)

  datatype Metric = Metric(
    costMax: Option<real>,
    latencyMax: Option<int>,
    spanCount: Option<int>,
    inputTokensMax: Option<int>,
    outputTokensMax: Option<int>)

  /** A fixture's invariants; a family the user removed is None. */
  datatype Invariants = Invariants(
    structural: Option<Structural>,
    schema: Option<seq<Option<SchemaEntry>>>,
    metric: Option<Metric>,
    semanticEnabled: bool)

  const NO_INVARIANTS := Invariants(None, None, None, false)

  /** A reply whose token usage can be looked up: its usage, if any, is an object too. */
  predicate UsageReadable(reply: Value) {
    reply.Object? &&
    match Get(reply.fields, "usage") case None => true case Some(usage) => usage.Object?
  }

  // ---- span ids: the call index in sixteen upper-case hex digits ----

  function UpperHex(n: nat): char
    requires n < 16
  {
    if n < 10 then '0' + n as char else 'A' + (n - 10) as char
  }

  function HexText(n: nat): string {
    if n < 16 then [UpperHex(n)] else HexText(n / 16) + [UpperHex(n % 16)]
  }

  function PadTo16(s: string): string
    decreases 16 - |s|
  {
    if |s| < 16 then PadTo16("0" + s) else s
  }

  function SpanId(callIndex: nat): string { PadTo16(HexText(callIndex)) }

  // ---- sums and extremes, as Python's sum, max and min ----

  function Sum(xs: seq<int>): int {
    if xs == [] then 0 else xs[0] + Sum(xs[1..])
  }

  function SumReal(xs: seq<real>): real {
    if xs == [] then 0.0 else xs[0] + SumReal(xs[1..])
  }

  function Max(xs: seq<int>): (m: int)
    requires xs != []
    ensures m in xs && forall i | 0 <= i < |xs| :: xs[i] <= m
  {
    if |xs| == 1 then xs[0]
    else var m := Max(xs[1..]); if xs[0] >= m then xs[0] else m
  }

  function Min(xs: seq<int>): (m: int)
    requires xs != []
    ensures m in xs && forall i | 0 <= i < |xs| :: m <= xs[i]
  {
    if |xs| == 1 then xs[0]
    else var m := Min(xs[1..]); if xs[0] <= m then xs[0] else m
  }

  lemma {:induction false} SumJoin(xs: seq<int>, ys: seq<int>)
    ensures Sum(xs + ys) == Sum(xs) + Sum(ys)
  {
    if xs == [] {
      assert xs + ys == ys;
    } else {
      assert (xs + ys)[1..] == xs[1..] + ys;
      SumJoin(xs[1..], ys);
    }
  }
}
