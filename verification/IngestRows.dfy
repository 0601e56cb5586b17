/** What the ingester's direct conversion makes of a raw span, column by column, and which spans it refuses. */
module IngestRows {
  import opened Common
  import opened Json
  import opened JsonText
  import opened KeyOrder
  import opened Canonical
  import opened Ingest

  // ---- ids ----

  predicate IsHexDigit(c: char) { '0' <= c <= '9' || 'a' <= c <= 'f' || 'A' <= c <= 'F' }

  predicate AllDigits(s: string) { forall i | 0 <= i < |s| :: IsHexDigit(s[i]) }

  /** 2n hex digits. */
  predicate IsHexText(s: string, n: nat) { |s| == 2 * n && AllDigits(s) }

  function LowerDigit(c: char): char { if 'A' <= c <= 'F' then (c as int + 32) as char else c }

  /** The bytes are what the text writes in hex, in either case. */
  predicate Writes(s: string, bs: seq<Byte>) {
    |s| == 2 * |bs| && forall i | 0 <= i < |s| :: LowerDigit(s[i]) == EncodeHex(bs)[i]
  }

  /** Two hex digits a byte. */
  predicate ReadAs(bs: seq<nat>, bytes: seq<Byte>) {
    |bs| == 2 * |bytes| && forall i | 0 <= i < |bytes| ::
      Nibble(bs[2 * i]) == Some(bytes[i] / 16) && Nibble(bs[2 * i + 1]) == Some(bytes[i] % 16)
  }

  /** The byte at this place is the first that is no hex digit. */
  predicate Stops(bs: seq<nat>, at: nat, byte: nat) {
    at < |bs| && bs[at] == byte && Nibble(byte).None? && forall j | 0 <= j < at :: Nibble(bs[j]).Some?
  }

  lemma ReadOneMore(bs: seq<nat>, hi: nat, lo: nat, rest: seq<Byte>)
    requires |bs| >= 2 && hi < 16 && lo < 16 && Nibble(bs[0]) == Some(hi) && Nibble(bs[1]) == Some(lo)
    requires ReadAs(bs[2..], rest)
    ensures ReadAs(bs, [hi * 16 + lo] + rest)
  {
    var bytes := [hi * 16 + lo] + rest;
    forall i | 0 <= i < |bytes|
      ensures Nibble(bs[2 * i]) == Some(bytes[i] / 16) && Nibble(bs[2 * i + 1]) == Some(bytes[i] % 16)
    {
      if i > 0 { assert bs[2 * i] == bs[2..][2 * (i - 1)] && bs[2 * i + 1] == bs[2..][2 * (i - 1) + 1]; }
    }
  }

  lemma StopsLater(bs: seq<nat>, at: nat, byte: nat)
    requires |bs| >= 2 && Nibble(bs[0]).Some? && Nibble(bs[1]).Some? && Stops(bs[2..], at, byte)
    ensures Stops(bs, at + 2, byte)
  {
    forall j | 2 <= j < at + 2 ensures bs[j] == bs[2..][j - 2] {}
  }

  lemma {:induction false} PairsExactly(bs: seq<nat>, index: nat)
    requires |bs| % 2 == 0
    ensures match DecodePairs(bs, index)
      case Good(bytes) => ReadAs(bs, bytes)
      case Bad(at, byte) => at >= index && Stops(bs, at - index, byte)
  {
    if |bs| >= 2 && Nibble(bs[0]).Some? && Nibble(bs[1]).Some? {
      PairsExactly(bs[2..], index + 2);
      match DecodePairs(bs[2..], index + 2)
      case Good(rest) => ReadOneMore(bs, Nibble(bs[0]).value, Nibble(bs[1]).value, rest);
      case Bad(at, byte) => StopsLater(bs, at - index - 2, byte);
    }
  }

  lemma {:induction false} EncodedDigits(bs: seq<Byte>)
    ensures forall i | 0 <= i < |bs| ::
      EncodeHex(bs)[2 * i] == HexDigit(bs[i] / 16) && EncodeHex(bs)[2 * i + 1] == HexDigit(bs[i] % 16)
  {
    if bs != [] {
      EncodedDigits(bs[1..]);
      var rest := EncodeHex(bs[1..]);
      forall i | 1 <= i < |bs|
        ensures EncodeHex(bs)[2 * i] == HexDigit(bs[i] / 16) && EncodeHex(bs)[2 * i + 1] == HexDigit(bs[i] % 16)
      {
        assert EncodeHex(bs)[2 * i] == rest[2 * (i - 1)] && EncodeHex(bs)[2 * i + 1] == rest[2 * (i - 1) + 1];
        assert bs[1..][i - 1] == bs[i];
      }
    }
  }

  /** Bytes below 0x80 come from ASCII characters. */
  lemma {:induction false} LowBytes(s: string)
    requires forall i | 0 <= i < |Utf8(s)| :: Utf8(s)[i] < 0x80
    ensures Ascii(s)
  {
    if s != "" {
      var e := EncodeChar(s[0]);
      assert Utf8(s)[0] == e[0] && s[0] as nat < 0x80;
      forall i | 0 <= i < |Utf8(s[1..])| ensures Utf8(s[1..])[i] < 0x80 {
        assert Utf8(s)[|e| + i] == Utf8(s[1..])[i];
      }
      LowBytes(s[1..]);
    }
  }

  lemma DigitOfNibble(c: char)
    ensures c as nat < 0x80 ==> (Nibble(c as nat).Some? <==> IsHexDigit(c))
    ensures c as nat < 0x80 && Nibble(c as nat).Some? ==> HexDigit(Nibble(c as nat).value) == LowerDigit(c)
  {}

  predicate AllNibbles(bs: seq<nat>) { forall i | 0 <= i < |bs| :: Nibble(bs[i]).Some? }

  /** A text of hex digits has hex digits for bytes, */
  lemma DigitsAreNibbles(s: string)
    requires AllDigits(s)
    ensures Utf8(s) == Codes(s) && AllNibbles(Utf8(s))
  {
    AsciiBytes(s);
    forall i | 0 <= i < |s| ensures Nibble(Utf8(s)[i]).Some? { DigitOfNibble(s[i]); }
  }

  /** and a text whose bytes are all hex digits is one of hex digits. */
  lemma NibblesAreDigits(s: string)
    requires AllNibbles(Utf8(s))
    ensures Utf8(s) == Codes(s) && AllDigits(s)
  {
    LowBytes(s);
    AsciiBytes(s);
    forall i | 0 <= i < |s| ensures IsHexDigit(s[i]) {
      assert Nibble(Utf8(s)[i]).Some?;
      DigitOfNibble(s[i]);
    }
  }

  /** The error a text that is no id of n bytes is refused with: its length in bytes, or the first byte at fault. */
  predicate Refuses(e: IngestError, s: string, n: nat, field: string) {
    e.field == field &&
    if |Utf8(s)| != 2 * n then e == WrongLength(field, 2 * n, |Utf8(s)|)
    else e.InvalidHex? && Stops(Utf8(s), e.index, e.byte)
  }

  /** Which texts are ids of n bytes, what they decode to, and what is wrong with the others. */
  lemma IdExactly(s: string, n: nat, field: string)
    ensures DecodeHexId(s, n, field).Success? <==> IsHexText(s, n)
    ensures DecodeHexId(s, n, field).Success? ==> Writes(s, DecodeHexId(s, n, field).value)
    ensures DecodeHexId(s, n, field).Failure? ==> Refuses(DecodeHexId(s, n, field).error, s, n, field)
  {
    if IsHexText(s, n) { DigitsAreNibbles(s); }
    if |Utf8(s)| == 2 * n {
      PairsExactly(Utf8(s), 0);
      match DecodePairs(Utf8(s), 0)
      case Good(bytes) => DecodedWrites(s, bytes);
      case Bad(at, byte) => assert Nibble(Utf8(s)[at]).None?;
    }
  }

  lemma DecodedWrites(s: string, bytes: seq<Byte>)
    requires ReadAs(Utf8(s), bytes)
    ensures IsHexText(s, |bytes|) && Writes(s, bytes)
  {
    forall i | 0 <= i < |Utf8(s)|
      ensures Nibble(Utf8(s)[i]) == Some(if i % 2 == 0 then bytes[i / 2] / 16 else bytes[i / 2] % 16)
    {
      assert i == 2 * (i / 2) || i == 2 * (i / 2) + 1;
    }
    NibblesAreDigits(s);
    EncodedDigits(bytes);
    forall i | 0 <= i < |s| ensures LowerDigit(s[i]) == EncodeHex(bytes)[i] {
      assert i == 2 * (i / 2) || i == 2 * (i / 2) + 1;
      assert Utf8(s)[i] == s[i] as nat;
      DigitOfNibble(s[i]);
    }
  }

  // ---- rows ----

  /** The four ids of the row are those the span writes; without a run id the run is the trace. */
  predicate TellsIds(raw: RawSpan, row: ObservationRow) {
    Writes(raw.traceId, row.traceId) && Writes(raw.spanId, row.spanId) &&
    (match raw.parentSpanId
     case None => row.parentSpanId == None
     case Some(s) => row.parentSpanId.Some? && Writes(s, row.parentSpanId.value)) &&
    match raw.runId case None => row.runId == row.traceId case Some(s) => Writes(s, row.runId)
  }

  /** Its hash is the address the SDK gives the body. */
  predicate TellsBody(hash: Option<Hex>, body: Option<Value>, sha: Sha) {
    if body.Some? then hash == Some(CanonicalHash(sha, body.value)) else hash == None
  }

  predicate TellsBodies(raw: RawSpan, row: ObservationRow, sha: Sha) {
    TellsBody(row.inputHash, raw.bodies.input, sha) && TellsBody(row.outputHash, raw.bodies.output, sha) &&
    TellsBody(row.toolInputHash, raw.bodies.toolInput, sha) && TellsBody(row.toolOutputHash, raw.bodies.toolOutput, sha)
  }

  /** The other columns. A span is the root of a run when it invokes an agent or says so itself. */
  predicate TellsRest(raw: RawSpan, row: ObservationRow) {
    row.projectId == raw.projectId && row.startTime == raw.startTime && row.endTime == raw.endTime &&
    row.sourceDialect == raw.sourceDialect && row.texts == raw.texts && row.inputTokens == raw.inputTokens &&
    row.outputTokens == raw.outputTokens && row.runTags == raw.runTags &&
    row.pricingVersionId == raw.pricingVersionId &&
    (row.status == StatusError <==> raw.status == "error") &&
    (row.status == StatusTimeout <==> raw.status == "timeout") &&
    Ascending(row.attributes) && Lists(row.attributes, raw.attributes) &&
    (row.isRunRoot <==>
       raw.texts.operation == "invoke_agent" ||
       ("halley.run.kind" in raw.attributes && raw.attributes["halley.run.kind"] == "agent"))
  }

  /** The bodies a span carries, in the order they are hashed. */
  function Carried(b: Bodies): seq<Value> {
    (if b.input.Some? then [b.input.value] else []) + (if b.output.Some? then [b.output.value] else []) +
    (if b.toolInput.Some? then [b.toolInput.value] else []) + (if b.toolOutput.Some? then [b.toolOutput.value] else [])
  }

  /** A body row: the SDK's address and canonical text, its length in bytes, and where and when it was seen. */
  predicate TellsRow(r: BodyRow, body: Value, projectId: Uuid, now: nat, sha: Sha) {
    r.hash == CanonicalHash(sha, body) && r.body == PyCanonical(body) && r.contentType == "application/json" &&
    r.byteSize == |Utf8(PyCanonical(body))| % 0x1_0000_0000 && r.firstSeen == now && r.projectId == projectId
  }

  predicate TellsRows(rows: seq<BodyRow>, bodies: seq<Value>, projectId: Uuid, now: nat, sha: Sha) {
    |rows| == |bodies| && forall i | 0 <= i < |rows| :: TellsRow(rows[i], bodies[i], projectId, now, sha)
  }

  lemma OneRow(body: Option<Value>, projectId: Uuid, now: nat, sha: Sha)
    requires BodyWellFormed(body)
    ensures TellsBody(Ingest.HashOf(body, sha), body, sha)
    ensures TellsRows(RowOf(body, projectId, now, sha), if body.Some? then [body.value] else [], projectId, now, sha)
  {
    if body.Some? { Parity(body.value); }
  }

  lemma RowsJoin(
      xs: seq<BodyRow>, vs: seq<Value>, ys: seq<BodyRow>, ws: seq<Value>, projectId: Uuid, now: nat, sha: Sha)
    requires TellsRows(xs, vs, projectId, now, sha) && TellsRows(ys, ws, projectId, now, sha)
    ensures TellsRows(xs + ys, vs + ws, projectId, now, sha)
  {
    var rows, bodies := xs + ys, vs + ws;
    forall i | 0 <= i < |rows| ensures TellsRow(rows[i], bodies[i], projectId, now, sha) {
      if i < |xs| {
        assert rows[i] == xs[i] && bodies[i] == vs[i];
      } else {
        assert rows[i] == ys[i - |xs|] && bodies[i] == ws[i - |xs|];
      }
    }
  }

  lemma BodyRowsTell(b: Bodies, projectId: Uuid, now: nat, sha: Sha)
    requires BodiesWellFormed(b)
    ensures TellsRows(BodyRows(b, projectId, now, sha), Carried(b), projectId, now, sha)
  {
    var p, q := RowOf(b.input, projectId, now, sha), RowOf(b.output, projectId, now, sha);
    var r, t := RowOf(b.toolInput, projectId, now, sha), RowOf(b.toolOutput, projectId, now, sha);
    var v, w := if b.input.Some? then [b.input.value] else [], if b.output.Some? then [b.output.value] else [];
    var x := if b.toolInput.Some? then [b.toolInput.value] else [];
    var y := if b.toolOutput.Some? then [b.toolOutput.value] else [];
    OneRow(b.input, projectId, now, sha);
    OneRow(b.output, projectId, now, sha);
    OneRow(b.toolInput, projectId, now, sha);
    OneRow(b.toolOutput, projectId, now, sha);
    RowsJoin(p, v, q, w, projectId, now, sha);
    RowsJoin(p + q, v + w, r, x, projectId, now, sha);
    RowsJoin(p + q + r, v + w + x, t, y, projectId, now, sha);
  }

  predicate IsHexOr(s: Option<string>, n: nat) { s.Some? ==> IsHexText(s.value, n) }

  lemma IdsTell(raw: RawSpan)
    ensures DecodeIds(raw).Success? <==>
      IsHexText(raw.traceId, 16) && IsHexText(raw.spanId, 8) && IsHexOr(raw.parentSpanId, 8)
    ensures DecodeIds(raw).Success? ==>
      var ids := DecodeIds(raw).value;
      Writes(raw.traceId, ids.trace) && Writes(raw.spanId, ids.span) &&
      match raw.parentSpanId
      case None => ids.parent == None
      case Some(s) => ids.parent.Some? && Writes(s, ids.parent.value)
  {
    IdExactly(raw.traceId, 16, "trace_id");
    IdExactly(raw.spanId, 8, "span_id");
    if raw.parentSpanId.Some? { IdExactly(raw.parentSpanId.value, 8, "parent_span_id"); }
  }

  lemma RunTells(runId: Option<string>, trace: seq<Byte>)
    ensures DecodeRunId(runId, trace).Success? <==> IsHexOr(runId, 16)
    ensures DecodeRunId(runId, trace).Success? ==>
      match runId
      case None => DecodeRunId(runId, trace).value == trace
      case Some(s) => Writes(s, DecodeRunId(runId, trace).value)
  {
    if runId.Some? { IdExactly(runId.value, 16, "run_id"); }
  }

  lemma ColumnsTell(raw: RawSpan, ids: Ids, run: seq<Byte>, sha: Sha)
    requires BodiesWellFormed(raw.bodies)
    ensures TellsRest(raw, DirectRow(raw, ids, run, sha)) && TellsBodies(raw, DirectRow(raw, ids, run, sha), sha)
  {
    OneRow(raw.bodies.input, raw.projectId, 0, sha);
    OneRow(raw.bodies.output, raw.projectId, 0, sha);
    OneRow(raw.bodies.toolInput, raw.projectId, 0, sha);
    OneRow(raw.bodies.toolOutput, raw.projectId, 0, sha);
  }

  /** Exactly which spans are converted, and to what: those whose ids are hex texts of their lengths. */
  lemma DirectTells(raw: RawSpan, now: nat, sha: Sha)
    requires BodiesWellFormed(raw.bodies)
    ensures DirectRows(raw, now, sha).Success? <==>
      IsHexText(raw.traceId, 16) && IsHexText(raw.spanId, 8) && IsHexOr(raw.parentSpanId, 8) && IsHexOr(raw.runId, 16)
    ensures DirectRows(raw, now, sha).Success? ==>
      var rows := DirectRows(raw, now, sha).value;
      TellsIds(raw, rows.row) && TellsBodies(raw, rows.row, sha) && TellsRest(raw, rows.row) &&
      TellsRows(rows.bodies, Carried(raw.bodies), raw.projectId, now, sha)
  {
    IdsTell(raw);
    BodyRowsTell(raw.bodies, raw.projectId, now, sha);
    if DecodeIds(raw).Success? {
      var ids := DecodeIds(raw).value;
      RunTells(raw.runId, ids.trace);
      var run := DecodeRunId(raw.runId, ids.trace);
      if run.Success? { ColumnsTell(raw, ids, run.value, sha); }
    }
  }

  /** A refused span is refused for the first of its ids, in this order, that is no hex text of its length. */
  lemma RefusalTells(raw: RawSpan, now: nat, sha: Sha)
    requires DirectRows(raw, now, sha).Failure?
    ensures DirectRows(raw, now, sha).error.field ==
      if !IsHexText(raw.traceId, 16) then "trace_id"
      else if !IsHexText(raw.spanId, 8) then "span_id"
      else if !IsHexOr(raw.parentSpanId, 8) then "parent_span_id"
      else "run_id"
  {
    IdExactly(raw.traceId, 16, "trace_id");
    IdExactly(raw.spanId, 8, "span_id");
    if raw.parentSpanId.Some? { IdExactly(raw.parentSpanId.value, 8, "parent_span_id"); }
    if raw.runId.Some? { IdExactly(raw.runId.value, 16, "run_id"); }
  }
}
