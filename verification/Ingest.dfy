/** The ingester's direct conversion of a raw span into ClickHouse rows (TryFrom<RawSpan>), and the
    encodings it and the normalizer share: hex ids, UUIDs, body rows, sorted attribute maps. */
module Ingest {
  import opened Common
  import opened Json
  import opened JsonText
  import opened KeyOrder
  import opened Canonical

  type Byte = n: nat | n < 0x100

  type U32 = n: nat | n < 0x1_0000_0000

  datatype IngestError =
    | WrongLength(field: string, expected: nat, got: nat)
    | InvalidHex(field: string, index: nat, byte: nat)

  datatype Result<+T> = Success(value: T) | Failure(error: IngestError)

  // ---- hex ----

  datatype Pairs = Good(bytes: seq<Byte>) | Bad(index: nat, byte: nat)

  function Nibble(b: nat): (r: Option<nat>)
    ensures r.Some? ==> r.value < 16
  {
    if b < 0x80 then HexValue(b as char) else None
  }

  /** Two hex digits a byte; the first byte that is no digit is reported with its index. */
  function DecodePairs(bs: seq<nat>, index: nat): (r: Pairs)
    ensures r.Good? ==> |r.bytes| == |bs| / 2
  {
    if |bs| < 2 then Good([])
    else match (Nibble(bs[0]), Nibble(bs[1]))
      case (None, _) => Bad(index, bs[0])
      case (Some(_), None) => Bad(index + 1, bs[1])
      case (Some(hi), Some(lo)) =>
        match DecodePairs(bs[2..], index + 2)
        case Bad(i, b) => Bad(i, b)
        case Good(rest) => Good([hi * 16 + lo] + rest)
  }

  function DecodeHexId(s: string, n: nat, field: string): (r: Result<seq<Byte>>)
    ensures r.Success? ==> |r.value| == n
  {
    var bs := Utf8(s);
    if |bs| != 2 * n then Failure(WrongLength(field, 2 * n, |bs|))
    else match DecodePairs(bs, 0)
      case Bad(index, byte) => Failure(InvalidHex(field, index, byte))
      case Good(bytes) => Success(bytes)
  }

  function EncodeHex(bs: seq<Byte>): (s: string)
    ensures |s| == 2 * |bs|
  {
    if bs == [] then "" else [HexDigit(bs[0] / 16), HexDigit(bs[0] % 16)] + EncodeHex(bs[1..])
  }

  predicate Ascii(s: string) { forall i | 0 <= i < |s| :: s[i] as nat < 0x80 }

  lemma {:induction false} AsciiBytes(s: string)
    requires Ascii(s)
    ensures |Utf8(s)| == |s| && forall i | 0 <= i < |s| :: Utf8(s)[i] == s[i] as nat
  {
    if s != "" {
      AsciiBytes(s[1..]);
      forall i | 1 <= i < |s| ensures Utf8(s)[i] == s[i] as nat { assert s[i] == s[1..][i - 1]; }
    }
  }

  /** The code points of a hex text, as DecodePairs reads them. */
  function Codes(s: string): (r: seq<nat>)
    ensures |r| == |s| && forall i | 0 <= i < |r| :: r[i] == s[i] as nat
  {
    seq(|s|, i requires 0 <= i < |s| => s[i] as nat)
  }

  lemma {:induction false} HexIsAscii(bs: seq<Byte>)
    ensures Ascii(EncodeHex(bs))
  {
    if bs != [] {
      HexIsAscii(bs[1..]);
      HexDigitRoundTrip(bs[0] / 16);
      HexDigitRoundTrip(bs[0] % 16);
    }
  }

  /** The codes of a byte's two digits and of what follows them. */
  lemma HexTail(bs: seq<Byte>, codes: seq<nat>)
    requires bs != [] && codes == Codes(EncodeHex(bs))
    ensures |codes| >= 2 && codes[2..] == Codes(EncodeHex(bs[1..]))
    ensures Nibble(codes[0]) == Some(bs[0] / 16) && Nibble(codes[1]) == Some(bs[0] % 16)
  {
    HexDigitRoundTrip(bs[0] / 16);
    HexDigitRoundTrip(bs[0] % 16);
    assert EncodeHex(bs)[2..] == EncodeHex(bs[1..]);
  }

  lemma PairRead(codes: seq<nat>, index: nat, b: Byte, rest: seq<Byte>)
    requires |codes| >= 2 && Nibble(codes[0]) == Some(b / 16) && Nibble(codes[1]) == Some(b % 16)
    requires DecodePairs(codes[2..], index + 2) == Good(rest)
    ensures DecodePairs(codes, index) == Good([b] + rest)
  {}

  lemma {:induction false} HexReadsBack(bs: seq<Byte>, index: nat)
    ensures DecodePairs(Codes(EncodeHex(bs)), index) == Good(bs)
  {
    if bs != [] {
      var codes := Codes(EncodeHex(bs));
      HexTail(bs, codes);
      HexReadsBack(bs[1..], index + 2);
      PairRead(codes, index, bs[0], bs[1..]);
      assert bs == [bs[0]] + bs[1..];
    }
  }

  /** An id printed in hex is read back. */
  lemma IdRoundTrip(bs: seq<Byte>, field: string)
    ensures DecodeHexId(EncodeHex(bs), |bs|, field) == Success(bs)
  {
    HexIsAscii(bs);
    HexReadsBack(bs, 0);
    AsciiBytes(EncodeHex(bs));
    assert Utf8(EncodeHex(bs)) == Codes(EncodeHex(bs));
  }

  // ---- UUIDs ----

  type Uuid = u: seq<Byte> | |u| == 16 witness seq(16, _ => 0)

  const NIL: Uuid := [0, 0, 0, 0, 0, 0, 0, 0, 0, 0, 0, 0, 0, 0, 0, 0]

  function Hyphenated(a: string, b: string, c: string, d: string, e: string): string {
    a + "-" + b + "-" + c + "-" + d + "-" + e
  }

  /** Uuid::to_string: the hyphenated form. */
  function UuidText(u: Uuid): string {
    var h := EncodeHex(u);
    Hyphenated(h[..8], h[8..12], h[12..16], h[16..20], h[20..])
  }

  function SixteenBytes(bs: seq<nat>): Option<Uuid>
    requires |bs| == 32
  {
    match DecodePairs(bs, 0)
    case Bad(_, _) => None
    case Good(bytes) => Some(bytes)
  }

  predicate Hyphens(bs: seq<nat>)
    requires |bs| == 36
  {
    bs[8] == '-' as nat && bs[13] == '-' as nat && bs[18] == '-' as nat && bs[23] == '-' as nat
  }

  function ParseHyphenated(bs: seq<nat>): Option<Uuid>
    requires |bs| == 36
  {
    if !Hyphens(bs) then None
    else SixteenBytes(bs[..8] + bs[9..13] + bs[14..18] + bs[19..23] + bs[24..])
  }

  /** str::parse::<Uuid>: the plain, hyphenated, braced and URN forms. */
  function ParseUuid(s: string): Option<Uuid> {
    var bs := Utf8(s);
    if |bs| == 32 then SixteenBytes(bs)
    else if |bs| == 36 then ParseHyphenated(bs)
    else if |bs| == 38 && bs[0] == '{' as nat && bs[37] == '}' as nat then ParseHyphenated(bs[1..37])
    else if |bs| == 45 && bs[..9] == Codes("urn:uuid:") then ParseHyphenated(bs[9..])
    else None
  }

  /** The hyphens stand where the parser skips them. */
  lemma HyphensSkipped(a: string, b: string, c: string, d: string, e: string)
    requires |a| == 8 && |b| == 4 && |c| == 4 && |d| == 4 && |e| == 12
    ensures var bs := Codes(Hyphenated(a, b, c, d, e));
      |bs| == 36 && Hyphens(bs) && bs[..8] == Codes(a) && bs[9..13] == Codes(b) && bs[14..18] == Codes(c) &&
      bs[19..23] == Codes(d) && bs[24..] == Codes(e)
  {}

  lemma AsciiUuid(a: string, b: string, c: string, d: string, e: string)
    requires Ascii(a) && Ascii(b) && Ascii(c) && Ascii(d) && Ascii(e)
    ensures Ascii(Hyphenated(a, b, c, d, e))
  {}

  lemma FiveParts(h: string)
    requires |h| == 32
    ensures Codes(h[..8]) + Codes(h[8..12]) + Codes(h[12..16]) + Codes(h[16..20]) + Codes(h[20..]) == Codes(h)
  {}

  lemma UuidRoundTrip(u: Uuid)
    ensures ParseUuid(UuidText(u)) == Some(u)
  {
    var h, text := EncodeHex(u), UuidText(u);
    HexIsAscii(u);
    HexReadsBack(u, 0);
    HyphensSkipped(h[..8], h[8..12], h[12..16], h[16..20], h[20..]);
    AsciiUuid(h[..8], h[8..12], h[12..16], h[16..20], h[20..]);
    AsciiBytes(text);
    assert Utf8(text) == Codes(text);
    FiveParts(h);
  }

  // ---- spans ----

  /** The text columns, which both paths copy. */
  datatype Texts = Texts(
    dialectVersion: string, system: string, operation: string, requestModel: string,
    responseModel: string, finishReason: string, toolName: string, toolSideEffect: string,
    runName: string, runEnv: string, errorMessage: string)

  datatype Bodies = Bodies(
    input: Option<Value>, output: Option<Value>, toolInput: Option<Value>, toolOutput: Option<Value>)

  datatype RawSpan = RawSpan(
    traceId: string, spanId: string, parentSpanId: Option<string>, runId: Option<string>,
    projectId: Uuid, startTime: nat, endTime: nat, sourceDialect: string, texts: Texts,
    inputTokens: U32, outputTokens: U32, bodies: Bodies, runTags: seq<string>,
    pricingVersionId: Uuid, status: string, attributes: map<string, string>)

  datatype SpanStatus = StatusOk | StatusError | StatusTimeout

  function StatusOf(s: string): SpanStatus {
    if s == "error" then StatusError else if s == "timeout" then StatusTimeout else StatusOk
  }

  /** The text the writer publishes for a status. */
  function StatusText(status: SpanStatus): string {
    match status case StatusOk => "ok" case StatusError => "error" case StatusTimeout => "timeout"
  }

  /** A published status is read back as itself, and every other text as ok. */
  lemma StatusReadsBack(s: string)
    ensures forall status :: StatusOf(StatusText(status)) == status
    ensures (forall status :: s != StatusText(status)) ==> StatusOf(s) == StatusOk
  {
    forall status ensures StatusOf(StatusText(status)) == status {
      assert StatusText(StatusTimeout)[0] == 't';
    }
    assert s != StatusText(StatusError) && s != StatusText(StatusTimeout) ==> StatusOf(s) == StatusOk;
  }

  /** The ids a span decodes to, and what is copied around them. attributes lists the string
      map in ascending key order, each value as a JSON string. */
  datatype ObservationRow = ObservationRow(
    traceId: seq<Byte>, spanId: seq<Byte>, parentSpanId: Option<seq<Byte>>, runId: seq<Byte>,
    projectId: Uuid, startTime: nat, endTime: nat, sourceDialect: string, texts: Texts,
    inputTokens: U32, outputTokens: U32,
    inputHash: Option<Hex>, outputHash: Option<Hex>, toolInputHash: Option<Hex>, toolOutputHash: Option<Hex>,
    runTags: seq<string>, pricingVersionId: Uuid, status: SpanStatus,
    attributes: seq<Field>, isRunRoot: bool)

  datatype BodyRow = BodyRow(
    hash: Hex, body: string, contentType: string, byteSize: U32, firstSeen: nat, projectId: Uuid)

  // ---- hashing bodies ----

  function BodyRowOf(body: Value, projectId: Uuid, now: nat, sha: Sha): BodyRow
  {
    var text := RustCanonical(body);
    BodyRow(sha(text), text, "application/json", |Utf8(text)| % 0x1_0000_0000, now, projectId)
  }

  function HashOf(body: Option<Value>, sha: Sha): Option<Hex> {
    if body.Some? then Some(sha(RustCanonical(body.value))) else None
  }

  predicate BodyWellFormed(body: Option<Value>) { body.Some? ==> WellFormed(body.value) }

  predicate BodiesWellFormed(b: Bodies) {
    BodyWellFormed(b.input) && BodyWellFormed(b.output) &&
    BodyWellFormed(b.toolInput) && BodyWellFormed(b.toolOutput)
  }

  function RowOf(body: Option<Value>, projectId: Uuid, now: nat, sha: Sha): seq<BodyRow>
  {
    if body.Some? then [BodyRowOf(body.value, projectId, now, sha)] else []
  }

  function BodyRows(b: Bodies, projectId: Uuid, now: nat, sha: Sha): seq<BodyRow>
  {
    RowOf(b.input, projectId, now, sha) + RowOf(b.output, projectId, now, sha) +
    RowOf(b.toolInput, projectId, now, sha) + RowOf(b.toolOutput, projectId, now, sha)
  }

  lemma Reassociate<T>(r: seq<T>, a: seq<T>, b: seq<T>, c: seq<T>, d: seq<T>)
    ensures r + a + b + c + d == r + (a + b + c + d)
  {}

  /** The body vector that hash_body pushes to. */
  class BodyBuffer {
    var rows: seq<BodyRow>

    constructor ()
      ensures rows == []
    {
      rows := [];
    }

    /** hash_body: canonicalize, hash, and push a row; an absent body pushes nothing. */
    method HashBody(body: Option<Value>, projectId: Uuid, now: nat, sha: Sha) returns (hash: Option<Hex>)
      modifies this
      ensures hash == HashOf(body, sha)
      ensures rows == old(rows) + RowOf(body, projectId, now, sha)
    {
      if body.None? { return None; }
      var text := RustCanonical(body.value);
      var digest := sha(text);
      rows := rows + [BodyRow(digest, text, "application/json", |Utf8(text)| % 0x1_0000_0000, now, projectId)];
      return Some(digest);
    }

    method HashBodies(b: Bodies, projectId: Uuid, now: nat, sha: Sha)
      returns (input: Option<Hex>, output: Option<Hex>, toolInput: Option<Hex>, toolOutput: Option<Hex>)
      modifies this
      ensures input == HashOf(b.input, sha) && output == HashOf(b.output, sha)
      ensures toolInput == HashOf(b.toolInput, sha) && toolOutput == HashOf(b.toolOutput, sha)
      ensures rows == old(rows) + BodyRows(b, projectId, now, sha)
    {
      ghost var was := rows;
      input := HashBody(b.input, projectId, now, sha);
      output := HashBody(b.output, projectId, now, sha);
      toolInput := HashBody(b.toolInput, projectId, now, sha);
      toolOutput := HashBody(b.toolOutput, projectId, now, sha);
      Reassociate(was, RowOf(b.input, projectId, now, sha), RowOf(b.output, projectId, now, sha),
        RowOf(b.toolInput, projectId, now, sha), RowOf(b.toolOutput, projectId, now, sha));
    }
  }

  // ---- listing a string map in key order ----

  predicate Lists(r: seq<Field>, m: map<string, string>) {
    (forall i | 0 <= i < |r| :: r[i].key in m && r[i].value == String(m[r[i].key])) &&
    forall k | k in m :: Field(k, String(m[k])) in r
  }

  /** The one listing of the map in ascending order. */
  ghost function Listing(m: map<string, string>): (r: seq<Field>)
    ensures Ascending(r) && Lists(r, m)
  {
    if m == map[] then []
    else
      var k :| k in m;
      var rest := m - {k};
      var f := Field(k, String(m[k]));
      PlaceAscending(f, Listing(rest));
      PlaceLists(f, Listing(rest), rest, m);
      Place(f, Listing(rest))
  }

  lemma PlaceLists(f: Field, r: seq<Field>, rest: map<string, string>, m: map<string, string>)
    requires f.key in m && f.value == String(m[f.key]) && rest == m - {f.key} && Lists(r, rest)
    ensures Lists(Place(f, r), m)
  {
    var placed := Place(f, r);
    forall i | 0 <= i < |placed| ensures placed[i].key in m && placed[i].value == String(m[placed[i].key]) {
      assert placed[i] == f || placed[i] in r;
    }
    forall k | k in m ensures Field(k, String(m[k])) in placed {
      assert k == f.key || k in rest;
    }
  }

  lemma ListingUnique(r: seq<Field>, m: map<string, string>)
    requires Ascending(r) && Lists(r, m)
    ensures r == Listing(m)
  {
    var s := Listing(m);
    forall f ensures f in r <==> f in s {
      if f in r { assert f == Field(f.key, String(m[f.key])); }
      if f in s { assert f == Field(f.key, String(m[f.key])); }
    }
    AscendingUnique(r, s);
  }

  lemma ListsOne(r: seq<Field>, m: map<string, string>, n: map<string, string>)
    requires Lists(r, m) && Lists(r, n)
    ensures m == n
  {}

  lemma ListingInjective(m: map<string, string>, n: map<string, string>)
    ensures Listing(m) == Listing(n) <==> m == n
  {
    if Listing(m) == Listing(n) { ListsOne(Listing(m), m, n); }
  }

  lemma ListsStep(pairs: seq<Field>, m: map<string, string>, rest: set<string>, k: string)
    requires k in rest && rest <= m.Keys && Lists(pairs, m - rest)
    ensures Lists(pairs + [Field(k, String(m[k]))], m - (rest - {k}))
  {
    var more, done := pairs + [Field(k, String(m[k]))], m - (rest - {k});
    forall i | 0 <= i < |more| ensures more[i].key in done && more[i].value == String(done[more[i].key]) {
      if i < |pairs| { assert more[i] == pairs[i]; }
    }
    forall x | x in done ensures Field(x, String(done[x])) in more {
      if x != k { assert x in m - rest; }
    }
  }

  lemma SortedLists(pairs: seq<Field>, m: map<string, string>)
    requires DistinctKeys(pairs) && Lists(pairs, m)
    ensures Sorted(pairs) == Listing(m)
  {
    var r := Sorted(pairs);
    SortedAscending(pairs);
    forall i | 0 <= i < |r| ensures r[i].key in m && r[i].value == String(m[r[i].key]) { assert r[i] in pairs; }
    ListingUnique(r, m);
  }

  /** HashMap to sorted Vec: the map is read in no particular order, then sorted by key. */
  method SortedAttributes(m: map<string, string>) returns (r: seq<Field>)
    ensures r == Listing(m)
  {
    var rest, pairs := m.Keys, [];
    while rest != {}
      invariant rest <= m.Keys
      invariant DistinctKeys(pairs) && forall i | 0 <= i < |pairs| :: pairs[i].key !in rest
      invariant Lists(pairs, m - rest)
      decreases |rest|
    {
      var k :| k in rest;
      ListsStep(pairs, m, rest, k);
      pairs, rest := pairs + [Field(k, String(m[k]))], rest - {k};
    }
    assert m - rest == m;
    SortedLists(pairs, m);
    r := Sorted(pairs);
  }

  // ---- the direct conversion ----

  function DecodeParent(s: Option<string>): Result<Option<seq<Byte>>> {
    if s.None? then Success(None)
    else
      match DecodeHexId(s.value, 8, "parent_span_id")
      case Failure(e) => Failure(e)
      case Success(bytes) => Success(Some(bytes))
  }

  datatype Ids = Ids(trace: seq<Byte>, span: seq<Byte>, parent: Option<seq<Byte>>)

  /** The three ids both paths decode first, in this order. */
  function DecodeIds(raw: RawSpan): Result<Ids> {
    match DecodeHexId(raw.traceId, 16, "trace_id")
    case Failure(e) => Failure(e)
    case Success(trace) =>
      match DecodeHexId(raw.spanId, 8, "span_id")
      case Failure(e) => Failure(e)
      case Success(span) =>
        match DecodeParent(raw.parentSpanId)
        case Failure(e) => Failure(e)
        case Success(parent) => Success(Ids(trace, span, parent))
  }

  /** run_id defaults to trace_id. */
  function DecodeRunId(runId: Option<string>, trace: seq<Byte>): Result<seq<Byte>> {
    if runId.Some? then DecodeHexId(runId.value, 16, "run_id") else Success(trace)
  }

  datatype Rows = Rows(row: ObservationRow, bodies: seq<BodyRow>)

  function Attribute(attributes: map<string, string>, key: string): Option<string> {
    if key in attributes then Some(attributes[key]) else None
  }

  const RUN_KIND := "halley.run.kind"

  predicate IsRunRoot(operation: string, kind: Option<string>) {
    operation == "invoke_agent" || kind == Some("agent")
  }

  ghost function DirectRow(raw: RawSpan, ids: Ids, run: seq<Byte>, sha: Sha): ObservationRow {
    ObservationRow(
      ids.trace, ids.span, ids.parent, run, raw.projectId, raw.startTime, raw.endTime, raw.sourceDialect,
      raw.texts, raw.inputTokens, raw.outputTokens,
      HashOf(raw.bodies.input, sha), HashOf(raw.bodies.output, sha),
      HashOf(raw.bodies.toolInput, sha), HashOf(raw.bodies.toolOutput, sha),
      raw.runTags, raw.pricingVersionId, StatusOf(raw.status), Listing(raw.attributes),
      IsRunRoot(raw.texts.operation, Attribute(raw.attributes, RUN_KIND)))
  }

  ghost function DirectRows(raw: RawSpan, now: nat, sha: Sha): Result<Rows>
  {
    match DecodeIds(raw)
    case Failure(e) => Failure(e)
    case Success(ids) =>
      match DecodeRunId(raw.runId, ids.trace)
      case Failure(e) => Failure(e)
      case Success(run) =>
        Success(Rows(DirectRow(raw, ids, run, sha), BodyRows(raw.bodies, raw.projectId, now, sha)))
  }

  method TryFrom(raw: RawSpan, now: nat, sha: Sha) returns (r: Result<Rows>)
    ensures r == DirectRows(raw, now, sha)
  {
    var decoded := DecodeIds(raw);
    if decoded.Failure? { return Failure(decoded.error); }
    var ids := decoded.value;
    var run := DecodeRunId(raw.runId, ids.trace);
    if run.Failure? { return Failure(run.error); }
    var out := new BodyBuffer();
    var input, output, toolInput, toolOutput := out.HashBodies(raw.bodies, raw.projectId, now, sha);
    assert out.rows == BodyRows(raw.bodies, raw.projectId, now, sha);
    var attributes := SortedAttributes(raw.attributes);
    var row := ObservationRow(
      ids.trace, ids.span, ids.parent, run.value, raw.projectId, raw.startTime, raw.endTime,
      raw.sourceDialect, raw.texts, raw.inputTokens, raw.outputTokens, input, output, toolInput, toolOutput,
      raw.runTags, raw.pricingVersionId, StatusOf(raw.status), attributes,
      IsRunRoot(raw.texts.operation, Attribute(raw.attributes, RUN_KIND)));
    return Success(Rows(row, out.rows));
  }
}
