/** The other way from a raw span to rows: packed into an OTLP span, recognised and unpacked by the
    halley-raw adapter, then written out by CanonicalSpan::into_rows. The main result says for
    exactly which raw spans it agrees with the direct conversion. */
module Normalizer {
  import opened Common
  import opened Json
  import opened JsonText
  import opened Canonical
  import opened Numbers
  import opened Ingest
  import WriterBatch
  import WriterProtocol
  import DeadLetters

  // ---- attribute keys ----

  /** The keys the adapter knows (known_keys). */
  datatype Known =
    | SourceDialect | DialectVersion | RunId | ProjectId | System | Operation | RequestModel | ResponseModel
    | InputTokens | OutputTokens | FinishReason | InputBody | OutputBody | ToolName | ToolInput | ToolOutput
    | ToolSideEffect | RunName | RunTags | RunEnv | PricingVersionId | Status | ErrorMessage

  function NameOf(k: Known): string {
    match k
    case SourceDialect => "source_dialect"
    case DialectVersion => "dialect_version"
    case RunId => "run_id"
    case ProjectId => "project_id"
    case System => "gen_ai_system"
    case Operation => "gen_ai_operation"
    case RequestModel => "gen_ai_request_model"
    case ResponseModel => "gen_ai_response_model"
    case InputTokens => "gen_ai_usage_input_tokens"
    case OutputTokens => "gen_ai_usage_output_tokens"
    case FinishReason => "gen_ai_response_finish_reason"
    case InputBody => "input_body"
    case OutputBody => "output_body"
    case ToolName => "tool_name"
    case ToolInput => "tool_input"
    case ToolOutput => "tool_output"
    case ToolSideEffect => "tool_side_effect"
    case RunName => "run_name"
    case RunTags => "run_tags"
    case RunEnv => "run_env"
    case PricingVersionId => "pricing_version_id"
    case Status => "status"
    case ErrorMessage => "error_message"
  }

  predicate Reserved(name: string) { exists k: Known :: NameOf(k) == name }

  lemma NamesDiffer(j: Known, k: Known)
    ensures NameOf(j) == NameOf(k) ==> j == k
  {}

  lemma RunKindIsFree()
    ensures !Reserved(RUN_KIND)
  {}

  // ---- OTLP values ----

  /** Rendered stands for the Bool, Double, Bytes, Array and Kvlist variants: by what to_json
      and to_attr_string give for them. */
  datatype AnyValue = Text(s: string) | Int(i: int) | Rendered(json: Value, attr: string)

  /** i.max(0) as u32 keeps the low 32 bits. */
  function AsU32(v: AnyValue): Option<U32> {
    if v.Int? then Some((if v.i < 0 then 0 else v.i) % 0x1_0000_0000) else None
  }

  function Decimal(n: nat): string {
    (if n < 10 then "" else Decimal(n / 10)) + [HexDigit(n % 10)]
  }

  function IntText(i: int): string { if i < 0 then "-" + Decimal(-i) else Decimal(i) }

  function ToJson(v: AnyValue): Value {
    match v
    case Text(s) => String(s)
    case Int(i) => Number(IntText(i))
    case Rendered(json, _) => json
  }

  function ToAttrString(v: AnyValue): string {
    match v
    case Text(s) => s
    case Int(i) => IntText(i)
    case Rendered(_, attr) => attr
  }

  type Fields = map<Known, AnyValue>

  /** A span's attribute map, its known keys apart from the others. */
  datatype Attrs = Attrs(known: Fields, others: map<string, AnyValue>)

  datatype OtlpSpan = OtlpSpan(ids: Ids, startTime: nat, endTime: nat, attributes: Attrs)

  // ---- raw_span_to_otlp ----

  const DIALECT := "halley-raw"

  /** serde_json::to_string of a list of strings. */
  function TagsText(tags: seq<string>): string { Print(TagsValue(tags), Compact, 0) }

  function TagsValue(tags: seq<string>): Value {
    Array(seq(|tags|, i requires 0 <= i < |tags| => String(tags[i])))
  }

  function PutText(m: Fields, k: Known, s: Option<string>): Fields {
    if s.Some? then m[k := Text(s.value)] else m
  }

  function PutBody(m: Fields, k: Known, body: Option<Value>): Fields {
    if body.Some? then m[k := Text(Print(body.value, Compact, 0))] else m
  }

  function SourceAttrs(raw: RawSpan): Fields {
    map[SourceDialect := Text(DIALECT), DialectVersion := Text(raw.texts.dialectVersion),
        ProjectId := Text(UuidText(raw.projectId))]
  }

  function GenAiAttrs(m: Fields, raw: RawSpan): Fields {
    m[System := Text(raw.texts.system)][Operation := Text(raw.texts.operation)]
    [RequestModel := Text(raw.texts.requestModel)][ResponseModel := Text(raw.texts.responseModel)]
    [InputTokens := Int(raw.inputTokens)][OutputTokens := Int(raw.outputTokens)]
    [FinishReason := Text(raw.texts.finishReason)]
  }

  function BodyAttrs(m: Fields, b: Bodies): Fields {
    PutBody(PutBody(PutBody(PutBody(m, InputBody, b.input), OutputBody, b.output),
      ToolInput, b.toolInput), ToolOutput, b.toolOutput)
  }

  function RunAttrs(m: Fields, raw: RawSpan): Fields {
    m[ToolName := Text(raw.texts.toolName)][ToolSideEffect := Text(raw.texts.toolSideEffect)]
    [RunName := Text(raw.texts.runName)][RunTags := Text(TagsText(raw.runTags))][RunEnv := Text(raw.texts.runEnv)]
    [PricingVersionId := Text(UuidText(raw.pricingVersionId))][Status := Text(raw.status)]
    [ErrorMessage := Text(raw.texts.errorMessage)]
  }

  /** All the span's own fields as attributes. */
  function FieldAttrs(raw: RawSpan): Fields {
    RunAttrs(BodyAttrs(GenAiAttrs(PutText(SourceAttrs(raw), RunId, raw.runId), raw), raw.bodies), raw)
  }

  /** The caller's attributes that carry a known name. */
  function NamedFields(attributes: map<string, string>): Fields {
    map k: Known | NameOf(k) in attributes :: Text(attributes[NameOf(k)])
  }

  function FreeTexts(attributes: map<string, string>): map<string, AnyValue> {
    map s | s in attributes && !Reserved(s) :: Text(attributes[s])
  }

  /** The caller's attributes come last and never replace a field: entry(k).or_insert. */
  function AllAttrs(raw: RawSpan): Attrs {
    Attrs(NamedFields(raw.attributes) + FieldAttrs(raw), FreeTexts(raw.attributes))
  }

  function Packed(raw: RawSpan): Result<OtlpSpan> {
    match DecodeIds(raw)
    case Failure(e) => Failure(e)
    case Success(ids) => Success(OtlpSpan(ids, raw.startTime, raw.endTime, AllAttrs(raw)))
  }

  /** One more attribute, with the name of the known key k. */
  lemma MergeNamed(attributes: map<string, string>, rest: set<string>, k: Known)
    requires NameOf(k) in rest && rest <= attributes.Keys
    ensures var was, now, s := attributes - rest, attributes - (rest - {NameOf(k)}), NameOf(k);
      FreeTexts(now) == FreeTexts(was) &&
      k !in NamedFields(was) && NamedFields(now) == NamedFields(was)[k := Text(attributes[s])]
  {
    forall j: Known ensures NameOf(j) == NameOf(k) ==> j == k { NamesDiffer(j, k); }
    NamedStep(attributes, rest, k, NameOf(k));
  }

  lemma NamedStep(attributes: map<string, string>, rest: set<string>, k: Known, s: string)
    requires s in rest && rest <= attributes.Keys && s == NameOf(k)
    requires forall j: Known :: NameOf(j) == s ==> j == k
    ensures var was, now := attributes - rest, attributes - (rest - {s});
      FreeTexts(now) == FreeTexts(was) &&
      k !in NamedFields(was) && NamedFields(now) == NamedFields(was)[k := Text(attributes[s])]
  {
    var was := attributes - rest;
    assert attributes - (rest - {s}) == was[s := attributes[s]];
    NamedAdds(was, k, s, attributes[s]);
    FreeStays(was, k, s, attributes[s]);
  }

  lemma NamedAdds(was: map<string, string>, k: Known, s: string, text: string)
    requires s !in was && s == NameOf(k) && forall j: Known :: NameOf(j) == s ==> j == k
    ensures k !in NamedFields(was) && NamedFields(was[s := text]) == NamedFields(was)[k := Text(text)]
  {
    forall j: Known ensures NamedAt(was[s := text], j) == if j == k then Some(Text(text)) else NamedAt(was, j) {
      if j != k { assert NameOf(j) != s; }
    }
    assert NamedAt(was, k) == None;
    SameFields(NamedFields(was[s := text]), NamedFields(was)[k := Text(text)]);
  }

  function FieldAt(m: Fields, k: Known): Option<AnyValue> { if k in m then Some(m[k]) else None }

  function NamedAt(attributes: map<string, string>, k: Known): Option<AnyValue> { FieldAt(NamedFields(attributes), k) }

  lemma SameFields(m: Fields, n: Fields)
    requires forall k :: FieldAt(m, k) == FieldAt(n, k)
    ensures m == n
  {
    forall k ensures k in m <==> k in n { assert FieldAt(m, k) == FieldAt(n, k); }
    forall k | k in m ensures m[k] == n[k] { assert FieldAt(m, k) == FieldAt(n, k); }
  }

  lemma FreeStays(was: map<string, string>, k: Known, s: string, text: string)
    requires s !in was && s == NameOf(k)
    ensures FreeTexts(was[s := text]) == FreeTexts(was)
  {
    assert Reserved(s);
  }

  /** One more attribute, whose name is not a known key's. */
  lemma MergeFree(attributes: map<string, string>, rest: set<string>, s: string)
    requires s in rest && rest <= attributes.Keys && !Reserved(s)
    ensures var was, now := attributes - rest, attributes - (rest - {s});
      NamedFields(now) == NamedFields(was) && s !in FreeTexts(was) &&
      FreeTexts(now) == FreeTexts(was)[s := Text(attributes[s])]
  {}

  /** or_insert next to entries that win over it. */
  lemma OrInsert<K, V>(n: map<K, V>, own: map<K, V>, k: K, v: V)
    requires k !in n
    ensures n[k := v] + own == if k in n + own then n + own else (n + own)[k := v]
  {}

  method RawSpanToOtlp(raw: RawSpan) returns (r: Result<OtlpSpan>)
    ensures r == Packed(raw)
  {
    var ids := DecodeIds(raw);
    if ids.Failure? { return Failure(ids.error); }
    var attrs := MergeAttributes(FieldAttrs(raw), raw.attributes);
    return Success(OtlpSpan(ids.value, raw.startTime, raw.endTime, attrs));
  }

  /** The loop over the caller's attributes, in no particular order. */
  method MergeAttributes(own: Fields, attributes: map<string, string>) returns (attrs: Attrs)
    ensures attrs == Attrs(NamedFields(attributes) + own, FreeTexts(attributes))
  {
    var known, others := own, map[];
    var rest := attributes.Keys;
    while rest != {}
      invariant rest <= attributes.Keys
      invariant known == NamedFields(attributes - rest) + own && others == FreeTexts(attributes - rest)
      decreases |rest|
    {
      var s :| s in rest;
      if k: Known :| NameOf(k) == s {
        MergeNamed(attributes, rest, k);
        OrInsert(NamedFields(attributes - rest), own, k, Text(attributes[s]));
        if k !in known { known := known[k := Text(attributes[s])]; }
      } else {
        MergeFree(attributes, rest, s);
        if s !in others { others := others[s := Text(attributes[s])]; }
      }
      rest := rest - {s};
    }
    assert attributes - {} == attributes;
    return Attrs(known, others);
  }

  // ---- HalleyRawAdapter ----

  function StrAttr(m: Fields, k: Known): string {
    if k in m && m[k].Text? then m[k].s else ""
  }

  function U32Attr(m: Fields, k: Known): U32 {
    if k in m && AsU32(m[k]).Some? then AsU32(m[k]).value else 0
  }

  function JsonAttr(m: Fields, k: Known, num: string -> string): Option<Value> {
    if k !in m then None
    else if m[k].Text? && Parse(m[k].s).Some? then Some(Renumbered(Parse(m[k].s).value, num))
    else Some(ToJson(m[k]))
  }

  function UuidAttr(m: Fields, k: Known): Uuid {
    var u := ParseUuid(StrAttr(m, k));
    if u.Some? then u.value else NIL
  }

  predicate AllStrings(items: seq<Value>) { forall i | 0 <= i < |items| :: items[i].String? }

  function TextsOf(items: seq<Value>): (r: seq<string>)
    requires AllStrings(items)
    ensures |r| == |items| && forall i | 0 <= i < |r| :: r[i] == items[i].text
  {
    if items == [] then [] else [items[0].text] + TextsOf(items[1..])
  }

  /** from_str::<Vec<String>>, or the empty list. */
  function TagsFrom(v: Option<Value>): seq<string> {
    if v.Some? && v.value.Array? && AllStrings(v.value.items) then TextsOf(v.value.items) else []
  }

  function TagsAttr(m: Fields): seq<string> {
    if RunTags in m && m[RunTags].Text? then TagsFrom(Parse(m[RunTags].s)) else []
  }

  datatype CanonicalSpan = CanonicalSpan(
    ids: Ids, startTime: nat, endTime: nat, sourceDialect: string, texts: Texts,
    inputTokens: U32, outputTokens: U32, bodies: Bodies, projectId: Uuid, runTags: seq<string>,
    pricingVersionId: Uuid, status: SpanStatus, attributes: seq<Field>, isRunRoot: bool)

  predicate Detect(span: OtlpSpan) { StrAttr(span.attributes.known, SourceDialect) == DIALECT }

  function TextsAttr(m: Fields): Texts {
    Texts(StrAttr(m, DialectVersion), StrAttr(m, System), StrAttr(m, Operation), StrAttr(m, RequestModel),
      StrAttr(m, ResponseModel), StrAttr(m, FinishReason), StrAttr(m, ToolName), StrAttr(m, ToolSideEffect),
      StrAttr(m, RunName), StrAttr(m, RunEnv), StrAttr(m, ErrorMessage))
  }

  function BodiesAttr(m: Fields, num: string -> string): Bodies {
    Bodies(JsonAttr(m, InputBody, num), JsonAttr(m, OutputBody, num), JsonAttr(m, ToolInput, num),
           JsonAttr(m, ToolOutput, num))
  }

  function AttrStrings(others: map<string, AnyValue>): map<string, string> {
    map s | s in others :: ToAttrString(others[s])
  }

  /** str_attr of a key that is not a known one. */
  function OtherStr(others: map<string, AnyValue>, name: string): string {
    if name in others && others[name].Text? then others[name].s else ""
  }

  predicate IsAgentRoot(attrs: Attrs) {
    StrAttr(attrs.known, Operation) == "invoke_agent" || OtherStr(attrs.others, RUN_KIND) == "agent"
  }

  ghost function Normalized(span: OtlpSpan, num: string -> string): CanonicalSpan {
    var m := span.attributes.known;
    CanonicalSpan(
      span.ids, span.startTime, span.endTime, DIALECT, TextsAttr(m), U32Attr(m, InputTokens),
      U32Attr(m, OutputTokens), BodiesAttr(m, num), UuidAttr(m, ProjectId), TagsAttr(m),
      UuidAttr(m, PricingVersionId), StatusOf(StrAttr(m, Status)), Listing(AttrStrings(span.attributes.others)),
      IsAgentRoot(span.attributes))
  }

  lemma StringsStep(others: map<string, AnyValue>, rest: set<string>, s: string)
    requires s in rest && rest <= others.Keys
    ensures var now := AttrStrings(others - (rest - {s}));
      s in now && now[s] == ToAttrString(others[s]) && AttrStrings(others - rest) == now - {s}
  {}

  lemma AttrStringsStep(others: map<string, AnyValue>, rest: set<string>, s: string, extra: seq<Field>)
    requires s in rest && rest <= others.Keys
    requires Ascending(extra) && Lists(extra, AttrStrings(others - rest))
    ensures var after := BTreeInsert(Field(s, String(ToAttrString(others[s]))), extra);
      Ascending(after) && Lists(after, AttrStrings(others - (rest - {s})))
  {
    var f := Field(s, String(ToAttrString(others[s])));
    BTreeInsertPlaces(f, extra);
    PlaceAscending(f, extra);
    StringsStep(others, rest, s);
    PlaceLists(f, extra, AttrStrings(others - rest), AttrStrings(others - (rest - {s})));
  }

  /** The loop that keeps every attribute that is not a known field. */
  method ExtraAttributes(others: map<string, AnyValue>) returns (extra: seq<Field>)
    ensures extra == Listing(AttrStrings(others))
  {
    var rest := others.Keys;
    extra := [];
    while rest != {}
      invariant rest <= others.Keys
      invariant Ascending(extra) && Lists(extra, AttrStrings(others - rest))
      decreases |rest|
    {
      var s :| s in rest;
      AttrStringsStep(others, rest, s, extra);
      extra := BTreeInsert(Field(s, String(ToAttrString(others[s]))), extra);
      rest := rest - {s};
    }
    assert others - {} == others;
    ListingUnique(extra, AttrStrings(others));
  }

  method Normalize(span: OtlpSpan, num: string -> string) returns (c: CanonicalSpan)
    ensures c == Normalized(span, num)
  {
    var m := span.attributes.known;
    var extra := ExtraAttributes(span.attributes.others);
    return CanonicalSpan(
      span.ids, span.startTime, span.endTime, DIALECT, TextsAttr(m), U32Attr(m, InputTokens),
      U32Attr(m, OutputTokens), BodiesAttr(m, num), UuidAttr(m, ProjectId), TagsAttr(m),
      UuidAttr(m, PricingVersionId), StatusOf(StrAttr(m, Status)), extra, IsAgentRoot(span.attributes));
  }

  // ---- CanonicalSpan::into_rows ----

  function RowFrom(c: CanonicalSpan, sha: Sha): ObservationRow {
    ObservationRow(
      c.ids.trace, c.ids.span, c.ids.parent, c.ids.trace, c.projectId, c.startTime, c.endTime, c.sourceDialect,
      c.texts, c.inputTokens, c.outputTokens, HashOf(c.bodies.input, sha), HashOf(c.bodies.output, sha),
      HashOf(c.bodies.toolInput, sha), HashOf(c.bodies.toolOutput, sha), c.runTags, c.pricingVersionId,
      c.status, c.attributes, c.isRunRoot)
  }

  method IntoRows(c: CanonicalSpan, now: nat, sha: Sha) returns (r: Rows)
    ensures r == Rows(RowFrom(c, sha), BodyRows(c.bodies, c.projectId, now, sha))
  {
    var out := new BodyBuffer();
    var input, output, toolInput, toolOutput := out.HashBodies(c.bodies, c.projectId, now, sha);
    assert out.rows == BodyRows(c.bodies, c.projectId, now, sha);
    var row := ObservationRow(
      c.ids.trace, c.ids.span, c.ids.parent, c.ids.trace, c.projectId, c.startTime, c.endTime, c.sourceDialect,
      c.texts, c.inputTokens, c.outputTokens, input, output, toolInput, toolOutput, c.runTags,
      c.pricingVersionId, c.status, c.attributes, c.isRunRoot);
    return Rows(row, out.rows);
  }

  // ---- when the two paths agree ----

  ghost function ViaOtlp(raw: RawSpan, now: nat, sha: Sha, num: string -> string): Result<Rows> {
    match Packed(raw)
    case Failure(e) => Failure(e)
    case Success(span) =>
      var c := Normalized(span, num);
      Success(Rows(RowFrom(c, sha), BodyRows(c.bodies, c.projectId, now, sha)))
  }

  predicate Has(m: Fields, k: Known, v: AnyValue) { k in m && m[k] == v }

  predicate HoldsSource(m: Fields, raw: RawSpan) {
    Has(m, SourceDialect, Text(DIALECT)) && Has(m, DialectVersion, Text(raw.texts.dialectVersion)) &&
    Has(m, ProjectId, Text(UuidText(raw.projectId)))
  }

  predicate HoldsGenAi(m: Fields, raw: RawSpan) {
    Has(m, System, Text(raw.texts.system)) && Has(m, Operation, Text(raw.texts.operation)) &&
    Has(m, RequestModel, Text(raw.texts.requestModel)) && Has(m, ResponseModel, Text(raw.texts.responseModel)) &&
    Has(m, InputTokens, Int(raw.inputTokens)) && Has(m, OutputTokens, Int(raw.outputTokens)) &&
    Has(m, FinishReason, Text(raw.texts.finishReason))
  }

  predicate HoldsRun(m: Fields, raw: RawSpan) {
    Has(m, ToolName, Text(raw.texts.toolName)) && Has(m, ToolSideEffect, Text(raw.texts.toolSideEffect)) &&
    Has(m, RunName, Text(raw.texts.runName)) && Has(m, RunTags, Text(TagsText(raw.runTags))) &&
    Has(m, RunEnv, Text(raw.texts.runEnv)) &&
    Has(m, PricingVersionId, Text(UuidText(raw.pricingVersionId))) && Has(m, Status, Text(raw.status)) &&
    Has(m, ErrorMessage, Text(raw.texts.errorMessage))
  }

  /** What the span's own fields put under each key that is always set. */
  predicate HoldsFields(m: Fields, raw: RawSpan) { HoldsSource(m, raw) && HoldsGenAi(m, raw) && HoldsRun(m, raw) }

  /** An optional body: its JSON text, or nothing. */
  predicate HoldsBody(m: Fields, k: Known, body: Option<Value>) {
    if body.Some? then Has(m, k, Text(Print(body.value, Compact, 0))) else k !in m
  }

  predicate HoldsBodies(m: Fields, b: Bodies) {
    HoldsBody(m, InputBody, b.input) && HoldsBody(m, OutputBody, b.output) &&
    HoldsBody(m, ToolInput, b.toolInput) && HoldsBody(m, ToolOutput, b.toolOutput)
  }

  predicate NoBodies(m: Fields) { HoldsBodies(m, Bodies(None, None, None, None)) }

  lemma SourceHeld(raw: RawSpan)
    ensures var m := PutText(SourceAttrs(raw), RunId, raw.runId); HoldsSource(m, raw) && NoBodies(m)
  {}

  lemma GenAiHeld(m: Fields, raw: RawSpan)
    requires HoldsSource(m, raw) && NoBodies(m)
    ensures var n := GenAiAttrs(m, raw); HoldsSource(n, raw) && HoldsGenAi(n, raw) && NoBodies(n)
  {}

  predicate IsBodyKey(k: Known) { k.InputBody? || k.OutputBody? || k.ToolInput? || k.ToolOutput? }

  lemma BodiesHeld(m: Fields, b: Bodies)
    requires NoBodies(m)
    ensures HoldsBodies(BodyAttrs(m, b), b)
    ensures forall k | k in m && !IsBodyKey(k) :: Has(BodyAttrs(m, b), k, m[k])
  {}

  lemma RunHeld(m: Fields, raw: RawSpan)
    ensures HoldsRun(RunAttrs(m, raw), raw)
    ensures HoldsSource(m, raw) ==> HoldsSource(RunAttrs(m, raw), raw)
  {}

  lemma RunKeeps(m: Fields, raw: RawSpan)
    requires HoldsGenAi(m, raw) && HoldsBodies(m, raw.bodies)
    ensures HoldsGenAi(RunAttrs(m, raw), raw) && HoldsBodies(RunAttrs(m, raw), raw.bodies)
  {}

  lemma HeldAfterBodies(m: Fields, raw: RawSpan)
    requires HoldsSource(m, raw) && HoldsGenAi(m, raw) && HoldsBodies(m, raw.bodies)
    ensures HoldsFields(RunAttrs(m, raw), raw) && HoldsBodies(RunAttrs(m, raw), raw.bodies)
  {
    RunHeld(m, raw);
    RunKeeps(m, raw);
  }

  lemma HeldAfterGenAi(m: Fields, raw: RawSpan)
    requires HoldsSource(m, raw) && HoldsGenAi(m, raw) && NoBodies(m)
    ensures var n := RunAttrs(BodyAttrs(m, raw.bodies), raw); HoldsFields(n, raw) && HoldsBodies(n, raw.bodies)
  {
    BodiesHeld(m, raw.bodies);
    HeldAfterBodies(BodyAttrs(m, raw.bodies), raw);
  }

  lemma FieldsAreHeld(raw: RawSpan)
    ensures HoldsFields(FieldAttrs(raw), raw) && HoldsBodies(FieldAttrs(raw), raw.bodies)
  {
    var m := PutText(SourceAttrs(raw), RunId, raw.runId);
    SourceHeld(raw);
    GenAiHeld(m, raw);
    HeldAfterGenAi(GenAiAttrs(m, raw), raw);
  }

  /** A caller's attribute never replaces a field. */
  lemma FieldsWin(m: Fields, own: Fields, raw: RawSpan)
    requires HoldsFields(own, raw)
    ensures HoldsFields(m + own, raw)
  {}

  lemma TextsComeBack(m: Fields, raw: RawSpan)
    requires HoldsFields(m, raw)
    ensures TextsAttr(m) == raw.texts && StrAttr(m, Status) == raw.status
    ensures U32Attr(m, InputTokens) == raw.inputTokens && U32Attr(m, OutputTokens) == raw.outputTokens
  {}

  lemma UuidsComeBack(m: Fields, raw: RawSpan)
    requires HoldsFields(m, raw)
    ensures UuidAttr(m, ProjectId) == raw.projectId && UuidAttr(m, PricingVersionId) == raw.pricingVersionId
  {
    UuidRoundTrip(raw.projectId);
    UuidRoundTrip(raw.pricingVersionId);
  }

  /** A body printed and read again: only its number tokens may change. */
  function Reread(body: Option<Value>, num: string -> string): Option<Value> {
    match body case None => None case Some(v) => Some(Renumbered(v, num))
  }

  function RereadAll(b: Bodies, num: string -> string): Bodies {
    Bodies(Reread(b.input, num), Reread(b.output, num), Reread(b.toolInput, num), Reread(b.toolOutput, num))
  }

  lemma BodyComesBack(m: Fields, k: Known, body: Option<Value>, num: string -> string)
    requires HoldsBody(m, k, body) && BodyWellFormed(body)
    ensures JsonAttr(m, k, num) == Reread(body, num)
  {
    if body.Some? {
      var text := Print(body.value, Compact, 0);
      PrintThenParse(body.value, Compact, 0, "");
      assert text + "" == text;
    }
  }

  lemma TagsComeBack(m: Fields, tags: seq<string>)
    requires Has(m, RunTags, Text(TagsText(tags)))
    ensures TagsAttr(m) == tags
  {
    var v, text := TagsValue(tags), TagsText(tags);
    PrintThenParse(v, Compact, 0, "");
    assert text + "" == text;
    assert TextsOf(v.items) == tags;
  }

  predicate Unreserved(attributes: map<string, string>) { forall s | s in attributes :: !Reserved(s) }

  /** The adapter lists all attributes exactly when no name is reserved. */
  lemma AttributesComeBack(attributes: map<string, string>)
    ensures Listing(AttrStrings(FreeTexts(attributes))) == Listing(attributes) <==> Unreserved(attributes)
  {
    var kept := AttrStrings(FreeTexts(attributes));
    ListingInjective(kept, attributes);
    if Unreserved(attributes) { assert kept == attributes; }
    if kept == attributes {
      forall s | s in attributes ensures !Reserved(s) { assert s in kept; }
    }
  }

  lemma RootComesBack(m: Fields, raw: RawSpan)
    requires HoldsFields(m, raw)
    ensures IsAgentRoot(Attrs(m, FreeTexts(raw.attributes))) ==
      IsRunRoot(raw.texts.operation, Attribute(raw.attributes, RUN_KIND))
  {
    RunKindIsFree();
  }

  /** With no reserved name among the attributes, absent bodies stay absent and the others come back. */
  lemma BodiesComeBack(m: Fields, raw: RawSpan, num: string -> string)
    requires HoldsBodies(m, raw.bodies) && BodiesWellFormed(raw.bodies)
    ensures BodiesAttr(m, num) == RereadAll(raw.bodies, num)
  {
    BodyComesBack(m, InputBody, raw.bodies.input, num);
    BodyComesBack(m, OutputBody, raw.bodies.output, num);
    BodyComesBack(m, ToolInput, raw.bodies.toolInput, num);
    BodyComesBack(m, ToolOutput, raw.bodies.toolOutput, num);
  }

  /** The adapter finds every packed span its own. */
  lemma PackedIsDetected(raw: RawSpan)
    requires Packed(raw).Success?
    ensures Detect(Packed(raw).value)
  {
    FieldsAreHeld(raw);
    FieldsWin(NamedFields(raw.attributes), FieldAttrs(raw), raw);
  }

  /** What normalizing a packed span always restores. */
  predicate Restores(c: CanonicalSpan, raw: RawSpan, ids: Ids) {
    c.ids == ids && c.startTime == raw.startTime && c.endTime == raw.endTime && c.sourceDialect == DIALECT &&
    c.texts == raw.texts && c.inputTokens == raw.inputTokens && c.outputTokens == raw.outputTokens &&
    c.projectId == raw.projectId && c.runTags == raw.runTags && c.pricingVersionId == raw.pricingVersionId &&
    c.status == StatusOf(raw.status) &&
      c.isRunRoot == IsRunRoot(raw.texts.operation, Attribute(raw.attributes, RUN_KIND))
  }

  lemma NormalizeRestores(raw: RawSpan, span: OtlpSpan, num: string -> string)
    requires Packed(raw) == Success(span)
    ensures Restores(Normalized(span, num), raw, span.ids)
  {
    var m := NamedFields(raw.attributes) + FieldAttrs(raw);
    FieldsAreHeld(raw);
    FieldsWin(NamedFields(raw.attributes), FieldAttrs(raw), raw);
    TextsComeBack(m, raw);
    UuidsComeBack(m, raw);
    TagsComeBack(m, raw.runTags);
    RootComesBack(m, raw);
  }

  lemma NothingNamed(attributes: map<string, string>, own: Fields)
    requires Unreserved(attributes)
    ensures NamedFields(attributes) + own == own
  {}

  /** With no reserved name among the attributes the bodies come back, their numbers read again. */
  lemma NormalizeRestoresBodies(raw: RawSpan, span: OtlpSpan, num: string -> string)
    requires Packed(raw) == Success(span) && BodiesWellFormed(raw.bodies) && Unreserved(raw.attributes)
    ensures Normalized(span, num).bodies == RereadAll(raw.bodies, num)
  {
    FieldsAreHeld(raw);
    NothingNamed(raw.attributes, FieldAttrs(raw));
    BodiesComeBack(FieldAttrs(raw), raw, num);
  }

  // ---- numbers that change ----

  /** The body rows are the same exactly when the tokens are. */
  lemma RowChanges(body: Option<Value>, projectId: Uuid, now: nat, sha: Sha, num: string -> string)
    requires BodyWellFormed(body) && PrintsNumbers(num)
    ensures RowOf(Reread(body, num), projectId, now, sha) == RowOf(body, projectId, now, sha) <==>
      Reread(body, num) == body
  {
    if body.Some? {
      var v, w := body.value, Renumbered(body.value, num);
      RenumberedWellFormed(v, num);
      Parity(v);
      Parity(w);
      CanonicalInjective(v, w);
      if Same(v, w) { RenumberedIsSame(v, num); }
      var r, t := RowOf(Reread(body, num), projectId, now, sha), RowOf(body, projectId, now, sha);
      assert r[0].body == RustCanonical(w) && t[0].body == RustCanonical(v);
    }
  }

  lemma JoinedRowsEqual<T>(a: seq<T>, b: seq<T>, c: seq<T>, d: seq<T>, e: seq<T>, f: seq<T>, g: seq<T>, h: seq<T>)
    requires |a| == |e| && |b| == |f| && |c| == |g| && |d| == |h|
    ensures a + b + c + d == e + f + g + h <==> a == e && b == f && c == g && d == h
  {
    var x, y := a + b + c + d, e + f + g + h;
    if x == y {
      assert a == x[..|a|] && e == y[..|e|];
      assert b == x[|a|..|a| + |b|] && f == y[|a|..|a| + |b|];
      assert c == x[|a| + |b|..|a| + |b| + |c|] && g == y[|a| + |b|..|a| + |b| + |c|];
      assert d == x[|a| + |b| + |c|..] && h == y[|a| + |b| + |c|..];
    }
  }

  lemma RowsChange(b: Bodies, projectId: Uuid, now: nat, sha: Sha, num: string -> string)
    requires BodiesWellFormed(b) && PrintsNumbers(num)
    ensures BodyRows(RereadAll(b, num), projectId, now, sha) == BodyRows(b, projectId, now, sha) <==>
      RereadAll(b, num) == b
  {
    var c := RereadAll(b, num);
    RowChanges(b.input, projectId, now, sha, num);
    RowChanges(b.output, projectId, now, sha, num);
    RowChanges(b.toolInput, projectId, now, sha, num);
    RowChanges(b.toolOutput, projectId, now, sha, num);
    JoinedRowsEqual(
      RowOf(c.input, projectId, now, sha), RowOf(c.output, projectId, now, sha),
      RowOf(c.toolInput, projectId, now, sha), RowOf(c.toolOutput, projectId, now, sha),
      RowOf(b.input, projectId, now, sha), RowOf(b.output, projectId, now, sha),
      RowOf(b.toolInput, projectId, now, sha), RowOf(b.toolOutput, projectId, now, sha));
  }

  // ---- exactly when they agree ----

  /** The id of the run is the trace's: none was given, or the given one decodes to it. */
  predicate RunIsTrace(raw: RawSpan, ids: Ids) { DecodeRunId(raw.runId, ids.trace) == Success(ids.trace) }

  /** What has to hold of a span whose ids decode. */
  predicate Agrees(raw: RawSpan, ids: Ids, num: string -> string) {
    raw.sourceDialect == DIALECT && RunIsTrace(raw, ids) && Unreserved(raw.attributes) &&
    RereadAll(raw.bodies, num) == raw.bodies
  }

  lemma SuccessesAgree(raw: RawSpan, span: OtlpSpan, now: nat, sha: Sha, num: string -> string)
    requires Packed(raw) == Success(span) && BodiesWellFormed(raw.bodies) && PrintsNumbers(num)
    ensures ViaOtlp(raw, now, sha, num) == DirectRows(raw, now, sha) <==> Agrees(raw, span.ids, num)
  {
    NormalizeRestores(raw, span, num);
    AttributesComeBack(raw.attributes);
    if Unreserved(raw.attributes) { NormalizeRestoresBodies(raw, span, num); }
    var c := Normalized(span, num);
    RowsChange(raw.bodies, raw.projectId, now, sha, num);
    var run := DecodeRunId(raw.runId, span.ids.trace);
    if run.Success? {
      RowsAgree(c, raw, span.ids, run.value, sha);
    }
  }

  lemma RowsAgree(c: CanonicalSpan, raw: RawSpan, ids: Ids, run: seq<Byte>, sha: Sha)
    requires Restores(c, raw, ids)
    ensures var same := raw.sourceDialect == DIALECT && run == ids.trace && c.attributes == Listing(raw.attributes);
      (RowFrom(c, sha) == DirectRow(raw, ids, run, sha) ==> same) &&
      (same && c.bodies == raw.bodies ==> RowFrom(c, sha) == DirectRow(raw, ids, run, sha))
  {}

  /** The two paths give the same rows, bodies and errors exactly when an id is malformed, or the
      dialect is halley-raw, the run is the trace's, no attribute has a reserved name, and no number in a
      body changes when it is printed and read again. */
  lemma PathsAgreeExactly(raw: RawSpan, now: nat, sha: Sha, num: string -> string)
    requires BodiesWellFormed(raw.bodies) && PrintsNumbers(num)
    ensures ViaOtlp(raw, now, sha, num) == DirectRows(raw, now, sha) <==>
      DecodeIds(raw).Failure? || Agrees(raw, DecodeIds(raw).value, num)
  {
    if DecodeIds(raw).Success? { SuccessesAgree(raw, Packed(raw).value, now, sha, num); }
  }

  // ---- one example of each cause ----

  /** A span of the adapter's own dialect, without run, attributes or bodies. */
  predicate Plain(raw: RawSpan) {
    DecodeIds(raw).Success? && raw.sourceDialect == DIALECT && raw.runId.None? && raw.attributes == map[] &&
    raw.bodies == Bodies(None, None, None, None)
  }

  /** There are such spans. */
  lemma PlainSpan(texts: Texts) returns (raw: RawSpan)
    ensures Plain(raw)
  {
    raw := RawSpan(
      EncodeHex(NIL), EncodeHex(NIL[..8]), None, None, NIL, 0, 0, DIALECT, texts, 0, 0, Bodies(None, None, None, None),
      [], NIL, "ok", map[]);
    IdRoundTrip(NIL, "trace_id");
    IdRoundTrip(NIL[..8], "span_id");
  }

  lemma NotAgreeing(raw: RawSpan, now: nat, sha: Sha, num: string -> string)
    requires BodiesWellFormed(raw.bodies) && PrintsNumbers(num)
    requires DecodeIds(raw).Success? && !Agrees(raw, DecodeIds(raw).value, num)
    ensures ViaOtlp(raw, now, sha, num) != DirectRows(raw, now, sha)
  {
    PathsAgreeExactly(raw, now, sha, num);
  }

  lemma PlainSpanAgrees(raw: RawSpan, now: nat, sha: Sha, num: string -> string)
    requires Plain(raw) && PrintsNumbers(num)
    ensures ViaOtlp(raw, now, sha, num) == DirectRows(raw, now, sha)
  {
    PathsAgreeExactly(raw, now, sha, num);
  }

  /** Another dialect makes them differ: the adapter writes its own. */
  lemma DialectDiffers(raw: RawSpan, dialect: string, now: nat, sha: Sha, num: string -> string)
    requires Plain(raw) && PrintsNumbers(num) && dialect != DIALECT
    ensures var other := raw.(sourceDialect := dialect);
      ViaOtlp(other, now, sha, num) != DirectRows(other, now, sha)
  {
    NotAgreeing(raw.(sourceDialect := dialect), now, sha, num);
  }

  lemma RunDecodes(run: seq<Byte>, trace: seq<Byte>)
    requires |run| == 16
    ensures DecodeRunId(Some(EncodeHex(run)), trace) == Success(run)
  {
    IdRoundTrip(run, "run_id");
  }

  lemma OtherRunDiffers(raw: RawSpan, text: string, run: seq<Byte>, now: nat, sha: Sha, num: string -> string)
    requires Plain(raw) && PrintsNumbers(num) && run != DecodeIds(raw).value.trace
    requires DecodeRunId(Some(text), DecodeIds(raw).value.trace) == Success(run)
    ensures var other := raw.(runId := Some(text)); ViaOtlp(other, now, sha, num) != DirectRows(other, now, sha)
  {
    NotAgreeing(raw.(runId := Some(text)), now, sha, num);
  }

  /** So does a run of several traces: the adapter's run is the trace. */
  lemma RunDiffers(raw: RawSpan, run: seq<Byte>, now: nat, sha: Sha, num: string -> string)
    requires Plain(raw) && PrintsNumbers(num) && |run| == 16 && run != DecodeIds(raw).value.trace
    ensures var other := raw.(runId := Some(EncodeHex(run)));
      ViaOtlp(other, now, sha, num) != DirectRows(other, now, sha)
  {
    RunDecodes(run, DecodeIds(raw).value.trace);
    OtherRunDiffers(raw, EncodeHex(run), run, now, sha, num);
  }

  /** So does an attribute with a reserved name: the adapter drops it. */
  lemma ReservedNameDiffers(raw: RawSpan, name: string, text: string, now: nat, sha: Sha, num: string -> string)
    requires Plain(raw) && PrintsNumbers(num) && Reserved(name)
    ensures var other := raw.(attributes := map[name := text]);
      ViaOtlp(other, now, sha, num) != DirectRows(other, now, sha)
  {
    var other := raw.(attributes := map[name := text]);
    assert name in other.attributes;
    NotAgreeing(other, now, sha, num);
  }

  /** And so does a number that changes when it is printed and read again. */
  lemma NumberDiffers(raw: RawSpan, token: string, now: nat, sha: Sha, num: string -> string)
    requires Plain(raw) && PrintsNumbers(num) && IsNumber(token) && num(token) != token
    ensures var other := raw.(bodies := Bodies(Some(Number(token)), None, None, None));
      ViaOtlp(other, now, sha, num) != DirectRows(other, now, sha)
  {
    var other := raw.(bodies := Bodies(Some(Number(token)), None, None, None));
    assert RereadAll(other.bodies, num).input == Some(Number(num(token)));
    NotAgreeing(other, now, sha, num);
  }

  // ---- the endpoint ----

  /** The span endpoint: pack, normalize, put the API key's project in place of the span's, write rows.
      It gives what the span would give had it named that project. */
  method Convert(raw: RawSpan, keyProject: Uuid, now: nat, sha: Sha, num: string -> string) returns (r: Result<Rows>)
    ensures r == ViaOtlp(raw.(projectId := keyProject), now, sha, num)
  {
    var packed := RawSpanToOtlp(raw);
    ProjectReplaced(raw, keyProject, num);
    if packed.Failure? { return Failure(packed.error); }
    var c := Normalize(packed.value, num);
    c := c.(projectId := keyProject);
    var rows := IntoRows(c, now, sha);
    return Success(rows);
  }

  /** The project a span names shows in its normal form at one place only. */
  lemma ProjectReplaced(raw: RawSpan, p: Uuid, num: string -> string)
    ensures var other := raw.(projectId := p);
      match Packed(raw)
      case Failure(e) => Packed(other) == Failure(e)
      case Success(span) =>
        Packed(other).Success? && Normalized(Packed(other).value, num) == Normalized(span, num).(projectId := p)
  {
    var other := raw.(projectId := p);
    assert DecodeIds(other) == DecodeIds(raw);
    if DecodeIds(raw).Success? {
      NormalizeRestores(raw, Packed(raw).value, num);
      NormalizeRestores(other, Packed(other).value, num);
      SameBodies(raw, other, num);
    }
  }

  /** What a span's attributes hold under a body key depends on its bodies and attributes only. */
  lemma SameBodies(raw: RawSpan, other: RawSpan, num: string -> string)
    requires other.bodies == raw.bodies && other.attributes == raw.attributes
    ensures BodiesAttr(AllAttrs(other).known, num) == BodiesAttr(AllAttrs(raw).known, num)
  {
    FieldsAreHeld(raw);
    FieldsAreHeld(other);
    SameBody(NamedFields(raw.attributes), FieldAttrs(raw), FieldAttrs(other), InputBody, raw.bodies.input, num);
    SameBody(NamedFields(raw.attributes), FieldAttrs(raw), FieldAttrs(other), OutputBody, raw.bodies.output, num);
    SameBody(NamedFields(raw.attributes), FieldAttrs(raw), FieldAttrs(other), ToolInput, raw.bodies.toolInput, num);
    SameBody(NamedFields(raw.attributes), FieldAttrs(raw), FieldAttrs(other), ToolOutput, raw.bodies.toolOutput, num);
  }

  lemma SameBody(named: Fields, own: Fields, others: Fields, k: Known, body: Option<Value>, num: string -> string)
    requires HoldsBody(own, k, body) && HoldsBody(others, k, body)
    ensures JsonAttr(named + others, k, num) == JsonAttr(named + own, k, num)
  {}

  // ---- what the writers rely on ----

  /** A body row is stored under the address the SDK gives the same body, and its text reads back. */
  lemma BodyRowIsAddressed(body: Value, projectId: Uuid, now: nat, sha: Sha)
    requires WellFormed(body)
    ensures var r := BodyRowOf(body, projectId, now, sha);
      r.hash == CanonicalHash(sha, body) && Parse(r.body).Some? && Same(Parse(r.body).value, body)
  {
    Parity(body);
    CanonicalParses(body);
  }

  function HashList(hash: Option<Hex>): seq<Hex> { if hash.Some? then [hash.value] else [] }

  /** The body hashes a row names. */
  function NamedHashes(r: ObservationRow): seq<Hex> {
    HashList(r.inputHash) + HashList(r.outputHash) + HashList(r.toolInputHash) + HashList(r.toolOutputHash)
  }

  function WriterRows(bodies: seq<BodyRow>): seq<WriterBatch.BodyRow> {
    seq(|bodies|, i requires 0 <= i < |bodies| => WriterBatch.BodyRow(bodies[i].hash, bodies[i].body))
  }

  /** The rows as the stream carries them. */
  function PayloadOf(rows: Rows, key: string): WriterBatch.Payload {
    WriterBatch.Span(WriterBatch.ObsRow(key, NamedHashes(rows.row)), WriterRows(rows.bodies))
  }

  predicate HasRow(rows: seq<BodyRow>, h: Hex) { exists i | 0 <= i < |rows| :: rows[i].hash == h }

  lemma HasRowJoin(a: seq<BodyRow>, b: seq<BodyRow>, h: Hex)
    ensures HasRow(a + b, h) <==> HasRow(a, h) || HasRow(b, h)
  {
    if HasRow(a, h) {
      var i :| 0 <= i < |a| && a[i].hash == h;
      assert (a + b)[i].hash == h;
    }
    if HasRow(b, h) {
      var i :| 0 <= i < |b| && b[i].hash == h;
      assert (a + b)[|a| + i].hash == h;
    }
  }

  lemma NamedHasRow(body: Option<Value>, projectId: Uuid, now: nat, sha: Sha, h: Hex)
    ensures h in HashList(HashOf(body, sha)) <==> HasRow(RowOf(body, projectId, now, sha), h)
  {
    if body.Some? { assert RowOf(body, projectId, now, sha)[0].hash == sha(RustCanonical(body.value)); }
  }

  /** The hashes of the body rows are exactly those the observation row names. */
  lemma BodyRowsAreNamed(b: Bodies, r: ObservationRow, projectId: Uuid, now: nat, sha: Sha, h: Hex)
    requires r.inputHash == HashOf(b.input, sha) && r.outputHash == HashOf(b.output, sha)
    requires r.toolInputHash == HashOf(b.toolInput, sha) && r.toolOutputHash == HashOf(b.toolOutput, sha)
    ensures h in NamedHashes(r) <==> HasRow(BodyRows(b, projectId, now, sha), h)
  {
    var r0, r1 := RowOf(b.input, projectId, now, sha), RowOf(b.output, projectId, now, sha);
    var r2, r3 := RowOf(b.toolInput, projectId, now, sha), RowOf(b.toolOutput, projectId, now, sha);
    NamedHasRow(b.input, projectId, now, sha, h);
    NamedHasRow(b.output, projectId, now, sha, h);
    NamedHasRow(b.toolInput, projectId, now, sha, h);
    NamedHasRow(b.toolOutput, projectId, now, sha, h);
    HasRowJoin(r0, r1, h);
    HasRowJoin(r0 + r1, r2, h);
    HasRowJoin(r0 + r1 + r2, r3, h);
  }

  /** What the endpoint publishes carries every body its row names, which is what referential
      integrity at acknowledgement needs of it. */
  lemma ConvertedIsSelfContained(raw: RawSpan, now: nat, sha: Sha, num: string -> string, key: string)
    requires ViaOtlp(raw, now, sha, num).Success?
    ensures WriterProtocol.SelfContained(PayloadOf(ViaOtlp(raw, now, sha, num).value, key))
  {
    var rows := ViaOtlp(raw, now, sha, num).value;
    var c := Normalized(Packed(raw).value, num);
    forall h | h in NamedHashes(rows.row) ensures WriterBatch.HasHash(WriterRows(rows.bodies), h) {
      BodyRowsAreNamed(c.bodies, rows.row, c.projectId, now, sha, h);
      var i :| 0 <= i < |rows.bodies| && rows.bodies[i].hash == h;
      assert WriterRows(rows.bodies)[i].hash == h;
    }
  }

  /** What publishers send in this run are converted spans, or bytes no writer can decode. */
  ghost predicate PublishedByEndpoint(run: seq<WriterProtocol.Action>, sha: Sha, num: string -> string) {
    forall i | 0 <= i < |run| && run[i].Publish? && run[i].payload.Span? :: IsConverted(run[i].payload, sha, num)
  }

  ghost predicate IsConverted(p: WriterBatch.Payload, sha: Sha, num: string -> string) {
    exists raw, now, key :: ConvertsTo(raw, now, sha, num, key, p)
  }

  ghost predicate ConvertsTo(
      raw: RawSpan, now: nat, sha: Sha, num: string -> string, key: string, p: WriterBatch.Payload)
  {
    ViaOtlp(raw, now, sha, num).Success? && p == PayloadOf(ViaOtlp(raw, now, sha, num).value, key)
  }

  /** From the endpoint to ClickHouse: when the dead-letter queue accepts appends, an acknowledged
      entry is dead-lettered or its row is stored together with every body the row names. */
  lemma EndpointRunsResolve(run: seq<WriterProtocol.Action>, id: WriterBatch.Id, sha: Sha, num: string -> string)
    requires WriterProtocol.Possible(WriterProtocol.EMPTY, run) && WriterProtocol.DlqAvailable(run)
    requires PublishedByEndpoint(run, sha, num) && id in WriterProtocol.After(WriterProtocol.EMPTY, run).acked
    ensures var s := WriterProtocol.After(WriterProtocol.EMPTY, run); id in s.dlq || DeadLetters.Resolves(s, id)
  {
    forall i | 0 <= i < |run| && run[i].Publish? && run[i].payload.Span?
      ensures WriterProtocol.SelfContained(run[i].payload)
    {
      assert IsConverted(run[i].payload, sha, num);
      var raw, now, key :| ConvertsTo(raw, now, sha, num, key, run[i].payload);
      ConvertedIsSelfContained(raw, now, sha, num, key);
    }
    DeadLetters.AcknowledgedResolves(run, id);
  }
}
