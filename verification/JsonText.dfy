/** JSON text: the layouts json.dump and serde_json print, and a parser for the grammar of
    section 2 of RFC 8259. The main result is that the parser undoes every layout. */
module JsonText {
  import opened Common
  import opened Json

  /** Compact is serde_json's and the canonical layout, Spaced is json.dumps with its defaults
      (ASCII only), Indented is json.dump with indent=2 and ensure_ascii=False. */
  datatype Style = Compact | Spaced | Indented

  // ---- printing ----

  function HexDigit(n: nat): char
    requires n < 16
  {
    if n < 10 then '0' + n as char else 'a' + (n - 10) as char
  }

  function Hex4(n: nat): string
    requires n < 0x1_0000
  {
    [HexDigit(n / 0x1000), HexDigit(n / 0x100 % 16), HexDigit(n / 16 % 16), HexDigit(n % 16)]
  }

  function UnicodeEscape(n: nat): string
    requires n < 0x1_0000
  {
    "\\u" + Hex4(n)
  }

  /** One character of a string, escaped as section 7 of RFC 8259 allows. */
  function EscapeChar(c: char, ascii: bool): string {
    var n := c as nat;
    if c == '\"' then "\\\""
    else if c == '\\' then "\\\\"
    else if n == 8 then "\\b"
    else if n == 9 then "\\t"
    else if n == 10 then "\\n"
    else if n == 12 then "\\f"
    else if n == 13 then "\\r"
    else if n < 0x20 then UnicodeEscape(n)
    else if !ascii || n < 0x7F then [c]
    else if n < 0x1_0000 then UnicodeEscape(n)
    else UnicodeEscape(HighSurrogate(n)) + UnicodeEscape(LowSurrogate(n))
  }

  function EscapeAll(s: string, ascii: bool): string {
    if s == "" then "" else EscapeChar(s[0], ascii) + EscapeAll(s[1..], ascii)
  }

  function Quote(s: string, ascii: bool): string {
    "\"" + EscapeAll(s, ascii) + "\""
  }

  function Spaces(n: nat): string {
    if n == 0 then "" else " " + Spaces(n - 1)
  }

  /** What stands after an opening bracket and before a closing one. */
  function Gap(st: Style, depth: nat): string {
    if st.Indented? then "\n" + Spaces(2 * depth) else ""
  }

  /** What follows a comma. */
  function AfterComma(st: Style, depth: nat): string {
    if st.Spaced? then " " else Gap(st, depth)
  }

  function AfterColon(st: Style): string {
    if st.Compact? then "" else " "
  }

  function Print(v: Value, st: Style, depth: nat): string {
    match v
    case Null => "null"
    case Bool(b) => if b then "true" else "false"
    case Number(token) => token
    case String(text) => Quote(text, st.Spaced?)
    case Array(items) =>
      if items == [] then "[]"
      else "[" + Gap(st, depth + 1) + PrintItems(items, st, depth + 1) + Gap(st, depth) + "]"
    case Object(fields) =>
      if fields == [] then "{}"
      else "{" + Gap(st, depth + 1) + PrintFields(fields, st, depth + 1) + Gap(st, depth) + "}"
  }

  function PrintItems(items: seq<Value>, st: Style, depth: nat): string
    requires items != []
  {
    Print(items[0], st, depth) +
    if |items| == 1 then ""
    else "," + AfterComma(st, depth) + PrintItems(items[1..], st, depth)
  }

  function PrintFields(fields: seq<Field>, st: Style, depth: nat): string
    requires fields != []
  {
    Quote(fields[0].key, st.Spaced?) + ":" + AfterColon(st) + Print(fields[0].value, st, depth) +
    if |fields| == 1 then ""
    else "," + AfterComma(st, depth) + PrintFields(fields[1..], st, depth)
  }

  // ---- parsing ----

  datatype Parsed<+T> = Fail | Ok(value: T, rest: string)

  predicate IsSpace(c: char) { c == ' ' || c == '\t' || c == '\n' || c == '\r' }

  function Skip(s: string): (t: string)
    ensures |t| <= |s|
    ensures t != "" ==> !IsSpace(t[0])
  {
    if s != "" && IsSpace(s[0]) then Skip(s[1..]) else s
  }

  function HexValue(c: char): (r: Option<nat>)
    ensures r.Some? ==> r.value < 16
  {
    if '0' <= c <= '9' then Some(c as nat - '0' as nat)
    else if 'a' <= c <= 'f' then Some(c as nat - 'a' as nat + 10)
    else if 'A' <= c <= 'F' then Some(c as nat - 'A' as nat + 10)
    else None
  }

  function ParseHex4(s: string): (r: Parsed<nat>)
    ensures r.Ok? ==> r.value < 0x1_0000 && |r.rest| == |s| - 4
  {
    if |s| < 4 then Fail
    else match (HexValue(s[0]), HexValue(s[1]), HexValue(s[2]), HexValue(s[3]))
      case (Some(a), Some(b), Some(c), Some(d)) => Ok(((a * 16 + b) * 16 + c) * 16 + d, s[4..])
      case _ => Fail
  }

  /** The four hex digits after a backslash and a u, and the low surrogate after a high one. */
  function ParseUnicodeEscape(s: string): (r: Parsed<char>)
    ensures r.Ok? ==> |r.rest| < |s|
  {
    match ParseHex4(s)
    case Fail => Fail
    case Ok(n, rest) =>
      if 0xD800 <= n < 0xDC00 then
        if |rest| >= 2 && rest[0] == '\\' && rest[1] == 'u' then
          match ParseHex4(rest[2..])
          case Ok(m, rest') =>
            if 0xDC00 <= m < 0xE000 then
              Ok((0x1_0000 + (n - 0xD800) * 0x400 + (m - 0xDC00)) as char, rest')
            else Fail
          case Fail => Fail
        else Fail
      else if 0xDC00 <= n < 0xE000 then Fail
      else Ok(n as char, rest)
  }

  /** One possibly escaped character of a string. */
  function ParseChar(s: string): (r: Parsed<char>)
    ensures r.Ok? ==> |r.rest| < |s|
  {
    if s == "" || s[0] < ' ' then Fail
    else if s[0] != '\\' then Ok(s[0], s[1..])
    else if |s| == 1 then Fail
    else match s[1]
      case '\"' => Ok('\"', s[2..])
      case '\\' => Ok('\\', s[2..])
      case '/' => Ok('/', s[2..])
      case 'b' => Ok(8 as char, s[2..])
      case 't' => Ok('\t', s[2..])
      case 'n' => Ok('\n', s[2..])
      case 'f' => Ok(12 as char, s[2..])
      case 'r' => Ok('\r', s[2..])
      case 'u' => ParseUnicodeEscape(s[2..])
      case _ => Fail
  }

  /** The rest of a string after its opening quotation mark. */
  function ParseChars(s: string): (r: Parsed<string>)
    ensures r.Ok? ==> |r.rest| < |s|
    decreases |s|
  {
    if s != "" && s[0] == '\"' then Ok("", s[1..])
    else match ParseChar(s)
      case Fail => Fail
      case Ok(c, rest) =>
        match ParseChars(rest)
        case Fail => Fail
        case Ok(text, rest') => Ok([c] + text, rest')
  }

  function NumberRun(s: string): (n: nat)
    ensures n <= |s| && forall i | 0 <= i < n :: IsNumberChar(s[i])
    ensures n < |s| ==> !IsNumberChar(s[n])
  {
    if s != "" && IsNumberChar(s[0]) then 1 + NumberRun(s[1..]) else 0
  }

  function ParseNumber(s: string): (r: Parsed<Value>)
    ensures r.Ok? ==> |r.rest| < |s|
  {
    var n := NumberRun(s);
    if n > 0 && IsNumber(s[..n]) then Ok(Number(s[..n]), s[n..]) else Fail
  }

  predicate Starts(s: string, c: char) { s != "" && s[0] == c }

  function ParseWord(s: string, word: string, v: Value): (r: Parsed<Value>)
    requires word != ""
    ensures r.Ok? ==> |r.rest| < |s|
  {
    if word <= s then Ok(v, s[|word|..]) else Fail
  }

  function ParseValue(s: string): (r: Parsed<Value>)
    ensures r.Ok? ==> |r.rest| < |s|
    decreases |s|, 0
  {
    var t := Skip(s);
    if t == "" then Fail
    else match t[0]
      case '\"' => (match ParseChars(t[1..]) case Fail => Fail case Ok(text, rest) => Ok(String(text), rest))
      case '[' =>
        if Starts(Skip(t[1..]), ']') then Ok(Array([]), Skip(t[1..])[1..])
        else (match ParseItems(t[1..]) case Fail => Fail case Ok(items, rest) => Ok(Array(items), rest))
      case '{' =>
        if Starts(Skip(t[1..]), '}') then Ok(Object([]), Skip(t[1..])[1..])
        else (match ParseFields(t[1..]) case Fail => Fail case Ok(fields, rest) => Ok(Object(fields), rest))
      case 't' => ParseWord(t, "true", Bool(true))
      case 'f' => ParseWord(t, "false", Bool(false))
      case 'n' => ParseWord(t, "null", Null)
      case _ => ParseNumber(t)
  }

  function ParseItems(s: string): (r: Parsed<seq<Value>>)
    ensures r.Ok? ==> |r.rest| < |s|
    decreases |s|, 1
  {
    match ParseValue(s)
    case Fail => Fail
    case Ok(v, rest) =>
      var t := Skip(rest);
      if Starts(t, ']') then Ok([v], t[1..])
      else if Starts(t, ',') then
        match ParseItems(t[1..])
        case Fail => Fail
        case Ok(items, rest') => Ok([v] + items, rest')
      else Fail
  }

  function ParseFields(s: string): (r: Parsed<seq<Field>>)
    ensures r.Ok? ==> |r.rest| < |s|
    decreases |s|, 1
  {
    match ParseField(s)
    case Fail => Fail
    case Ok(f, rest) =>
      var t := Skip(rest);
      if Starts(t, '}') then Ok([f], t[1..])
      else if Starts(t, ',') then
        match ParseFields(t[1..])
        case Fail => Fail
        case Ok(fields, rest') => Ok([f] + fields, rest')
      else Fail
  }

  function ParseField(s: string): (r: Parsed<Field>)
    ensures r.Ok? ==> |r.rest| < |s|
    decreases |s|, 0
  {
    var t := Skip(s);
    if !Starts(t, '\"') then Fail
    else match ParseChars(t[1..])
      case Fail => Fail
      case Ok(key, rest) =>
        var u := Skip(rest);
        if !Starts(u, ':') then Fail
        else match ParseValue(u[1..])
          case Fail => Fail
          case Ok(v, rest') => Ok(Field(key, v), rest')
  }

  /** A whole JSON text. */
  function Parse(s: string): Option<Value> {
    match ParseValue(s)
    case Ok(v, rest) => if Skip(rest) == "" then Some(v) else None
    case Fail => None
  }

  // ---- the parser undoes the printer ----

  lemma HexDigitRoundTrip(n: nat)
    requires n < 16
    ensures HexValue(HexDigit(n)) == Some(n)
  {}

  lemma HexDigitsOf(n: nat)
    ensures n == ((n / 0x1000 * 16 + n / 0x100 % 16) * 16 + n / 16 % 16) * 16 + n % 16
  {
    assert n / 0x100 / 16 == n / 0x1000;
    assert n / 16 / 16 == n / 0x100;
  }

  lemma HexRoundTrip(n: nat, rest: string)
    requires n < 0x1_0000
    ensures ParseHex4(Hex4(n) + rest) == Ok(n, rest)
  {
    var s := Hex4(n) + rest;
    HexDigitRoundTrip(n / 0x1000);
    HexDigitRoundTrip(n / 0x100 % 16);
    HexDigitRoundTrip(n / 16 % 16);
    HexDigitRoundTrip(n % 16);
    HexDigitsOf(n);
    assert s[4..] == rest;
  }

  lemma UnicodeEscapeRoundTrip(n: nat, rest: string)
    requires n < 0x1_0000 && !(0xD800 <= n < 0xE000)
    ensures ParseChar(UnicodeEscape(n) + rest) == Ok(n as char, rest)
  {
    var s := UnicodeEscape(n) + rest;
    assert s[0] == '\\' && s[1] == 'u' && s[2..] == Hex4(n) + rest;
    HexRoundTrip(n, rest);
  }

  function HighSurrogate(n: nat): nat
    requires 0x1_0000 <= n < 0x11_0000
    ensures 0xD800 <= HighSurrogate(n) < 0xDC00
  {
    0xD800 + (n - 0x1_0000) / 0x400
  }

  function LowSurrogate(n: nat): nat
    requires 0x1_0000 <= n < 0x11_0000
    ensures 0xDC00 <= LowSurrogate(n) < 0xE000
  {
    0xDC00 + (n - 0x1_0000) % 0x400
  }

  lemma SurrogateStep(s: string, hi: nat, t: string, lo: nat, rest: string)
    requires 0xD800 <= hi < 0xDC00 && 0xDC00 <= lo < 0xE000
    requires ParseHex4(s) == Ok(hi, "\\u" + t) && ParseHex4(t) == Ok(lo, rest)
    ensures ParseUnicodeEscape(s) == Ok((0x1_0000 + (hi - 0xD800) * 0x400 + (lo - 0xDC00)) as char, rest)
  {
    assert ("\\u" + t)[2..] == t;
  }

  lemma SurrogatesRoundTrip(n: nat, rest: string)
    requires 0x1_0000 <= n < 0x11_0000
    ensures ParseUnicodeEscape(Hex4(HighSurrogate(n)) + (UnicodeEscape(LowSurrogate(n)) + rest))
         == Ok(n as char, rest)
  {
    var low := Hex4(LowSurrogate(n)) + rest;
    var tail := UnicodeEscape(LowSurrogate(n)) + rest;
    assert tail == "\\u" + low;
    HexRoundTrip(HighSurrogate(n), tail);
    HexRoundTrip(LowSurrogate(n), rest);
    SurrogateStep(Hex4(HighSurrogate(n)) + tail, HighSurrogate(n), low, LowSurrogate(n), rest);
  }

  lemma LongEscapeRoundTrip(c: char, rest: string)
    requires 0x1_0000 <= c as nat
    ensures ParseChar(EscapeChar(c, true) + rest) == Ok(c, rest)
  {
    var n := c as nat;
    var t := Hex4(HighSurrogate(n)) + (UnicodeEscape(LowSurrogate(n)) + rest);
    assert EscapeChar(c, true) + rest == "\\u" + t;
    ParseEscapeU(t);
    SurrogatesRoundTrip(n, rest);
  }

  lemma ParseEscapeU(t: string)
    ensures ParseChar("\\u" + t) == ParseUnicodeEscape(t)
  {
    assert ("\\u" + t)[2..] == t;
  }

  predicate ShortEscape(c: char, ascii: bool) {
    c as nat in {8, 9, 10, 12, 13} || (0x20 <= c as nat && (!ascii || c as nat < 0x7F))
  }

  lemma ShortEscapeRoundTrip(c: char, ascii: bool, rest: string)
    requires ShortEscape(c, ascii)
    ensures ParseChar(EscapeChar(c, ascii) + rest) == Ok(c, rest)
  {}

  lemma EscapeRoundTrip(c: char, ascii: bool, rest: string)
    ensures ParseChar(EscapeChar(c, ascii) + rest) == Ok(c, rest)
  {
    if ShortEscape(c, ascii) {
      ShortEscapeRoundTrip(c, ascii, rest);
    } else if c as nat < 0x1_0000 {
      UnicodeEscapeRoundTrip(c as nat, rest);
    } else {
      LongEscapeRoundTrip(c, rest);
    }
  }

  lemma EscapeStart(c: char, ascii: bool)
    ensures EscapeChar(c, ascii) != "" && EscapeChar(c, ascii)[0] != '\"'
  {}

  /** Reading a quoted string back gives the string, whatever follows it. */
  lemma {:induction false} QuoteRoundTrip(s: string, ascii: bool, rest: string)
    ensures ParseChars(EscapeAll(s, ascii) + "\"" + rest) == Ok(s, rest)
  {
    var t := EscapeAll(s, ascii) + "\"" + rest;
    if s == "" {
      assert t[1..] == rest;
    } else {
      var e, tail := EscapeChar(s[0], ascii), EscapeAll(s[1..], ascii) + "\"" + rest;
      assert t == e + tail;
      EscapeStart(s[0], ascii);
      EscapeRoundTrip(s[0], ascii, tail);
      QuoteRoundTrip(s[1..], ascii, rest);
      assert [s[0]] + s[1..] == s;
    }
  }

  predicate AllSpace(s: string) { forall i | 0 <= i < |s| :: IsSpace(s[i]) }

  lemma {:induction false} SkipSpace(w: string, t: string)
    requires AllSpace(w) && (t == "" || !IsSpace(t[0]))
    ensures Skip(w + t) == t
  {
    if w == "" {
      assert w + t == t;
    } else {
      assert (w + t)[1..] == w[1..] + t;
      SkipSpace(w[1..], t);
    }
  }

  lemma {:induction n} SpacesAreSpace(n: nat)
    ensures AllSpace(Spaces(n))
  {}

  lemma LayoutIsSpace(st: Style, depth: nat)
    ensures AllSpace(Gap(st, depth)) && AllSpace(AfterComma(st, depth)) && AllSpace(AfterColon(st))
  {
    SpacesAreSpace(2 * depth);
  }

  lemma {:induction false} NumberRunStops(token: string, rest: string)
    requires AllNumberChars(token) && (rest == "" || !IsNumberChar(rest[0]))
    ensures NumberRun(token + rest) == |token|
  {
    if token != "" {
      assert (token + rest)[1..] == token[1..] + rest;
      NumberRunStops(token[1..], rest);
    } else {
      assert token + rest == rest;
    }
  }

  /** The text may follow a value: a number token must not run into it. */
  predicate Ends(rest: string) { rest == "" || !IsNumberChar(rest[0]) }

  predicate OpensValue(c: char) {
    c in {'n', 't', 'f', '\"', '[', '{', '-'} || IsDigit(c)
  }

  lemma PrintStart(v: Value, st: Style, depth: nat)
    requires WellFormed(v)
    ensures Print(v, st, depth) != "" && OpensValue(Print(v, st, depth)[0])
  {}

  /** Parsing looks at the text from its first non-space character. */
  lemma ParseAfterSpace(w: string, t: string)
    requires AllSpace(w) && t != "" && !IsSpace(t[0])
    ensures ParseValue(w + t) == ParseValue(t)
  {
    SkipSpace(w, t);
    SkipSpace("", t);
    assert "" + t == t;
  }

  lemma WordRoundTrip(word: string, v: Value, rest: string)
    requires (word, v) in {("null", Null), ("true", Bool(true)), ("false", Bool(false))}
    ensures ParseValue(word + rest) == Ok(v, rest)
  {}

  lemma ParseNumberToken(token: string, rest: string)
    requires IsNumber(token) && Ends(rest)
    ensures ParseNumber(token + rest) == Ok(Number(token), rest)
  {
    NumberChars(token);
    NumberRunStops(token, rest);
    assert (token + rest)[..|token|] == token && (token + rest)[|token|..] == rest;
  }

  lemma NumberRoundTrip(token: string, rest: string)
    requires IsNumber(token) && Ends(rest)
    ensures ParseValue(token + rest) == Ok(Number(token), rest)
  {
    var s := token + rest;
    ParseNumberToken(token, rest);
    NumberChars(token);
    var c := token[0];
    assert s[0] == c && !IsSpace(c) && c !in {'\"', '[', '{', 't', 'f', 'n'};
    assert Skip(s) == s;
  }

  lemma StringRoundTrip(text: string, ascii: bool, rest: string)
    ensures ParseValue(Quote(text, ascii) + rest) == Ok(String(text), rest)
  {
    QuotedStart(text, ascii, rest);
    ParseStringStep(Quote(text, ascii) + rest, text, rest);
  }

  lemma ParseStringStep(s: string, text: string, rest: string)
    requires s != "" && s[0] == '\"' && ParseChars(s[1..]) == Ok(text, rest)
    ensures ParseValue(s) == Ok(String(text), rest)
  {}

  /** Parsing what Print wrote gives the value back and leaves what follows. */
  lemma {:induction false} PrintRoundTrip(v: Value, st: Style, depth: nat, rest: string)
    requires WellFormed(v) && Ends(rest)
    ensures ParseValue(Print(v, st, depth) + rest) == Ok(v, rest)
    decreases v, 1
  {
    match v
    case Null => WordRoundTrip("null", v, rest);
    case Bool(b) => WordRoundTrip(if b then "true" else "false", v, rest);
    case Number(token) => NumberRoundTrip(token, rest);
    case String(text) => StringRoundTrip(text, st.Spaced?, rest);
    case Array(items) => ArrayRoundTrip(v, st, depth, rest);
    case Object(fields) => ObjectRoundTrip(v, st, depth, rest);
  }

  // One parser step at a time.

  lemma ParseArrayStep(before: string, text: string, items: seq<Value>, rest: string)
    requires AllSpace(before) && text != "" && !IsSpace(text[0]) && text[0] != ']'
    requires ParseItems(before + text) == Ok(items, rest)
    ensures ParseValue("[" + (before + text)) == Ok(Array(items), rest)
  {}

  lemma ParseObjectStep(before: string, text: string, fields: seq<Field>, rest: string)
    requires AllSpace(before) && text != "" && !IsSpace(text[0]) && text[0] != '}'
    requires ParseFields(before + text) == Ok(fields, rest)
    ensures ParseValue("{" + (before + text)) == Ok(Object(fields), rest)
  {
    var s := "{" + (before + text);
    SkipSpace(before, text);
    assert Skip(s) == s && s[0] == '{' && s[1..] == before + text;
  }

  lemma ParseEmpty(rest: string)
    ensures ParseValue("[]" + rest) == Ok(Array([]), rest)
    ensures ParseValue("{}" + rest) == Ok(Object([]), rest)
  {}

  lemma LastItem(s: string, v: Value, after: string, rest: string)
    requires AllSpace(after) && ParseValue(s) == Ok(v, after + ("]" + rest))
    ensures ParseItems(s) == Ok([v], rest)
  {
    SkipSpace(after, "]" + rest);
    assert ("]" + rest)[1..] == rest;
  }

  lemma NextItem(s: string, v: Value, tail: string, items: seq<Value>, rest: string)
    requires ParseValue(s) == Ok(v, "," + tail) && ParseItems(tail) == Ok(items, rest)
    ensures ParseItems(s) == Ok([v] + items, rest)
  {}

  lemma LastField(s: string, f: Field, after: string, rest: string)
    requires AllSpace(after) && ParseField(s) == Ok(f, after + ("}" + rest))
    ensures ParseFields(s) == Ok([f], rest)
  {
    SkipSpace(after, "}" + rest);
    assert ("}" + rest)[1..] == rest;
  }

  lemma NextField(s: string, f: Field, tail: string, fields: seq<Field>, rest: string)
    requires ParseField(s) == Ok(f, "," + tail) && ParseFields(tail) == Ok(fields, rest)
    ensures ParseFields(s) == Ok([f] + fields, rest)
  {
    assert Skip("," + tail) == "," + tail && ("," + tail)[1..] == tail;
  }

  lemma QuotedStart(key: string, ascii: bool, tail: string)
    ensures var t := Quote(key, ascii) + tail;
            t[0] == '\"' && ParseChars(t[1..]) == Ok(key, tail)
  {
    var t := Quote(key, ascii) + tail;
    assert t[1..] == EscapeAll(key, ascii) + "\"" + tail;
    QuoteRoundTrip(key, ascii, tail);
  }

  lemma FieldStep(s: string, key: string, ascii: bool, tail: string, v: Value, rest: string)
    requires Skip(s) == Quote(key, ascii) + (":" + tail) && ParseValue(tail) == Ok(v, rest)
    ensures ParseField(s) == Ok(Field(key, v), rest)
  {
    QuotedStart(key, ascii, ":" + tail);
    assert Skip(":" + tail) == ":" + tail && (":" + tail)[1..] == tail;
  }

  lemma EndsAfter(w: string, c: char, rest: string)
    requires AllSpace(w) && !IsNumberChar(c)
    ensures Ends(w + ([c] + rest))
  {}

  lemma ItemsText(items: seq<Value>, st: Style, depth: nat, end: string)
    requires |items| > 1
    ensures PrintItems(items, st, depth) + end
         == Print(items[0], st, depth) + ("," + (AfterComma(st, depth) + (PrintItems(items[1..], st, depth) + end)))
  {}

  lemma LastItemText(items: seq<Value>, st: Style, depth: nat, end: string)
    requires |items| == 1
    ensures PrintItems(items, st, depth) + end == Print(items[0], st, depth) + end
  {}

  lemma LastFieldText(fields: seq<Field>, st: Style, depth: nat, end: string)
    requires |fields| == 1
    ensures PrintFields(fields, st, depth) + end
         == Quote(fields[0].key, st.Spaced?) + ":" + AfterColon(st) + Print(fields[0].value, st, depth) + end
  {}

  lemma Bracketed(open: string, before: string, body: string, after: string, close: string, rest: string)
    ensures open + before + body + after + close + rest == open + (before + (body + (after + (close + rest))))
  {}

  lemma ArrayText(items: seq<Value>, st: Style, depth: nat, rest: string)
    requires items != []
    ensures Print(Array(items), st, depth) + rest
         == "[" + (Gap(st, depth + 1) + (PrintItems(items, st, depth + 1) + (Gap(st, depth) + ("]" + rest))))
  {
    Bracketed("[", Gap(st, depth + 1), PrintItems(items, st, depth + 1), Gap(st, depth), "]", rest);
  }

  lemma ObjectText(fields: seq<Field>, st: Style, depth: nat, rest: string)
    requires fields != []
    ensures Print(Object(fields), st, depth) + rest
         == "{" + (Gap(st, depth + 1) + (PrintFields(fields, st, depth + 1) + (Gap(st, depth) + ("}" + rest))))
  {
    Bracketed("{", Gap(st, depth + 1), PrintFields(fields, st, depth + 1), Gap(st, depth), "}", rest);
  }

  lemma FieldText(f: Field, st: Style, depth: nat, end: string)
    ensures Quote(f.key, st.Spaced?) + ":" + AfterColon(st) + Print(f.value, st, depth) + end
         == Quote(f.key, st.Spaced?) + (":" + (AfterColon(st) + (Print(f.value, st, depth) + end)))
  {}

  lemma FieldsText(fields: seq<Field>, st: Style, depth: nat, end: string)
    requires |fields| > 1
    ensures PrintFields(fields, st, depth) + end
         == Quote(fields[0].key, st.Spaced?) + ":" + AfterColon(st) + Print(fields[0].value, st, depth)
            + ("," + (AfterComma(st, depth) + (PrintFields(fields[1..], st, depth) + end)))
  {}

  lemma {:induction false} ArrayRoundTrip(v: Value, st: Style, depth: nat, rest: string)
    requires v.Array? && WellFormed(v)
    ensures ParseValue(Print(v, st, depth) + rest) == Ok(v, rest)
    decreases v, 0
  {
    if v.items == [] {
      ParseEmpty(rest);
    } else {
      var before, after := Gap(st, depth + 1), Gap(st, depth);
      LayoutIsSpace(st, depth + 1);
      LayoutIsSpace(st, depth);
      ItemsRoundTrip(v.items, st, depth + 1, before, after, rest);
      ItemsStart(v.items, st, depth + 1, after + ("]" + rest));
      ParseArrayStep(before, PrintItems(v.items, st, depth + 1) + (after + ("]" + rest)), v.items, rest);
      ArrayText(v.items, st, depth, rest);
    }
  }

  lemma ItemsStart(items: seq<Value>, st: Style, depth: nat, end: string)
    requires items != [] && WellFormed(items[0])
    ensures var s := PrintItems(items, st, depth) + end; s != "" && !IsSpace(s[0]) && s[0] != ']'
  {
    PrintStart(items[0], st, depth);
    assert (PrintItems(items, st, depth) + end)[0] == Print(items[0], st, depth)[0];
  }

  lemma {:induction false} ItemRoundTrip(v: Value, st: Style, depth: nat, before: string, end: string)
    requires WellFormed(v) && AllSpace(before) && Ends(end)
    ensures ParseValue(before + (Print(v, st, depth) + end)) == Ok(v, end)
    decreases v, 2
  {
    PrintStart(v, st, depth);
    ParseAfterSpace(before, Print(v, st, depth) + end);
    PrintRoundTrip(v, st, depth, end);
  }

  /** The head of a longer array, given that the rest of it parses. */
  lemma {:induction false} ConsItemRoundTrip(
      items: seq<Value>, st: Style, depth: nat, before: string, end: string, rest: string)
    requires |items| > 1 && WellFormed(items[0]) && AllSpace(before)
    requires ParseItems(AfterComma(st, depth) + (PrintItems(items[1..], st, depth) + end)) == Ok(items[1..], rest)
    ensures ParseItems(before + (PrintItems(items, st, depth) + end)) == Ok(items, rest)
    decreases items, 1
  {
    var tail := AfterComma(st, depth) + (PrintItems(items[1..], st, depth) + end);
    ItemsText(items, st, depth, end);
    ItemRoundTrip(items[0], st, depth, before, "," + tail);
    HeadAndRest(items);
    NextItem(before + (PrintItems(items, st, depth) + end), items[0], tail, items[1..], rest);
  }

  lemma {:induction false} LastItemRoundTrip(
      items: seq<Value>, st: Style, depth: nat, before: string, after: string, rest: string)
    requires |items| == 1 && WellFormed(items[0]) && AllSpace(before) && AllSpace(after)
    ensures ParseItems(before + (PrintItems(items, st, depth) + (after + ("]" + rest)))) == Ok(items, rest)
    decreases items, 1
  {
    var end := after + ("]" + rest);
    EndsAfter(after, ']', rest);
    LastItemText(items, st, depth, end);
    ItemRoundTrip(items[0], st, depth, before, end);
    LastItem(before + (PrintItems(items, st, depth) + end), items[0], after, rest);
    assert [items[0]] == items;
  }

  lemma {:induction false} ItemsRoundTrip(
      items: seq<Value>, st: Style, depth: nat, before: string, after: string, rest: string)
    requires items != [] && forall i | 0 <= i < |items| :: WellFormed(items[i])
    requires AllSpace(before) && AllSpace(after)
    ensures ParseItems(before + (PrintItems(items, st, depth) + (after + ("]" + rest)))) == Ok(items, rest)
    decreases items, 2
  {
    if |items| == 1 {
      LastItemRoundTrip(items, st, depth, before, after, rest);
    } else {
      LayoutIsSpace(st, depth);
      ItemsRoundTrip(items[1..], st, depth, AfterComma(st, depth), after, rest);
      ConsItemRoundTrip(items, st, depth, before, after + ("]" + rest), rest);
    }
  }

  lemma FieldsStart(fields: seq<Field>, st: Style, depth: nat, end: string)
    requires fields != []
    ensures var s := PrintFields(fields, st, depth) + end; s != "" && s[0] == '\"'
  {}

  lemma {:induction false} ObjectRoundTrip(v: Value, st: Style, depth: nat, rest: string)
    requires v.Object? && WellFormed(v)
    ensures ParseValue(Print(v, st, depth) + rest) == Ok(v, rest)
    decreases v, 0
  {
    if v.fields == [] {
      ParseEmpty(rest);
    } else {
      var before, after := Gap(st, depth + 1), Gap(st, depth);
      LayoutIsSpace(st, depth + 1);
      LayoutIsSpace(st, depth);
      FieldsRoundTrip(v.fields, st, depth + 1, before, after, rest);
      FieldsStart(v.fields, st, depth + 1, after + ("}" + rest));
      ParseObjectStep(before, PrintFields(v.fields, st, depth + 1) + (after + ("}" + rest)), v.fields, rest);
      ObjectText(v.fields, st, depth, rest);
    }
  }

  lemma {:induction false} FieldRoundTrip(f: Field, st: Style, depth: nat, before: string, end: string)
    requires WellFormed(f.value) && AllSpace(before) && Ends(end)
    ensures ParseField(before + (Quote(f.key, st.Spaced?) + ":" + AfterColon(st) + Print(f.value, st, depth) + end))
         == Ok(f, end)
    decreases f, 0
  {
    var text := Quote(f.key, st.Spaced?) + ":" + AfterColon(st) + Print(f.value, st, depth) + end;
    var value := Print(f.value, st, depth) + end;
    FieldText(f, st, depth, end);
    assert text[0] == '\"';
    SkipSpace(before, text);
    LayoutIsSpace(st, depth);
    PrintStart(f.value, st, depth);
    ParseAfterSpace(AfterColon(st), value);
    PrintRoundTrip(f.value, st, depth, end);
    FieldStep(before + text, f.key, st.Spaced?, AfterColon(st) + value, f.value, end);
  }

  /** The first field of a longer object, given that the rest of it parses. */
  lemma {:induction false} ConsFieldRoundTrip(
      fields: seq<Field>, st: Style, depth: nat, before: string, end: string, tail: string, rest: string)
    requires |fields| > 1 && WellFormed(fields[0].value) && AllSpace(before)
    requires tail == AfterComma(st, depth) + (PrintFields(fields[1..], st, depth) + end)
    requires ParseFields(tail) == Ok(fields[1..], rest)
    ensures ParseFields(before + (PrintFields(fields, st, depth) + end)) == Ok(fields, rest)
    decreases fields, 1
  {
    var text := PrintFields(fields, st, depth) + end;
    FieldsText(fields, st, depth, end);
    FieldRoundTrip(fields[0], st, depth, before, "," + tail);
    ConsField(before + text, fields, tail, rest);
  }

  lemma ConsField(s: string, fields: seq<Field>, tail: string, rest: string)
    requires fields != [] && ParseField(s) == Ok(fields[0], "," + tail) && ParseFields(tail) == Ok(fields[1..], rest)
    ensures ParseFields(s) == Ok(fields, rest)
  {
    HeadAndRest(fields);
    NextField(s, fields[0], tail, fields[1..], rest);
  }

  lemma HeadAndRest<T>(s: seq<T>)
    requires s != []
    ensures [s[0]] + s[1..] == s
  {}

  lemma {:induction false} LastFieldRoundTrip(
      fields: seq<Field>, st: Style, depth: nat, before: string, after: string, rest: string)
    requires |fields| == 1 && WellFormed(fields[0].value) && AllSpace(before) && AllSpace(after)
    ensures ParseFields(before + (PrintFields(fields, st, depth) + (after + ("}" + rest)))) == Ok(fields, rest)
    decreases fields, 1
  {
    var end := after + ("}" + rest);
    EndsAfter(after, '}', rest);
    LastFieldText(fields, st, depth, end);
    FieldRoundTrip(fields[0], st, depth, before, end);
    LastField(before + (PrintFields(fields, st, depth) + end), fields[0], after, rest);
    assert [fields[0]] == fields;
  }

  lemma {:induction false} FieldsRoundTrip(
      fields: seq<Field>, st: Style, depth: nat, before: string, after: string, rest: string)
    requires fields != [] && forall i | 0 <= i < |fields| :: WellFormed(fields[i].value)
    requires AllSpace(before) && AllSpace(after)
    ensures ParseFields(before + (PrintFields(fields, st, depth) + (after + ("}" + rest)))) == Ok(fields, rest)
    decreases fields, 2
  {
    if |fields| == 1 {
      LastFieldRoundTrip(fields, st, depth, before, after, rest);
    } else {
      LayoutIsSpace(st, depth);
      FieldsRoundTrip(fields[1..], st, depth, AfterComma(st, depth), after, rest);
      var end := after + ("}" + rest);
      ConsFieldRoundTrip(
        fields, st, depth, before, end, AfterComma(st, depth) + (PrintFields(fields[1..], st, depth) + end), rest);
    }
  }

  /** Every layout, with any white space after it, parses back to the very value printed. */
  lemma PrintThenParse(v: Value, st: Style, depth: nat, trailing: string)
    requires WellFormed(v) && AllSpace(trailing)
    ensures Parse(Print(v, st, depth) + trailing) == Some(v)
  {
    PrintRoundTrip(v, st, depth, trailing);
    SkipSpace(trailing, "");
    assert trailing + "" == trailing;
  }
}
