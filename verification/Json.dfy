/** JSON values as the recorder, the ingester and the replay shim hold them in memory.
    An object keeps its fields in insertion order, as a Python dict does; a number is the
    token its runtime prints (section 6 of RFC 8259). */
module Json {
  import opened Common

  datatype Field = Field(key: string, value: Value)

  datatype Value =
    | Null
    | Bool(b: bool)
    | Number(token: string)
    | String(text: string)
    | Array(items: seq<Value>)
    | Object(fields: seq<Field>)

  // ---- number tokens, section 6 of RFC 8259 ----

  predicate IsDigit(c: char) { '0' <= c <= '9' }

  predicate IsNumberChar(c: char) {
    IsDigit(c) || c == '-' || c == '+' || c == '.' || c == 'e' || c == 'E'
  }

  /** How many digits the text starts with. */
  function DigitRun(s: string): (n: nat)
    ensures n <= |s| && forall i | 0 <= i < n :: IsDigit(s[i])
    ensures n < |s| ==> !IsDigit(s[n])
  {
    if s != "" && IsDigit(s[0]) then 1 + DigitRun(s[1..]) else 0
  }

  predicate IsExponent(s: string) {
    s == "" ||
    ((s[0] == 'e' || s[0] == 'E') &&
     var digits := if |s| > 1 && (s[1] == '+' || s[1] == '-') then s[2..] else s[1..];
     |digits| > 0 && DigitRun(digits) == |digits|)
  }

  predicate IsFraction(s: string) {
    if s != "" && s[0] == '.' then
      var n := DigitRun(s[1..]);
      n > 0 && IsExponent(s[1 + n..])
    else IsExponent(s)
  }

  predicate IsUnsigned(s: string) {
    var n := DigitRun(s);
    n > 0 && (n > 1 ==> s[0] != '0') && IsFraction(s[n..])
  }

  predicate IsNumber(s: string) {
    if s != "" && s[0] == '-' then IsUnsigned(s[1..]) else IsUnsigned(s)
  }

  predicate AllNumberChars(s: string) {
    forall i | 0 <= i < |s| :: IsNumberChar(s[i])
  }

  lemma ExponentChars(s: string)
    requires IsExponent(s)
    ensures AllNumberChars(s)
  {}

  lemma FractionChars(s: string)
    requires IsFraction(s)
    ensures AllNumberChars(s)
  {
    if s != "" && s[0] == '.' {
      var n := DigitRun(s[1..]);
      assert AllNumberChars(s[..1 + n]) by {
        forall i | 1 <= i < 1 + n ensures IsNumberChar(s[i]) { assert s[i] == s[1..][i - 1]; }
      }
      ExponentChars(s[1 + n..]);
      CharsJoin(s, 1 + n);
    } else {
      ExponentChars(s);
    }
  }

  lemma CharsJoin(s: string, n: nat)
    requires n <= |s| && AllNumberChars(s[..n]) && AllNumberChars(s[n..])
    ensures AllNumberChars(s)
  {}

  lemma UnsignedChars(s: string)
    requires IsUnsigned(s)
    ensures s != "" && AllNumberChars(s) && IsDigit(s[0])
  {
    var n := DigitRun(s);
    FractionChars(s[n..]);
    CharsJoin(s, n);
  }

  lemma NumberChars(s: string)
    requires IsNumber(s)
    ensures s != "" && AllNumberChars(s) && (s[0] == '-' || IsDigit(s[0]))
  {
    if s[0] == '-' {
      UnsignedChars(s[1..]);
      CharsJoin(s, 1);
    } else {
      UnsignedChars(s);
    }
  }

  // ---- well-formed values ----

  predicate DistinctKeys(fields: seq<Field>) {
    forall i, j | 0 <= i < j < |fields| :: fields[i].key != fields[j].key
  }

  /** Number tokens follow the grammar and no object repeats a key. */
  predicate WellFormed(v: Value) {
    match v
    case Number(token) => IsNumber(token)
    case Array(items) => forall i | 0 <= i < |items| :: WellFormed(items[i])
    case Object(fields) =>
      DistinctKeys(fields) && forall i | 0 <= i < |fields| :: WellFormed(fields[i].value)
    case _ => true
  }

  /** Equality up to the order of object keys, at any depth. */
  predicate Same(v: Value, w: Value) {
    match v
    case Array(xs) =>
      w.Array? && |xs| == |w.items| && forall i | 0 <= i < |xs| :: Same(xs[i], w.items[i])
    case Object(fs) =>
      w.Object? && |fs| == |w.fields| &&
      forall i | 0 <= i < |fs| :: Covered(fs[i], w.fields)
    case _ => v == w
  }

  /** Some field has the same key and the same value up to key order. */
  predicate Covered(f: Field, gs: seq<Field>) {
    exists j | 0 <= j < |gs| :: f.key == gs[j].key && Same(f.value, gs[j].value)
  }

  lemma {:induction false} SameReflexive(v: Value)
    ensures Same(v, v)
  {
    match v
    case Array(items) =>
      forall i | 0 <= i < |items| ensures Same(items[i], items[i]) { SameReflexive(items[i]); }
    case Object(fields) =>
      forall i | 0 <= i < |fields| ensures Covered(fields[i], fields) {
        SameReflexive(fields[i].value);
      }
    case _ =>
  }

  // ---- Python truthiness ----

  /** A number token whose value is zero: no digit other than 0 before the exponent. */
  predicate IsZeroToken(token: string) {
    forall i | 0 <= i < |token| ::
      '1' <= token[i] <= '9' ==> exists j | 0 <= j < i :: token[j] == 'e' || token[j] == 'E'
  }

  /** The values Python's `or` replaces: None, False, 0, "", [] and {}. */
  predicate Falsy(v: Value) {
    match v
    case Null => true
    case Bool(b) => !b
    case Number(token) => IsZeroToken(token)
    case String(text) => text == ""
    case Array(items) => items == []
    case Object(fields) => fields == []
  }

  // ---- dict.get ----

  function Get(fields: seq<Field>, key: string): (r: Option<Value>)
    ensures r.Some? ==> exists i | 0 <= i < |fields| :: fields[i] == Field(key, r.value)
    ensures r.None? <==> forall i | 0 <= i < |fields| :: fields[i].key != key
  {
    if fields == [] then None
    else if fields[0].key == key then Some(fields[0].value)
    else Get(fields[1..], key)
  }
}
