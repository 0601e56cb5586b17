/** The two orders object keys are sorted in: Rust compares UTF-8 bytes, Python compares code
    points. The main result is that they are the same order. */
module KeyOrder {

  /** Lexicographic order, as both languages compare sequences. */
  predicate LexLess(a: seq<nat>, b: seq<nat>) {
    b != [] && (a == [] || a[0] < b[0] || (a[0] == b[0] && LexLess(a[1..], b[1..])))
  }

  function CodePoints(s: string): seq<nat> {
    if s == "" then [] else [s[0] as nat] + CodePoints(s[1..])
  }

  /** The UTF-8 encoding of one character, section 3 of RFC 3629. */
  function EncodeChar(c: char): seq<nat> {
    var n := c as nat;
    if n < 0x80 then [n]
    else if n < 0x800 then [0xC0 + n / 0x40, 0x80 + n % 0x40]
    else if n < 0x1_0000 then [0xE0 + n / 0x1000, 0x80 + n / 0x40 % 0x40, 0x80 + n % 0x40]
    else [0xF0 + n / 0x4_0000, 0x80 + n / 0x1000 % 0x40, 0x80 + n / 0x40 % 0x40, 0x80 + n % 0x40]
  }

  function Utf8(s: string): seq<nat> {
    if s == "" then [] else EncodeChar(s[0]) + Utf8(s[1..])
  }

  /** Python's str comparison. */
  predicate Before(a: string, b: string) { LexLess(CodePoints(a), CodePoints(b)) }

  /** Rust's str comparison. */
  predicate BytesBefore(a: string, b: string) { LexLess(Utf8(a), Utf8(b)) }

  lemma {:induction false} LexCommonPrefix(e: seq<nat>, a: seq<nat>, b: seq<nat>)
    ensures LexLess(e + a, e + b) == LexLess(a, b)
  {
    if e == [] {
      assert e + a == a && e + b == b;
    } else {
      assert (e + a)[1..] == e[1..] + a && (e + b)[1..] == e[1..] + b;
      LexCommonPrefix(e[1..], a, b);
    }
  }

  /** Position j is where d and e first differ. */
  predicate DiffersAt(d: seq<nat>, e: seq<nat>, j: nat) {
    j < |d| && j < |e| && d[..j] == e[..j] && d[j] < e[j]
  }

  lemma LexDecidedAt(d: seq<nat>, e: seq<nat>, j: nat, a: seq<nat>, b: seq<nat>)
    requires DiffersAt(d, e, j)
    ensures LexLess(d + a, e + b) && !LexLess(e + b, d + a)
  {
    var x, y := d[j..] + a, e[j..] + b;
    assert d + a == d[..j] + x && e + b == d[..j] + y;
    LexCommonPrefix(d[..j], x, y);
    LexCommonPrefix(d[..j], y, x);
  }

  /** Comparing numbers is comparing their high parts, then their last base-64 digits. */
  lemma DigitOrder(m: nat, n: nat)
    requires m < n
    ensures m / 0x40 < n / 0x40 || (m / 0x40 == n / 0x40 && m % 0x40 < n % 0x40)
  {}

  lemma TwoBytesOrdered(m: nat, n: nat, lead: nat) returns (j: nat)
    requires m < n
    ensures j < 2 && DiffersAt([lead + m / 0x40, 0x80 + m % 0x40], [lead + n / 0x40, 0x80 + n % 0x40], j)
  {
    DigitOrder(m, n);
    j := if m / 0x40 == n / 0x40 then 1 else 0;
  }

  /** One more continuation byte: the high part decides unless it is equal. */
  lemma LongerOrdered(d: seq<nat>, e: seq<nat>, m: nat, n: nat, i: nat) returns (j: nat)
    requires m < n && |d| == |e|
    requires m / 0x40 == n / 0x40 ==> d == e
    requires m / 0x40 != n / 0x40 ==> DiffersAt(d, e, i)
    ensures DiffersAt(d + [0x80 + m % 0x40], e + [0x80 + n % 0x40], j)
  {
    DigitOrder(m, n);
    var d', e' := d + [0x80 + m % 0x40], e + [0x80 + n % 0x40];
    if m / 0x40 == n / 0x40 {
      j := |d|;
      assert d'[..j] == d && e'[..j] == e;
    } else {
      j := i;
      assert d'[..j] == d[..j] && e'[..j] == e[..j];
    }
  }

  function ThreeBytes(n: nat, lead: nat): seq<nat> {
    [lead + n / 0x1000, 0x80 + n / 0x40 % 0x40] + [0x80 + n % 0x40]
  }

  lemma ThreeBytesOrdered(m: nat, n: nat, lead: nat) returns (j: nat)
    requires m < n
    ensures DiffersAt(ThreeBytes(m, lead), ThreeBytes(n, lead), j)
  {
    var hm, hn := m / 0x40, n / 0x40;
    assert hm / 0x40 == m / 0x1000 && hn / 0x40 == n / 0x1000;
    j := 0;
    if hm != hn { j := TwoBytesOrdered(hm, hn, lead); }
    j := LongerOrdered([lead + hm / 0x40, 0x80 + hm % 0x40], [lead + hn / 0x40, 0x80 + hn % 0x40], m, n, j);
  }

  lemma FourBytesOrdered(m: nat, n: nat) returns (j: nat)
    requires m < n
    ensures DiffersAt(ThreeBytes(m / 0x40, 0xF0) + [0x80 + m % 0x40], ThreeBytes(n / 0x40, 0xF0) + [0x80 + n % 0x40], j)
  {
    j := 0;
    if m / 0x40 != n / 0x40 { j := ThreeBytesOrdered(m / 0x40, n / 0x40, 0xF0); }
    j := LongerOrdered(ThreeBytes(m / 0x40, 0xF0), ThreeBytes(n / 0x40, 0xF0), m, n, j);
  }

  lemma EncodeFourBytes(c: char)
    requires c as nat >= 0x1_0000
    ensures EncodeChar(c) == ThreeBytes(c as nat / 0x40, 0xF0) + [0x80 + c as nat % 0x40]
  {}

  lemma EncodeThreeBytes(c: char)
    requires 0x800 <= c as nat < 0x1_0000
    ensures EncodeChar(c) == ThreeBytes(c as nat, 0xE0)
  {}

  /** Encodings of different characters differ first where the smaller has the smaller byte. */
  lemma EncodeOrdered(c: char, d: char) returns (j: nat)
    requires c < d
    ensures DiffersAt(EncodeChar(c), EncodeChar(d), j)
  {
    var m, n := c as nat, d as nat;
    if |EncodeChar(c)| != |EncodeChar(d)| || n < 0x80 {
      j := 0;
      assert EncodeChar(c)[..j] == EncodeChar(d)[..j];
    } else if n < 0x800 {
      j := TwoBytesOrdered(m, n, 0xC0);
    } else if n < 0x1_0000 {
      EncodeThreeBytes(c);
      EncodeThreeBytes(d);
      j := ThreeBytesOrdered(m, n, 0xE0);
    } else {
      EncodeFourBytes(c);
      EncodeFourBytes(d);
      j := FourBytesOrdered(m, n);
    }
  }

  /** UTF-8 preserves lexicographic order (section 1 of RFC 3629): comparing bytes and comparing
      code points put every two strings in the same order. */
  lemma {:induction false} Utf8PreservesOrder(a: string, b: string)
    ensures BytesBefore(a, b) == Before(a, b)
  {
    if a == "" || b == "" {
    } else if a[0] == b[0] {
      LexCommonPrefix(EncodeChar(a[0]), Utf8(a[1..]), Utf8(b[1..]));
      Utf8PreservesOrder(a[1..], b[1..]);
    } else if a[0] < b[0] {
      var j := EncodeOrdered(a[0], b[0]);
      LexDecidedAt(EncodeChar(a[0]), EncodeChar(b[0]), j, Utf8(a[1..]), Utf8(b[1..]));
    } else {
      var j := EncodeOrdered(b[0], a[0]);
      LexDecidedAt(EncodeChar(b[0]), EncodeChar(a[0]), j, Utf8(b[1..]), Utf8(a[1..]));
    }
  }

  // ---- Before is a strict total order ----

  lemma {:induction false} LexIrreflexive(a: seq<nat>)
    ensures !LexLess(a, a)
  {
    if a != [] { LexIrreflexive(a[1..]); }
  }

  lemma {:induction false} LexTransitive(a: seq<nat>, b: seq<nat>, c: seq<nat>)
    requires LexLess(a, b) && LexLess(b, c)
    ensures LexLess(a, c)
  {
    if a != [] && a[0] == b[0] && b[0] == c[0] { LexTransitive(a[1..], b[1..], c[1..]); }
  }

  lemma {:induction false} BeforeTotal(a: string, b: string)
    ensures a == b || Before(a, b) || Before(b, a)
  {
    if a != "" && b != "" && a[0] == b[0] {
      BeforeTotal(a[1..], b[1..]);
      assert a == [a[0]] + a[1..] && b == [b[0]] + b[1..];
    }
  }

  /** Before orders different strings one way only, and transitively. */
  lemma BeforeStrict(a: string, b: string, c: string)
    ensures !Before(a, a)
    ensures Before(a, b) ==> !Before(b, a)
    ensures Before(a, b) && Before(b, c) ==> Before(a, c)
  {
    LexIrreflexive(CodePoints(a));
    if Before(a, b) && Before(b, a) { LexTransitive(CodePoints(a), CodePoints(b), CodePoints(a)); }
    if Before(a, b) && Before(b, c) { LexTransitive(CodePoints(a), CodePoints(b), CodePoints(c)); }
  }
}
