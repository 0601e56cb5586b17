/** The canonical JSON of bodies (rule D22): object keys sorted at every depth, no white space,
    numbers untouched. The Rust and the Python printer, each sorting and escaping in its own
    way, and what they promise: the same text in both languages, and one text per value up to
    key order. */
module Canonical {
  import opened Common
  import opened Json
  import opened JsonText
  import opened KeyOrder

  // ---- listings of fields in ascending key order ----

  predicate Ascending(fs: seq<Field>) {
    forall i, j | 0 <= i < j < |fs| :: Before(fs[i].key, fs[j].key)
  }

  ghost predicate SameElements(fs: seq<Field>, gs: seq<Field>) {
    forall f :: f in fs <==> f in gs
  }

  lemma AscendingHead(fs: seq<Field>, gs: seq<Field>)
    requires fs != [] && gs != [] && Ascending(fs) && Ascending(gs) && SameElements(fs, gs)
    ensures fs[0] == gs[0]
  {
    assert gs[0] in fs && fs[0] in gs;
    var i :| 0 <= i < |fs| && fs[i] == gs[0];
    var j :| 0 <= j < |gs| && gs[j] == fs[0];
    BeforeStrict(fs[0].key, gs[0].key, fs[0].key);
  }

  lemma AscendingTail(fs: seq<Field>)
    requires fs != [] && Ascending(fs)
    ensures Ascending(fs[1..])
    ensures forall f :: f in fs[1..] <==> f in fs && f != fs[0]
  {
    assert fs == [fs[0]] + fs[1..];
    forall f | f in fs[1..] ensures f != fs[0] {
      var i :| 0 <= i < |fs[1..]| && fs[1..][i] == f;
      assert Before(fs[0].key, fs[i + 1].key);
      BeforeStrict(f.key, f.key, f.key);
    }
  }

  /** Only one listing of given fields is ascending, so the sorting algorithm does not matter. */
  lemma {:induction false} AscendingUnique(fs: seq<Field>, gs: seq<Field>)
    requires Ascending(fs) && Ascending(gs) && SameElements(fs, gs)
    ensures fs == gs
  {
    assert gs != [] ==> gs[0] in fs;
    if fs != [] {
      assert fs[0] in gs;
      AscendingHead(fs, gs);
      AscendingTail(fs);
      AscendingTail(gs);
      AscendingUnique(fs[1..], gs[1..]);
      assert fs == [fs[0]] + fs[1..] && gs == [gs[0]] + gs[1..];
    }
  }

  lemma AscendingCons(f: Field, fs: seq<Field>)
    requires Ascending(fs) && forall g | g in fs :: Before(f.key, g.key)
    ensures Ascending([f] + fs)
  {}

  /** A field before the first of an ascending listing is before all of it. */
  lemma BeforeAll(k: string, fs: seq<Field>)
    requires fs != [] && Ascending(fs) && Before(k, fs[0].key)
    ensures forall g | g in fs :: Before(k, g.key)
  {
    forall g | g in fs ensures Before(k, g.key) {
      var i :| 0 <= i < |fs| && fs[i] == g;
      if i > 0 { BeforeStrict(k, fs[0].key, g.key); }
    }
  }

  // ---- Python: sorted(value.items()) ----

  function Place(f: Field, fs: seq<Field>): (r: seq<Field>)
    ensures |r| == |fs| + 1
    ensures forall g :: g in r <==> g == f || g in fs
  {
    if fs == [] || !Before(fs[0].key, f.key) then [f] + fs else [fs[0]] + Place(f, fs[1..])
  }

  function Sorted(fs: seq<Field>): (r: seq<Field>)
    ensures |r| == |fs|
    ensures forall g :: g in r <==> g in fs
  {
    if fs == [] then [] else Place(fs[0], Sorted(fs[1..]))
  }

  lemma {:induction false} PlaceAscending(f: Field, fs: seq<Field>)
    requires Ascending(fs) && forall g | g in fs :: g.key != f.key
    ensures Ascending(Place(f, fs))
  {
    if fs != [] {
      BeforeTotal(fs[0].key, f.key);
      if Before(fs[0].key, f.key) {
        AscendingTail(fs);
        PlaceAscending(f, fs[1..]);
        forall g | g in Place(f, fs[1..]) ensures Before(fs[0].key, g.key) {
          if g != f {
            var i :| 0 <= i < |fs[1..]| && fs[1..][i] == g;
            assert fs[i + 1] == g;
          }
        }
        AscendingCons(fs[0], Place(f, fs[1..]));
      } else {
        BeforeAll(f.key, fs);
        AscendingCons(f, fs);
      }
    }
  }

  lemma KeysDiffer(fs: seq<Field>)
    requires fs != [] && DistinctKeys(fs)
    ensures DistinctKeys(fs[1..]) && forall g | g in fs[1..] :: g.key != fs[0].key
  {}

  lemma {:induction false} SortedAscending(fs: seq<Field>)
    requires DistinctKeys(fs)
    ensures Ascending(Sorted(fs))
  {
    if fs != [] {
      KeysDiffer(fs);
      SortedAscending(fs[1..]);
      PlaceAscending(fs[0], Sorted(fs[1..]));
    }
  }

  // ---- Rust: collecting into a BTreeMap ----

  function BTreeInsert(f: Field, m: seq<Field>): (r: seq<Field>)
    ensures forall g | g in r :: g == f || g in m
  {
    if m == [] then [f]
    else if m[0].key == f.key then [f] + m[1..]
    else if BytesBefore(f.key, m[0].key) then [f] + m
    else [m[0]] + BTreeInsert(f, m[1..])
  }

  function BTreeOf(fs: seq<Field>): (r: seq<Field>)
    ensures forall g | g in r :: g in fs
  {
    if fs == [] then [] else BTreeInsert(fs[|fs| - 1], BTreeOf(fs[..|fs| - 1]))
  }

  lemma {:induction false} BTreeInsertPlaces(f: Field, m: seq<Field>)
    requires forall g | g in m :: g.key != f.key
    ensures BTreeInsert(f, m) == Place(f, m)
  {
    if m != [] {
      Utf8PreservesOrder(f.key, m[0].key);
      BeforeTotal(f.key, m[0].key);
      BeforeStrict(f.key, m[0].key, f.key);
      BTreeInsertPlaces(f, m[1..]);
    }
  }

  lemma {:induction false} BTreeAscending(fs: seq<Field>)
    requires DistinctKeys(fs)
    ensures Ascending(BTreeOf(fs)) && SameElements(BTreeOf(fs), fs)
  {
    if fs != [] {
      var n := |fs| - 1;
      var m := BTreeOf(fs[..n]);
      BTreeAscending(fs[..n]);
      forall g | g in m ensures g.key != fs[n].key { assert g in fs[..n]; }
      BTreeInsertPlaces(fs[n], m);
      PlaceAscending(fs[n], m);
      assert fs == fs[..n] + [fs[n]];
    }
  }

  /** A BTreeMap, in byte order, and sorted(), in code-point order, list the fields alike. */
  lemma BTreeIsSorted(fs: seq<Field>)
    requires DistinctKeys(fs)
    ensures BTreeOf(fs) == Sorted(fs)
  {
    BTreeAscending(fs);
    SortedAscending(fs);
    AscendingUnique(BTreeOf(fs), Sorted(fs));
  }

  // ---- the Python printer ----

  function PyCanonical(v: Value): string
    decreases v
  {
    match v
    case Null => "null"
    case Bool(b) => if b then "true" else "false"
    case Number(token) => token
    case String(text) => Quote(text, false)
    case Array(items) => "[" + PyItems(items) + "]"
    case Object(fields) => "{" + PyFields(v, Sorted(fields)) + "}"
  }

  function PyItems(items: seq<Value>): string
    decreases items
  {
    if items == [] then ""
    else if |items| == 1 then PyCanonical(items[0])
    else PyCanonical(items[0]) + "," + PyItems(items[1..])
  }

  function PyFields(context: Value, fs: seq<Field>): string
    requires forall f | f in fs :: f.value < context
    decreases context, |fs|
  {
    if fs == [] then ""
    else
      var first := Quote(fs[0].key, false) + ":" + PyCanonical(fs[0].value);
      if |fs| == 1 then first else first + "," + PyFields(context, fs[1..])
  }

  // ---- the Rust printer ----

  /** serde_json's escape table for one character. */
  function RustEscapeChar(c: char): string {
    match c as nat
    case 0x22 => "\\\""
    case 0x5C => "\\\\"
    case 0x08 => "\\b"
    case 0x09 => "\\t"
    case 0x0A => "\\n"
    case 0x0C => "\\f"
    case 0x0D => "\\r"
    case n => if n < 0x20 then "\\u00" + [HexDigit(n / 16), HexDigit(n % 16)] else [c]
  }

  function RustEscapeAll(s: string): string {
    if s == "" then "" else RustEscapeChar(s[0]) + RustEscapeAll(s[1..])
  }

  function RustQuote(s: string): string { "\"" + RustEscapeAll(s) + "\"" }

  function RustCanonical(v: Value): string
    decreases v
  {
    match v
    case Object(fields) => "{" + RustFields(v, BTreeOf(fields)) + "}"
    case Array(items) => "[" + RustItems(items) + "]"
    case Null => "null"
    case Bool(b) => if b then "true" else "false"
    case Number(token) => token
    case String(text) => RustQuote(text)
  }

  function RustItems(items: seq<Value>): string
    decreases items
  {
    if items == [] then ""
    else if |items| == 1 then RustCanonical(items[0])
    else RustCanonical(items[0]) + "," + RustItems(items[1..])
  }

  function RustFields(context: Value, m: seq<Field>): string
    requires forall f | f in m :: f.value < context
    decreases context, |m|
  {
    if m == [] then ""
    else
      var first := RustQuote(m[0].key) + ":" + RustCanonical(m[0].value);
      if |m| == 1 then first else first + "," + RustFields(context, m[1..])
  }

  // ---- parity ----

  lemma RustEscapeAgrees(c: char)
    ensures RustEscapeChar(c) == EscapeChar(c, false)
  {}

  lemma {:induction false} RustQuoteAgrees(s: string)
    ensures RustEscapeAll(s) == EscapeAll(s, false)
  {
    if s != "" {
      RustEscapeAgrees(s[0]);
      RustQuoteAgrees(s[1..]);
    }
  }

  /** Rust and Python print the same canonical text for every value whose number tokens agree. */
  lemma {:induction false} Parity(v: Value)
    requires WellFormed(v)
    ensures RustCanonical(v) == PyCanonical(v)
    decreases v
  {
    match v
    case String(text) => RustQuoteAgrees(text);
    case Array(items) => ItemsParity(items);
    case Object(fields) =>
      BTreeIsSorted(fields);
      FieldsParity(v, Sorted(fields));
    case _ =>
  }

  lemma {:induction false} ItemsParity(items: seq<Value>)
    requires forall i | 0 <= i < |items| :: WellFormed(items[i])
    ensures RustItems(items) == PyItems(items)
    decreases items
  {
    if items != [] {
      Parity(items[0]);
      ItemsParity(items[1..]);
    }
  }

  lemma {:induction false} FieldsParity(context: Value, fs: seq<Field>)
    requires forall f | f in fs :: f.value < context && WellFormed(f.value)
    ensures RustFields(context, fs) == PyFields(context, fs)
    decreases context, |fs|
  {
    if fs != [] {
      RustQuoteAgrees(fs[0].key);
      Parity(fs[0].value);
      FieldsParity(context, fs[1..]);
    }
  }

  // ---- the value a canonical text denotes ----

  /** The value with the keys of every object sorted. */
  function SortKeys(v: Value): Value {
    match v
    case Array(items) => Array(SortItems(items))
    case Object(fields) => Object(Sorted(SortFields(fields)))
    case _ => v
  }

  function SortItems(items: seq<Value>): (r: seq<Value>)
    ensures |r| == |items| && forall i | 0 <= i < |r| :: r[i] == SortKeys(items[i])
  {
    if items == [] then [] else [SortKeys(items[0])] + SortItems(items[1..])
  }

  function SortFields(fs: seq<Field>): (r: seq<Field>)
    ensures |r| == |fs| && forall i | 0 <= i < |r| :: r[i] == SortField(fs[i])
  {
    if fs == [] then [] else [SortField(fs[0])] + SortFields(fs[1..])
  }

  function SortField(f: Field): Field { Field(f.key, SortKeys(f.value)) }

  /** Sorting looks at the keys only, so it commutes with sorting inside the values. */
  lemma {:induction false} PlaceCommutes(f: Field, fs: seq<Field>)
    ensures Place(SortField(f), SortFields(fs)) == SortFields(Place(f, fs))
  {
    if fs == [] {
    } else if Before(fs[0].key, f.key) {
      PlaceCommutes(f, fs[1..]);
      assert SortFields(fs)[1..] == SortFields(fs[1..]);
    } else {
      assert ([f] + fs)[1..] == fs;
    }
  }

  lemma {:induction false} SortedCommutes(fs: seq<Field>)
    ensures Sorted(SortFields(fs)) == SortFields(Sorted(fs))
  {
    if fs != [] {
      SortedCommutes(fs[1..]);
      PlaceCommutes(fs[0], Sorted(fs[1..]));
      assert SortFields(fs)[1..] == SortFields(fs[1..]);
    }
  }

  lemma AscendingDistinct(fs: seq<Field>)
    requires Ascending(fs)
    ensures DistinctKeys(fs)
  {
    forall i, j | 0 <= i < j < |fs| ensures fs[i].key != fs[j].key {
      BeforeStrict(fs[i].key, fs[i].key, fs[i].key);
    }
  }

  lemma {:induction false} SortKeysWellFormed(v: Value)
    requires WellFormed(v)
    ensures WellFormed(SortKeys(v))
  {
    match v
    case Array(items) =>
      forall i | 0 <= i < |items| ensures WellFormed(SortItems(items)[i]) { SortKeysWellFormed(items[i]); }
    case Object(fields) =>
      SortedAscending(SortFields(fields));
      AscendingDistinct(Sorted(SortFields(fields)));
      forall f | f in Sorted(SortFields(fields)) ensures WellFormed(f.value) {
        var i :| 0 <= i < |fields| && SortFields(fields)[i] == f;
        SortKeysWellFormed(fields[i].value);
      }
    case _ =>
  }

  lemma CompactBrackets(v: Value, depth: nat)
    ensures v.Array? && v.items != [] ==>
      Print(v, Compact, depth) == "[" + PrintItems(v.items, Compact, depth + 1) + "]"
    ensures v.Object? && v.fields != [] ==>
      Print(v, Compact, depth) == "{" + PrintFields(v.fields, Compact, depth + 1) + "}"
  {}

  lemma CompactItems(items: seq<Value>, depth: nat)
    requires items != []
    ensures PrintItems(items, Compact, depth) ==
      if |items| == 1 then Print(items[0], Compact, depth)
      else Print(items[0], Compact, depth) + "," + PrintItems(items[1..], Compact, depth)
  {}

  lemma CompactFields(fs: seq<Field>, depth: nat)
    requires fs != []
    ensures var first := Quote(fs[0].key, false) + ":" + Print(fs[0].value, Compact, depth);
      PrintFields(fs, Compact, depth) ==
        if |fs| == 1 then first else first + "," + PrintFields(fs[1..], Compact, depth)
  {}

  /** The canonical text is the compact text of the value with sorted keys. */
  lemma {:induction false} CanonicalIsPrint(v: Value, depth: nat)
    ensures PyCanonical(v) == Print(SortKeys(v), Compact, depth)
    decreases v, 0
  {
    CompactBrackets(SortKeys(v), depth);
    match v
    case Array(items) => ItemsArePrint(items, depth + 1);
    case Object(fields) =>
      SortedCommutes(fields);
      FieldsArePrint(v, Sorted(fields), depth + 1);
    case _ =>
  }

  lemma {:induction false} ItemsArePrint(items: seq<Value>, depth: nat)
    ensures items != [] ==> PyItems(items) == PrintItems(SortItems(items), Compact, depth)
    decreases items, 1
  {
    if items != [] {
      CanonicalIsPrint(items[0], depth);
      ItemsArePrint(items[1..], depth);
      CompactItems(SortItems(items), depth);
      assert SortItems(items)[1..] == SortItems(items[1..]);
    }
  }

  lemma {:induction false} FieldsArePrint(context: Value, fs: seq<Field>, depth: nat)
    requires forall f | f in fs :: f.value < context
    ensures fs != [] ==> PyFields(context, fs) == PrintFields(SortFields(fs), Compact, depth)
    decreases context, 0, |fs|
  {
    if fs != [] {
      CanonicalIsPrint(fs[0].value, depth);
      FieldsArePrint(context, fs[1..], depth);
      CompactFields(SortFields(fs), depth);
      assert SortFields(fs)[1..] == SortFields(fs[1..]);
    }
  }

  /** Parsing a canonical text consumes all of it and gives the value with its keys reordered. */
  lemma CanonicalParses(v: Value)
    requires WellFormed(v)
    ensures Parse(PyCanonical(v)) == Some(SortKeys(v)) && Same(SortKeys(v), v)
  {
    CanonicalIsPrint(v, 0);
    SortKeysWellFormed(v);
    PrintThenParse(SortKeys(v), Compact, 0, "");
    assert Print(SortKeys(v), Compact, 0) + "" == Print(SortKeys(v), Compact, 0);
    SortKeysSame(v);
  }

  lemma {:induction false} SortKeysSame(v: Value)
    ensures Same(SortKeys(v), v)
  {
    match v
    case Array(items) =>
      forall i | 0 <= i < |items| ensures Same(SortItems(items)[i], items[i]) { SortKeysSame(items[i]); }
    case Object(fields) =>
      var gs := Sorted(SortFields(fields));
      forall i | 0 <= i < |gs| ensures Covered(gs[i], fields) {
        assert gs[i] in SortFields(fields);
        var j :| 0 <= j < |fields| && SortFields(fields)[j] == gs[i];
        SortKeysSame(fields[j].value);
      }
    case _ =>
  }

  // ---- one text per value up to key order ----

  lemma {:induction false} SameSortsAlike(v: Value, w: Value)
    requires WellFormed(v) && WellFormed(w) && Same(v, w)
    ensures SortKeys(v) == SortKeys(w)
  {
    match v
    case Array(items) =>
      forall i | 0 <= i < |items| ensures SortItems(items)[i] == SortItems(w.items)[i] {
        SameSortsAlike(items[i], w.items[i]);
      }
    case Object(fields) =>
      var fs, gs := SortFields(fields), SortFields(w.fields);
      forall i | 0 <= i < |fs| ensures fs[i] in gs {
        assert Covered(fields[i], w.fields);
        var j :| 0 <= j < |w.fields| && fields[i].key == w.fields[j].key && Same(fields[i].value, w.fields[j].value);
        SameSortsAlike(fields[i].value, w.fields[j].value);
        assert gs[j] == fs[i];
      }
      ContainedIsSame(fs, gs);
      SortedAscending(fs);
      SortedAscending(gs);
      AscendingUnique(Sorted(fs), Sorted(gs));
    case _ =>
  }

  /** Lists of the same length with distinct keys: one contained in the other is all of it. */
  lemma ContainedIsSame(fs: seq<Field>, gs: seq<Field>)
    requires DistinctKeys(fs) && DistinctKeys(gs) && |fs| == |gs|
    requires forall f | f in fs :: f in gs
    ensures SameElements(fs, gs)
  {
    var A, B := (set f | f in fs), (set g | g in gs);
    DistinctCount(fs);
    DistinctCount(gs);
    SubsetOfSameSize(A, B);
    forall f ensures f in fs <==> f in gs { assert f in A <==> f in B; }
  }

  lemma {:induction false} DistinctCount(fs: seq<Field>)
    requires DistinctKeys(fs)
    ensures |set f | f in fs| == |fs|
  {
    if fs != [] {
      DistinctCount(fs[1..]);
      assert (set f | f in fs) == {fs[0]} + (set f | f in fs[1..]);
    }
  }

  lemma SubsetOfSameSize<T>(A: set<T>, B: set<T>)
    requires A <= B && |A| == |B|
    ensures A == B
  {
    assert B == A + (B - A);
    assert |B - A| == 0;
  }

  lemma {:induction false} SortAlikeIsSame(v: Value, w: Value)
    requires SortKeys(v) == SortKeys(w)
    ensures Same(v, w)
  {
    match v
    case Array(items) =>
      forall i | 0 <= i < |items| ensures Same(items[i], w.items[i]) {
        assert SortItems(items)[i] == SortItems(w.items)[i];
        SortAlikeIsSame(items[i], w.items[i]);
      }
    case Object(fields) =>
      var fs, gs := SortFields(fields), SortFields(w.fields);
      assert |Sorted(fs)| == |Sorted(gs)|;
      forall i | 0 <= i < |fields| ensures Covered(fields[i], w.fields) {
        assert fs[i] in Sorted(fs);
        assert fs[i] in gs;
        var j :| 0 <= j < |gs| && gs[j] == fs[i];
        SortAlikeIsSame(fields[i].value, w.fields[j].value);
      }
    case _ =>
  }

  /** Two values print the same canonical text exactly when they differ at most in key order. */
  lemma CanonicalInjective(v: Value, w: Value)
    requires WellFormed(v) && WellFormed(w)
    ensures PyCanonical(v) == PyCanonical(w) <==> Same(v, w)
  {
    CanonicalIsPrint(v, 0);
    CanonicalIsPrint(w, 0);
    if Same(v, w) { SameSortsAlike(v, w); }
    if PyCanonical(v) == PyCanonical(w) {
      CanonicalParses(v);
      CanonicalParses(w);
      SortAlikeIsSame(v, w);
    }
  }

  /** Same is an equivalence on well-formed values. */
  lemma SameEquivalence(u: Value, v: Value, w: Value)
    requires WellFormed(u) && WellFormed(v) && WellFormed(w)
    ensures Same(u, v) ==> Same(v, u)
    ensures Same(u, v) && Same(v, w) ==> Same(u, w)
  {
    CanonicalInjective(u, v);
    CanonicalInjective(v, u);
    CanonicalInjective(v, w);
    CanonicalInjective(u, w);
  }

  // ---- hashing ----

  /** A SHA-256 digest in lower-case hex. */
  type Hex = s: string | |s| == 64 witness seq(64, _ => '0')

  /** SHA-256 of a text. Nothing is assumed of it here; where two bodies must not collide, a
      lemma says so with CollisionFree. */
  type Sha = string -> Hex

  function CanonicalHash(sha: Sha, v: Value): Hex { sha(PyCanonical(v)) }

  /** No two of these texts have the same digest. */
  ghost predicate CollisionFree(sha: Sha, texts: iset<string>) {
    forall s, t | s in texts && t in texts && sha(s) == sha(t) :: s == t
  }

  /** Among texts that do not collide, equal hashes mean bodies equal up to key order. */
  lemma HashIdentifies(sha: Sha, texts: iset<string>, v: Value, w: Value)
    requires WellFormed(v) && WellFormed(w) && CollisionFree(sha, texts)
    requires PyCanonical(v) in texts && PyCanonical(w) in texts
    ensures CanonicalHash(sha, v) == CanonicalHash(sha, w) <==> Same(v, w)
  {
    CanonicalInjective(v, w);
  }
}
