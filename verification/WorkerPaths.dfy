/** The worker's walker (TypeScript). It makes the same assignments, but JavaScript enumerates
    an object's keys with integer-like keys first, in ascending order, whatever order the text
    had them in. */
module WorkerPaths {
  import opened Json
  import opened KeyPaths

  /** The number a string of digits writes. */
  function DecimalValue(k: string): nat {
    if k == "" then 0
    else DecimalValue(k[..|k| - 1]) * 10 + (if IsDigit(k[|k| - 1]) then k[|k| - 1] as nat - '0' as nat else 0)
  }

  /** Keys JavaScript treats as array indices: canonical decimals below 2^32 - 1. */
  predicate IsIndexKey(k: string) {
    k != "" && DigitRun(k) == |k| && (|k| > 1 ==> k[0] != '0') && DecimalValue(k) < 0xFFFF_FFFF
  }

  function PlaceIndex(f: Field, fs: seq<Field>): (r: seq<Field>)
    ensures |r| == |fs| + 1 && forall g :: g in r <==> g == f || g in fs
  {
    if fs == [] || DecimalValue(f.key) < DecimalValue(fs[0].key) then [f] + fs
    else [fs[0]] + PlaceIndex(f, fs[1..])
  }

  function Indexed(fs: seq<Field>): (r: seq<Field>)
    ensures forall g :: g in r <==> g in fs && IsIndexKey(g.key)
  {
    if fs == [] then []
    else if IsIndexKey(fs[0].key) then PlaceIndex(fs[0], Indexed(fs[1..]))
    else Indexed(fs[1..])
  }

  function Named(fs: seq<Field>): (r: seq<Field>)
    ensures |r| + |Indexed(fs)| == |fs|
    ensures forall g :: g in r <==> g in fs && !IsIndexKey(g.key)
  {
    if fs == [] then []
    else if IsIndexKey(fs[0].key) then Named(fs[1..])
    else [fs[0]] + Named(fs[1..])
  }

  /** Object.keys order. */
  function JsOrder(fs: seq<Field>): seq<Field> { Indexed(fs) + Named(fs) }

  predicate AscendingIndices(fs: seq<Field>) {
    (forall i | 0 <= i < |fs| :: IsIndexKey(fs[i].key)) &&
    forall i, j | 0 <= i < j < |fs| :: DecimalValue(fs[i].key) <= DecimalValue(fs[j].key)
  }

  lemma {:induction false} PlaceIndexAscends(f: Field, fs: seq<Field>)
    requires IsIndexKey(f.key) && AscendingIndices(fs)
    ensures AscendingIndices(PlaceIndex(f, fs))
  {
    if fs != [] && DecimalValue(f.key) >= DecimalValue(fs[0].key) {
      var rest := PlaceIndex(f, fs[1..]);
      PlaceIndexAscends(f, fs[1..]);
      forall g | g in rest ensures DecimalValue(fs[0].key) <= DecimalValue(g.key) {
        if g != f {
          var i :| 0 <= i < |fs[1..]| && fs[1..][i] == g;
          assert fs[i + 1] == g;
        }
      }
      forall j | 0 <= j < |rest| ensures DecimalValue(fs[0].key) <= DecimalValue(rest[j].key) {
        assert rest[j] in rest;
      }
    }
  }

  lemma {:induction false} IndexedAscends(fs: seq<Field>)
    ensures AscendingIndices(Indexed(fs))
  {
    if fs != [] {
      IndexedAscends(fs[1..]);
      if IsIndexKey(fs[0].key) { PlaceIndexAscends(fs[0], Indexed(fs[1..])); }
    }
  }

  /** These are the fields at these positions, in order. */
  predicate TakenAt(fs: seq<Field>, part: seq<Field>, at: seq<nat>) {
    |at| == |part| && (forall k | 0 <= k < |at| :: at[k] < |fs| && part[k] == fs[at[k]]) &&
    forall j, k | 0 <= j < k < |at| :: at[j] < at[k]
  }

  function Shifted(at: seq<nat>): (r: seq<nat>)
    ensures |r| == |at| && forall k | 0 <= k < |r| :: r[k] == at[k] + 1
  {
    seq(|at|, k requires 0 <= k < |at| => at[k] + 1)
  }

  lemma TakenFromRest(fs: seq<Field>, part: seq<Field>, at: seq<nat>)
    requires fs != [] && TakenAt(fs[1..], part, at)
    ensures TakenAt(fs, part, Shifted(at))
    ensures TakenAt(fs, [fs[0]] + part, [0] + Shifted(at))
  {
    var more, later := [fs[0]] + part, [0] + Shifted(at);
    forall k | 0 <= k < |at| ensures fs[at[k] + 1] == part[k] { assert fs[1..][at[k]] == part[k]; }
    forall k | 0 < k < |later| ensures later[k] == at[k - 1] + 1 && more[k] == part[k - 1] {}
  }

  lemma {:induction false} NamedKeepOrder(fs: seq<Field>) returns (at: seq<nat>)
    ensures TakenAt(fs, Named(fs), at)
  {
    if fs == [] { return []; }
    at := NamedKeepOrder(fs[1..]);
    TakenFromRest(fs, Named(fs[1..]), at);
    at := if IsIndexKey(fs[0].key) then Shifted(at) else [0] + Shifted(at);
  }

  /** JavaScript lists the integer-like keys of an object first, in ascending order, and then its other keys in
      the order they came. */
  lemma JsOrderExactly(fs: seq<Field>) returns (n: nat, at: seq<nat>)
    ensures n <= |JsOrder(fs)| == |fs| && AscendingIndices(JsOrder(fs)[..n])
    ensures forall f | f in JsOrder(fs)[n..] :: !IsIndexKey(f.key)
    ensures TakenAt(fs, JsOrder(fs)[n..], at) && forall f :: f in JsOrder(fs) <==> f in fs
  {
    n := |Indexed(fs)|;
    IndexedAscends(fs);
    at := NamedKeepOrder(fs);
    assert JsOrder(fs)[..n] == Indexed(fs) && JsOrder(fs)[n..] == Named(fs);
  }

  /** The value as JavaScript enumerates it. */
  function JsValue(v: Value): Value {
    match v
    case Array(items) => Array(JsItems(items))
    case Object(fields) => Object(JsOrder(JsFields(fields)))
    case _ => v
  }

  function JsItems(items: seq<Value>): (r: seq<Value>)
    ensures |r| == |items| && forall i | 0 <= i < |r| :: r[i] == JsValue(items[i])
  {
    if items == [] then [] else [JsValue(items[0])] + JsItems(items[1..])
  }

  function JsFields(fs: seq<Field>): (r: seq<Field>)
    ensures |r| == |fs| && forall i | 0 <= i < |r| :: r[i] == Field(fs[i].key, JsValue(fs[i].value))
  {
    if fs == [] then [] else [Field(fs[0].key, JsValue(fs[0].value))] + JsFields(fs[1..])
  }

  /** What the worker's collectKeyPaths leaves in its record. */
  function WorkerPathsOf(v: Value): Dict { PathsOf(JsValue(v)) }

  lemma DistinctTail(fs: seq<Field>)
    requires fs != [] && DistinctKeys(fs)
    ensures DistinctKeys(fs[1..]) && forall g | g in fs[1..] :: g.key != fs[0].key
  {}

  lemma DistinctCons(f: Field, fs: seq<Field>)
    requires DistinctKeys(fs) && forall g | g in fs :: g.key != f.key
    ensures DistinctKeys([f] + fs)
  {}

  lemma {:induction false} PlaceIndexDistinct(f: Field, fs: seq<Field>)
    requires DistinctKeys(fs) && forall g | g in fs :: g.key != f.key
    ensures DistinctKeys(PlaceIndex(f, fs))
  {
    if fs == [] || DecimalValue(f.key) < DecimalValue(fs[0].key) {
      DistinctCons(f, fs);
    } else {
      DistinctTail(fs);
      PlaceIndexDistinct(f, fs[1..]);
      DistinctCons(fs[0], PlaceIndex(f, fs[1..]));
    }
  }

  lemma {:induction false} PartsDistinct(fs: seq<Field>)
    requires DistinctKeys(fs)
    ensures DistinctKeys(Indexed(fs)) && DistinctKeys(Named(fs))
  {
    if fs != [] {
      DistinctTail(fs);
      PartsDistinct(fs[1..]);
      if IsIndexKey(fs[0].key) { PlaceIndexDistinct(fs[0], Indexed(fs[1..])); }
      else { DistinctCons(fs[0], Named(fs[1..])); }
    }
  }

  lemma JsOrderDistinct(fs: seq<Field>)
    requires DistinctKeys(fs)
    ensures DistinctKeys(JsOrder(fs))
  {
    PartsDistinct(fs);
    var a, b, all := Indexed(fs), Named(fs), JsOrder(fs);
    forall i, j | 0 <= i < j < |all| ensures all[i].key != all[j].key {
      if i < |a| <= j { assert a[i] in a && b[j - |a|] in b; }
    }
  }

  lemma ReorderedSame(fields: seq<Field>, fs: seq<Field>)
    requires |fs| == |fields| && DistinctKeys(fields)
    requires forall i | 0 <= i < |fs| ::
      fs[i].key == fields[i].key && WellFormed(fs[i].value) && Same(fields[i].value, fs[i].value)
    ensures WellFormed(Object(JsOrder(fs))) && Same(Object(fields), Object(JsOrder(fs)))
  {
    JsOrderDistinct(fs);
    forall f | f in JsOrder(fs) ensures WellFormed(f.value) { assert f in fs; }
    forall i | 0 <= i < |fields| ensures Covered(fields[i], JsOrder(fs)) { assert fs[i] in JsOrder(fs); }
  }

  /** Enumerating a value the JavaScript way changes it in key order only. */
  lemma {:induction false} JsValueSame(v: Value)
    requires WellFormed(v)
    ensures WellFormed(JsValue(v)) && Same(v, JsValue(v))
  {
    match v
    case Array(items) =>
      forall i | 0 <= i < |items| ensures WellFormed(JsItems(items)[i]) && Same(items[i], JsItems(items)[i]) {
        JsValueSame(items[i]);
      }
    case Object(fields) =>
      forall i | 0 <= i < |fields|
        ensures WellFormed(JsFields(fields)[i].value) && Same(fields[i].value, JsFields(fields)[i].value)
      {
        JsValueSame(fields[i].value);
      }
      ReorderedSame(fields, JsFields(fields));
    case _ => SameReflexive(v);
  }

  /** The two walkers give the same map for every value whose own writes are consistent, hence
      for every value with unambiguous keys. */
  lemma WalkersAgree(v: Value)
    requires WellFormed(v) && Consistent(Writes(v, ""))
    ensures WorkerPathsOf(v).kinds == PathsOf(v).kinds
  {
    JsValueSame(v);
    ConsistentIsOrderFree(v, JsValue(v));
  }

  lemma WalkersAgreeOnCleanKeys(v: Value)
    requires WellFormed(v) && CleanKeys(v)
    ensures WorkerPathsOf(v).kinds == PathsOf(v).kinds
  {
    CleanIsConsistent(v);
    WalkersAgree(v);
  }

  /** With a dotted key they can disagree: JavaScript visits the key 1 first, Python last. */
  lemma WalkersCanDisagree()
    ensures var v := Object([Field("1.b", Number("0")), Field("1", Object([Field("b", String("x"))]))]);
            PathsOf(v).kinds == map["1.b" := StringKind] && WorkerPathsOf(v).kinds == map["1.b" := NumberKind]
  {
    var inner := Object([Field("b", String("x"))]);
    var f, g := Field("1.b", Number("0")), Field("1", inner);
    var v := Object([f, g]);
    assert Child("1", "b") == "1.b";
    assert Writes(String("x"), "1.b") == [Write("1.b", StringKind)];
    assert FieldWrites([Field("b", String("x"))][1..], "1") == [];
    assert Writes(inner, "1") == [Write("1.b", StringKind)];
    assert Writes(f.value, "1.b") == [Write("1.b", NumberKind)];
    TwoFieldWrites(f, g);
    TwoFieldWrites(g, f);
    JsSwaps(inner, f, g);
    LastPutWins("1.b", NumberKind, StringKind);
    LastPutWins("1.b", StringKind, NumberKind);
  }

  lemma JsSwaps(inner: Value, f: Field, g: Field)
    requires inner == Object([Field("b", String("x"))])
    requires f == Field("1.b", Number("0")) && g == Field("1", inner)
    ensures JsValue(Object([f, g])) == Object([g, f])
  {
    InnerStays(inner);
    assert JsFields([f, g]) == [f, g];
    assert IsIndexKey("1") by { assert DecimalValue("") == 0; assert DigitRun("1") == 1; }
    assert !IsIndexKey("1.b") by { assert "1.b"[1] == '.'; }
    NameThenIndex(f, g);
  }

  lemma NameThenIndex(f: Field, g: Field)
    requires !IsIndexKey(f.key) && IsIndexKey(g.key)
    ensures JsOrder([f, g]) == [g, f]
  {
    assert [f, g][1..] == [g] && [g][1..] == [];
    assert Indexed([g]) == [g] && Named([g]) == [];
    assert Indexed([f, g]) == [g] && Named([f, g]) == [f];
  }

  lemma InnerStays(inner: Value)
    requires inner == Object([Field("b", String("x"))])
    ensures JsValue(inner) == inner
  {
    var b := Field("b", String("x"));
    assert JsFields([b]) == [b];
    assert Indexed([b]) == [] && Named([b]) == [b];
  }
}
