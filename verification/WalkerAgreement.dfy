/** Exactly when the Python and the TypeScript walker agree on a value whatever order its keys come
    in: when no two writes to one path, of different kinds, part at an integer-like key. */
module WalkerAgreement {
  import opened Common
  import opened Json
  import opened KeyPaths
  import opened WorkerPaths
  import Canonical

  // ---- the condition ----

  /** Fields i and j of one object, the first with an integer-like key, write the same path with
      different kinds. */
  predicate PartAt(fields: seq<Field>, prefix: string, i: nat, j: nat, x: Write, y: Write) {
    i != j && WrittenBy(fields, prefix, x, i) && WrittenBy(fields, prefix, y, j) && IsIndexKey(fields[i].key) &&
    x.path == y.path && x.kind != y.kind
  }

  ghost predicate PartsHere(fields: seq<Field>, prefix: string) {
    exists i: nat, j: nat, x: Write, y: Write :: PartAt(fields, prefix, i, j, x, y)
  }

  /** Somewhere on the walk two writes part that way. */
  ghost predicate IndexConflict(v: Value, prefix: string) {
    match v
    case Array(items) => items != [] && IndexConflict(items[0], prefix + "[]")
    case Object(fields) =>
      PartsHere(fields, prefix) ||
      exists i | 0 <= i < |fields| :: IndexConflict(fields[i].value, Child(prefix, fields[i].key))
    case _ => false
  }

  // ---- what one field says about a path ----

  function At(f: Field, prefix: string, p: string): Option<Kind> {
    Last(Writes(f.value, Child(prefix, f.key)), p)
  }

  lemma LastOfFields(fs: seq<Field>, prefix: string, p: string)
    requires fs != []
    ensures var later := Last(FieldWrites(fs[1..], prefix), p);
      Last(FieldWrites(fs, prefix), p) == if later.Some? then later else At(fs[0], prefix, p)
  {
    LastJoin(Writes(fs[0].value, Child(prefix, fs[0].key)), FieldWrites(fs[1..], prefix), p);
  }

  /** Fields that agree on a path give it their kind in any order. */
  lemma {:induction false} AgreeingFields(fs: seq<Field>, prefix: string, p: string, k: Kind)
    requires forall f | f in fs :: At(f, prefix, p) == None || At(f, prefix, p) == Some(k)
    ensures Last(FieldWrites(fs, prefix), p) ==
      if exists f | f in fs :: At(f, prefix, p) == Some(k) then Some(k) else None
  {
    if fs != [] {
      LastOfFields(fs, prefix, p);
      AgreeingFields(fs[1..], prefix, p, k);
      assert fs == [fs[0]] + fs[1..];
      assert fs[0] in fs;
    }
  }

  lemma SilentFields(fs: seq<Field>, prefix: string, p: string)
    requires forall f | f in fs :: At(f, prefix, p) == None
    ensures Last(FieldWrites(fs, prefix), p) == None
  {
    AgreeingFields(fs, prefix, p, NullKind);
  }

  lemma LastOfJoin(fs: seq<Field>, gs: seq<Field>, prefix: string, p: string)
    ensures var later := Last(FieldWrites(gs, prefix), p);
      Last(FieldWrites(fs + gs, prefix), p) == if later.Some? then later else Last(FieldWrites(fs, prefix), p)
  {
    FieldWritesJoin(fs, gs, prefix);
    LastJoin(FieldWrites(fs, prefix), FieldWrites(gs, prefix), p);
  }

  lemma LastOfOne(f: Field, prefix: string, p: string)
    ensures Last(FieldWrites([f], prefix), p) == At(f, prefix, p)
  {
    LastOfFields([f], prefix, p);
    assert FieldWrites([f][1..], prefix) == [];
  }

  /** Keys that are not integer-like keep their order, so a path that only they write keeps its kind. */
  lemma {:induction false} NamedKeepsLast(fs: seq<Field>, prefix: string, p: string)
    requires forall f | f in fs && IsIndexKey(f.key) :: At(f, prefix, p) == None
    ensures Last(FieldWrites(Named(fs), prefix), p) == Last(FieldWrites(fs, prefix), p)
  {
    if fs != [] {
      assert fs[0] in fs;
      NamedKeepsLast(fs[1..], prefix, p);
      LastOfFields(fs, prefix, p);
      if !IsIndexKey(fs[0].key) {
        LastOfFields(Named(fs), prefix, p);
        assert Named(fs)[1..] == Named(fs[1..]);
      }
    }
  }

  lemma JsOrderKeepsLast(fs: seq<Field>, prefix: string, p: string)
    requires forall f | f in fs && IsIndexKey(f.key) :: At(f, prefix, p) == None
    ensures Last(FieldWrites(JsOrder(fs), prefix), p) == Last(FieldWrites(fs, prefix), p)
  {
    NamedKeepsLast(fs, prefix, p);
    SilentFields(Indexed(fs), prefix, p);
    LastOfJoin(Indexed(fs), Named(fs), prefix, p);
  }

  /** Fields that say the same about a path one by one say the same together. */
  lemma {:induction false} FieldwiseLast(fs: seq<Field>, gs: seq<Field>, prefix: string, p: string)
    requires |fs| == |gs| && forall i | 0 <= i < |fs| :: At(fs[i], prefix, p) == At(gs[i], prefix, p)
    ensures Last(FieldWrites(fs, prefix), p) == Last(FieldWrites(gs, prefix), p)
  {
    if fs != [] {
      forall i | 0 <= i < |fs[1..]| ensures At(fs[1..][i], prefix, p) == At(gs[1..][i], prefix, p) {
        assert fs[1..][i] == fs[i + 1] && gs[1..][i] == gs[i + 1];
      }
      FieldwiseLast(fs[1..], gs[1..], prefix, p);
      LastOfFields(fs, prefix, p);
      LastOfFields(gs, prefix, p);
    }
  }

  lemma AtIsWritten(fields: seq<Field>, prefix: string, p: string, i: nat)
    requires i < |fields| && At(fields[i], prefix, p).Some?
    ensures WrittenBy(fields, prefix, Write(p, At(fields[i], prefix, p).value), i)
  {}

  /** Without a parting, whoever else writes the path of an integer-like key agrees with it. */
  lemma IndexKeyDecides(fields: seq<Field>, prefix: string, p: string, i: nat, j: nat)
    requires !PartsHere(fields, prefix) && i < |fields| && j < |fields| && i != j && IsIndexKey(fields[i].key)
    requires At(fields[i], prefix, p).Some? && At(fields[j], prefix, p).Some?
    ensures At(fields[i], prefix, p) == At(fields[j], prefix, p)
  {
    var x, y := Write(p, At(fields[i], prefix, p).value), Write(p, At(fields[j], prefix, p).value);
    AtIsWritten(fields, prefix, p, i);
    AtIsWritten(fields, prefix, p, j);
    assert PartAt(fields, prefix, i, j, x, y) || x.kind == y.kind;
  }

  // ---- without a conflict the walkers agree ----

  /** The same fields, each saying the same about the path. */
  predicate Fieldwise(fields: seq<Field>, fs: seq<Field>, prefix: string, p: string) {
    |fs| == |fields| &&
    forall i | 0 <= i < |fs| :: fs[i].key == fields[i].key && At(fs[i], prefix, p) == At(fields[i], prefix, p)
  }

  /** An integer-like key that writes the path settles its kind in any order. */
  lemma SettledFields(fields: seq<Field>, fs: seq<Field>, prefix: string, p: string, i: nat)
    requires !PartsHere(fields, prefix) && Fieldwise(fields, fs, prefix, p)
    requires i < |fields| && IsIndexKey(fields[i].key) && At(fields[i], prefix, p).Some?
    ensures Last(FieldWrites(JsOrder(fs), prefix), p) == Last(FieldWrites(fs, prefix), p)
  {
    var k := At(fields[i], prefix, p).value;
    forall f | f in fs ensures At(f, prefix, p) == None || At(f, prefix, p) == Some(k) {
      var j: nat :| j < |fs| && fs[j] == f;
      if j != i && At(f, prefix, p).Some? { IndexKeyDecides(fields, prefix, p, i, j); }
    }
    AgreeingFields(fs, prefix, p, k);
    AgreeingFields(JsOrder(fs), prefix, p, k);
    assert fs[i] in fs && fs[i] in JsOrder(fs);
  }

  /** Enumerating the fields the JavaScript way leaves the path's kind, if each field's own does. */
  lemma FieldsAgree(fields: seq<Field>, fs: seq<Field>, prefix: string, p: string)
    requires !PartsHere(fields, prefix) && Fieldwise(fields, fs, prefix, p)
    ensures Last(FieldWrites(JsOrder(fs), prefix), p) == Last(FieldWrites(fields, prefix), p)
  {
    FieldwiseLast(fields, fs, prefix, p);
    if i: nat :| i < |fields| && IsIndexKey(fields[i].key) && At(fields[i], prefix, p).Some? {
      SettledFields(fields, fs, prefix, p, i);
    } else {
      forall f | f in fs && IsIndexKey(f.key) ensures At(f, prefix, p) == None {
        var j: nat :| j < |fs| && fs[j] == f;
      }
      JsOrderKeepsLast(fs, prefix, p);
    }
  }

  lemma {:induction false} NoConflictAgrees(v: Value, prefix: string, p: string)
    requires !IndexConflict(v, prefix)
    ensures Last(Writes(JsValue(v), prefix), p) == Last(Writes(v, prefix), p)
    decreases v
  {
    match v
    case Array(items) =>
      if items != [] {
        NoConflictAgrees(items[0], prefix + "[]", p);
        ThroughFirst(items, prefix, p);
      }
    case Object(fields) =>
      forall i | 0 <= i < |fields| ensures At(JsFields(fields)[i], prefix, p) == At(fields[i], prefix, p) {
        NoConflictAgrees(fields[i].value, Child(prefix, fields[i].key), p);
      }
      if fields != [] { ThroughFields(fields, prefix, p); }
    case _ =>
  }

  lemma ThroughFirst(items: seq<Value>, prefix: string, p: string)
    requires items != []
    requires Last(Writes(JsValue(items[0]), prefix + "[]"), p) == Last(Writes(items[0], prefix + "[]"), p)
    ensures Last(Writes(JsValue(Array(items)), prefix), p) == Last(Writes(Array(items), prefix), p)
  {
    LastJoin(OwnWrite(Array(items), prefix), Writes(items[0], prefix + "[]"), p);
    LastJoin(OwnWrite(Array(JsItems(items)), prefix), Writes(JsValue(items[0]), prefix + "[]"), p);
  }

  lemma ThroughFields(fields: seq<Field>, prefix: string, p: string)
    requires fields != [] && !PartsHere(fields, prefix) && Fieldwise(fields, JsFields(fields), prefix, p)
    ensures Last(Writes(JsValue(Object(fields)), prefix), p) == Last(Writes(Object(fields), prefix), p)
  {
    FieldsAgree(fields, JsFields(fields), prefix, p);
    ObjectWrites(fields, prefix);
    ObjectWrites(JsOrder(JsFields(fields)), prefix);
  }

  lemma ObjectWrites(fields: seq<Field>, prefix: string)
    requires fields != []
    ensures Writes(Object(fields), prefix) == FieldWrites(fields, prefix)
  {}

  // ---- a conflict does not depend on key order ----

  lemma FieldIn(fields: seq<Field>, gs: seq<Field>, i: nat) returns (j: nat)
    requires Same(Object(fields), Object(gs)) && i < |fields|
    ensures j < |gs| && gs[j].key == fields[i].key && Same(fields[i].value, gs[j].value)
  {
    assert Covered(fields[i], gs);
    j :| 0 <= j < |gs| && fields[i].key == gs[j].key && Same(fields[i].value, gs[j].value);
  }

  lemma PartingCarriesOver(fields: seq<Field>, gs: seq<Field>, prefix: string)
    requires Same(Object(fields), Object(gs)) && DistinctKeys(fields) && PartsHere(fields, prefix)
    ensures PartsHere(gs, prefix)
  {
    var i: nat, j: nat, x: Write, y: Write :| PartAt(fields, prefix, i, j, x, y);
    var a := FieldIn(fields, gs, i);
    var b := FieldIn(fields, gs, j);
    WritesCarryOver(fields[i].value, gs[a].value, Child(prefix, fields[i].key), x);
    WritesCarryOver(fields[j].value, gs[b].value, Child(prefix, fields[j].key), y);
    assert fields[i].key != fields[j].key;
    assert PartAt(gs, prefix, a, b, x, y);
  }

  lemma {:induction false} ConflictCarriesOver(v: Value, w: Value, prefix: string)
    requires WellFormed(v) && Same(v, w) && IndexConflict(v, prefix)
    ensures IndexConflict(w, prefix)
    decreases v
  {
    match v
    case Array(items) => ConflictCarriesOver(items[0], w.items[0], prefix + "[]");
    case Object(fields) =>
      if PartsHere(fields, prefix) {
        PartingCarriesOver(fields, w.fields, prefix);
      } else {
        var i :| 0 <= i < |fields| && IndexConflict(fields[i].value, Child(prefix, fields[i].key));
        var j := FieldIn(fields, w.fields, i);
        ConflictCarriesOver(fields[i].value, w.fields[j].value, Child(prefix, fields[i].key));
      }
  }

  // ---- moving an integer-like key changes nothing for JavaScript ----

  /** A string of digits without a leading zero. */
  predicate Plain(k: string) {
    (forall i | 0 <= i < |k| :: IsDigit(k[i])) && (k != "" ==> k[0] != '0')
  }

  lemma {:induction false} PlainIsPositive(k: string)
    requires Plain(k) && k != ""
    ensures DecimalValue(k) > 0
  {
    if |k| == 1 {
      assert k[..0] == "";
      assert DecimalValue("") == 0;
    } else {
      PlainIsPositive(k[..|k| - 1]);
    }
  }

  lemma {:induction false} PlainInjective(k: string, l: string)
    requires Plain(k) && Plain(l) && DecimalValue(k) == DecimalValue(l)
    ensures k == l
  {
    if k == "" || l == "" {
      if k != "" { PlainIsPositive(k); }
      if l != "" { PlainIsPositive(l); }
    } else {
      var m, n := |k| - 1, |l| - 1;
      LastDigit(k);
      LastDigit(l);
      PlainInjective(k[..m], l[..n]);
      assert k == k[..m] + [k[m]] && l == l[..n] + [l[n]];
    }
  }

  lemma LastDigit(k: string)
    requires Plain(k) && k != ""
    ensures Plain(k[..|k| - 1])
    ensures DecimalValue(k[..|k| - 1]) == DecimalValue(k) / 10
    ensures k[|k| - 1] as int == '0' as int + DecimalValue(k) % 10
  {}

  lemma {:induction false} AllDigits(k: string)
    requires DigitRun(k) == |k|
    ensures forall i | 0 <= i < |k| :: IsDigit(k[i])
  {}

  lemma IndexKeysDiffer(k: string, l: string)
    requires IsIndexKey(k) && IsIndexKey(l) && k != l
    ensures DecimalValue(k) != DecimalValue(l)
  {
    AllDigits(k);
    AllDigits(l);
    if k[0] == '0' || l[0] == '0' {
      ZeroValue();
      if k[0] == '0' { assert k == "0"; } else { PlainIsPositive(k); }
      if l[0] == '0' { assert l == "0"; } else { PlainIsPositive(l); }
    } else if DecimalValue(k) == DecimalValue(l) {
      PlainInjective(k, l);
    }
  }

  lemma ZeroValue()
    ensures DecimalValue("0") == 0
  {
    assert "0"[..0] == "" && DecimalValue("") == 0;
  }

  lemma {:induction false} PlacingCommutes(f: Field, g: Field, fs: seq<Field>)
    requires DecimalValue(f.key) != DecimalValue(g.key)
    ensures PlaceIndex(f, PlaceIndex(g, fs)) == PlaceIndex(g, PlaceIndex(f, fs))
  {
    if fs != [] && DecimalValue(f.key) >= DecimalValue(fs[0].key) && DecimalValue(g.key) >= DecimalValue(fs[0].key) {
      PlacingCommutes(f, g, fs[1..]);
      PlaceAfter(f, fs);
      PlaceAfter(g, fs);
      PlaceAfter(f, PlaceIndex(g, fs));
      PlaceAfter(g, PlaceIndex(f, fs));
    } else {
      PlaceBoth(f, g, fs);
      PlaceBoth(g, f, fs);
    }
  }

  lemma PlaceAfter(f: Field, fs: seq<Field>)
    requires fs != [] && DecimalValue(f.key) >= DecimalValue(fs[0].key)
    ensures PlaceIndex(f, fs) == [fs[0]] + PlaceIndex(f, fs[1..])
    ensures PlaceIndex(f, fs)[0] == fs[0] && PlaceIndex(f, fs)[1..] == PlaceIndex(f, fs[1..])
  {}

  lemma PlaceBefore(f: Field, fs: seq<Field>)
    requires fs == [] || DecimalValue(f.key) < DecimalValue(fs[0].key)
    ensures PlaceIndex(f, fs) == [f] + fs
    ensures PlaceIndex(f, fs)[0] == f && PlaceIndex(f, fs)[1..] == fs
  {}

  /** Placing the smaller of two, at the front of both lists. */
  lemma PlaceBoth(f: Field, g: Field, fs: seq<Field>)
    requires fs == [] || DecimalValue(f.key) < DecimalValue(fs[0].key) || DecimalValue(g.key) < DecimalValue(fs[0].key)
    requires DecimalValue(f.key) != DecimalValue(g.key)
    ensures DecimalValue(f.key) < DecimalValue(g.key) ==>
      PlaceIndex(f, PlaceIndex(g, fs)) == PlaceIndex(g, PlaceIndex(f, fs))
  {
    if DecimalValue(f.key) < DecimalValue(g.key) {
      PlaceBefore(f, fs);
      PlaceAfter(g, PlaceIndex(f, fs));
      if fs == [] || DecimalValue(g.key) < DecimalValue(fs[0].key) {
        PlaceBefore(g, fs);
      } else {
        PlaceAfter(g, fs);
      }
      PlaceBefore(f, PlaceIndex(g, fs));
    }
  }

  lemma {:induction false} IndexedSnoc(fs: seq<Field>, f: Field)
    requires IsIndexKey(f.key) && forall g | g in fs :: g.key != f.key
    ensures Indexed(fs + [f]) == PlaceIndex(f, Indexed(fs)) && Named(fs + [f]) == Named(fs)
  {
    if fs == [] {
      assert fs + [f] == [f] && [f][1..] == [];
    } else {
      assert (fs + [f])[1..] == fs[1..] + [f];
      IndexedSnoc(fs[1..], f);
      if IsIndexKey(fs[0].key) {
        IndexKeysDiffer(fs[0].key, f.key);
        PlacingCommutes(fs[0], f, Indexed(fs[1..]));
      }
    }
  }

  lemma JsOrderRotates(fs: seq<Field>, f: Field)
    requires IsIndexKey(f.key) && forall g | g in fs :: g.key != f.key
    ensures JsOrder(fs + [f]) == JsOrder([f] + fs)
  {
    IndexedSnoc(fs, f);
    assert ([f] + fs)[1..] == fs;
  }

  lemma JsFieldsRotate(fs: seq<Field>, f: Field)
    ensures JsFields(fs + [f]) == JsFields(fs) + JsFields([f])
    ensures JsFields([f] + fs) == JsFields([f]) + JsFields(fs)
  {}

  lemma JsValueRotates(fs: seq<Field>, f: Field)
    requires IsIndexKey(f.key) && forall g | g in fs :: g.key != f.key
    ensures JsValue(Object(fs + [f])) == JsValue(Object([f] + fs))
  {
    JsFieldsRotate(fs, f);
    forall g | g in JsFields(fs) ensures g.key != f.key {
      var i: nat :| i < |fs| && JsFields(fs)[i] == g;
      assert fs[i] in fs;
    }
    JsOrderRotates(JsFields(fs), JsFields([f])[0]);
  }

  lemma RotatedSame(fs: seq<Field>, f: Field)
    requires WellFormed(Object(fs + [f]))
    ensures WellFormed(Object([f] + fs)) && Same(Object(fs + [f]), Object([f] + fs))
  {
    var a, b := fs + [f], [f] + fs;
    forall i | 0 <= i < |a| ensures Covered(a[i], b) {
      SameReflexive(a[i].value);
      if i < |fs| { assert b[i + 1] == a[i]; } else { assert b[0] == a[i]; }
    }
    forall i, j | 0 <= i < j < |b| ensures b[i].key != b[j].key {
      assert b[j] == a[j - 1] && b[i] == if i == 0 then a[|fs|] else a[i - 1];
    }
    forall i | 0 <= i < |b| ensures WellFormed(b[i].value) { assert b[i] == if i == 0 then a[|fs|] else a[i - 1]; }
  }

  // ---- with a conflict some key order makes them disagree ----

  /** The walkers give the path different kinds. */
  ghost predicate Disagree(w: Value, prefix: string, p: string) {
    var k, l := Last(Writes(w, prefix), p), Last(Writes(JsValue(w), prefix), p);
    k.Some? && l.Some? && k != l
  }

  /** The order of front and f makes the walkers disagree, or the one with f first does. */
  lemma OneOrderDisagrees(front: seq<Field>, f: Field, prefix: string, p: string) returns (w: Value)
    requires WellFormed(Object(front + [f])) && IsIndexKey(f.key)
    requires At(f, prefix, p).Some? && Last(FieldWrites(front, prefix), p).Some?
    requires At(f, prefix, p) != Last(FieldWrites(front, prefix), p)
    ensures WellFormed(w) && Same(Object(front + [f]), w) && Disagree(w, prefix, p)
  {
    var a, b := Object(front + [f]), Object([f] + front);
    OtherKeys(front, f);
    JsValueRotates(front, f);
    RotatedSame(front, f);
    SameReflexive(a);
    ObjectWrites(front + [f], prefix);
    ObjectWrites([f] + front, prefix);
    LastOfOne(f, prefix, p);
    LastOfJoin(front, [f], prefix, p);
    LastOfJoin([f], front, prefix, p);
    JsWritesToo(a, prefix, p);
    w := if Last(Writes(JsValue(a), prefix), p) == At(f, prefix, p) then b else a;
  }

  lemma OtherKeys(front: seq<Field>, f: Field)
    requires DistinctKeys(front + [f])
    ensures forall g | g in front :: g.key != f.key
  {
    forall g | g in front ensures g.key != f.key {
      var i :| 0 <= i < |front| && front[i] == g;
      assert (front + [f])[i] == g && (front + [f])[|front|] == f;
    }
  }

  lemma JsWritesToo(v: Value, prefix: string, p: string)
    requires WellFormed(v) && Last(Writes(v, prefix), p).Some?
    ensures Last(Writes(JsValue(v), prefix), p).Some?
  {
    JsValueSame(v);
    WritesCarryOver(v, JsValue(v), prefix, Write(p, Last(Writes(v, prefix), p).value));
  }

  /** Bringing field i to the end, with the keys inside it moved so that x is its last write. */
  lemma BroughtToEnd(fields: seq<Field>, prefix: string, x: Write, i: nat) returns (front: seq<Field>, f: Field)
    requires WellFormed(Object(fields)) && WrittenBy(fields, prefix, x, i)
    ensures front == fields[..i] + fields[i + 1..] && f.key == fields[i].key
    ensures At(f, prefix, x.path) == Some(x.kind)
    ensures WellFormed(Object(front + [f])) && Same(Object(fields), Object(front + [f]))
  {
    var child := Child(prefix, fields[i].key);
    var value := BringLast(fields[i].value, child, x);
    front, f := fields[..i] + fields[i + 1..], Field(fields[i].key, value);
    BringLastSame(fields[i].value, child, x);
    BringLastWins(fields[i].value, child, x);
    MoveLastSame(fields, i, value);
  }

  /** Where field i of a list stands once field j has been moved to the end. */
  lemma FieldMoved(fields: seq<Field>, i: nat, j: nat, g: Field) returns (m: nat)
    requires i < |fields| && j < |fields| && i != j
    ensures var front := fields[..j] + fields[j + 1..];
      m < |front| && front[m] == fields[i] && (front + [g])[m] == fields[i]
  {
    m := if i < j then i else i - 1;
  }

  /** Bringing j and then i to the end, so that y is the last write of the path before x. */
  lemma BothBroughtToEnd(fields: seq<Field>, prefix: string, i: nat, j: nat, x: Write, y: Write)
    returns (front: seq<Field>, f: Field)
    requires WellFormed(Object(fields)) && PartAt(fields, prefix, i, j, x, y)
    ensures WellFormed(Object(front + [f])) && Same(Object(fields), Object(front + [f]))
    ensures f.key == fields[i].key && At(f, prefix, x.path) == Some(x.kind)
    ensures Last(FieldWrites(front, prefix), x.path) == Some(y.kind)
  {
    var front0, g := BroughtToEnd(fields, prefix, y, j);
    var m := FieldMoved(fields, i, j, g);
    front, f := BroughtToEnd(front0 + [g], prefix, x, m);
    EndsWith(front0, g, m, front);
    LastOfOne(g, prefix, y.path);
    LastOfJoin(front0[..m] + front0[m + 1..], [g], prefix, y.path);
    Canonical.SameEquivalence(Object(fields), Object(front0 + [g]), Object(front + [f]));
  }

  lemma PartingRealised(fields: seq<Field>, prefix: string) returns (w: Value, p: string)
    requires WellFormed(Object(fields)) && PartsHere(fields, prefix)
    ensures WellFormed(w) && Same(Object(fields), w) && Disagree(w, prefix, p)
  {
    var i: nat, j: nat, x: Write, y: Write :| PartAt(fields, prefix, i, j, x, y);
    p := x.path;
    var front, f := BothBroughtToEnd(fields, prefix, i, j, x, y);
    w := OneOrderDisagrees(front, f, prefix, p);
    Canonical.SameEquivalence(Object(fields), Object(front + [f]), w);
  }

  lemma EndsWith(front0: seq<Field>, g: Field, i: nat, front: seq<Field>)
    requires i < |front0| && front == (front0 + [g])[..i] + (front0 + [g])[i + 1..]
    ensures front == front0[..i] + front0[i + 1..] + [g]
  {}

  /** A disagreement about field i shows through the object, with that field last. */
  lemma ShownThroughObject(fields: seq<Field>, prefix: string, i: nat, u: Value, p: string)
    requires WellFormed(Object(fields)) && i < |fields| && !PartsHere(fields, prefix)
    requires WellFormed(u) && Same(fields[i].value, u) && Disagree(u, Child(prefix, fields[i].key), p)
    ensures Disagree(Object(MoveLast(fields, i, u)), prefix, p)
  {
    var front, f := fields[..i] + fields[i + 1..], Field(fields[i].key, u);
    var fs := JsFields(front + [f]);
    var f' := Field(f.key, JsValue(u));
    LastOfOne(f, prefix, p);
    LastOfJoin(front, [f], prefix, p);
    ObjectWrites(front + [f], prefix);
    ObjectWrites(JsOrder(fs), prefix);
    JsFieldsSnoc(front, f);
    OthersSilent(fields, prefix, i, u, p);
    JsEnd(JsFields(front), f', prefix, p);
  }

  lemma JsFieldsSnoc(front: seq<Field>, f: Field)
    ensures JsFields(front + [f]) == JsFields(front) + [Field(f.key, JsValue(f.value))]
  {}

  /** Where two kinds meet at field i, no other field writes the path if either key is integer-like. */
  lemma OthersSilent(fields: seq<Field>, prefix: string, i: nat, u: Value, p: string)
    requires WellFormed(Object(fields)) && i < |fields| && !PartsHere(fields, prefix)
    requires WellFormed(u) && Same(fields[i].value, u) && Disagree(u, Child(prefix, fields[i].key), p)
    ensures var others := JsFields(fields[..i] + fields[i + 1..]);
      forall g | g in others && (IsIndexKey(fields[i].key) || IsIndexKey(g.key)) :: At(g, prefix, p) == None
  {
    var front := fields[..i] + fields[i + 1..];
    forall g | g in JsFields(front) && (IsIndexKey(fields[i].key) || IsIndexKey(g.key))
      ensures At(g, prefix, p) == None
    {
      var j := OtherField(fields, i, g);
      OtherSilent(fields, prefix, i, j, u, p, g);
    }
  }

  /** A field of the rest is one of the others, as JavaScript enumerates it. */
  lemma OtherField(fields: seq<Field>, i: nat, g: Field) returns (j: nat)
    requires i < |fields| && g in JsFields(fields[..i] + fields[i + 1..])
    ensures j < |fields| && j != i && g == Field(fields[j].key, JsValue(fields[j].value))
  {
    var front := fields[..i] + fields[i + 1..];
    var m: nat :| m < |front| && JsFields(front)[m] == g;
    j := if m < i then m else m + 1;
    assert front[m] == fields[j];
  }

  lemma OtherSilent(fields: seq<Field>, prefix: string, i: nat, j: nat, u: Value, p: string, g: Field)
    requires WellFormed(Object(fields)) && i < |fields| && j < |fields| && i != j && !PartsHere(fields, prefix)
    requires WellFormed(u) && Same(fields[i].value, u) && Disagree(u, Child(prefix, fields[i].key), p)
    requires g == Field(fields[j].key, JsValue(fields[j].value))
    requires IsIndexKey(fields[i].key) || IsIndexKey(g.key)
    ensures At(g, prefix, p) == None
  {
    var k := At(g, prefix, p);
    if k.Some? { BothKindsMeet(fields, prefix, i, j, u, p, Write(p, k.value)); }
  }

  lemma BothKindsMeet(fields: seq<Field>, prefix: string, i: nat, j: nat, u: Value, p: string, z: Write)
    requires WellFormed(Object(fields)) && i < |fields| && j < |fields| && i != j
    requires WellFormed(u) && Same(fields[i].value, u) && Disagree(u, Child(prefix, fields[i].key), p)
    requires z.path == p && z in Writes(JsValue(fields[j].value), Child(prefix, fields[j].key))
    requires IsIndexKey(fields[i].key) || IsIndexKey(fields[j].key)
    ensures PartsHere(fields, prefix)
  {
    var child := Child(prefix, fields[i].key);
    var x, y := Write(p, Last(Writes(u, child), p).value), Write(p, Last(Writes(JsValue(u), child), p).value);
    JsValueSame(u);
    Canonical.SameEquivalence(u, JsValue(u), u);
    Canonical.SameEquivalence(fields[i].value, u, u);
    WritesCarryOver(JsValue(u), u, child, y);
    WritesCarryOver(u, fields[i].value, child, x);
    WritesCarryOver(u, fields[i].value, child, y);
    JsValueSame(fields[j].value);
    Canonical.SameEquivalence(fields[j].value, JsValue(fields[j].value), fields[j].value);
    WritesCarryOver(JsValue(fields[j].value), fields[j].value, Child(prefix, fields[j].key), z);
    var other := if x.kind != z.kind then x else y;
    if IsIndexKey(fields[i].key) {
      assert PartAt(fields, prefix, i, j, other, z);
    } else {
      assert PartAt(fields, prefix, j, i, z, other);
    }
  }

  /** What JavaScript makes of a path whose last field is f. */
  lemma JsEnd(gs: seq<Field>, f: Field, prefix: string, p: string)
    requires At(f, prefix, p).Some?
    requires forall g | g in gs && (IsIndexKey(f.key) || IsIndexKey(g.key)) :: At(g, prefix, p) == None
    ensures Last(FieldWrites(JsOrder(gs + [f]), prefix), p) == At(f, prefix, p)
  {
    var all := gs + [f];
    if IsIndexKey(f.key) {
      forall g | g in JsOrder(all) ensures At(g, prefix, p) == None || At(g, prefix, p) == At(f, prefix, p) {
        assert g in all;
      }
      assert f in all;
      AgreeingFields(JsOrder(all), prefix, p, At(f, prefix, p).value);
    } else {
      JsOrderKeepsLast(all, prefix, p);
      LastOfOne(f, prefix, p);
      LastOfJoin(gs, [f], prefix, p);
    }
  }

  lemma {:induction false} ConflictRealised(v: Value, prefix: string) returns (w: Value, p: string)
    requires WellFormed(v) && IndexConflict(v, prefix)
    ensures WellFormed(w) && Same(v, w) && Disagree(w, prefix, p)
    decreases v
  {
    match v
    case Array(items) =>
      var u: Value;
      u, p := ConflictRealised(items[0], prefix + "[]");
      w := Array([u] + items[1..]);
      ReplaceFirstSame(items, u);
      LastJoin(OwnWrite(w, prefix), Writes(u, prefix + "[]"), p);
      LastJoin(OwnWrite(JsValue(w), prefix), Writes(JsValue(u), prefix + "[]"), p);
    case Object(fields) =>
      if PartsHere(fields, prefix) {
        w, p := PartingRealised(fields, prefix);
      } else {
        var i: nat :| i < |fields| && IndexConflict(fields[i].value, Child(prefix, fields[i].key));
        var u: Value;
        u, p := ConflictRealised(fields[i].value, Child(prefix, fields[i].key));
        w := Object(MoveLast(fields, i, u));
        MoveLastSame(fields, i, u);
        ShownThroughObject(fields, prefix, i, u, p);
      }
  }

  // ---- exactly ----

  lemma SameKinds(v: Value)
    requires WellFormed(v) && !IndexConflict(v, "")
    ensures WorkerPathsOf(v).kinds == PathsOf(v).kinds
  {
    forall p
      ensures p in WorkerPathsOf(v).kinds <==> p in PathsOf(v).kinds
      ensures p in PathsOf(v).kinds ==> WorkerPathsOf(v).kinds[p] == PathsOf(v).kinds[p]
    {
      PathsOfHolds(v, p);
      PathsOfHolds(JsValue(v), p);
      NoConflictAgrees(v, "", p);
    }
  }

  /** The two walkers agree on every key order of a value exactly when no two writes to one path with
      different kinds part at an integer-like key. */
  lemma WalkersAgreeExactly(v: Value)
    requires WellFormed(v)
    ensures (forall w | WellFormed(w) && Same(v, w) :: WorkerPathsOf(w).kinds == PathsOf(w).kinds)
       <==> !IndexConflict(v, "")
  {
    if IndexConflict(v, "") {
      var w, p := ConflictRealised(v, "");
      PathsOfHolds(w, p);
      PathsOfHolds(JsValue(w), p);
      assert WorkerPathsOf(w).kinds != PathsOf(w).kinds;
    } else {
      forall w | WellFormed(w) && Same(v, w) ensures WorkerPathsOf(w).kinds == PathsOf(w).kinds {
        Canonical.SameEquivalence(v, w, v);
        if IndexConflict(w, "") { ConflictCarriesOver(w, v, ""); }
        SameKinds(w);
      }
    }
  }
}
