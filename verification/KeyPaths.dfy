/** The key-path walker both schema inference and schema evaluation use, in its Python form
    (collect_key_paths) and in the worker's TypeScript form (collectKeyPaths). */
module KeyPaths {
  import opened Common
  import opened Json
  import Canonical

  datatype Kind = NullKind | BooleanKind | NumberKind | StringKind | ArrayKind | ObjectKind

  /** One assignment out[path] = kind. */
  datatype Write = Write(path: string, kind: Kind)

  function KindOf(v: Value): Kind {
    match v
    case Null => NullKind
    case Bool(_) => BooleanKind
    case Number(_) => NumberKind
    case String(_) => StringKind
    case Array(_) => ArrayKind
    case Object(_) => ObjectKind
  }

  /** A value the walker records at its own path: anything but an object with keys. */
  predicate Noted(v: Value) { !(v.Object? && v.fields != []) }

  function Child(prefix: string, key: string): string {
    if prefix != "" then prefix + "." + key else key
  }

  function OwnWrite(v: Value, prefix: string): seq<Write> {
    if prefix != "" && Noted(v) then [Write(prefix, KindOf(v))] else []
  }

  /** The assignments the walker makes, in order. */
  function Writes(v: Value, prefix: string): seq<Write>
    decreases v, 0
  {
    OwnWrite(v, prefix) +
    match v
    case Array(items) => if items != [] then Writes(items[0], prefix + "[]") else []
    case Object(fields) => FieldWrites(fields, prefix)
    case _ => []
  }

  function FieldWrites(fields: seq<Field>, prefix: string): seq<Write>
    decreases fields, 1
  {
    if fields == [] then []
    else Writes(fields[0].value, Child(prefix, fields[0].key)) + FieldWrites(fields[1..], prefix)
  }

  // ---- the dictionary being filled ----

  /** A Python dict from paths to kinds: its keys in insertion order. */
  datatype Dict = Dict(order: seq<string>, kinds: map<string, Kind>)

  const EMPTY_DICT := Dict([], map[])

  function Put(d: Dict, w: Write): Dict {
    Dict(if w.path in d.kinds then d.order else d.order + [w.path], d.kinds[w.path := w.kind])
  }

  function PutAll(d: Dict, ws: seq<Write>): Dict
    decreases |ws|
  {
    if ws == [] then d else PutAll(Put(d, ws[0]), ws[1..])
  }

  lemma {:induction false} PutAllJoin(d: Dict, xs: seq<Write>, ys: seq<Write>)
    ensures PutAll(d, xs + ys) == PutAll(PutAll(d, xs), ys)
    decreases |xs|
  {
    if xs == [] {
      assert xs + ys == ys;
    } else {
      assert (xs + ys)[1..] == xs[1..] + ys;
      PutAllJoin(Put(d, xs[0]), xs[1..], ys);
    }
  }

  /** What the walker leaves in an empty dictionary. */
  function PathsOf(v: Value): Dict { PutAll(EMPTY_DICT, Writes(v, "")) }

  /** The walker itself: a recursion that assigns into the dictionary it was given. */
  class Collector {
    var out: Dict

    constructor ()
      ensures out == EMPTY_DICT
    {
      out := EMPTY_DICT;
    }

    method Note(prefix: string, kind: Kind)
      modifies this
      ensures out == if prefix != "" then Put(old(out), Write(prefix, kind)) else old(out)
    {
      if prefix != "" { out := Put(out, Write(prefix, kind)); }
    }

    method Collect(value: Value, prefix: string)
      modifies this
      ensures out == PutAll(old(out), Writes(value, prefix))
      decreases value
    {
      match value {
        case Null => Note(prefix, NullKind);
        case Bool(_) => Note(prefix, BooleanKind);
        case Number(_) => Note(prefix, NumberKind);
        case String(_) => Note(prefix, StringKind);
        case Array(items) =>
          Note(prefix, ArrayKind);
          if items != [] {
            PutAllJoin(old(out), OwnWrite(value, prefix), Writes(items[0], prefix + "[]"));
            Collect(items[0], prefix + "[]");
          }
        case Object(fields) =>
          if fields == [] {
            Note(prefix, ObjectKind);
          } else {
            assert Writes(value, prefix) == FieldWrites(fields, prefix);
            CollectFields(fields, prefix);
          }
      }
    }

    method CollectFields(fields: seq<Field>, prefix: string)
      modifies this
      ensures out == PutAll(old(out), FieldWrites(fields, prefix))
      decreases fields
    {
      assert fields[0..] == fields;
      var i := 0;
      while i < |fields|
        invariant 0 <= i <= |fields|
        invariant PutAll(out, FieldWrites(fields[i..], prefix)) == PutAll(old(out), FieldWrites(fields, prefix))
      {
        assert fields[i..][1..] == fields[i + 1..];
        PutAllJoin(out, Writes(fields[i].value, Child(prefix, fields[i].key)),
                   FieldWrites(fields[i + 1..], prefix));
        Collect(fields[i].value, Child(prefix, fields[i].key));
        i := i + 1;
      }
      assert fields[i..] == [];
    }
  }

  // ---- what the dictionary holds ----

  function Last(ws: seq<Write>, p: string): (r: Option<Kind>)
    ensures r.Some? <==> exists w | w in ws :: w.path == p
    ensures r.Some? ==> Write(p, r.value) in ws
  {
    if ws == [] then None
    else
      var later := Last(ws[1..], p);
      if later.Some? then later
      else if ws[0].path == p then Some(ws[0].kind) else None
  }

  lemma {:induction false} LastJoin(xs: seq<Write>, ys: seq<Write>, p: string)
    ensures Last(xs + ys, p) == if Last(ys, p).Some? then Last(ys, p) else Last(xs, p)
  {
    if xs == [] {
      assert xs + ys == ys;
    } else {
      assert (xs + ys)[1..] == xs[1..] + ys;
      LastJoin(xs[1..], ys, p);
    }
  }

  /** The dictionary maps a path to the kind written to it last, and holds no other path. */
  lemma {:induction false} PutAllLooksUp(d: Dict, ws: seq<Write>, p: string)
    ensures var m := PutAll(d, ws).kinds;
      match Last(ws, p)
      case Some(k) => p in m && m[p] == k
      case None => (p in m <==> p in d.kinds) && (p in m ==> m[p] == d.kinds[p])
    decreases |ws|
  {
    if ws != [] { PutAllLooksUp(Put(d, ws[0]), ws[1..], p); }
  }

  ghost predicate OrderMatches(d: Dict) {
    (forall p :: p in d.order <==> p in d.kinds) &&
    forall i, j | 0 <= i < j < |d.order| :: d.order[i] != d.order[j]
  }

  /** The key list of the dictionary names each of its paths once. */
  lemma {:induction false} PutAllOrder(d: Dict, ws: seq<Write>)
    requires OrderMatches(d)
    ensures OrderMatches(PutAll(d, ws))
    decreases |ws|
  {
    if ws != [] { PutAllOrder(Put(d, ws[0]), ws[1..]); }
  }

  lemma PathsOfHolds(v: Value, p: string)
    ensures var m := PathsOf(v).kinds; var k := Last(Writes(v, ""), p);
      (p in m <==> k.Some?) && (p in m ==> k == Some(m[p]))
    ensures p in PathsOf(v).order <==> p in PathsOf(v).kinds
  {
    PutAllLooksUp(EMPTY_DICT, Writes(v, ""), p);
    PutAllOrder(EMPTY_DICT, Writes(v, ""));
  }

  // ---- when key order matters ----

  /** No path is written twice with different kinds. */
  predicate Consistent(ws: seq<Write>) {
    forall x, y | x in ws && y in ws && x.path == y.path :: x.kind == y.kind
  }

  lemma WritesMember(v: Value, prefix: string, x: Write)
    ensures x in Writes(v, prefix) <==>
      x in OwnWrite(v, prefix) ||
      (v.Array? && v.items != [] && x in Writes(v.items[0], prefix + "[]")) ||
      (v.Object? && x in FieldWrites(v.fields, prefix))
  {}

  lemma FieldWritesMember(fields: seq<Field>, prefix: string, x: Write)
    requires fields != []
    ensures x in FieldWrites(fields, prefix) <==>
      x in Writes(fields[0].value, Child(prefix, fields[0].key)) || x in FieldWrites(fields[1..], prefix)
  {}

  lemma {:induction false} InFieldWrites(fields: seq<Field>, prefix: string, x: Write, i: nat)
    requires i < |fields| && x in Writes(fields[i].value, Child(prefix, fields[i].key))
    ensures x in FieldWrites(fields, prefix)
  {
    if i > 0 {
      var rest := fields[1..];
      assert rest[i - 1] == fields[i];
      InFieldWrites(rest, prefix, x, i - 1);
    }
    FieldWritesMember(fields, prefix, x);
  }

  predicate WrittenBy(fields: seq<Field>, prefix: string, x: Write, i: nat) {
    i < |fields| && x in Writes(fields[i].value, Child(prefix, fields[i].key))
  }

  lemma WrittenByTail(fields: seq<Field>, prefix: string, x: Write, i: nat)
    requires fields != [] && WrittenBy(fields[1..], prefix, x, i)
    ensures WrittenBy(fields, prefix, x, i + 1)
  {}

  lemma FirstOrRest(fields: seq<Field>, prefix: string, x: Write)
    requires x in FieldWrites(fields, prefix)
    ensures fields != [] && (WrittenBy(fields, prefix, x, 0) || x in FieldWrites(fields[1..], prefix))
  {}

  lemma {:induction false} SomeFieldWrites(fields: seq<Field>, prefix: string, x: Write)
    requires x in FieldWrites(fields, prefix)
    ensures exists i: nat :: WrittenBy(fields, prefix, x, i)
    decreases |fields|
  {
    FirstOrRest(fields, prefix, x);
    if !WrittenBy(fields, prefix, x, 0) {
      SomeFieldWrites(fields[1..], prefix, x);
      var i: nat :| WrittenBy(fields[1..], prefix, x, i);
      WrittenByTail(fields, prefix, x, i);
    }
  }

  lemma FieldOfWrite(fields: seq<Field>, prefix: string, x: Write) returns (i: nat)
    requires x in FieldWrites(fields, prefix)
    ensures WrittenBy(fields, prefix, x, i)
  {
    SomeFieldWrites(fields, prefix, x);
    i :| WrittenBy(fields, prefix, x, i);
  }

  /** Values equal up to key order make the same assignments, in some order. */
  lemma {:induction false} WritesCarryOver(v: Value, w: Value, prefix: string, x: Write)
    requires Same(v, w) && x in Writes(v, prefix)
    ensures x in Writes(w, prefix)
    decreases v
  {
    WritesMember(v, prefix, x);
    WritesMember(w, prefix, x);
    if x in OwnWrite(v, prefix) {
      assert KindOf(v) == KindOf(w) && OwnWrite(v, prefix) == OwnWrite(w, prefix);
    } else if v.Array? {
      WritesCarryOver(v.items[0], w.items[0], prefix + "[]", x);
    } else {
      var i := FieldOfWrite(v.fields, prefix, x);
      assert Covered(v.fields[i], w.fields);
      var j :| 0 <= j < |w.fields| && v.fields[i].key == w.fields[j].key && Same(v.fields[i].value, w.fields[j].value);
      WritesCarryOver(v.fields[i].value, w.fields[j].value, Child(prefix, v.fields[i].key), x);
      InFieldWrites(w.fields, prefix, x, j);
    }
  }

  /** Consistent writes leave the same dictionary whatever order the keys come in. */
  lemma ConsistentIsOrderFree(v: Value, w: Value)
    requires WellFormed(v) && WellFormed(w) && Same(v, w) && Consistent(Writes(v, ""))
    ensures PathsOf(v).kinds == PathsOf(w).kinds
  {
    Canonical.SameEquivalence(v, w, v);
    forall p
      ensures p in PathsOf(v).kinds <==> p in PathsOf(w).kinds
      ensures p in PathsOf(v).kinds ==> PathsOf(v).kinds[p] == PathsOf(w).kinds[p]
    {
      PathsOfHolds(v, p);
      PathsOfHolds(w, p);
      var k, l := Last(Writes(v, ""), p), Last(Writes(w, ""), p);
      if k.Some? { WritesCarryOver(v, w, "", Write(p, k.value)); }
      if l.Some? { WritesCarryOver(w, v, "", Write(p, l.value)); }
    }
  }

  lemma {:induction false} WritesExtend(v: Value, prefix: string, x: Write)
    requires x in Writes(v, prefix)
    ensures prefix <= x.path
    ensures x in OwnWrite(v, prefix) || |x.path| > |prefix| || v.Object?
    decreases v
  {
    if x in OwnWrite(v, prefix) {
    } else if v.Array? {
      WritesExtend(v.items[0], prefix + "[]", x);
    } else {
      var i := FieldOfWrite(v.fields, prefix, x);
      WritesExtend(v.fields[i].value, Child(prefix, v.fields[i].key), x);
    }
  }

  /** The value with the keys on the way to one write moved to the end. */
  ghost function BringLast(v: Value, prefix: string, x: Write): Value
    requires x in Writes(v, prefix)
    decreases v
  {
    if x in OwnWrite(v, prefix) then v
    else match v
      case Array(items) => Array([BringLast(items[0], prefix + "[]", x)] + items[1..])
      case Object(fields) =>
        (assert x in FieldWrites(fields, prefix);
         var i := IndexOfWrite(fields, prefix, x);
         Object(MoveLast(fields, i, BringLast(fields[i].value, Child(prefix, fields[i].key), x))))
      case _ => v
  }

  ghost function IndexOfWrite(fields: seq<Field>, prefix: string, x: Write): (i: nat)
    requires x in FieldWrites(fields, prefix)
    ensures i < |fields| && x in Writes(fields[i].value, Child(prefix, fields[i].key))
  {
    SomeFieldWrites(fields, prefix, x);
    var i: nat :| WrittenBy(fields, prefix, x, i);
    i
  }

  function MoveLast(fields: seq<Field>, i: nat, value: Value): seq<Field>
    requires i < |fields|
  {
    fields[..i] + fields[i + 1..] + [Field(fields[i].key, value)]
  }

  lemma {:induction false} FieldWritesJoin(fs: seq<Field>, gs: seq<Field>, prefix: string)
    ensures FieldWrites(fs + gs, prefix) == FieldWrites(fs, prefix) + FieldWrites(gs, prefix)
  {
    if fs == [] {
      assert fs + gs == gs;
    } else {
      assert (fs + gs)[1..] == fs[1..] + gs;
      FieldWritesJoin(fs[1..], gs, prefix);
    }
  }

  lemma MoveLastSame(fields: seq<Field>, i: nat, value: Value)
    requires i < |fields| && WellFormed(Object(fields)) && WellFormed(value) && Same(fields[i].value, value)
    ensures WellFormed(Object(MoveLast(fields, i, value))) && Same(Object(fields), Object(MoveLast(fields, i, value)))
  {
    var gs := MoveLast(fields, i, value);
    var n := |fields| - 1;
    forall j | 0 <= j < |fields| ensures Covered(fields[j], gs) {
      SameReflexive(fields[j].value);
      if j < i { assert gs[j] == fields[j]; }
      else if j > i { assert gs[j - 1] == fields[j]; }
      else { assert gs[n] == Field(fields[i].key, value); }
    }
  }

  lemma ReplaceFirstSame(items: seq<Value>, w: Value)
    requires items != [] && WellFormed(Array(items)) && WellFormed(w) && Same(items[0], w)
    ensures WellFormed(Array([w] + items[1..])) && Same(Array(items), Array([w] + items[1..]))
  {
    var ws := [w] + items[1..];
    forall i | 0 <= i < |items| ensures Same(items[i], ws[i]) && WellFormed(ws[i]) { SameReflexive(items[i]); }
  }

  lemma {:induction false} BringLastSame(v: Value, prefix: string, x: Write)
    requires WellFormed(v) && x in Writes(v, prefix)
    ensures WellFormed(BringLast(v, prefix, x)) && Same(v, BringLast(v, prefix, x))
    decreases v
  {
    if x in OwnWrite(v, prefix) {
      SameReflexive(v);
    } else if v.Array? {
      BringLastSame(v.items[0], prefix + "[]", x);
      ReplaceFirstSame(v.items, BringLast(v.items[0], prefix + "[]", x));
    } else {
      var i := IndexOfWrite(v.fields, prefix, x);
      var child := Child(prefix, v.fields[i].key);
      BringLastSame(v.fields[i].value, child, x);
      MoveLastSame(v.fields, i, BringLast(v.fields[i].value, child, x));
    }
  }

  /** An array's own assignment is not overwritten by what its first element writes. */
  lemma OwnWriteLasts(v: Value, prefix: string, x: Write)
    requires x in OwnWrite(v, prefix)
    ensures Last(Writes(v, prefix), x.path) == Some(x.kind)
  {
    var rest := if v.Array? && v.items != [] then Writes(v.items[0], prefix + "[]") else [];
    assert Writes(v, prefix) == [x] + rest;
    LastJoin([x], rest, x.path);
    var k := Last(rest, x.path);
    if k.Some? { WritesExtend(v.items[0], prefix + "[]", Write(x.path, k.value)); }
  }

  lemma MoveLastWrites(fields: seq<Field>, i: nat, value: Value, prefix: string, p: string)
    requires i < |fields| && Last(Writes(value, Child(prefix, fields[i].key)), p).Some?
    ensures Last(Writes(Object(MoveLast(fields, i, value)), prefix), p)
         == Last(Writes(value, Child(prefix, fields[i].key)), p)
  {
    var early, f := fields[..i] + fields[i + 1..], Field(fields[i].key, value);
    var late := Writes(value, Child(prefix, f.key));
    FieldWritesJoin(early, [f], prefix);
    assert FieldWrites([f], prefix) == late + [] == late;
    LastJoin(FieldWrites(early, prefix), late, p);
    assert Writes(Object(MoveLast(fields, i, value)), prefix) == FieldWrites(early, prefix) + late;
  }

  lemma {:induction false} BringLastWins(v: Value, prefix: string, x: Write)
    requires x in Writes(v, prefix)
    ensures Last(Writes(BringLast(v, prefix, x), prefix), x.path) == Some(x.kind)
    decreases v
  {
    WritesMember(v, prefix, x);
    if x in OwnWrite(v, prefix) {
      OwnWriteLasts(v, prefix, x);
    } else if v.Array? {
      BringLastWins(v.items[0], prefix + "[]", x);
      var w := BringLast(v, prefix, x);
      LastJoin(OwnWrite(w, prefix), Writes(w.items[0], prefix + "[]"), x.path);
    } else {
      var i := IndexOfWrite(v.fields, prefix, x);
      var child := Child(prefix, v.fields[i].key);
      BringLastWins(v.fields[i].value, child, x);
      MoveLastWrites(v.fields, i, BringLast(v.fields[i].value, child, x), prefix, x.path);
    }
  }

  /** Moving either of two assignments to one path last makes that one win. */
  lemma EitherWriteCanWin(v: Value, x: Write)
    requires WellFormed(v) && x in Writes(v, "")
    ensures exists w :: WellFormed(w) && Same(v, w) && x.path in PathsOf(w).kinds && PathsOf(w).kinds[x.path] == x.kind
  {
    BringLastSame(v, "", x);
    BringLastWins(v, "", x);
    PathsOfHolds(BringLast(v, "", x), x.path);
  }

  /** The walker's dictionary is the same for every key order of a value exactly when the
      value's own writes are consistent. */
  lemma OrderFreeExactly(v: Value)
    requires WellFormed(v)
    ensures (forall w | WellFormed(w) && Same(v, w) :: PathsOf(w).kinds == PathsOf(v).kinds)
       <==> Consistent(Writes(v, ""))
  {
    if Consistent(Writes(v, "")) {
      forall w | WellFormed(w) && Same(v, w) ensures PathsOf(w).kinds == PathsOf(v).kinds {
        ConsistentIsOrderFree(v, w);
      }
    } else {
      var x, y :| x in Writes(v, "") && y in Writes(v, "") && x.path == y.path && x.kind != y.kind;
      EitherWriteCanWin(v, x);
      EitherWriteCanWin(v, y);
    }
  }

  // ---- what a path means ----

  datatype Step = First | Key(key: string)

  function Descend(v: Value, steps: seq<Step>): Option<Value> {
    if steps == [] then Some(v)
    else match steps[0]
      case First => if v.Array? && v.items != [] then Descend(v.items[0], steps[1..]) else None
      case Key(k) =>
        if v.Object? && Get(v.fields, k).Some? then Descend(Get(v.fields, k).value, steps[1..]) else None
  }

  function Extend(p: string, s: Step): string {
    match s
    case First => p + "[]"
    case Key(k) => Child(p, k)
  }

  /** The path text the walker builds along these steps. */
  function PathText(prefix: string, steps: seq<Step>): string
    decreases |steps|
  {
    if steps == [] then prefix else PathText(Extend(prefix, steps[0]), steps[1..])
  }

  /** Descending by these steps reaches a recorded value of the recorded kind. */
  ghost predicate Leads(v: Value, prefix: string, steps: seq<Step>, x: Write) {
    x.path == PathText(prefix, steps) && x.path != "" &&
    var d := Descend(v, steps);
    d.Some? && Noted(d.value) && x.kind == KindOf(d.value)
  }

  lemma {:induction false} GetUnique(fields: seq<Field>, i: nat)
    requires i < |fields| && DistinctKeys(fields)
    ensures Get(fields, fields[i].key) == Some(fields[i].value)
  {}

  lemma {:induction false} WriteLeads(v: Value, prefix: string, x: Write) returns (steps: seq<Step>)
    requires WellFormed(v) && x in Writes(v, prefix)
    ensures Leads(v, prefix, steps, x)
    decreases v
  {
    WritesMember(v, prefix, x);
    if x in OwnWrite(v, prefix) {
      steps := [];
    } else if v.Array? {
      var later := WriteLeads(v.items[0], prefix + "[]", x);
      steps := [First] + later;
      assert steps[1..] == later;
    } else {
      var i := FieldOfWrite(v.fields, prefix, x);
      var later := WriteLeads(v.fields[i].value, Child(prefix, v.fields[i].key), x);
      GetUnique(v.fields, i);
      steps := [Key(v.fields[i].key)] + later;
      assert steps[1..] == later;
    }
  }

  lemma {:induction false} LeadsIsWritten(v: Value, prefix: string, steps: seq<Step>, x: Write)
    requires Leads(v, prefix, steps, x)
    ensures x in Writes(v, prefix)
    decreases |steps|
  {
    WritesMember(v, prefix, x);
    if steps != [] {
      match steps[0]
      case First => LeadsIsWritten(v.items[0], prefix + "[]", steps[1..], x);
      case Key(k) =>
        var u := Get(v.fields, k).value;
        LeadsIsWritten(u, Child(prefix, k), steps[1..], x);
        var i :| 0 <= i < |v.fields| && v.fields[i] == Field(k, u);
        InFieldWrites(v.fields, prefix, x, i);
    }
  }

  // ---- unambiguous keys ----

  predicate CleanKey(k: string) {
    k != "" && forall i | 0 <= i < |k| :: k[i] != '.' && k[i] != '[' && k[i] != ']'
  }

  predicate CleanStep(s: Step) { s.Key? ==> CleanKey(s.key) }

  /** Every key the walker can meet is non-empty and free of the characters of the path syntax. */
  predicate CleanKeys(v: Value) {
    match v
    case Array(items) => items != [] ==> CleanKeys(items[0])
    case Object(fields) => forall i | 0 <= i < |fields| :: CleanKey(fields[i].key) && CleanKeys(fields[i].value)
    case _ => true
  }

  lemma {:induction false} DescentIsClean(v: Value, steps: seq<Step>)
    requires CleanKeys(v) && Descend(v, steps).Some?
    ensures forall i | 0 <= i < |steps| :: CleanStep(steps[i])
  {
    if steps != [] {
      var u := if steps[0].First? then v.items[0] else Get(v.fields, steps[0].key).value;
      DescentIsClean(u, steps[1..]);
      forall i | 0 <= i < |steps| ensures CleanStep(steps[i]) {
        if i > 0 { assert steps[i] == steps[1..][i - 1]; }
      }
    }
  }

  lemma {:induction false} PathTextSnoc(prefix: string, steps: seq<Step>, s: Step)
    ensures PathText(prefix, steps + [s]) == Extend(PathText(prefix, steps), s)
    decreases |steps|
  {
    if steps == [] {
      assert PathText(Extend(prefix, s), []) == Extend(prefix, s);
    } else {
      assert (steps + [s])[1..] == steps[1..] + [s];
      PathTextSnoc(Extend(prefix, steps[0]), steps[1..], s);
    }
  }

  /** A child path ends in its key; what comes before the key is the parent and a dot. */
  lemma ChildEnds(p: string, k: string, e: string)
    requires e == Child(p, k)
    ensures p == "" ==> e == k
    ensures p != "" ==> |e| == |p| + 1 + |k| && e[|p|] == '.' && e[..|p|] == p && e[|p| + 1..] == k
  {}

  lemma CharOfKey(q: string, l: string, e: string, k: string)
    requires e == Child(q, l) && |k| < |l|
    ensures |l| <= |e| && e[|e| - |k| - 1] == l[|l| - |k| - 1]
  {}

  /** A clean key reaches back at most to the last dot. */
  lemma KeyStopsAtDot(q: string, l: string, e: string, k: string)
    requires e == Child(q, l) && CleanKey(l) && |k| < |e| && e[|e| - |k| - 1] == '.'
    ensures |l| <= |k|
  {
    if |l| > |k| { CharOfKey(q, l, e, k); }
  }

  lemma ExtendByKeys(p: string, k: string, q: string, l: string)
    requires CleanKey(k) && CleanKey(l) && Child(p, k) == Child(q, l)
    ensures k == l && p == q
  {
    var e := Child(p, k);
    ChildEnds(p, k, e);
    ChildEnds(q, l, e);
    if p != "" { KeyStopsAtDot(q, l, e, k); }
    if q != "" { KeyStopsAtDot(p, k, e, l); }
  }

  lemma ExtendLastChar(p: string, s: Step)
    requires CleanStep(s)
    ensures var e := Extend(p, s); e != "" && (e[|e| - 1] == ']' <==> s.First?)
  {}

  lemma ExtendInjective(p: string, s: Step, q: string, t: Step)
    requires CleanStep(s) && CleanStep(t) && Extend(p, s) == Extend(q, t)
    ensures s == t && p == q
  {
    ExtendLastChar(p, s);
    ExtendLastChar(q, t);
    match s
    case First =>
      var e := Extend(p, s);
      assert e[..|e| - 2] == p && e[..|e| - 2] == q;
    case Key(k) =>
      ExtendByKeys(p, k, q, t.key);
  }

  predicate CleanSteps(a: seq<Step>) { forall i | 0 <= i < |a| :: CleanStep(a[i]) }

  lemma PathTextLast(init: seq<Step>, s: Step)
    requires CleanStep(s)
    ensures PathText("", init + [s]) == Extend(PathText("", init), s) != ""
  {
    PathTextSnoc("", init, s);
    ExtendLastChar(PathText("", init), s);
  }

  lemma LastStepReadBack(a: seq<Step>, s: Step, b: seq<Step>, t: Step)
    requires CleanStep(s) && CleanStep(t) && PathText("", a + [s]) == PathText("", b + [t])
    ensures s == t && PathText("", a) == PathText("", b)
  {
    PathTextLast(a, s);
    PathTextLast(b, t);
    ExtendInjective(PathText("", a), s, PathText("", b), t);
  }

  function Init(a: seq<Step>): (r: seq<Step>)
    requires a != []
    ensures |r| < |a| && a == r + [a[|a| - 1]]
  {
    a[..|a| - 1]
  }

  /** Clean steps can be read back from the path text. */
  lemma {:induction false} PathTextInjective(a: seq<Step>, b: seq<Step>)
    requires CleanSteps(a) && CleanSteps(b) && PathText("", a) == PathText("", b)
    ensures a == b
    decreases |a|
  {
    if a == [] && b == [] {
    } else if a == [] {
      PathTextLast(Init(b), b[|b| - 1]);
    } else if b == [] {
      PathTextLast(Init(a), a[|a| - 1]);
    } else {
      LastStepReadBack(Init(a), a[|a| - 1], Init(b), b[|b| - 1]);
      PathTextInjective(Init(a), Init(b));
    }
  }

  /** Clean keys never make two paths collide. */
  lemma CleanIsConsistent(v: Value)
    requires WellFormed(v) && CleanKeys(v)
    ensures Consistent(Writes(v, ""))
  {
    forall x, y | x in Writes(v, "") && y in Writes(v, "") && x.path == y.path ensures x.kind == y.kind {
      var a := WriteLeads(v, "", x);
      var b := WriteLeads(v, "", y);
      DescentIsClean(v, a);
      DescentIsClean(v, b);
      PathTextInjective(a, b);
    }
  }

  /** With clean keys the dictionary is exactly the recorded values of the document: a path maps
      to a kind just when its steps lead there. */
  lemma PathsAreFaithful(v: Value, p: string, k: Kind)
    requires WellFormed(v) && CleanKeys(v)
    ensures (p in PathsOf(v).kinds && PathsOf(v).kinds[p] == k)
       <==> exists steps :: Leads(v, "", steps, Write(p, k))
  {
    PathsOfHolds(v, p);
    if p in PathsOf(v).kinds && PathsOf(v).kinds[p] == k {
      var steps := WriteLeads(v, "", Write(p, k));
    }
    if steps :| Leads(v, "", steps, Write(p, k)) {
      LeadsIsWritten(v, "", steps, Write(p, k));
      CleanIsConsistent(v);
    }
  }

  /** Outside clean keys the order of keys can matter: here one path is both a number and a
      string, and the last assignment wins. */
  lemma DottedKeysCollide()
    ensures var num, obj := Field("a.b", Number("1")), Field("a", Object([Field("b", String("x"))]));
            var v, w := Object([num, obj]), Object([obj, num]);
            Same(v, w) && PathsOf(v).kinds == map["a.b" := StringKind] && PathsOf(w).kinds == map["a.b" := NumberKind]
  {
    var num, obj := Field("a.b", Number("1")), Field("a", Object([Field("b", String("x"))]));
    var v, w := Object([num, obj]), Object([obj, num]);
    DottedWrites();
    TwoFieldWrites(num, obj);
    TwoFieldWrites(obj, num);
    MoveFirstLast(num, obj);
    LastPutWins("a.b", NumberKind, StringKind);
    LastPutWins("a.b", StringKind, NumberKind);
  }

  lemma DottedWrites()
    ensures Writes(Number("1"), "a.b") == [Write("a.b", NumberKind)]
    ensures Writes(Object([Field("b", String("x"))]), "a") == [Write("a.b", StringKind)]
  {
    var inner := [Field("b", String("x"))];
    assert Child("a", "b") == "a.b";
    assert FieldWrites(inner[1..], "a") == [];
    assert Writes(String("x"), "a.b") == [Write("a.b", StringKind)];
  }

  lemma TwoFieldWrites(f: Field, g: Field)
    ensures Writes(Object([f, g]), "") == Writes(f.value, f.key) + Writes(g.value, g.key)
  {
    assert [f, g][1..] == [g] && [g][1..] == [];
    assert FieldWrites([g], "") == Writes(g.value, g.key);
  }

  lemma MoveFirstLast(f: Field, g: Field)
    ensures Same(Object([f, g]), Object([g, f]))
  {
    SameReflexive(f.value);
    SameReflexive(g.value);
    assert Covered(f, [g, f]) by { assert [g, f][1] == f; }
    assert Covered(g, [g, f]) by { assert [g, f][0] == g; }
  }

  lemma LastPutWins(p: string, k: Kind, l: Kind)
    ensures PutAll(EMPTY_DICT, [Write(p, k), Write(p, l)]).kinds == map[p := l]
  {
    var ws, d := [Write(p, k), Write(p, l)], Put(EMPTY_DICT, Write(p, k));
    assert ws[1..] == [Write(p, l)] && ws[1..][1..] == [];
    assert PutAll(d, ws[1..]) == PutAll(Put(d, Write(p, l)), []);
    assert map[p := k][p := l] == map[p := l];
  }
}
