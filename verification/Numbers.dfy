/** Values whose number tokens a runtime has read and printed again. Parsing a number and printing it
    can change its token; it leaves everything else of a value as it is. */
module Numbers {
  import opened Json
  import opened KeyPaths

  /** The value with each number token replaced by what it is printed as. */
  function Renumbered(v: Value, num: string -> string): Value {
    match v
    case Number(token) => Number(num(token))
    case Array(items) => Array(RenumberedItems(items, num))
    case Object(fields) => Object(RenumberedFields(fields, num))
    case _ => v
  }

  function RenumberedItems(items: seq<Value>, num: string -> string): (r: seq<Value>)
    ensures |r| == |items| && forall i | 0 <= i < |r| :: r[i] == Renumbered(items[i], num)
  {
    if items == [] then [] else [Renumbered(items[0], num)] + RenumberedItems(items[1..], num)
  }

  function RenumberedFields(fs: seq<Field>, num: string -> string): (r: seq<Field>)
    ensures |r| == |fs| && forall i | 0 <= i < |r| :: r[i] == Field(fs[i].key, Renumbered(fs[i].value, num))
  {
    if fs == [] then [] else [Field(fs[0].key, Renumbered(fs[0].value, num))] + RenumberedFields(fs[1..], num)
  }

  /** The runtime prints numbers as numbers. */
  ghost predicate PrintsNumbers(num: string -> string) { forall t | IsNumber(t) :: IsNumber(num(t)) }

  lemma {:induction false} RenumberedWellFormed(v: Value, num: string -> string)
    requires WellFormed(v) && PrintsNumbers(num)
    ensures WellFormed(Renumbered(v, num))
  {
    match v
    case Array(items) =>
      forall i | 0 <= i < |items| ensures WellFormed(RenumberedItems(items, num)[i]) {
        RenumberedWellFormed(items[i], num);
      }
    case Object(fields) =>
      forall i | 0 <= i < |fields| ensures WellFormed(RenumberedFields(fields, num)[i].value) {
        RenumberedWellFormed(fields[i].value, num);
      }
    case _ =>
  }

  lemma {:induction false} RenumberedSame(v: Value, w: Value, num: string -> string)
    requires Same(v, w)
    ensures Same(Renumbered(v, num), Renumbered(w, num))
    decreases v
  {
    match v
    case Array(items) =>
      forall i | 0 <= i < |items| ensures Same(RenumberedItems(items, num)[i], RenumberedItems(w.items, num)[i]) {
        RenumberedSame(items[i], w.items[i], num);
      }
    case Object(fields) =>
      var gs := RenumberedFields(w.fields, num);
      forall i | 0 <= i < |fields| ensures Covered(RenumberedFields(fields, num)[i], gs) {
        assert Covered(fields[i], w.fields);
        var j :| 0 <= j < |w.fields| && fields[i].key == w.fields[j].key && Same(fields[i].value, w.fields[j].value);
        RenumberedSame(fields[i].value, w.fields[j].value, num);
        assert gs[j].key == fields[i].key;
      }
    case _ =>
  }

  /** The walker sees no tokens. */
  lemma {:induction false} RenumberedWrites(v: Value, prefix: string, num: string -> string)
    ensures Writes(Renumbered(v, num), prefix) == Writes(v, prefix)
    decreases v, 0
  {
    match v
    case Array(items) =>
      if items != [] { RenumberedWrites(items[0], prefix + "[]", num); }
    case Object(fields) => RenumberedFieldWrites(fields, prefix, num);
    case _ =>
  }

  lemma {:induction false} RenumberedFieldWrites(fields: seq<Field>, prefix: string, num: string -> string)
    ensures FieldWrites(RenumberedFields(fields, num), prefix) == FieldWrites(fields, prefix)
    decreases fields, 1
  {
    if fields != [] {
      RenumberedWrites(fields[0].value, Child(prefix, fields[0].key), num);
      RenumberedFieldWrites(fields[1..], prefix, num);
      assert RenumberedFields(fields, num)[1..] == RenumberedFields(fields[1..], num);
    }
  }

  /** Distinct keys match a field with its own renumbering only. */
  lemma CoveredByOwn(fields: seq<Field>, num: string -> string, i: nat)
    requires DistinctKeys(fields) && i < |fields| && Covered(fields[i], RenumberedFields(fields, num))
    ensures Same(fields[i].value, Renumbered(fields[i].value, num))
  {
    var gs := RenumberedFields(fields, num);
    var j :| 0 <= j < |gs| && fields[i].key == gs[j].key && Same(fields[i].value, gs[j].value);
    OneField(fields, i, j);
  }

  lemma OneField(fields: seq<Field>, i: nat, j: nat)
    requires DistinctKeys(fields) && i < |fields| && j < |fields| && fields[i].key == fields[j].key
    ensures i == j
  {}

  /** Numbers read again leave a value as it is, or it is no longer the same value even up to key order. */
  lemma {:induction false} RenumberedIsSame(v: Value, num: string -> string)
    requires WellFormed(v) && Same(v, Renumbered(v, num))
    ensures Renumbered(v, num) == v
  {
    match v
    case Array(items) =>
      forall i | 0 <= i < |items| ensures RenumberedItems(items, num)[i] == items[i] {
        RenumberedIsSame(items[i], num);
      }
    case Object(fields) =>
      forall i | 0 <= i < |fields| ensures RenumberedFields(fields, num)[i] == fields[i] {
        CoveredByOwn(fields, num, i);
        RenumberedIsSame(fields[i].value, num);
      }
    case _ =>
  }

  // ---- equality up to number tokens ----

  function Zero(token: string): string { "0" }

  /** The value with every number token made alike. */
  function Shape(v: Value): Value { Renumbered(v, Zero) }

  /** Printing numbers again keeps the shape. */
  lemma {:induction false} RenumberedShape(v: Value, num: string -> string)
    ensures Shape(Renumbered(v, num)) == Shape(v)
  {
    match v
    case Array(items) =>
      forall i | 0 <= i < |items| ensures Shape(Renumbered(items[i], num)) == Shape(items[i]) {
        RenumberedShape(items[i], num);
      }
    case Object(fields) =>
      forall i | 0 <= i < |fields| ensures Shape(Renumbered(fields[i].value, num)) == Shape(fields[i].value) {
        RenumberedShape(fields[i].value, num);
      }
    case _ =>
  }

  lemma ShapeWellFormed(v: Value)
    requires WellFormed(v)
    ensures WellFormed(Shape(v))
  {
    assert IsNumber("0") by { assert DigitRun("0") == 1; }
    RenumberedWellFormed(v, Zero);
  }
}
