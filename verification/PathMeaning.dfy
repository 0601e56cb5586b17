/** What the walker's dictionary says about a document, in terms of the document alone: where descent
    along first elements and keys ends, and what JSON type it finds there. */
module PathMeaning {
  import opened Common
  import opened Json
  import opened KeyPaths

  /** Descent ends at a leaf: anything but an object that has keys. */
  predicate EndsAtLeaf(v: Value, steps: seq<Step>) {
    var d := Descend(v, steps);
    d.Some? && !(d.value.Object? && d.value.fields != [])
  }

  lemma {:induction false} CleanTextNonEmpty(steps: seq<Step>)
    requires steps != [] && CleanSteps(steps)
    ensures PathText("", steps) != ""
  {
    var n := |steps| - 1;
    assert steps == steps[..n] + [steps[n]];
    PathTextLast(steps[..n], steps[n]);
  }

  /** Clean steps are in the dictionary, under the kind of what they end at, if they end at a leaf. */
  lemma LeafIsListed(v: Value, steps: seq<Step>)
    requires WellFormed(v) && CleanKeys(v) && steps != [] && CleanSteps(steps) && EndsAtLeaf(v, steps)
    ensures var p, m := PathText("", steps), PathsOf(v).kinds;
      p in m && m[p] == KindOf(Descend(v, steps).value)
  {
    var x := Write(PathText("", steps), KindOf(Descend(v, steps).value));
    CleanTextNonEmpty(steps);
    assert Leads(v, "", steps, x);
    PathsAreFaithful(v, x.path, x.kind);
  }

  /** And only then. */
  lemma ListedIsLeaf(v: Value, steps: seq<Step>)
    requires WellFormed(v) && CleanKeys(v) && CleanSteps(steps) && PathText("", steps) in PathsOf(v).kinds
    ensures EndsAtLeaf(v, steps)
  {
    var p := PathText("", steps);
    var k := PathsOf(v).kinds[p];
    PathsAreFaithful(v, p, k);
    var other :| Leads(v, "", other, Write(p, k));
    DescentIsClean(v, other);
    PathTextInjective(steps, other);
  }

  /** Which type a path has, for each of the six: that of the value descent reaches. An object that has
      keys has no entry of its own. */
  lemma KindsByDescent(v: Value, steps: seq<Step>)
    requires WellFormed(v) && CleanKeys(v) && steps != [] && CleanSteps(steps)
    ensures var p, m, d := PathText("", steps), PathsOf(v).kinds, Descend(v, steps);
      (p in m <==> d.Some? && (d.value.Object? ==> d.value.fields == [])) &&
      (p in m && m[p] == NullKind <==> d.Some? && d.value.Null?) &&
      (p in m && m[p] == BooleanKind <==> d.Some? && d.value.Bool?) &&
      (p in m && m[p] == NumberKind <==> d.Some? && d.value.Number?) &&
      (p in m && m[p] == StringKind <==> d.Some? && d.value.String?) &&
      (p in m && m[p] == ArrayKind <==> d.Some? && d.value.Array?) &&
      (p in m && m[p] == ObjectKind <==> d == Some(Object([])))
  {
    if EndsAtLeaf(v, steps) { LeafIsListed(v, steps); }
    if PathText("", steps) in PathsOf(v).kinds { ListedIsLeaf(v, steps); }
  }

  /** Two values of one JSON type. */
  predicate SameType(v: Value, w: Value) {
    v.Null? == w.Null? && v.Bool? == w.Bool? && v.Number? == w.Number? && v.String? == w.String? &&
    v.Array? == w.Array? && v.Object? == w.Object?
  }

  /** Where two dictionaries list a path, they give it one kind exactly when descent reaches values of
      one type. */
  lemma KindsAgreeByDescent(v: Value, w: Value, steps: seq<Step>)
    requires WellFormed(v) && CleanKeys(v) && WellFormed(w) && CleanKeys(w) && steps != [] && CleanSteps(steps)
    requires PathText("", steps) in PathsOf(v).kinds && PathText("", steps) in PathsOf(w).kinds
    ensures Descend(v, steps).Some? && Descend(w, steps).Some?
    ensures PathsOf(v).kinds[PathText("", steps)] == PathsOf(w).kinds[PathText("", steps)] <==>
      SameType(Descend(v, steps).value, Descend(w, steps).value)
  {
    KindsByDescent(v, steps);
    KindsByDescent(w, steps);
  }

  /** Every listed path is the text of clean steps. */
  lemma ListedHasSteps(v: Value, p: string) returns (steps: seq<Step>)
    requires WellFormed(v) && CleanKeys(v) && p in PathsOf(v).kinds
    ensures steps != [] && CleanSteps(steps) && PathText("", steps) == p && EndsAtLeaf(v, steps)
  {
    var k := PathsOf(v).kinds[p];
    PathsAreFaithful(v, p, k);
    steps :| Leads(v, "", steps, Write(p, k));
    DescentIsClean(v, steps);
  }
}
