/** How long a canonical text is: nothing is printed but the tokens themselves, each character of a string as
    itself or in its shortest escape, and the one colon or comma between two of them. */
module CanonicalWidths {
  import opened Json
  import opened JsonText
  import opened Canonical
  import opened KeyOrder

  /** A character of a string: two for the seven that have a short escape, six for the other control characters, else
      one, ASCII or not. */
  function CharWidth(c: char): nat {
    if c == '\"' || c == '\\' || c as nat in {8, 9, 10, 12, 13} then 2 else if c as nat < 0x20 then 6 else 1
  }

  function TextWidth(s: string): nat { if s == "" then 0 else CharWidth(s[0]) + TextWidth(s[1..]) }

  /** The tokens of a value, with the colons and commas between them. */
  function Width(v: Value): nat {
    match v
    case Null => 4
    case Bool(b) => if b then 4 else 5
    case Number(token) => |token|
    case String(text) => 2 + TextWidth(text)
    case Array(items) => 2 + ItemsTotal(items) + Commas(|items|)
    case Object(fields) => 2 + FieldsTotal(fields) + Commas(|fields|)
  }

  function Commas(n: nat): nat { if n == 0 then 0 else n - 1 }

  function ItemsTotal(items: seq<Value>): nat { if items == [] then 0 else Width(items[0]) + ItemsTotal(items[1..]) }

  function FieldsTotal(fs: seq<Field>): nat {
    if fs == [] then 0 else TextWidth(fs[0].key) + 3 + Width(fs[0].value) + FieldsTotal(fs[1..])
  }

  lemma {:induction false} EscapedWidth(s: string)
    ensures |EscapeAll(s, false)| == TextWidth(s)
  {
    if s != "" { EscapedWidth(s[1..]); }
  }

  lemma {:induction false} PlaceTotal(f: Field, fs: seq<Field>)
    ensures FieldsTotal(Place(f, fs)) == TextWidth(f.key) + 3 + Width(f.value) + FieldsTotal(fs)
  {
    if fs != [] && Before(fs[0].key, f.key) { PlaceTotal(f, fs[1..]); }
  }

  lemma {:induction false} SortedTotal(fs: seq<Field>)
    ensures FieldsTotal(Sorted(fs)) == FieldsTotal(fs)
  {
    if fs != [] {
      SortedTotal(fs[1..]);
      PlaceTotal(fs[0], Sorted(fs[1..]));
    }
  }

  /** A canonical text is as long as its tokens: it has no white space and no needless escape. */
  lemma {:induction false} CanonicalWidth(v: Value)
    ensures |PyCanonical(v)| == Width(v)
    decreases v
  {
    match v
    case String(text) => EscapedWidth(text);
    case Array(items) => ItemsWidth(items);
    case Object(fields) =>
      FieldsWidth(v, Sorted(fields));
      SortedTotal(fields);
    case _ =>
  }

  lemma {:induction false} ItemsWidth(items: seq<Value>)
    ensures |PyItems(items)| == ItemsTotal(items) + Commas(|items|)
    decreases items
  {
    if items != [] {
      CanonicalWidth(items[0]);
      ItemsWidth(items[1..]);
    }
  }

  lemma {:induction false} FieldsWidth(context: Value, fs: seq<Field>)
    requires forall f | f in fs :: f.value < context
    ensures |PyFields(context, fs)| == FieldsTotal(fs) + Commas(|fs|)
    decreases context, |fs|
  {
    if fs != [] {
      EscapedWidth(fs[0].key);
      CanonicalWidth(fs[0].value);
      FieldsWidth(context, fs[1..]);
    }
  }
}
