/** The loaded cassette: an ordinal cursor per match key, and body loading. */
module Cassettes {
  import opened Common
  import opened Json
  import opened JsonText
  import opened Canonical
  import opened Fixture

  // ---- where a key occurs ----

  /** The positions that carry the key, ascending. */
  function Positions(keys: seq<string>, key: string): (r: seq<nat>)
    ensures forall i | 0 <= i < |r| :: r[i] < |keys| && keys[r[i]] == key
    ensures forall i, j | 0 <= i < j < |r| :: r[i] < r[j]
  {
    if keys == [] then []
    else
      var n := |keys| - 1;
      Positions(keys[..n], key) + if keys[n] == key then [n] else []
  }

  lemma {:induction false} PositionsComplete(keys: seq<string>, key: string, i: nat)
    requires i < |keys| && keys[i] == key
    ensures i in Positions(keys, key)
  {
    if i < |keys| - 1 { PositionsComplete(keys[..|keys| - 1], key, i); }
  }

  function Count(keys: seq<string>, key: string): nat { |Positions(keys, key)| }

  /** Extending the list extends the positions at the end. */
  lemma {:induction false} PositionsPrefix(keys: seq<string>, key: string, n: nat)
    requires n <= |keys|
    ensures Positions(keys[..n], key) <= Positions(keys, key)
  {
    if n == |keys| {
      assert keys[..n] == keys;
    } else {
      var init := keys[..|keys| - 1];
      PositionsPrefix(init, key, n);
      assert init[..n] == keys[..n];
    }
  }

  lemma PositionsNext(keys: seq<string>, i: nat)
    requires i < |keys|
    ensures Positions(keys[..i + 1], keys[i]) == Positions(keys[..i], keys[i]) + [i]
  {
    assert keys[..i + 1][..i] == keys[..i];
  }

  lemma PrefixAt<T>(xs: seq<T>, x: T, ys: seq<T>)
    requires xs + [x] <= ys
    ensures |xs| < |ys| && ys[|xs|] == x
  {
    assert (xs + [x])[|xs|] == x;
  }

  /** A position is found at the rank given by how often its key occurred before it. */
  lemma RankOfPosition(keys: seq<string>, i: nat)
    requires i < |keys|
    ensures Count(keys[..i], keys[i]) < Count(keys, keys[i])
    ensures Positions(keys, keys[i])[Count(keys[..i], keys[i])] == i
  {
    PositionsPrefix(keys, keys[i], i + 1);
    PositionsNext(keys, i);
    PrefixAt(Positions(keys[..i], keys[i]), i, Positions(keys, keys[i]));
  }

  lemma CountStep(keys: seq<string>, i: nat, key: string)
    requires i < |keys|
    ensures Count(keys[..i + 1], key) == Count(keys[..i], key) + if keys[i] == key then 1 else 0
  {
    assert keys[..i + 1][..i] == keys[..i];
  }

  // ---- the cursor ----

  type Cursors = map<string, nat>

  function CursorOf(cursors: Cursors, key: string): nat {
    if key in cursors then cursors[key] else 0
  }

  function MatchKeys(obs: seq<Entry>): seq<string> {
    seq(|obs|, i requires 0 <= i < |obs| => obs[i].matchKey)
  }

  /** Every entry's index is its position, as write_fixture leaves it. */
  predicate Positional(obs: seq<Entry>) {
    forall i | 0 <= i < |obs| :: obs[i].index == i
  }

  /** The entries a key is looked up in; the empty key is in none. */
  function Occurrences(obs: seq<Entry>, key: string): seq<nat> {
    if key == "" then [] else Positions(MatchKeys(obs), key)
  }

  /** What a lookup answers, and the cursors after it. */
  function LookupResult(obs: seq<Entry>, cursors: Cursors, key: string): (r: Option<nat>)
    ensures r.Some? ==> r.value < |obs| && obs[r.value].matchKey == key
  {
    var at := Occurrences(obs, key);
    if CursorOf(cursors, key) < |at| then Some(at[CursorOf(cursors, key)]) else None
  }

  /** A lookup answers an entry or nothing, or indexing the entries raises. */
  datatype Looked = NotFound | Found(entry: Entry) | BadIndex

  /** Python list indexing by the index the entry records, which write_fixture makes its position. */
  function Fetch(obs: seq<Entry>, at: Option<nat>): Looked
    requires at.Some? ==> at.value < |obs|
  {
    if at.None? then NotFound
    else
      var index := obs[at.value].index;
      if 0 <= index < |obs| then Found(obs[index])
      else if -|obs| <= index < 0 then Found(obs[|obs| + index])
      else BadIndex
  }

  lemma PositionalFetch(obs: seq<Entry>, at: Option<nat>)
    requires Positional(obs) && (at.Some? ==> at.value < |obs|)
    ensures Fetch(obs, at) == if at.Some? then Found(obs[at.value]) else NotFound
  {}

  /** The cursor of a key after one lookup of it. */
  function NextCursor(obs: seq<Entry>, cursors: Cursors, key: string): nat {
    CursorOf(cursors, key) + if LookupResult(obs, cursors, key).Some? then 1 else 0
  }

  function CursorsAfter(obs: seq<Entry>, cursors: Cursors, key: string): Cursors {
    cursors[key := NextCursor(obs, cursors, key)]
  }

  // ---- load_body ----

  datatype Load = Loaded(value: Value) | Raised

  /** str(ref).startswith("halley/fixtures"). */
  predicate LooksLong(ref: Path) {
    |ref| >= 2 && ref[0] == "halley" && "fixtures" <= ref[1]
  }

  /** The places a body is looked for, in order, once the long form has been recognised. */
  function Candidates(dir: Path, slug: string, ref: Path): seq<Path> {
    (if LooksLong(ref) then [dir + ref[2..]] else []) + [dir + [slug] + ref, dir + ref, ref]
  }

  function LoadFile(file: File): Load {
    if file.BodyFile? && Parse(file.text).Some? then Loaded(Parse(file.text).value) else Raised
  }

  function LoadFirst(files: Files, paths: seq<Path>): Load {
    if paths == [] then Loaded(Null)
    else if paths[0] in files then LoadFile(files[paths[0]])
    else LoadFirst(files, paths[1..])
  }

  /** relative_to refuses a path that only looks like the long form. */
  function LoadBody(files: Files, dir: Path, slug: string, ref: Option<Path>): Load {
    if ref.None? || ref.value == [] then Loaded(Null)
    else if LooksLong(ref.value) && ref.value[1] != "fixtures" then Raised
    else LoadFirst(files, Candidates(dir, slug, ref.value))
  }

  /** Path i is the first of these that is a file. */
  predicate FirstThere(files: Files, paths: seq<Path>, i: nat) {
    i < |paths| && paths[i] in files && forall j | 0 <= j < i :: paths[j] !in files
  }

  lemma {:induction false} LoadFirstExactly(files: Files, paths: seq<Path>)
    ensures forall i: nat | FirstThere(files, paths, i) :: LoadFirst(files, paths) == LoadFile(files[paths[i]])
    ensures (forall i | 0 <= i < |paths| :: paths[i] !in files) ==> LoadFirst(files, paths) == Loaded(Null)
  {
    if paths != [] {
      LoadFirstExactly(files, paths[1..]);
      forall i: nat | FirstThere(files, paths, i) ensures LoadFirst(files, paths) == LoadFile(files[paths[i]]) {
        if i > 0 { assert FirstThere(files, paths[1..], i - 1); }
      }
    }
  }

  /** Where a reference is looked for: without its first two parts under the fixtures directory, if they are
      halley/fixtures; then under the slug; then under the fixtures directory; then as it stands. It raises on a
      second part that only starts with fixtures. */
  lemma LoadBodyExactly(files: Files, dir: Path, slug: string, ref: Path, paths: seq<Path>)
    requires ref != [] && paths ==
      if |ref| >= 2 && ref[0] == "halley" && ref[1] == "fixtures" then
        [dir + ref[2..], dir + [slug] + ref, dir + ref, ref]
      else [dir + [slug] + ref, dir + ref, ref]
    ensures var load := LoadBody(files, dir, slug, Some(ref));
      if |ref| >= 2 && ref[0] == "halley" && "fixtures" < ref[1] then load == Raised
      else (forall i: nat | FirstThere(files, paths, i) :: load == LoadFile(files[paths[i]])) &&
           ((forall i | 0 <= i < |paths| :: paths[i] !in files) ==> load == Loaded(Null))
  {
    LoadFirstExactly(files, paths);
    assert !LooksLong(ref) || ref[1] == "fixtures" ==> Candidates(dir, slug, ref) == paths;
  }

  /** A reference the fixture writer made loads the file it named. */
  lemma LoadWrittenRef(files: Files, dir: Path, slug: string, s: string, hash: string)
    requires BodyPath(dir, s, hash) in files
    ensures LoadBody(files, dir, slug, Some(BodyRef(s, hash))) == LoadFile(files[BodyPath(dir, s, hash)])
  {}

  /** Loading the reference gives a body with the hash it names. */
  ghost predicate RefLoads(files: Files, dir: Path, sha: Sha, slug: string, ref: Option<Path>) {
    ref.Some? ==> exists hash :: ref.value == BodyRef(slug, hash) && LoadsAs(LoadBody(files, dir, slug, ref), sha, hash)
  }

  ghost predicate LoadsAs(load: Load, sha: Sha, hash: string) {
    load.Loaded? && WellFormed(load.value) && !load.value.Null? && CanonicalHash(sha, load.value) == hash
  }

  /** In a good store every body reference of every index loads. */
  lemma IndexRefsLoad(files: Files, dir: Path, sha: Sha, slug: string, index: Index, i: nat)
    requires StoreOk(files, dir, sha) && IndexesOk(files, dir) && i < |index.observations|
    requires IndexPath(dir, slug) in files && files[IndexPath(dir, slug)] == IndexFile(index)
    ensures RefLoads(files, dir, sha, slug, index.observations[i].inputRef)
    ensures RefLoads(files, dir, sha, slug, index.observations[i].outputRef)
  {
    assert IndexOk(files, dir, slug, index);
    RefOkLoads(files, dir, sha, slug, index.observations[i].inputRef);
    RefOkLoads(files, dir, sha, slug, index.observations[i].outputRef);
  }

  lemma RefOkLoads(files: Files, dir: Path, sha: Sha, slug: string, ref: Option<Path>)
    requires StoreOk(files, dir, sha) && RefOk(files, dir, slug, ref)
    ensures RefLoads(files, dir, sha, slug, ref)
  {}

  lemma PutTwice<K, V>(m: map<K, V>, k: K, u: V, v: V)
    ensures m[k := u][k := v] == m[k := v]
  {}

  // ---- the class ----

  class Cassette {
    const observations: seq<Entry>
    const slug: string
    const dir: Path
    var keyToIndices: map<string, seq<int>>
    var cursors: Cursors

    /** The lookup table lists, for every key that occurs, the recorded indices in order. */
    ghost predicate Valid()
      reads this
    {
      TableFor(keyToIndices, observations)
    }

    constructor (observations: seq<Entry>, slug: string, dir: Path)
      ensures Valid() && cursors == map[]
      ensures this.observations == observations && this.slug == slug && this.dir == dir
    {
      this.observations, this.slug, this.dir := observations, slug, dir;
      cursors := map[];
      var table: map<string, seq<int>> := map[];
      for i := 0 to |observations|
        invariant TableFor(table, observations[..i])
      {
        var key := observations[i].matchKey;
        TableStep(table, observations, i);
        if key != "" { table := Appended(table, key, observations[i].index); }
      }
      assert observations[..|observations|] == observations;
      keyToIndices := table;
    }

    /** The recorded indices for a key, in order. */
    method IndicesOf(key: string) returns (indices: seq<int>)
      requires Valid()
      ensures indices == IndicesAt(observations, Occurrences(observations, key))
    {
      TableLists(keyToIndices, observations, key);
      return Listed(keyToIndices, key);
    }

    /** The next observation for the key, or nothing when there is none left. */
    method Lookup(key: string) returns (r: Looked)
      requires Valid()
      modifies this`cursors
      ensures Valid()
      ensures cursors == CursorsAfter(observations, old(cursors), key)
      ensures r == Fetch(observations, LookupResult(observations, old(cursors), key))
    {
      var indices := IndicesOf(key);
      r := Advance(key, indices);
    }

    /** The cursor moves past the index it was at, if there is one. */
    method Advance(key: string, indices: seq<int>) returns (r: Looked)
      requires indices == IndicesAt(observations, Occurrences(observations, key))
      modifies this`cursors
      ensures cursors == CursorsAfter(observations, old(cursors), key)
      ensures r == Fetch(observations, LookupResult(observations, old(cursors), key))
    {
      LookupBy(observations, cursors, key, indices);
      var cursor := CursorOf(cursors, key);
      cursors := cursors[key := cursor];
      if cursor >= |indices| { return NotFound; }
      var index := indices[cursor];
      PutTwice(old(cursors), key, cursor, cursor + 1);
      cursors := cursors[key := cursor + 1];
      if 0 <= index < |observations| { return Found(observations[index]); }
      if -|observations| <= index < 0 { return Found(observations[|observations| + index]); }
      return BadIndex;
    }

    /** load_body. */
    method Load(disk: Disk, ref: Option<Path>) returns (r: Load)
      ensures r == LoadBody(disk.files, dir, slug, ref)
    {
      if ref.None? || ref.value == [] { return Loaded(Null); }
      if LooksLong(ref.value) && ref.value[1] != "fixtures" { return Raised; }
      var candidates := Candidates(dir, slug, ref.value);
      for i := 0 to |candidates|
        invariant LoadFirst(disk.files, candidates) == LoadFirst(disk.files, candidates[i..])
      {
        assert candidates[i..][1..] == candidates[i + 1..];
        if candidates[i] in disk.files { return LoadFile(disk.files[candidates[i]]); }
      }
      assert candidates[|candidates|..] == [];
      return Loaded(Null);
    }
  }

  /** The indices recorded at these positions. */
  function IndicesAt(obs: seq<Entry>, at: seq<nat>): seq<int>
    requires forall i | 0 <= i < |at| :: at[i] < |obs|
  {
    seq(|at|, i requires 0 <= i < |at| => obs[at[i]].index)
  }

  ghost predicate TableFor(table: map<string, seq<int>>, obs: seq<Entry>) {
    forall key ::
      (key in table <==> Occurrences(obs, key) != []) &&
      (key in table ==> table[key] == IndicesAt(obs, Occurrences(obs, key)))
  }

  lemma OccurrencesStep(obs: seq<Entry>, i: nat, key: string)
    requires i < |obs|
    ensures Occurrences(obs[..i + 1], key)
         == Occurrences(obs[..i], key) + if key != "" && obs[i].matchKey == key then [i] else []
  {
    var keys, longer := MatchKeys(obs[..i]), MatchKeys(obs[..i + 1]);
    assert longer == keys + [obs[i].matchKey];
    assert longer[..i] == keys;
  }

  function Listed(table: map<string, seq<int>>, key: string): seq<int> {
    if key in table then table[key] else []
  }

  function Appended(table: map<string, seq<int>>, key: string, index: int): map<string, seq<int>> {
    table[key := Listed(table, key) + [index]]
  }

  lemma TableLists(table: map<string, seq<int>>, obs: seq<Entry>, key: string)
    requires TableFor(table, obs)
    ensures Listed(table, key) == IndicesAt(obs, Occurrences(obs, key))
    ensures key in table <==> Occurrences(obs, key) != []
  {}

  lemma AppendedLists(table: map<string, seq<int>>, k: string, index: int, key: string)
    ensures Listed(Appended(table, k, index), key)
         == if key == k then Listed(table, k) + [index] else Listed(table, key)
    ensures key in Appended(table, k, index) <==> key == k || key in table
  {}

  /** The lists the table must hold after entry i, given those before it. */
  lemma ListsGrow(obs: seq<Entry>, i: nat, key: string)
    requires i < |obs|
    ensures var before, after := Occurrences(obs[..i], key), Occurrences(obs[..i + 1], key);
      IndicesAt(obs[..i + 1], after)
        == IndicesAt(obs[..i], before) + if key != "" && obs[i].matchKey == key then [obs[i].index] else []
  {
    OccurrencesStep(obs, i, key);
    IndicesStep(obs, i, Occurrences(obs[..i], key));
  }

  /** What the table lists under one key after entry i. */
  lemma TableStepAt(table: map<string, seq<int>>, after: map<string, seq<int>>, obs: seq<Entry>, i: nat, key: string)
    requires i < |obs| && TableFor(table, obs[..i])
    requires var k := obs[i].matchKey; after == if k != "" then Appended(table, k, obs[i].index) else table
    ensures key in after <==> Occurrences(obs[..i + 1], key) != []
    ensures Listed(after, key) == IndicesAt(obs[..i + 1], Occurrences(obs[..i + 1], key))
  {
    TableLists(table, obs[..i], key);
    OccurrencesStep(obs, i, key);
    ListsGrow(obs, i, key);
    AppendedLists(table, obs[i].matchKey, obs[i].index, key);
  }

  lemma TableStep(table: map<string, seq<int>>, obs: seq<Entry>, i: nat)
    requires i < |obs| && TableFor(table, obs[..i])
    ensures var key := obs[i].matchKey;
      TableFor(if key != "" then Appended(table, key, obs[i].index) else table, obs[..i + 1])
  {
    var k := obs[i].matchKey;
    var after := if k != "" then Appended(table, k, obs[i].index) else table;
    forall key
      ensures key in after <==> Occurrences(obs[..i + 1], key) != []
      ensures Listed(after, key) == IndicesAt(obs[..i + 1], Occurrences(obs[..i + 1], key))
    {
      TableStepAt(table, after, obs, i, key);
    }
    ListedMakesTable(after, obs[..i + 1]);
  }

  lemma ListedMakesTable(table: map<string, seq<int>>, obs: seq<Entry>)
    requires forall key :: key in table <==> Occurrences(obs, key) != []
    requires forall key :: Listed(table, key) == IndicesAt(obs, Occurrences(obs, key))
    ensures TableFor(table, obs)
  {}

  lemma IndicesStep(obs: seq<Entry>, i: nat, at: seq<nat>)
    requires i < |obs| && forall j | 0 <= j < |at| :: at[j] < i
    ensures IndicesAt(obs[..i + 1], at) == IndicesAt(obs[..i], at)
    ensures IndicesAt(obs[..i + 1], at + [i]) == IndicesAt(obs[..i], at) + [obs[i].index]
  {}

  /** A lookup in terms of the indices listed for its key. */
  lemma LookupBy(obs: seq<Entry>, cursors: Cursors, key: string, indices: seq<int>)
    requires indices == IndicesAt(obs, Occurrences(obs, key))
    ensures var cursor, found := CursorOf(cursors, key), LookupResult(obs, cursors, key);
      if cursor < |indices| then
        found.Some? && obs[found.value].index == indices[cursor] &&
        CursorsAfter(obs, cursors, key) == cursors[key := cursor + 1]
      else found.None? && CursorsAfter(obs, cursors, key) == cursors[key := cursor]
  {}

  // ---- sequences of lookups ----

  /** The cursors after looking up these keys in order. */
  function CursorsAll(obs: seq<Entry>, keys: seq<string>): Cursors {
    if keys == [] then map[]
    else CursorsAfter(obs, CursorsAll(obs, keys[..|keys| - 1]), keys[|keys| - 1])
  }

  /** What the j-th lookup answers. */
  function LookupAt(obs: seq<Entry>, keys: seq<string>, j: nat): Option<nat>
    requires j < |keys|
  {
    LookupResult(obs, CursorsAll(obs, keys[..j]), keys[j])
  }

  function AtMost(a: nat, b: nat): nat { if a <= b then a else b }

  /** A cursor counts the requests for its key, until the observations run out. */
  lemma {:induction false} CursorCounts(obs: seq<Entry>, keys: seq<string>, key: string)
    ensures CursorOf(CursorsAll(obs, keys), key) == AtMost(Count(keys, key), |Occurrences(obs, key)|)
  {
    if keys != [] {
      var n := |keys| - 1;
      CursorCounts(obs, keys[..n], key);
      CursorCounts(obs, keys[..n], keys[n]);
      CountStep(keys, n, key);
      assert keys[..n + 1] == keys;
    }
  }

  /** The n-th lookup of a key answers its n-th observation, or None past the last. */
  lemma LookupIsNth(obs: seq<Entry>, keys: seq<string>, j: nat)
    requires j < |keys|
    ensures var n, at := Count(keys[..j], keys[j]), Occurrences(obs, keys[j]);
      LookupAt(obs, keys, j) == if n < |at| then Some(at[n]) else None
  {
    CursorCounts(obs, keys[..j], keys[j]);
  }

  lemma {:induction false} CountMonotone(keys: seq<string>, key: string, i: nat, j: nat)
    requires i < j <= |keys| && keys[i] == key
    ensures Count(keys[..i], key) < Count(keys[..j], key)
  {
    if j == i + 1 {
      CountStep(keys, i, key);
    } else {
      CountMonotone(keys, key, i, j - 1);
      CountStep(keys, j - 1, key);
    }
  }

  /** No observation is served twice. */
  lemma ServedAtMostOnce(obs: seq<Entry>, keys: seq<string>, i: nat, j: nat)
    requires i < j < |keys| && LookupAt(obs, keys, i).Some? && LookupAt(obs, keys, j).Some?
    ensures LookupAt(obs, keys, i) != LookupAt(obs, keys, j)
  {
    LookupIsNth(obs, keys, i);
    LookupIsNth(obs, keys, j);
    if keys[i] == keys[j] {
      CountMonotone(keys, keys[i], i, j);
    }
  }

  /** How many of the lookups of a key were answered. */
  function Hits(obs: seq<Entry>, keys: seq<string>, key: string): nat {
    if keys == [] then 0
    else
      var n := |keys| - 1;
      Hits(obs, keys[..n], key) + if keys[n] == key && LookupAt(obs, keys, n).Some? then 1 else 0
  }

  lemma CountLast(keys: seq<string>, key: string, n: nat)
    requires n + 1 == |keys|
    ensures Count(keys, key) == Count(keys[..n], key) + if keys[n] == key then 1 else 0
  {}

  lemma LastAnswered(obs: seq<Entry>, keys: seq<string>, n: nat)
    requires n + 1 == |keys|
    ensures LookupAt(obs, keys, n).Some? <==> Count(keys[..n], keys[n]) < |Occurrences(obs, keys[n])|
  {
    LookupIsNth(obs, keys, n);
  }

  lemma HitsStep(obs: seq<Entry>, keys: seq<string>, key: string, n: nat, some: bool)
    requires n + 1 == |keys| && some == LookupAt(obs, keys, n).Some?
    ensures Hits(obs, keys, key) == Hits(obs, keys[..n], key) + if keys[n] == key && some then 1 else 0
  {}

  /** Hits per key are the lesser of requests and recorded observations. */
  lemma {:induction false} HitsAreBounded(obs: seq<Entry>, keys: seq<string>, key: string)
    ensures Hits(obs, keys, key) == AtMost(Count(keys, key), |Occurrences(obs, key)|)
  {
    if keys != [] {
      var n := |keys| - 1;
      HitsAreBounded(obs, keys[..n], key);
      LastAnswered(obs, keys, n);
      CountLast(keys, key, n);
      HitsStep(obs, keys, key, n, LookupAt(obs, keys, n).Some?);
    }
  }

  lemma LookupFrame(obs: seq<Entry>, c: Cursors, d: Cursors, key: string)
    requires CursorOf(c, key) == CursorOf(d, key)
    ensures LookupResult(obs, c, key) == LookupResult(obs, d, key)
    ensures NextCursor(obs, c, key) == NextCursor(obs, d, key)
  {}

  lemma CursorElsewhere(cursors: Cursors, a: string, n: nat, b: string)
    requires a != b
    ensures CursorOf(cursors[a := n], b) == CursorOf(cursors, b)
  {}

  /** Lookups of different keys do not affect each other. */
  lemma LookupsCommute(obs: seq<Entry>, cursors: Cursors, a: string, b: string)
    requires a != b
    ensures CursorsAfter(obs, CursorsAfter(obs, cursors, a), b) == CursorsAfter(obs, CursorsAfter(obs, cursors, b), a)
    ensures LookupResult(obs, CursorsAfter(obs, cursors, a), b) == LookupResult(obs, cursors, b)
  {
    var x, y := NextCursor(obs, cursors, a), NextCursor(obs, cursors, b);
    CursorElsewhere(cursors, a, x, b);
    CursorElsewhere(cursors, b, y, a);
    LookupFrame(obs, cursors, cursors[a := x], b);
    LookupFrame(obs, cursors, cursors[b := y], a);
    MapSwap(cursors, a, x, b, y);
  }

  lemma MapSwap<K, V>(m: map<K, V>, a: K, x: V, b: K, y: V)
    requires a != b
    ensures m[a := x][b := y] == m[b := y][a := x]
  {}

  /** Asking for the recorded keys in the recorded order serves observation k on call k. */
  lemma RecordedOrderIsServed(obs: seq<Entry>, keys: seq<string>, k: nat)
    requires k < |keys| && keys == MatchKeys(obs) && keys[k] != ""
    ensures LookupAt(obs, keys, k) == Some(k)
  {
    LookupIsNth(obs, keys, k);
    RankOfPosition(MatchKeys(obs), k);
  }

  lemma CursorsStep(obs: seq<Entry>, keys: seq<string>, k: nat)
    requires k < |keys|
    ensures CursorsAll(obs, keys[..k + 1]) == CursorsAfter(obs, CursorsAll(obs, keys[..k]), keys[k])
  {
    assert keys[..k + 1][..k] == keys[..k];
  }

  /** After k calls in recorded order the next one finds observation k. */
  lemma NextRecorded(obs: seq<Entry>, cursors: Cursors, k: nat)
    requires k < |obs| && obs[k].matchKey != "" && cursors == CursorsAll(obs, MatchKeys(obs)[..k])
    ensures LookupResult(obs, cursors, obs[k].matchKey) == Some(k)
    ensures CursorsAfter(obs, cursors, obs[k].matchKey) == CursorsAll(obs, MatchKeys(obs)[..k + 1])
  {
    CursorsStep(obs, MatchKeys(obs), k);
    RecordedOrderIsServed(obs, MatchKeys(obs), k);
  }
}
