/** Writing a fixture (write_fixture): an index file and one content-addressed file per distinct
    body. Bodies are kept as the text on disk; the fields of an index are kept as a value. */
module Fixture {
  import opened Common
  import opened Json
  import opened JsonText
  import opened Canonical
  import opened Runs
  import Inference

  /** A file path as its components. */
  type Path = seq<string>

  datatype Entry = Entry(
    index: int,
    spanId: string,
    parentSpanId: Option<string>,
    operation: string,
    model: string,
    system: string,
    status: string,
    startedAt: int,
    endedAt: int,
    duration: int,
    inputTokens: int,
    outputTokens: int,
    matchKey: string,
    inputRef: Option<Path>,
    outputRef: Option<Path>)

  datatype Index = Index(
    runName: string, startedAt: int, topModel: string, observations: seq<Entry>, invariants: Invariants)

  datatype File = BodyFile(text: string) | IndexFile(index: Index)

  type Files = map<Path, File>

  class Disk {
    var files: Files

    constructor (files: Files)
      ensures this.files == files
    {
      this.files := files;
    }
  }

  function BodyName(hash: string): string { "sha256-" + hash + ".json" }

  function BodyPath(dir: Path, slug: string, hash: string): Path { dir + [slug, "bodies", BodyName(hash)] }

  function BodyRef(slug: string, hash: string): Path { ["halley", "fixtures", slug, "bodies", BodyName(hash)] }

  function IndexPath(dir: Path, slug: string): Path { dir + [slug + ".json"] }

  // ---- what one call writes ----

  datatype Body = Body(hash: string, value: Value)

  /** The digest of a body, or the empty string when there is none. */
  function HashOf(sha: Sha, body: Value): string {
    if body.Null? then "" else CanonicalHash(sha, body)
  }

  predicate HasBody(bodies: seq<Body>, hash: string) {
    exists i | 0 <= i < |bodies| :: bodies[i].hash == hash
  }

  /** The first body under a hash is kept. */
  function AddBody(bodies: seq<Body>, hash: string, value: Value): seq<Body> {
    if hash != "" && !HasBody(bodies, hash) then bodies + [Body(hash, value)] else bodies
  }

  function AddBodies(sha: Sha, bodies: seq<Body>, o: Observation): seq<Body> {
    AddBody(AddBody(bodies, HashOf(sha, o.inputBody), o.inputBody), HashOf(sha, o.outputBody), o.outputBody)
  }

  function BodiesOf(sha: Sha, obs: seq<Observation>): seq<Body> {
    if obs == [] then [] else AddBodies(sha, BodiesOf(sha, obs[..|obs| - 1]), obs[|obs| - 1])
  }

  lemma BodiesStep(sha: Sha, obs: seq<Observation>, i: nat)
    requires i < |obs|
    ensures BodiesOf(sha, obs[..i + 1]) == AddBodies(sha, BodiesOf(sha, obs[..i]), obs[i])
  {
    assert obs[..i + 1][..i] == obs[..i];
  }

  function RefTo(slug: string, hash: string): Option<Path> {
    if hash == "" then None else Some(BodyRef(slug, hash))
  }

  function EntryOf(sha: Sha, slug: string, i: nat, o: Observation): Entry {
    Entry(i, o.spanId, o.parentSpanId, o.operation, o.model, o.system, o.status, o.startedAt, o.endedAt, o.duration,
          o.inputTokens, o.outputTokens, HashOf(sha, o.inputBody),
          RefTo(slug, HashOf(sha, o.inputBody)), RefTo(slug, HashOf(sha, o.outputBody)))
  }

  function EntriesOf(sha: Sha, slug: string, obs: seq<Observation>): seq<Entry> {
    seq(|obs|, i requires 0 <= i < |obs| => EntryOf(sha, slug, i, obs[i]))
  }

  lemma EntriesStep(sha: Sha, slug: string, obs: seq<Observation>, i: nat)
    requires i < |obs|
    ensures EntriesOf(sha, slug, obs[..i + 1]) == EntriesOf(sha, slug, obs[..i]) + [EntryOf(sha, slug, i, obs[i])]
  {}

  function TopModel(obs: seq<Observation>): string {
    if obs == [] then "" else if obs[0].model != "" then obs[0].model else TopModel(obs[1..])
  }

  function IndexOf(sha: Sha, slug: string, obs: seq<Observation>, runName: string): Index {
    Index(if runName != "" then runName else slug, if obs == [] then 0 else obs[0].startedAt, TopModel(obs),
          EntriesOf(sha, slug, obs), Inference.Inferred(obs))
  }

  /** json.dump with indent=2, then a newline. */
  function BodyText(value: Value): string { Print(value, Indented, 0) + "\n" }

  /** A file that exists is left alone. */
  function SaveNew(files: Files, path: Path, file: File): Files { if path in files then files else files[path := file] }

  function SaveBody(files: Files, path: Path, value: Value): Files { SaveNew(files, path, BodyFile(BodyText(value))) }

  function SaveBodies(files: Files, dir: Path, slug: string, bodies: seq<Body>): Files {
    if bodies == [] then files
    else
      var b := bodies[|bodies| - 1];
      SaveBody(SaveBodies(files, dir, slug, bodies[..|bodies| - 1]), BodyPath(dir, slug, b.hash), b.value)
  }

  lemma SaveStep(files: Files, dir: Path, slug: string, bodies: seq<Body>, i: nat)
    requires i < |bodies|
    ensures SaveBodies(files, dir, slug, bodies[..i + 1])
         == SaveBody(SaveBodies(files, dir, slug, bodies[..i]), BodyPath(dir, slug, bodies[i].hash), bodies[i].value)
  {
    assert bodies[..i + 1][..i] == bodies[..i];
  }

  /** The files after write_fixture. */
  function Written(files: Files, sha: Sha, slug: string, obs: seq<Observation>, dir: Path, runName: string): Files {
    SaveBodies(files, dir, slug, BodiesOf(sha, obs))
      [IndexPath(dir, slug) := IndexFile(IndexOf(sha, slug, obs, runName))]
  }

  /** The first loop of write_fixture: hash the bodies, drop repeats, build the entries. */
  method CollectBodies(sha: Sha, slug: string, obs: seq<Observation>) returns (bodies: seq<Body>, entries: seq<Entry>)
    ensures bodies == BodiesOf(sha, obs) && entries == EntriesOf(sha, slug, obs)
  {
    bodies, entries := [], [];
    for i := 0 to |obs|
      invariant bodies == BodiesOf(sha, obs[..i])
      invariant entries == EntriesOf(sha, slug, obs[..i])
    {
      BodiesStep(sha, obs, i);
      EntriesStep(sha, slug, obs, i);
      bodies := AddBodies(sha, bodies, obs[i]);
      entries := entries + [EntryOf(sha, slug, i, obs[i])];
    }
    assert obs[..|obs|] == obs;
  }

  /** The second loop: a body whose file exists is skipped. */
  method SaveAll(disk: Disk, dir: Path, slug: string, bodies: seq<Body>) returns (written: nat, skipped: nat)
    modifies disk
    ensures disk.files == SaveBodies(old(disk.files), dir, slug, bodies)
    ensures written + skipped == |bodies| && |disk.files| == |old(disk.files)| + written
  {
    written, skipped := 0, 0;
    for i := 0 to |bodies|
      invariant disk.files == SaveBodies(old(disk.files), dir, slug, bodies[..i])
      invariant written + skipped == i && |disk.files| == |old(disk.files)| + written
    {
      SaveStep(old(disk.files), dir, slug, bodies, i);
      var path := BodyPath(dir, slug, bodies[i].hash);
      if path in disk.files {
        skipped := skipped + 1;
      } else {
        disk.files := disk.files[path := BodyFile(BodyText(bodies[i].value))];
        written := written + 1;
      }
    }
    assert bodies[..|bodies|] == bodies;
  }

  /** write_fixture. The counts are those it reports. */
  method WriteFixture(disk: Disk, sha: Sha, slug: string, obs: seq<Observation>, dir: Path, runName: string)
    returns (written: nat, skipped: nat)
    modifies disk
    ensures disk.files == Written(old(disk.files), sha, slug, obs, dir, runName)
    ensures written + skipped == |BodiesOf(sha, obs)|
    ensures |SaveBodies(old(disk.files), dir, slug, BodiesOf(sha, obs))| == |old(disk.files)| + written
  {
    var bodies, entries := CollectBodies(sha, slug, obs);
    var invariants := Inference.InferInvariants(obs);
    written, skipped := SaveAll(disk, dir, slug, bodies);
    var index := Index(if runName != "" then runName else slug, if obs == [] then 0 else obs[0].startedAt,
                       TopModel(obs), entries, invariants);
    disk.files := disk.files[IndexPath(dir, slug) := IndexFile(index)];
  }

  // ---- the content-addressed store ----

  /** The file holds a body whose canonical hash is the one in its name. */
  ghost predicate GoodBody(file: File, hash: string, sha: Sha) {
    file.BodyFile? && Parse(file.text).Some? &&
    WellFormed(Parse(file.text).value) && !Parse(file.text).value.Null? &&
    CanonicalHash(sha, Parse(file.text).value) == hash
  }

  /** Every body file under the fixtures directory is named by the hash of its content. */
  ghost predicate StoreOk(files: Files, dir: Path, sha: Sha) {
    forall slug, hash | BodyPath(dir, slug, hash) in files :: GoodBody(files[BodyPath(dir, slug, hash)], hash, sha)
  }

  ghost predicate RefOk(files: Files, dir: Path, slug: string, ref: Option<Path>) {
    ref.Some? ==> exists hash :: ref.value == BodyRef(slug, hash) && BodyPath(dir, slug, hash) in files
  }

  /** Every body an index refers to is on disk. */
  ghost predicate IndexesOk(files: Files, dir: Path) {
    forall slug | IndexPath(dir, slug) in files && files[IndexPath(dir, slug)].IndexFile? ::
      IndexOk(files, dir, slug, files[IndexPath(dir, slug)].index)
  }

  ghost predicate IndexOk(files: Files, dir: Path, slug: string, index: Index) {
    forall i | 0 <= i < |index.observations| ::
      RefOk(files, dir, slug, index.observations[i].inputRef) &&
        RefOk(files, dir, slug, index.observations[i].outputRef)
  }

  predicate WellFormedRun(obs: seq<Observation>) {
    forall i | 0 <= i < |obs| :: WellFormed(obs[i].inputBody) && WellFormed(obs[i].outputBody)
  }

  lemma BodyNameInjective(h: string, k: string)
    requires BodyName(h) == BodyName(k)
    ensures h == k
  {
    assert |h| == |k|;
    assert BodyName(h)[7..7 + |h|] == h && BodyName(k)[7..7 + |k|] == k;
  }

  lemma BodyPathInjective(dir: Path, s: string, h: string, t: string, k: string)
    requires BodyPath(dir, s, h) == BodyPath(dir, t, k)
    ensures s == t && h == k
  {
    var p, n := BodyPath(dir, s, h), |dir|;
    assert p[n] == s && p[n] == t;
    assert p[n + 2] == BodyName(h) && p[n + 2] == BodyName(k);
    BodyNameInjective(h, k);
  }

  lemma IndexIsNotBody(dir: Path, s: string, t: string, h: string)
    ensures IndexPath(dir, s) != BodyPath(dir, t, h)
  {}

  lemma IndexPathInjective(dir: Path, s: string, t: string)
    requires IndexPath(dir, s) == IndexPath(dir, t)
    ensures s == t
  {
    assert IndexPath(dir, s)[|dir|] == s + ".json" && IndexPath(dir, t)[|dir|] == t + ".json";
    assert (s + ".json")[..|s|] == s && (t + ".json")[..|t|] == t;
  }

  /** Each collected body carries its own hash. */
  predicate HashedBodies(sha: Sha, bodies: seq<Body>) {
    forall i | 0 <= i < |bodies| ::
      WellFormed(bodies[i].value) && !bodies[i].value.Null? && bodies[i].hash == CanonicalHash(sha, bodies[i].value)
  }

  lemma {:induction false} BodiesAreHashed(sha: Sha, obs: seq<Observation>)
    requires WellFormedRun(obs)
    ensures HashedBodies(sha, BodiesOf(sha, obs))
  {
    if obs != [] { BodiesAreHashed(sha, obs[..|obs| - 1]); }
  }

  /** Every body of the run is collected under its hash. */
  lemma {:induction false} BodiesCover(sha: Sha, obs: seq<Observation>, i: nat)
    requires i < |obs|
    ensures !obs[i].inputBody.Null? ==> HasBody(BodiesOf(sha, obs), HashOf(sha, obs[i].inputBody))
    ensures !obs[i].outputBody.Null? ==> HasBody(BodiesOf(sha, obs), HashOf(sha, obs[i].outputBody))
  {
    var n := |obs| - 1;
    AddBodiesHas(sha, BodiesOf(sha, obs[..n]), obs[n]);
    if i < n { BodiesCover(sha, obs[..n], i); }
  }

  lemma AddBodiesHas(sha: Sha, bodies: seq<Body>, o: Observation)
    ensures !o.inputBody.Null? ==> HasBody(AddBodies(sha, bodies, o), HashOf(sha, o.inputBody))
    ensures !o.outputBody.Null? ==> HasBody(AddBodies(sha, bodies, o), HashOf(sha, o.outputBody))
    ensures forall h :: HasBody(bodies, h) ==> HasBody(AddBodies(sha, bodies, o), h)
  {
    AddBodyHas(bodies, HashOf(sha, o.inputBody), o.inputBody);
    AddBodyHas(AddBody(bodies, HashOf(sha, o.inputBody), o.inputBody), HashOf(sha, o.outputBody), o.outputBody);
  }

  predicate DistinctHashes(bodies: seq<Body>) {
    forall i, j | 0 <= i < j < |bodies| :: bodies[i].hash != bodies[j].hash
  }

  /** No hash is collected twice. */
  lemma {:induction false} BodiesDistinct(sha: Sha, obs: seq<Observation>)
    ensures DistinctHashes(BodiesOf(sha, obs))
  {
    if obs != [] { BodiesDistinct(sha, obs[..|obs| - 1]); }
  }

  lemma AddBodyHas(bodies: seq<Body>, hash: string, value: Value)
    ensures hash != "" ==> HasBody(AddBody(bodies, hash, value), hash)
    ensures forall h :: HasBody(bodies, h) ==> HasBody(AddBody(bodies, hash, value), h)
  {
    var more := AddBody(bodies, hash, value);
    if hash != "" && !HasBody(bodies, hash) { assert more[|bodies|].hash == hash; }
    forall h | HasBody(bodies, h) ensures HasBody(more, h) {
      var i :| 0 <= i < |bodies| && bodies[i].hash == h;
      assert more[i].hash == h;
    }
  }

  /** Saving bodies adds a file for each and changes none that was there. */
  lemma {:induction false} SaveBodiesAdds(files: Files, dir: Path, slug: string, bodies: seq<Body>)
    ensures var after := SaveBodies(files, dir, slug, bodies);
      (forall p | p in files :: p in after && after[p] == files[p]) &&
      (forall h | HasBody(bodies, h) :: BodyPath(dir, slug, h) in after)
  {
    if bodies != [] {
      var n := |bodies| - 1;
      SaveBodiesAdds(files, dir, slug, bodies[..n]);
      forall h | HasBody(bodies, h) ensures BodyPath(dir, slug, h) in SaveBodies(files, dir, slug, bodies) {
        var i :| 0 <= i < |bodies| && bodies[i].hash == h;
        if i < n { assert bodies[..n][i].hash == h; }
      }
    }
  }

  lemma BodyTextIsGood(sha: Sha, value: Value)
    requires WellFormed(value) && !value.Null?
    ensures GoodBody(BodyFile(BodyText(value)), CanonicalHash(sha, value), sha)
  {
    PrintThenParse(value, Indented, 0, "\n");
  }

  lemma {:induction false} SaveBodiesKeepsStore(files: Files, dir: Path, slug: string, bodies: seq<Body>, sha: Sha)
    requires StoreOk(files, dir, sha) && HashedBodies(sha, bodies)
    ensures StoreOk(SaveBodies(files, dir, slug, bodies), dir, sha)
  {
    if bodies != [] {
      var n := |bodies| - 1;
      var b, before := bodies[n], SaveBodies(files, dir, slug, bodies[..n]);
      SaveBodiesKeepsStore(files, dir, slug, bodies[..n], sha);
      var after := SaveBodies(files, dir, slug, bodies);
      forall t, h | BodyPath(dir, t, h) in after ensures GoodBody(after[BodyPath(dir, t, h)], h, sha) {
        if BodyPath(dir, t, h) !in before {
          BodyPathInjective(dir, t, h, slug, b.hash);
          BodyTextIsGood(sha, b.value);
        }
      }
    }
  }

  /** Writing the index after the bodies touches no body file. */
  lemma WrittenBodies(
      files: Files, sha: Sha, slug: string, obs: seq<Observation>, dir: Path, runName: string, t: string, h: string)
    ensures var saved := SaveBodies(files, dir, slug, BodiesOf(sha, obs));
      var after := Written(files, sha, slug, obs, dir, runName);
      (BodyPath(dir, t, h) in after <==> BodyPath(dir, t, h) in saved) &&
      (BodyPath(dir, t, h) in saved ==> after[BodyPath(dir, t, h)] == saved[BodyPath(dir, t, h)])
  {
    IndexIsNotBody(dir, slug, t, h);
  }

  /** Body names stay the hashes of their contents. */
  lemma WrittenStoreOk(files: Files, sha: Sha, slug: string, obs: seq<Observation>, dir: Path, runName: string)
    requires StoreOk(files, dir, sha) && WellFormedRun(obs)
    ensures StoreOk(Written(files, sha, slug, obs, dir, runName), dir, sha)
  {
    var saved := SaveBodies(files, dir, slug, BodiesOf(sha, obs));
    BodiesAreHashed(sha, obs);
    SaveBodiesKeepsStore(files, dir, slug, BodiesOf(sha, obs), sha);
    forall t, h | BodyPath(dir, t, h) in Written(files, sha, slug, obs, dir, runName)
      ensures GoodBody(Written(files, sha, slug, obs, dir, runName)[BodyPath(dir, t, h)], h, sha)
    {
      WrittenBodies(files, sha, slug, obs, dir, runName, t, h);
    }
  }

  /** One write_fixture call keeps the store: names are hashes of contents, old body files do not
      change, and every index, old or new, refers to bodies that are there. */
  lemma WriteKeepsStore(files: Files, sha: Sha, slug: string, obs: seq<Observation>, dir: Path, runName: string)
    requires StoreOk(files, dir, sha) && IndexesOk(files, dir) && WellFormedRun(obs)
    ensures var after := Written(files, sha, slug, obs, dir, runName);
      StoreOk(after, dir, sha) && IndexesOk(after, dir) &&
      forall p | p in files && p != IndexPath(dir, slug) :: p in after && after[p] == files[p]
  {
    var bodies := BodiesOf(sha, obs);
    var after := Written(files, sha, slug, obs, dir, runName);
    WrittenStoreOk(files, sha, slug, obs, dir, runName);
    SaveBodiesAdds(files, dir, slug, bodies);
    forall t | IndexPath(dir, t) in after && after[IndexPath(dir, t)].IndexFile?
      ensures IndexOk(after, dir, t, after[IndexPath(dir, t)].index)
    {
      if t == slug {
        NewIndexOk(files, sha, slug, obs, dir, runName);
      } else {
        if IndexPath(dir, t) == IndexPath(dir, slug) { IndexPathInjective(dir, t, slug); }
        OldIndexKept(files, dir, slug, bodies, t);
        IndexStaysOk(files, after, dir, t, after[IndexPath(dir, t)].index);
      }
    }
  }

  lemma NewIndexOk(files: Files, sha: Sha, slug: string, obs: seq<Observation>, dir: Path, runName: string)
    ensures IndexOk(Written(files, sha, slug, obs, dir, runName), dir, slug, IndexOf(sha, slug, obs, runName))
  {
    var after := Written(files, sha, slug, obs, dir, runName);
    SaveBodiesAdds(files, dir, slug, BodiesOf(sha, obs));
    forall i | 0 <= i < |obs|
      ensures RefOk(after, dir, slug, EntryOf(sha, slug, i, obs[i]).inputRef)
      ensures RefOk(after, dir, slug, EntryOf(sha, slug, i, obs[i]).outputRef)
    {
      BodiesCover(sha, obs, i);
      assert !obs[i].inputBody.Null? ==> BodyPath(dir, slug, HashOf(sha, obs[i].inputBody)) in after;
      assert !obs[i].outputBody.Null? ==> BodyPath(dir, slug, HashOf(sha, obs[i].outputBody)) in after;
    }
  }

  /** Saving bodies never touches an index. */
  lemma {:induction false} OldIndexKept(files: Files, dir: Path, slug: string, bodies: seq<Body>, t: string)
    ensures var after := SaveBodies(files, dir, slug, bodies);
      (IndexPath(dir, t) in after <==> IndexPath(dir, t) in files) &&
      (IndexPath(dir, t) in files ==> after[IndexPath(dir, t)] == files[IndexPath(dir, t)])
  {
    if bodies != [] {
      var n := |bodies| - 1;
      OldIndexKept(files, dir, slug, bodies[..n], t);
      IndexIsNotBody(dir, t, slug, bodies[n].hash);
    }
  }

  lemma IndexStaysOk(files: Files, after: Files, dir: Path, slug: string, index: Index)
    requires IndexOk(files, dir, slug, index)
    requires forall h | BodyPath(dir, slug, h) in files :: BodyPath(dir, slug, h) in after
    ensures IndexOk(after, dir, slug, index)
  {}

  // ---- any number of writes ----

  datatype WriteCall = WriteCall(slug: string, obs: seq<Observation>, runName: string)

  function WrittenAll(files: Files, sha: Sha, dir: Path, calls: seq<WriteCall>): Files {
    if calls == [] then files
    else
      var c := calls[|calls| - 1];
      Written(WrittenAll(files, sha, dir, calls[..|calls| - 1]), sha, c.slug, c.obs, dir, c.runName)
  }

  /** Across any number of calls, starting from nothing or from a good store. */
  lemma {:induction false} WritesKeepStore(files: Files, sha: Sha, dir: Path, calls: seq<WriteCall>)
    requires StoreOk(files, dir, sha) && IndexesOk(files, dir)
    requires forall i | 0 <= i < |calls| :: WellFormedRun(calls[i].obs)
    ensures var after := WrittenAll(files, sha, dir, calls);
      StoreOk(after, dir, sha) && IndexesOk(after, dir) &&
      forall slug, hash | BodyPath(dir, slug, hash) in files ::
        BodyPath(dir, slug, hash) in after && after[BodyPath(dir, slug, hash)] == files[BodyPath(dir, slug, hash)]
  {
    if calls != [] {
      var n := |calls| - 1;
      var c, before := calls[n], WrittenAll(files, sha, dir, calls[..n]);
      WritesKeepStore(files, sha, dir, calls[..n]);
      WriteKeepsStore(before, sha, c.slug, c.obs, dir, c.runName);
      forall slug, hash | BodyPath(dir, slug, hash) in files
        ensures BodyPath(dir, slug, hash) != IndexPath(dir, c.slug)
      {
        IndexIsNotBody(dir, c.slug, slug, hash);
      }
    }
  }
}
