/** The worker's own fixture writer (processFixtureWrite): an index and the body files, from what the
    database holds. It reads each body with JSON.parse and writes it with JSON.stringify, so keys come
    out in JavaScript's order and number tokens as JavaScript prints them. */
module WorkerWriter {
  import opened Common
  import opened Json
  import opened JsonText
  import opened Canonical
  import opened Numbers
  import opened WorkerPaths
  import opened Runs
  import opened Fixture
  import opened Cassettes
  import opened StoredBodies
  import opened Replay
  import opened RecordReplay
  import opened SelfConsistency

  /** A call as the database lists it. */
  datatype Row = Row(
    spanId: string,
    parentSpanId: Option<string>,
    operation: string,
    model: string,
    system: string,
    status: string,
    startedAt: int,
    endedAt: int,
    inputTokens: int,
    outputTokens: int,
    inputBody: Value,
    outputBody: Value)

  /** Its duration is the time between the two clock readings. */
  function AsRead(row: Row): Observation {
    Observation(row.spanId, row.parentSpanId, row.operation, row.model, row.system, row.status, row.startedAt,
                row.endedAt, row.endedAt - row.startedAt, row.inputTokens, row.outputTokens, row.inputBody,
                row.outputBody)
  }

  function ReadAll(rows: seq<Row>): seq<Observation> {
    seq(|rows|, i requires 0 <= i < |rows| => AsRead(rows[i]))
  }

  /** A body text the database returned for a hash. */
  datatype TextRow = TextRow(hash: string, text: string)

  // ---- what it writes ----

  /** A text that is no JSON is wrapped. */
  function Rewritten(text: string, num: string -> string): Value {
    match Parse(text)
    case Some(v) => JsValue(Renumbered(v, num))
    case None => Object([Field("raw_text", String(text))])
  }

  function FileOf(row: TextRow, num: string -> string): File { BodyFile(Print(Rewritten(row.text, num), Indented, 0)) }

  function SaveRow(files: Files, dir: Path, slug: string, row: TextRow, num: string -> string): Files {
    SaveNew(files, BodyPath(dir, slug, row.hash), FileOf(row, num))
  }

  function SaveRows(files: Files, dir: Path, slug: string, rows: seq<TextRow>, num: string -> string): Files {
    if rows == [] then files
    else SaveRow(SaveRows(files, dir, slug, rows[..|rows| - 1], num), dir, slug, rows[|rows| - 1], num)
  }

  function IndexRead(sha: Sha, slug: string, rows: seq<Row>, runName: string, invariants: Invariants): Index
    requires rows != []
  {
    var obs := ReadAll(rows);
    Index(runName, rows[0].startedAt, TopModel(obs), EntriesOf(sha, slug, obs), invariants)
  }

  /** One run of the job: what it is given, and the files it finds. */
  datatype Job = Job(
    files: Files, sha: Sha, dir: Path, slug: string, rows: seq<Row>, bodies: seq<TextRow>, runName: string,
    invariants: Invariants, num: string -> string)
  {
    function Obs(): seq<Observation> { ReadAll(rows) }

    /** The files it leaves. */
    function After(): Files
      requires rows != []
    {
      SaveRows(files, dir, slug, bodies, num)
        [IndexPath(dir, slug) := IndexFile(IndexRead(sha, slug, rows, runName, invariants))]
    }
  }

  /** The loop over the bodies: a file that exists is left alone. */
  method WriteBodies(disk: Disk, dir: Path, slug: string, rows: seq<TextRow>, num: string -> string)
    returns (written: nat, skipped: nat)
    modifies disk
    ensures disk.files == SaveRows(old(disk.files), dir, slug, rows, num)
    ensures written + skipped == |rows| && |disk.files| == |old(disk.files)| + written
  {
    written, skipped := 0, 0;
    for i := 0 to |rows|
      invariant disk.files == SaveRows(old(disk.files), dir, slug, rows[..i], num)
      invariant written + skipped == i && |disk.files| == |old(disk.files)| + written
    {
      assert rows[..i + 1][..i] == rows[..i];
      var path := BodyPath(dir, slug, rows[i].hash);
      if path in disk.files {
        skipped := skipped + 1;
      } else {
        disk.files := disk.files[path := FileOf(rows[i], num)];
        written := written + 1;
      }
    }
    assert rows[..|rows|] == rows;
  }

  /** processFixtureWrite. A run without calls raises before anything is written. */
  method ProcessFixtureWrite(disk: Disk, job: Job) returns (raised: bool)
    requires disk.files == job.files
    modifies disk
    ensures raised == (job.rows == [])
    ensures disk.files == if raised then old(disk.files) else job.After()
  {
    if job.rows == [] { return true; }
    var _, _ := WriteBodies(disk, job.dir, job.slug, job.bodies, job.num);
    var entries: seq<Entry> := [];
    for i := 0 to |job.rows|
      invariant disk.files == SaveRows(job.files, job.dir, job.slug, job.bodies, job.num)
      invariant entries == EntriesOf(job.sha, job.slug, ReadAll(job.rows[..i]))
    {
      EntriesStep(job.sha, job.slug, ReadAll(job.rows[..i + 1]), i);
      assert ReadAll(job.rows[..i + 1])[..i] == ReadAll(job.rows[..i]);
      entries := entries + [EntryOf(job.sha, job.slug, i, AsRead(job.rows[i]))];
    }
    assert job.rows[..|job.rows|] == job.rows;
    var index := Index(job.runName, job.rows[0].startedAt, TopModel(job.Obs()), entries, job.invariants);
    disk.files := disk.files[IndexPath(job.dir, job.slug) := IndexFile(index)];
    return false;
  }

  // ---- what its references load ----

  /** Equal up to key order and number tokens. */
  ghost predicate LoadsLike(load: Load, v: Value) {
    load.Loaded? && WellFormed(load.value) && Same(Shape(v), Shape(load.value))
  }

  /** The text reads back as the body, up to key order. */
  predicate TextOf(row: TextRow, v: Value) {
    Parse(row.text).Some? && WellFormed(Parse(row.text).value) && Same(v, Parse(row.text).value)
  }

  /** Each body of the run is among those the database returned, once per hash. */
  ghost predicate BodiesRead(job: Job) {
    (forall i, j | 0 <= i < j < |job.bodies| :: job.bodies[i].hash != job.bodies[j].hash) &&
    forall v | v in RunBodies(job.Obs()) && !v.Null? ::
      exists i | 0 <= i < |job.bodies| :: job.bodies[i].hash == HashOf(job.sha, v) && TextOf(job.bodies[i], v)
  }

  ghost predicate LikeAt(job: Job, files: Files, v: Value) {
    var path := BodyPath(job.dir, job.slug, HashOf(job.sha, v));
    path in files ==> LoadsLike(LoadFile(files[path]), v)
  }

  /** A body file that exists already is like the body it is named for. */
  ghost predicate LikeStored(job: Job, files: Files) {
    forall v | v in RunBodies(job.Obs()) && !v.Null? :: LikeAt(job, files, v)
  }

  /** What the worker makes of a text is like the body it stands for. */
  lemma RewrittenLike(row: TextRow, v: Value, num: string -> string)
    requires WellFormed(v) && TextOf(row, v) && PrintsNumbers(num)
    ensures LoadsLike(LoadFile(FileOf(row, num)), v)
  {
    var u := Parse(row.text).value;
    var n, w := Renumbered(u, num), Rewritten(row.text, num);
    RenumberedWellFormed(u, num);
    JsValueSame(n);
    PrintThenParse(w, Indented, 0, "");
    assert Print(w, Indented, 0) + "" == Print(w, Indented, 0);
    RenumberedShape(u, num);
    RenumberedSame(v, u, Zero);
    RenumberedSame(n, w, Zero);
    ShapeWellFormed(v);
    ShapeWellFormed(u);
    ShapeWellFormed(w);
    SameEquivalence(Shape(v), Shape(u), Shape(w));
  }

  /** A text that is no JSON is kept whole, wrapped in an object. */
  lemma RawTextIsKept(row: TextRow, num: string -> string)
    requires Parse(row.text).None?
    ensures LoadFile(FileOf(row, num)) == Loaded(Object([Field("raw_text", String(row.text))]))
  {
    var w := Object([Field("raw_text", String(row.text))]);
    PrintThenParse(w, Indented, 0, "");
    assert Print(w, Indented, 0) + "" == Print(w, Indented, 0);
  }

  /** The file was there before, or is the new one if one was saved, or is not there. */
  predicate Saved(files: Files, after: Files, path: Path, file: File, saved: bool) {
    if path in files then path in after && after[path] == files[path]
    else if saved then path in after && after[path] == file
    else path !in after
  }

  lemma SavedStep(files: Files, before: Files, path: Path, file: File, saved: bool, at: Path, other: File)
    requires Saved(files, before, path, file, saved) && (at == path ==> other == file)
    ensures Saved(files, SaveNew(before, at, other), path, file, saved || at == path)
  {}

  /** The loop writes each row's file where there was none. */
  lemma {:induction false} SavedRow(
      files: Files, dir: Path, slug: string, rows: seq<TextRow>, num: string -> string, row: TextRow)
    requires forall j | 0 <= j < |rows| && rows[j].hash == row.hash :: rows[j] == row
    ensures Saved(files, SaveRows(files, dir, slug, rows, num), BodyPath(dir, slug, row.hash), FileOf(row, num),
                  row in rows)
  {
    if rows != [] {
      var front, last := rows[..|rows| - 1], rows[|rows| - 1];
      SavedRow(files, dir, slug, front, num, row);
      SameBodyPath(dir, slug, last.hash, row.hash);
      SavedStep(files, SaveRows(files, dir, slug, front, num), BodyPath(dir, slug, row.hash), FileOf(row, num),
                row in front, BodyPath(dir, slug, last.hash), FileOf(last, num));
      assert row in rows <==> row in front || row == last;
    }
  }

  lemma SameBodyPath(dir: Path, slug: string, h: string, k: string)
    ensures BodyPath(dir, slug, h) == BodyPath(dir, slug, k) <==> h == k
  {
    if BodyPath(dir, slug, h) == BodyPath(dir, slug, k) { BodyPathInjective(dir, slug, h, slug, k); }
  }

  /** The index is no body file. */
  lemma AfterBodies(job: Job, hash: string)
    requires job.rows != []
    ensures var path := BodyPath(job.dir, job.slug, hash);
      var saved := SaveRows(job.files, job.dir, job.slug, job.bodies, job.num);
      (path in job.After() <==> path in saved) && (path in saved ==> job.After()[path] == saved[path])
  {
    IndexIsNotBody(job.dir, job.slug, job.slug, hash);
  }

  /** The row read for a body of the run. */
  lemma RowOf(job: Job, v: Value) returns (i: nat)
    requires BodiesRead(job) && v in RunBodies(job.Obs()) && !v.Null?
    ensures i < |job.bodies| && job.bodies[i].hash == HashOf(job.sha, v) && TextOf(job.bodies[i], v)
    ensures forall j | 0 <= j < |job.bodies| && job.bodies[j].hash == job.bodies[i].hash :: j == i
  {
    i :| 0 <= i < |job.bodies| && job.bodies[i].hash == HashOf(job.sha, v) && TextOf(job.bodies[i], v);
  }

  /** After the job every body of the run has a file like it. */
  lemma JobStoresLike(job: Job, v: Value)
    requires job.rows != [] && WellFormedRun(job.Obs()) && BodiesRead(job) && PrintsNumbers(job.num)
    requires LikeStored(job, job.files) && v in RunBodies(job.Obs()) && !v.Null?
    ensures BodyPath(job.dir, job.slug, HashOf(job.sha, v)) in job.After() && LikeAt(job, job.After(), v)
  {
    var i := RowOf(job, v);
    var k := RunBodyOf(job.Obs(), v);
    assert LikeAt(job, job.files, v);
    SavedRow(job.files, job.dir, job.slug, job.bodies, job.num, job.bodies[i]);
    AfterBodies(job, HashOf(job.sha, v));
    RewrittenLike(job.bodies[i], v, job.num);
  }

  /** So the job can run again. */
  lemma JobKeepsLike(job: Job)
    requires job.rows != [] && WellFormedRun(job.Obs()) && BodiesRead(job) && PrintsNumbers(job.num)
    requires LikeStored(job, job.files)
    ensures LikeStored(job, job.After())
  {
    forall v | v in RunBodies(job.Obs()) && !v.Null? ensures LikeAt(job, job.After(), v) { JobStoresLike(job, v); }
  }

  /** The files of a good store are like their bodies, where no two of the texts collide. */
  lemma GoodStoreIsLike(job: Job, texts: iset<string>)
    requires Recordable(texts, job.files, job.sha, job.slug, job.Obs(), job.dir)
    ensures LikeStored(job, job.files)
  {
    forall v | v in RunBodies(job.Obs()) && !v.Null? ensures LikeAt(job, job.files, v) {
      GoodFileIsLike(job, texts, v);
    }
  }

  lemma GoodFileIsLike(job: Job, texts: iset<string>, v: Value)
    requires Recordable(texts, job.files, job.sha, job.slug, job.Obs(), job.dir)
    requires v in RunBodies(job.Obs()) && !v.Null?
    ensures LikeAt(job, job.files, v)
  {
    var path := BodyPath(job.dir, job.slug, HashOf(job.sha, v));
    if path in job.files {
      var file := job.files[path];
      var k := RunBodyOf(job.Obs(), v);
      assert GoodBody(file, HashOf(job.sha, v), job.sha) && FileTextIn(texts, file);
      HashIdentifies(job.sha, texts, v, Parse(file.text).value);
      RenumberedSame(v, Parse(file.text).value, Zero);
    }
  }

  /** The reference of an entry loads a body like the one it stands for. */
  lemma JobLoadsLike(job: Job, v: Value)
    requires job.rows != [] && WellFormedRun(job.Obs()) && BodiesRead(job) && PrintsNumbers(job.num)
    requires LikeStored(job, job.files) && v in RunBodies(job.Obs())
    ensures LoadsLike(LoadBody(job.After(), job.dir, job.slug, RefTo(job.slug, HashOf(job.sha, v))), v)
  {
    if !v.Null? {
      assert |HashOf(job.sha, v)| == 64;
      JobStoresLike(job, v);
      LoadWrittenRef(job.After(), job.dir, job.slug, job.slug, HashOf(job.sha, v));
    }
  }

  /** A body like the recorded one is served as one. */
  lemma LikeIsAlike(v: Value, w: Value)
    requires WellFormed(w) && Same(Shape(v), Shape(w))
    ensures Alike(v, OrEmpty(w))
  {}

  function LoadedOf(load: Load): Value { match load case Loaded(v) => v case Raised => Null }

  /** The fixture the job leaves. */
  function DiskAfter(job: Job): OnDisk
    requires job.rows != []
  {
    var obs := job.Obs();
    OnDisk(job.After(), job.sha, job.slug, job.dir, obs, seq(|obs|, k requires 0 <= k < |obs| =>
      LoadedOf(LoadBody(job.After(), job.dir, job.slug, RefTo(job.slug, HashOf(job.sha, obs[k].outputBody))))))
  }

  lemma JobDiskOk(job: Job)
    requires job.rows != [] && WellFormedRun(job.Obs()) && BodiesRead(job) && PrintsNumbers(job.num)
    requires LikeStored(job, job.files)
    ensures DiskAfter(job).Ok()
    ensures forall k | 0 <= k < |job.Obs()| :: Alike(job.Obs()[k].outputBody, OrEmpty(DiskAfter(job).bodies[k]))
  {
    var obs, d := job.Obs(), DiskAfter(job);
    forall k | 0 <= k < |obs| ensures d.LoadsAt(k) && Alike(obs[k].outputBody, OrEmpty(d.bodies[k])) {
      RunBodyAt(obs, k);
      JobLoadsLike(job, obs[k].outputBody);
      LikeIsAlike(obs[k].outputBody, d.bodies[k]);
    }
  }

  predicate ListsRow(e: Entry, row: Row, sha: Sha, k: nat) {
    e.index == k && e.spanId == row.spanId && e.parentSpanId == row.parentSpanId && e.operation == row.operation &&
    e.model == row.model && e.system == row.system && e.status == row.status && e.startedAt == row.startedAt &&
    e.endedAt == row.endedAt && e.duration == row.endedAt - row.startedAt && e.inputTokens == row.inputTokens &&
    e.outputTokens == row.outputTokens &&
    e.matchKey == if row.inputBody.Null? then "" else CanonicalHash(sha, row.inputBody)
  }

  /** The index the job leaves lists every row in order, with the time between its clock readings as its duration,
      and both references of an entry load bodies like those of the row. */
  lemma JobIndexLoads(job: Job, k: nat)
    requires job.rows != [] && WellFormedRun(job.Obs()) && BodiesRead(job) && PrintsNumbers(job.num)
    requires LikeStored(job, job.files) && k < |job.rows|
    ensures var after, path, row := job.After(), IndexPath(job.dir, job.slug), job.rows[k];
      path in after && after[path].IndexFile? && |after[path].index.observations| == |job.rows| &&
      after[path].index.runName == job.runName && after[path].index.startedAt == job.rows[0].startedAt &&
      FirstModel(after[path].index.topModel, job.Obs()) &&
      var e := after[path].index.observations[k];
      ListsRow(e, row, job.sha, k) &&
      LoadsLike(LoadBody(after, job.dir, job.slug, e.inputRef), row.inputBody) &&
      LoadsLike(LoadBody(after, job.dir, job.slug, e.outputRef), row.outputBody)
  {
    RunBodyAt(job.Obs(), k);
    TopModelIsFirst(job.Obs());
    JobLoadsLike(job, job.rows[k].inputBody);
    JobLoadsLike(job, job.rows[k].outputBody);
  }
}
