/** Record, write, replay: a fixture replayed with the requests it was recorded from answers every
    one of them, in order, with the recorded body up to key order. */
module RecordReplay {
  import opened Common
  import opened Json
  import opened JsonText
  import opened Canonical
  import opened Runs
  import opened Fixture
  import opened Cassettes
  import opened StoredBodies
  import opened Replay
  import opened ReplayRuns

  // ---- loading what was written ----

  /** The canonical texts of a run's bodies are among these. */
  ghost predicate RunTextsIn(texts: iset<string>, obs: seq<Observation>) {
    forall i | 0 <= i < |obs| :: PyCanonical(obs[i].inputBody) in texts && PyCanonical(obs[i].outputBody) in texts
  }

  /** So are those of the bodies already stored under a slug. */
  ghost predicate StoredTextsIn(texts: iset<string>, files: Files, dir: Path, slug: string) {
    forall hash | BodyPath(dir, slug, hash) in files :: FileTextIn(texts, files[BodyPath(dir, slug, hash)])
  }

  ghost predicate FileTextIn(texts: iset<string>, file: File) {
    file.BodyFile? && Parse(file.text).Some? ==> PyCanonical(Parse(file.text).value) in texts
  }

  ghost predicate BodyTextsIn(texts: iset<string>, bodies: seq<Body>) {
    forall i | 0 <= i < |bodies| :: PyCanonical(bodies[i].value) in texts
  }

  lemma {:induction false} CollectedTextsIn(texts: iset<string>, sha: Sha, obs: seq<Observation>)
    requires RunTextsIn(texts, obs)
    ensures BodyTextsIn(texts, BodiesOf(sha, obs))
  {
    if obs != [] { CollectedTextsIn(texts, sha, obs[..|obs| - 1]); }
  }

  lemma {:induction false} SavedTextsIn(texts: iset<string>, files: Files, dir: Path, slug: string,
      bodies: seq<Body>, sha: Sha)
    requires StoredTextsIn(texts, files, dir, slug) && BodyTextsIn(texts, bodies) && HashedBodies(sha, bodies)
    ensures StoredTextsIn(texts, SaveBodies(files, dir, slug, bodies), dir, slug)
  {
    if bodies != [] {
      var n := |bodies| - 1;
      SavedTextsIn(texts, files, dir, slug, bodies[..n], sha);
      PrintThenParse(bodies[n].value, Indented, 0, "\n");
    }
  }

  lemma WrittenTextsIn(
      texts: iset<string>, files: Files, sha: Sha, slug: string, obs: seq<Observation>, dir: Path, runName: string)
    requires StoredTextsIn(texts, files, dir, slug) && RunTextsIn(texts, obs) && WellFormedRun(obs)
    ensures StoredTextsIn(texts, Written(files, sha, slug, obs, dir, runName), dir, slug)
  {
    BodiesAreHashed(sha, obs);
    CollectedTextsIn(texts, sha, obs);
    SavedTextsIn(texts, files, dir, slug, BodiesOf(sha, obs), sha);
    forall hash ensures BodyPath(dir, slug, hash) != IndexPath(dir, slug) { IndexIsNotBody(dir, slug, slug, hash); }
  }

  /** What a theorem about one write assumes of the world: a good store, parsed bodies, and no two
      of the texts involved colliding. */
  ghost predicate Recordable(
      texts: iset<string>, files: Files, sha: Sha, slug: string, obs: seq<Observation>, dir: Path) {
    StoreOk(files, dir, sha) && WellFormedRun(obs) && CollisionFree(sha, texts) &&
    RunTextsIn(texts, obs) && StoredTextsIn(texts, files, dir, slug)
  }

  /** The reference to a body of the run loads it back, up to key order: another body with the same
      canonical text may have been stored first. */
  lemma RefLoadsRecorded(
      texts: iset<string>, files: Files, sha: Sha, slug: string, obs: seq<Observation>, dir: Path, runName: string,
      v: Value, k: nat)
    requires Recordable(texts, files, sha, slug, obs, dir)
    requires k < |obs| && (v == obs[k].inputBody || v == obs[k].outputBody)
    ensures var load := LoadBody(Written(files, sha, slug, obs, dir, runName), dir, slug, RefTo(slug, HashOf(sha, v)));
      load.Loaded? && WellFormed(load.value) && Same(v, load.value)
  {
    if !v.Null? {
      var after, hash := Written(files, sha, slug, obs, dir, runName), HashOf(sha, v);
      WrittenStoreOk(files, sha, slug, obs, dir, runName);
      WrittenTextsIn(texts, files, sha, slug, obs, dir, runName);
      BodiesCover(sha, obs, k);
      SaveBodiesAdds(files, dir, slug, BodiesOf(sha, obs));
      var file := after[BodyPath(dir, slug, hash)];
      assert GoodBody(file, hash, sha) && FileTextIn(texts, file);
      LoadWrittenRef(after, dir, slug, slug, hash);
      HashIdentifies(sha, texts, v, Parse(file.text).value);
    }
  }

  /** The entry lists the call: its position, its fields, and as match key the hash of its request. */
  predicate Lists(e: Entry, o: Observation, sha: Sha, k: nat) {
    e.index == k && e.spanId == o.spanId && e.parentSpanId == o.parentSpanId && e.operation == o.operation &&
    e.model == o.model && e.system == o.system && e.status == o.status && e.startedAt == o.startedAt &&
    e.endedAt == o.endedAt && e.duration == o.duration && e.inputTokens == o.inputTokens &&
    e.outputTokens == o.outputTokens && e.matchKey == if o.inputBody.Null? then "" else CanonicalHash(sha, o.inputBody)
  }

  /** The model at the head of an index: the first that a call names. */
  predicate FirstModel(model: string, obs: seq<Observation>) {
    if forall i | 0 <= i < |obs| :: obs[i].model == "" then model == ""
    else exists i | 0 <= i < |obs| && model == obs[i].model != "" :: forall j | 0 <= j < i :: obs[j].model == ""
  }

  lemma {:induction false} TopModelIsFirst(obs: seq<Observation>)
    ensures FirstModel(TopModel(obs), obs)
  {
    if obs != [] && obs[0].model == "" {
      TopModelIsFirst(obs[1..]);
      if i :| 0 <= i < |obs| && obs[i].model != "" { assert obs[1..][i - 1] == obs[i]; }
      var rest := obs[1..];
      if i :| 0 <= i < |rest| && TopModel(obs) == rest[i].model != "" && forall j | 0 <= j < i :: rest[j].model == "" {
        assert obs[i + 1].model == TopModel(obs);
        forall j | 0 <= j < i + 1 ensures obs[j].model == "" { if j > 0 { assert obs[j] == rest[j - 1]; } }
      }
    }
  }

  /** The written index lists every call in order, and both references of an entry load the bodies of its
      call, up to key order. */
  lemma LoadsRecorded(
      texts: iset<string>, files: Files, sha: Sha, slug: string, obs: seq<Observation>, dir: Path, runName: string,
      k: nat)
    requires Recordable(texts, files, sha, slug, obs, dir) && k < |obs|
    ensures var after, path := Written(files, sha, slug, obs, dir, runName), IndexPath(dir, slug);
      path in after && after[path].IndexFile? && |after[path].index.observations| == |obs| &&
      var e := after[path].index.observations[k];
      var request, reply := LoadBody(after, dir, slug, e.inputRef), LoadBody(after, dir, slug, e.outputRef);
      Lists(e, obs[k], sha, k) &&
      request.Loaded? && WellFormed(request.value) && Same(obs[k].inputBody, request.value) &&
      reply.Loaded? && WellFormed(reply.value) && Same(obs[k].outputBody, reply.value)
  {
    RefLoadsRecorded(texts, files, sha, slug, obs, dir, runName, obs[k].inputBody, k);
    RefLoadsRecorded(texts, files, sha, slug, obs, dir, runName, obs[k].outputBody, k);
  }

  /** The head of the index: the name of the run or else the slug, the time of its first call, and its first model. */
  lemma IndexHead(
      files: Files, sha: Sha, slug: string, obs: seq<Observation>, dir: Path, runName: string)
    ensures var after, path := Written(files, sha, slug, obs, dir, runName), IndexPath(dir, slug);
      path in after && after[path].IndexFile? &&
      var index := after[path].index;
      index.runName == (if runName == "" then slug else runName) && FirstModel(index.topModel, obs) &&
      index.startedAt == (if obs == [] then 0 else obs[0].startedAt)
  {
    TopModelIsFirst(obs);
  }

  lemma FalsySame(v: Value, w: Value)
    requires Same(v, w)
    ensures Falsy(v) == Falsy(w)
  {}

  /** A replayed body for a recorded one: equal up to key order, except that a falsy body comes
      back as the empty object. */
  predicate Echoes(recorded: Value, replayed: Value) {
    WellFormed(replayed) && if Falsy(recorded) then replayed == Object([]) else Same(recorded, replayed)
  }

  // ---- replaying what is on disk ----

  /** A fixture on disk: the run its entries stand for, and the body each output reference loads. */
  datatype OnDisk = OnDisk(
    files: Files, sha: Sha, slug: string, dir: Path, obs: seq<Observation>, bodies: seq<Value>)
  {
    function Entries(): seq<Entry> { EntriesOf(sha, slug, obs) }

    ghost predicate Ok() { WellFormedRun(obs) && |bodies| == |obs| && forall i | 0 <= i < |obs| :: LoadsAt(i) }

    ghost predicate LoadsAt(i: nat)
      requires i < |obs| && i < |bodies|
    {
      LoadBody(files, dir, slug, EntryOf(sha, slug, i, obs[i]).outputRef) == Loaded(bodies[i]) && WellFormed(bodies[i])
    }

    /** The replay is configured for this fixture. */
    ghost predicate ReplayedBy(cfg: Config) { cfg.sha == sha && cfg.slug == slug && cfg.dir == dir }
  }

  /** Ledger entry i was served for observation i of the run. */
  predicate ServedFor(o: Observation, e: Served, i: nat) {
    e.callIndex == i && e.observationIndex == Some(i) && e.source == FromCassette && e.operation == o.operation &&
    e.inputTokens == o.inputTokens && e.outputTokens == o.outputTokens
  }

  /** The answer the client reads is the body the ledger logs. */
  predicate AnswersEntry(o: Outcome, e: Served) {
    o.Answered? && Parse(o.text) == Some(e.outputBody)
  }

  /** Call i was answered for observation i, with the body its reference loads. */
  predicate AnsweredAt(d: OnDisk, e: Served, o: Outcome, i: nat)
    requires i < |d.obs| && i < |d.bodies|
  {
    ServedFor(d.obs[i], e, i) && e.outputBody == OrEmpty(d.bodies[i]) && AnswersEntry(o, e)
  }

  /** The state and answers after k hits, one on each observation in order. */
  predicate ReplayedSoFar(d: OnDisk, s: State, outcomes: seq<Outcome>, k: nat)
  {
    k <= |d.obs| && k <= |d.bodies| && |s.served| == k && s.callIndex == k && |outcomes| == k &&
    s.misses == 0 && !s.written &&
    s.files == d.files && s.cursors == CursorsAll(d.Entries(), MatchKeys(d.Entries())[..k]) &&
    forall i | 0 <= i < k :: AnsweredAt(d, s.served[i], outcomes[i], i)
  }

  lemma EntriesArePositional(sha: Sha, slug: string, obs: seq<Observation>)
    ensures Positional(EntriesOf(sha, slug, obs))
  {}

  lemma EmptyObjectParses()
    ensures Parse(Print(Object([]), Spaced, 0)) == Some(Object([]))
  {}

  lemma AnswerParses(v: Value)
    requires WellFormed(v)
    ensures Parse(Print(OrEmpty(v), Spaced, 0)) == Some(OrEmpty(v))
  {
    EmptyObjectParses();
    PrintThenParse(v, Spaced, 0, "");
    assert Print(v, Spaced, 0) + "" == Print(v, Spaced, 0);
  }

  /** The call repeats a recorded request, up to key order. */
  predicate RepeatsAt(c: Call, o: Observation) {
    o.inputBody.Object? && c.openai && c.request.Some? && WellFormed(c.request.value) &&
      Same(o.inputBody, c.request.value)
  }

  /** The calls repeat the recorded requests in order. */
  predicate Repeats(calls: seq<Call>, obs: seq<Observation>) {
    |calls| == |obs| && forall i | 0 <= i < |calls| :: RepeatsAt(calls[i], obs[i])
  }

  /** The key of a repeated request is the recorded one. */
  lemma RepeatedKey(d: OnDisk, c: Call, k: nat)
    requires d.Ok() && k < |d.obs| && RepeatsAt(c, d.obs[k])
    ensures d.Entries()[k].matchKey == CanonicalHash(d.sha, c.request.value) && d.Entries()[k].matchKey != ""
  {
    CanonicalInjective(d.obs[k].inputBody, c.request.value);
    assert |CanonicalHash(d.sha, c.request.value)| == 64;
  }

  /** A call with the k-th key is a hit on observation k. */
  lemma StepHits(cfg: Config, entries: seq<Entry>, s: State, c: Call, k: nat)
    requires k < |entries| && Positional(entries) && c.openai && c.request.Some? && c.request.value.Object?
    requires entries[k].matchKey == CanonicalHash(cfg.sha, c.request.value) && entries[k].matchKey != ""
    requires s.cursors == CursorsAll(entries, MatchKeys(entries)[..k])
    ensures var s' := s.(cursors := CursorsAll(entries, MatchKeys(entries)[..k + 1]));
      Step(cfg, entries, s, c) == Hit(cfg, s', entries[k].matchKey, entries[k], c.request.value, c)
  {
    NextRecorded(entries, s.cursors, k);
    PositionalFetch(entries, Some(k));
  }

  /** What that hit appends and answers. */
  lemma HitAnswers(d: OnDisk, cfg: Config, s: State, key: string, c: Call, k: nat) returns (e: Served)
    requires d.Ok() && d.ReplayedBy(cfg) && k < |d.obs| && RepeatsAt(c, d.obs[k]) && s.files == d.files &&
      s.callIndex == k
    ensures var next := Hit(cfg, s, key, d.Entries()[k], c.request.value, c);
      next.0 == Append(s, e) && AnsweredAt(d, e, next.1, k)
  {
    assert d.LoadsAt(k);
    AnswerParses(d.bodies[k]);
    e := HitEntry(s, key, d.Entries()[k], c.request.value, OrEmpty(d.bodies[k]), c);
  }

  lemma AppendReplays(d: OnDisk, s: State, outcomes: seq<Outcome>, k: nat, e: Served, o: Outcome)
    requires k < |d.obs| && k < |d.bodies| && ReplayedSoFar(d, s, outcomes, k) && AnsweredAt(d, e, o, k)
    ensures var s' := s.(cursors := CursorsAll(d.Entries(), MatchKeys(d.Entries())[..k + 1]));
      ReplayedSoFar(d, Append(s', e), outcomes + [o], k + 1)
  {
    forall i | 0 <= i < k + 1 ensures AnsweredAt(d, (s.served + [e])[i], (outcomes + [o])[i], i) {
      assert (s.served + [e])[i] == if i < k then s.served[i] else e;
      assert (outcomes + [o])[i] == if i < k then outcomes[i] else o;
    }
  }

  lemma ReplayStep(d: OnDisk, cfg: Config, s: State, outcomes: seq<Outcome>, c: Call, k: nat)
    requires d.Ok() && d.ReplayedBy(cfg) && k < |d.obs| && RepeatsAt(c, d.obs[k]) && ReplayedSoFar(d, s, outcomes, k)
    ensures var next := Step(cfg, d.Entries(), s, c); ReplayedSoFar(d, next.0, outcomes + [next.1], k + 1)
  {
    var entries := d.Entries();
    var s' := s.(cursors := CursorsAll(entries, MatchKeys(entries)[..k + 1]));
    RepeatedKey(d, c, k);
    EntriesArePositional(d.sha, d.slug, d.obs);
    StepHits(cfg, entries, s, c, k);
    var e := HitAnswers(d, cfg, s', entries[k].matchKey, c, k);
    AppendReplays(d, s, outcomes, k, e, Step(cfg, entries, s, c).1);
  }

  lemma AnsweredHasNotExited(d: OnDisk, s: State, outcomes: seq<Outcome>, k: nat)
    requires ReplayedSoFar(d, s, outcomes, k)
    ensures !HasExited(outcomes)
  {}

  lemma ReplayExtends(
      d: OnDisk, cfg: Config, entries: seq<Entry>, calls: seq<Call>, k: nat, s: State, outcomes: seq<Outcome>)
    requires d.Ok() && d.ReplayedBy(cfg) && entries == d.Entries()
    requires k < |calls| && k < |d.obs| && RepeatsAt(calls[k], d.obs[k])
    requires Run(cfg, entries, Start(d.files), calls[..k]) == (s, outcomes) && ReplayedSoFar(d, s, outcomes, k)
    ensures var run := Run(cfg, entries, Start(d.files), calls[..k + 1]); ReplayedSoFar(d, run.0, run.1, k + 1)
  {
    AnsweredHasNotExited(d, s, outcomes, k);
    RunExtends(cfg, entries, Start(d.files), calls, k, s, outcomes);
    ReplayStep(d, cfg, s, outcomes, calls[k], k);
  }

  /** Replaying the requests of a run against its entries never misses, serves observation k on call
      k, even among repeated identical requests, and answers with the body its reference loads. */
  lemma {:induction false} ReplayOfDisk(d: OnDisk, cfg: Config, calls: seq<Call>, k: nat)
    requires d.Ok() && d.ReplayedBy(cfg) && Repeats(calls, d.obs) && k <= |calls|
    ensures var run := Run(cfg, d.Entries(), Start(d.files), calls[..k]); ReplayedSoFar(d, run.0, run.1, k)
  {
    if k > 0 {
      var before := Run(cfg, d.Entries(), Start(d.files), calls[..k - 1]);
      ReplayOfDisk(d, cfg, calls, k - 1);
      ReplayExtends(d, cfg, d.Entries(), calls, k - 1, before.0, before.1);
    } else {
      assert calls[..0] == [];
    }
  }

  // ---- replaying a recording ----

  /** Ledger entry i was served from observation i of the run, with its body. */
  predicate Faithful(o: Observation, e: Served, i: nat) {
    ServedFor(o, e, i) && Echoes(o.outputBody, e.outputBody)
  }

  /** A recorded run, and the fixture written from it. */
  datatype Recording = Recording(
    texts: iset<string>, files: Files, sha: Sha, slug: string, dir: Path, obs: seq<Observation>, runName: string)
  {
    function After(): Files { Written(files, sha, slug, obs, dir, runName) }

    function Entries(): seq<Entry> { EntriesOf(sha, slug, obs) }

    ghost predicate Ok() { Recordable(texts, files, sha, slug, obs, dir) }

    ghost predicate ReplayedBy(cfg: Config) { cfg.sha == sha && cfg.slug == slug && cfg.dir == dir }

    /** The body a replay loads for call k, told from the store before the write and the run. */
    function Stored(k: nat): Value
      requires k < |obs|
    {
      StoredBody(files, sha, slug, obs, dir, obs[k].outputBody)
    }

    /** The body it serves. */
    function ServedBody(k: nat): Value
      requires k < |obs|
    {
      OrEmpty(Stored(k))
    }

    function Disk(): OnDisk {
      OnDisk(After(), sha, slug, dir, obs, seq(|obs|, k requires 0 <= k < |obs| => Stored(k)))
    }
  }

  lemma LoadsOwn(r: Recording, k: nat)
    requires r.Ok() && k < |r.obs|
    ensures LoadBody(r.After(), r.dir, r.slug, EntryOf(r.sha, r.slug, k, r.obs[k]).outputRef) == Loaded(r.Stored(k))
    ensures WellFormed(r.Stored(k))
  {
    RunBodyAt(r.obs, k);
    LoadsStored(r.files, r.sha, r.slug, r.obs, r.dir, r.runName, r.obs[k].outputBody);
  }

  lemma DiskOk(r: Recording)
    requires r.Ok()
    ensures r.Disk().Ok()
  {
    forall k | 0 <= k < |r.obs| ensures r.Disk().LoadsAt(k) { LoadsOwn(r, k); }
  }

  /** The body served for call k is the recorded one, up to key order. */
  lemma StoredEchoes(r: Recording, k: nat)
    requires r.Ok() && k < |r.obs|
    ensures Echoes(r.obs[k].outputBody, r.ServedBody(k))
  {
    LoadsOwn(r, k);
    RefLoadsRecorded(r.texts, r.files, r.sha, r.slug, r.obs, r.dir, r.runName, r.obs[k].outputBody, k);
    FalsySame(r.obs[k].outputBody, r.Stored(k));
  }

  /** Call i of the replay was served for observation i, with the recorded body up to key order. */
  predicate EchoedAt(r: Recording, e: Served, o: Outcome, i: nat)
    requires i < |r.obs|
  {
    Faithful(r.obs[i], e, i) && e.outputBody == r.ServedBody(i) && AnswersEntry(o, e)
  }

  predicate Echoed(r: Recording, run: (State, seq<Outcome>)) {
    run.0.misses == 0 && |run.0.served| == |r.obs| && |run.1| == |r.obs| &&
    forall i | 0 <= i < |r.obs| :: EchoedAt(r, run.0.served[i], run.1[i], i)
  }

  /** Record/replay: the replay of the recorded requests against the fixture write_fixture made
      never misses, serves observation k on call k, even among repeated identical requests, and
      answers with the recorded body, the very one that was stored. */
  lemma ReplayOfRecording(r: Recording, cfg: Config, calls: seq<Call>)
    requires r.Ok() && r.ReplayedBy(cfg) && Repeats(calls, r.obs)
    ensures Echoed(r, Run(cfg, r.Entries(), Start(r.After()), calls))
  {
    var d := r.Disk();
    assert calls[..|calls|] == calls;
    DiskOk(r);
    ReplayOfDisk(d, cfg, calls, |calls|);
    EchoesAll(r, d, Run(cfg, r.Entries(), Start(r.After()), calls));
  }

  lemma EchoesAll(r: Recording, d: OnDisk, run: (State, seq<Outcome>))
    requires r.Ok() && d == r.Disk() && ReplayedSoFar(d, run.0, run.1, |r.obs|)
    ensures Echoed(r, run)
  {
    forall i | 0 <= i < |r.obs| ensures EchoedAt(r, run.0.served[i], run.1[i], i) {
      assert AnsweredAt(d, run.0.served[i], run.1[i], i);
      StoredEchoes(r, i);
    }
  }
}
