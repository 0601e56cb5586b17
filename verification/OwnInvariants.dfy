/** Exactly when a recording passes the invariants inferred from it: on the replay its store gives, and
    whatever the store. */
module OwnInvariants {
  import opened Common
  import opened Json
  import opened JsonText
  import opened Canonical
  import opened KeyPaths
  import opened Runs
  import opened Inference
  import opened Fixture
  import opened Cassettes
  import opened StoredBodies
  import opened Replay
  import opened ReplayRuns
  import opened RecordReplay
  import opened SelfConsistency

  /** The body stored for each call gives every shared path the recorded kind. */
  predicate StoredFit(r: Recording) {
    forall k | 0 <= k < |r.obs| :: SchemaFits(r.obs[k].outputBody, r.ServedBody(k))
  }

  lemma FitsAsServed(r: Recording, served: seq<Served>)
    requires |served| == |r.obs| && forall k | 0 <= k < |r.obs| :: served[k].outputBody == r.ServedBody(k)
    ensures StoredFit(r) <==> forall i | 0 <= i < |r.obs| :: SchemaFits(r.obs[i].outputBody, served[i].outputBody)
  {}

  /** Exactly when a recording passes its own invariants, told before the replay from the store and
      the run: the totals fit, and so do the stored bodies. */
  lemma RecordingPassesExactly(r: Recording, cfg: Config, calls: seq<Call>)
    requires r.Ok() && r.ReplayedBy(cfg) && Repeats(calls, r.obs) && r.obs != []
    ensures PassesItself(r, cfg, calls) <==> MetricFits(r.obs) && StoredFit(r)
  {
    var served := Run(cfg, r.Entries(), Start(r.After()), calls).0.served;
    OwnHolds(r, cfg, calls, served);
    ReplayIsFaithful(r, cfg, calls);
    PassesExactly(r.obs, served);
    FitsAsServed(r, served);
  }

  /** Each body of the run would be stored as it is: no file is there under its hash, and no other body
      of the run is equal to it up to key order. */
  ghost predicate StoresItsOwn(r: Recording) {
    (forall k | 0 <= k < |r.obs| ::
       !r.obs[k].outputBody.Null? ==> BodyPath(r.dir, r.slug, HashOf(r.sha, r.obs[k].outputBody)) !in r.files) &&
    forall v, w | v in RunBodies(r.obs) && w in RunBodies(r.obs) && Same(v, w) :: v == w
  }

  lemma OwnBodyServed(r: Recording, k: nat)
    requires r.Ok() && StoresItsOwn(r) && k < |r.obs|
    ensures r.ServedBody(k) == OrEmpty(r.obs[k].outputBody)
  {
    var v := r.obs[k].outputBody;
    if !v.Null? {
      RunBodyAt(r.obs, k);
      LoadsOwn(r, k);
      var u := NewBody(r.sha, r.obs, v);
      RefLoadsRecorded(r.texts, r.files, r.sha, r.slug, r.obs, r.dir, r.runName, r.obs[k].outputBody, k);
    }
  }

  /** Then only the totals count, however ambiguous the paths are. */
  lemma OwnBodiesPassExactly(r: Recording, cfg: Config, calls: seq<Call>)
    requires r.Ok() && r.ReplayedBy(cfg) && Repeats(calls, r.obs) && r.obs != [] && StoresItsOwn(r)
    ensures PassesItself(r, cfg, calls) <==> MetricFits(r.obs)
  {
    RecordingPassesExactly(r, cfg, calls);
    OwnBodiesFit(r);
  }

  lemma OwnBodiesFit(r: Recording)
    requires r.Ok() && StoresItsOwn(r)
    ensures StoredFit(r)
  {
    forall k | 0 <= k < |r.obs| ensures SchemaFits(r.obs[k].outputBody, r.ServedBody(k)) {
      OwnBodyServed(r, k);
      FitsItself(r.obs[k].outputBody);
    }
  }

  lemma FitsItself(v: Value)
    ensures SchemaFits(v, OrEmpty(v))
  {
    if v == Array([]) { assert Writes(v, "") == []; }
  }

  // ---- whatever the store ----

  /** A good store in which a reordering of body k is stored already. */
  lemma StoreWith(
      texts: iset<string>, sha: Sha, slug: string, dir: Path, obs: seq<Observation>, k: nat, w: Value)
    returns (files: Files)
    requires WellFormedRun(obs) && CollisionFree(sha, texts) && RunTextsIn(texts, obs) && k < |obs|
    requires WellFormed(w) && Same(obs[k].outputBody, w) && !w.Null?
    ensures Recordable(texts, files, sha, slug, obs, dir)
    ensures StoredBody(files, sha, slug, obs, dir, obs[k].outputBody) == w
  {
    var v := obs[k].outputBody;
    var hash := HashOf(sha, v);
    CanonicalInjective(v, w);
    files := map[BodyPath(dir, slug, hash) := BodyFile(BodyText(w))];
    BodyTextIsGood(sha, w);
    forall t, h | BodyPath(dir, t, h) in files ensures h == hash { BodyPathInjective(dir, t, h, slug, hash); }
    TextReadsBack(w);
  }

  lemma TextReadsBack(w: Value)
    requires WellFormed(w)
    ensures Parse(BodyText(w)) == Some(w)
  {
    PrintThenParse(w, Indented, 0, "\n");
  }

  /** A run passes its own invariants on every good store if and only if its totals fit and no output
      body writes a path with two kinds. */
  lemma EveryStorePassesExactly(
      texts: iset<string>, sha: Sha, slug: string, dir: Path, obs: seq<Observation>, runName: string, cfg: Config,
      calls: seq<Call>)
    requires obs != [] && WellFormedRun(obs) && CollisionFree(sha, texts) && RunTextsIn(texts, obs)
    requires cfg.sha == sha && cfg.slug == slug && cfg.dir == dir && Repeats(calls, obs)
    ensures (forall files | Recordable(texts, files, sha, slug, obs, dir) ::
               PassesItself(Recording(texts, files, sha, slug, dir, obs, runName), cfg, calls))
       <==> MetricFits(obs) && UnambiguousRun(obs)
  {
    if MetricFits(obs) && UnambiguousRun(obs) {
      forall files | Recordable(texts, files, sha, slug, obs, dir)
        ensures PassesItself(Recording(texts, files, sha, slug, dir, obs, runName), cfg, calls)
      {
        UnambiguousPasses(Recording(texts, files, sha, slug, dir, obs, runName), cfg, calls);
      }
    } else {
      var r := FailingStore(texts, sha, slug, dir, obs, runName, cfg, calls);
    }
  }

  lemma UnambiguousPasses(r: Recording, cfg: Config, calls: seq<Call>)
    requires r.Ok() && r.ReplayedBy(cfg) && Repeats(calls, r.obs) && r.obs != []
    requires MetricFits(r.obs) && UnambiguousRun(r.obs)
    ensures PassesItself(r, cfg, calls)
  {
    OwnHolds(r, cfg, calls, Run(cfg, r.Entries(), Start(r.After()), calls).0.served);
    ReplayIsFaithful(r, cfg, calls);
    FaithfulReplayPasses(r.obs, Run(cfg, r.Entries(), Start(r.After()), calls).0.served);
  }

  /** An ambiguous body has a reordering whose paths do not fit it. */
  lemma AmbiguousMisfits(v: Value) returns (w: Value)
    requires WellFormed(v) && !Consistent(Writes(v, ""))
    ensures WellFormed(w) && Same(v, w) && !Falsy(w) && !SchemaFits(v, w)
  {
    assert v.Object? || v.Array?;
    assert !Falsy(v);
    FitsEveryOrderExactly(v);
    w :| WellFormed(w) && Same(v, w) && !SchemaFits(v, w);
    FalsySame(v, w);
  }

  lemma FailingStore(
      texts: iset<string>, sha: Sha, slug: string, dir: Path, obs: seq<Observation>, runName: string, cfg: Config,
      calls: seq<Call>)
    returns (r: Recording)
    requires obs != [] && WellFormedRun(obs) && CollisionFree(sha, texts) && RunTextsIn(texts, obs)
    requires cfg.sha == sha && cfg.slug == slug && cfg.dir == dir && Repeats(calls, obs)
    requires !(MetricFits(obs) && UnambiguousRun(obs))
    ensures r == Recording(texts, r.files, sha, slug, dir, obs, runName) && r.Ok() && !PassesItself(r, cfg, calls)
  {
    var files: Files := map[];
    if MetricFits(obs) {
      var k :| 0 <= k < |obs| && !Consistent(Writes(obs[k].outputBody, ""));
      var w := AmbiguousMisfits(obs[k].outputBody);
      files := StoreWith(texts, sha, slug, dir, obs, k, w);
      r := Recording(texts, files, sha, slug, dir, obs, runName);
      assert r.ServedBody(k) == w && !SchemaFits(r.obs[k].outputBody, r.ServedBody(k));
    } else {
      r := Recording(texts, files, sha, slug, dir, obs, runName);
    }
    RecordingPassesExactly(r, cfg, calls);
  }

  // ---- a recording that fails ----

  /** Two calls whose replies are equal up to key order are served the first reply, where nothing was
      stored and the first request is no such body itself. */
  lemma SecondGetsFirst(r: Recording, a: Observation, b: Observation)
    requires r.Ok() && r.obs == [a, b] && r.files == map[]
    requires Same(a.outputBody, b.outputBody) && !b.outputBody.Null? && !Same(a.inputBody, b.outputBody)
    ensures r.ServedBody(1) == OrEmpty(a.outputBody)
  {
    var hash := HashOf(r.sha, b.outputBody);
    TwoCallBodies(a, b);
    assert r.obs[0] == a && r.obs[1] == b;
    HashIdentifies(r.sha, r.texts, a.inputBody, b.outputBody);
    HashIdentifies(r.sha, r.texts, a.outputBody, b.outputBody);
    assert HashOf(r.sha, a.inputBody) != hash && HashOf(r.sha, a.outputBody) == hash;
    SecondNamed(r.sha, a.inputBody, a.outputBody, b.inputBody, b.outputBody, hash);
  }

  lemma TwoCallBodies(a: Observation, b: Observation)
    ensures RunBodies([a, b]) == [a.inputBody, a.outputBody, b.inputBody, b.outputBody]
  {
    assert [a, b][..1] == [a] && [a][..0] == [];
    assert RunBodies([a]) == [a.inputBody, a.outputBody];
  }

  lemma SecondNamed(sha: Sha, t: Value, u: Value, v: Value, w: Value, hash: string)
    requires HashOf(sha, t) != hash && HashOf(sha, u) == hash
    ensures FirstNamed(sha, [t, u, v, w], hash) == Some(u)
  {
    FirstNamedSnoc(sha, [], t, hash);
    FirstNamedSnoc(sha, [t], u, hash);
    FirstNamedSnoc(sha, [t, u], v, hash);
    FirstNamedSnoc(sha, [t, u, v], w, hash);
    assert [] + [t] == [t] && [t] + [u] == [t, u] && [t, u] + [v] == [t, u, v] && [t, u, v] + [w] == [t, u, v, w];
  }

  /** The two key orders of one ambiguous reply. */
  lemma AmbiguousReplies(num: Value, obj: Value)
    requires var f, g := Field("a.b", Number("1")), Field("a", Object([Field("b", String("x"))]));
      num == Object([f, g]) && obj == Object([g, f])
    ensures Same(num, obj) && !Falsy(num) && !SchemaFits(obj, num)
  {
    DottedKeysCollide();
    assert PathsOf(obj).kinds["a.b"] == NumberKind && PathsOf(num).kinds["a.b"] == StringKind;
  }

  /** Ambiguous paths break it: two calls, one after the other, whose replies are {"a.b": 1, "a": {"b": "x"}}
      and the same the other way round. Written where nothing was, they fail their own invariants
      although the totals fit. */
  lemma AmbiguousFails(r: Recording, cfg: Config, calls: seq<Call>, a: Observation, b: Observation)
    requires r.Ok() && r.ReplayedBy(cfg) && Repeats(calls, r.obs) && r.obs == [a, b] && r.files == map[]
    requires var f, g := Field("a.b", Number("1")), Field("a", Object([Field("b", String("x"))]));
      a.outputBody == Object([f, g]) && b.outputBody == Object([g, f])
    requires !Same(a.inputBody, b.outputBody) && Sequential(r.obs) && TokensCounted(r.obs)
    ensures MetricFits(r.obs) && !PassesItself(r, cfg, calls)
  {
    AmbiguousReplies(a.outputBody, b.outputBody);
    SecondGetsFirst(r, a, b);
    SequentialMetricFits(r.obs);
    assert !SchemaFits(r.obs[1].outputBody, r.ServedBody(1));
    RecordingPassesExactly(r, cfg, calls);
  }
}
