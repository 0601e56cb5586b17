/** Which body a reference loads once a fixture is written: the one already stored under its hash, or
    else the first body of the run with that hash. */
module StoredBodies {
  import opened Common
  import opened Json
  import opened JsonText
  import opened Canonical
  import opened Runs
  import opened Fixture
  import opened Cassettes

  /** The bodies of a run in the order they are collected. */
  function RunBodies(obs: seq<Observation>): seq<Value> {
    if obs == [] then []
    else
      var n := |obs| - 1;
      RunBodies(obs[..n]) + [obs[n].inputBody] + [obs[n].outputBody]
  }

  /** The first of them with this hash. */
  function FirstNamed(sha: Sha, bodies: seq<Value>, hash: string): (r: Option<Value>)
    ensures r.Some? ==> r.value in bodies && HashOf(sha, r.value) == hash
    ensures r.None? ==> forall v | v in bodies :: HashOf(sha, v) != hash
  {
    if bodies == [] then None
    else
      var n := |bodies| - 1;
      var before := FirstNamed(sha, bodies[..n], hash);
      if before.Some? then before
      else if HashOf(sha, bodies[n]) == hash then Some(bodies[n])
      else None
  }

  lemma FirstNamedSnoc(sha: Sha, bodies: seq<Value>, v: Value, hash: string)
    ensures var before := FirstNamed(sha, bodies, hash);
      FirstNamed(sha, bodies + [v], hash)
        == if before.Some? then before else if HashOf(sha, v) == hash then Some(v) else None
  {
    assert (bodies + [v])[..|bodies|] == bodies;
  }

  lemma {:induction false} RunBodyAt(obs: seq<Observation>, k: nat)
    requires k < |obs|
    ensures obs[k].inputBody in RunBodies(obs) && obs[k].outputBody in RunBodies(obs)
  {
    if k < |obs| - 1 { RunBodyAt(obs[..|obs| - 1], k); }
  }

  lemma {:induction false} RunBodyOf(obs: seq<Observation>, v: Value) returns (k: nat)
    requires v in RunBodies(obs)
    ensures k < |obs| && (v == obs[k].inputBody || v == obs[k].outputBody)
  {
    var n := |obs| - 1;
    if v == obs[n].inputBody || v == obs[n].outputBody { return n; }
    k := RunBodyOf(obs[..n], v);
  }

  // ---- what is collected ----

  /** The body collected under a hash. */
  function BodyUnder(kept: seq<Body>, hash: string): (r: Option<Value>)
    ensures r.Some? <==> HasBody(kept, hash)
  {
    if kept == [] then None
    else
      var n := |kept| - 1;
      var before := BodyUnder(kept[..n], hash);
      if before.Some? then before else if kept[n].hash == hash then Some(kept[n].value) else None
  }

  lemma UnderAdded(kept: seq<Body>, h: string, v: Value, hash: string)
    requires hash != ""
    ensures var before := BodyUnder(kept, hash);
      BodyUnder(AddBody(kept, h, v), hash) == if before.Some? then before else if h == hash then Some(v) else None
  {
    assert (kept + [Body(h, v)])[..|kept|] == kept;
  }

  /** It is the first of the run. */
  lemma {:induction false} CollectedIsFirst(sha: Sha, obs: seq<Observation>, hash: string)
    requires hash != ""
    ensures BodyUnder(BodiesOf(sha, obs), hash) == FirstNamed(sha, RunBodies(obs), hash)
  {
    if obs != [] {
      var n := |obs| - 1;
      var o, kept, bodies := obs[n], BodiesOf(sha, obs[..n]), RunBodies(obs[..n]);
      var h := HashOf(sha, o.inputBody);
      CollectedIsFirst(sha, obs[..n], hash);
      UnderAdded(kept, h, o.inputBody, hash);
      UnderAdded(AddBody(kept, h, o.inputBody), HashOf(sha, o.outputBody), o.outputBody, hash);
      FirstNamedSnoc(sha, bodies, o.inputBody, hash);
      FirstNamedSnoc(sha, bodies + [o.inputBody], o.outputBody, hash);
    }
  }

  // ---- what is stored ----

  /** Saving writes the first body under a hash, and only where there was no file. */
  lemma {:induction false} SavedUnder(files: Files, dir: Path, slug: string, bodies: seq<Body>, hash: string)
    ensures var path, after := BodyPath(dir, slug, hash), SaveBodies(files, dir, slug, bodies);
      if path in files then path in after && after[path] == files[path]
      else match BodyUnder(bodies, hash)
        case Some(v) => path in after && after[path] == BodyFile(BodyText(v))
        case None => path !in after
  {
    if bodies != [] {
      var n := |bodies| - 1;
      SavedUnder(files, dir, slug, bodies[..n], hash);
      if BodyPath(dir, slug, hash) == BodyPath(dir, slug, bodies[n].hash) {
        BodyPathInjective(dir, slug, hash, slug, bodies[n].hash);
      }
    }
  }

  function FileBody(file: File): Value {
    match LoadFile(file) case Loaded(v) => v case Raised => Null
  }

  /** The body the reference to v loads after the write, from what was there before it. */
  function StoredBody(files: Files, sha: Sha, slug: string, obs: seq<Observation>, dir: Path, v: Value): Value {
    if v.Null? then Null
    else
      var path := BodyPath(dir, slug, HashOf(sha, v));
      if path in files then FileBody(files[path])
      else match FirstNamed(sha, RunBodies(obs), HashOf(sha, v)) case Some(u) => u case None => Null
  }

  /** A body not stored before is that of a new file. */
  lemma NewBody(sha: Sha, obs: seq<Observation>, v: Value) returns (u: Value)
    requires WellFormedRun(obs) && v in RunBodies(obs) && !v.Null?
    ensures FirstNamed(sha, RunBodies(obs), HashOf(sha, v)) == Some(u) && WellFormed(u)
    ensures BodyUnder(BodiesOf(sha, obs), HashOf(sha, v)) == Some(u)
    ensures LoadFile(BodyFile(BodyText(u))) == Loaded(u)
  {
    var hash := HashOf(sha, v);
    assert |hash| == 64;
    CollectedIsFirst(sha, obs, hash);
    u := FirstNamed(sha, RunBodies(obs), hash).value;
    var k := RunBodyOf(obs, u);
    PrintThenParse(u, Indented, 0, "\n");
  }

  lemma StoredFile(files: Files, sha: Sha, slug: string, obs: seq<Observation>, dir: Path, v: Value)
    requires StoreOk(files, dir, sha) && WellFormedRun(obs) && v in RunBodies(obs) && !v.Null?
    ensures var path, saved := BodyPath(dir, slug, HashOf(sha, v)), SaveBodies(files, dir, slug, BodiesOf(sha, obs));
      path in saved && LoadFile(saved[path]) == Loaded(StoredBody(files, sha, slug, obs, dir, v)) &&
      WellFormed(StoredBody(files, sha, slug, obs, dir, v))
  {
    var hash := HashOf(sha, v);
    SavedUnder(files, dir, slug, BodiesOf(sha, obs), hash);
    if BodyPath(dir, slug, hash) in files {
      assert GoodBody(files[BodyPath(dir, slug, hash)], hash, sha);
    } else {
      var u := NewBody(sha, obs, v);
    }
  }

  /** Every reference of the run loads the stored body. */
  lemma LoadsStored(
      files: Files, sha: Sha, slug: string, obs: seq<Observation>, dir: Path, runName: string, v: Value)
    requires StoreOk(files, dir, sha) && WellFormedRun(obs) && v in RunBodies(obs)
    ensures var after := Written(files, sha, slug, obs, dir, runName);
      var stored := StoredBody(files, sha, slug, obs, dir, v);
      LoadBody(after, dir, slug, RefTo(slug, HashOf(sha, v))) == Loaded(stored) && WellFormed(stored)
  {
    if !v.Null? {
      var hash := HashOf(sha, v);
      assert |hash| == 64;
      StoredFile(files, sha, slug, obs, dir, v);
      WrittenBodies(files, sha, slug, obs, dir, runName, slug, hash);
      LoadWrittenRef(Written(files, sha, slug, obs, dir, runName), dir, slug, slug, hash);
    }
  }
}
