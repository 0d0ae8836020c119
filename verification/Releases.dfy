/** The release ledger, what a rollback restores, and where every chain of rollbacks ends. */
module Releases {
  import opened Basics
  import opened StateMachine
  import opened Configuration
  import opened Tables
  import opened Runs
  import opened Invariant
  import opened History

  // ---- The ledger ----------------------------------------------------------------------------

  /**
   * In every reachable state a deployment is healthy exactly when one release names it, and only
   * one; that release carries the row's own digest, which is never empty.
   */
  lemma HealthyIffReleased(db: Tables, acts: seq<Action>, d: Id)
    requires Inv(db) && Legal(db, acts) && d in After(db, acts).deployments
    ensures var now := After(db, acts);
            && (now.deployments[d].state == Healthy <==> HasRelease(now, d))
            && (forall r, s | r in now.releases && s in now.releases
                   && now.releases[r].deployment == d && now.releases[s].deployment == d :: r == s)
            && (forall r | r in now.releases && now.releases[r].deployment == d ::
                  now.releases[r].imageDigest == now.deployments[d].imageDigest != "")
  {
    InvOverRuns(db, acts);
    var now := After(db, acts);
    hide Legal, After, DeploymentsOk, ReleasesOk, AppsOk, OnlyNewestInFlight, RowReplays, DecodeSnapshot, EntriesOk;
    DeploymentStands(now, d);
    forall r | r in now.releases && now.releases[r].deployment == d
      ensures now.releases[r].imageDigest == now.deployments[d].imageDigest != "" && now.deployments[d].state == Healthy
    {
      ReleaseStands(now, r);
    }
  }

  /** How many releases an app has: the number its current pointer carries. */
  function TopNumber(db: Tables, app: Id): nat
    requires app in db.apps && (db.apps[app].current.Some? ==> db.apps[app].current.value in db.releases)
  {
    match db.apps[app].current
    case None => 0
    case Some(c) => db.releases[c].number
  }

  /** An app's release numbers are exactly 1..n, each used once, and the current pointer is number n. */
  lemma NumbersRunFromOne(db: Tables, acts: seq<Action>, app: Id)
    requires Inv(db) && Legal(db, acts) && app in After(db, acts).apps
    ensures var now := After(db, acts);
            && (now.apps[app].current.Some? ==>
                  now.apps[app].current.value in now.releases && now.releases[now.apps[app].current.value].app == app)
            && (forall n: nat :: HasNumber(now, app, n) <==> 1 <= n <= TopNumber(now, app))
            && (forall r, s | r in now.releases && s in now.releases
               && now.releases[r].app == now.releases[s].app == app
                   && now.releases[r].number == now.releases[s].number :: r == s)
  {
    InvOverRuns(db, acts);
    var now := After(db, acts);
    hide Legal, After, DeploymentsOk, ReleasesOk, AppsOk, OnlyNewestInFlight, ReleaseOk, EntriesOk;
    AppStands(now, app);
    forall r | r in now.releases ensures now.releases[r].number >= 1 {
      NumberPositive(now, r);
    }
    forall n: nat ensures HasNumber(now, app, n) <==> 1 <= n <= TopNumber(now, app) {
      if HasNumber(now, app, n) {
        var r :| r in now.releases && now.releases[r].app == app && now.releases[r].number == n;
      }
    }
  }

  lemma NumberPositive(db: Tables, r: Id)
    requires Inv(db) && r in db.releases
    ensures db.releases[r].number >= 1
  {
    hide Inv;
    ReleaseStands(db, r);
  }

  /**
   * The loop's own MarkHealthy never meets a missing digest or an existing release: once the row is
   * deploying it succeeds, and the release takes the next number.
   */
  lemma LoopMintsOrWasOvertaken(db: Tables, id: Id, config: Config, at: int)
    requires Inv(db) && id in db.deployments && db.deployments[id].state == Deploying
    ensures MarkHealthyTx(db, id, config, at).1 == Ok(db.nextId)
    ensures var d, after := db.deployments[id], MarkHealthyTx(db, id, config, at).0;
            && d.app in db.apps && db.nextId in after.releases && d.app in after.apps
            && (db.apps[d.app].current.Some? ==> db.apps[d.app].current.value in db.releases)
            && after.releases[db.nextId].number == TopNumber(db, d.app) + 1
            && after.releases[db.nextId].imageDigest == d.imageDigest
            && DecodeSnapshot(after.releases[db.nextId].snapshot) == Ok(config)
            && after.apps[d.app].current == Some(db.nextId)
            && after.apps[d.app].config == if d.source.Rollback? then config else db.apps[d.app].config
  {
    hide Inv, RowReplays, Moved, ConfigSnapshot, DecodeSnapshot;
    var d := db.deployments[id];
    DeploymentStands(db, id);
    AppStands(db, d.app);
    SnapshotRoundTrip(config);
    IdsBelow(db);
    if HasRelease(db, id) {
      var r :| r in db.releases && db.releases[r].deployment == id;
      ReleaseStands(db, r);
    }
  }

  // ---- Rollback fidelity ---------------------------------------------------------------------

  /** What a release holds, read back. */
  function Restores(db: Tables, r: Id): (string, Result<Config, ()>)
    requires r in db.releases
  {
    (db.releases[r].imageDigest, DecodeSnapshot(db.releases[r].snapshot))
  }

  /**
   * A rollback that becomes healthy re-promotes its source: its release restores the source's
   * digest and decoded snapshot, app_config is exactly that map, whatever was set meanwhile, and
   * nothing else of any app moves but the pointer.
   */
  lemma RollbackRestores(db: Tables, id: Id, config: Config, at: int)
    requires Inv(db) && Guard(db, MarkHealthy(id, config, at)) && MarkHealthyTx(db, id, config, at).1.Ok?
    requires id in db.deployments && db.deployments[id].source.Rollback?
    ensures var d, after := db.deployments[id], MarkHealthyTx(db, id, config, at).0;
            && d.source.release in db.releases && db.nextId in after.releases
            && Restores(after, db.nextId) == Restores(db, d.source.release)
            && d.app in after.apps && d.app in db.apps
            && Ok(after.apps[d.app].config) == Restores(db, d.source.release).1
            && after.apps == db.apps[d.app := db.apps[d.app].(current := Some(db.nextId), config := config)]
  {
    hide Inv, MarkHealthyTx, DecodeSnapshot, ConfigSnapshot, RowReplays, EntriesOk, Moved, HasRelease;
    var after, d := MarkHealthyEffect(db, id, config, at);
    DeploymentStands(db, id);
    SnapshotRoundTrip(config);
  }

  /** The deployment a loop write is about. */
  function Subject(a: Action): Option<Id> {
    match a
    case ReleaseClaim(id) => Some(id)
    case Transition(id, _, _, _, _) => Some(id)
    case RecordBuild(id, _, _, _, _) => Some(id)
    case MarkHealthy(id, _, _) => Some(id)
    case _ => None
  }

  /** A loop write that does not end in healthy touches no app: not its configuration, not its pointer. */
  lemma LoopWriteLeavesApps(db: Tables, a: Action, d: Id)
    requires Subject(a) == Some(d)
    requires d in Apply(db, a).deployments ==> Apply(db, a).deployments[d].state != Healthy
    ensures Apply(db, a).apps == db.apps && Apply(db, a).releases == db.releases
  {
  }

  /**
   * Over a whole run: as long as a deployment has not become healthy, nothing written on its behalf
   * has changed any app's configuration or current release.
   */
  lemma UnhealthyDeploymentLeavesApps(db: Tables, acts: seq<Action>, d: Id, k: nat)
    requires Inv(db) && Legal(db, acts) && k < |acts| && Subject(acts[k]) == Some(d)
    requires d in After(db, acts).deployments ==> After(db, acts).deployments[d].state != Healthy
    ensures After(db, acts[..k + 1]).apps == After(db, acts[..k]).apps
    ensures After(db, acts[..k + 1]).releases == After(db, acts[..k]).releases
  {
    hide Inv, Apply, Guard;
    StepAt(db, acts, k);
    RunEvolves(db, acts, k + 1);
    LoopWriteLeavesApps(After(db, acts[..k]), acts[k], d);
  }

  /**
   * Over a whole run: a healthy rollback's release still restores exactly what its source release
   * restores, and the write that made it healthy left app_config exactly that map.
   */
  lemma {:induction false} RollbackFidelity(acts: seq<Action>, d: Id) returns (k: nat, minted: Id)
    requires Legal(EMPTY, acts) && d in After(EMPTY, acts).deployments
    requires After(EMPTY, acts).deployments[d].state == Healthy && After(EMPTY, acts).deployments[d].source.Rollback?
    ensures k < |acts| && acts[k].MarkHealthy? && acts[k].id == d
    ensures var last, after := After(EMPTY, acts), After(EMPTY, acts[..k + 1]);
            var row := last.deployments[d];
            && minted in last.releases && last.releases[minted].deployment == d
            && row.source.release in last.releases
            && Restores(last, minted) == Restores(last, row.source.release)
            && row.app in after.apps && after.apps[row.app].current == Some(minted)
            && Ok(after.apps[row.app].config) == Restores(last, row.source.release).1
    decreases |acts|
  {
    hide Inv, Apply, Guard, Restores, Evolves;
    EmptyInv();
    var init := acts[..|acts| - 1];
    var before, last := After(EMPTY, init), acts[|acts| - 1];
    InvOverRuns(EMPTY, init);
    BornInFlight(before, last, d);
    StepEvolves(before, last);
    assert acts[..|init| + 1] == acts;
    if before.deployments[d].state == Healthy {
      RollbackRowKept(before, After(EMPTY, acts), d);
      k, minted := RollbackFidelity(init, d);
      assert init[..k + 1] == acts[..k + 1];
      ReleasesSame(before, After(EMPTY, acts), minted);
      ReleasesSame(before, After(EMPTY, acts), before.deployments[d].source.release);
    } else {
      RollbackCompletes(before, last, d);
      k, minted := |init|, before.nextId;
    }
  }

  /** A release minted for this rollback restores exactly what its source release restores. */
  predicate Faithful(db: Tables, d: Id)
    requires d in db.deployments && db.deployments[d].source.Rollback?
  {
    var source := db.deployments[d].source.release;
    source in db.releases
    && exists r :: r in db.releases && db.releases[r].deployment == d && Restores(db, r) == Restores(db, source)
  }

  lemma RollbacksFaithful(acts: seq<Action>)
    requires Legal(EMPTY, acts)
    ensures var now := After(EMPTY, acts);
            forall d | d in now.deployments && now.deployments[d].state == Healthy
                && now.deployments[d].source.Rollback? ::
              Faithful(now, d)
  {
    hide Legal, After, Restores;
    var now := After(EMPTY, acts);
    forall d | d in now.deployments && now.deployments[d].state == Healthy && now.deployments[d].source.Rollback?
      ensures Faithful(now, d)
    {
      var k, minted := RollbackFidelity(acts, d);
    }
  }

  lemma ReleasesSame(a: Tables, b: Tables, r: Id)
    requires Evolves(a, b) && r in a.releases
    ensures r in b.releases && b.releases[r] == a.releases[r] && Restores(b, r) == Restores(a, r)
  {
  }

  lemma RollbackRowKept(a: Tables, b: Tables, d: Id)
    requires Evolves(a, b) && d in a.deployments
    ensures d in b.deployments && b.deployments[d].source == a.deployments[d].source
    ensures b.deployments[d].app == a.deployments[d].app
  {
  }

  lemma SourceExists(db: Tables, d: Id)
    requires Inv(db) && d in db.deployments && db.deployments[d].source.Rollback?
    ensures db.deployments[d].source.release in db.releases && db.deployments[d].source.release < d
  {
    hide Inv, RowReplays;
    DeploymentStands(db, d);
  }

  lemma MintedFor(db: Tables, id: Id, config: Config, at: int)
    requires Inv(db) && MarkHealthyTx(db, id, config, at).1.Ok?
    ensures var after := MarkHealthyTx(db, id, config, at).0;
            && id in after.deployments && id in db.deployments && db.nextId in after.releases
            && after.releases[db.nextId].deployment == id
            && after.deployments[id].app == db.deployments[id].app && db.deployments[id].app in after.apps
            && after.deployments[id].source == db.deployments[id].source
            && after.apps[after.deployments[id].app].current == Some(db.nextId)
  {
    hide Inv, MarkHealthyTx, ConfigSnapshot;
    var after, d := MarkHealthyEffect(db, id, config, at);
  }

  lemma CreateNeverHealthy(db: Tables, app: Id, source: Source, at: int, d: Id)
    requires Inv(db) && d in db.deployments && db.deployments[d].state != Healthy
    ensures var after := CreateDeploymentTx(db, app, source, at).0;
            d in after.deployments && after.deployments[d].state != Healthy
  {
    hide Inv, StartingDigest;
    IdsBelow(db);
  }

  /** Only MarkHealthy makes a deployment healthy. */
  lemma BecameHealthy(db: Tables, a: Action, d: Id)
    requires Inv(db) && Guard(db, a) && d in db.deployments && db.deployments[d].state != Healthy
    requires d in Apply(db, a).deployments && Apply(db, a).deployments[d].state == Healthy
    ensures a.MarkHealthy? && a.id == d && MarkHealthyTx(db, d, a.config, a.at).1.Ok?
  {
    hide Inv, CreateDeploymentTx, InsertApp, ConfigSnapshot;
    match a
    case CreateApp(account, name, slugs, _) => InsertAppEvolves(db, account, name, slugs);
    case CreateDeployment(app, source, at) => CreateNeverHealthy(db, app, source, at, d);
    case _ =>
  }

  /** The step in which a rollback becomes healthy. */
  lemma RollbackCompletes(db: Tables, a: Action, d: Id)
    requires Inv(db) && Guard(db, a) && d in db.deployments && db.deployments[d].state != Healthy
    requires d in Apply(db, a).deployments && Apply(db, a).deployments[d].state == Healthy
    requires Apply(db, a).deployments[d].source.Rollback?
    ensures a.MarkHealthy? && a.id == d
    ensures var after := Apply(db, a);
            var row := after.deployments[d];
            && db.nextId in after.releases && after.releases[db.nextId].deployment == d
            && row.source.Rollback? && row.source.release in after.releases
            && Restores(after, db.nextId) == Restores(after, row.source.release)
            && row.app in after.apps && after.apps[row.app].current == Some(db.nextId)
            && Ok(after.apps[row.app].config) == Restores(after, row.source.release).1
  {
    hide Inv, MarkHealthyTx, Restores, Guard, Evolves, CreateAppTx, SoftDeleteTx, CreateDeploymentTx, SetConfigTx,
         UnsetConfigTx, ClaimNextTx, ReleaseClaimTx, TransitionTx, RecordBuildTx;
    BecameHealthy(db, a, d);
    MintedFor(db, d, a.config, a.at);
    RollbackRestores(db, d, a.config, a.at);
    StepEvolves(db, a);
    ReleasesSame(db, Apply(db, a), db.deployments[d].source.release);
  }

  // ---- Chains of rollbacks -------------------------------------------------------------------

  /** Follows a release back through the rollbacks it came from to the build that made it. */
  ghost function Origin(db: Tables, r: Id): Id
    requires Inv(db) && r in db.releases
    decreases r
  {
    ReleaseStands(db, r);
    var d := db.releases[r].deployment;
    match db.deployments[d].source
    case Upload(_) => r
    case Rollback(s) => SourceExists(db, d); ChainDescends(db, r); Origin(db, s)
  }

  lemma ChainDescends(db: Tables, r: Id)
    requires Inv(db) && r in db.releases
    ensures db.releases[r].deployment in db.deployments && db.releases[r].deployment < r
  {
    hide Inv;
    ReleaseStands(db, r);
  }

  /** Every chain of rollbacks resolves to one build's release, and restores exactly what that build shipped. */
  lemma {:induction false} ChainResolvesToBuild(db: Tables, r: Id)
    requires Inv(db) && r in db.releases
    ensures var o := Origin(db, r);
            && o in db.releases && o <= r && db.releases[o].app == db.releases[r].app
            && db.releases[o].deployment in db.deployments
            && db.deployments[db.releases[o].deployment].source.Upload?
            && Restores(db, o) == Restores(db, r)
    decreases r
  {
    hide Inv, DecodeSnapshot, RowReplays, EntriesOk;
    ReleaseStands(db, r);
    var d := db.releases[r].deployment;
    DeploymentStands(db, d);
    if db.deployments[d].source.Rollback? {
      ChainResolvesToBuild(db, db.deployments[d].source.release);
    }
  }

  // ---- Configuration bounds ------------------------------------------------------------------

  /** What the write path adds when each set_config call is one step: it judged the map it changes. */
  ghost predicate Serial(db: Tables, a: Action) {
    match a
    case SetConfig(app, writes) => app in db.apps ==> Acceptable(writes, Values(db.apps[app].config))
    case _ => true
  }

  /** Every stored configuration and every configuration a release restores is inside every bound. */
  ghost predicate AllBounded(db: Tables) {
    && (forall a | a in db.apps :: Bounded(db.apps[a].config))
    && (forall r | r in db.releases ::
          DecodeSnapshot(db.releases[r].snapshot).Ok? && Bounded(DecodeSnapshot(db.releases[r].snapshot).value))
  }

  ghost predicate SizesOk(db: Tables) {
    && (forall a | a in db.apps :: SizeOk(Values(db.apps[a].config)))
    && (forall r | r in db.releases ::
          DecodeSnapshot(db.releases[r].snapshot).Ok? ==> SizeOk(Values(DecodeSnapshot(db.releases[r].snapshot).value)))
  }

  ghost predicate SerialRun(db: Tables, acts: seq<Action>) {
    acts == [] || (SerialRun(db, acts[..|acts| - 1]) && Serial(After(db, acts[..|acts| - 1]), acts[|acts| - 1]))
  }

  lemma {:induction false} RemovedSizeOk(c: Config, keys: seq<string>)
    requires Bounded(c) && Removed(c, keys).Some?
    ensures Bounded(Removed(c, keys).value)
  {
    if keys != [] {
      RemovedSizeOk(c, keys[..|keys| - 1]);
      RemovalStaysBounded(Removed(c, keys[..|keys| - 1]).value, keys[|keys| - 1]);
    }
  }

  lemma EmptySizeOk()
    ensures SizeOk(Values(map[]))
  {
  }

  lemma ConfigSizes(db: Tables, after: Tables, app: Id)
    requires SizesOk(db) && app in db.apps && after.releases == db.releases
    requires after.apps.Keys == db.apps.Keys && forall a | a in db.apps && a != app :: after.apps[a] == db.apps[a]
    requires SizeOk(Values(after.apps[app].config))
    ensures SizesOk(after)
  {
  }

  lemma MintedSizes(db: Tables, id: Id, config: Config, at: int)
    requires Inv(db) && SizesOk(db) && SizeOk(Values(config)) && MarkHealthyTx(db, id, config, at).1.Ok?
    ensures SizesOk(MarkHealthyTx(db, id, config, at).0)
  {
    hide Inv, SizeOk, DecodeSnapshot, MarkHealthyTx, ConfigSnapshot;
    SnapshotRoundTrip(config);
    var after, d := MarkHealthyEffect(db, id, config, at);
  }

  lemma SetConfigSizes(db: Tables, app: Id, writes: seq<Write>)
    requires Inv(db) && SizesOk(db) && Serial(db, SetConfig(app, writes))
    ensures SizesOk(SetConfigTx(db, app, writes).0)
  {
    hide Inv, SizesOk, SizeOk, EntriesOk, Bounded;
    if app in db.apps {
      AppStands(db, app);
      AcceptedStaysBounded(db.apps[app].config, writes);
      BoundedParts(Written(db.apps[app].config, writes));
      ConfigSizes(db, db.(apps := db.apps[app := db.apps[app].(config := Written(db.apps[app].config, writes))]), app);
    }
  }

  lemma UnsetConfigSizes(db: Tables, app: Id, keys: seq<string>)
    requires Inv(db) && SizesOk(db)
    ensures SizesOk(UnsetConfigTx(db, app, keys).0)
  {
    hide Inv, SizesOk, SizeOk, EntriesOk;
    if app in db.apps && Removed(db.apps[app].config, keys).Some? {
      AppStands(db, app);
      SizesAt(db, app);
      RemovedSizeOk(db.apps[app].config, keys);
      BoundedParts(Removed(db.apps[app].config, keys).value);
      ConfigSizes(db, db.(apps := db.apps[app := db.apps[app].(config := Removed(db.apps[app].config, keys).value)]),
          app);
    }
  }

  lemma StepKeepsSizes(db: Tables, a: Action)
    requires Inv(db) && SizesOk(db) && Serial(db, a)
    requires a.MarkHealthy? && a.id in db.deployments && InFlight(db.deployments[a.id]) ==> SizeOk(Values(a.config))
    ensures SizesOk(Apply(db, a))
  {
    hide Inv, SizesOk, SizeOk, MarkHealthyTx, CreateDeploymentTx, CreateAppTx, TransitionTx, RecordBuildTx,
         SetConfigTx, UnsetConfigTx, ClaimNextTx, ReleaseClaimTx, SoftDeleteTx;
    match a
    case SetConfig(app, writes) => SetConfigSizes(db, app, writes);
    case UnsetConfig(app, keys) => UnsetConfigSizes(db, app, keys);
    case MarkHealthy(id, config, at) =>
      if MarkHealthyTx(db, id, config, at).1.Ok? {
        MintsInFlight(db, id, config, at);
        MintedSizes(db, id, config, at);
      } else {
        MarkHealthyRefused(db, id, config, at);
      }
    case _ => OthersKeepSizes(db, a);
  }

  lemma MintsInFlight(db: Tables, id: Id, config: Config, at: int)
    requires MarkHealthyTx(db, id, config, at).1.Ok?
    ensures id in db.deployments && InFlight(db.deployments[id])
  {
  }

  /**
   * What a release is about to record is inside the size bounds: a rollback's map came out of a release
   * that is, and a build's was the app's table at a point of the run when the table was.
   */
  lemma RecordedSizeOk(acts: seq<Action>, id: Id, config: Config, at: int)
    requires Legal(EMPTY, acts) && Established(EMPTY, acts, MarkHealthy(id, config, at))
    requires forall j | 0 <= j <= |acts| :: SizesOk(After(EMPTY, acts[..j]))
    requires id in After(EMPTY, acts).deployments && InFlight(After(EMPTY, acts).deployments[id])
    ensures SizeOk(Values(config))
  {
    hide Inv, Legal, After, SizeOk, DecodeSnapshot, EntriesOk;
    var db := After(EMPTY, acts);
    EmptyInv();
    InvOverRuns(EMPTY, acts);
    assert acts[..|acts|] == acts;
    if db.deployments[id].source.Rollback? {
      SourceExists(db, id);
    } else {
      var j :| 0 <= j <= |acts| && HeldAt(EMPTY, acts, j, id, config);
      SizesAt(After(EMPTY, acts[..j]), After(EMPTY, acts[..j]).deployments[id].app);
    }
  }

  lemma BoundedParts(c: Config)
    requires Bounded(c)
    ensures SizeOk(Values(c)) && EntriesOk(c)
  {
  }

  lemma SizesAt(db: Tables, app: Id)
    requires SizesOk(db) && app in db.apps
    ensures SizeOk(Values(db.apps[app].config))
  {
  }

  lemma OthersKeepSizes(db: Tables, a: Action)
    requires Inv(db) && SizesOk(db) && !a.SetConfig? && !a.UnsetConfig? && !a.MarkHealthy?
    ensures SizesOk(Apply(db, a))
  {
    hide Inv, SizeOk, DecodeSnapshot, StartingDigest, Born, InsertApp;
    EmptySizeOk();
    IdsBelow(db);
    match a
    case CreateApp(account, name, slugs, limit) => InsertedSizes(db, account, name, slugs);
    case _ =>
  }

  lemma {:induction false} InsertedSizes(db: Tables, account: Id, name: string, slugs: seq<string>)
    requires SizesOk(db)
    ensures SizesOk(InsertApp(db, account, name, slugs).0)
  {
    hide SizeOk, DecodeSnapshot;
    EmptySizeOk();
    if slugs != [] && !NameTaken(db, account, name) && SlugUsed(db, slugs[0]) {
      InsertedSizes(db, account, name, slugs[1..]);
    }
  }

  /**
   * When each set_config call is one step, every reachable app_config and every release snapshot is
   * inside every bound: valid unreserved keys, at most 64 of them, values of at most 4 KiB and at
   * most 32 KiB in all. A rollback reinstalling an old snapshot included: nothing is asked of what
   * the loop records but what every legal run establishes.
   */
  lemma BoundsOverRuns(acts: seq<Action>)
    requires Legal(EMPTY, acts) && SerialRun(EMPTY, acts)
    ensures AllBounded(After(EMPTY, acts))
  {
    EmptyInv();
    InvOverRuns(EMPTY, acts);
    SizesOverRuns(acts);
    assert acts[..|acts|] == acts;
    var now := After(EMPTY, acts);
    hide Inv, SizeOk, EntriesOk, DecodeSnapshot, Legal, After;
    forall a | a in now.apps ensures Bounded(now.apps[a].config) {
      AppStands(now, a);
    }
    forall r | r in now.releases
      ensures DecodeSnapshot(now.releases[r].snapshot).Ok? && Bounded(DecodeSnapshot(now.releases[r].snapshot).value)
    {
      ReleaseStands(now, r);
    }
  }

  lemma {:induction false} SizesOverRuns(acts: seq<Action>)
    requires Legal(EMPTY, acts) && SerialRun(EMPTY, acts)
    ensures forall j | 0 <= j <= |acts| :: SizesOk(After(EMPTY, acts[..j]))
  {
    hide Inv, Apply, Guard, Composed, SizesOk, Serial;
    assert acts[..|acts|] == acts;
    if acts != [] {
      var init, a := acts[..|acts| - 1], acts[|acts| - 1];
      SizesOverRuns(init);
      assert init[..|init|] == init;
      forall j | 0 <= j <= |init| ensures SizesOk(After(EMPTY, acts[..j])) {
        assert acts[..j] == init[..j];
      }
      EmptyInv();
      InvOverRuns(EMPTY, init);
      var db := After(EMPTY, init);
      if a.MarkHealthy? && a.id in db.deployments && InFlight(db.deployments[a.id]) {
        RecordedSizeOk(init, a.id, a.config, a.at);
      }
      StepKeepsSizes(db, a);
    } else {
      EmptySizes();
    }
  }

  lemma EmptySizes()
    ensures SizesOk(EMPTY)
  {
  }
}
