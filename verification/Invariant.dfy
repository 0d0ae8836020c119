/**
 * Every action that keeps its guard keeps the invariant. Each shape of update (one row rewritten,
 * one inserted, one app rewritten) is proved once, and what it leaves alone by the frame lemmas.
 */
module Invariant {
  import opened Basics
  import opened StateMachine
  import opened Configuration
  import opened Tables
  import opened Runs

  // ---- What an update elsewhere leaves alone -------------------------------------------------

  predicate ReleasesKept(db: Tables, after: Tables) {
    db.nextId <= after.nextId && forall r | r in db.releases ::
        r in after.releases && after.releases[r] == db.releases[r]
  }

  predicate AppStanding(db: Tables, after: Tables, app: Id) {
    app in db.apps ==> app in after.apps && (after.apps[app].deleted ==> db.apps[app].deleted)
  }

  lemma DeploymentFrame(db: Tables, after: Tables, d: Id)
    requires d in db.deployments && d in after.deployments && after.deployments[d] == db.deployments[d]
    requires DeploymentOk(db, d) && ReleasesKept(db, after)
    requires InFlight(db.deployments[d]) ==> AppStanding(db, after, db.deployments[d].app)
    requires db.deployments[d].app in after.apps
    ensures DeploymentOk(after, d)
  {
  }

  lemma ReleaseFrame(db: Tables, after: Tables, r: Id)
    requires r in db.releases && ReleaseOk(db, r) && ReleasesKept(db, after)
    requires db.releases[r].deployment in after.deployments
    requires var d, e := db.deployments[db.releases[r].deployment], after.deployments[db.releases[r].deployment];
             d.state == e.state && d.app == e.app && d.source == e.source && d.imageDigest == e.imageDigest
    ensures ReleaseOk(after, r)
  {
  }

  lemma PointerFrame(db: Tables, after: Tables, app: Id)
    requires app in db.apps && app in after.apps && PointerOk(db, app)
    requires after.releases == db.releases && after.apps[app].current == db.apps[app].current
    ensures PointerOk(after, app)
  {
    assert forall n: nat :: HasNumber(db, app, n) ==> HasNumber(after, app, n);
  }

  lemma AppsFrame(db: Tables, after: Tables)
    requires AppsOk(db) && after.apps == db.apps && after.releases == db.releases && db.nextId <= after.nextId
    ensures AppsOk(after)
  {
    hide PointerOk, EntriesOk;
    forall a | a in after.apps ensures AppOk(after, a) {
      assert AppOk(db, a);
      PointerFrame(db, after, a);
    }
  }

  /** Nothing a release rests on changed, so every release still stands. */
  lemma ReleasesFrame(db: Tables, after: Tables)
    requires ReleasesOk(db) && after.releases == db.releases && db.nextId <= after.nextId
    requires forall d | d in db.deployments && db.deployments[d].state == Healthy ::
               && d in after.deployments && after.deployments[d].state == Healthy
               && after.deployments[d].app == db.deployments[d].app
               && after.deployments[d].source == db.deployments[d].source
               && after.deployments[d].imageDigest == db.deployments[d].imageDigest
    ensures ReleasesOk(after)
  {
  }

  // ---- One row rewritten ---------------------------------------------------------------------

  /** A rewritten row that is still a legal account of the same deployment. */
  predicate RowFits(held: Deployment, d: Deployment) {
    && d.app == held.app && d.source == held.source
    && RowReplays(d)
    && (InFlight(d) ==> InFlight(held))
    && (d.state == Healthy <==> held.state == Healthy)
    && (held.state == Healthy || d.source.Rollback? ==> d.imageDigest == held.imageDigest)
    && (d.state == Deploying ==> d.imageDigest != "")
    && (d.source.Rollback? ==> d.state != Building && d.state != Pushing)
    && (d.state == Cancelled ==> d.failureReason == SUPERSEDED)
  }

  lemma RowUpdateRows(db: Tables, id: Id, d: Deployment)
    requires DeploymentsOk(db) && id in db.deployments && RowFits(db.deployments[id], d)
    ensures DeploymentsOk(db.(deployments := db.deployments[id := d]))
  {
  }

  lemma RowUpdateKeeps(db: Tables, id: Id, d: Deployment)
    requires Inv(db) && id in db.deployments && RowFits(db.deployments[id], d)
    ensures Inv(db.(deployments := db.deployments[id := d]))
  {
    hide DeploymentsOk, ReleasesOk, AppsOk, RowReplays;
    var after := db.(deployments := db.deployments[id := d]);
    RowUpdateRows(db, id, d);
    ReleasesFrame(db, after);
    AppsFrame(db, after);
  }

  /** What the invariant says of one row, without the rest of the tables. */
  lemma RowStands(db: Tables, id: Id)
    requires Inv(db) && id in db.deployments
    ensures var d := db.deployments[id];
            && RowReplays(d) && id < db.nextId && d.app in db.apps
            && (d.state == Deploying || d.state == Healthy ==> d.imageDigest != "")
            && (d.source.Rollback? ==> d.state != Building && d.state != Pushing)
            && (d.state == Cancelled ==> d.failureReason == SUPERSEDED)
  {
  }

  /** Every id ever drawn is below the next one. */
  lemma IdsBelow(db: Tables)
    requires Inv(db)
    ensures forall d | d in db.deployments :: d < db.nextId
    ensures forall r | r in db.releases :: r < db.nextId
    ensures forall a | a in db.apps :: a < db.nextId
  {
    forall d | d in db.deployments ensures d < db.nextId { assert DeploymentOk(db, d); }
    forall r | r in db.releases ensures r < db.nextId { assert ReleaseOk(db, r); }
    forall a | a in db.apps ensures a < db.nextId { assert AppOk(db, a); }
  }

  lemma DeploymentStands(db: Tables, d: Id)
    requires Inv(db) && d in db.deployments
    ensures DeploymentOk(db, d) && db.deployments[d].app in db.apps
  {
  }

  lemma ReleaseStands(db: Tables, r: Id)
    requires Inv(db) && r in db.releases
    ensures ReleaseOk(db, r)
    ensures r < db.nextId && db.releases[r].deployment in db.deployments && db.releases[r].app in db.apps
    ensures db.deployments[db.releases[r].deployment].state == Healthy
  {
    assert ReleaseOk(db, r);
    assert DeploymentOk(db, db.releases[r].deployment);
  }

  lemma AppStands(db: Tables, a: Id)
    requires Inv(db) && a in db.apps
    ensures AppOk(db, a) && PointerOk(db, a) && EntriesOk(db.apps[a].config) && a < db.nextId
  {
  }

  lemma MovedFits(d: Deployment, to: State, reason: string, detail: string, at: int)
    requires RowReplays(d) && CanTransition(d.state, to) && to != Cancelled && to != Healthy
    requires to == Failed ==> reason != ""
    requires to == Deploying ==> d.imageDigest != ""
    requires d.source.Rollback? ==> to != Building && to != Pushing
    ensures RowFits(d, Moved(d, to, reason, detail, at))
  {
    MovedReplays(d, to, reason, detail, at);
    MovesClimb(d.state, to);
    hide RowReplays;
  }

  lemma SupersededFits(d: Deployment, at: int)
    requires RowReplays(d) && InFlight(d)
    ensures RowFits(d, Superseded(d, at))
  {
    SupersededReplays(d, at);
    hide RowReplays;
  }

  lemma TransitionKeeps(db: Tables, id: Id, to: State, reason: string, detail: string, at: int)
    requires Inv(db) && Guard(db, Transition(id, to, reason, detail, at))
    ensures Inv(TransitionTx(db, id, to, reason, detail, at).0)
  {
    hide RowReplays, Inv, RowFits, Moved;
    if TransitionTx(db, id, to, reason, detail, at).1.Ok? {
      RowStands(db, id);
      MovedFits(db.deployments[id], to, reason, detail, at);
      RowUpdateKeeps(db, id, Moved(db.deployments[id], to, reason, detail, at));
    }
  }

  /** Columns beside the state machine may be rewritten on a row that is not healthy or deploying yet. */
  lemma ColumnsKeep(db: Tables, id: Id, d: Deployment)
    requires Inv(db) && id in db.deployments
    requires var held := db.deployments[id];
             && d == held.(claimedBy := d.claimedBy, buildPath := d.buildPath, jobName := d.jobName,
                           imageRepo := d.imageRepo, imageDigest := d.imageDigest)
             && (d.imageDigest != held.imageDigest ==>
                   d.source.Upload? && held.state != Deploying && held.state != Healthy)
    ensures Inv(db.(deployments := db.deployments[id := d]))
  {
    RowStands(db, id);
    hide Inv;
    RowUpdateKeeps(db, id, d);
  }

  lemma SupersedeKeeps(db: Tables, app: Id, at: int)
    requires Inv(db)
    ensures Inv(Supersede(db, app, at))
    ensures FindInFlight(Supersede(db, app, at).deployments, app, db.nextId).None?
  {
    hide Inv;
    var found := FindInFlight(db.deployments, app, db.nextId);
    if found.Some? {
      SupersedeRow(db, found.value, at);
    }
    OneInFlight(db, app);
  }

  lemma SupersedeRow(db: Tables, id: Id, at: int)
    requires Inv(db) && id in db.deployments && InFlight(db.deployments[id])
    ensures Inv(db.(deployments := db.deployments[id := Superseded(db.deployments[id], at)]))
  {
    hide RowReplays, Inv, RowFits, Superseded;
    RowStands(db, id);
    SupersededFits(db.deployments[id], at);
    RowUpdateKeeps(db, id, Superseded(db.deployments[id], at));
  }

  /** The row FindInFlight names is the only one the app has in flight. */
  lemma OneInFlight(db: Tables, app: Id)
    requires Inv(db)
    ensures forall d | d in db.deployments && db.deployments[d].app == app && InFlight(db.deployments[d]) ::
              FindInFlight(db.deployments, app, db.nextId) == Some(d)
  {
    hide DeploymentsOk, ReleasesOk, AppsOk, UniqueKeys;
    IdsBelow(db);
  }

  // ---- Rows inserted -------------------------------------------------------------------------

  lemma BornOk(db: Tables, app: Id, source: Source, digest: string, at: int)
    requires Inv(db) && LiveApp(db, app) && StartingDigest(db, app, source) == Ok(digest)
    ensures DeploymentOk(db.(deployments := db.deployments[db.nextId := Born(app, source, digest, at)],
                             nextId := db.nextId + 1), db.nextId)
  {
    hide Inv, ReleaseOk;
    if source.Rollback? {
      ReleaseStands(db, source.release);
    }
  }

  lemma InsertDeploymentKeeps(db: Tables, app: Id, source: Source, digest: string, at: int)
    requires Inv(db) && LiveApp(db, app)
    requires FindInFlight(db.deployments, app, db.nextId).None?
    requires StartingDigest(db, app, source) == Ok(digest)
    ensures Inv(db.(deployments := db.deployments[db.nextId := Born(app, source, digest, at)], nextId := db.nextId + 1))
  {
    hide DeploymentsOk, ReleasesOk, AppsOk, UniqueKeys, DeploymentOk;
    var after := db.(deployments := db.deployments[db.nextId := Born(app, source, digest, at)],
        nextId := db.nextId + 1);
    IdsBelow(db);
    InsertedRows(db, app, source, digest, at);
    KeysFrame(db, after);
    ReleasesFrame(db, after);
    AppsFrame(db, after);
  }

  lemma InsertedRows(db: Tables, app: Id, source: Source, digest: string, at: int)
    requires Inv(db) && LiveApp(db, app) && StartingDigest(db, app, source) == Ok(digest)
    ensures DeploymentsOk(db.(deployments := db.deployments[db.nextId := Born(app, source, digest, at)],
            nextId := db.nextId + 1))
  {
    hide Inv, DeploymentOk, Born, StartingDigest;
    var after := db.(deployments := db.deployments[db.nextId := Born(app, source, digest, at)],
        nextId := db.nextId + 1);
    IdsBelow(db);
    BornOk(db, app, source, digest, at);
    forall d | d in db.deployments ensures DeploymentOk(after, d) {
      DeploymentStands(db, d);
      DeploymentFrame(db, after, d);
    }
  }

  lemma KeysFrame(db: Tables, after: Tables)
    requires UniqueKeys(db) && after.releases == db.releases && after.apps == db.apps
    ensures UniqueKeys(after)
  {
  }

  lemma CreateDeploymentKeeps(db: Tables, app: Id, source: Source, at: int)
    requires Inv(db)
    ensures Inv(CreateDeploymentTx(db, app, source, at).0)
    ensures CreateDeploymentTx(db, app, source, at).1 != Err(UniqueViolation)
  {
    hide Inv;
    if LiveApp(db, app) && StartingDigest(db, app, source).Ok? {
      SupersedeKeeps(db, app, at);
      InsertDeploymentKeeps(Supersede(db, app, at), app, source, StartingDigest(db, app, source).value, at);
    }
  }

  // ---- A release minted ----------------------------------------------------------------------

  /** MarkHealthy's effect on a row it accepts, in one place. */
  lemma MarkHealthyEffect(db: Tables, id: Id, config: Config, at: int) returns (after: Tables, d: Deployment)
    requires MarkHealthyTx(db, id, config, at).1.Ok? && Inv(db)
    ensures after == MarkHealthyTx(db, id, config, at).0
    ensures d == db.deployments[id] && id in db.deployments && d.app in db.apps
    ensures d.state == Deploying && d.imageDigest != "" && !HasRelease(db, id)
    ensures db.nextId !in db.releases && id < db.nextId && after.nextId == db.nextId + 1
    ensures after.deployments == db.deployments[id := Moved(d, Healthy, "", "", at)]
    ensures after.releases == db.releases[db.nextId :=
              Release(d.app, id, MaxReleaseNumber(db.releases, d.app, db.nextId) + 1, d.imageDigest,
                  ConfigSnapshot(config))]
    ensures after.apps == db.apps[d.app := db.apps[d.app].(
                            current := Some(db.nextId),
                            config := if d.source.Rollback? then config else db.apps[d.app].config)]
    ensures ReleasesKept(db, after)
  {
    hide Inv, RowReplays, Moved, ConfigSnapshot, HasRelease, MaxReleaseNumber;
    after, d := MarkHealthyTx(db, id, config, at).0, db.deployments[id];
    RowStands(db, id);
    IdsBelow(db);
  }

  lemma MintedDeploymentsOk(db: Tables, id: Id, config: Config, at: int)
    requires Inv(db) && MarkHealthyTx(db, id, config, at).1.Ok?
    ensures DeploymentsOk(MarkHealthyTx(db, id, config, at).0)
  {
    hide Inv, MarkHealthyTx, RowReplays, ConfigSnapshot, MaxReleaseNumber, SourceOk;
    var after, d := MarkHealthyEffect(db, id, config, at);
    forall e | e in after.deployments ensures DeploymentOk(after, e) {
      DeploymentStands(db, e);
      if e != id {
        hide DeploymentOk;
        DeploymentFrame(db, after, e);
      } else {
        MovedReplays(d, Healthy, "", "", at);
        assert after.releases[db.nextId].deployment == id;
        SourceKept(db, after, id);
      }
    }
  }

  lemma SourceKept(db: Tables, after: Tables, id: Id)
    requires id in db.deployments && id in after.deployments && ReleasesKept(db, after)
    requires var d, e := db.deployments[id], after.deployments[id];
             e.source == d.source && e.app == d.app && e.imageDigest == d.imageDigest && e.state == Healthy
    requires db.deployments[id].source.Rollback? ==> SourceOk(db, id)
    ensures after.deployments[id].source.Rollback? ==> SourceOk(after, id)
  {
  }

  lemma MintedReleaseOk(db: Tables, id: Id, config: Config, at: int)
    requires Inv(db) && Guard(db, MarkHealthy(id, config, at)) && MarkHealthyTx(db, id, config, at).1.Ok?
    ensures var after := MarkHealthyTx(db, id, config, at).0; db.nextId in after.releases && ReleaseOk(after, db.nextId)
  {
    hide Inv, MarkHealthyTx, DeploymentOk, ReleaseOk, DecodeSnapshot, EntriesOk, ConfigSnapshot, HasRelease,
         MaxReleaseNumber, Moved;
    var after, d := MarkHealthyEffect(db, id, config, at);
    SnapshotRoundTrip(config);
    DeploymentStands(db, id);
    SourceStands(db, id);
    HealthyNow(d, at);
    FreshReleaseOk(db, after, id, config);
  }

  lemma SourceStands(db: Tables, id: Id)
    requires id in db.deployments && DeploymentOk(db, id)
    ensures db.deployments[id].source.Rollback? ==> db.deployments[id].source.release in db.releases
  {
  }

  lemma HealthyNow(d: Deployment, at: int)
    ensures Moved(d, Healthy, "", "", at).state == Healthy && Moved(d, Healthy, "", "", at).app == d.app
    ensures Moved(d, Healthy, "", "", at).imageDigest == d.imageDigest
    ensures Moved(d, Healthy, "", "", at).source == d.source
  {
  }

  lemma FreshReleaseOk(db: Tables, after: Tables, id: Id, config: Config)
    requires id < db.nextId < after.nextId && id in after.deployments && db.nextId in after.releases
    requires var d, r := after.deployments[id], after.releases[db.nextId];
             && d.state == Healthy && d.imageDigest != ""
             && r.deployment == id && r.number >= 1 && r.app == d.app && r.imageDigest == d.imageDigest
             && DecodeSnapshot(r.snapshot) == Ok(config) && EntriesOk(config)
             && (d.source.Rollback? ==>
                   && d.source.release in db.releases
                   && DecodeSnapshot(db.releases[d.source.release].snapshot) == Ok(config))
    requires ReleasesKept(db, after)
    ensures ReleaseOk(after, db.nextId)
  {
  }

  lemma MintedReleasesOk(db: Tables, id: Id, config: Config, at: int)
    requires Inv(db) && Guard(db, MarkHealthy(id, config, at)) && MarkHealthyTx(db, id, config, at).1.Ok?
    ensures ReleasesOk(MarkHealthyTx(db, id, config, at).0)
  {
    hide Inv, MarkHealthyTx, Guard, ReleaseOk, ConfigSnapshot, MaxReleaseNumber, HasRelease;
    var after, d := MarkHealthyEffect(db, id, config, at);
    MintedReleaseOk(db, id, config, at);
    forall r | r in db.releases ensures ReleaseOk(after, r) {
      ReleaseStands(db, r);
      ReleaseFrame(db, after, r);
    }
  }

  lemma MintedPointerOk(db: Tables, after: Tables, a: Id, app: Id)
    requires a in db.apps && app in db.apps && PointerOk(db, a)
    requires after.apps.Keys == db.apps.Keys && db.nextId !in db.releases
    requires forall r | r in db.releases :: r < db.nextId
    requires after.releases.Keys == db.releases.Keys + {db.nextId}
    requires forall r | r in db.releases :: after.releases[r] == db.releases[r]
    requires after.releases[db.nextId].app == app
    requires after.releases[db.nextId].number == MaxReleaseNumber(db.releases, app, db.nextId) + 1
    requires after.apps[a].current == if a == app then Some(db.nextId) else db.apps[a].current
    ensures PointerOk(after, a)
  {
    forall n: nat | HasNumber(db, a, n) ensures HasNumber(after, a, n) {
      var r :| r in db.releases && db.releases[r].app == a && db.releases[r].number == n;
      assert after.releases[r] == db.releases[r];
    }
    if a == app {
      var top := MaxReleaseNumber(db.releases, app, db.nextId);
      assert HasNumber(after, a, top + 1) by { assert after.releases[db.nextId].number == top + 1; }
      forall n: nat | 1 <= n <= top + 1 ensures HasNumber(after, a, n) {
        if n <= top {
          assert HasNumber(db, a, n);
        }
      }
    }
  }

  lemma MintedAppsOk(db: Tables, id: Id, config: Config, at: int)
    requires Inv(db) && Guard(db, MarkHealthy(id, config, at)) && MarkHealthyTx(db, id, config, at).1.Ok?
    ensures AppsOk(MarkHealthyTx(db, id, config, at).0)
  {
    hide Inv, MarkHealthyTx, PointerOk, EntriesOk, ConfigSnapshot, Moved, HasRelease;
    var after, d := MarkHealthyEffect(db, id, config, at);
    IdsBelow(db);
    forall a | a in after.apps ensures AppOk(after, a) {
      AppStands(db, a);
      MintedPointerOk(db, after, a, d.app);
    }
  }

  lemma MintedKeysUnique(db: Tables, id: Id, config: Config, at: int)
    requires Inv(db) && MarkHealthyTx(db, id, config, at).1.Ok?
    ensures UniqueKeys(MarkHealthyTx(db, id, config, at).0)
  {
    hide DeploymentsOk, ReleasesOk, AppsOk, OnlyNewestInFlight, Moved, ConfigSnapshot, MarkHealthyTx;
    var after, d := MarkHealthyEffect(db, id, config, at);
    IdsBelow(db);
  }

  lemma MintedNewest(db: Tables, id: Id, config: Config, at: int)
    requires Inv(db) && MarkHealthyTx(db, id, config, at).1.Ok?
    ensures OnlyNewestInFlight(MarkHealthyTx(db, id, config, at).0)
  {
    hide DeploymentsOk, ReleasesOk, AppsOk, UniqueKeys, ConfigSnapshot, MarkHealthyTx;
    var after, d := MarkHealthyEffect(db, id, config, at);
  }

  lemma MarkHealthyKeeps(db: Tables, id: Id, config: Config, at: int)
    requires Inv(db) && Guard(db, MarkHealthy(id, config, at))
    ensures Inv(MarkHealthyTx(db, id, config, at).0)
  {
    hide DeploymentsOk, ReleasesOk, AppsOk, UniqueKeys, OnlyNewestInFlight, Guard;
    if MarkHealthyTx(db, id, config, at).1.Ok? {
      MintedDeploymentsOk(db, id, config, at);
      MintedReleasesOk(db, id, config, at);
      MintedAppsOk(db, id, config, at);
      MintedKeysUnique(db, id, config, at);
      MintedNewest(db, id, config, at);
    }
  }

  // ---- Apps ----------------------------------------------------------------------------------

  lemma AppsOnlyDeployments(db: Tables, after: Tables)
    requires Inv(db) && after.deployments == db.deployments && after.releases == db.releases
    requires db.nextId <= after.nextId
    requires forall a | a in db.apps :: a in after.apps
    requires forall d | d in db.deployments && InFlight(db.deployments[d]) ::
             AppStanding(db, after, db.deployments[d].app)
    ensures DeploymentsOk(after)
  {
    hide Inv, DeploymentOk;
    forall d | d in after.deployments ensures DeploymentOk(after, d) {
      DeploymentStands(db, d);
      DeploymentFrame(db, after, d);
    }
  }

  lemma AppUpdateKeeps(db: Tables, app: Id, row: App)
    requires Inv(db) && app in db.apps
    requires row.slug == db.apps[app].slug && row.current == db.apps[app].current && EntriesOk(row.config)
    requires row.deleted ==> db.apps[app].deleted || FindInFlight(db.deployments, app, db.nextId).None?
    ensures Inv(db.(apps := db.apps[app := row]))
  {
    hide DeploymentsOk, ReleasesOk, AppsOk, EntriesOk;
    var after := db.(apps := db.apps[app := row]);
    IdsBelow(db);
    AppsOnlyDeployments(db, after);
    ReleasesFrame(db, after);
    AppRewritten(db, app, row);
  }

  lemma AppRewritten(db: Tables, app: Id, row: App)
    requires AppsOk(db) && app in db.apps && row.current == db.apps[app].current && EntriesOk(row.config)
    ensures AppsOk(db.(apps := db.apps[app := row]))
  {
    var after := db.(apps := db.apps[app := row]);
    hide EntriesOk, PointerOk;
    forall a | a in after.apps ensures AppOk(after, a) {
      assert AppOk(db, a);
      PointerFrame(db, after, a);
    }
  }

  lemma InsertAppKeeps(db: Tables, account: Id, name: string, slug: string)
    requires Inv(db) && !SlugUsed(db, slug)
    ensures Inv(db.(apps := db.apps[db.nextId := App(account, name, slug, None, false, map[])],
            nextId := db.nextId + 1))
  {
    hide DeploymentsOk, ReleasesOk, AppsOk;
    var after := db.(apps := db.apps[db.nextId := App(account, name, slug, None, false, map[])],
        nextId := db.nextId + 1);
    IdsBelow(db);
    InsertedAppsOk(db, account, name, slug);
    AppsOnlyDeployments(db, after);
    ReleasesFrame(db, after);
  }

  lemma InsertedAppsOk(db: Tables, account: Id, name: string, slug: string)
    requires Inv(db)
    ensures AppsOk(db.(apps := db.apps[db.nextId := App(account, name, slug, None, false, map[])],
            nextId := db.nextId + 1))
  {
    hide Inv, ReleaseOk, EntriesOk;
    var after := db.(apps := db.apps[db.nextId := App(account, name, slug, None, false, map[])],
        nextId := db.nextId + 1);
    IdsBelow(db);
    forall r | r in db.releases ensures db.releases[r].app != db.nextId {
      ReleaseStands(db, r);
    }
    forall a | a in after.apps ensures AppOk(after, a) {
      if a != db.nextId {
        hide PointerOk;
        AppStands(db, a);
        PointerFrame(db, after, a);
      } else {
        NoEntries();
      }
    }
  }

  lemma NoEntries()
    ensures EntriesOk(map[])
  {
  }

  lemma {:induction false} CreateAppKeeps(db: Tables, account: Id, name: string, slugs: seq<string>)
    requires Inv(db)
    ensures Inv(InsertApp(db, account, name, slugs).0)
  {
    hide Inv;
    if slugs != [] && !NameTaken(db, account, name) {
      if SlugUsed(db, slugs[0]) {
        CreateAppKeeps(db, account, name, slugs[1..]);
      } else {
        InsertAppKeeps(db, account, name, slugs[0]);
      }
    }
  }

  lemma {:induction false} RemovedEntriesOk(c: Config, keys: seq<string>)
    requires EntriesOk(c) && Removed(c, keys).Some?
    ensures EntriesOk(Removed(c, keys).value)
  {
    if keys != [] {
      RemovedEntriesOk(c, keys[..|keys| - 1]);
    }
  }

  lemma ConfigReplaced(db: Tables, app: Id, config: Config)
    requires Inv(db) && app in db.apps && (EntriesOk(db.apps[app].config) ==> EntriesOk(config))
    ensures Inv(db.(apps := db.apps[app := db.apps[app].(config := config)]))
  {
    hide Inv, EntriesOk;
    AppStands(db, app);
    AppUpdateKeeps(db, app, db.apps[app].(config := config));
  }

  // ---- Every action --------------------------------------------------------------------------

  /** The invariant is inductive: whatever the agents do and whatever the loop does, it holds again. */
  lemma StepKeepsInv(db: Tables, a: Action)
    requires Inv(db) && Guard(db, a)
    ensures Inv(Apply(db, a))
  {
    hide Inv, EntriesOk;
    match a
    case CreateApp(account, name, slugs, limit) => CreateAppKeeps(db, account, name, slugs);
    case DeleteApp(app) =>
      if SoftDeleteTx(db, app).1.Ok? {
        AppStands(db, app);
        AppUpdateKeeps(db, app, db.apps[app].(deleted := true));
      }
    case CreateDeployment(app, source, at) => CreateDeploymentKeeps(db, app, source, at);
    case SetConfig(app, writes) =>
      if app in db.apps {
        AppStands(db, app);
        WrittenEntriesOk(db.apps[app].config, writes);
        ConfigReplaced(db, app, Written(db.apps[app].config, writes));
      }
    case UnsetConfig(app, keys) =>
      if app in db.apps && Removed(db.apps[app].config, keys).Some? {
        AppStands(db, app);
        RemovedEntriesOk(db.apps[app].config, keys);
        ConfigReplaced(db, app, Removed(db.apps[app].config, keys).value);
      }
    case ClaimNext(claimer) =>
      if NextClaim(db).Some? {
        ColumnsKeep(db, NextClaim(db).value, db.deployments[NextClaim(db).value].(claimedBy := Some(claimer)));
      }
    case ReleaseClaim(id) =>
      if id in db.deployments {
        ColumnsKeep(db, id, db.deployments[id].(claimedBy := None));
      }
    case Transition(id, to, reason, detail, at) => TransitionKeeps(db, id, to, reason, detail, at);
    case RecordBuild(id, path, job, repo, digest) =>
      if id in db.deployments {
        ColumnsKeep(db, id, Recorded(db.deployments[id], path, job, repo, digest));
      }
    case MarkHealthy(id, config, at) => MarkHealthyKeeps(db, id, config, at);
  }
}
