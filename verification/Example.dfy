/**
 * One short run, so that what is proved of every run is proved of something: an app is created and
 * configured, built and made healthy, reconfigured, and rolled back.
 */
module Example {
  import opened Basics
  import opened StateMachine
  import opened Configuration
  import opened Tables
  import opened Runs
  import opened Invariant
  import opened History
  import opened Releases
  import opened Drives
  import opened Retention
  import opened Status

  const FIRST: Config := map["A" := ConfigValue("1", false)]
  const SECOND: Config := map["A" := ConfigValue("2", true)]

  /** The app as it stands between the steps below. */
  function AppRow(current: Option<Id>, config: Config): App {
    App(7, "demo", "demo", current, false, config)
  }

  function Rows(config: Config, current: Option<Id>, deployments: map<Id, Deployment>, releases: map<Id, Release>,
                nextId: Id): Tables {
    Tables(map[0 := AppRow(current, config)], deployments, releases, nextId)
  }

  function Built(d: Deployment): Deployment {
    Moved(Recorded(Moved(Moved(d, Building, "", "", 11), Pushing, "", "", 12), "", "", "repo", "sha"), Deploying, "",
        "", 13)
  }

  function Shipped(d: Deployment, at: int): Deployment {
    Moved(d, Healthy, "", "", at)
  }

  lemma Then(acts: seq<Action>, a: Action, db: Tables, after: Tables)
    requires Legal(EMPTY, acts) && After(EMPTY, acts) == db && Guard(db, a) && Apply(db, a) == after
    requires a.MarkHealthy? ==> Composed(EMPTY, acts, a.id, a.config)
    ensures Legal(EMPTY, acts + [a]) && After(EMPTY, acts + [a]) == after
  {
    hide Guard, Apply, Composed;
    Extend(EMPTY, acts, a);
  }

  lemma Configure(db: Tables, value: string, secret: bool)
    requires 0 in db.apps && |value| <= MAX_VALUE_BYTES
    ensures var a := SetConfig(0, [Write("A", value, Some(secret))]);
            Guard(db, a) && Apply(db, a) == Configured(db, db.apps[0].config["A" := ConfigValue(value, secret)])
  {
    hide Written, WriteOk, ValidKey;
    var w := Write("A", value, Some(secret));
    KeyIsFine(w);
    OneWrite(db.apps[0].config, w);
  }

  function Configured(db: Tables, config: Config): Tables
    requires 0 in db.apps
  {
    db.(apps := db.apps[0 := db.apps[0].(config := config)])
  }

  lemma KeyIsFine(w: Write)
    requires w.key == "A" && |w.value| <= MAX_VALUE_BYTES && w.secret.Some?
    ensures WriteOk(w) && ValidKey(w.key)
  {
    assert "PORT"[0] == 'P' && "APP_URL"[1] == 'P';
  }

  lemma OneWrite(config: Config, w: Write)
    ensures Written(config, [w]) == config[w.key := w.Entry()]
  {
    assert [w][..0] == [];
  }

  /** A deployment is created when nothing of the app is in flight. */
  lemma Create(db: Tables, source: Source, digest: string, at: int)
    requires LiveApp(db, 0) && StartingDigest(db, 0, source) == Ok(digest)
    requires forall d | d in db.deployments :: !InFlight(db.deployments[d])
    ensures Apply(db, CreateDeployment(0, source, at))
            == db.(deployments := db.deployments[db.nextId := Born(0, source, digest, at)], nextId := db.nextId + 1)
  {
  }

  /** The four writes that take an uploaded build from queued to deploying. */
  lemma Build(acts: seq<Action>, db: Tables, id: Id, d: Deployment) returns (more: seq<Action>)
    requires Legal(EMPTY, acts) && After(EMPTY, acts) == db && id in db.deployments && db.deployments[id] == d
    requires d.state == Queued && d.source.Upload? && d.imageDigest == ""
    ensures Legal(EMPTY, more) && After(EMPTY, more) == db.(deployments := db.deployments[id := Built(d)])
  {
    hide Legal, After;
    var b := Moved(d, Building, "", "", 11);
    var p := Moved(b, Pushing, "", "", 12);
    var r := Recorded(p, "", "", "repo", "sha");
    var a0, a1, a2, a3 := Transition(id, Building, "", "", 11), Transition(id, Pushing, "", "", 12),
                          RecordBuild(id, "", "", "repo", "sha"), Transition(id, Deploying, "", "", 13);
    var t0, t1 := db.(deployments := db.deployments[id := b]), db.(deployments := db.deployments[id := p]);
    var t2, t3 := db.(deployments := db.deployments[id := r]), db.(deployments := db.deployments[id := Built(d)]);
    One(db, id, d, a0, b);
    Then(acts, a0, db, t0);
    One(t0, id, b, a1, p);
    assert t0.(deployments := t0.deployments[id := p]) == t1;
    Then(acts + [a0], a1, t0, t1);
    One(t1, id, p, a2, r);
    assert t1.(deployments := t1.deployments[id := r]) == t2;
    Then(acts + [a0] + [a1], a2, t1, t2);
    One(t2, id, r, a3, Built(d));
    assert t2.(deployments := t2.deployments[id := Built(d)]) == t3;
    Then(acts + [a0] + [a1] + [a2], a3, t2, t3);
    more := acts + [a0] + [a1] + [a2] + [a3];
  }

  /** One write of the loop about one row. */
  lemma One(db: Tables, id: Id, d: Deployment, a: Action, e: Deployment)
    requires id in db.deployments && db.deployments[id] == d && d.source.Upload?
    requires || (a == Transition(id, Building, "", "", 11) && d.state == Queued && e == Moved(d, Building, "", "", 11))
             || (a == Transition(id, Pushing, "", "", 12) && d.state == Building && e == Moved(d, Pushing, "", "", 12))
             || (a == RecordBuild(id, "", "", "repo", "sha") && d.state == Pushing
                && e == Recorded(d, "", "", "repo", "sha"))
             || (a == Transition(id, Deploying, "", "", 13) && d.state == Pushing && d.imageDigest == "sha"
                 && e == Moved(d, Deploying, "", "", 13))
    ensures Guard(db, a) && Apply(db, a) == db.(deployments := db.deployments[id := e])
  {
  }

  /** The write that makes a deploying row healthy. */
  lemma Promote(db: Tables, id: Id, d: Deployment, config: Config, at: int, number: nat)
    requires id in db.deployments && db.deployments[id] == d && d.state == Deploying && d.imageDigest != ""
    requires d.app == 0
    requires 0 in db.apps && !HasRelease(db, id) && MaxReleaseNumber(db.releases, 0, db.nextId) == number
    ensures Apply(db, MarkHealthy(id, config, at)) ==
              Tables(db.apps[0 := db.apps[0].(current := Some(db.nextId),
                                              config := if d.source.Rollback? then config else db.apps[0].config)],
                     db.deployments[id := Shipped(d, at)],
                     db.releases[db.nextId := Release(0, id, number + 1, d.imageDigest, ConfigSnapshot(config))],
                     db.nextId + 1)
  {
    hide MaxReleaseNumber, HasRelease, ConfigSnapshot;
  }

  lemma Rank1(config: Config)
    ensures MaxReleaseNumber(map[], 0, 2) == 0
    ensures MaxReleaseNumber(map[2 := Release(0, 1, 1, "sha", ConfigSnapshot(config))], 0, 4) == 1
  {
    var releases := map[2 := Release(0, 1, 1, "sha", ConfigSnapshot(config))];
    assert 2 in releases && releases[2].number == 1;
  }

  /** The app, its first configuration, and a first build made healthy as release 2. */
  lemma FirstRelease() returns (acts: seq<Action>, db: Tables)
    ensures Legal(EMPTY, acts) && After(EMPTY, acts) == db
    ensures var d := Built(Born(0, Upload(9), "", 10));
            db == Rows(FIRST, Some(2), map[1 := Shipped(d, 14)],
                       map[2 := Release(0, 1, 1, "sha", ConfigSnapshot(FIRST))], 3)
  {
    hide Legal, After, Guard, Apply, Built, Shipped, ConfigSnapshot, MaxReleaseNumber, Composed;
    Started();
    acts := [CreateApp(7, "demo", ["demo"], 3)];
    var t0 := Rows(map[], None, map[], map[], 1);
    var a1 := SetConfig(0, [Write("A", "1", Some(false))]);
    Configure(t0, "1", false);
    var t1 := Rows(FIRST, None, map[], map[], 1);
    Then(acts, a1, t0, t1);
    acts := acts + [a1];
    var a2, born := CreateDeployment(0, Upload(9), 10), Born(0, Upload(9), "", 10);
    Create(t1, Upload(9), "", 10);
    NoGuard(t1, 0, Upload(9), 10);
    var t2 := Rows(FIRST, None, map[1 := born], map[], 2);
    Then(acts, a2, t1, t2);
    acts := Build(acts + [a2], t2, 1, born);
    var built := Built(born);
    BuiltRow(born);
    var t3 := t2.(deployments := t2.deployments[1 := built]);
    Rank1(FIRST);
    var a4 := MarkHealthy(1, FIRST, 14);
    Promote(t3, 1, built, FIRST, 14, 0);
    PromoteGuard(t3, 1, FIRST, 14);
    db := Rows(FIRST, Some(2), map[1 := Shipped(built, 14)], map[2 := Release(0, 1, 1, "sha", ConfigSnapshot(FIRST))],
        3);
    assert t3.deployments[1 := Shipped(built, 14)] == db.deployments;
    ComposedNow(EMPTY, acts, 1);
    Then(acts, a4, t3, db);
    acts := acts + [a4];
  }

  lemma Started()
    ensures var acts := [CreateApp(7, "demo", ["demo"], 3)];
            Legal(EMPTY, acts) && After(EMPTY, acts) == Rows(map[], None, map[], map[], 1)
  {
    var a := CreateApp(7, "demo", ["demo"], 3);
    assert LiveApps(EMPTY, 7) == {};
    assert Apply(EMPTY, a) == Rows(map[], None, map[], map[], 1);
    Then([], a, EMPTY, Rows(map[], None, map[], map[], 1));
    assert [] + [a] == [a];
  }

  lemma NoGuard(db: Tables, app: Id, source: Source, at: int)
    ensures Guard(db, CreateDeployment(app, source, at))
  {
  }

  lemma BuiltRow(d: Deployment)
    ensures var b := Built(d);
            b.state == Deploying && b.imageDigest == "sha" && b.app == d.app && b.source == d.source
  {
  }

  lemma PromoteGuard(db: Tables, id: Id, config: Config, at: int)
    requires config == FIRST && id in db.deployments
    requires db.deployments[id].source == Rollback(2) && 2 in db.releases ==>
               db.releases[2].snapshot == ConfigSnapshot(config)
    requires db.deployments[id].source.Upload? || db.deployments[id].source == Rollback(2)
    ensures Guard(db, MarkHealthy(id, config, at))
  {
    hide ConfigSnapshot, DecodeSnapshot;
    SnapshotRoundTrip(config);
    assert "PORT"[0] == 'P' && "APP_URL"[1] == 'P';
  }

  /** A queued rollback goes straight to deploying. */
  lemma Redeploy(db: Tables, id: Id, d: Deployment)
    requires id in db.deployments && db.deployments[id] == d && d.state == Queued && d.source.Rollback?
    requires d.imageDigest != ""
    ensures var a := Transition(id, Deploying, "", "", 21);
            Guard(db, a) && Apply(db, a) == db.(deployments := db.deployments[id := Moved(d, Deploying, "", "", 21)])
  {
  }

  lemma NotReleased(config: Config)
    ensures var releases := map[2 := Release(0, 1, 1, "sha", ConfigSnapshot(config))];
            forall db: Tables | db.releases == releases :: !HasRelease(db, 3)
  {
  }

  const HEALTHY := Shipped(Built(Born(0, Upload(9), "", 10)), 14)
  const RELEASES := map[2 := Release(0, 1, 1, "sha", ConfigSnapshot(FIRST))]

  /** The configuration changes, and a rollback to the release is queued as deployment 3. */
  lemma RollbackQueued() returns (acts: seq<Action>)
    ensures Legal(EMPTY, acts)
    ensures After(EMPTY, acts) == Rows(SECOND, Some(2), map[1 := HEALTHY, 3 := Born(0, Rollback(2), "sha", 20)],
            RELEASES, 4)
  {
    hide Legal, After, Guard, Apply, Built, Shipped, ConfigSnapshot, MaxReleaseNumber;
    var db;
    acts, db := FirstRelease();
    HealthyRow(Built(Born(0, Upload(9), "", 10)));
    var a1 := SetConfig(0, [Write("A", "2", Some(true))]);
    Configure(db, "2", true);
    assert FIRST["A" := ConfigValue("2", true)] == SECOND;
    var t1 := Rows(SECOND, Some(2), map[1 := HEALTHY], RELEASES, 3);
    Then(acts, a1, db, t1);
    acts := acts + [a1];
    var a2, born := CreateDeployment(0, Rollback(2), 20), Born(0, Rollback(2), "sha", 20);
    Create(t1, Rollback(2), "sha", 20);
    NoGuard(t1, 0, Rollback(2), 20);
    Then(acts, a2, t1, Rows(SECOND, Some(2), map[1 := HEALTHY, 3 := born], RELEASES, 4));
    acts := acts + [a2];
  }

  /**
   * The rollback becomes healthy. The premises of RollbackFidelity are met, and the old configuration
   * is back.
   */
  lemma RollbackHappens() returns (acts: seq<Action>)
    ensures Legal(EMPTY, acts)
    ensures var now := After(EMPTY, acts);
            && Inv(now) && 3 in now.deployments && now.deployments[3].state == Healthy
               && now.deployments[3].source == Rollback(2)
            && 0 in now.apps && now.apps[0].current == Some(4) && now.apps[0].config == FIRST
            && 4 in now.releases && now.releases[4].number == 2 && now.releases[4].imageDigest == "sha"
  {
    hide Legal, After, Guard, Apply, Built, Shipped, ConfigSnapshot, MaxReleaseNumber, Inv, HasRelease, Composed;
    acts := RollbackQueued();
    var born := Born(0, Rollback(2), "sha", 20);
    var moved := Moved(born, Deploying, "", "", 21);
    var t2 := Rows(SECOND, Some(2), map[1 := HEALTHY, 3 := born], RELEASES, 4);
    var t3 := Rows(SECOND, Some(2), map[1 := HEALTHY, 3 := moved], RELEASES, 4);
    Redeploy(t2, 3, born);
    assert t2.deployments[3 := moved] == t3.deployments;
    Then(acts, Transition(3, Deploying, "", "", 21), t2, t3);
    acts := acts + [Transition(3, Deploying, "", "", 21)];
    Rank1(FIRST);
    NotReleased(FIRST);
    Promote(t3, 3, moved, FIRST, 22, 1);
    PromoteGuard(t3, 3, FIRST, 22);
    RollbackComposed(EMPTY, acts, 3, FIRST);
    Then(acts, MarkHealthy(3, FIRST, 22), t3, Apply(t3, MarkHealthy(3, FIRST, 22)));
    acts := acts + [MarkHealthy(3, FIRST, 22)];
    HealthyRow(moved);
    EmptyInv();
    InvOverRuns(EMPTY, acts);
  }

  lemma HealthyRow(d: Deployment)
    ensures Shipped(d, 14).state == Healthy && Shipped(d, 22).state == Healthy && Shipped(d, 22).source == d.source
  {
  }

  // ---- A stamp taken before the wait for the lock ----------------------------------------------

  /** A build started at 11, superseded by a create that read its clock at 10 and then waited. */
  function Late(): Deployment {
    Superseded(Moved(Born(0, Upload(9), "", 5), Building, "", "", 11), 10)
  }

  lemma LateRow()
    ensures Late().state == Cancelled
    ensures Late().log == [Event(None, Queued, "", "", 5), Event(Some(Queued), Building, "", "", 11),
                           Event(Some(Building), Cancelled, SUPERSEDED, "", 10)]
    ensures Timeline(Late().log) == [Entry(Queued, 5, ""), Entry(Cancelled, 10, SUPERSEDED), Entry(Building, 11, "")]
  {
    var log := Late().log;
    assert log == [log[0], log[1], log[2]] && log[..2] == [log[0], log[1]] && [log[0], log[1]][..1] == [log[0]];
    assert ByInstant(log[..1]) == [log[0]] by { assert log[..1][..0] == []; }
    assert log[..2][..1] == log[..1];
    assert ByInstant(log[..2]) == [log[0], log[1]];
    assert [log[0], log[1]][..1] == [log[0]];
    assert Placed([log[0]], log[2]) == [log[0], log[2]];
    assert Placed([log[0], log[1]], log[2]) == [log[0], log[2], log[1]];
    assert log[..|log| - 1] == log[..2];
    assert ByInstant(log) == [log[0], log[2], log[1]];
  }

  /** The create that finds the build in flight. */
  lemma Supersedes(d: Deployment)
    requires d == Moved(Born(0, Upload(9), "", 5), Building, "", "", 11)
    ensures var db := Rows(map[], None, map[1 := d], map[], 2);
            Apply(db, CreateDeployment(0, Upload(9), 10))
            == Rows(map[], None, map[1 := Superseded(d, 10), 2 := Born(0, Upload(9), "", 10)], map[], 3)
  {
    var db := Rows(map[], None, map[1 := d], map[], 2);
    assert FindInFlight(db.deployments, 0, 2) == Some(1);
    var after := Supersede(db, 0, 10);
    assert after.deployments == map[1 := Superseded(d, 10)];
    assert FindInFlight(after.deployments, 0, 2).None?;
  }

  /** An app, a deployment of it, and the build under way. */
  function Underway(): seq<Action> {
    [CreateApp(7, "demo", ["demo"], 3), CreateDeployment(0, Upload(9), 5), Transition(1, Building, "", "", 11)]
  }

  lemma UnderwayIs()
    ensures var built := Moved(Born(0, Upload(9), "", 5), Building, "", "", 11);
            Legal(EMPTY, Underway()) && After(EMPTY, Underway()) == Rows(map[], None, map[1 := built], map[], 2)
  {
    hide Legal, After, Guard, Apply;
    Started();
    var acts := [CreateApp(7, "demo", ["demo"], 3)];
    var t0 := Rows(map[], None, map[], map[], 1);
    var a1, born := CreateDeployment(0, Upload(9), 5), Born(0, Upload(9), "", 5);
    Create(t0, Upload(9), "", 5);
    NoGuard(t0, 0, Upload(9), 5);
    var t1 := Rows(map[], None, map[1 := born], map[], 2);
    Then(acts, a1, t0, t1);
    acts := acts + [a1];
    var a2, built := Transition(1, Building, "", "", 11), Moved(born, Building, "", "", 11);
    One(t1, 1, born, a2, built);
    var t2 := Rows(map[], None, map[1 := built], map[], 2);
    assert t1.deployments[1 := built] == t2.deployments;
    Then(acts, a2, t1, t2);
    acts := acts + [a2];
    assert acts == Underway();
  }

  /**
   * So a timeline need not end in the reported state: this one of a cancelled deployment ends in
   * building, and nothing was ever swept.
   */
  lemma LateStampMisleads() returns (acts: seq<Action>)
    ensures Legal(EMPTY, acts) && SweptLegal(Unswept(acts))
    ensures var now := SweptAfter(Unswept(acts));
            && 1 in now.deployments && !LastWordStands(now.deployments[1])
            && Projection(now, 1).Ok?
            && var out := Projection(now, 1).value;
            && out.state == Cancelled && out.supersededBy == Some(2)
            && out.timeline == [Entry(Queued, 5, ""), Entry(Cancelled, 10, SUPERSEDED), Entry(Building, 11, "")]
  {
    hide Legal, After, Guard, Apply, SweptLegal, SweptAfter, Timeline, LastWordStands, Projection, Late;
    UnderwayIs();
    acts := Underway();
    var built := Moved(Born(0, Upload(9), "", 5), Building, "", "", 11);
    var t2 := Rows(map[], None, map[1 := built], map[], 2);
    var a3 := CreateDeployment(0, Upload(9), 10);
    Supersedes(built);
    NoGuard(t2, 0, Upload(9), 10);
    LateIs();
    var t3 := Rows(map[], None, map[1 := Late(), 2 := Born(0, Upload(9), "", 10)], map[], 3);
    Then(acts, a3, t2, t3);
    acts := acts + [a3];
    PlainRun(acts);
    LateReport(t3);
  }

  lemma LateIs()
    ensures Late() == Superseded(Moved(Born(0, Upload(9), "", 5), Building, "", "", 11), 10)
  {
  }

  lemma LateReport(db: Tables)
    requires db == Rows(map[], None, map[1 := Late(), 2 := Born(0, Upload(9), "", 10)], map[], 3)
    ensures 1 in db.deployments && !LastWordStands(db.deployments[1]) && Projection(db, 1).Ok?
    ensures var out := Projection(db, 1).value;
            && out.state == Cancelled && out.supersededBy == Some(2)
            && out.timeline == [Entry(Queued, 5, ""), Entry(Cancelled, 10, SUPERSEDED), Entry(Building, 11, "")]
  {
    hide Timeline;
    LateRow();
    assert Late().log[1].at > Late().log[2].at;
    assert Late().app == 0;
    assert NextDeploymentForApp(db, 0, 1) == Some(2);
  }
}
