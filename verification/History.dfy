/** What holds over whole runs: invariants, the life of one deployment, supersession and its successor. */
module History {
  import opened Basics
  import opened StateMachine
  import opened Configuration
  import opened Tables
  import opened Runs
  import opened Invariant

  // ---- Runs ----------------------------------------------------------------------------------

  /** The tables after the committed actions, in order. */
  function After(db: Tables, acts: seq<Action>): Tables {
    if acts == [] then db else Apply(After(db, acts[..|acts| - 1]), acts[|acts| - 1])
  }

  /** At this point of the run the deployment existed and its app's table held exactly this map. */
  predicate HeldAt(db: Tables, acts: seq<Action>, j: nat, id: Id, config: Config)
    requires j <= |acts|
  {
    var held := After(db, acts[..j]);
    && id in held.deployments && held.deployments[id].app in held.apps
    && held.apps[held.deployments[id].app].config == config
  }

  /** A build still in flight is given a configuration its app's table held at some point of its life. */
  predicate Composed(db: Tables, acts: seq<Action>, id: Id, config: Config) {
    && var now := After(db, acts);
    && (id in now.deployments && InFlight(now.deployments[id]) && now.deployments[id].source.Upload? ==>
          exists j :: 0 <= j <= |acts| && HeldAt(db, acts, j, id, config))
  }

  /** What a writer establishes before its action: the guard, and where a build's configuration came from. */
  predicate Established(db: Tables, acts: seq<Action>, a: Action) {
    Guard(After(db, acts), a) && (a.MarkHealthy? ==> Composed(db, acts, a.id, a.config))
  }

  /** Every action was taken with that established. */
  predicate Legal(db: Tables, acts: seq<Action>) {
    acts == [] || (Legal(db, acts[..|acts| - 1]) && Established(db, acts[..|acts| - 1], acts[|acts| - 1]))
  }

  lemma Extend(db: Tables, acts: seq<Action>, a: Action)
    requires Legal(db, acts) && Established(db, acts, a)
    ensures Legal(db, acts + [a]) && After(db, acts + [a]) == Apply(After(db, acts), a)
  {
  }

  lemma {:induction false} LegalPrefix(db: Tables, acts: seq<Action>, n: nat)
    requires Legal(db, acts) && n <= |acts|
    ensures Legal(db, acts[..n])
  {
    hide Apply, Guard;
    if n < |acts| {
      LegalPrefix(db, acts[..|acts| - 1], n);
      assert acts[..|acts| - 1][..n] == acts[..n];
    } else {
      assert acts[..n] == acts;
    }
  }

  lemma StepAt(db: Tables, acts: seq<Action>, n: nat)
    requires Legal(db, acts) && n < |acts|
    ensures Guard(After(db, acts[..n]), acts[n])
    ensures After(db, acts[..n + 1]) == Apply(After(db, acts[..n]), acts[n])
  {
    LegalPrefix(db, acts, n + 1);
    hide Apply, Guard;
    assert acts[..n + 1][..n] == acts[..n];
  }

  /** The invariant holds at every point of every run. */
  lemma {:induction false} InvOverRuns(db: Tables, acts: seq<Action>)
    requires Inv(db) && Legal(db, acts)
    ensures Inv(After(db, acts))
  {
    hide Inv, Apply, Guard;
    if acts != [] {
      InvOverRuns(db, acts[..|acts| - 1]);
      StepKeepsInv(After(db, acts[..|acts| - 1]), acts[|acts| - 1]);
    }
  }

  lemma EmptyInv()
    ensures Inv(EMPTY)
  {
  }

  // ---- What time never takes back ------------------------------------------------------------

  /** One row, earlier and later: the log only grows, and a terminal row never changes its account. */
  predicate RowEvolves(d: Deployment, e: Deployment) {
    && e.app == d.app && e.source == d.source && e.createdAt == d.createdAt
    && |d.log| <= |e.log| && e.log[..|d.log|] == d.log
    && Rank(d.state) <= Rank(e.state)
    && (Terminal(d.state) ==>
          e.state == d.state && e.failureReason == d.failureReason && e.log == d.log
          && e.startedAt == d.startedAt && e.finishedAt == d.finishedAt)
    && ((d.state == Deploying || d.state == Healthy) && (e.state == Deploying || e.state == Healthy) ==>
          e.imageDigest == d.imageDigest)
    && (d.source.Rollback? ==> e.imageDigest == d.imageDigest)
    && (d.state == Healthy ==> e.buildPath == d.buildPath)
  }

  predicate AppEvolves(a: App, b: App) {
    b.account == a.account && b.name == a.name && b.slug == a.slug && (a.deleted ==> b.deleted)
  }

  predicate Evolves(a: Tables, b: Tables) {
    && a.nextId <= b.nextId
    && (forall d | d in a.deployments :: d in b.deployments && RowEvolves(a.deployments[d], b.deployments[d]))
    && (forall d | d in b.deployments && d !in a.deployments :: a.nextId <= d)
    && (forall r | r in a.releases :: r in b.releases && b.releases[r] == a.releases[r])
    && (forall r | r in b.releases && r !in a.releases :: a.nextId <= r)
    && (forall p | p in a.apps :: p in b.apps && AppEvolves(a.apps[p], b.apps[p]))
    && (forall p | p in b.apps && p !in a.apps :: a.nextId <= p)
  }

  lemma EvolvesTransitive(a: Tables, b: Tables, c: Tables)
    requires Evolves(a, b) && Evolves(b, c)
    ensures Evolves(a, c)
  {
    hide RowEvolves, AppEvolves;
    forall d | d in a.deployments ensures d in c.deployments && RowEvolves(a.deployments[d], c.deployments[d]) {
      RowEvolvesTransitive(a.deployments[d], b.deployments[d], c.deployments[d]);
    }
    forall p | p in a.apps ensures p in c.apps && AppEvolves(a.apps[p], c.apps[p]) {
      AppEvolvesTransitive(a.apps[p], b.apps[p], c.apps[p]);
    }
  }

  lemma RowEvolvesTransitive(d: Deployment, e: Deployment, f: Deployment)
    requires RowEvolves(d, e) && RowEvolves(e, f)
    ensures RowEvolves(d, f)
  {
  }

  lemma AppEvolvesTransitive(a: App, b: App, c: App)
    requires AppEvolves(a, b) && AppEvolves(b, c)
    ensures AppEvolves(a, c)
  {
  }

  lemma MovedEvolves(d: Deployment, to: State, reason: string, detail: string, at: int)
    requires CanTransition(d.state, to)
    ensures RowEvolves(d, Moved(d, to, reason, detail, at))
  {
  }

  /** One row replaced and at most one of each kind inserted: the shape of every transaction. */
  lemma UpdateEvolves(a: Tables, b: Tables, id: Id)
    requires a.nextId <= b.nextId
    requires a.deployments.Keys <= b.deployments.Keys <= a.deployments.Keys + {a.nextId}
    requires a.releases.Keys <= b.releases.Keys <= a.releases.Keys + {a.nextId}
    requires a.apps.Keys <= b.apps.Keys <= a.apps.Keys + {a.nextId}
    requires forall d | d in a.deployments && d != id :: b.deployments[d] == a.deployments[d]
    requires id in a.deployments ==> RowEvolves(a.deployments[id], b.deployments[id])
    requires forall r | r in a.releases :: b.releases[r] == a.releases[r]
    requires forall p | p in a.apps :: AppEvolves(a.apps[p], b.apps[p])
    ensures Evolves(a, b)
  {
    hide AppEvolves;
  }

  lemma SupersedeEvolves(db: Tables, app: Id, at: int)
    ensures Evolves(db, Supersede(db, app, at))
    ensures Supersede(db, app, at).nextId == db.nextId && Supersede(db, app, at).apps == db.apps
    ensures Supersede(db, app, at).deployments.Keys == db.deployments.Keys
  {
    hide RowEvolves, Evolves, Superseded;
    EvolvesReflexive(db);
    var found := FindInFlight(db.deployments, app, db.nextId);
    if found.Some? {
      assert RowEvolves(db.deployments[found.value], Superseded(db.deployments[found.value], at)) by {
        SupersededEvolves(db.deployments[found.value], at);
      }
      RowWriteEvolves(db, found.value, Superseded(db.deployments[found.value], at));
    }
  }

  lemma SupersededEvolves(d: Deployment, at: int)
    requires InFlight(d)
    ensures RowEvolves(d, Superseded(d, at))
  {
  }

  lemma CreateDeploymentEvolves(db: Tables, app: Id, source: Source, at: int)
    requires Inv(db)
    ensures Evolves(db, CreateDeploymentTx(db, app, source, at).0)
  {
    hide Inv, StartingDigest, Evolves, Supersede, Born;
    IdsBelow(db);
    EvolvesReflexive(db);
    var cancelled, after := Supersede(db, app, at), CreateDeploymentTx(db, app, source, at).0;
    SupersedeEvolves(db, app, at);
    if after != db {
      UpdateEvolves(cancelled, after, db.nextId) by {
        forall d | d in cancelled.deployments ensures RowEvolves(cancelled.deployments[d], cancelled.deployments[d]) {}
        forall p | p in db.apps ensures AppEvolves(db.apps[p], db.apps[p]) {}
      }
      EvolvesTransitive(db, cancelled, after);
    }
  }

  lemma {:induction false} InsertAppEvolves(db: Tables, account: Id, name: string, slugs: seq<string>)
    ensures var after := InsertApp(db, account, name, slugs).0;
            after == db || (after.deployments == db.deployments && after.releases == db.releases
                && after.nextId == db.nextId + 1
                            && after.apps.Keys == db.apps.Keys + {db.nextId}
                               && after.apps - {db.nextId} == db.apps - {db.nextId})
  {
    if slugs != [] && !NameTaken(db, account, name) && SlugUsed(db, slugs[0]) {
      InsertAppEvolves(db, account, name, slugs[1..]);
    }
  }

  lemma MarkHealthyEvolves(db: Tables, id: Id, config: Config, at: int)
    requires Inv(db)
    ensures Evolves(db, MarkHealthyTx(db, id, config, at).0)
  {
    hide Inv, MarkHealthyTx;
    if MarkHealthyTx(db, id, config, at).1.Ok? {
      var after, d := MarkHealthyEffect(db, id, config, at);
      MovedEvolves(d, Healthy, "", "", at);
      hide RowEvolves, Moved;
      UpdateEvolves(db, after, id);
    } else {
      MarkHealthyRefused(db, id, config, at);
      UpdateEvolves(db, db, db.nextId);
    }
  }

  lemma MarkHealthyRefused(db: Tables, id: Id, config: Config, at: int)
    ensures MarkHealthyTx(db, id, config, at).1.Err? ==> MarkHealthyTx(db, id, config, at).0 == db
  {
  }

  lemma RowWriteEvolves(db: Tables, id: Id, d: Deployment)
    requires id in db.deployments && RowEvolves(db.deployments[id], d)
    ensures Evolves(db, db.(deployments := db.deployments[id := d]))
  {
  }

  lemma TransitionEvolves(db: Tables, id: Id, to: State, reason: string, detail: string, at: int)
    ensures Evolves(db, TransitionTx(db, id, to, reason, detail, at).0)
  {
    hide Evolves, RowEvolves, Moved;
    EvolvesReflexive(db);
    if TransitionTx(db, id, to, reason, detail, at).1.Ok? {
      MovedEvolves(db.deployments[id], to, reason, detail, at);
      RowWriteEvolves(db, id, Moved(db.deployments[id], to, reason, detail, at));
    }
  }

  lemma ColumnsEvolve(db: Tables, id: Id, d: Deployment)
    requires id in db.deployments
    requires var held := db.deployments[id];
             && d == held.(claimedBy := d.claimedBy, buildPath := d.buildPath, jobName := d.jobName,
                           imageRepo := d.imageRepo, imageDigest := d.imageDigest)
             && (d.imageDigest != held.imageDigest ==>
                   d.source.Upload? && held.state != Deploying && held.state != Healthy)
             && (d.buildPath != held.buildPath ==> held.state != Healthy)
    ensures Evolves(db, db.(deployments := db.deployments[id := d]))
  {
  }

  lemma AppWriteEvolves(db: Tables, app: Id, row: App)
    requires app in db.apps && AppEvolves(db.apps[app], row)
    ensures Evolves(db, db.(apps := db.apps[app := row]))
  {
  }

  lemma CreateAppEvolves(db: Tables, account: Id, name: string, slugs: seq<string>, limit: int)
    requires Inv(db)
    ensures Evolves(db, CreateAppTx(db, account, name, slugs, limit).0)
  {
    hide Inv, InsertApp;
    IdsBelow(db);
    InsertAppEvolves(db, account, name, slugs);
    var after := InsertApp(db, account, name, slugs).0;
    forall p | p in db.apps ensures p in after.apps && after.apps[p] == db.apps[p] {
      assert p in db.apps - {db.nextId};
    }
    UpdateEvolves(db, after, db.nextId);
    EvolvesReflexive(db);
  }

  /** Nothing an action does is ever taken back. */
  lemma StepEvolves(db: Tables, a: Action)
    requires Inv(db) && Guard(db, a)
    ensures Evolves(db, Apply(db, a))
  {
    hide Inv, Evolves, CreateAppTx, CreateDeploymentTx, TransitionTx, MarkHealthyTx;
    EvolvesReflexive(db);
    match a
    case CreateApp(account, name, slugs, limit) => CreateAppEvolves(db, account, name, slugs, limit);
    case DeleteApp(app) =>
      if LiveApp(db, app) {
        AppWriteEvolves(db, app, db.apps[app].(deleted := true));
      }
    case CreateDeployment(app, source, at) => CreateDeploymentEvolves(db, app, source, at);
    case SetConfig(app, writes) =>
      if app in db.apps {
        AppWriteEvolves(db, app, db.apps[app].(config := Written(db.apps[app].config, writes)));
      }
    case UnsetConfig(app, keys) =>
      if app in db.apps && Removed(db.apps[app].config, keys).Some? {
        AppWriteEvolves(db, app, db.apps[app].(config := Removed(db.apps[app].config, keys).value));
      }
    case ClaimNext(claimer) =>
      if NextClaim(db).Some? {
        ColumnsEvolve(db, NextClaim(db).value, db.deployments[NextClaim(db).value].(claimedBy := Some(claimer)));
      }
    case ReleaseClaim(id) =>
      if id in db.deployments {
        ColumnsEvolve(db, id, db.deployments[id].(claimedBy := None));
      }
    case Transition(id, to, reason, detail, at) => TransitionEvolves(db, id, to, reason, detail, at);
    case RecordBuild(id, path, job, repo, digest) =>
      if id in db.deployments {
        ColumnsEvolve(db, id, Recorded(db.deployments[id], path, job, repo, digest));
      }
    case MarkHealthy(id, config, at) => MarkHealthyEvolves(db, id, config, at);
  }

  lemma {:induction false} RunEvolves(db: Tables, acts: seq<Action>, from: nat)
    requires Inv(db) && Legal(db, acts) && from <= |acts|
    ensures Evolves(After(db, acts[..from]), After(db, acts))
    decreases |acts|
  {
    hide Inv, Apply, Guard, Evolves;
    if from == |acts| {
      assert acts[..from] == acts;
      EvolvesReflexive(After(db, acts));
    } else {
      var before := acts[..|acts| - 1];
      InvOverRuns(db, before);
      StepEvolves(After(db, before), acts[|acts| - 1]);
      RunEvolves(db, before, from);
      assert before[..from] == acts[..from];
      EvolvesTransitive(After(db, acts[..from]), After(db, before), After(db, acts));
    }
  }

  lemma EvolvesReflexive(db: Tables)
    ensures Evolves(db, db)
  {
  }

  /**
   * The life of one deployment, sweeps aside, whatever else happens and however often the process restarts: it
   * makes at most four transitions, each strictly up in rank, its log is never rewritten and always
   * replays to the row, and once it is terminal neither its state nor its reason changes again.
   */
  lemma DeploymentLifetime(db: Tables, acts: seq<Action>, from: nat, d: Id)
    requires Inv(db) && Legal(db, acts) && from <= |acts| && d in After(db, acts[..from]).deployments
    ensures d in After(db, acts).deployments
    ensures var early, late := After(db, acts[..from]).deployments[d], After(db, acts).deployments[d];
            && |late.log| - 1 <= 4
            && |early.log| <= |late.log| && late.log[..|early.log|] == early.log
            && LegalLog(late.log)
            && Replay(late.log) == Summary(late.state, late.startedAt, late.finishedAt, late.failureReason)
            && (forall i | 0 < i < |late.log| :: Rank(late.log[i - 1].to) < Rank(late.log[i].to))
            && (late.finishedAt.Some? <==> Terminal(late.state))
            && (Terminal(early.state) ==> late.state == early.state && late.failureReason == early.failureReason)
  {
    hide Inv, Apply, Guard;
    RunEvolves(db, acts, from);
    InvOverRuns(db, acts);
    RowStands(After(db, acts), d);
    var late := After(db, acts).deployments[d];
    LegalLogFacts(late.log);
    forall i | 0 < i < |late.log| ensures Rank(late.log[i - 1].to) < Rank(late.log[i].to) {
      MovesClimb(late.log[i - 1].to, late.log[i].to);
    }
  }

  // ---- Supersession --------------------------------------------------------------------------

  /** At most one deployment of an app is in flight, and nothing of the app is newer. */
  lemma InFlightIsNewest(db: Tables, acts: seq<Action>, d: Id)
    requires Inv(db) && Legal(db, acts)
    requires d in After(db, acts).deployments && InFlight(After(db, acts).deployments[d])
    ensures forall e | e in After(db, acts).deployments && e != d
                       && After(db, acts).deployments[e].app == After(db, acts).deployments[d].app ::
              e < d && Terminal(After(db, acts).deployments[e].state)
  {
    hide Apply, Guard, DeploymentsOk, ReleasesOk, AppsOk, UniqueKeys;
    InvOverRuns(db, acts);
  }

  /** One row cancelled and its successor born, both at one instant, and no other row touched. */
  predicate Replaced(db: Tables, after: Tables, d: Id, app: Id, source: Source, at: int) {
    && d in db.deployments && d < db.nextId && db.nextId in after.deployments && after.nextId == db.nextId + 1
    && var born := after.deployments[db.nextId];
    && born == Born(app, source, born.imageDigest, at)
    && after.deployments == db.deployments[d := Superseded(db.deployments[d], at)][db.nextId := born]
  }

  lemma CancelledByCreate(db: Tables, app: Id, source: Source, at: int, d: Id, after: Tables, r: Result<Id, StoreError>)
    requires Inv(db) && d in db.deployments && InFlight(db.deployments[d])
    requires (after, r) == CreateDeploymentTx(db, app, source, at)
    ensures d in after.deployments
    ensures after.deployments[d].state == Cancelled <==> app == db.deployments[d].app && r == Ok(db.nextId)
    ensures after.deployments[d].state == Cancelled ==> Replaced(db, after, d, app, source, at)
  {
    hide Inv;
    IdsBelow(db);
    OneInFlight(db, app);
    CreateDeploymentKeeps(db, app, source, at);
  }

  /** Only a supersession cancels. */
  lemma NothingElseCancels(db: Tables, a: Action, d: Id)
    requires Inv(db) && Guard(db, a) && !a.CreateDeployment? && d in db.deployments && InFlight(db.deployments[d])
    ensures d in Apply(db, a).deployments && Apply(db, a).deployments[d].state != Cancelled
  {
    hide Inv;
    match a
    case CreateApp(account, name, slugs, _) =>
      hide InsertApp;
      InsertAppEvolves(db, account, name, slugs);
    case _ =>
  }

  /** Nothing but a supersession cancels, and a supersession names its successor at once. */
  lemma CancelStep(db: Tables, a: Action, d: Id)
    requires Inv(db) && Guard(db, a) && d in db.deployments && InFlight(db.deployments[d])
    ensures d in Apply(db, a).deployments
    ensures Apply(db, a).deployments[d].state == Cancelled <==>
              a.CreateDeployment? && a.app == db.deployments[d].app
              && CreateDeploymentTx(db, a.app, a.source, a.at).1 == Ok(db.nextId)
    ensures Apply(db, a).deployments[d].state == Cancelled ==>
              && NextDeploymentForApp(Apply(db, a), db.deployments[d].app, d) == Some(db.nextId)
              && db.nextId !in db.deployments && db.nextId in Apply(db, a).deployments
              && Apply(db, a).deployments[db.nextId].state == Queued
              && Apply(db, a).deployments[db.nextId].createdAt == a.at
              && Apply(db, a).deployments[d].finishedAt == Some(a.at)
  {
    hide Inv, Guard, CreateDeploymentTx, NextDeploymentForApp, TransitionTx, MarkHealthyTx, CreateAppTx;
    IdsBelow(db);
    if a.CreateDeployment? {
      CancelledByCreate(db, a.app, a.source, a.at, d, Apply(db, a), CreateDeploymentTx(db, a.app, a.source, a.at).1);
      if Apply(db, a).deployments[d].state == Cancelled {
        NewestNext(db, d);
        RowStands(db, d);
        LegalLogFacts(db.deployments[d].log);
        NextOfNewest(Apply(db, a), a.app, d, db.nextId);
      }
    } else {
      NothingElseCancels(db, a, d);
    }
  }

  /** Nothing of the app lies above its in flight row. */
  lemma NewestNext(db: Tables, d: Id)
    requires Inv(db) && d in db.deployments && InFlight(db.deployments[d])
    ensures forall e | e in db.deployments && e > d :: db.deployments[e].app != db.deployments[d].app
  {
  }

  lemma NextOfNewest(db: Tables, app: Id, d: Id, next: Id)
    requires d < next < db.nextId && next in db.deployments && db.deployments[next].app == app
    requires forall e | e in db.deployments && d < e < next :: db.deployments[e].app != app
    ensures NextDeploymentForApp(db, app, d) == Some(next)
  {
  }

  /** Later rows only ever come after, so a successor once named stays named. */
  lemma SuccessorStays(a: Tables, b: Tables, app: Id, d: Id, next: Id)
    requires Evolves(a, b) && NextDeploymentForApp(a, app, d) == Some(next)
    requires forall e | e in a.deployments :: e < a.nextId
    requires forall e | e in b.deployments :: e < b.nextId
    ensures NextDeploymentForApp(b, app, d) == Some(next)
  {
    forall e | e in b.deployments && d < e < next ensures b.deployments[e].app != app {
      assert e in a.deployments;
    }
    NextOfNewest(b, app, d, next);
  }

  /**
   * Every cancelled deployment of every run was cancelled by the one transaction that created its
   * immediate successor, stamped with the same instant, and the next deployment by id, which is what
   * superseded_by is derived from, is that successor for ever after.
   */
  lemma {:induction false} CancelledBySuccessor(acts: seq<Action>, d: Id) returns (k: nat)
    requires Legal(EMPTY, acts)
    requires d in After(EMPTY, acts).deployments && After(EMPTY, acts).deployments[d].state == Cancelled
    ensures k < |acts| && acts[k].CreateDeployment?
    ensures var before, after := After(EMPTY, acts[..k]), After(EMPTY, acts[..k + 1]);
            && d in before.deployments && InFlight(before.deployments[d]) && acts[k].app == before.deployments[d].app
            && d in after.deployments && after.deployments[d].state == Cancelled
            && before.nextId !in before.deployments && before.nextId in after.deployments
            && after.deployments[before.nextId].createdAt == acts[k].at
            && After(EMPTY, acts).deployments[d].finishedAt == Some(acts[k].at)
            && NextDeploymentForApp(After(EMPTY, acts), acts[k].app, d) == Some(before.nextId)
    decreases |acts|
  {
    hide Inv, Apply, Guard, NextDeploymentForApp, CreateDeploymentTx, Evolves;
    EmptyInv();
    var init := acts[..|acts| - 1];
    var before, last := After(EMPTY, init), acts[|acts| - 1];
    InvOverRuns(EMPTY, init);
    InvOverRuns(EMPTY, acts);
    assert acts[..|init|] == init && acts[..|init| + 1] == acts;
    BornInFlight(before, last, d);
    IdsBelow(before);
    if InFlight(before.deployments[d]) {
      CancelStep(before, last, d);
      k := |init|;
    } else {
      StepEvolves(before, last);
      StillTerminal(before, After(EMPTY, acts), d);
      k := CancelledBySuccessor(init, d);
      assert init[..k] == acts[..k] && init[..k + 1] == acts[..k + 1];
      IdsBelow(After(EMPTY, acts));
      SuccessorStays(before, After(EMPTY, acts), acts[k].app, d, After(EMPTY, acts[..k]).nextId);
    }
  }

  lemma StillTerminal(a: Tables, b: Tables, d: Id)
    requires Evolves(a, b) && d in a.deployments && Terminal(a.deployments[d].state)
    ensures d in b.deployments && b.deployments[d].state == a.deployments[d].state
    ensures b.deployments[d].finishedAt == a.deployments[d].finishedAt
  {
  }

  /** A row is born queued, so a terminal one was there before. */
  lemma BornInFlight(db: Tables, a: Action, d: Id)
    requires Inv(db) && Guard(db, a)
    requires d in Apply(db, a).deployments && Terminal(Apply(db, a).deployments[d].state)
    ensures d in db.deployments
  {
    hide Inv, Guard;
    match a
    case CreateApp(account, name, slugs, _) => InsertAppEvolves(db, account, name, slugs);
    case _ =>
  }

  /** And what a cancelled row was stamped finished with is the instant that successor was created. */
  lemma SuccessorCreated(acts: seq<Action>, d: Id)
    requires Legal(EMPTY, acts) && d in After(EMPTY, acts).deployments
    requires After(EMPTY, acts).deployments[d].state == Cancelled
    ensures var now := After(EMPTY, acts);
            var next := NextDeploymentForApp(now, now.deployments[d].app, d);
            && next.Some? && next.value > d && next.value in now.deployments
            && now.deployments[d].finishedAt == Some(now.deployments[next.value].createdAt)
  {
    hide Inv, Legal, After, Evolves, RowEvolves, NextDeploymentFrom;
    var k := CancelledBySuccessor(acts, d);
    EmptyInv();
    RunEvolves(EMPTY, acts, k);
    RunEvolves(EMPTY, acts, k + 1);
    CreatedAtStays(After(EMPTY, acts[..k]), After(EMPTY, acts), d);
    CreatedAtStays(After(EMPTY, acts[..k + 1]), After(EMPTY, acts), After(EMPTY, acts[..k]).nextId);
  }

  lemma CreatedAtStays(a: Tables, b: Tables, d: Id)
    requires Evolves(a, b) && d in a.deployments
    ensures d in b.deployments && b.deployments[d].createdAt == a.deployments[d].createdAt
    ensures b.deployments[d].app == a.deployments[d].app
  {
  }
}
