/**
 * Runs of the platform: every committed write transaction but retention's, in commit order, whoever
 * issued it. Nothing in the program issues retention's; module Retention carries what is proved of runs
 * over to runs with sweeps in them.
 *
 * Agents create apps and deployments, delete apps and change configuration at any moment. The
 * reconcile loop claims, moves, records and marks healthy, and `Guard` says what it has established
 * before each of its writes, with `Composed` of module History for where a build's configuration came
 * from; module Reconciling proves the loop keeps to both. Because a transaction
 * commits whole or not at all, a crash is simply a run that stops, and a restart one that goes on.
 */
module Runs {
  import opened Basics
  import opened StateMachine
  import opened Configuration
  import opened Tables

  datatype Action =
    | CreateApp(account: Id, name: string, slugs: seq<string>, limit: int)
    | DeleteApp(app: Id)
    | CreateDeployment(app: Id, source: Source, at: int)
    | SetConfig(app: Id, writes: seq<Write>)
    | UnsetConfig(app: Id, keys: seq<string>)
    | ClaimNext(claimer: string)
    | ReleaseClaim(id: Id)
    | Transition(id: Id, to: State, reason: string, detail: string, at: int)
    | RecordBuild(id: Id, path: string, job: string, repo: string, digest: string)
    | MarkHealthy(id: Id, config: Config, at: int)
  {
    predicate Agent() {
      CreateApp? || DeleteApp? || CreateDeployment? || SetConfig? || UnsetConfig?
    }
  }

  function Apply(db: Tables, a: Action): Tables {
    match a
    case CreateApp(account, name, slugs, limit) => CreateAppTx(db, account, name, slugs, limit).0
    case DeleteApp(app) => SoftDeleteTx(db, app).0
    case CreateDeployment(app, source, at) => CreateDeploymentTx(db, app, source, at).0
    case SetConfig(app, writes) => SetConfigTx(db, app, writes).0
    case UnsetConfig(app, keys) => UnsetConfigTx(db, app, keys).0
    case ClaimNext(claimer) => ClaimNextTx(db, claimer).0
    case ReleaseClaim(id) => ReleaseClaimTx(db, id).0
    case Transition(id, to, reason, detail, at) => TransitionTx(db, id, to, reason, detail, at).0
    case RecordBuild(id, path, job, repo, digest) => RecordBuildTx(db, id, path, job, repo, digest).0
    case MarkHealthy(id, config, at) => MarkHealthyTx(db, id, config, at).0
  }

  // ---- What holds in every reachable state -------------------------------------------------

  /** Starts at queued out of nothing, chains, and takes only moves the table allows. */
  predicate LegalLog(log: seq<Event>) {
    && |log| > 0 && log[0].from == None && log[0].to == Queued
    && forall i | 0 < i < |log| :: log[i].from == Some(log[i - 1].to) && CanTransition(log[i - 1].to, log[i].to)
  }

  datatype Summary = Summary(state: State, startedAt: Option<int>, finishedAt: Option<int>, reason: string)

  /** What the event log alone says the row should hold. */
  function Replay(log: seq<Event>): Summary
    requires |log| > 0
  {
    var e := log[|log| - 1];
    if |log| == 1 then Summary(e.to, None, None, "")
    else
      var before := Replay(log[..|log| - 1]);
      Summary(e.to,
              if before.state == Queued && e.to != Cancelled then Some(e.at) else before.startedAt,
              if Terminal(e.to) then Some(e.at) else before.finishedAt,
              if e.to == Failed || e.to == Cancelled then e.reason else before.reason)
  }

  predicate RowReplays(d: Deployment) {
    LegalLog(d.log) && Replay(d.log) == Summary(d.state, d.startedAt, d.finishedAt, d.failureReason)
  }

  /** A rollback carries its source release's digest from birth and never builds. */
  predicate SourceOk(db: Tables, id: Id)
    requires id in db.deployments && db.deployments[id].source.Rollback?
  {
    var d := db.deployments[id];
    && d.source.release in db.releases && d.source.release < id
    && db.releases[d.source.release].app == d.app
    && db.releases[d.source.release].imageDigest == d.imageDigest
    && d.state != Building && d.state != Pushing
  }

  predicate DeploymentOk(db: Tables, id: Id)
    requires id in db.deployments
  {
    var d := db.deployments[id];
    && id < db.nextId
    && d.app in db.apps
    && RowReplays(d)
    && (InFlight(d) ==> !db.apps[d.app].deleted)
    && (d.state == Deploying || d.state == Healthy ==> d.imageDigest != "")
    && (d.source.Rollback? ==> SourceOk(db, id))
    && (d.state == Cancelled ==> d.failureReason == SUPERSEDED)
    && (d.state == Healthy ==> HasRelease(db, id))
  }

  predicate ReleaseOk(db: Tables, id: Id)
    requires id in db.releases
  {
    var r := db.releases[id];
    && id < db.nextId && r.deployment < id && r.number >= 1
    && r.deployment in db.deployments
    && var d := db.deployments[r.deployment];
    && d.state == Healthy && d.app == r.app && d.imageDigest == r.imageDigest && r.imageDigest != ""
    && DecodeSnapshot(r.snapshot).Ok? && EntriesOk(DecodeSnapshot(r.snapshot).value)
    && (d.source.Rollback? ==>
          d.source.release in db.releases &&
          DecodeSnapshot(r.snapshot) == DecodeSnapshot(db.releases[d.source.release].snapshot))
  }

  predicate HasNumber(db: Tables, app: Id, number: nat) {
    exists r :: r in db.releases && db.releases[r].app == app && db.releases[r].number == number
  }

  /** The current pointer is the highest number, and every number below it exists. */
  predicate PointerOk(db: Tables, app: Id)
    requires app in db.apps
  {
    match db.apps[app].current
    case None => forall r | r in db.releases :: db.releases[r].app != app
    case Some(c) =>
      && c in db.releases && db.releases[c].app == app
      && (forall r | r in db.releases && db.releases[r].app == app :: db.releases[r].number <= db.releases[c].number)
      && (forall n: nat | 1 <= n <= db.releases[c].number :: HasNumber(db, app, n))
  }

  predicate AppOk(db: Tables, app: Id)
    requires app in db.apps
  {
    app < db.nextId && EntriesOk(db.apps[app].config) && PointerOk(db, app)
  }

  /** The in flight deployment of an app is its newest by id, so there is never a second one. */
  predicate OnlyNewestInFlight(db: Tables) {
    forall d, e | d in db.deployments && e in db.deployments && db.deployments[d].app == db.deployments[e].app
        && d < e ::
      Terminal(db.deployments[d].state)
  }

  /** One release a deployment, one release a number, one app a slug, deleted apps included. */
  predicate UniqueKeys(db: Tables) {
    && (forall r, s | r in db.releases && s in db.releases && db.releases[r].deployment == db.releases[s].deployment ::
       r == s)
    && (forall r, s | r in db.releases && s in db.releases && db.releases[r].app == db.releases[s].app
                      && db.releases[r].number == db.releases[s].number :: r == s)
    && (forall a, b | a in db.apps && b in db.apps && db.apps[a].slug == db.apps[b].slug :: a == b)
  }

  predicate DeploymentsOk(db: Tables) {
    forall d | d in db.deployments :: DeploymentOk(db, d)
  }

  predicate ReleasesOk(db: Tables) {
    forall r | r in db.releases :: ReleaseOk(db, r)
  }

  predicate AppsOk(db: Tables) {
    forall a | a in db.apps :: AppOk(db, a)
  }

  predicate Inv(db: Tables) {
    DeploymentsOk(db) && ReleasesOk(db) && AppsOk(db) && OnlyNewestInFlight(db) && UniqueKeys(db)
  }

  const EMPTY := Tables(map[], map[], map[], 0)

  // ---- What each actor has established before it writes ------------------------------------

  /**
   * Agents: a configuration write was validated for its own shape. The loop: it never cancels, it
   * builds only uploads, it reaches deploying only with a digest recorded, it records a build only
   * on an upload that has not reached deploying, and it marks a rollback healthy only with the
   * configuration its source release decodes to. A row already terminal refuses the write anyway.
   */
  predicate Guard(db: Tables, a: Action) {
    match a
    case SetConfig(_, writes) => CallOk(writes)
    case Transition(id, to, reason, _, _) =>
      && (to == Building || to == Pushing || to == Deploying || to == Failed)
      && (to == Failed <==> reason != "")
      && (id in db.deployments && InFlight(db.deployments[id]) ==>
            && (to == Building ==> db.deployments[id].source.Upload?)
            && (to == Deploying ==> db.deployments[id].imageDigest != ""))
    case RecordBuild(id, _, _, _, _) =>
      id in db.deployments ==>
        && db.deployments[id].source.Upload?
        && db.deployments[id].state != Deploying && db.deployments[id].state != Healthy
    case MarkHealthy(id, config, _) =>
      id in db.deployments && InFlight(db.deployments[id]) ==>
        && EntriesOk(config)
        && (db.deployments[id].source.Rollback? ==>
              db.deployments[id].source.release in db.releases ==>
                DecodeSnapshot(db.releases[db.deployments[id].source.release].snapshot) == Ok(config))
    case _ => true
  }

  // ---- Event logs ---------------------------------------------------------------------------

  /** A log's length is bounded by its rank: at most four moves, and finished exactly when terminal. */
  lemma {:induction false} LegalLogFacts(log: seq<Event>)
    requires LegalLog(log)
    ensures |log| - 1 <= Rank(log[|log| - 1].to)
    ensures |log| <= 5
    ensures Replay(log).state == log[|log| - 1].to
    ensures Replay(log).finishedAt.Some? <==> Terminal(log[|log| - 1].to)
    ensures log[|log| - 1].to == Queued ==> |log| == 1
  {
    if |log| > 1 {
      LegalLogFacts(log[..|log| - 1]);
      MovesClimb(log[|log| - 2].to, log[|log| - 1].to);
      assert log[..|log| - 1][|log| - 2] == log[|log| - 2];
    }
  }

  lemma LogExtends(log: seq<Event>, e: Event)
    requires LegalLog(log) && e.from == Some(log[|log| - 1].to) && CanTransition(log[|log| - 1].to, e.to)
    ensures LegalLog(log + [e])
    ensures (log + [e])[..|log|] == log
  {
  }

  lemma MovedReplays(d: Deployment, to: State, reason: string, detail: string, at: int)
    requires RowReplays(d) && CanTransition(d.state, to) && to != Cancelled && (to == Failed ==> reason != "")
    ensures RowReplays(Moved(d, to, reason, detail, at))
  {
    LegalLogFacts(d.log);
    MovesClimb(d.state, to);
    LogExtends(d.log, Event(Some(d.state), to, reason, detail, at));
  }

  lemma SupersededReplays(d: Deployment, at: int)
    requires RowReplays(d) && InFlight(d)
    ensures RowReplays(Superseded(d, at))
  {
    LegalLogFacts(d.log);
    MovesClimb(d.state, Cancelled);
    LogExtends(d.log, Event(Some(d.state), Cancelled, SUPERSEDED, "", at));
  }
}
