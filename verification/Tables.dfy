/**
 * The platform database as one value, and what each write transaction does to it: the rows of
 * internal/store/deployments.go, internal/store/apps.go and internal/store/config.go.
 *
 * An id is its rank in the order ids were drawn (module Ids proves that order). A deployment's
 * events, in the order they were written, are its `log`; an app's app_config rows are its `config`.
 * A nullable text column holds "" for null, which is how the Go reads one.
 */
module Tables {
  import opened Basics
  import opened StateMachine
  import opened Configuration

  type Id = nat

  // ---- Rows -------------------------------------------------------------------------------

  /** One value of a config_snapshot: the shape before spec 0011, the shape after it, or neither. */
  datatype SnapshotEntry = Bare(value: string) | Object(value: string, secret: bool) | Unreadable

  datatype Snapshot = Blank | Document(entries: map<string, SnapshotEntry>)

  datatype App = App(account: Id, name: string, slug: string, current: Option<Id>, deleted: bool, config: Config)

  /** The schema's CHECK: a deployment is a build of an upload or a rollback to a release, never both. */
  datatype Source = Upload(upload: Id) | Rollback(release: Id)

  datatype Event = Event(from: Option<State>, to: State, reason: string, detail: string, at: int)

  datatype Deployment = Deployment(
    app: Id, source: Source, state: State,
    buildPath: string, jobName: string, imageRepo: string, imageDigest: string,
    failureReason: string, claimedBy: Option<string>,
    createdAt: int, startedAt: Option<int>, finishedAt: Option<int>, log: seq<Event>)

  datatype Release = Release(app: Id, deployment: Id, number: nat, imageDigest: string, snapshot: Snapshot)

  datatype Tables = Tables(
    apps: map<Id, App>, deployments: map<Id, Deployment>, releases: map<Id, Release>, nextId: Id)

  datatype StoreError =
    | AppDeleted | NotFound | TerminalState | IllegalTransition | NoDigest | ReleaseExists
    | UniqueViolation | InvalidKey | AppLimit | AppNameTaken | SlugTaken | DeploymentInFlight
    | StillReferenced

  const SUPERSEDED := "superseded"

  // ---- Snapshots --------------------------------------------------------------------------

  function ConfigSnapshot(config: Config): Snapshot {
    Document(map k | k in config :: Object(config[k].value, config[k].secret))
  }

  /** The choice of shape is made per key; a bare value carries no flag and is restored as secret. */
  function DecodeEntry(e: SnapshotEntry): ConfigValue
    requires !e.Unreadable?
  {
    match e
    case Bare(v) => ConfigValue(v, true)
    case Object(v, secret) => ConfigValue(v, secret)
  }

  function DecodeSnapshot(s: Snapshot): (r: Result<Config, ()>)
    ensures r.Ok? <==> s.Blank? || forall k | k in s.entries :: !s.entries[k].Unreadable?
    ensures r.Ok? && s.Document? ==> r.value.Keys == s.entries.Keys
  {
    if s.Blank? then Ok(map[])
    else if exists k | k in s.entries :: s.entries[k].Unreadable? then Err(())
    else Ok(map k | k in s.entries :: DecodeEntry(s.entries[k]))
  }

  /** What a release records is exactly what the deploy was given, flags included. */
  lemma SnapshotRoundTrip(config: Config)
    ensures DecodeSnapshot(ConfigSnapshot(config)) == Ok(config)
  {
    var s := ConfigSnapshot(config);
    assert DecodeSnapshot(s).value == config;
  }

  /**
   * What a stored snapshot restores, key by key: an entry of the newer shape its value and its flag, and one
   * of the older shape, which carries no flag, its value as a secret.
   */
  lemma SnapshotRestores(s: Snapshot, k: string)
    requires DecodeSnapshot(s).Ok? && s.Document? && k in s.entries
    ensures k in DecodeSnapshot(s).value
    ensures match s.entries[k]
            case Bare(v) => DecodeSnapshot(s).value[k] == ConfigValue(v, true)
            case Object(v, secret) => DecodeSnapshot(s).value[k] == ConfigValue(v, secret)
            case Unreadable => false
  {
  }

  // ---- Reads ------------------------------------------------------------------------------

  predicate InFlight(d: Deployment) {
    !Terminal(d.state)
  }

  /** The in flight deployment of an app among the ids below `below`, the newest if there were several. */
  function FindInFlight(deployments: map<Id, Deployment>, app: Id, below: Id): (r: Option<Id>)
    ensures r.Some? ==> r.value in deployments && r.value < below &&
                        deployments[r.value].app == app && InFlight(deployments[r.value])
    ensures forall d | d in deployments && d < below && deployments[d].app == app && InFlight(deployments[d]) ::
              r.Some? && d <= r.value
  {
    if below == 0 then None
    else if below - 1 in deployments && deployments[below - 1].app == app && InFlight(deployments[below - 1])
    then Some(below - 1)
    else FindInFlight(deployments, app, below - 1)
  }

  /** The highest release number an app holds among the ids below `below`, or 0. */
  function MaxReleaseNumber(releases: map<Id, Release>, app: Id, below: Id): (n: nat)
    ensures forall r | r in releases && r < below && releases[r].app == app :: releases[r].number <= n
    ensures n != 0 ==> exists r :: r in releases && r < below && releases[r].app == app && releases[r].number == n
  {
    if below == 0 then 0
    else
      var m := MaxReleaseNumber(releases, app, below - 1);
      if below - 1 in releases && releases[below - 1].app == app && releases[below - 1].number > m
      then releases[below - 1].number else m
  }

  /** The app's next deployment by id: what superseded_by is derived from. */
  function NextDeploymentFrom(db: Tables, app: Id, id: Id): (r: Option<Id>)
    ensures r.Some? ==> id <= r.value && r.value in db.deployments && db.deployments[r.value].app == app
    ensures r.Some? ==> forall d | id <= d < r.value && d in db.deployments :: db.deployments[d].app != app
    ensures r.None? ==> forall d | id <= d < db.nextId && d in db.deployments :: db.deployments[d].app != app
    decreases if id < db.nextId then db.nextId - id else 0
  {
    if id >= db.nextId then None
    else if id in db.deployments && db.deployments[id].app == app then Some(id)
    else NextDeploymentFrom(db, app, id + 1)
  }

  function NextDeploymentForApp(db: Tables, app: Id, after: Id): Option<Id> {
    NextDeploymentFrom(db, app, after + 1)
  }

  predicate LiveApp(db: Tables, app: Id) {
    app in db.apps && !db.apps[app].deleted
  }

  // ---- Deployments ------------------------------------------------------------------------

  /** A move written with its event: stamps are only ever set, never cleared. */
  function Moved(d: Deployment, to: State, reason: string, detail: string, at: int): Deployment {
    d.(state := to,
       failureReason := if to == Failed && reason != "" then reason else d.failureReason,
       startedAt := if d.state == Queued && d.startedAt.None? then Some(at) else d.startedAt,
       finishedAt := if Terminal(to) && d.finishedAt.None? then Some(at) else d.finishedAt,
       log := d.log + [Event(Some(d.state), to, reason, detail, at)])
  }

  /** The supersede path, which bypasses Transition: it stamps the reason and no start. */
  function Superseded(d: Deployment, at: int): Deployment {
    d.(state := Cancelled,
       failureReason := SUPERSEDED,
       finishedAt := if d.finishedAt.None? then Some(at) else d.finishedAt,
       log := d.log + [Event(Some(d.state), Cancelled, SUPERSEDED, "", at)])
  }

  function Born(app: Id, source: Source, digest: string, at: int): Deployment {
    Deployment(app, source, Queued, "", "", "", digest, "", None, at, None, None, [Event(None, Queued, "", "", at)])
  }

  /** Cancels whatever the app has in flight. */
  function Supersede(db: Tables, app: Id, at: int): Tables {
    match FindInFlight(db.deployments, app, db.nextId)
    case Some(d) => db.(deployments := db.deployments[d := Superseded(db.deployments[d], at)])
    case None => db
  }

  /** The digest a new deployment starts with, or why there is none. */
  function StartingDigest(db: Tables, app: Id, source: Source): Result<string, StoreError> {
    match source
    case Upload(_) => Ok("")
    case Rollback(r) =>
      if r !in db.releases || db.releases[r].app != app then Err(NotFound) else Ok(db.releases[r].imageDigest)
  }

  function CreateDeploymentTx(db: Tables, app: Id, source: Source, at: int): (Tables, Result<Id, StoreError>) {
    if !LiveApp(db, app) then (db, Err(AppDeleted))
    else
      var digest := StartingDigest(db, app, source);
      if digest.Err? then (db, Err(digest.error))
      else
        var after := Supersede(db, app, at);
        if FindInFlight(after.deployments, app, after.nextId).Some? then (db, Err(UniqueViolation))
        else (after.(deployments := after.deployments[db.nextId := Born(app, source, digest.value, at)],
                     nextId := db.nextId + 1),
              Ok(db.nextId))
  }

  function TransitionTx(db: Tables, id: Id, to: State, reason: string, detail: string, at: int)
    : (Tables, Result<(), StoreError>)
  {
    if to == Healthy then (db, Err(IllegalTransition))
    else if id !in db.deployments then (db, Err(NotFound))
    else if Terminal(db.deployments[id].state) then (db, Err(TerminalState))
    else if !CanTransition(db.deployments[id].state, to) then (db, Err(IllegalTransition))
    else (db.(deployments := db.deployments[id := Moved(db.deployments[id], to, reason, detail, at)]), Ok(()))
  }

  function Coalesce(given: string, held: string): string {
    if given != "" then given else held
  }

  function Recorded(d: Deployment, path: string, job: string, repo: string, digest: string): Deployment {
    d.(buildPath := Coalesce(path, d.buildPath), jobName := Coalesce(job, d.jobName),
       imageRepo := Coalesce(repo, d.imageRepo), imageDigest := Coalesce(digest, d.imageDigest))
  }

  function RecordBuildTx(db: Tables, id: Id, path: string, job: string, repo: string, digest: string)
    : (Tables, Result<(), StoreError>)
  {
    if id !in db.deployments then (db, Err(NotFound))
    else (db.(deployments := db.deployments[id := Recorded(db.deployments[id], path, job, repo, digest)]), Ok(()))
  }

  predicate HasRelease(db: Tables, deployment: Id) {
    exists r :: r in db.releases && db.releases[r].deployment == deployment
  }

  function MarkHealthyTx(db: Tables, id: Id, config: Config, at: int): (Tables, Result<Id, StoreError>) {
    if id !in db.deployments then (db, Err(NotFound))
    else
      var d := db.deployments[id];
      if Terminal(d.state) then (db, Err(TerminalState))
      else if !CanTransition(d.state, Healthy) then (db, Err(IllegalTransition))
      else if d.imageDigest == "" then (db, Err(NoDigest))
      else if HasRelease(db, id) then (db, Err(ReleaseExists))
      else
        var number := MaxReleaseNumber(db.releases, d.app, db.nextId) + 1;
        var release := Release(d.app, id, number, d.imageDigest, ConfigSnapshot(config));
        (Tables(
           if d.app !in db.apps then db.apps
           else db.apps[d.app := db.apps[d.app].(
                          current := Some(db.nextId),
                          config := if d.source.Rollback? then config else db.apps[d.app].config)],
           db.deployments[id := Moved(d, Healthy, "", "", at)],
           db.releases[db.nextId := release],
           db.nextId + 1),
         Ok(db.nextId))
  }

  /** The oldest unclaimed row satisfying the filter, at or above `from`. */
  function OldestUnclaimed(db: Tables, queued: bool, from: Id): (r: Option<Id>)
    ensures r.Some? ==>
              from <= r.value && r.value in db.deployments && Claimable(db.deployments[r.value], queued)
    ensures forall d | d in db.deployments && from <= d < db.nextId && Claimable(db.deployments[d], queued) ::
              r.Some? && r.value <= d
    decreases if from < db.nextId then db.nextId - from else 0
  {
    if from >= db.nextId then None
    else if from in db.deployments && Claimable(db.deployments[from], queued) then Some(from)
    else OldestUnclaimed(db, queued, from + 1)
  }

  predicate Claimable(d: Deployment, queued: bool) {
    d.claimedBy.None? && InFlight(d) && (queued <==> d.state == Queued)
  }

  /** Queued work first, and a stray only when there is none. */
  function NextClaim(db: Tables): Option<Id> {
    var queued := OldestUnclaimed(db, true, 0);
    if queued.Some? then queued else OldestUnclaimed(db, false, 0)
  }

  function ClaimNextTx(db: Tables, claimer: string): (Tables, Result<Id, StoreError>) {
    match NextClaim(db)
    case None => (db, Err(NotFound))
    case Some(d) => (db.(deployments := db.deployments[d := db.deployments[d].(claimedBy := Some(claimer))]), Ok(d))
  }

  function ReleaseClaimTx(db: Tables, id: Id): (Tables, bool) {
    if id in db.deployments && db.deployments[id].state == Building
    then (db.(deployments := db.deployments[id := db.deployments[id].(claimedBy := None)]), true)
    else (db, false)
  }

  // ---- Retention --------------------------------------------------------------------------

  /** Ended failed or cancelled before the cutoff. */
  predicate Aged(d: Deployment, cutoff: int) {
    (d.state == Failed || d.state == Cancelled) && d.finishedAt.Some? && d.finishedAt.value < cutoff
  }

  /** The events stamped at the cutoff or later, in the order they were written. */
  function Recent(log: seq<Event>, cutoff: int): seq<Event> {
    if log == [] then []
    else Recent(log[..|log| - 1], cutoff) + (if log[|log| - 1].at < cutoff then [] else [log[|log| - 1]])
  }

  /** A release's foreign key would refuse to let its deployment go. */
  predicate AgedReferenced(db: Tables, cutoff: int) {
    exists r :: r in db.releases && db.releases[r].deployment in db.deployments
                && Aged(db.deployments[db.releases[r].deployment], cutoff)
  }

  /** What has aged goes with its events, and so does every other event stamped before the cutoff. */
  function RetentionTx(db: Tables, cutoff: int): (Tables, Result<(), StoreError>) {
    if AgedReferenced(db, cutoff) then (db, Err(StillReferenced))
    else (db.(deployments := map d | d in db.deployments && !Aged(db.deployments[d], cutoff) ::
                db.deployments[d].(log := Recent(db.deployments[d].log, cutoff))),
          Ok(()))
  }

  // ---- Apps -------------------------------------------------------------------------------

  predicate SlugUsed(db: Tables, slug: string) {
    exists a :: a in db.apps && db.apps[a].slug == slug
  }

  predicate NameTaken(db: Tables, account: Id, name: string) {
    exists a :: a in db.apps && db.apps[a].account == account && db.apps[a].name == name && !db.apps[a].deleted
  }

  function LiveApps(db: Tables, account: Id): set<Id> {
    set a | a in db.apps && db.apps[a].account == account && !db.apps[a].deleted
  }

  /** The insert, retried with the next suffix while only the slug collided. */
  function InsertApp(db: Tables, account: Id, name: string, slugs: seq<string>): (Tables, Result<Id, StoreError>) {
    if slugs == [] then (db, Err(SlugTaken))
    else if NameTaken(db, account, name) then (db, Err(AppNameTaken))
    else if SlugUsed(db, slugs[0]) then InsertApp(db, account, name, slugs[1..])
    else (db.(apps := db.apps[db.nextId := App(account, name, slugs[0], None, false, map[])], nextId := db.nextId + 1),
          Ok(db.nextId))
  }

  function CreateAppTx(db: Tables, account: Id, name: string, slugs: seq<string>, limit: int)
    : (Tables, Result<Id, StoreError>)
  {
    if |LiveApps(db, account)| >= limit then (db, Err(AppLimit)) else InsertApp(db, account, name, slugs)
  }

  function SoftDeleteTx(db: Tables, app: Id): (Tables, Result<(), StoreError>) {
    if FindInFlight(db.deployments, app, db.nextId).Some? then (db, Err(DeploymentInFlight))
    else if !LiveApp(db, app) then (db, Err(NotFound))
    else (db.(apps := db.apps[app := db.apps[app].(deleted := true)]), Ok(()))
  }

  // ---- app_config -------------------------------------------------------------------------

  /** A missing app's foreign key failure is reported as a bad key: the code tells no constraint from another. */
  function SetConfigTx(db: Tables, app: Id, writes: seq<Write>): (Tables, Result<(), StoreError>) {
    if writes == [] then (db, Ok(()))
    else if app !in db.apps || exists w | w in writes :: !ValidKey(w.key) then (db, Err(InvalidKey))
    else (db.(apps := db.apps[app := db.apps[app].(config := Written(db.apps[app].config, writes))]), Ok(()))
  }

  /** Removing the keys one at a time, or None at the first one that is not there. */
  function Removed(c: Config, keys: seq<string>): Option<Config> {
    if keys == [] then Some(c)
    else
      match Removed(c, keys[..|keys| - 1])
      case None => None
      case Some(held) => if keys[|keys| - 1] in held then Some(held - {keys[|keys| - 1]}) else None
  }

  function UnsetConfigTx(db: Tables, app: Id, keys: seq<string>): (Tables, Result<(), StoreError>) {
    if keys == [] then (db, Ok(()))
    else if app !in db.apps then (db, Err(NotFound))
    else
      match Removed(db.apps[app].config, keys)
      case None => (db, Err(NotFound))
      case Some(c) => (db.(apps := db.apps[app := db.apps[app].(config := c)]), Ok(()))
  }
}
