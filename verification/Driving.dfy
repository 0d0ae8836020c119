/** The vocabulary of one drive: the row the loop holds, what a write may make of it, and what lasts. */
module Driving {
  import opened Basics
  import opened StateMachine
  import opened Configuration
  import opened Tables
  import opened Runs
  import opened Invariant
  import opened History
  import opened Releases
  import opened Drives
  import opened Clusters
  import opened Text
  import opened Calls

  const TIMEOUT := "timeout"
  const INTERNAL := "internal"
  const UPLOAD_INVALID := "upload_invalid"
  const SOURCE_REJECTED := "source_rejected"
  const BUILD_FAILED := "build_failed"
  const BUILD_NO_DIGEST := "build_no_digest"
  const IMAGE_RUNS_AS_ROOT := "image_runs_as_root"
  const APP_NEVER_READY := "app_never_ready"
  const ACCOUNT_SUSPENDED := "account_suspended"

  /** A reason, and whether the error behind it says the row was already ended. */
  datatype Failure = Failure(reason: string, ended: bool)

  datatype Reply = Done | NotInFlight | Fault

  function JobName(id: Id): string {
    "build-" + Decimal(id)
  }

  function ImageRepo(host: string, slug: string): string {
    host + "/apps/" + slug
  }

  /** A deployment as the loop reads it from the store. */
  datatype View = View(id: Id, app: Id, source: Source, state: State, buildPath: string, jobName: string,
                       imageRepo: string, imageDigest: string, createdAt: int)

  function DeploymentRow(id: Id, d: Deployment): View {
    View(id, d.app, d.source, d.state, d.buildPath, d.jobName, d.imageRepo, d.imageDigest, d.createdAt)
  }

  /** Every column the loop reads of a row is as the row holds it. */
  predicate ReadOf(v: View, d: Deployment) {
    && v.app == d.app && v.source == d.source && v.state == d.state && v.createdAt == d.createdAt
    && v.buildPath == d.buildPath && v.jobName == d.jobName && v.imageRepo == d.imageRepo
    && v.imageDigest == d.imageDigest
  }

  /** The loop's copy of a row is current, except that an agent may have cancelled the row. */
  predicate InSync(v: View, db: Tables) {
    && v.id in db.deployments
    && var d := db.deployments[v.id];
    && d.app == v.app && d.source == v.source && d.createdAt == v.createdAt && d.imageDigest == v.imageDigest
    && (d.state == v.state || d.state == Cancelled)
    && (v.state == Building || v.state == Pushing ==> v.source.Upload?)
    && (v.state == Deploying || v.source.Rollback? ==> v.imageDigest != "")
  }

  /** Where a phase leaves the row: still the loop's to drive, or not, and never yet healthy. */
  predicate Phase(v: View, db: Tables, failed: Option<Failure>) {
    && v.id in db.deployments && db.deployments[v.id].state != Healthy && db.deployments[v.id].state != Failed
    && match failed
       case None => InSync(v, db) && !Terminal(v.state)
       case Some(f) => f.reason != "" && (f.ended ==> Terminal(db.deployments[v.id].state))
  }

  lemma RowInSync(db: Tables, id: Id)
    requires Inv(db) && id in db.deployments
    ensures InSync(DeploymentRow(id, db.deployments[id]), db)
  {
  }

  lemma MoveGuard(v: View, db: Tables, to: State)
    requires InSync(v, db) && to in {Building, Pushing, Deploying}
    requires (to == Building ==> v.source.Upload?) && (to == Deploying ==> v.imageDigest != "")
    ensures forall at :: Guard(db, Action.Transition(v.id, to, "", "", at))
  {
  }

  lemma RecordGuard(v: View, db: Tables, path: string, job: string, repo: string, digest: string)
    requires InSync(v, db) && (v.state == Building || v.state == Pushing)
    ensures Guard(db, Action.RecordBuild(v.id, path, job, repo, digest))
  {
  }

  /** The row itself says nothing about the engine, the Job name or the repository the copy carries. */
  lemma Annotated(v: View, w: View, db: Tables, failed: Option<Failure>)
    requires Phase(v, db, failed) && w == v.(buildPath := w.buildPath, jobName := w.jobName, imageRepo := w.imageRepo)
    ensures Phase(w, db, failed)
  {
  }

  /** What a record may have made of a row: its annotations, once it is answered, and nothing of its state. */
  predicate Annotates(db: Tables, now: Tables, id: Id, path: string, job: string, digest: string, ok: bool) {
    && id in db.deployments && id in now.deployments
    && var d, e := db.deployments[id], now.deployments[id];
    && e.app == d.app && e.source == d.source && e.createdAt == d.createdAt
    && (e.state == d.state || e.state == Cancelled)
    && (e.imageDigest == d.imageDigest || (digest != "" && e.imageDigest == digest))
    && (ok ==> && e.imageDigest == (if digest != "" then digest else d.imageDigest)
               && e.jobName == (if job != "" then job else d.jobName)
               && e.buildPath == (if path != "" then path else d.buildPath))
  }

  /** And on an answer a copy annotated alike is current. */
  lemma RecordedRow(v: View, w: View, db: Tables, now: Tables, path: string, job: string, digest: string, ok: bool)
    requires Phase(v, db, None) && (v.state == Building || v.state == Pushing)
    requires Annotates(db, now, v.id, path, job, digest, ok)
    requires w == v.(buildPath := w.buildPath, jobName := w.jobName, imageRepo := w.imageRepo,
             imageDigest := w.imageDigest)
    requires w.imageDigest == Coalesce(digest, v.imageDigest)
    ensures v.id in now.deployments && now.deployments[v.id].state !in {Healthy, Failed, Deploying}
    ensures ok || digest == "" ==> Phase(w, now, None)
    ensures ok && job != "" ==> now.deployments[v.id].jobName == job
    ensures ok && path != "" ==> now.deployments[v.id].buildPath == path
    ensures ok ==> now.deployments[v.id].imageDigest == w.imageDigest
  {
  }

  lemma InDeploying(v: View, db: Tables)
    requires Phase(v, db, None) && v.state == Deploying
    ensures db.deployments[v.id].state == Deploying || db.deployments[v.id].state == Cancelled
    ensures db.deployments[v.id].imageDigest == v.imageDigest
  {
  }

  lemma NotEndedYet(v: View, db: Tables)
    requires Phase(v, db, None)
    ensures v.id in db.deployments && db.deployments[v.id].state != Healthy && db.deployments[v.id].state != Failed
  {
  }

  lemma HasDigest(v: View, db: Tables)
    requires Phase(v, db, None) && (v.source.Rollback? || v.state == Deploying)
    ensures v.imageDigest != ""
  {
  }

  lemma SourceKnown(db: Tables, id: Id)
    requires Inv(db) && id in db.deployments
    ensures db.deployments[id].source.Rollback? ==> db.deployments[id].source.release in db.releases
  {
    hide Inv;
    if db.deployments[id].source.Rollback? {
      SourceExists(db, id);
    }
  }

  lemma BuildsUpload(v: View, db: Tables)
    requires Phase(v, db, None) && (v.state == Building || v.state == Pushing)
    ensures v.source.Upload?
  {
  }

  lemma FailGuard(db: Tables, id: Id, reason: string)
    requires reason != ""
    ensures forall at :: Guard(db, Action.Transition(id, Failed, reason, "", at))
  {
  }

  lemma AnyInstant(db: Tables, id: Id, config: Config)
    requires Guard(db, Action.MarkHealthy(id, config, 0))
    ensures forall at :: Guard(db, Action.MarkHealthy(id, config, at))
  {
  }

  lemma SnapshotEntriesOk(db: Tables, r: Id)
    requires Inv(db) && r in db.releases
    ensures DecodeSnapshot(db.releases[r].snapshot).Ok? && EntriesOk(DecodeSnapshot(db.releases[r].snapshot).value)
  {
    hide Inv, DecodeSnapshot, EntriesOk;
    ReleaseStands(db, r);
  }

  lemma StoredEntriesOk(db: Tables, app: Id, config: Config)
    requires Inv(db) && config == if app in db.apps then db.apps[app].config else map[]
    ensures EntriesOk(config)
  {
  }

  lemma AppKnown(db: Tables, id: Id)
    requires Inv(db)
    ensures id in db.deployments ==> db.deployments[id].app in db.apps
  {
  }

  /** What a transition asked for may have made of the row, agents included. */
  predicate Moves(d: Deployment, e: Deployment, to: State, reason: string, lost: bool) {
    && e.app == d.app && e.source == d.source && e.createdAt == d.createdAt && e.imageDigest == d.imageDigest
    && e.jobName == d.jobName
    && (lost || e.state == Cancelled ==> AgentKept(d, e))
    && (Terminal(d.state) ==> e == d)
    && (e.state == d.state || e.state == Cancelled || e.state == to)
    && (!lost && CanTransition(d.state, to) ==>
          e.state == Cancelled || (e.state == to && (to == Failed ==> e.failureReason == reason)))
  }

  lemma TransitionMoves(db: Tables, id: Id, to: State, reason: string, detail: string, at: int, d: Deployment)
    requires id in db.deployments && AgentKept(d, db.deployments[id])
    requires Guard(db, Action.Transition(id, to, reason, detail, at))
    ensures var after, r := TransitionTx(db, id, to, reason, detail, at).0,
            TransitionTx(db, id, to, reason, detail, at).1;
            && id in after.deployments && Moves(d, after.deployments[id], to, reason, false)
            && (r.Ok? ==> after.deployments[id].state == to)
            && (r == Err(TerminalState) ==> Terminal(after.deployments[id].state))
            && (CanTransition(d.state, to) || Terminal(d.state) ==> r.Ok? || r == Err(TerminalState))
  {
  }

  lemma ApplyTransition(db: Tables, id: Id, to: State, reason: string, detail: string, at: int)
    ensures var a := Action.Transition(id, to, reason, detail, at);
            && Apply(db, a) == TransitionTx(db, id, to, reason, detail, at).0
            && AnswerTo(db, a) == Answered(id, TransitionTx(db, id, to, reason, detail, at).1)
  {
  }

  lemma ApplyMarkHealthy(db: Tables, id: Id, config: Config, at: int)
    ensures var a := Action.MarkHealthy(id, config, at);
            && Apply(db, a) == MarkHealthyTx(db, id, config, at).0
            && AnswerTo(db, a) == MarkHealthyTx(db, id, config, at).1
  {
  }

  lemma KeptPromoted(d: Deployment, db: Tables, id: Id, config: Config)
    requires id in db.deployments && AgentKept(d, db.deployments[id])
    ensures Promoted(d, db, id, config)
  {
  }

  lemma LostMoves(d: Deployment, e: Deployment, to: State, reason: string)
    requires AgentKept(d, e)
    ensures Moves(d, e, to, reason, true)
  {
  }

  lemma FailedOnlyFor(c: Deployment, d: Deployment, e: Deployment, reason: string, lost: bool)
    requires AgentKept(c, d) && Moves(d, e, Failed, reason, lost) && c.state != Failed
    ensures e.state == Healthy ==> d.state == Healthy
    ensures e.state == Failed ==> !lost && e.failureReason == reason
  {
    if InFlight(d) {
      MovesClimb(d.state, Failed);
    }
  }

  /** So a move that landed where the table allows it is made, but for a supersession, and no other is. */
  lemma MovesSays(d: Deployment, e: Deployment, to: State, reason: string, lost: bool)
    requires Moves(d, e, to, reason, lost)
    ensures !lost && CanTransition(d.state, to) ==>
              e.state == Cancelled || (e.state == to && (to == Failed ==> e.failureReason == reason))
    ensures e.state in {d.state, Cancelled, to} && (lost ==> e.state in {d.state, Cancelled})
    ensures e.app == d.app && e.source == d.source && e.createdAt == d.createdAt && e.imageDigest == d.imageDigest
    ensures e.jobName == d.jobName
    ensures d.state in {Healthy, Failed, Cancelled} ==> e == d
  {
  }

  /** And a row made healthy has its release, with this configuration, under a live app. */
  lemma PromotedSays(d: Deployment, db: Tables, id: Id, config: Config)
    requires Promoted(d, db, id, config)
    ensures var e := db.deployments[id];
            && e.state in {d.state, Cancelled, Healthy} && e.app == d.app && e.source == d.source
            && e.createdAt == d.createdAt && e.imageDigest == d.imageDigest
    ensures db.deployments[id].state == Healthy && d.state != Healthy ==>
              && db.deployments[id].app in db.apps && !db.apps[db.deployments[id].app].deleted
              && exists r :: r in db.releases && db.releases[r].deployment == id
                             && db.releases[r].imageDigest == db.deployments[id].imageDigest
                             && DecodeSnapshot(db.releases[r].snapshot) == Ok(config)
  {
    hide DecodeSnapshot;
  }

  /** Failed for this reason, or superseded first. */
  predicate EndedFor(d: Deployment, reason: string) {
    d.state == Cancelled || (d.state == Failed && d.failureReason == reason)
  }

  /** A release minted for this deployment: its own digest, exactly this configuration, and now current. */
  predicate Minted(db: Tables, id: Id, config: Config)
    requires id in db.deployments
  {
    exists r :: r in db.releases && db.releases[r].deployment == id
                && db.releases[r].imageDigest == db.deployments[id].imageDigest
                && DecodeSnapshot(db.releases[r].snapshot) == Ok(config)
  }

  /** What MarkHealthy may have made of a row: it is healthy only with its release, and its app still live. */
  predicate Promoted(d: Deployment, db: Tables, id: Id, config: Config) {
    && id in db.deployments
    && var e := db.deployments[id];
    && e.app == d.app && e.source == d.source && e.createdAt == d.createdAt && e.imageDigest == d.imageDigest
    && (e.state == d.state || e.state == Cancelled || e.state == Healthy)
    && (e.state == Healthy && d.state != Healthy ==> Minted(db, id, config) && LiveApp(db, e.app))
  }

  lemma MarkHealthyPromotes(db: Tables, id: Id, config: Config, at: int, d: Deployment)
    requires Inv(db) && id in db.deployments && AgentKept(d, db.deployments[id])
    ensures var after, r := MarkHealthyTx(db, id, config, at).0, MarkHealthyTx(db, id, config, at).1;
            && Promoted(d, after, id, config)
            && (r.Ok? ==> after.deployments[id].state == Healthy)
            && (r == Err(TerminalState) ==> Terminal(after.deployments[id].state))
  {
    hide Inv, MarkHealthyTx, ConfigSnapshot, DecodeSnapshot, RowReplays, HasRelease, MaxReleaseNumber;
    MarkHealthyRefused(db, id, config, at);
    MarkHealthyTerminal(db, id, config, at);
    if MarkHealthyTx(db, id, config, at).1.Ok? {
      var after, row := MarkHealthyEffect(db, id, config, at);
      SnapshotRoundTrip(config);
      DeploymentStands(db, id);
      assert after.releases[db.nextId].deployment == id;
    }
  }

  lemma MarkHealthyTerminal(db: Tables, id: Id, config: Config, at: int)
    requires id in db.deployments
    ensures MarkHealthyTx(db, id, config, at).1 == Err(TerminalState) <==> Terminal(db.deployments[id].state)
  {
  }

  /** Everything a contract compares with later: the run, the log, the clock, the flags and the cluster. */
  datatype Mark = Mark(
    trace: seq<Action>, calls: seq<Call>, boot: nat, db: Tables, now: int, dead: bool, cancelled: bool,
    cluster: Cluster)

  /** From one point to a later one, only agents wrote, and the loop about these deployments. */
  predicate Went(a: Mark, b: Mark, ids: set<Id>) {
    && Only(a.trace, b.trace, ids) && Evolves(a.db, b.db)
    && a.now <= b.now && (a.dead ==> b.dead) && (a.cancelled ==> b.cancelled)
  }

  /** The log went on, by one process, and what it says was committed is what was. */
  predicate Grew(a: Mark, b: Mark) {
    && a.calls <= b.calls && b.trace == a.trace + CommittedBy(b.calls[|a.calls|..])
    && a.boot == b.boot && (forall k | |a.calls| <= k < |b.calls| :: b.calls[k].boot == b.boot)
  }

  predicate Later(a: Mark, b: Mark, ids: set<Id>) {
    Went(a, b, ids) && Grew(a, b)
  }

  /** The whole of the log, from the first call of the first process on, is as the world has it. */
  predicate Logged(w: World, o: Options, since: int, history: seq<Action>, m: Mark) {
    && Booked(w, o.interval, since, m.calls)
    && AllProper(o, since, m.calls, m.db)
    && AllWarranted(w, m.calls, m.db)
    && m.trace == history + CommittedBy(m.calls)
    && m.now == Clock(since, m.calls)
    && m.boot <= |m.calls|
    && m.dead == DiedSince(w, m.boot, |m.calls|)
    && m.cancelled == ToldSince(w, m.boot, |m.calls|)
  }

  /** The app was deleted, and its namespace may be gone from under the deployment. */
  predicate Torn(db: Tables, app: Id) {
    app in db.apps && Retired(db, db.apps[app].slug)
  }

  /**
   * Why a failure between two points is given its reason: what the log shows of the calls in between,
   * or a time that has run out.
   */
  predicate Because(w: World, o: Options, a: Mark, b: Mark, ctx: Context, id: Id, app: Id, reason: string) {
    var calls, from := b.calls, |a.calls|;
    || (reason == TIMEOUT && ExpiredAt(ctx, b.now, b.cancelled))
    || (reason == INTERNAL && (Shown(w, calls, from, NoAnswer) || Torn(b.db, app)))
    || (reason == ACCOUNT_SUSPENDED && Shown(w, calls, from, SuspendedSaid(app)))
    || (reason == UPLOAD_INVALID && Shown(w, calls, from, NoUpload(id)))
    || (reason == SOURCE_REJECTED && Shown(w, calls, from, RejectedSaid(id)))
    || (reason == BUILD_FAILED
        && (Shown(w, calls, from, JobSaid(id, JobFailed)) || Shown(w, calls, from, JobSaid(id, JobGone))
            || (Shown(w, calls, from, JobAsked(id)) && a.now + o.buildTimeout <= b.now)))
    || (reason == BUILD_NO_DIGEST && Shown(w, calls, from, NoManifest(id)))
    || (reason == IMAGE_RUNS_AS_ROOT && Shown(w, calls, from, RunsAsRoot(id)))
    || (reason == APP_NEVER_READY && Shown(w, calls, from, ReadyAsked(id)) && a.now + o.readyTimeout <= b.now)
  }

  lemma BecauseSince(w: World, o: Options, a: Mark, b: Mark, ids: set<Id>, c: Mark, ctx: Context, id: Id, app: Id,
                     reason: string)
    requires Later(a, b, ids) && Because(w, o, b, c, ctx, id, app, reason)
    ensures Because(w, o, a, c, ctx, id, app, reason)
  {
    hide Shown, Only, Evolves, Torn;
    forall e | Shown(w, c.calls, |b.calls|, e) ensures Shown(w, c.calls, |a.calls|, e) {
      ShownMore(w, c.calls, |b.calls|, c.calls, |a.calls|, e);
    }
  }

  lemma BecauseStill(w: World, o: Options, a: Mark, b: Mark, c: Mark, ids: set<Id>, ctx: Context, id: Id, app: Id,
                     reason: string)
    requires Later(b, c, ids) && Because(w, o, a, b, ctx, id, app, reason)
    ensures Because(w, o, a, c, ctx, id, app, reason)
  {
    hide Shown, Only, Retired;
    if Torn(b.db, app) {
      RetiredForever(b.db, c.db, b.db.apps[app].slug);
    }
    forall e | Shown(w, b.calls, |a.calls|, e) ensures Shown(w, c.calls, |a.calls|, e) {
      ShownMore(w, b.calls, |a.calls|, c.calls, |a.calls|, e);
    }
  }

  /** One more call, and what it and the agents before it committed. */
  lemma LoggedNext(w: World, o: Options, since: int, history: seq<Action>, m: Mark, n: Mark, c: Call)
    requires Logged(w, o, since, history, m) && n.calls == m.calls + [c]
    requires Befell(w, o.interval, m.now, |m.calls|, c) && Proper(o, since, m.calls, c.what, c.ctx, m.db)
    requires Warranted(w, m.calls, c.what, m.db) && Evolves(m.db, n.db) && n.boot == m.boot == c.boot
    requires n.trace == m.trace + c.agents + LandedBy(c) && n.now == c.until
    requires n.dead == DiedSince(w, n.boot, |n.calls|) && n.cancelled == ToldSince(w, n.boot, |n.calls|)
    ensures Logged(w, o, since, history, n) && Grew(m, n)
  {
    hide Befell, Warranted, LandedBy, Evolves, Booked, AllWarranted, CommittedBy, DiedSince, ToldSince, Proper,
         AllProper;
    BookedNext(w, o.interval, since, m.calls, c);
    WarrantedNext(w, m.calls, c, m.db);
    ProperNext(o, since, m.calls, c, m.db);
    SourcesKept(m.db, n.db);
    WarrantsLast(w, n.calls, m.db, n.db);
    ProperLasts(o, since, n.calls, m.db, n.db);
    assert n.calls[|m.calls|..] == [c];
    CommittedLast(history, m.calls, c);
    CommittedOne(m.trace, c);
  }

  lemma SourcesKept(a: Tables, b: Tables)
    requires Evolves(a, b)
    ensures forall d | d in a.deployments ::
              && d in b.deployments && b.deployments[d].source == a.deployments[d].source
              && b.deployments[d].createdAt == a.deployments[d].createdAt
  {
  }

  /**
   * One write, from what its caller knew: `mid` is what the agents had made of the tables by then, and
   * the write changes them, and is answered, exactly when it was not lost.
   */
  ghost predicate Wrote(known: Tables, what: What, at: int, fate: Fate, answer: Result<Id, StoreError>, mid: Tables,
                        now: Tables)
    requires what.Row().Some?
  {
    var id, a := what.Row().value, ActionOf(what, at).value;
    && Inv(mid) && Guard(mid, a)
    && id in known.deployments && id in mid.deployments && AgentKept(known.deployments[id], mid.deployments[id])
    && now == (if fate == Lost then mid else Apply(mid, a))
    && (fate != Lost ==> answer == AnswerTo(mid, a))
  }

  lemma WentEvolves(a: Mark, b: Mark, ids: set<Id>)
    requires Went(a, b, ids)
    ensures Evolves(a.db, b.db) && a.now <= b.now
  {
  }

  /** The log is no part of what the agents and the loop did. */
  lemma OneMoreCall(a: Mark, m: Mark, n: Mark, ids: set<Id>)
    requires n == m.(calls := n.calls) && Went(a, m, ids)
    ensures Went(a, n, ids) && (HandsOff(a, m) ==> HandsOff(a, n))
  {
  }

  lemma RowOf(what: What, at: int)
    requires what.Row().Some?
    ensures ActionOf(what, at).Some? && Subject(ActionOf(what, at).value) == what.Row()
  {
  }

  lemma MoreIds(a: Mark, b: Mark, ids: set<Id>)
    requires Went(a, b, {})
    ensures Went(a, b, ids)
  {
    hide Evolves;
  }

  lemma StillDead(a: Mark, b: Mark, ids: set<Id>)
    requires Later(a, b, ids)
    ensures a.dead ==> b.dead
  {
  }

  /** From one point to a later one, this process left the cluster alone. */
  predicate HandsOff(a: Mark, b: Mark) {
    Spared(a.db, a.cluster, a.now, b.db, b.cluster)
  }

  lemma Going(a: Mark, b: Mark, first: set<Id>, c: Mark, second: set<Id>, ids: set<Id>)
    requires Went(a, b, first) && Went(b, c, second) && first <= ids && second <= ids
    ensures Went(a, c, ids)
    ensures HandsOff(a, b) && HandsOff(b, c) ==> HandsOff(a, c)
  {
    hide Evolves, Spared, About;
    EvolvesTransitive(a.db, b.db, c.db);
    if HandsOff(a, b) && HandsOff(b, c) {
      SparedTwice(a.db, a.cluster, a.now, b.db, b.cluster, b.now, c.db, c.cluster);
    }
    forall k | |a.trace| <= k < |c.trace| ensures About(c.trace[k], ids) {
      if k < |b.trace| {
        AboutMore(b.trace[k], first, ids);
        assert c.trace[k] == b.trace[k];
      } else {
        AboutMore(c.trace[k], second, ids);
      }
    }
  }

  lemma Growing(a: Mark, b: Mark, c: Mark)
    requires Grew(a, b) && Grew(b, c)
    ensures Grew(a, c)
  {
    hide CommittedBy;
    var first, second := b.calls[|a.calls|..], c.calls[|b.calls|..];
    CommittedOn(first, second);
    assert c.calls[|a.calls|..] == first + second;
    assert (a.trace + CommittedBy(first)) + CommittedBy(second) == a.trace + (CommittedBy(first) + CommittedBy(second));
  }

  lemma Then(a: Mark, b: Mark, first: set<Id>, c: Mark, second: set<Id>, ids: set<Id>)
    requires Later(a, b, first) && Later(b, c, second) && first <= ids && second <= ids
    ensures Later(a, c, ids) && a.calls <= b.calls <= c.calls
    ensures HandsOff(a, b) && HandsOff(b, c) ==> HandsOff(a, c)
  {
    hide Went, HandsOff, Grew;
    Going(a, b, first, c, second, ids);
    Growing(a, b, c);
    Prefixes(a, b);
    Prefixes(b, c);
  }

  lemma Prefixes(a: Mark, b: Mark)
    requires Grew(a, b)
    ensures a.calls <= b.calls
  {
  }

  lemma AboutMore(a: Action, ids: set<Id>, more: set<Id>)
    requires About(a, ids) && ids <= more
    ensures About(a, more)
  {
  }

  /** The app's namespace runs the release this deployment minted: its digest, and its configuration in the Secret. */
  predicate Serving(db: Tables, cluster: Cluster, slug: string, digest: string, values: map<string, string>) {
    if slug in cluster
    then cluster[slug].fenced && cluster[slug].secret == Some(values)
        && cluster[slug].workload == Some(Workload(digest, values))
    else Retired(db, slug)
  }

  ghost predicate Shipped(db: Tables, cluster: Cluster, id: Id) {
    && id in db.deployments && db.deployments[id].app in db.apps
    && exists config :: Minted(db, id, config)
         && Serving(db, cluster, db.apps[db.deployments[id].app].slug, db.deployments[id].imageDigest, Values(config))
  }

  /** How a drive's walk ends: healthy, or with a failure to record; and healthy only with what it shipped. */
  ghost predicate Outcome(id: Id, db: Tables, cluster: Cluster, failed: Option<Failure>) {
    && id in db.deployments && db.deployments[id].state != Failed
    && (db.deployments[id].state == Healthy ==> Shipped(db, cluster, id))
    && match failed
       case None => db.deployments[id].state == Healthy
       case Some(f) => f.reason != "" && (f.ended ==> Terminal(db.deployments[id].state))
  }

  lemma MintedStays(a: Mark, b: Mark, ids: set<Id>, id: Id, config: Config)
    requires Later(a, b, ids) && id in a.db.deployments && a.db.deployments[id].state == Healthy
    requires Minted(a.db, id, config)
    ensures id in b.db.deployments && Minted(b.db, id, config)
    ensures b.db.deployments[id].app == a.db.deployments[id].app
    ensures b.db.deployments[id].imageDigest == a.db.deployments[id].imageDigest
  {
  }

  lemma ReleaseKept(a: Mark, b: Mark, ids: set<Id>, r: Id)
    requires Later(a, b, ids) && r in a.db.releases
    ensures r in b.db.releases
  {
  }

  lemma SlugStays(a: Mark, b: Mark, ids: set<Id>, app: Id)
    requires Later(a, b, ids) && app in a.db.apps
    ensures app in b.db.apps && b.db.apps[app].slug == a.db.apps[app].slug && SlugUsed(b.db, a.db.apps[app].slug)
  {
  }

  lemma ServingStays(a: Mark, b: Mark, ids: set<Id>, slug: string, digest: string, values: map<string, string>)
    requires Later(a, b, ids) && HandsOff(a, b) && Serving(a.db, a.cluster, slug, digest, values)
    ensures Serving(b.db, b.cluster, slug, digest, values)
  {
  }

  lemma ShippedStays(a: Mark, b: Mark, ids: set<Id>, id: Id)
    requires Later(a, b, ids) && HandsOff(a, b) && Shipped(a.db, a.cluster, id) && a.db.deployments[id].state == Healthy
    ensures Shipped(b.db, b.cluster, id)
  {
    hide Later, HandsOff, Minted, Serving;
    var config :| Minted(a.db, id, config)
      && Serving(a.db, a.cluster, a.db.apps[a.db.deployments[id].app].slug, a.db.deployments[id].imageDigest,
         Values(config));
    MintedStays(a, b, ids, id, config);
    SlugStays(a, b, ids, a.db.deployments[id].app);
    ServingStays(a, b, ids, a.db.apps[a.db.deployments[id].app].slug, a.db.deployments[id].imageDigest, Values(config));
  }

  /** What the log shows from a call on of whatever of this row's build was still to do. */
  predicate Earned(w: World, calls: seq<Call>, from: nat, v: View, digest: string) {
    v.source.Upload? ==>
      && (v.state == Queued || v.state == Building ==> Shown(w, calls, from, JobSaid(v.id, JobSucceeded)))
      && (v.state == Queued || v.state == Building || v.state == Pushing ==>
            && Shown(w, calls, from, DigestSaid(v.id, digest)) && Shown(w, calls, from, RootSaid(v.id, digest, false)))
  }

  lemma EarnedMore(w: World, a: seq<Call>, i: nat, b: seq<Call>, j: nat, u: View, v: View, digest: string)
    requires Earned(w, a, i, u, digest) && a <= b && j <= i && u.id == v.id && u.source == v.source
    requires u.state == v.state || (v.state == Queued && (u.state == Building || v.source.Rollback?))
    ensures Earned(w, b, j, v, digest)
  {
    hide Shown;
    forall e | Shown(w, a, i, e) ensures Shown(w, b, j, e) {
      ShownMore(w, a, i, b, j, e);
    }
  }

  lemma EndedRowStays(a: Tables, b: Tables, id: Id)
    requires Evolves(a, b) && id in a.deployments
    ensures id in b.deployments
    ensures Terminal(a.deployments[id].state) ==>
              b.deployments[id].state == a.deployments[id].state
                  && b.deployments[id].failureReason == a.deployments[id].failureReason
  {
    assert RowEvolves(a.deployments[id], b.deployments[id]);
  }

  /** The row has ended, or the write that was to fail it was lost. */
  predicate EndedUnlessLost(w: World, calls: seq<Call>, from: nat, id: Id, db: Tables) {
    id in db.deployments && (InFlight(db.deployments[id]) ==> Shown(w, calls, from, FailureLost(id)))
  }

  lemma EndedMore(w: World, a: seq<Call>, i: nat, x: Tables, b: seq<Call>, j: nat, y: Tables, id: Id)
    requires EndedUnlessLost(w, a, i, id, x) && Evolves(x, y) && a <= b && j <= i
    ensures EndedUnlessLost(w, b, j, id, y)
  {
    hide Evolves, Shown;
    EndedRowStays(x, y, id);
    if InFlight(x.deployments[id]) {
      ShownMore(w, a, i, b, j, FailureLost(id));
    }
  }

  predicate EndedAt(db: Tables, id: Id) {
    id in db.deployments && Terminal(db.deployments[id].state)
  }

  /** So in a world that loses nothing it has ended. */
  lemma EndsInKindWorld(w: World, calls: seq<Call>, from: nat, id: Id, db: Tables)
    requires EndedUnlessLost(w, calls, from, id, db)
    ensures Kind(w, calls, from) ==> EndedAt(db, id)
  {
    hide DiedSince;
  }

  lemma KindSince(w: World, a: seq<Call>, from: nat, b: seq<Call>, later: nat)
    requires a <= b && from <= later
    ensures Kind(w, b, from) ==> Kind(w, a, later)
  {
    hide DiedSince;
    assert forall k | later <= k < |a| :: a[k] == b[k];
  }

  /** The drive's own deadline. */
  function Budget(o: Options, v: View): Context {
    Context(Some(v.createdAt + o.deployTimeout), false)
  }

  /** The row's engine is the one its archive asks for. */
  predicate Engineered(w: World, calls: seq<Call>, db: Tables, id: Id) {
    id in db.deployments && EngineIs(w, calls, 0, id, db.deployments[id].buildPath)
  }

  /** Healthy only with what it shipped, said to be ready, from whatever of its build was said to be fit. */
  ghost predicate Fared(w: World, from: nat, m: Mark, v: View) {
    && v.id in m.db.deployments
    && (m.db.deployments[v.id].state == Healthy ==>
          && Shipped(m.db, m.cluster, v.id)
          && Shown(w, m.calls, from, ReadySaid(v.id))
          && Earned(w, m.calls, from, v, m.db.deployments[v.id].imageDigest)
          && (v.source.Upload? && v.state == Queued ==> Engineered(w, m.calls, m.db, v.id)))
  }

  /** At that point the loop wrote this failure, on grounds it had by then. */
  ghost predicate WrittenAt(w: World, o: Options, start: Mark, b: Mark, m: Mark, v: View, reason: string) {
    && |start.calls| <= |b.calls| < |m.calls| && b.calls <= m.calls && Evolves(b.db, m.db)
    && var c := m.calls[|b.calls|];
    && c.what == MoveRow(v.id, Failed, reason) && c.fate != Lost
    && b.now == c.at - w(|b.calls|).elapsed && b.cancelled == ToldSince(w, c.boot, |b.calls|)
    && Because(w, o, start, b, Budget(o, v), v.id, v.app, reason)
  }

  ghost predicate FailedFor(w: World, o: Options, start: Mark, m: Mark, v: View, reason: string) {
    exists b :: WrittenAt(w, o, start, b, m, v, reason)
  }

  lemma FailedForStill(w: World, o: Options, start: Mark, m: Mark, n: Mark, v: View, reason: string)
    requires FailedFor(w, o, start, m, v, reason) && m.calls <= n.calls && Evolves(m.db, n.db)
    ensures FailedFor(w, o, start, n, v, reason)
  {
    hide Because, Evolves;
    var b :| WrittenAt(w, o, start, b, m, v, reason);
    EvolvesTransitive(b.db, m.db, n.db);
    assert WrittenAt(w, o, start, b, n, v, reason);
  }

  /**
   * What a drive has made of its row: ended, unless the write of its failure was lost; healthy only with
   * what it shipped, on the word of the cluster and the registry; failed only for a reason borne out by
   * the time it was written.
   */
  ghost predicate Driven(w: World, o: Options, start: Mark, m: Mark, v: View) {
    && Fared(w, |start.calls|, m, v)
    && EndedUnlessLost(w, m.calls, |start.calls|, v.id, m.db)
    && (m.db.deployments[v.id].state == Failed ==>
          FailedFor(w, o, start, m, v, m.db.deployments[v.id].failureReason))
  }

  /** Healthy, in full: what was said of it, what its namespace runs and what its release holds. */
  lemma HealthySays(w: World, o: Options, start: Mark, m: Mark, v: View)
    requires Driven(w, o, start, m, v) && m.db.deployments[v.id].state == Healthy
    ensures Shown(w, m.calls, |start.calls|, ReadySaid(v.id))
    ensures v.source.Upload? && v.state in {Queued, Building} ==>
              Shown(w, m.calls, |start.calls|, JobSaid(v.id, JobSucceeded))
    ensures v.source.Upload? && v.state in {Queued, Building, Pushing} ==>
              && Shown(w, m.calls, |start.calls|, DigestSaid(v.id, m.db.deployments[v.id].imageDigest))
              && Shown(w, m.calls, |start.calls|, RootSaid(v.id, m.db.deployments[v.id].imageDigest, false))
    ensures v.source.Upload? && v.state == Queued ==>
              || (m.db.deployments[v.id].buildPath == "dockerfile" && Shown(w, m.calls, 0, EngineSaid(v.id, true)))
              || (m.db.deployments[v.id].buildPath == "buildpacks" && Shown(w, m.calls, 0, EngineSaid(v.id, false)))
    ensures m.db.deployments[v.id].app in m.db.apps
    ensures exists r: Id, config :: ShippedAs(m, v.id, r, config)
  {
    hide Shown;
    var config :| Minted(m.db, v.id, config)
      && Serving(m.db, m.cluster, m.db.apps[m.db.deployments[v.id].app].slug, m.db.deployments[v.id].imageDigest,
         Values(config));
    var r :| r in m.db.releases && m.db.releases[r].deployment == v.id
      && m.db.releases[r].imageDigest == m.db.deployments[v.id].imageDigest
      && DecodeSnapshot(m.db.releases[r].snapshot) == Ok(config);
    assert ShippedAs(m, v.id, r, config);
  }

  /** The release holds this configuration, and the namespace runs it, fenced, unless its app has been deleted. */
  predicate ShippedAs(m: Mark, id: Id, r: Id, config: Config)
    requires id in m.db.deployments && m.db.deployments[id].app in m.db.apps
  {
    var d, slug := m.db.deployments[id], m.db.apps[m.db.deployments[id].app].slug;
    && r in m.db.releases && m.db.releases[r].deployment == id && m.db.releases[r].imageDigest == d.imageDigest
    && DecodeSnapshot(m.db.releases[r].snapshot) == Ok(config)
    && (slug in m.cluster ==>
          && m.cluster[slug].fenced && m.cluster[slug].secret == Some(Values(config))
          && m.cluster[slug].workload == Some(Workload(d.imageDigest, Values(config))))
    && (slug !in m.cluster ==> exists a :: a in m.db.apps && m.db.apps[a].slug == slug && m.db.apps[a].deleted)
  }

  /** In flight still: the failure was written, and what lost it. */
  lemma InFlightSays(w: World, o: Options, start: Mark, m: Mark, v: View)
    requires Driven(w, o, start, m, v) && m.db.deployments[v.id].state in {Queued, Building, Pushing, Deploying}
    ensures Shown(w, m.calls, |start.calls|, FailureLost(v.id))
  {
    hide Shown;
    assert InFlight(m.db.deployments[v.id]);
  }

  /** What a recorded reason rests on, by the n-th call, which wrote it. */
  predicate Rests(w: World, o: Options, start: Mark, m: Mark, v: View, reason: string, n: nat)
    requires |start.calls| <= n < |m.calls|
  {
    var calls, from, now := m.calls[..n], |start.calls|, m.calls[n].at - w(n).elapsed;
    match reason
    case "timeout" => v.createdAt + o.deployTimeout <= now || ToldSince(w, m.calls[n].boot, n)
    case "internal" =>
      || Shown(w, calls, from, NoAnswer)
      || (v.app in m.db.apps
          && exists a :: a in m.db.apps && m.db.apps[a].slug == m.db.apps[v.app].slug && m.db.apps[a].deleted)
    case "account_suspended" => Shown(w, calls, from, SuspendedSaid(v.app))
    case "upload_invalid" => Shown(w, calls, from, NoUpload(v.id))
    case "source_rejected" => Shown(w, calls, from, RejectedSaid(v.id))
    case "build_failed" =>
      || Shown(w, calls, from, JobSaid(v.id, JobFailed)) || Shown(w, calls, from, JobSaid(v.id, JobGone))
      || start.now + o.buildTimeout <= now
    case "build_no_digest" => Shown(w, calls, from, NoManifest(v.id))
    case "image_runs_as_root" => Shown(w, calls, from, RunsAsRoot(v.id))
    case "app_never_ready" => start.now + o.readyTimeout <= now
    case _ => false
  }

  /** Failed, in full: one landed write of the loop failed it, and the reason it gave had its ground by then. */
  lemma FailedSays(w: World, o: Options, start: Mark, m: Mark, v: View) returns (n: nat)
    requires Driven(w, o, start, m, v) && m.db.deployments[v.id].state == Failed
    ensures |start.calls| <= n < |m.calls| && m.calls[n].fate != Lost
    ensures m.calls[n].what == MoveRow(v.id, Failed, m.db.deployments[v.id].failureReason)
    ensures Rests(w, o, start, m, v, m.db.deployments[v.id].failureReason, n)
  {
    hide Shown, ToldSince, EndedUnlessLost, Evolves, Shipped, Earned, Engineered;
    var reason := m.db.deployments[v.id].failureReason;
    var b :| WrittenAt(w, o, start, b, m, v, reason);
    n := |b.calls|;
    assert m.calls[..n] == b.calls;
    if Torn(b.db, v.app) {
      RetiredForever(b.db, m.db, b.db.apps[v.app].slug);
      AppThere(b.db, m.db, v.app);
    }
  }

  lemma AppThere(a: Tables, b: Tables, app: Id)
    requires Evolves(a, b) && app in a.apps
    ensures app in b.apps && b.apps[app].slug == a.apps[app].slug
  {
  }

  lemma FaredStill(w: World, from: nat, m: Mark, early: nat, n: Mark, ids: set<Id>, u: View, v: View)
    requires Fared(w, from, m, u) && Later(m, n, ids) && HandsOff(m, n) && early <= from
    requires u.id == v.id && u.source == v.source && u.state == v.state && v.id in n.db.deployments
    requires n.db.deployments[v.id].state == Healthy ==> m.db.deployments[v.id].state == Healthy
    ensures Fared(w, early, n, v)
  {
    hide HandsOff, Went, Grew, Shown, Earned, Shipped;
    Prefixes(m, n);
    if n.db.deployments[v.id].state == Healthy {
      ShippedStays(m, n, ids, v.id);
      ShownMore(w, m.calls, from, n.calls, early, ReadySaid(v.id));
      HealthyKeeps(m, n, ids, v.id);
      EarnedMore(w, m.calls, from, n.calls, early, u, v, m.db.deployments[v.id].imageDigest);
      if v.source.Upload? && v.state == Queued {
        EngineMore(w, m.calls, 0, n.calls, 0, v.id, m.db.deployments[v.id].buildPath);
      }
    }
  }

  lemma HealthyKeeps(a: Mark, b: Mark, ids: set<Id>, id: Id)
    requires Later(a, b, ids) && id in a.db.deployments && a.db.deployments[id].state == Healthy
    ensures id in b.db.deployments && b.db.deployments[id].imageDigest == a.db.deployments[id].imageDigest
    ensures b.db.deployments[id].buildPath == a.db.deployments[id].buildPath
  {
    assert RowEvolves(a.db.deployments[id], b.db.deployments[id]);
  }

  /** What follows a drive and writes nothing about the row leaves all of that so. */
  lemma DrivenStill(w: World, o: Options, start: Mark, m: Mark, n: Mark, v: View)
    requires Driven(w, o, start, m, v) && Later(m, n, {}) && HandsOff(m, n)
    requires v.id in n.db.deployments && AgentKept(m.db.deployments[v.id], n.db.deployments[v.id])
    ensures Driven(w, o, start, n, v)
  {
    hide HandsOff, Later, Shown, Earned, Shipped, Fared, FailedFor;
    LaterEvolves(m, n, {});
    FaredKept(w, |start.calls|, m, n, v);
    EndedMore(w, m.calls, |start.calls|, m.db, n.calls, |start.calls|, n.db, v.id);
    if n.db.deployments[v.id].state == Failed {
      FailedForStill(w, o, start, m, n, v, n.db.deployments[v.id].failureReason);
    }
  }

  lemma FaredKept(w: World, from: nat, m: Mark, n: Mark, v: View)
    requires Fared(w, from, m, v) && Later(m, n, {}) && HandsOff(m, n)
    requires v.id in n.db.deployments && AgentKept(m.db.deployments[v.id], n.db.deployments[v.id])
    ensures Fared(w, from, n, v)
  {
    hide HandsOff, Later, Shown, Earned, Shipped;
    FaredStill(w, from, m, from, n, {}, v, v);
  }

  /** From one point to a later one, nothing was taken back. */
  predicate Onwards(a: Mark, b: Mark) {
    a.trace <= b.trace && a.calls <= b.calls && a.now <= b.now && Evolves(a.db, b.db)
  }

  lemma OnwardsNow(a: Mark)
    ensures Onwards(a, a)
  {
    hide Evolves;
    EvolvesReflexive(a.db);
  }

  lemma OnwardsThen(a: Mark, b: Mark, c: Mark)
    requires Onwards(a, b) && Onwards(b, c)
    ensures Onwards(a, c)
  {
    hide Evolves;
    EvolvesTransitive(a.db, b.db, c.db);
  }

  lemma OnwardsFacts(a: Mark, b: Mark)
    requires Onwards(a, b)
    ensures a.trace <= b.trace && a.calls <= b.calls && a.now <= b.now && Evolves(a.db, b.db)
  {
  }

  lemma LaterOnwards(a: Mark, b: Mark, ids: set<Id>)
    requires Later(a, b, ids)
    ensures Onwards(a, b)
  {
  }

  lemma WentOnwards(a: Mark, b: Mark, ids: set<Id>)
    requires Went(a, b, ids)
    ensures a.trace <= b.trace && a.now <= b.now && Evolves(a.db, b.db) && (a.cancelled ==> b.cancelled)
  {
  }

  lemma ClaimInFlight(db: Tables, claimer: string)
    requires Inv(db)
    ensures var (after, r) := ClaimNextTx(db, claimer);
            r.Ok? ==> r.value in after.deployments && InFlight(after.deployments[r.value])
  {
    hide Inv, OldestUnclaimed;
  }

  lemma LaterEvolves(a: Mark, b: Mark, ids: set<Id>)
    requires Later(a, b, ids)
    ensures Evolves(a.db, b.db) && a.calls <= b.calls && a.now <= b.now && a.trace <= b.trace
    ensures a.cancelled ==> b.cancelled
  {
  }

  datatype AppRow = AppRow(slug: string, suspended: bool)

  /** What a deploy does to its namespace, step by step. */
  datatype Change = Fence | Supply(values: map<string, string>) | Launch(workload: Workload)

  function Changed(n: Namespace, change: Change): Namespace {
    match change
    case Fence => n.(fenced := true)
    case Supply(values) => n.(secret := Some(values))
    case Launch(w) => n.(workload := Some(w))
  }
}
