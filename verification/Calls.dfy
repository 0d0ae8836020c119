/**
 * What leaves the process, and what comes of it. The world is a function of the call: what happens
 * before the k-th call, whether it lands and is answered, and what the answer says are `world(k)`, so
 * nothing the process does can make any of it up; and how long a call is given is fixed by what it is for.
 * The log is the calls made so far.
 */
module Calls {
  import opened Basics
  import opened StateMachine
  import opened Configuration
  import opened Tables
  import opened Runs
  import opened Releases

  datatype Context = Context(deadline: Option<int>, detached: bool)

  datatype JobState = JobRunning | JobSucceeded | JobFailed | JobGone

  /** What the loop runs under between drives: no deadline, but it may be told to stop. */
  const UNBOUNDED := Context(None, false)

  /** Ten seconds: times and durations are in nanoseconds. */
  const WRITE_TIMEOUT := 10_000_000_000

  datatype Options = Options(
    podName: string, registryHost: string,
    deployTimeout: int, buildTimeout: int, readyTimeout: int, interval: int, grace: int)

  /**
   * A call, by what it asks or writes, and for which deployment when it is a drive's. A rest is a sleep, in
   * which only time passes.
   */
  datatype What =
    | Rest(id: Id)
    | List
    | AppRead(id: Id, app: Id) | ConfigRead(id: Id, app: Id) | SnapshotRead(id: Id, rel: Id)
    | UploadRead(id: Id) | ArchiveRead(id: Id) | UploadDrop(id: Id)
    | BuildStep(id: Id) | JobRead(id: Id) | JobDelete(job: string)
    | DigestRead(id: Id) | ImageRead(id: Id, image: string)
    | Compose(id: Id, slug: string) | ReadyRead(id: Id)
    | SlugsRead | NamespacesRead | NamespaceDelete(slug: string)
    | MoveRow(id: Id, to: State, reason: string)
    | PromoteRow(id: Id, config: Config)
    | Record(id: Id, path: string, job: string, repo: string, digest: string)
    | HandBack(id: Id)
    | Claim(pod: string)
  {
    /** The deployment a write is about. A claim names none beforehand. */
    function Row(): Option<Id> {
      if MoveRow? || PromoteRow? || Record? || HandBack? then Some(id) else None
    }
  }

  /** What somebody else does between two calls: commits a transaction, or tends a namespace. */
  datatype Other = Agent(action: Action) | Outsider(slug: string)

  /** The world at one call: what happens before it, its fate, and what its answer says. */
  datatype Turn = Turn(
    elapsed: nat, told: bool, died: bool, others: seq<Other>, fate: Fate,
    suspended: bool, walked: Result<bool, ()>, job: JobState, digest: string, runsAsRoot: bool, ready: bool)

  type World = nat -> Turn

  /** `boot` is where the process making the call started; `agents` is what was committed before it. */
  datatype Call = Call(what: What, ctx: Context, boot: nat, at: int, until: int, agents: seq<Action>, fate: Fate)

  // ---- The log ------------------------------------------------------------------------------

  predicate DiedSince(w: World, boot: nat, n: nat) {
    exists j :: boot <= j < n && w(j).died
  }

  predicate ToldSince(w: World, boot: nat, n: nat) {
    exists j :: boot <= j < n && w(j).told
  }

  predicate ExpiredAt(ctx: Context, now: int, told: bool) {
    (ctx.deadline.Some? && ctx.deadline.value <= now) || (told && !ctx.detached)
  }

  /** A context given this long from now, unless its own deadline is nearer. */
  function TimedFrom(ctx: Context, now: int, budget: int): Context {
    ctx.(deadline := if ctx.deadline.Some? && ctx.deadline.value <= now + budget then ctx.deadline
        else Some(now + budget))
  }

  /** The k-th call is as the world has it, given the context it is made in. */
  predicate Befell(w: World, interval: int, before: int, k: nat, c: Call) {
    var over := ExpiredAt(c.ctx, c.at, ToldSince(w, c.boot, k + 1));
    && c.boot <= k
    && c.at == before + w(k).elapsed
    && c.until == c.at + (if c.what.Rest? && !over then interval else 0)
    && (forall a | a in c.agents :: a.Agent() && Agent(a) in w(k).others)
    && c.fate == (if over || DiedSince(w, c.boot, k + 1) then Lost else w(k).fate)
  }

  lemma Befalls(w: World, interval: int, before: int, k: nat, c: Call, told: bool, died: bool)
    requires c.boot <= k && c.at == before + w(k).elapsed
    requires told == ToldSince(w, c.boot, k + 1) && died == DiedSince(w, c.boot, k + 1)
    requires var over := ExpiredAt(c.ctx, c.at, told);
             && c.until == c.at + (if c.what.Rest? && !over then interval else 0)
             && c.fate == (if over || died then Lost else w(k).fate)
    requires forall a | a in c.agents :: a.Agent() && Agent(a) in w(k).others
    ensures Befell(w, interval, before, k, c)
  {
  }

  lemma ExpiredLater(ctx: Context, at: int, now: int, told: bool)
    requires at <= now
    ensures ExpiredAt(ctx, at, told) ==> ExpiredAt(ctx, now, told)
  {
  }

  function Clock(since: int, calls: seq<Call>): int {
    if calls == [] then since else calls[|calls| - 1].until
  }

  predicate Booked(w: World, interval: int, since: int, calls: seq<Call>) {
    forall k | 0 <= k < |calls| :: Befell(w, interval, Clock(since, calls[..k]), k, calls[k])
  }

  /** The transaction a call asks for, at the instant it is made. */
  function ActionOf(what: What, at: int): Option<Action> {
    match what
    case MoveRow(id, to, reason) => Some(Transition(id, to, reason, "", at))
    case PromoteRow(id, config) => Some(MarkHealthy(id, config, at))
    case Record(id, path, job, repo, digest) => Some(RecordBuild(id, path, job, repo, digest))
    case HandBack(id) => Some(ReleaseClaim(id))
    case Claim(pod) => Some(ClaimNext(pod))
    case _ => None
  }

  /** What the store answers a write on one row. */
  function AnswerTo(db: Tables, a: Action): Result<Id, StoreError> {
    match a
    case Transition(id, to, reason, detail, at) => Answered(id, TransitionTx(db, id, to, reason, detail, at).1)
    case RecordBuild(id, path, job, repo, digest) => Answered(id, RecordBuildTx(db, id, path, job, repo, digest).1)
    case ReleaseClaim(id) => if ReleaseClaimTx(db, id).1 then Ok(id) else Err(NotFound)
    case MarkHealthy(id, config, at) => MarkHealthyTx(db, id, config, at).1
    case _ => Err(NotFound)
  }

  function Answered(id: Id, r: Result<(), StoreError>): Result<Id, StoreError> {
    match r
    case Ok(_) => Ok(id)
    case Err(e) => Err(e)
  }

  function LandedBy(c: Call): seq<Action> {
    var a := ActionOf(c.what, c.at);
    if c.fate != Lost && a.Some? then [a.value] else []
  }

  lemma NoneLanded(c: Call)
    requires ActionOf(c.what, 0).None?
    ensures LandedBy(c) == []
  {
  }

  lemma OneLanded(c: Call, a: Action)
    requires ActionOf(c.what, c.at) == Some(a)
    ensures LandedBy(c) == if c.fate != Lost then [a] else []
  {
  }

  /** A call of no drive fares as the world has it while the process lives and is not told to stop. */
  predicate Free(w: World, k: nat, c: Call) {
    c.fate == if DiedSince(w, c.boot, k + 1) || ToldSince(w, c.boot, k + 1) then Lost else w(k).fate
  }

  /** And the write of a failure while it lives and its ten seconds last, told or not. */
  predicate Pressed(w: World, k: nat, c: Call) {
    c.fate == if DiedSince(w, c.boot, k + 1) || WRITE_TIMEOUT <= w(k).elapsed then Lost else w(k).fate
  }

  /** Everything committed over these calls: what agents committed before each, and what landed of it. */
  function CommittedBy(calls: seq<Call>): seq<Action> {
    if calls == [] then []
    else CommittedBy(calls[..|calls| - 1]) + calls[|calls| - 1].agents + LandedBy(calls[|calls| - 1])
  }

  lemma {:induction false} CommittedOn(a: seq<Call>, b: seq<Call>)
    ensures CommittedBy(a + b) == CommittedBy(a) + CommittedBy(b)
  {
    hide CommittedBy, LandedBy;
    if b == [] {
      assert a + b == a;
      CommittedNext(b, b);
    } else {
      var init, last := b[..|b| - 1], b[|b| - 1];
      CommittedOn(a, init);
      CommittedNext(a + b, a + init);
      CommittedNext(b, init);
      var x, y, z := CommittedBy(a), CommittedBy(init), last.agents + LandedBy(last);
      assert (x + y) + z == x + (y + z);
    }
  }

  lemma CommittedNext(calls: seq<Call>, init: seq<Call>)
    requires if calls == [] then init == [] else init == calls[..|calls| - 1]
    ensures CommittedBy(calls) == if calls == [] then []
                                  else CommittedBy(init) + (calls[|calls| - 1].agents + LandedBy(calls[|calls| - 1]))
  {
    hide LandedBy;
    if calls != [] {
      var x, y, z := CommittedBy(init), calls[|calls| - 1].agents, LandedBy(calls[|calls| - 1]);
      assert (x + y) + z == x + (y + z);
    }
  }

  lemma CommittedLast(before: seq<Action>, calls: seq<Call>, c: Call)
    ensures before + CommittedBy(calls + [c]) == before + CommittedBy(calls) + c.agents + LandedBy(c)
  {
    hide LandedBy;
    assert (calls + [c])[..|calls|] == calls;
    var x, y, z := CommittedBy(calls), c.agents, LandedBy(c);
    assert before + (x + y + z) == before + x + y + z;
  }

  lemma CommittedOne(before: seq<Action>, c: Call)
    ensures before + CommittedBy([c]) == before + c.agents + LandedBy(c)
  {
    hide LandedBy;
    CommittedLast(before, [], c);
    assert [] + [c] == [c];
    assert before + CommittedBy([]) == before;
  }

  lemma AgentsOnly(w: World, interval: int, since: int, calls: seq<Call>, k: nat)
    requires Booked(w, interval, since, calls) && k < |calls|
    ensures forall a | a in calls[k].agents :: a.Agent()
  {
    assert Befell(w, interval, Clock(since, calls[..k]), k, calls[k]);
  }

  /** In a world where nobody else acts and no call lands, nothing is committed. */
  lemma {:induction false} MuteWorld(w: World, interval: int, since: int, calls: seq<Call>)
    requires Booked(w, interval, since, calls)
    requires forall k :: w(k).others == [] && w(k).fate == Lost
    ensures CommittedBy(calls) == []
  {
    hide LandedBy;
    if calls != [] {
      var init, k := calls[..|calls| - 1], |calls| - 1;
      BookedInit(w, interval, since, calls);
      MuteWorld(w, interval, since, init);
      assert Befell(w, interval, Clock(since, calls[..k]), k, calls[k]);
      MuteCall(w, interval, Clock(since, calls[..k]), k, calls[k]);
    }
  }

  lemma BookedInit(w: World, interval: int, since: int, calls: seq<Call>)
    requires Booked(w, interval, since, calls) && calls != []
    ensures Booked(w, interval, since, calls[..|calls| - 1])
  {
    hide Befell;
    var init := calls[..|calls| - 1];
    forall j | 0 <= j < |init| ensures Befell(w, interval, Clock(since, init[..j]), j, init[j]) {
      assert init[..j] == calls[..j];
    }
  }

  lemma MuteCall(w: World, interval: int, before: int, k: nat, c: Call)
    requires Befell(w, interval, before, k, c) && w(k).others == [] && w(k).fate == Lost
    ensures c.agents == [] && LandedBy(c) == []
  {
    FirstIn(c.agents);
  }

  lemma FirstIn(s: seq<Action>)
    ensures s != [] ==> s[0] in s
  {
  }

  /** Whatever was committed and is no agent's, one of the calls asked for, and landed. */
  lemma {:induction false} CommittedSource(calls: seq<Call>, a: Action) returns (k: nat)
    requires a in CommittedBy(calls) && !a.Agent()
    requires forall k | 0 <= k < |calls| :: forall b | b in calls[k].agents :: b.Agent()
    ensures k < |calls| && calls[k].fate != Lost && ActionOf(calls[k].what, calls[k].at) == Some(a)
  {
    var init, last := calls[..|calls| - 1], calls[|calls| - 1];
    assert a !in last.agents by { assert last == calls[|calls| - 1]; }
    if a in LandedBy(last) {
      k := |calls| - 1;
    } else {
      k := CommittedSource(init, a);
    }
  }

  /** And whatever landed was committed. */
  lemma {:induction false} CommittedHolds(calls: seq<Call>, k: nat, a: Action)
    requires k < |calls| && calls[k].fate != Lost && ActionOf(calls[k].what, calls[k].at) == Some(a)
    ensures a in CommittedBy(calls)
  {
    if k < |calls| - 1 {
      CommittedHolds(calls[..|calls| - 1], k, a);
    }
  }

  // ---- What the log shows -------------------------------------------------------------------

  /** One thing a single call can show. */
  datatype Evidence =
    | JobAsked(id: Id)
    | JobSaid(id: Id, state: JobState)
    | ReadyAsked(id: Id)
    | ReadySaid(id: Id)
    | DigestSaid(id: Id, digest: string)
    | RootSaid(id: Id, image: string, root: bool)
    | RunsAsRoot(id: Id)
    | NoManifest(id: Id)
    | Recorded(id: Id)
    | SuspendedSaid(app: Id)
    | ActiveSaid(app: Id)
    | RejectedSaid(id: Id)
    | EngineSaid(id: Id, dockerfile: bool)
    | NoUpload(id: Id)
    | DeleteAsked(job: string)
    | NoAnswer
    | FailureLost(id: Id)
    | FailureLanded(id: Id)

  /** The world itself left the call unanswered. */
  predicate Unanswered(w: World, k: nat, c: Call) {
    c.fate != Heard && w(k).fate != Heard
  }

  /** What a polling loop asks, where no answer means asking again. */
  predicate Polls(what: What) {
    what.Rest? || what.JobRead? || what.ReadyRead?
  }

  /** Why a failure's write is lost: the world lost it, the process died, or its ten seconds went by. */
  predicate WriteLost(w: World, k: nat, boot: nat) {
    w(k).fate == Lost || DiedSince(w, boot, k + 1) || WRITE_TIMEOUT <= w(k).elapsed
  }

  predicate Shows(w: World, k: nat, c: Call, e: Evidence) {
    match e
    case JobAsked(id) => c.what == JobRead(id)
    case JobSaid(id, state) => c.what == JobRead(id) && c.fate == Heard && w(k).job == state
    case ReadyAsked(id) => c.what == ReadyRead(id)
    case ReadySaid(id) => c.what == ReadyRead(id) && c.fate == Heard && w(k).ready
    case DigestSaid(id, digest) => c.what == DigestRead(id) && c.fate == Heard && w(k).digest == digest
    case RootSaid(id, image, root) => c.what == ImageRead(id, image) && c.fate == Heard && w(k).runsAsRoot == root
    case RunsAsRoot(id) => c.what.ImageRead? && c.what.id == id && c.fate == Heard && w(k).runsAsRoot
    case NoManifest(id) =>
      c.what == DigestRead(id) && if c.fate == Heard then w(k).digest == "" else w(k).fate != Heard
    case Recorded(id) => c.what.Record? && c.what.id == id && c.what.digest != "" && c.fate == Heard
    case SuspendedSaid(app) => c.what.AppRead? && c.what.app == app && c.fate == Heard && w(k).suspended
    case ActiveSaid(app) => c.what.AppRead? && c.what.app == app && c.fate == Heard && !w(k).suspended
    case EngineSaid(id, dockerfile) => c.what == ArchiveRead(id) && c.fate == Heard && w(k).walked == Ok(dockerfile)
    case RejectedSaid(id) => c.what == ArchiveRead(id) && c.fate == Heard && w(k).walked.Err?
    case NoUpload(id) => c.what == UploadRead(id) && Unanswered(w, k, c)
    case DeleteAsked(job) => c.what == JobDelete(job)
    case NoAnswer => !Polls(c.what) && Unanswered(w, k, c)
    case FailureLost(id) =>
      c.what.MoveRow? && c.what.id == id && c.what.to == Failed && c.fate == Lost && WriteLost(w, k, c.boot)
    case FailureLanded(id) => c.what.MoveRow? && c.what.id == id && c.what.to == Failed && c.fate != Lost
  }

  /** Some call from this one on shows it. */
  predicate Shown(w: World, calls: seq<Call>, from: nat, e: Evidence) {
    exists k :: from <= k < |calls| && Shows(w, k, calls[k], e)
  }

  /** What the k-th call shows of a deployment, in its own fields and the world's answer to it. */
  lemma ShownMeans(w: World, calls: seq<Call>, from: nat, k: nat, id: Id)
    requires from <= k < |calls|
    ensures var c := calls[k];
            && (c.fate == Heard && c.what == ReadyRead(id) ==>
                  (Shows(w, k, c, ReadySaid(id)) <==> w(k).ready))
            && (c.fate == Heard && c.what == JobRead(id) ==>
                  forall state :: Shows(w, k, c, JobSaid(id, state)) <==> w(k).job == state)
            && (c.fate == Heard && c.what == DigestRead(id) ==>
                  forall digest :: Shows(w, k, c, DigestSaid(id, digest)) <==> w(k).digest == digest)
            && (c.fate == Heard && c.what == DigestRead(id) ==> (Shows(w, k, c, NoManifest(id)) <==> w(k).digest == ""))
            && (forall image | c.fate == Heard && c.what == ImageRead(id, image) ::
                  && (Shows(w, k, c, RunsAsRoot(id)) <==> w(k).runsAsRoot)
                  && forall root :: Shows(w, k, c, RootSaid(id, image, root)) <==> w(k).runsAsRoot == root)
            && (c.fate == Heard && c.what == ArchiveRead(id) ==>
                  && (Shows(w, k, c, RejectedSaid(id)) <==> w(k).walked.Err?)
                  && forall found :: Shows(w, k, c, EngineSaid(id, found)) <==> w(k).walked == Ok(found))
            && (forall app | c.fate == Heard && c.what == AppRead(id, app) ::
                  && (Shows(w, k, c, SuspendedSaid(app)) <==> w(k).suspended)
                  && (Shows(w, k, c, ActiveSaid(app)) <==> !w(k).suspended))
    ensures forall e :: Shows(w, k, calls[k], e) ==> Shown(w, calls, from, e)
  {
  }

  /** And nothing is shown but by such a call, which was answered, or by one the world itself left unanswered. */
  lemma ShownBy(w: World, calls: seq<Call>, from: nat, e: Evidence) returns (k: nat)
    requires Shown(w, calls, from, e)
    ensures from <= k < |calls| && Shows(w, k, calls[k], e)
    ensures var c := calls[k];
            match e
            case ReadySaid(id) => c.what == ReadyRead(id) && c.fate == Heard
            case JobSaid(id, _) => c.what == JobRead(id) && c.fate == Heard
            case DigestSaid(id, _) => c.what == DigestRead(id) && c.fate == Heard
            case RootSaid(id, image, _) => c.what == ImageRead(id, image) && c.fate == Heard
            case RunsAsRoot(id) => c.what.ImageRead? && c.what.id == id && c.fate == Heard
            case EngineSaid(id, _) => c.what == ArchiveRead(id) && c.fate == Heard
            case RejectedSaid(id) => c.what == ArchiveRead(id) && c.fate == Heard
            case SuspendedSaid(app) => c.what.AppRead? && c.what.app == app && c.fate == Heard
            case ActiveSaid(app) => c.what.AppRead? && c.what.app == app && c.fate == Heard
            case Recorded(id) => c.what.Record? && c.what.id == id && c.what.digest != "" && c.fate == Heard
            case NoUpload(id) => c.what == UploadRead(id) && c.fate != Heard && w(k).fate != Heard
            case NoManifest(id) => c.what == DigestRead(id) && (c.fate != Heard ==> w(k).fate != Heard)
            case NoAnswer =>
              && c.fate != Heard && w(k).fate != Heard
              && !c.what.Rest? && !c.what.JobRead? && !c.what.ReadyRead?
            case FailureLost(id) =>
              && c.what.MoveRow? && c.what.id == id && c.what.to == Failed && c.fate == Lost
              && (w(k).fate == Lost || DiedSince(w, c.boot, k + 1) || 10_000_000_000 <= w(k).elapsed)
            case FailureLanded(id) => c.what.MoveRow? && c.what.id == id && c.what.to == Failed && c.fate != Lost
            case JobAsked(id) => c.what == JobRead(id)
            case ReadyAsked(id) => c.what == ReadyRead(id)
            case DeleteAsked(job) => c.what == JobDelete(job)
  {
    hide DiedSince;
    k :| from <= k < |calls| && Shows(w, k, calls[k], e);
  }

  /** One more call was made, for this, with this fate. */
  predicate Made(before: seq<Call>, after: seq<Call>, what: What, fate: Fate) {
    |after| == |before| + 1 && before <= after && after[|before|].what == what && after[|before|].fate == fate
  }

  /** The engine is the one the archive asks for: BuildKit exactly when the walk found a Dockerfile. */
  predicate EngineIs(w: World, calls: seq<Call>, from: nat, id: Id, engine: string) {
    || (engine == "dockerfile" && Shown(w, calls, from, EngineSaid(id, true)))
    || (engine == "buildpacks" && Shown(w, calls, from, EngineSaid(id, false)))
  }

  /** What every write of the log was warranted by, in the answers before it. */
  lemma WarrantSays(w: World, calls: seq<Call>, db: Tables, k: nat)
    requires AllWarranted(w, calls, db) && k < |calls|
    ensures match calls[k].what
            case MoveRow(id, to, _) =>
              && (to == Pushing ==> Shown(w, calls[..k], 0, JobSaid(id, JobSucceeded)))
              && (to == Deploying ==>
                    && id in db.deployments
                    && (db.deployments[id].source.Upload? ==>
                          exists j :: 0 <= j < k && calls[j].what.Record? && calls[j].what.id == id
                                      && calls[j].what.digest != "" && calls[j].fate == Heard))
            case Record(id, path, _, _, digest) =>
              && (path != "" ==> || (path == "dockerfile" && Shown(w, calls[..k], 0, EngineSaid(id, true)))
                                 || (path == "buildpacks" && Shown(w, calls[..k], 0, EngineSaid(id, false))))
              && (digest != "" ==> && Shown(w, calls[..k], 0, DigestSaid(id, digest))
                                   && Shown(w, calls[..k], 0, RootSaid(id, digest, false)))
            case HandBack(id) => Shown(w, calls[..k], 0, JobSaid(id, JobSucceeded))
            case PromoteRow(id, _) => Shown(w, calls[..k], 0, ReadySaid(id))
            case _ => true
  {
    assert Warranted(w, calls[..k], calls[k].what, db);
    if calls[k].what.MoveRow? && calls[k].what.to == Deploying && db.deployments[calls[k].what.id].source.Upload? {
      var j :| 0 <= j < k && Shows(w, j, calls[..k][j], Recorded(calls[k].what.id));
      assert calls[..k][j] == calls[j];
    }
  }

  lemma EngineMore(w: World, a: seq<Call>, i: nat, b: seq<Call>, j: nat, id: Id, engine: string)
    requires EngineIs(w, a, i, id, engine) && a <= b && j <= i
    ensures EngineIs(w, b, j, id, engine)
  {
    hide Shown;
    if engine == "dockerfile" {
      ShownMore(w, a, i, b, j, EngineSaid(id, true));
    } else {
      ShownMore(w, a, i, b, j, EngineSaid(id, false));
    }
  }

  /** What has been seen stays seen, of a longer log and from an earlier call. */
  lemma ShownMore(w: World, a: seq<Call>, i: nat, b: seq<Call>, j: nat, e: Evidence)
    requires Shown(w, a, i, e) && a <= b && j <= i
    ensures Shown(w, b, j, e)
  {
    var k :| i <= k < |a| && Shows(w, k, a[k], e);
    assert Shows(w, k, b[k], e);
  }

  /** No call from this one on asks about a Job, an image or a workload. */
  predicate Unasked(calls: seq<Call>, from: nat) {
    forall k | from <= k < |calls| ::
      !calls[k].what.JobRead? && !calls[k].what.ImageRead? && !calls[k].what.ReadyRead?
  }

  lemma StillUnsaid(w: World, a: seq<Call>, from: nat, b: seq<Call>, e: Evidence)
    requires !Shown(w, a, from, e) && a <= b && Unasked(b, |a|)
    requires e.JobSaid? || e.ReadySaid? || e.RunsAsRoot?
    ensures !Shown(w, b, from, e)
  {
    forall k | from <= k < |b| ensures !Shows(w, k, b[k], e) {
      assert k < |a| ==> b[k] == a[k];
    }
  }

  /** From this call on the cluster has not said that the Job failed or is gone. */
  predicate NoWord(w: World, calls: seq<Call>, from: nat, id: Id) {
    !Shown(w, calls, from, JobSaid(id, JobFailed)) && !Shown(w, calls, from, JobSaid(id, JobGone))
  }

  lemma StillNoWord(w: World, a: seq<Call>, from: nat, b: seq<Call>, id: Id)
    requires NoWord(w, a, from, id) && a <= b && Unasked(b, |a|)
    ensures NoWord(w, b, from, id)
  {
    hide Shown;
    StillUnsaid(w, a, from, b, JobSaid(id, JobFailed));
    StillUnsaid(w, a, from, b, JobSaid(id, JobGone));
  }

  /** The answer just heard is all there is of new. */
  lemma NextNoWord(w: World, a: seq<Call>, from: nat, b: seq<Call>, id: Id)
    requires NoWord(w, a, from, id) && a <= b && |b| == |a| + 1
    requires b[|a|].fate == Heard ==> w(|a|).job != JobFailed && w(|a|).job != JobGone
    ensures NoWord(w, b, from, id)
  {
    hide Shown;
    NextUnsaid(w, a, from, b, JobSaid(id, JobFailed));
    NextUnsaid(w, a, from, b, JobSaid(id, JobGone));
  }

  /** The one call more was asked about this, and did not say it. */
  lemma NextUnsaid(w: World, a: seq<Call>, from: nat, b: seq<Call>, e: Evidence)
    requires !Shown(w, a, from, e) && a <= b && |b| == |a| + 1 && !Shows(w, |a|, b[|a|], e)
    ensures !Shown(w, b, from, e)
  {
    forall k | from <= k < |b| ensures !Shows(w, k, b[k], e) {
      assert k < |a| ==> b[k] == a[k];
    }
  }

  predicate AllHeard(calls: seq<Call>, from: nat) {
    forall k | from <= k < |calls| :: calls[k].fate == Heard
  }

  /** From this call on the world kills nobody, loses nothing, and never takes as long as a failure's write has. */
  predicate Kind(w: World, calls: seq<Call>, from: nat) {
    forall k | from <= k < |calls| ::
      w(k).fate != Lost && w(k).elapsed < WRITE_TIMEOUT && !DiedSince(w, calls[k].boot, k + 1)
  }

  predicate Unbounded(calls: seq<Call>, from: nat) {
    forall k | from <= k < |calls| :: calls[k].ctx == UNBOUNDED
  }

  /** From this call on the world kills nobody, and answers everything. */
  predicate Answers(w: World, calls: seq<Call>, from: nat) {
    forall k | from <= k < |calls| :: w(k).fate == Heard && !DiedSince(w, calls[k].boot, k + 1)
  }

  // ---- How long a call is given -------------------------------------------------------------

  /** What is left of the row's own budget, counted from its creation. */
  predicate OnBudget(o: Options, db: Tables, id: Id, ctx: Context) {
    id in db.deployments && ctx == Context(Some(db.deployments[id].createdAt + o.deployTimeout), false)
  }

  /** What a polling loop of a drive asks over and over. */
  predicate Loops(what: What, id: Id) {
    (what.JobRead? || what.ReadyRead? || what.Rest? || what.AppRead?) && what.id == id
  }

  /** The first poll of the polling loop of this drive that is under way, or the next call when none is. */
  function Began(calls: seq<Call>, id: Id): (j: nat)
    ensures j <= |calls|
  {
    if calls == [] then 0
    else
      var before, last := Began(calls[..|calls| - 1], id), calls[|calls| - 1].what;
      if Loops(last, id) && (Polls(last) || before < |calls| - 1) then before else |calls|
  }

  /**
   * That is: from there on nothing was asked but what this drive's polling loop asks, a poll first; and what
   * was asked just before it was no poll of this drive. So a phase is counted from its own loop's first poll.
   */
  lemma {:induction false} BeganMeans(calls: seq<Call>, id: Id)
    ensures var j := Began(calls, id);
            && (forall k | j <= k < |calls| ::
                  calls[k].what in {JobRead(id), ReadyRead(id), Rest(id)}
                  || (calls[k].what.AppRead? && calls[k].what.id == id))
            && (j < |calls| ==> calls[j].what in {JobRead(id), ReadyRead(id), Rest(id)})
            && (j > 0 ==> calls[j - 1].what !in {JobRead(id), ReadyRead(id), Rest(id)})
  {
    if calls != [] {
      BeganMeans(calls[..|calls| - 1], id);
    }
  }

  lemma BeganNext(calls: seq<Call>, b: seq<Call>, id: Id)
    requires |b| == |calls| + 1 && calls <= b
    ensures Began(b, id) == if Loops(b[|calls|].what, id) && (Polls(b[|calls|].what) || Began(calls, id) < |calls|)
                            then Began(calls, id) else |b|
  {
    assert b[..|b| - 1] == calls;
  }

  /** A drive asks about its Job right after it has looked at its app, and recovery never does. */
  predicate Looked(calls: seq<Call>, id: Id) {
    calls != [] && calls[|calls| - 1].what.AppRead? && calls[|calls| - 1].what.id == id
  }

  /** A phase's own time, counted from where its polling began, within the row's budget. */
  predicate InPhase(o: Options, since: int, calls: seq<Call>, db: Tables, id: Id, ctx: Context, phase: int) {
    && id in db.deployments
    && var budget := Context(Some(db.deployments[id].createdAt + o.deployTimeout), false);
    && ctx == TimedFrom(budget, Clock(since, calls[..Began(calls, id)]), phase)
  }

  /** Which phase a rest belongs to. */
  function PhaseOf(o: Options, calls: seq<Call>, id: Id): int {
    var j := Began(calls, id);
    if j < |calls| && calls[j].what.ReadyRead? then o.readyTimeout else o.buildTimeout
  }

  /**
   * The context of each call, which nothing else may be: a failure's write has ten seconds of its own from
   * when it is made, a poll its phase, everything else of a drive the row's budget, the archive is read
   * under none, and what is no drive's is only ever cut short by being told to stop.
   */
  predicate Proper(o: Options, since: int, calls: seq<Call>, what: What, ctx: Context, db: Tables) {
    match what
    case MoveRow(id, to, _) =>
      if to == Failed then ctx == Context(Some(Clock(since, calls) + WRITE_TIMEOUT), true) else OnBudget(o, db, id, ctx)
    case PromoteRow(id, _) => OnBudget(o, db, id, ctx)
    case Record(id, _, _, _, _) => OnBudget(o, db, id, ctx)
    case AppRead(id, _) => OnBudget(o, db, id, ctx)
    case ConfigRead(id, _) => OnBudget(o, db, id, ctx)
    case SnapshotRead(id, _) => OnBudget(o, db, id, ctx)
    case UploadRead(id) => OnBudget(o, db, id, ctx)
    case BuildStep(id) => OnBudget(o, db, id, ctx)
    case DigestRead(id) => OnBudget(o, db, id, ctx)
    case ImageRead(id, _) => OnBudget(o, db, id, ctx)
    case Compose(id, _) => OnBudget(o, db, id, ctx)
    case ArchiveRead(_) => ctx == Context(None, true)
    case JobRead(id) =>
      if Looked(calls, id) then InPhase(o, since, calls, db, id, ctx, o.buildTimeout) else ctx == UNBOUNDED
    case ReadyRead(id) => InPhase(o, since, calls, db, id, ctx, o.readyTimeout)
    case Rest(id) => InPhase(o, since, calls, db, id, ctx, PhaseOf(o, calls, id))
    case _ => ctx == UNBOUNDED
  }

  predicate AllProper(o: Options, since: int, calls: seq<Call>, db: Tables) {
    forall k | 0 <= k < |calls| :: Proper(o, since, calls[..k], calls[k].what, calls[k].ctx, db)
  }

  lemma ProperLasts(o: Options, since: int, calls: seq<Call>, db: Tables, later: Tables)
    requires AllProper(o, since, calls, db)
    requires forall d | d in db.deployments ::
               d in later.deployments && later.deployments[d].createdAt == db.deployments[d].createdAt
    ensures AllProper(o, since, calls, later)
  {
    hide Began, TimedFrom, Clock;
    forall k | 0 <= k < |calls| ensures Proper(o, since, calls[..k], calls[k].what, calls[k].ctx, later) {
      assert Proper(o, since, calls[..k], calls[k].what, calls[k].ctx, db);
      PhaseLasts(o, since, calls[..k], db, later, calls[k].ctx, o.buildTimeout);
      PhaseLasts(o, since, calls[..k], db, later, calls[k].ctx, o.readyTimeout);
    }
  }

  lemma PhaseLasts(o: Options, since: int, calls: seq<Call>, db: Tables, later: Tables, ctx: Context, phase: int)
    requires forall d | d in db.deployments ::
               d in later.deployments && later.deployments[d].createdAt == db.deployments[d].createdAt
    ensures forall id :: InPhase(o, since, calls, db, id, ctx, phase) ==>
              InPhase(o, since, calls, later, id, ctx, phase)
    ensures forall id :: OnBudget(o, db, id, ctx) ==> OnBudget(o, later, id, ctx)
  {
    hide Began, TimedFrom, Clock;
  }

  lemma ProperNext(o: Options, since: int, calls: seq<Call>, c: Call, db: Tables)
    requires AllProper(o, since, calls, db) && Proper(o, since, calls, c.what, c.ctx, db)
    ensures AllProper(o, since, calls + [c], db)
  {
    hide Proper;
    forall k | 0 <= k < |calls + [c]|
      ensures Proper(o, since, (calls + [c])[..k], (calls + [c])[k].what, (calls + [c])[k].ctx, db)
    {
      assert (calls + [c])[..k] == if k < |calls| then calls[..k] else calls;
    }
  }

  /**
   * Whether the k-th call had run out of time, by what it was for: a failure's write its ten seconds, a
   * drive's call the row's budget, a poll its phase or that budget. Being told to stop ends all of them but
   * the failure's write and the reading of the archive, and it alone ends what is no drive's.
   */
  predicate OutOfTime(w: World, o: Options, since: int, calls: seq<Call>, k: nat, db: Tables)
    requires k < |calls|
  {
    var c := calls[k];
    match c.what
    case MoveRow(id, to, _) =>
      if to == Failed then 10_000_000_000 <= w(k).elapsed else BudgetSpent(w, o, k, c, db, id)
    case PromoteRow(id, _) => BudgetSpent(w, o, k, c, db, id)
    case Record(id, _, _, _, _) => BudgetSpent(w, o, k, c, db, id)
    case AppRead(id, _) => BudgetSpent(w, o, k, c, db, id)
    case ConfigRead(id, _) => BudgetSpent(w, o, k, c, db, id)
    case SnapshotRead(id, _) => BudgetSpent(w, o, k, c, db, id)
    case UploadRead(id) => BudgetSpent(w, o, k, c, db, id)
    case BuildStep(id) => BudgetSpent(w, o, k, c, db, id)
    case DigestRead(id) => BudgetSpent(w, o, k, c, db, id)
    case ImageRead(id, _) => BudgetSpent(w, o, k, c, db, id)
    case Compose(id, _) => BudgetSpent(w, o, k, c, db, id)
    case ArchiveRead(_) => false
    case JobRead(id) =>
      if Looked(calls[..k], id)
      then BudgetSpent(w, o, k, c, db, id) || PhaseSpent(since, calls[..k], c.at, id, o.buildTimeout)
      else ToldSince(w, c.boot, k + 1)
    case ReadyRead(id) =>
      BudgetSpent(w, o, k, c, db, id) || PhaseSpent(since, calls[..k], c.at, id, o.readyTimeout)
    case Rest(id) =>
      BudgetSpent(w, o, k, c, db, id) || PhaseSpent(since, calls[..k], c.at, id, PhaseOf(o, calls[..k], id))
    case _ => ToldSince(w, c.boot, k + 1)
  }

  predicate BudgetSpent(w: World, o: Options, k: nat, c: Call, db: Tables, id: Id) {
    ToldSince(w, c.boot, k + 1) || (id in db.deployments && db.deployments[id].createdAt + o.deployTimeout <= c.at)
  }

  /** The whole of a phase has passed since the polling loop under way began. */
  predicate PhaseSpent(since: int, calls: seq<Call>, at: int, id: Id, phase: int) {
    Clock(since, calls[..Began(calls, id)]) + phase <= at
  }

  /**
   * Every call fares exactly as the world has it, unless the process has died or the call's own time, which
   * its purpose fixes, had run out; and then it is lost.
   */
  lemma FateOf(w: World, o: Options, since: int, calls: seq<Call>, k: nat, db: Tables)
    requires Booked(w, o.interval, since, calls) && AllProper(o, since, calls, db) && k < |calls|
    ensures calls[k].fate ==
            if DiedSince(w, calls[k].boot, k + 1) || OutOfTime(w, o, since, calls, k, db) then Lost else w(k).fate
  {
    hide DiedSince, ToldSince, Began, Clock;
    var c, before := calls[k], calls[..k];
    assert Befell(w, o.interval, Clock(since, before), k, c);
    assert Proper(o, since, before, c.what, c.ctx, db);
  }

  lemma FreeFate(w: World, interval: int, since: int, calls: seq<Call>, k: nat)
    requires Booked(w, interval, since, calls) && k < |calls| && calls[k].ctx == UNBOUNDED
    ensures Free(w, k, calls[k])
  {
    hide DiedSince, ToldSince;
    assert Befell(w, interval, Clock(since, calls[..k]), k, calls[k]);
  }

  lemma PressedFate(w: World, o: Options, since: int, calls: seq<Call>, k: nat, db: Tables)
    requires Booked(w, o.interval, since, calls) && AllProper(o, since, calls, db) && k < |calls|
    requires calls[k].what.MoveRow? && calls[k].what.to == Failed
    ensures Pressed(w, k, calls[k])
  {
    hide DiedSince, ToldSince, Booked, AllProper;
    FateOf(w, o, since, calls, k, db);
  }

  // ---- What a write rests on ----------------------------------------------------------------

  /**
   * A row is moved to pushing, and a claim handed back, only after its Job was said to have succeeded; an
   * engine is recorded only as the walk of the stored archive named it; a digest is recorded only after the
   * registry named it and the image was said not to run as root; a build is moved to deploying only after
   * such a record was answered; and a deployment is marked healthy only after its workload was said to be
   * ready.
   */
  predicate Warranted(w: World, calls: seq<Call>, what: What, db: Tables) {
    match what
    case MoveRow(id, to, _) =>
      && (to == Pushing ==> Shown(w, calls, 0, JobSaid(id, JobSucceeded)))
      && (to == Deploying ==>
            && id in db.deployments
            && (db.deployments[id].source.Upload? ==> Shown(w, calls, 0, Recorded(id))))
    case Record(id, path, _, _, digest) =>
      && (path != "" ==> EngineIs(w, calls, 0, id, path))
      && (digest != "" ==>
            Shown(w, calls, 0, DigestSaid(id, digest)) && Shown(w, calls, 0, RootSaid(id, digest, false)))
    case HandBack(id) => Shown(w, calls, 0, JobSaid(id, JobSucceeded))
    case PromoteRow(id, _) => Shown(w, calls, 0, ReadySaid(id))
    case _ => true
  }

  lemma WarrantedNone(w: World, calls: seq<Call>, what: What, db: Tables)
    requires ActionOf(what, 0).None?
    ensures Warranted(w, calls, what, db)
  {
  }

  /** An engine recorded by one of these calls is the archive's. */
  lemma EngineWarranted(w: World, calls: seq<Call>, db: Tables, k: nat)
    requires AllWarranted(w, calls, db) && k < |calls| && calls[k].what.Record? && calls[k].what.path != ""
    ensures EngineIs(w, calls, 0, calls[k].what.id, calls[k].what.path)
  {
    hide Shown, EngineIs;
    assert Warranted(w, calls[..k], calls[k].what, db);
    EngineMore(w, calls[..k], 0, calls, 0, calls[k].what.id, calls[k].what.path);
  }

  /** Every write ever asked for was warranted by what had been answered before it. */
  predicate AllWarranted(w: World, calls: seq<Call>, db: Tables) {
    forall k | 0 <= k < |calls| :: Warranted(w, calls[..k], calls[k].what, db)
  }

  /** A warrant rests on what came before and on what the row was made from, and both last. */
  lemma WarrantsLast(w: World, calls: seq<Call>, db: Tables, later: Tables)
    requires AllWarranted(w, calls, db)
    requires forall d | d in db.deployments ::
               d in later.deployments && later.deployments[d].source == db.deployments[d].source
    ensures AllWarranted(w, calls, later)
  {
    hide Shown, EngineIs;
  }

  lemma WarrantedNext(w: World, calls: seq<Call>, c: Call, db: Tables)
    requires AllWarranted(w, calls, db) && Warranted(w, calls, c.what, db)
    ensures AllWarranted(w, calls + [c], db)
  {
    hide Warranted;
    forall k | 0 <= k < |calls + [c]| ensures Warranted(w, (calls + [c])[..k], (calls + [c])[k].what, db) {
      assert (calls + [c])[..k] == if k < |calls| then calls[..k] else calls;
    }
  }

  lemma BookedNext(w: World, interval: int, since: int, calls: seq<Call>, c: Call)
    requires Booked(w, interval, since, calls) && Befell(w, interval, Clock(since, calls), |calls|, c)
    ensures Booked(w, interval, since, calls + [c])
  {
    hide Befell;
    forall k | 0 <= k < |calls + [c]|
      ensures Befell(w, interval, Clock(since, (calls + [c])[..k]), k, (calls + [c])[k])
    {
      assert (calls + [c])[..k] == if k < |calls| then calls[..k] else calls;
    }
  }

  lemma SinceNext(w: World, boot: nat, n: nat)
    requires boot <= n
    ensures DiedSince(w, boot, n + 1) <==> DiedSince(w, boot, n) || w(n).died
    ensures ToldSince(w, boot, n + 1) <==> ToldSince(w, boot, n) || w(n).told
  {
  }
}
