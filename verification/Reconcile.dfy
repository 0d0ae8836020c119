/**
 * The reconcile loop: internal/reconcile/reconcile.go, internal/reconcile/reaper.go and the adapter
 * it writes through, internal/store/reconcileadapter.go.
 *
 * Every call that leaves the process goes through `Send`, `Write` or `ClaimNext`, and is entered in the
 * log. Before it the rest of the world has its turn: time passes, agents commit whatever transactions
 * they like, the process is told to stop or dies, and others compose or tear down namespaces. What
 * happens then, whether the call lands and is heard, and what it is answered are the world's, an arbitrary
 * function of the call's place in the log. The one thing of it that is the loop's is the time it gives the
 * call, and the class invariant fixes that by what the call is for (`Proper`): so by Calls.FateOf what a
 * contract says of the log is nothing the loop made up. A dead process is modelled by letting it run on
 * with every call lost, until a restart.
 */
module Reconciling {
  import opened Basics
  import opened StateMachine
  import opened Configuration
  import opened Tables
  import opened Runs
  import opened Invariant
  import opened History
  import opened Releases
  import opened Drives
  import opened Clusters
  import opened Claims
  import opened Calls
  import opened Driving
  import opened Passes
  import opened Reaping
  import opened Stores

  /** The loop's own copy of the row it is driving, which it keeps in step as it goes. */
  class Dep {
    const id: Id
    const app: Id
    const source: Source
    const createdAt: int
    var state: State
    var buildPath: string
    var jobName: string
    var imageRepo: string
    var imageDigest: string

    constructor (v: View)
      ensures Seen() == v
    {
      id, app, source, createdAt := v.id, v.app, v.source, v.createdAt;
      state, buildPath, jobName, imageRepo, imageDigest := v.state, v.buildPath, v.jobName, v.imageRepo, v.imageDigest;
    }

    function Seen(): View
      reads this
    {
      View(id, app, source, state, buildPath, jobName, imageRepo, imageDigest, createdAt)
    }
  }

  class Reconciler {
    const store: Store
    const opts: Options
    /** Everything outside: what happens before the k-th call, its fate and its answer are world(k). */
    const world: World
    const since: int
    var now: int
    var cancelled: bool
    var dead: bool
    var cluster: Cluster
    /** Every call ever made, and which of them is the first of the running process. */
    var calls: seq<Call>
    var boot: nat
    ghost const history: seq<Action>
    ghost var trace: seq<Action>

    /** Starts on whatever a legal run made of an empty database, by earlier processes or by agents. */
    constructor (store: Store, opts: Options, world: World, cluster: Cluster, now: int, ghost history: seq<Action>)
      requires Legal(EMPTY, history) && store.db == After(EMPTY, history)
      requires ClusterOk(store.db, cluster, now) && opts.interval >= 1 && opts.grace >= 0
      ensures Valid() && this.store == store && this.opts == opts && this.world == world
      ensures this.cluster == cluster && this.now == now
      ensures !dead && !cancelled && trace == history == this.history && calls == []
    {
      this.store, this.opts, this.world, this.since, this.cluster, this.now := store, opts, world, now, cluster, now;
      this.cancelled, this.dead, this.calls, this.boot, this.history, this.trace := false, false, [], 0, history,
          history;
      new;
      assert history + CommittedBy([]) == history;
    }

    /** What the database holds is what one legal run, from the empty database on, makes of it. */
    ghost predicate Sound()
      reads this, store
    {
      && Legal(EMPTY, trace) && store.db == After(EMPTY, trace)
      && ClusterOk(store.db, cluster, now)
      && opts.interval >= 1 && opts.grace >= 0
    }

    /** And the log says how it came about: every commit since the start, and every fate, is the world's. */
    ghost predicate Valid()
      reads this, store
    {
      Sound() && Logged(world, opts, since, history, Marked())
    }

    ghost function Marked(): Mark
      reads this, store
    {
      Mark(trace, calls, boot, store.db, now, dead, cancelled, cluster)
    }

    ghost predicate Since(m: Mark, ids: set<Id>)
      reads this, store
    {
      Valid() && Later(m, Marked(), ids)
    }

    /** Some call from this one on shows it. */
    ghost predicate Evident(from: nat, e: Evidence)
      reads this
    {
      Shown(world, calls, from, e)
    }

    /** The process is dead, or this has no time left: whatever is recorded then does not land, or is timeout. */
    predicate Cut(ctx: Context)
      reads this
    {
      dead || Expired(ctx)
    }

    /** Some call from this one on shows it, or was cut short. */
    ghost predicate Excused(ctx: Context, from: nat, e: Evidence)
      reads this
    {
      Cut(ctx) || Evident(from, e)
    }

    /** A failure a drive must record has its reason from what happened since that point, unless it was cut short. */
    ghost predicate Blamed(m: Mark, ctx: Context, id: Id, app: Id, f: Option<Failure>)
      reads this, store
    {
      f.Some? && !f.value.ended ==> Cut(ctx) || Because(world, opts, m, Marked(), ctx, id, app, f.value.reason)
    }

    predicate Expired(ctx: Context)
      reads this
    {
      ExpiredAt(ctx, now, cancelled)
    }

    lemma Consistent()
      requires Sound()
      ensures Inv(store.db)
    {
      hide Inv, Legal, After;
      EmptyInv();
      InvOverRuns(EMPTY, trace);
    }

    lemma SinceNow()
      requires Valid()
      ensures Since(Marked(), {}) && HandsOff(Marked(), Marked())
    {
      hide Inv, Legal, After, ClusterOk, Evolves;
      EvolvesReflexive(store.db);
      SparedNothing(store.db, cluster, now, store.db);
      assert calls[|calls|..] == [];
    }

    // ---- The world outside ---------------------------------------------------------------

    method AgentActs(a: Action)
      requires Sound() && a.Agent() && Guard(store.db, a)
      modifies this`trace, store
      ensures Sound() && Went(old(Marked()), Marked(), {}) && HandsOff(old(Marked()), Marked())
      ensures trace == old(trace) + [a]
    {
      hide Inv, Legal, After, Guard, ClusterOk, Apply, Evolves, Spared;
      EmptyInv();
      Committed(EMPTY, trace, store.db, a, cluster, now);
      SparedNothing(store.db, cluster, now, Apply(store.db, a));
      store.Perform(a);
      trace := trace + [a];
    }

    /** Somebody else changes the cluster: delete_app's teardown, or another process composing. */
    method OutsiderActs(slug: string)
      requires Sound()
      modifies this`cluster
      ensures Sound() && Went(old(Marked()), Marked(), {}) && HandsOff(old(Marked()), Marked())
    {
      hide Inv, Legal, After, Evolves;
      EvolvesReflexive(store.db);
      if slug in cluster {
        if Retired(store.db, slug) {
          cluster := cluster - {slug};
        }
      } else if LiveSlug(store.db, slug) {
        Consistent();
        LiveOrRetired(store.db, slug);
        cluster := cluster[slug := Namespace(now, false, None, None)];
      }
    }

    method TimePasses(elapsed: nat)
      requires Sound()
      modifies this`now
      ensures Sound() && Went(old(Marked()), Marked(), {}) && HandsOff(old(Marked()), Marked())
      ensures now == old(now) + elapsed
    {
      hide Inv, Legal, After, ClusterOk, Evolves, Spared;
      EvolvesReflexive(store.db);
      ClusterOkLater(store.db, cluster, now, store.db, now + elapsed);
      SparedNothing(store.db, cluster, now, store.db);
      now := now + elapsed;
    }

    /** The world's turn at the next call: what happens before it, whether it lands, and whether it is heard. */
    method Pass(ctx: Context, what: What) returns (c: Call)
      requires Valid()
      modifies this`now, this`cancelled, this`dead, this`cluster, this`trace, store
      ensures Sound() && Went(old(Marked()), Marked(), {}) && HandsOff(old(Marked()), Marked())
      ensures c.what == what && c.ctx == ctx && c.boot == boot && Befell(world, opts.interval, old(now), |calls|, c)
      ensures trace == old(trace) + c.agents && now == c.until
      ensures dead == DiedSince(world, boot, |calls| + 1) && cancelled == ToldSince(world, boot, |calls| + 1)
      ensures !what.Rest? ==> c.at == now && c.fate == if Cut(ctx) then Lost else world(|calls|).fate
      ensures dead ==> c.fate == Lost
      ensures what.Rest? && !Expired(ctx) ==> old(now) + opts.interval <= now
    {
      hide Inv, Legal, After, ClusterOk, Went, HandsOff, Logged, DiedSince, ToldSince, Befell, ExpiredAt;
      var turn := world(|calls|);
      Flags();
      var at, agents, over := Elapse(turn, ctx, what.Rest?);
      c := Call(what, ctx, boot, at, now, agents, if over || dead then Lost else turn.fate);
      Befalls(world, opts.interval, old(now), |calls|, c, cancelled, dead);
      ExpiredLater(ctx, at, now, cancelled);
    }

    /** The turn happens, and then a rest is slept through if there is time for it. */
    method Elapse(turn: Turn, ctx: Context, resting: bool) returns (at: int, agents: seq<Action>, over: bool)
      requires Sound()
      modifies this`now, this`cancelled, this`dead, this`cluster, this`trace, store
      ensures Sound() && Went(old(Marked()), Marked(), {}) && HandsOff(old(Marked()), Marked())
      ensures dead == (old(dead) || turn.died) && cancelled == (old(cancelled) || turn.told)
      ensures trace == old(trace) + agents
      ensures forall a | a in agents :: a.Agent() && Agent(a) in turn.others
      ensures at == old(now) + turn.elapsed && over == ExpiredAt(ctx, at, cancelled)
      ensures now == at + if resting && !over then opts.interval else 0
      ensures opts.interval >= 1
    {
      hide Inv, Legal, After, ClusterOk, Went, HandsOff, ExpiredAt;
      agents := Happen(turn);
      at, over := now, Expired(ctx);
      ghost var m := Marked();
      Sleep(over || !resting);
      Going(old(Marked()), m, {}, Marked(), {}, {});
    }

    /** One tick, unless there is no time for it. */
    method Sleep(over: bool)
      requires Sound()
      modifies this`now
      ensures Sound() && Went(old(Marked()), Marked(), {}) && HandsOff(old(Marked()), Marked())
      ensures now == old(now) + if over then 0 else opts.interval
    {
      TimePasses(if over then 0 else opts.interval);
    }

    /** What the world has happen before a call. */
    method Happen(turn: Turn) returns (agents: seq<Action>)
      requires Sound()
      modifies this`now, this`cancelled, this`dead, this`cluster, this`trace, store
      ensures Sound() && Went(old(Marked()), Marked(), {}) && HandsOff(old(Marked()), Marked())
      ensures now == old(now) + turn.elapsed
      ensures dead == (old(dead) || turn.died) && cancelled == (old(cancelled) || turn.told)
      ensures trace == old(trace) + agents
      ensures forall a | a in agents :: a.Agent() && Agent(a) in turn.others
    {
      hide Inv, Legal, After, Guard, ClusterOk, Went, HandsOff, Apply;
      TimePasses(turn.elapsed);
      MoreFlags(old(Marked()), cancelled || turn.told, dead || turn.died);
      cancelled, dead := cancelled || turn.told, dead || turn.died;
      ghost var m := Marked();
      agents := Others(turn.others);
      Going(old(Marked()), m, {}, Marked(), {}, {});
    }

    /** Everybody else's turn: agents commit what they may, and outsiders tend namespaces. */
    method Others(others: seq<Other>) returns (agents: seq<Action>)
      requires Sound()
      modifies this`cluster, this`trace, store
      ensures Sound() && Went(old(Marked()), Marked(), {}) && HandsOff(old(Marked()), Marked())
      ensures trace == old(trace) + agents
      ensures forall a | a in agents :: a.Agent() && Agent(a) in others
    {
      hide Inv, Legal, After, Guard, ClusterOk, Went, HandsOff, Apply;
      agents := [];
      NowhereGone();
      for i := 0 to |others|
        invariant Sound() && Went(old(Marked()), Marked(), {}) && HandsOff(old(Marked()), Marked())
        invariant trace == old(trace) + agents
        invariant forall a | a in agents :: a.Agent() && Agent(a) in others
      {
        ghost var m := Marked();
        match others[i] {
          case Agent(a) =>
            if a.Agent() && Guard(store.db, a) {
              AgentActs(a);
              agents := agents + [a];
              Going(old(Marked()), m, {}, Marked(), {}, {});
            }
          case Outsider(slug) =>
            OutsiderActs(slug);
            Going(old(Marked()), m, {}, Marked(), {}, {});
        }
      }
    }

    lemma NowhereGone()
      ensures Went(Marked(), Marked(), {}) && HandsOff(Marked(), Marked())
    {
      hide Evolves;
      EvolvesReflexive(store.db);
      SparedNothing(store.db, cluster, now, store.db);
    }

    /** What the world's turn makes of the flags. */
    lemma Flags()
      requires Valid()
      ensures (dead || world(|calls|).died) == DiedSince(world, boot, |calls| + 1)
      ensures (cancelled || world(|calls|).told) == ToldSince(world, boot, |calls| + 1)
      ensures boot <= |calls|
    {
      SinceNext(world, boot, |calls|);
    }

    lemma MoreFlags(m: Mark, told: bool, died: bool)
      requires Sound() && Went(m, Marked(), {}) && HandsOff(m, Marked()) && (cancelled ==> told) && (dead ==> died)
      ensures var n := Marked().(cancelled := told, dead := died); Went(m, n, {}) && HandsOff(m, n)
    {
      hide Inv, Legal, After, ClusterOk, Evolves, Spared;
    }

    /** The call is given the time it should be, and no less. */
    ghost predicate MayAsk(ctx: Context, what: What)
      reads this, store
    {
      Proper(opts, since, calls, what, ctx, store.db)
    }

    /** One call that writes nothing of the platform's own: whether it landed, and whether it was answered. */
    method Send(ctx: Context, what: What) returns (fate: Fate)
      requires Valid() && ActionOf(what, 0).None? && MayAsk(ctx, what)
      modifies this, store
      ensures Since(old(Marked()), {}) && HandsOff(old(Marked()), Marked()) && boot == old(boot)
      ensures Made(old(calls), calls, what, fate) && calls[|old(calls)|].ctx == ctx
      ensures !what.Rest? ==> fate == if Cut(ctx) then Lost else world(|old(calls)|).fate
      ensures what.Rest? && !Expired(ctx) ==> old(now) + opts.interval <= now
    {
      hide Inv, Legal, After, ClusterOk, HandsOff, Logged, Went, Befell, LandedBy, DiedSince, ToldSince, Proper,
           Warranted, ExpiredAt, Grew;
      var c := Pass(ctx, what);
      ghost var m := old(Marked());
      WarrantedNone(world, m.calls, what, m.db);
      NoneLanded(c);
      WentEvolves(m, Marked(), {});
      OneMoreCall(m, Marked(), Marked().(calls := calls + [c]), {});
      LoggedNext(world, opts, since, history, m, Marked().(calls := calls + [c]), c);
      calls := calls + [c];
      fate := c.fate;
    }

    /** A call outside that leaves nothing this model keeps. */
    method Ask(ctx: Context, what: What) returns (ok: bool)
      requires Valid() && ActionOf(what, 0).None? && MayAsk(ctx, what)
      modifies this, store
      ensures Since(old(Marked()), {}) && HandsOff(old(Marked()), Marked()) && boot == old(boot)
      ensures |calls| == |old(calls)| + 1 && old(calls) <= calls && calls[|old(calls)|].what == what
      ensures calls[|old(calls)|].ctx == ctx
      ensures ok <==> calls[|old(calls)|].fate == Heard
      ensures !what.Rest? ==> (ok <==> !Cut(ctx) && world(|old(calls)|).fate == Heard)
      ensures !ok && !Polls(what) ==> Excused(ctx, |old(calls)|, NoAnswer)
    {
      hide Inv, Legal, After, ClusterOk, Later, HandsOff, Logged;
      var fate := Send(ctx, what);
      ok := fate == Heard;
      assert !ok && !Polls(what) && !Cut(ctx) ==> Shows(world, |old(calls)|, calls[|old(calls)|], NoAnswer);
    }

    // ---- The store, through the adapter --------------------------------------------------

    /** One landed write of the loop, appended to the run. */
    lemma Appended(m: Mark, a: Action, id: Id)
      requires Sound() && Went(m, Marked(), {}) && HandsOff(m, Marked()) && Subject(a) == Some(id)
      requires m.db == After(EMPTY, m.trace) && id in m.db.deployments && Established(EMPTY, m.trace, a)
      ensures id in store.db.deployments && AgentKept(m.db.deployments[id], store.db.deployments[id])
      ensures Guard(store.db, a) && Inv(store.db)
      ensures var n := Marked().(trace := trace + [a], db := Apply(store.db, a));
              && Legal(EMPTY, n.trace) && n.db == After(EMPTY, n.trace) && ClusterOk(n.db, cluster, now)
              && Went(m, n, {id}) && HandsOff(m, n)
    {
      hide Inv, Legal, After, Guard, Composed, ClusterOk, Evolves, Spared, Apply, AgentKept;
      EmptyInv();
      Onward(EMPTY, m.trace, trace);
      Untouched(EMPTY, m.trace, trace, {}, id);
      GuardSurvives(m.db, store.db, a, id);
      if a.MarkHealthy? {
        ComposedSurvives(EMPTY, m.trace, trace, id, a.config);
      }
      Committed(EMPTY, trace, store.db, a, cluster, now);
      SparedOnward(m.db, m.cluster, m.now, store.db, cluster, Apply(store.db, a));
    }

    /** What a writer establishes, whenever the write lands. */
    ghost predicate MayWrite(ctx: Context, what: What)
      reads this, store
    {
      && what.Row().Some? && what.Row().value in store.db.deployments
      && (forall at :: Established(EMPTY, trace, ActionOf(what, at).value))
      && Warranted(world, calls, what, store.db)
      && MayAsk(ctx, what)
    }

    /** One write: `mid` is what the agents had made of the tables when it landed, or did not. */
    method Write(ctx: Context, what: What) returns (fate: Fate, answer: Result<Id, StoreError>, ghost mid: Tables)
      requires Valid() && MayWrite(ctx, what)
      modifies this, store
      ensures Since(old(Marked()), {what.Row().value}) && HandsOff(old(Marked()), Marked()) && boot == old(boot)
      ensures Made(old(calls), calls, what, fate) && calls[|old(calls)|].ctx == ctx
      ensures fate == if Cut(ctx) then Lost else world(|old(calls)|).fate
      ensures Wrote(old(store.db), what, now, fate, answer, mid, store.db)
    {
      hide Proper, Inv, Legal, After, Guard, Composed, ClusterOk, HandsOff, Logged, Went, Established, Warranted,
           AgentKept, TransitionTx, MarkHealthyTx, RecordBuildTx, ReleaseClaimTx, Befell, DiedSince, ToldSince,
           Apply, AnswerTo, LandedBy;
      ghost var m, id := old(Marked()), what.Row().value;
      var c := Pass(ctx, what);
      ghost var a := ActionOf(what, now).value;
      RowOf(what, now);
      Appended(m, a, id);
      mid, fate, answer := store.db, c.fate, Err(NotFound);
      if fate != Lost {
        answer := Perform(what);
        trace := trace + [a];
      } else {
        MoreIds(m, Marked(), {id});
      }
      Closes(m, c, a, id);
      calls := calls + [c];
    }

    /** The write is entered in the log. */
    lemma Closes(m: Mark, c: Call, a: Action, id: Id)
      requires Logged(world, opts, since, history, m) && calls == m.calls && now == c.until
      requires Befell(world, opts.interval, m.now, |calls|, c) && Warranted(world, calls, c.what, m.db)
      requires Proper(opts, since, calls, c.what, c.ctx, m.db) && boot == m.boot == c.boot
      requires Went(m, Marked(), {id}) && HandsOff(m, Marked()) && ActionOf(c.what, c.at) == Some(a)
      requires trace == m.trace + c.agents + if c.fate != Lost then [a] else []
      requires dead == DiedSince(world, boot, |calls| + 1) && cancelled == ToldSince(world, boot, |calls| + 1)
      ensures var n := Marked().(calls := calls + [c]);
              && Logged(world, opts, since, history, n)
              && Later(m, n, {id}) && HandsOff(m, n)
    {
      hide Logged, Went, HandsOff, Warranted, Befell, DiedSince, ToldSince, LandedBy, Grew;
      OneLanded(c, a);
      WentEvolves(m, Marked(), {id});
      OneMoreCall(m, Marked(), Marked().(calls := calls + [c]), {id});
      LoggedNext(world, opts, since, history, m, Marked().(calls := calls + [c]), c);
    }

    /** The store's own method for the write. */
    method Perform(what: What) returns (answer: Result<Id, StoreError>)
      requires what.Row().Some?
      modifies store
      ensures store.db == Apply(old(store.db), ActionOf(what, now).value)
      ensures answer == AnswerTo(old(store.db), ActionOf(what, now).value)
    {
      hide TransitionTx, MarkHealthyTx, RecordBuildTx, ReleaseClaimTx, Answered;
      match what {
        case MoveRow(id, to, reason) =>
          var r := store.Transition(id, to, reason, "", now);
          answer := Answered(id, r);
        case PromoteRow(id, config) =>
          answer := store.MarkHealthy(id, config, now);
        case Record(id, path, job, repo, digest) =>
          var r := store.RecordBuildResult(id, path, job, repo, digest);
          answer := Answered(id, r);
        case HandBack(id) =>
          var released := store.ReleaseBuildingClaim(id);
          answer := if released then Ok(id) else Err(NotFound);
      }
    }

    method Transition(ctx: Context, id: Id, to: State, reason: string) returns (r: Reply, fate: Fate)
      requires Valid() && MayWrite(ctx, MoveRow(id, to, reason))
      modifies this, store
      ensures Since(old(Marked()), {id}) && HandsOff(old(Marked()), Marked())
      ensures Made(old(calls), calls, MoveRow(id, to, reason), fate)
      ensures fate == if Cut(ctx) then Lost else world(|old(calls)|).fate
      ensures id in store.db.deployments
      ensures Moves(old(store.db).deployments[id], store.db.deployments[id], to, reason, fate == Lost)
      ensures r == Done ==> fate == Heard && store.db.deployments[id].state == to
      ensures r == NotInFlight ==> fate == Heard && Terminal(store.db.deployments[id].state)
      ensures var s := old(store.db).deployments[id].state;
              r == Fault && (CanTransition(s, to) || Terminal(s)) ==> Excused(ctx, |old(calls)|, NoAnswer)
    {
      hide Inv, Legal, After, Guard, Composed, ClusterOk, Later, HandsOff, TransitionTx, Moves, Logged, Apply,
           Warranted;
      ghost var d := store.db.deployments[id];
      var answer;
      ghost var mid;
      fate, answer, mid := Write(ctx, MoveRow(id, to, reason));
      assert fate != Heard && !Cut(ctx) ==> Shows(world, |old(calls)|, calls[|old(calls)|], NoAnswer);
      ApplyTransition(mid, id, to, reason, "", now);
      TransitionMoves(mid, id, to, reason, "", now, d);
      if fate == Lost {
        LostMoves(d, mid.deployments[id], to, reason);
        return Fault, fate;
      }
      r := if fate == Unheard then Fault
           else if answer.Ok? then Done
           else if answer == Err(TerminalState) then NotInFlight else Fault;
    }

    lemma RowKept(m: Mark, ids: set<Id>, id: Id)
      requires Since(m, ids) && m.db == After(EMPTY, m.trace) && id !in ids && id in m.db.deployments
      ensures id in store.db.deployments && AgentKept(m.db.deployments[id], store.db.deployments[id])
    {
      hide Inv, Legal, After, ClusterOk, Evolves, AgentKept, Logged, Grew;
      EmptyInv();
      Untouched(EMPTY, m.trace, trace, ids, id);
    }

    lemma NothingAbout(m: Mark, ids: set<Id>)
      requires Since(m, {})
      ensures Since(m, ids)
    {
      hide Inv, Legal, After, ClusterOk, Logged;
      SinceNow();
      Then(m, Marked(), {}, Marked(), {}, ids);
    }

    method MarkHealthy(ctx: Context, id: Id, config: Config) returns (r: Reply)
      requires Valid() && MayWrite(ctx, PromoteRow(id, config))
      modifies this, store
      ensures Since(old(Marked()), {id}) && HandsOff(old(Marked()), Marked())
      ensures old(calls) <= calls
      ensures Promoted(old(store.db).deployments[id], store.db, id, config)
      ensures r == Done ==> store.db.deployments[id].state == Healthy
      ensures r == NotInFlight ==> Terminal(store.db.deployments[id].state)
      ensures var s := old(store.db).deployments[id].state;
              r == Fault && (s == Deploying || Terminal(s)) ==> Excused(ctx, |old(calls)|, NoAnswer)
    {
      hide Inv, Legal, After, Guard, Composed, ClusterOk, Later, HandsOff, MarkHealthyTx, Minted, Logged, Apply,
           Warranted;
      ghost var d := store.db.deployments[id];
      var fate, answer, mid := Write(ctx, PromoteRow(id, config));
      assert fate != Heard && !Cut(ctx) ==> Shows(world, |old(calls)|, calls[|old(calls)|], NoAnswer);
      ApplyMarkHealthy(mid, id, config, now);
      MarkHealthyPromotes(mid, id, config, now, d);
      KeptPromoted(d, mid, id, config);
      MarkHealthyTerminal(mid, id, config, now);
      if d.state == Deploying && mid.deployments[id].state == Deploying {
        LoopMintsOrWasOvertaken(mid, id, config, now);
      }
      hide Promoted;
      r := if fate != Heard then Fault
           else if answer.Ok? then Done
           else if answer == Err(TerminalState) then NotInFlight else Fault;
    }

    method RecordBuild(ctx: Context, id: Id, path: string, job: string, repo: string, digest: string) returns (ok: bool)
      requires Valid() && MayWrite(ctx, Record(id, path, job, repo, digest))
      modifies this, store
      ensures Since(old(Marked()), {id}) && HandsOff(old(Marked()), Marked())
      ensures old(calls) <= calls && Annotates(old(store.db), store.db, id, path, job, digest, ok)
      ensures !ok ==> Excused(ctx, |old(calls)|, NoAnswer)
      ensures ok && digest != "" ==> Evident(|old(calls)|, Recorded(id))
      ensures Unasked(calls, |old(calls)|)
      ensures Unpolled(id)
    {
      hide Proper, Inv, Legal, After, Guard, Composed, ClusterOk, Later, HandsOff, Logged, Warranted, Established;
      var fate, answer, mid := Write(ctx, Record(id, path, job, repo, digest));
      BeganNext(old(calls), calls, id);
      ok := fate == Heard;
      assert !ok && !Cut(ctx) ==> Shows(world, |old(calls)|, calls[|old(calls)|], NoAnswer);
      assert ok && digest != "" ==> Shows(world, |old(calls)|, calls[|old(calls)|], Calls.Recorded(id));
    }

    /** Whether the claim was handed back, or None when the answer never came. */
    method ReleaseClaim(ctx: Context, id: Id) returns (r: Option<bool>)
      requires Valid() && ctx == UNBOUNDED && MayWrite(ctx, HandBack(id))
      modifies this, store
      ensures Since(old(Marked()), {id}) && HandsOff(old(Marked()), Marked())
      ensures |calls| == |old(calls)| + 1 && old(calls) <= calls && calls[|old(calls)|].what == HandBack(id)
      ensures r.Some? <==> calls[|old(calls)|].fate == Heard
      ensures Free(world, |old(calls)|, calls[|old(calls)|])
      ensures id in store.db.deployments
      ensures var d, e, fate := old(store.db).deployments[id], store.db.deployments[id], calls[|old(calls)|].fate;
              && (if fate == Lost then AgentKept(d, e) else e.state == d.state || (InFlight(d) && e.state == Cancelled))
              && (fate != Lost && d.state == Building ==> e.state == Cancelled || e.claimedBy == None)
              && (r == Some(true) ==> e.state == Building && e.claimedBy == None)
              && (r == Some(false) ==> e.state != Building)
    {
      hide Inv, Legal, After, ClusterOk, Later, HandsOff, Logged, Composed, Warranted;
      var fate, answer, mid := Write(ctx, HandBack(id));
      FreeNow(|old(calls)|);
      r := if fate == Heard then Some(answer.Ok?) else None;
    }

    /** No polling loop of this drive is under way. */
    predicate Unpolled(id: Id)
      reads this
    {
      Began(calls, id) == |calls|
    }

    /** The app a deployment is for, and whether its account is suspended. A deleted app is not found. */
    method GetApp(ctx: Context, id: Id, app: Id) returns (r: Option<AppRow>)
      requires Valid() && app in store.db.apps && OnBudget(opts, store.db, id, ctx)
      modifies this, store
      ensures Since(old(Marked()), {}) && HandsOff(old(Marked()), Marked()) && old(calls) <= calls
      ensures app in store.db.apps && Unasked(calls, |old(calls)|) && Looked(calls, id)
      ensures Began(calls, id) == if old(Unpolled(id)) then |calls| else Began(old(calls), id)
      ensures r.Some? ==> r.value.slug == store.db.apps[app].slug
      ensures r.Some? ==> Evident(|old(calls)|, if r.value.suspended then SuspendedSaid(app) else ActiveSaid(app))
      ensures r.Some? ==> !store.db.apps[app].deleted
      ensures r.None? ==> Excused(ctx, |old(calls)|, NoAnswer) || Torn(store.db, app)
    {
      hide Began, InPhase, Inv, Legal, After, ClusterOk, Later, HandsOff, Logged;
      var asked := |calls|;
      var ok := Ask(ctx, AppRead(id, app));
      BeganNext(old(calls), calls, id);
      SlugStays(old(Marked()), Marked(), {}, app);
      if !ok || store.db.apps[app].deleted {
        return None;
      }
      r := Some(AppRow(store.db.apps[app].slug, world(asked).suspended));
      assert Shows(world, asked, calls[asked], if r.value.suspended then SuspendedSaid(app) else ActiveSaid(app));
    }

    method ConfigForDeploy(ctx: Context, id: Id, app: Id) returns (r: Option<Config>)
      requires Valid() && OnBudget(opts, store.db, id, ctx)
      modifies this, store
      ensures Since(old(Marked()), {}) && HandsOff(old(Marked()), Marked()) && old(calls) <= calls
      ensures r.Some? ==> r.value == if app in store.db.apps then store.db.apps[app].config else map[]
      ensures r.None? ==> Excused(ctx, |old(calls)|, NoAnswer)
    {
      hide Inv, Legal, After, ClusterOk, Later, HandsOff, Logged;
      var ok := Ask(ctx, ConfigRead(id, app));
      if !ok {
        return None;
      }
      r := Some(if app in store.db.apps then store.db.apps[app].config else map[]);
    }

    method ReleaseSnapshot(ctx: Context, id: Id, rel: Id) returns (r: Option<Config>)
      requires Valid() && OnBudget(opts, store.db, id, ctx)
      modifies this, store
      ensures Since(old(Marked()), {}) && HandsOff(old(Marked()), Marked()) && old(calls) <= calls
      ensures r.Some? ==> rel in store.db.releases && DecodeSnapshot(store.db.releases[rel].snapshot) == Ok(r.value)
      ensures r.None? && rel in store.db.releases ==> Excused(ctx, |old(calls)|, NoAnswer)
    {
      hide Inv, Legal, After, ClusterOk, Later, HandsOff, Logged, DecodeSnapshot, EntriesOk;
      var ok := Ask(ctx, SnapshotRead(id, rel));
      if !ok || rel !in store.db.releases {
        return None;
      }
      Consistent();
      SnapshotEntriesOk(store.db, rel);
      var decoded := DecodeSnapshot(store.db.releases[rel].snapshot);
      r := if decoded.Ok? then Some(decoded.value) else None;
    }

    // ---- The cluster ---------------------------------------------------------------------

    method EnsureNamespace(ctx: Context, id: Id, slug: string) returns (ok: bool, ghost n: Namespace)
      requires Valid() && SlugUsed(store.db, slug) && OnBudget(opts, store.db, id, ctx)
      modifies this, store
      ensures Since(old(Marked()), {}) && old(calls) <= calls
      ensures ok ==> Stands(store.db, cluster, slug, n) && NamespaceOk(n)
      ensures !ok ==> Excused(ctx, |old(calls)|, NoAnswer)
    {
      hide Inv, Legal, After, HandsOff, Evolves, SlugUsed, Logged, Grew;
      var fate := Send(ctx, Compose(id, slug));
      assert fate != Heard && !Cut(ctx) ==> Shows(world, |old(calls)|, calls[|old(calls)|], NoAnswer);
      RetiredForever(old(store.db), store.db, slug);
      n := Namespace(now, false, None, None);
      if fate == Lost {
        return false, n;
      }
      ghost var m := Marked();
      if slug !in cluster {
        cluster := cluster[slug := Namespace(now, false, None, None)];
      }
      SameLog(old(Marked()), m, Marked());
      n := cluster[slug];
      ok := fate == Heard;
    }

    /** The cluster is no part of the log. */
    lemma SameLog(a: Mark, m: Mark, n: Mark)
      requires n == m.(cluster := n.cluster) && Logged(world, opts, since, history, m) && Grew(a, m)
      ensures Logged(world, opts, since, history, n) && Grew(a, n)
    {
    }

    /** Fences, supplies or runs what is in an app's namespace. A namespace torn down meanwhile refuses. */
    method ApplyChange(ctx: Context, id: Id, slug: string, change: Change, ghost n: Namespace) returns (ok: bool)
      requires Valid() && OnBudget(opts, store.db, id, ctx)
      requires Stands(store.db, cluster, slug, n) && NamespaceOk(Changed(n, change))
      modifies this, store
      ensures Since(old(Marked()), {}) && old(calls) <= calls
      ensures ok ==> Stands(store.db, cluster, slug, Changed(n, change))
      ensures !ok ==> Excused(ctx, |old(calls)|, NoAnswer) || Retired(store.db, slug)
      ensures Unpolled(id)
    {
      hide Inv, Legal, After, Evolves, SlugUsed, Spared, Logged, Grew, Retired;
      var fate := Send(ctx, Compose(id, slug));
      BeganNext(old(calls), calls, id);
      assert fate != Heard && !Cut(ctx) ==> Shows(world, |old(calls)|, calls[|old(calls)|], NoAnswer);
      StillStands(old(store.db), old(cluster), old(now), store.db, cluster, slug, n);
      if fate == Lost || slug !in cluster {
        return false;
      }
      ghost var m := Marked();
      cluster := cluster[slug := Changed(cluster[slug], change)];
      SameLog(old(Marked()), m, Marked());
      ok := fate == Heard;
    }

    // ---- The drive -----------------------------------------------------------------------

    lemma StaysInSync(m: Mark, ids: set<Id>, v: View)
      requires Since(m, ids) && m.db == After(EMPTY, m.trace) && v.id !in ids && Phase(v, m.db, None)
      ensures Phase(v, store.db, None)
    {
      hide Inv, Legal, After, ClusterOk, Later, Logged;
      RowKept(m, ids, v.id);
    }

    /** A failure has its reason from a point as much as from any later one. */
    lemma BlamedSince(a: Mark, m: Mark, ids: set<Id>, ctx: Context, id: Id, app: Id, f: Option<Failure>)
      requires Later(a, m, ids) && Blamed(m, ctx, id, app, f)
      ensures Blamed(a, ctx, id, app, f)
    {
      hide Later, Because;
      if f.Some? && !f.value.ended && !Cut(ctx) {
        BecauseSince(world, opts, a, m, ids, Marked(), ctx, id, app, f.value.reason);
      }
    }

    /** What was evident by then, from a call on, is evident now, and from any earlier call on. */
    lemma EvidentStill(m: Mark, from: nat, early: nat, e: Evidence)
      requires Shown(world, m.calls, from, e) && m.calls <= calls && early <= from
      ensures Evident(early, e)
    {
      hide Shown;
      ShownMore(world, m.calls, from, calls, early, e);
    }

    lemma ExcusedSince(ctx: Context, from: nat, early: nat, e: Evidence)
      requires Excused(ctx, from, e) && early <= from
      ensures Excused(ctx, early, e)
    {
    }

    lemma ExcusedStill(m: Mark, ids: set<Id>, ctx: Context, from: nat, e: Evidence)
      requires Later(m, Marked(), ids)
      requires m.dead || ExpiredAt(ctx, m.now, m.cancelled) || Shown(world, m.calls, from, e)
      ensures Excused(ctx, from, e)
    {
      hide Shown;
      if Shown(world, m.calls, from, e) {
        EvidentStill(m, from, from, e);
      }
    }

    /** The whole phase boundary check: the budget, then the account, re-read each time. */
    method Blocked(ctx: Context, id: Id, app: Id) returns (f: Option<Failure>)
      requires Valid() && app in store.db.apps && OnBudget(opts, store.db, id, ctx)
      modifies this, store
      ensures Since(old(Marked()), {}) && HandsOff(old(Marked()), Marked()) && old(calls) <= calls
      ensures app in store.db.apps && Unasked(calls, |old(calls)|)
      ensures f.None? ==> Evident(|old(calls)|, ActiveSaid(app)) && Looked(calls, id)
      ensures f.None? ==> Began(calls, id) == if old(Unpolled(id)) then |calls| else Began(old(calls), id)
      ensures f.Some? ==> f.value.reason in {TIMEOUT, INTERNAL, ACCOUNT_SUSPENDED} && !f.value.ended
      ensures Blamed(old(Marked()), ctx, id, app, f)
      ensures old(Expired(ctx)) ==> f == Some(Failure(TIMEOUT, false))
    {
      hide Inv, Legal, After, ClusterOk, Later, HandsOff, Logged, Shown, Torn;
      if Expired(ctx) {
        SinceNow();
        return Some(Failure(TIMEOUT, false));
      }
      var row := GetApp(ctx, id, app);
      if row.None? {
        return Some(Failure(INTERNAL, false));
      }
      f := if row.value.suspended then Some(Failure(ACCOUNT_SUSPENDED, false)) else None;
    }

    /**
     * Sleeps one tick. Going on means the phase had time left when it began and a whole interval has
     * been spent, which is what makes every polling loop end. The phase's own reason is given only when
     * the phase ran out and the call itself did not.
     */
    method Wait(ctx: Context, phase: Context, id: Id, app: Id, onDeadline: string) returns (f: Option<Failure>)
      requires Valid() && phase.deadline.Some? && app in store.db.apps
      requires OnBudget(opts, store.db, id, ctx) && MayAsk(phase, Rest(id)) && !Unpolled(id)
      modifies this, store
      ensures Since(old(Marked()), {}) && HandsOff(old(Marked()), Marked()) && old(calls) <= calls
      ensures app in store.db.apps && Unasked(calls, |old(calls)|)
      ensures f.None? ==> Evident(|old(calls)|, ActiveSaid(app))
      ensures f.None? ==> Looked(calls, id) && Began(calls, id) == Began(old(calls), id)
      ensures f.Some? ==> f.value.reason in {TIMEOUT, INTERNAL, ACCOUNT_SUSPENDED, onDeadline} && !f.value.ended
      ensures f.None? ==> old(now) < phase.deadline.value && old(now) + opts.interval <= now
      ensures Blamed(old(Marked()), ctx, id, app, f)
              || (f == Some(Failure(onDeadline, false)) && Expired(phase) && !Expired(ctx))
    {
      hide Proper, Began, OnBudget, Inv, Legal, After, ClusterOk, Later, HandsOff, Logged, Shown, Torn, Because;
      Nap(ctx, phase, id, app);
      ghost var m := Marked();
      if !Expired(phase) {
        f := Blocked(ctx, id, app);
        Then(old(Marked()), m, {}, Marked(), {}, {});
        BlamedSince(old(Marked()), m, {}, ctx, id, app, f);
        LaterClock(m, Marked(), {});
        if f.None? {
          EvidentStill(Marked(), |m.calls|, |old(calls)|, ActiveSaid(app));
        }
        return;
      }
      f := Some(Failure(if Expired(ctx) then TIMEOUT else onDeadline, false));
      TimeBlame(old(Marked()), ctx, id, app);
    }

    /** One tick slept, unless the phase ends first. */
    method Nap(ctx: Context, phase: Context, id: Id, app: Id)
      requires Valid() && phase.deadline.Some? && app in store.db.apps
      requires OnBudget(opts, store.db, id, ctx) && MayAsk(phase, Rest(id)) && !Unpolled(id)
      modifies this, store
      ensures Since(old(Marked()), {}) && HandsOff(old(Marked()), Marked()) && old(calls) <= calls
      ensures app in store.db.apps && OnBudget(opts, store.db, id, ctx) && Unasked(calls, |old(calls)|)
      ensures Began(calls, id) == Began(old(calls), id) && Began(calls, id) < |calls|
      ensures !Expired(phase) ==> old(now) < phase.deadline.value && old(now) + opts.interval <= now
    {
      hide Proper, Began, OnBudget, Inv, Legal, After, ClusterOk, Later, HandsOff, Logged;
      var _ := Send(phase, Rest(id));
      BeganNext(old(calls), calls, id);
      LaterClock(old(Marked()), Marked(), {});
      SlugStays(old(Marked()), Marked(), {}, app);
      BudgetStays(old(Marked()), {}, id, ctx);
    }

    /** A row's budget is its own for good. */
    lemma BudgetStays(m: Mark, ids: set<Id>, id: Id, ctx: Context)
      requires Later(m, Marked(), ids) && OnBudget(opts, m.db, id, ctx)
      ensures OnBudget(opts, store.db, id, ctx)
    {
      assert RowEvolves(m.db.deployments[id], store.db.deployments[id]);
    }

    lemma OnOwnBudget(v: View)
      requires Phase(v, store.db, None)
      ensures OnBudget(opts, store.db, v.id, Budget(opts, v))
    {
    }

    lemma ClockNow()
      requires Valid()
      ensures now == Clock(since, calls) && calls[..|calls|] == calls
    {
    }

    /** What a polling loop asks, it asks within the phase that began with it. */
    lemma MayPoll(m: Mark, ctx: Context, id: Id, what: What, budget: int)
      requires m.calls <= calls && m.now == Clock(since, m.calls) && Began(calls, id) == |m.calls|
      requires OnBudget(opts, store.db, id, ctx)
      requires || (what == JobRead(id) && Looked(calls, id) && budget == opts.buildTimeout)
               || (what == ReadyRead(id) && budget == opts.readyTimeout)
               || (what == Rest(id) && budget == PhaseOf(opts, calls, id))
      ensures MayAsk(TimedFrom(ctx, m.now, budget), what)
    {
      assert calls[..|m.calls|] == m.calls;
    }

    lemma TimeBlame(m: Mark, ctx: Context, id: Id, app: Id)
      ensures Expired(ctx) ==> Blamed(m, ctx, id, app, Some(Failure(TIMEOUT, false)))
    {
    }

    lemma LaterClock(a: Mark, b: Mark, ids: set<Id>)
      requires Later(a, b, ids)
      ensures a.now <= b.now && |a.calls| <= |b.calls| && a.calls <= b.calls
    {
    }

    method Move(ctx: Context, dep: Dep, to: State) returns (f: Option<Failure>)
      requires Valid() && Phase(dep.Seen(), store.db, None) && CanTransition(dep.state, to) && !Terminal(to)
      requires (to == Building || to == Pushing ==> dep.source.Upload?) && (to == Deploying ==> dep.imageDigest != "")
      requires MayWrite(ctx, MoveRow(dep.id, to, ""))
      requires ctx == Budget(opts, dep.Seen())
      modifies this, store, dep`state
      ensures Since(old(Marked()), {dep.id}) && HandsOff(old(Marked()), Marked()) && old(calls) <= calls
      ensures Phase(dep.Seen(), store.db, f)
      ensures if f.None? then dep.state == to else f.value.reason == INTERNAL
      ensures Unasked(calls, |old(calls)|)
      ensures store.db.deployments[dep.id].imageDigest == old(store.db).deployments[dep.id].imageDigest
      ensures f.Some? && !f.value.ended ==> Excused(ctx, |old(calls)|, NoAnswer)
    {
      hide Proper, Inv, Legal, After, Guard, ClusterOk, Later, HandsOff, Logged, Composed, Warranted, Shown,
           CanTransition;
      var r, fate := Transition(ctx, dep.id, to, "");
      if r != Done {
        return Some(Failure(INTERNAL, r == NotInFlight));
      }
      dep.state := to;
      f := None;
    }

    /** A move the loop is about to make is one it may make. */
    lemma MayMove(v: View, to: State)
      requires Valid() && Phase(v, store.db, None) && to in {Building, Pushing, Deploying}
      requires (to == Building ==> v.source.Upload?) && (to == Deploying ==> v.imageDigest != "")
      requires to == Pushing ==> Evident(0, JobSaid(v.id, JobSucceeded))
      requires to == Deploying ==> v.source.Upload? ==> Evident(0, Calls.Recorded(v.id))
      ensures MayWrite(Budget(opts, v), MoveRow(v.id, to, ""))
    {
      hide Inv, Legal, After, ClusterOk, Logged, Shown;
      OnOwnBudget(v);
      MoveGuard(v, store.db, to);
    }

    /** And so is a record. */
    lemma MayRecord(v: View, path: string, job: string, repo: string, digest: string)
      requires Valid() && Phase(v, store.db, None) && (v.state == Building || v.state == Pushing)
      requires path != "" ==> EngineIs(world, calls, 0, v.id, path)
      requires digest != "" ==> Evident(0, DigestSaid(v.id, digest)) && Evident(0, RootSaid(v.id, digest, false))
      ensures MayWrite(Budget(opts, v), Record(v.id, path, job, repo, digest))
    {
      hide Inv, Legal, After, ClusterOk, Logged, Shown, EngineIs;
      OnOwnBudget(v);
      RecordGuard(v, store.db, path, job, repo, digest);
    }

    function WithTimeout(ctx: Context, budget: int): Context
      reads this
    {
      TimedFrom(ctx, now, budget)
    }

    /** A phase that ran out when the call itself did not ran its own full time. */
    lemma WaitBlame(a: Mark, m: Mark, ids: set<Id>, ctx: Context, phase: Context, id: Id, app: Id, f: Option<Failure>,
                    reason: string, budget: int)
      requires Later(a, m, ids) && phase == TimedFrom(ctx, a.now, budget)
      requires || (reason == BUILD_FAILED && budget == opts.buildTimeout && Evident(|a.calls|, JobAsked(id)))
               || (reason == APP_NEVER_READY && budget == opts.readyTimeout && Evident(|a.calls|, ReadyAsked(id)))
      requires || Blamed(m, ctx, id, app, f)
               || (f == Some(Failure(reason, false)) && Expired(phase) && !Expired(ctx))
      ensures Blamed(a, ctx, id, app, f)
    {
      hide Later, Shown, Torn;
      if Blamed(m, ctx, id, app, f) {
        BlamedSince(a, m, ids, ctx, id, app, f);
      }
    }

    /** Which engine the stored archive asks for, by module Detection's walk, or why it was refused. */
    method BuildPath(id: Id) returns (r: Result<string, string>)
      requires Valid()
      modifies this, store
      ensures Since(old(Marked()), {}) && HandsOff(old(Marked()), Marked()) && old(calls) <= calls
      ensures r.Err? ==> || (r.error == INTERNAL && (dead || Evident(|old(calls)|, NoAnswer)))
                         || (r.error == SOURCE_REJECTED && Evident(|old(calls)|, RejectedSaid(id)))
      ensures r.Ok? ==> exists found :: Evident(|old(calls)|, EngineSaid(id, found))
                                  && r.value == if found then "dockerfile" else "buildpacks"
    {
      hide Inv, Legal, After, ClusterOk, Later, HandsOff, Logged;
      var asked := |calls|;
      var readable := Ask(Context(None, true), ArchiveRead(id));
      if !readable {
        return Err(INTERNAL);
      }
      assert world(asked).walked.Err? ==> Shows(world, asked, calls[asked], RejectedSaid(id));
      r := match world(asked).walked
        case Err(_) => Err(SOURCE_REJECTED)
        case Ok(found) => Ok(if found then "dockerfile" else "buildpacks");
      assert r.Ok? ==> Shows(world, asked, calls[asked], EngineSaid(id, world(asked).walked.value));
    }

    lemma PathBlame(m: Mark, ctx: Context, id: Id, app: Id, reason: string)
      requires || (reason == INTERNAL && (dead || Evident(|m.calls|, NoAnswer)))
               || (reason == SOURCE_REJECTED && Evident(|m.calls|, RejectedSaid(id)))
      ensures Blamed(m, ctx, id, app, Some(Failure(reason, false)))
    {
    }

    /** The fetch token, the build Job and the credential it pushes with. */
    method CreateBuild(ctx: Context, id: Id) returns (ok: bool)
      requires Valid() && OnBudget(opts, store.db, id, ctx)
      modifies this, store
      ensures Since(old(Marked()), {}) && HandsOff(old(Marked()), Marked()) && old(calls) <= calls
      ensures !ok ==> Excused(ctx, |old(calls)|, NoAnswer)
    {
      hide Inv, Legal, After, ClusterOk, Later, HandsOff, Logged, Shown;
      ok := Ask(ctx, BuildStep(id));
      BudgetStays(old(Marked()), {}, id, ctx);
      for step := 0 to 2
        invariant Since(old(Marked()), {}) && HandsOff(old(Marked()), Marked()) && old(calls) <= calls
        invariant !ok ==> Excused(ctx, |old(calls)|, NoAnswer)
        invariant OnBudget(opts, store.db, id, ctx)
      {
        if !ok {
          return;
        }
        ghost var m := Marked();
        ok := Ask(ctx, BuildStep(id));
        BudgetStays(m, {}, id, ctx);
        Then(old(Marked()), m, {}, Marked(), {}, {});
        if !ok {
          ExcusedSince(ctx, |m.calls|, |old(calls)|, NoAnswer);
        }
      }
    }

    /** Moves first, so a restart between the write and the Job finds a building row either way. */
    method StartBuild(ctx: Context, dep: Dep, app: AppRow) returns (f: Option<Failure>)
      requires Valid() && Phase(dep.Seen(), store.db, None) && dep.state == Queued && dep.source.Upload?
      requires ctx == Budget(opts, dep.Seen())
      modifies this, store, dep
      ensures Since(old(Marked()), {dep.id}) && HandsOff(old(Marked()), Marked()) && old(calls) <= calls
      ensures Phase(dep.Seen(), store.db, f)
      ensures Blamed(old(Marked()), ctx, dep.id, dep.app, f)
      ensures f.None? ==> dep.state == Building && store.db.deployments[dep.id].jobName == JobName(dep.id)
      ensures f.None? ==> EngineIs(world, calls, |old(calls)|, dep.id, store.db.deployments[dep.id].buildPath)
      ensures f.None? ==>
                exists found ::
                  && Evident(|old(calls)|, EngineSaid(dep.id, found))
                  && store.db.deployments[dep.id].buildPath == if found then "dockerfile" else "buildpacks"
      ensures f.None? ==> Unpolled(dep.id)
    {
      hide Inv, Legal, After, Guard, ClusterOk, Later, HandsOff, InSync, Logged, Shown, Composed, Warranted,
           Because, Established, Proper, EngineIs;
      MayMove(dep.Seen(), Building);
      f := Move(ctx, dep, Building);
      if f.Some? {
        InternalBlame(old(Marked()), ctx, dep.id, dep.app, f);
        return;
      }
      ghost var v, m := dep.Seen(), Marked();
      var path := BuildPath(dep.id);
      Then(old(Marked()), m, {dep.id}, Marked(), {}, {dep.id});
      StaysInSync(m, {}, dep.Seen());
      if path.Err? {
        f := Some(Failure(path.error, false));
        PathBlame(m, ctx, dep.id, dep.app, path.error);
        BlamedSince(old(Marked()), m, {dep.id}, ctx, dep.id, dep.app, f);
        return;
      }
      dep.buildPath := path.value;
      Annotated(v, dep.Seen(), store.db, None);
      EngineHeard(|m.calls|, dep.id, path.value);
      EngineMore(world, calls, |m.calls|, calls, |old(calls)|, dep.id, path.value);
      EngineMore(world, calls, |m.calls|, calls, 0, dep.id, path.value);
      m := Marked();
      f := SubmitBuild(ctx, dep, app);
      EngineWas(|old(calls)|, dep.id, path.value) by {
        EngineMore(world, m.calls, |old(calls)|, calls, |old(calls)|, dep.id, path.value);
      }
      EngineMore(world, m.calls, |old(calls)|, calls, |old(calls)|, dep.id, path.value);
      Then(old(Marked()), m, {dep.id}, Marked(), {dep.id}, {dep.id});
      BlamedSince(old(Marked()), m, {dep.id}, ctx, dep.id, dep.app, f);
    }

    lemma EngineHeard(from: nat, id: Id, engine: string)
      requires exists found :: Evident(from, EngineSaid(id, found))
                               && engine == if found then "dockerfile" else "buildpacks"
      ensures EngineIs(world, calls, from, id, engine) && engine != ""
    {
      hide Shown;
    }

    lemma EngineWas(from: nat, id: Id, engine: string)
      requires EngineIs(world, calls, from, id, engine)
      ensures exists found :: Evident(from, EngineSaid(id, found))
                              && engine == if found then "dockerfile" else "buildpacks"
    {
      hide Shown;
    }

    /** A row's engine stays its archive's, whatever else is recorded of it. */
    lemma EngineStays(m: Mark, ids: set<Id>, id: Id)
      requires Since(m, ids) && m.db == After(EMPTY, m.trace) && Engineered(world, m.calls, m.db, id)
      ensures Engineered(world, calls, store.db, id)
    {
      hide Inv, Legal, After, ClusterOk, Evolves, Logged, Only, CommittedBy, EngineIs;
      EmptyInv();
      var i := PathBy(EMPTY, m.trace, trace, id);
      if store.db.deployments[id].buildPath != m.db.deployments[id].buildPath {
        assert trace[i] in CommittedBy(calls[|m.calls|..]);
        var k := CallOf(|m.calls|, trace[i]);
        RecordCall(k, trace[i]);
      } else {
        EngineMore(world, m.calls, 0, calls, 0, id, m.db.deployments[id].buildPath);
      }
    }

    lemma RecordCall(k: nat, a: Action)
      requires Valid() && k < |calls| && ActionOf(calls[k].what, calls[k].at) == Some(a)
      requires a.RecordBuild? && a.path != ""
      ensures EngineIs(world, calls, 0, a.id, a.path)
    {
      hide Legal, After, ClusterOk, Booked, AllProper, AllWarranted, CommittedBy, EngineIs, DiedSince, ToldSince;
      EngineWarranted(world, calls, store.db, k);
    }

    /** Creates the Job with what it needs, then records its name and the engine chosen for it. */
    method SubmitBuild(ctx: Context, dep: Dep, app: AppRow) returns (f: Option<Failure>)
      requires Valid() && Phase(dep.Seen(), store.db, None) && dep.state == Building
      requires EngineIs(world, calls, 0, dep.id, dep.buildPath) && dep.buildPath != ""
      requires ctx == Budget(opts, dep.Seen())
      modifies this, store, dep
      ensures Since(old(Marked()), {dep.id}) && HandsOff(old(Marked()), Marked()) && old(calls) <= calls
      ensures Phase(dep.Seen(), store.db, f) && dep.state == Building
      ensures Blamed(old(Marked()), ctx, dep.id, dep.app, f)
      ensures f.None? ==> store.db.deployments[dep.id].jobName == JobName(dep.id)
      ensures f.None? ==> store.db.deployments[dep.id].buildPath == old(dep.buildPath)
      ensures f.None? ==> Unpolled(dep.id)
    {
      hide Inv, Legal, After, Guard, ClusterOk, Later, HandsOff, InSync, Logged, Shown, Composed, Torn, Warranted,
           Because, Established, Annotates, EngineIs;
      OnOwnBudget(dep.Seen());
      var created := CreateBuild(ctx, dep.id);
      StaysInSync(old(Marked()), {}, dep.Seen());
      NothingAbout(old(Marked()), {dep.id});
      if !created {
        f := Some(Failure(INTERNAL, false));
        InternalBlame(old(Marked()), ctx, dep.id, dep.app, f);
        return;
      }
      ghost var v, m := dep.Seen(), Marked();
      dep.imageRepo, dep.jobName := ImageRepo(opts.registryHost, app.slug), JobName(dep.id);
      Annotated(v, dep.Seen(), store.db, None);
      EngineMore(world, old(calls), 0, calls, 0, dep.id, dep.buildPath);
      MayRecord(dep.Seen(), dep.buildPath, dep.jobName, dep.imageRepo, "");
      var recorded := RecordBuild(ctx, dep.id, dep.buildPath, dep.jobName, dep.imageRepo, "");
      Then(old(Marked()), m, {}, Marked(), {dep.id}, {dep.id});
      RecordedRow(v, dep.Seen(), m.db, store.db, dep.buildPath, JobName(dep.id), "", recorded);
      f := None;
      if !recorded {
        f := Some(Failure(INTERNAL, false));
        InternalBlame(m, ctx, dep.id, dep.app, f);
        BlamedSince(old(Marked()), m, {}, ctx, dep.id, dep.app, f);
      }
    }

    /**
     * Polls until the cluster's last word on the Job. The row moves on only once that word was success,
     * and an unread Job ends nothing: build_failed is the cluster's word that it failed or is gone, which
     * is always heeded, or the phase's whole time spent.
     */
    method AwaitBuild(ctx: Context, dep: Dep) returns (f: Option<Failure>)
      requires Valid() && Phase(dep.Seen(), store.db, None) && dep.state == Building
      requires ctx == Budget(opts, dep.Seen())
      requires Looked(calls, dep.id) && Unpolled(dep.id)
      modifies this, store, dep`state
      ensures Since(old(Marked()), {dep.id}) && HandsOff(old(Marked()), Marked()) && old(calls) <= calls
      ensures Phase(dep.Seen(), store.db, f)
      ensures Blamed(old(Marked()), ctx, dep.id, dep.app, f)
      ensures f.None? ==> dep.state == Pushing
      ensures !NoWord(world, calls, |old(calls)|, dep.id) ==> f == Some(Failure(BUILD_FAILED, false))
      ensures f.None? || store.db.deployments[dep.id].state == Pushing ==>
              Evident(|old(calls)|, JobSaid(dep.id, JobSucceeded))
    {
      hide Inv, Legal, After, Guard, ClusterOk, Later, HandsOff, InSync, Logged, Shown, Composed, Torn, Warranted,
           Because, Established, Proper, NoWord;
      ghost var start := Marked();
      OnOwnBudget(dep.Seen());
      AppOf(dep.Seen());
      f := AwaitJob(ctx, dep.id, dep.app);
      StaysInSync(start, {}, dep.Seen());
      NothingAbout(start, {dep.id});
      if f.Some? {
        NotPushing(dep.Seen());
        return;
      }
      ghost var n := Marked();
      EvidentStill(n, |start.calls|, 0, JobSaid(dep.id, JobSucceeded));
      f := LeaveBuilding(ctx, dep);
      Then(start, n, {dep.id}, Marked(), {dep.id}, {dep.id});
      StillNoWord(world, n.calls, |start.calls|, calls, dep.id);
      EvidentStill(n, |start.calls|, |start.calls|, JobSaid(dep.id, JobSucceeded));
      BlamedSince(start, n, {dep.id}, ctx, dep.id, dep.app, f);
    }

    /** The polling itself, which ends with the Job's success or with a failure. */
    method AwaitJob(ctx: Context, id: Id, app: Id) returns (f: Option<Failure>)
      requires Valid() && app in store.db.apps && OnBudget(opts, store.db, id, ctx)
      requires Looked(calls, id) && Unpolled(id)
      modifies this, store
      ensures Since(old(Marked()), {}) && HandsOff(old(Marked()), Marked()) && old(calls) <= calls
      ensures Heeded(old(Marked()), ctx, id, app, f)
    {
      hide Inv, Legal, After, ClusterOk, Later, HandsOff, Logged, Polled, Heeded;
      ghost var start := Marked();
      var buildCtx := WithTimeout(ctx, opts.buildTimeout);
      SinceNow();
      PolledNow(ctx, id, app);
      while true
        invariant Since(start, {}) && HandsOff(start, Marked()) && Polled(start, ctx, id, app)
        decreases if now < buildCtx.deadline.value then buildCtx.deadline.value - now else 0
      {
        ghost var m := Marked();
        var done;
        done, f := PollJob(ctx, buildCtx, id, app, start);
        Then(start, m, {}, Marked(), {}, {});
        if done {
          return;
        }
      }
    }

    /** A build's polling loop under way: nothing said yet that ends it. */
    ghost predicate Polled(start: Mark, ctx: Context, id: Id, app: Id)
      reads this, store
    {
      && start.calls <= calls && start.now == Clock(since, start.calls)
      && app in store.db.apps && OnBudget(opts, store.db, id, ctx) && NoWord(world, calls, |start.calls|, id)
      && Looked(calls, id) && Began(calls, id) == |start.calls|
      && (|calls| > |start.calls| ==> calls[|start.calls|].what == JobRead(id))
    }

    /** What became of the polling: the Job's success, or build_failed on the cluster's word, or another failure. */
    ghost predicate Heeded(start: Mark, ctx: Context, id: Id, app: Id, f: Option<Failure>)
      reads this, store
    {
      && Blamed(start, ctx, id, app, f) && (f.Some? ==> f.value.reason != "" && !f.value.ended)
      && (f.None? ==>
            Evident(|start.calls|, JobSaid(id, JobSucceeded)) && NoWord(world, calls, |start.calls|, id))
      && (!NoWord(world, calls, |start.calls|, id) ==> f == Some(Failure(BUILD_FAILED, false)))
    }

    lemma PolledNow(ctx: Context, id: Id, app: Id)
      requires Valid() && app in store.db.apps && OnBudget(opts, store.db, id, ctx)
      requires Looked(calls, id) && Unpolled(id)
      ensures Polled(Marked(), ctx, id, app)
    {
      hide Legal, After, ClusterOk, Booked, AllProper, AllWarranted, CommittedBy, Began, DiedSince, ToldSince;
      NoWordYet(id);
    }

    /** One poll, and the rest before the next. */
    method PollJob(ctx: Context, phase: Context, id: Id, app: Id, ghost start: Mark)
      returns (done: bool, f: Option<Failure>)
      requires Since(start, {}) && Polled(start, ctx, id, app)
      requires phase == TimedFrom(ctx, start.now, opts.buildTimeout)
      modifies this, store
      ensures Since(old(Marked()), {}) && HandsOff(old(Marked()), Marked()) && old(calls) <= calls
      ensures if done then Heeded(start, ctx, id, app, f) else Polled(start, ctx, id, app)
      ensures !done ==> old(now) < phase.deadline.value && old(now) + opts.interval <= now && opts.interval >= 1
    {
      hide Inv, Legal, After, ClusterOk, Later, HandsOff, Logged, Shown, Torn, Because, Proper, NoWord, Began;
      ghost var m := Marked();
      MayPoll(start, ctx, id, JobRead(id), opts.buildTimeout);
      done, f := HearJob(ctx, phase, id, app, |start.calls|);
      ghost var n := Marked();
      BudgetStays(m, {}, id, ctx);
      Then(start, m, {}, n, {}, {});
      LaterClock(m, n, {});
      SlugStays(m, n, {}, app);
      BlamedSince(start, m, {}, ctx, id, app, f);
      if done {
        if f.None? {
          EvidentStill(n, |m.calls|, |start.calls|, JobSaid(id, JobSucceeded));
        }
        return;
      }
      EvidentStill(n, |m.calls|, |start.calls|, JobAsked(id));
      MayPoll(start, ctx, id, Rest(id), opts.buildTimeout);
      f := Wait(ctx, phase, id, app, BUILD_FAILED);
      BudgetStays(n, {}, id, ctx);
      Then(start, n, {}, Marked(), {}, {});
      Then(m, n, {}, Marked(), {}, {});
      StillNoWord(world, n.calls, |start.calls|, calls, id);
      LaterClock(n, Marked(), {});
      if f.Some? {
        EvidentStill(n, |start.calls|, |start.calls|, JobAsked(id));
        WaitBlame(start, n, {}, ctx, phase, id, app, f, BUILD_FAILED, opts.buildTimeout);
        done := true;
      }
    }

    /** One look at the Job: whether the polling is over, and with which failure if any. */
    method HearJob(ctx: Context, phase: Context, id: Id, app: Id, ghost from: nat)
      returns (done: bool, f: Option<Failure>)
      requires Valid() && MayAsk(phase, JobRead(id)) && NoWord(world, calls, from, id)
      modifies this, store
      ensures Since(old(Marked()), {}) && HandsOff(old(Marked()), Marked()) && old(calls) <= calls
      ensures |calls| == |old(calls)| + 1 && calls[|old(calls)|].what == JobRead(id)
      ensures Began(calls, id) == Began(old(calls), id) && Evident(|old(calls)|, JobAsked(id))
      ensures Blamed(old(Marked()), ctx, id, app, f) && (f.Some? ==> done && f.value == Failure(BUILD_FAILED, false))
      ensures f.None? ==> NoWord(world, calls, from, id)
      ensures done && f.None? ==> Evident(|old(calls)|, JobSaid(id, JobSucceeded))
    {
      hide Inv, Legal, After, ClusterOk, Later, HandsOff, Logged, Shown, Because, NoWord, Began, Proper;
      ghost var m := Marked();
      var state := AskJob(phase, id);
      done, f := state == Some(JobSucceeded), None;
      if state == Some(JobFailed) || state == Some(JobGone) {
        BuildBlame(m, ctx, id, app, state.value);
        return true, Some(Failure(BUILD_FAILED, false));
      }
      NextNoWord(world, m.calls, from, calls, id);
    }

    lemma NothingYet(e: Evidence)
      ensures !Evident(|calls|, e)
    {
    }

    lemma NoWordYet(id: Id)
      ensures NoWord(world, calls, |calls|, id)
    {
    }

    method LeaveBuilding(ctx: Context, dep: Dep) returns (f: Option<Failure>)
      requires Valid() && Phase(dep.Seen(), store.db, None) && dep.state == Building
      requires Evident(0, JobSaid(dep.id, JobSucceeded))
      requires ctx == Budget(opts, dep.Seen())
      modifies this, store, dep`state
      ensures Since(old(Marked()), {dep.id}) && HandsOff(old(Marked()), Marked()) && old(calls) <= calls
      ensures Phase(dep.Seen(), store.db, f)
      ensures Blamed(old(Marked()), ctx, dep.id, dep.app, f)
      ensures f.None? ==> dep.state == Pushing
      ensures Unasked(calls, |old(calls)|)
    {
      hide Inv, Legal, After, Guard, ClusterOk, Later, HandsOff, InSync, Logged, Shown, Composed, Torn, Warranted,
           Because, Established;
      BuildsUpload(dep.Seen(), store.db);
      MayMove(dep.Seen(), Pushing);
      f := Move(ctx, dep, Pushing);
      InternalBlame(old(Marked()), ctx, dep.id, dep.app, f);
    }

    /** What the cluster says the Job is doing, or nothing when it could not be read. */
    method AskJob(ctx: Context, id: Id) returns (state: Option<JobState>)
      requires Valid() && MayAsk(ctx, JobRead(id))
      modifies this, store
      ensures Since(old(Marked()), {}) && HandsOff(old(Marked()), Marked())
      ensures |calls| == |old(calls)| + 1 && old(calls) <= calls && calls[|old(calls)|].what == JobRead(id)
      ensures state == if calls[|old(calls)|].fate == Heard then Some(world(|old(calls)|).job) else None
      ensures state.Some? ==> Evident(|old(calls)|, JobSaid(id, state.value))
      ensures calls[|old(calls)|].ctx == ctx && Evident(|old(calls)|, JobAsked(id))
      ensures Began(calls, id) == Began(old(calls), id)
    {
      hide Inv, Legal, After, ClusterOk, Later, HandsOff, Logged;
      var asked := |calls|;
      var ok := Ask(ctx, JobRead(id));
      BeganNext(old(calls), calls, id);
      state := if ok then Some(world(asked).job) else None;
      assert Shows(world, asked, calls[asked], JobAsked(id));
      assert ok ==> Shows(world, asked, calls[asked], JobSaid(id, world(asked).job));
    }

    lemma InternalBlame(m: Mark, ctx: Context, id: Id, app: Id, f: Option<Failure>)
      requires f.Some? && !f.value.ended ==> f.value.reason == INTERNAL && Excused(ctx, |m.calls|, NoAnswer)
      ensures Blamed(m, ctx, id, app, f)
    {
    }

    lemma BuildBlame(m: Mark, ctx: Context, id: Id, app: Id, s: JobState)
      requires s in {JobFailed, JobGone} && Evident(|m.calls|, JobSaid(id, s))
      ensures Blamed(m, ctx, id, app, Some(Failure(BUILD_FAILED, false)))
    {
    }

    lemma NotPushing(v: View)
      requires Phase(v, store.db, None) && v.state != Pushing
      ensures store.db.deployments[v.id].state != Pushing
    {
    }

    lemma AppOf(v: View)
      requires Valid() && Phase(v, store.db, None)
      ensures v.app in store.db.apps
    {
      hide Inv, Legal, After, ClusterOk, Logged;
      Consistent();
      AppKnown(store.db, v.id);
    }

    /** Asks the registry what was pushed, refuses an image that runs as root, and records the digest before moving. */
    method ResolveImage(ctx: Context, dep: Dep, app: AppRow) returns (f: Option<Failure>)
      requires Valid() && Phase(dep.Seen(), store.db, None) && dep.state == Pushing
      requires ctx == Budget(opts, dep.Seen())
      modifies this, store, dep
      ensures Since(old(Marked()), {dep.id}) && HandsOff(old(Marked()), Marked()) && old(calls) <= calls
      ensures Phase(dep.Seen(), store.db, f)
      ensures Blamed(old(Marked()), ctx, dep.id, dep.app, f)
      ensures f.None? ==> dep.state == Deploying
      ensures Evident(|old(calls)|, RunsAsRoot(dep.id)) ==> f == Some(Failure(IMAGE_RUNS_AS_ROOT, false))
      ensures f.None? || store.db.deployments[dep.id].state == Deploying ==>
                && Evident(|old(calls)|, DigestSaid(dep.id, store.db.deployments[dep.id].imageDigest))
                && Evident(|old(calls)|, RootSaid(dep.id, store.db.deployments[dep.id].imageDigest, false))
    {
      hide Inv, Legal, After, Guard, ClusterOk, Later, HandsOff, Logged, Shown, Composed, Torn, Warranted, Because,
           InSync;
      SinceNow();
      ghost var start := Marked();
      NothingYet(RunsAsRoot(dep.id));
      OnOwnBudget(dep.Seen());
      var digest := AskDigest(ctx, dep.id);
      NextUnsaid(world, start.calls, |start.calls|, calls, RunsAsRoot(dep.id));
      StaysInSync(start, {}, dep.Seen());
      NothingAbout(start, {dep.id});
      NotDeploying(dep.Seen());
      if digest == "" {
        f := Some(Failure(BUILD_NO_DIGEST, false));
        ManifestBlame(start, ctx, dep.id, dep.app);
        return;
      }
      ghost var m := Marked();
      BudgetStays(start, {}, dep.id, ctx);
      var root := AskImage(ctx, dep.id, digest);
      Then(start, m, {dep.id}, Marked(), {}, {dep.id});
      StaysInSync(m, {}, dep.Seen());
      NotDeploying(dep.Seen());
      if root != Some(true) {
        NextUnsaid(world, m.calls, |start.calls|, calls, RunsAsRoot(dep.id));
      }
      if root.None? {
        f := Some(Failure(INTERNAL, false));
        InternalBlame(m, ctx, dep.id, dep.app, f);
        BlamedSince(start, m, {dep.id}, ctx, dep.id, dep.app, f);
        return;
      }
      if root.value {
        f := Some(Failure(IMAGE_RUNS_AS_ROOT, false));
        RootBlame(m, ctx, dep.id, dep.app);
        BlamedSince(start, m, {dep.id}, ctx, dep.id, dep.app, f);
        return;
      }
      EvidentStill(m, |start.calls|, |start.calls|, DigestSaid(dep.id, digest));
      ghost var n := Marked();
      EvidentStill(n, |m.calls|, |start.calls|, RootSaid(dep.id, digest, false));
      EvidentStill(n, |start.calls|, 0, DigestSaid(dep.id, digest));
      EvidentStill(n, |start.calls|, 0, RootSaid(dep.id, digest, false));
      f := RecordDigest(ctx, dep, ImageRepo(opts.registryHost, app.slug), digest);
      Then(start, n, {dep.id}, Marked(), {dep.id}, {dep.id});
      StillUnsaid(world, n.calls, |start.calls|, calls, RunsAsRoot(dep.id));
      EvidentStill(n, |start.calls|, |start.calls|, DigestSaid(dep.id, digest));
      EvidentStill(n, |start.calls|, |start.calls|, RootSaid(dep.id, digest, false));
      InternalBlame(n, ctx, dep.id, dep.app, f);
      BlamedSince(start, n, {dep.id}, ctx, dep.id, dep.app, f);
    }

    lemma NotDeploying(v: View)
      requires Phase(v, store.db, None) && v.state != Deploying
      ensures store.db.deployments[v.id].state != Deploying
    {
    }

    lemma ManifestBlame(m: Mark, ctx: Context, id: Id, app: Id)
      requires Excused(ctx, |m.calls|, NoManifest(id))
      ensures Blamed(m, ctx, id, app, Some(Failure(BUILD_NO_DIGEST, false)))
    {
    }

    lemma RootBlame(m: Mark, ctx: Context, id: Id, app: Id)
      requires Evident(|m.calls|, RunsAsRoot(id))
      ensures Blamed(m, ctx, id, app, Some(Failure(IMAGE_RUNS_AS_ROOT, false)))
    {
    }

    /** The digest the registry holds for the build, or "" when there is none to be had. */
    method AskDigest(ctx: Context, id: Id) returns (digest: string)
      requires Valid() && OnBudget(opts, store.db, id, ctx)
      modifies this, store
      ensures Since(old(Marked()), {}) && HandsOff(old(Marked()), Marked()) && old(calls) <= calls
      ensures |calls| == |old(calls)| + 1 && calls[|old(calls)|].what == DigestRead(id)
      ensures if digest == "" then Excused(ctx, |old(calls)|, NoManifest(id))
              else Evident(|old(calls)|, DigestSaid(id, digest))
    {
      hide Inv, Legal, After, ClusterOk, Later, HandsOff, Logged;
      var asked := |calls|;
      var ok := Ask(ctx, DigestRead(id));
      digest := if ok then world(asked).digest else "";
      assert digest != "" || !Cut(ctx) ==>
        Shows(world, asked, calls[asked], if digest == "" then NoManifest(id) else DigestSaid(id, digest));
    }

    /** Whether the image is said to run as root, or nothing when its configuration could not be read. */
    method AskImage(ctx: Context, id: Id, digest: string) returns (root: Option<bool>)
      requires Valid() && OnBudget(opts, store.db, id, ctx)
      modifies this, store
      ensures Since(old(Marked()), {}) && HandsOff(old(Marked()), Marked()) && old(calls) <= calls
      ensures root.None? ==> Excused(ctx, |old(calls)|, NoAnswer)
      ensures root.Some? ==> Evident(|old(calls)|, RootSaid(id, digest, root.value))
      ensures |calls| == |old(calls)| + 1
      ensures if root == Some(true) then Evident(|old(calls)|, RunsAsRoot(id))
              else !Shows(world, |old(calls)|, calls[|old(calls)|], RunsAsRoot(id))
    {
      hide Inv, Legal, After, ClusterOk, Later, HandsOff, Logged;
      var asked := |calls|;
      var ok := Ask(ctx, ImageRead(id, digest));
      root := if ok then Some(world(asked).runsAsRoot) else None;
      assert ok ==> Shows(world, asked, calls[asked], RootSaid(id, digest, world(asked).runsAsRoot));
      assert root == Some(true) ==> Shows(world, asked, calls[asked], RunsAsRoot(id));
    }

    method RecordDigest(ctx: Context, dep: Dep, repo: string, digest: string) returns (f: Option<Failure>)
      requires Valid() && Phase(dep.Seen(), store.db, None) && dep.state == Pushing && digest != ""
      requires Evident(0, DigestSaid(dep.id, digest)) && Evident(0, RootSaid(dep.id, digest, false))
      requires ctx == Budget(opts, dep.Seen())
      modifies this, store, dep
      ensures Since(old(Marked()), {dep.id}) && HandsOff(old(Marked()), Marked()) && old(calls) <= calls
      ensures Phase(dep.Seen(), store.db, f)
      ensures f.None? ==> dep.state == Deploying
      ensures f.None? || store.db.deployments[dep.id].state == Deploying ==>
              store.db.deployments[dep.id].imageDigest == digest
      ensures f.Some? && !f.value.ended ==> f.value.reason == INTERNAL && Excused(ctx, |old(calls)|, NoAnswer)
      ensures Unasked(calls, |old(calls)|)
    {
      hide Proper, Inv, Legal, After, Guard, ClusterOk, Later, HandsOff, Logged, Shown, Composed, Torn, Warranted,
           Established, InSync, Annotates;
      MayRecord(dep.Seen(), "", JobName(dep.id), repo, digest);
      ghost var v := dep.Seen();
      dep.imageRepo, dep.imageDigest := repo, digest;
      var recorded := RecordBuild(ctx, dep.id, "", JobName(dep.id), repo, digest);
      RecordedRow(v, dep.Seen(), old(store.db), store.db, "", JobName(dep.id), digest, recorded);
      if !recorded {
        return Some(Failure(INTERNAL, false));
      }
      ghost var m := Marked();
      EvidentStill(m, |old(calls)|, 0, Calls.Recorded(dep.id));
      MayMove(dep.Seen(), Deploying);
      f := Move(ctx, dep, Deploying);
      Then(old(Marked()), m, {dep.id}, Marked(), {dep.id}, {dep.id});
      if f.Some? && !f.value.ended {
        ExcusedSince(ctx, |m.calls|, |old(calls)|, NoAnswer);
      }
    }

    /**
     * The configuration this deployment composes its workload from, and therefore the one its release
     * records: the source release's own for a rollback, and for a build the app's table as it stands.
     */
    method DeployConfig(ctx: Context, dep: Dep) returns (r: Option<Config>)
      requires Valid() && Phase(dep.Seen(), store.db, None)
      requires ctx == Budget(opts, dep.Seen())
      modifies this, store
      ensures Since(old(Marked()), {}) && HandsOff(old(Marked()), Marked()) && old(calls) <= calls
      ensures Phase(dep.Seen(), store.db, None)
      ensures r.Some? ==>
                match dep.source
                case Rollback(rel) =>
                  rel in store.db.releases && DecodeSnapshot(store.db.releases[rel].snapshot) == Ok(r.value)
                case Upload(_) => dep.app in store.db.apps && r.value == store.db.apps[dep.app].config
      ensures r.Some? ==> Guard(store.db, Action.MarkHealthy(dep.id, r.value, 0))
      ensures r.Some? ==> Composed(EMPTY, trace, dep.id, r.value)
      ensures r.None? ==> Excused(ctx, |old(calls)|, NoAnswer)
    {
      hide Inv, Legal, After, Composed, ClusterOk, Later, HandsOff, DecodeSnapshot, EntriesOk, Logged, Shown;
      Consistent();
      OnOwnBudget(dep.Seen());
      SourceKnown(store.db, dep.id);
      if dep.source.Rollback? {
        r := ReleaseSnapshot(ctx, dep.id, dep.source.release);
        ReleaseKept(old(Marked()), Marked(), {}, dep.source.release);
      } else {
        r := ConfigForDeploy(ctx, dep.id, dep.app);
      }
      StaysInSync(old(Marked()), {}, dep.Seen());
      Consistent();
      AppKnown(store.db, dep.id);
      if r.Some? && dep.source.Rollback? {
        SnapshotEntriesOk(store.db, dep.source.release);
        RollbackComposed(EMPTY, trace, dep.id, r.value);
      } else if r.Some? {
        StoredEntriesOk(store.db, dep.app, r.value);
        ComposedNow(EMPTY, trace, dep.id);
      }
    }

    lemma GuardStays(m: Mark, a: Action, id: Id)
      requires Since(m, {}) && m.db == After(EMPTY, m.trace) && id in m.db.deployments
      requires Subject(a) == Some(id) && Guard(m.db, a)
      requires a.MarkHealthy? && Composed(EMPTY, m.trace, id, a.config)
      ensures Guard(store.db, a) && Composed(EMPTY, trace, id, a.config)
    {
      hide Inv, Legal, After, Guard, Composed, ClusterOk, Evolves, AgentKept, Logged, Grew;
      EmptyInv();
      ComposedSurvives(EMPTY, m.trace, trace, id, a.config) by { RowKept(m, {}, id); }
      Onward(EMPTY, m.trace, trace);
      RowKept(m, {}, id);
      GuardSurvives(m.db, store.db, a, id);
    }

    /** The namespace, its fence, the Secret, and only then the workload that needs all three. */
    method ApplyObjects(ctx: Context, id: Id, slug: string, digest: string,
                        values: map<string, string>) returns (ok: bool)
      requires Valid() && SlugUsed(store.db, slug) && OnBudget(opts, store.db, id, ctx)
      modifies this, store
      ensures Since(old(Marked()), {}) && old(calls) <= calls
      ensures ok ==> Serving(store.db, cluster, slug, digest, values)
      ensures ok && slug in cluster ==>
                && cluster[slug].fenced && cluster[slug].secret == Some(values)
                && cluster[slug].workload == Some(Workload(digest, values))
      ensures !ok ==> Excused(ctx, |old(calls)|, NoAnswer) || Retired(store.db, slug)
      ensures ok ==> Unpolled(id)
    {
      hide Inv, Legal, After, ClusterOk, Later, SlugUsed, Spared, Retired, Logged, Shown;
      ghost var n, m;
      ok, n := EnsureNamespace(ctx, id, slug);
      BudgetStays(old(Marked()), {}, id, ctx);
      if !ok {
        return;
      }
      var changes := [Fence, Supply(values), Launch(Workload(digest, values))];
      for i := 0 to 3
        invariant Since(old(Marked()), {}) && old(calls) <= calls && Stands(store.db, cluster, slug, n) && ok
        invariant i >= 1 ==> n.fenced
        invariant i >= 2 ==> n.secret == Some(values)
        invariant i >= 3 ==> n.workload == Some(Workload(digest, values))
        invariant NamespaceOk(n) && OnBudget(opts, store.db, id, ctx) && (i >= 1 ==> Unpolled(id))
      {
        m := Marked();
        ok := ApplyChange(ctx, id, slug, changes[i], n);
        BudgetStays(m, {}, id, ctx);
        Then(old(Marked()), m, {}, Marked(), {}, {});
        n := Changed(n, changes[i]);
        if !ok {
          if !Retired(store.db, slug) {
            ExcusedSince(ctx, |m.calls|, |old(calls)|, NoAnswer);
          }
          return;
        }
      }
    }

    /** Polls until the workload is said to be ready, or the phase has spent its whole time. */
    method AwaitReady(ctx: Context, id: Id, app: Id) returns (f: Option<Failure>)
      requires Valid() && app in store.db.apps && OnBudget(opts, store.db, id, ctx)
      requires Unpolled(id)
      modifies this, store
      ensures Since(old(Marked()), {}) && HandsOff(old(Marked()), Marked()) && old(calls) <= calls
      ensures app in store.db.apps
      ensures f.None? <==> Evident(|old(calls)|, ReadySaid(id))
      ensures f.Some? ==> f.value.reason != "" && !f.value.ended
      ensures Blamed(old(Marked()), ctx, id, app, f)
    {
      hide Proper, Inv, Legal, After, ClusterOk, Later, HandsOff, Logged, Shown, Torn, Because;
      ghost var start := Marked();
      var readyCtx := WithTimeout(ctx, opts.readyTimeout);
      ClockNow();
      SinceNow();
      NothingYet(ReadySaid(id));
      while true
        invariant Since(old(Marked()), {}) && HandsOff(old(Marked()), Marked()) && old(calls) <= calls
        invariant app in store.db.apps && !Evident(|old(calls)|, ReadySaid(id))
        invariant Began(calls, id) == |old(calls)| && OnBudget(opts, store.db, id, ctx)
        invariant |calls| > |old(calls)| ==> calls[|old(calls)|].what == ReadyRead(id)
        decreases if now < readyCtx.deadline.value then readyCtx.deadline.value - now else 0
      {
        ghost var m := Marked();
        MayPoll(start, ctx, id, ReadyRead(id), opts.readyTimeout);
        var ready := AskReady(readyCtx, id);
        BudgetStays(m, {}, id, ctx);
        Then(old(Marked()), m, {}, Marked(), {}, {});
        LaterClock(m, Marked(), {});
        SlugStays(m, Marked(), {}, app);
        if ready {
          EvidentStill(Marked(), |m.calls|, |old(calls)|, ReadySaid(id));
          return None;
        }
        NextUnsaid(world, m.calls, |old(calls)|, calls, ReadySaid(id));
        EvidentStill(Marked(), |m.calls|, |start.calls|, ReadyAsked(id));
        MayPoll(start, ctx, id, Rest(id), opts.readyTimeout);
        m := Marked();
        f := Wait(ctx, readyCtx, id, app, APP_NEVER_READY);
        BudgetStays(m, {}, id, ctx);
        Then(old(Marked()), m, {}, Marked(), {}, {});
        StillUnsaid(world, m.calls, |old(calls)|, calls, ReadySaid(id));
        if f.Some? {
          EvidentStill(m, |start.calls|, |start.calls|, ReadyAsked(id));
          WaitBlame(old(Marked()), m, {}, ctx, readyCtx, id, app, f, APP_NEVER_READY, opts.readyTimeout);
          return f;
        }
      }
    }

    method AskReady(ctx: Context, id: Id) returns (ready: bool)
      requires Valid() && MayAsk(ctx, ReadyRead(id))
      modifies this, store
      ensures Since(old(Marked()), {}) && HandsOff(old(Marked()), Marked()) && old(calls) <= calls
      ensures |calls| == |old(calls)| + 1 && Evident(|old(calls)|, ReadyAsked(id))
      ensures Began(calls, id) == Began(old(calls), id) && calls[|old(calls)|].what == ReadyRead(id)
      ensures if ready then Evident(|old(calls)|, ReadySaid(id))
              else !Shows(world, |old(calls)|, calls[|old(calls)|], ReadySaid(id))
    {
      hide Inv, Legal, After, ClusterOk, Later, HandsOff, Logged;
      var asked := |calls|;
      var ok := Ask(ctx, ReadyRead(id));
      BeganNext(old(calls), calls, id);
      ready := ok && world(asked).ready;
      assert Shows(world, asked, calls[asked], ReadyAsked(id));
      assert ready ==> Shows(world, asked, calls[asked], ReadySaid(id));
    }

    /** Composes, applies, waits, and marks healthy with the very configuration it applied. */
    method DeployApp(ctx: Context, dep: Dep, app: AppRow) returns (f: Option<Failure>)
      requires Valid() && Phase(dep.Seen(), store.db, None) && dep.state == Deploying
      requires dep.app in store.db.apps && app.slug == store.db.apps[dep.app].slug
      requires ctx == Budget(opts, dep.Seen())
      modifies this, store, dep`state
      ensures Since(old(Marked()), {dep.id}) && old(calls) <= calls
      ensures Outcome(dep.id, store.db, cluster, f)
      ensures store.db.deployments[dep.id].state == Healthy ==> Evident(|old(calls)|, ReadySaid(dep.id))
      ensures Blamed(old(Marked()), ctx, dep.id, dep.app, f)
    {
      hide Inv, Legal, After, Guard, Composed, ClusterOk, Later, HandsOff, Minted, Serving, SlugUsed, Logged, Shown,
           Torn, Because, Shipped, InSync;
      var config := DeployConfig(ctx, dep);
      SlugStays(old(Marked()), Marked(), {}, dep.app);
      ghost var composed := Marked();
      NothingAbout(old(Marked()), {dep.id});
      if config.None? {
        f := Some(Failure(INTERNAL, false));
        InternalBlame(old(Marked()), ctx, dep.id, dep.app, f);
        return;
      }
      f := Roll(ctx, dep, app, config.value);
      Then(old(Marked()), composed, {}, Marked(), {dep.id}, {dep.id});
      BlamedSince(old(Marked()), composed, {dep.id}, ctx, dep.id, dep.app, f);
      if store.db.deployments[dep.id].state == Healthy {
        EvidentStill(Marked(), |composed.calls|, |old(calls)|, ReadySaid(dep.id));
      }
    }

    /** The objects, the wait and the last write, from one configuration. */
    method Roll(ctx: Context, dep: Dep, app: AppRow, config: Config) returns (f: Option<Failure>)
      requires Valid() && Phase(dep.Seen(), store.db, None) && dep.state == Deploying
      requires dep.app in store.db.apps && app.slug == store.db.apps[dep.app].slug
      requires Guard(store.db, Action.MarkHealthy(dep.id, config, 0)) && Composed(EMPTY, trace, dep.id, config)
      requires ctx == Budget(opts, dep.Seen())
      modifies this, store, dep`state
      ensures Since(old(Marked()), {dep.id}) && old(calls) <= calls
      ensures Outcome(dep.id, store.db, cluster, f)
      ensures store.db.deployments[dep.id].state == Healthy ==> Evident(|old(calls)|, ReadySaid(dep.id))
      ensures Blamed(old(Marked()), ctx, dep.id, dep.app, f)
    {
      hide Inv, Legal, After, Guard, Composed, ClusterOk, Later, HandsOff, Minted, Serving, SlugUsed, Logged, Shown,
           Because, Shipped, InSync, Retired;
      ghost var composed := Marked();
      SinceNow();
      SlugStays(composed, composed, {}, dep.app);
      OnOwnBudget(dep.Seen());
      var applied := ApplyObjects(ctx, dep.id, app.slug, dep.imageDigest, Values(config));
      StaysInSync(composed, {}, dep.Seen());
      SlugStays(composed, Marked(), {}, dep.app);
      NothingAbout(composed, {dep.id});
      if !applied {
        f := Some(Failure(INTERNAL, false));
        TornBlame(composed, ctx, dep.id, dep.app);
        return;
      }
      ghost var serving := Marked();
      OnOwnBudget(dep.Seen());
      f := AwaitReady(ctx, dep.id, dep.app);
      Then(composed, serving, {}, Marked(), {}, {});
      Then(composed, serving, {}, Marked(), {}, {dep.id});
      StaysInSync(composed, {}, dep.Seen());
      if f.Some? {
        BlamedSince(composed, serving, {}, ctx, dep.id, dep.app, f);
        return;
      }
      ghost var ready := Marked();
      EvidentStill(ready, |serving.calls|, 0, ReadySaid(dep.id));
      SlugStays(composed, ready, {}, dep.app);
      OnOwnBudget(dep.Seen());
      MayPromote(composed, ctx, dep.id, config);
      f := Promote(ctx, dep, config, app.slug, serving);
      Then(composed, ready, {dep.id}, Marked(), {dep.id}, {dep.id});
      BlamedSince(composed, ready, {dep.id}, ctx, dep.id, dep.app, f);
      EvidentStill(ready, |serving.calls|, |composed.calls|, ReadySaid(dep.id));
    }

    lemma TornBlame(m: Mark, ctx: Context, id: Id, app: Id)
      requires Excused(ctx, |m.calls|, NoAnswer) || Torn(store.db, app)
      ensures Blamed(m, ctx, id, app, Some(Failure(INTERNAL, false)))
    {
    }

    lemma MayPromote(m: Mark, ctx: Context, id: Id, config: Config)
      requires Since(m, {}) && m.db == After(EMPTY, m.trace) && id in m.db.deployments
      requires Guard(m.db, Action.MarkHealthy(id, config, 0)) && Composed(EMPTY, m.trace, id, config)
      requires Evident(0, ReadySaid(id)) && OnBudget(opts, store.db, id, ctx)
      ensures MayWrite(ctx, PromoteRow(id, config))
    {
      hide Inv, Legal, After, Guard, Composed, ClusterOk, Later, Logged, Shown, AgentKept;
      GuardStays(m, Action.MarkHealthy(id, config, 0), id);
      RowKept(m, {}, id);
      AnyInstant(store.db, id, config);
    }

    method Promote(ctx: Context, dep: Dep, config: Config, slug: string,
                   ghost serving: Mark) returns (f: Option<Failure>)
      requires Since(serving, {}) && HandsOff(serving, Marked()) && MayWrite(ctx, PromoteRow(dep.id, config))
      requires Serving(serving.db, serving.cluster, slug, dep.imageDigest, Values(config))
      requires Phase(dep.Seen(), store.db, None) && dep.app in store.db.apps && store.db.apps[dep.app].slug == slug
      requires dep.state == Deploying
      requires ctx == Budget(opts, dep.Seen())
      modifies this, store, dep`state
      ensures Since(old(Marked()), {dep.id}) && old(calls) <= calls
      ensures Outcome(dep.id, store.db, cluster, f)
      ensures Blamed(old(Marked()), ctx, dep.id, dep.app, f)
    {
      hide Inv, Legal, After, Guard, Composed, ClusterOk, Later, HandsOff, Minted, Serving, Logged, Shown,
           Warranted, Established;
      ghost var m := Marked();
      var r := MarkHealthy(ctx, dep.id, config);
      Then(serving, m, {}, Marked(), {dep.id}, {dep.id});
      ServingStays(serving, Marked(), {dep.id}, slug, dep.imageDigest, Values(config));
      SlugStays(m, Marked(), {dep.id}, dep.app);
      if r != Done {
        return Some(Failure(INTERNAL, r == NotInFlight));
      }
      dep.state := Healthy;
      f := None;
    }

    /** The boundary check before a phase of this drive. */
    method BlockedPhase(ctx: Context, dep: Dep) returns (f: Option<Failure>)
      requires Valid() && Phase(dep.Seen(), store.db, None)
      requires ctx == Budget(opts, dep.Seen())
      modifies this, store
      ensures Since(old(Marked()), {dep.id}) && HandsOff(old(Marked()), Marked()) && old(calls) <= calls
      ensures Phase(dep.Seen(), store.db, f)
      ensures Blamed(old(Marked()), ctx, dep.id, dep.app, f)
      ensures f.None? ==> Evident(|old(calls)|, ActiveSaid(dep.app))
      ensures f.None? ==> Looked(calls, dep.id) && (old(Unpolled(dep.id)) ==> Unpolled(dep.id))
    {
      hide Inv, Legal, After, Guard, ClusterOk, Later, HandsOff, InSync, Logged, Because;
      AppOf(dep.Seen());
      OnOwnBudget(dep.Seen());
      f := Blocked(ctx, dep.id, dep.app);
      StaysInSync(old(Marked()), {}, dep.Seen());
      NothingAbout(old(Marked()), {dep.id});
    }

    /** The first phase, on a queued row: a build, or straight to deploying for a rollback. */
    method LeaveQueue(ctx: Context, dep: Dep, app: AppRow) returns (f: Option<Failure>)
      requires Valid() && Phase(dep.Seen(), store.db, None) && dep.state == Queued
      requires ctx == Budget(opts, dep.Seen())
      modifies this, store, dep
      ensures Since(old(Marked()), {dep.id}) && HandsOff(old(Marked()), Marked()) && old(calls) <= calls
      ensures Phase(dep.Seen(), store.db, f)
      ensures Blamed(old(Marked()), ctx, dep.id, dep.app, f)
      ensures f.None? ==> dep.state == if dep.source.Rollback? then Deploying else Building
      ensures f.None? && dep.state == Building ==> Unpolled(dep.id) && Engineered(world, calls, store.db, dep.id)
    {
      hide Inv, Legal, After, Guard, ClusterOk, Later, HandsOff, Logged, Shown, Because, Composed, Warranted,
           Established, InSync, EngineIs;
      f := BlockedPhase(ctx, dep);
      if f.Some? {
        return;
      }
      ghost var m := Marked();
      if dep.source.Rollback? {
        HasDigest(dep.Seen(), store.db);
        MayMove(dep.Seen(), Deploying);
        f := Move(ctx, dep, Deploying);
        InternalBlame(m, ctx, dep.id, dep.app, f);
      } else {
        f := StartBuild(ctx, dep, app);
        if f.None? {
          EngineMore(world, calls, |m.calls|, calls, 0, dep.id, store.db.deployments[dep.id].buildPath);
        }
      }
      Then(old(Marked()), m, {dep.id}, Marked(), {dep.id}, {dep.id});
      BlamedSince(old(Marked()), m, {dep.id}, ctx, dep.id, dep.app, f);
    }

    /** The build's own phases, from whichever of them the row is in. */
    method FinishBuild(ctx: Context, dep: Dep, app: AppRow) returns (f: Option<Failure>)
      requires Valid() && Phase(dep.Seen(), store.db, None) && dep.state != Queued
      requires ctx == Budget(opts, dep.Seen())
      requires dep.state == Building ==> Unpolled(dep.id)
      modifies this, store, dep
      ensures Since(old(Marked()), {dep.id}) && HandsOff(old(Marked()), Marked()) && old(calls) <= calls
      ensures Phase(dep.Seen(), store.db, f)
      ensures Blamed(old(Marked()), ctx, dep.id, dep.app, f)
      ensures f.None? ==> dep.state == Deploying
      ensures f.None? ==> Earned(world, calls, |old(calls)|, old(dep.Seen()), dep.imageDigest)
    {
      hide Inv, Legal, After, Guard, ClusterOk, Later, HandsOff, InSync, Logged, Shown, Because;
      ghost var start, v := Marked(), dep.Seen();
      SinceNow();
      NothingAbout(start, {dep.id});
      f := None;
      if dep.state == Building {
        f := AwaitPhase(ctx, dep);
        if f.Some? {
          return;
        }
      }
      if dep.state == Pushing {
        ghost var m := Marked();
        f := ResolvePhase(ctx, dep, app);
        Then(start, m, {dep.id}, Marked(), {dep.id}, {dep.id});
        BlamedSince(start, m, {dep.id}, ctx, dep.id, dep.app, f);
        if f.Some? {
          return;
        }
        EvidentStill(Marked(), |m.calls|, |start.calls|, DigestSaid(dep.id, dep.imageDigest));
        EvidentStill(Marked(), |m.calls|, |start.calls|, RootSaid(dep.id, dep.imageDigest, false));
        if v.state == Building {
          EvidentStill(m, |start.calls|, |start.calls|, JobSaid(dep.id, JobSucceeded));
        }
      }
    }

    method AwaitPhase(ctx: Context, dep: Dep) returns (f: Option<Failure>)
      requires Valid() && Phase(dep.Seen(), store.db, None) && dep.state == Building
      requires ctx == Budget(opts, dep.Seen())
      requires Unpolled(dep.id)
      modifies this, store, dep`state
      ensures Since(old(Marked()), {dep.id}) && HandsOff(old(Marked()), Marked()) && old(calls) <= calls
      ensures Phase(dep.Seen(), store.db, f)
      ensures Blamed(old(Marked()), ctx, dep.id, dep.app, f)
      ensures f.None? ==> dep.state == Pushing && Evident(|old(calls)|, JobSaid(dep.id, JobSucceeded))
    {
      hide Inv, Legal, After, Guard, ClusterOk, Later, HandsOff, InSync, Logged, Shown, Because;
      f := BlockedPhase(ctx, dep);
      if f.Some? {
        return;
      }
      ghost var m := Marked();
      f := AwaitBuild(ctx, dep);
      Then(old(Marked()), m, {dep.id}, Marked(), {dep.id}, {dep.id});
      BlamedSince(old(Marked()), m, {dep.id}, ctx, dep.id, dep.app, f);
      if f.None? {
        EvidentStill(Marked(), |m.calls|, |old(calls)|, JobSaid(dep.id, JobSucceeded));
      }
    }

    method ResolvePhase(ctx: Context, dep: Dep, app: AppRow) returns (f: Option<Failure>)
      requires Valid() && Phase(dep.Seen(), store.db, None) && dep.state == Pushing
      requires ctx == Budget(opts, dep.Seen())
      modifies this, store, dep
      ensures Since(old(Marked()), {dep.id}) && HandsOff(old(Marked()), Marked()) && old(calls) <= calls
      ensures Phase(dep.Seen(), store.db, f)
      ensures Blamed(old(Marked()), ctx, dep.id, dep.app, f)
      ensures f.None? ==> dep.state == Deploying
      ensures f.None? ==> Evident(|old(calls)|, DigestSaid(dep.id, dep.imageDigest))
      ensures f.None? ==> Evident(|old(calls)|, RootSaid(dep.id, dep.imageDigest, false))
    {
      hide Inv, Legal, After, Guard, ClusterOk, Later, HandsOff, Logged, Shown, Because;
      f := BlockedPhase(ctx, dep);
      if f.Some? {
        return;
      }
      ghost var m := Marked();
      f := ResolveImage(ctx, dep, app);
      Then(old(Marked()), m, {dep.id}, Marked(), {dep.id}, {dep.id});
      BlamedSince(old(Marked()), m, {dep.id}, ctx, dep.id, dep.app, f);
      if f.None? {
        EvidentStill(Marked(), |m.calls|, |old(calls)|, DigestSaid(dep.id, dep.imageDigest));
        EvidentStill(Marked(), |m.calls|, |old(calls)|, RootSaid(dep.id, dep.imageDigest, false));
      }
    }

    /** The phases up to deploying, resuming at whichever one the row's state says is next. */
    method Walk(ctx: Context, dep: Dep, app: AppRow) returns (f: Option<Failure>)
      requires Valid() && Phase(dep.Seen(), store.db, None)
      requires ctx == Budget(opts, dep.Seen())
      requires dep.state == Building ==> Unpolled(dep.id)
      modifies this, store, dep
      ensures Since(old(Marked()), {dep.id}) && HandsOff(old(Marked()), Marked()) && old(calls) <= calls
      ensures Phase(dep.Seen(), store.db, f)
      ensures Blamed(old(Marked()), ctx, dep.id, dep.app, f)
      ensures f.None? ==> dep.state == Deploying
      ensures f.None? ==> Earned(world, calls, |old(calls)|, old(dep.Seen()), dep.imageDigest)
      ensures f.None? && old(dep.state) == Queued && dep.source.Upload? ==> Engineered(world, calls, store.db, dep.id)
    {
      hide Inv, Legal, After, Guard, ClusterOk, Later, HandsOff, InSync, Logged, Shown, Because, Earned, Engineered;
      ghost var start, v := Marked(), dep.Seen();
      SinceNow();
      NothingAbout(start, {dep.id});
      if dep.state == Queued {
        f := LeaveQueue(ctx, dep, app);
        if f.Some? {
          return;
        }
      }
      ghost var m, u := Marked(), dep.Seen();
      f := FinishBuild(ctx, dep, app);
      Then(start, m, {dep.id}, Marked(), {dep.id}, {dep.id});
      BlamedSince(start, m, {dep.id}, ctx, dep.id, dep.app, f);
      if f.Some? {
        return;
      }
      ghost var n := Marked();
      EarnedMore(world, n.calls, |m.calls|, n.calls, |start.calls|, u, v, dep.imageDigest);
      f := BlockedPhase(ctx, dep);
      Then(start, n, {dep.id}, Marked(), {dep.id}, {dep.id});
      BlamedSince(start, n, {dep.id}, ctx, dep.id, dep.app, f);
      EarnedMore(world, n.calls, |start.calls|, calls, |start.calls|, v, v, dep.imageDigest);
      if v.state == Queued && v.source.Upload? {
        Then(m, n, {dep.id}, Marked(), {dep.id}, {dep.id});
        EngineStays(m, {dep.id}, dep.id);
      }
    }

    /** The whole of one deployment, to healthy or to a failure for the caller to record. */
    method Run(ctx: Context, dep: Dep, uploadOk: bool, ghost asked: Mark) returns (f: Option<Failure>)
      requires Valid() && Phase(dep.Seen(), store.db, None)
      requires Since(asked, {}) && (!uploadOk ==> Excused(ctx, |asked.calls|, NoUpload(dep.id)))
      requires ctx == Budget(opts, dep.Seen())
      requires dep.state == Building ==> Unpolled(dep.id)
      modifies this, store, dep
      ensures Since(asked, {dep.id}) && Since(old(Marked()), {dep.id}) && old(calls) <= calls
      ensures Outcome(dep.id, store.db, cluster, f)
      ensures Blamed(asked, ctx, dep.id, dep.app, f)
      ensures store.db.deployments[dep.id].state == Healthy ==>
                && Evident(|old(calls)|, ReadySaid(dep.id))
                && Earned(world, calls, |old(calls)|, old(dep.Seen()), store.db.deployments[dep.id].imageDigest)
                && (dep.source.Upload? && old(dep.state) == Queued ==> Engineered(world, calls, store.db, dep.id))
    {
      hide Inv, Legal, After, Guard, ClusterOk, Later, HandsOff, InSync, Shipped, Logged, Shown, Because, Earned,
           Torn, Engineered;
      ghost var start, v := Marked(), dep.Seen();
      AppOf(v);
      OnOwnBudget(v);
      var app := GetApp(ctx, dep.id, dep.app);
      Then(asked, start, {}, Marked(), {}, {});
      StaysInSync(start, {}, dep.Seen());
      NothingAbout(start, {dep.id});
      NothingAbout(asked, {dep.id});
      if app.None? {
        f := Some(Failure(INTERNAL, false));
        TornBlame(start, ctx, dep.id, dep.app);
        BlamedSince(asked, start, {}, ctx, dep.id, dep.app, f);
        return;
      }
      if dep.source.Upload? && !uploadOk {
        f := Some(Failure(UPLOAD_INVALID, false));
        ExcusedStill(start, {}, ctx, |asked.calls|, NoUpload(dep.id));
        UploadBlame(asked, ctx, dep.id, dep.app);
        return;
      }
      ghost var found := Marked();
      f := WalkAndDeploy(ctx, dep, app.value);
      Then(start, found, {}, Marked(), {dep.id}, {dep.id});
      Then(asked, found, {}, Marked(), {dep.id}, {dep.id});
      BlamedSince(asked, found, {dep.id}, ctx, dep.id, dep.app, f);
      if store.db.deployments[dep.id].state == Healthy {
        EvidentStill(Marked(), |found.calls|, |start.calls|, ReadySaid(dep.id));
        EarnedMore(world, calls, |found.calls|, calls, |start.calls|, v, v, store.db.deployments[dep.id].imageDigest);
      }
    }

    lemma UploadBlame(m: Mark, ctx: Context, id: Id, app: Id)
      requires Excused(ctx, |m.calls|, NoUpload(id))
      ensures Blamed(m, ctx, id, app, Some(Failure(UPLOAD_INVALID, false)))
    {
    }

    method WalkAndDeploy(ctx: Context, dep: Dep, app: AppRow) returns (f: Option<Failure>)
      requires Valid() && Phase(dep.Seen(), store.db, None)
      requires dep.app in store.db.apps && app.slug == store.db.apps[dep.app].slug
      requires ctx == Budget(opts, dep.Seen())
      requires dep.state == Building ==> Unpolled(dep.id)
      modifies this, store, dep
      ensures Since(old(Marked()), {dep.id}) && old(calls) <= calls
      ensures Outcome(dep.id, store.db, cluster, f)
      ensures Blamed(old(Marked()), ctx, dep.id, dep.app, f)
      ensures store.db.deployments[dep.id].state == Healthy ==>
                && Evident(|old(calls)|, ReadySaid(dep.id))
                && Earned(world, calls, |old(calls)|, old(dep.Seen()), store.db.deployments[dep.id].imageDigest)
                && (dep.source.Upload? && old(dep.state) == Queued ==> Engineered(world, calls, store.db, dep.id))
    {
      hide Inv, Legal, After, Guard, ClusterOk, Later, HandsOff, InSync, Shipped, Logged, Shown, Because, Earned,
           Torn, Engineered;
      ghost var start, v := Marked(), dep.Seen();
      f := Walk(ctx, dep, app);
      if f.Some? {
        return;
      }
      ghost var walked, digest := Marked(), dep.imageDigest;
      InDeploying(dep.Seen(), store.db);
      SlugStays(start, walked, {dep.id}, dep.app);
      f := DeployApp(ctx, dep, app);
      Then(start, walked, {dep.id}, Marked(), {dep.id}, {dep.id});
      BlamedSince(start, walked, {dep.id}, ctx, dep.id, dep.app, f);
      if store.db.deployments[dep.id].state == Healthy {
        EvidentStill(Marked(), |walked.calls|, |start.calls|, ReadySaid(dep.id));
        DigestSettled(walked, {dep.id}, dep.id, digest);
        EarnedMore(world, walked.calls, |start.calls|, calls, |start.calls|, v, v, digest);
        if v.source.Upload? && v.state == Queued {
          EngineStays(walked, {dep.id}, dep.id);
        }
      }
    }

    /** Once deploying, a row's digest is its own for good. */
    lemma DigestSettled(m: Mark, ids: set<Id>, id: Id, digest: string)
      requires Later(m, Marked(), ids) && id in m.db.deployments && id in store.db.deployments
      requires m.db.deployments[id].state == Deploying || m.db.deployments[id].state == Cancelled
      requires m.db.deployments[id].imageDigest == digest && store.db.deployments[id].state == Healthy
      ensures store.db.deployments[id].imageDigest == digest
    {
      assert RowEvolves(m.db.deployments[id], store.db.deployments[id]);
    }

    // ---- Ending a drive ------------------------------------------------------------------

    /**
     * Records a terminal failure with a context of its own, by exactly one write. Unless it never reached
     * the store the row is terminal afterwards, failed for this reason or ended by something else; and if
     * it never did, the row is as the agents left it. A dead process's write never does.
     */
    method Fail(id: Id, reason: string) returns (fate: Fate)
      requires Valid() && id in store.db.deployments && reason != ""
      modifies this, store
      ensures Since(old(Marked()), {id}) && HandsOff(old(Marked()), Marked())
      ensures Made(old(calls), calls, MoveRow(id, Failed, reason), fate)
      ensures id in store.db.deployments
      ensures Moves(old(store.db).deployments[id], store.db.deployments[id], Failed, reason, fate == Lost)
      ensures EndedUnlessLost(world, calls, |old(calls)|, id, store.db)
      ensures old(dead) ==> fate == Lost
    {
      hide Inv, Legal, After, Guard, Composed, ClusterOk, Later, HandsOff, Logged;
      FailGuard(store.db, id, reason);
      ClockNow();
      var writeCtx := WithTimeout(Context(None, true), WRITE_TIMEOUT);
      var r;
      r, fate := Transition(writeCtx, id, Failed, reason);
      StillDead(old(Marked()), Marked(), {id});
      MovesClimb(old(store.db).deployments[id].state, Failed);
      PressedNow(|old(calls)|);
      assert fate == Lost ==> Shows(world, |old(calls)|, calls[|old(calls)|], FailureLost(id));
    }

    lemma FreeNow(k: nat)
      requires Valid() && k < |calls| && calls[k].ctx == UNBOUNDED
      ensures Free(world, k, calls[k])
    {
      hide Booked, AllProper, AllWarranted, Legal, After, ClusterOk, Free;
      FreeFate(world, opts.interval, since, calls, k);
    }

    lemma PressedNow(k: nat)
      requires Valid() && k < |calls| && calls[k].what.MoveRow? && calls[k].what.to == Failed
      ensures Pressed(world, k, calls[k])
    {
      hide Booked, AllProper, AllWarranted, Legal, After, ClusterOk, Pressed;
      PressedFate(world, opts, since, calls, k, store.db);
    }

    /** Best effort: a Job that would not delete must not leave the row in flight. */
    method DeleteBuildJob(job: string)
      requires Valid()
      modifies this, store
      ensures Since(old(Marked()), {}) && HandsOff(old(Marked()), Marked()) && old(calls) <= calls
      ensures job != "" ==> Evident(|old(calls)|, DeleteAsked(job))
    {
      hide Inv, Legal, After, ClusterOk, Later, HandsOff, Logged;
      SinceNow();
      if job != "" {
        ghost var asked := |calls|;
        var _ := Ask(UNBOUNDED, JobDelete(job));
        assert Shows(world, asked, calls[asked], DeleteAsked(job));
      }
    }

    function RemainingBudget(createdAt: int): int
      reads this
    {
      opts.deployTimeout - (now - createdAt)
    }

    /** The watchdog: stop the build, write the failure, drop the tarball. */
    method Expire(v: View)
      requires Valid() && v.id in store.db.deployments
      modifies this, store
      ensures Since(old(Marked()), {v.id}) && HandsOff(old(Marked()), Marked()) && old(calls) <= calls
      ensures v.jobName != "" ==> Evident(|old(calls)|, DeleteAsked(v.jobName))
      ensures v.id in store.db.deployments
      ensures EndedUnlessLost(world, calls, |old(calls)|, v.id, store.db)
      ensures Kind(world, calls, |old(calls)|) ==> EndedAt(store.db, v.id)
      ensures !old(dead) && (forall k | |old(calls)| <= k < |calls| ::
                world(k).fate != Lost && world(k).elapsed < 10_000_000_000 && !world(k).died) ==>
                store.db.deployments[v.id].state in {Healthy, Failed, Cancelled}
      ensures Lapsed(old(store.db).deployments[v.id], store.db.deployments[v.id], true)
      ensures old(RemainingBudget(v.createdAt)) <= 0 && old(store.db).deployments[v.id].state != Failed
                  && store.db.deployments[v.id].state == Failed ==>
                FailedFor(world, opts, old(Marked()), Marked(), v, TIMEOUT)
    {
      hide Inv, Legal, After, ClusterOk, Later, HandsOff, Lapsed, Logged, Shown, EndedUnlessLost, Kind, FailedFor;
      ghost var start := Marked();
      assert Logged(world, opts, since, history, start);
      StopAndFail(v);
      ghost var n := Marked();
      var _ := Ask(UNBOUNDED, UploadDrop(v.id));
      RowKept(n, {}, v.id);
      LapsedStays(start.db.deployments[v.id], n.db.deployments[v.id], store.db.deployments[v.id], true, true);
      Then(start, n, {v.id}, Marked(), {}, {v.id});
      EvolvedSince(n, {});
      EndedMore(world, n.calls, |start.calls|, n.db, calls, |start.calls|, store.db, v.id);
      EndsInKindWorld(world, calls, |start.calls|, v.id, store.db);
      KindNow(start, {v.id});
      StillTimedOut(start, n, v);
      if v.jobName != "" {
        EvidentStill(n, |start.calls|, |start.calls|, DeleteAsked(v.jobName));
      }
    }

    method StopAndFail(v: View)
      requires Valid() && v.id in store.db.deployments
      modifies this, store
      ensures Since(old(Marked()), {v.id}) && HandsOff(old(Marked()), Marked()) && old(calls) <= calls
      ensures v.jobName != "" ==> Evident(|old(calls)|, DeleteAsked(v.jobName))
      ensures v.id in store.db.deployments
      ensures EndedUnlessLost(world, calls, |old(calls)|, v.id, store.db)
      ensures Lapsed(old(store.db).deployments[v.id], store.db.deployments[v.id], true)
      ensures old(RemainingBudget(v.createdAt)) <= 0 && old(store.db).deployments[v.id].state != Failed
                  && store.db.deployments[v.id].state == Failed ==>
                FailedFor(world, opts, old(Marked()), Marked(), v, TIMEOUT)
    {
      hide Inv, Legal, After, ClusterOk, Later, HandsOff, Moves, AgentKept, Lapsed, Logged, Shown, EndedUnlessLost,
           FailedFor;
      ghost var start := Marked();
      DeleteBuildJob(v.jobName);
      RowKept(start, {}, v.id);
      ghost var m := Marked();
      assert Logged(world, opts, since, history, m);
      var fate := Fail(v.id, TIMEOUT);
      LapsedSince(start.db.deployments[v.id], m.db.deployments[v.id], store.db.deployments[v.id], fate == Lost);
      Then(start, m, {}, Marked(), {v.id}, {v.id});
      TimeWritten(start, m, v, fate);
      EvolvesReflexive(store.db);
      EndedMore(world, calls, |m.calls|, store.db, calls, |start.calls|, store.db, v.id);
      if v.jobName != "" {
        EvidentStill(m, |start.calls|, |start.calls|, DeleteAsked(v.jobName));
      }
    }

    /** In the process that was alive then, nothing the world did since has killed it or lost a call of it. */
    lemma KindNow(start: Mark, ids: set<Id>)
      requires Logged(world, opts, since, history, start) && Later(start, Marked(), ids)
      ensures !start.dead && (forall k | |start.calls| <= k < |calls| ::
                world(k).fate != Lost && world(k).elapsed < 10_000_000_000 && !world(k).died) ==>
                Kind(world, calls, |start.calls|)
    {
      hide Booked, AllProper, AllWarranted, CommittedBy, Went, ToldSince;
    }

    lemma EvolvedSince(m: Mark, ids: set<Id>)
      requires Later(m, Marked(), ids)
      ensures Evolves(m.db, store.db) && m.calls <= calls && m.now <= now
    {
    }

    /** A failure just written, on grounds its writer had. */
    lemma WrittenNow(start: Mark, m: Mark, v: View, reason: string, fate: Fate)
      requires |start.calls| <= |m.calls| && Later(m, Marked(), {v.id}) && Valid()
      requires Logged(world, opts, since, history, m) && Made(m.calls, calls, MoveRow(v.id, Failed, reason), fate)
      requires fate != Lost && Because(world, opts, start, m, Budget(opts, v), v.id, v.app, reason)
      ensures FailedFor(world, opts, start, Marked(), v, reason)
    {
      hide Legal, After, ClusterOk, AllProper, AllWarranted, Because, Went, CommittedBy, DiedSince, ToldSince;
      WentEvolves(m, Marked(), {v.id});
      assert calls[..|m.calls|] == m.calls;
      assert Befell(world, opts.interval, Clock(since, m.calls), |m.calls|, calls[|m.calls|]);
      assert WrittenAt(world, opts, start, m, Marked(), v, reason);
    }

    lemma TimeWritten(start: Mark, m: Mark, v: View, fate: Fate)
      requires Later(start, m, {}) && Later(m, Marked(), {v.id}) && Valid() && Logged(world, opts, since, history, m)
      requires Made(m.calls, calls, MoveRow(v.id, Failed, TIMEOUT), fate)
      ensures fate != Lost && opts.deployTimeout - (start.now - v.createdAt) <= 0 ==>
                FailedFor(world, opts, start, Marked(), v, TIMEOUT)
    {
      hide Legal, After, ClusterOk, Logged, Later, FailedFor;
      LaterClock(start, m, {});
      if fate != Lost && opts.deployTimeout - (start.now - v.createdAt) <= 0 {
        WrittenNow(start, m, v, TIMEOUT, fate);
      }
    }

    lemma StillTimedOut(start: Mark, n: Mark, v: View)
      requires Later(n, Marked(), {})
      ensures FailedFor(world, opts, start, n, v, TIMEOUT) ==> FailedFor(world, opts, start, Marked(), v, TIMEOUT)
    {
      hide Later, FailedFor;
      LaterEvolves(n, Marked(), {});
      if FailedFor(world, opts, start, n, v, TIMEOUT) {
        FailedForStill(world, opts, start, n, Marked(), v, TIMEOUT);
      }
    }

    /**
     * Takes one deployment as far as it goes. However the budget, the process and everybody else behave,
     * the row is in flight afterwards exactly when the write that was to record its failure was lost and
     * nothing else ended it. It is healthy only with a release carrying exactly what its namespace runs,
     * after the workload was said to be ready and whatever of the build was still to do was said to have
     * succeeded, with an image said not to run as root. It has failed only for a reason that what
     * happened since the drive began bears out.
     */
    method Drive(v: View)
      requires Valid() && Phase(v, store.db, None)
      modifies this, store
      ensures Since(old(Marked()), {v.id}) && old(calls) <= calls
      ensures v.id in store.db.deployments
      ensures InFlight(old(store.db).deployments[v.id]) ==>
                (InFlight(store.db.deployments[v.id]) <==>
                   && Evident(|old(calls)|, FailureLost(v.id)) && !Evident(|old(calls)|, FailureLanded(v.id))
                   && store.db.deployments[v.id].state != Healthy && store.db.deployments[v.id].state != Cancelled)
      ensures Kind(world, calls, |old(calls)|) ==> EndedAt(store.db, v.id)
      ensures !old(dead) && (forall k | |old(calls)| <= k < |calls| ::
                world(k).fate != Lost && world(k).elapsed < 10_000_000_000 && !world(k).died) ==>
                store.db.deployments[v.id].state in {Healthy, Failed, Cancelled}
      ensures Driven(world, opts, old(Marked()), Marked(), v)
      ensures v.createdAt + opts.deployTimeout <= old(now) ==>
                Lapsed(old(store.db).deployments[v.id], store.db.deployments[v.id], true)
    {
      hide Inv, Legal, After, Guard, ClusterOk, Later, HandsOff, InSync, Shipped, Logged, Shown, Because, Earned,
           EndedUnlessLost, Lapsed, Fared, Driven;
      ghost var start := Marked();
      assert Logged(world, opts, since, history, start);
      var budget := RemainingBudget(v.createdAt);
      if budget <= 0 {
        NotEndedYet(v, store.db);
        Expire(v);
        SpentBlame(start, v);
      } else {
        DriveInTime(v, budget);
      }
      RowThere(Marked(), start, v);
      EndsInKindWorld(world, calls, |start.calls|, v.id, store.db);
      KindNow(start, {v.id});
      ExactlyLost(start, v.id);
    }

    /** A drive with budget left: the walk, and whatever failure it ends in recorded. */
    method DriveInTime(v: View, budget: int)
      requires Valid() && Phase(v, store.db, None) && budget == RemainingBudget(v.createdAt)
      modifies this, store
      ensures Since(old(Marked()), {v.id}) && old(calls) <= calls
      ensures Driven(world, opts, old(Marked()), Marked(), v)
    {
      hide Inv, Legal, After, Guard, ClusterOk, Later, HandsOff, InSync, Shipped, Logged, Shown, Because, Earned,
           EndedUnlessLost, AgentKept, Driven, Fared;
      ghost var start := Marked();
      var runCtx := WithTimeout(UNBOUNDED, budget);
      assert runCtx == Budget(opts, v);
      var dep := new Dep(v);
      OnOwnBudget(v);
      var uploadOk := AskUpload(runCtx, v);
      StaysInSync(start, {}, v);
      if v.state == Building {
        BuildsUpload(v, store.db);
      }
      ghost var m := Marked();
      var f := Run(runCtx, dep, uploadOk, start);
      ghost var n := Marked();
      FaredSoFar(start, m, v);
      if f.Some? && !f.value.ended {
        RecordFailure(runCtx, dep, f.value.reason, start, v);
        Then(start, n, {v.id}, Marked(), {v.id}, {v.id});
      } else {
        NothingToRecord(start, v, f);
      }
      if v.source.Upload? {
        n := Marked();
        var _ := Ask(UNBOUNDED, UploadDrop(v.id));
        Then(start, n, {v.id}, Marked(), {}, {v.id});
        RowThere(n, start, v);
        RowKept(n, {}, v.id);
        DrivenStill(world, opts, start, n, Marked(), v);
      }
    }

    method AskUpload(ctx: Context, v: View) returns (ok: bool)
      requires Valid() && OnBudget(opts, store.db, v.id, ctx)
      modifies this, store
      ensures Since(old(Marked()), {}) && HandsOff(old(Marked()), Marked()) && old(calls) <= calls
      ensures !ok ==> Excused(ctx, |old(calls)|, NoUpload(v.id))
      ensures v.source.Upload? ==> Unpolled(v.id)
    {
      hide Inv, Legal, After, ClusterOk, Later, HandsOff, Logged;
      SinceNow();
      ok := true;
      if v.source.Upload? {
        ghost var asked := |calls|;
        ok := Ask(ctx, UploadRead(v.id));
        BeganNext(old(calls), calls, v.id);
        assert !ok && !Cut(ctx) ==> Shows(world, asked, calls[asked], NoUpload(v.id));
      }
    }

    /** What the walk's log shows since it began, the drive's shows since it did. */
    lemma FaredSoFar(start: Mark, m: Mark, v: View)
      requires |start.calls| <= |m.calls| && v.id in store.db.deployments
      requires store.db.deployments[v.id].state == Healthy ==>
                 && Shipped(store.db, cluster, v.id)
                 && Evident(|m.calls|, ReadySaid(v.id))
                 && Earned(world, calls, |m.calls|, v, store.db.deployments[v.id].imageDigest)
                 && (v.source.Upload? && v.state == Queued ==> Engineered(world, calls, store.db, v.id))
      ensures Fared(world, |start.calls|, Marked(), v)
    {
      hide Shown, Earned, Shipped, Engineered;
      if store.db.deployments[v.id].state == Healthy {
        ShownMore(world, calls, |m.calls|, calls, |start.calls|, ReadySaid(v.id));
        EarnedMore(world, calls, |m.calls|, calls, |start.calls|, v, v, store.db.deployments[v.id].imageDigest);
      }
    }

    lemma NothingToRecord(start: Mark, v: View, f: Option<Failure>)
      requires Fared(world, |start.calls|, Marked(), v) && Outcome(v.id, store.db, cluster, f)
      requires f.Some? ==> f.value.ended
      ensures Driven(world, opts, start, Marked(), v)
    {
      hide Shown, Earned, Shipped, FailedFor;
    }

    lemma RowThere(n: Mark, start: Mark, v: View)
      requires Driven(world, opts, start, n, v)
      ensures v.id in n.db.deployments && EndedUnlessLost(world, n.calls, |start.calls|, v.id, n.db)
    {
    }

    /** A spent budget is the reason, whichever step noticed it; and the build goes with it. */
    method RecordFailure(runCtx: Context, dep: Dep, reason: string, ghost start: Mark, ghost v: View)
      requires Since(start, {dep.id}) && v.id in store.db.deployments && reason != ""
      requires Fared(world, |start.calls|, Marked(), v)
      requires v.id == dep.id && v.app == dep.app && runCtx == Budget(opts, v)
      requires store.db.deployments[v.id].state != Failed
      requires Cut(runCtx) || Because(world, opts, start, Marked(), runCtx, v.id, v.app, reason)
      modifies this, store
      ensures Since(old(Marked()), {v.id}) && old(calls) <= calls
      ensures Driven(world, opts, start, Marked(), v)
      ensures store.db.deployments[v.id].state == Failed ==>
                store.db.deployments[v.id].failureReason == if old(Expired(runCtx)) then TIMEOUT else reason
      ensures (old(Expired(runCtx)) || reason == TIMEOUT || reason == ACCOUNT_SUSPENDED) && dep.jobName != "" ==>
                Evident(|old(calls)|, DeleteAsked(dep.jobName))
    {
      hide Inv, Legal, After, Guard, ClusterOk, Later, HandsOff, InSync, Shipped, AgentKept, Logged, Shown, Because,
           Earned, EndedUnlessLost, Fared, Driven;
      ghost var was := Marked();
      var recorded := if Expired(runCtx) then TIMEOUT else reason;
      SpentOr(start, runCtx, v, reason);
      SinceNow();
      if recorded == TIMEOUT || recorded == ACCOUNT_SUSPENDED {
        DeleteBuildJob(dep.jobName);
      }
      ghost var m := Marked();
      RowKept(was, {}, v.id);
      NotFailedYet(was.db.deployments[v.id], store.db.deployments[v.id]);
      FaredKept(world, |start.calls|, was, m, v);
      StillDead(was, m, {});
      if !was.dead {
        BecauseStill(world, opts, start, was, m, {}, runCtx, v.id, v.app, recorded);
      }
      Then(start, was, {dep.id}, m, {}, {dep.id});
      LaterEvolves(start, m, {dep.id});
      WriteFailure(dep.id, recorded, start, v);
      Then(was, m, {}, Marked(), {v.id}, {v.id});
      if (recorded == TIMEOUT || recorded == ACCOUNT_SUSPENDED) && dep.jobName != "" {
        EvidentStill(m, |was.calls|, |was.calls|, DeleteAsked(dep.jobName));
      }
    }

    lemma NotFailedYet(d: Deployment, e: Deployment)
      requires AgentKept(d, e) && d.state != Failed
      ensures e.state != Failed
    {
    }

    method WriteFailure(id: Id, recorded: string, ghost start: Mark, ghost v: View)
      requires Valid() && id in store.db.deployments && recorded != "" && |start.calls| <= |calls|
      requires v.id == id && store.db.deployments[id].state != Failed
      requires Fared(world, |start.calls|, Marked(), v)
      requires dead || Because(world, opts, start, Marked(), Budget(opts, v), v.id, v.app, recorded)
      modifies this, store
      ensures Since(old(Marked()), {v.id}) && old(calls) <= calls
      ensures Driven(world, opts, start, Marked(), v)
      ensures v.id in store.db.deployments
      ensures store.db.deployments[v.id].state == Failed ==> store.db.deployments[v.id].failureReason == recorded
    {
      hide Inv, Legal, After, ClusterOk, Later, HandsOff, Shipped, Moves, AgentKept, Logged, Shown, Because, Earned,
           EndedUnlessLost, Fared, Driven, FailedFor;
      ghost var m, d := Marked(), store.db.deployments[id];
      assert Logged(world, opts, since, history, m);
      var fate := Fail(id, recorded);
      if fate != Lost {
        WrittenNow(start, m, v, recorded, fate);
      }
      KeptAsIs(d);
      BoundUp(start, m, d, v, recorded, fate == Lost);
    }

    lemma KeptAsIs(d: Deployment)
      ensures AgentKept(d, d)
    {
    }

    lemma SpentOr(start: Mark, ctx: Context, v: View, reason: string)
      requires Cut(ctx) || Because(world, opts, start, Marked(), ctx, v.id, v.app, reason)
      ensures dead || Because(world, opts, start, Marked(), ctx, v.id, v.app, if Expired(ctx) then TIMEOUT else reason)
    {
    }

    /** The one write of the failure, and what it makes of the drive. */
    lemma BoundUp(start: Mark, m: Mark, d: Deployment, v: View, recorded: string, lost: bool)
      requires |start.calls| <= |m.calls| && Later(m, Marked(), {v.id}) && HandsOff(m, Marked())
      requires Fared(world, |start.calls|, m, v) && EndedUnlessLost(world, calls, |m.calls|, v.id, store.db)
      requires lost || FailedFor(world, opts, start, Marked(), v, recorded)
      requires v.id in m.db.deployments && v.id in store.db.deployments && d.state != Failed
      requires AgentKept(d, m.db.deployments[v.id])
      requires Moves(m.db.deployments[v.id], store.db.deployments[v.id], Failed, recorded, lost)
      ensures Driven(world, opts, start, Marked(), v)
      ensures store.db.deployments[v.id].state == Failed ==> store.db.deployments[v.id].failureReason == recorded
    {
      hide Later, HandsOff, Moves, AgentKept, FailedFor, Shown, Earned, Shipped, Fared, Evolves;
      FailedOnlyFor(d, m.db.deployments[v.id], store.db.deployments[v.id], recorded, lost);
      FaredStill(world, |start.calls|, m, |start.calls|, Marked(), {v.id}, v, v);
      EvolvesReflexive(store.db);
      EndedMore(world, calls, |m.calls|, store.db, calls, |start.calls|, store.db, v.id);
    }

    /** The budget is spent: that is the reason, if it is recorded. */
    lemma SpentBlame(start: Mark, v: View)
      requires Since(start, {v.id}) && v.id in start.db.deployments && v.id in store.db.deployments
      requires opts.deployTimeout - (start.now - v.createdAt) <= 0
      requires Lapsed(start.db.deployments[v.id], store.db.deployments[v.id], true)
      requires start.db.deployments[v.id].state != Healthy && start.db.deployments[v.id].state != Failed
      requires EndedUnlessLost(world, calls, |start.calls|, v.id, store.db)
      requires store.db.deployments[v.id].state == Failed ==> FailedFor(world, opts, start, Marked(), v, TIMEOUT)
      ensures Driven(world, opts, start, Marked(), v)
    {
      hide Inv, Legal, After, ClusterOk, Logged, Shown, Shipped, Evolves, Grew, FailedFor;
    }

    // ---- The log and the rows ------------------------------------------------------------

    /** Every event a row has gained but its supersession, one landed call of the loop wrote, about that row. */
    lemma EventByCall(m: Mark, ids: set<Id>, id: Id, j: nat) returns (k: nat)
      requires Since(m, ids) && m.db == After(EMPTY, m.trace) && id in m.db.deployments && id in store.db.deployments
      requires |m.db.deployments[id].log| <= j < |store.db.deployments[id].log|
      requires store.db.deployments[id].log[j].to != Cancelled
      ensures |m.calls| <= k < |calls| && calls[k].fate != Lost && ActionOf(calls[k].what, calls[k].at).Some?
      ensures Writes(ActionOf(calls[k].what, calls[k].at).value, id, store.db.deployments[id].log[j])
    {
      hide Inv, Legal, After, ClusterOk, Evolves, Logged, Only, Writes, CommittedBy;
      EmptyInv();
      ghost var e := store.db.deployments[id].log[j];
      var i := EventBy(EMPTY, m.trace, trace, id, j);
      assert trace[i] in CommittedBy(calls[|m.calls|..]);
      NoAgentWrites(trace[i], id, e);
      k := CallOf(|m.calls|, trace[i]);
    }

    lemma NoAgentWrites(a: Action, id: Id, e: Event)
      requires Writes(a, id, e)
      ensures !a.Agent()
    {
    }

    /** What the loop itself committed from a call on, one of those calls asked for, and landed. */
    lemma CallOf(from: nat, a: Action) returns (k: nat)
      requires Valid() && from <= |calls| && a in CommittedBy(calls[from..]) && !a.Agent()
      ensures from <= k < |calls| && calls[k].fate != Lost && ActionOf(calls[k].what, calls[k].at) == Some(a)
    {
      hide Inv, Legal, After, ClusterOk, AllWarranted, AllProper, CommittedBy, Booked, DiedSince, ToldSince;
      var more := calls[from..];
      forall n | 0 <= n < |more| ensures forall b | b in more[n].agents :: b.Agent() {
        AgentsOnly(world, opts.interval, since, calls, from + n);
      }
      var n := CommittedSource(more, a);
      k := from + n;
    }

    /** A landed failure leaves its row ended. */
    lemma LandedFailureEnds(m: Mark, ids: set<Id>, id: Id)
      requires Since(m, ids) && m.db == After(EMPTY, m.trace) && id in m.db.deployments
      requires Evident(|m.calls|, FailureLanded(id))
      ensures id in store.db.deployments && Terminal(store.db.deployments[id].state)
    {
      hide Inv, Legal, After, ClusterOk, Evolves, Only, Logged, CommittedBy;
      EmptyInv();
      var k :| |m.calls| <= k < |calls| && Shows(world, k, calls[k], FailureLanded(id));
      var more, a := calls[|m.calls|..], ActionOf(calls[k].what, calls[k].at).value;
      CommittedHolds(more, k - |m.calls|, a);
      var n :| 0 <= n < |CommittedBy(more)| && CommittedBy(more)[n] == a;
      assert trace[|m.trace| + n] == a;
      FailureSince(EMPTY, m.trace, trace, |m.trace| + n, id);
    }

    /** A row that failed meanwhile, a landed call of the loop failed. */
    lemma FailedByCall(m: Mark, ids: set<Id>, id: Id)
      requires Since(m, ids) && m.db == After(EMPTY, m.trace) && id in m.db.deployments
      requires InFlight(m.db.deployments[id])
      requires id in store.db.deployments && store.db.deployments[id].state == Failed
      ensures Evident(|m.calls|, FailureLanded(id))
    {
      hide Inv, Legal, After, ClusterOk, Logged, Evolves, Only, Writes, Shown;
      Consistent();
      RowStands(store.db, id);
      LegalLogFacts(store.db.deployments[id].log);
      EmptyInv();
      Onward(EMPTY, m.trace, trace);
      RowStands(m.db, id);
      LegalLogFacts(m.db.deployments[id].log);
      LogGrew(m.db, store.db, id);
      var k := EventByCall(m, ids, id, |store.db.deployments[id].log| - 1);
      FailureShows(k, id, store.db.deployments[id].log[|store.db.deployments[id].log| - 1]);
      ShownAt(k, |m.calls|, FailureLanded(id));
    }

    lemma ShownAt(k: nat, from: nat, e: Evidence)
      requires from <= k < |calls| && Shows(world, k, calls[k], e)
      ensures Evident(from, e)
    {
    }

    lemma FailureShows(k: nat, id: Id, e: Event)
      requires k < |calls| && calls[k].fate != Lost && ActionOf(calls[k].what, calls[k].at).Some?
      requires e.to == Failed && Writes(ActionOf(calls[k].what, calls[k].at).value, id, e)
      ensures Shows(world, k, calls[k], FailureLanded(id))
    {
    }

    lemma LogGrew(a: Tables, b: Tables, id: Id)
      requires Evolves(a, b) && id in a.deployments && id in b.deployments
      requires RowReplays(a.deployments[id]) && RowReplays(b.deployments[id])
      requires InFlight(a.deployments[id]) && Terminal(b.deployments[id].state)
      ensures |a.deployments[id].log| < |b.deployments[id].log|
    {
      assert RowEvolves(a.deployments[id], b.deployments[id]);
    }

    /** In flight, exactly when its failure was written, never landed, and nothing else ended it. */
    lemma ExactlyLost(m: Mark, id: Id)
      requires Since(m, {id}) && m.db == After(EMPTY, m.trace) && id in m.db.deployments
      requires EndedUnlessLost(world, calls, |m.calls|, id, store.db)
      ensures InFlight(m.db.deployments[id]) ==>
                (InFlight(store.db.deployments[id]) <==>
                   && Evident(|m.calls|, FailureLost(id)) && !Evident(|m.calls|, FailureLanded(id))
                   && store.db.deployments[id].state != Healthy && store.db.deployments[id].state != Cancelled)
    {
      hide Inv, Legal, After, ClusterOk, Logged, Later, Shown;
      if Evident(|m.calls|, FailureLanded(id)) {
        LandedFailureEnds(m, {id}, id);
      }
      if InFlight(m.db.deployments[id]) && store.db.deployments[id].state == Failed {
        FailedByCall(m, {id}, id);
      }
    }

    // ---- Listing and recovery ------------------------------------------------------------

    method ListNonTerminal() returns (ok: bool, views: seq<View>)
      requires Valid()
      modifies this, store
      ensures Since(old(Marked()), {}) && HandsOff(old(Marked()), Marked())
      ensures |calls| == |old(calls)| + 1 && old(calls) <= calls && calls[|old(calls)|].what == List
      ensures ok <==> !dead && !cancelled && world(|old(calls)|).fate == Heard
      ensures dead == DiedSince(world, calls[|old(calls)|].boot, |calls|)
      ensures if ok then Listing(views, store.db) else views == []
    {
      hide Inv, Legal, After, ClusterOk, Later, HandsOff, InSync, Logged;
      ok := Ask(UNBOUNDED, List);
      AliveHere(old(Marked()));
      views := [];
      if ok {
        Consistent();
        views := InFlightViews(store.db);
      }
    }

    lemma AliveHere(m: Mark)
      requires Since(m, {}) && |calls| == |m.calls| + 1
      ensures dead == DiedSince(world, calls[|m.calls|].boot, |calls|)
    {
      hide Inv, Legal, After, ClusterOk, Went, Booked, AllProper, AllWarranted, CommittedBy, DiedSince, ToldSince;
    }

    /** The last call was no drive's look at its app. */
    predicate Idle()
      reads this
    {
      calls == [] || !calls[|calls| - 1].what.AppRead?
    }

    /** Asks what one stranded row's Job did, if it ever had one, and acts on that answer alone. */
    method RecoverOne(v: View)
      requires Valid() && v.id in store.db.deployments && Idle()
      modifies this, store
      ensures Since(old(Marked()), {v.id}) && HandsOff(old(Marked()), Marked()) && old(calls) <= calls
      ensures v.id in store.db.deployments
      ensures Idle()
      ensures Handled(world, calls, |old(calls)|, v, old(store.db).deployments[v.id], store.db.deployments[v.id])
    {
      hide Inv, Legal, After, ClusterOk, Later, HandsOff, Logged, AgentKept, Judged;
      ghost var start, d, asked := Marked(), store.db.deployments[v.id], |calls|;
      SinceNow();
      NothingAbout(start, {v.id});
      KeptAsIs(d);
      if v.state == Building && v.jobName != "" {
        JudgeJob(v);
        assert calls[asked].what == JobRead(v.id);
      }
    }

    method JudgeJob(v: View)
      requires Valid() && v.id in store.db.deployments && Idle()
      modifies this, store
      ensures Since(old(Marked()), {v.id}) && HandsOff(old(Marked()), Marked()) && old(calls) <= calls
      ensures v.id in store.db.deployments && Idle()
      ensures |old(calls)| < |calls| && calls[|old(calls)|].what == JobRead(v.id)
      ensures Judged(world, calls, |old(calls)|, v.id, old(store.db).deployments[v.id], store.db.deployments[v.id])
    {
      hide Proper, Inv, Legal, After, ClusterOk, Later, HandsOff, Logged, AgentKept, Shown, Judged, Free;
      ghost var start, d, asked := Marked(), store.db.deployments[v.id], |calls|;
      KeptAsIs(d);
      MayAskIdle(v.id);
      var job := AskJob(UNBOUNDED, v.id);
      FreeNow(asked);
      RowKept(start, {}, v.id);
      NothingAbout(start, {v.id});
      ghost var m, e := Marked(), store.db.deployments[v.id];
      if job == Some(JobRunning) || job.None? {
        LeftAlone(asked, v.id, d, e);
        return;
      }
      if job == Some(JobSucceeded) {
        HandOver(v.id, d);
      } else {
        GiveUp(v.id, d);
      }
      Then(start, m, {}, Marked(), {v.id}, {v.id});
    }

    /** The build is done: the claim goes back. */
    method HandOver(id: Id, ghost d: Deployment)
      requires Valid() && id in store.db.deployments && AgentKept(d, store.db.deployments[id])
      requires calls != [] && calls[|calls| - 1].what == JobRead(id) && calls[|calls| - 1].fate == Heard
      requires world(|calls| - 1).job == JobSucceeded && Free(world, |calls| - 1, calls[|calls| - 1])
      modifies this, store
      ensures Since(old(Marked()), {id}) && HandsOff(old(Marked()), Marked()) && old(calls) <= calls
      ensures id in store.db.deployments && Idle()
      ensures Judged(world, calls, |old(calls)| - 1, id, d, store.db.deployments[id])
    {
      hide Proper, Inv, Legal, After, ClusterOk, Later, HandsOff, Logged, AgentKept, Judged, Free;
      ghost var e, asked := store.db.deployments[id], |calls| - 1;
      assert Shows(world, asked, calls[asked], JobSaid(id, JobSucceeded));
      MayHandBack(id);
      var released := ReleaseClaim(UNBOUNDED, id);
      HandedBack(asked, id, d, e, store.db.deployments[id]);
    }

    /** There is no live build: the row ends. */
    method GiveUp(id: Id, ghost d: Deployment)
      requires Valid() && id in store.db.deployments && AgentKept(d, store.db.deployments[id])
      requires calls != [] && calls[|calls| - 1].what == JobRead(id) && calls[|calls| - 1].fate == Heard
      requires (world(|calls| - 1).job == JobFailed || world(|calls| - 1).job == JobGone)
      requires Free(world, |calls| - 1, calls[|calls| - 1])
      modifies this, store
      ensures Since(old(Marked()), {id}) && HandsOff(old(Marked()), Marked()) && old(calls) <= calls
      ensures id in store.db.deployments && Idle()
      ensures Judged(world, calls, |old(calls)| - 1, id, d, store.db.deployments[id])
    {
      hide Proper, Inv, Legal, After, ClusterOk, Later, HandsOff, Logged, AgentKept, Judged, Free, Moves, Pressed,
           EndedUnlessLost;
      ghost var e, asked := store.db.deployments[id], |calls| - 1;
      var fate := Fail(id, BUILD_FAILED);
      PressedNow(asked + 1);
      EndedOn(asked, id, d, e, store.db.deployments[id]);
    }

    lemma MayAskIdle(id: Id)
      requires Idle()
      ensures MayAsk(UNBOUNDED, JobRead(id))
    {
    }

    lemma MayHandBack(id: Id)
      requires Valid() && id in store.db.deployments && Evident(0, JobSaid(id, JobSucceeded))
      ensures MayWrite(UNBOUNDED, HandBack(id))
    {
      hide Inv, Legal, After, ClusterOk, Logged, Shown;
    }

    lemma LeftAlone(k: nat, id: Id, d: Deployment, e: Deployment)
      requires k < |calls| && (calls[k].fate != Heard || world(k).job == JobRunning) && AgentKept(d, e)
      requires Free(world, k, calls[k])
      ensures Judged(world, calls, k, id, d, e)
    {
    }

    lemma HandedBack(k: nat, id: Id, c: Deployment, d: Deployment, e: Deployment)
      requires k + 1 < |calls| && calls[k].fate == Heard && world(k).job == JobSucceeded
      requires calls[k + 1].what == HandBack(id)
      requires AgentKept(c, d)
      requires var fate := calls[k + 1].fate;
               && (if fate == Lost then AgentKept(d, e)
                   else e.state == d.state || (InFlight(d) && e.state == Cancelled))
               && (fate != Lost && d.state == Building ==> e.state == Cancelled || e.claimedBy == None)
      requires Free(world, k, calls[k]) && Free(world, k + 1, calls[k + 1])
      ensures Judged(world, calls, k, id, c, e)
    {
    }

    lemma EndedOn(k: nat, id: Id, c: Deployment, d: Deployment, e: Deployment)
      requires k + 1 < |calls| && calls[k].fate == Heard && world(k).job in {JobFailed, JobGone}
      requires calls[k + 1].what == MoveRow(id, Failed, BUILD_FAILED) && AgentKept(c, d)
      requires Moves(d, e, Failed, BUILD_FAILED, calls[k + 1].fate == Lost)
      requires Free(world, k, calls[k]) && Pressed(world, k + 1, calls[k + 1])
      ensures Judged(world, calls, k, id, c, e)
    {
      if InFlight(d) {
        MovesClimb(d.state, Failed);
      }
    }

    /** Every other row of the listing, while one of them was being handled. */
    lemma OthersKept(m: Mark, views: seq<View>, i: nat)
      requires i < |views| && Distinct(views)
      requires Since(m, {views[i].id}) && m.db == After(EMPTY, m.trace)
      requires forall j | 0 <= j < |views| :: views[j].id in m.db.deployments
      ensures forall j | 0 <= j < |views| && j != i ::
                && views[j].id in store.db.deployments
                && AgentKept(m.db.deployments[views[j].id], store.db.deployments[views[j].id])
    {
      hide Inv, Legal, After, ClusterOk, Later, AgentKept, Logged;
      forall j | 0 <= j < |views| && j != i
        ensures views[j].id in store.db.deployments
        ensures AgentKept(m.db.deployments[views[j].id], store.db.deployments[views[j].id])
      {
        RowKept(m, {views[i].id}, views[j].id);
      }
    }

    /**
     * Ends or hands back what a dead drive left in building. A listed row is touched only if it was listed
     * building with a Job recorded, and then only as the cluster's answer about that Job says; nothing
     * already ended is ever reopened; and it stops short only when told to.
     */
    method RecoverStranded(views: seq<View>) returns (handled: nat)
      requires Valid() && Distinct(views) && Idle()
      requires forall j | 0 <= j < |views| :: views[j].id in store.db.deployments
      modifies this, store
      ensures Since(old(Marked()), Ids(views)) && HandsOff(old(Marked()), Marked()) && old(calls) <= calls
      ensures handled <= |views| && (handled < |views| ==> cancelled)
      ensures Passed(world, calls, |old(calls)|, views, handled, old(store.db), store.db)
    {
      hide Inv, Legal, After, ClusterOk, Later, HandsOff, Handled, AgentKept, Logged, Passed;
      ghost var start := Marked();
      SinceNow();
      NothingAbout(start, Ids(views));
      handled := 0;
      PassedNone(world, calls, views, store.db);
      while handled < |views|
        invariant handled <= |views| && Since(start, Ids(views)) && HandsOff(start, Marked()) && start.calls <= calls
        invariant Passed(world, calls, |start.calls|, views, handled, start.db, store.db) && Idle()
      {
        if Expired(UNBOUNDED) {
          return;
        }
        ghost var m := Marked();
        PassedRows(world, calls, |start.calls|, views, handled, start.db, store.db);
        RecoverOne(views[handled]);
        Then(start, m, Ids(views), Marked(), {views[handled].id}, Ids(views));
        OthersKept(m, views, handled);
        PassedOne(world, |start.calls|, views, handled, start.db, m.calls, m.db, calls, store.db);
        handled := handled + 1;
      }
    }

    /** Fails what has run past the deploy budget over the same listing, and touches nothing else. */
    method ExpireOverdue(views: seq<View>) returns (handled: nat)
      requires Valid() && Distinct(views)
      requires forall j | 0 <= j < |views| :: views[j].id in store.db.deployments
      modifies this, store
      ensures Since(old(Marked()), Ids(views)) && HandsOff(old(Marked()), Marked()) && old(calls) <= calls
      ensures handled <= |views| && (handled < |views| ==> cancelled)
      ensures Expiring(world, calls, |old(calls)|, views, handled, opts.deployTimeout, old(store.db), old(now),
              store.db, now)
      ensures forall j | 0 <= j < handled && views[j].createdAt + opts.deployTimeout <= old(now) ::
                EndedUnlessLost(world, calls, |old(calls)|, views[j].id, store.db)
      ensures forall j | 0 <= j < |views| && now < views[j].createdAt + opts.deployTimeout ::
                && views[j].id in store.db.deployments
                && AgentKept(old(store.db).deployments[views[j].id], store.db.deployments[views[j].id])
    {
      hide Inv, Legal, After, ClusterOk, Later, HandsOff, Expiring, Logged, EndedUnlessLost, Lapsed, AgentKept;
      ghost var start := Marked();
      SinceNow();
      NothingAbout(start, Ids(views));
      handled := 0;
      ExpiringNone(world, calls, views, opts.deployTimeout, store.db, now);
      while handled < |views|
        invariant handled <= |views| && Since(start, Ids(views)) && HandsOff(start, Marked()) && start.calls <= calls
        invariant Expiring(world, calls, |start.calls|, views, handled, opts.deployTimeout, start.db, start.now,
                  store.db, now)
        invariant forall j | 0 <= j < |views| :: views[j].id in store.db.deployments
        invariant start.now <= now
      {
        if Expired(UNBOUNDED) {
          OnlyOverdue(world, calls, |start.calls|, views, handled, opts.deployTimeout, start.db, start.now, store.db,
              now);
          return;
        }
        if RemainingBudget(views[handled].createdAt) > 0 {
          ExpiringSkip(world, calls, |start.calls|, views, handled, opts.deployTimeout, start.db, start.now, store.db,
              now);
        } else {
          ghost var m := Marked();
          Expire(views[handled]);
          Then(start, m, Ids(views), Marked(), {views[handled].id}, Ids(views));
          LaterEvolves(m, Marked(), {views[handled].id});
          OthersKept(m, views, handled);
          ExpiringOne(world, |start.calls|, views, handled, opts.deployTimeout, start.db, start.now, m.calls, m.db,
              m.now, calls, store.db, now);
        }
        handled := handled + 1;
      }
      OnlyOverdue(world, calls, |start.calls|, views, handled, opts.deployTimeout, start.db, start.now, store.db, now);
    }

    /** The deployment the platform owes next, claimed by this pod; none only when nothing is owed or no answer came. */
    method ClaimNext() returns (claimed: Option<View>)
      requires Valid()
      modifies this, store
      ensures Valid() && Onwards(old(Marked()), Marked())
      ensures |calls| == |old(calls)| + 1 && calls[|old(calls)|].what == Claim(opts.podName)
      ensures claimed.Some? ==> Phase(claimed.value, store.db, None)
      ensures claimed.Some? ==>
                && store.db.deployments[claimed.value.id].claimedBy == Some(opts.podName)
                && ReadOf(claimed.value, store.db.deployments[claimed.value.id])
      ensures claimed.None? ==>
                || dead || cancelled || world(|old(calls)|).fate != Heard
                || forall d | d in store.db.deployments ::
                     || store.db.deployments[d].claimedBy.Some?
                     || store.db.deployments[d].state in {Healthy, Failed, Cancelled}
      ensures old(cancelled) ==> cancelled
    {
      hide Inv, Legal, After, ClusterOk, Went, HandsOff, Evolves, Logged, OldestUnclaimed, Befell, DiedSince,
           ToldSince, Owed, LandedBy, Apply, Phase;
      ghost var m := Marked();
      var c := Pass(UNBOUNDED, Claim(opts.podName));
      WentOnwards(m, Marked(), {});
      ghost var mid := Marked();
      OneLanded(c, Action.ClaimNext(opts.podName));
      claimed := None;
      if c.fate != Lost {
        var taken := Take();
        claimed := if c.fate == Heard then taken else None;
      } else {
        EvolvesReflexive(store.db);
      }
      EvolvesTransitive(m.db, mid.db, store.db);
      LoggedNext(world, opts, since, history, m, Marked().(calls := calls + [c]), c);
      calls := calls + [c];
    }

    /** The claim as it lands. */
    method Take() returns (taken: Option<View>)
      requires Sound()
      modifies this`trace, store
      ensures Sound() && trace == old(trace) + [Action.ClaimNext(opts.podName)] && Evolves(old(store.db), store.db)
      ensures taken.Some? ==> Phase(taken.value, store.db, None)
      ensures taken.Some? ==>
                && store.db.deployments[taken.value.id].claimedBy == Some(opts.podName)
                && ReadOf(taken.value, store.db.deployments[taken.value.id])
      ensures taken.None? ==> forall d | d in store.db.deployments ::
                store.db.deployments[d].claimedBy.Some? || store.db.deployments[d].state in {Healthy, Failed, Cancelled}
    {
      hide Inv, Legal, After, ClusterOk, Evolves, OldestUnclaimed;
      EmptyInv();
      Committed(EMPTY, trace, store.db, Action.ClaimNext(opts.podName), cluster, now);
      ClaimPicks(store.db, opts.podName);
      ClaimInFlight(store.db, opts.podName);
      var id := store.ClaimNext(opts.podName);
      trace := trace + [Action.ClaimNext(opts.podName)];
      taken := None;
      if id.Ok? {
        RowInSync(store.db, id.value);
        taken := Some(DeploymentRow(id.value, store.db.deployments[id.value]));
      }
    }

    /**
     * Recovers, expires, then claims one deployment and drives it, over one listing unless it could not be
     * read. What the cluster said has no live build ends with build_failed however overdue it was; what
     * was overdue when the tick began has ended; and the claimed row is as its drive leaves it. A lost
     * failure write, or being told to stop, is all that excuses any of it.
     */
    method Tick() returns (views: seq<View>, recovered: nat, expired: nat, claimed: Option<View>,
                           ghost listed: Mark, ghost before: Mark)
      requires Valid()
      modifies this, store
      ensures Valid() && Onwards(old(Marked()), listed) && Onwards(listed, before) && Onwards(before, Marked())
      ensures |listed.calls| == |old(calls)| + 1 && calls[|old(calls)|].what == List
      ensures if !listed.dead && !listed.cancelled && world(|old(calls)|).fate == Heard then Listing(views, listed.db)
              else views == []
      ensures recovered <= |views| && expired <= |views| && (recovered < |views| || expired < |views| ==> cancelled)
      ensures EndedOnEvidence(world, calls, |listed.calls|, views, recovered, store.db)
      ensures forall j | 0 <= j < expired && views[j].createdAt + opts.deployTimeout <= old(now) ::
                EndedUnlessLost(world, calls, |listed.calls|, views[j].id, store.db)
      ensures calls[|before.calls| - 1].what == Claim(opts.podName)
      ensures claimed.None? ==>
                || before.dead || before.cancelled || world(|before.calls| - 1).fate != Heard
                || forall d | d in before.db.deployments ::
                     || before.db.deployments[d].claimedBy.Some?
                     || before.db.deployments[d].state in {Healthy, Failed, Cancelled}
      ensures claimed.Some? ==>
                Phase(claimed.value, before.db, None) && Driven(world, opts, before, Marked(), claimed.value)
      ensures Kind(world, calls, |listed.calls|) ==>
                && (claimed.Some? ==> EndedAt(store.db, claimed.value.id))
                && forall j | 0 <= j < expired && views[j].createdAt + opts.deployTimeout <= old(now) ::
                     EndedAt(store.db, views[j].id)
      ensures Gentle() ==>
                && (claimed.Some? ==>
                      && claimed.value.id in store.db.deployments
                      && store.db.deployments[claimed.value.id].state in {Healthy, Failed, Cancelled})
                && forall j | 0 <= j < |views| && views[j].createdAt + opts.deployTimeout <= old(now) ::
                     && views[j].id in store.db.deployments
                     && store.db.deployments[views[j].id].state in {Healthy, Failed, Cancelled}
    {
      hide Inv, Legal, After, ClusterOk, Later, HandsOff, Evolves, EndedOnEvidence, EndedInTime, Listing, Logged,
           Driven, Onwards, Owed, Phase, Kind, EndedUnlessLost, Gentle;
      views, recovered, expired, listed := Tend();
      ghost var tended := Marked();
      claimed, before := ClaimAndDrive();
      KindSince(world, calls, |listed.calls|, calls, |tended.calls|);
      OnwardsThen(listed, tended, before);
      OnwardsThen(tended, before, Marked());
      OnwardsFacts(listed, tended);
      OnwardsFacts(tended, Marked());
      OnwardsFacts(before, Marked());
      EvidenceLasts(world, tended.calls, |listed.calls|, views, recovered, tended.db, calls, store.db);
      InTimeLasts(world, tended.calls, |listed.calls|, views, expired, opts.deployTimeout, old(now), tended.db, calls,
          store.db);
      assert forall j | 0 <= j < expired && views[j].createdAt + opts.deployTimeout <= old(now) ::
        EndedUnlessLost(world, calls, |listed.calls|, views[j].id, store.db) by {
        InTimeEach(world, calls, |listed.calls|, views, expired, opts.deployTimeout, old(now), store.db);
      }
      if Kind(world, calls, |listed.calls|) {
        InTimeInKindWorld(world, calls, |listed.calls|, views, expired, opts.deployTimeout, old(now), store.db);
      }
      if Gentle() {
        GentleIsKind(|listed.calls|);
      }
    }

    /** Claims what is owed next, if anything, and takes it as far as it goes. */
    method ClaimAndDrive() returns (claimed: Option<View>, ghost before: Mark)
      requires Valid()
      modifies this, store
      ensures Valid() && Onwards(old(Marked()), before) && Onwards(before, Marked())
      ensures |before.calls| == |old(calls)| + 1 && before.calls <= calls && (old(cancelled) ==> cancelled)
      ensures calls[|old(calls)|].what == Claim(opts.podName)
      ensures claimed.None? ==>
                || before.dead || before.cancelled || world(|old(calls)|).fate != Heard
                || forall d | d in before.db.deployments ::
                     || before.db.deployments[d].claimedBy.Some?
                     || before.db.deployments[d].state in {Healthy, Failed, Cancelled}
      ensures claimed.Some? ==>
                Phase(claimed.value, before.db, None) && Driven(world, opts, before, Marked(), claimed.value)
      ensures claimed.Some? && Kind(world, calls, |old(calls)|) ==> EndedAt(store.db, claimed.value.id)
    {
      hide Inv, Legal, After, ClusterOk, Later, HandsOff, Evolves, Logged, Driven, Onwards, Phase, Kind;
      claimed := ClaimNext();
      before := Marked();
      OnwardsFacts(old(Marked()), before);
      if claimed.Some? {
        Drive(claimed.value);
        KindSince(world, calls, |old(calls)|, calls, |before.calls|);
        LaterOnwards(before, Marked(), {claimed.value.id});
        LaterEvolves(before, Marked(), {claimed.value.id});
      } else {
        OnwardsNow(before);
      }
    }

    /** The tick's two passes over its one listing. */
    method Tend() returns (views: seq<View>, recovered: nat, expired: nat, ghost listed: Mark)
      requires Valid()
      modifies this, store
      ensures Valid() && Onwards(old(Marked()), listed) && Onwards(listed, Marked())
      ensures |listed.calls| == |old(calls)| + 1 && listed.calls <= calls && calls[|old(calls)|].what == List
      ensures if !listed.dead && !listed.cancelled && world(|old(calls)|).fate == Heard then Listing(views, listed.db)
              else views == []
      ensures recovered <= |views| && expired <= |views| && (recovered < |views| || expired < |views| ==> cancelled)
      ensures EndedOnEvidence(world, calls, |listed.calls|, views, recovered, store.db)
      ensures EndedInTime(world, calls, |listed.calls|, views, expired, opts.deployTimeout, old(now), store.db)
    {
      hide Inv, Legal, After, ClusterOk, Later, HandsOff, Evolves, Passed, EndedOnEvidence, Expiring, EndedInTime,
           Listing, Logged, Onwards;
      ghost var start := Marked();
      var ok;
      ok, views := ListNonTerminal();
      listed := Marked();
      LaterOnwards(start, listed, {});
      ListingRows(views, store.db, ok);
      recovered := RecoverStranded(views);
      ghost var mended := Marked();
      LaterOnwards(listed, mended, Ids(views));
      PassedRows(world, calls, |listed.calls|, views, recovered, listed.db, mended.db);
      expired := ExpireOverdue(views);
      LaterOnwards(mended, Marked(), Ids(views));
      LaterEvolves(mended, Marked(), Ids(views));
      OnwardsThen(listed, mended, Marked());
      OnwardsFacts(start, listed);
      OnwardsFacts(listed, mended);
      EvolvesReflexive(store.db);
      EndedInTimeStays(world, views, expired, opts.deployTimeout, start.now, |listed.calls|, calls, |mended.calls|,
                       mended.db, mended.now, store.db, now, calls, store.db);
      if ok {
        EndedStays(world, mended.calls, |listed.calls|, mended.db, calls, store.db, views, recovered, listed.db);
      } else {
        NoneEnded(world, calls, |listed.calls|, store.db);
      }
    }

    /**
     * The startup sweep: every row listed in flight is driven to its end, whatever state the dead
     * process left it in, unless the process is told to stop or a failure write is lost.
     */
    method Sweep() returns (views: seq<View>, ghost listed: Mark)
      requires Valid()
      modifies this, store
      ensures Valid() && Onwards(old(Marked()), listed) && Onwards(listed, Marked())
      ensures |listed.calls| == |old(calls)| + 1 && calls[|old(calls)|].what == List
      ensures if !listed.dead && !listed.cancelled && world(|old(calls)|).fate == Heard then Listing(views, listed.db)
              else views == []
      ensures forall j | 0 <= j < |views| ::
                cancelled || EndedUnlessLost(world, calls, |listed.calls|, views[j].id, store.db)
      ensures !cancelled && Kind(world, calls, |old(calls)|) && world(|old(calls)|).fate == Heard ==>
                forall d | d in listed.db.deployments && InFlight(listed.db.deployments[d]) :: EndedAt(store.db, d)
      ensures Gentle() ==> forall d | d in listed.db.deployments ::
                d in store.db.deployments && store.db.deployments[d].state in {Healthy, Failed, Cancelled}
    {
      hide Inv, Legal, After, ClusterOk, Later, HandsOff, Evolves, InSync, Phase, Listing, Logged, EndedUnlessLost,
           Onwards, Driven, Kind, Gentle, DiedSince;
      ghost var start := Marked();
      var ok;
      ok, views := ListNonTerminal();
      listed := Marked();
      LaterOnwards(start, listed, {});
      OnwardsNow(listed);
      OnwardsFacts(start, listed);
      ListingRows(views, store.db, ok);
      for i := 0 to |views|
        invariant Valid() && Onwards(listed, Marked()) && listed.calls <= calls && (listed.cancelled ==> cancelled)
        invariant forall j | i <= j < |views| :: Phase(views[j], store.db, None)
        invariant forall j | 0 <= j < |views| :: views[j].id in store.db.deployments
        invariant forall j | 0 <= j < i :: EndedUnlessLost(world, calls, |listed.calls|, views[j].id, store.db)
      {
        if Expired(UNBOUNDED) {
          if Gentle() {
            GentleIsKind(|start.calls|);
          }
          return;
        }
        ghost var m := Marked();
        Drive(views[i]);
        RowThere(Marked(), m, views[i]);
        LaterOnwards(m, Marked(), {views[i].id});
        OnwardsThen(listed, m, Marked());
        OnwardsFacts(m, Marked());
        OthersKept(m, views, i);
        OthersInSync(m, views, i);
        EvolvesReflexive(store.db);
        forall j | 0 <= j < i + 1 ensures EndedUnlessLost(world, calls, |listed.calls|, views[j].id, store.db) {
          if j < i {
            EndedMore(world, m.calls, |listed.calls|, m.db, calls, |listed.calls|, store.db, views[j].id);
          } else {
            EndedMore(world, calls, |m.calls|, store.db, calls, |listed.calls|, store.db, views[j].id);
          }
        }
      }
      SweepOver(|start.calls|, listed, views);
    }

    /** Once every listed row is driven, a world that lost nothing has left none of them in flight. */
    lemma SweepOver(k: nat, listed: Mark, views: seq<View>)
      requires Valid() && Onwards(listed, Marked()) && listed.calls <= calls && |listed.calls| == k + 1
      requires listed.cancelled ==> cancelled
      requires listed.dead == DiedSince(world, calls[k].boot, k + 1)
      requires if !listed.dead && !listed.cancelled && world(k).fate == Heard then Listing(views, listed.db)
               else views == []
      requires forall j | 0 <= j < |views| :: EndedUnlessLost(world, calls, |listed.calls|, views[j].id, store.db)
      ensures !cancelled && Kind(world, calls, k) && world(k).fate == Heard ==>
                forall d | d in listed.db.deployments && InFlight(listed.db.deployments[d]) :: EndedAt(store.db, d)
      ensures Gentle() ==> forall d | d in listed.db.deployments ::
                d in store.db.deployments && store.db.deployments[d].state in {Healthy, Failed, Cancelled}
    {
      hide Valid, Listing, EndedUnlessLost, Onwards, Kind, Gentle, DiedSince;
      if Gentle() {
        GentleIsKind(k);
        AllThere(listed, Marked());
      }
      if !cancelled && Kind(world, calls, k) && world(k).fate == Heard {
        KindHere(k);
        KindSince(world, calls, k, calls, k + 1);
        AllEndInKindWorld(world, calls, k + 1, views, store.db);
      }
    }

    /** A world that answers everything promptly, kills nobody and tells nobody to stop. */
    ghost predicate Gentle()
      reads this
    {
      forall k :: world(k).fate == Heard && world(k).elapsed < 10_000_000_000 && !world(k).died && !world(k).told
    }

    lemma GentleIsKind(from: nat)
      requires Valid() && Gentle()
      ensures !dead && !cancelled && world(from).fate == Heard && Kind(world, calls, from)
    {
      hide Booked, AllProper, AllWarranted, CommittedBy, Legal, After, ClusterOk;
    }

    lemma AllThere(m: Mark, n: Mark)
      requires Onwards(m, n)
      ensures forall d | d in m.db.deployments && Terminal(m.db.deployments[d].state) :: EndedAt(n.db, d)
    {
      assert forall d | d in m.db.deployments :: RowEvolves(m.db.deployments[d], n.db.deployments[d]);
    }

    lemma KindHere(k: nat)
      requires k < |calls| && Kind(world, calls, k)
      ensures !DiedSince(world, calls[k].boot, k + 1)
    {
      hide DiedSince;
    }

    lemma OthersInSync(m: Mark, views: seq<View>, i: nat)
      requires i < |views| && Distinct(views)
      requires Since(m, {views[i].id}) && m.db == After(EMPTY, m.trace)
      requires forall j | i < j < |views| :: Phase(views[j], m.db, None)
      ensures forall j | i < j < |views| :: Phase(views[j], store.db, None)
    {
      hide Inv, Legal, After, ClusterOk, Later, AgentKept, Phase, Logged;
      forall j | i < j < |views| ensures Phase(views[j], store.db, None) {
        StaysInSync(m, {views[i].id}, views[j]);
      }
    }

    // ---- The reaper ----------------------------------------------------------------------

    /**
     * Deletes every namespace older than the grace whose slug no live app owns. None that goes belongs
     * to a live app, then or ever again; and a pass that was not told to stop, in a world that answers
     * everything, leaves none that was retired and old enough when it began.
     */
    method ReapOrphanNamespaces()
      requires Valid()
      modifies this, store
      ensures Since(old(Marked()), {})
      ensures forall s | s in old(cluster) && s !in cluster ::
                && (exists a :: a in store.db.apps && store.db.apps[a].slug == s)
                && forall a | a in store.db.apps && store.db.apps[a].slug == s :: store.db.apps[a].deleted
      ensures Answers(world, calls, |old(calls)|) && !cancelled ==>
                forall s | s in old(cluster) && old(cluster)[s].created < old(now) - opts.grace
                    && Retired(old(store.db), s) ::
                  s !in cluster
      ensures Gentle() ==>
                forall s, a | s in old(cluster) && old(cluster)[s].created < old(now) - opts.grace
                    && a in old(store.db).apps && old(store.db).apps[a].slug == s && old(store.db).apps[a].deleted ::
                  s !in cluster
    {
      hide Inv, Legal, After, ClusterOk, Later, Logged, Retired, LiveSlug;
      Reap();
      if Answers(world, calls, |old(calls)|) && !cancelled {
        AllAnswered(old(Marked()));
      }
      Consistent();
      NoneLive(store.db, set s | s in old(cluster) && s !in cluster);
      forall s | s in old(cluster) && s !in cluster
        ensures exists a :: a in store.db.apps && store.db.apps[a].slug == s
        ensures forall a | a in store.db.apps && store.db.apps[a].slug == s :: store.db.apps[a].deleted
      {
        RetiredRows(store.db, s);
      }
      RetiredThen(old(store.db));
      if Gentle() {
        GentleAnswers(|old(calls)|);
      }
    }

    /** Every namespace old enough when the pass began, and retired then, is gone. */
    ghost predicate AllDue(start: Mark)
      reads this, store
    {
      forall s | s in start.cluster && start.cluster[s].created < start.now - opts.grace && Retired(start.db, s) ::
        s !in cluster
    }

    lemma GentleAnswers(from: nat)
      requires Valid() && Gentle()
      ensures !cancelled && Answers(world, calls, from)
    {
      hide Booked, AllProper, AllWarranted, CommittedBy, Legal, After, ClusterOk;
    }

    lemma RetiredRows(db: Tables, slug: string)
      requires Retired(db, slug) && !LiveSlug(db, slug)
      ensures exists a :: a in db.apps && db.apps[a].slug == slug
      ensures forall a | a in db.apps && db.apps[a].slug == slug :: db.apps[a].deleted
    {
    }

    lemma RetiredThen(db: Tables)
      ensures forall a | a in db.apps && db.apps[a].deleted :: Retired(db, db.apps[a].slug)
    {
    }

    method Reap()
      requires Valid()
      modifies this, store
      ensures Since(old(Marked()), {}) && old(calls) <= calls
      ensures Gone(old(cluster), store.db, cluster)
      ensures Unbounded(calls, |old(calls)|)
      ensures AllHeard(calls, |old(calls)|) && !cancelled ==> AllDue(old(Marked()))
    {
      hide Inv, Legal, After, ClusterOk, Later, HandsOff, Retired, LiveSlug, Evolves, Gone, Logged, AllHeard,
           Unbounded, AllDue;
      ghost var start := Marked();
      NoneUnbounded();
      var cutoff := now - opts.grace;
      var read := Ask(UNBOUNDED, SlugsRead);
      ghost var known := Marked();
      GoneNow(start, known);
      OneMoreHeard(start, |start.calls|);
      if !read {
        return;
      }
      Consistent();
      LaterClock(start, known, {});
      var live := set a | a in store.db.apps && !store.db.apps[a].deleted :: store.db.apps[a].slug;
      ReapListed(cutoff, live, start);
      Then(start, known, {}, Marked(), {}, {});
      MoreUnbounded(known.calls, |start.calls|);
      if AllHeard(calls, |start.calls|) {
        HeardSince(|start.calls|, |known.calls|);
      }
    }

    /** Lists what is old enough, and deletes of it what no live app owns. */
    method ReapListed(cutoff: int, live: set<string>, ghost start: Mark)
      requires Since(start, {}) && HandsOff(start, Marked()) && cutoff == start.now - opts.grace && cutoff <= now
      requires live == set a | a in store.db.apps && !store.db.apps[a].deleted :: store.db.apps[a].slug
      modifies this, store
      ensures Since(old(Marked()), {}) && old(calls) <= calls
      ensures Gone(start.cluster, store.db, cluster)
      ensures Unbounded(calls, |old(calls)|)
      ensures AllHeard(calls, |old(calls)|) && !cancelled ==> AllDue(start)
    {
      hide Inv, Legal, After, ClusterOk, Later, HandsOff, Retired, LiveSlug, Evolves, Gone, Absent, Logged,
           AllHeard, Unbounded;
      ghost var known := Marked();
      NoneUnbounded();
      Consistent();
      var listed := Ask(UNBOUNDED, NamespacesRead);
      ghost var found := Marked();
      Then(start, known, {}, found, {}, {});
      GoneNow(start, found);
      OneMoreHeard(known, |known.calls|);
      if !listed {
        return;
      }
      var candidates := set s | s in cluster && cluster[s].created < cutoff;
      ghost var due := set s | s in start.cluster && start.cluster[s].created < cutoff && Retired(start.db, s);
      CandidatesRetired(known, found, cutoff, live);
      DueListed(start, known, found, cutoff, live);
      DeleteOrphans(candidates, live, start.cluster, due - (candidates - live));
      Then(known, found, {}, Marked(), {}, {});
      MoreUnbounded(found.calls, |known.calls|);
      if AllHeard(calls, |known.calls|) && !cancelled {
        HeardSince(|known.calls|, |found.calls|);
        AbsentAll(due, candidates - live, store.db, cluster);
      }
    }

    /** What the world answers, a call of no drive hears, unless the process is told to stop. */
    lemma AllAnswered(m: Mark)
      requires Since(m, {}) && Answers(world, calls, |m.calls|) && !cancelled && Unbounded(calls, |m.calls|)
      ensures AllHeard(calls, |m.calls|)
    {
      hide Inv, Legal, After, ClusterOk, Went, Booked, AllProper, AllWarranted, CommittedBy, DiedSince;
      forall k | |m.calls| <= k < |calls| ensures calls[k].fate == Heard {
        FreeNow(k);
        assert !ToldSince(world, boot, k + 1);
      }
    }

    lemma MoreUnbounded(seen: seq<Call>, from: nat)
      requires seen <= calls && from <= |seen| && Unbounded(seen, from) && Unbounded(calls, |seen|)
      ensures Unbounded(calls, from)
    {
      assert forall k | from <= k < |seen| :: seen[k] == calls[k];
    }

    lemma NoneUnbounded()
      ensures Unbounded(calls, |calls|)
    {
    }

    lemma OneMoreHeard(m: Mark, from: nat)
      requires m.calls <= calls && |calls| == |m.calls| + 1 && from <= |m.calls|
      requires Unbounded(m.calls, from) && calls[|m.calls|].ctx == UNBOUNDED
      ensures Unbounded(calls, from)
      ensures AllHeard(calls, from) ==> AllHeard(m.calls, from) && calls[|m.calls|].fate == Heard
    {
      assert forall k | from <= k < |m.calls| :: m.calls[k] == calls[k];
    }

    lemma HeardSince(from: nat, later: nat)
      requires AllHeard(calls, from) && from <= later
      ensures AllHeard(calls, later)
    {
    }

    /** One namespace that will not delete is stepped over, so the rest of the pass still runs. */
    method DeleteOrphans(candidates: set<string>, live: set<string>, ghost before: Cluster, ghost settled: set<string>)
      requires Valid() && AllRetired(candidates - live, store.db)
      requires Gone(before, store.db, cluster) && Absent(settled, store.db, cluster)
      modifies this, store
      ensures Since(old(Marked()), {}) && Gone(before, store.db, cluster) && Absent(settled, store.db, cluster)
      ensures old(calls) <= calls && Unbounded(calls, |old(calls)|)
      ensures AllHeard(calls, |old(calls)|) && !cancelled ==> Absent(candidates - live, store.db, cluster)
    {
      hide Inv, Legal, After, ClusterOk, Later, HandsOff, Retired, Evolves, Gone, Absent, AllRetired, Logged,
           AllHeard, Unbounded;
      ghost var start := Marked();
      SinceNow();
      NoneUnbounded();
      ghost var done: set<string> := {};
      var rest := candidates;
      NothingAbsent(store.db, cluster);
      while rest != {}
        invariant Since(start, {}) && start.calls <= calls
        invariant Gone(before, store.db, cluster) && Absent(settled, store.db, cluster)
        invariant AllRetired(candidates - live, store.db)
        invariant rest <= candidates && done == candidates - rest - live
        invariant AllHeard(calls, |start.calls|) ==> Absent(done, store.db, cluster)
        invariant Unbounded(calls, |start.calls|)
        decreases |rest|
      {
        if Expired(UNBOUNDED) {
          return;
        }
        var slug :| slug in rest;
        rest := rest - {slug};
        if slug in live {
          assert done == candidates - rest - live;
        } else {
          ghost var m := Marked();
          RetiredOne(candidates - live, slug, store.db);
          ghost var mid := DeleteNamespace(slug);
          Then(start, m, {}, Marked(), {}, {});
          RetiredStays(m, mid, candidates - live);
          GoneOn(before, m, mid, slug);
          AbsentOn(settled, m, mid, slug);
          AbsentOn(done, m, mid, slug);
          RetiredOne(candidates - live, slug, store.db);
          AbsentToo(done, slug, store.db, mid.cluster);
          OneMoreHeard(m, |start.calls|);
          done := done + {slug};
          assert done == candidates - rest - live;
        }
      }
      assert done == candidates - live;
    }

    /** Gone already is success; a call that never lands or is never answered is not. */
    method DeleteNamespace(slug: string) returns (ghost mid: Mark)
      requires Valid()
      modifies this, store
      ensures Since(old(Marked()), {}) && |calls| == |old(calls)| + 1 && old(calls) <= calls
      ensures calls[|old(calls)|].ctx == UNBOUNDED
      ensures Later(old(Marked()), mid, {}) && HandsOff(old(Marked()), mid)
      ensures Marked() == mid || Marked() == mid.(cluster := mid.cluster - {slug})
      ensures calls[|old(calls)|].fate == Heard ==> cluster == mid.cluster - {slug}
    {
      hide Inv, Legal, After, HandsOff, Evolves, Logged, Grew;
      var fate := Send(UNBOUNDED, NamespaceDelete(slug));
      mid := Marked();
      if fate != Lost {
        cluster := cluster - {slug};
      }
      SameLog(old(Marked()), mid, Marked());
    }

    /**
     * The control plane over any number of rounds, deaths and restarts: a start sweeps and reaps
     * before anything else, and then it ticks and reaps. Throughout, the database is what one legal run
     * from the empty database makes of it, so what module History and module Releases prove of such runs
     * is proved of this loop, the bounds as long as every set_config judged the map it changed; every
     * write ever asked for was warranted by what had been answered before it; and every call was given
     * the time it should have been, no more and no less.
     */
    method Serve(rounds: nat)
      requires Valid()
      modifies this, store
      ensures Valid() && Inv(store.db) && Onwards(old(Marked()), Marked())
      ensures Legal(EMPTY, trace) && store.db == After(EMPTY, trace)
      ensures forall d | d in store.db.deployments && store.db.deployments[d].state == Healthy
                         && store.db.deployments[d].source.Rollback? :: Faithful(store.db, d)
      ensures SerialRun(EMPTY, trace) ==> AllBounded(store.db)
      ensures AllWarranted(world, calls, store.db) && AllProper(opts, since, calls, store.db)
    {
      hide Inv, Legal, After, ClusterOk, Later, HandsOff, Evolves, Gone, Faithful, AllBounded, SerialRun, Onwards,
           AllWarranted, AllProper, Booked, DiedSince, ToldSince, CommittedBy;
      OnwardsNow(Marked());
      for round := 0 to rounds
        invariant Valid() && Onwards(old(Marked()), Marked())
      {
        ghost var m := Marked();
        var reaping: bool := *;
        if round == 0 || dead || cancelled {
          Restart();
          OnwardsNow(Marked());
          ghost var n := Marked();
          var views;
          ghost var listed;
          views, listed := Sweep();
          OnwardsThen(n, listed, Marked());
          ghost var swept := Marked();
          ReapOrphanNamespaces();
          LaterOnwards(swept, Marked(), {});
          OnwardsThen(n, swept, Marked());
          SameFlags(old(Marked()), m, n);
          OnwardsThen(old(Marked()), n, Marked());
        } else if reaping {
          ReapOrphanNamespaces();
          LaterOnwards(m, Marked(), {});
          OnwardsThen(old(Marked()), m, Marked());
        } else {
          ghost var listed, before;
          var views, recovered, expired, claimed;
          views, recovered, expired, claimed, listed, before := Tick();
          OnwardsThen(m, listed, before);
          OnwardsThen(m, before, Marked());
          OnwardsThen(old(Marked()), m, Marked());
        }
      }
      EmptyInv();
      InvOverRuns(EMPTY, trace);
      RollbacksFaithful(trace);
      if SerialRun(EMPTY, trace) {
        BoundsOverRuns(trace);
      }
    }

    /** A new process: not dead, not told anything yet. */
    method Restart()
      requires Valid()
      modifies this`dead, this`cancelled, this`boot
      ensures Valid() && !dead && !cancelled
    {
      hide Inv, Legal, After, ClusterOk, AllWarranted, Booked, CommittedBy;
      dead, cancelled, boot := false, false, |calls|;
    }

    lemma SameFlags(a: Mark, m: Mark, n: Mark)
      requires Onwards(a, m) && n == m.(dead := n.dead, cancelled := n.cancelled, boot := n.boot)
      ensures Onwards(a, n)
    {
    }
  }
}
