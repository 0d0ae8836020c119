/**
 * Retention: Sweep of internal/store/uploads.go, the one transaction that deletes. Rows that ended
 * failed or cancelled long enough ago go, and so does every event old enough.
 *
 * A run with such sweeps anywhere in it is one without them, seen through tables that have forgotten
 * some ended rows and some old events: `FullRun` below. So what is proved of runs holds of swept ones
 * wherever it does not speak of what was forgotten.
 */
module Retention {
  import opened Basics
  import opened StateMachine
  import opened Configuration
  import opened Tables
  import opened Runs
  import opened Invariant
  import opened History
  import opened Releases

  // ---- What a log may have lost -------------------------------------------------------------

  /** Some of the events, in the order of all of them. */
  predicate Within(part: seq<Event>, whole: seq<Event>)
    decreases |whole|
  {
    part == []
    || (whole != []
        && ((part[|part| - 1] == whole[|whole| - 1] && Within(part[..|part| - 1], whole[..|whole| - 1]))
            || Within(part, whole[..|whole| - 1])))
  }

  /** The clock never ran back while these were written. */
  predicate Ordered(log: seq<Event>) {
    forall i, j | 0 <= i < j < |log| :: log[i].at <= log[j].at
  }

  /** Some events are gone; and when the clock never ran back, they are the first ones. */
  predicate LogForgets(whole: seq<Event>, part: seq<Event>) {
    && Within(part, whole)
    && (Ordered(whole) ==> |part| <= |whole| && part == whole[|whole| - |part|..])
  }

  lemma {:induction false} WithinWhole(log: seq<Event>)
    ensures Within(log, log)
  {
    if log != [] {
      WithinWhole(log[..|log| - 1]);
    }
  }

  lemma LogForgetsNothing(log: seq<Event>)
    ensures LogForgets(log, log)
  {
    WithinWhole(log);
  }

  lemma LogExtended(whole: seq<Event>, part: seq<Event>, e: Event)
    requires LogForgets(whole, part)
    ensures LogForgets(whole + [e], part + [e])
  {
    var w, p := whole + [e], part + [e];
    assert w[..|w| - 1] == whole && p[..|p| - 1] == part;
    if Ordered(w) {
      forall i, j | 0 <= i < j < |whole| ensures whole[i].at <= whole[j].at {
        assert w[i] == whole[i] && w[j] == whole[j];
      }
    }
  }

  lemma {:induction false} RecentWithin(part: seq<Event>, whole: seq<Event>, cutoff: int)
    requires Within(part, whole)
    ensures Within(Recent(part, cutoff), whole)
    decreases |part| + |whole|
  {
    if part != [] {
      if Within(part, whole[..|whole| - 1]) {
        RecentWithin(part, whole[..|whole| - 1], cutoff);
        NotLast(Recent(part, cutoff), whole);
      } else {
        var p, w := part[..|part| - 1], whole[..|whole| - 1];
        RecentWithin(p, w, cutoff);
        var r, last := Recent(p, cutoff), part[|part| - 1];
        if last.at < cutoff {
          assert r + [] == r;
          NotLast(r, whole);
        } else {
          assert (r + [last])[..|r|] == r;
        }
      }
    }
  }

  lemma NotLast(part: seq<Event>, whole: seq<Event>)
    requires whole != [] && Within(part, whole[..|whole| - 1])
    ensures Within(part, whole)
  {
  }

  lemma {:induction false} NoneRecent(log: seq<Event>, cutoff: int)
    requires forall e | e in log :: e.at < cutoff
    ensures Recent(log, cutoff) == []
  {
    if log != [] {
      NoneRecent(log[..|log| - 1], cutoff);
    }
  }

  /** Of a log whose clock never ran back, what is recent is the end of it. */
  lemma {:induction false} RecentIsTail(log: seq<Event>, cutoff: int)
    requires Ordered(log)
    ensures |Recent(log, cutoff)| <= |log| && Recent(log, cutoff) == log[|log| - |Recent(log, cutoff)|..]
  {
    if log != [] {
      var init := log[..|log| - 1];
      RecentIsTail(init, cutoff);
      if log[|log| - 1].at < cutoff {
        NoneRecent(init, cutoff);
      } else {
        assert log == init + [log[|log| - 1]];
      }
    }
  }

  lemma LogSwept(whole: seq<Event>, part: seq<Event>, cutoff: int)
    requires LogForgets(whole, part)
    ensures LogForgets(whole, Recent(part, cutoff))
  {
    RecentWithin(part, whole, cutoff);
    if Ordered(whole) {
      RecentIsTail(part, cutoff);
    }
  }

  lemma LegalInit(log: seq<Event>)
    requires LegalLog(log) && |log| > 1
    ensures LegalLog(log[..|log| - 1])
  {
  }

  /** What survives of a legal log still climbs, and only its last event can bear the state the row ended in. */
  lemma {:induction false} SurvivorsClimb(part: seq<Event>, whole: seq<Event>)
    requires LegalLog(whole) && Within(part, whole)
    ensures |part| <= |whole|
    ensures forall i, j | 0 <= i < j < |part| :: Rank(part[i].to) < Rank(part[j].to)
    ensures forall i | 0 <= i < |part| :: Rank(part[i].to) <= Rank(whole[|whole| - 1].to)
    ensures forall i | 0 <= i < |part| && part[i].to == whole[|whole| - 1].to ::
              i == |part| - 1 && part[i] == whole[|whole| - 1]
    decreases |whole|
  {
    hide CanTransition, Rank;
    if part != [] && |whole| == 1 {
      assert Within(part, []) || part == [whole[0]];
    } else if part != [] {
      var w, last := whole[..|whole| - 1], whole[|whole| - 1];
      MovesClimb(w[|w| - 1].to, last.to);
      LegalInit(whole);
      if Within(part, w) {
        SurvivorsClimb(part, w);
      } else {
        var init := part[..|part| - 1];
        SurvivorsClimb(init, w);
        assert part == init + [last];
      }
    }
  }

  // ---- What the tables may have lost --------------------------------------------------------

  predicate RowForgets(d: Deployment, e: Deployment) {
    e == d.(log := e.log) && LogForgets(d.log, e.log)
  }

  /** Everything is there but some events, and some rows that ended failed or cancelled. */
  predicate Forgets(full: Tables, kept: Tables) {
    && kept.apps == full.apps && kept.releases == full.releases && kept.nextId == full.nextId
    && (forall d | d in kept.deployments ::
       d in full.deployments && RowForgets(full.deployments[d], kept.deployments[d]))
    && (forall d | d in full.deployments && d !in kept.deployments ::
          full.deployments[d].state == Failed || full.deployments[d].state == Cancelled)
  }

  lemma ForgetsNothing(db: Tables)
    ensures Forgets(db, db)
  {
    forall d | d in db.deployments ensures RowForgets(db.deployments[d], db.deployments[d]) {
      LogForgetsNothing(db.deployments[d].log);
    }
  }

  /** The write names a row that has been swept away. */
  predicate Forgotten(full: Tables, kept: Tables, a: Action) {
    Subject(a).Some? && Subject(a).value in full.deployments && Subject(a).value !in kept.deployments
  }

  lemma {:induction false} SameInFlight(full: Tables, kept: Tables, app: Id, below: Id)
    requires Forgets(full, kept)
    ensures FindInFlight(kept.deployments, app, below) == FindInFlight(full.deployments, app, below)
  {
    hide LogForgets;
    if below > 0 {
      SameInFlight(full, kept, app, below - 1);
    }
  }

  lemma {:induction false} SameOwed(full: Tables, kept: Tables, queued: bool, from: Id)
    requires Forgets(full, kept)
    ensures OldestUnclaimed(kept, queued, from) == OldestUnclaimed(full, queued, from)
    decreases if from < kept.nextId then kept.nextId - from else 0
  {
    hide LogForgets;
    if from < kept.nextId {
      SameOwed(full, kept, queued, from + 1);
    }
  }

  /** One row rewritten alike in both. */
  lemma RowForgotten(full: Tables, kept: Tables, id: Id, d: Deployment, e: Deployment)
    requires Forgets(full, kept) && id in kept.deployments && RowForgets(d, e)
    ensures Forgets(full.(deployments := full.deployments[id := d]), kept.(deployments := kept.deployments[id := e]))
  {
    hide RowForgets;
  }

  lemma MovedForgotten(d: Deployment, e: Deployment, to: State, reason: string, detail: string, at: int)
    requires RowForgets(d, e)
    ensures RowForgets(Moved(d, to, reason, detail, at), Moved(e, to, reason, detail, at))
    ensures RowForgets(Superseded(d, at), Superseded(e, at))
  {
    hide LogForgets;
    LogExtended(d.log, e.log, Event(Some(d.state), to, reason, detail, at));
    LogExtended(d.log, e.log, Event(Some(d.state), Cancelled, SUPERSEDED, "", at));
  }

  lemma CreateForgotten(full: Tables, kept: Tables, app: Id, source: Source, at: int)
    requires Inv(full) && Forgets(full, kept)
    ensures Forgets(CreateDeploymentTx(full, app, source, at).0, CreateDeploymentTx(kept, app, source, at).0)
  {
    hide Inv, Forgets, Born, Supersede;
    SameApps(full, kept);
    SupersedeForgotten(full, kept, app, at);
    var f, k := Supersede(full, app, at), Supersede(kept, app, at);
    SameInFlight(f, k, app, f.nextId);
    SameApps(f, k);
    var digest := StartingDigest(full, app, source);
    if digest.Ok? {
      BornForgotten(f, k, Born(app, source, digest.value, at));
    }
  }

  lemma SameApps(full: Tables, kept: Tables)
    requires Forgets(full, kept)
    ensures kept.apps == full.apps && kept.releases == full.releases && kept.nextId == full.nextId
  {
  }

  lemma SupersedeForgotten(full: Tables, kept: Tables, app: Id, at: int)
    requires Inv(full) && Forgets(full, kept)
    ensures Forgets(Supersede(full, app, at), Supersede(kept, app, at))
    ensures Supersede(full, app, at).nextId == full.nextId
  {
    hide Inv, RowForgets, LogForgets, Superseded;
    SameInFlight(full, kept, app, full.nextId);
    IdsBelow(full);
    var found := FindInFlight(full.deployments, app, full.nextId);
    if found.Some? {
      var d, e := full.deployments[found.value], kept.deployments[found.value];
      MovedForgotten(d, e, Cancelled, "", "", at);
      RowForgotten(full, kept, found.value, Superseded(d, at), Superseded(e, at));
    }
  }

  lemma BornForgotten(full: Tables, kept: Tables, d: Deployment)
    requires Forgets(full, kept)
    ensures Forgets(full.(deployments := full.deployments[full.nextId := d], nextId := full.nextId + 1),
                    kept.(deployments := kept.deployments[full.nextId := d], nextId := full.nextId + 1))
  {
    hide LogForgets;
    LogForgetsNothing(d.log);
  }

  lemma {:induction false} InsertAppForgotten(full: Tables, kept: Tables, account: Id, name: string, slugs: seq<string>)
    requires Forgets(full, kept)
    ensures Forgets(InsertApp(full, account, name, slugs).0, InsertApp(kept, account, name, slugs).0)
  {
    hide RowForgets;
    if slugs != [] && !NameTaken(full, account, name) && SlugUsed(full, slugs[0]) {
      InsertAppForgotten(full, kept, account, name, slugs[1..]);
    }
  }

  lemma AgentForgotten(full: Tables, kept: Tables, a: Action)
    requires Inv(full) && Forgets(full, kept) && a.Agent()
    ensures Forgets(Apply(full, a), Apply(kept, a))
  {
    hide Inv, RowForgets, InsertApp, CreateDeploymentTx;
    match a
    case CreateApp(account, name, slugs, limit) => InsertAppForgotten(full, kept, account, name, slugs);
    case DeleteApp(app) => SameInFlight(full, kept, app, full.nextId);
    case CreateDeployment(app, source, at) => CreateForgotten(full, kept, app, source, at);
    case _ =>
  }

  lemma ClaimForgotten(full: Tables, kept: Tables, claimer: string)
    requires Forgets(full, kept)
    ensures Forgets(ClaimNextTx(full, claimer).0, ClaimNextTx(kept, claimer).0)
  {
    hide LogForgets;
    SameOwed(full, kept, true, 0);
    SameOwed(full, kept, false, 0);
  }

  lemma LoopForgotten(full: Tables, kept: Tables, a: Action, id: Id)
    requires Forgets(full, kept) && Subject(a) == Some(id) && !a.MarkHealthy?
    requires id in full.deployments ==> id in kept.deployments
    ensures Forgets(Apply(full, a), Apply(kept, a))
  {
    hide LogForgets, Moved;
    if id in kept.deployments {
      var d, e := full.deployments[id], kept.deployments[id];
      match a
      case Transition(_, to, reason, detail, at) =>
        MovedForgotten(d, e, to, reason, detail, at);
        RowForgotten(full, kept, id, Moved(d, to, reason, detail, at), Moved(e, to, reason, detail, at));
      case _ =>
    }
  }

  lemma PromotionForgotten(full: Tables, kept: Tables, id: Id, config: Config, at: int)
    requires Forgets(full, kept) && (id in full.deployments ==> id in kept.deployments)
    ensures Forgets(MarkHealthyTx(full, id, config, at).0, MarkHealthyTx(kept, id, config, at).0)
  {
    hide LogForgets, Moved, ConfigSnapshot;
    assert HasRelease(full, id) == HasRelease(kept, id);
    if id in kept.deployments {
      MovedForgotten(full.deployments[id], kept.deployments[id], Healthy, "", "", at);
      RowForgotten(full, kept, id, Moved(full.deployments[id], Healthy, "", "", at),
          Moved(kept.deployments[id], Healthy, "", "", at));
    }
  }

  /** Nothing a writer sees or writes depends on what has been forgotten. */
  lemma StepForgets(full: Tables, kept: Tables, a: Action)
    requires Inv(full) && Forgets(full, kept) && Guard(kept, a)
    ensures if Forgotten(full, kept, a) then Apply(kept, a) == kept
            else Guard(full, a) && Forgets(Apply(full, a), Apply(kept, a))
  {
    hide Inv, LogForgets;
    if !Forgotten(full, kept, a) {
      hide RowForgets, Forgets, Apply, Guard;
      GuardForgets(full, kept, a);
      if a.Agent() {
        AgentForgotten(full, kept, a);
      } else if a.ClaimNext? {
        ClaimForgotten(full, kept, a.claimer);
        ApplyClaim(full, kept, a.claimer);
      } else if a.MarkHealthy? {
        PromotionForgotten(full, kept, a.id, a.config, a.at);
        ApplyPromotion(full, kept, a.id, a.config, a.at);
      } else {
        LoopForgotten(full, kept, a, a.id);
      }
    }
  }

  lemma ApplyClaim(full: Tables, kept: Tables, claimer: string)
    ensures Apply(full, ClaimNext(claimer)) == ClaimNextTx(full, claimer).0
    ensures Apply(kept, ClaimNext(claimer)) == ClaimNextTx(kept, claimer).0
  {
  }

  lemma ApplyPromotion(full: Tables, kept: Tables, id: Id, config: Config, at: int)
    ensures Apply(full, MarkHealthy(id, config, at)) == MarkHealthyTx(full, id, config, at).0
    ensures Apply(kept, MarkHealthy(id, config, at)) == MarkHealthyTx(kept, id, config, at).0
  {
  }

  lemma GuardForgets(full: Tables, kept: Tables, a: Action)
    requires Forgets(full, kept) && Guard(kept, a) && !Forgotten(full, kept, a)
    ensures Guard(full, a)
  {
    hide LogForgets, DecodeSnapshot, EntriesOk;
  }

  /** No release's foreign key ever refuses a sweep: whatever has aged was never released. */
  lemma NeverReferenced(full: Tables, kept: Tables, cutoff: int)
    requires Inv(full) && Forgets(full, kept)
    ensures !AgedReferenced(kept, cutoff)
  {
    hide Inv, LogForgets;
    forall r | r in kept.releases && kept.releases[r].deployment in kept.deployments
      ensures !Aged(kept.deployments[kept.releases[r].deployment], cutoff)
    {
      ReleaseStands(full, r);
    }
  }

  lemma SweepForgets(full: Tables, kept: Tables, cutoff: int)
    requires Inv(full) && Forgets(full, kept)
    ensures RetentionTx(kept, cutoff).1.Ok?
    ensures Forgets(full, RetentionTx(kept, cutoff).0)
  {
    hide Inv, LogForgets, AgedReferenced;
    NeverReferenced(full, kept, cutoff);
    forall d | d in kept.deployments ensures LogForgets(full.deployments[d].log,
        Recent(kept.deployments[d].log, cutoff)) {
      LogSwept(full.deployments[d].log, kept.deployments[d].log, cutoff);
    }
  }

  // ---- Runs with sweeps in them -------------------------------------------------------------

  datatype Turn = Did(action: Action) | Swept(cutoff: int)

  function TurnOf(db: Tables, t: Turn): Tables {
    match t
    case Did(a) => Apply(db, a)
    case Swept(cutoff) => RetentionTx(db, cutoff).0
  }

  function SweptAfter(turns: seq<Turn>): Tables {
    if turns == [] then EMPTY else TurnOf(SweptAfter(turns[..|turns| - 1]), turns[|turns| - 1])
  }

  predicate SweptHeld(turns: seq<Turn>, j: nat, id: Id, config: Config)
    requires j <= |turns|
  {
    var held := SweptAfter(turns[..j]);
    && id in held.deployments && held.deployments[id].app in held.apps
    && held.apps[held.deployments[id].app].config == config
  }

  predicate SweptComposed(turns: seq<Turn>, id: Id, config: Config) {
    && var now := SweptAfter(turns);
    && (id in now.deployments && InFlight(now.deployments[id]) && now.deployments[id].source.Upload? ==>
          exists j :: 0 <= j <= |turns| && SweptHeld(turns, j, id, config))
  }

  /** Each writer establishes what it does in any run, of the tables it finds. */
  predicate TurnLegal(turns: seq<Turn>, t: Turn) {
    t.Did? ==>
      && Guard(SweptAfter(turns), t.action)
      && (t.action.MarkHealthy? ==> SweptComposed(turns, t.action.id, t.action.config))
  }

  predicate SweptLegal(turns: seq<Turn>) {
    turns == [] || (SweptLegal(turns[..|turns| - 1]) && TurnLegal(turns[..|turns| - 1], turns[|turns| - 1]))
  }

  /** The same writers' actions with nothing ever swept, but for those about rows already swept away. */
  function Full(turns: seq<Turn>): seq<Action> {
    if turns == [] then []
    else
      var init, last := turns[..|turns| - 1], turns[|turns| - 1];
      if last.Swept? || Forgotten(After(EMPTY, Full(init)), SweptAfter(init), last.action) then Full(init)
      else Full(init) + [last.action]
  }

  lemma {:induction false} FullGrows(turns: seq<Turn>, j: nat)
    requires j <= |turns|
    ensures Full(turns[..j]) <= Full(turns)
  {
    hide SweptAfter, After, Forgotten;
    if j < |turns| {
      FullGrows(turns[..|turns| - 1], j);
      assert turns[..|turns| - 1][..j] == turns[..j];
    } else {
      assert turns[..j] == turns;
    }
  }

  lemma {:induction false} SweptLegalPrefix(turns: seq<Turn>, j: nat)
    requires SweptLegal(turns) && j <= |turns|
    ensures SweptLegal(turns[..j])
  {
    hide TurnLegal;
    if j < |turns| {
      SweptLegalPrefix(turns[..|turns| - 1], j);
      assert turns[..|turns| - 1][..j] == turns[..j];
    } else {
      assert turns[..j] == turns;
    }
  }

  /**
   * Sweeping is invisible but for what it deletes. Whatever is swept, whenever, the same writers acting
   * on tables nothing was ever swept from make a legal run, and the swept tables are what that run
   * leaves with some ended rows and some events missing: the same apps, the same releases, the same
   * pointers, every row in flight and every healthy one, and of each log, when the clock never ran
   * back, an end.
   */
  lemma {:induction false} FullRun(turns: seq<Turn>)
    requires SweptLegal(turns)
    ensures Legal(EMPTY, Full(turns)) && Inv(After(EMPTY, Full(turns)))
    ensures Forgets(After(EMPTY, Full(turns)), SweptAfter(turns))
    decreases |turns|, 1
  {
    hide Inv, Forgets, Forgotten, Apply, Guard, Composed, RetentionTx, SweptComposed;
    EmptyInv();
    if turns == [] {
      ForgetsNothing(EMPTY);
    } else {
      var init, last := turns[..|turns| - 1], turns[|turns| - 1];
      FullRun(init);
      var full, kept := After(EMPTY, Full(init)), SweptAfter(init);
      match last
      case Swept(cutoff) => SweepForgets(full, kept, cutoff);
      case Did(a) =>
        StepForgets(full, kept, a);
        if !Forgotten(full, kept, a) {
          if a.MarkHealthy? {
            FullComposed(init, a.id, a.config, a.at);
          }
          Extend(EMPTY, Full(init), a);
          InvOverRuns(EMPTY, Full(turns));
        }
    }
  }

  lemma FullComposed(turns: seq<Turn>, id: Id, config: Config, at: int)
    requires SweptLegal(turns) && TurnLegal(turns, Did(MarkHealthy(id, config, at)))
    requires Forgets(After(EMPTY, Full(turns)), SweptAfter(turns))
    requires !Forgotten(After(EMPTY, Full(turns)), SweptAfter(turns), MarkHealthy(id, config, at))
    ensures Composed(EMPTY, Full(turns), id, config)
    decreases |turns|, 0
  {
    hide Inv, LogForgets, After, SweptAfter, Legal, SweptLegal, Guard, Full, HeldAt, SweptHeld;
    var full := After(EMPTY, Full(turns));
    if id in full.deployments && InFlight(full.deployments[id]) && full.deployments[id].source.Upload? {
      var j :| 0 <= j <= |turns| && SweptHeld(turns, j, id, config);
      FullGrows(turns, j);
      SweptLegalPrefix(turns, j);
      if j < |turns| {
        FullRun(turns[..j]);
      } else {
        assert turns[..j] == turns;
      }
      FullHeld(turns, j, id, config);
    }
  }

  lemma FullHeld(turns: seq<Turn>, j: nat, id: Id, config: Config)
    requires j <= |turns| && SweptHeld(turns, j, id, config) && Full(turns[..j]) <= Full(turns)
    requires Forgets(After(EMPTY, Full(turns[..j])), SweptAfter(turns[..j]))
    ensures |Full(turns[..j])| <= |Full(turns)| && HeldAt(EMPTY, Full(turns), |Full(turns[..j])|, id, config)
  {
    hide LogForgets, After, SweptAfter, Full;
    assert Full(turns)[..|Full(turns[..j])|] == Full(turns[..j]);
  }

  function Unswept(acts: seq<Action>): seq<Turn> {
    seq(|acts|, i requires 0 <= i < |acts| => Did(acts[i]))
  }

  /** A run as module Runs has it is one in which nothing is swept. */
  lemma {:induction false} PlainRun(acts: seq<Action>)
    requires Legal(EMPTY, acts)
    ensures SweptLegal(Unswept(acts)) && SweptAfter(Unswept(acts)) == After(EMPTY, acts)
    decreases |acts|, 1
  {
    hide Guard, Apply, Composed, SweptComposed;
    if acts != [] {
      var init, a := acts[..|acts| - 1], acts[|acts| - 1];
      PlainRun(init);
      assert Unswept(acts)[..|acts| - 1] == Unswept(init);
      if a.MarkHealthy? {
        PlainComposed(init, a.id, a.config);
      }
    }
  }

  lemma PlainComposed(acts: seq<Action>, id: Id, config: Config)
    requires Legal(EMPTY, acts) && Composed(EMPTY, acts, id, config)
    requires SweptAfter(Unswept(acts)) == After(EMPTY, acts)
    ensures SweptComposed(Unswept(acts), id, config)
    decreases |acts|, 0
  {
    hide Legal, After, SweptLegal, SweptAfter;
    var now := After(EMPTY, acts);
    if id in now.deployments && InFlight(now.deployments[id]) && now.deployments[id].source.Upload? {
      var j :| 0 <= j <= |acts| && HeldAt(EMPTY, acts, j, id, config);
      assert Unswept(acts)[..j] == Unswept(acts[..j]);
      LegalPrefix(EMPTY, acts, j);
      if j < |acts| {
        PlainRun(acts[..j]);
      } else {
        assert acts[..j] == acts;
      }
      assert SweptHeld(Unswept(acts), j, id, config);
    }
  }

  // ---- What sweeping leaves true ------------------------------------------------------------

  /**
   * Of the tables as the sweeps leave them, all that was proved of the ones nothing was swept from: the
   * one row in flight and nothing of its app newer, healthy exactly when released, the release numbers
   * 1..n with the current one n.
   */
  lemma SweptLedger(turns: seq<Turn>, d: Id)
    requires SweptLegal(turns) && d in SweptAfter(turns).deployments
    ensures var now := SweptAfter(turns);
            && (InFlight(now.deployments[d]) ==>
                  forall e | e in now.deployments && e != d && now.deployments[e].app == now.deployments[d].app ::
                    e < d && Terminal(now.deployments[e].state))
            && (now.deployments[d].state == Healthy <==> HasRelease(now, d))
            && now.deployments[d].app in now.apps
            && var app := now.deployments[d].app;
            && (now.apps[app].current.Some? ==> now.apps[app].current.value in now.releases)
            && (forall n: nat :: HasNumber(now, app, n) <==> 1 <= n <= TopNumber(now, app))
  {
    hide Inv, Legal, After, SweptLegal, SweptAfter, LogForgets, Full;
    FullRun(turns);
    EmptyInv();
    var acts, now := Full(turns), SweptAfter(turns);
    var full := After(EMPTY, acts);
    DeploymentStands(full, d);
    HealthyIffReleased(EMPTY, acts, d);
    NumbersRunFromOne(EMPTY, acts, full.deployments[d].app);
    assert HasRelease(now, d) == HasRelease(full, d);
    forall n: nat ensures HasNumber(now, full.deployments[d].app, n) == HasNumber(full, full.deployments[d].app, n) {}
    if InFlight(now.deployments[d]) {
      InFlightIsNewest(EMPTY, acts, d);
    }
  }

  /** It was stamped finished before it was stamped created. */
  predicate RanBack(d: Deployment) {
    Terminal(d.state) && d.finishedAt.Some? && d.finishedAt.value < d.createdAt
  }

  /** The row's successor is left, unless the clock ran back over the successor's life. */
  predicate SuccessorKept(full: Tables, kept: Tables, d: Id)
    requires d in full.deployments
  {
    var next := NextDeploymentForApp(full, full.deployments[d].app, d);
    && next.Some? && next.value in full.deployments
    && (next.value in kept.deployments || RanBack(full.deployments[next.value]))
  }

  predicate SuccessorsKept(full: Tables, kept: Tables) {
    forall d | d in kept.deployments && d in full.deployments && kept.deployments[d].state == Cancelled ::
      SuccessorKept(full, kept, d)
  }

  lemma KeysKept(db: Tables, a: Action)
    ensures db.deployments.Keys <= Apply(db, a).deployments.Keys <= db.deployments.Keys + {db.nextId}
  {
    match a
    case CreateApp(account, name, slugs, limit) =>
      hide InsertApp;
      InsertAppEvolves(db, account, name, slugs);
    case _ =>
  }

  lemma SweepKeepsSuccessors(turns: seq<Turn>, cutoff: int)
    requires SweptLegal(turns) && Forgets(After(EMPTY, Full(turns)), SweptAfter(turns))
    requires SuccessorsKept(After(EMPTY, Full(turns)), SweptAfter(turns))
    ensures var full, kept := After(EMPTY, Full(turns)), RetentionTx(SweptAfter(turns), cutoff).0;
            Forgets(full, kept) && SuccessorsKept(full, kept)
  {
    hide Inv, Legal, After, SweptLegal, SweptAfter, LogForgets, Full, NextDeploymentForApp, AgedReferenced;
    FullRun(turns);
    var full, was := After(EMPTY, Full(turns)), SweptAfter(turns);
    SweepForgets(full, was, cutoff);
    var kept := RetentionTx(was, cutoff).0;
    forall d | d in kept.deployments && kept.deployments[d].state == Cancelled
      ensures SuccessorKept(full, kept, d)
    {
      assert SuccessorKept(full, was, d);
      SuccessorCreated(Full(turns), d);
    }
  }

  lemma StepKeepsSuccessors(full: Tables, kept: Tables, a: Action)
    requires Inv(full) && Inv(Apply(full, a)) && Guard(full, a) && Forgets(full, kept) && SuccessorsKept(full, kept)
    requires Forgets(Apply(full, a), Apply(kept, a))
    ensures SuccessorsKept(Apply(full, a), Apply(kept, a))
  {
    hide Inv, Guard, Apply, LogForgets, SuccessorKept, Evolves;
    var f, k := Apply(full, a), Apply(kept, a);
    StepEvolves(full, a);
    KeysKept(kept, a);
    IdsBelow(full);
    IdsBelow(f);
    forall d | d in k.deployments && d in f.deployments && k.deployments[d].state == Cancelled
      ensures SuccessorKept(f, k, d)
    {
      BornInFlight(full, a, d);
      if InFlight(full.deployments[d]) {
        SuccessorBorn(full, a, d, k);
      } else {
        StillCancelled(full, f, d);
        SuccessorGoesOn(full, f, kept, k, d);
      }
    }
  }

  lemma SuccessorBorn(full: Tables, a: Action, d: Id, kept: Tables)
    requires Inv(full) && Guard(full, a) && d in full.deployments && InFlight(full.deployments[d])
    requires d in Apply(full, a).deployments && Apply(full, a).deployments[d].state == Cancelled
    requires Forgets(Apply(full, a), kept)
    ensures SuccessorKept(Apply(full, a), kept, d)
  {
    hide Inv, Guard, Apply, RowForgets, NextDeploymentForApp, Evolves;
    StepEvolves(full, a);
    CancelStep(full, a, d);
    CreatedAtStays(full, Apply(full, a), d);
  }

  lemma SuccessorGoesOn(full: Tables, f: Tables, kept: Tables, k: Tables, d: Id)
    requires Evolves(full, f) && kept.deployments.Keys <= k.deployments.Keys
    requires d in full.deployments && d in f.deployments && f.deployments[d].app == full.deployments[d].app
    requires forall e | e in full.deployments :: e < full.nextId
    requires forall e | e in f.deployments :: e < f.nextId
    requires SuccessorKept(full, kept, d)
    ensures SuccessorKept(f, k, d)
  {
    hide Evolves, NextDeploymentForApp;
    var next := NextDeploymentForApp(full, full.deployments[d].app, d);
    SuccessorStays(full, f, full.deployments[d].app, d, next.value);
    CreatedAtStays(full, f, next.value);
    if RanBack(full.deployments[next.value]) {
      StillTerminal(full, f, next.value);
    }
  }

  lemma StillCancelled(a: Tables, b: Tables, d: Id)
    requires Evolves(a, b) && d in a.deployments && Terminal(a.deployments[d].state)
    ensures d in b.deployments && b.deployments[d].state == a.deployments[d].state
    ensures b.deployments[d].app == a.deployments[d].app
  {
  }

  lemma {:induction false} SuccessorsOverTurns(turns: seq<Turn>)
    requires SweptLegal(turns)
    ensures Forgets(After(EMPTY, Full(turns)), SweptAfter(turns))
    ensures SuccessorsKept(After(EMPTY, Full(turns)), SweptAfter(turns))
  {
    hide Inv, Forgets, Apply, Guard, Forgotten, RetentionTx, Legal, Composed, SuccessorsKept, SweptComposed;
    FullRun(turns);
    if turns == [] {
      NoSuccessors();
    } else {
      var init, last := turns[..|turns| - 1], turns[|turns| - 1];
      SuccessorsOverTurns(init);
      FullRun(init);
      match last
      case Swept(cutoff) => SweepKeepsSuccessors(init, cutoff);
      case Did(a) =>
        StepForgets(After(EMPTY, Full(init)), SweptAfter(init), a);
        if !Forgotten(After(EMPTY, Full(init)), SweptAfter(init), a) {
          StepKeepsSuccessors(After(EMPTY, Full(init)), SweptAfter(init), a);
        }
    }
  }

  lemma NoSuccessors()
    ensures Forgets(EMPTY, EMPTY) && SuccessorsKept(EMPTY, EMPTY)
  {
  }

  /**
   * What superseded_by is derived from, with rows swept away: the next deployment by id is still the one
   * whose creation cancelled this row, stamped with the same instant, exactly as long as that one is
   * there; and it is there as long as this row is, unless the clock ran back between its own stamps.
   */
  lemma SuccessorLeft(turns: seq<Turn>, d: Id) returns (next: Id)
    requires SweptLegal(turns) && d in SweptAfter(turns).deployments
    requires SweptAfter(turns).deployments[d].state == Cancelled
    ensures var full, now := After(EMPTY, Full(turns)), SweptAfter(turns);
            && d < next && next in full.deployments && d in full.deployments
            && NextDeploymentForApp(full, full.deployments[d].app, d) == Some(next)
            && now.deployments[d].finishedAt == Some(full.deployments[next].createdAt)
            && (NextDeploymentForApp(now, now.deployments[d].app, d) == Some(next) <==> next in now.deployments)
            && (next in now.deployments || RanBack(full.deployments[next]))
  {
    hide Inv, Legal, After, SweptLegal, SweptAfter, LogForgets, Full;
    FullRun(turns);
    SuccessorsOverTurns(turns);
    var full, now := After(EMPTY, Full(turns)), SweptAfter(turns);
    SuccessorCreated(Full(turns), d);
    next := NextDeploymentForApp(full, full.deployments[d].app, d).value;
    IdsBelow(full);
    if next in now.deployments {
      NextOfNewest(now, now.deployments[d].app, d, next);
    }
  }
}
