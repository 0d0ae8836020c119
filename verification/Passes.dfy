/** What the tick's two passes over one listing may do to each listed row, and what stays of it. */
module Passes {
  import opened Basics
  import opened StateMachine
  import opened Tables
  import opened Runs
  import opened Invariant
  import opened History
  import opened Drives
  import opened Driving
  import opened Calls

  predicate Distinct(views: seq<View>) {
    forall i, j | 0 <= i < j < |views| :: views[i].id < views[j].id
  }

  function Ids(views: seq<View>): set<Id> {
    set v | v in views :: v.id
  }

  /** Everything in flight, each row once, in order of id. */
  predicate Listing(views: seq<View>, db: Tables) {
    && (forall i | 0 <= i < |views| :: Phase(views[i], db, None))
    && (forall i, j | 0 <= i < j < |views| :: views[i].id < views[j].id)
    && (forall d | d in db.deployments && InFlight(db.deployments[d]) :: exists i ::
       0 <= i < |views| && views[i].id == d)
  }

  method InFlightViews(db: Tables) returns (views: seq<View>)
    requires Inv(db)
    ensures Listing(views, db)
    ensures forall d | d in db.deployments && db.deployments[d].state !in {Healthy, Failed, Cancelled} ::
              exists i :: 0 <= i < |views| && views[i].id == d
    ensures forall i | 0 <= i < |views| ::
              && views[i].id in db.deployments && db.deployments[views[i].id].state !in {Healthy, Failed, Cancelled}
    ensures forall i, j | 0 <= i < j < |views| :: views[i].id < views[j].id
    ensures forall i | 0 <= i < |views| ::
              views[i].id in db.deployments && ReadOf(views[i], db.deployments[views[i].id])
    ensures forall i | 0 <= i < |views| :: views[i] == DeploymentRow(views[i].id, db.deployments[views[i].id])
  {
    hide Inv, InSync;
    IdsBelow(db);
    views := [];
    for id := 0 to db.nextId
      invariant forall i | 0 <= i < |views| ::
                  Phase(views[i], db, None) && views[i].id < id && InFlight(db.deployments[views[i].id])
                      && views[i] == DeploymentRow(views[i].id, db.deployments[views[i].id])
      invariant forall i, j | 0 <= i < j < |views| :: views[i].id < views[j].id
      invariant forall d | d in db.deployments && d < id && InFlight(db.deployments[d]) ::
                  exists i :: 0 <= i < |views| && views[i].id == d
    {
      if id in db.deployments && InFlight(db.deployments[id]) {
        RowInSync(db, id);
        ghost var was := views;
        views := views + [DeploymentRow(id, db.deployments[id])];
        assert views[|was|].id == id;
        assert forall i | 0 <= i < |was| :: views[i] == was[i];
      }
    }
  }

  lemma ListingRows(views: seq<View>, db: Tables, ok: bool)
    requires if ok then Listing(views, db) else views == []
    ensures Distinct(views) && forall j | 0 <= j < |views| :: views[j].id in db.deployments && Phase(views[j], db, None)
  {
  }

  lemma ListedInFlight(views: seq<View>, db: Tables, j: nat)
    requires Listing(views, db) && j < |views|
    ensures views[j].id in db.deployments
    ensures InFlight(db.deployments[views[j].id]) || db.deployments[views[j].id].state == Cancelled
  {
  }

  /**
   * What the k-th call's answer about a Job led to: failed or gone, and the next call fails the row with
   * build_failed; succeeded, and the next call hands the claim back; anything else, or no answer, and the
   * row is left alone. What the next call did is by whether it landed, and whether either call lands is
   * the world's.
   */
  predicate Judged(w: World, calls: seq<Call>, k: nat, id: Id, d: Deployment, e: Deployment)
    requires k < |calls|
  {
    && Free(w, k, calls[k])
    && if calls[k].fate != Heard || w(k).job == JobRunning then AgentKept(d, e)
    else
      && k + 1 < |calls|
      && var next := calls[k + 1];
      && next.what == (if w(k).job == JobSucceeded then HandBack(id) else MoveRow(id, Failed, BUILD_FAILED))
      && (if w(k).job == JobSucceeded then Free(w, k + 1, next) else Pressed(w, k + 1, next))
      && (if next.fate == Lost then AgentKept(d, e)
          else if w(k).job == JobSucceeded then
            && (e.state == d.state || (InFlight(d) && e.state == Cancelled))
            && (d.state == Building ==> e.state == Cancelled || e.claimedBy == None)
          else (Terminal(d.state) && e == d) || (InFlight(d) && EndedFor(e, BUILD_FAILED)))
  }

  /** What recovery did to a listed row: asked about its Job and acted on the answer, if it has one to ask about. */
  predicate Handled(w: World, calls: seq<Call>, from: nat, v: View, d: Deployment, e: Deployment) {
    if v.state != Building || v.jobName == "" then AgentKept(d, e)
    else exists k :: from <= k < |calls| && calls[k].what == JobRead(v.id) && Judged(w, calls, k, v.id, d, e)
  }

  /** What became of a listed row with a Job to ask about, in full. */
  lemma HandledSays(w: World, calls: seq<Call>, from: nat, v: View, d: Deployment, e: Deployment) returns (k: nat)
    requires Handled(w, calls, from, v, d, e) && v.state == Building && v.jobName != ""
    ensures from <= k < |calls| && calls[k].what == JobRead(v.id)
    ensures calls[k].fate == if DiedSince(w, calls[k].boot, k + 1) || ToldSince(w, calls[k].boot, k + 1) then Lost
                             else w(k).fate
    ensures calls[k].fate != Heard || w(k).job == JobRunning ==> AgentKept(d, e)
    ensures calls[k].fate == Heard && w(k).job == JobSucceeded ==>
              && k + 1 < |calls| && calls[k + 1].what == HandBack(v.id)
              && (calls[k + 1].fate != Lost && d.state == Building ==> e.state == Cancelled || e.claimedBy == None)
              && e.state in {d.state, Cancelled}
    ensures calls[k].fate == Heard && (w(k).job == JobFailed || w(k).job == JobGone) ==>
              && k + 1 < |calls| && calls[k + 1].what == MoveRow(v.id, Failed, "build_failed")
              && calls[k + 1].fate == (if DiedSince(w, calls[k + 1].boot, k + 2) || 10_000_000_000 <= w(k + 1).elapsed
                                       then Lost else w(k + 1).fate)
              && (calls[k + 1].fate != Lost && d.state !in {Healthy, Failed, Cancelled} ==>
                    e.state == Cancelled || (e.state == Failed && e.failureReason == "build_failed"))
  {
    hide DiedSince, ToldSince;
    k :| from <= k < |calls| && calls[k].what == JobRead(v.id) && Judged(w, calls, k, v.id, d, e);
  }

  /** And what of it whatever follows recovery still finds. */
  lemma EvidenceSays(w: World, calls: seq<Call>, from: nat, views: seq<View>, i: nat, db: Tables,
                     j: nat) returns (k: nat)
    requires j < i <= |views| && EndedOnEvidence(w, calls, from, views, i, db)
    requires views[j].state == Building && views[j].jobName != ""
    ensures from <= k < |calls| && calls[k].what == JobRead(views[j].id) && views[j].id in db.deployments
    ensures calls[k].fate == if DiedSince(w, calls[k].boot, k + 1) || ToldSince(w, calls[k].boot, k + 1) then Lost
                             else w(k).fate
    ensures calls[k].fate == Heard && (w(k).job == JobFailed || w(k).job == JobGone) ==>
              && k + 1 < |calls| && calls[k + 1].what == MoveRow(views[j].id, Failed, "build_failed")
              && calls[k + 1].fate == (if DiedSince(w, calls[k + 1].boot, k + 2) || 10_000_000_000 <= w(k + 1).elapsed
                                       then Lost else w(k + 1).fate)
              && var e := db.deployments[views[j].id];
              calls[k + 1].fate != Lost ==>
                e.state == Cancelled || (e.state == Failed && e.failureReason == "build_failed")
  {
    hide DiedSince, ToldSince;
    k :| from <= k < |calls| && calls[k].what == JobRead(views[j].id)
      && EndedFrom(w, calls, k, views[j].id, db.deployments[views[j].id]);
  }

  lemma HandledMore(w: World, a: seq<Call>, i: nat, b: seq<Call>, j: nat, v: View,
                    c: Deployment, d: Deployment, e: Deployment, f: Deployment)
    requires AgentKept(c, d) && Handled(w, a, i, v, d, e) && AgentKept(e, f) && a <= b && j <= i
    ensures Handled(w, b, j, v, c, f)
  {
    if v.state == Building && v.jobName != "" {
      var k :| i <= k < |a| && a[k].what == JobRead(v.id) && Judged(w, a, k, v.id, d, e);
      assert b[k] == a[k] && (k + 1 < |a| ==> b[k + 1] == a[k + 1]);
      assert Judged(w, b, k, v.id, c, f);
    }
  }

  /** A pass over a listing so far: the rows it has answered for, and the rest as the agents left them. */
  predicate Passed(w: World, calls: seq<Call>, from: nat, views: seq<View>, i: nat, before: Tables, now: Tables) {
    forall j | 0 <= j < |views| ::
      && views[j].id in before.deployments && views[j].id in now.deployments
      && var d, e := before.deployments[views[j].id], now.deployments[views[j].id];
      if j < i then Handled(w, calls, from, views[j], d, e) else AgentKept(d, e)
  }

  lemma PassedNone(w: World, calls: seq<Call>, views: seq<View>, db: Tables)
    requires forall j | 0 <= j < |views| :: views[j].id in db.deployments
    ensures Passed(w, calls, |calls|, views, 0, db, db)
  {
  }

  lemma PassedOne(w: World, from: nat, views: seq<View>, i: nat, a: Tables, seen: seq<Call>, b: Tables,
                  calls: seq<Call>, c: Tables)
    requires i < |views| && Passed(w, seen, from, views, i, a, b) && seen <= calls && from <= |seen|
    requires forall j | 0 <= j < |views| && j != i ::
               views[j].id in c.deployments && AgentKept(b.deployments[views[j].id], c.deployments[views[j].id])
    requires var id := views[i].id;
             && id in c.deployments
             && Handled(w, calls, |seen|, views[i], b.deployments[id], c.deployments[id])
    ensures Passed(w, calls, from, views, i + 1, a, c)
  {
    hide Handled, AgentKept;
    forall j | 0 <= j < |views|
      ensures views[j].id in a.deployments && views[j].id in c.deployments
      ensures var d, e := a.deployments[views[j].id], c.deployments[views[j].id];
              if j < i + 1 then Handled(w, calls, from, views[j], d, e) else AgentKept(d, e)
    {
      var x, y, z := a.deployments[views[j].id], b.deployments[views[j].id], c.deployments[views[j].id];
      KeptNothing(z);
      KeptNothing(x);
      if j < i {
        HandledMore(w, seen, from, calls, from, views[j], x, x, y, z);
      } else if j == i {
        HandledMore(w, calls, |seen|, calls, from, views[j], x, y, z, z);
      } else {
        KeptTwice(x, y, z);
      }
    }
  }

  lemma KeptNothing(d: Deployment)
    ensures AgentKept(d, d)
  {
  }

  lemma KeptTwice(d: Deployment, e: Deployment, f: Deployment)
    requires AgentKept(d, e) && AgentKept(e, f)
    ensures AgentKept(d, f)
  {
  }

  lemma PassedRows(w: World, calls: seq<Call>, from: nat, views: seq<View>, i: nat, before: Tables, now: Tables)
    requires Passed(w, calls, from, views, i, before, now)
    ensures forall j | 0 <= j < |views| :: views[j].id in now.deployments
  {
  }

  /** The cluster said this row's Job failed or is gone, and unless the write that follows is lost, that is its end. */
  predicate EndedFrom(w: World, calls: seq<Call>, k: nat, id: Id, e: Deployment)
    requires k < |calls|
  {
    && Free(w, k, calls[k])
    && (calls[k].fate == Heard && w(k).job in {JobFailed, JobGone} ==>
      && k + 1 < |calls| && calls[k + 1].what == MoveRow(id, Failed, BUILD_FAILED)
      && Pressed(w, k + 1, calls[k + 1])
      && (calls[k + 1].fate != Lost ==> EndedFor(e, BUILD_FAILED)))
  }

  /**
   * Every listed row with a Job to ask about was asked about, and ends with build_failed or superseded
   * on such an answer.
   */
  predicate EndedOnEvidence(w: World, calls: seq<Call>, from: nat, views: seq<View>, i: nat, db: Tables)
    requires i <= |views|
  {
    forall j | 0 <= j < i && views[j].state == Building && views[j].jobName != "" ::
      && views[j].id in db.deployments
      && exists k :: from <= k < |calls| && calls[k].what == JobRead(views[j].id)
                     && EndedFrom(w, calls, k, views[j].id, db.deployments[views[j].id])
  }

  /** A listed row whose Job failed or is gone, as whatever follows recovery still finds it. */
  lemma EndedStays(w: World, seen: seq<Call>, from: nat, a: Tables, calls: seq<Call>, b: Tables,
                   views: seq<View>, i: nat, before: Tables)
    requires i <= |views| && Listing(views, before) && Passed(w, seen, from, views, i, before, a) && Evolves(a, b)
    requires seen <= calls
    ensures EndedOnEvidence(w, calls, from, views, i, b)
  {
    hide Listing, AgentKept, InSync, Evolves;
    forall j | 0 <= j < i && views[j].state == Building && views[j].jobName != ""
      ensures views[j].id in b.deployments
      ensures exists k :: from <= k < |calls| && calls[k].what == JobRead(views[j].id)
                          && EndedFrom(w, calls, k, views[j].id, b.deployments[views[j].id])
    {
      var id := views[j].id;
      ListedInFlight(views, before, j);
      var k :| from <= k < |seen| && seen[k].what == JobRead(id)
        && Judged(w, seen, k, id, before.deployments[id], a.deployments[id]);
      EndedRowStays(a, b, id);
      assert calls[k] == seen[k] && (k + 1 < |seen| ==> calls[k + 1] == seen[k + 1]);
      assert EndedFrom(w, calls, k, id, b.deployments[id]);
    }
  }

  lemma EvidenceLasts(w: World, a: seq<Call>, from: nat, views: seq<View>, i: nat, x: Tables, b: seq<Call>, y: Tables)
    requires i <= |views| && EndedOnEvidence(w, a, from, views, i, x) && a <= b && Evolves(x, y)
    ensures EndedOnEvidence(w, b, from, views, i, y)
  {
    hide Evolves;
    forall j | 0 <= j < i && views[j].state == Building && views[j].jobName != ""
      ensures views[j].id in y.deployments
      ensures exists k :: from <= k < |b| && b[k].what == JobRead(views[j].id)
                          && EndedFrom(w, b, k, views[j].id, y.deployments[views[j].id])
    {
      var id := views[j].id;
      var k :| from <= k < |a| && a[k].what == JobRead(id) && EndedFrom(w, a, k, id, x.deployments[id]);
      EndedRowStays(x, y, id);
      assert b[k] == a[k] && (k + 1 < |a| ==> b[k + 1] == a[k + 1]);
      assert EndedFrom(w, b, k, id, y.deployments[id]);
    }
  }

  lemma InTimeLasts(w: World, a: seq<Call>, from: nat, views: seq<View>, i: nat, timeout: int, moment: int, x: Tables,
                    b: seq<Call>, y: Tables)
    requires i <= |views| && EndedInTime(w, a, from, views, i, timeout, moment, x) && a <= b && Evolves(x, y)
    ensures EndedInTime(w, b, from, views, i, timeout, moment, y)
  {
    hide Evolves, EndedUnlessLost;
    forall j | 0 <= j < i && views[j].createdAt + timeout <= moment
      ensures EndedUnlessLost(w, b, from, views[j].id, y)
    {
      EndedMore(w, a, from, x, b, from, y, views[j].id);
    }
  }

  lemma NoneEnded(w: World, calls: seq<Call>, from: nat, db: Tables)
    ensures EndedOnEvidence(w, calls, from, [], 0, db)
  {
  }

  /** What the watchdog may have done to a row. */
  predicate Lapsed(d: Deployment, e: Deployment, overdue: bool) {
    AgentKept(d, e) || (overdue && InFlight(d) && e.state == Failed && e.failureReason == TIMEOUT)
  }

  lemma LapsedStays(d: Deployment, e: Deployment, f: Deployment, overdue: bool, still: bool)
    requires Lapsed(d, e, overdue) && AgentKept(e, f) && (overdue ==> still)
    ensures Lapsed(d, f, still)
  {
  }

  lemma LapsedSince(d: Deployment, e: Deployment, f: Deployment, lost: bool)
    requires AgentKept(d, e) && Moves(e, f, Failed, TIMEOUT, lost)
    ensures Lapsed(d, f, true) && (!lost ==> Terminal(f.state)) && (lost && d.state != Failed ==> f.state != Failed)
  {
  }

  /**
   * The watchdog's pass over a listing so far, from one moment to a later one: only overdue rows were
   * failed, and the ones already overdue at the start have been, unless that write was lost.
   */
  predicate Expiring(w: World, calls: seq<Call>, from: nat, views: seq<View>, i: nat, timeout: int,
                     a: Tables, began: int, b: Tables, now: int) {
    forall j | 0 <= j < |views| ::
      && views[j].id in a.deployments && views[j].id in b.deployments
      && var d, e := a.deployments[views[j].id], b.deployments[views[j].id];
      && Lapsed(d, e, views[j].createdAt + timeout <= now)
      && (j >= i ==> AgentKept(d, e))
      && (j < i && views[j].createdAt + timeout <= began ==> EndedUnlessLost(w, calls, from, views[j].id, b))
  }

  /** Every handled row already overdue at that moment has ended, unless its failure write was lost. */
  predicate EndedInTime(w: World, calls: seq<Call>, from: nat, views: seq<View>, i: nat, timeout: int, moment: int,
                        db: Tables)
    requires i <= |views|
  {
    forall j | 0 <= j < i && views[j].createdAt + timeout <= moment :: EndedUnlessLost(w, calls, from, views[j].id, db)
  }

  /** Nothing but what is overdue was touched, and what was overdue to begin with has ended. */
  lemma OnlyOverdue(w: World, calls: seq<Call>, from: nat, views: seq<View>, i: nat, timeout: int, a: Tables,
                    began: int, b: Tables, now: int)
    requires i <= |views| && Expiring(w, calls, from, views, i, timeout, a, began, b, now)
    ensures forall j | 0 <= j < i && views[j].createdAt + timeout <= began ::
              EndedUnlessLost(w, calls, from, views[j].id, b)
    ensures forall j | 0 <= j < |views| && now < views[j].createdAt + timeout ::
              && views[j].id in a.deployments && views[j].id in b.deployments
              && AgentKept(a.deployments[views[j].id], b.deployments[views[j].id])
  {
    hide EndedUnlessLost, AgentKept;
  }

  lemma InTimeEach(w: World, calls: seq<Call>, from: nat, views: seq<View>, i: nat, timeout: int, moment: int,
                   db: Tables)
    requires i <= |views| && EndedInTime(w, calls, from, views, i, timeout, moment, db)
    ensures forall j | 0 <= j < i && views[j].createdAt + timeout <= moment ::
              EndedUnlessLost(w, calls, from, views[j].id, db)
  {
    hide EndedUnlessLost;
  }

  lemma InTimeInKindWorld(w: World, calls: seq<Call>, from: nat, views: seq<View>, i: nat, timeout: int, moment: int,
                          db: Tables)
    requires i <= |views| && EndedInTime(w, calls, from, views, i, timeout, moment, db) && Kind(w, calls, from)
    ensures forall j | 0 <= j < i && views[j].createdAt + timeout <= moment :: EndedAt(db, views[j].id)
  {
    hide EndedUnlessLost, Kind;
    forall j | 0 <= j < i && views[j].createdAt + timeout <= moment ensures EndedAt(db, views[j].id) {
      EndsInKindWorld(w, calls, from, views[j].id, db);
    }
  }

  /** And a whole listing driven to its end leaves nothing of what was in flight. */
  lemma AllEndInKindWorld(w: World, calls: seq<Call>, from: nat, views: seq<View>, db: Tables)
    requires Kind(w, calls, from) && forall j | 0 <= j < |views| :: EndedUnlessLost(w, calls, from, views[j].id, db)
    ensures forall j | 0 <= j < |views| :: EndedAt(db, views[j].id)
    ensures forall before | Listing(views, before) ::
              forall d | d in before.deployments && InFlight(before.deployments[d]) :: EndedAt(db, d)
  {
    hide EndedUnlessLost, Kind, Phase;
    forall j | 0 <= j < |views| ensures EndedAt(db, views[j].id) {
      EndsInKindWorld(w, calls, from, views[j].id, db);
    }
  }

  lemma EndedInTimeStays(w: World, views: seq<View>, i: nat, timeout: int, moment: int, early: nat,
                         seen: seq<Call>, from: nat, a: Tables, began: int, b: Tables, now: int,
                         calls: seq<Call>, c: Tables)
    requires i <= |views| && Expiring(w, seen, from, views, i, timeout, a, began, b, now)
    requires moment <= began && early <= from && seen <= calls && Evolves(b, c)
    ensures EndedInTime(w, calls, early, views, i, timeout, moment, c)
  {
    hide AgentKept, EndedUnlessLost, Evolves;
    forall j | 0 <= j < i && views[j].createdAt + timeout <= moment
      ensures EndedUnlessLost(w, calls, early, views[j].id, c)
    {
      EndedMore(w, seen, from, b, calls, early, c, views[j].id);
    }
  }

  lemma ExpiringNone(w: World, calls: seq<Call>, views: seq<View>, timeout: int, db: Tables, now: int)
    requires forall j | 0 <= j < |views| :: views[j].id in db.deployments
    ensures Expiring(w, calls, |calls|, views, 0, timeout, db, now, db, now)
  {
  }

  lemma ExpiringOne(w: World, from: nat, views: seq<View>, i: nat, timeout: int, a: Tables, began: int,
                    seen: seq<Call>, b: Tables, t: int, calls: seq<Call>, c: Tables, now: int)
    requires i < |views| && Expiring(w, seen, from, views, i, timeout, a, began, b, t) && Distinct(views) && t <= now
    requires views[i].createdAt + timeout <= t && seen <= calls && from <= |seen| && Evolves(b, c)
    requires forall j | 0 <= j < |views| && j != i ::
               views[j].id in c.deployments && AgentKept(b.deployments[views[j].id], c.deployments[views[j].id])
    requires views[i].id in c.deployments
    requires Lapsed(b.deployments[views[i].id], c.deployments[views[i].id], true)
    requires EndedUnlessLost(w, calls, |seen|, views[i].id, c)
    ensures Expiring(w, calls, from, views, i + 1, timeout, a, began, c, now)
  {
    hide Evolves, EndedUnlessLost;
    forall j | 0 <= j < |views| && j <= i && views[j].createdAt + timeout <= began
      ensures EndedUnlessLost(w, calls, from, views[j].id, c)
    {
      if j < i {
        EndedMore(w, seen, from, b, calls, from, c, views[j].id);
      } else {
        EvolvesReflexive(c);
        EndedMore(w, calls, |seen|, c, calls, from, c, views[j].id);
      }
    }
  }

  lemma ExpiringSkip(w: World, calls: seq<Call>, from: nat, views: seq<View>, i: nat, timeout: int, a: Tables,
                     began: int,
                     b: Tables, now: int)
    requires i < |views| && Expiring(w, calls, from, views, i, timeout, a, began, b, now) && began <= now
    requires now < views[i].createdAt + timeout
    ensures Expiring(w, calls, from, views, i + 1, timeout, a, began, b, now)
  {
  }
}
