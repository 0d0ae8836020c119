/** What deployment_status reports: internal/mcp/status.go. Everything in it is derived from the rows. */
module Status {
  import opened Basics
  import opened StateMachine
  import opened Configuration
  import opened Tables
  import opened Runs
  import opened Invariant
  import opened History
  import opened Releases
  import opened Retention

  datatype Entry = Entry(state: State, at: int, reason: string)

  datatype Output = Output(
    state: State, buildPath: string, timeline: seq<Entry>,
    releaseNumber: nat, imageDigest: string, reason: string, supersededBy: Option<Id>)

  /** The release a deployment minted, among the ids below `below`. */
  function ReleaseOf(db: Tables, deployment: Id, below: Id): (r: Option<Id>)
    ensures r.Some? ==> r.value in db.releases && db.releases[r.value].deployment == deployment
    ensures forall x | x in db.releases && x < below && db.releases[x].deployment == deployment :: r.Some?
  {
    if below == 0 then None
    else if below - 1 in db.releases && db.releases[below - 1].deployment == deployment then Some(below - 1)
    else ReleaseOf(db, deployment, below - 1)
  }

  // ---- The timeline -------------------------------------------------------------------------

  /** Into a list ordered by instant, after everything no later than it. */
  function Placed(s: seq<Event>, e: Event): seq<Event> {
    if s == [] || s[|s| - 1].at <= e.at then s + [e] else Placed(s[..|s| - 1], e) + [s[|s| - 1]]
  }

  /** ORDER BY occurred_at, id: an event's id grows with the order of writing. */
  function ByInstant(log: seq<Event>): seq<Event> {
    if log == [] then [] else Placed(ByInstant(log[..|log| - 1]), log[|log| - 1])
  }

  /** The events of one instant, in order. */
  function AtInstant(log: seq<Event>, at: int): seq<Event> {
    if log == [] then []
    else AtInstant(log[..|log| - 1], at) + (if log[|log| - 1].at == at then [log[|log| - 1]] else [])
  }

  lemma {:induction false} PlacedOrdered(s: seq<Event>, e: Event)
    requires Ordered(s)
    ensures var p := Placed(s, e);
            |p| == |s| + 1 && Ordered(p) && p[|s|] == if s == [] || s[|s| - 1].at <= e.at then e else s[|s| - 1]
  {
    if s != [] && e.at < s[|s| - 1].at {
      var init, last := s[..|s| - 1], s[|s| - 1];
      PlacedOrdered(init, e);
      var p := Placed(init, e);
      assert p[|init|].at <= last.at;
    }
  }

  lemma {:induction false} PlacedBag(s: seq<Event>, e: Event)
    ensures multiset(Placed(s, e)) == multiset(s) + multiset{e}
  {
    if s != [] && e.at < s[|s| - 1].at {
      PlacedBag(s[..|s| - 1], e);
      assert s == s[..|s| - 1] + [s[|s| - 1]];
    }
  }

  lemma {:induction false} PlacedAt(s: seq<Event>, e: Event, at: int)
    requires Ordered(s)
    ensures AtInstant(Placed(s, e), at) == AtInstant(s, at) + (if e.at == at then [e] else [])
  {
    if s == [] || s[|s| - 1].at <= e.at {
      assert (s + [e])[..|s|] == s;
    } else {
      var init, last := s[..|s| - 1], s[|s| - 1];
      PlacedAt(init, e, at);
      var p := Placed(init, e);
      assert (p + [last])[..|p|] == p;
      if e.at == at {
        assert AtInstant(p, at) + [] == AtInstant(p, at);
      } else {
        assert AtInstant(init, at) + [] == AtInstant(init, at);
      }
    }
  }

  /**
   * The list is the log put in order of instant, and within one instant in the order of writing.
   */
  lemma {:induction false} ByInstantFacts(log: seq<Event>, at: int)
    ensures Ordered(ByInstant(log)) && multiset(ByInstant(log)) == multiset(log) && |ByInstant(log)| == |log|
    ensures AtInstant(ByInstant(log), at) == AtInstant(log, at)
  {
    hide Ordered, Placed;
    if log == [] {
      NothingOrdered();
    } else {
      var init, last := log[..|log| - 1], log[|log| - 1];
      ByInstantFacts(init, at);
      var s := ByInstant(init);
      PlacedOrdered(s, last);
      PlacedBag(s, last);
      PlacedAt(s, last, at);
      OneMoreInBag(init, last, log);
      assert ByInstant(log) == Placed(s, last);
      assert AtInstant(log, at) == AtInstant(init, at) + (if last.at == at then [last] else []);
    }
  }

  lemma OneMoreInBag(init: seq<Event>, last: Event, log: seq<Event>)
    requires log != [] && init == log[..|log| - 1] && last == log[|log| - 1]
    ensures multiset(log) == multiset(init) + multiset{last}
  {
    assert log == init + [last];
  }

  lemma {:induction false} InstantLast(s: seq<Event>, at: int)
    requires Ordered(s) && s != [] && s[|s| - 1].at < at
    ensures AtInstant(s, at) == []
  {
    hide Ordered;
    if |s| > 1 {
      OrderedInit(s);
      InstantLast(s[..|s| - 1], at);
    }
  }

  lemma OrderedInit(s: seq<Event>)
    requires Ordered(s) && s != []
    ensures Ordered(s[..|s| - 1]) && (|s| > 1 ==> s[|s| - 2].at <= s[|s| - 1].at)
  {
  }

  /** No other arrangement of the log is. */
  lemma {:induction false} OneArrangement(a: seq<Event>, b: seq<Event>)
    requires Ordered(a) && Ordered(b) && forall at :: AtInstant(a, at) == AtInstant(b, at)
    ensures a == b
    decreases |a| + |b|
  {
    hide Ordered;
    BothEmpty(a, b);
    BothEmpty(b, a);
    if a != [] {
      var x, y := a[|a| - 1], b[|b| - 1];
      if x.at < y.at {
        InstantLast(a, y.at);
      } else if y.at < x.at {
        InstantLast(b, x.at);
      }
      assert AtInstant(a, x.at)[|AtInstant(a, x.at)| - 1] == x;
      assert AtInstant(b, y.at)[|AtInstant(b, y.at)| - 1] == y;
      OrderedInit(a);
      OrderedInit(b);
      var s, t := a[..|a| - 1], b[..|b| - 1];
      forall at ensures AtInstant(s, at) == AtInstant(t, at) {
        assert AtInstant(a, at) == AtInstant(b, at);
        SameBut(AtInstant(s, at), AtInstant(t, at), if x.at == at then [x] else []);
      }
      OneArrangement(s, t);
      assert a == s + [x] && b == t + [y];
    }
  }

  lemma BothEmpty(a: seq<Event>, b: seq<Event>)
    requires forall at :: AtInstant(a, at) == AtInstant(b, at)
    ensures a == [] ==> b == []
  {
    if b != [] {
      var at := b[|b| - 1].at;
      assert AtInstant(b, at) != [] && AtInstant(a, at) == AtInstant(b, at);
    }
  }

  lemma SameBut(s: seq<Event>, t: seq<Event>, end: seq<Event>)
    requires s + end == t + end
    ensures s == t
  {
    assert s == (s + end)[..|s + end| - |end|];
    assert t == (t + end)[..|t + end| - |end|];
  }

  lemma NothingOrdered()
    ensures Ordered([])
  {
  }

  /** When the clock never ran back, the list is the log as it was written. */
  lemma {:induction false} ByInstantOrdered(log: seq<Event>)
    requires Ordered(log)
    ensures ByInstant(log) == log
  {
    hide Ordered, Placed;
    if log != [] {
      var init, last := log[..|log| - 1], log[|log| - 1];
      OrderedInit(log);
      ByInstantOrdered(init);
      PlacedLast(init, last);
      assert log == init + [last];
    }
  }

  lemma PlacedLast(s: seq<Event>, e: Event)
    requires s == [] || s[|s| - 1].at <= e.at
    ensures Placed(s, e) == s + [e]
  {
  }

  /** No event is stamped later than the last one written. */
  predicate LastIsLatest(log: seq<Event>) {
    forall i | 0 <= i < |log| :: log[i].at <= log[|log| - 1].at
  }

  /** The list ends in the last event written exactly when none before it is stamped later. */
  lemma {:induction false} EndsInLatest(log: seq<Event>) returns (k: nat)
    requires log != []
    ensures k < |log| && |ByInstant(log)| == |log| && ByInstant(log)[|log| - 1] == log[k]
    ensures forall i | 0 <= i < |log| :: log[i].at <= log[k].at
    ensures forall i | k < i < |log| :: log[i].at < log[k].at
    ensures k == |log| - 1 <==> LastIsLatest(log)
  {
    hide Ordered, Placed;
    var init, last := log[..|log| - 1], log[|log| - 1];
    ByInstantFacts(init, 0);
    PlacedOrdered(ByInstant(init), last);
    if init == [] {
      k := 0;
    } else {
      k := EndsInLatest(init);
      if log[k].at <= last.at {
        k := |log| - 1;
      }
    }
  }

  function Timeline(log: seq<Event>): seq<Entry> {
    var events := ByInstant(log);
    seq(|events|, i requires 0 <= i < |events| => Entry(events[i].to, events[i].at, events[i].reason))
  }

  function Projection(db: Tables, id: Id): Result<Output, StoreError>
    requires id in db.deployments
  {
    var d := db.deployments[id];
    var out := Output(d.state, d.buildPath, Timeline(d.log), 0, "", "", None);
    match d.state
    case Healthy =>
      var r := ReleaseOf(db, id, db.nextId);
      if r.None? then Err(NotFound)
      else Ok(out.(releaseNumber := db.releases[r.value].number, imageDigest := db.releases[r.value].imageDigest))
    case Failed => Ok(out.(reason := d.failureReason))
    case Cancelled => Ok(out.(reason := SUPERSEDED, supersededBy := NextDeploymentForApp(db, d.app, id)))
    case _ => Ok(out)
  }

  method Project(db: Tables, id: Id) returns (r: Result<Output, StoreError>)
    requires id in db.deployments
    ensures r == Projection(db, id)
  {
    var d := db.deployments[id];
    var events := ByInstant(d.log);
    var timeline := [];
    for i := 0 to |events|
      invariant |timeline| == i
      invariant forall j | 0 <= j < i :: timeline[j] == Entry(events[j].to, events[j].at, events[j].reason)
    {
      timeline := timeline + [Entry(events[i].to, events[i].at, events[i].reason)];
    }
    assert timeline == Timeline(d.log);
    var out := Output(d.state, d.buildPath, timeline, 0, "", "", None);
    if d.state == Healthy {
      var found := ReleaseOf(db, id, db.nextId);
      if found.None? {
        return Err(NotFound);
      }
      out := out.(releaseNumber := db.releases[found.value].number,
          imageDigest := db.releases[found.value].imageDigest);
    } else if d.state == Failed {
      out := out.(reason := d.failureReason);
    } else if d.state == Cancelled {
      out := out.(reason := SUPERSEDED, supersededBy := NextDeploymentForApp(db, d.app, id));
    }
    r := Ok(out);
  }

  // ---- What the report says -----------------------------------------------------------------

  /** The event that put the row in its state has not been swept, and none left is stamped later. */
  predicate LastWordStands(d: Deployment) {
    d.log != [] && d.log[|d.log| - 1].to == d.state && LastIsLatest(d.log)
  }

  lemma Survivors(full: Deployment, d: Deployment)
    requires RowReplays(full) && RowForgets(full, d)
    ensures |d.log| <= 5 && d.state == full.state && d.failureReason == full.failureReason
    ensures forall i | 0 <= i < |d.log| && d.log[i].to == d.state ::
              i == |d.log| - 1 && (d.state == Failed ==> d.log[i].reason == d.failureReason)
  {
    LegalLogFacts(full.log);
    SurvivorsClimb(d.log, full.log);
  }

  /** The timeline ends in the reported state, failed with the reported reason, exactly then. */
  lemma TimelineEnds(full: Deployment, d: Deployment)
    requires RowReplays(full) && RowForgets(full, d)
    ensures |Timeline(d.log)| == |d.log| <= 5
    ensures forall i, j | 0 <= i < j < |d.log| :: Timeline(d.log)[i].at <= Timeline(d.log)[j].at
    ensures Timeline(d.log) != [] && Timeline(d.log)[|d.log| - 1].state == d.state <==> LastWordStands(d)
    ensures LastWordStands(d) && d.state == Failed ==> Timeline(d.log)[|d.log| - 1].reason == d.failureReason
  {
    hide LegalLog, Within, ByInstant, LogForgets;
    Survivors(full, d);
    ByInstantFacts(d.log, 0);
    if d.log != [] {
      var k := EndsInLatest(d.log);
    }
  }

  /**
   * In every reachable state, whatever has been swept, the report is complete. Its timeline is in order
   * of instant, and ends in the reported state, with the reported reason, exactly when the event that
   * put the row there is left and none left is stamped later. It gives the log's own states, stamps and
   * reasons. A healthy deployment shows the number and the digest of the one release naming it, and no
   * other shows either; a failed one its own reason. A cancelled one names the deployment whose creation
   * cancelled it, created at the very instant this one was stamped finished, exactly when that one is
   * left, which it is unless the clock ran back over its life.
   */
  lemma ReportIsTrue(turns: seq<Turn>, d: Id)
    requires SweptLegal(turns) && d in SweptAfter(turns).deployments
    ensures var now := SweptAfter(turns);
            var row := now.deployments[d];
            && Projection(now, d).Ok?
            && var out := Projection(now, d).value;
            && out.state == row.state && |out.timeline| == |row.log| <= 5
            && (forall i, j | 0 <= i < j < |out.timeline| :: out.timeline[i].at <= out.timeline[j].at)
            && (out.timeline != [] && out.timeline[|out.timeline| - 1].state == out.state <==> LastWordStands(row))
            && (row.state == Failed && LastWordStands(row) ==> out.timeline[|out.timeline| - 1].reason == out.reason)
            && (row.state == Healthy ==>
                  && out.imageDigest == row.imageDigest != ""
                  && exists r :: r in now.releases && now.releases[r].deployment == d
                                 && now.releases[r].number == out.releaseNumber >= 1
                                 && forall x | x in now.releases && now.releases[x].deployment == d :: x == r)
            && (row.state != Healthy ==> out.releaseNumber == 0 && out.imageDigest == "")
            && out.buildPath == row.buildPath
            && (out.reason == if row.state == Failed then row.failureReason
                              else if row.state == Cancelled then "superseded" else "")
            && (row.state != Cancelled ==> out.supersededBy == None)
            && (forall i | 0 <= i < |row.log| ::
                  && out.timeline[i].state == ByInstant(row.log)[i].to
                  && out.timeline[i].at == ByInstant(row.log)[i].at
                  && out.timeline[i].reason == ByInstant(row.log)[i].reason)
            && (row.state == Cancelled ==>
                  exists next :: Superseder(turns, d, next)
                    && (out.supersededBy == Some(next) <==> next in now.deployments)
                    && (next in now.deployments || RanBack(After(EMPTY, Full(turns)).deployments[next])))
  {
    hide Inv, Legal, After, SweptLegal, SweptAfter, Full, NextDeploymentForApp, HasRelease, HasNumber, RowReplays,
         RowForgets, Timeline, LastWordStands;
    FullRun(turns);
    var full, now := After(EMPTY, Full(turns)), SweptAfter(turns);
    var row := now.deployments[d];
    RowStands(full, d);
    TimelineEnds(full.deployments[d], row);
    TimelineIs(row.log);
    RowKept(full.deployments[d], row);
    if row.state == Healthy {
      HealthyReport(full, now, d);
    } else if row.state == Cancelled {
      var next := SuccessorLeft(turns, d);
    }
  }

  /** The deployment whose creation cancelled this one, swept or not. */
  ghost predicate Superseder(turns: seq<Turn>, d: Id, next: Id)
    requires SweptLegal(turns) && d in SweptAfter(turns).deployments
  {
    var full := After(EMPTY, Full(turns));
    && d < next && next in full.deployments && d in full.deployments
    && NextDeploymentForApp(full, full.deployments[d].app, d) == Some(next)
    && SweptAfter(turns).deployments[d].finishedAt == Some(full.deployments[next].createdAt)
  }

  lemma RowKept(d: Deployment, e: Deployment)
    requires RowForgets(d, e)
    ensures e.state == d.state && e.app == d.app && e.imageDigest == d.imageDigest && e.finishedAt == d.finishedAt
  {
  }

  lemma OneRelease(db: Tables, d: Id, r: Id)
    requires Inv(db) && r in db.releases && db.releases[r].deployment == d
    ensures forall x | x in db.releases && db.releases[x].deployment == d :: x == r
  {
    hide DeploymentsOk, ReleasesOk, AppsOk, OnlyNewestInFlight;
  }

  lemma TimelineIs(log: seq<Event>)
    ensures |Timeline(log)| == |ByInstant(log)|
    ensures forall i | 0 <= i < |Timeline(log)| ::
              Timeline(log)[i] == Entry(ByInstant(log)[i].to, ByInstant(log)[i].at, ByInstant(log)[i].reason)
  {
  }

  lemma HealthyReport(full: Tables, db: Tables, d: Id)
    requires Inv(full) && Forgets(full, db) && d in db.deployments && db.deployments[d].state == Healthy
    ensures var r := ReleaseOf(db, d, db.nextId);
            && r.Some? && r.value in db.releases && db.releases[r.value].deployment == d
            && db.releases[r.value].imageDigest == db.deployments[d].imageDigest != ""
            && db.releases[r.value].number >= 1
            && forall x | x in db.releases && db.releases[x].deployment == d :: x == r.value
  {
    hide Inv, RowReplays, DecodeSnapshot, EntriesOk, LogForgets;
    DeploymentStands(full, d);
    IdsBelow(full);
    var x :| x in full.releases && full.releases[x].deployment == d;
    ReleaseStands(full, ReleaseOf(db, d, db.nextId).value);
    OneRelease(full, d, ReleaseOf(db, d, db.nextId).value);
  }
}
