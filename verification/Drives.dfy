/** What a stretch of a run leaves alone: the facts the reconcile loop carries from one call to the next. */
module Drives {
  import opened Basics
  import opened StateMachine
  import opened Configuration
  import opened Tables
  import opened Runs
  import opened Invariant
  import opened History
  import opened Releases

  /** An agent's action, or a write of the loop about one of these deployments. */
  predicate About(a: Action, ids: set<Id>) {
    a.Agent() || (Subject(a).Some? && Subject(a).value in ids)
  }

  /** The run went on, and everything added is an agent's or about these deployments. */
  predicate Only(before: seq<Action>, after: seq<Action>, ids: set<Id>) {
    before <= after && forall k | |before| <= k < |after| :: About(after[k], ids)
  }

  /** All an agent can do to a row is cancel it. */
  predicate AgentKept(d: Deployment, e: Deployment) {
    e == d || (InFlight(d) && e == d.(state := Cancelled, failureReason := SUPERSEDED, finishedAt := e.finishedAt,
        log := e.log))
  }

  lemma StepUntouched(db: Tables, a: Action, ids: set<Id>, d: Id)
    requires Inv(db) && About(a, ids) && d !in ids && d in db.deployments
    ensures d in Apply(db, a).deployments && AgentKept(db.deployments[d], Apply(db, a).deployments[d])
  {
    hide Inv;
    match a
    case CreateApp(account, name, slugs, limit) =>
      hide InsertApp;
      InsertAppEvolves(db, account, name, slugs);
    case CreateDeployment(app, source, at) =>
      IdsBelow(db);
    case _ =>
  }

  /** Nothing but its own drive moves a row forward: between the drive's writes, agents can only cancel it. */
  lemma {:induction false} Untouched(start: Tables, before: seq<Action>, after: seq<Action>, ids: set<Id>, d: Id)
    requires Inv(start) && Legal(start, after) && Only(before, after, ids) && d !in ids
    requires d in After(start, before).deployments
    ensures d in After(start, after).deployments
    ensures AgentKept(After(start, before).deployments[d], After(start, after).deployments[d])
    decreases |after|
  {
    hide Inv, Apply, Guard, About;
    if |after| == |before| {
      assert after == before;
    } else {
      var init := after[..|after| - 1];
      assert after[|after| - 1] == after[|init|];
      assert Only(before, init, ids);
      Untouched(start, before, init, ids, d);
      InvOverRuns(start, init);
      StepUntouched(After(start, init), after[|after| - 1], ids, d);
    }
  }

  /** Whatever happens, a row keeps whose it is, and everything else only ever goes forward. */
  lemma Onward(start: Tables, before: seq<Action>, after: seq<Action>)
    requires Inv(start) && Legal(start, after) && before <= after
    ensures Inv(After(start, before)) && Inv(After(start, after))
    ensures Evolves(After(start, before), After(start, after))
  {
    hide Inv, Apply, Guard, Evolves;
    assert after[..|before|] == before;
    LegalPrefix(start, after, |before|);
    InvOverRuns(start, before);
    InvOverRuns(start, after);
    RunEvolves(start, after, |before|);
  }

  /** A write the loop may make on a row, it may still make after the agents have had their turn. */
  lemma GuardSurvives(db: Tables, now: Tables, a: Action, id: Id)
    requires Inv(db) && Inv(now) && Evolves(db, now) && Guard(db, a) && Subject(a) == Some(id) && id in db.deployments
    requires id in now.deployments && AgentKept(db.deployments[id], now.deployments[id])
    ensures Guard(now, a)
  {
    hide Inv, DecodeSnapshot, EntriesOk, RowEvolves, AppEvolves;
    if a.MarkHealthy? && db.deployments[id].source.Rollback? {
      SourceExists(db, id);
    }
  }

  /** And a configuration once held stays one the build may record. */
  lemma ComposedSurvives(start: Tables, before: seq<Action>, after: seq<Action>, id: Id, config: Config)
    requires Composed(start, before, id, config) && before <= after && id in After(start, before).deployments
    requires id in After(start, after).deployments
    requires AgentKept(After(start, before).deployments[id], After(start, after).deployments[id])
    ensures Composed(start, after, id, config)
  {
    hide After;
    var now := After(start, after).deployments[id];
    if InFlight(now) && now.source.Upload? {
      var j :| 0 <= j <= |before| && HeldAt(start, before, j, id, config);
      assert after[..j] == before[..j];
      assert HeldAt(start, after, j, id, config);
    }
  }

  /** A rollback's configuration is its guard's business. */
  lemma RollbackComposed(start: Tables, acts: seq<Action>, id: Id, config: Config)
    requires id in After(start, acts).deployments && After(start, acts).deployments[id].source.Rollback?
    ensures Composed(start, acts, id, config)
  {
  }

  /** What the app's table holds now, a build of it may record. */
  lemma ComposedNow(start: Tables, acts: seq<Action>, id: Id)
    requires id in After(start, acts).deployments
    requires After(start, acts).deployments[id].app in After(start, acts).apps
    ensures Composed(start, acts, id, After(start, acts).apps[After(start, acts).deployments[id].app].config)
  {
    hide After;
    assert acts[..|acts|] == acts;
    assert HeldAt(start, acts, |acts|, id, After(start, acts).apps[After(start, acts).deployments[id].app].config);
  }

  // ---- Which action wrote an event -----------------------------------------------------------

  /** The action writes this event on this deployment. */
  predicate Writes(a: Action, d: Id, e: Event) {
    if e.to == Healthy then a.MarkHealthy? && a.id == d && a.at == e.at
    else a.Transition? && a.id == d && a.to == e.to && a.reason == e.reason && a.at == e.at
  }

  lemma EventOfStep(db: Tables, a: Action, d: Id)
    requires Inv(db) && Guard(db, a) && d in db.deployments
    ensures d in Apply(db, a).deployments
    ensures var log, now := db.deployments[d].log, Apply(db, a).deployments[d].log;
            || now == log
            || (|now| == |log| + 1 && now[..|log|] == log && (now[|log|].to == Cancelled || Writes(a, d, now[|log|])))
  {
    hide Inv, Guard;
    match a
    case CreateApp(account, name, slugs, limit) =>
      hide InsertApp;
      InsertAppEvolves(db, account, name, slugs);
    case CreateDeployment(app, source, at) => EventOfCreate(db, app, source, at, d);
    case MarkHealthy(id, config, at) => hide ConfigSnapshot, MaxReleaseNumber, HasRelease;
    case _ => hide CreateDeploymentTx;
  }

  lemma EventOfCreate(db: Tables, app: Id, source: Source, at: int, d: Id)
    requires Inv(db) && d in db.deployments
    ensures var after := CreateDeploymentTx(db, app, source, at).0;
            && d in after.deployments
            && var log, now := db.deployments[d].log, after.deployments[d].log;
               || now == log
               || (|now| == |log| + 1 && now[..|log|] == log && now[|log|].to == Cancelled)
  {
    hide Inv, StartingDigest;
    IdsBelow(db);
  }

  /** Every event a deployment gained but its supersession was written by one action since about it. */
  lemma {:induction false} EventBy(start: Tables, before: seq<Action>, after: seq<Action>, d: Id,
                                   j: nat) returns (i: nat)
    requires Inv(start) && Legal(start, after) && before <= after && d in After(start, before).deployments
    requires d in After(start, after).deployments
    requires |After(start, before).deployments[d].log| <= j < |After(start, after).deployments[d].log|
    requires After(start, after).deployments[d].log[j].to != Cancelled
    ensures |before| <= i < |after| && Writes(after[i], d, After(start, after).deployments[d].log[j])
    decreases |after|
  {
    hide Inv, Apply, Guard, Composed, Writes;
    assert |after| == |before| ==> after == before;
    var init, a := after[..|after| - 1], after[|after| - 1];
    LegalPrefix(start, after, |init|);
    Onward(start, before, init);
    EventOfStep(After(start, init), a, d);
    if j < |After(start, init).deployments[d].log| {
      i := EventBy(start, before, init, d, j);
    } else {
      i := |init|;
    }
  }

  lemma PathOfStep(db: Tables, a: Action, d: Id)
    requires Inv(db) && Guard(db, a) && d in db.deployments
    ensures d in Apply(db, a).deployments
    ensures Apply(db, a).deployments[d].buildPath != db.deployments[d].buildPath ==>
              a.RecordBuild? && a.id == d && a.path != "" && Apply(db, a).deployments[d].buildPath == a.path
  {
    hide Inv, Guard;
    match a
    case CreateApp(account, name, slugs, limit) =>
      hide InsertApp;
      InsertAppEvolves(db, account, name, slugs);
    case CreateDeployment(app, source, at) => PathOfCreate(db, app, source, at, d);
    case MarkHealthy(id, config, at) => hide ConfigSnapshot, MaxReleaseNumber, HasRelease;
    case _ => hide CreateDeploymentTx;
  }

  lemma PathOfCreate(db: Tables, app: Id, source: Source, at: int, d: Id)
    requires Inv(db) && d in db.deployments
    ensures var after := CreateDeploymentTx(db, app, source, at).0;
            d in after.deployments && after.deployments[d].buildPath == db.deployments[d].buildPath
  {
    hide Inv, StartingDigest;
    IdsBelow(db);
  }

  /** A row's engine is what it was, or what a record since wrote. */
  lemma {:induction false} PathBy(start: Tables, before: seq<Action>, after: seq<Action>, d: Id) returns (i: nat)
    requires Inv(start) && Legal(start, after) && before <= after && d in After(start, before).deployments
    ensures d in After(start, after).deployments
    ensures After(start, after).deployments[d].buildPath != After(start, before).deployments[d].buildPath ==>
              && |before| <= i < |after| && after[i].RecordBuild? && after[i].id == d && after[i].path != ""
              && After(start, after).deployments[d].buildPath == after[i].path
    decreases |after|
  {
    hide Inv, Apply, Guard, Composed;
    i := |before|;
    if |after| == |before| {
      assert after == before;
    } else {
      var init, a := after[..|after| - 1], after[|after| - 1];
      LegalPrefix(start, after, |init|);
      Onward(start, before, init);
      i := PathBy(start, before, init, d);
      PathOfStep(After(start, init), a, d);
      if After(start, after).deployments[d].buildPath != After(start, init).deployments[d].buildPath {
        i := |init|;
      }
    }
  }

  /** Whatever a failure finds, it leaves the deployment ended. */
  lemma FailureEnds(start: Tables, acts: seq<Action>, i: nat, d: Id)
    requires Inv(start) && Legal(start, acts) && i < |acts| && d in After(start, acts[..i]).deployments
    requires acts[i].Transition? && acts[i].id == d && acts[i].to == Failed
    ensures d in After(start, acts).deployments && Terminal(After(start, acts).deployments[d].state)
  {
    hide Inv, Guard, Composed;
    StepAt(start, acts, i);
    var db := After(start, acts[..i]);
    MovesClimb(db.deployments[d].state, Failed);
    assert d in Apply(db, acts[i]).deployments && Terminal(Apply(db, acts[i]).deployments[d].state);
    RunEvolves(start, acts, i + 1);
    StillTerminal(After(start, acts[..i + 1]), After(start, acts), d);
  }

  lemma FailureSince(start: Tables, before: seq<Action>, acts: seq<Action>, i: nat, d: Id)
    requires Inv(start) && Legal(start, acts) && before <= acts && |before| <= i < |acts|
    requires d in After(start, before).deployments
    requires acts[i].Transition? && acts[i].id == d && acts[i].to == Failed
    ensures d in After(start, acts).deployments && Terminal(After(start, acts).deployments[d].state)
  {
    hide Inv, Guard, Composed, Apply;
    assert acts[..i][..|before|] == before;
    LegalPrefix(start, acts, i);
    RunEvolves(start, acts[..i], |before|);
    RowThrough(After(start, before), After(start, acts[..i]), d);
    FailureEnds(start, acts, i, d);
  }

  lemma RowThrough(a: Tables, b: Tables, id: Id)
    requires Evolves(a, b) && id in a.deployments
    ensures id in b.deployments
  {
  }

  // ---- Slugs ---------------------------------------------------------------------------------

  /** A slug whose app has been deleted, which is for ever. */
  predicate Retired(db: Tables, slug: string) {
    exists a :: a in db.apps && db.apps[a].slug == slug && db.apps[a].deleted
  }

  predicate LiveSlug(db: Tables, slug: string) {
    exists a :: a in db.apps && db.apps[a].slug == slug && !db.apps[a].deleted
  }

  lemma RetiredForever(db: Tables, now: Tables, slug: string)
    requires Evolves(db, now)
    ensures Retired(db, slug) ==> Retired(now, slug)
    ensures SlugUsed(db, slug) ==> SlugUsed(now, slug)
  {
  }

  /** A slug is used once, so a used slug is either live or retired and never both. */
  lemma LiveOrRetired(db: Tables, slug: string)
    requires Inv(db)
    ensures SlugUsed(db, slug) <==> (LiveSlug(db, slug) || Retired(db, slug))
    ensures !(LiveSlug(db, slug) && Retired(db, slug))
  {
  }
}
