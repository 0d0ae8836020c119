/**
 * The store: internal/store/deployments.go, internal/store/apps.go and internal/store/config.go.
 *
 * Each method is one write transaction of statements over the tables. A statement that refuses
 * rolls the whole transaction back, which is what `before` is kept for.
 */
module Stores {
  import opened Basics
  import opened StateMachine
  import opened Configuration
  import opened Tables
  import opened Runs

  /** UPDATE deployments SET state: the stamps and the reason are coalesced, never cleared. */
  function UpdateState(d: Deployment, to: State, reason: Option<string>, startedAt: Option<int>,
                       finishedAt: Option<int>)
    : Deployment
  {
    d.(state := to,
       failureReason := if reason.Some? then reason.value else d.failureReason,
       startedAt := if d.startedAt.Some? then d.startedAt else startedAt,
       finishedAt := if d.finishedAt.Some? then d.finishedAt else finishedAt)
  }

  /** The tables with one app's app_config rows replaced. */
  function Configured(db: Tables, app: Id, c: Config): Tables
    requires app in db.apps
  {
    db.(apps := db.apps[app := db.apps[app].(config := c)])
  }

  lemma ConfiguredTwice(db: Tables, app: Id, c: Config, e: Config)
    requires app in db.apps
    ensures app in Configured(db, app, c).apps && Configured(db, app, c).apps[app].config == c
    ensures Configured(Configured(db, app, c), app, e) == Configured(db, app, e)
  {
  }

  // DELETE FROM deployment_events and DELETE FROM deployments, as Sweep issues them.

  function EventsOfAgedGone(rows: map<Id, Deployment>, cutoff: int): map<Id, Deployment> {
    map d | d in rows :: if Aged(rows[d], cutoff) then rows[d].(log := []) else rows[d]
  }

  function AgedGone(rows: map<Id, Deployment>, cutoff: int): map<Id, Deployment> {
    map d | d in rows && !Aged(rows[d], cutoff) :: rows[d]
  }

  function AgedEventsGone(rows: map<Id, Deployment>, cutoff: int): map<Id, Deployment> {
    map d | d in rows :: rows[d].(log := Recent(rows[d].log, cutoff))
  }

  lemma AgedWithoutEvents(d: Deployment, cutoff: int)
    ensures Aged(d.(log := []), cutoff) == Aged(d, cutoff)
  {
  }

  lemma SweptStatements(db: Tables, cutoff: int)
    ensures AgedReferenced(db.(deployments := EventsOfAgedGone(db.deployments, cutoff)), cutoff) == AgedReferenced(db,
            cutoff)
    ensures !AgedReferenced(db, cutoff) ==>
              RetentionTx(db, cutoff).0.deployments
              == AgedEventsGone(AgedGone(EventsOfAgedGone(db.deployments, cutoff), cutoff), cutoff)
  {
    hide Aged, Recent;
    forall d | d in db.deployments
      ensures Aged(EventsOfAgedGone(db.deployments, cutoff)[d], cutoff) == Aged(db.deployments[d], cutoff)
    {
      AgedWithoutEvents(db.deployments[d], cutoff);
    }
  }

  class Store {
    var db: Tables

    constructor ()
      ensures db == EMPTY
    {
      db := EMPTY;
    }

    // ---- Statements ----------------------------------------------------------------------

    method UpdateDeploymentState(id: Id, to: State, reason: Option<string>, startedAt: Option<int>,
                                 finishedAt: Option<int>)
      requires id in db.deployments
      modifies this
      ensures db == old(db).(deployments := old(db).deployments[
                        id := UpdateState(old(db).deployments[id], to, reason, startedAt, finishedAt)])
    {
      var d := db.deployments[id];
      db := db.(deployments := db.deployments[id := UpdateState(d, to, reason, startedAt, finishedAt)]);
    }

    method InsertDeploymentEvent(id: Id, e: Event)
      requires id in db.deployments
      modifies this
      ensures db == old(db).(deployments := old(db).deployments[
                        id := old(db).deployments[id].(log := old(db).deployments[id].log + [e])])
    {
      var d := db.deployments[id];
      db := db.(deployments := db.deployments[id := d.(log := d.log + [e])]);
    }

    // ---- Deployments ---------------------------------------------------------------------

    method CreateDeployment(app: Id, source: Source, at: int) returns (r: Result<Id, StoreError>)
      modifies this
      ensures (db, r) == CreateDeploymentTx(old(db), app, source, at)
    {
      var before := db;
      if app !in db.apps || db.apps[app].deleted {
        return Err(AppDeleted);
      }
      var digest := "";
      if source.Rollback? {
        if source.release !in db.releases || db.releases[source.release].app != app {
          return Err(NotFound);
        }
        digest := db.releases[source.release].imageDigest;
      }
      CancelInFlight(app, at);
      // The partial unique index has the last word on the insert.
      if FindInFlight(db.deployments, app, db.nextId).Some? {
        db := before;
        return Err(UniqueViolation);
      }
      var id := InsertDeployment(app, source, digest, at);
      r := Ok(id);
    }

    method CancelInFlight(app: Id, at: int)
      modifies this
      ensures db == Supersede(old(db), app, at)
    {
      var inFlight := FindInFlight(db.deployments, app, db.nextId);
      if inFlight.Some? {
        var from := db.deployments[inFlight.value].state;
        UpdateDeploymentState(inFlight.value, Cancelled, Some(SUPERSEDED), None, Some(at));
        InsertDeploymentEvent(inFlight.value, Event(Some(from), Cancelled, SUPERSEDED, "", at));
      }
    }

    method InsertDeployment(app: Id, source: Source, digest: string, at: int) returns (id: Id)
      modifies this
      ensures id == old(db).nextId
      ensures db == old(db).(deployments := old(db).deployments[id := Born(app, source, digest, at)], nextId := id + 1)
    {
      id := db.nextId;
      var row := Deployment(app, source, Queued, "", "", "", digest, "", None, at, None, None, []);
      db := db.(deployments := db.deployments[id := row], nextId := id + 1);
      InsertDeploymentEvent(id, Event(None, Queued, "", "", at));
      assert row.log + [Event(None, Queued, "", "", at)] == [Event(None, Queued, "", "", at)];
    }

    /** applyTransition: the row update and its event, inside a transaction that checked the move. */
    method ApplyTransition(id: Id, to: State, reason: string, detail: string, at: int)
      requires id in db.deployments
      modifies this
      ensures db == old(db).(deployments := old(db).deployments[
                        id := Moved(old(db).deployments[id], to, reason, detail, at)])
    {
      var from := db.deployments[id].state;
      UpdateDeploymentState(id, to,
                            if to == Failed && reason != "" then Some(reason) else None,
                            if from == Queued then Some(at) else None,
                            if Terminal(to) then Some(at) else None);
      InsertDeploymentEvent(id, Event(Some(from), to, reason, detail, at));
    }

    method Transition(id: Id, to: State, reason: string, detail: string, at: int) returns (r: Result<(), StoreError>)
      modifies this
      ensures (db, r) == TransitionTx(old(db), id, to, reason, detail, at)
    {
      if to == Healthy {
        return Err(IllegalTransition);
      }
      if id !in db.deployments {
        return Err(NotFound);
      }
      var from := db.deployments[id].state;
      if Terminal(from) {
        return Err(TerminalState);
      }
      if !CanTransition(from, to) {
        return Err(IllegalTransition);
      }
      ApplyTransition(id, to, reason, detail, at);
      r := Ok(());
    }

    method RecordBuildResult(id: Id, path: string, job: string, repo: string, digest: string)
      returns (r: Result<(), StoreError>)
      modifies this
      ensures (db, r) == RecordBuildTx(old(db), id, path, job, repo, digest)
    {
      if id !in db.deployments {
        return Err(NotFound);
      }
      var d := db.deployments[id];
      if path != "" {
        d := d.(buildPath := path);
      }
      if job != "" {
        d := d.(jobName := job);
      }
      if repo != "" {
        d := d.(imageRepo := repo);
      }
      if digest != "" {
        d := d.(imageDigest := digest);
      }
      db := db.(deployments := db.deployments[id := d]);
      r := Ok(());
    }

    method MarkHealthy(id: Id, config: Config, at: int) returns (r: Result<Id, StoreError>)
      modifies this
      ensures (db, r) == MarkHealthyTx(old(db), id, config, at)
    {
      var before := db;
      if id !in db.deployments {
        return Err(NotFound);
      }
      var current := db.deployments[id];
      if Terminal(current.state) {
        return Err(TerminalState);
      }
      if !CanTransition(current.state, Healthy) {
        return Err(IllegalTransition);
      }
      if current.imageDigest == "" {
        return Err(NoDigest);
      }
      ApplyTransition(id, Healthy, "", "", at);
      var number := MaxReleaseNumber(db.releases, current.app, db.nextId) + 1;
      assert HasRelease(db, id) == HasRelease(before, id);
      if HasRelease(db, id) {
        db := before;
        return Err(ReleaseExists);
      }
      var rel := db.nextId;
      db := db.(releases := db.releases[rel := Release(current.app, id, number, current.imageDigest,
          ConfigSnapshot(config))],
                nextId := rel + 1);
      if current.app in db.apps {
        db := db.(apps := db.apps[current.app := db.apps[current.app].(current := Some(rel))]);
        if current.source.Rollback? {
          ghost var pointed := before.apps[current.app].(current := Some(rel));
          ReplaceConfig(current.app, config);
          assert before.apps[current.app := pointed][current.app := pointed.(config := config)]
              == before.apps[current.app := pointed.(config := config)];
        } else {
          assert before.apps[current.app].(current := Some(rel))
              == before.apps[current.app].(current := Some(rel), config := before.apps[current.app].config);
        }
      }
      r := Ok(rel);
    }

    /** Makes app_config exactly the given set, whatever order the map is ranged over in. */
    method ReplaceConfig(app: Id, config: Config)
      requires app in db.apps
      modifies this
      ensures db == Configured(old(db), app, config)
    {
      ghost var before := db;
      db := Configured(db, app, map[]);
      var rest := config.Keys;
      assert config - rest == map[];
      while rest != {}
        invariant rest <= config.Keys
        invariant db == Configured(before, app, config - rest)
        decreases |rest|
      {
        hide Configured;
        var k :| k in rest;
        ConfiguredTwice(before, app, config - rest, config - (rest - {k}));
        assert (config - rest)[k := config[k]] == config - (rest - {k});
        db := Configured(db, app, db.apps[app].config[k := config[k]]);
        rest := rest - {k};
      }
      assert config - rest == config;
    }

    method ClaimNext(claimer: string) returns (r: Result<Id, StoreError>)
      modifies this
      ensures (db, r) == ClaimNextTx(old(db), claimer)
    {
      var next := NextClaim(db);
      if next.None? {
        return Err(NotFound);
      }
      var d := db.deployments[next.value];
      db := db.(deployments := db.deployments[next.value := d.(claimedBy := Some(claimer))]);
      r := Ok(next.value);
    }

    method ReleaseBuildingClaim(id: Id) returns (released: bool)
      modifies this
      ensures (db, released) == ReleaseClaimTx(old(db), id)
    {
      if id !in db.deployments || db.deployments[id].state != Building {
        return false;
      }
      db := db.(deployments := db.deployments[id := db.deployments[id].(claimedBy := None)]);
      released := true;
    }

    // ---- Apps ----------------------------------------------------------------------------

    method CreateApp(account: Id, name: string, slugs: seq<string>, limit: int) returns (r: Result<Id, StoreError>)
      modifies this
      ensures (db, r) == CreateAppTx(old(db), account, name, slugs, limit)
      // The cap is exact, and a collision only ever costs a suffix.
      ensures r.Ok? ==> |LiveApps(old(db), account)| < limit
      ensures r.Ok? ==> LiveApps(db, account) == LiveApps(old(db), account) + {r.value}
    {
      var held := |LiveApps(db, account)|;
      if held >= limit {
        return Err(AppLimit);
      }
      for attempt := 0 to |slugs|
        invariant db == old(db)
        invariant InsertApp(db, account, name, slugs) == InsertApp(db, account, name, slugs[attempt..])
      {
        if SlugUsed(db, slugs[attempt]) || NameTaken(db, account, name) {
          if NameTaken(db, account, name) {
            return Err(AppNameTaken);
          }
          assert slugs[attempt..][1..] == slugs[attempt + 1..];
        } else {
          var id := db.nextId;
          db := db.(apps := db.apps[id := App(account, name, slugs[attempt], None, false, map[])], nextId := id + 1);
          return Ok(id);
        }
      }
      r := Err(SlugTaken);
    }

    method SoftDeleteApp(app: Id) returns (r: Result<(), StoreError>)
      modifies this
      ensures (db, r) == SoftDeleteTx(old(db), app)
    {
      if FindInFlight(db.deployments, app, db.nextId).Some? {
        return Err(DeploymentInFlight);
      }
      if app !in db.apps || db.apps[app].deleted {
        return Err(NotFound);
      }
      db := db.(apps := db.apps[app := db.apps[app].(deleted := true)]);
      r := Ok(());
    }

    // ---- app_config ----------------------------------------------------------------------

    /** Every entry or none of them. */
    method SetConfigBatch(app: Id, entries: seq<Write>) returns (r: Result<(), StoreError>)
      modifies this
      ensures (db, r) == SetConfigTx(old(db), app, entries)
      ensures r.Err? ==> db == old(db)
    {
      var before := db;
      for i := 0 to |entries|
        invariant i == 0 ==> db == before
        invariant i > 0 ==> app in before.apps && db == before.(apps := before.apps[
                                app := before.apps[app].(config := Written(before.apps[app].config, entries[..i]))])
        invariant forall j | 0 <= j < i :: ValidKey(entries[j].key)
      {
        var e := entries[i];
        var valid := ValidConfigKey(e.key);
        if !valid {
          assert e in entries;
          db := before;
          return Err(InvalidKey);
        }
        // The foreign key refuses the very first insert, and reads as any other constraint failure.
        if app !in db.apps {
          db := before;
          return Err(InvalidKey);
        }
        var held := db.apps[app];
        db := db.(apps := db.apps[app := held.(config := held.config[e.key := e.Entry()])]);
        assert entries[..i + 1][..i] == entries[..i];
      }
      assert entries[..|entries|] == entries;
      r := Ok(());
    }

    /** Every key or none of them: a key the app does not have rolls the whole call back. */
    method UnsetConfigBatch(app: Id, keys: seq<string>) returns (r: Result<(), StoreError>)
      modifies this
      ensures (db, r) == UnsetConfigTx(old(db), app, keys)
      ensures r.Err? ==> db == old(db)
    {
      var before := db;
      for i := 0 to |keys|
        invariant i == 0 ==> db == before
        invariant i > 0 ==> app in before.apps
        invariant app in before.apps ==> (
            && Removed(before.apps[app].config, keys[..i]).Some?
            && db == before.(apps := before.apps[
                         app := before.apps[app].(config := Removed(before.apps[app].config, keys[..i]).value)]))
      {
        assert keys[..i + 1][..i] == keys[..i];
        if app !in db.apps || keys[i] !in db.apps[app].config {
          if app in before.apps {
            RefusedAt(before.apps[app].config, keys, i + 1);
          }
          db := before;
          return Err(NotFound);
        }
        var held := db.apps[app];
        db := db.(apps := db.apps[app := held.(config := held.config - {keys[i]})]);
      }
      assert keys[..|keys|] == keys;
      r := Ok(());
    }

    // ---- Retention -----------------------------------------------------------------------

    /** Children before parents, because nothing cascades; a parent still referenced rolls all of it back. */
    method Sweep(cutoff: int) returns (r: Result<(), StoreError>)
      modifies this
      ensures (db, r) == RetentionTx(old(db), cutoff)
    {
      hide Aged;
      var before := db;
      db := db.(deployments := EventsOfAgedGone(db.deployments, cutoff));
      SweptStatements(before, cutoff);
      if AgedReferenced(db, cutoff) {
        db := before;
        return Err(StillReferenced);
      }
      db := db.(deployments := AgedGone(db.deployments, cutoff));
      db := db.(deployments := AgedEventsGone(db.deployments, cutoff));
      r := Ok(());
    }

    /** One transaction of anybody's. */
    method Perform(a: Action)
      modifies this
      ensures db == Apply(old(db), a)
    {
      hide CreateAppTx, SoftDeleteTx, CreateDeploymentTx, SetConfigTx, UnsetConfigTx, LiveApps, ClaimNextTx,
           ReleaseClaimTx, TransitionTx, RecordBuildTx, MarkHealthyTx;
      match a {
        case CreateApp(account, name, slugs, limit) => var _ := CreateApp(account, name, slugs, limit);
        case DeleteApp(app) => var _ := SoftDeleteApp(app);
        case CreateDeployment(app, source, at) => var _ := CreateDeployment(app, source, at);
        case SetConfig(app, writes) => var _ := SetConfigBatch(app, writes);
        case UnsetConfig(app, keys) => var _ := UnsetConfigBatch(app, keys);
        case ClaimNext(claimer) => var _ := ClaimNext(claimer);
        case ReleaseClaim(id) => var _ := ReleaseBuildingClaim(id);
        case Transition(id, to, reason, detail, at) => var _ := Transition(id, to, reason, detail, at);
        case RecordBuild(id, path, job, repo, digest) => var _ := RecordBuildResult(id, path, job, repo, digest);
        case MarkHealthy(id, config, at) => var _ := MarkHealthy(id, config, at);
      }
    }
  }

  /** One key missing along the way refuses the whole list. */
  lemma {:induction false} RefusedAt(c: Config, keys: seq<string>, n: nat)
    requires n <= |keys| && Removed(c, keys[..n]).None?
    ensures Removed(c, keys).None?
  {
    if n < |keys| {
      assert keys[..|keys| - 1][..n] == keys[..n];
      RefusedAt(c, keys[..|keys| - 1], n);
    } else {
      assert keys[..n] == keys;
    }
  }
}
