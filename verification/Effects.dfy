/**
 * When each transaction of module Tables is refused, with what, and what it writes, in the rows' own
 * columns: what a caller of internal/store/deployments.go, internal/store/apps.go,
 * internal/store/config.go and internal/store/uploads.go can rely on without reading them.
 */
module Effects {
  import opened Basics
  import opened StateMachine
  import opened Configuration
  import opened Tables
  import opened Runs
  import opened Invariant
  import opened Retention

  // ---- Moves ---------------------------------------------------------------------------------

  /**
   * The table of moves, exactly: one step up the ladder, the step a rollback takes from queued straight to
   * deploying, and failed or cancelled from anywhere that is not an end.
   */
  lemma MovesExactly(from: State, to: State)
    ensures CanTransition(from, to) <==>
              || (from == Queued && (to == Building || to == Deploying))
              || (from == Building && to == Pushing)
              || (from == Pushing && to == Deploying)
              || (from == Deploying && to == Healthy)
              || (from in {Queued, Building, Pushing, Deploying} && (to == Failed || to == Cancelled))
  {
  }

  /** A transition is refused exactly for an end, a missing row or a move the table does not hold, in that order. */
  lemma TransitionIff(db: Tables, id: Id, to: State, reason: string, detail: string, at: int)
    ensures var (after, r) := TransitionTx(db, id, to, reason, detail, at);
            && (r.Ok? <==> to != Healthy && id in db.deployments && CanTransition(db.deployments[id].state, to))
            && (r == Err(NotFound) <==> to != Healthy && id !in db.deployments)
            && (r == Err(TerminalState) <==>
                  to != Healthy && id in db.deployments && db.deployments[id].state in {Healthy, Failed, Cancelled})
            && (r.Err? ==> after == db)
            && (r.Ok? ==>
                  after == db.(deployments := after.deployments) && WritesMove(db, after, id, to, reason, detail, at))
  {
  }

  /** One row moved: its state, its stamps, the reason of a failure and one event, and nothing else anywhere. */
  predicate WritesMove(db: Tables, after: Tables, id: Id, to: State, reason: string, detail: string, at: int) {
    && id in db.deployments && after.deployments.Keys == db.deployments.Keys
    && (forall d | d in db.deployments && d != id :: after.deployments[d] == db.deployments[d])
    && var d, e := db.deployments[id], after.deployments[id];
    && e == d.(state := to, failureReason := e.failureReason, startedAt := e.startedAt, finishedAt := e.finishedAt,
               log := d.log + [Event(Some(d.state), to, reason, detail, at)])
    && e.failureReason == (if to == Failed && reason != "" then reason else d.failureReason)
    && e.startedAt == (if d.startedAt.Some? || d.state != Queued then d.startedAt else Some(at))
    && e.finishedAt == (if d.finishedAt.Some? || to !in {Healthy, Failed, Cancelled} then d.finishedAt else Some(at))
  }

  /**
   * What a row's log makes of its columns, in every reachable state: it started at its first event after
   * the one it was born with, unless that cancelled it; it finished at its last, if that is an end; and its
   * reason is that event's, if it failed or was cancelled.
   */
  lemma {:induction false} StampsFromLog(d: Deployment)
    requires RowReplays(d)
    ensures d.state == d.log[|d.log| - 1].to
    ensures d.startedAt == if |d.log| > 1 && d.log[1].to != Cancelled then Some(d.log[1].at) else None
    ensures d.finishedAt == if d.state in {Healthy, Failed, Cancelled} then Some(d.log[|d.log| - 1].at) else None
    ensures d.failureReason == if d.state == Failed || d.state == Cancelled then d.log[|d.log| - 1].reason else ""
  {
    ReplayStamps(d.log);
  }

  lemma {:induction false} ReplayStamps(log: seq<Event>)
    requires LegalLog(log)
    ensures var r, last := Replay(log), log[|log| - 1];
            && r.state == last.to
            && r.startedAt == (if |log| > 1 && log[1].to != Cancelled then Some(log[1].at) else None)
            && r.finishedAt == (if last.to in {Healthy, Failed, Cancelled} then Some(last.at) else None)
            && r.reason == (if last.to == Failed || last.to == Cancelled then last.reason else "")
  {
    if |log| > 1 {
      var init := log[..|log| - 1];
      assert LegalLog(init);
      ReplayStamps(init);
      LegalLogFacts(init);
      MovesClimb(init[|init| - 1].to, log[|log| - 1].to);
    }
  }

  // ---- Deployments ---------------------------------------------------------------------------

  /**
   * A create is refused exactly for an app that is not there or deleted, and for a release that is not
   * there or another app's. Otherwise it puts in one queued row, with the release's digest if it is a
   * rollback, cancels what of the app was in flight, and touches nothing else.
   */
  lemma CreateDeploymentIff(db: Tables, app: Id, source: Source, at: int)
    requires Inv(db)
    ensures var (after, r) := CreateDeploymentTx(db, app, source, at);
            && (r == Err(AppDeleted) <==> !(app in db.apps && !db.apps[app].deleted))
            && (r.Ok? <==> && app in db.apps && !db.apps[app].deleted
                           && (source.Rollback? ==>
                                 source.release in db.releases && db.releases[source.release].app == app))
            && (r.Err? ==> after == db && r.error in {AppDeleted, NotFound})
            && (r.Ok? ==>
                  && r.value == db.nextId && after.nextId == db.nextId + 1
                  && after.apps == db.apps && after.releases == db.releases
                  && r.value !in db.deployments && after.deployments.Keys == db.deployments.Keys + {r.value}
                  && after.deployments[r.value]
                     == Deployment(app, source, Queued, "", "", "",
                                   if source.Rollback? then db.releases[source.release].imageDigest else "",
                                   "", None, at, None, None, [Event(None, Queued, "", "", at)])
                  && forall d | d in db.deployments :: SupersededIff(db.deployments[d], after.deployments[d], app, at))
  {
    hide Inv;
    CreateDeploymentKeeps(db, app, source, at);
    IdsBelow(db);
    OneInFlight(db, app);
  }

  /** Cancelled as superseded at that instant, exactly if it was this app's and in flight; else as it was. */
  predicate SupersededIff(d: Deployment, e: Deployment, app: Id, at: int) {
    if d.app == app && d.state !in {Healthy, Failed, Cancelled}
    then e == d.(state := Cancelled, failureReason := "superseded",
                 finishedAt := if d.finishedAt.Some? then d.finishedAt else Some(at),
                 log := d.log + [Event(Some(d.state), Cancelled, "superseded", "", at)])
    else e == d
  }

  /** A record leaves a column alone where it is given nothing, and touches no other column of any row. */
  lemma RecordBuildIff(db: Tables, id: Id, path: string, job: string, repo: string, digest: string)
    ensures var (after, r) := RecordBuildTx(db, id, path, job, repo, digest);
            && (r.Ok? <==> id in db.deployments) && (r.Err? ==> after == db && r == Err(NotFound))
            && (r.Ok? ==>
                  && after == db.(deployments := after.deployments) && after.deployments.Keys == db.deployments.Keys
                  && (forall d | d in db.deployments && d != id :: after.deployments[d] == db.deployments[d])
                  && var d, e := db.deployments[id], after.deployments[id];
                  && e == d.(buildPath := e.buildPath, jobName := e.jobName, imageRepo := e.imageRepo,
                             imageDigest := e.imageDigest)
                  && e.buildPath == (if path == "" then d.buildPath else path)
                  && e.jobName == (if job == "" then d.jobName else job)
                  && e.imageRepo == (if repo == "" then d.imageRepo else repo)
                  && e.imageDigest == (if digest == "" then d.imageDigest else digest))
  {
  }

  /** A promotion is refused exactly for a missing row, for an end, and for a row that is not deploying yet. */
  lemma MarkHealthyIff(db: Tables, id: Id, config: Config, at: int)
    requires Inv(db)
    ensures var (after, r) := MarkHealthyTx(db, id, config, at);
            && (r == Err(NotFound) <==> id !in db.deployments)
            && (r == Err(TerminalState) <==>
                  id in db.deployments && db.deployments[id].state in {Healthy, Failed, Cancelled})
            && (r == Err(IllegalTransition) <==>
                  id in db.deployments && db.deployments[id].state in {Queued, Building, Pushing})
            && (r.Ok? <==> id in db.deployments && db.deployments[id].state == Deploying)
            && (r.Err? ==> after == db)
  {
    hide Inv, RowReplays, HasRelease, MaxReleaseNumber;
    if id in db.deployments && db.deployments[id].state == Deploying {
      NoReleaseYet(db, id);
    }
  }

  /** In whatever state the tables were, a deploying row would be refused for a missing digest, then for a release. */
  lemma PromotionRefused(db: Tables, id: Id, config: Config, at: int)
    requires id in db.deployments && db.deployments[id].state == Deploying
    ensures var (after, r) := MarkHealthyTx(db, id, config, at);
            && (r == Err(NoDigest) <==> db.deployments[id].imageDigest == "")
            && (r == Err(ReleaseExists) <==>
                  && db.deployments[id].imageDigest != ""
                  && exists x :: x in db.releases && db.releases[x].deployment == id)
            && (r.Err? ==> after == db && r.error in {NoDigest, ReleaseExists})
  {
    hide MaxReleaseNumber, Moved, ConfigSnapshot;
  }

  /**
   * And else it moves the row, mints the app's next release with the row's own digest and the configuration
   * it was given, points the app at it, and for a rollback makes that the app's configuration again.
   */
  lemma MarkHealthyWrites(db: Tables, id: Id, config: Config, at: int)
    requires Inv(db) && id in db.deployments && db.deployments[id].state == Deploying
    ensures var (after, r) := MarkHealthyTx(db, id, config, at);
            && r.Ok? && r.value !in db.releases && r.value in after.releases && after.nextId == db.nextId + 1
            && WritesMove(db, after, id, Healthy, "", "", at)
            && Mints(db, after.releases, r.value, id, config)
            && Points(db, after.apps, db.deployments[id], r.value, config)
  {
    hide Inv, RowReplays, HasRelease, HasNumber, MaxReleaseNumber, Moved, WritesMove, Mints, Points, ConfigSnapshot;
    NoReleaseYet(db, id);
    NextNumber(db, db.deployments[id].app);
    IdsBelow(db);
    var after, d := MarkHealthyEffect(db, id, config, at);
    MovedWrites(db, after, id, Healthy, "", "", at);
    MintsNow(db, after.releases, id, config);
    PointsNow(db, after.apps, d, config);
  }

  lemma MovedWrites(db: Tables, after: Tables, id: Id, to: State, reason: string, detail: string, at: int)
    requires id in db.deployments
    requires after.deployments == db.deployments[id := Moved(db.deployments[id], to, reason, detail, at)]
    ensures WritesMove(db, after, id, to, reason, detail, at)
  {
  }

  predicate Mints(db: Tables, releases: map<Id, Release>, r: Id, id: Id, config: Config)
    requires id in db.deployments
  {
    && r in releases && releases.Keys == db.releases.Keys + {r}
    && (forall x | x in db.releases :: x in releases && releases[x] == db.releases[x])
    && var d, minted := db.deployments[id], releases[r];
    && minted.app == d.app && minted.deployment == id && minted.imageDigest == d.imageDigest
    && minted.snapshot == Document(map k | k in config :: Object(config[k].value, config[k].secret))
    && (forall x | x in db.releases && db.releases[x].app == d.app :: db.releases[x].number < minted.number)
    && (minted.number == 1 || (minted.number > 1 && HasNumber(db, d.app, minted.number - 1)))
  }

  lemma MintsNow(db: Tables, releases: map<Id, Release>, id: Id, config: Config)
    requires id in db.deployments && db.nextId !in db.releases
    requires var n := MaxReleaseNumber(db.releases, db.deployments[id].app, db.nextId);
             && (forall x | x in db.releases && db.releases[x].app == db.deployments[id].app ::
                   db.releases[x].number <= n)
             && (n == 0 || HasNumber(db, db.deployments[id].app, n))
             && releases == db.releases[db.nextId :=
                  Release(db.deployments[id].app, id, n + 1, db.deployments[id].imageDigest, ConfigSnapshot(config))]
    ensures Mints(db, releases, db.nextId, id, config)
  {
    hide MaxReleaseNumber, HasNumber;
  }

  predicate Points(db: Tables, apps: map<Id, App>, d: Deployment, r: Id, config: Config) {
    && d.app in db.apps && apps.Keys == db.apps.Keys
    && (forall a | a in db.apps && a != d.app :: apps[a] == db.apps[a])
    && apps[d.app] == db.apps[d.app].(current := Some(r), config := apps[d.app].config)
    && apps[d.app].config == (if d.source.Rollback? then config else db.apps[d.app].config)
  }

  lemma PointsNow(db: Tables, apps: map<Id, App>, d: Deployment, config: Config)
    requires d.app in db.apps
    requires apps == db.apps[d.app := db.apps[d.app].(current := Some(db.nextId),
                 config := if d.source.Rollback? then config else db.apps[d.app].config)]
    ensures Points(db, apps, d, db.nextId, config)
  {
  }

  lemma NoReleaseYet(db: Tables, id: Id)
    requires Inv(db) && id in db.deployments && db.deployments[id].state == Deploying
    ensures !HasRelease(db, id) && db.deployments[id].imageDigest != "" && db.deployments[id].app in db.apps
  {
    hide Inv, RowReplays, DecodeSnapshot, EntriesOk;
    DeploymentStands(db, id);
    if HasRelease(db, id) {
      var r :| r in db.releases && db.releases[r].deployment == id;
      ReleaseStands(db, r);
    }
  }

  lemma NextNumber(db: Tables, app: Id)
    requires Inv(db)
    ensures var n := MaxReleaseNumber(db.releases, app, db.nextId);
            && (forall x | x in db.releases && db.releases[x].app == app :: db.releases[x].number <= n)
            && (n == 0 || HasNumber(db, app, n))
  {
    hide Inv;
    IdsBelow(db);
  }

  /** A claim is taken back exactly from a row that is building, and nothing else changes. */
  lemma ReleaseClaimIff(db: Tables, id: Id)
    ensures var (after, released) := ReleaseClaimTx(db, id);
            && (released <==> id in db.deployments && db.deployments[id].state == Building)
            && (!released ==> after == db)
            && (released ==> after == db.(deployments := db.deployments[id := db.deployments[id].(claimedBy := None)]))
  {
  }

  // ---- Apps ----------------------------------------------------------------------------------

  /** The live apps of an account. */
  function LiveOf(db: Tables, account: Id): set<Id> {
    set a | a in db.apps && db.apps[a].account == account && db.apps[a].deleted == false
  }

  predicate NameFree(db: Tables, account: Id, name: string) {
    forall a | a in db.apps && !db.apps[a].deleted && db.apps[a].account == account :: db.apps[a].name != name
  }

  predicate SlugFree(db: Tables, slug: string) {
    forall a | a in db.apps :: db.apps[a].slug != slug
  }

  /**
   * A create is refused exactly for the cap on the account's live apps, for the name of a live app of the
   * account, and when every slug it tries is used, by a deleted app's too; else it takes the first that is
   * free, and touches no other app.
   */
  lemma CreateAppIff(db: Tables, account: Id, name: string, slugs: seq<string>, limit: int)
    requires Inv(db)
    ensures var (after, r) := CreateAppTx(db, account, name, slugs, limit);
            && (r == Err(AppLimit) <==> limit <= |LiveOf(db, account)|)
            && (r.Ok? <==> && |LiveOf(db, account)| < limit && NameFree(db, account, name)
                           && exists i :: 0 <= i < |slugs| && SlugFree(db, slugs[i]))
            && (r == Err(AppNameTaken) <==>
                  |LiveOf(db, account)| < limit && slugs != [] && !NameFree(db, account, name))
            && (r.Err? ==> after == db && r.error in {AppLimit, AppNameTaken, SlugTaken})
            && (r.Ok? ==>
                  && after == db.(apps := after.apps, nextId := db.nextId + 1) && r.value !in db.apps
                  && after.apps.Keys == db.apps.Keys + {r.value}
                  && (forall a | a in db.apps :: after.apps[a] == db.apps[a])
                  && FirstFree(db, slugs, after.apps[r.value].slug)
                  && after.apps[r.value] == App(account, name, after.apps[r.value].slug, None, false, map[]))
  {
    hide Inv, InsertApp;
    IdsBelow(db);
    assert LiveOf(db, account) == LiveApps(db, account);
    InsertIff(db, account, name, slugs);
  }

  predicate FirstFree(db: Tables, slugs: seq<string>, slug: string) {
    exists i :: 0 <= i < |slugs| && slugs[i] == slug && SlugFree(db, slug)
                && forall j | 0 <= j < i :: !SlugFree(db, slugs[j])
  }

  lemma {:induction false} InsertIff(db: Tables, account: Id, name: string, slugs: seq<string>)
    requires db.nextId !in db.apps
    ensures var (after, r) := InsertApp(db, account, name, slugs);
            && (r.Ok? <==> NameFree(db, account, name) && exists i :: 0 <= i < |slugs| && SlugFree(db, slugs[i]))
            && (r == Err(AppNameTaken) <==> slugs != [] && !NameFree(db, account, name))
            && (r.Err? ==> after == db && r.error in {AppNameTaken, SlugTaken})
            && (r.Ok? ==>
                  && r.value == db.nextId && r.value in after.apps && FirstFree(db, slugs, after.apps[r.value].slug)
                  && var row := App(account, name, after.apps[r.value].slug, None, false, map[]);
                  after == db.(apps := db.apps[r.value := row], nextId := db.nextId + 1))
  {
    if slugs != [] && NameFree(db, account, name) {
      if SlugFree(db, slugs[0]) {
        assert FirstFree(db, slugs, slugs[0]);
      } else {
        InsertIff(db, account, name, slugs[1..]);
        assert forall i | 0 <= i < |slugs[1..]| :: slugs[1..][i] == slugs[i + 1];
        var (after, r) := InsertApp(db, account, name, slugs[1..]);
        if r.Ok? {
          var slug := after.apps[r.value].slug;
          var i :| 0 <= i < |slugs[1..]| && slugs[1..][i] == slug && SlugFree(db, slug)
            && forall j | 0 <= j < i :: !SlugFree(db, slugs[1..][j]);
          assert slugs[i + 1] == slug;
          forall j | 0 <= j < i + 1 ensures !SlugFree(db, slugs[j]) {
            assert j > 0 ==> slugs[j] == slugs[1..][j - 1];
          }
        }
      }
    }
  }

  /** A delete is refused exactly while something of the app is in flight or there is no such live app. */
  lemma SoftDeleteIff(db: Tables, app: Id)
    requires Inv(db)
    ensures var (after, r) := SoftDeleteTx(db, app);
            && (r == Err(DeploymentInFlight) <==>
                  exists d :: d in db.deployments && db.deployments[d].app == app
                              && db.deployments[d].state !in {Healthy, Failed, Cancelled})
            && (r.Ok? <==> && app in db.apps && !db.apps[app].deleted
                           && forall d | d in db.deployments && db.deployments[d].app == app ::
                                db.deployments[d].state in {Healthy, Failed, Cancelled})
            && (r.Err? ==> after == db && r.error in {DeploymentInFlight, NotFound})
            && (r.Ok? ==> after == db.(apps := db.apps[app := db.apps[app].(deleted := true)]))
  {
    hide Inv;
    IdsBelow(db);
  }

  // ---- Configuration -------------------------------------------------------------------------

  /** Each key written holds what was asked, with the flag it was asked with; every other key is as it was. */
  lemma {:induction false} WrittenAt(c: Config, writes: seq<Write>, k: string)
    requires DistinctKeys(writes)
    ensures forall i | 0 <= i < |writes| && writes[i].key == k ::
              && k in Written(c, writes)
              && Written(c, writes)[k] == ConfigValue(writes[i].value, writes[i].secret == Some(true))
    ensures (forall i | 0 <= i < |writes| :: writes[i].key != k) ==>
              (k in Written(c, writes) <==> k in c) && (k in c ==> Written(c, writes)[k] == c[k])
  {
    if writes != [] {
      var init := writes[..|writes| - 1];
      assert forall i | 0 <= i < |init| :: init[i] == writes[i];
      WrittenAt(c, init, k);
    }
  }

  /** A set is refused exactly for a bad key or a missing app, and writes that one app's table alone. */
  lemma SetConfigIff(db: Tables, app: Id, writes: seq<Write>)
    ensures var (after, r) := SetConfigTx(db, app, writes);
            && (r.Ok? <==> writes == [] || (app in db.apps && forall w | w in writes :: ValidKey(w.key)))
            && (r.Err? ==> after == db && r == Err(InvalidKey)) && (writes == [] ==> after == db)
            && (r.Ok? && writes != [] ==>
                          && after == db.(apps := after.apps) && after.apps.Keys == db.apps.Keys
                          && (forall a | a in db.apps && a != app :: after.apps[a] == db.apps[a])
                          && after.apps[app] == db.apps[app].(config := Written(db.apps[app].config, writes)))
  {
  }

  /** What is left when every one of these keys has been taken out. */
  lemma {:induction false} RemovedIff(c: Config, keys: seq<string>)
    ensures Removed(c, keys).Some? <==>
              && (forall k | k in keys :: k in c) && forall i, j | 0 <= i < j < |keys| :: keys[i] != keys[j]
    ensures Removed(c, keys).Some? ==>
              && (forall k :: k in Removed(c, keys).value <==> k in c && k !in keys)
              && (forall k | k in Removed(c, keys).value :: Removed(c, keys).value[k] == c[k])
  {
    if keys != [] {
      var init, last := keys[..|keys| - 1], keys[|keys| - 1];
      RemovedIff(c, init);
      assert keys == init + [last];
      NamedOnce(init, last);
    }
  }

  lemma NamedOnce(init: seq<string>, last: string)
    ensures (forall i, j | 0 <= i < j < |init + [last]| :: (init + [last])[i] != (init + [last])[j])
            <==> last !in init && forall i, j | 0 <= i < j < |init| :: init[i] != init[j]
  {
    var keys := init + [last];
    assert keys[|init|] == last && forall i | 0 <= i < |init| :: keys[i] == init[i];
  }

  /** An unset is refused exactly for a key the app does not hold, a key named twice, or a missing app. */
  lemma UnsetConfigIff(db: Tables, app: Id, keys: seq<string>)
    ensures var (after, r) := UnsetConfigTx(db, app, keys);
            && (r.Ok? <==> keys == []
                           || (app in db.apps && (forall k | k in keys :: k in db.apps[app].config)
                               && forall i, j | 0 <= i < j < |keys| :: keys[i] != keys[j]))
            && (r.Err? ==> after == db && r == Err(NotFound)) && (keys == [] ==> after == db)
            && (r.Ok? && keys != [] ==>
                          && after == db.(apps := after.apps) && after.apps.Keys == db.apps.Keys
                          && (forall a | a in db.apps && a != app :: after.apps[a] == db.apps[a])
                          && after.apps[app] == db.apps[app].(config := after.apps[app].config)
                          && (forall k :: k in after.apps[app].config <==> k in db.apps[app].config && k !in keys)
                          && forall k | k in after.apps[app].config ::
                               after.apps[app].config[k] == db.apps[app].config[k])
  {
    hide Removed;
    if app in db.apps {
      RemovedIff(db.apps[app].config, keys);
    }
  }

  // ---- Retention -----------------------------------------------------------------------------

  /** How often an event is in a log, and a sweep's rule for it. */
  lemma {:induction false} RecentIff(log: seq<Event>, cutoff: int, e: Event)
    ensures multiset(Recent(log, cutoff))[e] == if e.at < cutoff then 0 else multiset(log)[e]
  {
    if log != [] {
      var init, last := log[..|log| - 1], log[|log| - 1];
      RecentIff(init, cutoff, e);
      assert log == init + [last];
    }
  }

  /**
   * What a sweep takes, exactly: the rows that ended failed or cancelled before the cutoff, with their
   * events, and of every other row the events stamped before it. It is refused by nothing in a reachable
   * state, and touches no other column and no other table.
   */
  lemma SweepTakes(full: Tables, kept: Tables, cutoff: int, d: Id, e: Event)
    requires Inv(full) && Forgets(full, kept) && d in kept.deployments
    ensures var (after, r) := RetentionTx(kept, cutoff);
            && r.Ok? && after == kept.(deployments := after.deployments)
            && after.deployments.Keys <= kept.deployments.Keys
            && var row := kept.deployments[d];
            && (d !in after.deployments <==>
                  row.state in {Failed, Cancelled} && row.finishedAt.Some? && row.finishedAt.value < cutoff)
            && (d in after.deployments ==>
                  && after.deployments[d] == row.(log := after.deployments[d].log)
                  && multiset(after.deployments[d].log)[e] == (if e.at < cutoff then 0 else multiset(row.log)[e])
                  && Within(after.deployments[d].log, row.log))
  {
    hide Inv, AgedReferenced, Forgets, Within;
    SweepForgets(full, kept, cutoff);
    RecentIff(kept.deployments[d].log, cutoff, e);
    WithinWhole(kept.deployments[d].log);
    RecentWithin(kept.deployments[d].log, kept.deployments[d].log, cutoff);
  }
}
