/** A drive that leaves its row in flight: the process dies with its first call, and every write is lost. */
module Stuck {
  import opened Basics
  import opened StateMachine
  import opened Tables
  import opened Runs
  import opened Invariant
  import opened History
  import opened Stores
  import opened Calls
  import opened Clusters
  import opened Driving
  import opened Passes
  import opened Example
  import opened Reconciling

  /** Nobody else acts, the process dies at once, and no call lands. */
  function Silent(k: nat): Turn {
    Turn(0, false, true, [], Lost, false, Ok(false), JobRunning, "", false, false)
  }

  /** A store holding what these actions make of an empty one. */
  method Prepared(acts: seq<Action>) returns (store: Store)
    ensures fresh(store) && store.db == After(EMPTY, acts)
  {
    hide Apply;
    store := new Store();
    for i := 0 to |acts|
      invariant fresh(store) && store.db == After(EMPTY, acts[..i])
    {
      store.Perform(acts[i]);
      assert acts[..i + 1][..i] == acts[..i];
    }
    assert acts[..|acts|] == acts;
  }

  /** The build is under way, the drive begins, and when it is over the row is still building: its failure was lost. */
  method DriveLeavesBuilding() returns (r: Reconciler)
    ensures 1 in r.store.db.deployments && r.store.db.deployments[1].state == Building
    ensures r.Evident(0, FailureLost(1))
  {
    hide Legal, After, Inv, Logged, Later, Driven, Shown, InSync;
    UnderwayIs();
    EmptyInv();
    InvOverRuns(EMPTY, Underway());
    var store := Prepared(Underway());
    r := new Reconciler(store, Options("pod", "host", 100, 50, 50, 1, 0), Silent, map[], 12, Underway());
    RowInSync(store.db, 1);
    var v := DeploymentRow(1, store.db.deployments[1]);
    ghost var before := r.Marked();
    r.Drive(v);
    NothingLanded(r, before);
  }

  lemma NothingLanded(r: Reconciler, before: Mark)
    requires r.Valid() && r.world == Silent && r.history == Underway()
    ensures r.store.db == After(EMPTY, Underway())
  {
    hide Legal, After, ClusterOk;
    MuteWorld(r.world, r.opts.interval, r.since, r.calls);
    assert r.history + [] == r.history;
  }
}
