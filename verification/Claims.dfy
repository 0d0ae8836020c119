/** Who is handed which deployment, and when: ClaimNext and ReleaseBuildingClaim of internal/store/deployments.go. */
module Claims {
  import opened Basics
  import opened StateMachine
  import opened Tables
  import opened Runs
  import opened Invariant
  import opened History
  import opened Drives

  /** Owed to somebody: in flight and unclaimed. */
  predicate Owed(db: Tables, d: Id) {
    d in db.deployments && db.deployments[d].claimedBy.None? && InFlight(db.deployments[d])
  }

  /**
   * What is claimed, exactly: the oldest owed row that is queued, and only when no owed row is queued the
   * oldest owed row of all; nothing only when nothing is owed. So a stray never overtakes fresh work.
   */
  lemma ClaimPicks(db: Tables, claimer: string)
    requires Inv(db)
    ensures var (after, r) := ClaimNextTx(db, claimer);
            && (r.Err? <==> forall d | d in db.deployments :: !Owed(db, d))
            && (r.Err? ==> after == db && r == Err(NotFound))
            && (r.Ok? ==> && Owed(db, r.value) && r.value in after.deployments && !Owed(after, r.value)
                          && after == db.(deployments := db.deployments[r.value := after.deployments[r.value]])
                          && after.deployments[r.value] == db.deployments[r.value].(claimedBy := Some(claimer))
                          && forall d | d in db.deployments && Owed(db, d) && d < r.value ::
                               db.deployments[r.value].state == Queued && db.deployments[d].state != Queued)
            && (r.Ok? && db.deployments[r.value].state != Queued ==>
                  forall d | d in db.deployments && Owed(db, d) :: db.deployments[d].state != Queued && r.value <= d)
  {
    hide Inv;
    IdsBelow(db);
  }

  /** The step hands this row to somebody. */
  predicate Hands(db: Tables, a: Action, d: Id) {
    a.ClaimNext? && NextClaim(db) == Some(d)
  }

  /** The step takes this row's claim back. */
  predicate HandsBack(db: Tables, a: Action, d: Id) {
    a == ReleaseClaim(d) && d in db.deployments && db.deployments[d].state == Building
  }

  lemma ClaimHeld(db: Tables, a: Action, d: Id)
    requires Inv(db) && Guard(db, a) && d in db.deployments && db.deployments[d].claimedBy.Some? && !HandsBack(db, a, d)
    ensures d in Apply(db, a).deployments && Apply(db, a).deployments[d].claimedBy.Some?
    ensures !Hands(db, a, d)
  {
    hide Inv, Guard, CreateAppTx, SoftDeleteTx, CreateDeploymentTx, SetConfigTx, UnsetConfigTx;
    if a.Agent() {
      StepUntouched(db, a, {}, d);
    }
  }

  /** Over a run: while nobody hands a claimed row back, nobody is handed it again. */
  lemma {:induction false} ClaimLasts(db: Tables, acts: seq<Action>, j: nat, k: nat, d: Id)
    requires Inv(db) && Legal(db, acts) && j < k <= |acts| && Hands(After(db, acts[..j]), acts[j], d)
    requires forall i | j < i < k :: !HandsBack(After(db, acts[..i]), acts[i], d)
    ensures d in After(db, acts[..k]).deployments && After(db, acts[..k]).deployments[d].claimedBy.Some?
    decreases k
  {
    hide Inv, Guard, Apply, NextClaim;
    if k == j + 1 {
      StepAt(db, acts, j);
      Handed(After(db, acts[..j]), acts[j], d);
    } else {
      ClaimLasts(db, acts, j, k - 1, d);
      StepAt(db, acts, k - 1);
      LegalPrefix(db, acts, k - 1);
      InvOverRuns(db, acts[..k - 1]);
      ClaimHeld(After(db, acts[..k - 1]), acts[k - 1], d);
    }
  }

  lemma Handed(db: Tables, a: Action, d: Id)
    requires Hands(db, a, d)
    ensures d in Apply(db, a).deployments && Apply(db, a).deployments[d].claimedBy.Some?
  {
  }

  /**
   * One row is handed to two claims only if its claim was handed back in between, which takes it to be
   * building then.
   */
  lemma OneClaimAtATime(db: Tables, acts: seq<Action>, j: nat, k: nat, d: Id)
    requires Inv(db) && Legal(db, acts) && j < k < |acts|
    requires Hands(After(db, acts[..j]), acts[j], d) && Hands(After(db, acts[..k]), acts[k], d)
    ensures exists i :: j < i < k && HandsBack(After(db, acts[..i]), acts[i], d)
  {
    hide Inv, Legal, After;
    if forall i | j < i < k :: !HandsBack(After(db, acts[..i]), acts[i], d) {
      ClaimLasts(db, acts, j, k, d);
    }
  }
}
