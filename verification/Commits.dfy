/** Where a run's step comes from: each action of a run is one body that inTx of internal/store/store.go runs. */
module Commits {
  import opened Basics
  import opened Tables
  import opened Runs
  import opened History
  import opened Transactions

  /** The body of the action's transaction: the rows it leaves and what it answers. */
  function Body(db: Tables, a: Action): (Tables, Result<(), StoreError>) {
    match a
    case CreateApp(account, name, slugs, limit) => Dropped(CreateAppTx(db, account, name, slugs, limit))
    case DeleteApp(app) => SoftDeleteTx(db, app)
    case CreateDeployment(app, source, at) => Dropped(CreateDeploymentTx(db, app, source, at))
    case SetConfig(app, writes) => SetConfigTx(db, app, writes)
    case UnsetConfig(app, keys) => UnsetConfigTx(db, app, keys)
    case ClaimNext(claimer) => Dropped(ClaimNextTx(db, claimer))
    case ReleaseClaim(id) => (ReleaseClaimTx(db, id).0, Ok(()))
    case Transition(id, to, reason, detail, at) => TransitionTx(db, id, to, reason, detail, at)
    case RecordBuild(id, path, job, repo, digest) => RecordBuildTx(db, id, path, job, repo, digest)
    case MarkHealthy(id, config, at) => Dropped(MarkHealthyTx(db, id, config, at))
  }

  function Dropped(r: (Tables, Result<Id, StoreError>)): (Tables, Result<(), StoreError>) {
    (r.0, match r.1
          case Ok(_) => Ok(())
          case Err(e) => Err(e))
  }

  lemma {:induction false} RefusedAppLeaves(db: Tables, account: Id, name: string, slugs: seq<string>)
    ensures InsertApp(db, account, name, slugs).1.Err? ==> InsertApp(db, account, name, slugs).0 == db
  {
    if slugs != [] && !NameTaken(db, account, name) && SlugUsed(db, slugs[0]) {
      RefusedAppLeaves(db, account, name, slugs[1..]);
    }
  }

  /** The body leaves what the run's step does, and a body that refuses leaves the rows as they were. */
  lemma BodyApplies(db: Tables, a: Action)
    ensures Body(db, a).0 == Apply(db, a)
    ensures Body(db, a).1.Err? ==> Apply(db, a) == db
  {
    if a.CreateApp? {
      RefusedAppLeaves(db, a.account, a.name, a.slugs);
    }
  }

  /**
   * One action, through the retries and whatever other writers commit between them: it takes effect as
   * one step of the run the others have brought about, established there, or not at all; and then it
   * was refused on the rows of that run, or the database failed it, or every attempt found it busy.
   */
  method Commit(d: Database<Tables, StoreError>, a: Action, others: seq<Tables>, ghost runs: seq<seq<Action>>,
                ghost start: seq<Action>) returns (r: Result<(), Failure<StoreError>>, ghost run: seq<Action>)
    requires d.Valid() && |others| >= BUSY_RETRIES && |runs| == |others|
    requires Legal(EMPTY, start) && d.committed == After(EMPTY, start) && Established(EMPTY, start, a)
    requires forall i | 0 <= i < |others| ::
               && start <= runs[i] && Legal(EMPTY, runs[i]) && others[i] == After(EMPTY, runs[i])
               && Established(EMPTY, runs[i], a)
    modifies d
    ensures d.Valid() && start <= run && Legal(EMPTY, run) && d.committed == After(EMPTY, run)
    ensures r.Ok? ==> run != [] && run[|run| - 1] == a
    ensures r.Err? ==> run == start || exists i :: 0 <= i < |runs| && run == runs[i]
    ensures old(d.attempts) < d.attempts
    ensures r.Err? ==>
              match r.error
              case Refused(e) => Body(d.committed, a).1 == Err(e)
              case Broken => d.turns(d.attempts - 1).Hitch() == Transactions.Failed
              case Busy =>
                && d.AllJammed(old(d.attempts), d.attempts)
                && (d.attempts == old(d.attempts) + BUSY_RETRIES || d.turns(d.attempts - 1).stopped)
  {
    hide Legal, After, Established, Body, Apply;
    ghost var began;
    r, began := d.InTx(rows => Body(rows, a), others);
    run := start;
    if began != After(EMPTY, start) {
      var i :| 0 <= i < BUSY_RETRIES && others[i] == began;
      run := runs[i];
    }
    BodyApplies(began, a);
    if r.Ok? {
      Extend(EMPTY, run, a);
      run := run + [a];
    }
  }
}
