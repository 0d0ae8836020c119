/**
 * What makes each transaction of this model one step: inTx and writeTx of internal/store/store.go.
 * A body reads and writes the database under the write lock its BEGIN IMMEDIATE takes; an attempt that
 * cannot take the lock in time is tried again, and any error rolls the attempt back whole.
 */
module Transactions {
  import opened Basics

  const BUSY_RETRIES := 3

  datatype Failure<E> = Busy | Refused(error: E) | Broken

  /** What the database answers a statement of its own: BEGIN IMMEDIATE, or COMMIT. */
  datatype Answer = Granted | Jammed | Failed

  /** One attempt as the database has it, and whether the caller gives up after it. */
  datatype Turn = Turn(begin: Answer, commit: Answer, stopped: bool)
  {
    /** Why an attempt whose body refuses nothing does not go through. */
    function Hitch(): Answer {
      if begin != Granted then begin else commit
    }
  }

  function Cause<E>(a: Answer): Failure<E> {
    if a == Jammed then Busy else Broken
  }

  class Database<Rows(!new), E(!new)> {
    /** What the database answers at the k-th attempt is not the store's to say. */
    const turns: nat -> Turn
    var attempts: nat
    /** What every connection reads: the last committed rows. */
    var committed: Rows
    /** What the connection holding the write lock has written so far. */
    var working: Rows
    var locked: bool

    constructor (rows: Rows, turns: nat -> Turn)
      ensures Valid() && committed == rows && this.turns == turns && attempts == 0
    {
      this.turns, attempts, committed, working, locked := turns, 0, rows, rows, false;
    }

    /** Between transactions nobody holds the lock and nothing is half written. */
    ghost predicate Valid()
      reads this
    {
      !locked && working == committed
    }

    /** Other writers, each of them a whole transaction, while this one waits. */
    method Others(later: Rows)
      requires Valid()
      modifies this`committed, this`working
      ensures Valid() && committed == later
    {
      committed, working := later, later;
    }

    /**
     * One attempt. Either it commits exactly what the body makes of the rows it began with, or nothing it
     * wrote is ever seen; and the lock is given back either way. It fails only for what the body refuses,
     * or for the first of BEGIN and COMMIT that is not granted.
     */
    method WriteTx<A>(body: Rows -> (Rows, Result<A, E>)) returns (r: Result<A, Failure<E>>)
      requires Valid()
      modifies this
      ensures Valid()
      ensures r.Ok? ==> body(old(committed)) == (committed, Ok(r.value))
      ensures r.Err? ==> committed == old(committed)
      ensures attempts == old(attempts) + 1
      ensures var turn, answer := turns(old(attempts)), body(old(committed)).1;
              r.Err? ==>
                && (turn.Hitch() != Granted || answer.Err?)
                && r.error == if turn.begin == Granted && answer.Err? then Refused(answer.error)
                              else Cause(turn.Hitch())
    {
      var turn := turns(attempts);
      attempts := attempts + 1;
      // BEGIN IMMEDIATE, which waits for the lock as long as the busy timeout allows.
      if turn.begin != Granted {
        return Err(Cause(turn.begin));
      }
      locked := true;
      var (rows, answer) := body(working);
      working := rows;
      var done := false;
      if answer.Err? {
        r := Err(Refused(answer.error));
      } else if turn.commit != Granted {
        r := Err(Cause(turn.commit));
      } else {
        committed, done := working, true;
        r := Ok(answer.value);
      }
      if !done {
        working := committed;
      }
      locked := false;
    }

    /** Every attempt from this one to that found the database busy. */
    ghost predicate AllJammed(from: nat, to: nat) {
      forall k | from <= k < to :: turns(k).Hitch() == Jammed
    }

    /**
     * Retries a busy attempt a few times. Whatever happens in between, the body took effect exactly once,
     * on the rows as they stood when its own attempt began, or not at all. It is given up as busy only when
     * every attempt was, and there were three or the caller stopped.
     */
    method InTx<A>(body: Rows -> (Rows, Result<A, E>), others: seq<Rows>) returns (r: Result<A, Failure<E>>,
                   ghost began: Rows)
      requires Valid() && |others| >= BUSY_RETRIES
      modifies this
      ensures Valid()
      ensures r.Ok? ==> body(began) == (committed, Ok(r.value))
      ensures r.Err? ==> committed == began
      ensures r.Err? && r.error.Refused? ==> body(began).1 == Err(r.error.error)
      ensures began == old(committed) || began in others[..BUSY_RETRIES]
      ensures old(attempts) < attempts <= old(attempts) + 3 && AllJammed(old(attempts), attempts - 1)
      ensures forall k | old(attempts) <= k < attempts - 1 :: !turns(k).stopped
      ensures r == Err(Broken) ==> turns(attempts - 1).Hitch() == Failed
      ensures r == Err(Busy) ==>
                && turns(attempts - 1).Hitch() == Jammed
                && (attempts == old(attempts) + 3 || turns(attempts - 1).stopped)
    {
      began := committed;
      r := Err(Busy);
      for attempt := 0 to BUSY_RETRIES
        invariant Valid() && committed == began && attempts == old(attempts) + attempt
        invariant r == Err(Busy) && AllJammed(old(attempts), attempts)
        invariant forall k | old(attempts) <= k < attempts :: !turns(k).stopped
        invariant began == old(committed) || began in others[..attempt]
      {
        assert others[..attempt + 1] == others[..attempt] + [others[attempt]];
        BeganThen(old(committed), began, others, attempt);
        r := WriteTx(body);
        if r != Err(Busy) || turns(attempts - 1).stopped {
          return;
        }
        Others(others[attempt]);
        began := committed;
      }
    }

    lemma BeganThen(first: Rows, began: Rows, others: seq<Rows>, n: nat)
      requires n <= BUSY_RETRIES <= |others| && (began == first || began in others[..n])
      ensures began == first || began in others[..BUSY_RETRIES]
    {
      assert others[..n] <= others[..BUSY_RETRIES];
    }
  }
}
