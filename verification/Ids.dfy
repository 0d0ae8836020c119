/**
 * How ids are drawn: internal/ids/ids.go over a ULID of a millisecond and monotonic entropy. An id is
 * modelled as the number its fixed width text spells, so text order is number order.
 */
module Ids {
  import opened Basics

  /** Eighty bits of entropy below forty-eight bits of milliseconds. */
  const ENTROPY: int := 0x1_0000_0000_0000_0000_0000

  function Ulid(ms: nat, entropy: nat): nat {
    ms * ENTROPY + entropy
  }

  lemma UlidOrder(ms: nat, e: nat, ns: nat, f: nat)
    requires e < ENTROPY && f < ENTROPY
    ensures Ulid(ms, e) < Ulid(ns, f) <==> ms < ns || (ms == ns && e < f)
  {
  }

  class Generator {
    /** The high water mark, and the entropy drawn with it if this process has drawn any. */
    var lastMs: nat
    var entropy: Option<nat>
    ghost var drawn: seq<nat>

    /** A process starts with no high water mark, whatever was drawn before it. */
    constructor ()
      ensures Valid() && drawn == []
    {
      lastMs, entropy, drawn := 0, None, [];
    }

    ghost predicate Valid()
      reads this
    {
      && (entropy.Some? ==> entropy.value < ENTROPY)
      && (entropy.None? <==> drawn == [])
      && (drawn != [] ==> drawn[|drawn| - 1] == Ulid(lastMs, entropy.value))
      && Increasing(drawn)
    }

    /**
     * A fresh id stamped with ms, or with the high water mark when that is later. Within one millisecond
     * the entropy climbs by a random step of at least one, and is drawn afresh in a new one; there is no id
     * exactly when the climb leaves the eighty bits, which is a panic. Whatever order the clock readings
     * arrive in, ids come out strictly increasing.
     */
    method New(ms: nat, random: nat) returns (id: Option<nat>)
      requires Valid() && random < ENTROPY
      modifies this
      ensures Valid()
      ensures id.None? ==> drawn == old(drawn)
      ensures id.Some? ==> drawn == old(drawn) + [id.value] && forall d | d in old(drawn) :: d < id.value
      ensures id.Some? ==> Stamped(id.value, if ms < old(lastMs) then old(lastMs) else ms)
      ensures id.None? <==>
                ms <= old(lastMs) && old(entropy).Some? && ENTROPY <= old(entropy).value + 1 + random
      ensures id.Some? ==>
                id.value == if ms <= old(lastMs) && old(entropy).Some?
                            then Ulid(old(lastMs), old(entropy).value + 1 + random)
                            else Ulid(if ms < old(lastMs) then old(lastMs) else ms, random)
    {
      var stamp := if ms < lastMs then lastMs else ms;
      var next := random;
      if entropy.Some? && stamp == lastMs {
        // Monotonic: the same millisecond climbs by a random step of at least one.
        next := entropy.value + 1 + random;
        if next >= ENTROPY {
          return None;
        }
      }
      Climbs(drawn, lastMs, entropy, stamp, next);
      lastMs, entropy := stamp, Some(next);
      id := Some(Ulid(stamp, next));
      drawn := drawn + [id.value];
    }
  }

  /** The next id is above everything drawn. */
  lemma Climbs(drawn: seq<nat>, lastMs: nat, entropy: Option<nat>, stamp: nat, next: nat)
    requires Increasing(drawn) && (entropy.None? <==> drawn == []) && lastMs <= stamp && next < ENTROPY
    requires drawn != [] ==> entropy.value < ENTROPY && drawn[|drawn| - 1] == Ulid(lastMs, entropy.value)
    requires drawn != [] && stamp == lastMs ==> entropy.value < next
    ensures forall d | d in drawn :: d < Ulid(stamp, next)
    ensures Increasing(drawn + [Ulid(stamp, next)]) && Stamped(Ulid(stamp, next), stamp)
  {
  }

  predicate Increasing(s: seq<nat>) {
    forall i, j | 0 <= i < j < |s| :: s[i] < s[j]
  }

  /** The id carries this millisecond. */
  predicate Stamped(id: nat, ms: nat) {
    ms * ENTROPY <= id < (ms + 1) * ENTROPY
  }

  /**
   * Across a restart the high water mark is lost. The first id of the new process is above the last of
   * the old one, whatever entropy either draws, exactly when its stamp is a later millisecond.
   */
  lemma RestartKeepsOrderIff(ms: nat, ns: nat)
    ensures (forall e: nat, f: nat | e < ENTROPY && f < ENTROPY :: Ulid(ms, e) < Ulid(ns, f)) <==> ms < ns
  {
    forall e: nat, f: nat | e < ENTROPY && f < ENTROPY
        ensures Ulid(ms, e) < Ulid(ns, f) <==> ms < ns || (ms == ns && e < f) {
      UlidOrder(ms, e, ns, f);
    }
    assert !(ms < ns) ==> !(Ulid(ms, 0) < Ulid(ns, 0));
  }

  /** One process's ids after another's, when the clock has moved on a millisecond, are one increasing sequence. */
  lemma RestartedSequence(before: seq<nat>, after: seq<nat>, ms: nat, ns: nat)
    requires Increasing(before) && Increasing(after)
    requires before != [] ==> Stamped(before[|before| - 1], ms)
    requires after != [] ==> Stamped(after[0], ns)
    requires ms < ns
    ensures Increasing(before + after)
  {
  }
}
