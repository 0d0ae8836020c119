/** The deployment state machine: internal/domain/state.go. */
module StateMachine {
  datatype State = Queued | Building | Pushing | Deploying | Healthy | Failed | Cancelled

  /** The whole transition table. Terminal states have no entry at all. */
  const ALLOWED: map<State, seq<State>> := map[
    Queued := [Building, Deploying, Failed, Cancelled],
    Building := [Pushing, Failed, Cancelled],
    Pushing := [Deploying, Failed, Cancelled],
    Deploying := [Healthy, Failed, Cancelled]
  ]

  predicate Terminal(s: State) {
    s == Healthy || s == Failed || s == Cancelled
  }

  predicate CanTransition(from: State, to: State) {
    from in ALLOWED && to in ALLOWED[from]
  }

  /** How far a deployment has got. Every legal move climbs. */
  function Rank(s: State): (r: nat)
    ensures r <= 4
    ensures r == 4 <==> Terminal(s)
  {
    match s
    case Queued => 0
    case Building => 1
    case Pushing => 2
    case Deploying => 3
    case _ => 4
  }

  /** The table is a ladder: moves climb, and the terminal states are exactly the ones nothing leaves. */
  lemma MovesClimb(from: State, to: State)
    ensures CanTransition(from, to) ==> Rank(from) < Rank(to)
    ensures Terminal(from) <==> forall t :: !CanTransition(from, t)
    ensures !Terminal(from) ==> CanTransition(from, Failed) && CanTransition(from, Cancelled)
  {
    if !Terminal(from) {
      assert CanTransition(from, Failed);
    }
  }
}
