/** The goal lifecycle: states and the legal-edge table. */
module Fsm {
  datatype State = Proposed | Approved | Executing | Verifying | Done | Failed | Paused | Cancelled

  function Legal(from: State): set<State> {
    match from
    case Proposed => {Approved, Paused, Cancelled}
    case Approved => {Executing, Paused, Cancelled}
    case Executing => {Verifying, Failed, Paused, Cancelled}
    case Verifying => {Done, Failed, Executing, Paused, Cancelled}
    case Paused => {Proposed, Approved, Executing, Verifying, Cancelled}
    case _ => {}
  }

  predicate Terminal(s: State) { s == Done || s == Failed || s == Cancelled }

  predicate CanTransition(from: State, to: State) { to in Legal(from) }

  /** States a worker may claim, and the only ones that carry a lease. */
  predicate Runnable(s: State) { s == Approved || s == Executing || s == Verifying }

  /** The table read by destination: where each state can be reached from. */
  lemma LegalByTarget(from: State, to: State)
    ensures CanTransition(from, to) <==>
      match to
      case Proposed => from == Paused
      case Approved => from == Proposed || from == Paused
      case Executing => from == Approved || from == Verifying || from == Paused
      case Verifying => from == Executing || from == Paused
      case Done => from == Verifying
      case Failed => from == Executing || from == Verifying
      case Paused => !Terminal(from) && from != Paused
      case Cancelled => !Terminal(from)
  {
  }

  /** A goal ends for good; a live one can always be cancelled, and paused unless it is. */
  lemma EndsAreFinal(from: State)
    ensures Terminal(from) <==> forall to: State :: !CanTransition(from, to)
    ensures !Terminal(from) ==> CanTransition(from, Cancelled)
    ensures Runnable(from) <==> from != Proposed && CanTransition(from, Paused)
  {
    LegalByTarget(from, Cancelled);
    assert CanTransition(from, Cancelled) || Terminal(from);
  }
}
