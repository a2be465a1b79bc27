/** The toggle rule both accordions use: one slot holding the open index, or none. */
module Accordion {
  import opened Wrappers

  predicate IsOpen(open: Option<nat>, i: nat)
  {
    open == Some(i)
  }

  /** `prev === index ? null : index`. */
  function Toggle(open: Option<nat>, i: nat): (r: Option<nat>)
    ensures IsOpen(open, i) ==> r == None
    ensures !IsOpen(open, i) ==> IsOpen(r, i)
    ensures forall j :: IsOpen(r, j) ==> j == i
  {
    if open == Some(i) then None else Some(i)
  }

  /** After a toggle, index `j` is open exactly when it is the toggled index and was closed
      before; in particular no two indices are ever open together. */
  lemma ToggleOpens(open: Option<nat>, i: nat, j: nat)
    ensures IsOpen(Toggle(open, i), j) <==> j == i && !IsOpen(open, i)
  {
  }

  /** Toggling the same index twice leaves it open only if it was open to begin with, and
      closes whatever else was open. */
  lemma ToggleTwice(open: Option<nat>, i: nat)
    ensures Toggle(Toggle(open, i), i) == (if IsOpen(open, i) then Some(i) else None)
  {
  }
}
