/**
 * The measurement-basis interface (basis.h).
 *
 * A basis answers four read-only queries for a site s and an outcome n: the state used to
 * contract the measured site out, the state the collapsed site is re-seeded with, the
 * projector whose expectation value is the outcome's probability, and a display label.
 * Every variant supplies state, proj and statestr; newstate is optional and, when a variant
 * does not override it, answers what state answers. The queries are functions, so asking
 * them never changes the basis.
 */
module Basis {
  import opened Wrappers

  datatype Basis<T> = Basis(
    state: (int, int) -> T,
    newstateOverride: Option<(int, int) -> T>,
    proj: (int, int) -> T,
    statestr: (int, int) -> string)

  /** Basis::newstate: a variant without its own newstate re-seeds a site with exactly the
      state it was measured against; one with an override answers with the override. */
  function NewState<T>(b: Basis<T>, s: int, n: int): (r: T)
    ensures b.newstateOverride.None? ==> r == b.state(s, n)
    ensures b.newstateOverride.Some? ==> r == b.newstateOverride.value(s, n)
  {
    match b.newstateOverride
    case None => b.state(s, n)
    case Some(f) => f(s, n)
  }
}
