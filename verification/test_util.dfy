/**
 * The "exactly one phase flag" predicate of src/testUtil.ts, which the tests
 * use as the snapshot invariant, and its relation to simpler readings of it.
 */
module TestUtil {
  import opened Loadable

  /** The phases, named as in the source's enum. */
  datatype StateType = NONE | LOADING | READY | ERROR

  /** True when `state` is the only flag of d that is set. */
  predicate HasOnlyState<D>(d: LoadableData<D>, state: StateType)
  {
    match state
    case NONE => d.state.none && !d.state.loading && !d.state.ready && !d.state.error
    case LOADING => !d.state.none && d.state.loading && !d.state.ready && !d.state.error
    case READY => !d.state.none && !d.state.loading && d.state.ready && !d.state.error
    case ERROR => !d.state.none && !d.state.loading && !d.state.ready && d.state.error
  }

  /** The flag record in which only the given phase is set. */
  function OneHot(state: StateType): (s: States)
  {
    States(none := state == NONE, loading := state == LOADING, ready := state == READY, error := state == ERROR)
  }

  /** How many of the four flags are set. */
  function FlagCount(s: States): (n: nat)
  {
    (if s.none then 1 else 0) + (if s.loading then 1 else 0)
    + (if s.ready then 1 else 0) + (if s.error then 1 else 0)
  }

  /** HasOnlyState(d, t) says exactly that d's flags are the one-hot record of t. */
  lemma HasOnlyStateIsOneHot<D>(d: LoadableData<D>, state: StateType)
    ensures HasOnlyState(d, state) <==> d.state == OneHot(state)
  {
  }

  /** No snapshot has two "only" states. */
  lemma AtMostOneState<D>(d: LoadableData<D>, s1: StateType, s2: StateType)
    requires HasOnlyState(d, s1) && HasOnlyState(d, s2)
    ensures s1 == s2
  {
  }

  /** Some state is the only one set exactly when one flag is set. */
  lemma ExactlyOneFlag<D>(d: LoadableData<D>)
    ensures (exists state :: HasOnlyState(d, state)) <==> FlagCount(d.state) == 1
  {
    if FlagCount(d.state) == 1 {
      if d.state.none {
        assert HasOnlyState(d, NONE);
      } else if d.state.loading {
        assert HasOnlyState(d, LOADING);
      } else if d.state.ready {
        assert HasOnlyState(d, READY);
      } else {
        assert HasOnlyState(d, ERROR);
      }
    }
  }
}
