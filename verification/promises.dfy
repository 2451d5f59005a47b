/**
 * The single-resolution promise the host runtime supplies. Only what the
 * loadable-data continuations rely on is modelled: a promise settles at most
 * once, and every resolve or reject call after the first is ignored.
 */
module Promises {

  /** A rejection reason as a template literal sees it: the string its
      conversion gives, or a value whose conversion throws (a Symbol, or an
      object with no usable toString). */
  datatype Reason = Printable(text: string) | Unprintable

  /** How a promise of a T settles. */
  datatype Settlement<T> = Fulfilled(value: T) | Rejected(reason: Reason)

  /** A promise whose settlement is of type S. */
  datatype PromiseState<S> = Pending | Settled(outcome: S)

  /** One call of the promise's resolve or reject function. */
  function Resolve<S>(p: PromiseState<S>, s: S): (r: PromiseState<S>)
  {
    if p.Pending? then Settled(s) else p
  }

  /** The promise after the host has made the given resolve/reject calls in order. */
  function ResolveAll<S>(p: PromiseState<S>, attempts: seq<S>): (r: PromiseState<S>)
    decreases |attempts|
  {
    if |attempts| == 0 then p else ResolveAll(Resolve(p, attempts[0]), attempts[1..])
  }

  /** A settled promise never changes again. */
  lemma {:induction false} SettledIsFinal<S>(p: PromiseState<S>, attempts: seq<S>)
    requires p.Settled?
    ensures ResolveAll(p, attempts) == p
    decreases |attempts|
  {
    if |attempts| > 0 {
      SettledIsFinal(Resolve(p, attempts[0]), attempts[1..]);
    }
  }

  /** Whatever the host does, the first resolve/reject call decides the outcome. */
  lemma {:induction false} FirstAttemptWins<S>(attempts: seq<S>)
    ensures |attempts| == 0 ==> ResolveAll(Pending, attempts) == Pending
    ensures |attempts| > 0 ==> ResolveAll(Pending, attempts) == Settled(attempts[0])
  {
    if |attempts| > 0 {
      SettledIsFinal(Settled(attempts[0]), attempts[1..]);
    }
  }
}
