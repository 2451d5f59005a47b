/**
 * The loading state machine of src/loadableData.ts: where each constructor
 * starts, what each continuation does from `loading`, and that a snapshot
 * keeps exactly one phase flag and never leaves `ready` or `error`.
 */
module Lifecycle {
  import opened Wrappers
  import opened Promises
  import opened Loadable
  import opened TestUtil

  /** emptyLoadableData keeps the data it is given and is in phase `none` only. */
  lemma EmptyIsNone<T>(v: T)
    ensures var d := EmptyLoadableData(v);
      d.data == v && d.errorMessage == "" && !d.hasPromise && HasOnlyState(d, NONE)
  {
  }

  /** fromPromise and fromUrl start in phase `loading` only, holding the
      initial data (null when omitted) and no message. */
  lemma StartedIsLoading<T>(initialData: Option<T>)
    ensures var d := StartedSnapshot(initialData);
      && HasOnlyState(d, LOADING) && d.errorMessage == "" && d.hasPromise
      && (initialData.Some? ==> d.data == Value(initialData.value))
      && (initialData.None? ==> d.data == Null)
  {
  }

  /** Success from `loading` stores the result and moves to `ready` only. */
  lemma FulfilledFromLoading<D>(d: LoadableData<D>, v: D)
    requires HasOnlyState(d, LOADING)
    ensures var r := OnFulfilled(d, v);
      && HasOnlyState(r, READY) && r.data == v
      && r.errorMessage == d.errorMessage && r.hasPromise == d.hasPromise
  {
  }

  /** Failure from `loading` with a handler that returns moves to `error`
      only, stores the handler's message verbatim and keeps the data; both
      constructors agree. */
  lemma RejectedFromLoading<D>(d: LoadableData<D>, errorHandler: ErrorHandler, reason: Reason)
    requires HasOnlyState(d, LOADING) && errorHandler(reason).Returns?
    ensures var r := OnRejectedPromise(d, errorHandler, reason);
      && HasOnlyState(r, ERROR) && r.data == d.data
      && r.errorMessage == errorHandler(reason).message && r.hasPromise == d.hasPromise
    ensures OnRejectedUrl(d, errorHandler, reason) == OnRejectedPromise(d, errorHandler, reason)
  {
  }

  /** A throwing handler: fromPromise has already moved to `error` and keeps
      the old message; fromUrl has changed nothing and stays `loading`. */
  lemma ThrowingHandlerFromLoading<D>(d: LoadableData<D>, errorHandler: ErrorHandler, reason: Reason)
    requires HasOnlyState(d, LOADING) && errorHandler(reason) == Throws
    ensures var r := OnRejectedPromise(d, errorHandler, reason);
      HasOnlyState(r, ERROR) && r.data == d.data && r.errorMessage == d.errorMessage
    ensures OnRejectedUrl(d, errorHandler, reason) == d
  {
  }

  /** The continuations are not guarded by the phase: run on a `ready`
      snapshot, the failure continuation would set a second flag. Only the
      promise's single resolution keeps the partition. */
  lemma SecondSettlementWouldBreakPartition<D>(d: LoadableData<D>, errorHandler: ErrorHandler, reason: Reason)
    requires HasOnlyState(d, READY)
    ensures FlagCount(OnRejectedPromise(d, errorHandler, reason).state) == 2
  {
  }

  /** Every snapshot fromPromise's caller can observe, before or after settlement. */
  lemma FromPromiseObservation<T>(p: PromiseState<Settlement<T>>, errorHandler: Option<ErrorHandler>, initialData: Option<T>)
    ensures var d := FromPromise(p, errorHandler, initialData);
      && FlagCount(d.state) == 1 && d.hasPromise
      && (p.Pending? ==> d == StartedSnapshot(initialData))
      && (p.Settled? && p.outcome.Fulfilled? ==>
            HasOnlyState(d, READY) && d.data == Value(p.outcome.value) && d.errorMessage == "")
      && (p.Settled? && p.outcome.Rejected? ==>
            && HasOnlyState(d, ERROR) && d.data == InitialDataOrNull(initialData)
            && d.errorMessage == match HandlerOrDefault(errorHandler)(p.outcome.reason)
                                 case Returns(m) => m
                                 case Throws => "")
  {
  }

  /** Every snapshot fromUrl's caller can observe, before or after settlement. */
  lemma FromUrlObservation<J>(p: PromiseState<Result<Response, string>>, parseJson: string -> Result<J, string>,
                              errorHandler: Option<ErrorHandler>, initialData: Option<Payload<J>>)
    ensures var d := FromUrl(p, parseJson, errorHandler, initialData);
      && FlagCount(d.state) == 1 && d.hasPromise
      && (p.Pending? ==> d == StartedSnapshot(initialData))
      && (p.Settled? ==>
            match FetchSettlement(p.outcome, parseJson)
            case Fulfilled(v) => HasOnlyState(d, READY) && d.data == Value(v) && d.errorMessage == ""
            case Rejected(e) =>
              match HandlerOrDefault(errorHandler)(e)
              case Returns(m) => HasOnlyState(d, ERROR) && d.data == InitialDataOrNull(initialData) && d.errorMessage == m
              case Throws => d == StartedSnapshot(initialData))
  {
  }

  /** With a handler that returns, fromUrl's chain does what fromPromise's
      does on the settlement the response leads to. */
  lemma UrlSettlesLikePromise<J>(d: LoadableData<Nullable<Payload<J>>>, errorHandler: ErrorHandler,
                                 f: Result<Response, string>, parseJson: string -> Result<J, string>)
    requires var s := FetchSettlement(f, parseJson); s.Rejected? ==> errorHandler(s.reason).Returns?
    ensures SettleUrl(d, errorHandler, f, parseJson) == SettlePromise(d, errorHandler, FetchSettlement(f, parseJson))
  {
  }

  /** What fromPromise's caller observes after the host has made the first k
      of its resolve/reject calls. */
  function ObservedAfter<T>(attempts: seq<Settlement<T>>, k: nat,
                            errorHandler: Option<ErrorHandler>, initialData: Option<T>): (d: LoadableData<Nullable<T>>)
    requires k <= |attempts|
  {
    FromPromise(ResolveAll(Pending, attempts[..k]), errorHandler, initialData)
  }

  /** Exactly one continuation runs, once: after any number of resolve/reject
      calls the snapshot is the one the first call alone produces. */
  lemma FirstSettlementDecides<T>(attempts: seq<Settlement<T>>, k: nat,
                                  errorHandler: Option<ErrorHandler>, initialData: Option<T>)
    requires 1 <= k <= |attempts|
    ensures ObservedAfter(attempts, k, errorHandler, initialData)
            == FromPromise(Settled(attempts[0]), errorHandler, initialData)
  {
    FirstAttemptWins(attempts[..k]);
  }

  /** Phases only move forward: `none` is never observed, `loading` is only
      observed before any terminal phase, and `ready`/`error` never change. */
  lemma PhasesOnlyAdvance<T>(attempts: seq<Settlement<T>>, j: nat, k: nat,
                             errorHandler: Option<ErrorHandler>, initialData: Option<T>)
    requires j <= k <= |attempts|
    ensures var a := ObservedAfter(attempts, j, errorHandler, initialData);
            var b := ObservedAfter(attempts, k, errorHandler, initialData);
      && FlagCount(b.state) == 1 && !b.state.none
      && (b.state.loading ==> a.state.loading)
      && (!a.state.loading ==> b == a)
  {
    FirstAttemptWins(attempts[..j]);
    FirstAttemptWins(attempts[..k]);
    if 0 < j {
      assert attempts[..j][0] == attempts[..k][0];
    }
    FromPromiseObservation(ResolveAll(Pending, attempts[..k]), errorHandler, initialData);
  }

  /** What fromUrl's caller observes after the host has made the first k of
      the resolve/reject calls of fetch(url)'s promise. */
  function UrlObservedAfter<J>(attempts: seq<Result<Response, string>>, k: nat, parseJson: string -> Result<J, string>,
                               errorHandler: Option<ErrorHandler>, initialData: Option<Payload<J>>): (d: LoadableData<Nullable<Payload<J>>>)
    requires k <= |attempts|
  {
    FromUrl(ResolveAll(Pending, attempts[..k]), parseJson, errorHandler, initialData)
  }

  /** The same forward-only movement for fromUrl. A throwing handler keeps it
      in `loading` for good, which is still forward-only. */
  lemma UrlPhasesOnlyAdvance<J>(attempts: seq<Result<Response, string>>, j: nat, k: nat, parseJson: string -> Result<J, string>,
                                errorHandler: Option<ErrorHandler>, initialData: Option<Payload<J>>)
    requires j <= k <= |attempts|
    ensures var a := UrlObservedAfter(attempts, j, parseJson, errorHandler, initialData);
            var b := UrlObservedAfter(attempts, k, parseJson, errorHandler, initialData);
      && FlagCount(b.state) == 1 && !b.state.none
      && (b.state.loading ==> a.state.loading)
      && (!a.state.loading ==> b == a)
  {
    FirstAttemptWins(attempts[..j]);
    FirstAttemptWins(attempts[..k]);
    if 0 < j {
      assert attempts[..j][0] == attempts[..k][0];
    }
    FromUrlObservation(ResolveAll(Pending, attempts[..k]), parseJson, errorHandler, initialData);
  }

  /** With the default handler, fromPromise ends in `error` exactly when the
      promise rejects, and then its message is non-empty exactly when the
      reason converts to a string; outside `error` the message is empty. */
  lemma DefaultMessageIffError<T>(p: PromiseState<Settlement<T>>, initialData: Option<T>)
    ensures var d := FromPromise(p, None, initialData);
      && (d.state.error <==> p.Settled? && p.outcome.Rejected?)
      && (p.Settled? && p.outcome.Rejected? ==> (d.errorMessage != "" <==> p.outcome.reason.Printable?))
      && (d.errorMessage != "" ==> d.state.error)
  {
  }

  /** A reason without a string conversion makes the default handler throw
      after the flags have moved: `error` with an empty message. */
  lemma UnprintableReasonLeavesMessageEmpty<T>(initialData: Option<T>)
    ensures var d := FromPromise(Settled(Rejected(Unprintable)), None, initialData);
      HasOnlyState(d, ERROR) && d.errorMessage == "" && d.data == InitialDataOrNull(initialData)
  {
  }

  /** Every reason fromUrl's chain can reject with (a transport error, the
      encoded status line, a JSON syntax error) converts to a string, so with
      the default handler the message is non-empty exactly in phase `error`. */
  lemma DefaultMessageIffErrorUrl<J>(p: PromiseState<Result<Response, string>>, parseJson: string -> Result<J, string>,
                                     initialData: Option<Payload<J>>)
    ensures var d := FromUrl(p, parseJson, None, initialData); d.errorMessage != "" <==> d.state.error
  {
  }

  /** A custom handler may return "", leaving an `error` snapshot with an empty message. */
  lemma CustomHandlerMayLeaveMessageEmpty()
    ensures var d := FromPromise<string>(Settled(Rejected(Printable("failure"))), Some((e: Reason) => Returns("")), None);
      HasOnlyState(d, ERROR) && d.errorMessage == ""
  {
  }

  /** The default message is the fixed prefix followed by the reason's string
      form, and that string can be recovered from it; a reason without a
      string form makes the default handler throw. */
  lemma DefaultHandlerKeepsReason(reason: Reason)
    ensures DefaultErrorHandler(reason).Returns? <==> reason.Printable?
    ensures reason.Printable? ==>
      var m := DefaultErrorHandler(reason).message;
      && |DefaultMessagePrefix| <= |m| && m[..|DefaultMessagePrefix|] == DefaultMessagePrefix
      && m[|DefaultMessagePrefix|..] == reason.text
  {
  }

  /** Distinct reasons give distinct outcomes of the default handler. */
  lemma DefaultHandlerInjective(r1: Reason, r2: Reason)
    requires DefaultErrorHandler(r1) == DefaultErrorHandler(r2)
    ensures r1 == r2
  {
    DefaultHandlerKeepsReason(r1);
    DefaultHandlerKeepsReason(r2);
  }

  /** An ok response without the exact JSON content type is never parsed:
      the outcome is its text whatever the JSON parser would do. */
  lemma TextBodyNeverParsed<J>(r: Response, parse1: string -> Result<J, string>, parse2: string -> Result<J, string>)
    requires IsOk(r.status) && r.contentType != Some(JsonMediaType)
    ensures InterpretResponse(r, parse1) == InterpretResponse(r, parse2) == Fulfilled(Text(r.body))
  {
  }

  /** A non-ok response fails with a reason from which status and status
      text can be read back. */
  lemma NonOkReasonDecodes<J>(r: Response, parseJson: string -> Result<J, string>)
    requires !IsOk(r.status)
    ensures var s := FetchSettlement(Success(r), parseJson);
      s.Rejected? && s.reason.Printable? && ParseStatusReason(s.reason.text) == Some((r.status, r.statusText))
  {
    StatusReasonRoundTrip(r.status, r.statusText);
  }
}
