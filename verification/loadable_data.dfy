/**
 * The loading lifecycle of src/loadableData.ts. A snapshot holds four phase
 * flags, a data payload and an error message. The source mutates one shared
 * snapshot when the wrapped promise settles; here each mutation is a function
 * from the snapshot before to the snapshot after.
 */
module Loadable {
  import opened Wrappers
  import opened Promises
  import opened JsonStringify

  /** The phase flags; the source keeps them as four independent booleans. */
  datatype States = States(none: bool, loading: bool, ready: bool, error: bool)

  /** A JavaScript value that may be `null`. */
  datatype Nullable<T> = Null | Value(value: T)

  /** The snapshot callers observe. `hasPromise` says whether the optional
      `promise` property is set; the promise object itself is opaque. */
  datatype LoadableData<D> = LoadableData(data: D, state: States, errorMessage: string, hasPromise: bool)

  /** What an error handler does with a rejection reason: return a message, or throw. */
  datatype Handled = Returns(message: string) | Throws

  type ErrorHandler = Reason -> Handled

  const DefaultMessagePrefix := "Failed to load data. "

  /** A template literal `prefix${reason}`: the prefix followed by the reason's
      string conversion, or an exception when the reason has none. */
  function Interpolate(prefix: string, reason: Reason): (r: Handled)
    ensures r.Returns? <==> reason.Printable?
    ensures r.Returns? ==> |prefix| <= |r.message| && r.message[..|prefix|] == prefix
  {
    match reason
    case Printable(t) => Returns(prefix + t)
    case Unprintable => Throws
  }

  /** The handler both constructors use when the caller passes none. */
  function DefaultErrorHandler(reason: Reason): (r: Handled)
  {
    Interpolate(DefaultMessagePrefix, reason)
  }

  function HandlerOrDefault(errorHandler: Option<ErrorHandler>): (h: ErrorHandler)
  {
    match errorHandler
    case Some(h) => h
    case None => DefaultErrorHandler
  }

  /** An omitted `initialData` argument defaults to `null`. */
  function InitialDataOrNull<T>(initialData: Option<T>): (v: Nullable<T>)
  {
    match initialData
    case Some(v) => Value(v)
    case None => Null
  }

  function EmptyStates(): (s: States)
  {
    States(none := true, loading := false, ready := false, error := false)
  }

  function EmptyLoadableData<T>(initialData: T): (d: LoadableData<T>)
  {
    LoadableData(initialData, EmptyStates(), "", false)
  }

  /** The snapshot fromPromise and fromUrl return before their source settles. */
  function StartedSnapshot<T>(initialData: Option<T>): (d: LoadableData<Nullable<T>>)
  {
    LoadableData(
      InitialDataOrNull(initialData),
      States(none := false, loading := true, ready := false, error := false),
      "",
      true)
  }

  /** The success continuation (the same in both constructors). */
  function OnFulfilled<D>(d: LoadableData<D>, value: D): (r: LoadableData<D>)
  {
    d.(data := value, state := d.state.(loading := false, ready := true))
  }

  /** fromPromise's failure continuation: the flags change first, then the
      handler is called; a throwing handler leaves the message as it was. */
  function OnRejectedPromise<D>(d: LoadableData<D>, errorHandler: ErrorHandler, reason: Reason): (r: LoadableData<D>)
  {
    var flagged := d.(state := d.state.(loading := false, error := true));
    match errorHandler(reason)
    case Returns(m) => flagged.(errorMessage := m)
    case Throws => flagged
  }

  /** fromUrl's failure continuation: the handler is called first, so a
      throwing handler leaves the snapshot untouched. */
  function OnRejectedUrl<D>(d: LoadableData<D>, errorHandler: ErrorHandler, reason: Reason): (r: LoadableData<D>)
  {
    match errorHandler(reason)
    case Returns(m) => d.(errorMessage := m, state := d.state.(loading := false, error := true))
    case Throws => d
  }

  /** The `.then(...).catch(...)` chain fromPromise attaches, run on a settlement. */
  function SettlePromise<T>(d: LoadableData<Nullable<T>>, errorHandler: ErrorHandler, s: Settlement<T>): (r: LoadableData<Nullable<T>>)
  {
    match s
    case Fulfilled(v) => OnFulfilled(d, Value(v))
    case Rejected(e) => OnRejectedPromise(d, errorHandler, e)
  }

  /** What the caller of fromPromise observes while the promise is in state p. */
  function FromPromise<T>(p: PromiseState<Settlement<T>>, errorHandler: Option<ErrorHandler>, initialData: Option<T>): (r: LoadableData<Nullable<T>>)
  {
    var d := StartedSnapshot(initialData);
    match p
    case Pending => d
    case Settled(s) => SettlePromise(d, HandlerOrDefault(errorHandler), s)
  }

  // ----- fromUrl -----

  /** What fetch resolves to: status, reason phrase, the `content-type`
      header if present, and the body text. */
  datatype Response = Response(status: nat, statusText: string, contentType: Option<string>, body: string)

  /** A successful body: the raw text, or the value JSON parsing produced. */
  datatype Payload<J> = Text(text: string) | Json(json: J)

  /** Response.ok: the status is in the 2xx (successful) class of RFC 9110 section 15.3. */
  predicate IsOk(status: nat) {
    200 <= status <= 299
  }

  /** The JSON media type of RFC 8259 section 11. */
  const JsonMediaType := "application/json"

  const CodeKey := "{\"code\":"
  const TextKey := ",\"text\":"

  /** JSON.stringify({ code: status, text: statusText }). */
  function StatusReason(status: nat, statusText: string): (s: string)
  {
    CodeKey + NatToDecimal(status) + TextKey + Quote(statusText) + "}"
  }

  /** Reads back a reason of exactly the shape StatusReason writes. */
  function ParseStatusReason(s: string): (r: Option<(nat, string)>)
  {
    if |s| < |CodeKey| || s[..|CodeKey|] != CodeKey then None
    else
      var rest := s[|CodeKey|..];
      var k := DigitRun(rest);
      if k == 0 then None
      else
        var afterCode := rest[k..];
        if |afterCode| < |TextKey| || afterCode[..|TextKey|] != TextKey then None
        else
          var text := ReadQuoted(afterCode[|TextKey|..]);
          if text.Some? && text.value.1 == "}" then Some((DecimalValue(rest[..k]), text.value.0))
          else None
  }

  /** The first `.then` of fromUrl: the result or rejection a response leads to.
      `parseJson` stands for response.json(): the parsed value, or the
      string form of the error its rejection carries. */
  function InterpretResponse<J>(r: Response, parseJson: string -> Result<J, string>): (s: Settlement<Payload<J>>)
    ensures s.Fulfilled? && s.value.Json? <==>
              IsOk(r.status) && r.contentType == Some(JsonMediaType) && parseJson(r.body).Success?
    ensures s.Fulfilled? && s.value.Json? ==> s.value.json == parseJson(r.body).value
    ensures s.Fulfilled? && s.value.Text? <==> IsOk(r.status) && r.contentType != Some(JsonMediaType)
    ensures s.Fulfilled? && s.value.Text? ==> s.value.text == r.body
    ensures !IsOk(r.status) ==> s == Rejected(Printable(StatusReason(r.status, r.statusText)))
    ensures IsOk(r.status) && s.Rejected? ==>
              parseJson(r.body).Failure? && s.reason == Printable(parseJson(r.body).error)
  {
    if IsOk(r.status) then
      if r.contentType == Some(JsonMediaType) then
        match parseJson(r.body)
        case Success(j) => Fulfilled(Json(j))
        case Failure(e) => Rejected(Printable(e))
      else Fulfilled(Text(r.body))
    else Rejected(Printable(StatusReason(r.status, r.statusText)))
  }

  /** How the promise the success and failure continuations of fromUrl are
      attached to settles, given how fetch(url) settled: a transport failure
      (the string form of its error) passes through, a response is interpreted. */
  function FetchSettlement<J>(f: Result<Response, string>, parseJson: string -> Result<J, string>): (s: Settlement<Payload<J>>)
    ensures s.Rejected? ==> s.reason.Printable?
  {
    match f
    case Failure(e) => Rejected(Printable(e))
    case Success(r) => InterpretResponse(r, parseJson)
  }

  /** The whole chain fromUrl attaches to fetch(url), run on its outcome. */
  function SettleUrl<J>(d: LoadableData<Nullable<Payload<J>>>, errorHandler: ErrorHandler,
                        f: Result<Response, string>, parseJson: string -> Result<J, string>): (r: LoadableData<Nullable<Payload<J>>>)
  {
    match FetchSettlement(f, parseJson)
    case Fulfilled(v) => OnFulfilled(d, Value(v))
    case Rejected(e) => OnRejectedUrl(d, errorHandler, e)
  }

  /** What the caller of fromUrl observes while fetch(url) is in state p. */
  function FromUrl<J>(p: PromiseState<Result<Response, string>>, parseJson: string -> Result<J, string>,
                      errorHandler: Option<ErrorHandler>, initialData: Option<Payload<J>>): (r: LoadableData<Nullable<Payload<J>>>)
  {
    var d := StartedSnapshot(initialData);
    match p
    case Pending => d
    case Settled(f) => SettleUrl(d, HandlerOrDefault(errorHandler), f, parseJson)
  }

  /** The reason of a non-ok response can be read back: status and text, in that order. */
  lemma StatusReasonRoundTrip(status: nat, statusText: string)
    ensures ParseStatusReason(StatusReason(status, statusText)) == Some((status, statusText))
  {
    var digits := NatToDecimal(status);
    var s := StatusReason(status, statusText);
    var rest := s[|CodeKey|..];
    assert s[..|CodeKey|] == CodeKey;
    assert rest == digits + (TextKey + Quote(statusText) + "}");
    DigitRunStopsAt(digits, TextKey + Quote(statusText) + "}");
    assert rest[..|digits|] == digits;
    DecimalRoundTrip(status);
    var afterCode := rest[|digits|..];
    assert afterCode == TextKey + (Quote(statusText) + "}");
    assert afterCode[..|TextKey|] == TextKey;
    assert afterCode[|TextKey|..] == Quote(statusText) + "}";
    QuoteRoundTrip(statusText, "}");
  }

  /** Distinct status lines give distinct reasons. */
  lemma StatusReasonInjective(s1: nat, t1: string, s2: nat, t2: string)
    requires StatusReason(s1, t1) == StatusReason(s2, t2)
    ensures s1 == s2 && t1 == t2
  {
    StatusReasonRoundTrip(s1, t1);
    StatusReasonRoundTrip(s2, t2);
  }
}
