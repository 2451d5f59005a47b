# loadabledata — a Dafny model of the loading lifecycle

`loadabledata` wraps an asynchronous source in a `LoadableData` snapshot. The source is a promise (`fromPromise`) or an HTTP GET (`fromUrl`). A snapshot has four phase flags (`none`, `loading`, `ready`, `error`), a `data` payload and an `errorMessage`. `emptyLoadableData` gives a `none` snapshot. The two constructors return a `loading` snapshot. When the source settles, one continuation rewrites that snapshot:

- success stores the result and moves from `loading` to `ready`;
- failure stores the error handler's message and moves from `loading` to `error`.

Before `fromUrl` settles, it interprets the response:

- a 2xx response whose `content-type` is exactly `application/json` is parsed as JSON;
- any other 2xx response yields its text;
- any other response fails with the reason `JSON.stringify({code: status, text: statusText})`.

The model is functional. A snapshot is an immutable datatype. Each in-place mutation becomes a function from the snapshot before to the snapshot after. The host promise is modelled as a value that settles at most once. The test helper `hasOnlyState` serves as the invariant: exactly one flag is set.

Modules:

- `Wrappers` (`wrappers.dfy`): `Option`, used for omitted arguments and an absent header, and `Result`, used for the outcome of `fetch` and of JSON parsing.
- `Promises` (`promises.dfy`): the host's single-resolution promise. The first resolve or reject call wins. It also holds the rejection `Reason`.
- `JsonStringify` (`json_stringify.dfy`): the two parts of `JSON.stringify` (ECMA-262) that the failure reason uses: the decimal form of a non-negative integer and QuoteJSONString. Each has a reader that undoes it.
- `Loadable` (`loadable_data.dfy`): `src/loadableData.ts`. It holds the snapshot, `emptyStates`, `emptyLoadableData`, the starting snapshot of both constructors, their continuations, the default error handler, and the response interpretation of `fromUrl`.
- `TestUtil` (`test_util.dfy`): `StateType` and `hasOnlyState` from `src/testUtil.ts`.
- `Lifecycle` (`lifecycle.dfy`): the state machine's properties. Each constructor's starting phase, the result of each continuation from `loading`, the one-flag partition, forward-only phases, and the handling of messages.
- `Scenarios` (`scenarios.dfy`): the expectations of `src/loadableData.spec.ts`, stated as lemmas about the model.

Modelling choices:

- The optional `initialData` argument defaults to JavaScript `null`. That value lies outside the caller's type `T`, so `fromPromise` and `fromUrl` produce `LoadableData<Nullable<T>>`.
- A rejection reason is modelled by what the template literal `${error}` in the default handler makes of it. `Printable(text)` is a reason whose string conversion gives `text`. `Unprintable` is a reason whose conversion throws, such as a Symbol or an object created with `Object.create(null)`. A handler written as a template literal (`Interpolate`) returns the prefix plus the text, or throws for an unprintable reason.
- An error handler is a function from a reason to `Returns(message)` or `Throws`.
- `fromUrl` data is a `Payload`: `Text(body)` or `Json(value)`. The parsed JSON value type `J` is opaque. `response.json()` is the parameter `parseJson`: a parsed value, or the string form of the syntax error its rejection carries (`SyntaxError: …`). `fetch(url)` settles with a `Response` or the string form of its transport error (`TypeError: …`). Every reason `fromUrl`'s chain can reject with is therefore printable.
- The optional `promise` property is modelled only as whether it is set (`hasPromise`).

## Guarantees the code does not give

Two guarantees one might expect of a loading wrapper do not hold in general. The model follows the code in both cases.

- **Message is non-empty exactly in `error`.** The code guarantees this only for the default handler, and only when the rejection reason converts to a string. `fromUrl` only ever rejects with such reasons (`DefaultMessageIffErrorUrl`). `fromPromise` can be rejected with a Symbol or a prototype-less object; then the default handler throws after the flags have moved, which leaves `error` with an empty message (`DefaultMessageIffError`, `UnprintableReasonLeavesMessageEmpty`). A custom handler may also return `""`, with the same result (`CustomHandlerMayLeaveMessageEmpty`).
- **The failure path always completes.** The two constructors order their failure continuation differently:
  - `fromPromise` flips the flags before it calls the handler. A throwing handler still reaches `error`, with the message left `""`.
  - `fromUrl` calls the handler first. A throwing handler leaves the snapshot in `loading` for good (`ThrowingHandlerFromLoading`).

  With a handler that returns, the two constructors behave the same (`RejectedFromLoading`, `UrlSettlesLikePromise`).

## Model

| member | source | states |
|---|---|---|
| Lifecycle.EmptyIsNone | src/loadableData.ts:28-48 | emptyLoadableData keeps the given data, has an empty message and no promise, and has `none` as its only phase |
| Lifecycle.StartedIsLoading | src/loadableData.ts:63-121 | both constructors start with `loading` as the only phase, an empty message and a promise; data is the initial data, or null when omitted |
| Lifecycle.FulfilledFromLoading | src/loadableData.ts:78-139 | success from `loading` stores the result, leaves `ready` as the only phase, and keeps the message |
| Lifecycle.RejectedFromLoading | src/loadableData.ts:85-144 | failure from `loading` with a handler that returns leaves `error` as the only phase, keeps the data and stores the handler's message verbatim; fromUrl's continuation gives the same snapshot |
| Lifecycle.ThrowingHandlerFromLoading | src/loadableData.ts:85-144 | with a throwing handler, fromPromise still reaches `error` with the old message, while fromUrl leaves the snapshot unchanged in `loading` |
| Lifecycle.SecondSettlementWouldBreakPartition | src/loadableData.ts:85-91 | the continuations do not check the phase: the failure continuation run on a `ready` snapshot sets two flags, so the partition rests on single settlement |
| Lifecycle.FromPromiseObservation | src/loadableData.ts:58-94 | every snapshot fromPromise can show has exactly one flag: `loading` while pending; `ready` with the result after success; `error` with the initial data and the handler's message (or `""` if the handler throws) after failure |
| Lifecycle.FromUrlObservation | src/loadableData.ts:105-147 | every snapshot fromUrl can show has exactly one flag: `loading` while pending; `ready` with the payload after success; `error` with the message after failure; unchanged `loading` if the handler throws |
| Lifecycle.UrlSettlesLikePromise | src/loadableData.ts:123-144 | with a handler that returns, fromUrl's chain has the same effect as fromPromise's continuations on the settlement the response leads to |
| Lifecycle.FirstSettlementDecides | src/loadableData.ts:77-91 | however many resolve or reject calls the host makes, the snapshot is the one the first call alone produces: exactly one continuation runs, once |
| Lifecycle.PhasesOnlyAdvance | src/loadableData.ts:77-91 | across a run of resolve or reject calls, fromPromise never shows `none`, shows `loading` only before any terminal phase, and never changes after `ready` or `error` |
| Lifecycle.UrlPhasesOnlyAdvance | src/loadableData.ts:123-144 | the same forward-only order of phases for fromUrl |
| Lifecycle.DefaultMessageIffError | src/loadableData.ts:58-91 | with the default handler, fromPromise is in `error` exactly when the promise rejected; its message is non-empty only in `error`, and there exactly when the reason converts to a string |
| Lifecycle.UnprintableReasonLeavesMessageEmpty | src/loadableData.ts:58-91 | a reason whose string conversion throws makes the default handler throw after the flags have moved, leaving `error` with an empty message and the initial data |
| Lifecycle.DefaultMessageIffErrorUrl | src/loadableData.ts:105-147 | every reason fromUrl's chain rejects with converts to a string, so with the default handler its message is non-empty exactly when `error` is set |
| Lifecycle.CustomHandlerMayLeaveMessageEmpty | src/loadableData.ts:88 | a custom handler's output is used verbatim, even an empty one |
| Lifecycle.DefaultHandlerKeepsReason | src/loadableData.ts:60-62 | the default handler returns exactly when the reason converts to a string; its message is "Failed to load data. " followed by that string, which can be recovered from it |
| Lifecycle.DefaultHandlerInjective | src/loadableData.ts:107-109 | distinct reasons give distinct outcomes of the default handler |
| Lifecycle.TextBodyNeverParsed | src/loadableData.ts:125-130 | an ok response without the exact JSON content type yields its text body, whatever the JSON parser would make of it |
| Lifecycle.NonOkReasonDecodes | src/loadableData.ts:132 | a non-ok response fails with a reason from which its status and status text can be read back |
| Loadable.EmptyStates | src/loadableData.ts:41-48 | the flag record with only `none` set (its contract is stated by `Lifecycle.EmptyIsNone`) |
| Loadable.EmptyLoadableData | src/loadableData.ts:28-34 | a `none` snapshot holding the given data, no message and no promise (`Lifecycle.EmptyIsNone`) |
| Loadable.StartedSnapshot | src/loadableData.ts:63-121 | the snapshot both constructors return: only `loading`, the initial data or null, no message (`Lifecycle.StartedIsLoading`) |
| Loadable.OnFulfilled | src/loadableData.ts:78-139 | the success continuation: from `loading` it stores the result and leaves only `ready` (`Lifecycle.FulfilledFromLoading`) |
| Loadable.OnRejectedPromise | src/loadableData.ts:85-91 | fromPromise's failure continuation: flags first, then the handler's message; a throwing handler still leaves `error` (`Lifecycle.RejectedFromLoading`, `Lifecycle.ThrowingHandlerFromLoading`) |
| Loadable.OnRejectedUrl | src/loadableData.ts:140-144 | fromUrl's failure continuation: the handler first; a throwing handler changes nothing (`Lifecycle.RejectedFromLoading`, `Lifecycle.ThrowingHandlerFromLoading`) |
| Loadable.Interpolate | src/loadableData.ts:60-62 | a template literal returns exactly when the reason converts to a string, and its message starts with the fixed prefix |
| Loadable.DefaultErrorHandler | src/loadableData.ts:107-109 | the default handler: the fixed prefix plus the reason's string form, or a throw (`Lifecycle.DefaultHandlerKeepsReason`, `Lifecycle.DefaultHandlerInjective`) |
| Loadable.SettlePromise | src/loadableData.ts:77-91 | the `.then`/`.catch` chain of fromPromise run on a settlement (`Lifecycle.FromPromiseObservation`) |
| Loadable.FromPromise | src/loadableData.ts:58-94 | what fromPromise's caller observes while the promise is pending or settled (`Lifecycle.FromPromiseObservation`, `Lifecycle.FirstSettlementDecides`) |
| Loadable.StatusReason | src/loadableData.ts:132 | the reason a non-ok response fails with (`Loadable.StatusReasonRoundTrip`, `Loadable.StatusReasonInjective`) |
| Loadable.HandlerOrDefault | src/loadableData.ts:60-62 | an omitted `errorHandler` is the default handler (`Lifecycle.FromPromiseObservation`, `Lifecycle.DefaultMessageIffError`, `Lifecycle.DefaultMessageIffErrorUrl`) |
| Loadable.InitialDataOrNull | src/loadableData.ts:63 | an omitted `initialData` is null (`Lifecycle.StartedIsLoading`) |
| Loadable.IsOk | src/loadableData.ts:125 | `response.ok`: the status is in 200-299 (`Loadable.InterpretResponse`) |
| Loadable.FetchSettlement | src/loadableData.ts:123-133 | how the promise the continuations of fromUrl hang on settles; every rejection it leads to carries a reason that converts to a string |
| Loadable.SettleUrl | src/loadableData.ts:123-144 | the whole chain fromUrl attaches to fetch(url), run on its outcome (`Lifecycle.UrlSettlesLikePromise`) |
| Loadable.FromUrl | src/loadableData.ts:105-147 | what fromUrl's caller observes while fetch(url) is pending or settled (`Lifecycle.FromUrlObservation`) |
| Loadable.InterpretResponse | src/loadableData.ts:124-133 | JSON payload exactly when ok, content type exactly `application/json` and parse succeeds; text payload (the body) exactly when ok with any other or no content type; a non-ok status fails with the encoded status line; a failure of an ok response is the parser's failure |
| Loadable.StatusReasonRoundTrip | src/loadableData.ts:132 | the reason `{"code":…,"text":…}` reads back to its status and text, with the keys in that order |
| Loadable.StatusReasonInjective | src/loadableData.ts:132 | distinct status lines give distinct failure reasons |
| JsonStringify.Quote | src/loadableData.ts:132 | QuoteJSONString, the string half of the status reason (`JsonStringify.QuoteRoundTrip`, `JsonStringify.QuotePlain`) |
| JsonStringify.NatToDecimal | src/loadableData.ts:132 | the status code is written as non-empty decimal digits with no leading zero |
| JsonStringify.DecimalRoundTrip | src/loadableData.ts:132 | the decimal form of the status reads back to the status |
| JsonStringify.CanonicalDecimalRoundTrip | src/loadableData.ts:132 | every digit string without a leading zero is the decimal form of its value |
| JsonStringify.QuoteRoundTrip | src/loadableData.ts:132 | the quoted and escaped status text reads back to the text and leaves whatever follows |
| JsonStringify.QuotePlain | src/loadableData.ts:132 | text without quotes, backslashes or control characters is quoted unchanged |
| Promises.FirstAttemptWins | src/loadableData.ts:77-91 | the promise the continuations are attached to is settled by its first resolve or reject call |
| Promises.SettledIsFinal | src/loadableData.ts:77-91 | a settled promise never changes again |
| TestUtil.HasOnlyState | src/testUtil.ts:18-53 | hasOnlyState, case by case as the source writes it (`TestUtil.HasOnlyStateIsOneHot`) |
| TestUtil.HasOnlyStateIsOneHot | src/testUtil.ts:18-53 | hasOnlyState(d, t) holds exactly when d's four flags are the record in which only t is set, for each of NONE, LOADING, READY and ERROR |
| TestUtil.AtMostOneState | src/testUtil.ts:18-53 | at most one StateType satisfies hasOnlyState for a given snapshot |
| TestUtil.ExactlyOneFlag | src/testUtil.ts:18-53 | some StateType satisfies hasOnlyState exactly when exactly one of the four flags is set |
| Scenarios.PromiseSuccess | src/loadableData.spec.ts:34-46 | a resolving promise shows `loading` with null data, then `ready` with "success" |
| Scenarios.PromiseFailure | src/loadableData.spec.ts:48-71 | a rejecting promise shows `loading` with no message, then `error` with "Failed to load data. failure" and null data |
| Scenarios.PromiseInitialData | src/loadableData.spec.ts:73-89 | the initial data is shown while loading and replaced by the result |
| Scenarios.PromiseCustomError | src/loadableData.spec.ts:91-118 | a custom handler's message is used as it is, and the initial data is kept on failure |
| Scenarios.UrlTextSuccess | src/loadableData.spec.ts:126-142 | a 200 text/plain response ends `ready` with the text "success" |
| Scenarios.UnauthorizedReason | src/loadableData.spec.ts:158-160 | the reason for 401 Unauthorized is `{"code":401,"text":"Unauthorized"}` |
| Scenarios.UrlUnauthorized | src/loadableData.spec.ts:144-162 | a 401 response ends `error` with the default message around that reason, and null data |
| Scenarios.UrlInitialDataAndCustomError | src/loadableData.spec.ts:164-208 | with initial data and a custom handler, fromUrl shows the initial data while loading, then the text on success, or the custom message on 401 |
| Scenarios.UrlNoContentType | src/loadableData.spec.ts:210-226 | a 200 response without a content type ends `ready` with its text |
| Scenarios.UrlJsonPayload | src/loadableData.spec.ts:246-262 | a 200 application/json response ends `ready` with the parsed value |
| Scenarios.UrlJsonWithCharsetIsText | src/loadableData.ts:126 | the content type is compared exactly: `application/json; charset=utf-8` yields text |

## Left out

- Event-loop scheduling: the guarantee that `loading` is observable before settlement (at least one tick) is not modelled. A snapshot is observed either pending or settled, and the intermediate ticks of the promise chains are not distinguished.
- Shared mutation: the source mutates one object that the caller and the continuation share. The model returns the new snapshot instead.
- Network I/O: `fetch(url)` is the parameter `PromiseState<Result<Response, string>>`, whose `Failure` case is a transport error; the URL itself plays no part. Redirects and retries belong to fetch.
- `response.text()` is taken to succeed and yield the body string. A rejection of the body stream is not modelled.
- JSON parsing: `response.json()` is an opaque `parseJson` parameter.
- `Headers.get` joins repeated header values; the model has a single optional header value.
- Rejection reasons are modelled by their string conversion, or by the fact that it throws, so a custom handler sees only that. A custom handler that inspects the reason's other properties is modelled only through what it returns for each conversion.
- An unhandled rejection raised when a handler throws is not modelled; only its effect on the snapshot is.
- Type erasure: the source's `T` is not checked at runtime. The model gives `fromUrl` data as a `Payload`, and its initial data must be a `Payload` too.
- QuoteJSONString's escaping of lone UTF-16 surrogates: Dafny strings hold Unicode scalar values, so they cannot arise. HTTP status text is a byte string in any case.
- `src/states.ts` (type aliases only) and `src/index.spec.ts` (an export check) are not part of this model.
