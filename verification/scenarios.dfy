/**
 * The expectations of src/loadableData.spec.ts, stated of the model. The mock
 * server's responses become Response values; the promises become settlements.
 */
module Scenarios {
  import opened Wrappers
  import opened Promises
  import opened JsonStringify
  import opened Loadable
  import opened TestUtil

  /** Resolving with "success": `loading` with null data, then `ready` with the result. */
  lemma PromiseSuccess()
    ensures var before := FromPromise<string>(Pending, None, None);
      HasOnlyState(before, LOADING) && before.data == Null
    ensures var after := FromPromise(Settled(Fulfilled("success")), None, None);
      HasOnlyState(after, READY) && after.data == Value("success")
  {
  }

  /** Rejecting with "failure": the default message, data still null. */
  lemma PromiseFailure()
    ensures var before := FromPromise<string>(Pending, None, None);
      HasOnlyState(before, LOADING) && before.errorMessage == "" && before.data == Null
    ensures var after := FromPromise<string>(Settled(Rejected(Printable("failure"))), None, None);
      HasOnlyState(after, ERROR) && after.errorMessage == "Failed to load data. failure" && after.data == Null
  {
  }

  /** A custom handler and initial data: the initial data is shown while
      loading and replaced by the result. */
  lemma PromiseInitialData()
    ensures var h := Some((e: Reason) => Interpolate("Test promise failed. ", e));
            var before := FromPromise(Pending, h, Some("My initial data"));
            var after := FromPromise(Settled(Fulfilled("success")), h, Some("My initial data"));
      && HasOnlyState(before, LOADING) && before.data == Value("My initial data")
      && HasOnlyState(after, READY) && after.data == Value("success")
  {
  }

  /** A custom handler's message is used as it is, and the initial data stays. */
  lemma PromiseCustomError()
    ensures var h := Some((e: Reason) => Interpolate("Custom error: ", e));
            var after := FromPromise(Settled(Rejected(Printable("failure"))), h, Some("My initial data"));
      && HasOnlyState(after, ERROR) && after.errorMessage == "Custom error: failure"
      && after.data == Value("My initial data")
  {
  }

  /** A 200 response with content type text/plain and body "success". */
  function PlainOk(): (r: Response)
  {
    Response(200, "OK", Some("text/plain"), "success")
  }

  /** A 401 response with no body. */
  function Unauthorized(): (r: Response)
  {
    Response(401, "Unauthorized", None, "")
  }

  lemma UrlTextSuccess<J>(parseJson: string -> Result<J, string>)
    ensures var before := FromUrl(Pending, parseJson, None, None);
      HasOnlyState(before, LOADING) && before.data == Null
    ensures var after := FromUrl(Settled(Success(PlainOk())), parseJson, None, None);
      HasOnlyState(after, READY) && after.data == Value(Text("success"))
  {
  }

  lemma QuotedUnauthorized(t: string)
    requires t == "Unauthorized"
    ensures Quote(t) == "\"Unauthorized\""
  {
    assert forall i :: 0 <= i < |t| ==> IsPlain(t[i]);
    QuotePlain(t);
  }

  lemma Decimal401()
    ensures NatToDecimal(401) == "401"
  {
    assert NatToDecimal(40) == "40";
  }

  lemma ReasonLayout401(digits: string, quoted: string)
    requires digits == "401" && quoted == "\"Unauthorized\""
    ensures CodeKey + digits + TextKey + quoted + "}" == "{\"code\":401,\"text\":\"Unauthorized\"}"
  {
  }

  /** The reason JSON.stringify gives a 401 Unauthorized response. */
  lemma UnauthorizedReason(t: string)
    requires t == "Unauthorized"
    ensures StatusReason(401, t) == "{\"code\":401,\"text\":\"Unauthorized\"}"
  {
    QuotedUnauthorized(t);
    Decimal401();
    ReasonLayout401(NatToDecimal(401), Quote(t));
  }

  /** The 401 response fails with its JSON-encoded status line as the reason. */
  lemma UnauthorizedSettlement<J>(parseJson: string -> Result<J, string>)
    ensures FetchSettlement(Success(Unauthorized()), parseJson)
            == Rejected(Printable("{\"code\":401,\"text\":\"Unauthorized\"}"))
  {
    UnauthorizedReason(Unauthorized().statusText);
  }

  lemma DefaultMessage401(reason: string)
    requires reason == "{\"code\":401,\"text\":\"Unauthorized\"}"
    ensures DefaultMessagePrefix + reason == "Failed to load data. {\"code\":401,\"text\":\"Unauthorized\"}"
  {
  }

  lemma CustomMessage401(reason: string)
    requires reason == "{\"code\":401,\"text\":\"Unauthorized\"}"
    ensures "Test response failed. " + reason == "Test response failed. {\"code\":401,\"text\":\"Unauthorized\"}"
  {
  }

  lemma UrlUnauthorized<J>(parseJson: string -> Result<J, string>)
    ensures var after := FromUrl(Settled(Success(Unauthorized())), parseJson, None, None);
      && HasOnlyState(after, ERROR) && after.data == Null
      && after.errorMessage == "Failed to load data. {\"code\":401,\"text\":\"Unauthorized\"}"
  {
    UnauthorizedSettlement(parseJson);
    DefaultMessage401(FetchSettlement(Success(Unauthorized()), parseJson).reason.text);
  }

  lemma UrlInitialDataAndCustomError<J>(parseJson: string -> Result<J, string>)
    ensures var h := Some((e: Reason) => Interpolate("Test response failed. ", e));
            var init: Option<Payload<J>> := Some(Text("My initial data"));
            var before := FromUrl(Pending, parseJson, h, init);
            var ok := FromUrl(Settled(Success(PlainOk())), parseJson, h, init);
            var failed := FromUrl(Settled(Success(Unauthorized())), parseJson, h, init);
      && HasOnlyState(before, LOADING) && before.data == Value(Text("My initial data"))
      && HasOnlyState(ok, READY) && ok.data == Value(Text("success"))
      && HasOnlyState(failed, ERROR)
      && failed.errorMessage == "Test response failed. {\"code\":401,\"text\":\"Unauthorized\"}"
  {
    UnauthorizedSettlement(parseJson);
    CustomMessage401(FetchSettlement(Success(Unauthorized()), parseJson).reason.text);
  }

  /** A body without a content type is surfaced as text. */
  lemma UrlNoContentType<J>(parseJson: string -> Result<J, string>)
    ensures var after := FromUrl(Settled(Success(Response(200, "OK", None, "success"))), parseJson, None, None);
      HasOnlyState(after, READY) && after.data == Value(Text("success"))
  {
  }

  /** A body with the JSON content type is surfaced as what the parser made of it. */
  lemma UrlJsonPayload<J>(parseJson: string -> Result<J, string>, parsed: J)
    requires parseJson("{\"myData\":\"is amazing\"}") == Success(parsed)
    ensures var r := Response(200, "OK", Some("application/json"), "{\"myData\":\"is amazing\"}");
            var after := FromUrl(Settled(Success(r)), parseJson, None, None);
      HasOnlyState(after, READY) && after.data == Value(Json(parsed))
  {
  }

  /** The comparison is exact: a JSON media type with parameters is text. */
  lemma UrlJsonWithCharsetIsText<J>(parseJson: string -> Result<J, string>)
    ensures var r := Response(200, "OK", Some("application/json; charset=utf-8"), "{}");
            var after := FromUrl(Settled(Success(r)), parseJson, None, None);
      HasOnlyState(after, READY) && after.data == Value(Text("{}"))
  {
  }
}
