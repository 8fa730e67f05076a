/**
 * The error classifier `handleError` shared in shape by both clients: it turns whatever a
 * `try` block threw into a `{error: ...}` result. The current client consults the remote
 * `errors` list first (`listsErrors == true`); the legacy client has no such branch.
 */
module Errors {
  import opened Values

  /** The `data` member of an HTTP error response when it is truthy; `errors` is its `errors` member when truthy. */
  datatype Body = Body(errors: Option<seq<string>>)

  /** The `response` member of a thrown value when it is truthy. */
  datatype Response = Response(data: Option<Body>, status: Option<int>)

  /** A thrown JavaScript value. */
  datatype Thrown =
    | Nullish                                                   // `null` or `undefined`
    | Raised(response: Option<Response>, text: Option<string>)  // anything else; `text` is `e.toString()` when `e` has that member

  /** The value stored in the result's `error` member. */
  datatype ErrorValue = Text(message: string) | Value(thrown: Thrown)

  /** `{error: ...}` */
  datatype ErrorReport = ErrorReport(error: ErrorValue)

  const Unauthenticated := "unauthenticated"
  const SomethingWentWrong := "something went wrong"
  const ErrorSeparator := ", "

  /** `e && e.response && e.response.data` is truthy. */
  predicate HasResponseData(e: Thrown)
  {
    e.Raised? && e.response.Some? && e.response.value.data.Some?
  }

  /** The branch taken when the thrown value carries response data. */
  function ClassifyResponse(resp: Response, listsErrors: bool): ErrorReport
    requires resp.data.Some?
  {
    var body := resp.data.value;
    if listsErrors && body.errors.Some? then ErrorReport(Text(Join(body.errors.value, ErrorSeparator)))
    else if resp.status == Some(401) then ErrorReport(Text(Unauthenticated))
    else ErrorReport(Text(SomethingWentWrong))
  }

  /** What a call of the classifier does: return a result, or itself throw. */
  datatype Handling = Returns(report: ErrorReport) | ThrowsTypeError

  /**
   * `handleError` as written: on `null` or `undefined` the guard `e && ...` fails and the
   * next test reads `e.toString`, which throws a TypeError out of the `catch` block.
   */
  function HandleErrorAsWritten(e: Thrown, listsErrors: bool): (h: Handling)
    ensures h.ThrowsTypeError? <==> e.Nullish?
  {
    match e
    case Nullish => ThrowsTypeError
    case Raised(response, text) =>
      if HasResponseData(e) then Returns(ClassifyResponse(response.value, listsErrors))
      else if text.Some? then Returns(ErrorReport(Text(text.value)))
      else Returns(ErrorReport(Value(e)))
  }

  /**
   * `handleError` with the `null`/`undefined` case sent to the final branch, `{error: e}`,
   * as that branch evidently intends. It is total: every thrown value yields a report.
   */
  function HandleError(e: Thrown, listsErrors: bool): (r: ErrorReport)
    ensures r.error.Value? ==> r.error.thrown == e && !HasResponseData(e)
    ensures HasResponseData(e) ==> r.error.Text?
  {
    match e
    case Nullish => ErrorReport(Value(e))
    case Raised(response, text) =>
      if HasResponseData(e) then ClassifyResponse(response.value, listsErrors)
      else if text.Some? then ErrorReport(Text(text.value))
      else ErrorReport(Value(e))
  }

  // ---------------------------------------------------------------------------
  // Properties of the classifier

  /** The corrected classifier differs from the source only where the source itself throws. */
  lemma AgreesWithSourceUnlessNullish(e: Thrown, listsErrors: bool)
    ensures e.Raised? ==> HandleErrorAsWritten(e, listsErrors) == Returns(HandleError(e, listsErrors))
    ensures e.Nullish? ==> HandleErrorAsWritten(e, listsErrors) == ThrowsTypeError
    ensures e.Nullish? ==> HandleError(e, listsErrors) == ErrorReport(Value(Nullish))
  {
  }

  /** A thrown `undefined` escapes the source's classifier instead of becoming a result. */
  lemma NullishEscapesClassifier()
    ensures HandleErrorAsWritten(Nullish, true).ThrowsTypeError?
    ensures HandleErrorAsWritten(Nullish, false).ThrowsTypeError?
  {
  }

  /** Current client: a remote `errors` list is joined with ", " and wins over any status, 401 included. */
  lemma ErrorsListTakesPrecedence(e: Thrown, errors: seq<string>)
    requires HasResponseData(e) && e.response.value.data.value.errors == Some(errors)
    ensures HandleError(e, true) == ErrorReport(Text(Join(errors, ", ")))
  {
  }

  /** Current client: response data without an `errors` list and status 401 gives exactly "unauthenticated". */
  lemma UnauthorizedWithoutErrorsList(e: Thrown)
    requires HasResponseData(e) && e.response.value.data.value.errors.None?
    ensures HandleError(e, true) == ErrorReport(Text("unauthenticated"))
            <==> e.response.value.status == Some(401)
  {
  }

  /** Current client: response data with neither an `errors` list nor status 401 gives "something went wrong". */
  lemma GenericWithoutErrorsListOr401(e: Thrown)
    requires HasResponseData(e) && e.response.value.data.value.errors.None?
    requires e.response.value.status != Some(401)
    ensures HandleError(e, true) == ErrorReport(Text("something went wrong"))
  {
  }

  /** The remote validation failure `errors: ["bad field"]` is reported as "bad field". */
  lemma SingleRemoteError(e: Thrown)
    requires HasResponseData(e) && e.response.value.data.value.errors == Some(["bad field"])
    ensures HandleError(e, true) == ErrorReport(Text("bad field"))
  {
  }

  /** Legacy client: response data and status 401 give "unauthenticated", whatever `errors` holds. */
  lemma LegacyUnauthorized(e: Thrown)
    requires HasResponseData(e)
    ensures HandleError(e, false) == ErrorReport(Text("unauthenticated")) <==> e.response.value.status == Some(401)
  {
  }

  /** Legacy client: response data and any other status give "something went wrong", even with an `errors` list. */
  lemma LegacyIgnoresErrorsList(e: Thrown)
    requires HasResponseData(e) && e.response.value.status != Some(401)
    ensures HandleError(e, false) == ErrorReport(Text("something went wrong"))
  {
  }

  /** Both clients: without response data, a value with `toString` is reported by its string form. */
  lemma StringFormWithoutResponseData(e: Thrown, listsErrors: bool)
    requires !HasResponseData(e) && e.Raised? && e.text.Some?
    ensures HandleError(e, listsErrors) == ErrorReport(Text(e.text.value))
  {
  }

  /**
   * Both clients: the result's `error` is a message unless the thrown value has neither
   * response data nor a `toString` member, in which case it is that value itself.
   */
  lemma ErrorIsMessageOrValue(e: Thrown, listsErrors: bool)
    ensures HandleError(e, listsErrors).error.Text?
            <==> HasResponseData(e) || (e.Raised? && e.text.Some?)
    ensures !HandleError(e, listsErrors).error.Text? ==> HandleError(e, listsErrors).error == Value(e)
  {
  }
}
