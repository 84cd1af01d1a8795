/**
 * `safeApiCall` of the `data.internal` package: runs one API call and
 * classifies what it returned or threw as an ApiEvent, without ever
 * throwing itself.
 */
module InternalSafeApiCall {
  import opened Wrappers
  import opened KotlinInt
  import opened NetworkModel
  import opened Http
  import opened ApiEvents

  /** The message of an Error built from an exception that has no message. */
  const UNKNOWN_ERROR: string := "An unknown error occurred..."

  /** A body is present and its article list is not empty. */
  predicate HasArticles(response: Response)
  {
    response.body.Some? && response.body.value.articles != []
  }

  /** "Code: <code> - Error: <message> - <errorBody>" */
  function ErrorMessage(response: Response): (m: string)
    ensures CodeInMessage(m) == Some(response.code as int)
    ensures |m| >= |response.errorBody| + 3
    ensures m[|m| - |response.errorBody| - 3..] == " - " + response.errorBody
  {
    var tail := " - " + response.errorBody;
    var rest := " - Error: " + response.message + tail;
    CodeInMessageOf(response.code as int, rest);
    EndsWith("Code: " + IntToDecimal(response.code as int), " - Error: " + response.message, tail);
    "Code: " + IntToDecimal(response.code as int) + rest
  }

  function SafeApiCall(outcome: CallOutcome): (e: ApiEvent)
    ensures !e.Loading?
    ensures e.Success? ==> e.data != []
    ensures e.Success? <==> outcome.Returned? && outcome.response.isSuccessful && HasArticles(outcome.response)
    ensures e.Success? ==> e.data == outcome.response.body.value.articles
    ensures e.Empty? <==> outcome.Returned? && outcome.response.isSuccessful && !HasArticles(outcome.response)
    ensures e.Error? && outcome.Returned? ==> CodeInMessage(e.message) == Some(outcome.response.code as int)
  {
    match outcome
    case Returned(response) =>
      if response.isSuccessful then
        if response.body.Some? && response.body.value.articles != [] then Success(response.body.value.articles)
        else Empty
      else Error(ErrorMessage(response))
    case Threw(exceptionMessage) => Error(exceptionMessage.GetOr(UNKNOWN_ERROR))
  }

  /** A successful response with a non-empty list yields Success with exactly that list. */
  lemma SuccessCarriesArticles(response: Response)
    requires response.isSuccessful && HasArticles(response)
    ensures SafeApiCall(Returned(response)) == Success(response.body.value.articles)
  {
  }

  /** A successful response without a body, or with an empty list, yields Empty. */
  lemma NoArticlesIsEmpty(response: Response)
    requires response.isSuccessful
    requires response.body.None? || response.body.value.articles == []
    ensures SafeApiCall(Returned(response)) == Empty
  {
  }

  /** A failed response yields an Error whose text carries the status code and the error body. */
  lemma FailureIsError(response: Response)
    requires !response.isSuccessful
    ensures SafeApiCall(Returned(response)) == Error(ErrorMessage(response))
    ensures CodeInMessage(SafeApiCall(Returned(response)).message) == Some(response.code as int)
  {
  }

  /** An exception yields an Error with its message, or the fallback text. */
  lemma ExceptionIsError(exceptionMessage: Option<string>)
    ensures exceptionMessage.Some? ==> SafeApiCall(Threw(exceptionMessage)) == Error(exceptionMessage.value)
    ensures exceptionMessage.None? ==> SafeApiCall(Threw(exceptionMessage)) == Error(UNKNOWN_ERROR)
  {
  }

  /** The body's `status` and `totalResults` never influence the result. */
  lemma IgnoresStatusAndTotal(response: Response, status: string, totalResults: int32)
    requires response.body.Some?
    ensures SafeApiCall(Returned(response))
         == SafeApiCall(Returned(response.(body := Some(response.body.value.(status := status, totalResults := totalResults)))))
  {
  }
}
