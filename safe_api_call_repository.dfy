/**
 * `SafeApiCall.apiCall` of the `data.repository` package: the same
 * classifier as `safeApiCall`, with another layout of the HTTP error text.
 */
module RepositorySafeApiCall {
  import opened Wrappers
  import opened KotlinInt
  import opened NetworkModel
  import opened Http
  import opened ApiEvents
  import InternalSafeApiCall

  /** "Code: <code> Error: <message> - <errorBody>" */
  function ErrorMessage(response: Response): (m: string)
    ensures CodeInMessage(m) == Some(response.code as int)
    ensures |m| >= |response.errorBody| + 3
    ensures m[|m| - |response.errorBody| - 3..] == " - " + response.errorBody
  {
    var tail := " - " + response.errorBody;
    var rest := " Error: " + response.message + tail;
    CodeInMessageOf(response.code as int, rest);
    EndsWith("Code: " + IntToDecimal(response.code as int), " Error: " + response.message, tail);
    "Code: " + IntToDecimal(response.code as int) + rest
  }

  function ApiCall(outcome: CallOutcome): (e: ApiEvent)
    ensures !e.Loading?
    ensures e.Success? ==> e.data != []
    ensures e.Success? <==> outcome.Returned? && outcome.response.isSuccessful && InternalSafeApiCall.HasArticles(outcome.response)
    ensures e.Success? ==> e.data == outcome.response.body.value.articles
    ensures e.Empty? <==> outcome.Returned? && outcome.response.isSuccessful && !InternalSafeApiCall.HasArticles(outcome.response)
    ensures e.Error? && outcome.Returned? ==> CodeInMessage(e.message) == Some(outcome.response.code as int)
  {
    match outcome
    case Returned(response) =>
      if response.isSuccessful then
        if response.body.Some? && response.body.value.articles != [] then Success(response.body.value.articles)
        else Empty
      else Error(ErrorMessage(response))
    case Threw(exceptionMessage) => Error(exceptionMessage.GetOr(InternalSafeApiCall.UNKNOWN_ERROR))
  }

  /** A failed response yields "Code: <code> Error: ...", with no " - " between the code and "Error". */
  lemma FailureIsError(response: Response)
    requires !response.isSuccessful
    ensures ApiCall(Returned(response)) == Error(ErrorMessage(response))
    ensures CodeInMessage(ApiCall(Returned(response)).message) == Some(response.code as int)
  {
  }

  /** An exception yields an Error with its message, or the fallback text. */
  lemma ExceptionIsError(exceptionMessage: Option<string>)
    ensures exceptionMessage.Some? ==> ApiCall(Threw(exceptionMessage)) == Error(exceptionMessage.value)
    ensures exceptionMessage.None? ==> ApiCall(Threw(exceptionMessage)) == Error(InternalSafeApiCall.UNKNOWN_ERROR)
  {
  }

  /** The two texts for the same failed response always differ, right after the status code. */
  lemma ErrorTextsDiffer(response: Response)
    ensures ErrorMessage(response) != InternalSafeApiCall.ErrorMessage(response)
  {
    var prefix := "Code: " + IntToDecimal(response.code as int);
    var a := " Error: " + response.message + " - " + response.errorBody;
    var b := " - Error: " + response.message + " - " + response.errorBody;
    assert ErrorMessage(response) == prefix + a;
    DifferentTails(prefix, a, b, 1);
  }

  lemma DifferentTails(prefix: string, a: string, b: string, k: nat)
    requires k < |a| && k < |b| && a[k] != b[k]
    ensures prefix + a != prefix + b
  {
    assert (prefix + a)[|prefix| + k] == a[k];
    assert (prefix + b)[|prefix| + k] == b[k];
  }

  /**
   * The two revisions agree on every outcome except a failed response, where
   * both report an Error, with different texts.
   */
  lemma AgreesWithInternalRevision(outcome: CallOutcome)
    ensures ApiCall(outcome).Error? <==> InternalSafeApiCall.SafeApiCall(outcome).Error?
    ensures !(outcome.Returned? && !outcome.response.isSuccessful) ==> ApiCall(outcome) == InternalSafeApiCall.SafeApiCall(outcome)
    ensures outcome.Returned? && !outcome.response.isSuccessful ==> ApiCall(outcome) != InternalSafeApiCall.SafeApiCall(outcome)
  {
    if outcome.Returned? && !outcome.response.isSuccessful {
      ErrorTextsDiffer(outcome.response);
    }
  }
}
