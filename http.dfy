/**
 * What one call of the news API can come back with, and the requests the
 * app makes. The HTTP client itself is not modelled: the API is a function
 * from a request to the outcome of performing it.
 */
module Http {
  import opened Wrappers
  import opened KotlinInt
  import opened NetworkModel

  /**
   * The parts of a `retrofit2.Response<NewsAPIResponse>` the app reads:
   * `isSuccessful`, `code()`, `message()`, `body()` and the text the
   * string template renders for `errorBody()`.
   */
  datatype Response = Response(
    isSuccessful: bool,
    code: int32,
    message: string,
    body: Option<NewsApiResponse>,
    errorBody: string
  )

  /** A call either returns a response or throws an exception, whose message may be null. */
  datatype CallOutcome = Returned(response: Response) | Threw(exceptionMessage: Option<string>)

  /**
   * A request to one of the two endpoints. `None` stands for an argument
   * left out, so that the interface's default value applies.
   */
  datatype ApiRequest =
    | TopHeadlines(countryCode: Option<string>, page: Option<int32>, pageSize: Option<int32>)
    | Everything(query: string, page: Option<int32>, pageSize: Option<int32>)

  type NewsApi = ApiRequest -> CallOutcome
}
