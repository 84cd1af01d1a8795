/** The four-way result of a remote call. */
module ApiEvents {
  import opened NetworkModel

  /**
   * A success carries the article list as received, an error only its
   * message; `Empty` and `Loading` carry nothing.
   */
  datatype ApiEvent = Success(data: seq<Article>) | Error(message: string) | Empty | Loading
}
