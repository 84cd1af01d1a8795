/** The records the news API's JSON is decoded into. */
module NetworkModel {
  import opened KotlinInt

  /** The publisher of an article: an identifier and a display name. */
  datatype Source = Source(id: string, name: string)

  /**
   * One news item. The URL is the primary key of the saved-article table;
   * `isSaved` is set when the user bookmarks the article.
   */
  datatype Article = Article(
    author: string,
    content: string,
    description: string,
    publishedAt: string,
    source: Source,
    title: string,
    url: string,
    urlToImage: string,
    isSaved: bool
  )

  /**
   * The decoded body of one API response. The `network.response` and the
   * `network.model` revisions of this record have the same three fields.
   */
  datatype NewsApiResponse = NewsApiResponse(articles: seq<Article>, status: string, totalResults: int32)
}
