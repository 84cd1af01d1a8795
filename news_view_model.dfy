/**
 * `NewsViewModel`: holds the current query, the article stream last
 * delivered for it, and saves bookmarked articles through the repository.
 */
module NewsUi {
  import opened Wrappers
  import opened NetworkModel
  import opened ArticleStore
  import opened Repository

  /**
   * Which repository stream delivered the paging data last: a search for a
   * query, or breaking news. The contents of the paging data are not modelled.
   */
  datatype ArticleFeed = SearchFeed(query: string) | BreakingNewsFeed

  /** An empty query loads breaking news; any other query searches for exactly itself. */
  function Route(query: string): (feed: ArticleFeed)
    ensures feed.SearchFeed? <==> query != ""
    ensures feed.SearchFeed? ==> feed.query == query
  {
    if |query| > 0 then SearchFeed(query) else BreakingNewsFeed
  }

  /** `article.copy(isSaved = true)`. */
  function MarkSaved(article: Article): (saved: Article)
    ensures saved.isSaved
    ensures saved.(isSaved := article.isSaved) == article
    ensures saved.url == article.url
  {
    article.(isSaved := true)
  }

  class NewsViewModel {
    const repository: AppRepository
    var currentQuery: string
    /** The value of `_articles`; the observer registered at construction fills it at once. */
    var articles: ArticleFeed

    /**
     * The query is restored from the saved state, "" when none was saved;
     * the observer registered at construction loads it at once.
     */
    constructor (repository: AppRepository, savedQuery: Option<string>)
      ensures this.repository == repository
      ensures currentQuery == savedQuery.GetOr("")
      ensures articles == Route(currentQuery)
      ensures savedQuery.None? ==> articles == BreakingNewsFeed
    {
      this.repository := repository;
      currentQuery := savedQuery.GetOr("");
      articles := Route(savedQuery.GetOr(""));
    }

    /** Sets the query; the observer then reloads the articles for it. */
    method SearchArticlesPaging(query: string)
      modifies this
      ensures currentQuery == query
      ensures articles == Route(query)
    {
      currentQuery := query;
      GetAllArticles(query);
    }

    /** Delivers the stream for `newQuery` into `_articles`. */
    method GetAllArticles(newQuery: string)
      modifies this`articles
      ensures articles == Route(newQuery)
    {
      if |newQuery| > 0 {
        articles := SearchFeed(newQuery);
      } else {
        articles := BreakingNewsFeed;
      }
    }

    /** Saves a copy of the article marked as saved; nothing else changes. */
    method SaveArticleClicked(article: Article)
      requires repository.dao.Valid()
      modifies repository.dao
      ensures repository.dao.Valid()
      ensures repository.dao.rows == Inserted(old(repository.dao.rows), MarkSaved(article))
    {
      repository.Insert(MarkSaved(article));
    }
  }

  /** After saving, the article's row is the marked copy and every other row is untouched. */
  lemma SavedRow(t: Table, article: Article)
    ensures var r := Inserted(t, MarkSaved(article));
      && article.url in r && r[article.url].isSaved
      && r[article.url].(isSaved := article.isSaved) == article
      && forall u :: u in t && u != article.url ==> u in r && r[u] == t[u]
  {
  }
}
