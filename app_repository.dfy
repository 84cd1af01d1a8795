/**
 * `AppRepository`: the one collaborator of the view models. Remote calls go
 * through the classifier; the saved articles are delegated to the table.
 */
module Repository {
  import opened Wrappers
  import opened KotlinInt
  import opened NetworkModel
  import opened Http
  import opened ApiEvents
  import opened ArticleStore
  import InternalSafeApiCall
  import Paging

  /** The paging configuration: its two sizes come from constants outside this model. */
  datatype PagingConfig = PagingConfig(maxSize: int32, pageSize: int32, enablePlaceholders: bool)

  /** A pager: its configuration and the paging source its factory builds on every refresh. */
  datatype Pager = Pager(config: PagingConfig, source: Paging.ArticlePagingSource)

  class AppRepository {
    const api: NewsApi
    const dao: ArticleDao
    const defaultMaxSize: int32
    const defaultPageSize: int32

    constructor (api: NewsApi, dao: ArticleDao, defaultMaxSize: int32, defaultPageSize: int32)
      ensures this.api == api && this.dao == dao
      ensures this.defaultMaxSize == defaultMaxSize && this.defaultPageSize == defaultPageSize
    {
      this.api := api;
      this.dao := dao;
      this.defaultMaxSize := defaultMaxSize;
      this.defaultPageSize := defaultPageSize;
    }

    /** Breaking news: the headlines endpoint with every argument left at its default. */
    function GetArticles(): (e: ApiEvent)
      ensures e == InternalSafeApiCall.SafeApiCall(api(TopHeadlines(None, None, None)))
      ensures !e.Loading? && (e.Success? ==> e.data != [])
    {
      InternalSafeApiCall.SafeApiCall(api(TopHeadlines(None, None, None)))
    }

    /** A search for `query` on page `page`, with the default page size. */
    function SearchArticles(query: string, page: int32): (e: ApiEvent)
      ensures e == InternalSafeApiCall.SafeApiCall(api(Everything(query, Some(page), None)))
      ensures !e.Loading? && (e.Success? ==> e.data != [])
    {
      InternalSafeApiCall.SafeApiCall(api(Everything(query, Some(page), None)))
    }

    /** Every source the pager builds searches for `query` through this repository's api. */
    function SearchArticlesPagination(query: string): (pager: Pager)
      ensures pager.source.searchQuery == query && pager.source.api == api
      ensures pager.config == PagingConfig(defaultMaxSize, defaultPageSize, false)
      ensures forall params :: pager.source.Request(params).query == query
    {
      Pager(PagingConfig(defaultMaxSize, defaultPageSize, false), Paging.ArticlePagingSource(api, query))
    }

    method GetSavedArticles() returns (saved: seq<Article>)
      requires dao.Valid()
      ensures ListsRows(saved, dao.rows)
    {
      saved := dao.GetSavedArticles();
    }

    method Insert(article: Article)
      requires dao.Valid()
      modifies dao
      ensures dao.Valid()
      ensures dao.rows == Inserted(old(dao.rows), article)
    {
      dao.Insert(article);
    }

    method Delete(article: Article)
      requires dao.Valid()
      modifies dao
      ensures dao.Valid()
      ensures dao.rows == Deleted(old(dao.rows), article)
    {
      dao.Delete(article);
    }
  }
}
