# NewsAPIDemo core, modelled in Dafny

NewsAPIDemo is an Android client that fetches news articles from a remote HTTP API, shows them
in a paginated list, and lets the user bookmark articles in a local table. This project models
the parts of the app that decide outcomes:

- the **safe-call classifier**, in both revisions (`safeApiCall` and `SafeApiCall.apiCall`).
  It turns the outcome of one API call into an `ApiEvent`. The outcome is a returned response
  or a thrown exception.
- the two result types `ApiEvent` and `ApiExecutionEvent`.
- the **paging source**: the page requested for a key, the result a load builds, and the keys
  of the neighbouring pages. Kotlin's 32-bit `Int` arithmetic on the keys is written out.
- the **saved-article table** behind `ArticleDao`, in both revisions. It is a class whose map
  is keyed by article URL.
- the Room **type converter** for `Source`.
- the **repository** that delegates to the classifier and the table.
- the **view model**: its query-dispatch state and the save flag.
- the **adapter's** diff callbacks and its click and bind guards.

Files: `wrappers.dfy` (Option), `kotlin_int.dfy` (Int wrap-around and decimal text),
`network_model.dfy` (Source, Article, NewsApiResponse), `http.dfy` (the call outcome and the
requests), `api_event.dfy`, `api_execution_event.dfy`, `safe_api_call_internal.dfy`,
`safe_api_call_repository.dfy`, `article_paging_source.dfy`, `article_dao.dfy`,
`legacy_article_dao.dfy`, `app_database.dfy`, `app_repository.dfy`, `news_view_model.dfy` and
`news_adapter.dfy`.

`ApiEvent` is the datatype `ApiEvents.ApiEvent`. It has exactly four variants and every
`match` on it is checked for exhaustiveness. `Success` carries the article list unchanged.
`Error` carries only a message. `Empty` and `Loading` have no payload. All of this holds by
the datatype's construction, so no member states it.

The network is a function `NewsApi = ApiRequest -> CallOutcome`. A request names the endpoint
and its arguments, and `None` stands for an argument left at the interface default. The
classifier treats `isSuccessful` as a plain flag and the rendered `errorBody()` as opaque text.

Four points where the code does something other than a reader might expect, which the model follows:

- A successful response with no articles is classified as `Empty`. The paging source turns
  `Empty` into `LoadResult.Error("No Data Found.")`, not into a last page whose next key is
  null (`Paging.NoArticlesIsNotEndOfData`). So no page the source produces has a null next key
  (`Paging.PageAlwaysHasNextKey`).
- `Article`'s text fields are non-null `String`s in the code, not optional.
- The save flag is set by the view model (`article.copy(isSaved = true)`). The repository's
  `insert` stores its argument as given.
- The error text interpolates `${result.errorBody()}`, which renders the `ResponseBody` object
  through its default `toString`, not the body's content. So the server's JSON error message
  (for example a rate-limit explanation) never reaches the `Error` text; the model keeps the
  rendered value as opaque text (`Http.Response.errorBody`).

## Model

| member | source | states |
|---|---|---|
| KotlinInt.Plus | app/src/main/java/ercanduman/newsapidemo/data/internal/ArticlePagingSource.kt:34 | Kotlin's Int addition: exact when the sum fits in 32 bits, and always congruent to the sum modulo 2^32 (wrapped) |
| KotlinInt.Minus | app/src/main/java/ercanduman/newsapidemo/data/internal/ArticlePagingSource.kt:33 | Kotlin's Int subtraction: exact when the difference fits in 32 bits, and always congruent to the difference modulo 2^32 (wrapped) |
| KotlinInt.PlusOneWrapsAtMax | app/src/main/java/ercanduman/newsapidemo/data/internal/ArticlePagingSource.kt:34 | Int.MAX_VALUE + 1 wraps to Int.MIN_VALUE |
| KotlinInt.IntDecimalRoundTrip | app/src/main/java/ercanduman/newsapidemo/data/internal/SafeApiCall.kt:30 | the decimal text a string template renders for an Int determines the Int |
| KotlinInt.CodeInMessageOf | app/src/main/java/ercanduman/newsapidemo/data/internal/SafeApiCall.kt:30 | a text "Code: <n>" followed by a space carries n, and n can be read back from it |
| ApiExecutionEvents.Success | app/src/main/java/ercanduman/newsapidemo/util/ApiExecutionEvent.kt:13 | a Success has the given data and the default empty message |
| ApiExecutionEvents.Error | app/src/main/java/ercanduman/newsapidemo/util/ApiExecutionEvent.kt:14 | an Error has the given message and the default empty data |
| ApiExecutionEvents.Empty | app/src/main/java/ercanduman/newsapidemo/util/ApiExecutionEvent.kt:15 | Empty keeps both defaults |
| ApiExecutionEvents.Loading | app/src/main/java/ercanduman/newsapidemo/util/ApiExecutionEvent.kt:16 | Loading keeps both defaults |
| ApiExecutionEvents.Exhaustive | app/src/main/java/ercanduman/newsapidemo/util/ApiExecutionEvent.kt:12-17 | every event (a record restricted to its variant's defaults) equals the construction its variant names |
| ApiExecutionEvents.DefaultFields | app/src/main/java/ercanduman/newsapidemo/util/ApiExecutionEvent.kt:12-16 | Success(d) has data d and message ""; Error(m) has message m and empty data; Empty and Loading have both empty |
| ApiExecutionEvents.ErrorWithEmptyMessageIsNotEmpty | app/src/main/java/ercanduman/newsapidemo/util/ApiExecutionEvent.kt:14-15 | Error("") has the same fields as Empty but is a different event; a record Empty with a message is not an event |
| InternalSafeApiCall.ErrorMessage | app/src/main/java/ercanduman/newsapidemo/data/internal/SafeApiCall.kt:30 | the HTTP error text carries the status code, which can be read back, and ends with " - " and the error body |
| InternalSafeApiCall.SafeApiCall | app/src/main/java/ercanduman/newsapidemo/data/internal/SafeApiCall.kt:19-34 | never Loading; Success exactly for a successful response with a non-empty list, which it carries; Empty exactly for a successful response with no body or no articles; a failed response gives an Error carrying its status code |
| InternalSafeApiCall.SuccessCarriesArticles | app/src/main/java/ercanduman/newsapidemo/data/internal/SafeApiCall.kt:22-25 | a successful response with a non-empty article list yields Success with exactly that list |
| InternalSafeApiCall.NoArticlesIsEmpty | app/src/main/java/ercanduman/newsapidemo/data/internal/SafeApiCall.kt:24-27 | a successful response with a null body or an empty list yields Empty |
| InternalSafeApiCall.FailureIsError | app/src/main/java/ercanduman/newsapidemo/data/internal/SafeApiCall.kt:29-30 | a failed response yields Error("Code: <code> - Error: <message> - <errorBody>") and its code can be read back |
| InternalSafeApiCall.ExceptionIsError | app/src/main/java/ercanduman/newsapidemo/data/internal/SafeApiCall.kt:32-33 | an exception yields Error with its message, or "An unknown error occurred..." when it has none |
| InternalSafeApiCall.IgnoresStatusAndTotal | app/src/main/java/ercanduman/newsapidemo/data/internal/SafeApiCall.kt:23-25 | the body's status and totalResults never change the result |
| RepositorySafeApiCall.ErrorMessage | app/src/main/java/ercanduman/newsapidemo/data/repository/SafeApiCall.kt:28 | the second revision's error text also carries the status code and ends with the error body |
| RepositorySafeApiCall.ApiCall | app/src/main/java/ercanduman/newsapidemo/data/repository/SafeApiCall.kt:17-32 | total, never Loading; the same Success and Empty conditions as the first revision; a failed response gives an Error carrying its code |
| RepositorySafeApiCall.FailureIsError | app/src/main/java/ercanduman/newsapidemo/data/repository/SafeApiCall.kt:27-28 | a failed response yields Error("Code: <code> Error: <message> - <errorBody>") |
| RepositorySafeApiCall.ExceptionIsError | app/src/main/java/ercanduman/newsapidemo/data/repository/SafeApiCall.kt:30-31 | an exception yields Error with its message or the fallback text |
| RepositorySafeApiCall.ErrorTextsDiffer | app/src/main/java/ercanduman/newsapidemo/data/repository/SafeApiCall.kt:28 | for the same failed response the two revisions' texts always differ |
| RepositorySafeApiCall.AgreesWithInternalRevision | app/src/main/java/ercanduman/newsapidemo/data/repository/SafeApiCall.kt:20-28 | both revisions report an Error on the same outcomes; they give equal results except on a failed response, where only the texts differ |
| Paging.Position | app/src/main/java/ercanduman/newsapidemo/data/internal/ArticlePagingSource.kt:26 | a null key loads page 1 (STARTING_PAGE_INDEX); otherwise the key is the page |
| Paging.ToLoadResult | app/src/main/java/ercanduman/newsapidemo/data/internal/ArticlePagingSource.kt:29-37 | Error(m) becomes LoadResult.Error(m); Empty and Loading become LoadResult.Error("No Data Found."); Success becomes a page with the event's data, no previous key exactly on page 1 and position−1 otherwise, no next key exactly for empty data and position+1 otherwise |
| Paging.ArticlePagingSource.Request | app/src/main/java/ercanduman/newsapidemo/data/internal/ArticlePagingSource.kt:40-41 | the search uses the stored query, the position as page and the load size as page size |
| Paging.ArticlePagingSource.Load | app/src/main/java/ercanduman/newsapidemo/data/internal/ArticlePagingSource.kt:24-41 | the result is the classifier's event for that search mapped by ToLoadResult: a page exactly when the search succeeded with articles, and then with non-empty data and next key position+1 |
| Paging.ArticlePagingSource.GetRefreshKey | app/src/main/java/ercanduman/newsapidemo/data/internal/ArticlePagingSource.kt:44-46 | no refresh key, whatever the paging state |
| Paging.NoArticlesIsNotEndOfData | app/src/main/java/ercanduman/newsapidemo/data/internal/ArticlePagingSource.kt:36 | a successful response without articles ends in LoadResult.Error("No Data Found."), never in a page |
| Paging.PageAlwaysHasNextKey | app/src/main/java/ercanduman/newsapidemo/data/internal/ArticlePagingSource.kt:34 | because Success is never empty, every page's next key is position+1 |
| Paging.AppendKeysFrom | app/src/main/java/ercanduman/newsapidemo/data/internal/ArticlePagingSource.kt:31-34 | following next keys from page s, the i-th load is page s+i: only the last can be an error, the previous key is none exactly on page 1, the next key is the page after; and the i-th result equals the load of page s+i |
| Paging.AppendFromNoKey | app/src/main/java/ercanduman/newsapidemo/data/internal/ArticlePagingSource.kt:26 | loading without a key starts the same chain as loading page 1 |
| ArticleStore.Inserted | app/src/main/java/ercanduman/newsapidemo/data/db/dao/ArticleDao.kt:51-52 | insert stores the article under its URL, replacing any row there, and leaves every other row unchanged |
| ArticleStore.Deleted | app/src/main/java/ercanduman/newsapidemo/data/db/dao/ArticleDao.kt:57-58 | delete removes the row with the argument's URL and leaves every other row unchanged |
| ArticleStore.ArticleDao.Insert | app/src/main/java/ercanduman/newsapidemo/data/db/dao/ArticleDao.kt:51-52 | the table becomes Inserted(old table, article) and stays keyed by URL |
| ArticleStore.ArticleDao.Delete | app/src/main/java/ercanduman/newsapidemo/data/db/dao/ArticleDao.kt:57-58 | the table becomes Deleted(old table, article) and stays keyed by URL |
| ArticleStore.ArticleDao.GetSavedArticles | app/src/main/java/ercanduman/newsapidemo/data/db/dao/ArticleDao.kt:63-64 | the list holds every stored row once and nothing else, in no particular order |
| ArticleStore.LastInsertWins | app/src/main/java/ercanduman/newsapidemo/data/db/dao/ArticleDao.kt:45-52 | inserting two articles with the same URL leaves one row, equal to the second |
| ArticleStore.InsertIdempotent | app/src/main/java/ercanduman/newsapidemo/data/db/dao/ArticleDao.kt:51-52 | inserting an article twice gives the same table as inserting it once |
| ArticleStore.DeleteAbsentIsNoOp | app/src/main/java/ercanduman/newsapidemo/data/db/dao/ArticleDao.kt:54-58 | deleting an article whose URL is not stored changes nothing |
| ArticleStore.DeleteByKeyOnly | app/src/main/java/ercanduman/newsapidemo/data/db/dao/ArticleDao.kt:57-58 | delete depends on its argument's URL only |
| ArticleStore.DeleteThenReinsertRestores | app/src/main/java/ercanduman/newsapidemo/ui/main/saved/SavedNewsFragment.kt:60-71 | deleting a stored article and inserting it again (swipe, then undo) restores the table |
| LegacyArticleStore.ArticleDao.Insert | app/src/main/java/ercanduman/newsapidemo/data/db/ArticleDao.kt:27-28 | the older revision's insert replaces the row with the same URL |
| LegacyArticleStore.ArticleDao.Delete | app/src/main/java/ercanduman/newsapidemo/data/db/ArticleDao.kt:33-34 | the older revision's delete removes only the row with the argument's URL |
| LegacyArticleStore.ReplayKeepsKeys | app/src/main/java/ercanduman/newsapidemo/data/db/ArticleDao.kt:27-34 | after any sequence of inserts and deletes no two rows share a URL |
| LegacyArticleStore.LastWriteWins | app/src/main/java/ercanduman/newsapidemo/data/db/ArticleDao.kt:21-34 | after any sequence of calls, a URL's row is the last insert naming it, absent after a last delete, and the original row when no call names it |
| Converter.ConvertFromSource | app/src/main/java/ercanduman/newsapidemo/data/db/AppDatabase.kt:36 | a source is stored as its name |
| Converter.ConvertToSource | app/src/main/java/ercanduman/newsapidemo/data/db/AppDatabase.kt:39 | a stored text becomes a source with both fields equal to it |
| Converter.ColumnRoundTrip | app/src/main/java/ercanduman/newsapidemo/data/db/AppDatabase.kt:36-39 | convertFromSource(convertToSource(n)) == n |
| Converter.SourceRoundTrip | app/src/main/java/ercanduman/newsapidemo/data/db/AppDatabase.kt:36-39 | convertToSource(convertFromSource(s)) has both fields equal to s.name, so it equals s exactly when s's id equals its name |
| Converter.ConvertToSourceInjective | app/src/main/java/ercanduman/newsapidemo/data/db/AppDatabase.kt:39 | different texts give different sources |
| Converter.ConvertFromSourceNotInjective | app/src/main/java/ercanduman/newsapidemo/data/db/AppDatabase.kt:36 | sources differing only in their id are stored alike |
| Repository.AppRepository.GetArticles | app/src/main/java/ercanduman/newsapidemo/data/repository/AppRepository.kt:43 | the classifier applied to the headlines call with default arguments |
| Repository.AppRepository.SearchArticles | app/src/main/java/ercanduman/newsapidemo/data/repository/AppRepository.kt:48-49 | the classifier applied to the search for the query and page, with the default page size |
| Repository.AppRepository.SearchArticlesPagination | app/src/main/java/ercanduman/newsapidemo/data/repository/AppRepository.kt:51-60 | every source the pager builds searches for the given query through the repository's api; placeholders are off |
| Repository.AppRepository.GetSavedArticles | app/src/main/java/ercanduman/newsapidemo/data/repository/AppRepository.kt:63 | the DAO's full row set |
| Repository.AppRepository.Insert | app/src/main/java/ercanduman/newsapidemo/data/repository/AppRepository.kt:64 | the table changes exactly as the DAO insert changes it |
| Repository.AppRepository.Delete | app/src/main/java/ercanduman/newsapidemo/data/repository/AppRepository.kt:65 | the table changes exactly as the DAO delete changes it |
| NewsUi.Route | app/src/main/java/ercanduman/newsapidemo/ui/main/news/NewsViewModel.kt:73-80 | an empty query loads breaking news and never searches; any other query searches for exactly itself |
| NewsUi.MarkSaved | app/src/main/java/ercanduman/newsapidemo/ui/main/news/NewsViewModel.kt:88 | the copy is marked saved and every other field is unchanged |
| NewsUi.NewsViewModel.constructor | app/src/main/java/ercanduman/newsapidemo/ui/main/news/NewsViewModel.kt:45-52 | the query starts as the saved one or "", and the first load follows it (breaking news when nothing was saved) |
| NewsUi.NewsViewModel.SearchArticlesPaging | app/src/main/java/ercanduman/newsapidemo/ui/main/news/NewsViewModel.kt:61-63 | the query becomes q, and the observer reloads the articles for q |
| NewsUi.NewsViewModel.GetAllArticles | app/src/main/java/ercanduman/newsapidemo/ui/main/news/NewsViewModel.kt:72-82 | _articles holds the stream routed for the query |
| NewsUi.NewsViewModel.SaveArticleClicked | app/src/main/java/ercanduman/newsapidemo/ui/main/news/NewsViewModel.kt:87-89 | the table becomes the old table with the marked copy inserted |
| NewsUi.SavedRow | app/src/main/java/ercanduman/newsapidemo/ui/main/news/NewsViewModel.kt:87-89 | after saving, the article's row is the marked copy and every other row is untouched |
| Adapter.AreItemsTheSame | app/src/main/java/ercanduman/newsapidemo/ui/main/adapter/NewsAdapter.kt:112-115 | true for every pair of articles |
| Adapter.ItemsTheSameIgnoresUrl | app/src/main/java/ercanduman/newsapidemo/ui/main/adapter/NewsAdapter.kt:114 | two articles with different URLs count as the same item |
| Adapter.AreItemsTheSameByUrl | app/src/main/java/ercanduman/newsapidemo/ui/main/adapter/NewsAdapter.kt:113 | the same item exactly when the URLs are equal |
| Adapter.ItemsTheSameByUrlIsConsistent | app/src/main/java/ercanduman/newsapidemo/ui/main/adapter/NewsAdapter.kt:111-120 | URL identity is an equivalence, and equal contents imply the same item |
| Adapter.AreContentsTheSame | app/src/main/java/ercanduman/newsapidemo/ui/main/adapter/NewsAdapter.kt:117-119 | the same contents exactly when the articles are equal |
| Adapter.ContentsTheSameIsEquivalence | app/src/main/java/ercanduman/newsapidemo/ui/main/adapter/NewsAdapter.kt:117-119 | content comparison is reflexive, symmetric and transitive |
| Adapter.GetCurrentItem | app/src/main/java/ercanduman/newsapidemo/ui/main/adapter/NewsAdapter.kt:39 | returns what getItem returns at that position |
| Adapter.ClickedArticle | app/src/main/java/ercanduman/newsapidemo/ui/main/adapter/NewsAdapter.kt:62-66 | a click is forwarded exactly when the position is not NO_POSITION (−1) and the item there is non-null, and then it is that item |
| Adapter.BoundArticle | app/src/main/java/ercanduman/newsapidemo/ui/main/adapter/NewsAdapter.kt:34-37 | a view is bound exactly for non-null items, with that item |

## Left out

- Asynchrony: coroutines, `suspend`, Flow, LiveData and PagingData emission, `cachedIn` and `observeForever`. Each call is one synchronous step.
- The missing cancellation of an earlier collector when a new query starts one (`NewsViewModel.kt:72`). With one synchronous step per call, it cannot be expressed.
- `catch (e: Exception)` also catches coroutine cancellation. The model has no cancellation.
- ArticleStore.ArticleDao.GetSavedArticles: returns one snapshot of the table. Room's query is live and re-emits after every change.
- The HTTP client and JSON decoding. `NewsAPI.kt` is modelled only as the request datatype and an abstract function from request to outcome. Its default arguments refer to `Constants.DEFAULT_COUNTRY_CODE`, `DEFAULT_PAGE` and `DEFAULT_PAGE_SIZE`, which `Constants.kt` does not define (it holds only `API_BASE_URL` and `SEARCH_TIME_DELAY`), so a defaulted argument is `None`.
- Retrofit semantics: `isSuccessful` is not tied to a code range, and `errorBody()`'s text is opaque.
- Repository.AppRepository.SearchArticlesPagination: `Constants.DEFAULT_MAX_SIZE` and `DEFAULT_PAGE_SIZE` are not defined in `Constants.kt`, so they are parameters of the repository. The pager's paging behaviour is the paging library's and is not modelled.
- NewsUi.NewsViewModel.GetAllArticles: the repository calls it makes (`searchArticles(query)` returning paging data, `getBreakingNewsArticles()`) do not exist in `AppRepository`, which has no `getBreakingNewsArticles()` and only a two-argument `searchArticles(query, page)`. Their paging data is recorded only as which stream delivered it (`ArticleFeed`), not as its contents.
- The saved-state handle is a constructor argument. Writing the query back to it is not modelled.
- Adapter.ClickedArticle: requires the position to be NO_POSITION or inside the current snapshot, as RecyclerView guarantees for `bindingAdapterPosition`. The model has no out-of-range index, for which `getItem` would throw.
- Adapter.BoundArticle: requires a position inside the snapshot, as RecyclerView guarantees for `onBindViewHolder`.
- Adapter.GetCurrentItem: requires a position inside the snapshot, like `getItem`. The swipe callback in `SavedNewsFragment.kt:57-58` passes `bindingAdapterPosition` without the `NO_POSITION` check that `NewsAdapter.kt:63` makes, so -1 can reach `getItem`, which then throws; the model does not represent that exception.
- View binding (`bindData`), Glide image loading, fragments, the activity and the other UI files: these are presentation with no decisions of their own.
- Dependency injection (`AppModule`), `MainApplication`, the `AppDatabase` class, `Constants.kt`, logging, and `ViewUtils.isOnline` (it wraps the connectivity service).
- The Room entity's primary key: `Article.kt` carries no Room annotations, so no primary key is declared. The table is keyed by URL, as the comment in `NewsAdapter.kt:113` says.

## Findings

| source | as written | input that shows it | evidently intended | confidence | as-written member | corrected member |
|---|---|---|---|---|---|---|
| app/src/main/java/ercanduman/newsapidemo/ui/main/adapter/NewsAdapter.kt:114 | `oldItem.url == oldItem.url`, true for every pair | two articles with URLs "https://x/1" and "https://x/2" are reported as the same item | `oldItem.url == newItem.url` (the comment above it says the URL is unique per item) | high; not executed | Adapter.AreItemsTheSame, with Adapter.ItemsTheSameIgnoresUrl | Adapter.AreItemsTheSameByUrl, with Adapter.ItemsTheSameByUrlIsConsistent |
