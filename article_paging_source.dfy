/**
 * `ArticlePagingSource`: loads one page of search results for a stored
 * query and computes the keys of the neighbouring pages.
 */
module Paging {
  import opened Wrappers
  import opened KotlinInt
  import opened NetworkModel
  import opened Http
  import opened ApiEvents
  import InternalSafeApiCall

  /** The page loaded when the paging library passes no key. */
  const STARTING_PAGE_INDEX: int32 := 1

  const NO_DATA_FOUND: string := "No Data Found."

  /** What the paging library passes to `load`: the key of the page wanted, and how many items. */
  datatype LoadParams = LoadParams(key: Option<int32>, loadSize: int32)

  /** A page with the keys of the pages before and after it, or an error with its message. */
  datatype LoadResult =
    | Page(data: seq<Article>, prevKey: Option<int32>, nextKey: Option<int32>)
    | LoadError(message: string)

  /** What the paging library knows when it asks for a refresh key. */
  datatype PagingState = PagingState(anchorPosition: Option<int32>)

  /** The page number requested: the key, or the first page when there is none. */
  function Position(params: LoadParams): (position: int32)
    ensures params.key.None? ==> position == STARTING_PAGE_INDEX
    ensures params.key.Some? ==> position == params.key.value
  {
    params.key.GetOr(STARTING_PAGE_INDEX)
  }

  /** The result the source builds for page `position` from the classified call. */
  function ToLoadResult(position: int32, event: ApiEvent): (r: LoadResult)
    ensures r.Page? <==> event.Success?
    ensures event.Error? ==> r == LoadError(event.message)
    ensures (event.Empty? || event.Loading?) ==> r == LoadError(NO_DATA_FOUND)
    ensures r.Page? ==> r.data == event.data
    ensures r.Page? ==> (r.prevKey.None? <==> position == STARTING_PAGE_INDEX)
    ensures r.Page? && r.prevKey.Some? ==> r.prevKey.value == Minus(position, 1)
    ensures r.Page? ==> (r.nextKey.None? <==> event.data == [])
    ensures r.Page? && r.nextKey.Some? ==> r.nextKey.value == Plus(position, 1)
  {
    match event
    case Error(message) => LoadError(message)
    case Success(data) =>
      Page(
        data,
        if position == STARTING_PAGE_INDEX then None else Some(Minus(position, 1)),
        if data == [] then None else Some(Plus(position, 1)))
    case _ => LoadError(NO_DATA_FOUND)
  }

  datatype ArticlePagingSource = ArticlePagingSource(api: NewsApi, searchQuery: string) {

    /** The search the source issues for a load: the stored query, the page, and the load size. */
    function Request(params: LoadParams): (request: ApiRequest)
      ensures request.Everything?
      ensures request.query == searchQuery
      ensures request.page == Some(Position(params)) && request.pageSize == Some(params.loadSize)
    {
      Everything(searchQuery, Some(Position(params)), Some(params.loadSize))
    }

    function Load(params: LoadParams): (r: LoadResult)
      ensures r == ToLoadResult(Position(params), InternalSafeApiCall.SafeApiCall(api(Request(params))))
      ensures r.Page? <==> api(Request(params)).Returned? && api(Request(params)).response.isSuccessful
                           && InternalSafeApiCall.HasArticles(api(Request(params)).response)
      ensures r.Page? ==> r.data != [] && r.nextKey == Some(Plus(Position(params), 1))
    {
      var position := Position(params);
      ToLoadResult(position, InternalSafeApiCall.SafeApiCall(api(Request(params))))
    }

    /** No refresh key is computed, so a refresh starts over from the first page. */
    function GetRefreshKey(state: PagingState): (key: Option<int32>)
      ensures key.None?
    {
      None
    }
  }

  /** A successful response without articles ends in an error, never in a last page. */
  lemma NoArticlesIsNotEndOfData(source: ArticlePagingSource, params: LoadParams)
    requires source.api(source.Request(params)).Returned?
    requires source.api(source.Request(params)).response.isSuccessful
    requires !InternalSafeApiCall.HasArticles(source.api(source.Request(params)).response)
    ensures source.Load(params) == LoadError(NO_DATA_FOUND)
  {
  }

  /** Every page the source produces points on to the page after it. */
  lemma PageAlwaysHasNextKey(source: ArticlePagingSource, params: LoadParams)
    ensures source.Load(params).Page? ==> source.Load(params).nextKey == Some(Plus(Position(params), 1))
    ensures source.Load(params).Page? && Position(params) as int < INT_MAX ==>
              source.Load(params).nextKey.value as int == Position(params) as int + 1
  {
  }

  /**
   * What the paging library sees when it appends up to `n` pages starting at
   * `key`, following each page's next key, until a load fails.
   */
  function Append(source: ArticlePagingSource, key: Option<int32>, loadSize: int32, n: nat): (results: seq<LoadResult>)
    ensures |results| <= n
    decreases n
  {
    if n == 0 then []
    else
      var r := source.Load(LoadParams(key, loadSize));
      if r.Page? && r.nextKey.Some? then [r] + Append(source, r.nextKey, loadSize, n - 1) else [r]
  }

  /**
   * A result of a run of loads as it should be when it was loaded for page
   * `page`: only the last result of the run may be an error, the previous key
   * is absent exactly on page 1, and the next key is the page after.
   */
  ghost predicate LoadedAsPage(r: LoadResult, isLast: bool, page: int)
  {
    && (!isLast ==> r.Page?)
    && (r.Page? ==>
          && (r.prevKey.None? <==> page == 1)
          && (r.prevKey.Some? ==> r.prevKey.value as int == page - 1)
          && r.nextKey.Some?
          && r.nextKey.value as int == page + 1)
  }

  /** Appending from page `start` on, result i is the load of page start + i, and is shaped as that page. */
  lemma {:induction false} AppendKeysFrom(source: ArticlePagingSource, start: int32, loadSize: int32, n: nat)
    requires 1 <= start as int && start as int + n <= INT_MAX
    ensures forall i :: 0 <= i < |Append(source, Some(start), loadSize, n)| ==>
              LoadedAsPage(Append(source, Some(start), loadSize, n)[i], i == |Append(source, Some(start), loadSize, n)| - 1, start as int + i)
    ensures forall i :: 0 <= i < |Append(source, Some(start), loadSize, n)| ==>
              Append(source, Some(start), loadSize, n)[i] == source.Load(LoadParams(Some((start as int + i) as int32), loadSize))
    decreases n
  {
    var results := Append(source, Some(start), loadSize, n);
    if n > 0 {
      var r := source.Load(LoadParams(Some(start), loadSize));
      PageAlwaysHasNextKey(source, LoadParams(Some(start), loadSize));
      if r.Page? {
        var next := (start as int + 1) as int32;
        assert r.nextKey == Some(next);
        AppendKeysFrom(source, next, loadSize, n - 1);
        var rest := Append(source, Some(next), loadSize, n - 1);
        assert results == [r] + rest;
        forall i | 1 <= i < |results|
          ensures LoadedAsPage(results[i], i == |results| - 1, start as int + i)
          ensures results[i] == source.Load(LoadParams(Some((start as int + i) as int32), loadSize))
        {
          assert results[i] == rest[i - 1];
          assert (next as int + (i - 1)) as int32 == (start as int + i) as int32;
        }
      }
    }
  }

  /** The first load, without a key, starts the same chain as page 1. */
  lemma AppendFromNoKey(source: ArticlePagingSource, loadSize: int32, n: nat)
    ensures Append(source, None, loadSize, n) == Append(source, Some(STARTING_PAGE_INDEX), loadSize, n)
  {
    assert Position(LoadParams(None, loadSize)) == Position(LoadParams(Some(STARTING_PAGE_INDEX), loadSize));
    assert source.Request(LoadParams(None, loadSize)) == source.Request(LoadParams(Some(STARTING_PAGE_INDEX), loadSize));
  }
}
