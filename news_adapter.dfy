/**
 * The decisions `NewsAdapter` makes: how the list differ compares articles,
 * which item a click forwards, and which items get bound to a view. The
 * adapter's snapshot is a list whose entries may be null placeholders.
 */
module Adapter {
  import opened Wrappers
  import opened NetworkModel

  /** `RecyclerView.NO_POSITION`. */
  const NO_POSITION: int := -1

  /** `areItemsTheSame` as written: it compares the old item's URL with itself. */
  function AreItemsTheSame(oldItem: Article, newItem: Article): (same: bool)
    ensures same
  {
    oldItem.url == oldItem.url
  }

  /** Articles with different URLs are still reported as the same item. */
  lemma ItemsTheSameIgnoresUrl()
    ensures var a := Article("", "", "", "", Source("", ""), "", "https://x/1", "", false);
      var b := a.(url := "https://x/2");
      a.url != b.url && AreItemsTheSame(a, b)
  {
  }

  /** The evidently intended identity: the same URL. */
  function AreItemsTheSameByUrl(oldItem: Article, newItem: Article): (same: bool)
    ensures same <==> oldItem.url == newItem.url
  {
    oldItem.url == newItem.url
  }

  /** The differ's requirement: equal contents imply the same item, and the relation is an equivalence. */
  lemma ItemsTheSameByUrlIsConsistent(a: Article, b: Article, c: Article)
    ensures AreContentsTheSame(a, b) ==> AreItemsTheSameByUrl(a, b)
    ensures AreItemsTheSameByUrl(a, a)
    ensures AreItemsTheSameByUrl(a, b) == AreItemsTheSameByUrl(b, a)
    ensures AreItemsTheSameByUrl(a, b) && AreItemsTheSameByUrl(b, c) ==> AreItemsTheSameByUrl(a, c)
  {
  }

  /** `areContentsTheSame`: structural equality of the data class. */
  function AreContentsTheSame(oldItem: Article, newItem: Article): (same: bool)
    ensures same <==> oldItem == newItem
  {
    oldItem == newItem
  }

  lemma ContentsTheSameIsEquivalence(a: Article, b: Article, c: Article)
    ensures AreContentsTheSame(a, a)
    ensures AreContentsTheSame(a, b) == AreContentsTheSame(b, a)
    ensures AreContentsTheSame(a, b) && AreContentsTheSame(b, c) ==> AreContentsTheSame(a, c)
  {
  }

  /** `getItem`: the entry at a position of the current snapshot, null for a placeholder. */
  function GetItem(items: seq<Option<Article>>, position: int): (item: Option<Article>)
    requires 0 <= position < |items|
    ensures item == items[position]
  {
    items[position]
  }

  /** `getCurrentItem` hands out exactly what `getItem` does. */
  function GetCurrentItem(items: seq<Option<Article>>, position: int): (item: Option<Article>)
    requires 0 <= position < |items|
    ensures item == GetItem(items, position)
  {
    GetItem(items, position)
  }

  /**
   * The article a click on the view at `position` forwards to the listener,
   * None when nothing is forwarded. The adapter position is either
   * NO_POSITION or a position of the current snapshot.
   */
  function ClickedArticle(items: seq<Option<Article>>, position: int): (forwarded: Option<Article>)
    requires position == NO_POSITION || 0 <= position < |items|
    ensures forwarded.Some? <==> position != NO_POSITION && items[position].Some?
    ensures forwarded.Some? ==> forwarded == items[position]
  {
    if position != NO_POSITION then
      var current := GetItem(items, position);
      if current.Some? then current else None
    else None
  }

  /** The article `onBindViewHolder` binds at `position`; None when the entry is a placeholder. */
  function BoundArticle(items: seq<Option<Article>>, position: int): (bound: Option<Article>)
    requires 0 <= position < |items|
    ensures bound.Some? <==> items[position].Some?
    ensures bound.Some? ==> bound.value == items[position].value
  {
    var current := GetItem(items, position);
    if current.Some? then current else None
  }
}
