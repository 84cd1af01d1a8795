/**
 * The saved-article table behind `ArticleDao` (the `db.dao` revision):
 * rows keyed by article URL, an insert that replaces on conflict, a delete
 * by key, and a query for every row.
 */
module ArticleStore {
  import opened NetworkModel

  type Table = map<string, Article>

  /** Every row is stored under its own URL, so no two rows share a URL. */
  ghost predicate Keyed(t: Table)
  {
    forall u :: u in t ==> t[u].url == u
  }

  /** The table after `@Insert(onConflict = REPLACE)`. */
  function Inserted(t: Table, article: Article): (r: Table)
    ensures article.url in r && r[article.url] == article
    ensures forall u :: u != article.url ==> (u in r <==> u in t)
    ensures forall u :: u != article.url && u in t ==> r[u] == t[u]
    ensures Keyed(t) ==> Keyed(r)
  {
    t[article.url := article]
  }

  /** The table after `@Delete`, which finds the row by its primary key. */
  function Deleted(t: Table, article: Article): (r: Table)
    ensures article.url !in r
    ensures forall u :: u != article.url ==> (u in r <==> u in t)
    ensures forall u :: u != article.url && u in t ==> r[u] == t[u]
    ensures Keyed(t) ==> Keyed(r)
  {
    t - {article.url}
  }

  /** `saved` lists every row of `t` once, in some order, and nothing else. */
  ghost predicate ListsRows(saved: seq<Article>, t: Table)
  {
    && (forall i :: 0 <= i < |saved| ==> saved[i].url in t && t[saved[i].url] == saved[i])
    && (forall u :: u in t ==> t[u] in saved)
    && (forall i, j :: 0 <= i < j < |saved| ==> saved[i].url != saved[j].url)
  }

  class ArticleDao {
    var rows: Table

    ghost predicate Valid()
      reads this
    {
      Keyed(rows)
    }

    constructor ()
      ensures Valid() && rows == map[]
    {
      rows := map[];
    }

    method Insert(article: Article)
      requires Valid()
      modifies this
      ensures Valid()
      ensures rows == Inserted(old(rows), article)
    {
      rows := rows[article.url := article];
    }

    method Delete(article: Article)
      requires Valid()
      modifies this
      ensures Valid()
      ensures rows == Deleted(old(rows), article)
    {
      rows := rows - {article.url};
    }

    /** One snapshot of `SELECT * FROM article`; the query has no ORDER BY. */
    method GetSavedArticles() returns (saved: seq<Article>)
      requires Valid()
      ensures ListsRows(saved, rows)
      ensures |saved| == |rows|
    {
      saved := [];
      var remaining := rows.Keys;
      while remaining != {}
        invariant remaining <= rows.Keys
        invariant |saved| + |remaining| == |rows|
        invariant forall i :: 0 <= i < |saved| ==> saved[i].url in rows && rows[saved[i].url] == saved[i]
        invariant forall i :: 0 <= i < |saved| ==> saved[i].url !in remaining
        invariant forall u :: u in rows && u !in remaining ==> rows[u] in saved
        invariant forall i, j :: 0 <= i < j < |saved| ==> saved[i].url != saved[j].url
        decreases remaining
      {
        var u :| u in remaining;
        saved := saved + [rows[u]];
        remaining := remaining - {u};
      }
    }
  }

  /** Inserting two articles with the same URL leaves one row, the second. */
  lemma LastInsertWins(t: Table, first: Article, second: Article)
    requires first.url == second.url
    ensures Inserted(Inserted(t, first), second) == Inserted(t, second)
  {
  }

  /** Inserting the same article twice gives the same table as inserting it once. */
  lemma InsertIdempotent(t: Table, article: Article)
    ensures Inserted(Inserted(t, article), article) == Inserted(t, article)
  {
    LastInsertWins(t, article, article);
  }

  /** Deleting an article whose URL is not stored changes nothing. */
  lemma DeleteAbsentIsNoOp(t: Table, article: Article)
    requires article.url !in t
    ensures Deleted(t, article) == t
  {
  }

  /** Delete looks at the URL only: any other field of its argument is irrelevant. */
  lemma DeleteByKeyOnly(t: Table, a: Article, b: Article)
    requires a.url == b.url
    ensures Deleted(t, a) == Deleted(t, b)
  {
  }

  /** Swiping a saved article away and then undoing restores the table. */
  lemma DeleteThenReinsertRestores(t: Table, article: Article)
    requires article.url in t && t[article.url] == article
    ensures Inserted(Deleted(t, article), article) == t
  {
  }
}
