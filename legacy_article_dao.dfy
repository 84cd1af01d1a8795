/**
 * The older `ArticleDao` revision (package `db`): the same table, with only
 * insert and delete.
 */
module LegacyArticleStore {
  import opened Wrappers
  import opened NetworkModel
  import opened ArticleStore

  class ArticleDao {
    var rows: Table

    ghost predicate Valid()
      reads this
    {
      Keyed(rows)
    }

    constructor ()
      ensures Valid() && rows == map[]
    {
      rows := map[];
    }

    method Insert(article: Article)
      requires Valid()
      modifies this
      ensures Valid()
      ensures rows == Inserted(old(rows), article)
    {
      rows := rows[article.url := article];
    }

    method Delete(article: Article)
      requires Valid()
      modifies this
      ensures Valid()
      ensures rows == Deleted(old(rows), article)
    {
      rows := rows - {article.url};
    }
  }

  /** One call on the table. */
  datatype Operation = InsertOp(article: Article) | DeleteOp(article: Article)

  function Apply(t: Table, op: Operation): Table
  {
    match op
    case InsertOp(a) => Inserted(t, a)
    case DeleteOp(a) => Deleted(t, a)
  }

  /** The table after a sequence of calls, first to last. */
  function Replay(t: Table, ops: seq<Operation>): Table
    decreases |ops|
  {
    if ops == [] then t else Replay(Apply(t, ops[0]), ops[1..])
  }

  /** The last call naming URL `u`, if any. */
  function LastOn(ops: seq<Operation>, u: string): (last: Option<Operation>)
    ensures last.Some? ==> last.value in ops && last.value.article.url == u
    decreases |ops|
  {
    if ops == [] then None
    else if ops[|ops| - 1].article.url == u then Some(ops[|ops| - 1])
    else LastOn(ops[..|ops| - 1], u)
  }

  /** However the calls are interleaved, no two rows ever share a URL. */
  lemma {:induction false} ReplayKeepsKeys(t: Table, ops: seq<Operation>)
    requires Keyed(t)
    ensures Keyed(Replay(t, ops))
    decreases |ops|
  {
    if ops != [] {
      ReplayKeepsKeys(Apply(t, ops[0]), ops[1..]);
    }
  }

  lemma {:induction false} ReplayAppend(t: Table, ops: seq<Operation>, op: Operation)
    ensures Replay(t, ops + [op]) == Apply(Replay(t, ops), op)
    decreases |ops|
  {
    if ops != [] {
      assert (ops + [op])[1..] == ops[1..] + [op];
      ReplayAppend(Apply(t, ops[0]), ops[1..], op);
    }
  }

  /**
   * The row for a URL is decided by the last call naming it: the article of
   * the last insert, nothing after a delete, the original row when no call
   * names it.
   */
  lemma {:induction false} LastWriteWins(t: Table, ops: seq<Operation>, u: string)
    ensures var r := Replay(t, ops);
      match LastOn(ops, u)
      case None => (u in r <==> u in t) && (u in t ==> r[u] == t[u])
      case Some(InsertOp(a)) => u in r && r[u] == a
      case Some(DeleteOp(_)) => u !in r
    decreases |ops|
  {
    if ops != [] {
      var init := ops[..|ops| - 1];
      assert ops == init + [ops[|ops| - 1]];
      ReplayAppend(t, init, ops[|ops| - 1]);
      LastWriteWins(t, init, u);
    }
  }
}
