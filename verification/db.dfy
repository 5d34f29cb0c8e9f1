/**
  The `articles` table of db.py: rows keyed by `id`, each stamped with the
  clock reading at its first (and only) successful insert. The table is a map
  from id to row plus the ids in insertion order (SQLite's rowid order).
 */
module Db {
  import opened Wrappers
  import opened Sorting

  /** The article dict ingestion hands to insert_article (ingest.py:57-63). */
  datatype NewArticle = NewArticle(id: string, title: string, source: string, url: string, published: Option<string>)

  /** One row of `articles` (db.py:11-18); `insertedAt` is the `datetime('now')` default. */
  datatype Row = Row(id: string, title: string, source: string, url: string, published: Option<string>, insertedAt: nat)

  /** The four columns get_recent selects. */
  datatype Summary = Summary(title: string, source: string, url: string, published: Option<string>)

  datatype Table = Table(rows: map<string, Row>, order: seq<string>)

  /** sqlite3.OperationalError "no such table: articles", raised by a query run before init_db. */
  datatype DbError = NoSuchTable

  function RowOf(a: NewArticle, now: nat): Row {
    Row(a.id, a.title, a.source, a.url, a.published, now)
  }

  function SummaryOf(r: Row): Summary {
    Summary(r.title, r.source, r.url, r.published)
  }

  /** The primary-key invariant: `order` lists every stored id exactly once, and each row sits under its own id. */
  ghost predicate Wf(t: Table) {
    && (forall i, j :: 0 <= i < j < |t.order| ==> t.order[i] != t.order[j])
    && (forall id :: id in t.rows <==> id in t.order)
    && (forall id :: id in t.rows ==> t.rows[id].id == id)
  }

  /** The number of rows. */
  function Count(t: Table): nat {
    |t.order|
  }

  /**
    INSERT of a new primary key; an existing key raises IntegrityError, which
    insert_article turns into False with the table untouched.
   */
  function Insert(t: Table, a: NewArticle, now: nat): (r: (Table, bool))
    requires Wf(t)
    ensures Wf(r.0)
    ensures r.1 <==> a.id !in t.rows
    ensures r.0.rows.Keys == t.rows.Keys + {a.id}
    ensures forall id :: id in t.rows ==> r.0.rows[id] == t.rows[id]
    ensures r.1 ==> r.0.rows[a.id] == RowOf(a, now)
    ensures Count(r.0) == Count(t) + (if r.1 then 1 else 0)
  {
    if a.id in t.rows then (t, false)
    else (Table(t.rows[a.id := RowOf(a, now)], t.order + [a.id]), true)
  }

  /** Inserting the same article twice: new, then not new, and the second call changes nothing. */
  lemma InsertTwice(t: Table, a: NewArticle, now: nat, later: nat)
    requires Wf(t) && a.id !in t.rows
    ensures Insert(t, a, now).1
    ensures Insert(Insert(t, a, now).0, a, later) == (Insert(t, a, now).0, false)
    ensures Count(Insert(Insert(t, a, now).0, a, later).0) == Count(t) + 1
  {
  }

  /** The rows in insertion (rowid) order. */
  function Listed(t: Table): (r: seq<Row>)
    requires Wf(t)
    ensures |r| == |t.order|
    ensures forall i :: 0 <= i < |r| ==> r[i] == t.rows[t.order[i]]
  {
    seq(|t.order|, i requires 0 <= i < |t.order| => t.rows[t.order[i]])
  }

  /** The ORDER BY key: compare two rows by their insertion stamp only. */
  predicate StampAtMost(a: Row, b: Row) {
    a.insertedAt <= b.insertedAt
  }

  /** ORDER BY inserted_at DESC. */
  ghost predicate NewestFirst(s: seq<Row>) {
    Descending(s, StampAtMost)
  }

  /** Comparing stamps is total and transitive; rows with equal stamps may come in either order. */
  lemma StampOrder()
    ensures Total(StampAtMost) && Transitive(StampAtMost)
  {
  }

  function Min(a: nat, b: nat): nat {
    if a <= b then a else b
  }

  /**
    The articles table as the program sees it through one SQLite database.
    `created` records whether init_db has run; before that the table holds nothing.
   */
  class ArticleStore {
    var created: bool
    var rows: map<string, Row>
    var order: seq<string>

    ghost predicate Valid()
      reads this
    {
      Wf(State()) && (!created ==> order == [])
    }

    function State(): Table
      reads this
    {
      Table(rows, order)
    }

    /** A database file that has no articles table yet. */
    constructor ()
      ensures Valid() && !created && State() == Table(map[], [])
    {
      created := false;
      rows := map[];
      order := [];
    }

    /** init_db: CREATE TABLE IF NOT EXISTS, so an existing table and its rows are left as they are. */
    method InitDb()
      requires Valid()
      modifies this
      ensures Valid() && created
      ensures old(created) ==> State() == old(State())
      ensures !old(created) ==> State() == Table(map[], [])
    {
      if !created {
        created := true;
        rows := map[];
        order := [];
      }
    }

    /** insert_article: true iff the id was not stored yet; a stored row is never overwritten. */
    method InsertArticle(a: NewArticle, now: nat) returns (isNew: bool)
      requires Valid() && created
      modifies this
      ensures Valid() && created
      ensures isNew <==> a.id !in old(rows)
      ensures (State(), isNew) == Insert(old(State()), a, now)
    {
      var r := Insert(State(), a, now);
      rows, order, isNew := r.0.rows, r.0.order, r.1;
    }

    /** get_recent_rows: the newest `limit` rows, or the error SQLite raises when there is no articles table. */
    function GetRecentRows(limit: nat): (r: Result<seq<Row>, DbError>)
      reads this
      requires Valid()
      ensures r.Err? <==> !created
      ensures r.Ok? ==> r.value == RecentRows(State(), limit)
    {
      if created then Ok(RecentRows(State(), limit)) else Err(NoSuchTable)
    }

    /** get_recent: the same rows without the stamp, or the same error. */
    function GetRecent(limit: nat): (r: Result<seq<Summary>, DbError>)
      reads this
      requires Valid()
      ensures r.Err? <==> !created
      ensures r.Ok? ==> |r.value| == Min(limit, Count(State()))
      ensures r.Ok? ==> forall i :: 0 <= i < |r.value| ==> r.value[i] == SummaryOf(RecentRows(State(), limit)[i])
    {
      if created then
        var rows := RecentRows(State(), limit);
        Ok(seq(|rows|, i requires 0 <= i < |rows| => SummaryOf(rows[i])))
      else Err(NoSuchTable)
    }
  }

  /**
    SELECT … FROM articles ORDER BY inserted_at DESC LIMIT ? on an existing
    table: at most `limit` rows, newest first, and they are the newest ones stored.
   */
  function RecentRows(t: Table, limit: nat): (r: seq<Row>)
    requires Wf(t)
    ensures |r| == Min(limit, Count(t))
    ensures NewestFirst(r)
    ensures multiset(r) <= multiset(Listed(t))
    ensures forall x | x in multiset(Listed(t)) - multiset(r) :: forall y | y in r :: x.insertedAt <= y.insertedAt
  {
    var listed := Listed(t);
    StampOrder();
    var all := SortDescending(listed, StampAtMost);
    assert |multiset(all)| == |all| && |multiset(listed)| == |listed|;
    TopPrefix(all, listed, Min(limit, |listed|), StampAtMost);
    all[..Min(limit, |listed|)]
  }

  /** Every stored row appears in the insertion-order listing exactly once. */
  lemma ListedOnce(t: Table, id: string)
    requires Wf(t) && id in t.rows
    ensures multiset(Listed(t))[t.rows[id]] == 1
  {
    var l := Listed(t);
    var i :| 0 <= i < |t.order| && t.order[i] == id;
    assert l[i] == t.rows[id];
    forall p, q | 0 <= p < q < |l| ensures l[p].id != l[q].id {
      assert l[p].id == t.order[p] && l[q].id == t.order[q];
    }
    DistinctIdsOnce(l, t.rows[id]);
  }

  lemma {:induction false} DistinctIdsOnce(l: seq<Row>, x: Row)
    requires forall p, q :: 0 <= p < q < |l| ==> l[p].id != l[q].id
    ensures multiset(l)[x] == if x in l then 1 else 0
  {
    if l != [] {
      var rest := l[1..];
      assert l == [l[0]] + rest;
      assert forall p, q :: 0 <= p < q < |rest| ==> rest[p].id != rest[q].id by {
        forall p, q | 0 <= p < q < |rest| ensures rest[p].id != rest[q].id {
          assert rest[p] == l[p + 1] && rest[q] == l[q + 1];
        }
      }
      DistinctIdsOnce(rest, x);
      if l[0] == x {
        forall j | 0 <= j < |rest| ensures rest[j] != x {
          assert rest[j] == l[j + 1];
        }
      }
    }
  }
}
