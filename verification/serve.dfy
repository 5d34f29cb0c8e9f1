/**
  The data side of serve.py's build_index (lines 23-58 and 157): its own two
  classifiers, the grouping of the newest 300 rows by source into the three
  views, and the snippet cut. The HTML text around them is not modelled.
 */
module Serve {
  import opened Wrappers
  import opened Text
  import opened Db
  import Scoring

  const INDEX_ROWS: nat := 300
  const SNIPPET_MAX: nat := 120

  const SERVE_AI_KEYWORDS: seq<string> := [
    "ai", "agent", "agents", "llm", "model", "models", "foundation",
    "gemini", "claude", "openai", "anthropic", "copilot",
    "reinforcement", "transformer", "embedding", "vector"
  ]

  const SERVE_FUNDING_KEYWORDS: seq<string> := [
    "raises", "raised", "funding", "series", "seed", "round",
    "valuation", "backed", "led by"
  ]

  // ---------- classifiers ----------

  /** is_ai: some serve keyword occurs in the lower-cased title; a missing title counts as "". */
  predicate IsAi(title: Option<string>) {
    exists k | k in SERVE_AI_KEYWORDS :: Contains(Lower(OrEmpty(title)), k)
  }

  /** The end of a match of `(\$|usd|€|£)\s?\d+` starting at i, if there is one. */
  function ServeMoneyMatchAt(t: string, i: nat): (r: Option<nat>)
    ensures r.Some? ==> i < r.value <= |t|
  {
    match Scoring.CurrencyEnd(t, i)
    case None => None
    case Some(c) =>
      match Scoring.FirstDigit(t, c)
      case None => None
      case Some(d) => Some(Scoring.DigitsEnd(t, d + 1))
  }

  predicate ServeMoneySearch(t: string) {
    exists i | 0 <= i <= |t| :: ServeMoneyMatchAt(t, i).Some?
  }

  /** is_funding: a serve funding keyword occurs in the lower-cased title, or the money pattern matches. */
  predicate IsFunding(title: Option<string>) {
    var t := Lower(OrEmpty(title));
    (exists k | k in SERVE_FUNDING_KEYWORDS :: Contains(t, k)) || ServeMoneySearch(t)
  }

  /** Dropping the decimal part and the suffix does not change where the pattern matches: both money tests agree. */
  lemma MoneySearchesAgree(t: string)
    ensures ServeMoneySearch(t) <==> Scoring.MoneySearch(t)
  {
    if ServeMoneySearch(t) {
      var i :| 0 <= i <= |t| && ServeMoneyMatchAt(t, i).Some?;
      assert Scoring.MoneyMatchAt(t, i).Some?;
    }
    if Scoring.MoneySearch(t) {
      var i :| 0 <= i <= |t| && Scoring.MoneyMatchAt(t, i).Some?;
      assert ServeMoneyMatchAt(t, i).Some?;
    }
  }

  lemma ContainsWithin(t: string, long: string, short: string, j: nat)
    requires Contains(t, long) && OccursAt(long, short, j)
    ensures Contains(t, short)
  {
    var i :| 0 <= i <= |t| - |long| && OccursAt(t, long, i);
    OccursWithin(t, long, i, short, j);
  }

  /** Every headline the ingest classifier calls funding, serve calls funding too: each ingest keyword contains a serve one. */
  lemma IngestFundingIsServeFunding(title: string)
    requires Scoring.IsFunding(title)
    ensures IsFunding(Some(title))
  {
    var t := Lower(title);
    MoneySearchesAgree(t);
    if exists k | k in Scoring.FUNDING_KEYWORDS :: Contains(t, k) {
      var k :| k in Scoring.FUNDING_KEYWORDS && Contains(t, k);
      var s := ServeKeywordIn(k);
      ContainsWithin(t, k, s, 0);
    }
  }

  /** Each ingest funding keyword starts with a serve funding keyword ("series a/b/c" with "series"). */
  lemma ServeKeywordIn(k: string) returns (s: string)
    requires k in Scoring.FUNDING_KEYWORDS
    ensures s in SERVE_FUNDING_KEYWORDS && OccursAt(k, s, 0)
  {
    if k in SERVE_FUNDING_KEYWORDS {
      s := k;
      assert k[0..|k|] == k;
    } else {
      assert k in ["series a", "series b", "series c"];
      s := "series";
      assert k[0..6] == s;
    }
  }


  /**
    A title serve calls AI also scores above 0 in ingest.py, unless its only
    hit is "reinforcement" (ingest.py lists "reinforcement learning" instead).
   */
  lemma ServeAiScores(title: string)
    requires exists k | k in SERVE_AI_KEYWORDS && k != "reinforcement" :: Contains(Lower(title), k)
    ensures Scoring.AiScore(title) > 0
  {
    var k :| k in SERVE_AI_KEYWORDS && k != "reinforcement" && Contains(Lower(title), k);
    assert k in Scoring.AI_KEYWORDS;
    Scoring.AiScorePositive(title);
  }

  // ---------- grouping ----------

  /** One card: (title or "", url or "", published or ""). */
  datatype Item = Item(title: string, url: string, published: string)

  /** One `source -> items` entry of a view dict; a view keeps its entries in insertion order. */
  datatype Group = Group(source: string, items: seq<Item>)

  datatype View = All | Ai | Funding

  /** grouped["all"], grouped["ai"], grouped["funding"]. */
  datatype Index = Index(all: seq<Group>, ai: seq<Group>, funding: seq<Group>)

  function SourceKey(r: Summary): string {
    if r.source == "" then "Unknown" else r.source
  }

  function ItemOf(r: Summary): Item {
    Item(r.title, r.url, OrEmpty(r.published))
  }

  predicate Keeps(v: View, r: Summary) {
    match v
    case All => true
    case Ai => IsAi(Some(r.title))
    case Funding => IsFunding(Some(r.title))
  }

  /** Each source appears once in a view. */
  ghost predicate DistinctSources(groups: seq<Group>) {
    forall i, j :: 0 <= i < j < |groups| ==> groups[i].source != groups[j].source
  }

  /** The items under `key`, or none. */
  function Lookup(groups: seq<Group>, key: string): seq<Item> {
    if groups == [] then []
    else if groups[0].source == key then groups[0].items
    else Lookup(groups[1..], key)
  }

  /** `setdefault(key, []).append(item)`. */
  function AppendItem(groups: seq<Group>, key: string, item: Item): (r: seq<Group>)
    ensures |r| == |groups| || r == groups + [Group(key, [item])]
    ensures forall i :: 0 <= i < |groups| ==> r[i].source == groups[i].source
  {
    if groups == [] then [Group(key, [item])]
    else if groups[0].source == key then [Group(key, groups[0].items + [item])] + groups[1..]
    else [groups[0]] + AppendItem(groups[1..], key, item)
  }

  /** The view dict after the first rows of the loop. */
  function GroupView(rows: seq<Summary>, v: View): seq<Group> {
    if rows == [] then []
    else
      var last := rows[|rows| - 1];
      var g := GroupView(rows[..|rows| - 1], v);
      if Keeps(v, last) then AppendItem(g, SourceKey(last), ItemOf(last)) else g
  }

  function IndexOf(rows: seq<Summary>): Index {
    Index(GroupView(rows, All), GroupView(rows, Ai), GroupView(rows, Funding))
  }

  /** The reference: the items of the kept rows with this key, in row order. */
  function Select(rows: seq<Summary>, v: View, key: string): seq<Item> {
    if rows == [] then []
    else
      var last := rows[|rows| - 1];
      Select(rows[..|rows| - 1], v, key) + (if Keeps(v, last) && SourceKey(last) == key then [ItemOf(last)] else [])
  }

  function TotalItems(groups: seq<Group>): nat {
    if groups == [] then 0 else |groups[0].items| + TotalItems(groups[1..])
  }

  lemma AppendItemFacts(groups: seq<Group>, key: string, item: Item)
    requires DistinctSources(groups)
    ensures DistinctSources(AppendItem(groups, key, item))
    ensures forall k :: Lookup(AppendItem(groups, key, item), k) == Lookup(groups, k) + (if k == key then [item] else [])
    ensures TotalItems(AppendItem(groups, key, item)) == TotalItems(groups) + 1
  {
    AppendItemDistinct(groups, key, item);
    forall k ensures Lookup(AppendItem(groups, key, item), k) == Lookup(groups, k) + (if k == key then [item] else []) {
      AppendItemLookup(groups, key, item, k);
    }
    AppendItemTotal(groups, key, item);
  }

  lemma {:induction false} AppendItemDistinct(groups: seq<Group>, key: string, item: Item)
    requires DistinctSources(groups)
    ensures DistinctSources(AppendItem(groups, key, item))
  {
    if groups != [] && groups[0].source != key {
      var rest := groups[1..];
      assert DistinctSources(rest) by {
        forall i, j | 0 <= i < j < |rest| ensures rest[i].source != rest[j].source {
          assert rest[i] == groups[i + 1] && rest[j] == groups[j + 1];
        }
      }
      AppendItemDistinct(rest, key, item);
      var r := AppendItem(groups, key, item);
      var r' := AppendItem(rest, key, item);
      assert r == [groups[0]] + r';
      forall i, j | 0 <= i < j < |r| ensures r[i].source != r[j].source {
        if i == 0 {
          assert r[j] == r'[j - 1];
          if j - 1 < |rest| {
            assert r[j].source == groups[j].source;
          }
        } else {
          assert r[i] == r'[i - 1] && r[j] == r'[j - 1];
        }
      }
    } else if groups != [] {
      var r := AppendItem(groups, key, item);
      forall i, j | 0 <= i < j < |r| ensures r[i].source != r[j].source {
        assert r[i].source == groups[i].source && r[j].source == groups[j].source;
      }
    }
  }

  lemma {:induction false} AppendItemLookup(groups: seq<Group>, key: string, item: Item, k: string)
    ensures Lookup(AppendItem(groups, key, item), k) == Lookup(groups, k) + (if k == key then [item] else [])
  {
    if groups != [] {
      var r := AppendItem(groups, key, item);
      if groups[0].source == key {
        assert r[1..] == groups[1..];
      } else {
        AppendItemLookup(groups[1..], key, item, k);
        assert r[1..] == AppendItem(groups[1..], key, item);
      }
    }
  }

  lemma {:induction false} AppendItemTotal(groups: seq<Group>, key: string, item: Item)
    ensures TotalItems(AppendItem(groups, key, item)) == TotalItems(groups) + 1
  {
    if groups != [] {
      var r := AppendItem(groups, key, item);
      if groups[0].source == key {
        assert r[1..] == groups[1..];
      } else {
        AppendItemTotal(groups[1..], key, item);
        assert r[1..] == AppendItem(groups[1..], key, item);
      }
    }
  }


  /**
    Grouping loses and invents nothing: in every view the items under a source
    are exactly the kept rows with that source key, in row order, and no source
    appears twice.
   */
  lemma {:induction false} GroupViewSelects(rows: seq<Summary>, v: View)
    ensures DistinctSources(GroupView(rows, v))
    ensures forall key :: Lookup(GroupView(rows, v), key) == Select(rows, v, key)
    ensures v == All ==> TotalItems(GroupView(rows, v)) == |rows|
  {
    if rows != [] {
      var init := rows[..|rows| - 1];
      var last := rows[|rows| - 1];
      GroupViewSelects(init, v);
      if Keeps(v, last) {
        AppendItemFacts(GroupView(init, v), SourceKey(last), ItemOf(last));
      }
    }
  }

  /** The classifier verdict from an item alone (titles are never NULL in the table, so `title or ""` is the title). */
  predicate ItemKept(v: View, it: Item) {
    match v
    case All => true
    case Ai => IsAi(Some(it.title))
    case Funding => IsFunding(Some(it.title))
  }

  function Filter(items: seq<Item>, v: View): seq<Item> {
    if items == [] then []
    else Filter(items[..|items| - 1], v) + (if ItemKept(v, items[|items| - 1]) then [items[|items| - 1]] else [])
  }

  lemma {:induction false} SelectFilters(rows: seq<Summary>, v: View, key: string)
    ensures Select(rows, v, key) == Filter(Select(rows, All, key), v)
  {
    if rows != [] {
      var init := rows[..|rows| - 1];
      SelectFilters(init, v, key);
      var last := rows[|rows| - 1];
      var all := Select(init, All, key);
      assert Keeps(v, last) == ItemKept(v, ItemOf(last));
      assert Select(rows, v, key) == Select(init, v, key) + (if Keeps(v, last) && SourceKey(last) == key then [ItemOf(last)] else []);
      if SourceKey(last) == key {
        assert Select(rows, All, key) == all + [ItemOf(last)];
        var all' := all + [ItemOf(last)];
        assert all'[..|all'| - 1] == all && all'[|all'| - 1] == ItemOf(last);
        assert Filter(all', v) == Filter(all, v) + (if ItemKept(v, ItemOf(last)) then [ItemOf(last)] else []);
      } else {
        assert Select(rows, All, key) == all;
      }
    }
  }

  /** For each source, the ai and funding lists are its all list filtered by the classifier, order kept. */
  lemma ViewsAreFilters(rows: seq<Summary>, v: View, key: string)
    ensures Lookup(GroupView(rows, v), key) == Filter(Lookup(GroupView(rows, All), key), v)
  {
    GroupViewSelects(rows, All);
    GroupViewSelects(rows, v);
    SelectFilters(rows, v, key);
  }

  /** The grouping loop of build_index over the fetched rows. */
  method GroupRows(rows: seq<Summary>) returns (index: Index)
    ensures index == IndexOf(rows)
  {
    var all: seq<Group> := [];
    var ai: seq<Group> := [];
    var funding: seq<Group> := [];
    for i := 0 to |rows|
      invariant all == GroupView(rows[..i], All)
      invariant ai == GroupView(rows[..i], Ai)
      invariant funding == GroupView(rows[..i], Funding)
    {
      var r := rows[i];
      all := AppendItem(all, SourceKey(r), ItemOf(r));
      if IsAi(Some(r.title)) {
        ai := AppendItem(ai, SourceKey(r), ItemOf(r));
      }
      if IsFunding(Some(r.title)) {
        funding := AppendItem(funding, SourceKey(r), ItemOf(r));
      }
      assert rows[..i + 1][..i] == rows[..i];
    }
    assert rows[..|rows|] == rows;
    index := Index(all, ai, funding);
  }

  /**
    build_index up to the HTML: the newest 300 rows, grouped, the all view
    holding every one of them; without an articles table the SELECT raises.
   */
  method BuildIndex(store: ArticleStore) returns (built: Result<Index, DbError>)
    requires store.Valid()
    ensures built.Err? <==> !store.created
    ensures built.Ok? ==> built.value == IndexOf(store.GetRecent(INDEX_ROWS).value)
    ensures built.Ok? ==> TotalItems(built.value.all) == Min(INDEX_ROWS, Count(store.State())) <= INDEX_ROWS
  {
    var rows := store.GetRecent(INDEX_ROWS);
    if rows.Err? {
      return Err(rows.error);
    }
    var index := GroupRows(rows.value);
    GroupViewSelects(rows.value, All);
    built := Ok(index);
  }

  // ---------- snippet ----------

  /** The card snippet: the title when it fits in 120 characters, else its first 117 and "...". */
  function Snippet(title: string): (s: string)
    ensures |s| <= SNIPPET_MAX
    ensures |title| <= SNIPPET_MAX ==> s == title
    ensures |title| > SNIPPET_MAX ==> |s| == SNIPPET_MAX && s[..117] == title[..117] && s[117..] == "..."
  {
    if |title| <= SNIPPET_MAX then title else title[..117] + "..."
  }
}
