/**
  The two ranked views of ingest.py (lines 171-204), returning the selected
  list instead of printing it. Both scan the newest stored rows, keep the
  tuples their classifier accepts, sort them with reverse=True and keep the
  first `limit`.
 */
module Views {
  import opened Wrappers
  import opened Text
  import opened Db
  import opened Scoring
  import opened Sorting

  /** The defaults of print_ai_brief and print_funding_tracker, which the command line uses. */
  const AI_BRIEF_LIMIT: nat := 15
  const AI_BRIEF_SCAN: nat := 200
  const FUNDING_LIMIT: nat := 20
  const FUNDING_SCAN: nat := 300

  /** print_recent's get_recent(10). */
  const RECENT_LIMIT: nat := 10

  /** The tuple (s, inserted_at, source, title, url). */
  datatype AiEntry = AiEntry(score: nat, insertedAt: nat, source: string, title: string, url: string)

  /** The tuple (inserted_at, source, title, url). */
  datatype FundingEntry = FundingEntry(insertedAt: nat, source: string, title: string, url: string)

  // ---------- tuple order ----------

  /** Python's `<=` on tuples of strings of the same length. */
  predicate FieldsAtMost(xs: seq<string>, ys: seq<string>) {
    if xs == [] then true
    else if ys == [] then false
    else if xs[0] != ys[0] then StrAtMost(xs[0], ys[0])
    else FieldsAtMost(xs[1..], ys[1..])
  }

  lemma {:induction false} FieldsAtMostTotal(xs: seq<string>, ys: seq<string>)
    requires |xs| == |ys|
    ensures FieldsAtMost(xs, ys) || FieldsAtMost(ys, xs)
  {
    if xs != [] {
      if xs[0] != ys[0] {
        StrAtMostTotal(xs[0], ys[0]);
      } else {
        FieldsAtMostTotal(xs[1..], ys[1..]);
      }
    }
  }

  lemma {:induction false} FieldsAtMostAntisymmetric(xs: seq<string>, ys: seq<string>)
    requires |xs| == |ys| && FieldsAtMost(xs, ys) && FieldsAtMost(ys, xs)
    ensures xs == ys
  {
    if xs != [] {
      if xs[0] != ys[0] {
        StrAtMostAntisymmetric(xs[0], ys[0]);
      } else {
        FieldsAtMostAntisymmetric(xs[1..], ys[1..]);
        assert xs == [xs[0]] + xs[1..] && ys == [ys[0]] + ys[1..];
      }
    }
  }

  lemma {:induction false} FieldsAtMostTransitive(xs: seq<string>, ys: seq<string>, zs: seq<string>)
    requires |xs| == |ys| == |zs| && FieldsAtMost(xs, ys) && FieldsAtMost(ys, zs)
    ensures FieldsAtMost(xs, zs)
  {
    if xs != [] {
      if xs[0] == ys[0] == zs[0] {
        FieldsAtMostTransitive(xs[1..], ys[1..], zs[1..]);
      } else if xs[0] != ys[0] && ys[0] != zs[0] {
        StrAtMostTransitive(xs[0], ys[0], zs[0]);
        if xs[0] == zs[0] {
          StrAtMostAntisymmetric(xs[0], ys[0]);
        }
      }
    }
  }

  function AiFields(e: AiEntry): seq<string> {
    [e.source, e.title, e.url]
  }

  function FundingFields(e: FundingEntry): seq<string> {
    [e.source, e.title, e.url]
  }

  /** Tuple order on (s, inserted_at, source, title, url). */
  predicate AiAtMost(a: AiEntry, b: AiEntry) {
    if a.score != b.score then a.score < b.score
    else if a.insertedAt != b.insertedAt then a.insertedAt < b.insertedAt
    else FieldsAtMost(AiFields(a), AiFields(b))
  }

  /** Tuple order on (inserted_at, source, title, url). */
  predicate FundingAtMost(a: FundingEntry, b: FundingEntry) {
    if a.insertedAt != b.insertedAt then a.insertedAt < b.insertedAt
    else FieldsAtMost(FundingFields(a), FundingFields(b))
  }

  /** The AI tuple order is a total order, so sorting by it is well defined. */
  lemma AiOrder()
    ensures Total(AiAtMost) && Transitive(AiAtMost) && Antisymmetric(AiAtMost)
  {
    forall a, b ensures AiAtMost(a, b) || AiAtMost(b, a) {
      FieldsAtMostTotal(AiFields(a), AiFields(b));
    }
    forall a, b, c | AiAtMost(a, b) && AiAtMost(b, c) ensures AiAtMost(a, c) {
      if a.score == b.score == c.score && a.insertedAt == b.insertedAt == c.insertedAt {
        FieldsAtMostTransitive(AiFields(a), AiFields(b), AiFields(c));
      }
    }
    forall a, b | AiAtMost(a, b) && AiAtMost(b, a) ensures a == b {
      FieldsAtMostAntisymmetric(AiFields(a), AiFields(b));
    }
  }

  /** The funding tuple order is a total order, so sorting by it is well defined. */
  lemma FundingOrder()
    ensures Total(FundingAtMost) && Transitive(FundingAtMost) && Antisymmetric(FundingAtMost)
  {
    forall a, b ensures FundingAtMost(a, b) || FundingAtMost(b, a) {
      FieldsAtMostTotal(FundingFields(a), FundingFields(b));
    }
    forall a, b, c | FundingAtMost(a, b) && FundingAtMost(b, c) ensures FundingAtMost(a, c) {
      if a.insertedAt == b.insertedAt == c.insertedAt {
        FieldsAtMostTransitive(FundingFields(a), FundingFields(b), FundingFields(c));
      }
    }
    forall a, b | FundingAtMost(a, b) && FundingAtMost(b, a) ensures a == b {
      FieldsAtMostAntisymmetric(FundingFields(a), FundingFields(b));
    }
  }

  /** Descending in the tuple order means: score never increases, and among equal scores inserted_at never increases. */
  lemma RankedByScore(s: seq<AiEntry>)
    requires Descending(s, AiAtMost)
    ensures forall i, j :: 0 <= i < j < |s| ==>
      s[j].score <= s[i].score && (s[j].score == s[i].score ==> s[j].insertedAt <= s[i].insertedAt)
  {
    forall i, j | 0 <= i < j < |s|
      ensures s[j].score <= s[i].score && (s[j].score == s[i].score ==> s[j].insertedAt <= s[i].insertedAt)
    {
      assert AiAtMost(s[j], s[i]);
    }
  }

  lemma NewestFirstByStamp(s: seq<FundingEntry>)
    requires Descending(s, FundingAtMost)
    ensures forall i, j :: 0 <= i < j < |s| ==> s[j].insertedAt <= s[i].insertedAt
  {
    forall i, j | 0 <= i < j < |s| ensures s[j].insertedAt <= s[i].insertedAt {
      assert FundingAtMost(s[j], s[i]);
    }
  }

  // ---------- candidates ----------

  function AiEntryOf(r: Row): AiEntry {
    AiEntry(AiScore(r.title), r.insertedAt, r.source, r.title, r.url)
  }

  function FundingEntryOf(r: Row): FundingEntry {
    FundingEntry(r.insertedAt, r.source, r.title, r.url)
  }

  /** The list print_ai_brief builds before sorting: the rows that score above 0, in row order. */
  function AiCandidates(rows: seq<Row>): (r: seq<AiEntry>)
    ensures |r| <= |rows|
  {
    if rows == [] then []
    else
      var last := rows[|rows| - 1];
      AiCandidates(rows[..|rows| - 1]) + (if AiScore(last.title) > 0 then [AiEntryOf(last)] else [])
  }

  /** The list print_funding_tracker builds before sorting: the rows is_funding accepts, in row order. */
  function FundingCandidates(rows: seq<Row>): (r: seq<FundingEntry>)
    ensures |r| <= |rows|
  {
    if rows == [] then []
    else
      var last := rows[|rows| - 1];
      FundingCandidates(rows[..|rows| - 1]) + (if IsFunding(last.title) then [FundingEntryOf(last)] else [])
  }

  /** A tuple is an AI candidate exactly when it comes from a scanned row whose score is positive. */
  lemma {:induction false} AiCandidatesMembers(rows: seq<Row>)
    ensures forall e :: e in AiCandidates(rows) <==> exists r | r in rows :: AiScore(r.title) > 0 && e == AiEntryOf(r)
  {
    if rows != [] {
      var init := rows[..|rows| - 1];
      AiCandidatesMembers(init);
      assert rows == init + [rows[|rows| - 1]];
    }
  }

  /** A tuple is a funding candidate exactly when it comes from a scanned row is_funding accepts. */
  lemma {:induction false} FundingCandidatesMembers(rows: seq<Row>)
    ensures forall e :: e in FundingCandidates(rows) <==> exists r | r in rows :: IsFunding(r.title) && e == FundingEntryOf(r)
  {
    if rows != [] {
      var init := rows[..|rows| - 1];
      FundingCandidatesMembers(init);
      assert rows == init + [rows[|rows| - 1]];
    }
  }

  // ---------- the views ----------

  /**
    `top` is what sorting `cands` with reverse=True and taking `[:limit]`
    gives: min(limit, |cands|) of them, descending, and none left out ranks above one kept.
   */
  ghost predicate TopAi(top: seq<AiEntry>, cands: seq<AiEntry>, limit: nat) {
    && |top| == Min(limit, |cands|)
    && multiset(top) <= multiset(cands)
    && Descending(top, AiAtMost)
    && (forall x | x in multiset(cands) - multiset(top) :: forall y | y in top :: AiAtMost(x, y))
  }

  /** The same for the funding tuples. */
  ghost predicate TopFunding(top: seq<FundingEntry>, cands: seq<FundingEntry>, limit: nat) {
    && |top| == Min(limit, |cands|)
    && multiset(top) <= multiset(cands)
    && Descending(top, FundingAtMost)
    && (forall x | x in multiset(cands) - multiset(top) :: forall y | y in top :: FundingAtMost(x, y))
  }

  /**
    print_ai_brief without the printing: the `limit` greatest candidates from
    the newest `scan` rows, by score, then by inserted_at, descending.
   */
  method AiBrief(store: ArticleStore, limit: nat, scan: nat) returns (brief: Result<seq<AiEntry>, DbError>)
    requires store.Valid()
    ensures brief.Err? <==> !store.created
    ensures brief.Ok? ==> TopAi(brief.value, AiCandidates(RecentRows(store.State(), scan)), limit)
    ensures brief.Ok? ==> var top := brief.value; forall i, j :: 0 <= i < j < |top| ==>
      top[j].score <= top[i].score && (top[j].score == top[i].score ==> top[j].insertedAt <= top[i].insertedAt)
  {
    var rows := store.GetRecentRows(scan);
    if rows.Err? {
      return Err(rows.error);
    }
    var top := RankAi(rows.value, limit);
    RankedByScore(top);
    brief := Ok(top);
  }

  /** The body of print_ai_brief after the query: score each row, keep the positive ones, sort, cut at `limit`. */
  method RankAi(rows: seq<Row>, limit: nat) returns (top: seq<AiEntry>)
    ensures TopAi(top, AiCandidates(rows), limit)
  {
    var scored := AiScan(rows);
    AiOrder();
    scored := SortDescending(scored, AiAtMost);
    TopPrefix(scored, AiCandidates(rows), Min(limit, |scored|), AiAtMost);
    top := scored[..Min(limit, |scored|)];
  }

  method AiScan(rows: seq<Row>) returns (scored: seq<AiEntry>)
    ensures scored == AiCandidates(rows)
  {
    scored := [];
    for i := 0 to |rows|
      invariant scored == AiCandidates(rows[..i])
    {
      var title := rows[i].title;
      var s := ScoreAi(title);
      if s > 0 {
        scored := scored + [AiEntry(s, rows[i].insertedAt, rows[i].source, title, rows[i].url)];
      }
      assert rows[..i + 1][..i] == rows[..i];
    }
    assert rows[..|rows|] == rows;
  }

  /**
    print_funding_tracker without the printing: the `limit` newest funding
    candidates from the newest `scan` rows, by inserted_at descending.
   */
  method FundingTracker(store: ArticleStore, limit: nat, scan: nat) returns (tracker: Result<seq<FundingEntry>, DbError>)
    requires store.Valid()
    ensures tracker.Err? <==> !store.created
    ensures tracker.Ok? ==> TopFunding(tracker.value, FundingCandidates(RecentRows(store.State(), scan)), limit)
    ensures tracker.Ok? ==> var top := tracker.value; forall i, j :: 0 <= i < j < |top| ==> top[j].insertedAt <= top[i].insertedAt
  {
    var rows := store.GetRecentRows(scan);
    if rows.Err? {
      return Err(rows.error);
    }
    var top := RankFunding(rows.value, limit);
    NewestFirstByStamp(top);
    tracker := Ok(top);
  }

  /** The body of print_funding_tracker after the query: keep the funding rows, sort, cut at `limit`. */
  method RankFunding(rows: seq<Row>, limit: nat) returns (top: seq<FundingEntry>)
    ensures TopFunding(top, FundingCandidates(rows), limit)
  {
    var hits := FundingScan(rows);
    FundingOrder();
    hits := SortDescending(hits, FundingAtMost);
    TopPrefix(hits, FundingCandidates(rows), Min(limit, |hits|), FundingAtMost);
    top := hits[..Min(limit, |hits|)];
  }

  method FundingScan(rows: seq<Row>) returns (hits: seq<FundingEntry>)
    ensures hits == FundingCandidates(rows)
  {
    hits := [];
    for i := 0 to |rows|
      invariant hits == FundingCandidates(rows[..i])
    {
      if IsFunding(rows[i].title) {
        hits := hits + [FundingEntry(rows[i].insertedAt, rows[i].source, rows[i].title, rows[i].url)];
      }
      assert rows[..i + 1][..i] == rows[..i];
    }
    assert rows[..|rows|] == rows;
  }
}
