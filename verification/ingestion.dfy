/**
  Feed ingestion (ingest.py:41-110). A source's feed arrives already fetched and
  parsed: the network fetch and the XML parser are replaced by a `Source` whose
  document is either a parsed `Feed` or the error that fetching or parsing
  raised. The SHA-256 digest and the RSS date parser are the parameters
  `digest` and `parse`; `now` is the clock reading stamped on inserted rows.
 */
module Ingestion {
  import opened Wrappers
  import opened Text
  import opened Db
  import opened Identity

  /** The default `limit` of ingest_source, the cap on candidates per source. */
  const FEED_LIMIT: nat := 25

  /** An RSS `item`: each child text is None when the element is absent. */
  datatype RssItem = RssItem(title: Option<string>, link: Option<string>, pubDate: Option<string>)

  /** An Atom `link` element: its `rel` and `href` attributes. */
  datatype AtomLink = AtomLink(rel: Option<string>, href: Option<string>)

  datatype AtomEntry = AtomEntry(title: Option<string>, links: seq<AtomLink>, published: Option<string>, updated: Option<string>)

  /** A parsed document: all RSS `item` elements and all Atom `entry` elements, in document order. */
  datatype Feed = Feed(items: seq<RssItem>, entries: seq<AtomEntry>)

  /** What fetch_feed or ET.fromstring raises. */
  datatype FeedError = FetchFailed | MalformedXml

  /** Why a source was abandoned: its feed could not be had, or an Atom link without href made `.strip()` fail on None. */
  datatype SourceError = FeedFailed(cause: FeedError) | LinkWithoutHref

  /** A configured source with the outcome of fetching and parsing its feed. */
  datatype Source = Source(name: string, document: Result<Feed, FeedError>)

  /** What one candidate item does: nothing, an insert attempt, or an exception that ends the source. */
  datatype Step = Skip | Put(article: NewArticle) | Abort(error: SourceError)

  datatype Run = Run(table: Table, added: nat, error: Option<SourceError>)

  datatype Ingested = Ingested(table: Table, result: Result<nat, SourceError>)

  datatype Batch = Batch(table: Table, total: nat, report: seq<Result<nat, SourceError>>)

  /** Python's `s[:limit]`. */
  function Take<T>(s: seq<T>, limit: nat): (r: seq<T>)
    ensures |r| == Min(|s|, limit)
    ensures r == s[..|r|]
  {
    if |s| <= limit then s else s[..limit]
  }

  /** parse_rss_date: None for a missing or empty date; otherwise the (opaque) format parser on the stripped text. */
  function ParseRssDate(raw: Option<string>, parse: string -> Option<string>): (r: Option<string>)
    ensures raw.None? || raw == Some("") ==> r.None?
  {
    if raw.None? || raw.value == "" then None else parse(Strip(raw.value))
  }

  // ---------- one candidate ----------

  function RssStep(name: string, item: RssItem, digest: string -> string, parse: string -> Option<string>): Step {
    var title := Strip(OrEmpty(item.title));
    var link := Strip(OrEmpty(item.link));
    if title == "" || link == "" then Skip
    else Put(NewArticle(MakeId(digest, title, name, link), title, name, link, ParseRssDate(item.pubDate, parse)))
  }

  /** The index of the first link with rel="alternate" (`a:link[@rel='alternate']`). */
  function FirstAlternate(links: seq<AtomLink>): (r: Option<nat>)
    ensures r.Some? ==> r.value < |links| && links[r.value].rel == Some("alternate")
    ensures r.Some? ==> forall j | 0 <= j < r.value :: links[j].rel != Some("alternate")
    ensures r.None? ==> forall j | 0 <= j < |links| :: links[j].rel != Some("alternate")
  {
    if links == [] then None
    else if links[0].rel == Some("alternate") then Some(0)
    else match FirstAlternate(links[1..])
      case None => None
      case Some(i) => Some(i + 1)
  }

  /** The link element an entry's url comes from: the first alternate link, else the first link, else none. */
  function LinkElement(links: seq<AtomLink>): Option<AtomLink> {
    match FirstAlternate(links)
    case Some(i) => Some(links[i])
    case None => if links == [] then None else Some(links[0])
  }

  /** `a:link[@rel='alternate']` wins over the first `a:link`; there is a link element exactly when there are links. */
  lemma LinkElementChoice(links: seq<AtomLink>)
    ensures LinkElement(links).Some? <==> links != []
    ensures (exists j | 0 <= j < |links| :: links[j].rel == Some("alternate")) ==>
      exists i | 0 <= i < |links| :: LinkElement(links) == Some(links[i]) && links[i].rel == Some("alternate")
        && forall j | 0 <= j < i :: links[j].rel != Some("alternate")
    ensures (forall j | 0 <= j < |links| :: links[j].rel != Some("alternate")) && links != [] ==> LinkElement(links) == Some(links[0])
  {
    match FirstAlternate(links)
    case Some(i) =>
    case None =>
  }

  /** The entry's date: `published`, or `updated` when published is missing or empty; stripped, and None when empty. */
  function AtomPublished(entry: AtomEntry): (r: Option<string>)
    ensures entry.published.Some? && entry.published.value != "" ==> r == Some(Strip(entry.published.value))
    ensures (entry.published.None? || entry.published == Some("")) ==>
      r == if entry.updated.Some? && entry.updated.value != "" then Some(Strip(entry.updated.value)) else None
  {
    var published := if entry.published.Some? && entry.published.value != "" then entry.published else entry.updated;
    if published.Some? && published.value != "" then Some(Strip(published.value)) else None
  }

  /** One Atom entry. The href is read before the title check, so a link without href aborts even an untitled entry. */
  function AtomStep(name: string, entry: AtomEntry, digest: string -> string): Step {
    var title := Strip(OrEmpty(entry.title));
    var linkEl := LinkElement(entry.links);
    if linkEl.Some? && linkEl.value.href.None? then Abort(LinkWithoutHref)
    else
      var link := if linkEl.Some? then Strip(linkEl.value.href.value) else "";
      if title == "" || link == "" then Skip
      else Put(NewArticle(MakeId(digest, title, name, link), title, name, link, AtomPublished(entry)))
  }

  function RssSteps(name: string, items: seq<RssItem>, digest: string -> string, parse: string -> Option<string>): (r: seq<Step>)
    ensures |r| == |items|
  {
    seq(|items|, i requires 0 <= i < |items| => RssStep(name, items[i], digest, parse))
  }

  function AtomSteps(name: string, entries: seq<AtomEntry>, digest: string -> string): (r: seq<Step>)
    ensures |r| == |entries|
  {
    seq(|entries|, i requires 0 <= i < |entries| => AtomStep(name, entries[i], digest))
  }

  /** The candidates of one feed: the capped RSS items, or the capped Atom entries when there are no RSS items. */
  function Steps(name: string, feed: Feed, limit: nat, digest: string -> string, parse: string -> Option<string>): (r: seq<Step>)
    ensures |r| <= limit
  {
    var items := Take(feed.items, limit);
    if |items| > 0 then RssSteps(name, items, digest, parse)
    else AtomSteps(name, Take(feed.entries, limit), digest)
  }

  // ---------- one source ----------

  /** Carry out the steps in order from table t, with `added` new rows so far; the first Abort stops the source. */
  function Apply(t: Table, steps: seq<Step>, added: nat, now: nat): (r: Run)
    requires Wf(t)
    ensures Wf(r.table)
    decreases |steps|
  {
    if steps == [] then Run(t, added, None)
    else match steps[0]
      case Skip => Apply(t, steps[1..], added, now)
      case Put(a) =>
        var (t', isNew) := Insert(t, a, now);
        Apply(t', steps[1..], if isNew then added + 1 else added, now)
      case Abort(e) => Run(t, added, Some(e))
  }

  /** ingest_source: the new-row count, or the exception that ended the source (whose earlier inserts stay stored). */
  function SourceRun(t: Table, src: Source, limit: nat, digest: string -> string, parse: string -> Option<string>, now: nat): (r: Ingested)
    requires Wf(t)
    ensures Wf(r.table)
  {
    match src.document
    case Err(e) => Ingested(t, Err(FeedFailed(e)))
    case Ok(feed) =>
      var run := Apply(t, Steps(src.name, feed, limit, digest, parse), 0, now);
      Ingested(run.table, if run.error.Some? then Err(run.error.value) else Ok(run.added))
  }

  /** What a source contributes to ingest_all's total: its count, or 0 when it raised. */
  function Added(r: Result<nat, SourceError>): nat {
    if r.Ok? then r.value else 0
  }

  /** ingest_all: every source in order, each on the table its predecessors left. */
  function AllRun(t: Table, sources: seq<Source>, digest: string -> string, parse: string -> Option<string>, now: nat): (b: Batch)
    requires Wf(t)
    ensures Wf(b.table)
    ensures |b.report| == |sources|
    decreases |sources|
  {
    if sources == [] then Batch(t, 0, [])
    else
      var b := AllRun(t, sources[..|sources| - 1], digest, parse, now);
      var r := SourceRun(b.table, sources[|sources| - 1], FEED_LIMIT, digest, parse, now);
      Batch(r.table, b.total + Added(r.result), b.report + [r.result])
  }

  // ---------- the imperative loops ----------

  /** ingest_source: the RSS loop over the capped items, then the Atom loop when there were none. */
  method IngestSource(store: ArticleStore, src: Source, limit: nat, digest: string -> string,
                      parse: string -> Option<string>, now: nat) returns (result: Result<nat, SourceError>)
    requires store.Valid() && store.created
    modifies store
    ensures store.Valid() && store.created
    ensures Ingested(store.State(), result) == SourceRun(old(store.State()), src, limit, digest, parse, now)
  {
    if src.document.Err? {
      return Err(FeedFailed(src.document.error));
    }
    var feed := src.document.value;
    var items := Take(feed.items, limit);
    var newCount := IngestItems(store, src.name, items, digest, parse, now);
    if |items| == 0 {
      var error;
      newCount, error := IngestEntries(store, src.name, Take(feed.entries, limit), digest, now);
      if error.Some? {
        return Err(error.value);
      }
    }
    result := Ok(newCount);
  }

  /** The RSS loop: insert every item with a title and a link, counting the inserts that were new. */
  method IngestItems(store: ArticleStore, name: string, items: seq<RssItem>, digest: string -> string,
                     parse: string -> Option<string>, now: nat) returns (newCount: nat)
    requires store.Valid() && store.created
    modifies store
    ensures store.Valid() && store.created
    ensures Apply(old(store.State()), RssSteps(name, items, digest, parse), 0, now) == Run(store.State(), newCount, None)
  {
    ghost var t0 := store.State();
    ghost var steps := RssSteps(name, items, digest, parse);
    newCount := 0;
    for i := 0 to |items|
      invariant store.Valid() && store.created
      invariant Apply(t0, steps, 0, now) == Apply(store.State(), steps[i..], newCount, now)
    {
      ApplyFirst(store.State(), steps, i, newCount, now);
      assert steps[i] == RssStep(name, items[i], digest, parse);
      var title := Strip(OrEmpty(items[i].title));
      var link := Strip(OrEmpty(items[i].link));
      if title != "" && link != "" {
        var article := NewArticle(MakeId(digest, title, name, link), title, name, link,
                                  ParseRssDate(items[i].pubDate, parse));
        var isNew := store.InsertArticle(article, now);
        if isNew {
          newCount := newCount + 1;
        }
      }
    }
  }

  /**
    The Atom loop. A chosen link element without href ends the loop with the
    exception; the rows inserted before it stay.
   */
  method IngestEntries(store: ArticleStore, name: string, entries: seq<AtomEntry>, digest: string -> string, now: nat)
    returns (newCount: nat, error: Option<SourceError>)
    requires store.Valid() && store.created
    modifies store
    ensures store.Valid() && store.created
    ensures Apply(old(store.State()), AtomSteps(name, entries, digest), 0, now) == Run(store.State(), newCount, error)
  {
    ghost var t0 := store.State();
    ghost var steps := AtomSteps(name, entries, digest);
    newCount, error := 0, None;
    for i := 0 to |entries|
      invariant store.Valid() && store.created
      invariant Apply(t0, steps, 0, now) == Apply(store.State(), steps[i..], newCount, now)
    {
      ApplyFirst(store.State(), steps, i, newCount, now);
      ghost var step := AtomStep(name, entries[i], digest);
      assert steps[i] == step;
      var title := Strip(OrEmpty(entries[i].title));
      var linkEl := LinkElement(entries[i].links);
      if linkEl.Some? && linkEl.value.href.None? {
        assert step == Abort(LinkWithoutHref);
        return newCount, Some(LinkWithoutHref);
      }
      var link := if linkEl.Some? then Strip(linkEl.value.href.value) else "";
      var published := AtomPublished(entries[i]);
      if title != "" && link != "" {
        var article := NewArticle(MakeId(digest, title, name, link), title, name, link, published);
        assert step == Put(article);
        var isNew := store.InsertArticle(article, now);
        if isNew {
          newCount := newCount + 1;
        }
      } else {
        assert step == Skip;
      }
    }
  }

  /** Apply on the steps from i on, unfolded once. */
  lemma ApplyFirst(t: Table, steps: seq<Step>, i: nat, added: nat, now: nat)
    requires Wf(t) && i < |steps|
    ensures steps[i].Skip? ==> Apply(t, steps[i..], added, now) == Apply(t, steps[i + 1..], added, now)
    ensures steps[i].Put? ==> var (t', isNew) := Insert(t, steps[i].article, now);
      Apply(t, steps[i..], added, now) == Apply(t', steps[i + 1..], if isNew then added + 1 else added, now)
    ensures steps[i].Abort? ==> Apply(t, steps[i..], added, now) == Run(t, added, Some(steps[i].error))
  {
    assert steps[i..][1..] == steps[i + 1..];
  }

  method IngestAll(store: ArticleStore, sources: seq<Source>, digest: string -> string,
                   parse: string -> Option<string>, now: nat) returns (total: nat, report: seq<Result<nat, SourceError>>)
    requires store.Valid() && store.created
    modifies store
    ensures store.Valid() && store.created
    ensures Batch(store.State(), total, report) == AllRun(old(store.State()), sources, digest, parse, now)
  {
    total, report := 0, [];
    ghost var t0 := store.State();
    for k := 0 to |sources|
      invariant store.Valid() && store.created
      invariant Batch(store.State(), total, report) == AllRun(t0, sources[..k], digest, parse, now)
    {
      total, report := IngestNext(store, sources, k, total, report, t0, digest, parse, now);
    }
    assert sources[..|sources|] == sources;
  }

  /** One pass of ingest_all's loop: ingest source k and extend the running total and report. */
  method IngestNext(store: ArticleStore, sources: seq<Source>, k: nat, total: nat, report: seq<Result<nat, SourceError>>,
                    ghost t0: Table, digest: string -> string, parse: string -> Option<string>, now: nat)
    returns (total': nat, report': seq<Result<nat, SourceError>>)
    requires store.Valid() && store.created && Wf(t0) && k < |sources|
    requires Batch(store.State(), total, report) == AllRun(t0, sources[..k], digest, parse, now)
    modifies store
    ensures store.Valid() && store.created
    ensures Batch(store.State(), total', report') == AllRun(t0, sources[..k + 1], digest, parse, now)
  {
    AllRunStep(t0, sources, k, digest, parse, now);
    var result := IngestSource(store, sources[k], FEED_LIMIT, digest, parse, now);
    total' := total + Added(result);
    report' := report + [result];
  }


  // ---------- properties of one source ----------

  /** What ingestion may store: trimmed, non-empty title and url, from this source, under the id of that triple. */
  ghost predicate Proper(a: NewArticle, name: string, digest: string -> string) {
    && a.title != "" && a.url != "" && Trimmed(a.title) && Trimmed(a.url)
    && a.source == name && a.id == MakeId(digest, a.title, name, a.url)
  }

  ghost predicate ProperRow(r: Row, name: string, digest: string -> string) {
    Proper(NewArticle(r.id, r.title, r.source, r.url, r.published), name, digest)
  }

  /** The ids offered for insertion before the first exception. */
  ghost function PutIds(steps: seq<Step>): set<string> {
    if steps == [] then {}
    else match steps[0]
      case Skip => PutIds(steps[1..])
      case Put(a) => {a.id} + PutIds(steps[1..])
      case Abort(_) => {}
  }

  /** The exception that ends the steps, if any. */
  function FirstAbort(steps: seq<Step>): Option<SourceError> {
    if steps == [] then None
    else match steps[0]
      case Abort(e) => Some(e)
      case _ => FirstAbort(steps[1..])
  }

  /** Applying steps only adds rows, one per insert that reported new, and never changes a stored row. */
  lemma {:induction false} ApplyGrows(t: Table, steps: seq<Step>, added: nat, now: nat)
    requires Wf(t)
    ensures var r := Apply(t, steps, added, now);
      && added <= r.added <= added + |steps|
      && Count(r.table) == Count(t) + (r.added - added)
      && t.rows.Keys <= r.table.rows.Keys
      && (forall id | id in t.rows :: r.table.rows[id] == t.rows[id])
      && r.error == FirstAbort(steps)
      && PutIds(steps) <= r.table.rows.Keys
    decreases |steps|
  {
    if steps != [] {
      match steps[0]
      case Skip =>
        ApplyGrows(t, steps[1..], added, now);
      case Put(a) =>
        var (t', isNew) := Insert(t, a, now);
        ApplyGrows(t', steps[1..], if isNew then added + 1 else added, now);
      case Abort(e) =>
    }
  }

  /** Every row a run adds comes from a Put step, stamped with `now`. */
  lemma {:induction false} ApplyAddsProper(t: Table, steps: seq<Step>, added: nat, now: nat, name: string, digest: string -> string)
    requires Wf(t)
    requires forall k | 0 <= k < |steps| :: steps[k].Put? ==> Proper(steps[k].article, name, digest)
    ensures var r := Apply(t, steps, added, now);
      forall id | id in r.table.rows && id !in t.rows :: ProperRow(r.table.rows[id], name, digest) && r.table.rows[id].insertedAt == now
    decreases |steps|
  {
    if steps != [] {
      var rest := steps[1..];
      assert forall k | 0 <= k < |rest| :: rest[k] == steps[k + 1];
      match steps[0]
      case Skip =>
        ApplyAddsProper(t, rest, added, now, name, digest);
      case Put(a) =>
        assert Proper(a, name, digest);
        var (t', isNew) := Insert(t, a, now);
        var added' := if isNew then added + 1 else added;
        ApplyAddsProper(t', rest, added', now, name, digest);
        ApplyGrows(t', rest, added', now);
        var r := Apply(t', rest, added', now);
        forall id | id in r.table.rows && id !in t.rows
          ensures ProperRow(r.table.rows[id], name, digest) && r.table.rows[id].insertedAt == now
        {
          if id in t'.rows {
            assert id == a.id && r.table.rows[id] == RowOf(a, now);
          }
        }
      case Abort(e) =>
    }
  }

  /** Steps whose ids are all stored already change nothing. */
  lemma {:induction false} ApplyStable(t: Table, steps: seq<Step>, added: nat, now: nat)
    requires Wf(t) && PutIds(steps) <= t.rows.Keys
    ensures Apply(t, steps, added, now) == Run(t, added, FirstAbort(steps))
    decreases |steps|
  {
    if steps != [] {
      match steps[0]
      case Skip =>
        ApplyStable(t, steps[1..], added, now);
      case Put(a) =>
        assert Insert(t, a, now) == (t, false);
        ApplyStable(t, steps[1..], added, now);
      case Abort(e) =>
    }
  }

  lemma StepsProper(name: string, feed: Feed, limit: nat, digest: string -> string, parse: string -> Option<string>)
    ensures var steps := Steps(name, feed, limit, digest, parse);
      forall k | 0 <= k < |steps| :: steps[k].Put? ==> Proper(steps[k].article, name, digest)
  {
    var steps := Steps(name, feed, limit, digest, parse);
    var items := Take(feed.items, limit);
    var entries := Take(feed.entries, limit);
    forall k | 0 <= k < |steps| ensures steps[k].Put? ==> Proper(steps[k].article, name, digest) {
      if |items| > 0 {
        assert steps[k] == RssStep(name, items[k], digest, parse);
        RssStepProper(name, items[k], digest, parse);
      } else {
        assert steps[k] == AtomStep(name, entries[k], digest);
        AtomStepProper(name, entries[k], digest);
      }
    }
  }

  lemma RssStepProper(name: string, item: RssItem, digest: string -> string, parse: string -> Option<string>)
    ensures var step := RssStep(name, item, digest, parse); step.Put? ==> Proper(step.article, name, digest)
  {
  }

  lemma AtomStepProper(name: string, entry: AtomEntry, digest: string -> string)
    ensures var step := AtomStep(name, entry, digest); step.Put? ==> Proper(step.article, name, digest)
  {
  }


  /**
    One source: at most `limit` candidates; the count is exactly the number of
    rows added; only proper articles are stored; stored rows never change; a
    failed fetch or parse leaves the table alone.
   */
  lemma SourceRunFacts(t: Table, src: Source, limit: nat, digest: string -> string, parse: string -> Option<string>, now: nat)
    requires Wf(t)
    ensures var r := SourceRun(t, src, limit, digest, parse, now);
      && t.rows.Keys <= r.table.rows.Keys
      && (forall id | id in t.rows :: r.table.rows[id] == t.rows[id])
      && (forall id | id in r.table.rows && id !in t.rows :: ProperRow(r.table.rows[id], src.name, digest) && r.table.rows[id].insertedAt == now)
      && (r.result.Ok? ==> src.document.Ok? && r.result.value <= |Steps(src.name, src.document.value, limit, digest, parse)| <= limit)
      && (r.result.Ok? ==> Count(r.table) == Count(t) + r.result.value)
      && (src.document.Err? ==> r.table == t)
  {
    if src.document.Ok? {
      var steps := Steps(src.name, src.document.value, limit, digest, parse);
      ApplyGrows(t, steps, 0, now);
      StepsProper(src.name, src.document.value, limit, digest, parse);
      ApplyAddsProper(t, steps, 0, now, src.name, digest);
    }
  }

  /** An Atom link without href ends the source with nothing counted, yet the rows inserted before it stay stored. */
  lemma HreflessLinkKeepsEarlierRows(t: Table, src: Source, limit: nat, digest: string -> string, parse: string -> Option<string>, now: nat)
    requires Wf(t) && SourceRun(t, src, limit, digest, parse, now).result == Err(LinkWithoutHref)
    ensures src.document.Ok?
    ensures PutIds(Steps(src.name, src.document.value, limit, digest, parse)) <= SourceRun(t, src, limit, digest, parse, now).table.rows.Keys
    ensures Added(SourceRun(t, src, limit, digest, parse, now).result) == 0
  {
    ApplyGrows(t, Steps(src.name, src.document.value, limit, digest, parse), 0, now);
  }

  /** When the capped item list is not empty, the Atom entries play no part. */
  lemma RssShadowsAtom(name: string, items: seq<RssItem>, entries: seq<AtomEntry>, limit: nat,
                       digest: string -> string, parse: string -> Option<string>)
    requires items != []
    ensures Steps(name, Feed(items, entries), limit, digest, parse) == Steps(name, Feed(items, []), limit, digest, parse)
  {
  }

  /** Ingesting the same source again, at any later time, adds nothing and reports 0 (or the same exception). */
  lemma ReingestSource(t: Table, src: Source, limit: nat, digest: string -> string, parse: string -> Option<string>, now: nat, later: nat)
    requires Wf(t)
    ensures var a := SourceRun(t, src, limit, digest, parse, now);
      var b := SourceRun(a.table, src, limit, digest, parse, later);
      b.table == a.table && b.result == (if a.result.Ok? then Ok(0) else a.result)
  {
    if src.document.Ok? {
      var steps := Steps(src.name, src.document.value, limit, digest, parse);
      ApplyGrows(t, steps, 0, now);
      ApplyStable(Apply(t, steps, 0, now).table, steps, 0, later);
    }
  }

  // ---------- properties of the whole batch ----------

  /** The ids a source offers when it is ingested with the default cap. */
  ghost function SourceIds(src: Source, digest: string -> string, parse: string -> Option<string>): set<string> {
    if src.document.Err? then {} else PutIds(Steps(src.name, src.document.value, FEED_LIMIT, digest, parse))
  }

  function SumAdded(report: seq<Result<nat, SourceError>>): nat {
    if report == [] then 0 else SumAdded(report[..|report| - 1]) + Added(report[|report| - 1])
  }

  /** The total is the sum of the per-source counts, a raising source counting 0. */
  lemma {:induction false} AllRunTotal(t: Table, sources: seq<Source>, digest: string -> string, parse: string -> Option<string>, now: nat)
    requires Wf(t)
    ensures AllRun(t, sources, digest, parse, now).total == SumAdded(AllRun(t, sources, digest, parse, now).report)
    decreases |sources|
  {
    if sources != [] {
      var init := sources[..|sources| - 1];
      AllRunTotal(t, init, digest, parse, now);
      var bi := AllRun(t, init, digest, parse, now);
      var b := AllRun(t, sources, digest, parse, now);
      assert b.report[..|b.report| - 1] == bi.report;
    }
  }

  /** Sources run in list order, each on the table its predecessors left, and none stops the later ones. */
  lemma AllRunReport(t: Table, sources: seq<Source>, digest: string -> string, parse: string -> Option<string>, now: nat)
    requires Wf(t)
    ensures forall k | 0 <= k < |sources| ::
      AllRun(t, sources, digest, parse, now).report[k]
        == SourceRun(AllRun(t, sources[..k], digest, parse, now).table, sources[k], FEED_LIMIT, digest, parse, now).result
  {
    forall k | 0 <= k < |sources|
      ensures AllRun(t, sources, digest, parse, now).report[k]
        == SourceRun(AllRun(t, sources[..k], digest, parse, now).table, sources[k], FEED_LIMIT, digest, parse, now).result
    {
      AllRunReportAt(t, sources, k, digest, parse, now);
    }
  }

  lemma {:induction false} AllRunReportAt(t: Table, sources: seq<Source>, k: nat, digest: string -> string, parse: string -> Option<string>, now: nat)
    requires Wf(t) && k < |sources|
    ensures AllRun(t, sources, digest, parse, now).report[k]
      == SourceRun(AllRun(t, sources[..k], digest, parse, now).table, sources[k], FEED_LIMIT, digest, parse, now).result
    decreases |sources|
  {
    var n := |sources|;
    var init := sources[..n - 1];
    var before := AllRun(t, init, digest, parse, now).report;
    AllRunExtends(t, sources, digest, parse, now);
    if k == n - 1 {
      assert sources[..k] == init;
    } else {
      assert AllRun(t, sources, digest, parse, now).report[k] == before[k];
      AllRunReportAt(t, init, k, digest, parse, now);
      PrefixOfInit(sources, k);
    }
  }


  lemma PrefixOfInit<T>(s: seq<T>, k: nat)
    requires k < |s| - 1
    ensures s[..|s| - 1][..k] == s[..k] && s[..|s| - 1][k] == s[k]
  {
  }


  /** One more source: the batch over the first k + 1 sources is the batch over the first k, then source k. */
  lemma AllRunStep(t: Table, sources: seq<Source>, k: nat, digest: string -> string, parse: string -> Option<string>, now: nat)
    requires Wf(t) && k < |sources|
    ensures var b := AllRun(t, sources[..k], digest, parse, now);
            var r := SourceRun(b.table, sources[k], FEED_LIMIT, digest, parse, now);
            AllRun(t, sources[..k + 1], digest, parse, now) == Batch(r.table, b.total + Added(r.result), b.report + [r.result])
  {
    assert sources[..k + 1][..k] == sources[..k];
  }

  lemma AllRunExtends(t: Table, sources: seq<Source>, digest: string -> string, parse: string -> Option<string>, now: nat)
    requires Wf(t) && sources != []
    ensures var b := AllRun(t, sources[..|sources| - 1], digest, parse, now);
      AllRun(t, sources, digest, parse, now).report
        == b.report + [SourceRun(b.table, sources[|sources| - 1], FEED_LIMIT, digest, parse, now).result]
  {
  }

  /** A source whose fetch or parse failed changes nothing for the others: the batch ends as if it were not listed. */
  lemma {:induction false} FailedFeedIsolated(t: Table, sources: seq<Source>, k: nat, digest: string -> string,
                                              parse: string -> Option<string>, now: nat)
    requires Wf(t) && k < |sources| && sources[k].document.Err?
    ensures var b := AllRun(t, sources, digest, parse, now);
      var b' := AllRun(t, sources[..k] + sources[k + 1..], digest, parse, now);
      b.table == b'.table && b.total == b'.total
    decreases |sources|
  {
    if k == |sources| - 1 {
      FailedFeedLast(t, sources, k, digest, parse, now);
    } else {
      FailedFeedIsolated(t, sources[..|sources| - 1], k, digest, parse, now);
      FailedFeedEarlier(t, sources, k, digest, parse, now);
    }
  }

  lemma FailedFeedLast(t: Table, sources: seq<Source>, k: nat, digest: string -> string,
                       parse: string -> Option<string>, now: nat)
    requires Wf(t) && k == |sources| - 1 && sources[k].document.Err?
    ensures var b := AllRun(t, sources, digest, parse, now);
      var b' := AllRun(t, sources[..k] + sources[k + 1..], digest, parse, now);
      b.table == b'.table && b.total == b'.total
  {
    DropLast(sources, k);
    AllRunLast(t, sources, digest, parse, now);
  }

  lemma FailedFeedEarlier(t: Table, sources: seq<Source>, k: nat, digest: string -> string,
                          parse: string -> Option<string>, now: nat)
    requires Wf(t) && k < |sources| - 1
    requires var init := sources[..|sources| - 1];
      var b := AllRun(t, init, digest, parse, now);
      var b' := AllRun(t, init[..k] + init[k + 1..], digest, parse, now);
      b.table == b'.table && b.total == b'.total
    ensures var b := AllRun(t, sources, digest, parse, now);
      var b' := AllRun(t, sources[..k] + sources[k + 1..], digest, parse, now);
      b.table == b'.table && b.total == b'.total
  {
    DropBeforeLast(sources, k);
    AllRunSameLast(t, sources, sources[..k] + sources[k + 1..], digest, parse, now);
  }

  lemma DropLast<T>(s: seq<T>, k: nat)
    requires k == |s| - 1
    ensures s[..k] + s[k + 1..] == s[..|s| - 1]
  {
  }

  /** Dropping an element other than the last keeps the last and drops the same element from the rest. */
  lemma DropBeforeLast<T>(s: seq<T>, k: nat)
    requires k < |s| - 1
    ensures var rest := s[..k] + s[k + 1..];
      rest[..|rest| - 1] == s[..|s| - 1][..k] + s[..|s| - 1][k + 1..] && rest[|rest| - 1] == s[|s| - 1]
  {
  }

  lemma AllRunLast(t: Table, sources: seq<Source>, digest: string -> string, parse: string -> Option<string>, now: nat)
    requires Wf(t) && sources != [] && sources[|sources| - 1].document.Err?
    ensures AllRun(t, sources, digest, parse, now).table == AllRun(t, sources[..|sources| - 1], digest, parse, now).table
    ensures AllRun(t, sources, digest, parse, now).total == AllRun(t, sources[..|sources| - 1], digest, parse, now).total
  {
  }

  /** Two batches that reach the same table and total stay level after the same last source. */
  lemma AllRunSameLast(t: Table, a: seq<Source>, b: seq<Source>, digest: string -> string, parse: string -> Option<string>, now: nat)
    requires Wf(t) && a != [] && b != [] && a[|a| - 1] == b[|b| - 1]
    requires AllRun(t, a[..|a| - 1], digest, parse, now).table == AllRun(t, b[..|b| - 1], digest, parse, now).table
    requires AllRun(t, a[..|a| - 1], digest, parse, now).total == AllRun(t, b[..|b| - 1], digest, parse, now).total
    ensures AllRun(t, a, digest, parse, now).table == AllRun(t, b, digest, parse, now).table
    ensures AllRun(t, a, digest, parse, now).total == AllRun(t, b, digest, parse, now).total
  {
  }

  lemma SourceRunCovers(t: Table, src: Source, digest: string -> string, parse: string -> Option<string>, now: nat)
    requires Wf(t)
    ensures var r := SourceRun(t, src, FEED_LIMIT, digest, parse, now);
      t.rows.Keys <= r.table.rows.Keys && SourceIds(src, digest, parse) <= r.table.rows.Keys
  {
    if src.document.Ok? {
      ApplyGrows(t, Steps(src.name, src.document.value, FEED_LIMIT, digest, parse), 0, now);
    }
  }

  /** The ids all sources offer, with the default cap. */
  ghost function BatchIds(sources: seq<Source>, digest: string -> string, parse: string -> Option<string>): set<string> {
    if sources == [] then {}
    else BatchIds(sources[..|sources| - 1], digest, parse) + SourceIds(sources[|sources| - 1], digest, parse)
  }

  /** After a batch every id any source offered is stored, and nothing stored before is gone. */
  lemma {:induction false} AllRunCovers(t: Table, sources: seq<Source>, digest: string -> string, parse: string -> Option<string>, now: nat)
    requires Wf(t)
    ensures var b := AllRun(t, sources, digest, parse, now);
      t.rows.Keys <= b.table.rows.Keys && BatchIds(sources, digest, parse) <= b.table.rows.Keys
    decreases |sources|
  {
    if sources != [] {
      var init := sources[..|sources| - 1];
      AllRunCovers(t, init, digest, parse, now);
      SourceRunCovers(AllRun(t, init, digest, parse, now).table, sources[|sources| - 1], digest, parse, now);
    }
  }

  /** A batch whose offered ids are all stored already changes nothing and counts 0. */
  lemma {:induction false} AllRunStable(t: Table, sources: seq<Source>, digest: string -> string, parse: string -> Option<string>, now: nat)
    requires Wf(t) && BatchIds(sources, digest, parse) <= t.rows.Keys
    ensures AllRun(t, sources, digest, parse, now).table == t
    ensures AllRun(t, sources, digest, parse, now).total == 0
    decreases |sources|
  {
    if sources != [] {
      var init := sources[..|sources| - 1];
      var last := sources[|sources| - 1];
      AllRunStable(t, init, digest, parse, now);
      if last.document.Ok? {
        ApplyStable(t, Steps(last.name, last.document.value, FEED_LIMIT, digest, parse), 0, now);
      }
    }
  }

  /** Re-ingesting identical feed content adds nothing: the second total is 0 and the table is unchanged. */
  lemma ReingestAll(t: Table, sources: seq<Source>, digest: string -> string, parse: string -> Option<string>, now: nat, later: nat)
    requires Wf(t)
    ensures var first := AllRun(t, sources, digest, parse, now);
      var second := AllRun(first.table, sources, digest, parse, later);
      second.table == first.table && second.total == 0
  {
    AllRunCovers(t, sources, digest, parse, now);
    AllRunStable(AllRun(t, sources, digest, parse, now).table, sources, digest, parse, later);
  }
}
