# A verified model of the news ingester's core

The system pulls RSS and Atom feeds from a fixed list of sources and stores each
article once in an SQLite `articles` table keyed by a hash of
title, source and url. It then offers three read-only views of the newest rows:
- a ranked AI brief;
- a funding tracker;
- a static HTML index grouped by source.

This project models in Dafny the parts of that pipeline that make its decisions:

- **Article identity** (`identity.dfy`). `make_id` hashes the joined, lower-cased and stripped key. The hash is a parameter.
- **The table** (`db.dfy`). An `ArticleStore` class holds the rows and their insertion order.
  - `init_db` creates the table if it is absent.
  - `insert_article` inserts only when the id is absent.
  - `get_recent` and `get_recent_rows` are `ORDER BY inserted_at DESC LIMIT n`.
- **Ingestion** (`ingestion.dfy`).
  - `ingest_source`'s RSS loop and its Atom fallback are written as loops over the store.
  - Each loop is proved equal to a step-by-step specification (`Apply`).
  - `ingest_all` is a loop over the sources. An exception ends only the source that raised it.
- **The classifiers** (`scoring.dfy`).
  - `score_ai` is a keyword-counting loop plus the standalone-"ai" bonus.
  - `is_funding` is keywords plus the money regular expression. The regex is written out as a matcher and proved equivalent to "a currency token, at most one whitespace character, a digit".
- **The ranked views** (`views.dfy`, `sorting.dfy`).
  - `print_ai_brief` and `print_funding_tracker` return the list they would print, instead of printing it.
  - Python's tuple comparison is written out as an order, and proved total, transitive and antisymmetric.
  - `list.sort(reverse=True)` is an insertion sort proved to give a descending permutation.
  - Under an antisymmetric order that permutation is unique, so it is the one Python's sort returns.
- **The command line** (`cli.dfy`). The first-match dispatch of the `__main__` block, and its exit status.
- **The web index's data** (`serve.py`, in `serve.dfy`).
  - Its own `is_ai` and `is_funding`, with their relation to the ingest classifiers.
  - The grouping loop that fills the `all`, `ai` and `funding` views.
  - The 120-character snippet cut.

`text.dfy` holds the parts of Python's `str` the code relies on:
- `isspace`;
- ASCII `lower`;
- `strip`;
- the substring test `in`;
- code-point string order.

`wrappers.dfy` holds `Option` and `Result`.

The fetched feed, the SHA-256 digest, the RSS date parser and the clock are parameters:
- A `Source` carries its already parsed document, or the error fetching or parsing raised.
- `digest` and `parse` are function parameters.
- `now` is the `datetime('now')` reading stamped on inserted rows.

## Model

| member | source | states |
|---|---|---|
| `Db.Insert` | db.py:22-32 | A new id is stored as exactly that row, stamped `now`, and the call answers true. An existing id answers false and changes nothing. Stored rows are never overwritten. The primary-key invariant is kept. The count grows by one exactly when the answer is true. |
| `Db.InsertTwice` | db.py:22-32 | Inserting the same article twice: the first call answers true, the second answers false, and the second leaves the table as the first left it. |
| `Db.ArticleStore.constructor` | db.py:8-20 | A database without the articles table holds no rows. |
| `Db.ArticleStore.InitDb` | db.py:8-20 | Afterwards the table exists. If it existed already, its rows are untouched (CREATE TABLE IF NOT EXISTS). If not, it starts empty. |
| `Db.ArticleStore.InsertArticle` | db.py:22-32 | Answers true exactly when the id was not stored. The new state is the one `Insert` describes. |
| `Db.RecentRows` | db.py:54-62 | On an existing table: min(limit, row count) rows, newest first, drawn from the stored rows without repetition. No stored row left out is newer than a returned one. |
| `Db.ArticleStore.GetRecentRows` | db.py:54-62 | Fails with "no such table" exactly when init_db never ran on this database. Otherwise it returns the rows `RecentRows` describes. |
| `Db.ArticleStore.GetRecent` | db.py:34-42 | Fails exactly when the table is missing. Otherwise it returns min(limit, row count) rows: the same rows in the same order, cut to title, source, url and published. |
| `Db.ListedOnce` | db.py:11-18 | Every stored row appears exactly once among the listed rows (the id is the primary key). |
| `Db.StampOrder` | db.py:39 | Ordering by inserted_at is total and transitive. |
| `Identity.MakeId` | ingest.py:14-16 | The digest of the three fields joined with separators, lower-cased and stripped as a whole. Its properties are stated by `MakeIdNormalizes`, `KeyKeepsInnerSpace` and `KeySeparatorAmbiguous`. |
| `Identity.MakeIdNormalizes` | ingest.py:14-16 | The id does not depend on letter case in any field. It also ignores whitespace before the title and after the url. |
| `Identity.KeyKeepsInnerSpace` | ingest.py:15 | For every title, source and url, adding non-empty whitespace to the end of the source changes the key, because whitespace next to a separator is not stripped. |
| `Identity.KeySeparatorAmbiguous` | ingest.py:15-16 | For all strings a, b, c, d: the title a + separator + b with source c gives the same id as the title a with source b + separator + c (url d in both). |
| `Text.Strip` | ingest.py:50-51 | The result has no whitespace at either end and is no longer than the input. |
| `Text.StripPadded` | ingest.py:15 | Whitespace added at both outer ends does not survive strip(). |
| `Text.StrAtMostTotal` | ingest.py:178 | Any two strings are comparable under Python's string order. |
| `Text.StrAtMostAntisymmetric` | ingest.py:178 | Two strings each at most the other are equal. |
| `Text.StrAtMostTransitive` | ingest.py:178 | Python's string order is transitive. |
| `Scoring.AiScore` | ingest.py:129-138 | The score is even and at most 42 (two points for each of 20 keywords, plus the bonus). |
| `Scoring.ScoreAi` | ingest.py:129-138 | The loop over the keywords, plus the bonus, computes `AiScore`. |
| `Scoring.HitsPositive` | ingest.py:132-134 | Some keyword is counted exactly when some keyword occurs in the title. |
| `Scoring.AiBonus` | ingest.py:136 | The standalone-"ai" test. `AiBonusIsPaddedMatch` and `AiBonusHasKeyword` state what it decides. |
| `Scoring.AiBonusIsPaddedMatch` | ingest.py:136 | The startswith and endswith tests add nothing: the bonus holds exactly when " ai " occurs in the space-padded title. |
| `Scoring.AiBonusHasKeyword` | ingest.py:135-136 | A title with the standalone-"ai" bonus also contains the keyword "ai". |
| `Scoring.AiScorePositive` | ingest.py:129-138 | The score is above 0 exactly when some AI keyword is a substring of the lower-cased title. The bonus never decides it. |
| `Scoring.SaidStillScores` | ingest.py:135-136 | "This contains aid and said" scores above 0, because "ai" is matched as a substring. |
| `Scoring.MoneyMatchAt` | ingest.py:127 | A match that starts at i ends after i and within the text. |
| `Scoring.MoneyMatchIff` | ingest.py:127 | The pattern matches at i exactly when a currency token starts at i and is followed by a digit, directly or after one whitespace character. The decimals and the suffix never decide it. |
| `Scoring.IsFunding` | ingest.py:140-146 | A funding keyword in the lower-cased title, or the money pattern found anywhere in it. `IsFundingIff` states it without the regex. |
| `Scoring.IsFundingIff` | ingest.py:140-146 | is_funding holds exactly when a funding keyword occurs in the lower-cased title, or a currency token followed by a digit does. |
| `Scoring.HeadlineExample` | ingest.py:129-146 | "AI startup raises $50M" scores at least 4 and is funding. |
| `Ingestion.Take` | ingest.py:48 | Python's `[:limit]`: the first min(length, limit) elements. |
| `Ingestion.ParseRssDate` | ingest.py:23-26 | A missing or empty date gives None. |
| `Ingestion.FirstAlternate` | ingest.py:75 | Finds the first link whose rel is "alternate", or reports that none has it. |
| `Ingestion.LinkElementChoice` | ingest.py:75-78 | The first rel="alternate" link wins. Otherwise the first link is used. There is a link element exactly when the entry has links. |
| `Ingestion.AtomPublished` | ingest.py:80-93 | The stripped `published` text if it is non-empty. Otherwise the stripped `updated` text if that is non-empty. Otherwise None. |
| `Ingestion.RssStep` | ingest.py:49-63 | One RSS item: skipped unless its stripped title and link are both non-empty, otherwise offered with the source's name and the id of that triple. `StepsProper` states these facts, and an item never raises. |
| `Ingestion.AtomStep` | ingest.py:72-94 | One Atom entry: a chosen link without href raises before the title is looked at. Otherwise the entry is skipped or offered as for RSS. `StepsProper` and `HreflessLinkKeepsEarlierRows` state its outcomes. |
| `Ingestion.Steps` | ingest.py:48-71 | A source offers at most `limit` candidates, whether they come from RSS items or from Atom entries. |
| `Ingestion.SourceRun` | ingest.py:41-99 | ingest_source as a function of the table: the table it leaves and its count or exception. It keeps the primary-key invariant. `SourceRunFacts` and `ReingestSource` state the rest. |
| `Ingestion.AllRun` | ingest.py:101-110 | ingest_all as a function of the table: one report per source, and the table stays well formed. `AllRunTotal`, `AllRunReport`, `AllRunCovers` and `ReingestAll` state the rest. |
| `Ingestion.IngestSource` | ingest.py:41-99 | The table afterwards, and the count or the exception, are what the step-by-step specification gives from the table before. |
| `Ingestion.IngestItems` | ingest.py:48-66 | The RSS loop inserts every item that has a title and a link. Its count and table are those of the specification. |
| `Ingestion.IngestEntries` | ingest.py:69-97 | The Atom loop does the same for entries. An href-less link stops it with the rows before it kept. |
| `Ingestion.IngestAll` | ingest.py:101-110 | Runs every source in order on the shared table. The total and the per-source outcomes are those of the specification. |
| `Ingestion.ApplyGrows` | ingest.py:49-66 | A run only adds rows, never changes one, and counts exactly the rows it added. It stops at the first exception. Every id offered before that point is stored. |
| `Ingestion.ApplyAddsProper` | ingest.py:54-63 | When every offered article is well formed, every row a run adds is well formed too, and carries the stamp `now`. |
| `Ingestion.ApplyStable` | ingest.py:65-66 | Candidates whose ids are all stored change nothing and count 0. |
| `Ingestion.StepsProper` | ingest.py:50-63 | Every article offered has a non-empty, stripped title and url, the source's name, and the id of that triple. Atom entries (lines 73-94) are covered the same way. |
| `Ingestion.SourceRunFacts` | ingest.py:41-99 | For one source: stored rows stay, new rows are well formed and stamped `now`, the count is at most the cap and equals the rows added, and a failed fetch or parse leaves the table alone. |
| `Ingestion.HreflessLinkKeepsEarlierRows` | ingest.py:78 | An Atom link without href raises. The source then contributes 0 to the total, yet the rows it inserted before stay stored. |
| `Ingestion.RssShadowsAtom` | ingest.py:69 | When the feed has RSS items, its Atom entries play no part. |
| `Ingestion.ReingestSource` | ingest.py:41-99 | Ingesting the same source again, at any later time, changes nothing. It reports 0, or the same exception. |
| `Ingestion.AllRunTotal` | ingest.py:101-110 | The batch total is the sum of the per-source counts. A source that raised counts 0. |
| `Ingestion.AllRunReport` | ingest.py:103-109 | Source k runs on exactly the table sources 0 to k-1 left. An exception never stops the later sources. |
| `Ingestion.FailedFeedIsolated` | ingest.py:104-109 | A source whose fetch or parse failed has no effect: leaving it out gives the same table and total. |
| `Ingestion.AllRunCovers` | ingest.py:101-110 | After a batch, every id any source offered is stored, and nothing stored before is gone. |
| `Ingestion.AllRunStable` | ingest.py:101-110 | A batch whose offered ids are all stored changes nothing and totals 0. |
| `Ingestion.ReingestAll` | ingest.py:101-110 | Running the same batch twice: the second run totals 0 and leaves the table unchanged. |
| `Sorting.SortDescending` | ingest.py:178 | The sorted list is a permutation of the input, in descending order. |
| `Sorting.TopPrefix` | ingest.py:185 | The first k of a descending permutation are descending and drawn from the input. Nothing left out ranks above anything kept. |
| `Sorting.DescendingUnique` | ingest.py:178 | Under an antisymmetric order there is only one descending permutation, so the model sorts to Python's result. |
| `Views.AiOrder` | ingest.py:177-178 | The order on (score, inserted_at, source, title, url) tuples is total, transitive and antisymmetric. |
| `Views.FundingOrder` | ingest.py:194-195 | The order on (inserted_at, source, title, url) tuples is total, transitive and antisymmetric. |
| `Views.RankedByScore` | ingest.py:178 | In a descending AI list the score never rises. Among equal scores, inserted_at never rises. |
| `Views.NewestFirstByStamp` | ingest.py:195 | In a descending funding list inserted_at never rises. |
| `Views.AiCandidatesMembers` | ingest.py:174-177 | A tuple is an AI candidate exactly when it comes from a scanned row whose score is above 0. |
| `Views.FundingCandidatesMembers` | ingest.py:192-194 | A tuple is a funding candidate exactly when it comes from a scanned row that is_funding accepts. |
| `Views.AiScan` | ingest.py:173-177 | The scan loop builds exactly the candidate list, in row order. |
| `Views.RankAi` | ingest.py:173-185 | Returns min(limit, candidate count) candidates, descending. Nothing left out ranks above anything returned. |
| `Views.AiBrief` | ingest.py:171-187 | Fails exactly when the articles table is missing, as get_recent_rows raises. Otherwise it returns the top `limit` candidates among the newest `scan` rows, as `RankAi` describes, ranked by score and then by inserted_at. |
| `Views.FundingScan` | ingest.py:191-194 | The scan loop builds exactly the funding candidate list, in row order. |
| `Views.RankFunding` | ingest.py:191-202 | Returns min(limit, candidate count) candidates, descending. Nothing left out ranks above anything returned. |
| `Views.FundingTracker` | ingest.py:189-204 | Fails exactly when the articles table is missing. Otherwise it returns the top `limit` candidates among the newest `scan` rows, as `RankFunding` describes, newest first. |
| `Cli.Dispatch` | ingest.py:222-251 | Chooses the command from the arguments. `DispatchIsFirstMatch`, `ExitCodeIff` and `DispatchBySet` state how. |
| `Cli.DispatchIsFirstMatch` | ingest.py:222-251 | With arguments, the command is that of the first flag group, in the order help, ingest, brief, funding, recent, that has a member among the arguments. Otherwise it is usage. |
| `Cli.ExitCodeIff` | ingest.py:222-251 | The exit status is 1 exactly when there are arguments and none is a known flag. |
| `Cli.DispatchBySet` | ingest.py:229-246 | Only which strings occur among the arguments matters, not their order or repetition. |
| `Cli.Run` | ingest.py:217-251 | Runs init_db first. Only the two ingesting commands change the table, and they change it as the batch specification says. `--brief` lists the AI brief with limit 15 over 200 rows. `--funding` lists the tracker with limit 20 over 300 rows. `--recent` and the no-argument run list get_recent(10). The other commands list nothing. The exit status matches the dispatch. |
| `Serve.ServeMoneyMatchAt` | serve.py:40 | A match of serve's shorter money pattern ends after its start and within the text. |
| `Serve.MoneySearchesAgree` | serve.py:40 | Serve's money pattern finds a match exactly when the ingest pattern (ingest.py:127) does. |
| `Serve.IngestFundingIsServeFunding` | serve.py:36-48 | Every title the ingest classifier calls funding, serve calls funding too. |
| `Serve.IsAi` | serve.py:42-44 | Some serve AI keyword occurs in the lower-cased title, a missing title counting as "". `ServeAiScores` relates it to ingest's score. |
| `Serve.IsFunding` | serve.py:46-48 | A serve funding keyword, or serve's money pattern, in the lower-cased title. `MoneySearchesAgree` and `IngestFundingIsServeFunding` relate it to ingest's test. |
| `Serve.ServeAiScores` | serve.py:31-44 | A title in which some serve AI keyword other than "reinforcement" occurs scores above 0 in ingest.py. |
| `Serve.AppendItemFacts` | serve.py:54 | `setdefault(key, []).append(item)` adds the item under its key only. It keeps the keys distinct and adds one item in all. |
| `Serve.GroupView` | serve.py:53-58 | One view dict after the first rows of the loop. `GroupViewSelects` and `ViewsAreFilters` state its contents. |
| `Serve.GroupViewSelects` | serve.py:50-58 | In every view, the items under a source are exactly that source's kept rows, in row order. No source appears twice. The all view holds every row. |
| `Serve.ViewsAreFilters` | serve.py:53-58 | For each source, the ai and funding lists are its all list filtered by the classifier, in the same order. |
| `Serve.GroupRows` | serve.py:50-58 | The grouping loop builds exactly the three grouped views of the rows. |
| `Serve.BuildIndex` | serve.py:23-58 | Fails exactly when news.db has no articles table, as the SELECT raises. Otherwise it groups the newest 300 rows, and the all view holds min(300, row count) items. |
| `Serve.Snippet` | serve.py:157 | The snippet is at most 120 characters. It is the title when the title fits. Otherwise it is the title's first 117 characters and "...". |

## Left out

- Fetching feeds over HTTP and parsing XML (ingest.py:18-21, 42-43). A source arrives as an already parsed `Feed`, or as the error either step raised.
- SHA-256 (ingest.py:16). The digest is an arbitrary function parameter, so no property here depends on which hash is used.
- `Ingestion.ParseRssDate`: only the missing or empty date is pinned down. The two `strptime` formats and `isoformat` are the `parse` parameter.
- `get_todays_articles` and `print_todays_brief` (db.py:44-53, ingest.py:151-159). They compare against the calendar date of the wall clock, which is not modelled.
- Printing and the usage text, the HTML page, and the HTTP server and its request handler in serve.py.
- The scheduler script daily_launch.py is not part of this model.
- sources.py is not part of this model. The list of sources is passed in.
- Unicode case mapping. `lower()` is modelled on ASCII letters only, and `\d` as the ASCII digits.
  - `re.IGNORECASE` is irrelevant on ASCII text, because both callers lower-case first. On other text it is not: it lets `usd` match "u", the long s (U+017F) and "d", which `lower()` leaves unchanged.
  - A non-ASCII upper-case letter in a title is compared unchanged.
- `Db.ArticleStore.GetRecentRows`: among rows with the same inserted_at, the order is left open, as SQLite leaves it. `inserted_at` is a number here rather than the `YYYY-MM-DD HH:MM:SS` text, which sorts the same way.
- One `now` per call: every row a batch inserts gets the same stamp. Real inserts within one run may straddle a second.
- A negative `limit` (SQLite treats `LIMIT -1` as no limit). Limits and scan sizes are natural numbers here.
- Errors other than a duplicate id inside insert_article (a locked or missing database, a missing table before init_db). Every insert runs after init_db, as the `__main__` block ensures. The read queries do model the missing table: they, and the views and index built on them, fail with "no such table".
- Other SQL errors in the read queries, such as a locked or unreadable database file.

Where the code and the stated intent differ, the model follows the code:
- The comment at ingest.py:135 wants to avoid matching "ai" inside words such as "said". But "ai" is also in the keyword list, matched as a plain substring, so "said" scores 2 (`Scoring.SaidStillScores`).
- The id strips the whole joined key, not each field (`Identity.KeyKeepsInnerSpace`).
- serve.py's keyword lists differ from ingest.py's (serve.py:31-39 against ingest.py:115-125):
  - Its AI list has "reinforcement" where ingest has "reinforcement learning".
  - Its AI list lacks "rl", "neural", "inference" and "orchestration". So "neural network" scores 2 in ingest.py but is not AI in serve.py.
  - Its funding list has "series" where ingest has "series a", "series b" and "series c".
  - Its money pattern lacks the decimal and suffix parts. `Serve.MoneySearchesAgree` shows that this does not change where it matches.
- An Atom `link` without `href` makes `None.strip()` raise inside ingest_source. That ends the source: its count is lost from the total, while its earlier inserts stay.
