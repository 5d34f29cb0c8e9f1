/**
  The command line of ingest.py (lines 217-251): init_db, then one action
  chosen from the arguments. An empty argument list ingests and shows; otherwise
  flags are tested as list members in a fixed priority order, and anything
  else prints the usage with exit status 1. The source list itself (sources.py)
  is not part of this model and is passed in.
 */
module Cli {
  import opened Wrappers
  import opened Db
  import opened Ingestion
  import opened Views

  datatype Command = IngestAndShow | Help | IngestOnly | Brief | Funding | Recent | Usage

  /** What a command lists: the ranked AI brief, the funding tracker, the recent rows, or nothing. */
  datatype Shown = Nothing | AiList(ai: seq<AiEntry>) | FundingList(funding: seq<FundingEntry>) | RecentList(recent: seq<Summary>)

  /** The flags in the order they are tested, each with the command it selects. */
  const PRIORITY: seq<(seq<string>, Command)> := [
    (["--help", "-h"], Help),
    (["--ingest"], IngestOnly),
    (["--brief"], Brief),
    (["--funding"], Funding),
    (["--recent"], Recent)
  ]

  function Dispatch(args: seq<string>): Command {
    if args == [] then IngestAndShow
    else if "--help" in args || "-h" in args then Help
    else if "--ingest" in args then IngestOnly
    else if "--brief" in args then Brief
    else if "--funding" in args then Funding
    else if "--recent" in args then Recent
    else Usage
  }

  function ExitCode(c: Command): nat {
    if c == Usage then 1 else 0
  }

  /** Some flag of `flags` is among `args`. */
  predicate AnyIn(flags: seq<string>, args: seq<string>) {
    flags != [] && (flags[0] in args || AnyIn(flags[1..], args))
  }

  /** The command of the first priority entry one of whose flags is among `args`; Usage when none is. */
  function FirstMatch(args: seq<string>, table: seq<(seq<string>, Command)>): Command {
    if table == [] then Usage
    else if AnyIn(table[0].0, args) then table[0].1
    else FirstMatch(args, table[1..])
  }

  /** Dispatch is the first-match rule over the priority table. */
  lemma DispatchIsFirstMatch(args: seq<string>)
    requires args != []
    ensures Dispatch(args) == FirstMatch(args, PRIORITY)
  {
    var p1 := PRIORITY[1..];
    var p2 := p1[1..];
    var p3 := p2[1..];
    var p4 := p3[1..];
    assert p4 == [(["--recent"], Recent)];
    assert AnyIn(["--recent"], args) <==> "--recent" in args;
    assert FirstMatch(args, p4) == if "--recent" in args then Recent else Usage;
    assert AnyIn(["--funding"], args) <==> "--funding" in args;
    assert FirstMatch(args, p3) == if "--funding" in args then Funding else FirstMatch(args, p4);
    assert AnyIn(["--brief"], args) <==> "--brief" in args;
    assert FirstMatch(args, p2) == if "--brief" in args then Brief else FirstMatch(args, p3);
    assert AnyIn(["--ingest"], args) <==> "--ingest" in args;
    assert FirstMatch(args, p1) == if "--ingest" in args then IngestOnly else FirstMatch(args, p2);
    assert AnyIn(["--help", "-h"], args) <==> "--help" in args || "-h" in args by {
      assert ["--help", "-h"][1..] == ["-h"];
      assert AnyIn(["-h"], args) <==> "-h" in args;
    }
    assert FirstMatch(args, PRIORITY) == if "--help" in args || "-h" in args then Help else FirstMatch(args, p1);
  }

  /** The exit status is 1 exactly when there are arguments and none of them is a known flag. */
  lemma ExitCodeIff(args: seq<string>)
    ensures ExitCode(Dispatch(args)) == 1 <==>
      args != [] && forall a | a in args :: a !in ["--help", "-h", "--ingest", "--brief", "--funding", "--recent"]
  {
  }

  /** Only which strings occur matters, not their order or repetition. */
  lemma DispatchBySet(args: seq<string>, args': seq<string>)
    requires forall a :: a in args <==> a in args'
    ensures Dispatch(args) == Dispatch(args')
  {
    if args != [] {
      assert args[0] in args';
    }
    if args' != [] {
      assert args'[0] in args;
    }
  }

  /**
    The main block: init_db, then the chosen command. Only the two ingesting
    commands change the table; --brief, --funding and --recent read it with
    the views' default limits, and the no-argument run lists the recent rows
    after ingesting.
   */
  method Run(store: ArticleStore, args: seq<string>, sources: seq<Source>, digest: string -> string,
             parse: string -> Option<string>, now: nat) returns (code: nat, total: nat, shown: Shown)
    requires store.Valid()
    modifies store
    ensures store.Valid() && store.created
    ensures code == ExitCode(Dispatch(args))
    ensures var t0 := if old(store.created) then old(store.State()) else Table(map[], []);
      if Dispatch(args) in {IngestAndShow, IngestOnly} then
        var b := AllRun(t0, sources, digest, parse, now);
        store.State() == b.table && total == b.total
      else store.State() == t0 && total == 0
    ensures Dispatch(args) == Brief ==>
      shown.AiList? && TopAi(shown.ai, AiCandidates(RecentRows(store.State(), AI_BRIEF_SCAN)), AI_BRIEF_LIMIT)
    ensures Dispatch(args) == Funding ==>
      shown.FundingList? && TopFunding(shown.funding, FundingCandidates(RecentRows(store.State(), FUNDING_SCAN)), FUNDING_LIMIT)
    ensures Dispatch(args) in {IngestAndShow, Recent} ==> shown == RecentList(store.GetRecent(RECENT_LIMIT).value)
    ensures Dispatch(args) in {Help, IngestOnly, Usage} ==> shown == Nothing
  {
    store.InitDb();
    var command := Dispatch(args);
    total := 0;
    shown := Nothing;
    if command == IngestAndShow || command == IngestOnly {
      var report;
      total, report := IngestAll(store, sources, digest, parse, now);
    }
    if command == Brief {
      var brief := AiBrief(store, AI_BRIEF_LIMIT, AI_BRIEF_SCAN);
      shown := AiList(brief.value);
    } else if command == Funding {
      var tracker := FundingTracker(store, FUNDING_LIMIT, FUNDING_SCAN);
      shown := FundingList(tracker.value);
    } else if command == IngestAndShow || command == Recent {
      shown := RecentList(store.GetRecent(RECENT_LIMIT).value);
    }
    code := ExitCode(command);
  }
}
