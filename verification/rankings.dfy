/**
  Ranked search-result pages (SERPs) and the two builders that gather one SERP
  per keyword into a shared KeywordData map, from files on disk or from a
  database. The builders run one worker per item in the Go code; here each
  builder is a sequential loop over its items, and the outcome of the per-item
  I/O (opening and decoding a file, running a query) is a parameter.
*/
module Rankings {
  import opened Wrappers

  /** One ranked entry: the domain that ranked for a keyword, at a prominence (1 is best). */
  datatype SERPMember = SERPMember(keyword: string, prominence: int, domain: string)

  /** The ranked members of one keyword's result page, in the order received. */
  datatype SERP = SERP(keyword: string, members: seq<SERPMember>) {

    /** The number of members. */
    function Length(): (n: nat)
      ensures n == 0 <==> members == []
    {
      |members|
    }
  }

  /** The zero SERP: no keyword, no members. */
  const EmptySERP := SERP("", [])

  /**
    What reading the input stream and decoding it as a JSON array of members
    produced: the read failed, the bytes were not such an array, or the decoded
    entries in file order.
  */
  datatype Payload = Unreadable | NotJSON | Decoded(entries: seq<SERPMember>)

  datatype ParseError = CouldNotRead | CouldNotParseJSON

  /** The pair Parse returns: a SERP and, on failure, the error beside it. */
  datatype ParseOutcome = ParseOutcome(serp: SERP, err: Option<ParseError>)

  /** What Parse computes, as a value. */
  function Parsed(payload: Payload): ParseOutcome
  {
    match payload
    case Unreadable => ParseOutcome(EmptySERP, Some(CouldNotRead))
    case NotJSON => ParseOutcome(EmptySERP, Some(CouldNotParseJSON))
    case Decoded(entries) =>
      if entries == [] then ParseOutcome(EmptySERP, None)
      else ParseOutcome(SERP(entries[0].keyword, entries), None)
  }

  /**
    Builds a SERP from a decoded payload. A failed read or decode returns the
    zero SERP and an error; an empty array is not an error and gives the zero
    SERP; otherwise the keyword is the first entry's and every entry is kept,
    in order, without sorting or de-duplication.
  */
  method Parse(payload: Payload) returns (serp: SERP, err: Option<ParseError>)
    ensures ParseOutcome(serp, err) == Parsed(payload)
    ensures err.Some? <==> !payload.Decoded?
    ensures err.Some? ==> serp == EmptySERP
    ensures payload.Decoded? ==> serp.members == payload.entries && serp.Length() == |payload.entries|
    ensures payload.Decoded? && payload.entries != [] ==> serp.keyword == payload.entries[0].keyword
    ensures payload == Decoded([]) ==> serp.keyword == "" && serp.members == []
  {
    serp := EmptySERP;
    match payload
    case Unreadable =>
      return serp, Some(CouldNotRead);
    case NotJSON =>
      return serp, Some(CouldNotParseJSON);
    case Decoded(entries) =>
      if |entries| == 0 {
        return serp, None;
      }
      serp := serp.(keyword := entries[0].keyword);
      var i := 0;
      while i < |entries|
        invariant 0 <= i <= |entries|
        invariant serp == SERP(entries[0].keyword, entries[..i])
      {
        serp := serp.(members := serp.members + [entries[i]]);
        i := i + 1;
      }
      assert entries[..i] == entries;
      return serp, None;
  }

  /** What opening one path gave: a failure, or the payload read from the opened file. */
  datatype FileOutcome = OpenFailed | Opened(payload: Payload)

  /** What one SERP query gave: the rows scanned, in order, and whether the query failed after them. */
  datatype QueryOutcome = QueryOutcome(rows: seq<SERPMember>, failed: bool)

  /** One per-item failure recorded by a builder. */
  datatype BuildFailure =
    | CouldNotOpen(path: string)
    | CouldNotParse(path: string, cause: ParseError)
    | CouldNotQuery(keyword: string)

  /** The aggregate error a builder returns, carrying every recorded failure. */
  datatype BuildError = BuildError(errors: seq<BuildFailure>)

  /** A builder's return value: no error when nothing failed, else all the failures. */
  function Aggregate(errors: seq<BuildFailure>): Option<BuildError>
  {
    if errors == [] then None else Some(BuildError(errors))
  }

  // ---------------------------------------------------------------------------
  // The builders' effect, as values (one item at a time, in item order).

  /** The map after storing, path by path, the SERP parsed from every file that opened. */
  function DiskStore(kd: map<string, SERP>, paths: seq<string>, open: string -> FileOutcome): map<string, SERP>
  {
    if paths == [] then kd
    else
      var before := DiskStore(kd, paths[..|paths| - 1], open);
      match open(paths[|paths| - 1])
      case OpenFailed => before
      case Opened(payload) =>
        var serp := Parsed(payload).serp;
        before[serp.keyword := serp]
  }

  /** The failure (if any) one path contributes. */
  function FileFailures(path: string, outcome: FileOutcome): seq<BuildFailure>
  {
    match outcome
    case OpenFailed => [CouldNotOpen(path)]
    case Opened(payload) =>
      match Parsed(payload).err
      case None => []
      case Some(cause) => [CouldNotParse(path, cause)]
  }

  /** The failures recorded over the paths, in path order. */
  function DiskFailures(paths: seq<string>, open: string -> FileOutcome): seq<BuildFailure>
  {
    if paths == [] then []
    else DiskFailures(paths[..|paths| - 1], open) + FileFailures(paths[|paths| - 1], open(paths[|paths| - 1]))
  }

  /** The map after storing, keyword by keyword, the rows each query returned. */
  function DatabaseStore(kd: map<string, SERP>, keywords: seq<string>, fetch: string -> QueryOutcome): map<string, SERP>
  {
    if keywords == [] then kd
    else
      var keyword := keywords[|keywords| - 1];
      DatabaseStore(kd, keywords[..|keywords| - 1], fetch)[keyword := SERP(keyword, fetch(keyword).rows)]
  }

  /** The failures recorded over the keywords, in keyword order. */
  function QueryFailures(keywords: seq<string>, fetch: string -> QueryOutcome): seq<BuildFailure>
  {
    if keywords == [] then []
    else
      var keyword := keywords[|keywords| - 1];
      QueryFailures(keywords[..|keywords| - 1], fetch) + (if fetch(keyword).failed then [CouldNotQuery(keyword)] else [])
  }

  // ---------------------------------------------------------------------------
  // KeywordData: the map from keyword to SERP that the builders fill in place.

  class KeywordData {
    var serps: map<string, SERP>

    /** A fresh, empty collection. */
    constructor ()
      ensures serps == map[]
    {
      serps := map[];
    }

    /**
      Parses one file per path and stores each SERP under its own keyword.
      A path that does not open records an error and stores nothing; a file that
      does not parse records an error and still stores the zero SERP (under "").
      The aggregate error is returned exactly when some error was recorded.
    */
    method BuildFromDisk(paths: seq<string>, open: string -> FileOutcome) returns (err: Option<BuildError>)
      modifies this
      ensures serps == DiskStore(old(serps), paths, open)
      ensures err == Aggregate(DiskFailures(paths, open))
      ensures paths == [] ==> err == None && serps == old(serps)
    {
      if |paths| == 0 {
        return None;
      }
      var errors: seq<BuildFailure> := [];
      for i := 0 to |paths|
        invariant serps == DiskStore(old(serps), paths[..i], open)
        invariant errors == DiskFailures(paths[..i], open)
      {
        var path := paths[i];
        assert paths[..i + 1][..i] == paths[..i];
        match open(path)
        case OpenFailed =>
          errors := errors + [CouldNotOpen(path)];
        case Opened(payload) =>
          var serp, parseErr := Parse(payload);
          if parseErr.Some? {
            errors := errors + [CouldNotParse(path, parseErr.value)];
          }
          serps := serps[serp.keyword := serp];
      }
      assert paths[..|paths|] == paths;
      err := Aggregate(errors);
    }

    /**
      Queries the rows of every keyword and stores them under that keyword. A
      failed query records an error and still stores the rows scanned before
      the failure. The aggregate error is returned exactly when some query failed.
    */
    method BuildFromDatabase(keywords: seq<string>, fetch: string -> QueryOutcome) returns (err: Option<BuildError>)
      modifies this
      ensures serps == DatabaseStore(old(serps), keywords, fetch)
      ensures err == Aggregate(QueryFailures(keywords, fetch))
      ensures keywords == [] ==> err == None && serps == old(serps)
    {
      if |keywords| == 0 {
        return None;
      }
      var errors: seq<BuildFailure> := [];
      for i := 0 to |keywords|
        invariant serps == DatabaseStore(old(serps), keywords[..i], fetch)
        invariant errors == QueryFailures(keywords[..i], fetch)
      {
        var keyword := keywords[i];
        assert keywords[..i + 1][..i] == keywords[..i];
        var outcome := fetch(keyword);
        var serp := SERP(keyword, []);
        // the driver hands the rows to the row handler one at a time
        for j := 0 to |outcome.rows|
          invariant serp == SERP(keyword, outcome.rows[..j])
        {
          serp := serp.(members := serp.members + [outcome.rows[j]]);
        }
        assert outcome.rows[..|outcome.rows|] == outcome.rows;
        if outcome.failed {
          errors := errors + [CouldNotQuery(keyword)];
        }
        serps := serps[keyword := serp];
      }
      assert keywords[..|keywords|] == keywords;
      err := Aggregate(errors);
    }
  }

  // ---------------------------------------------------------------------------
  // Properties of the builders' effect.

  /** The keywords under which the files that open get stored. */
  function StoredKeywords(paths: seq<string>, open: string -> FileOutcome): set<string>
  {
    set p | p in paths && open(p).Opened? :: Parsed(open(p).payload).serp.keyword
  }

  /** Whether a file opens and parses. */
  predicate Loads(outcome: FileOutcome)
  {
    outcome.Opened? && outcome.payload.Decoded?
  }

  /** Building from disk adds exactly the keywords of the files that opened. */
  lemma {:induction false} DiskStoreKeys(kd: map<string, SERP>, paths: seq<string>, open: string -> FileOutcome)
    ensures DiskStore(kd, paths, open).Keys == kd.Keys + StoredKeywords(paths, open)
  {
    if paths != [] {
      var init := paths[..|paths| - 1];
      var last := paths[|paths| - 1];
      DiskStoreKeys(kd, init, open);
      assert paths == init + [last];
      if open(last).Opened? {
        assert StoredKeywords(paths, open) == StoredKeywords(init, open) + {Parsed(open(last).payload).serp.keyword};
      } else {
        assert StoredKeywords(paths, open) == StoredKeywords(init, open);
      }
    }
  }

  /**
    Every SERP stored from disk is filed under its own keyword; a key no file
    wrote keeps its old SERP.
  */
  lemma {:induction false} DiskStoreFilesUnderKeyword(kd: map<string, SERP>, paths: seq<string>, open: string -> FileOutcome, k: string)
    requires k in DiskStore(kd, paths, open)
    ensures k in StoredKeywords(paths, open) ==> DiskStore(kd, paths, open)[k].keyword == k
    ensures k !in StoredKeywords(paths, open) ==> k in kd && DiskStore(kd, paths, open)[k] == kd[k]
  {
    if paths != [] {
      var init := paths[..|paths| - 1];
      var last := paths[|paths| - 1];
      assert paths == init + [last];
      match open(last)
      case OpenFailed =>
        assert StoredKeywords(paths, open) == StoredKeywords(init, open);
        DiskStoreFilesUnderKeyword(kd, init, open, k);
      case Opened(payload) =>
        var key := Parsed(payload).serp.keyword;
        assert StoredKeywords(paths, open) == StoredKeywords(init, open) + {key};
        if k != key {
          DiskStoreFilesUnderKeyword(kd, init, open, k);
        }
    }
  }

  /** A file that opens but does not parse still leaves an entry under the empty keyword. */
  lemma ParseFailureStoresUnderEmptyKeyword(kd: map<string, SERP>, paths: seq<string>, open: string -> FileOutcome, p: string)
    requires p in paths && open(p).Opened? && !open(p).payload.Decoded?
    ensures "" in DiskStore(kd, paths, open)
  {
    DiskStoreKeys(kd, paths, open);
    assert Parsed(open(p).payload).serp.keyword == "";
  }

  /** Building from disk fails exactly when some file does not open or parse, with at most one error per path. */
  lemma {:induction false} DiskFailuresIffSomeFileFails(paths: seq<string>, open: string -> FileOutcome)
    ensures DiskFailures(paths, open) == [] <==> forall p :: p in paths ==> Loads(open(p))
    ensures |DiskFailures(paths, open)| <= |paths|
  {
    if paths != [] {
      var init := paths[..|paths| - 1];
      var last := paths[|paths| - 1];
      assert paths == init + [last];
      DiskFailuresIffSomeFileFails(init, open);
      FileFailuresIffFails(last, open(last));
      assert forall p :: p in paths <==> p in init || p == last;
    }
  }

  lemma FileFailuresIffFails(path: string, outcome: FileOutcome)
    ensures FileFailures(path, outcome) == [] <==> Loads(outcome)
    ensures |FileFailures(path, outcome)| <= 1
  {
  }

  /** The number of paths whose file fails to open or to parse. */
  function FailingFiles(paths: seq<string>, open: string -> FileOutcome): nat
  {
    if paths == [] then 0
    else FailingFiles(paths[1..], open) + (if Loads(open(paths[0])) then 0 else 1)
  }

  /** The aggregate error carries exactly one failure per failing file. */
  lemma {:induction false} DiskFailuresCount(paths: seq<string>, open: string -> FileOutcome)
    ensures |DiskFailures(paths, open)| == FailingFiles(paths, open)
  {
    if paths != [] {
      var init := paths[..|paths| - 1];
      DiskFailuresCount(init, open);
      FailingFilesSplit(init, paths[|paths| - 1], open);
      assert paths == init + [paths[|paths| - 1]];
    }
  }

  lemma {:induction false} FailingFilesSplit(init: seq<string>, last: string, open: string -> FileOutcome)
    ensures FailingFiles(init + [last], open) == FailingFiles(init, open) + (if Loads(open(last)) then 0 else 1)
  {
    if init != [] {
      assert (init + [last])[1..] == init[1..] + [last];
      FailingFilesSplit(init[1..], last, open);
    }
  }

  /**
    Building from the database stores every requested keyword, failed or not,
    under itself with that keyword's rows; every other key keeps its old SERP.
  */
  lemma {:induction false} DatabaseStoreContents(kd: map<string, SERP>, keywords: seq<string>, fetch: string -> QueryOutcome)
    ensures DatabaseStore(kd, keywords, fetch).Keys == kd.Keys + set k | k in keywords
    ensures forall k :: k in keywords ==> DatabaseStore(kd, keywords, fetch)[k] == SERP(k, fetch(k).rows)
    ensures forall k :: k in kd && k !in keywords ==> DatabaseStore(kd, keywords, fetch)[k] == kd[k]
  {
    if keywords != [] {
      var init := keywords[..|keywords| - 1];
      assert keywords == init + [keywords[|keywords| - 1]];
      DatabaseStoreContents(kd, init, fetch);
    }
  }

  /** The database build fails exactly when some query fails, with at most one error per keyword. */
  lemma {:induction false} QueryFailuresIffSomeQueryFails(keywords: seq<string>, fetch: string -> QueryOutcome)
    ensures QueryFailures(keywords, fetch) == [] <==> forall k :: k in keywords ==> !fetch(k).failed
    ensures |QueryFailures(keywords, fetch)| <= |keywords|
    ensures forall e :: e in QueryFailures(keywords, fetch) ==> e.CouldNotQuery? && e.keyword in keywords && fetch(e.keyword).failed
  {
    if keywords != [] {
      var init := keywords[..|keywords| - 1];
      var last := keywords[|keywords| - 1];
      assert keywords == init + [last];
      QueryFailuresIffSomeQueryFails(init, fetch);
      assert forall k :: k in keywords <==> k in init || k == last;
    }
  }

  /** Distinct keywords are all stored separately, so an empty map ends with one entry per keyword. */
  lemma DatabaseStoreSize(keywords: seq<string>, fetch: string -> QueryOutcome)
    requires forall i, j :: 0 <= i < j < |keywords| ==> keywords[i] != keywords[j]
    ensures |DatabaseStore(map[], keywords, fetch)| == |keywords|
  {
    DatabaseStoreContents(map[], keywords, fetch);
    DistinctCardinality(keywords);
  }

  lemma {:induction false} DistinctCardinality(s: seq<string>)
    requires forall i, j :: 0 <= i < j < |s| ==> s[i] != s[j]
    ensures |set k | k in s| == |s|
  {
    if s != [] {
      var init := s[..|s| - 1];
      DistinctCardinality(init);
      assert (set k | k in s) == (set k | k in init) + {s[|s| - 1]};
      assert s[|s| - 1] !in init;
    }
  }
}
