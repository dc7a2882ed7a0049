// The chat agent's deterministic parts: which handler a message reaches, which model speed a
// query gets, the query of a memory search, the five-minute metadata cache, the keyword
// fallback for finding relevant documents, and the statistics handler. Every text the
// language models write is left out; the clock is a parameter (whole seconds).

module ChatAgent {
  import opened Wrappers
  import opened Strings
  import opened PyValues
  import opened Memory

  // ---------------------------------------------------------------- simple queries

  /** `s` contains at least one of `patterns` (any(p in s for p in patterns)). */
  function ContainsAny(s: string, patterns: seq<string>): bool
  {
    patterns != [] && (Contains(s, patterns[0]) || ContainsAny(s, patterns[1..]))
  }

  lemma {:induction false} ContainsAnyIff(s: string, patterns: seq<string>)
    ensures ContainsAny(s, patterns) <==> exists i :: 0 <= i < |patterns| && Contains(s, patterns[i])
  {
    if patterns != [] {
      ContainsAnyIff(s, patterns[1..]);
      if Contains(s, patterns[0]) {
        assert 0 < |patterns| && Contains(s, patterns[0]);
      } else if ContainsAny(s, patterns[1..]) {
        var i :| 0 <= i < |patterns[1..]| && Contains(s, patterns[1..][i]);
        assert Contains(s, patterns[i + 1]);
      } else {
        forall i | 0 <= i < |patterns| ensures !Contains(s, patterns[i]) {
          if i > 0 {
            assert patterns[i] == patterns[1..][i - 1];
          }
        }
      }
    }
  }

  const SimplePatterns: seq<string> := [
    "hello", "hi", "hey", "good morning", "good afternoon", "good evening",
    "how are you", "how are you doing", "what can you do", "help",
    "thanks", "thank you", "bye", "goodbye"]

  /** Messages shorter than this (once stripped) count as simple. */
  const ShortQuery: nat := 20

  /** is_simple_query: a greeting-like pattern anywhere in the lowered, stripped text, or a short text. */
  function IsSimpleQuery(message: string): bool
  {
    ContainsAny(Lower(Strip(message)), SimplePatterns) || |Strip(message)| < ShortQuery
  }

  /**
   * A query is simple exactly when one of the fourteen patterns occurs in it as a plain
   * substring (so "hi" inside "which" counts) or it is shorter than twenty characters.
   */
  lemma SimpleQueryIff(message: string)
    ensures IsSimpleQuery(message) <==>
      (exists i :: 0 <= i < |SimplePatterns| && Contains(Lower(Strip(message)), SimplePatterns[i]))
      || |Strip(message)| < ShortQuery
  {
    ContainsAnyIff(Lower(Strip(message)), SimplePatterns);
  }

  /** A pattern inside a longer word is enough: "which" contains "hi". */
  lemma InsideAWord(message: string, k: nat)
    requires OccursAt(Lower(Strip(message)), "which", k)
    ensures IsSimpleQuery(message)
  {
    var low := Lower(Strip(message));
    HiInWhich(low, k);
    assert SimplePatterns[1] == "hi";
    ContainsAnyAt(low, SimplePatterns, 1);
  }

  lemma HiInWhich(low: string, k: nat)
    requires OccursAt(low, "which", k)
    ensures Contains(low, "hi")
  {
    assert low[k..k + 5] == "which";
    assert low[k + 1] == low[k..k + 5][1] == 'h';
    assert low[k + 2] == low[k..k + 5][2] == 'i';
    assert low[k + 1..k + 3] == "hi";
    assert OccursAt(low, "hi", k + 1);
  }

  lemma {:induction false} ContainsAnyAt(s: string, patterns: seq<string>, i: nat)
    requires i < |patterns| && Contains(s, patterns[i])
    ensures ContainsAny(s, patterns)
  {
    if i > 0 {
      assert patterns[1..][i - 1] == patterns[i];
      ContainsAnyAt(s, patterns[1..], i - 1);
    }
  }

  // ---------------------------------------------------------------- command dispatch

  datatype Command = Screener | MemorySearch | Help | Stats | RegularChat

  /** The commands in the order chat_with_agent tries them. */
  const CommandTable: seq<(string, Command)> :=
    [("@screener", Screener), ("@memory", MemorySearch), ("@help", Help), ("@stats", Stats)]

  /** The command of the first entry of `table` whose tag occurs in `low`; regular chat without one. */
  function FirstTagged(low: string, table: seq<(string, Command)>): Command
  {
    if table == [] then RegularChat
    else if Contains(low, table[0].0) then table[0].1
    else FirstTagged(low, table[1..])
  }

  /** chat_with_agent's choice of handler, by substring of the lowered, stripped message. */
  function CommandOf(message: string): Command
  {
    FirstTagged(Lower(Strip(message)), CommandTable)
  }

  /** The function_used each handler reports. */
  function FunctionUsed(c: Command): string
  {
    match c
    case Screener => "screener"
    case MemorySearch => "memory_search"
    case Help => "help"
    case Stats => "stats"
    case RegularChat => "regular_chat"
  }

  /**
   * Precedence is @screener, then @memory, @help and @stats, then regular chat: a message
   * reaches a handler exactly when its tag occurs and no earlier tag does.
   */
  lemma DispatchPrecedence(message: string)
    ensures var low := Lower(Strip(message));
      && (CommandOf(message) == Screener <==> Contains(low, "@screener"))
      && (CommandOf(message) == MemorySearch <==> !Contains(low, "@screener") && Contains(low, "@memory"))
      && (CommandOf(message) == Help <==>
            !Contains(low, "@screener") && !Contains(low, "@memory") && Contains(low, "@help"))
      && (CommandOf(message) == Stats <==>
            !Contains(low, "@screener") && !Contains(low, "@memory") && !Contains(low, "@help")
            && Contains(low, "@stats"))
      && (CommandOf(message) == RegularChat <==>
            !Contains(low, "@screener") && !Contains(low, "@memory") && !Contains(low, "@help")
            && !Contains(low, "@stats"))
  {
    TablePrecedence(Lower(Strip(message)));
  }

  lemma TablePrecedence(low: string)
    ensures var c := FirstTagged(low, CommandTable);
      && (c == Screener <==> Contains(low, "@screener"))
      && (c == MemorySearch <==> !Contains(low, "@screener") && Contains(low, "@memory"))
      && (c == Help <==> !Contains(low, "@screener") && !Contains(low, "@memory") && Contains(low, "@help"))
      && (c == Stats <==>
            !Contains(low, "@screener") && !Contains(low, "@memory") && !Contains(low, "@help")
            && Contains(low, "@stats"))
      && (c == RegularChat <==>
            !Contains(low, "@screener") && !Contains(low, "@memory") && !Contains(low, "@help")
            && !Contains(low, "@stats"))
  {
    var t := CommandTable;
    var s, m, h, st := Contains(low, "@screener"), Contains(low, "@memory"), Contains(low, "@help"), Contains(low, "@stats");
    assert t[4..] == [];
    var c3 := if st then Stats else RegularChat;
    assert FirstTagged(low, t[3..]) == c3;
    var c2 := if h then Help else c3;
    assert FirstTagged(low, t[2..]) == c2;
    var c1 := if m then MemorySearch else c2;
    assert FirstTagged(low, t[1..]) == c1;
    assert FirstTagged(low, t) == if s then Screener else c1;
  }

  // ---------------------------------------------------------------- the memory command

  const MemoryTag: string := "@memory"
  const DefaultMemoryQuery: string := "real estate investment"

  /**
   * handle_memory_command's query: the stripped text after the first exact-case "@memory";
   * the default query when the tag occurs only in another case; the whole message when the
   * lowered message has no tag at all.
   */
  function MemoryQuery(message: string): string
  {
    if !Contains(Lower(message), MemoryTag) then message
    else
      var k := Find(message, MemoryTag);
      if k < 0 then DefaultMemoryQuery else Strip(message[k + |MemoryTag|..])
  }

  /** An exact-case occurrence is also an occurrence in the lowered message. */
  lemma TagSurvivesLower(message: string, k: nat)
    requires OccursAt(message, MemoryTag, k)
    ensures OccursAt(Lower(message), MemoryTag, k)
  {
    var low := Lower(message);
    forall j | 0 <= j < |MemoryTag| ensures low[k + j] == MemoryTag[j] {
      assert message[k + j] == message[k..k + |MemoryTag|][j];
    }
    assert low[k..k + |MemoryTag|] == MemoryTag;
  }

  /**
   * With an exact-case tag, the query is the stripped rest after its first occurrence, so a
   * bare "@memory" gives ""; with the tag only in another case (such as "@Memory") the query
   * is the default.
   */
  lemma MemoryQueryFacts(message: string)
    ensures Contains(message, MemoryTag) ==>
      var k := Find(message, MemoryTag);
      && 0 <= k && OccursAt(message, MemoryTag, k)
      && (forall j :: 0 <= j < k ==> !OccursAt(message, MemoryTag, j))
      && MemoryQuery(message) == Strip(message[k + |MemoryTag|..])
    ensures Contains(Lower(message), MemoryTag) && !Contains(message, MemoryTag) ==>
      MemoryQuery(message) == DefaultMemoryQuery
    ensures StartsWith(message, MemoryTag) && IsBlank(message[|MemoryTag|..]) ==> MemoryQuery(message) == ""
  {
    if Contains(message, MemoryTag) {
      var k := Find(message, MemoryTag);
      TagSurvivesLower(message, k);
      if StartsWith(message, MemoryTag) {
        assert OccursAt(message, MemoryTag, 0);
        StripEmptyIffBlank(message[|MemoryTag|..]);
      }
    } else if StartsWith(message, MemoryTag) {
      assert OccursAt(message, MemoryTag, 0);
    }
  }

  /** The chat answer: its text, the function used and the memory_context dict, if any. */
  datatype ChatResponse = ChatResponse(response: string, functionUsed: string, memoryContext: Option<Value>)

  const PreviewLength: nat := 200

  /** The first 200 characters and "..." when the content is longer, else the content. */
  function Preview(content: string): string
  {
    if |content| > PreviewLength then content[..PreviewLength] + "..." else content
  }

  /** One numbered entry of the memory answer. */
  function ResultEntry(i: nat, h: SearchHit): string
  {
    "**" + NatToString(i) + ". " + h.filename + "**\n" + "\U{1F4C4} " + Preview(h.content) + "\n\n"
  }

  function SearchHeading(query: string): string
  {
    "\U{1F50D} **Memory Search Results for: '" + query + "'**\n\n"
  }

  /** The entries for the hits numbered from 1, in search order. */
  function ResultEntries(hits: seq<SearchHit>): string
  {
    if hits == [] then "" else ResultEntries(hits[..|hits| - 1]) + ResultEntry(|hits|, hits[|hits| - 1])
  }

  /** handle_memory_command given the search answer (what search_documents returned or raised). */
  function MemoryResponse(message: string, answer: Result<seq<SearchHit>, string>): ChatResponse
  {
    match answer
    case Err(e) => ChatResponse("\U{274C} **Memory Search Error:** " + e, "memory_search", None)
    case Ok(hits) =>
      var query := MemoryQuery(message);
      var text := if hits == [] then SearchHeading(query) + "\U{274C} No relevant documents found in memory."
                  else SearchHeading(query) + ResultEntries(hits);
      ChatResponse(text, "memory_search",
                   Some(VDict([("search_query", VStr(query)), ("results_count", VInt(|hits|))])))
  }

  /** A preview is at most 203 characters and starts like the content. */
  lemma PreviewShape(content: string)
    ensures |Preview(content)| <= PreviewLength + 3
    ensures StartsWith(Preview(content), content[..if |content| < PreviewLength then |content| else PreviewLength])
    ensures |content| <= PreviewLength ==> Preview(content) == content
  {
  }

  /** The entries of a prefix of the hits are a prefix of the entries of all of them. */
  lemma {:induction false} ResultEntriesPrefix(hits: seq<SearchHit>, k: nat)
    requires k <= |hits|
    ensures StartsWith(ResultEntries(hits), ResultEntries(hits[..k]))
    decreases |hits|
  {
    if k < |hits| {
      var init := hits[..|hits| - 1];
      assert init[..k] == hits[..k];
      ResultEntriesPrefix(init, k);
      var a, b := ResultEntries(init), ResultEntries(hits[..k]);
      assert ResultEntries(hits) == a + ResultEntry(|hits|, hits[|hits| - 1]);
      assert (a + ResultEntry(|hits|, hits[|hits| - 1]))[..|b|] == a[..|b|];
    } else {
      assert hits[..k] == hits;
    }
  }

  /**
   * The memory answer reports the query and the number of hits; without hits it says so,
   * otherwise the text starts with the heading and the first hit's entry.
   */
  lemma MemoryResponseFacts(message: string, hits: seq<SearchHit>)
    ensures var r := MemoryResponse(message, Ok(hits));
      && r.functionUsed == "memory_search"
      && r.memoryContext == Some(VDict([("search_query", VStr(MemoryQuery(message))), ("results_count", VInt(|hits|))]))
      && StartsWith(r.response, SearchHeading(MemoryQuery(message)))
      && (hits != [] ==> StartsWith(r.response, SearchHeading(MemoryQuery(message)) + ResultEntry(1, hits[0])))
  {
    var head := SearchHeading(MemoryQuery(message));
    var r := MemoryResponse(message, Ok(hits));
    if hits != [] {
      ResultEntriesPrefix(hits, 1);
      assert hits[..1][..0] == [];
      assert ResultEntries(hits[..1]) == ResultEntry(1, hits[0]);
      var e := ResultEntries(hits);
      assert r.response == head + e;
      assert (head + e)[..|head| + |ResultEntry(1, hits[0])|] == head + e[..|ResultEntry(1, hits[0])|];
    } else {
      assert r.response[..|head|] == head;
    }
  }

  lemma ResultEntriesStep(hits: seq<SearchHit>, i: nat)
    requires i < |hits|
    ensures ResultEntries(hits[..i + 1]) == ResultEntries(hits[..i]) + ResultEntry(i + 1, hits[i])
  {
    assert hits[..i + 1][..i] == hits[..i];
  }

  /** The response loop of handle_memory_command: one entry per hit, numbered from 1. */
  method BuildMemoryText(query: string, hits: seq<SearchHit>) returns (text: string)
    requires hits != []
    ensures text == SearchHeading(query) + ResultEntries(hits)
  {
    var heading := SearchHeading(query);
    var entries := "";
    for i := 0 to |hits|
      invariant entries == ResultEntries(hits[..i])
    {
      ResultEntriesStep(hits, i);
      entries := entries + ResultEntry(i + 1, hits[i]);
    }
    assert hits[..|hits|] == hits;
    text := heading + entries;
  }

  // ---------------------------------------------------------------- the statistics command

  /** What raising on the undefined name all_docs says. */
  const UndefinedAllDocs: string := "name 'all_docs' is not defined"

  /**
   * handle_stats_command: it refers to all_docs, which is never defined, so it always answers
   * with the error text, the statistics' own error when those raised first.
   */
  function StatsResponse(statsError: Option<string>): ChatResponse
  {
    var e := if statsError.Some? then statsError.value else UndefinedAllDocs;
    ChatResponse("\U{274C} **Stats Error:** " + e, "stats", None)
  }

  /** Whatever the statistics are, the handler never shows them and carries no memory context. */
  lemma StatsAlwaysErrors(statsError: Option<string>)
    ensures StartsWith(StatsResponse(statsError).response, "\U{274C} **Stats Error:** ")
    ensures StatsResponse(statsError).functionUsed == "stats" && StatsResponse(statsError).memoryContext.None?
    ensures statsError.None? ==> EndsWith(StatsResponse(statsError).response, UndefinedAllDocs)
  {
    var r := StatsResponse(statsError).response;
    var e := if statsError.Some? then statsError.value else UndefinedAllDocs;
    assert r == "\U{274C} **Stats Error:** " + e;
    assert r[..|"\U{274C} **Stats Error:** "|] == "\U{274C} **Stats Error:** ";
    assert r[|r| - |e|..] == e;
  }

  // ---------------------------------------------------------------- metadata cache

  /** The projection of a document the cache keeps. */
  datatype MetaEntry = MetaEntry(
    documentId: string, filename: string, documentType: string, fileSize: int,
    uploadTimestamp: Option<nat>, hasPropertyData: bool)

  function MetaOf(d: DocumentSummary): MetaEntry
  {
    MetaEntry(d.documentId, d.filename, d.documentType, d.fileSize, d.uploadTimestamp, d.extractedPropertyData.Some?)
  }

  /** cache_duration, in seconds. */
  const CacheDuration: int := 300

  /** get_all_documents attaches no property data, so no cached entry claims any. */
  lemma CachedNeverHasPropertyData(docs: seq<DocumentSummary>)
    requires forall d :: d in docs ==> d.extractedPropertyData.None?
    ensures forall e :: e in MapSeq(MetaOf, docs) ==> !e.hasPropertyData
  {
    MapSeqAt(MetaOf, docs);
    forall e | e in MapSeq(MetaOf, docs) ensures !e.hasPropertyData {
      var i :| 0 <= i < |docs| && MapSeq(MetaOf, docs)[i] == e;
      assert docs[i] in docs;
    }
  }

  /** The module-level _document_cache. */
  class DocumentCache {
    var metadata: Option<seq<MetaEntry>>
    var lastUpdated: Option<int>

    constructor ()
      ensures metadata.None? && lastUpdated.None?
    {
      metadata := None;
      lastUpdated := None;
    }

    /** Both fields are set and the entry is younger than the duration at time `now`. */
    predicate Fresh(now: int)
      reads this
    {
      metadata.Some? && lastUpdated.Some? && now - lastUpdated.value < CacheDuration
    }

    /**
     * get_cached_document_metadata at time `now`; `fetched` is what get_all_documents returns
     * or raises. A fresh cache answers without using it; a refresh stores the projection and the
     * time; a failed refresh keeps the cache and answers the old metadata, or [] without any.
     */
    method GetCached(now: int, fetched: Result<seq<DocumentSummary>, string>) returns (r: seq<MetaEntry>)
      modifies this
      ensures old(Fresh(now)) ==> r == old(metadata).value && unchanged(this)
      ensures !old(Fresh(now)) && fetched.Ok? ==>
        && r == MapSeq(MetaOf, fetched.value)
        && metadata == Some(r) && lastUpdated == Some(now)
        && forall t :: now <= t < now + CacheDuration ==> Fresh(t)
      ensures !old(Fresh(now)) && fetched.Err? ==> r == old(metadata).GetOr([]) && unchanged(this)
    {
      if Fresh(now) {
        return metadata.value;
      }
      match fetched
      case Err(_) =>
        r := if metadata.Some? then metadata.value else [];
      case Ok(docs) =>
        r := Project(docs);
        metadata := Some(r);
        lastUpdated := Some(now);
    }

    /** invalidate_document_cache: both fields cleared, so the next call fetches. */
    method Invalidate()
      modifies this
      ensures metadata.None? && lastUpdated.None?
      ensures forall t :: !Fresh(t)
    {
      metadata := None;
      lastUpdated := None;
    }
  }

  /** The append loop that builds the cached projection. */
  method Project(docs: seq<DocumentSummary>) returns (r: seq<MetaEntry>)
    ensures r == MapSeq(MetaOf, docs)
  {
    r := [];
    for i := 0 to |docs|
      invariant r == MapSeq(MetaOf, docs[..i])
    {
      MapSeqStep(MetaOf, docs, i);
      r := r + [MetaOf(docs[i])];
    }
    assert docs[..|docs|] == docs;
  }

  /**
   * handle_stats_command: the cache is consulted (and may refresh) once the statistics are
   * read, and then the undefined name raises.
   */
  method HandleStats(cache: DocumentCache, now: int, fetched: Result<seq<DocumentSummary>, string>,
                     statsError: Option<string>) returns (r: ChatResponse)
    modifies cache
    ensures r == StatsResponse(statsError)
  {
    if statsError.Some? {
      return StatsResponse(statsError);
    }
    var metadata := cache.GetCached(now, fetched);
    r := StatsResponse(None);
  }

  // ---------------------------------------------------------------- keyword fallback

  const DataKeywords: seq<string> := ["csv", "excel", "table", "data"]
  const PropertyKeywords: seq<string> := ["portfolio", "property", "investment"]

  /** What get_document_by_id gives for an id: the document, nothing, or a raise. */
  datatype Lookup = Found(doc: DocumentSummary) | NotFound | Raised

  /** An entry of the fallback's answer: the full document, or the cached entry when the lookup raised. */
  datatype Relevant = FullDocument(doc: DocumentSummary) | MetadataOnly(meta: MetaEntry)

  /** The lowered filename and the lowered query both contain a keyword of `group`. */
  predicate SharesGroup(filename: string, query: string, group: seq<string>)
  {
    ContainsAny(Lower(filename), group) && ContainsAny(Lower(query), group)
  }

  predicate KeywordMatch(m: MetaEntry, query: string)
  {
    SharesGroup(m.filename, query, DataKeywords) || SharesGroup(m.filename, query, PropertyKeywords)
  }

  /** What one cached entry contributes. */
  function Pick(m: MetaEntry, query: string, lookup: string -> Lookup): seq<Relevant>
  {
    if KeywordMatch(m, query) then LookupOutcome(m, lookup) else []
  }

  /** fallback_document_search: the contributions of the entries, in their order. */
  function Fallback(metas: seq<MetaEntry>, query: string, lookup: string -> Lookup): seq<Relevant>
  {
    if metas == [] then []
    else Fallback(metas[..|metas| - 1], query, lookup) + Pick(metas[|metas| - 1], query, lookup)
  }

  /** The fallback keeps the order of the cached entries: it distributes over concatenation. */
  lemma {:induction false} FallbackAppend(a: seq<MetaEntry>, b: seq<MetaEntry>, query: string, lookup: string -> Lookup)
    ensures Fallback(a + b, query, lookup) == Fallback(a, query, lookup) + Fallback(b, query, lookup)
    decreases |b|
  {
    if b != [] {
      var b' := b[..|b| - 1];
      assert (a + b)[..|a + b| - 1] == a + b';
      FallbackAppend(a, b', query, lookup);
    } else {
      assert a + b == a;
    }
  }

  /**
   * At most one answer per cached entry, and each answer comes from an entry whose filename
   * shares a keyword group with the query: a full document when the lookup found it, the
   * entry itself when the lookup raised.
   */
  lemma {:induction false} FallbackOnlyMatching(metas: seq<MetaEntry>, query: string, lookup: string -> Lookup)
    ensures |Fallback(metas, query, lookup)| <= |metas|
    ensures forall x :: x in Fallback(metas, query, lookup) ==>
      exists m :: m in metas && KeywordMatch(m, query) && x in Pick(m, query, lookup)
  {
    if metas != [] {
      var init, last := metas[..|metas| - 1], metas[|metas| - 1];
      FallbackOnlyMatching(init, query, lookup);
      forall x | x in Fallback(metas, query, lookup)
        ensures exists m :: m in metas && KeywordMatch(m, query) && x in Pick(m, query, lookup)
      {
        if x in Fallback(init, query, lookup) {
          var m :| m in init && KeywordMatch(m, query) && x in Pick(m, query, lookup);
          assert m in metas;
        } else {
          assert x in Pick(last, query, lookup);
        }
      }
    }
  }

  /** A query without any keyword of either group finds nothing. */
  lemma {:induction false} FallbackNeedsKeyword(metas: seq<MetaEntry>, query: string, lookup: string -> Lookup)
    requires !ContainsAny(Lower(query), DataKeywords) && !ContainsAny(Lower(query), PropertyKeywords)
    ensures Fallback(metas, query, lookup) == []
  {
    if metas != [] {
      FallbackNeedsKeyword(metas[..|metas| - 1], query, lookup);
    }
  }

  /** The loop of fallback_document_search, with its two keyword branches. */
  method FallbackDocumentSearch(query: string, metas: seq<MetaEntry>, lookup: string -> Lookup)
    returns (relevant: seq<Relevant>)
    ensures relevant == Fallback(metas, query, lookup)
  {
    var queryLower := Lower(query);
    relevant := [];
    for i := 0 to |metas|
      invariant relevant == Fallback(metas[..i], query, lookup)
    {
      assert metas[..i + 1][..i] == metas[..i];
      var m := metas[i];
      var filename := Lower(m.filename);
      if ContainsAny(filename, DataKeywords) && ContainsAny(queryLower, DataKeywords) {
        relevant := relevant + LookupOutcome(m, lookup);
      } else if ContainsAny(filename, PropertyKeywords) && ContainsAny(queryLower, PropertyKeywords) {
        relevant := relevant + LookupOutcome(m, lookup);
      }
    }
    assert metas[..|metas|] == metas;
  }

  /** The try block shared by both branches: the found document, or the entry when the lookup raised. */
  function LookupOutcome(m: MetaEntry, lookup: string -> Lookup): seq<Relevant>
  {
    match lookup(m.documentId)
    case Found(d) => [FullDocument(d)]
    case NotFound => []
    case Raised => [MetadataOnly(m)]
  }
}
