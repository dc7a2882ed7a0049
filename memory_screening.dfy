// The memory screening service: which stored documents a screening uses, how many, in which
// order and how much of each. The summary is written by a language model, which is the
// `summarize` parameter; the formatted similarity score of a search hit is `similarity`.
// What a search call raised is a parameter of the operations that search.

module Screening {
  import opened Wrappers
  import opened Strings
  import opened VectorStore
  import opened Memory

  /** One entry of text_inputs: the text, its source label and, when screening everything, type and size. */
  datatype TextInput = TextInput(text: string, source: string, fileType: Option<string>, fileSize: Option<int>)

  /** A document as get_screening_context describes it. */
  datatype ContextEntry = ContextEntry(
    documentId: string, filename: string, documentType: string, similarity: Option<string>, hasPropertyData: bool)

  /** The dicts the service answers with; the screening timestamps are left out. */
  datatype Outcome =
    | Failure(error: string)
    | DocumentScreened(documentId: string, filename: string, documentType: string, summary: string,
                       sourcesUsed: nat, extractedPropertyData: Option<PropertyData>)
    | SearchScreened(searchQuery: string, summary: string, documentsUsed: nat, documentIds: seq<string>,
                     searchResults: seq<SearchHit>)
    | AllScreened(summary: string, totalDocuments: nat, documentIds: seq<string>, performanceNote: string)
    | Context(main: ContextEntry, related: seq<ContextEntry>)

  datatype Services = Services(summarize: seq<TextInput> -> string, similarity: SearchHit -> string)

  /** What a search call gave: its hits, or the text of what it raised. */
  type SearchAnswer = Result<seq<SearchHit>, string>

  /** The number of characters of a document's content used as the related-documents query. */
  const QueryLength: nat := 500
  /** The default limit of _get_related_documents. */
  const RelatedLimit: nat := 3
  /** At most this many documents take part in screening everything. */
  const MaxDocuments: nat := 10
  /** Content longer than this is cut when screening everything. */
  const MaxContent: nat := 2000
  const TruncationMark: string := "... [truncated]"

  function QueryText(content: string): string
  {
    content[..Min(QueryLength, |content|)]
  }

  // ---------------------------------------------------------------- related documents

  /** The hits whose document is not `id`, in search order. */
  function Others(hits: seq<SearchHit>, id: string): seq<SearchHit>
  {
    if hits == [] then []
    else (if hits[0].documentId != id then [hits[0]] else []) + Others(hits[1..], id)
  }

  /** The main document filtered out of the search answer, cut to `limit`; a raised search gives []. */
  function RelatedOf(answer: SearchAnswer, id: string, limit: nat): seq<SearchHit>
  {
    match answer
    case Err(_) => []
    case Ok(hits) =>
      var others := Others(hits, id);
      others[..Min(limit, |others|)]
  }

  lemma {:induction false} OthersFacts(hits: seq<SearchHit>, id: string)
    ensures |Others(hits, id)| <= |hits|
    ensures forall h :: h in Others(hits, id) <==> h in hits && h.documentId != id
    ensures (forall h :: h in hits ==> h.documentId != id) ==> Others(hits, id) == hits
  {
    if hits != [] {
      OthersFacts(hits[1..], id);
      assert hits == [hits[0]] + hits[1..];
    }
  }

  /**
   * The related documents never include the main one, number at most `limit`, all come from the
   * search answer, and are [] when the search raised; when the main document is not among the
   * hits they are the first `limit` hits.
   */
  lemma RelatedFacts(answer: SearchAnswer, id: string, limit: nat)
    ensures |RelatedOf(answer, id, limit)| <= limit
    ensures answer.Err? ==> RelatedOf(answer, id, limit) == []
    ensures forall h :: h in RelatedOf(answer, id, limit) ==>
      h.documentId != id && answer.Ok? && h in answer.value
    ensures answer.Ok? && (forall h :: h in answer.value ==> h.documentId != id) ==>
      RelatedOf(answer, id, limit) == answer.value[..Min(limit, |answer.value|)]
  {
    if answer.Ok? {
      OthersFacts(answer.value, id);
      var others := Others(answer.value, id);
      forall h | h in others[..Min(limit, |others|)] ensures h in others {
        var k :| 0 <= k < Min(limit, |others|) && others[..Min(limit, |others|)][k] == h;
        assert others[k] == h;
      }
    }
  }

  // ---------------------------------------------------------------- screening one document

  function RelatedInput(h: SearchHit): TextInput
  {
    TextInput(h.content, h.filename + " (related)", None, None)
  }

  /**
   * screen_property_from_memory, given what get_document_by_id returned and what the related
   * search gave: the main text first, then each related document labelled "(related)".
   */
  function ScreenDocumentOf(id: string, doc: Option<DocumentSummary>, includeContext: bool, answer: SearchAnswer,
                            sv: Services): Outcome
  {
    match doc
    case None => Failure("Document with ID " + id + " not found")
    case Some(d) =>
      var related := if includeContext then RelatedOf(answer, d.documentId, RelatedLimit) else [];
      var inputs := [TextInput(d.content, d.filename, None, None)] + MapSeq(RelatedInput, related);
      DocumentScreened(id, d.filename, d.documentType, sv.summarize(inputs), |inputs|, d.extractedPropertyData)
  }

  /**
   * A missing document fails; otherwise sources_used is one plus the number of related
   * documents, so at most four, and one without context.
   */
  lemma SourcesUsed(id: string, doc: Option<DocumentSummary>, includeContext: bool, answer: SearchAnswer, sv: Services)
    ensures ScreenDocumentOf(id, doc, includeContext, answer, sv).Failure? <==> doc.None?
    ensures doc.Some? ==>
      var r := ScreenDocumentOf(id, doc, includeContext, answer, sv);
      && r.DocumentScreened?
      && r.sourcesUsed == 1 + (if includeContext then |RelatedOf(answer, doc.value.documentId, RelatedLimit)| else 0)
      && 1 <= r.sourcesUsed <= 1 + RelatedLimit
      && (!includeContext || answer.Err? ==> r.sourcesUsed == 1)
  {
    if doc.Some? {
      RelatedFacts(answer, doc.value.documentId, RelatedLimit);
    }
  }

  /** The loop that appends one text input per related document. */
  method AppendRelated(inputs: seq<TextInput>, related: seq<SearchHit>) returns (r: seq<TextInput>)
    ensures r == inputs + MapSeq(RelatedInput, related)
  {
    MapSeqAt(RelatedInput, related);
    r := inputs;
    for i := 0 to |related|
      invariant |r| == |inputs| + i
      invariant r[..|inputs|] == inputs
      invariant forall k :: 0 <= k < i ==> r[|inputs| + k] == RelatedInput(related[k])
    {
      r := r + [RelatedInput(related[i])];
    }
  }

  /** _get_related_documents: search on the first 500 characters for one more than `limit`, drop the main document. */
  method RelatedDocuments(mem: DocumentMemory, main: DocumentSummary, limit: nat, searchError: Option<string>)
    returns (related: seq<SearchHit>, ghost answer: SearchAnswer)
    ensures answer.Ok? <==> searchError.None?
    ensures related == RelatedOf(answer, main.documentId, limit)
    ensures |related| <= limit && forall h :: h in related ==> h.documentId != main.documentId
  {
    var a: SearchAnswer;
    if searchError.Some? {
      a := Err(searchError.value);
    } else {
      var hits;
      ghost var found;
      hits, found := mem.SearchDocuments(QueryText(main.content), None, limit + 1, true);
      a := Ok(hits);
    }
    answer := a;
    related := RelatedOf(a, main.documentId, limit);
    RelatedFacts(answer, main.documentId, limit);
  }

  /**
   * screen_property_from_memory: fails exactly when no chunk carries the id; a screened
   * document reports no property data, since get_document_by_id never attaches it.
   */
  method ScreenPropertyFromMemory(mem: DocumentMemory, id: string, includeContext: bool, searchError: Option<string>,
                                  sv: Services)
    returns (r: Outcome, ghost doc: Option<DocumentSummary>, ghost answer: SearchAnswer)
    ensures r == ScreenDocumentOf(id, doc, includeContext, answer, sv)
    ensures r.Failure? <==> id !in StoreIds(mem.store.chunks)
    ensures r.DocumentScreened? ==> r.extractedPropertyData.None? && 1 <= r.sourcesUsed <= 1 + RelatedLimit
  {
    var found;
    ghost var hits;
    found, hits := mem.GetDocumentById(id);
    doc := found;
    answer := Err("");
    if found.None? {
      r := Failure("Document with ID " + id + " not found");
    } else {
      var d := found.value;
      var inputs := [TextInput(d.content, d.filename, None, None)];
      var related := [];
      if includeContext {
        related, answer := RelatedDocuments(mem, d, RelatedLimit, searchError);
        inputs := AppendRelated(inputs, related);
      } else {
        inputs := AppendRelated(inputs, related);
      }
      r := DocumentScreened(id, d.filename, d.documentType, sv.summarize(inputs), |inputs|, d.extractedPropertyData);
      SourcesUsed(id, doc, includeContext, answer, sv);
    }
  }

  // ---------------------------------------------------------------- screening a search

  function SearchInput(h: SearchHit, sv: Services): TextInput
  {
    TextInput(h.content, h.filename + " (similarity: " + sv.similarity(h) + ")", None, None)
  }

  function HitIds(hits: seq<SearchHit>): (ids: seq<string>)
    ensures |ids| == |hits| && forall i :: 0 <= i < |hits| ==> ids[i] == hits[i].documentId
  {
    seq(|hits|, i requires 0 <= i < |hits| => hits[i].documentId)
  }

  /** screen_properties_by_search, given the search answer. */
  function ScreenSearchOf(query: string, answer: SearchAnswer, sv: Services): Outcome
  {
    match answer
    case Err(m) => Failure("Search-based screening failed: " + m)
    case Ok(hits) =>
      if hits == [] then Failure("No documents found for query: " + query)
      else
        var inputs := seq(|hits|, i requires 0 <= i < |hits| => SearchInput(hits[i], sv));
        SearchScreened(query, sv.summarize(inputs), |inputs|, HitIds(hits), hits)
  }

  /**
   * A search screening fails when the search raised or found nothing; otherwise every hit is
   * used, and document_ids lists the hits' ids in search order.
   */
  lemma SearchScreening(query: string, answer: SearchAnswer, sv: Services)
    ensures ScreenSearchOf(query, answer, sv).Failure? <==> answer.Err? || answer.value == []
    ensures answer.Ok? && answer.value == [] ==>
      ScreenSearchOf(query, answer, sv) == Failure("No documents found for query: " + query)
    ensures ScreenSearchOf(query, answer, sv).SearchScreened? ==>
      var r := ScreenSearchOf(query, answer, sv);
      && r.documentsUsed == |answer.value| == |r.documentIds|
      && r.searchResults == answer.value
      && forall i :: 0 <= i < |answer.value| ==> r.documentIds[i] == answer.value[i].documentId
  {
  }

  /** The loop that builds text_inputs and document_ids side by side from the hits. */
  method CollectSearchInputs(hits: seq<SearchHit>, sv: Services) returns (inputs: seq<TextInput>, ids: seq<string>)
    ensures inputs == seq(|hits|, i requires 0 <= i < |hits| => SearchInput(hits[i], sv))
    ensures ids == HitIds(hits)
  {
    inputs, ids := [], [];
    for i := 0 to |hits|
      invariant |inputs| == |ids| == i
      invariant forall k :: 0 <= k < i ==> inputs[k] == SearchInput(hits[k], sv) && ids[k] == hits[k].documentId
    {
      inputs := inputs + [SearchInput(hits[i], sv)];
      ids := ids + [hits[i].documentId];
    }
  }

  /** screen_properties_by_search over the memory. */
  method ScreenPropertiesBySearch(mem: DocumentMemory, query: string, documentType: Option<DocumentType>, limit: nat,
                                  includePropertyData: bool, searchError: Option<string>, sv: Services)
    returns (r: Outcome, ghost answer: SearchAnswer)
    ensures r == ScreenSearchOf(query, answer, sv)
    ensures answer.Ok? <==> searchError.None?
    ensures answer.Ok? ==> |answer.value| <= limit
  {
    if searchError.Some? {
      answer := Err(searchError.value);
      r := Failure("Search-based screening failed: " + searchError.value);
    } else {
      var hits;
      ghost var found;
      hits, found := mem.SearchDocuments(query, documentType, limit, includePropertyData);
      FormatHitsLength(found, mem.documentMetadata, includePropertyData);
      answer := Ok(hits);
      if hits == [] {
        r := Failure("No documents found for query: " + query);
      } else {
        var inputs, ids := CollectSearchInputs(hits, sv);
        r := SearchScreened(query, sv.summarize(inputs), |inputs|, ids, hits);
      }
    }
  }

  // ---------------------------------------------------------------- screening everything

  /** [doc for doc in all if doc.get("extracted_property_data") is not None] */
  function WithPropertyData(all: seq<DocumentSummary>): seq<DocumentSummary>
  {
    if all == [] then []
    else (if all[0].extractedPropertyData.Some? then [all[0]] else []) + WithPropertyData(all[1..])
  }

  lemma {:induction false} WithPropertyDataFacts(all: seq<DocumentSummary>)
    ensures forall d :: d in WithPropertyData(all) <==> d in all && d.extractedPropertyData.Some?
    ensures (forall d :: d in all ==> d.extractedPropertyData.None?) ==> WithPropertyData(all) == []
  {
    if all != [] {
      WithPropertyDataFacts(all[1..]);
      assert all == [all[0]] + all[1..];
    }
  }

  /** The sort key of sorted(..., key=file_size, reverse=True): Python's reverse sort is stable too. */
  function LargerFirst(d: DocumentSummary): int
  {
    -d.fileSize
  }

  /** More than ten documents are cut to the ten largest by file_size. */
  function Limited(docs: seq<DocumentSummary>): seq<DocumentSummary>
  {
    if |docs| > MaxDocuments then
      SortByFacts(docs, LargerFirst);
      SortBy(docs, LargerFirst)[..MaxDocuments]
    else docs
  }

  /**
   * At most ten documents remain, all from the input; ten or fewer are kept as they are; of more
   * than ten, the kept ones are in descending file_size and none is smaller than any dropped one.
   */
  lemma LimitedLargest(docs: seq<DocumentSummary>)
    ensures |Limited(docs)| == Min(MaxDocuments, |docs|)
    ensures multiset(Limited(docs)) <= multiset(docs)
    ensures |docs| <= MaxDocuments ==> Limited(docs) == docs
    ensures |docs| > MaxDocuments ==>
      forall i, j :: 0 <= i < j < |Limited(docs)| ==> Limited(docs)[i].fileSize >= Limited(docs)[j].fileSize
    ensures forall d, s :: d in multiset(docs) - multiset(Limited(docs)) && s in Limited(docs) ==>
      s.fileSize >= d.fileSize
  {
    if |docs| > MaxDocuments {
      var sorted := SortBy(docs, LargerFirst);
      SortByFacts(docs, LargerFirst);
      SplitSorted(sorted, docs, MaxDocuments);
    }
  }

  /**
   * Cutting a sequence sorted by LargerFirst that holds the elements of `docs` after `k`
   * elements: the kept part is in descending file_size and dominates whatever was dropped.
   */
  lemma SplitSorted(sorted: seq<DocumentSummary>, docs: seq<DocumentSummary>, k: nat)
    requires SortedBy(sorted, LargerFirst) && multiset(sorted) == multiset(docs) && k <= |sorted|
    ensures multiset(sorted[..k]) <= multiset(docs)
    ensures forall i, j :: 0 <= i < j < k ==> sorted[..k][i].fileSize >= sorted[..k][j].fileSize
    ensures forall d, s :: d in multiset(docs) - multiset(sorted[..k]) && s in sorted[..k] ==>
      s.fileSize >= d.fileSize
  {
    var kept, dropped := sorted[..k], sorted[k..];
    MultisetSplit(sorted, k);
    forall d, s | d in multiset(docs) - multiset(kept) && s in kept ensures s.fileSize >= d.fileSize {
      assert d in multiset(dropped);
      var j :| 0 <= j < |dropped| && dropped[j] == d;
      var i :| 0 <= i < |kept| && kept[i] == s;
      assert LargerFirst(sorted[i]) <= LargerFirst(sorted[k + j]);
    }
    forall i, j | 0 <= i < j < k ensures kept[i].fileSize >= kept[j].fileSize {
      assert LargerFirst(sorted[i]) <= LargerFirst(sorted[j]);
    }
  }

  lemma MultisetSplit<T>(s: seq<T>, k: nat)
    requires k <= |s|
    ensures multiset(s) == multiset(s[..k]) + multiset(s[k..])
    ensures multiset(s) - multiset(s[..k]) == multiset(s[k..])
  {
    assert s == s[..k] + s[k..];
  }

  /** Content over 2000 characters becomes its first 2000 followed by the truncation mark. */
  function Truncated(content: string): string
  {
    if |content| > MaxContent then content[..MaxContent] + TruncationMark else content
  }

  /**
   * A truncated text starts with the content's first 2000 characters and is at most 2015 long;
   * it is the content itself exactly when the content is short enough or already ends in the
   * mark at position 2000.
   */
  lemma TruncatedShape(content: string)
    ensures |Truncated(content)| <= MaxContent + |TruncationMark|
    ensures Truncated(content)[..Min(MaxContent, |content|)] == content[..Min(MaxContent, |content|)]
    ensures Truncated(content) == content <==> |content| <= MaxContent || content[MaxContent..] == TruncationMark
  {
    if |content| > MaxContent {
      if content[MaxContent..] == TruncationMark {
        assert content == content[..MaxContent] + content[MaxContent..];
      }
      if Truncated(content) == content {
        assert content[MaxContent..] == Truncated(content)[MaxContent..];
      }
    }
  }

  function AllInput(d: DocumentSummary): TextInput
  {
    TextInput(Truncated(d.content), d.filename, Some(d.documentType), Some(d.fileSize))
  }

  function DocumentIds(docs: seq<DocumentSummary>): (ids: seq<string>)
    ensures |ids| == |docs| && forall i :: 0 <= i < |docs| ==> ids[i] == docs[i].documentId
  {
    seq(|docs|, i requires 0 <= i < |docs| => docs[i].documentId)
  }

  /** screen_all_properties, given what get_all_documents returned. */
  function ScreenAllOf(all: seq<DocumentSummary>, propertyDataOnly: bool, sv: Services): Outcome
  {
    if all == [] then Failure("No documents found in memory")
    else
      var documents := if propertyDataOnly then WithPropertyData(all) else all;
      if documents == [] then Failure("No documents with property data found")
      else
        var chosen := Limited(documents);
        AllScreened(sv.summarize(MapSeq(AllInput, chosen)), |chosen|, DocumentIds(chosen),
                    "Analyzed " + NatToString(|chosen|) + " documents (content truncated for performance)")
  }

  /**
   * Screening everything fails on an empty memory and, when only documents with property data
   * are wanted, on a memory without any; otherwise it uses at most ten documents, and
   * document_ids names each of them, in the order their text inputs are given.
   */
  lemma ScreenAllFacts(all: seq<DocumentSummary>, propertyDataOnly: bool, sv: Services)
    ensures ScreenAllOf(all, propertyDataOnly, sv) == Failure("No documents found in memory") <==> all == []
    ensures all != [] && propertyDataOnly && (forall d :: d in all ==> d.extractedPropertyData.None?) ==>
      ScreenAllOf(all, propertyDataOnly, sv) == Failure("No documents with property data found")
    ensures ScreenAllOf(all, propertyDataOnly, sv).AllScreened? ==>
      var r := ScreenAllOf(all, propertyDataOnly, sv);
      && 1 <= r.totalDocuments == |r.documentIds| <= MaxDocuments
      && forall id :: id in r.documentIds ==> exists d :: d in all && d.documentId == id
  {
    WithPropertyDataFacts(all);
    if all != [] {
      var documents := if propertyDataOnly then WithPropertyData(all) else all;
      if documents != [] {
        var chosen := Limited(documents);
        LimitedLargest(documents);
        forall id | id in DocumentIds(chosen) ensures exists d :: d in all && d.documentId == id {
          var i :| 0 <= i < |chosen| && DocumentIds(chosen)[i] == id;
          assert chosen[i] in multiset(documents);
        }
      }
    }
  }

  /** The loop that builds text_inputs and document_ids side by side, truncating each content. */
  method PrepareInputs(documents: seq<DocumentSummary>) returns (inputs: seq<TextInput>, ids: seq<string>)
    ensures inputs == MapSeq(AllInput, documents)
    ensures ids == DocumentIds(documents)
  {
    MapSeqAt(AllInput, documents);
    inputs, ids := [], [];
    for i := 0 to |documents|
      invariant |inputs| == |ids| == i
      invariant forall k :: 0 <= k < i ==> inputs[k] == AllInput(documents[k]) && ids[k] == documents[k].documentId
    {
      var content := documents[i].content;
      if |content| > MaxContent {
        content := content[..MaxContent] + TruncationMark;
      }
      inputs := inputs + [TextInput(content, documents[i].filename, Some(documents[i].documentType),
                                    Some(documents[i].fileSize))];
      ids := ids + [documents[i].documentId];
    }
  }

  /**
   * screen_all_properties over the memory: an empty store fails with "No documents found in
   * memory", and with the default of property-data documents only the screening always fails,
   * because get_all_documents attaches property data to no document.
   */
  method ScreenAllProperties(mem: DocumentMemory, propertyDataOnly: bool, sv: Services)
    returns (r: Outcome, ghost all: seq<DocumentSummary>)
    ensures r == ScreenAllOf(all, propertyDataOnly, sv)
    ensures r == Failure("No documents found in memory") <==> StoreIds(mem.store.chunks) == {}
    ensures propertyDataOnly ==> r.Failure?
  {
    var docs := mem.GetAllDocuments();
    all := docs;
    ScreenAllFacts(all, propertyDataOnly, sv);
    if docs == [] {
      r := Failure("No documents found in memory");
      return;
    }
    var documents := if propertyDataOnly then WithPropertyData(docs) else docs;
    if documents == [] {
      r := Failure("No documents with property data found");
      return;
    }
    var chosen := Limited(documents);
    var inputs, ids := PrepareInputs(chosen);
    r := AllScreened(sv.summarize(inputs), |chosen|, ids,
                     "Analyzed " + NatToString(|chosen|) + " documents (content truncated for performance)");
  }

  // ---------------------------------------------------------------- screening context

  function MainEntry(d: DocumentSummary): ContextEntry
  {
    ContextEntry(d.documentId, d.filename, d.documentType, None, d.extractedPropertyData.Some?)
  }

  function RelatedEntry(h: SearchHit, sv: Services): ContextEntry
  {
    ContextEntry(h.documentId, h.filename, h.documentType, Some(sv.similarity(h)), h.extractedPropertyData.Some?)
  }

  /** get_screening_context, given the main document and the answer of the search for radius + 1. */
  function ContextOf(id: string, doc: Option<DocumentSummary>, radius: nat, answer: SearchAnswer, sv: Services): Outcome
  {
    match doc
    case None => Failure("Document with ID " + id + " not found")
    case Some(d) =>
      match answer
      case Err(m) => Failure("Failed to get screening context: " + m)
      case Ok(_) =>
        var related := RelatedOf(answer, id, radius);
        Context(MainEntry(d), seq(|related|, i requires 0 <= i < |related| => RelatedEntry(related[i], sv)))
  }

  /**
   * The context lists at most `radius` related documents, none of them the main one; unlike
   * _get_related_documents, a raised search fails the whole call.
   */
  lemma ContextFacts(id: string, doc: Option<DocumentSummary>, radius: nat, answer: SearchAnswer, sv: Services)
    ensures ContextOf(id, doc, radius, answer, sv).Failure? <==> doc.None? || answer.Err?
    ensures ContextOf(id, doc, radius, answer, sv).Context? ==>
      var r := ContextOf(id, doc, radius, answer, sv);
      && r.main.documentId == doc.value.documentId
      && |r.related| <= radius
      && forall e :: e in r.related ==> e.documentId != id
  {
    if doc.Some? && answer.Ok? {
      RelatedFacts(answer, id, radius);
      var related := RelatedOf(answer, id, radius);
      var r := ContextOf(id, doc, radius, answer, sv);
      forall e | e in r.related ensures e.documentId != id {
        var i :| 0 <= i < |r.related| && r.related[i] == e;
        assert related[i] in related;
      }
    }
  }

  /** get_screening_context over the memory: the main document never shows property data. */
  method GetScreeningContext(mem: DocumentMemory, id: string, radius: nat, searchError: Option<string>, sv: Services)
    returns (r: Outcome, ghost doc: Option<DocumentSummary>, ghost answer: SearchAnswer)
    ensures r == ContextOf(id, doc, radius, answer, sv)
    ensures doc.None? <==> id !in StoreIds(mem.store.chunks)
    ensures r.Context? ==> !r.main.hasPropertyData && r.main.documentId == id
  {
    var main;
    ghost var hits;
    main, hits := mem.GetDocumentById(id);
    doc := main;
    answer := Err("");
    if main.None? {
      r := Failure("Document with ID " + id + " not found");
      return;
    }
    var d := main.value;
    if searchError.Some? {
      answer := Err(searchError.value);
      r := Failure("Failed to get screening context: " + searchError.value);
      return;
    }
    var found;
    ghost var chunks;
    found, chunks := mem.SearchDocuments(QueryText(d.content), None, radius + 1, true);
    answer := Ok(found);
    var related := RelatedOf(Ok(found), id, radius);
    r := Context(MainEntry(d), seq(|related|, i requires 0 <= i < |related| => RelatedEntry(related[i], sv)));
  }
}
