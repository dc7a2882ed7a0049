// The document index: an in-memory map document_id -> DocumentMetadata kept beside the chunk
// store. Storing registers the record and appends one chunk per piece of the splitter's output;
// the read operations reassemble documents from chunks; the deletes keep map and store in step
// as far as the source does; statistics read only the map.

module Memory {
  import opened Wrappers
  import opened Strings
  import opened PyValues
  import opened VectorStore

  datatype DocumentType = PDF | DOCX | PPTX | XLSX | CSV | TXT | RTF | ODT

  function TypeValue(t: DocumentType): string
  {
    match t
    case PDF => "pdf"
    case DOCX => "docx"
    case PPTX => "pptx"
    case XLSX => "xlsx"
    case CSV => "csv"
    case TXT => "txt"
    case RTF => "rtf"
    case ODT => "odt"
  }

  /** DocumentType(value): None where Python raises ValueError. */
  function ParseType(s: string): (r: Option<DocumentType>)
    ensures r.Some? ==> TypeValue(r.value) == s
  {
    if s == "pdf" then Some(PDF)
    else if s == "docx" then Some(DOCX)
    else if s == "pptx" then Some(PPTX)
    else if s == "xlsx" then Some(XLSX)
    else if s == "csv" then Some(CSV)
    else if s == "txt" then Some(TXT)
    else if s == "rtf" then Some(RTF)
    else if s == "odt" then Some(ODT)
    else None
  }

  lemma ParseTypeValue(t: DocumentType)
    ensures ParseType(TypeValue(t)) == Some(t)
  {
  }

  const AllTypes: seq<DocumentType> := [PDF, DOCX, PPTX, XLSX, CSV, TXT, RTF, ODT]

  /** A property-data dict as the extractor returns it. */
  type PropertyData = seq<(string, Value)>

  datatype DocumentMetadata = DocumentMetadata(
    documentId: string,
    filename: string,
    documentType: DocumentType,
    uploadTimestamp: nat,
    fileSize: int,
    source: string,
    extractedPropertyData: Option<PropertyData>,
    tags: seq<string>)

  // ---------------------------------------------------------------- storing

  /** The metadata store_document writes on chunk i of n (file_size is not among them). */
  function ChunkMetaFor(m: DocumentMetadata, i: nat, n: nat): ChunkMeta
  {
    ChunkMeta(Some(m.documentId), Some(m.filename), Some(TypeValue(m.documentType)), Some(i), Some(n),
              Some(m.source), Some(m.uploadTimestamp), Some(m.tags), Some(m.extractedPropertyData.Some?), None)
  }

  function StoredChunks(m: DocumentMetadata, parts: seq<string>): seq<Chunk>
  {
    seq(|parts|, i requires 0 <= i < |parts| => Chunk(parts[i], ChunkMetaFor(m, i, |parts|)))
  }

  /** Every stored chunk carries the id, its position as chunk_index and the count as total_chunks. */
  lemma StoredChunksShape(m: DocumentMetadata, parts: seq<string>)
    ensures |StoredChunks(m, parts)| == |parts|
    ensures forall i :: 0 <= i < |parts| ==>
      var c := StoredChunks(m, parts)[i];
      c.content == parts[i] && c.meta.documentId == Some(m.documentId)
      && c.meta.chunkIndex == Some(i) && c.meta.totalChunks == Some(|parts|)
      && c.meta.hasPropertyData == Some(m.extractedPropertyData.Some?) && c.meta.fileSize.None?
  {
  }

  lemma {:induction false} StoredChunksIds(m: DocumentMetadata, parts: seq<string>)
    ensures StoreIds(StoredChunks(m, parts)) == if parts == [] then {} else {m.documentId}
    ensures ChunksOf(StoredChunks(m, parts), m.documentId) == StoredChunks(m, parts)
  {
    var cs := StoredChunks(m, parts);
    if parts != [] {
      assert cs[0].meta.documentId == Some(m.documentId);
    }
    ChunksOfAllSame(cs, m.documentId);
  }

  lemma {:induction false} ChunksOfAllSame(cs: seq<Chunk>, id: string)
    requires forall i :: 0 <= i < |cs| ==> cs[i].meta.documentId == Some(id)
    ensures ChunksOf(cs, id) == cs
  {
    if cs != [] {
      ChunksOfAllSame(cs[1..], id);
    }
  }

  lemma {:induction false} ChunksOfNone(cs: seq<Chunk>, id: string)
    requires id !in StoreIds(cs)
    ensures ChunksOf(cs, id) == []
  {
    StoreIdsHaveChunks(cs, id);
  }

  /** After storing under a fresh id, the chunks of that id are exactly the new ones, in order. */
  lemma ChunksOfAfterStore(old_: seq<Chunk>, m: DocumentMetadata, parts: seq<string>)
    requires m.documentId !in StoreIds(old_)
    ensures ChunksOf(old_ + StoredChunks(m, parts), m.documentId) == StoredChunks(m, parts)
  {
    MatchingAppend(old_, StoredChunks(m, parts), ByDocument(m.documentId));
    ChunksOfNone(old_, m.documentId);
    StoredChunksIds(m, parts);
  }

  // ---------------------------------------------------------------- rebuilding

  /** The record rebuild makes from a probed chunk; None where DocumentType(...) raises. */
  function RecordFromChunk(id: string, m: ChunkMeta, now: nat): Option<DocumentMetadata>
  {
    match ParseType(m.documentType.GetOr("txt"))
    case None => None
    case Some(t) =>
      Some(DocumentMetadata(id, m.filename.GetOr("Unknown"), t, m.uploadTimestamp.GetOr(now),
                            m.fileSize.GetOr(0), m.source.GetOr("unknown"), None, m.tags.GetOr([])))
  }

  /**
   * Rebuilding from a chunk that store_document wrote gives back the stored record, except
   * that file_size becomes 0 and extracted_property_data None: neither is in chunk metadata.
   */
  lemma RebuildForgetsSizeAndPropertyData(m: DocumentMetadata, i: nat, n: nat, now: nat)
    ensures RecordFromChunk(m.documentId, ChunkMetaFor(m, i, n), now)
         == Some(m.(fileSize := 0, extractedPropertyData := None))
  {
    ParseTypeValue(m.documentType);
  }

  /** Two chunk metadatas agree on every key rebuild reads. */
  predicate SameRecordFields(a: ChunkMeta, b: ChunkMeta)
  {
    a.filename == b.filename && a.documentType == b.documentType && a.uploadTimestamp == b.uploadTimestamp
    && a.fileSize == b.fileSize && a.source == b.source && a.tags == b.tags
  }

  /** All chunks of one document agree on the keys rebuild reads (store_document keeps this). */
  predicate Coherent(cs: seq<Chunk>)
  {
    forall i, j ::
      (0 <= i < |cs| && 0 <= j < |cs| && cs[i].meta.documentId.Some? && cs[i].meta.documentId == cs[j].meta.documentId)
      ==> SameRecordFields(cs[i].meta, cs[j].meta)
  }

  /** Every chunk with a document id has a document_type that DocumentType(...) accepts. */
  predicate ReadableTypes(cs: seq<Chunk>)
  {
    forall i :: 0 <= i < |cs| && cs[i].meta.documentId.Some? ==> ParseType(cs[i].meta.documentType.GetOr("txt")).Some?
  }

  /** `r` is the record rebuild makes for `id` from some chunk of that document. */
  ghost predicate Probed(cs: seq<Chunk>, id: string, now: nat, r: DocumentMetadata)
  {
    exists j :: 0 <= j < |cs| && cs[j].meta.documentId == Some(id) && RecordFromChunk(id, cs[j].meta, now) == Some(r)
  }

  /** `r` is the record rebuild makes for `id` from chunk `j`. */
  predicate ProbedAt(cs: seq<Chunk>, id: string, now: nat, r: DocumentMetadata, j: nat)
  {
    j < |cs| && cs[j].meta.documentId == Some(id) && RecordFromChunk(id, cs[j].meta, now) == Some(r)
  }

  /** The record from the first chunk of `id` in store order. */
  function FirstRecord(cs: seq<Chunk>, id: string, now: nat): DocumentMetadata
    requires id in StoreIds(cs) && ReadableTypes(cs)
  {
    StoreIdsHaveChunks(cs, id);
    var c := ChunksOf(cs, id)[0];
    assert c in cs;
    var j :| 0 <= j < |cs| && cs[j] == c;
    assert c.meta.documentId == Some(id);
    RecordFromChunk(id, c.meta, now).value
  }

  /** The map a complete rebuild yields: stored ids get their record, other entries stay. */
  function Rebuilt(docs: map<string, DocumentMetadata>, cs: seq<Chunk>, now: nat): map<string, DocumentMetadata>
    requires ReadableTypes(cs)
  {
    map id | id in docs.Keys + StoreIds(cs) :: if id in StoreIds(cs) then FirstRecord(cs, id, now) else docs[id]
  }

  /** On a coherent store, which chunk the probe returns does not matter. */
  lemma ProbeChoiceIrrelevant(cs: seq<Chunk>, id: string, now: nat, r: DocumentMetadata)
    requires Coherent(cs) && ReadableTypes(cs) && Probed(cs, id, now, r)
    ensures id in StoreIds(cs) && r == FirstRecord(cs, id, now)
  {
    var j :| 0 <= j < |cs| && cs[j].meta.documentId == Some(id) && RecordFromChunk(id, cs[j].meta, now) == Some(r);
    StoreIdsHaveChunks(cs, id);
    var c := ChunksOf(cs, id)[0];
    assert c in cs;
    var k :| 0 <= k < |cs| && cs[k] == c;
    assert SameRecordFields(cs[j].meta, cs[k].meta);
  }

  /**
   * A rebuild that probed every stored id of a coherent store has read only readable types and
   * produced exactly the map Rebuilt describes.
   */
  lemma RebuildComplete(cs: seq<Chunk>, before: map<string, DocumentMetadata>, after: map<string, DocumentMetadata>,
                        rebuilt: set<string>, now: nat)
    requires Coherent(cs) && rebuilt == StoreIds(cs)
    requires after.Keys == before.Keys + rebuilt
    requires forall id :: id in after && id !in rebuilt ==> after[id] == before[id]
    requires forall id :: id in rebuilt ==> Probed(cs, id, now, after[id])
    ensures ReadableTypes(cs) && after == Rebuilt(before, cs, now)
  {
    ProbesReadable(cs, after, rebuilt, now);
    RebuildAgreesEach(cs, before, after, rebuilt, now);
    RebuiltKeys(before, cs, now);
  }

  lemma RebuiltKeys(docs: map<string, DocumentMetadata>, cs: seq<Chunk>, now: nat)
    requires ReadableTypes(cs)
    ensures Rebuilt(docs, cs, now).Keys == docs.Keys + StoreIds(cs)
  {
  }

  lemma RebuildAgreesEach(cs: seq<Chunk>, before: map<string, DocumentMetadata>, after: map<string, DocumentMetadata>,
                          rebuilt: set<string>, now: nat)
    requires Coherent(cs) && ReadableTypes(cs) && rebuilt == StoreIds(cs)
    requires after.Keys == before.Keys + rebuilt
    requires forall id :: id in after && id !in rebuilt ==> after[id] == before[id]
    requires forall id :: id in rebuilt ==> Probed(cs, id, now, after[id])
    ensures forall id :: id in after ==> after[id] == Rebuilt(before, cs, now)[id]
  {
    forall id | id in after ensures after[id] == Rebuilt(before, cs, now)[id] {
      RebuildAgrees(cs, before, after, rebuilt, now, id);
    }
  }

  lemma RebuildAgrees(cs: seq<Chunk>, before: map<string, DocumentMetadata>, after: map<string, DocumentMetadata>,
                      rebuilt: set<string>, now: nat, id: string)
    requires Coherent(cs) && ReadableTypes(cs) && rebuilt == StoreIds(cs)
    requires after.Keys == before.Keys + rebuilt && id in after
    requires id !in rebuilt ==> after[id] == before[id]
    requires id in rebuilt ==> Probed(cs, id, now, after[id])
    ensures after[id] == Rebuilt(before, cs, now)[id]
  {
    if id in rebuilt {
      ProbeChoiceIrrelevant(cs, id, now, after[id]);
    }
  }

  lemma ProbesReadable(cs: seq<Chunk>, after: map<string, DocumentMetadata>, rebuilt: set<string>, now: nat)
    requires Coherent(cs) && rebuilt == StoreIds(cs) && rebuilt <= after.Keys
    requires forall id :: id in rebuilt ==> Probed(cs, id, now, after[id])
    ensures ReadableTypes(cs)
  {
    forall i | 0 <= i < |cs| && cs[i].meta.documentId.Some?
      ensures ParseType(cs[i].meta.documentType.GetOr("txt")).Some?
    {
      var x := cs[i].meta.documentId.value;
      assert x in rebuilt;
      var j :| 0 <= j < |cs| && cs[j].meta.documentId == Some(x) && RecordFromChunk(x, cs[j].meta, now) == Some(after[x]);
      assert SameRecordFields(cs[i].meta, cs[j].meta);
    }
  }

  /** What a rebuild that stopped or finished tells about the store. */
  lemma RebuildOutcome(cs: seq<Chunk>, before: map<string, DocumentMetadata>, after: map<string, DocumentMetadata>,
                       rebuilt: set<string>, ok: bool, now: nat)
    requires rebuilt <= StoreIds(cs)
    requires after.Keys == before.Keys + rebuilt
    requires forall id :: id in after && id !in rebuilt ==> after[id] == before[id]
    requires forall id :: id in rebuilt ==> Probed(cs, id, now, after[id])
    requires ok ==> rebuilt == StoreIds(cs)
    requires !ok ==> !ReadableTypes(cs)
    ensures ReadableTypes(cs) ==> ok
    ensures Coherent(cs) ==> (ok <==> ReadableTypes(cs))
    ensures ok && Coherent(cs) ==> after == Rebuilt(before, cs, now)
  {
    if ok && Coherent(cs) {
      RebuildComplete(cs, before, after, rebuilt, now);
    }
  }

  /** Repeating a complete rebuild over an unchanged store changes nothing. */
  lemma RebuildIdempotent(docs: map<string, DocumentMetadata>, cs: seq<Chunk>, now: nat)
    requires ReadableTypes(cs)
    ensures Rebuilt(Rebuilt(docs, cs, now), cs, now) == Rebuilt(docs, cs, now)
  {
  }

  /** Appending a fresh document's chunks keeps the store coherent and readable. */
  lemma StoreKeepsCoherent(cs: seq<Chunk>, m: DocumentMetadata, parts: seq<string>)
    requires Coherent(cs) && ReadableTypes(cs)
    requires m.documentId !in StoreIds(cs)
    ensures Coherent(cs + StoredChunks(m, parts)) && ReadableTypes(cs + StoredChunks(m, parts))
  {
    var all := cs + StoredChunks(m, parts);
    forall i, j | 0 <= i < |all| && 0 <= j < |all| && all[i].meta.documentId.Some?
      && all[i].meta.documentId == all[j].meta.documentId
      ensures SameRecordFields(all[i].meta, all[j].meta)
    {
      if i < |cs| && j < |cs| {
        assert all[i] == cs[i] && all[j] == cs[j];
      } else if i >= |cs| && j >= |cs| {
      } else {
        assert false;
      }
    }
    forall i | 0 <= i < |all| && all[i].meta.documentId.Some?
      ensures ParseType(all[i].meta.documentType.GetOr("txt")).Some?
    {
      if i < |cs| {
        assert all[i] == cs[i];
      } else {
        ParseTypeValue(m.documentType);
      }
    }
  }

  // ---------------------------------------------------------------- search

  datatype SearchHit = SearchHit(
    documentId: string,
    filename: string,
    documentType: string,
    content: string,
    uploadTimestamp: nat,
    tags: seq<string>,
    chunkIndex: Option<int>,
    totalChunks: Option<int>,
    extractedPropertyData: Option<PropertyData>)

  /** The filter search_documents passes to the store. */
  function SearchFilter(documentType: Option<DocumentType>, includePropertyData: bool): ChunkFilter
  {
    ChunkFilter(None,
                if documentType.Some? then Some(TypeValue(documentType.value)) else None,
                if includePropertyData then None else Some(false))
  }

  predicate Cached(c: Chunk, docs: map<string, DocumentMetadata>)
  {
    c.meta.documentId.Some? && c.meta.documentId.value in docs
  }

  /** Property data is attached only when requested and the cached dict is non-empty. */
  function AttachedData(m: DocumentMetadata, includePropertyData: bool): Option<PropertyData>
  {
    if includePropertyData && m.extractedPropertyData.Some? && m.extractedPropertyData.value != [] then
      m.extractedPropertyData
    else None
  }

  function HitFor(c: Chunk, docs: map<string, DocumentMetadata>, includePropertyData: bool): SearchHit
    requires Cached(c, docs)
  {
    var m := docs[c.meta.documentId.value];
    SearchHit(c.meta.documentId.value, m.filename, TypeValue(m.documentType), c.content, m.uploadTimestamp,
              m.tags, c.meta.chunkIndex, c.meta.totalChunks, AttachedData(m, includePropertyData))
  }

  /** One result per hit whose document has a cache entry, in hit order. */
  function FormatHits(hits: seq<Chunk>, docs: map<string, DocumentMetadata>, includePropertyData: bool): seq<SearchHit>
  {
    if hits == [] then []
    else
      (if Cached(hits[0], docs) then [HitFor(hits[0], docs, includePropertyData)] else [])
        + FormatHits(hits[1..], docs, includePropertyData)
  }

  /** The formatting loop of search_documents, one hit at a time. */
  method FormatEach(found: seq<Chunk>, docs: map<string, DocumentMetadata>, includePropertyData: bool)
    returns (results: seq<SearchHit>)
    ensures results == FormatHits(found, docs, includePropertyData)
  {
    results := [];
    for i := 0 to |found|
      invariant results == FormatHits(found[..i], docs, includePropertyData)
    {
      var c := found[i];
      assert found[..i + 1] == found[..i] + [c];
      FormatHitsAppend(found[..i], [c], docs, includePropertyData);
      if c.meta.documentId.Some? && c.meta.documentId.value in docs {
        results := results + [HitFor(c, docs, includePropertyData)];
      }
    }
    assert found[..|found|] == found;
  }

  /** Formatting distributes over concatenation of hit lists. */
  lemma {:induction false} FormatHitsAppend(a: seq<Chunk>, b: seq<Chunk>, docs: map<string, DocumentMetadata>, includePropertyData: bool)
    ensures FormatHits(a + b, docs, includePropertyData)
         == FormatHits(a, docs, includePropertyData) + FormatHits(b, docs, includePropertyData)
  {
    if a == [] {
      assert a + b == b;
    } else {
      assert (a + b)[1..] == a[1..] + b;
      FormatHitsAppend(a[1..], b, docs, includePropertyData);
    }
  }

  /**
   * Search results: never more than the hits, as many exactly when every hit's document is
   * cached, and each one carries the cached record's filename, tags and property data beside
   * the text of a hit of that document.
   */
  lemma FormatHitsFacts(hits: seq<Chunk>, docs: map<string, DocumentMetadata>, includePropertyData: bool)
    ensures var r := FormatHits(hits, docs, includePropertyData);
      |r| <= |hits|
      && (|r| == |hits| <==> forall c :: c in hits ==> Cached(c, docs))
      && forall i :: 0 <= i < |r| ==> HitFromCache(r[i], hits, docs, includePropertyData)
  {
    FormatHitsLength(hits, docs, includePropertyData);
    FormatHitsCached(hits, docs, includePropertyData);
    var r := FormatHits(hits, docs, includePropertyData);
    assert forall i :: 0 <= i < |r| ==> r[i] in r;
  }

  lemma {:induction false} FormatHitsLength(hits: seq<Chunk>, docs: map<string, DocumentMetadata>, includePropertyData: bool)
    ensures var r := FormatHits(hits, docs, includePropertyData);
      |r| <= |hits| && (|r| == |hits| <==> forall c :: c in hits ==> Cached(c, docs))
  {
    if hits != [] {
      FormatHitsLength(hits[1..], docs, includePropertyData);
      assert hits == [hits[0]] + hits[1..];
      assert hits[0] in hits;
      assert forall c :: c in hits[1..] ==> c in hits;
    }
  }

  lemma {:induction false} FormatHitsCached(hits: seq<Chunk>, docs: map<string, DocumentMetadata>, includePropertyData: bool)
    ensures forall h :: h in FormatHits(hits, docs, includePropertyData) ==> HitFromCache(h, hits, docs, includePropertyData)
  {
    if hits != [] {
      FormatHitsCached(hits[1..], docs, includePropertyData);
      var rest := FormatHits(hits[1..], docs, includePropertyData);
      var r := FormatHits(hits, docs, includePropertyData);
      forall h | h in rest ensures HitFromCache(h, hits, docs, includePropertyData) {
        HitFromCacheWiden(h, hits, docs, includePropertyData);
      }
      if Cached(hits[0], docs) {
        assert r == [HitFor(hits[0], docs, includePropertyData)] + rest;
        assert HitFromCache(r[0], hits, docs, includePropertyData) by {
          assert hits[0] in hits;
        }
      } else {
        assert r == rest;
      }
    }
  }

  lemma HitFromCacheWiden(h: SearchHit, hits: seq<Chunk>, docs: map<string, DocumentMetadata>, includePropertyData: bool)
    requires hits != [] && HitFromCache(h, hits[1..], docs, includePropertyData)
    ensures HitFromCache(h, hits, docs, includePropertyData)
  {
    var c :| c in hits[1..] && c.content == h.content && c.meta.documentId == Some(h.documentId);
    assert c in hits;
  }

  predicate HitFromCache(h: SearchHit, hits: seq<Chunk>, docs: map<string, DocumentMetadata>, includePropertyData: bool)
  {
    h.documentId in docs
    && h.filename == docs[h.documentId].filename
    && h.documentType == TypeValue(docs[h.documentId].documentType)
    && h.tags == docs[h.documentId].tags
    && h.extractedPropertyData == AttachedData(docs[h.documentId], includePropertyData)
    && exists c :: c in hits && c.content == h.content && c.meta.documentId == Some(h.documentId)
  }

  // ---------------------------------------------------------------- get by id / get all

  datatype DocumentSummary = DocumentSummary(
    documentId: string,
    filename: string,
    documentType: string,
    content: string,
    uploadTimestamp: Option<nat>,
    fileSize: int,
    source: string,
    tags: seq<string>,
    extractedPropertyData: Option<PropertyData>)

  /** The sort key: chunk_index, 0 when absent. */
  function IndexKey(c: Chunk): int
  {
    c.meta.chunkIndex.GetOr(0)
  }

  predicate SortedBy<T>(s: seq<T>, key: T -> int)
  {
    forall i, j :: 0 <= i < j < |s| ==> key(s[i]) <= key(s[j])
  }

  predicate StrictlyBy<T>(s: seq<T>, key: T -> int)
  {
    forall i, j :: 0 <= i < j < |s| ==> key(s[i]) < key(s[j])
  }

  /** Insert after every element whose key is not greater (keeps equal keys in arrival order). */
  function InsertBy<T>(s: seq<T>, x: T, key: T -> int): seq<T>
  {
    if s == [] then [x]
    else if key(x) < key(s[0]) then [x] + s
    else [s[0]] + InsertBy(s[1..], x, key)
  }

  lemma {:induction false} InsertByPerm<T>(s: seq<T>, x: T, key: T -> int)
    ensures multiset(InsertBy(s, x, key)) == multiset(s) + multiset{x}
    ensures |InsertBy(s, x, key)| == |s| + 1
  {
    if s != [] && key(x) >= key(s[0]) {
      InsertByPerm(s[1..], x, key);
      assert s == [s[0]] + s[1..];
    }
  }

  lemma {:induction false} InsertByFacts<T>(s: seq<T>, x: T, key: T -> int)
    requires SortedBy(s, key)
    ensures SortedBy(InsertBy(s, x, key), key)
    ensures multiset(InsertBy(s, x, key)) == multiset(s) + multiset{x}
    ensures |InsertBy(s, x, key)| == |s| + 1
  {
    InsertByPerm(s, x, key);
    if s != [] && key(x) >= key(s[0]) {
      InsertByFacts(s[1..], x, key);
      InsertBySmallest(s, x, key);
      var rest := InsertBy(s[1..], x, key);
      var r := [s[0]] + rest;
      assert InsertBy(s, x, key) == r;
      forall i, j | 0 <= i < j < |r| ensures key(r[i]) <= key(r[j]) {
        if i == 0 {
          assert r[j] == rest[j - 1];
        } else {
          assert r[i] == rest[i - 1] && r[j] == rest[j - 1];
        }
      }
    }
  }

  /** Every element of the insertion into the tail is at least the head. */
  lemma InsertBySmallest<T>(s: seq<T>, x: T, key: T -> int)
    requires SortedBy(s, key) && s != [] && key(x) >= key(s[0])
    ensures forall k :: 0 <= k < |InsertBy(s[1..], x, key)| ==> key(s[0]) <= key(InsertBy(s[1..], x, key)[k])
  {
    var rest := InsertBy(s[1..], x, key);
    InsertByPerm(s[1..], x, key);
    forall k | 0 <= k < |rest| ensures key(s[0]) <= key(rest[k]) {
      assert rest[k] in multiset(rest);
      if rest[k] != x {
        assert rest[k] in multiset(s[1..]);
        var m :| 0 <= m < |s[1..]| && s[1..][m] == rest[k];
        assert s[m + 1] == rest[k];
      }
    }
  }

  /** Python's stable sorted(..., key=key). */
  function SortBy<T>(s: seq<T>, key: T -> int): seq<T>
  {
    if s == [] then [] else InsertBy(SortBy(s[..|s| - 1], key), s[|s| - 1], key)
  }

  lemma {:induction false} SortByFacts<T>(s: seq<T>, key: T -> int)
    ensures SortedBy(SortBy(s, key), key)
    ensures multiset(SortBy(s, key)) == multiset(s)
    ensures |SortBy(s, key)| == |s|
  {
    if s != [] {
      SortByFacts(s[..|s| - 1], key);
      InsertByFacts(SortBy(s[..|s| - 1], key), s[|s| - 1], key);
      assert s == s[..|s| - 1] + [s[|s| - 1]];
    }
  }

  /** A non-decreasing sequence with the same elements as a strictly increasing one is that one. */
  lemma {:induction false} SortedUnique<T>(s: seq<T>, t: seq<T>, key: T -> int)
    requires SortedBy(s, key) && StrictlyBy(t, key) && multiset(s) == multiset(t)
    ensures s == t
    decreases |s|
  {
    assert |s| == |multiset(s)| == |multiset(t)| == |t|;
    if s != [] {
      SameHead(s, t, key);
      assert s == [s[0]] + s[1..] && t == [t[0]] + t[1..];
      assert multiset(s[1..]) == multiset(s) - multiset{s[0]};
      assert multiset(t[1..]) == multiset(t) - multiset{t[0]};
      SortedUnique(s[1..], t[1..], key);
    }
  }

  lemma SameHead<T>(s: seq<T>, t: seq<T>, key: T -> int)
    requires SortedBy(s, key) && StrictlyBy(t, key) && multiset(s) == multiset(t) && s != [] && t != []
    ensures s[0] == t[0]
  {
    assert s[0] in multiset(t) && t[0] in multiset(s);
    var a :| 0 <= a < |t| && t[a] == s[0];
    var b :| 0 <= b < |s| && s[b] == t[0];
    assert key(s[0]) <= key(s[b]);
  }

  /** The chunks sorted by chunk_index, stably. */
  function SortByIndex(s: seq<Chunk>): seq<Chunk>
  {
    SortBy(s, IndexKey)
  }

  function Contents(s: seq<Chunk>): (r: seq<string>)
    ensures |r| == |s|
    ensures forall i :: 0 <= i < |s| ==> r[i] == s[i].content
  {
    seq(|s|, i requires 0 <= i < |s| => s[i].content)
  }

  /** The dict built from the sorted chunks: joined content, metadata from the first chunk. */
  function Summarize(id: string, sorted: seq<Chunk>): (d: DocumentSummary)
    requires sorted != []
    ensures d.documentId == id && d.extractedPropertyData.None?
  {
    var m := sorted[0].meta;
    DocumentSummary(id, m.filename.GetOr("Unknown"), m.documentType.GetOr("unknown"), Join(Contents(sorted), "\n"),
                    m.uploadTimestamp, m.fileSize.GetOr(0), m.source.GetOr("unknown"), m.tags.GetOr([]), None)
  }

  /** The limit get_document_by_id and get_all_documents put on the chunk query. */
  const ChunkQueryLimit: nat := 1000

  /** `d` is the summary of `id` made from some admissible answer of the chunk query. */
  ghost predicate SummaryOf(cs: seq<Chunk>, id: string, d: DocumentSummary)
  {
    exists hits: seq<Chunk> ::
      |hits| == Min(ChunkQueryLimit, |ChunksOf(cs, id)|) && multiset(hits) <= multiset(ChunksOf(cs, id))
      && hits != [] && d == Summarize(id, SortByIndex(hits))
  }

  /** `d` is a summary of document `id`, as get_all_documents lists it. */
  ghost predicate SummaryFor(cs: seq<Chunk>, id: string, d: DocumentSummary)
  {
    d.documentId == id && SummaryOf(cs, id, d) && d.extractedPropertyData.None?
  }

  /**
   * Reading back a document stored with at most 1000 chunks yields the splitter's pieces joined
   * by "\n", whatever order the query returns them in.
   */
  lemma ReassembleStored(m: DocumentMetadata, parts: seq<string>, hits: seq<Chunk>)
    requires multiset(hits) == multiset(StoredChunks(m, parts))
    requires parts != []
    ensures Summarize(m.documentId, SortByIndex(hits)).content == Join(parts, "\n")
    ensures Summarize(m.documentId, SortByIndex(hits)).filename == m.filename
  {
    var t := StoredChunks(m, parts);
    assert StrictlyBy(t, IndexKey);
    SortByFacts(hits, IndexKey);
    SortedUnique(SortByIndex(hits), t, IndexKey);
    assert Contents(t) == parts;
  }

  // ---------------------------------------------------------------- deletes and stats

  datatype FailureReason = DocumentNotFound | StoreError

  function ReasonText(r: FailureReason): string
  {
    match r
    case DocumentNotFound => "Document not found"
    case StoreError => "store delete failed"
  }

  datatype DeleteFailure = DeleteFailure(documentId: string, reason: FailureReason)

  datatype BatchDeleteReport = BatchDeleteReport(
    success: bool,
    deletedCount: nat,
    deletedDocuments: seq<string>,
    failedDocuments: seq<DeleteFailure>,
    message: string)

  function FailedIds(fs: seq<DeleteFailure>): (r: seq<string>)
    ensures |r| == |fs|
    ensures forall i :: 0 <= i < |fs| ==> r[i] == fs[i].documentId
  {
    seq(|fs|, i requires 0 <= i < |fs| => fs[i].documentId)
  }

  function StoreErrorIds(fs: seq<DeleteFailure>): set<string>
  {
    set f | f in fs && f.reason == StoreError :: f.documentId
  }

  function SetOf(s: seq<string>): set<string>
  {
    set x | x in s
  }

  predicate Distinct(s: seq<string>)
  {
    forall i, j :: 0 <= i < j < |s| ==> s[i] != s[j]
  }

  /** The state delete_documents_by_ids threads through its loop. */
  datatype BatchState = BatchState(
    deleted: seq<string>,
    failed: seq<DeleteFailure>,
    chunks: seq<Chunk>,
    docs: map<string, DocumentMetadata>)

  /** One id: not in the store, in the store but its delete raises, or deleted. */
  function BatchStep(st: BatchState, x: string, faults: set<string>): BatchState
  {
    if x !in StoreIds(st.chunks) then st.(failed := st.failed + [DeleteFailure(x, DocumentNotFound)])
    else
      var docs := if x in st.docs then st.docs - {x} else st.docs;
      if x in faults then st.(docs := docs, failed := st.failed + [DeleteFailure(x, StoreError)])
      else st.(docs := docs, chunks := Without(st.chunks, {x}), deleted := st.deleted + [x])
  }

  /** The ids processed left to right. */
  function BatchRun(ids: seq<string>, st: BatchState, faults: set<string>): BatchState
  {
    if ids == [] then st
    else BatchStep(BatchRun(ids[..|ids| - 1], st, faults), ids[|ids| - 1], faults)
  }

  function BatchStart(cs: seq<Chunk>, docs: map<string, DocumentMetadata>): BatchState
  {
    BatchState([], [], cs, docs)
  }

  /** The store loses exactly the chunks of the deleted ids. */
  lemma {:induction false} BatchChunks(ids: seq<string>, cs: seq<Chunk>, docs: map<string, DocumentMetadata>, faults: set<string>)
    ensures var r := BatchRun(ids, BatchStart(cs, docs), faults);
      r.chunks == Without(cs, SetOf(r.deleted))
  {
    if ids == [] {
      WithoutNothing(cs);
      assert SetOf([]) == {};
    } else {
      var p := BatchRun(ids[..|ids| - 1], BatchStart(cs, docs), faults);
      BatchChunks(ids[..|ids| - 1], cs, docs, faults);
      var x := ids[|ids| - 1];
      if x in StoreIds(p.chunks) && x !in faults {
        WithoutTwice(cs, SetOf(p.deleted), {x});
        assert SetOf(p.deleted + [x]) == SetOf(p.deleted) + {x};
      }
    }
  }

  /** Each id is deleted at most once, and only ids present in the store are deleted. */
  lemma {:induction false} BatchDeletedDistinct(ids: seq<string>, cs: seq<Chunk>, docs: map<string, DocumentMetadata>, faults: set<string>)
    ensures var r := BatchRun(ids, BatchStart(cs, docs), faults);
      Distinct(r.deleted) && SetOf(r.deleted) <= StoreIds(cs)
      && StoreIds(r.chunks) == StoreIds(cs) - SetOf(r.deleted)
  {
    if ids != [] {
      var p := BatchRun(ids[..|ids| - 1], BatchStart(cs, docs), faults);
      BatchDeletedDistinct(ids[..|ids| - 1], cs, docs, faults);
      BatchChunks(ids, cs, docs, faults);
      BatchChunks(ids[..|ids| - 1], cs, docs, faults);
      StoreIdsWithout(cs, SetOf(p.deleted));
      var x := ids[|ids| - 1];
      var r := BatchStep(p, x, faults);
      if x in StoreIds(p.chunks) && x !in faults {
        assert SetOf(r.deleted) == SetOf(p.deleted) + {x};
        forall a | 0 <= a < |p.deleted| ensures p.deleted[a] != x {
          assert p.deleted[a] in SetOf(p.deleted);
        }
        StoreIdsWithout(cs, SetOf(r.deleted));
      }
    }
    else {
      assert SetOf([]) == {};
    }
  }

  /** Every requested id is reported exactly once, as deleted or as failed. */
  lemma {:induction false} BatchAccounting(ids: seq<string>, cs: seq<Chunk>, docs: map<string, DocumentMetadata>, faults: set<string>)
    ensures var r := BatchRun(ids, BatchStart(cs, docs), faults);
      multiset(r.deleted) + multiset(FailedIds(r.failed)) == multiset(ids)
      && |r.deleted| + |r.failed| == |ids|
  {
    if ids != [] {
      var init := ids[..|ids| - 1];
      var x := ids[|ids| - 1];
      BatchAccounting(init, cs, docs, faults);
      var p := BatchRun(init, BatchStart(cs, docs), faults);
      var r := BatchStep(p, x, faults);
      assert ids == init + [x];
      assert multiset(ids) == multiset(init) + multiset{x};
      if r.failed != p.failed {
        FailedIdsSnoc(p.failed, DeleteFailure(x, r.failed[|r.failed| - 1].reason));
      }
    }
  }

  lemma FailedIdsSnoc(fs: seq<DeleteFailure>, f: DeleteFailure)
    ensures FailedIds(fs + [f]) == FailedIds(fs) + [f.documentId]
  {
  }

  /**
   * The map loses the deleted ids and also the ids whose store delete raised: the record is
   * removed before the store is asked.
   */
  lemma {:induction false} BatchMetadata(ids: seq<string>, cs: seq<Chunk>, docs: map<string, DocumentMetadata>, faults: set<string>)
    ensures var r := BatchRun(ids, BatchStart(cs, docs), faults);
      r.docs == docs - (SetOf(r.deleted) + StoreErrorIds(r.failed))
  {
    if ids == [] {
      assert SetOf([]) + StoreErrorIds([]) == {};
    } else {
      var x := ids[|ids| - 1];
      BatchMetadata(ids[..|ids| - 1], cs, docs, faults);
      var p := BatchRun(ids[..|ids| - 1], BatchStart(cs, docs), faults);
      var r := BatchStep(p, x, faults);
      if x !in StoreIds(p.chunks) {
        StoreErrorIdsSnoc(p.failed, DeleteFailure(x, DocumentNotFound));
      } else if x in faults {
        StoreErrorIdsSnoc(p.failed, DeleteFailure(x, StoreError));
      } else {
        SetOfSnoc(p.deleted, x);
      }
    }
  }

  lemma SetOfSnoc(s: seq<string>, x: string)
    ensures SetOf(s + [x]) == SetOf(s) + {x}
  {
  }

  lemma StoreErrorIdsSnoc(fs: seq<DeleteFailure>, f: DeleteFailure)
    ensures StoreErrorIds(fs + [f]) == StoreErrorIds(fs) + (if f.reason == StoreError then {f.documentId} else {})
  {
  }

  /** A store error is reported only for an id that was stored and whose delete raises. */
  lemma {:induction false} BatchErrors(ids: seq<string>, cs: seq<Chunk>, docs: map<string, DocumentMetadata>, faults: set<string>)
    ensures var r := BatchRun(ids, BatchStart(cs, docs), faults);
      StoreErrorIds(r.failed) <= StoreIds(cs) * faults
  {
    if ids != [] {
      var x := ids[|ids| - 1];
      BatchErrors(ids[..|ids| - 1], cs, docs, faults);
      BatchDeletedDistinct(ids[..|ids| - 1], cs, docs, faults);
      var p := BatchRun(ids[..|ids| - 1], BatchStart(cs, docs), faults);
      var r := BatchStep(p, x, faults);
      if x in StoreIds(p.chunks) && x in faults {
        assert StoreErrorIds(r.failed) == StoreErrorIds(p.failed) + {x};
      } else {
        assert StoreErrorIds(r.failed) == StoreErrorIds(p.failed);
      }
    }
  }

  /** Every requested id that is stored and whose delete does not raise ends up deleted. */
  lemma {:induction false} BatchComplete(ids: seq<string>, cs: seq<Chunk>, docs: map<string, DocumentMetadata>, faults: set<string>)
    ensures var r := BatchRun(ids, BatchStart(cs, docs), faults);
      forall x :: x in ids && x in StoreIds(cs) && x !in faults ==> x in r.deleted
  {
    if ids != [] {
      var init := ids[..|ids| - 1];
      var x := ids[|ids| - 1];
      BatchComplete(init, cs, docs, faults);
      BatchDeletedDistinct(init, cs, docs, faults);
      var p := BatchRun(init, BatchStart(cs, docs), faults);
      var r := BatchStep(p, x, faults);
      assert forall y :: y in p.deleted ==> y in r.deleted;
      assert ids == init + [x];
      forall y | y in ids && y in StoreIds(cs) && y !in faults ensures y in r.deleted {
        if y != x {
          assert y in init;
        } else if x !in StoreIds(p.chunks) {
          assert x in SetOf(p.deleted);
        }
      }
    }
  }

  datatype DeleteFilter = DeleteFilter(
    filename: Option<string>,
    documentType: Option<DocumentType>,
    source: Option<string>,
    tags: Option<seq<string>>,
    olderThanDays: Option<int>)

  const SecondsPerDay: int := 86400

  /** A record passes every filter that is given and truthy. */
  predicate Selects(f: DeleteFilter, m: DocumentMetadata, now: nat)
  {
    (f.filename.Some? && f.filename.value != "" ==> m.filename == f.filename.value)
    && (f.documentType.Some? ==> m.documentType == f.documentType.value)
    && (f.source.Some? && f.source.value != "" ==> m.source == f.source.value)
    && (f.tags.Some? && f.tags.value != [] ==> exists t :: t in f.tags.value && t in m.tags)
    && (f.olderThanDays.Some? && f.olderThanDays.value != 0 ==>
          m.uploadTimestamp <= now - f.olderThanDays.value * SecondsPerDay)
  }

  datatype DeletedEntry = DeletedEntry(documentId: string, filename: string)

  function Selected(docs: map<string, DocumentMetadata>, f: DeleteFilter, now: nat): set<string>
  {
    set id | id in docs && Selects(f, docs[id], now)
  }

  /** The state the deletion loop of delete_documents_by_filter threads. */
  datatype FilterState = FilterState(deleted: seq<DeletedEntry>, chunks: seq<Chunk>, docs: map<string, DocumentMetadata>)

  /** delete_document on one selected id; its filename is read after the record is gone. */
  function FilterStep(st: FilterState, id: string, faults: set<string>): FilterState
  {
    if id !in st.docs then st
    else FilterState(st.deleted + [DeletedEntry(id, "Unknown")],
                     if id in faults then st.chunks else Without(st.chunks, {id}),
                     st.docs - {id})
  }

  function FilterRun(ids: seq<string>, st: FilterState, faults: set<string>): FilterState
  {
    if ids == [] then st
    else FilterStep(FilterRun(ids[..|ids| - 1], st, faults), ids[|ids| - 1], faults)
  }

  /**
   * Deleting distinct recorded ids one by one reports each of them, in order, under the
   * filename "Unknown", removes all their records, and removes the chunks of those whose store
   * delete does not raise.
   */
  lemma FilterRunFacts(ids: seq<string>, cs: seq<Chunk>, docs: map<string, DocumentMetadata>, faults: set<string>)
    requires Distinct(ids) && forall x :: x in ids ==> x in docs
    ensures var r := FilterRun(ids, FilterState([], cs, docs), faults);
      |r.deleted| == |ids|
      && (forall k :: 0 <= k < |ids| ==> r.deleted[k] == DeletedEntry(ids[k], "Unknown"))
      && r.docs == docs - SetOf(ids)
      && r.chunks == Without(cs, SetOf(ids) - faults)
  {
    FilterRunRecords(ids, cs, docs, faults);
    FilterRunChunks(ids, cs, docs, faults);
  }

  lemma {:induction false} FilterRunRecords(ids: seq<string>, cs: seq<Chunk>, docs: map<string, DocumentMetadata>, faults: set<string>)
    requires Distinct(ids) && forall x :: x in ids ==> x in docs
    ensures var r := FilterRun(ids, FilterState([], cs, docs), faults);
      |r.deleted| == |ids|
      && (forall k :: 0 <= k < |ids| ==> r.deleted[k] == DeletedEntry(ids[k], "Unknown"))
      && r.docs == docs - SetOf(ids)
  {
    if ids == [] {
      assert docs - SetOf(ids) == docs;
    } else {
      var init := ids[..|ids| - 1];
      var x := ids[|ids| - 1];
      DistinctSnoc(ids);
      assert forall y :: y in init ==> y in ids;
      FilterRunRecords(init, cs, docs, faults);
      assert x in ids;
    }
  }

  lemma {:induction false} FilterRunChunks(ids: seq<string>, cs: seq<Chunk>, docs: map<string, DocumentMetadata>, faults: set<string>)
    requires Distinct(ids) && forall x :: x in ids ==> x in docs
    ensures FilterRun(ids, FilterState([], cs, docs), faults).chunks == Without(cs, SetOf(ids) - faults)
  {
    if ids == [] {
      WithoutNothing(cs);
      assert SetOf(ids) - faults == {};
    } else {
      var init := ids[..|ids| - 1];
      var x := ids[|ids| - 1];
      DistinctSnoc(ids);
      assert forall y :: y in init ==> y in ids;
      FilterRunChunks(init, cs, docs, faults);
      FilterRunRecords(init, cs, docs, faults);
      assert x in ids;
      if x !in faults {
        WithoutTwice(cs, SetOf(init) - faults, {x});
        assert SetOf(init) - faults + {x} == SetOf(ids) - faults;
      } else {
        assert SetOf(init) - faults == SetOf(ids) - faults;
      }
    }
  }

  datatype FilterDeleteReport = FilterDeleteReport(
    deletedCount: nat,
    deletedDocuments: seq<DeletedEntry>,
    errors: seq<string>,
    totalFound: nat)

  /** clear_all_documents' answer: the success dict, or the error dict of its exception handler. */
  datatype ClearReport =
    | ClearReport(success: bool, deletedCount: nat, deletedSizeBytes: nat, message: string)
    | ClearFailed(error: string)

  datatype CleanupReport = CleanupReport(success: bool, cleanedCount: nat, orphanedIds: seq<string>, message: string)

  /** The store and the counter the cleanup loop threads. */
  datatype CleanupState = CleanupState(chunks: seq<Chunk>, cleaned: nat)

  /** One orphan: deleted and counted unless its store delete raises. */
  function CleanupStep(st: CleanupState, id: string, faults: set<string>): CleanupState
  {
    if id in faults then st else CleanupState(Without(st.chunks, {id}), st.cleaned + 1)
  }

  function CleanupRun(ids: seq<string>, st: CleanupState, faults: set<string>): CleanupState
  {
    if ids == [] then st
    else CleanupStep(CleanupRun(ids[..|ids| - 1], st, faults), ids[|ids| - 1], faults)
  }

  /** Over distinct orphans, the count is the number of deletes that did not raise. */
  lemma CleanupRunFacts(ids: seq<string>, cs: seq<Chunk>, faults: set<string>)
    requires Distinct(ids)
    ensures var r := CleanupRun(ids, CleanupState(cs, 0), faults);
      r.chunks == Without(cs, SetOf(ids) - faults) && r.cleaned == |SetOf(ids) - faults|
  {
    CleanupRunChunks(ids, cs, faults);
    CleanupRunCount(ids, cs, faults);
  }

  lemma {:induction false} CleanupRunChunks(ids: seq<string>, cs: seq<Chunk>, faults: set<string>)
    ensures CleanupRun(ids, CleanupState(cs, 0), faults).chunks == Without(cs, SetOf(ids) - faults)
  {
    if ids == [] {
      WithoutNothing(cs);
      assert SetOf(ids) - faults == {};
    } else {
      var init := ids[..|ids| - 1];
      var x := ids[|ids| - 1];
      assert ids == init + [x];
      SetOfSnoc(init, x);
      CleanupRunChunks(init, cs, faults);
      if x !in faults {
        WithoutTwice(cs, SetOf(init) - faults, {x});
        assert SetOf(ids) - faults == (SetOf(init) - faults) + {x};
      } else {
        assert SetOf(init) - faults == SetOf(ids) - faults;
      }
    }
  }

  lemma {:induction false} CleanupRunCount(ids: seq<string>, cs: seq<Chunk>, faults: set<string>)
    requires Distinct(ids)
    ensures CleanupRun(ids, CleanupState(cs, 0), faults).cleaned == |SetOf(ids) - faults|
  {
    if ids == [] {
      assert SetOf(ids) - faults == {};
    } else {
      var init := ids[..|ids| - 1];
      var x := ids[|ids| - 1];
      DistinctSnoc(ids);
      CleanupRunCount(init, cs, faults);
      var before := SetOf(init) - faults;
      if x !in faults {
        assert x !in before;
        assert SetOf(ids) - faults == before + {x};
        assert |before + {x}| == |before| + 1;
      } else {
        assert SetOf(init) - faults == SetOf(ids) - faults;
      }
    }
  }

  /** Dropping the last element of a distinct sequence removes exactly that element. */
  lemma DistinctSnoc(ids: seq<string>)
    requires Distinct(ids) && ids != []
    ensures var init := ids[..|ids| - 1];
      Distinct(init) && ids[|ids| - 1] !in SetOf(init) && SetOf(ids) == SetOf(init) + {ids[|ids| - 1]}
  {
    var init := ids[..|ids| - 1];
    var x := ids[|ids| - 1];
    assert ids == init + [x];
    forall k | 0 <= k < |init| ensures init[k] != x {
      assert ids[k] == init[k];
    }
  }

  datatype DocumentStats = DocumentStats(
    totalDocuments: nat,
    totalSizeBytes: int,
    documentsByType: map<DocumentType, nat>,
    documentsWithPropertyData: nat,
    documentsWithoutPropertyData: int)

  ghost function Pick(s: set<string>): string
    requires s != {}
  {
    var x :| x in s; x
  }

  /** The sum of file_size over some keys of the map. */
  ghost function SizeSum(docs: map<string, DocumentMetadata>, keys: set<string>): int
    requires keys <= docs.Keys
    decreases |keys|
  {
    if keys == {} then 0
    else
      var k := Pick(keys);
      docs[k].fileSize + SizeSum(docs, keys - {k})
  }

  lemma {:induction false} SizeSumRemove(docs: map<string, DocumentMetadata>, keys: set<string>, y: string)
    requires keys <= docs.Keys && y in keys
    ensures SizeSum(docs, keys) == docs[y].fileSize + SizeSum(docs, keys - {y})
    decreases |keys|
  {
    var x := Pick(keys);
    if y != x {
      SizeSumRemove(docs, keys - {x}, y);
      SizeSumRemove(docs, keys - {y}, x);
      assert keys - {x} - {y} == keys - {y} - {x};
    }
  }

  function TypeCount(docs: map<string, DocumentMetadata>, t: DocumentType): nat
  {
    |set id | id in docs && docs[id].documentType == t|
  }

  function WithProperty(docs: map<string, DocumentMetadata>): set<string>
  {
    set id | id in docs && docs[id].extractedPropertyData.Some?
  }

  function WithoutProperty(docs: map<string, DocumentMetadata>): set<string>
  {
    set id | id in docs && docs[id].extractedPropertyData.None?
  }

  function SumTypeCounts(docs: map<string, DocumentMetadata>, ts: seq<DocumentType>): nat
  {
    if ts == [] then 0 else TypeCount(docs, ts[0]) + SumTypeCounts(docs, ts[1..])
  }

  lemma {:induction false} SumTypeCountsSet(docs: map<string, DocumentMetadata>, ts: seq<DocumentType>)
    requires forall i, j :: 0 <= i < j < |ts| ==> ts[i] != ts[j]
    ensures SumTypeCounts(docs, ts) == |set id | id in docs && docs[id].documentType in ts|
  {
    if ts != [] {
      SumTypeCountsSet(docs, ts[1..]);
      var here := set id | id in docs && docs[id].documentType == ts[0];
      var rest := set id | id in docs && docs[id].documentType in ts[1..];
      assert (set id | id in docs && docs[id].documentType in ts) == here + rest;
      assert here * rest == {};
    }
  }

  /** The per-type counts add up to the number of documents. */
  lemma TypeCountsSumToTotal(docs: map<string, DocumentMetadata>)
    ensures SumTypeCounts(docs, AllTypes) == |docs|
  {
    SumTypeCountsSet(docs, AllTypes);
    forall t: DocumentType ensures t in AllTypes {
      match t
      case PDF => assert AllTypes[0] == t;
      case DOCX => assert AllTypes[1] == t;
      case PPTX => assert AllTypes[2] == t;
      case XLSX => assert AllTypes[3] == t;
      case CSV => assert AllTypes[4] == t;
      case TXT => assert AllTypes[5] == t;
      case RTF => assert AllTypes[6] == t;
      case ODT => assert AllTypes[7] == t;
    }
    assert (set id | id in docs && docs[id].documentType in AllTypes) == docs.Keys;
  }

  /** Documents with and without property data partition the map. */
  lemma PropertySplit(docs: map<string, DocumentMetadata>)
    ensures |WithProperty(docs)| + |WithoutProperty(docs)| == |docs|
  {
    assert WithProperty(docs) + WithoutProperty(docs) == docs.Keys;
    assert WithProperty(docs) * WithoutProperty(docs) == {};
  }

  /** collection.get() metadata walk: the distinct document ids. */
  method CollectDocumentIds(cs: seq<Chunk>) returns (ids: set<string>)
    ensures ids == StoreIds(cs)
  {
    ids := {};
    var i := 0;
    while i < |cs|
      invariant 0 <= i <= |cs|
      invariant ids == StoreIds(cs[..i])
    {
      if cs[i].meta.documentId.Some? {
        ids := ids + {cs[i].meta.documentId.value};
      }
      assert cs[..i + 1] == cs[..i] + [cs[i]];
      i := i + 1;
    }
    assert cs[..i] == cs;
  }

  class DocumentMemory {
    /** document_metadata */
    var documentMetadata: map<string, DocumentMetadata>
    const store: ChunkStore
    /** RecursiveCharacterTextSplitter.split_text, as an opaque function. */
    const split: string -> seq<string>

    ghost predicate Valid()
    {
      split("") == []
    }

    /** __init__: an empty map, then a rebuild from the store. */
    constructor (store: ChunkStore, split: string -> seq<string>, now: nat)
      requires split("") == []
      ensures Valid() && this.store == store && this.split == split
      ensures documentMetadata.Keys <= StoreIds(store.chunks)
      ensures ReadableTypes(store.chunks) ==> documentMetadata.Keys == StoreIds(store.chunks)
      ensures ReadableTypes(store.chunks) && Coherent(store.chunks) ==>
        documentMetadata == Rebuilt(map[], store.chunks, now)
    {
      this.store := store;
      this.split := split;
      documentMetadata := map[];
      new;
      ghost var rebuilt;
      var ok;
      ok, rebuilt := Rebuild(now);
    }

    /**
     * _rebuild_metadata_from_chromadb: one record per stored document id, made from whichever
     * chunk the k=1 probe returns. An unreadable document_type stops the walk (the source's
     * exception) and keeps what was added so far.
     */
    method Rebuild(now: nat) returns (ok: bool, ghost rebuilt: set<string>)
      modifies this
      ensures rebuilt <= StoreIds(store.chunks)
      ensures documentMetadata.Keys == old(documentMetadata).Keys + rebuilt
      ensures forall id :: id in documentMetadata && id !in rebuilt ==> documentMetadata[id] == old(documentMetadata)[id]
      ensures forall id :: id in rebuilt ==> Probed(store.chunks, id, now, documentMetadata[id])
      ensures ok ==> rebuilt == StoreIds(store.chunks)
      ensures ReadableTypes(store.chunks) ==> ok
      ensures Coherent(store.chunks) ==> (ok <==> ReadableTypes(store.chunks))
      ensures ok && Coherent(store.chunks) ==> documentMetadata == Rebuilt(old(documentMetadata), store.chunks, now)
    {
      var all := store.GetAll();
      var ids := CollectDocumentIds(all);
      var remaining := ids;
      rebuilt := {};
      ok := true;
      ghost var before := documentMetadata;
      var docs := documentMetadata;
      ghost var probe: map<string, nat> := map[];
      while remaining != {} && ok
        invariant forall x :: x in remaining ==> x in ids
        invariant forall x :: x in rebuilt <==> x in ids && x !in remaining
        invariant forall x :: x in docs <==> x in before || x in rebuilt
        invariant forall id :: id in docs && id !in rebuilt ==> docs[id] == before[id]
        invariant forall id :: id in rebuilt ==> id in probe && ProbedAt(all, id, now, docs[id], probe[id])
        invariant !ok ==> !ReadableTypes(all)
        decreases |remaining|, ok
      {
        var id :| id in remaining;
        ghost var j;
        var rec;
        rec, j := ProbeDocument(id, now);
        if rec.None? {
          ok := false;
        } else {
          docs := docs[id := rec.value];
          probe := probe[id := j];
          remaining := remaining - {id};
          rebuilt := rebuilt + {id};
        }
      }
      documentMetadata := docs;
      forall id | id in rebuilt ensures Probed(all, id, now, docs[id]) {
        assert ProbedAt(all, id, now, docs[id], probe[id]);
      }
      assert docs.Keys == before.Keys + rebuilt;
      assert ok ==> rebuilt == ids;
      RebuildOutcome(all, before, documentMetadata, rebuilt, ok, now);
    }

    /** The k=1 probe for one stored id and the record made from the chunk it returns. */
    method ProbeDocument(id: string, now: nat) returns (rec: Option<DocumentMetadata>, ghost j: nat)
      requires id in StoreIds(store.chunks)
      ensures rec.Some? ==> ProbedAt(store.chunks, id, now, rec.value, j)
      ensures rec.None? ==> !ReadableTypes(store.chunks)
    {
      StoreIdsHaveChunks(store.chunks, id);
      var hits := store.Query(ByDocument(id), 1);
      assert hits[0] in store.chunks;
      j :| 0 <= j < |store.chunks| && store.chunks[j] == hits[0];
      assert store.chunks[j].meta.documentId == Some(id);
      rec := RecordFromChunk(id, hits[0].meta, now);
    }

    /**
     * store_document under the fresh id `id`: the record is registered first, then one chunk per
     * splitter piece is appended to the store.
     */
    method StoreDocument(id: string, content: string, filename: string, documentType: DocumentType,
                         fileSize: int, source: string, extractedPropertyData: Option<PropertyData>,
                         tags: Option<seq<string>>, now: nat) returns (documentId: string)
      requires Valid()
      requires id !in documentMetadata && id !in StoreIds(store.chunks)
      modifies this, store
      ensures Valid() && documentId == id
      ensures documentMetadata == old(documentMetadata)[id :=
        DocumentMetadata(id, filename, documentType, now, fileSize, source, extractedPropertyData, tags.GetOr([]))]
      ensures store.chunks == old(store.chunks) + StoredChunks(documentMetadata[id], split(content))
      ensures content == "" ==> store.chunks == old(store.chunks)
    {
      var metadata := DocumentMetadata(id, filename, documentType, now, fileSize, source, extractedPropertyData, tags.GetOr([]));
      documentMetadata := documentMetadata[id := metadata];
      var chunks := split(content);
      var documents: seq<Chunk> := [];
      var i := 0;
      while i < |chunks|
        invariant 0 <= i <= |chunks|
        invariant documents == StoredChunks(metadata, chunks)[..i]
      {
        documents := documents + [Chunk(chunks[i], ChunkMetaFor(metadata, i, |chunks|))];
        i := i + 1;
      }
      assert documents == StoredChunks(metadata, chunks);
      store.Add(documents);
      documentId := id;
    }

    /**
     * search_documents: query the store with the type / property-data filter and keep the hits
     * whose document is in the map. `hits` is the store's answer.
     */
    method SearchDocuments(query: string, documentType: Option<DocumentType>, limit: nat, includePropertyData: bool)
      returns (results: seq<SearchHit>, ghost hits: seq<Chunk>)
      ensures |hits| == Min(limit, |Matching(store.chunks, SearchFilter(documentType, includePropertyData))|)
      ensures multiset(hits) <= multiset(Matching(store.chunks, SearchFilter(documentType, includePropertyData)))
      ensures !includePropertyData ==> forall c :: c in hits ==> c.meta.hasPropertyData == Some(false)
      ensures documentType.Some? ==> forall c :: c in hits ==> c.meta.documentType == Some(TypeValue(documentType.value))
      ensures results == FormatHits(hits, documentMetadata, includePropertyData)
    {
      var f := SearchFilter(documentType, includePropertyData);
      var found := store.Query(f, limit);
      hits := found;
      results := FormatEach(found, documentMetadata, includePropertyData);
    }

    /**
     * get_document_by_id: the chunks of the document (at most 1000), sorted by chunk_index and
     * joined with "\n"; None exactly when no chunk carries the id.
     */
    method GetDocumentById(id: string) returns (r: Option<DocumentSummary>, ghost hits: seq<Chunk>)
      ensures |hits| == Min(ChunkQueryLimit, |ChunksOf(store.chunks, id)|)
      ensures multiset(hits) <= multiset(ChunksOf(store.chunks, id))
      ensures r.None? <==> id !in StoreIds(store.chunks)
      ensures r.Some? ==> hits != [] && r.value == Summarize(id, SortByIndex(hits))
    {
      var found := store.Query(ByDocument(id), ChunkQueryLimit);
      hits := found;
      StoreIdsHaveChunks(store.chunks, id);
      if found == [] {
        r := None;
      } else {
        SortByFacts(found, IndexKey);
        r := Some(Summarize(id, SortByIndex(found)));
      }
    }

    /** get_all_documents: one summary per distinct stored document id. */
    method GetAllDocuments() returns (docs: seq<DocumentSummary>)
      ensures |docs| == |StoreIds(store.chunks)|
      ensures forall i, j :: 0 <= i < j < |docs| ==> docs[i].documentId != docs[j].documentId
      ensures forall d :: d in docs ==> d.documentId in StoreIds(store.chunks) && SummaryOf(store.chunks, d.documentId, d)
      ensures forall id :: id in StoreIds(store.chunks) ==> exists i :: 0 <= i < |docs| && docs[i].documentId == id
      ensures forall d :: d in docs ==> d.extractedPropertyData.None?
    {
      var all := store.GetAll();
      var ids := CollectDocumentIds(all);
      var order := Enumerate(ids);
      assert forall k :: 0 <= k < |order| ==> order[k] in SetOf(order);
      docs := SummarizeEach(order);
      SummariesCover(all, order, docs);
    }

    /** The loop of get_all_documents over the enumerated ids. */
    method SummarizeEach(order: seq<string>) returns (docs: seq<DocumentSummary>)
      requires forall k :: 0 <= k < |order| ==> order[k] in StoreIds(store.chunks)
      ensures |docs| == |order|
      ensures forall k :: 0 <= k < |order| ==> SummaryFor(store.chunks, order[k], docs[k])
    {
      docs := [];
      for i := 0 to |order|
        invariant |docs| == i
        invariant forall k :: 0 <= k < i ==> SummaryFor(store.chunks, order[k], docs[k])
      {
        var d := SummarizeDocument(order[i]);
        assert forall k :: 0 <= k < i ==> (docs + [d])[k] == docs[k];
        docs := docs + [d];
      }
    }

    /** The per-document step of get_all_documents: query, sort, join. */
    method SummarizeDocument(id: string) returns (d: DocumentSummary)
      requires id in StoreIds(store.chunks)
      ensures SummaryFor(store.chunks, id, d)
    {
      StoreIdsHaveChunks(store.chunks, id);
      var found := store.Query(ByDocument(id), ChunkQueryLimit);
      SortByFacts(found, IndexKey);
      d := Summarize(id, SortByIndex(found));
    }

    /**
     * delete_document: False and no change when the id has no record; otherwise the record goes,
     * the store drops the document's chunks unless its delete raises, and the answer is True.
     */
    method DeleteDocument(id: string, storeRaises: bool) returns (deleted: bool)
      modifies this, store
      ensures deleted <==> id in old(documentMetadata)
      ensures documentMetadata == old(documentMetadata) - {id}
      ensures store.chunks == if deleted && !storeRaises then Without(old(store.chunks), {id}) else old(store.chunks)
    {
      if id !in documentMetadata {
        return false;
      }
      documentMetadata := documentMetadata - {id};
      if !storeRaises {
        store.DeleteWhereDocument(id);
      }
      return true;
    }

    /**
     * One id of delete_documents_by_ids as seen by the store: the k=1 probe, then the delete
     * where document_id matches unless it raises.
     */
    method ProbeAndDelete(x: string, raises: bool) returns (found: bool)
      modifies store
      ensures found <==> x in StoreIds(old(store.chunks))
      ensures store.chunks == if found && !raises then Without(old(store.chunks), {x}) else old(store.chunks)
    {
      StoreIdsHaveChunks(store.chunks, x);
      var hits := store.Query(ByDocument(x), 1);
      found := hits != [];
      if found && !raises {
        store.DeleteWhereDocument(x);
      }
    }

    /**
     * delete_documents_by_ids: each id is probed in the store; a miss fails with "Document not
     * found"; a hit drops the record, then the chunks, unless the store delete raises (`faults`).
     * The outcome is the fold BatchRun; the lemmas after the class say what it means.
     */
    method DeleteDocumentsByIds(ids: seq<string>, faults: set<string>) returns (report: BatchDeleteReport)
      modifies this, store
      ensures ids == [] ==> report == BatchDeleteReport(true, 0, [], [], "No document IDs provided")
      ensures ids == [] ==> documentMetadata == old(documentMetadata) && store.chunks == old(store.chunks)
      ensures ids != [] ==>
        BatchState(report.deletedDocuments, report.failedDocuments, store.chunks, documentMetadata)
          == BatchRun(ids, BatchStart(old(store.chunks), old(documentMetadata)), faults)
      ensures ids != [] ==> report == BatchDeleteReport(report.failedDocuments == [], |report.deletedDocuments|,
        report.deletedDocuments, report.failedDocuments,
        "Successfully deleted " + NatToString(|report.deletedDocuments|) + " out of " + NatToString(|ids|) + " documents")
    {
      if ids == [] {
        return BatchDeleteReport(true, 0, [], [], "No document IDs provided");
      }
      var deletedCount := 0;
      var deleted: seq<string> := [];
      var failed: seq<DeleteFailure> := [];
      var docs := documentMetadata;
      ghost var start := BatchStart(store.chunks, documentMetadata);
      var i := 0;
      while i < |ids|
        invariant 0 <= i <= |ids|
        invariant deletedCount == |deleted|
        invariant BatchState(deleted, failed, store.chunks, docs) == BatchRun(ids[..i], start, faults)
      {
        var x := ids[i];
        assert ids[..i + 1][..i] == ids[..i];
        var found := ProbeAndDelete(x, x in faults);
        if !found {
          failed := failed + [DeleteFailure(x, DocumentNotFound)];
        } else {
          if x in docs {
            docs := docs - {x};
          }
          if x in faults {
            failed := failed + [DeleteFailure(x, StoreError)];
          } else {
            deleted := deleted + [x];
            deletedCount := deletedCount + 1;
          }
        }
        i := i + 1;
      }
      assert ids[..i] == ids;
      documentMetadata := docs;
      report := BatchDeleteReport(failed == [], deletedCount, deleted, failed,
        "Successfully deleted " + NatToString(deletedCount) + " out of " + NatToString(|ids|) + " documents");
    }

    /**
     * delete_documents_by_filter: select the records passing every given filter, then delete each
     * through DeleteDocument. The reported filename is read after the record is gone: "Unknown".
     */
    method DeleteDocumentsByFilter(f: DeleteFilter, now: nat, faults: set<string>) returns (report: FilterDeleteReport)
      modifies this, store
      ensures var selected := Selected(old(documentMetadata), f, now);
        report.totalFound == |selected| && report.deletedCount == |selected|
        && report == FilterDeleteReport(report.deletedCount, report.deletedDocuments, [], report.totalFound)
        && |report.deletedDocuments| == |selected|
        && (forall e :: e in report.deletedDocuments ==> e.documentId in selected && e.filename == "Unknown")
        && (forall x :: x in selected ==> exists e :: e in report.deletedDocuments && e.documentId == x)
        && documentMetadata == old(documentMetadata) - selected
        && store.chunks == Without(old(store.chunks), selected - faults)
    {
      var toDelete := SelectForDeletion(f, now);
      ghost var start := FilterState([], store.chunks, documentMetadata);
      var deletedCount, deletedDocuments := DeleteEach(toDelete, faults);
      FilterRunFacts(toDelete, start.chunks, start.docs, faults);
      DistinctCard(toDelete);
      assert SetOf(toDelete) == Selected(start.docs, f, now);
      report := FilterDeleteReport(deletedCount, deletedDocuments, [], |toDelete|);
    }

    /** The second loop of delete_documents_by_filter: delete_document on each selected id. */
    method DeleteEach(toDelete: seq<string>, faults: set<string>)
      returns (deletedCount: nat, deletedDocuments: seq<DeletedEntry>)
      modifies this, store
      ensures deletedCount == |deletedDocuments|
      ensures FilterState(deletedDocuments, store.chunks, documentMetadata)
        == FilterRun(toDelete, FilterState([], old(store.chunks), old(documentMetadata)), faults)
    {
      ghost var start := FilterState([], store.chunks, documentMetadata);
      deletedCount := 0;
      deletedDocuments := [];
      var i := 0;
      while i < |toDelete|
        invariant 0 <= i <= |toDelete|
        invariant deletedCount == |deletedDocuments|
        invariant FilterState(deletedDocuments, store.chunks, documentMetadata) == FilterRun(toDelete[..i], start, faults)
      {
        var id := toDelete[i];
        assert toDelete[..i + 1][..i] == toDelete[..i];
        var ok := DeleteDocument(id, id in faults);
        if ok {
          deletedCount := deletedCount + 1;
          // The record is already gone when the report looks its filename up.
          deletedDocuments := deletedDocuments + [DeletedEntry(id, "Unknown")];
        }
        i := i + 1;
      }
      assert toDelete[..i] == toDelete;
    }

    /** The first loop of delete_documents_by_filter: the ids whose record passes every filter. */
    method SelectForDeletion(f: DeleteFilter, now: nat) returns (toDelete: seq<string>)
      ensures Distinct(toDelete)
      ensures forall x :: x in toDelete <==> x in documentMetadata && Selects(f, documentMetadata[x], now)
    {
      toDelete := [];
      var remaining := documentMetadata.Keys;
      while remaining != {}
        invariant forall x :: x in remaining ==> x in documentMetadata
        invariant Distinct(toDelete)
        invariant forall x :: x in toDelete <==> x in documentMetadata && x !in remaining && Selects(f, documentMetadata[x], now)
        decreases |remaining|
      {
        var id :| id in remaining;
        if Selects(f, documentMetadata[id], now) {
          forall a | 0 <= a < |toDelete| ensures toDelete[a] != id {
            assert toDelete[a] in toDelete;
          }
          toDelete := toDelete + [id];
        }
        remaining := remaining - {id};
      }
    }

    /**
     * clear_all_documents: the count reported is the number of chunk records and the map ends
     * empty. `deleteError` is the text of the exception collection.delete raises, if it raises:
     * the map is already cleared by then, the store keeps its chunks and the handler reports
     * the failure.
     */
    method ClearAllDocuments(deleteError: Option<string>) returns (report: ClearReport)
      modifies this, store
      ensures documentMetadata == map[]
      ensures old(store.chunks) != [] && deleteError.Some? ==>
        report == ClearFailed("Failed to clear all documents: " + deleteError.value)
        && store.chunks == old(store.chunks)
      ensures old(store.chunks) == [] || deleteError.None? ==>
        report == ClearReport(true, |old(store.chunks)|, 0,
          "Successfully deleted " + NatToString(|old(store.chunks)|) + " documents")
        && store.chunks == []
    {
      var all := store.GetAll();
      var total := |all|;
      documentMetadata := map[];
      if total > 0 {
        if deleteError.Some? {
          return ClearFailed("Failed to clear all documents: " + deleteError.value);
        }
        store.DeleteAll();
      }
      report := ClearReport(true, total, 0, "Successfully deleted " + NatToString(total) + " documents");
    }

    /**
     * cleanup_orphaned_documents: the stored ids without a record are deleted from the store
     * (each unless its delete raises); the map is not touched.
     */
    method CleanupOrphanedDocuments(faults: set<string>) returns (report: CleanupReport)
      modifies store
      ensures var orphans := StoreIds(old(store.chunks)) - documentMetadata.Keys;
        SetOf(report.orphanedIds) == orphans && Distinct(report.orphanedIds)
        && report.cleanedCount == |orphans - faults|
        && store.chunks == Without(old(store.chunks), orphans - faults)
        && report == CleanupReport(true, report.cleanedCount, report.orphanedIds,
                                   "Cleaned up " + NatToString(report.cleanedCount) + " orphaned documents")
    {
      var all := store.GetAll();
      var storeIds := CollectDocumentIds(all);
      var listed := Enumerate(storeIds - documentMetadata.Keys);
      var cleaned := 0;
      for i := 0 to |listed|
        invariant CleanupState(store.chunks, cleaned) == CleanupRun(listed[..i], CleanupState(all, 0), faults)
      {
        cleaned := CleanupOne(listed[i], faults, cleaned);
        assert listed[..i + 1][..i] == listed[..i];
      }
      assert listed[..|listed|] == listed;
      CleanupRunFacts(listed, all, faults);
      report := CleanupReport(true, cleaned, listed, "Cleaned up " + NatToString(cleaned) + " orphaned documents");
    }

    /** One orphan of the cleanup loop: its delete either raises (nothing changes) or runs. */
    method CleanupOne(id: string, faults: set<string>, cleaned: nat) returns (cleaned': nat)
      modifies store
      ensures CleanupState(store.chunks, cleaned') == CleanupStep(CleanupState(old(store.chunks), cleaned), id, faults)
    {
      cleaned' := cleaned;
      if id !in faults {
        store.DeleteWhereDocument(id);
        cleaned' := cleaned + 1;
      }
    }

    /** get_document_stats: counts and sizes over the map only. */
    method GetDocumentStats() returns (stats: DocumentStats)
      ensures stats.totalDocuments == |documentMetadata|
      ensures stats.totalSizeBytes == SizeSum(documentMetadata, documentMetadata.Keys)
      ensures forall t :: t in stats.documentsByType <==> TypeCount(documentMetadata, t) > 0
      ensures forall t :: t in stats.documentsByType ==> stats.documentsByType[t] == TypeCount(documentMetadata, t)
      ensures stats.documentsWithPropertyData == |WithProperty(documentMetadata)|
      ensures stats.documentsWithoutPropertyData == |WithoutProperty(documentMetadata)|
    {
      var docs := documentMetadata;
      var remaining := docs.Keys;
      var totalSize := 0;
      var typeCounts: map<DocumentType, nat> := map[];
      var withData := 0;
      while remaining != {}
        invariant remaining <= docs.Keys
        invariant StatsSoFar(docs, docs.Keys - remaining, totalSize, typeCounts, withData)
        decreases |remaining|
      {
        var k :| k in remaining;
        assert docs.Keys - (remaining - {k}) == (docs.Keys - remaining) + {k};
        totalSize, typeCounts, withData := CountDocument(docs, docs.Keys - remaining, k, totalSize, typeCounts, withData);
        remaining := remaining - {k};
      }
      assert docs.Keys - remaining == docs.Keys;
      CountInAll(docs);
      assert (set id | id in docs.Keys && id in docs && docs[id].extractedPropertyData.Some?) == WithProperty(docs);
      PropertySplit(docs);
      stats := DocumentStats(|docs|, totalSize, typeCounts, withData, |docs| - withData);
    }
  }

  /** Python's iteration over a set: each member once, in some order. */
  method Enumerate(s: set<string>) returns (q: seq<string>)
    ensures Distinct(q) && SetOf(q) == s
  {
    q := [];
    var remaining := s;
    while remaining != {}
      invariant forall x :: x in remaining ==> x in s
      invariant forall x :: x in q <==> x in s && x !in remaining
      invariant Distinct(q)
      decreases |remaining|
    {
      var x :| x in remaining;
      forall a | 0 <= a < |q| ensures q[a] != x {
        assert q[a] in q;
      }
      q := q + [x];
      remaining := remaining - {x};
    }
  }

  /** What the stats loop has tallied over the keys `done`. */
  ghost predicate StatsSoFar(docs: map<string, DocumentMetadata>, done: set<string>, totalSize: int,
                       typeCounts: map<DocumentType, nat>, withData: nat)
  {
    && done <= docs.Keys
    && totalSize == SizeSum(docs, done)
    && (forall t :: t in typeCounts <==> CountIn(docs, done, t) > 0)
    && (forall t :: t in typeCounts ==> typeCounts[t] == CountIn(docs, done, t))
    && withData == |set id | id in done && id in docs && docs[id].extractedPropertyData.Some?|
  }

  /** One iteration of the stats loop: document `k` is added to every tally. */
  method CountDocument(docs: map<string, DocumentMetadata>, done: set<string>, k: string, totalSize: int,
                       typeCounts: map<DocumentType, nat>, withData: nat)
    returns (totalSize': int, typeCounts': map<DocumentType, nat>, withData': nat)
    requires k in docs && k !in done
    requires StatsSoFar(docs, done, totalSize, typeCounts, withData)
    ensures StatsSoFar(docs, done + {k}, totalSize', typeCounts', withData')
  {
    SizeSumRemove(docs, done + {k}, k);
    assert done + {k} - {k} == done;
    var t := docs[k].documentType;
    typeCounts' := typeCounts[t := (if t in typeCounts then typeCounts[t] else 0) + 1];
    TallyType(docs, done, k, typeCounts);
    totalSize' := totalSize + docs[k].fileSize;
    withData' := if docs[k].extractedPropertyData.Some? then withData + 1 else withData;
    TallyPropertyData(docs, done, k);
  }

  lemma TallyType(docs: map<string, DocumentMetadata>, done: set<string>, k: string, typeCounts: map<DocumentType, nat>)
    requires k in docs && k !in done
    requires forall t :: t in typeCounts <==> CountIn(docs, done, t) > 0
    requires forall t :: t in typeCounts ==> typeCounts[t] == CountIn(docs, done, t)
    ensures var t := docs[k].documentType;
      var after := typeCounts[t := (if t in typeCounts then typeCounts[t] else 0) + 1];
      (forall t :: t in after <==> CountIn(docs, done + {k}, t) > 0)
      && (forall t :: t in after ==> after[t] == CountIn(docs, done + {k}, t))
  {
    CountInAddAll(docs, done, k);
  }

  lemma TallyPropertyData(docs: map<string, DocumentMetadata>, done: set<string>, k: string)
    requires k in docs && k !in done
    ensures |set id | id in done + {k} && id in docs && docs[id].extractedPropertyData.Some?|
         == |set id | id in done && id in docs && docs[id].extractedPropertyData.Some?|
            + (if docs[k].extractedPropertyData.Some? then 1 else 0)
  {
    var a := set id | id in done && id in docs && docs[id].extractedPropertyData.Some?;
    var b := set id | id in done + {k} && id in docs && docs[id].extractedPropertyData.Some?;
    if docs[k].extractedPropertyData.Some? {
      assert b == a + {k};
    } else {
      assert b == a;
    }
  }

  function CountIn(docs: map<string, DocumentMetadata>, keys: set<string>, t: DocumentType): nat
  {
    |set id | id in keys && id in docs && docs[id].documentType == t|
  }

  lemma CountInAll(docs: map<string, DocumentMetadata>)
    ensures forall t :: CountIn(docs, docs.Keys, t) == TypeCount(docs, t)
  {
    forall t ensures CountIn(docs, docs.Keys, t) == TypeCount(docs, t) {
      assert (set id | id in docs.Keys && id in docs && docs[id].documentType == t)
          == (set id | id in docs && docs[id].documentType == t);
    }
  }

  lemma CountInAddAll(docs: map<string, DocumentMetadata>, keys: set<string>, k: string)
    requires k in docs && k !in keys
    ensures forall t :: CountIn(docs, keys + {k}, t) == CountIn(docs, keys, t) + (if docs[k].documentType == t then 1 else 0)
  {
    forall t ensures CountIn(docs, keys + {k}, t) == CountIn(docs, keys, t) + (if docs[k].documentType == t then 1 else 0) {
      CountInAdd(docs, keys, k, t);
    }
  }

  lemma CountInAdd(docs: map<string, DocumentMetadata>, keys: set<string>, k: string, t: DocumentType)
    requires k in docs && k !in keys
    ensures CountIn(docs, keys + {k}, t) == CountIn(docs, keys, t) + (if docs[k].documentType == t then 1 else 0)
  {
    var a := set id | id in keys && id in docs && docs[id].documentType == t;
    var b := set id | id in keys + {k} && id in docs && docs[id].documentType == t;
    if docs[k].documentType == t {
      assert b == a + {k};
    } else {
      assert b == a;
    }
  }

  /** The facts get_all_documents promises, from one summary per enumerated id. */
  lemma SummariesCover(all: seq<Chunk>, order: seq<string>, docs: seq<DocumentSummary>)
    requires Distinct(order) && SetOf(order) == StoreIds(all) && |docs| == |order|
    requires forall k :: 0 <= k < |order| ==> SummaryFor(all, order[k], docs[k])
    ensures |docs| == |StoreIds(all)|
    ensures forall i, j :: 0 <= i < j < |docs| ==> docs[i].documentId != docs[j].documentId
    ensures forall d :: d in docs ==> d.documentId in StoreIds(all) && SummaryOf(all, d.documentId, d)
    ensures forall id :: id in StoreIds(all) ==> exists i :: 0 <= i < |docs| && docs[i].documentId == id
    ensures forall d :: d in docs ==> d.extractedPropertyData.None?
  {
    DistinctCard(order);
    assert forall k :: 0 <= k < |order| ==> docs[k].documentId == order[k];
    SummariesReachEvery(StoreIds(all), order, docs);
    forall d | d in docs ensures d.documentId in StoreIds(all) && SummaryOf(all, d.documentId, d) && d.extractedPropertyData.None? {
      SummaryAt(all, order, docs, d);
    }
  }

  lemma SummariesReachEvery(ids: set<string>, order: seq<string>, docs: seq<DocumentSummary>)
    requires SetOf(order) == ids && |docs| == |order|
    requires forall k :: 0 <= k < |order| ==> docs[k].documentId == order[k]
    ensures forall id :: id in ids ==> exists i :: 0 <= i < |docs| && docs[i].documentId == id
  {
    forall x | x in ids ensures exists i :: 0 <= i < |docs| && docs[i].documentId == x {
      assert x in SetOf(order);
      var i :| 0 <= i < |order| && order[i] == x;
      assert docs[i].documentId == x;
    }
  }

  lemma SummaryAt(all: seq<Chunk>, order: seq<string>, docs: seq<DocumentSummary>, d: DocumentSummary)
    requires SetOf(order) == StoreIds(all) && |docs| == |order| && d in docs
    requires forall k :: 0 <= k < |order| ==> SummaryFor(all, order[k], docs[k])
    ensures d.documentId in StoreIds(all) && SummaryOf(all, d.documentId, d) && d.extractedPropertyData.None?
  {
    var i :| 0 <= i < |docs| && docs[i] == d;
    assert order[i] in SetOf(order);
  }

  lemma {:induction false} DistinctCard(s: seq<string>)
    requires Distinct(s)
    ensures |SetOf(s)| == |s|
  {
    if s != [] {
      var last := s[|s| - 1];
      var init := s[..|s| - 1];
      assert Distinct(init);
      DistinctCard(init);
      assert SetOf(s) == SetOf(init) + {last} by {
        assert s == init + [last];
      }
      assert last !in SetOf(init) by {
        forall k | 0 <= k < |init| ensures init[k] != last {
          assert s[k] == init[k];
        }
      }
    }
  }
}
