// The persisted vector store behind the document index, reduced to what the index relies on:
// a sequence of chunk records (text plus metadata) that can be appended to, listed, deleted by
// document id or wholesale, and queried with a metadata filter. Similarity ranking is library
// behaviour: a query promises only how many matching chunks it returns and that they are
// matching chunks of the store, not which ones.

module VectorStore {
  import opened Wrappers

  /** The metadata a chunk carries; every key is optional, as in the store's metadata dicts. */
  datatype ChunkMeta = ChunkMeta(
    documentId: Option<string>,
    filename: Option<string>,
    documentType: Option<string>,
    chunkIndex: Option<int>,
    totalChunks: Option<int>,
    source: Option<string>,
    uploadTimestamp: Option<nat>,
    tags: Option<seq<string>>,
    hasPropertyData: Option<bool>,
    fileSize: Option<int>)

  datatype Chunk = Chunk(content: string, meta: ChunkMeta)

  /** An equality filter on metadata keys; a key left None is not constrained. */
  datatype ChunkFilter = ChunkFilter(
    documentId: Option<string>,
    documentType: Option<string>,
    hasPropertyData: Option<bool>)

  function ByDocument(id: string): ChunkFilter
  {
    ChunkFilter(Some(id), None, None)
  }

  predicate Matches(f: ChunkFilter, c: Chunk)
  {
    (f.documentId.Some? ==> c.meta.documentId == f.documentId)
    && (f.documentType.Some? ==> c.meta.documentType == f.documentType)
    && (f.hasPropertyData.Some? ==> c.meta.hasPropertyData == f.hasPropertyData)
  }

  /** The chunks a filter admits, in store order. */
  function Matching(cs: seq<Chunk>, f: ChunkFilter): (r: seq<Chunk>)
    ensures |r| <= |cs|
    ensures forall c :: c in r <==> c in cs && Matches(f, c)
    ensures multiset(r) <= multiset(cs)
  {
    if cs == [] then []
    else
      assert cs == [cs[0]] + cs[1..];
      (if Matches(f, cs[0]) then [cs[0]] else []) + Matching(cs[1..], f)
  }

  lemma {:induction false} MatchingAppend(a: seq<Chunk>, b: seq<Chunk>, f: ChunkFilter)
    ensures Matching(a + b, f) == Matching(a, f) + Matching(b, f)
  {
    if a == [] {
      assert a + b == b;
    } else {
      assert (a + b)[1..] == a[1..] + b;
      MatchingAppend(a[1..], b, f);
    }
  }

  /** The chunks of one document, in store order. */
  function ChunksOf(cs: seq<Chunk>, id: string): seq<Chunk>
  {
    Matching(cs, ByDocument(id))
  }

  /** The distinct document ids that occur in chunk metadata. */
  function StoreIds(cs: seq<Chunk>): set<string>
  {
    set i | 0 <= i < |cs| && cs[i].meta.documentId.Some? :: cs[i].meta.documentId.value
  }

  lemma StoreIdsHaveChunks(cs: seq<Chunk>, id: string)
    ensures id in StoreIds(cs) <==> ChunksOf(cs, id) != []
  {
    if id in StoreIds(cs) {
      var i :| 0 <= i < |cs| && cs[i].meta.documentId == Some(id);
      assert cs[i] in ChunksOf(cs, id);
    }
    if ChunksOf(cs, id) != [] {
      var c := ChunksOf(cs, id)[0];
      assert c in cs;
      var i :| 0 <= i < |cs| && cs[i] == c;
    }
  }

  /** The chunks whose document id is not in `ids` (chunks without an id always stay). */
  function Without(cs: seq<Chunk>, ids: set<string>): (r: seq<Chunk>)
    ensures |r| <= |cs|
  {
    if cs == [] then []
    else
      var c := cs[0];
      (if Removed(c, ids) then [] else [c]) + Without(cs[1..], ids)
  }

  predicate Removed(c: Chunk, ids: set<string>)
  {
    c.meta.documentId.Some? && c.meta.documentId.value in ids
  }

  lemma {:induction false} WithoutMembers(cs: seq<Chunk>, ids: set<string>)
    ensures forall c :: c in Without(cs, ids) <==> c in cs && !Removed(c, ids)
  {
    if cs != [] {
      WithoutMembers(cs[1..], ids);
      assert cs == [cs[0]] + cs[1..];
    }
  }

  lemma {:induction false} WithoutNothing(cs: seq<Chunk>)
    ensures Without(cs, {}) == cs
  {
    if cs != [] {
      WithoutNothing(cs[1..]);
    }
  }

  lemma {:induction false} WithoutTwice(cs: seq<Chunk>, a: set<string>, b: set<string>)
    ensures Without(Without(cs, a), b) == Without(cs, a + b)
  {
    if cs != [] {
      var c := cs[0];
      WithoutTwice(cs[1..], a, b);
      if !Removed(c, a) {
        var w := [c] + Without(cs[1..], a);
        assert w[0] == c && w[1..] == Without(cs[1..], a);
        assert Without(cs, a) == w;
        assert Without(w, b) == (if Removed(c, b) then [] else [c]) + Without(w[1..], b);
        assert Removed(c, a + b) == Removed(c, b);
      } else {
        assert Without(cs, a) == Without(cs[1..], a);
        assert Removed(c, a + b);
      }
    }
  }

  /** Removing documents removes exactly their ids from the store's id set. */
  lemma {:induction false} StoreIdsWithout(cs: seq<Chunk>, ids: set<string>)
    ensures StoreIds(Without(cs, ids)) == StoreIds(cs) - ids
  {
    var r := Without(cs, ids);
    WithoutMembers(cs, ids);
    forall x | x in StoreIds(r) ensures x in StoreIds(cs) - ids {
      var i :| 0 <= i < |r| && r[i].meta.documentId == Some(x);
      assert r[i] in cs;
      var j :| 0 <= j < |cs| && cs[j] == r[i];
    }
    forall x | x in StoreIds(cs) - ids ensures x in StoreIds(r) {
      var j :| 0 <= j < |cs| && cs[j].meta.documentId == Some(x);
      assert cs[j] in r;
      var i :| 0 <= i < |r| && r[i] == cs[j];
    }
  }

  function Min(a: int, b: int): int
  {
    if a < b then a else b
  }

  class ChunkStore {
    var chunks: seq<Chunk>

    constructor (initial: seq<Chunk>)
      ensures chunks == initial
    {
      chunks := initial;
    }

    /** add_documents: the new chunks are appended. */
    method Add(docs: seq<Chunk>)
      modifies this
      ensures chunks == old(chunks) + docs
    {
      chunks := chunks + docs;
    }

    /** collection.get(): every chunk record. */
    method GetAll() returns (all: seq<Chunk>)
      ensures all == chunks
    {
      all := chunks;
    }

    /** collection.delete(where={"document_id": id}). */
    method DeleteWhereDocument(id: string)
      modifies this
      ensures chunks == Without(old(chunks), {id})
    {
      chunks := Without(chunks, {id});
    }

    /** collection.delete(ids=<all ids>). */
    method DeleteAll()
      modifies this
      ensures chunks == []
    {
      chunks := [];
    }

    /**
     * A similarity search with a metadata filter and a result limit k: exactly min(k, n) of the
     * n matching chunks come back, each at most as often as it is stored, in some ranking order.
     */
    method Query(f: ChunkFilter, k: nat) returns (hits: seq<Chunk>)
      ensures |hits| == Min(k, |Matching(chunks, f)|)
      ensures multiset(hits) <= multiset(Matching(chunks, f))
      ensures forall c :: c in hits ==> c in chunks && Matches(f, c)
    {
      var m := Matching(chunks, f);
      var n := Min(k, |m|);
      hits := m[..n];
      assert m == m[..n] + m[n..];
      assert multiset(m) == multiset(m[..n]) + multiset(m[n..]);
      forall c | c in hits ensures c in chunks && Matches(f, c) {
        assert c in m;
      }
    }
  }

  /** When the limit covers every match, a query returns the matches up to order. */
  lemma QueryCoversAll(hits: seq<Chunk>, m: seq<Chunk>, k: nat)
    requires |m| <= k
    requires |hits| == Min(k, |m|)
    requires multiset(hits) <= multiset(m)
    ensures multiset(hits) == multiset(m)
  {
    var d := multiset(m) - multiset(hits);
    assert multiset(m) == multiset(hits) + d;
    assert |multiset(m)| == |multiset(hits)| + |d|;
    assert |d| == 0;
  }
}
