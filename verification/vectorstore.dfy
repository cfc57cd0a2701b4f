/** rag/tools/vectorStore.py: `ChromaRetriever`, a per-user wrapper around one Chroma
    collection that validates and shapes similarity queries, lists and deletes sources,
    and counts chunks. */
module VectorStore {
  import opened Wrappers
  import opened Errors
  import opened Chroma
  import opened Namespace
  import opened Ordering

  /** The default `maxResults` of the constructor. */
  const DefaultMaxResults := 6

  /** What a retriever sees at one moment: its collection's records, the store's ranking
      oracle and its own `maxResults`. */
  datatype CollectionView = CollectionView(records: seq<Record>, rank: Ranker, maxResults: int)

  /** One entry of `retrieve`'s list: `{"document", "metadata", "distance"}`. */
  datatype RetrievalResult = RetrievalResult(document: string, metadata: Metadata, distance: Option<real>)

  function Min(a: int, b: int): int {
    if a <= b then a else b
  }

  /** `limit or self.maxResults`: `None` and `0` are both falsy and fall back to the default. */
  function EffectiveLimit(limit: Option<int>, maxResults: int): (n: int)
    ensures limit == None || limit == Some(0) ==> n == maxResults
    ensures limit.Some? && limit.value != 0 ==> n == limit.value
  {
    if limit.Some? && limit.value != 0 then limit.value else maxResults
  }

  /** The list comprehension that turns a query response into results. */
  function ShapeResults(resp: QueryResponse): (rs: seq<RetrievalResult>)
    ensures |rs| == |resp.documents|
  {
    seq(|resp.documents|, i requires 0 <= i < |resp.documents| =>
      RetrievalResult(
        resp.documents[i],
        if i < |resp.metadatas| then resp.metadatas[i] else EmptyMetadata,
        if i < |resp.distances| then Some(resp.distances[i]) else None))
  }

  /** One result per returned document, in the response's order; a position past the end of
      the metadata list gets `{}`, and one past the end of the distance list gets `None`. */
  lemma ShapeResultsFallbacks(resp: QueryResponse, i: nat)
    requires i < |resp.documents|
    ensures ShapeResults(resp)[i].document == resp.documents[i]
    ensures i < |resp.metadatas| ==> ShapeResults(resp)[i].metadata == resp.metadatas[i]
    ensures i >= |resp.metadatas| ==> ShapeResults(resp)[i].metadata == EmptyMetadata
    ensures i < |resp.distances| ==> ShapeResults(resp)[i].distance == Some(resp.distances[i])
    ensures i >= |resp.distances| ==> ShapeResults(resp)[i].distance == None
  {
  }

  /** The result for record `x` found at `distance`. */
  function ResultFor(x: Record, distance: real): RetrievalResult {
    RetrievalResult(x.document, x.metadata, Some(distance))
  }

  /** Each result is a distinct record of the collection, carrying that record's document and
      metadata (so its source, for provenance). */
  ghost predicate DrawnFrom(results: seq<RetrievalResult>, records: seq<Record>) {
    exists hits: seq<Hit> ::
      && WellRanked(hits, |records|, |results|)
      && |hits| == |results|
      && forall i :: 0 <= i < |results| ==> results[i] == ResultFor(records[hits[i].index], hits[i].distance)
  }

  /** `retrieve(query, limit)`. */
  function RetrieveFrom(v: CollectionView, query: string, limit: Option<int>): (r: Result<seq<RetrievalResult>, Error>)
    ensures query == "" ==> r == Err(EmptyQuery)
    ensures query != "" && |v.records| == 0 ==> r == Ok([])
    ensures r.Err? <==> query == "" || (|v.records| > 0 && EffectiveLimit(limit, v.maxResults) < 1)
    ensures r.Ok? ==> |r.value| <= |v.records|
    ensures r.Ok? && |v.records| > 0 ==> |r.value| <= EffectiveLimit(limit, v.maxResults)
  {
    if query == "" then Err(EmptyQuery)
    else
      var n := EffectiveLimit(limit, v.maxResults);
      var available := |v.records|;
      if available == 0 then Ok([])
      else
        var n' := Min(n, available);
        if n' < 1 then Err(InvalidResultCount(n'))
        else Ok(ShapeResults(Query(v.rank, v.records, query, n')))
  }

  /** `limit or self.maxResults`: passing no limit, a limit of zero, or the default itself
      gives the same retrieval. */
  lemma FalsyLimitIsDefault(v: CollectionView, query: string)
    ensures RetrieveFrom(v, query, Some(0)) == RetrieveFrom(v, query, None)
    ensures RetrieveFrom(v, query, Some(v.maxResults)) == RetrieveFrom(v, query, None)
  {
  }

  /** Every result of a successful retrieval is a distinct record of the collection, with
      that record's document and metadata. */
  lemma RetrieveDrawnFrom(v: CollectionView, query: string, limit: Option<int>)
    requires RetrieveFrom(v, query, limit).Ok?
    ensures DrawnFrom(RetrieveFrom(v, query, limit).value, v.records)
  {
    var results := RetrieveFrom(v, query, limit).value;
    if |v.records| == 0 {
      assert WellRanked([], |v.records|, 0);
    } else {
      var n' := Min(EffectiveLimit(limit, v.maxResults), |v.records|);
      var hits := v.rank(query, v.records, n');
      assert WellRanked(hits, |v.records|, |results|);
    }
  }

  /** The source of every record, in collection order. */
  function Sources(records: seq<Record>): (s: seq<string>)
    ensures forall name :: name in s <==> exists x :: x in records && SourceOf(x.metadata) == name
  {
    var s := seq(|records|, i requires 0 <= i < |records| => SourceOf(records[i].metadata));
    assert forall x :: x in records ==> SourceOf(x.metadata) in s by {
      forall x | x in records ensures SourceOf(x.metadata) in s {
        var k :| 0 <= k < |records| && records[k] == x;
        assert s[k] == SourceOf(x.metadata);
      }
    }
    s
  }

  /** `listSources()`: `sorted({m.get("source", "unknown") for m in metadatas})`. */
  function SourceListing(records: seq<Record>): (r: seq<string>)
    ensures StrictlySorted(r)
    ensures forall name :: name in r <==> exists x :: x in records && SourceOf(x.metadata) == name
  {
    SortedDistinct(Sources(records))
  }

  /** The listing is the one strictly sorted list of the collection's sources: any other
      sorted, duplicate-free list of exactly those names equals it. */
  lemma SourceListingUnique(records: seq<Record>, other: seq<string>)
    requires StrictlySorted(other)
    requires forall name :: name in other <==> exists x :: x in records && SourceOf(x.metadata) == name
    ensures other == SourceListing(records)
  {
    StrictlySortedUnique(other, SourceListing(records));
  }

  /** A retriever bound to the collection of one user. */
  class ChromaRetriever {
    const store: Store
    const userId: string
    const maxResults: int
    const collectionName: string

    ghost predicate Valid()
      reads this, store
    {
      collectionName == CollectionName(userId) && collectionName in store.collections
    }

    /** `ChromaRetriever(persistDirectory, userId, maxResults=6)`: names the collection after
        the user and gets or creates it. */
    constructor(store: Store, userId: string, maxResults: int)
      modifies store
      ensures this.store == store && this.userId == userId && this.maxResults == maxResults
      ensures collectionName == CollectionName(userId)
      ensures store.collections == old(store.collections)[CollectionName(userId) := old(store.Records(CollectionName(userId)))]
      ensures Valid()
    {
      this.store := store;
      this.userId := userId;
      this.maxResults := maxResults;
      this.collectionName := CollectionName(userId);
      new;
      store.GetOrCreate(collectionName);
    }

    function View(): CollectionView
      reads this, store
    {
      CollectionView(store.Records(collectionName), store.rank, maxResults)
    }

    /** `retrieve(query, limit)` on the collection as it is now. */
    function Retrieve(query: string, limit: Option<int>): (r: Result<seq<RetrievalResult>, Error>)
      reads this, store
      ensures r.Err? <==> query == "" || (|store.Records(collectionName)| > 0 && EffectiveLimit(limit, maxResults) < 1)
      ensures query == "" ==> r == Err(EmptyQuery)
      ensures r.Ok? ==> |r.value| <= |store.Records(collectionName)|
    {
      RetrieveFrom(View(), query, limit)
    }

    /** `listSources()`: the sorted distinct sources of the collection. */
    function ListSources(): (r: seq<string>)
      reads this, store
      ensures StrictlySorted(r)
      ensures forall name :: name in r <==> exists x :: x in store.Records(collectionName) && SourceOf(x.metadata) == name
    {
      SourceListing(store.Records(collectionName))
    }

    /** `count()`: the number of chunks; it is zero exactly when no source is listed. */
    function Count(): (c: nat)
      reads this, store
      ensures c == |store.Records(collectionName)|
      ensures c == 0 <==> ListSources() == []
    {
      var records := store.Records(collectionName);
      assert records != [] ==> records[0] in records;
      |records|
    }

    /** `deleteSource(filename)`: deletes the ids of the records whose source is `filename`
        and returns how many there were. */
    method DeleteSource(filename: string) returns (n: nat)
      requires Valid()
      modifies store
      ensures Valid()
      ensures n == |Filter(HasSource(filename), old(store.Records(collectionName)))|
      ensures store.collections == old(store.collections)[collectionName :=
                RemoveIds(old(store.Records(collectionName)), IdsWithSource(old(store.Records(collectionName)), filename))]
      ensures Filter(HasSource(filename), store.Records(collectionName)) == []
      ensures NoIdClash(old(store.Records(collectionName)), filename) ==>
                store.Records(collectionName) == Filter(LacksSource(filename), old(store.Records(collectionName)))
      ensures n == 0 ==> store.collections == old(store.collections)
    {
      var records := store.Records(collectionName);
      var existing := IdsWithSource(records, filename);
      if |existing| > 0 {
        store.Delete(collectionName, existing);
      } else {
        FilterKeepsAll(IdNotIn(existing), records);
      }
      SourceGoneAfterDelete(records, filename);
      if NoIdClash(records, filename) {
        DeleteRemovesExactlySource(records, filename);
      }
      n := |existing|;
    }
  }
}
