/** The part of ChromaDB the core relies on: named collections of records
    `(id, document, metadata)`, fetched by a metadata filter, deleted by id, appended to,
    counted, and queried by similarity. The embedding and the nearest-neighbour search are
    an oracle, `Ranker`, that picks at most `n` distinct records of the collection. */
module Chroma {
  import opened Wrappers

  /** A record's metadata dictionary; `None` is a key that is absent. */
  datatype Metadata = Metadata(source: Option<string>, fileType: Option<string>, chunkIndex: Option<nat>)

  /** The empty dictionary `{}`. */
  const EmptyMetadata := Metadata(None, None, None)

  datatype Record = Record(id: string, document: string, metadata: Metadata)

  /** `metadata.get("source", "unknown")`. */
  function SourceOf(m: Metadata): (s: string)
    ensures m.source.Some? ==> s == m.source.value
    ensures m.source.None? ==> s == "unknown"
  {
    m.source.GetOr("unknown")
  }

  // ------------------------------------------------------------ filters

  /** The record filters the core uses. */
  datatype Criterion =
    | HasSource(name: string)       // `where={"source": name}`
    | LacksSource(name: string)     // every other record
    | IdNotIn(ids: seq<string>)     // what `delete(ids=...)` keeps

  predicate Keeps(c: Criterion, r: Record) {
    match c
    case HasSource(name) => r.metadata.source == Some(name)
    case LacksSource(name) => r.metadata.source != Some(name)
    case IdNotIn(ids) => r.id !in ids
  }

  /** The records that satisfy `c`, in collection order. */
  function Filter(c: Criterion, rs: seq<Record>): (r: seq<Record>)
    ensures |r| <= |rs|
    ensures forall x :: x in r <==> x in rs && Keeps(c, x)
  {
    if rs == [] then []
    else
      assert forall x :: x in rs <==> x == rs[0] || x in rs[1..];
      (if Keeps(c, rs[0]) then [rs[0]] else []) + Filter(c, rs[1..])
  }

  lemma {:induction false} FilterConcat(c: Criterion, a: seq<Record>, b: seq<Record>)
    ensures Filter(c, a + b) == Filter(c, a) + Filter(c, b)
  {
    if a == [] {
      assert a + b == b;
    } else {
      var head := if Keeps(c, a[0]) then [a[0]] else [];
      var ab := a + b;
      assert ab[0] == a[0] && ab[1..] == a[1..] + b;
      FilterConcat(c, a[1..], b);
      calc {
        Filter(c, ab);
        head + Filter(c, a[1..] + b);
        head + (Filter(c, a[1..]) + Filter(c, b));
        { assert head + (Filter(c, a[1..]) + Filter(c, b)) == (head + Filter(c, a[1..])) + Filter(c, b); }
        Filter(c, a) + Filter(c, b);
      }
    }
  }

  lemma {:induction false} FilterKeepsAll(c: Criterion, rs: seq<Record>)
    requires forall x :: x in rs ==> Keeps(c, x)
    ensures Filter(c, rs) == rs
  {
    if rs != [] {
      FilterKeepsAll(c, rs[1..]);
    }
  }

  function Ids(rs: seq<Record>): (ids: seq<string>)
    ensures |ids| == |rs|
  {
    seq(|rs|, i requires 0 <= i < |rs| => rs[i].id)
  }

  /** `collection.get(where={"source": name})["ids"]`. */
  function IdsWithSource(rs: seq<Record>, name: string): (ids: seq<string>)
    ensures |ids| == |Filter(HasSource(name), rs)|
    ensures forall x :: x in rs && x.metadata.source == Some(name) ==> x.id in ids
    ensures forall k :: 0 <= k < |ids| ==> exists x :: x in rs && x.metadata.source == Some(name) && x.id == ids[k]
  {
    var matching := Filter(HasSource(name), rs);
    assert forall x :: x in matching ==> x.id in Ids(matching) by {
      forall x | x in matching ensures x.id in Ids(matching) {
        var k :| 0 <= k < |matching| && matching[k] == x;
        assert Ids(matching)[k] == x.id;
      }
    }
    assert forall k :: 0 <= k < |matching| ==> matching[k] in matching && Ids(matching)[k] == matching[k].id;
    Ids(matching)
  }

  /** Every record's id is among the ids of its list. */
  lemma IdsCover(rs: seq<Record>)
    ensures forall x :: x in rs ==> x.id in Ids(rs)
  {
    forall x | x in rs ensures x.id in Ids(rs) {
      var k :| 0 <= k < |rs| && rs[k] == x;
      assert Ids(rs)[k] == x.id;
    }
  }

  /** Deleting the ids of records just appended removes exactly those, when no earlier
      record shares one of their ids. */
  lemma RemoveOwnIds(kept: seq<Record>, added: seq<Record>)
    requires forall x :: x in kept ==> x.id !in Ids(added)
    ensures RemoveIds(kept + added, Ids(added)) == kept
  {
    FilterConcat(IdNotIn(Ids(added)), kept, added);
    FilterKeepsAll(IdNotIn(Ids(added)), kept);
    IdsCover(added);
    HeadIsMember(RemoveIds(added, Ids(added)));
  }

  /** The collection after `collection.delete(ids=ids)`. */
  function RemoveIds(rs: seq<Record>, ids: seq<string>): (r: seq<Record>)
    ensures |r| <= |rs|
    ensures forall x :: x in r <==> x in rs && x.id !in ids
  {
    Filter(IdNotIn(ids), rs)
  }

  /** No record of another source shares an id with a record of `name`. Chunk ids are
      `stem-c{i}`, so two files with one stem (`a.txt`, `a.md`) break this. */
  ghost predicate NoIdClash(rs: seq<Record>, name: string) {
    forall x, y ::
      x in rs && y in rs && x.metadata.source == Some(name) && y.metadata.source != Some(name)
      ==> x.id != y.id
  }

  /** Deleting the ids of a source's records leaves none of that source's records. */
  lemma SourceGoneAfterDelete(rs: seq<Record>, name: string)
    ensures Filter(HasSource(name), RemoveIds(rs, IdsWithSource(rs, name))) == []
  {
    HeadIsMember(Filter(HasSource(name), RemoveIds(rs, IdsWithSource(rs, name))));
  }

  lemma HeadIsMember(rs: seq<Record>)
    ensures rs != [] ==> rs[0] in rs
  {
  }

  /** Deleting the ids of a source's records removes no record of another source,
      as long as no id is shared across sources. */
  lemma {:induction false} OthersKeptAfterDelete(rs: seq<Record>, ids: seq<string>, name: string)
    requires forall x :: x in rs && x.metadata.source != Some(name) ==> x.id !in ids
    ensures Filter(LacksSource(name), RemoveIds(rs, ids)) == Filter(LacksSource(name), rs)
  {
    if rs != [] {
      var head := if Keeps(IdNotIn(ids), rs[0]) then [rs[0]] else [];
      assert RemoveIds(rs, ids) == head + RemoveIds(rs[1..], ids);
      FilterConcat(LacksSource(name), head, RemoveIds(rs[1..], ids));
      OthersKeptAfterDelete(rs[1..], ids, name);
    }
  }

  /** Under `NoIdClash`, the deletion the core performs removes exactly the source's records. */
  lemma {:induction false} DeleteRemovesExactlySource(rs: seq<Record>, name: string)
    requires NoIdClash(rs, name)
    ensures RemoveIds(rs, IdsWithSource(rs, name)) == Filter(LacksSource(name), rs)
  {
    var ids := IdsWithSource(rs, name);
    DeleteStep(rs, ids, name);
  }

  lemma {:induction false} DeleteStep(rs: seq<Record>, ids: seq<string>, name: string)
    requires forall x :: x in rs && x.metadata.source == Some(name) ==> x.id in ids
    requires forall x :: x in rs && x.metadata.source != Some(name) ==> x.id !in ids
    ensures RemoveIds(rs, ids) == Filter(LacksSource(name), rs)
  {
    if rs != [] {
      assert rs[0] in rs;
      DeleteStep(rs[1..], ids, name);
    }
  }

  // ------------------------------------------------------------ similarity query

  /** One nearest neighbour: a position in the collection and its distance. */
  datatype Hit = Hit(index: nat, distance: real)

  /** At most `n` hits, each at a distinct position of a collection of `size` records. */
  ghost predicate WellRanked(hits: seq<Hit>, size: nat, n: nat) {
    && |hits| <= n
    && (forall i :: 0 <= i < |hits| ==> hits[i].index < size)
    && (forall i, j :: 0 <= i < j < |hits| ==> hits[i].index != hits[j].index)
  }

  /** The embedding function and nearest-neighbour search, fixed for the whole store: given the
      query text, the collection and `n_results`, the hits most similar first. */
  type Ranker = f: (string, seq<Record>, nat) -> seq<Hit> | forall q, rs, n :: WellRanked(f(q, rs, n), |rs|, n)
    witness (q: string, rs: seq<Record>, n: nat) => []

  /** `response["documents"][0]`, `["metadatas"][0]`, `["distances"][0]` of a one-text query. */
  datatype QueryResponse = QueryResponse(documents: seq<string>, metadatas: seq<Metadata>, distances: seq<real>)

  /** `collection.query(query_texts=[text], n_results=n)`. */
  function Query(rank: Ranker, rs: seq<Record>, text: string, n: nat): (resp: QueryResponse)
    ensures |resp.documents| == |resp.metadatas| == |resp.distances| <= n
  {
    var hits := rank(text, rs, n);
    QueryResponse(
      seq(|hits|, i requires 0 <= i < |hits| => rs[hits[i].index].document),
      seq(|hits|, i requires 0 <= i < |hits| => rs[hits[i].index].metadata),
      seq(|hits|, i requires 0 <= i < |hits| => hits[i].distance))
  }

  // ------------------------------------------------------------ the client

  /** A `chromadb.PersistentClient` over one directory: its collections by name. */
  class Store {
    var collections: map<string, seq<Record>>
    const rank: Ranker

    constructor(rank: Ranker)
      ensures collections == map[] && this.rank == rank
    {
      collections := map[];
      this.rank := rank;
    }

    /** The records of collection `name`; one not yet created holds none. */
    function Records(name: string): seq<Record>
      reads this
    {
      if name in collections then collections[name] else []
    }

    /** `client.get_or_create_collection(name)`. */
    method GetOrCreate(name: string)
      modifies this
      ensures name in collections
      ensures collections == old(collections)[name := old(Records(name))]
    {
      if name !in collections {
        collections := collections[name := []];
      }
    }

    /** `collection.delete(ids=ids)`. */
    method Delete(name: string, ids: seq<string>)
      requires name in collections
      modifies this
      ensures collections == old(collections)[name := RemoveIds(old(Records(name)), ids)]
    {
      collections := collections[name := RemoveIds(collections[name], ids)];
    }

    /** `collection.add(ids=..., documents=..., metadatas=...)`: the records are appended. */
    method Add(name: string, ids: seq<string>, documents: seq<string>, metadatas: seq<Metadata>)
      requires name in collections
      requires |ids| == |documents| == |metadatas|
      modifies this
      ensures collections == old(collections)[name := old(Records(name)) + Zip(ids, documents, metadatas)]
    {
      collections := collections[name := collections[name] + Zip(ids, documents, metadatas)];
    }
  }

  /** The records built from three parallel lists. */
  function Zip(ids: seq<string>, documents: seq<string>, metadatas: seq<Metadata>): (rs: seq<Record>)
    requires |ids| == |documents| == |metadatas|
    ensures |rs| == |ids|
  {
    seq(|ids|, i requires 0 <= i < |ids| => Record(ids[i], documents[i], metadatas[i]))
  }
}
