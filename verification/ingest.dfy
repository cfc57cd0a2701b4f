/** rag/ingestDocs.py: turns one uploaded file into Chroma records (one per chunk, with
    deterministic ids) and replaces that file's earlier records in the user's collection.

    A file is given by its name (`path.name`); reading it is the parameter `read`, which
    yields the text each extractor would return, and langchain's splitter is the
    parameter `chunker`. */
module IngestDocs {
  import opened Wrappers
  import opened Errors
  import opened Text
  import opened Paths
  import opened Chroma
  import opened Namespace

  const SupportedExtensions: set<string> := {".pdf", ".txt", ".md", ".docx"}

  /** The three text extractors. */
  datatype Extractor = PdfExtractor | TxtExtractor | DocxExtractor

  /** The dispatch of `extractText` on the lower-cased suffix. It accepts exactly the
      extensions that `ingestForUser` lets through. */
  function ExtractorFor(ext: string): (r: Option<Extractor>)
    ensures r.Some? <==> ext in SupportedExtensions
    ensures r == Some(PdfExtractor) <==> ext == ".pdf"
    ensures r == Some(TxtExtractor) <==> ext == ".txt" || ext == ".md"
    ensures r == Some(DocxExtractor) <==> ext == ".docx"
  {
    if ext == ".pdf" then Some(PdfExtractor)
    else if ext == ".txt" || ext == ".md" then Some(TxtExtractor)
    else if ext == ".docx" then Some(DocxExtractor)
    else None
  }

  /** `extractText(path)`: the chosen extractor's text, or `ValueError` for any other suffix. */
  function ExtractText(name: string, read: Extractor -> string): (r: Result<string, Error>)
    ensures r.Err? <==> Lower(Suffix(name)) !in SupportedExtensions
    ensures r.Err? ==> r.error == UnsupportedFileType(Lower(Suffix(name)))
    ensures Lower(Suffix(name)) == ".pdf" ==> r == Ok(read(PdfExtractor))
    ensures Lower(Suffix(name)) in {".txt", ".md"} ==> r == Ok(read(TxtExtractor))
    ensures Lower(Suffix(name)) == ".docx" ==> r == Ok(read(DocxExtractor))
  {
    var ext := Lower(Suffix(name));
    match ExtractorFor(ext)
    case Some(extractor) => Ok(read(extractor))
    case None => Err(UnsupportedFileType(ext))
  }

  // ------------------------------------------------------------ records of one file

  /** The three parallel lists `ingestFile` returns. */
  datatype Batch = Batch(documents: seq<string>, metadatas: seq<Metadata>, ids: seq<string>)

  /** `{"source": path.name, "fileType": path.suffix.lower(), "chunkIndex": i}`. */
  function ChunkMetadata(name: string, i: nat): (m: Metadata)
    ensures m.source == Some(name) && m.chunkIndex == Some(i)
    ensures m.fileType == Some(Lower(Suffix(name)))
    ensures |m.fileType.value| == |Suffix(name)|
    ensures forall k :: 0 <= k < |m.fileType.value| ==> !('A' <= m.fileType.value[k] <= 'Z')
  {
    Metadata(Some(name), Some(Lower(Suffix(name))), Some(i))
  }

  /** `f"{path.stem}-c{i}"`. */
  function ChunkId(stem: string, i: nat): string {
    stem + "-c" + NatToString(i)
  }

  /** A chunk id is the stem, `-c`, and the decimal digits of the index, from which the
      index can be read back. */
  lemma ChunkIdLayout(stem: string, i: nat)
    ensures |ChunkId(stem, i)| > |stem| + 2 && ChunkId(stem, i)[..|stem| + 2] == stem + "-c"
    ensures forall k :: |stem| + 2 <= k < |ChunkId(stem, i)| ==> IsDigit(ChunkId(stem, i)[k])
    ensures DigitsValue(ChunkId(stem, i)[|stem| + 2..]) == i
  {
    assert ChunkId(stem, i)[|stem| + 2..] == NatToString(i);
    DecimalRoundTrip(i);
  }

  /** Within one stem, different chunk indices give different ids. */
  lemma ChunkIdInjective(stem: string, i: nat, j: nat)
    requires ChunkId(stem, i) == ChunkId(stem, j)
    ensures i == j
  {
    ChunkIdLayout(stem, i);
    ChunkIdLayout(stem, j);
    assert ChunkId(stem, i)[|stem| + 2..] == ChunkId(stem, j)[|stem| + 2..];
  }

  /** The metadata dictionaries of the first `n` chunks of file `name`. */
  function ChunkMetadatas(name: string, n: nat): (ms: seq<Metadata>)
    ensures |ms| == n
    ensures forall k :: 0 <= k < n ==> ms[k] == ChunkMetadata(name, k)
  {
    if n == 0 then [] else ChunkMetadatas(name, n - 1) + [ChunkMetadata(name, n - 1)]
  }

  /** The ids of the first `n` chunks of a file with stem `stem`. */
  function ChunkIds(stem: string, n: nat): (ids: seq<string>)
    ensures |ids| == n
    ensures forall k :: 0 <= k < n ==> ids[k] == ChunkId(stem, k)
  {
    if n == 0 then [] else ChunkIds(stem, n - 1) + [ChunkId(stem, n - 1)]
  }

  /** The lists built for the chunks of file `name`. */
  function BatchFor(name: string, chunks: seq<string>): (b: Batch)
    ensures |b.documents| == |b.metadatas| == |b.ids| == |chunks|
  {
    Batch(chunks, ChunkMetadatas(name, |chunks|), ChunkIds(Stem(name), |chunks|))
  }

  /** The ids of one file are pairwise distinct. */
  lemma BatchIdsDistinct(name: string, chunks: seq<string>)
    ensures forall i, j :: 0 <= i < j < |chunks| ==> BatchFor(name, chunks).ids[i] != BatchFor(name, chunks).ids[j]
  {
    forall i, j | 0 <= i < j < |chunks|
      ensures BatchFor(name, chunks).ids[i] != BatchFor(name, chunks).ids[j]
    {
      if BatchFor(name, chunks).ids[i] == BatchFor(name, chunks).ids[j] {
        ChunkIdInjective(Stem(name), i, j);
      }
    }
  }

  /** Ids depend on the stem and the number of chunks only: ingesting the same file again
      (or another file with that stem and as many chunks) yields the identical id list. */
  lemma BatchIdsStable(name1: string, chunks1: seq<string>, name2: string, chunks2: seq<string>)
    requires Stem(name1) == Stem(name2) && |chunks1| == |chunks2|
    ensures BatchFor(name1, chunks1).ids == BatchFor(name2, chunks2).ids
  {
  }

  /** `ingestFile(path)`: extracts the text, chunks it and builds the three lists. */
  method IngestFile(name: string, read: Extractor -> string, chunker: string -> seq<string>)
    returns (r: Result<Batch, Error>)
    ensures ExtractText(name, read).Err? ==> r == Err(ExtractText(name, read).error)
    ensures ExtractText(name, read).Ok? ==> r == Ok(BatchFor(name, chunker(ExtractText(name, read).value)))
  {
    var text :- ExtractText(name, read);
    var batch := BuildBatch(name, chunker(text));
    return Ok(batch);
  }

  /** The loop of `ingestFile`: one document, metadata dictionary and id per chunk. */
  method BuildBatch(name: string, chunks: seq<string>) returns (batch: Batch)
    ensures batch == BatchFor(name, chunks)
  {
    var stem := Stem(name);
    var documents: seq<string> := [];
    var metadatas: seq<Metadata> := [];
    var ids: seq<string> := [];
    var i := 0;
    while i < |chunks|
      invariant 0 <= i <= |chunks|
      invariant documents == chunks[..i]
      invariant metadatas == ChunkMetadatas(name, i)
      invariant ids == ChunkIds(stem, i)
    {
      assert chunks[..i + 1] == chunks[..i] + [chunks[i]];
      documents := documents + [chunks[i]];
      metadatas := metadatas + [ChunkMetadata(name, i)];
      ids := ids + [ChunkId(stem, i)];
      i := i + 1;
    }
    assert documents == chunks;
    batch := Batch(documents, metadatas, ids);
  }

  /** The records a batch adds to the collection. */
  function RecordsOf(b: Batch): seq<Record>
    requires |b.documents| == |b.metadatas| == |b.ids|
  {
    Zip(b.ids, b.documents, b.metadatas)
  }

  /** Every record built for file `name` carries `name` as its source. */
  lemma BatchRecordsHaveSource(name: string, chunks: seq<string>)
    ensures forall x :: x in RecordsOf(BatchFor(name, chunks)) ==> x.metadata.source == Some(name)
  {
    var rs := RecordsOf(BatchFor(name, chunks));
    forall x | x in rs ensures x.metadata.source == Some(name) {
      var k :| 0 <= k < |rs| && rs[k] == x;
    }
  }

  // ------------------------------------------------------------ replacement

  /** Delete every record whose source is `name`, by id, then append `added`. */
  function ReplaceSource(rs: seq<Record>, name: string, added: seq<Record>): seq<Record> {
    RemoveIds(rs, IdsWithSource(rs, name)) + added
  }

  /** The replacement ends with the new records, and every record before them is an earlier
      record of another source. */
  lemma ReplaceSourceShape(rs: seq<Record>, name: string, added: seq<Record>)
    ensures |added| <= |ReplaceSource(rs, name, added)| <= |rs| + |added|
    ensures ReplaceSource(rs, name, added)[|ReplaceSource(rs, name, added)| - |added|..] == added
    ensures forall x :: x in ReplaceSource(rs, name, added) ==>
              x in added || (x in rs && x.metadata.source != Some(name))
  {
    var kept := RemoveIds(rs, IdsWithSource(rs, name));
    KeptRecordsOfOtherSources(rs, name);
    assert (kept + added)[|kept|..] == added;
  }

  /** After the replacement, the records of source `name` are exactly the new ones, in order. */
  lemma ReplaceSourceExact(rs: seq<Record>, name: string, added: seq<Record>)
    requires forall x :: x in added ==> x.metadata.source == Some(name)
    ensures Filter(HasSource(name), ReplaceSource(rs, name, added)) == added
  {
    FilterConcat(HasSource(name), RemoveIds(rs, IdsWithSource(rs, name)), added);
    SourceGoneAfterDelete(rs, name);
    FilterKeepsAll(HasSource(name), added);
  }

  /** The replacement leaves the records of every other source as they were, unless one of
      them shares an id with a replaced record. */
  lemma ReplaceSourceKeepsOthers(rs: seq<Record>, name: string, added: seq<Record>)
    requires forall x :: x in added ==> x.metadata.source == Some(name)
    requires NoIdClash(rs, name)
    ensures Filter(LacksSource(name), ReplaceSource(rs, name, added)) == Filter(LacksSource(name), rs)
  {
    var kept := RemoveIds(rs, IdsWithSource(rs, name));
    FilterConcat(LacksSource(name), kept, added);
    HeadIsMember(Filter(LacksSource(name), added));
    DeleteRemovesExactlySource(rs, name);
    FilterKeepsAll(LacksSource(name), kept);
  }

  /** Replacing a source twice with the same records is replacing it once: re-uploading a
      file does not duplicate its chunks, provided no record of another source already uses
      one of the new ids. */
  lemma ReplaceSourceIdempotent(rs: seq<Record>, name: string, added: seq<Record>)
    requires forall x :: x in added ==> x.metadata.source == Some(name)
    requires forall x :: x in rs && x.metadata.source != Some(name) ==> x.id !in Ids(added)
    ensures ReplaceSource(ReplaceSource(rs, name, added), name, added) == ReplaceSource(rs, name, added)
  {
    var kept := RemoveIds(rs, IdsWithSource(rs, name));
    // After one replacement the records of `name` are the added ones ...
    ReplaceSourceExact(rs, name, added);
    assert IdsWithSource(kept + added, name) == Ids(added);
    // ... and every kept record is of another source, so its id is not among them.
    KeptRecordsOfOtherSources(rs, name);
    RemoveOwnIds(kept, added);
  }

  /** The records a deletion by source keeps are records of the collection with another source. */
  lemma KeptRecordsOfOtherSources(rs: seq<Record>, name: string)
    ensures forall x :: x in RemoveIds(rs, IdsWithSource(rs, name)) ==> x in rs && x.metadata.source != Some(name)
  {
    SourceGoneAfterDelete(rs, name);
    var kept := RemoveIds(rs, IdsWithSource(rs, name));
  }

  // ------------------------------------------------------------ ingestForUser

  /** The summary dictionary `ingestForUser` returns. */
  datatype IngestSummary = IngestSummary(collection: string, file: string, chunks: nat, totalDocsInCollection: nat)

  /** What `ingestForUser` adds for file `name`, or the error it raises before touching the store. */
  function IngestPlan(name: string, read: Extractor -> string, chunker: string -> seq<string>): (r: Result<Batch, Error>)
    ensures Lower(Suffix(name)) !in SupportedExtensions ==> r == Err(UnsupportedFileType(Suffix(name)))
    ensures Lower(Suffix(name)) in SupportedExtensions ==>
              (r.Err? <==> |chunker(ExtractText(name, read).value)| == 0)
              && (r.Err? ==> r.error == NoExtractableText(name))
    ensures r.Ok? ==> |r.value.documents| > 0
    ensures r.Ok? ==> r.value == BatchFor(name, chunker(ExtractText(name, read).value))
  {
    if Lower(Suffix(name)) !in SupportedExtensions then Err(UnsupportedFileType(Suffix(name)))
    else
      var batch := BatchFor(name, chunker(ExtractText(name, read).value));
      if |batch.documents| == 0 then Err(NoExtractableText(name)) else Ok(batch)
  }

  /** `ingestForUser(filePath, userId, vectorStoreDir)`. */
  method IngestForUser(name: string, userId: string, store: Store,
                       read: Extractor -> string, chunker: string -> seq<string>)
    returns (r: Result<IngestSummary, Error>)
    modifies store
    ensures IngestPlan(name, read, chunker).Err? ==>
              r == Err(IngestPlan(name, read, chunker).error) && store.collections == old(store.collections)
    ensures IngestPlan(name, read, chunker).Ok? ==>
              var batch := IngestPlan(name, read, chunker).value;
              var cn := CollectionName(userId);
              var after := ReplaceSource(old(store.Records(cn)), name, RecordsOf(batch));
              && store.collections == old(store.collections)[cn := after]
              && r == Ok(IngestSummary(cn, name, |batch.documents|, |after|))
    ensures forall u :: u != userId ==> store.Records(CollectionName(u)) == old(store.Records(CollectionName(u)))
  {
    if Lower(Suffix(name)) !in SupportedExtensions {
      return Err(UnsupportedFileType(Suffix(name)));
    }
    var extracted := IngestFile(name, read, chunker);
    var batch := extracted.value;
    assert batch == BatchFor(name, chunker(ExtractText(name, read).value));
    if |batch.documents| == 0 {
      return Err(NoExtractableText(name));
    }
    assert IngestPlan(name, read, chunker) == Ok(batch);
    var cn := CollectionName(userId);
    var total := StoreBatch(store, cn, name, batch);
    forall u | u != userId ensures CollectionName(u) != cn {
      if CollectionName(u) == cn {
        CollectionNameInjective(u, userId);
      }
    }
    return Ok(IngestSummary(cn, name, |batch.documents|, total));
  }

  /** The store side of `ingestForUser`: gets or creates collection `cn`, deletes the ids
      of the records of source `name`, appends the batch and counts the collection. */
  method StoreBatch(store: Store, cn: string, name: string, batch: Batch) returns (total: nat)
    requires |batch.documents| == |batch.metadatas| == |batch.ids|
    modifies store
    ensures store.collections == old(store.collections)[cn := ReplaceSource(old(store.Records(cn)), name, RecordsOf(batch))]
    ensures total == |store.Records(cn)|
  {
    ghost var before := store.Records(cn);
    store.GetOrCreate(cn);
    var existing := IdsWithSource(store.Records(cn), name);
    if |existing| > 0 {
      store.Delete(cn, existing);
    } else {
      FilterKeepsAll(IdNotIn(existing), before);
    }
    store.Add(cn, batch.ids, batch.documents, batch.metadatas);
    total := |store.Records(cn)|;
  }
}
