# A verified model of the writing-sample RAG core

The modelled system lets a user upload samples of their own writing and then asks a local
language model to write new text in that user's voice. Its core has three parts:

- **Ingestion** (`rag/ingestDocs.py`). An uploaded file is accepted only when its extension
  is `.pdf`, `.txt`, `.md` or `.docx`. Its text is split into chunks. Each chunk becomes one
  record of the user's Chroma collection `user_{userId}_writings`. The record's id is
  `{stem}-c{i}` and its metadata is `{source, fileType, chunkIndex}`. Before the new records
  are added, the records already stored for the same file name are deleted, so uploading a
  file again replaces its chunks instead of duplicating them.
- **Per-user retrieval** (`rag/tools/vectorStore.py`). The `ChromaRetriever` class is bound
  to one user's collection. It answers similarity queries, lists the distinct sources in
  sorted order, deletes a source's chunks, and counts them.
- **The writing agent** (`rag/agents/agent.py`). It first retrieves the chunks closest to
  the user's request. It then gathers up to two samples for each of four fixed aspects of
  style and asks the model for a style profile. Finally it composes the system prompt and
  the user message sent to the model, and reports which sources it drew on. Because the
  retrieval comes first, an empty request fails before any profile request is made.

The Dafny modules follow that structure:

| module | file | contents |
|---|---|---|
| `Wrappers`, `Errors` | `wrappers.dfy` | `Option`, `Result`, and one error constructor per exception the code raises |
| `Text` | `text.dfy` | `str.lower` (ASCII), `sep.join`, `str(n)` for naturals, `str.strip` |
| `Ordering` | `ordering.dfy` | Python's `<` on strings; `sorted(set(...))` |
| `Paths` | `paths.dfy` | `Path.suffix` and `Path.stem` of a file name |
| `Chroma` | `chroma.dfy` | records, metadata filters, the similarity-query oracle, and the class `Store` of named collections |
| `Namespace` | `namespace.dfy` | the per-user collection name |
| `IngestDocs` | `ingest.dfy` | extractor dispatch, record building, replace-by-source ingestion |
| `VectorStore` | `vectorstore.dfy` | `retrieve` and its result shaping, `listSources`, and the class `ChromaRetriever` |
| `Agent` | `agent.dfy` | the style-profile aspect loop, prompt composition, and generation |

Chroma is modelled as the class `Chroma.Store`. It holds a map from collection names to
sequences of records, and its methods change that map in place. The embedding model and the
nearest-neighbour search are one oracle, `Ranker`. It is fixed for the whole store. Given a
query text, a collection and `n`, it picks at most `n` distinct records of that collection.
The generation service is a function parameter `ollama` from a request to a reply. Reading
a file is the parameter `read`, and langchain's text splitter is the parameter `chunker`.

Two points about the order and the ids of the code:

- `generateInUserVoice` checks `count() == 0` before it looks at the prompt. So on an empty
  collection an empty prompt gets the "no samples" answer, not an error (`agent.py:82-91`).
- Re-uploading replaces a file's earlier records by fetching their ids by source and
  deleting those ids. Chroma keeps ids unique within a collection, so the fetched ids belong
  to that file's records only. The model's `Chroma.Store.Add` appends without that check, so
  two records may share an id in the model. Some lemmas therefore assume `NoIdClash`: no
  record of another source shares an id with a record of the file. Under Chroma's unique
  ids this always holds.

## Model

| member | source | states |
|---|---|---|
| IngestDocs.ExtractorFor | rag/ingestDocs.py:46-56 | an extractor exists exactly for the four supported extensions; the PDF extractor is chosen exactly for `.pdf`, the text extractor exactly for `.txt` and `.md`, the DOCX extractor exactly for `.docx` |
| IngestDocs.ExtractText | rag/ingestDocs.py:46-56 | extraction fails exactly when the lower-cased suffix is unsupported, and the error names that lower-cased suffix; otherwise the text is what the extractor for that suffix reads |
| IngestDocs.ChunkMetadata | rag/ingestDocs.py:85-89 | the metadata of chunk `i` has the file name as source, `i` as index, and the lower-cased suffix as file type, so the file type has the suffix's length and no capital |
| IngestDocs.ChunkIdLayout | rag/ingestDocs.py:90 | a chunk id is the stem, `-c`, then decimal digits whose value is the chunk index |
| IngestDocs.ChunkMetadatas | rag/ingestDocs.py:85-89 | metadata `i` is `{source: file name, fileType: lower-cased suffix, chunkIndex: i}`, one per chunk |
| IngestDocs.ChunkIds | rag/ingestDocs.py:90 | id `i` is `stem + "-c" + str(i)`, one per chunk |
| IngestDocs.ChunkIdInjective | rag/ingestDocs.py:90 | within one stem, equal chunk ids mean equal chunk indices |
| IngestDocs.BatchIdsDistinct | rag/ingestDocs.py:83-90 | the ids built for one file are pairwise distinct |
| IngestDocs.BatchIdsStable | rag/ingestDocs.py:90 | the id list depends only on the stem and the number of chunks, so re-ingesting a file yields the same ids |
| IngestDocs.BatchFor | rag/ingestDocs.py:79-92 | the three lists have one entry per chunk |
| IngestDocs.BuildBatch | rag/ingestDocs.py:79-92 | the loop leaves documents equal to the chunks in order, and the metadata and ids described above |
| IngestDocs.IngestFile | rag/ingestDocs.py:72-92 | an unsupported suffix raises the dispatch error; otherwise the result is the batch built from the chunks of the extracted text |
| IngestDocs.BatchRecordsHaveSource | rag/ingestDocs.py:85-86 | every record built for a file carries that file name as its source |
| Chroma.SourceOf | rag/tools/vectorStore.py:66 | the source of a record is its `source` entry, or `"unknown"` when the entry is missing |
| Chroma.RemoveIds | rag/tools/vectorStore.py:73 | `delete(ids=...)` keeps exactly the records whose id is not listed, and never adds one |
| Chroma.Filter | rag/ingestDocs.py:130 | `get(where=...)` keeps exactly the records that satisfy the filter, in order |
| Chroma.IdsWithSource | rag/ingestDocs.py:130 | one id is fetched per record of the source; the ids include the id of every record of that source, and each is the id of a record of that source |
| Chroma.SourceGoneAfterDelete | rag/tools/vectorStore.py:71-73 | after deleting the fetched ids, no record of that source remains |
| Chroma.OthersKeptAfterDelete | rag/tools/vectorStore.py:71-73 | deleting ids that no record of another source uses keeps every record of other sources |
| Chroma.DeleteRemovesExactlySource | rag/tools/vectorStore.py:69-74 | when no id is shared across sources, deleting a source's ids leaves exactly the records of the other sources |
| Chroma.RemoveOwnIds | rag/ingestDocs.py:130-134 | deleting the ids of just-appended records removes exactly those records, when no earlier record shares their ids |
| Chroma.Query | rag/tools/vectorStore.py:48 | the three response lists are aligned and hold at most `n_results` entries |
| Chroma.Store.GetOrCreate | rag/tools/vectorStore.py:30-33 | the collection exists afterwards; an existing collection keeps its records and a new one is empty |
| Chroma.Store.Delete | rag/tools/vectorStore.py:73 | the records whose id is listed are removed and no other collection changes |
| Chroma.Store.Add | rag/ingestDocs.py:134 | the zipped records are appended to the collection and no other collection changes |
| IngestDocs.ReplaceSourceShape | rag/ingestDocs.py:129-134 | the replacement ends with the new records, and every record before them is an earlier record of another source |
| IngestDocs.ReplaceSourceExact | rag/ingestDocs.py:129-134 | after the replacement, the records of the file are exactly the new ones, in order |
| IngestDocs.ReplaceSourceKeepsOthers | rag/ingestDocs.py:129-134 | the replacement leaves the records of every other source unchanged, given `NoIdClash` |
| IngestDocs.ReplaceSourceIdempotent | rag/ingestDocs.py:129-134 | when no record of another file already uses one of the new ids, replacing a file's records twice with the same records equals replacing them once, so re-upload does not duplicate chunks |
| IngestDocs.KeptRecordsOfOtherSources | rag/ingestDocs.py:130-132 | the records a deletion by source keeps are records of the collection that belong to other sources |
| IngestDocs.IngestPlan | rag/ingestDocs.py:106-115 | an unsupported suffix is rejected before extraction, with the suffix as written; a supported file fails exactly when it yields no chunk; otherwise the batch is the one built from its chunks |
| IngestDocs.StoreBatch | rag/ingestDocs.py:124-140 | get-or-create, delete-by-source and add leave the collection equal to the replacement; the count is its new size |
| IngestDocs.IngestForUser | rag/ingestDocs.py:95-141 | on error the store is unchanged; on success only the user's collection changes, it becomes the replacement, and the summary reports the collection name, the file name, the chunk count and the new total; no other user's collection changes |
| Namespace.CollectionName | rag/ingestDocs.py:118 | the name is `user_`, then the user id, then `_writings` |
| Namespace.UserOfCollectionName | rag/tools/vectorStore.py:26 | the user id can be read back from the collection name |
| Namespace.CollectionNameInjective | rag/ingestDocs.py:117-118 | distinct users get distinct collections |
| VectorStore.ChromaRetriever.constructor | rag/tools/vectorStore.py:16-33 | the retriever is bound to `user_{userId}_writings`, the same name ingestion uses, and that collection is created if missing |
| VectorStore.EffectiveLimit | rag/tools/vectorStore.py:40 | `limit or self.maxResults`: a missing or zero limit gives `maxResults`, any other limit is used as given |
| VectorStore.RetrieveFrom | rag/tools/vectorStore.py:35-61 | an empty query fails; an empty collection gives `[]`; failure happens exactly for an empty query or a non-positive effective limit on a non-empty collection; results never outnumber the records or the effective limit |
| VectorStore.FalsyLimitIsDefault | rag/tools/vectorStore.py:40 | a limit of `None`, of `0`, or equal to `maxResults` gives the same retrieval |
| VectorStore.RetrieveDrawnFrom | rag/tools/vectorStore.py:46-61 | each result is a distinct record of the collection, with its document and metadata |
| VectorStore.ShapeResults | rag/tools/vectorStore.py:54-61 | one result per returned document |
| VectorStore.ShapeResultsFallbacks | rag/tools/vectorStore.py:54-61 | result `i` holds document `i`; a missing metadata entry becomes `{}` and a missing distance becomes `None` |
| VectorStore.Sources | rag/tools/vectorStore.py:65-66 | a name is listed exactly when some record has it as source, with `"unknown"` for a record without one |
| VectorStore.SourceListing | rag/tools/vectorStore.py:63-67 | the listing is strictly sorted, so it has no duplicates, and holds exactly the sources of the records |
| VectorStore.SourceListingUnique | rag/tools/vectorStore.py:63-67 | any strictly sorted list of exactly those sources is the listing |
| VectorStore.ChromaRetriever.Retrieve | rag/tools/vectorStore.py:35-61 | on the retriever's collection as it is now, retrieval fails exactly for an empty query or a non-positive effective limit on a non-empty collection, and never returns more results than records |
| VectorStore.ChromaRetriever.ListSources | rag/tools/vectorStore.py:63-67 | the listing of the retriever's collection is strictly sorted and holds exactly its records' sources |
| VectorStore.ChromaRetriever.Count | rag/tools/vectorStore.py:76-77 | the count is the number of records in the collection, and it is zero exactly when no source is listed |
| VectorStore.ChromaRetriever.DeleteSource | rag/tools/vectorStore.py:69-74 | returns the number of records of the file; afterwards none remains; given `NoIdClash` every other record is kept in order; nothing changes when the count is 0 |
| Ordering.Less | rag/tools/vectorStore.py:67 | Python's `<` on strings, under which a proper prefix comes first |
| Ordering.LessIrreflexive | rag/tools/vectorStore.py:67 | no string is less than itself |
| Ordering.LessTransitive | rag/tools/vectorStore.py:67 | string order is transitive |
| Ordering.LessTotal | rag/tools/vectorStore.py:67 | of two distinct strings one is less than the other |
| Ordering.LessAsymmetric | rag/tools/vectorStore.py:67 | two strings are never each less than the other |
| Ordering.Insert | rag/tools/vectorStore.py:67 | inserting into a strictly sorted list keeps it strictly sorted and adds exactly that element |
| Ordering.SortedDistinct | rag/tools/vectorStore.py:66-67 | `sorted(set(xs))` is strictly sorted and holds exactly the elements of `xs` |
| Ordering.StrictlySortedUnique | rag/tools/vectorStore.py:66-67 | two strictly sorted lists with the same elements are equal |
| Paths.Suffix | rag/ingestDocs.py:48 | the suffix is empty exactly when the name has no dot or its last dot is the first or the last character; otherwise it is the name's ending from its last dot |
| Paths.StemThenSuffix | rag/ingestDocs.py:90 | `path.stem` followed by the suffix is the whole name, and a name without a suffix is its own stem |
| Text.Lower | rag/ingestDocs.py:48 | lower-casing keeps the length, maps each character, and leaves no ASCII capital |
| Text.LowerIdempotent | rag/ingestDocs.py:87 | lower-casing twice is lower-casing once |
| Text.NatToString | rag/ingestDocs.py:90 | `str(i)` is a non-empty string of decimal digits with no leading zero; `0` gives `"0"` |
| Text.DecimalRoundTrip | rag/ingestDocs.py:90 | reading the digits of `str(i)` back gives `i` |
| Text.NatToStringInjective | rag/ingestDocs.py:90 | distinct indices have distinct decimal texts |
| Text.JoinEnds | rag/agents/agent.py:92 | `sep.join(parts)` of no part is `""`; otherwise it starts with the first part and ends with the last |
| Text.JoinSnoc | rag/agents/agent.py:92 | joining one more part appends the separator and that part |
| Text.JoinLength | rag/agents/agent.py:41 | a join holds every character of the parts plus one separator between neighbours |
| Text.Strip | rag/agents/agent.py:55 | the result has no whitespace at either end and is the slice of the input surrounded only by whitespace |
| Text.StripKeepsTrimmed | rag/agents/agent.py:125 | text with no whitespace at either end is unchanged |
| Text.StripIdempotent | rag/agents/agent.py:125 | stripping twice is stripping once |
| Agent.ReplyText | rag/agents/agent.py:54-55 | an error status fails with that status; a missing `"response"` gives `""`; the text is the stripped response |
| Agent.Documents | rag/agents/agent.py:92 | the documents of the results, one per result, in order |
| Agent.DrawnDocuments | rag/agents/agent.py:34-36 | every document of a retrieval is the document of a record of the collection |
| Agent.RetrieveNonEmptySucceeds | rag/agents/agent.py:34 | a non-empty query with a positive limit never fails, and gives at most `limit` results |
| Agent.CollectSamples | rag/agents/agent.py:25-36 | after `k` aspects, at most `2k` samples, none from an empty collection, each a document of the collection |
| Agent.AspectSamples | rag/agents/agent.py:25-41 | four aspects of at most two results give at most eight samples, so the cap never binds |
| Agent.Take | rag/agents/agent.py:41 | `samples[:8]` is a prefix of at most eight samples, and is the whole list when it is short enough |
| Agent.ProfileRequest | rag/agents/agent.py:41-53 | the request uses `llama3.2`, has no system prompt, does not stream, and for up to eight samples its prompt is the instruction, `SAMPLES:` and all samples joined by the delimiter |
| Agent.StyleProfile | rag/agents/agent.py:20-55 | no samples gives the sentinel; otherwise the profile is the reply to the profile request; it fails exactly on an error status; the profile has no surrounding whitespace |
| Agent.NoSamplesNoRequest | rag/agents/agent.py:38-39 | on an empty collection the profile is the sentinel whatever the service would answer |
| Agent.AppendDocuments | rag/agents/agent.py:35-36 | the inner loop appends the documents of the results in order |
| Agent.GatherSamples | rag/agents/agent.py:32-36 | the aspect loop collects the samples of the aspects in declared order, each with `limit=2` |
| Agent.BuildStyleProfile | rag/agents/agent.py:20-55 | the method returns `StyleProfile` of what the retriever sees |
| Agent.SystemPrompt | rag/agents/agent.py:99-106 | the system prompt is the preamble and profile heading, the profile, a blank line and the samples heading, then the writing context, with nothing else |
| Agent.UserMessage | rag/agents/agent.py:108-110 | the message is `Task: ` and the prompt, followed by the guidance label and the hint exactly when the hint is non-empty |
| Agent.SourcesOf | rag/agents/agent.py:93 | a source is reported exactly when some retrieved chunk has it, `"unknown"` for none |
| Agent.SourcesUsedAreListed | rag/agents/agent.py:93 | every source of a retrieval is listed by `listSources` |
| Agent.Generate | rag/agents/agent.py:77-131 | an empty collection gives the no-samples answer and only it does; otherwise an empty prompt fails; a generated answer carries the style profile and the sources of the retrieval for the prompt; its text is the one `GeneratedFromRequest` describes |
| Agent.WritingContextOrder | rag/agents/agent.py:92 | the writing context opens with the first result's document and closes with the last one's, and its length is the documents' total plus one delimiter per gap |
| Agent.WritingContextSnoc | rag/agents/agent.py:92 | the context of `n + 1` results is the context of the first `n`, the delimiter, and the last result's document, so every document appears in retrieval order with one delimiter between neighbours |
| Agent.ProfileFailurePropagates | rag/agents/agent.py:54-96 | on a non-empty collection with a non-empty prompt, a failing profile request fails the call with the profile's error |
| Agent.GeneratedFromRequest | rag/agents/agent.py:92-125 | a generated text is the stripped reply to one request: `llama3.2`, not streamed, the user message as prompt, and as system prompt the style profile with the documents retrieved for the prompt joined in retrieval order; a missing `"response"` gives `""` |
| Agent.GenerationHttpFailure | rag/agents/agent.py:114-123 | an error status on the generation request fails the call with that status |
| Agent.GeneratedSourcesAreListed | rag/agents/agent.py:91-93 | every reported source is one the collection lists |
| Agent.EmptyCollectionAnswer | rag/agents/agent.py:82-88 | the no-samples answer depends on neither prompt, hint nor service |
| Agent.GenerateSucceeds | rag/agents/agent.py:91-131 | with records, a non-empty prompt and a service that answers, text is generated |
| Agent.GenerateInUserVoice | rag/agents/agent.py:58-131 | the store only gets the user's collection created if missing, and the result is `Generate` of what the retriever sees |
| Agent.UserMessageAsWritten | rag/agents/agent.py:108-110 | as written, any non-empty hint raises `NameError` for `style_hint` |
| Agent.GenerateAsWritten | rag/agents/agent.py:82-125 | as written, the only successful result is the no-samples answer |
| Agent.AsWrittenNeverGenerates | rag/agents/agent.py:108-125 | where the corrected agent generates text, the code as written raises `NameError` or `AttributeError` |

## Left out

- `app.py` and `rag/tools/retrievalTool.py` are not part of this model. They are HTTP routing and a tool wrapper that only delegates to `retrieve`.
- File parsing in `extractPdf`, `extractTxt` and `extractDocx` is left out. Reading a file is the parameter `read`, which gives the text of each extractor.
- IngestDocs.ExtractText: `read` is total, so an extractor that raises on an unreadable or corrupt file is not modelled. Such a file fails in the code but not in the model.
- Namespace.CollectionName: Chroma's rules for collection names (allowed characters, length) are not modelled. `get_or_create_collection` rejects a `user_{userId}_writings` that breaks them, but in the model every user id gives a usable collection.
- `chunkText` is the parameter `chunker`, with no size or overlap bound, because langchain's splitter is not visible.
- Embeddings and similarity ranking are the oracle `Ranker`. Distances are reals, and no order among distances is assumed.
- The HTTP calls to Ollama, the JSON decoding of its replies, and connection failures are left out. The service is the parameter `ollama`, and an HTTP error status is the reply `HttpFailure`.
- Persistence, concurrency, and the atomicity of delete-then-add are left out. The store is in memory and each operation runs alone.
- Chroma.Store.Add: appends even when an id already exists, because what Chroma does with duplicate ids is library-defined.
- IngestDocs.ReplaceSourceKeepsOthers: holds only under `NoIdClash`, because the model's `Add` admits duplicate ids. Two files with one stem, such as `a.txt` and `a.md`, get the same ids. What `collection.add` then does in Chroma is library-defined and not modelled.
- VectorStore.ChromaRetriever.DeleteSource: "other records unchanged" likewise holds only under `NoIdClash`.
- VectorStore.RetrieveFrom: Chroma's refusal of `n_results < 1` is the error `InvalidResultCount`, reachable on a non-empty collection only with a negative limit, or with a falsy limit (`None` or `0`) and a `maxResults` below 1. The ranking itself is the oracle, so the contract bounds the number of results rather than stating which records come back.
- Text.Lower: lower-cases ASCII letters only. Python's full Unicode case mapping is not modelled, and the supported extensions are ASCII.
- Paths.Suffix: follows Python 3.8 to 3.13, where a name ending in a dot has no suffix.
- Agent.SourcesOf: `sourcesUsed` is a set, because `list(set(...))` has no defined order.
- Exception messages are not modelled. Each exception is an `Errors.Error` constructor with its distinguishing value.

## Findings

| source | as written | input that shows it | evidently intended | confidence | as-written member | corrected member |
|---|---|---|---|---|---|---|
| rag/agents/agent.py:110 | the guidance is appended from `style_hint`, a name that is not defined | any non-empty `styleHint`, on a non-empty collection with a non-empty prompt and a profile request that succeeds, raises `NameError` | append `"\nAdditional guidance: " + styleHint` | high, not executed | Agent.UserMessageAsWritten | Agent.UserMessage |
| rag/agents/agent.py:123 | the reply is checked with `response.raiseForStatus()`, which a `requests` response does not have | a non-empty collection, a non-empty prompt, an empty hint, and a service that answers: `AttributeError`, so no text is ever generated | `response.raise_for_status()`, as at line 54 | high, not executed | Agent.GenerateAsWritten | Agent.Generate |
