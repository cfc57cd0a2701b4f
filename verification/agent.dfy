/** rag/agents/agent.py: the writing agent. It samples the user's collection to get a style
    profile from the generation service, retrieves the chunks closest to the request, and
    composes the request that asks for text in the user's voice.

    The generation service (Ollama's `/api/generate`, reached over HTTP) is the parameter
    `ollama`: the reply it gives to a request. */
module Agent {
  import opened Wrappers
  import opened Errors
  import opened Text
  import opened Chroma
  import opened Ordering
  import opened VectorStore
  import opened Namespace

  // ------------------------------------------------------------ constants

  const OllamaModel := "llama3.2"

  /** How many retrieved chunks give the writing context. */
  const TopK := 6

  /** The four aspects sampled for the style profile, in the order they are queried. */
  const Aspects: seq<string> := [
    "descriptive prose and scene setting",
    "dialogue and character voice",
    "sentence rhythm and pacing",
    "emotional tone and atmosphere"
  ]

  /** Results taken per aspect. */
  const SamplesPerAspect := 2

  /** At most this many samples reach the analyst prompt. */
  const SampleCap := 8

  /** The separator between samples, and between chunks of the writing context. */
  const Delimiter := "\n\n---\n\n"

  /** The profile returned when the collection yields no sample. */
  const NoSamplesProfile := "No writing samples available yet."

  /** The error text of the early return on an empty collection. */
  const NoSamplesError := "No writing samples uploaded yet. Please upload some of your work first."

  /** The fixed opening of the profile prompt. */
  const AnalystInstruction :=
    "You are a literary analyst. Read these writing samples from a single author "
    + "and describe their style in 3-4 sentences covering: sentence length and rhythm, "
    + "vocabulary level, tone, and any distinctive habits. Be specific and concise.\n\n"

  const SamplesHeading := "SAMPLES:\n"

  /** The fixed opening of the system prompt. */
  const WriterPreamble :=
    "You are a writing assistant that generates text ONLY in the style of the provided author samples. "
    + "Study the samples carefully \U{2014} their voice, rhythm, word choices, and structure \U{2014} then continue "
    + "or create new content that is indistinguishable from their own writing. "
    + "Do NOT default to a generic style. Mirror the author exactly.\n\n"

  const ProfileHeading := "AUTHOR STYLE PROFILE:\n"
  const ContextHeading := "WRITING SAMPLES FROM THIS AUTHOR:\n"
  const TaskLabel := "Task: "
  const GuidanceLabel := "\nAdditional guidance: "

  // ------------------------------------------------------------ the generation service

  /** The JSON body posted to the service; `system` absent is `None`. */
  datatype OllamaRequest = OllamaRequest(model: string, prompt: string, system: Option<string>, stream: bool)

  /** What comes back: an error status (which `raise_for_status` turns into an exception),
      or a body whose `"response"` key may be missing. */
  datatype OllamaReply =
    | HttpFailure(status: int)
    | Reply(response: Option<string>)

  /** `resp.raise_for_status()` then `resp.json().get("response", "").strip()`. */
  function ReplyText(reply: OllamaReply): (r: Result<string, Error>)
    ensures reply.HttpFailure? <==> r.Err?
    ensures reply.HttpFailure? ==> r == Err(UpstreamHttpError(reply.status))
    ensures reply == Reply(None) ==> r == Ok("")
    ensures r.Ok? ==> Stripped(r.value)
    ensures reply.Reply? && reply.response.Some? ==> exists i :: Trimmed(reply.response.value, r.value, i)
  {
    match reply
    case HttpFailure(status) => Err(UpstreamHttpError(status))
    case Reply(response) => Ok(Strip(response.GetOr("")))
  }

  /** Text with no whitespace at either end. */
  predicate Stripped(s: string) {
    s == [] || (!IsSpace(s[0]) && !IsSpace(s[|s| - 1]))
  }

  // ------------------------------------------------------------ style profile

  /** The `"document"` of each result, in order. */
  function Documents(results: seq<RetrievalResult>): (ds: seq<string>)
    ensures |ds| == |results|
    ensures forall i :: 0 <= i < |results| ==> ds[i] == results[i].document
  {
    seq(|results|, i requires 0 <= i < |results| => results[i].document)
  }

  /** A result drawn from a collection carries the document of one of its records. */
  lemma DrawnDocuments(results: seq<RetrievalResult>, records: seq<Record>)
    requires DrawnFrom(results, records)
    ensures forall d :: d in Documents(results) ==> exists x :: x in records && x.document == d
  {
    var hits: seq<Hit> :| WellRanked(hits, |records|, |results|) && |hits| == |results|
      && forall i :: 0 <= i < |results| ==> results[i] == ResultFor(records[hits[i].index], hits[i].distance);
    forall d | d in Documents(results) ensures exists x :: x in records && x.document == d {
      var i :| 0 <= i < |results| && Documents(results)[i] == d;
      assert records[hits[i].index].document == d;
    }
  }

  /** A query that is not empty and asks for at least one result never fails. */
  lemma RetrieveNonEmptySucceeds(v: CollectionView, query: string, limit: nat)
    requires query != "" && limit >= 1
    ensures RetrieveFrom(v, query, Some(limit)).Ok?
    ensures |RetrieveFrom(v, query, Some(limit)).value| <= limit
  {
  }

  /** The samples the aspect loop has collected after the first `k` aspects: for each
      aspect in order, the documents of its results in rank order. */
  function CollectSamples(v: CollectionView, aspects: seq<string>, k: nat): (samples: seq<string>)
    requires k <= |aspects|
    requires forall i :: 0 <= i < |aspects| ==> aspects[i] != ""
    ensures |samples| <= SamplesPerAspect * k
    ensures |v.records| == 0 ==> samples == []
    ensures forall d :: d in samples ==> exists x :: x in v.records && x.document == d
  {
    if k == 0 then []
    else
      var earlier := CollectSamples(v, aspects, k - 1);
      RetrieveNonEmptySucceeds(v, aspects[k - 1], SamplesPerAspect);
      var results := RetrieveFrom(v, aspects[k - 1], Some(SamplesPerAspect)).value;
      RetrieveDrawnFrom(v, aspects[k - 1], Some(SamplesPerAspect));
      DrawnDocuments(results, v.records);
      earlier + Documents(results)
  }

  lemma AspectsNonEmpty()
    ensures forall i :: 0 <= i < |Aspects| ==> Aspects[i] != ""
  {
  }

  /** The samples collected over the four aspects: at most two per aspect, each the
      document of a record of the collection. */
  function AspectSamples(v: CollectionView): (samples: seq<string>)
    ensures |samples| <= SampleCap
    ensures |v.records| == 0 ==> samples == []
    ensures forall d :: d in samples ==> exists x :: x in v.records && x.document == d
  {
    AspectsNonEmpty();
    CollectSamples(v, Aspects, |Aspects|)
  }

  /** `s[:n]`: the first `n` elements, or all of them when there are fewer. */
  function Take(s: seq<string>, n: nat): (r: seq<string>)
    ensures |r| <= n && |r| <= |s|
    ensures r == s[..|r|]
    ensures |s| <= n ==> r == s
    ensures |s| > n ==> |r| == n
  {
    if |s| <= n then s else s[..n]
  }

  /** The request asking the analyst to describe the samples: the first `SampleCap` of them,
      joined by the delimiter, after the fixed instruction. */
  function ProfileRequest(samples: seq<string>): (req: OllamaRequest)
    ensures req.model == OllamaModel && req.system == None && !req.stream
    ensures |samples| <= SampleCap ==> req.prompt == AnalystInstruction + SamplesHeading + Join(samples, Delimiter)
  {
    OllamaRequest(OllamaModel, AnalystInstruction + SamplesHeading + Join(Take(samples, SampleCap), Delimiter), None, false)
  }

  /** `buildStyleProfile(retriever)` on what the retriever sees. */
  function StyleProfile(v: CollectionView, ollama: OllamaRequest -> OllamaReply): (r: Result<string, Error>)
    ensures AspectSamples(v) == [] ==> r == Ok(NoSamplesProfile)
    ensures AspectSamples(v) != [] ==> r == ReplyText(ollama(ProfileRequest(AspectSamples(v))))
    ensures r.Err? <==> AspectSamples(v) != [] && ollama(ProfileRequest(AspectSamples(v))).HttpFailure?
    ensures r.Ok? ==> Stripped(r.value)
  {
    var samples := AspectSamples(v);
    if samples == [] then
      assert Stripped(NoSamplesProfile) by {
        assert NoSamplesProfile[0] == 'N';
        assert NoSamplesProfile[|NoSamplesProfile| - 1] == '.';
      }
      Ok(NoSamplesProfile)
    else ReplyText(ollama(ProfileRequest(samples)))
  }

  /** With no sample the profile is the sentinel whatever the service would answer: no
      request is made. */
  lemma NoSamplesNoRequest(v: CollectionView, o1: OllamaRequest -> OllamaReply, o2: OllamaRequest -> OllamaReply)
    requires |v.records| == 0
    ensures StyleProfile(v, o1) == StyleProfile(v, o2) == Ok(NoSamplesProfile)
  {
    AspectsNonEmpty();
  }

  /** The aspect loop of `buildStyleProfile`: queries each aspect in order for two results
      and appends their documents in rank order. */
  method GatherSamples(retriever: ChromaRetriever, aspects: seq<string>) returns (samples: seq<string>)
    requires forall i :: 0 <= i < |aspects| ==> aspects[i] != ""
    ensures samples == CollectSamples(retriever.View(), aspects, |aspects|)
  {
    ghost var v := retriever.View();
    samples := [];
    var k := 0;
    while k < |aspects|
      invariant 0 <= k <= |aspects|
      invariant samples == CollectSamples(v, aspects, k)
    {
      RetrieveNonEmptySucceeds(v, aspects[k], SamplesPerAspect);
      var results := retriever.Retrieve(aspects[k], Some(SamplesPerAspect)).value;
      samples := AppendDocuments(samples, results);
      k := k + 1;
    }
  }

  /** The inner loop of `buildStyleProfile`: appends the document of each result in turn. */
  method AppendDocuments(samples: seq<string>, results: seq<RetrievalResult>) returns (out: seq<string>)
    ensures out == samples + Documents(results)
  {
    out := samples;
    var j := 0;
    while j < |results|
      invariant 0 <= j <= |results|
      invariant |out| == |samples| + j
      invariant forall t :: 0 <= t < |samples| ==> out[t] == samples[t]
      invariant forall t :: 0 <= t < j ==> out[|samples| + t] == results[t].document
    {
      out := out + [results[j].document];
      j := j + 1;
    }
  }

  /** `buildStyleProfile(retriever)`: the sentinel when no sample was gathered, otherwise the
      service's description of at most eight samples. */
  method BuildStyleProfile(retriever: ChromaRetriever, ollama: OllamaRequest -> OllamaReply)
    returns (r: Result<string, Error>)
    ensures r == StyleProfile(retriever.View(), ollama)
  {
    AspectsNonEmpty();
    var samples := GatherSamples(retriever, Aspects);
    if samples == [] {
      return Ok(NoSamplesProfile);
    }
    var combined := Join(Take(samples, SampleCap), Delimiter);
    var reply := ollama(OllamaRequest(OllamaModel, AnalystInstruction + SamplesHeading + combined, None, false));
    r := ReplyText(reply);
  }

  // ------------------------------------------------------------ generation request

  /** The system prompt: the preamble, the style profile and the writing context, each
      under its heading. */
  function SystemPrompt(profile: string, context: string): (s: string)
    ensures |s| == |WriterPreamble| + |ProfileHeading| + |profile| + 2 + |ContextHeading| + |context|
    ensures s[..|WriterPreamble| + |ProfileHeading|] == WriterPreamble + ProfileHeading
    ensures s[|WriterPreamble| + |ProfileHeading|..|WriterPreamble| + |ProfileHeading| + |profile|] == profile
    ensures s[|WriterPreamble| + |ProfileHeading| + |profile|..|s| - |context|] == "\n\n" + ContextHeading
    ensures s[|s| - |context|..] == context
  {
    WriterPreamble + ProfileHeading + profile + "\n\n" + ContextHeading + context
  }

  /** The user message: the task, then the extra guidance when one is given. */
  function UserMessage(prompt: string, hint: string): (m: string)
    ensures |m| >= |TaskLabel| + |prompt|
    ensures m[..|TaskLabel|] == TaskLabel && m[|TaskLabel|..|TaskLabel| + |prompt|] == prompt
    ensures hint == "" ==> |m| == |TaskLabel| + |prompt|
    ensures hint != "" ==> |m| == |TaskLabel| + |prompt| + |GuidanceLabel| + |hint|
                           && m[|TaskLabel| + |prompt|..|TaskLabel| + |prompt| + |GuidanceLabel|] == GuidanceLabel
                           && m[|m| - |hint|..] == hint
  {
    var task := TaskLabel + prompt;
    if hint != "" then task + GuidanceLabel + hint else task
  }

  /** The distinct sources of the results, `"unknown"` for a result without one. */
  function SourcesOf(results: seq<RetrievalResult>): (sources: set<string>)
    ensures forall s :: s in sources <==> exists i :: 0 <= i < |results| && SourceOf(results[i].metadata) == s
  {
    var sources := set r | r in results :: SourceOf(r.metadata);
    assert forall i :: 0 <= i < |results| ==> SourceOf(results[i].metadata) in sources by {
      forall i | 0 <= i < |results| ensures SourceOf(results[i].metadata) in sources {
        assert results[i] in results;
      }
    }
    sources
  }

  /** Every source reported as used is a source the collection lists. */
  lemma SourcesUsedAreListed(results: seq<RetrievalResult>, records: seq<Record>)
    requires DrawnFrom(results, records)
    ensures forall s :: s in SourcesOf(results) ==> s in SourceListing(records)
  {
    var hits: seq<Hit> :| WellRanked(hits, |records|, |results|) && |hits| == |results|
      && forall i :: 0 <= i < |results| ==> results[i] == ResultFor(records[hits[i].index], hits[i].distance);
    forall s | s in SourcesOf(results) ensures s in SourceListing(records) {
      var i :| 0 <= i < |results| && SourceOf(results[i].metadata) == s;
      var x := records[hits[i].index];
      assert x in records && SourceOf(x.metadata) == s;
    }
  }

  /** The dictionary `generateInUserVoice` returns: the "no samples" answer (whose
      `generatedText` and `styleProfile` are `None` and `sourcesUsed` empty), or the text. */
  datatype Generation =
    | NoSamples(error: string)
    | Generated(generatedText: string, styleProfile: string, sourcesUsed: set<string>)

  /** `generateInUserVoice(prompt, userId, ..., styleHint)` on what the retriever sees. */
  function Generate(v: CollectionView, prompt: string, hint: string, ollama: OllamaRequest -> OllamaReply)
    : (r: Result<Generation, Error>)
    ensures |v.records| == 0 ==> r == Ok(NoSamples(NoSamplesError))
    ensures |v.records| > 0 && prompt == "" ==> r == Err(EmptyQuery)
    ensures r == Ok(NoSamples(NoSamplesError)) <==> |v.records| == 0
    ensures r.Ok? && r.value.Generated? ==> StyleProfile(v, ollama) == Ok(r.value.styleProfile)
    ensures r.Ok? && r.value.Generated? ==>
              && RetrieveFrom(v, prompt, Some(TopK)).Ok?
              && r.value.sourcesUsed == SourcesOf(RetrieveFrom(v, prompt, Some(TopK)).value)
  {
    if |v.records| == 0 then Ok(NoSamples(NoSamplesError))
    else
      var retrieved := RetrieveFrom(v, prompt, Some(TopK));
      if retrieved.Err? then Err(retrieved.error)
      else
        var relevant := retrieved.value;
        var context := WritingContext(relevant);
        var profile := StyleProfile(v, ollama);
        if profile.Err? then Err(profile.error)
        else
          var reply := ollama(OllamaRequest(OllamaModel, UserMessage(prompt, hint), Some(SystemPrompt(profile.value, context)), false));
          var generated := ReplyText(reply);
          if generated.Err? then Err(generated.error)
          else Ok(Generated(generated.value, profile.value, SourcesOf(relevant)))
  }

  /** The writing context: the documents of the retrieved chunks, in retrieval order, joined by
      the delimiter. */
  function WritingContext(results: seq<RetrievalResult>): string {
    Join(Documents(results), Delimiter)
  }

  /** The context opens with the first result's document, closes with the last one's,
      and holds every document with one delimiter between neighbours. */
  lemma WritingContextOrder(results: seq<RetrievalResult>)
    requires |results| > 0
    ensures var c := WritingContext(results);
            && |results[0].document| <= |c|
            && c[..|results[0].document|] == results[0].document
            && |results[|results| - 1].document| <= |c|
            && c[|c| - |results[|results| - 1].document|..] == results[|results| - 1].document
            && |c| == TotalLength(Documents(results)) + (|results| - 1) * |Delimiter|
  {
    JoinEnds(Documents(results), Delimiter);
    JoinLength(Documents(results), Delimiter);
  }

  /** The context of the first `n + 1` results is the context of the first `n`, the delimiter,
      and the document of result `n`: the documents appear in retrieval order, one delimiter
      between neighbours. */
  lemma WritingContextSnoc(results: seq<RetrievalResult>)
    requires |results| > 1
    ensures WritingContext(results) ==
              WritingContext(results[..|results| - 1]) + Delimiter + results[|results| - 1].document
  {
    var init := results[..|results| - 1];
    assert Documents(results) == Documents(init) + [results[|results| - 1].document];
    JoinSnoc(Documents(init), results[|results| - 1].document, Delimiter);
  }

  /** A generated text is the stripped reply to one request: the `llama3.2` model, not
      streamed, with the user message as prompt and, as system prompt, the style profile and
      the documents retrieved for the prompt, joined in rank order. */
  lemma GeneratedFromRequest(v: CollectionView, prompt: string, hint: string, ollama: OllamaRequest -> OllamaReply)
    requires Generate(v, prompt, hint, ollama).Ok? && Generate(v, prompt, hint, ollama).value.Generated?
    ensures RetrieveFrom(v, prompt, Some(TopK)).Ok?
    ensures var g := Generate(v, prompt, hint, ollama).value;
            var context := WritingContext(RetrieveFrom(v, prompt, Some(TopK)).value);
            var reply := ollama(OllamaRequest(OllamaModel, UserMessage(prompt, hint), Some(SystemPrompt(g.styleProfile, context)), false));
            && reply.Reply?
            && g.generatedText == ReplyText(reply).value
            && Stripped(g.generatedText)
            && (reply.response.None? ==> g.generatedText == "")
            && (reply.response.Some? ==> exists i :: Trimmed(reply.response.value, g.generatedText, i))
  {
  }

  /** An error status on the generation request fails the call with that status. */
  lemma GenerationHttpFailure(v: CollectionView, prompt: string, hint: string, ollama: OllamaRequest -> OllamaReply)
    requires |v.records| > 0 && prompt != ""
    requires StyleProfile(v, ollama).Ok?
    requires ollama(OllamaRequest(OllamaModel, UserMessage(prompt, hint),
               Some(SystemPrompt(StyleProfile(v, ollama).value, WritingContext(RetrieveFrom(v, prompt, Some(TopK)).value))), false)).HttpFailure?
    ensures Generate(v, prompt, hint, ollama) == Err(UpstreamHttpError(ollama(OllamaRequest(OllamaModel, UserMessage(prompt, hint),
               Some(SystemPrompt(StyleProfile(v, ollama).value, WritingContext(RetrieveFrom(v, prompt, Some(TopK)).value))), false)).status))
  {
  }

  /** A failing profile request fails the call with the profile's error: the exception that
      `raise_for_status` raises inside `buildStyleProfile` propagates. */
  lemma ProfileFailurePropagates(v: CollectionView, prompt: string, hint: string, ollama: OllamaRequest -> OllamaReply)
    requires |v.records| > 0 && prompt != ""
    requires StyleProfile(v, ollama).Err?
    ensures Generate(v, prompt, hint, ollama) == Err(StyleProfile(v, ollama).error)
  {
    RetrieveNonEmptySucceeds(v, prompt, TopK);
  }

  /** Every source reported as used by a generation is one the collection lists. */
  lemma GeneratedSourcesAreListed(v: CollectionView, prompt: string, hint: string, ollama: OllamaRequest -> OllamaReply)
    requires Generate(v, prompt, hint, ollama).Ok? && Generate(v, prompt, hint, ollama).value.Generated?
    ensures forall s :: s in Generate(v, prompt, hint, ollama).value.sourcesUsed ==> s in SourceListing(v.records)
  {
    var r := Generate(v, prompt, hint, ollama);
    RetrieveDrawnFrom(v, prompt, Some(TopK));
    SourcesUsedAreListed(RetrieveFrom(v, prompt, Some(TopK)).value, v.records);
  }

  /** The early answer on an empty collection depends on nothing else: no retrieval and no
      request is made. */
  lemma EmptyCollectionAnswer(v: CollectionView, p1: string, h1: string, o1: OllamaRequest -> OllamaReply,
                              p2: string, h2: string, o2: OllamaRequest -> OllamaReply)
    requires |v.records| == 0
    ensures Generate(v, p1, h1, o1) == Generate(v, p2, h2, o2) == Ok(NoSamples(NoSamplesError))
  {
  }

  /** With samples to draw on, a request to write something, and a service that answers,
      text is generated. */
  lemma GenerateSucceeds(v: CollectionView, prompt: string, hint: string, ollama: OllamaRequest -> OllamaReply)
    requires |v.records| > 0 && prompt != ""
    requires forall req :: ollama(req).Reply?
    ensures Generate(v, prompt, hint, ollama).Ok?
    ensures Generate(v, prompt, hint, ollama).value.Generated?
  {
    RetrieveNonEmptySucceeds(v, prompt, TopK);
    var profile := StyleProfile(v, ollama);
    assert profile.Ok?;
    var context := WritingContext(RetrieveFrom(v, prompt, Some(TopK)).value);
    var reply := ollama(OllamaRequest(OllamaModel, UserMessage(prompt, hint), Some(SystemPrompt(profile.value, context)), false));
    assert reply.Reply?;
    assert ReplyText(reply).Ok?;
    assert Generate(v, prompt, hint, ollama)
        == Ok(Generated(ReplyText(reply).value, profile.value, SourcesOf(RetrieveFrom(v, prompt, Some(TopK)).value)));
  }

  /** `generateInUserVoice`: binds a retriever to the user's collection (creating it when
      missing) and answers from what it sees. */
  method GenerateInUserVoice(prompt: string, userId: string, store: Store, styleHint: string,
                             ollama: OllamaRequest -> OllamaReply)
    returns (r: Result<Generation, Error>)
    modifies store
    ensures store.collections == old(store.collections)[CollectionName(userId) :=
              old(store.Records(CollectionName(userId)))]
    ensures r == Generate(CollectionView(old(store.Records(CollectionName(userId))), store.rank, DefaultMaxResults),
                          prompt, styleHint, ollama)
  {
    var retriever := new ChromaRetriever(store, userId, DefaultMaxResults);
    if retriever.Count() == 0 {
      return Ok(NoSamples(NoSamplesError));
    }
    var relevant :- retriever.Retrieve(prompt, Some(TopK));
    var context := WritingContext(relevant);
    var sources := SourcesOf(relevant);
    var profile :- BuildStyleProfile(retriever, ollama);
    var system := SystemPrompt(profile, context);
    var userMessage := TaskLabel + prompt;
    if styleHint != "" {
      userMessage := userMessage + GuidanceLabel + styleHint;
    }
    var reply := ollama(OllamaRequest(OllamaModel, userMessage, Some(system), false));
    var generated :- ReplyText(reply);
    return Ok(Generated(generated, profile, sources));
  }

  // ------------------------------------------------------------ the code as written

  /** Lines 108-110 as written: appending the guidance reads `style_hint`, a name that is not
      defined, so any non-empty hint raises `NameError`. */
  function UserMessageAsWritten(prompt: string, hint: string): (r: Result<string, Error>)
    ensures hint == "" ==> r == Ok(UserMessage(prompt, hint))
    ensures hint != "" ==> r == Err(UndefinedName("style_hint"))
  {
    if hint != "" then Err(UndefinedName("style_hint")) else Ok(TaskLabel + prompt)
  }

  /** Lines 82-125 as written: after the request is posted, `response.raiseForStatus()` is
      called, which a `requests` response does not have, so `AttributeError` is raised
      whatever the service answers. */
  function GenerateAsWritten(v: CollectionView, prompt: string, hint: string, ollama: OllamaRequest -> OllamaReply)
    : (r: Result<Generation, Error>)
    ensures r.Ok? ==> r.value == NoSamples(NoSamplesError)
  {
    if |v.records| == 0 then Ok(NoSamples(NoSamplesError))
    else
      var retrieved := RetrieveFrom(v, prompt, Some(TopK));
      if retrieved.Err? then Err(retrieved.error)
      else
        var profile := StyleProfile(v, ollama);
        if profile.Err? then Err(profile.error)
        else
          var userMessage := UserMessageAsWritten(prompt, hint);
          if userMessage.Err? then Err(userMessage.error)
          else Err(MissingAttribute("raiseForStatus"))
  }

  /** Where the corrected agent generates text, the code as written raises instead: with a
      hint the `NameError`, without one the `AttributeError`. */
  lemma AsWrittenNeverGenerates(v: CollectionView, prompt: string, hint: string, ollama: OllamaRequest -> OllamaReply)
    requires |v.records| > 0 && prompt != ""
    requires forall req :: ollama(req).Reply?
    ensures Generate(v, prompt, hint, ollama).Ok? && Generate(v, prompt, hint, ollama).value.Generated?
    ensures hint != "" ==> GenerateAsWritten(v, prompt, hint, ollama) == Err(UndefinedName("style_hint"))
    ensures hint == "" ==> GenerateAsWritten(v, prompt, hint, ollama) == Err(MissingAttribute("raiseForStatus"))
  {
    GenerateSucceeds(v, prompt, hint, ollama);
    RetrieveNonEmptySucceeds(v, prompt, TopK);
  }
}
