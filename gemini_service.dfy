/** The analysis request and its response handling: the credential check, the
    prompt and structured-output schema, the call to the inference service (an
    oracle here), the parse-or-fallback step and the filtering of grounding chunks. */
module GeminiService {
  import opened Wrappers
  import opened Types

  // ---------------------------------------------------------------------------
  // Credential

  /** The credential as read from the environment: an unset variable reads as "". */
  function ApiKeyFrom(env: Option<string>): (key: string)
    ensures key == "" <==> env.None? || env.value == ""
    ensures env.Some? ==> key == env.value
  {
    match env
    case None => ""
    case Some(v) => v
  }

  // ---------------------------------------------------------------------------
  // Errors thrown by the analysis

  /** What the analysis can throw to its caller. */
  datatype ServiceError =
    | MissingApiKey          // raised before any request is made
    | NoResponse             // the service answered without a text payload
    | CallFailed(reason: string)  // the client's own error (network, service, timeout), rethrown

  /** The message each error carries. */
  function ErrorMessage(e: ServiceError): (message: string)
    ensures e == MissingApiKey ==> message == "API Key is missing."
    ensures e == NoResponse ==> message == "No response from AI"
    ensures e.CallFailed? ==> message == e.reason
  {
    match e
    case MissingApiKey => "API Key is missing."
    case NoResponse => "No response from AI"
    case CallFailed(reason) => reason
  }

  // ---------------------------------------------------------------------------
  // Structured-output schema

  /** The JSON types the schema uses. */
  datatype SchemaType = IntegerType | StringType | ArrayType | ObjectType

  /** One property of the response schema. `enumValues` is empty when the property
      has no enumeration; `itemFields` names the fields of an array's item objects. */
  datatype SchemaProperty = SchemaProperty(
    name: string, kind: SchemaType, enumValues: seq<string>, itemFields: seq<string>)

  /** The structured-output constraint sent with the request. */
  datatype ResponseSchema = ResponseSchema(properties: seq<SchemaProperty>, required: seq<string>)

  /** The schema sent with every request (descriptions are not modelled). */
  const AnalysisSchema: ResponseSchema := ResponseSchema(
    [ SchemaProperty("score", IntegerType, [], []),
      SchemaProperty("aiScore", IntegerType, [], []),
      SchemaProperty("plagiarismScore", IntegerType, [], []),
      SchemaProperty("riskLevel", StringType, ["Low", "Medium", "High"], []),
      SchemaProperty("summary", StringType, [], []),
      SchemaProperty("flaggedSegments", ArrayType, [], ["segment", "reason"]) ],
    ["score", "aiScore", "plagiarismScore", "riskLevel", "summary", "flaggedSegments"])

  /** The field names of an analysis, in declaration order. */
  const AnalysisFields: seq<string> :=
    ["score", "aiScore", "plagiarismScore", "riskLevel", "summary", "flaggedSegments"]

  /** The names of a list of schema properties, in order. */
  function PropertyNames(ps: seq<SchemaProperty>): (names: seq<string>)
    ensures |names| == |ps|
    ensures forall i :: 0 <= i < |ps| ==> names[i] == ps[i].name
  {
    if ps == [] then [] else [ps[0].name] + PropertyNames(ps[1..])
  }

  /** The schema declares exactly the fields of an analysis, requires every one of
      them, allows exactly the three risk levels, and describes flagged segments as
      segment/reason pairs: the request and the parsed type stay in step. */
  lemma SchemaMatchesAnalysisType(s: string)
    ensures PropertyNames(AnalysisSchema.properties) == AnalysisFields
    ensures AnalysisSchema.required == AnalysisFields
    ensures AnalysisSchema.properties[3].name == "riskLevel"
    ensures s in AnalysisSchema.properties[3].enumValues <==> ParseRiskLevel(s).Some?
    ensures AnalysisSchema.properties[5].itemFields == ["segment", "reason"]
  {
    var names := PropertyNames(AnalysisSchema.properties);
    assert |names| == 6;
    assert names == AnalysisFields;
  }

  // ---------------------------------------------------------------------------
  // Request construction

  /** The framing of the prompt up to the line that opens the embedded text. */
  const PromptIntro: string := "You are an expert forensic text analyst. Analyze the following text for two distinct issues:\n      1. **AI Generation**: Detect if the text was likely written by an LLM (like ChatGPT, Claude, Gemini). Look for: repetitive sentence structure, lack of personal nuance, overly neutral tone, 'hallucinated' facts, or specific transition words typical of AI.\n      2. **Web Plagiarism**: Use Google Search to find if this text exists elsewhere on the internet.\n      \n      Text to analyze:\n      "

  /** The triple quote that opens the embedded text, its line break and indentation. */
  const OpenQuote: string := "\"\"\"\n      "

  /** The line break, indentation and triple quote that close the embedded text. */
  const CloseQuote: string := "\n      \"\"\""

  /** The output instructions after the embedded text. */
  const PromptOutro: string := "\n      \n      Return the analysis in JSON format.\n      - 'aiScore': 0-100 likelihood of AI generation.\n      - 'plagiarismScore': 0-100 likelihood of web copying.\n      - 'score': The highest of the two scores.\n      - 'summary': Explain **how** the text was generated or where it was copied from. If AI, specifically mention the stylistic markers (e.g. \"The text uses formulaic structure typical of AI models...\").\n      - Ensure the summary language matches the input text language (Arabic or English).\n      "

  /** The part of the prompt before the user's text. */
  const PromptHead: string := PromptIntro + OpenQuote

  /** The part of the prompt after the user's text. */
  const PromptTail: string := CloseQuote + PromptOutro

  /** The instruction text sent to the service: the user's text, unescaped, right
      after the opening triple quote and right before the closing one. */
  function BuildPrompt(text: string): (prompt: string)
    ensures |prompt| == |PromptHead| + |text| + |PromptTail|
    ensures prompt[|PromptIntro|..|PromptHead|] == OpenQuote
    ensures prompt[|PromptHead|..|PromptHead| + |text|] == text
    ensures prompt[|PromptHead| + |text|..|PromptHead| + |text| + |CloseQuote|] == CloseQuote
  {
    var p := PromptHead + text + PromptTail;
    assert p[..|PromptHead|] == PromptHead;
    assert p[|PromptIntro|..|PromptHead|] == PromptHead[|PromptIntro|..];
    assert p[|PromptHead| + |text|..] == PromptTail;
    assert p[|PromptHead| + |text|..|PromptHead| + |text| + |CloseQuote|] == PromptTail[..|CloseQuote|];
    p
  }

  /** A string is its head, middle and tail put back together. */
  lemma SplitInThree(p: string, h: nat, t: nat)
    requires h + t <= |p|
    ensures p == p[..h] + p[h..|p| - t] + p[|p| - t..]
  {
  }

  /** The text a prompt carries between its fixed head and tail, if it has that shape. */
  function EmbeddedText(prompt: string): (text: Option<string>)
    ensures text.Some? ==> prompt == PromptHead + text.value + PromptTail
  {
    var h, t := |PromptHead|, |PromptTail|;
    if h + t <= |prompt| && prompt[..h] == PromptHead && prompt[|prompt| - t..] == PromptTail then
      SplitInThree(prompt, h, t);
      Some(prompt[h..|prompt| - t])
    else None
  }

  /** The embedded text is recovered exactly, whatever it contains (triple quotes
      included): the prompt loses nothing of the user's text. */
  lemma PromptEmbedsTextVerbatim(text: string)
    ensures EmbeddedText(BuildPrompt(text)) == Some(text)
  {
    var h, t := PromptHead, PromptTail;
    var p := h + text + t;
    assert p[..|h|] == h;
    assert p[|p| - |t|..] == t;
    assert p[|h|..|p| - |t|] == text;
  }

  /** One request to the inference service (the model name is not modelled). */
  datatype Request = Request(
    prompt: string, googleSearch: bool, responseMimeType: string, schema: ResponseSchema)

  /** The request built for a text: search grounding on, JSON output, the schema above. */
  function BuildRequest(text: string): (req: Request)
    ensures EmbeddedText(req.prompt) == Some(text)
    ensures req.googleSearch && req.responseMimeType == "application/json"
    ensures req.schema == AnalysisSchema
  {
    PromptEmbedsTextVerbatim(text);
    Request(BuildPrompt(text), true, "application/json", AnalysisSchema)
  }

  // ---------------------------------------------------------------------------
  // Response shape

  /** The grounding metadata of a candidate; its chunk list is optional. */
  datatype GroundingMetadata = GroundingMetadata(groundingChunks: Option<seq<GroundingChunk>>)

  /** One response candidate; its metadata is optional. */
  datatype Candidate = Candidate(groundingMetadata: Option<GroundingMetadata>)

  /** The response of a call: an optional text payload and an optional candidate list. */
  datatype GenerateResponse = GenerateResponse(text: Option<string>, candidates: Option<seq<Candidate>>)

  /** What the call to the service does: resolve with a response, or reject. */
  datatype CallOutcome = Responded(response: GenerateResponse) | Rejected(reason: string)

  /** Some link of the chain candidates -> first candidate -> groundingMetadata ->
      groundingChunks is absent. */
  predicate ChunkChainBroken(resp: GenerateResponse) {
    || resp.candidates.None?
    || resp.candidates.value == []
    || resp.candidates.value[0].groundingMetadata.None?
    || resp.candidates.value[0].groundingMetadata.value.groundingChunks.None?
  }

  /** The chunk list of the first candidate, or [] when any link of that chain is absent. */
  function GroundingChunksOf(resp: GenerateResponse): (chunks: seq<GroundingChunk>)
    ensures resp.candidates.None? ==> chunks == []
    ensures resp.candidates.Some? && resp.candidates.value == [] ==> chunks == []
    ensures (resp.candidates.Some? && resp.candidates.value != []
             && resp.candidates.value[0].groundingMetadata.None?)
            ==> chunks == []
    ensures (resp.candidates.Some? && resp.candidates.value != []
             && resp.candidates.value[0].groundingMetadata.Some?
             && resp.candidates.value[0].groundingMetadata.value.groundingChunks.None?)
            ==> chunks == []
    ensures !ChunkChainBroken(resp) ==>
            chunks == resp.candidates.value[0].groundingMetadata.value.groundingChunks.value
  {
    match resp.candidates
    case None => []
    case Some(cs) =>
      if cs == [] then []
      else match cs[0].groundingMetadata
        case None => []
        case Some(md) =>
          match md.groundingChunks
          case None => []
          case Some(chunks) => chunks
  }

  // ---------------------------------------------------------------------------
  // Source filtering

  /** A chunk is kept when its web reference has a URI that is present and non-empty. */
  predicate HasWebUri(c: GroundingChunk) {
    c.web.Some? && c.web.value.uri.Some? && c.web.value.uri.value != ""
  }

  /** The chunks that have a web URI, in their original order. */
  function ValidSources(chunks: seq<GroundingChunk>): (kept: seq<GroundingChunk>)
    ensures |kept| <= |chunks|
    ensures forall i :: 0 <= i < |kept| ==> HasWebUri(kept[i])
  {
    if chunks == [] then []
    else (if HasWebUri(chunks[0]) then [chunks[0]] else []) + ValidSources(chunks[1..])
  }

  /** A chunk is among the sources exactly when it is among the chunks and has a URI. */
  lemma {:induction false} ValidSourcesMembership(chunks: seq<GroundingChunk>, c: GroundingChunk)
    ensures c in ValidSources(chunks) <==> c in chunks && HasWebUri(c)
  {
    if chunks != [] {
      ValidSourcesMembership(chunks[1..], c);
      assert chunks == [chunks[0]] + chunks[1..];
    }
  }

  /** `sub` is `s` with some elements removed, the rest in their original order. */
  predicate IsSubsequence<T(==)>(sub: seq<T>, s: seq<T>)
    decreases |s|
  {
    if sub == [] then true
    else if s == [] then false
    else if sub[0] == s[0] then IsSubsequence(sub[1..], s[1..])
    else IsSubsequence(sub, s[1..])
  }

  /** Filtering keeps order: the sources are a subsequence of the chunks. */
  lemma {:induction false} ValidSourcesIsSubsequence(chunks: seq<GroundingChunk>)
    ensures IsSubsequence(ValidSources(chunks), chunks)
  {
    if chunks != [] {
      ValidSourcesIsSubsequence(chunks[1..]);
      var rest := ValidSources(chunks[1..]);
      if HasWebUri(chunks[0]) {
        assert ([chunks[0]] + rest)[1..] == rest;
      } else {
        assert ValidSources(chunks) == rest;
      }
    }
  }

  /** Filtering keeps every valid chunk as often as it occurs, and no other chunk. */
  lemma {:induction false} ValidSourcesCounts(chunks: seq<GroundingChunk>, c: GroundingChunk)
    ensures multiset(ValidSources(chunks))[c] == if HasWebUri(c) then multiset(chunks)[c] else 0
  {
    if chunks != [] {
      ValidSourcesCounts(chunks[1..], c);
      assert chunks == [chunks[0]] + chunks[1..];
    }
  }

  /** Filtering distributes over concatenation, so it works chunk by chunk. */
  lemma {:induction false} ValidSourcesAppend(a: seq<GroundingChunk>, b: seq<GroundingChunk>)
    ensures ValidSources(a + b) == ValidSources(a) + ValidSources(b)
  {
    if a == [] {
      assert a + b == b;
    } else {
      var head := if HasWebUri(a[0]) then [a[0]] else [];
      var ab := a + b;
      assert ab[0] == a[0];
      assert ab[1..] == a[1..] + b;
      calc {
        ValidSources(ab);
        head + ValidSources(a[1..] + b);
        { ValidSourcesAppend(a[1..], b); }
        head + (ValidSources(a[1..]) + ValidSources(b));
        (head + ValidSources(a[1..])) + ValidSources(b);
        ValidSources(a) + ValidSources(b);
      }
    }
  }

  /** Filtering twice is filtering once. */
  lemma {:induction false} ValidSourcesIdempotent(chunks: seq<GroundingChunk>)
    ensures ValidSources(ValidSources(chunks)) == ValidSources(chunks)
  {
    if chunks != [] {
      ValidSourcesIdempotent(chunks[1..]);
      var rest := ValidSources(chunks[1..]);
      if HasWebUri(chunks[0]) {
        var once := [chunks[0]] + rest;
        assert once[0] == chunks[0] && once[1..] == rest;
        assert ValidSources(chunks) == once;
        assert ValidSources(once) == [chunks[0]] + ValidSources(rest);
      } else {
        assert ValidSources(chunks) == rest;
      }
    }
  }

  // ---------------------------------------------------------------------------
  // Parse or fall back

  /** The analysis used when the payload is not valid JSON. */
  const FallbackAnalysis: PlagiarismAnalysis :=
    PlagiarismAnalysis(0, 0, 0, Low, "Could not parse detailed analysis.", [])

  /** The fallback is itself a consistent, in-range analysis. */
  lemma FallbackIsConsistent()
    ensures ScoreIsMax(FallbackAnalysis) && FallbackAnalysis.riskLevel == Low
    ensures InDocumentedRange(FallbackAnalysis.score)
    ensures InDocumentedRange(FallbackAnalysis.aiScore)
    ensures InDocumentedRange(FallbackAnalysis.plagiarismScore)
  {
  }

  /** The parsed analysis, unchecked, or the fallback when `parse` (JSON.parse) fails. */
  function ParseOrFallback(payload: string, parse: string -> Option<PlagiarismAnalysis>): (a: PlagiarismAnalysis)
    ensures parse(payload).Some? ==> a == parse(payload).value
    ensures parse(payload).None? ==> a == FallbackAnalysis
  {
    match parse(payload)
    case Some(parsed) => parsed
    case None => FallbackAnalysis
  }

  // ---------------------------------------------------------------------------
  // The analysis

  /** `analyzeText`: reject a missing key without calling the service; otherwise
      send the request, reject when it fails or when the answer has no text, and
      combine the parsed (or fallback) analysis with the chunks that have a URI. */
  function AnalyzeText(
    apiKey: string,
    text: string,
    generate: Request -> CallOutcome,
    parse: string -> Option<PlagiarismAnalysis>
  ): (r: Result<AnalysisResult, ServiceError>)
    ensures r == Err(MissingApiKey) <==> apiKey == ""
  {
    if apiKey == "" then Err(MissingApiKey)
    else match generate(BuildRequest(text))
      case Rejected(reason) => Err(CallFailed(reason))
      case Responded(resp) =>
        if resp.text.None? || resp.text.value == "" then Err(NoResponse)
        else Ok(AnalysisResult(ParseOrFallback(resp.text.value, parse), ValidSources(GroundingChunksOf(resp))))
  }

  /** A missing key fails the same way whatever the service would do: no request is made. */
  lemma MissingKeyMakesNoCall(
    text: string,
    g1: Request -> CallOutcome, g2: Request -> CallOutcome,
    parse: string -> Option<PlagiarismAnalysis>)
    ensures AnalyzeText("", text, g1, parse) == AnalyzeText("", text, g2, parse) == Err(MissingApiKey)
  {
  }

  /** With a key, the outcome depends on the service only through its answer to the
      request built from the text. */
  lemma OnlyTheBuiltRequestIsSent(
    apiKey: string, text: string,
    g1: Request -> CallOutcome, g2: Request -> CallOutcome,
    parse: string -> Option<PlagiarismAnalysis>)
    requires g1(BuildRequest(text)) == g2(BuildRequest(text))
    ensures AnalyzeText(apiKey, text, g1, parse) == AnalyzeText(apiKey, text, g2, parse)
  {
  }

  /** The classification of failures: which error is thrown exactly when. Notably an
      empty or missing payload is an error, not a fallback. */
  lemma AnalyzeErrors(
    apiKey: string, text: string,
    generate: Request -> CallOutcome, parse: string -> Option<PlagiarismAnalysis>,
    reason: string)
    requires apiKey != ""
    ensures AnalyzeText(apiKey, text, generate, parse) == Err(CallFailed(reason))
            <==> generate(BuildRequest(text)) == Rejected(reason)
    ensures AnalyzeText(apiKey, text, generate, parse) == Err(NoResponse)
            <==> generate(BuildRequest(text)).Responded?
                 && (generate(BuildRequest(text)).response.text.None?
                     || generate(BuildRequest(text)).response.text.value == "")
    ensures AnalyzeText(apiKey, text, generate, parse).Err?
            <==> generate(BuildRequest(text)).Rejected?
                 || generate(BuildRequest(text)).response.text.None?
                 || generate(BuildRequest(text)).response.text.value == ""
  {
  }

  /** When the payload is present: the call succeeds, the analysis is the parsed value
      exactly as parsed (nothing recomputed or validated) or the fixed fallback, and the
      sources are the chunks with a URI. */
  lemma AnalyzeSucceedsWithPayload(
    apiKey: string, text: string,
    generate: Request -> CallOutcome, parse: string -> Option<PlagiarismAnalysis>,
    resp: GenerateResponse)
    requires apiKey != ""
    requires generate(BuildRequest(text)) == Responded(resp)
    requires resp.text.Some? && resp.text.value != ""
    ensures AnalyzeText(apiKey, text, generate, parse).Ok?
    ensures var res := AnalyzeText(apiKey, text, generate, parse).value;
      && (parse(resp.text.value).Some? ==> res.analysis == parse(resp.text.value).value)
      && (parse(resp.text.value).None? ==> res.analysis == FallbackAnalysis)
      && res.sources == ValidSources(GroundingChunksOf(resp))
  {
  }

  /** Every source of a successful analysis has a URI and comes, in order, from the
      first candidate's chunks; a response without candidates, metadata or chunks
      gives no sources and is still a success. */
  lemma AnalyzeSourcesAreGrounded(
    apiKey: string, text: string,
    generate: Request -> CallOutcome, parse: string -> Option<PlagiarismAnalysis>)
    requires AnalyzeText(apiKey, text, generate, parse).Ok?
    ensures var res := AnalyzeText(apiKey, text, generate, parse).value;
      var resp := generate(BuildRequest(text)).response;
      && (forall c :: c in res.sources ==> HasWebUri(c))
      && IsSubsequence(res.sources, GroundingChunksOf(resp))
      && (ChunkChainBroken(resp) ==> res.sources == [])
  {
    var resp := generate(BuildRequest(text)).response;
    ValidSourcesIsSubsequence(GroundingChunksOf(resp));
    forall c | c in ValidSources(GroundingChunksOf(resp)) ensures HasWebUri(c) {
      ValidSourcesMembership(GroundingChunksOf(resp), c);
    }
  }

  /** A response whose candidates, first candidate, metadata or chunk list is absent
      is still a success, with no sources. */
  lemma MissingChunksAreNotAnError(
    apiKey: string, text: string,
    generate: Request -> CallOutcome, parse: string -> Option<PlagiarismAnalysis>,
    resp: GenerateResponse)
    requires apiKey != ""
    requires generate(BuildRequest(text)) == Responded(resp)
    requires resp.text.Some? && resp.text.value != ""
    requires ChunkChainBroken(resp)
    ensures AnalyzeText(apiKey, text, generate, parse).Ok?
    ensures AnalyzeText(apiKey, text, generate, parse).value.sources == []
  {
  }

  /** A parsed analysis that breaks the documented invariants is passed through as is. */
  lemma ParsedAnalysisIsNotValidated(apiKey: string, text: string, payload: string)
    requires apiKey != "" && payload != ""
    ensures var odd := PlagiarismAnalysis(150, 10, 0, Low, "", []);
      var res := AnalyzeText(apiKey, text,
        _ => Responded(GenerateResponse(Some(payload), None)), _ => Some(odd));
      && !ScoreIsMax(odd) && !InDocumentedRange(odd.score)
      && res == Ok(AnalysisResult(odd, []))
  {
  }

  /** A response with a valid JSON payload and two chunks, one without a URI: one
      source and one flagged segment come out. */
  lemma ExampleOneSourceKept(apiKey: string, text: string)
    requires apiKey != ""
    ensures
      var parsed := PlagiarismAnalysis(80, 80, 10, High, "...", [FlaggedSegment("x", "y")]);
      var chunks := [GroundingChunk(Some(WebReference(Some("http://a"), None))),
                     GroundingChunk(Some(WebReference(None, None)))];
      var resp := GenerateResponse(Some("{...}"),
                    Some([Candidate(Some(GroundingMetadata(Some(chunks))))]));
      var res := AnalyzeText(apiKey, text, _ => Responded(resp), _ => Some(parsed));
      res.Ok? && |res.value.sources| == 1 && |res.value.analysis.flaggedSegments| == 1
  {
    var chunks := [GroundingChunk(Some(WebReference(Some("http://a"), None))),
                   GroundingChunk(Some(WebReference(None, None)))];
    assert ValidSources(chunks) == [chunks[0]];
  }
}
