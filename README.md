# PlagiaGuard analysis core in Dafny

PlagiaGuard is a single-page app. It sends a block of text to a generative-language service with web-search grounding and shows a report: an overall risk score, split into an AI-generation score and a web-plagiarism score, a risk level, a summary, flagged passages and the web sources the service grounded its answer on.

This project models the parts of the app that make decisions:

- **Types** (`types.dfy`): the result schema. It covers grounding chunks with optional `web`, `uri` and `title`, the analysis record, the three risk levels and the four lifecycle states.
- **GeminiService** (`gemini_service.dfy`): `analyzeText`, modelled as a function.
  - The credential check comes before any request.
  - The prompt embeds the user's text verbatim between triple quotes.
  - The structured-output schema is part of the request.
  - A response without text is an error. That error is rethrown, not absorbed.
  - A payload that `JSON.parse` rejects is replaced by a fixed fallback analysis.
  - The grounding chunks are filtered, in order, down to those with a non-empty `web.uri`.
  - The call to the service is a function parameter `generate: Request -> CallOutcome`, so it acts as an oracle. `JSON.parse` is an opaque parameter `parse: string -> Option<PlagiarismAnalysis>`.
- **Controller** (`controller.dfy`): the page component as a class `App`. It has the fields `text`, `appState`, `result` and `errorMsg`.
  - The analyze handler is split in two: `Trigger` is the synchronous start, and `Resolve` applies the awaited outcome.
  - The class has a ghost counter `pending` of calls in flight. The invariant `Valid()` ties `pending` to the ANALYZING state. If `Trigger` runs while a call is in flight, `Valid()` is lost. The proof uses this to show that the disabled button is the only thing that keeps calls one at a time.
  - The module also models JavaScript's `String.prototype.trim`, for the handler's blank-text guard.
- **InputSection** (`input_section.dfy`): the character counter, which counts UTF-16 code units as JavaScript's `length` does, the 5000-unit limit and the rule that enables the analyze button. It also has the clear, sample and edit handlers, which overwrite the page's text, and the button press.
- **ResultsSection** (`results_section.dfy`): the pure view choices. These are the score colour buckets, the gauge split, the verdict label, the note shown when there are no sources, the fallback for a source title, and the flagged-segment cards.
- **Constants** (`constants.dfy`) and **Wrappers** (`wrappers.dfy`): the limit, the two sample texts, and `Option`/`Result`.

Three behaviours of the code are easy to misread. The model follows the code in each:

- An empty or missing response text does **not** fall back. It throws "No response from AI", and the outer `catch` rethrows it (services/geminiService.ts:80-82, 112-115). Only a payload that fails to parse falls back.
- A parsed analysis is used as-is. Nothing checks that `score` is the larger of the two scores, that the scores lie in 0-100, or that `riskLevel` agrees with `score` (services/geminiService.ts:86, 107-110). `ParsedAnalysisIsNotValidated` exhibits this.
- The analyze button looks at the raw length, while the handler looks at the trimmed text. A text made only of white space therefore enables the button, but pressing it does nothing (components/InputSection.tsx:15, 93 and App.tsx:15).

## Model

| member | source | states |
|---|---|---|
| `Types.ParseRiskLevel` | types.ts:12 | A string reads as a risk level only if it is the name of that level. |
| `Types.RiskLevelNamesRoundTrip` | types.ts:12 | Exactly "Low", "Medium" and "High" are risk levels, and each level reads back from its own name. |
| `Types.ParseAppState` | types.ts:25-30 | A string reads as a lifecycle state only if it is that state's value. |
| `Types.AppStateNamesRoundTrip` | types.ts:25-30 | The enumeration has exactly the four values IDLE, ANALYZING, SUCCESS and ERROR, and each state reads back from its value. |
| `GeminiService.ErrorMessage` | services/geminiService.ts:8-10 | A missing key throws "API Key is missing.", an empty response throws "No response from AI" (services/geminiService.ts:80-82), and a rejected call keeps the client's own error text. |
| `GeminiService.ApiKeyFrom` | services/geminiService.ts:4 | The key is empty exactly when the variable is unset or empty; otherwise it is the variable's value. |
| `GeminiService.SchemaMatchesAnalysisType` | services/geminiService.ts:13-50 | The schema declares the six analysis fields in order and requires all six. Its riskLevel enum accepts exactly the three risk-level names, and its segment items have the fields segment and reason. |
| `GeminiService.BuildPrompt` | services/geminiService.ts:55-70 | The user's text sits in the prompt unchanged, right after the opening triple quote and right before the closing one. |
| `GeminiService.EmbeddedText` | services/geminiService.ts:59-62 | Whatever text it extracts, placed back between the fixed head and tail, gives the prompt it came from. |
| `GeminiService.PromptEmbedsTextVerbatim` | services/geminiService.ts:59-62 | Round trip: the text is recovered exactly from the prompt built for it, triple quotes and all. Nothing is escaped. |
| `GeminiService.BuildRequest` | services/geminiService.ts:53-76 | The request carries the text recoverably, turns on search grounding, asks for JSON and sends the analysis schema. |
| `GeminiService.HasWebUri` | services/geminiService.ts:105 | The filter's test `chunk.web?.uri`: `web` is present, its `uri` is present, and the `uri` is non-empty. |
| `GeminiService.GroundingChunksOf` | services/geminiService.ts:102 | The chunk list of the first candidate when the whole chain is present. `[]` when the candidates, the first candidate, its metadata or its chunk list is absent. |
| `GeminiService.ValidSources` | services/geminiService.ts:105 | Every kept chunk has a present, non-empty `web.uri`, and the result is never longer than the input. |
| `GeminiService.ValidSourcesMembership` | services/geminiService.ts:105 | A chunk is among the sources exactly when it is among the input chunks and has a present, non-empty `web.uri`. |
| `GeminiService.ValidSourcesIsSubsequence` | services/geminiService.ts:105 | The kept chunks are a subsequence of the input: original order, each chunk unchanged. |
| `GeminiService.ValidSourcesCounts` | services/geminiService.ts:105 | Each valid chunk is kept as many times as it occurs, and an invalid chunk never appears. |
| `GeminiService.ValidSourcesAppend` | services/geminiService.ts:105 | Filtering a concatenation gives the concatenation of the filtered parts. |
| `GeminiService.ValidSourcesIdempotent` | services/geminiService.ts:105 | Filtering the sources again changes nothing. |
| `GeminiService.FallbackIsConsistent` | services/geminiService.ts:90-97 | The fallback has score equal to the larger of its two scores, level Low, and all scores in 0-100. |
| `GeminiService.ParseOrFallback` | services/geminiService.ts:84-98 | A successful parse is used exactly as parsed. A failed parse gives exactly the fixed fallback analysis. |
| `GeminiService.AnalyzeText` | services/geminiService.ts:7-116 | The analysis fails with the missing-key error exactly when the key is empty. |
| `GeminiService.MissingKeyMakesNoCall` | services/geminiService.ts:8-10 | With an empty key, the result does not depend on the service at all, so no request is made. |
| `GeminiService.OnlyTheBuiltRequestIsSent` | services/geminiService.ts:53-76 | With a key, the result depends on the service only through its answer to the request built from the text. |
| `GeminiService.AnalyzeErrors` | services/geminiService.ts:79-82 | A rejected call is rethrown with the client's own error. A response whose text is missing or empty throws "No response from AI". These are the only failures once a key is set. |
| `GeminiService.AnalyzeSucceedsWithPayload` | services/geminiService.ts:84-110 | With a non-empty payload the call succeeds. The analysis is the parsed value unchanged, or the fallback when parsing fails. The sources are the filtered chunks of the first candidate. |
| `GeminiService.AnalyzeSourcesAreGrounded` | services/geminiService.ts:102-105 | Every source of a success has a URI and comes, in order, from the first candidate's chunks. A success whose response lacks candidates, a first candidate, metadata or a chunk list has no sources. |
| `GeminiService.MissingChunksAreNotAnError` | services/geminiService.ts:102 | With a key and a non-empty payload, a response that lacks candidates, a first candidate, metadata or a chunk list still succeeds, with no sources. |
| `GeminiService.ParsedAnalysisIsNotValidated` | services/geminiService.ts:86 | A parsed analysis with score 150 that breaks the larger-of-two rule is returned unchanged. |
| `GeminiService.ExampleOneSourceKept` | services/geminiService.ts:102-110 | Two chunks, one without a URI, give one source, and the parsed flagged segment comes through. |
| `Controller.TrimStart` | App.tsx:15 | Drops the leading JavaScript white space (its contract is `Controller.TrimStartSpec`). |
| `Controller.TrimEnd` | App.tsx:15 | Drops the trailing JavaScript white space (its contract is `Controller.TrimEndSpec`). |
| `Controller.Trim` | App.tsx:15 | `text.trim()`: both ends trimmed (its contract is `Controller.TrimEmptyIffBlank`). |
| `Controller.TrimStartSpec` | App.tsx:15 | TrimStart drops exactly a blank prefix and keeps a suffix that starts with a non-white-space character. |
| `Controller.TrimEndSpec` | App.tsx:15 | TrimEnd drops exactly a blank suffix and keeps a prefix that ends with a non-white-space character. |
| `Controller.TrimEmptyIffBlank` | App.tsx:15 | `text.trim()` is empty exactly when every character is JavaScript white space. |
| `Controller.HasContent` | App.tsx:15 | The handler's guard passes exactly for text that is not all white space. |
| `Controller.App.constructor` | App.tsx:9-12 | The page starts with empty text, IDLE, no result and no message, and is valid. |
| `Controller.App.IsLoading` | App.tsx:69 | `isLoading` is `appState === ANALYZING` (tied to calls in flight by `Controller.App.LoadingIffCallInFlight`). |
| `Controller.App.ShowsErrorNotice` | App.tsx:72 | The error notice shows exactly in ERROR (its relation to the other panels is in `Controller.App.PanelsExclusive`). |
| `Controller.App.ShowsMarketing` | App.tsx:84 | The marketing panel shows exactly in IDLE (see `Controller.App.PanelsExclusive`). |
| `Controller.App.LoadingIffCallInFlight` | App.tsx:69 | On a valid page, `isLoading` holds exactly when one call is in flight. |
| `Controller.App.SetText` | App.tsx:9 | An edit changes only the text, never the state, result or message, in every state, and keeps the page valid. |
| `Controller.App.Trigger` | App.tsx:14-19 | Blank text changes nothing. Otherwise the state becomes ANALYZING, the message becomes '' and the result is cleared. The page stays valid exactly when no call was already in flight. |
| `Controller.App.Resolve` | App.tsx:21-29 | A result lands in SUCCESS with that result, and the message is untouched. Any error lands in ERROR with the one fixed message, and the result is untouched. The text never changes, and a valid page stays valid. |
| `Controller.App.ShownResult` | App.tsx:79 | The results panel shows a result only in SUCCESS, and it is the stored result. |
| `Controller.App.PanelsExclusive` | App.tsx:72-84 | On a valid page, results show exactly in SUCCESS. The error notice, the results and the marketing panel never show together, and none of them shows while loading. |
| `Controller.AnalyzeOnce` | App.tsx:14-29 | A whole press-and-resolve from a non-loading page ends in SUCCESS with `analyzeText`'s result or in ERROR with no result. An empty key always ends in ERROR with the fixed message, and blank text changes nothing. |
| `InputSection.Utf16Length` | components/InputSection.tsx:13 | JavaScript's `length`: UTF-16 code units, one per character in the Basic Multilingual Plane and two per character beyond it. It lies between the number of characters and twice that number. |
| `InputSection.Utf16LengthAstral` | components/InputSection.tsx:13 | A text made only of characters beyond the Basic Multilingual Plane has twice as many code units as characters. |
| `InputSection.CharCount` | components/InputSection.tsx:13 | The counter shows the UTF-16 length, which is 0 exactly for the empty text. |
| `InputSection.IsOverLimit` | components/InputSection.tsx:14 | More than `MAX_CHARS` = 5000 code units (constants.ts:5). |
| `InputSection.IsEmpty` | components/InputSection.tsx:15 | No characters at all; white space counts (see `InputSection.BlankTextEnablesButton`). |
| `InputSection.AnalyzeDisabled` | components/InputSection.tsx:93 | Disabled when empty, over the limit or loading (characterised by `InputSection.AnalyzeEnabledIff`). |
| `InputSection.AstralTextOverLimit` | components/InputSection.tsx:87-93 | 2600 emoji are 5200 code units, so the button is disabled and the counter is red. |
| `InputSection.AnalyzeEnabledIff` | components/InputSection.tsx:13-15 | The button is enabled exactly for 1 to 5000 UTF-16 code units while not loading, so 5000 units are allowed and 5001 are not. Up to 2500 characters always fit, and more than 5000 characters never do. |
| `InputSection.BlankTextEnablesButton` | components/InputSection.tsx:93 | A single space enables the button even though the handler treats that text as blank. |
| `InputSection.CounterTone` | components/InputSection.tsx:87-88 | The counter is red exactly when the text is over 5000 UTF-16 code units. |
| `InputSection.ClearVisible` | components/InputSection.tsx:67 | The clear button shows exactly when the text is non-empty (`InputSection.HandleClear` hides it). |
| `InputSection.SampleText` | components/InputSection.tsx:28-30 | A sample is non-empty and within the limit, measured in UTF-16 code units. |
| `InputSection.SamplesDistinctAndAccepted` | components/InputSection.tsx:28-30 | The two samples differ, and each one enables the button and passes the handler's blank check. |
| `InputSection.HandleClear` | components/InputSection.tsx:26 | The text becomes '' and nothing else changes. Afterwards the clear button is hidden and the analyze button is disabled. |
| `InputSection.HandleSample` | components/InputSection.tsx:28-30 | 'ar' loads the Arabic sample and 'en' the English one. Nothing else changes. |
| `InputSection.HandleChange` | components/InputSection.tsx:58 | Typing replaces the text and nothing else. |
| `InputSection.PressAnalyze` | components/InputSection.tsx:93 | A press starts an analysis exactly when the button is enabled (1 to 5000 UTF-16 code units, not loading) and the text is not blank. Because the button is disabled while loading, at most one call is ever in flight and the page stays valid. |
| `ResultsSection.ScoreColor` | components/ResultsSection.tsx:14-18 | Green exactly below 20, yellow exactly from 20 to 49, red exactly from 50 up. |
| `ResultsSection.ScoreColorMonotone` | components/ResultsSection.tsx:14-18 | A higher score never gets a milder colour, and every score gets one of the three colours. |
| `ResultsSection.GaugeData` | components/ResultsSection.tsx:22-25 | Two slices, "Risk" equal to the score and "Original", which sum to 100. |
| `ResultsSection.GaugeSlicesInRange` | components/ResultsSection.tsx:22-25 | Both slices lie in 0-100 exactly when the score does. Nothing clamps them. |
| `ResultsSection.RiskLabel` | components/ResultsSection.tsx:106 | Low gives "Likely Original", Medium gives "Suspicious Content", High gives "High Probability of Copying/AI". |
| `ResultsSection.RiskLabelInjective` | components/ResultsSection.tsx:106 | Different levels get different labels. |
| `ResultsSection.SourcesNote` | components/ResultsSection.tsx:133-161 | There is no note when sources exist. Otherwise a positive plagiarism score gives the "URLs could not be retrieved" note, and any other score gives "No matching web sources found." |
| `ResultsSection.SourceTitle` | components/ResultsSection.tsx:146 | A present, non-empty title is shown as is; otherwise "Unknown Source" is shown. The heading is never empty. |
| `ResultsSection.SourceTitles` | components/ResultsSection.tsx:135-146 | One heading per source, in source order. |
| `ResultsSection.SegmentCards` | components/ResultsSection.tsx:173-185 | One card per flagged segment, in list order, each with that segment's text and reason. |
| `ResultsSection.FlaggedSectionVisible` | components/ResultsSection.tsx:169 | The section shows exactly when there is at least one flagged segment (see `ResultsSection.FlaggedSectionShownIffCards`). |
| `ResultsSection.FlaggedSectionShownIffCards` | components/ResultsSection.tsx:169 | The flagged-segment section shows exactly when there is at least one card. |
| `ResultsSection.FallbackRendering` | components/ResultsSection.tsx:14-25 | The fallback analysis renders as a green 0 with a full "Original" slice and "Likely Original". It has no flagged section, and "No matching web sources found." appears when it has no sources. |

## Left out

- The inference client and the model name are not modelled (services/geminiService.ts:1, 5, 54), and the call is the oracle parameter `generate`. The request is a value. The search tool is modelled as the flag `Request.googleSearch`; the tool's configuration object is not. The prompt wording enters as constants.
- The `description` texts of the response schema are dropped: `SchemaProperty` has no description field (services/geminiService.ts:18-46).
- `JSON.parse` is an opaque `Option`-returning parameter. In the source, any valid JSON is accepted as an analysis without checks. This model can only represent well-typed analyses: integer scores, a riskLevel from the three-value union and all fields present. Fractional scores, other riskLevel strings and missing fields are therefore outside the model.
- `console.error` logging is not modelled.
- `handlePaste` is not modelled, because it reads the browser clipboard (components/InputSection.tsx:17-24).
- JSX markup, styling, the chart and the icons are not modelled. The model keeps only the choices those elements are built from.
- Asynchrony is reduced to two steps, `Trigger` then `Resolve`. `Resolve` takes the outcome as a parameter and does not check that it is `analyzeText`'s answer for the text that was current at trigger time. `AnalyzeOnce` states that link for an uninterrupted run.
- React's batching and re-render scheduling are not modelled.
- The footer year read from the clock is not modelled (App.tsx:115).
- `Controller.IsJsWhitespace` lists the code points that ECMAScript's `trim` removes as a fixed set. Unicode versions that add space separators are not followed.
