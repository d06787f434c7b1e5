/** The page's lifecycle controller: the four pieces of state the page holds, the
    analyze handler split into its synchronous start and its later resolution, and
    which panels the page shows in each state. */
module Controller {
  import opened Wrappers
  import opened Types
  import GeminiService

  // ---------------------------------------------------------------------------
  // String.prototype.trim

  /** The characters JavaScript's `trim` removes: white space and line terminators. */
  predicate IsJsWhitespace(c: char) {
    var n := c as int;
    n == 0x09 || n == 0x0A || n == 0x0B || n == 0x0C || n == 0x0D || n == 0x20
    || n == 0xA0 || n == 0x1680 || (0x2000 <= n <= 0x200A) || n == 0x2028 || n == 0x2029
    || n == 0x202F || n == 0x205F || n == 0x3000 || n == 0xFEFF
  }

  /** Every character of `s` is white space. */
  predicate IsBlank(s: string) {
    forall i :: 0 <= i < |s| ==> IsJsWhitespace(s[i])
  }

  /** `s` without its leading white space. */
  function TrimStart(s: string): string {
    if s == [] || !IsJsWhitespace(s[0]) then s else TrimStart(s[1..])
  }

  /** `s` without its trailing white space. */
  function TrimEnd(s: string): string {
    if s == [] || !IsJsWhitespace(s[|s| - 1]) then s else TrimEnd(s[..|s| - 1])
  }

  /** `s` without leading and trailing white space. */
  function Trim(s: string): string {
    TrimEnd(TrimStart(s))
  }

  /** TrimStart removes exactly the leading white space: what it drops is a blank
      prefix, and what it keeps is the rest, starting with a non-white character. */
  lemma {:induction false} TrimStartSpec(s: string)
    ensures |TrimStart(s)| <= |s| && TrimStart(s) == s[|s| - |TrimStart(s)|..]
    ensures TrimStart(s) == [] || !IsJsWhitespace(TrimStart(s)[0])
    ensures IsBlank(s[..|s| - |TrimStart(s)|])
  {
    if s != [] && IsJsWhitespace(s[0]) {
      TrimStartSpec(s[1..]);
      var r := TrimStart(s[1..]);
      assert s[..|s| - |r|] == [s[0]] + s[1..][..|s| - 1 - |r|];
    }
  }

  /** TrimEnd removes exactly the trailing white space. */
  lemma {:induction false} TrimEndSpec(s: string)
    ensures |TrimEnd(s)| <= |s| && TrimEnd(s) == s[..|TrimEnd(s)|]
    ensures TrimEnd(s) == [] || !IsJsWhitespace(TrimEnd(s)[|TrimEnd(s)| - 1])
    ensures IsBlank(s[|TrimEnd(s)|..])
  {
    if s != [] && IsJsWhitespace(s[|s| - 1]) {
      TrimEndSpec(s[..|s| - 1]);
      var r := TrimEnd(s[..|s| - 1]);
      assert s[|r|..] == s[..|s| - 1][|r|..] + [s[|s| - 1]];
    }
  }

  /** `text.trim()` is empty exactly when the text is all white space. */
  lemma TrimEmptyIffBlank(s: string)
    ensures Trim(s) == "" <==> IsBlank(s)
  {
    var t := TrimStart(s);
    TrimStartSpec(s);
    TrimEndSpec(t);
    if Trim(s) == "" {
      assert IsBlank(t[0..]);
      assert s == s[..|s| - |t|] + t;
    } else if t != [] {
      assert t[0] == s[|s| - |t|];
    }
  }

  /** The guard of the analyze handler: `text.trim()` is a non-empty string. */
  function HasContent(s: string): (b: bool)
    ensures b <==> !IsBlank(s)
  {
    TrimEmptyIffBlank(s);
    Trim(s) != ""
  }

  // ---------------------------------------------------------------------------
  // The page state

  /** The message shown for every failed analysis. */
  const FailureMessage: string :=
    "Failed to analyze text. Please check your internet connection or try a shorter text."

  /** The root component's state: the input text, the lifecycle state, the last
      result (null when absent) and the error message. `pending` counts the analysis
      calls in flight; it exists only to state that at most one is. */
  class App {
    var text: string
    var appState: AppState
    var result: Option<AnalysisResult>
    var errorMsg: string
    ghost var pending: nat

    /** Each state carries exactly what it should: a result only in SUCCESS, the
        fixed message only in ERROR, and one call in flight exactly in ANALYZING. */
    ghost predicate Valid()
      reads this
    {
      && pending == (if appState == Analyzing then 1 else 0)
      && (appState == Success <==> result.Some?)
      && errorMsg == (if appState == Error then FailureMessage else "")
    }

    /** The initial state: empty text, IDLE, no result, no message. */
    constructor ()
      ensures Valid()
      ensures text == "" && appState == Idle && result == None && errorMsg == ""
    {
      text := "";
      appState := Idle;
      result := None;
      errorMsg := "";
      pending := 0;
    }

    /** The `isLoading` flag passed to the input panel. */
    function IsLoading(): bool
      reads this
    {
      appState == Analyzing
    }

    /** The page shows the loading flag exactly while a call is in flight. */
    lemma LoadingIffCallInFlight()
      requires Valid()
      ensures IsLoading() <==> pending == 1
    {
    }

    /** `setText`: an edit changes the text and nothing else, in every state. */
    method SetText(t: string)
      modifies this
      ensures text == t
      ensures appState == old(appState) && result == old(result) && errorMsg == old(errorMsg)
      ensures pending == old(pending)
      ensures old(Valid()) ==> Valid()
    {
      text := t;
    }

    /** The synchronous part of `handleAnalyze`: nothing happens for blank text;
        otherwise the state becomes ANALYZING, the message and result are cleared
        and the call is issued. Issued while another call is in flight, the page
        loses its invariant: two calls would race to resolve. */
    method Trigger() returns (started: bool)
      requires Valid()
      modifies this
      ensures started <==> !IsBlank(text)
      ensures text == old(text)
      ensures !started ==> appState == old(appState) && result == old(result)
                           && errorMsg == old(errorMsg) && pending == old(pending)
      ensures started ==> appState == Analyzing && errorMsg == "" && result == None
                          && pending == old(pending) + 1
      ensures Valid() <==> !started || old(appState) != Analyzing
    {
      started := HasContent(text);
      if started {
        appState := Analyzing;
        errorMsg := "";
        result := None;
        pending := pending + 1;
      }
    }

    /** The part of `handleAnalyze` after the awaited call settles: a result is
        stored and the state becomes SUCCESS; any error moves to ERROR with the
        fixed message. The text is never touched. */
    method Resolve(outcome: Result<AnalysisResult, GeminiService.ServiceError>)
      requires pending > 0
      modifies this
      ensures text == old(text) && pending == old(pending) - 1
      ensures appState == (if outcome.Ok? then Success else Error)
      ensures outcome.Ok? ==> result == Some(outcome.value) && errorMsg == old(errorMsg)
      ensures outcome.Err? ==> result == old(result) && errorMsg == FailureMessage
      ensures old(Valid()) ==> Valid()
    {
      pending := pending - 1;
      match outcome
      case Ok(data) =>
        result := Some(data);
        appState := Success;
      case Err(_) =>
        appState := Error;
        errorMsg := FailureMessage;
    }

    /** The error notice is rendered. */
    function ShowsErrorNotice(): bool
      reads this
    {
      appState == Error
    }

    /** The results panel is rendered, with this result. */
    function ShownResult(): (shown: Option<AnalysisResult>)
      reads this
      ensures shown.Some? ==> appState == Success && result == shown
    {
      if appState == Success && result.Some? then result else None
    }

    /** The marketing panel is rendered. */
    function ShowsMarketing(): bool
      reads this
    {
      appState == Idle
    }

    /** In a valid page at most one of the three panels shows; results show exactly
        in SUCCESS, and nothing but the input panel shows while ANALYZING. */
    lemma PanelsExclusive()
      requires Valid()
      ensures ShownResult().Some? <==> appState == Success
      ensures ShowsErrorNotice() ==> ShownResult().None? && !ShowsMarketing()
      ensures ShowsMarketing() ==> ShownResult().None?
      ensures IsLoading() ==> !ShowsErrorNotice() && ShownResult().None? && !ShowsMarketing()
    {
    }
  }

  /** One full analysis from a non-loading page: the trigger followed by the
      resolution of the call it issued with `AnalyzeText`'s answer for the text. */
  method AnalyzeOnce(
    app: App,
    apiKey: string,
    generate: GeminiService.Request -> GeminiService.CallOutcome,
    parse: string -> Option<PlagiarismAnalysis>)
    requires app.Valid() && app.appState != Analyzing
    modifies app
    ensures app.Valid() && app.text == old(app.text)
    ensures IsBlank(old(app.text)) ==>
      app.appState == old(app.appState) && app.result == old(app.result)
    ensures !IsBlank(old(app.text)) ==>
      var outcome := GeminiService.AnalyzeText(apiKey, old(app.text), generate, parse);
      && app.appState == (if outcome.Ok? then Success else Error)
      && app.result == (if outcome.Ok? then Some(outcome.value) else None)
      && (apiKey == "" ==> app.appState == Error && app.errorMsg == FailureMessage)
  {
    var started := app.Trigger();
    if started {
      var outcome := GeminiService.AnalyzeText(apiKey, app.text, generate, parse);
      app.Resolve(outcome);
    }
  }
}
