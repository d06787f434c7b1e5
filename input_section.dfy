/** The input panel: the character counter, the analyze button's enabling rule and
    the handlers that overwrite the page's text. The panel has no state of its own;
    every handler writes the text held by the page. */
module InputSection {
  import opened Types
  import opened Constants
  import Controller

  /** The number of UTF-16 code units that encode `c`: two for a character outside
      the Basic Multilingual Plane (a surrogate pair), one otherwise. */
  function Utf16Units(c: char): nat {
    if c as int >= 0x10000 then 2 else 1
  }

  /** JavaScript's `length` of a string: its number of UTF-16 code units. */
  function Utf16Length(s: string): (n: nat)
    ensures |s| <= n <= 2 * |s|
  {
    if s == [] then 0 else Utf16Units(s[0]) + Utf16Length(s[1..])
  }

  /** A text made only of characters outside the Basic Multilingual Plane has
      twice as many code units as characters. */
  lemma {:induction false} Utf16LengthAstral(s: string)
    requires forall i :: 0 <= i < |s| ==> s[i] as int >= 0x10000
    ensures Utf16Length(s) == 2 * |s|
  {
    if s != [] {
      Utf16LengthAstral(s[1..]);
    }
  }

  /** The number shown in the counter: `text.length`. */
  function CharCount(text: string): (n: nat)
    ensures n == 0 <==> text == []
  {
    Utf16Length(text)
  }

  /** The text is longer than the limit. */
  predicate IsOverLimit(text: string) {
    CharCount(text) > MaxChars
  }

  /** The text has no characters at all (white space counts as characters). */
  predicate IsEmpty(text: string) {
    CharCount(text) == 0
  }

  /** The analyze button is disabled. */
  predicate AnalyzeDisabled(text: string, isLoading: bool) {
    IsEmpty(text) || IsOverLimit(text) || isLoading
  }

  /** The button is enabled exactly for 1 to 5000 UTF-16 code units while nothing
      loads; a text of exactly 5000 units is accepted, 5001 is not. Up to 2500
      characters always fit, and more than 5000 characters never do. */
  lemma AnalyzeEnabledIff(text: string, isLoading: bool)
    ensures !AnalyzeDisabled(text, isLoading) <==> 0 < Utf16Length(text) <= 5000 && !isLoading
    ensures 0 < |text| <= 2500 && !isLoading ==> !AnalyzeDisabled(text, isLoading)
    ensures |text| > 5000 ==> AnalyzeDisabled(text, isLoading)
  {
  }

  /** 2600 emoji are 2600 characters but 5200 code units: the button is disabled
      and the counter is red. */
  lemma AstralTextOverLimit(s: string)
    requires |s| == 2600
    requires forall i :: 0 <= i < |s| ==> s[i] as int >= 0x10000
    ensures AnalyzeDisabled(s, false) && CounterTone(s) == Alert
  {
    Utf16LengthAstral(s);
  }

  /** White space alone enables the button although the handler will ignore the press. */
  lemma BlankTextEnablesButton()
    ensures !AnalyzeDisabled(" ", false) && Controller.IsBlank(" ")
  {
  }

  /** The tone of the character counter. */
  datatype Tone = Alert | Muted

  /** The counter turns red exactly when the text is over the limit. */
  function CounterTone(text: string): (tone: Tone)
    ensures tone == Alert <==> Utf16Length(text) > MaxChars
  {
    if IsOverLimit(text) then Alert else Muted
  }

  /** The clear button is shown. */
  predicate ClearVisible(text: string) {
    |text| > 0
  }

  /** The language of a sample button. */
  datatype SampleLanguage = Ar | En

  /** The text a sample button loads. */
  function SampleText(lang: SampleLanguage): (sample: string)
    ensures 0 < Utf16Length(sample) <= MaxChars
  {
    match lang
    case Ar => SampleTextArabic
    case En => SampleTextEnglish
  }

  /** The two samples differ, and either one enables the analyze button. */
  lemma SamplesDistinctAndAccepted(lang: SampleLanguage)
    ensures SampleText(Ar) != SampleText(En)
    ensures !AnalyzeDisabled(SampleText(lang), false)
    ensures !Controller.IsBlank(SampleText(lang))
  {
    assert SampleTextArabic[0] == '\U{0627}';
    assert SampleTextEnglish[0] == 'A';
    var s := SampleText(lang);
    assert !Controller.IsJsWhitespace(s[0]);
  }

  /** `handleClear`: the text becomes empty; nothing else on the page changes. */
  method HandleClear(app: Controller.App)
    modifies app
    ensures app.text == ""
    ensures app.appState == old(app.appState) && app.result == old(app.result)
    ensures app.errorMsg == old(app.errorMsg) && app.pending == old(app.pending)
    ensures old(app.Valid()) ==> app.Valid()
    ensures !ClearVisible(app.text) && AnalyzeDisabled(app.text, app.IsLoading())
  {
    app.SetText("");
  }

  /** `handleSample`: the text becomes the chosen sample; nothing else changes. */
  method HandleSample(app: Controller.App, lang: SampleLanguage)
    modifies app
    ensures app.text == (if lang == Ar then SampleTextArabic else SampleTextEnglish)
    ensures app.appState == old(app.appState) && app.result == old(app.result)
    ensures app.errorMsg == old(app.errorMsg) && app.pending == old(app.pending)
    ensures old(app.Valid()) ==> app.Valid()
  {
    app.SetText(SampleText(lang));
  }

  /** The text area's change handler: the text becomes what was typed. */
  method HandleChange(app: Controller.App, value: string)
    modifies app
    ensures app.text == value
    ensures app.appState == old(app.appState) && app.result == old(app.result)
    ensures app.errorMsg == old(app.errorMsg) && app.pending == old(app.pending)
    ensures old(app.Valid()) ==> app.Valid()
  {
    app.SetText(value);
  }

  /** A press of the analyze button: a disabled button does nothing, an enabled one
      runs the handler's start. Because the button is disabled while loading, a press
      never issues a second call, so the page keeps its invariant in every state. */
  method PressAnalyze(app: Controller.App) returns (started: bool)
    requires app.Valid()
    modifies app
    ensures app.Valid()
    ensures app.pending <= 1
    ensures started ==> 0 < CharCount(old(app.text)) <= MaxChars
    ensures started <==> !AnalyzeDisabled(old(app.text), old(app.IsLoading()))
                         && !Controller.IsBlank(old(app.text))
    ensures app.text == old(app.text)
    ensures started ==> app.appState == Analyzing && app.result.None? && app.errorMsg == ""
    ensures !started ==> app.appState == old(app.appState) && app.result == old(app.result)
                         && app.errorMsg == old(app.errorMsg)
  {
    if AnalyzeDisabled(app.text, app.IsLoading()) {
      return false;
    }
    started := app.Trigger();
  }
}
