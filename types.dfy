/** The data contract shared by the analysis service, the controller and the views. */
module Types {
  import opened Wrappers

  /** The `web` part of a grounding chunk; both fields are optional. */
  datatype WebReference = WebReference(uri: Option<string>, title: Option<string>)

  /** One grounding chunk as returned by the inference service; `web` is optional. */
  datatype GroundingChunk = GroundingChunk(web: Option<WebReference>)

  /** The coarse classification of an analysis: one of exactly three values. */
  datatype RiskLevel = Low | Medium | High

  /** One suspicious passage and the reason it was flagged. */
  datatype FlaggedSegment = FlaggedSegment(segment: string, reason: string)

  /** The structured answer of one inference call. The scores are documented as
      0-100 but nothing enforces that range. */
  datatype PlagiarismAnalysis = PlagiarismAnalysis(
    score: int,
    aiScore: int,
    plagiarismScore: int,
    riskLevel: RiskLevel,
    summary: string,
    flaggedSegments: seq<FlaggedSegment>)

  /** One analysis together with the ordered list of grounding chunks shown as sources. */
  datatype AnalysisResult = AnalysisResult(analysis: PlagiarismAnalysis, sources: seq<GroundingChunk>)

  /** The four lifecycle states of the page. */
  datatype AppState = Idle | Analyzing | Success | Error

  /** The documented (but unenforced) range of a score. */
  predicate InDocumentedRange(n: int) { 0 <= n <= 100 }

  /** The documented relation between the three scores. */
  predicate ScoreIsMax(a: PlagiarismAnalysis) {
    a.score == if a.aiScore >= a.plagiarismScore then a.aiScore else a.plagiarismScore
  }

  /** The string literal that stands for a risk level in the wire format. */
  function RiskLevelName(r: RiskLevel): string {
    match r
    case Low => "Low"
    case Medium => "Medium"
    case High => "High"
  }

  /** Reads a risk level from its wire-format string; any other string is not a risk level. */
  function ParseRiskLevel(s: string): (r: Option<RiskLevel>)
    ensures r.Some? ==> RiskLevelName(r.value) == s
  {
    if s == "Low" then Some(Low)
    else if s == "Medium" then Some(Medium)
    else if s == "High" then Some(High)
    else None
  }

  /** Exactly the three names are risk levels, and each level has its own name. */
  lemma RiskLevelNamesRoundTrip(r: RiskLevel, s: string)
    ensures ParseRiskLevel(RiskLevelName(r)) == Some(r)
    ensures ParseRiskLevel(s).Some? <==> s in ["Low", "Medium", "High"]
  {
  }

  /** The string value of each lifecycle state. */
  function AppStateName(st: AppState): string {
    match st
    case Idle => "IDLE"
    case Analyzing => "ANALYZING"
    case Success => "SUCCESS"
    case Error => "ERROR"
  }

  /** Reads a lifecycle state from its string value. */
  function ParseAppState(s: string): (r: Option<AppState>)
    ensures r.Some? ==> AppStateName(r.value) == s
  {
    if s == "IDLE" then Some(Idle)
    else if s == "ANALYZING" then Some(Analyzing)
    else if s == "SUCCESS" then Some(Success)
    else if s == "ERROR" then Some(Error)
    else None
  }

  /** The enumeration has exactly four members, with four distinct values. */
  lemma AppStateNamesRoundTrip(st: AppState, s: string)
    ensures ParseAppState(AppStateName(st)) == Some(st)
    ensures ParseAppState(s).Some? <==> s in ["IDLE", "ANALYZING", "SUCCESS", "ERROR"]
  {
  }
}
