/** The report view: pure choices made from one analysis result. */
module ResultsSection {
  import opened Wrappers
  import opened Types
  import GeminiService

  const Green: string := "#22c55e"
  const Yellow: string := "#eab308"
  const Red: string := "#ef4444"

  /** `getScoreColor`: below 20 green, below 50 yellow, otherwise red. */
  function ScoreColor(score: int): (color: string)
    ensures color == Green <==> score < 20
    ensures color == Yellow <==> 20 <= score < 50
    ensures color == Red <==> 50 <= score
  {
    if score < 20 then Green
    else if score < 50 then Yellow
    else Red
  }

  /** The rank of a colour bucket, from green (0) to red (2). */
  function ColorRank(color: string): nat {
    if color == Green then 0 else if color == Yellow then 1 else 2
  }

  /** The buckets are ordered: a higher score never gets a milder colour, and every
      score lands in exactly one of the three buckets. */
  lemma ScoreColorMonotone(lo: int, hi: int)
    requires lo <= hi
    ensures ColorRank(ScoreColor(lo)) <= ColorRank(ScoreColor(hi))
    ensures ScoreColor(lo) in [Green, Yellow, Red]
  {
  }

  /** One slice of the gauge. */
  datatype Slice = Slice(name: string, value: int)

  /** The gauge data: the risk slice and the original slice. */
  function GaugeData(score: int): (data: seq<Slice>)
    ensures |data| == 2 && data[0].name == "Risk" && data[1].name == "Original"
    ensures data[0].value == score
    ensures data[0].value + data[1].value == 100
  {
    [Slice("Risk", score), Slice("Original", 100 - score)]
  }

  /** For a score in the documented range both slices are non-negative; outside it
      the original slice goes negative or exceeds 100, since nothing clamps it. */
  lemma GaugeSlicesInRange(score: int)
    ensures InDocumentedRange(score) <==>
      (InDocumentedRange(GaugeData(score)[0].value) && InDocumentedRange(GaugeData(score)[1].value))
  {
  }

  /** The verdict label under the gauge. */
  function RiskLabel(level: RiskLevel): (verdict: string)
    ensures level == Low ==> verdict == "Likely Original"
    ensures level == Medium ==> verdict == "Suspicious Content"
    ensures level == High ==> verdict == "High Probability of Copying/AI"
  {
    if level == Low then "Likely Original"
    else if level == Medium then "Suspicious Content"
    else "High Probability of Copying/AI"
  }

  /** Different levels get different labels. */
  lemma RiskLabelInjective(a: RiskLevel, b: RiskLevel)
    ensures RiskLabel(a) == RiskLabel(b) <==> a == b
  {
  }

  const UrlsUnavailable: string := "Content matches web sources, but specific URLs could not be retrieved."
  const NoSourcesFound: string := "No matching web sources found."

  /** The note shown instead of the source list: none when there are sources;
      otherwise it depends on whether the web-match score is positive. */
  function SourcesNote(analysis: PlagiarismAnalysis, sources: seq<GroundingChunk>): (note: Option<string>)
    ensures note.None? <==> |sources| > 0
    ensures note == Some(UrlsUnavailable) <==> |sources| == 0 && analysis.plagiarismScore > 0
    ensures note == Some(NoSourcesFound) <==> |sources| == 0 && analysis.plagiarismScore <= 0
  {
    if |sources| > 0 then None
    else if analysis.plagiarismScore > 0 then Some(UrlsUnavailable)
    else Some(NoSourcesFound)
  }

  /** The heading of one source: its title, or "Unknown Source" when the title is
      missing or empty. */
  function SourceTitle(source: GroundingChunk): (title: string)
    ensures title != ""
    ensures source.web.Some? && source.web.value.title.Some? && source.web.value.title.value != ""
            ==> title == source.web.value.title.value
    ensures !(source.web.Some? && source.web.value.title.Some? && source.web.value.title.value != "")
            ==> title == "Unknown Source"
  {
    match source.web
    case Some(WebReference(_, Some(t))) => if t != "" then t else "Unknown Source"
    case _ => "Unknown Source"
  }

  /** The flagged-segment section is rendered. */
  predicate FlaggedSectionVisible(analysis: PlagiarismAnalysis) {
    |analysis.flaggedSegments| > 0
  }

  /** One rendered card: the quoted segment above its reason. */
  datatype SegmentCard = SegmentCard(quote: string, reason: string)

  /** The cards of the flagged-segment section, one per segment, in list order. */
  function SegmentCards(segments: seq<FlaggedSegment>): (cards: seq<SegmentCard>)
    ensures |cards| == |segments|
    ensures forall i :: 0 <= i < |segments| ==>
      cards[i] == SegmentCard(segments[i].segment, segments[i].reason)
  {
    if segments == [] then []
    else [SegmentCard(segments[0].segment, segments[0].reason)] + SegmentCards(segments[1..])
  }

  /** The section is shown exactly when it has at least one card. */
  lemma FlaggedSectionShownIffCards(analysis: PlagiarismAnalysis)
    ensures FlaggedSectionVisible(analysis) <==> SegmentCards(analysis.flaggedSegments) != []
  {
  }

  /** The headings of the source list, in order. */
  function SourceTitles(sources: seq<GroundingChunk>): (titles: seq<string>)
    ensures |titles| == |sources|
    ensures forall i :: 0 <= i < |sources| ==> titles[i] == SourceTitle(sources[i])
  {
    if sources == [] then [] else [SourceTitle(sources[0])] + SourceTitles(sources[1..])
  }

  /** The fixed fallback analysis renders as a green 0%, "Likely Original", no
      flagged-segment section, and "No matching web sources found." when it has no
      sources. */
  lemma FallbackRendering()
    ensures ScoreColor(GeminiService.FallbackAnalysis.score) == Green
    ensures GaugeData(GeminiService.FallbackAnalysis.score)[1].value == 100
    ensures RiskLabel(GeminiService.FallbackAnalysis.riskLevel) == "Likely Original"
    ensures !FlaggedSectionVisible(GeminiService.FallbackAnalysis)
    ensures SourcesNote(GeminiService.FallbackAnalysis, []) == Some(NoSourcesFound)
  {
  }
}
