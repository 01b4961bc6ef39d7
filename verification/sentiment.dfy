/** Scoring one text and naming its polarity (backend/services/sentiment.py,
    `analyze_text` and `get_sentiment_label`). */
module Sentiment {
  import opened Numeric

  /** A compound polarity as VADER reports it. */
  type Polarity = r: real | -1.0 <= r <= 1.0

  /** VADER's `polarity_scores`, renamed as the analyzer returns them. */
  datatype PolarityScores = PolarityScores(
    compound: Polarity, positive: real, negative: real, neutral: real)

  /** What the analyzer takes from libraries rather than computing itself:
      the VADER scorer, and the table of non-ASCII characters that Python's
      regular expressions count as word characters. */
  datatype Engine = Engine(vader: string -> PolarityScores, unicodeWord: char -> bool)

  /** The scores of an empty text. */
  const NeutralScores := PolarityScores(0.0, 0.0, 0.0, 1.0)

  /** `analyze_text`: the empty text gets the neutral scores without
      consulting VADER; any other text gets VADER's. */
  function AnalyzeText(e: Engine, text: string): (r: PolarityScores)
    ensures text == "" ==> r == NeutralScores
    ensures text != "" ==> r == e.vader(text)
  {
    if text == "" then NeutralScores else e.vader(text)
  }

  /** The compound score alone, which is all the rest of the analyzer uses. */
  function Compound(e: Engine, text: string): Polarity {
    AnalyzeText(e, text).compound
  }

  /** An empty text scores the same whatever the scorer: compound 0.0,
      positive 0.0, negative 0.0, neutral 1.0. */
  lemma EmptyTextIgnoresScorer(e1: Engine, e2: Engine)
    ensures AnalyzeText(e1, "") == AnalyzeText(e2, "")
    ensures var r := AnalyzeText(e1, "");
            r.compound == 0.0 && r.positive == 0.0 && r.negative == 0.0 && r.neutral == 1.0
  {
  }

  /** A non-empty text is scored by VADER and nothing else: its scores are
      VADER's. */
  lemma NonEmptyTextUsesScorer(e: Engine, text: string)
    requires text != ""
    ensures AnalyzeText(e, text) == e.vader(text)
  {
  }

  datatype Label = Positive | Negative | Neutral {
    /** The label as the analyzer spells it. */
    function Name(): string {
      match this
      case Positive => "positive"
      case Negative => "negative"
      case Neutral => "neutral"
    }

    /** Negative < neutral < positive. */
    function Rank(): int {
      match this
      case Negative => 0
      case Neutral => 1
      case Positive => 2
    }
  }

  /** Compound scores at or above this are positive. */
  const PositiveThreshold: real := 0.05
  /** Compound scores at or below this are negative. */
  const NegativeThreshold: real := -0.05

  /** `get_sentiment_label`: both thresholds are inclusive; only scores strictly
      between them are neutral. */
  function LabelOf(compound: real): (l: Label)
    ensures l == Positive <==> compound >= 0.05
    ensures l == Negative <==> compound <= -0.05
    ensures l == Neutral <==> -0.05 < compound < 0.05
  {
    if compound >= PositiveThreshold then Positive
    else if compound <= NegativeThreshold then Negative
    else Neutral
  }

  /** A higher score never gets a lower label. */
  lemma LabelMonotone(a: real, b: real)
    requires a <= b
    ensures LabelOf(a).Rank() <= LabelOf(b).Rank()
  {
  }

  /** The boundary values: 0.05 and -0.05 are not neutral, 0.049 and -0.049 are. */
  lemma LabelBoundaries()
    ensures LabelOf(0.05) == Positive && LabelOf(0.049) == Neutral
    ensures LabelOf(-0.05) == Negative && LabelOf(-0.049) == Neutral
  {
  }

  /** The label is taken before rounding: a mean of 0.0496 is neutral although
      it is reported as 0.05, which on its own would be positive. The reported
      value is exact-real rounding; Python rounds the nearest binary float to
      0.0496, which here gives the same 0.05. */
  lemma LabelPrecedesRounding()
    ensures LabelOf(0.0496) == Neutral
    ensures Round(0.0496, 3) == 0.05
    ensures LabelOf(Round(0.0496, 3)) == Positive
  {
    assert Pow10(3) == 1000;
    assert (0.0496 * 1000.0).Floor == 49;
  }
}
