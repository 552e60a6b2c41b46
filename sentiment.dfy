/** The sentiment scorer's result and the label the app derives from it. The scorer
    itself (VADER) is not modelled: callers receive it as a function parameter. */
module Sentiment {

  /** `polarity_scores(text)`: three proportions and the normalised compound score. */
  datatype Scores = Scores(neg: real, neu: real, pos: real, compound: real)

  datatype Label = Positive | Neutral | Negative

  /** Both thresholds on `compound` are strict. */
  const Threshold: real := 0.05

  /** The label of a compound score: Positive above 0.05, Negative below -0.05,
      Neutral on the closed interval between them. */
  function LabelOf(compound: real): (l: Label)
    ensures l == Positive <==> compound > 0.05
    ensures l == Negative <==> compound < -0.05
    ensures l == Neutral <==> -0.05 <= compound <= 0.05
  {
    if compound > Threshold then Positive
    else if compound < -Threshold then Negative
    else Neutral
  }

  /** The label as the result page shows it. */
  function LabelText(l: Label): string {
    match l
    case Positive => "Positive \U{1F60A}"
    case Negative => "Negative \U{1F621}"
    case Neutral => "Neutral"
  }

  /** The boundary cases: 0.05 itself is Neutral, as is -0.05. */
  lemma LabelBoundaries()
    ensures LabelOf(0.06) == Positive
    ensures LabelOf(-0.10) == Negative
    ensures LabelOf(0.0) == Neutral
    ensures LabelOf(0.05) == Neutral
    ensures LabelOf(-0.05) == Neutral
  {
  }

  /** The label is monotone in the compound score. */
  lemma LabelMonotone(c: real, d: real)
    requires c <= d
    ensures LabelOf(c) == Positive ==> LabelOf(d) == Positive
    ensures LabelOf(d) == Negative ==> LabelOf(c) == Negative
  {
  }
}
