/**
 * The compatibility score widget: a score is placed in one of four bands at
 * 90, 80 and 70, and the band picks both the colour and the label.
 */
module CompatibilityScore {
  import opened Badges

  datatype Band = Fair | Good | Great | Excellent

  /** The reference banding: at least 90, at least 80, at least 70, anything lower. */
  function BandOf(score: int): Band
  {
    if score >= 90 then Excellent else if score >= 80 then Great else if score >= 70 then Good else Fair
  }

  function Rank(b: Band): nat
  {
    match b
    case Fair => 0
    case Good => 1
    case Great => 2
    case Excellent => 3
  }

  function BandColor(b: Band): Color
  {
    match b
    case Excellent => Green
    case Great => Blue
    case Good => Yellow
    case Fair => Gray
  }

  function BandLabel(b: Band): string
  {
    match b
    case Excellent => "Excellent Match"
    case Great => "Great Match"
    case Good => "Good Match"
    case Fair => "Fair Match"
  }

  /** `getScoreColor`. */
  function ScoreColor(score: int): (c: Color)
    ensures c == Green <==> score >= 90
    ensures c == Blue <==> 80 <= score < 90
    ensures c == Yellow <==> 70 <= score < 80
    ensures c == Gray <==> score < 70
  {
    if score >= 90 then Green
    else if score >= 80 then Blue
    else if score >= 70 then Yellow
    else Gray
  }

  /** `getScoreLabel`. */
  function ScoreLabel(score: int): (r: string)
    ensures r == "Excellent Match" <==> score >= 90
    ensures r == "Great Match" <==> 80 <= score < 90
    ensures r == "Good Match" <==> 70 <= score < 80
    ensures r == "Fair Match" <==> score < 70
  {
    if score >= 90 then "Excellent Match"
    else if score >= 80 then "Great Match"
    else if score >= 70 then "Good Match"
    else "Fair Match"
  }

  /** The colour and the label always come from the same band. */
  lemma ColorAndLabelAgree(score: int)
    ensures ScoreColor(score) == BandColor(BandOf(score))
    ensures ScoreLabel(score) == BandLabel(BandOf(score))
  {
  }

  /** A higher score never lands in a lower band. */
  lemma BandsMonotone(low: int, high: int)
    requires low <= high
    ensures Rank(BandOf(low)) <= Rank(BandOf(high))
  {
  }

  /** Two scores share a colour exactly when they share a label. */
  lemma {:induction false} ColorMatchesLabel(a: int, b: int)
    ensures ScoreColor(a) == ScoreColor(b) <==> ScoreLabel(a) == ScoreLabel(b)
  {
    ColorAndLabelAgree(a);
    ColorAndLabelAgree(b);
    BandLabelInjective(BandOf(a), BandOf(b));
  }

  lemma BandLabelInjective(x: Band, y: Band)
    ensures BandLabel(x) == BandLabel(y) <==> x == y
    ensures BandColor(x) == BandColor(y) <==> x == y
  {
    if x != y {
      assert BandLabel(x)[1] != BandLabel(y)[1];
    }
  }

  datatype Factor = Factor(name: string, weight: int, matchPercent: int)

  /** What the widget displays: the score as given, its colour and label, and one row per factor. */
  datatype ScoreView = ScoreView(percent: int, color: Color, caption: string, rows: seq<(string, int)>)

  /** The factor list is drawn only when present and non-empty; `weight` is never read. */
  function Render(score: int, factors: seq<Factor>): (v: ScoreView)
    ensures v.percent == score && v.color == ScoreColor(score) && v.caption == ScoreLabel(score)
    ensures |v.rows| == |factors|
    ensures forall i :: 0 <= i < |factors| ==> v.rows[i] == (factors[i].name, factors[i].matchPercent)
  {
    ScoreView(score, ScoreColor(score), ScoreLabel(score),
              seq(|factors|, i requires 0 <= i < |factors| => (factors[i].name, factors[i].matchPercent)))
  }

  /** Changing the factors' weights changes nothing on screen. */
  lemma WeightsUnused(score: int, fs: seq<Factor>, gs: seq<Factor>)
    requires |fs| == |gs|
    requires forall i :: 0 <= i < |fs| ==> fs[i].name == gs[i].name && fs[i].matchPercent == gs[i].matchPercent
    ensures Render(score, fs) == Render(score, gs)
  {
  }
}
