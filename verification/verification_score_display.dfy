/**
  Presentation of the verification score (`VerificationScoreDisplay`): a
  colour band for the icon, number and bar, and a tier label for the tooltip.
  Both are pure functions of the context's `didVerificationScore`; how that
  score is computed is not part of this model.
 */
module ScoreDisplay {
  import DidContext
  import Values

  datatype Tier = Initial | Basic | Enhanced | Advanced {

    /** Tooltip text of the tier. */
    function Label(): string {
      match this
      case Initial => "Initial verification"
      case Basic => "Basic verification"
      case Enhanced => "Enhanced verification"
      case Advanced => "Advanced verification"
    }

    /** Position of the tier in Initial < Basic < Enhanced < Advanced. */
    function Rank(): nat {
      match this
      case Initial => 0
      case Basic => 1
      case Enhanced => 2
      case Advanced => 3
    }

    /** Smallest score that reaches this tier. */
    function Floor(): int {
      match this
      case Initial => 0
      case Basic => 25
      case Enhanced => 50
      case Advanced => 75
    }
  }

  const Red := "#D8131B"
  const Orange := "#ff9800"
  const Blue := "#42a5f5"
  const LightGreen := "#4EDA5F"
  const DarkBlue := "#0B4EBD"

  /** `getScoreColor(score)`. */
  function ScoreColor(score: int): (c: string)
    ensures c == Red <==> score < 30
    ensures c == Orange <==> 30 <= score < 40
    ensures c == Blue <==> 40 <= score <= 60
    ensures c == LightGreen <==> 61 <= score <= 85
    ensures c == DarkBlue <==> score > 85
  {
    if score < 30 then Red
    else if score < 40 then Orange
    else if score <= 60 then Blue
    else if score <= 85 then LightGreen
    else if score <= 100 then DarkBlue
    else DarkBlue
  }

  /** `getVerificationStatus()` for the tooltip's score: the highest tier whose floor the
      score reaches (scores below 0 are Initial). */
  function VerificationStatus(score: int): (t: Tier)
    ensures t.Floor() <= score || t == Initial
    ensures t != Advanced ==> score < t.Floor() + 25
  {
    if score < 25 then Initial
    else if score < 50 then Basic
    else if score < 75 then Enhanced
    else Advanced
  }

  /** Independent characterisation of the tiers: a score is in tier `t` exactly when it lies in
      `t`'s band `[Floor, Floor + 25)`, the outer bands being open-ended. */
  lemma TierBands(score: int, t: Tier)
    ensures VerificationStatus(score) == t <==>
            (t == Initial || t.Floor() <= score) && (t == Advanced || score < t.Floor() + 25)
  {
  }

  /** The tier never goes down as the score goes up. */
  lemma TierMonotone(a: int, b: int)
    requires a <= b
    ensures VerificationStatus(a).Rank() <= VerificationStatus(b).Rank()
  {
  }

  /** The scores at the tier thresholds. */
  lemma TierThresholds()
    ensures VerificationStatus(24) == Initial && VerificationStatus(25) == Basic
    ensures VerificationStatus(49) == Basic && VerificationStatus(50) == Enhanced
    ensures VerificationStatus(74) == Enhanced && VerificationStatus(75) == Advanced
    ensures VerificationStatus(100) == Advanced
  {
  }

  /** What the component shows: the score as text (`{score}%`), the colour of the icon and the
      number, the tooltip's tier label, and the value of the progress bar. */
  datatype ScoreView = ScoreView(scoreText: string, color: string, tierLabel: string, barValue: int)

  /** The component over the context's state. The score text is the score's canonical
      rendering and reads back as it; the colour is the score's colour band and the tier label
      the label of its tier. */
  function Render(s: DidContext.State): (v: ScoreView)
    ensures |v.scoreText| > 0 && v.scoreText[|v.scoreText| - 1] == '%'
    ensures Values.Canonical(v.scoreText[..|v.scoreText| - 1])
    ensures Values.ParseInt(v.scoreText[..|v.scoreText| - 1]) == Values.Some(s.didVerificationScore)
    ensures v.barValue == s.didVerificationScore
    ensures v.color == Red <==> s.didVerificationScore < 30
    ensures v.color == DarkBlue <==> s.didVerificationScore > 85
    ensures v.tierLabel == Initial.Label() <==> s.didVerificationScore < 25
    ensures v.tierLabel == Advanced.Label() <==> s.didVerificationScore >= 75
    ensures v.color == ScoreColor(s.didVerificationScore)
    ensures v.tierLabel == VerificationStatus(s.didVerificationScore).Label()
  {
    var score := s.didVerificationScore;
    Values.IntToStringRoundTrip(score);
    var text := Values.IntToString(score) + "%";
    assert text[..|text| - 1] == Values.IntToString(score);
    ScoreView(text, ScoreColor(score), VerificationStatus(score).Label(), score)
  }

  /** The view depends on nothing in the context but the score: two states with the same
      score, whatever their records and completion flags, render identically. */
  lemma RenderDependsOnlyOnScore(s1: DidContext.State, s2: DidContext.State)
    requires s1.didVerificationScore == s2.didVerificationScore
    ensures Render(s1) == Render(s2)
  {
  }
}
