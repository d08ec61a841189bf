/**
 * The weekly score card: a ring whose filled arc shows the adherence score,
 * painted and captioned by score tier.
 */
module WeeklyScore {
  import Palette

  /** The ring's stroke-dash basis (its circumference in dash units). */
  const Circumference: real := 440.0

  const ExcellentMessage := "Excellent work! Keep it up!"
  const GoodMessage := "Good effort, but room to improve."
  const FocusMessage := "Let's focus on healthier choices."

  /** `getScoreColor`: 80 and 50 belong to the higher tier. */
  function ScoreColor(score: real): (color: string)
    ensures color == Palette.Green <==> score >= 80.0
    ensures color == Palette.Orange <==> 50.0 <= score < 80.0
    ensures color == Palette.Red <==> score < 50.0
  {
    if score >= 80.0 then Palette.Green
    else if score >= 50.0 then Palette.Orange
    else Palette.Red
  }

  /** The caption under the ring, chosen by its own conditional. */
  function ScoreMessage(score: real): (message: string)
    ensures message == ExcellentMessage <==> score >= 80.0
    ensures message == GoodMessage <==> 50.0 <= score < 80.0
    ensures message == FocusMessage <==> score < 50.0
  {
    if score >= 80.0 then ExcellentMessage
    else if score >= 50.0 then GoodMessage
    else FocusMessage
  }

  /** Colour and caption always name the same tier. */
  lemma ColorAndMessageAgree(score: real)
    ensures ScoreColor(score) == Palette.Green <==> ScoreMessage(score) == ExcellentMessage
    ensures ScoreColor(score) == Palette.Orange <==> ScoreMessage(score) == GoodMessage
    ensures ScoreColor(score) == Palette.Red <==> ScoreMessage(score) == FocusMessage
  {
  }

  /** `strokeDashoffset`: how much of the ring is left unfilled. */
  function DashOffset(score: real): (offset: real)
    ensures score == 0.0 ==> offset == Circumference
    ensures score == 100.0 ==> offset == 0.0
    ensures 0.0 <= score <= 100.0 ==> 0.0 <= offset <= Circumference
    ensures score > 100.0 ==> offset < 0.0
    ensures score < 0.0 ==> offset > Circumference
  {
    Circumference - (Circumference * score) / 100.0
  }

  /** A higher score always fills more of the ring. */
  lemma DashOffsetStrictlyDecreasing(lo: real, hi: real)
    requires lo < hi
    ensures DashOffset(lo) > DashOffset(hi)
  {
  }

  /** What the card shows: the number, the ring's offset and stroke, the caption. */
  datatype Card = Card(shownScore: real, dashOffset: real, stroke: string, message: string)

  /** The card for a score; the number is shown as given, never clamped. */
  function Render(score: real): (card: Card)
    ensures card.shownScore == score
    ensures card.dashOffset == DashOffset(score)
    ensures card.stroke == Palette.Green <==> card.message == ExcellentMessage
    ensures card.stroke == Palette.Red <==> card.message == FocusMessage
    ensures card.stroke == ScoreColor(score) && card.message == ScoreMessage(score)
  {
    Card(score, DashOffset(score), ScoreColor(score), ScoreMessage(score))
  }
}
