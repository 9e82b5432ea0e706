/** Classification of one move of the analyzed colour from the change of its
    win probability (get_move_assessment). */
module Assessment {
  import opened Chess

  /** MoveAssessment: NONE, BLUNDER, MISTAKE. */
  datatype MoveAssessment = None | Blunder | Mistake

  /** A drop of more than this is a blunder. */
  const BlunderDrop: real := 0.2
  /** A drop of more than this (and at most BlunderDrop) is a mistake. */
  const MistakeDrop: real := 0.1

  /** How bad an assessment is: Blunder > Mistake > None. */
  function Severity(a: MoveAssessment): nat
  {
    match a
    case None => 0
    case Mistake => 1
    case Blunder => 2
  }

  /** The threshold test on a change of win probability. The severity is
      the number of thresholds the change falls strictly below, so only
      drops are ever flagged. */
  function Classify(change: real): (a: MoveAssessment)
    ensures Severity(a) == (if change < -BlunderDrop then 1 else 0)
                         + (if change < -MistakeDrop then 1 else 0)
  {
    if change < -BlunderDrop then Blunder
    else if change < -MistakeDrop then Mistake
    else None
  }

  /** The assessment of the analyzed colour's move at `ply`: its win
      probability after the move (at `ply`) compared with the one before it
      (at `ply - 1`). */
  function GetMoveAssessment(wp: WinModel, before: Score, after: Score, ply: int): (a: MoveAssessment)
    ensures a == Blunder <==> wp(after, ply) < wp(before, ply - 1) - BlunderDrop
    ensures a == Mistake <==> wp(before, ply - 1) - BlunderDrop <= wp(after, ply) < wp(before, ply - 1) - MistakeDrop
    ensures a == None <==> wp(before, ply - 1) - MistakeDrop <= wp(after, ply)
  {
    Classify(wp(after, ply) - wp(before, ply - 1))
  }

  /** A larger drop is never judged less severe than a smaller one. */
  lemma ClassifyMonotone(change1: real, change2: real)
    requires change1 <= change2
    ensures Severity(Classify(change1)) >= Severity(Classify(change2))
  {
  }

  /** The rule is directional: a rise, or no change, is never flagged. */
  lemma ClassifyIgnoresRises(change: real)
    requires change >= 0.0
    ensures Classify(change) == None
  {
  }

  /** The boundaries: both comparisons are strict, so a drop of exactly 0.2
      is a mistake and a drop of exactly 0.1 is nothing. */
  lemma ClassifyBoundaries()
    ensures Classify(-0.2001) == Blunder
    ensures Classify(-0.2) == Mistake
    ensures Classify(-0.1001) == Mistake
    ensures Classify(-0.1) == None
    ensures Classify(0.0) == None
  {
  }
}
