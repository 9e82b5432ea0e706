/** Colours, engine scores and the win-probability model the analysis is
    parameterised by. */
module Chess {

  /** chess.WHITE / chess.BLACK. */
  datatype Color = White | Black

  function Other(c: Color): (o: Color)
    ensures o != c
  {
    if c == White then Black else White
  }

  /** An engine evaluation, already seen from the analyzed colour's side:
      a centipawn value or a forced mate in a signed number of moves. */
  datatype Score = Cp(centipawns: int) | Mate(moves: int)

  /** The win/draw/loss expectation of a score at a ply (get_win_percent).
      It is a parameter of the model: nothing is assumed about its values. */
  type WinModel = (Score, int) -> real

  /** The colour that plays ply `p` (zero-based) of a game whose initial
      position has `first` to move. */
  function Mover(first: Color, p: nat): Color
  {
    if p % 2 == 0 then first else Other(first)
  }

  /** Plies alternate: the side to move after ply `p` is the mover of ply
      `p + 1`, and it is never the mover of ply `p`. */
  lemma MoverAlternates(first: Color, p: nat)
    ensures Mover(first, p + 1) == Other(Mover(first, p))
    ensures Mover(first, p + 1) != Mover(first, p)
  {
  }
}
