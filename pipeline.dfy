/** The per-ply loop of analyze_game: the win-probability curve, the CSV
    rows and the annotations of the analyzed colour's bad moves. */
module Pipeline {
  import opened Chess
  import opened Assessment

  /** What the board and the engine give for one mainline move: its SAN
      against the position before it, the FEN of that position, and the
      engine's score of the position after it from the analyzed colour's
      side. */
  datatype PlayedMove = PlayedMove(san: string, fen: string, score: Score)

  /** One entry of the annotations list. */
  datatype Annotation = Annotation(kind: string, ply: int, san: string, winPct: real, fen: string)

  function KindName(a: MoveAssessment): string
  {
    if a == Blunder then "blunder" else "mistake"
  }

  /** The score after the latest of the first `n` plies played by `c`, or the
      neutral Cp(0) when `c` has not moved yet. */
  function LastScoreBy(moves: seq<PlayedMove>, first: Color, c: Color, n: nat): Score
    requires n <= |moves|
  {
    if n == 0 then Cp(0)
    else if Mover(first, n - 1) == c then moves[n - 1].score
    else LastScoreBy(moves, first, c, n - 1)
  }

  /** The score a move at ply `p` is measured against: the one after the
      previous ply, or Cp(0) for the first ply of the game. */
  function Baseline(moves: seq<PlayedMove>, p: nat): Score
    requires p < |moves|
  {
    if p == 0 then Cp(0) else moves[p - 1].score
  }

  /** The assessment of the move at ply `p`. */
  function AssessmentAt(wp: WinModel, moves: seq<PlayedMove>, p: nat): MoveAssessment
    requires p < |moves|
  {
    GetMoveAssessment(wp, Baseline(moves, p), moves[p].score, p + 1)
  }

  /** The move at ply `p` is the analyzed colour's and is flagged. */
  predicate Flagged(wp: WinModel, moves: seq<PlayedMove>, first: Color, player: Color, p: nat)
    requires p < |moves|
  {
    Mover(first, p) == player && AssessmentAt(wp, moves, p) != None
  }

  /** The annotation of the move at ply `p`. */
  function AnnotationAt(wp: WinModel, moves: seq<PlayedMove>, p: nat): Annotation
    requires p < |moves|
  {
    Annotation(KindName(AssessmentAt(wp, moves, p)), p - 1, moves[p].san,
               wp(Baseline(moves, p), p), moves[p].fen)
  }

  /** The annotations of the flagged moves among the first `n` plies, in game
      order. */
  function Annotations(wp: WinModel, moves: seq<PlayedMove>, first: Color, player: Color, n: nat): seq<Annotation>
    requires n <= |moves|
  {
    if n == 0 then []
    else Annotations(wp, moves, first, player, n - 1)
         + (if Flagged(wp, moves, first, player, n - 1) then [AnnotationAt(wp, moves, n - 1)] else [])
  }

  /** The plies among the first `n` that `player` plays, in order. */
  function PlayerPlies(first: Color, player: Color, n: nat): seq<nat>
  {
    if n == 0 then []
    else PlayerPlies(first, player, n - 1) + (if Mover(first, n - 1) == player then [n - 1] else [])
  }

  /** The per-ply loop of analyze_game. `turn` is the board's side to move;
      `classified` records, as proof-only state, the plies at which a move
      was classified. */
  method AnalyzeGame(wp: WinModel, moves: seq<PlayedMove>, first: Color, player: Color)
    returns (winPercentData: seq<real>, csvData: seq<(nat, real)>, annotations: seq<Annotation>,
             ghost classified: seq<nat>)
    ensures |winPercentData| == |moves|
    ensures forall i :: 0 <= i < |moves| ==> winPercentData[i] == wp(moves[i].score, i + 1)
    ensures |csvData| == |moves|
    ensures forall i :: 0 <= i < |moves| ==> csvData[i] == (i, winPercentData[i])
    ensures annotations == Annotations(wp, moves, first, player, |moves|)
    ensures classified == PlayerPlies(first, player, |moves|)
    ensures forall k :: 0 <= k < |annotations| && annotations[k].ply >= 0 ==>
              annotations[k].ply < |moves| && annotations[k].winPct == winPercentData[annotations[k].ply]
  {
    winPercentData, csvData, annotations, classified := [], [], [], [];
    var turn := first;
    var scoreBeforeMyTurn := Cp(0);
    var scoreAfterMyTurn := Cp(0);
    for ply := 0 to |moves|
      invariant turn == Mover(first, ply)
      invariant |winPercentData| == ply && |csvData| == ply
      invariant forall i :: 0 <= i < ply ==> winPercentData[i] == wp(moves[i].score, i + 1)
      invariant forall i :: 0 <= i < ply ==> csvData[i] == (i, winPercentData[i])
      invariant scoreBeforeMyTurn == LastScoreBy(moves, first, Other(player), ply)
      invariant scoreAfterMyTurn == LastScoreBy(moves, first, player, ply)
      invariant annotations == Annotations(wp, moves, first, player, ply)
      invariant classified == PlayerPlies(first, player, ply)
    {
      var sanMove := moves[ply].san;
      var fen := moves[ply].fen;
      MoverAlternates(first, ply);
      turn := Other(turn);
      var score := moves[ply].score;
      var winPercent := wp(score, ply + 1);
      winPercentData := winPercentData + [winPercent];
      csvData := csvData + [(ply, winPercent)];
      if turn == player {
        // the opponent just played
        scoreBeforeMyTurn := score;
      } else {
        // the analyzed colour just played
        BaselineIsOpponentScore(moves, first, player, ply);
        scoreAfterMyTurn := score;
        var moveAssessment := GetMoveAssessment(wp, scoreBeforeMyTurn, scoreAfterMyTurn, ply + 1);
        classified := classified + [ply];
        if moveAssessment != None {
          annotations := annotations + [Annotation(
            KindName(moveAssessment),
            ply - 1,
            sanMove,
            wp(scoreBeforeMyTurn, ply),
            fen)];
        }
      }
    }
    AnnotationsOnCurve(wp, moves, first, player, |moves|);
  }

  /** When the analyzed colour plays ply `p`, the opponent's latest score is
      the score after ply `p - 1` (Cp(0) at the start): the tracked
      score_before_my_turn is the baseline of the move. */
  lemma BaselineIsOpponentScore(moves: seq<PlayedMove>, first: Color, player: Color, p: nat)
    requires p < |moves| && Mover(first, p) == player
    ensures LastScoreBy(moves, first, Other(player), p) == Baseline(moves, p)
  {
  }

  /** Every annotation is that of a flagged move of the analyzed colour, one
      ply after its `ply` field, and its kind names the assessment. */
  lemma {:induction false} AnnotationsSound(wp: WinModel, moves: seq<PlayedMove>, first: Color, player: Color, n: nat)
    requires n <= |moves|
    ensures forall k :: 0 <= k < |Annotations(wp, moves, first, player, n)| ==>
              var a := Annotations(wp, moves, first, player, n)[k];
              0 <= a.ply + 1 < n && Flagged(wp, moves, first, player, a.ply + 1)
              && a == AnnotationAt(wp, moves, a.ply + 1)
              && (a.kind == "blunder" <==> AssessmentAt(wp, moves, a.ply + 1) == Blunder)
              && (a.kind == "mistake" <==> AssessmentAt(wp, moves, a.ply + 1) == Mistake)
  {
    if n > 0 {
      AnnotationsSound(wp, moves, first, player, n - 1);
    }
  }

  /** Every flagged move of the analyzed colour is annotated. */
  lemma {:induction false} AnnotationsComplete(wp: WinModel, moves: seq<PlayedMove>, first: Color, player: Color, n: nat)
    requires n <= |moves|
    ensures forall p :: 0 <= p < n && Flagged(wp, moves, first, player, p) ==>
              AnnotationAt(wp, moves, p) in Annotations(wp, moves, first, player, n)
  {
    if n > 0 {
      AnnotationsComplete(wp, moves, first, player, n - 1);
    }
  }

  /** Annotations come in game order: their plies strictly increase. */
  lemma {:induction false} AnnotationsIncreasing(wp: WinModel, moves: seq<PlayedMove>, first: Color, player: Color, n: nat)
    requires n <= |moves|
    ensures forall i, j :: 0 <= i < j < |Annotations(wp, moves, first, player, n)| ==>
              Annotations(wp, moves, first, player, n)[i].ply < Annotations(wp, moves, first, player, n)[j].ply
  {
    if n > 0 {
      AnnotationsIncreasing(wp, moves, first, player, n - 1);
      AnnotationsSound(wp, moves, first, player, n - 1);
    }
  }

  /** An annotation's (ply, win%) point lies on the win-probability curve:
      it is the curve's value at that ply, or the value of the neutral
      score at ply 0 for the first move of the game, which only the side
      that moves first can play. */
  lemma {:induction false} AnnotationsOnCurve(wp: WinModel, moves: seq<PlayedMove>, first: Color, player: Color, n: nat)
    requires n <= |moves|
    ensures forall k :: 0 <= k < |Annotations(wp, moves, first, player, n)| ==>
              var a := Annotations(wp, moves, first, player, n)[k];
              -1 <= a.ply < n - 1
              && (a.ply >= 0 ==> a.winPct == wp(moves[a.ply].score, a.ply + 1))
              && (a.ply == -1 ==> a.winPct == wp(Cp(0), 0) && player == first)
  {
    AnnotationsSound(wp, moves, first, player, n);
  }

  /** The move at a ply of the analyzed colour is classified by the step of
      the curve into that ply. */
  lemma AssessmentIsCurveStep(wp: WinModel, moves: seq<PlayedMove>, p: nat)
    requires 0 < p < |moves|
    ensures AssessmentAt(wp, moves, p) == Classify(wp(moves[p].score, p + 1) - wp(moves[p - 1].score, p))
  {
  }

  /** The plies of `player` are exactly those of its colour. */
  lemma {:induction false} PlayerPliesMembers(first: Color, player: Color, n: nat)
    ensures forall p: nat :: p in PlayerPlies(first, player, n) <==> p < n && Mover(first, p) == player
  {
    if n > 0 {
      PlayerPliesMembers(first, player, n - 1);
    }
  }

  /** The analyzed colour plays every other ply: half of the plies, rounded
      up when it moves first and down otherwise. */
  lemma {:induction false} PlayerPliesCount(first: Color, player: Color, n: nat)
    ensures |PlayerPlies(first, player, n)| == (n + (if first == player then 1 else 0)) / 2
  {
    if n > 0 {
      PlayerPliesCount(first, player, n - 1);
      if (n - 1) % 2 == 0 {
        assert Mover(first, n - 1) == first;
      } else {
        assert Mover(first, n - 1) == Other(first);
      }
    }
  }

  /** There are never more annotations than classifications. */
  lemma {:induction false} AnnotationsAtMostClassified(wp: WinModel, moves: seq<PlayedMove>, first: Color, player: Color, n: nat)
    requires n <= |moves|
    ensures |Annotations(wp, moves, first, player, n)| <= |PlayerPlies(first, player, n)|
  {
    if n > 0 {
      AnnotationsAtMostClassified(wp, moves, first, player, n - 1);
    }
  }

  /** Four plies whose scores for the analyzed colour (white, moving first)
      are 0, 0, -250 and -250 centipawns, with a model giving 0.5 at 0 and
      0.15 at -250: the one annotation is the blunder of white's second
      move, at annotation ply 1. */
  lemma EndToEndBlunder(wp: WinModel, moves: seq<PlayedMove>)
    requires |moves| == 4
    requires moves[0].score == Cp(0) && moves[1].score == Cp(0)
    requires moves[2].score == Cp(-250) && moves[3].score == Cp(-250)
    requires wp(Cp(0), 0) == 0.5 && wp(Cp(0), 1) == 0.5 && wp(Cp(0), 2) == 0.5
    requires wp(Cp(-250), 3) == 0.15
    ensures Annotations(wp, moves, White, White, 4)
         == [Annotation("blunder", 1, moves[2].san, 0.5, moves[2].fen)]
  {
    assert Mover(White, 0) == White && Mover(White, 2) == White;
    assert Mover(White, 1) == Black && Mover(White, 3) == Black;
    assert AssessmentAt(wp, moves, 0) == None;
    assert AssessmentAt(wp, moves, 2) == Blunder;
    assert Annotations(wp, moves, White, White, 1) == [];
    assert Annotations(wp, moves, White, White, 2) == [];
    assert Annotations(wp, moves, White, White, 3) == [AnnotationAt(wp, moves, 2)];
  }
}
