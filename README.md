# Move assessment of local-chess-analysis, in Dafny

local-chess-analysis replays a game's mainline, asks a chess engine for an
evaluation after every ply, turns each evaluation into a win probability for
the analyzed colour, and flags that colour's moves whose win probability
dropped by more than 0.1 (mistake) or 0.2 (blunder). It then prints each
flagged move as a move reference and a lichess analysis link, and builds a
lichess paste link for the whole game.

This project models that core of `main.py`:

- `chess.dfy` (module `Chess`): colours, engine scores, the win-probability
  model `WinModel = (Score, int) -> real`, and whose turn a ply is.
- `assessment.dfy` (module `Assessment`): `MoveAssessment` and
  `get_move_assessment` with its two fixed thresholds.
- `pipeline.dfy` (module `Pipeline`): the per-ply loop of `analyze_game` as
  the method `AnalyzeGame`, with its two tracked scores, the three lists it
  appends to, and the side to move that `board.push` flips. The method is
  proved against the specification functions `Annotations`, `PlayerPlies` and
  `LastScoreBy`, and the lemmas beside them state what the annotation list
  means.
- `format.dfy` (module `Format`): `beautiful_san_move`, `lichess_fen`, the
  replace chain of `lichess_analysis_full` and the string of a report line.
- `text.dfy` (module `Text`): decimal rendering of integers and
  `str.replace` with a one-character pattern.

The engine, the board and python-chess's WDL model are parameters:
`AnalyzeGame` receives, per mainline move, the SAN of the move, the FEN of
the position before it and the engine's score of the position after it (a
`PlayedMove`), the side to move in the initial position, the analyzed colour,
and the win-probability function `wp`. Nothing is assumed about `wp`.

Three details of `main.py` that are easy to get wrong, kept as written:

- a drop of exactly 0.2 is a mistake, not "none" (`win_percent_change < -0.2`
  is strict; `Assessment.ClassifyBoundaries`);
- `beautiful_san_move` renders annotation ply 0 as `"1.."`, ply 1 as `"2."`;
  it is called with one less than the loop ply, so these are the references
  of the second and third plies (`Format.BeautifulSanMoveSmallPlies`);
- classification is directional only: a rise is never flagged.

## Model

| member | source | states |
|---|---|---|
| Chess.MoverAlternates | main.py:119-126 | after each push the side to move changes, so the mover of ply p + 1 is the other colour |
| Assessment.Classify | main.py:70-75 | the severity of the assessment is the number of thresholds (-0.2, -0.1) the change falls strictly below, so rises are never flagged |
| Assessment.GetMoveAssessment | main.py:65-75 | blunder iff win% after (at ply) is more than 0.2 below win% before (at ply - 1); mistake iff the drop is more than 0.1 and at most 0.2; none otherwise |
| Assessment.ClassifyMonotone | main.py:70-75 | a larger drop is never assessed less severely than a smaller one |
| Assessment.ClassifyIgnoresRises | main.py:68-75 | a change of zero or more is never flagged |
| Assessment.ClassifyBoundaries | main.py:70-75 | -0.2001 is a blunder, -0.2 and -0.1001 are mistakes, -0.1 and 0 are nothing |
| Pipeline.AnalyzeGame | main.py:104-142 | one win% per move, equal to wp(score, ply + 1); CSV row i is (i, win% i); annotations equal the specification `Annotations`; one classification per ply of the analyzed colour, in order; every annotation point with ply >= 0 lies on the win% curve |
| Pipeline.BaselineIsOpponentScore | main.py:109-132 | on a ply of the analyzed colour, score_before_my_turn (the latest opponent score, Cp(0) before any) is the score after the previous ply |
| Pipeline.AnnotationsSound | main.py:133-142 | each annotation is that of a flagged move of the analyzed colour at ply + 1, with its SAN, pre-move FEN and win% wp(baseline, ply + 1), and kind "blunder" iff BLUNDER, "mistake" iff MISTAKE |
| Pipeline.AnnotationsComplete | main.py:126-142 | every move of the analyzed colour that is not assessed NONE has its annotation |
| Pipeline.AnnotationsIncreasing | main.py:112-142 | annotation plies strictly increase |
| Pipeline.AnnotationsOnCurve | main.py:122-139 | an annotation's win% is the curve's value at its ply; ply -1 happens only when the analyzed colour moves first and then uses wp(Cp(0), 0) |
| Pipeline.AssessmentIsCurveStep | main.py:122-132 | after the first ply, a move is classified by the difference of the curve's values at the ply and the ply before |
| Pipeline.PlayerPliesMembers | main.py:126-132 | classification runs exactly on the plies whose mover is the analyzed colour |
| Pipeline.PlayerPliesCount | main.py:126-132 | the number of classifications over n plies is n / 2, rounded up when the analyzed colour moves first and down otherwise |
| Pipeline.AnnotationsAtMostClassified | main.py:132-134 | there are never more annotations than classifications |
| Pipeline.EndToEndBlunder | main.py:104-142 | scores 0, 0, -250, -250 for white moving first, with win% 0.5 at 0 and 0.15 at -250, give exactly one annotation: a blunder at annotation ply 1 |
| Format.TruncHalf | main.py:83-85 | Python's int(p / 2): p - 2h is -1, 0 or 1 and has the sign of p |
| Format.BeautifulSanMove | main.py:81-85 | beautiful_san_move as written: for annotation ply >= 0 it is the program's move-number reference (full-move number, "." or "..") of the move at the next ply; at annotation ply -1 it is "2." + san |
| Format.BeautifulSanMoveAfterFirstPly | main.py:81-85 | for annotation ply >= 0 the rendering is the program's move-number reference of the move at the next ply, and agrees with the corrected MoveRef |
| Format.BeautifulSanMoveFirstPly | main.py:81-85 | annotation ply -1 renders "2." + san, while the move is move 1 ("1." + san) |
| Format.BeautifulSanMoveSmallPlies | main.py:81-85 | annotation plies 0, 1, 2, 3 render "1..", "2.", "2..", "3." before the SAN |
| Format.MoveRef | main.py:81-85 | the corrected rendering: for every annotation ply >= -1 it is the program's move-number reference of the move at the next ply |
| Format.LichessFen | main.py:77-78 | the analysis URL prefix, then the FEN with each space turned into '_' character by character, then exactly ?color=, then white or black; no space in the URL |
| Format.LichessFenRoundTrip | main.py:77-78 | for a FEN without '_', the link reads back as the FEN and the colour it was built from |
| Format.EscapePgnChain | main.py:89 | the three chained replaces equal the one-pass escape: each '*' dropped, each space and newline turned into %20, every other character kept in order |
| Format.LichessAnalysisFull | main.py:87-90 | the paste URL prefix followed by exactly the one-pass escape of the game text, which contains no '*', space or newline |
| Format.PgnChainOnePass | main.py:89 | the three replaces equal one pass that deletes '*' and turns space and newline into %20 |
| Format.PgnEscapeClean | main.py:89 | no '*', space or newline survives the escape |
| Format.PgnEscapeRoundTrip | main.py:89 | for a game text without '%', reading %20 back as a space gives the text without '*' and with newlines as spaces |
| Format.ReportLine | main.py:173 | the printed line: beautiful_san_move's reference (the move's reference for ply >= 0, "2." + san at ply -1), then ":" + kind + ": ", then the analysis link |
| Format.ReportLineCorrected | main.py:173 | the same line with the corrected reference: for every ply >= -1 it starts with the reference of the annotated move, then ":" + kind + ": ", then the analysis link |
| Format.ReportLinesDiffer | main.py:173 | the printed and corrected report lines agree for ply >= 0 and differ at ply -1 |
| Text.ReplaceAll | main.py:89 | str.replace: every character of the result is an original character other than the pattern, or one of the replacement's |
| Text.ReplaceAllOneChar | main.py:78 | replacing one character by one keeps the length and maps each position on its own |

## Findings

| source | as written | input that shows it | evidently intended | confidence | as-written member | corrected member |
|---|---|---|---|---|---|---|
| main.py:81-85 | `int(ply / 2)` truncates toward zero, so annotation ply -1 gets move number int(-0.5) + 2 = 2 | the analyzed colour moves first and its first move drops its win% by more than 0.1; the annotation has ply 0 - 1 = -1 and prints "2." + san | "1." + san: the move is the first move of the game (floor division gives -1 + 2 = 1) | high; not executed | Format.BeautifulSanMoveFirstPly | Format.MoveRef |

`Format.ReportLine` models the line main.py:173 prints, with the as-written reference; `Format.ReportLineCorrected` is the same line built on `Format.MoveRef`.

## Left out

- The configuration file, `print`, the `games()` reader, the clipboard and the batch or single dispatch (main.py:20-28, 193-207): input plumbing and I/O.
- `get_main_player_color` (main.py:30-38): an interactive prompt; the analyzed colour is a parameter.
- The engine process and `engine.play(...).pov(...)` (main.py:120-121, 194-195, 207): an external process; its scores are inputs, already from the analyzed colour's side.
- The body of `get_win_percent` (main.py:57): python-chess's WDL model on floats; it is the parameter `wp`, and no range or monotonicity is assumed of it.
- `board.san`, `board.fen`, `board.push` and `StringExporter` (main.py:88, 113, 118-119): python-chess; SAN, FEN and the exported game are opaque strings, and `board.turn` is the side to move flipped at each push.
- CSV writing, console printing and plotting (main.py:167-190): I/O and UI; only the string of a report line is modelled.
- Win percentages are Dafny reals, not floats: rounding in the subtraction and comparisons of main.py:68-73 is not modelled.
- Format.TruncHalf: Python computes ply / 2 in floating point; the model is exact, which agrees for every ply below 2^53.
