/** Output formatting: move-number rendering, the lichess analysis deep link
    and the escaping of the exported game for the lichess paste link. */
module Format {
  import opened Chess
  import opened Text

  /** Python's int(p / 2): half of `p` rounded toward zero. */
  function TruncHalf(p: int): (h: int)
    ensures -2 < p - 2 * h < 2
    ensures p >= 0 ==> p - 2 * h >= 0
    ensures p <= 0 ==> p - 2 * h <= 0
  {
    if p >= 0 then p / 2 else -((-p) / 2)
  }

  /** beautiful_san_move as written: even plies get two dots and
      int(ply / 2) + 1, odd plies one dot and int(ply / 2) + 2. For every
      annotation ply from 0 on this is the reference of the move at the next
      ply; for annotation ply -1, the game's first move, it says move 2. */
  function BeautifulSanMove(san: string, ply: int): (r: string)
    ensures ply >= 0 ==> r == PlyMoveRef(san, ply + 1)
    ensures ply == -1 ==> r == "2." + san
  {
    if ply % 2 == 0 then IntToString(TruncHalf(ply) + 1) + ".." + san
    else IntToString(TruncHalf(ply) + 2) + "." + san
  }

  /** The program's move-number convention for the move played at
      zero-based ply `p` from the standard start: the full-move number
      p / 2 + 1, then one dot for the first side's move of the pair and two
      (where standard notation writes three) for the second's. */
  function PlyMoveRef(san: string, p: nat): string
  {
    NatToString(p / 2 + 1) + (if p % 2 == 0 then "." else "..") + san
  }

  /** The move reference beautiful_san_move evidently intends, for an
      annotation ply (one less than the ply of the move): the same
      formula with half of the ply rounded down. */
  function MoveRef(san: string, ply: int): (r: string)
    ensures ply >= -1 ==> r == PlyMoveRef(san, ply + 1)
  {
    if ply % 2 == 0 then IntToString(ply / 2 + 1) + ".." + san
    else IntToString(ply / 2 + 2) + "." + san
  }

  /** For every annotation ply from 0 on, beautiful_san_move renders the
      reference, in the program's convention, of the move it annotates. */
  lemma BeautifulSanMoveAfterFirstPly(san: string, ply: int)
    requires ply >= 0
    ensures BeautifulSanMove(san, ply) == PlyMoveRef(san, ply + 1)
    ensures BeautifulSanMove(san, ply) == MoveRef(san, ply)
  {
  }

  /** The annotation of the game's first ply has annotation ply -1, which
      beautiful_san_move renders with move number 2, because int(-1 / 2)
      is 0; the move is the first move of the game. */
  lemma BeautifulSanMoveFirstPly(san: string)
    ensures BeautifulSanMove(san, -1) == "2." + san
    ensures PlyMoveRef(san, 0) == "1." + san
    ensures MoveRef(san, -1) == "1." + san
    ensures BeautifulSanMove(san, -1) != PlyMoveRef(san, 0)
  {
    assert (BeautifulSanMove(san, -1))[0] == '2';
  }

  /** beautiful_san_move on annotation plies 0 to 3. */
  lemma BeautifulSanMoveSmallPlies(san: string)
    ensures BeautifulSanMove(san, 0) == "1.." + san
    ensures BeautifulSanMove(san, 1) == "2." + san
    ensures BeautifulSanMove(san, 2) == "2.." + san
    ensures BeautifulSanMove(san, 3) == "3." + san
  {
    assert NatToString(1) == "1" && NatToString(2) == "2" && NatToString(3) == "3";
  }

  const AnalysisUrl := "https://lichess.org/analysis/"
  const ColorQuery := "?color="

  function ColorName(c: Color): string
  {
    if c == White then "white" else "black"
  }

  /** lichess_fen: the analysis link for a position, spaces in the FEN turned
      into underscores, with the analyzed colour as a query parameter. */
  function LichessFen(fen: string, c: Color): (url: string)
    ensures |url| == |AnalysisUrl| + |fen| + |ColorQuery| + 5
    ensures url[..|AnalysisUrl|] == AnalysisUrl
    ensures forall i :: 0 <= i < |fen| ==>
              url[|AnalysisUrl| + i] == if fen[i] == ' ' then '_' else fen[i]
    ensures url[|AnalysisUrl| + |fen|..] == ColorQuery + (if c == White then "white" else "black")
    ensures ' ' !in url
  {
    ReplaceAllOneChar(fen, ' ', '_');
    var encoded := ReplaceAll(fen, ' ', "_");
    var query := ColorQuery + ColorName(c);
    ThreeParts(AnalysisUrl, encoded, query, ' ');
    AnalysisUrl + encoded + query
  }

  /** Where the three parts of a concatenation sit, and a character that
      none of them holds. */
  lemma ThreeParts(a: string, b: string, q: string, x: char)
    requires x !in a && x !in b && x !in q
    ensures var s := a + b + q;
            s[..|a|] == a && s[|a| + |b|..] == q
            && (forall i :: 0 <= i < |b| ==> s[|a| + i] == b[i])
            && x !in s
  {
  }

  /** What an analysis link carries. */
  datatype Link = Link(fen: string, color: Color) | NotALink

  /** Reads an analysis link back: the FEN with underscores turned into
      spaces, and the colour. */
  function ParseLichessFen(url: string): Link
  {
    var n := |url|;
    var tail := |ColorQuery| + 5;
    if n < |AnalysisUrl| + tail || url[..|AnalysisUrl|] != AnalysisUrl then NotALink
    else
      var fen := ReplaceAll(url[|AnalysisUrl|..n - tail], '_', " ");
      if url[n - tail..] == ColorQuery + "white" then Link(fen, White)
      else if url[n - tail..] == ColorQuery + "black" then Link(fen, Black)
      else NotALink
  }

  /** A FEN has no underscore, so the link gives back the position and the
      colour it was built from. */
  lemma LichessFenRoundTrip(fen: string, c: Color)
    requires '_' !in fen
    ensures ParseLichessFen(LichessFen(fen, c)) == Link(fen, c)
  {
    var encoded := ReplaceAll(fen, ' ', "_");
    var url := LichessFen(fen, c);
    ReplaceAllOneChar(fen, ' ', '_');
    assert url == AnalysisUrl + encoded + (ColorQuery + ColorName(c));
    assert url[|AnalysisUrl|..|url| - 12] == encoded;
    assert url[|url| - 12..] == ColorQuery + ColorName(c);
    ReplaceAllSwapBack(fen, ' ', '_');
    if c == White {
      assert ColorQuery + ColorName(c) == ColorQuery + "white";
    } else {
      assert ColorQuery + ColorName(c) != ColorQuery + "white" by {
        assert (ColorQuery + ColorName(c))[7] == 'b';
      }
    }
  }

  const PasteUrl := "https://lichess.org/paste?pgn="

  /** The replace chain applied to the exported game: delete every '*',
      then turn each space, then each newline, into "%20". It escapes each
      character on its own, so nothing of the game text is lost but '*'. */
  function EscapePgnChain(pgn: string): (t: string)
    ensures t == EscapePgn(pgn)
  {
    PgnChainOnePass(pgn);
    ReplaceAll(ReplaceAll(ReplaceAll(pgn, '*', ""), ' ', "%20"), '\n', "%20")
  }

  /** lichess_analysis_full, from the exported game text on: the paste link
      followed by the escaped game, in which no '*', space or newline is
      left. */
  function LichessAnalysisFull(pgn: string): (url: string)
    ensures url == PasteUrl + EscapePgn(pgn)
    ensures forall i :: |PasteUrl| <= i < |url| ==> url[i] != '*' && url[i] != ' ' && url[i] != '\n'
  {
    PgnEscapeClean(pgn);
    PasteUrl + EscapePgnChain(pgn)
  }

  /** The escape of one character, as the chain treats it. */
  function EscapePgnChar(ch: char): string
  {
    if ch == '*' then "" else if ch == ' ' || ch == '\n' then "%20" else [ch]
  }

  /** The chain as a single left-to-right pass. */
  function EscapePgn(pgn: string): string
  {
    if pgn == [] then [] else EscapePgnChar(pgn[0]) + EscapePgn(pgn[1..])
  }

  /** The three replaces together escape each character on its own. */
  lemma {:induction false} PgnChainOnePass(pgn: string)
    ensures ReplaceAll(ReplaceAll(ReplaceAll(pgn, '*', ""), ' ', "%20"), '\n', "%20") == EscapePgn(pgn)
  {
    if pgn != [] {
      var head, rest := [pgn[0]], pgn[1..];
      assert pgn == head + rest;
      ReplaceAllConcat(head, rest, '*', "");
      var a1, a2 := ReplaceAll(head, '*', ""), ReplaceAll(rest, '*', "");
      ReplaceAllConcat(a1, a2, ' ', "%20");
      var b1, b2 := ReplaceAll(a1, ' ', "%20"), ReplaceAll(a2, ' ', "%20");
      ReplaceAllConcat(b1, b2, '\n', "%20");
      assert ReplaceAll(rest, '*', "") == a2;
      PgnChainOnePass(rest);
      if pgn[0] == '*' {
        assert a1 == [];
      } else if pgn[0] == ' ' {
        assert a1 == " ";
        assert b1 == "%20";
        assert ReplaceAll(b1, '\n', "%20") == "%20" by {
          assert b1 == ['%'] + "20";
          assert b1[1..] == ['2'] + "0";
          assert b1[1..][1..] == "0";
        }
      } else if pgn[0] == '\n' {
        assert a1 == "\n";
        assert b1 == "\n";
      } else {
        assert a1 == head && b1 == head;
      }
    }
  }

  /** No '*', space or newline survives the escape. */
  lemma {:induction false} PgnEscapeClean(pgn: string)
    ensures '*' !in EscapePgn(pgn) && ' ' !in EscapePgn(pgn) && '\n' !in EscapePgn(pgn)
  {
    if pgn != [] {
      PgnEscapeClean(pgn[1..]);
    }
  }

  /** Reads "%20" back as a space. */
  function UnescapePgn(t: string): string
  {
    if t == [] then []
    else if |t| >= 3 && t[..3] == "%20" then " " + UnescapePgn(t[3..])
    else [t[0]] + UnescapePgn(t[1..])
  }

  /** The game text as the link shows it: no '*', newlines read as spaces. */
  function Unstarred(pgn: string): string
  {
    if pgn == [] then []
    else (if pgn[0] == '*' then "" else if pgn[0] == '\n' then " " else [pgn[0]]) + Unstarred(pgn[1..])
  }

  /** For a game text without '%', reading the escaped text back gives the
      text without its '*' and with newlines as spaces. */
  lemma {:induction false} PgnEscapeRoundTrip(pgn: string)
    requires '%' !in pgn
    ensures UnescapePgn(EscapePgnChain(pgn)) == Unstarred(pgn)
  {
    EscapeUnescape(pgn);
  }

  lemma {:induction false} EscapeUnescape(pgn: string)
    requires '%' !in pgn
    ensures UnescapePgn(EscapePgn(pgn)) == Unstarred(pgn)
  {
    if pgn != [] {
      var rest := EscapePgn(pgn[1..]);
      EscapeUnescape(pgn[1..]);
      var t := EscapePgnChar(pgn[0]) + rest;
      if pgn[0] == ' ' || pgn[0] == '\n' {
        assert t[..3] == "%20" && t[3..] == rest;
      } else if pgn[0] != '*' {
        assert t[0] == pgn[0] && t[1..] == rest;
        assert |t| >= 3 ==> t[..3][0] == pgn[0];
      } else {
        assert t == rest;
      }
    }
  }

  /** One line of the console report as main.py prints it: the move
      reference of beautiful_san_move, the kind between ":" and ": ", and the
      analysis link of the position the move was played in. */
  function ReportLine(san: string, ply: int, kind: string, fen: string, c: Color): (line: string)
    ensures var m := |BeautifulSanMove(san, ply)|;
            |line| == m + |kind| + 3 + |LichessFen(fen, c)|
            && line[m..m + |kind| + 3] == ":" + kind + ": "
    ensures ply >= 0 ==> line[..|PlyMoveRef(san, ply + 1)|] == PlyMoveRef(san, ply + 1)
    ensures ply == -1 ==> line[..|san| + 2] == "2." + san
    ensures line[|line| - |LichessFen(fen, c)|..] == LichessFen(fen, c)
  {
    var ref, middle, link := BeautifulSanMove(san, ply), ":" + kind + ": ", LichessFen(fen, c);
    var line := ref + middle + link;
    assert line[..|ref|] == ref && line[|ref|..|ref| + |middle|] == middle;
    assert line[|line| - |link|..] == link;
    line
  }

  /** The report line with the move reference beautiful_san_move evidently
      intends: it starts with the program's reference of the annotated move
      for every annotation ply from -1 on. */
  function ReportLineCorrected(san: string, ply: int, kind: string, fen: string, c: Color): (line: string)
    ensures var m := |MoveRef(san, ply)|;
            |line| == m + |kind| + 3 + |LichessFen(fen, c)|
            && line[m..m + |kind| + 3] == ":" + kind + ": "
    ensures ply >= -1 ==> line[..|PlyMoveRef(san, ply + 1)|] == PlyMoveRef(san, ply + 1)
    ensures line[|line| - |LichessFen(fen, c)|..] == LichessFen(fen, c)
  {
    var ref, middle, link := MoveRef(san, ply), ":" + kind + ": ", LichessFen(fen, c);
    var line := ref + middle + link;
    assert line[..|ref|] == ref && line[|ref|..|ref| + |middle|] == middle;
    assert line[|line| - |link|..] == link;
    line
  }

  /** The two report lines differ only for the game's first move. */
  lemma ReportLinesDiffer(san: string, ply: int, kind: string, fen: string, c: Color)
    ensures ply >= 0 ==> ReportLine(san, ply, kind, fen, c) == ReportLineCorrected(san, ply, kind, fen, c)
    ensures ply == -1 ==> ReportLine(san, ply, kind, fen, c) != ReportLineCorrected(san, ply, kind, fen, c)
  {
    if ply == -1 {
      BeautifulSanMoveFirstPly(san);
      assert ReportLine(san, ply, kind, fen, c)[0] == '2';
      assert ReportLineCorrected(san, ply, kind, fen, c)[0] == '1';
    }
  }
}
