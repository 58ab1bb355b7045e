/**
 * models/grammar_checker.py, `highlight_corrections`: the word-level diff between the
 * learner's sentence and the corrected one, rendered as one line of text. Removed words
 * are shown as "[w]", added words as "(w)", kept words as they are, and the hint lines
 * of the diff are dropped. The diff itself (`difflib.ndiff` over the two word lists)
 * is the input `diff`, a list of ndiff lines.
 */
module GrammarChecker {
  import opened Wrappers
  import opened PyStr

  /** What a line of ndiff output says about one word. */
  datatype DiffLine = Removed(word: string) | Added(word: string) | Kept(word: string) | Hint(text: string)

  /** The text ndiff writes for a line: a two-character code, then the word. */
  function LineText(d: DiffLine): (t: string)
    ensures |t| >= 2 && t[2..] == (if d.Hint? then d.text else d.word)
  {
    match d
    case Removed(w) => "- " + w
    case Added(w) => "+ " + w
    case Kept(w) => "  " + w
    case Hint(t) => "? " + t
  }

  /** The mark-up a line is meant to receive. */
  function Marked(d: DiffLine): Option<string> {
    match d
    case Removed(w) => Some("[" + w + "]")
    case Added(w) => Some("(" + w + ")")
    case Kept(w) => Some(w)
    case Hint(_) => None
  }

  /** The body of the loop of `highlight_corrections`: the piece one ndiff line contributes, tested by its prefix. */
  function Piece(token: string): Option<string> {
    if StartsWith(token, "- ") then Some("[" + token[2..] + "]")
    else if StartsWith(token, "+ ") then Some("(" + token[2..] + ")")
    else if StartsWith(token, "  ") then Some(token[2..])
    else None
  }

  /** Reading an ndiff line by its prefix recovers what the line says. */
  lemma PieceOfLine(d: DiffLine)
    ensures Piece(LineText(d)) == Marked(d)
  {
    var t := LineText(d);
    assert t[..2] == LineText(d)[..2];
    match d
    case Removed(w) => assert t[..2] == "- ";
    case Added(w) => assert t[..2] == "+ ";
    case Kept(w) => assert t[..2] == "  ";
    case Hint(h) => assert t[..2] == "? ";
  }

  /** The pieces of a whole diff, in order. */
  function Pieces(diff: seq<string>): (r: seq<string>)
    ensures |r| <= |diff|
  {
    if diff == [] then []
    else
      var init := Pieces(diff[..|diff| - 1]);
      match Piece(diff[|diff| - 1])
      case Some(p) => init + [p]
      case None => init
  }

  /** The intended rendering of the lines a diff is made of. */
  function MarkedAll(ds: seq<DiffLine>): seq<string> {
    if ds == [] then []
    else
      var init := MarkedAll(ds[..|ds| - 1]);
      match Marked(ds[|ds| - 1])
      case Some(p) => init + [p]
      case None => init
  }

  function LineTexts(ds: seq<DiffLine>): (r: seq<string>)
    ensures |r| == |ds| && forall i :: 0 <= i < |ds| ==> r[i] == LineText(ds[i])
  {
    seq(|ds|, i requires 0 <= i < |ds| => LineText(ds[i]))
  }

  /** The pieces of a diff are the intended mark-up of its lines: no word is lost or marked wrongly, and hints vanish. */
  lemma {:induction false} PiecesOfLines(ds: seq<DiffLine>)
    ensures Pieces(LineTexts(ds)) == MarkedAll(ds)
  {
    if ds != [] {
      var init := ds[..|ds| - 1];
      assert LineTexts(ds)[..|ds| - 1] == LineTexts(init);
      PiecesOfLines(init);
      PieceOfLine(ds[|ds| - 1]);
    }
  }

  /** A sentence the checker left alone comes back word for word. */
  lemma {:induction false} UnchangedWords(words: seq<string>)
    ensures MarkedAll(seq(|words|, i requires 0 <= i < |words| => Kept(words[i]))) == words
  {
    if words != [] {
      var init := words[..|words| - 1];
      assert seq(|words|, i requires 0 <= i < |words| => Kept(words[i]))[..|words| - 1]
        == seq(|init|, i requires 0 <= i < |init| => Kept(init[i]));
      UnchangedWords(init);
    }
  }

  /** Only hint lines are dropped: every other line gives exactly one piece. */
  lemma {:induction false} PiecesCount(ds: seq<DiffLine>)
    ensures |MarkedAll(ds)| == |ds| - |set i | 0 <= i < |ds| && ds[i].Hint?|
  {
    if ds != [] {
      var n := |ds| - 1;
      var init := ds[..n];
      PiecesCount(init);
      var hints := set i | 0 <= i < |ds| && ds[i].Hint?;
      var initHints := set i | 0 <= i < n && init[i].Hint?;
      assert hints == if ds[n].Hint? then initHints + {n} else initHints;
    }
  }

  /** `highlight_corrections`: the pieces of the diff joined by single spaces. */
  method HighlightCorrections(diff: seq<string>) returns (r: string)
    ensures r == Join(Pieces(diff), " ")
  {
    var highlighted: seq<string> := [];
    var i := 0;
    while i < |diff|
      invariant 0 <= i <= |diff|
      invariant highlighted == Pieces(diff[..i])
    {
      assert diff[..i + 1][..i] == diff[..i];
      var token := diff[i];
      if StartsWith(token, "- ") {
        highlighted := highlighted + ["[" + token[2..] + "]"];
      } else if StartsWith(token, "+ ") {
        highlighted := highlighted + ["(" + token[2..] + ")"];
      } else if StartsWith(token, "  ") {
        highlighted := highlighted + [token[2..]];
      }
      i := i + 1;
    }
    assert diff[..|diff|] == diff;
    r := Join(highlighted, " ");
  }
}
