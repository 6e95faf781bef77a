/** All tokens of a text: they tile it, and spacing them differently changes none of them. */
module Lexing {
  import opened Wrappers
  import opened Tokens
  import opened LexicalGrammar
  import opened LexicalFacts

  /** A token and the bytes it covers. */
  datatype Located = Located(kind: TokenKind, start: nat, end: nat)

  /** The tokens of `s` from position `i` on. */
  function Lex(s: string, i: nat): seq<Located>
    requires i <= |s|
    decreases |s| - i
  {
    var k := i + TriviaLen(s[i..]);
    if k == |s| then []
    else
      var r := Scan(s[k..]);
      [Located(r.kind, k, k + r.len)] + Lex(s, k + r.len)
  }

  // ----- tiling --------------------------------------------------------------------------

  /** White space and whole comments stand between `i` and `j`, and none begins at `j`. */
  ghost predicate IsGap(s: string, i: nat, j: nat) {
    i <= j <= |s| && IsTrivia(s[i..], j - i) && forall k :: !IsBlank(s[j..], k)
  }

  /** Where the token before number `k` ends; the text's start for the first. */
  function EndBefore(toks: seq<Located>, i: nat, k: nat): nat
    requires k <= |toks|
  {
    if k == 0 then i else toks[k - 1].end
  }

  /** No token is empty, and only gaps lie before, between and behind the tokens. */
  ghost predicate Tiles(s: string, i: nat, toks: seq<Located>) {
    && (forall k :: 0 <= k < |toks| ==> toks[k].start < toks[k].end <= |s|)
    && (forall k :: 0 <= k < |toks| ==> IsGap(s, EndBefore(toks, i, k), toks[k].start))
    && IsGap(s, EndBefore(toks, i, |toks|), |s|)
  }

  lemma FirstGap(s: string, i: nat)
    requires i <= |s|
    ensures IsGap(s, i, i + TriviaLen(s[i..]))
  {
    hide IsTrivia, IsBlank, TriviaLen;
    TriviaIsBlank(s[i..]);
    assert s[i..][TriviaLen(s[i..])..] == s[i + TriviaLen(s[i..])..];
  }

  lemma {:induction false} LexTiles(s: string, i: nat)
    requires i <= |s|
    ensures Tiles(s, i, Lex(s, i))
    decreases |s| - i
  {
    hide IsGap, TriviaLen, Scan;
    var toks := Lex(s, i);
    var j := i + TriviaLen(s[i..]);
    FirstGap(s, i);
    if j < |s| {
      var rest := Lex(s, toks[0].end);
      LexTiles(s, toks[0].end);
      assert toks == [toks[0]] + rest;
      forall k | 0 <= k < |toks|
        ensures toks[k].start < toks[k].end <= |s| && IsGap(s, EndBefore(toks, i, k), toks[k].start)
      {
        if k > 0 {
          assert toks[k] == rest[k - 1];
          assert EndBefore(toks, i, k) == EndBefore(rest, toks[0].end, k - 1);
        }
      }
      assert EndBefore(toks, i, |toks|) == EndBefore(rest, toks[0].end, |rest|);
    }
  }

  // ----- tokens and their texts ----------------------------------------------------------

  ghost predicate Covers(s: string, tok: Located, p: Piece) {
    tok.start <= tok.end <= |s| && p == Piece(tok.kind, s[tok.start..tok.end])
  }

  /** A token covers exactly its own text. */
  lemma {:induction false} PiecesAreTexts(s: string, i: nat)
    requires i <= |s|
    ensures var toks := Lex(s, i); var ps := Pieces(s[i..]);
            && |toks| == |ps|
            && forall k :: 0 <= k < |toks| ==> Covers(s, toks[k], ps[k])
    decreases |s| - i
  {
    hide Scan, TriviaLen;
    var t := s[i..];
    var n := TriviaLen(t);
    assert t[n..] == s[i + n..];
    if n < |t| {
      var r := Scan(t[n..]);
      var next := i + n + r.len;
      assert t[n + r.len..] == s[next..];
      assert t[n..n + r.len] == s[i + n..next];
      PiecesAreTexts(s, next);
      assert Lex(s, i) == [Located(r.kind, i + n, next)] + Lex(s, next);
      assert Pieces(t) == [Piece(r.kind, s[i + n..next])] + Pieces(s[next..]);
      assert Covers(s, Located(r.kind, i + n, next), Piece(r.kind, s[i + n..next]));
    }
  }

  /** A text that is one token wherever a boundary follows it. */
  ghost predicate Standalone(p: Piece) {
    && p.text != []
    && forall u | IsBoundary(u) && (u == [] || !IsUnterminated(p.kind, p.text)) ::
         TriviaLen(p.text + u) == 0 && Scan(p.text + u) == Lexeme(p.kind, |p.text|)
  }

  lemma NoTriviaAtToken(t: string, v: string)
    requires t != [] && TriviaLen(t) == 0 && Placed(t, v, Scan(t).len)
    ensures TriviaLen(v) == 0
  {
    var e := Scan(t).len;
    AtPlaced(t, v, e, 0);
    AtPlaced(t, v, e, 1);
  }

  lemma {:induction false} NoTriviaBehind(t: string)
    ensures var n := TriviaLen(t); TriviaLen(t[n..]) == 0
    decreases |t|
  {
    hide TriviaLen;
    var n := TriviaLen(t);
    if n == 0 {
      assert t[n..] == t;
    } else {
      var k := FirstBlank(t);
      NoTriviaBehind(t[k..]);
      assert t[k..][n - k..] == t[n..];
    }
  }

  lemma TokenStandsAlone(t: string)
    requires t != [] && TriviaLen(t) == 0
    ensures Standalone(Piece(Scan(t).kind, t[..Scan(t).len]))
  {
    hide Scan, TriviaLen, IsUnterminated, IsBoundary;
    var e := Scan(t).len;
    var p := Piece(Scan(t).kind, t[..e]);
    forall u | IsBoundary(u) && (u == [] || !IsUnterminated(p.kind, p.text))
      ensures TriviaLen(p.text + u) == 0 && Scan(p.text + u) == Lexeme(p.kind, |p.text|)
    {
      var v := p.text + u;
      assert v[..e] == t[..e] && v[e..] == u;
      NoTriviaAtToken(t, v);
      if !IsUnterminated(p.kind, p.text) {
        ScanPlaced(t, v);
      } else {
        UnterminatedIsAll(t);
        assert v == t;
      }
    }
  }

  lemma FirstStandsAlone(t: string)
    requires TriviaLen(t) < |t|
    ensures Standalone(Pieces(t)[0])
  {
    hide Scan, TriviaLen, Standalone, Pieces;
    NoTriviaBehind(t);
    TokenStandsAlone(t[TriviaLen(t)..]);
    FirstPiece(t);
  }

  lemma FirstPiece(t: string)
    requires TriviaLen(t) < |t|
    ensures var rest := t[TriviaLen(t)..];
            Pieces(t) != [] && Pieces(t)[0] == Piece(Scan(rest).kind, rest[..Scan(rest).len])
  {
    hide Scan, TriviaLen;
    var n := TriviaLen(t);
    assert t[n..][..Scan(t[n..]).len] == t[n..n + Scan(t[n..]).len];
  }

  /** Only the end of the text cuts a literal off. */
  lemma UnterminatedIsAll(t: string)
    requires t != [] && IsUnterminated(Scan(t).kind, t[..Scan(t).len])
    ensures Scan(t).len == |t|
  {
    hide WordKind, Run;
    assert t[0] == t[..Scan(t).len][0];
    WordIsNoError(t[..Run(t, IsWord)]);
  }

  lemma WordIsNoError(text: string)
    ensures WordKind(text) != Error
  {}

  lemma {:induction false} PiecesStandAlone(t: string)
    ensures forall k :: 0 <= k < |Pieces(t)| ==> Standalone(Pieces(t)[k])
    ensures forall k :: 0 <= k < |Pieces(t)| - 1 ==> !IsUnterminated(Pieces(t)[k].kind, Pieces(t)[k].text)
    decreases |t|
  {
    hide Standalone, Scan, TriviaLen, IsUnterminated;
    var n := TriviaLen(t);
    if n < |t| {
      var r := Scan(t[n..]);
      var rest := Pieces(t[n + r.len..]);
      FirstStandsAlone(t);
      PiecesStandAlone(t[n + r.len..]);
      assert t[n..][..r.len] == t[n..n + r.len];
      if IsUnterminated(r.kind, t[n..n + r.len]) {
        UnterminatedIsAll(t[n..]);
        NothingLeft(t[n + r.len..]);
      }
    }
  }

  lemma NothingLeft(t: string)
    requires t == []
    ensures Pieces(t) == []
  {}

  // ----- spacing -------------------------------------------------------------------------

  function Spaced(ps: seq<Piece>, gaps: seq<string>): string
    requires |gaps| == |ps|
  {
    if ps == [] then "" else ps[0].text + gaps[0] + Spaced(ps[1..], gaps[1..])
  }

  predicate IsWhite(u: string) {
    forall i :: 0 <= i < |u| ==> IsSpace(u[i])
  }

  /** White space behind every token.  The last may have none, and has none when it is a
      literal that the end of the text cuts off. */
  ghost predicate Separates(ps: seq<Piece>, gaps: seq<string>) {
    && |gaps| == |ps|
    && (forall k :: 0 <= k < |ps| ==> IsWhite(gaps[k]) && (gaps[k] != [] || k == |ps| - 1))
    && (forall k :: 0 <= k < |ps| ==> IsUnterminated(ps[k].kind, ps[k].text) ==> gaps[k] == [] && k == |ps| - 1)
  }

  lemma {:induction false} WhiteIsSkipped(u: string, t: string)
    requires IsWhite(u) && TriviaLen(t) == 0
    ensures TriviaLen(u + t) == |u|
  {
    if u == [] {
      assert u + t == t;
    } else {
      assert (u + t)[1..] == u[1..] + t;
      WhiteIsSkipped(u[1..], t);
    }
  }

  lemma WhiteThenPieces(u: string, t: string)
    requires IsWhite(u) && TriviaLen(t) == 0
    ensures Pieces(u + t) == Pieces(t)
  {
    hide Scan, TriviaLen, IsSpace;
    WhiteIsSkipped(u, t);
    assert forall k :: 0 <= k <= |t| ==> (u + t)[|u| + k..] == t[k..];
    if t != [] {
      var r := Scan(t);
      assert (u + t)[|u|..] == t[0..] == t;
      assert (u + t)[|u|..|u| + r.len] == t[0..0 + r.len];
    }
  }

  lemma OnePieceMore(p: Piece, u: string)
    requires Standalone(p) && IsBoundary(u) && (u == [] || !IsUnterminated(p.kind, p.text))
    ensures TriviaLen(p.text + u) == 0 && Pieces(p.text + u) == [p] + Pieces(u)
  {
    hide Scan, TriviaLen, IsUnterminated;
    var v := p.text + u;
    assert v[0..] == v && v[0..|p.text|] == p.text && v[|p.text|..] == u;
  }

  lemma {:induction false} SpacedReadsBack(ps: seq<Piece>, gaps: seq<string>)
    requires Separates(ps, gaps) && forall k :: 0 <= k < |ps| ==> Standalone(ps[k])
    ensures Pieces(Spaced(ps, gaps)) == ps && TriviaLen(Spaced(ps, gaps)) == 0
  {
    hide Scan, TriviaLen, IsUnterminated, Standalone, Pieces;
    if ps == [] {
      NothingLeft("");
      TriviaOfNothing();
    } else {
      var rest := Spaced(ps[1..], gaps[1..]);
      var u := gaps[0] + rest;
      var v := Spaced(ps, gaps);
      SpacedReadsBack(ps[1..], gaps[1..]);
      assert v == ps[0].text + u;
      WhiteThenPieces(gaps[0], rest);
      OnePieceMore(ps[0], u);
    }
  }

  lemma TriviaOfNothing()
    ensures TriviaLen("") == 0
  {}

  /** Taking all comments and spacing away and putting any white space in their place leaves
      every token as it is. */
  lemma SpacingIsFree(t: string, gaps: seq<string>)
    requires |gaps| == |Pieces(t)|
    requires forall k :: 0 <= k < |gaps| ==> IsWhite(gaps[k]) && (gaps[k] != [] || k == |gaps| - 1)
    requires var ps := Pieces(t);
             ps != [] && IsUnterminated(ps[|ps| - 1].kind, ps[|ps| - 1].text) ==> gaps[|ps| - 1] == []
    ensures Pieces(Spaced(Pieces(t), gaps)) == Pieces(t)
  {
    PiecesStandAlone(t);
    SpacedReadsBack(Pieces(t), gaps);
  }

  /** A token's bytes alone are that token again. */
  lemma RelexOne(t: string, k: nat)
    requires k < |Pieces(t)|
    ensures Pieces(Pieces(t)[k].text) == [Pieces(t)[k]]
  {
    PiecesStandAlone(t);
    var p := Pieces(t)[k];
    SpacedReadsBack([p], [""]);
    assert Spaced([p], [""]) == p.text;
  }

  // ----- operators and words -------------------------------------------------------------

  predicate StartsOperator(c: char) {
    !IsWordStart(c) && !IsDigit(c) && c != '\'' && c != '"'
  }

  /** An operator token is the longest operator the text starts with; a byte that starts none
      is an invalid token of its own. */
  lemma LongestOperator(t: string)
    requires t != [] && StartsOperator(t[0])
    ensures var r := Scan(t);
            if exists k :: 0 <= k <= |t| && OperatorKind(t[..k]).Some? then
              OperatorKind(t[..r.len]) == Some(r.kind) && forall k :: r.len < k <= |t| ==> OperatorKind(t[..k]).None?
            else r == Lexeme(Error, 1)
  {
    hide OneByteOperator, TwoByteOperator, ThreeByteOperator;
  }

  /** Every operator reads back as itself. */
  lemma OperatorReadsBack(text: string)
    requires OperatorKind(text).Some?
    ensures Pieces(text) == [Piece(OperatorKind(text).value, text)]
  {
    hide Pieces;
    assert text[..|text|] == text;
    OperatorStarts(text);
    assert Scan(text) == Lexeme(OperatorKind(text).value, |text|);
    OnlyPiece(text);
  }

  lemma OperatorStarts(text: string)
    requires OperatorKind(text).Some?
    ensures text != [] && StartsOperator(text[0]) && TriviaLen(text) == 0
  {}

  /** Every word reads back as itself, as a keyword when it is one. */
  lemma WordReadsBack(text: string)
    requires text != [] && IsWordStart(text[0]) && forall i :: 0 <= i < |text| ==> IsWord(text[i])
    ensures Pieces(text) == [Piece(WordKind(text), text)]
  {
    hide WordKind, Pieces;
    RunIs(text, IsWord, |text|);
    assert text[..|text|] == text;
    assert TriviaLen(text) == 0;
    OnlyPiece(text);
  }

  lemma OnlyPiece(text: string)
    requires text != [] && TriviaLen(text) == 0 && Scan(text).len == |text|
    ensures Pieces(text) == [Piece(Scan(text).kind, text)]
  {
    hide Scan, TriviaLen;
    assert text[0..] == text == text[0..|text|];
    NothingLeft(text[|text|..]);
  }
}
