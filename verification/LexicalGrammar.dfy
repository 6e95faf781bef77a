/** What a token is: the longest lexeme at the start of a text, as functions of the text. */
module LexicalGrammar {
  import opened Wrappers
  import opened Tokens

  /** The byte at `i`, or zero past the end. */
  function At(t: string, i: nat): char {
    if i < |t| then t[i] else '\0'
  }

  function Min(a: nat, b: nat): nat {
    if a <= b then a else b
  }

  /** The length of the longest prefix whose bytes all satisfy `p`. */
  function Run(t: string, p: char -> bool): (n: nat)
    ensures n <= |t| && (forall i :: 0 <= i < n ==> p(t[i])) && (n < |t| ==> !p(t[n]))
  {
    if t == [] || !p(t[0]) then 0 else 1 + Run(t[1..], p)
  }

  // ----- white space and comments --------------------------------------------------------

  function LineLen(t: string): (n: nat)
    ensures n <= |t|
  {
    Run(t, InLine)
  }

  /** The length up to and with the first end of a block comment, or the whole text. */
  function BlockLen(t: string): (n: nat)
    ensures n <= |t|
  {
    if t == [] then 0
    else if t[0] == '*' && At(t, 1) == '/' then 2
    else 1 + BlockLen(t[1..])
  }

  function TriviaLen(t: string): (n: nat)
    ensures n <= |t|
  {
    if t == [] then 0
    else if IsSpace(t[0]) then 1 + TriviaLen(t[1..])
    else if t[0] == '/' && At(t, 1) == '/' then
      var n := LineLen(t[2..]);
      2 + n + TriviaLen(t[2 + n..])
    else if t[0] == '/' && At(t, 1) == '*' then
      var n := BlockLen(t[2..]);
      2 + n + TriviaLen(t[2 + n..])
    else 0
  }

  ghost predicate ClosesBlock(t: string, i: nat) {
    i + 1 < |t| && t[i] == '*' && t[i + 1] == '/'
  }

  /** The first `n` bytes are one blank, one whole line comment or one whole block comment. */
  ghost predicate IsBlank(t: string, n: nat) {
    n <= |t| && n > 0 &&
    (|| (n == 1 && IsSpace(t[0]))
     || (n >= 2 && t[..2] == "//" && '\n' !in t[..n] && (n == |t| || t[n] == '\n'))
     || (n >= 4 && t[..2] == "/*" && ClosesBlock(t, n - 2) && forall i :: 2 <= i < n - 2 ==> !ClosesBlock(t, i))
     || (n >= 2 && n == |t| && t[..2] == "/*" && forall i :: 2 <= i < n ==> !ClosesBlock(t, i)))
  }

  /** The first `n` bytes are blanks and comments, each of them whole. */
  ghost predicate IsTrivia(t: string, n: nat)
    decreases n
  {
    n == 0 || exists k :: 0 < k <= n && IsBlank(t, k) && k <= |t| && IsTrivia(t[k..], n - k)
  }

  // ----- literals ------------------------------------------------------------------------

  /** The length of a quoted body: up to the first `q` that is not escaped, or the end. */
  function BodyLen(t: string, q: char): (n: nat)
    ensures n <= |t| && (n < |t| ==> t[n] == q)
  {
    if t == [] || t[0] == q then 0
    else
      var step := if t[0] == '\\' then Min(2, |t|) else 1;
      step + BodyLen(t[step..], q)
  }

  /** A quote at `i` with `pounds` pound signs behind it. */
  predicate ClosesRaw(t: string, i: nat, pounds: nat) {
    i + pounds < |t| && t[i] == '"' && forall j :: i < j <= i + pounds ==> t[j] == '#'
  }

  function RawBodyLen(t: string, pounds: nat): (n: nat)
    ensures n <= |t| && (n < |t| ==> ClosesRaw(t, n, pounds))
    ensures forall i :: 0 <= i < n ==> !ClosesRaw(t, i, pounds)
  {
    if t == [] || ClosesRaw(t, 0, pounds) then 0
    else
      var n := RawBodyLen(t[1..], pounds);
      assert forall i :: 0 < i <= |t| ==> (ClosesRaw(t, i, pounds) <==> ClosesRaw(t[1..], i - 1, pounds)) by {
        forall i | 0 < i <= |t| ensures ClosesRaw(t, i, pounds) <==> ClosesRaw(t[1..], i - 1, pounds) {
          RawShift(t, i, pounds);
        }
      }
      1 + n
  }

  lemma RawShift(t: string, i: nat, pounds: nat)
    requires 0 < i <= |t|
    ensures ClosesRaw(t, i, pounds) <==> ClosesRaw(t[1..], i - 1, pounds)
  {
    if ClosesRaw(t[1..], i - 1, pounds) {
      forall j | i < j <= i + pounds ensures t[j] == '#' {
        assert t[1..][j - 1] == '#';
      }
    }
  }

  datatype Lexeme = Lexeme(kind: TokenKind, len: nat)

  function ScanQuoted(t: string, skip: nat, q: char, kind: TokenKind): (r: Lexeme)
    requires skip < |t|
    ensures 1 <= r.len <= |t|
  {
    var n := skip + 1 + BodyLen(t[skip + 1..], q);
    if n == |t| then Lexeme(Error, n) else Lexeme(kind, n + 1)
  }

  function ScanRaw(t: string): (r: Lexeme)
    requires t != []
    ensures 1 <= r.len <= |t|
  {
    var pounds := Run(t[1..], IsPound);
    var open := Min(pounds + 2, |t|);
    var n := open + RawBodyLen(t[open..], pounds);
    if n == |t| then Lexeme(Error, n) else Lexeme(RawStringLiteral, n + 1 + pounds)
  }

  /** A lifetime, unless a quote right behind the word makes it a character literal. */
  function ScanTick(t: string): (r: Lexeme)
    requires t != []
    ensures 1 <= r.len <= |t|
  {
    var n := 1 + Run(t[1..], IsWord);
    if IsWordStart(At(t, 1)) && At(t, n) != '\'' then Lexeme(Lifetime, n)
    else ScanQuoted(t, 0, '\'', CharLiteral)
  }

  predicate IsRadix(c: char) {
    c == 'x' || c == 'X' || c == 'o' || c == 'O' || c == 'b' || c == 'B'
  }

  predicate IsExponent(c: char) { c == 'e' || c == 'E' }

  predicate IsSign(c: char) { c == '+' || c == '-' }

  /** The end of the fraction of a number whose digits before the point end at `i`. */
  function FractionEnd(t: string, i: nat): (e: nat)
    requires i <= |t|
    ensures i <= e <= |t|
  {
    if At(t, i) == '.' && IsDigit(At(t, i + 1)) then i + 1 + Run(t[i + 1..], IsNumeral) else i
  }

  function ExponentEnd(t: string, i: nat): (e: nat)
    requires i <= |t|
    ensures i <= e <= |t|
  {
    if IsExponent(At(t, i)) then
      var s := if IsSign(At(t, i + 1)) then i + 2 else i + 1;
      s + Run(t[s..], IsNumeral)
    else i
  }

  function ScanNumber(t: string): (r: Lexeme)
    requires t != [] && IsDigit(t[0])
    ensures 1 <= r.len <= |t|
  {
    if t[0] == '0' && IsRadix(At(t, 1)) then Lexeme(IntegerLiteral, 2 + Run(t[2..], IsWord))
    else
      var i := Run(t, IsNumeral);
      var f := FractionEnd(t, i);
      var x := ExponentEnd(t, f);
      Lexeme(if i < x then FloatLiteral else IntegerLiteral, x + Run(t[x..], IsWord))
  }

  // ----- operators -----------------------------------------------------------------------

  /** The length of the longest operator the text starts with, or zero. */
  function OperatorLen(t: string): (n: nat)
    ensures n <= |t| && (n > 0 ==> OperatorKind(t[..n]).Some?)
    ensures forall k :: n < k <= |t| ==> OperatorKind(t[..k]).None?
  {
    if |t| >= 3 && OperatorKind(t[..3]).Some? then 3
    else if |t| >= 2 && OperatorKind(t[..2]).Some? then 2
    else if |t| >= 1 && OperatorKind(t[..1]).Some? then 1
    else 0
  }

  function ScanOperator(t: string): (r: Lexeme)
    requires t != []
    ensures 1 <= r.len <= |t|
  {
    var n := OperatorLen(t);
    if n == 0 then Lexeme(Error, 1) else Lexeme(OperatorKind(t[..n]).value, n)
  }

  // ----- tokens --------------------------------------------------------------------------

  function Scan(t: string): (r: Lexeme)
    requires t != []
    ensures 1 <= r.len <= |t|
  {
    var c := t[0];
    if IsWordStart(c) then
      if c == 'r' && (At(t, 1) == '"' || At(t, 1) == '#') then ScanRaw(t)
      else if c == 'b' && At(t, 1) == '\'' then ScanQuoted(t, 1, '\'', ByteLiteral)
      else if c == 'b' && At(t, 1) == '"' then ScanQuoted(t, 1, '"', ByteStringLiteral)
      else var n := Run(t, IsWord); Lexeme(WordKind(t[..n]), n)
    else if IsDigit(c) then ScanNumber(t)
    else if c == '\'' then ScanTick(t)
    else if c == '"' then ScanQuoted(t, 0, '"', StringLiteral)
    else ScanOperator(t)
  }

  /** A token with its own text. */
  datatype Piece = Piece(kind: TokenKind, text: string)

  function Pieces(t: string): seq<Piece>
    decreases |t|
  {
    var k := TriviaLen(t);
    if k == |t| then []
    else
      var r := Scan(t[k..]);
      [Piece(r.kind, t[k..k + r.len])] + Pieces(t[k + r.len..])
  }
}
