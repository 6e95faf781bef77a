/** Where tokens begin and end, and that a token's own bytes decide what it is. */
module LexicalFacts {
  import opened Wrappers
  import opened Tokens
  import opened LexicalGrammar

  // ----- white space and comments --------------------------------------------------------

  lemma {:induction false} BlockLenIs(t: string)
    ensures var n := BlockLen(t);
            if n >= 2 && ClosesBlock(t, n - 2) then forall i :: 0 <= i < n - 2 ==> !ClosesBlock(t, i)
            else n == |t| && forall i :: 0 <= i < n ==> !ClosesBlock(t, i)
  {
    if t != [] && !(t[0] == '*' && At(t, 1) == '/') {
      BlockLenIs(t[1..]);
      forall i | 0 < i <= |t| ensures ClosesBlock(t, i) <==> ClosesBlock(t[1..], i - 1) {}
    }
  }

  /** What the skipping loop passes at once is whole. */
  lemma CommentIsBlank(t: string)
    requires |t| >= 2 && t[0] == '/'
    ensures t[1] == '/' ==> IsBlank(t, 2 + LineLen(t[2..]))
    ensures t[1] == '*' ==> IsBlank(t, 2 + BlockLen(t[2..]))
  {
    if t[1] == '/' {
      var n := 2 + LineLen(t[2..]);
      forall i | 0 <= i < n ensures t[i] != '\n' {
        if i >= 2 { assert InLine(t[2..][i - 2]); }
      }
      if n < |t| { assert t[n] == t[2..][n - 2]; }
    } else if t[1] == '*' {
      var n := 2 + BlockLen(t[2..]);
      BlockLenIs(t[2..]);
      forall i | 2 <= i < |t| ensures ClosesBlock(t, i) <==> ClosesBlock(t[2..], i - 2) {}
    }
  }

  lemma NoBlankAtToken(t: string, k: nat)
    requires TriviaLen(t) == 0
    ensures !IsBlank(t, k)
  {
    if 2 <= k <= |t| {
      assert t[..2] == [t[0], t[1]];
    }
  }

  lemma SpaceIsBlank(t: string)
    ensures t != [] && IsSpace(t[0]) ==> IsBlank(t, 1)
    ensures IsTrivia(t, 0)
  {}

  /** The blank or comment that skipping passes first. */
  lemma FirstBlank(t: string) returns (k: nat)
    requires TriviaLen(t) > 0
    ensures 0 < k <= |t| && IsBlank(t, k) && TriviaLen(t) == k + TriviaLen(t[k..])
  {
    hide IsBlank, LineLen, BlockLen;
    k := if IsSpace(t[0]) then 1 else if t[1] == '/' then 2 + LineLen(t[2..]) else 2 + BlockLen(t[2..]);
    if !IsSpace(t[0]) { CommentIsBlank(t); }
    SpaceIsBlank(t);
  }

  lemma TriviaStep(t: string, k: nat, n: nat)
    requires k <= n && IsBlank(t, k) && IsTrivia(t[k..], n - k)
    ensures IsTrivia(t, n)
  {}

  /** Skipping passes white space and comments only, and all of them. */
  lemma {:induction false} TriviaIsBlank(t: string)
    ensures IsTrivia(t, TriviaLen(t))
    ensures forall k :: !IsBlank(t[TriviaLen(t)..], k)
    decreases |t|
  {
    hide IsBlank, IsTrivia, TriviaLen;
    var n := TriviaLen(t);
    if n == 0 {
      SpaceIsBlank(t);
      assert t[n..] == t;
      forall k ensures !IsBlank(t[n..], k) { NoBlankAtToken(t, k); }
    } else {
      var k := FirstBlank(t);
      TriviaIsBlank(t[k..]);
      TriviaStep(t, k, n);
      assert t[k..][n - k..] == t[n..];
    }
  }

  // ----- literals ------------------------------------------------------------------------

  /** The number of backslashes right before position `i`. */
  function Backslashes(t: string, i: nat): (n: nat)
    requires i <= |t|
    ensures n <= i
  {
    if i > 0 && t[i - 1] == '\\' then 1 + Backslashes(t, i - 1) else 0
  }

  /** A quote that is not escaped: an even number of backslashes stands before it. */
  predicate ClosesBody(t: string, q: char, i: nat)
    requires i < |t|
  {
    t[i] == q && Backslashes(t, i) % 2 == 0
  }

  /** Cutting off a prefix changes the count by an even number, when the prefix is two bytes
      that start with a backslash, or one byte that is none. */
  lemma {:induction false} BackslashesShift(t: string, step: nat, i: nat)
    requires step <= i <= |t|
    requires (step == 1 && t[0] != '\\') || (step == 2 && t[0] == '\\')
    ensures Backslashes(t, i) % 2 == Backslashes(t[step..], i - step) % 2
  {
    if i > step && t[i - 1] == '\\' {
      BackslashesShift(t, step, i - 1);
    } else if i == step == 2 {
      assert Backslashes(t, 1) == 1 + Backslashes(t, 0);
    }
  }

  /** A quoted body ends at the first quote that is not escaped. */
  lemma {:induction false} BodyEndsUnescaped(t: string, q: char)
    requires q != '\\'
    ensures var n := BodyLen(t, q);
            && (n < |t| ==> ClosesBody(t, q, n))
            && forall i :: 0 <= i < n ==> !ClosesBody(t, q, i)
    decreases |t|
  {
    hide Backslashes;
    var n := BodyLen(t, q);
    FirstBackslashes(t);
    if n > 0 {
      var step := if t[0] == '\\' then Min(2, |t|) else 1;
      BodyEndsUnescaped(t[step..], q);
      if step == 2 || t[0] != '\\' {
        forall i | step <= i < |t| ensures ClosesBody(t, q, i) <==> ClosesBody(t[step..], q, i - step) {
          BackslashesShift(t, step, i);
        }
      }
    }
  }

  lemma FirstBackslashes(t: string)
    ensures Backslashes(t, 0) == 0
    ensures t != [] ==> Backslashes(t, 1) == if t[0] == '\\' then 1 else 0
  {
    if t != [] { assert Backslashes(t, 1) == if t[0] == '\\' then 1 + Backslashes(t, 0) else 0; }
  }

  // ----- a token in another place --------------------------------------------------------

  /** Nothing that could lengthen a token follows. */
  predicate IsBoundary(u: string) {
    u == [] || IsSpace(u[0])
  }

  /** A literal cut off by the end of the text. */
  predicate IsUnterminated(kind: TokenKind, text: string) {
    kind == Error && text != [] && text[0] in {'r', 'b', '"', '\''}
  }

  /** A run is all there is before the first byte that fails. */
  lemma RunIs(t: string, p: char -> bool, n: nat)
    requires n <= |t| && (forall i :: 0 <= i < n ==> p(t[i])) && (n < |t| ==> !p(t[n]))
    ensures Run(t, p) == n
  {
    var m := Run(t, p);
    assert forall i :: 0 <= i < m ==> p(t[i]);
  }

  /** `v` starts with the first `e` bytes of `t`, and a boundary follows them. */
  ghost predicate Placed(t: string, v: string, e: nat) {
    e <= |t| && e <= |v| && v[..e] == t[..e] && IsBoundary(v[e..])
  }

  lemma PlacedAt(t: string, v: string, e: nat, i: nat)
    requires Placed(t, v, e)
    ensures i < e ==> v[i] == t[i]
    ensures e < |v| ==> IsSpace(v[e])
  {
    if i < e { assert v[i] == v[..e][i] == t[..e][i]; }
    if e < |v| { assert v[e] == v[e..][0]; }
  }

  lemma RunPlaced(t: string, v: string, e: nat, k: nat, p: char -> bool)
    requires Placed(t, v, e) && k <= e && k + Run(t[k..], p) <= e
    requires forall c :: IsSpace(c) ==> !p(c)
    ensures Run(v[k..], p) == Run(t[k..], p)
  {
    var n := Run(t[k..], p);
    forall i | 0 <= i < n ensures p(v[k..][i]) {
      PlacedAt(t, v, e, k + i);
      assert p(t[k..][i]);
    }
    PlacedAt(t, v, e, k + n);
    if k + n < |v| && k + n < e { assert v[k..][n] == t[k..][n]; }
    RunIs(v[k..], p, n);
  }

  lemma {:induction false} BodyPlaced(t: string, v: string, q: char)
    requires var n := BodyLen(t, q); n < |t| && n < |v| && forall i :: 0 <= i <= n ==> v[i] == t[i]
    ensures BodyLen(v, q) == BodyLen(t, q)
    decreases |t|
  {
    if BodyLen(t, q) > 0 {
      var step := if t[0] == '\\' then Min(2, |t|) else 1;
      BodyPlaced(t[step..], v[step..], q);
    }
  }

  lemma QuotedPlaced(t: string, v: string, e: nat, skip: nat, q: char, kind: TokenKind)
    requires skip < |t| && kind != Error
    requires var r := ScanQuoted(t, skip, q, kind); r.kind == kind && r.len <= e && Placed(t, v, e)
    ensures ScanQuoted(v, skip, q, kind) == ScanQuoted(t, skip, q, kind)
  {
    var n := BodyLen(t[skip + 1..], q);
    var k := skip + 1;
    forall i | 0 <= i <= n ensures v[k..][i] == t[k..][i] {
      PlacedAt(t, v, e, k + i);
    }
    BodyPlaced(t[k..], v[k..], q);
  }

  lemma RawPlaced(t: string, v: string, e: nat)
    requires t != [] && ScanRaw(t).kind != Error && ScanRaw(t).len <= e && Placed(t, v, e)
    ensures ScanRaw(v) == ScanRaw(t)
  {
    var pounds := Run(t[1..], IsPound);
    var open := pounds + 2;
    var n := RawBodyLen(t[open..], pounds);
    RunPlaced(t, v, e, 1, IsPound);
    forall i | 0 <= i <= n ensures ClosesRaw(v[open..], i, pounds) <==> ClosesRaw(t[open..], i, pounds) {
      forall j | 0 <= j <= n + pounds ensures v[open..][j] == t[open..][j] {
        PlacedAt(t, v, e, open + j);
      }
    }
    var m := RawBodyLen(v[open..], pounds);
    assert forall i :: 0 <= i < m ==> !ClosesRaw(v[open..], i, pounds);
  }

  /** The byte at `i` of the copy: the token's own, or the boundary. */
  lemma AtPlaced(t: string, v: string, e: nat, i: nat)
    requires Placed(t, v, e)
    ensures i < e ==> At(v, i) == At(t, i)
    ensures i == e ==> At(v, i) == '\0' || IsSpace(At(v, i))
  {
    PlacedAt(t, v, e, i);
  }

  lemma NumberPlaced(t: string, v: string)
    requires t != [] && IsDigit(t[0]) && v != [] && IsDigit(v[0]) && Placed(t, v, ScanNumber(t).len)
    ensures ScanNumber(v) == ScanNumber(t)
  {
    hide Run, FractionEnd, ExponentEnd;
    var e := ScanNumber(t).len;
    PlacedAt(t, v, e, 0);
    AtPlaced(t, v, e, 1);
    if t[0] == '0' && IsRadix(At(t, 1)) {
      RunPlaced(t, v, e, 2, IsWord);
    } else {
      var i := Run(t, IsNumeral);
      assert t[0..] == t && v[0..] == v;
      var f := FractionEnd(t, i);
      var x := ExponentEnd(t, f);
      RunPlaced(t, v, e, 0, IsNumeral);
      FractionPlaced(t, v, e, i);
      ExponentPlaced(t, v, e, f);
      RunPlaced(t, v, e, x, IsWord);
    }
  }

  lemma FractionPlaced(t: string, v: string, e: nat, i: nat)
    requires i <= |t| && Placed(t, v, e) && FractionEnd(t, i) <= e
    ensures i <= |v| && FractionEnd(v, i) == FractionEnd(t, i)
  {
    AtPlaced(t, v, e, i);
    AtPlaced(t, v, e, i + 1);
    if FractionEnd(t, i) > i {
      RunPlaced(t, v, e, i + 1, IsNumeral);
    }
  }

  lemma ExponentPlaced(t: string, v: string, e: nat, i: nat)
    requires i <= |t| && Placed(t, v, e) && ExponentEnd(t, i) <= e
    ensures i <= |v| && ExponentEnd(v, i) == ExponentEnd(t, i)
  {
    AtPlaced(t, v, e, i);
    AtPlaced(t, v, e, i + 1);
    if ExponentEnd(t, i) > i {
      var s := if IsSign(At(t, i + 1)) then i + 2 else i + 1;
      RunPlaced(t, v, e, s, IsNumeral);
    }
  }

  lemma OperatorPlaced(t: string, v: string, e: nat)
    requires t != [] && ScanOperator(t).len == e && Placed(t, v, e)
    ensures v != [] && ScanOperator(v) == ScanOperator(t)
  {
    var n := OperatorLen(t);
    PlacedAt(t, v, e, 0);
    assert v[..e] == t[..e];
    forall k | e < k <= |v| ensures OperatorKind(v[..k]).None? {
      PlacedAt(t, v, e, e);
      assert v[..k][e] == v[e];
    }
    if n == 0 {
      assert OperatorKind(t[..1]).None?;
    }
    assert OperatorLen(v) == n by {
      if OperatorLen(v) > 0 { assert OperatorKind(v[..OperatorLen(v)]).Some?; }
    }
  }

  lemma {:induction false} WordInBody(t: string)
    ensures BodyLen(t, '\'') >= Run(t, IsWord)
    decreases |t|
  {
    if t != [] && IsWord(t[0]) { WordInBody(t[1..]); }
  }

  lemma TickPlaced(t: string, v: string, e: nat)
    requires t != [] && t[0] == '\'' && ScanTick(t).kind != Error && ScanTick(t).len == e && Placed(t, v, e)
    ensures v != [] && ScanTick(v) == ScanTick(t)
  {
    var n := 1 + Run(t[1..], IsWord);
    AtPlaced(t, v, e, 0);
    AtPlaced(t, v, e, 1);
    AtPlaced(t, v, e, n);
    WordInBody(t[1..]);
    RunPlaced(t, v, e, 1, IsWord);
    if ScanTick(t).kind == CharLiteral {
      QuotedPlaced(t, v, e, 0, '\'', CharLiteral);
    }
  }

  lemma WordPlaced(t: string, v: string, e: nat)
    requires Run(t, IsWord) == e && Placed(t, v, e)
    ensures Run(v, IsWord) == e && WordKind(v[..e]) == WordKind(t[..e])
  {
    assert t[0..] == t && v[0..] == v;
    RunPlaced(t, v, e, 0, IsWord);
  }

  /** A token stands wherever its bytes stand before a boundary. */
  lemma ScanPlaced(t: string, v: string)
    requires t != [] && Placed(t, v, Scan(t).len) && !IsUnterminated(Scan(t).kind, t[..Scan(t).len])
    ensures v != [] && Scan(v) == Scan(t)
  {
    hide ScanRaw, ScanQuoted, ScanTick, ScanNumber, ScanOperator, WordKind;
    var e := Scan(t).len;
    AtPlaced(t, v, e, 0);
    AtPlaced(t, v, e, 1);
    assert v != [] && v[0] == t[0] == t[..e][0];
    var c := t[0];
    if IsWordStart(c) {
      if c == 'r' && (At(t, 1) == '"' || At(t, 1) == '#') {
        RawSize(t);
        RawPlaced(t, v, e);
      } else if c == 'b' && At(t, 1) == '\'' {
        QuotedSize(t, 1, '\'', ByteLiteral);
        QuotedPlaced(t, v, e, 1, '\'', ByteLiteral);
      } else if c == 'b' && At(t, 1) == '"' {
        QuotedSize(t, 1, '"', ByteStringLiteral);
        QuotedPlaced(t, v, e, 1, '"', ByteStringLiteral);
      } else {
        WordPlaced(t, v, e);
      }
    } else if IsDigit(c) {
      NumberPlaced(t, v);
    } else if c == '\'' {
      TickPlaced(t, v, e);
    } else if c == '"' {
      QuotedSize(t, 0, '"', StringLiteral);
      QuotedPlaced(t, v, e, 0, '"', StringLiteral);
    } else {
      OperatorPlaced(t, v, e);
    }
  }

  lemma RawSize(t: string)
    requires t != []
    ensures ScanRaw(t).kind != Error ==> ScanRaw(t).len >= 2
  {}

  lemma QuotedSize(t: string, skip: nat, q: char, kind: TokenKind)
    requires skip < |t|
    ensures ScanQuoted(t, skip, q, kind).kind in {kind, Error}
    ensures ScanQuoted(t, skip, q, kind).kind != Error ==> ScanQuoted(t, skip, q, kind).len >= skip + 2
  {}
}
