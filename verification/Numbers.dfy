/** What a number is, by its parts, and that the scanner takes exactly the whole of one. */
module Numbers {
  import opened Tokens
  import opened LexicalGrammar

  datatype Parts = Parts(whole: string, fraction: string, exponent: string, suffix: string)

  function Text(p: Parts): string {
    p.whole + (p.fraction + (p.exponent + p.suffix))
  }

  predicate Each(s: string, p: char -> bool) {
    forall i :: 0 <= i < |s| ==> p(s[i])
  }

  /** Empty, or a point, a digit and more digits and underscores. */
  predicate IsFraction(s: string) {
    s == "" || (|s| >= 2 && s[0] == '.' && IsDigit(s[1]) && Each(s[1..], IsNumeral))
  }

  predicate Signed(s: string) {
    |s| >= 2 && IsSign(s[1])
  }

  /** Empty, or a letter, perhaps a sign, and digits and underscores if any. */
  predicate IsExponentPart(s: string) {
    s == "" || (IsExponent(s[0]) && Each(if Signed(s) then s[2..] else s[1..], IsNumeral))
  }

  /** No part can be longer: what comes behind it is not of its kind. */
  predicate PartsEnd(p: Parts, rest: string) {
    var last := p.suffix + rest;
    && !IsNumeral(At(last, 0)) && !IsWord(At(rest, 0))
    && (p.exponent == "" ==> !IsExponent(At(last, 0)))
    && (|p.exponent| == 1 ==> !IsSign(At(last, 0)))
    && (p.fraction == p.exponent == p.suffix == "" ==> !(At(rest, 0) == '.' && IsDigit(At(rest, 1))))
  }

  /** A decimal number in front of `rest`. */
  predicate IsNumber(p: Parts, rest: string) {
    && p.whole != "" && IsDigit(p.whole[0]) && Each(p.whole, IsNumeral)
    && IsFraction(p.fraction) && IsExponentPart(p.exponent) && Each(p.suffix, IsWord)
    && PartsEnd(p, rest)
    && !(p.whole[0] == '0' && IsRadix(At(Text(p) + rest, 1)))
  }

  function NumberKind(p: Parts): TokenKind {
    if p.fraction == p.exponent == "" then IntegerLiteral else FloatLiteral
  }

  lemma RunOver(a: string, b: string, p: char -> bool)
    requires Each(a, p) && (b == [] || !p(b[0]))
    ensures Run(a + b, p) == |a|
  {
    hide Run;
    assert forall i :: 0 <= i < |a| ==> p((a + b)[i]);
    assert b != [] ==> (a + b)[|a|] == b[0];
  }

  lemma FractionOver(before: string, fraction: string, more: string)
    requires IsFraction(fraction) && !IsNumeral(At(more, 0))
    requires fraction == "" ==> !(At(more, 0) == '.' && IsDigit(At(more, 1)))
    ensures FractionEnd(before + (fraction + more), |before|) == |before| + |fraction|
  {
    hide Run;
    var t := before + (fraction + more);
    if fraction != "" {
      assert t[|before| + 1..] == fraction[1..] + more;
      RunOver(fraction[1..], more, IsNumeral);
    }
  }

  lemma ExponentOver(before: string, exponent: string, more: string)
    requires IsExponentPart(exponent) && !IsNumeral(At(more, 0))
    requires exponent == "" ==> !IsExponent(At(more, 0))
    requires |exponent| == 1 ==> !IsSign(At(more, 0))
    ensures ExponentEnd(before + (exponent + more), |before|) == |before| + |exponent|
  {
    hide Run;
    var t := before + (exponent + more);
    if exponent != "" {
      var s := if Signed(exponent) then 2 else 1;
      assert t[|before| + s..] == exponent[s..] + more;
      RunOver(exponent[s..], more, IsNumeral);
    }
  }

  lemma WholeEnds(p: Parts, rest: string)
    requires IsNumber(p, rest)
    ensures var more := p.exponent + (p.suffix + rest);
      && !IsNumeral(At(p.fraction + more, 0)) && !IsNumeral(At(more, 0))
      && (p.fraction == "" ==> !(At(more, 0) == '.' && IsDigit(At(more, 1))))
  {
    hide IsNumber;
    var last := p.suffix + rest;
    NumberHas(p, rest);
    if p.exponent == "" {
      assert p.exponent + last == last;
      if p.suffix == "" { assert last == rest; }
    }
    if p.fraction == "" { assert p.fraction + (p.exponent + last) == p.exponent + last; }
  }

  lemma NumberHas(p: Parts, rest: string)
    requires IsNumber(p, rest)
    ensures IsFraction(p.fraction) && IsExponentPart(p.exponent) && Each(p.suffix, IsWord) && Each(p.whole, IsNumeral)
    ensures PartsEnd(p, rest) && p.whole != "" && !(p.whole[0] == '0' && IsRadix(At(Text(p) + rest, 1)))
  {
    hide IsFraction, IsExponentPart, PartsEnd, Each;
  }

  /** A number is scanned whole, and as what it is. */
  lemma NumberReadsBack(p: Parts, rest: string)
    requires IsNumber(p, rest)
    ensures ScanNumber(Text(p) + rest) == Lexeme(NumberKind(p), |Text(p)|)
  {
    hide Run, FractionEnd, ExponentEnd, IsNumber, IsFraction, IsExponentPart, PartsEnd, Each, IsRadix, IsWord, At,
         Text;
    NumberHas(p, rest);
    WholeEnds(p, rest);
    AfterParts(p, rest);
    var t, last := Text(p) + rest, p.suffix + rest;
    var i, f := |p.whole|, |p.whole| + |p.fraction|;
    var x := f + |p.exponent|;
    Regrouped(p, rest);
    AtFront(t, p.whole, p.fraction + (p.exponent + last));
    AtFront(last, p.suffix, rest);
    RunOver(p.whole, p.fraction + (p.exponent + last), IsNumeral);
    FractionOver(p.whole, p.fraction, p.exponent + last);
    ExponentOver(p.whole + p.fraction, p.exponent, last);
    RunOver(p.suffix, rest, IsWord);
  }

  lemma Regrouped(p: Parts, rest: string)
    ensures var t, last := Text(p) + rest, p.suffix + rest;
      && t == p.whole + (p.fraction + (p.exponent + last)) && t == (p.whole + p.fraction) + (p.exponent + last)
      && |Text(p)| == |p.whole| + |p.fraction| + |p.exponent| + |p.suffix|
      && t[|p.whole| + |p.fraction| + |p.exponent|..] == last
  {
    var t, last := Text(p) + rest, p.suffix + rest;
    var x := |p.whole| + |p.fraction| + |p.exponent|;
    assert p.exponent + last == (p.exponent + p.suffix) + rest;
    assert p.fraction + (p.exponent + last) == (p.fraction + (p.exponent + p.suffix)) + rest;
    assert t == p.whole + (p.fraction + (p.exponent + last));
  }

  lemma AfterParts(p: Parts, rest: string)
    requires PartsEnd(p, rest)
    ensures var last := p.suffix + rest;
      && !IsNumeral(At(last, 0)) && !IsWord(At(rest, 0))
      && (p.exponent == "" ==> !IsExponent(At(last, 0))) && (|p.exponent| == 1 ==> !IsSign(At(last, 0)))
  {}

  lemma AtFront(t: string, a: string, b: string)
    requires t == a + b
    ensures b == [] || b[0] == At(b, 0)
    ensures a != "" ==> t != [] && At(t, 0) == t[0] == a[0]
  {}

  lemma FractionTaken(t: string, i: nat)
    requires i <= |t| && !IsNumeral(At(t, i))
    ensures var f := FractionEnd(t, i);
      && IsFraction(t[i..f]) && !IsNumeral(At(t, f)) && (i == f ==> !(At(t, i) == '.' && IsDigit(At(t, i + 1))))
  {
    hide Run;
    var f := FractionEnd(t, i);
    if i < f {
      RunTaken(t, i + 1, IsNumeral);
      assert t[i..f][1..] == t[i + 1..f];
      RunFirst(t[i + 1..], IsNumeral);
    }
  }

  lemma ExponentTaken(t: string, f: nat)
    requires f <= |t| && !IsNumeral(At(t, f))
    ensures var x := ExponentEnd(t, f);
      && IsExponentPart(t[f..x]) && !IsNumeral(At(t, x)) && (f == x ==> !IsExponent(At(t, f)))
      && (x == f + 1 ==> !IsSign(At(t, x)))
  {
    hide Run;
    var x := ExponentEnd(t, f);
    if f < x {
      var s := if IsSign(At(t, f + 1)) then f + 2 else f + 1;
      RunTaken(t, s, IsNumeral);
      assert t[f..x][s - f..] == t[s..x];
      assert Signed(t[f..x]) <==> s == f + 2;
    }
  }

  lemma AtBehind(t: string, x: nat, k: nat)
    requires x <= |t|
    ensures At(t[x..], k) == At(t, x + k)
  {}

  /** Whatever is scanned as a decimal number is one. */
  lemma NumberSplits(t: string) returns (p: Parts, rest: string)
    requires t != [] && IsDigit(t[0]) && !(t[0] == '0' && IsRadix(At(t, 1)))
    ensures t == Text(p) + rest && IsNumber(p, rest)
  {
    hide Run, FractionEnd, ExponentEnd, IsFraction, IsExponentPart, Each, IsRadix, IsExponent, IsSign, IsWord, PartsEnd,
         Text, At;
    var i := Run(t, IsNumeral);
    var f := FractionEnd(t, i);
    var x := ExponentEnd(t, f);
    var e := x + Run(t[x..], IsWord);
    p, rest := Parts(t[..i], t[i..f], t[f..x], t[x..e]), t[e..];
    JoinedBack(t, i, f, x, e);
    RunFirst(t, IsNumeral);
    assert t[0..] == t;
    RunTaken(t, 0, IsNumeral);
    FractionTaken(t, i);
    ExponentTaken(t, f);
    WordTaken(t, x);
    assert t[..i][0] == t[0];
    EndsAt(t, p, f, x, e);
  }

  lemma JoinedBack(t: string, i: nat, f: nat, x: nat, e: nat)
    requires i <= f <= x <= e <= |t|
    ensures t == Text(Parts(t[..i], t[i..f], t[f..x], t[x..e])) + t[e..]
  {
    assert t[..i] + t[i..f] == t[..f] && t[..f] + t[f..x] == t[..x] && t[..x] + t[x..e] == t[..e];
    assert Text(Parts(t[..i], t[i..f], t[f..x], t[x..e])) == t[..e];
  }

  lemma EndsAt(t: string, p: Parts, f: nat, x: nat, e: nat)
    requires f <= x <= e <= |t| && p.suffix == t[x..e] && |p.exponent| == x - f
    requires !IsNumeral(At(t, x)) && !IsWord(At(t, e)) && (f == x ==> !IsExponent(At(t, x)))
    requires x == f + 1 ==> !IsSign(At(t, x))
    requires p.fraction == p.exponent == p.suffix == "" ==> !(At(t, x) == '.' && IsDigit(At(t, x + 1)))
    ensures PartsEnd(p, t[e..])
  {
    hide IsNumeral, IsWord, IsExponent, IsSign, IsDigit, At;
    assert p.suffix + t[e..] == t[x..];
    AtBehind(t, x, 0);
    AtBehind(t, e, 0);
    AtBehind(t, e, 1);
  }

  lemma WordTaken(t: string, x: nat)
    requires x <= |t|
    ensures var e := x + Run(t[x..], IsWord); Each(t[x..e], IsWord) && !IsWord(At(t, e))
  {
    RunTaken(t, x, IsWord);
  }

  lemma RunFirst(t: string, p: char -> bool)
    requires t != [] && p(t[0])
    ensures Run(t, p) > 0
  {}

  lemma RunTaken(t: string, i: nat, p: char -> bool)
    requires i <= |t| && !p('\0')
    ensures Each(t[i..i + Run(t[i..], p)], p) && !p(At(t, i + Run(t[i..], p)))
  {
    var n := Run(t[i..], p);
    if i + n < |t| { assert t[i..][n] == t[i + n]; }
  }
}
