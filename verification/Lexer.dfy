/** The lexer: a cursor over the bytes of a source text. */
module Lexer {
  import opened Wrappers
  import opened Tokens
  import opened LexicalGrammar
  import opened Lexing

  const TWO_TO_THE_32: nat := 0x1_0000_0000

  datatype Token = Token(kind: TokenKind, file: nat, start: nat, end: nat)

  /** The token for bytes `start` to `end`: positions are kept in 32 bits. */
  function TokenFor(kind: TokenKind, file: nat, offset: nat, start: nat, end: nat): Token {
    Token(kind, file, (offset + start) % TWO_TO_THE_32, (offset + end) % TWO_TO_THE_32)
  }

  function TokensFor(toks: seq<Located>, file: nat, offset: nat): seq<Token> {
    if toks == [] then []
    else [TokenFor(toks[0].kind, file, offset, toks[0].start, toks[0].end)] + TokensFor(toks[1..], file, offset)
  }

  /** Below four gigabytes the spans are the tokens' places, shifted by the offset. */
  lemma {:induction false} SpansArePlaces(toks: seq<Located>, file: nat, offset: nat, size: nat)
    requires forall k :: 0 <= k < |toks| ==> toks[k].start <= toks[k].end <= size
    requires offset + size < TWO_TO_THE_32
    ensures |TokensFor(toks, file, offset)| == |toks|
    ensures forall k :: 0 <= k < |toks| ==>
              TokensFor(toks, file, offset)[k] == Token(toks[k].kind, file, offset + toks[k].start, offset
                + toks[k].end)
  {
    if toks != [] {
      assert forall k :: 0 <= k < |toks[1..]| ==> toks[1..][k] == toks[k + 1];
      SpansArePlaces(toks[1..], file, offset, size);
    }
  }

  lemma RunStep(t: string, i: nat, p: char -> bool)
    requires i < |t| && p(t[i])
    ensures Run(t[i..], p) == 1 + Run(t[i + 1..], p)
  {
    assert t[i..][1..] == t[i + 1..];
  }

  class Cursor {
    const source: string
    const fileId: nat
    const offset: nat
    var pos: nat

    ghost predicate Valid() reads this {
      pos <= |source|
    }

    constructor (source: string, fileId: nat, offset: nat)
      ensures Valid() && this.source == source && this.fileId == fileId && this.offset == offset && pos == 0
    {
      this.source := source;
      this.fileId := fileId;
      this.offset := offset;
      this.pos := 0;
    }

    predicate IsAtEnd() reads this { pos >= |source| }

    function Peek(): (c: char) reads this
      ensures c == At(source, pos)
    {
      if IsAtEnd() then '\0' else source[pos]
    }

    function PeekNext(): (c: char) reads this
      ensures c == At(source, pos + 1)
    {
      if pos + 1 >= |source| then '\0' else source[pos + 1]
    }

    method Advance() returns (c: char)
      requires Valid()
      modifies this
      ensures Valid() && c == At(source, old(pos)) && pos == Min(old(pos) + 1, |source|)
    {
      if IsAtEnd() { return '\0'; }
      c := source[pos];
      pos := pos + 1;
    }

    method MatchChar(expected: char) returns (found: bool)
      requires Valid()
      modifies this
      ensures Valid() && found == (old(pos) < |source| && source[old(pos)] == expected)
      ensures expected != '\0' ==> found == (At(source, old(pos)) == expected)
      ensures pos == if found then old(pos) + 1 else old(pos)
    {
      if IsAtEnd() || source[pos] != expected { return false; }
      pos := pos + 1;
      return true;
    }

    /** Passes all bytes that satisfy `p`. */
    method SkipRun(p: char -> bool)
      requires Valid()
      modifies this
      ensures Valid() && pos == old(pos) + Run(source[old(pos)..], p)
    {
      while !IsAtEnd() && p(Peek())
        invariant Valid() && old(pos) <= pos && pos + Run(source[pos..], p) == old(pos) + Run(source[old(pos)..], p)
        decreases |source| - pos
      {
        RunStep(source, pos, p);
        pos := pos + 1;
      }
    }

    /** Passes a block comment's body, up to and with the end mark. */
    method SkipBlock()
      requires Valid()
      modifies this
      ensures Valid() && pos == old(pos) + BlockLen(source[old(pos)..])
    {
      while !IsAtEnd()
        invariant Valid() && old(pos) <= pos && pos + BlockLen(source[pos..]) == old(pos) + BlockLen(source[old(pos)..])
        decreases |source| - pos
      {
        assert source[pos..][1..] == source[pos + 1..];
        if Peek() == '*' && PeekNext() == '/' {
          pos := pos + 2;
          return;
        }
        pos := pos + 1;
      }
    }

    method SkipWhitespaceAndComments()
      requires Valid()
      modifies this
      ensures Valid() && pos == old(pos) + TriviaLen(source[old(pos)..])
    {
      hide TriviaLen, Run, BlockLen, IsSpace;
      while true
        invariant Valid() && old(pos) <= pos
        invariant pos + TriviaLen(source[pos..]) == old(pos) + TriviaLen(source[old(pos)..])
        decreases |source| - pos
      {
        TriviaAt(source, pos);
        if IsSpace(Peek()) {
          pos := pos + 1;
        } else if Peek() == '/' && PeekNext() == '/' {
          SkipRun(InLine);
        } else if Peek() == '/' && PeekNext() == '*' {
          pos := pos + 2;
          SkipBlock();
        } else {
          return;
        }
      }
    }

    method MakeToken(kind: TokenKind, start: nat) returns (t: Token)
      ensures t == TokenFor(kind, fileId, offset, start, pos)
    {
      t := Token(kind, fileId, (offset + start) % TWO_TO_THE_32, (offset + pos) % TWO_TO_THE_32);
    }

    /** The cursor has passed the lexeme at `start`, and `t` is its token. */
    ghost predicate Took(start: nat, lexeme: Lexeme, t: Token) reads this {
      && pos == start + lexeme.len <= |source|
      && t == TokenFor(lexeme.kind, fileId, offset, start, pos)
    }

    method IdentifierOrKeyword(start: nat) returns (t: Token)
      requires pos == start < |source|
      modifies this
      ensures var text := source[start..]; var n := Run(text, IsWord);
              Took(start, Lexeme(WordKind(text[..n]), n), t)
    {
      hide WordKind;
      SkipRun(IsWord);
      assert source[start..][..pos - start] == source[start..pos];
      t := MakeToken(WordKind(source[start..pos]), start);
    }

    method NumberLiteral(start: nat) returns (t: Token)
      requires pos == start < |source| && IsDigit(source[start])
      modifies this
      ensures Took(start, ScanNumber(source[start..]), t)
    {
      hide Run, FractionEnd, ExponentEnd;
      if Peek() == '0' && IsRadix(PeekNext()) {
        pos := pos + 2;
        assert source[start..][2..] == source[pos..];
        SkipRun(IsWord);
        t := MakeToken(IntegerLiteral, start);
        return;
      }
      SkipRun(IsNumeral);
      var digits := pos;
      var hasFraction := SkipFraction();
      ghost var fraction := pos;
      var hasExponent := SkipExponent();
      NumberAt(source, start, digits, fraction, pos);
      SkipRun(IsWord);
      t := MakeToken(if hasFraction || hasExponent then FloatLiteral else IntegerLiteral, start);
    }

    method SkipFraction() returns (found: bool)
      requires Valid()
      modifies this
      ensures Valid() && pos == FractionEnd(source, old(pos)) && found == (old(pos) < pos)
    {
      if Peek() == '.' && IsDigit(PeekNext()) {
        pos := pos + 1;
        SkipRun(IsNumeral);
        return true;
      }
      return false;
    }

    method SkipExponent() returns (found: bool)
      requires Valid()
      modifies this
      ensures Valid() && pos == ExponentEnd(source, old(pos)) && found == (old(pos) < pos)
    {
      if IsExponent(Peek()) {
        pos := pos + 1;
        if IsSign(Peek()) {
          pos := pos + 1;
        }
        SkipRun(IsNumeral);
        return true;
      }
      return false;
    }

    /** Passes a quoted body: every backslash takes the byte behind it along. */
    method SkipBody(q: char)
      requires Valid()
      modifies this
      ensures Valid() && pos == old(pos) + BodyLen(source[old(pos)..], q)
    {
      hide BodyLen;
      BodyStops(source, q);
      while !IsAtEnd() && Peek() != q
        invariant Valid() && old(pos) <= pos
        invariant pos + BodyLen(source[pos..], q) == old(pos) + BodyLen(source[old(pos)..], q)
        decreases |source| - pos
      {
        BodyStep(source, pos, q);
        if Peek() == '\\' {
          var _ := Advance();
        }
        var _ := Advance();
      }
    }

    method CharLiteral(start: nat, isByte: bool) returns (t: Token)
      requires pos == start && start + (if isByte then 1 else 0) < |source|
      modifies this
      ensures var text := source[start..];
              Took(start, if isByte then ScanQuoted(text, 1, '\'', ByteLiteral)
                else ScanQuoted(text, 0, '\'', TokenKind.CharLiteral), t)
    {
      hide BodyLen;
      if isByte {
        pos := pos + 1;
      }
      pos := pos + 1;
      assert source[start..][pos - start..] == source[pos..];
      SkipBody('\'');
      if IsAtEnd() {
        t := MakeToken(Error, start);
        return;
      }
      pos := pos + 1;
      t := MakeToken(if isByte then ByteLiteral else TokenKind.CharLiteral, start);
    }

    /** Whether `pounds` pound signs stand behind the quote at the cursor. */
    method PoundsFollow(pounds: nat) returns (found: bool)
      requires pos < |source| && source[pos] == '"'
      ensures found == ClosesRaw(source[pos..], 0, pounds)
    {
      ghost var text := source[pos..];
      for i := 1 to pounds + 1
        invariant forall j :: 0 < j < i ==> pos + j < |source| && text[j] == '#'
        invariant pos + i <= |source|
      {
        if pos + i >= |source| || source[pos + i] != '#' {
          return false;
        }
      }
      return true;
    }

    /** Passes a raw body: up to the first quote with enough pound signs. */
    method SkipRawBody(pounds: nat)
      requires Valid()
      modifies this
      ensures Valid() && pos == old(pos) + RawBodyLen(source[old(pos)..], pounds)
    {
      hide RawBodyLen, ClosesRaw;
      while !IsAtEnd()
        invariant Valid() && old(pos) <= pos
        invariant pos + RawBodyLen(source[pos..], pounds) == old(pos) + RawBodyLen(source[old(pos)..], pounds)
        decreases |source| - pos
      {
        RawStep(source, pos, pounds);
        if Peek() == '"' {
          var found := PoundsFollow(pounds);
          if found { return; }
        }
        pos := pos + 1;
      }
    }

    method StringLiteral(start: nat, isByte: bool) returns (t: Token)
      requires pos == start && start + (if isByte then 1 else 0) < |source|
      modifies this
      ensures var text := source[start..];
              Took(start, if isByte then ScanQuoted(text, 1, '"', ByteStringLiteral)
                else ScanQuoted(text, 0, '"', TokenKind.StringLiteral), t)
    {
      hide BodyLen;
      if isByte {
        pos := pos + 1;
      }
      pos := pos + 1;
      assert source[start..][pos - start..] == source[pos..];
      SkipBody('"');
      if IsAtEnd() {
        t := MakeToken(Error, start);
        return;
      }
      pos := pos + 1;
      t := MakeToken(if isByte then ByteStringLiteral else TokenKind.StringLiteral, start);
    }

    method RawStringLiteral(start: nat) returns (t: Token)
      requires pos == start < |source|
      modifies this
      ensures Took(start, ScanRaw(source[start..]), t)
    {
      hide RawBodyLen, Run, ClosesRaw;
      ghost var text := source[start..];
      pos := pos + 1;
      assert text[1..] == source[pos..];
      SkipRun(IsPound);
      var pounds := pos - start - 1;
      var _ := Advance();
      assert text[pos - start..] == source[pos..];
      SkipRawBody(pounds);
      if IsAtEnd() {
        t := MakeToken(Error, start);
        return;
      }
      pos := pos + 1 + pounds;
      t := MakeToken(TokenKind.RawStringLiteral, start);
    }

    /** The cursor is right behind byte `c`, the first of an operator. */
    ghost predicate Behind(c: char) reads this {
      0 < pos <= |source| && source[pos - 1] == c
    }

    /** The branch for an operator that one byte `a` can extend. */
    method MatchOne(c: char, a: char, kindA: TokenKind, other: TokenKind) returns (kind: TokenKind)
      requires Behind(c) && Extends(c, other, map[a := kindA]) && NoThird(c)
      modifies this
      ensures old(pos) <= pos <= |source| && ScanOperator(source[old(pos) - 1..]) == Lexeme(kind, pos - old(pos) + 1)
    {
      hide ScanOperator, OneByteOperator, SecondBytes, ThirdBytes;
      var found := MatchChar(a);
      kind := if found then kindA else other;
      OperatorIs(source, old(pos) - 1, pos - old(pos) + 1, kind);
    }

    method MatchTwo(
        c: char, a: char, kindA: TokenKind, b: char, kindB: TokenKind, other: TokenKind) returns (kind: TokenKind)
      requires Behind(c) && Extends(c, other, map[a := kindA, b := kindB]) && NoThird(c) && a != b
      modifies this
      ensures old(pos) <= pos <= |source| && ScanOperator(source[old(pos) - 1..]) == Lexeme(kind, pos - old(pos) + 1)
    {
      hide ScanOperator, OneByteOperator, SecondBytes, ThirdBytes;
      var found := MatchChar(a);
      if found {
        kind := kindA;
      } else {
        found := MatchChar(b);
        kind := if found then kindB else other;
      }
      OperatorIs(source, old(pos) - 1, pos - old(pos) + 1, kind);
    }

    method MatchMinus() returns (kind: TokenKind)
      requires Behind('-')
      modifies this
      ensures old(pos) <= pos <= |source| && ScanOperator(source[old(pos) - 1..]) == Lexeme(kind, pos - old(pos) + 1)
    {
      hide ScanOperator;
      var found := MatchChar('=');
      if found {
        kind := MinusAssign;
      } else {
        found := MatchChar('-');
        if found {
          kind := MinusMinus;
        } else {
          found := MatchChar('>');
          kind := if found then Arrow else Minus;
        }
      }
      OperatorIs(source, old(pos) - 1, pos - old(pos) + 1, kind);
    }

    /** Comparisons and shifts, and a shift's own assignment. */
    method MatchShift(
        c: char, compare: TokenKind, shift: TokenKind, assign: TokenKind, other: TokenKind) returns (kind: TokenKind)
      requires Behind(c) && Extends(c, other, map['=' := compare, c := shift]) && c != '='
      requires OnlyShift(c, assign)
      modifies this
      ensures old(pos) <= pos <= |source| && ScanOperator(source[old(pos) - 1..]) == Lexeme(kind, pos - old(pos) + 1)
    {
      hide ScanOperator, OneByteOperator, SecondBytes, ThirdBytes;
      var found := MatchChar('=');
      if found {
        kind := compare;
      } else {
        found := MatchChar(c);
        if found {
          found := MatchChar('=');
          kind := if found then assign else shift;
        } else {
          kind := other;
        }
      }
      OperatorIs(source, old(pos) - 1, pos - old(pos) + 1, kind);
    }

    method MatchDot() returns (kind: TokenKind)
      requires Behind('.')
      modifies this
      ensures old(pos) <= pos <= |source| && ScanOperator(source[old(pos) - 1..]) == Lexeme(kind, pos - old(pos) + 1)
    {
      hide ScanOperator;
      var found := MatchChar('.');
      if found {
        found := MatchChar('.');
        if found {
          kind := DotDotDot;
        } else {
          found := MatchChar('=');
          kind := if found then DotDotEq else DotDot;
        }
      } else {
        kind := Dot;
      }
      OperatorIs(source, old(pos) - 1, pos - old(pos) + 1, kind);
    }

    /** The operator whose first byte `c` the cursor has just passed. */
    method MatchOperator(c: char) returns (kind: TokenKind)
      requires Behind(c)
      modifies this
      ensures old(pos) <= pos <= |source| && ScanOperator(source[old(pos) - 1..]) == Lexeme(kind, pos - old(pos) + 1)
    {
      hide ScanOperator, Extends, NoThird, OnlyShift, OneByteOperator, SecondBytes, ThirdBytes;
      OneExtension();
      OneExtensionMore();
      MarkExtensions();
      TwoExtensions();
      TwoExtensionsMore();
      ShiftExtensions();
      if c !in {'<', '>', '.'} { NothingThird(c); }
      match c {
        case '+' => { kind := MatchTwo(c, '=', PlusAssign, '+', PlusPlus, Plus); }
        case '-' => { kind := MatchMinus(); }
        case '*' => { kind := MatchOne(c, '=', StarAssign, Multiply); }
        case '/' => { kind := MatchOne(c, '=', SlashAssign, Divide); }
        case '%' => { kind := MatchOne(c, '=', PercAssign, Modulo); }
        case '=' => { kind := MatchTwo(c, '=', EqualEqual, '>', FatArrow, Equal); }
        case '<' => { kind := MatchShift(c, LessThanEqual, LShift, LShiftAssign, LessThan); }
        case '>' => { kind := MatchShift(c, GreaterThanEqual, RShift, RShiftAssign, GreaterThan); }
        case '!' => { kind := MatchOne(c, '=', NotEqual, Bang); }
        case '&' => { kind := MatchTwo(c, '=', BitAndAssign, '&', LogicalAnd, BitAnd); }
        case '|' => { kind := MatchTwo(c, '=', BitOrAssign, '|', LogicalOr, BitOr); }
        case '^' => { kind := MatchOne(c, '=', BitXorAssign, BitXor); }
        case ':' => { kind := MatchOne(c, ':', ColonColon, Colon); }
        case '.' => { kind := MatchDot(); }
        case '#' => { kind := MatchOne(c, '[', HashBracket, Error); }
        case _ => { kind := MatchMark(c); }
      }
    }

    method MatchMark(c: char) returns (kind: TokenKind)
      requires Behind(c)
      requires c !in {'+', '-', '*', '/', '%', '=', '<', '>', '!', '&', '|', '^', ':', '.', '#'}
      ensures ScanOperator(source[pos - 1..]) == Lexeme(kind, 1)
    {
      hide ScanOperator;
      kind := MarkKind(c);
      OperatorIs(source, pos - 1, 1, kind);
    }

    /** A lifetime or a character literal: the first is read ahead to tell them apart. */
    method LifetimeOrChar(start: nat) returns (t: Token)
      requires pos == start + 1 <= |source| && source[start] == '\''
      modifies this
      ensures Took(start, ScanTick(source[start..]), t)
    {
      hide BodyLen;
      ghost var text := source[start..];
      assert text[1..] == source[start + 1..] && At(text, 1) == Peek();
      if IsWordStart(Peek()) {
        RunStep(source, pos, IsWord);
        pos := pos + 1;
        SkipRun(IsWord);
        assert At(text, pos - start) == Peek();
        if Peek() != '\'' {
          t := MakeToken(Lifetime, start);
          return;
        }
      }
      pos := start;
      t := CharLiteral(start, false);
    }

    /** The next token; none at the end of the text. */
    method Next() returns (t: Option<Token>)
      requires Valid()
      modifies this
      ensures Valid()
      ensures var k := old(pos) + TriviaLen(source[old(pos)..]);
              if k == |source| then t == None && pos == k
              else t.Some? && Took(k, Scan(source[k..]), t.value)
    {
      hide TriviaLen, ScanRaw, ScanQuoted, ScanTick, ScanNumber, ScanOperator, WordKind, Run;
      SkipWhitespaceAndComments();
      var start := pos;
      if IsAtEnd() { return None; }
      ghost var text := source[start..];
      assert At(text, 0) == text[0] == At(source, start) && At(text, 1) == At(source, start + 1);
      var c := Advance();
      var token: Token;
      if IsWordStart(c) {
        token := WordOrLiteral(c, start);
      } else if IsDigit(c) {
        pos := start;
        token := NumberLiteral(start);
      } else if c == '\'' {
        token := LifetimeOrChar(start);
      } else if c == '"' {
        pos := start;
        token := StringLiteral(start, false);
      } else {
        var kind := MatchOperator(c);
        token := MakeToken(kind, start);
      }
      return Some(token);
    }

    /** A word, or a raw, byte or byte-string literal behind its prefix letter. */
    method WordOrLiteral(c: char, start: nat) returns (t: Token)
      requires pos == start + 1 <= |source| && c == source[start] && IsWordStart(c)
      modifies this
      ensures Took(start, Scan(source[start..]), t)
    {
      hide ScanRaw, ScanQuoted, WordKind, Run;
      ghost var text := source[start..];
      assert At(text, 0) == text[0] == At(source, start) && At(text, 1) == At(source, start + 1);
      var next := Peek();
      pos := start;
      if c == 'r' && (next == '"' || next == '#') {
        t := RawStringLiteral(start);
      } else if c == 'b' && next == '\'' {
        t := CharLiteral(start, true);
      } else if c == 'b' && next == '"' {
        t := StringLiteral(start, true);
      } else {
        t := IdentifierOrKeyword(start);
      }
    }
  }

  function Optional(kind: TokenKind): Option<TokenKind> {
    if kind == Error then None else Some(kind)
  }

  /** Byte `c` alone is `alone`, and `longer` lists the bytes that extend it by one. */
  ghost predicate Extends(c: char, alone: TokenKind, longer: map<char, TokenKind>) {
    OneByteOperator(c) == Optional(alone) && SecondBytes(c) == longer && '\0' !in longer
  }

  ghost predicate NoThird(c: char) {
    forall d :: ThirdBytes(c, d) == map[]
  }

  lemma OneExtension()
    ensures Extends('*', Multiply, map['=' := StarAssign])
    ensures Extends('/', Divide, map['=' := SlashAssign])
    ensures Extends('%', Modulo, map['=' := PercAssign])
  {}

  lemma OneExtensionMore()
    ensures Extends('!', Bang, map['=' := NotEqual])
    ensures Extends('^', BitXor, map['=' := BitXorAssign])
  {}

  lemma MarkExtensions()
    ensures Extends(':', Colon, map[':' := ColonColon])
    ensures Extends('#', Error, map['[' := HashBracket])
  {}

  lemma TwoExtensions()
    ensures Extends('+', Plus, map['=' := PlusAssign, '+' := PlusPlus])
    ensures Extends('=', Equal, map['=' := EqualEqual, '>' := FatArrow])
  {}

  lemma TwoExtensionsMore()
    ensures Extends('&', BitAnd, map['=' := BitAndAssign, '&' := LogicalAnd])
    ensures Extends('|', BitOr, map['=' := BitOrAssign, '|' := LogicalOr])
  {}

  lemma NothingThird(c: char)
    requires c !in {'<', '>', '.'}
    ensures NoThird(c)
  {}

  /** Only an assignment makes a shift longer. */
  ghost predicate OnlyShift(c: char, assign: TokenKind) {
    forall d :: ThirdBytes(c, d) == if d == c then map['=' := assign] else map[]
  }

  lemma ShiftExtensions()
    ensures Extends('<', LessThan, map['=' := LessThanEqual, '<' := LShift]) && OnlyShift('<', LShiftAssign)
    ensures Extends('>', GreaterThan, map['=' := GreaterThanEqual, '>' := RShift]) && OnlyShift('>', RShiftAssign)
  {}

  /** Marks that no other byte extends; everything else is no token. */
  function MarkKind(c: char): TokenKind {
    match c
    case '~' => BitNot
    case '$' => Dollar
    case '?' => Question
    case '@' => AtSign
    case ';' => Semi
    case ',' => Comma
    case '(' => LParen
    case ')' => RParen
    case '{' => LBrace
    case '}' => RBrace
    case '[' => LBracket
    case ']' => RBracket
    case _ => Error
  }

  lemma OperatorIs(s: string, i: nat, n: nat, kind: TokenKind)
    requires 1 <= n <= 3 && i + n <= |s|
    requires n == 3 ==> ThreeByteOperator(s[i], At(s, i + 1), At(s, i + 2)) == Some(kind)
    requires n < 3 ==> ThreeByteOperator(s[i], At(s, i + 1), At(s, i + 2)) == None
    requires n == 2 ==> TwoByteOperator(s[i], At(s, i + 1)) == Some(kind)
    requires n < 2 ==> TwoByteOperator(s[i], At(s, i + 1)) == None
    requires n == 1 ==> OneByteOperator(s[i]) == Optional(kind)
    ensures ScanOperator(s[i..]) == Lexeme(kind, n)
  {
    hide OneByteOperator, TwoByteOperator, ThreeByteOperator;
    assert forall k :: 0 <= k < |s[i..]| ==> s[i..][k] == s[i + k];
  }

  lemma RawStep(s: string, i: nat, pounds: nat)
    requires i < |s|
    ensures if ClosesRaw(s[i..], 0, pounds) then s[i] == '"' && RawBodyLen(s[i..], pounds) == 0
            else RawBodyLen(s[i..], pounds) == 1 + RawBodyLen(s[i + 1..], pounds)
  {
    assert s[i..][1..] == s[i + 1..];
  }

  lemma BodyStep(s: string, i: nat, q: char)
    requires i < |s| && s[i] != q
    ensures var n := if s[i] == '\\' then Min(i + 2, |s|) else i + 1;
            i + BodyLen(s[i..], q) == n + BodyLen(s[n..], q)
  {
    assert s[i..][1..] == s[i + 1..];
    assert i + 2 <= |s| ==> s[i..][2..] == s[i + 2..];
  }

  lemma BodyStops(s: string, q: char)
    ensures forall i :: 0 <= i <= |s| && (i == |s| || s[i] == q) ==> BodyLen(s[i..], q) == 0
  {}

  lemma NumberAt(s: string, start: nat, digits: nat, fraction: nat, end: nat)
    requires start < |s| && IsDigit(s[start]) && !(s[start] == '0' && IsRadix(At(s, start + 1)))
    requires digits == start + Run(s[start..], IsNumeral)
    requires fraction == FractionEnd(s, digits) && end == ExponentEnd(s, fraction)
    ensures end <= |s|
    ensures ScanNumber(s[start..])
            == Lexeme(if digits < end then FloatLiteral else IntegerLiteral, end - start + Run(s[end..], IsWord))
  {
    hide Run, FractionEnd, ExponentEnd, IsRadix, IsDigit;
    var t := s[start..];
    assert t[0] == s[start] && At(t, 1) == At(s, start + 1);
    FractionShift(s, start, digits - start);
    ExponentShift(s, start, fraction - start);
    assert t[end - start..] == s[end..];
  }

  lemma FractionShift(s: string, start: nat, i: nat)
    requires start + i <= |s|
    ensures start + FractionEnd(s[start..], i) == FractionEnd(s, start + i)
  {
    if i + 1 <= |s[start..]| { assert s[start..][i + 1..] == s[start + i + 1..]; }
  }

  lemma ExponentShift(s: string, start: nat, i: nat)
    requires start + i <= |s|
    ensures start + ExponentEnd(s[start..], i) == ExponentEnd(s, start + i)
  {
    if i + 1 <= |s[start..]| { assert s[start..][i + 1..] == s[start + i + 1..]; }
    if i + 2 <= |s[start..]| { assert s[start..][i + 2..] == s[start + i + 2..]; }
  }

  /** The slashes of a line comment belong to the run that the loop passes. */
  lemma LineIsRun(s: string, i: nat)
    requires i + 1 < |s| && s[i] == '/' && s[i + 1] == '/'
    ensures Run(s[i..], InLine) == 2 + LineLen(s[i + 2..])
  {
    RunStep(s, i, InLine);
    RunStep(s, i + 1, InLine);
  }

  /** One turn of the skipping loop at position `i`. */
  lemma TriviaAt(s: string, i: nat)
    requires i <= |s|
    ensures var c := At(s, i); var d := At(s, i + 1);
            if IsSpace(c) then i < |s| && TriviaLen(s[i..]) == 1 + TriviaLen(s[i + 1..])
            else if c == '/' && d == '/' then
              var n := Run(s[i..], InLine); n > 0 && TriviaLen(s[i..]) == n + TriviaLen(s[i + n..])
            else if c == '/' && d == '*' then
              i + 2 <= |s| && (var n := 2 + BlockLen(s[i + 2..]); TriviaLen(s[i..]) == n + TriviaLen(s[i + n..]))
            else TriviaLen(s[i..]) == 0
  {
    hide Run, BlockLen;
    LineAt(s, i);
    BlockAt(s, i);
    if i < |s| { assert s[i..][1..] == s[i + 1..]; }
  }

  lemma LineAt(s: string, i: nat)
    requires i <= |s|
    ensures (At(s, i) == '/' && At(s, i + 1) == '/') ==>
              var n := Run(s[i..], InLine); n > 0 && TriviaLen(s[i..]) == n + TriviaLen(s[i + n..])
  {
    hide Run;
    if At(s, i) == '/' && At(s, i + 1) == '/' {
      LineIsRun(s, i);
      var t := s[i..];
      assert t[2..] == s[i + 2..];
      assert t[2 + LineLen(t[2..])..] == s[i + 2 + LineLen(t[2..])..];
    }
  }

  lemma BlockAt(s: string, i: nat)
    requires i <= |s|
    ensures (At(s, i) == '/' && At(s, i + 1) == '*') ==>
              i + 2 <= |s| && (var n := 2 + BlockLen(s[i + 2..]); TriviaLen(s[i..]) == n + TriviaLen(s[i + n..]))
  {
    hide Run, BlockLen;
    if At(s, i) == '/' && At(s, i + 1) == '*' {
      var t := s[i..];
      assert t[2..] == s[i + 2..];
      assert t[2 + BlockLen(t[2..])..] == s[i + 2 + BlockLen(t[2..])..];
    }
  }
}
