/** The parser's reading of the tokens. */
module TokenReader {
  import opened Wrappers
  import opened Tokens
  import opened LexicalGrammar
  import opened Lexing
  import opened Lexer

  /** The tokens the parser keeps, or those it reports as invalid. */
  function Select(toks: seq<Token>, invalid: bool): seq<Token> {
    if toks == [] then []
    else (if toks[0].kind.Error? == invalid then [toks[0]] else []) + Select(toks[1..], invalid)
  }

  function ReadFrom(s: string, file: nat, offset: nat, i: nat, invalid: bool): seq<Token>
    requires i <= |s|
  {
    Select(TokensFor(Lex(s, i), file, offset), invalid)
  }

  lemma ReadOneMore(s: string, file: nat, offset: nat, i: nat, invalid: bool)
    requires i <= |s|
    ensures var k := i + TriviaLen(s[i..]);
            if k == |s| then ReadFrom(s, file, offset, i, invalid) == []
            else
              var r := Scan(s[k..]);
              ReadFrom(s, file, offset, i, invalid)
              == (if r.kind.Error? == invalid then [TokenFor(r.kind, file, offset, k, k + r.len)] else [])
                 + ReadFrom(s, file, offset, k + r.len, invalid)
  {
    hide TriviaLen, Scan;
  }

  // ----- slices of the source ------------------------------------------------------------

  /** A byte inside a character of more than one byte. */
  predicate IsContinuation(c: char) {
    0x80 <= c as int < 0xC0
  }

  predicate Boundary(s: string, p: nat) {
    p <= |s| && (p == 0 || p == |s| || !IsContinuation(s[p]))
  }

  /** The source may be cut at both ends of the span; otherwise the compiler panics. */
  predicate Sliceable(s: string, t: Token) {
    t.start <= t.end && Boundary(s, t.start) && Boundary(s, t.end)
  }

  predicate AllSliceable(s: string, toks: seq<Token>) {
    forall k :: 0 <= k < |toks| ==> Sliceable(s, toks[k])
  }

  datatype Reading = Reading(tokens: seq<Token>, invalid: seq<Token>)

  /** Reads all tokens, sets invalid ones aside, looks at their text, and closes the rest with an
      end mark.  There is no reading exactly when the text of an invalid token cannot be cut out. */
  method ReadTokens(lexer: Cursor) returns (r: Option<Reading>)
    requires lexer.Valid()
    modifies lexer
    ensures var valid := ReadFrom(lexer.source, lexer.fileId, lexer.offset, old(lexer.pos), false);
            var invalid := ReadFrom(lexer.source, lexer.fileId, lexer.offset, old(lexer.pos), true);
            var at := if valid == [] then 0 else valid[|valid| - 1].end;
            r == if AllSliceable(lexer.source, invalid)
                 then Some(Reading(valid + [Token(Eof, lexer.fileId, at, at)], invalid)) else None
  {
    hide Scan, TriviaLen, ReadFrom, Lex, TokensFor, Select, Sliceable;
    var tokens, invalid := [], [];
    var s, file, offset := lexer.source, lexer.fileId, lexer.offset;
    while true
      invariant lexer.Valid() && AllSliceable(s, invalid)
      invariant tokens + ReadFrom(s, file, offset, lexer.pos, false) == ReadFrom(s, file, offset, old(lexer.pos), false)
      invariant invalid + ReadFrom(s, file, offset, lexer.pos, true) == ReadFrom(s, file, offset, old(lexer.pos), true)
      decreases |lexer.source| - lexer.pos
    {
      ghost var from := lexer.pos;
      var next := lexer.Next();
      ReadOneMore(s, file, offset, from, true);
      ReadOneMore(s, file, offset, from, false);
      if next.None? {
        assert tokens + [] == tokens && invalid + [] == invalid;
        break;
      }
      if next.value.kind.Error? {
        if !Sliceable(s, next.value) {
          ghost var all := ReadFrom(s, file, offset, old(lexer.pos), true);
          assert all[|invalid|] == next.value;
          return None;
        }
        invalid := invalid + [next.value];
      } else {
        tokens := tokens + [next.value];
      }
    }
    var at := if tokens == [] then 0 else tokens[|tokens| - 1].end;
    assert invalid == ReadFrom(s, file, offset, old(lexer.pos), true);
    assert tokens == ReadFrom(s, file, offset, old(lexer.pos), false);
    tokens := tokens + [Token(Eof, file, at, at)];
    return Some(Reading(tokens, invalid));
  }

  // ----- when there is no reading --------------------------------------------------------

  /** What the bytes of a text in UTF-8 have: a byte inside a character follows a byte that is not
      ASCII, and the first byte of a character that is not ASCII is followed by one inside it. */
  ghost predicate WellEncoded(s: string) {
    forall k :: 0 <= k < |s| ==> EncodedAt(s, k)
  }

  predicate EncodedAt(s: string, k: nat)
    requires k < |s|
  {
    && (IsContinuation(s[k]) ==> k > 0 && s[k - 1] as int >= 0x80)
    && (s[k] as int >= 0xC0 ==> k + 1 < |s| && IsContinuation(s[k + 1]))
  }

  predicate AsciiStarts(s: string, toks: seq<Located>) {
    forall k :: 0 <= k < |toks| ==> toks[k].start < |s| && s[toks[k].start] as int < 0x80
  }

  lemma OperatorsAreAscii(text: string)
    ensures text != [] && OperatorKind(text).Some? ==> text[0] as int < 0x80
  {}

  /** A byte that is not ASCII is an invalid token of its own. */
  lemma NotAsciiIsError(t: string)
    requires t != [] && t[0] as int >= 0x80
    ensures Scan(t) == Lexeme(Error, 1)
  {
    hide OperatorKind;
    var n := OperatorLen(t);
    assert n > 0 ==> t[..n][0] == t[0];
    OperatorsAreAscii(t[..n]);
  }

  /** An invalid token is one byte, or all that is left of the text. */
  lemma ErrorIsShortOrAll(t: string)
    requires t != [] && Scan(t).kind.Error?
    ensures Scan(t).len == 1 || Scan(t).len == |t|
  {
    hide WordKind, Run, OperatorKind;
    WordIsNoError(t[..Run(t, IsWord)]);
    if OperatorLen(t) > 0 { KindIsNoError(t[..OperatorLen(t)]); }
  }

  lemma KindIsNoError(text: string)
    ensures OperatorKind(text) != Some(Error)
  {}

  lemma OneSliceable(s: string, file: nat, k: nat)
    requires k < |s| < TWO_TO_THE_32 && WellEncoded(s)
    ensures var r := Scan(s[k..]);
            (r.kind.Error? ==> Sliceable(s, TokenFor(r.kind, file, 0, k, k + r.len))) <==> s[k] as int < 0x80
  {
    hide Scan;
    var r := Scan(s[k..]);
    assert EncodedAt(s, k) && (k + 1 < |s| ==> EncodedAt(s, k + 1));
    if s[k] as int >= 0x80 {
      NotAsciiIsError(s[k..]);
      assert !Boundary(s, k) || !Boundary(s, k + 1);
    } else if r.kind.Error? {
      ErrorIsShortOrAll(s[k..]);
      assert k + r.len < |s| ==> !IsContinuation(s[k + 1]);
    }
  }

  /** A file in UTF-8, of less than four gigabytes and the first of its compilation, is read if and
      only if every token begins with an ASCII byte. */
  lemma {:induction false} ReadIffAscii(s: string, file: nat, i: nat)
    requires i <= |s| < TWO_TO_THE_32 && WellEncoded(s)
    ensures AllSliceable(s, ReadFrom(s, file, 0, i, true)) <==> AsciiStarts(s, Lex(s, i))
    decreases |s| - i
  {
    hide Scan, TriviaLen, ReadFrom, WellEncoded, Sliceable, Lex, AllSliceable, AsciiStarts;
    ReadOneMore(s, file, 0, i, true);
    LexOneMore(s, i);
    var k := i + TriviaLen(s[i..]);
    if k < |s| {
      var r := Scan(s[k..]);
      var t := TokenFor(r.kind, file, 0, k, k + r.len);
      OneSliceable(s, file, k);
      ReadIffAscii(s, file, k + r.len);
      var rest, toks := ReadFrom(s, file, 0, k + r.len, true), Lex(s, k + r.len);
      ConsSliceable(s, if r.kind.Error? then [t] else [], rest);
      ConsAscii(s, Located(r.kind, k, k + r.len), toks);
      OneOrNone(s, r.kind.Error?, t);
    }
    NoTokens(s);
  }

  lemma NoTokens(s: string)
    ensures AllSliceable(s, []) && AsciiStarts(s, [])
  {}

  lemma OneOrNone(s: string, error: bool, t: Token)
    ensures AllSliceable(s, if error then [t] else []) <==> (error ==> Sliceable(s, t))
  {
    assert [t][0] == t;
  }

  lemma LexOneMore(s: string, i: nat)
    requires i <= |s|
    ensures var k := i + TriviaLen(s[i..]);
            if k == |s| then Lex(s, i) == []
            else
              var r := Scan(s[k..]);
              Lex(s, i) == [Located(r.kind, k, k + r.len)] + Lex(s, k + r.len)
  {
    hide TriviaLen, Scan;
  }

  lemma ConsSliceable(s: string, a: seq<Token>, b: seq<Token>)
    ensures AllSliceable(s, a + b) <==> AllSliceable(s, a) && AllSliceable(s, b)
  {
    hide Sliceable;
    if AllSliceable(s, a + b) {
      assert forall k :: 0 <= k < |a| ==> a[k] == (a + b)[k];
      assert forall k :: 0 <= k < |b| ==> b[k] == (a + b)[|a| + k];
    }
  }

  lemma ConsAscii(s: string, t: Located, toks: seq<Located>)
    ensures AsciiStarts(s, [t] + toks) <==> t.start < |s| && s[t.start] as int < 0x80 && AsciiStarts(s, toks)
  {
    if AsciiStarts(s, [t] + toks) {
      assert ([t] + toks)[0] == t;
      assert forall k :: 0 <= k < |toks| ==> toks[k] == ([t] + toks)[k + 1];
    }
  }
}
