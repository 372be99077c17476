/** What the lexer guarantees about the tokens it produces. */
module LexingProperties {
  import opened Common
  import opened Syntax
  import opened Lexing

  /** `ts` cuts `s` from `i` on: each token is the slice of the input at its
      offset, starts on a non-whitespace character, and only whitespace lies
      before it, between tokens and after the last one. */
  ghost predicate Tiles(s: string, i: nat, ts: seq<Token>)
    decreases |ts|
  {
    if ts == [] then Blank(s, i, |s|)
    else
      var t := ts[0];
      var end := t.offset + |t.text|;
      i <= t.offset && end <= |s| && 0 < |t.text|
      && t.text == s[t.offset..end]
      && !IsWhitespace(s[t.offset])
      && Blank(s, i, t.offset)
      && Tiles(s, end, ts[1..])
  }

  /** Every character of `s` from `a` up to `b` is whitespace. */
  ghost predicate Blank(s: string, a: nat, b: nat)
    decreases if a < b then b - a else 0
  {
    a >= b || (a < |s| && IsWhitespace(s[a]) && Blank(s, a + 1, b))
  }

  lemma {:induction false} BlankMeans(s: string, a: nat, b: nat)
    requires b <= |s|
    ensures Blank(s, a, b) <==> forall k :: a <= k < b ==> IsWhitespace(s[k])
    decreases if a < b then b - a else 0
  {
    if a < b {
      BlankMeans(s, a + 1, b);
    }
  }

  /** A successful lexing result tiles `s` from `i`. */
  ghost predicate Tiled(s: string, i: nat, r: Result<seq<Token>, nat>)
  {
    r.Ok? ==> Tiles(s, i, r.value)
  }

  /** The successful lexing of `s` from `i` tiles it. */
  lemma {:induction false} LexFromTiles(s: string, i: nat)
    requires i <= |s|
    ensures Tiled(s, i, LexFrom(s, i))
    decreases |s| - i
  {
    if i < |s| {
      if IsWhitespace(s[i]) {
        LexFromTiles(s, i + 1);
        LexFromSkip(s, i);
        TiledWiden(s, i, LexFrom(s, i + 1));
      } else {
        match TokenAt(s, i)
        case Err(_) =>
          LexFromFails(s, i);
        case Ok(t) =>
          LexFromTiles(s, i + |t.text|);
          TiledCons(s, i, t, LexFrom(s, i + |t.text|));
          LexFromStep(s, i, t);
      }
    }
  }

  /** A token at `i` in front of a tiling of what follows it. */
  lemma TiledCons(s: string, i: nat, t: Token, r: Result<seq<Token>, nat>)
    requires i < |s|
    requires TokenAt(s, i) == Ok(t)
    requires i + |t.text| <= |s|
    requires !IsWhitespace(s[i])
    requires Tiled(s, i + |t.text|, r)
    ensures Tiled(s, i, Prepend([t], r))
  {
    assert t.offset == i && 0 < |t.text| && t.text == s[i..i + |t.text|];
    if r.Ok? {
      assert ([t] + r.value)[0] == t && ([t] + r.value)[1..] == r.value;
    }
  }

  lemma TiledWiden(s: string, i: nat, r: Result<seq<Token>, nat>)
    requires i < |s| && IsWhitespace(s[i]) && Tiled(s, i + 1, r)
    ensures Tiled(s, i, r)
  {
    if r.Ok? {
      TilesWiden(s, i, r.value);
    }
  }

  /** One more whitespace character in front keeps a tiling. */
  lemma TilesWiden(s: string, i: nat, ts: seq<Token>)
    requires i < |s| && IsWhitespace(s[i]) && Tiles(s, i + 1, ts)
    ensures Tiles(s, i, ts)
  {
  }

  /** Tokens of a tiling do not overlap and come in increasing order. */
  lemma {:induction false} TilesOrdered(s: string, i: nat, ts: seq<Token>)
    requires Tiles(s, i, ts)
    ensures forall a, b :: 0 <= a < b < |ts| ==> ts[a].offset + |ts[a].text| <= ts[b].offset
    ensures forall a :: 0 <= a < |ts| ==> i <= ts[a].offset
    decreases |ts|
  {
    if ts != [] {
      var end := ts[0].offset + |ts[0].text|;
      TilesOrdered(s, end, ts[1..]);
      forall a, b | 0 <= a < b < |ts|
        ensures ts[a].offset + |ts[a].text| <= ts[b].offset
      {
        assert ts[b] == ts[1..][b - 1];
        if a > 0 {
          assert ts[a] == ts[1..][a - 1];
        }
      }
      forall a | 0 <= a < |ts|
        ensures i <= ts[a].offset
      {
        if a > 0 {
          assert ts[a] == ts[1..][a - 1];
        }
      }
    }
  }

  // ---------------------------------------------------------------------
  // The shape of each kind of token

  predicate IsIdentifierText(t: string)
  {
    |t| >= 1 && Matches(IdentStart, t[0]) && forall k :: 1 <= k < |t| ==> Matches(IdentPart, t[k])
  }

  /** The text of a number with its optional minus sign removed. */
  function Unsigned(t: string): string
  {
    if |t| > 0 && t[0] == '-' then t[1..] else t
  }

  predicate IsUnsignedInteger(d: string)
  {
    d == "0" || (|d| >= 1 && Matches(NonZeroDigit, d[0]) && AllDigits(d))
  }

  /** The digits `d[..p]`, a point at `p`, and digits after it. */
  predicate PointInDigits(d: string, p: nat)
  {
    1 <= p < |d| - 1 && d[p] == '.' && AllDigits(d[..p]) && AllDigits(d[p + 1..])
  }

  /** An unsigned decimal: `0`, any character but a line terminator, then
      one or more digits; or a non-zero digit, digits, a point and one or
      more digits. */
  ghost predicate IsUnsignedDecimal(d: string)
  {
    (|d| >= 3 && d[0] == '0' && Matches(AnyChar, d[1]) && AllDigits(d[2..]))
    || (|d| >= 3 && Matches(NonZeroDigit, d[0]) && exists p :: PointInDigits(d, p))
  }

  predicate IsIntegerText(t: string)
  {
    IsUnsignedInteger(Unsigned(t))
  }

  ghost predicate IsDecimalText(t: string)
  {
    IsUnsignedDecimal(Unsigned(t))
  }

  predicate IsCharacterText(t: string)
  {
    (|t| == 3 && t[0] == '\'' && Matches(CharPlain, t[1]) && t[2] == '\'')
    || (|t| == 4 && t[0] == '\'' && t[1] == '\\' && Matches(Escape, t[2]) && t[3] == '\'')
  }

  /** The inside of a string literal: no quote or line break, and each
      backslash followed by an escape letter. */
  predicate IsStringBody(b: string)
    decreases |b|
  {
    if b == [] then true
    else if b[0] == '\\' then |b| >= 2 && Matches(Escape, b[1]) && IsStringBody(b[2..])
    else Matches(StringPart, b[0]) && IsStringBody(b[1..])
  }

  predicate IsStringText(t: string)
  {
    |t| >= 2 && t[0] == '"' && t[|t| - 1] == '"' && IsStringBody(t[1..|t| - 1])
  }

  /** An operator: one of the four two-character operators, or a single
      character that starts no other kind of token. */
  predicate IsOperatorText(t: string)
  {
    t == "==" || t == "!=" || t == "&&" || t == "||"
    || (|t| == 1 && !Matches(IdentStart, t[0]) && !Matches(NumberStart, t[0])
        && t[0] != '\'' && t[0] != '"')
  }

  ghost predicate WellFormed(t: Token)
  {
    match t.kind
    case IDENTIFIER => IsIdentifierText(t.text)
    case INTEGER => IsIntegerText(t.text)
    case DECIMAL => IsDecimalText(t.text)
    case CHARACTER => IsCharacterText(t.text)
    case STRING => IsStringText(t.text)
    case OPERATOR => IsOperatorText(t.text)
  }

  lemma {:induction false} StringBodyShape(s: string, j: nat)
    requires j <= |s|
    ensures StringBody(s, j).Ok? ==>
      var e := StringBody(s, j).value;
      s[e - 1] == '"' && IsStringBody(s[j..e - 1])
    decreases |s| - j
  {
    if MatchesAt(s, j, StringPart) {
      if MatchesAt(s, j, Exactly('\\')) {
        if MatchesAt(s, j + 1, Escape) {
          StringBodyShape(s, j + 2);
          if StringBody(s, j).Ok? {
            var e := StringBody(s, j).value;
            assert s[j..e - 1][2..] == s[j + 2..e - 1];
          }
        }
      } else {
        StringBodyShape(s, j + 1);
        if StringBody(s, j).Ok? {
          var e := StringBody(s, j).value;
          assert s[j..e - 1][1..] == s[j + 1..e - 1];
        }
      }
    } else if MatchesAt(s, j, Exactly('"')) {
      assert s[j..j] == [];
    }
  }

  lemma MagnitudeShape(s: string, j: nat)
    requires j <= |s|
    ensures ScanMagnitude(s, j).Ok? ==>
      var (e, kind) := ScanMagnitude(s, j).value;
      (kind == INTEGER && IsUnsignedInteger(s[j..e])) || (kind == DECIMAL && IsUnsignedDecimal(s[j..e]))
  {
    PeekAtOne(s, j, Exactly('0'));
    PeekAtOne(s, j, NonZeroDigit);
    if MatchesAt(s, j, Exactly('0')) {
      PeekAtTwo(s, j + 1, AnyChar, Digit);
      if (MatchesAt(s, j + 1, AnyChar) && MatchesAt(s, j + 1 + 1, Digit)) {
        var e := DigitsEnd(s, j + 3);
        assert s[j..e][2..] == s[j + 2..e];
      } else {
        assert s[j..j + 1] == "0";
      }
    } else if MatchesAt(s, j, NonZeroDigit) {
      var k := DigitsEnd(s, j + 1);
      PeekAtTwo(s, k, Exactly('.'), Digit);
      if (MatchesAt(s, k, Exactly('.')) && MatchesAt(s, k + 1, Digit)) {
        var e := DigitsEnd(s, k + 2);
        var d := s[j..e];
        assert d[..k - j] == s[j..k];
        assert d[k - j + 1..] == s[k + 1..e];
        assert PointInDigits(d, k - j);
      }
    }
  }

  lemma NumberShape(s: string, i: nat)
    requires i <= |s|
    ensures NumberAt(s, i).Ok? ==>
      var t := NumberAt(s, i).value;
      (t.kind == INTEGER && IsIntegerText(t.text)) || (t.kind == DECIMAL && IsDecimalText(t.text))
  {
    var j := AfterSign(s, i);
    PeekAtOne(s, i, Exactly('-'));
    MagnitudeShape(s, j);
    if NumberAt(s, i).Ok? {
      var e := ScanMagnitude(s, j).value.0;
      var t := NumberAt(s, i).value;
      assert t.text == s[i..e];
      assert Unsigned(t.text) == s[j..e];
    }
  }

  lemma IdentifierWellFormed(s: string, i: nat)
    requires i < |s| && MatchesAt(s, i, IdentStart)
    ensures WellFormed(Slice(s, IDENTIFIER, i, IdentEnd(s, i + 1)))
  {
    PeekAtOne(s, i, IdentStart);
    var t := s[i..IdentEnd(s, i + 1)];
    assert t[0] == s[i];
    assert forall k :: 1 <= k < |t| ==> t[k] == s[i + k];
  }

  lemma CharacterWellFormed(s: string, i: nat)
    requires i < |s| && s[i] == '\''
    ensures CharacterAt(s, i).Ok? ==> WellFormed(CharacterAt(s, i).value)
  {
    var j := i + 1;
    PeekAtOne(s, j, Exactly('\\'));
    PeekAtOne(s, j + 1, Escape);
    PeekAtOne(s, j + 2, Exactly('\''));
    PeekAtOne(s, j, CharPlain);
    PeekAtOne(s, j + 1, Exactly('\''));
    if CharacterAt(s, i).Ok? {
      var t := CharacterAt(s, i).value.text;
      assert t == s[i..ScanCharacter(s, i).value];
    }
  }

  lemma StringWellFormed(s: string, i: nat)
    requires i < |s| && s[i] == '"'
    ensures StringAt(s, i).Ok? ==> WellFormed(StringAt(s, i).value)
  {
    StringBodyShape(s, i + 1);
    if StringAt(s, i).Ok? {
      var j := StringBody(s, i + 1).value;
      var text := StringAt(s, i).value.text;
      assert text == s[i..j];
      InnerSlice(s, i, j);
      assert IsStringBody(s[i + 1..j - 1]);
    }
  }

  /** The characters of `s[i..j]` between its first and its last. */
  lemma InnerSlice(s: string, i: nat, j: nat)
    requires i + 2 <= j <= |s|
    ensures s[i..j][1..j - i - 1] == s[i + 1..j - 1]
  {
    var u := s[i..j][1..j - i - 1];
    assert forall k :: 0 <= k < |u| ==> u[k] == s[i + 1 + k];
  }

  lemma OperatorWellFormed(s: string, i: nat)
    requires i < |s|
    requires !MatchesAt(s, i, IdentStart) && !MatchesAt(s, i, NumberStart)
    requires !MatchesAt(s, i, Exactly('\'')) && !MatchesAt(s, i, Exactly('"'))
    ensures WellFormed(Slice(s, OPERATOR, i, OperatorEnd(s, i)))
  {
    PeekAtOne(s, i, IdentStart);
    PeekAtOne(s, i, NumberStart);
    PeekAtOne(s, i, Exactly('\''));
    PeekAtOne(s, i, Exactly('"'));
  }

  /** Every token the dispatch produces has the shape of its kind. */
  lemma TokenAtWellFormed(s: string, i: nat)
    requires i < |s|
    ensures TokenAt(s, i).Ok? ==> WellFormed(TokenAt(s, i).value)
  {
    if MatchesAt(s, i, IdentStart) {
      IdentifierWellFormed(s, i);
    } else if MatchesAt(s, i, NumberStart) {
      NumberShape(s, i);
    } else if MatchesAt(s, i, Exactly('\'')) {
      PeekAtOne(s, i, Exactly('\''));
      CharacterWellFormed(s, i);
    } else if MatchesAt(s, i, Exactly('"')) {
      PeekAtOne(s, i, Exactly('"'));
      StringWellFormed(s, i);
    } else {
      OperatorWellFormed(s, i);
    }
  }

  /** Every token of a successful lexing, if there is one, has the shape of
      its kind. */
  ghost predicate AllWellFormed(r: Result<seq<Token>, nat>)
  {
    r.Ok? ==> forall k :: 0 <= k < |r.value| ==> WellFormed(r.value[k])
  }


  /** Every token of a successful lexing has the shape of its kind. */
  lemma {:induction false} LexFromWellFormed(s: string, i: nat)
    requires i <= |s|
    ensures AllWellFormed(LexFrom(s, i))
    decreases |s| - i
  {
    if i < |s| {
      if IsWhitespace(s[i]) {
        LexFromWellFormed(s, i + 1);
        LexFromSkip(s, i);
      } else {
        var r := TokenAt(s, i);
        if r.Err? {
          LexFromFails(s, i);
        } else {
          var t := r.value;
          TokenAtWellFormed(s, i);
          var rest := LexFrom(s, i + |t.text|);
          LexFromWellFormed(s, i + |t.text|);
          PrependWellFormed(t, rest);
          LexFromStep(s, i, t);
        }
      }
    }
  }

  lemma PrependWellFormed(t: Token, r: Result<seq<Token>, nat>)
    requires WellFormed(t) && AllWellFormed(r)
    ensures AllWellFormed(Prepend([t], r))
  {
    if r.Ok? {
      var ts := [t] + r.value;
      forall k | 0 <= k < |ts|
        ensures WellFormed(ts[k])
      {
        if k > 0 {
          assert ts[k] == r.value[k - 1];
        }
      }
    }
  }

  // ---------------------------------------------------------------------
  // Dispatch and particular rules

  /** The kind of a token is decided by its first character. */
  lemma DispatchByFirst(s: string, i: nat)
    requires i < |s| && TokenAt(s, i).Ok?
    ensures var k := TokenAt(s, i).value.kind;
      (k == IDENTIFIER <==> Matches(IdentStart, s[i]))
      && ((k == INTEGER || k == DECIMAL) <==> Matches(NumberStart, s[i]))
      && (k == CHARACTER <==> s[i] == '\'')
      && (k == STRING <==> s[i] == '"')
  {
    if MatchesAt(s, i, NumberStart) {
      NumberShape(s, i);
    }
  }

  /** An identifier is followed by a character that cannot continue it. */
  lemma IdentifierMaximal(s: string, i: nat)
    requires i < |s| && Matches(IdentStart, s[i])
    ensures TokenAt(s, i).Ok? && TokenAt(s, i).value.kind == IDENTIFIER
    ensures var e := i + |TokenAt(s, i).value.text|;
      e == |s| || !Matches(IdentPart, s[e])
  {
  }

  /** A minus sign not followed by a digit is an error just after it. */
  lemma MinusWithoutDigit(s: string, i: nat)
    requires i < |s| && s[i] == '-'
    requires i + 1 == |s| || !IsDigit(s[i + 1])
    ensures TokenAt(s, i) == Err(i + 1)
  {
  }

  /** No `-` is ever an operator token. */
  lemma MinusNeverOperator(s: string, i: nat)
    requires i <= |s|
    ensures LexFrom(s, i).Ok? ==> forall k :: 0 <= k < |LexFrom(s, i).value| ==> LexFrom(s, i).value[k].text != "-"
  {
    LexFromWellFormed(s, i);
  }

  /** The four two-character operators are taken whole. */
  lemma OperatorsGreedy(s: string, i: nat)
    requires i + 1 < |s|
    requires s[i..i + 2] in {"==", "!=", "&&", "||"}
    ensures TokenAt(s, i) == Ok(Token(OPERATOR, s[i..i + 2], i))
  {
    assert s[i..i + 2][0] == s[i] && s[i..i + 2][1] == s[i + 1];
  }

  lemma LexLeadingZero()
    ensures LexFrom("01", 0) == Ok([Token(INTEGER, "0", 0), Token(INTEGER, "1", 1)])
  {
    var s := "01";
    PeekAtTwo(s, 1, AnyChar, Digit);
    PeekAtOne(s, 0, IdentStart);
    PeekAtOne(s, 0, NumberStart);
    PeekAtOne(s, 0, Exactly('-'));
    PeekAtOne(s, 0, Exactly('0'));
    PeekAtOne(s, 1, IdentStart);
    PeekAtOne(s, 1, NumberStart);
    PeekAtOne(s, 1, Exactly('-'));
    PeekAtOne(s, 1, Exactly('0'));
    PeekAtOne(s, 1, NonZeroDigit);
    PeekAtTwo(s, 2, Exactly('.'), Digit);
    assert s[0..1] == "0" && s[1..2] == "1";
    assert TokenAt(s, 0) == Ok(Token(INTEGER, "0", 0));
    assert TokenAt(s, 1) == Ok(Token(INTEGER, "1", 1));
    assert LexFrom(s, 2) == Ok([]);
    assert [Token(INTEGER, "1", 1)] + [] == [Token(INTEGER, "1", 1)];
    assert LexFrom(s, 1) == Ok([Token(INTEGER, "1", 1)]);
    assert [Token(INTEGER, "0", 0)] + [Token(INTEGER, "1", 1)] == [Token(INTEGER, "0", 0), Token(INTEGER, "1", 1)];
  }

  /** After a `0`, any character but a line terminator joins a decimal. */
  lemma LexZeroThenAnything()
    ensures LexFrom("0+5", 0) == Ok([Token(DECIMAL, "0+5", 0)])
    ensures LexFrom("0 5", 0) == Ok([Token(DECIMAL, "0 5", 0)])
  {
    ZeroThenDecimal("0+5");
    ZeroThenDecimal("0 5");
  }

  lemma ZeroThenDecimal(s: string)
    requires |s| == 3 && s[0] == '0' && Matches(AnyChar, s[1]) && IsDigit(s[2])
    ensures LexFrom(s, 0) == Ok([Token(DECIMAL, s, 0)])
  {
    PeekAtOne(s, 0, IdentStart);
    PeekAtOne(s, 0, NumberStart);
    PeekAtOne(s, 0, Exactly('-'));
    PeekAtOne(s, 0, Exactly('0'));
    PeekAtTwo(s, 1, AnyChar, Digit);
    assert s[0..3] == s;
    assert TokenAt(s, 0) == Ok(Token(DECIMAL, s, 0));
    assert LexFrom(s, 3) == Ok([]);
    assert [Token(DECIMAL, s, 0)] + [] == [Token(DECIMAL, s, 0)];
  }
}
