/** The lexer: a cursor over the input characters (`CharStream`) that cuts the
    input into tokens.  Each sub-lexer has a specification function over the
    input and a start index (`IdentEnd`, `ScanNumber`, `ScanCharacter`,
    `StringBody`, `OperatorEnd`, and `TokenAt`, `LexFrom` above them); the
    methods of `Lexer` move the cursor exactly as those functions say. */
module Lexing {
  import opened Common
  import opened Syntax

  /** The regular expressions the lexer tests, one character each. */
  datatype Pattern =
    | Whitespace    // [ \b\n\r\t]
    | IdentStart    // @|[A-Za-z]
    | NumberStart   // -|[0-9]
    | IdentPart     // [A-Za-z0-9_-]
    | NonZeroDigit  // [1-9]
    | Digit         // [0-9]
    | AnyChar       // .  (unescaped: any character except a line terminator)
    | CharPlain     // [^'\n\r\t\\]
    | Escape        // [bnrt'"\\]
    | StringPart    // ([^"\n\r\\]|\\)*, which a single character matches unless it is ", \n or \r
    | Exactly(c: char)  // a one-character pattern: ', ", -, 0, \., \\, =, !, &, \|

  predicate IsLetter(c: char) { 'A' <= c <= 'Z' || 'a' <= c <= 'z' }

  predicate Matches(p: Pattern, c: char)
  {
    match p
    case Whitespace => c == ' ' || c == '\U{0008}' || c == '\n' || c == '\r' || c == '\t'
    case IdentStart => c == '@' || IsLetter(c)
    case NumberStart => c == '-' || IsDigit(c)
    case IdentPart => IsLetter(c) || IsDigit(c) || c == '_' || c == '-'
    case NonZeroDigit => '1' <= c <= '9'
    case Digit => IsDigit(c)
    case AnyChar => c != '\n' && c != '\r' && c != '\U{0085}' && c != '\U{2028}' && c != '\U{2029}'
    case CharPlain => c != '\'' && c != '\n' && c != '\r' && c != '\t' && c != '\\'
    case Escape => c == 'b' || c == 'n' || c == 'r' || c == 't' || c == '\'' || c == '"' || c == '\\'
    case StringPart => c != '"' && c != '\n' && c != '\r'
    case Exactly(d) => c == d
  }

  predicate IsWhitespace(c: char) { Matches(Whitespace, c) }

  /** Whether there is a character at `j` and it matches `p`. */
  predicate MatchesAt(s: string, j: nat, p: Pattern)
  {
    j < |s| && Matches(p, s[j])
  }

  /** `peek(patterns)` with the cursor at `i`: every pattern has a character
      at its offset and matches it. */
  predicate PeekAt(s: string, i: nat, ps: seq<Pattern>)
    decreases |ps|
  {
    |ps| == 0 || (MatchesAt(s, i, ps[0]) && PeekAt(s, i + 1, ps[1..]))
  }

  /** `PeekAt` pattern by pattern, in both directions. */
  lemma PeekAtEach(s: string, i: nat, ps: seq<Pattern>)
    ensures PeekAt(s, i, ps) <==> forall k :: 0 <= k < |ps| ==> MatchesAt(s, i + k, ps[k])
  {
    if PeekAt(s, i, ps) {
      PeekAtFirst(s, i, ps);
    } else if forall k :: 0 <= k < |ps| ==> MatchesAt(s, i + k, ps[k]) {
      PeekAtFromEach(s, i, ps);
    }
  }

  lemma {:induction false} PeekAtFirst(s: string, i: nat, ps: seq<Pattern>)
    requires PeekAt(s, i, ps)
    ensures forall k :: 0 <= k < |ps| ==> MatchesAt(s, i + k, ps[k])
    decreases |ps|
  {
    if |ps| > 0 {
      var rest := ps[1..];
      PeekAtFirst(s, i + 1, rest);
      forall k | 0 <= k < |ps|
        ensures MatchesAt(s, i + k, ps[k])
      {
        if k > 0 {
          assert MatchesAt(s, i + 1 + (k - 1), rest[k - 1]);
        }
      }
    }
  }

  lemma {:induction false} PeekAtFromEach(s: string, i: nat, ps: seq<Pattern>)
    requires forall k :: 0 <= k < |ps| ==> MatchesAt(s, i + k, ps[k])
    ensures PeekAt(s, i, ps)
    decreases |ps|
  {
    if |ps| > 0 {
      var rest := ps[1..];
      forall k | 0 <= k < |rest|
        ensures MatchesAt(s, i + 1 + k, rest[k])
      {
        assert MatchesAt(s, i + (k + 1), ps[k + 1]);
      }
      PeekAtFromEach(s, i + 1, rest);
      assert MatchesAt(s, i + 0, ps[0]);
    }
  }

  lemma PeekAtOne(s: string, i: nat, p: Pattern)
    ensures PeekAt(s, i, [p]) <==> MatchesAt(s, i, p)
  {
    assert [p][1..] == [];
  }

  lemma PeekAtTwo(s: string, i: nat, p: Pattern, q: Pattern)
    ensures PeekAt(s, i, [p, q]) <==> MatchesAt(s, i, p) && MatchesAt(s, i + 1, q)
  {
    assert [p, q][1..] == [q];
    PeekAtOne(s, i + 1, q);
  }

  /** The end of the maximal run of identifier characters from `i`. */
  function IdentEnd(s: string, i: nat): (j: nat)
    requires i <= |s|
    ensures i <= j <= |s|
    ensures forall k :: i <= k < j ==> Matches(IdentPart, s[k])
    ensures j == |s| || !Matches(IdentPart, s[j])
    decreases |s| - i
  {
    if i < |s| && Matches(IdentPart, s[i]) then IdentEnd(s, i + 1) else i
  }

  /** The end of the maximal run of digits from `i`. */
  function DigitsEnd(s: string, i: nat): (j: nat)
    requires i <= |s|
    ensures i <= j <= |s|
    ensures forall k :: i <= k < j ==> IsDigit(s[k])
    ensures j == |s| || !IsDigit(s[j])
    decreases |s| - i
  {
    if i < |s| && IsDigit(s[i]) then DigitsEnd(s, i + 1) else i
  }

  /** After a `0` at `j - 1`: two more characters, the first anything but a
      line terminator and the second a digit, make a decimal; otherwise the
      `0` alone is an integer. */
  function ZeroTail(s: string, j: nat): (r: (nat, TokenType))
    requires j <= |s|
    ensures j <= r.0 <= |s|
  {
    if (MatchesAt(s, j, AnyChar) && MatchesAt(s, j + 1, Digit)) then (DigitsEnd(s, j + 2), DECIMAL) else (j, INTEGER)
  }

  /** After a non-zero digit at `j - 1`: the maximal digit run, then a
      decimal part if a point is followed by a digit. */
  function NonZeroTail(s: string, j: nat): (r: (nat, TokenType))
    requires j <= |s|
    ensures j <= r.0 <= |s|
  {
    var k := DigitsEnd(s, j);
    if PointAt(s, k) then (DigitsEnd(s, k + 2), DECIMAL) else (k, INTEGER)
  }

  /** The end and kind of the unsigned number at `j`, or the index of the
      error. */
  function ScanMagnitude(s: string, j: nat): (r: Result<(nat, TokenType), nat>)
    requires j <= |s|
    ensures r.Ok? ==> j < r.value.0 <= |s|
  {
    if MatchesAt(s, j, Exactly('0')) then Ok(ZeroTail(s, j + 1))
    else if MatchesAt(s, j, NonZeroDigit) then Ok(NonZeroTail(s, j + 1))
    else Err(j)
  }

  /** The index after an optional leading minus sign at `i`. */
  function AfterSign(s: string, i: nat): (j: nat)
    requires i <= |s|
    ensures i <= j <= |s|
  {
    if MatchesAt(s, i, Exactly('-')) then i + 1 else i
  }

  /** The end of the character literal whose quote is at `i`, or the index
      of the error. */
  function ScanCharacter(s: string, i: nat): (r: Result<nat, nat>)
    requires i < |s|
    ensures r.Ok? ==> i + 2 <= r.value <= |s| && s[r.value - 1] == '\''
  {
    var j := i + 1;
    if MatchesAt(s, j, Exactly('\\')) then
      if MatchesAt(s, j + 1, Escape) then
        if MatchesAt(s, j + 2, Exactly('\'')) then Ok(j + 3) else Err(j + 2)
      else Err(j + 1)
    else if MatchesAt(s, j, CharPlain) then
      if MatchesAt(s, j + 1, Exactly('\'')) then Ok(j + 2) else Err(j + 1)
    else Err(j)
  }

  /** The end of a string literal whose body continues at `j`, or the index
      of the error. */
  function StringBody(s: string, j: nat): (r: Result<nat, nat>)
    requires j <= |s|
    ensures r.Ok? ==> j < r.value <= |s| && s[r.value - 1] == '"'
    decreases |s| - j
  {
    if MatchesAt(s, j, StringPart) then
      if MatchesAt(s, j, Exactly('\\')) then
        if MatchesAt(s, j + 1, Escape) then StringBody(s, j + 2) else Err(j + 1)
      else StringBody(s, j + 1)
    else if MatchesAt(s, j, Exactly('"')) then Ok(j + 1)
    else Err(j)
  }

  /** A string literal that does not close fails inside the input. */
  lemma {:induction false} StringBodyErrorInside(s: string, j: nat)
    requires j <= |s|
    ensures StringBody(s, j).Err? ==> j <= StringBody(s, j).error <= |s|
    decreases |s| - j
  {
    if MatchesAt(s, j, StringPart) {
      if MatchesAt(s, j, Exactly('\\')) {
        if MatchesAt(s, j + 1, Escape) {
          StringBodyErrorInside(s, j + 2);
        }
      } else {
        StringBodyErrorInside(s, j + 1);
      }
    }
  }

  /** `lexNumber`'s loop after a non-zero digit, as written: a point and a
      digit start the decimal part, another digit continues the loop, and
      anything else ends an integer. */
  function WholeDigits(s: string, i: nat): (r: (nat, TokenType))
    requires i <= |s|
    ensures i <= r.0 <= |s|
    decreases |s| - i
  {
    if PointAt(s, i) then (DigitsEnd(s, i + 2), DECIMAL)
    else if MatchesAt(s, i, Digit) then WholeDigits(s, i + 1)
    else (i, INTEGER)
  }

  /** One turn of the digit loop: a decimal part, another digit, or the
      end of an integer. */
  lemma WholeDigitsNext(s: string, k: nat)
    requires k <= |s|
    ensures PointAt(s, k) ==> WholeDigits(s, k) == (DigitsEnd(s, k + 2), DECIMAL)
    ensures !PointAt(s, k) && MatchesAt(s, k, Digit) ==> k < |s| && WholeDigits(s, k) == WholeDigits(s, k + 1)
    ensures !PointAt(s, k) && !MatchesAt(s, k, Digit) ==> WholeDigits(s, k) == (k, INTEGER)
  {
  }

  /** A decimal point followed by a digit at `i`. */
  predicate PointAt(s: string, i: nat)
  {
    MatchesAt(s, i, Exactly('.')) && MatchesAt(s, i + 1, Digit)
  }

  /** The loop finds the same end and kind as the maximal digit run. */
  lemma {:induction false} WholeDigitsAgree(s: string, i: nat)
    requires i <= |s|
    ensures WholeDigits(s, i) == NonZeroTail(s, i)
    decreases |s| - i
  {
    if PointAt(s, i) {
      assert DigitsEnd(s, i) == i;
    } else if MatchesAt(s, i, Digit) {
      WholeDigitsAgree(s, i + 1);
      assert DigitsEnd(s, i) == DigitsEnd(s, i + 1);
    }
  }

  /** Whether the two characters at `i` form one of the operators `==`,
      `!=`, `&&`, `||`. */
  predicate TwoCharOperatorAt(s: string, i: nat)
  {
    (MatchesAt(s, i, Exactly('=')) && MatchesAt(s, i + 1, Exactly('='))) || (MatchesAt(s, i, Exactly('!')) && MatchesAt(s, i + 1, Exactly('=')))
    || (MatchesAt(s, i, Exactly('&')) && MatchesAt(s, i + 1, Exactly('&'))) || (MatchesAt(s, i, Exactly('|')) && MatchesAt(s, i + 1, Exactly('|')))
  }

  function OperatorEnd(s: string, i: nat): (j: nat)
    requires i < |s|
    ensures i < j <= |s|
  {
    if TwoCharOperatorAt(s, i) then i + 2 else i + 1
  }

  /** The token of kind `kind` that starts at `i` and ends at `j`. */
  function Slice(s: string, kind: TokenType, i: nat, j: nat): (t: Token)
    requires i <= j <= |s|
  {
    Token(kind, s[i..j], i)
  }

  /** The number token that starts at `start`, its digits at `j`. */
  function NumberFrom(s: string, start: nat, j: nat): (r: Result<Token, nat>)
    requires start <= j <= |s|
  {
    match ScanMagnitude(s, j)
    case Ok(p) => Ok(Slice(s, p.1, start, p.0))
    case Err(e) => Err(e)
  }

  function NumberAt(s: string, i: nat): (r: Result<Token, nat>)
    requires i <= |s|
    ensures r.Ok? ==> r.value.offset == i && (r.value.kind == INTEGER || r.value.kind == DECIMAL)
    ensures r.Ok? ==> 0 < |r.value.text| && i + |r.value.text| <= |s| && r.value.text == s[i..i + |r.value.text|]
    ensures r.Err? ==> i <= r.error <= |s|
  {
    NumberFrom(s, i, AfterSign(s, i))
  }

  function CharacterAt(s: string, i: nat): (r: Result<Token, nat>)
    requires i < |s|
    ensures r.Ok? ==> r.value.kind == CHARACTER && r.value.offset == i && 2 <= |r.value.text|
    ensures r.Ok? ==> r.value.text[|r.value.text| - 1] == '\''
    ensures r.Err? ==> i < r.error <= |s|
  {
    match ScanCharacter(s, i)
    case Ok(j) => Ok(Slice(s, CHARACTER, i, j))
    case Err(e) => Err(e)
  }

  function StringAt(s: string, i: nat): (r: Result<Token, nat>)
    requires i < |s|
    ensures r.Ok? ==> r.value.kind == STRING && r.value.offset == i && 2 <= |r.value.text|
    ensures r.Ok? ==> r.value.text[|r.value.text| - 1] == '"'
    ensures r.Err? ==> i < r.error <= |s|
  {
    StringBodyErrorInside(s, i + 1);
    match StringBody(s, i + 1)
    case Ok(j) => Ok(Slice(s, STRING, i, j))
    case Err(e) => Err(e)
  }

  /** The token that starts at `i`, chosen by the fixed dispatch order, or the
      index of the error. */
  function TokenAt(s: string, i: nat): (r: Result<Token, nat>)
    requires i < |s|
    ensures r.Ok? ==> r.value.offset == i && 0 < |r.value.text| && i + |r.value.text| <= |s|
    ensures r.Ok? ==> r.value.text == s[i..i + |r.value.text|]
  {
    if MatchesAt(s, i, IdentStart) then Ok(Slice(s, IDENTIFIER, i, IdentEnd(s, i + 1)))
    else if MatchesAt(s, i, NumberStart) then NumberAt(s, i)
    else if MatchesAt(s, i, Exactly('\'')) then CharacterAt(s, i)
    else if MatchesAt(s, i, Exactly('"')) then StringAt(s, i)
    else Ok(Slice(s, OPERATOR, i, OperatorEnd(s, i)))
  }

  /** The tokens of `s` from index `i` on, or the index of the first error. */
  function LexFrom(s: string, i: nat): (r: Result<seq<Token>, nat>)
    requires i <= |s|
    ensures r.Ok? ==> |r.value| <= |s| - i
    ensures r.Err? ==> i <= r.error <= |s|
    decreases |s| - i
  {
    if i == |s| then Ok([])
    else if IsWhitespace(s[i]) then LexFrom(s, i + 1)
    else
      match TokenAt(s, i)
      case Err(e) => Err(e)
      case Ok(t) => Prepend([t], LexFrom(s, i + |t.text|))
  }

  /** Whitespace at `i` is skipped. */
  lemma LexFromSkip(s: string, i: nat)
    requires i < |s| && IsWhitespace(s[i])
    ensures LexFrom(s, i) == LexFrom(s, i + 1)
  {
  }

  /** A token at `i` goes in front of the tokens after it. */
  lemma LexFromStep(s: string, i: nat, t: Token)
    requires i < |s| && !IsWhitespace(s[i]) && TokenAt(s, i) == Ok(t)
    ensures LexFrom(s, i) == Prepend([t], LexFrom(s, i + |t.text|))
  {
  }

  /** One turn of `lex` that reads a token: the token joins those so far. */
  lemma LexTurn(s: string, i: nat, t: Token, done: seq<Token>)
    requires i < |s| && !IsWhitespace(s[i]) && TokenAt(s, i) == Ok(t)
    ensures Prepend(done, LexFrom(s, i)) == Prepend(done + [t], LexFrom(s, i + |t.text|))
  {
    LexFromStep(s, i, t);
    PrependTwice(done, [t], LexFrom(s, i + |t.text|));
  }

  /** An error at `i` is the error of the whole lexing. */
  lemma LexFromFails(s: string, i: nat)
    requires i < |s| && !IsWhitespace(s[i]) && TokenAt(s, i).Err?
    ensures LexFrom(s, i) == Err(TokenAt(s, i).error)
  {
  }

  function Prepend(ts: seq<Token>, r: Result<seq<Token>, nat>): Result<seq<Token>, nat>
  {
    if r.Ok? then Ok(ts + r.value) else r
  }

  lemma PrependTwice(ts: seq<Token>, us: seq<Token>, r: Result<seq<Token>, nat>)
    ensures Prepend(ts, Prepend(us, r)) == Prepend(ts + us, r)
  {
    if r.Ok? {
      assert ts + (us + r.value) == (ts + us) + r.value;
    }
  }

  /** The state of the lexer: the input, the cursor `index`, and the number of
      characters consumed since the current token began. */
  class CharStream {
    const input: string
    var index: nat
    var length: nat

    ghost predicate Valid()
      reads this
    {
      length <= index <= |input|
    }

    constructor (input: string)
      ensures Valid() && this.input == input && index == 0 && length == 0
    {
      this.input := input;
      index := 0;
      length := 0;
    }

    function Has(offset: nat): bool
      reads this
    {
      index + offset < |input|
    }

    function Get(offset: nat): char
      reads this
      requires Has(offset)
    {
      input[index + offset]
    }

    method Advance()
      requires Valid() && index < |input|
      modifies this
      ensures Valid() && index == old(index) + 1 && length == old(length) + 1
    {
      index := index + 1;
      length := length + 1;
    }

    method Skip()
      requires Valid()
      modifies this
      ensures Valid() && index == old(index) && length == 0
    {
      length := 0;
    }

    /** The token made of the characters consumed since the last reset. */
    method Emit(kind: TokenType) returns (t: Token)
      requires Valid()
      modifies this
      ensures Valid() && index == old(index) && length == 0
      ensures t == Slice(input, kind, old(index) - old(length), index)
    {
      var start := index - length;
      Skip();
      t := Token(kind, input[start..index], start);
    }
  }

  class Lexer {
    const chars: CharStream
    var tokens: seq<Token>

    constructor (input: string)
      ensures fresh(chars) && chars.Valid() && chars.input == input
      ensures chars.index == 0 && chars.length == 0 && tokens == []
    {
      chars := new CharStream(input);
      tokens := [];
    }

    /** Repeatedly skips whitespace and lexes the next token. */
    method Lex() returns (r: Result<seq<Token>, nat>)
      requires chars.Valid() && chars.length == 0
      modifies this, chars
      ensures chars.Valid()
      ensures r == Prepend(old(tokens), LexFrom(chars.input, old(chars.index)))
      ensures r.Ok? ==> tokens == r.value && chars.index == |chars.input|
    {
      ghost var s := chars.input;
      ghost var all := Prepend(tokens, LexFrom(s, chars.index));
      while chars.Has(0)
        invariant chars.Valid() && chars.length == 0
        invariant all == Prepend(tokens, LexFrom(s, chars.index))
        decreases |s| - chars.index
      {
        var failed := LexNext();
        if failed.Some? {
          return Err(failed.value);
        }
      }
      assert tokens + [] == tokens;
      return Ok(tokens);
    }

    /** One turn of the `lex` loop: skip a whitespace character, or lex a
        token and add it to the list. */
    method LexNext() returns (failed: Option<nat>)
      requires chars.Valid() && chars.length == 0 && chars.index < |chars.input|
      modifies this, chars
      ensures chars.Valid()
      ensures failed.Some? ==> LexFrom(chars.input, old(chars.index)) == Err(failed.value)
      ensures failed.None? ==> chars.length == 0 && old(chars.index) < chars.index
      ensures failed.None? ==>
        Prepend(old(tokens), LexFrom(chars.input, old(chars.index))) == Prepend(tokens, LexFrom(chars.input, chars.index))
    {
      var ws := PeekChar(Whitespace);
      if !ws {
        failed := AddToken();
      } else {
        LexFromSkip(chars.input, chars.index);
        chars.Advance();
        chars.Skip();
        failed := None;
      }
    }

    /** Lexes the token at the cursor and adds it to the list. */
    method AddToken() returns (failed: Option<nat>)
      requires chars.Valid() && chars.length == 0 && chars.index < |chars.input|
      requires !IsWhitespace(chars.input[chars.index])
      modifies this, chars
      ensures chars.Valid()
      ensures failed.Some? ==> LexFrom(chars.input, old(chars.index)) == Err(failed.value)
      ensures failed.None? ==> chars.length == 0 && old(chars.index) < chars.index
      ensures failed.None? ==>
        Prepend(old(tokens), LexFrom(chars.input, old(chars.index))) == Prepend(tokens, LexFrom(chars.input, chars.index))
    {
      ghost var s, i := chars.input, chars.index;
      var t := LexToken();
      if t.Err? {
        LexFromFails(s, i);
        return Some(t.error);
      }
      LexTurn(s, i, t.value, tokens);
      tokens := tokens + [t.value];
      return None;
    }

    /** Chooses the sub-lexer by the next character. */
    method LexToken() returns (r: Result<Token, nat>)
      requires chars.Valid() && chars.length == 0 && chars.index < |chars.input|
      modifies chars
      ensures chars.Valid()
      ensures r == TokenAt(chars.input, old(chars.index))
      ensures r.Ok? ==> chars.length == 0 && chars.index == old(chars.index) + |r.value.text|
    {
      var ident := PeekChar(IdentStart);
      if ident {
        var t := LexIdentifier();
        return Ok(t);
      }
      var number := PeekChar(NumberStart);
      if number {
        r := LexNumber();
        return;
      }
      var quote := PeekChar(Exactly('\''));
      if quote {
        r := LexCharacter();
        return;
      }
      var dquote := PeekChar(Exactly('"'));
      if dquote {
        r := LexString();
        return;
      }
      var t := LexOperator();
      return Ok(t);
    }

    method LexIdentifier() returns (t: Token)
      requires chars.Valid() && chars.length == 0 && chars.index < |chars.input|
      modifies chars
      ensures chars.Valid() && chars.length == 0
      ensures chars.index == IdentEnd(chars.input, old(chars.index) + 1)
      ensures t == Slice(chars.input, IDENTIFIER, old(chars.index), chars.index)
    {
      chars.Advance();
      var more := true;
      while more
        invariant chars.Valid() && old(chars.index) < chars.index
        invariant chars.length == chars.index - old(chars.index)
        invariant IdentEnd(chars.input, chars.index) == IdentEnd(chars.input, old(chars.index) + 1)
        invariant !more ==> chars.index == IdentEnd(chars.input, old(chars.index) + 1)
        decreases |chars.input| - chars.index, more
      {
        more := MatchChar(IdentPart);
      }
      t := chars.Emit(IDENTIFIER);
    }

    method LexNumber() returns (r: Result<Token, nat>)
      requires chars.Valid() && chars.length == 0
      modifies chars
      ensures chars.Valid()
      ensures r.Ok? ==> chars.length == 0 && chars.index == old(chars.index) + |r.value.text|
      ensures r == NumberAt(chars.input, old(chars.index))
    {
      var minus := MatchChar(Exactly('-'));
      r := LexMagnitude();
    }

    /** The digits of a number after its optional sign; the two branches of
        `lexNumber` share this code. */
    method LexMagnitude() returns (r: Result<Token, nat>)
      requires chars.Valid() && chars.length <= chars.index
      modifies chars
      ensures chars.Valid()
      ensures r.Ok? ==> chars.length == 0 && chars.index == old(chars.index) - old(chars.length) + |r.value.text|
      ensures r == NumberFrom(chars.input, old(chars.index) - old(chars.length), old(chars.index))
    {
      var zero := MatchChar(Exactly('0'));
      if zero {
        var t := LexZeroTail();
        return Ok(t);
      }
      var nonZero := MatchChar(NonZeroDigit);
      if nonZero {
        var t := LexNonZeroTail();
        return Ok(t);
      }
      return Err(chars.index);
    }

    /** `while (match("[0-9]")) {}` */
    method LexDigits()
      requires chars.Valid()
      modifies chars
      ensures chars.Valid()
      ensures chars.index == DigitsEnd(chars.input, old(chars.index))
      ensures chars.length == old(chars.length) + (chars.index - old(chars.index))
    {
      var more := true;
      while more
        invariant chars.Valid() && old(chars.index) <= chars.index
        invariant chars.length == old(chars.length) + (chars.index - old(chars.index))
        invariant DigitsEnd(chars.input, chars.index) == DigitsEnd(chars.input, old(chars.index))
        invariant !more ==> chars.index == DigitsEnd(chars.input, old(chars.index))
        decreases |chars.input| - chars.index, more
      {
        more := MatchChar(Digit);
      }
    }

    method LexZeroTail() returns (t: Token)
      requires chars.Valid() && chars.length <= chars.index
      modifies chars
      ensures chars.Valid() && chars.length == 0
      ensures chars.index == ZeroTail(chars.input, old(chars.index)).0
      ensures t == Slice(chars.input, ZeroTail(chars.input, old(chars.index)).1,
                         old(chars.index) - old(chars.length), chars.index)
    {
      var point := MatchTwo(AnyChar, Digit);
      if point {
        LexDigits();
        t := chars.Emit(DECIMAL);
      } else {
        t := chars.Emit(INTEGER);
      }
    }

    method LexNonZeroTail() returns (t: Token)
      requires chars.Valid()
      modifies chars
      ensures chars.Valid() && chars.length == 0
      ensures chars.index == NonZeroTail(chars.input, old(chars.index)).0
      ensures t == Slice(chars.input, NonZeroTail(chars.input, old(chars.index)).1,
                         old(chars.index) - old(chars.length), chars.index)
    {
      ghost var s, j := chars.input, chars.index;
      WholeDigitsAgree(s, j);
      var point := MatchTwo(Exactly('.'), Digit);
      if point {
        t := LexFraction();
        return;
      }
      t := LexDigitRun();
    }

    /** `while (match("[0-9]")) { ... }` after a non-zero digit whose point
        check failed, then the integer token. */
    method LexDigitRun() returns (t: Token)
      requires chars.Valid() && !PointAt(chars.input, chars.index)
      modifies chars
      ensures chars.Valid() && chars.length == 0
      ensures chars.index == WholeDigits(chars.input, old(chars.index)).0
      ensures t == Slice(chars.input, WholeDigits(chars.input, old(chars.index)).1,
                         old(chars.index) - old(chars.length), chars.index)
    {
      ghost var s, j := chars.input, chars.index;
      var more, point := DigitTurn();
      while more && !point
        invariant chars.Valid() && j <= chars.index
        invariant chars.length == old(chars.length) + (chars.index - j)
        invariant point ==> more && WholeDigits(s, j) == (DigitsEnd(s, chars.index), DECIMAL)
        invariant !more ==> WholeDigits(s, j) == (chars.index, INTEGER)
        invariant more && !point ==> !PointAt(s, chars.index) && WholeDigits(s, j) == WholeDigits(s, chars.index)
        decreases |s| - chars.index, more
      {
        more, point := DigitTurn();
      }
      if point {
        t := LexFraction();
      } else {
        t := chars.Emit(INTEGER);
      }
    }

    /** One turn of the digit loop: `match("[0-9]")`, and after a digit
        `match("\\.", "[0-9]")`. */
    method DigitTurn() returns (more: bool, point: bool)
      requires chars.Valid() && !PointAt(chars.input, chars.index)
      modifies chars
      ensures chars.Valid() && (point ==> more)
      ensures chars.index == old(chars.index) + (if !more then 0 else if point then 3 else 1)
      ensures chars.length == old(chars.length) + (chars.index - old(chars.index))
      ensures !more ==> WholeDigits(chars.input, old(chars.index)) == (chars.index, INTEGER)
      ensures point ==> WholeDigits(chars.input, old(chars.index)) == (DigitsEnd(chars.input, chars.index), DECIMAL)
      ensures more && !point ==> !PointAt(chars.input, chars.index)
                                 && WholeDigits(chars.input, old(chars.index)) == WholeDigits(chars.input, chars.index)
    {
      ghost var s, k := chars.input, chars.index;
      WholeDigitsNext(s, k);
      more := MatchChar(Digit);
      point := false;
      if more {
        WholeDigitsNext(s, k + 1);
        point := MatchTwo(Exactly('.'), Digit);
      }
    }

    /** The digits after a decimal point and its first digit, then the
        decimal token. */
    method LexFraction() returns (t: Token)
      requires chars.Valid()
      modifies chars
      ensures chars.Valid() && chars.length == 0
      ensures chars.index == DigitsEnd(chars.input, old(chars.index))
      ensures t == Slice(chars.input, DECIMAL, old(chars.index) - old(chars.length), chars.index)
    {
      LexDigits();
      t := chars.Emit(DECIMAL);
    }

    method LexCharacter() returns (r: Result<Token, nat>)
      requires chars.Valid() && chars.length == 0 && chars.index < |chars.input|
      modifies chars
      ensures chars.Valid()
      ensures r.Ok? ==> chars.length == 0 && chars.index == old(chars.index) + |r.value.text|
      ensures r == CharacterAt(chars.input, old(chars.index))
    {
      chars.Advance();
      var esc := PeekChar(Exactly('\\'));
      if esc {
        chars.Advance();
      } else {
        var norm := PeekChar(CharPlain);
        if norm {
          chars.Advance();
        } else {
          return Err(chars.index);
        }
      }
      if esc {
        var e := PeekChar(Escape);
        if e {
          chars.Advance();
        } else {
          return Err(chars.index);
        }
      }
      // here the character was either a plain character or a complete escape
      var close := PeekChar(Exactly('\''));
      if !close {
        return Err(chars.index);
      }
      chars.Advance();
      var t := chars.Emit(CHARACTER);
      return Ok(t);
    }

    method LexString() returns (r: Result<Token, nat>)
      requires chars.Valid() && chars.length == 0 && chars.index < |chars.input|
      modifies chars
      ensures chars.Valid()
      ensures r.Ok? ==> chars.length == 0 && chars.index == old(chars.index) + |r.value.text|
      ensures r == StringAt(chars.input, old(chars.index))
    {
      ghost var s, start := chars.input, chars.index;
      chars.Advance();
      var more := PeekChar(StringPart);
      while more
        invariant chars.Valid() && start < chars.index
        invariant chars.length == chars.index - start
        invariant StringBody(s, chars.index) == StringBody(s, start + 1)
        invariant more == MatchesAt(s, chars.index, StringPart)
        decreases |s| - chars.index
      {
        var ok;
        ok, more := StringTurn();
        if !ok {
          return Err(chars.index);
        }
      }
      var close := PeekChar(Exactly('"'));
      if !close {
        return Err(chars.index);
      }
      chars.Advance();
      var t := chars.Emit(STRING);
      return Ok(t);
    }

    /** One turn of `lexString`'s loop: a plain character, or a backslash
        and the escape it needs; `ok` is false when the escape is missing. */
    method StringTurn() returns (ok: bool, more: bool)
      requires chars.Valid() && MatchesAt(chars.input, chars.index, StringPart)
      modifies chars
      ensures chars.Valid() && old(chars.index) < chars.index
      ensures chars.length == old(chars.length) + (chars.index - old(chars.index))
      ensures ok ==> StringBody(chars.input, old(chars.index)) == StringBody(chars.input, chars.index)
                     && more == MatchesAt(chars.input, chars.index, StringPart)
      ensures !ok ==> StringBody(chars.input, old(chars.index)) == Err(chars.index)
    {
      var bs := PeekChar(Exactly('\\'));
      if bs {
        chars.Advance();
        var e := PeekChar(Escape);
        if !e {
          return false, false;
        }
      }
      chars.Advance();
      more := PeekChar(StringPart);
      ok := true;
    }

    method LexOperator() returns (t: Token)
      requires chars.Valid() && chars.length == 0 && chars.index < |chars.input|
      modifies chars
      ensures chars.Valid() && chars.length == 0
      ensures chars.index == OperatorEnd(chars.input, old(chars.index))
      ensures t == Slice(chars.input, OPERATOR, old(chars.index), chars.index)
    {
      var two := PeekTwo(Exactly('='), Exactly('='));
      if !two {
        two := PeekTwo(Exactly('!'), Exactly('='));
      }
      if !two {
        two := PeekTwo(Exactly('&'), Exactly('&'));
      }
      if !two {
        two := PeekTwo(Exactly('|'), Exactly('|'));
      }
      if two {
        chars.Advance();
        chars.Advance();
      } else {
        chars.Advance();
      }
      t := chars.Emit(OPERATOR);
    }

    /** Whether the next characters match `ps`, without moving the cursor. */
    method Peek(ps: seq<Pattern>) returns (b: bool)
      ensures b == PeekAt(chars.input, chars.index, ps)
    {
      PeekAtEach(chars.input, chars.index, ps);
      for i := 0 to |ps|
        invariant forall k :: 0 <= k < i ==> MatchesAt(chars.input, chars.index + k, ps[k])
      {
        if !chars.Has(i) || !Matches(ps[i], chars.Get(i)) {
          assert !MatchesAt(chars.input, chars.index + i, ps[i]);
          return false;
        }
      }
      return true;
    }

    /** `peek` with a single pattern. */
    method PeekChar(p: Pattern) returns (b: bool)
      ensures b == MatchesAt(chars.input, chars.index, p)
    {
      PeekAtOne(chars.input, chars.index, p);
      b := Peek([p]);
    }

    /** `peek` with two patterns. */
    method PeekTwo(p: Pattern, q: Pattern) returns (b: bool)
      ensures b == (MatchesAt(chars.input, chars.index, p) && MatchesAt(chars.input, chars.index + 1, q))
    {
      PeekAtTwo(chars.input, chars.index, p, q);
      b := Peek([p, q]);
    }

    /** `match` with a single pattern. */
    method MatchChar(p: Pattern) returns (b: bool)
      requires chars.Valid()
      modifies chars
      ensures chars.Valid()
      ensures b == MatchesAt(chars.input, old(chars.index), p)
      ensures chars.index == old(chars.index) + (if b then 1 else 0)
      ensures chars.length == old(chars.length) + (if b then 1 else 0)
    {
      PeekAtOne(chars.input, chars.index, p);
      b := Match([p]);
    }

    /** `match` with two patterns. */
    method MatchTwo(p: Pattern, q: Pattern) returns (b: bool)
      requires chars.Valid()
      modifies chars
      ensures chars.Valid()
      ensures b == (MatchesAt(chars.input, old(chars.index), p) && MatchesAt(chars.input, old(chars.index) + 1, q))
      ensures chars.index == old(chars.index) + (if b then 2 else 0)
      ensures chars.length == old(chars.length) + (if b then 2 else 0)
    {
      PeekAtTwo(chars.input, chars.index, p, q);
      b := Match([p, q]);
    }

    /** `Peek`, and on success moves the cursor past the matched characters. */
    method Match(ps: seq<Pattern>) returns (b: bool)
      requires chars.Valid()
      modifies chars
      ensures chars.Valid()
      ensures b == PeekAt(chars.input, old(chars.index), ps)
      ensures chars.index == old(chars.index) + (if b then |ps| else 0)
      ensures chars.length == old(chars.length) + (if b then |ps| else 0)
    {
      b := Peek(ps);
      PeekAtEach(chars.input, chars.index, ps);
      if b {
        for i := 0 to |ps|
          invariant chars.Valid()
          invariant chars.index == old(chars.index) + i && chars.length == old(chars.length) + i
        {
          assert MatchesAt(chars.input, old(chars.index) + i, ps[i]);
          chars.Advance();
        }
      }
    }
  }
}
