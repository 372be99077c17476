/** What the parser guarantees about the trees it builds. */
module ParsingProperties {
  import opened Common
  import opened Syntax
  import opened Escapes
  import opened Parsing

  // ---------------------------------------------------------------------
  // Peeking

  /** `peek` fails whenever a token it needs lies past the end. */
  lemma PeekPastEnd(ts: seq<Token>, i: nat, ps: seq<TokenPattern>)
    requires 0 < |ps| && |ts| < i + |ps|
    ensures !PeekTokens(ts, i, ps)
  {
    PeekTokensEach(ts, i, ps);
    assert !PatternAt(ts, i + (|ps| - 1), ps[|ps| - 1]);
  }

  // ---------------------------------------------------------------------
  // Precedence and associativity

  /** The precedence level of a binary operator; 0 for any other text. */
  function Prec(op: string): (p: nat)
    ensures p <= 4
    ensures forall level :: 1 <= level <= 4 ==> (op in LevelOperators(level) <==> p == level)
  {
    if op in ["&&", "||"] then 1
    else if op in ["<", ">", "==", "!="] then 2
    else if op in ["+", "-"] then 3
    else if op in ["*", "/", "^"] then 4
    else 0
  }

  /** `e` is a tree of level `level`: a binary node binds no looser than the
      level, its left operand is a tree of the operator's own level and its
      right operand one of the next tighter level.  Anything that is not a
      binary node is a primary, the tightest of all. */
  predicate Shaped(e: Expr, level: nat)
  {
    match e
    case Binary(op, l, r, _) =>
      1 <= level <= Prec(op) && Shaped(l, Prec(op)) && Shaped(r, Prec(op) + 1)
    case _ => true
  }

  /** Every level builds a tree of that level. */
  lemma {:induction false} LevelShaped(ts: seq<Token>, i: nat, level: nat)
    requires i <= |ts| && 1 <= level <= 4
    ensures LevelAt(ts, i, level).Ok? ==> Shaped(LevelAt(ts, i, level).value.0, level)
    decreases |ts| - i, 5 - level, 1
  {
    OperandShaped(ts, i, level);
    var o := OperandAt(ts, i, level);
    if o.Ok? {
      ShapedWeaken(o.value.0, level + 1, level);
      TailShaped(ts, o.value.1, level, o.value.0);
    }
  }

  lemma {:induction false} OperandShaped(ts: seq<Token>, i: nat, level: nat)
    requires i <= |ts| && 1 <= level <= 4
    ensures OperandAt(ts, i, level).Ok? ==> Shaped(OperandAt(ts, i, level).value.0, level + 1)
    decreases |ts| - i, 5 - level, 0
  {
    if level < 4 {
      LevelShaped(ts, i, level + 1);
    }
  }

  lemma {:induction false} TailShaped(ts: seq<Token>, i: nat, level: nat, lhs: Expr)
    requires i <= |ts| && 1 <= level <= 4 && Shaped(lhs, level)
    ensures BinaryTail(ts, i, level, lhs).Ok? ==> Shaped(BinaryTail(ts, i, level, lhs).value.0, level)
    decreases |ts| - i, 0, 0
  {
    if OperatorAt(ts, i, level) {
      OperandShaped(ts, i + 1, level);
      var o := OperandAt(ts, i + 1, level);
      if o.Ok? {
        assert Prec(ts[i].text) == level;
        TailShaped(ts, o.value.1, level, Binary(ts[i].text, lhs, o.value.0, None));
      }
    }
  }

  /** A tree of a tighter level is also a tree of a looser one. */
  lemma ShapedWeaken(e: Expr, tight: nat, loose: nat)
    requires Shaped(e, tight) && 1 <= loose <= tight
    ensures Shaped(e, loose)
  {
  }

  /** Every expression is a tree of the loosest level. */
  lemma ExpressionShaped(ts: seq<Token>, i: nat)
    requires i <= |ts|
    ensures ExpressionAt(ts, i).Ok? ==> Shaped(ExpressionAt(ts, i).value.0, 1)
  {
    LevelShaped(ts, i, 1);
  }

  function Ident(name: string, offset: nat): Token
  {
    Token(IDENTIFIER, name, offset)
  }

  function Op(op: string, offset: nat): Token
  {
    Token(OPERATOR, op, offset)
  }

  function Var(name: string): Expr
  {
    Access(None, name, None)
  }

  /** A bare identifier that is not a keyword is a variable access. */
  lemma BareIdentifier(ts: seq<Token>, i: nat)
    requires KindAt(ts, i, IDENTIFIER) && ts[i].text !in ["NIL", "TRUE", "FALSE", "("]
    requires !TextAt(ts, i + 1, "(") && !TextAt(ts, i + 1, "[")
    ensures PrimaryAt(ts, i) == Ok((Var(ts[i].text), i + 1))
  {
  }

  /** A primary followed by no operator of `level` or tighter is the whole
      tree of `level`. */
  lemma {:induction false} PrimaryAlone(ts: seq<Token>, i: nat, level: nat)
    requires i <= |ts| && 1 <= level <= 4 && PrimaryAt(ts, i).Ok?
    requires forall l :: level <= l <= 4 ==> !OperatorAt(ts, PrimaryAt(ts, i).value.1, l)
    ensures LevelAt(ts, i, level) == PrimaryAt(ts, i)
    decreases 4 - level
  {
    if level < 4 {
      PrimaryAlone(ts, i, level + 1);
    }
  }

  /** `a - b - c` folds to the left. */
  lemma MinusFoldsLeft()
    ensures var ts := [Ident("a", 0), Op("-", 2), Ident("b", 4), Op("-", 6), Ident("c", 8)];
      ExpressionAt(ts, 0) == Ok((Binary("-", Binary("-", Var("a"), Var("b"), None), Var("c"), None), 5))
  {
    var ts := [Ident("a", 0), Op("-", 2), Ident("b", 4), Op("-", 6), Ident("c", 8)];
    var a, b, c := Var("a"), Var("b"), Var("c");
    var ab := Binary("-", a, b, None);
    var abc := Binary("-", ab, c, None);
    BareIdentifier(ts, 0);
    BareIdentifier(ts, 2);
    BareIdentifier(ts, 4);
    PrimaryAlone(ts, 0, 4);
    PrimaryAlone(ts, 2, 4);
    PrimaryAlone(ts, 4, 4);
    assert BinaryTail(ts, 5, 3, abc) == Ok((abc, 5));
    assert BinaryTail(ts, 3, 3, ab) == Ok((abc, 5));
    assert BinaryTail(ts, 1, 3, a) == Ok((abc, 5));
    assert LevelAt(ts, 0, 3) == Ok((abc, 5));
    assert LevelAt(ts, 0, 2) == Ok((abc, 5));
  }

  /** The tokens of `a + b * c`. */
  function SumOfProductTokens(): seq<Token>
  {
    [Ident("a", 0), Op("+", 2), Ident("b", 4), Op("*", 6), Ident("c", 8)]
  }

  lemma ProductOperand()
    ensures OperandAt(SumOfProductTokens(), 2, 3) == Ok((Binary("*", Var("b"), Var("c"), None), 5))
  {
    var ts := SumOfProductTokens();
    var b, c := Var("b"), Var("c");
    var bc := Binary("*", b, c, None);
    BareIdentifier(ts, 2);
    BareIdentifier(ts, 4);
    assert OperandAt(ts, 4, 4) == Ok((c, 5));
    assert BinaryTail(ts, 5, 4, bc) == Ok((bc, 5));
    assert BinaryTail(ts, 3, 4, b) == Ok((bc, 5));
    assert OperandAt(ts, 2, 4) == Ok((b, 3));
  }

  /** `a + b * c`: the tighter operator takes the operands next to it. */
  lemma TimesBindsTighter()
    ensures ExpressionAt(SumOfProductTokens(), 0)
      == Ok((Binary("+", Var("a"), Binary("*", Var("b"), Var("c"), None), None), 5))
  {
    var ts := SumOfProductTokens();
    var a := Var("a");
    var e := Binary("+", a, Binary("*", Var("b"), Var("c"), None), None);
    BareIdentifier(ts, 0);
    PrimaryAlone(ts, 0, 4);
    ProductOperand();
    assert BinaryTail(ts, 5, 3, e) == Ok((e, 5));
    assert BinaryTail(ts, 1, 3, a) == Ok((e, 5));
    assert LevelAt(ts, 0, 3) == Ok((e, 5));
    assert LevelAt(ts, 0, 2) == Ok((e, 5));
  }

  // ---------------------------------------------------------------------
  // Primaries and literal values

  /** The tokens a primary can start with. */
  predicate StartsPrimary(ts: seq<Token>, i: nat)
  {
    TextAt(ts, i, "NIL") || TextAt(ts, i, "TRUE") || TextAt(ts, i, "FALSE") || TextAt(ts, i, "(")
    || KindAt(ts, i, INTEGER) || KindAt(ts, i, DECIMAL) || KindAt(ts, i, CHARACTER)
    || KindAt(ts, i, STRING) || KindAt(ts, i, IDENTIFIER)
  }

  /** Any other token is rejected at the last consumed token. */
  lemma PrimaryRejects(ts: seq<Token>, i: nat)
    requires i <= |ts|
    ensures !StartsPrimary(ts, i) ==> PrimaryAt(ts, i) == Err(Thrown(ts, i))
    ensures PrimaryAt(ts, i).Ok? ==> StartsPrimary(ts, i)
  {
  }

  /** An integer token holds the integer its text spells. */
  lemma IntegerLiteral(ts: seq<Token>, i: nat, n: int)
    requires i < |ts| && ts[i].kind == INTEGER && ts[i].text == IntToString(n)
    ensures PrimaryAt(ts, i) == Ok((Literal(LInt(n), None), i + 1))
  {
    var t := IntToString(n);
    assert t[0] == '-' || IsDigit(t[0]);
    assert t != "NIL" && t != "TRUE" && t != "FALSE" && t != "(";
    IntToStringRoundTrip(n);
  }

  lemma NoExponent(t: string)
    requires forall k :: 0 <= k < |t| ==> t[k] == '.' || IsDigit(t[k])
    ensures ExponentIndex(t) == |t|
  {
  }

  lemma PointAfter(w: string, f: string)
    requires AllDigits(w)
    ensures IndexOf(w + "." + f, '.') == |w|
  {
    var t := w + "." + f;
    assert t[|w|] == '.';
    assert forall k :: 0 <= k < |w| ==> t[k] == w[k];
  }

  /** `w.f` with digits on both sides has no exponent. */
  lemma PointTextNoExponent(w: string, f: string)
    requires AllDigits(w) && AllDigits(f)
    ensures ExponentIndex(w + "." + f) == |w| + 1 + |f|
  {
    var t := w + "." + f;
    forall k | 0 <= k < |t|
      ensures t[k] == '.' || IsDigit(t[k])
    {
      if k < |w| {
        assert t[k] == w[k];
      } else if k > |w| {
        assert t[k] == f[k - |w| - 1];
      }
    }
    NoExponent(t);
  }

  /** A decimal with digits on both sides of the point: the unscaled value
      is all the digits, the scale the number after the point. */
  lemma PlainDecimal(w: string, f: string)
    requires AllDigits(w) && AllDigits(f) && 0 < |w| && 0 < |f|
    ensures ParseDecimalText(w + "." + f) == Some(Dec(DigitsValue(w + f) as int, |f|))
  {
    var t := w + "." + f;
    assert t[0] == w[0] && t[0] != '-' && t[0] != '+';
    PointTextNoExponent(w, f);
    assert t[..|t|] == t;
    PointAfter(w, f);
    assert t[..|w|] == w && t[|w| + 1..] == f;
    AllDigitsConcat(w, f);
  }

  /** A string token holds its text between the quotes, decoded; in
      particular the encoding of any string reads back as that string. */
  lemma StringLiteral(ts: seq<Token>, i: nat, s: string)
    requires i < |ts| && ts[i].kind == STRING && ts[i].text == "\"" + EncodeEscapes(s) + "\""
    ensures PrimaryAt(ts, i) == Ok((Literal(LStr(s), None), i + 1))
  {
    var t := ts[i].text;
    assert t[0] == '"';
    assert t[1..|t| - 1] == EncodeEscapes(s);
    DecodeEncode(s);
  }

  /** A character token with one character between the quotes holds that
      character, whatever it is; one with an escape pair holds the escaped
      character. */
  lemma CharacterLiteral(ts: seq<Token>, i: nat)
    requires i < |ts| && ts[i].kind == CHARACTER && |ts[i].text| >= 2 && ts[i].text[0] == '\''
    ensures |ts[i].text| == 3 ==> PrimaryAt(ts, i) == Ok((Literal(LChar(ts[i].text[1]), None), i + 1))
    ensures |ts[i].text| == 4 && ts[i].text[1] == '\\' && IsEscapeLetter(ts[i].text[2]) ==>
      PrimaryAt(ts, i) == Ok((Literal(LChar(Unescape(ts[i].text[2])), None), i + 1))
  {
    var t := ts[i].text;
    assert t != "NIL" && t != "TRUE" && t != "FALSE" && t != "(";
    if |t| == 4 && t[1] == '\\' && IsEscapeLetter(t[2]) {
      var inner := t[1..3];
      assert inner[2..] == [];
      assert DecodeEscapes(inner) == [Unescape(t[2])];
    }
  }

  // ---------------------------------------------------------------------
  // Statements and blocks

  /** A statement's form follows from its first token, and it ends with
      `END` when it is an if and with `;` otherwise. */
  lemma StatementForms(ts: seq<Token>, i: nat)
    requires i <= |ts|
    ensures var r := StatementAt(ts, i);
      r.Ok? ==>
        (TextAt(ts, i, "LET") ==> r.value.0.Declaration?)
        && (TextAt(ts, i, "IF") ==> r.value.0.If?)
        && (TextAt(ts, i, "RETURN") ==> r.value.0.Return?)
        && (!TextAt(ts, i, "LET") && !TextAt(ts, i, "IF") && !TextAt(ts, i, "RETURN") ==>
              r.value.0.Assignment? || r.value.0.ExprStmt?)
        && (if r.value.0.If? then TextAt(ts, r.value.1 - 1, "END") else TextAt(ts, r.value.1 - 1, ";"))
    ensures TextAt(ts, i, "SWITCH") || TextAt(ts, i, "WHILE") ==> StatementAt(ts, i) == Err(UnsupportedOperation)
  {
  }

  /** A block stops only in front of `END`, `DEFAULT`, `ELSE` or `CASE`,
      which it leaves unconsumed, and keeps the statements read before. */
  lemma {:induction false} BlockStops(ts: seq<Token>, i: nat, acc: seq<Stmt>)
    requires i <= |ts|
    ensures var r := BlockFrom(ts, i, acc);
      r.Ok? ==> BlockEndAt(ts, r.value.1) && |acc| <= |r.value.0| && r.value.0[..|acc|] == acc
    decreases |ts| - i
  {
    if !BlockEndAt(ts, i) {
      var st := StatementAt(ts, i);
      if st.Ok? {
        BlockStops(ts, st.value.1, acc + [st.value.0]);
        var r := BlockFrom(ts, i, acc);
        if r.Ok? {
          assert r.value.0[..|acc| + 1][..|acc|] == r.value.0[..|acc|];
        }
      }
    }
  }

  // ---------------------------------------------------------------------
  // Functions and the source

  /** A function is `FUN name ( ... ) DO ... END`: its name is the
      identifier after `FUN`, its body stops in front of the `END` that
      closes it, and it declares no types and the return type `Any`. */
  lemma FunctionForm(ts: seq<Token>, i: nat)
    requires i <= |ts|
    ensures var r := FunctionAt(ts, i);
      r.Ok? ==>
        KindAt(ts, i, IDENTIFIER) && r.value.0.name == ts[i].text && TextAt(ts, i + 1, "(")
        && TextAt(ts, r.value.1 - 1, "END")
        && r.value.0.paramTypeNames == [] && r.value.0.returnTypeName == Some("Any")
  {
  }

  /** A comma right before `)` in a parameter list is reported at the comma. */
  lemma TrailingComma(ts: seq<Token>, i: nat, params: seq<string>)
    requires i + 1 < |ts| && TextAt(ts, i, ",") && TextAt(ts, i + 1, ")")
    ensures ParametersTail(ts, i, params) == Err(ParseException(ts[i].offset))
  {
  }

  /** Parsed source is a run of functions: at every top-level position the
      next token is `FUN`; a global keyword there fails, and any other token
      stops all progress. */
  lemma {:induction false} SourceOnlyFunctions(ts: seq<Token>, i: nat)
    requires i <= |ts|
    ensures SourceFrom(ts, i).Ok? && i < |ts| ==> TextAt(ts, i, "FUN") && |SourceFrom(ts, i).value| > 0
    ensures TextAt(ts, i, "LIST") || TextAt(ts, i, "VAR") || TextAt(ts, i, "VAL") ==> SourceFrom(ts, i).Err?
    ensures i < |ts| && !TextAt(ts, i, "LIST") && !TextAt(ts, i, "VAR") && !TextAt(ts, i, "VAL") && !TextAt(ts, i, "FUN")
      ==> SourceFrom(ts, i) == Err(NoProgress)
  {
  }

  /** On a stray top-level token the loop as written stays where it is,
      while the model stops with `NoProgress`; on any other token the two
      agree. */
  lemma StrayTokenNotConsumed(ts: seq<Token>, i: nat)
    requires i < |ts|
    ensures !TextAt(ts, i, "LIST") && !TextAt(ts, i, "VAR") && !TextAt(ts, i, "VAL") && !TextAt(ts, i, "FUN")
            ==> TurnAsWritten(ts, i) == Ok(i) && SourceFrom(ts, i) == Err(NoProgress)
    ensures TextAt(ts, i, "LIST") || TextAt(ts, i, "VAR") || TextAt(ts, i, "VAL") || TextAt(ts, i, "FUN")
            ==> TurnAsWritten(ts, i) == (if TopLevelAt(ts, i).Ok? then Ok(TopLevelAt(ts, i).value.1) else Err(TopLevelAt(ts, i).error))
  {
  }

  function Word(text: string, offset: nat): Token
  {
    Token(IDENTIFIER, text, offset)
  }

  /** The tokens of `FUN main() DO RETURN 0; END`. */
  function MainTokens(): seq<Token>
  {
    [Word("FUN", 0), Word("main", 4), Op("(", 8), Op(")", 9), Word("DO", 11),
     Word("RETURN", 14), Token(INTEGER, "0", 21), Op(";", 22), Word("END", 24)]
  }

  lemma MainReturn()
    ensures ReturnAt(MainTokens(), 6) == Ok((Return(Literal(LInt(0), None)), 8))
  {
    var ts := MainTokens();
    IntegerLiteral(ts, 6, 0);
    PrimaryAlone(ts, 6, 1);
  }

  lemma MainBody()
    ensures BlockFrom(MainTokens(), 5, []) == Ok(([Return(Literal(LInt(0), None))], 8))
  {
    var ts := MainTokens();
    var zero := Literal(LInt(0), None);
    MainReturn();
    assert StatementAt(ts, 5) == Ok((Return(zero), 8));
    assert BlockFrom(ts, 8, [Return(zero)]) == Ok(([Return(zero)], 8));
    assert [] + [Return(zero)] == [Return(zero)];
  }

  /** `FUN main() DO RETURN 0; END` parses to one function. */
  lemma MainReturnsZero()
    ensures SourceAt(MainTokens(), 0)
      == Ok(Source([], [Function("main", [], [], Some("Any"), [Return(Literal(LInt(0), None))], None)]))
  {
    var ts := MainTokens();
    var f := Function("main", [], [], Some("Any"), [Return(Literal(LInt(0), None))], None);
    MainFunction();
    assert SourceFrom(ts, 9) == Ok([]);
    assert [f] + [] == [f];
    assert TextAt(ts, 0, "FUN") && !TextAt(ts, 0, "LIST") && !TextAt(ts, 0, "VAR") && !TextAt(ts, 0, "VAL");
    assert !TextAt(ts, 1, "LIST") && !TextAt(ts, 1, "VAR") && !TextAt(ts, 1, "VAL");
  }

  lemma MainFunction()
    ensures FunctionAt(MainTokens(), 1)
      == Ok((Function("main", [], [], Some("Any"), [Return(Literal(LInt(0), None))], None), 9))
  {
    var ts := MainTokens();
    assert KindAt(ts, 1, IDENTIFIER) && TextAt(ts, 2, "(");
    assert ParameterListAt(ts, 3) == Ok(([], 3));
    assert TextAt(ts, 3, ")") && TextAt(ts, 4, "DO");
    MainBody();
    assert TextAt(ts, 8, "END");
  }

  /** `FUN f(a,) DO END` fails at the trailing comma. */
  lemma TrailingCommaInSource()
    ensures var ts := [Word("FUN", 0), Word("f", 4), Op("(", 5), Word("a", 6), Op(",", 7), Op(")", 8),
                       Word("DO", 10), Word("END", 13)];
      SourceAt(ts, 0) == Err(ParseException(7))
  {
    var ts := [Word("FUN", 0), Word("f", 4), Op("(", 5), Word("a", 6), Op(",", 7), Op(")", 8),
               Word("DO", 10), Word("END", 13)];
    assert ParametersTail(ts, 4, ["a"]) == Err(ParseException(7));
    assert FunctionAt(ts, 1) == Err(ParseException(7));
  }

  /** `VAR x = 1;` fails at `VAR`: the global rule wants `VAR ;` and throws
      even when it gets it. */
  lemma GlobalInSource()
    ensures var ts := [Word("VAR", 0), Word("x", 4), Op("=", 6), Token(INTEGER, "1", 8), Op(";", 9)];
      SourceAt(ts, 0) == Err(ParseException(0))
  {
    var ts := [Word("VAR", 0), Word("x", 4), Op("=", 6), Token(INTEGER, "1", 8), Op(";", 9)];
    assert GlobalAt(ts, 1) == Err(ParseException(0));
  }
}
