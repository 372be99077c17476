/** The parser: recursive descent over a token cursor.  Each rule has a
    specification function from the tokens and a start index to the node it
    builds and the index after it, or the failure that stops parsing; the
    methods of `Parser` move the cursor exactly as those functions say. */
module Parsing {
  import opened Common
  import opened Syntax
  import opened Escapes

  /** Why parsing stops. */
  datatype Failure =
    | ParseException(offset: nat)  // carries the offset of the last consumed token
    | IndexOutOfBounds             // the last consumed token was asked for before any was consumed
    | UnsupportedOperation         // switch and while statements
    | NumberFormat                 // a number literal the big-number libraries refuse
    | StringIndexOutOfBounds       // a character or string literal too short for its quotes
    | NoProgress                   // the top-level loop meets a token it never moves past

  /** What a rule throws with the cursor at `i`: the position of the last
      consumed token, read as `tokens.get(-1)`. */
  function Thrown(ts: seq<Token>, i: nat): (f: Failure)
    requires i <= |ts|
    ensures i > 0 ==> f == ParseException(ts[i - 1].offset)
  {
    if i == 0 then IndexOutOfBounds else ParseException(ts[i - 1].offset)
  }

  /** A node and the index after it, or a failure. */
  type Parsed<T> = Result<(T, nat), Failure>

  /** A pattern of `peek`: a token type, or the literal text of a token. */
  datatype TokenPattern = Kind(kind: TokenType) | Text(text: string)

  predicate TokenMatches(p: TokenPattern, t: Token)
  {
    match p
    case Kind(k) => t.kind == k
    case Text(x) => t.text == x
  }

  predicate PatternAt(ts: seq<Token>, i: nat, p: TokenPattern)
  {
    i < |ts| && TokenMatches(p, ts[i])
  }

  /** `peek(patterns)` with the cursor at `i`. */
  predicate PeekTokens(ts: seq<Token>, i: nat, ps: seq<TokenPattern>)
    decreases |ps|
  {
    |ps| == 0 || (PatternAt(ts, i, ps[0]) && PeekTokens(ts, i + 1, ps[1..]))
  }

  predicate TextAt(ts: seq<Token>, i: nat, x: string)
  {
    PatternAt(ts, i, Text(x))
  }

  predicate KindAt(ts: seq<Token>, i: nat, k: TokenType)
  {
    PatternAt(ts, i, Kind(k))
  }

  // ---------------------------------------------------------------------
  // Literal values

  /** The index of the first `c` in `s`, or `|s|`. */
  function IndexOf(s: string, c: char): (k: nat)
    ensures k <= |s| && (k < |s| ==> s[k] == c)
    ensures forall j :: 0 <= j < k ==> s[j] != c
  {
    if s == [] then 0 else if s[0] == c then 0 else 1 + IndexOf(s[1..], c)
  }

  /** The index of the first `e` or `E` in `s`, or `|s|`. */
  function ExponentIndex(s: string): (k: nat)
    ensures k <= |s| && (k < |s| ==> s[k] == 'e' || s[k] == 'E')
    ensures forall j :: 0 <= j < k ==> s[j] != 'e' && s[j] != 'E'
  {
    if s == [] then 0 else if s[0] == 'e' || s[0] == 'E' then 0 else 1 + ExponentIndex(s[1..])
  }

  lemma AllDigitsConcat(a: string, b: string)
    requires AllDigits(a) && AllDigits(b)
    ensures AllDigits(a + b)
  {
    assert forall k :: 0 <= k < |a + b| ==> (a + b)[k] == (if k < |a| then a[k] else b[k - |a|]);
  }

  /** `new BigDecimal(text)`: an optional sign, digits with at most one
      point and at least one digit, and an optional exponent `e`/`E` with an
      optional sign and digits.  The digits without the point are the
      unscaled value; the scale is the number of digits after the point
      minus the exponent. */
  function ParseDecimalText(t: string): (r: Option<Dec>)
    ensures r.Some? && r.value.unscaled < 0 ==> |t| > 0 && t[0] == '-'
    ensures (forall k :: 0 <= k < |t| ==> !IsDigit(t[k])) ==> r.None?
  {
    var neg := |t| > 0 && t[0] == '-';
    var body := if |t| > 0 && (t[0] == '-' || t[0] == '+') then t[1..] else t;
    var e := ExponentIndex(body);
    var mant := body[..e];
    var exp := if e == |body| then Some(0) else ParseIntText(body[e + 1..]);
    var p := IndexOf(mant, '.');
    var whole := mant[..p];
    var frac := if p < |mant| then mant[p + 1..] else [];
    if exp.None? || !AllDigits(whole) || !AllDigits(frac) || |whole| + |frac| == 0 then None
    else
      AllDigitsConcat(whole, frac);
      var u := DigitsValue(whole + frac) as int;
      Some(Dec(if neg then -u else u, |frac| - exp.value))
  }

  /** The value of a character literal: the text between the quotes, decoded
      unless it is a single character, and its first character. */
  function CharacterValue(text: string): (r: Result<char, Failure>)
    ensures |text| == 3 ==> r == Ok(text[1])
  {
    if |text| < 2 then Err(StringIndexOutOfBounds)
    else
      var inner := text[1..|text| - 1];
      var c := if |inner| != 1 then DecodeEscapes(inner) else inner;
      if |c| == 0 then Err(StringIndexOutOfBounds) else Ok(c[0])
  }

  /** The value of a string literal: the text between the quotes, decoded. */
  function StringValue(text: string): (r: Result<string, Failure>)
    ensures |text| >= 2 ==> r == Ok(DecodeEscapes(text[1..|text| - 1]))
  {
    if |text| < 2 then Err(StringIndexOutOfBounds) else Ok(DecodeEscapes(text[1..|text| - 1]))
  }

  // ---------------------------------------------------------------------
  // Expressions

  /** The operators of each precedence level, from the loosest (1) to the
      tightest (4). */
  function LevelOperators(level: nat): seq<string>
  {
    if level == 1 then ["&&", "||"]
    else if level == 2 then ["<", ">", "==", "!="]
    else if level == 3 then ["+", "-"]
    else ["*", "/", "^"]
  }

  predicate OperatorAt(ts: seq<Token>, i: nat, level: nat)
  {
    i < |ts| && ts[i].text in LevelOperators(level)
  }

  /** The expression of precedence level `level` at `i`: an operand, then
      any number of operator-operand pairs folded to the left. */
  function LevelAt(ts: seq<Token>, i: nat, level: nat): (r: Parsed<Expr>)
    requires i <= |ts| && 1 <= level <= 4
    ensures r.Ok? ==> i < r.value.1 <= |ts|
    decreases |ts| - i, 5 - level, 1
  {
    match OperandAt(ts, i, level)
    case Err(f) => Err(f)
    case Ok(p) => BinaryTail(ts, p.1, level, p.0)
  }

  /** The operand of level `level`: the next tighter level, or a primary. */
  function OperandAt(ts: seq<Token>, i: nat, level: nat): (r: Parsed<Expr>)
    requires i <= |ts| && 1 <= level <= 4
    ensures r.Ok? ==> i < r.value.1 <= |ts|
    decreases |ts| - i, 5 - level, 0
  {
    if level == 4 then PrimaryAt(ts, i) else LevelAt(ts, i, level + 1)
  }

  /** The loop of a level: while an operator of the level follows, read
      another operand and make `lhs` the left operand of the new node. */
  function BinaryTail(ts: seq<Token>, i: nat, level: nat, lhs: Expr): (r: Parsed<Expr>)
    requires i <= |ts| && 1 <= level <= 4
    ensures r.Ok? ==> i <= r.value.1 <= |ts|
    decreases |ts| - i, 0, 0
  {
    if OperatorAt(ts, i, level) then
      match OperandAt(ts, i + 1, level)
      case Err(f) => Err(f)
      case Ok(p) => BinaryTail(ts, p.1, level, Binary(ts[i].text, lhs, p.0, None))
    else Ok((lhs, i))
  }

  /** A whole expression. */
  function ExpressionAt(ts: seq<Token>, i: nat): (r: Parsed<Expr>)
    requires i <= |ts|
    ensures r.Ok? ==> i < r.value.1 <= |ts|
  {
    LevelAt(ts, i, 1)
  }

  function PrimaryAt(ts: seq<Token>, i: nat): (r: Parsed<Expr>)
    requires i <= |ts|
    ensures r.Ok? ==> i < r.value.1 <= |ts|
    ensures r.Ok? ==> !r.value.0.Binary?
    decreases |ts| - i, 0, 1
  {
    if LiteralStart(ts, i) then LiteralTokenAt(ts, i)
    else if TextAt(ts, i, "(") then
      match LevelAt(ts, i + 1, 1)
      case Err(f) => Err(f)
      case Ok(p) =>
        if TextAt(ts, p.1, ")") then Ok((Group(p.0, None), p.1 + 1)) else Err(Thrown(ts, p.1))
    else if KindAt(ts, i, IDENTIFIER) then IdentifierAt(ts, i)
    else Err(Thrown(ts, i))
  }

  /** Whether the token at `i` is read as a literal: `NIL`, `TRUE`,
      `FALSE`, or a number, character or string token. */
  predicate LiteralStart(ts: seq<Token>, i: nat)
  {
    TextAt(ts, i, "NIL") || TextAt(ts, i, "TRUE") || TextAt(ts, i, "FALSE")
    || KindAt(ts, i, INTEGER) || KindAt(ts, i, DECIMAL) || KindAt(ts, i, CHARACTER) || KindAt(ts, i, STRING)
  }

  /** The literal the token at `i` stands for, checked in the order of the
      primary rule. */
  function LiteralTokenAt(ts: seq<Token>, i: nat): (r: Parsed<Expr>)
    requires i <= |ts| && LiteralStart(ts, i)
    ensures r.Ok? ==> r.value.1 == i + 1 <= |ts| && r.value.0.Literal?
  {
    if TextAt(ts, i, "NIL") then Ok((Literal(LNil, None), i + 1))
    else if TextAt(ts, i, "TRUE") then Ok((Literal(LBool(true), None), i + 1))
    else if TextAt(ts, i, "FALSE") then Ok((Literal(LBool(false), None), i + 1))
    else if KindAt(ts, i, INTEGER) then
      match ParseIntText(ts[i].text)
      case None => Err(NumberFormat)
      case Some(n) => Ok((Literal(LInt(n), None), i + 1))
    else if KindAt(ts, i, DECIMAL) then
      match ParseDecimalText(ts[i].text)
      case None => Err(NumberFormat)
      case Some(d) => Ok((Literal(LDec(d), None), i + 1))
    else if KindAt(ts, i, CHARACTER) then
      match CharacterValue(ts[i].text)
      case Err(f) => Err(f)
      case Ok(c) => Ok((Literal(LChar(c), None), i + 1))
    else
      match StringValue(ts[i].text)
      case Err(f) => Err(f)
      case Ok(s) => Ok((Literal(LStr(s), None), i + 1))
  }

  /** A primary that starts with the identifier at `i`: a call, an indexed
      access or a plain variable. */
  function IdentifierAt(ts: seq<Token>, i: nat): (r: Parsed<Expr>)
    requires i < |ts|
    ensures r.Ok? ==> i < r.value.1 <= |ts|
    ensures r.Ok? ==> r.value.0.Call? || r.value.0.Access?
    decreases |ts| - i, 0, 0
  {
    var name := ts[i].text;
    if TextAt(ts, i + 1, "(") then
      if TextAt(ts, i + 2, ")") then Ok((Call(name, [], None), i + 3))
      else ArgumentsAt(ts, i + 2, name)
    else if TextAt(ts, i + 1, "[") then
      match LevelAt(ts, i + 2, 1)
      case Err(f) => Err(f)
      case Ok(p) =>
        if TextAt(ts, p.1, "]") then Ok((Access(Some(p.0), name, None), p.1 + 1)) else Err(Thrown(ts, p.1))
    else Ok((Access(None, name, None), i + 1))
  }

  /** The arguments of a call with at least one: the first, then the loop
      over the rest. */
  function ArgumentsAt(ts: seq<Token>, i: nat, name: string): (r: Parsed<Expr>)
    requires i <= |ts|
    ensures r.Ok? ==> i < r.value.1 <= |ts|
    ensures r.Ok? ==> r.value.0.Call? && r.value.0.name == name && |r.value.0.args| > 0
    decreases |ts| - i + 1, 0, 0
  {
    match LevelAt(ts, i, 1)
    case Err(f) => Err(f)
    case Ok(p) =>
      if TextAt(ts, p.1, ")") then Ok((Call(name, [p.0], None), p.1 + 1))
      else ArgumentsTail(ts, p.1, name, [p.0])
  }

  /** The argument loop of a call with at least one argument: a comma and
      an argument, until a closing parenthesis follows an argument. */
  function ArgumentsTail(ts: seq<Token>, i: nat, name: string, args: seq<Expr>): (r: Parsed<Expr>)
    requires i <= |ts|
    ensures r.Ok? ==> i < r.value.1 <= |ts|
    ensures r.Ok? ==> r.value.0.Call? && r.value.0.name == name && |r.value.0.args| > |args|
    decreases |ts| - i, 0, 0
  {
    if TextAt(ts, i, ",") then
      match LevelAt(ts, i + 1, 1)
      case Err(f) => Err(f)
      case Ok(p) =>
        if TextAt(ts, p.1, ")") then Ok((Call(name, args + [p.0], None), p.1 + 1))
        else ArgumentsTail(ts, p.1, name, args + [p.0])
    else Err(Thrown(ts, i))
  }

  // ---------------------------------------------------------------------
  // Statements

  /** The words that end a block; they are left for the enclosing rule. */
  predicate BlockEndAt(ts: seq<Token>, i: nat)
  {
    TextAt(ts, i, "END") || TextAt(ts, i, "DEFAULT") || TextAt(ts, i, "ELSE") || TextAt(ts, i, "CASE")
  }

  /** The statements of a block from `i`, appended to `acc`. */
  function BlockFrom(ts: seq<Token>, i: nat, acc: seq<Stmt>): (r: Parsed<seq<Stmt>>)
    requires i <= |ts|
    ensures r.Ok? ==> i <= r.value.1 <= |ts|
    decreases |ts| - i, 7, 0
  {
    if BlockEndAt(ts, i) then Ok((acc, i))
    else
      match StatementAt(ts, i)
      case Err(f) => Err(f)
      case Ok(p) => BlockFrom(ts, p.1, acc + [p.0])
  }

  function StatementAt(ts: seq<Token>, i: nat): (r: Parsed<Stmt>)
    requires i <= |ts|
    ensures r.Ok? ==> i < r.value.1 <= |ts|
    decreases |ts| - i, 6, 0
  {
    if TextAt(ts, i, "LET") then DeclarationAt(ts, i + 1)
    else if TextAt(ts, i, "SWITCH") then Err(UnsupportedOperation)
    else if TextAt(ts, i, "IF") then IfAt(ts, i + 1)
    else if TextAt(ts, i, "WHILE") then Err(UnsupportedOperation)
    else if TextAt(ts, i, "RETURN") then ReturnAt(ts, i + 1)
    else
      match LevelAt(ts, i, 1)
      case Err(f) => Err(f)
      case Ok(p) =>
        var j := p.1;
        if TextAt(ts, j, "=") then
          match LevelAt(ts, j + 1, 1)
          case Err(f) => Err(f)
          case Ok(q) =>
            if TextAt(ts, q.1, ";") then Ok((Assignment(p.0, q.0), q.1 + 1)) else Err(Thrown(ts, q.1))
        else if TextAt(ts, j, ";") then Ok((ExprStmt(p.0), j + 1))
        else Err(Thrown(ts, j))
  }

  /** `LET` has been consumed. */
  function DeclarationAt(ts: seq<Token>, i: nat): (r: Parsed<Stmt>)
    requires i <= |ts|
    ensures r.Ok? ==> i < r.value.1 <= |ts|
    decreases |ts| - i, 6, 0
  {
    if !KindAt(ts, i, IDENTIFIER) then Err(Thrown(ts, i))
    else
      var name := ts[i].text;
      var value: Parsed<Option<Expr>> :=
        if TextAt(ts, i + 1, "=") then
          match LevelAt(ts, i + 2, 1)
          case Err(f) => Err(f)
          case Ok(p) => Ok((Some(p.0), p.1))
        else Ok((None, i + 1));
      match value
      case Err(f) => Err(f)
      case Ok(v) =>
        if TextAt(ts, v.1, ";") then Ok((Declaration(name, None, v.0, None), v.1 + 1)) else Err(Thrown(ts, v.1))
  }

  /** `IF` has been consumed: a condition, an optional `DO` block, an
      optional `ELSE` block, and a mandatory `END`. */
  function IfAt(ts: seq<Token>, i: nat): (r: Parsed<Stmt>)
    requires i <= |ts|
    ensures r.Ok? ==> i < r.value.1 <= |ts|
    decreases |ts| - i, 6, 0
  {
    match LevelAt(ts, i, 1)
    case Err(f) => Err(f)
    case Ok(c) =>
      var thenPart: Parsed<seq<Stmt>> := if TextAt(ts, c.1, "DO") then BlockFrom(ts, c.1 + 1, []) else Ok(([], c.1));
      match thenPart
      case Err(f) => Err(f)
      case Ok(t) =>
        var elsePart: Parsed<seq<Stmt>> := if TextAt(ts, t.1, "ELSE") then BlockFrom(ts, t.1 + 1, []) else Ok(([], t.1));
        match elsePart
        case Err(f) => Err(f)
        case Ok(e) =>
          if TextAt(ts, e.1, "END") then Ok((If(c.0, t.0, e.0), e.1 + 1)) else Err(Thrown(ts, e.1))
  }

  /** `RETURN` has been consumed. */
  function ReturnAt(ts: seq<Token>, i: nat): (r: Parsed<Stmt>)
    requires i <= |ts|
    ensures r.Ok? ==> i < r.value.1 <= |ts|
    decreases |ts| - i, 6, 0
  {
    match LevelAt(ts, i, 1)
    case Err(f) => Err(f)
    case Ok(p) => if TextAt(ts, p.1, ";") then Ok((Return(p.0), p.1 + 1)) else Err(Thrown(ts, p.1))
  }

  // ---------------------------------------------------------------------
  // Functions, globals and the source

  /** The parameter loop after the first parameter: each comma may be
      followed by a name; a comma right before `)` is a trailing comma. */
  function ParametersTail(ts: seq<Token>, i: nat, params: seq<string>): (r: Parsed<seq<string>>)
    requires i <= |ts|
    ensures r.Ok? ==> i <= r.value.1 <= |ts|
    decreases |ts| - i
  {
    if TextAt(ts, i, ",") then
      if TextAt(ts, i + 1, ")") then Err(Thrown(ts, i + 1))
      else if KindAt(ts, i + 1, IDENTIFIER) then ParametersTail(ts, i + 2, params + [ts[i + 1].text])
      else ParametersTail(ts, i + 1, params)
    else Ok((params, i))
  }

  /** The parameter names after `(`: none, or a first name and the loop
      over the rest. */
  function ParameterListAt(ts: seq<Token>, i: nat): (r: Parsed<seq<string>>)
    requires i <= |ts|
    ensures r.Ok? ==> i <= r.value.1 <= |ts|
  {
    if KindAt(ts, i, IDENTIFIER) then ParametersTail(ts, i + 1, [ts[i].text]) else Ok(([], i))
  }

  /** `FUN` has been consumed. */
  function FunctionAt(ts: seq<Token>, i: nat): (r: Parsed<Function>)
    requires i <= |ts|
    ensures r.Ok? ==> i < r.value.1 <= |ts|
  {
    if !KindAt(ts, i, IDENTIFIER) then Err(Thrown(ts, i))
    else if !TextAt(ts, i + 1, "(") then Err(Thrown(ts, i + 1))
    else
      match ParameterListAt(ts, i + 2)
      case Err(f) => Err(f)
      case Ok(ps) =>
        var j := ps.1;
        if !TextAt(ts, j, ")") then Err(Thrown(ts, j))
        else if !TextAt(ts, j + 1, "DO") then Err(Thrown(ts, j + 1))
        else
          match BlockFrom(ts, j + 2, [])
          case Err(f) => Err(f)
          case Ok(b) =>
            if TextAt(ts, b.1, "END") then Ok((Function(ts[i].text, ps.0, [], Some("Any"), b.0, None), b.1 + 1))
            else Err(Thrown(ts, b.1))
  }

  /** The element loop of a list global after the first element; it
      returns only after a second element is followed by `]`. */
  function ListTail(ts: seq<Token>, i: nat, name: string, values: seq<Expr>): (r: Parsed<Global>)
    requires i <= |ts|
    ensures r.Ok? ==> i < r.value.1 <= |ts|
    decreases |ts| - i
  {
    if TextAt(ts, i, ",") then
      if TextAt(ts, i + 1, "]") then Err(Thrown(ts, i + 1))
      else
        match LevelAt(ts, i + 1, 1)
        case Err(f) => Err(f)
        case Ok(p) =>
          if TextAt(ts, p.1, "]") then Ok((Global(name, "Any", true, Some(PlcList(values + [p.0], None)), None), p.1 + 1))
          else ListTail(ts, p.1, name, values + [p.0])
    else Err(Thrown(ts, i))
  }

  /** `LIST ;` has been consumed. */
  function ListAt(ts: seq<Token>, i: nat): (r: Parsed<Global>)
    requires i <= |ts|
    ensures r.Ok? ==> i < r.value.1 <= |ts|
  {
    if !KindAt(ts, i, IDENTIFIER) then Err(Thrown(ts, i))
    else if !TextAt(ts, i + 1, "=") then Err(Thrown(ts, i + 1))
    else if !TextAt(ts, i + 2, "[") then Err(Thrown(ts, i + 2))
    else
      match LevelAt(ts, i + 3, 1)
      case Err(f) => Err(f)
      case Ok(p) => ListTail(ts, p.1, ts[i].text, [p.0])
  }

  /** `VAR ;` has been consumed. */
  function MutableAt(ts: seq<Token>, i: nat): (r: Parsed<Global>)
    requires i <= |ts|
    ensures r.Ok? ==> i < r.value.1 <= |ts|
  {
    if !KindAt(ts, i, IDENTIFIER) then Err(Thrown(ts, i))
    else if TextAt(ts, i + 1, "=") then
      match LevelAt(ts, i + 2, 1)
      case Err(f) => Err(f)
      case Ok(p) => Ok((Global(ts[i].text, "Any", true, Some(p.0), None), p.1))
    else Ok((Global(ts[i].text, "Any", true, None, None), i + 1))
  }

  /** `VAL ;` has been consumed. */
  function ImmutableAt(ts: seq<Token>, i: nat): (r: Parsed<Global>)
    requires i <= |ts|
    ensures r.Ok? ==> i < r.value.1 <= |ts|
  {
    if !KindAt(ts, i, IDENTIFIER) then Err(Thrown(ts, i))
    else if !TextAt(ts, i + 1, "=") then Err(Thrown(ts, i + 1))
    else
      match LevelAt(ts, i + 2, 1)
      case Err(f) => Err(f)
      case Ok(p) => Ok((Global(ts[i].text, "Any", false, Some(p.0), None), p.1))
  }

  /** A global: a keyword and `;`, then the rest of the declaration, after
      which the rule throws whatever it read. */
  function GlobalAt(ts: seq<Token>, i: nat): (r: Parsed<Global>)
    requires i <= |ts|
    ensures r.Err?
  {
    var rest: Parsed<Global> :=
      if TextAt(ts, i, "LIST") && TextAt(ts, i + 1, ";") then ListAt(ts, i + 2)
      else if TextAt(ts, i, "VAR") && TextAt(ts, i + 1, ";") then MutableAt(ts, i + 2)
      else if TextAt(ts, i, "VAL") && TextAt(ts, i + 1, ";") then ImmutableAt(ts, i + 2)
      else Err(Thrown(ts, i));
    match rest
    case Err(f) => Err(f)
    case Ok(p) => Err(Thrown(ts, p.1))
  }

  /** The functions of the source from `i` on.  A global fails; `FUN`
      followed by a global keyword fails; any other token is never moved
      past, which is reported as `NoProgress`. */
  function SourceFrom(ts: seq<Token>, i: nat): (r: Result<seq<Function>, Failure>)
    requires i <= |ts|
    decreases |ts| - i
    ensures r.Ok? ==> |r.value| <= |ts| - i
  {
    if i == |ts| then Ok([])
    else
      match TopLevelAt(ts, i)
      case Err(f) => Err(f)
      case Ok(p) =>
        match SourceFrom(ts, p.1)
        case Err(f) => Err(f)
        case Ok(fs) => Ok([p.0] + fs)
  }

  /** One turn of the source loop at a token: a global keyword fails, `FUN`
      reads a function unless a global keyword follows it, and anything else
      makes no progress. */
  function TopLevelAt(ts: seq<Token>, i: nat): (r: Parsed<Function>)
    requires i < |ts|
    ensures r.Ok? ==> i < r.value.1 <= |ts|
  {
    if TextAt(ts, i, "LIST") then Err(GlobalAt(ts, i).error)
    else if TextAt(ts, i, "VAR") || TextAt(ts, i, "VAL") then Err(GlobalAt(ts, i + 1).error)
    else if TextAt(ts, i, "FUN") then
      if TextAt(ts, i + 1, "LIST") then Err(Thrown(ts, i + 1))
      else if TextAt(ts, i + 1, "VAR") || TextAt(ts, i + 1, "VAL") then Err(Thrown(ts, i + 2))
      else FunctionAt(ts, i + 1)
    else Err(NoProgress)
  }

  /** One turn of the source loop as written: the index it leaves the
      cursor at, or the failure.  A token that starts neither a global nor
      a function is not consumed, so the loop turns again at the same
      token for ever. */
  function TurnAsWritten(ts: seq<Token>, i: nat): (r: Result<nat, Failure>)
    requires i < |ts|
    ensures r.Ok? ==> i <= r.value <= |ts|
    ensures r == Ok(i) <==> !TextAt(ts, i, "LIST") && !TextAt(ts, i, "VAR") && !TextAt(ts, i, "VAL") && !TextAt(ts, i, "FUN")
  {
    if TextAt(ts, i, "LIST") || TextAt(ts, i, "VAR") || TextAt(ts, i, "VAL") || TextAt(ts, i, "FUN") then
      match TopLevelAt(ts, i)
      case Ok(p) => Ok(p.1)
      case Err(f) => Err(f)
    else Ok(i)
  }

  /** The whole source from `i`. */
  function SourceAt(ts: seq<Token>, i: nat): (r: Result<Source, Failure>)
    requires i <= |ts|
    ensures r.Ok? ==> r.value.globals == []
  {
    match SourceFrom(ts, i)
    case Err(f) => Err(f)
    case Ok(fs) => Ok(Source([], fs))
  }

  // ---------------------------------------------------------------------
  // Peeking at tokens

  /** `PeekTokens` pattern by pattern, in both directions. */
  lemma PeekTokensEach(ts: seq<Token>, i: nat, ps: seq<TokenPattern>)
    ensures PeekTokens(ts, i, ps) <==> forall k :: 0 <= k < |ps| ==> PatternAt(ts, i + k, ps[k])
  {
    if PeekTokens(ts, i, ps) {
      PeekTokensFirst(ts, i, ps);
    } else if forall k :: 0 <= k < |ps| ==> PatternAt(ts, i + k, ps[k]) {
      PeekTokensFromEach(ts, i, ps);
    }
  }

  lemma {:induction false} PeekTokensFirst(ts: seq<Token>, i: nat, ps: seq<TokenPattern>)
    requires PeekTokens(ts, i, ps)
    ensures forall k :: 0 <= k < |ps| ==> PatternAt(ts, i + k, ps[k])
    decreases |ps|
  {
    if |ps| > 0 {
      var rest := ps[1..];
      PeekTokensFirst(ts, i + 1, rest);
      forall k | 0 <= k < |ps|
        ensures PatternAt(ts, i + k, ps[k])
      {
        if k > 0 {
          assert PatternAt(ts, i + 1 + (k - 1), rest[k - 1]);
        }
      }
    }
  }

  lemma {:induction false} PeekTokensFromEach(ts: seq<Token>, i: nat, ps: seq<TokenPattern>)
    requires forall k :: 0 <= k < |ps| ==> PatternAt(ts, i + k, ps[k])
    ensures PeekTokens(ts, i, ps)
    decreases |ps|
  {
    if |ps| > 0 {
      var rest := ps[1..];
      forall k | 0 <= k < |rest|
        ensures PatternAt(ts, i + 1 + k, rest[k])
      {
        assert PatternAt(ts, i + (k + 1), ps[k + 1]);
      }
      PeekTokensFromEach(ts, i + 1, rest);
      assert PatternAt(ts, i + 0, ps[0]);
    }
  }

  lemma PeekTokensOne(ts: seq<Token>, i: nat, p: TokenPattern)
    ensures PeekTokens(ts, i, [p]) <==> PatternAt(ts, i, p)
  {
    assert [p][1..] == [];
  }

  lemma PeekTokensTwo(ts: seq<Token>, i: nat, p: TokenPattern, q: TokenPattern)
    ensures PeekTokens(ts, i, [p, q]) <==> PatternAt(ts, i, p) && PatternAt(ts, i + 1, q)
  {
    assert [p, q][1..] == [q];
    PeekTokensOne(ts, i + 1, q);
  }

  /** A method's result and cursor agree with a rule's specification. */
  predicate Outcome<T(==)>(r: Result<T, Failure>, p: Parsed<T>, index: nat)
  {
    match p
    case Ok(q) => r == Ok(q.0) && index == q.1
    case Err(f) => r == Err(f)
  }

  /** `fs` in front of the functions of `r`. */
  function Extend(fs: seq<Function>, r: Result<seq<Function>, Failure>): (e: Result<seq<Function>, Failure>)
    ensures e.Ok? <==> r.Ok?
  {
    match r
    case Err(f) => Err(f)
    case Ok(gs) => Ok(fs + gs)
  }

  lemma ExtendTwice(fs: seq<Function>, gs: seq<Function>, r: Result<seq<Function>, Failure>)
    ensures Extend(fs, Extend(gs, r)) == Extend(fs + gs, r)
  {
    if r.Ok? {
      assert fs + (gs + r.value) == (fs + gs) + r.value;
    }
  }

  // ---------------------------------------------------------------------
  // The parser

  /** The token list and the cursor. */
  class TokenStream {
    const tokens: seq<Token>
    var index: nat

    ghost predicate Valid()
      reads this
    {
      index <= |tokens|
    }

    constructor (tokens: seq<Token>)
      ensures Valid() && this.tokens == tokens && index == 0
    {
      this.tokens := tokens;
      index := 0;
    }

    function Has(offset: nat): bool
      reads this
    {
      index + offset < |tokens|
    }

    function Get(offset: nat): Token
      reads this
      requires Has(offset)
    {
      tokens[index + offset]
    }

    /** The literal text of the last consumed token. */
    function LastText(): string
      reads this
      requires 0 < index <= |tokens|
    {
      tokens[index - 1].text
    }

    method Advance()
      requires Valid() && index < |tokens|
      modifies this
      ensures Valid() && index == old(index) + 1
    {
      index := index + 1;
    }
  }

  class Parser {
    const stream: TokenStream

    constructor (tokens: seq<Token>)
      ensures fresh(stream) && stream.Valid() && stream.tokens == tokens && stream.index == 0
    {
      stream := new TokenStream(tokens);
    }

    method Peek(ps: seq<TokenPattern>) returns (b: bool)
      ensures b == PeekTokens(stream.tokens, stream.index, ps)
    {
      PeekTokensEach(stream.tokens, stream.index, ps);
      for i := 0 to |ps|
        invariant forall k :: 0 <= k < i ==> PatternAt(stream.tokens, stream.index + k, ps[k])
      {
        if !stream.Has(i) || !TokenMatches(ps[i], stream.Get(i)) {
          assert !PatternAt(stream.tokens, stream.index + i, ps[i]);
          return false;
        }
      }
      return true;
    }

    /** `Peek`, and on success moves the cursor past the matched tokens. */
    method Match(ps: seq<TokenPattern>) returns (b: bool)
      requires stream.Valid()
      modifies stream
      ensures stream.Valid()
      ensures b == PeekTokens(stream.tokens, old(stream.index), ps)
      ensures stream.index == old(stream.index) + (if b then |ps| else 0)
    {
      b := Peek(ps);
      PeekTokensEach(stream.tokens, stream.index, ps);
      if b {
        for i := 0 to |ps|
          invariant stream.Valid() && stream.index == old(stream.index) + i
        {
          assert PatternAt(stream.tokens, old(stream.index) + i, ps[i]);
          stream.Advance();
        }
      }
    }

    method PeekText(x: string) returns (b: bool)
      ensures b == TextAt(stream.tokens, stream.index, x)
    {
      PeekTokensOne(stream.tokens, stream.index, Text(x));
      b := Peek([Text(x)]);
    }

    method MatchText(x: string) returns (b: bool)
      requires stream.Valid()
      modifies stream
      ensures stream.Valid()
      ensures b == TextAt(stream.tokens, old(stream.index), x)
      ensures stream.index == old(stream.index) + (if b then 1 else 0)
    {
      PeekTokensOne(stream.tokens, stream.index, Text(x));
      b := Match([Text(x)]);
    }

    method MatchKind(k: TokenType) returns (b: bool)
      requires stream.Valid()
      modifies stream
      ensures stream.Valid()
      ensures b == KindAt(stream.tokens, old(stream.index), k)
      ensures stream.index == old(stream.index) + (if b then 1 else 0)
    {
      PeekTokensOne(stream.tokens, stream.index, Kind(k));
      b := Match([Kind(k)]);
    }

    /** A keyword and a semicolon, as `match(keyword, ";")`. */
    method MatchKeywordSemicolon(x: string) returns (b: bool)
      requires stream.Valid()
      modifies stream
      ensures stream.Valid()
      ensures b == (TextAt(stream.tokens, old(stream.index), x) && TextAt(stream.tokens, old(stream.index) + 1, ";"))
      ensures stream.index == old(stream.index) + (if b then 2 else 0)
    {
      PeekTokensTwo(stream.tokens, stream.index, Text(x), Text(";"));
      b := Match([Text(x), Text(";")]);
    }

    /** `match(op1) || match(op2) || ...` over the operators of a level. */
    method MatchOperator(level: nat) returns (b: bool)
      requires stream.Valid()
      modifies stream
      ensures stream.Valid()
      ensures b == OperatorAt(stream.tokens, old(stream.index), level)
      ensures stream.index == old(stream.index) + (if b then 1 else 0)
    {
      var ops := LevelOperators(level);
      for i := 0 to |ops|
        invariant stream.Valid() && stream.index == old(stream.index)
        invariant forall k :: 0 <= k < i ==> !TextAt(stream.tokens, stream.index, ops[k])
      {
        b := MatchText(ops[i]);
        if b {
          return;
        }
      }
      b := false;
    }

    /** The exception a rule throws: the offset of the last consumed token. */
    function Fail(): (f: Failure)
      reads stream
      requires stream.Valid()
    {
      Thrown(stream.tokens, stream.index)
    }

    method ParseExpression() returns (r: Result<Expr, Failure>)
      requires stream.Valid()
      modifies stream
      ensures stream.Valid()
      ensures Outcome(r, ExpressionAt(stream.tokens, old(stream.index)), stream.index)
      decreases |stream.tokens| - stream.index, 5, 0
    {
      r := ParseLevel(1);
    }

    /** The logical, comparison, additive and multiplicative rules (levels
        1 to 4): an operand, then operator-operand pairs folded to the left. */
    method ParseLevel(level: nat) returns (r: Result<Expr, Failure>)
      requires stream.Valid() && 1 <= level <= 4
      modifies stream
      ensures stream.Valid()
      ensures Outcome(r, LevelAt(stream.tokens, old(stream.index), level), stream.index)
      decreases |stream.tokens| - stream.index, 5 - level, 1
    {
      var first := ParseOperand(level);
      if first.Err? {
        return first;
      }
      var lhs := first.value;
      ghost var j0 := stream.index;
      while true
        invariant stream.Valid() && old(stream.index) < j0 <= stream.index
        invariant BinaryTail(stream.tokens, j0, level, first.value) == BinaryTail(stream.tokens, stream.index, level, lhs)
        decreases |stream.tokens| - stream.index
      {
        var more := MatchOperator(level);
        if !more {
          return Ok(lhs);
        }
        var op := stream.LastText();
        var rhs := ParseOperand(level);
        if rhs.Err? {
          return rhs;
        }
        lhs := Binary(op, lhs, rhs.value, None);
      }
    }

    method ParseOperand(level: nat) returns (r: Result<Expr, Failure>)
      requires stream.Valid() && 1 <= level <= 4
      modifies stream
      ensures stream.Valid()
      ensures Outcome(r, OperandAt(stream.tokens, old(stream.index), level), stream.index)
      decreases |stream.tokens| - stream.index, 5 - level, 0
    {
      if level == 4 {
        r := ParsePrimary();
      } else {
        r := ParseLevel(level + 1);
      }
    }

    method ParsePrimary() returns (r: Result<Expr, Failure>)
      requires stream.Valid()
      modifies stream
      ensures stream.Valid()
      ensures Outcome(r, PrimaryAt(stream.tokens, old(stream.index)), stream.index)
      decreases |stream.tokens| - stream.index, 0, 1
    {
      var found;
      found, r := ParseLiteral();
      if found {
        return;
      }
      var m := MatchText("(");
      if m {
        var e := ParseExpression();
        if e.Err? {
          return e;
        }
        m := MatchText(")");
        if m {
          return Ok(Group(e.value, None));
        }
        return Err(Fail());
      }
      m := MatchKind(IDENTIFIER);
      if m {
        r := ParseIdentifier();
        return;
      }
      return Err(Fail());
    }

    /** The literal branches of the primary rule, tried in order; `found`
        is false, and nothing is consumed, when none applies. */
    method ParseLiteral() returns (found: bool, r: Result<Expr, Failure>)
      requires stream.Valid()
      modifies stream
      ensures stream.Valid()
      ensures found == LiteralStart(stream.tokens, old(stream.index))
      ensures found ==> Outcome(r, LiteralTokenAt(stream.tokens, old(stream.index)), stream.index)
      ensures !found ==> stream.index == old(stream.index)
    {
      found := true;
      var m := MatchText("NIL");
      if m {
        return true, Ok(Literal(LNil, None));
      }
      m := MatchText("TRUE");
      if m {
        return true, Ok(Literal(LBool(true), None));
      }
      m := MatchText("FALSE");
      if m {
        return true, Ok(Literal(LBool(false), None));
      }
      m := MatchKind(INTEGER);
      if m {
        var n := ParseIntText(stream.LastText());
        if n.None? {
          return true, Err(NumberFormat);
        }
        return true, Ok(Literal(LInt(n.value), None));
      }
      m := MatchKind(DECIMAL);
      if m {
        var d := ParseDecimalText(stream.LastText());
        if d.None? {
          return true, Err(NumberFormat);
        }
        return true, Ok(Literal(LDec(d.value), None));
      }
      m := MatchKind(CHARACTER);
      if m {
        var c := CharacterValue(stream.LastText());
        if c.Err? {
          return true, Err(c.error);
        }
        return true, Ok(Literal(LChar(c.value), None));
      }
      m := MatchKind(STRING);
      if m {
        var s := StringValue(stream.LastText());
        if s.Err? {
          return true, Err(s.error);
        }
        return true, Ok(Literal(LStr(s.value), None));
      }
      return false, Err(Fail());
    }

    /** The identifier branch of the primary rule, after the identifier. */
    method ParseIdentifier() returns (r: Result<Expr, Failure>)
      requires stream.Valid() && 0 < stream.index && KindAt(stream.tokens, stream.index - 1, IDENTIFIER)
      modifies stream
      ensures stream.Valid()
      ensures Outcome(r, IdentifierAt(stream.tokens, old(stream.index) - 1), stream.index)
      decreases |stream.tokens| - stream.index + 1, 0, 0
    {
      var name := stream.LastText();
      var m := MatchText("(");
      if m {
        m := MatchText(")");
        if m {
          return Ok(Call(name, [], None));
        }
        r := ParseCallArguments(name);
        return;
      }
      m := MatchText("[");
      if m {
        var e := ParseExpression();
        if e.Err? {
          return e;
        }
        m := MatchText("]");
        if m {
          return Ok(Access(Some(e.value), name, None));
        }
        return Err(Fail());
      }
      return Ok(Access(None, name, None));
    }

    /** The arguments of a call with at least one: the first, then commas
        and arguments until `)` follows an argument. */
    method ParseCallArguments(name: string) returns (r: Result<Expr, Failure>)
      requires stream.Valid()
      modifies stream
      ensures stream.Valid()
      ensures Outcome(r, ArgumentsAt(stream.tokens, old(stream.index), name), stream.index)
      decreases |stream.tokens| - stream.index + 1, 0, 0
    {
      var first := ParseExpression();
      if first.Err? {
        return first;
      }
      var m := MatchText(")");
      if m {
        return Ok(Call(name, [first.value], None));
      }
      var args := [first.value];
      ghost var j0 := stream.index;
      while true
        invariant stream.Valid() && old(stream.index) < j0 <= stream.index
        invariant ArgumentsTail(stream.tokens, j0, name, [first.value]) == ArgumentsTail(stream.tokens, stream.index, name, args)
        decreases |stream.tokens| - stream.index
      {
        m := MatchText(",");
        if !m {
          return Err(Fail());
        }
        var e := ParseExpression();
        if e.Err? {
          return e;
        }
        args := args + [e.value];
        m := MatchText(")");
        if m {
          return Ok(Call(name, args, None));
        }
      }
    }

    // -------------------------------------------------------------------
    // Statements

    method ParseBlock() returns (r: Result<seq<Stmt>, Failure>)
      requires stream.Valid()
      modifies stream
      ensures stream.Valid()
      ensures Outcome(r, BlockFrom(stream.tokens, old(stream.index), []), stream.index)
      decreases |stream.tokens| - stream.index, 7, 0
    {
      var block: seq<Stmt> := [];
      while true
        invariant stream.Valid() && old(stream.index) <= stream.index
        invariant BlockFrom(stream.tokens, old(stream.index), []) == BlockFrom(stream.tokens, stream.index, block)
        decreases |stream.tokens| - stream.index
      {
        var end := PeekText("END");
        var default := PeekText("DEFAULT");
        var els := PeekText("ELSE");
        var cas := PeekText("CASE");
        if end || default || els || cas {
          return Ok(block);
        }
        var s := ParseStatement();
        if s.Err? {
          return Err(s.error);
        }
        block := block + [s.value];
      }
    }

    method ParseStatement() returns (r: Result<Stmt, Failure>)
      requires stream.Valid()
      modifies stream
      ensures stream.Valid()
      ensures Outcome(r, StatementAt(stream.tokens, old(stream.index)), stream.index)
      decreases |stream.tokens| - stream.index, 6, 0
    {
      var m := MatchText("LET");
      if m {
        r := ParseDeclarationStatement();
        return;
      }
      m := MatchText("SWITCH");
      if m {
        r := ParseSwitchStatement();
        return;
      }
      m := MatchText("IF");
      if m {
        r := ParseIfStatement();
        return;
      }
      m := MatchText("WHILE");
      if m {
        r := ParseWhileStatement();
        return;
      }
      m := MatchText("RETURN");
      if m {
        r := ParseReturnStatement();
        return;
      }
      var lhs := ParseExpression();
      if lhs.Err? {
        return Err(lhs.error);
      }
      m := MatchText("=");
      if m {
        var rhs := ParseExpression();
        if rhs.Err? {
          return Err(rhs.error);
        }
        m := MatchText(";");
        if m {
          return Ok(Assignment(lhs.value, rhs.value));
        }
      }
      m := MatchText(";");
      if m {
        return Ok(ExprStmt(lhs.value));
      }
      return Err(Fail());
    }

    method ParseDeclarationStatement() returns (r: Result<Stmt, Failure>)
      requires stream.Valid()
      modifies stream
      ensures stream.Valid()
      ensures Outcome(r, DeclarationAt(stream.tokens, old(stream.index)), stream.index)
      decreases |stream.tokens| - stream.index, 6, 0
    {
      var m := MatchKind(IDENTIFIER);
      if !m {
        return Err(Fail());
      }
      var name := stream.LastText();
      var value: Option<Expr> := None;
      m := MatchText("=");
      if m {
        var e := ParseExpression();
        if e.Err? {
          return Err(e.error);
        }
        value := Some(e.value);
      }
      m := MatchText(";");
      if !m {
        return Err(Fail());
      }
      return Ok(Declaration(name, None, value, None));
    }

    method ParseIfStatement() returns (r: Result<Stmt, Failure>)
      requires stream.Valid()
      modifies stream
      ensures stream.Valid()
      ensures Outcome(r, IfAt(stream.tokens, old(stream.index)), stream.index)
      decreases |stream.tokens| - stream.index, 6, 0
    {
      var e := ParseExpression();
      if e.Err? {
        return Err(e.error);
      }
      var thenStmts: seq<Stmt> := [];
      var elseStmts: seq<Stmt> := [];
      var m := MatchText("DO");
      if m {
        var b := ParseBlock();
        if b.Err? {
          return Err(b.error);
        }
        thenStmts := b.value;
      }
      m := MatchText("ELSE");
      if m {
        var b := ParseBlock();
        if b.Err? {
          return Err(b.error);
        }
        elseStmts := b.value;
      }
      m := MatchText("END");
      if !m {
        return Err(Fail());
      }
      return Ok(If(e.value, thenStmts, elseStmts));
    }

    /** Switch statements are not implemented. */
    method ParseSwitchStatement() returns (r: Result<Stmt, Failure>)
      ensures r == Err(UnsupportedOperation)
    {
      return Err(UnsupportedOperation);
    }

    /** While statements are not implemented. */
    method ParseWhileStatement() returns (r: Result<Stmt, Failure>)
      ensures r == Err(UnsupportedOperation)
    {
      return Err(UnsupportedOperation);
    }

    method ParseReturnStatement() returns (r: Result<Stmt, Failure>)
      requires stream.Valid()
      modifies stream
      ensures stream.Valid()
      ensures Outcome(r, ReturnAt(stream.tokens, old(stream.index)), stream.index)
      decreases |stream.tokens| - stream.index, 6, 0
    {
      var e := ParseExpression();
      if e.Err? {
        return Err(e.error);
      }
      var m := MatchText(";");
      if !m {
        return Err(Fail());
      }
      return Ok(Return(e.value));
    }

    // -------------------------------------------------------------------
    // Functions, globals and the source

    method ParseFunction() returns (r: Result<Function, Failure>)
      requires stream.Valid()
      modifies stream
      ensures stream.Valid()
      ensures Outcome(r, FunctionAt(stream.tokens, old(stream.index)), stream.index)
    {
      var m := MatchKind(IDENTIFIER);
      if !m {
        return Err(Fail());
      }
      var name := stream.LastText();
      m := MatchText("(");
      if !m {
        return Err(Fail());
      }
      var params := ParseParameters();
      if params.Err? {
        return Err(params.error);
      }
      m := MatchText(")");
      if !m {
        return Err(Fail());
      }
      m := MatchText("DO");
      if !m {
        return Err(Fail());
      }
      var b := ParseBlock();
      if b.Err? {
        return Err(b.error);
      }
      m := MatchText("END");
      if !m {
        return Err(Fail());
      }
      return Ok(Function(name, params.value, [], Some("Any"), b.value, None));
    }

    /** The parameter names of a function, after its `(`. */
    method ParseParameters() returns (r: Result<seq<string>, Failure>)
      requires stream.Valid()
      modifies stream
      ensures stream.Valid()
      ensures Outcome(r, ParameterListAt(stream.tokens, old(stream.index)), stream.index)
    {
      var params: seq<string> := [];
      var m := MatchKind(IDENTIFIER);
      if m {
        params := [stream.LastText()];
        ghost var j0 := stream.index;
        while true
          invariant stream.Valid() && j0 <= stream.index
          invariant ParametersTail(stream.tokens, j0, [stream.tokens[j0 - 1].text]) == ParametersTail(stream.tokens, stream.index, params)
          decreases |stream.tokens| - stream.index
        {
          m := MatchText(",");
          if !m {
            break;
          }
          var trailing := PeekText(")");
          if trailing {
            return Err(Fail());
          }
          m := MatchKind(IDENTIFIER);
          if m {
            params := params + [stream.LastText()];
          }
        }
      }
      return Ok(params);
    }

    /** A global always ends in an exception: the declaration it reads is
        dropped. */
    method ParseGlobal() returns (r: Result<Global, Failure>)
      requires stream.Valid()
      modifies stream
      ensures stream.Valid()
      ensures Outcome(r, GlobalAt(stream.tokens, old(stream.index)), stream.index)
    {
      var m := MatchKeywordSemicolon("LIST");
      if m {
        var g := ParseList();
        if g.Err? {
          return g;
        }
      } else {
        m := MatchKeywordSemicolon("VAR");
        if m {
          var g := ParseMutable();
          if g.Err? {
            return g;
          }
        } else {
          m := MatchKeywordSemicolon("VAL");
          if m {
            var g := ParseImmutable();
            if g.Err? {
              return g;
            }
          }
        }
      }
      return Err(Fail());
    }

    method ParseList() returns (r: Result<Global, Failure>)
      requires stream.Valid()
      modifies stream
      ensures stream.Valid()
      ensures Outcome(r, ListAt(stream.tokens, old(stream.index)), stream.index)
    {
      var m := MatchKind(IDENTIFIER);
      if !m {
        return Err(Fail());
      }
      var name := stream.LastText();
      m := MatchText("=");
      if !m {
        return Err(Fail());
      }
      m := MatchText("[");
      if !m {
        return Err(Fail());
      }
      var first := ParseExpression();
      if first.Err? {
        return Err(first.error);
      }
      r := ParseListElements(name, [first.value]);
    }

    /** The element loop of a list global, after its first element. */
    method ParseListElements(name: string, first: seq<Expr>) returns (r: Result<Global, Failure>)
      requires stream.Valid()
      modifies stream
      ensures stream.Valid()
      ensures Outcome(r, ListTail(stream.tokens, old(stream.index), name, first), stream.index)
    {
      var values := first;
      ghost var j0 := stream.index;
      while true
        invariant stream.Valid() && j0 <= stream.index
        invariant ListTail(stream.tokens, j0, name, first) == ListTail(stream.tokens, stream.index, name, values)
        decreases |stream.tokens| - stream.index
      {
        var m;
        m := MatchText(",");
        if !m {
          return Err(Fail());
        }
        var trailing := PeekText("]");
        if trailing {
          return Err(Fail());
        }
        var e := ParseExpression();
        if e.Err? {
          return Err(e.error);
        }
        values := values + [e.value];
        m := MatchText("]");
        if m {
          return Ok(Global(name, "Any", true, Some(PlcList(values, None)), None));
        }
      }
    }

    method ParseMutable() returns (r: Result<Global, Failure>)
      requires stream.Valid()
      modifies stream
      ensures stream.Valid()
      ensures Outcome(r, MutableAt(stream.tokens, old(stream.index)), stream.index)
    {
      var m := MatchKind(IDENTIFIER);
      if !m {
        return Err(Fail());
      }
      var name := stream.LastText();
      var value: Option<Expr> := None;
      m := MatchText("=");
      if m {
        var e := ParseExpression();
        if e.Err? {
          return Err(e.error);
        }
        value := Some(e.value);
      }
      return Ok(Global(name, "Any", true, value, None));
    }

    method ParseImmutable() returns (r: Result<Global, Failure>)
      requires stream.Valid()
      modifies stream
      ensures stream.Valid()
      ensures Outcome(r, ImmutableAt(stream.tokens, old(stream.index)), stream.index)
    {
      var m := MatchKind(IDENTIFIER);
      if !m {
        return Err(Fail());
      }
      var name := stream.LastText();
      m := MatchText("=");
      if !m {
        return Err(Fail());
      }
      var e := ParseExpression();
      if e.Err? {
        return Err(e.error);
      }
      return Ok(Global(name, "Any", false, Some(e.value), None));
    }

    /** One turn of the source loop: a token that starts neither a global
        nor a function gives `NoProgress`. */
    method ParseTopLevel() returns (r: Result<Function, Failure>)
      requires stream.Valid() && stream.index < |stream.tokens|
      modifies stream
      ensures stream.Valid()
      ensures Outcome(r, TopLevelAt(stream.tokens, old(stream.index)), stream.index)
    {
      var global := PeekText("LIST");
      if !global {
        global := MatchText("VAR");
      }
      if !global {
        global := MatchText("VAL");
      }
      if global {
        var g := ParseGlobal();
        return Err(g.error);
      }
      var fun := MatchText("FUN");
      if !fun {
        return Err(NoProgress);
      }
      var late := PeekText("LIST");
      if !late {
        late := MatchText("VAR");
      }
      if !late {
        late := MatchText("VAL");
      }
      if late {
        return Err(Fail());
      }
      r := ParseFunction();
    }

    /** The top-level loop.  Where the source loops forever on a token that
        starts neither a global nor a function, the model stops with
        `NoProgress`. */
    method ParseSource() returns (r: Result<Source, Failure>)
      requires stream.Valid()
      modifies stream
      ensures stream.Valid()
      ensures r == SourceAt(stream.tokens, old(stream.index))
    {
      var functions: seq<Function> := [];
      ghost var rest := SourceFrom(stream.tokens, stream.index);
      if rest.Ok? {
        assert [] + rest.value == rest.value;
      }
      while stream.Has(0)
        invariant stream.Valid() && old(stream.index) <= stream.index
        invariant SourceFrom(stream.tokens, old(stream.index)) == Extend(functions, SourceFrom(stream.tokens, stream.index))
        decreases |stream.tokens| - stream.index
      {
        var f := ParseTopLevel();
        if f.Err? {
          return Err(f.error);
        }
        ExtendTwice(functions, [f.value], SourceFrom(stream.tokens, stream.index));
        functions := functions + [f.value];
      }
      assert functions + [] == functions;
      return Ok(Source([], functions));
    }
  }
}
