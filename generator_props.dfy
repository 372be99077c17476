/** What the generated Java text looks like: indentation, separators,
    statement endings, the failures, and the parameter list as written
    against the intended one. */
module GenerationProperties {
  import opened Common
  import opened Syntax
  import opened Generation

  /* ---------------- separators ---------------- */

  /** Texts joined by `sep`, built from the left the way the generator's
      loops write them: all but the last followed by `sep`, then the last. */
  function Joined(ts: seq<string>, sep: string): string
  {
    if ts == [] then ""
    else if |ts| == 1 then ts[0]
    else Joined(ts[..|ts| - 1], sep) + sep + ts[|ts| - 1]
  }

  lemma {:induction false} JoinedCons(t: string, ts: seq<string>, sep: string)
    requires ts != []
    ensures Joined([t] + ts, sep) == t + sep + Joined(ts, sep)
    decreases |ts|
  {
    var all := [t] + ts;
    if |ts| == 1 {
      assert all[..1] == [t];
    } else {
      var front, last := ts[..|ts| - 1], ts[|ts| - 1];
      assert all[..|all| - 1] == [t] + front && all[|all| - 1] == last;
      assert Joined(all, sep) == Joined([t] + front, sep) + sep + last;
      JoinedCons(t, front, sep);
      assert Joined(ts, sep) == Joined(front, sep) + sep + last;
    }
  }

  /** The text of a result, or nothing when it failed. */
  function TextOf(r: Result<string, Failure>): string
  {
    if r.Ok? then r.value else ""
  }

  /** The text of each expression. */
  function Texts(es: seq<Expr>): (ts: seq<string>)
    ensures |ts| == |es|
    ensures forall i :: 0 <= i < |es| ==> ts[i] == TextOf(ExprText(es[i]))
  {
    if es == [] then [] else [TextOf(ExprText(es[0]))] + Texts(es[1..])
  }

  /** An argument or element list succeeds exactly when every expression
      does, and is then the texts joined by `", "`. */
  lemma {:induction false} ListTextJoins(es: seq<Expr>)
    ensures ListText(es).Ok? <==> forall i :: 0 <= i < |es| ==> ExprText(es[i]).Ok?
    ensures ListText(es).Ok? ==> ListText(es).value == Joined(Texts(es), ", ")
  {
    if es == [] {
    } else if ExprText(es[0]).Err? {
    } else if |es| == 1 {
      assert Texts(es) == [ExprText(es[0]).value];
    } else {
      var rest := es[1..];
      ListTextJoins(rest);
      assert forall i :: 1 <= i < |es| ==> es[i] == rest[i - 1];
      if ListText(rest).Ok? {
        assert Texts(es) == [ExprText(es[0]).value] + Texts(rest);
        JoinedCons(ExprText(es[0]).value, Texts(rest), ", ");
      }
    }
  }

  /** A failing list fails as its first failing expression does. */
  lemma {:induction false} ListTextFirstFailure(es: seq<Expr>, i: nat)
    requires i < |es| && ExprText(es[i]).Err?
    requires forall j :: 0 <= j < i ==> ExprText(es[j]).Ok?
    ensures ListText(es) == Err(ExprText(es[i]).error)
  {
    if i > 0 {
      var rest := es[1..];
      assert forall j :: 0 <= j < i - 1 ==> rest[j] == es[j + 1];
      ListTextFirstFailure(rest, i - 1);
      assert rest[i - 1] == es[i];
    }
  }

  /** A call is its Java name and its arguments joined by `", "` in
      parentheses. */
  lemma CallJoinsArguments(name: string, args: seq<Expr>, f: FunSym)
    requires forall i :: 0 <= i < |args| ==> ExprText(args[i]).Ok?
    ensures ExprText(Call(name, args, Some(f))) == Ok(f.jvmName + "(" + Joined(Texts(args), ", ") + ")")
  {
    ListTextJoins(args);
  }

  /** A list literal is its elements joined by `", "` in braces, and an
      empty one fails. */
  lemma ListLiteralJoinsElements(vs: seq<Expr>, t: Option<Type>)
    ensures vs == [] ==> ExprText(PlcList(vs, t)) == Err(EmptyList)
    ensures vs != [] && (forall i :: 0 <= i < |vs| ==> ExprText(vs[i]).Ok?) ==>
              ExprText(PlcList(vs, t)) == Ok("{" + Joined(Texts(vs), ", ") + "}")
  {
    ListTextJoins(vs);
  }

  /* ---------------- parameters ---------------- */

  /** Each parameter declaration: its type name, a space, its name. */
  function Declared(types: seq<string>, params: seq<string>): (ds: seq<string>)
    requires |params| <= |types|
    ensures |ds| == |params|
    ensures forall i :: 0 <= i < |params| ==> ds[i] == types[i] + " " + params[i]
  {
    if params == [] then [] else [types[0] + " " + params[0]] + Declared(types[1..], params[1..])
  }

  /** The intended parameter list: every parameter with its own type name,
      joined by `", "`; it fails only when a type name is missing. */
  lemma {:induction false} ParametersJoin(types: seq<string>, params: seq<string>)
    ensures |types| < |params| ==> Parameters(types, params) == Err(MissingParameterType)
    ensures |params| <= |types| ==> Parameters(types, params) == Ok(Joined(Declared(types, params), ", "))
    decreases |params|
  {
    if params == [] || |types| < |params| || |params| == 1 {
    } else {
      ParametersJoin(types[1..], params[1..]);
      assert Declared(types, params) == [types[0] + " " + params[0]] + Declared(types[1..], params[1..]);
      JoinedCons(types[0] + " " + params[0], Declared(types[1..], params[1..]), ", ");
    }
  }

  /** `Repeat(t, k)` is `k` copies of `t`. */
  lemma {:induction false} RepeatJoins(d: string, k: nat)
    ensures Repeat(d + ", ", k) + d == Joined(Copies(d, k + 1), ", ")
  {
    if k == 0 {
      assert Copies(d, 1) == [d];
    } else {
      RepeatJoins(d, k - 1);
      assert Copies(d, k + 1)[..k] == Copies(d, k);
      assert Repeat(d + ", ", k) + d == Repeat(d + ", ", k - 1) + d + ", " + d;
    }
  }

  function Copies(d: string, n: nat): (ds: seq<string>)
    ensures |ds| == n && forall i :: 0 <= i < n ==> ds[i] == d
  {
    if n == 0 then [] else Copies(d, n - 1) + [d]
  }

  /** The declarations of parameters that all bear the first name and,
      all but the last, the first type name. */
  lemma DeclaredReusing(types: seq<string>, params: seq<string>)
    requires 2 <= |params| <= |types|
    ensures Declared(Copies(types[0], |params| - 1) + [types[|params| - 1]], Copies(params[0], |params|))
            == Copies(types[0] + " " + params[0], |params| - 1) + [types[|params| - 1] + " " + params[0]]
  {
    var n := |params|;
    var ts := Copies(types[0], n - 1) + [types[n - 1]];
    var ps := Copies(params[0], n);
    var ds := Declared(ts, ps);
    var want := Copies(types[0] + " " + params[0], n - 1) + [types[n - 1] + " " + params[0]];
    assert |ds| == n == |want|;
    forall i | 0 <= i < n
      ensures ds[i] == want[i]
    {
      assert ds[i] == ts[i] + " " + ps[i];
      assert ps[i] == params[0];
      if i < n - 1 {
        assert ts[i] == Copies(types[0], n - 1)[i] == types[0];
        assert want[i] == Copies(types[0] + " " + params[0], n - 1)[i];
      } else {
        assert ts[i] == types[n - 1];
        assert want[i] == types[n - 1] + " " + params[0];
      }
    }
    assert ds == want;
  }

  lemma JoinedSnoc(ds: seq<string>, last: string, sep: string)
    requires ds != []
    ensures Joined(ds + [last], sep) == Joined(ds, sep) + sep + last
  {
    assert (ds + [last])[..|ds|] == ds;
  }

  lemma Assoc(a: string, b: string, c: string)
    ensures a + b + c == a + (b + c)
  {
  }

  /** The intended text of the reused declarations. */
  lemma ReusingJoined(types: seq<string>, params: seq<string>)
    requires 2 <= |params| <= |types|
    ensures Parameters(Copies(types[0], |params| - 1) + [types[|params| - 1]], Copies(params[0], |params|))
            == Ok(Joined(Copies(types[0] + " " + params[0], |params| - 1), ", ") + ", " + (types[|params| - 1] + " " + params[0]))
  {
    var n := |params|;
    ParametersJoin(Copies(types[0], n - 1) + [types[n - 1]], Copies(params[0], n));
    DeclaredReusing(types, params);
    JoinedSnoc(Copies(types[0] + " " + params[0], n - 1), types[n - 1] + " " + params[0], ", ");
  }

  /** The text as written, in the same terms. */
  lemma AsWrittenJoined(types: seq<string>, params: seq<string>)
    requires 2 <= |params| <= |types|
    ensures ParametersAsWritten(types, params)
            == Ok(Joined(Copies(types[0] + " " + params[0], |params| - 1), ", ") + ", " + (types[|params| - 1] + " " + params[0]))
  {
    var n := |params|;
    var d := types[0] + " " + params[0];
    var t := types[n - 1];
    var p := params[0];
    var y := d + ", ";
    assert ParametersAsWritten(types, params) == Ok(Repeat(y, n - 1) + t + " " + p);
    RepeatJoins(d, n - 2);
    var front := Repeat(y, n - 2);
    assert Repeat(y, n - 1) == front + y;
    assert Joined(Copies(d, n - 1), ", ") == front + d;
    calc {
      Repeat(y, n - 1) + t + " " + p;
      front + y + t + " " + p;
      { Assoc(front + y, t, " "); }
      front + y + (t + " ") + p;
      { Assoc(front + y, t + " ", p); }
      front + y + (t + " " + p);
      { Assoc(front, d, ", "); }
      front + d + ", " + (t + " " + p);
    }
  }

  /** The parameter list as written is the intended list for parameters
      that all bear the first parameter's name and, all but the last, the
      first parameter's type name. */
  lemma ParametersAsWrittenReusesFirst(types: seq<string>, params: seq<string>)
    requires 2 <= |params| <= |types|
    ensures ParametersAsWritten(types, params)
            == Parameters(Copies(types[0], |params| - 1) + [types[|params| - 1]], Copies(params[0], |params|))
  {
    ReusingJoined(types, params);
    AsWrittenJoined(types, params);
  }

  /** With two parameters of different names, the text as written names
      the first parameter twice, where the intended text names each once. */
  lemma ParametersAsWrittenCounterexample()
    ensures ParametersAsWritten(["Integer", "Decimal"], ["a", "b"]) == Ok("Integer a, Decimal a")
    ensures Parameters(["Integer", "Decimal"], ["a", "b"]) == Ok("Integer a, Decimal b")
  {
    var first := "Integer" + " " + "a" + ", ";
    assert first == "Integer a, ";
    assert Repeat(first, 1) == "" + first == "Integer a, ";
    assert ParametersAsWritten(["Integer", "Decimal"], ["a", "b"]) == Ok(Repeat(first, 1) + "Decimal" + " " + "a");
    assert "Integer a, " + "Decimal" + " " + "a" == "Integer a, Decimal a";
    assert ["Integer", "Decimal"][1..] == ["Decimal"] && ["a", "b"][1..] == ["b"];
    assert Parameters(["Decimal"], ["b"]) == Ok("Decimal" + " " + "b");
    assert "Integer" + " " + "a" + ", " + ("Decimal" + " " + "b") == "Integer a, Decimal b";
  }

  /** With at most one parameter the two texts agree. */
  lemma ParametersAgreeOnOne(types: seq<string>, params: seq<string>)
    requires |params| <= 1
    ensures ParametersAsWritten(types, params) == Parameters(types, params)
  {
  }

  /* ---------------- layout ---------------- */

  /** `newline(k)` is a line break followed by `4 * k` spaces. */
  lemma {:induction false} NewlineShape(k: nat)
    ensures |Newline(k)| == 1 + 4 * k && Newline(k)[0] == '\n'
    ensures forall i :: 1 <= i < |Newline(k)| ==> Newline(k)[i] == ' '
  {
    if k > 0 {
      NewlineShape(k - 1);
    }
  }

  /** A statement list of two parts is the text of the first part followed
      by that of the second. */
  lemma {:induction false} BlockTextAppend(ss: seq<Stmt>, tt: seq<Stmt>, k: nat)
    ensures BlockText(ss + tt, k)
            == match BlockText(ss, k)
               case Err(f) => Err(f)
               case Ok(a) => Then(a, BlockText(tt, k))
  {
    if ss == [] {
      assert ss + tt == tt;
      if BlockText(tt, k).Ok? {
        assert "" + BlockText(tt, k).value == BlockText(tt, k).value;
      }
    } else {
      assert (ss + tt)[0] == ss[0] && (ss + tt)[1..] == ss[1..] + tt;
      BlockTextAppend(ss[1..], tt, k);
      var first := StmtText(ss[0]);
      var left := BlockText(ss[1..], k);
      var right := BlockText(tt, k);
      if first.Ok? && left.Ok? && right.Ok? {
        assert Newline(k) + first.value + (left.value + right.value)
               == Newline(k) + first.value + left.value + right.value;
      }
    }
  }

  /** Every statement of a block starts on a new line indented by `k`
      steps: a block of one more statement is the block so far, a line break,
      the indentation, and the statement. */
  lemma BlockIndentsEachStatement(ss: seq<Stmt>, st: Stmt, k: nat)
    requires BlockText(ss, k).Ok? && StmtText(st).Ok?
    ensures BlockText(ss + [st], k) == Ok(BlockText(ss, k).value + Newline(k) + StmtText(st).value)
  {
    BlockTextAppend(ss, [st], k);
    var line := Newline(k) + StmtText(st).value;
    assert BlockText([st], k) == Ok(line + "");
    assert line + "" == line;
    assert BlockText(ss, k).value + line == BlockText(ss, k).value + Newline(k) + StmtText(st).value;
  }

  /* ---------------- statements ---------------- */

  function Last(t: string): char
    requires t != []
  {
    t[|t| - 1]
  }

  /** Expression, declaration, assignment and return statements end with
      `;`; `if`, `switch` and `while` end with `}`. */
  lemma StatementEnding(st: Stmt)
    requires StmtText(st).Ok?
    ensures StmtText(st).value != []
    ensures (st.ExprStmt? || st.Declaration? || st.Assignment? || st.Return?) ==> Last(StmtText(st).value) == ';'
    ensures (st.If? || st.Switch? || st.While?) ==> Last(StmtText(st).value) == '}'
  {
  }

  /** An assignment is `R = V;`, a return is `return E;`. */
  lemma AssignmentAndReturnText(receiver: Expr, value: Expr)
    requires ExprText(receiver).Ok? && ExprText(value).Ok?
    ensures StmtText(Assignment(receiver, value)) == Ok(ExprText(receiver).value + " = " + ExprText(value).value + ";")
    ensures StmtText(Return(value)) == Ok("return " + ExprText(value).value + ";")
  {
  }

  /** The else part is written only when there are else statements: with
      them, the text is that of the same `if` without them followed by the
      else block. */
  lemma ElseOnlyWhenPresent(cond: Expr, th: seq<Stmt>, el: seq<Stmt>)
    requires el != [] && StmtText(If(cond, th, el)).Ok?
    ensures StmtText(If(cond, th, [])).Ok?
    ensures StmtText(If(cond, th, el)).value
            == StmtText(If(cond, th, [])).value + " else {" + BlockText(el, 1).value + Newline(0) + "}"
  {
  }

  /** A `while` with no statements is written on one line as
      `while (C) {}`; with statements its body is on lines of its own. */
  lemma WhileLayout(cond: Expr, body: seq<Stmt>)
    requires StmtText(While(cond, body)).Ok?
    ensures body == [] ==> StmtText(While(cond, body)).value == "while (" + ExprText(cond).value + ") {}"
    ensures body != [] ==> StmtText(While(cond, body)).value
                           == "while (" + ExprText(cond).value + ") {" + BlockText(body, 1).value + Newline(0) + "}"
  {
  }

  /* ---------------- expressions ---------------- */

  /** `^` becomes a call of `Math.pow`; every other operator stands between
      its operands with one space on each side. */
  lemma BinaryText(op: string, l: Expr, r: Expr, t: Option<Type>)
    requires ExprText(l).Ok? && ExprText(r).Ok?
    ensures op == "^" ==> ExprText(Binary(op, l, r, t)) == Ok("Math.pow(" + ExprText(l).value + ", " + ExprText(r).value + ")")
    ensures op != "^" ==> ExprText(Binary(op, l, r, t)) == Ok(ExprText(l).value + " " + op + " " + ExprText(r).value)
  {
  }

  /** Operands are written left to right: a failing left operand stops the
      text whatever the right one is. */
  lemma LeftOperandFailsFirst(op: string, l: Expr, r: Expr, t: Option<Type>)
    requires ExprText(l).Err?
    ensures ExprText(Binary(op, l, r, t)) == Err(ExprText(l).error)
  {
  }

  /** A group is its operand in parentheses. */
  lemma GroupText(inner: Expr, t: Option<Type>)
    ensures ExprText(Group(inner, t)).Ok? <==> ExprText(inner).Ok?
    ensures ExprText(inner).Ok? ==> ExprText(Group(inner, t)) == Ok("(" + ExprText(inner).value + ")")
  {
  }

  /** A string or character literal is its value in quotes, with nothing
      escaped: a double quote inside a string is written as it is. */
  lemma LiteralsNotEscaped(s: string, c: char)
    ensures ExprText(Literal(LStr(s), Some(String))) == Ok("\"" + s + "\"")
    ensures ExprText(Literal(LChar(c), Some(Character))) == Ok("'" + [c] + "'")
  {
  }

  lemma QuoteInStringWrittenRaw()
    ensures ExprText(Literal(LStr("a\"b"), Some(String))) == Ok("\"a\"b\"")
  {
    assert "\"" + "a\"b" + "\"" == "\"a\"b\"";
  }

  /** `NIL` has no text, and neither has a node the analyser did not
      annotate. */
  lemma Failures(lit: Lit, t: Type, off: Option<Expr>, name: string, args: seq<Expr>)
    ensures ExprText(Literal(LNil, Some(t))) == Err(NullLiteral)
    ensures ExprText(Literal(lit, None)) == Err(Unannotated)
    ensures ExprText(Access(off, name, None)) == Err(Unannotated)
    ensures ExprText(Call(name, args, None)) == Err(Unannotated)
  {
  }
}
