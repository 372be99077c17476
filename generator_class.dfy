/** The generator as an object: every visit appends to the `writer` buffer,
    and each is proved to append exactly the text that module `Generation`
    gives for its node. */
module CodeGeneration {
  import opened Common
  import opened Syntax
  import opened Generation

  /** A visit agrees with its text: on success the writer has grown by that
      text; on failure the visit reports the text's failure. */
  predicate Wrote(r: Result<(), Failure>, spec: Result<string, Failure>, before: string, after: string)
  {
    match spec
    case Ok(t) => r.Ok? && after == before + t
    case Err(f) => r == Err(f)
  }

  lemma ThenNothing(r: Result<string, Failure>)
    ensures Then("", r) == r
  {
    if r.Ok? {
      assert "" + r.value == r.value;
    }
  }

  /** After `t` is appended to text that is `before + acc`, the text is
      `before` followed by `acc + t`. */
  lemma Grown(before: string, acc: string, t: string) returns (next: string)
    ensures next == acc + t && before + acc + t == before + next
  {
    next := acc + t;
  }

  /* One step of each loop: the text left from item `i` in terms of the
     text left from item `i + 1`. */

  lemma ListStep(es: seq<Expr>, i: nat, done: string)
    requires i + 1 < |es|
    ensures ExprText(es[i]).Err? ==> Then(done, ListText(es[i..])) == Err(ExprText(es[i]).error)
    ensures ExprText(es[i]).Ok? ==> Then(done, ListText(es[i..])) == Then(done + ExprText(es[i]).value + ", ", ListText(es[i + 1..]))
  {
    assert es[i..][0] == es[i] && es[i..][1..] == es[i + 1..];
    var first := ExprText(es[i]);
    var rest := ListText(es[i + 1..]);
    if first.Ok? && rest.Ok? {
      assert done + (first.value + ", " + rest.value) == done + first.value + ", " + rest.value;
    }
  }

  lemma BlockStep(ss: seq<Stmt>, k: nat, i: nat, done: string)
    requires i < |ss|
    ensures StmtText(ss[i]).Err? ==> Then(done, BlockText(ss[i..], k)) == Err(StmtText(ss[i]).error)
    ensures StmtText(ss[i]).Ok? ==> Then(done, BlockText(ss[i..], k)) == Then(done + Newline(k) + StmtText(ss[i]).value, BlockText(ss[i + 1..], k))
  {
    assert ss[i..][0] == ss[i] && ss[i..][1..] == ss[i + 1..];
    var first := StmtText(ss[i]);
    var rest := BlockText(ss[i + 1..], k);
    if first.Ok? && rest.Ok? {
      assert done + (Newline(k) + first.value + rest.value) == done + Newline(k) + first.value + rest.value;
    }
  }

  lemma CasesStep(cs: seq<Case>, i: nat, done: string)
    requires i < |cs|
    ensures CaseText(cs[i]).Err? ==> Then(done, CasesText(cs[i..])) == Err(CaseText(cs[i]).error)
    ensures CaseText(cs[i]).Ok? ==> Then(done, CasesText(cs[i..])) == Then(done + Newline(1) + CaseText(cs[i]).value, CasesText(cs[i + 1..]))
  {
    assert cs[i..][0] == cs[i] && cs[i..][1..] == cs[i + 1..];
    var first := CaseText(cs[i]);
    var rest := CasesText(cs[i + 1..]);
    if first.Ok? && rest.Ok? {
      assert done + (Newline(1) + first.value + rest.value) == done + Newline(1) + first.value + rest.value;
    }
  }

  lemma GlobalsStep(gs: seq<Global>, i: nat, done: string)
    requires i < |gs|
    ensures GlobalText(gs[i]).Err? ==> Then(done, GlobalsText(gs[i..])) == Err(GlobalText(gs[i]).error)
    ensures GlobalText(gs[i]).Ok? ==> Then(done, GlobalsText(gs[i..])) == Then(done + Newline(1) + GlobalText(gs[i]).value, GlobalsText(gs[i + 1..]))
  {
    assert gs[i..][0] == gs[i] && gs[i..][1..] == gs[i + 1..];
    var first := GlobalText(gs[i]);
    var rest := GlobalsText(gs[i + 1..]);
    if first.Ok? && rest.Ok? {
      assert done + (Newline(1) + first.value + rest.value) == done + Newline(1) + first.value + rest.value;
    }
  }

  lemma FunctionsStep(fs: seq<Function>, i: nat, done: string)
    requires i < |fs|
    ensures FunctionText(fs[i]).Err? ==> Then(done, FunctionsText(fs[i..])) == Err(FunctionText(fs[i]).error)
    ensures FunctionText(fs[i]).Ok? ==> Then(done, FunctionsText(fs[i..])) == Then(done + Newline(1) + FunctionText(fs[i]).value, FunctionsText(fs[i + 1..]))
  {
    assert fs[i..][0] == fs[i] && fs[i..][1..] == fs[i + 1..];
    var first := FunctionText(fs[i]);
    var rest := FunctionsText(fs[i + 1..]);
    if first.Ok? && rest.Ok? {
      assert done + (Newline(1) + first.value + rest.value) == done + Newline(1) + first.value + rest.value;
    }
  }

  lemma ParametersStep(types: seq<string>, params: seq<string>, i: nat, done: string)
    requires i + 1 < |params| <= |types|
    ensures Then(done, Parameters(types[i..], params[i..]))
            == Then(done + (types[i] + " " + params[i]) + ", ", Parameters(types[i + 1..], params[i + 1..]))
  {
    assert types[i..][0] == types[i] && types[i..][1..] == types[i + 1..];
    assert params[i..][0] == params[i] && params[i..][1..] == params[i + 1..];
    var rest := Parameters(types[i + 1..], params[i + 1..]);
    if rest.Ok? {
      assert done + (types[i] + " " + params[i] + ", " + rest.value) == done + (types[i] + " " + params[i]) + ", " + rest.value;
    }
  }

  lemma ParametersLast(types: seq<string>, params: seq<string>, i: nat)
    requires i + 1 == |params| <= |types|
    ensures Parameters(types[i..], params[i..]) == Ok(types[i] + " " + params[i])
  {
    assert params[i..] == [params[i]] && types[i..][0] == types[i];
  }

  class Generator {
    /** Everything written so far. */
    var writer: string

    /** A generator over an empty writer. */
    constructor()
      ensures writer == ""
    {
      writer := "";
    }

    /** `newline(k)`. */
    method NewLine(k: nat)
      modifies this
      ensures writer == old(writer) + Newline(k)
    {
      writer := writer + "\n";
      for i := 0 to k
        invariant writer == old(writer) + Newline(i)
      {
        writer := writer + "    ";
      }
    }

    /* ---------------- expressions ---------------- */

    method VisitExpression(e: Expr) returns (r: Result<(), Failure>)
      modifies this
      decreases e, 1
      ensures Wrote(r, ExprText(e), old(writer), writer)
    {
      match e
      case Literal(_, _) => r := VisitLiteral(e);
      case Group(inner, _) =>
        writer := writer + "(";
        ghost var i := ExprText(inner);
        r := VisitExpression(inner);
        if r.Ok? {
          ghost var acc := Grown(old(writer), "(", i.value);
          writer := writer + ")";
          acc := Grown(old(writer), acc, ")");
        }
      case Binary(_, _, _, _) => r := VisitBinary(e);
      case Access(_, _, _) => r := VisitAccess(e);
      case Call(_, _, _) => r := VisitCall(e);
      case PlcList(_, _) => r := VisitPlcList(e);
    }

    /** A character literal in single quotes, a string literal in double
        quotes, anything else as it is; nothing is escaped. */
    method VisitLiteral(e: Expr) returns (r: Result<(), Failure>)
      requires e.Literal?
      modifies this
      decreases e, 0
      ensures Wrote(r, ExprText(e), old(writer), writer)
    {
      if e.litType.None? {
        return Err(Unannotated);
      }
      var text := LiteralText(e.lit);
      if text.Err? {
        return Err(text.error);
      }
      if e.litType.value == Character {
        writer := writer + "'";
        writer := writer + text.value;
        ghost var acc := Grown(old(writer), "'", text.value);
        writer := writer + "'";
        acc := Grown(old(writer), acc, "'");
      } else if e.litType.value == String {
        writer := writer + "\"";
        writer := writer + text.value;
        ghost var acc := Grown(old(writer), "\"", text.value);
        writer := writer + "\"";
        acc := Grown(old(writer), acc, "\"");
      } else {
        writer := writer + text.value;
      }
      return Ok(());
    }

    /** `^` as a call of `Math.pow`, any other operator between its
        operands. */
    method VisitBinary(e: Expr) returns (r: Result<(), Failure>)
      requires e.Binary?
      modifies this
      decreases e, 0
      ensures Wrote(r, ExprText(e), old(writer), writer)
    {
      ghost var lt := ExprText(e.left);
      ghost var rt := ExprText(e.right);
      if e.op == "^" {
        writer := writer + "Math.pow(";
        r := VisitExpression(e.left);
        if r.Err? {
          return r;
        }
        ghost var acc := Grown(old(writer), "Math.pow(", lt.value);
        writer := writer + ", ";
        acc := Grown(old(writer), acc, ", ");
        r := VisitExpression(e.right);
        if r.Err? {
          return r;
        }
        acc := Grown(old(writer), acc, rt.value);
        writer := writer + ")";
        acc := Grown(old(writer), acc, ")");
      } else {
        r := VisitExpression(e.left);
        if r.Err? {
          return r;
        }
        ghost var acc := lt.value;
        writer := writer + " ";
        acc := Grown(old(writer), acc, " ");
        writer := writer + e.op;
        acc := Grown(old(writer), acc, e.op);
        writer := writer + " ";
        acc := Grown(old(writer), acc, " ");
        r := VisitExpression(e.right);
        if r.Err? {
          return r;
        }
        acc := Grown(old(writer), acc, rt.value);
      }
    }

    method VisitAccess(e: Expr) returns (r: Result<(), Failure>)
      requires e.Access?
      modifies this
      decreases e, 0
      ensures Wrote(r, ExprText(e), old(writer), writer)
    {
      if e.variable.None? {
        return Err(Unannotated);
      }
      if e.offset.Some? {
        ghost var o := ExprText(e.offset.value);
        writer := writer + e.variable.value.jvmName;
        writer := writer + "[";
        ghost var acc := Grown(old(writer), e.variable.value.jvmName, "[");
        r := VisitExpression(e.offset.value);
        if r.Err? {
          return r;
        }
        acc := Grown(old(writer), acc, o.value);
        writer := writer + "]";
        acc := Grown(old(writer), acc, "]");
      } else {
        writer := writer + e.variable.value.jvmName;
      }
      return Ok(());
    }

    method VisitCall(e: Expr) returns (r: Result<(), Failure>)
      requires e.Call?
      modifies this
      decreases e, 0
      ensures Wrote(r, ExprText(e), old(writer), writer)
    {
      if e.fn.None? {
        return Err(Unannotated);
      }
      ghost var a := ListText(e.args);
      writer := writer + e.fn.value.jvmName;
      writer := writer + "(";
      ghost var acc := Grown(old(writer), e.fn.value.jvmName, "(");
      r := VisitArguments(e.args);
      if r.Err? {
        return r;
      }
      acc := Grown(old(writer), acc, a.value);
      writer := writer + ")";
      acc := Grown(old(writer), acc, ")");
    }

    /** A list literal in braces; an empty one fails, as the last element
        it looks up does not exist. */
    method VisitPlcList(e: Expr) returns (r: Result<(), Failure>)
      requires e.PlcList?
      modifies this
      decreases e, 0
      ensures Wrote(r, ExprText(e), old(writer), writer)
    {
      writer := writer + "{";
      if e.values == [] {
        return Err(EmptyList);
      }
      ghost var a := ListText(e.values);
      r := VisitArguments(e.values);
      if r.Err? {
        return r;
      }
      ghost var acc := Grown(old(writer), "{", a.value);
      writer := writer + "}";
      acc := Grown(old(writer), acc, "}");
    }

    /** Every expression but the last followed by `", "`, then the last. */
    method VisitArguments(es: seq<Expr>) returns (r: Result<(), Failure>)
      modifies this
      decreases es
      ensures Wrote(r, ListText(es), old(writer), writer)
    {
      if es == [] {
        return Ok(());
      }
      var i := 0;
      ghost var done := "";
      assert es[0..] == es;
      ThenNothing(ListText(es));
      while i < |es| - 1
        invariant 0 <= i <= |es| - 1
        invariant writer == old(writer) + done
        invariant ListText(es) == Then(done, ListText(es[i..]))
      {
        ghost var t := ExprText(es[i]);
        ListStep(es, i, done);
        var x := VisitExpression(es[i]);
        if x.Err? {
          return x;
        }
        done := Grown(old(writer), done, t.value);
        writer := writer + ", ";
        done := Grown(old(writer), done, ", ");
        i := i + 1;
      }
      assert es[i..] == [es[|es| - 1]];
      ghost var t := ExprText(es[i]);
      r := VisitExpression(es[i]);
      if r.Ok? {
        done := Grown(old(writer), done, t.value);
      }
    }

    /* ---------------- statements ---------------- */

    method VisitStatement(st: Stmt) returns (r: Result<(), Failure>)
      modifies this
      decreases st, 1
      ensures Wrote(r, StmtText(st), old(writer), writer)
    {
      match st
      case ExprStmt(e) =>
        ghost var t := ExprText(e);
        r := VisitExpression(e);
        if r.Ok? {
          writer := writer + ";";
          ghost var acc := Grown(old(writer), t.value, ";");
        }
      case Declaration(_, _, _, _) => r := VisitDeclaration(st);
      case Assignment(receiver, value) => r := VisitAssignment(st);
      case If(_, _, _) => r := VisitIf(st);
      case Switch(_, _) => r := VisitSwitch(st);
      case While(_, _) => r := VisitWhile(st);
      case Return(value) =>
        ghost var t := ExprText(value);
        writer := writer + "return ";
        r := VisitExpression(value);
        if r.Ok? {
          ghost var acc := Grown(old(writer), "return ", t.value);
          writer := writer + ";";
          acc := Grown(old(writer), acc, ";");
        }
    }

    method VisitDeclaration(st: Stmt) returns (r: Result<(), Failure>)
      requires st.Declaration?
      modifies this
      decreases st, 0
      ensures Wrote(r, StmtText(st), old(writer), writer)
    {
      if st.variable.None? {
        return Err(Unannotated);
      }
      var head := JvmName(st.variable.value.ty) + " " + st.name;
      writer := writer + head;
      ghost var acc := head;
      if st.init.Some? {
        ghost var i := ExprText(st.init.value);
        writer := writer + " = ";
        acc := Grown(old(writer), acc, " = ");
        r := VisitExpression(st.init.value);
        if r.Err? {
          return r;
        }
        acc := Grown(old(writer), acc, i.value);
      }
      writer := writer + ";";
      acc := Grown(old(writer), acc, ";");
      return Ok(());
    }

    method VisitAssignment(st: Stmt) returns (r: Result<(), Failure>)
      requires st.Assignment?
      modifies this
      decreases st, 0
      ensures Wrote(r, StmtText(st), old(writer), writer)
    {
      ghost var rt := ExprText(st.receiver);
      ghost var vt := ExprText(st.value);
      r := VisitExpression(st.receiver);
      if r.Err? {
        return r;
      }
      ghost var acc := rt.value;
      writer := writer + " = ";
      acc := Grown(old(writer), acc, " = ");
      r := VisitExpression(st.value);
      if r.Err? {
        return r;
      }
      acc := Grown(old(writer), acc, vt.value);
      writer := writer + ";";
      acc := Grown(old(writer), acc, ";");
    }

    /** The else part is written only when it has statements. */
    method VisitIf(st: Stmt) returns (r: Result<(), Failure>)
      requires st.If?
      modifies this
      decreases st, 0
      ensures Wrote(r, StmtText(st), old(writer), writer)
    {
      ghost var c := ExprText(st.cond);
      ghost var t := BlockText(st.thenStmts, 1);
      ghost var e := BlockText(st.elseStmts, 1);
      writer := writer + "if (";
      r := VisitExpression(st.cond);
      if r.Err? {
        return r;
      }
      ghost var acc := Grown(old(writer), "if (", c.value);
      writer := writer + ") {";
      acc := Grown(old(writer), acc, ") {");
      r := VisitBlock(st.thenStmts, 1);
      if r.Err? {
        return r;
      }
      acc := Grown(old(writer), acc, t.value);
      NewLine(0);
      acc := Grown(old(writer), acc, Newline(0));
      writer := writer + "}";
      acc := Grown(old(writer), acc, "}");
      if st.elseStmts != [] {
        writer := writer + " else {";
        acc := Grown(old(writer), acc, " else {");
        r := VisitBlock(st.elseStmts, 1);
        if r.Err? {
          return r;
        }
        acc := Grown(old(writer), acc, e.value);
        NewLine(0);
        acc := Grown(old(writer), acc, Newline(0));
        writer := writer + "}";
        acc := Grown(old(writer), acc, "}");
      }
    }

    method VisitSwitch(st: Stmt) returns (r: Result<(), Failure>)
      requires st.Switch?
      modifies this
      decreases st, 0
      ensures Wrote(r, StmtText(st), old(writer), writer)
    {
      ghost var c := ExprText(st.cond);
      ghost var cs := CasesText(st.cases);
      writer := writer + "switch (";
      r := VisitExpression(st.cond);
      if r.Err? {
        return r;
      }
      ghost var acc := Grown(old(writer), "switch (", c.value);
      writer := writer + ") {";
      acc := Grown(old(writer), acc, ") {");
      r := VisitCases(st.cases);
      if r.Err? {
        return r;
      }
      acc := Grown(old(writer), acc, cs.value);
      NewLine(0);
      acc := Grown(old(writer), acc, Newline(0));
      writer := writer + "}";
      acc := Grown(old(writer), acc, "}");
    }

    /** Each case after `newline(1)`. */
    method VisitCases(cs: seq<Case>) returns (r: Result<(), Failure>)
      modifies this
      decreases cs
      ensures Wrote(r, CasesText(cs), old(writer), writer)
    {
      var i := 0;
      ghost var done := "";
      assert cs[0..] == cs;
      ThenNothing(CasesText(cs));
      while i < |cs|
        invariant 0 <= i <= |cs|
        invariant writer == old(writer) + done
        invariant CasesText(cs) == Then(done, CasesText(cs[i..]))
      {
        ghost var t := CaseText(cs[i]);
        CasesStep(cs, i, done);
        NewLine(1);
        done := Grown(old(writer), done, Newline(1));
        var x := VisitCase(cs[i]);
        if x.Err? {
          return x;
        }
        done := Grown(old(writer), done, t.value);
        i := i + 1;
      }
      assert cs[i..] == [] && done + "" == done;
      return Ok(());
    }

    method VisitCase(c: Case) returns (r: Result<(), Failure>)
      modifies this
      decreases c
      ensures Wrote(r, CaseText(c), old(writer), writer)
    {
      ghost var body := BlockText(c.stmts, 2);
      ghost var acc;
      if c.value.None? {
        writer := writer + "default:";
        acc := "default:";
      } else {
        ghost var v := ExprText(c.value.value);
        writer := writer + "case ";
        r := VisitExpression(c.value.value);
        if r.Err? {
          return r;
        }
        acc := Grown(old(writer), "case ", v.value);
        writer := writer + ":";
        acc := Grown(old(writer), acc, ":");
      }
      r := VisitBlock(c.stmts, 2);
      if r.Ok? {
        acc := Grown(old(writer), acc, body.value);
      }
    }

    /** An empty body is written as `{}` on the same line. */
    method VisitWhile(st: Stmt) returns (r: Result<(), Failure>)
      requires st.While?
      modifies this
      decreases st, 0
      ensures Wrote(r, StmtText(st), old(writer), writer)
    {
      ghost var c := ExprText(st.cond);
      ghost var b := BlockText(st.body, 1);
      writer := writer + "while (";
      r := VisitExpression(st.cond);
      if r.Err? {
        return r;
      }
      ghost var acc := Grown(old(writer), "while (", c.value);
      if st.body == [] {
        writer := writer + ") {}";
        acc := Grown(old(writer), acc, ") {}");
      } else {
        writer := writer + ") {";
        acc := Grown(old(writer), acc, ") {");
        r := VisitBlock(st.body, 1);
        if r.Err? {
          return r;
        }
        acc := Grown(old(writer), acc, b.value);
        NewLine(0);
        acc := Grown(old(writer), acc, Newline(0));
        writer := writer + "}";
        acc := Grown(old(writer), acc, "}");
      }
    }

    /** Each statement after `newline(k)`. */
    method VisitBlock(ss: seq<Stmt>, k: nat) returns (r: Result<(), Failure>)
      modifies this
      decreases ss
      ensures Wrote(r, BlockText(ss, k), old(writer), writer)
    {
      var i := 0;
      ghost var done := "";
      assert ss[0..] == ss;
      ThenNothing(BlockText(ss, k));
      while i < |ss|
        invariant 0 <= i <= |ss|
        invariant writer == old(writer) + done
        invariant BlockText(ss, k) == Then(done, BlockText(ss[i..], k))
      {
        ghost var t := StmtText(ss[i]);
        BlockStep(ss, k, i, done);
        NewLine(k);
        done := Grown(old(writer), done, Newline(k));
        var x := VisitStatement(ss[i]);
        if x.Err? {
          return x;
        }
        done := Grown(old(writer), done, t.value);
        i := i + 1;
      }
      assert ss[i..] == [] && done + "" == done;
      return Ok(());
    }

    /* ---------------- declarations ---------------- */

    method VisitGlobal(g: Global) returns (r: Result<(), Failure>)
      modifies this
      ensures Wrote(r, GlobalText(g), old(writer), writer)
    {
      if g.variable.None? {
        return Err(Unannotated);
      }
      var v := g.variable.value;
      if v.jvmName == "list" {
        var head := JvmName(v.ty) + "[] " + v.name + " = ";
        writer := writer + head;
        if g.value.None? {
          return Err(MissingValue);
        }
        ghost var t := ExprText(g.value.value);
        r := VisitExpression(g.value.value);
        if r.Err? {
          return r;
        }
        ghost var acc := Grown(old(writer), head, t.value);
        writer := writer + ";";
        acc := Grown(old(writer), acc, ";");
      } else {
        var head := (if g.mutable then "" else "final ") + g.name + " " + v.name;
        writer := writer + head;
        ghost var acc := head;
        if g.value.Some? {
          ghost var t := ExprText(g.value.value);
          writer := writer + " = ";
          acc := Grown(old(writer), acc, " = ");
          r := VisitExpression(g.value.value);
          if r.Err? {
            return r;
          }
          acc := Grown(old(writer), acc, t.value);
          writer := writer + ";";
          acc := Grown(old(writer), acc, ";");
        }
      }
      return Ok(());
    }

    /** Each parameter with its own type name, separated by `", "`. */
    method VisitParameters(types: seq<string>, params: seq<string>) returns (r: Result<(), Failure>)
      modifies this
      ensures Wrote(r, Parameters(types, params), old(writer), writer)
    {
      if params == [] {
        return Ok(());
      }
      if |types| < |params| {
        return Err(MissingParameterType);
      }
      VisitParameterList(types, params);
      return Ok(());
    }

    /** The loop of `VisitParameters` once every parameter has a type name:
        all but the last followed by `", "`, then the last. */
    method VisitParameterList(types: seq<string>, params: seq<string>)
      requires 0 < |params| <= |types|
      modifies this
      ensures Parameters(types, params).Ok? && writer == old(writer) + Parameters(types, params).value
    {
      var i := 0;
      ghost var done := "";
      assert types[0..] == types && params[0..] == params;
      ThenNothing(Parameters(types, params));
      while i < |params| - 1
        invariant 0 <= i <= |params| - 1
        invariant writer == old(writer) + done
        invariant Parameters(types, params) == Then(done, Parameters(types[i..], params[i..]))
      {
        ParametersStep(types, params, i, done);
        writer := writer + types[i] + " " + params[i];
        done := Grown(old(writer), done, types[i] + " " + params[i]);
        writer := writer + ", ";
        done := Grown(old(writer), done, ", ");
        i := i + 1;
      }
      ParametersLast(types, params, i);
      writer := writer + types[i] + " " + params[i];
      done := Grown(old(writer), done, types[i] + " " + params[i]);
    }

    method VisitFunction(f: Function) returns (r: Result<(), Failure>)
      modifies this
      ensures Wrote(r, FunctionText(f), old(writer), writer)
    {
      if f.fn.None? {
        return Err(Unannotated);
      }
      ghost var ps := Parameters(f.paramTypeNames, f.params);
      ghost var body := BlockText(f.stmts, 2);
      var head := JvmName(f.fn.value.returnType) + " " + f.fn.value.name + "(";
      writer := writer + head;
      ghost var acc := head;
      r := VisitParameters(f.paramTypeNames, f.params);
      if r.Err? {
        return r;
      }
      acc := Grown(old(writer), acc, ps.value);
      writer := writer + ") {";
      acc := Grown(old(writer), acc, ") {");
      if f.stmts == [] {
        writer := writer + "}";
        acc := Grown(old(writer), acc, "}");
      } else {
        r := VisitBlock(f.stmts, 2);
        if r.Err? {
          return r;
        }
        acc := Grown(old(writer), acc, body.value);
        NewLine(1);
        acc := Grown(old(writer), acc, Newline(1));
        writer := writer + "}";
        acc := Grown(old(writer), acc, "}");
      }
    }

    /** Each global after `newline(1)`. */
    method VisitGlobals(gs: seq<Global>) returns (r: Result<(), Failure>)
      modifies this
      ensures Wrote(r, GlobalsText(gs), old(writer), writer)
    {
      var i := 0;
      ghost var done := "";
      assert gs[0..] == gs;
      ThenNothing(GlobalsText(gs));
      while i < |gs|
        invariant 0 <= i <= |gs|
        invariant writer == old(writer) + done
        invariant GlobalsText(gs) == Then(done, GlobalsText(gs[i..]))
      {
        ghost var t := GlobalText(gs[i]);
        GlobalsStep(gs, i, done);
        NewLine(1);
        done := Grown(old(writer), done, Newline(1));
        var x := VisitGlobal(gs[i]);
        if x.Err? {
          return x;
        }
        done := Grown(old(writer), done, t.value);
        i := i + 1;
      }
      assert gs[i..] == [] && done + "" == done;
      return Ok(());
    }

    /** Each method after `newline(1)`. */
    method VisitFunctions(fs: seq<Function>) returns (r: Result<(), Failure>)
      modifies this
      ensures Wrote(r, FunctionsText(fs), old(writer), writer)
    {
      var i := 0;
      ghost var done := "";
      assert fs[0..] == fs;
      ThenNothing(FunctionsText(fs));
      while i < |fs|
        invariant 0 <= i <= |fs|
        invariant writer == old(writer) + done
        invariant FunctionsText(fs) == Then(done, FunctionsText(fs[i..]))
      {
        ghost var t := FunctionText(fs[i]);
        FunctionsStep(fs, i, done);
        NewLine(1);
        done := Grown(old(writer), done, Newline(1));
        var x := VisitFunction(fs[i]);
        if x.Err? {
          return x;
        }
        done := Grown(old(writer), done, t.value);
        i := i + 1;
      }
      assert fs[i..] == [] && done + "" == done;
      return Ok(());
    }

    /** The class `Main`: globals, the Java entry point, then methods. */
    method VisitSource(src: Source) returns (r: Result<(), Failure>)
      modifies this
      ensures Wrote(r, SourceText(src), old(writer), writer)
    {
      writer := writer + "public class Main {";
      ghost var acc := "public class Main {";
      NewLine(0);
      acc := Grown(old(writer), acc, Newline(0));
      ghost var gs := GlobalsText(src.globals);
      r := VisitGlobals(src.globals);
      if r.Err? {
        return r;
      }
      acc := Grown(old(writer), acc, gs.value);
      NewLine(1);
      acc := Grown(old(writer), acc, Newline(1));
      writer := writer + "public static void main(String[] args) {";
      acc := Grown(old(writer), acc, "public static void main(String[] args) {");
      NewLine(2);
      acc := Grown(old(writer), acc, Newline(2));
      writer := writer + "System.exit(new Main().main());";
      acc := Grown(old(writer), acc, "System.exit(new Main().main());");
      NewLine(1);
      acc := Grown(old(writer), acc, Newline(1));
      writer := writer + "}";
      acc := Grown(old(writer), acc, "}");
      NewLine(0);
      acc := Grown(old(writer), acc, Newline(0));
      ghost var fs := FunctionsText(src.functions);
      r := VisitFunctions(src.functions);
      if r.Err? {
        return r;
      }
      acc := Grown(old(writer), acc, fs.value);
      NewLine(0);
      acc := Grown(old(writer), acc, Newline(0));
      NewLine(0);
      acc := Grown(old(writer), acc, Newline(0));
      writer := writer + "}";
      acc := Grown(old(writer), acc, "}");
    }
  }
}
