/** The analyzer as an object: its `scope` and `returnType` fields change
    as it walks a program, and each visit returns the node with its
    annotation slots filled in.  Every visit is proved to agree with the
    spec function of module `Analysis` that describes it. */
module TypeChecker {
  import opened Common
  import opened Syntax
  import opened Scopes
  import opened Analysis

  /** A visit that changes the scope agrees with its spec: on success it
      returns the spec's node and leaves the spec's scope; on failure it
      reports the spec's failure. */
  predicate Agrees<T(==)>(r: Result<T, Failure>, spec: Result<(AScope, T), Failure>, scope: AScope)
  {
    match spec
    case Ok(p) => r == Ok(p.1) && scope == p.0
    case Err(f) => r == Err(f)
  }

  /** What a loop still has to produce, after the items it has produced. */
  function Prepend<X>(done: seq<X>, rest: Result<(AScope, seq<X>), Failure>): Result<(AScope, seq<X>), Failure>
  {
    match rest
    case Ok(p) => Ok((p.0, done + p.1))
    case Err(f) => Err(f)
  }

  function PrependValues<X>(done: seq<X>, rest: Result<seq<X>, Failure>): Result<seq<X>, Failure>
  {
    match rest
    case Ok(xs) => Ok(done + xs)
    case Err(f) => Err(f)
  }

  function PrependFunctions(done: seq<Function>, rest: Result<(AScope, Option<Type>, seq<Function>), Failure>)
    : Result<(AScope, Option<Type>, seq<Function>), Failure>
  {
    match rest
    case Ok(p) => Ok((p.0, p.1, done + p.2))
    case Err(f) => Err(f)
  }

  lemma PrependNothing<X>(r: Result<(AScope, seq<X>), Failure>)
    ensures Prepend([], r) == r
  {
    if r.Ok? {
      assert [] + r.value.1 == r.value.1;
    }
  }

  lemma PrependNoValues<X>(r: Result<seq<X>, Failure>)
    ensures PrependValues([], r) == r
  {
    if r.Ok? {
      assert [] + r.value == r.value;
    }
  }

  lemma PrependNoFunctions(r: Result<(AScope, Option<Type>, seq<Function>), Failure>)
    ensures PrependFunctions([], r) == r
  {
    if r.Ok? {
      assert [] + r.value.2 == r.value.2;
    }
  }

  /* One step of each loop: the remaining work after item `i` in terms of
     the work after item `i + 1`. */

  lemma BlockStep(s: AScope, rt: Option<Type>, ss: seq<Stmt>, i: nat, done: seq<Stmt>)
    requires i < |ss| && |s| > 0
    ensures var x := AnalyzeStmt(s, rt, ss[i]);
            Prepend(done, AnalyzeBlock(s, rt, ss[i..]))
            == if x.Err? then Err(x.error) else Prepend(done + [x.value.1], AnalyzeBlock(x.value.0, rt, ss[i + 1..]))
  {
    assert ss[i..][0] == ss[i] && ss[i..][1..] == ss[i + 1..];
    var x := AnalyzeStmt(s, rt, ss[i]);
    if x.Ok? {
      var rest := AnalyzeBlock(x.value.0, rt, ss[i + 1..]);
      if rest.Ok? {
        assert done + ([x.value.1] + rest.value.1) == (done + [x.value.1]) + rest.value.1;
      }
    }
  }

  lemma ArgumentsStep(s: AScope, params: seq<Type>, args: seq<Expr>, i: nat, done: seq<Expr>)
    requires i < |args| && i < |params|
    ensures var a := AnalyzeExpr(s, args[i]);
            PrependValues(done, AnalyzeArguments(s, params[i..], args[i..]))
            == if a.Err? then Err(a.error)
               else if TypeOf(a.value).Err? then Err(TypeOf(a.value).error)
               else if !RequireAssignable(params[i], TypeOf(a.value).value) then Err(NotAssignable(params[i], TypeOf(a.value).value))
               else PrependValues(done + [a.value], AnalyzeArguments(s, params[i + 1..], args[i + 1..]))
  {
    assert args[i..][0] == args[i] && args[i..][1..] == args[i + 1..];
    assert params[i..][0] == params[i] && params[i..][1..] == params[i + 1..];
    var a := AnalyzeExpr(s, args[i]);
    if a.Ok? {
      var rest := AnalyzeArguments(s, params[i + 1..], args[i + 1..]);
      if rest.Ok? {
        assert done + ([a.value] + rest.value) == (done + [a.value]) + rest.value;
      }
    }
  }

  lemma ArgumentsBeyondParameters(s: AScope, params: seq<Type>, args: seq<Expr>, i: nat)
    requires i < |args| && i == |params|
    ensures var a := AnalyzeExpr(s, args[i]);
            AnalyzeArguments(s, params[i..], args[i..]) == if a.Err? then Err(a.error) else Err(Missing)
  {
    assert args[i..][0] == args[i];
    assert params[i..] == [];
  }

  lemma CaseValuesStep(s: AScope, cond: Expr, cases: seq<Case>, i: nat, k: nat, done: seq<Case>)
    requires i < k <= |cases| && cases[i].value.Some?
    ensures var v := AnalyzeExpr(s, cases[i].value.value);
            PrependValues(done, AnalyzeCaseValues(s, cond, cases[i..k]))
            == if v.Err? then Err(v.error)
               else if TypeOf(cond).Err? then Err(TypeOf(cond).error)
               else if TypeOf(v.value).Err? then Err(TypeOf(v.value).error)
               else if !RequireAssignable(TypeOf(cond).value, TypeOf(v.value).value)
               then Err(NotAssignable(TypeOf(cond).value, TypeOf(v.value).value))
               else PrependValues(done + [Case(Some(v.value), cases[i].stmts)], AnalyzeCaseValues(s, cond, cases[i + 1..k]))
  {
    assert cases[i..k][0] == cases[i] && cases[i..k][1..] == cases[i + 1..k];
    var v := AnalyzeExpr(s, cases[i].value.value);
    if v.Ok? {
      var rest := AnalyzeCaseValues(s, cond, cases[i + 1..k]);
      var c := Case(Some(v.value), cases[i].stmts);
      if rest.Ok? {
        assert done + ([c] + rest.value) == (done + [c]) + rest.value;
      }
    }
  }

  lemma TypesNamedStep(names: seq<string>, i: nat, done: seq<Type>)
    requires i < |names|
    ensures PrependValues(done, TypesNamed(names[i..]))
            == if TypeNamed(names[i]).None? then Err(UnknownType(names[i]))
               else PrependValues(done + [TypeNamed(names[i]).value], TypesNamed(names[i + 1..]))
  {
    assert names[i..][0] == names[i] && names[i..][1..] == names[i + 1..];
    if TypeNamed(names[i]).Some? {
      var rest := TypesNamed(names[i + 1..]);
      if rest.Ok? {
        var t := TypeNamed(names[i]).value;
        assert done + ([t] + rest.value) == (done + [t]) + rest.value;
      }
    }
  }

  /** The loop that looks for `main`: the last function of that name. */
  method FindMain(fs: seq<Function>) returns (main: Option<Function>)
    ensures main == MainOf(fs)
  {
    main := None;
    for j := 0 to |fs|
      invariant main == MainOf(fs[..j])
    {
      assert fs[..j + 1][..j] == fs[..j];
      if fs[j].name == "main" {
        main := Some(fs[j]);
      }
    }
    assert fs[..|fs|] == fs;
  }

  lemma GlobalsStep(s: AScope, gs: seq<Global>, i: nat, done: seq<Global>)
    requires i < |gs| && |s| > 0
    ensures var x := AnalyzeGlobal(s, gs[i]);
            Prepend(done, AnalyzeGlobals(s, gs[i..]))
            == if x.Err? then Err(x.error) else Prepend(done + [x.value.1], AnalyzeGlobals(x.value.0, gs[i + 1..]))
  {
    assert gs[i..][0] == gs[i] && gs[i..][1..] == gs[i + 1..];
    var x := AnalyzeGlobal(s, gs[i]);
    if x.Ok? {
      var rest := AnalyzeGlobals(x.value.0, gs[i + 1..]);
      if rest.Ok? {
        assert done + ([x.value.1] + rest.value.1) == (done + [x.value.1]) + rest.value.1;
      }
    }
  }

  lemma FunctionsStep(s: AScope, rt: Option<Type>, fs: seq<Function>, i: nat, done: seq<Function>)
    requires i < |fs| && |s| > 0
    ensures var x := AnalyzeFunction(s, rt, fs[i]);
            PrependFunctions(done, AnalyzeFunctions(s, rt, fs[i..]))
            == if x.Err? then Err(x.error)
               else PrependFunctions(done + [x.value.2], AnalyzeFunctions(x.value.0, x.value.1, fs[i + 1..]))
  {
    assert fs[i..][0] == fs[i] && fs[i..][1..] == fs[i + 1..];
    var x := AnalyzeFunction(s, rt, fs[i]);
    if x.Ok? {
      var rest := AnalyzeFunctions(x.value.0, x.value.1, fs[i + 1..]);
      if rest.Ok? {
        assert done + ([x.value.2] + rest.value.2) == (done + [x.value.2]) + rest.value.2;
      }
    }
  }

  /** The symbol the analyzer's constructor defines for `print`. */
  const PrintSymbol: FunSym := FunSym("print", "System.out.println", [Any], Nil)

  class Analyzer {
    var scope: AScope
    var returnType: Option<Type>

    /** A child of `parent` holding the `print` function. */
    constructor(parent: AScope)
      ensures scope == parent + [Frame(map[], map[("print", 1) := PrintSymbol])]
      ensures returnType == None
    {
      var defined := DefineFunction(Push(parent), "print", 1, PrintSymbol);
      scope := defined.value;
      returnType := None;
    }

    /* ---------------- expressions: they only read the scope ---------------- */

    method VisitExpression(e: Expr) returns (r: Result<Expr, Failure>)
      decreases e, 1
      ensures r == AnalyzeExpr(scope, e)
    {
      match e
      case Literal(_, _) => r := VisitLiteral(e);
      case Group(_, _) => r := VisitGroup(e);
      case Binary(_, _, _, _) => r := VisitBinary(e);
      case Access(_, _, _) => r := VisitAccess(e);
      case Call(_, _, _) => r := VisitCall(e);
      case PlcList(_, _) => r := VisitList(e);
    }

    method VisitLiteral(e: Expr) returns (r: Result<Expr, Failure>)
      requires e.Literal?
      ensures r == AnalyzeExpr(scope, e)
    {
      match e.lit
      case LNil => r := Ok(e);
      case LBool(_) => r := Ok(Literal(e.lit, Some(Boolean)));
      case LChar(_) => r := Ok(Literal(e.lit, Some(Character)));
      case LStr(_) => r := Ok(Literal(e.lit, Some(String)));
      case LInt(i) =>
        if i > IntMax || i < IntMin {
          r := Err(IntegerRange);
        } else {
          r := Ok(Literal(e.lit, Some(Integer)));
        }
      case LDec(d) =>
        if d.unscaled <= 0 {
          r := Err(DecimalRange);
        } else {
          r := Ok(Literal(e.lit, Some(Decimal)));
        }
    }

    method VisitGroup(e: Expr) returns (r: Result<Expr, Failure>)
      requires e.Group?
      decreases e, 0
      ensures r == AnalyzeExpr(scope, e)
    {
      if !e.inner.Binary? {
        return Err(NotBinary);
      }
      var a := VisitExpression(e.inner);
      if a.Err? {
        return Err(a.error);
      }
      var t := TypeOf(a.value);
      if t.Err? {
        return Err(t.error);
      }
      return Ok(Group(a.value, Some(t.value)));
    }

    method VisitBinary(e: Expr) returns (r: Result<Expr, Failure>)
      requires e.Binary?
      decreases e, 0
      ensures r == AnalyzeExpr(scope, e)
    {
      var a := VisitExpression(e.left);
      if a.Err? {
        return Err(a.error);
      }
      var b := VisitExpression(e.right);
      if b.Err? {
        return Err(b.error);
      }
      var t := BinaryType(e.op, AnnotatedType(a.value), AnnotatedType(b.value));
      if t.Err? {
        return Err(t.error);
      }
      return Ok(Binary(e.op, a.value, b.value, Some(t.value)));
    }

    method VisitAccess(e: Expr) returns (r: Result<Expr, Failure>)
      requires e.Access?
      ensures r == AnalyzeExpr(scope, e)
    {
      var found := LookupVariable(scope, e.name);
      if found.None? {
        return Err(UndefinedVariable(e.name));
      }
      if e.offset.Some? {
        var t := AnnotatedType(e.offset.value);
        if t.None? {
          return Err(Unset);
        }
        if t.value != Integer {
          return Err(OffsetNotInteger);
        }
      }
      return Ok(Access(e.offset, e.name, Some(found.value.1)));
    }

    method VisitCall(e: Expr) returns (r: Result<Expr, Failure>)
      requires e.Call?
      decreases e, 0
      ensures r == AnalyzeExpr(scope, e)
    {
      var f := LookupFunction(scope, e.name, |e.args|);
      if f.None? {
        return Err(UndefinedFunction(e.name, |e.args|));
      }
      var params := f.value.paramTypes;
      var done: seq<Expr> := [];
      var i := 0;
      assert e.args[0..] == e.args && params[0..] == params;
      PrependNoValues(AnalyzeArguments(scope, params, e.args));
      while i < |e.args|
        invariant 0 <= i <= |e.args| && i <= |params|
        invariant AnalyzeArguments(scope, params, e.args)
                  == PrependValues(done, AnalyzeArguments(scope, params[i..], e.args[i..]))
      {
        assert e.args[i] in e.args;
        var a := VisitExpression(e.args[i]);
        if i == |params| {
          ArgumentsBeyondParameters(scope, params, e.args, i);
        } else {
          ArgumentsStep(scope, params, e.args, i, done);
        }
        if a.Err? {
          return Err(a.error);
        }
        if i >= |params| {
          return Err(Missing);
        }
        var t := TypeOf(a.value);
        if t.Err? {
          return Err(t.error);
        }
        if !RequireAssignable(params[i], t.value) {
          return Err(NotAssignable(params[i], t.value));
        }
        done := done + [a.value];
        i := i + 1;
      }
      assert e.args[i..] == [] && done + [] == done;
      return Ok(Call(e.name, done, f));
    }

    method VisitList(e: Expr) returns (r: Result<Expr, Failure>)
      requires e.PlcList?
      ensures r == AnalyzeExpr(scope, e)
    {
      var i := 0;
      while i < |e.values|
        invariant 0 <= i <= |e.values|
        invariant CheckElements(e.listType, e.values) == CheckElements(e.listType, e.values[i..])
      {
        assert e.values[i..][0] == e.values[i] && e.values[i..][1..] == e.values[i + 1..];
        if e.listType.None? {
          return Err(Unset);
        }
        var t := TypeOf(e.values[i]);
        if t.Err? {
          return Err(t.error);
        }
        if !RequireAssignable(e.listType.value, t.value) {
          return Err(NotAssignable(e.listType.value, t.value));
        }
        i := i + 1;
      }
      return Ok(e);
    }

    /* ---------------- statements ---------------- */

    method VisitStatements(ss: seq<Stmt>) returns (r: Result<seq<Stmt>, Failure>)
      requires |scope| > 0
      modifies this
      decreases ss, 0
      ensures Agrees(r, AnalyzeBlock(old(scope), old(returnType), ss), scope)
      ensures returnType == old(returnType)
    {
      var done: seq<Stmt> := [];
      var i := 0;
      assert ss[0..] == ss;
      PrependNothing(AnalyzeBlock(scope, returnType, ss));
      while i < |ss|
        invariant 0 <= i <= |ss| && |scope| > 0 && returnType == old(returnType)
        invariant AnalyzeBlock(old(scope), returnType, ss) == Prepend(done, AnalyzeBlock(scope, returnType, ss[i..]))
      {
        BlockStep(scope, returnType, ss, i, done);
        var x := VisitStatement(ss[i]);
        if x.Err? {
          return Err(x.error);
        }
        done := done + [x.value];
        i := i + 1;
      }
      assert ss[i..] == [] && done + [] == done;
      return Ok(done);
    }

    method VisitStatement(st: Stmt) returns (r: Result<Stmt, Failure>)
      requires |scope| > 0
      modifies this
      decreases st, 1
      ensures Agrees(r, AnalyzeStmt(old(scope), old(returnType), st), scope)
      ensures returnType == old(returnType)
    {
      match st
      case ExprStmt(_) => r := VisitExpressionStatement(st);
      case Declaration(_, _, _, _) => r := VisitDeclaration(st);
      case Assignment(_, _) => r := VisitAssignment(st);
      case If(_, _, _) => r := VisitIf(st);
      case Switch(_, _) => r := VisitSwitch(st);
      case While(_, _) => r := VisitWhile(st);
      case Return(_) => r := VisitReturn(st);
    }

    method VisitExpressionStatement(st: Stmt) returns (r: Result<Stmt, Failure>)
      requires st.ExprStmt? && |scope| > 0
      ensures Agrees(r, AnalyzeStmt(scope, returnType, st), scope)
    {
      if !st.expr.Call? {
        return Err(NotCall);
      }
      var a := VisitExpression(st.expr);
      if a.Err? {
        return Err(a.error);
      }
      return Ok(ExprStmt(a.value));
    }

    method VisitDeclaration(st: Stmt) returns (r: Result<Stmt, Failure>)
      requires st.Declaration? && |scope| > 0
      modifies this
      ensures Agrees(r, AnalyzeDeclaration(old(scope), st), scope)
      ensures returnType == old(returnType)
    {
      if st.typeName.None? && st.init.None? {
        return Err(NoTypeOrValue);
      }
      var declared: Option<Type> := None;
      if st.typeName.Some? {
        declared := TypeNamed(st.typeName.value);
        if declared.None? {
          return Err(UnknownType(st.typeName.value));
        }
      }
      var value: Option<Expr> := None;
      var ty: Type;
      if st.init.Some? {
        var a := VisitExpression(st.init.value);
        if a.Err? {
          return Err(a.error);
        }
        var vt := TypeOf(a.value);
        if vt.Err? {
          return Err(vt.error);
        }
        ty := if declared.Some? then declared.value else vt.value;
        if !RequireAssignable(ty, vt.value) {
          return Err(NotAssignable(ty, vt.value));
        }
        value := Some(a.value);
      } else {
        ty := declared.value;
      }
      var sym := VarSym(st.name, st.name, ty, true);
      var defined := DefineVariable(scope, st.name, sym);
      if defined.None? {
        return Err(Redefined(st.name));
      }
      scope := defined.value;
      return Ok(Declaration(st.name, st.typeName, value, Some(sym)));
    }

    method VisitAssignment(st: Stmt) returns (r: Result<Stmt, Failure>)
      requires st.Assignment? && |scope| > 0
      ensures Agrees(r, AnalyzeAssignment(scope, st), scope)
    {
      if !st.receiver.Access? {
        return Err(NotAccess);
      }
      var a := VisitExpression(st.receiver);
      if a.Err? {
        return Err(a.error);
      }
      var b := VisitExpression(st.value);
      if b.Err? {
        return Err(b.error);
      }
      var ta := TypeOf(a.value);
      if ta.Err? {
        return Err(ta.error);
      }
      var tb := TypeOf(b.value);
      if tb.Err? {
        return Err(tb.error);
      }
      if !RequireAssignable(ta.value, tb.value) {
        return Err(NotAssignable(ta.value, tb.value));
      }
      return Ok(Assignment(a.value, b.value));
    }

    /** Pushes a scope for the then-block and another for the else-block,
        and pops only one. */
    method VisitIf(st: Stmt) returns (r: Result<Stmt, Failure>)
      requires st.If? && |scope| > 0
      modifies this
      decreases st, 0
      ensures Agrees(r, AnalyzeIf(old(scope), old(returnType), st), scope)
      ensures returnType == old(returnType)
    {
      var a := VisitExpression(st.cond);
      if a.Err? {
        return Err(a.error);
      }
      var t := TypeOf(a.value);
      if t.Err? {
        return Err(t.error);
      }
      if !RequireAssignable(Boolean, t.value) {
        return Err(NotAssignable(Boolean, t.value));
      }
      if st.thenStmts == [] {
        return Err(EmptyThen);
      }
      scope := Push(scope);
      var th := VisitStatements(st.thenStmts);
      if th.Err? {
        return Err(th.error);
      }
      scope := Push(scope);
      var el := VisitStatements(st.elseStmts);
      if el.Err? {
        return Err(el.error);
      }
      scope := Pop(scope);
      return Ok(If(a.value, th.value, el.value));
    }

    /** Checks every case value but the last against the condition, then
        visits only the last case, which must have no value. */
    method VisitSwitch(st: Stmt) returns (r: Result<Stmt, Failure>)
      requires st.Switch? && |scope| > 0
      modifies this
      decreases st, 0
      ensures Agrees(r, AnalyzeSwitch(old(scope), old(returnType), st), scope)
      ensures returnType == old(returnType)
    {
      scope := Push(scope);
      var a := VisitExpression(st.cond);
      if a.Err? {
        return Err(a.error);
      }
      if st.cases == [] {
        return Err(Missing);
      }
      var k := |st.cases| - 1;
      var valued: seq<Case> := [];
      var i := 0;
      assert st.cases[0..k] == st.cases[..k];
      PrependNoValues(AnalyzeCaseValues(scope, a.value, st.cases[..k]));
      while i < k
        invariant 0 <= i <= k && scope == Push(old(scope)) && returnType == old(returnType)
        invariant AnalyzeCaseValues(scope, a.value, st.cases[..k])
                  == PrependValues(valued, AnalyzeCaseValues(scope, a.value, st.cases[i..k]))
      {
        var c := st.cases[i];
        if c.value.None? {
          assert st.cases[i..k][0] == c;
          return Err(Missing);
        }
        CaseValuesStep(scope, a.value, st.cases, i, k, valued);
        var v := VisitExpression(c.value.value);
        if v.Err? {
          return Err(v.error);
        }
        var ct := TypeOf(a.value);
        if ct.Err? {
          return Err(ct.error);
        }
        var vt := TypeOf(v.value);
        if vt.Err? {
          return Err(vt.error);
        }
        if !RequireAssignable(ct.value, vt.value) {
          return Err(NotAssignable(ct.value, vt.value));
        }
        valued := valued + [Case(Some(v.value), c.stmts)];
        i := i + 1;
      }
      assert st.cases[i..k] == [] && valued + [] == valued;
      var d := VisitCase(st.cases[k]);
      if d.Err? {
        return Err(d.error);
      }
      if st.cases[k].value.Some? {
        return Err(DefaultHasValue);
      }
      scope := Pop(scope);
      return Ok(Switch(a.value, valued + [d.value]));
    }

    method VisitCase(c: Case) returns (r: Result<Case, Failure>)
      requires |scope| > 0
      modifies this
      decreases c, 0
      ensures Agrees(r, AnalyzeCase(old(scope), old(returnType), c), scope)
      ensures returnType == old(returnType)
    {
      scope := Push(scope);
      var b := VisitStatements(c.stmts);
      if b.Err? {
        return Err(b.error);
      }
      scope := Pop(scope);
      return Ok(Case(c.value, b.value));
    }

    method VisitWhile(st: Stmt) returns (r: Result<Stmt, Failure>)
      requires st.While? && |scope| > 0
      modifies this
      decreases st, 0
      ensures Agrees(r, AnalyzeWhile(old(scope), old(returnType), st), scope)
      ensures returnType == old(returnType)
    {
      var a := VisitExpression(st.cond);
      if a.Err? {
        return Err(a.error);
      }
      var t := TypeOf(a.value);
      if t.Err? {
        return Err(t.error);
      }
      if !RequireAssignable(Boolean, t.value) {
        return Err(NotAssignable(Boolean, t.value));
      }
      scope := Push(scope);
      var b := VisitStatements(st.body);
      if b.Err? {
        return Err(b.error);
      }
      scope := Pop(scope);
      return Ok(While(a.value, b.value));
    }

    /** The returned value is not visited; its annotation is checked
        against whatever return type the field holds. */
    method VisitReturn(st: Stmt) returns (r: Result<Stmt, Failure>)
      requires st.Return? && |scope| > 0
      ensures Agrees(r, AnalyzeStmt(scope, returnType, st), scope)
    {
      var t := TypeOf(st.value);
      if t.Err? {
        return Err(t.error);
      }
      if returnType.None? {
        return Err(NoReturnType);
      }
      if !RequireAssignable(returnType.value, t.value) {
        return Err(NotAssignable(returnType.value, t.value));
      }
      return Ok(st);
    }

    /* ---------------- declarations ---------------- */

    method VisitFunction(f: Function) returns (r: Result<Function, Failure>)
      requires |scope| > 0
      modifies this
      ensures match AnalyzeFunction(old(scope), old(returnType), f)
              case Ok(p) => r == Ok(p.2) && scope == p.0 && returnType == p.1
              case Err(e) => r == Err(e)
    {
      var paramTypes: seq<Type> := [];
      var i := 0;
      assert f.paramTypeNames[0..] == f.paramTypeNames;
      PrependNoValues(TypesNamed(f.paramTypeNames));
      while i < |f.paramTypeNames|
        invariant 0 <= i <= |f.paramTypeNames| && scope == old(scope) && returnType == old(returnType)
        invariant TypesNamed(f.paramTypeNames) == PrependValues(paramTypes, TypesNamed(f.paramTypeNames[i..]))
      {
        TypesNamedStep(f.paramTypeNames, i, paramTypes);
        var t := TypeNamed(f.paramTypeNames[i]);
        if t.None? {
          return Err(UnknownType(f.paramTypeNames[i]));
        }
        paramTypes := paramTypes + [t.value];
        i := i + 1;
      }
      assert f.paramTypeNames[i..] == [] && paramTypes + [] == paramTypes;
      if f.returnTypeName.None? {
        return Err(Missing);
      }
      var ret := TypeNamed(f.returnTypeName.value);
      if ret.None? {
        return Err(UnknownType(f.returnTypeName.value));
      }
      var sym := FunSym(f.name, f.name, paramTypes, ret.value);
      var defined := DefineFunction(scope, f.name, |paramTypes|, sym);
      if defined.None? {
        return Err(Redefined(f.name));
      }
      scope := Push(defined.value);
      var body := VisitStatements(f.stmts);
      if body.Err? {
        return Err(body.error);
      }
      returnType := ret;
      scope := Pop(scope);
      return Ok(f.(stmts := body.value, fn := Some(sym)));
    }

    method VisitGlobal(g: Global) returns (r: Result<Global, Failure>)
      requires |scope| > 0
      modifies this
      ensures Agrees(r, AnalyzeGlobal(old(scope), g), scope)
      ensures returnType == old(returnType)
    {
      var ty := TypeNamed(g.typeName);
      if ty.None? {
        return Err(UnknownType(g.typeName));
      }
      if g.value.None? {
        return Err(Missing);
      }
      var vt := TypeOf(g.value.value);
      if vt.Err? {
        return Err(vt.error);
      }
      if !RequireAssignable(ty.value, vt.value) {
        return Err(NotAssignable(ty.value, vt.value));
      }
      var a := VisitExpression(g.value.value);
      if a.Err? {
        return Err(a.error);
      }
      var sym := VarSym(g.name, g.name, ty.value, g.mutable);
      var defined := DefineVariable(scope, g.name, sym);
      if defined.None? {
        return Err(Redefined(g.name));
      }
      scope := defined.value;
      return Ok(g.(value := Some(a.value)));
    }

    /** The loop over the globals of a source. */
    method VisitGlobals(gs: seq<Global>) returns (r: Result<seq<Global>, Failure>)
      requires |scope| > 0
      modifies this
      ensures returnType == old(returnType)
      ensures match AnalyzeGlobals(old(scope), gs)
              case Ok(p) => r == Ok(p.1) && scope == p.0
              case Err(e) => r == Err(e)
    {
      var globals: seq<Global> := [];
      var i := 0;
      assert gs[0..] == gs;
      PrependNothing(AnalyzeGlobals(scope, gs));
      while i < |gs|
        invariant 0 <= i <= |gs| && |scope| > 0 && returnType == old(returnType)
        invariant AnalyzeGlobals(old(scope), gs) == Prepend(globals, AnalyzeGlobals(scope, gs[i..]))
      {
        GlobalsStep(scope, gs, i, globals);
        var g := VisitGlobal(gs[i]);
        if g.Err? {
          return Err(g.error);
        }
        globals := globals + [g.value];
        i := i + 1;
      }
      assert gs[i..] == [] && globals + [] == globals;
      return Ok(globals);
    }

    /** The loop over the functions of a source, after the main check. */
    method VisitFunctions(fs: seq<Function>) returns (r: Result<seq<Function>, Failure>)
      requires |scope| > 0
      modifies this
      ensures match AnalyzeFunctions(old(scope), old(returnType), fs)
              case Ok(p) => r == Ok(p.2) && scope == p.0 && returnType == p.1
              case Err(e) => r == Err(e)
    {
      var functions: seq<Function> := [];
      var k := 0;
      assert fs[0..] == fs;
      PrependNoFunctions(AnalyzeFunctions(scope, returnType, fs));
      while k < |fs|
        invariant 0 <= k <= |fs| && |scope| > 0
        invariant AnalyzeFunctions(old(scope), old(returnType), fs)
                  == PrependFunctions(functions, AnalyzeFunctions(scope, returnType, fs[k..]))
      {
        FunctionsStep(scope, returnType, fs, k, functions);
        var f := VisitFunction(fs[k]);
        if f.Err? {
          return Err(f.error);
        }
        functions := functions + [f.value];
        k := k + 1;
      }
      assert fs[k..] == [] && functions + [] == functions;
      return Ok(functions);
    }

    /** Globals first, then the main check, then every function. */
    method VisitSource(src: Source) returns (r: Result<Source, Failure>)
      requires |scope| > 0
      modifies this
      ensures match AnalyzeSource(old(scope), old(returnType), src)
              case Ok(p) => r == Ok(p.2) && scope == p.0 && returnType == p.1
              case Err(e) => r == Err(e)
    {
      var globals := VisitGlobals(src.globals);
      if globals.Err? {
        return Err(globals.error);
      }
      var main := FindMain(src.functions);
      if main.None? || |main.value.params| != 0 || main.value.returnTypeName != Some("Integer") {
        return Err(NoMain);
      }
      var functions := VisitFunctions(src.functions);
      if functions.Err? {
        return Err(functions.error);
      }
      return Ok(Source(globals.value, functions.value));
    }
  }
}
