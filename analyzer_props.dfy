/** Properties of the type checker that relate several visits. */
module AnalysisProperties {
  import opened Common
  import opened Syntax
  import opened Scopes
  import opened Analysis

  /** Analysis is idempotent on expressions: checking an already annotated
      expression again, in the same scope, gives it back unchanged. */
  lemma {:induction false} AnalyzeExprIdempotent(s: AScope, e: Expr)
    requires AnalyzeExpr(s, e).Ok?
    ensures AnalyzeExpr(s, AnalyzeExpr(s, e).value) == AnalyzeExpr(s, e)
    decreases e, 1
  {
    var a := AnalyzeExpr(s, e).value;
    match e
    case Literal(lit, t) =>
    case Group(inner, _) =>
      AnalyzeExprIdempotent(s, inner);
    case Binary(op, l, r, _) =>
      AnalyzeExprIdempotent(s, l);
      AnalyzeExprIdempotent(s, r);
    case Access(off, name, _) =>
    case Call(name, args, _) =>
      var f := LookupFunction(s, name, |args|);
      AnalyzeArgumentsIdempotent(s, f.value.paramTypes, args);
    case PlcList(vs, t) =>
  }

  lemma {:induction false} AnalyzeArgumentsIdempotent(s: AScope, params: seq<Type>, args: seq<Expr>)
    requires AnalyzeArguments(s, params, args).Ok?
    ensures AnalyzeArguments(s, params, AnalyzeArguments(s, params, args).value) == AnalyzeArguments(s, params, args)
    decreases args, 0
  {
    if args != [] {
      var a := AnalyzeExpr(s, args[0]).value;
      var rest := AnalyzeArguments(s, params[1..], args[1..]).value;
      var r := AnalyzeArguments(s, params, args).value;
      assert r == [a] + rest;
      assert r[0] == a && r[1..] == rest;
      AnalyzeExprIdempotent(s, args[0]);
      AnalyzeArgumentsIdempotent(s, params[1..], args[1..]);
    }
  }

  /** A `return` in a function body is checked against the return type the
      analyzer held before the function, that is the previous function's,
      because the field is set only after the body has been checked. */
  lemma ReturnCheckedAgainstPreviousFunction(s: AScope, rt: Option<Type>, f: Function, v: Expr)
    requires |s| > 0 && f.stmts == [Return(v)]
    ensures AnalyzeFunction(s, rt, f).Ok? ==>
              rt.Some? && AnnotatedType(v).Some? && RequireAssignable(rt.value, AnnotatedType(v).value)
  {
    if AnalyzeFunction(s, rt, f).Ok? {
      var paramTypes := TypesNamed(f.paramTypeNames).value;
      var ret := TypeNamed(f.returnTypeName.value).value;
      var sym := FunSym(f.name, f.name, paramTypes, ret);
      var defined := DefineFunction(s, f.name, |paramTypes|, sym).value;
      var inner := Push(defined);
      assert AnalyzeBlock(inner, rt, f.stmts).Ok?;
      assert f.stmts[0] == Return(v);
      assert AnalyzeStmt(inner, rt, Return(v)).Ok?;
    }
  }

  /** So the first function whose body starts with a `return` is always
      rejected: no return type has been set yet. */
  lemma FirstReturnRejected(s: AScope, f: Function, v: Expr)
    requires |s| > 0 && f.stmts == [Return(v)]
    ensures AnalyzeFunction(s, None, f).Err?
  {
    ReturnCheckedAgainstPreviousFunction(s, None, f, v);
  }

  /** The main check as written never accepts: every program whose globals
      check fails with `NoMain`, so no function is ever checked. */
  lemma {:induction false} AsWrittenRejectsEverySource(s: AScope, rt: Option<Type>, src: Source)
    requires |s| > 0
    ensures AnalyzeSourceAsWritten(s, rt, src)
            == if AnalyzeGlobals(s, src.globals).Err? then Err(AnalyzeGlobals(s, src.globals).error) else Err(NoMain)
  {
  }

  /** `FUN main(): Integer DO END`: refused as written, accepted by the
      intended check. */
  function EmptyMain(): Source
  {
    Source([], [Function("main", [], [], Some("Integer"), [], None)])
  }

  lemma EmptyMainFinding(s: AScope, rt: Option<Type>)
    requires |s| > 0 && ("main", 0) !in s[|s| - 1].funs
    ensures AnalyzeSourceAsWritten(s, rt, EmptyMain()) == Err(NoMain)
    ensures AnalyzeSource(s, rt, EmptyMain()).Ok?
  {
    var src := EmptyMain();
    var f := src.functions[0];
    assert MainOf(src.functions) == Some(f);
    assert TypesNamed(f.paramTypeNames) == Ok([]);
    var defined := DefineFunction(s, "main", 0, FunSym("main", "main", [], Integer));
    assert AnalyzeBlock(Push(defined.value), rt, []).Ok?;
    assert AnalyzeFunction(s, rt, f).Ok?;
    assert src.functions[1..] == [];
    assert AnalyzeFunctions(s, rt, src.functions).Ok?;
  }
}
