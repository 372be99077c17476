/** The type checker.  The pure part is the assignability lattice, the
    operator table and the literal rules; the walk over a program threads a
    scope stack and the current return type through every visit, filling in
    the annotation slots of the tree it returns.  A failure of any kind ends
    the analysis, so the state after a failure is not modelled.

    The spec functions here say what each visit computes; the `Analyzer`
    class in `analyzer_class.dfy` performs the same visits on its fields
    and is proved against them. */
module Analysis {
  import opened Common
  import opened Syntax
  import opened Scopes

  datatype Failure =
    | Unset                               // `getType()` on a node whose type was never set
    | NotAssignable(target: Type, ty: Type)
    | NoReturnType                        // `requireAssignable` against a `returnType` still null
    | OperandTypes(op: string)            // the operator table rejects the operands, or the operator
    | UnknownType(name: string)
    | UndefinedVariable(name: string)
    | UndefinedFunction(name: string, arity: nat)
    | Redefined(name: string)
    | NotBinary                           // a group around something other than a binary
    | NotCall                             // an expression statement that is not a call
    | NotAccess                           // an assignment whose receiver is not an access
    | OffsetNotInteger
    | NoTypeOrValue                       // a declaration with neither
    | EmptyThen
    | DefaultHasValue
    | Missing                             // `Optional.get()` on nothing, or a list index out of range
    | IntegerRange
    | DecimalRange
    | NoMain

  type AScope = Stack<VarSym, FunSym>

  /* ---------------- the pure decisions ---------------- */

  /** `requireAssignable(target, type)`. */
  function RequireAssignable(target: Type, t: Type): (ok: bool)
    ensures ok <==> target == Any || target == t || (target == Comparable && t != Boolean)
  {
    if target == Comparable then t != Boolean
    else target == t || target == Any
  }

  /** `requireAssignable` where the target may still be null (the
      analyzer's `returnType` before any function has been checked). */
  function RequireAssignableTo(target: Option<Type>, t: Type): (r: Result<(), Failure>)
    ensures r.Ok? <==> target.Some? && RequireAssignable(target.value, t)
  {
    if target.None? then Err(NoReturnType)
    else if RequireAssignable(target.value, t) then Ok(())
    else Err(NotAssignable(target.value, t))
  }

  /** `getType()`: the annotation, or a failure when it is unset. */
  function TypeOf(e: Expr): (r: Result<Type, Failure>)
    ensures r.Ok? <==> AnnotatedType(e).Some?
    ensures r.Ok? ==> r.value == AnnotatedType(e).value
  {
    if AnnotatedType(e).Some? then Ok(AnnotatedType(e).value) else Err(Unset)
  }

  /** `IntegersOrDecimals`: reads the left type, then the right one only
      when the left one could still match. */
  function IntegersOrDecimals(lt: Option<Type>, rt: Option<Type>): (r: Result<Option<Type>, Failure>)
    ensures lt.Some? && rt.Some? ==> r.Ok?
    ensures r.Ok? && r.value.Some? ==> r.value.value in {Integer, Decimal} && lt == rt == r.value
    ensures lt.Some? && rt.Some? && lt == rt && lt.value in {Integer, Decimal} ==> r == Ok(lt)
  {
    if lt.None? then Err(Unset)
    else if lt.value == Integer then
      if rt.None? then Err(Unset) else if rt.value == Integer then Ok(Some(Integer)) else Ok(None)
    else if lt.value == Decimal then
      if rt.None? then Err(Unset) else if rt.value == Decimal then Ok(Some(Decimal)) else Ok(None)
    else Ok(None)
  }

  /** Both types must equal `want`; the right one is read only when the
      left one matches. */
  function BothAre(op: string, want: Type, lt: Option<Type>, rt: Option<Type>): (r: Result<Type, Failure>)
    ensures r.Ok? <==> lt == Some(want) && rt == Some(want)
    ensures r.Ok? ==> r.value == want
  {
    if lt.None? then Err(Unset)
    else if lt.value != want then Err(OperandTypes(op))
    else if rt.None? then Err(Unset)
    else if rt.value == want then Ok(want)
    else Err(OperandTypes(op))
  }

  /** The operator table of `visit(Binary)`, over the operands' annotations. */
  function BinaryType(op: string, lt: Option<Type>, rt: Option<Type>): (r: Result<Type, Failure>)
    ensures r.Ok? ==> lt.Some?
    // logical operators: two Booleans give a Boolean
    ensures (op == "&&" || op == "||") ==> (r.Ok? <==> lt == rt == Some(Boolean)) && (r.Ok? ==> r.value == Boolean)
    // comparisons: both operands exactly Comparable, not merely assignable to it
    ensures (op == "<" || op == ">" || op == "==" || op == "!=") ==>
              (r.Ok? <==> lt == rt == Some(Comparable)) && (r.Ok? ==> r.value == Comparable)
    // `+`: a String on either side gives a String, else two Integers or two Decimals
    ensures op == "+" && lt.Some? && rt.Some? ==>
              (r == Ok(String) <==> lt.value == String || rt.value == String)
              && (r == Ok(Integer) <==> lt == rt == Some(Integer))
              && (r == Ok(Decimal) <==> lt == rt == Some(Decimal))
              && (r.Ok? ==> r.value in {String, Integer, Decimal})
    // `-`, `*`, `/`: two Integers or two Decimals only
    ensures (op == "-" || op == "*" || op == "/") ==>
              (r.Ok? <==> lt == rt && lt.Some? && lt.value in {Integer, Decimal}) && (r.Ok? ==> Some(r.value) == lt)
    // `^`: two Integers only
    ensures op == "^" ==> (r.Ok? <==> lt == rt == Some(Integer)) && (r.Ok? ==> r.value == Integer)
    ensures op !in ["&&", "||", "<", ">", "==", "!=", "+", "-", "*", "/", "^"] ==> r == Err(OperandTypes(op))
  {
    if op == "&&" || op == "||" then BothAre(op, Boolean, lt, rt)
    else if op == "<" || op == ">" || op == "==" || op == "!=" then BothAre(op, Comparable, lt, rt)
    else if op == "+" then
      if lt.None? then Err(Unset)
      else if lt.value == String then Ok(String)
      else if rt.None? then Err(Unset)
      else if rt.value == String then Ok(String)
      else
        var n := IntegersOrDecimals(lt, rt);
        if n.Ok? && n.value.Some? then Ok(n.value.value) else Err(OperandTypes(op))
    else if op == "-" || op == "*" || op == "/" then
      var n :- IntegersOrDecimals(lt, rt);
      if n.Some? then Ok(n.value) else Err(OperandTypes(op))
    else if op == "^" then BothAre(op, Integer, lt, rt)
    else Err(OperandTypes(op))
  }

  /** `visit(Literal)`: the type the literal's slot holds afterwards.  The
      null literal is compared with the string "NIL" by reference, which is
      never equal, so its slot keeps whatever it held. */
  function LiteralType(lit: Lit, t: Option<Type>): (r: Result<Option<Type>, Failure>)
    ensures r.Ok? && !lit.LNil? ==> r.value.Some?
    ensures lit.LNil? ==> r == Ok(t)
    ensures lit.LInt? ==> (r.Ok? <==> IntMin <= lit.i <= IntMax) && (r.Ok? ==> r.value == Some(Integer))
    ensures lit.LDec? ==> (r.Ok? <==> lit.d.unscaled > 0) && (r.Ok? ==> r.value == Some(Decimal))
    ensures lit.LBool? || lit.LChar? || lit.LStr? ==> r.Ok?
  {
    match lit
    case LNil => Ok(t)
    case LBool(_) => Ok(Some(Boolean))
    case LChar(_) => Ok(Some(Character))
    case LStr(_) => Ok(Some(String))
    case LInt(i) => if i > IntMax || i < IntMin then Err(IntegerRange) else Ok(Some(Integer))
    case LDec(d) => if d.unscaled <= 0 then Err(DecimalRange) else Ok(Some(Decimal))
  }

  /* ---------------- expressions ---------------- */

  /** The tree with every annotation slot cleared. */
  function Strip(e: Expr): Expr
    decreases e
  {
    match e
    case Literal(lit, _) => Literal(lit, None)
    case Group(inner, _) => Group(Strip(inner), None)
    case Binary(op, l, r, _) => Binary(op, Strip(l), Strip(r), None)
    case Access(off, name, _) => Access(if off.Some? then Some(Strip(off.value)) else None, name, None)
    case Call(name, args, _) => Call(name, StripAll(args), None)
    case PlcList(vs, _) => PlcList(StripAll(vs), None)
  }

  function StripAll(es: seq<Expr>): (r: seq<Expr>)
    decreases es
    ensures |r| == |es|
  {
    if es == [] then [] else [Strip(es[0])] + StripAll(es[1..])
  }

  /** `visit(Expression)`: the annotated expression.  Expressions only read
      the scope. */
  function AnalyzeExpr(s: AScope, e: Expr): (r: Result<Expr, Failure>)
    decreases e
    ensures r.Ok? ==> Strip(r.value) == Strip(e)
    ensures r.Ok? && !e.Literal? && !e.PlcList? ==> AnnotatedType(r.value).Some?
    ensures r.Ok? && e.Group? ==> e.inner.Binary? && AnnotatedType(r.value) == AnnotatedType(r.value.inner)
    ensures r.Ok? && e.Access? ==> LookupVariable(s, e.name).Some?
                                   && r.value.variable == Some(LookupVariable(s, e.name).value.1)
                                   && (e.offset.Some? ==> AnnotatedType(e.offset.value) == Some(Integer))
    ensures r.Ok? && e.Call? ==> r.value.fn.Some? && LookupFunction(s, e.name, |e.args|) == r.value.fn
    ensures r.Ok? && e.PlcList? ==> r.value == e
  {
    match e
    case Literal(lit, t) =>
      var lt :- LiteralType(lit, t);
      Ok(Literal(lit, lt))
    case Group(inner, _) =>
      if !inner.Binary? then Err(NotBinary)
      else
        var a :- AnalyzeExpr(s, inner);
        var t :- TypeOf(a);
        Ok(Group(a, Some(t)))
    case Binary(op, l, r, _) =>
      var a :- AnalyzeExpr(s, l);
      var b :- AnalyzeExpr(s, r);
      var t :- BinaryType(op, AnnotatedType(a), AnnotatedType(b));
      Ok(Binary(op, a, b, Some(t)))
    case Access(off, name, _) =>
      var found := LookupVariable(s, name);
      if found.None? then Err(UndefinedVariable(name))
      else if off.Some? && AnnotatedType(off.value).None? then Err(Unset)
      else if off.Some? && AnnotatedType(off.value) != Some(Integer) then Err(OffsetNotInteger)
      else Ok(Access(off, name, Some(found.value.1)))
    case Call(name, args, _) =>
      var f := LookupFunction(s, name, |args|);
      if f.None? then Err(UndefinedFunction(name, |args|))
      else
        var annotated :- AnalyzeArguments(s, f.value.paramTypes, args);
        Ok(Call(name, annotated, Some(f.value)))
    case PlcList(vs, t) =>
      var _ :- CheckElements(t, vs);
      Ok(e)
  }

  /** The loop of `visit(Function)` over the arguments: each argument is
      visited, then its type must be assignable to the parameter's. */
  function AnalyzeArguments(s: AScope, params: seq<Type>, args: seq<Expr>): (r: Result<seq<Expr>, Failure>)
    decreases args
    ensures r.Ok? ==> |r.value| == |args| && StripAll(r.value) == StripAll(args)
    ensures r.Ok? ==> |args| <= |params|
                      && forall i :: 0 <= i < |args| ==>
                           (AnnotatedType(r.value[i]).Some? && RequireAssignable(params[i], AnnotatedType(r.value[i]).value))
  {
    if args == [] then Ok([])
    else
      var a :- AnalyzeExpr(s, args[0]);
      if params == [] then Err(Missing)
      else
        var t :- TypeOf(a);
        if !RequireAssignable(params[0], t) then Err(NotAssignable(params[0], t))
        else
          var rest :- AnalyzeArguments(s, params[1..], args[1..]);
          assert ([a] + rest)[1..] == rest;
          Ok([a] + rest)
  }

  /** The loop of `visit(PlcList)`: every element's annotation must be
      assignable to the list's own, which is read once per element. */
  function CheckElements(t: Option<Type>, vs: seq<Expr>): (r: Result<(), Failure>)
    decreases vs
    ensures r.Ok? <==> vs == [] || (t.Some? && forall i :: 0 <= i < |vs| ==>
                                      (AnnotatedType(vs[i]).Some? && RequireAssignable(t.value, AnnotatedType(vs[i]).value)))
  {
    if vs == [] then Ok(())
    else if t.None? then Err(Unset)
    else
      var et :- TypeOf(vs[0]);
      if !RequireAssignable(t.value, et) then Err(NotAssignable(t.value, et))
      else CheckElements(t, vs[1..])
  }

  /* ---------------- statements ---------------- */

  /** How many scopes a statement leaves pushed: an If pushes two and pops
      one, and every other push is undone by one pop of whatever scope is
      current at the time, so the frames an If leaves behind accumulate
      through the enclosing bodies. */
  function Growth(st: Stmt): nat
    decreases st
  {
    match st
    case If(_, th, el) => 1 + GrowthAll(th) + GrowthAll(el)
    case While(_, body) => GrowthAll(body)
    case Switch(_, cases) => if cases == [] then 0 else GrowthAll(cases[|cases| - 1].stmts)
    case _ => 0
  }

  function GrowthAll(ss: seq<Stmt>): nat
    decreases ss
  {
    if ss == [] then 0 else Growth(ss[0]) + GrowthAll(ss[1..])
  }

  /** Scope `t` is `s` grown by `g` frames, where only the current frame of
      `s` and the new ones may differ. */
  predicate Grown(s: AScope, t: AScope, g: nat)
    requires |s| > 0
  {
    |t| == |s| + g && t[..|s| - 1] == s[..|s| - 1]
  }

  /** `visit(Statement)` with the current `returnType`: the new scope and
      the annotated statement. */
  function AnalyzeStmt(s: AScope, rt: Option<Type>, st: Stmt): (r: Result<(AScope, Stmt), Failure>)
    requires |s| > 0
    decreases st, 1
    ensures r.Ok? ==> Grown(s, r.value.0, Growth(st))
    ensures r.Ok? && st.ExprStmt? ==> st.expr.Call?
    ensures r.Ok? && st.Declaration? ==>
              (st.typeName.Some? || st.init.Some?) && r.value.1.Declaration? && r.value.1.variable.Some?
              && LookupVariable(r.value.0, st.name) == Some((|s| - 1, r.value.1.variable.value))
              && (st.typeName.Some? ==> TypeNamed(st.typeName.value).Some?)
              && r.value.1.variable.value.ty
                 == (if st.typeName.Some? then TypeNamed(st.typeName.value).value
                     else if r.value.1.init.Some? && AnnotatedType(r.value.1.init.value).Some?
                     then AnnotatedType(r.value.1.init.value).value else Any)
    ensures r.Ok? && st.Assignment? ==> st.receiver.Access?
    ensures r.Ok? && (st.If? || st.While?) ==> (r.value.1.If? || r.value.1.While?) && AnnotatedType(r.value.1.cond) == Some(Boolean)
    ensures r.Ok? && st.If? ==> st.thenStmts != []
    ensures r.Ok? && st.Switch? ==> st.cases != [] && st.cases[|st.cases| - 1].value.None?
    ensures r.Ok? && st.Return? ==> rt.Some? && AnnotatedType(st.value).Some?
                                    && RequireAssignable(rt.value, AnnotatedType(st.value).value)
  {
    match st
    case ExprStmt(e) =>
      if !e.Call? then Err(NotCall)
      else
        var a :- AnalyzeExpr(s, e);
        Ok((s, ExprStmt(a)))
    case Declaration(_, _, _, _) => AnalyzeDeclaration(s, st)
    case Assignment(_, _) => AnalyzeAssignment(s, st)
    case If(_, _, _) => AnalyzeIf(s, rt, st)
    case Switch(_, _) => AnalyzeSwitch(s, rt, st)
    case While(_, _) => AnalyzeWhile(s, rt, st)
    case Return(v) =>
      var t :- TypeOf(v);
      var _ :- RequireAssignableTo(rt, t);
      Ok((s, st))
  }

  /** `visit(Declaration)`: defines a mutable variable in the current
      scope, typed by its declared type or else by its value's. */
  function AnalyzeDeclaration(s: AScope, st: Stmt): (r: Result<(AScope, Stmt), Failure>)
    requires |s| > 0 && st.Declaration?
    ensures r.Ok? ==>
              (st.typeName.Some? || st.init.Some?) && r.value.1.Declaration? && r.value.1.variable.Some?
              && Grown(s, r.value.0, 0)
              && LookupVariable(r.value.0, st.name) == Some((|s| - 1, r.value.1.variable.value))
              && (st.typeName.Some? ==> TypeNamed(st.typeName.value).Some?)
              && r.value.1.variable.value.ty
                 == (if st.typeName.Some? then TypeNamed(st.typeName.value).value
                     else if r.value.1.init.Some? && AnnotatedType(r.value.1.init.value).Some?
                     then AnnotatedType(r.value.1.init.value).value else Any)
  {
    var Declaration(name, tn, init, _) := st;
    if tn.None? && init.None? then Err(NoTypeOrValue)
    else if tn.Some? && TypeNamed(tn.value).None? then Err(UnknownType(tn.value))
    else
      var declared := if tn.Some? then TypeNamed(tn.value) else None;
      var value :- AnalyzeInitializer(s, declared, init);
      var ty := if declared.Some? then declared.value else value.1;
      var sym := VarSym(name, name, ty, true);
      var defined := DefineVariable(s, name, sym);
      if defined.None? then Err(Redefined(name))
      else
        LookupAfterDefine(s, name, sym, name);
        Ok((defined.value, Declaration(name, tn, value.0, Some(sym))))
  }

  /** `visit(Assignment)`: the receiver must be an access, and the value's
      type assignable to the receiver's. */
  function AnalyzeAssignment(s: AScope, st: Stmt): (r: Result<(AScope, Stmt), Failure>)
    requires |s| > 0 && st.Assignment?
    ensures r.Ok? ==> st.receiver.Access? && r.value.0 == s && r.value.1.Assignment?
                      && AnnotatedType(r.value.1.receiver).Some? && AnnotatedType(r.value.1.value).Some?
                      && RequireAssignable(AnnotatedType(r.value.1.receiver).value, AnnotatedType(r.value.1.value).value)
  {
    var Assignment(receiver, value) := st;
    if !receiver.Access? then Err(NotAccess)
    else
      var a :- AnalyzeExpr(s, receiver);
      var b :- AnalyzeExpr(s, value);
      var ta :- TypeOf(a);
      var tb :- TypeOf(b);
      if RequireAssignable(ta, tb) then Ok((s, Assignment(a, b))) else Err(NotAssignable(ta, tb))
  }

  /** `visit(If)`: a child scope for the then-block, another child of that
      for the else-block, and a single return to the parent. */
  function AnalyzeIf(s: AScope, rt: Option<Type>, st: Stmt): (r: Result<(AScope, Stmt), Failure>)
    requires |s| > 0 && st.If?
    decreases st, 0
    ensures r.Ok? ==> Grown(s, r.value.0, Growth(st)) && st.thenStmts != [] && r.value.1.If?
                      && AnnotatedType(r.value.1.cond) == Some(Boolean)
  {
    var If(c, th, el) := st;
    var a :- AnalyzeExpr(s, c);
    var t :- TypeOf(a);
    if !RequireAssignable(Boolean, t) then Err(NotAssignable(Boolean, t))
    else if th == [] then Err(EmptyThen)
    else
      var thenPart :- AnalyzeBlock(Push(s), rt, th);
      var elsePart :- AnalyzeBlock(Push(thenPart.0), rt, el);
      Ok((Pop(elsePart.0), If(a, thenPart.1, elsePart.1)))
  }

  /** `visit(Switch)`: in a child scope, the value of every case but the
      last is checked against the condition, and only the last case, which
      must have no value, is visited. */
  function AnalyzeSwitch(s: AScope, rt: Option<Type>, st: Stmt): (r: Result<(AScope, Stmt), Failure>)
    requires |s| > 0 && st.Switch?
    decreases st, 0
    ensures r.Ok? ==> Grown(s, r.value.0, Growth(st)) && st.cases != [] && st.cases[|st.cases| - 1].value.None?
  {
    var Switch(c, cases) := st;
    var inner := Push(s);
    var a :- AnalyzeExpr(inner, c);
    if cases == [] then Err(Missing)
    else
      var k := |cases| - 1;
      var valued :- AnalyzeCaseValues(inner, a, cases[..k]);
      var dflt :- AnalyzeCase(inner, rt, cases[k]);
      if cases[k].value.Some? then Err(DefaultHasValue)
      else Ok((Pop(dflt.0), Switch(a, valued + [dflt.1])))
  }

  /** `visit(While)`: a Boolean condition and the body in a child scope. */
  function AnalyzeWhile(s: AScope, rt: Option<Type>, st: Stmt): (r: Result<(AScope, Stmt), Failure>)
    requires |s| > 0 && st.While?
    decreases st, 0
    ensures r.Ok? ==> Grown(s, r.value.0, Growth(st)) && r.value.1.While? && AnnotatedType(r.value.1.cond) == Some(Boolean)
  {
    var While(c, body) := st;
    var a :- AnalyzeExpr(s, c);
    var t :- TypeOf(a);
    if !RequireAssignable(Boolean, t) then Err(NotAssignable(Boolean, t))
    else
      var b :- AnalyzeBlock(Push(s), rt, body);
      Ok((Pop(b.0), While(a, b.1)))
  }

  /** The value part of a declaration: the visited value and the type it
      contributes, which must be assignable to the declared type. */
  function AnalyzeInitializer(s: AScope, declared: Option<Type>, init: Option<Expr>): (r: Result<(Option<Expr>, Type), Failure>)
    requires declared.Some? || init.Some?
    ensures r.Ok? && init.None? ==> r.value == (None, declared.value)
    ensures r.Ok? && init.Some? ==> r.value.0.Some? && AnnotatedType(r.value.0.value) == Some(r.value.1)
                                    && (declared.Some? ==> RequireAssignable(declared.value, r.value.1))
  {
    if init.None? then Ok((None, declared.value))
    else
      var a :- AnalyzeExpr(s, init.value);
      var t :- TypeOf(a);
      var target := if declared.Some? then declared.value else t;
      if RequireAssignable(target, t) then Ok((Some(a), t)) else Err(NotAssignable(target, t))
  }

  /** The loop of `visit(Switch)` over every case but the last: each value
      is visited and must be assignable to the condition's type. */
  function AnalyzeCaseValues(s: AScope, cond: Expr, cases: seq<Case>): (r: Result<seq<Case>, Failure>)
    decreases cases
    ensures r.Ok? ==> |r.value| == |cases|
    ensures r.Ok? ==> forall i :: 0 <= i < |cases| ==> cases[i].value.Some? && r.value[i].value.Some?
                                                        && r.value[i].stmts == cases[i].stmts
  {
    if cases == [] then Ok([])
    else if cases[0].value.None? then Err(Missing)
    else
      var v :- AnalyzeExpr(s, cases[0].value.value);
      var ct :- TypeOf(cond);
      var vt :- TypeOf(v);
      if !RequireAssignable(ct, vt) then Err(NotAssignable(ct, vt))
      else
        var rest :- AnalyzeCaseValues(s, cond, cases[1..]);
        Ok([Case(Some(v), cases[0].stmts)] + rest)
  }

  /** `visit(Case)`: the statements in a child scope; the value is not
      visited. */
  function AnalyzeCase(s: AScope, rt: Option<Type>, c: Case): (r: Result<(AScope, Case), Failure>)
    requires |s| > 0
    decreases c, 0
    ensures r.Ok? ==> Grown(s, r.value.0, GrowthAll(c.stmts)) && r.value.1.value == c.value
  {
    var b :- AnalyzeBlock(Push(s), rt, c.stmts);
    Ok((Pop(b.0), Case(c.value, b.1)))
  }

  /** The statements of a body, in order. */
  function AnalyzeBlock(s: AScope, rt: Option<Type>, ss: seq<Stmt>): (r: Result<(AScope, seq<Stmt>), Failure>)
    requires |s| > 0
    decreases ss, 0
    ensures r.Ok? ==> Grown(s, r.value.0, GrowthAll(ss)) && |r.value.1| == |ss|
  {
    if ss == [] then Ok((s, []))
    else
      var first :- AnalyzeStmt(s, rt, ss[0]);
      var rest :- AnalyzeBlock(first.0, rt, ss[1..]);
      Ok((rest.0, [first.1] + rest.1))
  }

  /* ---------------- declarations ---------------- */

  /** `Environment.getType` over a list of names. */
  function TypesNamed(names: seq<string>): (r: Result<seq<Type>, Failure>)
    ensures r.Ok? ==> |r.value| == |names| && forall i :: 0 <= i < |names| ==> TypeNamed(names[i]) == Some(r.value[i])
    ensures r.Err? ==> exists i :: 0 <= i < |names| && TypeNamed(names[i]).None?
  {
    if names == [] then Ok([])
    else if TypeNamed(names[0]).None? then Err(UnknownType(names[0]))
    else
      var rest :- TypesNamed(names[1..]);
      Ok([TypeNamed(names[0]).value] + rest)
  }

  /** `visit(Function)`: defines the function in the current scope, checks
      the body in a child scope against the return type left by the
      previous function, and only then records this function's return type. */
  function AnalyzeFunction(s: AScope, rt: Option<Type>, f: Function): (r: Result<(AScope, Option<Type>, Function), Failure>)
    requires |s| > 0
    ensures r.Ok? ==> f.returnTypeName.Some? && TypeNamed(f.returnTypeName.value).Some?
                      && r.value.1 == TypeNamed(f.returnTypeName.value)
                      && TypesNamed(f.paramTypeNames).Ok?
                      && r.value.2.fn == Some(FunSym(f.name, f.name, TypesNamed(f.paramTypeNames).value, r.value.1.value))
                      && |r.value.0| == |s| + GrowthAll(f.stmts)
  {
    var paramTypes :- TypesNamed(f.paramTypeNames);
    if f.returnTypeName.None? then Err(Missing)
    else if TypeNamed(f.returnTypeName.value).None? then Err(UnknownType(f.returnTypeName.value))
    else
      var ret := TypeNamed(f.returnTypeName.value).value;
      var sym := FunSym(f.name, f.name, paramTypes, ret);
      var defined := DefineFunction(s, f.name, |paramTypes|, sym);
      if defined.None? then Err(Redefined(f.name))
      else
        var body :- AnalyzeBlock(Push(defined.value), rt, f.stmts);
        Ok((Pop(body.0), Some(ret), f.(stmts := body.1, fn := Some(sym))))
  }

  /** `visit(Global)`: the value's annotation is read before the value is
      visited, then the variable is defined in the current scope. */
  function AnalyzeGlobal(s: AScope, g: Global): (r: Result<(AScope, Global), Failure>)
    requires |s| > 0
    ensures r.Ok? ==> g.value.Some? && TypeNamed(g.typeName).Some? && AnnotatedType(g.value.value).Some?
                      && RequireAssignable(TypeNamed(g.typeName).value, AnnotatedType(g.value.value).value)
                      && |r.value.0| == |s|
                      && LookupVariable(r.value.0, g.name)
                         == Some((|s| - 1, VarSym(g.name, g.name, TypeNamed(g.typeName).value, g.mutable)))
  {
    if TypeNamed(g.typeName).None? then Err(UnknownType(g.typeName))
    else if g.value.None? then Err(Missing)
    else
      var ty := TypeNamed(g.typeName).value;
      var vt :- TypeOf(g.value.value);
      if !RequireAssignable(ty, vt) then Err(NotAssignable(ty, vt))
      else
        var a :- AnalyzeExpr(s, g.value.value);
        var sym := VarSym(g.name, g.name, ty, g.mutable);
        var defined := DefineVariable(s, g.name, sym);
        if defined.None? then Err(Redefined(g.name))
        else
          LookupAfterDefine(s, g.name, sym, g.name);
          Ok((defined.value, g.(value := Some(a))))
  }

  function AnalyzeGlobals(s: AScope, gs: seq<Global>): (r: Result<(AScope, seq<Global>), Failure>)
    requires |s| > 0
    decreases gs
    ensures r.Ok? ==> |r.value.0| == |s| && |r.value.1| == |gs|
  {
    if gs == [] then Ok((s, []))
    else
      var first :- AnalyzeGlobal(s, gs[0]);
      var rest :- AnalyzeGlobals(first.0, gs[1..]);
      Ok((rest.0, [first.1] + rest.1))
  }

  function AnalyzeFunctions(s: AScope, rt: Option<Type>, fs: seq<Function>): (r: Result<(AScope, Option<Type>, seq<Function>), Failure>)
    requires |s| > 0
    decreases fs
    ensures r.Ok? ==> |r.value.0| >= |s| && |r.value.2| == |fs|
    ensures r.Ok? && fs != [] ==> fs[|fs| - 1].returnTypeName.Some?
                                  && r.value.1 == TypeNamed(fs[|fs| - 1].returnTypeName.value)
  {
    if fs == [] then Ok((s, rt, []))
    else
      var first :- AnalyzeFunction(s, rt, fs[0]);
      var rest :- AnalyzeFunctions(first.0, first.1, fs[1..]);
      Ok((rest.0, rest.1, [first.2] + rest.2))
  }

  /** The function `visit(Source)` picks as `main`: the last one so named. */
  function MainOf(fs: seq<Function>): (r: Option<Function>)
    ensures r.Some? ==> r.value in fs && r.value.name == "main"
    ensures r.None? <==> forall i :: 0 <= i < |fs| ==> fs[i].name != "main"
    ensures r.Some? ==> exists i :: 0 <= i < |fs| && fs[i] == r.value && forall j :: i < j < |fs| ==> fs[j].name != "main"
  {
    if fs == [] then None
    else if fs[|fs| - 1].name == "main" then Some(fs[|fs| - 1])
    else
      var front := fs[..|fs| - 1];
      assert forall j :: 0 <= j < |front| ==> front[j] == fs[j];
      assert fs == front + [fs[|fs| - 1]];
      MainOf(front)
  }

  /** `Optional.equals` given a `String`: an `Optional` is never equal to
      an object that is not itself an `Optional`. */
  function OptionalEqualsString(o: Option<string>, s: string): (b: bool)
  {
    false
  }

  /** The main check as written: it compares the `Optional` return type
      name with the string "Integer". */
  predicate MainRejectedAsWritten(main: Option<Function>)
  {
    main.None? || |main.value.params| != 0 || !OptionalEqualsString(main.value.returnTypeName, "Integer")
  }

  /** The main check as intended: a `main` with no parameters whose return
      type name is "Integer". */
  predicate MainRejected(main: Option<Function>)
  {
    main.None? || |main.value.params| != 0 || main.value.returnTypeName != Some("Integer")
  }

  /** `visit(Source)` as written: the main check compares an `Optional`
      with a `String`, so a source whose globals pass is refused. */
  function AnalyzeSourceAsWritten(s: AScope, rt: Option<Type>, src: Source): (r: Result<(AScope, Option<Type>, Source), Failure>)
    requires |s| > 0
    ensures r.Err?
    ensures AnalyzeGlobals(s, src.globals).Ok? ==> r == Err(NoMain)
  {
    var globals :- AnalyzeGlobals(s, src.globals);
    if MainRejectedAsWritten(MainOf(src.functions)) then Err(NoMain)
    else
      // the comparison never holds, so no function is ever visited
      assert false; Err(NoMain)
  }

  /** `visit(Source)` with the main check as intended: globals first, then
      the check, then every function in order. */
  function AnalyzeSource(s: AScope, rt: Option<Type>, src: Source): (r: Result<(AScope, Option<Type>, Source), Failure>)
    requires |s| > 0
    ensures r.Ok? ==> MainOf(src.functions).Some? && MainOf(src.functions).value.params == []
                      && MainOf(src.functions).value.returnTypeName == Some("Integer")
    ensures r.Ok? ==> |r.value.2.globals| == |src.globals| && |r.value.2.functions| == |src.functions|
    ensures AnalyzeGlobals(s, src.globals).Ok? && MainRejected(MainOf(src.functions)) ==> r == Err(NoMain)
  {
    var globals :- AnalyzeGlobals(s, src.globals);
    if MainRejected(MainOf(src.functions)) then Err(NoMain)
    else
      var functions :- AnalyzeFunctions(globals.0, rt, src.functions);
      Ok((functions.0, functions.1, Source(globals.1, functions.2)))
  }
}
