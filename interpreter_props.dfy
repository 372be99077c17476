/** Properties of the evaluator: what each operator computes, how an
    indexed assignment checks its index, what a switch runs, where a call
    leaves the scope, that scoped statements restore the scope, and what the
    `converter` built-in writes. */
module EvaluationProperties {
  import opened Common
  import opened Syntax
  import opened Evaluation

  /* ---------------- binary operators ---------------- */

  /** `&&` with a false left operand is false without evaluating the right
      operand, which may be anything, even an expression that fails. */
  lemma AndShortCircuits(s: State, left: Expr, right: Expr, ty: Option<Type>, fuel: nat, t: State)
    requires Eval(s, left, fuel) == Ok((t, VBool(false)))
    ensures EvalBinary(s, Binary("&&", left, right, ty), fuel) == Ok((t, VBool(false)))
  {
  }

  /** `||` with a true left operand is true without evaluating the right
      operand. */
  lemma OrShortCircuits(s: State, left: Expr, right: Expr, ty: Option<Type>, fuel: nat, t: State)
    requires Eval(s, left, fuel) == Ok((t, VBool(true)))
    ensures EvalBinary(s, Binary("||", left, right, ty), fuel) == Ok((t, VBool(true)))
  {
  }

  /** Once `&&` evaluates its right operand, the result is false exactly
      when that operand is the Boolean false; `||` is true exactly when its
      right operand is true, and fails on a right operand that is not a
      Boolean. */
  lemma LogicalRightOperand(l: bool, r: Value)
    ensures !l ==> BinaryValue("||", VBool(l), r) == (if r.VBool? then Ok(VBool(r.b)) else Err(TypeMismatch("Boolean")))
    ensures BinaryValue("&&", VBool(l), r) == Ok(VBool(!(r.VBool? && !r.b)))
  {
  }

  /** On integers the comparisons mean what they say. */
  lemma IntegerComparisons(op: string, x: int, y: int)
    requires op in ["<", ">", "==", "!="]
    ensures BinaryValue(op, VInt(x), VInt(y))
            == Ok(VBool(if op == "<" then x < y else if op == ">" then x > y else if op == "==" then x == y else x != y))
  {
  }

  /** Two strings are `==` exactly when they are equal, since their
      comparison is zero exactly then. */
  lemma StringEquality(x: string, y: string)
    ensures BinaryValue("==", VStr(x), VStr(y)) == Ok(VBool(x == y))
    ensures BinaryValue("!=", VStr(x), VStr(y)) == Ok(VBool(x != y))
  {
    StringCompareZero(x, y);
  }

  lemma {:induction false} StringCompareZero(x: string, y: string)
    ensures StringCompare(x, y) == 0 <==> x == y
    decreases |x|
  {
    if x != [] && y != [] && x[0] == y[0] {
      StringCompareZero(x[1..], y[1..]);
      assert x == [x[0]] + x[1..] && y == [y[0]] + y[1..];
    }
  }

  /** Values of two different classes cannot be compared. */
  lemma ComparisonAcrossClasses(op: string, l: Value, r: Value)
    requires op in ["<", ">", "==", "!="] && IsComparable(l) && IsComparable(r)
    requires l.VBool? != r.VBool? || l.VInt? != r.VInt? || l.VDec? != r.VDec? || l.VChar? != r.VChar?
    ensures BinaryValue(op, l, r) == Err(Incomparable)
  {
  }

  /** Integer `+`, `-` and `*` are exact: there is no overflow. */
  lemma IntegerArithmeticExact(x: int, y: int)
    ensures BinaryValue("+", VInt(x), VInt(y)) == Ok(VInt(x + y))
    ensures BinaryValue("-", VInt(x), VInt(y)) == Ok(VInt(x - y))
    ensures BinaryValue("*", VInt(x), VInt(y)) == Ok(VInt(x * y))
  {
  }

  /** Integer `/` truncates toward zero: the remainder left over is smaller
      than the divisor and has the sign of the dividend.  A zero divisor is
      an error. */
  lemma IntegerDivisionTruncates(x: int, y: int)
    ensures y == 0 ==> BinaryValue("/", VInt(x), VInt(y)) == Err(DivideByZero)
    ensures y != 0 ==> BinaryValue("/", VInt(x), VInt(y)).Ok?
    ensures y != 0 ==>
              var q := BinaryValue("/", VInt(x), VInt(y)).value;
              q.VInt? && Abs(x - q.i * y) < Abs(y) && (x - q.i * y == 0 || (x - q.i * y < 0) == (x < 0))
  {
    if y != 0 {
      var r := TruncRem(x, y);
      assert x - TruncDiv(x, y) * y == r;
    }
  }

  /** Integer `^` leaves the left operand unchanged when the right one is
      at most 1 (negative exponents included), and otherwise multiplies it
      by itself. */
  lemma IntegerPower(x: int, y: int)
    ensures IntValue(y) <= 1 ==> BinaryValue("^", VInt(x), VInt(y)) == Ok(VInt(x))
    ensures IntValue(y) > 1 ==> BinaryValue("^", VInt(x), VInt(y)) == Ok(VInt(Pow(x, IntValue(y) as nat)))
  {
  }

  /** `+` on two strings concatenates them. */
  lemma StringConcatenation(x: string, y: string)
    ensures BinaryValue("+", VStr(x), VStr(y)) == Ok(VStr(x + y))
  {
  }

  /** An arithmetic operator on operands that are not both integers, both
      decimals or (for `+`) both strings is unsupported. */
  lemma MixedOperandsUnsupported(op: string, l: Value, r: Value)
    requires op in ["+", "-", "*", "/", "^"]
    requires !(l.VInt? && r.VInt?) && !(l.VDec? && r.VDec?) && !(l.VStr? && r.VStr?)
    ensures BinaryValue(op, l, r) == Err(Unsupported(op))
  {
  }

  /* ---------------- assignment ---------------- */

  /** An indexed assignment whose receiver's index and list have been
      found, step by step: the bound check, the value, the store and the
      second lookup of the name. */
  lemma IndexedAssignmentSteps(s: State, name: string, off: Expr, v: Option<VarSym>, value: Expr, fuel: nat,
                               t: State, o: int, p: nat, ref: nat)
    requires Eval(s, off, fuel) == Ok((t, VInt(o)))
    requires LookupVar(t, name) == Ok(p) && ValueOf(t, p, name) == VList(ref) && ref < |t.heap|
    ensures var k := IntValue(o);
            ExecAssignment(s, Assignment(Access(Some(off), name, v), value), fuel)
            == if k > |t.heap[ref]| - 1 || k < -1 then Err(OutOfBounds)
               else match Eval(t, value, fuel)
                    case Err(f) => Err(f)
                    case Ok(b) =>
                      match StoreElement(b.0, ref, k, b.1)
                      case Err(f) => Err(f)
                      case Ok(stored) =>
                        match LookupVar(stored, name)
                        case Err(f) => Err(f)
                        case Ok(q) => Ok((SetVar(stored, q, name, VList(ref)), Normal))
  {
  }

  /** An index beyond the last element or below -1 fails before the value
      is evaluated; -1 passes that check, but the store fails once the
      value has been evaluated. */
  lemma IndexedAssignmentBounds(s: State, name: string, off: Expr, v: Option<VarSym>, value: Expr, fuel: nat,
                                t: State, o: int, p: nat, ref: nat)
    requires Eval(s, off, fuel) == Ok((t, VInt(o)))
    requires LookupVar(t, name) == Ok(p) && ValueOf(t, p, name) == VList(ref) && ref < |t.heap|
    ensures var k := IntValue(o);
            var r := ExecAssignment(s, Assignment(Access(Some(off), name, v), value), fuel);
            (k > |t.heap[ref]| - 1 || k < -1 ==> r == Err(OutOfBounds)) &&
            (k == -1 ==> r == (match Eval(t, value, fuel)
                               case Err(f) => Err(f)
                               case Ok(_) => Err(IndexOutOfBounds(-1))))
  {
    IndexedAssignmentSteps(s, name, off, v, value, fuel, t, o, p, ref);
  }

  /** Any other index replaces that element of the list in place, where
      every alias of the list sees it. */
  lemma IndexedAssignmentStores(s: State, name: string, off: Expr, v: Option<VarSym>, value: Expr, fuel: nat,
                                t: State, o: int, p: nat, ref: nat, u: State, x: Value)
    requires Eval(s, off, fuel) == Ok((t, VInt(o)))
    requires LookupVar(t, name) == Ok(p) && ValueOf(t, p, name) == VList(ref) && ref < |t.heap|
    requires 0 <= IntValue(o) < |t.heap[ref]| && Eval(t, value, fuel) == Ok((u, x))
    requires ref < |u.heap| && IntValue(o) < |u.heap[ref]| && LookupVar(u, name).Ok?
    ensures var r := ExecAssignment(s, Assignment(Access(Some(off), name, v), value), fuel);
            r.Ok? && r.value.0.heap == u.heap[ref := u.heap[ref][IntValue(o) := x]]
  {
    IndexedAssignmentSteps(s, name, off, v, value, fuel, t, o, p, ref);
    var stored := StoreElement(u, ref, IntValue(o), x);
    assert LookupVar(stored.value, name) == LookupVar(u, name);
  }

  /** A plain assignment finds the variable first, then replaces its value
      with the value's, keeping its mutability whatever it is: an immutable
      variable is assigned like any other. */
  lemma PlainAssignment(s: State, name: string, v: Option<VarSym>, value: Expr, fuel: nat, p: nat, u: State, x: Value)
    requires LookupVar(s, name) == Ok(p) && Eval(s, value, fuel) == Ok((u, x))
    ensures var r := ExecAssignment(s, Assignment(Access(None, name, v), value), fuel);
            r.Ok? && r.value.1 == Normal && r.value.0.scope == u.scope &&
            name in u.frames[p].vars &&
            r.value.0.frames[p].vars[name] == Var(u.frames[p].vars[name].mutable, x)
  {
    assert p < |u.frames| && s.frames[p].vars.Keys <= u.frames[p].vars.Keys;
  }

  /** Only an access can be assigned to. */
  lemma AssignmentNeedsAccess(s: State, receiver: Expr, value: Expr, fuel: nat)
    requires !receiver.Access?
    ensures ExecAssignment(s, Assignment(receiver, value), fuel) == Err(NotAnAccess)
  {
  }

  /* ---------------- switch ---------------- */

  /** The cases without a value are skipped: a switch never runs its
      default case. */
  lemma {:induction false} DefaultNeverRuns(s: State, sw: Stmt, i: nat, fuel: nat)
    requires sw.Switch? && forall j :: i <= j < |sw.cases| ==> sw.cases[j].value.None?
    ensures ExecCases(s, sw, i, fuel) == Ok((s, Normal))
    decreases |sw.cases| - i
  {
    if i < |sw.cases| {
      DefaultNeverRuns(s, sw, i + 1, fuel);
    }
  }

  /** A switch with only a default case does nothing but create (and
      leave) one empty scope, whatever its condition and body. */
  lemma DefaultOnlySwitch(s: State, cond: Expr, body: seq<Stmt>, fuel: nat)
    ensures Exec(s, Switch(cond, [Case(None, body)]), fuel) == Ok((PushScope(s).(scope := s.scope), Normal))
  {
    DefaultNeverRuns(PushScope(s), Switch(cond, [Case(None, body)]), 0, fuel);
  }

  /** The state after the condition and the value of case `i` have been
      evaluated, when the case has a value and the two are equal. */
  function Matched(s: State, sw: Stmt, i: nat, fuel: nat): (m: Option<State>)
    requires sw.Switch? && i < |sw.cases|
    ensures m.Some? ==> sw.cases[i].value.Some?
  {
    var c := sw.cases[i];
    if c.value.None? then None
    else
      match Eval(s, sw.cond, fuel)
      case Err(_) => None
      case Ok(cv) =>
        match Eval(cv.0, c.value.value, fuel)
        case Err(_) => None
        case Ok(vv) => if ValuesEqual(vv.0.heap, cv.1, vv.1) then Some(vv.0) else None
  }

  /** A case whose value equals the condition runs its block; the switch
      then goes on with the next case, unless the block failed or
      returned. */
  lemma MatchingCaseRuns(s: State, sw: Stmt, i: nat, fuel: nat)
    requires sw.Switch? && i < |sw.cases| && Matched(s, sw, i, fuel).Some?
    ensures var b := ExecCase(Matched(s, sw, i, fuel).value, sw.cases[i], fuel);
            (b.Err? || b.value.1.Returned? ==> ExecCases(s, sw, i, fuel) == b)
            && (b.Ok? && !b.value.1.Returned? ==> ExecCases(s, sw, i, fuel) == ExecCases(b.value.0, sw, i + 1, fuel))
  {
  }

  /** A case with a value that differs from the condition is skipped, after
      both have been evaluated (the condition once more for every case). */
  lemma UnmatchedCaseSkipped(s: State, sw: Stmt, i: nat, fuel: nat, cv: (State, Value), vv: (State, Value))
    requires sw.Switch? && i < |sw.cases| && sw.cases[i].value.Some?
    requires Eval(s, sw.cond, fuel) == Ok(cv) && Eval(cv.0, sw.cases[i].value.value, fuel) == Ok(vv)
    requires !ValuesEqual(vv.0.heap, cv.1, vv.1)
    ensures ExecCases(s, sw, i, fuel) == ExecCases(vv.0, sw, i + 1, fuel)
  {
  }

  /** A switch does not stop after the first matching case: two consecutive
      cases that both match run one after the other. */
  lemma TwoMatchingCasesRun(s: State, sw: Stmt, i: nat, fuel: nat)
    requires sw.Switch? && i + 1 < |sw.cases| && Matched(s, sw, i, fuel).Some?
    requires ExecCase(Matched(s, sw, i, fuel).value, sw.cases[i], fuel).Ok?
    requires !ExecCase(Matched(s, sw, i, fuel).value, sw.cases[i], fuel).value.1.Returned?
    requires var t := ExecCase(Matched(s, sw, i, fuel).value, sw.cases[i], fuel).value.0;
             Matched(t, sw, i + 1, fuel).Some?
             && ExecCase(Matched(t, sw, i + 1, fuel).value, sw.cases[i + 1], fuel).Ok?
             && !ExecCase(Matched(t, sw, i + 1, fuel).value, sw.cases[i + 1], fuel).value.1.Returned?
    ensures var t := ExecCase(Matched(s, sw, i, fuel).value, sw.cases[i], fuel).value.0;
            var u := ExecCase(Matched(t, sw, i + 1, fuel).value, sw.cases[i + 1], fuel).value.0;
            ExecCases(s, sw, i, fuel) == ExecCases(u, sw, i + 2, fuel)
  {
    MatchingCaseRuns(s, sw, i, fuel);
    var t := ExecCase(Matched(s, sw, i, fuel).value, sw.cases[i], fuel).value.0;
    MatchingCaseRuns(t, sw, i + 1, fuel);
  }

  /* ---------------- scopes ---------------- */

  /** An expression with no call and no list literal. */
  predicate PureExpr(e: Expr)
  {
    match e
    case Literal(_, _) => true
    case Group(inner, _) => PureExpr(inner)
    case Binary(_, l, r, _) => PureExpr(l) && PureExpr(r)
    case Access(off, _, _) => off.None? || PureExpr(off.value)
    case Call(_, _, _) => false
    case PlcList(_, _) => false
  }

  /** A statement whose expressions are all pure. */
  predicate PureStmt(st: Stmt)
    decreases st, 1
  {
    match st
    case ExprStmt(e) => PureExpr(e)
    case Declaration(_, _, init, _) => init.None? || PureExpr(init.value)
    case Assignment(receiver, value) => PureExpr(receiver) && PureExpr(value)
    case If(cond, th, el) => PureExpr(cond) && PureBlock(th) && PureBlock(el)
    case Switch(cond, cases) =>
      PureExpr(cond) &&
      forall c :: c in cases ==> (c.value.None? || PureExpr(c.value.value)) && PureBlock(c.stmts)
    case While(cond, body) => PureExpr(cond) && PureBlock(body)
    case Return(value) => PureExpr(value)
  }

  predicate PureBlock(ss: seq<Stmt>)
    decreases ss, 0
  {
    forall st :: st in ss ==> PureStmt(st)
  }

  /** A pure expression changes nothing. */
  lemma {:induction false} PureEvalKeepsState(s: State, e: Expr, fuel: nat)
    requires PureExpr(e)
    ensures Eval(s, e, fuel).Ok? ==> Eval(s, e, fuel).value.0 == s
    decreases e
  {
    if e.Group? {
      PureEvalKeepsState(s, e.inner, fuel);
    } else if e.Binary? {
      PureEvalKeepsState(s, e.left, fuel);
      PureEvalKeepsState(s, e.right, fuel);
    } else if e.Access? && e.offset.Some? {
      PureEvalKeepsState(s, e.offset.value, fuel);
    }
  }

  /** `t` has the current scope of `s`, and every scope of `s` keeps its
      parent. */
  predicate Keeps(s: State, t: State)
  {
    t.scope == s.scope && |s.frames| <= |t.frames| &&
    forall i :: 0 <= i < |s.frames| ==> t.frames[i].parent == s.frames[i].parent
  }

  /** Leaving a scope pushed on `s` comes back to the scope of `s`. */
  lemma LeaveRestores(s: State, body: Result<(State, Flow), Failure>)
    requires body.Ok? ==> Keeps(PushScope(s), body.value.0)
    ensures Leave(body).Ok? <==> body.Ok?
    ensures body.Ok? ==> Keeps(s, Leave(body).value.0) && Leave(body).value.1 == body.value.1
  {
    if body.Ok? {
      var u := body.value.0;
      assert u.frames[|s.frames|].parent == PushScope(s).frames[|s.frames|].parent;
    }
  }

  /** A pure statement ends in the scope it started in: every scope it
      pushes (an if, a switch and each of its cases, each iteration of a
      while) it pops again. */
  lemma {:induction false} PureExecKeepsScope(s: State, st: Stmt, fuel: nat)
    requires PureStmt(st)
    ensures Exec(s, st, fuel).Ok? ==> Keeps(s, Exec(s, st, fuel).value.0)
    decreases fuel, 1, st, 2
  {
    match st
    case ExprStmt(e) => PureEvalKeepsState(s, e, fuel);
    case Declaration(_, _, init, _) =>
      if init.Some? {
        PureEvalKeepsState(s, init.value, fuel);
      }
    case Assignment(_, _) => PureAssignmentKeepsScope(s, st, fuel);
    case If(_, _, _) => PureIfKeepsScope(s, st, fuel);
    case Switch(_, _) =>
      PureCasesKeepScope(PushScope(s), st, 0, fuel);
      LeaveRestores(s, ExecCases(PushScope(s), st, 0, fuel));
    case While(_, _) => PureWhileKeepsScope(s, st, fuel);
    case Return(v) => PureEvalKeepsState(s, v, fuel);
  }

  lemma PureAssignmentKeepsScope(s: State, st: Stmt, fuel: nat)
    requires st.Assignment? && PureStmt(st)
    ensures ExecAssignment(s, st, fuel).Ok? ==> Keeps(s, ExecAssignment(s, st, fuel).value.0)
    decreases fuel, 1, st, 1
  {
    PureEvalKeepsState(s, st.value, fuel);
    if st.receiver.Access? && st.receiver.offset.Some? {
      PureEvalKeepsState(s, st.receiver.offset.value, fuel);
    }
  }

  lemma PureIfKeepsScope(s: State, st: Stmt, fuel: nat)
    requires st.If? && PureStmt(st)
    ensures ExecIf(s, st, fuel).Ok? ==> Keeps(s, ExecIf(s, st, fuel).value.0)
    decreases fuel, 1, st, 1
  {
    PureEvalKeepsState(s, st.cond, fuel);
    if EvalBool(s, st.cond, fuel).Ok? {
      var t := PushScope(s);
      PureEvalKeepsState(t, st.cond, fuel);
      var c := EvalBool(t, st.cond, fuel);
      if c.Ok? {
        // evaluating a call-free condition again gives the same answer
        var body := if c.value.1 then st.thenStmts else st.elseStmts;
        assert ExecIf(s, st, fuel) == Leave(ExecBlock(t, body, fuel));
        PureBlockKeepsScope(t, body, fuel);
        LeaveRestores(s, ExecBlock(t, body, fuel));
      }
    }
  }

  lemma {:induction false} PureWhileKeepsScope(s: State, st: Stmt, fuel: nat)
    requires st.While? && PureStmt(st)
    ensures ExecWhile(s, st, fuel).Ok? ==> Keeps(s, ExecWhile(s, st, fuel).value.0)
    decreases fuel, 1, st, 1
  {
    PureEvalKeepsState(s, st.cond, fuel);
    var c := EvalBool(s, st.cond, fuel);
    if c.Ok? && c.value.1 && fuel > 0 {
      assert c.value.0 == s;
      var t := PushScope(s);
      PureBlockKeepsScope(t, st.body, fuel - 1);
      LeaveRestores(s, ExecBlock(t, st.body, fuel - 1));
      var b := Leave(ExecBlock(t, st.body, fuel - 1));
      if b.Ok? && !b.value.1.Returned? {
        assert ExecWhile(s, st, fuel) == ExecWhile(b.value.0, st, fuel - 1);
        PureWhileKeepsScope(b.value.0, st, fuel - 1);
        KeepsTwice(s, b.value.0, ExecWhile(b.value.0, st, fuel - 1));
      }
    }
  }

  lemma KeepsTwice(s: State, t: State, r: Result<(State, Flow), Failure>)
    requires Keeps(s, t) && (r.Ok? ==> Keeps(t, r.value.0))
    ensures r.Ok? ==> Keeps(s, r.value.0)
  {
  }

  lemma {:induction false} PureCasesKeepScope(s: State, sw: Stmt, i: nat, fuel: nat)
    requires sw.Switch? && PureStmt(sw)
    ensures ExecCases(s, sw, i, fuel).Ok? ==> Keeps(s, ExecCases(s, sw, i, fuel).value.0)
    decreases fuel, 1, sw, 0, |sw.cases| - i
  {
    if i < |sw.cases| {
      var c := sw.cases[i];
      assert c in sw.cases;
      if c.value.None? {
        PureCasesKeepScope(s, sw, i + 1, fuel);
      } else {
        PureEvalKeepsState(s, sw.cond, fuel);
        PureEvalKeepsState(s, c.value.value, fuel);
        PureCaseKeepsScope(s, c, fuel);
        var body := ExecCase(s, c, fuel);
        if body.Ok? {
          PureCasesKeepScope(body.value.0, sw, i + 1, fuel);
        }
        PureCasesKeepScope(s, sw, i + 1, fuel);
      }
    }
  }

  lemma PureCaseKeepsScope(s: State, c: Case, fuel: nat)
    requires PureBlock(c.stmts)
    ensures ExecCase(s, c, fuel).Ok? ==> Keeps(s, ExecCase(s, c, fuel).value.0)
    decreases fuel, 1, c
  {
    PureBlockKeepsScope(PushScope(s), c.stmts, fuel);
    LeaveRestores(s, ExecBlock(PushScope(s), c.stmts, fuel));
  }

  lemma {:induction false} PureBlockKeepsScope(s: State, ss: seq<Stmt>, fuel: nat)
    requires PureBlock(ss)
    ensures ExecBlock(s, ss, fuel).Ok? ==> Keeps(s, ExecBlock(s, ss, fuel).value.0)
    decreases fuel, 1, ss
  {
    if ss != [] {
      assert ss[0] in ss;
      PureExecKeepsScope(s, ss[0], fuel);
      var first := Exec(s, ss[0], fuel);
      if first.Ok? && !first.value.1.Returned? {
        assert forall st :: st in ss[1..] ==> st in ss;
        PureBlockKeepsScope(first.value.0, ss[1..], fuel);
      }
    }
  }

  /* ---------------- calls ---------------- */

  /** Binding parameters defines each one, immutable, in the current scope:
      no scope is pushed for the call. */
  lemma {:induction false} ParametersBoundInCurrentScope(s: State, params: seq<string>, args: seq<Value>, i: nat)
    requires s.scope.Some? && i <= |params| <= |args|
    requires forall j, k :: i <= j < k < |params| ==> params[j] != params[k]
    requires forall j :: i <= j < |params| ==> params[j] !in s.frames[s.scope.value].vars
    ensures BindParameters(s, params, args, i).Ok?
    ensures var t := BindParameters(s, params, args, i).value;
            var sc := s.scope.value;
            Keeps(s, t) && |t.frames| == |s.frames| && t.heap == s.heap && t.output == s.output &&
            t.frames[sc].funs == s.frames[sc].funs &&
            (forall x :: x in s.frames[sc].vars ==> x in t.frames[sc].vars && t.frames[sc].vars[x] == s.frames[sc].vars[x]) &&
            (forall j :: i <= j < |params| ==>
               params[j] in t.frames[sc].vars && t.frames[sc].vars[params[j]] == Var(false, args[j])) &&
            (forall k :: 0 <= k < |s.frames| && k != sc ==> t.frames[k] == s.frames[k])
    decreases |params| - i
  {
    if i < |params| {
      var p := s.scope.value;
      var u := DefineVar(s, p, params[i], Var(false, args[i])).value;
      ParametersBoundInCurrentScope(u, params, args, i + 1);
    }
  }

  /** Binding never pushes or pops a scope and keeps every scope's
      parent. */
  lemma {:induction false} BindingKeepsScope(s: State, params: seq<string>, args: seq<Value>, i: nat)
    ensures BindParameters(s, params, args, i).Ok? ==> Keeps(s, BindParameters(s, params, args, i).value)
    decreases |params| - i
  {
    if i < |params| && i < |args| && s.scope.Some? {
      var t := DefineVar(s, s.scope.value, params[i], Var(false, args[i]));
      if t.Ok? {
        BindingKeepsScope(t.value, params, args, i + 1);
      }
    }
  }

  /** A call of a user function with a pure body returns to the parent of
      the caller's scope: the caller's own scope is left behind. */
  lemma CallLeavesCallerScope(s: State, params: seq<string>, stmts: seq<Stmt>, args: seq<Value>, fuel: nat)
    requires PureBlock(stmts) && s.scope.Some?
    ensures var r := Invoke(s, User(params, stmts), args, fuel);
            r.Ok? ==> r.value.0.scope == s.frames[s.scope.value].parent
  {
    if fuel > 0 {
      BindingKeepsScope(s, params, args, 0);
      var bound := BindParameters(s, params, args, 0);
      if bound.Ok? {
        PureBlockKeepsScope(bound.value, stmts, fuel - 1);
      }
    }
  }

  /** A call returns the value of the first `return` its body reaches, or
      NIL when the body ends without one. */
  lemma CallResult(s: State, params: seq<string>, stmts: seq<Stmt>, args: seq<Value>, fuel: nat, b: State, u: State, flow: Flow)
    requires fuel > 0 && BindParameters(s, params, args, 0) == Ok(b)
    requires ExecBlock(b, stmts, fuel - 1) == Ok((u, flow)) && u.scope.Some?
    ensures Invoke(s, User(params, stmts), args, fuel).Ok?
    ensures Invoke(s, User(params, stmts), args, fuel).value.1 == if flow.Returned? then flow.value else VNil
  {
  }

  /* ---------------- definitions and programs ---------------- */

  /** What a declaration or a global is initialized from: its expression, or
      NIL when it has none. */
  function Initializer(s: State, init: Option<Expr>, fuel: nat): Result<(State, Value), Failure>
  {
    if init.Some? then Eval(s, init.value, fuel) else Ok((s, VNil))
  }

  /** `t` is `a` with `name`, free in scope `p` of `a`, now bound to `v`
      there; every other binding, every other scope, the current scope, the
      heap and the output are those of `a`. */
  predicate BindsNew(a: State, p: nat, name: string, v: Var, t: State)
    requires p < |a.frames|
  {
    name !in a.frames[p].vars && |t.frames| == |a.frames| &&
    t.frames[p].vars == a.frames[p].vars[name := v] &&
    t.frames[p].funs == a.frames[p].funs && t.frames[p].parent == a.frames[p].parent &&
    (forall i :: 0 <= i < |a.frames| && i != p ==> t.frames[i] == a.frames[i]) &&
    t.scope == a.scope && t.heap == a.heap && t.output == a.output
  }

  /** A declaration evaluates its initializer, then defines its name as a
      mutable variable of the scope current when it started: this fails if
      the name is already defined there, and otherwise binds it to the
      initializer's value (NIL without one), which a lookup from that scope
      then finds. */
  lemma DeclarationDefines(s: State, st: Stmt, fuel: nat)
    requires st.Declaration?
    ensures var a := Initializer(s, st.init, fuel);
            var r := ExecDeclaration(s, st, fuel);
            && (a.Err? ==> r == Err(a.error))
            && (a.Ok? && s.scope.None? ==> r == Err(NullScope))
            && (a.Ok? && s.scope.Some? ==>
                  var p := s.scope.value;
                  p < |a.value.0.frames| &&
                  (st.name in a.value.0.frames[p].vars ==> r == Err(Redefined(st.name))) &&
                  (st.name !in a.value.0.frames[p].vars ==>
                     r.Ok? && r.value.1 == Normal &&
                     BindsNew(a.value.0, p, st.name, Var(true, a.value.1), r.value.0) &&
                     r.value.0.frames[p].vars[st.name] == Var(true, a.value.1) &&
                     (a.value.0.scope == s.scope ==> LookupVar(r.value.0, st.name) == Ok(p))))
  {
  }

  /** A global is defined like a declaration: a mutable variable of the
      current scope holding its value, or NIL, unless that scope already
      defines its name. */
  lemma GlobalDefines(s: State, g: Global, fuel: nat)
    ensures var a := Initializer(s, g.value, fuel);
            var r := ExecGlobal(s, g, fuel);
            && (a.Err? ==> r == Err(a.error))
            && (a.Ok? && s.scope.None? ==> r == Err(NullScope))
            && (a.Ok? && s.scope.Some? ==>
                  var p := s.scope.value;
                  p < |a.value.0.frames| &&
                  (g.name in a.value.0.frames[p].vars ==> r == Err(Redefined(g.name))) &&
                  (g.name !in a.value.0.frames[p].vars ==>
                     r.Ok? && BindsNew(a.value.0, p, g.name, Var(true, a.value.1), r.value) &&
                     r.value.frames[p].vars[g.name] == Var(true, a.value.1) &&
                     (a.value.0.scope == s.scope ==> LookupVar(r.value, g.name) == Ok(p))))
  {
  }

  /** After all the globals, each global's name is bound in some scope. */
  lemma {:induction false} GlobalsDefined(s: State, gs: seq<Global>, fuel: nat)
    ensures var r := ExecGlobals(s, gs, fuel);
            r.Ok? ==> forall k :: 0 <= k < |gs| ==>
                        exists p :: 0 <= p < |r.value.frames| && gs[k].name in r.value.frames[p].vars
    decreases gs
  {
    var r := ExecGlobals(s, gs, fuel);
    if gs != [] && r.Ok? {
      var t := ExecGlobal(s, gs[0], fuel).value;
      GlobalDefines(s, gs[0], fuel);
      GlobalsDefined(t, gs[1..], fuel);
      var p := s.scope.value;
      assert gs[0].name in t.frames[p].vars;
      assert gs[0].name in r.value.frames[p].vars;
      forall k | 1 <= k < |gs|
        ensures exists q :: 0 <= q < |r.value.frames| && gs[k].name in r.value.frames[q].vars
      {
        assert gs[k] == gs[1..][k - 1];
      }
    }
  }

  /** Globals whose values make no call stay in the current scope: when
      they all succeed that scope is still current, their names are
      pairwise distinct, none of them was defined there before, and it
      defines every one of them. */
  lemma {:induction false} PureGlobalsDefine(s: State, gs: seq<Global>, fuel: nat)
    requires s.scope.Some?
    requires forall k :: 0 <= k < |gs| ==> gs[k].value.None? || PureExpr(gs[k].value.value)
    ensures var r := ExecGlobals(s, gs, fuel);
            r.Ok? ==> r.value.scope == s.scope &&
                      (forall k :: 0 <= k < |gs| ==> gs[k].name !in s.frames[s.scope.value].vars) &&
                      (forall k :: 0 <= k < |gs| ==> gs[k].name in r.value.frames[s.scope.value].vars) &&
                      (forall j, k :: 0 <= j < k < |gs| ==> gs[j].name != gs[k].name)
    decreases gs
  {
    var r := ExecGlobals(s, gs, fuel);
    if gs != [] && r.Ok? {
      var p := s.scope.value;
      if gs[0].value.Some? {
        PureEvalKeepsState(s, gs[0].value.value, fuel);
      }
      GlobalDefines(s, gs[0], fuel);
      var t := ExecGlobal(s, gs[0], fuel).value;
      assert t.scope == s.scope && gs[0].name in t.frames[p].vars;
      forall k | 0 <= k < |gs[1..]|
        ensures gs[1..][k].value.None? || PureExpr(gs[1..][k].value.value)
      {
        assert gs[1..][k] == gs[k + 1];
      }
      PureGlobalsDefine(t, gs[1..], fuel);
      forall k | 1 <= k < |gs|
        ensures gs[k].name in r.value.frames[p].vars && gs[0].name != gs[k].name
        ensures gs[k].name !in s.frames[p].vars
      {
        assert gs[k] == gs[1..][k - 1];
      }
      forall j, k | 0 <= j < k < |gs|
        ensures gs[j].name != gs[k].name
      {
        if j > 0 {
          assert gs[j] == gs[1..][j - 1] && gs[k] == gs[1..][k - 1];
        }
      }
    }
  }

  /** The name and arity a function is defined under. */
  function Key(f: Function): (string, nat)
  {
    (f.name, |f.params|)
  }

  /** A function is defined in the current scope under its name and number
      of parameters, unless that scope already has one there; a lookup
      from that scope then finds its parameters and body. */
  lemma FunctionDefines(s: State, f: Function)
    ensures var r := ExecFunction(s, f);
            && (s.scope.None? ==> r == Err(NullScope))
            && (s.scope.Some? ==> (r.Ok? <==> Key(f) !in s.frames[s.scope.value].funs))
            && (s.scope.Some? && r.Err? ==> r == Err(Redefined(f.name)))
            && (r.Ok? ==> LookupFun(r.value, f.name, |f.params|) == Ok(User(f.params, f.stmts)))
  {
  }

  /** The functions of a source all succeed exactly when no two share a
      name and arity and the current scope defines none of them yet; then
      each is found by a lookup from that scope, and whatever the scope
      defined before is kept. */
  lemma {:induction false} FunctionsDefine(s: State, fs: seq<Function>)
    requires s.scope.Some?
    ensures var r := ExecFunctions(s, fs);
            var p := s.scope.value;
            && (r.Ok? <==> (forall k :: 0 <= k < |fs| ==> Key(fs[k]) !in s.frames[p].funs) &&
                           (forall j, k :: 0 <= j < k < |fs| ==> Key(fs[j]) != Key(fs[k])))
            && (r.Ok? ==> forall key :: key in s.frames[p].funs ==>
                            key in r.value.frames[p].funs && r.value.frames[p].funs[key] == s.frames[p].funs[key])
            && (r.Ok? ==> forall k :: 0 <= k < |fs| ==>
                            LookupFun(r.value, fs[k].name, |fs[k].params|) == Ok(User(fs[k].params, fs[k].stmts)))
    decreases fs
  {
    if fs != [] {
      var p := s.scope.value;
      FunctionDefines(s, fs[0]);
      var h := ExecFunction(s, fs[0]);
      if h.Ok? {
        var t := h.value;
        FunctionsDefine(t, fs[1..]);
        assert t.frames[p].funs == s.frames[p].funs[Key(fs[0]) := User(fs[0].params, fs[0].stmts)];
        forall k | 1 <= k < |fs|
          ensures fs[k] == fs[1..][k - 1]
        {
        }
      }
    }
  }

  /** A source whose globals and functions are all defined runs the
      parameterless `main` it declares, with no arguments, in the state
      they leave; a failing global or function is the source's failure. */
  lemma SourceRunsMain(s: State, src: Source, fuel: nat)
    ensures var g := ExecGlobals(s, src.globals, fuel);
            && (g.Err? ==> ExecSource(s, src, fuel) == Err(g.error))
            && (g.Ok? && ExecFunctions(g.value, src.functions).Err? ==>
                  ExecSource(s, src, fuel) == Err(ExecFunctions(g.value, src.functions).error))
            && (g.Ok? && g.value.scope.Some? && ExecFunctions(g.value, src.functions).Ok? ==>
                  forall k :: 0 <= k < |src.functions| && src.functions[k].name == "main" && src.functions[k].params == [] ==>
                    ExecSource(s, src, fuel) ==
                      Invoke(ExecFunctions(g.value, src.functions).value, User([], src.functions[k].stmts), [], fuel))
  {
    var g := ExecGlobals(s, src.globals, fuel);
    if g.Ok? && g.value.scope.Some? {
      FunctionsDefine(g.value, src.functions);
    }
  }

  /** Two frame lists that agree on every parent, and on whether and how
      each frame defines `name`/`arity`, give the same lookup of it. */
  lemma {:induction false} FindFunAgrees(fs: seq<Frame>, gs: seq<Frame>, cur: Option<nat>, name: string, arity: nat)
    requires ParentsBefore(fs) && ParentsBefore(gs) && |fs| == |gs| && (cur.Some? ==> cur.value < |fs|)
    requires forall i :: 0 <= i < |fs| ==> fs[i].parent == gs[i].parent
    requires forall i :: 0 <= i < |fs| ==> ((name, arity) in fs[i].funs <==> (name, arity) in gs[i].funs)
    requires forall i :: 0 <= i < |fs| && (name, arity) in fs[i].funs ==> fs[i].funs[(name, arity)] == gs[i].funs[(name, arity)]
    ensures FindFun(fs, cur, name, arity) == FindFun(gs, cur, name, arity)
    decreases if cur.Some? then cur.value + 1 else 0
  {
    if cur.Some? && (name, arity) !in fs[cur.value].funs {
      FindFunAgrees(fs, gs, fs[cur.value].parent, name, arity);
    }
  }

  /** Defining functions other than `name`/`arity` leaves every scope's
      parent and its lookup of `name`/`arity` as they were. */
  lemma {:induction false} FunctionsKeepOthers(s: State, fs: seq<Function>, name: string, arity: nat)
    requires forall k :: 0 <= k < |fs| ==> Key(fs[k]) != (name, arity)
    ensures var r := ExecFunctions(s, fs);
            r.Ok? ==> FindFun(r.value.frames, r.value.scope, name, arity) == FindFun(s.frames, s.scope, name, arity)
    decreases fs
  {
    var r := ExecFunctions(s, fs);
    if fs != [] && r.Ok? {
      var t := ExecFunction(s, fs[0]).value;
      var p := s.scope.value;
      assert t.frames == s.frames[p := s.frames[p].(funs := s.frames[p].funs[Key(fs[0]) := User(fs[0].params, fs[0].stmts)])];
      FindFunAgrees(t.frames, s.frames, s.scope, name, arity);
      forall k | 0 <= k < |fs[1..]|
        ensures Key(fs[1..][k]) != (name, arity)
      {
        assert fs[1..][k] == fs[k + 1];
      }
      FunctionsKeepOthers(t, fs[1..], name, arity);
    }
  }

  /** A source that declares no parameterless `main`, run where no
      enclosing scope defines one either, fails with `main`/0 undefined. */
  lemma NoMainUndefined(s: State, src: Source, fuel: nat)
    requires forall k :: 0 <= k < |src.functions| ==> Key(src.functions[k]) != ("main", 0)
    ensures var g := ExecGlobals(s, src.globals, fuel);
            g.Ok? && g.value.scope.Some? && FindFun(g.value.frames, g.value.scope, "main", 0).None? &&
            ExecFunctions(g.value, src.functions).Ok? ==>
              ExecSource(s, src, fuel) == Err(UndefinedFunction("main", 0))
  {
    var g := ExecGlobals(s, src.globals, fuel);
    if g.Ok? {
      FunctionsKeepOthers(g.value, src.functions, "main", 0);
    }
  }

  /** Arguments are evaluated left to right: evaluating a list that is one
      list followed by another evaluates the first, then the second from
      the state the first leaves, and joins their values. */
  lemma {:induction false} EvalArgsAppend(s: State, xs: seq<Expr>, ys: seq<Expr>, fuel: nat)
    ensures var a := EvalArgs(s, xs, fuel);
            && (a.Err? ==> EvalArgs(s, xs + ys, fuel) == Err(a.error))
            && (a.Ok? ==> var b := EvalArgs(a.value.0, ys, fuel);
                  EvalArgs(s, xs + ys, fuel) == if b.Ok? then Ok((b.value.0, a.value.1 + b.value.1)) else Err(b.error))
    decreases xs
  {
    if xs == [] {
      assert xs + ys == ys;
      var b := EvalArgs(s, ys, fuel);
      if b.Ok? {
        assert [] + b.value.1 == b.value.1;
      }
    } else {
      assert (xs + ys)[0] == xs[0] && (xs + ys)[1..] == xs[1..] + ys;
      var e := Eval(s, xs[0], fuel);
      if e.Ok? {
        EvalArgsAppend(e.value.0, xs[1..], ys, fuel);
        var r := EvalArgs(e.value.0, xs[1..], fuel);
        if r.Ok? && EvalArgs(r.value.0, ys, fuel).Ok? {
          var b := EvalArgs(r.value.0, ys, fuel).value.1;
          assert [e.value.1] + (r.value.1 + b) == ([e.value.1] + r.value.1) + b;
        }
      }
    }
  }

  /** Call-free arguments are each evaluated in the caller's state: the
      list succeeds exactly when each of them does, changes nothing, and
      holds their values in order. */
  lemma {:induction false} PureArgs(s: State, es: seq<Expr>, fuel: nat)
    requires forall k :: 0 <= k < |es| ==> PureExpr(es[k])
    ensures var r := EvalArgs(s, es, fuel);
            && (r.Ok? <==> forall k :: 0 <= k < |es| ==> Eval(s, es[k], fuel).Ok?)
            && (r.Ok? ==> r.value.0 == s && forall k :: 0 <= k < |es| ==> r.value.1[k] == Eval(s, es[k], fuel).value.1)
    decreases es
  {
    if es != [] {
      PureEvalKeepsState(s, es[0], fuel);
      forall k | 0 <= k < |es[1..]|
        ensures PureExpr(es[1..][k])
      {
        assert es[1..][k] == es[k + 1];
      }
      PureArgs(s, es[1..], fuel);
      forall k | 1 <= k < |es|
        ensures es[k] == es[1..][k - 1]
      {
      }
    }
  }

  /** The integer operands of a built-in are evaluated like arguments:
      when all of them evaluate, the result is theirs if every value is an
      integer and a `BigInteger` mismatch otherwise. */
  lemma {:induction false} IntegersAreArgs(s: State, es: seq<Expr>, fuel: nat)
    ensures EvalIntegers(s, es, fuel).Ok? ==> EvalIntegers(s, es, fuel) == EvalArgs(s, es, fuel)
    ensures var a := EvalArgs(s, es, fuel);
            a.Ok? ==> EvalIntegers(s, es, fuel) ==
                        if forall k :: 0 <= k < |es| ==> a.value.1[k].VInt? then a else Err(TypeMismatch("BigInteger"))
    decreases es
  {
    if es != [] {
      var e := Eval(s, es[0], fuel);
      if e.Ok? {
        IntegersAreArgs(e.value.0, es[1..], fuel);
        var a := EvalArgs(s, es, fuel);
        if a.Ok? {
          var b := EvalArgs(e.value.0, es[1..], fuel);
          assert a.value.1 == [e.value.1] + b.value.1 && a.value.1[0] == e.value.1;
          assert forall k :: 1 <= k < |es| ==> a.value.1[k] == b.value.1[k - 1];
          if !e.value.1.VInt? {
            assert !a.value.1[0].VInt?;
          } else if forall k :: 0 <= k < |es[1..]| ==> b.value.1[k].VInt? {
            assert forall k :: 0 <= k < |es| ==> a.value.1[k].VInt?;
          } else {
            var k :| 0 <= k < |es[1..]| && !b.value.1[k].VInt?;
            assert !a.value.1[k + 1].VInt?;
          }
        }
      }
    }
  }

  /* ---------------- the converter built-in ---------------- */

  /** The digits of `n` in base `b`, most significant first. */
  function BaseDigits(n: nat, b: nat): (ds: seq<nat>)
    requires b >= 2
    ensures |ds| >= 1 && forall k :: 0 <= k < |ds| ==> ds[k] < b
    ensures ValueInBase(ds, b) == n
    ensures n > 0 ==> ds[0] > 0
    decreases n
  {
    if n < b then [n]
    else
      DivisionFacts(n, b);
      var front := BaseDigits(n / b, b);
      ValueInBaseSnoc(front, n % b, b);
      front + [n % b]
  }

  lemma DivisionFacts(n: nat, b: nat)
    requires 2 <= b <= n
    ensures 1 <= n / b < n && n % b < b && (n / b) * b + n % b == n
  {
  }

  lemma ValueInBaseSnoc(front: seq<nat>, d: nat, b: nat)
    ensures ValueInBase(front + [d], b) == ValueInBase(front, b) * b + d
  {
    assert (front + [d])[..|front|] == front;
  }

  /** The number that digits in base `b` stand for. */
  function ValueInBase(ds: seq<nat>, b: nat): nat
  {
    if ds == [] then 0 else ValueInBase(ds[..|ds| - 1], b) * b + ds[|ds| - 1]
  }

  /** Each digit written in decimal, in order. */
  function Written(ds: seq<nat>): string
  {
    if ds == [] then "" else Written(ds[..|ds| - 1]) + IntToString(ds[|ds| - 1])
  }

  /** `converter(n, b)` with `n >= 0` and `b >= 2` writes the base-`b`
      digits of `n`, most significant first, each in decimal. */
  lemma ConverterWritesDigits(n: nat, b: nat)
    requires b >= 2
    ensures ConverterText(n, b) == Ok(Written(BaseDigits(n, b)))
  {
    RemaindersAreDigits(n, b);
  }

  /** `converter(0, b)` is "0". */
  lemma ConverterZero(b: nat)
    requires b >= 2
    ensures ConverterText(0, b) == Ok("0")
  {
    ConverterWritesDigits(0, b);
    assert BaseDigits(0, b) == [0];
    assert [0][..0] == [];
    assert Written([0]) == Written([]) + IntToString(0);
    assert DigitChar(0) == '0';
    assert NatToString(0) == "0";
    assert IntToString(0) == "0";
    assert Written([0]) == "0";
  }

  lemma {:induction false} RemaindersAreDigits(n: nat, b: nat)
    requires b >= 2
    ensures Concatenated(Remainders(n, b)) == Written(BaseDigits(n, b))
    decreases n
  {
    RemaindersNatural(n, b);
    if n >= b {
      DivLess(n, b);
      RemaindersAreDigits(n / b, b);
      BaseDigitsStep(n, b);
      DigitsStepText(n % b, Remainders(n / b, b), BaseDigits(n / b, b));
    } else {
      SingleDigitText(n);
    }
  }

  /** One more digit: found first by the loop, written last. */
  lemma DigitsStepText(r: nat, rest: seq<int>, front: seq<nat>)
    requires Concatenated(rest) == Written(front)
    ensures Concatenated([r] + rest) == Written(front + [r])
  {
    ConcatenatedPrepend(r, rest);
    WrittenAppend(front, r);
  }

  lemma SingleDigitText(d: nat)
    ensures Concatenated([d]) == Written([d])
  {
    assert Concatenated([d]) == IntToString(d) + Concatenated([]);
    WrittenAppend([], d);
    assert [] + [d] == [d];
  }

  lemma BaseDigitsStep(n: nat, b: nat)
    requires b >= 2 && n >= b
    ensures BaseDigits(n, b) == BaseDigits(n / b, b) + [n % b]
  {
  }

  lemma WrittenAppend(ds: seq<nat>, d: nat)
    ensures Written(ds + [d]) == Written(ds) + IntToString(d)
  {
    assert (ds + [d])[..|ds|] == ds;
  }

  /** `converter`'s loop on a natural number: the remainder by the base,
      then those of the quotient while it is positive. */
  lemma RemaindersNatural(n: nat, b: nat)
    requires b >= 2
    ensures Remainders(n, b) == if n >= b then [n % b] + Remainders(n / b, b) else [n]
  {
    TruncDivNatural(n, b);
  }

  /** On natural numbers `converter`'s division is the usual one. */
  lemma TruncDivNatural(n: nat, b: nat)
    requires b >= 2
    ensures TruncDiv(n, b) == n / b && n - TruncDiv(n, b) * b == n % b
    ensures (TruncDiv(n, b) > 0) == (n >= b)
  {
  }

  /** The remainder found first is written last. */
  lemma {:induction false} ConcatenatedPrepend(r: int, rs: seq<int>)
    ensures Concatenated([r] + rs) == Concatenated(rs) + IntToString(r)
    decreases |rs|
  {
    var all := [r] + rs;
    if rs == [] {
      assert Concatenated(all) == IntToString(r) + Concatenated([]);
    } else {
      var init := rs[..|rs| - 1];
      assert all[..|all| - 1] == [r] + init;
      ConcatenatedPrepend(r, init);
    }
  }
}
