/** The interpreter as an object: its `scope` field, together with the scope
    objects, lists and printed values it can reach, changes as it runs a
    program.  Every visit is proved to agree with the evaluation function of
    module `Evaluation` that describes it. */
module Interpreting {
  import opened Common
  import opened Syntax
  import opened Evaluation

  /** A visit agrees with its spec: on success it returns the spec's value
      and leaves the spec's state; on failure it reports the spec's
      failure. */
  predicate Agrees<T(==)>(r: Result<T, Failure>, spec: Result<(State, T), Failure>, now: State)
  {
    match spec
    case Ok(p) => r == Ok(p.1) && now == p.0
    case Err(f) => r == Err(f)
  }

  /** What a loop over expressions still has to produce, after the values it
      has produced. */
  function PrependValues(done: seq<Value>, rest: Result<(State, seq<Value>), Failure>): Result<(State, seq<Value>), Failure>
  {
    match rest
    case Ok(p) => Ok((p.0, done + p.1))
    case Err(f) => Err(f)
  }

  lemma PrependNothing(r: Result<(State, seq<Value>), Failure>)
    ensures PrependValues([], r) == r
  {
    if r.Ok? {
      assert [] + r.value.1 == r.value.1;
    }
  }

  /* One step of each loop: the work left from item `i` in terms of the work
     left from item `i + 1`. */

  lemma ArgumentsStep(s: State, es: seq<Expr>, i: nat, done: seq<Value>, fuel: nat)
    requires i < |es|
    ensures PrependValues(done, EvalArgs(s, es[i..], fuel))
            == match Eval(s, es[i], fuel)
               case Err(f) => Err(f)
               case Ok(a) => PrependValues(done + [a.1], EvalArgs(a.0, es[i + 1..], fuel))
  {
    assert es[i..][0] == es[i] && es[i..][1..] == es[i + 1..];
    var a := Eval(s, es[i], fuel);
    if a.Ok? {
      var rest := EvalArgs(a.value.0, es[i + 1..], fuel);
      if rest.Ok? {
        assert done + ([a.value.1] + rest.value.1) == (done + [a.value.1]) + rest.value.1;
      }
    }
  }

  lemma IntegersStep(s: State, es: seq<Expr>, i: nat, done: seq<Value>, fuel: nat)
    requires i < |es|
    ensures PrependValues(done, EvalIntegers(s, es[i..], fuel))
            == match Eval(s, es[i], fuel)
               case Err(f) => Err(f)
               case Ok(a) =>
                 if !a.1.VInt? then Err(TypeMismatch("BigInteger"))
                 else PrependValues(done + [a.1], EvalIntegers(a.0, es[i + 1..], fuel))
  {
    assert es[i..][0] == es[i] && es[i..][1..] == es[i + 1..];
    var a := Eval(s, es[i], fuel);
    if a.Ok? && a.value.1.VInt? {
      var rest := EvalIntegers(a.value.0, es[i + 1..], fuel);
      if rest.Ok? {
        assert done + ([a.value.1] + rest.value.1) == (done + [a.value.1]) + rest.value.1;
      }
    }
  }

  lemma BlockStep(s: State, ss: seq<Stmt>, i: nat, fuel: nat)
    requires i < |ss|
    ensures ExecBlock(s, ss[i..], fuel)
            == match Exec(s, ss[i], fuel)
               case Err(f) => Err(f)
               case Ok(p) => if p.1.Returned? then Ok(p) else ExecBlock(p.0, ss[i + 1..], fuel)
  {
    assert ss[i..][0] == ss[i] && ss[i..][1..] == ss[i + 1..];
  }

  lemma GlobalsStep(s: State, gs: seq<Global>, i: nat, fuel: nat)
    requires i < |gs|
    ensures ExecGlobals(s, gs[i..], fuel)
            == match ExecGlobal(s, gs[i], fuel)
               case Err(f) => Err(f)
               case Ok(t) => ExecGlobals(t, gs[i + 1..], fuel)
  {
    assert gs[i..][0] == gs[i] && gs[i..][1..] == gs[i + 1..];
  }

  lemma FunctionsStep(s: State, fs: seq<Function>, i: nat)
    requires i < |fs|
    ensures ExecFunctions(s, fs[i..])
            == match ExecFunction(s, fs[i])
               case Err(f) => Err(f)
               case Ok(t) => ExecFunctions(t, fs[i + 1..])
  {
    assert fs[i..][0] == fs[i] && fs[i..][1..] == fs[i + 1..];
  }

  /** A positive quotient that continues `converter`'s loop is smaller, by
      the loop's measure, than the one before it. */
  function QuotientMeasure(q: int): nat
  {
    if q > 0 then q else 1 - q
  }

  /** The `^` loop: the left operand multiplied by itself while the counter
      stays below the right operand's 32-bit value. */
  method Power(l: int, r: int) returns (v: int)
    ensures v == IntPower(l, r)
  {
    var k := IntValue(r);
    v := l;
    var i: nat := 1;
    assert Pow(l, 1) == l * Pow(l, 0);
    while i < k
      invariant 1 <= i && (i == 1 || i <= k)
      invariant v == Pow(l, i)
    {
      assert Pow(l, i + 1) == l * Pow(l, i);
      v := v * l;
      i := i + 1;
    }
    if k <= 1 {
      assert i == 1 && v == l;
    } else {
      assert i == k && v == Pow(l, k as nat);
    }
  }

  /** One turn of `converter`'s do-while loop: the remainder of `q`, then
      the remainders of the quotient while it stays positive. */
  lemma RemaindersStep(done: seq<int>, q: int, b: int)
    requires b != 0 && !(b == 1 && q > 0)
    ensures var next := TruncDiv(q, b);
            !(b == 1 && next > 0) && (next > 0 ==> QuotientMeasure(next) < QuotientMeasure(q)) &&
            done + Remainders(q, b) == (done + [Leftover(q, b)]) + (if next > 0 then Remainders(next, b) else [])
  {
    var next := TruncDiv(q, b);
    if b == 1 {
      assert Abs(next) == Abs(q);
    }
    if next > 0 {
      QuotientShrinks(q, b);
    }
    var tail := if next > 0 then Remainders(next, b) else [];
    assert Remainders(q, b) == [Leftover(q, b)] + tail;
    assert done + ([Leftover(q, b)] + tail) == (done + [Leftover(q, b)]) + tail;
  }

  /** `converter`'s do-while loop: each turn records the quotient and the
      remainder of dividing the last quotient by the base, until the
      quotient is no longer positive. */
  method CollectRemainders(n: int, b: int) returns (remainders: seq<int>)
    requires b != 0 && !(b == 1 && n > 0)
    ensures remainders == Remainders(n, b)
  {
    var quotients := [n];
    remainders := [];
    var k := 0;
    var more := true;
    while more
      invariant |quotients| == k + 1 && |remainders| == k
      invariant more ==> !(b == 1 && quotients[k] > 0)
      invariant more ==> Remainders(n, b) == remainders + Remainders(quotients[k], b)
      invariant !more ==> Remainders(n, b) == remainders
      decreases more, QuotientMeasure(quotients[k])
    {
      var q := quotients[k];
      RemaindersStep(remainders, q, b);
      var next := TruncDiv(q, b);
      quotients := quotients + [next];
      remainders := remainders + [q - next * b];
      k := k + 1;
      more := next > 0;
      if !more {
        assert remainders + [] == remainders;
      }
    }
  }

  /** `converter`'s for loop: each remainder's text goes in front of the
      text so far. */
  method WriteRemainders(remainders: seq<int>) returns (number: string)
    ensures number == Concatenated(remainders)
  {
    number := "";
    for i := 0 to |remainders|
      invariant number == Concatenated(remainders[..i])
    {
      assert remainders[..i + 1][..i] == remainders[..i];
      number := IntToString(remainders[i]) + number;
    }
    assert remainders[..|remainders|] == remainders;
  }

  /** The `converter` built-in. */
  method Convert(n: int, b: int) returns (r: Result<string, Failure>)
    ensures r == ConverterText(n, b)
  {
    if b == 0 {
      return Err(DivideByZero);
    }
    if b == 1 && n > 0 {
      return Err(Diverges);
    }
    var remainders := CollectRemainders(n, b);
    var number := WriteRemainders(remainders);
    return Ok(number);
  }

  class Interpreter {
    /** The scope objects created so far. */
    var frames: seq<Frame>
    /** The current scope; `None` is a null scope. */
    var scope: Option<nat>
    /** The lists created so far, by reference. */
    var heap: seq<seq<Value>>
    /** The values passed to `print`, in order. */
    var output: seq<Value>

    predicate Valid()
      reads this
    {
      Wf(Machine(frames, scope, heap, output))
    }

    function Current(): State
      reads this
      requires Valid()
    {
      Machine(frames, scope, heap, output)
    }

    method Load(m: State)
      modifies this
      ensures Valid() && Current() == m
    {
      frames, scope, heap, output := m.frames, m.scope, m.heap, m.output;
    }

    /** A child scope of `parent` holding `print`, `logarithm` and
        `converter`. */
    constructor(parentFrames: seq<Frame>, parent: Option<nat>)
      requires ParentsBefore(parentFrames) && (parent.Some? ==> parent.value < |parentFrames|)
      ensures Valid() && Current() == Initial(parentFrames, parent)
    {
      var m := Initial(parentFrames, parent);
      frames, scope, heap, output := m.frames, m.scope, m.heap, m.output;
    }

    /* ---------------- expressions ---------------- */

    method VisitExpression(e: Expr, fuel: nat) returns (r: Result<Value, Failure>)
      requires Valid()
      modifies this
      decreases fuel, 1, e, 1
      ensures Valid() && Agrees(r, Eval(old(Current()), e, fuel), Current())
    {
      match e
      case Literal(lit, _) => r := Ok(LiteralValue(lit));
      case Group(inner, _) => r := VisitExpression(inner, fuel);
      case Binary(_, _, _, _) => r := VisitBinary(e, fuel);
      case Access(_, _, _) => r := VisitAccess(e, fuel);
      case Call(_, _, _) => r := VisitCall(e, fuel);
      case PlcList(_, _) => r := VisitList(e, fuel);
    }

    method VisitBinary(e: Expr, fuel: nat) returns (r: Result<Value, Failure>)
      requires Valid() && e.Binary?
      modifies this
      decreases fuel, 1, e, 0
      ensures Valid() && Agrees(r, EvalBinary(old(Current()), e, fuel), Current())
    {
      var a := VisitExpression(e.left, fuel);
      if a.Err? {
        return Err(a.error);
      }
      var sc := ShortCircuit(e.op, a.value);
      if sc.Some? {
        return sc.value;
      }
      var b := VisitExpression(e.right, fuel);
      if b.Err? {
        return Err(b.error);
      }
      if e.op == "^" && a.value.VInt? && b.value.VInt? {
        var p := Power(a.value.i, b.value.i);
        return Ok(VInt(p));
      }
      r := BinaryValue(e.op, a.value, b.value);
    }

    method VisitAccess(e: Expr, fuel: nat) returns (r: Result<Value, Failure>)
      requires Valid() && e.Access?
      modifies this
      decreases fuel, 1, e, 0
      ensures Valid() && Agrees(r, EvalAccess(old(Current()), e, fuel), Current())
    {
      if e.offset.None? {
        var p := LookupVar(Current(), e.name);
        if p.Err? {
          return Err(p.error);
        }
        return Ok(frames[p.value].vars[e.name].value);
      }
      var a := VisitExpression(e.offset.value, fuel);
      if a.Err? {
        return Err(a.error);
      }
      if !a.value.VInt? {
        return Err(TypeMismatch("BigInteger"));
      }
      var p := LookupVar(Current(), e.name);
      if p.Err? {
        return Err(p.error);
      }
      var lv := frames[p.value].vars[e.name].value;
      if !lv.VList? {
        return Err(TypeMismatch("List"));
      }
      if lv.ref >= |heap| {
        return Err(Dangling);
      }
      var i := IntValue(a.value.i);
      if 0 <= i < |heap[lv.ref]| {
        return Ok(heap[lv.ref][i]);
      }
      return Err(IndexOutOfBounds(i));
    }

    /** The arguments left to right, then the function found for the name and
        their number. */
    method VisitCall(e: Expr, fuel: nat) returns (r: Result<Value, Failure>)
      requires Valid() && e.Call?
      modifies this
      decreases fuel, 1, e, 0
      ensures Valid() && Agrees(r, Eval(old(Current()), e, fuel), Current())
    {
      var args: seq<Value> := [];
      var i := 0;
      assert e.args[0..] == e.args;
      PrependNothing(EvalArgs(Current(), e.args, fuel));
      while i < |e.args|
        invariant Valid() && 0 <= i <= |e.args|
        invariant EvalArgs(old(Current()), e.args, fuel) == PrependValues(args, EvalArgs(Current(), e.args[i..], fuel))
      {
        ArgumentsStep(Current(), e.args, i, args, fuel);
        assert e.args[i] in e.args;
        var a := VisitExpression(e.args[i], fuel);
        if a.Err? {
          return Err(a.error);
        }
        args := args + [a.value];
        i := i + 1;
      }
      assert e.args[i..] == [] && args + [] == args;
      var f := LookupFun(Current(), e.name, |e.args|);
      if f.Err? {
        return Err(f.error);
      }
      r := Invoke(f.value, args, fuel);
    }

    /** A list literal: every element must be an integer. */
    method VisitList(e: Expr, fuel: nat) returns (r: Result<Value, Failure>)
      requires Valid() && e.PlcList?
      modifies this
      decreases fuel, 1, e, 0
      ensures Valid() && Agrees(r, Eval(old(Current()), e, fuel), Current())
    {
      var elements: seq<Value> := [];
      var i := 0;
      assert e.values[0..] == e.values;
      PrependNothing(EvalIntegers(Current(), e.values, fuel));
      while i < |e.values|
        invariant Valid() && 0 <= i <= |e.values|
        invariant EvalIntegers(old(Current()), e.values, fuel) == PrependValues(elements, EvalIntegers(Current(), e.values[i..], fuel))
      {
        IntegersStep(Current(), e.values, i, elements, fuel);
        assert e.values[i] in e.values;
        var a := VisitExpression(e.values[i], fuel);
        if a.Err? {
          return Err(a.error);
        }
        if !a.value.VInt? {
          return Err(TypeMismatch("BigInteger"));
        }
        elements := elements + [a.value];
        i := i + 1;
      }
      assert e.values[i..] == [] && elements + [] == elements;
      r := Ok(VList(|heap|));
      heap := heap + [elements];
    }

    /** `invoke`: a built-in, or a user function whose parameters are
        defined in the current scope and which leaves to that scope's parent
        when its statements end. */
    method Invoke(f: FunDef, args: seq<Value>, fuel: nat) returns (r: Result<Value, Failure>)
      requires Valid()
      modifies this
      decreases fuel, 0
      ensures Valid() && Agrees(r, Evaluation.Invoke(old(Current()), f, args, fuel), Current())
    {
      match f
      case Print =>
        if args == [] {
          return Err(IndexOutOfBounds(0));
        }
        output := output + [args[0]];
        return Ok(VNil);
      case Logarithm =>
        if args == [] {
          return Err(IndexOutOfBounds(0));
        }
        if !args[0].VDec? {
          return Err(TypeMismatch("BigDecimal"));
        }
        return Err(FloatingPoint);
      case Converter =>
        if |args| < 2 {
          return Err(IndexOutOfBounds(|args|));
        }
        if !args[0].VInt? || !args[1].VInt? {
          return Err(TypeMismatch("BigInteger"));
        }
        var text := Convert(args[0].i, args[1].i);
        if text.Err? {
          return Err(text.error);
        }
        return Ok(VStr(text.value));
      case User(params, stmts) =>
        if fuel == 0 {
          return Err(OutOfFuel);
        }
        var i := 0;
        while i < |params|
          invariant Valid() && 0 <= i <= |params|
          invariant BindParameters(old(Current()), params, args, 0) == BindParameters(Current(), params, args, i)
        {
          if i >= |args| {
            return Err(IndexOutOfBounds(i));
          }
          if scope.None? {
            return Err(NullScope);
          }
          var t := DefineVar(Current(), scope.value, params[i], Var(false, args[i]));
          if t.Err? {
            return Err(t.error);
          }
          Load(t.value);
          i := i + 1;
        }
        var body := VisitStatements(stmts, fuel - 1);
        if body.Err? {
          return Err(body.error);
        }
        var popped := PopScope(Current());
        if popped.Err? {
          return Err(popped.error);
        }
        Load(popped.value);
        return Ok(if body.value.Returned? then body.value.value else VNil);
    }

    /** A condition, which must be a Boolean. */
    method VisitCondition(e: Expr, fuel: nat) returns (r: Result<bool, Failure>)
      requires Valid()
      modifies this
      decreases fuel, 1, e, 2
      ensures Valid() && Agrees(r, EvalBool(old(Current()), e, fuel), Current())
    {
      var a := VisitExpression(e, fuel);
      if a.Err? {
        return Err(a.error);
      }
      if !a.value.VBool? {
        return Err(TypeMismatch("Boolean"));
      }
      return Ok(a.value.b);
    }

    /* ---------------- statements ---------------- */

    method VisitStatements(ss: seq<Stmt>, fuel: nat) returns (r: Result<Flow, Failure>)
      requires Valid()
      modifies this
      decreases fuel, 1, ss
      ensures Valid() && Agrees(r, ExecBlock(old(Current()), ss, fuel), Current())
    {
      var i := 0;
      assert ss[0..] == ss;
      while i < |ss|
        invariant Valid() && 0 <= i <= |ss|
        invariant ExecBlock(old(Current()), ss, fuel) == ExecBlock(Current(), ss[i..], fuel)
      {
        BlockStep(Current(), ss, i, fuel);
        var x := VisitStatement(ss[i], fuel);
        if x.Err? {
          return Err(x.error);
        }
        if x.value.Returned? {
          return x;
        }
        i := i + 1;
      }
      assert ss[i..] == [];
      return Ok(Normal);
    }

    method VisitStatement(st: Stmt, fuel: nat) returns (r: Result<Flow, Failure>)
      requires Valid()
      modifies this
      decreases fuel, 1, st, 2
      ensures Valid() && Agrees(r, Exec(old(Current()), st, fuel), Current())
    {
      match st
      case ExprStmt(e) =>
        var a := VisitExpression(e, fuel);
        r := if a.Err? then Err(a.error) else Ok(Normal);
      case Declaration(_, _, _, _) => r := VisitDeclaration(st, fuel);
      case Assignment(_, _) => r := VisitAssignment(st, fuel);
      case If(_, _, _) => r := VisitIf(st, fuel);
      case Switch(_, _) => r := VisitSwitch(st, fuel);
      case While(_, _) => r := VisitWhile(st, fuel);
      case Return(v) =>
        var a := VisitExpression(v, fuel);
        r := if a.Err? then Err(a.error) else Ok(Returned(a.value));
    }

    /** The scope is read before the value is evaluated, and the variable is
        defined in that scope. */
    method VisitDeclaration(st: Stmt, fuel: nat) returns (r: Result<Flow, Failure>)
      requires Valid() && st.Declaration?
      modifies this
      decreases fuel, 1, st, 1
      ensures Valid() && Agrees(r, ExecDeclaration(old(Current()), st, fuel), Current())
    {
      var captured := scope;
      var v := VNil;
      if st.init.Some? {
        var a := VisitExpression(st.init.value, fuel);
        if a.Err? {
          return Err(a.error);
        }
        v := a.value;
      }
      if captured.None? {
        return Err(NullScope);
      }
      var t := DefineVar(Current(), captured.value, st.name, Var(true, v));
      if t.Err? {
        return Err(t.error);
      }
      Load(t.value);
      return Ok(Normal);
    }

    method VisitAssignment(st: Stmt, fuel: nat) returns (r: Result<Flow, Failure>)
      requires Valid() && st.Assignment?
      modifies this
      decreases fuel, 1, st, 1
      ensures Valid() && Agrees(r, ExecAssignment(old(Current()), st, fuel), Current())
    {
      if !st.receiver.Access? {
        return Err(NotAnAccess);
      }
      var name := st.receiver.name;
      if st.receiver.offset.None? {
        var p := LookupVar(Current(), name);
        if p.Err? {
          return Err(p.error);
        }
        var b := VisitExpression(st.value, fuel);
        if b.Err? {
          return Err(b.error);
        }
        Load(SetVar(Current(), p.value, name, b.value));
        return Ok(Normal);
      }
      var a := VisitExpression(st.receiver.offset.value, fuel);
      if a.Err? {
        return Err(a.error);
      }
      if !a.value.VInt? {
        return Err(TypeMismatch("BigInteger"));
      }
      var p := LookupVar(Current(), name);
      if p.Err? {
        return Err(p.error);
      }
      var lv := frames[p.value].vars[name].value;
      if !lv.VList? {
        return Err(TypeMismatch("List"));
      }
      if lv.ref >= |heap| {
        return Err(Dangling);
      }
      var o := IntValue(a.value.i);
      if o > |heap[lv.ref]| - 1 || o < -1 {
        return Err(OutOfBounds);
      }
      var b := VisitExpression(st.value, fuel);
      if b.Err? {
        return Err(b.error);
      }
      var stored := StoreElement(Current(), lv.ref, o, b.value);
      if stored.Err? {
        return Err(stored.error);
      }
      Load(stored.value);
      var q := LookupVar(Current(), name);
      if q.Err? {
        return Err(q.error);
      }
      Load(SetVar(Current(), q.value, name, lv));
      return Ok(Normal);
    }

    method VisitIf(st: Stmt, fuel: nat) returns (r: Result<Flow, Failure>)
      requires Valid() && st.If?
      modifies this
      decreases fuel, 1, st, 1
      ensures Valid() && Agrees(r, ExecIf(old(Current()), st, fuel), Current())
    {
      var c1 := VisitCondition(st.cond, fuel);
      if c1.Err? {
        return Err(c1.error);
      }
      var enter := true;
      if !c1.value {
        var c2 := VisitCondition(st.cond, fuel);
        if c2.Err? {
          return Err(c2.error);
        }
        enter := !c2.value;
      }
      var flow := Normal;
      if enter {
        Load(PushScope(Current()));
        var c3 := VisitCondition(st.cond, fuel);
        if c3.Err? {
          return Err(c3.error);
        }
        var body: Result<Flow, Failure> := Ok(Normal);
        if c3.value {
          body := VisitStatements(st.thenStmts, fuel);
        } else {
          var c4 := VisitCondition(st.cond, fuel);
          if c4.Err? {
            return Err(c4.error);
          }
          if !c4.value {
            body := VisitStatements(st.elseStmts, fuel);
          }
        }
        if body.Err? {
          return Err(body.error);
        }
        flow := body.value;
      }
      var p := PopScope(Current());
      if p.Err? {
        return Err(p.error);
      }
      Load(p.value);
      return Ok(flow);
    }

    /** In a child scope, every case with a value re-evaluates the condition
        and the value, and runs when they are equal; the default case never
        runs. */
    method VisitSwitch(st: Stmt, fuel: nat) returns (r: Result<Flow, Failure>)
      requires Valid() && st.Switch?
      modifies this
      decreases fuel, 1, st, 1
      ensures Valid() && Agrees(r, Exec(old(Current()), st, fuel), Current())
    {
      Load(PushScope(Current()));
      var i := 0;
      while i < |st.cases|
        invariant Valid() && 0 <= i <= |st.cases|
        invariant Exec(old(Current()), st, fuel) == Leave(ExecCases(Current(), st, i, fuel))
      {
        var c := st.cases[i];
        assert c in st.cases;
        if c.value.Some? {
          var cv := VisitExpression(st.cond, fuel);
          if cv.Err? {
            return Err(cv.error);
          }
          var vv := VisitExpression(c.value.value, fuel);
          if vv.Err? {
            return Err(vv.error);
          }
          if ValuesEqual(heap, cv.value, vv.value) {
            var body := VisitCase(c, fuel);
            if body.Err? {
              return Err(body.error);
            }
            if body.value.Returned? {
              var p := PopScope(Current());
              if p.Err? {
                return Err(p.error);
              }
              Load(p.value);
              return body;
            }
          }
        }
        i := i + 1;
      }
      var p := PopScope(Current());
      if p.Err? {
        return Err(p.error);
      }
      Load(p.value);
      return Ok(Normal);
    }

    method VisitCase(c: Case, fuel: nat) returns (r: Result<Flow, Failure>)
      requires Valid()
      modifies this
      decreases fuel, 1, c
      ensures Valid() && Agrees(r, ExecCase(old(Current()), c, fuel), Current())
    {
      Load(PushScope(Current()));
      var body := VisitStatements(c.stmts, fuel);
      if body.Err? {
        return Err(body.error);
      }
      var p := PopScope(Current());
      if p.Err? {
        return Err(p.error);
      }
      Load(p.value);
      return body;
    }

    /** Each iteration re-evaluates the condition and runs the body in a new
        child scope; each costs one unit of fuel. */
    method VisitWhile(st: Stmt, fuel: nat) returns (r: Result<Flow, Failure>)
      requires Valid() && st.While?
      modifies this
      decreases fuel, 1, st, 1
      ensures Valid() && Agrees(r, ExecWhile(old(Current()), st, fuel), Current())
    {
      var f: nat := fuel;
      while true
        invariant Valid() && f <= fuel
        invariant ExecWhile(old(Current()), st, fuel) == ExecWhile(Current(), st, f)
        decreases f
      {
        var c := VisitCondition(st.cond, f);
        if c.Err? {
          return Err(c.error);
        }
        if !c.value {
          return Ok(Normal);
        }
        if f == 0 {
          return Err(OutOfFuel);
        }
        Load(PushScope(Current()));
        var b := VisitStatements(st.body, f - 1);
        if b.Err? {
          return Err(b.error);
        }
        var p := PopScope(Current());
        if p.Err? {
          return Err(p.error);
        }
        Load(p.value);
        if b.value.Returned? {
          return b;
        }
        f := f - 1;
      }
    }

    /* ---------------- programs ---------------- */

    /** A global is always defined as mutable, in the scope that was current
        before its value was evaluated. */
    method VisitGlobal(g: Global, fuel: nat) returns (r: Result<Value, Failure>)
      requires Valid()
      modifies this
      ensures Valid()
      ensures match ExecGlobal(old(Current()), g, fuel)
              case Ok(t) => r == Ok(VNil) && Current() == t
              case Err(f) => r == Err(f)
    {
      var captured := scope;
      var v := VNil;
      if g.value.Some? {
        var a := VisitExpression(g.value.value, fuel);
        if a.Err? {
          return Err(a.error);
        }
        v := a.value;
      }
      if captured.None? {
        return Err(NullScope);
      }
      var t := DefineVar(Current(), captured.value, g.name, Var(true, v));
      if t.Err? {
        return Err(t.error);
      }
      Load(t.value);
      return Ok(VNil);
    }

    method VisitFunction(f: Function) returns (r: Result<Value, Failure>)
      requires Valid()
      modifies this
      ensures Valid()
      ensures match ExecFunction(old(Current()), f)
              case Ok(t) => r == Ok(VNil) && Current() == t
              case Err(e) => r == Err(e)
    {
      if scope.None? {
        return Err(NullScope);
      }
      var t := DefineFun(Current(), scope.value, f.name, |f.params|, User(f.params, f.stmts));
      if t.Err? {
        return Err(t.error);
      }
      Load(t.value);
      return Ok(VNil);
    }

    /** The globals, then the functions, then `main()` with no
        arguments. */
    method VisitSource(src: Source, fuel: nat) returns (r: Result<Value, Failure>)
      requires Valid()
      modifies this
      ensures Valid() && Agrees(r, ExecSource(old(Current()), src, fuel), Current())
    {
      var i := 0;
      assert src.globals[0..] == src.globals;
      while i < |src.globals|
        invariant Valid() && 0 <= i <= |src.globals|
        invariant ExecGlobals(old(Current()), src.globals, fuel) == ExecGlobals(Current(), src.globals[i..], fuel)
      {
        GlobalsStep(Current(), src.globals, i, fuel);
        var g := VisitGlobal(src.globals[i], fuel);
        if g.Err? {
          return Err(g.error);
        }
        i := i + 1;
      }
      assert src.globals[i..] == [];
      ghost var afterGlobals := Current();
      var k := 0;
      assert src.functions[0..] == src.functions;
      while k < |src.functions|
        invariant Valid() && 0 <= k <= |src.functions|
        invariant ExecFunctions(afterGlobals, src.functions) == ExecFunctions(Current(), src.functions[k..])
      {
        FunctionsStep(Current(), src.functions, k);
        var f := VisitFunction(src.functions[k]);
        if f.Err? {
          return Err(f.error);
        }
        k := k + 1;
      }
      assert src.functions[k..] == [];
      var main := LookupFun(Current(), "main", 0);
      if main.Err? {
        return Err(main.error);
      }
      r := Invoke(main.value, [], fuel);
    }
  }
}
