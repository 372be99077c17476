/** The evaluator.  A program runs against a machine state: the scope
    objects created so far (each a frame with a link to its parent), the
    interpreter's current scope (null once the outermost scope has been
    left), the mutable lists, and the values printed so far.  Scopes are kept
    as an arena rather than a stack because a visit may hold on to a scope,
    or to a variable in it, while a call drops that scope from the chain.

    Evaluation takes a `fuel` bound: every loop iteration and every call of
    a user function spends one unit, and running out is reported as
    `OutOfFuel`.  Any failure ends the run, so the state after a failure is
    not modelled. */
module Evaluation {
  import opened Common
  import opened Syntax

  /** Runtime values; a list is a reference into the machine's list heap,
      so every alias sees an update made in place. */
  datatype Value = VNil | VBool(b: bool) | VInt(i: int) | VDec(d: Dec) | VChar(c: char) | VStr(s: string) | VList(ref: nat)

  datatype Var = Var(mutable: bool, value: Value)

  /** What a scope binds to a (name, arity) pair: the three built-ins the
      interpreter's constructor defines, or a user function. */
  datatype FunDef = Print | Logarithm | Converter | User(params: seq<string>, stmts: seq<Stmt>)

  datatype Frame = Frame(vars: map<string, Var>, funs: map<(string, nat), FunDef>, parent: Option<nat>)

  /** Every scope is created after its parent. */
  predicate ParentsBefore(fs: seq<Frame>)
  {
    forall i :: 0 <= i < |fs| && fs[i].parent.Some? ==> fs[i].parent.value < i
  }

  datatype Machine = Machine(frames: seq<Frame>, scope: Option<nat>, heap: seq<seq<Value>>, output: seq<Value>)

  predicate Wf(m: Machine)
  {
    ParentsBefore(m.frames) && (m.scope.Some? ==> m.scope.value < |m.frames|)
  }

  type State = m: Machine | Wf(m) witness Machine([], None, [], [])

  /** How a statement completes normally: it falls through, or it raises the
      `Return` signal with a value. */
  datatype Flow = Normal | Returned(value: Value)

  datatype Failure =
    | NullScope                            // the scope field had become null
    | UndefinedVariable(name: string)
    | UndefinedFunction(name: string, arity: nat)
    | Redefined(name: string)
    | TypeMismatch(expected: string)       // `requireType` or a cast
    | Incomparable                         // `compareTo` across classes
    | DivideByZero
    | IndexOutOfBounds(index: int)         // `List.get` or `List.set`
    | OutOfBounds                          // the bound check of an indexed assignment
    | Unsupported(op: string)
    | NotAnAccess
    | FloatingPoint                        // the logarithm built-in's result
    | Diverges                             // `converter` with base 1
    | Dangling                             // a list reference with no list; never produced
    | OutOfFuel

  /* ---------------- scopes ---------------- */

  /** A variable's frame: the innermost scope from `cur` outwards that
      defines `name`. */
  function FindVar(fs: seq<Frame>, cur: Option<nat>, name: string): (r: Option<nat>)
    requires ParentsBefore(fs) && (cur.Some? ==> cur.value < |fs|)
    decreases if cur.Some? then cur.value + 1 else 0
    ensures r.Some? ==> r.value < |fs| && name in fs[r.value].vars
    ensures cur.None? ==> r.None?
    ensures cur.Some? && name in fs[cur.value].vars ==> r == cur
  {
    if cur.None? then None
    else if name in fs[cur.value].vars then cur
    else FindVar(fs, fs[cur.value].parent, name)
  }

  function FindFun(fs: seq<Frame>, cur: Option<nat>, name: string, arity: nat): (r: Option<FunDef>)
    requires ParentsBefore(fs) && (cur.Some? ==> cur.value < |fs|)
    decreases if cur.Some? then cur.value + 1 else 0
    ensures cur.Some? && (name, arity) in fs[cur.value].funs ==> r == Some(fs[cur.value].funs[(name, arity)])
  {
    if cur.None? then None
    else if (name, arity) in fs[cur.value].funs then Some(fs[cur.value].funs[(name, arity)])
    else FindFun(fs, fs[cur.value].parent, name, arity)
  }

  /** `scope.lookupVariable(name)`: the frame of the variable found. */
  function LookupVar(s: State, name: string): (r: Result<nat, Failure>)
    ensures r.Ok? ==> r.value < |s.frames| && name in s.frames[r.value].vars
    ensures r.Err? ==> r.error in {NullScope, UndefinedVariable(name)}
  {
    if s.scope.None? then Err(NullScope)
    else
      var p := FindVar(s.frames, s.scope, name);
      if p.None? then Err(UndefinedVariable(name)) else Ok(p.value)
  }

  /** `scope.lookupFunction(name, arity)`. */
  function LookupFun(s: State, name: string, arity: nat): Result<FunDef, Failure>
  {
    if s.scope.None? then Err(NullScope)
    else
      var f := FindFun(s.frames, s.scope, name, arity);
      if f.None? then Err(UndefinedFunction(name, arity)) else Ok(f.value)
  }

  function ValueOf(s: State, p: nat, name: string): Value
    requires p < |s.frames| && name in s.frames[p].vars
  {
    s.frames[p].vars[name].value
  }

  /** `scope = new Scope(scope)`: a new innermost scope (a root one when the
      scope was null). */
  function PushScope(s: State): (r: State)
    ensures r.frames == s.frames + [Frame(map[], map[], s.scope)] && r.scope == Some(|s.frames|)
    ensures r.heap == s.heap && r.output == s.output
  {
    var m: State := Machine(s.frames + [Frame(map[], map[], s.scope)], Some(|s.frames|), s.heap, s.output);
    m
  }

  /** `scope = scope.getParent()`, which fails on a null scope. */
  function PopScope(s: State): (r: Result<State, Failure>)
    ensures r.Err? <==> s.scope.None?
    ensures r.Ok? ==> r.value == s.(scope := s.frames[s.scope.value].parent)
  {
    if s.scope.None? then Err(NullScope)
    else
      var m: State := s.(scope := s.frames[s.scope.value].parent);
      Ok(m)
  }

  /** `defineVariable` on the scope at position `p`: fails when that scope
      already defines the name. */
  function DefineVar(s: State, p: nat, name: string, v: Var): (r: Result<State, Failure>)
    requires p < |s.frames|
    ensures r.Ok? <==> name !in s.frames[p].vars
    ensures r.Ok? ==> r.value == s.(frames := s.frames[p := s.frames[p].(vars := s.frames[p].vars[name := v])])
    ensures r.Err? ==> r.error == Redefined(name)
  {
    if name in s.frames[p].vars then Err(Redefined(name))
    else
      var m: State := s.(frames := s.frames[p := s.frames[p].(vars := s.frames[p].vars[name := v])]);
      Ok(m)
  }

  function DefineFun(s: State, p: nat, name: string, arity: nat, f: FunDef): (r: Result<State, Failure>)
    requires p < |s.frames|
    ensures r.Ok? <==> (name, arity) !in s.frames[p].funs
    ensures r.Ok? ==> |r.value.frames| == |s.frames| && r.value.frames[p].funs == s.frames[p].funs[(name, arity) := f]
                      && r.value.frames[p].vars == s.frames[p].vars
  {
    if (name, arity) in s.frames[p].funs then Err(Redefined(name))
    else
      var m: State := s.(frames := s.frames[p := s.frames[p].(funs := s.frames[p].funs[(name, arity) := f])]);
      Ok(m)
  }

  /** `setValue` on the variable `name` of scope `p`; its mutability is
      not consulted. */
  function SetVar(s: State, p: nat, name: string, v: Value): (r: State)
    requires p < |s.frames| && name in s.frames[p].vars
    ensures |r.frames| == |s.frames| && r.scope == s.scope && r.heap == s.heap && r.output == s.output
    ensures r.frames[p] == s.frames[p].(vars := s.frames[p].vars[name := Var(s.frames[p].vars[name].mutable, v)])
    ensures forall i :: 0 <= i < |s.frames| && i != p ==> r.frames[i] == s.frames[i]
  {
    var x := s.frames[p].vars[name];
    var m: State := s.(frames := s.frames[p := s.frames[p].(vars := s.frames[p].vars[name := Var(x.mutable, v)])]);
    m
  }

  /** `t` is `s` after some evaluation: no scope, list or variable is ever
      discarded. */
  predicate Grows(s: State, t: State)
  {
    |s.frames| <= |t.frames| && |s.heap| <= |t.heap| &&
    forall i :: 0 <= i < |s.frames| ==> s.frames[i].vars.Keys <= t.frames[i].vars.Keys
  }

  /* ---------------- lists ---------------- */

  function ListAt(s: State, ref: nat): Result<seq<Value>, Failure>
  {
    if ref < |s.heap| then Ok(s.heap[ref]) else Err(Dangling)
  }

  /** A new list; its reference is the first one unused. */
  function Allocate(s: State, xs: seq<Value>): (r: (State, Value))
    ensures r.0.heap == s.heap + [xs] && r.1 == VList(|s.heap|)
    ensures r.0.frames == s.frames && r.0.scope == s.scope && r.0.output == s.output
  {
    var m: State := s.(heap := s.heap + [xs]);
    (m, VList(|s.heap|))
  }

  /** `List.set(i, v)`, which checks the index itself. */
  function StoreElement(s: State, ref: nat, i: int, v: Value): (r: Result<State, Failure>)
    ensures r.Ok? <==> ref < |s.heap| && 0 <= i < |s.heap[ref]|
    ensures r.Ok? ==> r.value == s.(heap := s.heap[ref := s.heap[ref][i := v]])
  {
    if ref >= |s.heap| then Err(Dangling)
    else if i < 0 || i >= |s.heap[ref]| then Err(IndexOutOfBounds(i))
    else
      var m: State := s.(heap := s.heap[ref := s.heap[ref][i := v]]);
      Ok(m)
  }

  /* ---------------- values ---------------- */

  function LiteralValue(lit: Lit): (v: Value)
    ensures v.VNil? <==> lit.LNil?
    ensures !v.VList?
  {
    match lit
    case LNil => VNil
    case LBool(b) => VBool(b)
    case LInt(i) => VInt(i)
    case LDec(d) => VDec(d)
    case LChar(c) => VChar(c)
    case LStr(s) => VStr(s)
  }

  /** Every value but NIL and a list is a `Comparable`. */
  predicate IsComparable(v: Value)
  {
    !v.VNil? && !v.VList?
  }

  function Sign(n: int): int
  {
    if n < 0 then -1 else if n > 0 then 1 else 0
  }

  /** The two decimals brought to their larger scale. */
  function Aligned(x: Dec, y: Dec): (r: (int, int, int))
  {
    var s := if x.scale >= y.scale then x.scale else y.scale;
    (x.unscaled * Pow10(s - x.scale), y.unscaled * Pow10(s - y.scale), s)
  }

  /** `BigDecimal.add`, `subtract`, `multiply`: exact, at the larger scale
      or at the sum of the scales. */
  function DecAdd(x: Dec, y: Dec): (r: Dec)
    ensures r.scale == (if x.scale >= y.scale then x.scale else y.scale)
    ensures y.unscaled == 0 && y.scale <= x.scale ==> r == x
  {
    var a := Aligned(x, y);
    Dec(a.0 + a.1, a.2)
  }

  function DecSub(x: Dec, y: Dec): (r: Dec)
    ensures r.scale == (if x.scale >= y.scale then x.scale else y.scale)
    ensures x == y ==> r.unscaled == 0
  {
    var a := Aligned(x, y);
    Dec(a.0 - a.1, a.2)
  }

  function DecMul(x: Dec, y: Dec): (r: Dec)
    ensures r.scale == x.scale + y.scale
    ensures r.unscaled == 0 <==> x.unscaled == 0 || y.unscaled == 0
  {
    Dec(x.unscaled * y.unscaled, x.scale + y.scale)
  }

  /** `BigDecimal.compareTo`: by value, whatever the scales. */
  function DecCompare(x: Dec, y: Dec): int
  {
    var a := Aligned(x, y);
    Sign(a.0 - a.1)
  }

  /** `n / d` rounded to an integer, halves going to the even neighbour. */
  function RoundHalfEven(n: int, d: int): (q: int)
    requires d != 0
    ensures Abs(n - q * d) * 2 <= Abs(d)
    ensures Abs(n - q * d) * 2 == Abs(d) ==> q % 2 == 0
  {
    var t := TruncDiv(n, d);
    var rem := TruncRem(n, d);
    var step := if (n < 0) == (d < 0) then 1 else -1;
    if Abs(rem) * 2 < Abs(d) || (Abs(rem) * 2 == Abs(d) && t % 2 == 0) then t
    else
      RoundAway(n, d, t, rem, step);
      t + step
  }

  /** Moving one step away from zero leaves a remainder of at most half
      the divisor when the truncated one was at least half. */
  lemma RoundAway(n: int, d: int, t: int, rem: int, step: int)
    requires d != 0 && n == t * d + rem && Abs(rem) < Abs(d) && (rem == 0 || ((rem < 0) <==> (n < 0)))
    requires step == (if (n < 0) == (d < 0) then 1 else -1) && Abs(rem) * 2 >= Abs(d)
    ensures Abs(n - (t + step) * d) * 2 <= Abs(d)
    ensures Abs(n - (t + step) * d) * 2 == Abs(d) ==> Abs(rem) * 2 == Abs(d)
  {
    assert (t + step) * d == t * d + step * d;
  }

  /** `BigDecimal.divide(y, HALF_EVEN)`: the quotient at the dividend's
      scale. */
  function DecDiv(x: Dec, y: Dec): (r: Result<Dec, Failure>)
    ensures r.Err? <==> y.unscaled == 0
    ensures r.Err? ==> r.error == DivideByZero
    ensures r.Ok? ==> r.value.scale == x.scale
  {
    if y.unscaled == 0 then Err(DivideByZero)
    else
      var n := x.unscaled * (if y.scale >= 0 then Pow10(y.scale) else 1);
      var d := y.unscaled * (if y.scale < 0 then Pow10(-y.scale) else 1);
      Ok(Dec(RoundHalfEven(n, d), x.scale))
  }

  /** `String.compareTo`: the difference of the first differing characters,
      else of the lengths. */
  function StringCompare(x: string, y: string): (c: int)
    ensures |x| < |y| && x == y[..|x|] ==> c < 0
    ensures |y| < |x| && y == x[..|y|] ==> c > 0
  {
    if x == [] || y == [] then |x| - |y|
    else if x[0] != y[0] then x[0] as int - y[0] as int
    else StringCompare(x[1..], y[1..])
  }

  /** `compareTo` between two comparable values; values of different
      classes cannot be compared. */
  function CompareValues(l: Value, r: Value): (c: Result<int, Failure>)
    ensures c.Ok? <==> (l.VBool? && r.VBool?) || (l.VInt? && r.VInt?) || (l.VDec? && r.VDec?)
                       || (l.VChar? && r.VChar?) || (l.VStr? && r.VStr?)
    ensures l.VInt? && r.VInt? ==> c == Ok(Sign(l.i - r.i))
  {
    match (l, r)
    case (VBool(x), VBool(y)) => Ok(if x == y then 0 else if x then 1 else -1)
    case (VInt(x), VInt(y)) => Ok(Sign(x - y))
    case (VDec(x), VDec(y)) => Ok(DecCompare(x, y))
    case (VChar(x), VChar(y)) => Ok(x as int - y as int)
    case (VStr(x), VStr(y)) => Ok(StringCompare(x, y))
    case _ => Err(Incomparable)
  }

  /** Integer `^`: the left operand multiplied by itself until the loop
      counter reaches the 32-bit value of the right one. */
  function IntPower(l: int, r: int): (v: int)
    ensures IntValue(r) <= 1 ==> v == l
    ensures IntValue(r) >= 1 ==> v == Pow(l, IntValue(r) as nat)
  {
    if IntValue(r) <= 1 then l else Pow(l, IntValue(r) as nat)
  }

  /** The result of a binary operator when its right operand is never
      evaluated: a short circuit, or a left operand that no branch accepts. */
  function ShortCircuit(op: string, l: Value): (r: Option<Result<Value, Failure>>)
    ensures l.VBool? && op == "&&" && !l.b ==> r == Some(Ok(VBool(false)))
    ensures l.VBool? && op == "||" && l.b ==> r == Some(Ok(VBool(true)))
    ensures !IsComparable(l) ==> r == Some(Err(Unsupported(op)))
  {
    if l.VBool? && op == "&&" && !l.b then Some(Ok(VBool(false)))
    else if l.VBool? && op == "||" && l.b then Some(Ok(VBool(true)))
    else if !IsComparable(l) then Some(Err(Unsupported(op)))
    else None
  }

  /** `visit(Binary)` once both operands are known, in the order of its
      branches: Boolean, Comparable, Integer, Decimal, String. */
  function BinaryValue(op: string, l: Value, r: Value): (v: Result<Value, Failure>)
    ensures v.Ok? ==> !v.value.VNil? && !v.value.VList? && !v.value.VChar?
    ensures v.Ok? && op in ["<", ">", "==", "!=", "&&", "||"] ==> v.value.VBool?
    ensures l.VDec? && r.VDec? && op == "/" ==> (v == Err(DivideByZero) <==> r.d.unscaled == 0)
  {
    if l.VBool? && op == "&&" then Ok(VBool(!(r.VBool? && !r.b)))
    else if l.VBool? && op == "||" then
      if r.VBool? then Ok(VBool(r.b)) else Err(TypeMismatch("Boolean"))
    else if IsComparable(l) && IsComparable(r) && op in ["<", ">", "==", "!="] then
      var c :- CompareValues(l, r);
      Ok(VBool(if op == "<" then c < 0 else if op == ">" then c > 0 else if op == "==" then c == 0 else c != 0))
    else if l.VInt? && r.VInt? && op in ["+", "-", "*", "/", "^"] then
      if op == "+" then Ok(VInt(l.i + r.i))
      else if op == "-" then Ok(VInt(l.i - r.i))
      else if op == "*" then Ok(VInt(l.i * r.i))
      else if op == "/" then
        if r.i == 0 then Err(DivideByZero) else Ok(VInt(TruncDiv(l.i, r.i)))
      else Ok(VInt(IntPower(l.i, r.i)))
    else if l.VDec? && r.VDec? && op in ["+", "-", "*", "/"] then
      if op == "+" then Ok(VDec(DecAdd(l.d, r.d)))
      else if op == "-" then Ok(VDec(DecSub(l.d, r.d)))
      else if op == "*" then Ok(VDec(DecMul(l.d, r.d)))
      else
        var q :- DecDiv(l.d, r.d);
        Ok(VDec(q))
    else if l.VStr? && r.VStr? && op == "+" then Ok(VStr(l.s + r.s))
    else Err(Unsupported(op))
  }

  /** `equals` between a switch's condition and a case value: same class
      and same value, a decimal's scale included; two lists are equal when
      their elements are, element lists compared by reference. */
  function ValuesEqual(heap: seq<seq<Value>>, l: Value, r: Value): (b: bool)
    ensures l == r && (l.VList? ==> l.ref < |heap|) ==> b
    ensures b ==> (l.VList? <==> r.VList?)
    ensures b && l.VDec? ==> r == l
  {
    if l.VList? && r.VList? then
      l.ref < |heap| && r.ref < |heap| && heap[l.ref] == heap[r.ref]
    else l == r
  }

  /* ---------------- the converter built-in ---------------- */

  /** The remainders of `converter`'s loop, least significant first: divide
      by the base until the quotient is no longer positive. */
  function Remainders(q: int, b: int): (rs: seq<int>)
    requires b != 0 && !(b == 1 && q > 0)
    decreases if q > 0 then q else 1 - q
    ensures |rs| >= 1
  {
    var next := TruncDiv(q, b);
    if next > 0 then
      QuotientShrinks(q, b);
      [Leftover(q, b)] + Remainders(next, b)
    else [Leftover(q, b)]
  }

  /** What dividing `q` by `b` leaves: `q` less the truncated quotient times `b`. */
  function Leftover(q: int, b: int): int
    requires b != 0
  {
    q - TruncDiv(q, b) * b
  }

  lemma QuotientShrinks(q: int, b: int)
    requires b != 0 && !(b == 1 && q > 0) && TruncDiv(q, b) > 0
    ensures q > 0 ==> TruncDiv(q, b) < q
    ensures q <= 0 ==> TruncDiv(q, b) < 1 - q
  {
    var next := TruncDiv(q, b);
    assert (q < 0) == (b < 0);
    if q > 0 {
      assert b >= 2;
      DivLess(q, b);
    } else {
      DivLess(-q, -b);
    }
  }

  lemma DivLess(x: int, y: int)
    requires x >= 0 && y >= 1
    ensures x / y <= x
    ensures y >= 2 && x > 0 ==> x / y < x
  {
  }

  /** The texts of some remainders, last first. */
  function Concatenated(rs: seq<int>): string
  {
    if rs == [] then "" else IntToString(rs[|rs| - 1]) + Concatenated(rs[..|rs| - 1])
  }

  /** `converter(n, b)`.  With base 1 and a positive number the quotient
      never shrinks and the loop does not end. */
  function ConverterText(n: int, b: int): (r: Result<string, Failure>)
    ensures r.Err? <==> b == 0 || (b == 1 && n > 0)
    ensures r.Ok? ==> |r.value| > 0
  {
    if b == 0 then Err(DivideByZero)
    else if b == 1 && n > 0 then Err(Diverges)
    else Ok(Concatenated(Remainders(n, b)))
  }

  /* ---------------- evaluation ---------------- */

  /** `visit(Expression)`: the value and the state after it. */
  function Eval(s: State, e: Expr, fuel: nat): (r: Result<(State, Value), Failure>)
    decreases fuel, 1, e, 1
    ensures r.Ok? ==> Grows(s, r.value.0)
  {
    match e
    case Literal(lit, _) => Ok((s, LiteralValue(lit)))
    case Group(inner, _) => Eval(s, inner, fuel)
    case Binary(_, _, _, _) => EvalBinary(s, e, fuel)
    case Access(_, _, _) => EvalAccess(s, e, fuel)
    case Call(name, args, _) =>
      var a :- EvalArgs(s, args, fuel);
      var f :- LookupFun(a.0, name, |args|);
      Invoke(a.0, f, a.1, fuel)
    case PlcList(vs, _) =>
      var a :- EvalIntegers(s, vs, fuel);
      Ok(Allocate(a.0, a.1))
  }

  /** `visit(Binary)` with each operand evaluated at most once: the right
      one only when the left one neither short-circuits nor rules out every
      branch. */
  function EvalBinary(s: State, e: Expr, fuel: nat): (r: Result<(State, Value), Failure>)
    requires e.Binary?
    decreases fuel, 1, e, 0
    ensures r.Ok? ==> Grows(s, r.value.0)
  {
    var a :- Eval(s, e.left, fuel);
    var sc := ShortCircuit(e.op, a.1);
    if sc.Some? then
      var v :- sc.value;
      Ok((a.0, v))
    else
      var b :- Eval(a.0, e.right, fuel);
      var v :- BinaryValue(e.op, a.1, b.1);
      Ok((b.0, v))
  }

  /** `visit(Access)`: a variable's value, or the element of its list at the
      32-bit value of the offset. */
  function EvalAccess(s: State, e: Expr, fuel: nat): (r: Result<(State, Value), Failure>)
    requires e.Access?
    decreases fuel, 1, e, 0
    ensures r.Ok? ==> Grows(s, r.value.0)
  {
    if e.offset.None? then
      var p :- LookupVar(s, e.name);
      Ok((s, ValueOf(s, p, e.name)))
    else
      var a :- Eval(s, e.offset.value, fuel);
      if !a.1.VInt? then Err(TypeMismatch("BigInteger"))
      else
        var p :- LookupVar(a.0, e.name);
        var lv := ValueOf(a.0, p, e.name);
        if !lv.VList? then Err(TypeMismatch("List"))
        else
          var xs :- ListAt(a.0, lv.ref);
          var i := IntValue(a.1.i);
          if 0 <= i < |xs| then Ok((a.0, xs[i])) else Err(IndexOutOfBounds(i))
  }

  /** The arguments of a call, left to right. */
  function EvalArgs(s: State, es: seq<Expr>, fuel: nat): (r: Result<(State, seq<Value>), Failure>)
    decreases fuel, 1, es
    ensures r.Ok? ==> Grows(s, r.value.0) && |r.value.1| == |es|
  {
    if es == [] then Ok((s, []))
    else
      var a :- Eval(s, es[0], fuel);
      var rest :- EvalArgs(a.0, es[1..], fuel);
      Ok((rest.0, [a.1] + rest.1))
  }

  /** The elements of a list literal, each of which must be an integer. */
  function EvalIntegers(s: State, es: seq<Expr>, fuel: nat): (r: Result<(State, seq<Value>), Failure>)
    decreases fuel, 1, es
    ensures r.Ok? ==> Grows(s, r.value.0) && |r.value.1| == |es| && forall i :: 0 <= i < |es| ==> r.value.1[i].VInt?
  {
    if es == [] then Ok((s, []))
    else
      var a :- Eval(s, es[0], fuel);
      if !a.1.VInt? then Err(TypeMismatch("BigInteger"))
      else
        var rest :- EvalIntegers(a.0, es[1..], fuel);
        Ok((rest.0, [a.1] + rest.1))
  }

  /** `invoke` on a function found by a call; a user function costs one
      unit of fuel. */
  function Invoke(s: State, f: FunDef, args: seq<Value>, fuel: nat): (r: Result<(State, Value), Failure>)
    decreases fuel, 0
    ensures r.Ok? ==> Grows(s, r.value.0)
  {
    match f
    case Print =>
      if args == [] then Err(IndexOutOfBounds(0))
      else
        var m: State := s.(output := s.output + [args[0]]);
        Ok((m, VNil))
    case Logarithm =>
      if args == [] then Err(IndexOutOfBounds(0))
      else if !args[0].VDec? then Err(TypeMismatch("BigDecimal"))
      else Err(FloatingPoint)
    case Converter =>
      if |args| < 2 then Err(IndexOutOfBounds(|args|))
      else if !args[0].VInt? || !args[1].VInt? then Err(TypeMismatch("BigInteger"))
      else
        var text :- ConverterText(args[0].i, args[1].i);
        Ok((s, VStr(text)))
    case User(params, stmts) =>
      if fuel == 0 then Err(OutOfFuel)
      else
        var bound :- BindParameters(s, params, args, 0);
        var body :- ExecBlock(bound, stmts, fuel - 1);
        var popped :- PopScope(body.0);
        Ok((popped, if body.1.Returned? then body.1.value else VNil))
  }

  /** The parameters from position `i` on, each defined as an immutable
      variable in the current scope. */
  function BindParameters(s: State, params: seq<string>, args: seq<Value>, i: nat): (r: Result<State, Failure>)
    decreases |params| - i
    ensures r.Ok? ==> Grows(s, r.value) && r.value.scope == s.scope
  {
    if i >= |params| then Ok(s)
    else if i >= |args| then Err(IndexOutOfBounds(i))
    else if s.scope.None? then Err(NullScope)
    else
      var t :- DefineVar(s, s.scope.value, params[i], Var(false, args[i]));
      BindParameters(t, params, args, i + 1)
  }

  /** A condition that must evaluate to a Boolean. */
  function EvalBool(s: State, e: Expr, fuel: nat): (r: Result<(State, bool), Failure>)
    decreases fuel, 1, e, 2
    ensures r.Ok? ==> Grows(s, r.value.0)
  {
    var a :- Eval(s, e, fuel);
    if a.1.VBool? then Ok((a.0, a.1.b)) else Err(TypeMismatch("Boolean"))
  }

  /** `visit(Statement)`. */
  function Exec(s: State, st: Stmt, fuel: nat): (r: Result<(State, Flow), Failure>)
    decreases fuel, 1, st, 2
    ensures r.Ok? ==> Grows(s, r.value.0)
  {
    match st
    case ExprStmt(e) =>
      var a :- Eval(s, e, fuel);
      Ok((a.0, Normal))
    case Declaration(_, _, _, _) => ExecDeclaration(s, st, fuel)
    case Assignment(_, _) => ExecAssignment(s, st, fuel)
    case If(_, _, _) => ExecIf(s, st, fuel)
    case Switch(_, _) => Leave(ExecCases(PushScope(s), st, 0, fuel))
    case While(_, _) => ExecWhile(s, st, fuel)
    case Return(v) =>
      var a :- Eval(s, v, fuel);
      Ok((a.0, Returned(a.1)))
  }

  /** The `finally` of a scoped statement: back to the parent of whatever
      scope is current when the body ends. */
  function Leave(body: Result<(State, Flow), Failure>): (r: Result<(State, Flow), Failure>)
    ensures body.Ok? && r.Ok? ==> r.value.1 == body.value.1 && r.value.0.frames == body.value.0.frames
  {
    var b :- body;
    var p :- PopScope(b.0);
    Ok((p, b.1))
  }

  /** `visit(Declaration)`: a mutable variable, defined in the scope that
      was current before its value was evaluated. */
  function ExecDeclaration(s: State, st: Stmt, fuel: nat): (r: Result<(State, Flow), Failure>)
    requires st.Declaration?
    decreases fuel, 1, st, 1
    ensures r.Ok? ==> Grows(s, r.value.0) && r.value.1 == Normal
  {
    var a :- if st.init.Some? then Eval(s, st.init.value, fuel) else Ok((s, VNil));
    if s.scope.None? then Err(NullScope)
    else
      var t :- DefineVar(a.0, s.scope.value, st.name, Var(true, a.1));
      Ok((t, Normal))
  }

  /** `visit(If)`: the condition is evaluated up to twice to decide whether
      to enter (a false and then true condition pops a scope it never
      pushed), then, in a child scope, up to twice more to pick a branch. */
  function ExecIf(s: State, st: Stmt, fuel: nat): (r: Result<(State, Flow), Failure>)
    requires st.If?
    decreases fuel, 1, st, 1
    ensures r.Ok? ==> Grows(s, r.value.0)
  {
    var c1 :- EvalBool(s, st.cond, fuel);
    var c2 :- if c1.1 then Ok((c1.0, true)) else EvalBool(c1.0, st.cond, fuel);
    if !c1.1 && c2.1 then Leave(Ok((c2.0, Normal)))
    else
      var t := PushScope(c2.0);
      var c3 :- EvalBool(t, st.cond, fuel);
      var c4 :- if c3.1 then Ok((c3.0, true)) else EvalBool(c3.0, st.cond, fuel);
      if c3.1 then Leave(ExecBlock(c3.0, st.thenStmts, fuel))
      else if !c4.1 then Leave(ExecBlock(c4.0, st.elseStmts, fuel))
      else Leave(Ok((c4.0, Normal)))
  }

  /** `visit(While)`: each iteration re-evaluates the condition and runs
      the body in a new child scope, and costs one unit of fuel. */
  function ExecWhile(s: State, st: Stmt, fuel: nat): (r: Result<(State, Flow), Failure>)
    requires st.While?
    decreases fuel, 1, st, 1
    ensures r.Ok? ==> Grows(s, r.value.0)
  {
    var cv :- EvalBool(s, st.cond, fuel);
    if !cv.1 then Ok((cv.0, Normal))
    else if fuel == 0 then Err(OutOfFuel)
    else
      var b :- Leave(ExecBlock(PushScope(cv.0), st.body, fuel - 1));
      if b.1.Returned? then Ok(b) else ExecWhile(b.0, st, fuel - 1)
  }

  /** `visit(Assignment)`.  An indexed one evaluates the index, finds the
      list, checks the bound, evaluates the value, stores it and stores the
      list back; a plain one finds the variable before evaluating the
      value. */
  function ExecAssignment(s: State, st: Stmt, fuel: nat): (r: Result<(State, Flow), Failure>)
    requires st.Assignment?
    decreases fuel, 1, st, 1
    ensures r.Ok? ==> Grows(s, r.value.0)
  {
    var Assignment(receiver, value) := st;
    if !receiver.Access? then Err(NotAnAccess)
    else if receiver.offset.Some? then
      var a :- Eval(s, receiver.offset.value, fuel);
      if !a.1.VInt? then Err(TypeMismatch("BigInteger"))
      else
        var p :- LookupVar(a.0, receiver.name);
        var lv := ValueOf(a.0, p, receiver.name);
        if !lv.VList? then Err(TypeMismatch("List"))
        else
          var xs :- ListAt(a.0, lv.ref);
          var o := IntValue(a.1.i);
          if o > |xs| - 1 || o < -1 then Err(OutOfBounds)
          else
            var b :- Eval(a.0, value, fuel);
            var stored :- StoreElement(b.0, lv.ref, o, b.1);
            var q :- LookupVar(stored, receiver.name);
            Ok((SetVar(stored, q, receiver.name, lv), Normal))
    else
      var p :- LookupVar(s, receiver.name);
      var b :- Eval(s, value, fuel);
      Ok((SetVar(b.0, p, receiver.name, b.1), Normal))
  }

  /** The cases of a switch from position `i` on: each case with a value
      re-evaluates the condition and the value, and runs when they are
      equal; the default case is skipped. */
  function ExecCases(s: State, sw: Stmt, i: nat, fuel: nat): (r: Result<(State, Flow), Failure>)
    requires sw.Switch?
    decreases fuel, 1, sw, 0, |sw.cases| - i
    ensures r.Ok? ==> Grows(s, r.value.0)
  {
    if i >= |sw.cases| then Ok((s, Normal))
    else
      var c := sw.cases[i];
      assert c in sw.cases;
      if c.value.None? then ExecCases(s, sw, i + 1, fuel)
      else
        var cv :- Eval(s, sw.cond, fuel);
        var vv :- Eval(cv.0, c.value.value, fuel);
        if ValuesEqual(vv.0.heap, cv.1, vv.1) then
          var body :- ExecCase(vv.0, c, fuel);
          if body.1.Returned? then Ok(body) else ExecCases(body.0, sw, i + 1, fuel)
        else ExecCases(vv.0, sw, i + 1, fuel)
  }

  /** `visit(Case)`: the statements in a child scope. */
  function ExecCase(s: State, c: Case, fuel: nat): (r: Result<(State, Flow), Failure>)
    decreases fuel, 1, c
    ensures r.Ok? ==> Grows(s, r.value.0)
  {
    Leave(ExecBlock(PushScope(s), c.stmts, fuel))
  }

  /** A statement list, left to right, up to the first `return`. */
  function ExecBlock(s: State, ss: seq<Stmt>, fuel: nat): (r: Result<(State, Flow), Failure>)
    decreases fuel, 1, ss
    ensures r.Ok? ==> Grows(s, r.value.0)
  {
    if ss == [] then Ok((s, Normal))
    else
      var first :- Exec(s, ss[0], fuel);
      if first.1.Returned? then Ok(first) else ExecBlock(first.0, ss[1..], fuel)
  }

  /* ---------------- programs ---------------- */

  /** `visit(Global)`: always defined as mutable, in the scope current
      before the value is evaluated. */
  function ExecGlobal(s: State, g: Global, fuel: nat): (r: Result<State, Failure>)
    ensures r.Ok? ==> Grows(s, r.value)
  {
    var a :- if g.value.Some? then Eval(s, g.value.value, fuel) else Ok((s, VNil));
    if s.scope.None? then Err(NullScope)
    else
      DefineVar(a.0, s.scope.value, g.name, Var(true, a.1))
  }

  /** `visit(Function)`: binds the name and arity to the function in the
      current scope. */
  function ExecFunction(s: State, f: Function): (r: Result<State, Failure>)
    ensures r.Ok? ==> Grows(s, r.value) && r.value.scope == s.scope
  {
    if s.scope.None? then Err(NullScope)
    else DefineFun(s, s.scope.value, f.name, |f.params|, User(f.params, f.stmts))
  }

  function ExecGlobals(s: State, gs: seq<Global>, fuel: nat): (r: Result<State, Failure>)
    decreases gs
    ensures r.Ok? ==> Grows(s, r.value)
  {
    if gs == [] then Ok(s)
    else
      var t :- ExecGlobal(s, gs[0], fuel);
      ExecGlobals(t, gs[1..], fuel)
  }

  function ExecFunctions(s: State, fs: seq<Function>): (r: Result<State, Failure>)
    decreases fs
    ensures r.Ok? ==> Grows(s, r.value) && r.value.scope == s.scope
  {
    if fs == [] then Ok(s)
    else
      var t :- ExecFunction(s, fs[0]);
      ExecFunctions(t, fs[1..])
  }

  /** `visit(Source)`: the globals, then the functions, then `main()`. */
  function ExecSource(s: State, src: Source, fuel: nat): (r: Result<(State, Value), Failure>)
    ensures r.Ok? ==> Grows(s, r.value.0)
    ensures ExecGlobals(s, src.globals, fuel).Err? ==> r == Err(ExecGlobals(s, src.globals, fuel).error)
  {
    var g :- ExecGlobals(s, src.globals, fuel);
    var f :- ExecFunctions(g, src.functions);
    var main :- LookupFun(f, "main", 0);
    Invoke(f, main, [], fuel)
  }

  /** The interpreter's constructor: a child of `parent` holding the three
      built-ins. */
  function Initial(frames: seq<Frame>, parent: Option<nat>): (r: State)
    requires ParentsBefore(frames) && (parent.Some? ==> parent.value < |frames|)
    ensures r.scope == Some(|frames|) && |r.frames| == |frames| + 1
  {
    var funs := map[("print", 1) := Print, ("logarithm", 1) := Logarithm, ("converter", 2) := Converter];
    var m: State := Machine(frames + [Frame(map[], funs, parent)], Some(|frames|), [], []);
    m
  }
}
