/** The Java text the generator writes for an analysed tree.  Each function
    gives the text that one `visit` appends to the writer, or the failure
    that stops it.  A line break is `"\n"`; `newline(k)` indents the next
    line by `k` steps of four spaces, counted from the margin and not from
    the enclosing construct. */
module Generation {
  import opened Common
  import opened Syntax

  datatype Failure =
    | Unannotated            // a type, variable or function annotation was never set
    | NullLiteral            // `toString` on the literal `NIL`
    | EmptyList              // `get(-1)` on a list literal with no element
    | MissingValue           // `Optional.get` on a list global without a value
    | MissingParameterType   // fewer parameter type names than parameters

  /** The text of `r` after the text `done` already written. */
  function Then(done: string, r: Result<string, Failure>): Result<string, Failure>
  {
    match r
    case Ok(t) => Ok(done + t)
    case Err(f) => Err(f)
  }

  /** `newline(k)`: a line break, then `k` steps of four spaces. */
  function Newline(k: nat): string
  {
    if k == 0 then "\n" else Newline(k - 1) + "    "
  }

  /* ---------------- literals ---------------- */

  /** `k` zeros. */
  function Zeros(k: nat): (t: string)
    ensures |t| == k && forall i :: 0 <= i < k ==> t[i] == '0'
  {
    if k == 0 then "" else Zeros(k - 1) + "0"
  }

  /** `BigDecimal.toString`: plain notation when the scale is not negative
      and the exponent of the leading digit is at least -6, else scientific
      notation with one digit before the point. */
  function DecimalText(d: Dec): (t: string)
    ensures |t| > 0 && (t[0] == '-' <==> d.unscaled < 0)
    ensures d.scale == 0 ==> t == IntToString(d.unscaled)
  {
    var coeff := NatToString(Abs(d.unscaled));
    var sign := if d.unscaled < 0 then "-" else "";
    var adjusted := |coeff| - 1 - d.scale;
    if d.scale == 0 then sign + coeff
    else if d.scale > 0 && adjusted >= -6 then
      if |coeff| > d.scale then sign + coeff[..|coeff| - d.scale] + "." + coeff[|coeff| - d.scale..]
      else sign + "0." + Zeros(d.scale - |coeff|) + coeff
    else
      sign + coeff[..1] + (if |coeff| > 1 then "." + coeff[1..] else "") + "E" + (if adjusted > 0 then "+" else "") + IntToString(adjusted)
  }

  /** A literal's `toString`. */
  function LiteralText(lit: Lit): (r: Result<string, Failure>)
    ensures r.Err? <==> lit.LNil?
    ensures r.Ok? && !lit.LStr? ==> |r.value| > 0
  {
    match lit
    case LNil => Err(NullLiteral)
    case LBool(b) => Ok(if b then "true" else "false")
    case LInt(i) => Ok(IntToString(i))
    case LDec(d) => Ok(DecimalText(d))
    case LChar(c) => Ok([c])
    case LStr(s) => Ok(s)
  }

  /* ---------------- expressions ---------------- */

  function ExprText(e: Expr): (r: Result<string, Failure>)
    decreases e, 1
    ensures r.Ok? && e.Literal? ==> e.litType.Some? && !e.lit.LNil?
    ensures r.Ok? && e.Access? ==> e.variable.Some?
    ensures r.Ok? && e.Call? ==> e.fn.Some?
    ensures r.Ok? && e.PlcList? ==> e.values != []
  {
    match e
    case Literal(lit, t) =>
      if t.None? then Err(Unannotated)
      else
        var text :- LiteralText(lit);
        if t.value == Character then Ok("'" + text + "'")
        else if t.value == String then Ok("\"" + text + "\"")
        else Ok(text)
    case Group(inner, _) =>
      var i :- ExprText(inner);
      Ok("(" + i + ")")
    case Binary(op, l, r, _) =>
      var lt :- ExprText(l);
      var rt :- ExprText(r);
      if op == "^" then Ok("Math.pow(" + lt + ", " + rt + ")")
      else Ok(lt + " " + op + " " + rt)
    case Access(off, _, v) =>
      if v.None? then Err(Unannotated)
      else if off.None? then Ok(v.value.jvmName)
      else
        var o :- ExprText(off.value);
        Ok(v.value.jvmName + "[" + o + "]")
    case Call(_, args, f) =>
      if f.None? then Err(Unannotated)
      else
        var a :- ListText(args);
        Ok(f.value.jvmName + "(" + a + ")")
    case PlcList(vs, _) =>
      if vs == [] then Err(EmptyList)
      else
        var a :- ListText(vs);
        Ok("{" + a + "}")
  }

  /** Expressions separated by `", "`. */
  function ListText(es: seq<Expr>): Result<string, Failure>
    decreases es, 0
  {
    if es == [] then Ok("")
    else
      var first :- ExprText(es[0]);
      if |es| == 1 then Ok(first)
      else
        var rest :- ListText(es[1..]);
        Ok(first + ", " + rest)
  }

  /* ---------------- statements ---------------- */

  function StmtText(st: Stmt): (r: Result<string, Failure>)
    decreases st, 1
    ensures r.Ok? ==> |r.value| > 0
    ensures r.Ok? && st.Declaration? ==> st.variable.Some?
  {
    match st
    case ExprStmt(e) =>
      var t :- ExprText(e);
      Ok(t + ";")
    case Declaration(name, _, init, v) =>
      if v.None? then Err(Unannotated)
      else
        var head := JvmName(v.value.ty) + " " + name;
        if init.None? then Ok(head + ";")
        else
          var i :- ExprText(init.value);
          Ok(head + " = " + i + ";")
    case Assignment(receiver, value) =>
      var rt :- ExprText(receiver);
      var vt :- ExprText(value);
      Ok(rt + " = " + vt + ";")
    case If(cond, th, el) =>
      var c :- ExprText(cond);
      var t :- BlockText(th, 1);
      var head := "if (" + c + ") {" + t + Newline(0) + "}";
      if el == [] then Ok(head)
      else
        var e :- BlockText(el, 1);
        Ok(head + " else {" + e + Newline(0) + "}")
    case Switch(cond, cases) =>
      var c :- ExprText(cond);
      var cs :- CasesText(cases);
      Ok("switch (" + c + ") {" + cs + Newline(0) + "}")
    case While(cond, body) =>
      var c :- ExprText(cond);
      if body == [] then Ok("while (" + c + ") {}")
      else
        var b :- BlockText(body, 1);
        Ok("while (" + c + ") {" + b + Newline(0) + "}")
    case Return(value) =>
      var v :- ExprText(value);
      Ok("return " + v + ";")
  }

  /** Each statement on a new line indented by `k` steps. */
  function BlockText(ss: seq<Stmt>, k: nat): Result<string, Failure>
    decreases ss, 0
  {
    if ss == [] then Ok("")
    else
      var first :- StmtText(ss[0]);
      var rest :- BlockText(ss[1..], k);
      Ok(Newline(k) + first + rest)
  }

  /** Each case on a new line indented by one step. */
  function CasesText(cs: seq<Case>): Result<string, Failure>
    decreases cs, 0
  {
    if cs == [] then Ok("")
    else
      var first :- CaseText(cs[0]);
      var rest :- CasesText(cs[1..]);
      Ok(Newline(1) + first + rest)
  }

  /** A case label, then its statements indented by two steps. */
  function CaseText(c: Case): Result<string, Failure>
    decreases c, 1
  {
    if c.value.None? then
      var body :- BlockText(c.stmts, 2);
      Ok("default:" + body)
    else
      var v :- ExprText(c.value.value);
      var body :- BlockText(c.stmts, 2);
      Ok("case " + v + ":" + body)
  }

  /* ---------------- declarations ---------------- */

  /** A global: a list global writes its element type and `[]`; any other
      global writes its own name where the type would go, and ends with `;`
      only when it has a value. */
  function GlobalText(g: Global): (r: Result<string, Failure>)
    ensures r.Ok? ==> g.variable.Some? && |r.value| > 0
    ensures g.variable.Some? && g.variable.value.jvmName == "list" && g.value.None? ==> r == Err(MissingValue)
    ensures r.Ok? && g.value.Some? ==> r.value[|r.value| - 1] == ';'
  {
    if g.variable.None? then Err(Unannotated)
    else
      var v := g.variable.value;
      if v.jvmName == "list" then
        if g.value.None? then Err(MissingValue)
        else
          var t :- ExprText(g.value.value);
          Ok(JvmName(v.ty) + "[] " + v.name + " = " + t + ";")
      else
        var head := (if g.mutable then "" else "final ") + g.name + " " + v.name;
        if g.value.None? then Ok(head)
        else
          var t :- ExprText(g.value.value);
          Ok(head + " = " + t + ";")
  }

  /** The parameter list as written: every parameter but the last is
      written with the first type name and the first name, and the last with
      its own type name and the first name. */
  function ParametersAsWritten(types: seq<string>, params: seq<string>): (r: Result<string, Failure>)
    ensures r.Err? <==> |types| < |params|
    ensures r.Err? ==> r.error == MissingParameterType
  {
    var n := |params|;
    if n == 0 then Ok("")
    else if |types| < n then Err(MissingParameterType)
    else if n == 1 then Ok(types[0] + " " + params[0])
    else Ok(Repeat(types[0] + " " + params[0] + ", ", n - 1) + types[n - 1] + " " + params[0])
  }

  function Repeat(t: string, k: nat): string
  {
    if k == 0 then "" else Repeat(t, k - 1) + t
  }

  /** The parameter list each parameter written with its own type name,
      separated by `", "`. */
  function Parameters(types: seq<string>, params: seq<string>): (r: Result<string, Failure>)
    ensures r.Err? <==> |types| < |params|
    ensures r.Err? ==> r.error == MissingParameterType
  {
    if params == [] then Ok("")
    else if |types| < |params| then Err(MissingParameterType)
    else if |params| == 1 then Ok(types[0] + " " + params[0])
    else
      Ok(types[0] + " " + params[0] + ", " + Parameters(types[1..], params[1..]).value)
  }

  /** A method: its return type's Java name, its name, its parameters and
      its statements indented by two steps. */
  function FunctionText(f: Function): (r: Result<string, Failure>)
    ensures r.Ok? <==> f.fn.Some? && |f.params| <= |f.paramTypeNames| && BlockText(f.stmts, 2).Ok?
    ensures r.Ok? ==> |r.value| > 0 && r.value[|r.value| - 1] == '}'
  {
    if f.fn.None? then Err(Unannotated)
    else
      var ps :- Parameters(f.paramTypeNames, f.params);
      var head := JvmName(f.fn.value.returnType) + " " + f.fn.value.name + "(" + ps + ") {";
      if f.stmts == [] then Ok(head + "}")
      else
        var body :- BlockText(f.stmts, 2);
        Ok(head + body + Newline(1) + "}")
  }

  /** Each global on a new line indented by one step. */
  function GlobalsText(gs: seq<Global>): Result<string, Failure>
  {
    if gs == [] then Ok("")
    else
      var first :- GlobalText(gs[0]);
      var rest :- GlobalsText(gs[1..]);
      Ok(Newline(1) + first + rest)
  }

  /** Each method on a new line indented by one step. */
  function FunctionsText(fs: seq<Function>): Result<string, Failure>
  {
    if fs == [] then Ok("")
    else
      var first :- FunctionText(fs[0]);
      var rest :- FunctionsText(fs[1..]);
      Ok(Newline(1) + first + rest)
  }

  /** The class `Main`: the globals, a Java `main` that exits with the
      program's `main()`, then the methods. */
  function SourceText(src: Source): (r: Result<string, Failure>)
    ensures r.Ok? <==> GlobalsText(src.globals).Ok? && FunctionsText(src.functions).Ok?
    ensures r.Ok? ==> |r.value| > 0 && r.value[|r.value| - 1] == '}'
  {
    var gs :- GlobalsText(src.globals);
    var fs :- FunctionsText(src.functions);
    Ok("public class Main {" + Newline(0) + gs
       + Newline(1) + "public static void main(String[] args) {"
       + Newline(2) + "System.exit(new Main().main());"
       + Newline(1) + "}" + Newline(0)
       + fs + Newline(0) + Newline(0) + "}")
  }
}
