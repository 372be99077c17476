/** The values every stage shares: tokens, type descriptors, literal values and
    the syntax tree.  The tree is a closed datatype; the annotation slots that
    the analysis fills in (a node's type, an access's variable, a call's
    function) are `Option` fields that the parser leaves `None`. */
module Syntax {
  import opened Common

  datatype TokenType = IDENTIFIER | INTEGER | DECIMAL | CHARACTER | STRING | OPERATOR

  /** A token: its kind, its literal text and the index of its first character. */
  datatype Token = Token(kind: TokenType, text: string, offset: nat)

  /** The fixed set of type descriptors, compared by identity. */
  datatype Type = Any | Nil | Comparable | Boolean | Integer | Decimal | Character | String

  /** The name a program uses for a type. */
  function TypeName(t: Type): string
  {
    match t
    case Any => "Any"
    case Nil => "Nil"
    case Comparable => "Comparable"
    case Boolean => "Boolean"
    case Integer => "Integer"
    case Decimal => "Decimal"
    case Character => "Character"
    case String => "String"
  }

  /** The name the emitted Java uses for a type. */
  function JvmName(t: Type): string
  {
    match t
    case Any => "Object"
    case Nil => "Void"
    case Comparable => "Comparable"
    case Boolean => "boolean"
    case Integer => "int"
    case Decimal => "double"
    case Character => "char"
    case String => "String"
  }

  /** Looking a type up by its name; unknown names have no type. */
  function TypeNamed(name: string): (r: Option<Type>)
    ensures r.Some? ==> TypeName(r.value) == name
    ensures forall t: Type :: TypeName(t) == name ==> r == Some(t)
  {
    if name == "Any" then Some(Any)
    else if name == "Nil" then Some(Nil)
    else if name == "Comparable" then Some(Comparable)
    else if name == "Boolean" then Some(Boolean)
    else if name == "Integer" then Some(Integer)
    else if name == "Decimal" then Some(Decimal)
    else if name == "Character" then Some(Character)
    else if name == "String" then Some(String)
    else None
  }

  /** An arbitrary-precision decimal: the value is `unscaled * 10^-scale`. */
  datatype Dec = Dec(unscaled: int, scale: int)

  /** The value a literal node holds. */
  datatype Lit = LNil | LBool(b: bool) | LInt(i: int) | LDec(d: Dec) | LChar(c: char) | LStr(s: string)

  /** A variable symbol as the analysis records it. */
  datatype VarSym = VarSym(name: string, jvmName: string, ty: Type, mutable: bool)

  /** A function symbol as the analysis records it. */
  datatype FunSym = FunSym(name: string, jvmName: string, paramTypes: seq<Type>, returnType: Type)

  datatype Expr =
    | Literal(lit: Lit, litType: Option<Type>)
    | Group(inner: Expr, groupType: Option<Type>)
    | Binary(op: string, left: Expr, right: Expr, binType: Option<Type>)
    | Access(offset: Option<Expr>, name: string, variable: Option<VarSym>)
    | Call(name: string, args: seq<Expr>, fn: Option<FunSym>)
    | PlcList(values: seq<Expr>, listType: Option<Type>)

  datatype Stmt =
    | ExprStmt(expr: Expr)
    | Declaration(name: string, typeName: Option<string>, init: Option<Expr>, variable: Option<VarSym>)
    | Assignment(receiver: Expr, value: Expr)
    | If(cond: Expr, thenStmts: seq<Stmt>, elseStmts: seq<Stmt>)
    | Switch(cond: Expr, cases: seq<Case>)
    | While(cond: Expr, body: seq<Stmt>)
    | Return(value: Expr)

  /** One arm of a switch; the default arm has no value. */
  datatype Case = Case(value: Option<Expr>, stmts: seq<Stmt>)

  datatype Global = Global(name: string, typeName: string, mutable: bool, value: Option<Expr>, variable: Option<VarSym>)

  datatype Function = Function(name: string, params: seq<string>, paramTypeNames: seq<string>,
                               returnTypeName: Option<string>, stmts: seq<Stmt>, fn: Option<FunSym>)

  datatype Source = Source(globals: seq<Global>, functions: seq<Function>)

  /** What `getType()` answers for a node: the type slot of a literal, group,
      binary or list, the type of an access's variable, the return type of a
      call's function.  `None` is an unset annotation, which the source reports
      as an error when it is read. */
  function AnnotatedType(e: Expr): Option<Type>
  {
    match e
    case Literal(_, t) => t
    case Group(_, t) => t
    case Binary(_, _, _, t) => t
    case Access(_, _, v) => if v.Some? then Some(v.value.ty) else None
    case Call(_, _, f) => if f.Some? then Some(f.value.returnType) else None
    case PlcList(_, t) => t
  }

  /** Whether an expression still carries no annotation anywhere, as the
      parser produces it. */
  predicate Unannotated(e: Expr)
  {
    match e
    case Literal(_, t) => t.None?
    case Group(inner, t) => t.None? && Unannotated(inner)
    case Binary(_, l, r, t) => t.None? && Unannotated(l) && Unannotated(r)
    case Access(off, _, v) => v.None? && (off.Some? ==> Unannotated(off.value))
    case Call(_, args, f) => f.None? && forall i :: 0 <= i < |args| ==> Unannotated(args[i])
    case PlcList(vs, t) => t.None? && forall i :: 0 <= i < |vs| ==> Unannotated(vs[i])
  }
}
