/** Scopes as a stack of frames, innermost last.  A frame maps variable
    names to variables and (name, arity) pairs to functions; lookups walk
    from the innermost frame outwards, and a name may be defined only once
    per frame.  Pushing a child scope appends an empty frame; returning to
    the parent drops the innermost one, and dropping the last frame leaves
    no scope at all. */
module Scopes {
  import opened Common

  datatype Frame<V, F> = Frame(vars: map<string, V>, funs: map<(string, nat), F>)

  type Stack<V, F> = seq<Frame<V, F>>

  function EmptyFrame<V, F>(): Frame<V, F>
  {
    Frame(map[], map[])
  }

  /** `new Scope(scope)`. */
  function Push<V, F>(s: Stack<V, F>): (r: Stack<V, F>)
    ensures |r| == |s| + 1 && r[..|s|] == s && r[|s|] == EmptyFrame()
  {
    s + [EmptyFrame()]
  }

  /** `scope.getParent()`. */
  function Pop<V, F>(s: Stack<V, F>): (r: Stack<V, F>)
    requires |s| > 0
    ensures |r| == |s| - 1 && s == r + [s[|s| - 1]]
  {
    s[..|s| - 1]
  }

  /** The innermost frame below position `k` that defines `name`, with the
      variable it holds. */
  function FindVariable<V, F>(s: Stack<V, F>, k: nat, name: string): (r: Option<(nat, V)>)
    requires k <= |s|
    ensures r.Some? ==> r.value.0 < k && name in s[r.value.0].vars && s[r.value.0].vars[name] == r.value.1
                        && forall j :: r.value.0 < j < k ==> name !in s[j].vars
    ensures r.None? ==> forall j :: 0 <= j < k ==> name !in s[j].vars
  {
    if k == 0 then None
    else if name in s[k - 1].vars then Some((k - 1, s[k - 1].vars[name]))
    else FindVariable(s, k - 1, name)
  }

  /** `lookupVariable`: the position of the defining frame and the variable. */
  function LookupVariable<V, F>(s: Stack<V, F>, name: string): Option<(nat, V)>
  {
    FindVariable(s, |s|, name)
  }

  /** The innermost frame below position `k` that defines `name` with
      `arity` parameters, with the function it holds. */
  function FindFunction<V, F>(s: Stack<V, F>, k: nat, name: string, arity: nat): (r: Option<(nat, F)>)
    requires k <= |s|
    ensures r.Some? ==> r.value.0 < k && (name, arity) in s[r.value.0].funs && s[r.value.0].funs[(name, arity)] == r.value.1
                        && forall j :: r.value.0 < j < k ==> (name, arity) !in s[j].funs
    ensures r.None? ==> forall j :: 0 <= j < k ==> (name, arity) !in s[j].funs
  {
    if k == 0 then None
    else if (name, arity) in s[k - 1].funs then Some((k - 1, s[k - 1].funs[(name, arity)]))
    else FindFunction(s, k - 1, name, arity)
  }

  /** `lookupFunction(name, arity)`. */
  function LookupFunction<V, F>(s: Stack<V, F>, name: string, arity: nat): Option<F>
  {
    match FindFunction(s, |s|, name, arity)
    case Some(p) => Some(p.1)
    case None => None
  }

  /** Defines `name` in the frame at position `p`: fails when that frame
      already defines it. */
  function DefineVariableAt<V, F>(s: Stack<V, F>, p: nat, name: string, v: V): (r: Option<Stack<V, F>>)
    requires p < |s|
    ensures r.Some? <==> name !in s[p].vars
    ensures r.Some? ==> |r.value| == |s| && r.value[p].vars == s[p].vars[name := v] && r.value[p].funs == s[p].funs
                        && forall j :: 0 <= j < |s| && j != p ==> r.value[j] == s[j]
  {
    if name in s[p].vars then None
    else Some(s[p := Frame(s[p].vars[name := v], s[p].funs)])
  }

  /** `defineVariable` on the current scope. */
  function DefineVariable<V, F>(s: Stack<V, F>, name: string, v: V): Option<Stack<V, F>>
    requires |s| > 0
  {
    DefineVariableAt(s, |s| - 1, name, v)
  }

  /** `defineFunction` on the current scope. */
  function DefineFunction<V, F>(s: Stack<V, F>, name: string, arity: nat, f: F): (r: Option<Stack<V, F>>)
    requires |s| > 0
    ensures r.Some? <==> (name, arity) !in s[|s| - 1].funs
    ensures r.Some? ==> |r.value| == |s| && r.value[..|s| - 1] == s[..|s| - 1]
                        && r.value[|s| - 1] == Frame(s[|s| - 1].vars, s[|s| - 1].funs[(name, arity) := f])
  {
    var top := s[|s| - 1];
    if (name, arity) in top.funs then None
    else Some(s[|s| - 1 := Frame(top.vars, top.funs[(name, arity) := f])])
  }

  /** `setValue` on the variable `name` of the frame at position `p`. */
  function SetVariable<V, F>(s: Stack<V, F>, p: nat, name: string, v: V): (r: Stack<V, F>)
    requires p < |s|
    ensures |r| == |s| && r[p].vars == s[p].vars[name := v] && r[p].funs == s[p].funs
    ensures forall j :: 0 <= j < |s| && j != p ==> r[j] == s[j]
  {
    s[p := Frame(s[p].vars[name := v], s[p].funs)]
  }

  /** A variable defined in the current scope is what a lookup finds next,
      and lookups of other names are not affected. */
  lemma LookupAfterDefine<V, F>(s: Stack<V, F>, name: string, v: V, other: string)
    requires |s| > 0 && DefineVariable(s, name, v).Some?
    ensures LookupVariable(DefineVariable(s, name, v).value, name) == Some((|s| - 1, v))
    ensures other != name ==> LookupVariable(DefineVariable(s, name, v).value, other) == LookupVariable(s, other)
  {
    var t := DefineVariable(s, name, v).value;
    if other != name {
      FindVariableSame(s, t, |s| - 1, other);
    }
  }

  /** Lookups below `k` agree on stacks that agree on the frames below `k`
      for `name`. */
  lemma {:induction false} FindVariableSame<V, F>(s: Stack<V, F>, t: Stack<V, F>, k: nat, name: string)
    requires k <= |s| && k <= |t|
    requires forall j :: 0 <= j < k ==> (name in s[j].vars <==> name in t[j].vars)
    requires forall j :: 0 <= j < k && name in s[j].vars ==> s[j].vars[name] == t[j].vars[name]
    ensures FindVariable(s, k, name) == FindVariable(t, k, name)
    ensures k < |s| && k < |t| && name !in s[k].vars && name !in t[k].vars ==>
      FindVariable(s, k + 1, name) == FindVariable(t, k + 1, name)
  {
    if k > 0 {
      FindVariableSame(s, t, k - 1, name);
    }
  }

  /** A child scope sees what its parent sees, and returning to the parent
      undoes the push. */
  lemma PushPop<V, F>(s: Stack<V, F>, name: string, arity: nat)
    ensures Pop(Push(s)) == s
    ensures LookupVariable(Push(s), name) == LookupVariable(s, name)
    ensures LookupFunction(Push(s), name, arity) == LookupFunction(s, name, arity)
  {
    var t := Push(s);
    FindVariableSame(s, t, |s|, name);
    assert name !in t[|s|].vars;
    FindFunctionPrefix(s, t, |s|, name, arity);
  }

  lemma {:induction false} FindFunctionPrefix<V, F>(s: Stack<V, F>, t: Stack<V, F>, k: nat, name: string, arity: nat)
    requires k <= |s| && k <= |t| && s[..k] == t[..k]
    ensures FindFunction(s, k, name, arity) == FindFunction(t, k, name, arity)
  {
    if k > 0 {
      assert s[k - 1] == s[..k][k - 1] == t[..k][k - 1] == t[k - 1];
      assert s[..k - 1] == s[..k][..k - 1];
      assert t[..k - 1] == t[..k][..k - 1];
      FindFunctionPrefix(s, t, k - 1, name, arity);
    }
  }
}
