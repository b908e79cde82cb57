/** The function registry: user functions are registered under the key
    (name, number of parameters), so a name may be overloaded by arity, and a
    later definition with the same key replaces an earlier one. */
module Functions {
  import opened Values
  import opened Ast

  type FuncTable = map<(string, nat), FuncDef>

  predicate Matches(f: FuncDef, name: string, arity: nat) {
    f.name == name && |f.params| == arity
  }

  /** The table after registering `funcs` in order. */
  function TableOf(funcs: seq<FuncDef>): FuncTable
    decreases |funcs|
  {
    if funcs == [] then map[]
    else
      var f := funcs[|funcs| - 1];
      TableOf(funcs[..|funcs| - 1])[(f.name, |f.params|) := f]
  }

  /** The registration loop over the program's function definitions. */
  method BuildFuncTable(funcs: seq<FuncDef>) returns (t: FuncTable)
    ensures t == TableOf(funcs)
  {
    t := map[];
    var i := 0;
    while i < |funcs|
      invariant 0 <= i <= |funcs|
      invariant t == TableOf(funcs[..i])
    {
      var f := funcs[i];
      assert funcs[..i + 1][..i] == funcs[..i];
      t := t[(f.name, |f.params|) := f];
      i := i + 1;
    }
    assert funcs[..|funcs|] == funcs;
  }

  /** Resolving a call site; None is reported as a NAME error by callers. */
  function Resolve(t: FuncTable, name: string, arity: nat): Option<FuncDef> {
    if (name, arity) in t then Some(t[(name, arity)]) else None
  }

  /** A call resolves to the last registered definition with that name and
      arity, and fails exactly when there is none. */
  lemma {:induction false} ResolveSpec(funcs: seq<FuncDef>, name: string, arity: nat)
    ensures Resolve(TableOf(funcs), name, arity).None? <==>
      forall i :: 0 <= i < |funcs| ==> !Matches(funcs[i], name, arity)
    ensures Resolve(TableOf(funcs), name, arity).Some? ==>
      exists i :: 0 <= i < |funcs| && funcs[i] == Resolve(TableOf(funcs), name, arity).value &&
        Matches(funcs[i], name, arity) &&
        forall j :: i < j < |funcs| ==> !Matches(funcs[j], name, arity)
    decreases |funcs|
  {
    if funcs != [] {
      var n := |funcs| - 1;
      var pre := funcs[..n];
      ResolveSpec(pre, name, arity);
      assert forall i :: 0 <= i < n ==> funcs[i] == pre[i];
      if Matches(funcs[n], name, arity) {
        assert Resolve(TableOf(funcs), name, arity) == Some(funcs[n]);
      } else {
        assert Resolve(TableOf(funcs), name, arity) == Resolve(TableOf(pre), name, arity);
        if Resolve(TableOf(pre), name, arity).Some? {
          var i :| 0 <= i < n && pre[i] == Resolve(TableOf(pre), name, arity).value &&
            Matches(pre[i], name, arity) &&
            forall j :: i < j < n ==> !Matches(pre[j], name, arity);
          assert funcs[i] == pre[i];
        }
      }
    }
  }

  /** Every registered definition sits under its own name and arity. */
  lemma {:induction false} TableKeys(funcs: seq<FuncDef>, name: string, arity: nat)
    requires (name, arity) in TableOf(funcs)
    ensures Matches(TableOf(funcs)[(name, arity)], name, arity)
    decreases |funcs|
  {
    var n := |funcs| - 1;
    if !Matches(funcs[n], name, arity) {
      TableKeys(funcs[..n], name, arity);
    }
  }
}
