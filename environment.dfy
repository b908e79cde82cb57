/** The environment: a stack of scope frames, each a map from names to values
    plus a flag telling a function-boundary frame from a block frame. Lookups
    and assignments search from the innermost frame outward and stop at (and
    include) the nearest function frame, so a callee never sees its caller's
    locals. */
module Env {
  import opened Values

  datatype Frame = Frame(vars: map<string, Value>, isFunction: bool)

  /** Index of the nearest function frame, or 0 when there is none: the
      bottom of the window of frames a lookup may see. */
  function Base(frames: seq<Frame>): (b: nat)
    ensures frames == [] ==> b == 0
    ensures frames != [] ==> b < |frames|
    ensures b > 0 ==> frames[b].isFunction
    ensures forall j :: b < j < |frames| ==> !frames[j].isFunction
  {
    if frames == [] then 0
    else if frames[|frames| - 1].isFunction then |frames| - 1
    else Base(frames[..|frames| - 1])
  }

  /** The frame a lookup of `name` resolves to, searching the top `k` frames
      from the innermost outward and stopping after the first function frame. */
  function FindFrom(frames: seq<Frame>, name: string, k: nat): (r: Option<nat>)
    requires k <= |frames|
    ensures r.Some? ==> r.value < k && name in frames[r.value].vars
    ensures r.Some? ==> forall j :: r.value < j < k ==> name !in frames[j].vars && !frames[j].isFunction
    ensures r.None? ==> forall j :: Base(frames[..k]) <= j < k ==> name !in frames[j].vars
    decreases k
  {
    if k == 0 then None
    else if name in frames[k - 1].vars then Some(k - 1)
    else if frames[k - 1].isFunction then None
    else
      assert frames[..k][..k - 1] == frames[..k - 1];
      FindFrom(frames, name, k - 1)
  }

  function Find(frames: seq<Frame>, name: string): Option<nat> {
    FindFrom(frames, name, |frames|)
  }

  /** The frame Find picks is the innermost one, within the window above the
      nearest function frame, that holds the name; Find fails exactly when no
      frame of that window holds it. */
  lemma {:induction false} FindSpec(frames: seq<Frame>, name: string)
    ensures Find(frames, name).Some? ==>
      var i := Find(frames, name).value;
      Base(frames) <= i < |frames| && name in frames[i].vars &&
      forall j :: i < j < |frames| ==> name !in frames[j].vars
    ensures Find(frames, name).None? <==>
      forall j :: Base(frames) <= j < |frames| ==> name !in frames[j].vars
  {
    assert frames[..|frames|] == frames;
    var r := Find(frames, name);
    if r.Some? {
      var i := r.value;
      if i < Base(frames) {
        assert false;
      }
    }
  }

  /** `get`: the value the name resolves to. */
  function Lookup(frames: seq<Frame>, name: string): (r: Option<Value>)
    ensures r.Some? <==> Find(frames, name).Some?
    ensures r.Some? ==> r.value == frames[Find(frames, name).value].vars[name]
  {
    match Find(frames, name)
    case None => None
    case Some(i) => Some(frames[i].vars[name])
  }

  /** `create`: fails when the innermost frame already holds the name (or
      there is no frame); otherwise binds it there. */
  function CreateVar(frames: seq<Frame>, name: string, v: Value): (r: Option<seq<Frame>>)
    ensures r.None? <==> frames == [] || name in frames[|frames| - 1].vars
  {
    if frames == [] || name in frames[|frames| - 1].vars then None
    else
      var top := frames[|frames| - 1];
      Some(frames[|frames| - 1 := top.(vars := top.vars[name := v])])
  }

  /** `set`: rebinds the name in the frame it resolves to; fails when it does
      not resolve. */
  function SetVar(frames: seq<Frame>, name: string, v: Value): (r: Option<seq<Frame>>)
    ensures r.None? <==> Find(frames, name).None?
  {
    match Find(frames, name)
    case None => None
    case Some(i) => Some(frames[i := frames[i].(vars := frames[i].vars[name := v])])
  }

  /** `create` of every name of `m` in the innermost frame, in any order: a
      name the frame already holds keeps its value. */
  function Declare(frames: seq<Frame>, m: map<string, Value>): (r: seq<Frame>)
    requires frames != []
    ensures TopGrown(frames, r)
    ensures r[|r| - 1].vars.Keys == frames[|frames| - 1].vars.Keys + m.Keys
    ensures forall x :: x in m && x !in frames[|frames| - 1].vars ==> r[|r| - 1].vars[x] == m[x]
  {
    var top := frames[|frames| - 1];
    frames[|frames| - 1 := top.(vars := m + top.vars)]
  }

  function Push(frames: seq<Frame>, isFunction: bool): (r: seq<Frame>)
    ensures |r| == |frames| + 1 && r[..|frames|] == frames
  {
    frames + [Frame(map[], isFunction)]
  }

  function Pop(frames: seq<Frame>): (r: seq<Frame>)
    ensures frames != [] ==> r == frames[..|frames| - 1]
  {
    if frames == [] then [] else frames[..|frames| - 1]
  }

  /** Same number of frames, the same names in each, the same boundary flags:
      only values may differ. */
  predicate SameShape(a: seq<Frame>, b: seq<Frame>) {
    |a| == |b| &&
    forall j :: 0 <= j < |a| ==> a[j].vars.Keys == b[j].vars.Keys && a[j].isFunction == b[j].isFunction
  }

  /** Like SameShape, except that the innermost frame may have gained names. */
  predicate TopGrown(a: seq<Frame>, b: seq<Frame>) {
    |a| == |b| &&
    forall j :: 0 <= j < |a| ==>
      a[j].vars.Keys <= b[j].vars.Keys && a[j].isFunction == b[j].isFunction &&
      (j < |a| - 1 ==> a[j].vars.Keys == b[j].vars.Keys)
  }

  /** Rebinding names a frame already holds keeps the shape. */
  lemma SameShapeUpdate(frames: seq<Frame>, k: nat, vars: map<string, Value>)
    requires k < |frames| && vars.Keys == frames[k].vars.Keys
    ensures SameShape(frames, frames[k := frames[k].(vars := vars)])
  {
  }

  lemma SameShapeTrans(a: seq<Frame>, b: seq<Frame>, c: seq<Frame>)
    requires SameShape(a, b) && SameShape(b, c)
    ensures SameShape(a, c)
  {
  }

  lemma TopGrownTrans(a: seq<Frame>, b: seq<Frame>, c: seq<Frame>)
    requires TopGrown(a, b) && TopGrown(b, c)
    ensures TopGrown(a, c)
  {
  }

  lemma ShapeThenGrown(a: seq<Frame>, b: seq<Frame>, c: seq<Frame>)
    requires SameShape(a, b) && TopGrown(b, c)
    ensures TopGrown(a, c)
  {
  }

  /** What a block or call leaves behind once its own frame is popped: the
      frames below it keep their shape. */
  lemma PopAfterPush(a: seq<Frame>, isFunction: bool, b: seq<Frame>)
    requires TopGrown(Push(a, isFunction), b)
    ensures SameShape(a, Pop(b))
  {
    assert forall j :: 0 <= j < |a| ==> Push(a, isFunction)[j] == a[j];
  }

  /** After `set` succeeds the name resolves to the new value; no frame
      changes shape. */
  lemma SetVarSpec(frames: seq<Frame>, name: string, v: Value)
    requires SetVar(frames, name, v).Some?
    ensures SameShape(frames, SetVar(frames, name, v).value)
    ensures Lookup(SetVar(frames, name, v).value, name) == Some(v)
  {
    var i := Find(frames, name).value;
    var f := SetVar(frames, name, v).value;
    FindSpec(frames, name);
    assert Base(f) == Base(frames) by { BaseShape(frames, f); }
    FindSpec(f, name);
    assert forall j :: 0 <= j < |f| && j != i ==> f[j] == frames[j];
    assert name in f[i].vars;
    assert Find(f, name).Some?;
    var i' := Find(f, name).value;
    assert i' == i;
  }

  /** After `create` succeeds the name resolves to the given value in the
      innermost frame, and only that frame gained a name. */
  lemma CreateSpec(frames: seq<Frame>, name: string, v: Value)
    requires CreateVar(frames, name, v).Some?
    ensures TopGrown(frames, CreateVar(frames, name, v).value)
    ensures Lookup(CreateVar(frames, name, v).value, name) == Some(v)
  {
    var f := CreateVar(frames, name, v).value;
    assert f[..|f|] == f;
    assert FindFrom(f, name, |f|) == Some(|f| - 1);
  }

  lemma BaseShape(a: seq<Frame>, b: seq<Frame>)
    requires SameShape(a, b)
    ensures Base(a) == Base(b)
    decreases |a|
  {
    if a != [] && !a[|a| - 1].isFunction {
      BaseShape(a[..|a| - 1], b[..|b| - 1]);
    }
  }

  /** The environment object the interpreters hold; each method is `frames`
      updated by the function of the same name. */
  class Environment {
    var frames: seq<Frame>

    constructor ()
      ensures frames == []
    {
      frames := [];
    }

    method PushBlock()
      modifies this
      ensures frames == Push(old(frames), false)
    {
      frames := frames + [Frame(map[], false)];
    }

    method PushFunc()
      modifies this
      ensures frames == Push(old(frames), true)
    {
      frames := frames + [Frame(map[], true)];
    }

    method PopBlock()
      modifies this
      ensures frames == Pop(old(frames))
    {
      if frames != [] {
        frames := frames[..|frames| - 1];
      }
    }

    method PopFunc()
      modifies this
      ensures frames == Pop(old(frames))
    {
      if frames != [] {
        frames := frames[..|frames| - 1];
      }
    }

    /** The loop creating each bound argument in a freshly pushed frame. */
    method CreateAll(m: map<string, Value>)
      modifies this
      requires frames != []
      ensures frames == Declare(old(frames), m)
    {
      var rest := m.Keys;
      ghost var n := |frames| - 1;
      ghost var f0 := frames;
      ghost var top0 := frames[n];
      ghost var done: map<string, Value> := map[];
      assert done + top0.vars == top0.vars;
      while rest != {}
        invariant rest <= m.Keys && done.Keys == m.Keys - rest
        invariant forall x :: x in done ==> done[x] == m[x]
        invariant |frames| == |f0| && frames[..n] == f0[..n]
        invariant frames[n] == top0.(vars := done + top0.vars)
        decreases rest
      {
        var k :| k in rest;
        if k in top0.vars {
          assert done[k := m[k]] + top0.vars == done + top0.vars;
        } else {
          assert done[k := m[k]] + top0.vars == (done + top0.vars)[k := m[k]];
        }
        var _ := Create(k, m[k]);
        done := done[k := m[k]];
        rest := rest - {k};
      }
      assert done == m;
      assert frames == f0[..n] + [frames[n]];
    }

    /** The lookup walk: innermost frame first, stopping after the first
        function frame. */
    method Get(name: string) returns (r: Option<Value>)
      ensures r == Lookup(frames, name)
    {
      var k := |frames|;
      while k > 0
        invariant 0 <= k <= |frames|
        invariant FindFrom(frames, name, k) == Find(frames, name)
      {
        var f := frames[k - 1];
        if name in f.vars {
          return Some(f.vars[name]);
        }
        if f.isFunction {
          return None;
        }
        k := k - 1;
      }
      return None;
    }

    method Create(name: string, v: Value) returns (ok: bool)
      modifies this
      ensures ok <==> CreateVar(old(frames), name, v).Some?
      ensures frames == if ok then CreateVar(old(frames), name, v).value else old(frames)
    {
      var r := CreateVar(frames, name, v);
      if r.Some? {
        frames := r.value;
        return true;
      }
      return false;
    }

    method Set(name: string, v: Value) returns (ok: bool)
      modifies this
      ensures ok <==> SetVar(old(frames), name, v).Some?
      ensures frames == if ok then SetVar(old(frames), name, v).value else old(frames)
    {
      var r := SetVar(frames, name, v);
      if r.Some? {
        frames := r.value;
        return true;
      }
      return false;
    }
  }
}
