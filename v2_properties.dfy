/** What interpreterv2.py promises about scopes, calls and comparisons,
    stated over the SemV2 functions. */
module V2Properties {
  import opened Values
  import opened Ast
  import opened Ops
  import opened Env
  import opened Functions
  import opened SemV2

  /** The scan over the scope list finds the same scope as the frame search
      of the later versions. */
  lemma {:induction false} ScanMatchesFindFrom(frames: seq<Frame>, name: string, j: nat)
    requires 1 <= j <= |frames|
    ensures ScanScopes(frames, name, j).Ok? <==> FindFrom(frames, name, j).Some?
    ensures ScanScopes(frames, name, j).Ok? ==> ScanScopes(frames, name, j).value == FindFrom(frames, name, j).value
    decreases j
  {
    if name !in frames[j - 1].vars && !frames[j - 1].isFunction {
      if j == 1 {
        assert FindFrom(frames, name, 0).None?;
      } else {
        ScanMatchesFindFrom(frames, name, j - 1);
      }
    }
  }

  /** Looking a name up from the innermost scope resolves it exactly as
      Env.Find does: the innermost scope, up to and including the nearest
      function scope, that holds it; a NAME error when there is none. */
  lemma FindScopeIsFind(frames: seq<Frame>, name: string)
    requires frames != []
    ensures FindScope(frames, name, 1).Ok? <==> Find(frames, name).Some?
    ensures FindScope(frames, name, 1).Ok? ==> FindScope(frames, name, 1).value == Find(frames, name).value
    ensures FindScope(frames, name, 1).Err? ==> FindScope(frames, name, 1).err == NameError
  {
    ScanMatchesFindFrom(frames, name, |frames|);
  }

  /** Arguments are looked up two scopes down, with the callee's function
      scope on top: a name is found in the caller's innermost scope, else
      among the formals already bound, and nowhere else. The caller's outer
      scopes are invisible. */
  lemma ArgumentLookup(frames: seq<Frame>, name: string)
    requires |frames| >= 2 && frames[|frames| - 1].isFunction
    ensures var n := |frames|;
      FindScope(frames, name, 2) ==
        if name in frames[n - 2].vars then Ok(n - 2)
        else if name in frames[n - 1].vars then Ok(n - 1)
        else Err(NameError)
  {
  }

  /** The names of the formals from position i on. */
  function FormalNames(params: seq<Param>, i: nat): set<string>
    requires i <= |params|
    decreases |params| - i
  {
    if i == |params| then {} else {params[i].name} + FormalNames(params, i + 1)
  }

  /** One successful binding step: the actual evaluates, its formal is
      created in the callee's scope, and binding goes on from there. */
  lemma BindFormalsStep(fuel: nat, ft: FuncTable, params: seq<Param>, args: seq<Expr>, i: nat, st: St)
    requires |params| == |args| && i < |args|
    requires BindFormals(fuel, ft, params, args, i, st).0.Ok?
    ensures var e := EvalExpr(fuel, ft, args[i], 2, st);
      e.0.Ok? && SameShape(st.frames, e.1.frames) &&
      CreateVar(e.1.frames, params[i].name, e.0.value).Some? &&
      BindFormals(fuel, ft, params, args, i, st) ==
        BindFormals(fuel, ft, params, args, i + 1, e.1.(frames := CreateVar(e.1.frames, params[i].name, e.0.value).value))
  {
    EvalExprKept(fuel, ft, args[i], 2, st);
  }

  /** Binding succeeds only for distinct formal names that the callee's
      scope does not hold yet, and leaves exactly those names added. */
  lemma {:induction false} BindFormalsDistinct(fuel: nat, ft: FuncTable, params: seq<Param>, args: seq<Expr>, i: nat, st: St)
    requires |params| == |args| && i <= |args| && st.frames != []
    requires BindFormals(fuel, ft, params, args, i, st).0.Ok?
    ensures |BindFormals(fuel, ft, params, args, i, st).1.frames| == |st.frames|
    ensures forall p, q :: i <= p < q < |params| ==> params[p].name != params[q].name
    ensures forall p :: i <= p < |params| ==> params[p].name !in st.frames[|st.frames| - 1].vars
    ensures var fr := BindFormals(fuel, ft, params, args, i, st).1.frames;
      fr[|fr| - 1].vars.Keys == st.frames[|st.frames| - 1].vars.Keys + FormalNames(params, i)
    decreases |args| - i
  {
    BindFormalsKept(fuel, ft, params, args, i, st);
    if i < |args| {
      BindFormalsStep(fuel, ft, params, args, i, st);
      var e := EvalExpr(fuel, ft, args[i], 2, st);
      var fr := CreateVar(e.1.frames, params[i].name, e.0.value).value;
      var top := st.frames[|st.frames| - 1].vars.Keys;
      assert e.1.frames[|e.1.frames| - 1].vars.Keys == top;
      assert fr[|fr| - 1].vars.Keys == top + {params[i].name};
      BindFormalsDistinct(fuel, ft, params, args, i + 1, e.1.(frames := fr));
    }
  }

  /** No actual from position i on can fail to evaluate, whatever the
      scopes and output. */
  ghost predicate ActualsEvaluate(fuel: nat, ft: FuncTable, args: seq<Expr>, i: nat) {
    forall j, s :: i <= j < |args| ==> EvalExpr(fuel, ft, args[j], 2, s).0.Ok?
  }

  /** When no actual can fail to evaluate, binding can fail only on a
      repeated formal name, which is a NAME error. */
  lemma {:induction false} BindFormalsNameError(fuel: nat, ft: FuncTable, params: seq<Param>, args: seq<Expr>, i: nat, st: St)
    requires |params| == |args| && i <= |args|
    requires ActualsEvaluate(fuel, ft, args, i)
    ensures BindFormals(fuel, ft, params, args, i, st).0.Err? ==> BindFormals(fuel, ft, params, args, i, st).0 == Err(NameError)
    decreases |args| - i
  {
    if i < |args| {
      var (v, st1) := EvalExpr(fuel, ft, args[i], 2, st);
      assert v.Ok?;
      match CreateVar(st1.frames, params[i].name, v.value)
      case None =>
      case Some(fr) => BindFormalsNameError(fuel, ft, params, args, i + 1, st1.(frames := fr));
    }
  }

  /** Two formals with the same name make every call of the function fail,
      and when the actuals themselves cannot fail, the failure is the NAME
      error of the repeated definition. */
  lemma DuplicateFormalFails(fuel: nat, ft: FuncTable, name: string, args: seq<Expr>, st: St, fd: FuncDef, p: nat, q: nat)
    requires fuel > 0 && name != "print" && name != "inputi" && name != "inputs"
    requires Resolve(ft, name, |args|) == Some(fd) && |fd.params| == |args|
    requires p < q < |fd.params| && fd.params[p].name == fd.params[q].name
    ensures CallFunc(fuel, ft, name, args, st).0.Err?
    ensures ActualsEvaluate(fuel - 1, ft, args, 0) ==>
      CallFunc(fuel, ft, name, args, st).0 == Err(NameError)
  {
    var st1 := st.(frames := Push(st.frames, true));
    if BindFormals(fuel - 1, ft, fd.params, args, 0, st1).0.Ok? {
      BindFormalsDistinct(fuel - 1, ft, fd.params, args, 0, st1);
    }
    if ActualsEvaluate(fuel - 1, ft, args, 0) {
      BindFormalsNameError(fuel - 1, ft, fd.params, args, 0, st1);
    }
  }

  /** A literal actual always evaluates, so a function with a repeated
      formal called on literals fails with a NAME error. */
  lemma DuplicateFormalLiterals(fuel: nat, ft: FuncTable, name: string, args: seq<Expr>, st: St, fd: FuncDef, p: nat, q: nat)
    requires fuel > 1 && name != "print" && name != "inputi" && name != "inputs"
    requires Resolve(ft, name, |args|) == Some(fd) && |fd.params| == |args|
    requires p < q < |fd.params| && fd.params[p].name == fd.params[q].name
    requires forall j :: 0 <= j < |args| ==> args[j].IntLit? || args[j].StrLit? || args[j].BoolLit? || args[j].NilLit?
    ensures CallFunc(fuel, ft, name, args, st).0 == Err(NameError)
  {
    DuplicateFormalFails(fuel, ft, name, args, st, fd, p, q);
  }

  /** The value of a call is the returned value, or nil when no `return`
      ran; the function scope is popped and the scopes below keep their
      shape. */
  lemma CallResult(fuel: nat, ft: FuncTable, name: string, args: seq<Expr>, st: St, fd: FuncDef)
    requires fuel > 0 && name != "print" && name != "inputi" && name != "inputs"
    requires Resolve(ft, name, |args|) == Some(fd) && |fd.params| == |args|
    ensures var st1 := st.(frames := Push(st.frames, true));
      var (bv, st2) := BindFormals(fuel - 1, ft, fd.params, args, 0, st1);
      var (bo, st3) := RunStatements(fuel - 1, ft, fd.body, st2);
      var r := CallFunc(fuel, ft, name, args, st);
      bv.Ok? && !bo.Fatal? ==>
        r.0 == Ok(if bo.Ret? then bo.val else NilV) &&
        r.1 == st3.(frames := Pop(st3.frames)) && SameShape(st.frames, r.1.frames)
  {
    CallFuncKept(fuel, ft, name, args, st);
    var st1 := st.(frames := Push(st.frames, true));
    var (bv, st2) := BindFormals(fuel - 1, ft, fd.params, args, 0, st1);
    var (bo, st3) := RunStatements(fuel - 1, ft, fd.body, st2);
    if bv.Ok? && !bo.Fatal? {
      assert CallFunc(fuel, ft, name, args, st).1 == st3.(frames := Pop(st3.frames));
    }
  }

  /** Unlike v4, a `return` inside the callee does not leak through a call
      statement: the statement completes normally. */
  lemma CallStatementNoLeak(fuel: nat, ft: FuncTable, name: string, args: seq<Expr>, st: St)
    requires fuel > 0
    ensures RunStatement(fuel, ft, CallStmt(name, args), st).0.Next? ||
            RunStatement(fuel, ft, CallStmt(name, args), st).0.Fatal?
  {
  }

  /** A call with no definition under its name and arity is a NAME error. */
  lemma UnknownFunction(fuel: nat, ft: FuncTable, name: string, args: seq<Expr>, st: St)
    requires fuel > 0 && name != "print" && name != "inputi" && name != "inputs"
    requires (name, |args|) !in ft
    ensures CallFunc(fuel, ft, name, args, st) == (Err(NameError), st)
  {
  }

  /** A program without a parameterless main fails with a NAME error before
      anything is printed. */
  lemma NoMainIsNameError(fuel: nat, p: Program)
    requires forall i :: 0 <= i < |p.funcs| ==> !Matches(p.funcs[i], "main", 0)
    ensures Run(fuel, p) == RunResult(Some(NameError), [])
  {
    ResolveSpec(p.funcs, "main", 0);
  }

  /** `var x` defines x as Int 0 in the innermost scope, visible at once. */
  lemma VarDefStartsAtZero(name: string, st: St)
    requires DoVarDef(name, st).0.Next?
    ensures var fr := DoVarDef(name, st).1.frames;
      FindScope(fr, name, 1) == Ok(|fr| - 1) && fr[|fr| - 1].vars[name] == IntV(0)
  {
  }

  /** After an assignment the name reads back as the assigned value, from the
      same scope; no other scope changes. */
  lemma AssignThenRead(fuel: nat, ft: FuncTable, name: string, e: Expr, st: St)
    requires fuel > 0
    requires DoAssign(fuel, ft, name, e, st).0.Next?
    ensures var (v, st1) := EvalExpr(fuel - 1, ft, e, 1, st);
      var st' := DoAssign(fuel, ft, name, e, st).1;
      var k := FindScope(st1.frames, name, 1).value;
      v.Ok? && FindScope(st'.frames, name, 1) == Ok(k) && st'.frames[k].vars[name] == v.value &&
      forall q :: 0 <= q < |st'.frames| && q != k ==> st'.frames[q] == st1.frames[q]
  {
    var (v, st1) := EvalExpr(fuel - 1, ft, e, 1, st);
    var k := FindScope(st1.frames, name, 1).value;
    var st' := DoAssign(fuel, ft, name, e, st).1;
    assert st1.frames != [];
    SameShapeUpdate(st1.frames, k, st1.frames[k].vars[name := v.value]);
    FindScopeIsFind(st1.frames, name);
    FindScopeIsFind(st'.frames, name);
    FindSpec(st1.frames, name);
    FindSpec(st'.frames, name);
    BaseShape(st1.frames, st'.frames);
  }

  /** A `for` iteration: a condition other than the Bool true ends the loop
      normally, a `return` from the body ends it with that value, and
      otherwise the update runs and the loop goes on; the body's scope is
      gone after each iteration. */
  lemma ForLoopExits(fuel: nat, ft: FuncTable, c: Expr, upd: Stmt, body: seq<Stmt>, st: St)
    requires fuel > 0 && c.Bin?
    ensures var (v, st1) := EvalComp(fuel - 1, ft, c.op, c.l, c.r, st);
      var r := ForLoop(fuel, ft, c, upd, body, st);
      (v.Ok? && v.value != BoolV(true) ==> r == (Next, st1)) &&
      (v.Ok? && v.value == BoolV(true) ==>
        var (bo, st2) := Block(fuel - 1, ft, body, st1);
        (bo.Ret? ==> r == (bo, st2)) &&
        (bo.Next? ==>
          (SameShape(st1.frames, st2.frames) &&
           var (uo, st3) := ForAssign(fuel - 1, ft, upd, st2);
           uo.Next? ==> r == ForLoop(fuel - 1, ft, c, upd, body, st3))))
  {
    var (v, st1) := EvalComp(fuel - 1, ft, c.op, c.l, c.r, st);
    BlockKept(fuel - 1, ft, body, st1);
  }

  /** A `for` condition that is not a binary node always fails, since the
      condition is evaluated as a comparison with two operands. A unary
      node's operand is evaluated first: its error, or its output, comes
      before the crash on the missing second operand; any other node has
      no first operand and crashes the host at once. */
  lemma NonBinaryCondition(fuel: nat, ft: FuncTable, c: Expr, upd: Stmt, body: seq<Stmt>, st: St)
    requires fuel > 0 && !c.Bin?
    ensures var r := ForLoop(fuel, ft, c, upd, body, st);
      r.0.Fatal? && st.out <= r.1.out &&
      (c.Unary? ==>
        var (v, st1) := EvalExpr(fuel - 1, ft, c.e, 1, st);
        r.1 == st1 && r.0.err == (if v.Err? then v.err else HostCrash)) &&
      (!c.Unary? ==> r == (Fatal(HostCrash), st))
  {
    if c.Unary? {
      EvalExprKept(fuel - 1, ft, c.e, 1, st);
    }
  }

  /** `for (...; !z; ...)` with `z` undefined reports the NAME error of the
      operand, not a crash. */
  lemma UndefinedOperandCondition(fuel: nat, ft: FuncTable, upd: Stmt, body: seq<Stmt>)
    requires fuel > 1
    ensures var st := St([Frame(map[], true)], []);
      ForLoop(fuel, ft, Unary(Not, Var("z")), upd, body, st) == (Fatal(NameError), st)
  {
    var st := St([Frame(map[], true)], []);
    FindScopeIsFind(st.frames, "z");
    FindSpec(st.frames, "z");
  }

  /** An arithmetic operator used as the `for` condition goes through the
      comparison path, so it never yields `true` and the body never runs:
      two Ints (with a nonzero divisor under `/`) or two Strings under `+`
      give a non-Bool value and end the loop normally, `/` by Int zero
      crashes the host, and any other pair of operands is a TYPE error. */
  lemma ArithmeticConditionEndsLoop(fuel: nat, ft: FuncTable, op: BinOp, a: Expr, b: Expr, upd: Stmt, body: seq<Stmt>, st: St, lv: Value, rv: Value)
    requires fuel > 1 && IsArith(op)
    requires !lv.StructV? && !rv.StructV?
    requires EvalExpr(fuel - 2, ft, a, 1, st).0 == Ok(lv)
    requires EvalExpr(fuel - 2, ft, b, 1, EvalExpr(fuel - 2, ft, a, 1, st).1).0 == Ok(rv)
    ensures var r := ForLoop(fuel, ft, Bin(op, a, b), upd, body, st);
      r.1 == EvalExpr(fuel - 2, ft, b, 1, EvalExpr(fuel - 2, ft, a, 1, st).1).1
    ensures var r := ForLoop(fuel, ft, Bin(op, a, b), upd, body, st);
      r.0 == Next || r.0 == Fatal(TypeError) || r.0 == Fatal(HostCrash)
    ensures var r := ForLoop(fuel, ft, Bin(op, a, b), upd, body, st);
      r.0 == Next <==>
        (lv.IntV? && rv.IntV? && !(op == Div && rv.i == 0)) || (op == Add && lv.StrV? && rv.StrV?)
    ensures var r := ForLoop(fuel, ft, Bin(op, a, b), upd, body, st);
      r.0 == Fatal(HostCrash) <==> op == Div && lv.IntV? && rv == IntV(0)
  {
  }

  /** Two instances: `1 / 0` crashes the host and `1 + "a"` is a TYPE error. */
  lemma ArithmeticConditionErrors(fuel: nat, ft: FuncTable, upd: Stmt, body: seq<Stmt>, st: St)
    requires fuel > 2
    ensures ForLoop(fuel, ft, Bin(Div, IntLit(1), IntLit(0)), upd, body, st) == (Fatal(HostCrash), st)
    ensures ForLoop(fuel, ft, Bin(Add, IntLit(1), StrLit("a")), upd, body, st) == (Fatal(TypeError), st)
  {
    ArithmeticConditionEndsLoop(fuel, ft, Div, IntLit(1), IntLit(0), upd, body, st, IntV(1), IntV(0));
    ArithmeticConditionEndsLoop(fuel, ft, Add, IntLit(1), StrLit("a"), upd, body, st, IntV(1), StrV("a"));
  }

  /** An `if` condition must be a Bool: an Int or a String is a TYPE
      error, and nil crashes the host. */
  lemma IfConditionKinds(fuel: nat, ft: FuncTable, c: Expr, thn: seq<Stmt>, els: Option<seq<Stmt>>, st: St)
    requires fuel > 0
    ensures var (v, st1) := EvalExpr(fuel - 1, ft, c, 1, st);
      var r := RunIf(fuel, ft, c, thn, els, st);
      (v.Ok? && (v.value.IntV? || v.value.StrV?) ==> r == (Fatal(TypeError), st1)) &&
      (v.Ok? && v.value == NilV ==> r == (Fatal(HostCrash), st1)) &&
      (v == Ok(BoolV(true)) ==> r == Block(fuel - 1, ft, thn, st1)) &&
      (v == Ok(BoolV(false)) && els.None? ==> r == (Next, st1))
  {
  }

  /** Comparing values of different types: `==` is false and `!=` is true
      whenever the left type has the operator; `<` and the rest are TYPE
      errors; arithmetic on mixed types is always a TYPE error. */
  lemma MixedTypes(op: BinOp, l: Value, r: Value)
    requires TypeOf(l) != TypeOf(r) && !l.StructV?
    ensures op == Eq ==> CompV2(op, l, r) == Ok(BoolV(false))
    ensures op == Ne ==> CompV2(op, l, r) == Ok(BoolV(true))
    ensures op in {Lt, Le, Gt, Ge, And, Or} ==> CompV2(op, l, r) == Err(TypeError)
    ensures IsArith(op) ==> ArithV2(op, l, r) == Err(TypeError)
  {
  }
}
