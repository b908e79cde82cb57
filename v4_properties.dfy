/** What interpreterv4.py promises about its control flow, stated over the
    SemV4 functions. */
module V4Properties {
  import opened Values
  import opened Ast
  import opened Ops
  import opened Env
  import opened Functions
  import opened SemV4

  /** Integer division by an Int zero is the catchable exception "div0", not
      a fatal error, whatever the left Int operand. */
  lemma DivByZeroRaises(fuel: nat, ft: FuncTable, l: Expr, r: Expr, st: St, a: int)
    requires fuel > 0
    requires EvalExpr(fuel - 1, ft, l, st).0 == Out(Continue, IntV(a))
    requires EvalExpr(fuel - 1, ft, r, EvalExpr(fuel - 1, ft, l, st).1).0 == Out(Continue, IntV(0))
    ensures EvalOp(fuel, ft, Div, l, r, st).0 == Out(Raised, StrV("div0"))
  {
  }

  /** `&&` with a false left operand and `||` with a true one give that value
      without evaluating the right operand: the result does not depend on it. */
  lemma ShortCircuit(fuel: nat, ft: FuncTable, op: BinOp, l: Expr, r1: Expr, r2: Expr, st: St, s: Status)
    requires fuel > 0 && (op == And || op == Or) && s != Raised
    requires EvalExpr(fuel - 1, ft, l, st).0 == Out(s, BoolV(op == Or))
    ensures EvalOp(fuel, ft, op, l, r1, st) == EvalOp(fuel, ft, op, l, r2, st)
    ensures EvalOp(fuel, ft, op, l, r1, st) == (Out(Continue, BoolV(op == Or)), EvalExpr(fuel - 1, ft, l, st).1)
  {
  }

  /** A non-Bool left operand of `&&` or `||` is a TYPE error. */
  lemma LogicalNeedsBool(fuel: nat, ft: FuncTable, op: BinOp, l: Expr, r: Expr, st: St, s: Status, v: Value)
    requires fuel > 0 && (op == And || op == Or) && s != Raised && !v.BoolV?
    requires EvalExpr(fuel - 1, ft, l, st).0 == Out(s, v)
    ensures EvalOp(fuel, ft, op, l, r, st).0 == Fatal(TypeError)
  {
  }

  /** Appending statements: the first list runs to its end (and the second
      then runs from there) or stops the whole list at its first RETURN,
      EXCEPTION or error. */
  lemma {:induction false} RunSeqAppend(fuel: nat, ft: FuncTable, s1: seq<Stmt>, s2: seq<Stmt>, i: nat, st: St)
    requires i <= |s1|
    ensures RunSeq(fuel, ft, s1 + s2, i, st) ==
      var r := RunSeq(fuel, ft, s1, i, st);
      if r.0 == Out(Continue, NilV) then RunSeq(fuel, ft, s2, 0, r.1) else r
    decreases |s1| - i
  {
    if i == |s1| {
      RunSeqShift(fuel, ft, s1, s2, 0, st);
    } else {
      assert (s1 + s2)[i] == s1[i];
      var (o, st1) := RunStatement(fuel, ft, s1[i], st);
      if !(o.Fatal? || o.status != Continue) {
        RunSeqAppend(fuel, ft, s1, s2, i + 1, st1);
      }
    }
  }

  /** Running the tail of `s1 + s2` past `s1` is running `s2`. */
  lemma {:induction false} RunSeqShift(fuel: nat, ft: FuncTable, s1: seq<Stmt>, s2: seq<Stmt>, j: nat, st: St)
    requires j <= |s2|
    ensures RunSeq(fuel, ft, s1 + s2, |s1| + j, st) == RunSeq(fuel, ft, s2, j, st)
    decreases |s2| - j
  {
    if j < |s2| {
      assert (s1 + s2)[|s1| + j] == s2[j];
      var (o, st1) := RunStatement(fuel, ft, s2[j], st);
      if !(o.Fatal? || o.status != Continue) {
        RunSeqShift(fuel, ft, s1, s2, j + 1, st1);
      }
    }
  }

  /** A statement list ends normally only with (CONTINUE, nil), and a block
      leaves the frame stack exactly as deep as it found it. */
  lemma BlockBalanced(fuel: nat, ft: FuncTable, stmts: seq<Stmt>, st: St)
    ensures var r := RunStatements(fuel, ft, stmts, st);
      !r.0.Fatal? ==> |r.1.frames| == |st.frames| && (r.0.status == Continue ==> r.0.val == NilV)
  {
    RunStatementsKept(fuel, ft, stmts, st);
  }

  /** The statements after a RETURN or EXCEPTION do not run. */
  lemma StopsAtFirstExit(fuel: nat, ft: FuncTable, s: Stmt, rest: seq<Stmt>, st: St)
    requires var o := RunStatement(fuel, ft, s, st).0; o.Out? && o.status != Continue
    ensures RunSeq(fuel, ft, [s] + rest, 0, st) == RunStatement(fuel, ft, s, st)
  {
    assert ([s] + rest)[0] == s;
  }

  /** A call statement forwards the callee's RETURN: if the body of `f`
      executed `return v`, a bare `f(...)` statement makes the enclosing list
      return v too, and the statements after it are skipped. */
  lemma CallStatementLeaksReturn(fuel: nat, ft: FuncTable, name: string, args: seq<Expr>, rest: seq<Stmt>, st: St, v: Value)
    requires fuel > 0
    requires CallFunc(fuel - 1, ft, name, args, st).0 == Out(Returned, v)
    ensures RunSeq(fuel, ft, [CallStmt(name, args)] + rest, 0, st) ==
      (Out(Returned, v), CallFunc(fuel - 1, ft, name, args, st).1)
  {
    StopsAtFirstExit(fuel, ft, CallStmt(name, args), rest, st);
  }

  /** An `if` condition is evaluated once: an exception from it propagates,
      a value that is not a Bool is a TYPE error, true runs the then-branch
      and false the else-branch, or nothing when there is none. */
  lemma IfCondition(fuel: nat, ft: FuncTable, c: Expr, thn: seq<Stmt>, els: Option<seq<Stmt>>, st: St)
    requires fuel > 0
    ensures var (o, st1) := EvalExpr(fuel - 1, ft, c, st);
      var r := DoIf(fuel, ft, c, thn, els, st);
      (o.Out? && o.status == Raised ==> r == (o, st1)) &&
      (o.Out? && o.status != Raised && !o.val.BoolV? ==> r == (Fatal(TypeError), st1)) &&
      (o == Out(Continue, BoolV(true)) ==> r == RunStatements(fuel - 1, ft, thn, st1)) &&
      (o == Out(Continue, BoolV(false)) && els.None? ==> r == (Out(Continue, NilV), st1)) &&
      (o == Out(Continue, BoolV(false)) && els.Some? ==> r == RunStatements(fuel - 1, ft, els.value, st1))
  {
  }

  /** The exits of one loop iteration: an exception from the condition, the
      body or the update, and a RETURN from the body, end the loop with that
      outcome; a false condition ends it normally. */
  lemma ForLoopExits(fuel: nat, ft: FuncTable, c: Expr, upd: Stmt, body: seq<Stmt>, st: St)
    requires fuel > 0
    ensures var (co, st1) := EvalExpr(fuel - 1, ft, c, st);
      var r := ForLoop(fuel, ft, c, upd, body, st);
      (co.Out? && co.status == Raised ==> r == (co, st1)) &&
      (co.Out? && co.status != Raised && co.val == BoolV(false) ==> r == (Out(Continue, NilV), st1)) &&
      (co.Out? && co.status != Raised && !co.val.BoolV? ==> r.0 == Fatal(TypeError)) &&
      (co.Out? && co.status != Raised && co.val == BoolV(true) ==>
        var (bo, st2) := RunStatements(fuel - 1, ft, body, st1);
        (bo.Out? && bo.status != Continue ==> r == (bo, st2)) &&
        (bo.Out? && bo.status == Continue ==>
          var (uo, st3) := RunStatement(fuel - 1, ft, upd, st2);
          (uo.Out? && uo.status == Raised ==> r == (uo, st3)) &&
          (uo.Out? && uo.status != Raised ==> r == ForLoop(fuel - 1, ft, c, upd, body, st3))))
  {
    var (co, st1) := EvalExpr(fuel - 1, ft, c, st);
    var (bo, st2) := RunStatements(fuel - 1, ft, body, st1);
    var (uo, st3) := RunStatement(fuel - 1, ft, upd, st2);
    assert ForLoop(fuel, ft, c, upd, body, st) ==
      if co.Fatal? || co.status == Raised then (co, st1)
      else if !co.val.BoolV? then (Fatal(TypeError), st1)
      else if !co.val.b then (Out(Continue, NilV), st1)
      else if bo.Fatal? || bo.status != Continue then (bo, st2)
      else if uo.Fatal? || uo.status == Raised then (uo, st3)
      else ForLoop(fuel - 1, ft, c, upd, body, st3);
  }

  /** A loop that is not stopped by an error ends with (CONTINUE, nil), a
      RETURN from its body, or an EXCEPTION. */
  lemma {:induction false} ForLoopResult(fuel: nat, ft: FuncTable, c: Expr, upd: Stmt, body: seq<Stmt>, st: St)
    ensures var r := ForLoop(fuel, ft, c, upd, body, st).0;
      r.Out? && r.status == Continue ==> r.val == NilV
    decreases fuel
  {
    if fuel > 0 {
      var (co, st1) := EvalExpr(fuel - 1, ft, c, st);
      if co.Out? && co.status != Raised && co.val == BoolV(true) {
        var (bo, st2) := RunStatements(fuel - 1, ft, body, st1);
        if bo.Out? && bo.status == Continue {
          var (uo, st3) := RunStatement(fuel - 1, ft, upd, st2);
          if uo.Out? && uo.status != Raised {
            ForLoopResult(fuel - 1, ft, c, upd, body, st3);
          }
        }
      }
    }
  }

  /** An exception from the init statement ends the `for` before its
      condition is evaluated. */
  lemma ForInitRaises(fuel: nat, ft: FuncTable, init: Stmt, c: Expr, upd: Stmt, body: seq<Stmt>, st: St)
    requires fuel > 0
    requires RunStatement(fuel - 1, ft, init, st).0.Out? && RunStatement(fuel - 1, ft, init, st).0.status == Raised
    ensures DoFor(fuel, ft, init, c, upd, body, st) == RunStatement(fuel - 1, ft, init, st)
  {
  }

  /** Catcher `k` is the first whose tag is the string `v`. */
  predicate FirstMatch(catchers: seq<Catcher>, v: Value, k: nat) {
    k < |catchers| && v == StrV(catchers[k].tag) &&
    forall j :: 0 <= j < k ==> v != StrV(catchers[j].tag)
  }

  /** `try`: the first catcher whose tag is the exception's string runs and
      its outcome is the result; with no such catcher the exception goes on
      unchanged; CONTINUE and RETURN pass through. */
  lemma TrySemantics(fuel: nat, ft: FuncTable, body: seq<Stmt>, catchers: seq<Catcher>, st: St)
    requires fuel > 0
    ensures var (o, st1) := RunStatements(fuel - 1, ft, body, st);
      var r := TryBlock(fuel, ft, body, catchers, st);
      (o.Out? && o.status != Raised ==> r == (o, st1)) &&
      ((o.Out? && o.status == Raised && forall j :: 0 <= j < |catchers| ==> o.val != StrV(catchers[j].tag)) ==>
        r == (o, st1)) &&
      (forall k: nat :: (o.Out? && o.status == Raised && FirstMatch(catchers, o.val, k)) ==>
        r == RunStatements(fuel - 1, ft, catchers[k].body, st1))
  {
    var (o, st1) := RunStatements(fuel - 1, ft, body, st);
    if o.Out? && o.status == Raised {
      var fc := FindCatcher(catchers, o.val);
      if fc.Some? {
        forall k: nat | FirstMatch(catchers, o.val, k)
          ensures k == fc.value
        {
        }
      }
    }
  }

  /** `raise` with no expression raises nil, which no catcher can match. */
  lemma RaiseNil(fuel: nat, ft: FuncTable, catchers: seq<Catcher>, st: St)
    requires fuel > 0
    ensures DoRaise(fuel, ft, None, st) == (Out(Raised, NilV), st)
    ensures FindCatcher(catchers, NilV).None?
  {
  }

  /** A raise payload that is not a string is a TYPE error; a string payload
      is raised even when its own evaluation raised (the status is dropped,
      the value kept). */
  lemma RaisePayload(fuel: nat, ft: FuncTable, e: Expr, st: St)
    requires fuel > 0
    ensures var (o, st1) := EvalExpr(fuel - 1, ft, e, st);
      o.Out? ==>
        DoRaise(fuel, ft, Some(e), st) == (if o.val.StrV? then (Out(Raised, o.val), st1) else (Fatal(TypeError), st1))
  {
  }

  /** Evaluating call arguments: the first exception stops the evaluation
      and is the call's result, before any frame is pushed. */
  lemma CallArgumentRaises(fuel: nat, ft: FuncTable, name: string, args: seq<Expr>, st: St, fd: FuncDef)
    requires fuel > 0 && name != "print" && name != "inputi" && name != "inputs"
    requires Resolve(ft, name, |args|) == Some(fd) && |fd.params| == |args|
    requires EvalArgs(fuel - 1, ft, fd.params, args, 0, map[], st).0.ArgRaise?
    ensures var (ao, st1) := EvalArgs(fuel - 1, ft, fd.params, args, 0, map[], st);
      CallFunc(fuel, ft, name, args, st) == (Out(Raised, ao.ex), st1) && |st1.frames| == |st.frames|
  {
    EvalArgsKept(fuel - 1, ft, fd.params, args, 0, map[], st);
  }

  /** A call that does not fail returns the body's status and value as they
      are, and pops the function frame it pushed. */
  lemma CallReturnsBodyOutcome(fuel: nat, ft: FuncTable, name: string, args: seq<Expr>, st: St, fd: FuncDef)
    requires fuel > 0 && name != "print" && name != "inputi" && name != "inputs"
    requires Resolve(ft, name, |args|) == Some(fd) && |fd.params| == |args|
    requires EvalArgs(fuel - 1, ft, fd.params, args, 0, map[], st).0.ArgMap?
    ensures var (ao, st1) := EvalArgs(fuel - 1, ft, fd.params, args, 0, map[], st);
      var (bo, st3) := RunStatements(fuel - 1, ft, fd.body, st1.(frames := Declare(Push(st1.frames, true), ao.m)));
      !bo.Fatal? ==>
        CallFunc(fuel, ft, name, args, st) == (bo, st3.(frames := Pop(st3.frames))) &&
        SameShape(st.frames, Pop(st3.frames))
  {
    CallFuncKept(fuel, ft, name, args, st);
  }

  /** An exception that escapes main is a FAULT error. */
  lemma UncaughtIsFault(fuel: nat, p: Program)
    requires CallFunc(fuel, TableOf(p.funcs), "main", [], St([], [])).0.Out?
    ensures Run(fuel, p).err.Some? <==> CallFunc(fuel, TableOf(p.funcs), "main", [], St([], [])).0.status == Raised
    ensures Run(fuel, p).err.Some? ==> Run(fuel, p).err == Some(FaultError)
  {
  }
}
