/** The meaning of a program under interpreterv4.py, as functions: every
    statement and expression yields a status/value pair (CONTINUE, RETURN or
    EXCEPTION with a value) or a fatal error, together with the new state.
    The InterpreterV4 class implements each of these functions as a method.
    `fuel` bounds the depth of evaluation; running out of it is OutOfFuel. */
module SemV4 {
  import opened Values
  import opened Ast
  import opened Ops
  import opened Env
  import opened Functions

  datatype Status = Continue | Returned | Raised

  datatype Outcome = Out(status: Status, val: Value) | Fatal(err: ErrorKind)

  /** The interpreter state: the scope frames and the lines printed so far
      (each line as the values that make it up). */
  datatype St = St(frames: seq<Frame>, out: seq<seq<Value>>)

  /** The values of evaluated call arguments, bound to the formal names, or
      the exception or error that stopped their evaluation. */
  datatype ArgsOut = ArgMap(m: map<string, Value>) | ArgRaise(ex: Value) | ArgFatal(err: ErrorKind)

  /** Output only grows; unless the run failed, no frame was added or
      removed and no frame gained or lost a name. */
  predicate Kept(st: St, r: (Outcome, St)) {
    st.out <= r.1.out && (!r.0.Fatal? ==> SameShape(st.frames, r.1.frames))
  }

  /** As Kept, except that the innermost frame may have gained names (a
      statement can define a variable in the block it runs in). */
  predicate KeptBelowTop(st: St, r: (Outcome, St)) {
    st.out <= r.1.out && (!r.0.Fatal? ==> TopGrown(st.frames, r.1.frames))
  }

  /** A binary operator applied to two evaluated operands
      (interpreterv4.py:292-307). */
  function BinaryV4(op: BinOp, l: Value, r: Value): (o: Outcome)
    ensures (op == Eq || op == Ne) && !l.StructV? ==> o == Out(Continue, BoolV((l == r) == (op == Eq)))
    ensures (op == Eq || op == Ne) && !l.StructV? && TypeOf(l) != TypeOf(r) ==> o == Out(Continue, BoolV(op == Ne))
    ensures op != Eq && op != Ne && TypeOf(l) != TypeOf(r) ==> o == Fatal(TypeError)
    ensures Compatible(op, l, r) && !l.StructV? && !InTable(op, l) ==> o == Fatal(TypeError)
    ensures op == Div && l.IntV? && r == IntV(0) ==> o == Out(Raised, StrV("div0"))
    ensures op == Div && l.IntV? && r.IntV? && r.i != 0 ==> o == Out(Continue, IntV(FloorDiv(l.i, r.i)))
    ensures o.Out? ==> o.status != Returned
    ensures o.Out? && o.status == Raised ==> op == Div && r == IntV(0)
    ensures o.Fatal? ==> o.err == TypeError || (o.err == HostCrash && l.StructV?)
  {
    if !Compatible(op, l, r) then Fatal(TypeError)
    else if BinTable(TypeOf(l)).None? then Fatal(HostCrash)
    else if op !in BinTable(TypeOf(l)).value then Fatal(TypeError)
    else if op == Div && r == IntV(0) then Out(Raised, StrV("div0"))
    else Out(Continue, Apply(op, l, r))
  }

  /** __eval_expr (interpreterv4.py:229-252). */
  function EvalExpr(fuel: nat, ft: FuncTable, e: Expr, st: St): (r: (Outcome, St))
    decreases fuel, 0
  {
    if fuel == 0 then (Fatal(OutOfFuel), st)
    else match e
      case NilLit => (Out(Continue, NilV), st)
      case IntLit(i) => (Out(Continue, IntV(i)), st)
      case StrLit(s) => (Out(Continue, StrV(s)), st)
      case BoolLit(b) => (Out(Continue, BoolV(b)), st)
      case Var(name) =>
        (match Lookup(st.frames, name)
         case None => (Fatal(NameError), st)
         case Some(v) => (Out(Continue, v), st))
      case Call(name, args) => CallFunc(fuel - 1, ft, name, args, st)
      case Bin(op, l, r) => EvalOp(fuel - 1, ft, op, l, r, st)
      case Unary(u, x) => EvalUnary(fuel - 1, ft, u, x, st)
      case New(_) => (Fatal(HostCrash), st)  // not a v4 node kind: __eval_expr returns None
  }

  /** __eval_op (interpreterv4.py:254-307): left operand, the short circuit of
      `&&` and `||`, right operand, then the operator table. */
  function EvalOp(fuel: nat, ft: FuncTable, op: BinOp, l: Expr, r: Expr, st: St): (res: (Outcome, St))
    decreases fuel, 0
  {
    if fuel == 0 then (Fatal(OutOfFuel), st)
    else
      var (lo, st1) := EvalExpr(fuel - 1, ft, l, st);
      if lo.Fatal? || lo.status == Raised then (lo, st1)
      else if (op == And || op == Or) && !lo.val.BoolV? then (Fatal(TypeError), st1)
      else if op == And && lo.val == BoolV(false) then (Out(Continue, BoolV(false)), st1)
      else if op == Or && lo.val == BoolV(true) then (Out(Continue, BoolV(true)), st1)
      else
        var (ro, st2) := EvalExpr(fuel - 1, ft, r, st1);
        if ro.Fatal? || ro.status == Raised then (ro, st2)
        else (BinaryV4(op, lo.val, ro.val), st2)
  }

  /** __eval_unary (interpreterv4.py:315-325): `neg` on Int, `!` on Bool. */
  function EvalUnary(fuel: nat, ft: FuncTable, u: UnOp, x: Expr, st: St): (r: (Outcome, St))
    decreases fuel, 0
  {
    if fuel == 0 then (Fatal(OutOfFuel), st)
    else
      var (o, st1) := EvalExpr(fuel - 1, ft, x, st);
      if o.Fatal? || o.status == Raised then (o, st1)
      else if TypeOf(o.val) != UnaryOperandType(u) then (Fatal(TypeError), st1)
      else (Out(Continue, ApplyUnary(u, o.val)), st1)
  }

  /** Binds the formals to the evaluated actuals, in the caller's frames. */
  function EvalArgs(fuel: nat, ft: FuncTable, params: seq<Param>, args: seq<Expr>, i: nat,
                    m: map<string, Value>, st: St): (r: (ArgsOut, St))
    requires |params| == |args| && i <= |args|
    decreases fuel, |args| - i
  {
    if i == |args| then (ArgMap(m), st)
    else
      var (o, st1) := EvalExpr(fuel, ft, args[i], st);
      if o.Fatal? then (ArgFatal(o.err), st1)
      else if o.status == Raised then (ArgRaise(o.val), st1)
      else EvalArgs(fuel, ft, params, args, i + 1, m[params[i].name := o.val], st1)
  }

  /** __call_func_aux (interpreterv4.py:147-181): intrinsics first, then the
      user function with that name and arity; its body's status/value pair is
      returned as it is. */
  function CallFunc(fuel: nat, ft: FuncTable, name: string, args: seq<Expr>, st: St): (r: (Outcome, St))
    decreases fuel, 0
  {
    if fuel == 0 then (Fatal(OutOfFuel), st)
    else if name == "print" then CallPrint(fuel - 1, ft, args, 0, [], st)
    else if name == "inputi" || name == "inputs" then CallInput(fuel - 1, ft, args, st)
    else match Resolve(ft, name, |args|)
      case None => (Fatal(NameError), st)
      case Some(fd) =>
        if |args| != |fd.params| then (Fatal(NameError), st)
        else
          var (ao, st1) := EvalArgs(fuel - 1, ft, fd.params, args, 0, map[], st);
          match ao
          case ArgFatal(k) => (Fatal(k), st1)
          case ArgRaise(x) => (Out(Raised, x), st1)
          case ArgMap(m) =>
            var st2 := st1.(frames := Declare(Push(st1.frames, true), m));
            var (bo, st3) := RunStatements(fuel - 1, ft, fd.body, st2);
            if bo.Fatal? then (bo, st3) else (bo, st3.(frames := Pop(st3.frames)))
  }

  /** __call_print (interpreterv4.py:185-193): one output line made of the
      evaluated arguments; an exception from an argument stops the print. */
  function CallPrint(fuel: nat, ft: FuncTable, args: seq<Expr>, i: nat, acc: seq<Value>, st: St): (r: (Outcome, St))
    requires i <= |args|
    decreases fuel, |args| - i
  {
    if i == |args| then (Out(Continue, NilV), st.(out := st.out + [acc]))
    else
      var (o, st1) := EvalExpr(fuel, ft, args[i], st);
      if o.Fatal? || o.status == Raised then (o, st1)
      else CallPrint(fuel, ft, args, i + 1, acc + [o.val], st1)
  }

  /** __call_input (interpreterv4.py:195-209) up to the read: the optional
      prompt is printed, more than one argument is a NAME error. */
  function CallInput(fuel: nat, ft: FuncTable, args: seq<Expr>, st: St): (r: (Outcome, St))
    decreases fuel, 0
  {
    if fuel == 0 then (Fatal(OutOfFuel), st)
    else if |args| == 1 then
      var (o, st1) := EvalExpr(fuel - 1, ft, args[0], st);
      if o.Fatal? || o.status == Raised then (o, st1)
      else (Fatal(Unmodelled), st1.(out := st1.out + [[o.val]]))
    else if |args| > 1 then (Fatal(NameError), st)
    else (Fatal(Unmodelled), st)
  }

  /** __run_statements (interpreterv4.py:65-77): a block frame around the list. */
  function RunStatements(fuel: nat, ft: FuncTable, stmts: seq<Stmt>, st: St): (r: (Outcome, St))
    decreases fuel, |stmts| + 1
  {
    var (o, st1) := RunSeq(fuel, ft, stmts, 0, st.(frames := Push(st.frames, false)));
    if o.Fatal? then (o, st1) else (o, st1.(frames := Pop(st1.frames)))
  }

  /** The loop of __run_statements from statement `i` on: the first RETURN or
      EXCEPTION ends it. */
  function RunSeq(fuel: nat, ft: FuncTable, stmts: seq<Stmt>, i: nat, st: St): (r: (Outcome, St))
    requires i <= |stmts|
    ensures r.0.Out? && r.0.status == Continue ==> r.0.val == NilV
    decreases fuel, |stmts| - i
  {
    if i == |stmts| then (Out(Continue, NilV), st)
    else
      var (o, st1) := RunStatement(fuel, ft, stmts[i], st);
      if o.Fatal? || o.status != Continue then (o, st1)
      else RunSeq(fuel, ft, stmts, i + 1, st1)
  }

  /** __run_statement (interpreterv4.py:79-105). */
  function RunStatement(fuel: nat, ft: FuncTable, s: Stmt, st: St): (r: (Outcome, St))
    decreases fuel, 0
  {
    if fuel == 0 then (Fatal(OutOfFuel), st)
    else match s
      case CallStmt(name, args) => CallFunc(fuel - 1, ft, name, args, st)
      case Assign(name, e) => DoAssign(fuel - 1, ft, name, e, st)
      case VarDef(name, _) => DoVarDef(name, st)
      case Return(e) => DoReturn(fuel - 1, ft, e, st)
      case If(c, thn, els) => DoIf(fuel - 1, ft, c, thn, els, st)
      case For(init, c, upd, body) => DoFor(fuel - 1, ft, init, c, upd, body, st)
      case Raise(e) => DoRaise(fuel - 1, ft, e, st)
      case Try(body, catchers) => TryBlock(fuel - 1, ft, body, catchers, st)
  }

  /** __assign (interpreterv4.py:211-220). */
  function DoAssign(fuel: nat, ft: FuncTable, name: string, e: Expr, st: St): (r: (Outcome, St))
    decreases fuel, 0
  {
    if fuel == 0 then (Fatal(OutOfFuel), st)
    else
      var (o, st1) := EvalExpr(fuel - 1, ft, e, st);
      if o.Fatal? || o.status == Raised then (o, st1)
      else match SetVar(st1.frames, name, o.val)
        case None => (Fatal(NameError), st1)
        case Some(fr) => (Out(Continue, BoolV(true)), st1.(frames := fr))
  }

  /** __var_def (interpreterv4.py:222-227): the new variable holds nil. */
  function DoVarDef(name: string, st: St): (r: (Outcome, St))
    ensures r.0.Out? <==> CreateVar(st.frames, name, NilV).Some?
    ensures r.0.Out? ==> Lookup(r.1.frames, name) == Some(NilV)
    ensures r.0.Fatal? ==> r.0.err == NameError
  {
    match CreateVar(st.frames, name, NilV)
    case None => (Fatal(NameError), st)
    case Some(fr) =>
      CreateSpec(st.frames, name, NilV);
      (Out(Continue, NilV), st.(frames := fr))
  }

  /** __do_return (interpreterv4.py:451-459). */
  function DoReturn(fuel: nat, ft: FuncTable, e: Option<Expr>, st: St): (r: (Outcome, St))
    decreases fuel, 0
  {
    if fuel == 0 then (Fatal(OutOfFuel), st)
    else match e
      case None => (Out(Returned, NilV), st)
      case Some(x) =>
        var (o, st1) := EvalExpr(fuel - 1, ft, x, st);
        if o.Fatal? || o.status == Raised then (o, st1)
        else (Out(Returned, o.val), st1)
  }

  /** __do_raise (interpreterv4.py:124-140): the payload's own status is
      discarded; only its value is used. */
  function DoRaise(fuel: nat, ft: FuncTable, e: Option<Expr>, st: St): (r: (Outcome, St))
    decreases fuel, 0
  {
    if fuel == 0 then (Fatal(OutOfFuel), st)
    else match e
      case None => (Out(Raised, NilV), st)
      case Some(x) =>
        var (o, st1) := EvalExpr(fuel - 1, ft, x, st);
        if o.Fatal? then (o, st1)
        else if !o.val.StrV? then (Fatal(TypeError), st1)
        else (Out(Raised, o.val), st1)
  }

  /** __do_if (interpreterv4.py:397-417). */
  function DoIf(fuel: nat, ft: FuncTable, c: Expr, thn: seq<Stmt>, els: Option<seq<Stmt>>, st: St): (r: (Outcome, St))
    decreases fuel, 0
  {
    if fuel == 0 then (Fatal(OutOfFuel), st)
    else
      var (o, st1) := EvalExpr(fuel - 1, ft, c, st);
      if o.Fatal? || o.status == Raised then (o, st1)
      else if !o.val.BoolV? then (Fatal(TypeError), st1)
      else if o.val.b then RunStatements(fuel - 1, ft, thn, st1)
      else match els
        case None => (Out(Continue, NilV), st1)
        case Some(es) => RunStatements(fuel - 1, ft, es, st1)
  }

  /** __do_for (interpreterv4.py:420-449): init once, then the loop. */
  function DoFor(fuel: nat, ft: FuncTable, init: Stmt, c: Expr, upd: Stmt, body: seq<Stmt>, st: St): (r: (Outcome, St))
    decreases fuel, 0
  {
    if fuel == 0 then (Fatal(OutOfFuel), st)
    else
      var (io, st1) := RunStatement(fuel - 1, ft, init, st);
      if io.Fatal? || io.status == Raised then (io, st1)
      else ForLoop(fuel - 1, ft, c, upd, body, st1)
  }

  /** One test of the condition and, while it holds, one iteration: body in
      its own block, then the update. */
  function ForLoop(fuel: nat, ft: FuncTable, c: Expr, upd: Stmt, body: seq<Stmt>, st: St): (r: (Outcome, St))
    decreases fuel, 0
  {
    if fuel == 0 then (Fatal(OutOfFuel), st)
    else
      var (co, st1) := EvalExpr(fuel - 1, ft, c, st);
      if co.Fatal? || co.status == Raised then (co, st1)
      else if !co.val.BoolV? then (Fatal(TypeError), st1)
      else if !co.val.b then (Out(Continue, NilV), st1)
      else
        var (bo, st2) := RunStatements(fuel - 1, ft, body, st1);
        if bo.Fatal? || bo.status != Continue then (bo, st2)
        else
          var (uo, st3) := RunStatement(fuel - 1, ft, upd, st2);
          if uo.Fatal? || uo.status == Raised then (uo, st3)
          else ForLoop(fuel - 1, ft, c, upd, body, st3)
  }

  /** The catcher scan of __try_block: the first catcher whose tag equals the
      exception's string. */
  function FindCatcher(catchers: seq<Catcher>, ex: Value): (r: Option<nat>)
    ensures r.Some? ==> r.value < |catchers| && ex == StrV(catchers[r.value].tag)
    ensures r.Some? ==> forall j :: 0 <= j < r.value ==> ex != StrV(catchers[j].tag)
    ensures r.None? <==> forall j :: 0 <= j < |catchers| ==> ex != StrV(catchers[j].tag)
    decreases |catchers|
  {
    if catchers == [] then None
    else if ex == StrV(catchers[0].tag) then Some(0)
    else match FindCatcher(catchers[1..], ex)
      case None => None
      case Some(k) => Some(k + 1)
  }

  /** __try_block (interpreterv4.py:107-121). */
  function TryBlock(fuel: nat, ft: FuncTable, body: seq<Stmt>, catchers: seq<Catcher>, st: St): (r: (Outcome, St))
    decreases fuel, 0
  {
    if fuel == 0 then (Fatal(OutOfFuel), st)
    else
      var (o, st1) := RunStatements(fuel - 1, ft, body, st);
      if o.Fatal? || o.status != Raised then (o, st1)
      else match FindCatcher(catchers, o.val)
        case None => (o, st1)
        case Some(k) => RunStatements(fuel - 1, ft, catchers[k].body, st1)
  }

  // What a statement or expression leaves of the frames: each function
  // above keeps Kept (KeptBelowTop for statements, which may define a
  // variable in the block they run in), proved by induction along the
  // evaluation.

  lemma {:induction false} EvalExprKept(fuel: nat, ft: FuncTable, e: Expr, st: St)
    ensures Kept(st, EvalExpr(fuel, ft, e, st))
    decreases fuel, 0
  {
    if fuel > 0 {
      match e
      case Call(name, args) => CallFuncKept(fuel - 1, ft, name, args, st);
      case Bin(op, l, r) => EvalOpKept(fuel - 1, ft, op, l, r, st);
      case Unary(u, x) => EvalUnaryKept(fuel - 1, ft, u, x, st);
      case _ =>
    }
  }

  lemma {:induction false} EvalOpKept(fuel: nat, ft: FuncTable, op: BinOp, l: Expr, r: Expr, st: St)
    ensures Kept(st, EvalOp(fuel, ft, op, l, r, st))
    decreases fuel, 0
  {
    if fuel > 0 {
      EvalExprKept(fuel - 1, ft, l, st);
      var (lo, st1) := EvalExpr(fuel - 1, ft, l, st);
      EvalExprKept(fuel - 1, ft, r, st1);
    }
  }

  lemma {:induction false} EvalUnaryKept(fuel: nat, ft: FuncTable, u: UnOp, x: Expr, st: St)
    ensures Kept(st, EvalUnary(fuel, ft, u, x, st))
    decreases fuel, 0
  {
    if fuel > 0 {
      EvalExprKept(fuel - 1, ft, x, st);
    }
  }

  /** Evaluating the actuals runs in the caller's frames and leaves them in
      shape unless it failed. */
  lemma {:induction false} EvalArgsKept(fuel: nat, ft: FuncTable, params: seq<Param>, args: seq<Expr>, i: nat,
                                        m: map<string, Value>, st: St)
    requires |params| == |args| && i <= |args|
    ensures var r := EvalArgs(fuel, ft, params, args, i, m, st);
      st.out <= r.1.out && (r.0.ArgFatal? || SameShape(st.frames, r.1.frames))
    decreases fuel, |args| - i
  {
    if i < |args| {
      EvalExprKept(fuel, ft, args[i], st);
      var (o, st1) := EvalExpr(fuel, ft, args[i], st);
      if !o.Fatal? && o.status != Raised {
        EvalArgsKept(fuel, ft, params, args, i + 1, m[params[i].name := o.val], st1);
      }
    }
  }

  /** A call pops the frame it pushed: the caller's frames keep their shape. */
  lemma {:induction false} CallFuncKept(fuel: nat, ft: FuncTable, name: string, args: seq<Expr>, st: St)
    ensures Kept(st, CallFunc(fuel, ft, name, args, st))
    decreases fuel, 0
  {
    if fuel == 0 {
    } else if name == "print" {
      CallPrintKept(fuel - 1, ft, args, 0, [], st);
    } else if name == "inputi" || name == "inputs" {
      CallInputKept(fuel - 1, ft, args, st);
    } else if Resolve(ft, name, |args|).Some? {
      var fd := Resolve(ft, name, |args|).value;
      if |args| == |fd.params| {
        EvalArgsKept(fuel - 1, ft, fd.params, args, 0, map[], st);
        var (ao, st1) := EvalArgs(fuel - 1, ft, fd.params, args, 0, map[], st);
        if ao.ArgMap? {
          var st2 := st1.(frames := Declare(Push(st1.frames, true), ao.m));
          RunStatementsKept(fuel - 1, ft, fd.body, st2);
          var (bo, st3) := RunStatements(fuel - 1, ft, fd.body, st2);
          if !bo.Fatal? {
            TopGrownTrans(Push(st1.frames, true), st2.frames, st3.frames);
            PopAfterPush(st1.frames, true, st3.frames);
          }
        }
      }
    }
  }

  lemma {:induction false} CallPrintKept(fuel: nat, ft: FuncTable, args: seq<Expr>, i: nat, acc: seq<Value>, st: St)
    requires i <= |args|
    ensures Kept(st, CallPrint(fuel, ft, args, i, acc, st))
    decreases fuel, |args| - i
  {
    if i < |args| {
      EvalExprKept(fuel, ft, args[i], st);
      var (o, st1) := EvalExpr(fuel, ft, args[i], st);
      if !o.Fatal? && o.status != Raised {
        CallPrintKept(fuel, ft, args, i + 1, acc + [o.val], st1);
      }
    }
  }

  lemma {:induction false} CallInputKept(fuel: nat, ft: FuncTable, args: seq<Expr>, st: St)
    ensures Kept(st, CallInput(fuel, ft, args, st))
    decreases fuel, 0
  {
    if fuel > 0 && |args| == 1 {
      EvalExprKept(fuel - 1, ft, args[0], st);
    }
  }

  /** A statement list runs in a block frame that is popped afterwards. */
  lemma {:induction false} RunStatementsKept(fuel: nat, ft: FuncTable, stmts: seq<Stmt>, st: St)
    ensures Kept(st, RunStatements(fuel, ft, stmts, st))
    decreases fuel, |stmts| + 1
  {
    var st0 := st.(frames := Push(st.frames, false));
    RunSeqKept(fuel, ft, stmts, 0, st0);
    var (o, st1) := RunSeq(fuel, ft, stmts, 0, st0);
    if !o.Fatal? {
      PopAfterPush(st.frames, false, st1.frames);
    }
  }

  lemma {:induction false} RunSeqKept(fuel: nat, ft: FuncTable, stmts: seq<Stmt>, i: nat, st: St)
    requires i <= |stmts|
    ensures KeptBelowTop(st, RunSeq(fuel, ft, stmts, i, st))
    decreases fuel, |stmts| - i
  {
    if i < |stmts| {
      RunStatementKept(fuel, ft, stmts[i], st);
      var (o, st1) := RunStatement(fuel, ft, stmts[i], st);
      if !o.Fatal? && o.status == Continue {
        RunSeqKept(fuel, ft, stmts, i + 1, st1);
        var r := RunSeq(fuel, ft, stmts, i + 1, st1);
        if !r.0.Fatal? {
          TopGrownTrans(st.frames, st1.frames, r.1.frames);
        }
      }
    }
  }

  lemma {:induction false} RunStatementKept(fuel: nat, ft: FuncTable, s: Stmt, st: St)
    ensures KeptBelowTop(st, RunStatement(fuel, ft, s, st))
    decreases fuel, 0
  {
    if fuel > 0 {
      match s
      case CallStmt(name, args) => CallFuncKept(fuel - 1, ft, name, args, st);
      case Assign(name, e) => DoAssignKept(fuel - 1, ft, name, e, st);
      case VarDef(name, _) => DoVarDefKept(name, st);
      case Return(e) => DoReturnKept(fuel - 1, ft, e, st);
      case If(c, thn, els) => DoIfKept(fuel - 1, ft, c, thn, els, st);
      case For(init, c, upd, body) => DoForKept(fuel - 1, ft, init, c, upd, body, st);
      case Raise(e) => DoRaiseKept(fuel - 1, ft, e, st);
      case Try(body, catchers) => TryBlockKept(fuel - 1, ft, body, catchers, st);
    }
  }

  lemma {:induction false} DoAssignKept(fuel: nat, ft: FuncTable, name: string, e: Expr, st: St)
    ensures Kept(st, DoAssign(fuel, ft, name, e, st))
    decreases fuel, 0
  {
    if fuel > 0 {
      EvalExprKept(fuel - 1, ft, e, st);
      var (o, st1) := EvalExpr(fuel - 1, ft, e, st);
      if !o.Fatal? && o.status != Raised && SetVar(st1.frames, name, o.val).Some? {
        SetVarSpec(st1.frames, name, o.val);
      }
    }
  }

  lemma DoVarDefKept(name: string, st: St)
    ensures KeptBelowTop(st, DoVarDef(name, st))
  {
    if CreateVar(st.frames, name, NilV).Some? {
      CreateSpec(st.frames, name, NilV);
    }
  }

  lemma {:induction false} DoReturnKept(fuel: nat, ft: FuncTable, e: Option<Expr>, st: St)
    ensures Kept(st, DoReturn(fuel, ft, e, st))
    decreases fuel, 0
  {
    if fuel > 0 && e.Some? {
      EvalExprKept(fuel - 1, ft, e.value, st);
    }
  }

  lemma {:induction false} DoRaiseKept(fuel: nat, ft: FuncTable, e: Option<Expr>, st: St)
    ensures Kept(st, DoRaise(fuel, ft, e, st))
    decreases fuel, 0
  {
    if fuel > 0 && e.Some? {
      EvalExprKept(fuel - 1, ft, e.value, st);
    }
  }

  lemma {:induction false} DoIfKept(fuel: nat, ft: FuncTable, c: Expr, thn: seq<Stmt>, els: Option<seq<Stmt>>, st: St)
    ensures Kept(st, DoIf(fuel, ft, c, thn, els, st))
    decreases fuel, 0
  {
    if fuel > 0 {
      EvalExprKept(fuel - 1, ft, c, st);
      var (o, st1) := EvalExpr(fuel - 1, ft, c, st);
      RunStatementsKept(fuel - 1, ft, thn, st1);
      if els.Some? {
        RunStatementsKept(fuel - 1, ft, els.value, st1);
      }
    }
  }

  lemma {:induction false} DoForKept(fuel: nat, ft: FuncTable, init: Stmt, c: Expr, upd: Stmt, body: seq<Stmt>, st: St)
    ensures KeptBelowTop(st, DoFor(fuel, ft, init, c, upd, body, st))
    decreases fuel, 0
  {
    if fuel > 0 {
      RunStatementKept(fuel - 1, ft, init, st);
      var (io, st1) := RunStatement(fuel - 1, ft, init, st);
      ForLoopKept(fuel - 1, ft, c, upd, body, st1);
      var r := ForLoop(fuel - 1, ft, c, upd, body, st1);
      if !io.Fatal? && !r.0.Fatal? {
        TopGrownTrans(st.frames, st1.frames, r.1.frames);
      }
    }
  }

  lemma {:induction false} ForLoopKept(fuel: nat, ft: FuncTable, c: Expr, upd: Stmt, body: seq<Stmt>, st: St)
    ensures KeptBelowTop(st, ForLoop(fuel, ft, c, upd, body, st))
    decreases fuel, 0
  {
    if fuel > 0 {
      EvalExprKept(fuel - 1, ft, c, st);
      var (co, st1) := EvalExpr(fuel - 1, ft, c, st);
      if co.Out? && co.status != Raised && co.val == BoolV(true) {
        RunStatementsKept(fuel - 1, ft, body, st1);
        var (bo, st2) := RunStatements(fuel - 1, ft, body, st1);
        if bo.Out? && bo.status == Continue {
          RunStatementKept(fuel - 1, ft, upd, st2);
          var (uo, st3) := RunStatement(fuel - 1, ft, upd, st2);
          if uo.Out? && uo.status != Raised {
            ForLoopKept(fuel - 1, ft, c, upd, body, st3);
            var r := ForLoop(fuel - 1, ft, c, upd, body, st3);
            assert ForLoop(fuel, ft, c, upd, body, st) == r;
            if !r.0.Fatal? {
              TopGrownTrans(st2.frames, st3.frames, r.1.frames);
              SameShapeTrans(st.frames, st1.frames, st2.frames);
              ShapeThenGrown(st.frames, st2.frames, r.1.frames);
            }
          }
        }
      }
    }
  }

  lemma {:induction false} TryBlockKept(fuel: nat, ft: FuncTable, body: seq<Stmt>, catchers: seq<Catcher>, st: St)
    ensures Kept(st, TryBlock(fuel, ft, body, catchers, st))
    decreases fuel, 0
  {
    if fuel > 0 {
      RunStatementsKept(fuel - 1, ft, body, st);
      var (o, st1) := RunStatements(fuel - 1, ft, body, st);
      if !o.Fatal? && o.status == Raised && FindCatcher(catchers, o.val).Some? {
        RunStatementsKept(fuel - 1, ft, catchers[FindCatcher(catchers, o.val).value].body, st1);
      }
    }
  }

  /** How a run ends: the lines printed and the error that stopped it, if any. */
  datatype RunResult = RunResult(err: Option<ErrorKind>, out: seq<seq<Value>>)

  /** run (interpreterv4.py:34-43): call main; an exception escaping it is a
      FAULT error. */
  function Run(fuel: nat, p: Program): RunResult {
    var (o, st) := CallFunc(fuel, TableOf(p.funcs), "main", [], St([], []));
    match o
    case Fatal(k) => RunResult(Some(k), st.out)
    case Out(s, _) => RunResult(if s == Raised then Some(FaultError) else None, st.out)
  }
}
