/** The meaning of a program under interpreterv3.py, as functions.
    Expressions yield a value or a fatal error; statements yield CONTINUE or
    RETURN with a value, or a fatal error. Struct instances live in a heap of
    field maps, and a struct value is a reference into it, so that two
    variables holding the same struct see each other's field writes.
    The InterpreterV3 class implements each function as a method. */
module SemV3 {
  import opened Values
  import opened Ast
  import opened Ops
  import opened Env
  import opened Functions
  import opened Structs
  import opened Paths

  datatype Status = Continue | Returned

  datatype Outcome = Out(status: Status, val: Value) | Fatal(err: ErrorKind)

  /** Frames, the struct instances (indexed by address), and the lines printed. */
  datatype St = St(frames: seq<Frame>, heap: seq<map<string, Value>>, out: seq<seq<Value>>)

  /** What a run consults but never changes: the function and struct tables. */
  datatype Ctx = Ctx(ft: FuncTable, structs: StructTable)

  /** Output and heap only grow; when `ok`, the frames keep their shape. */
  predicate Kept(st: St, ok: bool, st': St) {
    st.out <= st'.out && |st.heap| <= |st'.heap| && (ok ==> SameShape(st.frames, st'.frames))
  }

  /** As Kept, except that the innermost frame may have gained names. */
  predicate KeptBelowTop(st: St, ok: bool, st': St) {
    st.out <= st'.out && |st.heap| <= |st'.heap| && (ok ==> TopGrown(st.frames, st'.frames))
  }

  /** A binary operator applied to two evaluated operands
      (interpreterv3.py:329-347). For mismatched operands the source first
      tests `left is Bool and right is Type.INT()` (and the same with Int and
      Bool); calling the type constant crashes the host, so a mismatch with a
      Bool or Int left operand crashes and any other mismatch is a TYPE
      error. */
  function BinaryV3(op: BinOp, l: Value, r: Value): (o: Result<Value>)
    ensures (op == Eq || op == Ne) && !l.StructV? ==> o == Ok(BoolV((l == r) == (op == Eq)))
    ensures !Compatible(op, l, r) && (l.BoolV? || l.IntV?) ==> o == Err(HostCrash)
    ensures !Compatible(op, l, r) && !l.BoolV? && !l.IntV? ==> o == Err(TypeError)
    ensures Compatible(op, l, r) && !l.StructV? && !InTable(op, l) ==> o == Err(TypeError)
    ensures op == Div && l.IntV? && r == IntV(0) ==> o == Err(HostCrash)
    ensures op == Div && l.IntV? && r.IntV? && r.i != 0 ==> o == Ok(IntV(FloorDiv(l.i, r.i)))
    ensures o.Err? ==> o.err == TypeError || o.err == HostCrash
  {
    if !Compatible(op, l, r) then
      if l.BoolV? || l.IntV? then Err(HostCrash) else Err(TypeError)
    else if BinTable(TypeOf(l)).None? then Err(HostCrash)
    else if op !in BinTable(TypeOf(l)).value then Err(TypeError)
    else if op == Div && r == IntV(0) then Err(HostCrash)
    else Ok(Apply(op, l, r))
  }

  /** Follows the intermediate fields of a dotted path from `cur`; every
      value passed through must be a struct that has the next field. Looking
      a field up in anything else (nil, an Int, a Bool, a String) crashes
      the host; a struct without the field is a NAME error. */
  function Walk(heap: seq<map<string, Value>>, cur: Value, fields: seq<string>): (r: Result<Value>)
    ensures r.Err? ==> r.err == NameError || r.err == HostCrash
    ensures fields != [] && !cur.StructV? ==> r == Err(HostCrash)
    ensures fields != [] && cur.StructV? && cur.addr < |heap| && fields[0] !in heap[cur.addr] ==> r == Err(NameError)
    decreases |fields|
  {
    if fields == [] then Ok(cur)
    else if !cur.StructV? || cur.addr >= |heap| then Err(HostCrash)
    else if fields[0] !in heap[cur.addr] then Err(NameError)
    else Walk(heap, heap[cur.addr][fields[0]], fields[1..])
  }

  /** The struct whose last field a dotted path names
      (interpreterv3.py:210-230 and 260-281). */
  function PathTarget(st: St, parts: seq<string>): (r: Result<nat>)
    requires |parts| >= 2
    ensures r.Ok? ==> r.value < |st.heap| && parts[|parts| - 1] in st.heap[r.value]
    ensures r.Err? ==> r.err == NameError || r.err == HostCrash
  {
    match Lookup(st.frames, parts[0])
    case None => Err(NameError)
    case Some(root) =>
      match Walk(st.heap, root, parts[1..|parts| - 1])
      case Err(k) => Err(k)
      case Ok(cur) =>
        if !cur.StructV? || cur.addr >= |st.heap| then Err(HostCrash)
        else if parts[|parts| - 1] !in st.heap[cur.addr] then
          // The report names the last intermediate field, which a two-part
          // path does not have: that local is unbound and the host crashes.
          if |parts| == 2 then Err(HostCrash) else Err(NameError)
        else Ok(cur.addr)
  }

  /** A dotted read. Once the field is found the source returns its raw
      payload instead of a value (interpreterv3.py:282), which the host cannot
      use; the model stops there with a crash. */
  function ReadPath(st: St, parts: seq<string>): (r: Result<Value>)
    requires |parts| >= 2
    ensures r.Err?
    ensures PathTarget(st, parts).Err? ==> r.err == PathTarget(st, parts).err
  {
    match PathTarget(st, parts)
    case Err(k) => Err(k)
    case Ok(_) => Err(HostCrash)
  }

  /** A dotted assignment: the value, coerced to the type of the value the
      field holds now, replaces it in the instance itself. */
  function AssignPath(st: St, parts: seq<string>, v: Value): (r: (Outcome, St))
    requires |parts| >= 2
    ensures r.1.frames == st.frames && r.1.out == st.out && |r.1.heap| == |st.heap|
    ensures r.0.Fatal? ==> r.1 == st
  {
    match PathTarget(st, parts)
    case Err(k) => (Fatal(k), st)
    case Ok(a) =>
      var f := parts[|parts| - 1];
      match Coerce(TypeName(TypeOf(st.heap[a][f])), v)
      case Err(k) => (Fatal(k), st)
      case Ok(w) => (Out(Continue, NilV), st.(heap := st.heap[a := st.heap[a][f := w]]))
  }

  /** __execute_new (interpreterv3.py:299-309): a fresh instance, at the next
      free address, with every declared field at its default. */
  function NewInstance(structs: StructTable, t: string, st: St): (r: (Result<Value>, St))
    ensures r.0.Ok? <==> t in structs && NewFields(structs, structs[t]).Some?
    ensures r.0.Ok? ==> r.0.value == StructV(t, |st.heap|) && r.1.heap == st.heap + [NewFields(structs, structs[t]).value]
    ensures r.1.frames == st.frames && r.1.out == st.out && |st.heap| <= |r.1.heap|
    ensures t !in structs ==> r.0 == Err(TypeError)
  {
    if t !in structs then (Err(TypeError), st)
    else match NewFields(structs, structs[t])
      case None => (Err(TypeError), st)
      case Some(inst) => (Ok(StructV(t, |st.heap|)), st.(heap := st.heap + [inst]))
  }

  /** __eval_expr (interpreterv3.py:249-297). */
  function EvalExpr(fuel: nat, cx: Ctx, e: Expr, st: St): (r: (Result<Value>, St))
    decreases fuel, 0
  {
    if fuel == 0 then (Err(OutOfFuel), st)
    else match e
      case NilLit => (Ok(NilV), st)
      case IntLit(i) => (Ok(IntV(i)), st)
      case StrLit(s) => (Ok(StrV(s)), st)
      case BoolLit(b) => (Ok(BoolV(b)), st)
      case Var(name) =>
        if '.' in name then
          SplitDotted(name);
          (ReadPath(st, Split(name)), st)
        else
          (match Lookup(st.frames, name)
           case None => (Err(NameError), st)
           case Some(v) => (Ok(v), st))
      case Call(name, args) => CallFunc(fuel - 1, cx, name, args, st)
      case Bin(op, l, r) => EvalOp(fuel - 1, cx, op, l, r, st)
      case Unary(u, x) => EvalUnary(fuel - 1, cx, u, x, st)
      case New(t) => NewInstance(cx.structs, t, st)
  }

  /** __eval_op (interpreterv3.py:324-347): both operands, left first, then
      the operator; no short circuit. */
  function EvalOp(fuel: nat, cx: Ctx, op: BinOp, l: Expr, r: Expr, st: St): (res: (Result<Value>, St))
    decreases fuel, 0
  {
    if fuel == 0 then (Err(OutOfFuel), st)
    else
      var (lv, st1) := EvalExpr(fuel - 1, cx, l, st);
      if lv.Err? then (lv, st1) else EvalRight(fuel - 1, cx, op, lv.value, r, st1)
  }

  /** The right operand of a binary operator, then the operator applied to
      both values. */
  function EvalRight(fuel: nat, cx: Ctx, op: BinOp, lv: Value, r: Expr, st: St): (res: (Result<Value>, St))
    decreases fuel, 1
  {
    var (rv, st2) := EvalExpr(fuel, cx, r, st);
    if rv.Err? then (rv, st2) else (BinaryV3(op, lv, rv.value), st2)
  }

  /** __eval_unary (interpreterv3.py:355-364). */
  function EvalUnary(fuel: nat, cx: Ctx, u: UnOp, x: Expr, st: St): (r: (Result<Value>, St))
    decreases fuel, 0
  {
    if fuel == 0 then (Err(OutOfFuel), st)
    else
      var (v, st1) := EvalExpr(fuel - 1, cx, x, st);
      if v.Err? then (v, st1)
      else if TypeOf(v.value) != UnaryOperandType(u) then (Err(TypeError), st1)
      else (Ok(ApplyUnary(u, v.value)), st1)
  }

  /** The argument loop of __call_func_aux: evaluate each actual in the
      caller's frames and bind it, coerced, to its formal. */
  function BindArgs(fuel: nat, cx: Ctx, params: seq<Param>, args: seq<Expr>, i: nat,
                    m: map<string, Value>, st: St): (r: (Result<map<string, Value>>, St))
    requires |params| == |args| && i <= |args|
    decreases fuel, |args| - i
  {
    if i == |args| then (Ok(m), st)
    else
      var (v, st1) := EvalExpr(fuel, cx, args[i], st);
      if v.Err? then (Err(v.err), st1)
      else match BindArg(cx.structs, params[i].varType, v.value)
        case Err(k) => (Err(k), st1)
        case Ok(w) => BindArgs(fuel, cx, params, args, i + 1, m[params[i].name := w], st1)
  }

  /** __call_func_aux (interpreterv3.py:117-170). */
  function CallFunc(fuel: nat, cx: Ctx, name: string, args: seq<Expr>, st: St): (r: (Result<Value>, St))
    decreases fuel, 0
  {
    if fuel == 0 then (Err(OutOfFuel), st)
    else if name == "print" then CallPrint(fuel - 1, cx, args, 0, [], st)
    else if name == "inputi" || name == "inputs" then CallInput(fuel - 1, cx, args, st)
    else match Resolve(cx.ft, name, |args|)
      case None => (Err(NameError), st)
      case Some(fd) => CallUser(fuel - 1, cx, fd, args, st)
  }

  /** The call of a resolved user function: the arguments are bound in the
      caller's scope, the body runs in a new function frame, and the result
      is defaulted and checked against the declared return type. */
  function CallUser(fuel: nat, cx: Ctx, fd: FuncDef, args: seq<Expr>, st: St): (r: (Result<Value>, St))
    decreases fuel, |args| + |fd.body| + 2
  {
    if |args| != |fd.params| then (Err(NameError), st)
    else
      var (bm, st1) := BindArgs(fuel, cx, fd.params, args, 0, map[], st);
      if bm.Err? then (Err(bm.err), st1)
      else
        var st2 := st1.(frames := Declare(Push(st1.frames, true), bm.value));
        var (bo, st3) := RunStatements(fuel, cx, fd.body, st2);
        if bo.Fatal? then (Err(bo.err), st3)
        else
          var st4 := st3.(frames := Pop(st3.frames));
          match ReturnValue(cx.structs, fd.retType, bo.val)
          case Err(k) => (Err(k), st4)
          case Ok(v) => (Ok(v), st4)
  }

  /** __call_print (interpreterv3.py:184-190). */
  function CallPrint(fuel: nat, cx: Ctx, args: seq<Expr>, i: nat, acc: seq<Value>, st: St): (r: (Result<Value>, St))
    requires i <= |args|
    decreases fuel, |args| - i
  {
    if i == |args| then (Ok(NilV), st.(out := st.out + [acc]))
    else
      var (v, st1) := EvalExpr(fuel, cx, args[i], st);
      if v.Err? then (v, st1)
      else CallPrint(fuel, cx, args, i + 1, acc + [v.value], st1)
  }

  /** __call_input (interpreterv3.py:192-204) up to the read. */
  function CallInput(fuel: nat, cx: Ctx, args: seq<Expr>, st: St): (r: (Result<Value>, St))
    ensures r.0.Err?
    decreases fuel, 0
  {
    if fuel == 0 then (Err(OutOfFuel), st)
    else if |args| == 1 then
      var (v, st1) := EvalExpr(fuel - 1, cx, args[0], st);
      if v.Err? then (v, st1)
      else (Err(Unmodelled), st1.(out := st1.out + [[v.value]]))
    else if |args| > 1 then (Err(NameError), st)
    else (Err(Unmodelled), st)
  }

  /** __run_statements (interpreterv3.py:81-92). */
  function RunStatements(fuel: nat, cx: Ctx, stmts: seq<Stmt>, st: St): (r: (Outcome, St))
    ensures r.0.Out? && r.0.status == Continue ==> r.0.val == NilV
    decreases fuel, |stmts| + 1
  {
    var (o, st1) := RunSeq(fuel, cx, stmts, 0, st.(frames := Push(st.frames, false)));
    if o.Fatal? then (o, st1) else (o, st1.(frames := Pop(st1.frames)))
  }

  /** The statements from `i` on, up to the first RETURN. */
  function RunSeq(fuel: nat, cx: Ctx, stmts: seq<Stmt>, i: nat, st: St): (r: (Outcome, St))
    requires i <= |stmts|
    ensures r.0.Out? && r.0.status == Continue ==> r.0.val == NilV
    decreases fuel, |stmts| - i
  {
    if i == |stmts| then (Out(Continue, NilV), st)
    else
      var (o, st1) := RunStatement(fuel, cx, stmts[i], st);
      if o.Fatal? || o.status == Returned then (o, st1)
      else RunSeq(fuel, cx, stmts, i + 1, st1)
  }

  /** __run_statement (interpreterv3.py:94-110). A call statement discards
      the call's value; node kinds v3 does not know do nothing. */
  function RunStatement(fuel: nat, cx: Ctx, s: Stmt, st: St): (r: (Outcome, St))
    ensures r.0.Out? && r.0.status == Continue ==> r.0.val == NilV
    decreases fuel, 0
  {
    if fuel == 0 then (Fatal(OutOfFuel), st)
    else match s
      case CallStmt(name, args) =>
        var (v, st1) := CallFunc(fuel - 1, cx, name, args, st);
        if v.Err? then (Fatal(v.err), st1) else (Out(Continue, NilV), st1)
      case Assign(name, e) => DoAssign(fuel - 1, cx, name, e, st)
      case VarDef(name, t) => DoVarDef(cx.structs, name, t, st)
      case Return(e) => DoReturn(fuel - 1, cx, e, st)
      case If(c, thn, els) => DoIf(fuel - 1, cx, c, thn, els, st)
      case For(init, c, upd, body) => DoFor(fuel - 1, cx, init, c, upd, body, st)
      case Raise(_) => (Out(Continue, NilV), st)
      case Try(_, _) => (Out(Continue, NilV), st)
  }

  /** __assign (interpreterv3.py:206-238): the right-hand side first; a plain
      name is set as it is, a dotted path writes into the instance. */
  function DoAssign(fuel: nat, cx: Ctx, name: string, e: Expr, st: St): (r: (Outcome, St))
    ensures r.0.Out? ==> r.0 == Out(Continue, NilV)
    decreases fuel, 0
  {
    if fuel == 0 then (Fatal(OutOfFuel), st)
    else
      var (v, st1) := EvalExpr(fuel - 1, cx, e, st);
      if v.Err? then (Fatal(v.err), st1)
      else if '.' in name then
        SplitDotted(name);
        AssignPath(st1, Split(name), v.value)
      else match SetVar(st1.frames, name, v.value)
        case None => (Fatal(NameError), st1)
        case Some(fr) => (Out(Continue, NilV), st1.(frames := fr))
  }

  /** __var_def (interpreterv3.py:240-247): the type's default first, then
      the definition in the innermost frame. */
  function DoVarDef(structs: StructTable, name: string, t: string, st: St): (r: (Outcome, St))
    ensures r.0.Out? <==> DefaultValue(structs, t).Ok? && CreateVar(st.frames, name, NilV).Some?
    ensures r.0.Out? ==> Lookup(r.1.frames, name) == Some(DefaultValue(structs, t).value)
    ensures DefaultValue(structs, t).Err? ==> r.0 == Fatal(TypeError)
    ensures DefaultValue(structs, t).Ok? && st.frames != [] && name in st.frames[|st.frames| - 1].vars ==>
      r.0 == Fatal(NameError)
  {
    match DefaultValue(structs, t)
    case Err(k) => (Fatal(k), st)
    case Ok(d) =>
      match CreateVar(st.frames, name, d)
      case None => (Fatal(NameError), st)
      case Some(fr) =>
        CreateSpec(st.frames, name, d);
        (Out(Continue, NilV), st.(frames := fr))
  }

  /** __do_return (interpreterv3.py:474-486). A struct result crashes (the
      returned local is never bound); a nil result is a TYPE error; a
      primitive result is evaluated a second time and that value returned. */
  function DoReturn(fuel: nat, cx: Ctx, e: Option<Expr>, st: St): (r: (Outcome, St))
    decreases fuel, 0
  {
    if fuel == 0 then (Fatal(OutOfFuel), st)
    else match e
      case None => (Out(Returned, NilV), st)
      case Some(x) =>
        var (v, st1) := EvalExpr(fuel - 1, cx, x, st);
        if v.Err? then (Fatal(v.err), st1)
        else if v.value.StructV? then (Fatal(HostCrash), st1)
        else if v.value.NilV? then (Fatal(TypeError), st1)
        else
          var (v2, st2) := EvalExpr(fuel - 1, cx, x, st1);
          if v2.Err? then (Fatal(v2.err), st2) else (Out(Returned, v2.value), st2)
  }

  /** __do_if (interpreterv3.py:435-451). */
  function DoIf(fuel: nat, cx: Ctx, c: Expr, thn: seq<Stmt>, els: Option<seq<Stmt>>, st: St): (r: (Outcome, St))
    ensures r.0.Out? && r.0.status == Continue ==> r.0.val == NilV
    decreases fuel, 0
  {
    if fuel == 0 then (Fatal(OutOfFuel), st)
    else
      var (v, st1) := EvalExpr(fuel - 1, cx, c, st);
      if v.Err? then (Fatal(v.err), st1)
      else match Condition(v.value)
        case Err(k) => (Fatal(k), st1)
        case Ok(b) =>
          if b then RunStatements(fuel - 1, cx, thn, st1)
          else if els.Some? then RunStatements(fuel - 1, cx, els.value, st1)
          else (Out(Continue, NilV), st1)
  }

  /** __do_for (interpreterv3.py:453-472): the init statement's outcome is
      ignored unless it is fatal. */
  function DoFor(fuel: nat, cx: Ctx, init: Stmt, c: Expr, upd: Stmt, body: seq<Stmt>, st: St): (r: (Outcome, St))
    ensures r.0.Out? && r.0.status == Continue ==> r.0.val == NilV
    decreases fuel, 0
  {
    if fuel == 0 then (Fatal(OutOfFuel), st)
    else
      var (io, st1) := RunStatement(fuel - 1, cx, init, st);
      if io.Fatal? then (io, st1)
      else ForLoop(fuel - 1, cx, c, upd, body, st1)
  }

  /** One test of the condition; while it holds, ForBody runs one iteration
      and the rest of the loop. */
  function ForLoop(fuel: nat, cx: Ctx, c: Expr, upd: Stmt, body: seq<Stmt>, st: St): (r: (Outcome, St))
    ensures r.0.Out? && r.0.status == Continue ==> r.0.val == NilV
    decreases fuel, 0
  {
    if fuel == 0 then (Fatal(OutOfFuel), st)
    else
      var (v, st1) := EvalExpr(fuel - 1, cx, c, st);
      if v.Err? then (Fatal(v.err), st1)
      else match Condition(v.value)
        case Err(k) => (Fatal(k), st1)
        case Ok(b) =>
          if !b then (Out(Continue, NilV), st1)
          else ForBody(fuel - 1, cx, c, upd, body, st1)
  }

  /** The body of one iteration; only a RETURN from it ends the loop early. */
  function ForBody(fuel: nat, cx: Ctx, c: Expr, upd: Stmt, body: seq<Stmt>, st: St): (r: (Outcome, St))
    ensures r.0.Out? && r.0.status == Continue ==> r.0.val == NilV
    decreases fuel, |body| + 2
  {
    var (bo, st1) := RunStatements(fuel, cx, body, st);
    if bo.Fatal? || bo.status == Returned then (bo, st1)
    else ForUpdate(fuel, cx, c, upd, body, st1)
  }

  /** The update of one iteration, whose outcome is ignored unless it is
      fatal, then the next test of the condition. */
  function ForUpdate(fuel: nat, cx: Ctx, c: Expr, upd: Stmt, body: seq<Stmt>, st: St): (r: (Outcome, St))
    ensures r.0.Out? && r.0.status == Continue ==> r.0.val == NilV
    decreases fuel, 1
  {
    var (uo, st1) := RunStatement(fuel, cx, upd, st);
    if uo.Fatal? then (uo, st1)
    else ForLoop(fuel, cx, c, upd, body, st1)
  }

  // What evaluation leaves of the state: each function above keeps Kept
  // (KeptBelowTop for statements, which may define a variable in the block
  // they run in), proved by induction along the evaluation.

  lemma {:induction false} EvalExprKept(fuel: nat, cx: Ctx, e: Expr, st: St)
    ensures var r := EvalExpr(fuel, cx, e, st); Kept(st, r.0.Ok?, r.1)
    decreases fuel, 0
  {
    if fuel > 0 {
      match e
      case Call(name, args) => CallFuncKept(fuel - 1, cx, name, args, st);
      case Bin(op, l, r) => EvalOpKept(fuel - 1, cx, op, l, r, st);
      case Unary(u, x) => EvalUnaryKept(fuel - 1, cx, u, x, st);
      case _ =>
    }
  }

  lemma {:induction false} EvalOpKept(fuel: nat, cx: Ctx, op: BinOp, l: Expr, r: Expr, st: St)
    ensures var res := EvalOp(fuel, cx, op, l, r, st); Kept(st, res.0.Ok?, res.1)
    decreases fuel, 0
  {
    if fuel > 0 {
      EvalExprKept(fuel - 1, cx, l, st);
      var (lv, st1) := EvalExpr(fuel - 1, cx, l, st);
      if lv.Ok? {
        EvalRightKept(fuel - 1, cx, op, lv.value, r, st1);
      }
    }
  }

  lemma {:induction false} EvalRightKept(fuel: nat, cx: Ctx, op: BinOp, lv: Value, r: Expr, st: St)
    ensures var res := EvalRight(fuel, cx, op, lv, r, st); Kept(st, res.0.Ok?, res.1)
    decreases fuel, 1
  {
    EvalExprKept(fuel, cx, r, st);
  }

  lemma {:induction false} EvalUnaryKept(fuel: nat, cx: Ctx, u: UnOp, x: Expr, st: St)
    ensures var r := EvalUnary(fuel, cx, u, x, st); Kept(st, r.0.Ok?, r.1)
    decreases fuel, 0
  {
    if fuel > 0 {
      EvalExprKept(fuel - 1, cx, x, st);
    }
  }

  /** The actuals are evaluated in the caller's frames. */
  lemma {:induction false} BindArgsKept(fuel: nat, cx: Ctx, params: seq<Param>, args: seq<Expr>, i: nat,
                                        m: map<string, Value>, st: St)
    requires |params| == |args| && i <= |args|
    ensures var r := BindArgs(fuel, cx, params, args, i, m, st); Kept(st, r.0.Ok?, r.1)
    decreases fuel, |args| - i
  {
    if i < |args| {
      EvalExprKept(fuel, cx, args[i], st);
      var (v, st1) := EvalExpr(fuel, cx, args[i], st);
      if v.Ok? && BindArg(cx.structs, params[i].varType, v.value).Ok? {
        var w := BindArg(cx.structs, params[i].varType, v.value).value;
        BindArgsKept(fuel, cx, params, args, i + 1, m[params[i].name := w], st1);
      }
    }
  }

  /** A call pops the frame it pushed: the caller's frames keep their shape. */
  lemma {:induction false} CallFuncKept(fuel: nat, cx: Ctx, name: string, args: seq<Expr>, st: St)
    ensures var r := CallFunc(fuel, cx, name, args, st); Kept(st, r.0.Ok?, r.1)
    decreases fuel, 0
  {
    if fuel == 0 {
    } else if name == "print" {
      CallPrintKept(fuel - 1, cx, args, 0, [], st);
    } else if name == "inputi" || name == "inputs" {
      CallInputKept(fuel - 1, cx, args, st);
    } else if Resolve(cx.ft, name, |args|).Some? {
      CallUserKept(fuel - 1, cx, Resolve(cx.ft, name, |args|).value, args, st);
    }
  }

  lemma {:induction false} CallUserKept(fuel: nat, cx: Ctx, fd: FuncDef, args: seq<Expr>, st: St)
    ensures var r := CallUser(fuel, cx, fd, args, st); Kept(st, r.0.Ok?, r.1)
    decreases fuel, |args| + |fd.body| + 2
  {
    if |args| == |fd.params| {
      BindArgsKept(fuel, cx, fd.params, args, 0, map[], st);
      var (bm, st1) := BindArgs(fuel, cx, fd.params, args, 0, map[], st);
      if bm.Ok? {
        var st2 := st1.(frames := Declare(Push(st1.frames, true), bm.value));
        RunStatementsKept(fuel, cx, fd.body, st2);
        var (bo, st3) := RunStatements(fuel, cx, fd.body, st2);
        if !bo.Fatal? {
          TopGrownTrans(Push(st1.frames, true), st2.frames, st3.frames);
          PopAfterPush(st1.frames, true, st3.frames);
        }
      }
    }
  }

  lemma {:induction false} CallPrintKept(fuel: nat, cx: Ctx, args: seq<Expr>, i: nat, acc: seq<Value>, st: St)
    requires i <= |args|
    ensures var r := CallPrint(fuel, cx, args, i, acc, st); Kept(st, r.0.Ok?, r.1)
    decreases fuel, |args| - i
  {
    if i < |args| {
      EvalExprKept(fuel, cx, args[i], st);
      var (v, st1) := EvalExpr(fuel, cx, args[i], st);
      if v.Ok? {
        CallPrintKept(fuel, cx, args, i + 1, acc + [v.value], st1);
      }
    }
  }

  lemma {:induction false} CallInputKept(fuel: nat, cx: Ctx, args: seq<Expr>, st: St)
    ensures var r := CallInput(fuel, cx, args, st); Kept(st, r.0.Ok?, r.1)
    decreases fuel, 0
  {
    if fuel > 0 && |args| == 1 {
      EvalExprKept(fuel - 1, cx, args[0], st);
    }
  }

  /** A statement list runs in a block frame that is popped afterwards. */
  lemma {:induction false} RunStatementsKept(fuel: nat, cx: Ctx, stmts: seq<Stmt>, st: St)
    ensures var r := RunStatements(fuel, cx, stmts, st); Kept(st, !r.0.Fatal?, r.1)
    decreases fuel, |stmts| + 1
  {
    var st0 := st.(frames := Push(st.frames, false));
    RunSeqKept(fuel, cx, stmts, 0, st0);
    var (o, st1) := RunSeq(fuel, cx, stmts, 0, st0);
    if !o.Fatal? {
      PopAfterPush(st.frames, false, st1.frames);
    }
  }

  lemma {:induction false} RunSeqKept(fuel: nat, cx: Ctx, stmts: seq<Stmt>, i: nat, st: St)
    requires i <= |stmts|
    ensures var r := RunSeq(fuel, cx, stmts, i, st); KeptBelowTop(st, !r.0.Fatal?, r.1)
    decreases fuel, |stmts| - i
  {
    if i < |stmts| {
      RunStatementKept(fuel, cx, stmts[i], st);
      var (o, st1) := RunStatement(fuel, cx, stmts[i], st);
      if !o.Fatal? && o.status == Continue {
        RunSeqKept(fuel, cx, stmts, i + 1, st1);
        var r := RunSeq(fuel, cx, stmts, i + 1, st1);
        if !r.0.Fatal? {
          TopGrownTrans(st.frames, st1.frames, r.1.frames);
        }
      }
    }
  }

  lemma {:induction false} RunStatementKept(fuel: nat, cx: Ctx, s: Stmt, st: St)
    ensures var r := RunStatement(fuel, cx, s, st); KeptBelowTop(st, !r.0.Fatal?, r.1)
    decreases fuel, 0
  {
    if fuel > 0 {
      match s
      case CallStmt(name, args) => CallFuncKept(fuel - 1, cx, name, args, st);
      case Assign(name, e) => DoAssignKept(fuel - 1, cx, name, e, st);
      case VarDef(name, t) => DoVarDefKept(cx.structs, name, t, st);
      case Return(e) => DoReturnKept(fuel - 1, cx, e, st);
      case If(c, thn, els) => DoIfKept(fuel - 1, cx, c, thn, els, st);
      case For(init, c, upd, body) => DoForKept(fuel - 1, cx, init, c, upd, body, st);
      case _ =>
    }
  }

  lemma {:induction false} DoAssignKept(fuel: nat, cx: Ctx, name: string, e: Expr, st: St)
    ensures var r := DoAssign(fuel, cx, name, e, st); Kept(st, !r.0.Fatal?, r.1)
    decreases fuel, 0
  {
    if fuel > 0 {
      EvalExprKept(fuel - 1, cx, e, st);
      var (v, st1) := EvalExpr(fuel - 1, cx, e, st);
      if v.Ok? && '.' !in name && SetVar(st1.frames, name, v.value).Some? {
        SetVarSpec(st1.frames, name, v.value);
      }
    }
  }

  lemma DoVarDefKept(structs: StructTable, name: string, t: string, st: St)
    ensures var r := DoVarDef(structs, name, t, st); KeptBelowTop(st, !r.0.Fatal?, r.1)
  {
    if DefaultValue(structs, t).Ok? && CreateVar(st.frames, name, DefaultValue(structs, t).value).Some? {
      CreateSpec(st.frames, name, DefaultValue(structs, t).value);
    }
  }

  lemma {:induction false} DoReturnKept(fuel: nat, cx: Ctx, e: Option<Expr>, st: St)
    ensures var r := DoReturn(fuel, cx, e, st); Kept(st, !r.0.Fatal?, r.1)
    decreases fuel, 0
  {
    if fuel > 0 && e.Some? {
      EvalExprKept(fuel - 1, cx, e.value, st);
      var (v, st1) := EvalExpr(fuel - 1, cx, e.value, st);
      EvalExprKept(fuel - 1, cx, e.value, st1);
    }
  }

  lemma {:induction false} DoIfKept(fuel: nat, cx: Ctx, c: Expr, thn: seq<Stmt>, els: Option<seq<Stmt>>, st: St)
    ensures var r := DoIf(fuel, cx, c, thn, els, st); Kept(st, !r.0.Fatal?, r.1)
    decreases fuel, 0
  {
    if fuel > 0 {
      EvalExprKept(fuel - 1, cx, c, st);
      var (v, st1) := EvalExpr(fuel - 1, cx, c, st);
      RunStatementsKept(fuel - 1, cx, thn, st1);
      if els.Some? {
        RunStatementsKept(fuel - 1, cx, els.value, st1);
      }
    }
  }

  lemma {:induction false} DoForKept(fuel: nat, cx: Ctx, init: Stmt, c: Expr, upd: Stmt, body: seq<Stmt>, st: St)
    ensures var r := DoFor(fuel, cx, init, c, upd, body, st); KeptBelowTop(st, !r.0.Fatal?, r.1)
    decreases fuel, 0
  {
    if fuel > 0 {
      RunStatementKept(fuel - 1, cx, init, st);
      var (io, st1) := RunStatement(fuel - 1, cx, init, st);
      ForLoopKept(fuel - 1, cx, c, upd, body, st1);
      var r := ForLoop(fuel - 1, cx, c, upd, body, st1);
      if !io.Fatal? && !r.0.Fatal? {
        TopGrownTrans(st.frames, st1.frames, r.1.frames);
      }
    }
  }

  lemma {:induction false} ForLoopKept(fuel: nat, cx: Ctx, c: Expr, upd: Stmt, body: seq<Stmt>, st: St)
    ensures var r := ForLoop(fuel, cx, c, upd, body, st); KeptBelowTop(st, !r.0.Fatal?, r.1)
    decreases fuel, 0
  {
    if fuel > 0 {
      EvalExprKept(fuel - 1, cx, c, st);
      var (v, st1) := EvalExpr(fuel - 1, cx, c, st);
      if v.Ok? && Condition(v.value) == Ok(true) {
        ForBodyKept(fuel - 1, cx, c, upd, body, st1);
        var r := ForBody(fuel - 1, cx, c, upd, body, st1);
        assert ForLoop(fuel, cx, c, upd, body, st) == r;
        if !r.0.Fatal? {
          ShapeThenGrown(st.frames, st1.frames, r.1.frames);
        }
      } else {
        assert ForLoop(fuel, cx, c, upd, body, st).1 == st1;
      }
    }
  }

  lemma {:induction false} ForBodyKept(fuel: nat, cx: Ctx, c: Expr, upd: Stmt, body: seq<Stmt>, st: St)
    ensures var r := ForBody(fuel, cx, c, upd, body, st); KeptBelowTop(st, !r.0.Fatal?, r.1)
    decreases fuel, |body| + 2
  {
    RunStatementsKept(fuel, cx, body, st);
    var (bo, st1) := RunStatements(fuel, cx, body, st);
    if bo.Out? && bo.status != Returned {
      ForUpdateKept(fuel, cx, c, upd, body, st1);
      var r := ForUpdate(fuel, cx, c, upd, body, st1);
      if !r.0.Fatal? {
        ShapeThenGrown(st.frames, st1.frames, r.1.frames);
      }
    }
  }

  lemma {:induction false} ForUpdateKept(fuel: nat, cx: Ctx, c: Expr, upd: Stmt, body: seq<Stmt>, st: St)
    ensures var r := ForUpdate(fuel, cx, c, upd, body, st); KeptBelowTop(st, !r.0.Fatal?, r.1)
    decreases fuel, 1
  {
    RunStatementKept(fuel, cx, upd, st);
    var (uo, st1) := RunStatement(fuel, cx, upd, st);
    if uo.Out? {
      ForLoopKept(fuel, cx, c, upd, body, st1);
      var r := ForLoop(fuel, cx, c, upd, body, st1);
      if !r.0.Fatal? {
        TopGrownTrans(st.frames, st1.frames, r.1.frames);
      }
    }
  }

  datatype RunResult = RunResult(err: Option<ErrorKind>, out: seq<seq<Value>>)

  /** run (interpreterv3.py:33-38): the structs, the function table, then main. */
  function Run(fuel: nat, p: Program): RunResult {
    match ParseStructs(p.structs)
    case None => RunResult(Some(HostCrash), [])
    case Some(sd) =>
      var (v, st) := CallFunc(fuel, Ctx(TableOf(p.funcs), sd), "main", [], St([], [], []));
      RunResult(if v.Err? then Some(v.err) else None, st.out)
  }
}
