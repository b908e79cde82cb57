/** The meaning of a program under interpreterv2.py, as functions. The
    interpreter keeps an explicit list of scopes; a function call appends a
    function-marked scope, an `if` or `for` body a plain one. There are no
    block scopes for statement lists themselves, no structs and no
    exceptions. The InterpreterV2 class implements each function as a method. */
module SemV2 {
  import opened Values
  import opened Ast
  import opened Ops
  import opened Env
  import opened Functions

  /** Normal completion, `return` with its value, or a fatal error. */
  datatype Outcome = Next | Ret(val: Value) | Fatal(err: ErrorKind)

  datatype St = St(frames: seq<Frame>, out: seq<seq<Value>>)

  /** Output only grows; when `ok`, the scopes keep their shape. */
  predicate Kept(st: St, ok: bool, st': St) {
    st.out <= st'.out && (ok ==> SameShape(st.frames, st'.frames))
  }

  /** As Kept, except that the innermost scope may have gained names. */
  predicate KeptBelowTop(st: St, ok: bool, st': St) {
    st.out <= st'.out && (ok ==> TopGrown(st.frames, st'.frames))
  }

  /** The scan of __find_which_previous_scope from scope `j - 1` downward:
      plain scopes are searched in turn, and the first function scope is the
      last one looked at. When the scan runs off the bottom without a
      function scope the name is not found. */
  function ScanScopes(frames: seq<Frame>, name: string, j: nat): (r: Result<nat>)
    requires 1 <= j <= |frames|
    ensures r.Ok? ==> r.value < j && name in frames[r.value].vars
    ensures r.Ok? ==> forall q :: r.value < q < j ==> name !in frames[q].vars && !frames[q].isFunction
    ensures r.Err? ==> r.err == NameError
    decreases j
  {
    if name in frames[j - 1].vars then Ok(j - 1)
    else if frames[j - 1].isFunction || j == 1 then Err(NameError)
    else ScanScopes(frames, name, j - 1)
  }

  /** __find_which_previous_scope (interpreterv2.py:187-199): the scope
      `back` places from the top (1 or 2) if it holds the name, else the scan
      from the innermost scope. The index is counted from the bottom. */
  function FindScope(frames: seq<Frame>, name: string, back: nat): (r: Result<nat>)
    requires back == 1 || back == 2
    ensures r.Ok? ==> r.value < |frames| && name in frames[r.value].vars
    ensures r.Err? ==> r.err == NameError || (r.err == HostCrash && |frames| < back)
  {
    if |frames| < back then Err(HostCrash)
    else if name in frames[|frames| - back].vars then Ok(|frames| - back)
    else ScanScopes(frames, name, |frames|)
  }

  /** `set` on the scope that was found. */
  function SetAt(frames: seq<Frame>, k: nat, name: string, v: Value): (r: seq<Frame>)
    requires k < |frames| && name in frames[k].vars
    ensures |r| == |frames| && r[k].vars == frames[k].vars[name := v]
    ensures forall q :: 0 <= q < |frames| && q != k ==> r[q] == frames[q]
  {
    frames[k := frames[k].(vars := frames[k].vars[name := v])]
  }

  /** __eval_op (interpreterv2.py:229-243) for `+ - * /`: the operand types
      must agree, then the operator must be in the left type's table. */
  function ArithV2(op: BinOp, l: Value, r: Value): (o: Result<Value>)
    requires op in {Add, Sub, Mul, Div}
    ensures TypeOf(l) != TypeOf(r) ==> o == Err(TypeError)
    ensures TypeOf(l) == TypeOf(r) && !l.StructV? && !InTable(op, l) ==> o == Err(TypeError)
    ensures o.Ok? ==> TypeOf(l) == TypeOf(r) && InTable(op, l)
    ensures op == Div && l.IntV? && r == IntV(0) ==> o == Err(HostCrash)
    ensures o.Ok? && op == Div ==> o.value == IntV(FloorDiv(l.i, r.i))
  {
    if TypeOf(l) != TypeOf(r) then Err(TypeError)
    else if BinTable(TypeOf(l)).None? then Err(HostCrash)
    else if op !in BinTable(TypeOf(l)).value then Err(TypeError)
    else if op == Div && r == IntV(0) then Err(HostCrash)
    else Ok(Apply(op, l, r))
  }

  /** __eval_comp (interpreterv2.py:255-283): the operator must be in the
      left type's table; then operands of different types compare unequal
      under `==` and `!=` and are a TYPE error under any other operator. */
  function CompV2(op: BinOp, l: Value, r: Value): (o: Result<Value>)
    ensures !l.StructV? && !InTable(op, l) ==> o == Err(TypeError)
    ensures InTable(op, l) && TypeOf(l) != TypeOf(r) && op == Eq ==> o == Ok(BoolV(false))
    ensures InTable(op, l) && TypeOf(l) != TypeOf(r) && op == Ne ==> o == Ok(BoolV(true))
    ensures InTable(op, l) && TypeOf(l) != TypeOf(r) && op != Eq && op != Ne ==> o == Err(TypeError)
    ensures TypeOf(l) == TypeOf(r) && (op == Eq || op == Ne) && !l.StructV? ==> o == Ok(BoolV((l == r) == (op == Eq)))
  {
    if BinTable(TypeOf(l)).None? then Err(HostCrash)
    else if op !in BinTable(TypeOf(l)).value then Err(TypeError)
    else if TypeOf(l) != TypeOf(r) then
      if op == Eq then Ok(BoolV(false))
      else if op == Ne then Ok(BoolV(true))
      else Err(TypeError)
    else if op == Div && r == IntV(0) then Err(HostCrash)
    else Ok(Apply(op, l, r))
  }

  /** __eval_unary (interpreterv2.py:245-253): the operator must be in the
      operand type's table. */
  function UnaryV2(u: UnOp, v: Value): (o: Result<Value>)
    ensures u == Neg ==> (o.Ok? <==> v.IntV?)
    ensures u == Not ==> (o.Ok? <==> v.BoolV?)
    ensures o.Ok? && u == Neg ==> o.value == IntV(-v.i)
    ensures o.Ok? && u == Not ==> o.value == BoolV(!v.b)
    ensures o.Err? && !v.StructV? ==> o.err == TypeError
  {
    match UnaryTable(TypeOf(v))
    case None => Err(HostCrash)
    case Some(ops) => if u !in ops then Err(TypeError) else Ok(ApplyUnary(u, v))
  }

  predicate IsArith(op: BinOp) {
    op in {Add, Sub, Mul, Div}
  }

  /** __eval_expr (interpreterv2.py:207-225). The scope a name is looked up
      from (`back`) reaches variables and arithmetic operands only; calls,
      comparisons and unary operands start from the innermost scope. */
  function EvalExpr(fuel: nat, ft: FuncTable, e: Expr, back: nat, st: St): (r: (Result<Value>, St))
    requires back == 1 || back == 2
    decreases fuel, 0
  {
    if fuel == 0 then (Err(OutOfFuel), st)
    else match e
      case NilLit => (Ok(NilV), st)
      case IntLit(i) => (Ok(IntV(i)), st)
      case StrLit(s) => (Ok(StrV(s)), st)
      case BoolLit(b) => (Ok(BoolV(b)), st)
      case Var(name) =>
        (match FindScope(st.frames, name, back)
         case Err(k) => (Err(k), st)
         case Ok(k) => (Ok(st.frames[k].vars[name]), st))
      case Call(name, args) => CallFunc(fuel - 1, ft, name, args, st)
      case Bin(op, l, r) =>
        if IsArith(op) then EvalArith(fuel - 1, ft, op, l, r, back, st)
        else EvalComp(fuel - 1, ft, op, l, r, st)
      case Unary(u, x) =>
        var (v, st1) := EvalExpr(fuel - 1, ft, x, 1, st);
        if v.Err? then (v, st1) else (UnaryV2(u, v.value), st1)
      case New(_) => (Err(Unmodelled), st)
  }

  function EvalArith(fuel: nat, ft: FuncTable, op: BinOp, l: Expr, r: Expr, back: nat, st: St): (res: (Result<Value>, St))
    requires IsArith(op) && (back == 1 || back == 2)
    decreases fuel, 0
  {
    if fuel == 0 then (Err(OutOfFuel), st)
    else
      var (lv, st1) := EvalExpr(fuel - 1, ft, l, back, st);
      if lv.Err? then (lv, st1)
      else
        var (rv, st2) := EvalExpr(fuel - 1, ft, r, back, st1);
        if rv.Err? then (rv, st2) else (ArithV2(op, lv.value, rv.value), st2)
  }

  /** Also the condition of a `for`, whatever its operator. */
  function EvalComp(fuel: nat, ft: FuncTable, op: BinOp, l: Expr, r: Expr, st: St): (res: (Result<Value>, St))
    decreases fuel, 0
  {
    if fuel == 0 then (Err(OutOfFuel), st)
    else
      var (lv, st1) := EvalExpr(fuel - 1, ft, l, 1, st);
      if lv.Err? then (lv, st1)
      else
        var (rv, st2) := EvalExpr(fuel - 1, ft, r, 1, st1);
        if rv.Err? then (rv, st2) else (CompV2(op, lv.value, rv.value), st2)
  }

  /** Binding the formals: each actual is evaluated two scopes down from the
      top (the callee's scope is already pushed) and created in the callee's
      scope; a repeated formal name is a NAME error. */
  function BindFormals(fuel: nat, ft: FuncTable, params: seq<Param>, args: seq<Expr>, i: nat, st: St): (r: (Result<Value>, St))
    requires |params| == |args| && i <= |args|
    decreases fuel, |args| - i
  {
    if i == |args| then (Ok(NilV), st)
    else
      var (v, st1) := EvalExpr(fuel, ft, args[i], 2, st);
      if v.Err? then (v, st1)
      else match CreateVar(st1.frames, params[i].name, v.value)
        case None => (Err(NameError), st1)
        case Some(fr) => BindFormals(fuel, ft, params, args, i + 1, st1.(frames := fr))
  }

  /** __call_func (interpreterv2.py:126-151). */
  function CallFunc(fuel: nat, ft: FuncTable, name: string, args: seq<Expr>, st: St): (r: (Result<Value>, St))
    decreases fuel, 0
  {
    if fuel == 0 then (Err(OutOfFuel), st)
    else if name == "print" then CallPrint(fuel - 1, ft, args, 0, [], st)
    else if name == "inputi" || name == "inputs" then CallInput(fuel - 1, ft, args, st)
    else match Resolve(ft, name, |args|)
      case None => (Err(NameError), st)
      case Some(fd) =>
        if |args| != |fd.params| then (Err(NameError), st)
        else
          var st1 := st.(frames := Push(st.frames, true));
          var (bv, st2) := BindFormals(fuel - 1, ft, fd.params, args, 0, st1);
          if bv.Err? then (bv, st2)
          else
            var (bo, st3) := RunStatements(fuel - 1, ft, fd.body, st2);
            match bo
            case Fatal(k) => (Err(k), st3)
            case Ret(v) => (Ok(v), st3.(frames := Pop(st3.frames)))
            case Next => (Ok(NilV), st3.(frames := Pop(st3.frames)))
  }

  /** __call_print (interpreterv2.py:153-159). */
  function CallPrint(fuel: nat, ft: FuncTable, args: seq<Expr>, i: nat, acc: seq<Value>, st: St): (r: (Result<Value>, St))
    requires i <= |args|
    decreases fuel, |args| - i
  {
    if i == |args| then (Ok(NilV), st.(out := st.out + [acc]))
    else
      var (v, st1) := EvalExpr(fuel, ft, args[i], 1, st);
      if v.Err? then (v, st1)
      else CallPrint(fuel, ft, args, i + 1, acc + [v.value], st1)
  }

  /** __call_input (interpreterv2.py:161-175) up to the read. */
  function CallInput(fuel: nat, ft: FuncTable, args: seq<Expr>, st: St): (r: (Result<Value>, St))
    ensures r.0.Err?
    decreases fuel, 0
  {
    if fuel == 0 then (Err(OutOfFuel), st)
    else if |args| == 1 then
      var (v, st1) := EvalExpr(fuel - 1, ft, args[0], 1, st);
      if v.Err? then (v, st1)
      else (Err(Unmodelled), st1.(out := st1.out + [[v.value]]))
    else if |args| > 1 then (Err(NameError), st)
    else (Err(Unmodelled), st)
  }

  /** __run_statements (interpreterv2.py:46-69): the statements in order up
      to the first `return`, in the current scope. */
  function RunStatements(fuel: nat, ft: FuncTable, stmts: seq<Stmt>, st: St): (r: (Outcome, St))
    decreases fuel, |stmts| + 1
  {
    RunSeq(fuel, ft, stmts, 0, st)
  }

  function RunSeq(fuel: nat, ft: FuncTable, stmts: seq<Stmt>, i: nat, st: St): (r: (Outcome, St))
    requires i <= |stmts|
    decreases fuel, |stmts| - i
  {
    if i == |stmts| then (Next, st)
    else
      var (o, st1) := RunStatement(fuel, ft, stmts[i], st);
      if !o.Next? then (o, st1)
      else
        RunSeq(fuel, ft, stmts, i + 1, st1)
  }

  /** One statement of the list; kinds v2 does not know are skipped. */
  function RunStatement(fuel: nat, ft: FuncTable, s: Stmt, st: St): (r: (Outcome, St))
    decreases fuel, 0
  {
    if fuel == 0 then (Fatal(OutOfFuel), st)
    else match s
      case CallStmt(name, args) =>
        var (v, st1) := CallFunc(fuel - 1, ft, name, args, st);
        if v.Err? then (Fatal(v.err), st1) else (Next, st1)
      case Assign(name, e) => DoAssign(fuel - 1, ft, name, e, st)
      case VarDef(name, _) => DoVarDef(name, st)
      case Return(e) =>
        if e.None? then (Ret(NilV), st)
        else
          var (v, st1) := EvalExpr(fuel - 1, ft, e.value, 1, st);
          if v.Err? then (Fatal(v.err), st1) else (Ret(v.value), st1)
      case If(c, thn, els) => RunIf(fuel - 1, ft, c, thn, els, st)
      case For(init, c, upd, body) => RunFor(fuel - 1, ft, init, c, upd, body, st)
      case Raise(_) => (Next, st)
      case Try(_, _) => (Next, st)
  }

  /** __assign (interpreterv2.py:177-183): the value first, then the scope
      the name resolves to. */
  function DoAssign(fuel: nat, ft: FuncTable, name: string, e: Expr, st: St): (r: (Outcome, St))
    ensures r.0.Next? || r.0.Fatal?
    decreases fuel, 0
  {
    if fuel == 0 then (Fatal(OutOfFuel), st)
    else
      var (v, st1) := EvalExpr(fuel - 1, ft, e, 1, st);
      if v.Err? then (Fatal(v.err), st1)
      else match FindScope(st1.frames, name, 1)
        case Err(k) => (Fatal(k), st1)
        case Ok(k) => (Next, st1.(frames := SetAt(st1.frames, k, name, v.value)))
  }

  /** __var_def (interpreterv2.py:201-205): a new name starts as Int 0. */
  function DoVarDef(name: string, st: St): (r: (Outcome, St))
    ensures r.0.Fatal? <==> CreateVar(st.frames, name, IntV(0)).None?
    ensures st.frames != [] && name in st.frames[|st.frames| - 1].vars ==> r.0 == Fatal(NameError)
    ensures st.frames == [] ==> r.0 == Fatal(HostCrash)
  {
    match CreateVar(st.frames, name, IntV(0))
    case None => (Fatal(if st.frames == [] then HostCrash else NameError), st)
    case Some(fr) => (Next, st.(frames := fr))
  }

  /** A body run in a freshly appended plain scope, popped on either exit. */
  function Block(fuel: nat, ft: FuncTable, stmts: seq<Stmt>, st: St): (r: (Outcome, St))
    decreases fuel, |stmts| + 2
  {
    var (o, st1) := RunStatements(fuel, ft, stmts, st.(frames := Push(st.frames, false)));
    if o.Fatal? then (o, st1) else (o, st1.(frames := Pop(st1.frames)))
  }

  /** __run_if (interpreterv2.py:83-124), with the condition evaluated once.
      Int and String conditions are TYPE errors; a nil condition reaches the
      comparison fallback, which needs operand nodes and crashes the host. */
  function RunIf(fuel: nat, ft: FuncTable, c: Expr, thn: seq<Stmt>, els: Option<seq<Stmt>>, st: St): (r: (Outcome, St))
    decreases fuel, 0
  {
    if fuel == 0 then (Fatal(OutOfFuel), st)
    else
      var (v, st1) := EvalExpr(fuel - 1, ft, c, 1, st);
      if v.Err? then (Fatal(v.err), st1)
      else if v.value.IntV? || v.value.StrV? then (Fatal(TypeError), st1)
      else if v.value == BoolV(true) then Block(fuel - 1, ft, thn, st1)
      else if v.value == BoolV(false) then
        if els.None? then (Next, st1) else Block(fuel - 1, ft, els.value, st1)
      else (Fatal(HostCrash), st1)
  }

  /** The init and update of a `for` are run as assignments; any other
      statement there has no expression to evaluate and crashes the host. */
  function ForAssign(fuel: nat, ft: FuncTable, s: Stmt, st: St): (r: (Outcome, St))
    ensures r.0.Next? || r.0.Fatal?
    decreases fuel, 1
  {
    if s.Assign? then DoAssign(fuel, ft, s.name, s.e, st) else (Fatal(HostCrash), st)
  }

  /** __run_for (interpreterv2.py:71-81). */
  function RunFor(fuel: nat, ft: FuncTable, init: Stmt, c: Expr, upd: Stmt, body: seq<Stmt>, st: St): (r: (Outcome, St))
    decreases fuel, 0
  {
    if fuel == 0 then (Fatal(OutOfFuel), st)
    else
      var (io, st1) := ForAssign(fuel - 1, ft, init, st);
      if io.Fatal? then (io, st1)
      else ForLoop(fuel - 1, ft, c, upd, body, st1)
  }

  /** The loop goes on only while the condition, evaluated as a comparison,
      is exactly the Bool true; each iteration runs the body in a new scope.
      A condition that is not a binary node has no second operand: a unary
      node's operand is still evaluated first, and any other node has no
      first operand either, so the host crashes at once. */
  function ForLoop(fuel: nat, ft: FuncTable, c: Expr, upd: Stmt, body: seq<Stmt>, st: St): (r: (Outcome, St))
    decreases fuel, 0
  {
    if fuel == 0 then (Fatal(OutOfFuel), st)
    else if c.Unary? then
      var (v, st1) := EvalExpr(fuel - 1, ft, c.e, 1, st);
      (Fatal(if v.Err? then v.err else HostCrash), st1)
    else if !c.Bin? then (Fatal(HostCrash), st)
    else
      var (v, st1) := EvalComp(fuel - 1, ft, c.op, c.l, c.r, st);
      if v.Err? then (Fatal(v.err), st1)
      else if v.value != BoolV(true) then (Next, st1)
      else
        var (bo, st2) := Block(fuel - 1, ft, body, st1);
        if !bo.Next? then (bo, st2)
        else
          var (uo, st3) := ForAssign(fuel - 1, ft, upd, st2);
          if uo.Fatal? then (uo, st3)
          else ForLoop(fuel - 1, ft, c, upd, body, st3)
  }

  // What evaluation leaves of the scopes: each function above keeps Kept
  // (KeptBelowTop where a definition may land in the innermost scope),
  // proved by induction along the evaluation.

  lemma {:induction false} EvalExprKept(fuel: nat, ft: FuncTable, e: Expr, back: nat, st: St)
    requires back == 1 || back == 2
    ensures var r := EvalExpr(fuel, ft, e, back, st); Kept(st, r.0.Ok?, r.1)
    decreases fuel, 0
  {
    if fuel > 0 {
      match e
      case Call(name, args) => CallFuncKept(fuel - 1, ft, name, args, st);
      case Bin(op, l, r) =>
        if IsArith(op) {
          EvalArithKept(fuel - 1, ft, op, l, r, back, st);
        } else {
          EvalCompKept(fuel - 1, ft, op, l, r, st);
        }
      case Unary(u, x) => EvalExprKept(fuel - 1, ft, x, 1, st);
      case _ =>
    }
  }

  lemma {:induction false} EvalArithKept(fuel: nat, ft: FuncTable, op: BinOp, l: Expr, r: Expr, back: nat, st: St)
    requires IsArith(op) && (back == 1 || back == 2)
    ensures var res := EvalArith(fuel, ft, op, l, r, back, st); Kept(st, res.0.Ok?, res.1)
    decreases fuel, 0
  {
    if fuel > 0 {
      EvalExprKept(fuel - 1, ft, l, back, st);
      var (lv, st1) := EvalExpr(fuel - 1, ft, l, back, st);
      EvalExprKept(fuel - 1, ft, r, back, st1);
    }
  }

  lemma {:induction false} EvalCompKept(fuel: nat, ft: FuncTable, op: BinOp, l: Expr, r: Expr, st: St)
    ensures var res := EvalComp(fuel, ft, op, l, r, st); Kept(st, res.0.Ok?, res.1)
    decreases fuel, 0
  {
    if fuel > 0 {
      EvalExprKept(fuel - 1, ft, l, 1, st);
      var (lv, st1) := EvalExpr(fuel - 1, ft, l, 1, st);
      EvalExprKept(fuel - 1, ft, r, 1, st1);
    }
  }

  /** The formals land in the innermost (the callee's) scope only. */
  lemma {:induction false} BindFormalsKept(fuel: nat, ft: FuncTable, params: seq<Param>, args: seq<Expr>, i: nat, st: St)
    requires |params| == |args| && i <= |args|
    ensures var r := BindFormals(fuel, ft, params, args, i, st); KeptBelowTop(st, r.0.Ok?, r.1)
    decreases fuel, |args| - i
  {
    if i < |args| {
      EvalExprKept(fuel, ft, args[i], 2, st);
      var (v, st1) := EvalExpr(fuel, ft, args[i], 2, st);
      if v.Ok? && CreateVar(st1.frames, params[i].name, v.value).Some? {
        var fr := CreateVar(st1.frames, params[i].name, v.value).value;
        CreateSpec(st1.frames, params[i].name, v.value);
        TopGrownTrans(st.frames, st1.frames, fr);
        BindFormalsKept(fuel, ft, params, args, i + 1, st1.(frames := fr));
        var r := BindFormals(fuel, ft, params, args, i + 1, st1.(frames := fr));
        if r.0.Ok? {
          TopGrownTrans(st.frames, fr, r.1.frames);
        }
      }
    }
  }

  /** A call pops the scope it appended: the caller's scopes keep their shape. */
  lemma {:induction false} CallFuncKept(fuel: nat, ft: FuncTable, name: string, args: seq<Expr>, st: St)
    ensures var r := CallFunc(fuel, ft, name, args, st); Kept(st, r.0.Ok?, r.1)
    decreases fuel, 0
  {
    if fuel == 0 {
    } else if name == "print" {
      CallPrintKept(fuel - 1, ft, args, 0, [], st);
    } else if name == "inputi" || name == "inputs" {
      CallInputKept(fuel - 1, ft, args, st);
    } else if Resolve(ft, name, |args|).Some? {
      var fd := Resolve(ft, name, |args|).value;
      if |args| == |fd.params| {
        var st1 := st.(frames := Push(st.frames, true));
        BindFormalsKept(fuel - 1, ft, fd.params, args, 0, st1);
        var (bv, st2) := BindFormals(fuel - 1, ft, fd.params, args, 0, st1);
        if bv.Ok? {
          RunStatementsKept(fuel - 1, ft, fd.body, st2);
          var (bo, st3) := RunStatements(fuel - 1, ft, fd.body, st2);
          if !bo.Fatal? {
            TopGrownTrans(st1.frames, st2.frames, st3.frames);
            PopAfterPush(st.frames, true, st3.frames);
          }
        }
      }
    }
  }

  lemma {:induction false} CallPrintKept(fuel: nat, ft: FuncTable, args: seq<Expr>, i: nat, acc: seq<Value>, st: St)
    requires i <= |args|
    ensures var r := CallPrint(fuel, ft, args, i, acc, st); Kept(st, r.0.Ok?, r.1)
    decreases fuel, |args| - i
  {
    if i < |args| {
      EvalExprKept(fuel, ft, args[i], 1, st);
      var (v, st1) := EvalExpr(fuel, ft, args[i], 1, st);
      if v.Ok? {
        CallPrintKept(fuel, ft, args, i + 1, acc + [v.value], st1);
      }
    }
  }

  lemma {:induction false} CallInputKept(fuel: nat, ft: FuncTable, args: seq<Expr>, st: St)
    ensures var r := CallInput(fuel, ft, args, st); Kept(st, r.0.Ok?, r.1)
    decreases fuel, 0
  {
    if fuel > 0 && |args| == 1 {
      EvalExprKept(fuel - 1, ft, args[0], 1, st);
    }
  }

  lemma {:induction false} RunStatementsKept(fuel: nat, ft: FuncTable, stmts: seq<Stmt>, st: St)
    ensures var r := RunStatements(fuel, ft, stmts, st); KeptBelowTop(st, !r.0.Fatal?, r.1)
    decreases fuel, |stmts| + 1
  {
    RunSeqKept(fuel, ft, stmts, 0, st);
  }

  lemma {:induction false} RunSeqKept(fuel: nat, ft: FuncTable, stmts: seq<Stmt>, i: nat, st: St)
    requires i <= |stmts|
    ensures var r := RunSeq(fuel, ft, stmts, i, st); KeptBelowTop(st, !r.0.Fatal?, r.1)
    decreases fuel, |stmts| - i
  {
    if i < |stmts| {
      RunStatementKept(fuel, ft, stmts[i], st);
      var (o, st1) := RunStatement(fuel, ft, stmts[i], st);
      if o.Next? {
        RunSeqKept(fuel, ft, stmts, i + 1, st1);
        var r := RunSeq(fuel, ft, stmts, i + 1, st1);
        if !r.0.Fatal? {
          TopGrownTrans(st.frames, st1.frames, r.1.frames);
        }
      }
    }
  }

  lemma {:induction false} RunStatementKept(fuel: nat, ft: FuncTable, s: Stmt, st: St)
    ensures var r := RunStatement(fuel, ft, s, st); KeptBelowTop(st, !r.0.Fatal?, r.1)
    decreases fuel, 0
  {
    if fuel > 0 {
      match s
      case CallStmt(name, args) => CallFuncKept(fuel - 1, ft, name, args, st);
      case Assign(name, e) => DoAssignKept(fuel - 1, ft, name, e, st);
      case VarDef(name, _) => DoVarDefKept(name, st);
      case Return(e) =>
        if e.Some? {
          EvalExprKept(fuel - 1, ft, e.value, 1, st);
        }
      case If(c, thn, els) => RunIfKept(fuel - 1, ft, c, thn, els, st);
      case For(init, c, upd, body) => RunForKept(fuel - 1, ft, init, c, upd, body, st);
      case _ =>
    }
  }

  lemma {:induction false} DoAssignKept(fuel: nat, ft: FuncTable, name: string, e: Expr, st: St)
    ensures var r := DoAssign(fuel, ft, name, e, st); Kept(st, !r.0.Fatal?, r.1)
    decreases fuel, 0
  {
    if fuel > 0 {
      EvalExprKept(fuel - 1, ft, e, 1, st);
      var (v, st1) := EvalExpr(fuel - 1, ft, e, 1, st);
      if v.Ok? && FindScope(st1.frames, name, 1).Ok? {
        var k := FindScope(st1.frames, name, 1).value;
        SameShapeUpdate(st1.frames, k, st1.frames[k].vars[name := v.value]);
      }
    }
  }

  lemma DoVarDefKept(name: string, st: St)
    ensures var r := DoVarDef(name, st); KeptBelowTop(st, !r.0.Fatal?, r.1)
  {
    if CreateVar(st.frames, name, IntV(0)).Some? {
      CreateSpec(st.frames, name, IntV(0));
    }
  }

  /** A body's scope is popped on either exit. */
  lemma {:induction false} BlockKept(fuel: nat, ft: FuncTable, stmts: seq<Stmt>, st: St)
    ensures var r := Block(fuel, ft, stmts, st); Kept(st, !r.0.Fatal?, r.1)
    decreases fuel, |stmts| + 2
  {
    var st0 := st.(frames := Push(st.frames, false));
    RunStatementsKept(fuel, ft, stmts, st0);
    var (o, st1) := RunStatements(fuel, ft, stmts, st0);
    if !o.Fatal? {
      PopAfterPush(st.frames, false, st1.frames);
    }
  }

  lemma {:induction false} RunIfKept(fuel: nat, ft: FuncTable, c: Expr, thn: seq<Stmt>, els: Option<seq<Stmt>>, st: St)
    ensures var r := RunIf(fuel, ft, c, thn, els, st); Kept(st, !r.0.Fatal?, r.1)
    decreases fuel, 0
  {
    if fuel > 0 {
      EvalExprKept(fuel - 1, ft, c, 1, st);
      var (v, st1) := EvalExpr(fuel - 1, ft, c, 1, st);
      BlockKept(fuel - 1, ft, thn, st1);
      if els.Some? {
        BlockKept(fuel - 1, ft, els.value, st1);
      }
    }
  }

  lemma {:induction false} ForAssignKept(fuel: nat, ft: FuncTable, s: Stmt, st: St)
    ensures var r := ForAssign(fuel, ft, s, st); Kept(st, !r.0.Fatal?, r.1)
    decreases fuel, 1
  {
    if s.Assign? {
      DoAssignKept(fuel, ft, s.name, s.e, st);
    }
  }

  lemma {:induction false} RunForKept(fuel: nat, ft: FuncTable, init: Stmt, c: Expr, upd: Stmt, body: seq<Stmt>, st: St)
    ensures var r := RunFor(fuel, ft, init, c, upd, body, st); Kept(st, !r.0.Fatal?, r.1)
    decreases fuel, 0
  {
    if fuel > 0 {
      ForAssignKept(fuel - 1, ft, init, st);
      var (io, st1) := ForAssign(fuel - 1, ft, init, st);
      ForLoopKept(fuel - 1, ft, c, upd, body, st1);
    }
  }

  lemma {:induction false} ForLoopKept(fuel: nat, ft: FuncTable, c: Expr, upd: Stmt, body: seq<Stmt>, st: St)
    ensures var r := ForLoop(fuel, ft, c, upd, body, st); Kept(st, !r.0.Fatal?, r.1)
    decreases fuel, 0
  {
    if fuel > 0 && c.Unary? {
      EvalExprKept(fuel - 1, ft, c.e, 1, st);
    } else if fuel > 0 && c.Bin? {
      EvalCompKept(fuel - 1, ft, c.op, c.l, c.r, st);
      var (v, st1) := EvalComp(fuel - 1, ft, c.op, c.l, c.r, st);
      BlockKept(fuel - 1, ft, body, st1);
      var (bo, st2) := Block(fuel - 1, ft, body, st1);
      ForAssignKept(fuel - 1, ft, upd, st2);
      var (uo, st3) := ForAssign(fuel - 1, ft, upd, st2);
      ForLoopKept(fuel - 1, ft, c, upd, body, st3);
    }
  }

  datatype RunResult = RunResult(err: Option<ErrorKind>, out: seq<seq<Value>>)

  /** run (interpreterv2.py:27-34): main with no parameters, in one function
      scope. */
  function Run(fuel: nat, p: Program): RunResult {
    var ft := TableOf(p.funcs);
    match Resolve(ft, "main", 0)
    case None => RunResult(Some(NameError), [])
    case Some(fd) =>
      var (o, st) := RunStatements(fuel, ft, fd.body, St([Frame(map[], true)], []));
      RunResult(if o.Fatal? then Some(o.err) else None, st.out)
  }
}
