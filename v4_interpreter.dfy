/** The v4 interpreter object (interpreterv4.py): it holds the function table,
    the environment and the console, and executes statements by changing
    them. Every method is proved to compute the SemV4 function of the same
    name from the state it starts in. */
module InterpreterV4 {
  import opened Values
  import opened Ast
  import opened Env
  import Ops
  import opened Functions
  import SemV4

  class Interpreter {
    var ft: FuncTable
    var env: Environment
    var out: seq<seq<Value>>

    function State(): SemV4.St
      reads this, env
    {
      SemV4.St(env.frames, out)
    }

    constructor ()
      ensures ft == map[] && env.frames == [] && out == []
    {
      ft := map[];
      env := new Environment();
      out := [];
    }

    /** run (interpreterv4.py:34-43): build the function table, start from an
        empty environment, call main and turn an escaped exception into a
        FAULT error. */
    method Run(fuel: nat, p: Program) returns (err: Option<ErrorKind>)
      modifies this
      ensures SemV4.RunResult(err, out) == SemV4.Run(fuel, p)
    {
      ft := BuildFuncTable(p.funcs);
      env := new Environment();
      out := [];
      var o := CallFunc(fuel, "main", []);
      match o
      case Fatal(k) => err := Some(k);
      case Out(s, _) => err := if s == SemV4.Raised then Some(FaultError) else None;
    }

    method EvalExpr(fuel: nat, e: Expr) returns (o: SemV4.Outcome)
      modifies this`out, env
      ensures (o, State()) == SemV4.EvalExpr(fuel, ft, e, old(State()))
      decreases fuel, 0
    {
      if fuel == 0 {
        return SemV4.Fatal(OutOfFuel);
      }
      match e
      case NilLit => o := SemV4.Out(SemV4.Continue, NilV);
      case IntLit(i) => o := SemV4.Out(SemV4.Continue, IntV(i));
      case StrLit(s) => o := SemV4.Out(SemV4.Continue, StrV(s));
      case BoolLit(b) => o := SemV4.Out(SemV4.Continue, BoolV(b));
      case Var(name) =>
        var v := env.Get(name);
        o := if v.None? then SemV4.Fatal(NameError) else SemV4.Out(SemV4.Continue, v.value);
      case Call(name, args) => o := CallFunc(fuel - 1, name, args);
      case Bin(op, l, r) => o := EvalOp(fuel - 1, op, l, r);
      case Unary(u, x) => o := EvalUnary(fuel - 1, u, x);
      case New(_) => o := SemV4.Fatal(HostCrash);
    }

    method EvalOp(fuel: nat, op: BinOp, l: Expr, r: Expr) returns (o: SemV4.Outcome)
      modifies this`out, env
      ensures (o, State()) == SemV4.EvalOp(fuel, ft, op, l, r, old(State()))
      decreases fuel, 0
    {
      if fuel == 0 {
        return SemV4.Fatal(OutOfFuel);
      }
      var lo := EvalExpr(fuel - 1, l);
      if lo.Fatal? || lo.status == SemV4.Raised {
        return lo;
      }
      if (op == And || op == Or) && !lo.val.BoolV? {
        return SemV4.Fatal(TypeError);
      }
      if op == And && lo.val == BoolV(false) {
        return SemV4.Out(SemV4.Continue, BoolV(false));
      }
      if op == Or && lo.val == BoolV(true) {
        return SemV4.Out(SemV4.Continue, BoolV(true));
      }
      ghost var s1 := State();
      var ro := EvalExpr(fuel - 1, r);
      assert SemV4.EvalOp(fuel, ft, op, l, r, old(State())) ==
        (var (ro', s2) := SemV4.EvalExpr(fuel - 1, ft, r, s1);
         if ro'.Fatal? || ro'.status == SemV4.Raised then (ro', s2)
         else (SemV4.BinaryV4(op, lo.val, ro'.val), s2));
      if ro.Fatal? || ro.status == SemV4.Raised {
        return ro;
      }
      o := SemV4.BinaryV4(op, lo.val, ro.val);
    }

    method EvalUnary(fuel: nat, u: UnOp, x: Expr) returns (o: SemV4.Outcome)
      modifies this`out, env
      ensures (o, State()) == SemV4.EvalUnary(fuel, ft, u, x, old(State()))
      decreases fuel, 0
    {
      if fuel == 0 {
        return SemV4.Fatal(OutOfFuel);
      }
      var v := EvalExpr(fuel - 1, x);
      if v.Fatal? || v.status == SemV4.Raised {
        return v;
      }
      if TypeOf(v.val) != Ops.UnaryOperandType(u) {
        return SemV4.Fatal(TypeError);
      }
      o := SemV4.Out(SemV4.Continue, Ops.ApplyUnary(u, v.val));
    }

    /** __call_func_aux: the argument loop, then the activation record. */
    method CallFunc(fuel: nat, name: string, args: seq<Expr>) returns (o: SemV4.Outcome)
      modifies this`out, env
      ensures (o, State()) == SemV4.CallFunc(fuel, ft, name, args, old(State()))
      decreases fuel, 0
    {
      if fuel == 0 {
        return SemV4.Fatal(OutOfFuel);
      }
      if name == "print" {
        o := CallPrint(fuel - 1, args);
        return;
      }
      if name == "inputi" || name == "inputs" {
        o := CallInput(fuel - 1, args);
        return;
      }
      var fdo := Resolve(ft, name, |args|);
      if fdo.None? {
        return SemV4.Fatal(NameError);
      }
      var fd := fdo.value;
      if |args| != |fd.params| {
        return SemV4.Fatal(NameError);
      }
      var m: map<string, Value> := map[];
      var i := 0;
      while i < |args|
        invariant 0 <= i <= |args|
        invariant SemV4.EvalArgs(fuel - 1, ft, fd.params, args, i, m, State()) ==
                  SemV4.EvalArgs(fuel - 1, ft, fd.params, args, 0, map[], old(State()))
      {
        var a := EvalExpr(fuel - 1, args[i]);
        if a.Fatal? {
          return SemV4.Fatal(a.err);
        }
        if a.status == SemV4.Raised {
          return SemV4.Out(SemV4.Raised, a.val);
        }
        m := m[fd.params[i].name := a.val];
        i := i + 1;
      }
      env.PushFunc();
      env.CreateAll(m);
      o := RunStatements(fuel - 1, fd.body);
      if !o.Fatal? {
        env.PopFunc();
      }
    }

    method CallPrint(fuel: nat, args: seq<Expr>) returns (o: SemV4.Outcome)
      modifies this`out, env
      ensures (o, State()) == SemV4.CallPrint(fuel, ft, args, 0, [], old(State()))
      decreases fuel, 1
    {
      var line: seq<Value> := [];
      var i := 0;
      while i < |args|
        invariant 0 <= i <= |args|
        invariant SemV4.CallPrint(fuel, ft, args, i, line, State()) ==
                  SemV4.CallPrint(fuel, ft, args, 0, [], old(State()))
      {
        var a := EvalExpr(fuel, args[i]);
        if a.Fatal? || a.status == SemV4.Raised {
          return a;
        }
        line := line + [a.val];
        i := i + 1;
      }
      out := out + [line];
      o := SemV4.Out(SemV4.Continue, NilV);
    }

    method CallInput(fuel: nat, args: seq<Expr>) returns (o: SemV4.Outcome)
      modifies this`out, env
      ensures (o, State()) == SemV4.CallInput(fuel, ft, args, old(State()))
      decreases fuel, 0
    {
      if fuel == 0 {
        return SemV4.Fatal(OutOfFuel);
      }
      if |args| == 1 {
        var a := EvalExpr(fuel - 1, args[0]);
        if a.Fatal? || a.status == SemV4.Raised {
          return a;
        }
        out := out + [[a.val]];
      } else if |args| > 1 {
        return SemV4.Fatal(NameError);
      }
      o := SemV4.Fatal(Unmodelled);
    }

    /** __run_statements: a block frame, the statements until the first
        RETURN or EXCEPTION, and the block popped on either exit. */
    method RunStatements(fuel: nat, stmts: seq<Stmt>) returns (o: SemV4.Outcome)
      modifies this`out, env
      ensures (o, State()) == SemV4.RunStatements(fuel, ft, stmts, old(State()))
      decreases fuel, 1
    {
      env.PushBlock();
      ghost var s0 := State();
      var i := 0;
      while i < |stmts|
        invariant 0 <= i <= |stmts|
        invariant SemV4.RunSeq(fuel, ft, stmts, i, State()) == SemV4.RunSeq(fuel, ft, stmts, 0, s0)
      {
        var r := RunStatement(fuel, stmts[i]);
        if r.Fatal? {
          return r;
        }
        if r.status != SemV4.Continue {
          env.PopBlock();
          return r;
        }
        i := i + 1;
      }
      env.PopBlock();
      o := SemV4.Out(SemV4.Continue, NilV);
    }

    method RunStatement(fuel: nat, s: Stmt) returns (o: SemV4.Outcome)
      modifies this`out, env
      ensures (o, State()) == SemV4.RunStatement(fuel, ft, s, old(State()))
      decreases fuel, 0
    {
      if fuel == 0 {
        return SemV4.Fatal(OutOfFuel);
      }
      match s
      case CallStmt(name, args) => o := CallFunc(fuel - 1, name, args);
      case Assign(name, e) => o := DoAssign(fuel - 1, name, e);
      case VarDef(name, _) => o := DoVarDef(name);
      case Return(e) => o := DoReturn(fuel - 1, e);
      case If(c, thn, els) => o := DoIf(fuel - 1, c, thn, els);
      case For(init, c, upd, body) => o := DoFor(fuel - 1, init, c, upd, body);
      case Raise(e) => o := DoRaise(fuel - 1, e);
      case Try(body, catchers) => o := TryBlock(fuel - 1, body, catchers);
    }

    method DoAssign(fuel: nat, name: string, e: Expr) returns (o: SemV4.Outcome)
      modifies this`out, env
      ensures (o, State()) == SemV4.DoAssign(fuel, ft, name, e, old(State()))
      decreases fuel, 0
    {
      if fuel == 0 {
        return SemV4.Fatal(OutOfFuel);
      }
      var v := EvalExpr(fuel - 1, e);
      if v.Fatal? || v.status == SemV4.Raised {
        return v;
      }
      var ok := env.Set(name, v.val);
      o := if ok then SemV4.Out(SemV4.Continue, BoolV(true)) else SemV4.Fatal(NameError);
    }

    method DoVarDef(name: string) returns (o: SemV4.Outcome)
      modifies env
      ensures (o, State()) == SemV4.DoVarDef(name, old(State()))
    {
      var ok := env.Create(name, NilV);
      o := if ok then SemV4.Out(SemV4.Continue, NilV) else SemV4.Fatal(NameError);
    }

    method DoReturn(fuel: nat, e: Option<Expr>) returns (o: SemV4.Outcome)
      modifies this`out, env
      ensures (o, State()) == SemV4.DoReturn(fuel, ft, e, old(State()))
      decreases fuel, 0
    {
      if fuel == 0 {
        return SemV4.Fatal(OutOfFuel);
      }
      if e.None? {
        return SemV4.Out(SemV4.Returned, NilV);
      }
      var v := EvalExpr(fuel - 1, e.value);
      if v.Fatal? || v.status == SemV4.Raised {
        return v;
      }
      o := SemV4.Out(SemV4.Returned, v.val);
    }

    method DoRaise(fuel: nat, e: Option<Expr>) returns (o: SemV4.Outcome)
      modifies this`out, env
      ensures (o, State()) == SemV4.DoRaise(fuel, ft, e, old(State()))
      decreases fuel, 0
    {
      if fuel == 0 {
        return SemV4.Fatal(OutOfFuel);
      }
      if e.None? {
        return SemV4.Out(SemV4.Raised, NilV);
      }
      var v := EvalExpr(fuel - 1, e.value);
      if v.Fatal? {
        return v;
      }
      o := if v.val.StrV? then SemV4.Out(SemV4.Raised, v.val) else SemV4.Fatal(TypeError);
    }

    method DoIf(fuel: nat, c: Expr, thn: seq<Stmt>, els: Option<seq<Stmt>>) returns (o: SemV4.Outcome)
      modifies this`out, env
      ensures (o, State()) == SemV4.DoIf(fuel, ft, c, thn, els, old(State()))
      decreases fuel, 0
    {
      if fuel == 0 {
        return SemV4.Fatal(OutOfFuel);
      }
      var v := EvalExpr(fuel - 1, c);
      if v.Fatal? || v.status == SemV4.Raised {
        return v;
      }
      if !v.val.BoolV? {
        return SemV4.Fatal(TypeError);
      }
      if v.val.b {
        o := RunStatements(fuel - 1, thn);
      } else if els.Some? {
        o := RunStatements(fuel - 1, els.value);
      } else {
        o := SemV4.Out(SemV4.Continue, NilV);
      }
    }

    /** __do_for: init, then the condition/body/update loop. */
    method DoFor(fuel: nat, init: Stmt, c: Expr, upd: Stmt, body: seq<Stmt>) returns (o: SemV4.Outcome)
      modifies this`out, env
      ensures (o, State()) == SemV4.DoFor(fuel, ft, init, c, upd, body, old(State()))
      decreases fuel, 1
    {
      if fuel == 0 {
        return SemV4.Fatal(OutOfFuel);
      }
      ghost var goal := SemV4.DoFor(fuel, ft, init, c, upd, body, State());
      var io := RunStatement(fuel - 1, init);
      if io.Fatal? || io.status == SemV4.Raised {
        return io;
      }
      assert goal == SemV4.ForLoop(fuel - 1, ft, c, upd, body, State());
      o := ForLoop(fuel - 1, c, upd, body);
    }

    /** The `while run_for` loop of __do_for; each iteration spends one unit
        of fuel. */
    method ForLoop(fuel: nat, c: Expr, upd: Stmt, body: seq<Stmt>) returns (o: SemV4.Outcome)
      modifies this`out, env
      ensures (o, State()) == SemV4.ForLoop(fuel, ft, c, upd, body, old(State()))
      decreases fuel, 0
    {
      ghost var goal := SemV4.ForLoop(fuel, ft, c, upd, body, State());
      var f: nat := fuel;
      while true
        invariant f <= fuel
        invariant SemV4.ForLoop(f, ft, c, upd, body, State()) == goal
        decreases f
      {
        if f == 0 {
          return SemV4.Fatal(OutOfFuel);
        }
        var co := EvalExpr(f - 1, c);
        if co.Fatal? || co.status == SemV4.Raised {
          return co;
        }
        if !co.val.BoolV? {
          return SemV4.Fatal(TypeError);
        }
        if !co.val.b {
          return SemV4.Out(SemV4.Continue, NilV);
        }
        var bo := RunStatements(f - 1, body);
        if bo.Fatal? || bo.status != SemV4.Continue {
          return bo;
        }
        var uo := RunStatement(f - 1, upd);
        if uo.Fatal? || uo.status == SemV4.Raised {
          return uo;
        }
        f := f - 1;
      }
    }

    method TryBlock(fuel: nat, body: seq<Stmt>, catchers: seq<Catcher>) returns (o: SemV4.Outcome)
      modifies this`out, env
      ensures (o, State()) == SemV4.TryBlock(fuel, ft, body, catchers, old(State()))
      decreases fuel, 0
    {
      if fuel == 0 {
        return SemV4.Fatal(OutOfFuel);
      }
      o := RunStatements(fuel - 1, body);
      if o.Fatal? || o.status != SemV4.Raised {
        return;
      }
      var k := SemV4.FindCatcher(catchers, o.val);
      if k.Some? {
        o := RunStatements(fuel - 1, catchers[k.value].body);
      }
    }
  }
}
