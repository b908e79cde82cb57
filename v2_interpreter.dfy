/** The v2 interpreter object (interpreterv2.py): the function table, the
    list of scopes that calls and `if`/`for` bodies append to and pop, and the
    console. Every method is proved to compute the SemV2 function of the same
    name from the state it starts in. */
module InterpreterV2 {
  import opened Values
  import opened Ast
  import opened Env
  import opened Functions
  import SemV2

  class Interpreter {
    var ft: FuncTable
    var scopes: seq<Frame>
    var out: seq<seq<Value>>

    function State(): SemV2.St
      reads this
    {
      SemV2.St(scopes, out)
    }

    constructor ()
      ensures ft == map[] && scopes == [] && out == []
    {
      ft := map[];
      scopes := [];
      out := [];
    }

    /** run (interpreterv2.py:27-34). */
    method Run(fuel: nat, p: Program) returns (err: Option<ErrorKind>)
      modifies this
      ensures SemV2.RunResult(err, out) == SemV2.Run(fuel, p)
    {
      ft := BuildFuncTable(p.funcs);
      out := [];
      var fd := Resolve(ft, "main", 0);
      if fd.None? {
        out := [];
        return Some(NameError);
      }
      scopes := [Frame(map[], true)];
      var o := RunStatements(fuel, fd.value.body);
      err := if o.Fatal? then Some(o.err) else None;
    }

    /** __find_which_previous_scope (interpreterv2.py:187-199): the given
        scope first, then an index loop from the innermost scope that stops at
        the first function scope; the scope the loop stopped at is checked
        once more. */
    method FindWhichPreviousScope(name: string, back: nat) returns (r: Result<nat>)
      requires back == 1 || back == 2
      ensures r == SemV2.FindScope(scopes, name, back)
    {
      if |scopes| < back {
        return Err(HostCrash);
      }
      if name in scopes[|scopes| - back].vars {
        return Ok(|scopes| - back);
      }
      ghost var goal := SemV2.ScanScopes(scopes, name, |scopes|);
      var last := |scopes| - 1;
      var i := 0;
      while i < |scopes|
        invariant 0 <= i <= |scopes| && 0 <= last < |scopes|
        invariant i < |scopes| ==> SemV2.ScanScopes(scopes, name, |scopes| - i) == goal
        invariant i == |scopes| ==> last == 0 && name !in scopes[0].vars && goal == Err(NameError)
      {
        last := |scopes| - 1 - i;
        if scopes[last].isFunction {
          break;
        }
        if name in scopes[last].vars {
          return Ok(last);
        }
        i := i + 1;
      }
      if name !in scopes[last].vars {
        return Err(NameError);
      }
      r := Ok(last);
    }

    method EvalExpr(fuel: nat, e: Expr, back: nat) returns (v: Result<Value>)
      requires back == 1 || back == 2
      modifies this`scopes, this`out
      ensures (v, State()) == SemV2.EvalExpr(fuel, ft, e, back, old(State()))
      decreases fuel, 0
    {
      if fuel == 0 {
        return Err(OutOfFuel);
      }
      match e
      case NilLit => v := Ok(NilV);
      case IntLit(i) => v := Ok(IntV(i));
      case StrLit(s) => v := Ok(StrV(s));
      case BoolLit(b) => v := Ok(BoolV(b));
      case Var(name) =>
        var k := FindWhichPreviousScope(name, back);
        v := if k.Err? then Err(k.err) else Ok(scopes[k.value].vars[name]);
      case Call(name, args) => v := CallFunc(fuel - 1, name, args);
      case Bin(op, l, r) =>
        if SemV2.IsArith(op) {
          v := EvalArith(fuel - 1, op, l, r, back);
        } else {
          v := EvalComp(fuel - 1, op, l, r);
        }
      case Unary(u, x) =>
        var a := EvalExpr(fuel - 1, x, 1);
        v := if a.Err? then a else SemV2.UnaryV2(u, a.value);
      case New(_) => v := Err(Unmodelled);
    }

    method EvalArith(fuel: nat, op: BinOp, l: Expr, r: Expr, back: nat) returns (v: Result<Value>)
      requires SemV2.IsArith(op) && (back == 1 || back == 2)
      modifies this`scopes, this`out
      ensures (v, State()) == SemV2.EvalArith(fuel, ft, op, l, r, back, old(State()))
      decreases fuel, 0
    {
      if fuel == 0 {
        return Err(OutOfFuel);
      }
      var lv := EvalExpr(fuel - 1, l, back);
      if lv.Err? {
        return lv;
      }
      ghost var s1 := State();
      var rv := EvalExpr(fuel - 1, r, back);
      assert SemV2.EvalArith(fuel, ft, op, l, r, back, old(State())) ==
        (var (rv', s2) := SemV2.EvalExpr(fuel - 1, ft, r, back, s1);
         if rv'.Err? then (rv', s2) else (SemV2.ArithV2(op, lv.value, rv'.value), s2));
      v := if rv.Err? then rv else SemV2.ArithV2(op, lv.value, rv.value);
    }

    method EvalComp(fuel: nat, op: BinOp, l: Expr, r: Expr) returns (v: Result<Value>)
      modifies this`scopes, this`out
      ensures (v, State()) == SemV2.EvalComp(fuel, ft, op, l, r, old(State()))
      decreases fuel, 0
    {
      if fuel == 0 {
        return Err(OutOfFuel);
      }
      ghost var s0 := State();
      var lv := EvalExpr(fuel - 1, l, 1);
      ghost var s1 := State();
      assert SemV2.EvalComp(fuel, ft, op, l, r, s0) ==
        if lv.Err? then (lv, s1)
        else
          var (rv', s2) := SemV2.EvalExpr(fuel - 1, ft, r, 1, s1);
          if rv'.Err? then (rv', s2) else (SemV2.CompV2(op, lv.value, rv'.value), s2);
      if lv.Err? {
        return lv;
      }
      var rv := EvalExpr(fuel - 1, r, 1);
      v := if rv.Err? then rv else SemV2.CompV2(op, lv.value, rv.value);
    }

    /** __call_func: a function scope, each formal created from the actual
        evaluated two scopes down, the body, and the scope popped. */
    method CallFunc(fuel: nat, name: string, args: seq<Expr>) returns (v: Result<Value>)
      modifies this`scopes, this`out
      ensures (v, State()) == SemV2.CallFunc(fuel, ft, name, args, old(State()))
      decreases fuel, 0
    {
      if fuel == 0 {
        return Err(OutOfFuel);
      }
      if name == "print" {
        v := CallPrint(fuel - 1, args);
        return;
      }
      if name == "inputi" || name == "inputs" {
        v := CallInput(fuel - 1, args);
        return;
      }
      var fdo := Resolve(ft, name, |args|);
      if fdo.None? {
        return Err(NameError);
      }
      var fd := fdo.value;
      if |args| != |fd.params| {
        return Err(NameError);
      }
      scopes := scopes + [Frame(map[], true)];
      ghost var s1 := State();
      ghost var bound := SemV2.BindFormals(fuel - 1, ft, fd.params, args, 0, s1);
      var i := 0;
      while i < |args|
        invariant 0 <= i <= |args|
        invariant SemV2.BindFormals(fuel - 1, ft, fd.params, args, i, State()) == bound
      {
        var a := EvalExpr(fuel - 1, args[i], 2);
        if a.Err? {
          return a;
        }
        var fr := CreateVar(scopes, fd.params[i].name, a.value);
        if fr.None? {
          return Err(NameError);
        }
        scopes := fr.value;
        i := i + 1;
      }
      var o := RunStatements(fuel - 1, fd.body);
      if o.Fatal? {
        return Err(o.err);
      }
      scopes := Pop(scopes);
      v := if o.Ret? then Ok(o.val) else Ok(NilV);
    }

    method CallPrint(fuel: nat, args: seq<Expr>) returns (v: Result<Value>)
      modifies this`scopes, this`out
      ensures (v, State()) == SemV2.CallPrint(fuel, ft, args, 0, [], old(State()))
      decreases fuel, 1
    {
      var line: seq<Value> := [];
      var i := 0;
      while i < |args|
        invariant 0 <= i <= |args|
        invariant SemV2.CallPrint(fuel, ft, args, i, line, State()) ==
                  SemV2.CallPrint(fuel, ft, args, 0, [], old(State()))
      {
        var a := EvalExpr(fuel, args[i], 1);
        if a.Err? {
          return a;
        }
        line := line + [a.value];
        i := i + 1;
      }
      out := out + [line];
      v := Ok(NilV);
    }

    method CallInput(fuel: nat, args: seq<Expr>) returns (v: Result<Value>)
      modifies this`scopes, this`out
      ensures (v, State()) == SemV2.CallInput(fuel, ft, args, old(State()))
      decreases fuel, 0
    {
      if fuel == 0 {
        return Err(OutOfFuel);
      }
      if |args| == 1 {
        var a := EvalExpr(fuel - 1, args[0], 1);
        if a.Err? {
          return a;
        }
        out := out + [[a.value]];
      } else if |args| > 1 {
        return Err(NameError);
      }
      v := Err(Unmodelled);
    }

    /** __run_statements: the statements in order up to the first `return`. */
    method RunStatements(fuel: nat, stmts: seq<Stmt>) returns (o: SemV2.Outcome)
      modifies this`scopes, this`out
      ensures (o, State()) == SemV2.RunStatements(fuel, ft, stmts, old(State()))
      decreases fuel, |stmts| + 1
    {
      var i := 0;
      while i < |stmts|
        invariant 0 <= i <= |stmts|
        invariant SemV2.RunSeq(fuel, ft, stmts, i, State()) == SemV2.RunSeq(fuel, ft, stmts, 0, old(State()))
      {
        var r := RunStatement(fuel, stmts[i]);
        if !r.Next? {
          return r;
        }
        i := i + 1;
      }
      o := SemV2.Next;
    }

    method RunStatement(fuel: nat, s: Stmt) returns (o: SemV2.Outcome)
      modifies this`scopes, this`out
      ensures (o, State()) == SemV2.RunStatement(fuel, ft, s, old(State()))
      decreases fuel, 0
    {
      if fuel == 0 {
        return SemV2.Fatal(OutOfFuel);
      }
      match s
      case CallStmt(name, args) =>
        var v := CallFunc(fuel - 1, name, args);
        o := if v.Err? then SemV2.Fatal(v.err) else SemV2.Next;
      case Assign(name, e) => o := DoAssign(fuel - 1, name, e);
      case VarDef(name, _) => o := DoVarDef(name);
      case Return(e) =>
        if e.None? {
          o := SemV2.Ret(NilV);
        } else {
          var v := EvalExpr(fuel - 1, e.value, 1);
          o := if v.Err? then SemV2.Fatal(v.err) else SemV2.Ret(v.value);
        }
      case If(c, thn, els) => o := RunIf(fuel - 1, c, thn, els);
      case For(init, c, upd, body) => o := RunFor(fuel - 1, init, c, upd, body);
      case Raise(_) => o := SemV2.Next;
      case Try(_, _) => o := SemV2.Next;
    }

    /** __assign: evaluate, find the scope that holds the name, set it there. */
    method DoAssign(fuel: nat, name: string, e: Expr) returns (o: SemV2.Outcome)
      modifies this`scopes, this`out
      ensures (o, State()) == SemV2.DoAssign(fuel, ft, name, e, old(State()))
      decreases fuel, 0
    {
      if fuel == 0 {
        return SemV2.Fatal(OutOfFuel);
      }
      var v := EvalExpr(fuel - 1, e, 1);
      if v.Err? {
        return SemV2.Fatal(v.err);
      }
      var k := FindWhichPreviousScope(name, 1);
      if k.Err? {
        return SemV2.Fatal(k.err);
      }
      scopes := scopes[k.value := scopes[k.value].(vars := scopes[k.value].vars[name := v.value])];
      o := SemV2.Next;
    }

    method DoVarDef(name: string) returns (o: SemV2.Outcome)
      modifies this`scopes
      ensures (o, State()) == SemV2.DoVarDef(name, old(State()))
    {
      if scopes == [] {
        return SemV2.Fatal(HostCrash);
      }
      if name in scopes[|scopes| - 1].vars {
        return SemV2.Fatal(NameError);
      }
      var top := scopes[|scopes| - 1];
      scopes := scopes[|scopes| - 1 := top.(vars := top.vars[name := IntV(0)])];
      o := SemV2.Next;
    }

    /** A body in a freshly appended scope, popped on both exits. */
    method Block(fuel: nat, stmts: seq<Stmt>) returns (o: SemV2.Outcome)
      modifies this`scopes, this`out
      ensures (o, State()) == SemV2.Block(fuel, ft, stmts, old(State()))
      decreases fuel, |stmts| + 2
    {
      scopes := scopes + [Frame(map[], false)];
      o := RunStatements(fuel, stmts);
      if !o.Fatal? {
        scopes := Pop(scopes);
      }
    }

    method RunIf(fuel: nat, c: Expr, thn: seq<Stmt>, els: Option<seq<Stmt>>) returns (o: SemV2.Outcome)
      modifies this`scopes, this`out
      ensures (o, State()) == SemV2.RunIf(fuel, ft, c, thn, els, old(State()))
      decreases fuel, 0
    {
      if fuel == 0 {
        return SemV2.Fatal(OutOfFuel);
      }
      var v := EvalExpr(fuel - 1, c, 1);
      if v.Err? {
        return SemV2.Fatal(v.err);
      }
      if v.value.IntV? || v.value.StrV? {
        return SemV2.Fatal(TypeError);
      }
      if v.value == BoolV(true) {
        o := Block(fuel - 1, thn);
      } else if v.value == BoolV(false) {
        if els.None? {
          return SemV2.Next;
        }
        o := Block(fuel - 1, els.value);
      } else {
        o := SemV2.Fatal(HostCrash);
      }
    }

    method ForAssign(fuel: nat, s: Stmt) returns (o: SemV2.Outcome)
      modifies this`scopes, this`out
      ensures (o, State()) == SemV2.ForAssign(fuel, ft, s, old(State()))
      decreases fuel, 1
    {
      if s.Assign? {
        o := DoAssign(fuel, s.name, s.e);
      } else {
        o := SemV2.Fatal(HostCrash);
      }
    }

    /** __run_for: the init assignment, then the loop. */
    method RunFor(fuel: nat, init: Stmt, c: Expr, upd: Stmt, body: seq<Stmt>) returns (o: SemV2.Outcome)
      modifies this`scopes, this`out
      ensures (o, State()) == SemV2.RunFor(fuel, ft, init, c, upd, body, old(State()))
      decreases fuel, 1
    {
      if fuel == 0 {
        return SemV2.Fatal(OutOfFuel);
      }
      ghost var goal := SemV2.RunFor(fuel, ft, init, c, upd, body, State());
      var io := ForAssign(fuel - 1, init);
      if io.Fatal? {
        return io;
      }
      assert goal == SemV2.ForLoop(fuel - 1, ft, c, upd, body, State());
      o := ForLoop(fuel - 1, c, upd, body);
    }

    /** The `while` loop of __run_for; each iteration spends one unit of fuel. */
    method ForLoop(fuel: nat, c: Expr, upd: Stmt, body: seq<Stmt>) returns (o: SemV2.Outcome)
      modifies this`scopes, this`out
      ensures (o, State()) == SemV2.ForLoop(fuel, ft, c, upd, body, old(State()))
      decreases fuel, 0
    {
      ghost var goal := SemV2.ForLoop(fuel, ft, c, upd, body, State());
      var f: nat := fuel;
      while true
        invariant f <= fuel
        invariant SemV2.ForLoop(f, ft, c, upd, body, State()) == goal
        decreases f
      {
        if f == 0 {
          return SemV2.Fatal(OutOfFuel);
        }
        if c.Unary? {
          var v := EvalExpr(f - 1, c.e, 1);
          return SemV2.Fatal(if v.Err? then v.err else HostCrash);
        }
        if !c.Bin? {
          return SemV2.Fatal(HostCrash);
        }
        var v := EvalComp(f - 1, c.op, c.l, c.r);
        if v.Err? {
          return SemV2.Fatal(v.err);
        }
        if v.value != BoolV(true) {
          return SemV2.Next;
        }
        var bo := Block(f - 1, body);
        if !bo.Next? {
          return bo;
        }
        var uo := ForAssign(f - 1, upd);
        if uo.Fatal? {
          return uo;
        }
        f := f - 1;
      }
    }
  }
}
