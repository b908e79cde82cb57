/** The v3 interpreter object (interpreterv3.py): it holds the struct and
    function tables, the environment, the struct instances and the console,
    and executes statements by changing them. Every method is proved to
    compute the SemV3 function of the same name from the state it starts in. */
module InterpreterV3 {
  import opened Values
  import opened Ast
  import opened Env
  import Ops
  import opened Functions
  import opened Structs
  import opened Paths
  import SemV3

  class Interpreter {
    var ft: FuncTable
    var structs: StructTable
    var env: Environment
    /** The struct instances, by address; a field write changes one in place. */
    var heap: seq<map<string, Value>>
    var out: seq<seq<Value>>

    function State(): SemV3.St
      reads this, env
    {
      SemV3.St(env.frames, heap, out)
    }

    function Ctx(): SemV3.Ctx
      reads this
    {
      SemV3.Ctx(ft, structs)
    }

    constructor ()
      ensures ft == map[] && structs == map[] && env.frames == [] && heap == [] && out == []
    {
      ft := map[];
      structs := map[];
      env := new Environment();
      heap := [];
      out := [];
    }

    /** run (interpreterv3.py:33-38). */
    method Run(fuel: nat, p: Program) returns (err: Option<ErrorKind>)
      modifies this
      ensures SemV3.RunResult(err, out) == SemV3.Run(fuel, p)
    {
      heap := [];
      out := [];
      var ok := ParseStructDecls(p.structs);
      if !ok {
        return Some(HostCrash);
      }
      ft := BuildFuncTable(p.funcs);
      env := new Environment();
      var v := CallFunc(fuel, "main", []);
      err := if v.Err? then Some(v.err) else None;
    }

    /** __parse_structs (interpreterv3.py:40-59): declarations in order, each
        field's type checked against the structs registered so far. */
    method ParseStructDecls(decls: seq<StructDecl>) returns (ok: bool)
      modifies this`structs
      ensures ok <==> ParseStructs(decls).Some?
      ensures ok ==> structs == ParseStructs(decls).value
    {
      structs := map[];
      var i := 0;
      while i < |decls|
        invariant 0 <= i <= |decls|
        invariant ParseStructs(decls[..i]) == Some(structs)
      {
        ParseStructsStep(decls, i);
        var d := decls[i];
        if d.name in structs {
          ParseStructsNone(decls, i + 1);
          return false;
        }
        var fields := CheckFields(d);
        if fields.None? {
          ParseStructsNone(decls, i + 1);
          return false;
        }
        structs := structs[d.name := fields.value];
        i := i + 1;
      }
      assert decls[..i] == decls;
      ok := true;
    }

    /** The field loop of __parse_structs: each field type must be a
        primitive, a struct registered so far or the struct being declared. */
    method CheckFields(d: StructDecl) returns (fields: Option<map<string, string>>)
      ensures fields.Some? <==> FieldsOk(structs.Keys, d)
      ensures fields.Some? ==> fields.value == FieldTypes(d.fields)
    {
      var m: map<string, string> := map[];
      var j := 0;
      while j < |d.fields|
        invariant 0 <= j <= |d.fields|
        invariant m == FieldTypes(d.fields[..j])
        invariant forall q :: 0 <= q < j ==> FieldTypeOk(structs.Keys, d.name, d.fields[q].varType)
      {
        var t := d.fields[j].varType;
        if !IsPrimitive(t) && t !in structs && t != d.name {
          assert !FieldTypeOk(structs.Keys, d.name, d.fields[j].varType);
          return None;
        }
        FieldTypesSnoc(d.fields, j);
        m := m[d.fields[j].name := t];
        j := j + 1;
      }
      assert d.fields[..j] == d.fields;
      assert FieldsOk(structs.Keys, d);
      fields := Some(m);
    }

    method EvalExpr(fuel: nat, e: Expr) returns (v: Result<Value>)
      modifies this`out, this`heap, env
      ensures (v, State()) == SemV3.EvalExpr(fuel, Ctx(), e, old(State()))
      decreases fuel, 0
    {
      if fuel == 0 {
        return Err(OutOfFuel);
      }
      match e
      case NilLit => v := Ok(NilV);
      case IntLit(i) => v := Ok(IntV(i));
      case StrLit(s) => v := Ok(StrV(s));
      case BoolLit(b) => v := Ok(BoolV(b));
      case Var(name) =>
        if '.' in name {
          SplitDotted(name);
          var a := FindTarget(Split(name));
          v := if a.Err? then Err(a.err) else Err(HostCrash);
        } else {
          var x := env.Get(name);
          v := if x.None? then Err(NameError) else Ok(x.value);
        }
      case Call(name, args) => v := CallFunc(fuel - 1, name, args);
      case Bin(op, l, r) => v := EvalOp(fuel - 1, op, l, r);
      case Unary(u, x) => v := EvalUnary(fuel - 1, u, x);
      case New(t) => v := NewInstance(t);
    }

    /** The field walk shared by dotted reads and writes: the root variable,
        then each intermediate field, then the last field's instance. */
    method FindTarget(parts: seq<string>) returns (r: Result<nat>)
      requires |parts| >= 2
      ensures r == SemV3.PathTarget(State(), parts)
    {
      var root := env.Get(parts[0]);
      if root.None? {
        return Err(NameError);
      }
      var cur := root.value;
      var j := 1;
      while j < |parts| - 1
        invariant 1 <= j <= |parts| - 1
        invariant SemV3.Walk(heap, cur, parts[j..|parts| - 1]) == SemV3.Walk(heap, root.value, parts[1..|parts| - 1])
      {
        if !cur.StructV? || cur.addr >= |heap| {
          return Err(HostCrash);
        }
        if parts[j] !in heap[cur.addr] {
          return Err(NameError);
        }
        assert parts[j..|parts| - 1][1..] == parts[j + 1..|parts| - 1];
        cur := heap[cur.addr][parts[j]];
        j := j + 1;
      }
      if !cur.StructV? || cur.addr >= |heap| {
        return Err(HostCrash);
      }
      if parts[|parts| - 1] !in heap[cur.addr] {
        return if |parts| == 2 then Err(HostCrash) else Err(NameError);
      }
      r := Ok(cur.addr);
    }

    /** __execute_new: each declared field gets its type's default. */
    method NewInstance(t: string) returns (v: Result<Value>)
      modifies this`heap
      ensures (v, State()) == SemV3.NewInstance(structs, t, old(State()))
    {
      if t !in structs {
        return Err(TypeError);
      }
      var fields := structs[t];
      var inst: map<string, Value> := map[];
      var rest := fields.Keys;
      while rest != {}
        invariant rest <= fields.Keys && inst.Keys == fields.Keys - rest
        invariant forall f :: f in inst ==> DefaultValue(structs, fields[f]) == Ok(inst[f])
        decreases rest
      {
        var f :| f in rest;
        var d := DefaultValue(structs, fields[f]);
        if d.Err? {
          return Err(TypeError);
        }
        inst := inst[f := d.value];
        rest := rest - {f};
      }
      assert inst == NewFields(structs, fields).value;
      v := Ok(StructV(t, |heap|));
      heap := heap + [inst];
    }

    method EvalOp(fuel: nat, op: BinOp, l: Expr, r: Expr) returns (v: Result<Value>)
      modifies this`out, this`heap, env
      ensures (v, State()) == SemV3.EvalOp(fuel, Ctx(), op, l, r, old(State()))
      decreases fuel, 0
    {
      if fuel == 0 {
        return Err(OutOfFuel);
      }
      ghost var s0 := State();
      var lv := EvalExpr(fuel - 1, l);
      assert SemV3.EvalOp(fuel, Ctx(), op, l, r, s0) ==
        if lv.Err? then (lv, State()) else SemV3.EvalRight(fuel - 1, Ctx(), op, lv.value, r, State());
      if lv.Err? {
        return lv;
      }
      v := EvalRight(fuel - 1, op, lv.value, r);
    }

    /** The right operand, then the operator. */
    method EvalRight(fuel: nat, op: BinOp, lv: Value, r: Expr) returns (v: Result<Value>)
      modifies this`out, this`heap, env
      ensures (v, State()) == SemV3.EvalRight(fuel, Ctx(), op, lv, r, old(State()))
      decreases fuel, 1
    {
      ghost var s0 := State();
      var rv := EvalExpr(fuel, r);
      assert SemV3.EvalRight(fuel, Ctx(), op, lv, r, s0) ==
        if rv.Err? then (rv, State()) else (SemV3.BinaryV3(op, lv, rv.value), State());
      if rv.Err? {
        return rv;
      }
      v := SemV3.BinaryV3(op, lv, rv.value);
    }

    method EvalUnary(fuel: nat, u: UnOp, x: Expr) returns (v: Result<Value>)
      modifies this`out, this`heap, env
      ensures (v, State()) == SemV3.EvalUnary(fuel, Ctx(), u, x, old(State()))
      decreases fuel, 0
    {
      if fuel == 0 {
        return Err(OutOfFuel);
      }
      var a := EvalExpr(fuel - 1, x);
      if a.Err? {
        return a;
      }
      if TypeOf(a.value) != Ops.UnaryOperandType(u) {
        return Err(TypeError);
      }
      v := Ok(Ops.ApplyUnary(u, a.value));
    }

    /** __call_func_aux: the argument loop, the activation record, the body,
        and the value the return type makes of the result. */
    method CallFunc(fuel: nat, name: string, args: seq<Expr>) returns (v: Result<Value>)
      modifies this`out, this`heap, env
      ensures (v, State()) == SemV3.CallFunc(fuel, Ctx(), name, args, old(State()))
      decreases fuel, 0
    {
      if fuel == 0 {
        return Err(OutOfFuel);
      }
      if name == "print" {
        v := CallPrint(fuel - 1, args);
        return;
      }
      if name == "inputi" || name == "inputs" {
        v := CallInput(fuel - 1, args);
        return;
      }
      var fdo := Resolve(ft, name, |args|);
      if fdo.None? {
        return Err(NameError);
      }
      v := CallUser(fuel - 1, fdo.value, args);
    }

    /** The binding loop, the function frame, the body and the return value
        of a call of a resolved user function. */
    method CallUser(fuel: nat, fd: FuncDef, args: seq<Expr>) returns (v: Result<Value>)
      modifies this`out, this`heap, env
      ensures (v, State()) == SemV3.CallUser(fuel, Ctx(), fd, args, old(State()))
      decreases fuel, 2
    {
      if |args| != |fd.params| {
        return Err(NameError);
      }
      var bm := BindArgs(fuel, fd.params, args);
      if bm.Err? {
        return Err(bm.err);
      }
      ghost var st1 := State();
      env.PushFunc();
      env.CreateAll(bm.value);
      assert State() == st1.(frames := Declare(Push(st1.frames, true), bm.value));
      var o := RunStatements(fuel, fd.body);
      if o.Fatal? {
        return Err(o.err);
      }
      env.PopFunc();
      v := ReturnValue(structs, fd.retType, o.val);
    }

    /** The argument loop of __call_func_aux: each actual is evaluated and
        bound, coerced, to its formal. */
    method BindArgs(fuel: nat, params: seq<Param>, args: seq<Expr>) returns (r: Result<map<string, Value>>)
      requires |params| == |args|
      modifies this`out, this`heap, env
      ensures (r, State()) == SemV3.BindArgs(fuel, Ctx(), params, args, 0, map[], old(State()))
      decreases fuel, 1
    {
      var m: map<string, Value> := map[];
      var i := 0;
      while i < |args|
        invariant 0 <= i <= |args|
        invariant SemV3.BindArgs(fuel, Ctx(), params, args, i, m, State()) ==
                  SemV3.BindArgs(fuel, Ctx(), params, args, 0, map[], old(State()))
      {
        var a := EvalExpr(fuel, args[i]);
        if a.Err? {
          return Err(a.err);
        }
        var w := BindArg(structs, params[i].varType, a.value);
        if w.Err? {
          return Err(w.err);
        }
        m := m[params[i].name := w.value];
        i := i + 1;
      }
      r := Ok(m);
    }

    method CallPrint(fuel: nat, args: seq<Expr>) returns (v: Result<Value>)
      modifies this`out, this`heap, env
      ensures (v, State()) == SemV3.CallPrint(fuel, Ctx(), args, 0, [], old(State()))
      decreases fuel, 1
    {
      var line: seq<Value> := [];
      var i := 0;
      while i < |args|
        invariant 0 <= i <= |args|
        invariant SemV3.CallPrint(fuel, Ctx(), args, i, line, State()) ==
                  SemV3.CallPrint(fuel, Ctx(), args, 0, [], old(State()))
      {
        var a := EvalExpr(fuel, args[i]);
        if a.Err? {
          return a;
        }
        line := line + [a.value];
        i := i + 1;
      }
      out := out + [line];
      v := Ok(NilV);
    }

    method CallInput(fuel: nat, args: seq<Expr>) returns (v: Result<Value>)
      modifies this`out, this`heap, env
      ensures (v, State()) == SemV3.CallInput(fuel, Ctx(), args, old(State()))
      decreases fuel, 0
    {
      if fuel == 0 {
        return Err(OutOfFuel);
      }
      if |args| == 1 {
        var a := EvalExpr(fuel - 1, args[0]);
        if a.Err? {
          return a;
        }
        out := out + [[a.value]];
      } else if |args| > 1 {
        return Err(NameError);
      }
      v := Err(Unmodelled);
    }

    /** __run_statements: a block frame, the statements until the first
        RETURN, and the block popped on either exit. */
    method RunStatements(fuel: nat, stmts: seq<Stmt>) returns (o: SemV3.Outcome)
      modifies this`out, this`heap, env
      ensures (o, State()) == SemV3.RunStatements(fuel, Ctx(), stmts, old(State()))
      decreases fuel, 1
    {
      env.PushBlock();
      ghost var s0 := State();
      var i := 0;
      while i < |stmts|
        invariant 0 <= i <= |stmts|
        invariant SemV3.RunSeq(fuel, Ctx(), stmts, i, State()) == SemV3.RunSeq(fuel, Ctx(), stmts, 0, s0)
      {
        var r := RunStatement(fuel, stmts[i]);
        if r.Fatal? {
          return r;
        }
        if r.status == SemV3.Returned {
          env.PopBlock();
          return r;
        }
        i := i + 1;
      }
      env.PopBlock();
      o := SemV3.Out(SemV3.Continue, NilV);
    }

    method RunStatement(fuel: nat, s: Stmt) returns (o: SemV3.Outcome)
      modifies this`out, this`heap, env
      ensures (o, State()) == SemV3.RunStatement(fuel, Ctx(), s, old(State()))
      decreases fuel, 0
    {
      if fuel == 0 {
        return SemV3.Fatal(OutOfFuel);
      }
      match s
      case CallStmt(name, args) =>
        var v := CallFunc(fuel - 1, name, args);
        o := if v.Err? then SemV3.Fatal(v.err) else SemV3.Out(SemV3.Continue, NilV);
      case Assign(name, e) => o := DoAssign(fuel - 1, name, e);
      case VarDef(name, t) => o := DoVarDef(name, t);
      case Return(e) => o := DoReturn(fuel - 1, e);
      case If(c, thn, els) => o := DoIf(fuel - 1, c, thn, els);
      case For(init, c, upd, body) => o := DoFor(fuel - 1, init, c, upd, body);
      case Raise(_) => o := SemV3.Out(SemV3.Continue, NilV);
      case Try(_, _) => o := SemV3.Out(SemV3.Continue, NilV);
    }

    /** __assign: a plain name is set; a dotted path overwrites the field of
        the instance it leads to. */
    method DoAssign(fuel: nat, name: string, e: Expr) returns (o: SemV3.Outcome)
      modifies this`out, this`heap, env
      ensures (o, State()) == SemV3.DoAssign(fuel, Ctx(), name, e, old(State()))
      decreases fuel, 0
    {
      if fuel == 0 {
        return SemV3.Fatal(OutOfFuel);
      }
      var v := EvalExpr(fuel - 1, e);
      if v.Err? {
        return SemV3.Fatal(v.err);
      }
      if '.' in name {
        SplitDotted(name);
        o := AssignField(Split(name), v.value);
      } else {
        var ok := env.Set(name, v.value);
        o := if ok then SemV3.Out(SemV3.Continue, NilV) else SemV3.Fatal(NameError);
      }
    }

    /** The dotted branch of __assign: the field of the instance the path
        reaches is overwritten in place. */
    method AssignField(parts: seq<string>, v: Value) returns (o: SemV3.Outcome)
      requires |parts| >= 2
      modifies this`heap
      ensures (o, State()) == SemV3.AssignPath(old(State()), parts, v)
    {
      var a := FindTarget(parts);
      if a.Err? {
        return SemV3.Fatal(a.err);
      }
      var f := parts[|parts| - 1];
      var w := Coerce(TypeName(TypeOf(heap[a.value][f])), v);
      if w.Err? {
        return SemV3.Fatal(w.err);
      }
      heap := heap[a.value := heap[a.value][f := w.value]];
      o := SemV3.Out(SemV3.Continue, NilV);
    }

    method DoVarDef(name: string, t: string) returns (o: SemV3.Outcome)
      modifies env
      ensures (o, State()) == SemV3.DoVarDef(structs, name, t, old(State()))
    {
      var d := DefaultValue(structs, t);
      if d.Err? {
        return SemV3.Fatal(d.err);
      }
      var ok := env.Create(name, d.value);
      o := if ok then SemV3.Out(SemV3.Continue, NilV) else SemV3.Fatal(NameError);
    }

    /** __do_return: a primitive result is evaluated a second time, and the
        second value is the one returned. */
    method DoReturn(fuel: nat, e: Option<Expr>) returns (o: SemV3.Outcome)
      modifies this`out, this`heap, env
      ensures (o, State()) == SemV3.DoReturn(fuel, Ctx(), e, old(State()))
      decreases fuel, 0
    {
      if fuel == 0 {
        return SemV3.Fatal(OutOfFuel);
      }
      if e.None? {
        return SemV3.Out(SemV3.Returned, NilV);
      }
      var v := EvalExpr(fuel - 1, e.value);
      if v.Err? {
        return SemV3.Fatal(v.err);
      }
      if v.value.StructV? {
        return SemV3.Fatal(HostCrash);
      }
      if v.value.NilV? {
        return SemV3.Fatal(TypeError);
      }
      ghost var s1 := State();
      var v2 := EvalExpr(fuel - 1, e.value);
      assert SemV3.DoReturn(fuel, Ctx(), e, old(State())) ==
        (var (v2', s2) := SemV3.EvalExpr(fuel - 1, Ctx(), e.value, s1);
         if v2'.Err? then (SemV3.Fatal(v2'.err), s2) else (SemV3.Out(SemV3.Returned, v2'.value), s2));
      o := if v2.Err? then SemV3.Fatal(v2.err) else SemV3.Out(SemV3.Returned, v2.value);
    }

    method DoIf(fuel: nat, c: Expr, thn: seq<Stmt>, els: Option<seq<Stmt>>) returns (o: SemV3.Outcome)
      modifies this`out, this`heap, env
      ensures (o, State()) == SemV3.DoIf(fuel, Ctx(), c, thn, els, old(State()))
      decreases fuel, 0
    {
      if fuel == 0 {
        return SemV3.Fatal(OutOfFuel);
      }
      var v := EvalExpr(fuel - 1, c);
      if v.Err? {
        return SemV3.Fatal(v.err);
      }
      var b := Condition(v.value);
      if b.Err? {
        return SemV3.Fatal(b.err);
      }
      if b.value {
        o := RunStatements(fuel - 1, thn);
      } else if els.Some? {
        o := RunStatements(fuel - 1, els.value);
      } else {
        o := SemV3.Out(SemV3.Continue, NilV);
      }
    }

    /** __do_for: init, then the condition/body/update loop. */
    method DoFor(fuel: nat, init: Stmt, c: Expr, upd: Stmt, body: seq<Stmt>) returns (o: SemV3.Outcome)
      modifies this`out, this`heap, env
      ensures (o, State()) == SemV3.DoFor(fuel, Ctx(), init, c, upd, body, old(State()))
      decreases fuel, 1
    {
      if fuel == 0 {
        return SemV3.Fatal(OutOfFuel);
      }
      ghost var goal := SemV3.DoFor(fuel, Ctx(), init, c, upd, body, State());
      var io := RunStatement(fuel - 1, init);
      if io.Fatal? {
        return io;
      }
      assert goal == SemV3.ForLoop(fuel - 1, Ctx(), c, upd, body, State());
      o := ForLoop(fuel - 1, c, upd, body);
    }

    /** The `while run_for` loop of __do_for; each iteration spends one unit
        of fuel. */
    method ForLoop(fuel: nat, c: Expr, upd: Stmt, body: seq<Stmt>) returns (o: SemV3.Outcome)
      modifies this`out, this`heap, env
      ensures (o, State()) == SemV3.ForLoop(fuel, Ctx(), c, upd, body, old(State()))
      decreases fuel, 1
    {
      ghost var goal := SemV3.ForLoop(fuel, Ctx(), c, upd, body, State());
      var f: nat := fuel;
      while true
        invariant f <= fuel
        invariant SemV3.ForLoop(f, Ctx(), c, upd, body, State()) == goal
        decreases f
      {
        if f == 0 {
          return SemV3.Fatal(OutOfFuel);
        }
        var done;
        done, o := ForStep(f, c, upd, body);
        if done {
          return;
        }
        f := f - 1;
      }
    }

    /** One test of the condition and, while it holds, one iteration: either
        the loop is over with outcome `o`, or it goes on with one unit of fuel
        less. */
    method ForStep(fuel: nat, c: Expr, upd: Stmt, body: seq<Stmt>) returns (done: bool, o: SemV3.Outcome)
      requires fuel > 0
      modifies this`out, this`heap, env
      ensures done ==> (o, State()) == SemV3.ForLoop(fuel, Ctx(), c, upd, body, old(State()))
      ensures !done ==> SemV3.ForLoop(fuel - 1, Ctx(), c, upd, body, State()) ==
                        SemV3.ForLoop(fuel, Ctx(), c, upd, body, old(State()))
      decreases fuel, 0
    {
      done := true;
      ghost var s0 := State();
      var v := EvalExpr(fuel - 1, c);
      if v.Err? {
        return true, SemV3.Fatal(v.err);
      }
      var b := Condition(v.value);
      if b.Err? {
        return true, SemV3.Fatal(b.err);
      }
      if !b.value {
        return true, SemV3.Out(SemV3.Continue, NilV);
      }
      assert SemV3.ForLoop(fuel, Ctx(), c, upd, body, s0) == SemV3.ForBody(fuel - 1, Ctx(), c, upd, body, State());
      done, o := ForIteration(fuel - 1, c, upd, body);
    }

    /** The body and the update of one iteration. */
    method ForIteration(fuel: nat, c: Expr, upd: Stmt, body: seq<Stmt>) returns (done: bool, o: SemV3.Outcome)
      modifies this`out, this`heap, env
      ensures done ==> (o, State()) == SemV3.ForBody(fuel, Ctx(), c, upd, body, old(State()))
      ensures !done ==> SemV3.ForLoop(fuel, Ctx(), c, upd, body, State()) ==
                        SemV3.ForBody(fuel, Ctx(), c, upd, body, old(State()))
      decreases fuel, 2
    {
      done := true;
      ghost var s0 := State();
      o := RunStatements(fuel, body);
      if o.Fatal? || o.status == SemV3.Returned {
        return;
      }
      assert SemV3.ForBody(fuel, Ctx(), c, upd, body, s0) == SemV3.ForUpdate(fuel, Ctx(), c, upd, body, State());
      o := RunStatement(fuel, upd);
      done := o.Fatal?;
    }
  }
}
