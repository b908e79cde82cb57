/** What interpreterv3.py promises about structs, coercion and control flow,
    stated over the SemV3 functions. */
module V3Properties {
  import opened Values
  import opened Ast
  import opened Ops
  import opened Env
  import opened Functions
  import opened Structs
  import opened Paths
  import opened SemV3

  /** A declaration whose fields name an unknown type, or a repeated struct
      name, stops the run before main: nothing is printed. */
  lemma RejectedStructsStopRun(fuel: nat, p: Program)
    requires !(Distinct(p.structs) && WellTyped(p.structs))
    ensures Run(fuel, p) == RunResult(Some(HostCrash), [])
  {
    ParseStructsAccepts(p.structs);
  }

  /** `new` of an accepted struct always succeeds: it appends one instance,
      leaves the existing ones alone, and gives it exactly the declared
      fields, each at the default of its declared type (0, false, "" or nil). */
  lemma NewDeclaredInstance(decls: seq<StructDecl>, k: nat, st: St)
    requires k < |decls| && ParseStructs(decls).Some?
    ensures var structs := ParseStructs(decls).value;
      var fields := FieldTypes(decls[k].fields);
      var (v, st') := NewInstance(structs, decls[k].name, st);
      v == Ok(StructV(decls[k].name, |st.heap|)) &&
      |st'.heap| == |st.heap| + 1 && st'.heap[..|st.heap|] == st.heap &&
      st'.heap[|st.heap|].Keys == fields.Keys &&
      forall f :: f in fields ==> DefaultValue(structs, fields[f]) == Ok(st'.heap[|st.heap|][f])
  {
    var structs := ParseStructs(decls).value;
    var d := decls[k];
    var fields := FieldTypes(d.fields);
    ParseStructsFields(decls, k);
    ParseStructsAccepts(decls);
    assert FieldsOk(NamesBefore(decls, k), d);
    assert NamesBefore(decls, k) <= structs.Keys;
    assert d.name in structs.Keys;
    forall f | f in fields
      ensures DefaultValue(structs, fields[f]).Ok?
    {
      FieldTypesFrom(d.fields, f);
      var q :| 0 <= q < |d.fields| && d.fields[q].name == f && fields[f] == d.fields[q].varType;
      assert FieldTypeOk(NamesBefore(decls, k), d.name, d.fields[q].varType);
    }
    var st' := NewInstance(structs, d.name, st).1;
    assert st'.heap[..|st.heap|] == st.heap;
  }

  /** Walking a path in two pieces is walking the first piece and then the
      second from where the first ended; a failure in the first piece ends
      the walk with its error. */
  lemma {:induction false} WalkAppend(heap: seq<map<string, Value>>, cur: Value, a: seq<string>, b: seq<string>)
    ensures Walk(heap, cur, a + b) ==
      match Walk(heap, cur, a)
      case Err(k) => Err(k)
      case Ok(w) => Walk(heap, w, b)
    decreases |a|
  {
    if a != [] {
      assert (a + b)[0] == a[0] && (a + b)[1..] == a[1..] + b;
      if cur.StructV? && cur.addr < |heap| && a[0] in heap[cur.addr] {
        WalkAppend(heap, heap[cur.addr][a[0]], a[1..], b);
      }
    } else {
      assert a + b == b;
    }
  }

  /** The fields of a path are taken in order, and the one that stops the
      walk decides the error: a value that is not a struct (nil, an Int, a
      Bool, a String) crashes the host, and a struct without the field is a
      NAME error. */
  lemma WalkStep(heap: seq<map<string, Value>>, cur: Value, fields: seq<string>, f: string)
    ensures Walk(heap, cur, fields + [f]) ==
      match Walk(heap, cur, fields)
      case Err(k) => Err(k)
      case Ok(w) =>
        if !w.StructV? || w.addr >= |heap| then Err(HostCrash)
        else if f !in heap[w.addr] then Err(NameError)
        else Ok(heap[w.addr][f])
  {
    WalkAppend(heap, cur, fields, [f]);
    if Walk(heap, cur, fields).Ok? {
      var w := Walk(heap, cur, fields).value;
      assert [f][1..] == [];
      assert Walk(heap, w, [f]) == if !w.StructV? || w.addr >= |heap| then Err(HostCrash)
        else if f !in heap[w.addr] then Err(NameError) else Walk(heap, heap[w.addr][f], []);
    }
  }

  /** A dotted path whose root is not a variable is a NAME error, for reads
      and writes alike; a root that is not a struct crashes the host. */
  lemma PathRootErrors(st: St, parts: seq<string>, v: Value)
    requires |parts| >= 2
    ensures Lookup(st.frames, parts[0]).None? ==>
      ReadPath(st, parts) == Err(NameError) && AssignPath(st, parts, v) == (Fatal(NameError), st)
    ensures (Lookup(st.frames, parts[0]).Some? && !Lookup(st.frames, parts[0]).value.StructV?) ==>
      ReadPath(st, parts) == Err(HostCrash) && AssignPath(st, parts, v) == (Fatal(HostCrash), st)
  {
    if Lookup(st.frames, parts[0]).Some? {
      var root := Lookup(st.frames, parts[0]).value;
      if !root.StructV? && |parts| > 2 {
        assert parts[1..|parts| - 1] != [];
      }
    }
  }

  /** An intermediate field of a dotted path, `parts[j]`, reached through
      `parts[1..j]` without error: when the value it is looked up in is not a
      struct the host crashes, and when that struct has no such field it is
      a NAME error, for reads and writes alike. */
  lemma PathIntermediateErrors(st: St, parts: seq<string>, j: nat, v: Value)
    requires 1 <= j < |parts| - 1
    requires Lookup(st.frames, parts[0]).Some?
    requires Walk(st.heap, Lookup(st.frames, parts[0]).value, parts[1..j]).Ok?
    ensures var w := Walk(st.heap, Lookup(st.frames, parts[0]).value, parts[1..j]).value;
      (!w.StructV? || w.addr >= |st.heap| ==>
         ReadPath(st, parts) == Err(HostCrash) && AssignPath(st, parts, v) == (Fatal(HostCrash), st)) &&
      (w.StructV? && w.addr < |st.heap| && parts[j] !in st.heap[w.addr] ==>
         ReadPath(st, parts) == Err(NameError) && AssignPath(st, parts, v) == (Fatal(NameError), st))
  {
    var root := Lookup(st.frames, parts[0]).value;
    var w := Walk(st.heap, root, parts[1..j]).value;
    assert parts[1..|parts| - 1] == parts[1..j] + parts[j..|parts| - 1];
    WalkAppend(st.heap, root, parts[1..j], parts[j..|parts| - 1]);
    assert parts[j..|parts| - 1][0] == parts[j];
  }

  /** A missing last field, in the struct the rest of the path leads to: a
      NAME error when the path has intermediate fields, a host crash for
      `x.f` alone (the report names a field that was never bound). */
  lemma MissingLastField(st: St, parts: seq<string>, v: Value)
    requires |parts| >= 2
    requires Lookup(st.frames, parts[0]).Some?
    requires var w := Walk(st.heap, Lookup(st.frames, parts[0]).value, parts[1..|parts| - 1]);
      w.Ok? && w.value.StructV? && w.value.addr < |st.heap| && parts[|parts| - 1] !in st.heap[w.value.addr]
    ensures var k := if |parts| == 2 then HostCrash else NameError;
      ReadPath(st, parts) == Err(k) && AssignPath(st, parts, v) == (Fatal(k), st)
  {
  }

  /** The smallest cases: `x.f` with f missing crashes, and `x.g.f` where
      `x.g` holds a struct without f is a NAME error. */
  lemma MissingFieldExamples(st: St, x: string, g: string, f: string, v: Value)
    requires Lookup(st.frames, x).Some? && Lookup(st.frames, x).value.StructV?
    requires var a := Lookup(st.frames, x).value.addr;
      a < |st.heap| && f !in st.heap[a] && g in st.heap[a] &&
      st.heap[a][g].StructV? && st.heap[a][g].addr < |st.heap| && f !in st.heap[st.heap[a][g].addr]
    ensures ReadPath(st, [x, f]) == Err(HostCrash)
    ensures AssignPath(st, [x, f], v) == (Fatal(HostCrash), st)
    ensures ReadPath(st, [x, g, f]) == Err(NameError)
    ensures AssignPath(st, [x, g, f], v) == (Fatal(NameError), st)
  {
    var root := Lookup(st.frames, x).value;
    assert [x, f][1..1] == [];
    MissingLastField(st, [x, f], v);
    assert [x, g, f][1..2] == [] + [g];
    WalkStep(st.heap, root, [], g);
    MissingLastField(st, [x, g, f], v);
  }

  /** A field write replaces one field of one instance and nothing else, and
      the field keeps its type: the new value has the type of the old one
      (an Int written to a Bool field becomes a Bool). */
  lemma FieldWriteKeepsType(st: St, parts: seq<string>, v: Value)
    requires |parts| >= 2
    requires AssignPath(st, parts, v).0.Out?
    ensures var a := PathTarget(st, parts).value;
      var f := parts[|parts| - 1];
      var st' := AssignPath(st, parts, v).1;
      st'.frames == st.frames && st'.out == st.out && |st'.heap| == |st.heap| &&
      (forall b :: 0 <= b < |st.heap| && b != a ==> st'.heap[b] == st.heap[b]) &&
      st'.heap[a].Keys == st.heap[a].Keys &&
      (forall g :: g in st.heap[a] && g != f ==> st'.heap[a][g] == st.heap[a][g]) &&
      TypeName(TypeOf(st'.heap[a][f])) == TypeName(TypeOf(st.heap[a][f])) &&
      (st.heap[a][f].BoolV? && v.IntV? ==> st'.heap[a][f] == BoolV(v.i != 0))
  {
  }

  /** Structs are shared, not copied: when two variables hold the same
      instance, a write through one is what a walk through the other finds,
      and writing through either gives the same state. */
  lemma AliasedWrite(st: St, x: string, y: string, f: string, v: Value)
    requires Lookup(st.frames, x).Some? && Lookup(st.frames, x) == Lookup(st.frames, y)
    requires AssignPath(st, [x, f], v).0.Out?
    ensures AssignPath(st, [y, f], v) == AssignPath(st, [x, f], v)
    ensures var st' := AssignPath(st, [x, f], v).1;
      var a := PathTarget(st, [x, f]).value;
      PathTarget(st', [y, f]) == Ok(a) && st'.heap[a][f] == Coerce(TypeName(TypeOf(st.heap[a][f])), v).value
  {
  }

  /** Both operands are evaluated before the operator is looked at: `&&`
      and `||` do not short-circuit, so an error in the right operand is the
      result even when the left one decides the value. */
  lemma NoShortCircuit(fuel: nat, cx: Ctx, op: BinOp, l: Expr, r: Expr, st: St, b: bool)
    requires fuel > 0 && (op == And || op == Or)
    requires EvalExpr(fuel - 1, cx, l, st).0 == Ok(BoolV(b))
    ensures var (rv, st2) := EvalExpr(fuel - 1, cx, r, EvalExpr(fuel - 1, cx, l, st).1);
      (rv.Err? ==> EvalOp(fuel, cx, op, l, r, st) == (rv, st2)) &&
      (rv.Ok? && rv.value.BoolV? ==>
        EvalOp(fuel, cx, op, l, r, st) == (Ok(BoolV(if op == And then b && rv.value.b else b || rv.value.b)), st2))
  {
  }

  /** Integer division by zero crashes the host (there are no exceptions in
      this version). */
  lemma DivByZeroCrashes(fuel: nat, cx: Ctx, l: Expr, r: Expr, st: St, a: int)
    requires fuel > 0
    requires EvalExpr(fuel - 1, cx, l, st).0 == Ok(IntV(a))
    requires EvalExpr(fuel - 1, cx, r, EvalExpr(fuel - 1, cx, l, st).1).0 == Ok(IntV(0))
    ensures EvalOp(fuel, cx, Div, l, r, st).0 == Err(HostCrash)
  {
  }

  /** An `if` condition may be an Int: the then-branch runs exactly when it
      is non-zero; any other non-Bool condition is a TYPE error. */
  lemma IfCoercesInt(fuel: nat, cx: Ctx, c: Expr, thn: seq<Stmt>, els: Option<seq<Stmt>>, st: St)
    requires fuel > 0
    ensures var (v, st1) := EvalExpr(fuel - 1, cx, c, st);
      var r := DoIf(fuel, cx, c, thn, els, st);
      (v.Ok? && v.value.IntV? && v.value.i != 0 ==> r == RunStatements(fuel - 1, cx, thn, st1)) &&
      (v.Ok? && v.value.IntV? && v.value.i == 0 && els.Some? ==> r == RunStatements(fuel - 1, cx, els.value, st1)) &&
      (v.Ok? && v.value.IntV? && v.value.i == 0 && els.None? ==> r == (Out(Continue, NilV), st1)) &&
      (v.Ok? && !v.value.IntV? && !v.value.BoolV? ==> r == (Fatal(TypeError), st1))
  {
  }

  /** The exits of one test of the loop condition: a condition that is false
      (or a zero Int) ends the loop normally, one that is not a Bool or an
      Int is a TYPE error, and a true one runs an iteration. */
  lemma ForLoopExits(fuel: nat, cx: Ctx, c: Expr, upd: Stmt, body: seq<Stmt>, st: St)
    requires fuel > 0
    ensures var (v, st1) := EvalExpr(fuel - 1, cx, c, st);
      var r := ForLoop(fuel, cx, c, upd, body, st);
      (v.Err? ==> r == (Fatal(v.err), st1)) &&
      (v.Ok? && Condition(v.value) == Ok(false) ==> r == (Out(Continue, NilV), st1)) &&
      (v.Ok? && Condition(v.value).Err? ==> r == (Fatal(TypeError), st1)) &&
      (v.Ok? && Condition(v.value) == Ok(true) ==> r == ForBody(fuel - 1, cx, c, upd, body, st1))
  {
  }

  /** The exits of one iteration: a RETURN from the body ends the loop with
      that value, and otherwise the update runs and the condition is tested
      again, with the same fuel. */
  lemma ForBodyExits(fuel: nat, cx: Ctx, c: Expr, upd: Stmt, body: seq<Stmt>, st: St)
    ensures var (bo, st1) := RunStatements(fuel, cx, body, st);
      var r := ForBody(fuel, cx, c, upd, body, st);
      (bo.Fatal? || bo.status == Returned ==> r == (bo, st1)) &&
      (bo.Out? && bo.status == Continue ==>
        var (uo, st2) := RunStatement(fuel, cx, upd, st1);
        (uo.Fatal? ==> r == (uo, st2)) &&
        (uo.Out? ==> r == ForLoop(fuel, cx, c, upd, body, st2)))
  {
  }

  /** `return e` with a primitive value evaluates `e` a second time and
      returns the second value, so effects of `e` happen twice. */
  lemma ReturnEvaluatesTwice(fuel: nat, cx: Ctx, e: Expr, st: St)
    requires fuel > 0
    ensures var (v, st1) := EvalExpr(fuel - 1, cx, e, st);
      var (v2, st2) := EvalExpr(fuel - 1, cx, e, st1);
      v.Ok? && (v.value.IntV? || v.value.BoolV? || v.value.StrV?) ==>
        DoReturn(fuel, cx, Some(e), st) == (if v2.Ok? then Out(Returned, v2.value) else Fatal(v2.err), st2)
  {
    var (v, st1) := EvalExpr(fuel - 1, cx, e, st);
    var (v2, st2) := EvalExpr(fuel - 1, cx, e, st1);
    if v.Ok? && (v.value.IntV? || v.value.BoolV? || v.value.StrV?) {
      assert DoReturn(fuel, cx, Some(e), st) == (if v2.Ok? then Out(Returned, v2.value) else Fatal(v2.err), st2);
    }
  }

  /** A struct or nil result of `return e` is an error, never a value. */
  lemma ReturnRejectsStructAndNil(fuel: nat, cx: Ctx, e: Expr, st: St)
    requires fuel > 0
    ensures var (v, st1) := EvalExpr(fuel - 1, cx, e, st);
      (v.Ok? && v.value.StructV? ==> DoReturn(fuel, cx, Some(e), st) == (Fatal(HostCrash), st1)) &&
      (v.Ok? && v.value == NilV ==> DoReturn(fuel, cx, Some(e), st) == (Fatal(TypeError), st1))
  {
  }

  /** The value of a call: a body that returns nothing gives the return
      type's default (nil for void), a returned value is coerced to the
      return type; the function frame is popped either way. */
  lemma CallResult(fuel: nat, cx: Ctx, fd: FuncDef, args: seq<Expr>, st: St)
    requires |fd.params| == |args|
    requires BindArgs(fuel, cx, fd.params, args, 0, map[], st).0.Ok?
    ensures var (bm, st1) := BindArgs(fuel, cx, fd.params, args, 0, map[], st);
      var (bo, st3) := RunStatements(fuel, cx, fd.body, st1.(frames := Declare(Push(st1.frames, true), bm.value)));
      var r := CallUser(fuel, cx, fd, args, st);
      bo.Out? ==>
        r.1 == st3.(frames := Pop(st3.frames)) &&
        SameShape(st.frames, Pop(st3.frames)) &&
        (bo.status == Continue && fd.retType != VOID ==> r.0 == DefaultValue(cx.structs, fd.retType)) &&
        (bo.status == Continue && fd.retType == VOID ==> r.0 == Ok(NilV)) &&
        (bo.val != NilV ==> r.0 == Coerce(fd.retType, bo.val))
  {
    BindArgsKept(fuel, cx, fd.params, args, 0, map[], st);
    var (bm, st1) := BindArgs(fuel, cx, fd.params, args, 0, map[], st);
    var st2 := st1.(frames := Declare(Push(st1.frames, true), bm.value));
    RunStatementsKept(fuel, cx, fd.body, st2);
    var (bo, st3) := RunStatements(fuel, cx, fd.body, st2);
    if bo.Out? {
      TopGrownTrans(Push(st1.frames, true), st2.frames, st3.frames);
      PopAfterPush(st1.frames, true, st3.frames);
      SameShapeTrans(st.frames, st1.frames, Pop(st3.frames));
    }
  }

}
