/** v3's struct declarations, typed default values, and the coercion rule
    that lets an Int stand where a Bool is expected (interpreterv3.py). */
module Structs {
  import opened Values
  import opened Ast

  /** Declared structs: struct name to (field name to declared type name). */
  type StructTable = map<string, map<string, string>>

  /** The fields of one declaration; a repeated field name keeps the type of
      its last occurrence. */
  function FieldTypes(fields: seq<Param>): (m: map<string, string>)
    ensures m.Keys == set k | 0 <= k < |fields| :: fields[k].name
    decreases |fields|
  {
    if fields == [] then map[]
    else
      var f := fields[|fields| - 1];
      FieldTypes(fields[..|fields| - 1])[f.name := f.varType]
  }

  /** The field map of one more field. */
  lemma FieldTypesSnoc(fields: seq<Param>, j: nat)
    requires j < |fields|
    ensures FieldTypes(fields[..j + 1]) == FieldTypes(fields[..j])[fields[j].name := fields[j].varType]
  {
    assert fields[..j + 1][..j] == fields[..j];
  }

  /** Every recorded type is the declared type of a field of that name. */
  lemma {:induction false} FieldTypesFrom(fields: seq<Param>, x: string)
    requires x in FieldTypes(fields)
    ensures exists q :: 0 <= q < |fields| && fields[q].name == x && FieldTypes(fields)[x] == fields[q].varType
    decreases |fields|
  {
    var n := |fields| - 1;
    if fields[n].name != x {
      FieldTypesFrom(fields[..n], x);
      var q :| 0 <= q < n && fields[..n][q].name == x && FieldTypes(fields[..n])[x] == fields[..n][q].varType;
      assert fields[q] == fields[..n][q];
    }
  }

  /** A field may be declared with a primitive type, a struct declared
      earlier, or the struct being declared. */
  predicate FieldTypeOk(known: set<string>, self: string, t: string) {
    IsPrimitive(t) || t in known || t == self
  }

  predicate FieldsOk(known: set<string>, d: StructDecl) {
    forall i :: 0 <= i < |d.fields| ==> FieldTypeOk(known, d.name, d.fields[i].varType)
  }

  /** __parse_structs (interpreterv3.py:40-59). A rejected declaration reaches
      the error report through the `super.error` typo and crashes the host:
      None stands for that crash. */
  function ParseStructs(decls: seq<StructDecl>): (r: Option<StructTable>)
    ensures r.Some? ==> r.value.Keys == NamesBefore(decls, |decls|)
    decreases |decls|
  {
    if decls == [] then Some(map[])
    else
      var n := |decls| - 1;
      var d := decls[n];
      match ParseStructs(decls[..n])
      case None => None
      case Some(m) =>
        NamesPrefix(decls, n);
        if d.name in m || !FieldsOk(m.Keys, d) then None
        else Some(m[d.name := FieldTypes(d.fields)])
  }

  /** Accepting one more declaration, as the loop of __parse_structs does. */
  lemma ParseStructsStep(decls: seq<StructDecl>, i: nat)
    requires i < |decls| && ParseStructs(decls[..i]).Some?
    ensures var m := ParseStructs(decls[..i]).value;
      var d := decls[i];
      ParseStructs(decls[..i + 1]) ==
        if d.name in m || !FieldsOk(m.Keys, d) then None else Some(m[d.name := FieldTypes(d.fields)])
  {
    assert decls[..i + 1][..i] == decls[..i];
  }

  /** The names declared before position k. */
  function NamesBefore(decls: seq<StructDecl>, k: nat): set<string>
    requires k <= |decls|
  {
    set j | 0 <= j < k :: decls[j].name
  }

  /** No struct name is declared twice. */
  predicate Distinct(decls: seq<StructDecl>) {
    forall j, k :: 0 <= j < k < |decls| ==> decls[j].name != decls[k].name
  }

  /** Every field type is a primitive, an earlier struct or the struct itself. */
  predicate WellTyped(decls: seq<StructDecl>) {
    forall k :: 0 <= k < |decls| ==> FieldsOk(NamesBefore(decls, k), decls[k])
  }

  lemma NamesPrefix(decls: seq<StructDecl>, n: nat)
    requires n < |decls|
    ensures forall k :: 0 <= k <= n ==> NamesBefore(decls[..n], k) == NamesBefore(decls, k)
    ensures NamesBefore(decls, n + 1) == NamesBefore(decls, n) + {decls[n].name}
  {
    forall k | 0 <= k <= n
      ensures NamesBefore(decls[..n], k) == NamesBefore(decls, k)
    {
      assert forall j :: 0 <= j < k ==> decls[..n][j] == decls[j];
    }
  }

  lemma DistinctStep(decls: seq<StructDecl>)
    requires decls != []
    ensures var n := |decls| - 1;
      Distinct(decls) <==> Distinct(decls[..n]) && decls[n].name !in NamesBefore(decls, n)
  {
    var n := |decls| - 1;
    var pre := decls[..n];
    assert forall k :: 0 <= k < n ==> decls[k] == pre[k];
    if Distinct(pre) && decls[n].name !in NamesBefore(decls, n) {
      forall j, k | 0 <= j < k < |decls| ensures decls[j].name != decls[k].name {
        if k == n {
          assert decls[j].name in NamesBefore(decls, n);
        } else {
          assert pre[j].name != pre[k].name;
        }
      }
    }
  }

  lemma WellTypedStep(decls: seq<StructDecl>)
    requires decls != []
    ensures var n := |decls| - 1;
      WellTyped(decls) <==> WellTyped(decls[..n]) && FieldsOk(NamesBefore(decls, n), decls[n])
  {
    var n := |decls| - 1;
    NamesPrefix(decls, n);
    assert forall k :: 0 <= k < n ==> decls[k] == decls[..n][k];
  }

  /** The declarations are accepted exactly when no name is declared twice and
      every field type is a primitive, an earlier struct or the struct itself. */
  lemma {:induction false} ParseStructsAccepts(decls: seq<StructDecl>)
    ensures ParseStructs(decls).Some? <==> Distinct(decls) && WellTyped(decls)
    decreases |decls|
  {
    if decls != [] {
      var n := |decls| - 1;
      ParseStructsAccepts(decls[..n]);
      DistinctStep(decls);
      WellTypedStep(decls);
      if ParseStructs(decls[..n]).Some? {
        var m := ParseStructs(decls[..n]).value;
        NamesPrefix(decls, n);
        assert m.Keys == NamesBefore(decls, n);
        assert ParseStructs(decls).Some? <==> decls[n].name !in m && FieldsOk(m.Keys, decls[n]);
      }
    }
  }

  /** Each accepted struct has exactly its declared fields and types. */
  lemma {:induction false} ParseStructsFields(decls: seq<StructDecl>, k: nat)
    requires k < |decls| && ParseStructs(decls).Some?
    ensures ParseStructs(decls).value[decls[k].name] == FieldTypes(decls[k].fields)
    decreases |decls|
  {
    var n := |decls| - 1;
    var pre := decls[..n];
    if k < n {
      ParseStructsFields(pre, k);
      assert decls[k] == pre[k];
      assert decls[k].name in ParseStructs(pre).value;
    }
  }

  /** A rejected declaration rejects the whole program: parsing stops at it. */
  lemma {:induction false} ParseStructsNone(decls: seq<StructDecl>, k: nat)
    requires k <= |decls| && ParseStructs(decls[..k]).None?
    ensures ParseStructs(decls).None?
    decreases |decls| - k
  {
    if k < |decls| {
      assert decls[..k + 1][..k] == decls[..k];
      ParseStructsNone(decls, k + 1);
    } else {
      assert decls[..k] == decls;
    }
  }

  /** get_default_value (interpreterv3.py:311-322). */
  function DefaultValue(structs: StructTable, t: string): (r: Result<Value>)
    ensures r.Ok? <==> IsPrimitive(t) || t in structs
    ensures t == INT ==> r == Ok(IntV(0))
    ensures t == BOOL ==> r == Ok(BoolV(false))
    ensures t == STRING ==> r == Ok(StrV(""))
    ensures !IsPrimitive(t) && t in structs ==> r == Ok(NilV)
    ensures r.Err? ==> r.err == TypeError
  {
    if t == INT then Ok(IntV(0))
    else if t == BOOL then Ok(BoolV(false))
    else if t == STRING then Ok(StrV(""))
    else if t in structs then Ok(NilV)
    else Err(TypeError)
  }

  /** __coerce_value (interpreterv3.py:172-182): an Int becomes the Bool
      `i != 0` where a Bool is wanted; otherwise the types must agree. */
  function Coerce(target: string, v: Value): (r: Result<Value>)
    ensures target == BOOL && v.IntV? ==> r == Ok(BoolV(v.i != 0))
    ensures TypeName(TypeOf(v)) == target ==> r == Ok(v)
    ensures !(target == BOOL && v.IntV?) && TypeName(TypeOf(v)) != target ==> r == Err(TypeError)
    ensures r.Ok? ==> TypeName(TypeOf(r.value)) == target
  {
    if target == BOOL && v.IntV? then Ok(BoolV(v.i != 0))
    else if target != TypeName(TypeOf(v)) then Err(TypeError)
    else Ok(v)
  }

  /** Coercing twice to the same type changes nothing more. */
  lemma CoerceIdempotent(target: string, v: Value)
    requires Coerce(target, v).Ok?
    ensures Coerce(target, Coerce(target, v).value) == Coerce(target, v)
  {
  }

  /** The truth value of an `if` or `for` condition: a Bool, or an Int
      coerced to one (interpreterv3.py:438-439, 462-463). */
  function Condition(v: Value): (r: Result<bool>)
    ensures r.Err? ==> r.err == TypeError
    ensures !v.StructV? ==> (r.Ok? <==> Coerce(BOOL, v).Ok?)
    ensures r.Ok? ==> Coerce(BOOL, v) == Ok(BoolV(r.value))
  {
    if v.BoolV? then Ok(v.b)
    else if v.IntV? then Ok(v.i != 0)
    else Err(TypeError)
  }

  /** The field values of a new instance of a declared struct: each field's
      default (interpreterv3.py:305-309); None when some field's type has no
      default. */
  function NewFields(structs: StructTable, fields: map<string, string>): (r: Option<map<string, Value>>)
    ensures r.Some? <==> forall f :: f in fields ==> DefaultValue(structs, fields[f]).Ok?
    ensures r.Some? ==> r.value.Keys == fields.Keys
    ensures r.Some? ==> forall f :: f in fields ==> r.value[f] == DefaultValue(structs, fields[f]).value
  {
    if forall f :: f in fields ==> DefaultValue(structs, fields[f]).Ok? then
      Some(map f | f in fields :: DefaultValue(structs, fields[f]).value)
    else None
  }

  /** The corrected argument binding: the value coerced to the formal's
      type, which must be a primitive or a declared struct
      (interpreterv3.py:139-153). */
  function BindArg(structs: StructTable, formalType: string, v: Value): (r: Result<Value>)
    ensures r.Ok? <==> (IsPrimitive(formalType) || formalType in structs) && Coerce(formalType, v).Ok?
    ensures r.Ok? ==> r.value == Coerce(formalType, v).value
    ensures r.Err? ==> r.err == TypeError
  {
    match Coerce(formalType, v)
    case Err(k) => Err(k)
    case Ok(w) => if formalType !in structs && !IsPrimitive(formalType) then Err(TypeError) else Ok(w)
  }

  /** The type an argument node declares: only a `new` node carries one. */
  function ActualType(e: Expr): Option<string> {
    if e.New? then Some(e.typeName) else None
  }

  /** The binding as written (interpreterv3.py:136-139): the value is first
      coerced to the type the argument node declares, which no node but `new`
      has. */
  function BindArgAsWritten(structs: StructTable, actual: Expr, formalType: string, v: Value): (r: Result<Value>)
    ensures !actual.New? ==> r == Err(TypeError)
    ensures actual.New? && v.StructV? && v.typeName == actual.typeName ==> r == BindArg(structs, formalType, v)
  {
    match ActualType(actual)
    case None => Err(TypeError)
    case Some(t) =>
      match Coerce(t, v)
      case Err(k) => Err(k)
      case Ok(w) => BindArg(structs, formalType, w)
  }

  /** The discrepancy: an Int literal passed to an `int` formal is rejected
      as written, and accepted by the corrected binding. */
  lemma ArgumentCoercionFinding(structs: StructTable)
    ensures BindArgAsWritten(structs, IntLit(5), INT, IntV(5)) == Err(TypeError)
    ensures BindArg(structs, INT, IntV(5)) == Ok(IntV(5))
  {
  }

  /** A primitive formal receives the coerced value itself; a struct formal
      receives the caller's reference, so both sides name the same instance. */
  lemma BindArgSharing(structs: StructTable, formalType: string, v: Value)
    requires BindArg(structs, formalType, v).Ok?
    ensures v.StructV? ==> BindArg(structs, formalType, v) == Ok(v) && formalType == v.typeName
    ensures formalType == BOOL && v.IntV? ==> BindArg(structs, formalType, v) == Ok(BoolV(v.i != 0))
  {
  }

  /** The value of a call (interpreterv3.py:160-170): no returned value gives
      the return type's default (nil for void); a returned value is coerced to
      the return type, so that void functions cannot return one. */
  function ReturnValue(structs: StructTable, retType: string, v: Value): (r: Result<Value>)
    ensures v == NilV && retType != VOID ==> r == DefaultValue(structs, retType)
    ensures r.Ok? && IsPrimitive(retType) ==> TypeName(TypeOf(r.value)) == retType
    ensures retType == VOID && !v.StructV? ==> (r.Ok? <==> v == NilV) && (r.Ok? ==> r.value == NilV)
    ensures v != NilV && v.IntV? && retType == BOOL ==> r == Ok(BoolV(v.i != 0))
  {
    if v == NilV && retType != VOID then DefaultValue(structs, retType)
    else if v == NilV then Ok(NilV)
    else Coerce(retType, v)
  }
}
