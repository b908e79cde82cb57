/** The operator tables: for each runtime type, the binary operators it
    supports and what they compute. The tables of v3 and v4 are identical
    (interpreterv4.py:327-394, interpreterv3.py:366-433); v2 registers the same
    binary entries (interpreterv2.py:285-370) and in addition keeps the unary
    operators in the same table. */
module Ops {
  import opened Values
  import opened Ast

  /** The operators registered for a type; None where the type has no table
      at all (a struct type), so that indexing the table fails in the host. */
  function BinTable(t: VType): (r: Option<set<BinOp>>)
    ensures r.None? <==> t.TStruct?
    ensures r.Some? ==> Eq in r.value && Ne in r.value
    ensures r.Some? && (Lt in r.value || Sub in r.value) ==> t == TInt
  {
    match t
    case TInt => Some({Add, Sub, Mul, Div, Eq, Ne, Lt, Le, Gt, Ge})
    case TString => Some({Add, Eq, Ne})
    case TBool => Some({And, Or, Eq, Ne})
    case TNil => Some({Eq, Ne})
    case TStruct(_) => None
  }

  /** `==` and `!=` accept operands of any two types; every other operator
      needs both operands to have the same type. */
  predicate Compatible(op: BinOp, l: Value, r: Value) {
    op == Eq || op == Ne || TypeOf(l) == TypeOf(r)
  }

  /** The operator is registered for the left operand's type. */
  predicate InTable(op: BinOp, l: Value) {
    BinTable(TypeOf(l)).Some? && op in BinTable(TypeOf(l)).value
  }

  /** Integer division as the host's `//`: the quotient rounded toward
      negative infinity. Dafny's own `/` is Euclidean and differs from it when
      the divisor is negative. */
  function FloorDiv(a: int, b: int): (q: int)
    requires b != 0
    ensures b > 0 ==> b * q <= a < b * q + b
    ensures b < 0 ==> b * q + b < a <= b * q
  {
    if b > 0 then a / b
    else
      var c := -b;
      var q := (-a) / c;
      assert -a == c * q + (-a) % c;
      assert b * q == -(c * q);
      q
  }

  /** The floor quotient is the only integer within those bounds. */
  lemma FloorDivUnique(a: int, b: int, q: int)
    requires b != 0
    requires (b > 0 && b * q <= a < b * q + b) || (b < 0 && b * q + b < a <= b * q)
    ensures q == FloorDiv(a, b)
  {
    var f := FloorDiv(a, b);
    if b > 0 {
      if q < f {
        MulMono(b, q + 1, f);
      } else if q > f {
        MulMono(b, f + 1, q);
      }
    } else {
      if q < f {
        MulMono(-b, q + 1, f);
      } else if q > f {
        MulMono(-b, f + 1, q);
      }
    }
  }

  lemma MulMono(c: int, x: int, y: int)
    requires c > 0 && x <= y
    ensures c * x <= c * y
  {
    assert c * y - c * x == c * (y - x);
  }

  /** The result of a binary operator the table admits. `==` is true exactly
      when both operands have the same type and payload; `!=` is its negation. */
  function Apply(op: BinOp, l: Value, r: Value): (v: Value)
    requires InTable(op, l) && Compatible(op, l, r)
    requires op == Div ==> r != IntV(0)
    ensures op == Eq ==> v == BoolV(l == r)
    ensures op == Ne ==> v == BoolV(l != r)
    ensures op in {Add, Sub, Mul, Div} && l.IntV? ==> v.IntV?
    ensures op in {Lt, Le, Gt, Ge, And, Or, Eq, Ne} ==> v.BoolV?
    ensures op == Add && l.StrV? ==> v == StrV(l.s + r.s)
    ensures op == Div ==> v == IntV(FloorDiv(l.i, r.i))
  {
    match op
    case Add => if l.IntV? then IntV(l.i + r.i) else StrV(l.s + r.s)
    case Sub => IntV(l.i - r.i)
    case Mul => IntV(l.i * r.i)
    case Div => IntV(FloorDiv(l.i, r.i))
    case Lt => BoolV(l.i < r.i)
    case Le => BoolV(l.i <= r.i)
    case Gt => BoolV(l.i > r.i)
    case Ge => BoolV(l.i >= r.i)
    case And => BoolV(l.b && r.b)
    case Or => BoolV(l.b || r.b)
    case Eq => BoolV(l == r)
    case Ne => BoolV(l != r)
  }

  /** The unary operators registered per type in v2's table
      (interpreterv2.py:303-305, 336-338): `neg` for Int, `!` for Bool. */
  function UnaryTable(t: VType): (r: Option<set<UnOp>>)
    ensures r.None? <==> t.TStruct?
    ensures r.Some? ==> (Neg in r.value <==> t == TInt) && (Not in r.value <==> t == TBool)
  {
    match t
    case TInt => Some({Neg})
    case TBool => Some({Not})
    case TString => Some({})
    case TNil => Some({})
    case TStruct(_) => None
  }

  /** The operand type each unary operator demands. */
  function UnaryOperandType(u: UnOp): VType {
    match u
    case Neg => TInt
    case Not => TBool
  }

  /** `neg` multiplies by -1, `!` negates. */
  function ApplyUnary(u: UnOp, v: Value): (w: Value)
    requires TypeOf(v) == UnaryOperandType(u)
    ensures TypeOf(w) == TypeOf(v)
    ensures u == Neg ==> w.i + v.i == 0
    ensures u == Not ==> w.b == !v.b
  {
    match u
    case Neg => IntV(-1 * v.i)
    case Not => BoolV(!v.b)
  }
}
