/** The abstract syntax tree the interpreters consume, as an external parser
    produces it. One tree serves all three versions; each version handles the
    node kinds its own dispatch knows. */
module Ast {
  import opened Values

  /** Binary operator node kinds. */
  datatype BinOp = Add | Sub | Mul | Div | Eq | Ne | Lt | Le | Gt | Ge | And | Or

  /** Unary operator node kinds: `neg` and `!`. */
  datatype UnOp = Neg | Not

  datatype Expr =
    | NilLit
    | IntLit(i: int)
    | StrLit(s: string)
    | BoolLit(b: bool)
    | Var(name: string)             // in v3 the name may be a dotted field path
    | Call(fname: string, args: seq<Expr>)
    | Bin(op: BinOp, l: Expr, r: Expr)
    | Unary(uop: UnOp, e: Expr)
    | New(typeName: string)         // v3 only

  datatype Catcher = Catcher(tag: string, body: seq<Stmt>)

  datatype Stmt =
    | CallStmt(fname: string, args: seq<Expr>)
    | Assign(name: string, e: Expr)
    | VarDef(name: string, varType: string)
    | Return(ret: Option<Expr>)
    | If(cond: Expr, thn: seq<Stmt>, els: Option<seq<Stmt>>)
    | For(init: Stmt, cond: Expr, update: Stmt, body: seq<Stmt>)
    | Raise(payload: Option<Expr>)  // v4 only
    | Try(body: seq<Stmt>, catchers: seq<Catcher>)  // v4 only

  datatype Param = Param(name: string, varType: string)

  datatype FuncDef = FuncDef(name: string, params: seq<Param>, body: seq<Stmt>, retType: string)

  datatype StructDecl = StructDecl(name: string, fields: seq<Param>)

  datatype Program = Program(structs: seq<StructDecl>, funcs: seq<FuncDef>)
}
