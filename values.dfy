/** Runtime values, their types and the interpreter's fatal error kinds,
    shared by the three interpreter versions. */
module Values {

  datatype Option<+T> = None | Some(value: T)

  /** A result or the fatal error that replaced it. */
  datatype Result<+T> = Ok(value: T) | Err(err: ErrorKind)

  /** The fatal errors that end a run. NameError, TypeError and FaultError are the
      kinds the interpreters report; HostCrash stands for a failure of the host
      language itself (a missing attribute, a missing dictionary key, an unbound
      local, a division by zero); OutOfFuel is the model's evaluation bound;
      Unmodelled marks reading console input, which the model leaves out. */
  datatype ErrorKind = NameError | TypeError | FaultError | HostCrash | OutOfFuel | Unmodelled

  /** A runtime datum. StructV only arises in the struct-aware version (v3): it
      names the struct type and the address of the shared instance. */
  datatype Value =
    | IntV(i: int)
    | BoolV(b: bool)
    | StrV(s: string)
    | NilV
    | StructV(typeName: string, addr: nat)

  /** The runtime type tag of a value. */
  datatype VType = TInt | TBool | TString | TNil | TStruct(name: string)

  const INT: string := "int"
  const BOOL: string := "bool"
  const STRING: string := "string"
  const NIL: string := "nil"
  const VOID: string := "void"

  function TypeOf(v: Value): (t: VType)
    ensures t.TStruct? <==> v.StructV?
  {
    match v
    case IntV(_) => TInt
    case BoolV(_) => TBool
    case StrV(_) => TString
    case NilV => TNil
    case StructV(n, _) => TStruct(n)
  }

  /** The name a type carries in declarations. */
  function TypeName(t: VType): string {
    match t
    case TInt => INT
    case TBool => BOOL
    case TString => STRING
    case TNil => NIL
    case TStruct(n) => n
  }

  /** The three declarable primitive types. */
  predicate IsPrimitive(t: string) {
    t == INT || t == BOOL || t == STRING
  }
}
