# A verified model of three Brewin interpreter versions

The repository holds successive versions of a tree-walking interpreter for
Brewin, a small dynamically typed imperative language. Each version walks a
parsed program and runs it. Statements return a status (continue, return
and, in the last version, exception) together with a value, and a failed
check stops the run with an error kind: NAME, TYPE or FAULT.

This project models the evaluator core of three of them:

- **interpreterv4.py** has exceptions. `raise` and `try`/`catch` match by
  string tag. Integer division by zero raises `"div0"`. `&&` and `||`
  short-circuit. An exception that escapes `main` is a FAULT error. A call
  statement passes the callee's RETURN status on to its caller.
- **interpreterv3.py** has struct declarations and `new`, typed variables
  with default values, and Int→Bool coercion. Dotted field paths can be
  assigned and read. A struct argument is meant to alias the caller's
  instance and a primitive one to be copied; as written, though, every
  argument that is not a `new` expression is a TYPE error (see
  "## Findings"), and the model binds arguments by the corrected rule. A
  function without a `return` yields its return type's default value.
- **interpreterv2.py** has an explicit scope list. Each scope carries an
  `isFunction` flag, and a lookup walks the scopes from the innermost one
  and stops at the nearest function scope. Comparison and arithmetic are
  evaluated separately, and the function table is keyed by (name, arity).

## How the model is built

- **Shared modules.**
  - `Values`: the runtime values and error kinds.
  - `Ast`: one syntax tree for all three versions.
  - `Ops`: the operator table of `__setup_ops`, with integer `/` as the
    host's floor division.
  - `Env`: the frame stack with function-boundary lookup, as a set of
    functions plus an `Environment` class whose methods are proved equal to
    them.
  - `Functions`: the (name, arity) function table.
  - `Structs`: struct declarations, defaults and coercion.
  - `Paths`: splitting a dotted name into its parts.
- **Per version.**
  - `SemV4`, `SemV3` and `SemV2` are big-step semantics written as
    functions. Each takes the interpreter state and returns an outcome
    together with the new state. What every evaluation leaves of the
    state is proved by one lemma per function, named after it with
    `Kept`: output is only appended and, unless the evaluation fails, no
    frame is added or removed and only the innermost frame may gain names.
    In v3 the `for` loop is split into the condition test (`ForLoop`), the
    body (`ForBody`) and the update (`ForUpdate`), a call into the
    builtin dispatch (`CallFunc`) and the call of a user function
    (`CallUser`), and a binary operator into the left operand (`EvalOp`)
    and the right one with the operator (`EvalRight`).
  - `InterpreterV4`, `InterpreterV3` and `InterpreterV2` are classes. Their
    fields are what the source updates in place: the environment or scope
    list, the console output and, in v3, the struct table and the heap of
    struct instances. The source's statement loops, `for` loops, argument
    loops and scope scan are written as loops in methods. Each method is
    proved to produce exactly the outcome and new state of its semantic
    function.
  - `V4Properties`, `V3Properties` and `V2Properties` hold the properties
    the source promises, proved about those functions.
- **Crashes and I/O.**
  - A Python crash inside the interpreter is the error kind `HostCrash`.
    This covers AttributeError, KeyError, ZeroDivisionError, unbound locals
    and the `super.error` typo.
  - The console is a sequence of printed lines, each kept as the list of
    values printed.
  - Reading input is the error kind `Unmodelled`, after the prompt
    argument has been checked.
- **Fuel.** Every evaluation function takes a fuel argument, so that
  non-terminating programs are given a meaning. Running out of fuel is the
  error kind `OutOfFuel`.

## Model

| member | source | states |
|---|---|---|
| Ops.BinTable | interpreterv4.py:327-395 | Every primitive type has `==` and `!=`, structs have no table, and only Int has the ordering and `-` operators |
| Ops.FloorDiv | interpreterv4.py:340-342 | Integer `/` rounds toward negative infinity: `b*q <= a < b*q + b` for a positive divisor, and the mirror inequalities for a negative one |
| Ops.FloorDivUnique | interpreterv4.py:340-342 | Any quotient that meets the floor-division inequalities is FloorDiv, so the definition is the host's `//` |
| Ops.Apply | interpreterv4.py:327-395 | On a registered operator: `==`/`!=` compare values, arithmetic on Int is Int, comparisons are Bool, `+` on strings concatenates, and `/` is floor division |
| Ops.UnaryTable | interpreterv4.py:315-325 | `neg` is registered exactly for Int and `!` exactly for Bool |
| Ops.ApplyUnary | interpreterv4.py:315-325 | `neg` negates an Int and `!` negates a Bool, keeping the operand's type |
| Env.Base | interpreterv4.py:147-183 | The lowest visible frame is the innermost function frame, with no function frame above it |
| Env.FindFrom | interpreterv2.py:187-199 | A found frame holds the name, and every frame above it neither holds the name nor is a function frame; not found means no frame down to the function boundary holds it |
| Env.FindSpec | interpreterv4.py:229-240 | The frame a variable read uses is the innermost one, within the current function, that holds the name; a read fails exactly when no such frame exists |
| Env.Lookup | interpreterv4.py:233-238 | A read succeeds exactly when Find does, and yields that frame's value |
| Env.CreateVar | interpreterv4.py:222-227 | A definition fails exactly when there is no frame or the innermost frame already holds the name |
| Env.SetVar | interpreterv4.py:211-220 | An assignment fails exactly when the name is not visible |
| Env.Declare | interpreterv4.py:171-174 | Binding the formals adds exactly their names to the new function frame, with their values, and leaves the frames below untouched |
| Env.Push | interpreterv4.py:66 | Pushing a frame keeps every existing frame |
| Env.Pop | interpreterv4.py:73-76 | Popping drops exactly the innermost frame |
| Env.SameShapeTrans | interpreterv4.py:65-77 | Keeping the frame shape composes over successive statements |
| Env.TopGrownTrans | interpreterv4.py:65-77 | Growing only the innermost frame composes |
| Env.PopAfterPush | interpreterv4.py:66-77 | A push, statements that only add names to the pushed frame, and a pop restore the shape of the frames |
| Env.SetVarSpec | interpreterv4.py:211-220 | After an assignment the shape of the frames is the same and the name reads back as the new value |
| Env.CreateSpec | interpreterv4.py:222-227 | After a definition only the innermost frame has grown and the name reads back as its value |
| Env.BaseShape | interpreterv4.py:229-240 | Frames of the same shape have the same function boundary |
| Env.Environment.PushBlock | interpreterv4.py:66 | A block frame is pushed |
| Env.Environment.PushFunc | interpreterv4.py:171 | A function frame is pushed |
| Env.Environment.PopBlock | interpreterv4.py:73-76 | The innermost frame is popped |
| Env.Environment.PopFunc | interpreterv4.py:180 | The function frame is popped |
| Env.Environment.CreateAll | interpreterv4.py:172-174 | The loop that creates each formal in the new frame yields Declare |
| Env.Environment.Get | interpreterv4.py:233-238 | The backward scan over the frames yields Lookup |
| Env.Environment.Create | interpreterv4.py:222-227 | Succeeds exactly when CreateVar does, and the frames become its result |
| Env.Environment.Set | interpreterv4.py:211-220 | Succeeds exactly when SetVar does, and the frames become its result |
| Functions.BuildFuncTable | interpreterv4.py:45-52 | The loop over the function definitions builds the table TableOf |
| Functions.ResolveSpec | interpreterv2.py:36-44 | A (name, arity) key is missing exactly when no definition has that name and arity; otherwise it resolves to the last such definition |
| Functions.TableKeys | interpreterv4.py:54-63 | A definition found under (name, arity) has that name and that many parameters |
| Paths.Split | interpreterv3.py:209-211 | Splitting at `.` gives at least one part, no part contains a dot, and an undotted name is its own single part |
| Paths.JoinSplit | interpreterv3.py:209-211 | Joining the parts with dots gives back the name |
| Paths.SplitDotted | interpreterv3.py:209-210 | A name takes the dotted path exactly when it contains a dot, that is, when it splits into two or more parts |
| Paths.SplitJoin | interpreterv3.py:209-211 | Splitting dot-joined dot-free parts gives back the parts |
| Structs.FieldTypes | interpreterv3.py:48-58 | The field map holds exactly the declared field names |
| Structs.FieldTypesFrom | interpreterv3.py:48-58 | Each field's recorded type is the type of a field declared under that name |
| Structs.FieldTypesSnoc | interpreterv3.py:48-58 | One more field in the loop adds exactly that field's name and type to the map |
| Structs.ParseStructs | interpreterv3.py:40-59 | An accepted declaration list registers exactly the declared struct names |
| Structs.NamesPrefix | interpreterv3.py:40-59 | The names registered before a declaration are the same names as in any longer list |
| Structs.DistinctStep | interpreterv3.py:43-47 | One more declaration keeps the names distinct exactly when its name is not yet registered |
| Structs.WellTypedStep | interpreterv3.py:50-57 | One more declaration keeps the list well typed exactly when its field types are known |
| Structs.ParseStructsAccepts | interpreterv3.py:40-59 | Declarations are accepted exactly when the names are distinct and every field type is a primitive, an earlier struct or the struct itself |
| Structs.ParseStructsFields | interpreterv3.py:48-59 | Each accepted struct is registered with its own field-type map |
| Structs.ParseStructsNone | interpreterv3.py:40-59 | Once a prefix is rejected, the whole list is rejected |
| Structs.ParseStructsStep | interpreterv3.py:40-59 | One more declaration is accepted exactly when its name is new and its field types are known, and it adds that struct's field map |
| Structs.DefaultValue | interpreterv3.py:311-322 | int gives 0, bool gives false and string gives ""; a declared struct gives nil; anything else is a TYPE error |
| Structs.Coerce | interpreterv3.py:172-182 | Int→Bool maps 0 to false and any other value to true; a value already of the target type is unchanged; every other mismatch is a TYPE error |
| Structs.CoerceIdempotent | interpreterv3.py:172-182 | Coercing a coerced value again changes nothing |
| Structs.Condition | interpreterv3.py:435-445 | A condition is accepted exactly when it coerces to Bool, with that Bool's truth; otherwise it is a TYPE error |
| Structs.NewFields | interpreterv3.py:299-309 | A new instance has exactly the declared fields, each at its type's default, or fails when a default fails |
| Structs.BindArg | interpreterv3.py:139-151 | An argument binds exactly when the formal type is a primitive or a declared struct and the value coerces to it; the bound value is the coerced one |
| Structs.BindArgAsWritten | interpreterv3.py:134-139 | As written, an argument that is not a `new` expression is a TYPE error |
| Structs.ArgumentCoercionFinding | interpreterv3.py:134-139 | The literal 5 passed to an int formal fails as written but binds to 5 after the correction |
| Structs.BindArgSharing | interpreterv3.py:141-151 | A struct argument is bound as the same reference, so it aliases the caller's instance; an Int passed to a bool formal becomes a Bool |
| Structs.ReturnValue | interpreterv3.py:161-170 | Nil with a non-void return type gives that type's default; void returns nil; a result of a primitive return type has that type; an Int returned as bool is coerced |
| SemV4.BinaryV4 | interpreterv4.py:292-307 | `==`/`!=` across types give false/true; any other operator across types, or one missing from the table, is a TYPE error; an Int divided by 0 raises `"div0"`; an operator raises nothing else |
| SemV4.EvalExpr | interpreterv4.py:229-252 | Definition, no contract of its own: literals, a variable read within the current function (a NAME error when not visible), calls and operators; its properties are SemV4.EvalExprKept and the V4Properties lemmas |
| SemV4.EvalOp | interpreterv4.py:254-307 | Definition: left operand, the short circuit of `&&`/`\|\|` on a Bool left value (a non-Bool is a TYPE error), right operand, then BinaryV4; an exception from an operand propagates |
| SemV4.EvalUnary | interpreterv4.py:315-325 | Definition: the operand, then `neg` on Int or `!` on Bool; any other operand type is a TYPE error |
| SemV4.EvalArgs | interpreterv4.py:160-166 | Definition: the actuals in order, in the caller's frames, each bound to its formal; a fatal error or an exception stops the loop |
| SemV4.CallFunc | interpreterv4.py:147-183 | Definition: print and input first, then the user function with that name and arity (a NAME error when none), its arguments, a new function frame with the formals, the body, and the pop; the body's status is returned as it is |
| SemV4.CallPrint | interpreterv4.py:185-193 | Definition: one output line made of the evaluated arguments; an exception in an argument stops it |
| SemV4.CallInput | interpreterv4.py:195-209 | Definition: the prompt is evaluated and printed, two or more arguments are a NAME error; the read is Unmodelled |
| SemV4.RunStatements | interpreterv4.py:65-77 | Definition: the list in a new block frame, popped unless a fatal error ends it |
| SemV4.RunStatement | interpreterv4.py:79-105 | Definition: dispatch on the statement kind |
| SemV4.DoAssign | interpreterv4.py:211-220 | Definition: the value, then the assignment in the frame the name resolves to; a name not visible is a NAME error |
| SemV4.DoReturn | interpreterv4.py:451-458 | Definition: RETURN with nil or the value of the expression; an exception from the expression propagates |
| SemV4.DoRaise | interpreterv4.py:124-140 | Definition: EXCEPTION with nil, or with a String payload; another payload is a TYPE error |
| SemV4.DoIf | interpreterv4.py:397-418 | Definition: the condition once, then the branch it picks; its properties are V4Properties.IfCondition and SemV4.DoIfKept |
| SemV4.DoFor | interpreterv4.py:420-426 | Definition: the init once, then the loop; an exception from the init propagates |
| SemV4.ForLoop | interpreterv4.py:427-449 | Definition: the condition test and, while it is true, the body and the update; its properties are V4Properties.ForLoopExits and ForLoopResult |
| SemV4.TryBlock | interpreterv4.py:107-121 | Definition: the body, then the first catcher whose tag matches an exception; its property is V4Properties.TrySemantics |
| SemV4.Run | interpreterv4.py:34-43 | Definition: main is called with no arguments in no frames; its result is the error kind, or FAULT for an escaping exception, and the output |
| SemV4.EvalExprKept | interpreterv4.py:229-252 | An expression only appends output, and keeps the frame shape unless it fails |
| SemV4.EvalOpKept | interpreterv4.py:254-307 | Likewise for binary operators |
| SemV4.EvalUnaryKept | interpreterv4.py:315-325 | Likewise for unary operators |
| SemV4.EvalArgsKept | interpreterv4.py:160-166 | Argument evaluation only appends output, and keeps the frame shape unless it fails |
| SemV4.CallFuncKept | interpreterv4.py:147-183 | A call only appends output, and restores the frame shape unless it fails |
| SemV4.CallPrintKept | interpreterv4.py:185-193 | print only appends output and leaves the frames as they were |
| SemV4.CallInputKept | interpreterv4.py:195-209 | input only appends output, and keeps the frame shape when its prompt raises |
| SemV4.RunStatementsKept | interpreterv4.py:65-77 | A statement list only appends output, and restores the frame shape unless it fails |
| SemV4.RunSeq | interpreterv4.py:67-77 | Running the rest of a list completes normally only with nil |
| SemV4.RunSeqKept | interpreterv4.py:67-77 | Running the rest of a list grows only the block frame |
| SemV4.RunStatementKept | interpreterv4.py:79-105 | A statement grows at most the innermost frame |
| SemV4.DoAssignKept | interpreterv4.py:211-220 | An assignment keeps the frame shape |
| SemV4.DoVarDef | interpreterv4.py:222-227 | A definition succeeds exactly when the name is new in the innermost frame, and then reads as nil; otherwise it is a NAME error |
| SemV4.DoVarDefKept | interpreterv4.py:222-227 | A definition grows only the innermost frame |
| SemV4.DoReturnKept | interpreterv4.py:451-458 | `return` keeps the frame shape |
| SemV4.DoRaiseKept | interpreterv4.py:124-140 | `raise` keeps the frame shape |
| SemV4.DoIfKept | interpreterv4.py:397-418 | `if` keeps the frame shape |
| SemV4.DoForKept | interpreterv4.py:420-449 | `for` grows at most the innermost frame, through its init |
| SemV4.ForLoopKept | interpreterv4.py:427-449 | The loop grows at most the innermost frame |
| SemV4.FindCatcher | interpreterv4.py:111-116 | The chosen catcher is the first whose tag equals the exception's string; there is none exactly when no tag matches |
| SemV4.TryBlockKept | interpreterv4.py:107-121 | `try` keeps the frame shape |
| InterpreterV4.Interpreter.constructor | interpreterv4.py:26-29 | A new interpreter has no functions, no frames and no output |
| InterpreterV4.Interpreter.Run | interpreterv4.py:34-43 | Running a program yields SemV4.Run |
| InterpreterV4.Interpreter.EvalExpr | interpreterv4.py:229-252 | The outcome and new state are those of SemV4.EvalExpr |
| InterpreterV4.Interpreter.EvalOp | interpreterv4.py:254-307 | The outcome and new state are those of SemV4.EvalOp |
| InterpreterV4.Interpreter.EvalUnary | interpreterv4.py:315-325 | The outcome and new state are those of SemV4.EvalUnary |
| InterpreterV4.Interpreter.CallFunc | interpreterv4.py:147-183 | The argument loop, push, creation of the formals, body and pop yield SemV4.CallFunc |
| InterpreterV4.Interpreter.CallPrint | interpreterv4.py:185-193 | The loop over the arguments yields SemV4.CallPrint |
| InterpreterV4.Interpreter.CallInput | interpreterv4.py:195-209 | The outcome and new state are those of SemV4.CallInput |
| InterpreterV4.Interpreter.RunStatements | interpreterv4.py:65-77 | The statement loop with its block push and pop yields SemV4.RunStatements |
| InterpreterV4.Interpreter.RunStatement | interpreterv4.py:79-105 | The outcome and new state are those of SemV4.RunStatement |
| InterpreterV4.Interpreter.DoAssign | interpreterv4.py:211-220 | The outcome and new state are those of SemV4.DoAssign |
| InterpreterV4.Interpreter.DoVarDef | interpreterv4.py:222-227 | The outcome and new state are those of SemV4.DoVarDef |
| InterpreterV4.Interpreter.DoReturn | interpreterv4.py:451-458 | The outcome and new state are those of SemV4.DoReturn |
| InterpreterV4.Interpreter.DoRaise | interpreterv4.py:124-140 | The outcome and new state are those of SemV4.DoRaise |
| InterpreterV4.Interpreter.DoIf | interpreterv4.py:397-418 | The outcome and new state are those of SemV4.DoIf |
| InterpreterV4.Interpreter.DoFor | interpreterv4.py:420-449 | The outcome and new state are those of SemV4.DoFor |
| InterpreterV4.Interpreter.ForLoop | interpreterv4.py:427-449 | The `while` loop yields SemV4.ForLoop |
| InterpreterV4.Interpreter.TryBlock | interpreterv4.py:107-121 | The catcher scan yields SemV4.TryBlock |
| V4Properties.DivByZeroRaises | interpreterv4.py:292-306 | An Int divided by Int 0 is the exception `"div0"`, not a fatal error |
| V4Properties.ShortCircuit | interpreterv4.py:266-286 | `&&` with a false left operand and `\|\|` with a true one give that value without evaluating the right operand, whatever it is |
| V4Properties.LogicalNeedsBool | interpreterv4.py:266-286 | A non-Bool left operand of `&&` or `\|\|` is a TYPE error |
| V4Properties.RunSeqAppend | interpreterv4.py:67-77 | Running two lists in sequence is running the first and then, if it completed normally, the second |
| V4Properties.RunSeqShift | interpreterv4.py:67-77 | Running from a position in an appended list is running from that position in the second list |
| V4Properties.BlockBalanced | interpreterv4.py:65-77 | A statement list restores the frame depth on both exits, and a normal completion carries nil |
| V4Properties.StopsAtFirstExit | interpreterv4.py:70-74 | A statement that returns or raises ends the list with its own outcome |
| V4Properties.IfCondition | interpreterv4.py:397-418 | An exception from the condition propagates; a non-Bool condition is a TYPE error; true runs the then-branch, false the else-branch or nothing |
| V4Properties.CallStatementLeaksReturn | interpreterv4.py:85-86 | A call statement whose callee returned makes the enclosing list return with that value |
| V4Properties.ForLoopExits | interpreterv4.py:425-447 | The loop ends on an exception from the condition, on false, or on a RETURN or EXCEPTION from the body or update; a non-Bool condition is a TYPE error; otherwise it runs the update and repeats |
| V4Properties.ForLoopResult | interpreterv4.py:420-449 | A loop that completes normally yields nil |
| V4Properties.ForInitRaises | interpreterv4.py:420-426 | An exception from the init ends the `for` with that exception |
| V4Properties.TrySemantics | interpreterv4.py:107-121 | The first catcher matching the exception's string runs and its outcome is the result; an unmatched exception, a CONTINUE and a RETURN pass through unchanged |
| V4Properties.RaiseNil | interpreterv4.py:127-130 | `raise` with no expression raises nil, which no catcher matches |
| V4Properties.RaisePayload | interpreterv4.py:131-140 | A String payload is raised as is; any other payload is a TYPE error |
| V4Properties.CallArgumentRaises | interpreterv4.py:160-166 | An exception in an argument is returned before any function frame is pushed |
| V4Properties.CallReturnsBodyOutcome | interpreterv4.py:168-181 | Otherwise the body's outcome is returned unchanged, and the function frame is popped |
| V4Properties.UncaughtIsFault | interpreterv4.py:38-43 | A run ends in a FAULT error exactly when main completes with an exception |
| SemV3.BinaryV3 | interpreterv3.py:324-347 | `==`/`!=` compare values; a mismatch with a Bool or Int left operand crashes the host, any other mismatch is a TYPE error; an operator missing from the table is a TYPE error; Int division by 0 crashes; `/` is floor division |
| SemV3.Walk | interpreterv3.py:213-229 | Walking a field path fails only with a NAME error or a host crash: looking a field up in a value that is not a struct (nil, Int, Bool, String) crashes, and in a struct without that field is a NAME error |
| SemV3.PathTarget | interpreterv3.py:206-232 | A reached instance exists on the heap and holds the final field; failures are NAME errors or host crashes |
| SemV3.ReadPath | interpreterv3.py:268-283 | A dotted read never yields a value, and fails like the path walk when the walk fails |
| SemV3.AssignPath | interpreterv3.py:206-239 | A dotted assignment changes neither the variables nor the output nor the number of instances; on failure it changes nothing |
| SemV3.NewInstance | interpreterv3.py:299-309 | `new S` succeeds exactly for a declared S whose field defaults all exist; the result is a fresh reference to a new instance holding those defaults; an undeclared S is a TYPE error |
| SemV3.EvalExpr | interpreterv3.py:249-297 | Definition, no contract of its own: literals, plain and dotted variable reads, calls, operators and `new`; its properties are SemV3.EvalExprKept and the V3Properties lemmas |
| SemV3.EvalOp | interpreterv3.py:324-347 | Definition: the left operand, then EvalRight; its properties are V3Properties.NoShortCircuit and DivByZeroCrashes |
| SemV3.EvalRight | interpreterv3.py:326-347 | Definition: the right operand, then BinaryV3 on both values |
| SemV3.EvalUnary | interpreterv3.py:355-364 | Definition: the operand, then `neg` on Int or `!` on Bool; any other operand type is a TYPE error |
| SemV3.BindArgs | interpreterv3.py:134-153 | Definition: each actual in the caller's frames, coerced by BindArg to its formal's type |
| SemV3.CallFunc | interpreterv3.py:117-170 | Definition: print and input first, then the user function with that name and arity, or a NAME error |
| SemV3.CallUser | interpreterv3.py:124-170 | Definition: arity check, binding, the body in a new function frame, the pop, and the return value checked against the return type; its property is V3Properties.CallResult |
| SemV3.CallPrint | interpreterv3.py:184-190 | Definition: one output line made of the evaluated arguments |
| SemV3.DoReturn | interpreterv3.py:474-485 | Definition: a struct result crashes, nil is a TYPE error, and a primitive result is evaluated again and returned; its properties are V3Properties.ReturnEvaluatesTwice and ReturnRejectsStructAndNil |
| SemV3.Run | interpreterv3.py:33-38 | Definition: the struct declarations (a crash with no output when rejected), the function table, then main; its property is V3Properties.RejectedStructsStopRun |
| SemV3.EvalExprKept | interpreterv3.py:249-297 | An expression only appends output and instances, and keeps the frame shape unless it fails |
| SemV3.EvalOpKept | interpreterv3.py:324-347 | Likewise for binary operators |
| SemV3.EvalRightKept | interpreterv3.py:326-347 | Likewise for the right operand and the operator |
| SemV3.EvalUnaryKept | interpreterv3.py:355-364 | Likewise for unary operators |
| SemV3.BindArgsKept | interpreterv3.py:134-153 | Argument binding only appends output and instances, and keeps the frame shape unless it fails |
| SemV3.CallFuncKept | interpreterv3.py:117-170 | A call restores the frame shape unless it fails |
| SemV3.CallUserKept | interpreterv3.py:124-170 | Likewise for the call of a resolved user function, with its push and pop of the function frame |
| SemV3.CallPrintKept | interpreterv3.py:184-190 | print only appends output and leaves the frames as they were |
| SemV3.CallInput | interpreterv3.py:192-204 | Reading input is not modelled and never yields a value |
| SemV3.CallInputKept | interpreterv3.py:192-204 | input only appends output and never removes an instance |
| SemV3.RunStatements | interpreterv3.py:81-92 | A statement list that completes normally yields nil |
| SemV3.RunStatementsKept | interpreterv3.py:81-92 | A statement list restores the frame shape unless it fails |
| SemV3.RunSeq | interpreterv3.py:83-92 | Running the rest of a list completes normally only with nil |
| SemV3.RunSeqKept | interpreterv3.py:83-92 | Running the rest of a list grows only the block frame |
| SemV3.RunStatement | interpreterv3.py:94-110 | A statement that completes normally yields nil |
| SemV3.RunStatementKept | interpreterv3.py:94-110 | A statement grows at most the innermost frame |
| SemV3.DoAssign | interpreterv3.py:206-239 | An assignment that does not fail completes normally with nil |
| SemV3.DoAssignKept | interpreterv3.py:206-239 | An assignment keeps the frame shape |
| SemV3.DoVarDef | interpreterv3.py:240-247 | A typed definition succeeds exactly when the type has a default and the name is new in the innermost frame, and it then reads as that default; an unknown type is a TYPE error, and a name already in the innermost frame is a NAME error |
| SemV3.DoVarDefKept | interpreterv3.py:240-247 | A definition grows only the innermost frame |
| SemV3.DoReturnKept | interpreterv3.py:474-485 | `return` keeps the frame shape |
| SemV3.DoIf | interpreterv3.py:435-451 | An `if` that completes normally yields nil |
| SemV3.DoIfKept | interpreterv3.py:435-451 | `if` keeps the frame shape |
| SemV3.DoFor | interpreterv3.py:453-472 | A `for` that completes normally yields nil |
| SemV3.DoForKept | interpreterv3.py:453-472 | `for` grows at most the innermost frame |
| SemV3.ForLoop | interpreterv3.py:458-472 | The loop, once it completes normally, yields nil |
| SemV3.ForLoopKept | interpreterv3.py:458-472 | The loop grows at most the innermost frame |
| SemV3.ForBody | interpreterv3.py:466-471 | An iteration that completes normally yields nil |
| SemV3.ForBodyKept | interpreterv3.py:466-471 | An iteration and the rest of the loop grow at most the innermost frame |
| SemV3.ForUpdate | interpreterv3.py:471 | The update and the rest of the loop, completing normally, yield nil |
| SemV3.ForUpdateKept | interpreterv3.py:471 | The update and the rest of the loop grow at most the innermost frame |
| InterpreterV3.Interpreter.constructor | interpreterv3.py:24-28 | A new interpreter has no functions, no structs, no frames, an empty heap and no output |
| InterpreterV3.Interpreter.Run | interpreterv3.py:33-38 | Running a program yields SemV3.Run |
| InterpreterV3.Interpreter.ParseStructDecls | interpreterv3.py:40-59 | The nested loops accept exactly what ParseStructs accepts and fill the table with its result |
| InterpreterV3.Interpreter.CheckFields | interpreterv3.py:48-58 | The field loop accepts a declaration exactly when every field type is known, and builds its field map |
| InterpreterV3.Interpreter.EvalExpr | interpreterv3.py:249-297 | The outcome and new state are those of SemV3.EvalExpr |
| InterpreterV3.Interpreter.FindTarget | interpreterv3.py:206-232 | The field walk loop reaches SemV3.PathTarget |
| InterpreterV3.Interpreter.NewInstance | interpreterv3.py:299-309 | The loop over the fields allocates SemV3.NewInstance |
| InterpreterV3.Interpreter.EvalOp | interpreterv3.py:324-347 | The outcome and new state are those of SemV3.EvalOp |
| InterpreterV3.Interpreter.EvalRight | interpreterv3.py:326-347 | The outcome and new state are those of SemV3.EvalRight |
| InterpreterV3.Interpreter.EvalUnary | interpreterv3.py:355-364 | The outcome and new state are those of SemV3.EvalUnary |
| InterpreterV3.Interpreter.CallFunc | interpreterv3.py:117-170 | The binding loop, push, body, pop and return defaulting yield SemV3.CallFunc |
| InterpreterV3.Interpreter.CallUser | interpreterv3.py:124-170 | The binding loop, push, body, pop and return defaulting yield SemV3.CallUser |
| InterpreterV3.Interpreter.BindArgs | interpreterv3.py:134-153 | The loop over the arguments yields SemV3.BindArgs |
| InterpreterV3.Interpreter.CallPrint | interpreterv3.py:184-190 | The loop over the arguments yields SemV3.CallPrint |
| InterpreterV3.Interpreter.CallInput | interpreterv3.py:192-204 | The outcome and new state are those of SemV3.CallInput |
| InterpreterV3.Interpreter.RunStatements | interpreterv3.py:81-92 | The statement loop with its block push and pop yields SemV3.RunStatements |
| InterpreterV3.Interpreter.RunStatement | interpreterv3.py:94-110 | The outcome and new state are those of SemV3.RunStatement |
| InterpreterV3.Interpreter.DoAssign | interpreterv3.py:206-239 | The in-place field write yields SemV3.DoAssign |
| InterpreterV3.Interpreter.AssignField | interpreterv3.py:209-232 | The in-place write of the reached field yields SemV3.AssignPath |
| InterpreterV3.Interpreter.DoVarDef | interpreterv3.py:240-247 | The outcome and new state are those of SemV3.DoVarDef |
| InterpreterV3.Interpreter.DoReturn | interpreterv3.py:474-485 | The outcome and new state are those of SemV3.DoReturn |
| InterpreterV3.Interpreter.DoIf | interpreterv3.py:435-451 | The outcome and new state are those of SemV3.DoIf |
| InterpreterV3.Interpreter.DoFor | interpreterv3.py:453-472 | The outcome and new state are those of SemV3.DoFor |
| InterpreterV3.Interpreter.ForLoop | interpreterv3.py:458-472 | The `while` loop yields SemV3.ForLoop |
| InterpreterV3.Interpreter.ForStep | interpreterv3.py:458-472 | One test of the condition either ends the loop with SemV3.ForLoop's outcome, or leaves a state from which the loop with one unit of fuel less has that outcome |
| InterpreterV3.Interpreter.ForIteration | interpreterv3.py:466-471 | One iteration either ends the loop with SemV3.ForBody's outcome, or leaves a state from which SemV3.ForLoop has that outcome |
| V3Properties.RejectedStructsStopRun | interpreterv3.py:33-59 | A program with a duplicate struct name or an unknown field type stops before main runs and prints nothing |
| V3Properties.NewDeclaredInstance | interpreterv3.py:299-309 | `new S` for a declared S adds one instance, with exactly S's fields, each at its type's default, and leaves every older instance alone |
| V3Properties.WalkAppend | interpreterv3.py:217-226 | Walking a path in two pieces is walking the first and then the second from where it ended; a failure in the first piece is the result |
| V3Properties.WalkStep | interpreterv3.py:217-226 | Each further field is looked up in the value reached so far: a value that is not a struct crashes the host, a struct without the field is a NAME error, otherwise the walk moves to the field's value |
| V3Properties.PathRootErrors | interpreterv3.py:213-219 | An undefined root of a dotted path is a NAME error; a root that is not a struct crashes the host; both for reads and writes |
| V3Properties.PathIntermediateErrors | interpreterv3.py:217-226 | An intermediate field reached without error is looked up in a non-struct (a host crash) or in a struct without it (a NAME error), for reads and writes alike |
| V3Properties.MissingLastField | interpreterv3.py:227-232 | For any path whose walk reaches a struct without the final field: a two-part path crashes the host, a longer one is a NAME error, for reads and writes alike |
| V3Properties.MissingFieldExamples | interpreterv3.py:213-232 | `x.f` with f missing crashes, and `x.g.f` where `x.g` holds a struct without f is a NAME error |
| V3Properties.FieldWriteKeepsType | interpreterv3.py:206-239 | A dotted assignment changes only the final field of the reached instance, coerced to the type of its current value; an Int written to a bool field becomes a Bool |
| V3Properties.AliasedWrite | interpreterv3.py:230-232 | Two variables referring to one instance see the same field write |
| V3Properties.NoShortCircuit | interpreterv3.py:324-347 | `&&` and `\|\|` evaluate both operands |
| V3Properties.DivByZeroCrashes | interpreterv3.py:324-347 | An Int divided by 0 crashes the host |
| V3Properties.IfCoercesInt | interpreterv3.py:435-451 | An Int condition picks the branch by being nonzero; any other non-Bool is a TYPE error |
| V3Properties.ForLoopExits | interpreterv3.py:458-465 | An error in the condition ends the loop with it, a false condition ends it normally, a non-Bool condition is a TYPE error, and a true one runs an iteration |
| V3Properties.ForBodyExits | interpreterv3.py:466-471 | A RETURN or a failure in the body ends the loop with it, a failing update ends it, and otherwise the condition is tested again |
| V3Properties.ReturnEvaluatesTwice | interpreterv3.py:474-485 | For a primitive result the return expression is evaluated a second time, and that second value is returned |
| V3Properties.ReturnRejectsStructAndNil | interpreterv3.py:474-485 | Returning a struct crashes the host, and returning nil is a TYPE error |
| V3Properties.CallResult | interpreterv3.py:155-170 | A call pops its function frame; a body without a return yields the return type's default, or nil for void; any other result is coerced to the return type |
| SemV2.ScanScopes | interpreterv2.py:192-199 | The scan finds a scope holding the name, with no scope above it that holds the name or is a function scope; otherwise it is a NAME error |
| SemV2.FindScope | interpreterv2.py:187-199 | A found scope holds the name; failure is a NAME error, or a crash when fewer scopes exist than the index reaches back |
| SemV2.SetAt | interpreterv2.py:179-185 | An assignment changes only the name's entry in the chosen scope |
| SemV2.ArithV2 | interpreterv2.py:229-243 | Operands of different types, or an operator not in the left type's table, are a TYPE error; Int division by 0 crashes; `/` is floor division |
| SemV2.CompV2 | interpreterv2.py:255-283 | An operator missing from the table is a TYPE error; across types `==` is false, `!=` is true and the rest are TYPE errors; within a type `==`/`!=` compare values |
| SemV2.UnaryV2 | interpreterv2.py:245-253 | `neg` succeeds exactly on Int and negates it; `!` succeeds exactly on Bool and negates it; anything else is a TYPE error |
| SemV2.EvalExpr | interpreterv2.py:208-227 | Definition, no contract of its own: literals, a variable found by FindScope from the given scope, calls, arithmetic, comparisons and unary operators; its properties are SemV2.EvalExprKept and the V2Properties lemmas |
| SemV2.EvalArith | interpreterv2.py:229-243 | Definition: both operands from the same scope, then ArithV2 |
| SemV2.EvalComp | interpreterv2.py:255-283 | Definition: both operands from the innermost scope, then CompV2 |
| SemV2.BindFormals | interpreterv2.py:134-141 | Definition: each actual looked up two scopes down and created in the callee's scope; a repeated formal is a NAME error; its properties are V2Properties.BindFormalsDistinct and BindFormalsNameError |
| SemV2.CallFunc | interpreterv2.py:126-153 | Definition: print and input first, then the function with that name and arity (a NAME error when none), a new function scope, the binding, the body and the pop; its property is V2Properties.CallResult |
| SemV2.CallPrint | interpreterv2.py:155-161 | Definition: one output line made of the evaluated arguments |
| SemV2.RunStatements | interpreterv2.py:46-70 | Definition: the statement list in the current scope |
| SemV2.RunSeq | interpreterv2.py:47-70 | Definition: the statements in order up to the first RETURN or failure |
| SemV2.RunStatement | interpreterv2.py:48-69 | Definition: dispatch on the statement kind; a call statement drops the callee's RETURN |
| SemV2.Block | interpreterv2.py:88-93 | Definition: the body in a new plain scope, popped unless a failure ends it |
| SemV2.RunIf | interpreterv2.py:83-124 | Definition: the condition once, then the branch; its property is V2Properties.IfConditionKinds |
| SemV2.RunFor | interpreterv2.py:72-81 | Definition: the init assignment, then the loop |
| SemV2.ForLoop | interpreterv2.py:74-81 | Definition: the condition as a comparison and, while it is true, the body and the update; its properties are V2Properties.ForLoopExits and NonBinaryCondition |
| SemV2.Run | interpreterv2.py:27-34 | Definition: main with no parameters in one function scope, or a NAME error with no output when there is none |
| SemV2.EvalExprKept | interpreterv2.py:208-227 | An expression only appends output, and keeps the scope shape unless it fails |
| SemV2.EvalArithKept | interpreterv2.py:229-243 | Likewise for arithmetic |
| SemV2.EvalCompKept | interpreterv2.py:255-283 | Likewise for comparisons |
| SemV2.BindFormalsKept | interpreterv2.py:134-141 | Binding the formals grows only the new function scope |
| SemV2.CallFuncKept | interpreterv2.py:126-153 | A call restores the scope shape unless it fails |
| SemV2.CallPrintKept | interpreterv2.py:155-161 | print only appends output and leaves the scopes as they were |
| SemV2.CallInput | interpreterv2.py:163-177 | Reading input is not modelled and never yields a value |
| SemV2.CallInputKept | interpreterv2.py:163-177 | input only appends output |
| SemV2.RunStatementsKept | interpreterv2.py:46-70 | A statement list grows at most the innermost scope |
| SemV2.RunSeqKept | interpreterv2.py:47-70 | Likewise for the rest of a list |
| SemV2.RunStatementKept | interpreterv2.py:48-69 | A statement grows at most the innermost scope |
| SemV2.DoAssign | interpreterv2.py:179-185 | An assignment never returns |
| SemV2.DoAssignKept | interpreterv2.py:179-185 | An assignment keeps the scope shape |
| SemV2.DoVarDef | interpreterv2.py:201-205 | A definition fails exactly when the innermost scope already holds the name or there is none; a name already in the innermost scope is a NAME error, and an empty scope list crashes the host |
| SemV2.DoVarDefKept | interpreterv2.py:201-205 | A definition grows only the innermost scope |
| SemV2.BlockKept | interpreterv2.py:88-93 | An `if` or `for` body runs in a fresh scope that is gone afterwards, unless it fails |
| SemV2.RunIfKept | interpreterv2.py:83-124 | `if` keeps the scope shape |
| SemV2.ForAssign | interpreterv2.py:72-81 | The init or update of a `for` never returns |
| SemV2.ForAssignKept | interpreterv2.py:72-81 | The init or update of a `for` keeps the scope shape |
| SemV2.RunForKept | interpreterv2.py:72-81 | `for` keeps the scope shape |
| SemV2.ForLoopKept | interpreterv2.py:74-81 | Every iteration leaves the scopes as it found them |
| InterpreterV2.Interpreter.constructor | interpreterv2.py:19-22 | A new interpreter has no functions, no scopes and no output |
| InterpreterV2.Interpreter.Run | interpreterv2.py:27-34 | Running a program yields SemV2.Run |
| InterpreterV2.Interpreter.FindWhichPreviousScope | interpreterv2.py:187-199 | The index loop over the scopes finds SemV2.FindScope |
| InterpreterV2.Interpreter.EvalExpr | interpreterv2.py:208-227 | The outcome and new state are those of SemV2.EvalExpr |
| InterpreterV2.Interpreter.EvalArith | interpreterv2.py:229-243 | The outcome and new state are those of SemV2.EvalArith |
| InterpreterV2.Interpreter.EvalComp | interpreterv2.py:255-283 | The outcome and new state are those of SemV2.EvalComp |
| InterpreterV2.Interpreter.CallFunc | interpreterv2.py:126-153 | The push, the binding loop, the body and the pop yield SemV2.CallFunc |
| InterpreterV2.Interpreter.CallPrint | interpreterv2.py:155-161 | The loop over the arguments yields SemV2.CallPrint |
| InterpreterV2.Interpreter.CallInput | interpreterv2.py:163-177 | The outcome and new state are those of SemV2.CallInput |
| InterpreterV2.Interpreter.RunStatements | interpreterv2.py:46-70 | The statement loop yields SemV2.RunStatements |
| InterpreterV2.Interpreter.RunStatement | interpreterv2.py:48-69 | The outcome and new state are those of SemV2.RunStatement |
| InterpreterV2.Interpreter.DoAssign | interpreterv2.py:179-185 | The outcome and new state are those of SemV2.DoAssign |
| InterpreterV2.Interpreter.DoVarDef | interpreterv2.py:201-205 | The outcome and new state are those of SemV2.DoVarDef |
| InterpreterV2.Interpreter.Block | interpreterv2.py:88-93 | The scope push, body and pop yield SemV2.Block |
| InterpreterV2.Interpreter.RunIf | interpreterv2.py:83-124 | The outcome and new state are those of SemV2.RunIf |
| InterpreterV2.Interpreter.ForAssign | interpreterv2.py:72-81 | The outcome and new state are those of SemV2.ForAssign |
| InterpreterV2.Interpreter.RunFor | interpreterv2.py:72-81 | The outcome and new state are those of SemV2.RunFor |
| InterpreterV2.Interpreter.ForLoop | interpreterv2.py:74-81 | The `while` loop yields SemV2.ForLoop, including the evaluation of a unary condition's operand before the crash on the missing second operand |
| V2Properties.ScanMatchesFindFrom | interpreterv2.py:192-199 | The v2 scope scan and the frame search of the later versions find the same scope, and fail together |
| V2Properties.FindScopeIsFind | interpreterv2.py:187-199 | A lookup from the innermost scope finds the innermost scope, up to and including the nearest function scope, that holds the name; otherwise it is a NAME error |
| V2Properties.ArgumentLookup | interpreterv2.py:135-140 | With the callee's scope pushed, an argument name is found in the caller's innermost scope, else among the formals already bound, and nowhere else |
| V2Properties.BindFormalsDistinct | interpreterv2.py:134-141 | Binding succeeds only for distinct formal names, and adds exactly those names to the function scope |
| V2Properties.BindFormalsStep | interpreterv2.py:134-141 | A successful binding step evaluates the actual without changing the scope shape, creates its formal in the callee's scope, and goes on from there |
| V2Properties.BindFormalsNameError | interpreterv2.py:134-141 | When no actual can fail to evaluate, a failed binding is a NAME error |
| V2Properties.DuplicateFormalFails | interpreterv2.py:134-141 | A function with two formals of the same name fails on every call, and with a NAME error whenever no actual can fail to evaluate |
| V2Properties.DuplicateFormalLiterals | interpreterv2.py:134-141 | A function with a repeated formal called on literal actuals fails with a NAME error |
| V2Properties.CallResult | interpreterv2.py:142-153 | A call yields the returned value, or nil when no `return` ran, and pops its function scope |
| V2Properties.CallStatementNoLeak | interpreterv2.py:57-58 | A call statement completes normally even when the callee returned |
| V2Properties.UnknownFunction | interpreterv2.py:41-44 | A call with no definition of that name and arity is a NAME error |
| V2Properties.NoMainIsNameError | interpreterv2.py:27-30 | A program without a parameterless main is a NAME error and prints nothing |
| V2Properties.VarDefStartsAtZero | interpreterv2.py:201-205 | `var x` makes x visible at once, in the innermost scope, as Int 0 |
| V2Properties.AssignThenRead | interpreterv2.py:179-199 | After an assignment the name reads back as the new value from the same scope, and no other scope changes |
| V2Properties.ForLoopExits | interpreterv2.py:74-81 | A condition other than true ends the loop normally, and a RETURN from the body ends it; otherwise the body's scope is gone, the update runs and the loop repeats |
| V2Properties.ArithmeticConditionEndsLoop | interpreterv2.py:255-283 | An arithmetic `for` condition on Brewin v2 values (which have no structs) goes through the comparison path and never runs the body: it ends the loop normally exactly for two Ints (no zero divisor under `/`) or two Strings under `+`, crashes the host exactly for `/` by Int zero, and is a TYPE error otherwise, in the state after both operands |
| V2Properties.ArithmeticConditionErrors | interpreterv2.py:255-283 | `for (...; 1 / 0; ...)` crashes the host and `for (...; 1 + "a"; ...)` is a TYPE error |
| V2Properties.NonBinaryCondition | interpreterv2.py:255-257 | A `for` condition that is not a binary node always fails: a unary node's operand is evaluated first and its error, or else a host crash, is the result, after its output; any other node crashes the host at once |
| V2Properties.UndefinedOperandCondition | interpreterv2.py:255-257 | `for (...; !z; ...)` with z undefined is the NAME error of the operand |
| V2Properties.IfConditionKinds | interpreterv2.py:83-124 | An Int or String condition is a TYPE error, nil crashes the host, true runs the then-block, and false without an else does nothing |
| V2Properties.MixedTypes | interpreterv2.py:229-283 | Across types, `==` is false and `!=` is true; the other comparisons and all arithmetic are TYPE errors |

## Left out

- I/O.
  - `InterpreterBase.output` is a list of printed lines, each kept as its printed values; the text formatting of `get_printable` is not modelled.
  - An `inputi`/`inputs` call checks its arguments and prints the prompt; the read itself and the `int()` parsing are the error kind `Unmodelled`.
  - Trace printing is not modelled.
- The parser (`parse_program`) and `InterpreterBase.error` are not part of this model. A Brewin program is given as a syntax tree, and a reported error as an outcome.
- The `env_v2`/`env_v3`/`env_v4` and `type_value*` modules are not part of this model. The environment is modelled by its uses: a definition fails on a duplicate in the innermost frame, a lookup and an assignment fail when the name is not visible, and the search stops at the nearest function frame.
- Fuel: every evaluation takes a fuel bound, and running out is the error kind `OutOfFuel`. The model says nothing about programs that do not terminate.
- Values: nil is one value, so the identity test the source uses for nil is value equality here. A struct named like a primitive type keeps a struct type of its own.
- SemV2.RunIf, InterpreterV2.Interpreter.RunIf: interpreterv2.py's `__run_if` evaluates the condition again for each test it makes. The model evaluates it once. Its outcomes are the same when the condition has no side effects (no call that prints).
- interpreterv2.py keeps its scope list as a class attribute, so scopes left behind by one run would be seen by the next. The model starts every run with one function scope.
- interpreterv2.py's `new` expression and any statement v2 does not know are outside that version: `new` is the error kind `Unmodelled`, and `raise`/`try` complete normally. The same holds for `raise`/`try` in v3.
- SemV3.ReadPath: interpreterv3.py's dotted read returns the raw field payload rather than a value (interpreterv3.py:282). A later use of it as a value fails, but a plain assignment `x = a.f;` stores it and the run may go on. The model ends the run at the dotted read instead: SemV3.ReadPath never yields a value, and fails like the path walk when that fails.
- SemV3.BindArgs, SemV3.CallUser: arguments are coerced to the formal parameter's type (the corrected rule of Structs.BindArg), not to the argument node's own type as line 138 of interpreterv3.py has it; the as-written rule is Structs.BindArgAsWritten, under "## Findings".
- SemV3.Run: interpreterv3.py sets its struct table in the constructor only (interpreterv3.py:28), so a second run on the same interpreter still holds the first run's structs and rejects their names as duplicates. The model starts every run with no structs.
- InterpreterV3.Interpreter.Run: starts every run with no structs, as SemV3.Run does, where the source keeps the struct table of earlier runs.
- interpreterv3.py's comparison of mismatched types calls the type constants; that crash is `HostCrash` (SemV3.BinaryV3).
- Python's `copy.copy` of primitive arguments is value semantics. Struct references are heap addresses shared between variables.
- Fuel monotonicity (more fuel never changes a terminating result) is not proved for any version.
- interpreterv1.py is an earlier prototype and is not part of this model; nor is lazy_val.py, which interpreterv4.py does not import.

## Findings

| source | as written | input that shows it | evidently intended | confidence | as-written member | corrected member |
|---|---|---|---|---|---|---|
| interpreterv3.py:134-139 | Each argument value is first coerced to the `var_type` of the argument's own syntax node. Only a `new` node has one, so the coercion target is None for every other argument, and the coercion is a TYPE error | `func f(x: int): void {...}` called as `f(5)`: the literal 5 is coerced to None and fails | Coerce only to the formal parameter's type | not executed | Structs.BindArgAsWritten (with Structs.ArgumentCoercionFinding) | Structs.BindArg, which SemV3.BindArgs uses |
