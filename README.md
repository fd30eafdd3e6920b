# Lox, modelled in Dafny

This project models the core of a repository that implements the Lox language twice, as
in *Crafting Interpreters*, and proves properties of the models.

- **golox** is a tree-walking interpreter in Go. The model covers:
  - the scanner (`Scanner`, `ScannerProperties`) and its token kinds (`Tokens`);
  - the earlier scanner snapshot with its category-relative token constants (`LegacyTokens`, `LegacyScanner`, `LegacyScannerProperties`). That snapshot does not compile as written; "## Left out" says which reading the model takes of each of its three compile errors;
  - the syntax tree (`Ast`) and the pretty-printer (`Printer`);
  - the recursive-descent parser (`LoxParser`, `LoxParserProperties`);
  - the static resolver (`LoxResolver`, `LoxResolverProperties`);
  - the environment chain (`Environment`) and runtime values (`LoxValues`);
  - functions, classes and instances (`LoxClasses`);
  - the evaluator (`LoxInterpreter`, `LoxInterpreterGrowth`, `LoxInterpreterProperties`).
- **clox** is a bytecode compiler and virtual machine in C. The model covers:
  - the allocation macros (`CloxMemory`) and the growable chunk (`CloxChunk`);
  - the single-pass Pratt compiler (`CloxCompiler`, `CloxCompilerProperties`);
  - the stack VM (`CloxVm`).
- **challenges/doubleLinkedList.c** is a doubly linked list with an insertion after a node (`LinkedList`).

Code that updates state step by step is a Dafny class, with methods proved against the
specification functions beside them:

- the scanners' cursor;
- the parser's token cursor;
- the resolver's scope stack;
- the interpreter's environment;
- the chunk's byte buffer;
- the compiler's parser state;
- the VM's stack;
- the list's nodes.

Pure logic is functions and lemmas. Where the code does not do what it evidently means to,
the model keeps two versions: the code as written, and a corrected one. The rest of the
model uses the corrected one, and "## Findings" pairs the two. In the table below a row
says "as written" or "corrected" where the member is one of such a pair; every other row
models code that needs no correction.

## Model

| member | source | states |
|---|---|---|
| LoxValues.CheckOperandNumber | golox/internal/interpreter/interpreter.go:492-499 | no error exactly when the operand is a number; otherwise the runtime error "Operand must be number" at the operator |
| LoxValues.CheckOperandsNumber | golox/internal/interpreter/interpreter.go:501-511 | corrected check: no error exactly when both operands are numbers, otherwise "Operands must be numbers" (the written check also admits bools, see Findings) |
| LoxValues.CheckOperandsComparable | golox/internal/interpreter/interpreter.go:513-523 | no error exactly when both operands are nil, bool, number or string; otherwise the "to be comparable" runtime error |
| LoxValues.Equality | golox/internal/interpreter/interpreter.go:282-291 | `==`/`!=` on comparable operands is value equality of the same dynamic type and its negation; on any other operand an error with nil |
| LoxValues.TruthyCases | golox/internal/interpreter/interpreter.go:481-490 | exactly nil and false are falsy |
| LoxValues.EqualityByType | golox/internal/interpreter/interpreter.go:473-479 | `isEqual` holds only between values of one dynamic type and is value equality there; reflexive and symmetric |
| LoxValues.BoolPassesNumberCheck | golox/internal/interpreter/interpreter.go:501-511 | as written, `checkOperandsNumber(true, 1)` returns no error though `true` is no float64; the corrected check returns the error |
| LoxValues.NumberCheckAgreement | golox/internal/interpreter/interpreter.go:501-511 | the corrected check admits a subset of the written one and equals it on every pair without a bool |
| LoxValues.BinaryAsWrittenAgreement | golox/internal/interpreter/interpreter.go:215-295 | `VisitBinaryExpr` as written and as corrected agree when no operand is a bool; an arithmetic or ordering operator on a bool and a number or bool panics as written (the `float64` assertion) and is the "Operands must be numbers" error corrected; nothing else panics |
| LoxValues.TrueMinusOne | golox/internal/interpreter/interpreter.go:229-235 | `true - 1`: the written code reaches `l.(float64)` with a bool and panics; corrected, the runtime error |
| LoxValues.PlusTypes | golox/internal/interpreter/interpreter.go:236-250 | `+` adds numbers, concatenates strings, gives nil without error for a number with a string either way, and errors exactly when the left operand is neither |
| LoxValues.ArithmeticTypes | golox/internal/interpreter/interpreter.go:229-281 | `-`, `*`, `/` give numbers and the orderings bools from two numbers; any non-number operand is "Operands must be numbers"; only `/` by zero stops (float infinities are not modelled) |
| LoxValues.UnaryTypes | golox/internal/interpreter/interpreter.go:297-315 | unary `-` negates a number and is "Operand must be number" on anything else; `!` is the complement of truthiness |
| Environment.NewGlobal | golox/internal/interpreter/environment.go:14-16 | one frame, no bindings, no enclosing environment |
| Environment.NewEnvironment | golox/internal/interpreter/environment.go:18-20 | a fresh empty frame enclosed by the given one, appended; older frames unchanged |
| Environment.NewEnvironmentKeepsWellFormed | golox/internal/interpreter/environment.go:18-20 | a new frame keeps every enclosing chain finite |
| Environment.DefineOnlyOwn | golox/internal/interpreter/environment.go:22-24 | `define` binds the name in its own frame only; every other name, frame and link is untouched |
| Environment.AncestorStep | golox/internal/interpreter/environment.go:29-30 | walking one link more is walking from the enclosing frame |
| Environment.GetFindsNearest | golox/internal/interpreter/environment.go:26-35 | `get` fails exactly when no frame of the chain binds the name, with the "Undefined variable" error; otherwise it reads the nearest frame that does |
| Environment.AssignWritesNearest | golox/internal/interpreter/environment.go:37-47 | `assign` succeeds exactly when `get` does and then writes the nearest binding; it creates no binding |
| Environment.AssignThenGet | golox/internal/interpreter/environment.go:26-47 | after `assign`, `get` of the name reads the assigned value |
| Environment.AncestorsUnchanged | golox/internal/interpreter/environment.go:9-12 | arenas with the same enclosing links walk to the same frames |
| Environment.AssignAtThenGetAt | golox/internal/interpreter/interpreter.go:321-334 | `assignAt` then `getAt` at the same distance reads the value back |
| Environment.AncestorOfGlobal | golox/internal/interpreter/environment.go:29-32 | walking past the global frame is the nil dereference; a walk of no links stays put |
| LoxClasses.Lineage | golox/internal/interpreter/loxclass.go:36-47 | the chain `findMethod` walks: the class first, then its superclasses |
| LoxClasses.FunctionString | golox/internal/interpreter/loxcallable.go:53-55 | the text is "fn< ", the function's name, " >" |
| LoxClasses.InstanceString | golox/internal/interpreter/loxclass.go:72-74 | the text is the class's text followed by " instance" |
| LoxClasses.BindAsWritten | golox/internal/interpreter/loxcallable.go:43-47 | as written: `this` is written into the closure's own map, which every copy of the method shares; the method is returned unchanged |
| LoxClasses.Bind | golox/internal/interpreter/loxcallable.go:43-47 | corrected: a fresh frame binding only `this`, enclosed by the closure; the bound method keeps declaration and `isInit`; no existing frame changes |
| LoxClasses.FindMethodNearest | golox/internal/interpreter/loxclass.go:36-47 | `findMethod` returns the method of the nearest class in the chain that declares the name, and nothing exactly when none does |
| LoxClasses.ClassArityInherited | golox/internal/interpreter/loxclass.go:19-25 | a class's arity is its `init`'s, inherited from the superclass when it has none, and 0 when the chain has no `init` |
| LoxClasses.InstanceGetOrder | golox/internal/interpreter/loxclass.go:54-64 | own fields shadow methods; a method is returned bound to the instance; "Undefined property" exactly when neither exists; existing frames unchanged |
| LoxClasses.SetThenGet | golox/internal/interpreter/loxclass.go:54-70 | `set` then `get` of a property yields the value set; other fields and other instances unchanged |
| LoxClasses.BindAsWrittenAliasesThis | golox/internal/interpreter/loxcallable.go:43-47 | as written, binding one method to two instances makes the first bound copy see the second instance as `this` |
| LoxClasses.BindKeepsThisApart | golox/internal/interpreter/loxcallable.go:43-47 | corrected, each bound copy sees its own instance and the method's closure is not written |
| LoxClasses.SuperAtResolvedDepth | golox/internal/resolver/resolver.go:176-188 | with the corrected `bind`, a subclass method's parameter frame reaches `this` at distance 1 and `super` at distance 2, the depths the resolver records |
| LoxClasses.SuperMissedAsWritten | golox/internal/interpreter/interpreter.go:179-191 | with `bind` as written, distance 2 is the class statement's frame, where `super` reads nil and the `*LoxClass` assertion fails |
| LoxInterpreter.Initial | golox/internal/interpreter/interpreter.go:40-44 | the new interpreter's only frame is the global one, binding just `clock`; the current environment is the globals |
| LoxInterpreter.WhileConditionEnds | golox/internal/interpreter/interpreter.go:449-466 | a loop whose condition stops, fails or is falsy ends there with the condition's error |
| LoxInterpreter.WhileBodyRan | golox/internal/interpreter/interpreter.go:449-466 | a loop whose condition holds runs the body; a signal ends the loop, otherwise it starts over |
| LoxInterpreter.Interpreter.constructor | golox/internal/interpreter/interpreter.go:40-44 | the new interpreter's state is `Initial()` |
| LoxInterpreter.Interpreter.Resolve | golox/internal/interpreter/interpreter.go:65-67 | records the depth for the node and changes nothing else |
| LoxInterpreter.Interpreter.Evaluate | golox/internal/interpreter/interpreter.go:91-334 | the value, error or halt and the new state are those of the evaluation function `Eval` |
| LoxInterpreter.Interpreter.Interpret | golox/internal/interpreter/interpreter.go:46-59 | runs every statement, collecting each one's error in order; the result is `InterpretAll` |
| LoxInterpreter.Interpreter.ExecuteStatements | golox/internal/interpreter/interpreter.go:78-89 | runs the statements in the given environment up to the first signal and restores the previous environment (corrected, see Findings) |
| LoxInterpreter.Interpreter.Execute | golox/internal/interpreter/interpreter.go:336-471 | the signal, halt and new state are those of `Exec` for every statement kind |
| LoxInterpreter.Interpreter.VisitWhile | golox/internal/interpreter/interpreter.go:449-466 | the loop's outcome is `ExecWhile` |
| LoxInterpreter.Interpreter.RunWhile | golox/internal/interpreter/interpreter.go:449-466 | the loop, iterated with a while statement, reaches the outcome `ExecWhile` gives |
| LoxInterpreter.Interpreter.WhileStep | golox/internal/interpreter/interpreter.go:450-464 | one test of the condition and one run of the body: either the loop's final outcome or the rest of the loop from the new state |
| LoxInterpreter.Interpreter.VisitClass | golox/internal/interpreter/interpreter.go:404-447 | the class statement's outcome is `Exec` of it |
| LoxInterpreter.Interpreter.Call | golox/internal/interpreter/loxcallable.go:22-41 | a call's value, error and state are `CallFunction`: new frame, parameters, body, `init` returning `this` |
| LoxInterpreterProperties.ShortCircuit | golox/internal/interpreter/interpreter.go:95-108 | `or` with a truthy left and `and` with a falsy left return the left value and its error and never evaluate the right; otherwise the result is the right operand's |
| LoxInterpreterProperties.EvalArgsAppend | golox/internal/interpreter/interpreter.go:119-126 | arguments are evaluated left to right and the first error stops the rest |
| LoxInterpreterProperties.CalleeBeforeArguments | golox/internal/interpreter/interpreter.go:115-118 | a callee that fails or stops decides the call; the arguments are never evaluated |
| LoxInterpreterProperties.CallChecks | golox/internal/interpreter/interpreter.go:127-141 | a non-callable is "Can call only functions and classes."; a wrong argument count is "Expected N arguments but got M."; both change nothing; a successful call adds a frame or an instance |
| LoxInterpreterProperties.ResolvedReadIsNearest | golox/internal/interpreter/interpreter.go:69-76 | a variable resolved at the distance of its nearest binding reads what dynamic `get` reads |
| LoxInterpreterProperties.ResolvedAssignIsNearest | golox/internal/interpreter/interpreter.go:321-334 | a resolved assignment writes where dynamic `assign` writes |
| LoxInterpreterProperties.ExecStmtsAppend | golox/internal/interpreter/interpreter.go:81-86 | statements run in order and the first signal stops them |
| LoxInterpreterProperties.InterpretAppend | golox/internal/interpreter/interpreter.go:46-59 | top-level statements run on past errors; the errors of `a + b` are those of `a`, then those of `b` |
| LoxInterpreterProperties.DefineParamsBinds | golox/internal/interpreter/loxcallable.go:23-27 | each parameter is bound to the argument at its position in the call's own frame (a later duplicate wins); no other frame changes |
| LoxInterpreterProperties.CallFunctionCases | golox/internal/interpreter/loxcallable.go:22-41 | for any body run in the parameter frame: an initializer yields `this` from its closure whatever the body did; otherwise a `Return` signal yields its value, normal completion nil, an error is returned with nil; a halt halts the call; the caller's environment is restored and the state only grows |
| LoxInterpreterProperties.FunctionReturnsItsValue | golox/internal/interpreter/loxcallable.go:29-35 | a function whose body is any statements completing normally followed by `return e;` returns the value of `e` with no error, in the state `e` left (nil for a bare `return;` in the corrected model) |
| LoxInterpreterProperties.MethodTableLastWins | golox/internal/interpreter/interpreter.go:426-440 | the class's method map has a key exactly for each method name; the entry is the last method of that name, an initializer exactly when it is "init" |
| LoxInterpreterProperties.MethodTableClosures | golox/internal/interpreter/interpreter.go:426-440 | every method closes over the given environment and is an initializer exactly when named "init" |
| LoxInterpreterProperties.ClassDeclarationBindsName | golox/internal/interpreter/interpreter.go:404-447 | a class without superclass binds its name in the current frame to the class whose methods close over that frame |
| LoxInterpreterProperties.SubclassMethodsSeeSuper | golox/internal/interpreter/interpreter.go:420-446 | a subclass's methods close over a new frame binding `super` to the superclass, enclosed by the declaring frame; the name is bound to the class |
| LoxInterpreterProperties.BareReturnAsWritten | golox/internal/interpreter/interpreter.go:396-402 | as written a bare `return;` evaluates the nil expression and stops the run; corrected it returns nil; with a value both agree |
| LoxInterpreterProperties.ExecAsWrittenAgrees | golox/internal/interpreter/interpreter.go:78-89 | every statement as written (environment not restored on an early exit) and as corrected halt and signal alike; the states differ at most in the current environment, and only after a signal |
| LoxInterpreterProperties.StmtsAsWrittenAgree | golox/internal/interpreter/interpreter.go:78-89 | the same agreement for a statement list |
| LoxInterpreterProperties.WhileAsWrittenAgrees | golox/internal/interpreter/interpreter.go:449-466 | the same agreement for `while`, whose body's leak is the loop's |
| LoxInterpreterProperties.LeakHidesLaterGlobals | golox/internal/interpreter/interpreter.go:46-89 | as written, `{ nil(); } var a = 1; print a;` gives two errors (the call and "Undefined variable") and prints nothing: the block's frame stays current |
| LoxInterpreterProperties.RestoredEnvironmentKeepsGlobals | golox/internal/interpreter/interpreter.go:46-89 | corrected, the same program gives the one call error and prints 1 |
| LoxInterpreterProperties.FailedCallSignals | golox/internal/interpreter/interpreter.go:127-141 | `nil();` is the error "Can call only functions and classes." and changes nothing |
| LoxInterpreterGrowth.GrowsTrans | golox/internal/interpreter/interpreter.go:34-38 | the growth relation between interpreter states is transitive |
| LoxInterpreterGrowth.DefineParamsExtends | golox/internal/interpreter/loxcallable.go:23-27 | defining parameters adds no frame and relinks none |
| LoxInterpreterGrowth.EvalGrows | golox/internal/interpreter/interpreter.go:91-334 | every evaluation keeps the current environment and the resolver's table, only adds frames and instances, never changes an instance's class or a link, and only appends output |
| LoxInterpreterGrowth.EvalCallGrows | golox/internal/interpreter/interpreter.go:114-142 | the same for a call expression |
| LoxInterpreterGrowth.CallFunctionGrows | golox/internal/interpreter/loxcallable.go:22-41 | the same for a function call, whose frame is left behind |
| LoxInterpreterGrowth.CallClassGrows | golox/internal/interpreter/loxclass.go:27-34 | the same for a class call |
| LoxInterpreterGrowth.ExecGrows | golox/internal/interpreter/interpreter.go:336-471 | the same for every statement (blocks restore the environment) |
| LoxInterpreterGrowth.ExecStmtsGrows | golox/internal/interpreter/interpreter.go:81-86 | the same for a statement list |
| LoxInterpreterGrowth.ExecWhileGrows | golox/internal/interpreter/interpreter.go:449-466 | the same for a `while` loop |
| LoxInterpreterGrowth.ClassGrows | golox/internal/interpreter/interpreter.go:404-447 | the same for a class statement |
| LoxInterpreterGrowth.ClassCallMakesInstance | golox/internal/interpreter/loxclass.go:27-34 | a class call yields a new instance of that class without error, whatever its `init` did, and keeps the current environment |
| LoxResolver.Push | golox/internal/resolver/resolver.go:33-35 | the pushed scope is the innermost one, above the unchanged others |
| LoxResolver.Pop | golox/internal/resolver/resolver.go:37-44 | the error "Empty scope stack" exactly on the empty stack; otherwise the rest and the innermost scope, which pushed back give the stack |
| LoxResolver.Peek | golox/internal/resolver/resolver.go:46-52 | a scope exactly when the stack is not empty, the one `pop` removes |
| LoxResolver.PopUndoesPush | golox/internal/resolver/resolver.go:33-52 | popping a pushed stack gives the stack and the scope back; peeking it gives the scope |
| LoxResolver.Lookup | golox/internal/resolver/resolver.go:326-339 | the depth recorded is the distance of the innermost scope binding the name to a finished declaration; no scope between binds it; none exactly when no scope does |
| LoxResolver.Declared | golox/internal/resolver/resolver.go:360-372 | `declare` fails exactly when the innermost scope already holds the name, with "Already a variable with this name in scope" |
| LoxResolver.Resolver.constructor | golox/internal/resolver/resolver.go:74-76 | no scope, outside any function and class, with the given table |
| LoxResolver.Resolver.BeginScope | golox/internal/resolver/resolver.go:384-386 | pushes an empty scope |
| LoxResolver.Resolver.EndScope | golox/internal/resolver/resolver.go:388-395 | pops the innermost scope; the error exactly on an empty stack, the state then unchanged |
| LoxResolver.Resolver.Declare | golox/internal/resolver/resolver.go:360-372 | agrees with `Declared`; on the error the state is unchanged |
| LoxResolver.Resolver.Define | golox/internal/resolver/resolver.go:374-382 | marks the name finished in the innermost scope; nothing without a scope |
| LoxResolver.Resolver.ResolveLocal | golox/internal/resolver/resolver.go:326-339 | records under the node the depth `Lookup` gives and nothing when it gives none; the scopes are unchanged |
| LoxResolver.Resolver.ResolveExpr | golox/internal/resolver/resolver.go:207-300 | the new state, errors and panic are those of `ExprResolution` for every expression kind |
| LoxResolver.Resolver.VisitOperands | golox/internal/resolver/resolver.go:211-217 | the same for binary and logical expressions |
| LoxResolver.Resolver.VisitSet | golox/internal/resolver/resolver.go:277-284 | the same for a property assignment |
| LoxResolver.Resolver.VisitCall | golox/internal/resolver/resolver.go:259-271 | the same for a call: callee, then arguments in order |
| LoxResolver.Resolver.VisitVariable | golox/internal/resolver/resolver.go:227-241 | the same for a variable: a read inside its own initializer is an error |
| LoxResolver.Resolver.VisitAssign | golox/internal/resolver/resolver.go:243-249 | the same for an assignment |
| LoxResolver.Resolver.VisitThis | golox/internal/resolver/resolver.go:286-291 | the same for `this`: "Can't use 'this' outside of class." outside a class |
| LoxResolver.Resolver.VisitSuper | golox/internal/resolver/resolver.go:292-300 | the same for `super`: an error outside a class and in a class without superclass |
| LoxResolver.Resolver.Resolve | golox/internal/resolver/resolver.go:349-358 | statements in order up to the first error or panic, agreeing with `StmtsResolution` |
| LoxResolver.Resolver.ResolveStmt | golox/internal/resolver/resolver.go:78-205 | the new state, errors and panic are those of `StmtResolution` for every statement kind |
| LoxResolver.Resolver.VisitVar | golox/internal/resolver/resolver.go:88-100 | the same for `var`: declare, initializer, define |
| LoxResolver.Resolver.VisitBlock | golox/internal/resolver/resolver.go:102-110 | the same for a block: a scope around the statements |
| LoxResolver.Resolver.VisitIf | golox/internal/resolver/resolver.go:112-129 | the same for `if` |
| LoxResolver.Resolver.VisitWhile | golox/internal/resolver/resolver.go:131-140 | the same for `while` |
| LoxResolver.Resolver.VisitFunction | golox/internal/resolver/resolver.go:142-152 | the same for a function declaration, its name defined before its body |
| LoxResolver.Resolver.VisitReturn | golox/internal/resolver/resolver.go:154-166 | the same for `return`: an error at top level and for a value in an initializer |
| LoxResolver.Resolver.VisitClass | golox/internal/resolver/resolver.go:168-188 | the same for a class declaration up to its methods, including "Can't inherit from itself." |
| LoxResolver.Resolver.ResolveClassBody | golox/internal/resolver/resolver.go:186-204 | the same for the `this` scope, the methods and the closing of the scopes |
| LoxResolver.Resolver.ResolveMethods | golox/internal/resolver/resolver.go:190-197 | every method resolved, as an initializer exactly when named "init", errors collected |
| LoxResolver.Resolver.ResolveFunction | golox/internal/resolver/resolver.go:302-324 | the same for a function body under its kind, parameters in a new scope |
| LoxResolverProperties.DeclareDefineEnclosing | golox/internal/resolver/resolver.go:360-382 | `declare` and `define` change only the innermost scope |
| LoxResolverProperties.DefinedIsInnermost | golox/internal/resolver/resolver.go:374-382 | a name just defined resolves at depth 0 |
| LoxResolverProperties.DeclaredIsPassedOver | golox/internal/resolver/resolver.go:227-241 | a name declared but not defined is read as its own initializer, and lookups pass over it to an outer binding |
| LoxResolverProperties.SelfInitializerFails | golox/internal/resolver/resolver.go:88-100 | `var a = a;` in a scope where `a` is new gives the initializer error |
| LoxResolverProperties.ExprKeepsScopes | golox/internal/resolver/resolver.go:207-300 | resolving an expression without panic changes neither scopes nor kinds |
| LoxResolverProperties.StmtKeepsEnclosing | golox/internal/resolver/resolver.go:78-205 | a statement resolved without error leaves the enclosing scopes and the kinds as they were |
| LoxResolverProperties.StmtsKeepEnclosing | golox/internal/resolver/resolver.go:349-358 | the same for a statement list |
| LoxResolverProperties.FunctionRestores | golox/internal/resolver/resolver.go:302-324 | a function resolved without error restores the scope stack and the function kind |
| LoxResolverProperties.MethodsRestore | golox/internal/resolver/resolver.go:190-197 | the same for the methods of a class |
| LoxResolverProperties.ClassBodyRestores | golox/internal/resolver/resolver.go:186-204 | a class body resolved without error closes the `this` and `super` scopes and restores the class kind |
| LoxResolverProperties.StmtNoCrash | golox/internal/resolver/resolver.go:78-205 | a statement without nil nodes never makes the resolver panic |
| LoxResolverProperties.StmtsNoCrash | golox/internal/resolver/resolver.go:349-358 | the same for a program |
| LoxResolverProperties.FunctionNoCrash | golox/internal/resolver/resolver.go:302-324 | the same for a function |
| LoxResolverProperties.ExprPairKeepsScopes | golox/internal/resolver/resolver.go:211-217 | two operands resolved in turn without panic leave scopes and kinds as they were |
| LoxResolverProperties.ArgsKeepScopes | golox/internal/resolver/resolver.go:259-271 | call arguments resolved without panic leave scopes and kinds as they were |
| LoxResolverProperties.IfKeepsEnclosing | golox/internal/resolver/resolver.go:112-129 | an `if` resolved without error leaves the enclosing scopes and kinds as they were |
| LoxResolverProperties.WhileKeepsEnclosing | golox/internal/resolver/resolver.go:131-140 | the same for a `while` |
| LoxResolverProperties.VarKeepsEnclosing | golox/internal/resolver/resolver.go:88-100 | a `var` resolved without error keeps the depth, the kinds and every scope below the innermost |
| LoxResolverProperties.ClassKeepsEnclosing | golox/internal/resolver/resolver.go:168-205 | a class declaration restores the enclosing class kind and scopes |
| LoxResolverProperties.ParamsKeepEnclosing | golox/internal/resolver/resolver.go:302-324 | declaring and defining the parameters never fails and keeps the depth, the kinds and every scope below the innermost |
| LoxResolverProperties.ExprNoCrash | golox/internal/resolver/resolver.go:207-300 | an expression without nil nodes never makes the resolver panic |
| LoxResolverProperties.ExprPairNoCrash | golox/internal/resolver/resolver.go:211-217 | the same for two operands in turn |
| LoxResolverProperties.ArgsNoCrash | golox/internal/resolver/resolver.go:259-271 | the same for call arguments |
| LoxResolverProperties.ClassNoCrash | golox/internal/resolver/resolver.go:168-205 | the same for a class declaration |
| LoxResolverProperties.MethodsNoCrash | golox/internal/resolver/resolver.go:191-197 | the same for a class's methods |
| LoxParser.NewParseError | golox/internal/parser/parser.go:18-20 | the error carries the token's line and lexeme and the message |
| LoxParser.ErrorText | golox/internal/parser/parser.go:22-25 | the text starts "Error [line " and ends with the message |
| LoxParser.Advanced | golox/internal/parser/parser.go:653-660 | `advance` moves one token on, except at EOF |
| LoxParser.Consumed | golox/internal/parser/parser.go:607-614 | `consume` succeeds exactly on the expected kind, returning the current token; otherwise the error at the current token with the message |
| LoxParser.Skip | golox/internal/parser/parser.go:607-614 | a `consume` whose result is ignored moves past the expected kind only |
| LoxParser.SimplePrimary | golox/internal/parser/parser.go:567-605 | literals, variables and `this` are one token and a node without nil parts |
| LoxParser.ParsePrimary | golox/internal/parser/parser.go:567-605 | `primary` only moves forward and, off EOF, consumes a token; corrected it never dereferences nil and an error-free result has no nil node (as written it panics at EOF, see Findings) |
| LoxParser.ParseSuper | golox/internal/parser/parser.go:582-589 | `super` moves forward, and without error gives a node without nil parts |
| LoxParser.ParseGroup | golox/internal/parser/parser.go:590-601 | a parenthesised expression moves forward; corrected it never panics |
| LoxParser.ParseArguments | golox/internal/parser/parser.go:547-562 | the argument loop keeps the arguments collected, adds at least one and never more than 255; "Can't have more than 255 arguments." past that; the first argument error ends it |
| LoxParser.FinishCall | golox/internal/parser/parser.go:544-565 | without error the result is a call of the callee with at most 255 arguments; corrected, a missing `)` is an error, not a nil dereference (see Findings) |
| LoxParser.CallLoop | golox/internal/parser/parser.go:522-542 | `call`'s loop moves forward; corrected it never panics and returns the first error (see Findings) |
| LoxParser.ParseCall | golox/internal/parser/parser.go:522-542 | `call` moves forward and consumes a token; corrected it never panics and an error-free result has no nil node |
| LoxParser.ParseUnary | golox/internal/parser/parser.go:506-520 | the same for `unary` |
| LoxParser.ParseOperand | golox/internal/parser/parser.go:399-504 | the same for the operand of a binary level |
| LoxParser.ParseBinary | golox/internal/parser/parser.go:399-504 | the same for `equality`, `comparison`, `term` and `factor` |
| LoxParser.BinaryLoop | golox/internal/parser/parser.go:399-504 | a level's loop moves forward; corrected, an error-free result has no nil node |
| LoxParser.LogicalLoop | golox/internal/parser/parser.go:367-397 | the loop of `and`/`or` moves forward and an error-free result had no earlier error |
| LoxParser.ParseLogical | golox/internal/parser/parser.go:367-397 | `and` and `or` move forward and consume a token; corrected they never panic |
| LoxParser.ParseAssignment | golox/internal/parser/parser.go:335-365 | `assignment` moves forward and consumes a token; corrected it never panics and an error-free result has no nil node |
| LoxParser.ParseExprStmt | golox/internal/parser/parser.go:265-280 | expression and `print` statements move forward and consume a token; corrected they never panic |
| LoxParser.ParseReturn | golox/internal/parser/parser.go:163-179 | `return` moves forward; corrected it never panics |
| LoxParser.ParseVarDeclaration | golox/internal/parser/parser.go:298-313 | a variable declaration moves forward and is a `var` statement |
| LoxParser.ForInit | golox/internal/parser/parser.go:186-201 | the initializer clause moves forward; corrected, an error-free one has no nil node |
| LoxParser.ForCondition | golox/internal/parser/parser.go:203-210 | the condition clause moves forward; corrected, an error-free one is absent or has no nil node |
| LoxParser.Desugar | golox/internal/parser/parser.go:221-231 | the desugared loop has no nil node when its parts have none |
| LoxParser.ForClauses | golox/internal/parser/parser.go:181-218 | the clauses move forward; corrected, error-free clauses have no nil node |
| LoxParser.ParseFor | golox/internal/parser/parser.go:181-233 | `for` moves forward; corrected it never panics |
| LoxParser.ParseWhile | golox/internal/parser/parser.go:235-245 | `while` moves forward; corrected it never panics and keeps the condition's errors (see Findings) |
| LoxParser.ParseElse | golox/internal/parser/parser.go:255-260 | no `else` gives no branch and moves nowhere; an `else` gives a branch |
| LoxParser.ParseIf | golox/internal/parser/parser.go:247-263 | `if` moves forward; corrected it keeps the condition's errors (see Findings) |
| LoxParser.BlockLoop | golox/internal/parser/parser.go:282-296 | a block keeps every declaration parsed, each with its error |
| LoxParser.ParseParameters | golox/internal/parser/parser.go:115-129 | the parameter list keeps those collected and has at most 255 |
| LoxParser.ParseFunDeclaration | golox/internal/parser/parser.go:108-139 | an error-free function declaration has at most 255 parameters and moves forward |
| LoxParser.ClassMethods | golox/internal/parser/parser.go:89-99 | the method loop moves forward; corrected, error-free methods have no nil node |
| LoxParser.ParseClassDeclaration | golox/internal/parser/parser.go:72-106 | a class declaration moves forward; corrected it never panics |
| LoxParser.ParseStatement | golox/internal/parser/parser.go:141-161 | `statement` moves forward and consumes a token; corrected it never panics and an error-free statement has no nil node |
| LoxParser.ParseDeclaration | golox/internal/parser/parser.go:58-70 | the same for `declaration` |
| LoxParser.SyncCaseMatchesNoKind | golox/internal/parser/parser.go:622-640 | as written the case label of `synchronize` ORs the keywords' values to 63, which no token kind has |
| LoxParser.SyncLoop | golox/internal/parser/parser.go:622-640 | the loop of `synchronize` only moves forward and stays on the tokens |
| LoxParser.Synchronized | golox/internal/parser/parser.go:622-640 | `synchronize` skips at least one token off EOF |
| LoxParser.ParseLoop | golox/internal/parser/parser.go:36-56 | the program loop ends at EOF and keeps every statement and error |
| LoxParser.ParseProgram | golox/internal/parser/parser.go:32-56 | `Parse` ends at EOF; corrected it never panics and an error-free program has no nil node |
| LoxParser.Parser.constructor | golox/internal/parser/parser.go:32-34 | the parser starts at the first token |
| LoxParser.Parser.Advance | golox/internal/parser/parser.go:653-660 | the token stepped over, nothing at EOF; the cursor as `Advanced` |
| LoxParser.Parser.Match | golox/internal/parser/parser.go:642-651 | steps over the current token exactly when it has one of the kinds |
| LoxParser.Parser.Consume | golox/internal/parser/parser.go:607-614 | the result is `Consumed` and the cursor `Skip` |
| LoxParser.Parser.Synchronize | golox/internal/parser/parser.go:622-640 | the cursor moves as the corrected `Synchronized` |
| LoxParser.Parser.Declaration | golox/internal/parser/parser.go:58-70 | the statement, error and cursor of the corrected `ParseDeclaration` |
| LoxParser.Parser.BlockStatement | golox/internal/parser/parser.go:282-296 | the block, errors and cursor of the corrected `BlockLoop` |
| LoxParser.Parser.Parse | golox/internal/parser/parser.go:36-56 | the statements and errors of the corrected `ParseLoop`; ends at EOF, and without errors no nil node |
| LoxParserProperties.SyncLoopFindsFirstBoundary | golox/internal/parser/parser.go:622-640 | the loop of `synchronize` stops at the first boundary: EOF, past a `;`, or (corrected) before a statement keyword |
| LoxParserProperties.SynchronizeStopsAtFirstBoundary | golox/internal/parser/parser.go:622-640 | off EOF `synchronize` skips a token and stops at the first boundary after it |
| LoxParserProperties.AsWrittenSynchronizeSkipsKeywords | golox/internal/parser/parser.go:622-640 | as written recovery runs to EOF or just past a `;`, over every keyword |
| LoxParserProperties.CorrectedSynchronizeStopsAtKeywords | golox/internal/parser/parser.go:622-640 | corrected, recovery stops at the first statement keyword it meets |
| LoxParserProperties.CallPassesPrimary | golox/internal/parser/parser.go:506-542 | a primary no call, property or unary operator extends is the unary result |
| LoxParserProperties.BinaryPassesOperand | golox/internal/parser/parser.go:399-504 | an operand no operator of the level follows is the level's result |
| LoxParserProperties.LogicalPassesOperand | golox/internal/parser/parser.go:367-397 | the same for `and` and `or` |
| LoxParserProperties.UnaryIsExpression | golox/internal/parser/parser.go:335-520 | a unary result nothing extends is the whole expression |
| LoxParserProperties.PrimaryIsExpression | golox/internal/parser/parser.go:335-605 | a primary nothing extends is the whole expression |
| LoxParserProperties.AtomIsExpression | golox/internal/parser/parser.go:567-605 | a number or a name before a stopping token is a literal or a variable, one token long |
| LoxParserProperties.MinusBeforeParen | golox/internal/parser/parser.go:506-605 | `-)` is "Expect expression." at the `)`, which is consumed |
| LoxParserProperties.BinaryLoopKeepsLeft | golox/internal/parser/parser.go:399-504 | left associativity: the tree built so far ends at the bottom of the result's left spine, every node above it an operator of the level |
| LoxParserProperties.SubtractionAssociatesLeft | golox/internal/parser/parser.go:455-481 | `a - b - c` parses to `(a - b) - c` |
| LoxParserProperties.ProductNestsUnderSum | golox/internal/parser/parser.go:455-504 | `a + b * c` parses to `a + (b * c)` |
| LoxParserProperties.NameAssigned | golox/internal/parser/parser.go:339-365 | a name before `=` becomes the assignment of what follows |
| LoxParserProperties.AssignmentAssociatesRight | golox/internal/parser/parser.go:339-365 | `a = b = c` parses to `a = (b = c)` |
| LoxParserProperties.PrecedenceLadder | golox/internal/parser/parser.go:367-520 | every `or` expression the corrected parser accepts without error is layered: each binary and logical node takes its left operand from its own level and its right one from the next tighter level, from `or` down to `unary` |
| LoxParserProperties.LogicalLayered | golox/internal/parser/parser.go:367-397 | `or` is built from `and` operands and `and` from `equality` operands, left-associated |
| LoxParserProperties.LogicalLoopLayered | golox/internal/parser/parser.go:369-379 | each turn of the `or`/`and` loop adds a node of that level over the tighter right operand |
| LoxParserProperties.BinaryLayered | golox/internal/parser/parser.go:399-504 | `equality`, `comparison`, `term` and `factor` are each built from the next tighter level's operands, left-associated |
| LoxParserProperties.BinaryLoopLayered | golox/internal/parser/parser.go:401-424 | each turn of a binary level's loop adds a node of exactly that level (the operator is one of the level's) |
| LoxParserProperties.BinaryNodeLayered | golox/internal/parser/parser.go:401-424 | an operator the level's loop matches has that level's rank |
| LoxParserProperties.OperandLayered | golox/internal/parser/parser.go:399-504 | the operands of `factor` are `unary` expressions, those of `term` `factor` expressions, and so on up |
| LoxParserProperties.UnaryGround | golox/internal/parser/parser.go:506-520 | `unary` yields no binary, logical or assignment node at its top |
| LoxParserProperties.CallLoopGround | golox/internal/parser/parser.go:522-542 | the loop of `call` adds only calls and property reads |
| LoxParserProperties.PrimaryGround | golox/internal/parser/parser.go:567-605 | `primary` yields a literal, a name, `this`, `super` or a group |
| LoxParserProperties.DesugarShape | golox/internal/parser/parser.go:221-231 | a `for` is its initializer then a `while` (in a block when there is an initializer); the condition is `true` when absent; the body is followed by the increment when present |
| LoxParserProperties.ForParsed | golox/internal/parser/parser.go:181-233 | `for` returns the desugaring of its clauses and body, the clauses' errors before the body's |
| LoxParserProperties.ForeverLoop | golox/internal/parser/parser.go:181-233 | `for (;;) x;` parses to `while (true) x;` |
| LoxParserProperties.ExpressionAtEof | golox/internal/parser/parser.go:567-605 | an expression at EOF: as written the nil dereference; corrected, "Expect expression." at EOF |
| LoxParserProperties.UnclosedArguments | golox/internal/parser/parser.go:544-565 | arguments without `)`: as written the nil dereference of `paren`; corrected, the callee and "Expect ')' after arguments." |
| LoxParserProperties.ErrorOverwrittenInCallChain | golox/internal/parser/parser.go:522-542 | `f(-)();`: as written a call of a nil callee without error; corrected, "Expect expression." at the first `)` |
| LoxParserProperties.RecoveryAfterMissingSemicolon | golox/internal/parser/parser.go:622-640 | `1 2 print 3;`: as written recovery skips `print 3;`; corrected it stops before `print` |
| LoxParserProperties.NameStatement | golox/internal/parser/parser.go:265-272 | `x;` is the expression statement of the variable |
| LoxParserProperties.WhileDropsConditionErrors | golox/internal/parser/parser.go:235-245 | as written `while` reports only its body's errors |
| LoxParserProperties.WhileReportsConditionErrors | golox/internal/parser/parser.go:235-245 | corrected it reports those of `(`, condition, `)` and body, in order |
| LoxParserProperties.IfDropsConditionErrors | golox/internal/parser/parser.go:247-263 | as written `if` loses its condition's errors |
| LoxParserProperties.IfReportsConditionErrors | golox/internal/parser/parser.go:247-263 | corrected the condition's errors come between those of `(` and `)` |
| Scanner.ScanWhile | golox/internal/scanner/scanner.go:181-187 | a peek-and-advance loop stops at the first byte that fails the test, or at the end; every byte before it passes |
| Scanner.DotIndex | golox/internal/scanner/scanner.go:196-205 | the first '.' of the text, or its length when there is none |
| Scanner.PeekNextAt | golox/internal/scanner/scanner.go:80-86 | corrected `peekNext`: the byte after the cursor exactly when there is one, else "EOF reached" (see Findings) |
| Scanner.NumberAtFails | golox/internal/scanner/scanner.go:188-195 | digits that reach the end give "End of file reached"; digits followed by a single byte give "EOF reached" (corrected `peekNext`) |
| Scanner.NumberAtEnd | golox/internal/scanner/scanner.go:180-210 | a number that ends inside the source is a Number token whose value is the decimal its text denotes |
| Scanner.ResolveAt | golox/internal/scanner/scanner.go:212-296 | every lexeme consumes at least one byte and stays in the source; one without error is never EOF |
| Scanner.Scanner.constructor | golox/internal/scanner/scanner.go:22-29 | no tokens, both cursors at 0, line 0 |
| Scanner.Scanner.CopyOf | golox/internal/scanner/scanner.go:48 | the copy a value receiver scans has every field of the original |
| Scanner.Scanner.Peek | golox/internal/scanner/scanner.go:72-78 | the byte under the cursor exactly when there is one, else "End of file reached" |
| Scanner.Scanner.PeekNext | golox/internal/scanner/scanner.go:80-86 | the corrected `peekNext` on the scanner's fields |
| Scanner.Scanner.PeekCurrentLexeme | golox/internal/scanner/scanner.go:88-91 | the text from the lexeme start to the cursor |
| Scanner.Scanner.Advance | golox/internal/scanner/scanner.go:93-97 | returns the byte under the cursor and moves one past it |
| Scanner.Scanner.Match | golox/internal/scanner/scanner.go:99-110 | consumes the byte exactly when it is the expected one |
| Scanner.Scanner.AddToken | golox/internal/scanner/scanner.go:112-120 | appends a token with the current lexeme, line, literal and value, unless the kind is Meaningless |
| Scanner.Scanner.AdvanceWhile | golox/internal/scanner/scanner.go:181-187 | the cursor ends where `ScanWhile` says |
| Scanner.Scanner.CreateString | golox/internal/scanner/scanner.go:122-151 | the string lexeme of `StringAt`: literal, cursor, line and "Unterminated string" |
| Scanner.Scanner.CreateIdentifier | golox/internal/scanner/scanner.go:153-178 | the identifier or keyword of `IdentifierAt` |
| Scanner.Scanner.CreateNumber | golox/internal/scanner/scanner.go:180-210 | the number of `NumberAt`, with the corrected `peekNext` |
| Scanner.Scanner.SkipComment | golox/internal/scanner/scanner.go:260-276 | a comment runs to the newline, adds a line and no token; at the end of the source it is "End of file reached" |
| Scanner.Scanner.EqualsOr | golox/internal/scanner/scanner.go:236-259 | a two-byte operator when '=' follows, the one-byte one otherwise |
| Scanner.Scanner.ResolveTokenKind | golox/internal/scanner/scanner.go:212-296 | the kind, literal, value, error, cursor and line of `ResolveAt` |
| Scanner.Scanner.ScanTokens | golox/internal/scanner/scanner.go:48-66 | the tokens already held, the scanned ones and one EOF token on the final line; the errors of the failed lexemes in order |
| ScannerProperties.ScanLoopExtends | golox/internal/scanner/scanner.go:51-61 | the scan loop only appends tokens and errors and never moves the line backwards |
| ScannerProperties.ScanEndsWithOneEof | golox/internal/scanner/scanner.go:48-66 | the scan ends with exactly one EOF token, on the final line, even when lexemes failed |
| ScannerProperties.ScanLinesStartAtZero | golox/internal/scanner/scanner.go:22-29 | the final line is at least 0 |
| ScannerProperties.TwoCharacterOperatorsWin | golox/internal/scanner/scanner.go:236-259 | `!=`, `==`, `<=`, `>=` are one token each; without '=' the first byte alone is the token |
| ScannerProperties.BlanksYieldNothing | golox/internal/scanner/scanner.go:280-284 | blanks add no token and each newline adds a line |
| ScannerProperties.CommentAtEndIsError | golox/internal/scanner/scanner.go:260-276 | a comment reaching the end is "End of file reached" and adds no token |
| ScannerProperties.CommentThenNewline | golox/internal/scanner/scanner.go:260-284 | a comment and its newline add no token and two lines |
| ScannerProperties.CommentSkipsToNewline | golox/internal/scanner/scanner.go:260-276 | a comment resumes the scan at its newline, one line on |
| ScannerProperties.NewlineYieldsNothing | golox/internal/scanner/scanner.go:282-284 | a newline adds no token and one line |
| ScannerProperties.SingleBackslashIsSlash | golox/internal/scanner/scanner.go:260-279 | a single backslash is the Slash token |
| ScannerProperties.StringLiteralBetweenQuotes | golox/internal/scanner/scanner.go:122-151 | a string's literal is the text between its quotes, the lexeme keeps the quotes, and inner newlines add lines |
| ScannerProperties.UnterminatedStringIsError | golox/internal/scanner/scanner.go:122-151 | a string without closing quote is "Unterminated string", no token, cursor at the end |
| ScannerProperties.IdentifiersAreMaximalAndReclassified | golox/internal/scanner/scanner.go:153-178 | an identifier is the longest alphanumeric run, a keyword exactly when its text is reserved |
| ScannerProperties.UnrecognizedByteIsReported | golox/internal/scanner/scanner.go:287-294 | any other byte is an error with its line and text, no token, and the scan goes on |
| ScannerProperties.NumberAtEndIsError | golox/internal/scanner/scanner.go:180-191 | a number running to the end is "End of file reached" and no token |
| ScannerProperties.PeekNextAsWritten | golox/internal/scanner/scanner.go:80-86 | the guard as written lets the cursor on the last byte through to an out-of-range read |
| ScannerProperties.NumberBeforeLastByteReadsPastEnd | golox/internal/scanner/scanner.go:180-195 | on "1;" the number branch calls `peekNext` on the last byte: as written an index out of range; corrected "EOF reached" |
| ScannerProperties.NumberBeforeLastByteCorrected | golox/internal/scanner/scanner.go:48-66 | corrected, "1;" scans to the semicolon and EOF with the error "EOF reached" |
| ScannerProperties.ScansNumber | golox/internal/scanner/scanner_test.go:66-68 | "88.8" is one Number token of value 88.8 |
| ScannerProperties.ScansString | golox/internal/scanner/scanner_test.go:62-64 | the source `"Ahoj"` (with its quotes) is one String token with literal "Ahoj" |
| ScannerProperties.ScansKeywordsCaseSensitively | golox/internal/scanner/scanner_test.go:70-80 | "And and" is an identifier then the And keyword: keywords are case-sensitive |
| ScannerProperties.ScanLoopStep | golox/internal/scanner/scanner.go:51-61 | one turn of the loop appends the lexeme's token or its error |
| ScannerProperties.ScansCapitalisedAnd | golox/internal/scanner/scanner_test.go:70-80 | the first word of "And and" is not a reserved word and is emitted as an identifier |
| ScannerProperties.ScansLowerCaseAnd | golox/internal/scanner/scanner_test.go:70-80 | the second word of "And and" is the And keyword |
| Tokens.Ordinal | golox/internal/scanner/token.go:5-48 | each kind's `iota` value is below 40 |
| Tokens.KeywordKindsAreARange | golox/internal/scanner/token.go:5-48 | the keyword kinds are exactly the block And..While of the enumeration |
| Tokens.Lower | golox/internal/scanner/token.go:93-111 | ASCII lower-casing keeps the length and lower-cases each byte |
| Tokens.OrdinalRoundTrip | golox/internal/scanner/token.go:5-48 | every kind's integer value denotes that kind |
| Tokens.KindOfRoundTrip | golox/internal/scanner/token.go:5-48 | exactly 0..39 denote a kind, each the kind whose value it is |
| Tokens.DisplayRoundTrip | golox/internal/scanner/token.go:50-91 | a kind's display string reads back to the kind: no two kinds share one |
| Tokens.KindNameCases | golox/internal/scanner/token.go:113-119 | `TokenKind.String` is "Not a valid literal" exactly outside 0..39, and otherwise names the kind of that value |
| Tokens.KindNameOfKind | golox/internal/scanner/token.go:113-119 | on a declared kind, the string is the kind's table entry |
| Tokens.TokenStringDeterminesKind | golox/internal/scanner/token.go:133-135 | two tokens print alike exactly when their kinds agree |
| Tokens.KeywordsDomain | golox/internal/scanner/token.go:93-111 | the keyword table holds exactly the 16 lower-case reserved words |
| Tokens.KeywordsAreLowerCasedNames | golox/internal/scanner/token.go:93-111 | each reserved word maps into And..While and is its kind's display name lower-cased |
| Tokens.KeywordKindsAreReserved | golox/internal/scanner/token.go:93-111 | every keyword kind is reached through the table |
| Tokens.KeywordsCaseSensitive | golox/internal/scanner/token.go:93-111 | "and" is reserved and "And" is not |
| LegacyTokens.SingleValue | golox/token.go:11-23 | the single-character kinds take the values 0..10 |
| LegacyTokens.DoubleValue | golox/token.go:27-36 | the one-or-two-character kinds take 0..7 |
| LegacyTokens.LiteralValue | golox/token.go:40-44 | the literal kinds take 0..2 |
| LegacyTokens.KeywordValue | golox/token.go:62-79 | the keywords take 0..15 |
| LegacyTokens.CategoriesShareValues | golox/token.go:11-110 | every category restarts at 0: the first kind of each and EOF share the value 0, so the integer does not determine the kind |
| LegacyTokens.LiteralStringCases | golox/token.go:46-58 | `Literal.String` names Identifier, String, Number and is "Not a valid literal" exactly outside 0..2 |
| LegacyTokens.KeywordTableFollowsConstants | golox/token.go:62-106 | the keyword table's entry at a keyword's value is that keyword's name |
| LegacyTokens.KeywordStringFallback | golox/token.go:100-106 | `Keyword.String` is "Not a valid keyword" exactly outside 0..15 |
| LegacyTokens.CategoryThenModern | golox/token.go:9-110 | every kind but Meaningless has a legacy counterpart and comes back from it |
| LegacyTokens.ModernThenCategory | golox/token.go:9-110 | every legacy kind is the counterpart of the kind of the same name |
| LegacyTokens.CategoryInjective | golox/token.go:9-110 | distinct kinds are distinct legacy kinds, even where their integer values coincide |
| LegacyTokens.CategoryDefined | golox/token.go:9-110 | only Meaningless has no legacy counterpart |
| LegacyScanner.KindOptionIsCategoryValue | golox/scanner.go:153-234 | the integer each branch returns is the category value of the same-named legacy constant; Meaningless gives none |
| LegacyScanner.ResolveAt | golox/scanner.go:153-234 | every lexeme consumes at least one byte and stays in the source |
| LegacyScanner.Scanner.constructor | golox/scanner.go:13-19 | the literal `Scanner{source: src}`: every other field zero |
| LegacyScanner.Scanner.CopyOf | golox/scanner.go:21 | the copy a value receiver scans has every field of the original |
| LegacyScanner.Scanner.Peek | golox/scanner.go:51-57 | the byte under the cursor exactly when there is one, else "End of file reached" |
| LegacyScanner.Scanner.PeekNext | golox/scanner.go:59-65 | corrected guard: the byte after the cursor exactly when there is one, else "EOF reached" |
| LegacyScanner.Scanner.Advance | golox/scanner.go:45-49 | returns the byte under the cursor and moves one past it |
| LegacyScanner.Scanner.Match | golox/scanner.go:67-78 | consumes the byte exactly when it is the expected one |
| LegacyScanner.Scanner.AddToken | golox/scanner.go:80-88 | appends a token for the current lexeme unless the kind is Meaningless |
| LegacyScanner.Scanner.AdvanceWhile | golox/scanner.go:121-128 | the cursor ends where `ScanWhile` says |
| LegacyScanner.Scanner.CreateString | golox/scanner.go:90-119 | the newer scanner's string lexeme, renumbered |
| LegacyScanner.Scanner.CreateNumber | golox/scanner.go:121-151 | the newer scanner's number lexeme, renumbered |
| LegacyScanner.Scanner.SkipComment | golox/scanner.go:201-217 | a comment runs to the newline and adds a line; at the end it is "End of file reached" |
| LegacyScanner.Scanner.EqualsOr | golox/scanner.go:177-200 | a two-byte operator when '=' follows, the one-byte one otherwise |
| LegacyScanner.Scanner.ResolveTokenKind | golox/scanner.go:153-234 | the kind, literal, value, error, cursor and line of `ResolveAt` |
| LegacyScanner.Scanner.ScanTokens | golox/scanner.go:21-39 | the scanned tokens and one EOF token on the final line; the returned error is always nil |
| LegacyScannerProperties.ResolveAtIsTranslated | golox/scanner.go:153-234 | away from letters the earlier lexer is the newer one renumbered |
| LegacyScannerProperties.LetterIsOneUnrecognisedByte | golox/scanner.go:227-233 | a letter is "Token not Recognized" after one byte, where the newer scanner reads an identifier |
| LegacyScannerProperties.SameAsModernWithoutLetters | golox/scanner.go:21-39 | on a source without letters the earlier scan is the newer one, tokens renumbered and errors renamed |
| LegacyScannerProperties.ScanSourceWithoutLetters | golox/scanner.go:21-39 | hence, without letters, the earlier tokens are the newer ones renumbered, EOF included |
| LegacyScannerProperties.LettersAreNotRecognized | golox/scanner.go:227-233 | "x" scans to the EOF token alone |
| LegacyScannerProperties.ScansString | golox/scanner_test.go:37-39 | the first token of the source `"Ahoj"` carries the literal Ahoj |
| LegacyScannerProperties.ScansNumber | golox/scanner_test.go:41-43 | the first token of 88.8 has the value 88.8 |
| Printer.DigitChar | golox/internal/expr/printer.go:26 | the character of a decimal digit is a digit whose code is '0' plus the digit |
| Printer.NatText | golox/internal/expr/printer.go:26 | the decimal text of a natural number is a non-empty string of digits |
| Printer.PrintAll | golox/internal/expr/printer.go:47-50 | each operand printed, in order |
| Printer.Parenthesize | golox/internal/expr/printer.go:41-54 | the buffer holds "(", the name, then " " and each printed operand, then ")" |
| Printer.SpacedStep | golox/internal/expr/printer.go:47-50 | writing " " and one more operand extends the spaced operands by one |
| Printer.NatTextRoundTrip | golox/internal/expr/printer.go:26 | reading the digits back, as the scanner does, gives the number |
| Printer.IntTextOfWholeNumber | golox/internal/expr/printer.go:23-36 | a whole number prints as itself, its negation as the negated integer |
| Printer.CountAppend | golox/internal/expr/printer.go:41-54 | the count of a character in a concatenation is the sum of the counts |
| Printer.PrintBalanced | golox/internal/expr/printer.go:11-54 | the rendering opens as many parentheses as it closes when no operator name or string literal brings its own |
| Printer.LiteralBalanced | golox/internal/expr/printer.go:23-36 | a literal's text is balanced unless a string brings a parenthesis |
| Printer.ParenthesizedCounts | golox/internal/expr/printer.go:41-54 | parenthesising balanced operands under a parenthesis-free name is balanced |
| Printer.SpacedBalanced | golox/internal/expr/printer.go:47-50 | spaced balanced operands are balanced |
| Printer.PrintsProductOfNegationAndGroup | golox/internal/expr/printer_test.go:8-35 | `-123 * (45)` renders as "(* (- 123) (group 45))" |
| Ast.NewUnary | golox/internal/expr/expr.go:22-24 | the node holds the operator and its operand |
| Ast.NewBinary | golox/internal/expr/expr.go:36-38 | the node holds left operand, operator and right operand, though the constructor takes the right operand before the operator |
| Ast.NewLiteral | golox/internal/expr/expr.go:59-61 | the node holds the tag, the number and the string |
| Ast.NewGroup | golox/internal/expr/expr.go:71-73 | the node wraps exactly the expression |
| Ast.BoolLiteral | golox/internal/parser/parser.go:568-571 | `false` and `true` are bool literals whose number is non-zero exactly for `true` |
| Ast.DefaultVisitBlock | golox/internal/stmt/stmt.go:104-114 | every statement is visited in order, past failures, and the errors joined |
| Ast.JoinedErrorsNil | golox/internal/stmt/stmt.go:104-114 | the joined error is nil exactly when every visit succeeded |
| Ast.JoinedErrorsAppend | golox/internal/stmt/stmt.go:104-114 | a later statement's errors come after an earlier one's |
| LinkedList.Node.Allocate | challenges/doubleLinkedList.c:15-16 | `malloc` then `content = val`: `next` and `prev` are unset |
| LinkedList.Contents | challenges/doubleLinkedList.c:8-12 | the contents along a chain of nodes |
| LinkedList.AppendToAsWritten | challenges/doubleLinkedList.c:14-30 | as written: the new node follows the parent and links back to it; a former successor follows it; with no former successor its `next` is never written (see Findings) |
| LinkedList.AppendTo | challenges/doubleLinkedList.c:14-30 | corrected (`next` set to NULL): the node is inserted right after the parent, the chain stays doubly linked, the contents get the value inserted after the parent's position, nothing else changes |
| LinkedList.ContentsOfInsertion | challenges/doubleLinkedList.c:14-30 | inserting a node after position k inserts its content after position k |
| LinkedList.LinkedInsertion | challenges/doubleLinkedList.c:19-27 | the links the insertion writes keep the chain doubly linked |
| LinkedList.MainAppendsInOrder | challenges/doubleLinkedList.c:32-53 | with the head's `next` set to NULL first, appending 4 and then 3 after the head gives the chain 2, 3, 4, as `main`'s assertions expect |
| LinkedList.MallocedHead | challenges/doubleLinkedList.c:33-41 | as written the head comes from `malloc` with `next` unset, which the first `append_to` reads (see Findings) |
| CloxMemory.GrowCapacity | clox/memory.h:6 | the next capacity is at least 8 |
| CloxMemory.GrowCapacityCases | clox/memory.h:6 | below 8 it is 8, from 8 on double |
| CloxMemory.GrowCapacityGrows | clox/memory.h:6 | growing always makes room and at most doubles from 4 on |
| CloxMemory.GrownFromZero | clox/memory.h:6 | growing from 0 gives non-negative capacities |
| CloxMemory.GrownFromZeroIsPowerOfTwo | clox/memory.h:6 | growing from 0 n times gives 8 times 2^(n-1) |
| CloxMemory.ArrayRequests | clox/memory.h:8-13 | a request scales both counts by the element size; freeing is growing to zero elements |
| CloxChunk.Chunk.constructor | clox/chunk.c:7-11 | an initialised chunk: no bytes, no capacity |
| CloxChunk.Chunk.Init | clox/chunk.c:7-11 | `initChunk` empties the chunk |
| CloxChunk.Chunk.Write | clox/chunk.c:13-21 | `writeChunk` appends the byte and keeps the bytes written; the buffer grows to `GROW_CAPACITY` exactly when full, otherwise it is the same buffer |
| CloxChunk.Chunk.Free | clox/chunk.c:23-26 | `freeChunk` releases the buffer and reinitialises |
| CloxChunk.GrowBytes | clox/memory.h:8-10 | a grown buffer of the new size keeps the old bytes |
| CloxChunk.OpCodeRoundTrip | clox/chunk.h:8-16 | decoding inverts the numbering of the seven instructions, and only bytes 0..6 decode |
| CloxChunk.NextCapacityKeepsInvariant | clox/chunk.c:13-21 | one write keeps room for every byte and the buffer at most twice what it needs beyond 8; the capacity changes exactly when the buffer was full |
| CloxChunk.CapacityAfterWrites | clox/chunk.c:13-21 | after n writes into a fresh chunk the capacity is 0 exactly when n is 0, holds the n bytes, stays compact, and is 8 times a power of two |
| CloxChunk.GrowsOnlyWhenFull | clox/chunk.c:14-18 | a fresh chunk grows exactly at counts 0, 8, 16, 32, ... |
| Printer.PrintsNegation | golox/internal/expr/printer_test.go:10-16 | the left operand of the printer test, `-123`, renders as "(- 123)" |
| Printer.PrintsGroup | golox/internal/expr/printer_test.go:17-22 | the right operand, the grouped 45, renders as "(group 45)" |
| Printer.SpacesProductOperands | golox/internal/expr/printer_test.go:28-30 | the two rendered operands are each preceded by one space |
| Printer.ParenthesizesProduct | golox/internal/expr/printer_test.go:28-30 | the product's name and rendered operands are parenthesised as the test expects |
| CloxVm.Exec | clox/vm.c:52-84 | one trip round `run`'s switch: an instruction that lets the loop go on always moves `ip` forward |
| CloxVm.VM.constructor | clox/vm.c:20-24 | a VM after `initVM`: empty stack, no chunk, no instruction pointer |
| CloxVm.VM.ResetStack | clox/vm.c:8 | `resetStack` empties the stack and changes nothing else |
| CloxVm.VM.Init | clox/vm.c:20-24 | `initVM`: empty stack, null chunk, null `ip` |
| CloxVm.VM.Free | clox/vm.c:26-29 | `freeVM` frees the VM's chunk (left empty) and reinitialises the VM |
| CloxVm.VM.Push | clox/vm.c:10-13 | `push` appends the value to the stack, everything else unchanged |
| CloxVm.VM.Pop | clox/vm.c:15-18 | `pop` returns the top and removes it, everything else unchanged |
| CloxVm.VM.BinaryOp | clox/vm.c:36-41 | `BINARY_OP` pops `b`, then `a`, and pushes `a op b`, agreeing step for step with `Exec` |
| CloxVm.VM.Dispatch | clox/vm.c:52-84 | one dispatch of the imperative VM agrees with `Exec` on the chunk's bytes: same next `ip`, same stack, same stop |
| CloxVm.VM.RunLoop | clox/vm.c:43-85 | `run`'s loop ends with the outcome and stack of the functional `Run` from the same `ip` and stack |
| CloxVm.VM.Interpret | clox/vm.c:93-107 | `interpret`: a failed compile frees the chunk and gives the compile error; otherwise the chunk runs from byte 0 as `Run` says, and is freed afterwards |
| CloxVm.BinaryOperandOrder | clox/vm.c:38-40 | `OP_SUBTRACT` with `a` below `b` leaves `a - b` in their place, one slot shorter |
| CloxVm.BinaryOperandAdd | clox/vm.c:59-62 | `OP_ADD` on `[a, b]` leaves `[a + b]` |
| CloxVm.DivideOperandOrder | clox/vm.c:71-74 | `OP_DIVIDE` leaves `a / b`, and stops exactly when `b` is zero |
| CloxVm.NegateKeepsDepth | clox/vm.c:75-78 | `OP_NEGATE` negates the top and keeps the rest and the depth |
| CloxVm.ConstantPushes | clox/vm.c:54-58 | `OP_CONSTANT` pushes the constant its operand byte indexes and skips two bytes |
| CloxVm.ReturnPrintsTop | clox/vm.c:79-83 | `OP_RETURN` prints the popped top and the result is `INTERPRET_OK` |
| CloxVm.StackStaysBounded | clox/vm.h:8 | no run lets the stack outgrow its `STACK_MAX` (256) slots |
| CloxVm.RunIsOkOrUndefined | clox/vm.c:31-91 | `run` never yields `INTERPRET_RUNTIME_ERROR`: whenever the C code defines a result it is `INTERPRET_OK` |
| CloxVm.MainChunkPrintsQuotient | clox/main.c:9-24 | the chunk `main` builds returns `(1.2 + 3.4) / 5.6` with an empty stack |
| CloxCompiler.Rules | clox/compiler.c:276-317 | the rule table has one entry per token type (40) |
| CloxCompiler.GetRuleIsTable | clox/compiler.c:319 | `getRule` is the table entry indexed by the token type |
| CloxCompiler.OperatorsAreBinary | clox/compiler.c:276-317 | every token with a precedence above `PREC_NONE` has `binary` as infix rule, and EOF has none |
| CloxCompiler.ErrorReported | clox/compiler.c:57-73 | `errorAt` does nothing in panic mode; otherwise it sets panic mode and the error flag and reports line, location and message |
| CloxCompiler.ScanStep | clox/compiler.c:83-92 | one token of `advance`'s loop: an error token is reported at itself with its own text and the loop goes on; any other token stops it |
| CloxCompiler.ScannedPastErrors | clox/compiler.c:83-92 | `advance`'s loop stops at the first token that is not an error, every token skipped was an error, and code and constants are untouched |
| CloxCompiler.Advanced | clox/compiler.c:83-92 | `advance`: `previous` becomes the old `current`, the new `current` is not an error token, and input is consumed unless at EOF |
| CloxCompiler.Consumed | clox/compiler.c:94-101 | `consume` of an unexpected token sets the error flag and emits nothing |
| CloxCompiler.Emitted | clox/compiler.c:114-116 | `emitByte` appends exactly that byte |
| CloxCompiler.EmittedOps | clox/compiler.c:118-121 | the instructions appended in order |
| CloxCompiler.ConstantMade | clox/compiler.c:236-244 | `makeConstant` adds the value to the pool and returns its index; past 256 constants it reports "Too many constants in one chunk." and returns 0 |
| CloxCompiler.ConstantEmitted | clox/compiler.c:246-248 | `emitConstant` appends `OP_CONSTANT` and the index `makeConstant` gave |
| CloxCompiler.ExpressionCompiled | clox/compiler.c:134-136 | `expression` consumes input unless at EOF |
| CloxCompiler.PrecedenceParsed | clox/compiler.c:321-337 | `parsePrecedence` only extends the state and consumes input unless at EOF |
| CloxCompiler.InfixApplied | clox/compiler.c:331-336 | the infix loop only extends the state |
| CloxCompiler.PrefixApplied | clox/compiler.c:327-329 | calling a prefix rule only extends the state |
| CloxCompiler.BinaryCompiled | clox/compiler.c:173-212 | `binary` only extends the state |
| CloxCompiler.GroupingCompiled | clox/compiler.c:214-217 | `grouping` only extends the state |
| CloxCompiler.UnaryCompiled | clox/compiler.c:219-234 | `unary` only extends the state |
| CloxCompiler.NumberCompiled | clox/compiler.c:250-253 | `number` only extends the state |
| CloxCompiler.StringCompiled | clox/compiler.c:271-274 | `string` only extends the state |
| CloxCompiler.LiteralCompiled | clox/compiler.c:255-269 | `literal` only extends the state |
| CloxCompiler.PrintCompiled | clox/compiler.c:138-142 | `printStatement` only extends the state |
| CloxCompiler.ExpressionStatementCompiled | clox/compiler.c:167-171 | `expressionStatement` consumes input unless at EOF |
| CloxCompiler.StatementCompiled | clox/compiler.c:346-352 | `statement` consumes input unless at EOF |
| CloxCompiler.SkippedToBoundary | clox/compiler.c:147-164 | `synchronize`'s loop stops at EOF, just after a `;`, or at a token that starts a statement, emitting nothing |
| CloxCompiler.Synchronized | clox/compiler.c:144-165 | `synchronize` ends at a statement boundary with code and constants untouched |
| CloxCompiler.DeclarationCompiled | clox/compiler.c:339-344 | `declaration` consumes input unless at EOF |
| CloxCompiler.DeclarationsCompiled | clox/compiler.c:362-364 | `compile`'s loop ends at EOF |
| CloxCompiler.Initial | clox/compiler.c:354-361 | the set-up of `compile` is a valid state |
| CloxCompiler.Compiled | clox/compiler.c:354-372 | `compile` returns true exactly when no error was reported, and its code ends with `endCompiler`'s `OP_RETURN` |
| CloxCompiler.Compiler.constructor | clox/compiler.c:354-361 | the compiler's set-up is the state `Initial` describes |
| CloxCompiler.Compiler.ScanToken | clox/compiler.c:88 | the next token, and the position moves past it unless at the end |
| CloxCompiler.Compiler.ErrorAt | clox/compiler.c:57-73 | the new state is `ErrorReported` of the old |
| CloxCompiler.Compiler.Error | clox/compiler.c:75-77 | an error at the previous token |
| CloxCompiler.Compiler.ErrorAtCurrent | clox/compiler.c:79-81 | an error at the current token |
| CloxCompiler.Compiler.Advance | clox/compiler.c:83-92 | the new state is `Advanced` of the old |
| CloxCompiler.Compiler.ScanCurrent | clox/compiler.c:88 | the scanned token becomes `current` |
| CloxCompiler.Compiler.Consume | clox/compiler.c:94-101 | the new state is `Consumed` of the old |
| CloxCompiler.Compiler.Match | clox/compiler.c:107-112 | true exactly when the current token has the type, and then it is passed over |
| CloxCompiler.Compiler.EmitByte | clox/compiler.c:114-116 | the byte appended, as `Emitted` |
| CloxCompiler.Compiler.EmitBytes | clox/compiler.c:118-121 | both bytes appended in order |
| CloxCompiler.Compiler.MakeConstant | clox/compiler.c:236-244 | index and state as `ConstantMade` |
| CloxCompiler.Compiler.EmitConstant | clox/compiler.c:246-248 | the new state is `ConstantEmitted` of the old |
| CloxCompiler.Compiler.Expression | clox/compiler.c:134-136 | the new state is `ExpressionCompiled` of the old |
| CloxCompiler.Compiler.ParsePrecedence | clox/compiler.c:321-337 | the loop's final state is `PrecedenceParsed` of the old |
| CloxCompiler.Compiler.CallPrefix | clox/compiler.c:327-329 | the prefix rule's function, as `PrefixApplied` |
| CloxCompiler.Compiler.Binary | clox/compiler.c:173-212 | the new state is `BinaryCompiled` of the old |
| CloxCompiler.Compiler.EmitOperator | clox/compiler.c:178-211 | the operator's instructions appended, `!=`, `>=` and `<=` as two |
| CloxCompiler.Compiler.Grouping | clox/compiler.c:214-217 | the new state is `GroupingCompiled` of the old |
| CloxCompiler.Compiler.Unary | clox/compiler.c:219-234 | the new state is `UnaryCompiled` of the old |
| CloxCompiler.Compiler.Number | clox/compiler.c:250-253 | the new state is `NumberCompiled` of the old |
| CloxCompiler.Compiler.String | clox/compiler.c:271-274 | the new state is `StringCompiled` of the old |
| CloxCompiler.Compiler.Literal | clox/compiler.c:255-269 | the new state is `LiteralCompiled` of the old |
| CloxCompiler.Compiler.PrintStatement | clox/compiler.c:138-142 | the new state is `PrintCompiled` of the old |
| CloxCompiler.Compiler.ExpressionStatement | clox/compiler.c:167-171 | the new state is `ExpressionStatementCompiled` of the old |
| CloxCompiler.Compiler.Statement | clox/compiler.c:346-352 | the new state is `StatementCompiled` of the old |
| CloxCompiler.Compiler.Synchronize | clox/compiler.c:144-165 | the loop's final state is `Synchronized` of the old |
| CloxCompiler.Compiler.Declaration | clox/compiler.c:339-344 | the new state is `DeclarationCompiled` of the old |
| CloxCompiler.Compiler.Compile | clox/compiler.c:354-372 | the result and final state are those of `Compiled` |
| CloxCompiler.EmittedOpsUnfold | clox/compiler.c:178-211 | the one- and two-instruction cases of `binary` are one or two `emitByte`s |
| CloxCompilerProperties.RunAppend | clox/vm.c:43-85 | running two pieces of code in turn has the stack effect of running them joined |
| CloxCompilerProperties.SplitAppended | clox/compiler.c:114-121 | code appended in two steps is the first step's code, then the second's |
| CloxCompilerProperties.PushedThenKept | clox/compiler.c:321-337 | an operand followed by operators that keep its place pushes one value |
| CloxCompilerProperties.KeptThenKept | clox/compiler.c:331-336 | two runs of operator code that keep the operand's place keep it together |
| CloxCompilerProperties.BalancedThenBalanced | clox/compiler.c:362-364 | two balanced declarations in turn are balanced |
| CloxCompilerProperties.PushesThenPops | clox/compiler.c:138-142 | a pushed value followed by `OP_PRINT` or `OP_POP` leaves the stack as it was |
| CloxCompilerProperties.PushedThenPopped | clox/compiler.c:167-171 | the same for code appended after earlier code |
| CloxCompilerProperties.PushedThenUnary | clox/compiler.c:219-234 | a pushed value followed by `OP_NOT` or `OP_NEGATE` still pushes one value |
| CloxCompilerProperties.OperatorsHaveInfix | clox/compiler.c:276-317 | only operators bind at a precedence |
| CloxCompilerProperties.OperatorPopsOne | clox/compiler.c:178-211 | every operator's instructions take two values and leave one |
| CloxCompilerProperties.RunSingle | clox/vm.c:52-84 | running one instruction is one step |
| CloxCompilerProperties.PushedThenOperator | clox/compiler.c:173-212 | a right operand and its operator keep the left operand's place |
| CloxCompilerProperties.PrecedencePushes | clox/compiler.c:321-337 | code `parsePrecedence` emits without an error pushes exactly one value |
| CloxCompilerProperties.InfixKeeps | clox/compiler.c:331-336 | code the infix loop emits without an error keeps the left operand's place |
| CloxCompilerProperties.BinaryKeeps | clox/compiler.c:173-212 | code `binary` emits without an error keeps the left operand's place |
| CloxCompilerProperties.PrefixPushes | clox/compiler.c:327-329 | code a prefix rule emits without an error pushes one value |
| CloxCompilerProperties.GroupingPushes | clox/compiler.c:214-217 | a grouping pushes one value |
| CloxCompilerProperties.UnaryPushes | clox/compiler.c:219-234 | a unary expression pushes one value |
| CloxCompilerProperties.ConstantPushes | clox/compiler.c:246-248 | `emitConstant`'s code pushes one value |
| CloxCompilerProperties.LiteralPushes | clox/compiler.c:255-269 | `false`, `true` and `nil` push one value |
| CloxCompilerProperties.StatementBalanced | clox/compiler.c:346-352 | a statement compiled without an error leaves the stack as it found it |
| CloxCompilerProperties.ExpressionThenPops | clox/compiler.c:138-142 | `printStatement` and `expressionStatement` push the value and consume it |
| CloxCompilerProperties.DeclarationBalanced | clox/compiler.c:339-344 | a declaration compiled without an error is balanced |
| CloxCompilerProperties.DeclarationsBalanced | clox/compiler.c:362-364 | the declarations of `compile` are balanced |
| CloxCompilerProperties.CompiledIsBalanced | clox/compiler.c:354-372 | a program `compile` accepts leaves the stack empty before its final `OP_RETURN` |
| CloxCompilerProperties.CompiledReturnUnderflows | clox/compiler.c:125-132 | as written, so the `OP_RETURN` of every accepted program pops an empty stack in the VM of clox/vm.c |
| CloxCompilerProperties.ReturnOnEmpty | clox/vm.c:79-83 | `OP_RETURN` after balanced code underflows |
| CloxCompilerProperties.ComparisonsAsNamed | clox/compiler.c:179-196 | `!=`, `>`, `>=`, `<`, `<=` compute the comparison they name |
| CloxCompilerProperties.AdvanceClean | clox/compiler.c:83-92 | `advance` onto a non-error token moves exactly one token |
| CloxCompilerProperties.FirstOperand | clox/compiler.c:321-337 | `1 == 2 < 3;` up to its first operand, in either table |
| CloxCompilerProperties.StatementEnd | clox/compiler.c:167-171 | the end of the expression statement and of `compile` for that program |
| CloxCompilerProperties.OperatorThenNumber | clox/compiler.c:250-253 | an operator followed by a number: the number becomes the next constant |
| CloxCompilerProperties.InfixStops | clox/compiler.c:331 | the infix loop stops at a token binding below the precedence |
| CloxCompilerProperties.InfixGoesOn | clox/compiler.c:331-336 | the infix loop goes on at a token binding at least as tightly |
| CloxCompilerProperties.BinaryEmitsOne | clox/compiler.c:173-212 | `binary` for a one-instruction operator: right operand, then the instruction |
| CloxCompilerProperties.OperatorAndNumber | clox/compiler.c:173-212 | one operator with a number as right operand emits the constant, then the instruction |
| CloxCompilerProperties.ComparisonAsWrittenBindsLikeEquality | clox/compiler.c:292-295 | as written, `1 == 2 < 3;` compiles as `(1 == 2) < 3` |
| CloxCompilerProperties.AsWrittenExpression | clox/compiler.c:292-295 | as written, the expression `1 == 2 < 3` emits `OP_EQUAL` before the third constant |
| CloxCompilerProperties.AsWrittenOperators | clox/compiler.c:331-336 | as written, both operators are applied by the outer infix loop |
| CloxCompilerProperties.CorrectedRightOperand | clox/compiler.c:24-36 | corrected, the right operand of `==` is `2 < 3` |
| CloxCompilerProperties.RulesOfExample | clox/compiler.c:289-295 | the rules of `==`, `<` and `;` in each table |
| CloxCompilerProperties.ComparisonCorrectedBindsTighter | clox/compiler.c:24-36 | corrected, `1 == 2 < 3;` compiles as `1 == (2 < 3)` |
| CloxCompilerProperties.CorrectedExpression | clox/compiler.c:24-36 | corrected, the expression emits `OP_LESS` before `OP_EQUAL` |
| CloxCompilerProperties.CompiledFrom | clox/compiler.c:354-372 | `compile` after its first `advance`: the declarations, then `OP_RETURN` |
| CloxCompilerProperties.CorrectedOperators | clox/compiler.c:331-336 | corrected, `<` is compiled inside the right operand of `==` |
| CloxCompilerProperties.EqualityClosed | clox/compiler.c:173-212 | `binary` for `==` appends `OP_EQUAL` after its right operand |
| CloxCompilerProperties.CorrectedLevels | clox/compiler.c:24-36 | corrected, each operator binds at the level the enumeration's comments give its kind, in both directions |
| CloxCompilerProperties.AsWrittenLevels | clox/compiler.c:276-317 | as written, no rule has `PREC_COMPARISON` and the comparisons share the equality level |

## Left out

- LoxValues.Arithmetic: `/` by zero stops the run with `NonFinite`, where Go's float64 division gives an infinity or NaN. Infinities and NaN are not modelled.
- CloxVm.Exec: `OP_DIVIDE` by zero stops with `DivisionByZero`, where C's double division gives an infinity or NaN.
- Scanner.ParseDecimal: numbers are exact reals, not float64 or double. `strconv.ParseFloat` (golox) and `strtod` (clox) are read as the exact decimal value of the lexeme, so rounding is not modelled.
- LoxInterpreter.Exec: `print` appends the printed Value to the output. It does not append the text `stringify` makes of it (golox/internal/interpreter/interpreter.go:525-537), so Go's `%f` formatting is not modelled.
- LoxInterpreter.CallValue: calling the native `clock()` stops the run with `ClockCall`, since the wall clock is outside the model.
- LoxInterpreter.Exec: evaluation is bounded by `fuel`. A function call and each `while` iteration spend one unit. A program that runs out stops with `OutOfFuel`, so non-terminating Lox programs are not modelled.
- LoxInterpreter.LookUpVar: the resolver's `locals` table is keyed by the position of the name's token in the token stream. The source keys it by `name.Key()` (golox/internal/interpreter/interpreter.go:66-70), whose definition is not part of this model.
- Printer.LiteralText: a number literal prints as its integer part truncated toward zero. golox/internal/expr/printer.go:26 calls `strconv.Itoa` on the number, which does not type-check on a float64 field; integer conversion is read as the evident intent.
- CloxCompiler.Emitted: the compiler writes each byte with its source line and adds constants with `addConstant`, as clox/chunk.h:28-29 declares them. clox/chunk.c defines a two-argument `writeChunk` and no `addConstant`, so the compiler is modelled against the declared interface.
- CloxChunk.Chunk.Write: `count` and `capacity` are unbounded. C `int` overflow in `count + 1` and in `GROW_CAPACITY` is not modelled, and neither is a failing `reallocate` (memory.c is not part of this model).
- CloxMemory.GrowCapacity: computed on unbounded integers, so the signed overflow of `capacity * 2` is not modelled.
- LinkedList.Node.Allocate: `malloc` always succeeds here. The source dereferences its result without a NULL check (challenges/doubleLinkedList.c:15-16).
- CloxVm.VM.Interpret: takes the compiled chunk, its constants and the compiler's result as parameters. clox/vm.c:93-107 calls a two-argument `compile` that compiler.c does not define, and the VM keeps a pointer to the function's local `Chunk` after `interpret` returns. The model neither compiles inside `interpret` nor keeps that dangling pointer.
- CloxVm.VM.Free: requires a chunk. freeVM right after initVM passes NULL to `freeChunk` (clox/vm.c:26-29 into clox/chunk.c:23-24), which dereferences it; that call is excluded, not modelled.
- CloxVm.Exec: the `DEBUG_TRACE_EXECUTION` trace, the interned-strings table and the object list of clox/vm.h:15-16 are not modelled. Printing the returned value is the `Returned` outcome.
- CloxCompilerProperties.CompiledReturnUnderflows: compiler.c emits no value before `OP_RETURN`, while vm.c pops one there. The two files belong to different stages of the book, so the model proves the mismatch but does not pick a corrected pairing.
- CloxCompiler.Compiled: the scanner (scanner.c) is not part of this model. `compile` is given the token sequence the scanner would produce, ending in one EOF token. Error reports are values, not text on stderr.
- CloxCompiler.Compiler.EmitOperator: instructions are symbolic `Code` values (an instruction or an operand byte). The byte numbering of the clox/compiler.c opcodes beyond clox/chunk.h's seven is not modelled.
- Environment.GetAt: `getAt` and `assignAt` are not defined in the environment.go in these files. They are modelled as walking `distance` enclosing links and then reading or writing that frame's map, and a missing key reads nil, as a Go map read does.
- LegacyTokens.Token: the earlier snapshot (golox/scanner.go, golox/token.go) does not compile, and the model picks one reading for each of its three compile errors. (1) golox/scanner.go:36 and :85 build a `Token` from five values (kind, lexeme, literal, value, line), but the struct at golox/token.go:112-117 has four fields and no `value`: the model keeps the five values the scanner builds, with `value` a real. (2) `Meaningless` (golox/scanner.go:82, 217, 222, 225) is declared nowhere in the package: the model reads it as "no token", the `None` of `LegacyScanner.KindOption`, which `AddToken` skips. (3) golox/scanner.go:197 names `GreaterEqual`, but golox/token.go:33 declares `GreaterEquAL`: the model maps the `>=` branch to that constant, value 5 in its category.
- LegacyScanner.Scanner: the earlier scanner recognises no identifiers. A letter is "Token not Recognized", as in golox/scanner.go.
- LoxParser.Parser.Parse: the `Parser` class runs the corrected productions only, the ones that never dereference nil. The parser as written is modelled by the same production functions with the `AsWritten` variant, where a nil dereference is the `Panic` result (see Findings).
- The drivers (golox's main.go, clox's main.c apart from the chunk it builds, the REPL and file reading) are I/O and are not modelled.

## Findings

| source | as written | input that shows it | evidently intended | confidence | as-written member | corrected member |
|---|---|---|---|---|---|---|
| golox/internal/interpreter/interpreter.go:501-511 | `checkOperandsNumber` lets a bool operand through, so `VisitBinaryExpr` reaches the `l.(float64)` assertion with a bool and panics | `true - 1;` | the runtime error "Operands must be numbers" | not executed | LoxValues.BinaryValueAsWritten, LoxValues.TrueMinusOne | LoxValues.CheckOperandsNumber, LoxValues.BinaryAsWrittenAgreement |
| golox/internal/interpreter/interpreter.go:78-89 | `executeStmts` returns on a statement's error or return signal without restoring `i.env`; at top level the block's environment stays current | `{ nil(); } var a = 1; print a;` gives a second error, "Undefined variable", and prints nothing | the previous environment restored on every exit: one error, then `1` printed | not executed | LoxInterpreterProperties.ExecAsWritten, LoxInterpreterProperties.LeakHidesLaterGlobals | LoxInterpreter.Interpreter.ExecuteStatements, LoxInterpreterProperties.RestoredEnvironmentKeepsGlobals |
| golox/internal/interpreter/interpreter.go:396-402 | `VisitReturnStmt` evaluates the value even when there is none, calling a method on a nil `Expr` | `fun f() { return; } f();` | a bare `return;` returns nil | not executed | LoxInterpreterProperties.ExecReturnAsWritten, LoxInterpreterProperties.BareReturnAsWritten | LoxInterpreterProperties.FunctionReturnsItsValue |
| golox/internal/interpreter/loxcallable.go:43-47 | `bind` defines `this` in the method's own closure, which every bound copy shares, and adds no frame | binding one method to two instances: the first copy then sees the second instance as `this`; a subclass method finds nil at the `super` distance the resolver records | a fresh environment holding `this`, enclosed by the closure | not executed | LoxClasses.BindAsWritten, LoxClasses.BindAsWrittenAliasesThis, LoxClasses.SuperMissedAsWritten | LoxClasses.Bind, LoxClasses.BindKeepsThisApart, LoxClasses.SuperAtResolvedDepth |
| golox/internal/scanner/scanner.go:80-86 | the guard `current+1 > len` lets the cursor on the last byte through to `source[len]`; golox/scanner.go:59-65 has the same guard | `1;`: the number branch peeks past the `;` and the index is out of range | `current+1 >= len` returns "EOF reached" | not executed | ScannerProperties.PeekNextAsWritten, ScannerProperties.NumberBeforeLastByteReadsPastEnd | Scanner.PeekNextAt, ScannerProperties.NumberBeforeLastByteCorrected |
| golox/internal/parser/parser.go:602-604 | `primary` at EOF builds its error from `*p.advance()`, and `advance` returns nil there | `print` with nothing after it | "Expect expression." at the EOF token | not executed | LoxParserProperties.ExpressionAtEof | LoxParserProperties.ExpressionAtEof |
| golox/internal/parser/parser.go:563-564 | `finishCall` dereferences the nil `paren` that `consume` returns when `)` is missing | `f(x;` | the callee and the error "Expect ')' after arguments." | not executed | LoxParserProperties.UnclosedArguments | LoxParserProperties.UnclosedArguments |
| golox/internal/parser/parser.go:527-541 | `call` goes on after `finishCall` fails, and the next call overwrites its error | `f(-)();` parses as a call of a nil callee without error | `finishCall`'s error returned at once | not executed | LoxParserProperties.ErrorOverwrittenInCallChain | LoxParserProperties.ErrorOverwrittenInCallChain |
| golox/internal/parser/parser.go:235-245 | `whileStatement` collects the errors of `(`, `)` and body but returns only the body's, and never collects the condition's | `while (-) x;` reports nothing | all of them, joined in order | not executed | LoxParserProperties.WhileDropsConditionErrors | LoxParserProperties.WhileReportsConditionErrors |
| golox/internal/parser/parser.go:251-252 | `ifStatement` overwrites the condition's error with the `)` check's | `if (-) x;` loses "Expect expression." | the condition's error joined with the others | not executed | LoxParserProperties.IfDropsConditionErrors | LoxParserProperties.IfReportsConditionErrors |
| golox/internal/parser/parser.go:632-635 | the case label ORs the keyword constants into one value, 63, which no token kind has, so recovery never stops at a keyword | `1 2 print 3;` skips the whole `print 3;` | stop before any of the listed keywords | not executed | LoxParser.SyncCaseMatchesNoKind, LoxParserProperties.AsWrittenSynchronizeSkipsKeywords, LoxParserProperties.RecoveryAfterMissingSemicolon | LoxParserProperties.CorrectedSynchronizeStopsAtKeywords, LoxParserProperties.RecoveryAfterMissingSemicolon |
| clox/compiler.c:292-295 | the four comparison operators have `PREC_EQUALITY` in the rule table, so no rule has `PREC_COMPARISON` | `1 == 2 < 3;` compiles as `(1 == 2) < 3` | `PREC_COMPARISON`, as the enumeration at clox/compiler.c:24-36 declares: `1 == (2 < 3)` | not executed | CloxCompilerProperties.AsWrittenLevels, CloxCompilerProperties.ComparisonAsWrittenBindsLikeEquality | CloxCompilerProperties.CorrectedLevels, CloxCompilerProperties.ComparisonCorrectedBindsTighter |
| challenges/doubleLinkedList.c:14-30 | `append_to` never writes the new node's `next` when the parent has no successor, and `main`'s head from `malloc` has no `next` either, so the first `parent->next == NULL` test reads an indeterminate pointer | the first `append_to(head, 4)` in `main` | `next` set to NULL on every new node | not executed | LinkedList.AppendToAsWritten, LinkedList.MallocedHead | LinkedList.AppendTo, LinkedList.MainAppendsInOrder |
