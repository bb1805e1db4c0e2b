# Verified model of the C backend's lowering pass

The C backend of the clux compiler (`src/cbackend/`) turns a checked, scoped syntax tree into a flat C
program. This project models that pass in Dafny and proves what it keeps and where it stops keeping it.

## What is modelled

**Statement lowering.** `Syntax` holds the checked tree and the flat instructions. `SourceSemantics`
gives the tree a meaning with lexical scopes, closures that copy what they capture, and effectful
expressions that call functions and leave a trace of events. `TargetSemantics` gives the instructions the
meaning of C: braces open scopes, a declared name is in scope in its own initialiser but has no value yet,
locals hide globals. Fuel bounds the rounds of each loop and nothing else. Evaluation may end in `Wrong`
(an unbound or unset name, an operator without a result): such a source run has no meaning and the theorems
say nothing about it.

`Lowering` is the pass as a function of its context, in two modes. `AsWritten` is what the compiler does.
`Intended` picks its C names in the same way but keeps to the source's scopes. Both keep apart what C text
does not: a local and a global of the same spelling. The argument has four parts:

1. *Intended lowering preserves meaning* (`Simulation`): same outcome, trace, globals and variables for every
   statement, state and number of loop rounds.
2. *C text binds every identifier to what is meant exactly when no global is captured* (`Spelling`), and C name
   resolution is proved sound for the way the text runs. The condition can be read off the source text
   (`SourceCapture`, `Correctness.CaptureFromText`).
3. *The compiler emits the intended text exactly for clean functions* (`Scoping`,
   `Correctness.AsWrittenIffClean`), without any assumption on the function: the condition follows, through
   the source text alone, which names the compiler and the source find and which are taken.
4. *Hence the compiler is correct on such functions* (`Correctness.CompiledPreservesMeaning`) and on all
   functions nested in them, at any depth (`NestedFunctions.EveryNestedPreservesMeaning`), no C name is declared
   twice (`Correctness.NoRedeclaration`), and different identifiers are different strings (`Rendering`).
   `Tame` is a condition on the text alone under which a function is clean, `ListedNames` says exactly which
   names, defers and numbers the compiler has listed behind a statement, and `Headers` when the C file holds the
   code that was lowered. `Emission` says when lowering ends. `Counterexamples` gives, for each condition, a small
   program whose generated code means something else; `DeferReturns` settles returns in defer bodies.

`LoweringContext` is the same pass as the compiler runs it: an object whose lists and counters every step
updates. Each of its methods is proved to do exactly what the function in `Lowering` says.

**Type interning.** `TypeMap`, `TypeTable` and `TypeUnit` model `map_type` over a type graph that may be
cyclic: the C names, what each name stands for, and the recursion that grows the unit's table in place.
`TypeAgree` says by rules on the graph alone when two types are the same in C, and what the name of each looks
like: two types get the same C name if and only if they agree.

**Bit fields.** `Bitfield` models the layout of the declared fields, `bf_pack` on an array of 64-bit words, the
run-time read and the constant constructor, down to masks and shifts. `bf_pack` writes two words at most and is
right exactly for fields that fit into two; the parser declares no others.

**Equality helpers.** `EqHelpers` registers helpers in dependency order; `EqCode` models the helpers that are
emitted and proves that a call of a registered one finds all it needs and decides equality.

**Boundary types.** `FfiTypedefs` models the texts and typedefs of types at the C boundary in dependency order;
`FfiText` reads them back: what each text consists of follows from the type alone.

**Audits.** `CallAudit` models which function objects are used, and the search for calls without a target.

**Test blocks.** `TestBlocks` models the in-place rewriting of the linked list of top-level declarations.

**Optional slots.** `OptionalSlots` models type inference of the back end and the four places where a plain
value is wrapped into an option because of what was inferred; `SlotValues` says what the values are: the type
inferred is that of the value, and the slot holds the right one.

## Findings

The code was followed where it and its documentation part ways; each point is proved.

- `include/sema/symbol.h:132-133` says `var x = x + 1` reads the outer `x`; the lowered initialiser reads the
  new variable before it has a value (`Counterexamples.OwnNameInInitialiser`).
- A name declared in a `for` header stays registered behind the loop (`Counterexamples.NameOfForHeader`); the
  same holds for what a try prefix or a list of defers declares, and for a defer behind its block
  (`ListedNames.StmtListed` has all places; `Counterexamples.DeferOutlivesBlock`).
- The body of a defer is lowered among the locals of the place it is inlined at
  (`Counterexamples.DeferBodySeesLocals`), and a function nested in it among its captured values
  (`Counterexamples.NestedSeesCaptures`).
- A block's local can be spelled like a global and capture a mention of it behind the block
  (`Counterexamples.LocalSpelledLikeGlobal`, exactly when by `Correctness.CaptureFromText`); ordinary shadowing
  does no harm (`Counterexamples.HarmlessShadow`).
- A nested function empties the list of taken names, and a later local takes the name of an earlier one
  (`Counterexamples.NestedFunctionForgetsNames`).
- The search for a free C name works in a buffer of 512 bytes, which cuts all suffixes of a long symbol to the
  same text: with 510 characters the third declaration of a name is searched for without end, with 511 the
  second (`Naming.LongSymbols`; `Naming.StuckExactly` has the exact condition, `Naming.RoomEnough` the size up to which
  nothing is cut).
- The branch of lowering for `x += e.?` drops the operator (`Counterexamples.CompoundFromTry`). This is about the
  branch as written: analysis expands such an assignment before (`src/sema/stmt_assign.c:268-312`).
- In a void function the operand of `return` is evaluated after the defers (`Counterexamples.VoidReturnAfterDefers`).
- A `return` in a defer body leaves the function (`Counterexamples.ReturnInDeferBody`); the inlined code has
  one exactly when the body is not contained (`DeferReturns.InlinedReturns`).
- Parser and analysis accept assignments and expressions in a `for` header (`src/parser/parse_for.c:26-30`,
  `src/sema/stmt_flow.c:216-231`). The writer prints the assignment with a target that is declared nowhere
  (`Headers.AssignmentInHeader`) and the expression not at all (`Headers.CallInHeader`); exactly which headers
  are kept is `Headers.WrittenExactly`.
- An aggregate with a `str` is refused at the C boundary with the advice to pass a pointer
  (`src/cbackend/c_lower_ffi.c:213-215`); a pointer to it is refused as well (`FfiText.RefusedExactly`).
- A value of type `?T` for a slot `??T` is not wrapped (`OptionalSlots.NestedOptionNotWrapped`).
- Inference does not look through a qualified pointer or option; without a note of analysis an option is then
  wrapped twice (`OptionalSlots.UnknownWrappedTwice`), and an assignment through such a pointer does not know
  that its slot is optional and stores the plain value (`OptionalSlots.UnseenTargetUnwrapped`).
- The audit passes do not look into the statements of a try expression (`CallAudit.TryHides`); what they miss
  is exactly what occurs there only (`CallAudit.SeenOrHidden`).

## Conditions of the main theorem

- `Correctness.WellFormed`: globals can be found through their symbols, parameters have different symbols, no
  defer body returns (`Containment.Contained`), and no mention of a global stands where a local with its symbol
  is in scope in C (`SourceCapture.OpenIn`, walked over the body).
- `Scoping.Clean`, walked over the body (`Correctness.CleanFunction`): the compiler and the source spell every
  mentioned name alike, give every local the same C name and find the same defers; no void function returns a
  value past its defers, and no compound assignment takes a try expression.
- `Tame.TameFunction` implies it and needs no lowering context: no initialiser mentions its own name; what a `for`
  header, a try or a list of defers declares is not mentioned behind it until it is declared anew; no defer is
  called behind its block; the body of a defer mentions captured values, its own names, and globals without a
  namesake among the locals; there is no nested function, no compound assignment of a try, and no value returned
  past the defers of a void function.
- `Headers.PlainHeaders`, for the step from the code to the file: `for` headers are empty or initialised
  declarations.

## Model

| member | source | states |
|---|---|---|
| Naming.Sanitize | src/cbackend/c_lower_util.c:54-75 | a symbol has identifier characters only and is unchanged if it already had |
| Naming.SymbolInjective | src/cbackend/c_lower_util.c:54-75 | within a module, kind and name can be read back from the symbol |
| Naming.TemporaryIsNoSymbol | src/cbackend/c_lower_stmt.c:1046-1099 | a temporary of the generated code never starts like a symbol of the module |
| Naming.RenderInjective | src/cbackend/c_lower_stmt.c:1046-1099 | two identifiers of a body are spelled alike exactly when they are the same, up to a local and a global of one text |
| Naming.FirstFreeBound | src/cbackend/c_lower_stmt.c:81-95 | without a buffer the suffix search stops within one try more than there are taken names |
| Naming.UniqueName | src/cbackend/c_lower_stmt.c:78-97 | the chosen name, cut to the buffer, is free, and is the plain symbol unless that is taken |
| Naming.UniqueText | src/cbackend/c_lower_stmt.c:78-97 | written out: the plain symbol, or `symbol_k`, cut to 511 characters, for the first free k from 2 on |
| Naming.LongSymbols | src/cbackend/c_lower_stmt.c:80-95 | with 510 characters the third declaration is searched for without end, with 511 the second |
| Naming.DecValue | src/cbackend/c_lower_stmt.c:93 | numbers in names are decimal without leading zeros |
| Naming.SanitizedChars | src/cbackend/c_lower_util.c:64-70 | which characters of a symbol stay, and that others become `_` |
| Naming.TemporaryTexts | src/cbackend/c_lower_stmt.c:1054-1099 | the temporaries written out |
| Naming.StuckExactly | src/cbackend/c_lower_stmt.c:80-95 | the search in the buffer never ends exactly when the symbol is taken and so is every text there is room for behind it; with no room for a digit that is one text |
| Naming.StuckWithinTaken | src/cbackend/c_lower_stmt.c:83-95 | if it ends at all it ends within one suffix more than there are taken names |
| Naming.RoomEnough | src/cbackend/c_lower_stmt.c:80-95 | where symbol, underscore and the largest suffix needed fit, it ends with the first free candidate and nothing is cut |
| LoweringContext.LowerCtx.UniqueCname | src/cbackend/c_lower_stmt.c:78-95 | the nested search loops over the cut candidates find the unique name, or find out that the search never ends |
| LoweringContext.LowerCtx.RegisterLocal | src/cbackend/c_lower_stmt.c:67-109 | the new local heads both lists under its unique C name; the endless search is flagged exactly when it happens; nothing else changes |
| LoweringContext.LowerCtx.LookupLocalCname | src/cbackend/c_lower_stmt.c:111-117 | the scan finds the newest visible local of that name, or none |
| LoweringContext.LowerCtx.FindDeferEntry | src/cbackend/c_lower_stmt.c:22-28 | the scan finds the newest registered defer of that name, or none |
| LoweringContext.LowerCtx.LowerAstList | src/cbackend/c_lower_stmt.c:1272-1287 | the loop over a statement list emits and changes exactly what the specification of lists says |
| LoweringContext.LowerCtx.LowerBlockNode | src/cbackend/c_lower_stmt.c:1292-1380 | a block emits its statements and gives back the locals it found |
| LoweringContext.LowerCtx.LowerTryPrefixNode | src/cbackend/c_lower_stmt.c:176-207 | setup, test and tail are lowered in this order as specified |
| LoweringContext.LowerCtx.LowerStmt | src/cbackend/c_lower_stmt.c:403-423 | prelude, statement, postlude: same code and same context as the specification |
| LoweringContext.LowerCtx.LowerStmtCore | src/cbackend/c_lower_stmt.c:425-1270 | every statement kind: same code and same context as the specification |
| LoweringContext.LowerCtx.LowerVarDef | src/cbackend/c_lower_stmt.c:665-769 | a declaration is registered before its initialiser is lowered; a try's value is stored by an ordinary assignment, discarded for `_` |
| LoweringContext.LowerCtx.LowerReturnNode | src/cbackend/c_lower_stmt.c:1046-1081 | a return behind defers saves its value first unless the function is void |
| LoweringContext.LowerCtx.LowerSwitch | src/cbackend/c_lower_stmt.c:1082-1145 | a switch becomes a temporary and a chain of ifs |
| LoweringContext.LowerCtx.LowerCases | src/cbackend/c_lower_stmt.c:1111-1144 | the loop over the branches chains them through their else parts; branches without patterns are dropped |
| LoweringContext.LowerCtx.LowerPatterns | src/cbackend/c_lower_stmt.c:1114-1122 | the loop over the patterns builds the left-leaning chain of alternatives |
| LoweringContext.LowerCtx.RegisterDefer | src/cbackend/c_lower_stmt.c:428-529 | a defer is registered and its captures are copied into a new struct |
| LoweringContext.LowerCtx.InlineDefer | src/cbackend/c_lower_stmt.c:935-961 | a call of a registered defer becomes its body, read against its own captures |
| LoweringContext.LowerCtx.LowerLocalFn | src/cbackend/c_lower_stmt.c:642-664 | a nested function becomes a function of its own, lowered by its own result; everything is restored but the list of taken names |
| LoweringContext.LowerCtx.LowerFunction | src/cbackend/c_lower.c:46-118 | a function starts with empty scopes; what is emitted is the code the main theorems are about |
| LoweringContext.ChainedSnoc | src/cbackend/c_lower_stmt.c:1129-1136 | hanging a branch behind the last one is the same as putting it into the innermost else part |
| ListedNames.StmtListed | src/cbackend/c_lower_stmt.c:403-1270 | the names and defers that the compiler would find behind a statement, in order, and the numbers of its temporaries are exactly what a count over the text gives |
| Freshness.LowerFresh | src/cbackend/c_lower_stmt.c:67-109 | every statement declares only names that are new in the function, once each |
| Freshness.ListFresh | src/cbackend/c_lower_stmt.c:1272-1287 | the same for statement lists |
| ExprSimulation.EvalSim | src/cbackend/c_lower_expr.c:1144-1170 | an expression gives the same value, events and effects in C |
| ExprSimulation.StoreSim | src/cbackend/c_lower_stmt.c:899-922 | an assignment stores the same value in the local or global that is meant |
| ExprSimulation.BranchSim | src/cbackend/c_lower_stmt.c:1113-1123 | patterns are evaluated left to right and only until the first match |
| Simulation.TrySim | src/cbackend/c_lower_stmt.c:176-207 | setup once, test once, the tail only on failure |
| Simulation.SimVarTry | src/cbackend/c_lower_stmt.c:691-722 | `var v = e.?` binds the success value or leaves through the tail |
| Simulation.SimAssignTry | src/cbackend/c_lower_stmt.c:772-802 | `x = e.?` stores the success value, and leaves the target alone on failure |
| Simulation.SimReturn | src/cbackend/c_lower_stmt.c:968-1081 | the value is the one before the defers ran; the defers run once, in order, before the return |
| Simulation.SimReturnTry | src/cbackend/c_lower_stmt.c:970-996 | `return e.?` returns the success value through the same path |
| Simulation.JumpSim | src/cbackend/c_lower_stmt.c:1146-1181 | break and continue run their defers first and then reach the enclosing loop |
| Simulation.SimSwitch | src/cbackend/c_lower_stmt.c:1082-1145 | the condition is evaluated once; exactly one body, the default or nothing runs |
| Simulation.SimArms | src/cbackend/c_lower_stmt.c:1111-1144 | the chain of ifs selects the branch the source selects, without fallthrough |
| Simulation.SimLoop | src/cbackend/c_lower_stmt.c:1202-1219 | every number of rounds matches, with declarations entered anew each round |
| Simulation.SimFor | src/cbackend/c_lower_stmt.c:1210-1219 | the header's declaration lives exactly as long as the loop |
| Simulation.SimDeferDef | src/cbackend/c_lower_stmt.c:428-529 | captured values are copied when the defer is registered |
| Simulation.SimDeferCall | src/cbackend/c_lower_stmt.c:935-961 | an inlined defer body reads those copies, not later assignments |
| Simulation.SimStmt | src/cbackend/c_lower_stmt.c:403-1270 | intended lowering of any statement: same outcome, trace, globals and live variables |
| Simulation.SimList | src/cbackend/c_lower_stmt.c:1272-1287 | the same for statement lists |
| Simulation.SimBlock | src/cbackend/c_lower_stmt.c:1182-1183 | flattening a block into the surrounding chain keeps its meaning |
| Spelling.CapturedExactly | src/cbackend/c_lower_stmt.c:78-97 | C scoping binds each identifier of the emitted text to the variable that is meant if and only if no mention of a global is captured |
| Spelling.ListRuns | src/cbackend/c_lower_stmt.c:1182-1183 | the static scopes are the ones that decide at run time: code with its identifiers resolved by them runs the same |
| Spelling.TextRuns | src/cbackend/c_lower_stmt.c:1182-1183 | without capture the text runs like code that keeps locals and globals apart |
| SourceCapture.StmtOpen | src/cbackend/c_lower_stmt.c:403-1270 | which C names a statement leaves in scope, and whether its code captures a global, can be read off the source |
| SourceCapture.ExprOpen | src/cbackend/c_lower_expr.c:1144-1170 | the same for the mentions in an expression |
| Scoping.StmtView | src/cbackend/c_lower_stmt.c:403-1270 | which names stay visible, taken and numbered behind a statement can be read off its text |
| Scoping.ExprTied | src/cbackend/c_lower_expr.c:1144-1170 | an expression reads the same in both views exactly when each of its names does |
| Scoping.StmtTied | src/cbackend/c_lower_stmt.c:403-1270 | a statement of any kind becomes the intended C text exactly when it is clean, and then numbering goes on alike |
| Scoping.ListTied | src/cbackend/c_lower_stmt.c:1272-1396 | the same for lists and blocks, which drop locals but not defers |
| Correctness.ParamsLineUp | src/cbackend/c_lower.c:96-106 | the body finds all parameters under their C names exactly when no two share a symbol |
| Correctness.CaptureFromText | src/cbackend/c_lower_stmt.c:78-97 | a function's code captures no global if and only if its source text shows no mention of a global where a local with its symbol is in scope |
| Correctness.IntendedPreservesMeaning | src/cbackend/c_lower.c:46-118 | a call of the intended C text gives the outcome, globals and trace of the source call |
| Correctness.AsWrittenIffClean | src/cbackend/c_lower_stmt.c:403-1396 | for every function, the compiler emits the intended C text if and only if the function is clean |
| Correctness.CompiledPreservesMeaning | src/cbackend/c_lower.c:46-118 | what the compiler emits for such a function is correct, for all arguments, globals and loop lengths |
| Correctness.NestedIsFunction | src/cbackend/c_lower_stmt.c:642-664 | a nested function is lowered like a function of the module that comes next |
| NestedFunctions.StmtSites | src/cbackend/c_lower_stmt.c:642-664 | the intended code of a statement brings one C function for each function nested in its text, at any depth and in the text's order |
| NestedFunctions.EveryNestedEmitted | src/cbackend/c_lower_stmt.c:642-664 | what is emitted for a clean function brings, for each function nested in it, that function's intended text and parameters |
| NestedFunctions.EveryNestedPreservesMeaning | src/cbackend/c_lower_stmt.c:642-664 | calls of the functions so emitted do what calls of the nested functions do |
| Tame.StmtWider | src/cbackend/c_lower_stmt.c:67-109 | behind a statement the compiler lists no other new names and defers than can be read off its text |
| Tame.StmtClean | src/cbackend/c_lower_stmt.c:403-1270 | a statement that mentions nothing the compiler lost track of is clean, and what is lost behind it can be read off its text |
| Tame.TameIsClean | src/cbackend/c_lower_stmt.c:403-1396 | for a tame function, a condition on the text alone, the compiler emits the intended text |
| Headers.WrittenExactly | src/cbackend/c_writer_stmt.c:137-161 | the file holds the code that was lowered if and only if every `for` header is one the writer keeps |
| Headers.PlainHeadersWritten | src/cbackend/c_lower_stmt.c:1210-1219 | a function whose headers are empty or initialised declarations reaches the file as it was lowered |
| Headers.FilePreservesMeaning | src/cbackend/c_writer_stmt.c:137-161 | what stands in the file for such a function means what the source means |
| Headers.AssignmentInHeader | src/cbackend/c_writer_stmt.c:148-152 | an assignment in a header is lowered right and printed with the wrong target |
| Headers.UnsetInHeader | src/cbackend/c_writer_stmt.c:139-147 | a declaration without initialiser loses its zero in a header |
| Headers.CallInHeader | src/cbackend/c_writer_stmt.c:137-153 | a call in a header is lowered right and not printed |
| Correctness.NoRedeclaration | src/cbackend/c_lower_stmt.c:67-109 | in intended code, in clean functions and in functions without nested ones all declared C names are different and hide no parameter |
| Emission.StmtCalm | src/cbackend/c_lower_stmt.c:83-95 | no search for a name hangs where every name leaves room for as many suffixes as names are taken |
| Emission.ShortNamesEmitted | src/cbackend/c_lower.c:46-118 | a function whose names leave room for as many suffixes as it registers locals reaches the C file |
| Rendering.StmtCarries | src/cbackend/c_lower_stmt.c:67-109 | every symbol that the code of a statement mentions or declares starts with the module's prefix |
| Rendering.RenderedApart | src/cbackend/c_lower_stmt.c:1046-1099 | two identifiers of a function are the same C string exactly when they are the same, up to a local and a global of one text |
| Rendering.VariableSymbol | src/cbackend/c_lower_stmt.c:77-78 | the symbol of a variable is prefix, `v_` and name |
| Counterexamples.UnsetIsZero | src/cbackend/c_lower_stmt.c:679-683 | a declaration without initialiser is lowered without one and starts at zero |
| Counterexamples.Underscore | src/cbackend/c_lower_stmt.c:803-832 | an assignment to `_` only evaluates its value, to anything else it stores |
| Counterexamples.DeferOutlivesBlock | src/cbackend/c_lower_stmt.c:22-28 | behind its block a defer is still found and inlined |
| Counterexamples.DeferBodySeesLocals | src/cbackend/c_lower_stmt.c:948-960 | a global in the body of a defer becomes the local of that name where the body is inlined |
| Counterexamples.NestedSeesCaptures | src/cbackend/c_lower_stmt.c:642-664 | a function nested in the body of a defer would read its captured values |
| Counterexamples.OwnNameInInitialiser | src/cbackend/c_lower_stmt.c:672-763 | `var x = x` reads the new variable unset |
| Counterexamples.NameOfForHeader | src/cbackend/c_lower_stmt.c:1210-1219 | a name of the header is looked for after it went out of scope |
| Counterexamples.LocalSpelledLikeGlobal | src/cbackend/c_lower_stmt.c:78-97 | a block's local captures the global mentioned behind the block, in both modes |
| Counterexamples.HarmlessShadow | src/cbackend/c_lower_stmt.c:119-130 | a local that shadows a global of its name meets all conditions |
| Counterexamples.NestedFunctionForgetsNames | src/cbackend/c_lower.c:48-49 | an inner local gets the C name of an outer one, and the wrong variable is returned |
| Counterexamples.CompoundFromTry | src/cbackend/c_lower_stmt.c:781-789 | the operator of a compound assignment from a try expression makes no difference |
| Counterexamples.VoidReturnAfterDefers | src/cbackend/c_lower_stmt.c:1046-1079 | in a void function the returned call runs after the defers |
| Counterexamples.ReturnInDeferBody | src/cbackend/c_lower_stmt.c:935-961 | a return in an inlined body leaves the function |
| DeferReturns.InlinedReturns | src/cbackend/c_lower_stmt.c:935-961 | in both modes the inlined body returns from the function if and only if the body of the defer is not contained |
| DeferReturns.ReturnLeavesCaller | src/cbackend/c_lower_stmt.c:935-961 | whenever the body returns, the source call goes on and the C code returns the body's value |
| Bitfield.MaskValue | src/cbackend/c_lower_expr.c:50-52 | the mask is 2^width - 1, and all ones from 64 on |
| Bitfield.PackExact | src/cbackend/c_lower_expr.c:55-69 | the masked writes set exactly the field's bits if and only if it fits into two words |
| Bitfield.PackAnywhere | src/cbackend/c_lower_expr.c:55-69 | they are right at every offset if and only if the field is at most one bit wider than a word |
| Bitfield.LayOut | src/parser/parse_bitfield.c:77-143 | a bit field gets storage if and only if it has 1 to 128 fields of different names, each of 1 bit to a word; fields follow each other in as few words as hold them |
| Bitfield.ConsecutiveLayout | src/parser/parse_bitfield.c:103-125 | fields laid out so are disjoint, lie in the storage, and are all written right |
| Bitfield.BfPack | src/cbackend/c_lower_expr.c:55-69 | in place: the field's bits become the value's low bits, all other bits stay |
| Bitfield.BfGet | src/cbackend/c_writer.c:69-82 | the run-time read gives the field's bits, zero-extended |
| Bitfield.ReadBack | src/cbackend/c_lower_expr.c:55-69 | reading back gives the value modulo 2^width; disjoint fields read as before |
| Bitfield.DisjointPacksCommute | src/cbackend/c_lower_expr.c:55-69 | writes of disjoint fields commute |
| Bitfield.PackAdds | src/cbackend/c_lower_expr.c:55-69 | writing into clear bits adds (value mod 2^width) * 2^offset to the stream's number |
| Bitfield.ConstantWords | src/cbackend/c_lower_expr.c:268-299 | the words read as one number are the sum of the fields; each is below 2^word_bits, so the last mask changes nothing |
| TypeMap.RenderTypeInjective | src/cbackend/c_lower_type.c:86-384 | C type names are equal as strings exactly when they are the same name |
| TypeTable.Canonical | src/cbackend/c_lower_type.c:13-24 | names in use that stand for the same erased type are the same name |
| TypeTable.AddEntry | src/cbackend/c_ir_unit.c:74-78 | a new entry keeps the table's invariant, among it one shared entry per kind, element and length |
| TypeAgree.AgreeErased | src/cbackend/c_lower_type.c:86-384 | rules on the graph alone say when two types are the same in C, and erasure says the same |
| TypeAgree.AnswersAgree | src/cbackend/c_lower_type.c:86-384 | two answers of the mapping on one unit, with anything mapped between them, are the same string if and only if the types agree by these rules |
| TypeAgree.AnswerSpelled | src/cbackend/c_lower_type.c:86-384 | the answer for a type is built up as the type is: scalars by sign and width, an enum and a qualified type as what is below, a pointer as its base and ` *`, structs numbered |
| TypeAgree.FieldTexts | src/cbackend/c_lower_type.c:147-202 | a complete struct, tuple or union has one field for each member with a type, in order, named after the member or its place |
| TypeAgree.NominalEntry | src/cbackend/c_lower_type.c:147-384 | a struct, tuple or union is entered as what it is |
| TypeUnit.Unit.FindType | src/cbackend/c_ir_type.c:15-21 | the scan finds an entry for this type and kind, or there is none |
| TypeUnit.Unit.FindStructuralType | src/cbackend/c_lower_type.c:72-84 | the scan finds the entry of this shape, or there is none |
| TypeUnit.Unit.SignatureFor | src/cbackend/c_lower_type.c:26-40 | function types with equal parts share one signature |
| TypeUnit.Unit.MapType | src/cbackend/c_lower_type.c:86-384 | terminates on every graph whose cycles pass through nominal types; the name stands for the type as C sees it, and is in the table unless a scalar or void; earlier names keep their meaning; nominal types met get all their fields |
| TypeUnit.Unit.MapShared | src/cbackend/c_lower_type.c:203-274 | no second entry of a shape, even if mapping the element made the first |
| TypeUnit.Unit.MapNominal | src/cbackend/c_lower_type.c:147-202 | a nominal type is entered before its members, then gets every member with its C name and type |
| TypeUnit.Unit.MapFunc | src/cbackend/c_lower_type.c:301-354 | a function type is named after the signature of its mapped parts |
| EqHelpers.NeedsPrecede | src/cbackend/c_lower_expr.c:343-375 | in an emittable list everything a helper needs, however deep, comes before it |
| EqHelpers.EqUnit.AddEqHelper | src/cbackend/c_ir_unit.c:46-57 | appended at the end unless already present |
| EqHelpers.EqUnit.EqRegister | src/cbackend/c_lower_expr.c:346-375 | the list gains what the type needs and nothing else, without duplicates and in dependency order; the string flag is set for nothing else |
| EqCode.HelperDecides | src/cbackend/c_writer_types.c:289-352 | a helper among whose predecessors all it calls is defined runs through on values of its type and says whether they are equal |
| EqCode.RegisteredReady | src/cbackend/c_lower_expr.c:343-375 | in a unit as registration leaves it every helper finds, before it, the helpers of its fields, members, elements or payload, and the string comparison if it needs it |
| EqCode.StrCmpWanted | src/cbackend/c_lower_expr.c:362-371 | the string comparison is asked for exactly by helpers with a string among their fields, members, elements or payload |
| EqCode.CompareRegistered | src/cbackend/c_lower_expr.c:346-375 | after registering a type with parts, its helper decides equality of any two of its values |
| TestBlocks.DeclarationKept | src/cbackend/c_backend.c:967-982 | a declaration that is no test is kept, behind those before it |
| TestBlocks.KeptOrTest | src/cbackend/c_backend.c:967-1044 | every declaration is kept or counted as a test, and no test is kept |
| TestBlocks.ProgramAst.StripTestBlocks | src/cbackend/c_backend.c:967-982 | the list holds exactly the other declarations in order; the last pointer is right |
| TestBlocks.ProgramAst.PrepareTests | src/cbackend/c_backend.c:986-1044 | each test is replaced in place by its numbered function; all else stays; the names are the tests' names |
| TestBlocks.TestFunctionsDiffer | src/cbackend/c_backend.c:1000-1002 | different tests become functions with different names |
| TestBlocks.ReplacedHasNoTests | src/cbackend/c_backend.c:967-1044 | after a test build's rewriting there is nothing left to strip |
| TestBlocks.NameReported | src/cbackend/c_backend.c:1018-1028 | the name reported for a number is the name of that test |
| CallAudit.CallTargetKnown | src/cbackend/c_lower.c:164-198 | a name is known exactly if it is a helper, an equality helper, an extern symbol or a function |
| CallAudit.KnownExactly | src/cbackend/c_lower.c:171-198 | the names that can be called, written out: the helpers, bit-field makers, registered equality helpers, extern symbols and functions |
| CallAudit.FirstUnknownMeaning | src/cbackend/c_lower.c:211-225 | nothing is found exactly when every visited call has a target; what is found is the first that has none |
| CallAudit.MissingCallInExpr | src/cbackend/c_lower.c:211-225 | the recursion answers for all visited places of an expression |
| CallAudit.MissingCallInStmts | src/cbackend/c_lower.c:227-239 | the loop answers for all visited places of a statement chain |
| CallAudit.FindMissingCall | src/cbackend/c_lower.c:241-253 | nothing is reported if and only if every visited call of the unit has a target; a reported name occurs and has none |
| CallAudit.Optimizer.MarkObject | src/cbackend/c_opt.c:7-14 | only the first function with that object is marked |
| CallAudit.Optimizer.Optimize | src/cbackend/c_opt.c:39-49 | a function is marked if and only if it is the first with its object and the object is mentioned in a visited place |
| CallAudit.ExprParts | include/cbackend/c_ir.h:124-157 | what is there in an expression is the node and what is in its operands, arguments, initialisers and try statements |
| CallAudit.UnitParts | src/cbackend/c_lower.c:241-253 | what is there in a unit is what is in bodies, cleanups and initialisers |
| CallAudit.SeenOrHidden | src/cbackend/c_opt.c:16-36 | what occurs in a unit is exactly what is visited or occurs inside try expressions |
| CallAudit.ReportCovers | src/cbackend/c_lower.c:241-253 | when nothing is reported, all calls have targets if and only if those inside try expressions have |
| CallAudit.MarksCover | src/cbackend/c_opt.c:39-49 | a mentioned function object goes unmarked exactly if it is mentioned inside try expressions only |
| CallAudit.TryHides | src/cbackend/c_opt.c:16-26 | a node in the statements of a try expression is there but not visited |
| FfiTypedefs.FfiUnit.FfiCType | src/cbackend/c_lower_ffi.c:181-248 | answers exactly for the types that have a C form, with their text (`FfiText.AnswerText`), which only mentions typedefs that are out |
| FfiText.AnswerText | src/cbackend/c_lower_ffi.c:178-248 | the text is at most one `const`, what the pointers and enums lead to, and as many `*` as there are pointers, those to void counted once |
| FfiText.TypedefLines | src/cbackend/c_lower_ffi.c:90-170 | every finished function type has its line, with the texts of its result and parameters, behind the lines of the function types these lead to |
| FfiText.Lines | src/cbackend/c_lower_ffi.c:137-162 | the line of a typedef written out for any parameters |
| FfiText.ConstsMerge | src/cbackend/c_lower_ffi.c:238-248 | a const pointer and a pointer to something const become the same text |
| FfiText.RefusedExactly | src/cbackend/c_lower_ffi.c:178-236 | function types aside, what is refused is an aggregate with a string, also through pointers, and a type without C form |
| FfiTypedefs.FfiUnit.CfuncTypedef | src/cbackend/c_lower_ffi.c:90-170 | every function type gets one typedef, emitted after those it mentions, with the right result and parameters |
| FfiTypedefs.Finish | src/cbackend/c_lower_ffi.c:131-169 | completing a typedef keeps the order, and every finished function type has exactly its typedef |
| OptionalSlots.InferenceExact | src/cbackend/c_lower_infer.c:7-302 | inference finds the type of every well-typed expression or nothing, and nothing exactly for the blind ones |
| SlotValues.TypeSound | src/cbackend/c_lower_infer.c:7-302 | an expression evaluates to a value of the type the language gives it |
| SlotValues.InferredSound | src/cbackend/c_lower_infer.c:7-302 | the type that inference finds is that of the value |
| SlotValues.SlotHolds | src/cbackend/c_lower_stmt.c:899-922 | whenever the lowered value has the slot's type, the slot holds nil, the whole value, or the payload wrapped once, as it should |
| OptionalSlots.LocalsFirst | src/cbackend/c_lower_stmt.c:119-130 | inference and the language find a local before any global, and a global if there is no local |
| OptionalSlots.NewestFirst | src/cbackend/c_lower_stmt.c:119-130 | of several variables of one name the newest counts |
| OptionalSlots.HiddenGlobal | src/cbackend/c_lower_stmt.c:119-130 | a local payload that hides a global option is wrapped at all four places, a local option that hides a global payload is not |
| OptionalSlots.IntegerLiterals | src/cbackend/c_lower_infer.c:11-23 | an integer literal has the type of its suffix, if one of eight, else `i32` |
| OptionalSlots.CloneNames | src/cbackend/c_lower_expr.c:161-172 | the calls that count as clones, by name |
| OptionalSlots.SlotTypeKept | src/cbackend/c_lower_stmt.c:899-922 | the lowered value has the slot's type exactly for nil, a whole value that is seen or cloned, or a payload that is no clone and not seen to be an option; if the target of an assignment is unseen, for whole values only; all other places agree |
| OptionalSlots.NotedSlotKept | src/cbackend/c_lower_stmt.c:723-737 | a slot `?T` that is seen keeps its type for every noted value but a clone of the payload |
| OptionalSlots.UndeclaredSlot | src/cbackend/c_lower_stmt.c:667-679 | a variable without declared type gets the type its initialiser has, and fails to get one exactly where inference is blind |
| OptionalSlots.NestedOptionNotWrapped | src/cbackend/c_lower_stmt.c:903-918 | a local of type `?T` in a slot `??T` keeps the wrong type at all four places |
| OptionalSlots.UnknownWrappedTwice | src/cbackend/c_lower_infer.c:58-61 | an option behind a qualified pointer is wrapped again without a note, and is right with one |
| OptionalSlots.UnseenTargetUnwrapped | src/cbackend/c_lower_stmt.c:903-921 | through a qualified pointer without a note a payload is stored unwrapped, and with a note it is wrapped |

## Left out

- The order in which C evaluates operands and arguments is left open by C; the model takes left to right.
- Types in statement lowering: statements work on integers; option wrapping is in `OptionalSlots`.
- LoweringContext.LowerCtx.LowerPatterns: string patterns, which are compared by a call, are not modelled.
- Try expressions inside larger expressions; only those of a declaration, assignment or return are modelled.
- Assignments to captured values, members and elements: assignment targets are names.
- Closures with captured values, their fix-up lists and `local_fns`: nested functions without captured values only.
- `AST_DEFER` and the cleanup list with `mark_cleanup_returns`: analysis replaces every defer by closures and calls before lowering.
- Mock statements, imports of other modules, magic constructors and the FFI details beyond type texts and typedef order.
- Instruction chains are values in `Lowering`; linking nodes through tail pointers is modelled for the test blocks only.
- A call of a defer carries the body that its name refers to, instead of looking it up in the registered closure.
- Naming.Sanitize: symbols of more than 511 characters, for which `module_symbol` gives none, are not told apart.
- Naming.FirstFreeBound: about uncut candidates; the search in the buffer is settled by `Naming.StuckWithinTaken`.
- The wrap of the 32-bit suffix after 2^32 tries; other name buffers are unbounded.
- After a search that never ends `Lowering` goes on with any free name and flags the run (`hung`); nothing counts as emitted then.
- Spelling.CapturedExactly: a nested function is resolved on its own, as the function of the unit it becomes.
- In `TargetSemantics` the whole `for` header runs; what the writer makes of it is in `Headers`.
- DeferReturns.ReturnLeavesCaller: about intended code; clean functions have the same text.
- CallAudit.Optimizer.Optimize: operands of an instruction have no successors; `scan_expr` would follow a `next` pointer in an operand position, `missing_call_in_expr` would not.
- TypeUnit.Unit.MapType: function types have no captured values, `cfunc` types are in `FfiTypedefs`, and the name buffers are unbounded.
- TypeUnit.Unit.MapFunc: function types with captured values are left out.
- Tame.TameIsClean: sufficient, not necessary; the exact condition is `CleanFunction`.
- TypeMap.Erase: needs a graph whose cycles pass through nominal types; on others the recursion of the code does not end.
- Bitfield.BfGet: loads are modelled on words, not on the bytes behind them; the run-time write and non-constant constructors are left out.
- FfiTypedefs.FfiUnit.CfuncTypedef: aggregates are named but not entered, and the table is not described after a failure.
- OptionalSlots.InferenceExact: methods, scope references, `extern` variables, unions, bit fields, captured values, function literals, `make` and the built-in `data` and `take_opt` calls are not in the fragment.
- `find_missing_call` reports its name through a diagnostic; the diagnostic text, like allocation failure everywhere, is left out.
- The C writer but for `for` headers, the parser but for the layout of bit fields, analysis, process and file work.
