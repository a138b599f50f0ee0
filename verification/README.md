# Agent Core, verified in Dafny

Agent Core is a small line-oriented language in which a planner writes programs over a table of tools. A program is parsed,
checked against a context of tools, fields and constants, compiled to a small structured JavaScript, and run in a sandbox whose
tool engine edits a store of records. The sandbox gates irreversible calls, can preview a run, and can hand a paused run's state
and registers back so that a continuation program resumes it. This project models that path from lines of words to the
harness's segment loop, and proves what the pieces promise each other. It also models five neighbouring algorithms: the
per-prompt grammar builder with its matcher, the vocabulary prune, the rank AUC, breadth-first routing and largest-remainder
scheduling.

To check the whole project: `dafny verify dfyconfig.toml`.

## Layout

| files | what they hold |
|---|---|
| `Common`, `Decimal`, `Strings`, `SortedSets`, `Permutations` | `Option`/`Res`, decimal numerals, `strip`, sorted sets, permutations |
| `Overlay`, `Positions` | a map after a series of assignments; a sublist by its positions |
| `Ir`, `TypeText` | the AST and the context; the schema's type syntax (core/ir.py) |
| `Tokens`, `Parser`, `Grammar` | operands, predicates, instruction heads, indentation blocks (core/parser.py, core/ir.py), and exactly which words say what |
| `Check`, `CheckerObject` | the checker as functions of its environment, and as the object that mutates it (core/typecheck.py) |
| `Rules`, `Diagnostics` | the typing rules and the codes a fault draws, each shown to be exactly what the checker does |
| `Compile`, `EmitterObject` | the translation as a function, and the emitter object with its line list and counters (core/compile.py) |
| `JsTarget` | the target language: `for-of`, counted loops, `try/catch`, `break`, `throw`, `return`, block-scoped `const`, conjunctions and disjunctions by JavaScript's grammar |
| `Runtime`, `SandboxObject`, `MostLeast` | the `rt` surface and the tool engine as functions of the sandbox's state, and as the object with `store`, `calls`, `ops`, `counters`, `injections` (runtime/sandbox.js) |
| `EngineLaws`, `Compare`, `Steps`, `Template` | what tools, `rt.call`, comparisons, single instructions and FORMAT answer, as relations that name none of those functions |
| `Semantics` | a direct semantics of programs that knows nothing of emitted code |
| `CompilePred`, `CompileCorrect`, `Closed`, `Registers`, `EmittedNames` | compiler correctness, register closedness, PAUSE completeness |
| `Effects`, `Invariant`, `Simulation` | static effects; the two generic inductions over runs (one run, and two runs side by side) |
| `Gate`, `Halt`, `Masking`, `Retry`, `Ids`, `Binding`, `Typing`, `Ordering`, `Coercion`, `TypedStore` | properties of runs |
| `Pause`, `PauseReturns`, `PauseExact`, `PauseLimits`, `Task`, `Turns`, `Resume` | PAUSE and continuation, the segment loop (harness/run.py) |
| `Gbnf`, `DigitTrie`, `TypedCall` | harness/task_grammar.py |
| `PruneVocab`, `PruneLaws`, `Auc`, `Route`, `Schedule` | baselines/qwen/prune_vocab.py, harness/decoy_audit.py, harness/rpg_oracle.py, data/gen/__main__.py |

Code that works by changing things step by step is a class or a loop here, proved equal to a function; the laws are then proved
of that function, or a relation is that says what it answers without naming it. `foreign`, `norm`, `coerceLess` and `printer` in
`Runtime.Config` stand for code outside the model and are arbitrary functions in every theorem.

## Results that qualify the documentation

- spec/agent_core.md, section 4, says PAUSE returns all bound registers. The code returns the registers assigned above the
  PAUSE in the text. That is all of them wherever no loop and no retry can come back to the PAUSE with a register bound that
  is assigned below it only (`PauseReturns.FullTextReturnsAll`), so at top level, in IF arms, in a TRY without retries and in
  a loop that assigns nothing below its PAUSE. A FOREACH and a TRY with retries can drop registers of a clean program
  (`PauseLimits.LoopPauseDropsRegister`, `PauseLimits.RetryPauseDropsRegister`).
- A run can be split at a PAUSE exactly when, for each entity the continuation's tools create in and an id was issued for, the
  largest id suffix issued is still live at the PAUSE and none of those tools deletes there (`PauseExact.SplitsExactly`). That
  the first segment deletes nothing it created is not enough: `PauseLimits.DeleteBreaksSplit` is a run that comes apart. The
  registers come across exactly when the pause environment types all of them (`PauseExact.RegistersExactly`,
  `PauseLimits.DroppedRegisterBreaksSplit`).
- A call the gate stops ends the run, except in a PARALLEL behind an earlier call that failed: `Masking.BlockedExactly` says
  exactly when a run ends effect_blocked, `Masking.HiddenExactly` when a stopped call is hidden, and
  `Halt.ParallelHidesBlockedCall` is a run that goes on and ends normally.
- Type preservation fails for MOST and LEAST over a field declared OBJ, which answer an id where the checker says record
  (`Typing.CountingRecordsBreaksTypes`); for every other field they keep the type (`Typing.ExtremeFitsExactly`).
- spec/agent_core.md, section 4, asks a FORMAT template for exactly one slot per operand. The code compares sets: a slot may
  stand twice (`Rules.TemplateExactly`, `Template.CleanTemplate`).
- Type preservation, definite binding, the typed-slot grammar and the prune each carry a hypothesis shown to be needed by a
  concrete program or table: `Typing.RebindingBreaksTypes`, `Binding.EmptyListUnbinds`, `Binding.FailedTryUnbinds`,
  `TypedCall.OptionalFirstBreaks`, `TypedCall.CollidingNamesBreak`, `PruneVocab.TwoProducersBreak`,
  `EmittedNames.FormatUndeclared`.

## Model

| member | source | states |
|---|---|---|
| Closed.CompiledRunMatches | core/compile.py:208-232 | for every clean program, configuration and start world, running the emitted JavaScript gives the same marker or exception, the same store, call log, operation count, line, id counters and injections, and the same registers as the direct semantics |
| CompileCorrect.BlockOk | core/compile.py:117-206 | the same for any block in any surrounding code, scope and register file: what the emitted statements do before `rest` is what the block does |
| CompileCorrect.TryOk | core/compile.py:179-193 | the counted loop with `try/catch`, rethrow and `break` is the retry semantics, nested and inside other loops |
| CompileCorrect.ParallelOk | core/compile.py:171-178 | `Promise.all` over calls that run to completion, then indexed assignments, is: all calls in order, the first failure reported, destinations bound only if all succeed |
| CompilePred.PredOk | core/compile.py:89-110 | a flat clause list read by JavaScript's grammar of conjunction and disjunction, with short-circuit and charged operations, is the disjunction of its AND-groups |
| CompilePred.AndOk | core/compile.py:105-110 | an AND-only list evaluates left to right and stops at the first false or throwing clause |
| Closed.RegistersDeclared | core/compile.py:18-56 | every register a clean program's text names, FORMAT operands included, is on the emitted `let` line |
| Closed.PauseComplete | core/typecheck.py:343-346 | the k-th PAUSE of the emitted code returns at least the registers of the checker's k-th PAUSE environment |
| Closed.EnvGrowth | core/typecheck.py:161-170 | checking a block binds nothing but destinations its text names |
| Registers.DeclaredExactly | core/compile.py:18-56 | the emitted `let` line declares exactly the initial registers and those the text names, FORMAT's operands apart |
| Registers.ReadsExactly | core/compile.py:18-56 | the registers an instruction is taken to read are exactly those its source, candidates, operands and clauses name |
| EmittedNames.EmittedRegistersDeclared | core/compile.py:208-227 | every register named anywhere in a clean program's emitted code is declared |
| EmittedNames.FormatUndeclared | core/compile.py:143-146 | without the checker that fails: a FORMAT of an unbound register is emitted with the register undeclared |
| EmittedNames.ConstsDistinct | core/compile.py:171-175 | no `const _pK` is declared twice in a program |
| EmitterObject.Emitter.Block | core/compile.py:117-119 | the emitter appends exactly the flattened translation of the block and leaves its counters and assigned set as the translation says |
| EmitterObject.Emitter.TryLines | core/compile.py:179-193 | the lines written for TRY are the flattened loop, with fresh counter names and nesting depth |
| EmitterObject.RegSet.Collect | core/compile.py:18-56 | the register collector, recursing into nested blocks, adds to the set it is passed all registers of the text except FORMAT operands |
| EmitterObject.EmitText | core/compile.py:208-227 | the emitted lines are the header, the flattened `CompileProgram` and the closing brace, initial registers ascending |
| EmitterObject.ReadFlattened | core/compile.py:70-71 | a reader of the emitted lines recovers the nesting of blocks they were flattened from |
| EmitterObject.TextDeterminesProgram | core/compile.py:208-232 | so the emitted lines determine the statement tree whose runs `CompiledRunMatches` describes, each one-line statement being one token |
| CheckerObject.Checker.Block | core/typecheck.py:161-170 | the mutating block walk leaves the environment, diagnostics and PAUSE environments the check function gives, in order, marks everything after a terminator unreachable, and answers whether control falls through |
| CheckerObject.Checker.Branch | core/typecheck.py:292-316 | IF checks its arms in copies of the environment and merges what surviving arms agree on; without ELSE the environment stays |
| CheckerObject.Checker.CallArgs | core/typecheck.py:367-392 | the call rule's diagnostics: unknown tool, missing or NULL required arguments, incompatible types, surplus arguments |
| CheckerObject.Checker.ParallelCalls | core/typecheck.py:317-329 | PARALLEL checks every call in the entry environment, refuses operands it binds, then binds all destinations |
| CheckerObject.CheckText | core/typecheck.py:397-409 | `check` reports exactly the diagnostics, PAUSE environments and final environment of the program, and ok iff it is clean |
| Rules.CompatibleExactly | core/typecheck.py:43-52 | types are compatible exactly when, under equally many LISTs, they are the same, both numeric, an ID and its entity's ID or record, or one of them NULL |
| Rules.ComparisonExactly | core/typecheck.py:92-123 | a comparison checks clean exactly over these types: LT and GT over INT, FLOAT, TIME and NULL on both sides; CONTAINS over STR, or NULL; IN over a list of compatible elements, or NULL; EQ over compatible types |
| Rules.CallExactly | core/typecheck.py:367-394 | a call checks clean exactly when its tool is declared, no argument is surplus, each required parameter has one that is not NULL, and each argument's type is taken |
| Rules.TemplateExactly | core/typecheck.py:199-211 | a FORMAT template checks clean exactly when it is declared STR and its slots are numbered from 0 to n - 1, each there at least once |
| Rules.CleanExactly | core/typecheck.py:161-347 | a program checks clean exactly when the typing rules derive an outcome for it, and then the environment and PAUSE environments are the derived ones |
| Diagnostics.OperandFaults | core/typecheck.py:61-90 | an operand draws UNBOUND, TYPE_ERROR or UNKNOWN_FIELD exactly when nothing is bound or declared by its name, it reads a field of no record, or the entity has no such field |
| Diagnostics.CallFaults | core/typecheck.py:367-394 | a call draws UNKNOWN_TOOL exactly when its tool is undeclared, and then nothing else; MISSING_ARG exactly when a required parameter has no argument or NULL; the other codes exactly for its faulty, misfitting or surplus arguments; all on its line |
| Diagnostics.RefFaults | core/typecheck.py:349-365 | what each referent of an ABORT draws |
| Diagnostics.DeadFaults | core/typecheck.py:161-170 | behind a statement that ends the run each statement draws one UNREACHABLE on its line and nothing else |
| Check.CleanSplit | core/typecheck.py:161-170 | a clean block is a clean statement followed by a clean block, and nothing follows a terminator |
| SandboxObject.Sandbox.Call | runtime/sandbox.js:288-329 | `rt.call` on the object: one operation charged; over budget, unknown, badly argued and gated calls raise and change nothing else; otherwise the call is logged with its narrowed arguments, an injection fires or the tool runs, and an error is noted in the log (`EngineLaws.Calls`, equal to `RtCall` on its state) |
| SandboxObject.Sandbox.RunTool | runtime/sandbox.js:146-270 | the tool dispatch on the object does to store and counters what `EngineLaws.Does` says of the operation, and returns what it says |
| EngineLaws.EngineDoes | runtime/sandbox.js:146-270 | each operation without its functions: `list_by` answers, in order, the rows at exactly the positions whose field equals the key; `get` the first row of the id or NOT_FOUND; `create` appends a record with the next id, the defaults and the present parameters over them; `update` replaces the found row by one with constants and then present parameters set, the last to set a field winning; `delete` takes exactly the found row out |
| EngineLaws.CallDoes | runtime/sandbox.js:288-329 | `rt.call` without its functions: budget, lookup, narrowing, gate, log, first live matching injection counted down, dispatch |
| EngineLaws.SuffixExactly | runtime/sandbox.js:119-126 | an id has a numeric suffix exactly when it is one line of text that ends in an underscore and digits, the number being theirs |
| Compare.NumbersCompare | runtime/sandbox.js:349-366 | LT and GT over numbers, nulls and truth values answer `<` and `>` of the numbers they stand for, for one operation |
| Compare.TextsCompare | runtime/sandbox.js:365-366 | over texts they answer by the first difference |
| Compare.EqualsCompare | runtime/sandbox.js:359-361 | EQ: the same normalised text, or the same value, records by their id |
| Compare.ContainsCompare | runtime/sandbox.js:364-367 | CONTAINS: the normalised left text is some text, the other side's and some text |
| Compare.InCompare | runtime/sandbox.js:368-371 | IN: some element of the list is EQ to the left side |
| Compare.EmptyCompare | runtime/sandbox.js:376-379 | EMPTY holds exactly of null, undefined and a list without elements |
| Compare.UndefinedCompares | runtime/sandbox.js:365-366 | undefined is neither below nor above anything |
| Compare.FilterAnswers | core/compile.py:137-139 | FILTER by one clause over a numeric field answers, in order, exactly the elements whose number is below (above) the operand's, with NOT exactly the others, for two operations an element |
| Compare.IfTakes | core/compile.py:162-169 | IF on one comparison of numbers takes the arm its truth asks for |
| Steps.FieldRead | runtime/sandbox.js:339-348 | GET and rN.Fk read the field, null where it is missing, and throw on null, undefined and an unknown field |
| Steps.MapAnswers | runtime/sandbox.js:411-416 | MAP answers the field of every element, in place |
| Steps.SelectAnswers | runtime/sandbox.js:448-454 | SELECT answers the element at the index, INDEX_OUT_OF_RANGE outside the list, also for a negative index into null |
| Steps.CountAnswers | runtime/sandbox.js:417 | COUNT answers the length of the list |
| Steps.FirstAnswers | runtime/sandbox.js:455 | FIRST answers the first element, null of an empty list |
| Steps.ForeachVisits | core/compile.py:157-161 | FOREACH enters its body with each element in order, each time in the state the last one left, until the list ends or the body does not fall through |
| Steps.PredAnswers | core/compile.py:89-110 | a predicate that answers is true exactly when all clauses of one of its AND-groups are |
| Template.FormatAnswers | runtime/sandbox.js:420-432 | FORMAT's text is the template with each slot showing the value at its number and the text between the slots as it stands |
| Template.CleanTemplate | core/typecheck.py:199-211 | in a template that checks clean each slot shows an operand and each operand is shown |
| SandboxObject.Sandbox.Create | runtime/sandbox.js:162-175 | the create loops over defaults and parameter fields build the specified record and append it |
| SandboxObject.Sandbox.Update | runtime/sandbox.js:176-186 | the update loops change only the found record, constants first, present parameters after |
| SandboxObject.Sandbox.NextId | runtime/sandbox.js:115-127 | the id is the entity name and one more than the stored counter, or than the largest numeric suffix among live rows |
| SandboxObject.Sandbox.CheckInjection | runtime/sandbox.js:134-144 | the first live matching injection fires and is counted down, and no other changes |
| SandboxObject.Sandbox.Budget | runtime/sandbox.js:110-113 | each charged operation counts one and fails exactly above the limit |
| SandboxObject.Sandbox.ListChanges | runtime/sandbox.js:499-509 | the loop over the log collects exactly the specified list of changes |
| SandboxObject.Sandbox.GateCode | runtime/sandbox.js:514-525 | DESTRUCTIVE iff a successful irreversible call is in the log; BULK_WRITE iff not and the changes exceed the limit |
| MostLeast.ExtremeBy | runtime/sandbox.js:385-410 | the counting and scanning loops compute the specified choice |
| MostLeast.ExtremeAmongPresent | runtime/sandbox.js:385-410 | without candidates the answer is a key some element carries, no key occurs more (fewer) often, and null exactly when there is no element |
| MostLeast.ExtremeAmongCandidates | runtime/sandbox.js:389-408 | with candidates the answer is a candidate's id that no candidate's count beats, zeros included |
| MostLeast.SortPermutes | runtime/sandbox.js:433-447 | whatever the comparator answers, SORT keeps the elements |
| MostLeast.SortByKeys | runtime/sandbox.js:433-447 | over keys that all compare as numbers, or are all texts, SORT gives the same elements in ascending or descending order of their keys, those with equivalent keys in the order they had |
| MostLeast.ComparatorOrders | runtime/sandbox.js:437-444 | over such keys the comparator is a strict weak order of the elements, in both directions |
| MostLeast.SortOrders | runtime/sandbox.js:433-447 | insertion by any comparator that orders the elements strictly and weakly puts them in order |
| MostLeast.SortStable | runtime/sandbox.js:433-447 | and keeps elements it cannot tell apart in the order they had |
| Gate.ConsequencesExact | runtime/sandbox.js:499-509 | the list of changes is exactly the successful changing calls, each once, in call order, irreversible winning over mutates |
| Gate.VerdictExact | runtime/sandbox.js:514-525 | the gate's verdict in terms of the log alone, both directions |
| Gate.PreviewRunsAsApproved | runtime/sandbox.js:308-312 | an unapproved preview run is the approved run: same calls in order, same state, same registers, same end |
| Gate.PreviewReport | runtime/sandbox.js:527-545 | the preview is blocked exactly when the approved run ends ok or paused with a successful irreversible call or too many changes, then lists exactly its changes, and otherwise gives its report |
| Task.CompiledPreview | runtime/sandbox.js:499-545 | the same of the compiled program in the sandbox |
| Gate.SameGatesSameRun | runtime/sandbox.js:308-312 | configurations that gate the same tools of a program run it identically, step for step |
| Effects.ProgramEffects | core/effects.py:30-36 | the loop collects the union of declared properties over all calls of the text |
| Effects.EffectsExactly | core/effects.py:14-36 | a property is in the static effect set exactly when a call standing anywhere in the text names a tool declared with it |
| Gate.StaticEffectsCoverRun | core/effects.py:14-36 | every call any run logs has its properties in the static effect set |
| Gate.NoIrreversibleNoGate | core/effects.py:30-36 | without "irreversible" in the static set the unapproved and approved runs coincide and neither is blocked |
| Gate.GatedLogHarmless | runtime/sandbox.js:285-315 | without approval or preview no run's log gains an irreversible tool |
| Gate.BlockedRunNamesGatedTool | runtime/sandbox.js:308-312 | a run that ends effect_blocked was stopped at a gated tool of its own text |
| Halt.GatedRunIsPrefix | runtime/sandbox.js:568-577 | a PARALLEL-free unapproved run is the approved run, or ends effect_blocked at the first irreversible call the approved run logs, with the log up to it and in the state from which the approved run made it, whatever TRY blocks enclose it |
| Halt.BlockedIffIrreversible | runtime/sandbox.js:308-312 | a PARALLEL-free unapproved run ends effect_blocked exactly when the approved run logs an irreversible call |
| Masking.ParallelReportsFirst | core/compile.py:171-178 | PARALLEL settles exactly when no operand faults, with the value of each call that returned and the failure of the first call that failed |
| Masking.ResultAt | core/compile.py:171-175 | result i is what call i returned in the world left by all earlier calls, failed ones included |
| Masking.StopsExactly | runtime/sandbox.js:288-315 | a call raises the gate's exception exactly when it is within the budget, of a known gated tool, with acceptable arguments |
| Masking.ParallelBlocksExactly | core/compile.py:171-178 | PARALLEL ends effect_blocked exactly when its first failing call is one the gate stops |
| Masking.HiddenExactly | core/compile.py:171-175 | a call the gate stops is hidden, another failure being reported for it, exactly when an earlier call of the block failed |
| Masking.TryAroundParallel | core/compile.py:171-193 | a TRY around PARALLEL swallows the stop exactly when a tool error comes first, and passes on what comes first otherwise |
| Masking.BlockedExactly | runtime/sandbox.js:568-577 | a run of any program ends effect_blocked exactly when it reaches a stopped call that no earlier failure of its PARALLEL hides, whatever TRY, FOREACH and IF enclose it |
| Halt.ParallelHidesBlockedCall | core/compile.py:171-193 | so a TRY around a PARALLEL can swallow a gated call: a concrete program goes on and ends ok |
| Retry.TryAttempts | core/compile.py:183-193 | attempts of a TRY: at most n + 1, each from where the last stopped; the last one decides the end |
| Retry.TryRetryBound | core/compile.py:179-193 | the same of the statement, started with "OK" |
| Retry.StatusTellsOutcome | core/compile.py:183-191 | a TRY that falls through leaves "OK" or the last attempt's error code |
| Ids.CreateIsFresh | runtime/sandbox.js:162-175 | a created record is appended and its id differs from every live one |
| Ids.ImplKeepsIds | runtime/sandbox.js:146-198 | each CRUD operation keeps ids distinct per entity |
| Ids.RunKeepsIds | runtime/sandbox.js:146-198 | so does every run of every program, however it ends, if the tools it calls leave `id` alone and its foreign tools the records |
| Ids.SuffixOfId | runtime/sandbox.js:119-126 | the suffix read back from an issued id is its number |
| Ids.IdsApart | runtime/sandbox.js:115-127 | ids of different entities or different numbers are different texts |
| Ids.NoIdIssuedTwice | runtime/sandbox.js:115-127 | in a script of calls, budget charges and line marks no two creates hand out the same id, whatever their entities, deletes in between or not |
| Ids.RunIssuesEachIdOnce | runtime/sandbox.js:162-175 | every run is such a script over the tools of its text, its answers are those of the calls the run logged, and no two of them carry the same new id |
| Binding.BlockBound | core/typecheck.py:161-347 | invariant at every program point of a smooth run: the checker's bound registers are bound at run time |
| Binding.AssignedBeforeRead | core/typecheck.py:61-90 | if every entered FOREACH list is non-empty and every TRY finishes OK, each register is assigned before it is read |
| Binding.EmptyListUnbinds | core/typecheck.py:281-291 | a clean program whose loop over an empty list leaves a read register unassigned |
| Binding.FailedTryUnbinds | core/typecheck.py:330-334 | a clean program whose failed TRY does |
| Typing.TypesPreserved | core/typecheck.py:161-347 | in a clean program that binds no register at two types and counts no OBJ-typed field, over tools it calls, constants and records that keep their declarations, every bound register holds null or a value of its checked type, however the run ends |
| Typing.BlockTyped | core/typecheck.py:161-347 | the same for any block, from any typed state |
| Ordering.OrdersNumbers | core/typecheck.py:92-101 | under the same premises every LT and GT a run evaluates in FILTER and IF has numbers, null or undefined on both sides, so text order and coercion are never reached; every SORT too compares numbers and truth values if none is by a field declared STR |
| Coercion.RunsWithoutCoercion | runtime/sandbox.js:365-366 | so a program that sorts by no field declared STR runs the same, step for step, whatever `<` answers by coercing |
| Typing.ExtremeFits | runtime/sandbox.js:385-410 | MOST and LEAST over a field not declared OBJ answer a value of its type, with candidates or without |
| Typing.ExtremeFitsExactly | runtime/sandbox.js:385-410 | they do so for all lists exactly when the field is not declared OBJ |
| Typing.RebindingBreaksTypes | core/typecheck.py:315-316 | an IF without ELSE rebinding at another type breaks it in a clean program |
| Typing.CountingRecordsBreaksTypes | core/typecheck.py:232-236 | a clean MOST over an OBJ-typed field leaves an id in a register the checker types OBJ |
| TypedStore.EngineMeetsToolsTyped | runtime/sandbox.js:146-253 | tools whose descriptors agree with their declarations, foreign ones keeping the store typed, keep a typed store typed and return values of the declared types |
| TypedStore.CrudRunsTyped | runtime/sandbox.js:146-253 | so over such a host type preservation holds end to end |
| PauseReturns.FullTextReturnsAll | core/compile.py:201-204 | a run of any program that ends in a PAUSE, wherever it stands, returns every bound register, if at each PAUSE of the text the registers that can be bound by then, those a FOREACH or a retry carries back included, are assigned above it |
| PauseReturns.UnloopedReturnsAll | core/compile.py:201-204 | so does every program without a PAUSE in a FOREACH or in a TRY with retries |
| Pause.TopLevelPauseReturnsAll | core/compile.py:201-204 | a PAUSE written after a block returns every register the block left bound |
| Pause.ExecAppend | core/compile.py:117-119 | a block followed by another runs as one after the other |
| Pause.PauseTransparent | runtime/sandbox.js:462-468 | segment, PAUSE and continuation end with the state, the joined log, the registers and the end of one run of both bodies |
| Pause.NewestAliveTight | runtime/sandbox.js:115-127 | after a segment whose tools leave ids alone, the counter is the largest live suffix wherever the newest record created is still alive |
| Pause.PauseAfterPause | core/compile.py:201-204 | a continuation that reaches a PAUSE of its own hands back the registers the unsplit run would |
| PauseExact.SplitsExactly | runtime/sandbox.js:115-127 | for a set of tools, every continuation over them, from any registers and budget, meets the unsplit run if and only if wherever they create and an id was issued the largest suffix issued is live and none of them deletes |
| PauseExact.PauseExactly | runtime/sandbox.js:115-127 | so at the PAUSE of every segment |
| PauseExact.LooseCounterBreaks | runtime/sandbox.js:115-127 | with the counter off the largest live suffix, one create tells the runs apart |
| PauseExact.EraseBreaks | runtime/sandbox.js:187-193 | with a deleting tool, deleting down to a smaller suffix and creating tells them apart |
| PauseExact.RegistersExactly | harness/run.py:87-94 | every register reads alike after the PAUSE exactly when the pause environment types all returned ones |
| PauseLimits.DeleteBreaksSplit | runtime/sandbox.js:115-127 | a continuation that deletes the newest record and creates another issues a different id than the unsplit run |
| PauseLimits.DroppedRegisterBreaksSplit | harness/run.py:87-94 | a bound register the pause environment does not type is lost, and a clean continuation can tell |
| PauseLimits.LoopPauseDropsRegister | core/compile.py:201-204 | a whole run of a clean program whose PAUSE in a FOREACH does not return a bound register assigned below it |
| PauseLimits.RetryPauseDropsRegister | core/compile.py:179-204 | a whole run of a clean program whose PAUSE in a retried TRY does not |
| PauseLimits.ContradictoryGuard | core/compile.py:201-204 | the condition on the text is not necessary: a guard that contradicts its loop keeps a program from ever pausing |
| Task.ReportMatches | runtime/sandbox.js:554-577 | the sandbox's report on emitted code is the report of the direct semantics |
| Turns.RunTask | harness/run.py:97-196 | the segment loop returns the row its turns unfold to; at most eight segments, no more pauses and reactions than segments, the log that of the segments joined |
| Turns.TaskExactly | harness/run.py:113-196 | a row is the task's exactly when there are turns from the start to it: each but the last plans a clean program whose run pauses, or fails in a reacting job, and the next one has that run's state, calls and registers, the failed report if it failed, and a context whose initial registers are the PAUSE environment, or the final one, restricted to them |
| Turns.ReportedExactly | runtime/sandbox.js:527-577 | the report of a run: its marker or error code, for an error exactly the registers left bound, for a preview that needs approval the list of changes |
| Turns.ReactionRuns | harness/run.py:177-194 | a clean reaction to a failed segment runs from the failed run's state with the registers it left bound and typed, and the row has both logs and one error |
| Task.TaskLaws | harness/run.py:137-196 | for every planner: the row's log, counts, state and status in terms of the reports of the segments run |
| Task.SplitTaskSameRow | harness/run.py:150-176 | a job written in any number of parts with a PAUSE between them ends with the status, final state and call log of the job written in one |
| Resume.TypesAcrossPause | harness/run.py:87-94 | a typed segment that pauses seeds its continuation with registers that fit the types they are seeded with |
| Tokens.OperandRoundTrip | core/parser.py:49-66 | a printed operand parses back to itself |
| Tokens.PredTextRoundTrip | core/ir.py:138-158 | `str(pred)` split on spaces parses back to the predicate, in FILTER and in IF mode |
| Tokens.ParsePred | core/parser.py:76-123 | the index loop parses what the recursive reading of the clause list parses |
| Tokens.ParsedPredOk | core/parser.py:76-123 | whatever parses has one connective fewer than clauses and clauses legal in its mode |
| Parser.HeadRoundTrip | core/parser.py:126-243 | every instruction head, printed and parsed, comes back |
| Parser.ParsedHeadOk | core/parser.py:126-243 | whatever a line parses to has registers below 16 and well-formed symbols |
| Parser.ParseBlockLoop | core/parser.py:263-298 | the recursive loop with its index computes the specified block parse |
| Parser.ParsedRows | core/parser.py:263-298 | flattening a parsed block gives back its lines, ELSE refolded, and the block ends at a shallower line or the end |
| Parser.RowsParse | core/parser.py:263-298 | lines that say a well-formed block's rows parse to that block |
| Parser.ParseExact | core/parser.py:301-311 | a program parses to a tree exactly when its lines say the rows of that well-formed, non-empty tree |
| Parser.PrintThenParse | core/parser.py:263-311 | printing a well-formed tree to lines and parsing gives the tree back |
| Grammar.OperandExactly | core/parser.py:36-66 | the operand parser reads exactly the registers, field accesses, constants, NOW, NULL and numerals written so |
| Grammar.PredExactly | core/parser.py:76-123 | the predicate parser reads exactly the clauses written so with a connective between any two, in FILTER and in IF mode |
| Grammar.HeadExactly | core/parser.py:126-243 | the line parser accepts exactly the lines of the grammar, each as the instruction it says, and no other |
| Grammar.ProgramExactly | core/parser.py:263-311 | a text parses to a tree exactly when its lines, by the grammar, say the rows of that tree |
| TypeText.TypeRoundTrip | core/ir.py:46-66 | a formatted type parses back to itself |
| TypeText.FormatInjective | core/ir.py:57-66 | so no two types are written alike |
| TypeText.TypeExactly | core/ir.py:46-58 | the type parser accepts exactly the type syntax, with white space around each part |
| DigitTrie.TrieDict.Add | harness/task_grammar.py:39-42 | inserting into the nested dicts adds the numeral and shares nothing |
| DigitTrie.TrieDict.Text | harness/task_grammar.py:45-55 | the recursive rendering of the dicts is the rendering of their value |
| DigitTrie.DigitTrieText | harness/task_grammar.py:58-70 | building the dicts for a set of numbers and rendering them gives the specified text |
| DigitTrie.InsertHolds | harness/task_grammar.py:39-42 | insertion adds exactly the inserted word |
| DigitTrie.DigitTrieExact | harness/task_grammar.py:58-70 | the text built for a non-empty set of numbers accepts exactly their decimal forms |
| DigitTrie.SymbolExact | harness/task_grammar.py:92-99 | the tool and field rules accept exactly the letter and a declared number |
| DigitTrie.ConstExact | harness/task_grammar.py:79-89 | the constant rule accepts exactly the declared constants, spelled canonically |
| DigitTrie.ConstExactCanonical | harness/task_grammar.py:79-89 | with canonical symbols it accepts exactly the declared ones |
| Gbnf.AcceptsPrinted | harness/task_grammar.py:178-252 | the text matcher accepts of any printed expression exactly the words it means, and never raises |
| Gbnf.SplitPrint | harness/task_grammar.py:185-198 | splitting printed alternatives at top-level bars gives the alternatives |
| Gbnf.TokensAlt | harness/task_grammar.py:208-232 | tokenizing a printed alternative gives its literal and group |
| Gbnf.AcceptsLoop | harness/task_grammar.py:178-252 | the matcher's mutually recursive loops compute the specified positions |
| TypedCall.TypedCallRules | harness/task_grammar.py:343-389 | the memoising loops over tools and parameters build the rule table, whose admitted calls `TypedCall.AdmittedExactly` tells |
| TypedCall.SlotExactly | harness/task_grammar.py:271-281 | the grammar's compatibility: the same type, an ID and its entity's record, numbers among each other, alike under LIST |
| TypedCall.SlotAdmitsExactly | harness/task_grammar.py:308-339 | a slot admits exactly a register, an access to a field whose type fits, a declared constant whose type fits, NULL if optional, NOW for TIME, and integers for INT and FLOAT |
| TypedCall.AdmittedExactly | harness/task_grammar.py:343-389 | with optional parameters last, names apart and canonical symbols, a CALL is admitted exactly when its tool is declared, it gives all required and no surplus arguments, and each may stand in its slot |
| TypedCall.ClassOfSlot | harness/task_grammar.py:354-367 | when names do not collide each slot's rule is the class of its own type |
| TypedCall.SlotNarrower | harness/task_grammar.py:271-281 | the grammar's compatibility implies the checker's |
| TypedCall.TypedCallClean | core/typecheck.py:367-394 | any CALL the typed-slot grammar admits with constants, NOW, NULL and integers passes the checker's call rule |
| TypedCall.OptionalFirstBreaks | harness/task_grammar.py:370-382 | an optional parameter before a required one breaks it |
| TypedCall.CollidingNamesBreak | harness/task_grammar.py:284-290 | two types whose rule names collide break it |
| PruneVocab.Close | baselines/qwen/prune_vocab.py:146-152 | the worklist ends with the least set that holds the seeds and the parents of each of its tokens |
| PruneVocab.Prune | baselines/qwen/prune_vocab.py:125-175 | the whole prune: parents table, closed keep-set, renumbered vocabulary, filtered merges |
| PruneLaws.PrunedExactly | baselines/qwen/prune_vocab.py:156-175 | the pruned tokenizer has each kept token under its new id, each kept added token that has none yet, and nothing else; in order exactly the merges whose sides and product are kept; in order exactly the kept added tokens, renumbered |
| PruneLaws.ParentsExactly | baselines/qwen/prune_vocab.py:138-144 | a token's parents are the sides of the last merge that makes it |
| PruneLaws.SeedsExactly | baselines/qwen/prune_vocab.py:124-136 | the ids kept before closing: used, below 256, special, of added tokens, and made by one of the first merges |
| PruneLaws.NextExactly | baselines/qwen/prune_vocab.py:14-17 | a round of the tokenizer joins the first occurrence of the first merge that occurs |
| PruneVocab.RemapOrderBijection | baselines/qwen/prune_vocab.py:156-158 | the renumbering is an order-preserving bijection from the kept ids onto 0..n-1 |
| PruneVocab.ClosureKeepsMerges | baselines/qwen/prune_vocab.py:138-151 | with unique producers no merge of a kept token is dropped |
| PruneVocab.SameTokens | baselines/qwen/prune_vocab.py:14-17 | if no merge of a kept token is dropped, a text of kept tokens tokenizes as before |
| PruneVocab.PruneKeepsTokenization | baselines/qwen/prune_vocab.py:138-175 | so with unique producers such a text gets its old ids, renumbered |
| PruneVocab.NeverUnknown | baselines/qwen/prune_vocab.py:16-17 | every text over kept bases, whatever tokens it had, becomes kept tokens that spell it, each in the pruned vocabulary under its new id |
| PruneVocab.TwoProducersBreak | baselines/qwen/prune_vocab.py:139-144 | a token with two producing merges: a text of kept tokens comes apart |
| PruneVocab.EmbeddingFollowsRemap | baselines/qwen/prune_vocab.py:189-199 | every kept token finds its old embedding row under its new id |
| Auc.RankAuc | harness/decoy_audit.py:178-197 | the averaged-tie rank loop returns the pairwise AUC, and nothing when a class is empty |
| Auc.TieRanks | harness/decoy_audit.py:186-193 | every score gets the mean of the ranks its tie group occupies |
| Auc.ArgSort | harness/decoy_audit.py:184-185 | a stable sorting permutation |
| Auc.WinsCounts | harness/decoy_audit.py:178-179 | the pairwise worth is the count of strictly smaller scores plus half the equal ones |
| Auc.AucComplement | harness/decoy_audit.py:178-179 | exchanging the classes gives the complement |
| Route.Path | harness/rpg_oracle.py:37-57 | a shortest route of passable steps to a goal; empty iff the start is a goal; none iff no goal is reachable; terminates |
| Route.WalkableExactly | harness/rpg_oracle.py:26-37 | a route is passable exactly when every step ends on a cell of the map without wall, shut door and living enemy |
| Route.EndExactly | harness/rpg_oracle.py:23 | a route ends where its steps each way add up to |
| Route.CoverMore | harness/rpg_oracle.py:45-56 | the frontier argument: when all waiting cells are n + 1 steps out, everything within n + 1 steps has been seen |
| Schedule.Apportion | data/gen/__main__.py:361-368 | counts sum to n, each is the floor or ceiling of its quota, larger remainders first and equal ones by place, zero remainders never |
| Schedule.BuildSchedule | data/gen/__main__.py:355-371 | the weights are the last of each level in the order of first parts; the shuffled schedule has n entries and each level as often as its apportioned count |
| Schedule.QuotasTotal | data/gen/__main__.py:361-364 | the quotas sum to n |

## Left out

- Object identity: JavaScript's `===` on two records, and records without an id as keys of MOST and LEAST, compare by identity; values here compare by structure.
- Numbers are integers and scores, weights and quotas are exact reals; floating-point rounding and NaN are not modelled, apart from the AUC's NaN result.
- Strings are sequences of characters; trimming and case folding in comparisons, `String(v)` of what is no string, `JSON.stringify`, dates and mixed-type comparisons are arbitrary functions.
- The slot kinds the checker writes into FORMAT instructions are part of the AST as given.
- The words of diagnostics, suggestions and error messages; a diagnostic is its code and line.
- Post hooks, `external` and `engine` tools: a foreign tool is an arbitrary function of the store and the parameters, and excluded where a theorem speaks of CRUD tools.
- The watchdog, process spawning, JSON transport of registers and states, metrics, latencies and the padded-clause census of the segment loop.
- An operand that faults while a PARALLEL's calls are built ends the block as a plain exception; the promises already started are complete by then.
- Line text: tabs, comments, blank lines and indentation widths are read before the model begins, which starts at numbered, indented lists of words.
- Digits and white space are ASCII; Python's wider classes are not modelled.
- Entity names are non-empty.
- SELECT with an index that is text, a list or a record, which JavaScript coerces; the checker asks for an integer.
- A store whose rows are not records: looking up an id in a list that holds null raises in JavaScript and finds nothing here.
- Grammar rules beyond symbols and CALL slots (`kinds`, FILTER clauses), grammar caches, and the static repair pass.
- The unweighted round-robin branch of the scheduler, and the oracle's policy around the router.
- Close: the seeds are given; collecting token ids from text files is not modelled.
- PruneKeepsTokenization: sufficient, not exact; unique producers, or more generally that no merge of a kept token is dropped, is not necessary, since a dropped merge may never decide a text of kept tokens.
- FullTextReturnsAll: one way only; whether a program can reach a PAUSE with a register bound depends on guards that may contradict each other or the loop they stand in (`PauseLimits.ContradictoryGuard`), which no reading of the text alone decides.
- SortByKeys: keys that mix texts with numbers or nulls compare by JavaScript's coercion, an arbitrary function here.
- PauseTransparent: assumes no injections and a joined run within budget; the condition on tools is exact for all continuations over a set of tools, not for a single continuation, which may never reach the create or the delete.
- SplitsExactly: over tools that leave `id` alone and foreign tools that leave the records alone.
- SplitTaskSameRow: no preview, no reaction to runtime errors, and a joined run that does not pause itself.
- RunIssuesEachIdOnce: ids of records that were there at the start may be issued again once deleted.
- TypesPreserved: a foreign tool is assumed to return its declared type and to keep the store typed; a field named `id` is declared ID or STR where the tool engine is shown to meet the assumption.
- BlockedExactly: foreign tools are assumed not to raise the gate's own exception.
- TextDeterminesProgram: the spelling of a one-line statement is not modelled, as for ReadFlattened.
- ReadFlattened: a statement on one line is one token and depth is not read; how its text is spelled and parsed by JavaScript is not modelled.
- TypedCallClean: says nothing of calls with register operands, whose types the grammar cannot know.
- OrdersNumbers: a null index selects undefined from a list, so undefined can be compared; it is below and above nothing.
- CallFaults: the code of a program's diagnostics is told call by call, not for the program as a whole, since the body of a loop over no list is not checked.
- FilterAnswers: one clause; predicates of several are `Steps.PredAnswers`.
- Path: assumes a map with a row for every y below its height, as the original does; which of several shortest routes it answers is not stated.
- RunTask: text that does not parse is one case of the planner's answer, not a parse of characters.
