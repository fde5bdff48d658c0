# AquaVM, modelled and proved

This project models the core of AquaVM, the interpreter of AIR scripts, in Dafny and
proves properties of it that hold for every script, every run or every sequence of runs.

* **Scopes.** The scalar store, one row of cells per variable tagged with scope depths,
  behaves like a stack of frames, and `fold`, `next` and `new` give back exactly what
  they found (`SparseMatrix`, `Scopes`, `Frames`, `Restoration`, `Cursors`,
  `Iterations`).
* **Control flow.** `State` and `Semantics` give every instruction a compositional
  meaning in which completeness is a result and termination is by a lexicographic measure:
  iterator names not active yet, elements left, folds around the instruction, size.
  `Context` and `Interpreter` are the interpreter itself, with its mutable context and its
  shared completeness flag, and refine that meaning. `Completeness`, `Progress` and
  `Loops` say what follows for runs and for the common fold bodies; `Instructions` and
  `Compounds` say what single instructions do by what can be read before and after them,
  and `Readings` what iterators read.
* **Errors.** Where `:error:` comes from and what survives handlers (`Errors`,
  `ErrorBubbling`).
* **Streams.** Lookups resolve by the text of the script, and ends of `new`s remove what
  their starts made (`Streams`, `Texts`, `StreamEnds`, `StreamScopes`, `Displacements`);
  canons take the values that were added, in order (`StreamValues`).
* **Scripts as text.** Printing and parsing of the testing framework, and the ids its
  services are found by (`Sexps`, `SexpParser`, `SexpRoundTrip`, `SexpExactness`,
  `Annotations`, `Walker`).
* **Content-addressed data.** Five stores with references between them, over any number of
  runs (`CidStores`, `CidState`, `CidRuns`).
* **Canon maps and lenses.** (`CanonMaps`, `CanonMapLaws`, `Lenses`).
* **Calls of the virtual machine.** Which data and requests leave a run, and the ids of
  requests over sequences of calls (`Avm`).

`Wrappers` and `Json` hold what the others share, `Ast` the instructions and the rule
the AIR parser enforces on iterators.

Where code and documentation disagree the model follows the code:

* The comment that all depths in a row are unique
  (`air/src/execution_step/execution_context/scalar_variables.rs:83-87`) does not hold
  while a `new` of the variable is open; `Scopes.DepthsAreUniqueOutsideNew` says when.
* The comment that unwrapping at the end of a `new` is safe
  (`air/src/execution_step/execution_context/streams_variables.rs:100`) does not hold
  after a first global value displaced open streams. `Displacements` gives a script that
  fails there, `StreamEnds` the exact condition for every run, and `StreamScopes` a
  condition on the script alone under which it never happens.

The state carries a record of what happened (`History`): that a `next` was left by an
error, which streams were displaced, what an error that `par` went on without left in
`:error:`, where the current error was raised, all lookups of streams, all ends of
their `new`s, and a log of what was added to streams and taken from them. Nothing the interpreter does depends on it (`Histories`).

A content identifier is a CIDv1 (Multiformats CID specification, section Versions, CIDv1)
whose hash is taken to have no collisions: it is modelled as an injective constructor.

## Model

| member | source | states |
|---|---|---|
| `SparseMatrix.ValuesSparseMatrix.constructor` | air/src/execution_step/execution_context/scalar_variables/values_sparse_matrix.rs:44-53 | a new store is empty, at depth 0, with depth 0 visible |
| `SparseMatrix.ValuesSparseMatrix.SetValue` | air/src/execution_step/execution_context/scalar_variables/values_sparse_matrix.rs:55-86 | the value goes into the cell of the current depth, over a value of the same scope; a global variable can be set only once; the answer says whether a value was overwritten |
| `SparseMatrix.ValuesSparseMatrix.GetValue` | air/src/execution_step/execution_context/scalar_variables/values_sparse_matrix.rs:88-102 | the newest cell alone decides: its value if its depth is visible, otherwise the variable is not found |
| `SparseMatrix.ValuesSparseMatrix.VariableCouldBeSet` | air/src/execution_step/execution_context/scalar_variables/values_sparse_matrix.rs:175-184 | anywhere but in the global scope, and there only after a `new` |
| `SparseMatrix.ValuesSparseMatrix.MeetFoldStart` | air/src/execution_step/execution_context/scalar_variables/values_sparse_matrix.rs:104-108 | a new visible scope, everything else as before |
| `SparseMatrix.ValuesSparseMatrix.MeetNextBefore` | air/src/execution_step/execution_context/scalar_variables/values_sparse_matrix.rs:110-115 | a new visible scope that hides the current one |
| `SparseMatrix.ValuesSparseMatrix.MeetNextAfter` | air/src/execution_step/execution_context/scalar_variables/values_sparse_matrix.rs:117-123 | the scope is left, the one below is visible again, one cell above it is dropped per row |
| `SparseMatrix.ValuesSparseMatrix.MeetFoldEnd` | air/src/execution_step/execution_context/scalar_variables/values_sparse_matrix.rs:125-129 | the scope is left, one cell above the one below is dropped per row |
| `SparseMatrix.ValuesSparseMatrix.MeetNewStart` | air/src/execution_step/execution_context/scalar_variables/values_sparse_matrix.rs:131-145 | a mark without a value on top of the row |
| `SparseMatrix.ValuesSparseMatrix.MeetNewEnd` | air/src/execution_step/execution_context/scalar_variables/values_sparse_matrix.rs:147-173 | the top of the row is removed; it is an error, possibly after the removal, if that was not of the current depth |
| `SparseMatrix.ValuesSparseMatrix.CleanupObsoleteValues` | air/src/execution_step/execution_context/scalar_variables/values_sparse_matrix.rs:192-210 | every row loses its last cell if that is deeper than the current scope, and nothing else; emptied rows go |
| `Scopes.SetKept` | air/src/execution_step/execution_context/scalar_variables/values_sparse_matrix.rs:55-86 | setting a variable touches no cell of an outer scope and keeps rows sorted |
| `Scopes.KeptValid` | air/src/execution_step/execution_context/scalar_variables/values_sparse_matrix.rs:55-210 | rows stay sorted by depth and never deeper than the current scope |
| `Scopes.FoldRestores` | air/src/execution_step/execution_context/scalar_variables/values_sparse_matrix.rs:104-129 | start, anything that keeps outer cells, end: exactly the store that was found, although only one cell per row is dropped |
| `Scopes.NextRestores` | air/src/execution_step/execution_context/scalar_variables/values_sparse_matrix.rs:110-123 | the same for a `next` that advances |
| `Scopes.NewRestores` | air/src/execution_step/execution_context/scalar_variables/values_sparse_matrix.rs:131-173 | `new` always finds its own mark, succeeds, and leaves the row of its variable exactly as found |
| `Scopes.DepthsAreUniqueOutsideNew` | air/src/execution_step/execution_context/scalar_variables.rs:83-87 | the documented "all depths in one row are unique" holds for every set, and fails for a `new` exactly if the variable was set in the same scope before |
| `Frames.LookupAgrees` | air/src/execution_step/execution_context/scalar_variables/values_sparse_matrix.rs:88-102 | the answer of the matrix is that of a stack of frames in which the innermost definition alone decides and is readable if its frame is visible |
| `Frames.DefineAgrees` | air/src/execution_step/execution_context/scalar_variables/values_sparse_matrix.rs:55-86 | setting on the matrix and on the frames give the same answer |
| `Frames.RunsAgree` | air/src/execution_step/execution_context/scalar_variables/values_sparse_matrix.rs:55-210 | every well-bracketed run of fold, next, new, set and get gives the same answers on the matrix as on the frames, keeps the matrix valid, and leaves both in corresponding states |
| `Frames.RunsAgreeFromStart` | air/src/execution_step/execution_context/scalar_variables/values_sparse_matrix.rs:44-210 | the same from the empty store |
| `Frames.HiddenInNext` | air/src/execution_step/execution_context/scalar_variables/values_sparse_matrix.rs:110-123 | a value set in the current scope is not readable inside `next` and is readable again behind it |
| `Context.ScalarVariables.SetScalarValue` | air/src/execution_step/execution_context/scalar_variables.rs:109-113 | scalars are set in the store of variables only |
| `Context.ScalarVariables.SetIterableValue` | air/src/execution_step/execution_context/scalar_variables.rs:133-147 | an iterator that is active already is an uncatchable error |
| `Context.ScalarVariables.GetValue` | air/src/execution_step/execution_context/scalar_variables.rs:181-192 | a variable or the current element of an iterator; neither is an error, both are the arm marked unreachable; `Readings.IteratorReads` and `Instructions.SetReads` say what the value is |
| `Context.ScalarVariables.NextElement` | air/src/execution_step/value_types/iterable.rs:102-111 | the cursor moves on unless it is at the last element |
| `Context.ScalarVariables.PrevElement` | air/src/execution_step/value_types/iterable.rs:114-123 | the cursor moves back unless it is at the first element |
| `Context.ScalarVariables.MeetFoldStart` | air/src/execution_step/execution_context/scalar_variables.rs:199-204 | three stores in lockstep |
| `Context.ScalarVariables.MeetNextAfter` | air/src/execution_step/execution_context/scalar_variables.rs:213-217 | three stores in lockstep |
| `Errors.ErrorDescriptor.TryToSetErrorFromExecError` | air/src/execution_step/execution_context/instruction_error/error_descriptor.rs:30-45 | a catchable error is recorded, as the object `Errors.RawFieldsTell` describes, unless one is bubbling up |
| `Errors.ErrorDescriptor.ClearErrorObjectIfNeeded` | air/src/execution_step/execution_context/instruction_error/error_descriptor.rs:51-55 | cleared unless an error is bubbling up |
| `Errors.ErrorDescriptor.SetOriginalExecutionError` | air/src/execution_step/execution_context/instruction_error/error_descriptor.rs:57-62 | the caught error is remembered beside the object |
| `Errors.LastErrorDescriptor.TryToSetLastErrorFromExecError` | air/src/execution_step/execution_context/instruction_error/last_error_descriptor.rs:36-53 | recorded once, and not for failed matches |
| `Errors.LastErrorDescriptor.SetFromErrorObject` | air/src/execution_step/execution_context/instruction_error/last_error_descriptor.rs:55-65 | set by `fail`, and no longer replaceable |
| `Errors.BuiltObjectsAreErrors` | air/src/execution_step/execution_context/instruction_error/instruction_error_definition.rs:80-127 | every object built for a catchable error passes the check for error objects; the object for no error does not |
| `Errors.ErrorObjectsExactly` | air/src/execution_step/execution_context/instruction_error/instruction_error_definition.rs:80-138 | exactly the objects with a non-zero signed 64-bit code and a message string pass |
| `Errors.RefusedExactly` | air/src/execution_step/execution_context/instruction_error/instruction_error_definition.rs:80-138 | which values are refused as no objects, without a code, with the code 0, with a code out of range, and without a message |
| `Errors.RawFieldsTell` | air/src/execution_step/execution_context/instruction_error/instruction_error_definition.rs:53-75 | code, message, instruction and, if given, peer stand each in the field of its name, and there are no other fields |
| `Errors.CodesTellKindsApart` | air/src/execution_step/errors/catchable_errors.rs:32-118 | codes of catchable errors lie in their range and are the same exactly for errors of one kind |
| `Context.ExecutionCtx.SetErrors` | air/src/execution_step/execution_context/context.rs:173-206 | `%last_error%` and `:error:` are set where they can be, and `:error:` is then closed |
| `Context.ExecutionCtx.NextCallRequestId` | air/src/execution_step/execution_context/context.rs:139-142 | the successor of the last id, as a 32-bit number |
| `Semantics.Eval` | air/src/execution_step/instructions/mod.rs:52-99 | every run ends, for every script and state; active iterators stay active over the same elements, their cursors do not go back, and no scope is left that was not opened |
| `Semantics.AdvanceEnv` | air/src/execution_step/instructions/next.rs:29-66 | termination: a `next` that advances shortens what is left of the active iterators of the script |
| `Semantics.FoldEnv` | air/src/execution_step/instructions/fold_scalar.rs:77-96 | termination: a fold uses up an iterator name of the script |
| `Semantics.EnvOfNext` | air/src/execution_step/instructions/next.rs:41-48 | termination: a last instruction stands outside of the fold, so fewer folds are around it |
| `Loops.SeqRuns` | air/src/execution_step/instructions/seq.rs:25-37 | the second part runs only if the first was complete, from the state that one left; otherwise `seq` ends as the first part did |
| `Loops.BranchesRun` | air/src/execution_step/instructions/par.rs:34-103 | both branches run unless the interpreter is stopped; complete if one is; an error only if both fail, and then that of the second |
| `ErrorBubbling.XorUnfolds` | air/src/execution_step/instructions/xor.rs:26-54 | the second branch runs exactly if the first fails catchably, from the caught state, and `xor` ends as it did |
| `Displacements.NewRuns` | air/src/execution_step/instructions/new.rs:26-78 | a `new` around a run that goes through ends with the stream on top removed, or panics if there is none |
| `Displacements.NextRuns` | air/src/execution_step/instructions/next.rs:41-48 | at the last element `next` runs the last instruction of its fold, in the scope the `next` stands in |
| `Histories.HistoryIsIdle` | air/src/execution_step/instructions/mod.rs:52-99 | runs from states that differ only in what is on record do the same and end the same, so the record has no influence |
| `Compounds.ParRuns` | air/src/execution_step/instructions/par.rs:34-103 | the second branch runs on what the first left, unless that stopped everything; `par` fails, with the second error, exactly if both do, and otherwise is complete if one branch is and lets `%last_error%` be set anew |
| `Compounds.XorRuns` | air/src/execution_step/instructions/xor.rs:26-53 | the handler runs exactly after a catchable error, on the state that left, with both error objects as they are and open to be set; afterwards `:error:` says that there is no error, unless one is stuck there |
| `Compounds.NewRuns` | air/src/execution_step/instructions/new.rs:26-78 | the body runs with one empty stream more, and that is gone at the end, also after an error; the end is that of the body, unless there is no stream to remove; rows of scalars are as before |
| `Compounds.FoldOfActiveIterator` | air/src/execution_step/execution_context/scalar_variables.rs:133-147 | a fold over an iterator that is active is refused |
| `Compounds.NextAtLast` | air/src/execution_step/instructions/next.rs:37-59 | at the last element the last instruction of the fold decides the end, run outside of the fold; without one nothing happens |
| `Instructions.MatchRuns` | air/src/execution_step/instructions/match_.rs:27-43 | the body runs, and decides the end, exactly if both operands resolve to the same value; different values are MatchValuesNotEqual with nothing changed; the first operand that does not resolve waits if it is a missing variable and fails otherwise |
| `Instructions.MismatchRuns` | air/src/execution_step/instructions/mismatch.rs:27-43 | the same with the body for different values and MismatchValuesEqual for equal ones |
| `Instructions.SetReads` | air/src/execution_step/execution_context/scalar_variables.rs:109-192 | a variable that was set reads as the value, and everything else reads as before |
| `Instructions.SettableExactly` | air/src/execution_step/execution_context/scalar_variables/values_sparse_matrix.rs:55-86 | setting fails exactly for a variable that has a value in the global scope |
| `Instructions.ApRuns` | air/src/execution_step/instructions/ap.rs:39-88 | afterwards the variable reads as the operand did before, and everything else as before |
| `Instructions.NewHides` | air/src/execution_step/execution_context/scalar_variables.rs:225-227 | inside a `new` the variable is not initialized, and everything else reads as before |
| `Instructions.NewHidesCanon` | air/src/execution_step/execution_context/scalar_variables.rs:229-231 | the same for a canon stream |
| `Instructions.NewHidesCanonMap` | air/src/execution_step/execution_context/scalar_variables.rs:233-235 | the same for a canon map |
| `Instructions.NothingAtStart` | air/src/execution_step/execution_context/context.rs:98-128 | at the start no variable can be read, and `:error:` and `%last_error%` say that there is no error, nothing is asked for and all replies are at hand |
| `Instructions.ApStreamRuns` | air/src/execution_step/instructions/ap.rs:39-88 | at its position the stream holds what it held, and behind that the value of the operand |
| `Instructions.ApMapRuns` | air/src/execution_step/instructions/ap_map.rs:39-95 | the stream of the map has one object more, with the key and the value in the fields of these names; a key that is neither a string nor an integer of 64 bits is an error |
| `Instructions.CanonRuns` | air/src/execution_step/instructions/canon.rs:40-97 | the canon reads, and is iterated over, as the values the stream holds at the position; streams and all other operands stay |
| `Instructions.CanonMapRuns` | air/src/execution_step/instructions/canon_map.rs:41-100 | the canon is iterated over as the pairs the stream map holds at the position |
| `Instructions.NothingRuns` | air/src/execution_step/instructions/never.rs:24-31 | `null` does nothing and is complete, `never` does nothing and is not |
| `Instructions.ElementsAre` | air/src/execution_step/instructions/fold/utils.rs:40-185 | a fold iterates over the items of the array its operand reads as, and another value is an error that shows it |
| `Instructions.FoldWithoutElements` | air/src/execution_step/instructions/fold_scalar.rs:34-75 | an empty iterable is complete and does nothing; a missing one waits; other errors go on |
| `Instructions.CallRuns` | air/src/execution_step/instructions/call/resolved_call.rs:93-204 | a call with its arguments: an answer in the data sets the output to exactly the value given and traces call, arguments and value; a failure is raised with its code and message; a call of another peer is sent; otherwise the host is asked, under the next id, with exactly these arguments |
| `Instructions.CallLacksArgument` | air/src/execution_step/instructions/call/resolved_call.rs:93-243 | without an argument nothing is asked; a missing variable waits, another error of the first such argument is raised |
| `Instructions.OutputRefused` | air/src/execution_step/instructions/call/resolved_call.rs:246-266 | an output that is an active iterator, or in the global scope a variable with a value, is refused |
| `Instructions.FailLiteralRuns` | air/src/execution_step/instructions/fail.rs:72-91 | the object thrown says code, message, instruction and the peer that began the run, and `%last_error%` is that object |
| `Instructions.FailErrorRuns` | air/src/execution_step/instructions/fail.rs:124-160 | `fail :error:` throws the error that was caught, or else one with the object shown; `:error:` and `%last_error%` then show that object and are closed; what is no error object is refused |
| `Instructions.FailObjectRuns` | air/src/execution_step/instructions/fail.rs:54-160 | exactly error objects are thrown, as they are |
| `Interpreter.Execute` | air/src/execution_step/instructions/mod.rs:52-99 | the interpreter, which keeps completeness in a shared flag, does what the evaluator says for every script; the flag it leaves after a success is the completeness of the result |
| `Interpreter.ExecuteSeq` | air/src/execution_step/instructions/seq.rs:25-37 | refines the evaluator with the flag flushed before and read between the parts |
| `Interpreter.ExecutePar` | air/src/execution_step/instructions/par.rs:34-50 | refines the evaluator with the flag set per branch and combined at the end |
| `Interpreter.ExecuteSubgraph` | air/src/execution_step/instructions/par.rs:52-84 | one branch: its completeness, or its error and incompleteness |
| `Interpreter.PreparePar` | air/src/execution_step/instructions/par.rs:91-103 | an error only if both branches failed; otherwise `%last_error%` can be set again |
| `Interpreter.ExecuteXor` | air/src/execution_step/instructions/xor.rs:26-54 | refines the evaluator with both error descriptors switched in place |
| `Interpreter.ExecuteMatch` | air/src/execution_step/instructions/match_.rs:29-43 | refines the evaluator, of which `Instructions.MatchRuns` says when the body runs; a variable that is not there yet makes it incomplete |
| `Interpreter.AreMatchableEq` | air/src/execution_step/instructions/mismatch.rs:29-43 | both operands are resolved, left one first, and compared |
| `Interpreter.ExecuteNew` | air/src/execution_step/instructions/new.rs:26-47 | refines the evaluator; the error of the body goes before that of the end |
| `Interpreter.ExecuteFold` | air/src/execution_step/instructions/fold_scalar.rs:34-75 | refines the evaluator; missing iterables wait, empty ones do nothing |
| `Interpreter.FoldItems` | air/src/execution_step/instructions/fold_scalar.rs:77-96 | refines the evaluator with the iterator inserted and removed in place |
| `Interpreter.ExecuteNext` | air/src/execution_step/instructions/next.rs:29-74 | refines the evaluator with the cursor moved in place |
| `Interpreter.IterationBody` | air/src/execution_step/instructions/next.rs:61-74 | the scope is closed in any case, the cursor goes back only without an error |
| `Interpreter.ExecuteFail` | air/src/execution_step/instructions/fail.rs:36-160 | refines the evaluator |
| `Interpreter.ExecuteCall` | air/src/execution_step/instructions/call.rs:40-83 | refines the evaluator |
| `Interpreter.ExecuteAp` | air/src/execution_step/instructions/ap.rs:39-88 | refines the evaluator for scalar results |
| `Interpreter.ExecuteApStream` | air/src/execution_step/instructions/ap.rs:39-88 | refines the evaluator for stream results |
| `Interpreter.ExecuteApMap` | air/src/execution_step/instructions/ap_map.rs:39-95 | refines the evaluator |
| `Interpreter.ExecuteCanon` | air/src/execution_step/instructions/canon.rs:38-97 | refines the evaluator for canons on the current peer |
| `Interpreter.ExecuteCanonMap` | air/src/execution_step/instructions/canon_map.rs:39-100 | refines the evaluator for canons on the current peer |
| `Completeness.FlagOnlyLowers` | air/src/execution_step/execution_context/context.rs:63-69 | an instruction entered with the flag lowered does exactly the same and differs at most in being incomplete; `seq`, `par`, `xor`, `never` and `fail` do not notice it |
| `Restoration.EvalRestores` | air/src/execution_step/execution_context/scalar_variables.rs:199-223 | no instruction that does not stop the interpreter touches a cell of an outer scope or leaves a scope open, and `ScalarsStateCorrupted` is never raised |
| `Restoration.NewRestores` | air/src/execution_step/instructions/new.rs:26-47 | `new` restores the row of its variable exactly, whatever the body does or how it fails |
| `Restoration.FoldRestores` | air/src/execution_step/instructions/fold_scalar.rs:77-96 | a whole fold, successful or failed, leaves all three stores exactly as found |
| `Restoration.IterationRestores` | air/src/execution_step/instructions/next.rs:57-65 | so does every `next` that advances |
| `Restoration.VariableHiddenInNext` | air/src/execution_step/instructions/next.rs:57-74 | a variable set in one iteration is unreadable inside the next one and readable again behind it |
| `Restoration.ScriptEndsGlobally` | air/src/execution_step/execution_context/scalar_variables.rs:199-223 | a script ends in the global scope with no active iterator |
| `Cursors.EvalCursors` | air/src/execution_step/instructions/next.rs:61-74 | unless a `next` is left by an error, every cursor is back where it was after any instruction |
| `Cursors.IterationCursors` | air/src/execution_step/instructions/next.rs:64-74 | an iteration left by an error leaves exactly its own cursor one element further on |
| `Iterations.EvalLeavesAlone` | air/src/execution_step/instructions/next.rs:29-74 | what contains no `next` of a fold cannot move the cursor of that fold, not even when it fails or moves other iterators |
| `Progress.EvalGrows` | air/src/execution_step/execution_context/context.rs:139-142 | during every run the trace only grows, and the ids of its requests are successive and exactly the new keys of the requests |
| `Loops.FoldPar` | air/src/execution_step/instructions/par.rs:52-115 | `(fold xs i (par X (next i)))`: X runs once per element in order, also when it fails for some; the fold is complete exactly if some X was; it fails only if X stops the interpreter |
| `Loops.FoldSeq` | air/src/execution_step/instructions/seq.rs:25-37 | `(fold xs i (seq X (next i)))`: X runs up to the first element for which it is incomplete or fails, and the fold ends like that |
| `Loops.ZigzagVisits` | air/src/execution_step/instructions/next.rs:61-74 | `seq A (seq (next i) B)`: A visits the elements forwards, then, only if all were complete, B visits them backwards; each visit starts from the state the one before left, at its own element |
| `Loops.FoldZigzag` | air/src/execution_step/instructions/fold_scalar.rs:77-96 | `(fold xs i (seq A (seq (next i) B)))`: the same for the whole fold, which ends as the last of these visits did |
| `Readings.IteratorReads` | air/src/execution_step/value_types/iterable/resolved_call.rs:53-70 | in an iteration with a given index the iterator reads as the element at that index |
| `Readings.IteratorIsHidden` | air/src/execution_step/execution_context/scalar_variables.rs:181-192 | exactly unless a variable has the name of the iterator; if that has a value, the read ends in the arm marked unreachable |
| `Readings.ScriptDoesNotClash` | air/src/execution_step/execution_context/scalar_variables.rs:181-192 | that arm is not reached by any run of a script that sets no variable of the name of an iterator |
| `Readings.FoldParReads` | air/src/execution_step/value_types/iterable/resolved_call.rs:53-70 | the k-th visit of a parallel fold reads the k-th element |
| `Readings.FoldSeqReads` | air/src/execution_step/value_types/iterable/resolved_call.rs:53-70 | the k-th visit of a sequential fold reads the k-th element |
| `Readings.FoldZigzagReads` | air/src/execution_step/value_types/iterable/resolved_call.rs:53-70 | in a fold with a part before and one behind its `next` the first part reads the elements in order and the second in reverse order |
| `Streams.StreamVariables.FindClosestIndex` | air/src/execution_step/execution_context/streams_variables/stream_descriptor.rs:48-60 | the last descriptor whose text contains the position |
| `Streams.StreamVariables.AddStreamValue` | air/src/execution_step/execution_context/streams_variables.rs:61-82 | appended to the stream found, behind its values (`Streams.AddAppends`); otherwise a global stream replaces what there is under the name |
| `Streams.StreamVariables.MeetScopeStart` | air/src/execution_step/execution_context/streams_variables.rs:84-97 | an empty stream restricted to the text of the `new` is pushed |
| `Streams.StreamVariables.MeetScopeEnd` | air/src/execution_step/execution_context/streams_variables.rs:99-110 | the last stream is removed; fails exactly where the unwraps do |
| `Streams.StreamVariables.AddStreamMapValue` | air/src/execution_step/execution_context/stream_maps_variables.rs:119-148 | the same for key-value pairs |
| `Streams.AddAppends` | air/src/execution_step/execution_context/streams_variables.rs:61-82 | the stream found at the position then holds what it held, and behind that the value; all others hold what they held, unless a first value made a global stream that stands alone |
| `StreamValues.EvalLogs` | air/src/execution_step/value_types/stream/values_matrix.rs:71-80 | every instruction inside a script keeps the streams of a name equal to their open activations, each with the values added to it in order |
| `StreamValues.CanonsTakeWhatWasAdded` | air/src/execution_step/instructions/canon_utils/mod.rs:105-139 | in every script every canon takes the values added to the activation its position resolves to, in the order they were added |
| `Texts.PathDecides` | air/src/execution_step/execution_context/streams_variables/stream_descriptor.rs:48-60 | in a script laid out as text, the `new`s whose text contains a position are exactly those around the instruction at that position, and the last of them is the innermost one |
| `StreamEnds.AddKeepsUnlessDisplaced` | air/src/execution_step/execution_context/streams_variables.rs:61-82 | adding a value keeps the open streams in place, or makes the global one where there is none, exactly unless it is a first global value from outside of all open ones; then it takes their place |
| `StreamEnds.ClosePops` | air/src/execution_step/execution_context/streams_variables.rs:84-110 | a `new` whose body left the streams in place removes the stream its start pushed; one that removes its own had them left in place |
| `StreamEnds.EvalPops` | air/src/execution_step/execution_context/streams_variables.rs:49-110 | for every run and stream: without displacement all ends remove their own streams; if all ends did, the streams open before the run are in place, or were all replaced by the global one; exactly an end without anything to remove makes the interpreter panic |
| `StreamEnds.EndsAreOwnExactly` | air/src/execution_step/execution_context/streams_variables.rs:99-110 | whole scripts, stream by stream: every end of a `new` removed what its own start pushed if and only if the stream was never displaced; the unwraps fail if and only if some end found nothing |
| `StreamScopes.ScriptResolves` | air/src/execution_step/execution_context/streams_variables.rs:49-110 | whole scripts, stream by stream: while the stream is not displaced every lookup finds the most recent activation of the innermost `new` whose text contains the position, else the global stream, and at the end only a global one is left; it is never displaced if every `next` in a `new` of it leads to a fold in that `new` |
| `StreamScopes.EvalTracks` | air/src/execution_step/execution_context/streams_variables.rs:49-110 | the same for every instruction inside a script, whatever was opened before |
| `StreamScopes.SealedScriptsLoseNothing` | air/src/execution_step/execution_context/streams_variables.rs:99-110 | in a script all of whose `next`s stay inside the `new`s around them the unwraps never fail |
| `Displacements.LeakingScriptPanics` | air/src/execution_step/execution_context/streams_variables.rs:71-110 | a script of an `ap`, a fold, two `new`s and a `next` that leads out of them, for which the unwraps do fail, whoever runs it |
| `Displacements.LeakingScriptLeaks` | air/src/execution_step/execution_context/streams_variables.rs:71-110 | it is a `next` inside of the `new`s that leads to a fold outside of them |
| `ErrorBubbling.LastErrorTells` | air/src/execution_step/execution_context/context.rs:173-206 | `%last_error%` then reads as an object with code, message, instruction and peer, each in the field of its name, exactly if it could be set and the error is no failed comparison; otherwise it stays |
| `ErrorBubbling.HandlerSeesOrigin` | air/src/execution_step/instructions/xor.rs:31-48 | the handler finds in `:error:` code, message, instruction and, for calls and canons, peer of the error, each in the field of its name, through any nesting, if and only if `:error:` could be set when it was raised, that is, unless an error is stuck there that `par` went on without; when the handler succeeds `:error:` is empty if and only if none got stuck in it |
| `ErrorBubbling.RethrowKeepsError` | air/src/execution_step/instructions/fail.rs:124-160 | any depth of `xor X (fail :error:)` ends with the very error X raised, shown by the same object, whatever happened before |
| `ErrorBubbling.ScriptShowsError` | air/src/execution_step/instructions/mod.rs:52-63 | the error a script ends with is shown with the instruction that raised it if and only if none was stuck; a script that ends without one leaves `:error:` empty if and only if no error was left there |
| `ErrorBubbling.EvalSettles` | air/src/execution_step/execution_context/instruction_error/error_descriptor.rs:30-70 | for every instruction of every run: `:error:` can be set exactly unless `par` went on without an error since the last `xor` that caught one or finished; an error on its way out shows itself or leaves what was shown, and a rethrown one is the one that was shown |
| `ErrorBubbling.StaleAfterPar` | air/src/execution_step/instructions/par.rs:97-100 | how an error gets stuck: after a failed `par` branch `:error:` keeps showing that error while another one bubbles up |
| `SexpRoundTrip.ParseUndoesPrint` | crates/testing-framework/src/transform/parser.rs:77-293 | parsing the printed form of a well-formed script gives back the script, and leaves any rest that begins with a delimiter and not with an annotation |
| `SexpRoundTrip.PrintToIsPrint` | crates/testing-framework/src/transform/mod.rs:92-125 | printing in front of a rest is printing followed by the rest |
| `SexpRoundTrip.MisleadingListIsLost` | crates/testing-framework/src/transform/parser.rs:87-112 | a list of two or more items headed by `call` or `canon` is never read back as a list |
| `SexpExactness.ReadBackExactly` | crates/testing-framework/src/transform/parser.rs:77-293 | a script, any tree whatsoever, is read back from its printed form if and only if it is well-formed: no annotations, symbols and strings of the grammar, and no list of two or more items headed by `call` or `canon` at any depth |
| `SexpExactness.DefinitionsAreLost` | crates/testing-framework/src/transform/mod.rs:92-125 | printing loses what annotations say; without them a script is read back if and only if the rest of it is well-formed |
| `SexpExactness.ParsedIsShaped` | crates/testing-framework/src/transform/parser.rs:77-293 | whatever the input, what the parser returns has only symbols and strings of the grammar, a string as service, and symbols as output, stream and target |
| `SexpExactness.Survives` | crates/testing-framework/src/transform/parser.rs:77-200 | a tree of such symbols and strings whose printed form in front of any rest is read as itself, up to annotations, hides no list headed by `call` or `canon`, and the rest is left |
| `SexpRoundTrip.SymbolRoundTrip` | crates/testing-framework/src/transform/parser.rs:136-150 | a symbol is read up to the delimiter behind it |
| `Annotations.AnnotationsExactly` | crates/testing-framework/src/transform/parser.rs:219-239 | an annotation is taken if and only if blanks and a line or block annotation follow, with exactly its text, up to the end of the line or behind the end mark |
| `Walker.ResultStore.Insert` | crates/testing-framework/src/services/results.rs:29-36 | the id is the number of definitions so far; earlier ones stay |
| `Walker.ResultStore.Call` | crates/testing-framework/src/services/results.rs:38-62 | split at the last two dots, parse the id, answer with that definition under the name in front |
| `Walker.TransformScript` | crates/testing-framework/src/transform/walker.rs:84-95 | the whole tree, with the store growing as annotated calls are met |
| `Walker.HandleCall` | crates/testing-framework/src/transform/walker.rs:97-119 | the peer is renamed; an annotated call gets the next id behind its service name |
| `Walker.TransformRewrites` | crates/testing-framework/src/transform/walker.rs:84-119 | exactly the calls reached are rewritten, in order, and the store takes up exactly their definitions |
| `Walker.TransformKeepsRest` | crates/testing-framework/src/transform/walker.rs:84-128 | beside the calls reached only named peers of canons change: lists keep length and first item, symbols, strings, streams and targets stay |
| `Walker.PanicsExactly` | crates/testing-framework/src/transform/walker.rs:97-119 | the transformation panics exactly if it reaches an annotated call whose service is no string |
| `Walker.ParsesExactly` | crates/testing-framework/src/services/results.rs:48-52 | ids are read from digits, with or without a plus sign, that fit a machine word |
| `Walker.EveryCallIsAnswered` | crates/testing-framework/src/transform/walker.rs:84-119 | every annotated call reached has an id of its own, and its new name is answered by its own definition, told the original name, dots and all, also when the store has grown |
| `Walker.NameLeadsBack` | crates/testing-framework/src/services/results.rs:42-57 | taking the id off a name undoes putting it on |
| `Walker.OthersAreLeftAlone` | crates/testing-framework/src/services/results.rs:42-61 | exactly the names that end in two dots and a number are not left to other services |
| `CidStores.VerifyStore` | crates/air-lib/interpreter-data/src/cid_store.rs:78-94 | passes exactly if every value is the one its identifier stands for; an error is that of some stored value |
| `CidStores.CidTracker.FromCidStores` | crates/air-lib/interpreter-data/src/cid_store.rs:125-132 | the current values go over the previous ones |
| `CidStores.CidTracker.TrackValue` | crates/air-lib/interpreter-data/src/cid_store.rs:139-158 | the value is stored under the identifier computed from it |
| `CidStores.MergeKeepsBoth` | crates/air-lib/interpreter-data/src/cid_store.rs:125-132 | merging correct stores loses and changes nothing of either |
| `CidState.Verify` | crates/air-lib/interpreter-data/src/cid_info.rs:61-122 | data passes exactly if all five stores are correct and nothing they refer to is missing |
| `CidState.ExecutionCidState.FromCidInfo` | air/src/execution_step/execution_context/cid_state.rs:48-68 | all five stores are merged |
| `CidState.ExecutionCidState.TrackServiceResult` | air/src/execution_step/execution_context/cid_state.rs:70-84 | value, tetraplet and result are stored, the result refers to the others, and all are read back (`CidRuns.ServiceComesBack`) |
| `CidState.ExecutionCidState.TrackCanonValue` | air/src/execution_step/execution_context/cid_state.rs:86-98 | value, tetraplet and element are stored, the element refers to the others and to where the value came from |
| `CidState.ExecutionCidState.TrackCanonResult` | air/src/execution_step/instructions/canon_utils/mod.rs:149-174 | all elements in order, then the tetraplet, then the canon |
| `CidRuns.MergeGood` | air/src/execution_step/execution_context/cid_state.rs:48-68 | merging verified data into closed and correct stores keeps them so and extends both |
| `CidRuns.TrackElementGood` | air/src/execution_step/execution_context/cid_state.rs:86-98 | tracking an element keeps the stores closed exactly if the provenance of its value is stored |
| `CidRuns.AllRunsGood` | crates/air-lib/interpreter-data/src/cid_info.rs:61-122 | from empty data, after any number of runs, all five stores are closed and correct |
| `CidRuns.NothingIsLost` | crates/air-lib/interpreter-data/src/cid_store.rs:125-158 | no identifier disappears or changes its value in any later run |
| `CidRuns.StepKeeps` | air/src/execution_step/execution_context/cid_state.rs:100-167 | within a run only reading what is not stored can fail |
| `CidRuns.StoredServiceResolves` | air/src/execution_step/execution_context/cid_state.rs:154-167 | looking up a stored service result never fails, and gives what its identifiers stand for |
| `CidRuns.StoredCanonResolves` | air/src/execution_step/instructions/canon_utils/mod.rs:76-102 | reading back a stored canon never fails |
| `CidRuns.ElementComesBack` | air/src/execution_step/value_types/scalar.rs:76-102 | a value put into a canon element comes back as it was, but for its position in the trace |
| `CidRuns.CanonComesBack` | air/src/execution_step/instructions/canon_utils/mod.rs:76-174 | a canon is read back from any later data, with the same values in the same order |
| `CidRuns.ServiceComesBack` | air/src/execution_step/execution_context/cid_state.rs:70-167 | a tracked service result is read back from any later data: exactly its value, its tetraplet and its argument hash |
| `CidRuns.AnswersAreReadBack` | air/src/execution_step/instructions/call/call_result_setter.rs:32-130 | in any later run, reading the result of a call that was answered gives the value of the answer, with the same origin |
| `CidRuns.CanonsAreReadBack` | air/src/execution_step/instructions/canon_utils/mod.rs:76-174 | in any later run, reading a canon that was made gives the values it was made of, in order |
| `CidRuns.MadeValues` | air/src/execution_step/value_types/scalar.rs:76-142 | values made in a run are those given, with the origin of what they were made of |
| `CanonMaps.FromCanonStream` | air/src/execution_step/value_types/canon_stream_map.rs:54-72 | the index filled pair by pair is that of the whole stream; the first pair that is none is the error |
| `CanonMaps.FirstBadExactly` | air/src/execution_step/value_types/canon_stream_map.rs:54-72 | it fails exactly if some pair lacks a key or a value, with the error for what the first such pair lacks first |
| `CanonMapLaws.InsertionsAreGood` | air/src/execution_step/value_types/stream_map.rs:49-63 | a map made of inserted values never fails |
| `CanonMapLaws.IndexIsSubsequence` | air/src/execution_step/value_types/canon_stream_map.rs:54-98 | the index at a key is exactly the in-order subsequence of the values inserted under it |
| `CanonMapLaws.LengthsAddUp` | air/src/execution_step/value_types/canon_stream_map.rs:54-76 | the lengths over all keys add up to the length of the map |
| `CanonMapLaws.IterUniqueKeyObject` | air/src/execution_step/value_types/stream_map.rs:77-103 | one pass with the set of texts met |
| `CanonMapLaws.UniqueIsFirsts` | air/src/execution_step/value_types/stream_map.rs:77-103 | the pass keeps exactly the first pair of every key text |
| `CanonMapLaws.UniqueIsFirstOfEveryKey` | air/src/execution_step/value_types/stream_map.rs:77-103 | these are the first pairs of every key exactly if no two different keys have the same text |
| `CanonMapLaws.UniqueKeepsFirstValues` | air/src/execution_step/value_types/stream_map.rs:77-103 | the pass yields for every key, in the order of first use, its text and the first value inserted under it, if and only if no two different keys have the same text |
| `CanonMapLaws.KeysClashExactly` | air/src/execution_step/execution_context/stream_maps_variables/stream_map_key.rs:60-67 | two keys have the same text exactly if they are the same string or integer, or one is an integer and the other its decimal text |
| `CanonMapLaws.NumbersAndTextsClash` | air/src/execution_step/value_types/stream_map.rs:79-94 | 42 and "42" clash |
| `Lenses.SelectByPathFromScalar` | air/src/execution_step/lambda_applier/applier.rs:247-269 | goes down the path step by step, with the error of the first step that fails |
| `Lenses.SelectsExactly` | air/src/execution_step/lambda_applier/applier.rs:247-269 | a path selects a value exactly if it leads there, step by step, through items of arrays at the indices and fields of objects with the names its accessors stand for |
| `Lenses.StepFailsExactly` | air/src/execution_step/lambda_applier/utils.rs:24-134 | which step fails with which error |
| `Lenses.KeysExactly` | air/src/execution_step/lambda_applier/applier.rs:155-167 | the key an accessor stands for, by the JSON value of the key: the field name, the index, or what is in the scalar, which must not be an iterator |
| `Lenses.MapSelectsInsertions` | air/src/execution_step/lambda_applier/applier.rs:145-183 | from a map filled by insertions an accessor selects the values put in under its key, in order |
| `Lenses.SelectComposes` | air/src/execution_step/lambda_applier/applier.rs:247-269 | selecting by a concatenation of paths is selecting by the second from what the first selects |
| `Lenses.StreamIsArray` | air/src/execution_step/lambda_applier/applier.rs:81-97 | a path selects from a canon stream exactly if it selects from the array of its values, and the same |
| `Lenses.MapIsObject` | air/src/execution_step/lambda_applier/applier.rs:99-180 | for a key of the map a path selects from the map exactly what it selects from a JSON object of the map |
| `Lenses.AmbiguousKeysDiffer` | air/src/execution_step/value_types/canon_stream_map.rs:82-86 | that the object shows the values of a key holds exactly if no key with the same text has other values |
| `Lenses.MissingKeysDiffer` | air/src/execution_step/lambda_applier/applier.rs:168-177 | for a missing key the two differ: the map gives an empty array for any rest of the path |
| `Avm.ExecuteAir` | air/src/runner.rs:58-158 | new data and requests after a run that was not aborted; previous data and no requests otherwise; empty data after a failure while the outcome is made |
| `Avm.AVM.Call` | avm/server/src/avm.rs:82-142 | reads the previous data, runs, and persists the data of the outcome whatever it is |
| `Avm.ExposedIds` | air/src/farewell_step/outcome.rs:110-157 | the ids a run exposes are exactly those between the last ids before and after it |
| `Avm.DataIsTheTrace` | air/src/farewell_step/outcome.rs:110-157 | the new data is the trace the script left and its last id; it names exactly the requests the host gets, with the arguments the script left |
| `Avm.AbortedRunsLeaveNoTrace` | air/src/farewell_step/outcome.rs:68-86 | aborted runs expose no requests and keep the previous data |
| `Avm.IdsNeverReused` | air/src/farewell_step/outcome.rs:41-157 | over any sequence of calls ids of later calls are greater than those of earlier ones, while ids last and no call ends in an internal failure |
| `Avm.FarewellFailureForgetsIds` | air/src/farewell_step/outcome.rs:159-212 | after an internal failure the next request has the first id again |

## Left out

- The merger of traces and the state machines of `par` and `fold` behind the trace handler: what data and host know about calls is a list of replies that the calls take in order, so the laws on merging traces are not stated.
- Folds over streams, generations and compactification: a stream is the sequence of its values; whether compactification fails is a parameter of `Avm`.
- Stream outputs of `call`; call triplets with variables, service and function names, and argument hashes: a call has a literal peer, operands and a reply.
- `ap`, `fold`, `match` and `fail` with lenses: the operands of the executor are literals, scalars, canon streams, `:error:` and `%last_error%`; lenses are treated by themselves in `Lenses`.
- Canon instructions for another peer, and canons of a map into a scalar: easy members next to the ones modelled.
- Tetraplets and provenance of values inside the executor and the lenses: they are modelled only in the stores of `CidState`.
- The text of JSON values inside error messages, and the text of numbers in raw values: a value and its text are identified.
- The AIR grammar: execution starts from instructions that obey the scoping rule of iterators and, for streams, from positions laid out as in a text. A `next` in the last instruction of a fold names an outer iterator.
- The error for a `next` outside of a fold: parsed scripts have none.
- Service definitions in annotations: the text is kept and not interpreted, so the panic on a malformed one is not modelled.
- Names of peers: renaming is a function given from outside.
- Size limits, versions, signatures, serialization, logging and anomaly data: a run fails in preparation or signing by a parameter.
- Sexp updates in place: `inject` and the transformation of the tree give new trees instead; sharing of subtrees is not modelled.
- The width of `usize` in depths, cursors and lengths: they are unbounded; ids of requests wrap at 32 bits.
- `Interpreter.Execute`: the completeness flag after an error is not stated, because every instruction that goes on after an error sets the flag first.
- `Interpreter.ExecuteFold`: iterables with lenses, because lenses are treated by themselves in `Lenses`.
- `Interpreter.ExecuteNext`: iterators over streams, because stream folds are not part of this model.
- `Interpreter.ExecuteFail`: lenses, canon streams and tetraplets of the error object.
- `Interpreter.ExecuteCall`: resolution of triplets, stream outputs and argument hashes.
- `Interpreter.ExecuteAp`: lenses and tetraplets.
- `Interpreter.ExecuteApStream`: generations and the trace of the merger.
- `Interpreter.ExecuteApMap`: generations, lenses and the trace of the merger.
- `Interpreter.ExecuteCanon`: canons of other peers and those already in the data.
- `Interpreter.ExecuteCanonMap`: canons of other peers and those already in the data.
- `Streams.StreamVariables.AddStreamValue`: generations, and the error for too many values.
- `Streams.StreamVariables.AddStreamMapValue`: generations, and the error for too many values.
- `Streams.StreamVariables.MeetScopeEnd`: compactification, whose failure is a parameter of `Avm`.
- `Avm.ExecuteAir`: return codes, messages and the peers to send data to.
- `Avm.IdsNeverReused`: assumes that the 32-bit ids do not run out and that no call ends in an internal failure; `Avm.FarewellFailureForgetsIds` shows what happens then.
