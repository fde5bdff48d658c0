/**
 * The interpreter: instructions executed on the mutable context, with completeness
 * kept in the shared flag. Every method does to the context what the evaluator
 * says, and the flag it leaves after a success is the completeness of the result.
 */
module Interpreter {
  import opened Wrappers
  import opened Json
  import opened Errors
  import opened Ast
  import opened State
  import opened Semantics
  import opened Context
  import S = Streams
  import C = CanonMaps

  type ExecutionResult = Result<(), ExecutionError>

  ghost predicate Refines(run: Run, s: Ctx, complete: bool, r: ExecutionResult) {
    && s == run.s
    && match run.out
       case Done(c) => r == Ok(()) && complete == c
       case Failed(e) => r == Err(e)
  }

  // ---- instructions without a body ----

  /** A joinable error lowers the flag and is dropped; any other goes on. */
  method Joinable(e: Instr, err: ExecutionError, ctx: ExecutionCtx) returns (r: ExecutionResult)
    requires ctx.Separate()
    modifies ctx`subgraphCompleteness, ctx`history
    ensures Refines(Join(old(ctx.View()), e, err), ctx.View(), ctx.subgraphCompleteness, r)
  {
    if err.IsJoinable() {
      ctx.MakeSubgraphIncomplete();
      return Ok(());
    }
    ctx.history := Raise(ctx.View(), e, err).s.history;
    return Err(err);
  }

  method ExecuteAp(e: Instr, ctx: ExecutionCtx) returns (r: ExecutionResult)
    requires e.Ap? && ctx.Separate()
    modifies ctx.Repr()
    ensures Refines(ApScalar(e, old(ctx.View()), !old(ctx.subgraphCompleteness)), ctx.View(), ctx.subgraphCompleteness, r)
  {
    var value := ctx.ResolveOperand(e.value);
    if value.Err? {
      r := Joinable(e, value.error, ctx);
      return;
    }
    r := ctx.scalars.SetScalarValue(e.scalar, value.value);
  }

  method ExecuteApStream(e: Instr, ctx: ExecutionCtx) returns (r: ExecutionResult)
    requires e.ApStream? && ctx.Separate()
    modifies ctx.Repr()
    ensures Refines(AddToStream(e, old(ctx.View()), !old(ctx.subgraphCompleteness)), ctx.View(), ctx.subgraphCompleteness, r)
  {
    var value := ctx.ResolveOperand(e.value);
    if value.Err? {
      r := Joinable(e, value.error, ctx);
      return;
    }
    ctx.history := RecordAdd(ctx.history, false, ctx.streams.streams, e.stream, e.position, value.value);
    ctx.streams.AddStreamValue(e.stream, e.position, value.value);
    return Ok(());
  }

  method ExecuteApMap(e: Instr, ctx: ExecutionCtx) returns (r: ExecutionResult)
    requires e.ApMap? && ctx.Separate()
    modifies ctx.Repr()
    ensures Refines(AddToMap(e, old(ctx.View()), !old(ctx.subgraphCompleteness)), ctx.View(), ctx.subgraphCompleteness, r)
  {
    var value := ctx.ResolveOperand(e.value);
    if value.Err? {
      r := Joinable(e, value.error, ctx);
      return;
    }
    var key := ctx.ResolveKeyIfNeeded(e.key, e.streamMap);
    if key.Err? {
      r := Joinable(e, key.error, ctx);
      return;
    }
    ctx.history :=
      RecordAdd(ctx.history, true, ctx.streamMaps.streams, e.streamMap, e.position, FromKeyValue(key.value, value.value));
    ctx.streamMaps.AddStreamMapValue(e.streamMap, e.position, key.value, value.value);
    return Ok(());
  }

  method ExecuteCanon(e: Instr, ctx: ExecutionCtx) returns (r: ExecutionResult)
    requires e.Canon? && ctx.Separate()
    modifies ctx.Repr()
    ensures Refines(CanonizeStream(e, old(ctx.View()), !old(ctx.subgraphCompleteness)), ctx.View(), ctx.subgraphCompleteness, r)
  {
    ctx.history := RecordTake(ctx.history, false, ctx.streams.streams, e.stream, e.position);
    var found := ctx.streams.Get(e.stream, e.position);
    var values := if found.Some? then found.value else [];
    var answer := ctx.scalars.canonStreams.SetValue(e.canonStream, values);
    if answer.Err? {
      return Err(Uncatchable(UncatchableError.ShadowingIsNotAllowed(e.canonStream)));
    }
    return Ok(());
  }

  method ExecuteCanonMap(e: Instr, ctx: ExecutionCtx) returns (r: ExecutionResult)
    requires e.CanonMap? && ctx.Separate()
    modifies ctx.Repr()
    ensures Refines(CanonizeMap(e, old(ctx.View()), !old(ctx.subgraphCompleteness)), ctx.View(), ctx.subgraphCompleteness, r)
  {
    ctx.history := RecordTake(ctx.history, true, ctx.streamMaps.streams, e.streamMap, e.position);
    var found := ctx.streamMaps.Get(e.streamMap, e.position);
    var canonMap := C.FromCanonStream(if found.Some? then found.value else []);
    if canonMap.Err? {
      return Err(Uncatchable(canonMap.error));
    }
    var answer := ctx.scalars.canonMaps.SetValue(e.canonMap, canonMap.value);
    if answer.Err? {
      return Err(Uncatchable(UncatchableError.ShadowingIsNotAllowed(e.canonMap)));
    }
    return Ok(());
  }

  // ---- fail ----

  method FailWithErrorObject(e: Instr, value: JValue, ctx: ExecutionCtx) returns (r: ExecutionResult)
    requires ctx.Separate()
    modifies ctx.lastErrorDescriptor, ctx`subgraphCompleteness, ctx`history
    ensures Refines(FailWithObject(old(ctx.View()), e, value), ctx.View(), ctx.subgraphCompleteness, r)
  {
    ctx.lastErrorDescriptor.SetFromErrorObject(value);
    ctx.MakeSubgraphIncomplete();
    var err := Catchable(UserError(value));
    ctx.history := Raise(ctx.View(), e, err).s.history;
    return Err(err);
  }

  method FailWithCheckedObject(e: Instr, value: JValue, ctx: ExecutionCtx) returns (r: ExecutionResult)
    requires ctx.Separate()
    modifies ctx.Repr()
    ensures Refines(FailWithChecked(old(ctx.View()), e, value), ctx.View(), ctx.subgraphCompleteness, r)
  {
    var check := CheckErrorObject(value);
    if check.Err? {
      ctx.history := Raise(ctx.View(), e, check.error).s.history;
      return Err(check.error);
    }
    r := FailWithErrorObject(e, value, ctx);
  }

  method FailWithCurrentError(e: Instr, ctx: ExecutionCtx) returns (r: ExecutionResult)
    requires ctx.Separate()
    modifies ctx.Repr()
    ensures Refines(FailWithError(old(ctx.View()), e), ctx.View(), ctx.subgraphCompleteness, r)
  {
    ghost var before := ctx.View();
    var current := ctx.errorDescriptor.error;
    var check := CheckErrorObject(current.error);
    if check.Err? {
      ctx.history := Raise(ctx.View(), e, check.error).s.history;
      return Err(check.error);
    }
    r := FailWithErrorObject(e, current.error, ctx);
    assert ctx.View() == FailWithObject(before, e, current.error).s;
    if current.origCatchable.Some? {
      r := Err(Catchable(current.origCatchable.value));
    }
    ctx.errorDescriptor.DisableErrorSetting();
    ctx.history := ctx.history.(raised := Rethrown(before.error, before.history.residue));
  }

  method ExecuteFail(e: Instr, ctx: ExecutionCtx) returns (r: ExecutionResult)
    requires e.Fail? && ctx.Separate()
    modifies ctx.Repr()
    ensures Refines(DoFail(e, old(ctx.View())), ctx.View(), ctx.subgraphCompleteness, r)
  {
    match e.what {
      case FailLiteral(code, message) =>
        r := FailWithErrorObject(e, ErrorFromRawFields(code, message, e.Text(), Some(ctx.initPeerId)), ctx);
      case FailScalar(name) =>
        var value := ctx.scalars.GetValue(name);
        if value.Err? {
          ctx.history := Raise(ctx.View(), e, value.error).s.history;
          return Err(value.error);
        }
        r := FailWithCheckedObject(e, value.value, ctx);
      case FailLastError =>
        r := FailWithCheckedObject(e, ctx.lastErrorDescriptor.error.error, ctx);
      case FailError =>
        r := FailWithCurrentError(e, ctx);
    }
  }

  // ---- call ----

  method CheckOutputName(output: Option<string>, ctx: ExecutionCtx) returns (r: ExecutionResult)
    ensures r == CheckOutput(ctx.View(), output)
  {
    if output.None? {
      return Ok(());
    }
    var value := ctx.scalars.GetValue(output.value);
    if value.Err? {
      return if value.error.Uncatchable? then Err(value.error) else Ok(());
    }
    var name := output.value;
    if name in ctx.scalars.iterableVariables && Peek(ctx.scalars.iterableVariables[name]).Some? {
      return Err(Uncatchable(IterableShadowing(name)));
    }
    var couldBeSet := ctx.scalars.VariableCouldBeSet(name);
    return if couldBeSet then Ok(()) else Err(Uncatchable(UncatchableError.ShadowingIsNotAllowed(name)));
  }

  method ExecuteResolvedCall(e: Instr, args: Result<seq<JValue>, ExecutionError>, reply: Reply, ctx: ExecutionCtx)
    returns (r: ExecutionResult)
    requires e.Call? && ctx.Separate()
    modifies ctx.Repr()
    ensures Refines(Answer(e, old(ctx.View()), args, reply, !old(ctx.subgraphCompleteness)),
                    ctx.View(), ctx.subgraphCompleteness, r)
  {
    match reply {
      case Waiting =>
        ctx.traceHandler.MeetCallEnd(CallWaiting(e.peer));
        ctx.MakeSubgraphIncomplete();
        return Ok(());
      case Executed(v) =>
        if args.Err? {
          return Err(Uncatchable(Panic(NoArgumentHash)));
        }
        if e.output.Some? {
          r := ctx.scalars.SetScalarValue(e.output.value, v);
          if r.Err? {
            return;
          }
        }
        ctx.traceHandler.MeetCallEnd(CallExecuted(e.peer, args.value, v));
        return Ok(());
      case ServiceFailed(code, message) =>
        if args.Err? {
          return Err(Uncatchable(Panic(NoArgumentHash)));
        }
        ctx.MakeSubgraphIncomplete();
        ctx.traceHandler.MeetCallEnd(CallFailed(e.peer, args.value, code));
        var err := Catchable(LocalServiceError(code, message));
        ctx.history := Raise(ctx.View(), e, err).s.history;
        ctx.SetErrors(err, e, e.peer);
        return Err(err);
      case NotMet =>
        if e.peer != ctx.currentPeerId {
          ctx.traceHandler.MeetCallEnd(CallSent(e.peer));
          ctx.MakeSubgraphIncomplete();
          return Ok(());
        }
        ctx.MakeSubgraphIncomplete();
        if args.Err? {
          return Ok(());
        }
        var id := ctx.NextCallRequestId();
        ctx.callRequests := ctx.callRequests[id := args.value];
        ctx.traceHandler.MeetCallEnd(CallRequested(id));
        return Ok(());
    }
  }

  method ExecuteCall(e: Instr, ctx: ExecutionCtx) returns (r: ExecutionResult)
    requires e.Call? && ctx.Separate()
    modifies ctx.Repr()
    ensures Refines(DoCall(e, old(ctx.View()), !old(ctx.subgraphCompleteness)), ctx.View(), ctx.subgraphCompleteness, r)
  {
    r := CheckOutputName(e.output, ctx);
    if r.Err? {
      return;
    }
    var args := ctx.CollectArgs(e.args);
    if args.Err? && !args.error.IsJoinable() {
      ctx.history := Raise(ctx.View(), e, args.error).s.history;
      if args.error.Catchable? {
        ctx.SetErrors(args.error, e, e.peer);
      }
      return Err(args.error);
    }
    var reply := ctx.traceHandler.MeetCallStart();
    r := ExecuteResolvedCall(e, args, reply, ctx);
  }

  method ExecuteLeaf(e: Instr, ctx: ExecutionCtx) returns (r: ExecutionResult)
    requires IsLeaf(e) && ctx.Separate()
    modifies ctx.Repr()
    ensures Refines(EvalLeaf(e, old(ctx.View()), !old(ctx.subgraphCompleteness)), ctx.View(), ctx.subgraphCompleteness, r)
  {
    match e {
      case Null => r := Ok(());
      case Never =>
        ctx.MakeSubgraphIncomplete();
        r := Ok(());
      case Ap(_, _) => r := ExecuteAp(e, ctx);
      case ApStream(_, _, _) => r := ExecuteApStream(e, ctx);
      case ApMap(_, _, _, _) => r := ExecuteApMap(e, ctx);
      case Canon(_, _, _) => r := ExecuteCanon(e, ctx);
      case CanonMap(_, _, _) => r := ExecuteCanonMap(e, ctx);
      case Call(_, _, _) => r := ExecuteCall(e, ctx);
      case Fail(_) => r := ExecuteFail(e, ctx);
    }
  }

  // ---- instructions with a body ----

  /** One instruction with all that is nested in it; what goes wrong in it is recorded on the way out. */
  method Execute(e: Instr, ctx: ExecutionCtx, ghost path: Path, ghost names: seq<string>) returns (r: ExecutionResult)
    requires ctx.Separate() && Scoped(e, path, names) && EnvOk(path, names, ctx.View().scalars.iterables)
    modifies ctx.Repr()
    ensures Refines(Eval(e, path, names, old(ctx.View()), !old(ctx.subgraphCompleteness)),
                    ctx.View(), ctx.subgraphCompleteness, r)
    decreases Inactive(names, ctx.View().scalars.iterables), Remaining(names, ctx.View().scalars.iterables), FoldsIn(path), e, 3
  {
    r := ExecuteInstruction(e, ctx, path, names);
    // call sets the errors itself
    if r.Err? && !e.Call? {
      ctx.SetErrors(r.error, e, ctx.currentPeerId);
    }
  }

  method ExecuteInstruction(e: Instr, ctx: ExecutionCtx, ghost path: Path, ghost names: seq<string>) returns (r: ExecutionResult)
    requires ctx.Separate() && Scoped(e, path, names) && EnvOk(path, names, ctx.View().scalars.iterables)
    modifies ctx.Repr()
    ensures Refines(EvalInstr(e, path, names, old(ctx.View()), !old(ctx.subgraphCompleteness)),
                    ctx.View(), ctx.subgraphCompleteness, r)
    decreases Inactive(names, ctx.View().scalars.iterables), Remaining(names, ctx.View().scalars.iterables), FoldsIn(path), e, 2
  {
    match e {
      case Match(_, _, _) => r := ExecuteMatch(e, ctx, path, names);
      case MisMatch(_, _, _) => r := ExecuteMatch(e, ctx, path, names);
      case Seq(_, _) => r := ExecuteSeq(e, ctx, path, names);
      case Par(_, _) => r := ExecutePar(e, ctx, path, names, EvalPar(e, path, names, ctx.View()));
      case Xor(_, _) => r := ExecuteXor(e, ctx, path, names, EvalXor(e, path, names, ctx.View()));
      case New(_, _, _) => r := ExecuteNew(e, ctx, path, names);
      case Fold(_, _, _, _) => r := ExecuteFold(e, ctx, path, names);
      case Next(_) => r := ExecuteNext(e, ctx, path, names);
      case _ => r := ExecuteLeaf(e, ctx);
    }
  }

  method AreMatchableEq(left: Operand, right: Operand, ctx: ExecutionCtx) returns (r: Result<bool, ExecutionError>)
    ensures r == Compare(ctx.View(), left, right)
  {
    var leftValue := ctx.ResolveOperand(left);
    if leftValue.Err? {
      return Err(leftValue.error);
    }
    var rightValue := ctx.ResolveOperand(right);
    if rightValue.Err? {
      return Err(rightValue.error);
    }
    return Ok(leftValue.value == rightValue.value);
  }

  /** `match` and `mismatch` differ in the comparison they let through. */
  method ExecuteMatch(e: Instr, ctx: ExecutionCtx, ghost path: Path, ghost names: seq<string>) returns (r: ExecutionResult)
    requires e.Match? || e.MisMatch?
    requires ctx.Separate() && Scoped(e, path, names) && EnvOk(path, names, ctx.View().scalars.iterables)
    modifies ctx.Repr()
    ensures Refines(EvalMatch(e, path, names, old(ctx.View()), !old(ctx.subgraphCompleteness)),
                    ctx.View(), ctx.subgraphCompleteness, r)
    decreases Inactive(names, ctx.View().scalars.iterables), Remaining(names, ctx.View().scalars.iterables), FoldsIn(path), e, 1
  {
    var equal := AreMatchableEq(e.left, e.right, ctx);
    if equal.Err? {
      r := Joinable(e, equal.error, ctx);
      return;
    }
    if e.Match? && !equal.value {
      ctx.history := Raise(ctx.View(), e, Catchable(MatchValuesNotEqual)).s.history;
      return Err(Catchable(MatchValuesNotEqual));
    }
    if e.MisMatch? && equal.value {
      ctx.history := Raise(ctx.View(), e, Catchable(MismatchValuesEqual)).s.history;
      return Err(Catchable(MismatchValuesEqual));
    }
    r := Execute(e.body, ctx, path, names);
  }

  method ExecuteSeq(e: Instr, ctx: ExecutionCtx, ghost path: Path, ghost names: seq<string>) returns (r: ExecutionResult)
    requires e.Seq?
    requires ctx.Separate() && Scoped(e, path, names) && EnvOk(path, names, ctx.View().scalars.iterables)
    modifies ctx.Repr()
    ensures Refines(EvalSeq(e, path, names, old(ctx.View())), ctx.View(), ctx.subgraphCompleteness, r)
    decreases Inactive(names, ctx.View().scalars.iterables), Remaining(names, ctx.View().scalars.iterables), FoldsIn(path), e, 1
  {
    ctx.FlushSubgraphCompleteness();
    r := Execute(e.first, ctx, path, names);
    if r.Err? {
      return;
    }
    if ctx.subgraphCompleteness {
      KeptMeasure(names, old(ctx.View()).scalars.iterables, ctx.View().scalars.iterables);
      EnvKept(path, names, old(ctx.View()).scalars.iterables, ctx.View().scalars.iterables);
      r := Execute(e.second, ctx, path, names);
    }
  }

  /** One branch of `par`; the result is its completeness, or its error. */
  method ExecuteSubgraph(subgraph: Instr, ctx: ExecutionCtx, ghost path: Path, ghost names: seq<string>)
    returns (r: ExecutionResult, complete: bool)
    requires ctx.Separate() && Scoped(subgraph, path, names) && EnvOk(path, names, ctx.View().scalars.iterables)
    modifies ctx.Repr()
    ensures Refines(ParBranch(Eval(subgraph, path, names, old(ctx.View()), Quiet(subgraph))), ctx.View(), complete, r)
    ensures r.Err? ==> !complete
    decreases Inactive(names, ctx.View().scalars.iterables), Remaining(names, ctx.View().scalars.iterables), FoldsIn(path), subgraph, 4
  {
    ctx.SetSubgraphCompleteness(!subgraph.Next?);
    r := Execute(subgraph, ctx, path, names);
    if r.Err? {
      ctx.MakeSubgraphIncomplete();
      if r.error.Catchable? {
        ctx.history := Swallow(ctx.View()).history;
      }
    }
    complete := ctx.subgraphCompleteness;
  }

  method ExecutePar(e: Instr, ctx: ExecutionCtx, ghost path: Path, ghost names: seq<string>, ghost run: Run)
    returns (r: ExecutionResult)
    requires e.Par?
    requires ctx.Separate() && Scoped(e, path, names) && EnvOk(path, names, ctx.View().scalars.iterables)
    requires run == EvalPar(e, path, names, ctx.View())
    modifies ctx.Repr()
    ensures Refines(run, ctx.View(), ctx.subgraphCompleteness, r)
    decreases Inactive(names, ctx.View().scalars.iterables), Remaining(names, ctx.View().scalars.iterables), FoldsIn(path), e, 1
  {
    var left, leftComplete := ExecuteSubgraph(e.first, ctx, path, names);
    if left.Err? && left.error.Uncatchable? {
      return left;
    }
    KeptMeasure(names, old(ctx.View()).scalars.iterables, ctx.View().scalars.iterables);
    EnvKept(path, names, old(ctx.View()).scalars.iterables, ctx.View().scalars.iterables);
    var right, rightComplete := ExecuteSubgraph(e.second, ctx, path, names);
    if right.Err? && right.error.Uncatchable? {
      return right;
    }
    r := PreparePar(left, leftComplete, right, rightComplete, ctx);
  }

  method PreparePar(left: ExecutionResult, leftComplete: bool, right: ExecutionResult, rightComplete: bool, ctx: ExecutionCtx)
    returns (r: ExecutionResult)
    requires ctx.Separate() && (left.Err? ==> !leftComplete) && (right.Err? ==> !rightComplete)
    modifies ctx.lastErrorDescriptor, ctx`subgraphCompleteness
    ensures Refines(ParResult(AsOutcome(left, leftComplete), Run(old(ctx.View()), AsOutcome(right, rightComplete))),
                    ctx.View(), ctx.subgraphCompleteness, r)
  {
    ctx.SetSubgraphCompleteness(leftComplete || rightComplete);
    if left.Err? && right.Err? {
      return right;
    }
    ctx.lastErrorDescriptor.MeetParSuccessedEnd();
    return Ok(());
  }

  function AsOutcome(r: ExecutionResult, complete: bool): Outcome {
    match r
    case Ok(_) => Done(complete)
    case Err(e) => Failed(e)
  }

  method ExecuteXor(e: Instr, ctx: ExecutionCtx, ghost path: Path, ghost names: seq<string>, ghost run: Run)
    returns (r: ExecutionResult)
    requires e.Xor?
    requires ctx.Separate() && Scoped(e, path, names) && EnvOk(path, names, ctx.View().scalars.iterables)
    requires run == EvalXor(e, path, names, ctx.View())
    modifies ctx.Repr()
    ensures Refines(run, ctx.View(), ctx.subgraphCompleteness, r)
    decreases Inactive(names, ctx.View().scalars.iterables), Remaining(names, ctx.View().scalars.iterables), FoldsIn(path), e, 1
  {
    ctx.FlushSubgraphCompleteness();
    r := Execute(e.first, ctx, path, names);
    if r.Ok? || r.error.Uncatchable? {
      return;
    }
    EnterHandler(r.error, ctx);
    ghost var caught := ctx.View();
    KeptMeasure(names, old(ctx.View()).scalars.iterables, caught.scalars.iterables);
    EnvKept(path, names, old(ctx.View()).scalars.iterables, caught.scalars.iterables);
    r := Execute(e.second, ctx, path, names);
    ExitHandler(r, ctx, caught);
  }

  method EnterHandler(err: ExecutionError, ctx: ExecutionCtx)
    requires ctx.Separate() && err.Catchable?
    modifies ctx.lastErrorDescriptor, ctx.errorDescriptor, ctx`subgraphCompleteness, ctx`history
    ensures ctx.View() == CatchError(old(ctx.View()), err.c) && ctx.subgraphCompleteness
  {
    ctx.FlushSubgraphCompleteness();
    ctx.lastErrorDescriptor.MeetXorRightBranch();
    ctx.errorDescriptor.SetOriginalExecutionError(err);
    ctx.errorDescriptor.EnableErrorSetting();
    ctx.history := ctx.history.(residue := Clean);
  }

  method ExitHandler(r: ExecutionResult, ctx: ExecutionCtx, ghost caught: Ctx)
    requires ctx.Separate()
    modifies ctx.errorDescriptor, ctx`history
    ensures forall out: Outcome | out.Done? == r.Ok? :: ctx.View() == LeaveHandler(old(ctx.View()), out, caught)
  {
    ctx.errorDescriptor.ClearErrorObjectIfNeeded();
    if r.Ok? {
      ctx.errorDescriptor.EnableErrorSetting();
      ctx.history := ctx.history.(residue := if ctx.history.residue.Stuck? then Loose else Clean);
    } else {
      ctx.history := ctx.history.(raised := Traced(ctx.history.raised, caught));
    }
  }

  method Prolog(a: NewArgument, span: S.Span, ctx: ExecutionCtx)
    requires ctx.Separate()
    modifies ctx.Repr()
    ensures ctx.View() == OpenNew(old(ctx.View()), a, span)
    ensures ctx.subgraphCompleteness == old(ctx.subgraphCompleteness)
  {
    ctx.history := OpenNew(ctx.View(), a, span).history;
    match a {
      case NewScalar(n) => ctx.scalars.nonIterableVariables.MeetNewStart(n);
      case NewCanonStream(n) => ctx.scalars.canonStreams.MeetNewStart(n);
      case NewCanonMap(n) => ctx.scalars.canonMaps.MeetNewStart(n);
      case NewStream(n) => ctx.streams.MeetScopeStart(n, span);
      case NewStreamMap(n) => ctx.streamMaps.MeetScopeStart(n, span);
    }
  }

  method Epilog(a: NewArgument, ctx: ExecutionCtx, ghost start: Ctx, ghost span: S.Span) returns (r: Option<UncatchableError>)
    requires ctx.Separate()
    modifies ctx.Repr()
    ensures (ctx.View(), r) == CloseNew(NoteEnd(start, old(ctx.View()), a, span), a)
    ensures ctx.subgraphCompleteness == old(ctx.subgraphCompleteness)
  {
    ctx.history := NoteEnd(start, ctx.View(), a, span).history;
    match a {
      case NewScalar(n) =>
        var end := ctx.scalars.nonIterableVariables.MeetNewEnd(n);
        r := Corrupted(end);
      case NewCanonStream(n) =>
        var end := ctx.scalars.canonStreams.MeetNewEnd(n);
        r := Corrupted(end);
      case NewCanonMap(n) =>
        var end := ctx.scalars.canonMaps.MeetNewEnd(n);
        r := Corrupted(end);
      case NewStream(n) =>
        var popped := ctx.streams.MeetScopeEnd(n);
        r := if popped then None else Some(Panic(NoStreamToLeave));
      case NewStreamMap(n) =>
        var popped := ctx.streamMaps.MeetScopeEnd(n);
        r := if popped then None else Some(Panic(NoStreamMapToLeave));
    }
  }

  method ExecuteNew(e: Instr, ctx: ExecutionCtx, ghost path: Path, ghost names: seq<string>) returns (r: ExecutionResult)
    requires e.New?
    requires ctx.Separate() && Scoped(e, path, names) && EnvOk(path, names, ctx.View().scalars.iterables)
    modifies ctx.Repr()
    ensures Refines(EvalNew(e, path, names, old(ctx.View()), !old(ctx.subgraphCompleteness)),
                    ctx.View(), ctx.subgraphCompleteness, r)
    decreases Inactive(names, ctx.View().scalars.iterables), Remaining(names, ctx.View().scalars.iterables), FoldsIn(path), e, 1
  {
    ghost var start := ctx.View();
    Prolog(e.argument, e.span, ctx);
    EnvOfNew(path, e.argument, e.span, names, ctx.View().scalars.iterables);
    r := Execute(e.body, ctx, path + [NewScope(e.argument, e.span)], names);
    var end := Epilog(e.argument, ctx, start, e.span);
    if end.Some? && (end.value.Panic? || r.Ok?) {
      r := Err(Uncatchable(end.value));
    }
  }

  method CreateIterable(it: Iterable, ctx: ExecutionCtx) returns (r: Result<seq<JValue>, ExecutionError>)
    ensures r == Items(ctx.View(), it)
  {
    match it {
      case EmptyArray => return Ok([]);
      case OverScalar(name) =>
        var value := ctx.scalars.GetValue(name);
        if value.Err? {
          return Err(value.error);
        }
        if !value.value.JArray? {
          return Err(Catchable(FoldIteratesOverNonArray(value.value, name)));
        }
        return Ok(value.value.items);
      case OverCanonStream(name) =>
        r := ctx.scalars.GetCanonStream(name);
      case OverCanonMap(name) =>
        var canonMap := ctx.scalars.GetCanonMap(name);
        r := if canonMap.Ok? then Ok(canonMap.value.values) else Err(canonMap.error);
    }
  }

  method ExecuteFold(e: Instr, ctx: ExecutionCtx, ghost path: Path, ghost names: seq<string>) returns (r: ExecutionResult)
    requires e.Fold?
    requires ctx.Separate() && Scoped(e, path, names) && EnvOk(path, names, ctx.View().scalars.iterables)
    modifies ctx.Repr()
    ensures Refines(EvalFold(e, path, names, old(ctx.View()), !old(ctx.subgraphCompleteness)),
                    ctx.View(), ctx.subgraphCompleteness, r)
    decreases Inactive(names, ctx.View().scalars.iterables), Remaining(names, ctx.View().scalars.iterables), FoldsIn(path), e, 1
  {
    var items := CreateIterable(e.iterable, ctx);
    if items.Err? {
      r := Joinable(e, items.error, ctx);
      return;
    }
    if items.value == [] {
      return Ok(());
    }
    r := FoldItems(e, items.value, ctx, path, names,
                   EvalItems(e, items.value, path, names, ctx.View(), !ctx.subgraphCompleteness));
  }

  method FoldItems(e: Instr, items: seq<JValue>, ctx: ExecutionCtx, ghost path: Path, ghost names: seq<string>, ghost run: Run)
    returns (r: ExecutionResult)
    requires e.Fold? && items != []
    requires ctx.Separate() && Scoped(e, path, names) && EnvOk(path, names, ctx.View().scalars.iterables)
    requires run == EvalItems(e, items, path, names, ctx.View(), !ctx.subgraphCompleteness)
    modifies ctx.Repr()
    ensures Refines(run, ctx.View(), ctx.subgraphCompleteness, r)
    decreases Inactive(names, ctx.View().scalars.iterables), Remaining(names, ctx.View().scalars.iterables), FoldsIn(path), e, 0
  {
    ghost var before, inner := ctx.View(), run;
    var foldState := FoldState(items, 0, e.body, e.last);
    if e.iter !in before.scalars.iterables {
      FoldEnv(e, items, path, names, before);
      inner := Eval(e.body, path + [FoldScope(e.iter)], names, EnterFold(before, e.iter, foldState), !ctx.subgraphCompleteness);
      LeaveFoldOk(before, e.iter, foldState, inner);
      assert run == inner.(s := LeaveFold(inner.s, e.iter));
    }
    r := StartFold(e.iter, foldState, ctx);
    if r.Err? {
      return;
    }
    r := FoldBody(e.iter, e.body, ctx, path + [FoldScope(e.iter)], names, inner);
  }

  method FoldBody(i: string, body: Instr, ctx: ExecutionCtx, ghost path: Path, ghost names: seq<string>, ghost inner: Run)
    returns (r: ExecutionResult)
    requires ctx.Separate() && Scoped(body, path, names) && EnvOk(path, names, ctx.View().scalars.iterables)
    requires inner == Eval(body, path, names, ctx.View(), !ctx.subgraphCompleteness) && InScope(inner.s.scalars)
    modifies ctx.Repr()
    ensures Refines(inner.(s := LeaveFold(inner.s, i)), ctx.View(), ctx.subgraphCompleteness, r)
    decreases Inactive(names, ctx.View().scalars.iterables), Remaining(names, ctx.View().scalars.iterables), FoldsIn(path), body, 4
  {
    r := Execute(body, ctx, path, names);
    EndFold(i, ctx);
  }

  method StartFold(i: string, foldState: FoldState, ctx: ExecutionCtx) returns (r: ExecutionResult)
    requires ctx.Separate()
    modifies ctx.scalars.Repr()
    ensures i in old(ctx.scalars.iterableVariables) ==>
      r == Err(Uncatchable(MultipleIterableValues(i)))
      && ctx.View() == old(ctx.View()).(scalars := MeetFoldStart(old(ctx.View()).scalars))
    ensures i !in old(ctx.scalars.iterableVariables) ==>
      r == Ok(()) && ctx.View() == EnterFold(old(ctx.View()), i, foldState)
  {
    ctx.scalars.MeetFoldStart();
    r := ctx.scalars.SetIterableValue(i, foldState);
  }

  method EndFold(i: string, ctx: ExecutionCtx)
    requires ctx.Separate() && InScope(ctx.View().scalars)
    modifies ctx.scalars.Repr()
    ensures ctx.View() == LeaveFold(old(ctx.View()), i)
  {
    ctx.scalars.RemoveIterableValue(i);
    ctx.scalars.MeetFoldEnd();
  }

  method ExecuteNext(e: Instr, ctx: ExecutionCtx, ghost path: Path, ghost names: seq<string>) returns (r: ExecutionResult)
    requires e.Next?
    requires ctx.Separate() && Scoped(e, path, names) && EnvOk(path, names, ctx.View().scalars.iterables)
    modifies ctx.Repr()
    ensures Refines(EvalNext(e, path, names, old(ctx.View()), !old(ctx.subgraphCompleteness)),
                    ctx.View(), ctx.subgraphCompleteness, r)
    decreases Inactive(names, ctx.View().scalars.iterables), Remaining(names, ctx.View().scalars.iterables), FoldsIn(path), e, 1
  {
    ghost var k := FoldAt(path, e.iter);
    EnvOfNext(path, k, names, ctx.View().scalars.iterables);
    var found := ctx.scalars.GetIterable(e.iter);
    var foldState := found.value;
    if foldState.cursor + 1 < |foldState.items| {
      r := NextIteration(e.iter, foldState.body, ctx, path, k, names,
                         EvalIteration(e.iter, path, k, names, ctx.View(), !ctx.subgraphCompleteness));
    } else if foldState.last.Some? {
      ctx.FlushSubgraphCompleteness();
      r := Execute(foldState.last.value, ctx, path[..k], names);
    } else {
      r := Ok(());
    }
  }

  method NextIteration(i: string, body: Instr, ctx: ExecutionCtx, ghost path: Path, ghost k: nat, ghost names: seq<string>,
                       ghost run: Run)
    returns (r: ExecutionResult)
    requires ctx.Separate() && k < |path| && path[k] == FoldScope(i) && EnvOk(path, names, ctx.View().scalars.iterables)
    requires CanAdvance(ctx.View().scalars.iterables, i) && body == ctx.scalars.iterableVariables[i].body
    requires run == EvalIteration(i, path, k, names, ctx.View(), !ctx.subgraphCompleteness)
    modifies ctx.Repr()
    ensures Refines(run, ctx.View(), ctx.subgraphCompleteness, r)
    decreases Inactive(names, ctx.View().scalars.iterables), Remaining(names, ctx.View().scalars.iterables), 0
  {
    ghost var before := ctx.View();
    AdvanceEnv(i, path, k, names, before);
    ghost var inner := Eval(body, path[..k + 1], names, Advance(before, i), !ctx.subgraphCompleteness);
    AfterNextOk(before, i, inner);
    assert run == AfterNext(inner, i);
    var moved := Step(i, ctx);
    r := IterationBody(i, body, ctx, path[..k + 1], names, inner);
  }

  method IterationBody(i: string, body: Instr, ctx: ExecutionCtx, ghost path: Path, ghost names: seq<string>, ghost inner: Run)
    returns (r: ExecutionResult)
    requires ctx.Separate() && Scoped(body, path, names) && EnvOk(path, names, ctx.View().scalars.iterables)
    requires inner == Eval(body, path, names, ctx.View(), !ctx.subgraphCompleteness) && InScope(inner.s.scalars)
    requires i in ctx.scalars.iterableVariables
    modifies ctx.Repr()
    ensures Refines(AfterNext(inner, i), ctx.View(), ctx.subgraphCompleteness, r)
    decreases Inactive(names, ctx.View().scalars.iterables), Remaining(names, ctx.View().scalars.iterables), FoldsIn(path), body, 4
  {
    r := Execute(body, ctx, path, names);
    StepBack(i, r, ctx, inner);
  }

  /** Moves on to the next element, in a scope of its own. */
  method Step(i: string, ctx: ExecutionCtx) returns (moved: bool)
    requires ctx.Separate() && i in ctx.scalars.iterableVariables
    modifies ctx.scalars.Repr()
    ensures var f := old(ctx.scalars.iterableVariables)[i];
      moved == (f.cursor + 1 < |f.items|)
    ensures ctx.View() == if moved then Advance(old(ctx.View()), i) else old(ctx.View())
  {
    moved := ctx.scalars.NextElement(i);
    if moved {
      ctx.scalars.MeetNextBefore();
    }
  }

  /** Closes the scope, and moves back if there was no error. */
  method StepBack(i: string, r: ExecutionResult, ctx: ExecutionCtx, ghost run: Run)
    requires ctx.Separate() && InScope(ctx.View().scalars) && run.s == ctx.View()
    requires r.Err? == run.out.Failed? && (run.out.Done? ==> i in ctx.scalars.iterableVariables)
    modifies ctx.scalars.Repr(), ctx`history
    ensures ctx.View() == AfterNext(run, i).s
  {
    ctx.scalars.MeetNextAfter();
    if r.Err? {
      ctx.history := ctx.history.(nextFailed := true);
      return;
    }
    var movedBack := ctx.scalars.PrevElement(i);
  }
}
