/**
 * `:error:` tells where an error arose, or keeps what it showed before, and it is known
 * which of the two in every run: an error is shown exactly if `:error:` could be set
 * when it was raised, and that fails exactly if `par` went on without an earlier error
 * and no `xor` has caught one or finished handling one since. Handlers that only
 * `fail :error:` pass on the very error that was caught, and a handler that goes
 * through leaves no error behind unless one got stuck in the handler itself.
 */
module ErrorBubbling {
  import opened Wrappers
  import opened Json
  import opened Errors
  import opened Ast
  import opened State
  import opened Semantics
  import Loops
  import S = Streams

  /** The peer an error of this instruction is shown with. */
  function ShownPeer(instr: Instr, peer: string): Option<string> {
    match instr
    case Call(callee, _, _) => Some(callee)
    case Canon(_, _, _) => Some(peer)
    case CanonMap(_, _, _) => Some(peer)
    case _ => None
  }

  /** `:error:` tells code and message of this error, the instruction it arose in, and for some instructions the peer. */
  ghost predicate Describes(d: Descriptor, instr: Instr, c: CatchableError, peer: string) {
    Tells(d.error.error, c.Code(), c.Message(), instr.Text(), ShownPeer(instr, peer))
  }

  predicate ShowsError(d: Descriptor) {
    CheckErrorObject(d.error.error).Ok?
  }

  /** While no error is bubbling up: `:error:` can be set unless an error is stuck in it, and shows what is left of one. */
  predicate InStep(s: Ctx) {
    && (s.error.canBeSet <==> !s.history.residue.Stuck?)
    && (!s.history.residue.Clean? ==> ShowsError(s.error))
  }

  /** What `fail :error:` throws. */
  function Thrown(d: Descriptor): CatchableError {
    match d.error.origCatchable case Some(c) => c case None => UserError(d.error.error)
  }

  /** `:error:` shows the error if it could be set at the time, and otherwise what it showed before. */
  ghost predicate ShowsOrKeeps(d: Descriptor, instr: Instr, c: CatchableError, peer: string, before: Descriptor) {
    if before.canBeSet then Describes(d, instr, c, peer) else d.error.error == before.error.error
  }

  /**
   * An error on its way out, since the state `from`. One that is thrown again with no
   * other error left in `:error:` is the one that `:error:` showed in `from`.
   */
  ghost predicate Bubbling(from: Ctx, s: Ctx, c: CatchableError) {
    && !s.error.canBeSet && ShowsError(s.error)
    && match s.history.raised
       case Nowhere => false
       case Fresh(instr, c', before, residue) =>
         c' == c && ShowsOrKeeps(s.error, instr, c, s.peer, before) && (before.canBeSet <==> !residue.Stuck?)
       case Rethrown(before, residue) =>
         && s.error.error.error == before.error.error && c == Thrown(before) && ShowsError(before)
         && (residue.Clean? ==> before == from.error && from.history.residue.Clean?)
  }

  /** No error is left but the one that was there before, if any. */
  predicate Calm(from: Ctx, s: Ctx) {
    && InStep(s)
    && (s.history.residue.Clean? ==>
          s.error == InitialDescriptor() || (s.error == from.error && from.history.residue.Clean?))
  }

  /** What every run does to `:error:`. */
  ghost predicate Settled(s: Ctx, r: Run) {
    && r.s.peer == s.peer
    && match r.out
       case Done(_) => Calm(s, r.s)
       case Failed(Catchable(c)) => Bubbling(s, r.s, c)
       case Failed(Uncatchable(_)) => true
  }

  /** The same before the error, if it arose in `e` itself, is recorded. */
  ghost predicate Unrecorded(e: Instr, s: Ctx, r: Run) {
    || Settled(s, r)
    || (r.s.peer == s.peer && r.s.history.residue == s.history.residue && !e.Call? && RaisedBy(e, s, r))
  }

  lemma RecordingSettles(e: Instr, s: Ctx, r: Run)
    requires InStep(s) && Unrecorded(e, s, r)
    ensures Settled(s, if r.out.Failed? && !e.Call? then r.(s := SetErrors(r.s, r.out.error, e, s.peer)) else r)
  {
    if r.out.Failed? && r.out.error.Catchable? {
      BuiltObjectsAreErrors(r.out.error.c, e.Text(), ShownPeer(e, s.peer));
      BuiltObjectsTell(r.out.error.c, e, s.peer);
    }
  }

  lemma BuiltObjectsTell(c: CatchableError, instr: Instr, peer: string)
    ensures Describes(Descriptor(FromCatchable(c, instr.Text(), ShownPeer(instr, peer)), false), instr, c, peer)
  {
    RawFieldsTell(c.Code(), c.Message(), instr.Text(), ShownPeer(instr, peer));
  }

  /**
   * `%last_error%` is told likewise, always with a peer, if it can be set and the error
   * is not a failed comparison; a script reads what is told.
   */
  lemma LastErrorTells(s: Ctx, e: ExecutionError, instr: Instr, peer: string)
    ensures var s' := SetErrors(s, e, instr, peer);
      && Resolve(s', LastErrorObject) == Ok(s'.lastError.error.error)
      && if s.lastError.canBeSet && e.Catchable? && !e.c.MatchValuesNotEqual? && !e.c.MismatchValuesEqual? then
           && Tells(s'.lastError.error.error, e.c.Code(), e.c.Message(), instr.Text(), Some(peer))
           && !s'.lastError.canBeSet
         else s'.lastError == s.lastError
  {
    if e.Catchable? {
      RawFieldsTell(e.c.Code(), e.c.Message(), instr.Text(), Some(peer));
    }
  }

  // ---- instructions without a body ----

  lemma LeafUnrecorded(e: Instr, s: Ctx, quiet: bool)
    requires IsLeaf(e) && InStep(s)
    ensures Unrecorded(e, s, EvalLeaf(e, s, quiet))
  {
    match e {
      case Call(_, _, _) => CallSettles(e, s, quiet);
      case Fail(_) => FailUnrecorded(e, s);
      case _ => PlainUnrecorded(e, s, quiet);
    }
  }

  lemma PlainUnrecorded(e: Instr, s: Ctx, quiet: bool)
    requires IsLeaf(e) && !e.Call? && !e.Fail?
    ensures Unrecorded(e, s, EvalLeaf(e, s, quiet))
  {
    assert RecordKept(s, EvalLeaf(e, s, quiet).s) && RaisedBy(e, s, EvalLeaf(e, s, quiet));
  }

  lemma FailUnrecorded(e: Instr, s: Ctx)
    requires e.Fail? && InStep(s)
    ensures Unrecorded(e, s, DoFail(e, s))
  {
    if e.what.FailError? {
      RethrowUnrecorded(e, s);
    }
  }

  lemma RethrowUnrecorded(e: Instr, s: Ctx)
    requires e.Fail? && e.what.FailError? && InStep(s)
    ensures Unrecorded(e, s, FailWithError(s, e))
  {
  }

  lemma CallSettles(e: Instr, s: Ctx, quiet: bool)
    requires e.Call? && InStep(s)
    ensures Settled(s, DoCall(e, s, quiet))
  {
    var args := ResolveAll(s, e.args);
    if CheckOutput(s, e.output).Ok? {
      if args.Err? && !args.error.IsJoinable() {
        if args.error.Catchable? {
          BuiltObjectsAreErrors(args.error.c, e.Text(), Some(e.peer));
          BuiltObjectsTell(args.error.c, e, s.peer);
        }
      } else {
        var reply := if s.replies == [] then NotMet else s.replies[0];
        AnswerSettles(e, s.(replies := if s.replies == [] then [] else s.replies[1..]), args, reply, quiet);
      }
    }
  }

  lemma AnswerSettles(e: Instr, s: Ctx, args: Result<seq<JValue>, ExecutionError>, reply: Reply, quiet: bool)
    requires e.Call? && InStep(s)
    ensures Settled(s, Answer(e, s, args, reply, quiet))
  {
    if reply.ServiceFailed? {
      BuiltObjectsAreErrors(LocalServiceError(reply.code, reply.message), e.Text(), Some(e.peer));
      BuiltObjectsTell(LocalServiceError(reply.code, reply.message), e, s.peer);
    }
  }

  // ---- every run ----

  /** Everything needed to run `e` with errors ready to be recorded. */
  ghost predicate Runnable(e: Instr, path: Path, names: seq<string>, s: Ctx) {
    Scoped(e, path, names) && EnvOk(path, names, s.scalars.iterables) && InStep(s)
  }

  lemma {:induction false} EvalSettles(e: Instr, path: Path, names: seq<string>, s: Ctx, quiet: bool)
    requires Runnable(e, path, names, s)
    ensures Settled(s, Eval(e, path, names, s, quiet))
    decreases Inactive(names, s.scalars.iterables), Remaining(names, s.scalars.iterables), FoldsIn(path), e, 3
  {
    InstrUnrecorded(e, path, names, s, quiet);
    RecordingSettles(e, s, EvalInstr(e, path, names, s, quiet));
  }

  lemma {:induction false} InstrUnrecorded(e: Instr, path: Path, names: seq<string>, s: Ctx, quiet: bool)
    requires Runnable(e, path, names, s)
    ensures Unrecorded(e, s, EvalInstr(e, path, names, s, quiet))
    decreases Inactive(names, s.scalars.iterables), Remaining(names, s.scalars.iterables), FoldsIn(path), e, 2
  {
    var r := EvalInstr(e, path, names, s, quiet);
    match e {
      case Match(_, _, _) => MatchUnrecorded(e, path, names, s, quiet); assert r == EvalMatch(e, path, names, s, quiet);
      case MisMatch(_, _, _) => MatchUnrecorded(e, path, names, s, quiet); assert r == EvalMatch(e, path, names, s, quiet);
      case Seq(_, _) => SeqSettles(e, path, names, s); assert r == EvalSeq(e, path, names, s);
      case Par(_, _) => ParSettles(e, path, names, s); assert r == EvalPar(e, path, names, s);
      case Xor(_, _) => XorSettles(e, path, names, s); assert r == EvalXor(e, path, names, s);
      case New(_, _, _) => NewSettles(e, path, names, s, quiet); assert r == EvalNew(e, path, names, s, quiet);
      case Fold(_, _, _, _) => FoldUnrecorded(e, path, names, s, quiet); assert r == EvalFold(e, path, names, s, quiet);
      case Next(_) => NextSettles(e, path, names, s, quiet); assert r == EvalNext(e, path, names, s, quiet);
      case _ => LeafUnrecorded(e, s, quiet); assert r == EvalLeaf(e, s, quiet);
    }
  }

  lemma {:induction false} MatchUnrecorded(e: Instr, path: Path, names: seq<string>, s: Ctx, quiet: bool)
    requires (e.Match? || e.MisMatch?) && Runnable(e, path, names, s)
    ensures Unrecorded(e, s, EvalMatch(e, path, names, s, quiet))
    decreases Inactive(names, s.scalars.iterables), Remaining(names, s.scalars.iterables), FoldsIn(path), e, 1
  {
    EvalSettles(e.body, path, names, s, quiet);
  }

  lemma SettledTwice(s: Ctx, s1: Ctx, r: Run)
    requires InStep(s) && Settled(s, Run(s1, Done(true))) && Settled(s1, r)
    ensures Settled(s, r)
  {
    BuiltObjectsAreErrors(MatchValuesNotEqual, "", None);
  }

  /** A second instruction, run after a first one that did not fail. */
  lemma {:induction false} SecondSettles(e: Instr, path: Path, names: seq<string>, s: Ctx, s1: Ctx, quiet: bool)
    requires Runnable(e, path, names, s) && IteratorsKept(s.scalars.iterables, s1.scalars.iterables)
    requires Settled(s, Run(s1, Done(true)))
    ensures EnvOk(path, names, s1.scalars.iterables)
    ensures Settled(s, Eval(e, path, names, s1, quiet))
    decreases Inactive(names, s.scalars.iterables), Remaining(names, s.scalars.iterables), FoldsIn(path), e, 4
  {
    KeptMeasure(names, s.scalars.iterables, s1.scalars.iterables);
    EnvKept(path, names, s.scalars.iterables, s1.scalars.iterables);
    EvalSettles(e, path, names, s1, quiet);
    SettledTwice(s, s1, Eval(e, path, names, s1, quiet));
  }

  lemma {:induction false} SeqSettles(e: Instr, path: Path, names: seq<string>, s: Ctx)
    requires e.Seq? && Runnable(e, path, names, s)
    ensures Settled(s, EvalSeq(e, path, names, s)) && Unrecorded(e, s, EvalSeq(e, path, names, s))
    decreases Inactive(names, s.scalars.iterables), Remaining(names, s.scalars.iterables), FoldsIn(path), e, 1
  {
    EvalSettles(e.first, path, names, s, false);
    var r := Eval(e.first, path, names, s, false);
    if r.out == Done(true) {
      SecondSettles(e.second, path, names, s, r.s, false);
    }
  }

  lemma {:induction false} ParSettles(e: Instr, path: Path, names: seq<string>, s: Ctx)
    requires e.Par? && Runnable(e, path, names, s)
    ensures Settled(s, EvalPar(e, path, names, s)) && Unrecorded(e, s, EvalPar(e, path, names, s))
    decreases Inactive(names, s.scalars.iterables), Remaining(names, s.scalars.iterables), FoldsIn(path), e, 1
  {
    EvalSettles(e.first, path, names, s, Quiet(e.first));
    var left := Eval(e.first, path, names, s, Quiet(e.first));
    if !left.Aborted() {
      var s1 := ParBranch(left).s;
      assert Settled(s, Run(s1, Done(true)));
      SecondSettles(e.second, path, names, s, s1, Quiet(e.second));
      ParKeepsSettled(s, ParBranch(left).out, Eval(e.second, path, names, s1, Quiet(e.second)));
    }
  }

  lemma ParKeepsSettled(s: Ctx, left: Outcome, right: Run)
    requires Settled(s, right)
    ensures right.Aborted() ==> Settled(s, ParBranch(right))
    ensures !right.Aborted() ==> Settled(s, ParResult(left, ParBranch(right)))
  {
  }

  lemma HandlerSettles(s: Ctx, r: Run, handler: Run)
    requires InStep(s) && Settled(s, r) && r.out.Failed? && r.out.error.Catchable?
    requires Settled(CatchError(r.s, r.out.error.c), handler)
    ensures Settled(s, handler.(s := LeaveHandler(handler.s, handler.out, CatchError(r.s, r.out.error.c))))
  {
  }

  lemma CaughtInStep(s: Ctx, c: CatchableError)
    ensures InStep(CatchError(s, c))
  {
  }

  lemma {:induction false} XorSettles(e: Instr, path: Path, names: seq<string>, s: Ctx)
    requires e.Xor? && Runnable(e, path, names, s)
    ensures Settled(s, EvalXor(e, path, names, s)) && Unrecorded(e, s, EvalXor(e, path, names, s))
    decreases Inactive(names, s.scalars.iterables), Remaining(names, s.scalars.iterables), FoldsIn(path), e, 1
  {
    EvalSettles(e.first, path, names, s, false);
    var r := Eval(e.first, path, names, s, false);
    if r.out.Failed? && !r.Aborted() {
      var s' := CatchError(r.s, r.out.error.c);
      KeptMeasure(names, s.scalars.iterables, s'.scalars.iterables);
      EnvKept(path, names, s.scalars.iterables, s'.scalars.iterables);
      CaughtInStep(r.s, r.out.error.c);
      EvalSettles(e.second, path, names, s', false);
      HandlerSettles(s, r, Eval(e.second, path, names, s', false));
    }
  }

  lemma NewKeepsSettled(s: Ctx, a: NewArgument, span: S.Span, r: Run)
    requires Settled(OpenNew(s, a, span), r)
    ensures Settled(s, AfterNew(s, a, span, r))
  {
  }

  lemma {:induction false} NewSettles(e: Instr, path: Path, names: seq<string>, s: Ctx, quiet: bool)
    requires e.New? && Runnable(e, path, names, s)
    ensures Settled(s, EvalNew(e, path, names, s, quiet)) && Unrecorded(e, s, EvalNew(e, path, names, s, quiet))
    decreases Inactive(names, s.scalars.iterables), Remaining(names, s.scalars.iterables), FoldsIn(path), e, 1
  {
    EnvOfNew(path, e.argument, e.span, names, s.scalars.iterables);
    var path', s' := path + [NewScope(e.argument, e.span)], OpenNew(s, e.argument, e.span);
    EvalSettles(e.body, path', names, s', quiet);
    NewKeepsSettled(s, e.argument, e.span, Eval(e.body, path', names, s', quiet));
  }

  lemma {:induction false} FoldUnrecorded(e: Instr, path: Path, names: seq<string>, s: Ctx, quiet: bool)
    requires e.Fold? && Runnable(e, path, names, s)
    ensures Unrecorded(e, s, EvalFold(e, path, names, s, quiet))
    decreases Inactive(names, s.scalars.iterables), Remaining(names, s.scalars.iterables), FoldsIn(path), e, 1
  {
    var items := Items(s, e.iterable);
    if items.Ok? && items.value != [] {
      ItemsSettle(e, items.value, path, names, s, quiet);
    }
  }

  lemma {:induction false} ItemsSettle(e: Instr, items: seq<JValue>, path: Path, names: seq<string>, s: Ctx, quiet: bool)
    requires e.Fold? && items != [] && Runnable(e, path, names, s)
    ensures Settled(s, EvalItems(e, items, path, names, s, quiet))
    decreases Inactive(names, s.scalars.iterables), Remaining(names, s.scalars.iterables), FoldsIn(path), e, 0
  {
    if e.iter !in s.scalars.iterables {
      var f := FoldState(items, 0, e.body, e.last);
      FoldEnv(e, items, path, names, s);
      var s', path' := EnterFold(s, e.iter, f), path + [FoldScope(e.iter)];
      EvalSettles(e.body, path', names, s', quiet);
      LeaveFoldOk(s, e.iter, f, Eval(e.body, path', names, s', quiet));
    }
  }

  lemma {:induction false} NextSettles(e: Instr, path: Path, names: seq<string>, s: Ctx, quiet: bool)
    requires e.Next? && Runnable(e, path, names, s)
    ensures Settled(s, EvalNext(e, path, names, s, quiet)) && Unrecorded(e, s, EvalNext(e, path, names, s, quiet))
    decreases Inactive(names, s.scalars.iterables), Remaining(names, s.scalars.iterables), FoldsIn(path), e, 1
  {
    var k := FoldAt(path, e.iter);
    EnvOfNext(path, k, names, s.scalars.iterables);
    var last := s.scalars.iterables[e.iter].last;
    if CanAdvance(s.scalars.iterables, e.iter) {
      IterationSettles(e.iter, path, k, names, s, quiet);
    } else if last.Some? {
      EvalSettles(last.value, path[..k], names, s, false);
    }
  }

  lemma {:induction false} IterationSettles(i: string, path: Path, k: nat, names: seq<string>, s: Ctx, quiet: bool)
    requires k < |path| && path[k] == FoldScope(i) && EnvOk(path, names, s.scalars.iterables)
    requires CanAdvance(s.scalars.iterables, i) && InStep(s)
    ensures Settled(s, EvalIteration(i, path, k, names, s, quiet))
    decreases Inactive(names, s.scalars.iterables), Remaining(names, s.scalars.iterables), 0
  {
    AdvanceEnv(i, path, k, names, s);
    var body := s.scalars.iterables[i].body;
    EvalSettles(body, path[..k + 1], names, Advance(s, i), quiet);
    AfterNextOk(s, i, Eval(body, path[..k + 1], names, Advance(s, i), quiet));
  }

  // ---- what scripts see ----

  lemma XorUnfolds(e: Instr, path: Path, names: seq<string>, s: Ctx, quiet: bool)
    requires e.Xor? && Scoped(e, path, names) && EnvOk(path, names, s.scalars.iterables)
    ensures var r, first := Eval(e, path, names, s, quiet), Eval(e.first, path, names, s, false);
      if first.out.Done? then r == first
      else if first.Aborted() then r.out == first.out
      else
        var s' := CatchError(first.s, first.out.error.c);
        EnvOk(path, names, s'.scalars.iterables) &&
        var handler := Eval(e.second, path, names, s', false);
        && r.out == handler.out
        && var left := LeaveHandler(handler.s, handler.out, s');
           r.s == if r.out.Failed? then SetErrors(left, r.out.error, e, s.peer) else left
  {
    var first := Eval(e.first, path, names, s, false);
    if first.out.Failed? && !first.Aborted() {
      EnvKept(path, names, s.scalars.iterables, first.s.scalars.iterables);
    }
    assert EvalInstr(e, path, names, s, quiet) == EvalXor(e, path, names, s);
  }

  /** What the handler of an `xor` finds in `:error:` when the first instruction ended in `first`. */
  ghost predicate CaughtWithOrigin(s: Ctx, first: Run)
    requires first.out.Failed? && first.out.error.Catchable?
  {
    var c := first.out.error.c;
    var caught := CatchError(first.s, c);
    && caught.error.error.origCatchable == Some(c) && Resolve(caught, ErrorObject) == Ok(caught.error.error.error)
    && match first.s.history.raised
       case Nowhere => false
       case Fresh(instr, c', before, residue) =>
         && c' == c && (before.canBeSet <==> !residue.Stuck?)
         && (Describes(caught.error, instr, c, s.peer) <==> before.canBeSet || Describes(before, instr, c, s.peer))
         && (!before.canBeSet ==> caught.error.error.error == before.error.error)
       case Rethrown(before, residue) =>
         && c == Thrown(before) && caught.error.error.error == before.error.error
         && (residue.Clean? ==> before == s.error)
  }

  /**
   * The handler of an `xor` finds in `:error:` the error that was raised, with the
   * instruction that raised it, however deep that was, if and only if `:error:` could
   * be set when it was raised, that is, unless an earlier error was stuck there; and
   * `:error:` is empty again when the handler goes through if and only if no error got
   * stuck in the handler. (An object that was there before may happen to be the same.)
   */
  lemma HandlerSeesOrigin(e: Instr, path: Path, names: seq<string>, s: Ctx, quiet: bool)
    requires e.Xor? && Runnable(e, path, names, s)
    ensures var first := Eval(e.first, path, names, s, false);
      first.out.Failed? && first.out.error.Catchable? ==>
        var caught := CatchError(first.s, first.out.error.c);
        && CaughtWithOrigin(s, first)
        && EnvOk(path, names, caught.scalars.iterables)
        && var handler, r := Eval(e.second, path, names, caught, false), Eval(e, path, names, s, quiet);
           r.out.Done? ==> (r.s.error == InitialDescriptor() <==> !handler.s.history.residue.Stuck?)
  {
    EvalSettles(e.first, path, names, s, false);
    XorUnfolds(e, path, names, s, quiet);
    var first := Eval(e.first, path, names, s, false);
    if first.out.Failed? && first.out.error.Catchable? {
      var caught := CatchError(first.s, first.out.error.c);
      CaughtInStep(first.s, first.out.error.c);
      EvalSettles(e.second, path, names, caught, false);
      BuiltObjectsAreErrors(MatchValuesNotEqual, "", None);
    }
  }

  /** The instruction caught again and again by handlers that only pass the error on. */
  function PassedOnBy(x: Instr, times: nat): Instr {
    if times == 0 then x else Xor(PassedOnBy(x, times - 1), Fail(FailError))
  }

  lemma {:induction false} PassedOnScoped(x: Instr, times: nat, path: Path, names: seq<string>)
    requires Scoped(x, path, names)
    ensures Scoped(PassedOnBy(x, times), path, names)
  {
    if times > 0 {
      PassedOnScoped(x, times - 1, path, names);
    }
  }

  lemma FailErrorUnfolds(path: Path, names: seq<string>, s: Ctx)
    requires EnvOk(path, names, s.scalars.iterables)
    ensures var e := Fail(FailError); var r1 := FailWithError(s, e);
      Eval(e, path, names, s, false) == r1.(s := SetErrors(r1.s, r1.out.error, e, s.peer))
  {
    var e := Fail(FailError);
    assert DoFail(e, s) == FailWithError(s, e);
    assert EvalLeaf(e, s, false) == DoFail(e, s);
    assert EvalInstr(e, path, names, s, false) == EvalLeaf(e, s, false);
  }

  /** What one handler that passes the error on does to a caught error. */
  lemma PassedOn(s: Ctx, c: CatchableError, instr: Instr, peer: string)
    requires ShowsError(s.error)
    ensures var s1 := CatchError(s, c);
      var r1 := FailWithError(s1, Fail(FailError));
      var s2 := SetErrors(r1.s, r1.out.error, Fail(FailError), s1.peer);
      var s3 := LeaveHandler(s2, r1.out, s1);
      var s4 := SetErrors(s3, r1.out.error, instr, peer);
      && r1.out == Failed(Catchable(c))
      && s4.error.error.error == s.error.error.error && s4.history.raised == s.history.raised
  {
  }

  /** The same error, shown as the same object, from the same origin. */
  predicate SameError(r: Run, r': Run) {
    r'.out == r.out && r'.s.error.error.error == r.s.error.error.error && r'.s.history.raised == r.s.history.raised
  }

  lemma RethrowOnce(y: Instr, path: Path, names: seq<string>, s: Ctx, r: Run)
    requires Scoped(y, path, names) && EnvOk(path, names, s.scalars.iterables)
    requires SameError(r, Eval(y, path, names, s, false)) && r.out.Failed? && r.out.error.Catchable? && ShowsError(r.s.error)
    ensures SameError(r, Eval(Xor(y, Fail(FailError)), path, names, s, false))
  {
    var e := Xor(y, Fail(FailError));
    XorUnfolds(e, path, names, s, false);
    var first := Eval(y, path, names, s, false);
    FailErrorUnfolds(path, names, CatchError(first.s, first.out.error.c));
    PassedOn(first.s, first.out.error.c, e, s.peer);
  }

  /**
   * However often an error is caught and passed on with `fail :error:`, it stays the
   * error X raised, and `:error:` keeps showing it and where it arose.
   */
  lemma {:induction false} RethrowKeepsError(x: Instr, times: nat, path: Path, names: seq<string>, s: Ctx)
    requires Runnable(x, path, names, s)
    requires var r := Eval(x, path, names, s, false); r.out.Failed? && r.out.error.Catchable?
    ensures Scoped(PassedOnBy(x, times), path, names)
    ensures SameError(Eval(x, path, names, s, false), Eval(PassedOnBy(x, times), path, names, s, false))
  {
    PassedOnScoped(x, times, path, names);
    if times > 0 {
      RethrowKeepsError(x, times - 1, path, names, s);
      EvalSettles(x, path, names, s, false);
      RethrowOnce(PassedOnBy(x, times - 1), path, names, s, Eval(x, path, names, s, false));
    }
  }

  /**
   * Whole scripts: an error that ends the script is shown in `:error:` if and only if
   * none was stuck there when it was raised; without one there is nothing in `:error:`
   * if and only if no error was left there.
   */
  lemma ScriptShowsError(e: Instr, names: seq<string>, initPeer: string, peer: string, replies: seq<Reply>, lastCallId: nat)
    requires Scoped(e, [], names)
    ensures var r := Eval(e, [], names, Initial(initPeer, peer, replies, lastCallId), false);
      match r.out
      case Done(_) => r.s.error == InitialDescriptor() <==> r.s.history.residue.Clean?
      case Failed(Uncatchable(_)) => true
      case Failed(Catchable(c)) =>
        match r.s.history.raised
        case Nowhere => false
        case Fresh(instr, c', before, residue) =>
          && c' == c && (before.canBeSet <==> !residue.Stuck?)
          && (Describes(r.s.error, instr, c, peer) <==> before.canBeSet || Describes(before, instr, c, peer))
        case Rethrown(before, residue) =>
          !residue.Clean? && c == Thrown(before) && r.s.error.error.error == before.error.error
  {
    var s := Initial(initPeer, peer, replies, lastCallId);
    assert EnvOk([], names, s.scalars.iterables);
    BuiltObjectsAreErrors(MatchValuesNotEqual, "", None);
    EvalSettles(e, [], names, s, false);
  }

  lemma ParThenNull(x: Instr, path: Path, names: seq<string>, s: Ctx)
    requires Scoped(x, path, names) && EnvOk(path, names, s.scalars.iterables) && !x.Next?
    requires var r := Eval(x, path, names, s, false); r.out.Failed? && r.out.error.Catchable?
    ensures Scoped(Par(x, Null), path, names)
    ensures var r, r1 := Eval(Par(x, Null), path, names, s, false), Eval(x, path, names, s, false);
      r.out == Done(true) && r.s == Swallow(r1.s).(lastError := r1.s.lastError.(canBeSet := true))
  {
    var s1 := ParBranch(Eval(x, path, names, s, false)).s;
    Loops.BranchesRun(x, Null, path, names, s);
    Loops.Bubbles(Par(x, Null), path, names, s, false);
    Loops.Bubbles(Null, path, names, s1, false);
    assert EvalInstr(Par(x, Null), path, names, s, false) == EvalPar(Par(x, Null), path, names, s);
    assert EvalInstr(Null, path, names, s1, false) == EvalLeaf(Null, s1, false) == Run(s1, Done(true));
  }

  lemma FailUnfolds(code: int, message: string, path: Path, names: seq<string>, s: Ctx)
    requires EnvOk(path, names, s.scalars.iterables) && !s.error.canBeSet
    ensures var f := Fail(FailLiteral(code, message)); var r := Eval(f, path, names, s, false);
      var c := UserError(ErrorFromRawFields(code, message, f.Text(), Some(s.initPeer)));
      && r.out == Failed(Catchable(c)) && r.s.error == s.error
      && r.s.history.raised == Fresh(f, c, s.error, s.history.residue)
  {
    var f := Fail(FailLiteral(code, message));
    assert EvalLeaf(f, s, false) == DoFail(f, s);
    assert EvalInstr(f, path, names, s, false) == EvalLeaf(f, s, false);
  }

  lemma SecondRuns(a: Instr, b: Instr, path: Path, names: seq<string>, s: Ctx)
    requires Scoped(Seq(a, b), path, names) && EnvOk(path, names, s.scalars.iterables)
    requires Eval(a, path, names, s, false).out == Done(true)
    ensures var s1 := Eval(a, path, names, s, false).s;
      EnvOk(path, names, s1.scalars.iterables) &&
      var r, inner := Eval(Seq(a, b), path, names, s, false), Eval(b, path, names, s1, false);
      r == if inner.out.Failed? then inner.(s := SetErrors(inner.s, inner.out.error, Seq(a, b), s.peer)) else inner
  {
    var s1 := Eval(a, path, names, s, false).s;
    EnvKept(path, names, s.scalars.iterables, s1.scalars.iterables);
    assert EvalInstr(Seq(a, b), path, names, s, false) == EvalSeq(Seq(a, b), path, names, s);
  }

  /**
   * How an error gets stuck: after a branch of `par` has failed, `:error:` keeps
   * showing that error, also while another one bubbles up.
   */
  lemma StaleAfterPar(x: Instr, code: int, message: string, path: Path, names: seq<string>, s: Ctx)
    requires Runnable(x, path, names, s) && !x.Next?
    requires var r := Eval(x, path, names, s, false); r.out.Failed? && r.out.error.Catchable?
    ensures Scoped(Seq(Par(x, Null), Fail(FailLiteral(code, message))), path, names)
    ensures var f := Fail(FailLiteral(code, message));
      var r, r1 := Eval(Seq(Par(x, Null), f), path, names, s, false), Eval(x, path, names, s, false);
      var c := UserError(ErrorFromRawFields(code, message, f.Text(), Some(r1.s.initPeer)));
      && r.out == Failed(Catchable(c)) && r.s.error == r1.s.error
      && r.s.history.raised == Fresh(f, c, r1.s.error, Stuck)
  {
    var f, par := Fail(FailLiteral(code, message)), Par(x, Null);
    EvalSettles(x, path, names, s, false);
    ParThenNull(x, path, names, s);
    SecondRuns(par, f, path, names, s);
    FailUnfolds(code, message, path, names, Eval(par, path, names, s, false).s);
  }
}
