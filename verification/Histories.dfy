/**
 * History is only a record: runs that start from states with different histories do
 * the same and end the same, except for the histories they end with.
 */
module Histories {
  import opened Wrappers
  import opened Json
  import opened Errors
  import opened Ast
  import opened State
  import opened Semantics
  import Loops
  import S = Streams

  /** The same state with another history. */
  function Retold(s: Ctx, h: History): Ctx {
    s.(history := h)
  }

  /** The same state, whatever the histories. */
  predicate SameState(s: Ctx, t: Ctx) {
    t == Retold(s, t.history)
  }

  predicate Alike(r: Run, t: Run) {
    t.out == r.out && SameState(r.s, t.s)
  }

  // ---- steps ----

  lemma LeafAlike(e: Instr, s: Ctx, h: History, quiet: bool)
    requires IsLeaf(e)
    ensures Alike(EvalLeaf(e, s, quiet), EvalLeaf(e, Retold(s, h), quiet))
  {
    match e {
      case Ap(_, _) => SetsAlike(e, s, h, quiet);
      case ApStream(_, _, _) => AddsAlike(e, s, h, quiet);
      case ApMap(_, _, _, _) => MapAddsAlike(e, s, h, quiet);
      case Canon(_, _, _) => CanonsAlike(e, s, h, quiet);
      case CanonMap(_, _, _) => CanonMapsAlike(e, s, h, quiet);
      case Call(_, _, _) => CallAlike(e, s, h, quiet);
      case Fail(_) => FailAlike(e, s, h);
      case _ =>
    }
  }

  lemma SetsAlike(e: Instr, s: Ctx, h: History, quiet: bool)
    requires e.Ap?
    ensures Alike(ApScalar(e, s, quiet), ApScalar(e, Retold(s, h), quiet))
  {
    ResolvesAlike(s, h, e.value);
  }

  lemma AddsAlike(e: Instr, s: Ctx, h: History, quiet: bool)
    requires e.ApStream?
    ensures Alike(AddToStream(e, s, quiet), AddToStream(e, Retold(s, h), quiet))
  {
    ResolvesAlike(s, h, e.value);
  }

  lemma MapAddsAlike(e: Instr, s: Ctx, h: History, quiet: bool)
    requires e.ApMap?
    ensures Alike(AddToMap(e, s, quiet), AddToMap(e, Retold(s, h), quiet))
  {
    ResolvesAlike(s, h, e.value);
  }

  lemma CanonsAlike(e: Instr, s: Ctx, h: History, quiet: bool)
    requires e.Canon?
    ensures Alike(CanonizeStream(e, s, quiet), CanonizeStream(e, Retold(s, h), quiet))
  {
  }

  lemma CanonMapsAlike(e: Instr, s: Ctx, h: History, quiet: bool)
    requires e.CanonMap?
    ensures Alike(CanonizeMap(e, s, quiet), CanonizeMap(e, Retold(s, h), quiet))
  {
  }

  lemma ResolvesAlike(s: Ctx, h: History, operand: Operand)
    ensures Resolve(Retold(s, h), operand) == Resolve(s, operand)
  {
  }

  lemma {:induction false} AllResolveAlike(s: Ctx, h: History, operands: seq<Operand>)
    ensures ResolveAll(Retold(s, h), operands) == ResolveAll(s, operands)
  {
    if operands != [] {
      ResolvesAlike(s, h, operands[0]);
      AllResolveAlike(s, h, operands[1..]);
    }
  }

  lemma FailAlike(e: Instr, s: Ctx, h: History)
    requires e.Fail?
    ensures Alike(DoFail(e, s), DoFail(e, Retold(s, h)))
  {
    if e.what.FailError? {
      RethrowsAlike(e, s, h);
    } else if e.what.FailScalar? && GetValue(s.scalars, e.what.name).Ok? {
      ChecksAlike(e, s, h, GetValue(s.scalars, e.what.name).value);
    } else if e.what.FailLastError? {
      ChecksAlike(e, s, h, s.lastError.error.error);
    }
  }

  lemma ChecksAlike(e: Instr, s: Ctx, h: History, value: JValue)
    ensures Alike(FailWithChecked(s, e, value), FailWithChecked(Retold(s, h), e, value))
  {
  }

  lemma RethrowsAlike(e: Instr, s: Ctx, h: History)
    ensures Alike(FailWithError(s, e), FailWithError(Retold(s, h), e))
  {
    var t := Retold(s, h);
    match CheckErrorObject(s.error.error.error) {
      case Err(err) => assert FailWithError(s, e) == Raise(s, e, err) && FailWithError(t, e) == Raise(t, e, err);
      case Ok(_) => ThrowsAlike(e, s, h, s.error.error.error);
    }
  }

  lemma ThrowsAlike(e: Instr, s: Ctx, h: History, value: JValue)
    ensures Alike(FailWithObject(s, e, value), FailWithObject(Retold(s, h), e, value))
  {
  }

  lemma CallAlike(e: Instr, s: Ctx, h: History, quiet: bool)
    requires e.Call?
    ensures Alike(DoCall(e, s, quiet), DoCall(e, Retold(s, h), quiet))
  {
    var args := ResolveAll(s, e.args);
    AllResolveAlike(s, h, e.args);
    if CheckOutput(s, e.output).Ok? && !(args.Err? && !args.error.IsJoinable()) {
      var reply := if s.replies == [] then NotMet else s.replies[0];
      AnswersAlike(e, s.(replies := if s.replies == [] then [] else s.replies[1..]), h, args, reply, quiet);
    }
  }

  lemma AnswersAlike(e: Instr, s: Ctx, h: History, args: Result<seq<JValue>, ExecutionError>, reply: Reply, quiet: bool)
    requires e.Call?
    ensures Alike(Answer(e, s, args, reply, quiet), Answer(e, Retold(s, h), args, reply, quiet))
  {
  }

  lemma RecordedAlike(e: Instr, r: Run, t: Run, peer: string)
    requires Alike(r, t)
    ensures Alike(if r.out.Failed? && !e.Call? then r.(s := SetErrors(r.s, r.out.error, e, peer)) else r,
                  if t.out.Failed? && !e.Call? then t.(s := SetErrors(t.s, t.out.error, e, peer)) else t)
  {
  }

  lemma HandledAlike(r: Run, t: Run, caught: Ctx, caught': Ctx)
    requires Alike(r, t)
    ensures Alike(r.(s := LeaveHandler(r.s, r.out, caught)), t.(s := LeaveHandler(t.s, t.out, caught')))
  {
  }

  lemma OpensAlike(s: Ctx, h: History, a: NewArgument, span: S.Span)
    ensures SameState(OpenNew(s, a, span), OpenNew(Retold(s, h), a, span))
  {
  }

  lemma ClosedAlike(s: Ctx, h: History, a: NewArgument, span: S.Span, r: Run, t: Run)
    requires Alike(r, t)
    ensures Alike(AfterNew(s, a, span, r), AfterNew(Retold(s, h), a, span, t))
  {
  }

  lemma AdvancesAlike(s: Ctx, h: History, i: string)
    requires i in s.scalars.iterables
    ensures Advance(Retold(s, h), i) == Retold(Advance(s, i), h)
  {
  }

  lemma SteppedAlike(r: Run, t: Run, i: string)
    requires Alike(r, t) && InScope(r.s.scalars)
    ensures Alike(AfterNext(r, i), AfterNext(t, i))
  {
  }

  // ---- every run ----

  lemma {:induction false} HistoryIsIdle(e: Instr, path: Path, names: seq<string>, s: Ctx, h: History, quiet: bool)
    requires Scoped(e, path, names) && EnvOk(path, names, s.scalars.iterables)
    ensures Alike(Eval(e, path, names, s, quiet), Eval(e, path, names, Retold(s, h), quiet))
    decreases Inactive(names, s.scalars.iterables), Remaining(names, s.scalars.iterables), FoldsIn(path), e, 3
  {
    InstrAlike(e, path, names, s, h, quiet);
    RecordedAlike(e, EvalInstr(e, path, names, s, quiet), EvalInstr(e, path, names, Retold(s, h), quiet), s.peer);
  }

  lemma {:induction false} InstrAlike(e: Instr, path: Path, names: seq<string>, s: Ctx, h: History, quiet: bool)
    requires Scoped(e, path, names) && EnvOk(path, names, s.scalars.iterables)
    ensures Alike(EvalInstr(e, path, names, s, quiet), EvalInstr(e, path, names, Retold(s, h), quiet))
    decreases Inactive(names, s.scalars.iterables), Remaining(names, s.scalars.iterables), FoldsIn(path), e, 2
  {
    match e {
      case Match(_, _, _) => MatchAlike(e, path, names, s, h, quiet);
      case MisMatch(_, _, _) => MatchAlike(e, path, names, s, h, quiet);
      case Seq(_, _) => SeqAlike(e, path, names, s, h);
      case Par(_, _) => ParAlike(e, path, names, s, h);
      case Xor(_, _) => XorAlike(e, path, names, s, h);
      case New(_, _, _) => NewAlike(e, path, names, s, h, quiet);
      case Fold(_, _, _, _) => FoldAlike(e, path, names, s, h, quiet);
      case Next(_) => NextAlike(e, path, names, s, h, quiet);
      case _ => LeafAlike(e, s, h, quiet);
    }
  }

  lemma ComparesAlike(s: Ctx, h: History, left: Operand, right: Operand)
    ensures Compare(Retold(s, h), left, right) == Compare(s, left, right)
  {
    ResolvesAlike(s, h, left);
    ResolvesAlike(s, h, right);
  }

  lemma {:induction false} MatchAlike(e: Instr, path: Path, names: seq<string>, s: Ctx, h: History, quiet: bool)
    requires e.Match? || e.MisMatch?
    requires Scoped(e, path, names) && EnvOk(path, names, s.scalars.iterables)
    ensures Alike(EvalMatch(e, path, names, s, quiet), EvalMatch(e, path, names, Retold(s, h), quiet))
    decreases Inactive(names, s.scalars.iterables), Remaining(names, s.scalars.iterables), FoldsIn(path), e, 1
  {
    ComparesAlike(s, h, e.left, e.right);
    HistoryIsIdle(e.body, path, names, s, h, quiet);
  }

  /** A second instruction, run from states that the first one left alike. */
  lemma {:induction false} SecondAlike(e: Instr, path: Path, names: seq<string>, s: Ctx, s2: Ctx, t2: Ctx, quiet: bool)
    requires Scoped(e, path, names) && EnvOk(path, names, s.scalars.iterables)
    requires IteratorsKept(s.scalars.iterables, s2.scalars.iterables) && SameState(s2, t2)
    ensures EnvOk(path, names, s2.scalars.iterables)
    ensures Alike(Eval(e, path, names, s2, quiet), Eval(e, path, names, t2, quiet))
    decreases Inactive(names, s.scalars.iterables), Remaining(names, s.scalars.iterables), FoldsIn(path), e, 4
  {
    KeptMeasure(names, s.scalars.iterables, s2.scalars.iterables);
    EnvKept(path, names, s.scalars.iterables, s2.scalars.iterables);
    HistoryIsIdle(e, path, names, s2, t2.history, quiet);
  }

  lemma {:induction false} SeqAlike(e: Instr, path: Path, names: seq<string>, s: Ctx, h: History)
    requires e.Seq?
    requires Scoped(e, path, names) && EnvOk(path, names, s.scalars.iterables)
    ensures Alike(EvalSeq(e, path, names, s), EvalSeq(e, path, names, Retold(s, h)))
    decreases Inactive(names, s.scalars.iterables), Remaining(names, s.scalars.iterables), FoldsIn(path), e, 1
  {
    HistoryIsIdle(e.first, path, names, s, h, false);
    var r, t := Eval(e.first, path, names, s, false), Eval(e.first, path, names, Retold(s, h), false);
    if r.out == Done(true) {
      SecondAlike(e.second, path, names, s, r.s, t.s, false);
    }
  }

  lemma {:induction false} ParAlike(e: Instr, path: Path, names: seq<string>, s: Ctx, h: History)
    requires e.Par?
    requires Scoped(e, path, names) && EnvOk(path, names, s.scalars.iterables)
    ensures Alike(EvalPar(e, path, names, s), EvalPar(e, path, names, Retold(s, h)))
    decreases Inactive(names, s.scalars.iterables), Remaining(names, s.scalars.iterables), FoldsIn(path), e, 1
  {
    Loops.BranchesRun(e.first, e.second, path, names, s);
    Loops.BranchesRun(e.first, e.second, path, names, Retold(s, h));
    BranchesAlike(e, path, names, s, h, EvalPar(e, path, names, s), EvalPar(e, path, names, Retold(s, h)));
  }

  ghost predicate Branches(e: Instr, path: Path, names: seq<string>, s: Ctx, r: Run)
    requires e.Par? && Scoped(e, path, names) && EnvOk(path, names, s.scalars.iterables)
  {
    var left := ParBranch(Eval(e.first, path, names, s, Quiet(e.first)));
    if left.Aborted() then r == left
    else
      EnvOk(path, names, left.s.scalars.iterables) &&
      var right := Eval(e.second, path, names, left.s, Quiet(e.second));
      r == if right.Aborted() then right else ParResult(left.out, ParBranch(right))
  }

  lemma {:induction false} BranchesAlike(e: Instr, path: Path, names: seq<string>, s: Ctx, h: History, r: Run, t: Run)
    requires e.Par? && Scoped(e, path, names) && EnvOk(path, names, s.scalars.iterables)
    requires Branches(e, path, names, s, r) && Branches(e, path, names, Retold(s, h), t)
    ensures Alike(r, t)
    decreases Inactive(names, s.scalars.iterables), Remaining(names, s.scalars.iterables), FoldsIn(path), e, 0
  {
    HistoryIsIdle(e.first, path, names, s, h, Quiet(e.first));
    var left := ParBranch(Eval(e.first, path, names, s, Quiet(e.first)));
    var left' := ParBranch(Eval(e.first, path, names, Retold(s, h), Quiet(e.first)));
    if !left.Aborted() {
      SecondAlike(e.second, path, names, s, left.s, left'.s, Quiet(e.second));
    }
  }

  lemma {:induction false} XorAlike(e: Instr, path: Path, names: seq<string>, s: Ctx, h: History)
    requires e.Xor?
    requires Scoped(e, path, names) && EnvOk(path, names, s.scalars.iterables)
    ensures Alike(EvalXor(e, path, names, s), EvalXor(e, path, names, Retold(s, h)))
    decreases Inactive(names, s.scalars.iterables), Remaining(names, s.scalars.iterables), FoldsIn(path), e, 1
  {
    HistoryIsIdle(e.first, path, names, s, h, false);
    var r, t := Eval(e.first, path, names, s, false), Eval(e.first, path, names, Retold(s, h), false);
    if r.out.Failed? && !r.Aborted() {
      var caught, caught' := CatchError(r.s, r.out.error.c), CatchError(t.s, r.out.error.c);
      SecondAlike(e.second, path, names, s, caught, caught', false);
      HandledAlike(Eval(e.second, path, names, caught, false), Eval(e.second, path, names, caught', false), caught, caught');
    }
  }

  lemma {:induction false} NewAlike(e: Instr, path: Path, names: seq<string>, s: Ctx, h: History, quiet: bool)
    requires e.New?
    requires Scoped(e, path, names) && EnvOk(path, names, s.scalars.iterables)
    ensures Alike(EvalNew(e, path, names, s, quiet), EvalNew(e, path, names, Retold(s, h), quiet))
    decreases Inactive(names, s.scalars.iterables), Remaining(names, s.scalars.iterables), FoldsIn(path), e, 1
  {
    EnvOfNew(path, e.argument, e.span, names, s.scalars.iterables);
    var path', s' := path + [NewScope(e.argument, e.span)], OpenNew(s, e.argument, e.span);
    OpensAlike(s, h, e.argument, e.span);
    var h' := OpenNew(Retold(s, h), e.argument, e.span).history;
    HistoryIsIdle(e.body, path', names, s', h', quiet);
    ClosedAlike(s, h, e.argument, e.span, Eval(e.body, path', names, s', quiet), Eval(e.body, path', names, Retold(s', h'), quiet));
  }

  lemma {:induction false} FoldAlike(e: Instr, path: Path, names: seq<string>, s: Ctx, h: History, quiet: bool)
    requires e.Fold?
    requires Scoped(e, path, names) && EnvOk(path, names, s.scalars.iterables)
    ensures Alike(EvalFold(e, path, names, s, quiet), EvalFold(e, path, names, Retold(s, h), quiet))
    decreases Inactive(names, s.scalars.iterables), Remaining(names, s.scalars.iterables), FoldsIn(path), e, 1
  {
    var items := Items(s, e.iterable);
    assert Items(Retold(s, h), e.iterable) == items;
    if items.Ok? && items.value != [] {
      ItemsAlike(e, items.value, path, names, s, h, quiet);
    }
  }

  lemma {:induction false} ItemsAlike(e: Instr, items: seq<JValue>, path: Path, names: seq<string>, s: Ctx, h: History, quiet: bool)
    requires e.Fold? && items != []
    requires Scoped(e, path, names) && EnvOk(path, names, s.scalars.iterables)
    ensures Alike(EvalItems(e, items, path, names, s, quiet), EvalItems(e, items, path, names, Retold(s, h), quiet))
    decreases Inactive(names, s.scalars.iterables), Remaining(names, s.scalars.iterables), FoldsIn(path), e, 0
  {
    if e.iter !in s.scalars.iterables {
      var f, path' := FoldState(items, 0, e.body, e.last), path + [FoldScope(e.iter)];
      var s' := EnterFold(s, e.iter, f);
      FoldEnv(e, items, path, names, s);
      assert EnterFold(Retold(s, h), e.iter, f) == Retold(s', h);
      HistoryIsIdle(e.body, path', names, s', h, quiet);
      LeaveFoldOk(s, e.iter, f, Eval(e.body, path', names, s', quiet));
    }
  }

  lemma {:induction false} NextAlike(e: Instr, path: Path, names: seq<string>, s: Ctx, h: History, quiet: bool)
    requires e.Next?
    requires Scoped(e, path, names) && EnvOk(path, names, s.scalars.iterables)
    ensures Alike(EvalNext(e, path, names, s, quiet), EvalNext(e, path, names, Retold(s, h), quiet))
    decreases Inactive(names, s.scalars.iterables), Remaining(names, s.scalars.iterables), FoldsIn(path), e, 1
  {
    var k := FoldAt(path, e.iter);
    EnvOfNext(path, k, names, s.scalars.iterables);
    var last := s.scalars.iterables[e.iter].last;
    if CanAdvance(s.scalars.iterables, e.iter) {
      IterationAlike(e.iter, path, k, names, s, h, quiet);
    } else if last.Some? {
      HistoryIsIdle(last.value, path[..k], names, s, h, false);
    }
  }

  lemma {:induction false} IterationAlike(i: string, path: Path, k: nat, names: seq<string>, s: Ctx, h: History, quiet: bool)
    requires k < |path| && path[k] == FoldScope(i) && EnvOk(path, names, s.scalars.iterables)
    requires CanAdvance(s.scalars.iterables, i)
    ensures Alike(EvalIteration(i, path, k, names, s, quiet), EvalIteration(i, path, k, names, Retold(s, h), quiet))
    decreases Inactive(names, s.scalars.iterables), Remaining(names, s.scalars.iterables), 0
  {
    AdvanceEnv(i, path, k, names, s);
    var body, s' := s.scalars.iterables[i].body, Advance(s, i);
    AdvancesAlike(s, h, i);
    HistoryIsIdle(body, path[..k + 1], names, s', h, quiet);
    var r, t := Eval(body, path[..k + 1], names, s', quiet), Eval(body, path[..k + 1], names, Retold(s', h), quiet);
    AfterNextOk(s, i, r);
    SteppedAlike(r, t, i);
  }
}
