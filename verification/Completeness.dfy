/**
 * What the completeness flag means on entry. An instruction that is entered with the
 * flag lowered does exactly the same; it can only be incomplete where it would have
 * been complete. `seq`, `par`, `xor`, `never` and `fail` do not notice it at all.
 */
module Completeness {
  import opened Wrappers
  import opened Json
  import opened Errors
  import opened Ast
  import opened State
  import opened Semantics
  import S = Streams

  /** `low` is `high` but for a completeness that is lost. */
  predicate Lowered(low: Run, high: Run) {
    low.s == high.s && (low.out == high.out || (low.out == Done(false) && high.out == Done(true)))
  }

  lemma LeafLowers(e: Instr, s: Ctx)
    requires IsLeaf(e)
    ensures Lowered(EvalLeaf(e, s, true), EvalLeaf(e, s, false))
  {
    if e.Call? {
      CallLowers(e, s);
    }
  }

  lemma CallLowers(e: Instr, s: Ctx)
    requires e.Call?
    ensures Lowered(DoCall(e, s, true), DoCall(e, s, false))
  {
  }

  /** The flag on entry has no influence on what an instruction does, only on whether it counts as complete. */
  lemma {:induction false} FlagOnlyLowers(e: Instr, path: Path, names: seq<string>, s: Ctx)
    requires Scoped(e, path, names) && EnvOk(path, names, s.scalars.iterables)
    ensures Lowered(Eval(e, path, names, s, true), Eval(e, path, names, s, false))
    ensures e.Seq? || e.Par? || e.Xor? || e.Never? || e.Fail? ==>
      Eval(e, path, names, s, true) == Eval(e, path, names, s, false)
    decreases Inactive(names, s.scalars.iterables), Remaining(names, s.scalars.iterables), FoldsIn(path), e, 3
  {
    InstrLowers(e, path, names, s);
  }

  lemma {:induction false} InstrLowers(e: Instr, path: Path, names: seq<string>, s: Ctx)
    requires Scoped(e, path, names) && EnvOk(path, names, s.scalars.iterables)
    ensures Lowered(EvalInstr(e, path, names, s, true), EvalInstr(e, path, names, s, false))
    ensures e.Seq? || e.Par? || e.Xor? || e.Never? || e.Fail? ==>
      EvalInstr(e, path, names, s, true) == EvalInstr(e, path, names, s, false)
    decreases Inactive(names, s.scalars.iterables), Remaining(names, s.scalars.iterables), FoldsIn(path), e, 2
  {
    match e {
      case Match(_, _, _) => MatchLowers(e, path, names, s);
      case MisMatch(_, _, _) => MatchLowers(e, path, names, s);
      case Seq(_, _) =>
      case Par(_, _) =>
      case Xor(_, _) =>
      case New(_, _, _) => NewLowers(e, path, names, s);
      case Fold(_, _, _, _) => FoldLowers(e, path, names, s);
      case Next(_) => NextLowers(e, path, names, s);
      case _ => LeafLowers(e, s);
    }
  }

  lemma {:induction false} MatchLowers(e: Instr, path: Path, names: seq<string>, s: Ctx)
    requires e.Match? || e.MisMatch?
    requires Scoped(e, path, names) && EnvOk(path, names, s.scalars.iterables)
    ensures Lowered(EvalMatch(e, path, names, s, true), EvalMatch(e, path, names, s, false))
    decreases Inactive(names, s.scalars.iterables), Remaining(names, s.scalars.iterables), FoldsIn(path), e, 1
  {
    FlagOnlyLowers(e.body, path, names, s);
  }

  lemma NewPreservesLowered(s: Ctx, a: NewArgument, span: S.Span, low: Run, high: Run)
    requires Lowered(low, high)
    ensures Lowered(AfterNew(s, a, span, low), AfterNew(s, a, span, high))
  {
  }

  lemma {:induction false} NewLowers(e: Instr, path: Path, names: seq<string>, s: Ctx)
    requires e.New?
    requires Scoped(e, path, names) && EnvOk(path, names, s.scalars.iterables)
    ensures Lowered(EvalNew(e, path, names, s, true), EvalNew(e, path, names, s, false))
    decreases Inactive(names, s.scalars.iterables), Remaining(names, s.scalars.iterables), FoldsIn(path), e, 1
  {
    EnvOfNew(path, e.argument, e.span, names, s.scalars.iterables);
    var path', s' := path + [NewScope(e.argument, e.span)], OpenNew(s, e.argument, e.span);
    FlagOnlyLowers(e.body, path', names, s');
    NewPreservesLowered(s, e.argument, e.span, Eval(e.body, path', names, s', true), Eval(e.body, path', names, s', false));
  }

  lemma {:induction false} FoldLowers(e: Instr, path: Path, names: seq<string>, s: Ctx)
    requires e.Fold?
    requires Scoped(e, path, names) && EnvOk(path, names, s.scalars.iterables)
    ensures Lowered(EvalFold(e, path, names, s, true), EvalFold(e, path, names, s, false))
    decreases Inactive(names, s.scalars.iterables), Remaining(names, s.scalars.iterables), FoldsIn(path), e, 1
  {
    var items := Items(s, e.iterable);
    if items.Ok? && items.value != [] {
      ItemsLower(e, items.value, path, names, s);
    }
  }

  lemma {:induction false} ItemsLower(e: Instr, items: seq<JValue>, path: Path, names: seq<string>, s: Ctx)
    requires e.Fold? && items != []
    requires Scoped(e, path, names) && EnvOk(path, names, s.scalars.iterables)
    ensures Lowered(EvalItems(e, items, path, names, s, true), EvalItems(e, items, path, names, s, false))
    decreases Inactive(names, s.scalars.iterables), Remaining(names, s.scalars.iterables), FoldsIn(path), e, 0
  {
    if e.iter !in s.scalars.iterables {
      var f := FoldState(items, 0, e.body, e.last);
      FoldEnv(e, items, path, names, s);
      FlagOnlyLowers(e.body, path + [FoldScope(e.iter)], names, EnterFold(s, e.iter, f));
      LeaveFoldOk(s, e.iter, f, Eval(e.body, path + [FoldScope(e.iter)], names, EnterFold(s, e.iter, f), false));
    }
  }

  lemma {:induction false} NextLowers(e: Instr, path: Path, names: seq<string>, s: Ctx)
    requires e.Next?
    requires Scoped(e, path, names) && EnvOk(path, names, s.scalars.iterables)
    ensures Lowered(EvalNext(e, path, names, s, true), EvalNext(e, path, names, s, false))
    decreases Inactive(names, s.scalars.iterables), Remaining(names, s.scalars.iterables), FoldsIn(path), e, 1
  {
    var k := FoldAt(path, e.iter);
    EnvOfNext(path, k, names, s.scalars.iterables);
    if CanAdvance(s.scalars.iterables, e.iter) {
      IterationLowers(e.iter, path, k, names, s);
    }
  }

  lemma {:induction false} IterationLowers(i: string, path: Path, k: nat, names: seq<string>, s: Ctx)
    requires k < |path| && path[k] == FoldScope(i) && EnvOk(path, names, s.scalars.iterables)
    requires CanAdvance(s.scalars.iterables, i)
    ensures Lowered(EvalIteration(i, path, k, names, s, true), EvalIteration(i, path, k, names, s, false))
    decreases Inactive(names, s.scalars.iterables), Remaining(names, s.scalars.iterables), 0
  {
    AdvanceEnv(i, path, k, names, s);
    var body := s.scalars.iterables[i].body;
    FlagOnlyLowers(body, path[..k + 1], names, Advance(s, i));
    AfterNextOk(s, i, Eval(body, path[..k + 1], names, Advance(s, i), false));
  }
}
