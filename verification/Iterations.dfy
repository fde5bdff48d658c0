/**
 * What cannot reach the `next` of a running fold leaves that fold alone: its elements,
 * its body and its cursor, even when it fails or moves other iterators.
 */
module Iterations {
  import opened Wrappers
  import opened Json
  import opened Errors
  import opened Ast
  import opened State
  import opened Semantics
  import S = Streams

  /** No `next i` in `e` belongs to a fold outside of `e`. */
  predicate NextFree(e: Instr, i: string) {
    match e
    case Next(j) => j != i
    case Fold(_, j, body, last) =>
      (j == i || NextFree(body, i)) && (match last case None => true case Some(l) => NextFree(l, i))
    case New(_, _, body) => NextFree(body, i)
    case Match(_, _, body) => NextFree(body, i)
    case MisMatch(_, _, body) => NextFree(body, i)
    case Seq(a, b) => NextFree(a, i) && NextFree(b, i)
    case Par(a, b) => NextFree(a, i) && NextFree(b, i)
    case Xor(a, b) => NextFree(a, i) && NextFree(b, i)
    case _ => true
  }

  predicate FreeFold(f: FoldState, i: string) {
    NextFree(f.body, i) && (match f.last case None => true case Some(l) => NextFree(l, i))
  }

  /** What the other folds around an instruction jump to cannot reach the `next` of `i` either. */
  ghost predicate Away(i: string, path: Path, its: Iterables) {
    forall k | 0 <= k < |path| && path[k].FoldScope? && path[k].iter != i :: path[k].iter in its && FreeFold(its[path[k].iter], i)
  }

  ghost predicate Untouched(i: string, s: Ctx, r: Run) {
    !r.Aborted() ==> i in s.scalars.iterables && i in r.s.scalars.iterables && r.s.scalars.iterables[i] == s.scalars.iterables[i]
  }

  /** Outside of the fold of `i` there is no `next i` to belong to it. */
  lemma {:induction false} ScopedFree(e: Instr, path: Path, names: seq<string>, i: string)
    requires Scoped(e, path, names) && FoldScope(i) !in path
    ensures NextFree(e, i)
  {
    match e {
      case Match(_, _, body) => ScopedFree(body, path, names, i);
      case MisMatch(_, _, body) => ScopedFree(body, path, names, i);
      case Seq(a, b) => ScopedFree(a, path, names, i); ScopedFree(b, path, names, i);
      case Par(a, b) => ScopedFree(a, path, names, i); ScopedFree(b, path, names, i);
      case Xor(a, b) => ScopedFree(a, path, names, i); ScopedFree(b, path, names, i);
      case New(a, span, body) => ScopedFree(body, path + [NewScope(a, span)], names, i);
      case Fold(_, j, body, last) =>
        if j != i { ScopedFree(body, path + [FoldScope(j)], names, i); }
        if last.Some? { ScopedFree(last.value, path, names, i); }
      case _ =>
    }
  }

  /** Directly inside the innermost fold the other folds are further out, so they are away. */
  lemma AwayInside(i: string, path: Path, names: seq<string>, its: Iterables)
    requires EnvOk(path, names, its) && path != [] && FoldScope(i) !in path[..|path| - 1]
    requires path[|path| - 1] == FoldScope(i)
    ensures Away(i, path, its)
  {
    forall k | 0 <= k < |path| && path[k].FoldScope? && path[k].iter != i
      ensures path[k].iter in its && FreeFold(its[path[k].iter], i)
    {
      assert FoldOk(path, k, names, its);
      var f := its[path[k].iter];
      ScopedFree(f.body, path[..k + 1], names, i);
      if f.last.Some? {
        ScopedFree(f.last.value, path[..k], names, i);
      }
    }
  }

  lemma AwayKept(i: string, path: Path, its: Iterables, its': Iterables)
    requires Away(i, path, its) && IteratorsKept(its, its')
    ensures Away(i, path, its')
  {
  }

  lemma AwayPrefix(i: string, path: Path, n: nat, its: Iterables)
    requires Away(i, path, its) && n <= |path|
    ensures Away(i, path[..n], its)
  {
  }

  lemma AwayOfNew(i: string, path: Path, a: NewArgument, span: S.Span, its: Iterables)
    requires Away(i, path, its)
    ensures Away(i, path + [NewScope(a, span)], its)
  {
  }

  lemma AwayOfFold(i: string, path: Path, j: string, f: FoldState, its: Iterables)
    requires Away(i, path, its) && j != i && j !in its && FreeFold(f, i)
    ensures Away(i, path + [FoldScope(j)], its[j := f])
  {
  }

  lemma AwayOfNext(i: string, path: Path, k: nat, its: Iterables)
    requires Away(i, path, its) && k < |path| && path[k].FoldScope? && path[k].iter != i && CanAdvance(its, path[k].iter)
    ensures var j := path[k].iter;
      FreeFold(its[j], i) && Away(i, path[..k + 1], its[j := its[j].(cursor := its[j].cursor + 1)])
  {
  }

  // ---- every run ----

  lemma {:induction false} EvalLeavesAlone(i: string, e: Instr, path: Path, names: seq<string>, s: Ctx, quiet: bool)
    requires Scoped(e, path, names) && EnvOk(path, names, s.scalars.iterables)
    requires i in s.scalars.iterables && NextFree(e, i) && Away(i, path, s.scalars.iterables)
    ensures Untouched(i, s, Eval(e, path, names, s, quiet))
    decreases Inactive(names, s.scalars.iterables), Remaining(names, s.scalars.iterables), FoldsIn(path), e, 3
  {
    InstrLeavesAlone(i, e, path, names, s, quiet);
  }

  lemma {:induction false} InstrLeavesAlone(i: string, e: Instr, path: Path, names: seq<string>, s: Ctx, quiet: bool)
    requires Scoped(e, path, names) && EnvOk(path, names, s.scalars.iterables)
    requires i in s.scalars.iterables && NextFree(e, i) && Away(i, path, s.scalars.iterables)
    ensures Untouched(i, s, EvalInstr(e, path, names, s, quiet))
    decreases Inactive(names, s.scalars.iterables), Remaining(names, s.scalars.iterables), FoldsIn(path), e, 2
  {
    match e {
      case Match(_, _, _) => MatchLeavesAlone(i, e, path, names, s, quiet);
      case MisMatch(_, _, _) => MatchLeavesAlone(i, e, path, names, s, quiet);
      case Seq(_, _) => SeqLeavesAlone(i, e, path, names, s);
      case Par(_, _) => ParLeavesAlone(i, e, path, names, s);
      case Xor(_, _) => XorLeavesAlone(i, e, path, names, s);
      case New(_, _, _) => NewLeavesAlone(i, e, path, names, s, quiet);
      case Fold(_, _, _, _) => FoldLeavesAlone(i, e, path, names, s, quiet);
      case Next(_) => NextLeavesAlone(i, e, path, names, s, quiet);
      case _ =>
    }
  }

  lemma {:induction false} MatchLeavesAlone(i: string, e: Instr, path: Path, names: seq<string>, s: Ctx, quiet: bool)
    requires e.Match? || e.MisMatch?
    requires Scoped(e, path, names) && EnvOk(path, names, s.scalars.iterables)
    requires i in s.scalars.iterables && NextFree(e, i) && Away(i, path, s.scalars.iterables)
    ensures Untouched(i, s, EvalMatch(e, path, names, s, quiet))
    decreases Inactive(names, s.scalars.iterables), Remaining(names, s.scalars.iterables), FoldsIn(path), e, 1
  {
    EvalLeavesAlone(i, e.body, path, names, s, quiet);
  }

  /** A second instruction, run from a state with the scalars the first one left. */
  lemma {:induction false} SecondLeavesAlone(i: string, e: Instr, path: Path, names: seq<string>, s: Ctx, s1: Ctx, s2: Ctx, quiet: bool)
    requires EnvOk(path, names, s.scalars.iterables) && IteratorsKept(s.scalars.iterables, s1.scalars.iterables)
    requires Scoped(e, path, names) && NextFree(e, i) && Away(i, path, s.scalars.iterables)
    requires i in s.scalars.iterables && i in s1.scalars.iterables
    requires s1.scalars.iterables[i] == s.scalars.iterables[i] && s2.scalars == s1.scalars
    ensures EnvOk(path, names, s2.scalars.iterables)
    ensures Untouched(i, s, Eval(e, path, names, s2, quiet))
    decreases Inactive(names, s.scalars.iterables), Remaining(names, s.scalars.iterables), FoldsIn(path), e, 4
  {
    KeptMeasure(names, s.scalars.iterables, s2.scalars.iterables);
    EnvKept(path, names, s.scalars.iterables, s2.scalars.iterables);
    AwayKept(i, path, s.scalars.iterables, s2.scalars.iterables);
    EvalLeavesAlone(i, e, path, names, s2, quiet);
    AloneTwice(i, s, s2, Eval(e, path, names, s2, quiet));
  }

  lemma AloneTwice(i: string, s: Ctx, s2: Ctx, r: Run)
    requires i in s.scalars.iterables && i in s2.scalars.iterables && s2.scalars.iterables[i] == s.scalars.iterables[i]
    requires Untouched(i, s2, r)
    ensures Untouched(i, s, r)
  {
  }

  lemma {:induction false} SeqLeavesAlone(i: string, e: Instr, path: Path, names: seq<string>, s: Ctx)
    requires e.Seq?
    requires Scoped(e, path, names) && EnvOk(path, names, s.scalars.iterables)
    requires i in s.scalars.iterables && NextFree(e, i) && Away(i, path, s.scalars.iterables)
    ensures Untouched(i, s, EvalSeq(e, path, names, s))
    decreases Inactive(names, s.scalars.iterables), Remaining(names, s.scalars.iterables), FoldsIn(path), e, 1
  {
    EvalLeavesAlone(i, e.first, path, names, s, false);
    var r := Eval(e.first, path, names, s, false);
    if r.out == Done(true) {
      SecondLeavesAlone(i, e.second, path, names, s, r.s, r.s, false);
    }
  }

  lemma {:induction false} ParLeavesAlone(i: string, e: Instr, path: Path, names: seq<string>, s: Ctx)
    requires e.Par?
    requires Scoped(e, path, names) && EnvOk(path, names, s.scalars.iterables)
    requires i in s.scalars.iterables && NextFree(e, i) && Away(i, path, s.scalars.iterables)
    ensures Untouched(i, s, EvalPar(e, path, names, s))
    decreases Inactive(names, s.scalars.iterables), Remaining(names, s.scalars.iterables), FoldsIn(path), e, 1
  {
    EvalLeavesAlone(i, e.first, path, names, s, Quiet(e.first));
    var left := Eval(e.first, path, names, s, Quiet(e.first));
    if !left.Aborted() {
      SecondLeavesAlone(i, e.second, path, names, s, left.s, ParBranch(left).s, Quiet(e.second));
      ParKeepsAlone(i, s, left.out, Eval(e.second, path, names, ParBranch(left).s, Quiet(e.second)));
    }
  }

  lemma ParKeepsAlone(i: string, s: Ctx, left: Outcome, right: Run)
    requires Untouched(i, s, right)
    ensures Untouched(i, s, ParBranch(right))
    ensures !right.Aborted() ==> Untouched(i, s, ParResult(left, ParBranch(right)))
  {
  }

  lemma {:induction false} XorLeavesAlone(i: string, e: Instr, path: Path, names: seq<string>, s: Ctx)
    requires e.Xor?
    requires Scoped(e, path, names) && EnvOk(path, names, s.scalars.iterables)
    requires i in s.scalars.iterables && NextFree(e, i) && Away(i, path, s.scalars.iterables)
    ensures Untouched(i, s, EvalXor(e, path, names, s))
    decreases Inactive(names, s.scalars.iterables), Remaining(names, s.scalars.iterables), FoldsIn(path), e, 1
  {
    EvalLeavesAlone(i, e.first, path, names, s, false);
    var r := Eval(e.first, path, names, s, false);
    if r.out.Failed? && !r.Aborted() {
      SecondLeavesAlone(i, e.second, path, names, s, r.s, CatchError(r.s, r.out.error.c), false);
    }
  }

  lemma {:induction false} NewLeavesAlone(i: string, e: Instr, path: Path, names: seq<string>, s: Ctx, quiet: bool)
    requires e.New?
    requires Scoped(e, path, names) && EnvOk(path, names, s.scalars.iterables)
    requires i in s.scalars.iterables && NextFree(e, i) && Away(i, path, s.scalars.iterables)
    ensures Untouched(i, s, EvalNew(e, path, names, s, quiet))
    decreases Inactive(names, s.scalars.iterables), Remaining(names, s.scalars.iterables), FoldsIn(path), e, 1
  {
    EnvOfNew(path, e.argument, e.span, names, s.scalars.iterables);
    AwayOfNew(i, path, e.argument, e.span, s.scalars.iterables);
    var path', s' := path + [NewScope(e.argument, e.span)], OpenNew(s, e.argument, e.span);
    EvalLeavesAlone(i, e.body, path', names, s', quiet);
    NewKeepsAlone(i, s, e.argument, e.span, Eval(e.body, path', names, s', quiet));
  }

  lemma NewKeepsAlone(i: string, s: Ctx, a: NewArgument, span: S.Span, r: Run)
    requires Untouched(i, OpenNew(s, a, span), r)
    ensures Untouched(i, s, AfterNew(s, a, span, r))
  {
  }

  lemma {:induction false} FoldLeavesAlone(i: string, e: Instr, path: Path, names: seq<string>, s: Ctx, quiet: bool)
    requires e.Fold?
    requires Scoped(e, path, names) && EnvOk(path, names, s.scalars.iterables)
    requires i in s.scalars.iterables && NextFree(e, i) && Away(i, path, s.scalars.iterables)
    ensures Untouched(i, s, EvalFold(e, path, names, s, quiet))
    decreases Inactive(names, s.scalars.iterables), Remaining(names, s.scalars.iterables), FoldsIn(path), e, 1
  {
    var items := Items(s, e.iterable);
    if items.Ok? && items.value != [] && e.iter !in s.scalars.iterables {
      ItemsLeaveAlone(i, e, items.value, path, names, s, quiet);
    }
  }

  lemma {:induction false} ItemsLeaveAlone(i: string, e: Instr, items: seq<JValue>, path: Path, names: seq<string>, s: Ctx, quiet: bool)
    requires e.Fold? && items != [] && e.iter !in s.scalars.iterables
    requires Scoped(e, path, names) && EnvOk(path, names, s.scalars.iterables)
    requires i in s.scalars.iterables && NextFree(e, i) && Away(i, path, s.scalars.iterables)
    ensures Untouched(i, s, EvalItems(e, items, path, names, s, quiet))
    decreases Inactive(names, s.scalars.iterables), Remaining(names, s.scalars.iterables), FoldsIn(path), e, 0
  {
    var f := FoldState(items, 0, e.body, e.last);
    FoldEnv(e, items, path, names, s);
    AwayOfFold(i, path, e.iter, f, s.scalars.iterables);
    var s', path' := EnterFold(s, e.iter, f), path + [FoldScope(e.iter)];
    EvalLeavesAlone(i, e.body, path', names, s', quiet);
    LeaveFoldOk(s, e.iter, f, Eval(e.body, path', names, s', quiet));
  }

  lemma {:induction false} NextLeavesAlone(i: string, e: Instr, path: Path, names: seq<string>, s: Ctx, quiet: bool)
    requires e.Next?
    requires Scoped(e, path, names) && EnvOk(path, names, s.scalars.iterables)
    requires i in s.scalars.iterables && NextFree(e, i) && Away(i, path, s.scalars.iterables)
    ensures Untouched(i, s, EvalNext(e, path, names, s, quiet))
    decreases Inactive(names, s.scalars.iterables), Remaining(names, s.scalars.iterables), FoldsIn(path), e, 1
  {
    var k := FoldAt(path, e.iter);
    EnvOfNext(path, k, names, s.scalars.iterables);
    var last := s.scalars.iterables[e.iter].last;
    if CanAdvance(s.scalars.iterables, e.iter) {
      IterationLeavesAlone(i, e.iter, path, k, names, s, quiet);
    } else if last.Some? {
      AwayPrefix(i, path, k, s.scalars.iterables);
      EvalLeavesAlone(i, last.value, path[..k], names, s, false);
    }
  }

  lemma {:induction false} IterationLeavesAlone(i: string, j: string, path: Path, k: nat, names: seq<string>, s: Ctx, quiet: bool)
    requires k < |path| && path[k] == FoldScope(j) && EnvOk(path, names, s.scalars.iterables)
    requires CanAdvance(s.scalars.iterables, j) && j != i
    requires i in s.scalars.iterables && Away(i, path, s.scalars.iterables)
    ensures Untouched(i, s, EvalIteration(j, path, k, names, s, quiet))
    decreases Inactive(names, s.scalars.iterables), Remaining(names, s.scalars.iterables), 0
  {
    AdvanceEnv(j, path, k, names, s);
    AwayOfNext(i, path, k, s.scalars.iterables);
    var body := s.scalars.iterables[j].body;
    EvalLeavesAlone(i, body, path[..k + 1], names, Advance(s, j), quiet);
    AfterNextOk(s, j, Eval(body, path[..k + 1], names, Advance(s, j), quiet));
  }
}
