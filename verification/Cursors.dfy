/**
 * Where the cursors of the running folds stand after a run. A run in which no
 * `next` was left by an error puts every cursor back; a `next` left by an error
 * leaves its cursor one element on. The cursor of one particular fold is not
 * touched at all by what cannot reach its `next`.
 */
module Cursors {
  import opened Wrappers
  import opened Json
  import opened Errors
  import opened Ast
  import opened State
  import opened Semantics
  import Progress
  import S = Streams

  ghost predicate SameIterators(its: Iterables, its': Iterables) {
    forall i {:trigger i in its} {:trigger i in its'} :: (i in its <==> i in its') && (i in its ==> its'[i] == its[i])
  }

  ghost predicate CursorsBack(s: Ctx, r: Run) {
    !r.Aborted() && !r.s.history.nextFailed ==> SameIterators(s.scalars.iterables, r.s.scalars.iterables)
  }

  lemma {:induction false} EvalCursors(e: Instr, path: Path, names: seq<string>, s: Ctx, quiet: bool)
    requires Scoped(e, path, names) && EnvOk(path, names, s.scalars.iterables)
    ensures CursorsBack(s, Eval(e, path, names, s, quiet))
    decreases Inactive(names, s.scalars.iterables), Remaining(names, s.scalars.iterables), FoldsIn(path), e, 3
  {
    InstrCursors(e, path, names, s, quiet);
  }

  lemma {:induction false} InstrCursors(e: Instr, path: Path, names: seq<string>, s: Ctx, quiet: bool)
    requires Scoped(e, path, names) && EnvOk(path, names, s.scalars.iterables)
    ensures CursorsBack(s, EvalInstr(e, path, names, s, quiet))
    decreases Inactive(names, s.scalars.iterables), Remaining(names, s.scalars.iterables), FoldsIn(path), e, 2
  {
    match e {
      case Match(_, _, _) => MatchCursors(e, path, names, s, quiet);
      case MisMatch(_, _, _) => MatchCursors(e, path, names, s, quiet);
      case Seq(_, _) => SeqCursors(e, path, names, s);
      case Par(_, _) => ParCursors(e, path, names, s);
      case Xor(_, _) => XorCursors(e, path, names, s);
      case New(_, _, _) => NewCursors(e, path, names, s, quiet);
      case Fold(_, _, _, _) => FoldCursors(e, path, names, s, quiet);
      case Next(_) => NextCursors(e, path, names, s, quiet);
      case _ =>
    }
  }

  lemma {:induction false} MatchCursors(e: Instr, path: Path, names: seq<string>, s: Ctx, quiet: bool)
    requires e.Match? || e.MisMatch?
    requires Scoped(e, path, names) && EnvOk(path, names, s.scalars.iterables)
    ensures CursorsBack(s, EvalMatch(e, path, names, s, quiet))
    decreases Inactive(names, s.scalars.iterables), Remaining(names, s.scalars.iterables), FoldsIn(path), e, 1
  {
    EvalCursors(e.body, path, names, s, quiet);
  }

  lemma {:induction false} SeqCursors(e: Instr, path: Path, names: seq<string>, s: Ctx)
    requires e.Seq?
    requires Scoped(e, path, names) && EnvOk(path, names, s.scalars.iterables)
    ensures CursorsBack(s, EvalSeq(e, path, names, s))
    decreases Inactive(names, s.scalars.iterables), Remaining(names, s.scalars.iterables), FoldsIn(path), e, 1
  {
    EvalCursors(e.first, path, names, s, false);
    var r := Eval(e.first, path, names, s, false);
    if r.out == Done(true) {
      SecondCursors(e.second, path, names, s, r.s, r.s, false);
    }
  }

  /** A second instruction, run from a state with the scalars the first one left. */
  lemma {:induction false} SecondCursors(e: Instr, path: Path, names: seq<string>, s: Ctx, s1: Ctx, s2: Ctx, quiet: bool)
    requires EnvOk(path, names, s.scalars.iterables) && IteratorsKept(s.scalars.iterables, s1.scalars.iterables)
    requires s2.scalars == s1.scalars && (s1.history.nextFailed ==> s2.history.nextFailed) && Scoped(e, path, names)
    requires !s1.history.nextFailed ==> SameIterators(s.scalars.iterables, s1.scalars.iterables)
    ensures EnvOk(path, names, s2.scalars.iterables)
    ensures CursorsBack(s, Eval(e, path, names, s2, quiet))
    decreases Inactive(names, s.scalars.iterables), Remaining(names, s.scalars.iterables), FoldsIn(path), e, 4
  {
    KeptMeasure(names, s.scalars.iterables, s2.scalars.iterables);
    EnvKept(path, names, s.scalars.iterables, s2.scalars.iterables);
    EvalCursors(e, path, names, s2, quiet);
    Progress.EvalGrows(e, path, names, s2, quiet);
    BackTwice(s, s1, s2, Eval(e, path, names, s2, quiet));
  }

  lemma BackTwice(s: Ctx, s1: Ctx, s2: Ctx, r: Run)
    requires s2.scalars == s1.scalars && (s1.history.nextFailed ==> s2.history.nextFailed)
    requires !s1.history.nextFailed ==> SameIterators(s.scalars.iterables, s1.scalars.iterables)
    requires CursorsBack(s2, r) && (s2.history.nextFailed ==> r.s.history.nextFailed)
    ensures CursorsBack(s, r)
  {
  }

  lemma {:induction false} ParCursors(e: Instr, path: Path, names: seq<string>, s: Ctx)
    requires e.Par?
    requires Scoped(e, path, names) && EnvOk(path, names, s.scalars.iterables)
    ensures CursorsBack(s, EvalPar(e, path, names, s))
    decreases Inactive(names, s.scalars.iterables), Remaining(names, s.scalars.iterables), FoldsIn(path), e, 1
  {
    EvalCursors(e.first, path, names, s, Quiet(e.first));
    var left := Eval(e.first, path, names, s, Quiet(e.first));
    if !left.Aborted() {
      SecondCursors(e.second, path, names, s, left.s, ParBranch(left).s, Quiet(e.second));
      ParKeepsBack(s, left.out, Eval(e.second, path, names, ParBranch(left).s, Quiet(e.second)));
    }
  }

  lemma ParKeepsBack(s: Ctx, left: Outcome, right: Run)
    requires CursorsBack(s, right)
    ensures CursorsBack(s, ParBranch(right))
    ensures !right.Aborted() ==> CursorsBack(s, ParResult(left, ParBranch(right)))
  {
  }

  lemma {:induction false} XorCursors(e: Instr, path: Path, names: seq<string>, s: Ctx)
    requires e.Xor?
    requires Scoped(e, path, names) && EnvOk(path, names, s.scalars.iterables)
    ensures CursorsBack(s, EvalXor(e, path, names, s))
    decreases Inactive(names, s.scalars.iterables), Remaining(names, s.scalars.iterables), FoldsIn(path), e, 1
  {
    EvalCursors(e.first, path, names, s, false);
    var r := Eval(e.first, path, names, s, false);
    if r.out.Failed? && !r.Aborted() {
      SecondCursors(e.second, path, names, s, r.s, CatchError(r.s, r.out.error.c), false);
    }
  }

  lemma {:induction false} NewCursors(e: Instr, path: Path, names: seq<string>, s: Ctx, quiet: bool)
    requires e.New?
    requires Scoped(e, path, names) && EnvOk(path, names, s.scalars.iterables)
    ensures CursorsBack(s, EvalNew(e, path, names, s, quiet))
    decreases Inactive(names, s.scalars.iterables), Remaining(names, s.scalars.iterables), FoldsIn(path), e, 1
  {
    EnvOfNew(path, e.argument, e.span, names, s.scalars.iterables);
    EvalCursors(e.body, path + [NewScope(e.argument, e.span)], names, OpenNew(s, e.argument, e.span), quiet);
    NewKeepsIterators(s, e.argument, e.span,
      Eval(e.body, path + [NewScope(e.argument, e.span)], names, OpenNew(s, e.argument, e.span), quiet));
  }

  lemma NewKeepsIterators(s: Ctx, a: NewArgument, span: S.Span, r: Run)
    ensures OpenNew(s, a, span).scalars.iterables == s.scalars.iterables
    ensures AfterNew(s, a, span, r).s.scalars.iterables == r.s.scalars.iterables
    ensures AfterNew(s, a, span, r).s.history.nextFailed == r.s.history.nextFailed
    ensures r.Aborted() ==> AfterNew(s, a, span, r).Aborted()
  {
  }

  lemma {:induction false} FoldCursors(e: Instr, path: Path, names: seq<string>, s: Ctx, quiet: bool)
    requires e.Fold?
    requires Scoped(e, path, names) && EnvOk(path, names, s.scalars.iterables)
    ensures CursorsBack(s, EvalFold(e, path, names, s, quiet))
    decreases Inactive(names, s.scalars.iterables), Remaining(names, s.scalars.iterables), FoldsIn(path), e, 1
  {
    var items := Items(s, e.iterable);
    if items.Ok? && items.value != [] && e.iter !in s.scalars.iterables {
      ItemsCursors(e, items.value, path, names, s, quiet);
    }
  }

  lemma {:induction false} ItemsCursors(e: Instr, items: seq<JValue>, path: Path, names: seq<string>, s: Ctx, quiet: bool)
    requires e.Fold? && items != [] && e.iter !in s.scalars.iterables
    requires Scoped(e, path, names) && EnvOk(path, names, s.scalars.iterables)
    ensures CursorsBack(s, EvalItems(e, items, path, names, s, quiet))
    decreases Inactive(names, s.scalars.iterables), Remaining(names, s.scalars.iterables), FoldsIn(path), e, 0
  {
    var f := FoldState(items, 0, e.body, e.last);
    FoldEnv(e, items, path, names, s);
    var s', path' := EnterFold(s, e.iter, f), path + [FoldScope(e.iter)];
    EvalCursors(e.body, path', names, s', quiet);
    LeaveFoldOk(s, e.iter, f, Eval(e.body, path', names, s', quiet));
  }

  lemma {:induction false} NextCursors(e: Instr, path: Path, names: seq<string>, s: Ctx, quiet: bool)
    requires e.Next?
    requires Scoped(e, path, names) && EnvOk(path, names, s.scalars.iterables)
    ensures CursorsBack(s, EvalNext(e, path, names, s, quiet))
    decreases Inactive(names, s.scalars.iterables), Remaining(names, s.scalars.iterables), FoldsIn(path), e, 1
  {
    var k := FoldAt(path, e.iter);
    EnvOfNext(path, k, names, s.scalars.iterables);
    var last := s.scalars.iterables[e.iter].last;
    if CanAdvance(s.scalars.iterables, e.iter) {
      IterationCursors(e.iter, path, k, names, s, quiet);
    } else if last.Some? {
      EvalCursors(last.value, path[..k], names, s, false);
    }
  }

  /**
   * An iteration without an error puts the cursor back. If its body fails, although
   * no `next` inside it did, exactly this cursor is left one element on.
   */
  lemma {:induction false} IterationCursors(i: string, path: Path, k: nat, names: seq<string>, s: Ctx, quiet: bool)
    requires k < |path| && path[k] == FoldScope(i) && EnvOk(path, names, s.scalars.iterables)
    requires CanAdvance(s.scalars.iterables, i)
    ensures CursorsBack(s, EvalIteration(i, path, k, names, s, quiet))
    ensures var its := s.scalars.iterables;
      var r := EvalIteration(i, path, k, names, s, quiet);
      EnvOk(path[..k + 1], names, Advance(s, i).scalars.iterables) && Scoped(its[i].body, path[..k + 1], names) &&
      var inner := Eval(its[i].body, path[..k + 1], names, Advance(s, i), quiet);
      inner.out.Failed? && !inner.Aborted() && !inner.s.history.nextFailed ==>
        && r.s.history.nextFailed
        && SameIterators(its[i := its[i].(cursor := its[i].cursor + 1)], r.s.scalars.iterables)
    decreases Inactive(names, s.scalars.iterables), Remaining(names, s.scalars.iterables), 0
  {
    AdvanceEnv(i, path, k, names, s);
    var body := s.scalars.iterables[i].body;
    EvalCursors(body, path[..k + 1], names, Advance(s, i), quiet);
    var inner := Eval(body, path[..k + 1], names, Advance(s, i), quiet);
    AfterNextOk(s, i, inner);
    StepBackRestores(s, i, inner);
  }

  lemma StepBackRestores(s: Ctx, i: string, inner: Run)
    requires CanAdvance(s.scalars.iterables, i) && CursorsBack(Advance(s, i), inner) && InScope(inner.s.scalars)
    ensures CursorsBack(s, AfterNext(inner, i))
    ensures inner.out.Failed? && !inner.Aborted() && !inner.s.history.nextFailed ==>
      var its := s.scalars.iterables;
      SameIterators(its[i := its[i].(cursor := its[i].cursor + 1)], AfterNext(inner, i).s.scalars.iterables)
  {
    assert AfterNext(inner, i).s.scalars.iterables ==
      if inner.out.Failed? then inner.s.scalars.iterables else Retreat(inner.s.scalars.iterables, i);
  }
}
