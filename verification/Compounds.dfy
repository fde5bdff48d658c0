/**
 * What instructions with bodies do, told by the runs of their bodies and by what can be
 * read before and after them: the state a second branch, a handler or a `new` starts
 * from, and how the whole ends.
 */
module Compounds {
  import opened Wrappers
  import opened Json
  import opened Errors
  import opened Ast
  import opened State
  import opened Semantics
  import Instructions
  import Loops
  import Restoration
  import ErrorBubbling
  import S = Streams

  /** Nothing but the descriptors and the record of what happened differs. */
  predicate SameWork(s: Ctx, s': Ctx) {
    && s'.scalars == s.scalars && s'.streams == s.streams && s'.streamMaps == s.streamMaps
    && s'.trace == s.trace && s'.requests == s.requests && s'.lastCallId == s.lastCallId && s'.replies == s.replies
    && s'.peer == s.peer && s'.initPeer == s.initPeer
  }

  /** Both error objects read the same. */
  predicate SameErrors(s: Ctx, s': Ctx) {
    Resolve(s', ErrorObject) == Resolve(s, ErrorObject) && Resolve(s', LastErrorObject) == Resolve(s, LastErrorObject)
  }

  /** On its way out an error is only recorded. */
  lemma Recorded(e: Instr, path: Path, names: seq<string>, s: Ctx, quiet: bool)
    requires Scoped(e, path, names) && EnvOk(path, names, s.scalars.iterables)
    ensures var r, r' := EvalInstr(e, path, names, s, quiet), Eval(e, path, names, s, quiet);
      r'.out == r.out && SameWork(r.s, r'.s) && (r.out.Done? ==> r' == r)
  {
  }

  // ---- par ----

  /** The second branch of `par` starts from all that the first one left, errors included. */
  predicate GoesOn(s: Ctx, s': Ctx) {
    SameWork(s, s') && s'.error == s.error && s'.lastError == s.lastError
  }

  /** How `par` ends when its branches ended like this. */
  predicate Joins(left: Outcome, right: Run, r: Run) {
    && SameWork(right.s, r.s)
    && if right.Aborted() || (left.Failed? && right.out.Failed?) then r.out == right.out
       else
         && r.out == Done(left == Done(true) || right.out == Done(true))
         && SameErrors(right.s, r.s) && r.s.lastError.canBeSet
  }

  lemma BranchGoesOn(r: Run)
    ensures ParBranch(r).out == r.out && GoesOn(r.s, ParBranch(r).s)
  {
  }

  lemma BranchesJoin(left: Outcome, right: Run)
    ensures Joins(left, right, if right.Aborted() then right else ParResult(left, ParBranch(right)))
  {
  }

  lemma RecordedJoins(left: Outcome, right: Run, r: Run, r': Run)
    requires Joins(left, right, r) && r'.out == r.out && SameWork(r.s, r'.s) && (r.out.Done? ==> r' == r)
    ensures Joins(left, right, r')
  {
  }

  lemma ParJoins(a: Instr, b: Instr, path: Path, names: seq<string>, s: Ctx, left: Run)
    requires Scoped(Par(a, b), path, names) && EnvOk(path, names, s.scalars.iterables)
    requires left == ParBranch(Eval(a, path, names, s, a.Next?))
    ensures var r := EvalPar(Par(a, b), path, names, s);
      if left.Aborted() then r == left
      else EnvOk(path, names, left.s.scalars.iterables) && Joins(left.out, Eval(b, path, names, left.s, b.Next?), r)
  {
    Loops.BranchesRun(a, b, path, names, s);
    if !left.Aborted() {
      BranchesJoin(left.out, Eval(b, path, names, left.s, b.Next?));
    }
  }

  /**
   * Both branches run, unless the first stops everything. `par` fails exactly if both
   * do, with the second error; otherwise it is complete if one branch is, and
   * `%last_error%` can be set anew.
   */
  lemma ParRuns(a: Instr, b: Instr, path: Path, names: seq<string>, s: Ctx, quiet: bool) returns (s': Ctx)
    requires Scoped(Par(a, b), path, names) && EnvOk(path, names, s.scalars.iterables)
    ensures var r, left := Eval(Par(a, b), path, names, s, quiet), Eval(a, path, names, s, a.Next?);
      if left.Aborted() then Loops.SameEnd(r, left)
      else
        GoesOn(left.s, s') && EnvOk(path, names, s'.scalars.iterables) &&
        Joins(left.out, Eval(b, path, names, s', b.Next?), r)
  {
    var left := Eval(a, path, names, s, a.Next?);
    s' := ParBranch(left).s;
    BranchGoesOn(left);
    ParJoins(a, b, path, names, s, ParBranch(left));
    Recorded(Par(a, b), path, names, s, quiet);
    assert EvalInstr(Par(a, b), path, names, s, quiet) == EvalPar(Par(a, b), path, names, s);
    if !left.Aborted() {
      var right := Eval(b, path, names, s', b.Next?);
      RecordedJoins(left.out, right, EvalPar(Par(a, b), path, names, s), Eval(Par(a, b), path, names, s, quiet));
    }
  }

  // ---- xor ----

  /** A handler starts with the errors as they are, but both can be set anew, and the error caught is remembered. */
  predicate Catches(s: Ctx, c: CatchableError, s': Ctx) {
    && SameWork(s, s') && SameErrors(s, s')
    && s'.error.canBeSet && s'.lastError.canBeSet && s'.error.error.origCatchable == Some(c)
  }

  /** A handler that went through leaves no error in `:error:`, unless one is stuck there. */
  predicate Handled(s: Ctx, s': Ctx) {
    && SameWork(s, s') && s'.lastError == s.lastError && s'.error.canBeSet
    && if s.error.canBeSet then Instructions.SaysNoError(Resolve(s', ErrorObject)) else Resolve(s', ErrorObject) == Resolve(s, ErrorObject)
  }

  /** How `xor` ends when its handler ended like this. */
  predicate Leaves(handler: Run, r: Run) {
    r.out == handler.out && if r.out.Done? then Handled(handler.s, r.s) else SameWork(handler.s, r.s)
  }

  lemma CatchCatches(s: Ctx, c: CatchableError)
    ensures Catches(s, c, CatchError(s, c))
  {
  }

  lemma HandlerLeaves(handler: Run, caught: Ctx, e: Instr, peer: string)
    ensures var left := LeaveHandler(handler.s, handler.out, caught);
      Leaves(handler, handler.(s := if handler.out.Failed? then SetErrors(left, handler.out.error, e, peer) else left))
  {
  }

  /** `xor` ends as its first branch does, if that did not fail or stopped everything, and otherwise as its second. */
  lemma XorRuns(a: Instr, b: Instr, path: Path, names: seq<string>, s: Ctx, quiet: bool) returns (s': Ctx)
    requires Scoped(Xor(a, b), path, names) && EnvOk(path, names, s.scalars.iterables)
    ensures var r, first := Eval(Xor(a, b), path, names, s, quiet), Eval(a, path, names, s, false);
      if first.out.Done? then r == first
      else if first.Aborted() then r.out == first.out
      else
        Catches(first.s, first.out.error.c, s') && EnvOk(path, names, s'.scalars.iterables) &&
        Leaves(Eval(b, path, names, s', false), r)
  {
    var first := Eval(a, path, names, s, false);
    ErrorBubbling.XorUnfolds(Xor(a, b), path, names, s, quiet);
    s' := s;
    if first.out.Failed? && first.out.error.Catchable? {
      s' := CatchError(first.s, first.out.error.c);
      CatchCatches(first.s, first.out.error.c);
      HandlerLeaves(Eval(b, path, names, s', false), s', Xor(a, b), s.peer);
    }
  }

  // ---- new ----

  /** The last stream of the name is gone, and all others are there. */
  ghost predicate OneLess(store: S.Store, x: string, store': S.Store) {
    && S.Descriptors(store, x) != [] && S.Descriptors(store', x) == S.Descriptors(store, x)[..|S.Descriptors(store, x)| - 1]
    && forall y | y != x :: S.Descriptors(store', y) == S.Descriptors(store, y)
  }

  /** There is one empty stream more, for the text of the `new`. */
  ghost predicate OneMore(store: S.Store, x: string, span: S.Span, store': S.Store) {
    && S.Descriptors(store', x) == S.Descriptors(store, x) + [S.StreamDescriptor(span, [])]
    && forall y | y != x :: S.Descriptors(store', y) == S.Descriptors(store, y)
  }

  lemma StreamsOpen(s: Ctx, x: string, span: S.Span)
    ensures OneMore(s.streams, x, span, OpenNew(s, NewStream(x), span).streams)
    ensures OneMore(s.streamMaps, x, span, OpenNew(s, NewStreamMap(x), span).streamMaps)
  {
  }

  /** How a `new` ends whose body ended in `inner`: like that, unless the stream to remove is not there. */
  ghost predicate ClosesStream(inner: Run, x: string, r: Run) {
    if S.Descriptors(inner.s.streams, x) == [] then r.out == Failed(Uncatchable(Panic(NoStreamToLeave)))
    else
      && r.out == inner.out && OneLess(inner.s.streams, x, r.s.streams)
      && r.s.streamMaps == inner.s.streamMaps && r.s.scalars == inner.s.scalars && r.s.trace == inner.s.trace
  }

  ghost predicate ClosesStreamMap(inner: Run, x: string, r: Run) {
    if S.Descriptors(inner.s.streamMaps, x) == [] then r.out == Failed(Uncatchable(Panic(NoStreamMapToLeave)))
    else
      && r.out == inner.out && OneLess(inner.s.streamMaps, x, r.s.streamMaps)
      && r.s.streams == inner.s.streams && r.s.scalars == inner.s.scalars && r.s.trace == inner.s.trace
  }

  lemma StreamsClose(s: Ctx, x: string, span: S.Span, inner: Run)
    ensures ClosesStream(inner, x, AfterNew(s, NewStream(x), span, inner))
    ensures ClosesStreamMap(inner, x, AfterNew(s, NewStreamMap(x), span, inner))
  {
  }

  lemma ScalarsClose(s: Ctx, a: NewArgument, span: S.Span, inner: Run)
    requires a.NewScalar? || a.NewCanonStream? || a.NewCanonMap?
    requires Restoration.StoresValid(s.scalars) && Restoration.Restores(OpenNew(s, a, span).scalars, inner)
    ensures var r := AfterNew(s, a, span, inner);
      && r.out == inner.out && r.s.streams == inner.s.streams && r.s.streamMaps == inner.s.streamMaps && r.s.trace == inner.s.trace
      && (!inner.Aborted() ==> Restoration.RowRestored(s.scalars, a, r.s.scalars))
  {
    Restoration.NewCloses(s, a, span, inner);
  }

  /** The body of a `new` runs in the state the `new` opened, and the `new` ends like it, unless its stream is not there. */
  lemma NewRuns(a: NewArgument, span: S.Span, body: Instr, path: Path, names: seq<string>, s: Ctx, quiet: bool)
    requires Scoped(New(a, span, body), path, names) && EnvOk(path, names, s.scalars.iterables) && Restoration.StoresValid(s.scalars)
    ensures var path', s' := path + [NewScope(a, span)], OpenNew(s, a, span);
      EnvOk(path', names, s'.scalars.iterables) &&
      var r, inner := Eval(New(a, span, body), path, names, s, quiet), Eval(body, path', names, s', quiet);
      match a
      case NewStream(x) => OneMore(s.streams, x, span, s'.streams) && ClosesStream(inner, x, r)
      case NewStreamMap(x) => OneMore(s.streamMaps, x, span, s'.streamMaps) && ClosesStreamMap(inner, x, r)
      case _ =>
        && r.out == inner.out && r.s.streams == inner.s.streams && r.s.streamMaps == inner.s.streamMaps && r.s.trace == inner.s.trace
        && (!inner.Aborted() ==> Restoration.RowRestored(s.scalars, a, r.s.scalars))
  {
    var e, path', s' := New(a, span, body), path + [NewScope(a, span)], OpenNew(s, a, span);
    EnvOfNew(path, a, span, names, s.scalars.iterables);
    Restoration.OpenNewValid(s, a, span);
    Restoration.EvalRestores(body, path', names, s', quiet);
    var inner := Eval(body, path', names, s', quiet);
    match a {
      case NewStream(x) => StreamsOpen(s, x, span); StreamsClose(s, x, span, inner);
      case NewStreamMap(x) => StreamsOpen(s, x, span); StreamsClose(s, x, span, inner);
      case _ => ScalarsClose(s, a, span, inner);
    }
    assert EvalInstr(e, path, names, s, quiet) == EvalNew(e, path, names, s, quiet);
    assert EvalNew(e, path, names, s, quiet) == AfterNew(s, a, span, inner);
    Loops.Bubbles(e, path, names, s, quiet);
  }

  // ---- fold and next ----

  /** The iterator of a running fold cannot be taken again. */
  lemma FoldOfActiveIterator(e: Instr, items: seq<JValue>, path: Path, names: seq<string>, s: Ctx, quiet: bool)
    requires e.Fold? && Scoped(e, path, names) && EnvOk(path, names, s.scalars.iterables)
    requires Items(s, e.iterable) == Ok(items) && items != [] && e.iter in s.scalars.iterables
    ensures Eval(e, path, names, s, quiet).out == Failed(Uncatchable(MultipleIterableValues(e.iter)))
  {
    assert EvalInstr(e, path, names, s, quiet) == EvalFold(e, path, names, s, quiet) == EvalItems(e, items, path, names, s, quiet);
  }

  /** At the last element `next` ends like the last instruction of the fold, run outside of it, or does nothing. */
  lemma NextAtLast(i: string, k: nat, path: Path, names: seq<string>, s: Ctx, quiet: bool)
    requires k < |path| && path[k] == FoldScope(i) && FoldScope(i) !in path[k + 1..] && EnvOk(path, names, s.scalars.iterables)
    requires i in s.scalars.iterables && s.scalars.iterables[i].cursor + 1 == |s.scalars.iterables[i].items|
    ensures match s.scalars.iterables[i].last
      case None => Eval(Next(i), path, names, s, quiet) == Run(s, Done(!quiet))
      case Some(l) =>
        Scoped(l, path[..k], names) && EnvOk(path[..k], names, s.scalars.iterables) &&
        Loops.SameEnd(Eval(Next(i), path, names, s, quiet), Eval(l, path[..k], names, s, false))
  {
    FoldIsAt(path, i, k);
    EnvOfNext(path, k, names, s.scalars.iterables);
    Loops.Bubbles(Next(i), path, names, s, quiet);
    assert EvalInstr(Next(i), path, names, s, quiet) == EvalNext(Next(i), path, names, s, quiet);
  }

  lemma {:induction false} FoldIsAt(path: Path, i: string, k: nat)
    requires k < |path| && path[k] == FoldScope(i) && FoldScope(i) !in path[k + 1..]
    ensures FoldAt(path, i) == k
  {
    var n := |path| - 1;
    if k < n {
      assert path[n] == path[k + 1..][n - k - 1] && path[..n][k] == path[k];
      assert path[..n][k + 1..] == path[k + 1..][..n - k - 1];
      FoldIsAt(path[..n], i, k);
    }
  }
}
