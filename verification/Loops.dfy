/**
 * What the three common fold bodies do. `par X (next i)` runs X once for every
 * element, whatever becomes of the other elements; `seq X (next i)` runs it up to the
 * first element that is incomplete or fails; `seq A (seq (next i) B)` runs A forwards
 * over the elements and then B backwards. Recursion through `next` is compared with a
 * list of visits.
 */
module Loops {
  import opened Wrappers
  import opened Json
  import opened Errors
  import opened Ast
  import opened State
  import opened Semantics
  import opened Iterations

  /** A running fold without a last instruction, and where its body stands in the script. */
  datatype Loop = Loop(iter: string, items: seq<JValue>, body: Instr, path: Path, names: seq<string>)

  /** The fold is the innermost one, and at the element with this index. */
  ghost predicate Inside(l: Loop, index: int, s: Ctx) {
    && l.path != [] && l.path[|l.path| - 1] == FoldScope(l.iter) && FoldScope(l.iter) !in l.path[..|l.path| - 1]
    && EnvOk(l.path, l.names, s.scalars.iterables) && Scoped(l.body, l.path, l.names)
    && 0 <= index < |l.items|
    && l.iter in s.scalars.iterables && s.scalars.iterables[l.iter] == FoldState(l.items, index, l.body, None)
  }

  /** Runs a part of the body. */
  ghost function EvalIn(l: Loop, e: Instr, index: int, s: Ctx, quiet: bool): Run
    requires Inside(l, index, s) && Scoped(e, l.path, l.names)
  {
    Eval(e, l.path, l.names, s, quiet)
  }

  /** One run of an instruction for one element. */
  datatype Visit = Visit(from: Ctx, run: Run)

  ghost predicate Visited(l: Loop, e: Instr, v: Visit, index: int, quiet: bool) {
    Inside(l, index, v.from) && Scoped(e, l.path, l.names) && v.run == EvalIn(l, e, index, v.from, quiet)
  }

  /** `w` is about the element after that of `v`, in the state `v` left. */
  predicate Forwards(v: Visit, w: Visit, i: string) {
    i in v.run.s.scalars.iterables && w.from == Advance(v.run.s, i)
  }

  /** The same when what `v` did is a branch of `par`: a failure is noted, and passed over. */
  predicate ForwardsInPar(v: Visit, w: Visit, i: string) {
    i in v.run.s.scalars.iterables && w.from == Advance(ParBranch(v.run).s, i)
  }

  /** `w` is about the element before that of `v`, in the state `v` left. */
  predicate Backwards(v: Visit, w: Visit, i: string) {
    InScope(v.run.s.scalars) && w.from == AfterNext(v.run, i).s
  }

  // ---- one level of the recursion ----

  /** The same outcome, and nothing more was done to reach it. */
  predicate SameEnd(r: Run, inner: Run) {
    r.out == inner.out && r.s.trace == inner.s.trace && (inner.out.Done? ==> r == inner)
  }

  /** On the way out errors are only recorded. */
  lemma Bubbles(e: Instr, path: Path, names: seq<string>, s: Ctx, quiet: bool)
    requires Scoped(e, path, names) && EnvOk(path, names, s.scalars.iterables)
    ensures SameEnd(Eval(e, path, names, s, quiet), EvalInstr(e, path, names, s, quiet))
  {
  }

  /** An instruction without a `next` of the loop leaves the loop where it is. */
  lemma StillInside(l: Loop, e: Instr, index: int, s: Ctx, quiet: bool)
    requires Inside(l, index, s) && Scoped(e, l.path, l.names) && NextFree(e, l.iter)
    ensures var r := EvalIn(l, e, index, s, quiet); !r.Aborted() ==> Inside(l, index, r.s)
  {
    AwayInside(l.iter, l.path, l.names, s.scalars.iterables);
    EvalLeavesAlone(l.iter, e, l.path, l.names, s, quiet);
    var r := EvalIn(l, e, index, s, quiet);
    if !r.Aborted() {
      EnvKept(l.path, l.names, s.scalars.iterables, r.s.scalars.iterables);
    }
  }

  lemma SeqRuns(a: Instr, b: Instr, path: Path, names: seq<string>, s: Ctx, quiet: bool)
    requires Scoped(Seq(a, b), path, names) && EnvOk(path, names, s.scalars.iterables)
    ensures var r, r1 := Eval(Seq(a, b), path, names, s, quiet), Eval(a, path, names, s, false);
      if r1.out != Done(true) then SameEnd(r, r1)
      else EnvOk(path, names, r1.s.scalars.iterables) && SameEnd(r, Eval(b, path, names, r1.s, false))
  {
    Bubbles(Seq(a, b), path, names, s, quiet);
    assert EvalInstr(Seq(a, b), path, names, s, quiet) == EvalSeq(Seq(a, b), path, names, s);
    var r1 := Eval(a, path, names, s, false);
    if r1.out == Done(true) {
      EnvKept(path, names, s.scalars.iterables, r1.s.scalars.iterables);
    }
  }

  lemma SeqUnfolds(l: Loop, a: Instr, b: Instr, index: int, s: Ctx, quiet: bool)
    requires Inside(l, index, s) && Scoped(Seq(a, b), l.path, l.names) && NextFree(a, l.iter)
    ensures var r, r1 := EvalIn(l, Seq(a, b), index, s, quiet), EvalIn(l, a, index, s, false);
      if r1.out != Done(true) then SameEnd(r, r1)
      else Inside(l, index, r1.s) && SameEnd(r, EvalIn(l, b, index, r1.s, false))
  {
    SeqRuns(a, b, l.path, l.names, s, quiet);
    StillInside(l, a, index, s, false);
  }

  /** How `par` ends when its second branch stopped the interpreter or did not fail. */
  predicate ParEnd(r: Run, left: Run, right: Run) {
    && r.s.trace == right.s.trace
    && (right.Aborted() ==> r.out == right.out)
    && (right.out.Done? ==> r.out == Done(left.out == Done(true) || right.out == Done(true)))
  }

  lemma BranchesEnd(left: Run, right: Run)
    ensures ParEnd(if right.Aborted() then right else ParResult(ParBranch(left).out, ParBranch(right)), left, right)
  {
  }

  lemma ParUnfolds(l: Loop, a: Instr, b: Instr, index: int, s: Ctx, quiet: bool)
    requires Inside(l, index, s) && Scoped(Par(a, b), l.path, l.names) && NextFree(a, l.iter)
    ensures var r, left := EvalIn(l, Par(a, b), index, s, quiet), EvalIn(l, a, index, s, Quiet(a));
      if left.Aborted() then SameEnd(r, left)
      else Inside(l, index, ParBranch(left).s) && ParEnd(r, left, EvalIn(l, b, index, ParBranch(left).s, Quiet(b)))
  {
    Bubbles(Par(a, b), l.path, l.names, s, quiet);
    assert EvalInstr(Par(a, b), l.path, l.names, s, quiet) == EvalPar(Par(a, b), l.path, l.names, s);
    ParRuns(l, a, b, index, s);
  }

  lemma ParRuns(l: Loop, a: Instr, b: Instr, index: int, s: Ctx)
    requires Inside(l, index, s) && Scoped(Par(a, b), l.path, l.names) && NextFree(a, l.iter)
    ensures var r, left := EvalPar(Par(a, b), l.path, l.names, s), EvalIn(l, a, index, s, Quiet(a));
      if left.Aborted() then SameEnd(r, left)
      else Inside(l, index, ParBranch(left).s) && ParEnd(r, left, EvalIn(l, b, index, ParBranch(left).s, Quiet(b)))
  {
    var left := EvalIn(l, a, index, s, Quiet(a));
    BranchesRun(a, b, l.path, l.names, s);
    if !left.Aborted() {
      StillInside(l, a, index, s, Quiet(a));
      NotedInside(l, index, left);
      BranchesEnd(left, EvalIn(l, b, index, ParBranch(left).s, Quiet(b)));
    }
  }

  lemma NotedInside(l: Loop, index: int, r: Run)
    requires Inside(l, index, r.s)
    ensures Inside(l, index, ParBranch(r).s)
  {
  }

  lemma BranchesRun(a: Instr, b: Instr, path: Path, names: seq<string>, s: Ctx)
    requires Scoped(Par(a, b), path, names) && EnvOk(path, names, s.scalars.iterables)
    ensures var r, left := EvalPar(Par(a, b), path, names, s), ParBranch(Eval(a, path, names, s, Quiet(a)));
      if left.Aborted() then r == left
      else
        EnvOk(path, names, left.s.scalars.iterables) &&
        var right := Eval(b, path, names, left.s, Quiet(b));
        r == if right.Aborted() then right else ParResult(left.out, ParBranch(right))
  {
    var left := ParBranch(Eval(a, path, names, s, Quiet(a)));
    if !left.Aborted() {
      EnvKept(path, names, s.scalars.iterables, left.s.scalars.iterables);
    }
  }

  /** `next` at the last element does nothing, and before that it runs the body on the next element. */
  lemma NextUnfolds(l: Loop, index: int, s: Ctx, quiet: bool)
    requires Inside(l, index, s)
    ensures var r := EvalIn(l, Next(l.iter), index, s, quiet);
      if index + 1 == |l.items| then r == Run(s, Done(!quiet))
      else
        Inside(l, index + 1, Advance(s, l.iter)) &&
        var inner := EvalIn(l, l.body, index + 1, Advance(s, l.iter), quiet);
        InScope(inner.s.scalars) && SameEnd(r, AfterNext(inner, l.iter))
  {
    Bubbles(Next(l.iter), l.path, l.names, s, quiet);
    assert EvalInstr(Next(l.iter), l.path, l.names, s, quiet) == EvalNext(Next(l.iter), l.path, l.names, s, quiet);
    NextRuns(l, index, s, quiet);
  }

  lemma NextRuns(l: Loop, index: int, s: Ctx, quiet: bool)
    requires Inside(l, index, s)
    ensures var r := EvalNext(Next(l.iter), l.path, l.names, s, quiet);
      if index + 1 == |l.items| then r == Run(s, Done(!quiet))
      else
        Inside(l, index + 1, Advance(s, l.iter)) &&
        var inner := EvalIn(l, l.body, index + 1, Advance(s, l.iter), quiet);
        InScope(inner.s.scalars) && r == AfterNext(inner, l.iter)
  {
    var k := |l.path| - 1;
    assert FoldAt(l.path, l.iter) == k && l.path[..k + 1] == l.path;
    if index + 1 < |l.items| {
      AdvanceEnv(l.iter, l.path, k, l.names, s);
      AfterNextOk(s, l.iter, Eval(l.body, l.path, l.names, Advance(s, l.iter), quiet));
    }
  }

  // ---- lists of visits ----

  /** Tells the visits to the elements of a loop. */
  ghost function Visits(l: Loop, e: Instr, quiet: bool): (Visit, int) -> bool {
    (v, index) => Visited(l, e, v, index, quiet)
  }

  /** Visits to consecutive elements, from `index` on; the first one starts from `s`. */
  ghost predicate VisitsFrom(visits: (Visit, int) -> bool, vs: seq<Visit>, index: int, n: int, s: Ctx) {
    && vs != [] && vs[0].from == s && index + |vs| <= n
    && forall k {:trigger vs[k]} | 0 <= k < |vs| :: visits(vs[k], index + k)
  }

  /** Every visit but the last passes on, whether it is complete, incomplete or failed. */
  ghost predicate PassesOver(vs: seq<Visit>, i: string) {
    forall k {:trigger vs[k]} | 0 <= k < |vs| - 1 :: !vs[k].run.Aborted() && ForwardsInPar(vs[k], vs[k + 1], i)
  }

  /** Every visit but the last is complete. */
  ghost predicate PassesOn(vs: seq<Visit>, i: string) {
    forall k {:trigger vs[k]} | 0 <= k < |vs| - 1 :: vs[k].run.out == Done(true) && Forwards(vs[k], vs[k + 1], i)
  }

  ghost predicate SomeComplete(vs: seq<Visit>) {
    exists k | 0 <= k < |vs| :: vs[k].run.out == Done(true)
  }

  function Final(vs: seq<Visit>): Run
    requires vs != []
  {
    vs[|vs| - 1].run
  }

  lemma Prepend(visits: (Visit, int) -> bool, v: Visit, vs: seq<Visit>, index: int, n: int, s': Ctx)
    requires visits(v, index) && VisitsFrom(visits, vs, index + 1, n, s')
    ensures VisitsFrom(visits, [v] + vs, index, n, v.from)
  {
    var all := [v] + vs;
    forall k {:trigger all[k]} | 0 <= k < |all|
      ensures visits(all[k], index + k)
    {
      if k > 0 {
        assert all[k] == vs[k - 1];
      }
    }
  }

  // ---- par X (next i) ----

  /** How the loop ends: all elements were visited, unless one of them stopped the interpreter. */
  ghost predicate EndsInPar(vs: seq<Visit>, n: int, r: Run)
    requires vs != []
  {
    && r.s.trace == Final(vs).s.trace
    && if Final(vs).Aborted() then r.out == Final(vs).out else |vs| == n && r.out == Done(SomeComplete(vs))
  }

  ghost predicate ParTour(visits: (Visit, int) -> bool, i: string, vs: seq<Visit>, index: int, n: int, s: Ctx, r: Run) {
    VisitsFrom(visits, vs, index, n, s) && PassesOver(vs, i) && EndsInPar(vs, n - index, r)
  }

  lemma PassOver(v: Visit, vs: seq<Visit>, i: string, n: int, inner: Run, r: Run)
    requires vs != [] && PassesOver(vs, i) && !v.run.Aborted() && ForwardsInPar(v, vs[0], i)
    requires EndsInPar(vs, n, inner) && ParEnd(r, v.run, inner)
    ensures PassesOver([v] + vs, i) && EndsInPar([v] + vs, n + 1, r)
  {
    var all := [v] + vs;
    forall k | 0 <= k < |all| - 1
      ensures !all[k].run.Aborted() && ForwardsInPar(all[k], all[k + 1], i)
    {
      if k > 0 {
        assert all[k] == vs[k - 1] && all[k + 1] == vs[k];
      }
    }
    assert Final(all) == Final(vs);
    if !Final(vs).Aborted() {
      if SomeComplete(vs) {
        var k :| 0 <= k < |vs| && vs[k].run.out == Done(true);
        assert all[k + 1] == vs[k];
      }
      if SomeComplete(all) {
        var k :| 0 <= k < |all| && all[k].run.out == Done(true);
        assert k > 0 ==> vs[k - 1] == all[k];
      }
      assert v == all[0];
    }
  }

  /** One level: X for this element, and then the body again for the next one. */
  lemma ParStep(l: Loop, x: Instr, index: int, s: Ctx, quiet: bool)
    requires Inside(l, index, s) && l.body == Par(x, Next(l.iter)) && NextFree(x, l.iter)
    ensures var r, left := EvalIn(l, l.body, index, s, quiet), EvalIn(l, x, index, s, Quiet(x));
      if left.Aborted() then SameEnd(r, left)
      else if index + 1 == |l.items| then r.out == Done(left.out == Done(true)) && r.s.trace == left.s.trace
      else
        Inside(l, index, ParBranch(left).s) &&
        var s' := Advance(ParBranch(left).s, l.iter);
        Inside(l, index + 1, s') && ParEnd(r, left, EvalIn(l, l.body, index + 1, s', true))
  {
    ParUnfolds(l, x, Next(l.iter), index, s, quiet);
    var left := EvalIn(l, x, index, s, Quiet(x));
    if !left.Aborted() {
      NextUnfolds(l, index, ParBranch(left).s, true);
    }
  }

  lemma ParGoesOn(visits: (Visit, int) -> bool, i: string, v: Visit, rest: seq<Visit>, index: int, n: int, s': Ctx,
                  inner: Run, r: Run)
    requires visits(v, index) && !v.run.Aborted()
    requires i in v.run.s.scalars.iterables && s' == Advance(ParBranch(v.run).s, i)
    requires ParTour(visits, i, rest, index + 1, n, s', inner) && ParEnd(r, v.run, inner)
    ensures ParTour(visits, i, [v] + rest, index, n, v.from, r)
  {
    Prepend(visits, v, rest, index, n, s');
    PassOver(v, rest, i, n - index - 1, inner, r);
  }

  lemma ParEnds(visits: (Visit, int) -> bool, i: string, v: Visit, index: int, n: int, r: Run)
    requires visits(v, index) && index < n && r.s.trace == v.run.s.trace
    requires if v.run.Aborted() then r.out == v.run.out else index + 1 == n && r.out == Done(v.run.out == Done(true))
    ensures ParTour(visits, i, [v], index, n, v.from, r)
  {
    assert SomeComplete([v]) <==> [v][0].run.out == Done(true);
  }

  /** From any element on, X runs once for every element, although it may fail for some of them. */
  lemma {:induction false} ParVisitsAll(l: Loop, x: Instr, index: int, s: Ctx, quiet: bool)
    requires Inside(l, index, s) && l.body == Par(x, Next(l.iter)) && NextFree(x, l.iter)
    ensures exists vs ::
      ParTour(Visits(l, x, Quiet(x)), l.iter, vs, index, |l.items|, s, EvalIn(l, l.body, index, s, quiet))
    decreases |l.items| - index
  {
    var r, v := EvalIn(l, l.body, index, s, quiet), Visit(s, EvalIn(l, x, index, s, Quiet(x)));
    var visits, n := Visits(l, x, Quiet(x)), |l.items|;
    assert visits(v, index);
    ParStep(l, x, index, s, quiet);
    if v.run.Aborted() || index + 1 == n {
      ParEnds(visits, l.iter, v, index, n, r);
    } else {
      var s' := Advance(ParBranch(v.run).s, l.iter);
      var inner := EvalIn(l, l.body, index + 1, s', true);
      ParVisitsAll(l, x, index + 1, s', true);
      var rest :| ParTour(visits, l.iter, rest, index + 1, n, s', inner);
      ParGoesOn(visits, l.iter, v, rest, index, n, s', inner, r);
    }
  }

  // ---- seq X (next i) ----

  /** The loop ends the way its last visit did, and if that was complete it was the visit to the last element. */
  predicate EndsInSeq(vs: seq<Visit>, n: int, r: Run)
    requires vs != []
  {
    r.out == Final(vs).out && r.s.trace == Final(vs).s.trace && (r.out == Done(true) ==> |vs| == n)
  }

  ghost predicate SeqTour(visits: (Visit, int) -> bool, i: string, vs: seq<Visit>, index: int, n: int, s: Ctx, r: Run) {
    VisitsFrom(visits, vs, index, n, s) && PassesOn(vs, i) && EndsInSeq(vs, n - index, r)
  }

  lemma PassOn(v: Visit, vs: seq<Visit>, i: string)
    requires vs != [] && PassesOn(vs, i) && v.run.out == Done(true) && Forwards(v, vs[0], i)
    ensures PassesOn([v] + vs, i) && Final([v] + vs) == Final(vs)
  {
    var all := [v] + vs;
    forall k | 0 <= k < |all| - 1
      ensures all[k].run.out == Done(true) && Forwards(all[k], all[k + 1], i)
    {
      if k > 0 {
        assert all[k] == vs[k - 1] && all[k + 1] == vs[k];
      }
    }
  }

  lemma SeqStep(l: Loop, x: Instr, index: int, s: Ctx, quiet: bool)
    requires Inside(l, index, s) && l.body == Seq(x, Next(l.iter)) && NextFree(x, l.iter)
    ensures var r, first := EvalIn(l, l.body, index, s, quiet), EvalIn(l, x, index, s, false);
      if first.out != Done(true) || index + 1 == |l.items| then SameEnd(r, first)
      else
        Inside(l, index, first.s) && Inside(l, index + 1, Advance(first.s, l.iter)) &&
        var inner := EvalIn(l, l.body, index + 1, Advance(first.s, l.iter), false);
        r.out == inner.out && r.s.trace == inner.s.trace
  {
    SeqUnfolds(l, x, Next(l.iter), index, s, quiet);
    var first := EvalIn(l, x, index, s, false);
    if first.out == Done(true) {
      NextUnfolds(l, index, first.s, false);
    }
  }

  lemma SeqEnds(visits: (Visit, int) -> bool, i: string, v: Visit, index: int, n: int, r: Run)
    requires visits(v, index) && index < n && SameEnd(r, v.run) && (v.run.out != Done(true) || index + 1 == n)
    ensures SeqTour(visits, i, [v], index, n, v.from, r)
  {
  }

  lemma SeqGoesOn(visits: (Visit, int) -> bool, i: string, v: Visit, rest: seq<Visit>, index: int, n: int, s': Ctx,
                  inner: Run, r: Run)
    requires visits(v, index) && v.run.out == Done(true)
    requires i in v.run.s.scalars.iterables && s' == Advance(v.run.s, i)
    requires SeqTour(visits, i, rest, index + 1, n, s', inner) && r.out == inner.out && r.s.trace == inner.s.trace
    ensures SeqTour(visits, i, [v] + rest, index, n, v.from, r)
  {
    Prepend(visits, v, rest, index, n, s');
    PassOn(v, rest, i);
  }

  /** From any element on, X runs for one element after the other as long as it is complete. */
  lemma {:induction false} SeqVisits(l: Loop, x: Instr, index: int, s: Ctx, quiet: bool)
    requires Inside(l, index, s) && l.body == Seq(x, Next(l.iter)) && NextFree(x, l.iter)
    ensures exists vs ::
      SeqTour(Visits(l, x, false), l.iter, vs, index, |l.items|, s, EvalIn(l, l.body, index, s, quiet))
    decreases |l.items| - index
  {
    var r, v := EvalIn(l, l.body, index, s, quiet), Visit(s, EvalIn(l, x, index, s, false));
    var visits, n := Visits(l, x, false), |l.items|;
    assert visits(v, index);
    SeqStep(l, x, index, s, quiet);
    if v.run.out != Done(true) || index + 1 == n {
      SeqEnds(visits, l.iter, v, index, n, r);
    } else {
      var s' := Advance(v.run.s, l.iter);
      var inner := EvalIn(l, l.body, index + 1, s', false);
      SeqVisits(l, x, index + 1, s', false);
      var rest :| SeqTour(visits, l.iter, rest, index + 1, n, s', inner);
      SeqGoesOn(visits, l.iter, v, rest, index, n, s', inner, r);
    }
  }

  // ---- seq A (seq (next i) B) ----

  /** Visits to consecutive elements backwards, from the last element on; the first one starts from `s`. */
  ghost predicate VisitsBack(visits: (Visit, int) -> bool, vs: seq<Visit>, n: int, s: Ctx) {
    && vs != [] && vs[0].from == s && |vs| <= n
    && forall k {:trigger vs[k]} | 0 <= k < |vs| :: visits(vs[k], n - 1 - k)
  }

  ghost predicate PassesBack(vs: seq<Visit>, i: string) {
    forall k {:trigger vs[k]} | 0 <= k < |vs| - 1 :: vs[k].run.out == Done(true) && Backwards(vs[k], vs[k + 1], i)
  }

  /**
   * A runs forwards; only if it was complete for all elements, B runs backwards. The
   * loop ends as the last visit did. If all of them were complete it ends in the state
   * left by the last visit, which was one to the element where the loop started.
   */
  ghost predicate Zigzag(visitsA: (Visit, int) -> bool, visitsB: (Visit, int) -> bool, i: string,
                         down: seq<Visit>, up: seq<Visit>, index: int, n: int, s: Ctx, r: Run) {
    && VisitsFrom(visitsA, down, index, n, s) && PassesOn(down, i)
    && if Final(down).out != Done(true) then up == [] && r.out == Final(down).out && r.s.trace == Final(down).s.trace
       else |down| == n - index && Return(visitsB, i, up, index, n, Final(down).s, r)
  }

  ghost predicate Return(visits: (Visit, int) -> bool, i: string, up: seq<Visit>, index: int, n: int, s: Ctx, r: Run) {
    && VisitsBack(visits, up, n, s) && PassesBack(up, i) && |up| <= n - index
    && r.out == Final(up).out && r.s.trace == Final(up).s.trace
    && (r.out == Done(true) ==> |up| == n - index && r == Final(up))
  }

  lemma FirstBack(visits: (Visit, int) -> bool, i: string, v: Visit, n: int, r: Run)
    requires visits(v, n - 1) && n > 0 && SameEnd(r, v.run)
    ensures Return(visits, i, [v], n - 1, n, v.from, r)
  {
  }

  lemma OneMoreBack(visits: (Visit, int) -> bool, i: string, up: seq<Visit>, v: Visit, index: int, n: int, s: Ctx,
                    inner: Run, r: Run)
    requires 0 <= index && visits(v, index) && SameEnd(r, v.run)
    requires Return(visits, i, up, index + 1, n, s, inner) && inner.out == Done(true)
    requires InScope(inner.s.scalars) && v.from == AfterNext(inner, i).s
    ensures Return(visits, i, up + [v], index, n, s, r)
  {
    var all := up + [v];
    forall k {:trigger all[k]} | 0 <= k < |all|
      ensures visits(all[k], n - 1 - k)
    {
      if k < |up| {
        assert all[k] == up[k];
      }
    }
    forall k {:trigger all[k]} | 0 <= k < |all| - 1
      ensures all[k].run.out == Done(true) && Backwards(all[k], all[k + 1], i)
    {
      assert all[k] == up[k];
      assert k + 1 < |up| ==> all[k + 1] == up[k + 1];
    }
  }

  lemma ZigzagEnds(visitsA: (Visit, int) -> bool, visitsB: (Visit, int) -> bool, i: string, v: Visit, w: Option<Visit>,
                   index: int, n: int, r: Run) returns (up: seq<Visit>)
    requires 0 <= index < n && visitsA(v, index)
    requires if v.run.out != Done(true) then SameEnd(r, v.run)
             else index + 1 == n && w.Some? && visitsB(w.value, index) && w.value.from == v.run.s && SameEnd(r, w.value.run)
    ensures Zigzag(visitsA, visitsB, i, [v], up, index, n, v.from, r)
  {
    up := [];
    if v.run.out == Done(true) {
      FirstBack(visitsB, i, w.value, n, r);
      up := [w.value];
    }
  }

  lemma ZigzagGoesOn(visitsA: (Visit, int) -> bool, visitsB: (Visit, int) -> bool, i: string, v: Visit, w: Option<Visit>,
                     down: seq<Visit>, up: seq<Visit>, index: int, n: int, s': Ctx, inner: Run, r: Run)
      returns (up': seq<Visit>)
    requires 0 <= index && visitsA(v, index) && v.run.out == Done(true)
    requires i in v.run.s.scalars.iterables && s' == Advance(v.run.s, i)
    requires Zigzag(visitsA, visitsB, i, down, up, index + 1, n, s', inner) && InScope(inner.s.scalars)
    requires if inner.out != Done(true) then r.out == inner.out && r.s.trace == inner.s.trace
             else w.Some? && visitsB(w.value, index) && w.value.from == AfterNext(inner, i).s && SameEnd(r, w.value.run)
    ensures Zigzag(visitsA, visitsB, i, [v] + down, up', index, n, v.from, r)
  {
    Prepend(visitsA, v, down, index, n, s');
    PassOn(v, down, i);
    up' := up;
    if inner.out == Done(true) {
      OneMoreBack(visitsB, i, up, w.value, index, n, Final(down).s, inner, r);
      up' := up + [w.value];
    }
  }

  lemma AfterIteration(l: Loop, index: int, inner: Run)
    requires 0 <= index && Inside(l, index + 1, inner.s) && inner.out == Done(true) && InScope(inner.s.scalars)
    ensures Inside(l, index, AfterNext(inner, l.iter).s)
  {
    var its := AfterNext(inner, l.iter).s.scalars.iterables;
    assert its == Retreat(inner.s.scalars.iterables, l.iter);
    forall k | 0 <= k < |l.path| && l.path[k].FoldScope?
      ensures FoldOk(l.path, k, l.names, its)
    {
      assert FoldOk(l.path, k, l.names, inner.s.scalars.iterables);
    }
  }

  lemma ZigzagStep(l: Loop, a: Instr, b: Instr, index: int, s: Ctx, quiet: bool)
    requires Inside(l, index, s) && l.body == Seq(a, Seq(Next(l.iter), b)) && NextFree(a, l.iter)
    ensures var r, first := EvalIn(l, l.body, index, s, quiet), EvalIn(l, a, index, s, false);
      && Scoped(b, l.path, l.names)
      && if first.out != Done(true) then SameEnd(r, first)
         else Inside(l, index, first.s) && SameEnd(r, EvalIn(l, Seq(Next(l.iter), b), index, first.s, false))
  {
    assert Scoped(Seq(Next(l.iter), b), l.path, l.names);
    SeqUnfolds(l, a, Seq(Next(l.iter), b), index, s, quiet);
  }

  /** What is left to do after the later elements: B, unless they were incomplete or failed. */
  ghost predicate ThenBack(l: Loop, b: Instr, index: int, inner: Run, r: Run)
    requires Scoped(b, l.path, l.names)
  {
    && InScope(inner.s.scalars)
    && (inner.out != Done(true) ==> r.out == inner.out && r.s.trace == inner.s.trace)
    && (inner.out == Done(true) && Inside(l, index + 1, inner.s) ==>
          Inside(l, index, AfterNext(inner, l.iter).s) &&
          SameEnd(r, EvalIn(l, b, index, AfterNext(inner, l.iter).s, false)))
  }

  lemma ComeBack(l: Loop, b: Instr, index: int, s: Ctx)
    requires Inside(l, index, s) && Scoped(b, l.path, l.names)
    ensures var r := EvalIn(l, Seq(Next(l.iter), b), index, s, false);
      if index + 1 == |l.items| then SameEnd(r, EvalIn(l, b, index, s, false))
      else
        && Inside(l, index + 1, Advance(s, l.iter))
        && ThenBack(l, b, index, EvalIn(l, l.body, index + 1, Advance(s, l.iter), false), r)
  {
    SeqRuns(Next(l.iter), b, l.path, l.names, s, false);
    NextUnfolds(l, index, s, false);
    if index + 1 < |l.items| {
      var inner := EvalIn(l, l.body, index + 1, Advance(s, l.iter), false);
      if inner.out == Done(true) && Inside(l, index + 1, inner.s) {
        AfterIteration(l, index, inner);
      }
    }
  }

  lemma ZigzagNext(l: Loop, a: Instr, b: Instr, index: int, s: Ctx, quiet: bool) returns (s': Ctx, inner: Run)
    requires Inside(l, index, s) && l.body == Seq(a, Seq(Next(l.iter), b)) && NextFree(a, l.iter)
    requires EvalIn(l, a, index, s, false).out == Done(true) && index + 1 < |l.items|
    ensures var first := EvalIn(l, a, index, s, false);
      l.iter in first.s.scalars.iterables && s' == Advance(first.s, l.iter)
    ensures Inside(l, index + 1, s') && inner == EvalIn(l, l.body, index + 1, s', false)
    ensures Scoped(b, l.path, l.names) && ThenBack(l, b, index, inner, EvalIn(l, l.body, index, s, quiet))
  {
    var first := EvalIn(l, a, index, s, false);
    ZigzagStep(l, a, b, index, s, quiet);
    ComeBack(l, b, index, first.s);
    s' := Advance(first.s, l.iter);
    inner := EvalIn(l, l.body, index + 1, s', false);
    SameBack(l, b, index, inner, EvalIn(l, Seq(Next(l.iter), b), index, first.s, false), EvalIn(l, l.body, index, s, quiet));
  }

  lemma SameBack(l: Loop, b: Instr, index: int, inner: Run, r: Run, r': Run)
    requires Scoped(b, l.path, l.names) && ThenBack(l, b, index, inner, r) && SameEnd(r', r)
    ensures ThenBack(l, b, index, inner, r')
  {
  }

  /** The visit of B to this element, if the later elements leave one to make. */
  lemma VisitBack(l: Loop, b: Instr, index: int, inner: Run, r: Run) returns (w: Option<Visit>)
    requires Scoped(b, l.path, l.names) && NextFree(b, l.iter) && ThenBack(l, b, index, inner, r)
    requires inner.out == Done(true) ==> Inside(l, index + 1, inner.s)
    ensures inner.out == Done(true) ==>
      && w.Some? && Visits(l, b, false)(w.value, index) && w.value.from == AfterNext(inner, l.iter).s
      && SameEnd(r, w.value.run) && (r.out == Done(true) ==> Inside(l, index, r.s))
  {
    w := None;
    if inner.out == Done(true) {
      var from := AfterNext(inner, l.iter).s;
      w := Some(Visit(from, EvalIn(l, b, index, from, false)));
      StillInside(l, b, index, from, false);
    }
  }

  /** The only visits from the last element on, or if A is not complete. */
  lemma OnlyVisits(l: Loop, a: Instr, b: Instr, index: int, s: Ctx, quiet: bool) returns (w: Option<Visit>)
    requires Inside(l, index, s) && l.body == Seq(a, Seq(Next(l.iter), b)) && NextFree(a, l.iter) && NextFree(b, l.iter)
    requires EvalIn(l, a, index, s, false).out != Done(true) || index + 1 == |l.items|
    ensures var r, first := EvalIn(l, l.body, index, s, quiet), EvalIn(l, a, index, s, false);
      if first.out != Done(true) then SameEnd(r, first)
      else w.Some? && Visits(l, b, false)(w.value, index) && w.value.from == first.s && SameEnd(r, w.value.run)
           && (r.out == Done(true) ==> Inside(l, index, r.s))
  {
    w := None;
    ZigzagStep(l, a, b, index, s, quiet);
    var first := EvalIn(l, a, index, s, false);
    if first.out == Done(true) {
      ComeBack(l, b, index, first.s);
      StillInside(l, b, index, first.s, false);
      w := Some(Visit(first.s, EvalIn(l, b, index, first.s, false)));
    }
  }

  /**
   * A visits the elements forwards and B visits them backwards, in one nest of
   * recursive calls, and if all that was complete the loop is where it was.
   */
  lemma {:induction false} ZigzagVisits(l: Loop, a: Instr, b: Instr, index: int, s: Ctx, quiet: bool)
    requires Inside(l, index, s) && l.body == Seq(a, Seq(Next(l.iter), b)) && NextFree(a, l.iter) && NextFree(b, l.iter)
    ensures var r := EvalIn(l, l.body, index, s, quiet);
      && (r.out == Done(true) ==> Inside(l, index, r.s))
      && exists down, up :: Zigzag(Visits(l, a, false), Visits(l, b, false), l.iter, down, up, index, |l.items|, s, r)
    decreases |l.items| - index
  {
    var r, v := EvalIn(l, l.body, index, s, quiet), Visit(s, EvalIn(l, a, index, s, false));
    var visitsA, visitsB, n := Visits(l, a, false), Visits(l, b, false), |l.items|;
    assert visitsA(v, index);
    if v.run.out != Done(true) || index + 1 == n {
      var w := OnlyVisits(l, a, b, index, s, quiet);
      var up := ZigzagEnds(visitsA, visitsB, l.iter, v, w, index, n, r);
    } else {
      var s', inner := ZigzagNext(l, a, b, index, s, quiet);
      ZigzagVisits(l, a, b, index + 1, s', false);
      var down, up :| Zigzag(visitsA, visitsB, l.iter, down, up, index + 1, n, s', inner);
      var w := VisitBack(l, b, index, inner, r);
      var up' := ZigzagGoesOn(visitsA, visitsB, l.iter, v, w, down, up, index, n, s', inner, r);
    }
  }

  // ---- whole folds ----

  function LoopOf(e: Instr, items: seq<JValue>, path: Path, names: seq<string>): Loop
    requires e.Fold?
  {
    Loop(e.iter, items, e.body, path + [FoldScope(e.iter)], names)
  }

  /** A fold over elements begins directly inside its loop, at the first element, and ends as its body does. */
  lemma FoldUnfolds(e: Instr, items: seq<JValue>, path: Path, names: seq<string>, s: Ctx, quiet: bool)
    requires e.Fold? && e.last == None && Scoped(e, path, names) && EnvOk(path, names, s.scalars.iterables)
    requires Items(s, e.iterable) == Ok(items) && items != [] && e.iter !in s.scalars.iterables
    ensures var l, s' := LoopOf(e, items, path, names), EnterFold(s, e.iter, FoldState(items, 0, e.body, None));
      Inside(l, 0, s') &&
      var r, inner := Eval(e, path, names, s, quiet), EvalIn(l, e.body, 0, s', quiet);
      r.out == inner.out && r.s.trace == inner.s.trace
  {
    FoldBegins(e, items, path, names, s);
    FoldRuns(e, items, path, names, s, quiet);
    Bubbles(e, path, names, s, quiet);
    assert EvalInstr(e, path, names, s, quiet) == EvalFold(e, path, names, s, quiet);
  }

  lemma FoldBegins(e: Instr, items: seq<JValue>, path: Path, names: seq<string>, s: Ctx)
    requires e.Fold? && e.last == None && Scoped(e, path, names) && EnvOk(path, names, s.scalars.iterables)
    requires items != [] && e.iter !in s.scalars.iterables
    ensures Inside(LoopOf(e, items, path, names), 0, EnterFold(s, e.iter, FoldState(items, 0, e.body, None)))
  {
    FoldEnv(e, items, path, names, s);
    var path' := path + [FoldScope(e.iter)];
    assert path'[..|path'| - 1] == path;
    forall k | 0 <= k < |path|
      ensures path[k] != FoldScope(e.iter)
    {
      assert path[k].FoldScope? ==> FoldOk(path, k, names, s.scalars.iterables);
    }
  }

  lemma FoldRuns(e: Instr, items: seq<JValue>, path: Path, names: seq<string>, s: Ctx, quiet: bool)
    requires e.Fold? && e.last == None && Scoped(e, path, names) && EnvOk(path, names, s.scalars.iterables)
    requires Items(s, e.iterable) == Ok(items) && items != [] && e.iter !in s.scalars.iterables
    ensures var s', path' := EnterFold(s, e.iter, FoldState(items, 0, e.body, None)), path + [FoldScope(e.iter)];
      EnvOk(path', names, s'.scalars.iterables) &&
      var r, inner := EvalFold(e, path, names, s, quiet), Eval(e.body, path', names, s', quiet);
      r.out == inner.out && r.s.trace == inner.s.trace
  {
    FoldEnv(e, items, path, names, s);
    var f := FoldState(items, 0, e.body, e.last);
    LeaveFoldOk(s, e.iter, f, Eval(e.body, path + [FoldScope(e.iter)], names, EnterFold(s, e.iter, f), quiet));
  }

  /**
   * `(fold xs i (par X (next i)))`: X runs for all elements in order, each time from
   * the state the one before left, and the fold is complete exactly when X was
   * complete for some element. It never fails, unless X stops the interpreter.
   */
  lemma FoldPar(e: Instr, x: Instr, items: seq<JValue>, path: Path, names: seq<string>, s: Ctx, quiet: bool)
    requires e.Fold? && e.last == None && e.body == Par(x, Next(e.iter)) && NextFree(x, e.iter)
    requires Scoped(e, path, names) && EnvOk(path, names, s.scalars.iterables)
    requires Items(s, e.iterable) == Ok(items) && items != [] && e.iter !in s.scalars.iterables
    ensures exists vs ::
      ParTour(Visits(LoopOf(e, items, path, names), x, Quiet(x)), e.iter, vs, 0, |items|,
        EnterFold(s, e.iter, FoldState(items, 0, e.body, None)), Eval(e, path, names, s, quiet))
  {
    FoldUnfolds(e, items, path, names, s, quiet);
    var l, s' := LoopOf(e, items, path, names), EnterFold(s, e.iter, FoldState(items, 0, e.body, None));
    ParVisitsAll(l, x, 0, s', quiet);
    var vs :| ParTour(Visits(l, x, Quiet(x)), e.iter, vs, 0, |items|, s', EvalIn(l, e.body, 0, s', quiet));
    assert ParTour(Visits(l, x, Quiet(x)), e.iter, vs, 0, |items|, s', Eval(e, path, names, s, quiet));
  }

  /**
   * `(fold xs i (seq X (next i)))`: X runs for the elements in order up to and
   * including the first one for which it is incomplete or fails; the fold ends like
   * that, and is complete exactly when X was complete for every element.
   */
  lemma FoldSeq(e: Instr, x: Instr, items: seq<JValue>, path: Path, names: seq<string>, s: Ctx, quiet: bool)
    requires e.Fold? && e.last == None && e.body == Seq(x, Next(e.iter)) && NextFree(x, e.iter)
    requires Scoped(e, path, names) && EnvOk(path, names, s.scalars.iterables)
    requires Items(s, e.iterable) == Ok(items) && items != [] && e.iter !in s.scalars.iterables
    ensures exists vs ::
      SeqTour(Visits(LoopOf(e, items, path, names), x, false), e.iter, vs, 0, |items|,
        EnterFold(s, e.iter, FoldState(items, 0, e.body, None)), Eval(e, path, names, s, quiet))
  {
    FoldUnfolds(e, items, path, names, s, quiet);
    var l, s' := LoopOf(e, items, path, names), EnterFold(s, e.iter, FoldState(items, 0, e.body, None));
    SeqVisits(l, x, 0, s', quiet);
    var vs :| SeqTour(Visits(l, x, false), e.iter, vs, 0, |items|, s', EvalIn(l, e.body, 0, s', quiet));
    assert SeqTour(Visits(l, x, false), e.iter, vs, 0, |items|, s', Eval(e, path, names, s, quiet));
  }

  /** How a whole fold over A and B ends: as its last visit did, and complete only after all of them. */
  ghost predicate ZigzagTour(visitsA: (Visit, int) -> bool, visitsB: (Visit, int) -> bool, i: string,
                             down: seq<Visit>, up: seq<Visit>, n: int, s: Ctx, r: Run) {
    && VisitsFrom(visitsA, down, 0, n, s) && PassesOn(down, i)
    && if Final(down).out != Done(true) then up == [] && r.out == Final(down).out && r.s.trace == Final(down).s.trace
       else
         && |down| == n && VisitsBack(visitsB, up, n, Final(down).s) && PassesBack(up, i)
         && r.out == Final(up).out && r.s.trace == Final(up).s.trace && (r.out == Done(true) ==> |up| == n)
  }

  /**
   * `(fold xs i (seq A (seq (next i) B)))`: A runs for the elements in order, and if it
   * was complete for all of them B runs for them in reverse order, each time from the
   * state the run before left; the fold ends as the last of these runs did.
   */
  lemma FoldZigzag(e: Instr, a: Instr, b: Instr, items: seq<JValue>, path: Path, names: seq<string>, s: Ctx, quiet: bool)
    requires e.Fold? && e.last == None && e.body == Seq(a, Seq(Next(e.iter), b)) && NextFree(a, e.iter) && NextFree(b, e.iter)
    requires Scoped(e, path, names) && EnvOk(path, names, s.scalars.iterables)
    requires Items(s, e.iterable) == Ok(items) && items != [] && e.iter !in s.scalars.iterables
    ensures exists down, up ::
      ZigzagTour(Visits(LoopOf(e, items, path, names), a, false), Visits(LoopOf(e, items, path, names), b, false), e.iter,
        down, up, |items|, EnterFold(s, e.iter, FoldState(items, 0, e.body, None)), Eval(e, path, names, s, quiet))
  {
    FoldUnfolds(e, items, path, names, s, quiet);
    var l, s' := LoopOf(e, items, path, names), EnterFold(s, e.iter, FoldState(items, 0, e.body, None));
    ZigzagVisits(l, a, b, 0, s', quiet);
    var visitsA, visitsB := Visits(l, a, false), Visits(l, b, false);
    var down, up :| Zigzag(visitsA, visitsB, e.iter, down, up, 0, |items|, s', EvalIn(l, e.body, 0, s', quiet));
    assert ZigzagTour(visitsA, visitsB, e.iter, down, up, |items|, s', Eval(e, path, names, s, quiet));
  }
}
