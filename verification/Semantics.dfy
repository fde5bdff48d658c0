/**
 * The documented meaning of a script: every instruction takes a state to a state
 * and an outcome, which is complete or incomplete or an error. `par` is complete
 * when one branch is, `xor` when one branch is without an error, `seq` when both
 * are. Here completeness is a result; the interpreter keeps it in a shared flag.
 *
 * `quiet` is how the flag stood on entry when it was lowered: an instruction that
 * does not say anything about completeness itself is then incomplete. It can only
 * be true for a `next` directly under `par`, and for what that `next` runs through
 * `match`, `mismatch`, `new`, `fold` and `next`.
 */
module Semantics {
  import opened Wrappers
  import opened Json
  import opened Errors
  import opened Ast
  import opened State

  // ---- what every run keeps, and why runs end ----

  /** The folds around an instruction are active, and what `next` jumps to is scoped as the parser demands. */
  ghost predicate EnvOk(path: Path, names: seq<string>, its: Iterables) {
    forall k | 0 <= k < |path| && path[k].FoldScope? :: FoldOk(path, k, names, its)
  }

  ghost predicate FoldOk(path: Path, k: nat, names: seq<string>, its: Iterables)
    requires k < |path| && path[k].FoldScope?
  {
    var i := path[k].iter;
    && i in names && i in its && its[i].cursor < |its[i].items|
    && Scoped(its[i].body, path[..k + 1], names)
    && (match its[i].last case None => true case Some(l) => Scoped(l, path[..k], names))
  }

  /** The same fold, not moved back. */
  predicate FoldKept(f: FoldState, f': FoldState) {
    && f'.items == f.items && f'.body == f.body && f'.last == f.last
    && f.cursor <= f'.cursor
    && (f.cursor < |f.items| ==> f'.cursor < |f.items|)
  }

  /** Active folds stay active, over the same elements, and their cursors do not go back. */
  ghost predicate IteratorsKept(its: Iterables, its': Iterables) {
    forall i {:trigger i in its} {:trigger i in its'} ::
      (i in its <==> i in its') && (i in its ==> FoldKept(its[i], its'[i]))
  }

  ghost predicate Deeper(sc: Scalars, sc': Scalars) {
    && sc'.vars.depth >= sc.vars.depth
    && sc'.canonStreams.depth >= sc.canonStreams.depth
    && sc'.canonMaps.depth >= sc.canonMaps.depth
  }

  /** An uncatchable error may leave a fold open; nothing runs after it. */
  ghost predicate RunOk(sc: Scalars, r: Run) {
    && Deeper(sc, r.s.scalars)
    && (!r.Aborted() ==> IteratorsKept(sc.iterables, r.s.scalars.iterables))
  }

  /** How many iterators of the script are not active. */
  ghost function Inactive(names: seq<string>, its: Iterables): nat {
    if names == [] then 0 else (if names[0] in its then 0 else 1) + Inactive(names[1..], its)
  }

  /** How many elements the active folds have ahead of them. */
  ghost function Remaining(names: seq<string>, its: Iterables): nat {
    if names == [] then 0
    else
      var rest := Remaining(names[1..], its);
      if names[0] in its && its[names[0]].cursor < |its[names[0]].items|
      then |its[names[0]].items| - its[names[0]].cursor + rest
      else rest
  }

  lemma {:induction false} KeptMeasure(names: seq<string>, its: Iterables, its': Iterables)
    requires IteratorsKept(its, its')
    ensures Inactive(names, its') == Inactive(names, its)
    ensures Remaining(names, its') <= Remaining(names, its)
  {
    if names != [] {
      KeptMeasure(names[1..], its, its');
    }
  }

  lemma {:induction false} AdvanceMeasure(names: seq<string>, its: Iterables, i: string)
    requires i in its && its[i].cursor + 1 < |its[i].items|
    ensures var its' := its[i := its[i].(cursor := its[i].cursor + 1)];
      && Inactive(names, its') == Inactive(names, its)
      && Remaining(names, its') <= Remaining(names, its)
      && (i in names ==> Remaining(names, its') < Remaining(names, its))
  {
    if names != [] {
      AdvanceMeasure(names[1..], its, i);
    }
  }

  lemma {:induction false} ActivateMeasure(names: seq<string>, its: Iterables, i: string, f: FoldState)
    requires i !in its
    ensures Inactive(names, its[i := f]) <= Inactive(names, its)
    ensures i in names ==> Inactive(names, its[i := f]) < Inactive(names, its)
  {
    if names != [] {
      ActivateMeasure(names[1..], its, i, f);
    }
  }

  lemma EnvKept(path: Path, names: seq<string>, its: Iterables, its': Iterables)
    requires EnvOk(path, names, its) && IteratorsKept(its, its')
    ensures EnvOk(path, names, its')
  {
    forall k | 0 <= k < |path| && path[k].FoldScope?
      ensures FoldOk(path, k, names, its')
    {
      assert FoldOk(path, k, names, its);
    }
  }

  lemma EnvPrefix(path: Path, n: nat, names: seq<string>, its: Iterables)
    requires n <= |path| && EnvOk(path, names, its)
    ensures EnvOk(path[..n], names, its)
  {
    forall k | 0 <= k < n && path[..n][k].FoldScope?
      ensures FoldOk(path[..n], k, names, its)
    {
      assert FoldOk(path, k, names, its);
      assert path[..n][..k] == path[..k] && path[..n][..k + 1] == path[..k + 1];
    }
  }

  lemma EnvOfNew(path: Path, a: NewArgument, span: Streams.Span, names: seq<string>, its: Iterables)
    requires EnvOk(path, names, its)
    ensures EnvOk(path + [NewScope(a, span)], names, its)
    ensures FoldsIn(path + [NewScope(a, span)]) == FoldsIn(path)
  {
    var path' := path + [NewScope(a, span)];
    assert path'[..|path|] == path;
    forall k | 0 <= k < |path'| && path'[k].FoldScope?
      ensures FoldOk(path', k, names, its)
    {
      assert FoldOk(path, k, names, its);
      assert path'[..k] == path[..k] && path'[..k + 1] == path[..k + 1];
    }
  }

  lemma EnvOfFold(path: Path, i: string, f: FoldState, names: seq<string>, its: Iterables)
    requires EnvOk(path, names, its)
    requires i !in its && i in names && f.cursor < |f.items|
    requires Scoped(f.body, path + [FoldScope(i)], names)
    requires match f.last case None => true case Some(l) => Scoped(l, path, names)
    ensures EnvOk(path + [FoldScope(i)], names, its[i := f])
  {
    var path' := path + [FoldScope(i)];
    forall k | 0 <= k < |path'| && path'[k].FoldScope?
      ensures FoldOk(path', k, names, its[i := f])
    {
      if k < |path| {
        assert FoldOk(path, k, names, its);
        assert path'[..k] == path[..k] && path'[..k + 1] == path[..k + 1];
      } else {
        assert path'[..k] == path && path'[..k + 1] == path';
      }
    }
  }

  lemma EnvOfNext(path: Path, k: nat, names: seq<string>, its: Iterables)
    requires EnvOk(path, names, its) && k < |path| && path[k].FoldScope?
    ensures var i := path[k].iter;
      FoldOk(path, k, names, its) && EnvOk(path[..k + 1], names, its) && EnvOk(path[..k], names, its)
      && (its[i].cursor + 1 < |its[i].items| ==>
            EnvOk(path[..k + 1], names, its[i := its[i].(cursor := its[i].cursor + 1)]))
    ensures FoldsIn(path[..k]) < FoldsIn(path)
  {
    var i := path[k].iter;
    assert FoldOk(path, k, names, its);
    EnvPrefix(path, k + 1, names, its);
    EnvPrefix(path, k, names, its);
    FoldsInPrefix(path, k);
    if its[i].cursor + 1 < |its[i].items| {
      EnvKept(path[..k + 1], names, its, its[i := its[i].(cursor := its[i].cursor + 1)]);
    }
  }

  // ---- the evaluator ----

  /** Runs an instruction; an error on its way out may become `%last_error%` and `:error:`. */
  ghost function Eval(e: Instr, path: Path, names: seq<string>, s: Ctx, quiet: bool): (r: Run)
    requires Scoped(e, path, names) && EnvOk(path, names, s.scalars.iterables)
    ensures RunOk(s.scalars, r)
    decreases Inactive(names, s.scalars.iterables), Remaining(names, s.scalars.iterables), FoldsIn(path), e, 3
  {
    var r := EvalInstr(e, path, names, s, quiet);
    if r.out.Failed? && !e.Call? then r.(s := SetErrors(r.s, r.out.error, e, s.peer)) else r
  }

  ghost function EvalInstr(e: Instr, path: Path, names: seq<string>, s: Ctx, quiet: bool): (r: Run)
    requires Scoped(e, path, names) && EnvOk(path, names, s.scalars.iterables)
    ensures RunOk(s.scalars, r)
    decreases Inactive(names, s.scalars.iterables), Remaining(names, s.scalars.iterables), FoldsIn(path), e, 2
  {
    match e
    case Match(_, _, _) => EvalMatch(e, path, names, s, quiet)
    case MisMatch(_, _, _) => EvalMatch(e, path, names, s, quiet)
    case Seq(_, _) => EvalSeq(e, path, names, s)
    case Par(_, _) => EvalPar(e, path, names, s)
    case Xor(_, _) => EvalXor(e, path, names, s)
    case New(_, _, _) => EvalNew(e, path, names, s, quiet)
    case Fold(_, _, _, _) => EvalFold(e, path, names, s, quiet)
    case Next(_) => EvalNext(e, path, names, s, quiet)
    case _ => EvalLeaf(e, s, quiet)
  }

  predicate IsLeaf(e: Instr) {
    !(e.Match? || e.MisMatch? || e.Seq? || e.Par? || e.Xor? || e.New? || e.Fold? || e.Next?)
  }

  /** Instructions without a body. */
  function EvalLeaf(e: Instr, s: Ctx, quiet: bool): (r: Run)
    requires IsLeaf(e)
    ensures SameScopes(s.scalars, r.s.scalars)
  {
    match e
    case Null => Run(s, Done(!quiet))
    case Never => Run(s, Done(false))
    case Ap(_, _) => ApScalar(e, s, quiet)
    case ApStream(_, _, _) => AddToStream(e, s, quiet)
    case ApMap(_, _, _, _) => AddToMap(e, s, quiet)
    case Canon(_, _, _) => CanonizeStream(e, s, quiet)
    case CanonMap(_, _, _) => CanonizeMap(e, s, quiet)
    case Call(_, _, _) => DoCall(e, s, quiet)
    case Fail(_) => DoFail(e, s)
  }

  function Compare(s: Ctx, left: Operand, right: Operand): Result<bool, ExecutionError> {
    match Resolve(s, left)
    case Err(e) => Err(e)
    case Ok(l) =>
      match Resolve(s, right)
      case Err(e) => Err(e)
      case Ok(r) => Ok(l == r)
  }

  ghost function EvalMatch(e: Instr, path: Path, names: seq<string>, s: Ctx, quiet: bool): (r: Run)
    requires e.Match? || e.MisMatch?
    requires Scoped(e, path, names) && EnvOk(path, names, s.scalars.iterables)
    ensures RunOk(s.scalars, r)
    decreases Inactive(names, s.scalars.iterables), Remaining(names, s.scalars.iterables), FoldsIn(path), e, 1
  {
    match Compare(s, e.left, e.right)
    case Err(err) => Join(s, e, err)
    case Ok(equal) =>
      if e.Match? && !equal then Raise(s, e, Catchable(MatchValuesNotEqual))
      else if e.MisMatch? && equal then Raise(s, e, Catchable(MismatchValuesEqual))
      else Eval(e.body, path, names, s, quiet)
  }

  ghost function EvalSeq(e: Instr, path: Path, names: seq<string>, s: Ctx): (r: Run)
    requires e.Seq?
    requires Scoped(e, path, names) && EnvOk(path, names, s.scalars.iterables)
    ensures RunOk(s.scalars, r)
    decreases Inactive(names, s.scalars.iterables), Remaining(names, s.scalars.iterables), FoldsIn(path), e, 1
  {
    var r := Eval(e.first, path, names, s, false);
    if r.out != Done(true) then r
    else
      KeptMeasure(names, s.scalars.iterables, r.s.scalars.iterables);
      EnvKept(path, names, s.scalars.iterables, r.s.scalars.iterables);
      Eval(e.second, path, names, r.s, false)
  }

  /** The error goes no further, and its object stays in `:error:`. */
  function Swallow(s: Ctx): Ctx {
    s.(history := s.history.(residue := Stuck))
  }

  /** A branch that fails leaves the other one to run, and is incomplete. */
  function ParBranch(r: Run): Run {
    if r.out.Failed? && r.out.error.Catchable? then r.(s := Swallow(r.s)) else r
  }

  /** A branch that is a bare `next` counts only if what it runs into says it is complete. */
  function Quiet(branch: Instr): bool {
    branch.Next?
  }

  ghost function EvalPar(e: Instr, path: Path, names: seq<string>, s: Ctx): (r: Run)
    requires e.Par?
    requires Scoped(e, path, names) && EnvOk(path, names, s.scalars.iterables)
    ensures RunOk(s.scalars, r)
    decreases Inactive(names, s.scalars.iterables), Remaining(names, s.scalars.iterables), FoldsIn(path), e, 1
  {
    var left := ParBranch(Eval(e.first, path, names, s, Quiet(e.first)));
    if left.Aborted() then left
    else
      KeptMeasure(names, s.scalars.iterables, left.s.scalars.iterables);
      EnvKept(path, names, s.scalars.iterables, left.s.scalars.iterables);
      var right := ParBranch(Eval(e.second, path, names, left.s, Quiet(e.second)));
      if right.Aborted() then right else ParResult(left.out, right)
  }

  function ParResult(left: Outcome, right: Run): Run {
    if left.Failed? && right.out.Failed? then right
    else
      Run(right.s.(lastError := right.s.lastError.(canBeSet := true)),
          Done(left == Done(true) || right.out == Done(true)))
  }

  function CatchError(s: Ctx, c: CatchableError): Ctx {
    s.(lastError := s.lastError.(canBeSet := true),
       error := Descriptor(s.error.error.(origCatchable := Some(c)), true),
       history := s.history.(residue := Clean))
  }

  /**
   * Afterwards a handler that went through leaves no error, unless one is stuck. If it
   * did not go through because it threw the caught error again, that is the error that
   * was raised before; `caught` is the state the handler started from.
   */
  function LeaveHandler(s: Ctx, out: Outcome, caught: Ctx): Ctx {
    var cleared := ClearIfSettable(s.error);
    if out.Done? then
      s.(error := cleared.(canBeSet := true),
         history := s.history.(residue := if s.history.residue.Stuck? then Loose else Clean))
    else
      s.(error := cleared, history := s.history.(raised := Traced(s.history.raised, caught)))
  }

  function Traced(raised: Raised, caught: Ctx): Raised {
    if raised.Rethrown? && raised.before.error == caught.error.error then caught.history.raised else raised
  }

  ghost function EvalXor(e: Instr, path: Path, names: seq<string>, s: Ctx): (r: Run)
    requires e.Xor?
    requires Scoped(e, path, names) && EnvOk(path, names, s.scalars.iterables)
    ensures RunOk(s.scalars, r)
    decreases Inactive(names, s.scalars.iterables), Remaining(names, s.scalars.iterables), FoldsIn(path), e, 1
  {
    var r := Eval(e.first, path, names, s, false);
    if r.out.Done? || r.Aborted() then r
    else
      KeptMeasure(names, s.scalars.iterables, r.s.scalars.iterables);
      EnvKept(path, names, s.scalars.iterables, r.s.scalars.iterables);
      var caught := CatchError(r.s, r.out.error.c);
      var handler := Eval(e.second, path, names, caught, false);
      handler.(s := LeaveHandler(handler.s, handler.out, caught))
  }

  ghost function EvalNew(e: Instr, path: Path, names: seq<string>, s: Ctx, quiet: bool): (r: Run)
    requires e.New?
    requires Scoped(e, path, names) && EnvOk(path, names, s.scalars.iterables)
    ensures RunOk(s.scalars, r)
    decreases Inactive(names, s.scalars.iterables), Remaining(names, s.scalars.iterables), FoldsIn(path), e, 1
  {
    EnvOfNew(path, e.argument, e.span, names, s.scalars.iterables);
    var r := Eval(e.body, path + [NewScope(e.argument, e.span)], names, OpenNew(s, e.argument, e.span), quiet);
    AfterNewOk(s, e.argument, e.span, r);
    AfterNew(s, e.argument, e.span, r)
  }

  /** The scope is closed whatever happened; the error of the body goes first, unless closing stops everything. */
  function AfterNew(s: Ctx, a: NewArgument, span: Streams.Span, r: Run): Run {
    var (s', err) := CloseNew(NoteEnd(s, r.s, a, span), a);
    if err.Some? && (err.value.Panic? || r.out.Done?) then Run(s', Failed(Uncatchable(err.value))) else Run(s', r.out)
  }

  lemma AfterNewOk(s: Ctx, a: NewArgument, span: Streams.Span, r: Run)
    requires RunOk(OpenNew(s, a, span).scalars, r)
    ensures RunOk(s.scalars, AfterNew(s, a, span, r))
  {
  }

  function EnterFold(s: Ctx, i: string, f: FoldState): Ctx {
    s.(scalars := MeetFoldStart(s.scalars).(iterables := s.scalars.iterables[i := f]))
  }

  function LeaveFold(s: Ctx, i: string): Ctx
    requires InScope(s.scalars)
  {
    s.(scalars := MeetFoldEnd(s.scalars.(iterables := s.scalars.iterables - {i})))
  }

  ghost function EvalFold(e: Instr, path: Path, names: seq<string>, s: Ctx, quiet: bool): (r: Run)
    requires e.Fold?
    requires Scoped(e, path, names) && EnvOk(path, names, s.scalars.iterables)
    ensures RunOk(s.scalars, r)
    decreases Inactive(names, s.scalars.iterables), Remaining(names, s.scalars.iterables), FoldsIn(path), e, 1
  {
    match Items(s, e.iterable)
    case Err(err) => Join(s, e, err)
    case Ok(items) =>
      if items == [] then Run(s, Done(!quiet)) else EvalItems(e, items, path, names, s, quiet)
  }

  lemma FoldEnv(e: Instr, items: seq<JValue>, path: Path, names: seq<string>, s: Ctx)
    requires e.Fold? && items != [] && e.iter !in s.scalars.iterables
    requires Scoped(e, path, names) && EnvOk(path, names, s.scalars.iterables)
    ensures var its := EnterFold(s, e.iter, FoldState(items, 0, e.body, e.last)).scalars.iterables;
      && EnvOk(path + [FoldScope(e.iter)], names, its)
      && Inactive(names, its) < Inactive(names, s.scalars.iterables)
  {
    var f := FoldState(items, 0, e.body, e.last);
    ActivateMeasure(names, s.scalars.iterables, e.iter, f);
    EnvOfFold(path, e.iter, f, names, s.scalars.iterables);
  }

  /** An iterator that is already active stops the run, leaving the scope just opened. */
  ghost function EvalItems(e: Instr, items: seq<JValue>, path: Path, names: seq<string>, s: Ctx, quiet: bool): (r: Run)
    requires e.Fold? && items != []
    requires Scoped(e, path, names) && EnvOk(path, names, s.scalars.iterables)
    ensures RunOk(s.scalars, r)
    decreases Inactive(names, s.scalars.iterables), Remaining(names, s.scalars.iterables), FoldsIn(path), e, 0
  {
    if e.iter in s.scalars.iterables then
      Run(s.(scalars := MeetFoldStart(s.scalars)), Failed(Uncatchable(MultipleIterableValues(e.iter))))
    else
      var f := FoldState(items, 0, e.body, e.last);
      FoldEnv(e, items, path, names, s);
      var r := Eval(e.body, path + [FoldScope(e.iter)], names, EnterFold(s, e.iter, f), quiet);
      LeaveFoldOk(s, e.iter, f, r);
      r.(s := LeaveFold(r.s, e.iter))
  }

  lemma LeaveFoldOk(s: Ctx, i: string, f: FoldState, r: Run)
    requires i !in s.scalars.iterables && RunOk(EnterFold(s, i, f).scalars, r)
    ensures InScope(r.s.scalars) && RunOk(s.scalars, r.(s := LeaveFold(r.s, i)))
  {
  }

  function Advance(s: Ctx, i: string): Ctx
    requires i in s.scalars.iterables
  {
    var f := s.scalars.iterables[i];
    s.(scalars := MeetNextBefore(s.scalars.(iterables := s.scalars.iterables[i := f.(cursor := f.cursor + 1)])))
  }

  /** The scope is closed in any case; the cursor goes back only if there was no error. */
  function Retreat(its: Iterables, i: string): Iterables {
    if i in its && its[i].cursor >= 1 then its[i := its[i].(cursor := its[i].cursor - 1)] else its
  }

  function AfterNext(r: Run, i: string): Run
    requires InScope(r.s.scalars)
  {
    var sc := MeetNextAfter(r.s.scalars);
    if r.out.Failed? then Run(r.s.(scalars := sc, history := r.s.history.(nextFailed := true)), r.out)
    else Run(r.s.(scalars := sc.(iterables := Retreat(sc.iterables, i))), r.out)
  }

  ghost function EvalNext(e: Instr, path: Path, names: seq<string>, s: Ctx, quiet: bool): (r: Run)
    requires e.Next?
    requires Scoped(e, path, names) && EnvOk(path, names, s.scalars.iterables)
    ensures RunOk(s.scalars, r)
    decreases Inactive(names, s.scalars.iterables), Remaining(names, s.scalars.iterables), FoldsIn(path), e, 1
  {
    var k := FoldAt(path, e.iter);
    EnvOfNext(path, k, names, s.scalars.iterables);
    if CanAdvance(s.scalars.iterables, e.iter) then EvalIteration(e.iter, path, k, names, s, quiet)
    else
      match s.scalars.iterables[e.iter].last
      case None => Run(s, Done(!quiet))
      case Some(l) => Eval(l, path[..k], names, s, false)
  }

  predicate CanAdvance(its: Iterables, i: string) {
    i in its && its[i].cursor + 1 < |its[i].items|
  }

  lemma AdvanceEnv(i: string, path: Path, k: nat, names: seq<string>, s: Ctx)
    requires k < |path| && path[k] == FoldScope(i) && EnvOk(path, names, s.scalars.iterables)
    requires CanAdvance(s.scalars.iterables, i)
    ensures Scoped(s.scalars.iterables[i].body, path[..k + 1], names)
    ensures EnvOk(path[..k + 1], names, Advance(s, i).scalars.iterables)
    ensures Inactive(names, Advance(s, i).scalars.iterables) == Inactive(names, s.scalars.iterables)
    ensures Remaining(names, Advance(s, i).scalars.iterables) < Remaining(names, s.scalars.iterables)
  {
    EnvOfNext(path, k, names, s.scalars.iterables);
    AdvanceMeasure(names, s.scalars.iterables, i);
  }

  /** Runs the body of the fold at `path[k]` on the next element. */
  ghost function EvalIteration(i: string, path: Path, k: nat, names: seq<string>, s: Ctx, quiet: bool): (r: Run)
    requires k < |path| && path[k] == FoldScope(i) && EnvOk(path, names, s.scalars.iterables)
    requires CanAdvance(s.scalars.iterables, i)
    ensures RunOk(s.scalars, r)
    decreases Inactive(names, s.scalars.iterables), Remaining(names, s.scalars.iterables), 0
  {
    AdvanceEnv(i, path, k, names, s);
    var r := Eval(s.scalars.iterables[i].body, path[..k + 1], names, Advance(s, i), quiet);
    AfterNextOk(s, i, r);
    AfterNext(r, i)
  }

  lemma AfterNextOk(s: Ctx, i: string, r: Run)
    requires i in s.scalars.iterables && s.scalars.iterables[i].cursor + 1 < |s.scalars.iterables[i].items|
    requires RunOk(Advance(s, i).scalars, r)
    ensures InScope(r.s.scalars) && RunOk(s.scalars, AfterNext(r, i))
  {
    NextDepths(s.scalars, r.s.scalars);
    if !r.Aborted() {
      RetreatKept(s.scalars.iterables, i, r.s.scalars.iterables);
    }
  }

  lemma NextDepths(sc: Scalars, inner: Scalars)
    requires Deeper(MeetNextBefore(sc), inner)
    ensures InScope(inner) && Deeper(sc, MeetNextAfter(inner)) && MeetNextAfter(inner).iterables == inner.iterables
  {
  }

  /** A cursor that was moved on and did not go back since is not behind, even after one step back. */
  lemma RetreatKept(its: Iterables, i: string, its': Iterables)
    requires i in its && its[i].cursor + 1 < |its[i].items|
    requires IteratorsKept(its[i := its[i].(cursor := its[i].cursor + 1)], its')
    ensures IteratorsKept(its, its')
    ensures IteratorsKept(its, Retreat(its', i))
  {
    assert i in its[i := its[i].(cursor := its[i].cursor + 1)];
  }
}
