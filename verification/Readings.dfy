/**
 * What iterators read. In a script that never sets a variable of the name of one of its
 * iterators, an iterator reads the element its fold is at, in every run; the source's
 * claim that a name cannot be an iterator and a variable at once holds; and the visits
 * of whole folds read the elements in order.
 */
module Readings {
  import opened Wrappers
  import opened Json
  import opened Errors
  import opened Ast
  import opened State
  import opened Semantics
  import opened Iterations
  import opened Loops
  import M = SparseMatrix
  import S = Streams

  // ---- names ----

  /** No instruction in `e` sets one of these names, or resets it by `new`. */
  predicate Apart(e: Instr, names: seq<string>) {
    match e
    case Ap(_, x) => x !in names
    case Call(_, _, output) => output.None? || output.value !in names
    case New(a, _, body) => (a.NewScalar? ==> a.name !in names) && Apart(body, names)
    case Fold(_, _, body, last) => Apart(body, names) && (match last case None => true case Some(l) => Apart(l, names))
    case Match(_, _, body) => Apart(body, names)
    case MisMatch(_, _, body) => Apart(body, names)
    case Seq(a, b) => Apart(a, names) && Apart(b, names)
    case Par(a, b) => Apart(a, names) && Apart(b, names)
    case Xor(a, b) => Apart(a, names) && Apart(b, names)
    case _ => true
  }

  predicate ApartFold(f: FoldState, names: seq<string>) {
    Apart(f.body, names) && (match f.last case None => true case Some(l) => Apart(l, names))
  }

  /** No variable has one of these names, all iterators do, and what they jump to sets none. */
  ghost predicate NamesApart(names: seq<string>, sc: Scalars) {
    && (forall i {:trigger i in sc.vars.cells} :: i in sc.vars.cells ==> i !in names)
    && (forall i {:trigger i in sc.iterables} :: i in sc.iterables ==> i in names && ApartFold(sc.iterables[i], names))
  }

  predicate Clashes(r: Run) {
    r.out == Failed(Uncatchable(Panic(IterableAndScalar)))
  }

  ghost predicate StaysApart(names: seq<string>, r: Run) {
    NamesApart(names, r.s.scalars) && !Clashes(r)
  }

  // ---- what an iterator reads ----

  /** An iterator reads the current element of its fold, if no variable has its name. */
  lemma IteratorReads(l: Loop, index: int, s: Ctx)
    requires Inside(l, index, s) && M.Get(s.scalars.vars, l.iter).Err?
    ensures GetValue(s.scalars, l.iter) == Ok(l.items[index]) && Resolve(s, Scalar(l.iter)) == Ok(l.items[index])
  {
  }

  /** Otherwise the variable and the iterator are in each other's way. */
  lemma IteratorIsHidden(l: Loop, index: int, s: Ctx)
    requires Inside(l, index, s)
    ensures GetValue(s.scalars, l.iter) == Ok(l.items[index]) <==> M.Get(s.scalars.vars, l.iter).Err?
    ensures GetValue(s.scalars, l.iter) == Err(Uncatchable(Panic(IterableAndScalar))) <==>
      M.Get(s.scalars.vars, l.iter).Ok? && M.Get(s.scalars.vars, l.iter).value.Some?
  {
  }

  lemma ValueDoesNotClash(names: seq<string>, sc: Scalars, x: string)
    requires NamesApart(names, sc)
    ensures GetValue(sc, x).Err? ==> GetValue(sc, x).error.Catchable?
  {
  }

  lemma OperandDoesNotClash(names: seq<string>, s: Ctx, o: Operand)
    requires NamesApart(names, s.scalars)
    ensures Resolve(s, o).Err? ==> Resolve(s, o).error.Catchable?
  {
    if o.Scalar? {
      ValueDoesNotClash(names, s.scalars, o.name);
    }
  }

  lemma {:induction false} OperandsDoNotClash(names: seq<string>, s: Ctx, operands: seq<Operand>)
    requires NamesApart(names, s.scalars)
    ensures ResolveAll(s, operands).Err? ==> ResolveAll(s, operands).error.Catchable?
  {
    if operands != [] {
      OperandDoesNotClash(names, s, operands[0]);
      OperandsDoNotClash(names, s, operands[1..]);
    }
  }

  // ---- steps ----

  lemma SetApart(names: seq<string>, s: Ctx, x: string, v: JValue)
    requires NamesApart(names, s.scalars) && x !in names
    ensures match SetScalar(s, x, v)
      case Ok(s') => NamesApart(names, s'.scalars)
      case Err(e) => e == Uncatchable(UncatchableError.ShadowingIsNotAllowed(x))
  {
  }

  lemma LeafApart(names: seq<string>, e: Instr, s: Ctx, quiet: bool)
    requires IsLeaf(e) && Apart(e, names) && NamesApart(names, s.scalars)
    ensures StaysApart(names, EvalLeaf(e, s, quiet))
  {
    match e {
      case Ap(v, x) => ApApart(names, e, s, quiet);
      case ApStream(v, _, _) => OperandDoesNotClash(names, s, v);
      case ApMap(_, _, _, _) => MapApart(names, e, s, quiet);
      case CanonMap(_, _, _) => CanonMapApart(names, e, s, quiet);
      case Call(_, _, _) => CallApart(names, e, s, quiet);
      case Fail(_) => FailApart(names, e, s);
      case _ =>
    }
  }

  lemma ApApart(names: seq<string>, e: Instr, s: Ctx, quiet: bool)
    requires e.Ap? && Apart(e, names) && NamesApart(names, s.scalars)
    ensures StaysApart(names, ApScalar(e, s, quiet))
  {
    OperandDoesNotClash(names, s, e.value);
    if Resolve(s, e.value).Ok? {
      SetApart(names, s, e.scalar, Resolve(s, e.value).value);
    }
  }

  lemma MapApart(names: seq<string>, e: Instr, s: Ctx, quiet: bool)
    requires e.ApMap? && NamesApart(names, s.scalars)
    ensures StaysApart(names, AddToMap(e, s, quiet))
  {
    OperandDoesNotClash(names, s, e.value);
    if e.key.KeyScalar? {
      ValueDoesNotClash(names, s.scalars, e.key.name);
    }
  }

  lemma CanonMapApart(names: seq<string>, e: Instr, s: Ctx, quiet: bool)
    requires e.CanonMap? && NamesApart(names, s.scalars)
    ensures StaysApart(names, CanonizeMap(e, s, quiet))
  {
  }

  lemma FailApart(names: seq<string>, e: Instr, s: Ctx)
    requires e.Fail? && NamesApart(names, s.scalars)
    ensures StaysApart(names, DoFail(e, s))
  {
    if e.what.FailScalar? {
      ValueDoesNotClash(names, s.scalars, e.what.name);
    }
    if e.what.FailError? {
      RethrowApart(names, e, s);
    }
  }

  lemma RethrowApart(names: seq<string>, e: Instr, s: Ctx)
    requires NamesApart(names, s.scalars)
    ensures StaysApart(names, FailWithError(s, e))
  {
  }

  lemma CallApart(names: seq<string>, e: Instr, s: Ctx, quiet: bool)
    requires e.Call? && Apart(e, names) && NamesApart(names, s.scalars)
    ensures StaysApart(names, DoCall(e, s, quiet))
  {
    OperandsDoNotClash(names, s, e.args);
    if e.output.Some? {
      ValueDoesNotClash(names, s.scalars, e.output.value);
    }
    var args := ResolveAll(s, e.args);
    if CheckOutput(s, e.output).Ok? && !(args.Err? && !args.error.IsJoinable()) {
      var reply := if s.replies == [] then NotMet else s.replies[0];
      AnswerApart(names, e, s.(replies := if s.replies == [] then [] else s.replies[1..]), args, reply, quiet);
    }
  }

  lemma AnswerApart(names: seq<string>, e: Instr, s: Ctx, args: Result<seq<JValue>, ExecutionError>, reply: Reply, quiet: bool)
    requires e.Call? && Apart(e, names) && NamesApart(names, s.scalars)
    ensures StaysApart(names, Answer(e, s, args, reply, quiet))
  {
    if e.output.Some? && reply.Executed? {
      SetApart(names, s, e.output.value, reply.value);
    }
  }

  lemma OpenApart(names: seq<string>, s: Ctx, a: NewArgument, span: S.Span)
    requires NamesApart(names, s.scalars) && (a.NewScalar? ==> a.name !in names)
    ensures NamesApart(names, OpenNew(s, a, span).scalars)
  {
  }

  lemma CloseApart(names: seq<string>, s: Ctx, a: NewArgument, span: S.Span, r: Run)
    requires StaysApart(names, r)
    ensures StaysApart(names, AfterNew(s, a, span, r))
  {
  }

  lemma EnterApart(names: seq<string>, s: Ctx, i: string, f: FoldState)
    requires NamesApart(names, s.scalars) && i in names && ApartFold(f, names)
    ensures NamesApart(names, EnterFold(s, i, f).scalars)
  {
  }

  lemma LeaveApart(names: seq<string>, r: Run, i: string)
    requires StaysApart(names, r) && InScope(r.s.scalars)
    ensures StaysApart(names, r.(s := LeaveFold(r.s, i)))
  {
  }

  lemma AdvanceApart(names: seq<string>, s: Ctx, i: string)
    requires NamesApart(names, s.scalars) && i in s.scalars.iterables
    ensures NamesApart(names, Advance(s, i).scalars) && ApartFold(s.scalars.iterables[i], names)
  {
  }

  lemma StepApart(names: seq<string>, r: Run, i: string)
    requires StaysApart(names, r) && InScope(r.s.scalars)
    ensures StaysApart(names, AfterNext(r, i))
  {
  }

  lemma RecordedApart(names: seq<string>, e: Instr, r: Run, peer: string)
    requires StaysApart(names, r)
    ensures StaysApart(names, if r.out.Failed? && !e.Call? then r.(s := SetErrors(r.s, r.out.error, e, peer)) else r)
  {
  }

  // ---- every run ----

  lemma {:induction false} EvalStaysApart(e: Instr, path: Path, names: seq<string>, s: Ctx, quiet: bool)
    requires Scoped(e, path, names) && EnvOk(path, names, s.scalars.iterables)
    requires Apart(e, names) && NamesApart(names, s.scalars)
    ensures StaysApart(names, Eval(e, path, names, s, quiet))
    decreases Inactive(names, s.scalars.iterables), Remaining(names, s.scalars.iterables), FoldsIn(path), e, 3
  {
    InstrStaysApart(e, path, names, s, quiet);
    RecordedApart(names, e, EvalInstr(e, path, names, s, quiet), s.peer);
  }

  lemma {:induction false} InstrStaysApart(e: Instr, path: Path, names: seq<string>, s: Ctx, quiet: bool)
    requires Scoped(e, path, names) && EnvOk(path, names, s.scalars.iterables)
    requires Apart(e, names) && NamesApart(names, s.scalars)
    ensures StaysApart(names, EvalInstr(e, path, names, s, quiet))
    decreases Inactive(names, s.scalars.iterables), Remaining(names, s.scalars.iterables), FoldsIn(path), e, 2
  {
    var r := EvalInstr(e, path, names, s, quiet);
    match e {
      case Match(_, _, _) => MatchStaysApart(e, path, names, s, quiet); assert r == EvalMatch(e, path, names, s, quiet);
      case MisMatch(_, _, _) => MatchStaysApart(e, path, names, s, quiet); assert r == EvalMatch(e, path, names, s, quiet);
      case Seq(_, _) => SeqStaysApart(e, path, names, s); assert r == EvalSeq(e, path, names, s);
      case Par(_, _) => ParStaysApart(e, path, names, s); assert r == EvalPar(e, path, names, s);
      case Xor(_, _) => XorStaysApart(e, path, names, s); assert r == EvalXor(e, path, names, s);
      case New(_, _, _) => NewStaysApart(e, path, names, s, quiet); assert r == EvalNew(e, path, names, s, quiet);
      case Fold(_, _, _, _) => FoldStaysApart(e, path, names, s, quiet); assert r == EvalFold(e, path, names, s, quiet);
      case Next(_) => NextStaysApart(e, path, names, s, quiet); assert r == EvalNext(e, path, names, s, quiet);
      case _ => LeafApart(names, e, s, quiet); assert r == EvalLeaf(e, s, quiet);
    }
  }

  lemma {:induction false} MatchStaysApart(e: Instr, path: Path, names: seq<string>, s: Ctx, quiet: bool)
    requires e.Match? || e.MisMatch?
    requires Scoped(e, path, names) && EnvOk(path, names, s.scalars.iterables)
    requires Apart(e, names) && NamesApart(names, s.scalars)
    ensures StaysApart(names, EvalMatch(e, path, names, s, quiet))
    decreases Inactive(names, s.scalars.iterables), Remaining(names, s.scalars.iterables), FoldsIn(path), e, 1
  {
    OperandDoesNotClash(names, s, e.left);
    OperandDoesNotClash(names, s, e.right);
    EvalStaysApart(e.body, path, names, s, quiet);
  }

  /** A second instruction, run from a state with the scalars the first one left. */
  lemma {:induction false} SecondStaysApart(e: Instr, path: Path, names: seq<string>, s: Ctx, s1: Ctx, s2: Ctx, quiet: bool)
    requires EnvOk(path, names, s.scalars.iterables) && IteratorsKept(s.scalars.iterables, s1.scalars.iterables)
    requires Scoped(e, path, names) && Apart(e, names) && NamesApart(names, s1.scalars) && s2.scalars == s1.scalars
    ensures EnvOk(path, names, s2.scalars.iterables)
    ensures StaysApart(names, Eval(e, path, names, s2, quiet))
    decreases Inactive(names, s.scalars.iterables), Remaining(names, s.scalars.iterables), FoldsIn(path), e, 4
  {
    KeptMeasure(names, s.scalars.iterables, s2.scalars.iterables);
    EnvKept(path, names, s.scalars.iterables, s2.scalars.iterables);
    EvalStaysApart(e, path, names, s2, quiet);
  }

  lemma {:induction false} SeqStaysApart(e: Instr, path: Path, names: seq<string>, s: Ctx)
    requires e.Seq?
    requires Scoped(e, path, names) && EnvOk(path, names, s.scalars.iterables)
    requires Apart(e, names) && NamesApart(names, s.scalars)
    ensures StaysApart(names, EvalSeq(e, path, names, s))
    decreases Inactive(names, s.scalars.iterables), Remaining(names, s.scalars.iterables), FoldsIn(path), e, 1
  {
    EvalStaysApart(e.first, path, names, s, false);
    var r := Eval(e.first, path, names, s, false);
    if r.out == Done(true) {
      SecondStaysApart(e.second, path, names, s, r.s, r.s, false);
    }
  }

  lemma {:induction false} ParStaysApart(e: Instr, path: Path, names: seq<string>, s: Ctx)
    requires e.Par?
    requires Scoped(e, path, names) && EnvOk(path, names, s.scalars.iterables)
    requires Apart(e, names) && NamesApart(names, s.scalars)
    ensures StaysApart(names, EvalPar(e, path, names, s))
    decreases Inactive(names, s.scalars.iterables), Remaining(names, s.scalars.iterables), FoldsIn(path), e, 1
  {
    EvalStaysApart(e.first, path, names, s, Quiet(e.first));
    BranchesRun(e.first, e.second, path, names, s);
    var left := Eval(e.first, path, names, s, Quiet(e.first));
    if !left.Aborted() {
      SecondStaysApart(e.second, path, names, s, left.s, ParBranch(left).s, Quiet(e.second));
      ParKeepsApart(names, ParBranch(left).out, Eval(e.second, path, names, ParBranch(left).s, Quiet(e.second)));
    }
  }

  lemma ParKeepsApart(names: seq<string>, left: Outcome, right: Run)
    requires StaysApart(names, right)
    ensures StaysApart(names, ParBranch(right))
    ensures !right.Aborted() ==> StaysApart(names, ParResult(left, ParBranch(right)))
  {
  }

  lemma {:induction false} XorStaysApart(e: Instr, path: Path, names: seq<string>, s: Ctx)
    requires e.Xor?
    requires Scoped(e, path, names) && EnvOk(path, names, s.scalars.iterables)
    requires Apart(e, names) && NamesApart(names, s.scalars)
    ensures StaysApart(names, EvalXor(e, path, names, s))
    decreases Inactive(names, s.scalars.iterables), Remaining(names, s.scalars.iterables), FoldsIn(path), e, 1
  {
    EvalStaysApart(e.first, path, names, s, false);
    var r := Eval(e.first, path, names, s, false);
    if r.out.Failed? && !r.Aborted() {
      SecondStaysApart(e.second, path, names, s, r.s, CatchError(r.s, r.out.error.c), false);
    }
  }

  lemma {:induction false} NewStaysApart(e: Instr, path: Path, names: seq<string>, s: Ctx, quiet: bool)
    requires e.New?
    requires Scoped(e, path, names) && EnvOk(path, names, s.scalars.iterables)
    requires Apart(e, names) && NamesApart(names, s.scalars)
    ensures StaysApart(names, EvalNew(e, path, names, s, quiet))
    decreases Inactive(names, s.scalars.iterables), Remaining(names, s.scalars.iterables), FoldsIn(path), e, 1
  {
    EnvOfNew(path, e.argument, e.span, names, s.scalars.iterables);
    OpenApart(names, s, e.argument, e.span);
    var path', s' := path + [NewScope(e.argument, e.span)], OpenNew(s, e.argument, e.span);
    EvalStaysApart(e.body, path', names, s', quiet);
    CloseApart(names, s, e.argument, e.span, Eval(e.body, path', names, s', quiet));
  }

  lemma {:induction false} FoldStaysApart(e: Instr, path: Path, names: seq<string>, s: Ctx, quiet: bool)
    requires e.Fold?
    requires Scoped(e, path, names) && EnvOk(path, names, s.scalars.iterables)
    requires Apart(e, names) && NamesApart(names, s.scalars)
    ensures StaysApart(names, EvalFold(e, path, names, s, quiet))
    decreases Inactive(names, s.scalars.iterables), Remaining(names, s.scalars.iterables), FoldsIn(path), e, 1
  {
    var items := Items(s, e.iterable);
    if e.iterable.OverScalar? {
      ValueDoesNotClash(names, s.scalars, e.iterable.name);
    }
    if items.Ok? && items.value != [] && e.iter !in s.scalars.iterables {
      ItemsStayApart(e, items.value, path, names, s, quiet);
    }
  }

  lemma {:induction false} ItemsStayApart(e: Instr, items: seq<JValue>, path: Path, names: seq<string>, s: Ctx, quiet: bool)
    requires e.Fold? && items != [] && e.iter !in s.scalars.iterables
    requires Scoped(e, path, names) && EnvOk(path, names, s.scalars.iterables)
    requires Apart(e, names) && NamesApart(names, s.scalars)
    ensures StaysApart(names, EvalItems(e, items, path, names, s, quiet))
    decreases Inactive(names, s.scalars.iterables), Remaining(names, s.scalars.iterables), FoldsIn(path), e, 0
  {
    var f := FoldState(items, 0, e.body, e.last);
    FoldEnv(e, items, path, names, s);
    EnterApart(names, s, e.iter, f);
    var s', path' := EnterFold(s, e.iter, f), path + [FoldScope(e.iter)];
    EvalStaysApart(e.body, path', names, s', quiet);
    var r := Eval(e.body, path', names, s', quiet);
    LeaveFoldOk(s, e.iter, f, r);
    LeaveApart(names, r, e.iter);
  }

  lemma {:induction false} NextStaysApart(e: Instr, path: Path, names: seq<string>, s: Ctx, quiet: bool)
    requires e.Next?
    requires Scoped(e, path, names) && EnvOk(path, names, s.scalars.iterables)
    requires NamesApart(names, s.scalars)
    ensures StaysApart(names, EvalNext(e, path, names, s, quiet))
    decreases Inactive(names, s.scalars.iterables), Remaining(names, s.scalars.iterables), FoldsIn(path), e, 1
  {
    var k := FoldAt(path, e.iter);
    EnvOfNext(path, k, names, s.scalars.iterables);
    var last := s.scalars.iterables[e.iter].last;
    if CanAdvance(s.scalars.iterables, e.iter) {
      IterationStaysApart(e.iter, path, k, names, s, quiet);
    } else if last.Some? {
      AdvanceApart(names, s, e.iter);
      EvalStaysApart(last.value, path[..k], names, s, false);
    }
  }

  lemma {:induction false} IterationStaysApart(i: string, path: Path, k: nat, names: seq<string>, s: Ctx, quiet: bool)
    requires k < |path| && path[k] == FoldScope(i) && EnvOk(path, names, s.scalars.iterables)
    requires CanAdvance(s.scalars.iterables, i) && NamesApart(names, s.scalars)
    ensures StaysApart(names, EvalIteration(i, path, k, names, s, quiet))
    decreases Inactive(names, s.scalars.iterables), Remaining(names, s.scalars.iterables), 0
  {
    AdvanceEnv(i, path, k, names, s);
    AdvanceApart(names, s, i);
    var body := s.scalars.iterables[i].body;
    EvalStaysApart(body, path[..k + 1], names, Advance(s, i), quiet);
    var r := Eval(body, path[..k + 1], names, Advance(s, i), quiet);
    AfterNextOk(s, i, r);
    StepApart(names, r, i);
  }

  /** A script that sets no name of an iterator never gets to the arm that is marked unreachable. */
  lemma ScriptDoesNotClash(e: Instr, names: seq<string>, initPeer: string, peer: string, replies: seq<Reply>, lastCallId: nat)
    requires Scoped(e, [], names) && Apart(e, names)
    ensures !Clashes(Eval(e, [], names, Initial(initPeer, peer, replies, lastCallId), false))
  {
    EvalStaysApart(e, [], names, Initial(initPeer, peer, replies, lastCallId), false);
  }

  // ---- visits ----

  /** The iterator reads this element when the visit begins. */
  predicate ReadsAt(v: Visit, i: string, item: JValue) {
    GetValue(v.from.scalars, i) == Ok(item)
  }

  lemma VisitReads(l: Loop, e: Instr, v: Visit, index: int, quiet: bool)
    requires Visited(l, e, v, index, quiet) && NamesApart(l.names, v.from.scalars) && Apart(e, l.names)
    ensures ReadsAt(v, l.iter, l.items[index]) && StaysApart(l.names, v.run)
  {
    assert l.iter in l.names by {
      assert FoldOk(l.path, |l.path| - 1, l.names, v.from.scalars.iterables);
    }
    IteratorReads(l, index, v.from);
    EvalStaysApart(e, l.path, l.names, v.from, quiet);
  }

  /** The state a visit begins in, told by the one the visit before it left. */
  predicate Follows(v: Visit, w: Visit, i: string) {
    i in v.run.s.scalars.iterables && w.from.scalars == Advance(v.run.s, i).scalars
  }

  lemma FollowsForwards(v: Visit, w: Visit, i: string)
    requires Forwards(v, w, i) || ForwardsInPar(v, w, i)
    ensures Follows(v, w, i)
  {
  }

  lemma FollowsApart(names: seq<string>, v: Visit, w: Visit, i: string)
    requires Follows(v, w, i) && StaysApart(names, v.run)
    ensures NamesApart(names, w.from.scalars)
  {
    AdvanceApart(names, v.run.s, i);
  }

  /** Visits in a row are as they ought to be, if one that begins well is, and ends well. */
  lemma {:induction false} ForwardsAll(visits: (Visit, int) -> bool, ok: (Visit, int) -> bool, begun: Visit -> bool, ended: Visit -> bool,
                                       vs: seq<Visit>, n: int, s: Ctx, m: nat)
    requires VisitsFrom(visits, vs, 0, n, s) && m <= |vs| && begun(vs[0])
    requires forall v: Visit, k: int {:trigger visits(v, k)} | visits(v, k) && begun(v) :: ok(v, k) && ended(v)
    requires forall j {:trigger ended(vs[j])} | 0 <= j < |vs| - 1 && ended(vs[j]) :: begun(vs[j + 1])
    ensures forall j {:trigger vs[j]} | 0 <= j < m :: ok(vs[j], j) && ended(vs[j])
  {
    if m > 0 {
      ForwardsAll(visits, ok, begun, ended, vs, n, s, m - 1);
      if m > 1 {
        assert ended(vs[m - 2]);
      }
      assert visits(vs[m - 1], 0 + (m - 1));
    }
  }

  lemma {:induction false} BackwardsAll(visits: (Visit, int) -> bool, ok: (Visit, int) -> bool, begun: Visit -> bool, ended: Visit -> bool,
                                        vs: seq<Visit>, n: int, s: Ctx, m: nat)
    requires VisitsBack(visits, vs, n, s) && m <= |vs| && begun(vs[0])
    requires forall v: Visit, k: int {:trigger visits(v, k)} | visits(v, k) && begun(v) :: ok(v, k) && ended(v)
    requires forall j {:trigger ended(vs[j])} | 0 <= j < |vs| - 1 && ended(vs[j]) :: begun(vs[j + 1])
    ensures forall j {:trigger vs[j]} | 0 <= j < m :: ok(vs[j], n - 1 - j) && ended(vs[j])
  {
    if m > 0 {
      BackwardsAll(visits, ok, begun, ended, vs, n, s, m - 1);
      if m > 1 {
        assert ended(vs[m - 2]);
      }
      assert visits(vs[m - 1], n - 1 - (m - 1));
    }
  }

  /** Tells the visits that begin, or end, with names apart. */
  ghost function Begun(names: seq<string>): Visit -> bool {
    (v: Visit) => NamesApart(names, v.from.scalars)
  }

  ghost function Over(names: seq<string>): Visit -> bool {
    (v: Visit) => StaysApart(names, v.run)
  }

  /** Tells the visits that read the k-th element. */
  function Reading(i: string, items: seq<JValue>): (Visit, int) -> bool {
    (v, k) => 0 <= k < |items| && ReadsAt(v, i, items[k])
  }

  lemma BegunVisitReads(l: Loop, e: Instr, v: Visit, index: int, quiet: bool)
    requires Visited(l, e, v, index, quiet) && Apart(e, l.names) && Begun(l.names)(v)
    ensures Over(l.names)(v) && Reading(l.iter, l.items)(v, index)
  {
    VisitReads(l, e, v, index, quiet);
  }

  lemma AllVisitsRead(l: Loop, e: Instr, quiet: bool)
    requires Apart(e, l.names)
    ensures forall v: Visit, k: int {:trigger Visits(l, e, quiet)(v, k)} | Visits(l, e, quiet)(v, k) && Begun(l.names)(v) ::
      Reading(l.iter, l.items)(v, k) && Over(l.names)(v)
  {
    forall v: Visit, k: int | Visits(l, e, quiet)(v, k) && Begun(l.names)(v)
      ensures Reading(l.iter, l.items)(v, k) && Over(l.names)(v)
    {
      BegunVisitReads(l, e, v, k, quiet);
    }
  }

  lemma FollowingBegins(names: seq<string>, v: Visit, w: Visit, i: string)
    requires Forwards(v, w, i) || ForwardsInPar(v, w, i) || Backwards(v, w, i)
    ensures Over(names)(v) ==> Begun(names)(w)
  {
    if StaysApart(names, v.run) {
      if Backwards(v, w, i) {
        StepApart(names, v.run, i);
      } else {
        FollowsForwards(v, w, i);
        FollowsApart(names, v, w, i);
      }
    }
  }

  lemma NextVisitsBegin(names: seq<string>, vs: seq<Visit>, i: string)
    requires PassesOver(vs, i) || PassesOn(vs, i) || PassesBack(vs, i)
    ensures forall j {:trigger Over(names)(vs[j])} | 0 <= j < |vs| - 1 && Over(names)(vs[j]) :: Begun(names)(vs[j + 1])
  {
    forall j | 0 <= j < |vs| - 1 && Over(names)(vs[j])
      ensures Begun(names)(vs[j + 1])
    {
      assert Forwards(vs[j], vs[j + 1], i) || ForwardsInPar(vs[j], vs[j + 1], i) || Backwards(vs[j], vs[j + 1], i);
      FollowingBegins(names, vs[j], vs[j + 1], i);
    }
  }

  /** Visits that read the elements, in order or in reverse order. */
  ghost predicate InOrder(vs: seq<Visit>, i: string, items: seq<JValue>) {
    |vs| <= |items| && forall k {:trigger vs[k]} | 0 <= k < |vs| :: ReadsAt(vs[k], i, items[k])
  }

  ghost predicate InReverse(vs: seq<Visit>, i: string, items: seq<JValue>) {
    |vs| <= |items| && forall k {:trigger vs[k]} | 0 <= k < |vs| :: ReadsAt(vs[k], i, items[|items| - 1 - k])
  }

  lemma ReadInOrder(vs: seq<Visit>, i: string, items: seq<JValue>)
    requires |vs| <= |items| && forall k {:trigger vs[k]} | 0 <= k < |vs| :: Reading(i, items)(vs[k], k)
    ensures InOrder(vs, i, items)
  {
  }

  lemma ReadInReverse(vs: seq<Visit>, i: string, items: seq<JValue>)
    requires |vs| <= |items| && forall k {:trigger vs[k]} | 0 <= k < |vs| :: Reading(i, items)(vs[k], |items| - 1 - k)
    ensures InReverse(vs, i, items)
  {
  }

  lemma ForwardReads(l: Loop, e: Instr, visits: (Visit, int) -> bool, quiet: bool, vs: seq<Visit>, s: Ctx)
    requires visits == Visits(l, e, quiet) && VisitsFrom(visits, vs, 0, |l.items|, s) && (PassesOver(vs, l.iter) || PassesOn(vs, l.iter))
    requires Begun(l.names)(vs[0]) && Apart(e, l.names)
    ensures InOrder(vs, l.iter, l.items) && Over(l.names)(vs[|vs| - 1])
  {
    AllVisitsRead(l, e, quiet);
    NextVisitsBegin(l.names, vs, l.iter);
    ForwardsAll(visits, Reading(l.iter, l.items), Begun(l.names), Over(l.names), vs, |l.items|, s, |vs|);
    ReadInOrder(vs, l.iter, l.items);
  }

  lemma BackwardReads(l: Loop, e: Instr, visits: (Visit, int) -> bool, vs: seq<Visit>, s: Ctx)
    requires visits == Visits(l, e, false) && VisitsBack(visits, vs, |l.items|, s) && PassesBack(vs, l.iter)
    requires Begun(l.names)(vs[0]) && Apart(e, l.names)
    ensures InReverse(vs, l.iter, l.items)
  {
    AllVisitsRead(l, e, false);
    NextVisitsBegin(l.names, vs, l.iter);
    BackwardsAll(visits, Reading(l.iter, l.items), Begun(l.names), Over(l.names), vs, |l.items|, s, |vs|);
    ReadInReverse(vs, l.iter, l.items);
  }

  lemma FirstBegins(names: seq<string>, v: Visit)
    requires NamesApart(names, v.from.scalars)
    ensures Begun(names)(v)
  {
  }

  lemma ReturnBegins(names: seq<string>, v: Visit, w: Visit)
    requires Over(names)(v) && w.from == v.run.s
    ensures Begun(names)(w)
  {
  }

  lemma ZigzagTourReads(l: Loop, a: Instr, b: Instr, visitsA: (Visit, int) -> bool, visitsB: (Visit, int) -> bool,
                        down: seq<Visit>, up: seq<Visit>, s: Ctx, r: Run)
    requires visitsA == Visits(l, a, false) && visitsB == Visits(l, b, false)
    requires ZigzagTour(visitsA, visitsB, l.iter, down, up, |l.items|, s, r)
    requires Begun(l.names)(down[0]) && Apart(a, l.names) && Apart(b, l.names)
    ensures InOrder(down, l.iter, l.items) && InReverse(up, l.iter, l.items)
  {
    ForwardReads(l, a, visitsA, false, down, s);
    if Final(down).out == Done(true) {
      ReturnBegins(l.names, down[|down| - 1], up[0]);
      BackwardReads(l, b, visitsB, up, Final(down).s);
    }
  }

  // ---- whole folds ----

  /** What is needed to know what the iterator of a fold reads. */
  ghost predicate FoldApart(e: Instr, names: seq<string>, s: Ctx)
    requires e.Fold?
  {
    Apart(e.body, names) && NamesApart(names, s.scalars)
  }

  lemma LoopApart(e: Instr, items: seq<JValue>, path: Path, names: seq<string>, s: Ctx)
    requires e.Fold? && e.last == None && Scoped(e, path, names) && FoldApart(e, names, s)
    ensures NamesApart(names, EnterFold(s, e.iter, FoldState(items, 0, e.body, None)).scalars)
  {
    EnterApart(names, s, e.iter, FoldState(items, 0, e.body, None));
  }

  /** `(fold xs i (par X (next i)))`: the k-th run of X reads the k-th element, also after others failed. */
  lemma FoldParReads(e: Instr, x: Instr, items: seq<JValue>, path: Path, names: seq<string>, s: Ctx, quiet: bool)
    requires e.Fold? && e.last == None && e.body == Par(x, Next(e.iter)) && NextFree(x, e.iter)
    requires Scoped(e, path, names) && EnvOk(path, names, s.scalars.iterables) && FoldApart(e, names, s)
    requires Items(s, e.iterable) == Ok(items) && items != [] && e.iter !in s.scalars.iterables
    ensures exists vs ::
      ParTour(Visits(LoopOf(e, items, path, names), x, Quiet(x)), e.iter, vs, 0, |items|,
        EnterFold(s, e.iter, FoldState(items, 0, e.body, None)), Eval(e, path, names, s, quiet))
      && InOrder(vs, e.iter, items)
  {
    FoldPar(e, x, items, path, names, s, quiet);
    LoopApart(e, items, path, names, s);
    var l, s' := LoopOf(e, items, path, names), EnterFold(s, e.iter, FoldState(items, 0, e.body, None));
    var vs :| ParTour(Visits(l, x, Quiet(x)), e.iter, vs, 0, |items|, s', Eval(e, path, names, s, quiet));
    FirstBegins(names, vs[0]);
    ForwardReads(l, x, Visits(l, x, Quiet(x)), Quiet(x), vs, s');
  }

  /** `(fold xs i (seq X (next i)))`: the k-th run of X reads the k-th element. */
  lemma FoldSeqReads(e: Instr, x: Instr, items: seq<JValue>, path: Path, names: seq<string>, s: Ctx, quiet: bool)
    requires e.Fold? && e.last == None && e.body == Seq(x, Next(e.iter)) && NextFree(x, e.iter)
    requires Scoped(e, path, names) && EnvOk(path, names, s.scalars.iterables) && FoldApart(e, names, s)
    requires Items(s, e.iterable) == Ok(items) && items != [] && e.iter !in s.scalars.iterables
    ensures exists vs ::
      SeqTour(Visits(LoopOf(e, items, path, names), x, false), e.iter, vs, 0, |items|,
        EnterFold(s, e.iter, FoldState(items, 0, e.body, None)), Eval(e, path, names, s, quiet))
      && InOrder(vs, e.iter, items)
  {
    FoldSeq(e, x, items, path, names, s, quiet);
    LoopApart(e, items, path, names, s);
    var l, s' := LoopOf(e, items, path, names), EnterFold(s, e.iter, FoldState(items, 0, e.body, None));
    var vs :| SeqTour(Visits(l, x, false), e.iter, vs, 0, |items|, s', Eval(e, path, names, s, quiet));
    FirstBegins(names, vs[0]);
    ForwardReads(l, x, Visits(l, x, false), false, vs, s');
  }

  /** `(fold xs i (seq A (seq (next i) B)))`: A reads the elements in order, B reads them in reverse order. */
  lemma FoldZigzagReads(e: Instr, a: Instr, b: Instr, items: seq<JValue>, path: Path, names: seq<string>, s: Ctx, quiet: bool)
    requires e.Fold? && e.last == None && e.body == Seq(a, Seq(Next(e.iter), b)) && NextFree(a, e.iter) && NextFree(b, e.iter)
    requires Scoped(e, path, names) && EnvOk(path, names, s.scalars.iterables) && FoldApart(e, names, s)
    requires Items(s, e.iterable) == Ok(items) && items != [] && e.iter !in s.scalars.iterables
    ensures exists down, up ::
      ZigzagTour(Visits(LoopOf(e, items, path, names), a, false), Visits(LoopOf(e, items, path, names), b, false), e.iter,
        down, up, |items|, EnterFold(s, e.iter, FoldState(items, 0, e.body, None)), Eval(e, path, names, s, quiet))
      && InOrder(down, e.iter, items) && InReverse(up, e.iter, items)
  {
    FoldZigzag(e, a, b, items, path, names, s, quiet);
    LoopApart(e, items, path, names, s);
    var l, s' := LoopOf(e, items, path, names), EnterFold(s, e.iter, FoldState(items, 0, e.body, None));
    assert Apart(Seq(Next(e.iter), b), names);
    var visitsA, visitsB := Visits(l, a, false), Visits(l, b, false);
    var down, up :| ZigzagTour(visitsA, visitsB, e.iter, down, up, |items|, s', Eval(e, path, names, s, quiet));
    FirstBegins(names, down[0]);
    ZigzagTourReads(l, a, b, visitsA, visitsB, down, up, s', Eval(e, path, names, s, quiet));
  }
}
