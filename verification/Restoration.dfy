/**
 * Scopes are restored: whatever a script does, every instruction that does not stop
 * the interpreter keeps the three stores outside its own scope, folds and advancing
 * `next`s give them back exactly as found, and `new` always finds its own mark.
 */
module Restoration {
  import opened Wrappers
  import Json
  import opened Errors
  import opened Ast
  import opened State
  import opened Semantics
  import M = SparseMatrix
  import Scopes
  import C = CanonMaps
  import S = Streams

  ghost predicate StoresValid(sc: Scalars) {
    Scopes.Valid(sc.vars) && Scopes.Valid(sc.canonStreams) && Scopes.Valid(sc.canonMaps)
  }

  ghost predicate StoresKept(sc: Scalars, sc': Scalars) {
    && Scopes.Kept(sc.vars, sc'.vars)
    && Scopes.Kept(sc.canonStreams, sc'.canonStreams)
    && Scopes.Kept(sc.canonMaps, sc'.canonMaps)
  }

  predicate SameStores(sc: Scalars, sc': Scalars) {
    sc'.(iterables := map[]) == sc.(iterables := map[])
  }

  ghost predicate Restores(sc: Scalars, r: Run) {
    && (!r.Aborted() ==> StoresKept(sc, r.s.scalars))
    && !(r.out.Failed? && r.out.error.Uncatchable? && r.out.error.u.ScalarsStateCorrupted?)
  }

  // ---- composing what is kept ----

  lemma KeptTrans(a: Scalars, b: Scalars, c: Scalars)
    requires StoresKept(a, b) && StoresKept(b, c)
    ensures StoresKept(a, c)
  {
    Scopes.KeptTransitive(a.vars, b.vars, c.vars);
    Scopes.KeptTransitive(a.canonStreams, b.canonStreams, c.canonStreams);
    Scopes.KeptTransitive(a.canonMaps, b.canonMaps, c.canonMaps);
  }

  lemma KeptValid(a: Scalars, b: Scalars)
    requires StoresValid(a) && StoresKept(a, b)
    ensures StoresValid(b)
  {
    Scopes.KeptValid(a.vars, b.vars);
    Scopes.KeptValid(a.canonStreams, b.canonStreams);
    Scopes.KeptValid(a.canonMaps, b.canonMaps);
  }

  lemma FoldGivesBack(sc: Scalars, inner: Scalars)
    requires StoresValid(sc) && StoresKept(MeetFoldStart(sc), inner) && InScope(inner)
    ensures SameStores(sc, MeetFoldEnd(inner))
  {
    Scopes.FoldRestores(sc.vars, inner.vars);
    Scopes.FoldRestores(sc.canonStreams, inner.canonStreams);
    Scopes.FoldRestores(sc.canonMaps, inner.canonMaps);
  }

  lemma NextGivesBack(sc: Scalars, inner: Scalars)
    requires StoresValid(sc) && StoresKept(MeetNextBefore(sc), inner) && InScope(inner)
    ensures SameStores(sc, MeetNextAfter(inner))
  {
    Scopes.NextRestores(sc.vars, inner.vars);
    Scopes.NextRestores(sc.canonStreams, inner.canonStreams);
    Scopes.NextRestores(sc.canonMaps, inner.canonMaps);
  }

  lemma OpensValid(sc: Scalars)
    requires StoresValid(sc)
    ensures StoresValid(MeetFoldStart(sc)) && StoresValid(MeetNextBefore(sc))
  {
    Scopes.OpensValid(sc.vars);
    Scopes.OpensValid(sc.canonStreams);
    Scopes.OpensValid(sc.canonMaps);
  }

  lemma LeafKept(e: Instr, s: Ctx, quiet: bool)
    requires IsLeaf(e)
    ensures Restores(s.scalars, EvalLeaf(e, s, quiet))
  {
    match e {
      case Ap(v, x) =>
        if Resolve(s, v).Ok? { Scopes.SetKept(s.scalars.vars, x, Resolve(s, v).value); }
      case Canon(n, p, x) =>
        Scopes.SetKept(s.scalars.canonStreams, x, S.HeldAt(s.streams, n, p));
      case CanonMap(_, _, _) => CanonMapKept(e, s, quiet);
      case Call(_, _, _) => CallKept(e, s, quiet);
      case _ =>
    }
  }

  lemma CanonMapKept(e: Instr, s: Ctx, quiet: bool)
    requires e.CanonMap?
    ensures Restores(s.scalars, CanonizeMap(e, s, quiet))
  {
    var m := C.FromStream(S.HeldAt(s.streamMaps, e.streamMap, e.position));
    if m.Ok? { Scopes.SetKept(s.scalars.canonMaps, e.canonMap, m.value); }
  }

  lemma CallKept(e: Instr, s: Ctx, quiet: bool)
    requires e.Call?
    ensures Restores(s.scalars, DoCall(e, s, quiet))
  {
    if CheckOutput(s, e.output).Ok? {
      var reply := if s.replies == [] then NotMet else s.replies[0];
      AnswerKept(e, s.(replies := if s.replies == [] then [] else s.replies[1..]), ResolveAll(s, e.args), reply, quiet);
    }
  }

  lemma AnswerKept(e: Instr, s: Ctx, args: Result<seq<Json.JValue>, ExecutionError>, reply: Reply, quiet: bool)
    requires e.Call?
    ensures Restores(s.scalars, Answer(e, s, args, reply, quiet))
  {
    if e.output.Some? && reply.Executed? {
      Scopes.SetKept(s.scalars.vars, e.output.value, reply.value);
    }
  }

  // ---- every run ----

  /** No scope is left open or corrupted by any instruction that does not stop the interpreter. */
  lemma {:induction false} EvalRestores(e: Instr, path: Path, names: seq<string>, s: Ctx, quiet: bool)
    requires Scoped(e, path, names) && EnvOk(path, names, s.scalars.iterables) && StoresValid(s.scalars)
    ensures Restores(s.scalars, Eval(e, path, names, s, quiet))
    decreases Inactive(names, s.scalars.iterables), Remaining(names, s.scalars.iterables), FoldsIn(path), e, 3
  {
    InstrRestores(e, path, names, s, quiet);
  }

  lemma {:induction false} InstrRestores(e: Instr, path: Path, names: seq<string>, s: Ctx, quiet: bool)
    requires Scoped(e, path, names) && EnvOk(path, names, s.scalars.iterables) && StoresValid(s.scalars)
    ensures Restores(s.scalars, EvalInstr(e, path, names, s, quiet))
    decreases Inactive(names, s.scalars.iterables), Remaining(names, s.scalars.iterables), FoldsIn(path), e, 2
  {
    match e {
      case Match(_, _, _) => MatchRestores(e, path, names, s, quiet);
      case MisMatch(_, _, _) => MatchRestores(e, path, names, s, quiet);
      case Seq(_, _) => SeqRestores(e, path, names, s);
      case Par(_, _) => ParRestores(e, path, names, s);
      case Xor(_, _) => XorRestores(e, path, names, s);
      case New(_, _, _) => NewRestores(e, path, names, s, quiet);
      case Fold(_, _, _, _) => FoldRestores(e, path, names, s, quiet);
      case Next(_) => NextRestores(e, path, names, s, quiet);
      case _ => LeafKept(e, s, quiet);
    }
  }

  lemma {:induction false} MatchRestores(e: Instr, path: Path, names: seq<string>, s: Ctx, quiet: bool)
    requires e.Match? || e.MisMatch?
    requires Scoped(e, path, names) && EnvOk(path, names, s.scalars.iterables) && StoresValid(s.scalars)
    ensures Restores(s.scalars, EvalMatch(e, path, names, s, quiet))
    decreases Inactive(names, s.scalars.iterables), Remaining(names, s.scalars.iterables), FoldsIn(path), e, 1
  {
    EvalRestores(e.body, path, names, s, quiet);
  }

  lemma {:induction false} SeqRestores(e: Instr, path: Path, names: seq<string>, s: Ctx)
    requires e.Seq?
    requires Scoped(e, path, names) && EnvOk(path, names, s.scalars.iterables) && StoresValid(s.scalars)
    ensures Restores(s.scalars, EvalSeq(e, path, names, s))
    decreases Inactive(names, s.scalars.iterables), Remaining(names, s.scalars.iterables), FoldsIn(path), e, 1
  {
    var r := Eval(e.first, path, names, s, false);
    EvalRestores(e.first, path, names, s, false);
    if r.out == Done(true) {
      SecondRestores(e.second, path, names, s.scalars, r.s, r.s, false);
    }
  }

  /** A second instruction, run from a state with the stores the first one left. */
  lemma {:induction false} SecondRestores(e: Instr, path: Path, names: seq<string>, sc: Scalars, s1: Ctx, s2: Ctx, quiet: bool)
    requires EnvOk(path, names, sc.iterables) && IteratorsKept(sc.iterables, s1.scalars.iterables) && s2.scalars == s1.scalars
    requires Scoped(e, path, names) && StoresValid(sc) && StoresKept(sc, s1.scalars)
    ensures EnvOk(path, names, s2.scalars.iterables)
    ensures Restores(sc, Eval(e, path, names, s2, quiet))
    decreases Inactive(names, sc.iterables), Remaining(names, sc.iterables), FoldsIn(path), e, 4
  {
    KeptMeasure(names, sc.iterables, s2.scalars.iterables);
    EnvKept(path, names, sc.iterables, s2.scalars.iterables);
    KeptValid(sc, s2.scalars);
    var r := Eval(e, path, names, s2, quiet);
    EvalRestores(e, path, names, s2, quiet);
    if !r.Aborted() {
      KeptTrans(sc, s2.scalars, r.s.scalars);
    }
  }

  lemma {:induction false} ParRestores(e: Instr, path: Path, names: seq<string>, s: Ctx)
    requires e.Par?
    requires Scoped(e, path, names) && EnvOk(path, names, s.scalars.iterables) && StoresValid(s.scalars)
    ensures Restores(s.scalars, EvalPar(e, path, names, s))
    decreases Inactive(names, s.scalars.iterables), Remaining(names, s.scalars.iterables), FoldsIn(path), e, 1
  {
    var left := Eval(e.first, path, names, s, Quiet(e.first));
    EvalRestores(e.first, path, names, s, Quiet(e.first));
    if !left.Aborted() {
      SecondRestores(e.second, path, names, s.scalars, left.s, ParBranch(left).s, Quiet(e.second));
    }
  }

  lemma {:induction false} XorRestores(e: Instr, path: Path, names: seq<string>, s: Ctx)
    requires e.Xor?
    requires Scoped(e, path, names) && EnvOk(path, names, s.scalars.iterables) && StoresValid(s.scalars)
    ensures Restores(s.scalars, EvalXor(e, path, names, s))
    decreases Inactive(names, s.scalars.iterables), Remaining(names, s.scalars.iterables), FoldsIn(path), e, 1
  {
    var r := Eval(e.first, path, names, s, false);
    EvalRestores(e.first, path, names, s, false);
    if r.out.Failed? && !r.Aborted() {
      SecondRestores(e.second, path, names, s.scalars, r.s, CatchError(r.s, r.out.error.c), false);
    }
  }

  /** Opening and closing a `new` around a run that keeps the stores. */
  lemma NewCloses(s: Ctx, a: NewArgument, span: S.Span, r: Run)
    requires StoresValid(s.scalars) && Restores(OpenNew(s, a, span).scalars, r)
    ensures Restores(s.scalars, AfterNew(s, a, span, r))
    ensures !r.Aborted() ==> RowRestored(s.scalars, a, AfterNew(s, a, span, r).s.scalars)
  {
    if !r.Aborted() {
      match a {
        case NewScalar(n) => Scopes.NewRestores(s.scalars.vars, n, r.s.scalars.vars);
        case NewCanonStream(n) => Scopes.NewRestores(s.scalars.canonStreams, n, r.s.scalars.canonStreams);
        case NewCanonMap(n) => Scopes.NewRestores(s.scalars.canonMaps, n, r.s.scalars.canonMaps);
        case NewStream(_) =>
        case NewStreamMap(_) =>
      }
    }
  }

  /** The row of a restricted variable is exactly what it was. */
  predicate RowRestored(sc: Scalars, a: NewArgument, sc': Scalars) {
    match a
    case NewScalar(n) => Scopes.Cells(sc'.vars, n) == Scopes.Cells(sc.vars, n)
    case NewCanonStream(n) => Scopes.Cells(sc'.canonStreams, n) == Scopes.Cells(sc.canonStreams, n)
    case NewCanonMap(n) => Scopes.Cells(sc'.canonMaps, n) == Scopes.Cells(sc.canonMaps, n)
    case _ => true
  }

  lemma OpenNewValid(s: Ctx, a: NewArgument, span: S.Span)
    requires StoresValid(s.scalars)
    ensures StoresValid(OpenNew(s, a, span).scalars)
  {
    match a {
      case NewScalar(n) => Scopes.NewStartValid(s.scalars.vars, n);
      case NewCanonStream(n) => Scopes.NewStartValid(s.scalars.canonStreams, n);
      case NewCanonMap(n) => Scopes.NewStartValid(s.scalars.canonMaps, n);
      case _ =>
    }
  }

  lemma {:induction false} NewRestores(e: Instr, path: Path, names: seq<string>, s: Ctx, quiet: bool)
    requires e.New?
    requires Scoped(e, path, names) && EnvOk(path, names, s.scalars.iterables) && StoresValid(s.scalars)
    ensures Restores(s.scalars, EvalNew(e, path, names, s, quiet))
    ensures var r := EvalNew(e, path, names, s, quiet);
      !r.Aborted() ==> RowRestored(s.scalars, e.argument, r.s.scalars)
    decreases Inactive(names, s.scalars.iterables), Remaining(names, s.scalars.iterables), FoldsIn(path), e, 1
  {
    EnvOfNew(path, e.argument, e.span, names, s.scalars.iterables);
    OpenNewValid(s, e.argument, e.span);
    var path', s' := path + [NewScope(e.argument, e.span)], OpenNew(s, e.argument, e.span);
    EvalRestores(e.body, path', names, s', quiet);
    NewCloses(s, e.argument, e.span, Eval(e.body, path', names, s', quiet));
  }

  lemma {:induction false} FoldRestores(e: Instr, path: Path, names: seq<string>, s: Ctx, quiet: bool)
    requires e.Fold?
    requires Scoped(e, path, names) && EnvOk(path, names, s.scalars.iterables) && StoresValid(s.scalars)
    ensures Restores(s.scalars, EvalFold(e, path, names, s, quiet))
    ensures var r := EvalFold(e, path, names, s, quiet);
      !r.Aborted() ==> SameStores(s.scalars, r.s.scalars)
    decreases Inactive(names, s.scalars.iterables), Remaining(names, s.scalars.iterables), FoldsIn(path), e, 1
  {
    var items := Items(s, e.iterable);
    if items.Ok? && items.value != [] {
      ItemsRestore(e, items.value, path, names, s, quiet);
    }
  }

  lemma {:induction false} ItemsRestore(e: Instr, items: seq<Json.JValue>, path: Path, names: seq<string>, s: Ctx, quiet: bool)
    requires e.Fold? && items != []
    requires Scoped(e, path, names) && EnvOk(path, names, s.scalars.iterables) && StoresValid(s.scalars)
    ensures var r := EvalItems(e, items, path, names, s, quiet);
      Restores(s.scalars, r) && (!r.Aborted() ==> SameStores(s.scalars, r.s.scalars))
    decreases Inactive(names, s.scalars.iterables), Remaining(names, s.scalars.iterables), FoldsIn(path), e, 0
  {
    if e.iter !in s.scalars.iterables {
      var f := FoldState(items, 0, e.body, e.last);
      FoldEnv(e, items, path, names, s);
      OpensValid(s.scalars);
      var s', path' := EnterFold(s, e.iter, f), path + [FoldScope(e.iter)];
      EvalRestores(e.body, path', names, s', quiet);
      var r := Eval(e.body, path', names, s', quiet);
      LeaveFoldOk(s, e.iter, f, r);
      if !r.Aborted() {
        FoldGivesBack(s.scalars, r.s.scalars.(iterables := r.s.scalars.iterables - {e.iter}));
      }
    }
  }

  lemma {:induction false} NextRestores(e: Instr, path: Path, names: seq<string>, s: Ctx, quiet: bool)
    requires e.Next?
    requires Scoped(e, path, names) && EnvOk(path, names, s.scalars.iterables) && StoresValid(s.scalars)
    ensures Restores(s.scalars, EvalNext(e, path, names, s, quiet))
    decreases Inactive(names, s.scalars.iterables), Remaining(names, s.scalars.iterables), FoldsIn(path), e, 1
  {
    var k := FoldAt(path, e.iter);
    EnvOfNext(path, k, names, s.scalars.iterables);
    var last := s.scalars.iterables[e.iter].last;
    if CanAdvance(s.scalars.iterables, e.iter) {
      IterationRestores(e.iter, path, k, names, s, quiet);
    } else if last.Some? {
      EvalRestores(last.value, path[..k], names, s, false);
    }
  }

  /** A `next` that advances gives the stores back exactly. */
  lemma {:induction false} IterationRestores(i: string, path: Path, k: nat, names: seq<string>, s: Ctx, quiet: bool)
    requires k < |path| && path[k] == FoldScope(i) && EnvOk(path, names, s.scalars.iterables)
    requires CanAdvance(s.scalars.iterables, i) && StoresValid(s.scalars)
    ensures var r := EvalIteration(i, path, k, names, s, quiet);
      Restores(s.scalars, r) && (!r.Aborted() ==> SameStores(s.scalars, r.s.scalars))
    decreases Inactive(names, s.scalars.iterables), Remaining(names, s.scalars.iterables), 0
  {
    AdvanceEnv(i, path, k, names, s);
    OpensValid(s.scalars);
    var body := s.scalars.iterables[i].body;
    EvalRestores(body, path[..k + 1], names, Advance(s, i), quiet);
    var r := Eval(body, path[..k + 1], names, Advance(s, i), quiet);
    AfterNextOk(s, i, r);
    if !r.Aborted() {
      NextGivesBack(s.scalars, r.s.scalars);
    }
  }

  /**
   * A variable set in one iteration cannot be read inside the next one, and is there
   * again, as it was, when that returns.
   */
  lemma VariableHiddenInNext(i: string, path: Path, k: nat, names: seq<string>, s: Ctx, quiet: bool, x: string)
    requires k < |path| && path[k] == FoldScope(i) && EnvOk(path, names, s.scalars.iterables)
    requires CanAdvance(s.scalars.iterables, i) && StoresValid(s.scalars)
    requires x in s.scalars.vars.cells && s.scalars.vars.cells[x].last.depth == s.scalars.vars.depth
    ensures M.Get(s.scalars.vars, x).Ok? && M.Get(Advance(s, i).scalars.vars, x) == Err(M.VariableNotFound(x))
    ensures var r := EvalIteration(i, path, k, names, s, quiet);
      !r.Aborted() ==> M.Get(r.s.scalars.vars, x) == M.Get(s.scalars.vars, x)
  {
    IterationRestores(i, path, k, names, s, quiet);
  }

  /** A whole script that does not stop the interpreter ends in the global scope, with no fold running. */
  lemma ScriptEndsGlobally(e: Instr, names: seq<string>, initPeer: string, peer: string, replies: seq<Reply>, lastCallId: nat)
    requires Scoped(e, [], names)
    ensures var r := Eval(e, [], names, Initial(initPeer, peer, replies, lastCallId), false);
      !r.Aborted() ==>
        && (forall i :: i !in r.s.scalars.iterables)
        && r.s.scalars.vars.depth == r.s.scalars.canonStreams.depth == r.s.scalars.canonMaps.depth == M.GLOBAL_DEPTH
        && r.s.scalars.vars.allowed == {M.GLOBAL_DEPTH}
        && StoresValid(r.s.scalars)
  {
    var s := Initial(initPeer, peer, replies, lastCallId);
    EvalRestores(e, [], names, s, false);
    var r := Eval(e, [], names, s, false);
    if !r.Aborted() {
      KeptValid(s.scalars, r.s.scalars);
      forall i ensures i !in r.s.scalars.iterables {
        assert i !in s.scalars.iterables;
      }
    }
  }
}
