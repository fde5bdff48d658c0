/**
 * What only ever grows during a run: the trace, the lookups and the failures on
 * record, and the ids of call requests, each of which is the successor of the one
 * before it.
 */
module Progress {
  import opened Wrappers
  import opened Json
  import opened Errors
  import opened Ast
  import opened State
  import opened Semantics
  import S = Streams

  /** The ids of the requests made, in order. */
  function Ids(trace: seq<TraceEntry>): seq<nat> {
    if trace == [] then []
    else Ids(trace[..|trace| - 1]) + match trace[|trace| - 1] case CallRequested(id) => [id] case _ => []
  }

  /** Counting on from `last` through `ids` ends at `end`. */
  predicate Chain(last: nat, ids: seq<nat>, end: nat) {
    if ids == [] then end == last else ids[|ids| - 1] == end && Counted(last, ids)
  }

  predicate Counted(last: nat, ids: seq<nat>) {
    forall k {:trigger ids[k]} | 0 <= k < |ids| :: ids[k] == NextCallId(Previous(last, ids, k))
  }

  function Previous(last: nat, ids: seq<nat>, k: nat): nat
    requires k <= |ids|
  {
    if k == 0 then last else ids[k - 1]
  }

  ghost predicate CallsGrow(s: Ctx, s': Ctx) {
    && s.trace <= s'.trace
    && var ids := Ids(s'.trace[|s.trace|..]);
       && Chain(s.lastCallId, ids, s'.lastCallId)
       && forall id :: id in s'.requests <==> id in s.requests || id in ids
  }

  ghost predicate Grows(s: Ctx, s': Ctx) {
    && s'.peer == s.peer
    && (s.history.nextFailed ==> s'.history.nextFailed)
    && s.history.displaced <= s'.history.displaced
    && s.history.lookups <= s'.history.lookups
    && s.history.ends <= s'.history.ends
    && CallsGrow(s, s')
  }

  lemma {:induction false} IdsOfConcat(a: seq<TraceEntry>, b: seq<TraceEntry>)
    ensures Ids(a + b) == Ids(a) + Ids(b)
  {
    if b == [] {
      assert a + b == a;
    } else {
      assert (a + b)[..|a + b| - 1] == a + b[..|b| - 1];
      IdsOfConcat(a, b[..|b| - 1]);
    }
  }

  lemma ChainConcat(last: nat, a: seq<nat>, mid: nat, b: seq<nat>, end: nat)
    requires Chain(last, a, mid) && Chain(mid, b, end)
    ensures Chain(last, a + b, end)
  {
    if b == [] {
      assert a + b == a;
    } else {
      forall k | 0 <= k < |a + b|
        ensures (a + b)[k] == NextCallId(Previous(last, a + b, k))
      {
        if k < |a| {
          assert a[k] == NextCallId(Previous(last, a, k));
        } else {
          assert b[k - |a|] == NextCallId(Previous(mid, b, k - |a|));
        }
      }
    }
  }

  /** Nothing about calls changed. */
  predicate SameCalls(s: Ctx, s': Ctx) {
    s'.trace == s.trace && s'.lastCallId == s.lastCallId && s'.requests == s.requests
  }

  lemma SameCallsGrow(s: Ctx, s': Ctx)
    requires SameCalls(s, s')
    ensures CallsGrow(s, s')
  {
    assert s'.trace[|s.trace|..] == [];
  }

  lemma CallsGrowTrans(a: Ctx, b: Ctx, c: Ctx)
    requires CallsGrow(a, b) && CallsGrow(b, c)
    ensures CallsGrow(a, c)
  {
    var t1, t2 := b.trace[|a.trace|..], c.trace[|b.trace|..];
    assert c.trace[|a.trace|..] == t1 + t2;
    IdsOfConcat(t1, t2);
    ChainConcat(a.lastCallId, Ids(t1), b.lastCallId, Ids(t2), c.lastCallId);
  }

  lemma GrowsTrans(a: Ctx, b: Ctx, c: Ctx)
    requires Grows(a, b) && Grows(b, c)
    ensures Grows(a, c)
  {
    CallsGrowTrans(a, b, c);
  }

  /** A step that touches neither the calls nor the record, other than noting a failure. */
  predicate Aside(s: Ctx, s': Ctx) {
    && SameCalls(s, s') && s'.peer == s.peer
    && (s.history.nextFailed ==> s'.history.nextFailed)
    && s.history.displaced <= s'.history.displaced
    && s'.history.lookups == s.history.lookups
    && s.history.ends <= s'.history.ends
  }

  lemma AsideGrows(s: Ctx, s': Ctx)
    requires Aside(s, s')
    ensures Grows(s, s')
  {
    SameCallsGrow(s, s');
  }

  /** A run between two steps that leave the record alone. */
  lemma Between(a: Ctx, b: Ctx, c: Ctx, d: Ctx)
    requires Aside(a, b) && Grows(b, c) && Aside(c, d)
    ensures Grows(a, d)
  {
    AsideGrows(a, b);
    AsideGrows(c, d);
    GrowsTrans(a, b, c);
    GrowsTrans(a, c, d);
  }

  // ---- instructions without a body ----

  lemma LeafGrows(e: Instr, s: Ctx, quiet: bool)
    requires IsLeaf(e)
    ensures Grows(s, EvalLeaf(e, s, quiet).s)
  {
    if e.Call? {
      CallGrows(e, s, quiet);
    } else {
      assert RecordKept(s, EvalLeaf(e, s, quiet).s);
      SameCallsGrow(s, EvalLeaf(e, s, quiet).s);
    }
  }

  lemma OneMore(s: Ctx, s': Ctx, entry: TraceEntry)
    requires s'.trace == s.trace + [entry]
    requires match entry
      case CallRequested(id) => id == s'.lastCallId == NextCallId(s.lastCallId) && forall k :: k in s'.requests <==> k in s.requests || k == id
      case _ => s'.lastCallId == s.lastCallId && s'.requests == s.requests
    ensures CallsGrow(s, s')
  {
    assert s'.trace[|s.trace|..] == [entry];
    assert [entry][..0] == [];
    assert Ids([entry]) == match entry case CallRequested(id) => [id] case _ => [];
  }

  lemma CallGrows(e: Instr, s: Ctx, quiet: bool)
    requires e.Call?
    ensures Grows(s, DoCall(e, s, quiet).s)
  {
    var args := ResolveAll(s, e.args);
    if CheckOutput(s, e.output).Ok? && !(args.Err? && !args.error.IsJoinable()) {
      var reply := if s.replies == [] then NotMet else s.replies[0];
      var s1 := s.(replies := if s.replies == [] then [] else s.replies[1..]);
      AnswerGrows(e, s1, args, reply, quiet);
      AsideGrows(s, s1);
      GrowsTrans(s, s1, Answer(e, s1, args, reply, quiet).s);
    } else {
      SameCallsGrow(s, DoCall(e, s, quiet).s);
    }
  }

  lemma AnswerGrows(e: Instr, s: Ctx, args: Result<seq<JValue>, ExecutionError>, reply: Reply, quiet: bool)
    requires e.Call?
    ensures Grows(s, Answer(e, s, args, reply, quiet).s)
  {
    var s' := Answer(e, s, args, reply, quiet).s;
    AnswerCalls(e, s, args, reply, quiet);
    if s'.trace == s.trace {
      SameCallsGrow(s, s');
    } else {
      OneMore(s, s', s'.trace[|s.trace|]);
    }
  }

  lemma AnswerCalls(e: Instr, s: Ctx, args: Result<seq<JValue>, ExecutionError>, reply: Reply, quiet: bool)
    requires e.Call?
    ensures var s' := Answer(e, s, args, reply, quiet).s;
      && s'.peer == s.peer && s'.history.(raised := Nowhere) == s.history.(raised := Nowhere)
      && (s'.trace == s.trace ==> SameCalls(s, s'))
      && (s'.trace != s.trace ==>
            && |s'.trace| == |s.trace| + 1 && s'.trace == s.trace + [s'.trace[|s.trace|]]
            && match s'.trace[|s.trace|]
               case CallRequested(id) =>
                 id == s'.lastCallId == NextCallId(s.lastCallId) && forall k :: k in s'.requests <==> k in s.requests || k == id
               case _ => s'.lastCallId == s.lastCallId && s'.requests == s.requests)
  {
  }

  // ---- every run ----

  lemma {:induction false} EvalGrows(e: Instr, path: Path, names: seq<string>, s: Ctx, quiet: bool)
    requires Scoped(e, path, names) && EnvOk(path, names, s.scalars.iterables)
    ensures Grows(s, Eval(e, path, names, s, quiet).s)
    decreases Inactive(names, s.scalars.iterables), Remaining(names, s.scalars.iterables), FoldsIn(path), e, 3
  {
    InstrGrows(e, path, names, s, quiet);
    var r := EvalInstr(e, path, names, s, quiet);
    AsideGrows(r.s, Eval(e, path, names, s, quiet).s);
    GrowsTrans(s, r.s, Eval(e, path, names, s, quiet).s);
  }

  lemma {:induction false} InstrGrows(e: Instr, path: Path, names: seq<string>, s: Ctx, quiet: bool)
    requires Scoped(e, path, names) && EnvOk(path, names, s.scalars.iterables)
    ensures Grows(s, EvalInstr(e, path, names, s, quiet).s)
    decreases Inactive(names, s.scalars.iterables), Remaining(names, s.scalars.iterables), FoldsIn(path), e, 2
  {
    match e {
      case Match(_, _, body) => MatchGrows(e, path, names, s, quiet);
      case MisMatch(_, _, body) => MatchGrows(e, path, names, s, quiet);
      case Seq(_, _) => SeqGrows(e, path, names, s);
      case Par(_, _) => ParGrows(e, path, names, s);
      case Xor(_, _) => XorGrows(e, path, names, s);
      case New(_, _, _) => NewGrows(e, path, names, s, quiet);
      case Fold(_, _, _, _) => FoldGrows(e, path, names, s, quiet);
      case Next(_) => NextGrows(e, path, names, s, quiet);
      case _ => LeafGrows(e, s, quiet);
    }
  }

  lemma {:induction false} MatchGrows(e: Instr, path: Path, names: seq<string>, s: Ctx, quiet: bool)
    requires e.Match? || e.MisMatch?
    requires Scoped(e, path, names) && EnvOk(path, names, s.scalars.iterables)
    ensures Grows(s, EvalMatch(e, path, names, s, quiet).s)
    decreases Inactive(names, s.scalars.iterables), Remaining(names, s.scalars.iterables), FoldsIn(path), e, 1
  {
    var equal := Compare(s, e.left, e.right);
    if equal.Ok? && equal.value == e.Match? {
      EvalGrows(e.body, path, names, s, quiet);
    } else {
      AsideGrows(s, EvalMatch(e, path, names, s, quiet).s);
    }
  }

  /** A second instruction, run after a step that leaves the record alone. */
  lemma {:induction false} SecondGrows(e: Instr, path: Path, names: seq<string>, s: Ctx, s1: Ctx, s2: Ctx, quiet: bool)
    requires EnvOk(path, names, s.scalars.iterables) && IteratorsKept(s.scalars.iterables, s1.scalars.iterables)
    requires s2.scalars == s1.scalars && Scoped(e, path, names) && Grows(s, s1) && Aside(s1, s2)
    ensures EnvOk(path, names, s2.scalars.iterables)
    ensures Grows(s, Eval(e, path, names, s2, quiet).s)
    decreases Inactive(names, s.scalars.iterables), Remaining(names, s.scalars.iterables), FoldsIn(path), e, 4
  {
    KeptMeasure(names, s.scalars.iterables, s2.scalars.iterables);
    EnvKept(path, names, s.scalars.iterables, s2.scalars.iterables);
    EvalGrows(e, path, names, s2, quiet);
    AsideGrows(s1, s2);
    GrowsTrans(s, s1, s2);
    GrowsTrans(s, s2, Eval(e, path, names, s2, quiet).s);
  }

  lemma {:induction false} SeqGrows(e: Instr, path: Path, names: seq<string>, s: Ctx)
    requires e.Seq?
    requires Scoped(e, path, names) && EnvOk(path, names, s.scalars.iterables)
    ensures Grows(s, EvalSeq(e, path, names, s).s)
    decreases Inactive(names, s.scalars.iterables), Remaining(names, s.scalars.iterables), FoldsIn(path), e, 1
  {
    EvalGrows(e.first, path, names, s, false);
    var r := Eval(e.first, path, names, s, false);
    if r.out == Done(true) {
      SecondGrows(e.second, path, names, s, r.s, r.s, false);
    }
  }

  lemma {:induction false} ParGrows(e: Instr, path: Path, names: seq<string>, s: Ctx)
    requires e.Par?
    requires Scoped(e, path, names) && EnvOk(path, names, s.scalars.iterables)
    ensures Grows(s, EvalPar(e, path, names, s).s)
    decreases Inactive(names, s.scalars.iterables), Remaining(names, s.scalars.iterables), FoldsIn(path), e, 1
  {
    EvalGrows(e.first, path, names, s, Quiet(e.first));
    var left := Eval(e.first, path, names, s, Quiet(e.first));
    if !left.Aborted() {
      var s2 := ParBranch(left).s;
      SecondGrows(e.second, path, names, s, left.s, s2, Quiet(e.second));
      var right := Eval(e.second, path, names, s2, Quiet(e.second));
      ParAside(s, left.out, right);
    }
  }

  lemma ParAside(s: Ctx, left: Outcome, right: Run)
    requires Grows(s, right.s)
    ensures Grows(s, ParBranch(right).s) && Grows(s, ParResult(left, ParBranch(right)).s)
  {
    AsideGrows(right.s, ParBranch(right).s);
    GrowsTrans(s, right.s, ParBranch(right).s);
    AsideGrows(right.s, ParResult(left, ParBranch(right)).s);
    GrowsTrans(s, right.s, ParResult(left, ParBranch(right)).s);
  }

  lemma {:induction false} XorGrows(e: Instr, path: Path, names: seq<string>, s: Ctx)
    requires e.Xor?
    requires Scoped(e, path, names) && EnvOk(path, names, s.scalars.iterables)
    ensures Grows(s, EvalXor(e, path, names, s).s)
    decreases Inactive(names, s.scalars.iterables), Remaining(names, s.scalars.iterables), FoldsIn(path), e, 1
  {
    EvalGrows(e.first, path, names, s, false);
    var r := Eval(e.first, path, names, s, false);
    if r.out.Failed? && !r.Aborted() {
      var s2 := CatchError(r.s, r.out.error.c);
      SecondGrows(e.second, path, names, s, r.s, s2, false);
      var handler := Eval(e.second, path, names, s2, false);
      AsideGrows(handler.s, EvalXor(e, path, names, s).s);
      GrowsTrans(s, handler.s, EvalXor(e, path, names, s).s);
    }
  }

  lemma NewAside(s: Ctx, a: NewArgument, span: S.Span, r: Run)
    ensures Aside(s, OpenNew(s, a, span)) && Aside(r.s, AfterNew(s, a, span, r).s)
  {
  }

  lemma {:induction false} NewGrows(e: Instr, path: Path, names: seq<string>, s: Ctx, quiet: bool)
    requires e.New?
    requires Scoped(e, path, names) && EnvOk(path, names, s.scalars.iterables)
    ensures Grows(s, EvalNew(e, path, names, s, quiet).s)
    decreases Inactive(names, s.scalars.iterables), Remaining(names, s.scalars.iterables), FoldsIn(path), e, 1
  {
    EnvOfNew(path, e.argument, e.span, names, s.scalars.iterables);
    var s', path' := OpenNew(s, e.argument, e.span), path + [NewScope(e.argument, e.span)];
    EvalGrows(e.body, path', names, s', quiet);
    var r := Eval(e.body, path', names, s', quiet);
    NewAside(s, e.argument, e.span, r);
    Between(s, s', r.s, AfterNew(s, e.argument, e.span, r).s);
  }

  lemma {:induction false} FoldGrows(e: Instr, path: Path, names: seq<string>, s: Ctx, quiet: bool)
    requires e.Fold?
    requires Scoped(e, path, names) && EnvOk(path, names, s.scalars.iterables)
    ensures Grows(s, EvalFold(e, path, names, s, quiet).s)
    decreases Inactive(names, s.scalars.iterables), Remaining(names, s.scalars.iterables), FoldsIn(path), e, 1
  {
    var items := Items(s, e.iterable);
    if items.Ok? && items.value != [] {
      ItemsGrow(e, items.value, path, names, s, quiet);
    } else {
      AsideGrows(s, EvalFold(e, path, names, s, quiet).s);
    }
  }

  lemma {:induction false} ItemsGrow(e: Instr, items: seq<JValue>, path: Path, names: seq<string>, s: Ctx, quiet: bool)
    requires e.Fold? && items != []
    requires Scoped(e, path, names) && EnvOk(path, names, s.scalars.iterables)
    ensures Grows(s, EvalItems(e, items, path, names, s, quiet).s)
    decreases Inactive(names, s.scalars.iterables), Remaining(names, s.scalars.iterables), FoldsIn(path), e, 0
  {
    if e.iter in s.scalars.iterables {
      AsideGrows(s, EvalItems(e, items, path, names, s, quiet).s);
    } else {
      var f := FoldState(items, 0, e.body, e.last);
      FoldEnv(e, items, path, names, s);
      var s', path' := EnterFold(s, e.iter, f), path + [FoldScope(e.iter)];
      EvalGrows(e.body, path', names, s', quiet);
      var r := Eval(e.body, path', names, s', quiet);
      LeaveFoldOk(s, e.iter, f, r);
      Between(s, s', r.s, LeaveFold(r.s, e.iter));
    }
  }

  lemma {:induction false} NextGrows(e: Instr, path: Path, names: seq<string>, s: Ctx, quiet: bool)
    requires e.Next?
    requires Scoped(e, path, names) && EnvOk(path, names, s.scalars.iterables)
    ensures Grows(s, EvalNext(e, path, names, s, quiet).s)
    decreases Inactive(names, s.scalars.iterables), Remaining(names, s.scalars.iterables), FoldsIn(path), e, 1
  {
    var k := FoldAt(path, e.iter);
    EnvOfNext(path, k, names, s.scalars.iterables);
    var last := s.scalars.iterables[e.iter].last;
    if CanAdvance(s.scalars.iterables, e.iter) {
      IterationGrows(e.iter, path, k, names, s, quiet);
    } else if last.Some? {
      EvalGrows(last.value, path[..k], names, s, false);
    } else {
      AsideGrows(s, s);
    }
  }

  lemma {:induction false} IterationGrows(i: string, path: Path, k: nat, names: seq<string>, s: Ctx, quiet: bool)
    requires k < |path| && path[k] == FoldScope(i) && EnvOk(path, names, s.scalars.iterables)
    requires CanAdvance(s.scalars.iterables, i)
    ensures Grows(s, EvalIteration(i, path, k, names, s, quiet).s)
    decreases Inactive(names, s.scalars.iterables), Remaining(names, s.scalars.iterables), 0
  {
    AdvanceEnv(i, path, k, names, s);
    var body := s.scalars.iterables[i].body;
    EvalGrows(body, path[..k + 1], names, Advance(s, i), quiet);
    var r := Eval(body, path[..k + 1], names, Advance(s, i), quiet);
    AfterNextOk(s, i, r);
    Between(s, Advance(s, i), r.s, AfterNext(r, i).s);
  }
}
