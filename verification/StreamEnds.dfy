/**
 * What the ends of `new`s remove. For every stream and every run: each end removed the
 * stream that its own start made if and only if the stream was not displaced, that is,
 * no first global value was added from outside of all its open `new`s. And exactly a
 * `new` that finds nothing to remove makes the interpreter panic.
 */
module StreamEnds {
  import opened Wrappers
  import opened Json
  import opened Errors
  import opened Ast
  import opened State
  import opened Semantics
  import opened Texts
  import Loops
  import S = Streams

  function StoreOf(s: Ctx, id: StreamId): S.Store {
    if id.isMap then s.streamMaps else s.streams
  }

  /** The texts of the streams of a name, oldest first. */
  function Spans(s: Ctx, id: StreamId): seq<S.Span> {
    SpansOf(StoreOf(s, id), id.name)
  }

  /** The same streams, or a global one where there was none. */
  predicate SpansKept(spans: seq<S.Span>, spans': seq<S.Span>) {
    spans' == spans || (spans == [] && spans' == [S.GLOBAL_SPAN])
  }

  /** A global stream in the place of open ones. */
  predicate Replaced(spans: seq<S.Span>, spans': seq<S.Span>) {
    spans != [] && spans[0] != S.GLOBAL_SPAN && spans' == [S.GLOBAL_SPAN]
  }

  // ---- one store ----

  lemma SpansOfIs(store: S.Store, name: string)
    ensures var ds := S.Descriptors(store, name);
      |SpansOf(store, name)| == |ds| && forall j | 0 <= j < |ds| :: SpansOf(store, name)[j] == ds[j].span
  {
  }

  lemma SameSpans(store: S.Store, store': S.Store, name: string)
    requires |S.Descriptors(store', name)| == |S.Descriptors(store, name)|
    requires forall j | 0 <= j < |S.Descriptors(store, name)| ::
      S.Descriptors(store', name)[j].span == S.Descriptors(store, name)[j].span
    ensures SpansOf(store', name) == SpansOf(store, name)
  {
  }

  /** A value added keeps the streams in place, except exactly when it is the first global one and others are open. */
  lemma AddKeepsUnlessDisplaced(store: S.Store, name: string, position: nat, value: JValue)
    requires 0 < position < S.USIZE_MAX
    ensures var store' := S.Add(store, name, position, value);
      && (SpansKept(SpansOf(store, name), SpansOf(store', name)) <==> !Displaces(store, name, position))
      && (Replaced(SpansOf(store, name), SpansOf(store', name)) <==> Displaces(store, name, position))
      && forall other | other != name :: SpansOf(store', other) == SpansOf(store, other)
  {
    var store' := S.Add(store, name, position, value);
    forall other | other != name
      ensures SpansOf(store', other) == SpansOf(store, other)
    {
      SameSpans(store, store', other);
    }
    SpansOfIs(store, name);
    SpansOfIs(store', name);
    var ds := S.Descriptors(store, name);
    if S.FindClosest(ds, position).Some? {
      SameSpans(store, store', name);
      assert S.GLOBAL_SPAN.Contains(position);
    } else {
      assert SpansOf(store', name) == [S.GLOBAL_SPAN];
      assert ds != [] ==> ds[0].span != S.GLOBAL_SPAN && SpansOf(store, name)[0] == ds[0].span;
    }
  }

  lemma SpansOfStart(store: S.Store, name: string, span: S.Span, other: string)
    ensures SpansOf(S.ScopeStart(store, name, span), other)
         == if other == name then SpansOf(store, name) + [span] else SpansOf(store, other)
  {
  }

  /** The end of a `new` removes the top of the streams. */
  lemma SpansOfEnd(store: S.Store, name: string, other: string)
    ensures var spans := SpansOf(store, name);
      && (S.ScopeEnd(store, name).None? <==> spans == [])
      && TopPlace(store, name) == (if spans == [] then None else Some(Place(|spans| - 1, spans[|spans| - 1])))
      && (spans != [] ==>
            SpansOf(S.ScopeEnd(store, name).value, other) == if other == name then spans[..|spans| - 1] else SpansOf(store, other))
  {
    if S.Descriptors(store, name) != [] {
      var left := S.ScopeEnd(store, name).value;
      SpansOfIs(store, name);
      if other != name {
        SameSpans(store, left, other);
      } else {
        SpansOfIs(left, name);
      }
    }
  }

  // ---- runs ----

  /** Each end of a `new` of this stream since `s` removed the stream its start made. */
  ghost predicate OwnEnds(id: StreamId, s: Ctx, s': Ctx) {
    forall j {:trigger s'.history.ends[j]} | |s.history.ends| <= j < |s'.history.ends| && s'.history.ends[j].id == id ::
      s'.history.ends[j].IsOwn()
  }

  /** Some end of a `new` since `s` found nothing to remove. */
  ghost predicate FoundNothing(s: Ctx, s': Ctx) {
    exists j {:trigger s'.history.ends[j]} :: |s.history.ends| <= j < |s'.history.ends| && s'.history.ends[j].popped.None?
  }

  ghost predicate Grown(s: Ctx, s': Ctx) {
    s.history.displaced <= s'.history.displaced && s.history.ends <= s'.history.ends
  }

  /**
   * What a run does to a stream, displaced before or after it or not, when all its ends
   * of `new`s removed their own streams or not.
   */
  predicate Moves(spans: seq<S.Span>, spans': seq<S.Span>, before: bool, after: bool, own: bool) {
    && (!after ==> SpansKept(spans, spans') && own)
    && (own ==> if after && !before then Replaced(spans, spans') else SpansKept(spans, spans') || Replaced(spans, spans'))
  }

  lemma MovesTwice(a: seq<S.Span>, b: seq<S.Span>, c: seq<S.Span>, before: bool, between: bool, after: bool, own: bool, own': bool)
    requires Moves(a, b, before, between, own) && Moves(b, c, between, after, own')
    requires (before ==> between) && (between ==> after)
    ensures Moves(a, c, before, after, own && own')
  {
  }

  /** The end of a `new` removes its own stream only if that is still in place. */
  lemma MovesInside(spans: seq<S.Span>, span: S.Span, inner: seq<S.Span>, before: bool, after: bool, own: bool)
    requires Moves(spans + [span], inner, before, after, own)
    ensures var pops := |inner| == |spans| + 1 && inner[|spans|] == span;
      Moves(spans, if inner == [] then [] else inner[..|inner| - 1], before, after, own && pops)
  {
  }

  ghost predicate Pops(id: StreamId, s: Ctx, r: Run) {
    && Grown(s, r.s)
    && Moves(Spans(s, id), Spans(r.s, id), id in s.history.displaced, id in r.s.history.displaced, OwnEnds(id, s, r.s))
    && (LostStream(r.out) <==> FoundNothing(s, r.s))
  }

  lemma EndsTwice(id: StreamId, s: Ctx, s1: Ctx, s2: Ctx)
    requires s.history.ends <= s1.history.ends <= s2.history.ends
    ensures OwnEnds(id, s, s2) <==> OwnEnds(id, s, s1) && OwnEnds(id, s1, s2)
    ensures FoundNothing(s, s2) <==> FoundNothing(s, s1) || FoundNothing(s1, s2)
  {
    var a, b := s1.history.ends, s2.history.ends;
    assert forall j | 0 <= j < |a| :: a[j] == b[j];
    if FoundNothing(s, s1) {
      var j :| |s.history.ends| <= j < |a| && a[j].popped.None?;
      assert b[j].popped.None?;
    }
    if FoundNothing(s, s2) && !FoundNothing(s1, s2) {
      var j :| |s.history.ends| <= j < |b| && b[j].popped.None?;
      assert j < |a| && a[j].popped.None?;
    }
  }

  lemma PopsTwice(id: StreamId, s: Ctx, s1: Ctx, r: Run)
    requires Pops(id, s, Run(s1, Done(true))) && Pops(id, s1, r)
    ensures Pops(id, s, r)
  {
    EndsTwice(id, s, s1, r.s);
    MovesTwice(Spans(s, id), Spans(s1, id), Spans(r.s, id), id in s.history.displaced, id in s1.history.displaced,
      id in r.s.history.displaced, OwnEnds(id, s, s1), OwnEnds(id, s1, r.s));
  }

  /** Streams and their record are the same. */
  predicate SameStreams(s: Ctx, s': Ctx) {
    && s'.streams == s.streams && s'.streamMaps == s.streamMaps
    && s'.history.displaced == s.history.displaced && s'.history.ends == s.history.ends
  }

  lemma SamePops(id: StreamId, s: Ctx, r: Run)
    requires SameStreams(s, r.s) && !LostStream(r.out)
    ensures Pops(id, s, r)
  {
  }

  /** Steps before and after a run that leave the streams alone. */
  lemma PopsBetween(id: StreamId, s: Ctx, s1: Ctx, r: Run, r': Run)
    requires SameStreams(s, s1) && Pops(id, s1, r) && SameStreams(r.s, r'.s) && LostStream(r'.out) == LostStream(r.out)
    ensures Pops(id, s, r')
  {
  }

  lemma RecordedPops(id: StreamId, s: Ctx, r: Run, e: Instr)
    requires Pops(id, s, r)
    ensures Pops(id, s, if r.out.Failed? && !e.Call? then r.(s := SetErrors(r.s, r.out.error, e, s.peer)) else r)
  {
    PopsBetween(id, s, s, r, if r.out.Failed? && !e.Call? then r.(s := SetErrors(r.s, r.out.error, e, s.peer)) else r);
  }

  // ---- instructions without a body ----

  lemma PositionInside(e: Instr, path: Path, root: Instr, id: StreamId, position: nat)
    requires Occurs(e, path, root, []) && Laid(root, 0, S.USIZE_MAX) && LooksUp(e, id, position)
    ensures 0 < position < S.USIZE_MAX
  {
    PathDecides(e, path, root, [], 0, S.USIZE_MAX, id, position);
  }

  lemma AddStreamPops(id: StreamId, e: Instr, path: Path, root: Instr, s: Ctx, quiet: bool)
    requires Occurs(e, path, root, []) && Laid(root, 0, S.USIZE_MAX) && e.ApStream?
    ensures Pops(id, s, AddToStream(e, s, quiet))
  {
    if Resolve(s, e.value).Ok? {
      PositionInside(e, path, root, StreamId(false, e.stream), e.position);
      AddKeepsUnlessDisplaced(s.streams, e.stream, e.position, Resolve(s, e.value).value);
    }
  }

  lemma AddMapPops(id: StreamId, e: Instr, path: Path, root: Instr, s: Ctx, quiet: bool)
    requires Occurs(e, path, root, []) && Laid(root, 0, S.USIZE_MAX) && e.ApMap?
    ensures Pops(id, s, AddToMap(e, s, quiet))
  {
    if Resolve(s, e.value).Ok? && ResolveKey(s, e.key, e.streamMap).Ok? {
      PositionInside(e, path, root, StreamId(true, e.streamMap), e.position);
      AddKeepsUnlessDisplaced(s.streamMaps, e.streamMap, e.position,
        FromKeyValue(ResolveKey(s, e.key, e.streamMap).value, Resolve(s, e.value).value));
    }
  }

  lemma LeafPops(id: StreamId, e: Instr, path: Path, root: Instr, s: Ctx, quiet: bool)
    requires IsLeaf(e) && Occurs(e, path, root, []) && Laid(root, 0, S.USIZE_MAX)
    ensures Pops(id, s, EvalLeaf(e, s, quiet))
  {
    if e.ApStream? {
      AddStreamPops(id, e, path, root, s, quiet);
    } else if e.ApMap? {
      AddMapPops(id, e, path, root, s, quiet);
    } else {
      SamePops(id, s, EvalLeaf(e, s, quiet));
    }
  }

  // ---- every run ----

  /** What `next` jumps to stands in the script where its fold does. */
  ghost predicate FoldsFrom(root: Instr, path: Path, its: Iterables) {
    forall k | 0 <= k < |path| && path[k].FoldScope? :: FoldFrom(root, path, k, its)
  }

  ghost predicate FoldFrom(root: Instr, path: Path, k: nat, its: Iterables)
    requires k < |path| && path[k].FoldScope?
  {
    && path[k].iter in its
    && Occurs(its[path[k].iter].body, path[..k + 1], root, [])
    && (match its[path[k].iter].last case None => true case Some(l) => Occurs(l, path[..k], root, []))
  }

  lemma FoldsKept(root: Instr, path: Path, its: Iterables, its': Iterables)
    requires FoldsFrom(root, path, its) && IteratorsKept(its, its')
    ensures FoldsFrom(root, path, its')
  {
    forall k | 0 <= k < |path| && path[k].FoldScope?
      ensures FoldFrom(root, path, k, its')
    {
      assert FoldFrom(root, path, k, its);
    }
  }

  lemma FoldsPrefix(root: Instr, path: Path, m: nat, its: Iterables)
    requires FoldsFrom(root, path, its) && m <= |path|
    ensures FoldsFrom(root, path[..m], its)
  {
    forall k | 0 <= k < m && path[..m][k].FoldScope?
      ensures FoldFrom(root, path[..m], k, its)
    {
      assert FoldFrom(root, path, k, its);
      assert path[..m][..k] == path[..k] && path[..m][..k + 1] == path[..k + 1];
    }
  }

  lemma FoldsOfNew(root: Instr, path: Path, a: NewArgument, span: S.Span, its: Iterables)
    requires FoldsFrom(root, path, its)
    ensures FoldsFrom(root, path + [NewScope(a, span)], its)
  {
    var path' := path + [NewScope(a, span)];
    forall k | 0 <= k < |path'| && path'[k].FoldScope?
      ensures FoldFrom(root, path', k, its)
    {
      assert FoldFrom(root, path, k, its);
      assert path'[..k] == path[..k] && path'[..k + 1] == path[..k + 1];
    }
  }

  lemma FoldsOfFold(root: Instr, e: Instr, items: seq<JValue>, path: Path, its: Iterables)
    requires e.Fold? && Occurs(e, path, root, []) && FoldsFrom(root, path, its) && e.iter !in its
    ensures FoldsFrom(root, path + [FoldScope(e.iter)], its[e.iter := FoldState(items, 0, e.body, e.last)])
  {
    var its', path' := its[e.iter := FoldState(items, 0, e.body, e.last)], path + [FoldScope(e.iter)];
    PartsOccur(e, path, root, []);
    forall k | 0 <= k < |path'| && path'[k].FoldScope?
      ensures FoldFrom(root, path', k, its')
    {
      if k < |path| {
        assert FoldFrom(root, path, k, its);
        assert path'[..k] == path[..k] && path'[..k + 1] == path[..k + 1];
      } else {
        assert path'[..k] == path && path'[..k + 1] == path';
      }
    }
  }

  /** Everything needed to run `e`, which stands at `path` in the script `root`. */
  ghost predicate Ready(root: Instr, e: Instr, path: Path, names: seq<string>, s: Ctx) {
    && Scoped(e, path, names) && EnvOk(path, names, s.scalars.iterables)
    && Laid(root, 0, S.USIZE_MAX) && Occurs(e, path, root, []) && FoldsFrom(root, path, s.scalars.iterables)
  }

  lemma {:induction false} EvalPops(id: StreamId, root: Instr, e: Instr, path: Path, names: seq<string>, s: Ctx, quiet: bool)
    requires Ready(root, e, path, names, s)
    ensures Pops(id, s, Eval(e, path, names, s, quiet))
    decreases Inactive(names, s.scalars.iterables), Remaining(names, s.scalars.iterables), FoldsIn(path), e, 3
  {
    InstrPops(id, root, e, path, names, s, quiet);
    RecordedPops(id, s, EvalInstr(e, path, names, s, quiet), e);
  }

  lemma {:induction false} InstrPops(id: StreamId, root: Instr, e: Instr, path: Path, names: seq<string>, s: Ctx, quiet: bool)
    requires Ready(root, e, path, names, s)
    ensures Pops(id, s, EvalInstr(e, path, names, s, quiet))
    decreases Inactive(names, s.scalars.iterables), Remaining(names, s.scalars.iterables), FoldsIn(path), e, 2
  {
    var r := EvalInstr(e, path, names, s, quiet);
    match e {
      case Match(_, _, _) => MatchPops(id, root, e, path, names, s, quiet); assert r == EvalMatch(e, path, names, s, quiet);
      case MisMatch(_, _, _) => MatchPops(id, root, e, path, names, s, quiet); assert r == EvalMatch(e, path, names, s, quiet);
      case Seq(_, _) => SeqPops(id, root, e, path, names, s); assert r == EvalSeq(e, path, names, s);
      case Par(_, _) => ParPops(id, root, e, path, names, s); assert r == EvalPar(e, path, names, s);
      case Xor(_, _) => XorPops(id, root, e, path, names, s); assert r == EvalXor(e, path, names, s);
      case New(_, _, _) => NewPops(id, root, e, path, names, s, quiet); assert r == EvalNew(e, path, names, s, quiet);
      case Fold(_, _, _, _) => FoldPops(id, root, e, path, names, s, quiet); assert r == EvalFold(e, path, names, s, quiet);
      case Next(_) => NextPops(id, root, e, path, names, s, quiet); assert r == EvalNext(e, path, names, s, quiet);
      case _ => LeafPops(id, e, path, root, s, quiet); assert r == EvalLeaf(e, s, quiet);
    }
  }

  lemma {:induction false} MatchPops(id: StreamId, root: Instr, e: Instr, path: Path, names: seq<string>, s: Ctx, quiet: bool)
    requires IsComparison(e) && Ready(root, e, path, names, s)
    ensures Pops(id, s, EvalMatch(e, path, names, s, quiet))
    decreases Inactive(names, s.scalars.iterables), Remaining(names, s.scalars.iterables), FoldsIn(path), e, 1
  {
    var equal, r := Compare(s, e.left, e.right), EvalMatch(e, path, names, s, quiet);
    if equal.Ok? && equal.value == e.Match? {
      PartsOccur(e, path, root, []);
      assert r == Eval(e.body, path, names, s, quiet);
      EvalPops(id, root, e.body, path, names, s, quiet);
    } else {
      SamePops(id, s, r);
    }
  }

  /** A second instruction, run after a first one and a step that leaves the streams alone. */
  lemma {:induction false} SecondPops(id: StreamId, root: Instr, e: Instr, path: Path, names: seq<string>, s: Ctx, r1: Run,
                                      s2: Ctx, quiet: bool)
    requires Ready(root, e, path, names, s) && Pops(id, s, r1) && !LostStream(r1.out)
    requires IteratorsKept(s.scalars.iterables, r1.s.scalars.iterables)
    requires s2.scalars == r1.s.scalars && SameStreams(r1.s, s2)
    ensures Ready(root, e, path, names, s2)
    ensures Pops(id, s, Eval(e, path, names, s2, quiet))
    decreases Inactive(names, s.scalars.iterables), Remaining(names, s.scalars.iterables), FoldsIn(path), e, 4
  {
    KeptMeasure(names, s.scalars.iterables, s2.scalars.iterables);
    EnvKept(path, names, s.scalars.iterables, s2.scalars.iterables);
    FoldsKept(root, path, s.scalars.iterables, s2.scalars.iterables);
    EvalPops(id, root, e, path, names, s2, quiet);
    PopsBetween(id, s, s, r1, Run(s2, Done(true)));
    PopsTwice(id, s, s2, Eval(e, path, names, s2, quiet));
  }

  lemma {:induction false} SeqPops(id: StreamId, root: Instr, e: Instr, path: Path, names: seq<string>, s: Ctx)
    requires e.Seq? && Ready(root, e, path, names, s)
    ensures Pops(id, s, EvalSeq(e, path, names, s))
    decreases Inactive(names, s.scalars.iterables), Remaining(names, s.scalars.iterables), FoldsIn(path), e, 1
  {
    PartsOccur(e, path, root, []);
    EvalPops(id, root, e.first, path, names, s, false);
    var r := Eval(e.first, path, names, s, false);
    if r.out == Done(true) {
      SecondPops(id, root, e.second, path, names, s, r, r.s, false);
    }
  }

  lemma {:induction false} ParPops(id: StreamId, root: Instr, e: Instr, path: Path, names: seq<string>, s: Ctx)
    requires e.Par? && Ready(root, e, path, names, s)
    ensures Pops(id, s, EvalPar(e, path, names, s))
    decreases Inactive(names, s.scalars.iterables), Remaining(names, s.scalars.iterables), FoldsIn(path), e, 1
  {
    Loops.BranchesRun(e.first, e.second, path, names, s);
    BranchesPop(id, root, e, path, names, s, EvalPar(e, path, names, s));
  }

  lemma {:induction false} BranchesPop(id: StreamId, root: Instr, e: Instr, path: Path, names: seq<string>, s: Ctx, r: Run)
    requires e.Par? && Ready(root, e, path, names, s)
    requires var left := ParBranch(Eval(e.first, path, names, s, Quiet(e.first)));
      if left.Aborted() then r == left
      else
        EnvOk(path, names, left.s.scalars.iterables) &&
        var right := Eval(e.second, path, names, left.s, Quiet(e.second));
        r == if right.Aborted() then right else ParResult(left.out, ParBranch(right))
    ensures Pops(id, s, r)
    decreases Inactive(names, s.scalars.iterables), Remaining(names, s.scalars.iterables), FoldsIn(path), e, 0
  {
    PartsOccur(e, path, root, []);
    EvalPops(id, root, e.first, path, names, s, Quiet(e.first));
    var left := Eval(e.first, path, names, s, Quiet(e.first));
    if !left.Aborted() {
      SecondPops(id, root, e.second, path, names, s, left, ParBranch(left).s, Quiet(e.second));
      ParAside(id, s, ParBranch(left).out, Eval(e.second, path, names, ParBranch(left).s, Quiet(e.second)));
    }
  }

  lemma ParAside(id: StreamId, s: Ctx, left: Outcome, right: Run)
    requires Pops(id, s, right)
    ensures right.Aborted() || Pops(id, s, ParResult(left, ParBranch(right)))
  {
    if !right.Aborted() {
      PopsBetween(id, s, s, right, ParResult(left, ParBranch(right)));
    }
  }

  lemma {:induction false} XorPops(id: StreamId, root: Instr, e: Instr, path: Path, names: seq<string>, s: Ctx)
    requires e.Xor? && Ready(root, e, path, names, s)
    ensures Pops(id, s, EvalXor(e, path, names, s))
    decreases Inactive(names, s.scalars.iterables), Remaining(names, s.scalars.iterables), FoldsIn(path), e, 1
  {
    PartsOccur(e, path, root, []);
    EvalPops(id, root, e.first, path, names, s, false);
    var r := Eval(e.first, path, names, s, false);
    if r.out.Failed? && !r.Aborted() {
      var caught := CatchError(r.s, r.out.error.c);
      var handler := HandlerPops(id, root, e, path, names, s, r, caught);
      assert EvalXor(e, path, names, s) == handler.(s := LeaveHandler(handler.s, handler.out, caught));
    }
  }

  lemma {:induction false} HandlerPops(id: StreamId, root: Instr, e: Instr, path: Path, names: seq<string>, s: Ctx, r: Run,
                                       caught: Ctx)
    returns (handler: Run)
    requires e.Xor? && Ready(root, e.second, path, names, s) && Pops(id, s, r) && !LostStream(r.out)
    requires IteratorsKept(s.scalars.iterables, r.s.scalars.iterables)
    requires caught.scalars == r.s.scalars && SameStreams(r.s, caught)
    ensures EnvOk(path, names, caught.scalars.iterables)
    ensures handler == Eval(e.second, path, names, caught, false)
    ensures Pops(id, s, handler.(s := LeaveHandler(handler.s, handler.out, caught)))
    decreases Inactive(names, s.scalars.iterables), Remaining(names, s.scalars.iterables), FoldsIn(path), e, 0
  {
    SecondPops(id, root, e.second, path, names, s, r, caught, false);
    handler := Eval(e.second, path, names, caught, false);
    PopsBetween(id, s, s, handler, handler.(s := LeaveHandler(handler.s, handler.out, caught)));
  }

  /** The end of a `new` after a run of its body. */
  lemma ClosePops(id: StreamId, s: Ctx, a: NewArgument, span: S.Span, r: Run)
    requires Pops(id, OpenNew(s, a, span), r)
    ensures Pops(id, s, AfterNew(s, a, span, r))
  {
    match a {
      case NewStream(n) => CloseStreamPops(id, StreamId(false, n), s, a, span, r);
      case NewStreamMap(n) => CloseStreamPops(id, StreamId(true, n), s, a, span, r);
      case _ => PopsBetween(id, s, OpenNew(s, a, span), r, AfterNew(s, a, span, r));
    }
  }

  /** What the end of a `new` of a stream does. */
  lemma CloseStream(id: StreamId, own: StreamId, s: Ctx, a: NewArgument, span: S.Span, r: Run)
    requires Restricts(a, own)
    ensures var r', spans := AfterNew(s, a, span, r), Spans(r.s, own);
      var popped := if spans == [] then None else Some(Place(|spans| - 1, spans[|spans| - 1]));
      && r'.s.history.displaced == r.s.history.displaced
      && r'.s.history.ends == r.s.history.ends + [EndRecord(own, Place(|Spans(s, own)|, span), popped)]
      && Spans(r'.s, id) == (if id == own && spans != [] then spans[..|spans| - 1] else Spans(r.s, id))
      && (LostStream(r'.out) <==> LostStream(r.out) || spans == [])
  {
    SpansOfEnd(StoreOf(r.s, own), own.name, id.name);
    SpansOfIs(StoreOf(s, own), own.name);
  }

  lemma CloseStreamPops(id: StreamId, own: StreamId, s: Ctx, a: NewArgument, span: S.Span, r: Run)
    requires Restricts(a, own) && Pops(id, OpenNew(s, a, span), r)
    ensures Pops(id, s, AfterNew(s, a, span, r))
  {
    var r', s1 := AfterNew(s, a, span, r), OpenNew(s, a, span);
    CloseStream(id, own, s, a, span, r);
    LastEnd(id, s1, r.s, r'.s, r'.s.history.ends[|r.s.history.ends|]);
    SameEnds(id, s, s1, r'.s);
    CloseMoves(id, own, s, a, span, r);
  }

  lemma SameEnds(id: StreamId, s: Ctx, s1: Ctx, s': Ctx)
    requires s1.history.ends == s.history.ends
    ensures OwnEnds(id, s, s') <==> OwnEnds(id, s1, s')
    ensures FoundNothing(s, s') <==> FoundNothing(s1, s')
  {
  }

  lemma CloseMoves(id: StreamId, own: StreamId, s: Ctx, a: NewArgument, span: S.Span, r: Run)
    requires Restricts(a, own)
    requires var s1 := OpenNew(s, a, span);
      Moves(Spans(s1, id), Spans(r.s, id), id in s.history.displaced, id in r.s.history.displaced, OwnEnds(id, s1, r.s))
    ensures var s1, r' := OpenNew(s, a, span), AfterNew(s, a, span, r);
      |r'.s.history.ends| > |r.s.history.ends| &&
      var end := r'.s.history.ends[|r.s.history.ends|];
      Moves(Spans(s, id), Spans(r'.s, id), id in s.history.displaced, id in r'.s.history.displaced,
            OwnEnds(id, s1, r.s) && (end.id == id ==> end.IsOwn()))
  {
    CloseStream(id, own, s, a, span, r);
    OpenStream(id, own, s, a, span);
    MovesOut(id == own, Spans(s, id), span, Spans(r.s, id), id in s.history.displaced, id in r.s.history.displaced,
      OwnEnds(id, OpenNew(s, a, span), r.s), AfterNew(s, a, span, r).s.history.ends[|r.s.history.ends|]);
  }

  lemma OpenStream(id: StreamId, own: StreamId, s: Ctx, a: NewArgument, span: S.Span)
    requires Restricts(a, own)
    ensures Spans(OpenNew(s, a, span), id) == if id == own then Spans(s, id) + [span] else Spans(s, id)
  {
    SpansOfStart(StoreOf(s, own), own.name, span, id.name);
  }

  lemma MovesOut(same: bool, spans: seq<S.Span>, span: S.Span, inner: seq<S.Span>, before: bool, after: bool, own: bool, end: EndRecord)
    requires Moves(if same then spans + [span] else spans, inner, before, after, own)
    requires same ==> end.own == Place(|spans|, span)
    requires same ==> end.popped == (if inner == [] then None else Some(Place(|inner| - 1, inner[|inner| - 1])))
    ensures Moves(spans, if same && inner != [] then inner[..|inner| - 1] else inner, before, after, own && (same ==> end.IsOwn()))
  {
    if same {
      MovesInside(spans, span, inner, before, after, own);
    }
  }

  lemma LastEnd(id: StreamId, s: Ctx, s1: Ctx, s2: Ctx, end: EndRecord)
    requires s.history.ends <= s1.history.ends && s2.history.ends == s1.history.ends + [end]
    ensures OwnEnds(id, s, s2) <==> OwnEnds(id, s, s1) && (end.id == id ==> end.IsOwn())
    ensures FoundNothing(s, s2) <==> FoundNothing(s, s1) || end.popped.None?
  {
    EndsTwice(id, s, s1, s2);
    assert s2.history.ends[|s1.history.ends|] == end;
  }

  lemma NewReady(root: Instr, e: Instr, path: Path, names: seq<string>, s: Ctx)
    requires e.New? && Ready(root, e, path, names, s)
    ensures Ready(root, e.body, path + [NewScope(e.argument, e.span)], names, OpenNew(s, e.argument, e.span))
    ensures OpenNew(s, e.argument, e.span).scalars.iterables == s.scalars.iterables
    ensures FoldsIn(path + [NewScope(e.argument, e.span)]) == FoldsIn(path)
  {
    EnvOfNew(path, e.argument, e.span, names, s.scalars.iterables);
    PartsOccur(e, path, root, []);
    FoldsOfNew(root, path, e.argument, e.span, s.scalars.iterables);
  }

  lemma {:induction false} NewPops(id: StreamId, root: Instr, e: Instr, path: Path, names: seq<string>, s: Ctx, quiet: bool)
    requires e.New? && Ready(root, e, path, names, s)
    ensures Pops(id, s, EvalNew(e, path, names, s, quiet))
    decreases Inactive(names, s.scalars.iterables), Remaining(names, s.scalars.iterables), FoldsIn(path), e, 1
  {
    NewReady(root, e, path, names, s);
    var path', s' := path + [NewScope(e.argument, e.span)], OpenNew(s, e.argument, e.span);
    EvalPops(id, root, e.body, path', names, s', quiet);
    ClosePops(id, s, e.argument, e.span, Eval(e.body, path', names, s', quiet));
  }

  lemma {:induction false} FoldPops(id: StreamId, root: Instr, e: Instr, path: Path, names: seq<string>, s: Ctx, quiet: bool)
    requires e.Fold? && Ready(root, e, path, names, s)
    ensures Pops(id, s, EvalFold(e, path, names, s, quiet))
    decreases Inactive(names, s.scalars.iterables), Remaining(names, s.scalars.iterables), FoldsIn(path), e, 1
  {
    var items := Items(s, e.iterable);
    if items.Ok? && items.value != [] {
      ItemsPop(id, root, e, items.value, path, names, s, quiet);
    } else {
      SamePops(id, s, EvalFold(e, path, names, s, quiet));
    }
  }

  lemma {:induction false} ItemsPop(id: StreamId, root: Instr, e: Instr, items: seq<JValue>, path: Path, names: seq<string>,
                                    s: Ctx, quiet: bool)
    requires e.Fold? && items != [] && Ready(root, e, path, names, s)
    ensures Pops(id, s, EvalItems(e, items, path, names, s, quiet))
    decreases Inactive(names, s.scalars.iterables), Remaining(names, s.scalars.iterables), FoldsIn(path), e, 0
  {
    if e.iter in s.scalars.iterables {
      SamePops(id, s, EvalItems(e, items, path, names, s, quiet));
    } else {
      var f := FoldState(items, 0, e.body, e.last);
      FoldEnv(e, items, path, names, s);
      FoldsOfFold(root, e, items, path, s.scalars.iterables);
      PartsOccur(e, path, root, []);
      var s', path' := EnterFold(s, e.iter, f), path + [FoldScope(e.iter)];
      EvalPops(id, root, e.body, path', names, s', quiet);
      var r := Eval(e.body, path', names, s', quiet);
      LeaveFoldOk(s, e.iter, f, r);
      PopsBetween(id, s, s', r, r.(s := LeaveFold(r.s, e.iter)));
    }
  }

  lemma {:induction false} NextPops(id: StreamId, root: Instr, e: Instr, path: Path, names: seq<string>, s: Ctx, quiet: bool)
    requires e.Next? && Ready(root, e, path, names, s)
    ensures Pops(id, s, EvalNext(e, path, names, s, quiet))
    decreases Inactive(names, s.scalars.iterables), Remaining(names, s.scalars.iterables), FoldsIn(path), e, 1
  {
    var k := FoldAt(path, e.iter);
    EnvOfNext(path, k, names, s.scalars.iterables);
    assert FoldFrom(root, path, k, s.scalars.iterables);
    var last := s.scalars.iterables[e.iter].last;
    if CanAdvance(s.scalars.iterables, e.iter) {
      IterationPops(id, root, e.iter, path, k, names, s, quiet);
    } else if last.Some? {
      FoldsPrefix(root, path, k, s.scalars.iterables);
      EvalPops(id, root, last.value, path[..k], names, s, false);
    } else {
      SamePops(id, s, Run(s, Done(!quiet)));
    }
  }

  lemma {:induction false} IterationPops(id: StreamId, root: Instr, i: string, path: Path, k: nat, names: seq<string>, s: Ctx,
                                         quiet: bool)
    requires k < |path| && path[k] == FoldScope(i) && EnvOk(path, names, s.scalars.iterables)
    requires CanAdvance(s.scalars.iterables, i) && Laid(root, 0, S.USIZE_MAX) && FoldsFrom(root, path, s.scalars.iterables)
    ensures Pops(id, s, EvalIteration(i, path, k, names, s, quiet))
    decreases Inactive(names, s.scalars.iterables), Remaining(names, s.scalars.iterables), 0
  {
    AdvanceEnv(i, path, k, names, s);
    IterationReady(root, i, path, k, names, s);
    var body, s' := s.scalars.iterables[i].body, Advance(s, i);
    EvalPops(id, root, body, path[..k + 1], names, s', quiet);
    var r := Eval(body, path[..k + 1], names, s', quiet);
    AfterNextOk(s, i, r);
    PopsBetween(id, s, s', r, AfterNext(r, i));
  }

  lemma IterationReady(root: Instr, i: string, path: Path, k: nat, names: seq<string>, s: Ctx)
    requires k < |path| && path[k] == FoldScope(i) && EnvOk(path, names, s.scalars.iterables)
    requires CanAdvance(s.scalars.iterables, i) && Laid(root, 0, S.USIZE_MAX) && FoldsFrom(root, path, s.scalars.iterables)
    ensures Ready(root, s.scalars.iterables[i].body, path[..k + 1], names, Advance(s, i))
  {
    AdvanceEnv(i, path, k, names, s);
    assert FoldFrom(root, path, k, s.scalars.iterables);
    FoldsPrefix(root, path, k + 1, s.scalars.iterables);
    FoldsKept(root, path[..k + 1], s.scalars.iterables, Advance(s, i).scalars.iterables);
  }

  /**
   * Whole scripts, stream by stream: all ends of `new`s of the stream removed what
   * their own starts made if and only if the stream was not displaced; and a `new` that
   * finds nothing to remove is what stops the interpreter.
   */
  lemma EndsAreOwnExactly(id: StreamId, root: Instr, names: seq<string>, initPeer: string, peer: string, replies: seq<Reply>,
                          lastCallId: nat)
    requires Scoped(root, [], names) && Laid(root, 0, S.USIZE_MAX)
    ensures var r := Eval(root, [], names, Initial(initPeer, peer, replies, lastCallId), false);
      && ((forall end | end in r.s.history.ends && end.id == id :: end.IsOwn()) <==> id !in r.s.history.displaced)
      && (LostStream(r.out) <==> exists end :: end in r.s.history.ends && end.popped.None?)
      && (r.s.history.displaced == {} ==> !LostStream(r.out))
  {
    var s := Initial(initPeer, peer, replies, lastCallId);
    var r := Eval(root, [], names, s, false);
    EvalPops(id, root, root, [], names, s, false);
    assert Spans(s, id) == [];
    assert OwnEnds(id, s, r.s) <==> forall end | end in r.s.history.ends && end.id == id :: end.IsOwn();
    if FoundNothing(s, r.s) {
      var j :| 0 <= j < |r.s.history.ends| && r.s.history.ends[j].popped.None?;
      EvalPops(r.s.history.ends[j].id, root, root, [], names, s, false);
    }
  }
}
