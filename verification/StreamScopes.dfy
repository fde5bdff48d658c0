/**
 * Streams and stream maps are scoped by the text. Whatever a script does with `new`,
 * `fold` and `next`, a lookup finds the most recent activation of the innermost `new`
 * around it in the text, or else the global stream, as long as the stream was not
 * displaced. It never is if no `next` inside a `new` of it leads to a fold outside of
 * that `new`; and with such a `next` it can be.
 */
module StreamScopes {
  import opened Wrappers
  import opened Json
  import opened Errors
  import opened Ast
  import opened State
  import opened Semantics
  import opened Texts
  import opened StreamEnds
  import Loops
  import Progress
  import S = Streams

  // ---- the streams of one name ----

  /** The most recent activation of any of these `new`s. */
  function Newest(spans: seq<S.Span>, chain: seq<S.Span>): Option<S.Span> {
    if spans == [] then None
    else if spans[|spans| - 1] in chain then Some(spans[|spans| - 1])
    else Newest(spans[..|spans| - 1], chain)
  }

  /** The global stream is the oldest; all others were opened by a `new` of the script. */
  ghost predicate Opened(root: Instr, id: StreamId, spans: seq<S.Span>) {
    forall j | 0 <= j < |spans| :: (j == 0 && spans[j] == S.GLOBAL_SPAN) || HasNew(root, id, spans[j])
  }

  /** At every level of the path the innermost `new` so far was activated after the ones around it. */
  ghost predicate InOrder(path: Path, id: StreamId, spans: seq<S.Span>) {
    forall n {:trigger path[..n]} | 0 <= n <= |path| ::
      Newest(spans, Chain(path[..n], id)) == LastOf(Chain(path[..n], id))
  }

  /** What a lookup ought to find. */
  ghost predicate Resolved(root: Instr, l: LookupRecord) {
    match Innermost(root, l.id, l.position)
    case Some(span) =>
      && l.found.Some? && l.found.value < |l.spans| && l.spans[l.found.value] == span
      && forall j | l.found.value < j < |l.spans| :: l.spans[j] != span
    case None => l.found == if l.spans != [] && l.spans[0] == S.GLOBAL_SPAN then Some(0) else None
  }

  lemma {:induction false} NewestLast(spans: seq<S.Span>, chain: seq<S.Span>) returns (k: nat)
    requires Newest(spans, chain).Some?
    ensures k < |spans| && spans[k] == Newest(spans, chain).value && spans[k] in chain
    ensures forall j | k < j < |spans| :: spans[j] !in chain
  {
    k := |spans| - 1;
    if spans[k] !in chain {
      k := NewestLast(spans[..|spans| - 1], chain);
    }
  }

  lemma ClosestIsInnermost(root: Instr, path: Path, id: StreamId, ds: seq<S.StreamDescriptor>, spans: seq<S.Span>, position: nat)
    requires |spans| == |ds| && forall j | 0 <= j < |ds| :: spans[j] == ds[j].span
    requires Opened(root, id, spans) && InOrder(path, id, spans)
    requires Decided(root, path, id, position) && 0 < position < S.USIZE_MAX
    ensures Resolved(root, LookupRecord(id, position, spans, S.FindClosest(ds, position)))
  {
    var chain, found := Chain(path, id), S.FindClosest(ds, position);
    assert path[..|path|] == path;
    assert Newest(spans, chain) == LastOf(chain);
    if chain != [] {
      var k := NewestLast(spans, chain);
      assert spans[k].Contains(position);
      forall j | k < j < |spans|
        ensures !spans[j].Contains(position)
      {
        assert spans[j] in chain <==> HasNew(root, id, spans[j]) && spans[j].Contains(position);
      }
    } else {
      forall j | 0 <= j < |spans|
        ensures spans[j].Contains(position) ==> j == 0 && spans[j] == S.GLOBAL_SPAN
      {
        assert spans[j] in chain <==> HasNew(root, id, spans[j]) && spans[j].Contains(position);
      }
    }
  }

  lemma InOrderKept(path: Path, id: StreamId, spans: seq<S.Span>, spans': seq<S.Span>)
    requires InOrder(path, id, spans) && SpansKept(spans, spans')
    ensures InOrder(path, id, spans')
  {
    if spans == [] {
      forall n | 0 <= n <= |path|
        ensures Newest(spans', Chain(path[..n], id)) == LastOf(Chain(path[..n], id))
      {
        assert Newest(spans, Chain(path[..n], id)) == None;
      }
    }
  }

  lemma InOrderPrefix(path: Path, m: nat, id: StreamId, spans: seq<S.Span>)
    requires InOrder(path, id, spans) && m <= |path|
    ensures InOrder(path[..m], id, spans)
  {
    forall n | 0 <= n <= m
      ensures Newest(spans, Chain(path[..m][..n], id)) == LastOf(Chain(path[..m][..n], id))
    {
      assert path[..m][..n] == path[..n];
    }
  }

  /** A scope that does not restrict the name changes nothing for it. */
  lemma InOrderOther(path: Path, scope: Scope, id: StreamId, spans: seq<S.Span>)
    requires InOrder(path, id, spans)
    requires scope.NewScope? ==> !Restricts(scope.argument, id)
    ensures InOrder(path + [scope], id, spans)
  {
    var path' := path + [scope];
    forall n | 0 <= n <= |path'|
      ensures Newest(spans, Chain(path'[..n], id)) == LastOf(Chain(path'[..n], id))
    {
      if n <= |path| {
        assert path'[..n] == path[..n];
      } else {
        assert path'[..n] == path' && path'[..|path|] == path && path[..|path|] == path;
        assert Newest(spans, Chain(path[..|path|], id)) == LastOf(Chain(path[..|path|], id));
      }
    }
  }

  /** A new activation is the newest inside its own text, and does not concern what is around it. */
  lemma InOrderOpen(path: Path, a: NewArgument, span: S.Span, id: StreamId, spans: seq<S.Span>)
    requires InOrder(path, id, spans) && Restricts(a, id)
    requires span !in Chain(path, id)
    ensures InOrder(path + [NewScope(a, span)], id, spans + [span])
  {
    var path', spans' := path + [NewScope(a, span)], spans + [span];
    assert spans'[..|spans|] == spans;
    forall n | 0 <= n <= |path'|
      ensures Newest(spans', Chain(path'[..n], id)) == LastOf(Chain(path'[..n], id))
    {
      if n <= |path| {
        assert path'[..n] == path[..n];
        assert path[..n] + path[n..] == path;
        ChainConcat(path[..n], path[n..], id);
        assert Newest(spans, Chain(path[..n], id)) == LastOf(Chain(path[..n], id));
      } else {
        assert path'[..n] == path' && path'[..|path|] == path;
        assert Chain(path', id) == Chain(path, id) + [span];
      }
    }
  }

  // ---- scripts whose streams stay in place ----

  /** Every `next` in `e` leads to a fold that is inside of all `new`s of the stream around the `next`. */
  predicate Sealed(e: Instr, path: Path, id: StreamId) {
    match e
    case Next(i) => FoldScope(i) in path ==> Chain(path[FoldAt(path, i)..], id) == []
    case Fold(_, i, body, last) =>
      && Sealed(body, path + [FoldScope(i)], id)
      && (match last case None => true case Some(l) => Sealed(l, path, id))
    case New(a, span, body) => Sealed(body, path + [NewScope(a, span)], id)
    case Match(_, _, body) => Sealed(body, path, id)
    case MisMatch(_, _, body) => Sealed(body, path, id)
    case Seq(a, b) => Sealed(a, path, id) && Sealed(b, path, id)
    case Par(a, b) => Sealed(a, path, id) && Sealed(b, path, id)
    case Xor(a, b) => Sealed(a, path, id) && Sealed(b, path, id)
    case _ => true
  }

  lemma {:induction false} PartsAreSealed(e: Instr, path: Path, root: Instr, base: Path, id: StreamId)
    requires Occurs(e, path, root, base) && Sealed(root, base, id)
    ensures Sealed(e, path, id)
    decreases root
  {
    if !(e == root && path == base) {
      if IsPair(root) {
        PartsAreSealed(e, path, if Occurs(e, path, root.first, base) then root.first else root.second, base, id);
      } else if IsComparison(root) {
        PartsAreSealed(e, path, root.body, base, id);
      } else if root.New? {
        PartsAreSealed(e, path, root.body, base + [NewScope(root.argument, root.span)], id);
      } else if Occurs(e, path, root.body, base + [FoldScope(root.iter)]) {
        PartsAreSealed(e, path, root.body, base + [FoldScope(root.iter)], id);
      } else {
        PartsAreSealed(e, path, root.last.value, base, id);
      }
    }
  }

  /** The open streams are exactly the `new`s around the instruction, over a global one or not. */
  predicate Exactly(path: Path, id: StreamId, spans: seq<S.Span>) {
    spans == Chain(path, id) || spans == [S.GLOBAL_SPAN] + Chain(path, id)
  }

  lemma ExactlyPrefix(path: Path, k: nat, m: nat, id: StreamId, spans: seq<S.Span>)
    requires k <= m <= |path| && Exactly(path, id, spans) && Chain(path[k..], id) == []
    ensures Exactly(path[..m], id, spans)
  {
    assert path == path[..k] + path[k..] && path[k..] == path[k..m] + path[m..] && path[..m] == path[..k] + path[k..m];
    ChainConcat(path[..k], path[k..], id);
    ChainConcat(path[k..m], path[m..], id);
    ChainConcat(path[..k], path[k..m], id);
  }

  lemma ExactlyOpen(path: Path, scope: Scope, id: StreamId, spans: seq<S.Span>)
    requires Exactly(path, id, spans)
    ensures var opens := scope.NewScope? && Restricts(scope.argument, id);
      Exactly(path + [scope], id, if opens then spans + [scope.span] else spans)
  {
    assert (path + [scope])[..|path|] == path;
  }

  lemma ExactlyInPlace(root: Instr, path: Path, id: StreamId, store: S.Store, position: nat)
    requires Exactly(path, id, SpansOf(store, id.name)) && Decided(root, path, id, position) && 0 < position < S.USIZE_MAX
    ensures !Displaces(store, id.name, position)
  {
    var spans, chain, ds := SpansOf(store, id.name), Chain(path, id), S.Descriptors(store, id.name);
    SpansOfIs(store, id.name);
    if spans != [] {
      var k := |spans| - 1;
      if chain != [] {
        assert spans[k] == chain[|chain| - 1] && spans[k] in chain;
      }
      assert ds[k].span.Contains(position);
    }
  }

  // ---- runs ----

  /** Where an instruction starts, as far as one stream is concerned. */
  ghost predicate InPlace(root: Instr, path: Path, id: StreamId, spans: seq<S.Span>) {
    && Opened(root, id, spans) && InOrder(path, id, spans)
    && (Sealed(root, [], id) ==> Exactly(path, id, spans))
  }

  lemma InPlaceKept(root: Instr, path: Path, id: StreamId, spans: seq<S.Span>, spans': seq<S.Span>)
    requires InPlace(root, path, id, spans) && SpansKept(spans, spans')
    ensures InPlace(root, path, id, spans')
  {
    InOrderKept(path, id, spans, spans');
  }

  lemma InPlaceOfFold(root: Instr, path: Path, i: string, id: StreamId, spans: seq<S.Span>)
    requires InPlace(root, path, id, spans)
    ensures InPlace(root, path + [FoldScope(i)], id, spans)
  {
    InOrderOther(path, FoldScope(i), id, spans);
    if Sealed(root, [], id) {
      ExactlyOpen(path, FoldScope(i), id, spans);
    }
  }

  lemma InPlaceOfNew(root: Instr, e: Instr, path: Path, id: StreamId, s: Ctx)
    requires e.New? && Laid(root, 0, S.USIZE_MAX) && Occurs(e, path, root, []) && InPlace(root, path, id, Spans(s, id))
    ensures InPlace(root, path + [NewScope(e.argument, e.span)], id, Spans(OpenNew(s, e.argument, e.span), id))
  {
    NewIsInner(e, path, root, [], 0, S.USIZE_MAX, id);
    assert path[0..] == path;
    if Restricts(e.argument, id) {
      SpansOfStart(StoreOf(s, id), id.name, e.span, id.name);
    } else {
      OtherSpans(s, e.argument, e.span, id);
    }
    InPlaceOpen(root, path, NewScope(e.argument, e.span), id, Spans(s, id));
  }

  lemma InPlaceOpen(root: Instr, path: Path, scope: Scope, id: StreamId, spans: seq<S.Span>)
    requires InPlace(root, path, id, spans) && scope.NewScope?
    requires Restricts(scope.argument, id) ==> scope.span !in Chain(path, id) && HasNew(root, id, scope.span)
    ensures InPlace(root, path + [scope], id, if Restricts(scope.argument, id) then spans + [scope.span] else spans)
  {
    if Restricts(scope.argument, id) {
      OpenedMore(root, id, spans, scope.span);
      InOrderOpen(path, scope.argument, scope.span, id, spans);
    } else {
      InOrderOther(path, scope, id, spans);
    }
    SealedOpen(root, path, scope, id, spans);
  }

  lemma OpenedMore(root: Instr, id: StreamId, spans: seq<S.Span>, span: S.Span)
    requires Opened(root, id, spans) && HasNew(root, id, span)
    ensures Opened(root, id, spans + [span])
  {
  }

  lemma SealedOpen(root: Instr, path: Path, scope: Scope, id: StreamId, spans: seq<S.Span>)
    requires scope.NewScope? && (Sealed(root, [], id) ==> Exactly(path, id, spans))
    ensures Sealed(root, [], id) ==>
      Exactly(path + [scope], id, if Restricts(scope.argument, id) then spans + [scope.span] else spans)
  {
    if Exactly(path, id, spans) {
      ExactlyOpen(path, scope, id, spans);
    }
  }

  lemma OtherSpans(s: Ctx, a: NewArgument, span: S.Span, id: StreamId)
    requires !Restricts(a, id)
    ensures Spans(OpenNew(s, a, span), id) == Spans(s, id)
  {
    match a {
      case NewStream(x) => SpansOfStart(s.streams, x, span, id.name);
      case NewStreamMap(x) => SpansOfStart(s.streamMaps, x, span, id.name);
      case _ =>
    }
  }

  /** All lookups of the stream made since resolved by the text. */
  ghost predicate LookupsOk(root: Instr, id: StreamId, s: Ctx, s': Ctx) {
    forall j {:trigger s'.history.lookups[j]} |
      |s.history.lookups| <= j < |s'.history.lookups| && s'.history.lookups[j].id == id :: Resolved(root, s'.history.lookups[j])
  }

  ghost predicate Tracks(root: Instr, id: StreamId, s: Ctx, r: Run) {
    && s.history.displaced <= r.s.history.displaced && s.history.lookups <= r.s.history.lookups
    && (id !in r.s.history.displaced ==> LookupsOk(root, id, s, r.s))
    && (Sealed(root, [], id) && id !in s.history.displaced ==> id !in r.s.history.displaced)
  }

  lemma TracksTwice(root: Instr, id: StreamId, s: Ctx, s1: Ctx, r: Run)
    requires Tracks(root, id, s, Run(s1, Done(true))) && Tracks(root, id, s1, r)
    ensures Tracks(root, id, s, r)
  {
    if id !in r.s.history.displaced {
      forall j | |s.history.lookups| <= j < |r.s.history.lookups| && r.s.history.lookups[j].id == id
        ensures Resolved(root, r.s.history.lookups[j])
      {
        if j < |s1.history.lookups| {
          assert r.s.history.lookups[j] == s1.history.lookups[j];
        }
      }
    }
  }

  /** Steps before and after a run that leave the record of streams alone. */
  predicate SameRecord(s: Ctx, s': Ctx) {
    s'.history.displaced == s.history.displaced && s'.history.lookups == s.history.lookups
  }

  lemma TracksBetween(root: Instr, id: StreamId, s: Ctx, s1: Ctx, r: Run, r': Run)
    requires SameRecord(s, s1) && Tracks(root, id, s1, r) && SameRecord(r.s, r'.s)
    ensures Tracks(root, id, s, r')
  {
  }

  lemma AsideTracks(root: Instr, id: StreamId, s: Ctx, r: Run)
    requires SameRecord(s, r.s)
    ensures Tracks(root, id, s, r)
  {
  }

  /** One lookup at a position of `e`, before the streams are changed. */
  lemma LookupResolves(e: Instr, path: Path, root: Instr, id: StreamId, s: Ctx, position: nat)
    requires Occurs(e, path, root, []) && Laid(root, 0, S.USIZE_MAX) && InPlace(root, path, id, Spans(s, id))
    requires LooksUp(e, id, position)
    ensures Resolved(root, LookupRecord(id, position, Spans(s, id), S.FindClosest(S.Descriptors(StoreOf(s, id), id.name), position)))
    ensures Sealed(root, [], id) ==> !Displaces(StoreOf(s, id), id.name, position)
  {
    PathDecides(e, path, root, [], 0, S.USIZE_MAX, id, position);
    assert path[0..] == path;
    SpansOfIs(StoreOf(s, id), id.name);
    ClosestIsInnermost(root, path, id, S.Descriptors(StoreOf(s, id), id.name), Spans(s, id), position);
    if Sealed(root, [], id) {
      ExactlyInPlace(root, path, id, StoreOf(s, id), position);
    }
  }

  lemma LookingTracks(e: Instr, path: Path, root: Instr, id: StreamId, s: Ctx, other: StreamId, position: nat, r: Run)
    requires Occurs(e, path, root, []) && Laid(root, 0, S.USIZE_MAX) && InPlace(root, path, id, Spans(s, id))
    requires LooksUp(e, other, position)
    requires r.s.history.lookups == s.history.lookups
      + [LookupRecord(other, position, Spans(s, other), S.FindClosest(S.Descriptors(StoreOf(s, other), other.name), position))]
    requires r.s.history.displaced == s.history.displaced
      || (Displaces(StoreOf(s, other), other.name, position) && r.s.history.displaced == s.history.displaced + {other})
    ensures Tracks(root, id, s, r)
  {
    if other == id {
      LookupResolves(e, path, root, id, s, position);
    }
  }

  lemma LeafTracks(e: Instr, path: Path, root: Instr, id: StreamId, s: Ctx, quiet: bool)
    requires IsLeaf(e) && Occurs(e, path, root, []) && Laid(root, 0, S.USIZE_MAX) && InPlace(root, path, id, Spans(s, id))
    ensures Tracks(root, id, s, EvalLeaf(e, s, quiet))
  {
    var r := EvalLeaf(e, s, quiet);
    if (e.ApStream? || e.ApMap?) && r.s.history.lookups != s.history.lookups {
      AddingTracks(e, path, root, id, s, quiet);
    } else if e.Canon? {
      LookingTracks(e, path, root, id, s, StreamId(false, e.stream), e.position, r);
    } else if e.CanonMap? {
      LookingTracks(e, path, root, id, s, StreamId(true, e.streamMap), e.position, r);
    } else {
      AsideTracks(root, id, s, r);
    }
  }

  lemma AddingTracks(e: Instr, path: Path, root: Instr, id: StreamId, s: Ctx, quiet: bool)
    requires (e.ApStream? || e.ApMap?) && EvalLeaf(e, s, quiet).s.history.lookups != s.history.lookups
    requires Occurs(e, path, root, []) && Laid(root, 0, S.USIZE_MAX) && InPlace(root, path, id, Spans(s, id))
    ensures Tracks(root, id, s, EvalLeaf(e, s, quiet))
  {
    var other := if e.ApStream? then StreamId(false, e.stream) else StreamId(true, e.streamMap);
    LookingTracks(e, path, root, id, s, other, e.position, EvalLeaf(e, s, quiet));
  }

  /** Everything needed to run `e`, and to follow one stream through the run. */
  ghost predicate Placed(root: Instr, id: StreamId, e: Instr, path: Path, names: seq<string>, s: Ctx) {
    Ready(root, e, path, names, s) && InPlace(root, path, id, Spans(s, id))
  }

  lemma {:induction false} EvalTracks(root: Instr, id: StreamId, e: Instr, path: Path, names: seq<string>, s: Ctx, quiet: bool)
    requires Placed(root, id, e, path, names, s)
    ensures Tracks(root, id, s, Eval(e, path, names, s, quiet))
    decreases Inactive(names, s.scalars.iterables), Remaining(names, s.scalars.iterables), FoldsIn(path), e, 3
  {
    InstrTracks(root, id, e, path, names, s, quiet);
    TracksBetween(root, id, s, s, EvalInstr(e, path, names, s, quiet), Eval(e, path, names, s, quiet));
  }

  lemma {:induction false} InstrTracks(root: Instr, id: StreamId, e: Instr, path: Path, names: seq<string>, s: Ctx, quiet: bool)
    requires Placed(root, id, e, path, names, s)
    ensures Tracks(root, id, s, EvalInstr(e, path, names, s, quiet))
    decreases Inactive(names, s.scalars.iterables), Remaining(names, s.scalars.iterables), FoldsIn(path), e, 2
  {
    var r := EvalInstr(e, path, names, s, quiet);
    match e {
      case Match(_, _, _) => MatchTracks(root, id, e, path, names, s, quiet); assert r == EvalMatch(e, path, names, s, quiet);
      case MisMatch(_, _, _) => MatchTracks(root, id, e, path, names, s, quiet); assert r == EvalMatch(e, path, names, s, quiet);
      case Seq(_, _) => SeqTracks(root, id, e, path, names, s); assert r == EvalSeq(e, path, names, s);
      case Par(_, _) => ParTracks(root, id, e, path, names, s); assert r == EvalPar(e, path, names, s);
      case Xor(_, _) => XorTracks(root, id, e, path, names, s); assert r == EvalXor(e, path, names, s);
      case New(_, _, _) => NewTracks(root, id, e, path, names, s, quiet); assert r == EvalNew(e, path, names, s, quiet);
      case Fold(_, _, _, _) => FoldTracks(root, id, e, path, names, s, quiet); assert r == EvalFold(e, path, names, s, quiet);
      case Next(_) => NextTracks(root, id, e, path, names, s, quiet); assert r == EvalNext(e, path, names, s, quiet);
      case _ => LeafTracks(e, path, root, id, s, quiet); assert r == EvalLeaf(e, s, quiet);
    }
  }

  lemma {:induction false} MatchTracks(root: Instr, id: StreamId, e: Instr, path: Path, names: seq<string>, s: Ctx, quiet: bool)
    requires IsComparison(e) && Placed(root, id, e, path, names, s)
    ensures Tracks(root, id, s, EvalMatch(e, path, names, s, quiet))
    decreases Inactive(names, s.scalars.iterables), Remaining(names, s.scalars.iterables), FoldsIn(path), e, 1
  {
    var equal, r := Compare(s, e.left, e.right), EvalMatch(e, path, names, s, quiet);
    if equal.Ok? && equal.value == e.Match? {
      PartsOccur(e, path, root, []);
      assert r == Eval(e.body, path, names, s, quiet);
      EvalTracks(root, id, e.body, path, names, s, quiet);
    } else {
      AsideTracks(root, id, s, r);
    }
  }

  /** As long as the stream is not displaced, what is open stays so. */
  predicate Stays(id: StreamId, s: Ctx, s': Ctx) {
    id !in s'.history.displaced ==> SpansKept(Spans(s, id), Spans(s', id))
  }

  lemma EvalStays(id: StreamId, root: Instr, e: Instr, path: Path, names: seq<string>, s: Ctx, quiet: bool)
    requires Ready(root, e, path, names, s)
    ensures Stays(id, s, Eval(e, path, names, s, quiet).s)
  {
    EvalPops(id, root, e, path, names, s, quiet);
  }

  /** A second instruction, run from a state with the scalars and streams the first one left. */
  lemma {:induction false} SecondTracks(root: Instr, id: StreamId, e: Instr, path: Path, names: seq<string>, s: Ctx, r1: Run, s2: Ctx,
                                        quiet: bool)
    requires Placed(root, id, e, path, names, s) && Tracks(root, id, s, r1) && Stays(id, s, r1.s)
    requires IteratorsKept(s.scalars.iterables, r1.s.scalars.iterables)
    requires s2.scalars == r1.s.scalars && SameStreams(r1.s, s2) && SameRecord(r1.s, s2)
    ensures EnvOk(path, names, s2.scalars.iterables)
    ensures Tracks(root, id, s, Eval(e, path, names, s2, quiet))
    decreases Inactive(names, s.scalars.iterables), Remaining(names, s.scalars.iterables), FoldsIn(path), e, 4
  {
    KeptMeasure(names, s.scalars.iterables, s2.scalars.iterables);
    EnvKept(path, names, s.scalars.iterables, s2.scalars.iterables);
    var r := Eval(e, path, names, s2, quiet);
    if id in s2.history.displaced {
      Progress.EvalGrows(e, path, names, s2, quiet);
    } else {
      FoldsKept(root, path, s.scalars.iterables, s2.scalars.iterables);
      InPlaceKept(root, path, id, Spans(s, id), Spans(s2, id));
      EvalTracks(root, id, e, path, names, s2, quiet);
    }
    TracksTwice(root, id, s, s2, r);
  }

  lemma {:induction false} SeqTracks(root: Instr, id: StreamId, e: Instr, path: Path, names: seq<string>, s: Ctx)
    requires e.Seq? && Placed(root, id, e, path, names, s)
    ensures Tracks(root, id, s, EvalSeq(e, path, names, s))
    decreases Inactive(names, s.scalars.iterables), Remaining(names, s.scalars.iterables), FoldsIn(path), e, 1
  {
    PartsOccur(e, path, root, []);
    EvalTracks(root, id, e.first, path, names, s, false);
    EvalStays(id, root, e.first, path, names, s, false);
    var r := Eval(e.first, path, names, s, false);
    if r.out == Done(true) {
      SecondTracks(root, id, e.second, path, names, s, r, r.s, false);
    }
  }

  lemma {:induction false} ParTracks(root: Instr, id: StreamId, e: Instr, path: Path, names: seq<string>, s: Ctx)
    requires e.Par? && Placed(root, id, e, path, names, s)
    ensures Tracks(root, id, s, EvalPar(e, path, names, s))
    decreases Inactive(names, s.scalars.iterables), Remaining(names, s.scalars.iterables), FoldsIn(path), e, 1
  {
    Loops.BranchesRun(e.first, e.second, path, names, s);
    BranchesTrack(root, id, e, path, names, s, EvalPar(e, path, names, s));
  }

  lemma {:induction false} BranchesTrack(root: Instr, id: StreamId, e: Instr, path: Path, names: seq<string>, s: Ctx, r: Run)
    requires e.Par? && Placed(root, id, e, path, names, s)
    requires var left := ParBranch(Eval(e.first, path, names, s, Quiet(e.first)));
      if left.Aborted() then r == left
      else
        EnvOk(path, names, left.s.scalars.iterables) &&
        var right := Eval(e.second, path, names, left.s, Quiet(e.second));
        r == if right.Aborted() then right else ParResult(left.out, ParBranch(right))
    ensures Tracks(root, id, s, r)
    decreases Inactive(names, s.scalars.iterables), Remaining(names, s.scalars.iterables), FoldsIn(path), e, 0
  {
    PartsOccur(e, path, root, []);
    EvalTracks(root, id, e.first, path, names, s, Quiet(e.first));
    EvalStays(id, root, e.first, path, names, s, Quiet(e.first));
    var left := Eval(e.first, path, names, s, Quiet(e.first));
    if !left.Aborted() {
      SecondTracks(root, id, e.second, path, names, s, left, ParBranch(left).s, Quiet(e.second));
      ParTracksOn(root, id, s, ParBranch(left).out, Eval(e.second, path, names, ParBranch(left).s, Quiet(e.second)));
    }
  }

  lemma ParTracksOn(root: Instr, id: StreamId, s: Ctx, left: Outcome, right: Run)
    requires Tracks(root, id, s, right)
    ensures Tracks(root, id, s, ParBranch(right)) && Tracks(root, id, s, ParResult(left, ParBranch(right)))
  {
    TracksBetween(root, id, s, s, right, ParBranch(right));
    TracksBetween(root, id, s, s, right, ParResult(left, ParBranch(right)));
  }

  lemma {:induction false} XorTracks(root: Instr, id: StreamId, e: Instr, path: Path, names: seq<string>, s: Ctx)
    requires e.Xor? && Placed(root, id, e, path, names, s)
    ensures Tracks(root, id, s, EvalXor(e, path, names, s))
    decreases Inactive(names, s.scalars.iterables), Remaining(names, s.scalars.iterables), FoldsIn(path), e, 1
  {
    PartsOccur(e, path, root, []);
    EvalTracks(root, id, e.first, path, names, s, false);
    EvalStays(id, root, e.first, path, names, s, false);
    var r := Eval(e.first, path, names, s, false);
    if r.out.Failed? && !r.Aborted() {
      var caught := CatchError(r.s, r.out.error.c);
      var handler := HandlerTracks(root, id, e, path, names, s, r, caught);
      assert EvalXor(e, path, names, s) == handler.(s := LeaveHandler(handler.s, handler.out, caught));
    }
  }

  lemma {:induction false} HandlerTracks(root: Instr, id: StreamId, e: Instr, path: Path, names: seq<string>, s: Ctx, r: Run,
                                         caught: Ctx)
    returns (handler: Run)
    requires e.Xor? && Placed(root, id, e.second, path, names, s) && Tracks(root, id, s, r) && Stays(id, s, r.s)
    requires IteratorsKept(s.scalars.iterables, r.s.scalars.iterables)
    requires caught.scalars == r.s.scalars && SameStreams(r.s, caught) && SameRecord(r.s, caught)
    ensures EnvOk(path, names, caught.scalars.iterables)
    ensures handler == Eval(e.second, path, names, caught, false)
    ensures Tracks(root, id, s, handler.(s := LeaveHandler(handler.s, handler.out, caught)))
    decreases Inactive(names, s.scalars.iterables), Remaining(names, s.scalars.iterables), FoldsIn(path), e, 0
  {
    SecondTracks(root, id, e.second, path, names, s, r, caught, false);
    handler := Eval(e.second, path, names, caught, false);
    TracksBetween(root, id, s, s, handler, handler.(s := LeaveHandler(handler.s, handler.out, caught)));
  }

  lemma CloseTracks(root: Instr, id: StreamId, s: Ctx, a: NewArgument, span: S.Span, r: Run)
    requires Tracks(root, id, OpenNew(s, a, span), r)
    ensures Tracks(root, id, s, AfterNew(s, a, span, r))
  {
    TracksBetween(root, id, s, OpenNew(s, a, span), r, AfterNew(s, a, span, r));
  }

  lemma {:induction false} NewTracks(root: Instr, id: StreamId, e: Instr, path: Path, names: seq<string>, s: Ctx, quiet: bool)
    requires e.New? && Placed(root, id, e, path, names, s)
    ensures Tracks(root, id, s, EvalNew(e, path, names, s, quiet))
    decreases Inactive(names, s.scalars.iterables), Remaining(names, s.scalars.iterables), FoldsIn(path), e, 1
  {
    NewReady(root, e, path, names, s);
    InPlaceOfNew(root, e, path, id, s);
    var path', s' := path + [NewScope(e.argument, e.span)], OpenNew(s, e.argument, e.span);
    EvalTracks(root, id, e.body, path', names, s', quiet);
    CloseTracks(root, id, s, e.argument, e.span, Eval(e.body, path', names, s', quiet));
  }

  lemma {:induction false} FoldTracks(root: Instr, id: StreamId, e: Instr, path: Path, names: seq<string>, s: Ctx, quiet: bool)
    requires e.Fold? && Placed(root, id, e, path, names, s)
    ensures Tracks(root, id, s, EvalFold(e, path, names, s, quiet))
    decreases Inactive(names, s.scalars.iterables), Remaining(names, s.scalars.iterables), FoldsIn(path), e, 1
  {
    var items := Items(s, e.iterable);
    if items.Ok? && items.value != [] {
      ItemsTrack(root, id, e, items.value, path, names, s, quiet);
    } else {
      AsideTracks(root, id, s, EvalFold(e, path, names, s, quiet));
    }
  }

  lemma {:induction false} ItemsTrack(root: Instr, id: StreamId, e: Instr, items: seq<JValue>, path: Path, names: seq<string>, s: Ctx,
                                      quiet: bool)
    requires e.Fold? && items != [] && Placed(root, id, e, path, names, s)
    ensures Tracks(root, id, s, EvalItems(e, items, path, names, s, quiet))
    decreases Inactive(names, s.scalars.iterables), Remaining(names, s.scalars.iterables), FoldsIn(path), e, 0
  {
    if e.iter in s.scalars.iterables {
      AsideTracks(root, id, s, EvalItems(e, items, path, names, s, quiet));
    } else {
      var f := FoldState(items, 0, e.body, e.last);
      FoldEnv(e, items, path, names, s);
      FoldsOfFold(root, e, items, path, s.scalars.iterables);
      InPlaceOfFold(root, path, e.iter, id, Spans(s, id));
      PartsOccur(e, path, root, []);
      var s', path' := EnterFold(s, e.iter, f), path + [FoldScope(e.iter)];
      EvalTracks(root, id, e.body, path', names, s', quiet);
      var r := Eval(e.body, path', names, s', quiet);
      LeaveFoldOk(s, e.iter, f, r);
      TracksBetween(root, id, s, s', r, r.(s := LeaveFold(r.s, e.iter)));
    }
  }

  /** Where `next` leads is in place, too. */
  lemma NextInPlace(root: Instr, id: StreamId, e: Instr, path: Path, k: nat, m: nat, spans: seq<S.Span>)
    requires e.Next? && FoldScope(e.iter) in path && k == FoldAt(path, e.iter) <= m <= |path|
    requires Occurs(e, path, root, []) && InPlace(root, path, id, spans)
    ensures InPlace(root, path[..m], id, spans)
  {
    InOrderPrefix(path, m, id, spans);
    if Sealed(root, [], id) {
      PartsAreSealed(e, path, root, [], id);
      ExactlyPrefix(path, k, m, id, spans);
    }
  }

  lemma {:induction false} NextTracks(root: Instr, id: StreamId, e: Instr, path: Path, names: seq<string>, s: Ctx, quiet: bool)
    requires e.Next? && Placed(root, id, e, path, names, s)
    ensures Tracks(root, id, s, EvalNext(e, path, names, s, quiet))
    decreases Inactive(names, s.scalars.iterables), Remaining(names, s.scalars.iterables), FoldsIn(path), e, 1
  {
    var k := FoldAt(path, e.iter);
    EnvOfNext(path, k, names, s.scalars.iterables);
    assert FoldFrom(root, path, k, s.scalars.iterables);
    var last := s.scalars.iterables[e.iter].last;
    if CanAdvance(s.scalars.iterables, e.iter) {
      NextInPlace(root, id, e, path, k, k + 1, Spans(s, id));
      IterationTracks(root, id, e.iter, path, k, names, s, quiet);
    } else if last.Some? {
      FoldsPrefix(root, path, k, s.scalars.iterables);
      NextInPlace(root, id, e, path, k, k, Spans(s, id));
      EvalTracks(root, id, last.value, path[..k], names, s, false);
    } else {
      AsideTracks(root, id, s, Run(s, Done(!quiet)));
    }
  }

  lemma {:induction false} IterationTracks(root: Instr, id: StreamId, i: string, path: Path, k: nat, names: seq<string>, s: Ctx,
                                           quiet: bool)
    requires k < |path| && path[k] == FoldScope(i) && EnvOk(path, names, s.scalars.iterables)
    requires CanAdvance(s.scalars.iterables, i) && Laid(root, 0, S.USIZE_MAX) && FoldsFrom(root, path, s.scalars.iterables)
    requires InPlace(root, path[..k + 1], id, Spans(s, id))
    ensures Tracks(root, id, s, EvalIteration(i, path, k, names, s, quiet))
    decreases Inactive(names, s.scalars.iterables), Remaining(names, s.scalars.iterables), 0
  {
    AdvanceEnv(i, path, k, names, s);
    IterationReady(root, i, path, k, names, s);
    var body, s' := s.scalars.iterables[i].body, Advance(s, i);
    EvalTracks(root, id, body, path[..k + 1], names, s', quiet);
    var r := Eval(body, path[..k + 1], names, s', quiet);
    AfterNextOk(s, i, r);
    TracksBetween(root, id, s, s', r, AfterNext(r, i));
  }

  /**
   * Whole scripts, stream by stream: unless the stream was displaced, every lookup of it
   * resolves by the text, and at the end only a global stream is left. It is not
   * displaced if every `next` in a `new` of it leads to a fold in that `new`.
   */
  lemma ScriptResolves(id: StreamId, root: Instr, names: seq<string>, initPeer: string, peer: string, replies: seq<Reply>,
                       lastCallId: nat)
    requires Scoped(root, [], names) && Laid(root, 0, S.USIZE_MAX)
    ensures var r := Eval(root, [], names, Initial(initPeer, peer, replies, lastCallId), false);
      && (Sealed(root, [], id) ==> id !in r.s.history.displaced)
      && (id !in r.s.history.displaced ==>
            && (forall l | l in r.s.history.lookups && l.id == id :: Resolved(root, l))
            && SpansKept([], Spans(r.s, id)))
  {
    var s := Initial(initPeer, peer, replies, lastCallId);
    var r := Eval(root, [], names, s, false);
    assert Spans(s, id) == [] == Chain([], id);
    EvalPops(id, root, root, [], names, s, false);
    EvalTracks(root, id, root, [], names, s, false);
  }

  /** A script all of whose streams are sealed never fails to find a stream at the end of a `new`. */
  lemma SealedScriptsLoseNothing(root: Instr, names: seq<string>, initPeer: string, peer: string, replies: seq<Reply>, lastCallId: nat)
    requires Scoped(root, [], names) && Laid(root, 0, S.USIZE_MAX) && forall id :: Sealed(root, [], id)
    ensures !LostStream(Eval(root, [], names, Initial(initPeer, peer, replies, lastCallId), false).out)
  {
    var r := Eval(root, [], names, Initial(initPeer, peer, replies, lastCallId), false);
    EndsAreOwnExactly(StreamId(false, ""), root, names, initPeer, peer, replies, lastCallId);
    forall id
      ensures id !in r.s.history.displaced
    {
      ScriptResolves(id, root, names, initPeer, peer, replies, lastCallId);
    }
  }
}
