/**
 * What streams hold. The reference is a log of what happened to a stream: its
 * activations started and ended, and values added at positions. An activation holds
 * the values that were added to it, in the order they were added; and a value is added
 * to the most recent open activation whose text contains its position. In every run a
 * canon takes exactly what the log says.
 */
module StreamValues {
  import opened Wrappers
  import opened Json
  import opened Errors
  import opened Ast
  import opened State
  import opened Semantics
  import opened Texts
  import opened StreamEnds
  import Loops
  import S = Streams

  // ---- the reference ----

  /** An activation is known by the event that made it. */
  datatype Activation = Activation(start: nat, span: S.Span)

  /** The most recent activation whose text contains the position. */
  function Target(open: seq<Activation>, position: nat): (r: Option<Activation>)
    ensures r.Some? ==> r.value in open && r.value.span.Contains(position)
    ensures r.None? ==> forall a | a in open :: !a.span.Contains(position)
  {
    if open == [] then None
    else if open[|open| - 1].span.Contains(position) then Some(open[|open| - 1])
    else Target(open[..|open| - 1], position)
  }

  /** The open activations, oldest first. A first value outside of all of them makes a global one, alone. */
  function OpenAfter(log: seq<StreamEvent>, id: StreamId): (r: seq<Activation>)
    ensures forall a | a in r :: a.start < |log|
  {
    if log == [] then []
    else
      var n := |log| - 1;
      var before := OpenAfter(log[..n], id);
      if log[n].id != id then before
      else
        match log[n]
        case Started(_, span) => before + [Activation(n, span)]
        case Added(_, position, _) => if Target(before, position).Some? then before else [Activation(n, S.GLOBAL_SPAN)]
        case Taken(_, _, _) => before
        case Ended(_) => if before == [] then [] else before[..|before| - 1]
  }

  /** Where the value of the event at `n` went. */
  function GoesTo(log: seq<StreamEvent>, n: nat): nat
    requires n < |log| && log[n].Added?
  {
    match Target(OpenAfter(log[..n], log[n].id), log[n].position)
    case Some(a) => a.start
    case None => n
  }

  /** The values added to an activation, in order. */
  function ValuesOf(log: seq<StreamEvent>, id: StreamId, start: nat): seq<JValue> {
    if log == [] then []
    else
      var n := |log| - 1;
      ValuesOf(log[..n], id, start)
      + if log[n].Added? && log[n].id == id && GoesTo(log, n) == start then [log[n].value] else []
  }

  /** What a canon at the position ought to take. */
  function HeldBy(log: seq<StreamEvent>, id: StreamId, position: nat): seq<JValue> {
    match Target(OpenAfter(log, id), position)
    case Some(a) => ValuesOf(log, id, a.start)
    case None => []
  }

  // ---- the store keeps to it ----

  ghost predicate Ascending(open: seq<Activation>) {
    forall i, j | 0 <= i < j < |open| :: open[i].start < open[j].start
  }

  /** Every canon took what the activation it resolved to held at the time. */
  ghost predicate AllTakenHeld(log: seq<StreamEvent>, id: StreamId) {
    forall n {:trigger log[n]} | 0 <= n < |log| && log[n].Taken? && log[n].id == id ::
      log[n].values == HeldBy(log[..n], id, log[n].position)
  }

  /** The streams of a name are the open activations with their values. */
  ghost predicate Agree(log: seq<StreamEvent>, id: StreamId, ds: seq<S.StreamDescriptor>) {
    var open := OpenAfter(log, id);
    && |ds| == |open| && Ascending(open)
    && AllTakenHeld(log, id)
    && forall k | 0 <= k < |open| :: ds[k] == S.StreamDescriptor(open[k].span, ValuesOf(log, id, open[k].start))
  }

  ghost predicate Logged(id: StreamId, s: Ctx) {
    Agree(s.history.log, id, S.Descriptors(StoreOf(s, id), id.name))
  }

  /** No value was added to an activation before it was there. */
  lemma {:induction false} NothingYet(log: seq<StreamEvent>, id: StreamId, start: nat)
    requires |log| <= start
    ensures ValuesOf(log, id, start) == []
  {
    if log != [] {
      NothingYet(log[..|log| - 1], id, start);
      GoesBack(log, |log| - 1);
    }
  }

  lemma GoesBack(log: seq<StreamEvent>, n: nat)
    requires n < |log|
    ensures log[n].Added? ==> GoesTo(log, n) <= n
  {
  }

  lemma {:induction false} SameTarget(open: seq<Activation>, ds: seq<S.StreamDescriptor>, position: nat)
    requires |ds| == |open| && forall k | 0 <= k < |open| :: ds[k].span == open[k].span
    ensures var found := S.FindClosest(ds, position);
      Target(open, position) == if found.Some? then Some(open[found.value]) else None
  {
    if open != [] && !open[|open| - 1].span.Contains(position) {
      SameTarget(open[..|open| - 1], ds[..|ds| - 1], position);
    }
  }

  lemma TakenStays(log: seq<StreamEvent>, event: StreamEvent, id: StreamId)
    requires AllTakenHeld(log, id)
    requires event.id == id && event.Taken? ==> event.values == HeldBy(log, id, event.position)
    ensures AllTakenHeld(log + [event], id)
  {
    var log' := log + [event];
    forall n | 0 <= n < |log'| && log'[n].Taken? && log'[n].id == id
      ensures log'[n].values == HeldBy(log'[..n], id, log'[n].position)
    {
      if n < |log| {
        assert log'[n] == log[n] && log'[..n] == log[..n];
      } else {
        assert log'[..n] == log;
      }
    }
  }

  lemma TakeAgrees(log: seq<StreamEvent>, id: StreamId, position: nat, store: S.Store)
    requires Agree(log, id, S.Descriptors(store, id.name))
    ensures Agree(log + [Taken(id, position, S.HeldAt(store, id.name, position))], id, S.Descriptors(store, id.name))
  {
    var event := Taken(id, position, S.HeldAt(store, id.name, position));
    var log' := log + [event];
    assert log'[..|log|] == log;
    SameTarget(OpenAfter(log, id), S.Descriptors(store, id.name), position);
    TakenStays(log, event, id);
    assert OpenAfter(log', id) == OpenAfter(log, id);
    forall start
      ensures ValuesOf(log', id, start) == ValuesOf(log, id, start)
    {
      assert ValuesOf(log', id, start) == ValuesOf(log, id, start) + [];
    }
  }

  lemma OtherEvent(log: seq<StreamEvent>, event: StreamEvent, id: StreamId, ds: seq<S.StreamDescriptor>)
    requires Agree(log, id, ds) && event.id != id
    ensures Agree(log + [event], id, ds)
  {
    var log' := log + [event];
    assert log'[..|log|] == log;
    TakenStays(log, event, id);
    assert OpenAfter(log', id) == OpenAfter(log, id);
  }

  lemma StartAgrees(log: seq<StreamEvent>, id: StreamId, span: S.Span, ds: seq<S.StreamDescriptor>)
    requires Agree(log, id, ds)
    ensures Agree(log + [Started(id, span)], id, ds + [S.StreamDescriptor(span, [])])
  {
    var log' := log + [Started(id, span)];
    assert log'[..|log|] == log;
    NothingYet(log, id, |log|);
    TakenStays(log, Started(id, span), id);
    assert OpenAfter(log', id) == OpenAfter(log, id) + [Activation(|log|, span)];
    assert ValuesOf(log', id, |log|) == ValuesOf(log, id, |log|) + [];
  }

  lemma EndAgrees(log: seq<StreamEvent>, id: StreamId, ds: seq<S.StreamDescriptor>)
    requires Agree(log, id, ds)
    ensures Agree(log + [Ended(id)], id, if ds == [] then [] else ds[..|ds| - 1])
  {
    var log' := log + [Ended(id)];
    assert log'[..|log|] == log;
    var open := OpenAfter(log, id);
    TakenStays(log, Ended(id), id);
    assert OpenAfter(log', id) == if open == [] then [] else open[..|open| - 1];
    forall start
      ensures ValuesOf(log', id, start) == ValuesOf(log, id, start)
    {
      assert ValuesOf(log', id, start) == ValuesOf(log, id, start) + [];
    }
  }

  lemma AddAgrees(log: seq<StreamEvent>, id: StreamId, position: nat, value: JValue, store: S.Store)
    requires Agree(log, id, S.Descriptors(store, id.name)) && 0 < position < S.USIZE_MAX
    ensures Agree(log + [Added(id, position, value)], id, S.Descriptors(S.Add(store, id.name, position, value), id.name))
  {
    var log', open, ds := log + [Added(id, position, value)], OpenAfter(log, id), S.Descriptors(store, id.name);
    var ds' := S.Descriptors(S.Add(store, id.name, position, value), id.name);
    assert log'[..|log|] == log;
    SameTarget(open, ds, position);
    TakenStays(log, Added(id, position, value), id);
    AddedValues(log, id, position, value);
    match S.FindClosest(ds, position) {
      case Some(found) =>
        assert OpenAfter(log', id) == open;
        AddedTo(log, id, position, value, found, ds, ds');
      case None =>
        assert OpenAfter(log', id) == [Activation(|log|, S.GLOBAL_SPAN)];
        NothingYet(log, id, |log|);
        assert ValuesOf(log', id, |log|) == [] + [value];
    }
  }

  lemma AddedValues(log: seq<StreamEvent>, id: StreamId, position: nat, value: JValue)
    ensures var log' := log + [Added(id, position, value)];
      var at := match Target(OpenAfter(log, id), position) case Some(a) => a.start case None => |log|;
      forall start :: ValuesOf(log', id, start) == ValuesOf(log, id, start) + if start == at then [value] else []
  {
    var log' := log + [Added(id, position, value)];
    assert log'[..|log|] == log;
  }

  lemma AddedTo(log: seq<StreamEvent>, id: StreamId, position: nat, value: JValue, found: nat, ds: seq<S.StreamDescriptor>,
                ds': seq<S.StreamDescriptor>)
    requires Agree(log, id, ds) && found < |ds| && Target(OpenAfter(log, id), position) == Some(OpenAfter(log, id)[found])
    requires ds' == ds[found := ds[found].(stream := ds[found].stream + [value])]
    requires OpenAfter(log + [Added(id, position, value)], id) == OpenAfter(log, id)
    ensures Agree(log + [Added(id, position, value)], id, ds')
  {
    var log', open := log + [Added(id, position, value)], OpenAfter(log, id);
    TakenStays(log, Added(id, position, value), id);
    AddedValues(log, id, position, value);
    forall k | 0 <= k < |open|
      ensures ds'[k] == S.StreamDescriptor(open[k].span, ValuesOf(log', id, open[k].start))
    {
      assert open[k].start == open[found].start <==> k == found;
      assert ValuesOf(log', id, open[k].start)
          == ValuesOf(log, id, open[k].start) + if open[k].start == open[found].start then [value] else [];
    }
  }

  // ---- steps of a run ----

  /** A step that does not concern streams. */
  predicate Unlogged(s: Ctx, s': Ctx) {
    s'.streams == s.streams && s'.streamMaps == s.streamMaps && s'.history.log == s.history.log
  }

  lemma UnloggedKeeps(id: StreamId, s: Ctx, s': Ctx)
    requires Logged(id, s) && Unlogged(s, s')
    ensures Logged(id, s')
  {
  }

  function Held(s: Ctx, id: StreamId): seq<S.StreamDescriptor> {
    S.Descriptors(StoreOf(s, id), id.name)
  }

  lemma StepAgrees(id: StreamId, own: StreamId, s: Ctx, s': Ctx, event: StreamEvent)
    requires Logged(id, s) && s'.history.log == s.history.log + [event] && event.id == own && id != own && Held(s', id) == Held(s, id)
    ensures Logged(id, s')
  {
    OtherEvent(s.history.log, event, id, Held(s, id));
  }

  /** Adding changes only the streams of one name. */
  lemma AddStep(e: Instr, s: Ctx, quiet: bool, own: StreamId, value: JValue)
    requires (e.ApStream? && own == StreamId(false, e.stream)) || (e.ApMap? && own == StreamId(true, e.streamMap))
    requires Resolve(s, e.value).Ok? && (e.ApMap? ==> ResolveKey(s, e.key, e.streamMap).Ok?)
    requires value == if e.ApMap? then FromKeyValue(ResolveKey(s, e.key, e.streamMap).value, Resolve(s, e.value).value)
                      else Resolve(s, e.value).value
    ensures var s' := EvalLeaf(e, s, quiet).s;
      && s'.history.log == s.history.log + [Added(own, e.position, value)]
      && Held(s', own) == S.Descriptors(S.Add(StoreOf(s, own), own.name, e.position, value), own.name)
      && forall id | id != own :: Held(s', id) == Held(s, id)
  {
  }

  lemma AddLogs(id: StreamId, e: Instr, path: Path, root: Instr, s: Ctx, quiet: bool, own: StreamId, value: JValue)
    requires Occurs(e, path, root, []) && Laid(root, 0, S.USIZE_MAX) && Logged(id, s)
    requires (e.ApStream? && own == StreamId(false, e.stream)) || (e.ApMap? && own == StreamId(true, e.streamMap))
    requires Resolve(s, e.value).Ok? && (e.ApMap? ==> ResolveKey(s, e.key, e.streamMap).Ok?)
    requires value == if e.ApMap? then FromKeyValue(ResolveKey(s, e.key, e.streamMap).value, Resolve(s, e.value).value)
                      else Resolve(s, e.value).value
    ensures Logged(id, EvalLeaf(e, s, quiet).s)
  {
    AddStep(e, s, quiet, own, value);
    if id == own {
      PositionInside(e, path, root, own, e.position);
      AddAgrees(s.history.log, id, e.position, value, StoreOf(s, id));
    } else {
      StepAgrees(id, own, s, EvalLeaf(e, s, quiet).s, Added(own, e.position, value));
    }
  }

  lemma LeafLogs(id: StreamId, e: Instr, path: Path, root: Instr, s: Ctx, quiet: bool)
    requires IsLeaf(e) && Occurs(e, path, root, []) && Laid(root, 0, S.USIZE_MAX) && Logged(id, s)
    ensures Logged(id, EvalLeaf(e, s, quiet).s)
  {
    if e.ApStream? && Resolve(s, e.value).Ok? {
      AddLogs(id, e, path, root, s, quiet, StreamId(false, e.stream), Resolve(s, e.value).value);
    } else if e.ApMap? && Resolve(s, e.value).Ok? && ResolveKey(s, e.key, e.streamMap).Ok? {
      AddLogs(id, e, path, root, s, quiet, StreamId(true, e.streamMap),
        FromKeyValue(ResolveKey(s, e.key, e.streamMap).value, Resolve(s, e.value).value));
    } else if e.Canon? {
      TakeLogs(id, e, s, quiet, StreamId(false, e.stream));
    } else if e.CanonMap? {
      TakeLogs(id, e, s, quiet, StreamId(true, e.streamMap));
    } else {
      LeafAside(e, s, quiet);
      UnloggedKeeps(id, s, EvalLeaf(e, s, quiet).s);
    }
  }

  /** A canon changes no stream. */
  lemma TakeStep(e: Instr, s: Ctx, quiet: bool, own: StreamId)
    requires (e.Canon? && own == StreamId(false, e.stream)) || (e.CanonMap? && own == StreamId(true, e.streamMap))
    ensures var s' := EvalLeaf(e, s, quiet).s;
      && s'.history.log == s.history.log + [Taken(own, e.position, S.HeldAt(StoreOf(s, own), own.name, e.position))]
      && s'.streams == s.streams && s'.streamMaps == s.streamMaps
  {
    if e.CanonMap? {
      assert EvalLeaf(e, s, quiet) == CanonizeMap(e, s, quiet);
    } else {
      assert EvalLeaf(e, s, quiet) == CanonizeStream(e, s, quiet);
    }
  }

  lemma TakeLogs(id: StreamId, e: Instr, s: Ctx, quiet: bool, own: StreamId)
    requires (e.Canon? && own == StreamId(false, e.stream)) || (e.CanonMap? && own == StreamId(true, e.streamMap))
    requires Logged(id, s)
    ensures Logged(id, EvalLeaf(e, s, quiet).s)
  {
    TakeStep(e, s, quiet, own);
    if id == own {
      TakeAgrees(s.history.log, id, e.position, StoreOf(s, id));
    } else {
      StepAgrees(id, own, s, EvalLeaf(e, s, quiet).s, Taken(own, e.position, S.HeldAt(StoreOf(s, own), own.name, e.position)));
    }
  }

  lemma LeafAside(e: Instr, s: Ctx, quiet: bool)
    requires IsLeaf(e) && !e.Canon? && !e.CanonMap?
    requires !(e.ApStream? && Resolve(s, e.value).Ok?)
    requires !(e.ApMap? && Resolve(s, e.value).Ok? && ResolveKey(s, e.key, e.streamMap).Ok?)
    ensures Unlogged(s, EvalLeaf(e, s, quiet).s)
  {
    match e {
      case Call(_, _, _) => CallAside(e, s, quiet);
      case Fail(_) => FailAside(e, s);
      case _ =>
    }
  }

  lemma CallAside(e: Instr, s: Ctx, quiet: bool)
    requires e.Call?
    ensures Unlogged(s, DoCall(e, s, quiet).s)
  {
  }

  lemma FailAside(e: Instr, s: Ctx)
    requires e.Fail?
    ensures Unlogged(s, DoFail(e, s).s)
  {
  }

  lemma OpenLogs(id: StreamId, s: Ctx, a: NewArgument, span: S.Span)
    requires Logged(id, s)
    ensures Logged(id, OpenNew(s, a, span))
  {
    match a {
      case NewStream(n) => OpenStreamLogs(id, StreamId(false, n), s, a, span);
      case NewStreamMap(n) => OpenStreamLogs(id, StreamId(true, n), s, a, span);
      case _ =>
    }
  }

  lemma OpenStreamLogs(id: StreamId, own: StreamId, s: Ctx, a: NewArgument, span: S.Span)
    requires Logged(id, s) && Restricts(a, own)
    ensures Logged(id, OpenNew(s, a, span))
  {
    if id == own {
      StartAgrees(s.history.log, id, span, Held(s, id));
    } else {
      StepAgrees(id, own, s, OpenNew(s, a, span), Started(own, span));
    }
  }

  lemma CloseLogs(id: StreamId, s: Ctx, a: NewArgument, span: S.Span, r: Run)
    requires Logged(id, r.s)
    ensures Logged(id, AfterNew(s, a, span, r).s)
  {
    match a {
      case NewStream(n) => CloseStreamLogs(id, StreamId(false, n), s, a, span, r);
      case NewStreamMap(n) => CloseStreamLogs(id, StreamId(true, n), s, a, span, r);
      case _ => UnloggedKeeps(id, r.s, AfterNew(s, a, span, r).s);
    }
  }

  /** The end of a `new` changes only the streams of one name. */
  lemma CloseStep(s: Ctx, a: NewArgument, span: S.Span, r: Run, own: StreamId)
    requires Restricts(a, own)
    ensures var s', ds := AfterNew(s, a, span, r).s, Held(r.s, own);
      && s'.history.log == r.s.history.log + [Ended(own)]
      && Held(s', own) == (if ds == [] then [] else ds[..|ds| - 1])
      && forall id | id != own :: Held(s', id) == Held(r.s, id)
  {
  }

  lemma CloseStreamLogs(id: StreamId, own: StreamId, s: Ctx, a: NewArgument, span: S.Span, r: Run)
    requires Logged(id, r.s) && Restricts(a, own)
    ensures Logged(id, AfterNew(s, a, span, r).s)
  {
    CloseStep(s, a, span, r, own);
    if id == own {
      EndAgrees(r.s.history.log, id, Held(r.s, id));
    } else {
      StepAgrees(id, own, r.s, AfterNew(s, a, span, r).s, Ended(own));
    }
  }

  // ---- every run ----

  lemma {:induction false} EvalLogs(id: StreamId, root: Instr, e: Instr, path: Path, names: seq<string>, s: Ctx, quiet: bool)
    requires Ready(root, e, path, names, s) && Logged(id, s)
    ensures Logged(id, Eval(e, path, names, s, quiet).s)
    decreases Inactive(names, s.scalars.iterables), Remaining(names, s.scalars.iterables), FoldsIn(path), e, 3
  {
    InstrLogs(id, root, e, path, names, s, quiet);
    RecordedLogs(id, EvalInstr(e, path, names, s, quiet), e, s.peer);
  }

  lemma RecordedLogs(id: StreamId, r: Run, e: Instr, peer: string)
    requires Logged(id, r.s)
    ensures Logged(id, (if r.out.Failed? && !e.Call? then r.(s := SetErrors(r.s, r.out.error, e, peer)) else r).s)
  {
    UnloggedKeeps(id, r.s, (if r.out.Failed? && !e.Call? then r.(s := SetErrors(r.s, r.out.error, e, peer)) else r).s);
  }

  lemma {:induction false} InstrLogs(id: StreamId, root: Instr, e: Instr, path: Path, names: seq<string>, s: Ctx, quiet: bool)
    requires Ready(root, e, path, names, s) && Logged(id, s)
    ensures Logged(id, EvalInstr(e, path, names, s, quiet).s)
    decreases Inactive(names, s.scalars.iterables), Remaining(names, s.scalars.iterables), FoldsIn(path), e, 2
  {
    var r := EvalInstr(e, path, names, s, quiet);
    match e {
      case Match(_, _, _) => MatchLogs(id, root, e, path, names, s, quiet); assert r == EvalMatch(e, path, names, s, quiet);
      case MisMatch(_, _, _) => MatchLogs(id, root, e, path, names, s, quiet); assert r == EvalMatch(e, path, names, s, quiet);
      case Seq(_, _) => SeqLogs(id, root, e, path, names, s); assert r == EvalSeq(e, path, names, s);
      case Par(_, _) => ParLogs(id, root, e, path, names, s); assert r == EvalPar(e, path, names, s);
      case Xor(_, _) => XorLogs(id, root, e, path, names, s); assert r == EvalXor(e, path, names, s);
      case New(_, _, _) => NewLogs(id, root, e, path, names, s, quiet); assert r == EvalNew(e, path, names, s, quiet);
      case Fold(_, _, _, _) => FoldLogs(id, root, e, path, names, s, quiet); assert r == EvalFold(e, path, names, s, quiet);
      case Next(_) => NextLogs(id, root, e, path, names, s, quiet); assert r == EvalNext(e, path, names, s, quiet);
      case _ => LeafLogs(id, e, path, root, s, quiet); assert r == EvalLeaf(e, s, quiet);
    }
  }

  lemma {:induction false} MatchLogs(id: StreamId, root: Instr, e: Instr, path: Path, names: seq<string>, s: Ctx, quiet: bool)
    requires IsComparison(e) && Ready(root, e, path, names, s) && Logged(id, s)
    ensures Logged(id, EvalMatch(e, path, names, s, quiet).s)
    decreases Inactive(names, s.scalars.iterables), Remaining(names, s.scalars.iterables), FoldsIn(path), e, 1
  {
    var equal, r := Compare(s, e.left, e.right), EvalMatch(e, path, names, s, quiet);
    if equal.Ok? && equal.value == e.Match? {
      PartsOccur(e, path, root, []);
      assert r == Eval(e.body, path, names, s, quiet);
      EvalLogs(id, root, e.body, path, names, s, quiet);
    } else {
      UnloggedKeeps(id, s, r.s);
    }
  }

  /** A second instruction, run after a first one and a step that leaves the streams alone. */
  lemma {:induction false} SecondLogs(id: StreamId, root: Instr, e: Instr, path: Path, names: seq<string>, s: Ctx, s1: Ctx, s2: Ctx,
                                      quiet: bool)
    requires Ready(root, e, path, names, s) && Logged(id, s1) && Unlogged(s1, s2)
    requires IteratorsKept(s.scalars.iterables, s1.scalars.iterables) && s2.scalars == s1.scalars
    ensures EnvOk(path, names, s2.scalars.iterables)
    ensures Logged(id, Eval(e, path, names, s2, quiet).s)
    decreases Inactive(names, s.scalars.iterables), Remaining(names, s.scalars.iterables), FoldsIn(path), e, 4
  {
    KeptMeasure(names, s.scalars.iterables, s2.scalars.iterables);
    EnvKept(path, names, s.scalars.iterables, s2.scalars.iterables);
    FoldsKept(root, path, s.scalars.iterables, s2.scalars.iterables);
    UnloggedKeeps(id, s1, s2);
    EvalLogs(id, root, e, path, names, s2, quiet);
  }

  lemma {:induction false} SeqLogs(id: StreamId, root: Instr, e: Instr, path: Path, names: seq<string>, s: Ctx)
    requires e.Seq? && Ready(root, e, path, names, s) && Logged(id, s)
    ensures Logged(id, EvalSeq(e, path, names, s).s)
    decreases Inactive(names, s.scalars.iterables), Remaining(names, s.scalars.iterables), FoldsIn(path), e, 1
  {
    PartsOccur(e, path, root, []);
    EvalLogs(id, root, e.first, path, names, s, false);
    var r := Eval(e.first, path, names, s, false);
    if r.out == Done(true) {
      SecondLogs(id, root, e.second, path, names, s, r.s, r.s, false);
    }
  }

  lemma {:induction false} ParLogs(id: StreamId, root: Instr, e: Instr, path: Path, names: seq<string>, s: Ctx)
    requires e.Par? && Ready(root, e, path, names, s) && Logged(id, s)
    ensures Logged(id, EvalPar(e, path, names, s).s)
    decreases Inactive(names, s.scalars.iterables), Remaining(names, s.scalars.iterables), FoldsIn(path), e, 1
  {
    Loops.BranchesRun(e.first, e.second, path, names, s);
    BranchesLog(id, root, e, path, names, s, EvalPar(e, path, names, s));
  }

  lemma {:induction false} BranchesLog(id: StreamId, root: Instr, e: Instr, path: Path, names: seq<string>, s: Ctx, r: Run)
    requires e.Par? && Ready(root, e, path, names, s) && Logged(id, s)
    requires var left := ParBranch(Eval(e.first, path, names, s, Quiet(e.first)));
      if left.Aborted() then r == left
      else
        EnvOk(path, names, left.s.scalars.iterables) &&
        var right := Eval(e.second, path, names, left.s, Quiet(e.second));
        r == if right.Aborted() then right else ParResult(left.out, ParBranch(right))
    ensures Logged(id, r.s)
    decreases Inactive(names, s.scalars.iterables), Remaining(names, s.scalars.iterables), FoldsIn(path), e, 0
  {
    PartsOccur(e, path, root, []);
    EvalLogs(id, root, e.first, path, names, s, Quiet(e.first));
    var left := Eval(e.first, path, names, s, Quiet(e.first));
    if left.Aborted() {
      assert r == left;
    } else {
      var s1 := ParBranch(left).s;
      SecondLogs(id, root, e.second, path, names, s, left.s, s1, Quiet(e.second));
      ParEndLogs(id, ParBranch(left).out, Eval(e.second, path, names, s1, Quiet(e.second)), r);
    }
  }

  lemma ParEndLogs(id: StreamId, left: Outcome, right: Run, r: Run)
    requires Logged(id, right.s) && r == if right.Aborted() then right else ParResult(left, ParBranch(right))
    ensures Logged(id, r.s)
  {
    UnloggedKeeps(id, right.s, r.s);
  }

  lemma {:induction false} XorLogs(id: StreamId, root: Instr, e: Instr, path: Path, names: seq<string>, s: Ctx)
    requires e.Xor? && Ready(root, e, path, names, s) && Logged(id, s)
    ensures Logged(id, EvalXor(e, path, names, s).s)
    decreases Inactive(names, s.scalars.iterables), Remaining(names, s.scalars.iterables), FoldsIn(path), e, 1
  {
    PartsOccur(e, path, root, []);
    EvalLogs(id, root, e.first, path, names, s, false);
    var r := Eval(e.first, path, names, s, false);
    if r.out.Failed? && !r.Aborted() {
      var caught := CatchError(r.s, r.out.error.c);
      var handler := HandlerLogs(id, root, e, path, names, s, r, caught);
      assert EvalXor(e, path, names, s) == handler.(s := LeaveHandler(handler.s, handler.out, caught));
    }
  }

  lemma {:induction false} HandlerLogs(id: StreamId, root: Instr, e: Instr, path: Path, names: seq<string>, s: Ctx, r: Run,
                                       caught: Ctx)
    returns (handler: Run)
    requires e.Xor? && Ready(root, e.second, path, names, s) && Logged(id, r.s)
    requires IteratorsKept(s.scalars.iterables, r.s.scalars.iterables)
    requires caught.scalars == r.s.scalars && Unlogged(r.s, caught)
    ensures EnvOk(path, names, caught.scalars.iterables)
    ensures handler == Eval(e.second, path, names, caught, false)
    ensures Logged(id, LeaveHandler(handler.s, handler.out, caught))
    decreases Inactive(names, s.scalars.iterables), Remaining(names, s.scalars.iterables), FoldsIn(path), e, 0
  {
    SecondLogs(id, root, e.second, path, names, s, r.s, caught, false);
    handler := Eval(e.second, path, names, caught, false);
    UnloggedKeeps(id, handler.s, LeaveHandler(handler.s, handler.out, caught));
  }

  lemma {:induction false} NewLogs(id: StreamId, root: Instr, e: Instr, path: Path, names: seq<string>, s: Ctx, quiet: bool)
    requires e.New? && Ready(root, e, path, names, s) && Logged(id, s)
    ensures Logged(id, EvalNew(e, path, names, s, quiet).s)
    decreases Inactive(names, s.scalars.iterables), Remaining(names, s.scalars.iterables), FoldsIn(path), e, 1
  {
    NewReady(root, e, path, names, s);
    OpenLogs(id, s, e.argument, e.span);
    var path', s' := path + [NewScope(e.argument, e.span)], OpenNew(s, e.argument, e.span);
    EvalLogs(id, root, e.body, path', names, s', quiet);
    CloseLogs(id, s, e.argument, e.span, Eval(e.body, path', names, s', quiet));
  }

  lemma {:induction false} FoldLogs(id: StreamId, root: Instr, e: Instr, path: Path, names: seq<string>, s: Ctx, quiet: bool)
    requires e.Fold? && Ready(root, e, path, names, s) && Logged(id, s)
    ensures Logged(id, EvalFold(e, path, names, s, quiet).s)
    decreases Inactive(names, s.scalars.iterables), Remaining(names, s.scalars.iterables), FoldsIn(path), e, 1
  {
    var items := Items(s, e.iterable);
    if items.Ok? && items.value != [] {
      ItemsLog(id, root, e, items.value, path, names, s, quiet);
    } else {
      UnloggedKeeps(id, s, EvalFold(e, path, names, s, quiet).s);
    }
  }

  lemma {:induction false} ItemsLog(id: StreamId, root: Instr, e: Instr, items: seq<JValue>, path: Path, names: seq<string>,
                                    s: Ctx, quiet: bool)
    requires e.Fold? && items != [] && Ready(root, e, path, names, s) && Logged(id, s)
    ensures Logged(id, EvalItems(e, items, path, names, s, quiet).s)
    decreases Inactive(names, s.scalars.iterables), Remaining(names, s.scalars.iterables), FoldsIn(path), e, 0
  {
    if e.iter in s.scalars.iterables {
      UnloggedKeeps(id, s, EvalItems(e, items, path, names, s, quiet).s);
    } else {
      var f := FoldState(items, 0, e.body, e.last);
      FoldEnv(e, items, path, names, s);
      FoldsOfFold(root, e, items, path, s.scalars.iterables);
      PartsOccur(e, path, root, []);
      var s', path' := EnterFold(s, e.iter, f), path + [FoldScope(e.iter)];
      UnloggedKeeps(id, s, s');
      EvalLogs(id, root, e.body, path', names, s', quiet);
      var r := Eval(e.body, path', names, s', quiet);
      LeaveFoldOk(s, e.iter, f, r);
      UnloggedKeeps(id, r.s, LeaveFold(r.s, e.iter));
    }
  }

  lemma {:induction false} NextLogs(id: StreamId, root: Instr, e: Instr, path: Path, names: seq<string>, s: Ctx, quiet: bool)
    requires e.Next? && Ready(root, e, path, names, s) && Logged(id, s)
    ensures Logged(id, EvalNext(e, path, names, s, quiet).s)
    decreases Inactive(names, s.scalars.iterables), Remaining(names, s.scalars.iterables), FoldsIn(path), e, 1
  {
    var k := FoldAt(path, e.iter);
    EnvOfNext(path, k, names, s.scalars.iterables);
    assert FoldFrom(root, path, k, s.scalars.iterables);
    var last := s.scalars.iterables[e.iter].last;
    if CanAdvance(s.scalars.iterables, e.iter) {
      IterationLogs(id, root, e.iter, path, k, names, s, quiet);
    } else if last.Some? {
      FoldsPrefix(root, path, k, s.scalars.iterables);
      EvalLogs(id, root, last.value, path[..k], names, s, false);
    }
  }

  lemma {:induction false} IterationLogs(id: StreamId, root: Instr, i: string, path: Path, k: nat, names: seq<string>, s: Ctx,
                                         quiet: bool)
    requires k < |path| && path[k] == FoldScope(i) && EnvOk(path, names, s.scalars.iterables) && Logged(id, s)
    requires CanAdvance(s.scalars.iterables, i) && Laid(root, 0, S.USIZE_MAX) && FoldsFrom(root, path, s.scalars.iterables)
    ensures Logged(id, EvalIteration(i, path, k, names, s, quiet).s)
    decreases Inactive(names, s.scalars.iterables), Remaining(names, s.scalars.iterables), 0
  {
    AdvanceEnv(i, path, k, names, s);
    IterationReady(root, i, path, k, names, s);
    var body, s' := s.scalars.iterables[i].body, Advance(s, i);
    UnloggedKeeps(id, s, s');
    EvalLogs(id, root, body, path[..k + 1], names, s', quiet);
    var r := Eval(body, path[..k + 1], names, s', quiet);
    AfterNextOk(s, i, r);
    SteppedLogs(id, r, i);
  }

  lemma SteppedLogs(id: StreamId, r: Run, i: string)
    requires Logged(id, r.s) && InScope(r.s.scalars)
    ensures Logged(id, AfterNext(r, i).s)
  {
    UnloggedKeeps(id, r.s, AfterNext(r, i).s);
  }

  // ---- whole scripts ----

  /**
   * In every script every canon of the stream takes the values that were added to the
   * activation it resolves to, in the order they were added; and the streams that are
   * left hold theirs.
   */
  lemma CanonsTakeWhatWasAdded(id: StreamId, root: Instr, names: seq<string>, initPeer: string, peer: string, replies: seq<Reply>,
                               lastCallId: nat)
    requires Scoped(root, [], names) && Laid(root, 0, S.USIZE_MAX)
    ensures var s := Eval(root, [], names, Initial(initPeer, peer, replies, lastCallId), false).s;
      && (forall n {:trigger s.history.log[n]} | 0 <= n < |s.history.log| && s.history.log[n].Taken? && s.history.log[n].id == id ::
            s.history.log[n].values == HeldBy(s.history.log[..n], id, s.history.log[n].position))
      && (forall position :: S.HeldAt(StoreOf(s, id), id.name, position) == HeldBy(s.history.log, id, position))
  {
    var s0 := Initial(initPeer, peer, replies, lastCallId);
    EvalLogs(id, root, root, [], names, s0, false);
    var s := Eval(root, [], names, s0, false).s;
    forall position
      ensures S.HeldAt(StoreOf(s, id), id.name, position) == HeldBy(s.history.log, id, position)
    {
      SameTarget(OpenAfter(s.history.log, id), Held(s, id), position);
    }
  }
}
