/**
 * A script that displaces a stream. Its `next` stands inside two `new`s of the stream
 * and leads to the last instruction of a fold outside of them, which adds the first
 * global value. The end of the outer `new` then finds nothing to remove.
 */
module Displacements {
  import opened Wrappers
  import opened Json
  import opened Errors
  import opened Ast
  import opened State
  import opened Semantics
  import opened Texts
  import opened StreamEnds
  import StreamScopes
  import Loops
  import S = Streams

  const STREAM := "$x"

  function AddOutside(): Instr {
    ApStream(Literal(JNull), STREAM, 70)
  }

  function InnerNew(): Instr {
    New(NewStream(STREAM), S.Span(30, 50), Next("i"))
  }

  function OuterNew(): Instr {
    New(NewStream(STREAM), S.Span(20, 60), InnerNew())
  }

  function LeakingFold(): Instr {
    Fold(OverScalar("xs"), "i", OuterNew(), Some(AddOutside()))
  }

  function LeakingScript(): Instr {
    Seq(Ap(Literal(JArray([JNull])), "xs"), LeakingFold())
  }

  /** It is an ordinary script, laid out in order. */
  lemma LeakingScriptIsLaid()
    ensures Scoped(LeakingScript(), [], ["i"]) && Laid(LeakingScript(), 0, S.USIZE_MAX)
  {
    assert Laid(OuterNew(), 10, 65);
    assert Laid(AddOutside(), 65, S.USIZE_MAX);
    assert Laid(LeakingFold(), 10, S.USIZE_MAX);
    assert Laid(Ap(Literal(JArray([JNull])), "xs"), 0, 10);
    var fold: Path := [] + [FoldScope("i")];
    var outer := fold + [NewScope(NewStream(STREAM), S.Span(20, 60))];
    var inner := outer + [NewScope(NewStream(STREAM), S.Span(30, 50))];
    assert inner[0] == FoldScope("i");
    assert Scoped(Next("i"), inner, ["i"]);
    assert Scoped(InnerNew(), outer, ["i"]);
    assert Scoped(OuterNew(), fold, ["i"]);
    assert Scoped(LeakingFold(), [], ["i"]);
  }

  /** But its `next` leads out of the `new`s around it. */
  lemma LeakingScriptLeaks()
    ensures !StreamScopes.Sealed(LeakingScript(), [], StreamId(false, STREAM))
  {
    var id, fold := StreamId(false, STREAM), [] + [FoldScope("i")];
    var outer := fold + [NewScope(NewStream(STREAM), S.Span(20, 60))];
    var inner := outer + [NewScope(NewStream(STREAM), S.Span(30, 50))];
    PartsOccur(LeakingScript(), [], LeakingScript(), []);
    PartsOccur(LeakingFold(), [], LeakingScript(), []);
    PartsOccur(OuterNew(), fold, LeakingScript(), []);
    PartsOccur(InnerNew(), outer, LeakingScript(), []);
    assert inner[..2] == outer && outer[..1] == fold;
    assert FoldAt(inner, "i") == 0 && inner[0..] == inner;
    assert Chain(inner, id) != [];
    if StreamScopes.Sealed(LeakingScript(), [], id) {
      StreamScopes.PartsAreSealed(Next("i"), inner, LeakingScript(), [], id);
    }
  }

  // ---- one instruction at a time ----

  lemma AddRuns(path: Path, names: seq<string>, s: Ctx)
    requires EnvOk(path, names, s.scalars.iterables)
    ensures var r := Eval(AddOutside(), path, names, s, false);
      r.out == Done(true) && r.s.streams == S.Add(s.streams, STREAM, 70, JNull)
  {
    var e := AddOutside();
    assert EvalLeaf(e, s, false) == AddToStream(e, s, false);
    assert EvalInstr(e, path, names, s, false) == EvalLeaf(e, s, false);
  }

  /** At the last element `next` runs the last instruction. */
  lemma NextRuns(i: string, l: Instr, path: Path, names: seq<string>, s: Ctx, quiet: bool)
    requires FoldScope(i) in path && EnvOk(path, names, s.scalars.iterables)
    requires i in s.scalars.iterables && !CanAdvance(s.scalars.iterables, i) && s.scalars.iterables[i].last == Some(l)
    ensures var k := FoldAt(path, i);
      Scoped(l, path[..k], names) && EnvOk(path[..k], names, s.scalars.iterables) &&
      var r, inner := Eval(Next(i), path, names, s, quiet), Eval(l, path[..k], names, s, false);
      inner.out.Done? ==> r == inner
  {
    EnvOfNext(path, FoldAt(path, i), names, s.scalars.iterables);
    assert EvalInstr(Next(i), path, names, s, quiet) == EvalNext(Next(i), path, names, s, quiet);
  }

  /** A `new` around a run that goes through ends with what it finds to remove. */
  lemma NewRuns(x: string, span: S.Span, body: Instr, path: Path, names: seq<string>, s: Ctx, quiet: bool)
    requires Scoped(New(NewStream(x), span, body), path, names) && EnvOk(path, names, s.scalars.iterables)
    ensures var path', s' := path + [NewScope(NewStream(x), span)], OpenNew(s, NewStream(x), span);
      EnvOk(path', names, s'.scalars.iterables) &&
      var r, inner := Eval(New(NewStream(x), span, body), path, names, s, quiet), Eval(body, path', names, s', quiet);
      inner.out.Done? ==>
        match S.ScopeEnd(inner.s.streams, x)
        case Some(store) => r.out == inner.out && r.s.streams == store
        case None => r.out == Failed(Uncatchable(Panic(NoStreamToLeave)))
  {
    var e := New(NewStream(x), span, body);
    EnvOfNew(path, e.argument, span, names, s.scalars.iterables);
    assert EvalInstr(e, path, names, s, quiet) == EvalNew(e, path, names, s, quiet);
  }

  lemma FoldRuns(e: Instr, items: seq<JValue>, path: Path, names: seq<string>, s: Ctx)
    requires e.Fold? && Scoped(e, path, names) && EnvOk(path, names, s.scalars.iterables)
    requires Items(s, e.iterable) == Ok(items) && items != [] && e.iter !in s.scalars.iterables
    ensures var path', s' := path + [FoldScope(e.iter)], EnterFold(s, e.iter, FoldState(items, 0, e.body, e.last));
      EnvOk(path', names, s'.scalars.iterables) &&
      Eval(e, path, names, s, false).out == Eval(e.body, path', names, s', false).out
  {
    FoldEnv(e, items, path, names, s);
    var f := FoldState(items, 0, e.body, e.last);
    LeaveFoldOk(s, e.iter, f, Eval(e.body, path + [FoldScope(e.iter)], names, EnterFold(s, e.iter, f), false));
    assert EvalInstr(e, path, names, s, false) == EvalFold(e, path, names, s, false);
  }

  // ---- the script ----

  function Global(): S.StreamDescriptor {
    S.StreamDescriptor(S.GLOBAL_SPAN, [JNull])
  }

  /** Inside both `new`s: the streams they opened are gone. */
  lemma NextDisplaces(path: Path, names: seq<string>, s: Ctx)
    requires FoldScope("i") in path && EnvOk(path, names, s.scalars.iterables) && "i" in s.scalars.iterables
    requires !CanAdvance(s.scalars.iterables, "i") && s.scalars.iterables["i"].last == Some(AddOutside())
    requires S.Descriptors(s.streams, STREAM)
          == [S.StreamDescriptor(S.Span(20, 60), []), S.StreamDescriptor(S.Span(30, 50), [])]
    ensures var r := Eval(Next("i"), path, names, s, false);
      r.out == Done(true) && S.Descriptors(r.s.streams, STREAM) == [Global()]
  {
    NextRuns("i", AddOutside(), path, names, s, false);
    AddRuns(path[..FoldAt(path, "i")], names, s);
    var ds := S.Descriptors(s.streams, STREAM);
    assert ds[..1] == [ds[0]] && ds[..1][..0] == [];
    assert S.FindClosest(ds[..1], 70) == None;
    assert S.FindClosest(ds, 70) == None;
  }

  lemma NewsLose(path: Path, names: seq<string>, s: Ctx)
    requires path == [FoldScope("i")] && Scoped(OuterNew(), path, names) && EnvOk(path, names, s.scalars.iterables)
    requires "i" in s.scalars.iterables && !CanAdvance(s.scalars.iterables, "i")
    requires s.scalars.iterables["i"].last == Some(AddOutside()) && s.streams == map[]
    ensures Eval(OuterNew(), path, names, s, false).out == Failed(Uncatchable(Panic(NoStreamToLeave)))
  {
    var s1 := OpenNew(s, NewStream(STREAM), S.Span(20, 60));
    var s2 := OpenNew(s1, NewStream(STREAM), S.Span(30, 50));
    var path1 := path + [NewScope(NewStream(STREAM), S.Span(20, 60))];
    var path2 := path1 + [NewScope(NewStream(STREAM), S.Span(30, 50))];
    NewRuns(STREAM, S.Span(20, 60), InnerNew(), path, names, s, false);
    NewRuns(STREAM, S.Span(30, 50), Next("i"), path1, names, s1, false);
    assert path2[0] == FoldScope("i");
    NextDisplaces(path2, names, s2);
  }

  lemma FirstRuns(s: Ctx)
    requires s.scalars == EmptyScalars()
    ensures EnvOk([], ["i"], s.scalars.iterables)
    ensures var r := Eval(Ap(Literal(JArray([JNull])), "xs"), [], ["i"], s, false);
      && r.out == Done(true) && r.s.streams == s.streams && r.s.scalars.iterables == map[]
      && Items(r.s, OverScalar("xs")) == Ok([JNull])
  {
    var e := Ap(Literal(JArray([JNull])), "xs");
    assert EvalLeaf(e, s, false) == ApScalar(e, s, false);
    assert EvalInstr(e, [], ["i"], s, false) == EvalLeaf(e, s, false);
  }

  lemma ScriptRuns(s: Ctx)
    requires s.scalars == EmptyScalars() && s.streams == map[]
    ensures Scoped(LeakingScript(), [], ["i"]) && EnvOk([], ["i"], s.scalars.iterables)
    ensures Eval(LeakingScript(), [], ["i"], s, false).out == Failed(Uncatchable(Panic(NoStreamToLeave)))
  {
    LeakingScriptIsLaid();
    FirstRuns(s);
    var first := Ap(Literal(JArray([JNull])), "xs");
    Loops.SeqRuns(first, LeakingFold(), [], ["i"], s, false);
    var s1 := Eval(first, [], ["i"], s, false).s;
    FoldRuns(LeakingFold(), [JNull], [], ["i"], s1);
    NewsLose([] + [FoldScope("i")], ["i"], EnterFold(s1, "i", FoldState([JNull], 0, OuterNew(), Some(AddOutside()))));
  }

  /** Whoever runs it, and whatever is known from earlier runs, the script makes the interpreter panic. */
  lemma LeakingScriptPanics(initPeer: string, peer: string, replies: seq<Reply>, lastCallId: nat)
    ensures Scoped(LeakingScript(), [], ["i"]) && Laid(LeakingScript(), 0, S.USIZE_MAX)
    ensures var r := Eval(LeakingScript(), [], ["i"], Initial(initPeer, peer, replies, lastCallId), false);
      r.out == Failed(Uncatchable(Panic(NoStreamToLeave))) && r.s.history.displaced != {}
  {
    LeakingScriptIsLaid();
    ScriptRuns(Initial(initPeer, peer, replies, lastCallId));
    EndsAreOwnExactly(StreamId(false, STREAM), LeakingScript(), ["i"], initPeer, peer, replies, lastCallId);
  }
}
