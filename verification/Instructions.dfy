/**
 * What single instructions do, told by what can be read before and after them: which
 * operands decide a comparison, what a variable holds after it was set, what a canon
 * takes from its stream, what a call asks for and what its answer leaves, and what the
 * object of a failure says.
 */
module Instructions {
  import opened Wrappers
  import opened Json
  import opened Errors
  import opened Ast
  import opened State
  import opened Semantics
  import Loops
  import Restoration
  import Scopes
  import M = SparseMatrix
  import S = Streams

  predicate IsMissing(e: ExecutionError) {
    e.Catchable? && e.c.VariableNotFound?
  }

  /** An instruction that fails with an error that arose in it leaves values, streams and calls as they are. */
  predicate FailsWith(s: Ctx, r: Run, e: ExecutionError) {
    && r.out == Failed(e) && r.s.scalars == s.scalars && r.s.streams == s.streams && r.s.streamMaps == s.streamMaps
    && r.s.trace == s.trace && r.s.requests == s.requests && r.s.lastCallId == s.lastCallId
  }

  /** An instruction that lacks an operand waits, if that is a variable that is not there yet, and otherwise fails. */
  predicate LacksOperand(s: Ctx, r: Run, e: ExecutionError) {
    if IsMissing(e) then r == Run(s, Done(false)) else FailsWith(s, r, e)
  }

  // ---- comparisons ----

  /** On its way out an error is only recorded. */
  lemma FailureIsRecorded(e: Instr, path: Path, names: seq<string>, s: Ctx, quiet: bool, err: ExecutionError)
    requires Scoped(e, path, names) && EnvOk(path, names, s.scalars.iterables)
    ensures FailsWith(s, EvalInstr(e, path, names, s, quiet), err) ==> FailsWith(s, Eval(e, path, names, s, quiet), err)
    ensures LacksOperand(s, EvalInstr(e, path, names, s, quiet), err) ==> LacksOperand(s, Eval(e, path, names, s, quiet), err)
  {
  }

  /** What becomes of a comparison that lets its body run or not. */
  predicate Compared(s: Ctx, r: Run, inner: Run, left: Result<JValue, ExecutionError>, right: Result<JValue, ExecutionError>,
                     onEqual: bool, otherwise: CatchableError) {
    match (left, right)
    case (Err(e), _) => LacksOperand(s, r, e)
    case (Ok(_), Err(e)) => LacksOperand(s, r, e)
    case (Ok(a), Ok(b)) => if (a == b) == onEqual then Loops.SameEnd(r, inner) else FailsWith(s, r, Catchable(otherwise))
  }

  lemma ComparisonEvaluates(e: Instr, path: Path, names: seq<string>, s: Ctx, quiet: bool)
    requires (e.Match? || e.MisMatch?) && Scoped(e, path, names) && EnvOk(path, names, s.scalars.iterables)
    ensures Compared(s, EvalMatch(e, path, names, s, quiet), Eval(e.body, path, names, s, quiet), Resolve(s, e.left), Resolve(s, e.right),
      e.Match?, if e.Match? then MatchValuesNotEqual else MismatchValuesEqual)
  {
  }

  lemma ComparisonIsRecorded(e: Instr, path: Path, names: seq<string>, s: Ctx, quiet: bool)
    requires (e.Match? || e.MisMatch?) && Scoped(e, path, names) && EnvOk(path, names, s.scalars.iterables)
    ensures var inner, left, right := Eval(e.body, path, names, s, quiet), Resolve(s, e.left), Resolve(s, e.right);
      var otherwise := if e.Match? then MatchValuesNotEqual else MismatchValuesEqual;
      Compared(s, Eval(e, path, names, s, quiet), inner, left, right, e.Match?, otherwise)
  {
    var left, right := Resolve(s, e.left), Resolve(s, e.right);
    ComparisonEvaluates(e, path, names, s, quiet);
    assert EvalInstr(e, path, names, s, quiet) == EvalMatch(e, path, names, s, quiet);
    var err := if left.Err? then left.error
               else if right.Err? then right.error
               else Catchable(if e.Match? then MatchValuesNotEqual else MismatchValuesEqual);
    FailureIsRecorded(e, path, names, s, quiet, err);
    Loops.Bubbles(e, path, names, s, quiet);
  }

  /** `match` runs its body exactly if both operands are the same. */
  lemma MatchRuns(left: Operand, right: Operand, body: Instr, path: Path, names: seq<string>, s: Ctx, quiet: bool)
    requires Scoped(Match(left, right, body), path, names) && EnvOk(path, names, s.scalars.iterables)
    ensures var r, inner := Eval(Match(left, right, body), path, names, s, quiet), Eval(body, path, names, s, quiet);
      match (Resolve(s, left), Resolve(s, right))
      case (Err(e), _) => LacksOperand(s, r, e)
      case (Ok(_), Err(e)) => LacksOperand(s, r, e)
      case (Ok(a), Ok(b)) => if a == b then Loops.SameEnd(r, inner) else FailsWith(s, r, Catchable(MatchValuesNotEqual))
  {
    ComparisonIsRecorded(Match(left, right, body), path, names, s, quiet);
  }

  /** `mismatch` runs its body exactly if the operands differ. */
  lemma MismatchRuns(left: Operand, right: Operand, body: Instr, path: Path, names: seq<string>, s: Ctx, quiet: bool)
    requires Scoped(MisMatch(left, right, body), path, names) && EnvOk(path, names, s.scalars.iterables)
    ensures var r, inner := Eval(MisMatch(left, right, body), path, names, s, quiet), Eval(body, path, names, s, quiet);
      match (Resolve(s, left), Resolve(s, right))
      case (Err(e), _) => LacksOperand(s, r, e)
      case (Ok(_), Err(e)) => LacksOperand(s, r, e)
      case (Ok(a), Ok(b)) => if a != b then Loops.SameEnd(r, inner) else FailsWith(s, r, Catchable(MismatchValuesEqual))
  {
    ComparisonIsRecorded(MisMatch(left, right, body), path, names, s, quiet);
  }

  // ---- setting and reading ----

  /** Operands that do not name the variable. */
  predicate Other(o: Operand, x: string) {
    o != Scalar(x)
  }

  lemma LeafRuns(e: Instr, path: Path, names: seq<string>, s: Ctx, quiet: bool)
    requires IsLeaf(e) && Scoped(e, path, names) && EnvOk(path, names, s.scalars.iterables)
    ensures var r := EvalLeaf(e, s, quiet);
      Eval(e, path, names, s, quiet) == if r.out.Failed? && !e.Call? then r.(s := SetErrors(r.s, r.out.error, e, s.peer)) else r
  {
    assert EvalInstr(e, path, names, s, quiet) == EvalLeaf(e, s, quiet);
  }

  /** Setting reads back, and changes no other variable. */
  lemma SetReads(s: Ctx, x: string, v: JValue, o: Operand)
    requires Restoration.StoresValid(s.scalars) && SetScalar(s, x, v).Ok? && x !in s.scalars.iterables
    ensures var s' := SetScalar(s, x, v).value;
      Resolve(s', Scalar(x)) == Ok(v) && (Other(o, x) ==> Resolve(s', o) == Resolve(s, o))
  {
  }

  /** In the global scope a variable that has a value cannot be set; otherwise any can. */
  lemma SettableExactly(s: Ctx, x: string, v: JValue)
    requires Restoration.StoresValid(s.scalars)
    ensures SetScalar(s, x, v).Err? <==> s.scalars.vars.depth == 0 && M.Get(s.scalars.vars, x).Ok? && M.Get(s.scalars.vars, x).value.Some?
    ensures SetScalar(s, x, v).Err? ==> SetScalar(s, x, v).error == Uncatchable(UncatchableError.ShadowingIsNotAllowed(x))
  {
    assert Scopes.RowValid(s.scalars.vars.depth, Scopes.Cells(s.scalars.vars, x));
    if x in s.scalars.vars.cells {
      var cells := Scopes.Cells(s.scalars.vars, x);
      assert cells[|cells| - 1] == s.scalars.vars.cells[x].last;
    }
  }

  /** After `ap` the variable reads as the operand did. */
  lemma ApRuns(operand: Operand, x: string, path: Path, names: seq<string>, s: Ctx, quiet: bool, o: Operand)
    requires EnvOk(path, names, s.scalars.iterables) && Restoration.StoresValid(s.scalars) && x !in s.scalars.iterables
    ensures var r := Eval(Ap(operand, x), path, names, s, quiet);
      match Resolve(s, operand)
      case Err(e) => LacksOperand(s, r, e)
      case Ok(v) =>
        if SetScalar(s, x, v).Err? then FailsWith(s, r, Uncatchable(UncatchableError.ShadowingIsNotAllowed(x)))
        else r.out == Done(!quiet) && Resolve(r.s, Scalar(x)) == Ok(v) && (Other(o, x) ==> Resolve(r.s, o) == Resolve(s, o))
  {
    var e := Ap(operand, x);
    LeafRuns(e, path, names, s, quiet);
    assert EvalLeaf(e, s, quiet) == ApScalar(e, s, quiet);
    var v := Resolve(s, operand);
    if v.Ok? && SetScalar(s, x, v.value).Ok? {
      SetReads(s, x, v.value, o);
    }
  }

  /** Inside a `new` the variable is there but has no value yet; all others are as they were. */
  lemma NewHides(s: Ctx, x: string, span: S.Span, o: Operand)
    requires Restoration.StoresValid(s.scalars)
    ensures var s' := OpenNew(s, NewScalar(x), span);
      Resolve(s', Scalar(x)) == Err(Catchable(VariableWasNotInitializedAfterNew(x)))
      && (Other(o, x) ==> Resolve(s', o) == Resolve(s, o))
  {
  }

  lemma NewHidesCanonMap(s: Ctx, x: string, span: S.Span, o: Operand)
    requires Restoration.StoresValid(s.scalars)
    ensures var s' := OpenNew(s, NewCanonMap(x), span);
      Items(s', OverCanonMap(x)) == Err(Catchable(VariableWasNotInitializedAfterNew(x))) && Resolve(s', o) == Resolve(s, o)
  {
  }

  lemma NewHidesCanon(s: Ctx, x: string, span: S.Span, o: Operand)
    requires Restoration.StoresValid(s.scalars)
    ensures var s' := OpenNew(s, NewCanonStream(x), span);
      Resolve(s', CanonStreamOf(x)) == Err(Catchable(VariableWasNotInitializedAfterNew(x)))
      && (o != CanonStreamOf(x) ==> Resolve(s', o) == Resolve(s, o))
  {
  }

  /** At the start of a script nothing can be read, nothing is asked for, and all replies are there. */
  lemma NothingAtStart(x: string, initPeer: string, peer: string, replies: seq<Reply>, lastCallId: nat)
    ensures var s := Initial(initPeer, peer, replies, lastCallId);
      && Resolve(s, Scalar(x)) == Err(Catchable(CatchableError.VariableNotFound(x)))
      && Resolve(s, CanonStreamOf(x)) == Err(Catchable(CatchableError.VariableNotFound(x)))
      && SaysNoError(Resolve(s, ErrorObject)) && SaysNoError(Resolve(s, LastErrorObject))
      && s.replies == replies && s.requests == map[] && s.trace == [] && s.lastCallId == lastCallId
      && s.peer == peer && s.initPeer == initPeer
  {
  }

  /** The object for no error. */
  predicate SaysNoError(r: Result<JValue, ExecutionError>) {
    r.Ok? && r.value == JObject(map["error_code" := JNumber(Int(0)), "message" := JString("")])
  }

  // ---- streams and canons ----

  lemma ApStreamRuns(operand: Operand, x: string, position: nat, path: Path, names: seq<string>, s: Ctx, quiet: bool)
    requires EnvOk(path, names, s.scalars.iterables) && 0 < position < S.USIZE_MAX
    ensures var r := Eval(ApStream(operand, x, position), path, names, s, quiet);
      match Resolve(s, operand)
      case Err(e) => LacksOperand(s, r, e)
      case Ok(v) =>
        && r.out == Done(!quiet) && r.s.scalars == s.scalars && r.s.streamMaps == s.streamMaps
        && S.HeldAt(r.s.streams, x, position) == S.HeldAt(s.streams, x, position) + [v]
  {
    var e := ApStream(operand, x, position);
    LeafRuns(e, path, names, s, quiet);
    assert EvalLeaf(e, s, quiet) == AddToStream(e, s, quiet);
    if Resolve(s, operand).Ok? {
      S.AddAppends(s.streams, x, position, Resolve(s, operand).value);
    }
  }

  /** The JSON value of a key, if it is one of a map. */
  function KeyValue(s: Ctx, key: KeyClause): Result<JValue, ExecutionError> {
    match key
    case KeyLiteral(text) => Ok(JString(text))
    case KeyInt(i) => Ok(JNumber(Int(i)))
    case KeyScalar(x) => Resolve(s, Scalar(x))
  }

  predicate CanBeKey(v: JValue) {
    v.JString? || (v.JNumber? && v.n.Int? && -0x8000_0000_0000_0000 <= v.n.i < 0x1_0000_0000_0000_0000)
  }

  lemma PairIsObject(k: StreamMapKey, v: JValue)
    ensures FromKeyValue(k, v) == JObject(map["key" := k.ToJValue(), "value" := v])
  {
    assert FromKeyValue(k, v).fields == map["key" := k.ToJValue(), "value" := v];
  }

  lemma KeysAre(s: Ctx, key: KeyClause, x: string)
    ensures match KeyValue(s, key)
      case Err(e) => ResolveKey(s, key, x) == Err(e)
      case Ok(k) =>
        if key.KeyScalar? && !CanBeKey(k) then ResolveKey(s, key, x) == Err(Catchable(UnsupportedMapKeyType(x)))
        else ResolveKey(s, key, x).Ok? && ResolveKey(s, key, x).value.ToJValue() == k
  {
  }

  /** A key-value object is added to the stream of the map. */
  lemma ApMapRuns(key: KeyClause, operand: Operand, x: string, position: nat, path: Path, names: seq<string>, s: Ctx, quiet: bool)
    requires EnvOk(path, names, s.scalars.iterables) && 0 < position < S.USIZE_MAX
    ensures var r := Eval(ApMap(key, operand, x, position), path, names, s, quiet);
      match (Resolve(s, operand), KeyValue(s, key))
      case (Err(e), _) => LacksOperand(s, r, e)
      case (Ok(_), Err(e)) => LacksOperand(s, r, e)
      case (Ok(v), Ok(k)) =>
        if key.KeyScalar? && !CanBeKey(k) then FailsWith(s, r, Catchable(UnsupportedMapKeyType(x)))
        else
          && r.out == Done(!quiet) && r.s.scalars == s.scalars && r.s.streams == s.streams
          && S.HeldAt(r.s.streamMaps, x, position)
             == S.HeldAt(s.streamMaps, x, position) + [JObject(map["key" := k, "value" := v])]
  {
    var e := ApMap(key, operand, x, position);
    LeafRuns(e, path, names, s, quiet);
    assert EvalLeaf(e, s, quiet) == AddToMap(e, s, quiet);
    var v, k := Resolve(s, operand), ResolveKey(s, key, x);
    KeysAre(s, key, x);
    if v.Ok? && k.Ok? {
      PairIsObject(k.value, v.value);
      S.AddAppends(s.streamMaps, x, position, FromKeyValue(k.value, v.value));
    }
  }

  /** A canon reads as the array of what its stream holds. */
  lemma CanonRuns(stream: string, position: nat, x: string, path: Path, names: seq<string>, s: Ctx, quiet: bool, o: Operand)
    requires EnvOk(path, names, s.scalars.iterables) && Restoration.StoresValid(s.scalars)
    ensures var r := Eval(Canon(stream, position, x), path, names, s, quiet);
      && r.s.streams == s.streams && r.s.streamMaps == s.streamMaps
      && if r.out.Failed? then r.out == Failed(Uncatchable(UncatchableError.ShadowingIsNotAllowed(x))) && r.s.scalars == s.scalars
         else
           && r.out == Done(!quiet)
           && Resolve(r.s, CanonStreamOf(x)) == Ok(JArray(S.HeldAt(s.streams, stream, position)))
           && Items(r.s, OverCanonStream(x)) == Ok(S.HeldAt(s.streams, stream, position))
           && (o != CanonStreamOf(x) ==> Resolve(r.s, o) == Resolve(s, o))
  {
    var e := Canon(stream, position, x);
    LeafRuns(e, path, names, s, quiet);
    CanonReads(e, s, quiet, o);
  }

  lemma CanonReads(e: Instr, s: Ctx, quiet: bool, o: Operand)
    requires e.Canon? && Restoration.StoresValid(s.scalars)
    ensures var r := EvalLeaf(e, s, quiet);
      && r.s.streams == s.streams && r.s.streamMaps == s.streamMaps
      && if r.out.Failed? then
           r.out == Failed(Uncatchable(UncatchableError.ShadowingIsNotAllowed(e.canonStream))) && r.s.scalars == s.scalars
         else
           && r.out == Done(!quiet)
           && Resolve(r.s, CanonStreamOf(e.canonStream)) == Ok(JArray(S.HeldAt(s.streams, e.stream, e.position)))
           && Items(r.s, OverCanonStream(e.canonStream)) == Ok(S.HeldAt(s.streams, e.stream, e.position))
           && (o != CanonStreamOf(e.canonStream) ==> Resolve(r.s, o) == Resolve(s, o))
  {
    assert EvalLeaf(e, s, quiet) == CanonizeStream(e, s, quiet);
  }

  /** A canon of a map can be iterated over, pair by pair in stream order. */
  lemma CanonMapRuns(streamMap: string, position: nat, x: string, path: Path, names: seq<string>, s: Ctx, quiet: bool)
    requires EnvOk(path, names, s.scalars.iterables) && Restoration.StoresValid(s.scalars)
    ensures var r := Eval(CanonMap(streamMap, position, x), path, names, s, quiet);
      && r.s.streams == s.streams && r.s.streamMaps == s.streamMaps
      && (r.out.Failed? ==> r.out.error.Uncatchable? && r.s.scalars == s.scalars)
      && (r.out.Done? ==>
            && r.out == Done(!quiet) && Items(r.s, OverCanonMap(x)) == Ok(S.HeldAt(s.streamMaps, streamMap, position))
            && r.s.scalars.vars == s.scalars.vars && r.s.scalars.canonStreams == s.scalars.canonStreams)
  {
    var e := CanonMap(streamMap, position, x);
    LeafRuns(e, path, names, s, quiet);
    CanonMapReads(e, s, quiet);
  }

  lemma CanonMapReads(e: Instr, s: Ctx, quiet: bool)
    requires e.CanonMap? && Restoration.StoresValid(s.scalars)
    ensures var r := EvalLeaf(e, s, quiet);
      && r.s.streams == s.streams && r.s.streamMaps == s.streamMaps
      && (r.out.Failed? ==> r.out.error.Uncatchable? && r.s.scalars == s.scalars)
      && (r.out.Done? ==>
            && r.out == Done(!quiet) && Items(r.s, OverCanonMap(e.canonMap)) == Ok(S.HeldAt(s.streamMaps, e.streamMap, e.position))
            && r.s.scalars.vars == s.scalars.vars && r.s.scalars.canonStreams == s.scalars.canonStreams)
  {
    assert EvalLeaf(e, s, quiet) == CanonizeMap(e, s, quiet);
  }

  // ---- what folds iterate over ----

  /** The elements are those of the array the iterable reads as. */
  lemma ElementsAre(s: Ctx, x: string)
    ensures match Resolve(s, Scalar(x))
      case Err(e) => Items(s, OverScalar(x)) == Err(e)
      case Ok(JArray(xs)) => Items(s, OverScalar(x)) == Ok(xs)
      case Ok(v) => Items(s, OverScalar(x)) == Err(Catchable(FoldIteratesOverNonArray(v, x)))
    ensures match Resolve(s, CanonStreamOf(x))
      case Err(e) => Items(s, OverCanonStream(x)) == Err(e)
      case Ok(v) => v.JArray? && Items(s, OverCanonStream(x)) == Ok(v.items)
    ensures Items(s, EmptyArray) == Ok([])
  {
  }

  /** Nothing to iterate over is complete; a missing iterable waits; other errors go on. */
  lemma FoldWithoutElements(e: Instr, path: Path, names: seq<string>, s: Ctx, quiet: bool)
    requires e.Fold? && Scoped(e, path, names) && EnvOk(path, names, s.scalars.iterables)
    ensures var r := Eval(e, path, names, s, quiet);
      match Items(s, e.iterable)
      case Err(err) => LacksOperand(s, r, err)
      case Ok(items) => items == [] ==> r == Run(s, Done(!quiet))
  {
    assert EvalInstr(e, path, names, s, quiet) == EvalFold(e, path, names, s, quiet);
  }

  lemma NothingRuns(path: Path, names: seq<string>, s: Ctx, quiet: bool)
    requires EnvOk(path, names, s.scalars.iterables)
    ensures Eval(Null, path, names, s, quiet) == Run(s, Done(!quiet))
    ensures Eval(Never, path, names, s, quiet) == Run(s, Done(false))
  {
    LeafRuns(Null, path, names, s, quiet);
    LeafRuns(Never, path, names, s, quiet);
  }

  // ---- calls ----

  /** Every argument resolves, to these values. */
  predicate ArgumentsAre(s: Ctx, operands: seq<Operand>, values: seq<JValue>) {
    |values| == |operands| && forall k | 0 <= k < |operands| :: Resolve(s, operands[k]) == Ok(values[k])
  }

  /** The first argument that does not resolve, and why. */
  predicate FirstLacking(s: Ctx, operands: seq<Operand>, k: nat, e: ExecutionError) {
    k < |operands| && Resolve(s, operands[k]) == Err(e) && forall j | 0 <= j < k :: Resolve(s, operands[j]).Ok?
  }

  lemma {:induction false} ArgumentsResolve(s: Ctx, operands: seq<Operand>) returns (k: nat)
    ensures match ResolveAll(s, operands)
      case Ok(values) => ArgumentsAre(s, operands, values)
      case Err(e) => FirstLacking(s, operands, k, e)
  {
    k := 0;
    if operands != [] && Resolve(s, operands[0]).Ok? {
      var rest := ArgumentsResolve(s, operands[1..]);
      k := rest + 1;
    }
  }

  lemma {:induction false} ArgumentsGiven(s: Ctx, operands: seq<Operand>, values: seq<JValue>)
    requires ArgumentsAre(s, operands, values)
    ensures ResolveAll(s, operands) == Ok(values)
  {
    if operands != [] {
      ArgumentsGiven(s, operands[1..], values[1..]);
      assert values == [values[0]] + values[1..];
    }
  }

  lemma {:induction false} ArgumentsLack(s: Ctx, operands: seq<Operand>, k: nat, e: ExecutionError)
    requires FirstLacking(s, operands, k, e)
    ensures ResolveAll(s, operands) == Err(e)
  {
    if k > 0 {
      ArgumentsLack(s, operands[1..], k - 1, e);
    }
  }

  /** What the data of earlier runs and the host say about this call. */
  function NextReply(s: Ctx): Reply {
    if s.replies == [] then NotMet else s.replies[0]
  }

  /** Only the call's own entry is added to the trace, and it uses up one reply. */
  predicate Traces(s: Ctx, r: Run, entry: TraceEntry) {
    r.s.trace == s.trace + [entry] && r.s.replies == (if s.replies == [] then [] else s.replies[1..])
  }

  /** No request is made. */
  predicate AsksNothing(s: Ctx, r: Run) {
    r.s.requests == s.requests && r.s.lastCallId == s.lastCallId
  }

  /**
   * A call whose arguments are there: it is answered by data, or waits, or is sent to
   * its peer, or asks the host for its service with exactly its arguments.
   */
  lemma CallRuns(e: Instr, values: seq<JValue>, path: Path, names: seq<string>, s: Ctx, quiet: bool)
    requires e.Call? && EnvOk(path, names, s.scalars.iterables) && Restoration.StoresValid(s.scalars)
    requires CheckOutput(s, e.output).Ok? && ArgumentsAre(s, e.args, values)
    requires e.output.Some? ==> e.output.value !in s.scalars.iterables
    ensures var r := Eval(e, path, names, s, quiet);
      match NextReply(s)
      case Executed(v) =>
        && AsksNothing(s, r)
        && if e.output.Some? && SetScalar(s, e.output.value, v).Err?
           then r.out == Failed(Uncatchable(UncatchableError.ShadowingIsNotAllowed(e.output.value))) && r.s.trace == s.trace
           else
             && r.out == Done(!quiet) && Traces(s, r, CallExecuted(e.peer, values, v))
             && (e.output.Some? ==> Resolve(r.s, Scalar(e.output.value)) == Ok(v))
             && (e.output.None? ==> r.s.scalars == s.scalars)
      case ServiceFailed(code, message) =>
        && AsksNothing(s, r) && Traces(s, r, CallFailed(e.peer, values, code)) && r.s.scalars == s.scalars
        && r.out == Failed(Catchable(LocalServiceError(code, message)))
      case Waiting => AsksNothing(s, r) && Traces(s, r, CallWaiting(e.peer)) && r.out == Done(false) && r.s.scalars == s.scalars
      case NotMet =>
        && r.out == Done(false) && r.s.scalars == s.scalars
        && if e.peer != s.peer then AsksNothing(s, r) && Traces(s, r, CallSent(e.peer))
           else
             && r.s.lastCallId == (s.lastCallId + 1) % 0x1_0000_0000
             && r.s.requests == s.requests[r.s.lastCallId := values] && Traces(s, r, CallRequested(r.s.lastCallId))
  {
    ArgumentsGiven(s, e.args, values);
    LeafRuns(e, path, names, s, quiet);
    var s1 := s.(replies := if s.replies == [] then [] else s.replies[1..]);
    assert EvalLeaf(e, s, quiet) == Answer(e, s1, Ok(values), NextReply(s), quiet);
    if e.output.Some? && NextReply(s).Executed? && SetScalar(s1, e.output.value, NextReply(s).value).Ok? {
      SetReads(s1, e.output.value, NextReply(s).value, ErrorObject);
    }
  }

  /** A call that lacks an argument asks for nothing: it waits for a missing variable, and fails with any other error. */
  lemma CallLacksArgument(e: Instr, k: nat, err: ExecutionError, path: Path, names: seq<string>, s: Ctx, quiet: bool)
    requires e.Call? && EnvOk(path, names, s.scalars.iterables)
    requires CheckOutput(s, e.output).Ok? && FirstLacking(s, e.args, k, err)
    ensures var r := Eval(e, path, names, s, quiet);
      && AsksNothing(s, r) && r.s.scalars == s.scalars
      && (!IsMissing(err) ==> r.out == Failed(err) && r.s.trace == s.trace)
      && (IsMissing(err) && NextReply(s).NotMet? && e.peer == s.peer ==> r.out == Done(false) && r.s.trace == s.trace)
      && (IsMissing(err) && NextReply(s).NotMet? && e.peer != s.peer ==> r.out == Done(false) && Traces(s, r, CallSent(e.peer)))
      && (IsMissing(err) && NextReply(s).Waiting? ==> r.out == Done(false) && Traces(s, r, CallWaiting(e.peer)))
  {
    ArgumentsLack(s, e.args, k, err);
    LeafRuns(e, path, names, s, quiet);
    assert EvalLeaf(e, s, quiet) == DoCall(e, s, quiet);
  }

  /** A call must not have an iterator for an output, nor in the global scope a variable that has a value. */
  lemma OutputRefused(s: Ctx, x: string)
    requires Restoration.StoresValid(s.scalars) && s.scalars.vars.depth == s.scalars.canonStreams.depth
    ensures x in s.scalars.iterables && Resolve(s, Scalar(x)).Ok? && s.scalars.iterables[x].cursor < |s.scalars.iterables[x].items| ==>
      CheckOutput(s, Some(x)) == Err(Uncatchable(IterableShadowing(x)))
    ensures x !in s.scalars.iterables ==>
      (CheckOutput(s, Some(x)).Err? <==>
        s.scalars.vars.depth == 0 && Resolve(s, Scalar(x)).Ok? && M.Get(s.scalars.canonStreams, x) != Ok(None))
  {
    assert Scopes.RowValid(s.scalars.vars.depth, Scopes.Cells(s.scalars.vars, x));
    assert Scopes.RowValid(s.scalars.canonStreams.depth, Scopes.Cells(s.scalars.canonStreams, x));
    if x in s.scalars.canonStreams.cells {
      var cells := Scopes.Cells(s.scalars.canonStreams, x);
      assert cells[|cells| - 1] == s.scalars.canonStreams.cells[x].last;
    }
  }

  // ---- failures ----

  predicate Throws(s: Ctx, r: Run, o: JValue) {
    r.out == Failed(Catchable(UserError(o))) && Resolve(r.s, LastErrorObject) == Ok(o) && r.s.scalars == s.scalars
  }

  /** `fail` with a code and a message throws an object that says them, the instruction and who began the run. */
  lemma FailLiteralRuns(code: int, message: string, path: Path, names: seq<string>, s: Ctx, quiet: bool) returns (o: JValue)
    requires EnvOk(path, names, s.scalars.iterables)
    ensures var e := Fail(FailLiteral(code, message));
      Tells(o, code, message, e.Text(), Some(s.initPeer)) && Throws(s, Eval(e, path, names, s, quiet), o)
  {
    var e := Fail(FailLiteral(code, message));
    o := ErrorFromRawFields(code, message, e.Text(), Some(s.initPeer));
    RawFieldsTell(code, message, e.Text(), Some(s.initPeer));
    LeafRuns(e, path, names, s, quiet);
    assert EvalLeaf(e, s, quiet) == DoFail(e, s) == FailWithObject(s, e, o);
  }

  /**
   * `fail :error:` throws what `:error:` shows: the error that was caught, if there is
   * one, and otherwise one that carries the object. Both error objects then show it.
   */
  lemma FailErrorRuns(path: Path, names: seq<string>, s: Ctx, quiet: bool)
    requires EnvOk(path, names, s.scalars.iterables)
    ensures var r, o := Eval(Fail(FailError), path, names, s, quiet), s.error.error.error;
      if CheckErrorObject(o).Ok? then
        && r.out == Failed(Catchable(match s.error.error.origCatchable case Some(c) => c case None => UserError(o)))
        && Resolve(r.s, ErrorObject) == Ok(o) && Resolve(r.s, LastErrorObject) == Ok(o)
        && !r.s.error.canBeSet && !r.s.lastError.canBeSet && r.s.scalars == s.scalars
      else r.out == Failed(CheckErrorObject(o).error) && r.s.scalars == s.scalars
  {
    var e := Fail(FailError);
    LeafRuns(e, path, names, s, quiet);
    assert EvalLeaf(e, s, quiet) == DoFail(e, s) == FailWithError(s, e);
  }

  /** `fail` with an object throws it if it is an error object, and otherwise says that it is none. */
  lemma FailObjectRuns(what: FailArgument, path: Path, names: seq<string>, s: Ctx, quiet: bool)
    requires (what.FailScalar? || what.FailLastError?) && EnvOk(path, names, s.scalars.iterables)
    ensures var r := Eval(Fail(what), path, names, s, quiet);
      match Resolve(s, if what.FailScalar? then Scalar(what.name) else LastErrorObject)
      case Err(e) => FailsWith(s, r, e)
      case Ok(o) =>
        if CheckErrorObject(o).Ok? then Throws(s, r, o)
        else r.out.Failed? && !(r.out.error.Catchable? && r.out.error.c.UserError?) && r.s.scalars == s.scalars
  {
    var e := Fail(what);
    LeafRuns(e, path, names, s, quiet);
    assert EvalLeaf(e, s, quiet) == DoFail(e, s);
    var o := Resolve(s, if what.FailScalar? then Scalar(what.name) else LastErrorObject);
    if o.Ok? {
      assert DoFail(e, s) == FailWithChecked(s, e, o.value);
    }
  }
}
