/** The execution context: the objects the instructions update in place. */
module Context {
  import opened Wrappers
  import opened Json
  import opened Errors
  import opened Ast
  import opened State
  import M = SparseMatrix
  import S = Streams
  import C = CanonMaps

  /** All scalars: three stores moved in lockstep and the iterators of the running folds. */
  class ScalarVariables {
    const nonIterableVariables: M.ValuesSparseMatrix<JValue>
    const canonStreams: M.ValuesSparseMatrix<seq<JValue>>
    const canonMaps: M.ValuesSparseMatrix<C.CanonMap>
    var iterableVariables: Iterables

    ghost function Repr(): set<object> {
      {this, nonIterableVariables, canonStreams, canonMaps}
    }

    ghost predicate Separate() {
      var a: object, b: object, c: object := nonIterableVariables, canonStreams, canonMaps;
      a != b && b != c && a != c
    }

    ghost function View(): Scalars
      reads Repr()
    {
      Scalars(nonIterableVariables.View(), canonStreams.View(), canonMaps.View(), iterableVariables)
    }

    constructor ()
      ensures fresh(Repr()) && Separate()
      ensures View() == EmptyScalars()
    {
      nonIterableVariables := new M.ValuesSparseMatrix<JValue>();
      canonStreams := new M.ValuesSparseMatrix<seq<JValue>>();
      canonMaps := new M.ValuesSparseMatrix<C.CanonMap>();
      iterableVariables := map[];
    }

    method SetScalarValue(name: string, value: JValue) returns (r: Result<(), ExecutionError>)
      requires Separate()
      modifies nonIterableVariables
      ensures View() == old(View()).(vars := M.Set(old(View()).vars, name, value))
      ensures r == match M.SetAnswer(old(View()).vars, name)
        case Err(_) => Err(Uncatchable(UncatchableError.ShadowingIsNotAllowed(name)))
        case Ok(_) => Ok(())
    {
      var answer := nonIterableVariables.SetValue(name, value);
      r := if answer.Err? then Err(Uncatchable(UncatchableError.ShadowingIsNotAllowed(name))) else Ok(());
    }

    method SetIterableValue(name: string, foldState: FoldState) returns (r: Result<(), ExecutionError>)
      modifies this
      ensures r == if name in old(iterableVariables) then Err(Uncatchable(MultipleIterableValues(name))) else Ok(())
      ensures iterableVariables ==
        if name in old(iterableVariables) then old(iterableVariables) else old(iterableVariables)[name := foldState]
    {
      if name in iterableVariables {
        return Err(Uncatchable(MultipleIterableValues(name)));
      }
      iterableVariables := iterableVariables[name := foldState];
      return Ok(());
    }

    method RemoveIterableValue(name: string)
      modifies this
      ensures iterableVariables == old(iterableVariables) - {name}
    {
      iterableVariables := iterableVariables - {name};
    }

    method GetIterable(name: string) returns (r: Result<FoldState, ExecutionError>)
      ensures r == if name in iterableVariables then Ok(iterableVariables[name]) else Err(Uncatchable(FoldStateNotFound(name)))
    {
      if name !in iterableVariables {
        return Err(Uncatchable(FoldStateNotFound(name)));
      }
      return Ok(iterableVariables[name]);
    }

    /** Moves the cursor of an iterator on, if there is a next element. */
    method NextElement(name: string) returns (moved: bool)
      requires name in iterableVariables
      modifies this
      ensures var f := old(iterableVariables)[name];
        && moved == (f.cursor + 1 < |f.items|)
        && iterableVariables ==
             if moved then old(iterableVariables)[name := f.(cursor := f.cursor + 1)] else old(iterableVariables)
    {
      var f := iterableVariables[name];
      if f.cursor + 1 < |f.items| {
        iterableVariables := iterableVariables[name := f.(cursor := f.cursor + 1)];
        return true;
      }
      return false;
    }

    /** Moves the cursor back, if it is not at the first element. */
    method PrevElement(name: string) returns (moved: bool)
      requires name in iterableVariables
      modifies this
      ensures var f := old(iterableVariables)[name];
        && moved == (f.cursor >= 1)
        && iterableVariables ==
             if moved then old(iterableVariables)[name := f.(cursor := f.cursor - 1)] else old(iterableVariables)
    {
      var f := iterableVariables[name];
      if f.cursor >= 1 {
        iterableVariables := iterableVariables[name := f.(cursor := f.cursor - 1)];
        return true;
      }
      return false;
    }

    method GetValue(name: string) returns (r: Result<JValue, ExecutionError>)
      ensures r == State.GetValue(View(), name)
    {
      var value := nonIterableVariables.GetValue(name);
      var iterable := if name in iterableVariables then Peek(iterableVariables[name]) else None;
      match (value, iterable) {
        case (Err(_), None) => r := Err(Catchable(CatchableError.VariableNotFound(name)));
        case (Ok(None), _) => r := Err(Catchable(VariableWasNotInitializedAfterNew(name)));
        case (Ok(Some(v)), None) => r := Ok(v);
        case (Err(_), Some(v)) => r := Ok(v);
        case (Ok(Some(_)), Some(_)) => r := Err(Uncatchable(Panic(IterableAndScalar)));
      }
    }

    method GetCanonStream(name: string) returns (r: Result<seq<JValue>, ExecutionError>)
      ensures r == Initialized(M.Get(View().canonStreams, name), name)
    {
      var value := canonStreams.GetValue(name);
      return Initialized(value, name);
    }

    method GetCanonMap(name: string) returns (r: Result<C.CanonMap, ExecutionError>)
      ensures r == Initialized(M.Get(View().canonMaps, name), name)
    {
      var value := canonMaps.GetValue(name);
      return Initialized(value, name);
    }

    method VariableCouldBeSet(name: string) returns (r: bool)
      ensures r == (M.CouldBeSet(View().vars, name) || M.CouldBeSet(View().canonStreams, name))
    {
      r := nonIterableVariables.VariableCouldBeSet(name);
      if !r {
        r := canonStreams.VariableCouldBeSet(name);
      }
    }

    method MeetFoldStart()
      requires Separate()
      modifies nonIterableVariables, canonStreams, canonMaps
      ensures View() == State.MeetFoldStart(old(View()))
    {
      nonIterableVariables.MeetFoldStart();
      canonStreams.MeetFoldStart();
      canonMaps.MeetFoldStart();
    }

    method MeetNextBefore()
      requires Separate()
      modifies nonIterableVariables, canonStreams, canonMaps
      ensures View() == State.MeetNextBefore(old(View()))
    {
      nonIterableVariables.MeetNextBefore();
      canonStreams.MeetNextBefore();
      canonMaps.MeetNextBefore();
    }

    method MeetNextAfter()
      requires Separate() && InScope(View())
      modifies nonIterableVariables, canonStreams, canonMaps
      ensures View() == State.MeetNextAfter(old(View()))
    {
      nonIterableVariables.MeetNextAfter();
      canonStreams.MeetNextAfter();
      canonMaps.MeetNextAfter();
    }

    method MeetFoldEnd()
      requires Separate() && InScope(View())
      modifies nonIterableVariables, canonStreams, canonMaps
      ensures View() == State.MeetFoldEnd(old(View()))
    {
      nonIterableVariables.MeetFoldEnd();
      canonStreams.MeetFoldEnd();
      canonMaps.MeetFoldEnd();
    }
  }

  /** The data of earlier runs seen from the calls: what is known about the next one, and the new trace. */
  class TraceHandler {
    var replies: seq<Reply>
    var trace: seq<TraceEntry>

    constructor (replies: seq<Reply>)
      ensures this.replies == replies && trace == []
    {
      this.replies := replies;
      trace := [];
    }

    method MeetCallStart() returns (reply: Reply)
      modifies this
      ensures trace == old(trace)
      ensures if old(replies) == [] then reply == NotMet && replies == []
              else reply == old(replies)[0] && replies == old(replies)[1..]
    {
      if replies == [] {
        return NotMet;
      }
      reply := replies[0];
      replies := replies[1..];
    }

    method MeetCallEnd(entry: TraceEntry)
      modifies this
      ensures replies == old(replies) && trace == old(trace) + [entry]
    {
      trace := trace + [entry];
    }
  }

  class ExecutionCtx {
    const initPeerId: string
    const currentPeerId: string
    const scalars: ScalarVariables
    const streams: S.StreamVariables
    const streamMaps: S.StreamVariables
    const lastErrorDescriptor: LastErrorDescriptor
    const errorDescriptor: ErrorDescriptor
    const traceHandler: TraceHandler
    var subgraphCompleteness: bool
    var lastCallRequestId: nat
    var callRequests: map<nat, seq<JValue>>
    ghost var history: History

    ghost function Repr(): set<object> {
      {this, streams, streamMaps, lastErrorDescriptor, errorDescriptor, traceHandler} + scalars.Repr()
    }

    ghost predicate Separate() {
      streams != streamMaps && scalars.Separate()
    }

    /** Everything but the completeness flag. */
    ghost function View(): Ctx
      reads Repr()
    {
      Ctx(initPeerId, currentPeerId, scalars.View(), lastErrorDescriptor.View(), errorDescriptor.View(),
          streams.streams, streamMaps.streams, traceHandler.replies, traceHandler.trace,
          lastCallRequestId, callRequests, history)
    }

    constructor (initPeer: string, peer: string, replies: seq<Reply>, lastCallRequestId: nat)
      ensures fresh(Repr()) && Separate()
      ensures View() == Initial(initPeer, peer, replies, lastCallRequestId)
      ensures subgraphCompleteness
    {
      initPeerId := initPeer;
      currentPeerId := peer;
      scalars := new ScalarVariables();
      streams := new S.StreamVariables();
      streamMaps := new S.StreamVariables();
      lastErrorDescriptor := new LastErrorDescriptor();
      errorDescriptor := new ErrorDescriptor();
      traceHandler := new TraceHandler(replies);
      subgraphCompleteness := true;
      this.lastCallRequestId := lastCallRequestId;
      callRequests := map[];
      history := History(false, {}, Clean, Nowhere, [], [], []);
    }

    method MakeSubgraphIncomplete()
      modifies this`subgraphCompleteness
      ensures !subgraphCompleteness
    {
      subgraphCompleteness := false;
    }

    method SetSubgraphCompleteness(complete: bool)
      modifies this`subgraphCompleteness
      ensures subgraphCompleteness == complete
    {
      subgraphCompleteness := complete;
    }

    method FlushSubgraphCompleteness()
      modifies this`subgraphCompleteness
      ensures subgraphCompleteness
    {
      subgraphCompleteness := true;
    }

    method NextCallRequestId() returns (id: nat)
      modifies this`lastCallRequestId
      ensures id == lastCallRequestId == NextCallId(old(lastCallRequestId))
    {
      lastCallRequestId := (lastCallRequestId + 1) % 0x1_0000_0000;
      id := lastCallRequestId;
    }

    method SetErrors(e: ExecutionError, instr: Instr, lastErrorPeerId: string)
      requires Separate()
      modifies lastErrorDescriptor, errorDescriptor
      ensures View() == State.SetErrors(old(View()), e, instr, lastErrorPeerId)
    {
      lastErrorDescriptor.TryToSetLastErrorFromExecError(e, instr.Text(), Some(lastErrorPeerId));
      var peerId := if instr.LogsErrorsWithPeerId() then Some(lastErrorPeerId) else None;
      errorDescriptor.TryToSetErrorFromExecError(e, instr.Text(), peerId);
      errorDescriptor.DisableErrorSetting();
    }

    method ResolveOperand(operand: Operand) returns (r: Result<JValue, ExecutionError>)
      ensures r == Resolve(View(), operand)
    {
      match operand {
        case Literal(v) => r := Ok(v);
        case Scalar(name) => r := scalars.GetValue(name);
        case CanonStreamOf(name) =>
          var values := scalars.GetCanonStream(name);
          r := if values.Ok? then Ok(JArray(values.value)) else Err(values.error);
        case ErrorObject => r := Ok(errorDescriptor.error.error);
        case LastErrorObject => r := Ok(lastErrorDescriptor.error.error);
      }
    }

    method CollectArgs(args: seq<Operand>) returns (r: Result<seq<JValue>, ExecutionError>)
      ensures r == ResolveAll(View(), args)
    {
      var callArguments: seq<JValue> := [];
      var i := 0;
      ghost var all := ResolveAll(View(), args);
      assert args[0..] == args && (all.Ok? ==> callArguments + all.value == all.value);
      while i < |args|
        invariant 0 <= i <= |args|
        invariant ResolveAll(View(), args) ==
          match ResolveAll(View(), args[i..]) case Err(e) => Err(e) case Ok(vs) => Ok(callArguments + vs)
      {
        var arg := ResolveOperand(args[i]);
        if arg.Err? {
          return Err(arg.error);
        }
        assert args[i..][1..] == args[i + 1..];
        ghost var rest := ResolveAll(View(), args[i + 1..]);
        assert rest.Ok? ==> callArguments + ([arg.value] + rest.value) == callArguments + [arg.value] + rest.value;
        callArguments := callArguments + [arg.value];
        i := i + 1;
      }
      assert args[i..] == [] && callArguments + [] == callArguments;
      return Ok(callArguments);
    }

    method ResolveKeyIfNeeded(key: KeyClause, mapName: string) returns (r: Result<StreamMapKey, ExecutionError>)
      ensures r == ResolveKey(View(), key, mapName)
    {
      match key {
        case KeyLiteral(s) => r := Ok(Str(s));
        case KeyInt(i) => r := Ok(I64(i));
        case KeyScalar(name) =>
          var value := scalars.GetValue(name);
          if value.Err? {
            return Err(value.error);
          }
          var k := KeyFromValue(value.value);
          r := if k.Some? then Ok(k.value) else Err(Catchable(UnsupportedMapKeyType(mapName)));
      }
    }
  }
}
