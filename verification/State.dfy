/** The execution state as a value, and what the instructions without a body do to it. */
module State {
  import opened Wrappers
  import opened Json
  import opened Errors
  import opened Ast
  import M = SparseMatrix
  import S = Streams
  import C = CanonMaps

  // ---- scalars ----

  /** A running fold: the elements, the current one, and the instructions `next` jumps to. */
  datatype FoldState = FoldState(items: seq<JValue>, cursor: nat, body: Instr, last: Option<Instr>)

  type Iterables = map<string, FoldState>

  /** Three stores moved in lockstep, and the active iterators. */
  datatype Scalars = Scalars(
    vars: M.Matrix<JValue>,
    canonStreams: M.Matrix<seq<JValue>>,
    canonMaps: M.Matrix<C.CanonMap>,
    iterables: Iterables)

  function EmptyScalars(): Scalars {
    Scalars(M.Empty(), M.Empty(), M.Empty(), map[])
  }

  function MeetFoldStart(sc: Scalars): Scalars {
    sc.(vars := M.FoldStart(sc.vars), canonStreams := M.FoldStart(sc.canonStreams), canonMaps := M.FoldStart(sc.canonMaps))
  }

  function MeetNextBefore(sc: Scalars): Scalars {
    sc.(vars := M.NextBefore(sc.vars), canonStreams := M.NextBefore(sc.canonStreams), canonMaps := M.NextBefore(sc.canonMaps))
  }

  predicate InScope(sc: Scalars) {
    sc.vars.depth > 0 && sc.canonStreams.depth > 0 && sc.canonMaps.depth > 0
  }

  function MeetNextAfter(sc: Scalars): Scalars
    requires InScope(sc)
  {
    sc.(vars := M.NextAfter(sc.vars), canonStreams := M.NextAfter(sc.canonStreams), canonMaps := M.NextAfter(sc.canonMaps))
  }

  function MeetFoldEnd(sc: Scalars): Scalars
    requires InScope(sc)
  {
    sc.(vars := M.FoldEnd(sc.vars), canonStreams := M.FoldEnd(sc.canonStreams), canonMaps := M.FoldEnd(sc.canonMaps))
  }

  /** The current element of a fold. */
  function Peek(f: FoldState): Option<JValue> {
    if f.cursor < |f.items| then Some(f.items[f.cursor]) else None
  }

  function GetValue(sc: Scalars, name: string): (r: Result<JValue, ExecutionError>)
    ensures r.Err? ==> r.error.Catchable? || r.error.u == Panic(IterableAndScalar)
  {
    var iterable := if name in sc.iterables then Peek(sc.iterables[name]) else None;
    match (M.Get(sc.vars, name), iterable)
    case (Err(_), None) => Err(Catchable(CatchableError.VariableNotFound(name)))
    case (Ok(None), _) => Err(Catchable(VariableWasNotInitializedAfterNew(name)))
    case (Ok(Some(v)), None) => Ok(v)
    case (Err(_), Some(v)) => Ok(v)
    case (Ok(Some(_)), Some(_)) => Err(Uncatchable(Panic(IterableAndScalar)))
  }

  function Initialized<T>(r: Result<Option<T>, M.GetError>, name: string): (value: Result<T, ExecutionError>)
    ensures value.Err? ==> value.error.Catchable?
  {
    match r
    case Err(_) => Err(Catchable(CatchableError.VariableNotFound(name)))
    case Ok(None) => Err(Catchable(VariableWasNotInitializedAfterNew(name)))
    case Ok(Some(v)) => Ok(v)
  }

  // ---- the whole state ----

  /** What the data of earlier runs and the host know about one call instruction. */
  datatype Reply =
    | Executed(value: JValue)
    | ServiceFailed(code: int, message: string)
    | Waiting
    | NotMet

  datatype TraceEntry =
    | CallExecuted(peer: string, args: seq<JValue>, value: JValue)
    | CallFailed(peer: string, args: seq<JValue>, code: int)
    | CallWaiting(peer: string)
    | CallSent(peer: string)
    | CallRequested(id: nat)

  /**
   * What an error left behind in `:error:` that `par` went on without: nothing; its
   * object, which no later error replaces; or its object after a handler ended, which
   * the next error replaces.
   */
  datatype Residue = Clean | Stuck | Loose

  /** Where the error that is bubbling up comes from, and how `:error:` stood before. */
  datatype Raised =
    | Nowhere
    | Fresh(instr: Instr, error: CatchableError, before: Descriptor, residue: Residue)
    | Rethrown(before: Descriptor, residue: Residue)

  datatype LookupRecord = LookupRecord(id: StreamId, position: nat, spans: seq<S.Span>, found: Option<nat>)

  /** Where a stream stands among those of its name. */
  datatype Place = Place(height: nat, span: S.Span)

  /** The end of a `new`: the stream its start made, and the one that was removed. */
  datatype EndRecord = EndRecord(id: StreamId, own: Place, popped: Option<Place>) {
    predicate IsOwn() {
      popped == Some(own)
    }
  }

  /** What happens to a stream. */
  datatype StreamEvent =
    | Started(id: StreamId, span: S.Span)
    | Added(id: StreamId, position: nat, value: JValue)
    | Taken(id: StreamId, position: nat, values: seq<JValue>)
    | Ended(id: StreamId)

  /** History variables: what happened so far. Nothing the interpreter does depends on them. */
  datatype History = History(
    nextFailed: bool,
    displaced: set<StreamId>,
    residue: Residue,
    raised: Raised,
    lookups: seq<LookupRecord>,
    ends: seq<EndRecord>,
    log: seq<StreamEvent>)

  datatype Ctx = Ctx(
    initPeer: string,
    peer: string,
    scalars: Scalars,
    lastError: Descriptor,
    error: Descriptor,
    streams: S.Store,
    streamMaps: S.Store,
    replies: seq<Reply>,
    trace: seq<TraceEntry>,
    lastCallId: nat,
    requests: map<nat, seq<JValue>>,
    history: History)

  function Initial(initPeer: string, peer: string, replies: seq<Reply>, lastCallId: nat): Ctx {
    Ctx(initPeer, peer, EmptyScalars(), InitialDescriptor(), InitialDescriptor(), map[], map[], replies, [], lastCallId, map[],
        History(false, {}, Clean, Nowhere, [], [], []))
  }

  datatype Outcome = Done(complete: bool) | Failed(error: ExecutionError)

  datatype Run = Run(s: Ctx, out: Outcome) {
    predicate Aborted() {
      out.Failed? && out.error.Uncatchable?
    }
  }

  /** Calls, failures on record and ends of `new`s are as before; lookups may have been added. */
  predicate RecordKept(s: Ctx, s': Ctx) {
    && s'.peer == s.peer && s'.trace == s.trace && s'.lastCallId == s.lastCallId && s'.requests == s.requests
    && s'.history.residue == s.history.residue
    && s'.history.nextFailed == s.history.nextFailed
    && s'.history.ends == s.history.ends
    && s.history.displaced <= s'.history.displaced
    && s.history.lookups <= s'.history.lookups
  }

  /** Neither a stream nor the record of lookups changed, and no `new` went wrong. */
  predicate StreamsAside(s: Ctx, r: Run) {
    && r.s.streams == s.streams && r.s.streamMaps == s.streamMaps
    && r.s.history.lookups == s.history.lookups && r.s.history.displaced == s.history.displaced
    && r.s.history.ends == s.history.ends
    && !LostStream(r.out)
  }

  /** A `new` found no stream to remove at its end. */
  predicate LostStream(out: Outcome) {
    out.Failed? && IsLostStream(out.error)
  }

  predicate IsLostStream(e: ExecutionError) {
    e.Uncatchable? && e.u.Panic? && (e.u.reason.NoStreamToLeave? || e.u.reason.NoStreamMapToLeave?)
  }

  /** An error, if there is one, was raised by this instruction, and `:error:` does not show it yet. */
  predicate RaisedBy(instr: Instr, s: Ctx, r: Run) {
    && r.s.error == s.error
    && (r.out.Failed? && r.out.error.Catchable? ==>
          r.s.history.raised == Fresh(instr, r.out.error.c, s.error, s.history.residue))
  }

  function Raise(s: Ctx, instr: Instr, e: ExecutionError): (r: Run)
    ensures RecordKept(s, r.s) && (!IsLostStream(e) ==> StreamsAside(s, r))
    ensures r.s.scalars == s.scalars && r.out == Failed(e) && RaisedBy(instr, s, r)
  {
    match e
    case Catchable(c) => Run(s.(history := s.history.(raised := Fresh(instr, c, s.error, s.history.residue))), Failed(e))
    case Uncatchable(_) => Run(s, Failed(e))
  }

  /** A joinable error waits for a variable instead of failing. */
  function Join(s: Ctx, instr: Instr, e: ExecutionError): (r: Run)
    ensures RecordKept(s, r.s) && (!IsLostStream(e) ==> StreamsAside(s, r))
    ensures r.s.scalars == s.scalars && RaisedBy(instr, s, r)
  {
    if e.IsJoinable() then Run(s, Done(false)) else Raise(s, instr, e)
  }

  /** Sets `%last_error%` and `:error:` unless an error is already bubbling up. */
  function SetErrors(s: Ctx, e: ExecutionError, instr: Instr, peer: string): Ctx {
    s.(lastError := TrySetLastError(s.lastError, e, instr.Text(), Some(peer)),
       error := TrySetError(s.error, e, instr.Text(), if instr.LogsErrorsWithPeerId() then Some(peer) else None).(canBeSet := false))
  }

  function Resolve(s: Ctx, operand: Operand): (r: Result<JValue, ExecutionError>)
    ensures r.Err? ==> r.error.Catchable? || r.error.u == Panic(IterableAndScalar)
  {
    match operand
    case Literal(v) => Ok(v)
    case Scalar(name) => GetValue(s.scalars, name)
    case CanonStreamOf(name) =>
      (match Initialized(M.Get(s.scalars.canonStreams, name), name)
       case Ok(values) => Ok(JArray(values))
       case Err(e) => Err(e))
    case ErrorObject => Ok(s.error.error.error)
    case LastErrorObject => Ok(s.lastError.error.error)
  }

  function ResolveAll(s: Ctx, operands: seq<Operand>): (r: Result<seq<JValue>, ExecutionError>)
    ensures r.Err? ==> r.error.Catchable? || r.error.u == Panic(IterableAndScalar)
    ensures r.Ok? ==> |r.value| == |operands|
  {
    if operands == [] then Ok([])
    else
      match Resolve(s, operands[0])
      case Err(e) => Err(e)
      case Ok(v) =>
        match ResolveAll(s, operands[1..])
        case Err(e) => Err(e)
        case Ok(vs) => Ok([v] + vs)
  }

  function ResolveKey(s: Ctx, key: KeyClause, mapName: string): (r: Result<StreamMapKey, ExecutionError>)
    ensures r.Err? ==> !IsLostStream(r.error)
  {
    match key
    case KeyLiteral(str) => Ok(Str(str))
    case KeyInt(i) => Ok(I64(i))
    case KeyScalar(name) =>
      match GetValue(s.scalars, name)
      case Err(e) => Err(e)
      case Ok(v) =>
        match KeyFromValue(v)
        case Some(k) => Ok(k)
        case None => Err(Catchable(UnsupportedMapKeyType(mapName)))
  }

  // ---- instructions without a body ----

  /** No scope is opened or left, no iterator starts, moves or ends. */
  predicate SameScopes(sc: Scalars, sc': Scalars) {
    && sc'.iterables == sc.iterables
    && sc'.vars.depth == sc.vars.depth
    && sc'.canonStreams.depth == sc.canonStreams.depth
    && sc'.canonMaps.depth == sc.canonMaps.depth
  }

  function SetScalar(s: Ctx, name: string, v: JValue): Result<Ctx, ExecutionError> {
    match M.SetAnswer(s.scalars.vars, name)
    case Err(_) => Err(Uncatchable(UncatchableError.ShadowingIsNotAllowed(name)))
    case Ok(_) => Ok(s.(scalars := s.scalars.(vars := M.Set(s.scalars.vars, name, v))))
  }

  function ApScalar(e: Instr, s: Ctx, quiet: bool): (r: Run)
    requires e.Ap?
    ensures RecordKept(s, r.s) && StreamsAside(s, r) && RaisedBy(e, s, r)
    ensures SameScopes(s.scalars, r.s.scalars)
  {
    match Resolve(s, e.value)
    case Err(err) => Join(s, e, err)
    case Ok(v) =>
      match SetScalar(s, e.scalar, v)
      case Err(err) => Raise(s, e, err)
      case Ok(s') => Run(s', Done(!quiet))
  }

  function SpansOf(store: S.Store, name: string): seq<S.Span> {
    var ds := S.Descriptors(store, name);
    seq(|ds|, i requires 0 <= i < |ds| => ds[i].span)
  }

  function RecordLookup(h: History, isMap: bool, store: S.Store, name: string, position: nat): History {
    h.(lookups := h.lookups + [LookupRecord(StreamId(isMap, name), position, SpansOf(store, name),
                                            S.FindClosest(S.Descriptors(store, name), position))])
  }

  /** A first global value while some `new` of the name is open replaces the open streams. */
  predicate Displaces(store: S.Store, name: string, position: nat) {
    S.Descriptors(store, name) != [] && S.FindClosest(S.Descriptors(store, name), position).None?
  }

  function RecordAdd(h: History, isMap: bool, store: S.Store, name: string, position: nat, value: JValue): History {
    var h' := RecordLookup(h, isMap, store, name, position).(log := h.log + [Added(StreamId(isMap, name), position, value)]);
    if Displaces(store, name, position) then h'.(displaced := h'.displaced + {StreamId(isMap, name)}) else h'
  }

  function AddToStream(e: Instr, s: Ctx, quiet: bool): (r: Run)
    requires e.ApStream?
    ensures RecordKept(s, r.s) && !LostStream(r.out) && RaisedBy(e, s, r)
    ensures r.s.history.lookups == s.history.lookups ==> StreamsAside(s, r)
    ensures SameScopes(s.scalars, r.s.scalars)
  {
    match Resolve(s, e.value)
    case Err(err) => Join(s, e, err)
    case Ok(v) =>
      Run(s.(streams := S.Add(s.streams, e.stream, e.position, v),
             history := RecordAdd(s.history, false, s.streams, e.stream, e.position, v)),
          Done(!quiet))
  }

  function AddToMap(e: Instr, s: Ctx, quiet: bool): (r: Run)
    requires e.ApMap?
    ensures RecordKept(s, r.s) && !LostStream(r.out) && RaisedBy(e, s, r)
    ensures r.s.history.lookups == s.history.lookups ==> StreamsAside(s, r)
    ensures SameScopes(s.scalars, r.s.scalars)
  {
    match Resolve(s, e.value)
    case Err(err) => Join(s, e, err)
    case Ok(v) =>
      match ResolveKey(s, e.key, e.streamMap)
      case Err(err) => Join(s, e, err)
      case Ok(k) =>
        Run(s.(streamMaps := S.Add(s.streamMaps, e.streamMap, e.position, FromKeyValue(k, v)),
               history := RecordAdd(s.history, true, s.streamMaps, e.streamMap, e.position, FromKeyValue(k, v))),
            Done(!quiet))
  }

  function RecordTake(h: History, isMap: bool, store: S.Store, name: string, position: nat): History {
    var taken := Taken(StreamId(isMap, name), position, S.HeldAt(store, name, position));
    RecordLookup(h, isMap, store, name, position).(log := h.log + [taken])
  }

  function CanonizeStream(e: Instr, s: Ctx, quiet: bool): (r: Run)
    requires e.Canon?
    ensures RecordKept(s, r.s) && RaisedBy(e, s, r)
    ensures SameScopes(s.scalars, r.s.scalars)
  {
    var s1 := s.(history := RecordTake(s.history, false, s.streams, e.stream, e.position));
    match M.SetAnswer(s.scalars.canonStreams, e.canonStream)
    case Err(_) => Raise(s1, e, Uncatchable(UncatchableError.ShadowingIsNotAllowed(e.canonStream)))
    case Ok(_) =>
      var canon := M.Set(s.scalars.canonStreams, e.canonStream, S.HeldAt(s.streams, e.stream, e.position));
      Run(s1.(scalars := s.scalars.(canonStreams := canon)), Done(!quiet))
  }

  function CanonizeMap(e: Instr, s: Ctx, quiet: bool): (r: Run)
    requires e.CanonMap?
    ensures RecordKept(s, r.s) && RaisedBy(e, s, r)
    ensures SameScopes(s.scalars, r.s.scalars)
  {
    var s1 := s.(history := RecordTake(s.history, true, s.streamMaps, e.streamMap, e.position));
    match C.FromStream(S.HeldAt(s.streamMaps, e.streamMap, e.position))
    case Err(u) => Raise(s1, e, Uncatchable(u))
    case Ok(canonMap) =>
      match M.SetAnswer(s.scalars.canonMaps, e.canonMap)
      case Err(_) => Raise(s1, e, Uncatchable(UncatchableError.ShadowingIsNotAllowed(e.canonMap)))
      case Ok(_) =>
        var maps := M.Set(s.scalars.canonMaps, e.canonMap, canonMap);
        Run(s1.(scalars := s.scalars.(canonMaps := maps)), Done(!quiet))
  }

  // ---- fail ----

  function FailWithObject(s: Ctx, instr: Instr, value: JValue): (r: Run)
    ensures RecordKept(s, r.s) && StreamsAside(s, r) && r.s.scalars == s.scalars && RaisedBy(instr, s, r)
  {
    Raise(s.(lastError := Descriptor(InstructionError(value, None), false)), instr, Catchable(UserError(value)))
  }

  function FailWithChecked(s: Ctx, instr: Instr, value: JValue): (r: Run)
    ensures RecordKept(s, r.s) && StreamsAside(s, r) && r.s.scalars == s.scalars && RaisedBy(instr, s, r)
  {
    match CheckErrorObject(value)
    case Err(e) => Raise(s, instr, e)
    case Ok(_) => FailWithObject(s, instr, value)
  }

  /** In the right branch of `xor` the caught error itself goes on. */
  function FailWithError(s: Ctx, instr: Instr): (r: Run)
    ensures RecordKept(s, r.s) && StreamsAside(s, r) && r.s.scalars == s.scalars
  {
    var current := s.error.error;
    match CheckErrorObject(current.error)
    case Err(e) => Raise(s, instr, e)
    case Ok(_) =>
      var s1 := FailWithObject(s, instr, current.error).s;
      var s2 := s1.(error := s1.error.(canBeSet := false), history := s1.history.(raised := Rethrown(s.error, s.history.residue)));
      match current.origCatchable
      case Some(c) => Run(s2, Failed(Catchable(c)))
      case None => Run(s2, Failed(Catchable(UserError(current.error))))
  }

  function DoFail(e: Instr, s: Ctx): (r: Run)
    requires e.Fail?
    ensures r.out.Failed? && r.s.scalars == s.scalars
    ensures RecordKept(s, r.s) && StreamsAside(s, r) && (!e.what.FailError? ==> RaisedBy(e, s, r))
  {
    match e.what
    case FailLiteral(code, message) =>
      FailWithObject(s, e, ErrorFromRawFields(code, message, e.Text(), Some(s.initPeer)))
    case FailScalar(name) =>
      (match GetValue(s.scalars, name)
       case Err(err) => Raise(s, e, err)
       case Ok(v) => FailWithChecked(s, e, v))
    case FailLastError => FailWithChecked(s, e, s.lastError.error.error)
    case FailError => FailWithError(s, e)
  }

  // ---- call ----

  function CheckOutput(s: Ctx, output: Option<string>): (r: Result<(), ExecutionError>)
    ensures r.Err? ==> !IsLostStream(r.error)
  {
    match output
    case None => Ok(())
    case Some(name) =>
      if GetValue(s.scalars, name).Err? then
        (if GetValue(s.scalars, name).error.Uncatchable? then Err(GetValue(s.scalars, name).error) else Ok(()))
      else if name in s.scalars.iterables && Peek(s.scalars.iterables[name]).Some? then
        Err(Uncatchable(IterableShadowing(name)))
      else if M.CouldBeSet(s.scalars.vars, name) || M.CouldBeSet(s.scalars.canonStreams, name) then Ok(())
      else Err(Uncatchable(UncatchableError.ShadowingIsNotAllowed(name)))
  }

  /** Ids are 32-bit. */
  function NextCallId(last: nat): nat {
    (last + 1) % 0x1_0000_0000
  }

  /** What a call does once its arguments are known; missing ones wait, unless data says the call was made. */
  function Answer(e: Instr, s: Ctx, args: Result<seq<JValue>, ExecutionError>, reply: Reply, quiet: bool): (r: Run)
    requires e.Call?
    ensures SameScopes(s.scalars, r.s.scalars) && (!(args.Err? && IsLostStream(args.error)) ==> StreamsAside(s, r))
  {
    match reply
    case Waiting => Run(s.(trace := s.trace + [CallWaiting(e.peer)]), Done(false))
    case Executed(v) =>
      (match args
       case Err(_) => Run(s, Failed(Uncatchable(Panic(NoArgumentHash))))
       case Ok(vs) =>
         match (if e.output.Some? then SetScalar(s, e.output.value, v) else Ok(s))
         case Err(err) => Raise(s, e, err)
         case Ok(s') => Run(s'.(trace := s'.trace + [CallExecuted(e.peer, vs, v)]), Done(!quiet)))
    case ServiceFailed(code, message) =>
      (match args
       case Err(_) => Run(s, Failed(Uncatchable(Panic(NoArgumentHash))))
       case Ok(vs) =>
         var err := Catchable(LocalServiceError(code, message));
         var r := Raise(s.(trace := s.trace + [CallFailed(e.peer, vs, code)]), e, err);
         r.(s := SetErrors(r.s, err, e, e.peer)))
    case NotMet =>
      if e.peer != s.peer then Run(s.(trace := s.trace + [CallSent(e.peer)]), Done(false))
      else
        match args
        case Err(_) => Run(s, Done(false))
        case Ok(vs) =>
          var id := NextCallId(s.lastCallId);
          Run(s.(lastCallId := id, requests := s.requests[id := vs], trace := s.trace + [CallRequested(id)]), Done(false))
  }

  function DoCall(e: Instr, s: Ctx, quiet: bool): (r: Run)
    requires e.Call?
    ensures SameScopes(s.scalars, r.s.scalars) && StreamsAside(s, r)
  {
    match CheckOutput(s, e.output)
    case Err(err) => Run(s, Failed(err))
    case Ok(_) =>
      var args := ResolveAll(s, e.args);
      if args.Err? && !args.error.IsJoinable() then
        (var r := Raise(s, e, args.error);
         if args.error.Catchable? then r.(s := SetErrors(r.s, args.error, e, e.peer)) else r)
      else
        var reply := if s.replies == [] then NotMet else s.replies[0];
        Answer(e, s.(replies := if s.replies == [] then [] else s.replies[1..]), args, reply, quiet)
  }

  // ---- new ----

  function RecordStart(h: History, id: StreamId, span: S.Span): History {
    h.(log := h.log + [Started(id, span)])
  }

  function OpenNew(s: Ctx, a: NewArgument, span: S.Span): Ctx {
    match a
    case NewScalar(n) => s.(scalars := s.scalars.(vars := M.NewStart(s.scalars.vars, n)))
    case NewCanonStream(n) => s.(scalars := s.scalars.(canonStreams := M.NewStart(s.scalars.canonStreams, n)))
    case NewCanonMap(n) => s.(scalars := s.scalars.(canonMaps := M.NewStart(s.scalars.canonMaps, n)))
    case NewStream(n) =>
      s.(streams := S.ScopeStart(s.streams, n, span), history := RecordStart(s.history, StreamId(false, n), span))
    case NewStreamMap(n) =>
      s.(streamMaps := S.ScopeStart(s.streamMaps, n, span), history := RecordStart(s.history, StreamId(true, n), span))
  }

  /** The stream that is on top. */
  function TopPlace(store: S.Store, name: string): Option<Place> {
    var ds := S.Descriptors(store, name);
    if ds == [] then None else Some(Place(|ds| - 1, ds[|ds| - 1].span))
  }

  function RecordEnd(h: History, id: StreamId, own: Place, store: S.Store): History {
    h.(ends := h.ends + [EndRecord(id, own, TopPlace(store, id.name))], log := h.log + [Ended(id)])
  }

  /** Before a `new` that was entered in the state `start` closes: what it is about to remove. */
  function NoteEnd(start: Ctx, s: Ctx, a: NewArgument, span: S.Span): Ctx {
    match a
    case NewStream(n) =>
      var own := Place(|S.Descriptors(start.streams, n)|, span);
      s.(history := RecordEnd(s.history, StreamId(false, n), own, s.streams))
    case NewStreamMap(n) =>
      var own := Place(|S.Descriptors(start.streamMaps, n)|, span);
      s.(history := RecordEnd(s.history, StreamId(true, n), own, s.streamMaps))
    case _ => s
  }

  function Corrupted(r: Result<(), M.NewEndError>): Option<UncatchableError> {
    match r
    case Ok(_) => None
    case Err(ScalarsStateCorrupted(n, d)) => Some(UncatchableError.ScalarsStateCorrupted(n, d))
  }

  function CloseNew(s: Ctx, a: NewArgument): (Ctx, Option<UncatchableError>) {
    match a
    case NewScalar(n) =>
      var (m, r) := M.NewEnd(s.scalars.vars, n);
      (s.(scalars := s.scalars.(vars := m)), Corrupted(r))
    case NewCanonStream(n) =>
      var (m, r) := M.NewEnd(s.scalars.canonStreams, n);
      (s.(scalars := s.scalars.(canonStreams := m)), Corrupted(r))
    case NewCanonMap(n) =>
      var (m, r) := M.NewEnd(s.scalars.canonMaps, n);
      (s.(scalars := s.scalars.(canonMaps := m)), Corrupted(r))
    case NewStream(n) =>
      (match S.ScopeEnd(s.streams, n)
       case Some(store) => (s.(streams := store), None)
       case None => (s, Some(Panic(NoStreamToLeave))))
    case NewStreamMap(n) =>
      match S.ScopeEnd(s.streamMaps, n)
      case Some(store) => (s.(streamMaps := store), None)
      case None => (s, Some(Panic(NoStreamMapToLeave)))
  }

  // ---- fold ----

  /** The elements to iterate over; none at all when the iterable is empty. */
  function Items(s: Ctx, it: Iterable): (r: Result<seq<JValue>, ExecutionError>)
    ensures r.Err? ==> !IsLostStream(r.error)
  {
    match it
    case EmptyArray => Ok([])
    case OverScalar(name) =>
      (match GetValue(s.scalars, name)
       case Err(e) => Err(e)
       case Ok(JArray(items)) => Ok(items)
       case Ok(v) => Err(Catchable(FoldIteratesOverNonArray(v, name))))
    case OverCanonStream(name) => Initialized(M.Get(s.scalars.canonStreams, name), name)
    case OverCanonMap(name) =>
      match Initialized(M.Get(s.scalars.canonMaps, name), name)
      case Err(e) => Err(e)
      case Ok(canonMap) => Ok(canonMap.values)
  }
}
