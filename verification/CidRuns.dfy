/**
 * The stores over any number of runs. Every run merges verified data into what there
 * was and adds the service results and canons it makes, out of values it has; all
 * stores stay closed and correct, no identifier is lost or changes its value, and
 * what is stored can be read back.
 */
module CidRuns {
  import opened Wrappers
  import opened Json
  import opened CidStores
  import opened CidState

  ghost predicate InfoExtends(info: CidInfo, info': CidInfo) {
    && Extends(info.values, info'.values) && Extends(info.tetraplets, info'.tetraplets)
    && Extends(info.elements, info'.elements) && Extends(info.canons, info'.canons) && Extends(info.services, info'.services)
  }

  lemma InfoExtendsTwice(a: CidInfo, b: CidInfo, c: CidInfo)
    requires InfoExtends(a, b) && InfoExtends(b, c)
    ensures InfoExtends(a, c)
  {
  }

  lemma KnownStays(info: CidInfo, info': CidInfo, p: Provenance)
    requires InfoExtends(info, info') && Known(info, p)
    ensures Known(info', p)
  {
  }

  /** References into stores that grow are still good. */
  lemma ReferencesStay(info: CidInfo, info': CidInfo)
    requires InfoExtends(info, info') && Closed(info)
    ensures forall cid | cid in info.elements :: ElementRefers(info', info.elements[cid])
    ensures forall cid | cid in info.canons :: CanonRefers(info', info.canons[cid])
    ensures forall cid | cid in info.services :: ServiceRefers(info', info.services[cid])
  {
    forall cid | cid in info.elements
      ensures ElementRefers(info', info.elements[cid])
    {
      KnownStays(info, info', info.elements[cid].provenance);
    }
    forall cid | cid in info.canons
      ensures CanonRefers(info', info.canons[cid])
    {
      assert CanonRefers(info, info.canons[cid]);
    }
  }

  /** Verified data can be merged into verified data; where both know an identifier they agree. */
  lemma MergeGood(previous: CidInfo, current: CidInfo)
    requires Good(previous) && Good(current)
    ensures var merged := Merge(previous, current);
      Good(merged) && InfoExtends(previous, merged) && InfoExtends(current, merged)
  {
    MergeKeepsBoth(previous.values, current.values);
    MergeKeepsBoth(previous.tetraplets, current.tetraplets);
    MergeKeepsBoth(previous.elements, current.elements);
    MergeKeepsBoth(previous.canons, current.canons);
    MergeKeepsBoth(previous.services, current.services);
    var merged := Merge(previous, current);
    ReferencesStay(previous, merged);
    ReferencesStay(current, merged);
  }

  lemma TrackServiceGood(info: CidInfo, value: JValue, tetraplet: SecurityTetraplet, argumentHash: string)
    requires Good(info)
    ensures var info' := TrackService(info, value, tetraplet, argumentHash);
      Good(info') && InfoExtends(info, info') && CidOf(ServiceOf(value, tetraplet, argumentHash)) in info'.services
  {
    var info' := TrackService(info, value, tetraplet, argumentHash);
    TrackKeeps(info.values, value);
    TrackKeeps(info.tetraplets, tetraplet);
    TrackKeeps(info.services, ServiceOf(value, tetraplet, argumentHash));
    ReferencesStay(info, info');
  }

  /** Tracking a canon element keeps the stores closed exactly if they know where its value came from. */
  lemma TrackElementGood(info: CidInfo, v: ValueAggregate)
    requires Good(info)
    ensures var info' := TrackElement(info, v);
      && InfoExtends(info, info') && CidOf(ElementOf(v)) in info'.elements && AllCorrect(info')
      && (Good(info') <==> Known(info, v.Origin()))
  {
    var info' := TrackElement(info, v);
    TrackKeeps(info.values, v.result);
    TrackKeeps(info.tetraplets, v.Tetraplet());
    TrackKeeps(info.elements, ElementOf(v));
    ReferencesStay(info, info');
    assert info'.elements[CidOf(ElementOf(v))].provenance == v.Origin();
    assert Known(info', v.Origin()) <==> Known(info, v.Origin());
  }

  ghost predicate AllKnown(info: CidInfo, vs: seq<ValueAggregate>) {
    forall v | v in vs :: Known(info, v.Origin())
  }

  lemma AllKnownStays(info: CidInfo, info': CidInfo, vs: seq<ValueAggregate>)
    requires InfoExtends(info, info') && AllKnown(info, vs)
    ensures AllKnown(info', vs)
  {
    forall v | v in vs
      ensures Known(info', v.Origin())
    {
      KnownStays(info, info', v.Origin());
    }
  }

  lemma {:induction false} TrackElementsGood(info: CidInfo, vs: seq<ValueAggregate>)
    requires Good(info) && AllKnown(info, vs)
    ensures var info' := TrackElements(info, vs);
      && Good(info') && InfoExtends(info, info') && info'.canons == info.canons && info'.services == info.services
      && forall cid | cid in ElementCids(vs) :: cid in info'.elements
  {
    if vs != [] {
      var init, last := vs[..|vs| - 1], vs[|vs| - 1];
      var before := TrackElements(info, init);
      TrackElementsGood(info, init);
      AllKnownStays(info, before, vs);
      TrackElementGood(before, last);
      InfoExtendsTwice(info, before, TrackElements(info, vs));
      assert ElementCids(vs) == ElementCids(init) + [CidOf(ElementOf(last))];
    }
  }

  lemma TrackCanonGood(info: CidInfo, vs: seq<ValueAggregate>, tetraplet: SecurityTetraplet)
    requires Good(info) && AllKnown(info, vs)
    ensures var info' := TrackCanon(info, vs, tetraplet);
      Good(info') && InfoExtends(info, info') && CidOf(CanonOf(vs, tetraplet)) in info'.canons
  {
    var tracked := TrackElements(info, vs);
    var info' := TrackCanon(info, vs, tetraplet);
    TrackElementsGood(info, vs);
    TrackKeeps(tracked.tetraplets, tetraplet);
    TrackKeeps(tracked.canons, CanonOf(vs, tetraplet));
    ReferencesStay(tracked, info');
    InfoExtendsTwice(info, tracked, info');
  }

  // ---- reading back ----

  /** Looking up a stored service result never fails halfway, and gives what the identifiers in it stand for. */
  lemma StoredServiceResolves(info: CidInfo, cid: Cid<ServiceResult>)
    requires Good(info) && cid in info.services
    ensures var r := ResolveServiceInfo(info, cid);
      && r.Ok? && Names(cid, r.value.result)
      && Names(r.value.result.value, r.value.value) && Names(r.value.result.tetraplet, r.value.tetraplet)
  {
    assert ServiceRefers(info, info.services[cid]);
  }

  /** A service result is read back from any data that still has it: the value the service gave, and where and with which arguments. */
  lemma ServiceComesBack(info: CidInfo, value: JValue, tetraplet: SecurityTetraplet, argumentHash: string, later: CidInfo)
    requires Good(info) && Good(later) && InfoExtends(TrackService(info, value, tetraplet, argumentHash), later)
    ensures var r := ResolveServiceInfo(later, CidOf(ServiceOf(value, tetraplet, argumentHash)));
      && r.Ok? && r.value.value == value && r.value.tetraplet == tetraplet && r.value.result.argumentHash == argumentHash
      && Names(r.value.result.value, value) && Names(r.value.result.tetraplet, tetraplet)
  {
    var service := ServiceOf(value, tetraplet, argumentHash);
    TrackServiceGood(info, value, tetraplet, argumentHash);
    SameValue(CidOf(service), later.services[CidOf(service)], service);
    assert ServiceRefers(later, later.services[CidOf(service)]);
    SameValue(CidOf(value), later.values[CidOf(value)], value);
    SameValue(CidOf(tetraplet), later.tetraplets[CidOf(tetraplet)], tetraplet);
  }

  lemma StoredElementResolves(info: CidInfo, cid: Cid<CanonElement>)
    requires Good(info) && cid in info.elements
    ensures var r := GetCanonValue(info, cid);
      r.Ok? && r.value.Origin() == info.elements[cid].provenance && Known(info, r.value.Origin())
  {
    assert ElementRefers(info, info.elements[cid]);
  }

  lemma {:induction false} StoredElementsResolve(info: CidInfo, cids: seq<Cid<CanonElement>>)
    requires Good(info) && forall cid | cid in cids :: cid in info.elements
    ensures var r := GetCanonValues(info, cids);
      r.Ok? && AllKnown(info, r.value)
  {
    if cids != [] {
      StoredElementResolves(info, cids[0]);
      StoredElementsResolve(info, cids[1..]);
    }
  }

  lemma StoredCanonResolves(info: CidInfo, cid: Cid<CanonResult>)
    requires Good(info) && cid in info.canons
    ensures var r := ResolveCanon(info, cid); r.Ok? && AllKnown(info, r.value.values)
  {
    assert CanonRefers(info, info.canons[cid]);
    StoredElementsResolve(info, info.canons[cid].values);
  }

  /** A value put into a canon comes out as it was, but for its position in the trace. */
  function AtStart(v: ValueAggregate): ValueAggregate {
    NewValue(v.result, v.Tetraplet(), 0, v.Origin())
  }

  lemma AtStartForgetsPosition(v: ValueAggregate)
    ensures AtStart(v) == v.(tracePos := 0)
  {
  }

  lemma ElementComesBack(info: CidInfo, v: ValueAggregate)
    requires Good(info) && CidOf(ElementOf(v)) in info.elements
    ensures GetCanonValue(info, CidOf(ElementOf(v))) == Ok(v.(tracePos := 0))
  {
    var cid := CidOf(ElementOf(v));
    SameValue(cid, info.elements[cid], ElementOf(v));
    assert ElementRefers(info, info.elements[cid]);
    SameValue(CidOf(v.result), info.values[CidOf(v.result)], v.result);
    SameValue(CidOf(v.Tetraplet()), info.tetraplets[CidOf(v.Tetraplet())], v.Tetraplet());
    AtStartForgetsPosition(v);
  }

  /** The same values, out of the trace. */
  function Untraced(vs: seq<ValueAggregate>): (r: seq<ValueAggregate>)
    ensures |r| == |vs| && forall k | 0 <= k < |vs| :: r[k] == vs[k].(tracePos := 0)
  {
    seq(|vs|, i requires 0 <= i < |vs| => vs[i].(tracePos := 0))
  }

  lemma {:induction false} ElementsComeBack(info: CidInfo, vs: seq<ValueAggregate>)
    requires Good(info) && forall cid | cid in ElementCids(vs) :: cid in info.elements
    ensures GetCanonValues(info, ElementCids(vs)) == Ok(Untraced(vs))
  {
    if vs != [] {
      FirstElement(vs);
      ElementComesBack(info, vs[0]);
      ElementsComeBack(info, vs[1..]);
    }
  }

  lemma FirstElement(vs: seq<ValueAggregate>)
    requires vs != []
    ensures ElementCids(vs)[0] == CidOf(ElementOf(vs[0])) && ElementCids(vs)[1..] == ElementCids(vs[1..])
    ensures Untraced(vs) == [vs[0].(tracePos := 0)] + Untraced(vs[1..])
  {
  }

  /** A canon is read back from any data that still has it, in the same order. */
  lemma CanonComesBack(info: CidInfo, vs: seq<ValueAggregate>, tetraplet: SecurityTetraplet, later: CidInfo)
    requires Good(info) && AllKnown(info, vs) && Good(later) && InfoExtends(TrackCanon(info, vs, tetraplet), later)
    ensures ResolveCanon(later, CidOf(CanonOf(vs, tetraplet))) == Ok(ResolvedCanon(Untraced(vs), tetraplet))
  {
    var cid := CidOf(CanonOf(vs, tetraplet));
    TrackCanonGood(info, vs, tetraplet);
    SameValue(cid, later.canons[cid], CanonOf(vs, tetraplet));
    assert CanonRefers(later, later.canons[cid]);
    SameValue(CidOf(tetraplet), later.tetraplets[CidOf(tetraplet)], tetraplet);
    ElementsComeBack(later, vs);
  }

  // ---- runs ----

  /** What a run does with values: makes them, or reads them from data, or puts some it has into a canon. */
  datatype Op =
    | MakeLiteral(result: JValue, peer: string)
    | AnswerCall(result: JValue, tetraplet: SecurityTetraplet, argumentHash: string)
    | ReadCall(service: Cid<ServiceResult>)
    | Project(pick: nat, result: JValue, tetraplet: SecurityTetraplet)
    | MakeCanon(picks: seq<nat>, tetraplet: SecurityTetraplet)
    | ReadCanon(canon: Cid<CanonResult>)
    | UseCanon(made: nat, result: JValue, peer: string, lens: string)

  /** The stores, the values at hand, and the canons at hand. */
  datatype RunState = RunState(info: CidInfo, values: seq<ValueAggregate>, canons: seq<Cid<CanonResult>>)

  predicate Possible(st: RunState, op: Op) {
    match op
    case Project(k, _, _) => k < |st.values|
    case MakeCanon(ks, _) => InRange(ks, |st.values|)
    case UseCanon(k, _, _, _) => k < |st.canons|
    case _ => true
  }

  predicate InRange(picks: seq<nat>, n: nat) {
    forall j | 0 <= j < |picks| :: picks[j] < n
  }

  function Pick(values: seq<ValueAggregate>, picks: seq<nat>): (r: seq<ValueAggregate>)
    requires InRange(picks, |values|)
    ensures |r| == |picks| && forall k | 0 <= k < |picks| :: r[k] == values[picks[k]]
  {
    seq(|picks|, i requires 0 <= i < |picks| => values[picks[i]])
  }

  function Step(st: RunState, op: Op): Result<RunState, LookupError>
    requires Possible(st, op)
  {
    match op
    case MakeLiteral(v, peer) => Ok(st.(values := st.values + [LiteralValue(v, peer, 0)]))
    case AnswerCall(v, t, h) =>
      Ok(st.(info := TrackService(st.info, v, t, h), values := st.values + [ServiceValue(v, t, 0, CidOf(ServiceOf(v, t, h)))]))
    case ReadCall(cid) =>
      (match ResolveServiceInfo(st.info, cid)
       case Err(e) => Err(e)
       case Ok(r) => Ok(st.(values := st.values + [ServiceValue(r.value, r.tetraplet, 0, cid)])))
    case Project(k, v, t) => Ok(st.(values := st.values + [NewValue(v, t, 0, st.values[k].Origin())]))
    case MakeCanon(ks, t) =>
      var vs := Pick(st.values, ks);
      Ok(st.(info := TrackCanon(st.info, vs, t), canons := st.canons + [CidOf(CanonOf(vs, t))]))
    case ReadCanon(cid) =>
      (match ResolveCanon(st.info, cid)
       case Err(e) => Err(e)
       case Ok(r) => Ok(st.(values := st.values + r.values, canons := st.canons + [cid])))
    case UseCanon(k, v, peer, lens) => Ok(st.(values := st.values + [CanonValue(v, peer, lens, 0, st.canons[k])]))
  }

  ghost predicate StateOk(st: RunState) {
    Good(st.info) && AllKnown(st.info, st.values) && forall cid | cid in st.canons :: cid in st.info.canons
  }

  lemma PickKnown(info: CidInfo, values: seq<ValueAggregate>, picks: seq<nat>)
    requires InRange(picks, |values|) && AllKnown(info, values)
    ensures AllKnown(info, Pick(values, picks))
  {
    var vs := Pick(values, picks);
    forall v | v in vs
      ensures Known(info, v.Origin())
    {
      var i :| 0 <= i < |vs| && vs[i] == v;
      assert v == values[picks[i]];
    }
  }

  /** One step; it fails only where something is read that is not stored. */
  lemma StepKeeps(st: RunState, op: Op)
    requires StateOk(st) && Possible(st, op)
    ensures var r := Step(st, op);
      && (r.Ok? ==> StateOk(r.value) && InfoExtends(st.info, r.value.info))
      && (r.Err? <==> (op.ReadCall? && op.service !in st.info.services) || (op.ReadCanon? && op.canon !in st.info.canons))
  {
    match op {
      case AnswerCall(v, t, h) =>
        TrackServiceGood(st.info, v, t, h);
        AllKnownStays(st.info, TrackService(st.info, v, t, h), st.values);
      case ReadCall(cid) => if cid in st.info.services { StoredServiceResolves(st.info, cid); }
      case MakeCanon(ks, t) =>
        var vs := Pick(st.values, ks);
        PickKnown(st.info, st.values, ks);
        TrackCanonGood(st.info, vs, t);
        AllKnownStays(st.info, TrackCanon(st.info, vs, t), st.values);
      case ReadCanon(cid) => if cid in st.info.canons { StoredCanonResolves(st.info, cid); }
      case _ =>
    }
  }

  /** The last value a step put at hand. */
  function LastValue(st: RunState): ValueAggregate
    requires st.values != []
  {
    st.values[|st.values| - 1]
  }

  /**
   * What a call was answered with is at hand, and reading the call back from any later
   * data puts the very same value at hand again.
   */
  lemma AnswersAreReadBack(st: RunState, value: JValue, tetraplet: SecurityTetraplet, argumentHash: string, later: RunState)
    requires StateOk(st) && StateOk(later)
    requires InfoExtends(Step(st, AnswerCall(value, tetraplet, argumentHash)).value.info, later.info)
    ensures var answered := Step(st, AnswerCall(value, tetraplet, argumentHash)).value;
      && answered.values == st.values + [LastValue(answered)] && LastValue(answered).ServiceValue?
      && LastValue(answered).result == value && LastValue(answered).tetraplet == tetraplet
      && var r := Step(later, ReadCall(LastValue(answered).service));
         r.Ok? && r.value.values == later.values + [LastValue(answered)]
  {
    ServiceComesBack(st.info, value, tetraplet, argumentHash, later.info);
  }

  /**
   * A canon made of values at hand puts them at hand again when it is read back from any
   * later data, in order and as they were but for their positions in the trace.
   */
  lemma CanonsAreReadBack(st: RunState, picks: seq<nat>, tetraplet: SecurityTetraplet, later: RunState)
    requires StateOk(st) && StateOk(later) && Possible(st, MakeCanon(picks, tetraplet))
    requires InfoExtends(Step(st, MakeCanon(picks, tetraplet)).value.info, later.info)
    ensures var made := Step(st, MakeCanon(picks, tetraplet)).value;
      && made.values == st.values && |made.canons| == |st.canons| + 1
      && var r := Step(later, ReadCanon(made.canons[|st.canons|]));
         r.Ok? && r.value.values == later.values + Untraced(Pick(st.values, picks))
  {
    PickKnown(st.info, st.values, picks);
    CanonComesBack(st.info, Pick(st.values, picks), tetraplet, later.info);
  }

  /** Values made in a run: literals, parts of values, and uses of canons, with the provenance they have. */
  lemma MadeValues(st: RunState, op: Op)
    requires Possible(st, op) && (op.MakeLiteral? || op.Project? || op.UseCanon?)
    ensures var r := Step(st, op);
      && r.Ok? && r.value.info == st.info && r.value.values == st.values + [LastValue(r.value)]
      && LastValue(r.value).result == op.result
      && LastValue(r.value).Origin() ==
           match op
           case MakeLiteral(_, _) => Literal
           case Project(pick, _, _) => st.values[pick].Origin()
           case UseCanon(made, _, _, _) => FromCanon(st.canons[made])
           case _ => Literal
  {
  }

  /** The steps of a run; `None` if one is not possible or fails. */
  function Steps(st: RunState, ops: seq<Op>): Option<RunState>
    decreases |ops|
  {
    if ops == [] then Some(st)
    else if !Possible(st, ops[0]) then None
    else
      match Step(st, ops[0])
      case Ok(st') => Steps(st', ops[1..])
      case Err(_) => None
  }

  datatype RunInput = RunInput(current: CidInfo, ops: seq<Op>)

  /** The data after one run: the previous data if the current one does not pass, or the run fails. */
  ghost function AfterRun(previous: CidInfo, input: RunInput): CidInfo {
    if !Good(input.current) then previous
    else
      match Steps(RunState(Merge(previous, input.current), [], []), input.ops)
      case Some(st) => st.info
      case None => previous
  }

  ghost function AfterRuns(inputs: seq<RunInput>): CidInfo {
    if inputs == [] then EmptyInfo() else AfterRun(AfterRuns(inputs[..|inputs| - 1]), inputs[|inputs| - 1])
  }

  lemma {:induction false} StepsKeep(st: RunState, ops: seq<Op>)
    requires StateOk(st)
    ensures var r := Steps(st, ops);
      r.Some? ==> StateOk(r.value) && InfoExtends(st.info, r.value.info)
    decreases |ops|
  {
    if ops != [] && Possible(st, ops[0]) {
      StepKeeps(st, ops[0]);
      var next := Step(st, ops[0]);
      if next.Ok? {
        StepsKeep(next.value, ops[1..]);
        var r := Steps(st, ops);
        if r.Some? {
          InfoExtendsTwice(st.info, next.value.info, r.value.info);
        }
      }
    }
  }

  /** From empty data, over any number of runs: everything stays closed and correct. */
  lemma {:induction false} AllRunsGood(inputs: seq<RunInput>)
    ensures Good(AfterRuns(inputs))
  {
    if inputs != [] {
      AllRunsGood(inputs[..|inputs| - 1]);
      OneRunGood(AfterRuns(inputs[..|inputs| - 1]), inputs[|inputs| - 1]);
    }
  }

  lemma OneRunGood(previous: CidInfo, input: RunInput)
    requires Good(previous)
    ensures Good(AfterRun(previous, input)) && InfoExtends(previous, AfterRun(previous, input))
  {
    if Good(input.current) {
      MergeGood(previous, input.current);
      var st := RunState(Merge(previous, input.current), [], []);
      StepsKeep(st, input.ops);
      var r := Steps(st, input.ops);
      if r.Some? {
        InfoExtendsTwice(previous, st.info, r.value.info);
      }
    }
  }

  /** No identifier disappears or changes its value in any later run. */
  lemma {:induction false} NothingIsLost(inputs: seq<RunInput>, n: nat)
    requires n <= |inputs|
    ensures InfoExtends(AfterRuns(inputs[..n]), AfterRuns(inputs))
  {
    if n == |inputs| {
      assert inputs[..n] == inputs;
    } else {
      var init := inputs[..|inputs| - 1];
      assert init[..n] == inputs[..n];
      NothingIsLost(init, n);
      AllRunsGood(init);
      OneRunGood(AfterRuns(init), inputs[|inputs| - 1]);
      InfoExtendsTwice(AfterRuns(inputs[..n]), AfterRuns(init), AfterRuns(inputs));
    }
  }
}
