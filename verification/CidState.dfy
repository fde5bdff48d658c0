/**
 * The five stores of a run and what refers to what in them. Service results and canon
 * elements refer to values and tetraplets, canon results to their elements, and an
 * element to where its value came from.
 */
module CidState {
  import opened Wrappers
  import opened Json
  import opened CidStores

  datatype SecurityTetraplet = SecurityTetraplet(peer: string, serviceId: string, functionName: string, lens: string)

  datatype ServiceResult = ServiceResult(value: Cid<JValue>, argumentHash: string, tetraplet: Cid<SecurityTetraplet>)

  datatype Provenance = Literal | FromService(service: Cid<ServiceResult>) | FromCanon(canon: Cid<CanonResult>)

  datatype CanonElement = CanonElement(value: Cid<JValue>, tetraplet: Cid<SecurityTetraplet>, provenance: Provenance)

  datatype CanonResult = CanonResult(tetraplet: Cid<SecurityTetraplet>, values: seq<Cid<CanonElement>>)

  datatype CidInfo = CidInfo(
    values: Store<JValue>,
    tetraplets: Store<SecurityTetraplet>,
    elements: Store<CanonElement>,
    canons: Store<CanonResult>,
    services: Store<ServiceResult>)

  function EmptyInfo(): CidInfo {
    CidInfo(map[], map[], map[], map[], map[])
  }

  // ---- values of a run ----

  /** A value with what is needed to tell where it came from. */
  datatype ValueAggregate =
    | LiteralValue(result: JValue, initPeer: string, tracePos: nat)
    | ServiceValue(result: JValue, tetraplet: SecurityTetraplet, tracePos: nat, service: Cid<ServiceResult>)
    | CanonValue(result: JValue, peer: string, lens: string, tracePos: nat, canon: Cid<CanonResult>)
  {
    function Tetraplet(): SecurityTetraplet {
      match this
      case LiteralValue(_, peer, _) => SecurityTetraplet(peer, "", "", "")
      case ServiceValue(_, t, _, _) => t
      case CanonValue(_, peer, lens, _, _) => SecurityTetraplet(peer, "", "", lens)
    }

    function Origin(): Provenance {
      match this
      case LiteralValue(_, _, _) => Literal
      case ServiceValue(_, _, _, cid) => FromService(cid)
      case CanonValue(_, _, _, _, cid) => FromCanon(cid)
    }
  }

  function NewValue(result: JValue, tetraplet: SecurityTetraplet, tracePos: nat, provenance: Provenance): ValueAggregate {
    match provenance
    case Literal => LiteralValue(result, tetraplet.peer, tracePos)
    case FromService(cid) => ServiceValue(result, tetraplet, tracePos, cid)
    case FromCanon(cid) => CanonValue(result, tetraplet.peer, tetraplet.lens, tracePos, cid)
  }

  // ---- checking ----

  ghost predicate ElementRefers(info: CidInfo, e: CanonElement) {
    e.value in info.values && e.tetraplet in info.tetraplets && Known(info, e.provenance)
  }

  /** What a provenance refers to is stored. */
  predicate Known(info: CidInfo, p: Provenance) {
    match p
    case Literal => true
    case FromService(cid) => cid in info.services
    case FromCanon(cid) => cid in info.canons
  }

  ghost predicate CanonRefers(info: CidInfo, c: CanonResult) {
    c.tetraplet in info.tetraplets && forall v | v in c.values :: v in info.elements
  }

  ghost predicate ServiceRefers(info: CidInfo, s: ServiceResult) {
    s.value in info.values && s.tetraplet in info.tetraplets
  }

  ghost predicate Closed(info: CidInfo) {
    && (forall cid {:trigger cid in info.elements} :: cid in info.elements ==> ElementRefers(info, info.elements[cid]))
    && (forall cid {:trigger cid in info.canons} :: cid in info.canons ==> CanonRefers(info, info.canons[cid]))
    && (forall cid {:trigger cid in info.services} :: cid in info.services ==> ServiceRefers(info, info.services[cid]))
  }

  ghost predicate AllCorrect(info: CidInfo) {
    && Correct(info.values) && Correct(info.tetraplets) && Correct(info.elements) && Correct(info.canons)
    && Correct(info.services)
  }

  ghost predicate Good(info: CidInfo) {
    AllCorrect(info) && Closed(info)
  }

  method VerifyServices(info: CidInfo) returns (r: Result<(), VerificationError>)
    ensures r.Ok? <==> Correct(info.services) && forall cid | cid in info.services :: ServiceRefers(info, info.services[cid])
  {
    r := VerifyStore(info.services);
    if r.Err? {
      return r;
    }
    var todo := info.services.Keys;
    while todo != {}
      invariant todo <= info.services.Keys
      invariant forall cid | cid in info.services.Keys - todo :: ServiceRefers(info, info.services[cid])
      decreases todo
    {
      var cid :| cid in todo;
      todo := todo - {cid};
      var s := info.services[cid];
      if s.tetraplet !in info.tetraplets || s.value !in info.values {
        assert !ServiceRefers(info, info.services[cid]);
        return Err(MissingReference);
      }
    }
    return Ok(());
  }

  method VerifyCanonReferences(info: CidInfo) returns (r: Result<(), VerificationError>)
    ensures r.Ok? <==> forall cid | cid in info.canons :: CanonRefers(info, info.canons[cid])
  {
    var todo := info.canons.Keys;
    while todo != {}
      invariant todo <= info.canons.Keys
      invariant forall cid | cid in info.canons.Keys - todo :: CanonRefers(info, info.canons[cid])
      decreases todo
    {
      var cid :| cid in todo;
      todo := todo - {cid};
      var c := info.canons[cid];
      for i := 0 to |c.values|
        invariant forall k | 0 <= k < i :: c.values[k] in info.elements
      {
        if c.values[i] !in info.elements {
          assert !CanonRefers(info, info.canons[cid]);
          return Err(MissingReference);
        }
      }
      if c.tetraplet !in info.tetraplets {
        assert !CanonRefers(info, info.canons[cid]);
        return Err(MissingReference);
      }
    }
    return Ok(());
  }

  method VerifyElementReferences(info: CidInfo) returns (r: Result<(), VerificationError>)
    ensures r.Ok? <==> forall cid | cid in info.elements :: ElementRefers(info, info.elements[cid])
  {
    var todo := info.elements.Keys;
    while todo != {}
      invariant todo <= info.elements.Keys
      invariant forall cid | cid in info.elements.Keys - todo :: ElementRefers(info, info.elements[cid])
      decreases todo
    {
      var cid :| cid in todo;
      todo := todo - {cid};
      var e := info.elements[cid];
      if e.tetraplet !in info.tetraplets || e.value !in info.values || !Known(info, e.provenance) {
        assert !ElementRefers(info, info.elements[cid]);
        return Err(MissingReference);
      }
    }
    return Ok(());
  }

  /** Data passes exactly when all values are the ones their identifiers stand for and nothing referred to is missing. */
  method Verify(info: CidInfo) returns (r: Result<(), VerificationError>)
    ensures r.Ok? <==> Good(info)
  {
    r := VerifyStore(info.values);
    if r.Err? { return r; }
    r := VerifyStore(info.tetraplets);
    if r.Err? { return r; }
    r := VerifyStore(info.elements);
    if r.Err? { return r; }
    r := VerifyStore(info.canons);
    if r.Err? { return r; }
    r := VerifyCanonReferences(info);
    if r.Err? { return r; }
    r := VerifyElementReferences(info);
    if r.Err? { return r; }
    r := VerifyServices(info);
  }

  // ---- merging and tracking ----

  function Merge(previous: CidInfo, current: CidInfo): CidInfo {
    CidInfo(previous.values + current.values, previous.tetraplets + current.tetraplets,
            previous.elements + current.elements, previous.canons + current.canons, previous.services + current.services)
  }

  function Track<T(==)>(store: Store<T>, value: T): Store<T> {
    store[CidOf(value) := value]
  }

  function ServiceOf(value: JValue, tetraplet: SecurityTetraplet, argumentHash: string): ServiceResult {
    ServiceResult(CidOf(value), argumentHash, CidOf(tetraplet))
  }

  function TrackService(info: CidInfo, value: JValue, tetraplet: SecurityTetraplet, argumentHash: string): CidInfo {
    info.(values := Track(info.values, value), tetraplets := Track(info.tetraplets, tetraplet),
          services := Track(info.services, ServiceOf(value, tetraplet, argumentHash)))
  }

  function ElementOf(v: ValueAggregate): CanonElement {
    CanonElement(CidOf(v.result), CidOf(v.Tetraplet()), v.Origin())
  }

  function TrackElement(info: CidInfo, v: ValueAggregate): CidInfo {
    info.(values := Track(info.values, v.result), tetraplets := Track(info.tetraplets, v.Tetraplet()),
          elements := Track(info.elements, ElementOf(v)))
  }

  function TrackElements(info: CidInfo, vs: seq<ValueAggregate>): CidInfo {
    if vs == [] then info else TrackElement(TrackElements(info, vs[..|vs| - 1]), vs[|vs| - 1])
  }

  function ElementCids(vs: seq<ValueAggregate>): seq<Cid<CanonElement>> {
    seq(|vs|, i requires 0 <= i < |vs| => CidOf(ElementOf(vs[i])))
  }

  function CanonOf(vs: seq<ValueAggregate>, tetraplet: SecurityTetraplet): CanonResult {
    CanonResult(CidOf(tetraplet), ElementCids(vs))
  }

  /** A canon made for the first time: its elements, then its tetraplet, then the canon itself. */
  function TrackCanon(info: CidInfo, vs: seq<ValueAggregate>, tetraplet: SecurityTetraplet): CidInfo {
    var tracked := TrackElements(info, vs);
    tracked.(tetraplets := Track(tracked.tetraplets, tetraplet), canons := Track(tracked.canons, CanonOf(vs, tetraplet)))
  }

  // ---- looking up ----

  datatype LookupError = ValueForCidNotFound(what: string)

  function Find<T(==)>(store: Store<T>, cid: Cid<T>, what: string): Result<T, LookupError> {
    if cid in store then Ok(store[cid]) else Err(ValueForCidNotFound(what))
  }

  function GetCanonValue(info: CidInfo, cid: Cid<CanonElement>): Result<ValueAggregate, LookupError> {
    match Find(info.elements, cid, "canon aggregate")
    case Err(e) => Err(e)
    case Ok(element) =>
      match Find(info.values, element.value, "value")
      case Err(e) => Err(e)
      case Ok(value) =>
        match Find(info.tetraplets, element.tetraplet, "tetraplet")
        case Err(e) => Err(e)
        case Ok(tetraplet) => Ok(NewValue(value, tetraplet, 0, element.provenance))
  }

  function GetCanonValues(info: CidInfo, cids: seq<Cid<CanonElement>>): (r: Result<seq<ValueAggregate>, LookupError>)
    ensures r.Ok? ==> |r.value| == |cids|
  {
    if cids == [] then Ok([])
    else
      match GetCanonValue(info, cids[0])
      case Err(e) => Err(e)
      case Ok(v) =>
        match GetCanonValues(info, cids[1..])
        case Err(e) => Err(e)
        case Ok(vs) => Ok([v] + vs)
  }

  datatype ResolvedServiceInfo = ResolvedServiceInfo(value: JValue, tetraplet: SecurityTetraplet, result: ServiceResult)

  function ResolveServiceInfo(info: CidInfo, cid: Cid<ServiceResult>): Result<ResolvedServiceInfo, LookupError> {
    match Find(info.services, cid, "service result aggregate")
    case Err(e) => Err(e)
    case Ok(service) =>
      match Find(info.values, service.value, "value")
      case Err(e) => Err(e)
      case Ok(value) =>
        match Find(info.tetraplets, service.tetraplet, "tetraplet")
        case Err(e) => Err(e)
        case Ok(tetraplet) => Ok(ResolvedServiceInfo(value, tetraplet, service))
  }

  datatype ResolvedCanon = ResolvedCanon(values: seq<ValueAggregate>, tetraplet: SecurityTetraplet)

  /** What an executed canon reads back from data. */
  function ResolveCanon(info: CidInfo, cid: Cid<CanonResult>): Result<ResolvedCanon, LookupError> {
    match Find(info.canons, cid, "canon result aggregate")
    case Err(e) => Err(e)
    case Ok(canon) =>
      match Find(info.tetraplets, canon.tetraplet, "tetraplet")
      case Err(e) => Err(e)
      case Ok(tetraplet) =>
        match GetCanonValues(info, canon.values)
        case Err(e) => Err(e)
        case Ok(vs) => Ok(ResolvedCanon(vs, tetraplet))
  }

  /** The state of a run, updated in place. */
  class ExecutionCidState {
    const values: CidTracker<JValue>
    const tetraplets: CidTracker<SecurityTetraplet>
    const elements: CidTracker<CanonElement>
    const canons: CidTracker<CanonResult>
    const services: CidTracker<ServiceResult>

    ghost function View(): CidInfo
      reads values, tetraplets, elements, canons, services
    {
      CidInfo(values.cids, tetraplets.cids, elements.cids, canons.cids, services.cids)
    }

    constructor FromCidInfo(previous: CidInfo, current: CidInfo)
      ensures View() == Merge(previous, current)
      ensures fresh(values) && fresh(tetraplets) && fresh(elements) && fresh(canons) && fresh(services)
    {
      values := new CidTracker.FromCidStores(previous.values, current.values);
      tetraplets := new CidTracker.FromCidStores(previous.tetraplets, current.tetraplets);
      elements := new CidTracker.FromCidStores(previous.elements, current.elements);
      canons := new CidTracker.FromCidStores(previous.canons, current.canons);
      services := new CidTracker.FromCidStores(previous.services, current.services);
    }

    method TrackServiceResult(value: JValue, tetraplet: SecurityTetraplet, argumentHash: string)
      returns (cid: Cid<ServiceResult>)
      modifies values, tetraplets, services
      ensures View() == TrackService(old(View()), value, tetraplet, argumentHash)
      ensures cid == CidOf(ServiceOf(value, tetraplet, argumentHash))
    {
      var valueCid := values.TrackValue(value);
      var tetrapletCid := tetraplets.TrackValue(tetraplet);
      cid := services.TrackValue(ServiceResult(valueCid, argumentHash, tetrapletCid));
    }

    method TrackCanonValue(v: ValueAggregate) returns (cid: Cid<CanonElement>)
      modifies values, tetraplets, elements
      ensures View() == TrackElement(old(View()), v) && cid == CidOf(ElementOf(v))
    {
      var valueCid := values.TrackValue(v.result);
      var tetrapletCid := tetraplets.TrackValue(v.Tetraplet());
      cid := elements.TrackValue(CanonElement(valueCid, tetrapletCid, v.Origin()));
    }

    method TrackCanonResult(vs: seq<ValueAggregate>, tetraplet: SecurityTetraplet) returns (cid: Cid<CanonResult>)
      modifies values, tetraplets, elements, canons
      ensures View() == TrackCanon(old(View()), vs, tetraplet) && cid == CidOf(CanonOf(vs, tetraplet))
    {
      ghost var before := View();
      var cids: seq<Cid<CanonElement>> := [];
      for i := 0 to |vs|
        invariant View() == TrackElements(before, vs[..i]) && cids == ElementCids(vs[..i])
      {
        assert vs[..i + 1][..i] == vs[..i];
        var elementCid := TrackCanonValue(vs[i]);
        cids := cids + [elementCid];
      }
      assert vs[..|vs|] == vs;
      var tetrapletCid := tetraplets.TrackValue(tetraplet);
      cid := canons.TrackValue(CanonResult(tetrapletCid, cids));
    }
  }
}
