/**
 * The service definitions of annotated calls. Transforming a script puts every
 * definition into a store and appends its id to the service name of the call;
 * dispatching a request takes the id off again.
 */
module Walker {
  import opened Wrappers
  import opened Json
  import opened Sexps
  import S = Streams

  // ---- numbers in names ----

  predicate IsDigit(c: char) {
    '0' <= c <= '9'
  }

  function DigitValue(c: char): nat
    requires IsDigit(c)
  {
    c as int - '0' as int
  }

  predicate AllDigits(s: string) {
    forall k | 0 <= k < |s| :: IsDigit(s[k])
  }

  function NatValue(s: string): nat
    requires AllDigits(s)
  {
    if s == "" then 0 else 10 * NatValue(s[..|s| - 1]) + DigitValue(s[|s| - 1])
  }

  /** An unsigned machine word, possibly with a plus sign. */
  function ParseUsize(s: string): Option<nat> {
    var digits := if |s| > 1 && s[0] == '+' then s[1..] else s;
    if digits == "" || !AllDigits(digits) || NatValue(digits) > S.USIZE_MAX then None else Some(NatValue(digits))
  }

  /** The name and what follows its last two dots. */
  function SplitAtDots(s: string): (r: Option<(string, string)>)
    ensures r.Some? ==> s == r.value.0 + ".." + r.value.1
  {
    if |s| < 2 then None
    else if s[|s| - 2..] == ".." then Some((s[..|s| - 2], ""))
    else
      match SplitAtDots(s[..|s| - 1])
      case None => None
      case Some(parts) => Some((parts.0, parts.1 + [s[|s| - 1]]))
  }

  // ---- the store ----

  /** The id of a definition is its position. */
  type Definitions = seq<ServiceDefinition>

  datatype FunctionOutcome =
    | NotDefined
    | Answered(definition: ServiceDefinition, serviceId: string)
    | Panicked

  /** Which definition answers a request, and the service name it is told. */
  function Dispatch(definitions: Definitions, serviceId: string): FunctionOutcome {
    match SplitAtDots(serviceId)
    case None => NotDefined
    case Some(parts) =>
      match ParseUsize(parts.1)
      case None => NotDefined
      case Some(id) => if id < |definitions| then Answered(definitions[id], parts.0) else Panicked
  }

  class ResultStore {
    var results: map<nat, ServiceDefinition>

    ghost predicate Valid()
      reads this
    {
      forall id: nat {:trigger id in results} :: id in results <==> id < |results|
    }

    ghost function View(): (d: Definitions)
      requires Valid()
      reads this
    {
      seq(|results|, id requires id in results reads this => results[id])
    }

    constructor ()
      ensures Valid() && View() == []
    {
      results := map[];
      new;
      assert |results| == 0 && forall id: nat :: id !in results;
    }

    method Insert(definition: ServiceDefinition) returns (id: nat)
      requires Valid()
      modifies this
      ensures Valid() && id == old(|View()|) && View() == old(View()) + [definition]
    {
      id := |results|;
      results := results[id := definition];
    }

    method Call(serviceId: string) returns (r: FunctionOutcome)
      requires Valid()
      ensures r == Dispatch(View(), serviceId)
    {
      var split := SplitAtDots(serviceId);
      if split.None? {
        return NotDefined;
      }
      var resultId := ParseUsize(split.value.1);
      if resultId.None? {
        return NotDefined;
      }
      if resultId.value !in results {
        return Panicked;
      }
      return Answered(results[resultId.value], split.value.0);
    }
  }

  // ---- the transformation ----

  /** Named peers get their ids. */
  function RenamePeer(peer: Sexp, peerIds: string -> string): Sexp {
    if peer.Quoted? then Quoted(peerIds(peer.text)) else peer
  }

  function ServiceName(name: string, id: nat): string {
    name + ".." + Decimal(id)
  }

  /** `None` is the panic about a service that is not a string literal. */
  function TransformCall(call: Sexp, definitions: Definitions, peerIds: string -> string): Option<(Sexp, Definitions)>
    requires call.Call?
  {
    var renamed := Call(RenamePeer(call.peer, peerIds), call.service, call.func, call.args, call.output, call.definition);
    match call.definition
    case None => Some((renamed, definitions))
    case Some(d) =>
      if call.service.Quoted? then
        Some((renamed.(service := Quoted(ServiceName(call.service.text, |definitions|))), definitions + [d]))
      else None
  }

  /** The first item of a list is not looked into. */
  function Transform(s: Sexp, definitions: Definitions, peerIds: string -> string): Option<(Sexp, Definitions)> {
    match s
    case Call(_, _, _, _, _, _) => TransformCall(s, definitions, peerIds)
    case Canon(peer, stream, target) => Some((Canon(RenamePeer(peer, peerIds), stream, target), definitions))
    case List(items) =>
      if items == [] then Some((s, definitions))
      else
        (match TransformAll(items[1..], definitions, peerIds)
         case None => None
         case Some(r) => Some((List([items[0]] + r.0), r.1)))
    case _ => Some((s, definitions))
  }

  function TransformAll(items: seq<Sexp>, definitions: Definitions, peerIds: string -> string): Option<(seq<Sexp>, Definitions)> {
    if items == [] then Some(([], definitions))
    else
      match Transform(items[0], definitions, peerIds)
      case None => None
      case Some(first) =>
        match TransformAll(items[1..], first.1, peerIds)
        case None => None
        case Some(rest) => Some(([first.0] + rest.0, rest.1))
  }

  /** The transformation of the tree; the store grows as annotated calls are met. */
  method TransformScript(s: Sexp, store: ResultStore, peerIds: string -> string) returns (r: Option<Sexp>)
    requires store.Valid()
    modifies store
    ensures store.Valid()
    ensures var spec := Transform(s, old(store.View()), peerIds);
      && (r.Some? <==> spec.Some?)
      && (r.Some? ==> r.value == spec.value.0 && store.View() == spec.value.1)
    decreases s
  {
    match s {
      case Call(_, _, _, _, _, _) => r := HandleCall(s, store, peerIds);
      case Canon(peer, stream, target) => r := Some(Canon(RenamePeer(peer, peerIds), stream, target));
      case List(items) =>
        var children := items;
        var i := 1;
        ghost var before := store.View();
        while i < |items|
          invariant items != [] ==> 1 <= i <= |items|
          invariant |children| == |items| && store.Valid()
          invariant items == [] ==> store.View() == before
          invariant items != [] ==> children[0] == items[0]
          invariant items != [] ==> TransformAll(items[1..i], before, peerIds) == Some((children[1..i], store.View()))
          invariant forall k | i <= k < |items| :: children[k] == items[k]
        {
          NextItem(items, i, before, peerIds);
          var child := TransformScript(items[i], store, peerIds);
          if child.None? {
            return None;
          }
          children := children[i := child.value];
          assert children[1..i + 1] == children[1..i] + [child.value];
          i := i + 1;
        }
        if items != [] {
          assert items[1..i] == items[1..] && children == [items[0]] + children[1..i];
        }
        r := Some(List(children));
      case _ => r := Some(s);
    }
  }

  method HandleCall(call: Sexp, store: ResultStore, peerIds: string -> string) returns (r: Option<Sexp>)
    requires call.Call? && store.Valid()
    modifies store
    ensures store.Valid()
    ensures var spec := TransformCall(call, old(store.View()), peerIds);
      && (r.Some? <==> spec.Some?)
      && (r.Some? ==> r.value == spec.value.0 && store.View() == spec.value.1)
  {
    var renamed := Call(RenamePeer(call.peer, peerIds), call.service, call.func, call.args, call.output, call.definition);
    if call.definition.None? {
      return Some(renamed);
    }
    var id := store.Insert(call.definition.value);
    if !call.service.Quoted? {
      return None;
    }
    return Some(renamed.(service := Quoted(ServiceName(call.service.text, id))));
  }

  /** Items are transformed one after the other. */
  lemma {:induction false} AllInOrder(items: seq<Sexp>, x: Sexp, definitions: Definitions, peerIds: string -> string)
    requires TransformAll(items, definitions, peerIds).Some?
    ensures var before := TransformAll(items, definitions, peerIds).value;
      TransformAll(items + [x], definitions, peerIds) ==
        match Transform(x, before.1, peerIds)
        case None => None
        case Some(last) => Some((before.0 + [last.0], last.1))
  {
    if items == [] {
      assert items + [x] == [x] && [x][1..] == [];
      var last := Transform(x, definitions, peerIds);
      if last.Some? {
        assert [last.value.0] + [] == [] + [last.value.0];
      }
    } else {
      var first := Transform(items[0], definitions, peerIds).value;
      AllInOrder(items[1..], x, first.1, peerIds);
      var before := TransformAll(items[1..], first.1, peerIds).value;
      var last := Transform(x, before.1, peerIds);
      if last.Some? {
        assert [first.0] + (before.0 + [last.value.0]) == [first.0] + before.0 + [last.value.0];
      }
      assert (items + [x])[1..] == items[1..] + [x];
      assert (items + [x])[0] == items[0];
    }
  }

  /** One more item, if those before it went through: all fail if it does. */
  lemma NextItem(items: seq<Sexp>, i: nat, definitions: Definitions, peerIds: string -> string)
    requires 1 <= i < |items| && TransformAll(items[1..i], definitions, peerIds).Some?
    ensures var before := TransformAll(items[1..i], definitions, peerIds).value;
      match Transform(items[i], before.1, peerIds)
      case None => TransformAll(items[1..], definitions, peerIds).None?
      case Some(last) => TransformAll(items[1..i + 1], definitions, peerIds) == Some((before.0 + [last.0], last.1))
  {
    AllInOrder(items[1..i], items[i], definitions, peerIds);
    assert items[1..i] + [items[i]] == items[1..i + 1];
    if TransformAll(items[1..i + 1], definitions, peerIds).None? {
      AllFailsLater(items[1..i + 1], items[i + 1..], definitions, peerIds);
      assert items[1..i + 1] + items[i + 1..] == items[1..];
    }
  }

  lemma {:induction false} AllFailsLater(a: seq<Sexp>, b: seq<Sexp>, definitions: Definitions, peerIds: string -> string)
    requires TransformAll(a, definitions, peerIds).None?
    ensures TransformAll(a + b, definitions, peerIds).None?
  {
    assert (a + b)[0] == a[0] && (a + b)[1..] == a[1..] + b;
    var first := Transform(a[0], definitions, peerIds);
    if first.Some? {
      AllFailsLater(a[1..], b, first.value.1, peerIds);
    }
  }

  // ---- ids in names ----

  lemma {:induction false} NatDecimalParses(n: nat)
    ensures NatDecimal(n) != "" && AllDigits(NatDecimal(n)) && NatValue(NatDecimal(n)) == n
  {
    var s := NatDecimal(n);
    if n < 10 {
      assert NatValue(s[..|s| - 1]) == 0;
    } else {
      NatDecimalParses(n / 10);
      assert s[..|s| - 1] == NatDecimal(n / 10);
    }
  }

  lemma {:induction false} SplitAtLastDots(name: string, suffix: string)
    requires '.' !in suffix
    ensures SplitAtDots(name + ".." + suffix) == Some((name, suffix))
  {
    var s := name + ".." + suffix;
    if suffix == "" {
      assert s[|s| - 2..] == "..";
      assert s[..|s| - 2] == name;
    } else {
      var n := |suffix| - 1;
      assert s[..|s| - 1] == name + ".." + suffix[..n];
      assert s[|s| - 1] == suffix[n] && s[|s| - 2..][1] == suffix[n];
      SplitAtLastDots(name, suffix[..n]);
      assert suffix[..n] + [suffix[n]] == suffix;
    }
  }

  /** The name given to an annotated call leads back to its definition, and to the original name, dots and all. */
  lemma NameLeadsBack(name: string, id: nat, definitions: Definitions)
    requires id < |definitions| && id <= S.USIZE_MAX
    ensures Dispatch(definitions, ServiceName(name, id)) == Answered(definitions[id], name)
  {
    NatDecimalParses(id);
    NumbersHaveNoDots(NatDecimal(id));
    SplitAtLastDots(name, NatDecimal(id));
    DigitsParse(NatDecimal(id));
  }

  lemma NumbersHaveNoDots(s: string)
    requires AllDigits(s) || ParseUsize(s).Some?
    ensures '.' !in s
  {
    forall k | 0 <= k < |s|
      ensures s[k] != '.'
    {
      if k > 0 {
        assert s[k] == s[1..][k - 1];
      }
    }
  }

  lemma DigitsParse(digits: string)
    requires digits != "" && AllDigits(digits) && NatValue(digits) <= S.USIZE_MAX
    ensures ParseUsize(digits) == Some(NatValue(digits))
  {
    assert IsDigit(digits[0]);
  }

  /** A number is read from its digits, with or without a plus sign, if it fits. */
  lemma ParsesExactly(s: string, n: nat)
    ensures ParseUsize(s) == Some(n) <==>
      && n <= S.USIZE_MAX
      && exists digits :: (s == digits || s == "+" + digits) && digits != "" && AllDigits(digits) && NatValue(digits) == n
  {
    if ParseUsize(s) == Some(n) && |s| > 1 && s[0] == '+' {
      assert s == "+" + s[1..];
    }
    if digits :| (s == digits || s == "+" + digits) && digits != "" && AllDigits(digits) && NatValue(digits) == n {
      assert IsDigit(digits[0]);
      assert s != digits ==> s[1..] == digits;
    }
  }

  // ---- the calls of a script ----

  /** The calls the transformation reaches, in order. */
  function Reached(s: Sexp): (calls: seq<Sexp>)
    ensures forall c | c in calls :: c.Call?
  {
    match s
    case Call(_, _, _, _, _, _) => [s]
    case List(items) => if items == [] then [] else ReachedIn(items[1..])
    case _ => []
  }

  function ReachedIn(items: seq<Sexp>): (calls: seq<Sexp>)
    ensures forall c | c in calls :: c.Call?
  {
    if items == [] then [] else Reached(items[0]) + ReachedIn(items[1..])
  }

  /** The definitions of the annotated ones. */
  function DefinitionsOf(calls: seq<Sexp>): Definitions {
    if calls == [] then []
    else
      DefinitionsOf(calls[..|calls| - 1]) +
      match calls[|calls| - 1] case Call(_, _, _, _, _, Some(d)) => [d] case _ => []
  }

  /** The id of the k-th call if ids are given in order from `first` on. */
  function IdOf(calls: seq<Sexp>, k: nat, first: nat): nat
    requires k <= |calls|
  {
    first + |DefinitionsOf(calls[..k])|
  }

  /** Only a peer given as a string is a named one. */
  ghost predicate IsRenamed(peer: Sexp, peer': Sexp, peerIds: string -> string) {
    if peer.Quoted? then peer'.Quoted? && peer'.text == peerIds(peer.text) else peer' == peer
  }

  /** A call as the transformation leaves it. */
  ghost predicate IsRewritten(call: Sexp, call': Sexp, id: nat, peerIds: string -> string) {
    && call.Call? && call'.Call?
    && IsRenamed(call.peer, call'.peer, peerIds)
    && call'.func == call.func && call'.args == call.args && call'.output == call.output && call'.definition == call.definition
    && (call.definition.None? ==> call'.service == call.service)
    && (call.definition.Some? ==> call.service.Quoted? && call'.service == Quoted(ServiceName(call.service.text, id)))
  }

  ghost predicate AllRewritten(calls: seq<Sexp>, calls': seq<Sexp>, first: nat, peerIds: string -> string) {
    && |calls'| == |calls|
    && forall k {:trigger calls'[k]} | 0 <= k < |calls| :: IsRewritten(calls[k], calls'[k], IdOf(calls, k, first), peerIds)
  }

  lemma {:induction false} DefinitionsOfConcat(a: seq<Sexp>, b: seq<Sexp>)
    ensures DefinitionsOf(a + b) == DefinitionsOf(a) + DefinitionsOf(b)
  {
    if b == [] {
      assert a + b == a;
    } else {
      assert (a + b)[..|a + b| - 1] == a + b[..|b| - 1];
      DefinitionsOfConcat(a, b[..|b| - 1]);
    }
  }

  lemma RewrittenConcat(a: seq<Sexp>, a': seq<Sexp>, b: seq<Sexp>, b': seq<Sexp>, first: nat, peerIds: string -> string)
    requires AllRewritten(a, a', first, peerIds) && AllRewritten(b, b', first + |DefinitionsOf(a)|, peerIds)
    ensures AllRewritten(a + b, a' + b', first, peerIds)
  {
    forall k | 0 <= k < |a + b|
      ensures IsRewritten((a + b)[k], (a' + b')[k], IdOf(a + b, k, first), peerIds)
    {
      if k < |a| {
        assert (a + b)[..k] == a[..k];
        assert IsRewritten(a[k], a'[k], IdOf(a, k, first), peerIds);
      } else {
        assert (a + b)[..k] == a + b[..k - |a|];
        DefinitionsOfConcat(a, b[..k - |a|]);
        assert IsRewritten(b[k - |a|], b'[k - |a|], IdOf(b, k - |a|, first + |DefinitionsOf(a)|), peerIds);
      }
    }
  }

  /** Exactly the calls reached are rewritten, with ids in order, and the store takes up their definitions. */
  lemma {:induction false} TransformRewrites(s: Sexp, definitions: Definitions, peerIds: string -> string)
    requires Transform(s, definitions, peerIds).Some?
    ensures var r := Transform(s, definitions, peerIds).value;
      && AllRewritten(Reached(s), Reached(r.0), |definitions|, peerIds)
      && r.1 == definitions + DefinitionsOf(Reached(s))
    decreases s
  {
    match s {
      case Call(_, _, _, _, _, _) =>
        assert [s][..0] == [];
        assert DefinitionsOf([s]) == match s.definition case Some(d) => [d] case None => [];
      case List(items) =>
        if items != [] {
          TransformAllRewrites(items[1..], definitions, peerIds);
          var r := TransformAll(items[1..], definitions, peerIds).value;
          assert ([items[0]] + r.0)[1..] == r.0;
        }
      case _ =>
    }
  }

  lemma {:induction false} TransformAllRewrites(items: seq<Sexp>, definitions: Definitions, peerIds: string -> string)
    requires TransformAll(items, definitions, peerIds).Some?
    ensures var r := TransformAll(items, definitions, peerIds).value;
      && AllRewritten(ReachedIn(items), ReachedIn(r.0), |definitions|, peerIds)
      && r.1 == definitions + DefinitionsOf(ReachedIn(items))
    decreases items
  {
    if items != [] {
      var first := Transform(items[0], definitions, peerIds).value;
      TransformRewrites(items[0], definitions, peerIds);
      TransformAllRewrites(items[1..], first.1, peerIds);
      var rest := TransformAll(items[1..], first.1, peerIds).value;
      var a, b := Reached(items[0]), ReachedIn(items[1..]);
      RewrittenJoin(a, Reached(first.0), b, ReachedIn(rest.0), definitions, peerIds);
      assert ReachedIn(items) == a + b;
      ReachedInCons(first.0, rest.0);
    }
  }

  lemma RewrittenJoin(a: seq<Sexp>, a': seq<Sexp>, b: seq<Sexp>, b': seq<Sexp>, definitions: Definitions, peerIds: string -> string)
    requires AllRewritten(a, a', |definitions|, peerIds) && AllRewritten(b, b', |definitions + DefinitionsOf(a)|, peerIds)
    ensures AllRewritten(a + b, a' + b', |definitions|, peerIds)
    ensures definitions + DefinitionsOf(a) + DefinitionsOf(b) == definitions + DefinitionsOf(a + b)
  {
    RewrittenConcat(a, a', b, b', |definitions|, peerIds);
    DefinitionsOfConcat(a, b);
  }

  /** Beside the calls only the peers of canons change: lists keep their lengths and first items, symbols and strings stay. */
  ghost predicate SameAround(s: Sexp, s': Sexp, peerIds: string -> string) {
    match s
    case Call(_, _, _, _, _, _) => s'.Call?
    case Canon(peer, stream, target) => s'.Canon? && IsRenamed(peer, s'.peer, peerIds) && s'.stream == stream && s'.target == target
    case List(items) =>
      && s'.List? && |s'.items| == |items|
      && (items != [] ==> s'.items[0] == items[0])
      && forall k {:trigger s'.items[k]} | 1 <= k < |items| :: SameAround(items[k], s'.items[k], peerIds)
    case _ => s' == s
  }

  lemma {:induction false} TransformKeepsRest(s: Sexp, definitions: Definitions, peerIds: string -> string)
    requires Transform(s, definitions, peerIds).Some?
    ensures SameAround(s, Transform(s, definitions, peerIds).value.0, peerIds)
    decreases s
  {
    if s.List? && s.items != [] {
      TransformAllKeepsRest(s.items[1..], definitions, peerIds);
      var r := TransformAll(s.items[1..], definitions, peerIds).value.0;
      forall k | 1 <= k < |s.items|
        ensures SameAround(s.items[k], ([s.items[0]] + r)[k], peerIds)
      {
        assert s.items[1..][k - 1] == s.items[k] && ([s.items[0]] + r)[k] == r[k - 1];
      }
    }
  }

  lemma {:induction false} TransformAllKeepsRest(items: seq<Sexp>, definitions: Definitions, peerIds: string -> string)
    requires TransformAll(items, definitions, peerIds).Some?
    ensures var r := TransformAll(items, definitions, peerIds).value.0;
      |r| == |items| && forall k | 0 <= k < |items| :: SameAround(items[k], r[k], peerIds)
    decreases items
  {
    if items != [] {
      var first := Transform(items[0], definitions, peerIds).value;
      TransformKeepsRest(items[0], definitions, peerIds);
      TransformAllKeepsRest(items[1..], first.1, peerIds);
      var rest := TransformAll(items[1..], first.1, peerIds).value.0;
      forall k | 1 <= k < |items|
        ensures SameAround(items[k], ([first.0] + rest)[k], peerIds)
      {
        assert items[1..][k - 1] == items[k];
      }
    }
  }

  /** An annotated call whose service is not a string. */
  predicate Unnamed(call: Sexp) {
    call.Call? && call.definition.Some? && !call.service.Quoted?
  }

  /** Exactly such a call among those reached is the panic. */
  lemma {:induction false} PanicsExactly(s: Sexp, definitions: Definitions, peerIds: string -> string)
    ensures Transform(s, definitions, peerIds).None? <==> exists c :: c in Reached(s) && Unnamed(c)
    decreases s
  {
    match s {
      case Call(_, _, _, _, _, _) =>
        assert s in Reached(s);
      case List(items) =>
        if items != [] {
          PanicsInAllExactly(items[1..], definitions, peerIds);
        }
      case _ =>
    }
  }

  lemma {:induction false} PanicsInAllExactly(items: seq<Sexp>, definitions: Definitions, peerIds: string -> string)
    ensures TransformAll(items, definitions, peerIds).None? <==> exists c :: c in ReachedIn(items) && Unnamed(c)
    decreases items
  {
    if items != [] {
      var first := Transform(items[0], definitions, peerIds);
      PanicsExactly(items[0], definitions, peerIds);
      if first.Some? {
        PanicsInAllExactly(items[1..], first.value.1, peerIds);
      }
    }
  }

  lemma ReachedInCons(s: Sexp, items: seq<Sexp>)
    ensures ReachedIn([s] + items) == Reached(s) + ReachedIn(items)
  {
    assert ([s] + items)[1..] == items;
  }

  /** The k-th call's definition stands behind those of the calls before it. */
  lemma {:induction false} DefinitionAt(calls: seq<Sexp>, k: nat)
    requires k < |calls| && calls[k].Call? && calls[k].definition.Some?
    ensures |DefinitionsOf(calls[..k])| < |DefinitionsOf(calls)|
    ensures DefinitionsOf(calls)[|DefinitionsOf(calls[..k])|] == calls[k].definition.value
  {
    var n := |calls| - 1;
    if k < n {
      DefinitionAt(calls[..n], k);
      assert calls[..n][..k] == calls[..k];
    }
  }

  /**
   * Every annotated call a transformation reaches has an id of its own, and a request
   * made under its new service name is answered by its own definition, which is told
   * the original name: at once, and also when the store has grown since.
   */
  lemma EveryCallIsAnswered(s: Sexp, definitions: Definitions, peerIds: string -> string, later: Definitions, k: nat)
    requires Transform(s, definitions, peerIds).Some?
    requires Transform(s, definitions, peerIds).value.1 <= later && |later| <= S.USIZE_MAX
    requires k < |Reached(s)| && Reached(s)[k].definition.Some?
    ensures var calls, calls' := Reached(s), Reached(Transform(s, definitions, peerIds).value.0);
      && |calls'| == |calls| && calls[k].service.Quoted? && calls'[k].service.Quoted?
      && Dispatch(later, calls'[k].service.text) == Answered(calls[k].definition.value, calls[k].service.text)
    ensures forall j | 0 <= j < k && Reached(s)[j].definition.Some? ::
      IdOf(Reached(s), j, |definitions|) < IdOf(Reached(s), k, |definitions|)
  {
    var calls, id := Reached(s), IdOf(Reached(s), k, |definitions|);
    TransformRewrites(s, definitions, peerIds);
    var r := Transform(s, definitions, peerIds).value;
    assert IsRewritten(calls[k], Reached(r.0)[k], id, peerIds);
    DefinitionAt(calls, k);
    assert later[id] == r.1[id];
    NameLeadsBack(calls[k].service.text, id, later);
    forall j | 0 <= j < k && calls[j].definition.Some?
      ensures IdOf(calls, j, |definitions|) < id
    {
      assert calls[..k][..j] == calls[..j] && calls[..k][j] == calls[j];
      DefinitionAt(calls[..k], j);
    }
  }

  /** Exactly the names that end in two dots and a number are not left to other services. */
  lemma OthersAreLeftAlone(serviceId: string, definitions: Definitions)
    ensures Dispatch(definitions, serviceId) != NotDefined <==>
      exists name, suffix :: serviceId == name + ".." + suffix && ParseUsize(suffix).Some?
  {
    if name, suffix :| serviceId == name + ".." + suffix && ParseUsize(suffix).Some? {
      NumbersHaveNoDots(suffix);
      SplitAtLastDots(name, suffix);
    }
  }
}
