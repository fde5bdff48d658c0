/**
 * Streams (and stream maps, which are streams of key-value objects) by name. Every
 * activation of a `new` pushes a stream restricted to the text of that `new`; the
 * global stream is made by the first value added outside of any restricted one.
 */
module Streams {
  import opened Wrappers
  import opened Json

  const USIZE_MAX: nat := 0xFFFF_FFFF_FFFF_FFFF

  datatype Span = Span(left: nat, right: nat) {
    predicate Contains(position: nat) {
      left < position < right
    }
  }

  const GLOBAL_SPAN := Span(0, USIZE_MAX)

  datatype StreamDescriptor = StreamDescriptor(span: Span, stream: seq<JValue>)

  type Store = map<string, seq<StreamDescriptor>>

  function Descriptors(store: Store, name: string): seq<StreamDescriptor> {
    if name in store then store[name] else []
  }

  /** The last descriptor whose text contains the position. */
  function FindClosest(ds: seq<StreamDescriptor>, position: nat): (r: Option<nat>)
    ensures r.Some? ==> r.value < |ds| && ds[r.value].span.Contains(position)
    ensures forall i | (if r.Some? then r.value else -1) < i < |ds| :: !ds[i].span.Contains(position)
  {
    if ds == [] then None
    else if ds[|ds| - 1].span.Contains(position) then Some(|ds| - 1)
    else FindClosest(ds[..|ds| - 1], position)
  }

  function Lookup(store: Store, name: string, position: nat): Option<seq<JValue>> {
    var ds := Descriptors(store, name);
    match FindClosest(ds, position)
    case Some(i) => Some(ds[i].stream)
    case None => None
  }

  function Add(store: Store, name: string, position: nat, value: JValue): Store {
    var ds := Descriptors(store, name);
    match FindClosest(ds, position)
    case Some(i) => store[name := ds[i := ds[i].(stream := ds[i].stream + [value])]]
    case None => store[name := [StreamDescriptor(GLOBAL_SPAN, [value])]]
  }

  function ScopeStart(store: Store, name: string, span: Span): Store {
    store[name := Descriptors(store, name) + [StreamDescriptor(span, [])]]
  }

  /** `None` is the failing unwrap of the source: there is nothing to pop. */
  function ScopeEnd(store: Store, name: string): Option<Store> {
    var ds := Descriptors(store, name);
    if ds == [] then None
    else if |ds| == 1 then Some(store - {name})
    else Some(store[name := ds[..|ds| - 1]])
  }

  /** What a stream holds at a position; nothing if there is none. */
  function HeldAt(store: Store, name: string, position: nat): seq<JValue> {
    match Lookup(store, name, position) case Some(values) => values case None => []
  }

  /**
   * A value is added behind those of the stream that is found at its position, and is
   * found there, unless it is a first one at a position that lies in no text. All other
   * streams hold what they held, except that a stream made for it is the only one of its name.
   */
  lemma AddAppends(store: Store, name: string, position: nat, value: JValue)
    ensures var store' := Add(store, name, position, value);
      && (Lookup(store', name, position) == Some(HeldAt(store, name, position) + [value]) <==>
            Lookup(store, name, position).Some? || GLOBAL_SPAN.Contains(position))
      && (forall other | other != name :: Descriptors(store', other) == Descriptors(store, other))
      && var ds, ds' := Descriptors(store, name), Descriptors(store', name);
         if Lookup(store, name, position).None? then |ds'| == 1 && ds'[0].span == GLOBAL_SPAN
         else
           && |ds'| == |ds|
           && forall i | 0 <= i < |ds| ::
                && ds'[i].span == ds[i].span
                && (ds'[i] == ds[i] || (ds[i].span.Contains(position) && forall j | i < j < |ds| :: !ds[j].span.Contains(position)))
  {
    var ds, ds' := Descriptors(store, name), Descriptors(Add(store, name, position, value), name);
    var found, found' := FindClosest(ds, position), FindClosest(ds', position);
    if found.Some? {
      assert forall i | 0 <= i < |ds| :: ds'[i].span == ds[i].span;
      assert ds'[found.value].span.Contains(position);
      assert found'.Some?;
      assert found' == found;
    } else {
      assert ds' == [StreamDescriptor(GLOBAL_SPAN, [value])] && [] + [value] == [value];
      assert GLOBAL_SPAN.Contains(position) ==> found' == Some(0);
    }
  }

  class StreamVariables {
    var streams: Store

    constructor ()
      ensures streams == map[]
    {
      streams := map[];
    }

    method FindClosestIndex(name: string, position: nat) returns (r: Option<nat>)
      ensures r == FindClosest(Descriptors(streams, name), position)
    {
      if name !in streams {
        return None;
      }
      var descriptors := streams[name];
      var i := |descriptors|;
      while i > 0
        invariant 0 <= i <= |descriptors|
        invariant FindClosest(descriptors, position) == FindClosest(descriptors[..i], position)
      {
        assert descriptors[..i][..i - 1] == descriptors[..i - 1];
        i := i - 1;
        if descriptors[i].span.Contains(position) {
          return Some(i);
        }
      }
      return None;
    }

    method Get(name: string, position: nat) returns (r: Option<seq<JValue>>)
      ensures r == Lookup(streams, name, position)
    {
      var i := FindClosestIndex(name, position);
      if i.None? {
        return None;
      }
      return Some(streams[name][i.value].stream);
    }

    method AddStreamValue(name: string, position: nat, value: JValue)
      modifies this
      ensures streams == Add(old(streams), name, position, value)
    {
      var i := FindClosestIndex(name, position);
      if i.Some? {
        var descriptor := streams[name][i.value];
        streams := streams[name := streams[name][i.value := descriptor.(stream := descriptor.stream + [value])]];
      } else {
        streams := streams[name := [StreamDescriptor(GLOBAL_SPAN, [value])]];
      }
    }

    method AddStreamMapValue(name: string, position: nat, key: StreamMapKey, value: JValue)
      modifies this
      ensures streams == Add(old(streams), name, position, FromKeyValue(key, value))
    {
      AddStreamValue(name, position, FromKeyValue(key, value));
    }

    method MeetScopeStart(name: string, span: Span)
      modifies this
      ensures streams == ScopeStart(old(streams), name, span)
    {
      var descriptor := StreamDescriptor(span, []);
      if name in streams {
        streams := streams[name := streams[name] + [descriptor]];
      } else {
        streams := streams[name := [descriptor]];
      }
      assert [] + [descriptor] == [descriptor];
    }

    /** Returns false where the source unwraps a missing descriptor. */
    method MeetScopeEnd(name: string) returns (popped: bool)
      modifies this
      ensures popped <==> ScopeEnd(old(streams), name).Some?
      ensures streams == if popped then ScopeEnd(old(streams), name).value else old(streams)
    {
      if name !in streams || streams[name] == [] {
        return false;
      }
      var descriptors := streams[name];
      streams := streams[name := descriptors[..|descriptors| - 1]];
      if |descriptors| == 1 {
        streams := streams - {name};
      }
      return true;
    }
  }
}
