/**
 * A stream map fixed at a peer: the key-value objects in stream order and an index
 * from keys to the values put in under them.
 */
module CanonMaps {
  import opened Wrappers
  import opened Json
  import opened Errors

  type Index = map<StreamMapKey, seq<JValue>>

  datatype CanonMap = CanonMap(values: seq<JValue>, index: Index)

  function KeyOf(pair: JValue): Option<StreamMapKey> {
    if pair.JObject? && KEY_FIELD_NAME in pair.fields then KeyFromValue(pair.fields[KEY_FIELD_NAME]) else None
  }

  function ValueOf(pair: JValue): Option<JValue> {
    if pair.JObject? && VALUE_FIELD_NAME in pair.fields then Some(pair.fields[VALUE_FIELD_NAME]) else None
  }

  function Extend(index: Index, key: StreamMapKey, value: JValue): Index {
    index[key := (if key in index then index[key] else []) + [value]]
  }

  /** The error of the earliest pair that is not a key-value object. */
  function FirstBad(pairs: seq<JValue>): (r: Option<UncatchableError>)
    ensures r.Some? ==> r.value.UnsupportedKVPairObjectOrMapKeyType? || r.value.ValueFieldIsAbsent?
  {
    if pairs == [] then None
    else if KeyOf(pairs[0]).None? then Some(UnsupportedKVPairObjectOrMapKeyType)
    else if ValueOf(pairs[0]).None? then Some(ValueFieldIsAbsent)
    else FirstBad(pairs[1..])
  }

  function IndexOf(pairs: seq<JValue>): Index
    requires FirstBad(pairs).None?
  {
    if pairs == [] then map[]
    else
      var n := |pairs| - 1;
      AllGood(pairs, n);
      Extend(IndexOf(pairs[..n]), KeyOf(pairs[n]).value, ValueOf(pairs[n]).value)
  }

  lemma {:induction false} AllGood(pairs: seq<JValue>, n: nat)
    requires n < |pairs| && FirstBad(pairs).None?
    ensures KeyOf(pairs[n]).Some? && ValueOf(pairs[n]).Some? && FirstBad(pairs[..n]).None?
  {
    if n > 0 {
      AllGood(pairs[1..], n - 1);
      assert pairs[..n][1..] == pairs[1..][..n - 1];
    }
  }

  function FromStream(pairs: seq<JValue>): Result<CanonMap, UncatchableError> {
    match FirstBad(pairs)
    case Some(e) => Err(e)
    case None => Ok(CanonMap(pairs, IndexOf(pairs)))
  }

  /** The first pair that is not a key-value object decides, by what it lacks first. */
  lemma {:induction false} FirstBadExactly(pairs: seq<JValue>)
    ensures FromStream(pairs).Ok? <==> forall k | 0 <= k < |pairs| :: KeyOf(pairs[k]).Some? && ValueOf(pairs[k]).Some?
    ensures FromStream(pairs) == Err(UnsupportedKVPairObjectOrMapKeyType) <==> exists i :: IsFirstBad(pairs, i) && KeyOf(pairs[i]).None?
    ensures FromStream(pairs) == Err(ValueFieldIsAbsent) <==> exists i :: IsFirstBad(pairs, i) && KeyOf(pairs[i]).Some?
  {
    if pairs != [] {
      if KeyOf(pairs[0]).Some? && ValueOf(pairs[0]).Some? {
        FirstBadExactly(pairs[1..]);
        forall i: nat | IsFirstBad(pairs[1..], i)
          ensures IsFirstBad(pairs, i + 1) && KeyOf(pairs[i + 1]) == KeyOf(pairs[1..][i])
        {
        }
        forall i: nat | IsFirstBad(pairs, i)
          ensures i > 0 && IsFirstBad(pairs[1..], i - 1) && KeyOf(pairs[i]) == KeyOf(pairs[1..][i - 1])
        {
          assert forall k | 0 <= k < i - 1 :: pairs[1..][k] == pairs[k + 1];
        }
      } else {
        assert IsFirstBad(pairs, 0);
        assert forall i: nat | IsFirstBad(pairs, i) :: i == 0;
      }
    }
  }

  /** The pair at i lacks a key or a value, and none before it does. */
  predicate IsFirstBad(pairs: seq<JValue>, i: int) {
    && 0 <= i < |pairs| && (KeyOf(pairs[i]).None? || ValueOf(pairs[i]).None?)
    && forall k | 0 <= k < i :: KeyOf(pairs[k]).Some? && ValueOf(pairs[k]).Some?
  }

  lemma {:induction false} FirstBadOfPrefix(pairs: seq<JValue>, i: nat)
    requires i < |pairs| && FirstBad(pairs[..i]).None?
    ensures KeyOf(pairs[i]).None? ==> FirstBad(pairs) == Some(UnsupportedKVPairObjectOrMapKeyType)
    ensures KeyOf(pairs[i]).Some? && ValueOf(pairs[i]).None? ==> FirstBad(pairs) == Some(ValueFieldIsAbsent)
    ensures KeyOf(pairs[i]).Some? && ValueOf(pairs[i]).Some? ==> FirstBad(pairs[..i + 1]).None?
  {
    if i > 0 {
      assert pairs[..i][1..] == pairs[1..][..i - 1];
      assert pairs[..i + 1][1..] == pairs[1..][..i];
      FirstBadOfPrefix(pairs[1..], i - 1);
    }
  }

  /** Fills the index pair by pair. */
  method FromCanonStream(pairs: seq<JValue>) returns (r: Result<CanonMap, UncatchableError>)
    ensures r == FromStream(pairs)
  {
    var index: Index := map[];
    var i := 0;
    while i < |pairs|
      invariant 0 <= i <= |pairs|
      invariant FirstBad(pairs[..i]).None?
      invariant index == IndexOf(pairs[..i])
    {
      FirstBadOfPrefix(pairs, i);
      var key := KeyOf(pairs[i]);
      if key.None? {
        return Err(UnsupportedKVPairObjectOrMapKeyType);
      }
      var value := ValueOf(pairs[i]);
      if value.None? {
        return Err(ValueFieldIsAbsent);
      }
      assert pairs[..i + 1][..i] == pairs[..i];
      if key.value !in index {
        index := index[key.value := []];
      }
      index := index[key.value := index[key.value] + [value.value]];
      i := i + 1;
    }
    assert pairs[..|pairs|] == pairs;
    return Ok(CanonMap(pairs, index));
  }
}
