/**
 * Lenses. Selecting by a path from a canon stream or a canon map is compared with
 * selecting by the path from the plain JSON value the stream or the map stands for.
 */
module Lenses {
  import opened Wrappers
  import opened Json
  import opened CanonMaps
  import Laws = CanonMapLaws

  datatype Accessor = ArrayAccess(idx: nat) | FieldAccessByName(field: string) | FieldAccessByScalar(scalar: string)

  type Path = seq<Accessor>

  /** What a scalar name in a path stands for. */
  datatype ScalarRef = Value(v: JValue) | IterableValue(v: JValue)

  datatype LambdaError =
    | ScalarNotFound(name: string)
    | CanonStreamNotHaveEnoughValues(size: nat, idx: nat)
    | FieldAccessorAppliedToStream(field: string)
    | ArrayAccessorNotMatchValue
    | ValueNotContainSuchArrayIdx(idx: nat)
    | FieldAccessorNotMatchValue
    | ValueNotContainSuchField(field: string)
    | IndexAccessNotU32
    | ScalarAccessorHasInvalidType
    | StreamAccessorHasInvalidType
    | CanonStreamMapAccessorHasInvalidType
    | CanonStreamMapAccessorMustNotBeIterable

  type Env = map<string, ScalarRef>

  type Selected = Result<JValue, LambdaError>

  // ---- single steps ----

  function AtIdx(value: JValue, idx: nat): Selected {
    if !value.JArray? then Err(ArrayAccessorNotMatchValue)
    else if idx < |value.items| then Ok(value.items[idx])
    else Err(ValueNotContainSuchArrayIdx(idx))
  }

  function AtField(value: JValue, field: string): Selected {
    if !value.JObject? then Err(FieldAccessorNotMatchValue)
    else if field in value.fields then Ok(value.fields[field])
    else Err(ValueNotContainSuchField(field))
  }

  function NumberToU32(n: Num): Result<nat, LambdaError> {
    if n.Int? && 0 <= n.i < 0x1_0000_0000 then Ok(n.i) else Err(IndexAccessNotU32)
  }

  function SelectByValue(value: JValue, accessor: JValue): Selected {
    match accessor
    case JString(field) => AtField(value, field)
    case JNumber(n) => (match NumberToU32(n) case Ok(idx) => AtIdx(value, idx) case Err(e) => Err(e))
    case _ => Err(ScalarAccessorHasInvalidType)
  }

  function AsIdx(accessor: JValue): Result<nat, LambdaError> {
    match accessor
    case JNumber(n) => NumberToU32(n)
    case _ => Err(StreamAccessorHasInvalidType)
  }

  function SelectOne(value: JValue, accessor: Accessor, env: Env): Selected {
    match accessor
    case ArrayAccess(idx) => AtIdx(value, idx)
    case FieldAccessByName(field) => AtField(value, field)
    case FieldAccessByScalar(name) => if name in env then SelectByValue(value, env[name].v) else Err(ScalarNotFound(name))
  }

  /** What an accessor stands for: itself, or what is in its scalar. */
  ghost predicate StandsForIdx(accessor: Accessor, env: Env, idx: nat) {
    || accessor == ArrayAccess(idx)
    || (accessor.FieldAccessByScalar? && accessor.scalar in env && env[accessor.scalar].v == JNumber(Int(idx)) && idx < 0x1_0000_0000)
  }

  ghost predicate StandsForField(accessor: Accessor, env: Env, field: string) {
    || accessor == FieldAccessByName(field)
    || (accessor.FieldAccessByScalar? && accessor.scalar in env && env[accessor.scalar].v == JString(field))
  }

  /** The accessor leads from a value to one of its items or fields. */
  ghost predicate LeadsTo(value: JValue, accessor: Accessor, env: Env, next: JValue) {
    || (value.JArray? && exists idx: nat {:trigger value.items[idx]} ::
          StandsForIdx(accessor, env, idx) && idx < |value.items| && next == value.items[idx])
    || (value.JObject? && exists field {:trigger field in value.fields} ::
          StandsForField(accessor, env, field) && field in value.fields && next == value.fields[field])
  }

  lemma StepsExactly(value: JValue, accessor: Accessor, env: Env, next: JValue)
    ensures SelectOne(value, accessor, env) == Ok(next) <==> LeadsTo(value, accessor, env, next)
  {
    if SelectOne(value, accessor, env) == Ok(next) {
      if value.JArray? {
        var idx: nat :| StandsForIdx(accessor, env, idx) && idx < |value.items| && next == value.items[idx];
      } else {
        var field :| StandsForField(accessor, env, field) && field in value.fields && next == value.fields[field];
      }
    }
  }

  /** Which steps lead nowhere, and why. */
  lemma StepFailsExactly(value: JValue, accessor: Accessor, env: Env, idx: nat, field: string, name: string)
    ensures var r := SelectOne(value, accessor, env);
      && (r == Err(ScalarNotFound(name)) <==> accessor == FieldAccessByScalar(name) && name !in env)
      && (StandsForIdx(accessor, env, idx) ==>
            && (r == Err(ArrayAccessorNotMatchValue) <==> !value.JArray?)
            && (r == Err(ValueNotContainSuchArrayIdx(idx)) <==> value.JArray? && idx >= |value.items|))
      && (StandsForField(accessor, env, field) ==>
            && (r == Err(FieldAccessorNotMatchValue) <==> !value.JObject?)
            && (r == Err(ValueNotContainSuchField(field)) <==> value.JObject? && field !in value.fields))
      && (r == Err(IndexAccessNotU32) <==>
            && accessor.FieldAccessByScalar? && accessor.scalar in env && env[accessor.scalar].v.JNumber?
            && forall i: nat :: !StandsForIdx(accessor, env, i))
      && (r == Err(ScalarAccessorHasInvalidType) <==>
            && accessor.FieldAccessByScalar? && accessor.scalar in env
            && !env[accessor.scalar].v.JNumber? && !env[accessor.scalar].v.JString?)
  {
    if accessor.FieldAccessByScalar? && accessor.scalar in env && env[accessor.scalar].v.JNumber? {
      var n := env[accessor.scalar].v.n;
      if n.Int? && 0 <= n.i {
        assert StandsForIdx(accessor, env, n.i) <==> n.i < 0x1_0000_0000;
      }
    }
  }

  // ---- paths ----

  function Select(value: JValue, path: Path, env: Env): Selected {
    if path == [] then Ok(value)
    else
      match SelectOne(value, path[0], env)
      case Ok(next) => Select(next, path[1..], env)
      case Err(e) => Err(e)
  }

  /** Goes down the path step by step. */
  method SelectByPathFromScalar(value: JValue, path: Path, env: Env) returns (r: Selected)
    ensures r == Select(value, path, env)
  {
    var current := value;
    for i := 0 to |path|
      invariant Select(value, path, env) == Select(current, path[i..], env)
    {
      assert path[i..][1..] == path[i + 1..];
      var next := SelectOne(current, path[i], env);
      if next.Err? {
        return next;
      }
      current := next.value;
    }
    return Ok(current);
  }

  /** A path selects what its second part selects from what its first part selects. */
  lemma {:induction false} SelectComposes(value: JValue, a: Path, b: Path, env: Env)
    ensures Select(value, a + b, env) ==
      match Select(value, a, env) case Ok(v) => Select(v, b, env) case Err(e) => Err(e)
  {
    if a == [] {
      assert a + b == b;
    } else {
      assert (a + b)[1..] == a[1..] + b;
      var next := SelectOne(value, a[0], env);
      if next.Ok? {
        SelectComposes(next.value, a[1..], b, env);
      }
    }
  }

  /** From value to value along the path. */
  ghost predicate Trail(values: seq<JValue>, path: Path, env: Env) {
    && |values| == |path| + 1
    && forall k | 0 <= k < |path| :: LeadsTo(values[k], path[k], env, values[k + 1])
  }

  lemma TrailSplits(values: seq<JValue>, path: Path, env: Env)
    requires path != [] && |values| == |path| + 1
    ensures Trail(values, path, env) <==> LeadsTo(values[0], path[0], env, values[1]) && Trail(values[1..], path[1..], env)
  {
    if Trail(values, path, env) {
      forall k | 0 <= k < |path| - 1
        ensures LeadsTo(values[1..][k], path[1..][k], env, values[1..][k + 1])
      {
        assert LeadsTo(values[k + 1], path[k + 1], env, values[k + 2]);
      }
    }
    if Trail(values[1..], path[1..], env) {
      forall k | 1 <= k < |path|
        ensures LeadsTo(values[k], path[k], env, values[k + 1])
      {
        assert LeadsTo(values[1..][k - 1], path[1..][k - 1], env, values[1..][k]);
      }
    }
  }

  /** A path selects exactly what it leads to. */
  lemma {:induction false} SelectsExactly(value: JValue, path: Path, env: Env, found: JValue)
    ensures Select(value, path, env) == Ok(found) <==>
      exists values :: Trail(values, path, env) && values[0] == value && values[|path|] == found
  {
    if path == [] {
      assert Trail([value], path, env);
    } else {
      var rest := path[1..];
      if Select(value, path, env) == Ok(found) {
        var next := SelectOne(value, path[0], env).value;
        StepsExactly(value, path[0], env, next);
        SelectsExactly(next, rest, env, found);
        var values :| Trail(values, rest, env) && values[0] == next && values[|rest|] == found;
        var all := [value] + values;
        assert all[1..] == values;
        TrailSplits(all, path, env);
        assert Trail(all, path, env) && all[0] == value && all[|path|] == found;
      }
      if values :| Trail(values, path, env) && values[0] == value && values[|path|] == found {
        TrailSplits(values, path, env);
        StepsExactly(value, path[0], env, values[1]);
        SelectsExactly(values[1], rest, env, found);
      }
    }
  }

  // ---- canon streams ----

  /** The index a path into a stream begins with. */
  function SplitToIdx(path: Path, env: Env): Result<nat, LambdaError>
    requires path != []
  {
    match path[0]
    case ArrayAccess(idx) => Ok(idx)
    case FieldAccessByName(field) => Err(FieldAccessorAppliedToStream(field))
    case FieldAccessByScalar(name) => if name in env then AsIdx(env[name].v) else Err(ScalarNotFound(name))
  }

  function SelectFromStream(values: seq<JValue>, path: Path, env: Env): Selected
    requires path != []
  {
    match SplitToIdx(path, env)
    case Err(e) => Err(e)
    case Ok(idx) =>
      if idx < |values| then Select(values[idx], path[1..], env)
      else Err(CanonStreamNotHaveEnoughValues(|values|, idx))
  }

  predicate SameSelection(a: Selected, b: Selected) {
    (a.Ok? <==> b.Ok?) && (a.Ok? ==> a.value == b.value)
  }

  /** A path selects from a canon stream what it selects from the array of its values, and fails when that fails. */
  lemma StreamIsArray(values: seq<JValue>, path: Path, env: Env)
    requires path != []
    ensures SameSelection(SelectFromStream(values, path, env), Select(JArray(values), path, env))
  {
  }

  // ---- canon maps ----

  /** The key a path into a map begins with. */
  function MapKey(accessor: Accessor, env: Env): Result<StreamMapKey, LambdaError> {
    match accessor
    case ArrayAccess(idx) => Ok(I64(idx))
    case FieldAccessByName(field) => Ok(Str(field))
    case FieldAccessByScalar(name) =>
      if name !in env then Err(ScalarNotFound(name))
      else
        match env[name]
        case IterableValue(_) => Err(CanonStreamMapAccessorMustNotBeIterable)
        case Value(v) =>
          match KeyFromValue(v)
          case Some(key) => Ok(key)
          case None => Err(CanonStreamMapAccessorHasInvalidType)
  }

  /** A key is the form in which a string or an integer is looked up; what fits the signed range is signed. */
  ghost predicate IsKeyOf(key: StreamMapKey, v: JValue) {
    match key
    case Str(s) => v == JString(s)
    case I64(i) => v == JNumber(Int(i)) && -0x8000_0000_0000_0000 <= i < 0x8000_0000_0000_0000
    case U64(u) => v == JNumber(Int(u)) && 0x8000_0000_0000_0000 <= u < 0x1_0000_0000_0000_0000
  }

  /** The key an accessor stands for; the element of an iterator is not taken. */
  ghost predicate StandsForKey(accessor: Accessor, env: Env, key: StreamMapKey) {
    match accessor
    case ArrayAccess(idx) => key == I64(idx)
    case FieldAccessByName(field) => key == Str(field)
    case FieldAccessByScalar(name) => name in env && env[name].Value? && IsKeyOf(key, env[name].v)
  }

  lemma KeysExactly(accessor: Accessor, env: Env, key: StreamMapKey)
    ensures MapKey(accessor, env) == Ok(key) <==> StandsForKey(accessor, env, key)
  {
  }

  /** A missing key selects an empty array, whatever the rest of the path is. */
  function SelectFromMap(canonMap: CanonMap, path: Path, env: Env): Selected
    requires path != []
  {
    match MapKey(path[0], env)
    case Err(e) => Err(e)
    case Ok(key) =>
      if key !in canonMap.index then Ok(JArray([]))
      else if path[1..] == [] then Ok(JArray(canonMap.index[key]))
      else SelectFromStream(canonMap.index[key], path[1..], env)
  }

  /** A JSON object of the map: for every key text the values of a key that has this text. */
  ghost predicate IsObjectOf(canonMap: CanonMap, value: JValue) {
    && value.JObject?
    && (forall key {:trigger key in canonMap.index} :: key in canonMap.index ==> key.ToKey() in value.fields)
    && (forall text {:trigger text in value.fields} :: text in value.fields ==> HasText(canonMap, text, value.fields[text]))
  }

  ghost predicate HasText(canonMap: CanonMap, text: string, value: JValue) {
    exists key :: key in canonMap.index && key.ToKey() == text && value == JArray(canonMap.index[key])
  }

  /** The path a key and the rest of a path amount to in a JSON object. */
  function ObjectPath(key: StreamMapKey, path: Path): Path
    requires path != []
  {
    [FieldAccessByName(key.ToKey())] + path[1..]
  }

  /** No other key with the same text has other values. */
  ghost predicate Unambiguous(canonMap: CanonMap, key: StreamMapKey)
    requires key in canonMap.index
  {
    forall other | other in canonMap.index && other.ToKey() == key.ToKey() :: canonMap.index[other] == canonMap.index[key]
  }

  lemma MapIsObjectHere(canonMap: CanonMap, key: StreamMapKey, path: Path, env: Env, value: JValue)
    requires path != [] && StandsForKey(path[0], env, key) && key in canonMap.index && IsObjectOf(canonMap, value)
    requires value.fields[key.ToKey()] == JArray(canonMap.index[key])
    ensures SameSelection(SelectFromMap(canonMap, path, env), Select(value, ObjectPath(key, path), env))
  {
    var objectPath := ObjectPath(key, path);
    assert objectPath[1..] == path[1..];
    if path[1..] != [] {
      StreamIsArray(canonMap.index[key], path[1..], env);
    }
  }

  /**
   * For a key of the map, a path selects from the map what it selects from any JSON
   * object of the map, if no other key with the same text has other values.
   */
  lemma MapIsObject(canonMap: CanonMap, key: StreamMapKey, path: Path, env: Env, value: JValue)
    requires path != [] && StandsForKey(path[0], env, key) && key in canonMap.index && IsObjectOf(canonMap, value)
    requires Unambiguous(canonMap, key)
    ensures SameSelection(SelectFromMap(canonMap, path, env), Select(value, ObjectPath(key, path), env))
  {
    assert HasText(canonMap, key.ToKey(), value.fields[key.ToKey()]);
    MapIsObjectHere(canonMap, key, path, env, value);
  }

  /** An object of the map in which this key has its say. */
  lemma ObjectFor(canonMap: CanonMap, key: StreamMapKey) returns (value: JValue)
    requires key in canonMap.index
    ensures IsObjectOf(canonMap, value) && value.fields[key.ToKey()] == JArray(canonMap.index[key])
  {
    var texts := set k | k in canonMap.index :: k.ToKey();
    var fields: map<string, JValue> := map[];
    var todo := texts;
    while todo != {}
      invariant todo <= texts
      invariant forall text {:trigger text in fields} :: text in fields <==> text in texts && text !in todo
      invariant forall text {:trigger text in fields} :: text in fields ==> HasText(canonMap, text, fields[text])
      decreases todo
    {
      var text :| text in todo;
      todo := todo - {text};
      var k :| k in canonMap.index && k.ToKey() == text;
      fields := fields[text := JArray(canonMap.index[k])];
      assert HasText(canonMap, text, fields[text]);
    }
    fields := fields[key.ToKey() := JArray(canonMap.index[key])];
    assert HasText(canonMap, key.ToKey(), fields[key.ToKey()]);
    assert forall k {:trigger k in canonMap.index} :: k in canonMap.index ==> k.ToKey() in texts;
    value := JObject(fields);
  }

  /**
   * Exactly then: if another key with the same text has other values, there is an
   * object of the map in which the text stands for those.
   */
  lemma AmbiguousKeysDiffer(canonMap: CanonMap, key: StreamMapKey)
    requires key in canonMap.index
    ensures Unambiguous(canonMap, key) <==>
      forall value | IsObjectOf(canonMap, value) :: value.fields[key.ToKey()] == JArray(canonMap.index[key])
  {
    if Unambiguous(canonMap, key) {
      forall value | IsObjectOf(canonMap, value)
        ensures value.fields[key.ToKey()] == JArray(canonMap.index[key])
      {
        assert HasText(canonMap, key.ToKey(), value.fields[key.ToKey()]);
      }
    } else {
      var other :| other in canonMap.index && other.ToKey() == key.ToKey() && canonMap.index[other] != canonMap.index[key];
      var value := ObjectFor(canonMap, other);
      assert IsObjectOf(canonMap, value) && value.fields[key.ToKey()] != JArray(canonMap.index[key]);
    }
  }

  /** A missing key is where the two differ: the map gives an empty array, its objects have no such field. */
  lemma MissingKeysDiffer(canonMap: CanonMap, key: StreamMapKey, path: Path, env: Env, value: JValue)
    requires path != [] && StandsForKey(path[0], env, key) && IsObjectOf(canonMap, value)
    requires forall other | other in canonMap.index && other.ToKey() == key.ToKey() :: other == key
    ensures SameSelection(SelectFromMap(canonMap, path, env), Select(value, ObjectPath(key, path), env)) <==> key in canonMap.index
    ensures key !in canonMap.index ==> SelectFromMap(canonMap, path, env) == Ok(JArray([]))
  {
    if key in canonMap.index {
      MapIsObject(canonMap, key, path, env, value);
    } else {
      assert key.ToKey() in value.fields ==> HasText(canonMap, key.ToKey(), value.fields[key.ToKey()]);
    }
  }

  /** From a map filled by insertions an accessor selects the values put in under its key, in the order they were put in. */
  lemma MapSelectsInsertions(ins: seq<Laws.Insertion>, accessor: Accessor, env: Env, key: StreamMapKey)
    requires Laws.AllValid(ins) && StandsForKey(accessor, env, key)
    ensures FromStream(Laws.Pairs(ins)).Ok?
    ensures SelectFromMap(FromStream(Laws.Pairs(ins)).value, [accessor], env) == Ok(JArray(Laws.ValuesUnder(ins, key)))
  {
    Laws.IndexIsSubsequence(ins, key);
    KeysExactly(accessor, env, key);
  }
}
