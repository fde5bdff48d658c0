/**
 * Canon maps made from what was put into a stream map. Fixing such a map never fails;
 * its index gives for every key the values put in under it, in order; and the pairs
 * with pairwise different key texts are the first ones of their text.
 */
module CanonMapLaws {
  import opened Wrappers
  import opened Json
  import opened CanonMaps
  import opened Errors

  datatype Insertion = Insertion(key: StreamMapKey, value: JValue)

  /** Keys are in the range of their types. */
  predicate AllValid(ins: seq<Insertion>) {
    forall i | 0 <= i < |ins| :: ins[i].key.Valid()
  }

  /** What the stream of the map holds. */
  function Pairs(ins: seq<Insertion>): seq<JValue> {
    seq(|ins|, i requires 0 <= i < |ins| => FromKeyValue(ins[i].key, ins[i].value))
  }

  /** A key as it is read back: an unsigned number that fits becomes a signed one. */
  function Canonical(key: StreamMapKey): StreamMapKey {
    match key
    case U64(u) => if IsI64(Int(u)) then I64(u) else key
    case _ => key
  }

  /** The values put in under a key, in order. */
  function ValuesUnder(ins: seq<Insertion>, key: StreamMapKey): seq<JValue> {
    if ins == [] then []
    else
      var last := ins[|ins| - 1];
      ValuesUnder(ins[..|ins| - 1], key) + if Canonical(last.key) == key then [last.value] else []
  }

  function IndexedAt(index: Index, key: StreamMapKey): seq<JValue> {
    if key in index then index[key] else []
  }

  lemma PairReadsBack(key: StreamMapKey, value: JValue)
    requires key.Valid()
    ensures KeyOf(FromKeyValue(key, value)) == Some(Canonical(key)) && ValueOf(FromKeyValue(key, value)) == Some(value)
  {
  }

  lemma {:induction false} InsertionsAreGood(ins: seq<Insertion>)
    requires AllValid(ins)
    ensures FirstBad(Pairs(ins)).None?
  {
    if ins != [] {
      PairReadsBack(ins[0].key, ins[0].value);
      assert Pairs(ins)[1..] == Pairs(ins[1..]);
      InsertionsAreGood(ins[1..]);
    }
  }

  /** The index at a key is exactly what was put in under it; keys without values are not in it. */
  lemma {:induction false} IndexIsSubsequence(ins: seq<Insertion>, key: StreamMapKey)
    requires AllValid(ins)
    ensures FirstBad(Pairs(ins)).None?
    ensures IndexedAt(IndexOf(Pairs(ins)), key) == ValuesUnder(ins, key)
    ensures key in IndexOf(Pairs(ins)) <==> ValuesUnder(ins, key) != []
  {
    InsertionsAreGood(ins);
    if ins != [] {
      var n := |ins| - 1;
      assert Pairs(ins)[..n] == Pairs(ins[..n]);
      PairReadsBack(ins[n].key, ins[n].value);
      IndexIsSubsequence(ins[..n], key);
    }
  }

  // ---- lengths ----

  /** The keys in the order they were first used. */
  function KeysOf(ins: seq<Insertion>): seq<StreamMapKey> {
    if ins == [] then []
    else
      var before, key := KeysOf(ins[..|ins| - 1]), Canonical(ins[|ins| - 1].key);
      if key in before then before else before + [key]
  }

  function TotalUnder(keys: seq<StreamMapKey>, ins: seq<Insertion>): nat {
    if keys == [] then 0 else |ValuesUnder(ins, keys[0])| + TotalUnder(keys[1..], ins)
  }

  predicate Distinct(keys: seq<StreamMapKey>) {
    forall i, j | 0 <= i < j < |keys| :: keys[i] != keys[j]
  }

  lemma {:induction false} KeysAreDistinct(ins: seq<Insertion>)
    ensures Distinct(KeysOf(ins))
    ensures forall key :: key in KeysOf(ins) <==> ValuesUnder(ins, key) != []
  {
    if ins != [] {
      KeysAreDistinct(ins[..|ins| - 1]);
    }
  }

  lemma {:induction false} TotalConcat(a: seq<StreamMapKey>, b: seq<StreamMapKey>, ins: seq<Insertion>)
    ensures TotalUnder(a + b, ins) == TotalUnder(a, ins) + TotalUnder(b, ins)
  {
    if a == [] {
      assert a + b == b;
    } else {
      assert (a + b)[1..] == a[1..] + b;
      TotalConcat(a[1..], b, ins);
    }
  }

  /** One more value counts once, if its key is counted at all. */
  lemma {:induction false} TotalOfOneMore(keys: seq<StreamMapKey>, ins: seq<Insertion>)
    requires ins != [] && Distinct(keys)
    ensures TotalUnder(keys, ins) == TotalUnder(keys, ins[..|ins| - 1]) + if Canonical(ins[|ins| - 1].key) in keys then 1 else 0
  {
    if keys != [] {
      assert forall i, j | 0 <= i < j < |keys[1..]| :: keys[1..][i] == keys[i + 1] && keys[1..][j] == keys[j + 1];
      TotalOfOneMore(keys[1..], ins);
      var key := Canonical(ins[|ins| - 1].key);
      if keys[0] == key {
        assert key !in keys[1..];
      }
      assert key in keys <==> key == keys[0] || key in keys[1..];
    }
  }

  /** The lengths over all keys add up to the length of the map. */
  lemma {:induction false} LengthsAddUp(ins: seq<Insertion>)
    requires AllValid(ins)
    ensures TotalUnder(KeysOf(ins), ins) == |ins|
    ensures FromStream(Pairs(ins)).Ok? && |FromStream(Pairs(ins)).value.values| == |ins|
    ensures forall key :: key in FromStream(Pairs(ins)).value.index <==> key in KeysOf(ins)
  {
    InsertionsAreGood(ins);
    forall key
      ensures key in FromStream(Pairs(ins)).value.index <==> key in KeysOf(ins)
    {
      IndexIsSubsequence(ins, key);
      KeysAreDistinct(ins);
    }
    if ins != [] {
      var init, key := ins[..|ins| - 1], Canonical(ins[|ins| - 1].key);
      LengthsAddUp(init);
      KeysAreDistinct(ins);
      TotalOfOneMore(KeysOf(ins), ins);
      if key !in KeysOf(init) {
        KeysAreDistinct(init);
        TotalConcat(KeysOf(init), [key], init);
        assert ValuesUnder(init, key) == [];
        assert TotalUnder([key], init) == |ValuesUnder(init, key)| + TotalUnder([], init);
      }
    }
  }

  // ---- unique keys ----

  /** Goes through the pairs and keeps those whose key text was not met before. */
  function UniqueFrom(pairs: seq<JValue>, met: set<string>): seq<(string, JValue)> {
    if pairs == [] then []
    else
      match KeyOf(pairs[0])
      case None => UniqueFrom(pairs[1..], met)
      case Some(key) =>
        if key.ToKey() in met then UniqueFrom(pairs[1..], met)
        else
          match ValueOf(pairs[0])
          case None => UniqueFrom(pairs[1..], met + {key.ToKey()})
          case Some(value) => [(key.ToKey(), value)] + UniqueFrom(pairs[1..], met + {key.ToKey()})
  }

  method IterUniqueKeyObject(pairs: seq<JValue>) returns (unique: seq<(string, JValue)>)
    ensures unique == UniqueFrom(pairs, {})
  {
    unique := [];
    var metKeys: set<string> := {};
    for i := 0 to |pairs|
      invariant unique + UniqueFrom(pairs[i..], metKeys) == UniqueFrom(pairs, {})
    {
      assert pairs[i..][1..] == pairs[i + 1..];
      var key := KeyOf(pairs[i]);
      if key.Some? && key.value.ToKey() !in metKeys {
        metKeys := metKeys + {key.value.ToKey()};
        var value := ValueOf(pairs[i]);
        if value.Some? {
          unique := unique + [(key.value.ToKey(), value.value)];
        }
      }
    }
  }

  /** Same for the key itself. */
  predicate FirstOfKey(ins: seq<Insertion>, i: nat)
    requires i < |ins|
  {
    forall j | 0 <= j < i :: Canonical(ins[j].key) != Canonical(ins[i].key)
  }

  lemma CanonicalKeepsText(key: StreamMapKey)
    ensures Canonical(key).ToKey() == key.ToKey()
  {
  }

  /** Key texts and values. */
  function Texted(ins: seq<Insertion>): seq<(string, JValue)> {
    seq(|ins|, i requires 0 <= i < |ins| => (ins[i].key.ToKey(), ins[i].value))
  }

  predicate FirstText(items: seq<(string, JValue)>, i: nat)
    requires i < |items|
  {
    forall j | 0 <= j < i :: items[j].0 != items[i].0
  }

  /** The text of this insertion's key was not used before. */
  predicate FirstOfText(ins: seq<Insertion>, i: nat)
    requires i < |ins|
  {
    FirstText(Texted(ins), i)
  }

  /** The items whose text is used for the first time, and is not in `met`. */
  function Firsts(items: seq<(string, JValue)>, met: set<string>): seq<(string, JValue)> {
    if items == [] then []
    else
      var n := |items| - 1;
      Firsts(items[..n], met) + if FirstText(items, n) && items[n].0 !in met then [items[n]] else []
  }

  lemma {:induction false} FirstsOfCons(x: (string, JValue), items: seq<(string, JValue)>, met: set<string>)
    ensures Firsts([x] + items, met) == (if x.0 in met then [] else [x]) + Firsts(items, met + {x.0})
  {
    var all := [x] + items;
    if items == [] {
      assert all == [x] && all[..0] == [];
    } else {
      var n := |items| - 1;
      FirstsOfCons(x, items[..n], met);
      assert all[..n + 1] == [x] + items[..n];
      FirstTextOfCons(x, items, n);
    }
  }

  lemma FirstTextOfCons(x: (string, JValue), items: seq<(string, JValue)>, n: nat)
    requires n < |items|
    ensures FirstText([x] + items, n + 1) <==> FirstText(items, n) && x.0 != items[n].0
  {
    var all := [x] + items;
    assert all[0] == x && all[n + 1] == items[n];
    assert forall j | 0 <= j < n :: all[j + 1] == items[j];
    if FirstText(items, n) && x.0 != items[n].0 {
      forall j | 0 <= j < n + 1
        ensures all[j].0 != all[n + 1].0
      {
        assert j > 0 ==> all[j] == items[j - 1];
      }
    }
  }

  /** What the iteration keeps are exactly the pairs that are the first ones of their text. */
  lemma {:induction false} UniqueIsFirsts(ins: seq<Insertion>, met: set<string>)
    requires AllValid(ins)
    ensures UniqueFrom(Pairs(ins), met) == Firsts(Texted(ins), met)
  {
    if ins != [] {
      var x := (ins[0].key.ToKey(), ins[0].value);
      UniqueStep(ins, met);
      UniqueIsFirsts(ins[1..], met + {x.0});
      assert Texted(ins) == [x] + Texted(ins[1..]);
      FirstsOfCons(x, Texted(ins[1..]), met);
      assert x.0 in met ==> met + {x.0} == met;
    }
  }

  lemma UniqueStep(ins: seq<Insertion>, met: set<string>)
    requires AllValid(ins) && ins != []
    ensures var text, rest := ins[0].key.ToKey(), Pairs(ins[1..]);
      UniqueFrom(Pairs(ins), met) ==
        if text in met then UniqueFrom(rest, met) else [(text, ins[0].value)] + UniqueFrom(rest, met + {text})
  {
    PairReadsBack(ins[0].key, ins[0].value);
    CanonicalKeepsText(ins[0].key);
    assert Pairs(ins)[1..] == Pairs(ins[1..]);
  }

  /** Keys with the same text are the same. */
  predicate NoClash(ins: seq<Insertion>) {
    forall i, j | 0 <= i < |ins| && 0 <= j < |ins| && ins[i].key.ToKey() == ins[j].key.ToKey() ::
      Canonical(ins[i].key) == Canonical(ins[j].key)
  }

  /** The pairs kept are the first ones of their keys exactly if no two different keys have the same text. */
  lemma UniqueIsFirstOfEveryKey(ins: seq<Insertion>)
    requires AllValid(ins)
    ensures (forall i | 0 <= i < |ins| :: FirstOfText(ins, i) <==> FirstOfKey(ins, i)) <==> NoClash(ins)
  {
    forall i | 0 <= i < |ins| && FirstOfText(ins, i)
      ensures FirstOfKey(ins, i)
    {
      forall j | 0 <= j < i
        ensures Canonical(ins[j].key) != Canonical(ins[i].key)
      {
        CanonicalKeepsText(ins[i].key);
        CanonicalKeepsText(ins[j].key);
        assert Texted(ins)[j].0 != Texted(ins)[i].0;
      }
    }
    if forall i | 0 <= i < |ins| :: FirstOfText(ins, i) <==> FirstOfKey(ins, i) {
      forall i, j | 0 <= i < |ins| && 0 <= j < |ins| && ins[i].key.ToKey() == ins[j].key.ToKey()
        ensures Canonical(ins[i].key) == Canonical(ins[j].key)
      {
        if j < i { SameTextSameKey(ins, j, i); } else { SameTextSameKey(ins, i, j); }
      }
    }
  }

  /** If the first of a text is the first of its key, later ones of the text have that key, too. */
  lemma {:induction false} SameTextSameKey(ins: seq<Insertion>, i: nat, j: nat)
    requires i <= j < |ins| && ins[i].key.ToKey() == ins[j].key.ToKey()
    requires forall k | 0 <= k < |ins| :: FirstOfText(ins, k) <==> FirstOfKey(ins, k)
    ensures Canonical(ins[i].key) == Canonical(ins[j].key)
    decreases i + j
  {
    if i < j {
      if exists k :: 0 <= k < i && ins[k].key.ToKey() == ins[i].key.ToKey() {
        var k :| 0 <= k < i && ins[k].key.ToKey() == ins[i].key.ToKey();
        SameTextSameKey(ins, k, i);
        SameTextSameKey(ins, k, j);
      } else {
        assert !FirstOfText(ins, j) by {
          assert Texted(ins)[i].0 == Texted(ins)[j].0;
        }
        var k :| 0 <= k < j && Canonical(ins[k].key) == Canonical(ins[j].key);
        CanonicalKeepsText(ins[k].key);
        CanonicalKeepsText(ins[j].key);
        if k >= i {
          SameTextSameKey(ins, i, k);
        } else {
          assert false;
        }
      }
    }
  }

  predicate HaveValues(keys: seq<StreamMapKey>, ins: seq<Insertion>) {
    forall k | k in keys :: ValuesUnder(ins, k) != []
  }

  /** Every key, as its text, with the first value put in under it. */
  function FirstPairs(keys: seq<StreamMapKey>, ins: seq<Insertion>): (r: seq<(string, JValue)>)
    requires HaveValues(keys, ins)
    ensures |r| == |keys| && forall i | 0 <= i < |keys| :: r[i] == (keys[i].ToKey(), ValuesUnder(ins, keys[i])[0])
  {
    seq(|keys|, i requires 0 <= i < |keys| => (keys[i].ToKey(), ValuesUnder(ins, keys[i])[0]))
  }

  predicate DistinctTexts(pairs: seq<(string, JValue)>) {
    forall i, j | 0 <= i < |pairs| && 0 <= j < |pairs| && i != j :: pairs[i].0 != pairs[j].0
  }

  lemma {:induction false} FirstsAreDistinct(items: seq<(string, JValue)>)
    ensures DistinctTexts(Firsts(items, {})) && forall p | p in Firsts(items, {}) :: p in items
  {
    if items != [] {
      var n := |items| - 1;
      FirstsAreDistinct(items[..n]);
      if FirstText(items, n) {
        forall p | p in Firsts(items[..n], {})
          ensures p.0 != items[n].0 && p in items
        {
          assert p in items[..n];
        }
      }
    }
  }

  /** Without clashes a key text is new exactly if the key is. */
  lemma NewTextNewKey(ins: seq<Insertion>)
    requires ins != [] && NoClash(ins)
    ensures var n := |ins| - 1; FirstOfText(ins, n) <==> Canonical(ins[n].key) !in KeysOf(ins[..n])
  {
    var n := |ins| - 1;
    var key := Canonical(ins[n].key);
    KeysAreDistinct(ins[..n]);
    UsedKeys(ins[..n], key);
    if key in KeysOf(ins[..n]) {
      var j :| 0 <= j < n && Canonical(ins[..n][j].key) == key;
      CanonicalKeepsText(ins[j].key);
      CanonicalKeepsText(ins[n].key);
      assert Texted(ins)[j].0 == Texted(ins)[n].0;
    } else {
      forall j | 0 <= j < n
        ensures Texted(ins)[j].0 != Texted(ins)[n].0
      {
        assert ins[..n][j] == ins[j];
      }
    }
  }

  lemma {:induction false} UsedKeys(ins: seq<Insertion>, key: StreamMapKey)
    ensures key in KeysOf(ins) <==> exists j | 0 <= j < |ins| :: Canonical(ins[j].key) == key
  {
    if ins != [] {
      var n := |ins| - 1;
      UsedKeys(ins[..n], key);
      if exists j | 0 <= j < n :: Canonical(ins[..n][j].key) == key {
        var j :| 0 <= j < n && Canonical(ins[..n][j].key) == key;
        assert Canonical(ins[j].key) == key;
      }
      if exists j | 0 <= j < |ins| :: Canonical(ins[j].key) == key {
        var j :| 0 <= j < |ins| && Canonical(ins[j].key) == key;
        assert j < n ==> Canonical(ins[..n][j].key) == key;
      }
      assert key == Canonical(ins[n].key) ==> key in KeysOf(ins);
    }
  }

  lemma {:induction false} FirstsAreFirstPairs(ins: seq<Insertion>)
    requires NoClash(ins)
    ensures HaveValues(KeysOf(ins), ins)
    ensures Firsts(Texted(ins), {}) == FirstPairs(KeysOf(ins), ins)
  {
    KeysAreDistinct(ins);
    if ins != [] {
      var n := |ins| - 1;
      FirstsAreFirstPairs(ins[..n]);
      NewTextNewKey(ins);
      assert Texted(ins)[..n] == Texted(ins[..n]);
      OneMorePair(ins);
    }
  }

  lemma OneMorePair(ins: seq<Insertion>)
    requires ins != []
    ensures HaveValues(KeysOf(ins), ins)
    ensures var n := |ins| - 1;
      HaveValues(KeysOf(ins[..n]), ins[..n]) &&
      FirstPairs(KeysOf(ins), ins) == FirstPairs(KeysOf(ins[..n]), ins[..n])
        + if Canonical(ins[n].key) in KeysOf(ins[..n]) then [] else [(ins[n].key.ToKey(), ins[n].value)]
  {
    var n := |ins| - 1;
    var init, key := ins[..n], Canonical(ins[n].key);
    KeysAreDistinct(ins);
    KeysAreDistinct(init);
    CanonicalKeepsText(ins[n].key);
    SameFirstPairs(KeysOf(init), init, ins);
    if key !in KeysOf(init) {
      assert KeysOf(ins) == KeysOf(init) + [key] && ValuesUnder(ins, key) == [] + [ins[n].value];
    }
  }

  lemma SameFirstPairs(keys: seq<StreamMapKey>, init: seq<Insertion>, ins: seq<Insertion>)
    requires ins != [] && init == ins[..|ins| - 1] && HaveValues(keys, init)
    ensures HaveValues(keys, ins) && FirstPairs(keys, ins) == FirstPairs(keys, init)
  {
  }

  /**
   * The iteration keeps for every key, in the order of first use, the first value put in
   * under it if and only if no two different keys have the same text.
   */
  lemma UniqueKeepsFirstValues(ins: seq<Insertion>)
    requires AllValid(ins)
    ensures HaveValues(KeysOf(ins), ins)
    ensures UniqueFrom(Pairs(ins), {}) == FirstPairs(KeysOf(ins), ins) <==> NoClash(ins)
  {
    KeysAreDistinct(ins);
    UniqueIsFirsts(ins, {});
    FirstsAreDistinct(Texted(ins));
    if NoClash(ins) {
      FirstsAreFirstPairs(ins);
    } else if DistinctTexts(FirstPairs(KeysOf(ins), ins)) {
      DistinctTextsDoNotClash(ins, FirstPairs(KeysOf(ins), ins));
      assert false;
    }
  }

  lemma DistinctTextsDoNotClash(ins: seq<Insertion>, pairs: seq<(string, JValue)>)
    requires |pairs| == |KeysOf(ins)| && forall i | 0 <= i < |pairs| :: pairs[i].0 == KeysOf(ins)[i].ToKey()
    requires DistinctTexts(pairs)
    ensures NoClash(ins)
  {
    forall i, j | 0 <= i < |ins| && 0 <= j < |ins| && ins[i].key.ToKey() == ins[j].key.ToKey()
      ensures Canonical(ins[i].key) == Canonical(ins[j].key)
    {
      UsedKeys(ins, Canonical(ins[i].key));
      UsedKeys(ins, Canonical(ins[j].key));
      CanonicalKeepsText(ins[i].key);
      CanonicalKeepsText(ins[j].key);
      SameTextOnce(KeysOf(ins), pairs, Canonical(ins[i].key), Canonical(ins[j].key));
    }
  }

  lemma SameTextOnce(keys: seq<StreamMapKey>, pairs: seq<(string, JValue)>, a: StreamMapKey, b: StreamMapKey)
    requires |pairs| == |keys| && forall i | 0 <= i < |pairs| :: pairs[i].0 == keys[i].ToKey()
    requires DistinctTexts(pairs) && a in keys && b in keys && a.ToKey() == b.ToKey()
    ensures a == b
  {
    var m :| 0 <= m < |keys| && keys[m] == a;
    var n :| 0 <= n < |keys| && keys[n] == b;
    assert pairs[m].0 == pairs[n].0;
  }

  // ---- which keys clash ----

  lemma {:induction false} NatDecimalsDiffer(a: nat, b: nat)
    requires NatDecimal(a) == NatDecimal(b)
    ensures a == b
  {
    var s, t := NatDecimal(a), NatDecimal(b);
    assert s[|s| - 1] == Digit(a % 10) && t[|t| - 1] == Digit(b % 10);
    NatDecimalIsNumber(a / 10);
    NatDecimalIsNumber(b / 10);
    if a >= 10 && b >= 10 {
      assert s[..|s| - 1] == NatDecimal(a / 10) && t[..|t| - 1] == NatDecimal(b / 10);
      NatDecimalsDiffer(a / 10, b / 10);
    }
  }

  lemma {:induction false} NatDecimalIsNumber(n: nat)
    ensures NatDecimal(n) != "" && '0' <= NatDecimal(n)[0] <= '9'
  {
    if n >= 10 {
      NatDecimalIsNumber(n / 10);
    }
  }

  /** Texts of integers tell them apart, whatever their signs. */
  lemma DecimalsDiffer(a: int, b: int)
    ensures Decimal(a) == Decimal(b) <==> a == b
  {
    if Decimal(a) == Decimal(b) {
      NatDecimalIsNumber(if a < 0 then -a else a);
      NatDecimalIsNumber(if b < 0 then -b else b);
      assert (a < 0) == (Decimal(a)[0] == '-') && (b < 0) == (Decimal(b)[0] == '-');
      if a < 0 {
        assert Decimal(a)[1..] == NatDecimal(-a) && Decimal(b)[1..] == NatDecimal(-b);
        NatDecimalsDiffer(-a, -b);
      } else {
        NatDecimalsDiffer(a, b);
      }
    }
  }

  predicate IsText(key: StreamMapKey, text: string) {
    key == Str(text)
  }

  predicate IsNumber(key: StreamMapKey, i: int) {
    key == I64(i) || key == U64(i)
  }

  /** Different keys clash exactly if one is an integer and the other the text of that integer. */
  lemma KeysClashExactly(a: StreamMapKey, b: StreamMapKey)
    requires a.Valid() && b.Valid()
    ensures a.ToKey() == b.ToKey() <==>
      || Canonical(a) == Canonical(b)
      || exists i :: (IsNumber(a, i) && IsText(b, Decimal(i))) || (IsText(a, Decimal(i)) && IsNumber(b, i))
  {
    var i := match a case Str(_) => (match b case Str(_) => 0 case U64(u) => u case I64(u) => u) case U64(u) => u case I64(u) => u;
    if !a.Str? && !b.Str? {
      DecimalsDiffer(i, match b case U64(u) => u case I64(u) => u);
    } else if a.ToKey() == b.ToKey() && a != b {
      assert (IsNumber(a, i) && IsText(b, Decimal(i))) || (IsText(a, Decimal(i)) && IsNumber(b, i));
    }
  }

  /** 42 and "42" have the same text: only the first of the two pairs is kept. */
  lemma NumbersAndTextsClash(a: JValue, b: JValue)
    ensures var ins := [Insertion(I64(42), a), Insertion(Str("42"), b)];
      && AllValid(ins) && !NoClash(ins)
      && UniqueFrom(Pairs(ins), {}) == [("42", a)]
  {
    var ins := [Insertion(I64(42), a), Insertion(Str("42"), b)];
    assert Decimal(42) == "42" by {
      assert NatDecimal(42) == NatDecimal(4) + [Digit(2)];
    }
    assert ins[0].key.ToKey() == ins[1].key.ToKey() && Canonical(ins[0].key) != Canonical(ins[1].key);
    UniqueStep(ins, {});
    UniqueStep(ins[1..], {"42"});
    assert ins[1..][0] == ins[1] && Pairs(ins[1..][1..]) == [];
  }
}
