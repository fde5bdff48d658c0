/**
 * The content-addressed stores of the interpreter's data: what a content identifier
 * (a CID of version 1, in the Multiformats CID specification) says about a value, how a
 * store is checked, merged and extended.
 */
module CidStores {
  import opened Wrappers

  const JSON_CODEC: nat := 0x0200

  datatype HashCode = Sha2_256 | Blake3_256 | OtherHash(code: nat)

  /** A hash without collisions: the digest of a value determines the value. */
  datatype Digest<T> = HashOf(code: HashCode, value: T) | OtherBytes(bytes: seq<nat>)

  datatype Cid<T> = Cid(codec: nat, code: HashCode, digest: Digest<T>) | Malformed(text: string)

  type Store<T(==)> = map<Cid<T>, T>

  datatype VerificationError =
    | ValueMismatch
    | MalformedCid
    | UnsupportedCidCodec(codec: nat)
    | UnsupportedHashCode(code: nat)
    | MissingReference

  /** The identifier the interpreter gives to a value. */
  function CidOf<T>(value: T): Cid<T> {
    Cid(JSON_CODEC, Blake3_256, HashOf(Blake3_256, value))
  }

  function VerifyValue<T(==)>(cid: Cid<T>, value: T): Result<(), VerificationError> {
    match cid
    case Malformed(_) => Err(MalformedCid)
    case Cid(codec, code, digest) =>
      if codec != JSON_CODEC then Err(UnsupportedCidCodec(codec))
      else if code.OtherHash? then Err(UnsupportedHashCode(code.code))
      else if digest == HashOf(code, value) then Ok(())
      else Err(ValueMismatch)
  }

  /** Every value is the one its identifier stands for. */
  ghost predicate Correct<T>(store: Store<T>) {
    forall cid {:trigger cid in store} :: cid in store ==> Names(cid, store[cid])
  }

  ghost predicate Names<T>(cid: Cid<T>, value: T) {
    cid.Cid? && cid.codec == JSON_CODEC && !cid.code.OtherHash? && cid.digest == HashOf(cid.code, value)
  }

  /** Nothing disappears or changes. */
  ghost predicate Extends<T>(store: Store<T>, store': Store<T>) {
    forall cid {:trigger cid in store} {:trigger cid in store'} :: cid in store ==> cid in store' && store'[cid] == store[cid]
  }

  /** Checks the values one by one. */
  method VerifyStore<T(==)>(store: Store<T>) returns (r: Result<(), VerificationError>)
    ensures r.Ok? <==> Correct(store)
    ensures r.Err? ==> exists cid :: cid in store && VerifyValue(cid, store[cid]) == r
  {
    var todo := store.Keys;
    while todo != {}
      invariant todo <= store.Keys
      invariant forall cid | cid in store.Keys - todo :: Names(cid, store[cid])
      decreases todo
    {
      var cid :| cid in todo;
      todo := todo - {cid};
      r := VerifyValue(cid, store[cid]);
      if r.Err? {
        return r;
      }
    }
    return Ok(());
  }

  class CidTracker<T(==)> {
    var cids: Store<T>

    constructor ()
      ensures cids == map[]
    {
      cids := map[];
    }

    /** The current values go over the previous ones. */
    constructor FromCidStores(previous: Store<T>, current: Store<T>)
      ensures cids == previous + current
    {
      cids := previous;
      new;
      var todo := current.Keys;
      while todo != {}
        invariant todo <= current.Keys
        invariant cids == previous + (map cid | cid in current.Keys - todo :: current[cid])
        decreases todo
      {
        var cid :| cid in todo;
        todo := todo - {cid};
        cids := cids[cid := current[cid]];
      }
      assert (map cid | cid in current.Keys - todo :: current[cid]) == current;
    }

    method Get(cid: Cid<T>) returns (r: Option<T>)
      ensures r == if cid in cids then Some(cids[cid]) else None
    {
      if cid in cids {
        return Some(cids[cid]);
      }
      return None;
    }

    method TrackValue(value: T) returns (cid: Cid<T>)
      modifies this
      ensures cid == CidOf(value) && cids == old(cids)[cid := value]
    {
      cid := CidOf(value);
      cids := cids[cid := value];
    }
  }

  // ---- one store ----

  lemma SameValue<T>(cid: Cid<T>, a: T, b: T)
    requires Names(cid, a) && Names(cid, b)
    ensures a == b
  {
  }

  /** Correct stores agree, so merging them keeps both. */
  lemma MergeKeepsBoth<T>(previous: Store<T>, current: Store<T>)
    requires Correct(previous) && Correct(current)
    ensures Correct(previous + current) && Extends(previous, previous + current) && Extends(current, previous + current)
  {
    forall cid | cid in previous && cid in current
      ensures previous[cid] == current[cid]
    {
      SameValue(cid, previous[cid], current[cid]);
    }
  }

  lemma TrackKeeps<T>(store: Store<T>, value: T)
    requires Correct(store)
    ensures Correct(store[CidOf(value) := value]) && Extends(store, store[CidOf(value) := value])
  {
    if CidOf(value) in store {
      SameValue(CidOf(value), store[CidOf(value)], value);
    }
  }
}
