/**
 * The key-value backend both components are built on (the portworx kvdb
 * interface). A store maps keys to values, counts its mutations in a version
 * number, and may be unreachable: while `fault` holds a reason every call fails
 * with that reason and changes nothing. Values are typed: each stands for the
 * bytes its JSON encoding would produce, and that encoding is taken to be
 * injective, so comparing values is comparing stored bytes.
 */
module Kv {
  import opened Common
  import opened Strings

  /** The errors the backend reports. */
  datatype KvError =
    | ErrNotFound              // the key is absent
    | ErrExist                 // Create on a key that is present
    | ErrValueMismatch         // CompareAndSet saw other bytes than expected
    | ErrUnmarshal             // GetVal could not decode the stored bytes
    | Unavailable(reason: string)

  /** The text of an error, as `err.Error()` prints it. */
  function Message(e: KvError): string {
    match e
    case ErrNotFound => "Key not found"
    case ErrExist => "Key already exists"
    case ErrValueMismatch => "Value mismatch"
    case ErrUnmarshal => "Failed to unmarshal value"
    case Unavailable(reason) => reason
  }

  datatype Store<V> = Store(data: map<string, V>, version: nat, fault: Option<string>)

  /** A key/value pair as Enumerate returns it. */
  type Pair<V> = (string, V)

  /** The state after a successful mutation to `data`. */
  function Write<V>(s: Store<V>, data: map<string, V>): Store<V> {
    Store(data, s.version + 1, s.fault)
  }

  function Get<V>(s: Store<V>, key: string): Result<V, KvError> {
    if s.fault.Some? then Err(Unavailable(s.fault.value))
    else if key in s.data then Ok(s.data[key])
    else Err(ErrNotFound)
  }

  /** Create: fails if the key is present. */
  function Create<V>(s: Store<V>, key: string, v: V): Result<Store<V>, KvError> {
    if s.fault.Some? then Err(Unavailable(s.fault.value))
    else if key in s.data then Err(ErrExist)
    else Ok(Write(s, s.data[key := v]))
  }

  /** Update: fails if the key is absent. */
  function Update<V>(s: Store<V>, key: string, v: V): Result<Store<V>, KvError> {
    if s.fault.Some? then Err(Unavailable(s.fault.value))
    else if key !in s.data then Err(ErrNotFound)
    else Ok(Write(s, s.data[key := v]))
  }

  /** Put: writes whether or not the key is present. */
  function Put<V>(s: Store<V>, key: string, v: V): Result<Store<V>, KvError> {
    if s.fault.Some? then Err(Unavailable(s.fault.value))
    else Ok(Write(s, s.data[key := v]))
  }

  /** Delete: fails if the key is absent. */
  function Delete<V>(s: Store<V>, key: string): Result<Store<V>, KvError> {
    if s.fault.Some? then Err(Unavailable(s.fault.value))
    else if key !in s.data then Err(ErrNotFound)
    else Ok(Write(s, s.data - {key}))
  }

  /** CompareAndSet: writes `v` only if the stored value equals `prev`. */
  function CompareAndSet<V(==)>(s: Store<V>, key: string, v: V, prev: V): Result<Store<V>, KvError> {
    if s.fault.Some? then Err(Unavailable(s.fault.value))
    else if key !in s.data then Err(ErrNotFound)
    else if s.data[key] != prev then Err(ErrValueMismatch)
    else Ok(Write(s, s.data[key := v]))
  }

  /** The store after a mutation: the new state on success, the old one on failure. */
  function After<V>(s: Store<V>, r: Result<Store<V>, KvError>): Store<V> {
    if r.Ok? then r.value else s
  }

  /** The error a call returned, if any. */
  function ErrorOf<T>(r: Result<T, KvError>): Option<KvError> {
    if r.Ok? then None else Some(r.error)
  }

  /**
   * `pairs` lists every key of `data` that starts with `prefix` exactly once,
   * each with its value, in an order the backend chooses.
   */
  ghost predicate IsListing<V>(pairs: seq<Pair<V>>, data: map<string, V>, prefix: string) {
    && (forall i :: 0 <= i < |pairs| ==>
          pairs[i].0 in data && data[pairs[i].0] == pairs[i].1 && HasPrefix(pairs[i].0, prefix))
    && (forall k :: k in data && HasPrefix(k, prefix) ==> exists i :: 0 <= i < |pairs| && pairs[i].0 == k)
    && (forall i, j :: 0 <= i < j < |pairs| ==> pairs[i].0 != pairs[j].0)
  }

  /** `r` is a possible answer of Enumerate(prefix) on `s`. */
  ghost predicate Enumerated<V>(s: Store<V>, prefix: string, r: Result<seq<Pair<V>>, KvError>) {
    if s.fault.Some? then r == Err(Unavailable(s.fault.value))
    else r.Ok? && IsListing(r.value, s.data, prefix)
  }

  /** A frozen, versioned copy of a store (kvdb's Snapshot). */
  function Snapshot<V>(s: Store<V>): Result<(Store<V>, nat), KvError> {
    if s.fault.Some? then Err(Unavailable(s.fault.value))
    else Ok((Store(s.data, s.version, None), s.version))
  }
}

/** A handle on a backend: the object that kvdb.New returns and callers share. */
module KvClient {
  import opened Common
  import opened Strings
  import Kv

  class Kvdb<V(==)> {
    /** The namespace every key of this handle lives under (domain/clusterID). */
    const domain: string
    var data: map<string, V>
    var version: nat
    var fault: Option<string>

    function State(): Kv.Store<V>
      reads this
    {
      Kv.Store(data, version, fault)
    }

    constructor (domain: string, initial: Kv.Store<V>)
      ensures this.domain == domain && State() == initial
    {
      this.domain := domain;
      data, version, fault := initial.data, initial.version, initial.fault;
    }

    /** Adopts the outcome of a mutation. */
    method Apply(r: Result<Kv.Store<V>, Kv.KvError>) returns (err: Option<Kv.KvError>)
      requires r.Ok? ==> r.value.fault == fault
      modifies this
      ensures State() == Kv.After(old(State()), r)
      ensures err == Kv.ErrorOf(r)
    {
      if r.Ok? {
        data, version := r.value.data, r.value.version;
      }
      err := Kv.ErrorOf(r);
    }

    method Get(key: string) returns (r: Result<V, Kv.KvError>)
      ensures r == Kv.Get(State(), key)
    {
      r := Kv.Get(State(), key);
    }

    method Create(key: string, v: V) returns (err: Option<Kv.KvError>)
      modifies this
      ensures State() == Kv.After(old(State()), Kv.Create(old(State()), key, v))
      ensures err == Kv.ErrorOf(Kv.Create(old(State()), key, v))
    {
      err := Apply(Kv.Create(State(), key, v));
    }

    method Update(key: string, v: V) returns (err: Option<Kv.KvError>)
      modifies this
      ensures State() == Kv.After(old(State()), Kv.Update(old(State()), key, v))
      ensures err == Kv.ErrorOf(Kv.Update(old(State()), key, v))
    {
      err := Apply(Kv.Update(State(), key, v));
    }

    method Put(key: string, v: V) returns (err: Option<Kv.KvError>)
      modifies this
      ensures State() == Kv.After(old(State()), Kv.Put(old(State()), key, v))
      ensures err == Kv.ErrorOf(Kv.Put(old(State()), key, v))
    {
      err := Apply(Kv.Put(State(), key, v));
    }

    method Delete(key: string) returns (err: Option<Kv.KvError>)
      modifies this
      ensures State() == Kv.After(old(State()), Kv.Delete(old(State()), key))
      ensures err == Kv.ErrorOf(Kv.Delete(old(State()), key))
    {
      err := Apply(Kv.Delete(State(), key));
    }

    method CompareAndSet(key: string, v: V, prev: V) returns (err: Option<Kv.KvError>)
      modifies this
      ensures State() == Kv.After(old(State()), Kv.CompareAndSet(old(State()), key, v, prev))
      ensures err == Kv.ErrorOf(Kv.CompareAndSet(old(State()), key, v, prev))
    {
      err := Apply(Kv.CompareAndSet(State(), key, v, prev));
    }

    /** Every pair under `prefix`, each key once, in the order the loop picks them. */
    method Enumerate(prefix: string) returns (r: Result<seq<Kv.Pair<V>>, Kv.KvError>)
      ensures Kv.Enumerated(State(), prefix, r)
    {
      if fault.Some? {
        return Err(Kv.Unavailable(fault.value));
      }
      var pending := set k | k in data && HasPrefix(k, prefix);
      var out: seq<Kv.Pair<V>> := [];
      while pending != {}
        invariant pending <= data.Keys
        invariant forall k :: k in pending ==> HasPrefix(k, prefix)
        invariant forall i :: 0 <= i < |out| ==>
          out[i].0 in data && data[out[i].0] == out[i].1 && HasPrefix(out[i].0, prefix) && out[i].0 !in pending
        invariant forall k :: k in data && HasPrefix(k, prefix) ==>
          k in pending || exists i :: 0 <= i < |out| && out[i].0 == k
        invariant forall i, j :: 0 <= i < j < |out| ==> out[i].0 != out[j].0
        decreases pending
      {
        var k :| k in pending;
        ghost var before := out;
        out := out + [(k, data[k])];
        pending := pending - {k};
        assert out[|before|].0 == k;
        assert forall i :: 0 <= i < |before| ==> out[i] == before[i];
      }
      r := Ok(out);
    }
  }
}
