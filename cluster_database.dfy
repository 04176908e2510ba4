/**
 * The cluster database (cluster/database.go): the single record describing the
 * cluster, kept as JSON bytes under a fixed key of the node's key-value store.
 * It is read either once from the live store or, when a node bootstraps, from a
 * frozen snapshot paired with an update collector started at the snapshot's
 * version. JSON encoding and decoding are abstract: a `Codec` supplies them.
 */
module ClusterDatabase {
  import opened Common
  import opened Strings
  import Kv
  import opened KvClient

  newtype Byte = x: int | 0 <= x < 256
  type Bytes = seq<Byte>

  /** The key the record lives under. */
  const ClusterDBKey := "cluster/database"

  /** The bytes `{}`: a record that was written but never filled in. */
  const EmptyObject: Bytes := [0x7B, 0x7D]

  /** The error text that marks an absent key. */
  const KeyNotFoundText := "Key not found"

  /** The node and cluster lifecycle states the record stores (api.Status). */
  datatype Status = StatusNone | StatusInit | StatusOk | StatusOffline | StatusError | StatusOther(code: int)

  datatype NodeEntry = NodeEntry(id: string, mgmtIp: string, dataIp: string, genNumber: int, status: Status)

  datatype ClusterInfo = ClusterInfo(size: int, status: Status, id: string, nodeEntries: map<string, NodeEntry>)

  /** The descriptor of a cluster that was never initialised: status INIT, no nodes. */
  const DefaultClusterInfo := ClusterInfo(0, StatusInit, "", map[])

  /**
   * json.Marshal and json.Unmarshal. `decode(b, into)` fills in `into` the way
   * Unmarshal fills in a pre-set struct: it returns what it built, together with
   * the error that stopped it, if any.
   */
  datatype Codec = Codec(
    encode: ClusterInfo -> Result<Bytes, string>,
    decode: (Bytes, ClusterInfo) -> (ClusterInfo, Option<string>))

  /** The errors these operations return, each passed up unchanged from its origin. */
  datatype DbError =
    | KvFailure(cause: Kv.KvError)       // from Snapshot, Get or Put
    | CollectorFailure(reason: string)   // from NewUpdatesCollector
    | CodecFailure(reason: string)       // from json.Marshal or json.Unmarshal

  /** The update collector: an opaque buffer of the mutations from `since` onwards. */
  datatype Collector = Collector(prefix: string, since: nat)

  /** What a bootstrapping node receives (ClusterInitState). */
  datatype ClusterInitState = ClusterInitState(
    clusterInfo: ClusterInfo, initDb: Kv.Store<Bytes>, version: nat, collector: Collector)

  /** An error counts as "absent" when its text mentions "Key not found". */
  predicate IsKeyNotFound(e: Kv.KvError) {
    Contains(Kv.Message(e), KeyNotFoundText)
  }

  lemma NotFoundIsKeyNotFound()
    ensures IsKeyNotFound(Kv.ErrNotFound)
  {
    assert OccursAt(Kv.Message(Kv.ErrNotFound), KeyNotFoundText, 0);
  }

  /** How both read paths classify the outcome of reading the record. */
  datatype Reading =
    | Failed(cause: Kv.KvError)                         // any error that is not "absent"
    | Uninitialized                                     // absent, or exactly `{}`
    | Decoded(info: ClusterInfo, err: Option<string>)   // Unmarshal over the default

  function Classify(read: Result<Bytes, Kv.KvError>, codec: Codec): (r: Reading)
    ensures r.Failed? <==> read.Err? && !IsKeyNotFound(read.error)
    ensures r.Failed? ==> r.cause == read.error
    ensures r.Uninitialized? <==> (read.Err? && IsKeyNotFound(read.error)) || (read.Ok? && read.value == EmptyObject)
    ensures r.Decoded? <==> read.Ok? && read.value != EmptyObject
    ensures r.Decoded? ==> (r.info, r.err) == codec.decode(read.value, DefaultClusterInfo)
  {
    if read.Err? && !IsKeyNotFound(read.error) then Failed(read.error)
    else if read.Err? || read.value == EmptyObject then Uninitialized
    else
      var (info, err) := codec.decode(read.value, DefaultClusterInfo);
      Decoded(info, err)
  }

  /** readClusterInfo: a single read of the record from the store `s`. */
  function ReadClusterInfo(s: Kv.Store<Bytes>, codec: Codec): (r: (ClusterInfo, Option<DbError>))
    // an absent record or `{}` is the uninitialised default, not an error
    ensures s.fault.None? && (ClusterDBKey !in s.data || s.data[ClusterDBKey] == EmptyObject) ==>
      r == (DefaultClusterInfo, None)
    // any other read error comes back with the default descriptor
    ensures s.fault.Some? && !IsKeyNotFound(Kv.Unavailable(s.fault.value)) ==>
      r == (DefaultClusterInfo, Some(KvFailure(Kv.Unavailable(s.fault.value))))
    // a backend error whose text mentions "Key not found" is taken for absence
    ensures s.fault.Some? && IsKeyNotFound(Kv.Unavailable(s.fault.value)) ==> r == (DefaultClusterInfo, None)
    // otherwise the stored bytes are decoded over the default; a decode error comes
    // back beside the partially filled descriptor
    ensures s.fault.None? && ClusterDBKey in s.data && s.data[ClusterDBKey] != EmptyObject ==>
      var d := codec.decode(s.data[ClusterDBKey], DefaultClusterInfo);
      r.0 == d.0 && (r.1.None? <==> d.1.None?) && (d.1.Some? ==> r.1 == Some(CodecFailure(d.1.value)))
    // once the record has been read, every error is a decode error
    ensures r.1.Some? && s.fault.None? ==> r.1.value.CodecFailure?
  {
    NotFoundIsKeyNotFound();
    Outcome(Classify(Kv.Get(s, ClusterDBKey), codec))
  }

  /** The (descriptor, error) pair of a classified reading. */
  function Outcome(reading: Reading): (ClusterInfo, Option<DbError>) {
    match reading
    case Failed(e) => (DefaultClusterInfo, Some(KvFailure(e)))
    case Uninitialized => (DefaultClusterInfo, None)
    case Decoded(info, err) => (info, if err.Some? then Some(CodecFailure(err.value)) else None)
  }

  /**
   * snapAndReadClusterInfo on the live store `s`. `collectorErr` is what
   * NewUpdatesCollector reports, and `snapFault` whether the snapshot handle
   * itself can still be read; both are the backend's to decide.
   */
  function SnapAndReadClusterInfo(s: Kv.Store<Bytes>, collectorErr: Option<string>, snapFault: Option<string>,
                                  codec: Codec): (r: (Option<ClusterInitState>, Option<DbError>))
    // a failed snapshot is reported before any collector is started
    ensures s.fault.Some? ==> r == (None, Some(KvFailure(Kv.Unavailable(s.fault.value))))
    // a failed collector is reported before the record is read
    ensures s.fault.None? && collectorErr.Some? ==> r == (None, Some(CollectorFailure(collectorErr.value)))
    // the handle carries the snapshot, its version and a collector started there
    ensures r.0.Some? ==>
      && s.fault.None? && collectorErr.None?
      && r.0.value.initDb == Kv.Store(s.data, s.version, snapFault)
      && r.0.value.version == s.version
      && r.0.value.collector == Collector("", s.version)
    // the descriptor and its error are those of a read of the snapshot
    ensures r.0.Some? ==> (r.0.value.clusterInfo, r.1) == ReadClusterInfo(r.0.value.initDb, codec)
    // unlike readClusterInfo, a failed read of the snapshot yields no handle at all
    ensures s.fault.None? && collectorErr.None? ==>
      (r.0.None? <==> snapFault.Some? && !IsKeyNotFound(Kv.Unavailable(snapFault.value)))
    ensures r.0.None? ==> r.1.Some?
  {
    match Kv.Snapshot(s)
    case Err(e) => (None, Some(KvFailure(e)))
    case Ok((frozen, version)) =>
      if collectorErr.Some? then (None, Some(CollectorFailure(collectorErr.value)))
      else
        var snap := frozen.(fault := snapFault);
        var reading := Classify(Kv.Get(snap, ClusterDBKey), codec);
        if reading.Failed? then (None, Some(KvFailure(reading.cause)))
        else
          var (info, err) := Outcome(reading);
          (Some(ClusterInitState(info, snap, version, Collector("", version))), err)
  }

  /**
   * A snapshot that can be read gives the same descriptor and error as a live
   * read at the moment it was taken.
   */
  lemma SnapshotMatchesLiveRead(s: Kv.Store<Bytes>, codec: Codec)
    requires s.fault.None?
    ensures var r := SnapAndReadClusterInfo(s, None, None, codec);
      r.0.Some? && (r.0.value.clusterInfo, r.1) == ReadClusterInfo(s, codec)
  {
    var r := SnapAndReadClusterInfo(s, None, None, codec);
    assert Kv.Get(r.0.value.initDb, ClusterDBKey) == Kv.Get(s, ClusterDBKey);
  }

  /**
   * writeClusterInfo: encodes `db` and overwrites the record whatever was there.
   * An encoding failure writes nothing.
   */
  method WriteClusterInfo(kv: Kvdb<Bytes>, db: ClusterInfo, codec: Codec) returns (r: Result<Kv.Pair<Bytes>, DbError>)
    modifies kv
    ensures codec.encode(db).Err? ==>
      r == Err(CodecFailure(codec.encode(db).error)) && kv.State() == old(kv.State())
    ensures codec.encode(db).Ok? ==>
      var b := codec.encode(db).value;
      && kv.State() == Kv.After(old(kv.State()), Kv.Put(old(kv.State()), ClusterDBKey, b))
      && (old(kv.fault).Some? ==> r == Err(KvFailure(Kv.Unavailable(old(kv.fault).value))))
      && (old(kv.fault).None? ==> r == Ok((ClusterDBKey, b)))
  {
    var encoded := codec.encode(db);
    if encoded.Err? {
      return Err(CodecFailure(encoded.error));
    }
    var err := kv.Put(ClusterDBKey, encoded.value);
    if err.Some? {
      return Err(KvFailure(err.value));
    }
    r := Ok((ClusterDBKey, encoded.value));
  }

  /** The store after a successful writeClusterInfo. */
  function Written(s: Kv.Store<Bytes>, b: Bytes): (r: Kv.Store<Bytes>)
    requires s.fault.None?
    ensures r.fault.None? && r.version == s.version + 1
    ensures ClusterDBKey in r.data && r.data[ClusterDBKey] == b
    ensures forall k :: k != ClusterDBKey ==> (k in r.data <==> k in s.data)
    ensures forall k :: k != ClusterDBKey && k in s.data ==> r.data[k] == s.data[k]
  {
    Kv.Put(s, ClusterDBKey, b).value
  }

  /**
   * Writing a descriptor and reading it back gives that descriptor, whenever the
   * codec decodes what it encodes and the encoding is not `{}`.
   */
  lemma WriteThenRead(s: Kv.Store<Bytes>, db: ClusterInfo, codec: Codec)
    requires s.fault.None? && codec.encode(db).Ok?
    requires codec.encode(db).value != EmptyObject
    requires codec.decode(codec.encode(db).value, DefaultClusterInfo) == (db, None)
    ensures ReadClusterInfo(Written(s, codec.encode(db).value), codec) == (db, None)
  {
  }

  /** The write is an overwrite: what the record held before makes no difference. */
  lemma WriteOverwrites(s1: Kv.Store<Bytes>, s2: Kv.Store<Bytes>, b: Bytes, codec: Codec)
    requires s1.fault.None? && s2.fault.None?
    ensures ReadClusterInfo(Written(s1, b), codec) == ReadClusterInfo(Written(s2, b), codec)
  {
  }

  /**
   * Writing `{}` resets the cluster to the uninitialised default, as an empty
   * store reads.
   */
  lemma WriteEmptyResets(s: Kv.Store<Bytes>, codec: Codec)
    requires s.fault.None?
    ensures ReadClusterInfo(Written(s, EmptyObject), codec) == ReadClusterInfo(Kv.Store(map[], 0, None), codec)
    ensures ReadClusterInfo(Kv.Store(map[], 0, None), codec) == (DefaultClusterInfo, None)
  {
  }
}
