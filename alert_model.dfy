/**
 * The alert store of alert/alert_kvdb.go as functions of the backend's state:
 * the persisted key layout, the compare-and-set id allocator, raising with
 * subscription fan-out, subscribing, clearing, erasing, retrieving, and the
 * filters the enumerations apply. The imperative methods in module AlertKvdb
 * are proved to compute exactly these functions.
 */
module AlertModel {
  import opened Common
  import opened Strings
  import Kv
  import opened AlertApi

  /** api.ResourceType */
  datatype ResourceType = ResourceNone | Volume | Node | Cluster | Drive

  /** api.Alert (the fields the core reads or writes). */
  datatype Alert = Alert(
    id: int, severity: int, alertType: int, message: string, timestamp: int,
    resource: ResourceType, resourceId: string, cleared: bool, ttl: nat)

  /** Go's zero value of api.Alert. */
  const ZeroAlert := Alert(0, 0, 0, "", 0, ResourceNone, "", false, 0)

  /** What the alert bus stores: the id counter, alert records, subscription lists, the bootstrap marker. */
  datatype Value =
    | CounterValue(n: int)
    | AlertValue(alert: Alert)
    | SubscriptionsValue(alerts: seq<Alert>)
    | TimeValue(unix: int)

  type Store = Kv.Store<Value>

  // ---------------------------------------------------------------- key layout

  const AlertKey := "alert/"
  const SubscriptionsKeyName := "subscriptions"
  const NextAlertIdKeyName := "nextAlertId"
  const ClusterKey := "cluster/"
  const VolumeKey := "volume/"
  const NodeKey := "node/"
  const DriveKey := "drive/"
  const BootstrapKeyName := "bootstrap"
  const WatchRetries := 5
  const WatchSleepMs := 100

  /** getResourceKey: the partition prefix; anything not Volume, Node or Cluster lands under drive/. */
  function ResourceKey(rt: ResourceType): string {
    if rt == Volume then AlertKey + VolumeKey
    else if rt == Node then AlertKey + NodeKey
    else if rt == Cluster then AlertKey + ClusterKey
    else AlertKey + DriveKey
  }

  /** getNextAlertIDKey */
  function NextAlertIdKey(): string {
    AlertKey + NextAlertIdKeyName
  }

  /** getSubscriptionsKey */
  function SubscriptionsKey(alertType: int): string {
    AlertKey + SubscriptionsKeyName + "/" + FormatInt(alertType)
  }

  /** The key of one alert record: getResourceKey(rt) + strconv.FormatInt(id, 10). */
  function RecordKey(rt: ResourceType, id: int): string {
    ResourceKey(rt) + FormatInt(id)
  }

  /** The watch handshake marker, alertKey + bootstrap. */
  function BootstrapKey(): string {
    AlertKey + BootstrapKeyName
  }

  /** The character after "alert/" names the key family. */
  lemma ResourceKeyFamily(rt: ResourceType)
    ensures |ResourceKey(rt)| > 7 && ResourceKey(rt)[..6] == AlertKey
    ensures ResourceKey(rt)[6] == (if rt == Volume then 'v' else if rt == Node then 'n' else if rt == Cluster then 'c' else 'd')
    ensures rt == Node ==> ResourceKey(rt)[7] == 'o'
  {
  }

  /** Two partitions share a prefix only when they are the same partition (None shares Drive's). */
  lemma ResourceKeyInjective(r1: ResourceType, r2: ResourceType)
    requires ResourceKey(r1)[6] == ResourceKey(r2)[6]
    ensures ResourceKey(r1) == ResourceKey(r2)
  {
    ResourceKeyFamily(r1);
    ResourceKeyFamily(r2);
  }

  /** Record keys are collision-free: the key determines the partition and the id. */
  lemma RecordKeyInjective(r1: ResourceType, i1: int, r2: ResourceType, i2: int)
    requires RecordKey(r1, i1) == RecordKey(r2, i2)
    ensures ResourceKey(r1) == ResourceKey(r2) && i1 == i2
  {
    ResourceKeyFamily(r1);
    ResourceKeyFamily(r2);
    var k := RecordKey(r1, i1);
    assert k[6] == ResourceKey(r1)[6] && k[6] == ResourceKey(r2)[6];
    ResourceKeyInjective(r1, r2);
    var p := |ResourceKey(r1)|;
    assert k[p..] == FormatInt(i1);
    assert RecordKey(r2, i2)[p..] == FormatInt(i2);
    FormatIntInjective(i1, i2);
  }

  lemma SubscriptionsKeyInjective(t1: int, t2: int)
    requires SubscriptionsKey(t1) == SubscriptionsKey(t2)
    ensures t1 == t2
  {
    var n := |AlertKey + SubscriptionsKeyName + "/"|;
    assert SubscriptionsKey(t1)[n..] == FormatInt(t1);
    assert SubscriptionsKey(t2)[n..] == FormatInt(t2);
    FormatIntInjective(t1, t2);
  }

  /** Alert records never share a key with the counter, a subscription list or the bootstrap marker. */
  lemma BookkeepingKeysDistinct(rt: ResourceType, id: int, t: int)
    ensures RecordKey(rt, id) != SubscriptionsKey(t)
    ensures RecordKey(rt, id) != NextAlertIdKey()
    ensures RecordKey(rt, id) != BootstrapKey()
    ensures NextAlertIdKey() != SubscriptionsKey(t)
  {
    ResourceKeyFamily(rt);
    var k, sk, nk, bk := RecordKey(rt, id), SubscriptionsKey(t), NextAlertIdKey(), BootstrapKey();
    assert k[6] == ResourceKey(rt)[6];
    assert sk[6] == 's' && nk[6] == 'n' && bk[6] == 'b';
    DifferAt(k, sk, 6);
    RecordKeyNotCounter(rt, id);
    DifferAt(k, bk, 6);
    DifferAt(nk, sk, 6);
  }

  /** No record key is the counter key. */
  lemma RecordKeyNotCounter(rt: ResourceType, id: int)
    ensures RecordKey(rt, id) != NextAlertIdKey()
  {
    ResourceKeyFamily(rt);
    var k, nk := RecordKey(rt, id), NextAlertIdKey();
    assert k[6] == ResourceKey(rt)[6] && k[7] == ResourceKey(rt)[7];
    assert nk[6] == 'n' && nk[7] == 'e';
    DifferAt(k, nk, if rt == Node then 7 else 6);
  }

  /** Strings that differ at some position are different. */
  lemma DifferAt(a: string, b: string, i: nat)
    requires i < |a| && i < |b| && a[i] != b[i]
    ensures a != b
  {
  }

  // ---------------------------------------------------------------- decoding

  const MinInt64: int := -0x8000_0000_0000_0000
  const MaxInt64: int := 0x7fff_ffff_ffff_ffff

  /** Go's 64-bit `int` arithmetic: wraps around modulo 2^64. */
  function Wrap64(n: int): (r: int)
    ensures MinInt64 <= r <= MaxInt64
    ensures MinInt64 <= n <= MaxInt64 ==> r == n
  {
    (n - MinInt64) % 0x1_0000_0000_0000_0000 + MinInt64
  }

  /** json.Unmarshal into an api.Alert. */
  function DecodeAlert(v: Value): Result<Alert, Kv.KvError> {
    if v.AlertValue? then Ok(v.alert) else Err(Kv.ErrUnmarshal)
  }

  /** json.Unmarshal into a []api.Alert. */
  function DecodeSubscriptions(v: Value): Result<seq<Alert>, Kv.KvError> {
    if v.SubscriptionsValue? then Ok(v.alerts) else Err(Kv.ErrUnmarshal)
  }

  /** json.Unmarshal into a Go int: fails on a number outside the 64-bit range. */
  function DecodeCounter(v: Value): Result<int, Kv.KvError> {
    if v.CounterValue? && MinInt64 <= v.n <= MaxInt64 then Ok(v.n) else Err(Kv.ErrUnmarshal)
  }

  /** kvdb GetVal: read the key, then decode its value. */
  function GetVal<T>(s: Store, key: string, decode: Value -> Result<T, Kv.KvError>): Result<T, Kv.KvError> {
    match Kv.Get(s, key)
    case Err(e) => Err(e)
    case Ok(v) => decode(v)
  }

  function AsAlertError(e: Option<Kv.KvError>): Option<AlertError> {
    if e.Some? then Some(KvFailure(e.value)) else None
  }

  // ---------------------------------------------------------------- id allocator

  datatype Allocation = Allocation(store: Store, id: int, err: Option<AlertError>)

  /** The id the next allocation hands out, if the counter can be read. */
  function NextFree(s: Store): Option<int> {
    var key := NextAlertIdKey();
    if s.fault.Some? then None
    else if key !in s.data then Some(0)
    else if DecodeCounter(s.data[key]).Ok? then Some(DecodeCounter(s.data[key]).value)
    else None
  }

  /**
   * getNextIDFromKVDB: create the counter holding 1 and hand out 0; if it
   * exists, read n, compare-and-set it to n+1 and hand out n. A counter that
   * cannot be read gives -1 and ErrNotInitialized.
   */
  function NextAlertId(s: Store): (r: Allocation)
    ensures r.err.None? <==> NextFree(s).Some?
    ensures r.err.Some? ==> r == Allocation(s, -1, Some(ErrNotInitialized))
    ensures r.err.None? ==>
      && r.id == NextFree(s).value
      && r.store == Kv.Write(s, s.data[NextAlertIdKey() := CounterValue(Wrap64(r.id + 1))])
  {
    var key := NextAlertIdKey();
    var created := Kv.Create(s, key, CounterValue(1));
    if created.Ok? then Allocation(created.value, 0, None)
    else
      match GetVal(s, key, DecodeCounter)
      case Err(_) => Allocation(s, -1, Some(ErrNotInitialized))
      case Ok(n) =>
        var cas := Kv.CompareAndSet(s, key, CounterValue(Wrap64(n + 1)), s.data[key]);
        match cas
        case Ok(s2) => Allocation(s2, n, None)
  }

  /** The ids of `k` allocations made one after another, and the store after them. */
  function AllocateMany(s: Store, k: nat): (Store, seq<int>)
    decreases k
  {
    if k == 0 then (s, [])
    else
      var a := NextAlertId(s);
      var (s', ids) := AllocateMany(a.store, k - 1);
      (s', [a.id] + ids)
  }

  /**
   * Sequential allocations count up from the counter without repeats: the i-th
   * of k allocations gets c + i, and the counter then holds c + k.
   */
  lemma {:induction false} AllocationsCountUp(s: Store, k: nat, c: int)
    requires NextFree(s) == Some(c)
    requires c + k <= MaxInt64
    ensures |AllocateMany(s, k).1| == k
    ensures forall i :: 0 <= i < k ==> AllocateMany(s, k).1[i] == c + i
    ensures k > 0 ==> AllocateMany(s, k).0.data == s.data[NextAlertIdKey() := CounterValue(c + k)]
    decreases k
  {
    if k > 0 {
      var a := NextAlertId(s);
      assert a.id == c && Wrap64(c + 1) == c + 1;
      assert NextFree(a.store) == Some(c + 1);
      AllocationsCountUp(a.store, k - 1, c + 1);
      var ids := AllocateMany(s, k).1;
      assert ids == [c] + AllocateMany(a.store, k - 1).1;
      assert forall i :: 1 <= i < k ==> ids[i] == AllocateMany(a.store, k - 1).1[i - 1];
    }
  }

  /** Corollary: the ids of sequential allocations are pairwise distinct and increasing. */
  lemma AllocationsUnique(s: Store, k: nat, c: int)
    requires NextFree(s) == Some(c)
    requires c + k <= MaxInt64
    ensures forall i, j :: 0 <= i < j < |AllocateMany(s, k).1| ==> AllocateMany(s, k).1[i] < AllocateMany(s, k).1[j]
  {
    AllocationsCountUp(s, k, c);
  }

  // ---------------------------------------------------------------- raise

  /** The store after raising, the error returned, and the caller's alert as raise left it. */
  datatype Raised = Raised(store: Store, err: Option<AlertError>, alert: Alert)

  /** The alert as raise stamps it before storing. */
  function Stamped(a: Alert, id: int, now: int): Alert {
    a.(id := id, timestamp := now, cleared := false)
  }

  /**
   * raise: refuses the None resource before touching the store; otherwise
   * allocates an id, stamps the alert, and creates (never overwrites) its record.
   */
  function RaiseOne(s: Store, a: Alert, now: int): (r: Raised)
    ensures a.resource == ResourceNone ==> r == Raised(s, Some(ErrResourceNotFound), a)
    ensures a.resource != ResourceNone && NextFree(s).None? ==> r == Raised(s, Some(ErrNotInitialized), a)
    ensures a.resource != ResourceNone && NextFree(s).Some? ==>
      var id := NextFree(s).value;
      var counted := s.data[NextAlertIdKey() := CounterValue(Wrap64(id + 1))];
      var key := RecordKey(a.resource, id);
      && r.alert == Stamped(a, id, now)
      && (key in counted ==> r.err == Some(KvFailure(Kv.ErrExist)) && r.store.data == counted)
      && (key !in counted ==> r.err == None && r.store.data == counted[key := AlertValue(r.alert)])
    ensures r.store.fault == s.fault
  {
    if a.resource == ResourceNone then Raised(s, Some(ErrResourceNotFound), a)
    else
      var alloc := NextAlertId(s);
      if alloc.err.Some? then Raised(alloc.store, alloc.err, a)
      else
        var b := Stamped(a, alloc.id, now);
        var created := Kv.Create(alloc.store, RecordKey(b.resource, b.id), AlertValue(b));
        Raised(Kv.After(alloc.store, created), AsAlertError(Kv.ErrorOf(created)), b)
  }

  /** A successful raise leaves a record that Retrieve returns as stamped. */
  lemma RaiseThenRetrieve(s: Store, a: Alert, now: int)
    requires RaiseOne(s, a, now).err.None?
    ensures var r := RaiseOne(s, a, now);
      && r.alert.resource == a.resource && !r.alert.cleared && r.alert.timestamp == now
      && Retrieve(r.store, a.resource, r.alert.id) == (r.alert, None)
  {
  }

  /** The subscription list stored for an alert type, as Raise and Subscribe read it. */
  function Subscriptions(s: Store, t: int): Result<seq<Alert>, Kv.KvError> {
    GetVal(s, SubscriptionsKey(t), DecodeSubscriptions)
  }

  /** What is stored under the subscription key of `t`. */
  function SubsEntry(s: Store, t: int): Option<Value> {
    var key := SubscriptionsKey(t);
    if key in s.data then Some(s.data[key]) else None
  }

  /** Two stores agree on every subscription list (and on reachability). */
  ghost predicate SameSubscriptions(s1: Store, s2: Store) {
    s1.fault == s2.fault && forall t :: SubsEntry(s1, t) == SubsEntry(s2, t)
  }

  /**
   * Following subscription lists from `t` reaches no deeper than `depth`
   * levels: the lists form no cycle through `t`. Raise recurses without a
   * cycle guard, so Raise requires this.
   */
  ghost predicate FanOutBounded(s: Store, t: int, depth: nat)
    decreases depth
  {
    && depth > 0
    && (Subscriptions(s, t).Ok? ==>
          var cs := Subscriptions(s, t).value;
          forall i :: 0 <= i < |cs| ==> FanOutBounded(s, cs[i].alertType, depth - 1))
  }

  lemma SameSubscriptionsRead(s1: Store, s2: Store, t: int)
    requires SameSubscriptions(s1, s2)
    ensures Subscriptions(s1, t) == Subscriptions(s2, t)
  {
    assert SubsEntry(s1, t) == SubsEntry(s2, t);
  }

  lemma {:induction false} FanOutBoundedTransfer(s1: Store, s2: Store, t: int, depth: nat)
    requires SameSubscriptions(s1, s2) && FanOutBounded(s1, t, depth)
    ensures FanOutBounded(s2, t, depth)
    decreases depth
  {
    SameSubscriptionsRead(s1, s2, t);
    if Subscriptions(s1, t).Ok? {
      var cs := Subscriptions(s1, t).value;
      forall i | 0 <= i < |cs| ensures FanOutBounded(s2, cs[i].alertType, depth - 1) {
        FanOutBoundedTransfer(s1, s2, cs[i].alertType, depth - 1);
      }
    }
  }

  lemma SameSubscriptionsTrans(s1: Store, s2: Store, s3: Store)
    requires SameSubscriptions(s1, s2) && SameSubscriptions(s2, s3)
    ensures SameSubscriptions(s1, s3)
  {
  }

  /** raise writes only the counter and a record, never a subscription list. */
  lemma RaiseOneKeepsSubscriptions(s: Store, a: Alert, now: int)
    ensures SameSubscriptions(s, RaiseOne(s, a, now).store)
  {
    var r := RaiseOne(s, a, now);
    forall t ensures SubsEntry(s, t) == SubsEntry(r.store, t) {
      if a.resource != ResourceNone && NextFree(s).Some? {
        BookkeepingKeysDistinct(a.resource, NextFree(s).value, t);
      }
    }
  }

  /** What Raise promises, established for the final raise of the parent alone. */
  lemma RaiseOneOutcome(s: Store, a: Alert, now: int)
    ensures var r := RaiseOne(s, a, now);
      && SameSubscriptions(s, r.store)
      && (r.err.None? ==>
            && a.resource != ResourceNone
            && r.alert == Stamped(a, r.alert.id, now)
            && RecordKey(a.resource, r.alert.id) in r.store.data
            && r.store.data[RecordKey(a.resource, r.alert.id)] == AlertValue(r.alert))
      && r.err != Some(ErrSubscribedRaise)
      && (a.resource == ResourceNone ==> r.err.Some? && r.alert == a)
  {
    RaiseOneKeepsSubscriptions(s, a, now);
  }

  /**
   * The loop over subscribed children: raise each in list order, stopping at
   * the first that fails. Returns the store and whether all succeeded.
   */
  function RaiseChildren(s: Store, cs: seq<Alert>, now: int, depth: nat): (r: (Store, bool))
    requires forall i :: 0 <= i < |cs| ==> FanOutBounded(s, cs[i].alertType, depth)
    ensures SameSubscriptions(s, r.0)
    decreases depth, 1, |cs|
  {
    if cs == [] then (s, true)
    else
      var (s1, ok) := RaiseChildren(s, cs[..|cs| - 1], now, depth);
      if !ok then (s1, false)
      else
        FanOutBoundedTransfer(s, s1, cs[|cs| - 1].alertType, depth);
        var child := Raise(s1, cs[|cs| - 1], now, depth);
        (child.store, child.err.None?)
  }

  /** Once a child fails, the rest of the list is not raised: the outcome is fixed from there on. */
  lemma {:induction false} RaiseChildrenStops(s: Store, cs: seq<Alert>, n: nat, now: int, depth: nat)
    requires forall i :: 0 <= i < |cs| ==> FanOutBounded(s, cs[i].alertType, depth)
    requires 0 < n <= |cs| && !RaiseChildren(s, cs[..n], now, depth).1
    ensures RaiseChildren(s, cs, now, depth) == RaiseChildren(s, cs[..n], now, depth)
    decreases |cs| - n
  {
    if n < |cs| {
      var init := cs[..|cs| - 1];
      assert init[..n] == cs[..n];
      RaiseChildrenStops(s, init, n, now, depth);
    } else {
      assert cs[..n] == cs;
    }
  }

  /**
   * Raise: raise every alert subscribed to `a.alertType`, in list order, then
   * `a` itself; a missing list counts as empty, any other read error is
   * returned, and a failing child stops the fan-out with ErrSubscribedRaise
   * before the parent is raised.
   */
  function Raise(s: Store, a: Alert, now: int, depth: nat): (r: Raised)
    requires FanOutBounded(s, a.alertType, depth)
    ensures SameSubscriptions(s, r.store)
    ensures r.err.None? ==>
      && a.resource != ResourceNone
      && r.alert == Stamped(a, r.alert.id, now)
      && RecordKey(a.resource, r.alert.id) in r.store.data
      && r.store.data[RecordKey(a.resource, r.alert.id)] == AlertValue(r.alert)
    ensures r.err == Some(ErrSubscribedRaise) ==> r.alert == a
    ensures a.resource == ResourceNone ==> r.err.Some? && r.alert == a
    decreases depth, 0, 0
  {
    match Subscriptions(s, a.alertType)
    case Err(e) =>
      if e == Kv.ErrNotFound then
        RaiseOneOutcome(s, a, now);
        RaiseOne(s, a, now)
      else Raised(s, Some(KvFailure(e)), a)
    case Ok(children) =>
      var (s1, ok) := RaiseChildren(s, children, now, depth - 1);
      if !ok then Raised(s1, Some(ErrSubscribedRaise), a)
      else
        RaiseOneOutcome(s1, a, now);
        RaiseOne(s1, a, now)
  }

  /** No record key with an id from `c` upwards is taken, and the store is reachable. */
  ghost predicate FreshFrom(s: Store, c: int) {
    s.fault.None? && forall rt: ResourceType, i: int :: i >= c ==> RecordKey(rt, i) !in s.data
  }

  /** Alerts naming a resource whose own type has no subscription list. */
  ghost predicate Leaves(s: Store, cs: seq<Alert>) {
    forall i :: 0 <= i < |cs| ==> cs[i].resource != ResourceNone && Subscriptions(s, cs[i].alertType) == Err(Kv.ErrNotFound)
  }

  /** raise on a store with a free id `id`: it takes that id and adds exactly its record. */
  lemma RaiseOneFresh(s: Store, b: Alert, now: int, id: int)
    requires b.resource != ResourceNone
    requires NextFree(s) == Some(id) && 0 <= id < MaxInt64 && FreshFrom(s, id)
    ensures var r := RaiseOne(s, b, now);
      && r.err.None? && r.alert == Stamped(b, id, now)
      && r.store.data == s.data[NextAlertIdKey() := CounterValue(id + 1)][RecordKey(b.resource, id) := AlertValue(r.alert)]
      && NextFree(r.store) == Some(id + 1) && FreshFrom(r.store, id + 1)
  {
    var r := RaiseOne(s, b, now);
    RecordKeyNotCounter(b.resource, id);
    assert RecordKey(b.resource, id) !in s.data;
    forall rt: ResourceType, i: int | i >= id + 1
      ensures RecordKey(rt, i) !in r.store.data
    {
      RecordKeyNotCounter(rt, i);
      if RecordKey(rt, i) == RecordKey(b.resource, id) {
        RecordKeyInjective(rt, i, b.resource, id);
      }
    }
  }

  /** Raising one leaf alert is raising it alone. */
  lemma RaiseLeaf(s: Store, b: Alert, now: int, depth: nat, id: int)
    requires FanOutBounded(s, b.alertType, depth)
    requires b.resource != ResourceNone && Subscriptions(s, b.alertType) == Err(Kv.ErrNotFound)
    requires NextFree(s) == Some(id) && 0 <= id < MaxInt64 && FreshFrom(s, id)
    ensures Raise(s, b, now, depth) == RaiseOne(s, b, now)
  {
  }

  /** One more step of the fan-out loop, once the prefix before it succeeded. */
  lemma RaiseChildrenSnoc(s: Store, cs: seq<Alert>, now: int, depth: nat, s1: Store)
    requires cs != [] && forall i :: 0 <= i < |cs| ==> FanOutBounded(s, cs[i].alertType, depth)
    requires RaiseChildren(s, cs[..|cs| - 1], now, depth) == (s1, true)
    requires FanOutBounded(s1, cs[|cs| - 1].alertType, depth)
    ensures var r := Raise(s1, cs[|cs| - 1], now, depth);
      RaiseChildren(s, cs, now, depth) == (r.store, r.err.None?)
  {
  }

  /** The loop over the subscribed alerts, one turn further: the next alert is raised on the store reached so far. */
  lemma RaiseChildrenNext(s: Store, cs: seq<Alert>, i: nat, now: int, depth: nat, s1: Store)
    requires i < |cs| && forall j :: 0 <= j < |cs| ==> FanOutBounded(s, cs[j].alertType, depth)
    requires RaiseChildren(s, cs[..i], now, depth) == (s1, true)
    ensures FanOutBounded(s1, cs[i].alertType, depth)
    ensures var r := Raise(s1, cs[i], now, depth);
      RaiseChildren(s, cs[..i + 1], now, depth) == (r.store, r.err.None?)
  {
    assert cs[..i + 1][..i] == cs[..i] && cs[..i + 1][i] == cs[i];
    FanOutBoundedTransfer(s, s1, cs[i].alertType, depth);
    RaiseChildrenSnoc(s, cs[..i + 1], now, depth, s1);
  }

  /** After a fan-out that succeeded, Raise is the raise of the parent on the resulting store. */
  lemma RaiseAfterChildren(s: Store, a: Alert, now: int, depth: nat, cs: seq<Alert>, s1: Store)
    requires FanOutBounded(s, a.alertType, depth) && Subscriptions(s, a.alertType) == Ok(cs)
    requires RaiseChildren(s, cs, now, depth - 1) == (s1, true)
    ensures Raise(s, a, now, depth) == RaiseOne(s1, a, now)
  {
  }

  /**
   * After a fan-out that failed, Raise returns ErrSubscribedRaise with the
   * store the fan-out left and the caller's alert: the parent takes no id and
   * no record of it is written.
   */
  lemma RaiseChildFails(s: Store, a: Alert, now: int, depth: nat, cs: seq<Alert>)
    requires FanOutBounded(s, a.alertType, depth) && Subscriptions(s, a.alertType) == Ok(cs)
    requires !RaiseChildren(s, cs, now, depth - 1).1
    ensures Raise(s, a, now, depth) == Raised(RaiseChildren(s, cs, now, depth - 1).0, Some(ErrSubscribedRaise), a)
  {
  }

  /** `s` holds the record of `b` as raise stamps it with `id`. */
  ghost predicate HasRecord(s: Store, b: Alert, id: int, now: int) {
    RecordKey(b.resource, id) in s.data && s.data[RecordKey(b.resource, id)] == AlertValue(Stamped(b, id, now))
  }

  /** Two writes to other keys keep a record. */
  lemma RecordKept(s1: Store, s2: Store, b: Alert, id: int, now: int, k1: string, v: Value, k2: string, w: Value)
    requires HasRecord(s1, b, id, now)
    requires RecordKey(b.resource, id) != k1 && RecordKey(b.resource, id) != k2
    requires s2.data == s1.data[k1 := v][k2 := w]
    ensures HasRecord(s2, b, id, now)
  {
    var k := RecordKey(b.resource, id);
    assert s2.data[k] == s1.data[k];
  }

  /** Records with different ids have different keys. */
  lemma RecordKeysDiffer(r1: ResourceType, i1: int, r2: ResourceType, i2: int)
    requires i1 != i2
    ensures RecordKey(r1, i1) != RecordKey(r2, i2)
  {
    if RecordKey(r1, i1) == RecordKey(r2, i2) {
      RecordKeyInjective(r1, i1, r2, i2);
    }
  }

  /** Two writes to keys no record of `cs` uses keep the records of `cs`. */
  lemma {:induction false} RecordsKept(s1: Store, s2: Store, cs: seq<Alert>, c: int, now: int, n: nat,
                                       k1: string, v: Value, k2: string, w: Value)
    requires n <= |cs|
    requires forall i :: 0 <= i < n ==> HasRecord(s1, cs[i], c + i, now)
    requires forall i :: 0 <= i < n ==> RecordKey(cs[i].resource, c + i) != k1 && RecordKey(cs[i].resource, c + i) != k2
    requires s2.data == s1.data[k1 := v][k2 := w]
    ensures forall i :: 0 <= i < n ==> HasRecord(s2, cs[i], c + i, now)
  {
    forall i | 0 <= i < n ensures HasRecord(s2, cs[i], c + i, now) {
      RecordKept(s1, s2, cs[i], c + i, now, k1, v, k2, w);
    }
  }

  /** The records of earlier children use neither the counter key nor the key of the n-th child. */
  lemma {:induction false} EarlierKeysDiffer(cs: seq<Alert>, c: int, n: nat)
    requires n < |cs|
    ensures forall i :: 0 <= i < n ==>
      RecordKey(cs[i].resource, c + i) != NextAlertIdKey() && RecordKey(cs[i].resource, c + i) != RecordKey(cs[n].resource, c + n)
  {
    forall i | 0 <= i < n
      ensures RecordKey(cs[i].resource, c + i) != NextAlertIdKey() && RecordKey(cs[i].resource, c + i) != RecordKey(cs[n].resource, c + n)
    {
      RecordKeyNotCounter(cs[i].resource, c + i);
      RecordKeysDiffer(cs[i].resource, c + i, cs[n].resource, c + n);
    }
  }

  /** Writing the counter and a record with a later id keeps every earlier child record. */
  lemma {:induction false} ChildRecordsKept(s1: Store, s2: Store, cs: seq<Alert>, c: int, now: int, n: nat, v: Value, w: Value)
    requires n < |cs|
    requires forall i :: 0 <= i < n ==> HasRecord(s1, cs[i], c + i, now)
    requires s2.data == s1.data[NextAlertIdKey() := v][RecordKey(cs[n].resource, c + n) := w]
    ensures forall i :: 0 <= i < n ==> HasRecord(s2, cs[i], c + i, now)
  {
    EarlierKeysDiffer(cs, c, n);
    RecordsKept(s1, s2, cs, c, now, n, NextAlertIdKey(), v, RecordKey(cs[n].resource, c + n), w);
  }

  /** One more leaf after a prefix that succeeded: the loop step is the raise of that leaf alone. */
  lemma LeafStepIsRaiseOne(s: Store, cs: seq<Alert>, now: int, depth: nat, s1: Store)
    requires cs != [] && forall i :: 0 <= i < |cs| ==> FanOutBounded(s, cs[i].alertType, depth)
    requires Subscriptions(s, cs[|cs| - 1].alertType) == Err(Kv.ErrNotFound)
    requires RaiseChildren(s, cs[..|cs| - 1], now, depth) == (s1, true) && SameSubscriptions(s, s1)
    ensures var r := RaiseOne(s1, cs[|cs| - 1], now);
      RaiseChildren(s, cs, now, depth) == (r.store, r.err.None?)
  {
    var b := cs[|cs| - 1];
    SameSubscriptionsRead(s, s1, b.alertType);
    FanOutBoundedTransfer(s, s1, b.alertType, depth);
    RaiseChildrenSnoc(s, cs, now, depth, s1);
    assert Raise(s1, b, now, depth) == RaiseOne(s1, b, now);
  }

  /** The records after raising the last of `cs` on top of the records of the others. */
  lemma LeafRecords(s1: Store, cs: seq<Alert>, c: int, now: int)
    requires cs != [] && cs[|cs| - 1].resource != ResourceNone
    requires NextFree(s1) == Some(c + |cs| - 1) && 0 <= c && c + |cs| <= MaxInt64 && FreshFrom(s1, c + |cs| - 1)
    requires forall i :: 0 <= i < |cs| - 1 ==> HasRecord(s1, cs[i], c + i, now)
    ensures var r := RaiseOne(s1, cs[|cs| - 1], now);
      && r.err.None? && NextFree(r.store) == Some(c + |cs|) && FreshFrom(r.store, c + |cs|)
      && forall i :: 0 <= i < |cs| ==> HasRecord(r.store, cs[i], c + i, now)
  {
    var n := |cs| - 1;
    var b := cs[n];
    RaiseOneFresh(s1, b, now, c + n);
    var r := RaiseOne(s1, b, now);
    ChildRecordsKept(s1, r.store, cs, c, now, n, CounterValue(c + n + 1), AlertValue(r.alert));
    assert HasRecord(r.store, b, c + n, now);
  }

  /**
   * `s1` is `s` after raising the leaves `cs` in order from counter `c`: the
   * counter moved on by |cs|, every child holds its record, nothing else is taken.
   */
  ghost predicate FannedOut(s: Store, s1: Store, cs: seq<Alert>, c: int, now: int) {
    && NextFree(s1) == Some(c + |cs|) && FreshFrom(s1, c + |cs|) && SameSubscriptions(s, s1)
    && forall i :: 0 <= i < |cs| ==> HasRecord(s1, cs[i], c + i, now)
  }

  /** One more leaf after a prefix of leaves that was raised in order. */
  lemma LeafStep(s: Store, cs: seq<Alert>, now: int, depth: nat, c: int, s1: Store)
    requires cs != [] && forall i :: 0 <= i < |cs| ==> FanOutBounded(s, cs[i].alertType, depth)
    requires Leaves(s, cs) && 0 <= c && c + |cs| <= MaxInt64
    requires RaiseChildren(s, cs[..|cs| - 1], now, depth) == (s1, true)
    requires FannedOut(s, s1, cs[..|cs| - 1], c, now)
    ensures RaiseChildren(s, cs, now, depth).1 && FannedOut(s, RaiseChildren(s, cs, now, depth).0, cs, c, now)
  {
    LeafStepIsRaiseOne(s, cs, now, depth, s1);
    LeafFannedOut(s, s1, cs, c, now);
  }

  /** Raising the last leaf on top of the others extends the fan-out by one. */
  lemma LeafFannedOut(s: Store, s1: Store, cs: seq<Alert>, c: int, now: int)
    requires cs != [] && cs[|cs| - 1].resource != ResourceNone && 0 <= c && c + |cs| <= MaxInt64
    requires FannedOut(s, s1, cs[..|cs| - 1], c, now)
    ensures var r := RaiseOne(s1, cs[|cs| - 1], now);
      r.err.None? && FannedOut(s, r.store, cs, c, now)
  {
    var init := cs[..|cs| - 1];
    assert forall i :: 0 <= i < |init| ==> init[i] == cs[i];
    assert forall i :: 0 <= i < |cs| - 1 ==> HasRecord(s1, cs[i], c + i, now);
    var r := RaiseOne(s1, cs[|cs| - 1], now);
    LeafRecords(s1, cs, c, now);
    RaiseOneKeepsSubscriptions(s1, cs[|cs| - 1], now);
    SameSubscriptionsTrans(s, s1, r.store);
  }

  /**
   * Children that are leaves are raised in list order: on a store whose counter
   * stands at `c`, the i-th child gets id c + i, and the counter ends at c + |cs|.
   */
  lemma {:induction false} RaiseLeavesInOrder(s: Store, cs: seq<Alert>, now: int, depth: nat, c: int)
    requires forall i :: 0 <= i < |cs| ==> FanOutBounded(s, cs[i].alertType, depth)
    requires Leaves(s, cs)
    requires NextFree(s) == Some(c) && 0 <= c && c + |cs| <= MaxInt64 && FreshFrom(s, c)
    ensures RaiseChildren(s, cs, now, depth).1 && FannedOut(s, RaiseChildren(s, cs, now, depth).0, cs, c, now)
    decreases |cs|
  {
    if cs != [] {
      var init := cs[..|cs| - 1];
      assert forall i :: 0 <= i < |init| ==> init[i] == cs[i];
      RaiseLeavesInOrder(s, init, now, depth, c);
      LeafStep(s, cs, now, depth, c, RaiseChildren(s, init, now, depth).0);
    }
  }

  /**
   * The fan-out of Raise, end to end: when every alert subscribed to `a`'s type
   * is a leaf, the children take ids c, c+1, ... in list order and `a` itself
   * takes c + |cs|, after all of them.
   */
  lemma RaiseFansOutFirst(s: Store, a: Alert, now: int, depth: nat, cs: seq<Alert>, c: int)
    requires FanOutBounded(s, a.alertType, depth)
    requires Subscriptions(s, a.alertType) == Ok(cs) && Leaves(s, cs) && a.resource != ResourceNone
    requires NextFree(s) == Some(c) && 0 <= c && c + |cs| < MaxInt64 && FreshFrom(s, c)
    ensures var r := Raise(s, a, now, depth);
      && r.err.None? && r.alert == Stamped(a, c + |cs|, now)
      && RecordKey(a.resource, c + |cs|) in r.store.data
      && r.store.data[RecordKey(a.resource, c + |cs|)] == AlertValue(r.alert)
      && forall i :: 0 <= i < |cs| ==> HasRecord(r.store, cs[i], c + i, now)
  {
    RaiseLeavesInOrder(s, cs, now, depth - 1, c);
    var s1 := RaiseChildren(s, cs, now, depth - 1).0;
    RaiseAfterChildren(s, a, now, depth, cs, s1);
    ParentAfterLeaves(s1, a, cs, c, now);
  }

  /** raise of the parent on a store where its leaves took c..c+|cs|-1: it takes c + |cs| and keeps their records. */
  lemma ParentAfterLeaves(s1: Store, a: Alert, cs: seq<Alert>, c: int, now: int)
    requires a.resource != ResourceNone
    requires NextFree(s1) == Some(c + |cs|) && 0 <= c && c + |cs| < MaxInt64 && FreshFrom(s1, c + |cs|)
    requires forall i :: 0 <= i < |cs| ==> HasRecord(s1, cs[i], c + i, now)
    ensures var r := RaiseOne(s1, a, now);
      && r.err.None? && r.alert == Stamped(a, c + |cs|, now)
      && RecordKey(a.resource, c + |cs|) in r.store.data
      && r.store.data[RecordKey(a.resource, c + |cs|)] == AlertValue(r.alert)
      && forall i :: 0 <= i < |cs| ==> HasRecord(r.store, cs[i], c + i, now)
  {
    var id := c + |cs|;
    RaiseOneFresh(s1, a, now, id);
    var r := RaiseOne(s1, a, now);
    assert forall i :: 0 <= i < |cs| ==> (cs + [a])[i] == cs[i];
    ChildRecordsKept(s1, r.store, cs + [a], c, now, |cs|, CounterValue(id + 1), AlertValue(r.alert));
  }

  /** A missing or empty subscription list makes Raise the single raise of `a`. */
  lemma RaiseUnsubscribed(s: Store, a: Alert, now: int, depth: nat)
    requires FanOutBounded(s, a.alertType, depth)
    requires Subscriptions(s, a.alertType) == Err(Kv.ErrNotFound) || Subscriptions(s, a.alertType) == Ok([])
    ensures Raise(s, a, now, depth) == RaiseOne(s, a, now)
  {
  }

  /** Any other failure to read the list is returned before anything is written. */
  lemma RaiseListUnreadable(s: Store, a: Alert, now: int, depth: nat)
    requires FanOutBounded(s, a.alertType, depth)
    requires Subscriptions(s, a.alertType).Err? && Subscriptions(s, a.alertType).error != Kv.ErrNotFound
    ensures Raise(s, a, now, depth) == Raised(s, Some(KvFailure(Subscriptions(s, a.alertType).error)), a)
  {
  }

  /**
   * The fan-out runs before raise looks at the resource: a parent whose
   * resource is None is refused only after all its subscribed alerts were
   * raised, and their records stay.
   */
  lemma RaiseNoneAfterFanOut(s: Store, a: Alert, now: int, depth: nat, cs: seq<Alert>)
    requires FanOutBounded(s, a.alertType, depth)
    requires a.resource == ResourceNone && Subscriptions(s, a.alertType) == Ok(cs)
    requires RaiseChildren(s, cs, now, depth - 1).1
    ensures Raise(s, a, now, depth) == Raised(RaiseChildren(s, cs, now, depth - 1).0, Some(ErrResourceNotFound), a)
  {
  }

  // ---------------------------------------------------------------- subscribe

  /**
   * Subscribe: read the parent's list (absent = empty), append the child,
   * and put the list back.
   */
  function Subscribe(s: Store, parent: int, child: Alert): (r: (Store, Option<AlertError>))
    ensures r.1.None? <==> s.fault.None? && (Subscriptions(s, parent).Ok? || Subscriptions(s, parent) == Err(Kv.ErrNotFound))
    ensures r.1.Some? ==> r.0 == s
    ensures r.1.None? ==>
      var before := if Subscriptions(s, parent).Ok? then Subscriptions(s, parent).value else [];
      && Subscriptions(r.0, parent) == Ok(before + [child])
      && (forall k :: k != SubscriptionsKey(parent) ==> (k in r.0.data <==> k in s.data))
      && (forall k :: k in s.data && k != SubscriptionsKey(parent) ==> r.0.data[k] == s.data[k])
  {
    var key := SubscriptionsKey(parent);
    var read := Subscriptions(s, parent);
    if read.Err? && read.error != Kv.ErrNotFound then (s, Some(KvFailure(read.error)))
    else
      var list := if read.Ok? then read.value else [];
      var put := Kv.Put(s, key, SubscriptionsValue(list + [child]));
      (Kv.After(s, put), AsAlertError(Kv.ErrorOf(put)))
  }

  /** Subscribing twice appends both children, in order. */
  lemma SubscribeAppends(s: Store, parent: int, c1: Alert, c2: Alert)
    requires Subscribe(s, parent, c1).1.None?
    ensures var s1 := Subscribe(s, parent, c1).0;
      var before := if Subscriptions(s, parent).Ok? then Subscriptions(s, parent).value else [];
      && Subscribe(s1, parent, c2).1.None?
      && Subscriptions(Subscribe(s1, parent, c2).0, parent) == Ok(before + [c1, c2])
  {
    var s1 := Subscribe(s, parent, c1).0;
    var before := if Subscriptions(s, parent).Ok? then Subscriptions(s, parent).value else [];
    assert Subscriptions(s1, parent) == Ok(before + [c1]);
    assert before + [c1] + [c2] == before + [c1, c2];
  }

  // ---------------------------------------------------------------- clear, erase, retrieve

  /**
   * clear: refuses None; reads the record (fails if absent or undecodable),
   * sets Cleared and writes it back with Update.
   */
  function Clear(s: Store, rt: ResourceType, id: int): (r: (Store, Option<AlertError>))
    ensures rt == ResourceNone ==> r == (s, Some(ErrResourceNotFound))
    ensures r.1.Some? ==> r.0 == s
    ensures var key := RecordKey(rt, id);
      r.1.None? <==> rt != ResourceNone && s.fault.None? && key in s.data && s.data[key].AlertValue?
    ensures r.1.None? ==>
      var key := RecordKey(rt, id);
      r.0.data == s.data[key := AlertValue(s.data[key].alert.(cleared := true))]
  {
    if rt == ResourceNone then (s, Some(ErrResourceNotFound))
    else
      var key := RecordKey(rt, id);
      match GetVal(s, key, DecodeAlert)
      case Err(e) => (s, Some(KvFailure(e)))
      case Ok(alert) =>
        var updated := Kv.Update(s, key, AlertValue(alert.(cleared := true)));
        (Kv.After(s, updated), AsAlertError(Kv.ErrorOf(updated)))
  }

  /** Clearing is idempotent: a second Clear succeeds and changes no record. */
  lemma ClearIdempotent(s: Store, rt: ResourceType, id: int)
    requires Clear(s, rt, id).1.None?
    ensures var s1 := Clear(s, rt, id).0;
      Clear(s1, rt, id).1.None? && Clear(s1, rt, id).0.data == s1.data
  {
  }

  /** After Clear, Retrieve returns the same alert with Cleared set. */
  lemma ClearThenRetrieve(s: Store, rt: ResourceType, id: int)
    requires Clear(s, rt, id).1.None?
    ensures Retrieve(Clear(s, rt, id).0, rt, id) == (Retrieve(s, rt, id).0.(cleared := true), None)
  {
  }

  /** Erase: refuses None; otherwise deletes the record (Delete fails on an absent key). */
  function Erase(s: Store, rt: ResourceType, id: int): (r: (Store, Option<AlertError>))
    ensures rt == ResourceNone ==> r == (s, Some(ErrResourceNotFound))
    ensures r.1.Some? ==> r.0 == s
    ensures rt != ResourceNone ==> (r.1.None? <==> s.fault.None? && RecordKey(rt, id) in s.data)
    ensures r.1.None? ==> r.0.data == s.data - {RecordKey(rt, id)}
  {
    if rt == ResourceNone then (s, Some(ErrResourceNotFound))
    else
      var deleted := Kv.Delete(s, RecordKey(rt, id));
      (Kv.After(s, deleted), AsAlertError(Kv.ErrorOf(deleted)))
  }

  /** Retrieve: refuses None; otherwise reads and decodes the record. */
  function Retrieve(s: Store, rt: ResourceType, id: int): (r: (Alert, Option<AlertError>))
    ensures rt == ResourceNone ==> r == (ZeroAlert, Some(ErrResourceNotFound))
    ensures var key := RecordKey(rt, id);
      r.1.None? <==> rt != ResourceNone && s.fault.None? && key in s.data && s.data[key].AlertValue?
    ensures r.1.None? ==> s.data[RecordKey(rt, id)] == AlertValue(r.0)
    ensures r.1.Some? ==> r.0 == ZeroAlert
  {
    if rt == ResourceNone then (ZeroAlert, Some(ErrResourceNotFound))
    else
      match GetVal(s, RecordKey(rt, id), DecodeAlert)
      case Err(e) => (ZeroAlert, Some(KvFailure(e)))
      case Ok(a) => (a, None)
  }

  /** After a successful Erase, Retrieve of the same id reports the key as not found. */
  lemma EraseThenRetrieve(s: Store, rt: ResourceType, id: int)
    requires Erase(s, rt, id).1.None?
    ensures Retrieve(Erase(s, rt, id).0, rt, id) == (ZeroAlert, Some(KvFailure(Kv.ErrNotFound)))
  {
  }

  /** Erase touches only its own record: every other alert is still retrievable as before. */
  lemma EraseKeepsOthers(s: Store, rt: ResourceType, id: int, rt2: ResourceType, id2: int)
    requires Erase(s, rt, id).1.None?
    requires ResourceKey(rt2) != ResourceKey(rt) || id2 != id
    ensures Retrieve(Erase(s, rt, id).0, rt2, id2) == Retrieve(s, rt2, id2)
  {
    if RecordKey(rt2, id2) == RecordKey(rt, id) {
      RecordKeyInjective(rt2, id2, rt, id);
    }
  }

  // ---------------------------------------------------------------- enumeration

  /**
   * The decode loop of getResourceSpecificAlerts: every listed value must be
   * an alert, else the whole partition fails.
   */
  function DecodeListing(pairs: seq<Kv.Pair<Value>>): (r: Result<seq<Alert>, AlertError>)
    ensures r.Ok? <==> forall i :: 0 <= i < |pairs| ==> pairs[i].1.AlertValue?
    ensures r.Ok? ==> |r.value| == |pairs| && forall i :: 0 <= i < |pairs| ==> pairs[i].1 == AlertValue(r.value[i])
    ensures r.Err? ==> r.error == DecodeFailure
  {
    if pairs == [] then Ok([])
    else
      var prefix := pairs[..|pairs| - 1];
      var last := pairs[|pairs| - 1].1;
      match DecodeListing(prefix)
      case Err(e) => Err(e)
      case Ok(prev) => if last.AlertValue? then Ok(prev + [last.alert]) else Err(DecodeFailure)
  }

  /** getResourceSpecificAlerts, given what Enumerate answered. */
  function Partition(listed: Result<seq<Kv.Pair<Value>>, Kv.KvError>): Result<seq<Alert>, AlertError> {
    match listed
    case Err(e) => Err(KvFailure(e))
    case Ok(pairs) => DecodeListing(pairs)
  }

  /** `r` is a possible result of getResourceSpecificAlerts(rt) on `s`. */
  ghost predicate IsPartitionOf(s: Store, rt: ResourceType, r: Result<seq<Alert>, AlertError>) {
    exists listed :: Kv.Enumerated(s, ResourceKey(rt), listed) && r == Partition(listed)
  }

  /**
   * A partition read lists exactly the records stored under its prefix: an
   * alert is in the result iff some key of the partition holds it, and there
   * is one entry per key.
   */
  lemma PartitionContents(s: Store, rt: ResourceType, r: Result<seq<Alert>, AlertError>)
    requires IsPartitionOf(s, rt, r) && r.Ok?
    ensures forall a :: a in r.value <==> exists k :: k in s.data && HasPrefix(k, ResourceKey(rt)) && s.data[k] == AlertValue(a)
    ensures |r.value| == |set k | k in s.data && HasPrefix(k, ResourceKey(rt))|
  {
    var listed: Result<seq<Kv.Pair<Value>>, Kv.KvError> :| Kv.Enumerated(s, ResourceKey(rt), listed) && r == Partition(listed);
    ListingContents(listed.value, s.data, ResourceKey(rt), r.value);
    KeysOfListing(listed.value, s.data, ResourceKey(rt));
  }

  /** The decoded alerts of a listing are exactly the alerts stored under its prefix. */
  lemma ListingContents(pairs: seq<Kv.Pair<Value>>, data: map<string, Value>, prefix: string, alerts: seq<Alert>)
    requires Kv.IsListing(pairs, data, prefix) && DecodeListing(pairs) == Ok(alerts)
    ensures forall a :: a in alerts <==> exists k :: k in data && HasPrefix(k, prefix) && data[k] == AlertValue(a)
  {
    forall a ensures a in alerts <==> exists k :: k in data && HasPrefix(k, prefix) && data[k] == AlertValue(a) {
      if a in alerts {
        ListedIsStored(pairs, data, prefix, alerts, a);
      }
      if exists k :: k in data && HasPrefix(k, prefix) && data[k] == AlertValue(a) {
        var k :| k in data && HasPrefix(k, prefix) && data[k] == AlertValue(a);
        StoredIsListed(pairs, data, prefix, alerts, k);
      }
    }
  }

  lemma ListedIsStored(pairs: seq<Kv.Pair<Value>>, data: map<string, Value>, prefix: string, alerts: seq<Alert>, a: Alert)
    requires Kv.IsListing(pairs, data, prefix) && DecodeListing(pairs) == Ok(alerts) && a in alerts
    ensures exists k :: k in data && HasPrefix(k, prefix) && data[k] == AlertValue(a)
  {
    var i :| 0 <= i < |alerts| && alerts[i] == a;
    assert pairs[i].0 in data && HasPrefix(pairs[i].0, prefix) && data[pairs[i].0] == AlertValue(a);
  }

  lemma StoredIsListed(pairs: seq<Kv.Pair<Value>>, data: map<string, Value>, prefix: string, alerts: seq<Alert>, k: string)
    requires Kv.IsListing(pairs, data, prefix) && DecodeListing(pairs) == Ok(alerts)
    requires k in data && HasPrefix(k, prefix) && data[k].AlertValue?
    ensures data[k].alert in alerts
  {
    var i :| 0 <= i < |pairs| && pairs[i].0 == k;
    assert alerts[i] == data[k].alert;
  }

  /** A listing has one entry per key under the prefix. */
  lemma KeysOfListing(pairs: seq<Kv.Pair<Value>>, data: map<string, Value>, prefix: string)
    requires Kv.IsListing(pairs, data, prefix)
    ensures |pairs| == |set k | k in data && HasPrefix(k, prefix)|
  {
    var keys := set k | k in data && HasPrefix(k, prefix);
    var listedKeys := set i | 0 <= i < |pairs| :: pairs[i].0;
    assert listedKeys == keys;
    DistinctKeysCount(pairs);
  }

  lemma {:induction false} DistinctKeysCount(pairs: seq<Kv.Pair<Value>>)
    requires forall i, j :: 0 <= i < j < |pairs| ==> pairs[i].0 != pairs[j].0
    ensures |set i | 0 <= i < |pairs| :: pairs[i].0| == |pairs|
  {
    if pairs != [] {
      var init := pairs[..|pairs| - 1];
      DistinctKeysCount(init);
      var s := set i | 0 <= i < |pairs| :: pairs[i].0;
      var s0 := set i | 0 <= i < |init| :: init[i].0;
      assert s == s0 + {pairs[|pairs| - 1].0};
      assert pairs[|pairs| - 1].0 !in s0;
    }
  }

  /** The partitions getAllAlerts reads, in the order it reads them. */
  const AllPartitions: seq<ResourceType> := [Node, Volume, Cluster, Drive]

  /** The append steps of getAllAlerts: the alerts of every partition read that succeeded, in order. */
  function Join(parts: seq<Result<seq<Alert>, AlertError>>): seq<Alert> {
    if parts == [] then []
    else
      var last := parts[|parts| - 1];
      Join(parts[..|parts| - 1]) + Contribution(last)
  }

  /** An alert is in the union iff it is in some partition that was read successfully. */
  lemma {:induction false} JoinMembers(parts: seq<Result<seq<Alert>, AlertError>>, a: Alert)
    ensures a in Join(parts) <==> exists i :: 0 <= i < |parts| && parts[i].Ok? && a in parts[i].value
  {
    if parts != [] {
      var init := parts[..|parts| - 1];
      JoinMembers(init, a);
      assert forall i :: 0 <= i < |init| ==> init[i] == parts[i];
    }
  }

  /** The union is empty iff every partition failed or was empty. */
  lemma {:induction false} JoinEmpty(parts: seq<Result<seq<Alert>, AlertError>>)
    ensures Join(parts) == [] <==> forall i :: 0 <= i < |parts| ==> parts[i].Err? || parts[i].value == []
  {
    if parts != [] {
      var init := parts[..|parts| - 1];
      JoinEmpty(init);
      assert forall i :: 0 <= i < |init| ==> init[i] == parts[i];
    }
  }

  /**
   * getAllAlerts, given the four partition reads: failing partitions are
   * skipped, and an empty union is the error "No alert raised yet".
   */
  function AllAlerts(parts: seq<Result<seq<Alert>, AlertError>>): (r: Result<seq<Alert>, AlertError>)
    ensures r.Err? <==> forall i :: 0 <= i < |parts| ==> parts[i].Err? || parts[i].value == []
    ensures r.Err? ==> r.error == NoAlertRaisedYet
    ensures r.Ok? ==> |r.value| > 0
    ensures r.Ok? ==> forall a :: a in r.value <==> exists i :: 0 <= i < |parts| && parts[i].Ok? && a in parts[i].value
  {
    JoinEmpty(parts);
    var all := Join(parts);
    if |all| > 0 then
      assert forall a :: a in all <==> exists i :: 0 <= i < |parts| && parts[i].Ok? && a in parts[i].value by {
        forall a { JoinMembers(parts, a); }
      }
      Ok(all)
    else Err(NoAlertRaisedYet)
  }

  /** The two filters the enumerations apply. */
  datatype Criterion =
    | SeverityAtMost(severity: int)     // enumerate: v.Severity <= filter.Severity
    | Between(startNs: int, endNs: int) // EnumerateWithinTimeRange, instants in Unix nanoseconds

  /**
   * Whether an alert passes. In the time filter time.Unix(Timestamp, 0) must
   * be after the start and before the end: both ends exclusive, compared at
   * nanosecond precision.
   */
  predicate Keeps(c: Criterion, a: Alert) {
    match c
    case SeverityAtMost(sev) => a.severity <= sev
    case Between(startNs, endNs) => startNs < a.timestamp * 1_000_000_000 < endNs
  }

  /** The append loop of a filter, over the alerts in order. */
  function Filter(alerts: seq<Alert>, c: Criterion): seq<Alert> {
    if alerts == [] then []
    else
      var prev := Filter(alerts[..|alerts| - 1], c);
      var last := alerts[|alerts| - 1];
      if Keeps(c, last) then prev + [last] else prev
  }

  /**
   * A filter keeps exactly the alerts that pass, each as often as it occurs:
   * as multisets, the result is the input restricted to what `c` keeps.
   */
  lemma {:induction false} FilterExact(alerts: seq<Alert>, c: Criterion)
    ensures forall a :: multiset(Filter(alerts, c))[a] == if Keeps(c, a) then multiset(alerts)[a] else 0
  {
    if alerts != [] {
      var init := alerts[..|alerts| - 1];
      var last := alerts[|alerts| - 1];
      FilterExact(init, c);
      assert alerts == init + [last];
    }
  }

  /** Corollary: membership in a filter's result is membership in the input plus passing. */
  lemma FilterMembers(alerts: seq<Alert>, c: Criterion, a: Alert)
    ensures a in Filter(alerts, c) <==> a in alerts && Keeps(c, a)
  {
    FilterExact(alerts, c);
    assert a in Filter(alerts, c) <==> multiset(Filter(alerts, c))[a] > 0;
    assert a in alerts <==> multiset(alerts)[a] > 0;
  }

  /** enumerate's severity step: a non-zero severity filters, zero keeps everything. */
  function BySeverity(alerts: seq<Alert>, severity: int): (r: seq<Alert>)
    ensures severity == 0 ==> r == alerts
    ensures severity != 0 ==> forall a :: multiset(r)[a] == if a.severity <= severity then multiset(alerts)[a] else 0
  {
    if severity != 0 then
      FilterExact(alerts, SeverityAtMost(severity));
      Filter(alerts, SeverityAtMost(severity))
    else alerts
  }

  /** `parts` are the four partition reads of getAllAlerts on `s`, in order. */
  ghost predicate ReadsAll(s: Store, parts: seq<Result<seq<Alert>, AlertError>>) {
    && |parts| == 4
    && IsPartitionOf(s, Node, parts[0]) && IsPartitionOf(s, Volume, parts[1])
    && IsPartitionOf(s, Cluster, parts[2]) && IsPartitionOf(s, Drive, parts[3])
  }

  /** Each of those reads is a read of the partition at its position in AllPartitions. */
  lemma ReadsAllAt(s: Store, parts: seq<Result<seq<Alert>, AlertError>>, i: nat)
    requires ReadsAll(s, parts) && i < |parts|
    ensures IsPartitionOf(s, AllPartitions[i], parts[i])
  {
    if i == 0 { PartitionAt(s, parts, i, Node, parts[0]); }
    else if i == 1 { PartitionAt(s, parts, i, Volume, parts[1]); }
    else if i == 2 { PartitionAt(s, parts, i, Cluster, parts[2]); }
    else { PartitionAt(s, parts, i, Drive, parts[3]); }
  }

  /** `r` is a possible result of getAllAlerts on `s`: AllAlerts of the four partition reads. */
  ghost predicate IsAllAlertsOf(s: Store, r: Result<seq<Alert>, AlertError>) {
    exists parts: seq<Result<seq<Alert>, AlertError>> :: ReadsAll(s, parts) && r == AllAlerts(parts)
  }

  /** The alerts a read contributes to the union: its alerts if it succeeded, none otherwise. */
  function Contribution(part: Result<seq<Alert>, AlertError>): seq<Alert> {
    if part.Ok? then part.value else []
  }

  /** The union of four reads is their contributions appended in order. */
  lemma JoinOfFour(a: Result<seq<Alert>, AlertError>, b: Result<seq<Alert>, AlertError>,
                   c: Result<seq<Alert>, AlertError>, d: Result<seq<Alert>, AlertError>)
    ensures Join([a, b, c, d]) == Contribution(a) + Contribution(b) + Contribution(c) + Contribution(d)
  {
    assert [a, b, c, d][..3] == [a, b, c];
    assert [a, b, c][..2] == [a, b];
    assert [a, b][..1] == [a];
    assert [a][..0] == [];
    assert Join([a]) == Contribution(a);
    assert Join([a, b]) == Contribution(a) + Contribution(b);
    assert Join([a, b, c]) == Contribution(a) + Contribution(b) + Contribution(c);
  }

  /** getAllAlerts over four reads: their contributions appended, or the error if that is empty. */
  lemma AllAlertsOfFour(a: Result<seq<Alert>, AlertError>, b: Result<seq<Alert>, AlertError>,
                        c: Result<seq<Alert>, AlertError>, d: Result<seq<Alert>, AlertError>)
    ensures var all := Contribution(a) + Contribution(b) + Contribution(c) + Contribution(d);
      AllAlerts([a, b, c, d]) == if |all| > 0 then Ok(all) else Err(NoAlertRaisedYet)
  {
    JoinOfFour(a, b, c, d);
  }

  /** The four reads in the order getAllAlerts makes them witness its result. */
  lemma AllAlertsOfReads(s: Store, node: Result<seq<Alert>, AlertError>, volume: Result<seq<Alert>, AlertError>,
                         cluster: Result<seq<Alert>, AlertError>, drive: Result<seq<Alert>, AlertError>)
    requires IsPartitionOf(s, Node, node) && IsPartitionOf(s, Volume, volume)
    requires IsPartitionOf(s, Cluster, cluster) && IsPartitionOf(s, Drive, drive)
    ensures IsAllAlertsOf(s, AllAlerts([node, volume, cluster, drive]))
  {
    ReadsAllOfFour(s, node, volume, cluster, drive);
    AllAlertsWitness(s, [node, volume, cluster, drive]);
  }

  lemma AllAlertsWitness(s: Store, parts: seq<Result<seq<Alert>, AlertError>>)
    requires ReadsAll(s, parts)
    ensures IsAllAlertsOf(s, AllAlerts(parts))
  {
  }

  lemma ReadsAllOfFour(s: Store, node: Result<seq<Alert>, AlertError>, volume: Result<seq<Alert>, AlertError>,
                       cluster: Result<seq<Alert>, AlertError>, drive: Result<seq<Alert>, AlertError>)
    requires IsPartitionOf(s, Node, node) && IsPartitionOf(s, Volume, volume)
    requires IsPartitionOf(s, Cluster, cluster) && IsPartitionOf(s, Drive, drive)
    ensures ReadsAll(s, [node, volume, cluster, drive])
  {
    var parts := [node, volume, cluster, drive];
    assert parts[0] == node && parts[1] == volume && parts[2] == cluster && parts[3] == drive;
  }

  lemma PartitionAt(s: Store, parts: seq<Result<seq<Alert>, AlertError>>, i: nat, rt: ResourceType, r: Result<seq<Alert>, AlertError>)
    requires i < |parts| && i < |AllPartitions| && parts[i] == r && AllPartitions[i] == rt
    requires IsPartitionOf(s, rt, r)
    ensures IsPartitionOf(s, AllPartitions[i], parts[i])
  {
  }

  /** The result the append steps of getAllAlerts build from four reads is a possible result. */
  lemma AllAlertsOfContributions(s: Store, node: Result<seq<Alert>, AlertError>, volume: Result<seq<Alert>, AlertError>,
                                 cluster: Result<seq<Alert>, AlertError>, drive: Result<seq<Alert>, AlertError>, all: seq<Alert>)
    requires IsPartitionOf(s, Node, node) && IsPartitionOf(s, Volume, volume)
    requires IsPartitionOf(s, Cluster, cluster) && IsPartitionOf(s, Drive, drive)
    requires all == Contribution(node) + Contribution(volume) + Contribution(cluster) + Contribution(drive)
    ensures IsAllAlertsOf(s, if |all| > 0 then Ok(all) else Err(NoAlertRaisedYet))
  {
    AllAlertsOfFour(node, volume, cluster, drive);
    AllAlertsOfReads(s, node, volume, cluster, drive);
  }

  /** Key `k` of `s` is an alert record of one of the four partitions, holding `a`. */
  ghost predicate IsRecord(s: Store, k: string, a: Alert) {
    && k in s.data && s.data[k] == AlertValue(a)
    && exists i :: 0 <= i < |AllPartitions| && HasPrefix(k, ResourceKey(AllPartitions[i]))
  }

  /** Every key under the four partitions holds a decodable alert. */
  ghost predicate RecordsDecodable(s: Store) {
    forall i, k :: 0 <= i < |AllPartitions| && k in s.data && HasPrefix(k, ResourceKey(AllPartitions[i])) ==> s.data[k].AlertValue?
  }

  /** Every partition read is a success that lists exactly its stored alerts. */
  ghost predicate PartsExact(s: Store, parts: seq<Result<seq<Alert>, AlertError>>) {
    && |parts| == |AllPartitions|
    && forall i :: 0 <= i < |parts| ==>
         && parts[i].Ok?
         && forall a :: a in parts[i].value <==> exists k :: k in s.data && HasPrefix(k, ResourceKey(AllPartitions[i])) && s.data[k] == AlertValue(a)
  }

  /** `a` is in one of the successful partition reads. */
  ghost predicate InSomePart(parts: seq<Result<seq<Alert>, AlertError>>, a: Alert) {
    exists i :: 0 <= i < |parts| && parts[i].Ok? && a in parts[i].value
  }

  lemma InSomePartIffRecord(s: Store, parts: seq<Result<seq<Alert>, AlertError>>, a: Alert)
    requires PartsExact(s, parts)
    ensures InSomePart(parts, a) <==> exists k :: IsRecord(s, k, a)
  {
    if exists k :: IsRecord(s, k, a) {
      var k :| IsRecord(s, k, a);
      var i :| 0 <= i < |AllPartitions| && HasPrefix(k, ResourceKey(AllPartitions[i]));
      assert a in parts[i].value;
    }
    if InSomePart(parts, a) {
      var i :| 0 <= i < |parts| && parts[i].Ok? && a in parts[i].value;
      var k :| k in s.data && HasPrefix(k, ResourceKey(AllPartitions[i])) && s.data[k] == AlertValue(a);
      assert IsRecord(s, k, a);
    }
  }

  lemma PartsExactOf(s: Store, parts: seq<Result<seq<Alert>, AlertError>>)
    requires ReadsAll(s, parts) && s.fault.None? && RecordsDecodable(s)
    ensures PartsExact(s, parts)
  {
    forall i | 0 <= i < |parts|
      ensures parts[i].Ok?
      ensures forall a :: a in parts[i].value <==> exists k :: k in s.data && HasPrefix(k, ResourceKey(AllPartitions[i])) && s.data[k] == AlertValue(a)
    {
      ReadsAllAt(s, parts, i);
      PartitionDecodes(s, AllPartitions[i], parts[i]);
      PartitionContents(s, AllPartitions[i], parts[i]);
    }
  }

  /** The union of exact partition reads holds exactly the stored alerts; it is empty only if none is stored. */
  lemma AllAlertsOfExact(s: Store, parts: seq<Result<seq<Alert>, AlertError>>)
    requires PartsExact(s, parts)
    ensures AllAlerts(parts).Ok? <==> exists k, a :: IsRecord(s, k, a)
    ensures AllAlerts(parts).Ok? ==> forall a :: a in AllAlerts(parts).value <==> exists k :: IsRecord(s, k, a)
  {
    var r := AllAlerts(parts);
    if r.Ok? {
      forall a ensures a in r.value <==> exists k :: IsRecord(s, k, a) {
        assert a in r.value <==> InSomePart(parts, a);
        InSomePartIffRecord(s, parts, a);
      }
      assert r.value[0] in r.value;
    } else if exists k, a :: IsRecord(s, k, a) {
      var k, a :| IsRecord(s, k, a);
      InSomePartIffRecord(s, parts, a);
      var i :| 0 <= i < |parts| && parts[i].Ok? && a in parts[i].value;
      assert parts[i].value != [];
    }
  }

  /**
   * On a reachable store whose records all decode, getAllAlerts returns
   * exactly the stored alerts, and fails only when there is none.
   */
  lemma AllAlertsOfDecodable(s: Store, r: Result<seq<Alert>, AlertError>)
    requires IsAllAlertsOf(s, r) && s.fault.None? && RecordsDecodable(s)
    ensures r.Ok? <==> exists k, a :: IsRecord(s, k, a)
    ensures r.Ok? ==> forall a :: a in r.value <==> exists k :: IsRecord(s, k, a)
  {
    var parts: seq<Result<seq<Alert>, AlertError>> :| ReadsAll(s, parts) && r == AllAlerts(parts);
    PartsExactOf(s, parts);
    AllAlertsOfExact(s, parts);
  }

  /** Without a fault and with decodable records, a partition read succeeds. */
  lemma PartitionDecodes(s: Store, rt: ResourceType, r: Result<seq<Alert>, AlertError>)
    requires IsPartitionOf(s, rt, r) && s.fault.None?
    requires rt in AllPartitions && RecordsDecodable(s)
    ensures r.Ok?
  {
    var listed: Result<seq<Kv.Pair<Value>>, Kv.KvError> :| Kv.Enumerated(s, ResourceKey(rt), listed) && r == Partition(listed);
    var i :| 0 <= i < |AllPartitions| && AllPartitions[i] == rt;
    assert forall j :: 0 <= j < |listed.value| ==> listed.value[j].1.AlertValue?;
  }

  /**
   * enumerate after its read: a failed read gives no alerts and the error; a
   * successful one keeps the alerts at or below the severity, or all of them
   * when the severity is 0.
   */
  function Enumeration(severity: int, read: Result<seq<Alert>, AlertError>): (r: (seq<Alert>, Option<AlertError>))
    ensures read.Err? ==> r == ([], Some(read.error))
    ensures read.Ok? ==> r.1.None? && forall a :: a in r.0 <==> a in read.value && (severity == 0 || a.severity <= severity)
  {
    if read.Err? then ([], Some(read.error))
    else
      var kept := BySeverity(read.value, severity);
      assert forall a :: a in kept <==> a in read.value && (severity == 0 || a.severity <= severity) by {
        forall a ensures a in kept <==> a in read.value && (severity == 0 || a.severity <= severity) {
          if severity != 0 { FilterMembers(read.value, SeverityAtMost(severity), a); }
        }
      }
      (kept, None)
  }

  /** `r` is a possible result of enumerate(kv, filter): one partition, or all of them for None. */
  ghost predicate IsEnumerationOf(s: Store, resource: ResourceType, severity: int, r: (seq<Alert>, Option<AlertError>)) {
    exists read: Result<seq<Alert>, AlertError> ::
      && (if resource != ResourceNone then IsPartitionOf(s, resource, read) else IsAllAlertsOf(s, read))
      && r == Enumeration(severity, read)
  }

  /** A read of the kind enumerate makes witnesses its result. */
  lemma EnumerationOfRead(s: Store, resource: ResourceType, severity: int, read: Result<seq<Alert>, AlertError>)
    requires if resource != ResourceNone then IsPartitionOf(s, resource, read) else IsAllAlertsOf(s, read)
    ensures IsEnumerationOf(s, resource, severity, Enumeration(severity, read))
  {
  }

  /**
   * EnumerateWithinTimeRange after its read: a failed read gives no alerts
   * and the error; otherwise the alerts strictly inside the interval.
   */
  function WithinTimeRange(startNs: int, endNs: int, read: Result<seq<Alert>, AlertError>): (r: (seq<Alert>, Option<AlertError>))
    ensures read.Err? ==> r == ([], Some(read.error))
    ensures read.Ok? ==> r.1.None? && forall a :: a in r.0 <==> a in read.value && startNs < a.timestamp * 1_000_000_000 < endNs
  {
    if read.Err? then ([], Some(read.error))
    else
      var kept := Filter(read.value, Between(startNs, endNs));
      assert forall a :: a in kept <==> a in read.value && Keeps(Between(startNs, endNs), a) by {
        forall a { FilterMembers(read.value, Between(startNs, endNs), a); }
      }
      (kept, None)
  }

  /** `r` is a possible result of EnumerateWithinTimeRange on `s`. */
  ghost predicate IsTimeRangeOf(s: Store, resource: ResourceType, startNs: int, endNs: int, r: (seq<Alert>, Option<AlertError>)) {
    exists read: Result<seq<Alert>, AlertError> ::
      && (if resource != ResourceNone then IsPartitionOf(s, resource, read) else IsAllAlertsOf(s, read))
      && r == WithinTimeRange(startNs, endNs, read)
  }

  /** A read of the kind EnumerateWithinTimeRange makes witnesses its result. */
  lemma TimeRangeOfRead(s: Store, resource: ResourceType, startNs: int, endNs: int, read: Result<seq<Alert>, AlertError>)
    requires if resource != ResourceNone then IsPartitionOf(s, resource, read) else IsAllAlertsOf(s, read)
    ensures IsTimeRangeOf(s, resource, startNs, endNs, WithinTimeRange(startNs, endNs, read))
  {
  }
}
