/**
 * The objects of alert/alert_kvdb.go: the package-level cache of backend
 * handles and watchers, one registered watch, and the alert client. Every
 * method is proved to have exactly the effect and result that the functions
 * of AlertModel and AlertWatch give.
 */
module AlertKvdb {
  import opened Common
  import opened Strings
  import Kv
  import opened KvClient
  import opened AlertApi
  import opened AlertModel
  import opened AlertWatch

  /** A backend handle of the alert bus. */
  type Handle = Kvdb<Value>

  /** What kvdb.New finds for a new handle: the backend's state, or why it cannot be reached. */
  type Backend = Result<Store, string>

  /** The state a handle reaches after `writes` bootstrap-marker writes at time `now`. */
  function Marked(s: Store, writes: nat, now: int): Store {
    if writes == 0 || s.fault.Some? then s
    else Kv.Store(s.data[BootstrapKey() := TimeValue(now)], s.version + writes, s.fault)
  }

  /** One Watch registration (the source's watcher struct). */
  class Watcher {
    var status: WatcherStatus
    const cb: Callback
    const kv: Handle

    constructor (cb: Callback, kv: Handle)
      ensures status == WatchBootstrap && this.cb == cb && this.kv == kv
    {
      status := WatchBootstrap;
      this.cb := cb;
      this.kv := kv;
    }
  }

  /** The package-level state: kvdbMap, watcherMap, watchErrors. */
  class KvdbCache {
    var kvdbMap: map<string, Handle>
    var watcherMap: map<string, Watcher>
    var watchErrors: int
    /** The WatchTree registrations made so far, by watcher key. */
    var watchTrees: seq<string>

    constructor ()
      ensures kvdbMap == map[] && watcherMap == map[] && watchErrors == 0 && watchTrees == []
    {
      kvdbMap, watcherMap, watchErrors, watchTrees := map[], map[], 0, [];
    }

    /** Each registered watcher is its own object (Watch always registers a new one). */
    predicate WatchersDistinct()
      reads this
    {
      forall k1, k2 :: k1 in watcherMap && k2 in watcherMap && k1 != k2 ==> watcherMap[k1] != watcherMap[k2]
    }

    /** What the watch callback can see of the watchers. */
    function Views(): map<string, WatcherView>
      reads this, watcherMap.Values
    {
      map k | k in watcherMap :: WatcherView(watcherMap[k].status, watcherMap[k].cb)
    }

    /**
     * The handle for a cluster: the cached one, or a new one on the namespace
     * domain/clusterID that is cached from then on. Entries are never replaced.
     */
    method HandleFor(clusterID: string, domain: string, backend: Backend) returns (r: Result<Handle, AlertError>)
      modifies this
      ensures watcherMap == old(watcherMap) && watchErrors == old(watchErrors) && watchTrees == old(watchTrees)
      ensures clusterID in old(kvdbMap) ==> r == Ok(old(kvdbMap)[clusterID]) && kvdbMap == old(kvdbMap)
      ensures clusterID !in old(kvdbMap) && backend.Err? ==> r == Err(External(backend.error)) && kvdbMap == old(kvdbMap)
      ensures clusterID !in old(kvdbMap) && backend.Ok? ==>
        && r.Ok? && fresh(r.value)
        && r.value.domain == domain + "/" + clusterID && r.value.State() == backend.value
        && kvdbMap == old(kvdbMap)[clusterID := r.value]
      ensures r.Ok? ==> clusterID in kvdbMap && kvdbMap[clusterID] == r.value
    {
      if clusterID in kvdbMap {
        return Ok(kvdbMap[clusterID]);
      }
      if backend.Err? {
        return Err(External(backend.error));
      }
      var kv := new Kvdb(domain + "/" + clusterID, backend.value);
      kvdbMap := kvdbMap[clusterID := kv];
      r := Ok(kv);
    }

    /** Init: make sure the cluster has a handle, then build a client for it. */
    method Init(name: string, domain: string, machines: seq<string>, clusterID: string,
                options: map<string, string>, backend: Backend) returns (r: Result<KvAlert, AlertError>)
      modifies this
      ensures watcherMap == old(watcherMap) && watchErrors == old(watchErrors) && watchTrees == old(watchTrees)
      ensures clusterID in old(kvdbMap) ==> kvdbMap == old(kvdbMap)
      ensures clusterID !in old(kvdbMap) && backend.Err? ==> r == Err(External(backend.error)) && kvdbMap == old(kvdbMap)
      ensures clusterID !in old(kvdbMap) && backend.Ok? ==>
        && clusterID in kvdbMap && fresh(kvdbMap[clusterID])
        && kvdbMap[clusterID].domain == domain + "/" + clusterID && kvdbMap[clusterID].State() == backend.value
        && kvdbMap == old(kvdbMap)[clusterID := kvdbMap[clusterID]]
      ensures r.Ok? <==> clusterID in old(kvdbMap) || backend.Ok?
      ensures r.Ok? ==>
        && fresh(r.value) && r.value.cache == this && r.value.Valid()
        && r.value.clusterID == clusterID && r.value.kvdbName == name && r.value.kvdbDomain == domain
        && r.value.kvdbMachines == machines && r.value.kvdbOptions == options
    {
      var h := HandleFor(clusterID, domain, backend);
      if h.Err? {
        return Err(h.error);
      }
      var client := new KvAlert(this, options, name, domain, machines, clusterID);
      r := Ok(client);
    }

    /** subscribeWatch: register a tree watch on "alert/" for the watcher under `key`. */
    method SubscribeWatch(key: string, watchTree: Option<string>) returns (err: Option<AlertError>)
      modifies this
      ensures kvdbMap == old(kvdbMap) && watcherMap == old(watcherMap) && watchErrors == old(watchErrors)
      ensures key !in watcherMap ==> err == Some(WatchNotFound(key)) && watchTrees == old(watchTrees)
      ensures key in watcherMap && watchTree.Some? ==> err == Some(External(watchTree.value)) && watchTrees == old(watchTrees)
      ensures key in watcherMap && watchTree.None? ==> err == None && watchTrees == old(watchTrees) + [key]
    {
      if key !in watcherMap {
        return Some(WatchNotFound(key));
      }
      if watchTree.Some? {
        return Some(External(watchTree.value));
      }
      watchTrees := watchTrees + [key];
      err := None;
    }

    /**
     * kvdbWatch, the callback the backend calls per delivery. `resubscribe` is
     * what WatchTree answers if the callback re-subscribes (its error is only
     * logged). The returned invocation is the user callback's, if there was one.
     */
    method KvdbWatch(prefix: string, ev: WatchEvent, resubscribe: Option<string>) returns (ret: WatchReturn, call: Option<Invocation>)
      requires WatchersDistinct()
      modifies this, watcherMap.Values
      ensures kvdbMap == old(kvdbMap) && watcherMap == old(watcherMap) && WatchersDistinct()
      ensures var st := WatchStep(old(Views()), old(watchErrors), prefix, ev);
        && ret == st.ret && call == st.call && watchErrors == st.errors
        && Views() == StatusAfter(old(Views()), prefix, st)
        && watchTrees == old(watchTrees) + (if st.resubscribe.Some? && resubscribe.None? then [st.resubscribe.value] else [])
    {
      var segment := SecondSegment(prefix);
      if segment.None? {
        return Panicked, None;
      }
      match ev {
        case DeliveryError(e) =>
          ret, call := OnDeliveryError(prefix, segment.value, e, resubscribe);
        case Mutation(kvp) =>
          ret, call := OnMutation(prefix, segment.value, kvp, resubscribe);
      }
    }

    /** kvdbWatch on a delivery that carries an error. */
    method OnDeliveryError(prefix: string, key: string, e: AlertError, resubscribe: Option<string>)
      returns (ret: WatchReturn, call: Option<Invocation>)
      requires WatchersDistinct() && SecondSegment(prefix) == Some(key)
      modifies this, watcherMap.Values
      ensures kvdbMap == old(kvdbMap) && watcherMap == old(watcherMap) && WatchersDistinct()
      ensures var st := WatchStep(old(Views()), old(watchErrors), prefix, DeliveryError(e));
        && ret == st.ret && call == st.call && watchErrors == st.errors
        && Views() == StatusAfter(old(Views()), prefix, st)
        && watchTrees == old(watchTrees) + (if st.resubscribe.Some? && resubscribe.None? then [st.resubscribe.value] else [])
    {
      ghost var views := Views();
      if key !in watcherMap {
        return Panicked, None;
      }
      var w := watcherMap[key];
      if w.status == WatchBootstrap {
        w.status := WatchError;
        assert Views() == views[key := views[key].(status := WatchError)];
        return Returned(Some(e)), None;
      }
      if watchErrors == 5 {
        var inv := Invocation(None, ActionNone, prefix, "");
        var ignored := w.cb(inv);
        return Returned(Some(e)), Some(inv);
      }
      watchErrors := watchErrors + 1;
      var ignored := SubscribeWatch(key, resubscribe);
      return Returned(Some(e)), None;
    }

    /** kvdbWatch on a delivery that carries a key-value pair. */
    method OnMutation(prefix: string, key: string, kvp: KvPair, resubscribe: Option<string>)
      returns (ret: WatchReturn, call: Option<Invocation>)
      requires WatchersDistinct() && SecondSegment(prefix) == Some(key)
      modifies this, watcherMap.Values
      ensures kvdbMap == old(kvdbMap) && watcherMap == old(watcherMap) && WatchersDistinct()
      ensures var st := WatchStep(old(Views()), old(watchErrors), prefix, Mutation(kvp));
        && ret == st.ret && call == st.call && watchErrors == st.errors
        && Views() == StatusAfter(old(Views()), prefix, st)
        && watchTrees == old(watchTrees) + (if st.resubscribe.Some? && resubscribe.None? then [st.resubscribe.value] else [])
    {
      ghost var views := Views();
      if HasSuffix(kvp.key, BootstrapKeyName) {
        if key !in watcherMap {
          return Panicked, None;
        }
        var w := watcherMap[key];
        w.status := WatchReady;
        assert Views() == views[key := views[key].(status := WatchReady)];
        return Returned(None), None;
      }
      if HasSuffix(kvp.key, NextAlertIdKeyName) || Contains(kvp.key, SubscriptionsKeyName) {
        return Returned(None), None;
      }
      watchErrors := 0;
      var w: Option<Watcher> := if key in watcherMap then Some(watcherMap[key]) else None;
      if kvp.action == KVDelete {
        if w.None? {
          return Panicked, None;
        }
        var inv := Invocation(None, ActionDelete, prefix, kvp.key);
        return Returned(w.value.cb(inv)), Some(inv);
      }
      if !kvp.value.AlertValue? {
        return Returned(Some(UnmarshalAlertFailed)), None;
      }
      var alert := kvp.value.alert;
      match kvp.action {
        case KVCreate =>
          if w.None? {
            return Panicked, None;
          }
          var inv := Invocation(Some(alert), ActionCreate, prefix, kvp.key);
          return Returned(w.value.cb(inv)), Some(inv);
        case KVSet =>
          if w.None? {
            return Panicked, None;
          }
          var inv := Invocation(Some(alert), ActionUpdate, prefix, kvp.key);
          return Returned(w.value.cb(inv)), Some(inv);
        case _ =>
          return Returned(Some(UnhandledKvAction)), None;
      }
    }
  }

  /** The alert client (KvAlert): the options it was built with, bound to one cluster. */
  class KvAlert {
    const cache: KvdbCache
    const kvdbOptions: map<string, string>
    const kvdbName: string
    const kvdbDomain: string
    const kvdbMachines: seq<string>
    const clusterID: string

    constructor (cache: KvdbCache, options: map<string, string>, name: string, domain: string,
                 machines: seq<string>, clusterID: string)
      requires clusterID in cache.kvdbMap
      ensures this.cache == cache && kvdbOptions == options && kvdbName == name && kvdbDomain == domain
      ensures kvdbMachines == machines && this.clusterID == clusterID && Valid()
    {
      this.cache := cache;
      kvdbOptions, kvdbName, kvdbDomain, kvdbMachines := options, name, domain, machines;
      this.clusterID := clusterID;
    }

    /** The client's cluster has a handle: Init caches one and no entry is ever removed. */
    predicate Valid()
      reads this, cache
    {
      clusterID in cache.kvdbMap
    }

    /** GetKvdbInstance */
    function Instance(): Handle
      reads this, cache
      requires Valid()
    {
      cache.kvdbMap[clusterID]
    }

    /** getNextIDFromKVDB */
    method GetNextIdFromKvdb() returns (id: int, err: Option<AlertError>)
      requires Valid()
      modifies Instance()
      ensures var a := NextAlertId(old(Instance().State()));
        Instance().State() == a.store && id == a.id && err == a.err
    {
      var kv := Instance();
      ghost var s0 := kv.State();
      var key := NextAlertIdKey();
      var nextId := 0;
      var cerr := kv.Create(key, CounterValue(nextId + 1));
      while cerr.Some?
        invariant cerr.Some? ==> kv.State() == s0 && Kv.Create(s0, key, CounterValue(1)).Err?
        invariant cerr.None? ==> kv.State() == NextAlertId(s0).store && nextId == NextAlertId(s0).id && NextAlertId(s0).err.None?
        decreases if cerr.Some? then 1 else 0
      {
        var got := kv.Get(key);
        var decoded := if got.Ok? then DecodeCounter(got.value) else Err(got.error);
        if decoded.Err? {
          return -1, Some(ErrNotInitialized);
        }
        nextId := decoded.value;
        cerr := kv.CompareAndSet(key, CounterValue(Wrap64(nextId + 1)), got.value);
      }
      return nextId, None;
    }

    /** raise: one alert, no fan-out. */
    method RaiseOne(a: Alert, now: int) returns (err: Option<AlertError>, alert: Alert)
      requires Valid()
      modifies Instance()
      ensures var r := AlertModel.RaiseOne(old(Instance().State()), a, now);
        Instance().State() == r.store && err == r.err && alert == r.alert
    {
      if a.resource == ResourceNone {
        return Some(ErrResourceNotFound), a;
      }
      var id, e := GetNextIdFromKvdb();
      if e.Some? {
        return e, a;
      }
      alert := Stamped(a, id, now);
      var cerr := Instance().Create(RecordKey(alert.resource, alert.id), AlertValue(alert));
      err := AsAlertError(cerr);
    }

    /** Raise: the subscribed alerts first, in list order, then `a`. */
    method Raise(a: Alert, now: int, ghost depth: nat) returns (err: Option<AlertError>, alert: Alert)
      requires Valid() && FanOutBounded(Instance().State(), a.alertType, depth)
      modifies Instance()
      ensures var r := AlertModel.Raise(old(Instance().State()), a, now, depth);
        Instance().State() == r.store && err == r.err && alert == r.alert
      decreases depth, 0
    {
      var kv := Instance();
      ghost var s0 := kv.State();
      var got := kv.Get(SubscriptionsKey(a.alertType));
      var subs := if got.Ok? then DecodeSubscriptions(got.value) else Err(got.error);
      assert subs == Subscriptions(s0, a.alertType);
      if subs.Err? {
        if subs.error != Kv.ErrNotFound {
          return Some(KvFailure(subs.error)), a;
        }
      } else {
        var ok := RaiseSubscribed(subs.value, now, depth - 1);
        if !ok {
          return Some(ErrSubscribedRaise), a;
        }
      }
      err, alert := RaiseOne(a, now);
    }

    /** The loop over the subscribed alerts: each in list order, stopping at the first that fails. */
    method RaiseSubscribed(children: seq<Alert>, now: int, ghost depth: nat) returns (ok: bool)
      requires Valid()
      requires forall i :: 0 <= i < |children| ==> FanOutBounded(Instance().State(), children[i].alertType, depth)
      modifies Instance()
      ensures (Instance().State(), ok) == RaiseChildren(old(Instance().State()), children, now, depth)
      decreases depth, 1
    {
      ghost var s0 := Instance().State();
      var i := 0;
      while i < |children|
        invariant 0 <= i <= |children|
        invariant RaiseChildren(s0, children[..i], now, depth) == (Instance().State(), true)
      {
        RaiseChildrenNext(s0, children, i, now, depth, Instance().State());
        var childErr, _ := Raise(children[i], now, depth);
        if childErr.Some? {
          RaiseChildrenStops(s0, children, i + 1, now, depth);
          return false;
        }
        i := i + 1;
      }
      assert children[..|children|] == children;
      ok := true;
    }

    /** Subscribe */
    method Subscribe(parentAlertType: int, child: Alert) returns (err: Option<AlertError>)
      requires Valid()
      modifies Instance()
      ensures var r := AlertModel.Subscribe(old(Instance().State()), parentAlertType, child);
        Instance().State() == r.0 && err == r.1
    {
      var kv := Instance();
      var key := SubscriptionsKey(parentAlertType);
      var got := kv.Get(key);
      var subs := if got.Ok? then DecodeSubscriptions(got.value) else Err(got.error);
      if subs.Err? && subs.error != Kv.ErrNotFound {
        return Some(KvFailure(subs.error));
      }
      var list := if subs.Ok? then subs.value else [];
      var perr := kv.Put(key, SubscriptionsValue(list + [child]));
      err := AsAlertError(perr);
    }

    /** Clear (the ttl argument is not modelled). */
    method Clear(resourceType: ResourceType, alertId: int) returns (err: Option<AlertError>)
      requires Valid()
      modifies Instance()
      ensures var r := AlertModel.Clear(old(Instance().State()), resourceType, alertId);
        Instance().State() == r.0 && err == r.1
    {
      if resourceType == ResourceNone {
        return Some(ErrResourceNotFound);
      }
      var kv := Instance();
      var key := RecordKey(resourceType, alertId);
      var got := kv.Get(key);
      var decoded := if got.Ok? then DecodeAlert(got.value) else Err(got.error);
      if decoded.Err? {
        return Some(KvFailure(decoded.error));
      }
      var uerr := kv.Update(key, AlertValue(decoded.value.(cleared := true)));
      err := AsAlertError(uerr);
    }

    /** Erase */
    method Erase(resourceType: ResourceType, alertId: int) returns (err: Option<AlertError>)
      requires Valid()
      modifies Instance()
      ensures var r := AlertModel.Erase(old(Instance().State()), resourceType, alertId);
        Instance().State() == r.0 && err == r.1
    {
      if resourceType == ResourceNone {
        return Some(ErrResourceNotFound);
      }
      var derr := Instance().Delete(RecordKey(resourceType, alertId));
      err := AsAlertError(derr);
    }

    /** Retrieve */
    method Retrieve(resourceType: ResourceType, alertId: int) returns (alert: Alert, err: Option<AlertError>)
      requires Valid()
      ensures (alert, err) == AlertModel.Retrieve(Instance().State(), resourceType, alertId)
    {
      if resourceType == ResourceNone {
        return ZeroAlert, Some(ErrResourceNotFound);
      }
      var got := Instance().Get(RecordKey(resourceType, alertId));
      var decoded := if got.Ok? then DecodeAlert(got.value) else Err(got.error);
      if decoded.Err? {
        return ZeroAlert, Some(KvFailure(decoded.error));
      }
      return decoded.value, None;
    }

    /** getResourceSpecificAlerts: list the partition, decode every value. */
    method GetResourceSpecificAlerts(resourceType: ResourceType, kv: Handle) returns (r: Result<seq<Alert>, AlertError>)
      ensures IsPartitionOf(kv.State(), resourceType, r)
    {
      var listed := kv.Enumerate(ResourceKey(resourceType));
      if listed.Err? {
        r := Err(KvFailure(listed.error));
        assert r == Partition(listed);
        return;
      }
      var pairs := listed.value;
      var out: seq<Alert> := [];
      var i := 0;
      while i < |pairs|
        invariant 0 <= i <= |pairs|
        invariant DecodeListing(pairs[..i]) == Ok(out)
      {
        assert pairs[..i + 1][..i] == pairs[..i];
        var v := pairs[i].1;
        if !v.AlertValue? {
          r := Err(DecodeFailure);
          assert r == Partition(listed);
          return;
        }
        out := out + [v.alert];
        i := i + 1;
      }
      assert pairs[..|pairs|] == pairs;
      r := Ok(out);
      assert r == Partition(listed);
    }

    /** getAllAlerts: the node, volume, cluster and drive partitions, skipping failed reads. */
    method GetAllAlerts(kv: Handle) returns (r: Result<seq<Alert>, AlertError>)
      ensures IsAllAlertsOf(kv.State(), r)
    {
      var all: seq<Alert> := [];
      var nodeAlerts := GetResourceSpecificAlerts(Node, kv);
      all := AppendIfRead(all, nodeAlerts);
      var volumeAlerts := GetResourceSpecificAlerts(Volume, kv);
      all := AppendIfRead(all, volumeAlerts);
      var clusterAlerts := GetResourceSpecificAlerts(Cluster, kv);
      all := AppendIfRead(all, clusterAlerts);
      var driveAlerts := GetResourceSpecificAlerts(Drive, kv);
      all := AppendIfRead(all, driveAlerts);
      assert [] + Contribution(nodeAlerts) == Contribution(nodeAlerts);
      r := if |all| > 0 then Ok(all) else Err(NoAlertRaisedYet);
      AllAlertsOfContributions(kv.State(), nodeAlerts, volumeAlerts, clusterAlerts, driveAlerts, all);
    }

    /** One append step of getAllAlerts: a partition's alerts are added only if its read succeeded. */
    static method AppendIfRead(all: seq<Alert>, part: Result<seq<Alert>, AlertError>) returns (r: seq<Alert>)
      ensures r == all + Contribution(part)
    {
      r := all;
      if part.Ok? {
        r := r + part.value;
      } else {
        assert r == all + [];
      }
    }

    /** The read both enumerations start with: one partition, or all of them for None. */
    method ReadAlerts(resourceType: ResourceType, kv: Handle) returns (r: Result<seq<Alert>, AlertError>)
      ensures if resourceType != ResourceNone then IsPartitionOf(kv.State(), resourceType, r) else IsAllAlertsOf(kv.State(), r)
    {
      if resourceType != ResourceNone {
        r := GetResourceSpecificAlerts(resourceType, kv);
      } else {
        r := GetAllAlerts(kv);
      }
    }

    /** enumerate: read, then filter by severity. */
    method EnumerateOn(kv: Handle, filter: Alert) returns (alerts: seq<Alert>, err: Option<AlertError>)
      ensures IsEnumerationOf(kv.State(), filter.resource, filter.severity, (alerts, err))
    {
      var read := ReadAlerts(filter.resource, kv);
      alerts, err := SeverityStep(filter.severity, read);
      EnumerationOfRead(kv.State(), filter.resource, filter.severity, read);
    }

    /** The filter loop of enumerate: at or below the severity, or everything for severity 0. */
    static method SeverityStep(severity: int, read: Result<seq<Alert>, AlertError>) returns (alerts: seq<Alert>, err: Option<AlertError>)
      ensures (alerts, err) == Enumeration(severity, read)
    {
      var resourceAlerts := if read.Ok? then read.value else [];
      err := if read.Ok? then None else Some(read.error);
      if severity != 0 {
        alerts := [];
        var i := 0;
        while i < |resourceAlerts|
          invariant 0 <= i <= |resourceAlerts|
          invariant alerts == Filter(resourceAlerts[..i], SeverityAtMost(severity))
        {
          assert resourceAlerts[..i + 1][..i] == resourceAlerts[..i];
          if resourceAlerts[i].severity <= severity {
            alerts := alerts + [resourceAlerts[i]];
          }
          i := i + 1;
        }
        assert resourceAlerts[..|resourceAlerts|] == resourceAlerts;
      } else {
        alerts := resourceAlerts;
      }
    }

    /** Enumerate: enumerate on the client's own cluster. */
    method Enumerate(filter: Alert) returns (alerts: seq<Alert>, err: Option<AlertError>)
      requires Valid()
      ensures IsEnumerationOf(Instance().State(), filter.resource, filter.severity, (alerts, err))
    {
      alerts, err := EnumerateOn(Instance(), filter);
    }

    /** EnumerateWithinTimeRange: read, then filter by time (instants in Unix nanoseconds). */
    method EnumerateWithinTimeRange(startNs: int, endNs: int, resourceType: ResourceType) returns (alerts: seq<Alert>, err: Option<AlertError>)
      requires Valid()
      ensures IsTimeRangeOf(Instance().State(), resourceType, startNs, endNs, (alerts, err))
    {
      var read := ReadAlerts(resourceType, Instance());
      alerts, err := TimeRangeStep(startNs, endNs, read);
      TimeRangeOfRead(Instance().State(), resourceType, startNs, endNs, read);
    }

    /**
     * The filter loop of EnumerateWithinTimeRange: keep the alerts whose
     * second-precision time is after the start and before the end.
     */
    static method TimeRangeStep(startNs: int, endNs: int, read: Result<seq<Alert>, AlertError>) returns (alerts: seq<Alert>, err: Option<AlertError>)
      ensures (alerts, err) == WithinTimeRange(startNs, endNs, read)
    {
      if read.Err? {
        return [], Some(read.error);
      }
      var resourceAlerts := read.value;
      alerts := [];
      var i := 0;
      while i < |resourceAlerts|
        invariant 0 <= i <= |resourceAlerts|
        invariant alerts == Filter(resourceAlerts[..i], Between(startNs, endNs))
      {
        assert resourceAlerts[..i + 1][..i] == resourceAlerts[..i];
        var alertTime := resourceAlerts[i].timestamp * 1_000_000_000;
        if alertTime < endNs && alertTime > startNs {
          alerts := alerts + [resourceAlerts[i]];
        }
        i := i + 1;
      }
      assert resourceAlerts[..|resourceAlerts|] == resourceAlerts;
      err := None;
    }

    /** getKvdbForCluster: the cached handle for a cluster, or a new one built from this client's options. */
    method GetKvdbForCluster(clusterID: string, backend: Backend) returns (r: Result<Handle, AlertError>)
      modifies cache
      ensures cache.watcherMap == old(cache.watcherMap) && cache.watchErrors == old(cache.watchErrors)
      ensures cache.watchTrees == old(cache.watchTrees)
      ensures clusterID in old(cache.kvdbMap) ==> r == Ok(old(cache.kvdbMap)[clusterID]) && cache.kvdbMap == old(cache.kvdbMap)
      ensures clusterID !in old(cache.kvdbMap) && backend.Err? ==> r == Err(External(backend.error)) && cache.kvdbMap == old(cache.kvdbMap)
      ensures clusterID !in old(cache.kvdbMap) && backend.Ok? ==>
        && r.Ok? && fresh(r.value)
        && r.value.domain == kvdbDomain + "/" + clusterID && r.value.State() == backend.value
        && cache.kvdbMap == old(cache.kvdbMap)[clusterID := r.value]
      ensures r.Ok? ==> clusterID in cache.kvdbMap && cache.kvdbMap[clusterID] == r.value
      ensures old(Valid()) ==> Valid() && Instance() == old(Instance())
    {
      r := cache.HandleFor(clusterID, kvdbDomain, backend);
    }

    /** EnumerateByCluster: enumerate on another cluster, through this client's options. */
    method EnumerateByCluster(clusterID: string, filter: Alert, backend: Backend) returns (alerts: seq<Alert>, err: Option<AlertError>)
      modifies cache
      ensures cache.watcherMap == old(cache.watcherMap) && cache.watchErrors == old(cache.watchErrors)
      ensures cache.watchTrees == old(cache.watchTrees)
      ensures clusterID in old(cache.kvdbMap) || backend.Err? ==> cache.kvdbMap == old(cache.kvdbMap)
      ensures clusterID !in old(cache.kvdbMap) && backend.Ok? ==>
        && clusterID in cache.kvdbMap && fresh(cache.kvdbMap[clusterID])
        && cache.kvdbMap[clusterID].domain == kvdbDomain + "/" + clusterID
        && cache.kvdbMap == old(cache.kvdbMap)[clusterID := cache.kvdbMap[clusterID]]
      ensures old(Valid()) ==> Valid() && Instance() == old(Instance())
      ensures clusterID !in old(cache.kvdbMap) && backend.Err? ==> (alerts, err) == ([], Some(External(backend.error))) && cache.kvdbMap == old(cache.kvdbMap)
      ensures clusterID in old(cache.kvdbMap) || backend.Ok? ==>
        && clusterID in cache.kvdbMap
        && IsEnumerationOf(cache.kvdbMap[clusterID].State(), filter.resource, filter.severity, (alerts, err))
      ensures clusterID !in old(cache.kvdbMap) && backend.Ok? ==>
        IsEnumerationOf(backend.value, filter.resource, filter.severity, (alerts, err))
    {
      var h := GetKvdbForCluster(clusterID, backend);
      if h.Err? {
        return [], Some(h.error);
      }
      alerts, err := EnumerateOn(h.value, filter);
    }

    /**
     * Watch: register a watcher for the cluster, subscribe, then write the
     * bootstrap marker until the watch reports it (at most five times).
     * `observed` is the status the watcher holds after each write, as the
     * watch callback running beside this loop sets it; `watchTree` is what the
     * backend answers to the subscription.
     */
    method Watch(clusterID: string, cb: Callback, backend: Backend, watchTree: Option<string>,
                 now: int, observed: seq<WatcherStatus>) returns (err: Option<AlertError>, writes: nat, ghost initial: Store)
      requires cache.WatchersDistinct()
      modifies cache, cache.kvdbMap.Values
      ensures cache.WatchersDistinct() && cache.watchErrors == old(cache.watchErrors)
      ensures clusterID !in old(cache.kvdbMap) && backend.Err? ==>
        && err == Some(External(backend.error)) && writes == 0
        && cache.kvdbMap == old(cache.kvdbMap) && cache.watcherMap == old(cache.watcherMap) && cache.watchTrees == old(cache.watchTrees)
      ensures clusterID in old(cache.kvdbMap) || backend.Ok? ==>
        && clusterID in cache.kvdbMap && clusterID in cache.watcherMap
        && initial == (if clusterID in old(cache.kvdbMap) then old(cache.kvdbMap[clusterID].State()) else backend.value)
        && var w := cache.watcherMap[clusterID];
           var kv := cache.kvdbMap[clusterID];
        && fresh(w) && w.cb == cb && w.kv == kv
        && cache.watcherMap == old(cache.watcherMap)[clusterID := w]
        && kv.State() == Marked(initial, writes, now)
        && (watchTree.Some? ==>
              && err == Some(External(watchTree.value)) && writes == 0
              && cache.watchTrees == old(cache.watchTrees) && w.status == WatchBootstrap)
        && (watchTree.None? ==> cache.watchTrees == old(cache.watchTrees) + [clusterID])
        && (watchTree.None? && initial.fault.Some? ==>
              err == Some(KvFailure(Kv.Unavailable(initial.fault.value))) && writes == 1)
        && (watchTree.None? && initial.fault.None? ==>
              err == HandshakeResult(clusterID, observed) && writes == Handshake(observed, 0).0)
        && (watchTree.None? ==> w.status == (if initial.fault.Some? then WatchBootstrap else HandshakeStatus(observed)))
      ensures err.None? ==> clusterID in cache.watcherMap && cache.watcherMap[clusterID].status == WatchReady
      ensures clusterID in old(cache.kvdbMap) || backend.Err? ==> cache.kvdbMap == old(cache.kvdbMap)
      ensures clusterID !in old(cache.kvdbMap) && backend.Ok? ==>
        && clusterID in cache.kvdbMap && fresh(cache.kvdbMap[clusterID])
        && cache.kvdbMap[clusterID].domain == kvdbDomain + "/" + clusterID
        && cache.kvdbMap == old(cache.kvdbMap)[clusterID := cache.kvdbMap[clusterID]]
      ensures forall k :: k in old(cache.kvdbMap) && (clusterID !in cache.kvdbMap || cache.kvdbMap[k] != cache.kvdbMap[clusterID]) ==>
        cache.kvdbMap[k].State() == old(cache.kvdbMap[k].State())
      ensures old(Valid()) ==> Valid() && Instance() == old(Instance())
      ensures old(Valid()) && (clusterID !in cache.kvdbMap || Instance() != cache.kvdbMap[clusterID]) ==>
        Instance().State() == old(Instance().State())
    {
      initial := if clusterID in cache.kvdbMap then cache.kvdbMap[clusterID].State()
        else if backend.Ok? then backend.value else Kv.Store(map[], 0, None);
      var h := GetKvdbForCluster(clusterID, backend);
      if h.Err? {
        return Some(h.error), 0, initial;
      }
      var kv := h.value;
      var w := new Watcher(cb, kv);
      cache.watcherMap := cache.watcherMap[clusterID := w];
      err := cache.SubscribeWatch(clusterID, watchTree);
      writes := 0;
      if err.Some? {
        return;
      }
      err, writes := BootstrapWatch(w, kv, clusterID, now, observed);
    }

    /**
     * The bootstrap loop of Watch: write the marker, then look at the status
     * the watch callback has set; give up after five writes that left it in
     * bootstrap, and fail unless it ended Ready.
     */
    static method BootstrapWatch(w: Watcher, kv: Handle, clusterID: string, now: int, observed: seq<WatcherStatus>)
      returns (err: Option<AlertError>, writes: nat)
      requires w.status == WatchBootstrap
      modifies w, kv
      ensures kv.State() == Marked(old(kv.State()), writes, now)
      ensures old(kv.fault).Some? ==> err == Some(KvFailure(Kv.Unavailable(old(kv.fault).value))) && writes == 1
      ensures old(kv.fault).None? ==> err == HandshakeResult(clusterID, observed) && writes == Handshake(observed, 0).0
      ensures w.status == (if old(kv.fault).Some? then WatchBootstrap else HandshakeStatus(observed))
      ensures err.None? ==> w.status == WatchReady
    {
      ghost var initial := kv.State();
      writes := 0;
      var retries := 0;
      while w.status == WatchBootstrap
        invariant 0 <= retries < WatchRetries
        invariant kv.State() == Marked(initial, writes, now)
        invariant writes > 0 ==> initial.fault.None?
        invariant w.status == WatchBootstrap ==> writes == retries && Handshake(observed, 0) == Handshake(observed, retries)
        invariant w.status != WatchBootstrap ==> Handshake(observed, 0) == (writes, Some(w.status))
        decreases WatchRetries - retries, if w.status == WatchBootstrap then 1 else 0
      {
        var perr := kv.Put(BootstrapKey(), TimeValue(now));
        writes := writes + 1;
        if perr.Some? {
          return Some(KvFailure(perr.value)), writes;
        }
        w.status := ObservedAt(observed, retries);
        if w.status == WatchBootstrap {
          retries := retries + 1;
        }
        if retries == WatchRetries {
          return Some(BootstrapTimeout(clusterID)), writes;
        }
      }
      if w.status != WatchReady {
        return Some(WatchFailed(clusterID)), writes;
      }
      return None, writes;
    }
  }
}
