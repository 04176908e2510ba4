# Alert bus and cluster database, modelled in Dafny

This project models two parts of an openstorage node, both built on a
key-value backend (the portworx `kvdb` interface):

- **The alert bus** (`alert/alert_kvdb.go`, `alert/alert.go`). Alerts are
  records stored under `alert/<partition>/<id>`. Ids come from a counter at
  `alert/nextAlertId`, bumped by create-or-compare-and-set. Subscription
  lists live at `alert/subscriptions/<type>`: raising an alert first raises
  every alert subscribed to its type.
  - Alerts can be cleared, erased, retrieved and enumerated, with severity
    and time-range filters.
  - A watch callback turns backend events into notifications for the user.
    It runs a small state machine: watcher status, and a process-wide count
    of consecutive delivery errors.
  - Backend handles are cached per cluster.
  - A registry maps driver names to initializers and remembers the instances
    it created.
- **The cluster database** (`cluster/database.go`). One JSON record at
  `cluster/database` describes the cluster. It is read either once from the
  live store, or from a frozen snapshot paired with an update collector
  started at the snapshot's version. It is written back by an unconditional
  overwrite.

## File layout

- `kv.dfy`: the backend as pure functions over `Store(data, version,
  fault)`, and `KvClient.Kvdb`, the mutable handle the code shares. While
  `fault` holds a reason, every call fails with it and changes nothing.
- `alert_model.dfy`: the alert store as functions of the backend state.
- `alert_watch.dfy`: `kvdbWatch` as a step function.
- `alert_kvdb.dfy`: three classes.
  - `KvdbCache` holds `kvdbMap`, `watcherMap` and `watchErrors`.
  - `Watcher` is one registered watch.
  - `KvAlert` is the client.

  Every method is proved to produce the state and result of the
  corresponding function, and says which parts of the package state it
  leaves as they were.
- `alert_api.dfy`: the error sentinels and the driver registry.
- `cluster_database.dfy`: the cluster database.

## Behaviour of the code worth noting

- **Raise fans out before the resource check.** The subscribed alerts are
  raised before `raise` refuses `RESOURCE_TYPE_NONE`. A parent with resource
  NONE therefore still raises all its children (`RaiseNoneAfterFanOut`).
- **The give-up notice comes on the sixth error, and repeats.** The counter
  is compared with 5 before it is incremented. So on a ready watcher, the
  stop notice (the callback with no alert and action NONE) comes with the
  sixth consecutive delivery error. The counter stays at 5, so every later
  error brings the notice again (`ErrorBurst`).
- **kvdbWatch unregisters nothing itself.** With the stop notice it returns
  the delivery error and does not resubscribe. Whether the watch then ends
  is decided by the backend.
- **The bootstrap marker readies a watcher in any status**, including Error.
- **The snapshot path gives no state on a read error.** `snapAndReadClusterInfo`
  returns no state at all when the snapshot read fails with an error other
  than "Key not found". `readClusterInfo` returns the default descriptor in
  that case.
- **"Key not found" is matched as a substring** of the error text. Any
  backend error whose text mentions it counts as absence.
- **A missing watcher panics only where the code dereferences it.** In
  `kvdbWatch` that is at its status or at its callback. An undecodable value,
  or an unhandled action, returns its error before the callback is reached.

## Model

| member | source | states |
|---|---|---|
| AlertApi.Registry.constructor | alert/alert.go:33-34 | the registry starts with no drivers and no instances |
| AlertApi.Registry.Register | alert/alert.go:120-128 | a fresh name is added with its initializer and nil is returned; an existing name gives ErrExist and the drivers are unchanged; instances are untouched |
| AlertApi.Registry.New | alert/alert.go:91-117 | an unregistered name gives ErrNotSupported; otherwise the result is the initializer's; only a success records the instance, replacing any earlier one under that name; drivers are unchanged |
| AlertApi.Registry.Shutdown | alert/alert.go:82-88 | the new Shutdown calls list every remembered instance exactly once, with its name; no earlier call is changed; the maps are unchanged |
| AlertModel.ResourceKey | alert/alert_kvdb.go:266-277 | the partition prefix of a resource type: alert/volume/, alert/node/, alert/cluster/, and alert/drive/ for everything else; its properties are ResourceKeyFamily and ResourceKeyInjective |
| AlertModel.NextAlertIdKey | alert/alert_kvdb.go:279-281 | the counter key alert/nextAlertId; BookkeepingKeysDistinct separates it from every other key |
| AlertModel.SubscriptionsKey | alert/alert_kvdb.go:283-285 | alert/subscriptions/ followed by the decimal alert type; SubscriptionsKeyInjective states it |
| AlertModel.RecordKey | alert/alert_kvdb.go:297-300 | a record lives at its partition prefix followed by the decimal id; RecordKeyInjective states it |
| AlertModel.BootstrapKey | alert/alert_kvdb.go:238 | the handshake marker alert/bootstrap |
| AlertModel.DecodeAlert | alert/alert_kvdb.go:151-159 | a stored value decodes as an alert only if it is one |
| AlertModel.DecodeSubscriptions | alert/alert_kvdb.go:104-110 | a stored value decodes as a subscription list only if it is one |
| AlertModel.DecodeCounter | alert/alert_kvdb.go:325-329 | the counter decodes only as a number within the 64-bit range |
| AlertModel.GetVal | alert/alert_kvdb.go:151-159 | GetVal: the read's error, else the decoding of the value |
| AlertModel.NextFree | alert/alert_kvdb.go:320-337 | the id the next allocation hands out: 0 with no counter, the stored number otherwise, none when unreadable; NextAlertId is tied to it |
| AlertModel.Subscriptions | alert/alert_kvdb.go:104-110 | the list Raise and Subscribe read for an alert type |
| AlertModel.Partition | alert/alert_kvdb.go:339-354 | an Enumerate error is returned; otherwise the listing is decoded; PartitionContents and DecodeListing state it |
| AlertModel.ResourceKeyFamily | alert/alert_kvdb.go:266-277 | every partition prefix starts with "alert/" and is told apart by the character after it; NONE falls through to drive/ |
| AlertModel.ResourceKeyInjective | alert/alert_kvdb.go:266-277 | partitions whose prefixes agree after "alert/" have the same prefix |
| AlertModel.RecordKeyInjective | alert/alert_kvdb.go:266-277 | two record keys collide only for the same partition prefix and the same id |
| AlertModel.SubscriptionsKeyInjective | alert/alert_kvdb.go:283-285 | distinct alert types have distinct subscription keys |
| AlertModel.BookkeepingKeysDistinct | alert/alert_kvdb.go:266-285 | record keys differ from the counter key, every subscription key and the bootstrap marker; the counter key differs from every subscription key |
| AlertModel.Wrap64 | alert/alert_kvdb.go:333 | Go's 64-bit addition: the result is within int64 and equals the input when no wrap occurs |
| AlertModel.NextAlertId | alert/alert_kvdb.go:320-337 | succeeds iff the counter is absent or readable; hands out the free id (0 when absent, else the stored n) and stores id+1; a counter read failure gives -1 and ErrNotInitialized and changes nothing |
| AlertModel.AllocationsCountUp | alert/alert_kvdb.go:320-337 | k sequential allocations from counter c return c, c+1, ..., c+k-1 and leave the counter at c+k |
| AlertModel.AllocationsUnique | alert/alert_kvdb.go:320-337 | ids of sequential allocations are strictly increasing, hence pairwise distinct |
| AlertModel.RaiseOne | alert/alert_kvdb.go:287-302 | NONE gives ErrResourceNotFound with nothing written; an unreadable counter gives ErrNotInitialized; otherwise the alert is stamped with the id, now and Cleared false; it is created at its record key unless that key exists (ErrExist), and the counter moves on in either case |
| AlertModel.RaiseThenRetrieve | alert/alert_kvdb.go:287-302 | after a successful raise, Retrieve of the allocated id returns the stamped, uncleared alert |
| AlertModel.RaiseOneKeepsSubscriptions | alert/alert_kvdb.go:292-300 | raise writes no subscription list |
| AlertModel.RaiseOneFresh | alert/alert_kvdb.go:292-300 | on a store whose ids from `id` up are unused, raise takes `id`, adds exactly the counter and its record, and leaves ids from id+1 unused |
| AlertModel.Raise | alert/alert_kvdb.go:104-119 | keeps every subscription list; a success leaves the stamped alert stored at its record key; ErrSubscribedRaise leaves the caller's alert unchanged; NONE always ends in an error |
| AlertModel.RaiseChildFails | alert/alert_kvdb.go:112-116 | when a subscribed raise fails, Raise returns ErrSubscribedRaise with the store the fan-out left and the caller's alert: the parent takes no id and no record of it is written |
| AlertModel.RaiseChildren | alert/alert_kvdb.go:112-116 | the loop over the subscribed alerts keeps every subscription list |
| AlertModel.RaiseChildrenNext | alert/alert_kvdb.go:112-116 | one turn of the loop raises the next subscribed alert on the store the earlier turns left |
| AlertModel.RaiseAfterChildren | alert/alert_kvdb.go:104-119 | after a fan-out that succeeded, Raise is the single raise of the parent on the resulting store |
| AlertModel.RaiseChildrenStops | alert/alert_kvdb.go:112-116 | once a subscribed alert fails, the later ones are not raised |
| AlertModel.RaiseLeavesInOrder | alert/alert_kvdb.go:112-116 | subscribed leaf alerts are raised in list order: the i-th gets id c+i, each record is stored and the counter ends at c+n |
| AlertModel.RaiseFansOutFirst | alert/alert_kvdb.go:104-119 | with leaf children, the children take ids c..c+n-1 in list order and the parent takes c+n, after all of them; every record is stored |
| AlertModel.RaiseUnsubscribed | alert/alert_kvdb.go:107-110 | a missing or empty subscription list makes Raise the single raise |
| AlertModel.RaiseListUnreadable | alert/alert_kvdb.go:107-110 | any other failure reading the list is returned with nothing written |
| AlertModel.RaiseNoneAfterFanOut | alert/alert_kvdb.go:104-119 | a NONE parent is refused only after its subscribed alerts were raised, and their writes stay |
| AlertModel.Subscribe | alert/alert_kvdb.go:122-133 | succeeds iff the list is readable or absent and the backend is reachable; the list becomes the old list (absent = empty) with the child appended; no other key changes; a failure changes nothing |
| AlertModel.SubscribeAppends | alert/alert_kvdb.go:122-133 | two subscriptions append both children in call order |
| AlertModel.Clear | alert/alert_kvdb.go:305-318 | NONE gives ErrResourceNotFound; succeeds iff the record exists and decodes; sets only Cleared; a failure changes nothing |
| AlertModel.ClearIdempotent | alert/alert_kvdb.go:305-318 | a second Clear succeeds and changes no record |
| AlertModel.ClearThenRetrieve | alert/alert_kvdb.go:305-318 | after Clear, Retrieve gives the same alert with Cleared set |
| AlertModel.Erase | alert/alert_kvdb.go:136-143 | NONE gives ErrResourceNotFound; succeeds iff the record exists; removes exactly that key; a failure changes nothing |
| AlertModel.Retrieve | alert/alert_kvdb.go:151-159 | NONE gives the zero alert and ErrResourceNotFound; succeeds iff the record exists and decodes, returning what is stored |
| AlertModel.EraseThenRetrieve | alert/alert_kvdb.go:136-159 | after Erase, Retrieve of that id fails with not found |
| AlertModel.EraseKeepsOthers | alert/alert_kvdb.go:136-143 | Erase leaves every other record retrievable as before |
| AlertModel.DecodeListing | alert/alert_kvdb.go:346-352 | the partition decodes iff every listed value is an alert; the alerts are the listed values in order |
| AlertModel.PartitionContents | alert/alert_kvdb.go:339-354 | a partition read holds an alert iff some key under the prefix stores it, one entry per key |
| AlertModel.AllAlerts | alert/alert_kvdb.go:356-387 | error "No alert raised yet" iff every partition failed or was empty; otherwise the alerts of the successful partitions |
| AlertModel.AllAlertsOfFour | alert/alert_kvdb.go:364-386 | the union is the Node, Volume, Cluster and Drive contributions appended in that order, failed reads contributing nothing |
| AlertModel.AllAlertsOfDecodable | alert/alert_kvdb.go:356-387 | on a reachable store whose records decode, getAllAlerts returns exactly the stored alerts and fails only when there are none |
| AlertModel.FilterExact | alert/alert_kvdb.go:403-408 | a filter keeps every passing alert as often as it occurs and drops every other one (as multisets) |
| AlertModel.FilterMembers | alert/alert_kvdb.go:204-209 | an alert is in a filter's result iff it is in the input and passes |
| AlertModel.BySeverity | alert/alert_kvdb.go:403-411 | severity 0 keeps everything; otherwise exactly the alerts with severity at most the filter's, with multiplicity |
| AlertModel.Enumeration | alert/alert_kvdb.go:389-414 | a failed read gives no alerts and its error; otherwise an alert is kept iff it was read and passes the severity filter |
| AlertModel.WithinTimeRange | alert/alert_kvdb.go:183-211 | a failed read gives no alerts and its error; otherwise an alert is kept iff it was read and its time lies strictly between start and end |
| AlertWatch.WatchStep | alert/alert_kvdb.go:432-491 | kvdbWatch for one delivery, as a step of status, counter, callback and resubscription; its properties are the lemmas below |
| AlertWatch.ErrorsStayBounded | alert/alert_kvdb.go:444-468 | the consecutive-error counter stays within 0..5 |
| AlertWatch.CallbackOnlyForRecords | alert/alert_kvdb.go:432-491 | the user callback is invoked only for non-bookkeeping mutations, with the key and prefix delivered and the action matching the backend's, and otherwise only as the stop notice at counter 5 |
| AlertWatch.RecordKeyIsReported | alert/alert_kvdb.go:463-467 | no alert record key looks like the marker, the counter or a subscription list |
| AlertWatch.RecordCreateNotifies | alert/alert_kvdb.go:468-484 | a record creation invokes the callback with the alert, action Create and the key, and resets the counter |
| AlertWatch.MutationMapping | alert/alert_kvdb.go:463-490 | for a registered watcher and a key that is not bookkeeping, the counter resets in every case: Delete calls back with no alert and action Delete; an undecodable value gives "Failed to unmarshal Alert"; a decoded Create or Set calls back with the alert and action Create or Update; any other action gives "Unhandled KV Action" and calls nothing |
| AlertWatch.BookkeepingWritesIgnored | alert/alert_kvdb.go:463-467 | writes to the counter or a subscription list are ignored and keep the counter |
| AlertWatch.BootstrapWriteReadies | alert/alert_kvdb.go:438-442 | the marker write sets a registered watcher Ready whatever its status |
| AlertWatch.BootstrapErrorFails | alert/alert_kvdb.go:445-448 | an error during bootstrap sets status Error and returns the error, counter untouched |
| AlertWatch.ErrorBurst | alert/alert_kvdb.go:444-461 | on a ready watcher, consecutive errors resubscribe while the counter is below 5, and every later one gives the stop notice without resubscribing |
| AlertWatch.Handshake | alert/alert_kvdb.go:235-250 | the bootstrap loop over the observed statuses: the number of marker writes and the status that ended it, if any; HandshakeBounded states it |
| AlertWatch.HandshakeStatus | alert/alert_kvdb.go:235-250 | the watcher's status when the loop ends |
| AlertWatch.HandshakeBounded | alert/alert_kvdb.go:235-250 | the bootstrap loop writes the marker at most five times; it gives up exactly when all five reads saw Bootstrap, else it ends at the first other status |
| AlertWatch.HandshakeResultCharacterised | alert/alert_kvdb.go:235-254 | Watch succeeds iff the first non-Bootstrap status within five writes is Ready |
| AlertKvdb.KvdbCache.constructor | alert/alert_kvdb.go:40-45 | the caches start empty with no errors counted |
| AlertKvdb.Watcher.constructor | alert/alert_kvdb.go:226 | a new watcher starts in Bootstrap with the caller's callback and handle |
| AlertKvdb.KvdbCache.HandleFor | alert/alert_kvdb.go:416-430 | a cached handle is returned unchanged; otherwise a new one on domain/clusterID is cached, or the backend's error is returned with the cache unchanged |
| AlertKvdb.KvdbCache.Init | alert/alert_kvdb.go:84-101 | as HandleFor, and a client carrying the given options is returned iff a handle exists |
| AlertKvdb.KvdbCache.SubscribeWatch | alert/alert_kvdb.go:493-506 | an unknown key gives "Failed to find a watch"; a WatchTree error is returned; else one registration is added |
| AlertKvdb.KvdbCache.KvdbWatch | alert/alert_kvdb.go:432-491 | return value, callback invocation, counter, watcher statuses and resubscriptions are those of WatchStep, whose error path ErrorBurst and BootstrapErrorFails state and whose mutation path MutationMapping, BootstrapWriteReadies and BookkeepingWritesIgnored state |
| AlertKvdb.KvdbCache.OnDeliveryError | alert/alert_kvdb.go:444-461 | an error delivery has exactly the effect of WatchStep |
| AlertKvdb.KvdbCache.OnMutation | alert/alert_kvdb.go:438-490 | a mutation delivery has exactly the effect of WatchStep: the action mapping of MutationMapping, the marker of BootstrapWriteReadies, the ignored keys of BookkeepingWritesIgnored |
| AlertKvdb.KvAlert.constructor | alert/alert_kvdb.go:100 | the client keeps its options and is bound to a cached cluster |
| AlertKvdb.KvAlert.Instance | alert/alert_kvdb.go:77-81 | GetKvdbInstance: the cached handle of the client's cluster |
| AlertKvdb.KvAlert.GetNextIdFromKvdb | alert/alert_kvdb.go:320-337 | the CAS loop leaves the store, id and error of NextAlertId |
| AlertKvdb.KvAlert.RaiseOne | alert/alert_kvdb.go:287-302 | store, error and stamped alert are those of AlertModel.RaiseOne |
| AlertKvdb.KvAlert.Raise | alert/alert_kvdb.go:104-119 | store, error and alert are those of AlertModel.Raise |
| AlertKvdb.KvAlert.RaiseSubscribed | alert/alert_kvdb.go:112-116 | the loop leaves the store and success flag of RaiseChildren |
| AlertKvdb.KvAlert.Subscribe | alert/alert_kvdb.go:122-133 | store and error are those of AlertModel.Subscribe |
| AlertKvdb.KvAlert.Clear | alert/alert_kvdb.go:146-148 | store and error are those of AlertModel.Clear |
| AlertKvdb.KvAlert.Erase | alert/alert_kvdb.go:136-143 | store and error are those of AlertModel.Erase |
| AlertKvdb.KvAlert.Retrieve | alert/alert_kvdb.go:151-159 | alert and error are those of AlertModel.Retrieve |
| AlertKvdb.KvAlert.GetResourceSpecificAlerts | alert/alert_kvdb.go:339-354 | the result is the decoding of some listing of the partition |
| AlertKvdb.KvAlert.GetAllAlerts | alert/alert_kvdb.go:356-387 | the result is AllAlerts of four partition reads in the order Node, Volume, Cluster, Drive |
| AlertKvdb.KvAlert.AppendIfRead | alert/alert_kvdb.go:364-379 | a partition's alerts are appended only if its read succeeded |
| AlertKvdb.KvAlert.ReadAlerts | alert/alert_kvdb.go:394-401 | one partition is read, or all of them for NONE |
| AlertKvdb.KvAlert.SeverityStep | alert/alert_kvdb.go:403-411 | the filter loop computes Enumeration |
| AlertKvdb.KvAlert.EnumerateOn | alert/alert_kvdb.go:389-414 | the result is Enumeration of a possible read of the filter's partition(s) |
| AlertKvdb.KvAlert.Enumerate | alert/alert_kvdb.go:162-165 | enumerate on the client's own cluster |
| AlertKvdb.KvAlert.TimeRangeStep | alert/alert_kvdb.go:204-210 | the filter loop computes WithinTimeRange |
| AlertKvdb.KvAlert.EnumerateWithinTimeRange | alert/alert_kvdb.go:183-211 | the result is WithinTimeRange of a possible read |
| AlertKvdb.KvAlert.GetKvdbForCluster | alert/alert_kvdb.go:416-430 | as HandleFor, using the client's domain; the client's own handle is unaffected |
| AlertKvdb.KvAlert.EnumerateByCluster | alert/alert_kvdb.go:174-180 | a handle failure gives no alerts and the error; otherwise enumerate on that cluster's store; the cache changes only by the new handle, and the client keeps its own handle |
| AlertKvdb.KvAlert.Watch | alert/alert_kvdb.go:219-255 | the cluster's new watcher replaces any earlier one; a subscription error is returned with no marker write; a failed marker write is returned after one write; otherwise the result, write count and watcher status are the handshake's, and success means the watcher is Ready; the cache changes only by the new handle, and every other handle keeps its state |
| AlertKvdb.KvAlert.BootstrapWatch | alert/alert_kvdb.go:235-254 | the loop's writes, result and the watcher's final status are those of Handshake over the observed statuses; success leaves the watcher Ready |
| Strings.SecondSegment | alert/alert_kvdb.go:436 | the watcher key is the text between the first and second '/' of the prefix; absent exactly when the prefix has no '/' |
| ClusterDatabase.IsKeyNotFound | cluster/database.go:34 | an error counts as absence when its text contains "Key not found" |
| ClusterDatabase.NotFoundIsKeyNotFound | cluster/database.go:34 | the backend's not-found error passes the substring test |
| ClusterDatabase.Classify | cluster/database.go:70-83 | a read is a failure iff it errs without "Key not found"; uninitialised iff absent or exactly `{}`; decoded otherwise, over the default |
| ClusterDatabase.ReadClusterInfo | cluster/database.go:62-86 | absent or `{}` gives the default (INIT, no nodes) and no error; another read error gives the default and that error; otherwise the decoded descriptor, with the decode error if any |
| ClusterDatabase.SnapAndReadClusterInfo | cluster/database.go:18-60 | a snapshot failure comes first, then a collector failure; the state holds the snapshot, its version and a collector at that version; the descriptor is read from the snapshot; a non-not-found read error gives no state |
| ClusterDatabase.SnapshotMatchesLiveRead | cluster/database.go:18-60 | a readable snapshot gives the same descriptor and error as a live read taken at that moment |
| ClusterDatabase.WriteClusterInfo | cluster/database.go:88-103 | an encode error writes nothing; otherwise the record is overwritten with the encoding, reporting a backend failure |
| ClusterDatabase.Written | cluster/database.go:96 | a successful Put stores the bytes under the key and changes no other key |
| ClusterDatabase.WriteThenRead | cluster/database.go:88-103 | when decoding inverts encoding and the encoding is not `{}`, a write followed by a read returns the descriptor |
| ClusterDatabase.WriteOverwrites | cluster/database.go:96 | what the record held before a write makes no difference to the read after it |
| ClusterDatabase.WriteEmptyResets | cluster/database.go:76-79 | writing `{}` reads back as the uninitialised default, like an empty store |

## Left out

- Locks (`lock`, `kvdbLock`) and concurrency. Every operation runs
  sequentially on one state.
- GetNextIdFromKvdb: compare-and-set contention by other writers is not
  modelled. The read and the swap are sequential, so the retry loop runs at
  most once.
- Real backends: `kvdb.New` is a `Backend` parameter, either a store or an
  error. A `WatchTree` registration is recorded as a list entry. Its error
  (or none) is a parameter.
- Separate handles do not share one backend. The model gives each cached
  handle its own state.
- TTLs are not modelled: the alert's `Ttl` on create, and Clear's `ttl`
  argument.
- JSON. Stored values are typed (`Value`), each standing for its encoding,
  and the encoding is taken to be injective. A decode either succeeds wholly
  or fails, so partly filled alerts from a failed `GetVal` are not modelled.
  The cluster database's `Codec` (encode and decode) is abstract.
- `time.Now` is a parameter `now`, read once per Raise call, so children and
  parent share one timestamp. Watch likewise writes one `now` with every
  marker, while the code reads the clock for each write.
- Watch: the status that the concurrently running callback sets is supplied
  as the sequence `observed`, one value per marker write. The two reads per
  iteration are taken to agree. The millisecond sleep is not modelled.
- Raise: subscription cycles are excluded by the precondition
  `FanOutBounded` (lists reach no deeper than a ghost `depth`). On most
  cycles the code recurses without limit. The precondition also excludes
  the cyclic inputs on which the code does end, for example type A
  subscribed by [B, A] where raising B fails: there Raise(A) returns
  ErrSubscribedRaise before it reaches A again.
- What the backend does with the error kvdbWatch returns, in particular
  whether the watch stops after the stop notice, is not modelled.
- The `kvdbWatch` prefix layout is a parameter. So is the `resubscribe`
  answer, whose error the code only logs.
- `dlog` logging, `KvAlert.Shutdown` (a no-op), `String()` and the `init()`
  registration of the two driver names.
- Go's distinction between a nil slice and an empty one.
- `api.Status` is an enumeration with a catch-all case. Only the fields of
  `ClusterInfo`, `NodeEntry` and `Alert` that the core reads or writes are
  kept.
- The snapshot's own read failure (`snapFault`) and the collector's start
  error (`collectorErr`) are parameters. The collector is an opaque value:
  the buffering and replay of updates are not modelled.
- `kvdb.Instance()` is the store passed in.
