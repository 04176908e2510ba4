/**
 * alert/alert.go: the errors the alert package reports and the process-wide
 * registry of alert drivers (name -> initializer) and of the driver
 * instances created from them.
 */
module AlertApi {
  import opened Common
  import Kv

  /** The package's error sentinels, plus the other errors the alert bus produces. */
  datatype AlertError =
    | ErrNotSupported            // "Implementation not supported"
    | ErrNotFound                // "Key not found"
    | ErrExist                   // "Key already exists"
    | ErrUnmarshal               // "Failed to unmarshal value"
    | ErrIllegal                 // "Illegal operation"
    | ErrNotInitialized          // "Alert not initialized"
    | ErrAlertClientNotFound     // "Alert client not found"
    | ErrResourceNotFound        // "Resource not found in Alert"
    | ErrSubscribedRaise         // "Could not raise alert and its subscribed alerts"
    | KvFailure(cause: Kv.KvError)   // a backend error passed on unchanged
    | DecodeFailure              // json.Unmarshal of an enumerated record failed
    | NoAlertRaisedYet           // "No alert raised yet"
    | UnmarshalAlertFailed       // "Failed to unmarshal Alert" (watch callback)
    | UnhandledKvAction          // "Unhandled KV Action"
    | WatchNotFound(cluster: string)    // "Failed to find a watch on cluster : <id>"
    | BootstrapTimeout(cluster: string) // "Failed to bootstrap watch on <id>"
    | WatchFailed(cluster: string)      // "Failed to watch on <id>"
    | External(msg: string)      // an error made by code outside the model

  /** The arguments New hands to a driver's initializer. */
  datatype InitArgs = InitArgs(
    kvdbName: string, kvdbBase: string, kvdbMachines: seq<string>,
    clusterID: string, kvdbOptions: map<string, string>)

  /** A driver initializer: it yields a driver instance or an error. */
  type InitFunc<D> = InitArgs -> Result<D, AlertError>

  /** `calls` names every instance exactly once, each with the instance under that name, in any order. */
  ghost predicate ListsEachOnce<D>(calls: seq<(string, D)>, instances: map<string, D>) {
    && (forall i :: 0 <= i < |calls| ==> calls[i].0 in instances && instances[calls[i].0] == calls[i].1)
    && (forall k :: k in instances ==> exists i :: 0 <= i < |calls| && calls[i].0 == k)
    && (forall i, j :: 0 <= i < j < |calls| ==> calls[i].0 != calls[j].0)
  }

  /** The `drivers` and `instances` maps, and the Shutdown calls made on instances. */
  class Registry<D> {
    var drivers: map<string, InitFunc<D>>
    var instances: map<string, D>
    /** Every instance Shutdown() has been called on, with its name, in call order. */
    var shutdowns: seq<(string, D)>

    constructor ()
      ensures drivers == map[] && instances == map[] && shutdowns == []
    {
      drivers, instances, shutdowns := map[], map[], [];
    }

    /** Register: a name may be registered once; the first initializer stays. */
    method Register(name: string, initFunc: InitFunc<D>) returns (err: Option<AlertError>)
      modifies this
      ensures name in old(drivers) ==> err == Some(ErrExist) && drivers == old(drivers)
      ensures name !in old(drivers) ==> err == None && drivers == old(drivers)[name := initFunc]
      ensures instances == old(instances) && shutdowns == old(shutdowns)
    {
      if name in drivers {
        return Some(ErrExist);
      }
      drivers := drivers[name := initFunc];
      err := None;
    }

    /**
     * New: runs the initializer registered under `name` and remembers the
     * instance under that name, replacing any earlier one.
     */
    method New(name: string, args: InitArgs) returns (r: Result<D, AlertError>)
      modifies this
      ensures name !in drivers ==> r == Err(ErrNotSupported)
      ensures name in drivers ==> r == drivers[name](args)
      ensures r.Ok? ==> instances == old(instances)[name := r.value]
      ensures r.Err? ==> instances == old(instances)
      ensures drivers == old(drivers) && shutdowns == old(shutdowns)
    {
      if name in drivers {
        var initFunc := drivers[name];
        r := initFunc(args);
        if r.Ok? {
          instances := instances[name := r.value];
        }
        return;
      }
      r := Err(ErrNotSupported);
    }

    /** Shutdown: calls Shutdown() once on every remembered instance. */
    method Shutdown()
      modifies this
      ensures |shutdowns| >= |old(shutdowns)| && shutdowns[..|old(shutdowns)|] == old(shutdowns)
      ensures ListsEachOnce(shutdowns[|old(shutdowns)|..], instances)
      ensures |shutdowns| == |old(shutdowns)| + |instances|
      ensures drivers == old(drivers) && instances == old(instances)
    {
      ghost var before := shutdowns;
      var pending := instances.Keys;
      ghost var calls: seq<(string, D)> := [];
      while pending != {}
        invariant drivers == old(drivers) && instances == old(instances)
        invariant shutdowns == before + calls
        invariant pending <= instances.Keys
        invariant |calls| + |pending| == |instances|
        invariant forall i :: 0 <= i < |calls| ==>
          calls[i].0 in instances && instances[calls[i].0] == calls[i].1 && calls[i].0 !in pending
        invariant forall k :: k in instances ==> k in pending || exists i :: 0 <= i < |calls| && calls[i].0 == k
        invariant forall i, j :: 0 <= i < j < |calls| ==> calls[i].0 != calls[j].0
        decreases pending
      {
        var k :| k in pending;
        ghost var prev := calls;
        shutdowns := shutdowns + [(k, instances[k])];
        calls := calls + [(k, instances[k])];
        pending := pending - {k};
        assert calls[|prev|].0 == k;
        assert forall i :: 0 <= i < |prev| ==> calls[i] == prev[i];
      }
      assert shutdowns[|before|..] == calls;
    }
  }
}
