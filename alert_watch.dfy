/**
 * The watch callback of alert/alert_kvdb.go (kvdbWatch) as a step function:
 * given the registered watchers, the consecutive-error counter, the prefix the
 * backend reports and one delivered event, it says which status the watcher
 * is given, what the counter becomes, whether the user's callback is invoked
 * and with what, whether the watch is re-subscribed, and what is returned.
 */
module AlertWatch {
  import opened Common
  import opened Strings
  import opened AlertApi
  import opened AlertModel

  /** watcherStatus: bootstrap until the marker write is seen, then ready, or error. */
  datatype WatcherStatus = WatchBootstrap | WatchReady | WatchError

  /** kvdb.KVAction */
  datatype KvAction = KVSet | KVCreate | KVGet | KVDelete | KVExpire | KVUnknown

  /** kvdb.KVPair as delivered to a watch (the value is not read for deletions). */
  datatype KvPair = KvPair(key: string, value: Value, action: KvAction)

  /** One delivery to the watch callback: a mutation, or an error from the backend. */
  datatype WatchEvent = Mutation(kvp: KvPair) | DeliveryError(error: AlertError)

  /** api.AlertActionType */
  datatype AlertActionType = ActionNone | ActionCreate | ActionDelete | ActionUpdate

  /** The arguments of one call of the user's AlertWatcherFunc. */
  datatype Invocation = Invocation(alert: Option<Alert>, action: AlertActionType, prefix: string, key: string)

  /** AlertWatcherFunc, seen through the error it answers with. */
  type Callback = Invocation -> Option<AlertError>

  /** The parts of a registered watcher the callback reads. */
  datatype WatcherView = WatcherView(status: WatcherStatus, cb: Callback)

  /** How a delivery ends: a returned error (or nil), or a nil-pointer or index panic. */
  datatype WatchReturn = Returned(err: Option<AlertError>) | Panicked

  /** The effect of one delivery. */
  datatype Step = Step(
    setStatus: Option<WatcherStatus>,  // the status assigned to the watcher, if any
    errors: int,                       // watchErrors afterwards
    call: Option<Invocation>,          // the user callback's invocation, if any
    resubscribe: Option<string>,       // the watcher key subscribeWatch is called again for, if any
    ret: WatchReturn)

  /** The one-shot handshake ends when a key ending in "bootstrap" is seen. */
  predicate IsBootstrapWrite(key: string) {
    HasSuffix(key, BootstrapKeyName)
  }

  /** Writes to the id counter and to subscription lists are not reported. */
  predicate IsIgnoredWrite(key: string) {
    HasSuffix(key, NextAlertIdKeyName) || Contains(key, SubscriptionsKeyName)
  }

  /**
   * kvdbWatch for one delivery. `watchers` is watcherMap, `errors` is
   * watchErrors; the watcher is looked up under the second '/'-segment of
   * the prefix. A missing segment is a panic, and so is a missing watcher at
   * the points where the code dereferences it (its status, or its callback).
   */
  function WatchStep(watchers: map<string, WatcherView>, errors: int, prefix: string, ev: WatchEvent): (r: Step)
  {
    var segment := SecondSegment(prefix);
    if segment.None? then Step(None, errors, None, None, Panicked)
    else
      var present := segment.value in watchers;
      match ev
      case DeliveryError(e) =>
        if !present then Step(None, errors, None, None, Panicked)
        else if watchers[segment.value].status == WatchBootstrap then
          Step(Some(WatchError), errors, None, None, Returned(Some(e)))
        else if errors == 5 then
          var inv := Invocation(None, ActionNone, prefix, "");
          Step(None, errors, Some(inv), None, Returned(Some(e)))
        else
          Step(None, errors + 1, None, Some(segment.value), Returned(Some(e)))
      case Mutation(kvp) =>
        if IsBootstrapWrite(kvp.key) then
          if !present then Step(None, errors, None, None, Panicked)
          else Step(Some(WatchReady), errors, None, None, Returned(None))
        else if IsIgnoredWrite(kvp.key) then
          Step(None, errors, None, None, Returned(None))
        else if kvp.action == KVDelete then
          if !present then Step(None, 0, None, None, Panicked)
          else
            var inv := Invocation(None, ActionDelete, prefix, kvp.key);
            Step(None, 0, Some(inv), None, Returned(watchers[segment.value].cb(inv)))
        else if !kvp.value.AlertValue? then
          Step(None, 0, None, None, Returned(Some(UnmarshalAlertFailed)))
        else if kvp.action == KVCreate || kvp.action == KVSet then
          if !present then Step(None, 0, None, None, Panicked)
          else
            var action := if kvp.action == KVCreate then ActionCreate else ActionUpdate;
            var inv := Invocation(Some(kvp.value.alert), action, prefix, kvp.key);
            Step(None, 0, Some(inv), None, Returned(watchers[segment.value].cb(inv)))
        else
          // the callback is not reached, so a missing watcher is not dereferenced
          Step(None, 0, None, None, Returned(Some(UnhandledKvAction)))
  }

  /** The counter of consecutive delivery errors never leaves 0..5. */
  lemma ErrorsStayBounded(watchers: map<string, WatcherView>, errors: int, prefix: string, ev: WatchEvent)
    requires 0 <= errors <= WatchRetries
    ensures 0 <= WatchStep(watchers, errors, prefix, ev).errors <= WatchRetries
  {
  }

  /**
   * The user callback sees exactly the alert-record events: it is invoked for
   * a mutation only when the key is neither the marker, the counter nor a
   * subscription list, and then with the key and prefix as delivered; it is
   * invoked for an error only as the "stop" notice (no alert, action None).
   */
  lemma CallbackOnlyForRecords(watchers: map<string, WatcherView>, errors: int, prefix: string, ev: WatchEvent)
    ensures var r := WatchStep(watchers, errors, prefix, ev);
      r.call.Some? ==>
        && SecondSegment(prefix).Some? && SecondSegment(prefix).value in watchers
        && r.ret == Returned(if ev.Mutation? then watchers[SecondSegment(prefix).value].cb(r.call.value) else Some(ev.error))
        && r.call.value.prefix == prefix
        && (ev.Mutation? ==>
              && !IsBootstrapWrite(ev.kvp.key) && !IsIgnoredWrite(ev.kvp.key)
              && r.call.value.key == ev.kvp.key && r.errors == 0
              && (r.call.value.action == ActionDelete <==> ev.kvp.action == KVDelete)
              && (r.call.value.action == ActionCreate ==> ev.kvp.action == KVCreate && r.call.value.alert == Some(ev.kvp.value.alert))
              && (r.call.value.action == ActionUpdate ==> ev.kvp.action == KVSet && r.call.value.alert == Some(ev.kvp.value.alert)))
        && (ev.DeliveryError? ==> r.call.value == Invocation(None, ActionNone, prefix, "") && errors == 5)
  {
  }

  /** A string missing one of the characters of `sub` does not contain `sub`. */
  lemma NotContainedWithout(k: string, sub: string, j: nat)
    requires j < |sub| && forall i :: 0 <= i < |k| ==> k[i] != sub[j]
    ensures !Contains(k, sub)
  {
  }

  /** No key an alert record is stored under looks like bookkeeping to the watch. */
  lemma RecordKeyIsReported(rt: ResourceType, id: int)
    ensures !IsBootstrapWrite(RecordKey(rt, id)) && !IsIgnoredWrite(RecordKey(rt, id))
  {
    var p := ResourceKey(rt);
    var digits := FormatInt(id);
    var k := p + digits;
    assert k[|k| - 1] == digits[|digits| - 1];
    assert forall i :: 0 <= i < |p| ==> p[i] != 'b';
    forall i | 0 <= i < |k| ensures k[i] != 'b' {
      if i >= |p| {
        assert k[i] == digits[i - |p|];
      } else {
        assert k[i] == p[i];
      }
    }
    assert SubscriptionsKeyName[2] == 'b';
    NotContainedWithout(k, SubscriptionsKeyName, 2);
  }

  /**
   * What a watcher is told when raise creates a record: its callback gets the
   * stored alert with action Create and the record's key, and the error
   * counter resets.
   */
  lemma RecordCreateNotifies(watchers: map<string, WatcherView>, errors: int, prefix: string, rt: ResourceType, id: int, a: Alert)
    requires SecondSegment(prefix).Some? && SecondSegment(prefix).value in watchers
    ensures var inv := Invocation(Some(a), ActionCreate, prefix, RecordKey(rt, id));
      WatchStep(watchers, errors, prefix, Mutation(KvPair(RecordKey(rt, id), AlertValue(a), KVCreate)))
        == Step(None, 0, Some(inv), None, Returned(watchers[SecondSegment(prefix).value].cb(inv)))
  {
    RecordKeyIsReported(rt, id);
  }

  /**
   * The whole mapping of a reported mutation, for a registered watcher: the
   * counter resets in every case; a deletion calls back with no alert and
   * action Delete, whatever the value; otherwise an undecodable value fails
   * to unmarshal; a decoded Create or Set calls back with the alert and
   * action Create or Update; any other action is unhandled and calls nothing.
   */
  lemma MutationMapping(watchers: map<string, WatcherView>, errors: int, prefix: string, kvp: KvPair)
    requires SecondSegment(prefix).Some? && SecondSegment(prefix).value in watchers
    requires !IsBootstrapWrite(kvp.key) && !IsIgnoredWrite(kvp.key)
    ensures var cb := watchers[SecondSegment(prefix).value].cb;
      var r := WatchStep(watchers, errors, prefix, Mutation(kvp));
      && (kvp.action == KVDelete ==>
            var inv := Invocation(None, ActionDelete, prefix, kvp.key);
            r == Step(None, 0, Some(inv), None, Returned(cb(inv))))
      && (kvp.action != KVDelete && !kvp.value.AlertValue? ==>
            r == Step(None, 0, None, None, Returned(Some(UnmarshalAlertFailed))))
      && (kvp.action == KVCreate && kvp.value.AlertValue? ==>
            var inv := Invocation(Some(kvp.value.alert), ActionCreate, prefix, kvp.key);
            r == Step(None, 0, Some(inv), None, Returned(cb(inv))))
      && (kvp.action == KVSet && kvp.value.AlertValue? ==>
            var inv := Invocation(Some(kvp.value.alert), ActionUpdate, prefix, kvp.key);
            r == Step(None, 0, Some(inv), None, Returned(cb(inv))))
      && ((kvp.action == KVGet || kvp.action == KVExpire || kvp.action == KVUnknown) && kvp.value.AlertValue? ==>
            r == Step(None, 0, None, None, Returned(Some(UnhandledKvAction))))
  {
  }

  /** Bumping the counter or writing a subscription list is not reported and leaves the counter alone. */
  lemma BookkeepingWritesIgnored(watchers: map<string, WatcherView>, errors: int, prefix: string, t: int, v: Value, action: KvAction)
    requires SecondSegment(prefix).Some?
    ensures WatchStep(watchers, errors, prefix, Mutation(KvPair(NextAlertIdKey(), v, action))) == Step(None, errors, None, None, Returned(None))
    ensures WatchStep(watchers, errors, prefix, Mutation(KvPair(SubscriptionsKey(t), v, action))) == Step(None, errors, None, None, Returned(None))
  {
    var c := NextAlertIdKey();
    assert c[|c| - 1] == 'd';
    assert HasSuffix(c, NextAlertIdKeyName);
    var k := SubscriptionsKey(t);
    var digits := FormatInt(t);
    assert k[|k| - 1] == digits[|digits| - 1];
    assert OccursAt(k, SubscriptionsKeyName, 6);
  }

  /** The marker write readies a registered watcher, whatever its status. */
  lemma BootstrapWriteReadies(watchers: map<string, WatcherView>, errors: int, prefix: string, v: Value, action: KvAction)
    requires SecondSegment(prefix).Some? && SecondSegment(prefix).value in watchers
    ensures WatchStep(watchers, errors, prefix, Mutation(KvPair(BootstrapKey(), v, action))) == Step(Some(WatchReady), errors, None, None, Returned(None))
  {
    assert HasSuffix(BootstrapKey(), BootstrapKeyName);
  }

  /** The watchers after a step: the status assignment, if any, applied to the addressed watcher. */
  function StatusAfter(watchers: map<string, WatcherView>, prefix: string, st: Step): (r: map<string, WatcherView>)
    ensures r.Keys == watchers.Keys
  {
    var segment := SecondSegment(prefix);
    if st.setStatus.Some? && segment.Some? && segment.value in watchers then
      watchers[segment.value := watchers[segment.value].(status := st.setStatus.value)]
    else watchers
  }

  /** Deliveries one after another, with the status and the counter carried between them. */
  function Run(watchers: map<string, WatcherView>, errors: int, prefix: string, evs: seq<WatchEvent>): (r: seq<Step>)
    ensures |r| == |evs|
    decreases |evs|
  {
    if evs == [] then []
    else
      var st := WatchStep(watchers, errors, prefix, evs[0]);
      var next := StatusAfter(watchers, prefix, st);
      [st] + Run(next, st.errors, prefix, evs[1..])
  }

  /**
   * Give-up behaviour: for a watcher past bootstrap, a burst of delivery
   * errors re-subscribes on each of the first 5 - errors ones, and every
   * later one invokes the callback with the "stop" notice and no re-subscribe.
   * (The notice comes on the sixth consecutive error, not the fifth.)
   */
  lemma {:induction false} ErrorBurst(watchers: map<string, WatcherView>, errors: int, prefix: string, evs: seq<WatchEvent>)
    requires SecondSegment(prefix).Some? && SecondSegment(prefix).value in watchers
    requires watchers[SecondSegment(prefix).value].status != WatchBootstrap
    requires 0 <= errors <= WatchRetries
    requires forall i :: 0 <= i < |evs| ==> evs[i].DeliveryError?
    ensures var r := Run(watchers, errors, prefix, evs);
      forall i :: 0 <= i < |evs| ==>
        && r[i].ret == Returned(Some(evs[i].error))
        && r[i].setStatus.None?
        && (r[i].resubscribe == (if i < WatchRetries - errors then SecondSegment(prefix) else None))
        && (r[i].call.Some? <==> i >= WatchRetries - errors)
        && (r[i].call.Some? ==> r[i].call.value == Invocation(None, ActionNone, prefix, ""))
    decreases |evs|
  {
    if evs != [] {
      var st := WatchStep(watchers, errors, prefix, evs[0]);
      assert st.setStatus.None?;
      ErrorBurst(watchers, st.errors, prefix, evs[1..]);
      var r := Run(watchers, errors, prefix, evs);
      assert r == [st] + Run(watchers, st.errors, prefix, evs[1..]);
      forall i | 1 <= i < |evs| ensures r[i] == Run(watchers, st.errors, prefix, evs[1..])[i - 1] && evs[i] == evs[1..][i - 1] {
      }
    }
  }

  /** A watcher still in bootstrap that sees an error is marked failed and the counter is untouched. */
  lemma BootstrapErrorFails(watchers: map<string, WatcherView>, errors: int, prefix: string, e: AlertError)
    requires SecondSegment(prefix).Some? && SecondSegment(prefix).value in watchers
    requires watchers[SecondSegment(prefix).value].status == WatchBootstrap
    ensures WatchStep(watchers, errors, prefix, DeliveryError(e)) == Step(Some(WatchError), errors, None, None, Returned(Some(e)))
  {
  }

  /** The status Watch reads after its i-th marker write; Bootstrap once nothing more is observed. */
  function ObservedAt(observed: seq<WatcherStatus>, i: nat): WatcherStatus {
    if i < |observed| then observed[i] else WatchBootstrap
  }

  /**
   * The bootstrap loop of Watch from attempt i, given the status it reads
   * after each marker write: the number of writes made and the status that
   * ended the loop, or None when the retries ran out.
   */
  function Handshake(observed: seq<WatcherStatus>, i: nat): (nat, Option<WatcherStatus>)
    requires i < WatchRetries
    decreases WatchRetries - i
  {
    if ObservedAt(observed, i) != WatchBootstrap then (i + 1, Some(ObservedAt(observed, i)))
    else if i + 1 == WatchRetries then (i + 1, None)
    else Handshake(observed, i + 1)
  }

  /**
   * The loop writes the marker at most five times; it gives up exactly when
   * the status read bootstrap after each of all five writes, and otherwise
   * ends with the first status that was not bootstrap.
   */
  lemma {:induction false} HandshakeBounded(observed: seq<WatcherStatus>, i: nat)
    requires i < WatchRetries
    ensures var (writes, settled) := Handshake(observed, i);
      && i < writes <= WatchRetries
      && (settled.None? <==> writes == WatchRetries && forall j :: i <= j < WatchRetries ==> ObservedAt(observed, j) == WatchBootstrap)
      && (settled.Some? ==> settled.value == ObservedAt(observed, writes - 1) && settled.value != WatchBootstrap)
      && (forall j :: i <= j < writes - 1 ==> ObservedAt(observed, j) == WatchBootstrap)
    decreases WatchRetries - i
  {
    if ObservedAt(observed, i) == WatchBootstrap && i + 1 < WatchRetries {
      HandshakeBounded(observed, i + 1);
    }
  }

  /** The status the watcher holds when the loop ends: the one that settled it, or still Bootstrap. */
  function HandshakeStatus(observed: seq<WatcherStatus>): WatcherStatus {
    var (_, settled) := Handshake(observed, 0);
    if settled.Some? then settled.value else WatchBootstrap
  }

  /** What Watch returns once subscribed, when every marker write succeeds. */
  function HandshakeResult(clusterID: string, observed: seq<WatcherStatus>): Option<AlertError> {
    var (_, settled) := Handshake(observed, 0);
    if settled.None? then Some(BootstrapTimeout(clusterID))
    else if settled.value != WatchReady then Some(WatchFailed(clusterID))
    else None
  }

  /** Watch succeeds exactly when the first non-bootstrap status within five writes is Ready. */
  lemma HandshakeResultCharacterised(clusterID: string, observed: seq<WatcherStatus>)
    ensures HandshakeResult(clusterID, observed).None? <==>
      exists m :: 0 <= m < WatchRetries && ObservedAt(observed, m) == WatchReady
        && forall j :: 0 <= j < m ==> ObservedAt(observed, j) == WatchBootstrap
  {
    HandshakeBounded(observed, 0);
    var (writes, settled) := Handshake(observed, 0);
    if HandshakeResult(clusterID, observed).None? {
      assert ObservedAt(observed, writes - 1) == WatchReady;
    }
  }
}
