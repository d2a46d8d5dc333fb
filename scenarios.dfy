/** A client of the engine: what its contracts let a caller conclude about a
    burst of slider edits on one thermostat. */
module Scenarios {
  import opened Wrappers
  import opened Registry
  import opened Commands
  import opened Refresh
  import opened SolidmationApi

  /** Two patches 500 ms apart are coalesced into one send of the later
      setpoint, diffed against the refreshed status. */
  method SliderBurst() returns (done: Result<Dispatch, Error>)
    ensures done.Ok? && done.value.Sent?
    ensures "desiredTempC" in done.value.payload && done.value.payload["desiredTempC"] == 23
    ensures "mode" in done.value.payload && done.value.payload["mode"] == 1
    ensures "currentTemp" !in done.value.payload
  {
    var engine, thermostat, requested := SliderQueue();
    done := DispatchAgainstServer(engine, thermostat, requested);
  }

  /** The debounce timer fires 2000 ms after the last edit: the queue folds
      to the later setpoint and waits on a forced read of the thermostat. */
  method SliderQueue() returns (engine: Solidmation, thermostat: Device, requested: Values)
    ensures fresh(engine) && engine.Valid()
    ensures engine.deviceStatusRequest.Some? && engine.waiters == [thermostat.EndpointID]
    ensures engine.devices.Some? && Find(engine.devices.value, thermostat.EndpointID).Some?
    ensures thermostat.endpointValues == map["currentTemp" := 20, "desiredTempC" := 20, "mode" := 1]
    ensures requested == map["desiredTempC" := 23]
  {
    engine, thermostat := SliderEdits();
    var queued := [map["desiredTempC" := 22], map["desiredTempC" := 23]];
    var fired := engine.ResolveCommandQueue(7, 2600);
    SliderRequest(queued);
    requested := fired.value;
  }

  /** Two slider edits 500 ms apart on a loaded thermostat: both patches are
      queued, the timer is restarted by the later one, and a read before the
      timer fires sees the later setpoint. */
  method SliderEdits() returns (engine: Solidmation, thermostat: Device)
    ensures fresh(engine) && engine.Valid()
    ensures engine.deviceStatusRequest == None && engine.waiters == []
    ensures thermostat == Device(7, 1, "Living", map["currentTemp" := 20, "desiredTempC" := 20, "mode" := 1])
    ensures engine.devices.Some? && Find(engine.devices.value, 7).Some?
    ensures var shown := Find(engine.devices.value, 7).value.endpointValues;
            "desiredTempC" in shown && shown["desiredTempC"] == 23
    ensures 7 in engine.commandQueue
    ensures engine.commandQueue[7] == DeviceQueue(Some(2600), [map["desiredTempC" := 22], map["desiredTempC" := 23]])
  {
    engine, thermostat := ThermostatLoaded();
    var first := engine.QueueSetDeviceStatus(7, map["desiredTempC" := 22], 100);
    var once := PatchFirst([thermostat], 7, map["desiredTempC" := 22]);
    assert engine.commandQueue[7].queue == [map["desiredTempC" := 22]];
    var second := engine.QueueSetDeviceStatus(7, map["desiredTempC" := 23], 600);
    FindAfterPatch([thermostat], 7, map["desiredTempC" := 22], 7);
    FindAfterPatch(once, 7, map["desiredTempC" := 23], 7);
  }

  /** One home with one thermostat, loaded at time 0. */
  method ThermostatLoaded() returns (engine: Solidmation, thermostat: Device)
    ensures fresh(engine) && engine.Valid()
    ensures engine.cacheMs == 5000 && engine.queueDuration == 2000
    ensures engine.deviceStatusRequest == None && engine.waiters == [] && engine.commandQueue == map[]
    ensures thermostat == Device(7, 1, "Living", map["currentTemp" := 20, "desiredTempC" := 20, "mode" := 1])
    ensures engine.devices == Some([thermostat])
  {
    engine := new Solidmation();
    var homes := engine.GetHomes([Home(1, "Casa")], []);
    thermostat := Device(7, 1, "Living", map["currentTemp" := 20, "desiredTempC" := 20, "mode" := 1]);
    var loaded := engine.GetDevices([[thermostat]], 0);
    assert [[thermostat]][1..] == [];
    assert Flatten([[thermostat]]) == [thermostat];
  }

  /** The fired queue's forced read is answered by a gateway that still
      reports the old setpoint: the one command sent carries the request, and
      every home is stale afterwards. */
  method DispatchAgainstServer(engine: Solidmation, server: Device, requested: Values)
    returns (done: Result<Dispatch, Error>)
    requires engine.Valid() && engine.deviceStatusRequest.Some? && engine.waiters == [server.EndpointID]
    requires engine.devices.Some? && Find(engine.devices.value, server.EndpointID).Some?
    requires server.endpointValues == map["currentTemp" := 20, "desiredTempC" := 20, "mode" := 1]
    requires requested == map["desiredTempC" := 23]
    modifies engine
    ensures done.Ok? && done.value.Sent?
    ensures "desiredTempC" in done.value.payload && done.value.payload["desiredTempC"] == 23
    ensures "mode" in done.value.payload && done.value.payload["mode"] == 1
    ensures "currentTemp" !in done.value.payload
    ensures !engine.HasCache(server.HomeID, 2700)
  {
    var id := server.EndpointID;
    var before := engine.devices.value;
    var answers := engine.SettleRefresh(Ok([server]), 2700);
    FindAfterMerge(before, [server], id);
    assert Find([server], id) == Some(server);
    assert answers[0] == Ok(Some(server));

    var current := server.endpointValues;
    SetpointDiffers(requested, current);
    done := engine.FinishCommand(id, requested, answers[0], Ok(()));
    var payload := NormalizePayload(current + (current + requested));
    // by SetpointDiffers, this payload carries desiredTempC 23 and mode 1, and no currentTemp
    assert done == Ok(Sent(payload));
    assert !engine.HasCache(server.HomeID, 2700);
  }

  /** The raised setpoint is a modified key, and the normalised payload keeps
      it and the mode while dropping the read-only temperature. */
  lemma SetpointDiffers(requested: Values, current: Values)
    requires current == map["currentTemp" := 20, "desiredTempC" := 20, "mode" := 1]
    requires requested == map["desiredTempC" := 23]
    ensures ShouldSend(requested, current)
    ensures var payload := NormalizePayload(current + (current + requested));
            && "desiredTempC" in payload && payload["desiredTempC"] == 23
            && "mode" in payload && payload["mode"] == 1
            && "currentTemp" !in payload
  {
    assert "desiredTempC" in ModifiedKeys(requested, current);
  }

  /** The later setpoint wins the fold of the two slider patches. */
  lemma SliderRequest(queued: seq<Values>)
    requires queued == [map["desiredTempC" := 22], map["desiredTempC" := 23]]
    ensures MergePatches(queued) == map["desiredTempC" := 23]
  {
    MergePatchesLastWins(queued, "desiredTempC", 1);
    forall k | k in MergePatches(queued) ensures k == "desiredTempC" {
      MergePatchesKeys(queued, k);
    }
  }

  /** Two homes with one thermostat each. A read of device 8 is waiting on
      home 2's fetch when device 7's queue fires, so the forced read of device
      7 joins that fetch instead of fetching home 1. The snapshot of home 2
      does not hold device 7, so its answer is the optimistically patched
      entry: the stored values already carry the request. */
  method SharedTokenQueue() returns (engine: Solidmation, requested: Values, answer: Result<Option<Device>, Error>)
    ensures fresh(engine) && engine.Valid()
    ensures engine.devices.Some? && Find(engine.devices.value, 7).Some?
    ensures Find(engine.devices.value, 7).value.endpointValues == map["desiredTempC" := 23]
    ensures requested == map["desiredTempC" := 23]
    ensures answer == Ok(Some(Device(7, 1, "Living", map["desiredTempC" := 23])))
  {
    var office;
    engine, office, requested := FiredOnOtherHome();
    var optimistic := Device(7, 1, "Living", map["desiredTempC" := 23]);
    var patched := engine.devices.value;
    var answers := engine.SettleRefresh(Ok([office]), 12100);
    FindAfterMerge(patched, [office], 7);
    assert forall d :: d in [office] ==> d.EndpointID != optimistic.EndpointID;
    answer := answers[1];
  }

  /** Device 7 is patched optimistically and its queue fires while home 2's
      fetch is pending: the forced read of device 7 joins it, and home 1 is
      not fetched. */
  method FiredOnOtherHome() returns (engine: Solidmation, office: Device, requested: Values)
    ensures fresh(engine) && engine.Valid()
    ensures office == Device(8, 2, "Office", map["desiredTempC" := 20])
    ensures engine.devices.Some?
    ensures Find(engine.devices.value, 7) == Some(Device(7, 1, "Living", map["desiredTempC" := 23]))
    ensures engine.deviceStatusRequest == Some(2) && engine.waiters == [8, 7]
    ensures requested == map["desiredTempC" := 23]
  {
    var living;
    engine, living, office := OtherHomePending();
    var patch := map["desiredTempC" := 23];
    var queued := engine.QueueSetDeviceStatus(7, patch, 10000);
    FindAfterPatch([living, office], 7, patch, 7);
    assert living.endpointValues + patch == patch;
    assert engine.commandQueue[7].queue == [patch];

    var fired := engine.ResolveCommandQueue(7, 12000);
    SinglePatch(patch);
    requested := fired.value;
  }

  /** At 10000 home 2 is stale, so a read of device 8 takes the refresh
      token for home 2. */
  method OtherHomePending() returns (engine: Solidmation, living: Device, office: Device)
    ensures fresh(engine) && engine.Valid()
    ensures living == Device(7, 1, "Living", map["desiredTempC" := 20])
    ensures office == Device(8, 2, "Office", map["desiredTempC" := 20])
    ensures engine.devices == Some([living, office])
    ensures engine.deviceStatusRequest == Some(2) && engine.waiters == [8]
    ensures engine.commandQueue == map[]
  {
    engine, living, office := TwoHomesLoaded();
    var pending := engine.GetDeviceStatus(8, false, 10000);
    assert Find([living, office], 8) == Some(office);
  }

  /** Two homes with one thermostat each, loaded at time 0. */
  method TwoHomesLoaded() returns (engine: Solidmation, living: Device, office: Device)
    ensures fresh(engine) && engine.Valid()
    ensures engine.cacheMs == 5000 && engine.queueDuration == 2000
    ensures living == Device(7, 1, "Living", map["desiredTempC" := 20])
    ensures office == Device(8, 2, "Office", map["desiredTempC" := 20])
    ensures engine.devices == Some([living, office])
    ensures 1 in engine.statusTimestamp && engine.statusTimestamp[1] == 0
    ensures 2 in engine.statusTimestamp && engine.statusTimestamp[2] == 0
    ensures engine.deviceStatusRequest == None && engine.waiters == [] && engine.commandQueue == map[]
  {
    engine := new Solidmation();
    var homes := engine.GetHomes([Home(1, "Casa"), Home(2, "Oficina")], []);
    living := Device(7, 1, "Living", map["desiredTempC" := 20]);
    office := Device(8, 2, "Office", map["desiredTempC" := 20]);
    var loaded := engine.GetDevices([[living], [office]], 0);
    TwoHomesLayout(living, office);
    assert Home(1, "Casa") in engine.homes && Home(2, "Oficina") in engine.homes;
  }

  /** With the intended guard, the shared fetch makes device 7's command a
      no-op: it is never sent, although the gateway never saw the setpoint. */
  method CommandLostOnSharedToken() returns (done: Result<Dispatch, Error>)
    ensures done == Ok(NoOp)
  {
    var engine, requested, answer := SharedTokenQueue();
    NothingToSend(requested, answer.value.value.endpointValues);
    done := engine.FinishCommand(7, requested, answer, Ok(()));
  }

  /** The code as written sends the same command anyway, and the successful
      send clears every home's timestamp. */
  method SentAsWrittenOnSharedToken() returns (done: Result<Dispatch, Error>)
    ensures done == Ok(Sent(map["desiredTempC" := 23]))
  {
    var engine, requested, answer := SharedTokenQueue();
    var stored := Find(engine.devices.value, 7).value.endpointValues;
    done := engine.FinishCommandAsWritten(7, requested, answer, Ok(()));
    assert engine.statusTimestamp == map[];
    StoredSetpointPayload(stored, answer.value.value.endpointValues, requested);
  }

  /** The registry loaded from one thermostat per home lists them in home order. */
  lemma TwoHomesLayout(living: Device, office: Device)
    ensures Flatten([[living], [office]]) == [living, office]
  {
    assert [[living], [office]][1..] == [[office]];
    assert [[office]][1..] == [];
  }

  /** A queue of one patch folds to that patch. */
  lemma SinglePatch(patch: Values)
    requires patch == map["desiredTempC" := 23]
    ensures MergePatches([patch]) == patch
  {
    MergePatchesLastWins([patch], "desiredTempC", 0);
    forall k | k in MergePatches([patch]) ensures k == "desiredTempC" {
      MergePatchesKeys([patch], k);
    }
  }

  /** A request already reflected in the current values modifies no key. */
  lemma NothingToSend(requested: Values, current: Values)
    requires requested == map["desiredTempC" := 23] && current == requested
    ensures !ShouldSend(requested, current)
  {
    NoModifiedKeysIffNoChange(requested, current);
  }

  /** The unguarded payload is the setpoint the registry already holds. */
  lemma StoredSetpointPayload(stored: Values, current: Values, requested: Values)
    requires stored == current == requested == map["desiredTempC" := 23]
    ensures NormalizePayload(stored + (current + requested)) == map["desiredTempC" := 23]
  {
  }

  /** The same two reads under per-home tokens: device 7's forced read waits
      on a fetch of its own home 1, so the diff is taken against the
      gateway's setpoint 20 and the command is sent. */
  lemma SentUnderPerHomeToken(gateway: Values)
    requires gateway == map["desiredTempC" := 20]
    ensures 1 in BurstPerHome({}, [2, 1]) && FetchesStartedPerHome({}, [2, 1]) == 2
    ensures ShouldSend(map["desiredTempC" := 23], gateway)
  {
    PerHomeBurstFetchesEveryHome({}, [2, 1]);
    assert (set h | h in [2, 1]) == {1, 2};
    assert "desiredTempC" in ModifiedKeys(map["desiredTempC" := 23], gateway);
  }
}
