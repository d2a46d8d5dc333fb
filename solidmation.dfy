/** The device-state engine: one `Solidmation` object owning the device
    registry, the freshness stamps, the per-device command queues and the
    single in-flight refresh token. Clock readings, gateway replies and timer
    firings are inputs: each asynchronous operation is split at its `await`
    into the calls the environment makes in turn. */
module SolidmationApi {
  import opened Wrappers
  import opened Registry
  import opened Commands
  import opened Refresh

  datatype Error =
    | Gateway(reason: string)   // a rejected fetch or send, passed on unchanged
    | TypeError(what: string)   // a property read of `undefined`

  /** `commandQueue[EndpointID]`: the debounce deadline (the pending
      `timeoutId`) and the queued patches in arrival order. */
  datatype DeviceQueue = DeviceQueue(deadline: Option<int>, queue: seq<Values>)

  /** What `getDeviceStatus` gives back at once: nothing (registry not loaded
      or device unknown), the cached device, or a wait on the refresh token
      (`started` when this call started the fetch). */
  datatype StatusReply = NotAvailable | Served(device: Device) | Awaiting(started: bool)

  /** How a fired command queue ended: nothing to send, or the payload the
      gateway acknowledged. */
  datatype Dispatch = NoOp | Sent(payload: Values)

  /** The queued patches of a device; a device without a queue has none. */
  function QueueOf(cq: map<int, DeviceQueue>, id: int): seq<Values>
  {
    if id in cq then cq[id].queue else []
  }

  class Solidmation {
    const cacheMs: int
    const queueDuration: int
    var homes: seq<Home>
    /** `this.devices`: `None` until the first `getDevices`. */
    var devices: Option<seq<Device>>
    var statusTimestamp: map<int, int>
    var commandQueue: map<int, DeviceQueue>
    /** `_deviceStatusRequest`: the HomeID whose fetch is in flight. */
    var deviceStatusRequest: Option<int>
    /** The EndpointIDs of the `getDeviceStatus` calls waiting on that fetch,
        in the order they attached. */
    var waiters: seq<int>

    /** A pending fetch always has its starter waiting on it, and is only
        started once the registry is loaded. */
    ghost predicate Valid()
      reads this
    {
      && (deviceStatusRequest.None? <==> waiters == [])
      && (deviceStatusRequest.Some? ==> devices.Some?)
    }

    constructor ()
      ensures Valid()
      ensures cacheMs == 5000 && queueDuration == 2000
      ensures homes == [] && devices == None && statusTimestamp == map[] && commandQueue == map[]
      ensures deviceStatusRequest == None && waiters == []
    {
      cacheMs := 5000;
      queueDuration := 2000;
      homes := [];
      devices := None;
      statusTimestamp := map[];
      commandQueue := map[];
      deviceStatusRequest := None;
      waiters := [];
    }

    /** `hasCache`: the home was stamped no more than `cacheMs` ago (an age of
        exactly `cacheMs` is still fresh). */
    function HasCache(HomeID: int, now: int): (r: bool)
      reads this
      ensures r <==> HomeID in statusTimestamp && now - statusTimestamp[HomeID] <= cacheMs
    {
      if HomeID !in statusTimestamp then false
      else if now - statusTimestamp[HomeID] > cacheMs then false
      else true
    }

    /** `setCache`: stamp one home with the current time. */
    method SetCache(HomeID: int, now: int)
      modifies this`statusTimestamp
      ensures statusTimestamp == old(statusTimestamp)[HomeID := now]
      ensures cacheMs >= 0 ==> HasCache(HomeID, now)
      ensures forall h :: h != HomeID ==> (h in statusTimestamp <==> h in old(statusTimestamp))
      ensures forall h :: h != HomeID && h in statusTimestamp ==> statusTimestamp[h] == old(statusTimestamp)[h]
    {
      statusTimestamp := statusTimestamp[HomeID := now];
    }

    /** `clearCache`: forget every stamp, so no home is fresh at any time. */
    method ClearCache()
      modifies this`statusTimestamp
      ensures statusTimestamp == map[]
      ensures forall h, t :: !HasCache(h, t)
    {
      statusTimestamp := map[];
    }

    /** `getHomes` once `EnumHomes` has answered with `enumerated`. */
    method GetHomes(enumerated: seq<Home>, filter: seq<string>) returns (r: seq<Home>)
      modifies this`homes
      ensures r == FilterHomes(enumerated, filter) && homes == r
    {
      if |filter| == 0 {
        homes := enumerated;
        return homes;
      }
      homes := KeepDescribed(enumerated, filter);
      r := homes;
    }

    /** `getDevices` once every home's fetch has answered: `snapshots[i]` is
        the parsed device list of `homes[i]`, each fetch stamps its home, and
        the registry becomes their concatenation. */
    method GetDevices(snapshots: seq<seq<Device>>, now: int) returns (r: seq<Device>)
      requires Valid()
      requires |snapshots| == |homes|
      modifies this`devices, this`statusTimestamp
      ensures Valid()
      ensures devices == Some(r) && r == Flatten(snapshots)
      ensures forall h :: h in homes ==> h.HomeID in statusTimestamp && statusTimestamp[h.HomeID] == now
      ensures forall id :: id in statusTimestamp && (forall h :: h in homes ==> h.HomeID != id)
                ==> id in old(statusTimestamp) && statusTimestamp[id] == old(statusTimestamp)[id]
      ensures statusTimestamp.Keys == old(statusTimestamp).Keys + (set h | h in homes :: h.HomeID)
    {
      var fetched := set h | h in homes :: h.HomeID;
      statusTimestamp := statusTimestamp + map id | id in fetched :: now;
      r := Flatten(snapshots);
      devices := Some(r);
    }

    /** `getDeviceStatus` up to its `await`. Unknown devices and fresh homes
        answer at once; otherwise the call joins the pending fetch, or starts
        one for its device's home when none is pending, and waits. */
    method GetDeviceStatus(EndpointID: int, skipCache: bool, now: int) returns (r: StatusReply)
      requires Valid()
      modifies this`deviceStatusRequest, this`waiters
      ensures Valid()
      ensures devices.None? || Find(devices.value, EndpointID).None? ==>
                r == NotAvailable && deviceStatusRequest == old(deviceStatusRequest) && waiters == old(waiters)
      ensures devices.Some? && Find(devices.value, EndpointID).Some? ==>
                var d := Find(devices.value, EndpointID).value;
                if !skipCache && HasCache(d.HomeID, now) then
                  r == Served(d) && deviceStatusRequest == old(deviceStatusRequest) && waiters == old(waiters)
                else
                  && r == Awaiting(old(deviceStatusRequest).None?)
                  && deviceStatusRequest == Join(old(deviceStatusRequest), d.HomeID)
                  && waiters == old(waiters) + [EndpointID]
    {
      if devices.None? {
        return NotAvailable;
      }
      var found := Find(devices.value, EndpointID);
      if found.None? {
        return NotAvailable;
      }
      var device := found.value;
      if !skipCache && HasCache(device.HomeID, now) {
        return Served(device);
      }
      r := Awaiting(deviceStatusRequest.None?);
      if deviceStatusRequest.None? {
        // this.updateHomeDevices(device.HomeID) is started here
        deviceStatusRequest := Some(device.HomeID);
      }
      waiters := waiters + [EndpointID];
    }

    /** The pending fetch settles with `outcome` at time `now`. On success its
        home is stamped and the snapshot merged (`updateHomeDevices`); then
        every waiter clears the token and gets its device re-read from the
        registry, or the fetch's error. */
    method SettleRefresh(outcome: Result<seq<Device>, Error>, now: int)
      returns (answers: seq<Result<Option<Device>, Error>>)
      requires Valid() && deviceStatusRequest.Some?
      modifies this`devices, this`statusTimestamp, this`deviceStatusRequest, this`waiters
      ensures Valid() && deviceStatusRequest == None && waiters == []
      ensures |answers| == |old(waiters)|
      ensures outcome.Ok? ==>
                && devices == Some(MergeSnapshot(old(devices).value, outcome.value))
                && statusTimestamp == old(statusTimestamp)[old(deviceStatusRequest).value := now]
                && forall i :: 0 <= i < |answers| ==> answers[i] == Ok(Find(devices.value, old(waiters)[i]))
      ensures outcome.Err? ==>
                && devices == old(devices) && statusTimestamp == old(statusTimestamp)
                && forall i :: 0 <= i < |answers| ==> answers[i] == Err(outcome.error)
    {
      var home := deviceStatusRequest.value;
      var attached := waiters;
      if outcome.Ok? {
        SetCache(home, now);
        var merged := MergeSnapshot(devices.value, outcome.value);
        devices := Some(merged);
        answers := seq(|attached|, i requires 0 <= i < |attached| => Ok(Find(merged, attached[i])));
      } else {
        answers := seq(|attached|, i requires 0 <= i < |attached| => Err(outcome.error));
      }
      deviceStatusRequest := None;
      waiters := [];
    }

    /** `queueSetDeviceStatus`: append the patch to the device's queue,
        restart its debounce timer, then patch the device optimistically. With
        no registry loaded the call throws after the queue and the timer are
        already set. */
    method QueueSetDeviceStatus(EndpointID: int, newStatus: Values, now: int) returns (r: Result<(), Error>)
      requires Valid()
      modifies this`commandQueue, this`devices
      ensures Valid()
      ensures commandQueue == old(commandQueue)[EndpointID :=
                DeviceQueue(Some(now + queueDuration), QueueOf(old(commandQueue), EndpointID) + [newStatus])]
      ensures old(devices).None? ==> r.Err? && devices == None
      ensures old(devices).Some? ==> r.Ok? && devices == Some(PatchFirst(old(devices).value, EndpointID, newStatus))
    {
      var deviceQueue := if EndpointID in commandQueue then commandQueue[EndpointID] else DeviceQueue(None, []);
      // clearTimeout(timeoutId) and setTimeout(resolveCommandQueue, queueDuration)
      commandQueue := commandQueue[EndpointID := DeviceQueue(Some(now + queueDuration), deviceQueue.queue + [newStatus])];
      if devices.None? {
        return Err(TypeError("devices"));
      }
      devices := Some(PatchFirst(devices.value, EndpointID, newStatus));
      r := Ok(());
    }

    /** `resolveCommandQueue` up to its `await`, run when the device's timer
        fires: fold the queue, reset it, and ask for a forced refresh.
        `Ok(requested)` means the read is now waiting on the refresh token. */
    method ResolveCommandQueue(EndpointID: int, now: int) returns (r: Result<Values, Error>)
      requires Valid()
      modifies this`commandQueue, this`deviceStatusRequest, this`waiters
      ensures Valid()
      ensures EndpointID !in old(commandQueue) ==>
                && r.Err? && commandQueue == old(commandQueue)
                && deviceStatusRequest == old(deviceStatusRequest) && waiters == old(waiters)
      ensures EndpointID in old(commandQueue) ==>
                commandQueue == old(commandQueue)[EndpointID := DeviceQueue(None, [])]
      ensures EndpointID in old(commandQueue) && (devices.None? || Find(devices.value, EndpointID).None?) ==>
                r.Err? && deviceStatusRequest == old(deviceStatusRequest) && waiters == old(waiters)
      ensures EndpointID in old(commandQueue) && devices.Some? && Find(devices.value, EndpointID).Some? ==>
                && r == Ok(MergePatches(old(commandQueue)[EndpointID].queue))
                && deviceStatusRequest == Join(old(deviceStatusRequest), Find(devices.value, EndpointID).value.HomeID)
                && waiters == old(waiters) + [EndpointID]
    {
      if EndpointID !in commandQueue {
        return Err(TypeError("commandQueue[EndpointID]"));
      }
      var requested := FoldQueue(commandQueue[EndpointID].queue);
      commandQueue := commandQueue[EndpointID := DeviceQueue(None, [])];
      var reply := GetDeviceStatus(EndpointID, true, now);
      if reply.NotAvailable? {
        return Err(TypeError("getDeviceStatus(EndpointID, true)"));
      }
      r := Ok(requested);
    }

    /** `setDeviceStatusNow`: build the payload from the stored values spread
        with `mode`, normalise it, write it to every registry entry of the
        device, and send it; `ack` is the gateway's answer. A successful send
        clears every freshness stamp. */
    method SetDeviceStatusNow(EndpointID: int, mode: Values, ack: Result<(), Error>) returns (r: Result<Values, Error>)
      requires Valid()
      modifies this`devices, this`statusTimestamp
      ensures Valid()
      ensures old(devices).None? || Find(old(devices).value, EndpointID).None? ==>
                r.Err? && devices == old(devices) && statusTimestamp == old(statusTimestamp)
      ensures old(devices).Some? && Find(old(devices).value, EndpointID).Some? ==>
                var payload := NormalizePayload(Find(old(devices).value, EndpointID).value.endpointValues + mode);
                && devices == Some(SetValues(old(devices).value, EndpointID, payload))
                && (ack.Ok? ==> r == Ok(payload) && statusTimestamp == map[])
                && (ack.Err? ==> r == Err(ack.error) && statusTimestamp == old(statusTimestamp))
    {
      if devices.None? {
        return Err(TypeError("devices"));
      }
      var found := Find(devices.value, EndpointID);
      if found.None? {
        return Err(TypeError("device.endpointValues"));
      }
      var payload := NormalizePayload(found.value.endpointValues + mode);
      devices := Some(SetValues(devices.value, EndpointID, payload));
      if ack.Err? {
        return Err(ack.error);
      }
      ClearCache();
      r := Ok(payload);
    }

    /** `resolveCommandQueue` after its `await` as the code is written: the
        guard on `modifiedKeys` never returns, so the refreshed status spread
        with the request is always sent, clearing every stamp, even when no
        key differs. */
    method FinishCommandAsWritten(EndpointID: int, requested: Values, answer: Result<Option<Device>, Error>, ack: Result<(), Error>)
      returns (r: Result<Dispatch, Error>)
      requires Valid()
      modifies this`devices, this`statusTimestamp
      ensures Valid()
      ensures answer.Err? ==> r == Err(answer.error) && devices == old(devices) && statusTimestamp == old(statusTimestamp)
      ensures answer == Ok(None) ==> r.Err? && devices == old(devices) && statusTimestamp == old(statusTimestamp)
      ensures answer.Ok? && answer.value.Some? && (old(devices).None? || Find(old(devices).value, EndpointID).None?) ==>
                r.Err? && devices == old(devices) && statusTimestamp == old(statusTimestamp)
      ensures answer.Ok? && answer.value.Some? && old(devices).Some? && Find(old(devices).value, EndpointID).Some? ==>
                var stored := Find(old(devices).value, EndpointID).value.endpointValues;
                var payload := NormalizePayload(stored + (answer.value.value.endpointValues + requested));
                && devices == Some(SetValues(old(devices).value, EndpointID, payload))
                && (ack.Ok? ==> r == Ok(Sent(payload)) && statusTimestamp == map[])
                && (ack.Err? ==> r == Err(ack.error) && statusTimestamp == old(statusTimestamp))
    {
      if answer.Err? {
        return Err(answer.error);
      }
      if answer.value.None? {
        return Err(TypeError("(await getDeviceStatus(EndpointID, true)).endpointValues"));
      }
      var currentStatus := answer.value.value.endpointValues;
      // ProceedsAsWritten(requested, currentStatus) always holds: the guard never returns
      var sent := SetDeviceStatusNow(EndpointID, currentStatus + requested, ack);
      if sent.Err? {
        return Err(sent.error);
      }
      r := Ok(Sent(sent.value));
    }

    /** `resolveCommandQueue` after its `await`: `answer` is what the forced
        read resolved with. A failed read is passed on; otherwise the request
        is diffed against the refreshed values and, when some key differs,
        sent as the refreshed values spread with the request. */
    method FinishCommand(EndpointID: int, requested: Values, answer: Result<Option<Device>, Error>, ack: Result<(), Error>)
      returns (r: Result<Dispatch, Error>)
      requires Valid()
      modifies this`devices, this`statusTimestamp
      ensures Valid()
      ensures answer.Err? ==> r == Err(answer.error) && devices == old(devices) && statusTimestamp == old(statusTimestamp)
      ensures answer == Ok(None) ==> r.Err? && devices == old(devices) && statusTimestamp == old(statusTimestamp)
      ensures answer.Ok? && answer.value.Some? && !ShouldSend(requested, answer.value.value.endpointValues) ==>
                r == Ok(NoOp) && devices == old(devices) && statusTimestamp == old(statusTimestamp)
      ensures answer.Ok? && answer.value.Some? && ShouldSend(requested, answer.value.value.endpointValues)
                && (old(devices).None? || Find(old(devices).value, EndpointID).None?) ==>
                r.Err? && devices == old(devices) && statusTimestamp == old(statusTimestamp)
      ensures answer.Ok? && answer.value.Some? && ShouldSend(requested, answer.value.value.endpointValues)
                && old(devices).Some? && Find(old(devices).value, EndpointID).Some? ==>
                var stored := Find(old(devices).value, EndpointID).value.endpointValues;
                var payload := NormalizePayload(stored + (answer.value.value.endpointValues + requested));
                && devices == Some(SetValues(old(devices).value, EndpointID, payload))
                && (ack.Ok? ==> r == Ok(Sent(payload)) && statusTimestamp == map[])
                && (ack.Err? ==> r == Err(ack.error) && statusTimestamp == old(statusTimestamp))
    {
      if answer.Err? {
        return Err(answer.error);
      }
      if answer.value.None? {
        return Err(TypeError("(await getDeviceStatus(EndpointID, true)).endpointValues"));
      }
      var currentStatus := answer.value.value.endpointValues;
      if !ShouldSend(requested, currentStatus) {
        return Ok(NoOp);
      }
      var sent := SetDeviceStatusNow(EndpointID, currentStatus + requested, ack);
      if sent.Err? {
        return Err(sent.error);
      }
      r := Ok(Sent(sent.value));
    }
  }
}
