# Solidmation device-state engine, modelled in Dafny

This project models the device-state engine of the `Solidmation` class in
`lib/solidmationApi.js` (the cloud client of a BGH / Solidmation HVAC
Homebridge plugin). The engine is one in-memory object with five parts:

- a **freshness cache**: `statusTimestamp`, one stamp per HomeID, trusted for `cacheMs` (5000 ms);
- a **device registry**: `devices`, merged with every fetched home snapshot by EndpointID;
- a **refresh coordinator**: `getDeviceStatus` serves fresh devices from the registry. Otherwise it starts, or joins, the single in-flight refresh `_deviceStatusRequest`;
- a **command coalescer**: `queueSetDeviceStatus` queues patches per device and restarts a 2000 ms debounce timer. When the timer fires, `resolveCommandQueue` folds the queue and diffs it against a forced refresh. `setDeviceStatusNow` then normalises the payload, writes it to the registry, sends it, and clears every stamp;
- the **home filter** of `getHomes`.

Modules:

- `Wrappers` (wrappers.dfy): `Option` and `Result`.
- `Registry` (registry.dfy): the `Device` and `Home` values. It also holds the pure list operations: find by EndpointID, snapshot merge, optimistic patch, payload write, flattening and the home filter.
- `Commands` (commands.dfy): folding a queue of patches (later wins), `modifiedKeys`, and payload normalisation.
- `Refresh` (refresh.dfy): the one-token refresh rule, as a function over a burst of stale reads.
- `SolidmationApi` (solidmation.dfy): the `Solidmation` class. Its fields are `devices`, `statusTimestamp`, `commandQueue` and `deviceStatusRequest`, plus `waiters`, which holds the continuations attached to the pending refresh.
- `Scenarios` (scenarios.dfy): a client that drives the class through contracts alone. It queues two slider edits 500 ms apart and sends one command carrying the later one. It also fires a queue while another home's fetch holds the refresh token, and compares the two guards on that run.

The clock, gateway replies and timer firings are parameters. Each
asynchronous operation is split at its `await` into steps that the
environment calls in turn:

- `getDeviceStatus` becomes `GetDeviceStatus` followed by `SettleRefresh`.
- `resolveCommandQueue` becomes `ResolveCommandQueue` followed by `FinishCommand` (intended guard) or `FinishCommandAsWritten` (the guard as written).
- A timer firing is the environment calling `ResolveCommandQueue`.
- `timeoutId` is modelled as the debounce deadline.

These behaviours of the code are kept as written:

- There is one refresh token for the whole object, not one per home. A stale read for a device in home B, made while home A's fetch is pending, joins A's fetch. It then reads B's device back from the registry without B being refreshed (`Refresh.BurstFetchesFirstHome`, `Refresh.SharedTokenSkipsOtherHome`).
- The diff is computed against the status re-read after the forced refresh, not against a pre-burst baseline. The merge matches on EndpointID whatever the home. So the re-read is a snapshot entry exactly when the fetched snapshot, of whichever home, has an entry with that EndpointID (`Registry.FindAfterMerge`, `Registry.Refreshed`). Otherwise it is the current registry entry. That entry carries the optimistic patches unless a refresh settled after they were applied and replaced it.
- Freshness is cleared only as a whole (`clearCache`). There is no per-home invalidation.

The one deliberate departure is the guard at line 237. The comment at line 233 says a command is sent only when the status actually differs. The guard as written never returns (`Commands.ProceedsAsWritten`). `FinishCommand` applies the guard the comment describes, and `FinishCommandAsWritten` keeps the code's behaviour. Under the shared token, the guard the comment describes drops commands (see "## Findings").

## Model

| member | source | states |
|---|---|---|
| `Registry.FindIndex` | lib/solidmationApi.js:177 | the index found is the first device with that EndpointID; no index means no device has it |
| `Registry.Find` | lib/solidmationApi.js:177 | a found device is in the registry with that EndpointID, at a position before which no device has that EndpointID (the first match wins among duplicates); nothing is found exactly when no device has it |
| `Registry.Refreshed` | lib/solidmationApi.js:161-170 | an entry keeps its EndpointID; it is unchanged when the snapshot has no entry with that EndpointID, and otherwise it is the snapshot entry at the first index carrying it |
| `Registry.RefreshedFirstMatch` | lib/solidmationApi.js:162-164 | the replacement never comes from after any matching snapshot entry, so among duplicates the first wins |
| `Registry.SameIdsSameIndex` | lib/solidmationApi.js:177 | a lookup by EndpointID lands at the same index in two registries with the same EndpointIDs in the same order |
| `Registry.MergeSnapshot` | lib/solidmationApi.js:158-173 | length and EndpointID order are kept; devices missing from the snapshot are unchanged; a device present in it becomes its first snapshot entry; snapshot-only devices are not added |
| `Registry.MergeSnapshotIdempotent` | lib/solidmationApi.js:161-170 | merging the same snapshot again changes nothing |
| `Registry.FindAfterMerge` | lib/solidmationApi.js:161-170 | after a merge an unknown device is still unknown and a known one reads back as its refreshed entry |
| `Registry.PatchFirst` | lib/solidmationApi.js:214-216 | length and order are kept; only the first device with the EndpointID changes, to its old values spread with the patch; later duplicates and every other device are unchanged; with no such device nothing changes |
| `Registry.FindAfterPatch` | lib/solidmationApi.js:214-216 | reading right after a patch gives the old values spread with the patch (patch wins per key); every other EndpointID reads as before |
| `Registry.SetValues` | lib/solidmationApi.js:256-262 | length and order are kept; every device with that EndpointID, duplicates included, holds exactly the payload; every other device is unchanged |
| `Registry.FindAfterSetValues` | lib/solidmationApi.js:256-262 | after the write the device reads back with exactly the payload; other EndpointIDs read as before |
| `Registry.Flatten` | lib/solidmationApi.js:150-156 | the registry's length is the total of the per-home lists, it starts with the first home's list, and it holds exactly their devices |
| `Registry.TotalLengthSplit` | lib/solidmationApi.js:154 | the total length of the first `i` lists is the first list's length plus the total of the next `i - 1` |
| `Registry.FlattenLayout` | lib/solidmationApi.js:151-154 | device `k` of home `i`'s list sits in the registry at the total length of the lists before it plus `k`, so home order and in-home order are kept |
| `Registry.KeepDescribed` | lib/solidmationApi.js:138 | keeps exactly the homes whose Description is in the filter, never more homes than given |
| `Registry.KeepDescribedSingle` | lib/solidmationApi.js:138 | a single home is kept exactly when its Description is listed |
| `Registry.KeepDescribedAppend` | lib/solidmationApi.js:138 | filtering a concatenation is the concatenation of the filtered parts, so input order and duplicates are kept |
| `Registry.FilterHomesAppend` | lib/solidmationApi.js:133-139 | the same for the `getHomes` filter with or without a filter list, and the empty list filters to empty |
| `Registry.FilterHomes` | lib/solidmationApi.js:133-139 | an empty filter keeps every home; otherwise a home is kept exactly when its Description is listed |
| `Registry.FilterHomesIdempotent` | lib/solidmationApi.js:138 | filtering the filtered list again changes nothing |
| `Registry.KeepDescribedIdempotent` | lib/solidmationApi.js:138 | the same, for a non-empty filter |
| `Commands.MergeFrom` | lib/solidmationApi.js:224-227 | the merged map has every key of the start and of each patch |
| `Commands.MergeFromUntouched` | lib/solidmationApi.js:224-227 | a key no remaining patch writes keeps its accumulated value |
| `Commands.MergeFromKeys` | lib/solidmationApi.js:224-227 | the merged keys are the starting keys plus every key some patch writes |
| `Commands.MergeFromLastWins` | lib/solidmationApi.js:224-227 | the merged value of a key is the value written by the last patch that writes it |
| `Commands.LastPatchWins` | lib/solidmationApi.js:222-227 | every key of the last queued patch gets that patch's value in the merge |
| `Commands.MergePatches` | lib/solidmationApi.js:222-227 | an empty queue folds to an empty request; the last patch's keys carry its values |
| `Commands.MergePatchesLastWins` | lib/solidmationApi.js:222-227 | `requestedStatus` gives each key the value of the last queued patch writing it |
| `Commands.MergePatchesKeys` | lib/solidmationApi.js:222-227 | `requestedStatus` has exactly the keys some queued patch writes (none for an empty queue) |
| `Commands.FoldQueue` | lib/solidmationApi.js:222-227 | the loop that starts from a copy of the first patch and spreads each queued patch over it yields the last-wins merge of the queue |
| `Commands.ModifiedKeys` | lib/solidmationApi.js:235 | the modified keys are requested keys; a requested key is modified exactly when the status lacks it or holds another value |
| `Commands.NoModifiedKeysIffNoChange` | lib/solidmationApi.js:233-235 | no key is modified exactly when spreading the request over the current status leaves it unchanged |
| `Commands.ShouldSend` | lib/solidmationApi.js:233-235 | the intended guard holds exactly when some requested key is missing from the status or holds another value there |
| `Commands.ShouldSendIffChanges` | lib/solidmationApi.js:233-238 | the corrected guard sends exactly when the command would change the device's status |
| `Commands.Truthy` | lib/solidmationApi.js:237 | arrays and objects are truthy; `undefined` and `null` are falsy |
| `Commands.ProceedsAsWritten` | lib/solidmationApi.js:235-237 | the guard as written lets every dispatch go ahead, whatever the modified keys |
| `Commands.AsWrittenSendsNoOpCommand` | lib/solidmationApi.js:237 | as written, a request equal to the current status has no modified key yet still goes on to a send |
| `Commands.NormalizePayload` | lib/solidmationApi.js:249-254 | `currentTemp` and `swingMode` are removed; when `mode` is 0, `fanMode` and `flags` are 255 whatever was merged; every other key keeps its value and no key is invented |
| `Commands.NormalizeIdempotent` | lib/solidmationApi.js:249-254 | normalising a normalised payload changes nothing |
| `Refresh.Join` | lib/solidmationApi.js:187-189 | a stale read leaves a pending token as it is and otherwise takes the token for its own home |
| `Refresh.Burst` | lib/solidmationApi.js:187-189 | after a non-empty burst a token is pending; a token pending before the burst is kept |
| `Refresh.FetchesStarted` | lib/solidmationApi.js:187-189 | a burst starts at most one fetch, and none when a token is already pending |
| `Refresh.BurstStartsAtMostOneFetch` | lib/solidmationApi.js:187-189 | any burst of stale reads starts exactly one fetch when none is pending and none when one is |
| `Refresh.BurstFetchesFirstHome` | lib/solidmationApi.js:187-189 | the single token of a burst belongs to the first caller's home, whatever homes later callers' devices are in |
| `Refresh.SharedTokenSkipsOtherHome` | lib/solidmationApi.js:185-194 | stale reads of two different homes share the first home's fetch: one fetch, and none for the second home |
| `Refresh.JoinPerHome` | lib/solidmationApi.js:185-186 | under a per-home token a read's own home is pending afterwards, and no other home is added |
| `Refresh.BurstPerHome` | lib/solidmationApi.js:185-186 | a per-home burst never drops a pending home |
| `Refresh.FetchesStartedPerHome` | lib/solidmationApi.js:185-186 | a per-home burst starts at most one fetch per read, and none when every home is already pending |
| `Refresh.PerHomeBurstFetchesEveryHome` | lib/solidmationApi.js:185-186 | under per-home tokens every home of a burst is pending afterwards, and exactly one fetch starts per home that had none pending |
| `Refresh.BurstPerHomeCovers` | lib/solidmationApi.js:185-186 | a per-home burst leaves pending exactly the homes pending before plus the burst's homes |
| `Refresh.PerHomeFetchCount` | lib/solidmationApi.js:185-186 | a per-home burst starts as many fetches as it has homes not already pending |
| `SolidmationApi.Solidmation.constructor` | lib/solidmationApi.js:23-29 | window 5000 ms, debounce 2000 ms, no homes, registry unset, no stamps, no queues, no token |
| `SolidmationApi.Solidmation.HasCache` | lib/solidmationApi.js:274-282 | fresh exactly when the home has a stamp and its age is at most `cacheMs` (an age equal to `cacheMs` is fresh) |
| `SolidmationApi.Solidmation.SetCache` | lib/solidmationApi.js:284-286 | the home is stamped with now and is fresh at that instant; other homes' stamps are unchanged |
| `SolidmationApi.Solidmation.ClearCache` | lib/solidmationApi.js:288-290 | no stamps remain, so no home is fresh at any time |
| `SolidmationApi.Solidmation.GetHomes` | lib/solidmationApi.js:130-140 | the stored and returned homes are the enumerated homes under the Description filter |
| `SolidmationApi.Solidmation.GetDevices` | lib/solidmationApi.js:126-156 | the registry becomes the concatenated home lists; every home is stamped with now; other stamps are unchanged |
| `SolidmationApi.Solidmation.GetDeviceStatus` | lib/solidmationApi.js:175-191 | unset registry or unknown device: nothing, no fetch; fresh home and no skipCache: the stored device, no fetch; otherwise the call waits, starting a fetch for its home only if no request is pending, and joining the pending one otherwise |
| `SolidmationApi.Solidmation.SettleRefresh` | lib/solidmationApi.js:187-199 | on success the home is stamped, the snapshot is merged, and every waiter gets its device re-read from the merged registry; on failure nothing changes and every waiter gets the same error; either way the token is cleared |
| `SolidmationApi.Solidmation.QueueSetDeviceStatus` | lib/solidmationApi.js:202-217 | the patch is appended to that device's queue (created empty if missing), with the deadline reset to now + 2000; its first registry entry gets old values spread with the patch; other queues and devices are unchanged; an unset registry throws after the queue is updated |
| `SolidmationApi.Solidmation.ResolveCommandQueue` | lib/solidmationApi.js:219-234 | the queue is reset to empty with no timer; the result is the last-wins merge of the old queue and the forced read waits on the token; reading an unknown device is an error |
| `SolidmationApi.Solidmation.SetDeviceStatusNow` | lib/solidmationApi.js:241-272 | the payload is the normalised stored values spread with `mode`; every registry entry of the device holds exactly it; a successful send clears all stamps; a failed send keeps the stamps and the optimistic write; a missing device changes nothing |
| `SolidmationApi.Solidmation.FinishCommand` | lib/solidmationApi.js:234-238 | a failed or empty read is an error; with no modified key nothing is sent or changed; otherwise the refreshed status spread with the request goes through `SetDeviceStatusNow` |
| `SolidmationApi.Solidmation.FinishCommandAsWritten` | lib/solidmationApi.js:234-238 | a failed or empty read is an error; otherwise, with no guard, the refreshed status spread with the request always goes through `SetDeviceStatusNow`, and an acknowledged send clears every stamp |
| `Scenarios.SliderBurst` | lib/solidmationApi.js:202-238 | two slider edits end in one sent command: setpoint 23 (the later edit), mode 1, no `currentTemp` |
| `Scenarios.SliderQueue` | lib/solidmationApi.js:219-234 | the fired queue folds to the later setpoint and its forced read waits on the token |
| `Scenarios.SliderEdits` | lib/solidmationApi.js:202-217 | both edits are queued under one deadline of 2600, and the registry already shows setpoint 23 |
| `Scenarios.ThermostatLoaded` | lib/solidmationApi.js:150-156 | the loaded registry is the single thermostat |
| `Scenarios.DispatchAgainstServer` | lib/solidmationApi.js:187-199 | a gateway still reporting setpoint 20 makes the command go out with setpoint 23 and mode 1 and without `currentTemp`; afterwards the home is no longer fresh |
| `Scenarios.TwoHomesLoaded` | lib/solidmationApi.js:150-156 | two homes, one thermostat each, loaded in home order, and both homes stamped at 0 |
| `Scenarios.OtherHomePending` | lib/solidmationApi.js:181-189 | a stale read of device 8 takes the token for its home 2 |
| `Scenarios.FiredOnOtherHome` | lib/solidmationApi.js:213-234 | device 7 (home 1) is patched to 23, and its forced read joins home 2's token instead of fetching home 1 |
| `Scenarios.SharedTokenQueue` | lib/solidmationApi.js:192-194 | home 2's snapshot lacks device 7, so its forced read answers with the patched entry, which already holds the request |
| `Scenarios.CommandLostOnSharedToken` | lib/solidmationApi.js:233-237 | with the intended guard that run sends nothing, although the gateway never received setpoint 23 |
| `Scenarios.SentAsWrittenOnSharedToken` | lib/solidmationApi.js:237-238 | as written, the same run sends setpoint 23 |
| `Scenarios.SentUnderPerHomeToken` | lib/solidmationApi.js:185-189 | under per-home tokens the same two reads start two fetches; device 7's home 1 is fetched, and against the gateway's setpoint 20 the request for 23 is sent |
| `Scenarios.TwoHomesLayout` | lib/solidmationApi.js:154 | one thermostat per home flattens to the two thermostats in home order |
| `Scenarios.SinglePatch` | lib/solidmationApi.js:222-227 | a queue of one patch folds to that patch |
| `Scenarios.NothingToSend` | lib/solidmationApi.js:235 | a request already in the status has no modified key |
| `Scenarios.StoredSetpointPayload` | lib/solidmationApi.js:242-254 | the unguarded payload of that run is the setpoint already stored |
| `Scenarios.SliderRequest` | lib/solidmationApi.js:222-227 | two setpoint patches fold to the later one |
| `Scenarios.SetpointDiffers` | lib/solidmationApi.js:235-254 | a changed setpoint is a modified key, and its payload keeps the setpoint and mode but not `currentTemp` |

## Left out

- Authentication and transport are not modelled: `login`, `req`, `setToken`, the `request.post` calls, `EnumHomes` and the HVACSetModes send. Their results are parameters (`enumerated`, `snapshots`, `outcome`, `ack`).
- The constructor's credential check, base URL and options are left out. They are auth and transport configuration.
- `setDataPacketSerials` and the serials sent with `GetDataPacket` are left out. The body after the early `return` never runs.
- `utils.parseDevices`, `utils.timestamp`, `utils.modeTranslate`, `utils.getEndpointParameter` and `lib/constants` are not part of this model. Parsed snapshots and the clock (`now`) are inputs.
- A `Device` carries only EndpointID, HomeID, Description and `endpointValues`. The other descriptive fields (Address, DeviceModel, FirmwareVersion, Capabilities, Parameters) never change and take part in nothing modelled.
- `setTimeout`/`clearTimeout` are reduced to a deadline per queue. The environment fires the timer by calling `ResolveCommandQueue`; nothing forces it to wait for the deadline.
- Promise scheduling is reduced to explicit steps. All continuations attached to one refresh run together in `SettleRefresh`. `SetDeviceStatusNow` treats the registry write, the send and `clearCache` as one step, so calls interleaved while the send is in flight are not modelled.
- Registry entries are values, so aliasing is not modelled. In the source, one snapshot object matched by two registry entries with the same EndpointID is shared, and patching one patches both.
- `modifiedKeys` is a set; the order of `Object.keys` is not modelled.
- Field values are integers. JavaScript's loose `!=`, and values of other types, are not modelled.
- `GetDevices` models only the case where every home's fetch succeeds. The rejection of `Promise.all` and the stamps already set before it are not modelled.
- `GetHomes` models only a successful `EnumHomes`.
- SolidmationApi.Solidmation.GetDeviceStatus: keeps the code's single token for the whole object. The per-home rule is stated only as functions in `Refresh` (`Refresh.PerHomeBurstFetchesEveryHome`), not in the class.
- SolidmationApi.Solidmation.FinishCommand: returns the send's outcome. In the source, `resolveCommandQueue` does not await `setDeviceStatusNow`, so a failed send becomes an unhandled rejection rather than the caller's error.
- SolidmationApi.Solidmation.SetDeviceStatusNow: treats a missing device as a TypeError. The reference to `device.endpointValues` at line 244 throws before the intended error at line 247 is reached, and that intended error would itself fail on an undefined variable name.
- The guard at line 221 never fires because `commandQueue[EndpointID].queue` is always an array. An empty queue folds to an empty request (`Commands.MergePatchesKeys`).
- index.js is host glue and is not part of this model. That covers accessory registration, characteristic wiring, the duplicate-accessory check and the valid-modes list. The last two depend on constants that are not part of this model.

## Findings

| source | as written | input that shows it | evidently intended | confidence | as-written member | corrected member |
|---|---|---|---|---|---|---|
| lib/solidmationApi.js:237 | the guard negates the `modifiedKeys` array, and every array is truthy, so the guard never returns and every fired queue is sent | requested status equal to the refreshed status, e.g. `{mode: 1}` against `{mode: 1}`: no key is modified, yet the command is sent | send only when some key is modified, as the comment at line 233 says | not executed | `Commands.AsWrittenSendsNoOpCommand` | `Commands.ShouldSendIffChanges` |
| lib/solidmationApi.js:187-194 | the refresh token is one for the whole object, so a forced read for a device in another home joins that home's fetch. The re-read is then the optimistically patched entry. Under the guard the comment at line 233 describes, the diff is empty and the command is dropped | device 7 in home 1, device 8 in home 2, both loaded at 0; a read of device 8 at 10000; device 7 patched to setpoint 23; its queue fires while home 2's fetch is pending; home 2's snapshot lacks device 7: no key differs, so nothing is sent | a forced read waits on a fetch of its own home, so the diff is taken against the gateway's values, as the comment at lines 185-186 (a single request per cache renewal) allows per home | not executed | `Scenarios.CommandLostOnSharedToken` | `Refresh.PerHomeBurstFetchesEveryHome` |

`SolidmationApi.Solidmation.FinishCommand` uses the corrected guard `ShouldSend`, and `SolidmationApi.Solidmation.FinishCommandAsWritten` keeps the guard as written. `Scenarios.SentAsWrittenOnSharedToken` shows that the code as written does send the command of the second row. That send can repeat a setpoint the gateway already holds, and it clears every stamp. The class keeps the whole-object token, so the second row's correction is stated on the `Refresh` functions only. `Scenarios.SentUnderPerHomeToken` shows that under that correction the run of the second row sends its command.
