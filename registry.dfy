/** The device registry: the devices and homes the engine keeps in memory, and
    the pure list operations the engine applies to them. */
module Registry {
  import opened Wrappers

  /** A device's named numeric state fields (`mode`, `desiredTempC`,
      `currentTemp`, `fanMode`, `swingMode`, `flags`, ...). A partial mapping
      of the same shape is a patch. */
  type Values = map<string, int>

  /** One controllable endpoint; `endpointValues` is its only mutable part. */
  datatype Device = Device(EndpointID: int, HomeID: int, Description: string, endpointValues: Values)

  /** A home: the scope one gateway fetch returns all devices of. */
  datatype Home = Home(HomeID: int, Description: string)

  /** `Array.prototype.find` on EndpointID, as an index: the first device
      whose EndpointID is `id`. */
  function FindIndex(ds: seq<Device>, id: int): (r: Option<nat>)
    ensures r.Some? ==> r.value < |ds| && ds[r.value].EndpointID == id
    ensures r.Some? ==> forall j :: 0 <= j < r.value ==> ds[j].EndpointID != id
    ensures r.None? <==> forall j :: 0 <= j < |ds| ==> ds[j].EndpointID != id
  {
    if |ds| == 0 then None
    else if ds[0].EndpointID == id then Some(0)
    else match FindIndex(ds[1..], id)
      case None => None
      case Some(k) => Some(k + 1)
  }

  /** `devices.find((acc) => acc.EndpointID === id)`. */
  function Find(ds: seq<Device>, id: int): (r: Option<Device>)
    ensures r.Some? ==> r.value in ds && r.value.EndpointID == id
    ensures r.Some? ==> exists i :: 0 <= i < |ds| && ds[i] == r.value && forall j :: 0 <= j < i ==> ds[j].EndpointID != id
    ensures r.None? <==> forall d :: d in ds ==> d.EndpointID != id
  {
    match FindIndex(ds, id)
    case None => None
    case Some(i) => Some(ds[i])
  }

  /** What one registry entry becomes after a refresh: the first snapshot
      entry with its EndpointID, or itself when the snapshot has none. */
  function Refreshed(stale: Device, fetched: seq<Device>): (r: Device)
    ensures r.EndpointID == stale.EndpointID
    ensures (forall d :: d in fetched ==> d.EndpointID != stale.EndpointID) ==> r == stale
    ensures FindIndex(fetched, stale.EndpointID).Some? ==> r == fetched[FindIndex(fetched, stale.EndpointID).value]
  {
    match Find(fetched, stale.EndpointID)
    case Some(updated) => updated
    case None => stale
  }

  /** The entry is replaced by the first snapshot entry with its EndpointID:
      never by one after a match. */
  lemma RefreshedFirstMatch(stale: Device, fetched: seq<Device>, j: nat)
    requires j < |fetched| && fetched[j].EndpointID == stale.EndpointID
    ensures Refreshed(stale, fetched) in fetched[..j + 1]
  {
    var i := FindIndex(fetched, stale.EndpointID).value;
    assert fetched[..j + 1][i] == fetched[i];
  }

  /** `updateHomeDevices`: merge a fetched snapshot into the registry by
      EndpointID. Every known device keeps its place; snapshot-only devices are
      not added. */
  function MergeSnapshot(current: seq<Device>, fetched: seq<Device>): (r: seq<Device>)
    ensures |r| == |current|
    ensures forall i :: 0 <= i < |r| ==> r[i].EndpointID == current[i].EndpointID
    ensures forall i :: 0 <= i < |r| ==> r[i] == current[i] || r[i] in fetched
    ensures forall i ::
              0 <= i < |r| && (forall j :: 0 <= j < |fetched| ==> fetched[j].EndpointID != current[i].EndpointID)
              ==> r[i] == current[i]
    ensures forall i, j ::
              0 <= i < |r| && 0 <= j < |fetched| && fetched[j].EndpointID == current[i].EndpointID
              ==> r[i] in fetched[..j + 1]
  {
    seq(|current|, i requires 0 <= i < |current| => Refreshed(current[i], fetched))
  }

  /** Merging the same snapshot twice changes nothing more. */
  lemma MergeSnapshotIdempotent(current: seq<Device>, fetched: seq<Device>)
    ensures MergeSnapshot(MergeSnapshot(current, fetched), fetched) == MergeSnapshot(current, fetched)
  {
  }

  /** Reading a device back after a merge: an unknown device stays unknown, a
      known one is its refreshed entry. */
  lemma FindAfterMerge(current: seq<Device>, fetched: seq<Device>, id: int)
    ensures Find(MergeSnapshot(current, fetched), id) ==
            match Find(current, id)
            case None => None
            case Some(d) => Some(Refreshed(d, fetched))
  {
  }

  /** The optimistic write of `queueSetDeviceStatus`: the first device with
      EndpointID `id` gets `endpointValues + patch` (the patch wins per key). */
  function PatchFirst(ds: seq<Device>, id: int, patch: Values): (r: seq<Device>)
    ensures |r| == |ds|
    ensures forall j :: 0 <= j < |ds| ==>
              r[j].EndpointID == ds[j].EndpointID && r[j].HomeID == ds[j].HomeID && r[j].Description == ds[j].Description
    ensures forall j :: 0 <= j < |ds| && ds[j].EndpointID != id ==> r[j] == ds[j]
    ensures FindIndex(ds, id).Some? ==>
              var i := FindIndex(ds, id).value;
              && r[i].endpointValues == ds[i].endpointValues + patch
              && forall j :: 0 <= j < |ds| && j != i ==> r[j] == ds[j]
    ensures FindIndex(ds, id).None? ==> r == ds
  {
    match FindIndex(ds, id)
    case None => ds
    case Some(i) => ds[i := ds[i].(endpointValues := ds[i].endpointValues + patch)]
  }

  /** Reading right after a patch sees the patch; every other device reads as
      before. */
  lemma FindAfterPatch(ds: seq<Device>, id: int, patch: Values, other: int)
    ensures Find(PatchFirst(ds, id, patch), id) ==
            match Find(ds, id)
            case None => None
            case Some(d) => Some(d.(endpointValues := d.endpointValues + patch))
    ensures other != id ==> Find(PatchFirst(ds, id, patch), other) == Find(ds, other)
  {
  }

  /** The registry write of `setDeviceStatusNow`: every device with EndpointID
      `id` gets `payload` as its values. */
  function SetValues(ds: seq<Device>, id: int, payload: Values): (r: seq<Device>)
    ensures |r| == |ds|
    ensures forall j :: 0 <= j < |ds| ==>
              r[j].EndpointID == ds[j].EndpointID && r[j].HomeID == ds[j].HomeID && r[j].Description == ds[j].Description
    ensures forall j :: 0 <= j < |ds| && ds[j].EndpointID != id ==> r[j] == ds[j]
    ensures forall j :: 0 <= j < |ds| && ds[j].EndpointID == id ==> r[j].endpointValues == payload
  {
    seq(|ds|, j requires 0 <= j < |ds| =>
      if ds[j].EndpointID == id then ds[j].(endpointValues := payload) else ds[j])
  }

  /** After the write the device reads back with exactly `payload`; every
      other device reads as before. */
  lemma FindAfterSetValues(ds: seq<Device>, id: int, payload: Values, other: int)
    ensures Find(SetValues(ds, id, payload), id) ==
            match Find(ds, id)
            case None => None
            case Some(d) => Some(d.(endpointValues := payload))
    ensures other != id ==> Find(SetValues(ds, id, payload), other) == Find(ds, other)
  {
    var written := SetValues(ds, id, payload);
    SameIdsSameIndex(ds, written, id);
    SameIdsSameIndex(ds, written, other);
  }

  /** Where a lookup lands depends only on the sequence of EndpointIDs. */
  lemma SameIdsSameIndex(a: seq<Device>, b: seq<Device>, id: int)
    requires |a| == |b| && forall j :: 0 <= j < |a| ==> a[j].EndpointID == b[j].EndpointID
    ensures FindIndex(a, id) == FindIndex(b, id)
  {
    if FindIndex(a, id).Some? {
      assert b[FindIndex(a, id).value].EndpointID == id;
    }
  }

  /** The number of devices in all the per-home lists together. */
  function TotalLength(groups: seq<seq<Device>>): nat
  {
    if |groups| == 0 then 0 else |groups[0]| + TotalLength(groups[1..])
  }

  /** `a.flat()` over the per-home device lists of `getDevices`: the lists
      one after another, in home order. */
  function Flatten(groups: seq<seq<Device>>): (r: seq<Device>)
    ensures |r| == TotalLength(groups)
    ensures |groups| > 0 ==> |groups[0]| <= |r| && r[..|groups[0]|] == groups[0]
    ensures forall d :: d in r <==> exists g :: g in groups && d in g
  {
    if |groups| == 0 then []
    else
      var rest := Flatten(groups[1..]);
      assert forall g :: g in groups <==> g == groups[0] || g in groups[1..];
      groups[0] + rest
  }

  /** Taking the first `i` lists away from a layout. */
  lemma TotalLengthSplit(groups: seq<seq<Device>>, i: nat)
    requires 0 < i <= |groups|
    ensures TotalLength(groups[..i]) == |groups[0]| + TotalLength(groups[1..][..i - 1])
  {
    assert groups[..i][1..] == groups[1..][..i - 1];
  }

  /** Device `k` of list `i` sits at offset `k` after all devices of the
      earlier lists. */
  lemma {:induction false} FlattenLayout(groups: seq<seq<Device>>, i: nat, k: nat)
    requires i < |groups| && k < |groups[i]|
    ensures TotalLength(groups[..i]) + k < |Flatten(groups)|
    ensures Flatten(groups)[TotalLength(groups[..i]) + k] == groups[i][k]
    decreases i
  {
    var r := Flatten(groups);
    var rest := Flatten(groups[1..]);
    assert r == groups[0] + rest;
    if i == 0 {
      assert groups[..0] == [];
    } else {
      FlattenLayout(groups[1..], i - 1, k);
      TotalLengthSplit(groups, i);
    }
  }

  /** The homes whose Description is listed in `filter`, in order. */
  function KeepDescribed(homes: seq<Home>, filter: seq<string>): (r: seq<Home>)
    ensures |r| <= |homes|
    ensures forall h :: h in r <==> h in homes && h.Description in filter
  {
    if |homes| == 0 then []
    else (if homes[0].Description in filter then [homes[0]] else []) + KeepDescribed(homes[1..], filter)
  }

  /** The `getHomes` filter: an empty filter keeps every home. */
  function FilterHomes(homes: seq<Home>, filter: seq<string>): (r: seq<Home>)
    ensures |filter| == 0 ==> r == homes
    ensures forall h :: h in r <==> h in homes && (|filter| == 0 || h.Description in filter)
  {
    if |filter| == 0 then homes else KeepDescribed(homes, filter)
  }

  /** Filtering an already filtered list changes nothing. */
  lemma {:induction false} KeepDescribedIdempotent(homes: seq<Home>, filter: seq<string>)
    ensures KeepDescribed(KeepDescribed(homes, filter), filter) == KeepDescribed(homes, filter)
  {
    if |homes| > 0 {
      KeepDescribedIdempotent(homes[1..], filter);
      var rest := KeepDescribed(homes[1..], filter);
      if homes[0].Description in filter {
        var once := [homes[0]] + rest;
        assert once[0] == homes[0] && once[1..] == rest;
        assert KeepDescribed(once, filter) == [homes[0]] + KeepDescribed(rest, filter);
      } else {
        assert KeepDescribed(homes, filter) == rest;
      }
    }
  }

  /** The filter works home by home: a single home is kept exactly when its
      Description is listed. */
  lemma KeepDescribedSingle(h: Home, filter: seq<string>)
    ensures KeepDescribed([h], filter) == if h.Description in filter then [h] else []
  {
    assert [h][1..] == [];
  }

  /** Filtering a concatenation filters each part in place, so the kept
      homes stay in input order and duplicates are kept. */
  lemma {:induction false} KeepDescribedAppend(a: seq<Home>, b: seq<Home>, filter: seq<string>)
    ensures KeepDescribed(a + b, filter) == KeepDescribed(a, filter) + KeepDescribed(b, filter)
    decreases |a|
  {
    if |a| == 0 {
      assert a + b == b;
    } else {
      KeepDescribedAppend(a[1..], b, filter);
      var head := if a[0].Description in filter then [a[0]] else [];
      assert (a + b)[0] == a[0] && (a + b)[1..] == a[1..] + b;
      assert KeepDescribed(a + b, filter) == head + KeepDescribed(a[1..] + b, filter);
      assert KeepDescribed(a, filter) == head + KeepDescribed(a[1..], filter);
    }
  }

  /** The `getHomes` filter keeps input order and duplicates as well. */
  lemma FilterHomesAppend(a: seq<Home>, b: seq<Home>, filter: seq<string>)
    ensures FilterHomes(a + b, filter) == FilterHomes(a, filter) + FilterHomes(b, filter)
    ensures FilterHomes([], filter) == []
  {
    if |filter| > 0 {
      KeepDescribedAppend(a, b, filter);
    }
  }

  lemma FilterHomesIdempotent(homes: seq<Home>, filter: seq<string>)
    ensures FilterHomes(FilterHomes(homes, filter), filter) == FilterHomes(homes, filter)
  {
    if |filter| > 0 {
      KeepDescribedIdempotent(homes, filter);
    }
  }
}
