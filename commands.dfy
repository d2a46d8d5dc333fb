/** The command coalescer's pure parts: folding a device's queued patches,
    diffing them against the refreshed status, and normalising the outgoing
    payload. */
module Commands {
  import opened Registry

  /** Spreads the patches of `q` onto `acc` left to right
      (`acc = {...acc, ...patch}` for each patch in turn). */
  function MergeFrom(acc: Values, q: seq<Values>): (r: Values)
    ensures acc.Keys <= r.Keys
    ensures forall i :: 0 <= i < |q| ==> q[i].Keys <= r.Keys
    decreases |q|
  {
    if |q| == 0 then acc else MergeFrom(acc + q[0], q[1..])
  }

  /** The `requestedStatus` a queue of patches stands for: an empty queue
      requests nothing, and the last patch is requested as it stands. */
  function MergePatches(q: seq<Values>): (r: Values)
    ensures |q| == 0 ==> r == map[]
    ensures |q| > 0 ==> forall k :: k in q[|q| - 1] ==> k in r && r[k] == q[|q| - 1][k]
  {
    LastPatchWins(q);
    MergeFrom(map[], q)
  }

  /** A key no remaining patch writes keeps its accumulated value. */
  lemma {:induction false} MergeFromUntouched(acc: Values, q: seq<Values>, k: string)
    requires forall i :: 0 <= i < |q| ==> k !in q[i]
    ensures k in MergeFrom(acc, q) <==> k in acc
    ensures k in acc ==> MergeFrom(acc, q)[k] == acc[k]
    decreases |q|
  {
    if |q| > 0 {
      MergeFromUntouched(acc + q[0], q[1..], k);
    }
  }

  /** The keys of a merge are the accumulated keys and every patched key. */
  lemma {:induction false} MergeFromKeys(acc: Values, q: seq<Values>, k: string)
    ensures k in MergeFrom(acc, q) <==> k in acc || exists i :: 0 <= i < |q| && k in q[i]
    decreases |q|
  {
    if |q| > 0 {
      MergeFromKeys(acc + q[0], q[1..], k);
      if exists i :: 0 <= i < |q| && k in q[i] {
        var i :| 0 <= i < |q| && k in q[i];
        if i > 0 { assert k in q[1..][i - 1]; }
      }
      if exists i :: 0 <= i < |q[1..]| && k in q[1..][i] {
        var i :| 0 <= i < |q[1..]| && k in q[1..][i];
        assert k in q[i + 1];
      }
    }
  }

  /** Later wins: the merged value of `k` is the one written by the last
      patch that mentions `k`. */
  lemma {:induction false} MergeFromLastWins(acc: Values, q: seq<Values>, k: string, i: nat)
    requires i < |q| && k in q[i]
    requires forall j :: i < j < |q| ==> k !in q[j]
    ensures k in MergeFrom(acc, q) && MergeFrom(acc, q)[k] == q[i][k]
    decreases |q|
  {
    if i == 0 {
      MergeFromUntouched(acc + q[0], q[1..], k);
    } else {
      MergeFromLastWins(acc + q[0], q[1..], k, i - 1);
    }
  }

  /** Every key of the last patch takes that patch's value. */
  lemma LastPatchWins(q: seq<Values>)
    ensures |q| > 0 ==> forall k :: k in q[|q| - 1] ==> k in MergeFrom(map[], q) && MergeFrom(map[], q)[k] == q[|q| - 1][k]
  {
    if |q| > 0 {
      forall k | k in q[|q| - 1] ensures k in MergeFrom(map[], q) && MergeFrom(map[], q)[k] == q[|q| - 1][k] {
        MergeFromLastWins(map[], q, k, |q| - 1);
      }
    }
  }

  /** `requestedStatus` holds exactly the keys some queued patch writes, each
      with the value of the last patch that writes it. */
  lemma MergePatchesLastWins(q: seq<Values>, k: string, i: nat)
    requires i < |q| && k in q[i]
    requires forall j :: i < j < |q| ==> k !in q[j]
    ensures k in MergePatches(q) && MergePatches(q)[k] == q[i][k]
  {
    MergeFromLastWins(map[], q, k, i);
  }

  lemma MergePatchesKeys(q: seq<Values>, k: string)
    ensures k in MergePatches(q) <==> exists i :: 0 <= i < |q| && k in q[i]
  {
    MergeFromKeys(map[], q, k);
  }

  /** The `for...of` loop of `resolveCommandQueue`: it starts from a copy of
      the first patch (an empty object when the queue is empty) and spreads
      every queued patch over it in order. */
  method FoldQueue(queue: seq<Values>) returns (requested: Values)
    ensures requested == MergePatches(queue)
  {
    requested := if |queue| > 0 then queue[0] else map[];
    if |queue| > 0 {
      assert requested + queue[0] == map[] + queue[0];
    }
    var i := 0;
    while i < |queue|
      invariant 0 <= i <= |queue|
      invariant MergeFrom(requested, queue[i..]) == MergePatches(queue)
    {
      assert queue[i..][1..] == queue[i + 1..];
      requested := requested + queue[i];
      i := i + 1;
    }
  }

  /** `modifiedKeys`: the requested keys whose value differs from the
      refreshed status (a key the status lacks always differs). */
  function ModifiedKeys(requested: Values, current: Values): (r: set<string>)
    ensures r <= requested.Keys
    ensures forall k :: k in requested ==> (k in r <==> k !in current || current[k] != requested[k])
  {
    set k | k in requested && (k !in current || current[k] != requested[k])
  }

  /** No key is modified exactly when spreading the request over the current
      status would change nothing. */
  lemma NoModifiedKeysIffNoChange(requested: Values, current: Values)
    ensures ModifiedKeys(requested, current) == {} <==> current + requested == current
  {
  }

  /** The guard the dispatch is meant to have: send only when some key differs. */
  predicate ShouldSend(requested: Values, current: Values)
    ensures ShouldSend(requested, current) <==>
            exists k :: k in requested && (k !in current || current[k] != requested[k])
  {
    ModifiedKeys(requested, current) != {}
  }

  /** A command is sent exactly when it would change the device's status. */
  lemma ShouldSendIffChanges(requested: Values, current: Values)
    ensures ShouldSend(requested, current) <==> current + requested != current
  {
  }

  /** The JavaScript values the engine's guards test. An array is described
      by its length only. */
  datatype JsValue = JsUndefined | JsNull | JsBool(b: bool) | JsNumber(n: int) | JsString(s: string) | JsArray(length: nat) | JsObject

  /** JavaScript truthiness (`!v` is its negation): `undefined`, `null`,
      `false`, `0` and `""` are falsy; every array and object is truthy. */
  predicate Truthy(v: JsValue)
    ensures v.JsArray? || v.JsObject? ==> Truthy(v)
    ensures v.JsUndefined? || v.JsNull? ==> !Truthy(v)
  {
    match v
    case JsUndefined => false
    case JsNull => false
    case JsBool(b) => b
    case JsNumber(n) => n != 0
    case JsString(t) => t != ""
    case JsArray(_) => true
    case JsObject => true
  }

  /** `if( ! modifiedKeys ) return;` as written: dispatch goes ahead when the
      `modifiedKeys` array is truthy, which it always is. */
  predicate ProceedsAsWritten(requested: Values, current: Values)
    ensures ProceedsAsWritten(requested, current)
  {
    Truthy(JsArray(|ModifiedKeys(requested, current)|))
  }

  /** As written, a request identical to the current status still proceeds to
      a send, although no key is modified. */
  lemma AsWrittenSendsNoOpCommand(requested: Values)
    ensures ModifiedKeys(requested, requested) == {}
    ensures ProceedsAsWritten(requested, requested) && !ShouldSend(requested, requested)
  {
  }

  /** Fields the gateway derives itself and that are never sent. */
  const ReadOnlyFields: set<string> := {"currentTemp", "swingMode"}

  /** The `mode` value meaning "off". */
  const ModeOff := 0

  /** The vendor's "no change" value for `fanMode` and `flags`. */
  const NoChange := 255

  predicate IsOff(p: Values)
  {
    "mode" in p && p["mode"] == ModeOff
  }

  /** The outgoing payload of `setDeviceStatusNow`: read-only fields removed,
      and `fanMode` and `flags` forced to "no change" when the unit is off. */
  function NormalizePayload(p: Values): (r: Values)
    ensures "currentTemp" !in r && "swingMode" !in r
    ensures IsOff(r) <==> IsOff(p)
    ensures IsOff(p) ==> "fanMode" in r && r["fanMode"] == NoChange && "flags" in r && r["flags"] == NoChange
    ensures forall k :: k in p && k !in ReadOnlyFields && !(IsOff(p) && (k == "fanMode" || k == "flags"))
              ==> k in r && r[k] == p[k]
    ensures forall k :: k in r ==> k in p || (IsOff(p) && (k == "fanMode" || k == "flags"))
  {
    var stripped := p - ReadOnlyFields;
    if IsOff(stripped) then stripped["fanMode" := NoChange]["flags" := NoChange] else stripped
  }

  /** Normalising a normalised payload changes nothing. */
  lemma NormalizeIdempotent(p: Values)
    ensures NormalizePayload(NormalizePayload(p)) == NormalizePayload(p)
  {
  }
}
