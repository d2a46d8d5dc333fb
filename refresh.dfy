/** The refresh coordinator's token: one `_deviceStatusRequest` for the whole
    engine, holding the HomeID whose fetch is in flight. */
module Refresh {
  import opened Wrappers

  /** The token after a stale read of a device in `home`: a pending request is
      joined whatever its home, otherwise a fetch of `home` starts. */
  function Join(token: Option<int>, home: int): (r: Option<int>)
    ensures r.Some?
    ensures token.Some? ==> r == token
    ensures token.None? ==> r == Some(home)
  {
    if token.None? then Some(home) else token
  }

  /** The token after a burst of stale reads, in arrival order, of devices in
      the given homes. */
  function Burst(token: Option<int>, homes: seq<int>): (r: Option<int>)
    ensures |homes| > 0 ==> r.Some?
    ensures token.Some? ==> r == token
    decreases |homes|
  {
    if |homes| == 0 then token else Burst(Join(token, homes[0]), homes[1..])
  }

  /** How many gateway fetches that burst starts. */
  function FetchesStarted(token: Option<int>, homes: seq<int>): (r: nat)
    ensures token.Some? ==> r == 0
    ensures r <= 1
    decreases |homes|
  {
    if |homes| == 0 then 0
    else (if token.None? then 1 else 0) + FetchesStarted(Join(token, homes[0]), homes[1..])
  }

  /** Any burst of stale reads starts at most one fetch: exactly one when
      none was pending, none when one was. */
  lemma {:induction false} BurstStartsAtMostOneFetch(token: Option<int>, homes: seq<int>)
    ensures FetchesStarted(token, homes) == if token.None? && |homes| > 0 then 1 else 0
    decreases |homes|
  {
    if |homes| > 0 {
      BurstStartsAtMostOneFetch(Join(token, homes[0]), homes[1..]);
    }
  }

  /** The one fetch of a burst is for the first caller's home, whatever homes
      the later callers' devices belong to. */
  lemma {:induction false} BurstFetchesFirstHome(token: Option<int>, homes: seq<int>)
    requires |homes| > 0
    ensures Burst(token, homes) == if token.None? then Some(homes[0]) else token
    decreases |homes|
  {
    if |homes| > 1 {
      BurstFetchesFirstHome(Join(token, homes[0]), homes[1..]);
    }
  }

  /** As written: a stale read for home `b` made while home `a`'s fetch is
      pending waits on `a`'s fetch, and no fetch of `b` is ever pending. */
  lemma SharedTokenSkipsOtherHome(a: int, b: int)
    requires a != b
    ensures Burst(None, [a, b]) == Some(a) && Burst(None, [a, b]) != Some(b)
    ensures FetchesStarted(None, [a, b]) == 1
  {
    BurstFetchesFirstHome(None, [a, b]);
    BurstStartsAtMostOneFetch(None, [a, b]);
  }

  /** The per-home rule the "single request per renewal" comment of
      `getDeviceStatus` asks for: one pending fetch per home, joined only by
      reads of that home. */
  function JoinPerHome(pending: set<int>, home: int): (r: set<int>)
    ensures home in r && pending <= r && r - pending <= {home}
  {
    pending + {home}
  }

  function BurstPerHome(pending: set<int>, homes: seq<int>): (r: set<int>)
    ensures pending <= r
    decreases |homes|
  {
    if |homes| == 0 then pending else BurstPerHome(JoinPerHome(pending, homes[0]), homes[1..])
  }

  /** How many fetches a burst starts under per-home tokens. */
  function FetchesStartedPerHome(pending: set<int>, homes: seq<int>): (r: nat)
    ensures r <= |homes|
    ensures (forall h :: h in homes ==> h in pending) ==> r == 0
    decreases |homes|
  {
    if |homes| == 0 then 0
    else (if homes[0] in pending then 0 else 1) + FetchesStartedPerHome(JoinPerHome(pending, homes[0]), homes[1..])
  }

  /** With per-home tokens every stale read's own home has a fetch pending,
      and a burst starts exactly one fetch per home that had none. */
  lemma PerHomeBurstFetchesEveryHome(pending: set<int>, homes: seq<int>)
    ensures BurstPerHome(pending, homes) == pending + (set h | h in homes)
    ensures FetchesStartedPerHome(pending, homes) == |(set h | h in homes) - pending|
  {
    BurstPerHomeCovers(pending, homes);
    PerHomeFetchCount(pending, homes);
  }

  lemma {:induction false} BurstPerHomeCovers(pending: set<int>, homes: seq<int>)
    ensures BurstPerHome(pending, homes) == pending + (set h | h in homes)
    decreases |homes|
  {
    if |homes| == 0 {
      assert (set h | h in homes) == {};
    } else {
      BurstPerHomeCovers(pending + {homes[0]}, homes[1..]);
      HomesOfCons(homes);
    }
  }

  lemma {:induction false} PerHomeFetchCount(pending: set<int>, homes: seq<int>)
    ensures FetchesStartedPerHome(pending, homes) == |(set h | h in homes) - pending|
    decreases |homes|
  {
    if |homes| == 0 {
      assert (set h | h in homes) == {};
    } else {
      var head := homes[0];
      PerHomeFetchCount(pending + {head}, homes[1..]);
      HomesOfCons(homes);
      var unfetched := (set h | h in homes[1..]) - (pending + {head});
      if head in pending {
        assert (set h | h in homes) - pending == unfetched;
      } else {
        assert (set h | h in homes) - pending == {head} + unfetched;
        assert head !in unfetched;
      }
    }
  }

  /** The homes of a burst are its first home and the homes of the rest. */
  lemma HomesOfCons(homes: seq<int>)
    requires |homes| > 0
    ensures (set h | h in homes) == {homes[0]} + (set h | h in homes[1..])
  {
    assert homes == [homes[0]] + homes[1..];
  }
}
