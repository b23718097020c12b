/** What one round of the coordinator is meant to send: for each zone the smallest chunks
    nobody there owns, all to one of the zone's best-stocked receivers. */
module Coordinator {
  import opened Outcomes
  import opened TrackerState

  const MAX_PREFETCH: nat := 4

  datatype Command = Prefetch(to: string, index: int) | Backoff(to: string, until: Time)

  predicate Member(t: Tracker, id: string, zone: string) {
    id in t.peers && id != t.uuid && t.peers[id].zone == zone
  }

  ghost predicate OwnedInZone(t: Tracker, zone: string, c: int) {
    exists id :: Member(t, id, zone) && c in ChunksOf(t, id)
  }

  ghost predicate BestStocked(t: Tracker, zone: string, id: string) {
    Member(t, id, zone) && forall m :: Member(t, m, zone) ==> |ChunksOf(t, m)| <= |ChunksOf(t, id)|
  }

  /** The first `k` indices from `c` on, below `total`, that are not in `owned`. */
  function FirstMissing(owned: set<int>, c: int, total: int, k: nat): (r: seq<int>)
    ensures |r| <= k
    decreases total - c
  {
    if c >= total || k == 0 then []
    else if c in owned then FirstMissing(owned, c + 1, total, k)
    else [c] + FirstMissing(owned, c + 1, total, k - 1)
  }

  /** They are missing and in increasing order, and no missing index is passed over: one that is
      not listed lies beyond a full list. */
  lemma {:induction false} FirstMissingIsLeast(owned: set<int>, c: int, total: int, k: nat)
    ensures
      var r := FirstMissing(owned, c, total, k);
      && (forall i :: 0 <= i < |r| ==> c <= r[i] < total && r[i] !in owned)
      && (forall i, j :: 0 <= i < j < |r| ==> r[i] < r[j])
      && (forall x :: c <= x < total && x !in owned && x !in r ==> |r| == k && forall y :: y in r ==> y < x)
    decreases total - c
  {
    if c < total && k > 0 {
      if c in owned {
        FirstMissingIsLeast(owned, c + 1, total, k);
      } else {
        FirstMissingIsLeast(owned, c + 1, total, k - 1);
        var r, rest := FirstMissing(owned, c, total, k), FirstMissing(owned, c + 1, total, k - 1);
        assert r == [c] + rest;
        assert forall y :: y in r <==> y == c || y in rest;
      }
    }
  }

  function Prefetches(to: string, chunks: seq<int>): seq<Command> {
    seq(|chunks|, i requires 0 <= i < |chunks| => Prefetch(to, chunks[i]))
  }

  /** The commands whose target is in the given zone, in order. */
  function ForZone(t: Tracker, cmds: seq<Command>, zone: string): seq<Command> {
    if cmds == [] then []
    else
      var last := cmds[|cmds| - 1];
      ForZone(t, cmds[..|cmds| - 1], zone) + if Member(t, last.to, zone) then [last] else []
  }

  lemma {:induction false} ForZoneAppend(t: Tracker, a: seq<Command>, b: seq<Command>, zone: string)
    ensures ForZone(t, a + b, zone) == ForZone(t, a, zone) + ForZone(t, b, zone)
  {
    if b == [] {
      assert a + b == a;
    } else {
      assert (a + b)[..|a + b| - 1] == a + b[..|b| - 1];
      ForZoneAppend(t, a, b[..|b| - 1], zone);
    }
  }

  lemma {:induction false} ForZoneOfOne(t: Tracker, cmds: seq<Command>, to: string, zone: string)
    requires forall k :: 0 <= k < |cmds| ==> cmds[k].to == to
    ensures ForZone(t, cmds, zone) == if Member(t, to, zone) then cmds else []
  {
    if cmds != [] {
      ForZoneOfOne(t, cmds[..|cmds| - 1], to, zone);
      assert cmds == cmds[..|cmds| - 1] + [cmds[|cmds| - 1]];
    }
  }

  /** `cmds` serves the zone: the best-stocked receiver `to` is told to fetch exactly the
      smallest chunks that are missing there, at most four of them. */
  ghost predicate ServesZone(t: Tracker, cmds: seq<Command>, zone: string, total: nat, to: string, owned: set<int>) {
    && BestStocked(t, zone, to)
    && (forall c :: c in owned <==> OwnedInZone(t, zone, c))
    && ForZone(t, cmds, zone) == Prefetches(to, FirstMissing(owned, 0, total, MAX_PREFETCH))
  }

  /** A prefetch for a receiver in a named zone. */
  ghost predicate GoodCommand(t: Tracker, cmd: Command) {
    cmd.Prefetch? && cmd.to in t.peers && cmd.to != t.uuid && t.peers[cmd.to].zone != ""
  }

  ghost predicate ZoneServed(t: Tracker, cmds: seq<Command>, zone: string, total: nat) {
    exists to, owned :: ServesZone(t, cmds, zone, total, to, owned)
  }

  ghost predicate Round(t: Tracker, cmds: seq<Command>, total: nat) {
    && (forall k :: 0 <= k < |cmds| ==> GoodCommand(t, cmds[k]))
    && (forall id, zone :: zone != "" && Member(t, id, zone) ==> ZoneServed(t, cmds, zone, total))
  }
}
