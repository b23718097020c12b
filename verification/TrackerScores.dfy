/** What the score of a source means, and that the best sources come first. */
module TrackerScores {
  import opened Outcomes
  import opened Ranking
  import opened TrackerState
  import opened TrackerSafety

  /** Half to the power of its argument is positive and falls. */
  ghost predicate Falls(halving: Halving) {
    && (forall x :: halving(x) > 0.0)
    && (forall x, y :: x < y ==> halving(x) > halving(y))
  }

  // ----- The score of a receiver -----

  function Pace(p: Peer): real {
    if p.speed <= 0.0 then 1000.0 else p.speed
  }

  function Nearness(source: string, requester: string): real {
    if source == "*" || requester == "" || source == requester then 1.0 else 0.15
  }

  function Age(at: Time, now: Time): real {
    (now as int - at as int) as real / 1_000_000_000.0 / 30.0
  }

  function Burden(p: Peer, now: Time, halving: Halving): real {
    if p.lastFailure.None? then p.failStreak as real
    else p.failStreak as real * halving(Age(p.lastFailure.value, now))
  }

  function Product(speed: real, n: nat, factor: real, penalty: real): real {
    speed / (n + 1) as real * factor * penalty
  }

  lemma BurdenIsFailures(p: Peer, now: Time, halving: Halving)
    ensures Failures(p, now, halving) == Burden(p, now, halving)
  {
    if p.lastFailure.Some? {
      SameAge((now as int - p.lastFailure.value as int) as real);
    }
  }

  lemma SameAge(x: real)
    ensures x / SECOND as real / FAIL_HALF_LIFE == x / 1_000_000_000.0 / 30.0
  {
  }

  /** Speed, or 1000 while it is unknown, shared among the leases and the next one; 0.15 of it
      across named zones; halved by each failure in a row, which itself is halved by every
      thirty seconds since the last one. */
  lemma PeerScore(id: string, p: Peer, now: Time, zone: string, halving: Halving)
    ensures PeerCandidate(id, p, now, zone, halving).score
         == Product(Pace(p), p.connNum, Nearness(p.zone, zone), halving(Burden(p, now, halving)))
    ensures PeerCandidate(id, p, now, zone, halving).uuid == id
    ensures PeerCandidate(id, p, now, zone, halving).addr == p.addr
  {
    BurdenIsFailures(p, now, halving);
  }

  lemma ProductBelow(a: real, b: real, c: real)
    requires a < b && 0.0 < c
    ensures a * c < b * c && c * a < c * b
  {
  }

  lemma DivisionBelow(a: real, b: real, c: real)
    requires a < b && 0.0 < c
    ensures a / c < b / c
  {
    var x, y := a / c, b / c;
    assert x * c == a && y * c == b;
    Cancel(x, y, c);
  }

  lemma Cancel(a: real, b: real, c: real)
    requires a * c < b * c && c > 0.0
    ensures a < b
  {
    assert (b - a) * c > 0.0;
  }

  lemma LargerDivisor(a: real, c: real, d: real)
    requires a > 0.0 && 0.0 < c < d
    ensures 0.0 < a / d < a / c
  {
    DivisionBelow(0.0, a, d);
    ProductBelow(c, d, a / d);
    DivisionBelow(a / d * c, a, c);
  }

  lemma ProductOfSpeed(slow: real, fast: real, n: nat, factor: real, penalty: real)
    requires slow < fast && factor > 0.0 && penalty > 0.0
    ensures Product(slow, n, factor, penalty) < Product(fast, n, factor, penalty)
  {
    var slowShare, fastShare := slow / (n + 1) as real, fast / (n + 1) as real;
    DivisionBelow(slow, fast, (n + 1) as real);
    ProductBelow(slowShare, fastShare, factor);
    ProductBelow(slowShare * factor, fastShare * factor, penalty);
  }

  lemma ProductOfLeases(speed: real, n: nat, factor: real, penalty: real)
    requires speed > 0.0 && factor > 0.0 && penalty > 0.0
    ensures Product(speed, n + 1, factor, penalty) < Product(speed, n, factor, penalty)
  {
    var more, fewer := speed / (n + 2) as real, speed / (n + 1) as real;
    LargerDivisor(speed, (n + 1) as real, (n + 2) as real);
    ProductBelow(more, fewer, factor);
    ProductBelow(more * factor, fewer * factor, penalty);
  }

  lemma ProductOfFactor(speed: real, n: nat, low: real, high: real, penalty: real)
    requires speed > 0.0 && low < high && penalty > 0.0
    ensures Product(speed, n, low, penalty) < Product(speed, n, high, penalty)
  {
    var share := speed / (n + 1) as real;
    DivisionBelow(0.0, speed, (n + 1) as real);
    ProductBelow(low, high, share);
    ProductBelow(share * low, share * high, penalty);
  }

  lemma ProductOfPenalty(speed: real, n: nat, factor: real, low: real, high: real)
    requires speed > 0.0 && factor > 0.0 && low < high
    ensures Product(speed, n, factor, low) < Product(speed, n, factor, high)
  {
    var share := speed / (n + 1) as real;
    DivisionBelow(0.0, speed, (n + 1) as real);
    ProductBelow(0.0, factor, share);
    ProductBelow(low, high, share * factor);
  }

  /** One more lease lowers the score. */
  lemma LeaseLowers(id: string, p: Peer, now: Time, zone: string, halving: Halving)
    requires Falls(halving)
    ensures PeerCandidate(id, p.(connNum := p.connNum + 1), now, zone, halving).score
          < PeerCandidate(id, p, now, zone, halving).score
  {
    hide PeerCandidate, Product, Failures;
    PeerScore(id, p, now, zone, halving);
    PeerScore(id, p.(connNum := p.connNum + 1), now, zone, halving);
    ProductOfLeases(Pace(p), p.connNum, Nearness(p.zone, zone), halving(Burden(p, now, halving)));
  }

  /** A source of another named zone scores lower than the same one in the requester's zone. */
  lemma OtherZoneLowers(id: string, p: Peer, other: string, now: Time, zone: string, halving: Halving)
    requires Falls(halving) && zone != "" && other != zone && other != "*"
    ensures PeerCandidate(id, p.(zone := other), now, zone, halving).score
          < PeerCandidate(id, p.(zone := zone), now, zone, halving).score
  {
    hide PeerCandidate, Product, Failures;
    PeerScore(id, p.(zone := other), now, zone, halving);
    PeerScore(id, p.(zone := zone), now, zone, halving);
    ProductOfFactor(Pace(p), p.connNum, 0.15, 1.0, halving(Burden(p, now, halving)));
  }

  /** One more failure in a row lowers the score. */
  lemma FailureLowers(id: string, p: Peer, now: Time, zone: string, halving: Halving)
    requires Falls(halving)
    ensures PeerCandidate(id, p.(failStreak := p.failStreak + 1), now, zone, halving).score
          < PeerCandidate(id, p, now, zone, halving).score
  {
    hide PeerCandidate, Product, Failures;
    var q := p.(failStreak := p.failStreak + 1);
    PeerScore(id, p, now, zone, halving);
    PeerScore(id, q, now, zone, halving);
    StreakBurdens(p, q, now, halving);
    ProductOfPenalty(Pace(p), p.connNum, Nearness(p.zone, zone),
                     halving(Burden(q, now, halving)), halving(Burden(p, now, halving)));
  }

  lemma StreakBurdens(p: Peer, q: Peer, now: Time, halving: Halving)
    requires Falls(halving) && p.failStreak < q.failStreak && p.lastFailure == q.lastFailure
    ensures Burden(p, now, halving) < Burden(q, now, halving)
  {
    if p.lastFailure.Some? {
      ProductBelow(p.failStreak as real, q.failStreak as real, halving(Age(p.lastFailure.value, now)));
    }
  }

  /** Failures are forgotten: at a later time the same record scores higher. */
  lemma TimeHeals(id: string, p: Peer, now: Time, later: Time, zone: string, halving: Halving)
    requires Falls(halving) && p.failStreak > 0 && p.lastFailure.Some? && now < later
    ensures PeerCandidate(id, p, now, zone, halving).score < PeerCandidate(id, p, later, zone, halving).score
  {
    hide PeerCandidate, Product, Failures;
    PeerScore(id, p, now, zone, halving);
    PeerScore(id, p, later, zone, halving);
    TimeUnburdens(p, now, later, halving);
    ProductOfPenalty(Pace(p), p.connNum, Nearness(p.zone, zone),
                     halving(Burden(p, now, halving)), halving(Burden(p, later, halving)));
  }

  lemma TimeUnburdens(p: Peer, now: Time, later: Time, halving: Halving)
    requires Falls(halving) && p.failStreak > 0 && p.lastFailure.Some? && now < later
    ensures Burden(p, later, halving) < Burden(p, now, halving)
  {
    var at := p.lastFailure.value;
    AgesDiffer(at, now, later);
    ProductBelow(halving(Age(at, later)), halving(Age(at, now)), p.failStreak as real);
  }

  lemma AgesDiffer(at: Time, now: Time, later: Time)
    requires now < later
    ensures Age(at, now) < Age(at, later)
  {
  }

  /** A faster source scores higher. */
  lemma SpeedRaises(id: string, p: Peer, faster: real, now: Time, zone: string, halving: Halving)
    requires Falls(halving) && 0.0 < p.speed < faster
    ensures PeerCandidate(id, p, now, zone, halving).score
          < PeerCandidate(id, p.(speed := faster), now, zone, halving).score
  {
    hide PeerCandidate, Product, Failures;
    PeerScore(id, p, now, zone, halving);
    PeerScore(id, p.(speed := faster), now, zone, halving);
    var q := p.(speed := faster);
    assert Pace(q) == faster && Burden(q, now, halving) == Burden(p, now, halving);
    ProductOfSpeed(p.speed, faster, p.connNum, Nearness(p.zone, zone), halving(Burden(p, now, halving)));
  }

  // ----- The score of the central node -----

  /** The central node is ranked by its speed and leases alone, but a named zone that has no
      owner of the chunk multiplies its score by 10^9. */
  lemma CentralScore(t: Tracker, zone: string, hasLocal: bool, halving: Halving)
    ensures
      var known := t.uuid in t.peers;
      var speed := if known && t.peers[t.uuid].speed > 0.0 then t.peers[t.uuid].speed else 1000.0;
      var plain := speed / ((if known then t.peers[t.uuid].connNum else 0) + 1) as real * 1.0 * halving(0.0);
      && CentralCandidate(t, zone, hasLocal, halving).score
         == (if zone != "" && !hasLocal then plain * 1_000_000_000.0 else plain)
      && CentralCandidate(t, zone, hasLocal, halving).uuid == t.uuid
      && CentralCandidate(t, zone, hasLocal, halving).addr == ""
  {
  }

  // ----- The whole answer -----

  /** The requester's zone: the stated one, or the registered one, or that of the connection. */
  lemma ZoneOfRequest(t: Tracker, req: Want, connZone: string)
    ensures req.zone != "" ==> ZoneFor(t, req, connZone) == req.zone
    ensures req.zone == "" && req.uuid in t.peers && t.peers[req.uuid].zone != "" ==>
              ZoneFor(t, req, connZone) == t.peers[req.uuid].zone
    ensures req.zone == "" && (req.uuid !in t.peers || t.peers[req.uuid].zone == "") ==>
              ZoneFor(t, req, connZone) == connZone
  {
  }

  /** Who may serve: another registered owner of the chunk, not cooling down, with fewer than two
      leases. */
  lemma EligibleMeans(t: Tracker, req: Want, id: string, now: Time)
    ensures Eligible(t, req, id, now) <==>
              && req.index in t.chunkOwners && id in t.chunkOwners[req.index]
              && id != req.uuid && id != t.uuid && id in t.peers
              && t.peers[id].cooldownTil <= now && t.peers[id].connNum < 2
  {
  }

  lemma LocalOwnerMeans(t: Tracker, req: Want, zone: string)
    ensures HasLocalOwner(t, req, zone) <==>
              exists id :: && req.index in t.chunkOwners && id in t.chunkOwners[req.index]
                           && id != req.uuid && id != t.uuid && id in t.peers && t.peers[id].zone == zone
  {
    forall id | OtherOwner(t, req, id) && t.peers[id].zone == zone
      ensures req.index in t.chunkOwners && id in t.chunkOwners[req.index] && id != req.uuid && id != t.uuid
    {
    }
    forall id | && req.index in t.chunkOwners && id in t.chunkOwners[req.index]
                && id != req.uuid && id != t.uuid && id in t.peers && t.peers[id].zone == zone
      ensures OtherOwner(t, req, id)
    {
    }
  }

  /** Later candidates never score higher, and equal scores come in the order of their ids; every
      candidate has the score of its record in the requester's zone. */
  lemma RankedBestFirst(t: Tracker, req: Want, now: Time, connZone: string, halving: Halving)
    ensures
      var r, zone := Ranked(t, req, now, connZone, halving), ZoneFor(t, req, connZone);
      && BestFirst(r)
      && (forall k :: 0 <= k < |r| && r[k].uuid == t.uuid ==>
            r[k] == CentralCandidate(t, zone, HasLocalOwner(t, req, zone), halving))
      && (forall k :: 0 <= k < |r| && r[k].uuid != t.uuid ==>
            r[k].uuid in t.peers && r[k] == PeerCandidate(r[k].uuid, t.peers[r[k].uuid], now, zone, halving))
  {
    var r, zone := Ranked(t, req, now, connZone, halving), ZoneFor(t, req, connZone);
    SortedIsBestFirst(r);
    forall k | 0 <= k < |r|
      ensures r[k].uuid == t.uuid ==> r[k] == CentralCandidate(t, zone, HasLocalOwner(t, req, zone), halving)
      ensures r[k].uuid != t.uuid ==>
                r[k].uuid in t.peers && r[k] == PeerCandidate(r[k].uuid, t.peers[r[k].uuid], now, zone, halving)
    {
      assert r[k] in r;
      assert r[k] in Candidates(t, req, now, connZone, halving);
    }
  }
}
