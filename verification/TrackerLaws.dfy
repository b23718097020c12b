/** What the tracker's operations mean for the peers and the chunks they are about. */
module TrackerLaws {
  import opened Outcomes
  import opened LeaseKeys
  import opened Ranking
  import opened TrackerState
  import opened TrackerSafety

  // ----- Reports -----

  /** Two, four, eight, and from the fourth failure in a row on sixteen seconds. */
  function RestAfter(failuresBefore: nat): nat {
    if failuresBefore == 0 then 2_000_000_000
    else if failuresBefore == 1 then 4_000_000_000
    else if failuresBefore == 2 then 8_000_000_000
    else 16_000_000_000
  }

  /** A failure is counted, halves the speed and returns the lease. */
  lemma FailureIsPunished(t: Tracker, id: string, speed: int, i: int, requester: string, now: Time)
    requires id in t.peers
    ensures
      var u := UpdatePeer(t, id, speed, true, i, requester, now);
      && u.peers.Keys == t.peers.Keys
      && (forall other :: other in t.peers && other != id ==> u.peers[other] == t.peers[other])
      && u.peers[id].failStreak == t.peers[id].failStreak + 1
      && u.peers[id].lastFailure == Some(now)
      && u.peers[id].cooldownTil == now + RestAfter(t.peers[id].failStreak)
      && u.peers[id].speed * 2.0 == t.peers[id].speed
      && u.peers[id].addr == t.peers[id].addr && u.peers[id].conn == t.peers[id].conn
      && u.peers[id].zone == t.peers[id].zone
      && u.peers[id].leases.Keys == t.peers[id].leases.Keys - {LeaseKey(requester, i)}
  {
    PowersOfTwo();
  }

  /** A failure costs a receiver the reported chunk, and nobody anything else. */
  lemma FailureCostsTheChunk(t: Tracker, id: string, speed: int, i: int, requester: string, now: Time)
    requires id in t.peers
    ensures
      var u := UpdatePeer(t, id, speed, true, i, requester, now);
      && (forall j, other :: other in OwnersOf(u, j) <==>
            other in OwnersOf(t, j) && !(j == i && other == id && id != t.uuid))
      && (forall j, other :: j in ChunksOf(u, other) <==>
            j in ChunksOf(t, other) && !(j == i && other == id && id != t.uuid))
  {
  }

  lemma PowersOfTwo()
    ensures Pow2(1) == 2 && Pow2(2) == 4 && Pow2(3) == 8 && Pow2(4) == 16
  {
  }

  /** Until its rest is over a receiver that failed is no source of any want. */
  lemma FailedReceiverRests(t: Tracker, id: string, speed: int, i: int, requester: string, now: Time,
      req: Want, at: Time, connZone: string, halving: Halving)
    requires id in t.peers && id != t.uuid
    requires at < now + RestAfter(t.peers[id].failStreak)
    ensures
      var u := UpdatePeer(t, id, speed, true, i, requester, now);
      forall k :: 0 <= k < |Ranked(Expire(u, at), req, at, connZone, halving)| ==>
        Ranked(Expire(u, at), req, at, connZone, halving)[k].uuid != id
  {
    var u := UpdatePeer(t, id, speed, true, i, requester, now);
    FailureIsPunished(t, id, speed, i, requester, now);
    CandidatesAreExact(Expire(u, at), req, at, connZone, halving);
  }

  /** A success ends the streak and the rest; the first speed is taken over, later ones count
      three tenths. */
  lemma SuccessIsCredited(t: Tracker, id: string, speed: int, i: int, requester: string, now: Time)
    requires id in t.peers
    ensures
      var u := UpdatePeer(t, id, speed, false, i, requester, now);
      && u.peers.Keys == t.peers.Keys
      && (forall other :: other in t.peers && other != id ==> u.peers[other] == t.peers[other])
      && u.chunkOwners == t.chunkOwners && u.peerOwners == t.peerOwners
      && u.peers[id].failStreak == 0 && u.peers[id].cooldownTil == 0
      && u.peers[id].lastFailure == t.peers[id].lastFailure
      && (t.peers[id].speed <= 0.0 ==> u.peers[id].speed == speed as real)
      && (t.peers[id].speed > 0.0 ==>
            10.0 * u.peers[id].speed == 7.0 * t.peers[id].speed + 3.0 * speed as real)
      && u.peers[id].addr == t.peers[id].addr && u.peers[id].conn == t.peers[id].conn
      && u.peers[id].zone == t.peers[id].zone
      && u.peers[id].leases.Keys == t.peers[id].leases.Keys - {LeaseKey(requester, i)}
  {
  }

  // ----- Leases -----

  /** A lease lasts 45 seconds from when it was granted or renewed last. */
  lemma LeaseLasts(t: Tracker, id: string, i: int, requester: string, now: Time, at: Time)
    ensures
      var u := Expire(Lease(t, id, i, requester, now), at);
      id in u.peers && (LeaseKey(requester, i) in u.peers[id].leases <==> at <= now + 45_000_000_000)
  {
  }

  // ----- Registration -----

  /** A known peer moves to the new address and connection and keeps all else. */
  lemma KnownPeerMoves(t: Tracker, id: string, addr: string, conn: Option<nat>)
    requires id in t.peers
    ensures
      var u := AddPeer(t, id, addr, conn);
      var p, q := t.peers[id], u.peers[id];
      && u.peers.Keys == t.peers.Keys
      && q.addr == addr && q.conn == conn
      && q.connNum == p.connNum && q.speed == p.speed && q.zone == p.zone && q.leases == p.leases
      && q.lastFailure == p.lastFailure && q.failStreak == p.failStreak && q.cooldownTil == p.cooldownTil
  {
  }

  /** An unknown peer starts without zone, speed, leases or failures. */
  lemma NewPeerStartsAfresh(t: Tracker, id: string, addr: string, conn: Option<nat>)
    requires id !in t.peers
    ensures
      var u := AddPeer(t, id, addr, conn);
      var q := u.peers[id];
      && u.peers.Keys == t.peers.Keys + {id}
      && q.addr == addr && q.conn == conn
      && q.connNum == 0 && q.speed == 0.0 && q.zone == "" && q.leases == map[]
      && q.lastFailure.None? && q.failStreak == 0 && q.cooldownTil == 0
  {
  }

  lemma OthersStay(t: Tracker, id: string, addr: string, conn: Option<nat>)
    ensures
      var u := AddPeer(t, id, addr, conn);
      && (forall other :: other in t.peers && other != id ==> u.peers[other] == t.peers[other])
      && u.chunkOwners == t.chunkOwners && u.peerOwners == t.peerOwners
  {
  }

  // ----- The source and its epoch -----

  /** A prepared sender has exactly the chunks of its file, and the central node owns them
      besides what it owned. */
  lemma PreparedSender(t: Tracker, n: nat)
    ensures
      var u := BeSendMain(t, n);
      && u.isMain && u.chunkNum == Some(n)
      && (forall i :: HasChunk(u, i) <==> 0 <= i < n)
      && (forall i, id :: id in OwnersOf(u, i) <==> id in OwnersOf(t, i) || (0 <= i < n && id == t.uuid))
      && u.peerOwners == t.peerOwners && u.chunkHash == t.chunkHash
      && u.peers.Keys == t.peers.Keys + {t.uuid}
      && (forall other :: other in t.peers && other != t.uuid ==> u.peers[other] == t.peers[other])
  {
    var u := BeSendMain(t, n);
    forall i ensures OwnersOf(u, i) == OwnersOf(t, i) + (if 0 <= i < n then {t.uuid} else {}) {
      AddCentralAt(t.chunkOwners, t.uuid, n, i);
    }
  }

  /** Marking as sender gives a session every chunk of the file it has, and nothing else. */
  lemma MarkedSender(t: Tracker)
    ensures
      var u := MarkSender(t);
      && u.isMain && u.chunkNum == t.chunkNum && u.chunkHash == t.chunkHash
      && (forall i :: HasChunk(u, i) <==> t.chunkNum.Some? && 0 <= i < t.chunkNum.value)
      && u.chunkOwners == t.chunkOwners && u.peerOwners == t.peerOwners
      && u.peers.Keys == t.peers.Keys + {t.uuid}
      && (forall id :: id in t.peers ==> u.peers[id] == t.peers[id])
  {
  }

  /** A receiver with a new file has none of its chunks. */
  lemma NewProvider(t: Tracker, n: Option<nat>)
    ensures
      var u := SetProvider(t, n);
      && (forall i :: HasChunk(u, i) <==> t.isMain && n.Some? && 0 <= i < n.value)
      && u.isMain == t.isMain && u.peers == t.peers
      && u.chunkOwners == t.chunkOwners && u.peerOwners == t.peerOwners
  {
  }

  /** Adding a chunk adds that chunk; its first checksum stays. */
  lemma AddedChunk(t: Tracker, i: int, checksum: int)
    ensures
      var u := AddChunk(t, i, checksum);
      && (forall j :: HasChunk(u, j) <==>
            HasChunk(t, j) || (j == i && t.chunkNum.Some? && 0 <= i < t.chunkNum.value))
      && i in u.chunkHash && u.chunkHash[i] == (if i in t.chunkHash then t.chunkHash[i] else checksum)
      && (forall j :: j in t.chunkHash ==> j in u.chunkHash && u.chunkHash[j] == t.chunkHash[j])
      && u.peers == t.peers && u.chunkOwners == t.chunkOwners && u.peerOwners == t.peerOwners
  {
  }

  /** After the content is cleared no chunk is had or owned and no lease is held; everybody stays
      registered as before. */
  lemma NothingLeft(t: Tracker)
    ensures
      var u := ClearContent(t);
      && (forall i :: !HasChunk(u, i) && OwnersOf(u, i) == {})
      && (forall id :: ChunksOf(u, id) == {})
      && u.chunkHash == map[] && u.isMain == t.isMain
      && u.peers.Keys == t.peers.Keys
      && (forall id :: id in t.peers ==>
            var p, q := t.peers[id], u.peers[id];
            && q.leases == map[] && q.connNum == 0
            && q.addr == p.addr && q.conn == p.conn && q.zone == p.zone && q.speed == p.speed
            && q.lastFailure == p.lastFailure && q.failStreak == p.failStreak && q.cooldownTil == p.cooldownTil)
  {
  }
}
