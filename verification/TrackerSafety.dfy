/** What every operation of the tracker keeps, in any order. */
module TrackerSafety {
  import opened Integers
  import opened Outcomes
  import opened LeaseKeys
  import opened Ranking
  import opened TrackerState

  // ----- The invariant -----

  ghost predicate PeerOk(t: Tracker, id: string)
    requires id in t.peers
  {
    && t.peers[id].connNum == |t.peers[id].leases|
    && (id != t.uuid ==> t.peers[id].connNum <= MAX_INFLIGHT)
  }

  ghost predicate LeasesOk(t: Tracker) {
    forall id <- t.peers :: PeerOk(t, id)
  }

  ghost predicate Owns(t: Tracker, id: string, i: int) {
    id in OwnersOf(t, i)
  }

  /** A receiver is listed for a chunk in both owner maps or in neither, and only if it is
      registered. */
  ghost predicate PairOk(t: Tracker, id: string, i: int) {
    && (id != t.uuid ==> (Owns(t, id, i) <==> i in ChunksOf(t, id)))
    && (id != t.uuid && Owns(t, id, i) ==> id in t.peers)
    && (i in ChunksOf(t, id) ==> i in t.chunkOwners)
  }

  ghost predicate OwnersOk(t: Tracker) {
    && (forall id, i :: PairOk(t, id, i))
    && (forall id <- t.peerOwners :: id != t.uuid ==> id in t.peers)
  }

  ghost predicate Inv(t: Tracker) {
    LeasesOk(t) && OwnersOk(t)
  }

  lemma ExpiredOk(p: Peer, now: Time)
    requires p.connNum == |p.leases|
    ensures Expired(p, now).connNum == |Expired(p, now).leases| <= p.connNum
  {
  }

  lemma ReleasedOk(p: Peer, key: string)
    requires p.connNum == |p.leases|
    ensures Released(p, key).connNum == |Released(p, key).leases| <= p.connNum
  {
  }

  lemma SetPeerLeasesOk(t: Tracker, id: string, p: Peer)
    requires LeasesOk(t)
    requires p.connNum == |p.leases| && (id != t.uuid ==> p.connNum <= MAX_INFLIGHT)
    ensures LeasesOk(SetPeer(t, id, p))
  {
  }

  lemma SameOwners(t: Tracker, u: Tracker)
    requires OwnersOk(t) && u.uuid == t.uuid && t.peers.Keys <= u.peers.Keys
    requires u.chunkOwners == t.chunkOwners && u.peerOwners == t.peerOwners
    ensures OwnersOk(u)
  {
    forall id, i ensures PairOk(u, id, i) {
      assert PairOk(t, id, i);
    }
  }

  lemma ExpireOk(t: Tracker, now: Time)
    requires Inv(t)
    ensures Inv(Expire(t, now))
  {
    var u := Expire(t, now);
    forall id <- u.peers ensures PeerOk(u, id) {
      assert PeerOk(t, id);
      ExpiredOk(t.peers[id], now);
    }
    SameOwners(t, u);
  }

  lemma ReplacePeerOk(t: Tracker, id: string, p: Peer)
    requires Inv(t)
    requires p.connNum == |p.leases| && (id != t.uuid ==> p.connNum <= MAX_INFLIGHT)
    ensures Inv(SetPeer(t, id, p))
  {
    SetPeerLeasesOk(t, id, p);
    SameOwners(t, SetPeer(t, id, p));
  }

  lemma LeasedOk(p: Peer, key: string, now: Time)
    requires p.connNum == |p.leases|
    ensures Leased(p, key, now).connNum == |Leased(p, key, now).leases| <= p.connNum + 1
  {
    assert p.leases[key := now + LEASE_TTL].Keys == p.leases.Keys + {key};
  }

  lemma LeaseOk(t: Tracker, id: string, i: int, requester: string, now: Time)
    requires Inv(t)
    requires id != t.uuid ==> id in t.peers && t.peers[id].connNum < MAX_INFLIGHT
    ensures Inv(Lease(t, id, i, requester, now))
  {
    var p := if id in t.peers then t.peers[id] else NO_PEER;
    assert id in t.peers ==> PeerOk(t, id);
    LeasedOk(p, LeaseKey(requester, i), now);
    ReplacePeerOk(t, id, Leased(p, LeaseKey(requester, i), now));
  }

  /** The best source is the central node or a receiver that may take one more lease. */
  lemma BestMayBeLeased(t: Tracker, req: Want, now: Time, connZone: string, halving: Halving)
    ensures
      var best := Ranked(t, req, now, connZone, halving)[0];
      best.uuid != t.uuid ==> Eligible(t, req, best.uuid, now)
  {
    CandidatesAreExact(t, req, now, connZone, halving);
  }

  /** The candidate list: the central node once, and besides it every receiver that may serve
      the chunk, each once, best first. */
  lemma CandidatesAreExact(t: Tracker, req: Want, now: Time, connZone: string, halving: Halving)
    ensures
      var r := Ranked(t, req, now, connZone, halving);
      && Sorted(r)
      && (forall i, j :: 0 <= i < j < |r| ==> r[i].uuid != r[j].uuid)
      && (forall k :: 0 <= k < |r| && r[k].uuid != t.uuid ==>
            && Eligible(t, req, r[k].uuid, now) && r[k].addr == t.peers[r[k].uuid].addr)
      && (forall id :: id == t.uuid || Eligible(t, req, id, now) ==> exists k :: 0 <= k < |r| && r[k].uuid == id)
  {
    var r := Ranked(t, req, now, connZone, halving);
    var s := Candidates(t, req, now, connZone, halving);
    var zone := ZoneFor(t, req, connZone);
    forall i, j | 0 <= i < j < |r| ensures r[i].uuid != r[j].uuid {
      assert r[i] in r && r[j] in r;
      BeforeAsymmetric(r[i], r[j]);
    }
    forall k | 0 <= k < |r| && r[k].uuid != t.uuid
      ensures Eligible(t, req, r[k].uuid, now) && r[k].addr == t.peers[r[k].uuid].addr
    {
      assert r[k] in r;
      assert r[k] in s;
    }
    forall id | id == t.uuid || Eligible(t, req, id, now) ensures exists k :: 0 <= k < |r| && r[k].uuid == id {
      var c := if id == t.uuid then CentralCandidate(t, zone, HasLocalOwner(t, req, zone), halving)
               else PeerCandidate(id, t.peers[id], now, zone, halving);
      assert c in s;
      assert c in r;
    }
  }

  lemma WantOk(t: Tracker, req: Want, now: Time, leaseAt: Time, connZone: string, halving: Halving)
    requires Inv(t)
    ensures Inv(WantLease(t, req, now, leaseAt, connZone, halving))
  {
    ExpireOk(t, now);
    var current := Expire(t, now);
    BestMayBeLeased(current, req, now, connZone, halving);
    hide Ranked, Inv;
    LeaseOk(current, Ranked(current, req, now, connZone, halving)[0].uuid, req.index, req.uuid, leaseAt);
  }

  lemma RemovePeerOk(t: Tracker, id: string)
    requires Inv(t)
    ensures Inv(RemovePeer(t, id))
  {
    var u := RemovePeer(t, id);
    forall x <- u.peers ensures PeerOk(u, x) {
      assert PeerOk(t, x);
    }
    forall x, i ensures PairOk(u, x, i) {
      assert PairOk(t, x, i);
    }
  }

  lemma AddBlockOwnerOk(t: Tracker, i: int, id: string)
    requires Inv(t)
    ensures Inv(AddBlockOwner(t, i, id))
  {
    var u := AddBlockOwner(t, i, id);
    forall x <- u.peers ensures PeerOk(u, x) {
      assert PeerOk(t, x);
    }
    forall x, k ensures PairOk(u, x, k) {
      assert PairOk(t, x, k);
    }
  }

  lemma DropOwnerOk(t: Tracker, i: int, id: string)
    requires Inv(t) && id != t.uuid
    ensures Inv(DropOwner(t, i, id))
  {
    var u := DropOwner(t, i, id);
    forall x <- u.peers ensures PeerOk(u, x) {
      assert PeerOk(t, x);
    }
    forall x, k ensures PairOk(u, x, k) {
      assert PairOk(t, x, k);
    }
  }

  lemma UpdatePeerOk(t: Tracker, id: string, speed: int, failed: bool, i: int, requester: string, now: Time)
    requires Inv(t)
    ensures Inv(UpdatePeer(t, id, speed, failed, i, requester, now))
  {
    if id in t.peers {
      var p := Released(t.peers[id], LeaseKey(requester, i));
      assert PeerOk(t, id);
      ReleasedOk(t.peers[id], LeaseKey(requester, i));
      if failed {
        if id != t.uuid {
          DropOwnerOk(t, i, id);
        }
        ReplacePeerOk(if id != t.uuid then DropOwner(t, i, id) else t, id, Punished(p, now));
      } else {
        ReplacePeerOk(t, id, Credited(p, speed));
      }
    }
  }

  lemma {:induction false} AddCentralAt(owners: map<int, set<string>>, uuid: string, n: nat, i: int)
    ensures
      var r := AddCentral(owners, uuid, n);
      && (i in r <==> i in owners || 0 <= i < n)
      && (i in r ==> r[i] == (if i in owners then owners[i] else {}) + if 0 <= i < n then {uuid} else {})
  {
    if n > 0 {
      AddCentralAt(owners, uuid, n - 1, i);
    }
  }

  lemma BeSendMainPairOk(t: Tracker, n: nat, id: string, i: int)
    requires PairOk(t, id, i)
    ensures PairOk(BeSendMain(t, n), id, i)
  {
    hide AddCentral;
    AddCentralAt(t.chunkOwners, t.uuid, n, i);
  }

  lemma BeSendMainOk(t: Tracker, n: nat)
    requires Inv(t)
    ensures Inv(BeSendMain(t, n))
  {
    var u := BeSendMain(t, n);
    forall id, i ensures PairOk(u, id, i) {
      BeSendMainPairOk(t, n, id, i);
    }
    SetPeerLeasesOk(t, t.uuid, NO_PEER);
    assert LeasesOk(u) by {
      forall id <- u.peers ensures PeerOk(u, id) {
        assert PeerOk(SetPeer(t, t.uuid, NO_PEER), id);
      }
    }
  }

  lemma AddPeerOk(t: Tracker, id: string, addr: string, conn: Option<nat>)
    requires Inv(t)
    ensures Inv(AddPeer(t, id, addr, conn))
  {
    hide OwnersOk;
    assert id in t.peers ==> PeerOk(t, id);
    ReplacePeerOk(t, id, AddPeer(t, id, addr, conn).peers[id]);
  }

  lemma SetZoneOk(t: Tracker, id: string, zone: string)
    requires Inv(t)
    ensures Inv(SetPeerZone(t, id, zone))
  {
    hide OwnersOk;
    if id in t.peers {
      assert PeerOk(t, id);
      ReplacePeerOk(t, id, t.peers[id].(zone := zone));
    }
  }

  lemma ReleaseOk(t: Tracker, id: string, i: int, requester: string)
    requires Inv(t)
    ensures Inv(Release(t, id, i, requester))
  {
    hide OwnersOk;
    if id in t.peers {
      var key := LeaseKey(requester, i);
      assert PeerOk(t, id);
      ReleasedOk(t.peers[id], key);
      ReplacePeerOk(t, id, Released(t.peers[id], key));
    }
  }

  /** The invariant does not depend on what the node itself serves. */
  lemma SamePeersOk(t: Tracker, u: Tracker)
    requires Inv(t) && u.uuid == t.uuid && u.peers == t.peers
    requires u.chunkOwners == t.chunkOwners && u.peerOwners == t.peerOwners
    ensures Inv(u)
  {
    SameOwners(t, u);
    hide OwnersOk;
    forall x <- u.peers ensures PeerOk(u, x) {
      assert PeerOk(t, x);
    }
  }

  lemma MarkSenderOk(t: Tracker)
    requires Inv(t)
    ensures Inv(MarkSender(t))
  {
    hide Inv;
    if t.uuid in t.peers {
      SamePeersOk(t, MarkSender(t));
    } else {
      ReplacePeerOk(t, t.uuid, NO_PEER);
      SamePeersOk(SetPeer(t, t.uuid, NO_PEER), MarkSender(t));
    }
  }

  lemma ClearOk(t: Tracker, op: Op, halving: Halving)
    requires Inv(t) && (op.OpSetProvider? || op.OpAddChunk? || op.OpClearContent?)
    ensures Inv(Apply(t, op, halving))
  {
    var u := Apply(t, op, halving);
    forall x <- u.peers ensures PeerOk(u, x) {
      assert PeerOk(t, x);
    }
    forall x, i ensures PairOk(u, x, i) {
      assert PairOk(t, x, i);
    }
  }

  lemma InvStep(t: Tracker, op: Op, halving: Halving)
    requires Inv(t)
    ensures Inv(Apply(t, op, halving))
  {
    hide Inv;
    match op
    case OpRemovePeer(id) => RemovePeerOk(t, id);
    case OpReportChunk(i, id) => AddBlockOwnerOk(t, i, id);
    case OpReportPeer(id, speed, failed, i, requester, now) => UpdatePeerOk(t, id, speed, failed, i, requester, now);
    case OpWant(req, now, leaseAt, connZone) => WantOk(t, req, now, leaseAt, connZone, halving);
    case OpExpire(now) => ExpireOk(t, now);
    case OpBeSendMain(n) => BeSendMainOk(t, n);
    case OpSetProvider(_) => ClearOk(t, op, halving);
    case OpAddChunk(_, _) => ClearOk(t, op, halving);
    case OpClearContent => ClearOk(t, op, halving);
    case OpAddPeer(id, addr, conn) => AddPeerOk(t, id, addr, conn);
    case OpSetZone(id, zone) => SetZoneOk(t, id, zone);
    case OpSendFailed(id, i, requester) => ReleaseOk(t, id, i, requester);
    case OpMarkSender => MarkSenderOk(t);
  }

  /** In every reachable state connNum counts the leases, receivers never exceed the limit, and
      the owner maps of receivers mirror each other. */
  lemma {:induction false} InvAlways(uuid: string, ops: seq<Op>, halving: Halving)
    ensures Inv(Run(uuid, ops, halving))
  {
    if ops != [] {
      InvAlways(uuid, ops[..|ops| - 1], halving);
      InvStep(Run(uuid, ops[..|ops| - 1], halving), ops[|ops| - 1], halving);
    }
  }

  /** The coordinator's condition for telling a slow, overloaded source to back off. */
  predicate NeedsBackoff(p: Peer) {
    p.speed > 0.0 && p.speed < 250.0 && p.connNum > 4
  }

  /** It never holds of a receiver: leases stop two below its threshold. */
  lemma BackoffNeverNeeded(uuid: string, ops: seq<Op>, halving: Halving, id: string)
    requires id in Run(uuid, ops, halving).peers && id != Run(uuid, ops, halving).uuid
    ensures !NeedsBackoff(Run(uuid, ops, halving).peers[id])
  {
    InvAlways(uuid, ops, halving);
    assert PeerOk(Run(uuid, ops, halving), id);
  }

  // ----- One epoch of the source -----

  /** The chunks with an owner entry are those of the file, and the central node owns each. */
  ghost predicate EpochOk(t: Tracker) {
    && t.chunkOwners.Keys == (if t.chunkNum.Some? then Indices(t.chunkNum.value) else {})
    && (forall i <- t.chunkOwners :: t.uuid in t.chunkOwners[i])
    && ChunksOf(t, t.uuid) == {}
  }

  /** A file is only prepared on cleared content, the provider is not exchanged behind the
      tracker's back, and nobody reports chunks under the central id. */
  ghost predicate SenderOp(t: Tracker, op: Op) {
    match op
    case OpBeSendMain(_) => t.chunkOwners == map[]
    case OpSetProvider(_) => false
    case OpReportChunk(_, id) => id != t.uuid
    case _ => true
  }

  ghost predicate SenderRun(uuid: string, ops: seq<Op>, halving: Halving) {
    forall k | 0 <= k < |ops| :: SenderOp(Run(uuid, ops[..k], halving), ops[k])
  }

  lemma OwnerRemovalKeepsEpoch(t: Tracker, id: string, chunks: set<int>, u: Tracker)
    requires EpochOk(t) && (id == t.uuid ==> chunks == {})
    requires u.chunkOwners == WithoutOwner(t.chunkOwners, id, chunks)
    requires u.uuid == t.uuid && u.chunkNum == t.chunkNum && ChunksOf(u, u.uuid) == {}
    ensures EpochOk(u)
  {
    assert u.chunkOwners.Keys == t.chunkOwners.Keys;
  }

  lemma SameEpoch(t: Tracker, u: Tracker)
    requires EpochOk(t) && u.uuid == t.uuid && u.chunkNum == t.chunkNum
    requires u.chunkOwners == t.chunkOwners && u.peerOwners == t.peerOwners
    ensures EpochOk(u)
  {
  }

  lemma ReportPeerKeepsEpoch(t: Tracker, id: string, speed: int, failed: bool, i: int, requester: string, now: Time)
    requires EpochOk(t)
    ensures EpochOk(UpdatePeer(t, id, speed, failed, i, requester, now))
  {
    var u := UpdatePeer(t, id, speed, failed, i, requester, now);
    hide EpochOk, WithoutOwner, Released, Punished, Credited;
    if id in t.peers && failed && id != t.uuid {
      CentralReportsStay(t, u);
      OwnerRemovalKeepsEpoch(t, id, {i}, u);
    } else {
      SameEpoch(t, u);
    }
  }

  lemma CentralReportsStay(t: Tracker, u: Tracker)
    requires EpochOk(t) && u.uuid == t.uuid
    requires t.uuid in u.peerOwners <==> t.uuid in t.peerOwners
    requires t.uuid in t.peerOwners ==> u.peerOwners[t.uuid] == t.peerOwners[t.uuid]
    ensures ChunksOf(u, u.uuid) == {}
  {
  }

  lemma RemovePeerKeepsEpoch(t: Tracker, id: string)
    requires EpochOk(t)
    ensures EpochOk(RemovePeer(t, id))
  {
    OwnerRemovalKeepsEpoch(t, id, ChunksOf(t, id), RemovePeer(t, id));
  }

  lemma ReportChunkKeepsEpoch(t: Tracker, i: int, id: string)
    requires EpochOk(t) && id != t.uuid
    ensures EpochOk(AddBlockOwner(t, i, id))
  {
    var u := AddBlockOwner(t, i, id);
    if t.chunkNum.Some? && 0 <= i < t.chunkNum.value {
      assert i in t.chunkOwners.Keys;
      assert u.chunkOwners.Keys == t.chunkOwners.Keys;
    }
  }

  lemma BeSendMainStartsEpoch(t: Tracker, n: nat)
    requires t.chunkOwners == map[] && ChunksOf(t, t.uuid) == {}
    ensures EpochOk(BeSendMain(t, n))
  {
    hide AddCentral;
    var u := BeSendMain(t, n);
    forall i: int ensures i in u.chunkOwners.Keys <==> 0 <= i < n {
      AddCentralAt(t.chunkOwners, t.uuid, n, i);
    }
    forall i <- u.chunkOwners ensures t.uuid in u.chunkOwners[i] {
      AddCentralAt(t.chunkOwners, t.uuid, n, i);
    }
  }

  lemma OtherKeepsEpoch(t: Tracker, op: Op, halving: Halving)
    requires EpochOk(t) && SenderOp(t, op)
    requires op.OpAddPeer? || op.OpSetZone? || op.OpWant? || op.OpSendFailed? || op.OpExpire? ||
             op.OpMarkSender? || op.OpAddChunk?
    ensures EpochOk(Apply(t, op, halving))
  {
    hide EpochOk, Ranked;
    SameEpoch(t, Apply(t, op, halving));
  }

  lemma EpochStep(t: Tracker, op: Op, halving: Halving)
    requires EpochOk(t) && SenderOp(t, op)
    ensures EpochOk(Apply(t, op, halving))
  {
    match op
    case OpRemovePeer(id) => RemovePeerKeepsEpoch(t, id);
    case OpReportPeer(id, speed, failed, i, requester, now) =>
      ReportPeerKeepsEpoch(t, id, speed, failed, i, requester, now);
    case OpReportChunk(i, id) => ReportChunkKeepsEpoch(t, i, id);
    case OpBeSendMain(n) => BeSendMainStartsEpoch(t, n);
    case OpClearContent =>
    case _ => OtherKeepsEpoch(t, op, halving);
  }

  /** Preparing a file of `n` chunks leaves exactly those chunks exactly when no chunk beyond
      them was left over from before. */
  lemma PreparedExactly(t: Tracker, n: nat)
    ensures BeSendMain(t, n).chunkOwners.Keys == Indices(n) <==> t.chunkOwners.Keys <= Indices(n)
    ensures forall i | 0 <= i < n :: Owns(BeSendMain(t, n), t.uuid, i)
  {
    var u := BeSendMain(t, n);
    forall i: int
      ensures i in u.chunkOwners.Keys <==> i in t.chunkOwners.Keys || 0 <= i < n
      ensures 0 <= i < n ==> Owns(u, t.uuid, i)
    {
      PreparedAt(t, n, i);
    }
    hide BeSendMain;
  }

  /** Older keys do occur: a file with more chunks, prepared before without clearing, leaves the
      surplus ones behind. */
  lemma SurplusSurvives(uuid: string, m: nat, n: nat, halving: Halving)
    requires n < m
    ensures
      var t := Run(uuid, [OpBeSendMain(m), OpBeSendMain(n)], halving);
      && t.chunkNum == Some(n)
      && t.chunkOwners.Keys == Indices(m) != Indices(n)
      && forall i :: 0 <= i < m ==> Owns(t, uuid, i)
  {
    var once := [OpBeSendMain(m)];
    var twice := once + [OpBeSendMain(n)];
    assert twice == [OpBeSendMain(m), OpBeSendMain(n)];
    assert once[..0] == [] && twice[..1] == once;
    var t0 := New(uuid);
    var t1 := BeSendMain(t0, m);
    assert Run(uuid, once, halving) == t1;
    assert Run(uuid, twice, halving) == BeSendMain(t1, n);
    hide Run, BeSendMain, New;
    SurplusKeys(uuid, m, n);
  }

  lemma SurplusKeys(uuid: string, m: nat, n: nat)
    requires n < m
    ensures
      var t := BeSendMain(BeSendMain(New(uuid), m), n);
      && t.chunkNum == Some(n)
      && t.chunkOwners.Keys == Indices(m) != Indices(n)
      && forall i :: 0 <= i < m ==> Owns(t, uuid, i)
  {
    hide AddCentral;
    var t1 := BeSendMain(New(uuid), m);
    var t := BeSendMain(t1, n);
    forall i: int
      ensures i in t.chunkOwners.Keys <==> 0 <= i < m
      ensures 0 <= i < m ==> Owns(t, uuid, i)
    {
      AddCentralAt(New(uuid).chunkOwners, uuid, m, i);
      AddCentralAt(t1.chunkOwners, uuid, n, i);
    }
    assert n in Indices(m) && n !in Indices(n);
  }

  lemma PreparedAt(t: Tracker, n: nat, i: int)
    ensures i in BeSendMain(t, n).chunkOwners <==> i in t.chunkOwners || 0 <= i < n
    ensures 0 <= i < n ==> Owns(BeSendMain(t, n), t.uuid, i)
  {
    AddCentralAt(t.chunkOwners, t.uuid, n, i);
    hide AddCentral;
  }

  lemma {:induction false} EpochAlways(uuid: string, ops: seq<Op>, halving: Halving)
    requires SenderRun(uuid, ops, halving)
    ensures EpochOk(Run(uuid, ops, halving))
  {
    if ops != [] {
      var rest := ops[..|ops| - 1];
      forall k | 0 <= k < |rest| ensures SenderOp(Run(uuid, rest[..k], halving), rest[k]) {
        assert rest[..k] == ops[..k];
      }
      EpochAlways(uuid, rest, halving);
      EpochStep(Run(uuid, rest, halving), ops[|ops| - 1], halving);
    }
  }

  /** The condition on the central id is needed: on any prepared tracker, a receiver that
      reports a chunk under that id and then disconnects takes the central node's ownership of
      the chunk with it. */
  lemma CentralIdMustNotReport(t: Tracker, i: nat, halving: Halving)
    requires t.chunkNum.Some? && i < t.chunkNum.value && t.uuid in t.peers
    ensures
      var reported := Apply(t, OpReportChunk(i, t.uuid), halving);
      !Owns(Apply(reported, OpRemovePeer(t.uuid), halving), t.uuid, i)
  {
    assert i in ChunksOf(AddBlockOwner(t, i, t.uuid), t.uuid);
  }

  /** Exactly the chunks that were reported under the central id are lost: after the removal the
      central node owns a chunk if and only if it did before and the chunk was not reported. */
  lemma CentralRemovalLosesReports(t: Tracker, i: int, halving: Halving)
    ensures Owns(Apply(t, OpRemovePeer(t.uuid), halving), t.uuid, i)
       <==> Owns(t, t.uuid, i) && i !in ChunksOf(t, t.uuid)
  {
  }

  // ----- The snapshot -----

  /** No peer is ever shown with more chunks than the total. */
  lemma ChunksWithinTotal(uuid: string, ops: seq<Op>, halving: Halving, id: string)
    ensures
      var t := Run(uuid, ops, halving);
      |ChunksOf(t, id)| <= |t.chunkOwners|
  {
    var t := Run(uuid, ops, halving);
    InvAlways(uuid, ops, halving);
    forall i | i in ChunksOf(t, id) ensures i in t.chunkOwners.Keys {
      assert PairOk(t, id, i);
    }
    SubsetSize(ChunksOf(t, id), t.chunkOwners.Keys);
  }
}
