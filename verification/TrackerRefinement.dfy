/** The tracker refines a simple picture: who is registered, which (peer, chunk) pairs exist,
    and which (provider, requester, chunk) leases run until when. */
module TrackerRefinement {
  import opened Integers
  import opened Outcomes
  import opened LeaseKeys
  import opened Ranking
  import opened TrackerState
  import opened TrackerSafety

  /** Which (provider, requester, chunk) leases there are, and until when. */
  type LeaseTimes = imap<(string, string, int), Time>

  datatype Picture = Picture(
    registered: set<string>,
    owns: iset<(string, int)>,
    leases: LeaseTimes)

  predicate HasLease(t: Tracker, l: (string, string, int)) {
    l.0 in t.peers && LeaseKey(l.1, l.2) in t.peers[l.0].leases
  }

  ghost function Leases(t: Tracker): LeaseTimes {
    imap l: (string, string, int) | HasLease(t, l) :: t.peers[l.0].leases[LeaseKey(l.1, l.2)]
  }

  ghost function Ownership(t: Tracker): iset<(string, int)> {
    iset o: (string, int) | Owns(t, o.0, o.1)
  }

  ghost function View(t: Tracker): Picture {
    Picture(t.peers.Keys, Ownership(t), Leases(t))
  }

  ghost function Unexpired(leases: LeaseTimes, now: Time): LeaseTimes {
    imap l | l in leases && now <= leases[l] :: leases[l]
  }

  ghost function WithoutLease(leases: LeaseTimes, gone: (string, string, int)): LeaseTimes {
    imap l | l in leases && l != gone :: leases[l]
  }

  ghost function WithoutProvider(leases: LeaseTimes, id: string): LeaseTimes {
    imap l | l in leases && l.0 != id :: leases[l]
  }

  ghost function WithoutPeer(owns: iset<(string, int)>, id: string): iset<(string, int)> {
    iset o | o in owns && o.0 != id
  }

  ghost function WithoutPairs(owns: iset<(string, int)>, id: string, chunks: set<int>): iset<(string, int)> {
    iset o | o in owns && !(o.0 == id && o.1 in chunks)
  }

  ghost function WithFile(owns: iset<(string, int)>, id: string, n: nat): iset<(string, int)> {
    iset o: (string, int) | o in owns || (o.0 == id && 0 <= o.1 < n)
  }

  /** What an operation means in the simple picture; `best` is the source a want is given. */
  ghost function Meaning(p: Picture, t: Tracker, op: Op, best: string): Picture {
    match op
    case OpAddPeer(id, _, _) => p.(registered := p.registered + {id})
    case OpRemovePeer(id) =>
      Picture(p.registered - {id},
              // The central node also owns chunks that it never reported; those it keeps.
              if id == t.uuid then WithoutPairs(p.owns, id, ChunksOf(t, id)) else WithoutPeer(p.owns, id),
              WithoutProvider(p.leases, id))
    case OpSetZone(_, _) => p
    case OpReportChunk(i, id) =>
      if t.chunkNum.Some? && 0 <= i < t.chunkNum.value && id in p.registered
      then p.(owns := p.owns + iset{(id, i)})
      else p
    case OpReportPeer(id, _, failed, i, requester, _) =>
      p.(leases := WithoutLease(p.leases, (id, requester, i)),
         owns := if failed && id in p.registered && id != t.uuid then p.owns - iset{(id, i)} else p.owns)
    case OpWant(req, now, leaseAt, _) =>
      p.(registered := p.registered + {best},
         leases := Unexpired(p.leases, now)[(best, req.uuid, req.index) := leaseAt + LEASE_TTL])
    case OpSendFailed(id, i, requester) => p.(leases := WithoutLease(p.leases, (id, requester, i)))
    case OpExpire(now) => p.(leases := Unexpired(p.leases, now))
    case OpBeSendMain(n) =>
      Picture(p.registered + {t.uuid}, WithFile(p.owns, t.uuid, n), WithoutProvider(p.leases, t.uuid))
    case OpMarkSender => p.(registered := p.registered + {t.uuid})
    case OpSetProvider(_) => p
    case OpAddChunk(_, _) => p
    case OpClearContent => p.(owns := iset{}, leases := imap[])
  }

  // ----- Effects on the leases -----

  lemma SetPeerLeases(t: Tracker, id: string, p: Peer)
    requires id in t.peers ==> p.leases == t.peers[id].leases
    requires id !in t.peers ==> p.leases == map[]
    ensures Leases(SetPeer(t, id, p)) == Leases(t)
  {
    var u := SetPeer(t, id, p);
    assert forall l :: HasLease(u, l) <==> HasLease(t, l);
  }

  /** Releasing one (requester, chunk) lease of a provider leaves all others untouched. */
  lemma ReleasedLeases(t: Tracker, id: string, i: int, requester: string, p: Peer)
    requires id in t.peers && p.leases == Released(t.peers[id], LeaseKey(requester, i)).leases
    ensures Leases(SetPeer(t, id, p)) == WithoutLease(Leases(t), (id, requester, i))
  {
    var u := SetPeer(t, id, p);
    var gone := (id, requester, i);
    forall l: (string, string, int) ensures HasLease(u, l) <==> HasLease(t, l) && l != gone {
      if l.0 == id && LeaseKey(l.1, l.2) == LeaseKey(requester, i) {
        LeaseKeyInjective(l.1, l.2, requester, i);
      }
    }
  }

  lemma NoLeaseToRelease(t: Tracker, id: string, i: int, requester: string)
    requires id !in t.peers
    ensures WithoutLease(Leases(t), (id, requester, i)) == Leases(t)
  {
  }

  /** Granting a lease touches that lease only. */
  lemma LeasedLeases(t: Tracker, id: string, i: int, requester: string, now: Time)
    ensures Leases(Lease(t, id, i, requester, now)) == Leases(t)[(id, requester, i) := now + LEASE_TTL]
  {
    var u := Lease(t, id, i, requester, now);
    var given := (id, requester, i);
    forall l: (string, string, int)
      ensures HasLease(u, l) <==> HasLease(t, l) || l == given
      ensures HasLease(u, l) ==> Leases(u)[l] == if l == given then now + LEASE_TTL else Leases(t)[l]
    {
      if l.0 == id && LeaseKey(l.1, l.2) == LeaseKey(requester, i) {
        LeaseKeyInjective(l.1, l.2, requester, i);
      }
    }
  }

  lemma ExpiredLeases(t: Tracker, now: Time)
    ensures Leases(Expire(t, now)) == Unexpired(Leases(t), now)
  {
  }

  // ----- Effects on ownership -----

  lemma SameOwnership(t: Tracker, u: Tracker)
    requires u.chunkOwners == t.chunkOwners
    ensures Ownership(u) == Ownership(t)
  {
    assert forall id, i :: Owns(u, id, i) <==> Owns(t, id, i);
  }

  lemma RemovedOwnership(t: Tracker, id: string)
    requires Inv(t) && id != t.uuid
    ensures Ownership(RemovePeer(t, id)) == WithoutPeer(Ownership(t), id)
  {
    var u := RemovePeer(t, id);
    forall x, i ensures Owns(u, x, i) <==> Owns(t, x, i) && x != id {
      assert PairOk(t, id, i);
    }
  }

  lemma RemovedReports(t: Tracker, id: string)
    ensures Ownership(RemovePeer(t, id)) == WithoutPairs(Ownership(t), id, ChunksOf(t, id))
  {
    var u := RemovePeer(t, id);
    assert forall x, i :: Owns(u, x, i) <==> Owns(t, x, i) && !(x == id && i in ChunksOf(t, id));
  }

  lemma DroppedOwnership(t: Tracker, id: string, i: int)
    ensures Ownership(DropOwner(t, i, id)) == Ownership(t) - iset{(id, i)}
  {
  }

  lemma ReportedOwnership(t: Tracker, i: int, id: string)
    requires t.chunkNum.Some? && 0 <= i < t.chunkNum.value && id in t.peers
    ensures Ownership(AddBlockOwner(t, i, id)) == Ownership(t) + iset{(id, i)}
  {
  }

  lemma PreparedOwnership(t: Tracker, n: nat)
    ensures Ownership(BeSendMain(t, n)) == WithFile(Ownership(t), t.uuid, n)
  {
    hide BeSendMain, AddCentral, Owns;
    var u := BeSendMain(t, n);
    forall x, i ensures Owns(u, x, i) <==> Owns(t, x, i) || (x == t.uuid && 0 <= i < n) {
      PreparedOwner(t, n, x, i);
    }
  }

  lemma PreparedOwner(t: Tracker, n: nat, x: string, i: int)
    ensures Owns(BeSendMain(t, n), x, i) <==> Owns(t, x, i) || (x == t.uuid && 0 <= i < n)
  {
    AddCentralAt(t.chunkOwners, t.uuid, n, i);
    hide AddCentral;
  }

  lemma RemovedLeases(t: Tracker, u: Tracker, id: string)
    requires forall x :: x != id ==> (x in u.peers <==> x in t.peers)
    requires forall x :: x != id && x in u.peers ==> u.peers[x].leases == t.peers[x].leases
    requires id in u.peers ==> u.peers[id].leases == map[]
    ensures Leases(u) == WithoutProvider(Leases(t), id)
  {
    assert forall l :: HasLease(u, l) <==> HasLease(t, l) && l.0 != id;
  }

  // ----- The refinement -----

  lemma ReportPeerView(t: Tracker, id: string, speed: int, failed: bool, i: int, requester: string, now: Time)
    ensures
      var u := UpdatePeer(t, id, speed, failed, i, requester, now);
      && u.peers.Keys == t.peers.Keys
      && Leases(u) == WithoutLease(Leases(t), (id, requester, i))
      && Ownership(u) == if failed && id in t.peers && id != t.uuid then Ownership(t) - iset{(id, i)} else Ownership(t)
  {
    if id !in t.peers {
      NoLeaseToRelease(t, id, i, requester);
    } else {
      var p := Released(t.peers[id], LeaseKey(requester, i));
      if failed && id != t.uuid {
        var dropped := DropOwner(t, i, id);
        DroppedOwnership(t, id, i);
        ReleasedLeases(dropped, id, i, requester, Punished(p, now));
        SameOwnership(dropped, SetPeer(dropped, id, Punished(p, now)));
        SameLeases(t, dropped);
      } else {
        var q := if failed then Punished(p, now) else Credited(p, speed);
        ReleasedLeases(t, id, i, requester, q);
        SameOwnership(t, SetPeer(t, id, q));
      }
    }
  }

  lemma SameLeases(t: Tracker, u: Tracker)
    requires u.peers == t.peers
    ensures Leases(u) == Leases(t)
  {
    assert forall l :: HasLease(u, l) <==> HasLease(t, l);
  }

  lemma WantView(t: Tracker, best: string, req: Want, now: Time, leaseAt: Time)
    ensures
      var u := Lease(Expire(t, now), best, req.index, req.uuid, leaseAt);
      && u.peers.Keys == t.peers.Keys + {best}
      && Leases(u) == Unexpired(Leases(t), now)[(best, req.uuid, req.index) := leaseAt + LEASE_TTL]
      && Ownership(u) == Ownership(t)
  {
    ExpiredLeases(t, now);
    LeasedLeases(Expire(t, now), best, req.index, req.uuid, leaseAt);
    SameOwnership(t, Lease(Expire(t, now), best, req.index, req.uuid, leaseAt));
  }

  lemma ReleaseView(t: Tracker, id: string, i: int, requester: string)
    ensures
      var u := Release(t, id, i, requester);
      && u.peers.Keys == t.peers.Keys
      && Leases(u) == WithoutLease(Leases(t), (id, requester, i))
      && Ownership(u) == Ownership(t)
  {
    SameOwnership(t, Release(t, id, i, requester));
    if id in t.peers {
      ReleasedLeases(t, id, i, requester, Released(t.peers[id], LeaseKey(requester, i)));
    } else {
      NoLeaseToRelease(t, id, i, requester);
    }
  }

  lemma RemovePeerView(t: Tracker, id: string)
    requires Inv(t)
    ensures
      var u := RemovePeer(t, id);
      && u.peers.Keys == t.peers.Keys - {id}
      && Leases(u) == WithoutProvider(Leases(t), id)
      && Ownership(u) == if id == t.uuid then WithoutPairs(Ownership(t), id, ChunksOf(t, id))
                         else WithoutPeer(Ownership(t), id)
  {
    if id == t.uuid {
      RemovedReports(t, id);
    } else {
      RemovedOwnership(t, id);
    }
    RemovedLeases(t, RemovePeer(t, id), id);
  }

  lemma BeSendMainView(t: Tracker, n: nat)
    ensures
      var u := BeSendMain(t, n);
      && u.peers.Keys == t.peers.Keys + {t.uuid}
      && Leases(u) == WithoutProvider(Leases(t), t.uuid)
      && Ownership(u) == WithFile(Ownership(t), t.uuid, n)
  {
    PreparedOwnership(t, n);
    BeSendMainLeases(t, n);
  }

  lemma BeSendMainLeases(t: Tracker, n: nat)
    ensures Leases(BeSendMain(t, n)) == WithoutProvider(Leases(t), t.uuid)
  {
    hide AddCentral;
    RemovedLeases(t, BeSendMain(t, n), t.uuid);
  }

  lemma AddPeerView(t: Tracker, id: string, addr: string, conn: Option<nat>)
    ensures View(AddPeer(t, id, addr, conn)) == View(t).(registered := t.peers.Keys + {id})
  {
    hide Leases, Ownership;
    var u := AddPeer(t, id, addr, conn);
    SetPeerLeases(t, id, u.peers[id]);
    SameOwnership(t, u);
  }

  lemma SetZoneView(t: Tracker, id: string, zone: string)
    ensures View(SetPeerZone(t, id, zone)) == View(t)
  {
    SameOwnership(t, SetPeerZone(t, id, zone));
    if id in t.peers {
      SetPeerLeases(t, id, t.peers[id].(zone := zone));
    }
  }

  lemma ReportChunkView(t: Tracker, i: int, id: string)
    ensures
      View(AddBlockOwner(t, i, id)) ==
      if t.chunkNum.Some? && 0 <= i < t.chunkNum.value && id in t.peers
      then View(t).(owns := Ownership(t) + iset{(id, i)})
      else View(t)
  {
    SameLeases(t, AddBlockOwner(t, i, id));
    if t.chunkNum.Some? && 0 <= i < t.chunkNum.value && id in t.peers {
      ReportedOwnership(t, i, id);
    }
  }

  lemma ExpireView(t: Tracker, now: Time)
    ensures View(Expire(t, now)) == View(t).(leases := Unexpired(Leases(t), now))
  {
    ExpiredLeases(t, now);
    SameOwnership(t, Expire(t, now));
  }

  lemma MarkSenderView(t: Tracker)
    ensures View(MarkSender(t)) == View(t).(registered := t.peers.Keys + {t.uuid})
  {
    SameOwnership(t, MarkSender(t));
    if t.uuid !in t.peers {
      SetPeerLeases(t, t.uuid, NO_PEER);
    }
  }

  lemma SetProviderView(t: Tracker, n: Option<nat>)
    ensures View(SetProvider(t, n)) == View(t)
  {
  }

  lemma AddChunkView(t: Tracker, i: int, checksum: int)
    ensures View(AddChunk(t, i, checksum)) == View(t)
  {
    SameLeases(t, AddChunk(t, i, checksum));
    SameOwnership(t, AddChunk(t, i, checksum));
  }

  lemma ClearContentView(t: Tracker)
    ensures View(ClearContent(t)) == View(t).(owns := iset{}, leases := imap[])
  {
  }

  // ----- The refinement -----

  /** The source that a want is given. */
  ghost function BestFor(t: Tracker, op: Op, halving: Halving): string {
    if op.OpWant? then Ranked(Expire(t, op.now), op.req, op.now, op.connZone, halving)[0].uuid else ""
  }

  /** Every operation does to the maps and counters what it means in the simple picture. */
  lemma Refines(t: Tracker, op: Op, halving: Halving)
    requires Inv(t)
    ensures View(Apply(t, op, halving)) == Meaning(View(t), t, op, BestFor(t, op, halving))
  {
    hide Leases, Ownership, Unexpired, WithoutLease, WithoutProvider, WithoutPeer, WithoutPairs, WithFile, Ranked, Inv;
    hide AddPeer, RemovePeer, SetPeerZone, AddBlockOwner, UpdatePeer, Release, Lease, Expire, BeSendMain, MarkSender,
      SetProvider, AddChunk, ClearContent;
    match op
    case OpAddPeer(id, addr, conn) => AddPeerView(t, id, addr, conn);
    case OpRemovePeer(id) => RemovePeerView(t, id);
    case OpSetZone(id, zone) => SetZoneView(t, id, zone);
    case OpReportChunk(i, id) => ReportChunkView(t, i, id);
    case OpReportPeer(id, speed, failed, i, requester, now) => ReportPeerView(t, id, speed, failed, i, requester, now);
    case OpWant(req, now, leaseAt, _) => WantView(t, BestFor(t, op, halving), req, now, leaseAt);
    case OpSendFailed(id, i, requester) => ReleaseView(t, id, i, requester);
    case OpExpire(now) => ExpireView(t, now);
    case OpBeSendMain(n) => BeSendMainView(t, n);
    case OpMarkSender => MarkSenderView(t);
    case OpSetProvider(n) => SetProviderView(t, n);
    case OpAddChunk(i, checksum) => AddChunkView(t, i, checksum);
    case OpClearContent => ClearContentView(t);
  }
}
