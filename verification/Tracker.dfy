/** The tracker's session: the maps of TrackerState, updated in place.  The iteration order over
    a map is arbitrary, and nothing below depends on it. */
module Tracker {
  import opened Integers
  import opened Outcomes
  import opened LeaseKeys
  import opened Ranking
  import opened TrackerState
  import opened TrackerSafety
  import opened Coordinator
  import Spec = TrackerState

  datatype Source = Source(addr: string, uuid: string)

  datatype WantResponse = WantResponse(index: int, addr: string, uuid: string, checksum: int, sources: seq<Source>)

  datatype PeerInfo = PeerInfo(
    uuid: string, addr: string, chunks: nat, total: nat, speed: real, inflight: nat, failed: nat,
    self: bool, online: bool)

  datatype ZoneInfo = ZoneInfo(owned: set<int>, bestUuid: string, bestOwned: nat)

  function SourcesOf(ranking: seq<Candidate>): seq<Source> {
    seq(|ranking|, i requires 0 <= i < |ranking| => Source(ranking[i].addr, ranking[i].uuid))
  }

  /** How many sources a want is answered with. */
  function Answered(want: int, available: nat): int {
    var n := if want <= 0 then 1 else want;
    var m := if n < MAX_SOURCES_PER_WANT then n else MAX_SOURCES_PER_WANT;
    if m < available then m else available
  }

  class Session {
    const uuid: string
    const halving: Halving
    /** The zone that an address suggests. */
    const zoneOfAddr: string -> string
    var peers: map<string, Peer>
    var chunkOwners: map<int, set<string>>
    var peerOwners: map<string, set<int>>
    var chunkNum: Option<nat>
    var isMain: bool
    var chunkHash: map<int, int>

    ghost function State(): Spec.Tracker
      reads this
    {
      Spec.Tracker(uuid, peers, chunkOwners, peerOwners, chunkNum, isMain, chunkHash)
    }

    constructor (uuid: string, halving: Halving, zoneOfAddr: string -> string)
      ensures State() == New(uuid) && this.halving == halving && this.zoneOfAddr == zoneOfAddr
    {
      this.uuid, this.halving, this.zoneOfAddr := uuid, halving, zoneOfAddr;
      peers, chunkOwners, peerOwners, chunkNum, isMain, chunkHash := map[], map[], map[], None, false, map[];
    }

    // ----- Registration and ownership -----

    method AddPeer(id: string, addr: string, conn: Option<nat>)
      modifies `peers
      ensures State() == Spec.AddPeer(old(State()), id, addr, conn)
    {
      if id in peers {
        peers := peers[id := peers[id].(addr := addr, conn := conn)];
        return;
      }
      peers := peers[id := NO_PEER.(addr := addr, conn := conn)];
    }

    method RemovePeer(id: string)
      modifies `peers, `chunkOwners, `peerOwners
      ensures State() == Spec.RemovePeer(old(State()), id)
    {
      if id in peerOwners {
        var todo := peerOwners[id];
        ghost var gone: set<int> := {};
        while todo != {}
          invariant gone + todo == old(peerOwners)[id]
          invariant chunkOwners == WithoutOwner(old(chunkOwners), id, gone)
          invariant peers == old(peers) && peerOwners == old(peerOwners)
          decreases |todo|
        {
          NonEmpty(todo);
          var i :| i in todo;
          WithoutOwnerNext(old(chunkOwners), id, gone, i);
          if i in chunkOwners && id in chunkOwners[i] {
            chunkOwners := chunkOwners[i := chunkOwners[i] - {id}];
          }
          todo, gone := todo - {i}, gone + {i};
        }
        assert gone == ChunksOf(old(State()), id);
      }
      WithoutOwnerNone(old(chunkOwners), id);
      peerOwners := peerOwners - {id};
      peers := peers - {id};
    }

    method AddBlockOwner(i: int, id: string)
      modifies `chunkOwners, `peerOwners
      ensures State() == Spec.AddBlockOwner(old(State()), i, id)
    {
      if chunkNum.None? || i < 0 || i >= chunkNum.value || id !in peers {
        return;
      }
      if i !in chunkOwners {
        chunkOwners := chunkOwners[i := {}];
      }
      if id !in peerOwners {
        peerOwners := peerOwners[id := {}];
      }
      peerOwners := peerOwners[id := peerOwners[id] + {i}];
      chunkOwners := chunkOwners[i := chunkOwners[i] + {id}];
      assert peerOwners == old(peerOwners)[id := ChunksOf(old(State()), id) + {i}];
      assert chunkOwners == old(chunkOwners)[i := OwnersOf(old(State()), i) + {id}];
    }

    /** The stated zone, or else the one that the peer's address suggests. */
    method SetPeerZone(id: string, explicit: string)
      modifies `peers
      ensures State() == Spec.SetPeerZone(old(State()), id,
                                          if explicit != "" || id !in old(peers) then explicit
                                          else zoneOfAddr(old(peers)[id].addr))
    {
      if id in peers {
        var zone := if explicit != "" then explicit else zoneOfAddr(peers[id].addr);
        peers := peers[id := peers[id].(zone := zone)];
      }
    }

    // ----- Leases -----

    method Lease(id: string, index: int, requester: string, now: Time)
      modifies `peers
      ensures State() == Spec.Lease(old(State()), id, index, requester, now)
    {
      if id !in peers {
        peers := peers[id := NO_PEER];
      }
      var p, key := peers[id], LeaseKey(requester, index);
      if key !in p.leases {
        p := p.(connNum := p.connNum + 1);
      }
      peers := peers[id := p.(leases := p.leases[key := now + LEASE_TTL])];
    }

    method Release(id: string, index: int, requester: string)
      modifies `peers
      ensures State() == Spec.Release(old(State()), id, index, requester)
    {
      var key := LeaseKey(requester, index);
      if id !in peers || key !in peers[id].leases {
        return;
      }
      var p := peers[id].(leases := peers[id].leases - {key});
      if p.connNum > 0 {
        p := p.(connNum := p.connNum - 1);
      }
      peers := peers[id := p];
    }

    /** Drops one peer's expired leases, one at a time. */
    method ExpirePeer(p: Peer, now: Time) returns (q: Peer)
      ensures q == Expired(p, now)
    {
      q := p;
      var todo := p.leases.Keys;
      ghost var gone: set<string> := {};
      ExpiredKeysNone(p, now);
      hide ExpiredKeys, WithoutLeases, Expired;
      while todo != {}
        invariant todo <= p.leases.Keys
        invariant gone == ExpiredKeys(p, now) - todo
        invariant q == WithoutLeases(p, gone)
        decreases |todo|
      {
        var key :| key in todo;
        ExpiredKeysNext(p, now, todo, key);
        if now > p.leases[key] {
          WithoutLeasesNext(p, gone, key);
          q := q.(leases := q.leases - {key});
          if q.connNum > 0 {
            q := q.(connNum := q.connNum - 1);
          }
          gone := gone + {key};
        }
        todo := todo - {key};
      }
    }

    method ExpireLeases(now: Time)
      modifies `peers
      ensures State() == Spec.Expire(old(State()), now)
    {
      hide Expired;
      var todo := peers.Keys;
      while todo != {}
        invariant todo <= peers.Keys == old(peers).Keys
        invariant forall id :: id in peers ==>
                                 peers[id] == if id in todo then old(peers)[id] else Expired(old(peers)[id], now)
        decreases |todo|
      {
        var id :| id in todo;
        var p := ExpirePeer(peers[id], now);
        peers := peers[id := p];
        todo := todo - {id};
      }
    }

    // ----- Reports -----

    method UpdatePeer(id: string, speed: int, failed: bool, index: int, requester: string, now: Time)
      modifies `peers, `chunkOwners, `peerOwners
      ensures State() == Spec.UpdatePeer(old(State()), id, speed, failed, index, requester, now)
    {
      if id !in peers {
        return;
      }
      ReportSteps(State(), id, speed, failed, index, requester, now);
      Release(id, index, requester);
      ghost var released := State();
      var p := peers[id];
      hide Spec.UpdatePeer, Spec.Release, WithoutOwner, Pow2;
      if failed {
        if id != uuid {
          WithoutOwnerOne(chunkOwners, id, index);
          if index in chunkOwners {
            chunkOwners := chunkOwners[index := chunkOwners[index] - {id}];
          }
          if id in peerOwners {
            peerOwners := peerOwners[id := peerOwners[id] - {index}];
          }
        }
        assert State() == if id != uuid then DropOwner(released, index, id) else released;
        p := p.(failStreak := p.failStreak + 1, lastFailure := Some(now));
        var backoff := Pow2(if p.failStreak < 4 then p.failStreak else 4) * SECOND;
        p := p.(cooldownTil := now + backoff, speed := p.speed * 0.5);
        peers := peers[id := p];
        return;
      }
      p := p.(failStreak := 0, cooldownTil := 0);
      if p.speed <= 0.0 {
        peers := peers[id := p.(speed := speed as real)];
        return;
      }
      peers := peers[id := p.(speed := p.speed * 0.7 + speed as real * 0.3)];
    }

    // ----- The source -----

    /** Refuses a source that is not a regular file. */
    method BeSendMain(nums: nat, regular: bool) returns (ok: bool)
      modifies `peers, `chunkOwners, `chunkNum, `isMain
      ensures ok == regular
      ensures State() == if ok then Spec.BeSendMain(old(State()), nums) else old(State())
    {
      if !regular {
        return false;
      }
      chunkNum, isMain := Some(nums), true;
      peers := peers[uuid := NO_PEER];
      var i := 0;
      while i < nums
        invariant 0 <= i <= nums
        invariant chunkOwners == AddCentral(old(chunkOwners), uuid, i)
        invariant peers == old(peers)[uuid := NO_PEER] && chunkNum == Some(nums) && isMain
      {
        ghost var before := chunkOwners;
        if i !in chunkOwners {
          chunkOwners := chunkOwners[i := {}];
        }
        chunkOwners := chunkOwners[i := chunkOwners[i] + {uuid}];
        assert chunkOwners == AddOwner(before, i, uuid);
        i := i + 1;
      }
      ok := true;
    }

    method MarkSender()
      modifies `peers, `isMain
      ensures State() == Spec.MarkSender(old(State()))
    {
      isMain := true;
      if uuid !in peers {
        peers := peers[uuid := NO_PEER];
      }
    }

    /** A receiver's file replaces whatever was served before. */
    method BeSendSub(nums: nat)
      modifies `chunkNum, `chunkHash
      ensures State() == Spec.SetProvider(old(State()), Some(nums))
    {
      chunkNum, chunkHash := Some(nums), map[];
    }

    method ClearChunks()
      modifies `chunkNum, `chunkHash
      ensures State() == Spec.SetProvider(old(State()), None)
    {
      chunkNum, chunkHash := None, map[];
    }

    method AddChunk(i: int, checksum: int)
      modifies `chunkHash
      ensures State() == Spec.AddChunk(old(State()), i, checksum)
    {
      if i !in chunkHash {
        chunkHash := chunkHash[i := checksum];
      }
    }

    method HasChunk(i: int) returns (ok: bool)
      ensures ok <==> Spec.HasChunk(State(), i)
    {
      if chunkNum.None? || i < 0 || i >= chunkNum.value {
        return false;
      }
      if isMain {
        return true;
      }
      ok := i in chunkHash;
    }

    method ClearContent()
      modifies `peers, `chunkOwners, `peerOwners, `chunkNum, `chunkHash
      ensures State() == Spec.ClearContent(old(State()))
    {
      chunkNum, chunkHash, chunkOwners, peerOwners := None, map[], map[], map[];
      ClearPeers();
    }

    method ClearPeers()
      modifies `peers
      ensures peers == map id | id in old(peers) :: Cleared(old(peers)[id])
    {
      hide Cleared;
      var todo := peers.Keys;
      while todo != {}
        invariant todo <= peers.Keys == old(peers).Keys
        invariant forall id :: id in peers ==>
                                 peers[id] == if id in todo then old(peers)[id] else Cleared(old(peers)[id])
        decreases |todo|
      {
        var id :| id in todo;
        peers := peers[id := Cleared(peers[id])];
        todo := todo - {id};
      }
    }

    // ----- Handing out sources -----

    /** The candidates among the receivers, in the order in which the map yields them. */
    method CollectCandidates(req: Want, now: Time, zone: string) returns (result: seq<Candidate>, localOwners: nat)
      ensures Collected(State(), req, now, zone, halving, {}, result)
      ensures localOwners > 0 <==> HasLocalOwner(State(), req, zone)
    {
      hide Collected, LocalBut, HasLocalOwner, PeerCandidate;
      localOwners, result := 0, [];
      var todo := if req.index in chunkOwners then chunkOwners[req.index] else {};
      ghost var t := State();
      NothingCollected(t, req, now, zone, halving, todo);
      while todo != {}
        invariant todo <= OwnersOf(t, req.index)
        invariant localOwners > 0 <==> LocalBut(t, req, zone, todo)
        invariant Collected(t, req, now, zone, halving, todo, result)
        decreases |todo|
      {
        var id :| id in todo;
        ghost var before, rest := result, todo;
        todo := todo - {id};
        if id != req.uuid && id in peers && id != uuid {
          var p := peers[id];
          if p.zone == zone {
            localOwners := localOwners + 1;
          }
          if now >= p.cooldownTil && p.connNum < MAX_INFLIGHT {
            result := result + [PeerCandidate(id, p, now, zone, halving)];
          }
        }
        LocalNext(t, req, zone, rest, id);
        CollectNext(t, req, now, zone, halving, rest, id, before, result);
      }
      LocalAll(t, req, zone);
    }

    /** The zone of a remote address, if there is a connection. */
    function ZoneOfConn(remote: Option<string>): string {
      if remote.Some? then zoneOfAddr(remote.value) else ""
    }

    /** The candidates for a chunk, best first. */
    method CandidatesLocked(req: Want, now: Time, remote: Option<string>) returns (result: seq<Candidate>)
      modifies `peers
      ensures State() == Spec.Expire(old(State()), now)
      ensures result == Ranked(State(), req, now, ZoneOfConn(remote), halving)
    {
      ExpireLeases(now);
      var zone := req.zone;
      if zone == "" && req.uuid in peers {
        zone := peers[req.uuid].zone;
      }
      if zone == "" && remote.Some? {
        zone := zoneOfAddr(remote.value);
      }
      var localOwners;
      result, localOwners := CollectCandidates(req, now, zone);
      var speed, connections := COLD_START_MBPS, 0;
      if uuid in peers {
        connections := peers[uuid].connNum;
        if peers[uuid].speed > 0.0 {
          speed := peers[uuid].speed;
        }
      }
      var score := ScoreSource(speed, connections, 1.0, 0.0, halving);
      if localOwners == 0 && zone != "" {
        score := score * CENTRAL_SEED_BOOST;
      }
      var central := Candidate(uuid, "", score);
      RankCollected(State(), req, now, ZoneOfConn(remote), halving, result, central);
      result := SortAll(result + [central]);
    }

    /** Answers a want with the best sources and leases the first; the lease is returned when the
        response cannot be sent. */
    method WantRequest(req: Want, now: Time, leaseAt: Time, remote: Option<string>, sent: bool)
      returns (resp: WantResponse)
      modifies `peers
      ensures
        var connZone := ZoneOfConn(remote);
        var ranking := Ranked(Spec.Expire(old(State()), now), req, now, connZone, halving);
        && resp.index == req.index
        && resp.uuid == ranking[0].uuid && resp.addr == ranking[0].addr
        && resp.checksum == (if req.index in chunkHash then chunkHash[req.index] else 0)
        && BestFirst(ranking)
        && var n := if req.want < 1 then 1 else req.want;
        && |resp.sources| <= n && |resp.sources| <= 3 && |resp.sources| <= |ranking|
        && |resp.sources| in {n, 3, |ranking|}
        && (forall k :: 0 <= k < |resp.sources| ==>
              resp.sources[k].addr == ranking[k].addr && resp.sources[k].uuid == ranking[k].uuid)
        && State() == if sent then WantLease(old(State()), req, now, leaseAt, connZone, halving)
                      else Spec.Release(WantLease(old(State()), req, now, leaseAt, connZone, halving),
                                        ranking[0].uuid, req.index, req.uuid)
    {
      var candidates := CandidatesLocked(req, now, remote);
      SortedIsBestFirst(candidates);
      var n := Answered(req.want, |candidates|);
      var sources := SourcesOf(candidates[..n]);
      var first := candidates[0];
      Lease(first.uuid, req.index, req.uuid, leaseAt);
      var checksum := if req.index in chunkHash then chunkHash[req.index] else 0;
      resp := WantResponse(req.index, first.addr, first.uuid, checksum, sources);
      if !sent {
        Release(first.uuid, req.index, req.uuid);
      }
    }

    // ----- The snapshot -----

    method Snapshot() returns (out: seq<PeerInfo>)
      requires Inv(State())
      ensures |out| == |peers|
      ensures forall id :: id in peers ==> Listed(out, id)
      ensures forall k :: 0 <= k < |out| ==> InfoOk(State(), out[k])
    {
      out := [];
      var todo := peers.Keys;
      while todo != {}
        invariant todo <= peers.Keys && |out| + |todo| == |peers.Keys|
        invariant forall id :: id in peers ==> id in todo || Listed(out, id)
        invariant forall k :: 0 <= k < |out| ==> InfoOk(State(), out[k])
        decreases |todo|
      {
        var id :| id in todo;
        var chunks := 0;
        if id in peerOwners {
          chunks := |peerOwners[id]|;
          ChunksAreKeys(State(), id);
        } else if id == uuid {
          chunks := |chunkOwners|;
        }
        var p := peers[id];
        var info := PeerInfo(id, p.addr, chunks, |chunkOwners|, p.speed, p.connNum, p.failStreak,
                             id == uuid, id == uuid || p.conn.Some?);
        ListedNext(out, info);
        out := out + [info];
        todo := todo - {id};
      }
    }

    // ----- The coordinator -----

    /** One scan over the peers: per zone, what is owned there and who owns most. */
    method ScanZones() returns (zones: map<string, ZoneInfo>)
      requires "" !in peers
      ensures forall z :: z in zones ==>
                z != "" && zones[z].bestUuid != "" && BestStocked(State(), z, zones[z].bestUuid)
      ensures forall id, z :: z != "" && Member(State(), id, z) ==> z in zones
      ensures forall z, c :: z in zones ==> (c in zones[z].owned <==> OwnedInZone(State(), z, c))
    {
      zones := map[];
      var todo := peers.Keys;
      ghost var t := State();
      while todo != {}
        invariant todo <= peers.Keys
        invariant Scanned(t, todo, zones)
        decreases |todo|
      {
        var id :| id in todo;
        ghost var before, rest := zones, todo;
        todo := todo - {id};
        var p := peers[id];
        if id != uuid && p.zone != "" {
          var zi := if p.zone in zones then zones[p.zone] else ZoneInfo({}, "", 0);
          var owned := if id in peerOwners then peerOwners[id] else {};
          zi := zi.(owned := zi.owned + owned);
          if zi.bestUuid == "" || |owned| > zi.bestOwned {
            zi := zi.(bestUuid := id, bestOwned := |owned|);
          }
          zones := zones[p.zone := zi];
        }
        ScanNext(t, rest, id, before, zones);
      }
      ScanDone(t, zones);
    }

    /** The prefetch commands of one zone. */
    method PrefetchZone(zi: ZoneInfo, total: nat) returns (cmds: seq<Command>)
      ensures cmds == ZonePlan(zi, total)
    {
      hide PlanFrom;
      cmds := [];
      var sent, c := 0, 0;
      while c < total && sent < MAX_PREFETCH
        invariant 0 <= c <= total && sent == |cmds| <= MAX_PREFETCH
        invariant ZonePlan(zi, total) == cmds + PlanFrom(zi, c, total, MAX_PREFETCH - sent)
        decreases total - c
      {
        PlanStep(zi, c, total, MAX_PREFETCH - sent);
        if c !in zi.owned {
          cmds := cmds + [Prefetch(zi.bestUuid, c)];
          sent := sent + 1;
        }
        c := c + 1;
      }
      PlanEnds(zi, c, total, MAX_PREFETCH - sent);
    }

    /** The prefetch commands of all zones. */
    method PrefetchZones(zones: map<string, ZoneInfo>, total: nat) returns (cmds: seq<Command>)
      requires forall z :: z in zones ==> z != "" && zones[z].bestUuid != "" && Member(State(), zones[z].bestUuid, z)
      ensures forall k :: 0 <= k < |cmds| ==> GoodCommand(State(), cmds[k])
      ensures forall z :: z in zones ==> ForZone(State(), cmds, z) == ZonePlan(zones[z], total)
    {
      cmds := [];
      var todo := zones.Keys;
      ghost var t := State();
      while todo != {}
        invariant todo <= zones.Keys
        invariant Planned(t, zones, total, todo, cmds)
        decreases |todo|
      {
        var zone :| zone in todo;
        PlanNext(t, zones, total, todo, zone, cmds);
        todo := todo - {zone};
        if zones[zone].bestUuid != "" {
          var more := PrefetchZone(zones[zone], total);
          cmds := cmds + more;
        }
      }
    }

    /** Slow sources with many leases are told to back off: there never are any. */
    method BackoffCommands(until: Time) returns (cmds: seq<Command>)
      requires Inv(State())
      ensures cmds == []
    {
      cmds := [];
      var todo := peers.Keys;
      while todo != {}
        invariant todo <= peers.Keys && cmds == []
        decreases |todo|
      {
        var id :| id in todo;
        todo := todo - {id};
        assert PeerOk(State(), id);
        if id != uuid && NeedsBackoff(peers[id]) {
          cmds := cmds + [Backoff(id, until)];
        }
      }
    }

    method CoordinateOnce(until: Time) returns (cmds: seq<Command>)
      requires Inv(State()) && "" !in peers
      ensures chunkNum.None? || chunkNum.value == 0 ==> cmds == []
      ensures chunkNum.Some? && chunkNum.value > 0 ==> Round(State(), cmds, chunkNum.value)
    {
      if chunkNum.None? {
        return [];
      }
      var total := chunkNum.value;
      if total <= 0 {
        return [];
      }
      var zones := ScanZones();
      cmds := PrefetchZones(zones, total);
      AllServed(State(), cmds, total, zones);
      var backoffs := BackoffCommands(until);
      assert cmds + backoffs == cmds;
      cmds := cmds + backoffs;
    }
  }

  // ----- Lemmas for the loops -----

  lemma NonEmpty(s: set<int>)
    ensures s == {} || exists i :: i in s
  {
    if !exists i :: i in s {
      assert s == {};
    }
  }

  /** A report is a release, then the removal of the owner or not, then a new peer entry. */
  lemma ReportSteps(t: Spec.Tracker, id: string, speed: int, failed: bool, i: int, requester: string, now: Time)
    requires id in t.peers
    ensures
      var released := Spec.Release(t, id, i, requester);
      && id in released.peers && released.uuid == t.uuid
      && Spec.UpdatePeer(t, id, speed, failed, i, requester, now)
      == SetPeer(if failed && id != t.uuid then DropOwner(released, i, id) else released, id,
                 if failed then Punished(released.peers[id], now) else Credited(released.peers[id], speed))
  {
  }

  lemma WithoutOwnerNone(owners: map<int, set<string>>, id: string)
    ensures WithoutOwner(owners, id, {}) == owners
  {
  }

  lemma WithoutOwnerOne(owners: map<int, set<string>>, id: string, i: int)
    ensures WithoutOwner(owners, id, {i}) == if i in owners then owners[i := owners[i] - {id}] else owners
  {
  }

  lemma WithoutOwnerNext(owners: map<int, set<string>>, id: string, gone: set<int>, i: int)
    ensures
      var before, after := WithoutOwner(owners, id, gone), WithoutOwner(owners, id, gone + {i});
      after == if i in before && id in before[i] then before[i := before[i] - {id}] else before
  {
    var before, after := WithoutOwner(owners, id, gone), WithoutOwner(owners, id, gone + {i});
    forall k ensures k in after <==> k in before {
    }
    forall k | k in after ensures after[k] == if k == i then before[k] - {id} else before[k] {
    }
    if i in before && id in before[i] {
      assert after == before[i := before[i] - {id}];
    } else {
      assert i in before ==> before[i] - {id} == before[i];
      assert after == before;
    }
  }

  function WithoutLeases(p: Peer, gone: set<string>): Peer {
    p.(leases := p.leases - gone, connNum := if p.connNum > |gone| then p.connNum - |gone| else 0)
  }

  lemma ExpiredKeysNone(p: Peer, now: Time)
    ensures ExpiredKeys(p, now) - p.leases.Keys == {} && WithoutLeases(p, {}) == p
    ensures WithoutLeases(p, ExpiredKeys(p, now) - {}) == Expired(p, now)
  {
  }

  lemma ExpiredKeysNext(p: Peer, now: Time, todo: set<string>, key: string)
    requires key in todo && todo <= p.leases.Keys
    ensures key !in ExpiredKeys(p, now) - todo
    ensures ExpiredKeys(p, now) - (todo - {key})
         == ExpiredKeys(p, now) - todo + if now > p.leases[key] then {key} else {}
  {
  }

  lemma WithoutLeasesNext(p: Peer, gone: set<string>, key: string)
    requires key !in gone
    ensures
      var q := WithoutLeases(p, gone);
      WithoutLeases(p, gone + {key})
      == q.(leases := q.leases - {key}, connNum := if q.connNum > 0 then q.connNum - 1 else 0)
  {
    assert p.leases - (gone + {key}) == (p.leases - gone) - {key};
  }

  /** `result` lists the candidates among the owners that are no longer in `todo`. */
  ghost predicate Collected(t: Spec.Tracker, req: Want, now: Time, zone: string, halving: Halving,
      todo: set<string>, result: seq<Candidate>) {
    && (forall i, j :: 0 <= i < j < |result| ==> result[i].uuid != result[j].uuid)
    && (forall k :: 0 <= k < |result| ==>
          && Eligible(t, req, result[k].uuid, now) && result[k].uuid !in todo
          && result[k] == PeerCandidate(result[k].uuid, t.peers[result[k].uuid], now, zone, halving))
    && (forall id :: Eligible(t, req, id, now) && id !in todo ==>
          PeerCandidate(id, t.peers[id], now, zone, halving) in result)
  }

  lemma CollectNext(t: Spec.Tracker, req: Want, now: Time, zone: string, halving: Halving,
                    todo: set<string>, id: string, before: seq<Candidate>, after: seq<Candidate>)
    requires Collected(t, req, now, zone, halving, todo, before) && id in todo && todo <= OwnersOf(t, req.index)
    requires after == if Eligible(t, req, id, now)
                      then before + [PeerCandidate(id, t.peers[id], now, zone, halving)]
                      else before
    ensures Collected(t, req, now, zone, halving, todo - {id}, after)
  {
  }

  /** Sorting what was collected gives the one ranking, in whatever order it was collected. */
  lemma RankCollected(t: Spec.Tracker, req: Want, now: Time, connZone: string, halving: Halving,
      result: seq<Candidate>, central: Candidate)
    requires Collected(t, req, now, ZoneFor(t, req, connZone), halving, {}, result)
    requires
      var zone := ZoneFor(t, req, connZone);
      central == CentralCandidate(t, zone, HasLocalOwner(t, req, zone), halving)
    ensures SortAll(result + [central]) == Ranked(t, req, now, connZone, halving)
  {
    var zone := ZoneFor(t, req, connZone);
    var all := Candidates(t, req, now, connZone, halving);
    CollectedAll(t, req, now, zone, halving, result, central);
    SortAllRanks(result + [central]);
    hide Collected, PeerCandidates;
    RankingUnique(SortAll(result + [central]), Ranked(t, req, now, connZone, halving), all);
  }

  lemma CollectedAll(t: Spec.Tracker, req: Want, now: Time, zone: string, halving: Halving, result: seq<Candidate>,
      central: Candidate)
    requires Collected(t, req, now, zone, halving, {}, result) && central.uuid == t.uuid
    ensures (set x | x in result + [central]) == PeerCandidates(t, req, now, zone, halving) + {central}
    ensures forall i, j :: 0 <= i < j < |result + [central]| ==>
                             (result + [central])[i].uuid != (result + [central])[j].uuid
  {
  }

  ghost predicate LocalOwner(t: Spec.Tracker, req: Want, zone: string, id: string) {
    OtherOwner(t, req, id) && t.peers[id].zone == zone
  }

  /** There is a local owner that is no longer in `todo`. */
  ghost predicate LocalBut(t: Spec.Tracker, req: Want, zone: string, todo: set<string>) {
    exists id :: LocalOwner(t, req, zone, id) && id !in todo
  }

  lemma LocalNext(t: Spec.Tracker, req: Want, zone: string, todo: set<string>, id: string)
    requires id in todo
    ensures LocalBut(t, req, zone, todo - {id}) <==> LocalBut(t, req, zone, todo) || LocalOwner(t, req, zone, id)
  {
    hide LocalOwner;
    if LocalBut(t, req, zone, todo) {
      var other :| LocalOwner(t, req, zone, other) && other !in todo;
      assert other !in todo - {id};
    }
    if LocalOwner(t, req, zone, id) {
      assert id !in todo - {id};
    }
  }

  lemma LocalAll(t: Spec.Tracker, req: Want, zone: string)
    ensures LocalBut(t, req, zone, {}) <==> HasLocalOwner(t, req, zone)
  {
    if LocalBut(t, req, zone, {}) {
      var id :| LocalOwner(t, req, zone, id);
      assert OtherOwner(t, req, id);
    }
    if HasLocalOwner(t, req, zone) {
      var id :| OtherOwner(t, req, id) && t.peers[id].zone == zone;
      assert LocalOwner(t, req, zone, id);
    }
  }

  lemma NothingCollected(t: Spec.Tracker, req: Want, now: Time, zone: string, halving: Halving, todo: set<string>)
    requires todo == OwnersOf(t, req.index)
    ensures Collected(t, req, now, zone, halving, todo, []) && !LocalBut(t, req, zone, todo)
  {
  }

  /** A snapshot entry: the peer's own count, never above the total. */
  ghost predicate InfoOk(t: Spec.Tracker, info: PeerInfo) {
    && info.uuid in t.peers
    && var p := t.peers[info.uuid];
    && info.addr == p.addr && info.speed == p.speed && info.inflight == p.connNum && info.failed == p.failStreak
    && (info.self <==> info.uuid == t.uuid) && (info.online <==> info.self || p.conn.Some?)
    && info.total == |t.chunkOwners| && info.chunks <= info.total
    && info.chunks == (if info.uuid in t.peerOwners then |t.peerOwners[info.uuid]|
                       else if info.uuid == t.uuid then |t.chunkOwners| else 0)
  }

  ghost predicate Listed(out: seq<PeerInfo>, id: string) {
    exists k :: 0 <= k < |out| && out[k].uuid == id
  }

  lemma ListedNext(out: seq<PeerInfo>, info: PeerInfo)
    ensures Listed(out + [info], info.uuid)
    ensures forall id :: Listed(out, id) ==> Listed(out + [info], id)
  {
    assert (out + [info])[|out|] == info;
    forall id | Listed(out, id) ensures Listed(out + [info], id) {
      var k :| 0 <= k < |out| && out[k].uuid == id;
      assert (out + [info])[k].uuid == id;
    }
  }

  lemma ChunksAreKeys(t: Spec.Tracker, id: string)
    requires Inv(t) && id in t.peerOwners
    ensures |t.peerOwners[id]| <= |t.chunkOwners|
  {
    forall i | i in ChunksOf(t, id) ensures i in t.chunkOwners.Keys {
      assert PairOk(t, id, i);
    }
    SubsetSize(ChunksOf(t, id), t.chunkOwners.Keys);
  }

  ghost predicate SeenMember(t: Spec.Tracker, todo: set<string>, id: string, zone: string) {
    Member(t, id, zone) && id !in todo
  }

  ghost predicate ZoneScanned(t: Spec.Tracker, todo: set<string>, zone: string, zi: ZoneInfo) {
    && SeenMember(t, todo, zi.bestUuid, zone) && zi.bestOwned == |ChunksOf(t, zi.bestUuid)|
    && (forall m :: SeenMember(t, todo, m, zone) ==> |ChunksOf(t, m)| <= zi.bestOwned)
    && (forall m, c :: SeenMember(t, todo, m, zone) && c in ChunksOf(t, m) ==> c in zi.owned)
    && (forall c :: c in zi.owned ==> exists m :: SeenMember(t, todo, m, zone) && c in ChunksOf(t, m))
  }

  ghost predicate Scanned(t: Spec.Tracker, todo: set<string>, zones: map<string, ZoneInfo>) {
    && (forall z, m :: SeenMember(t, todo, m, z) && z != "" ==> z in zones)
    && (forall z :: z in zones ==> z != "" && ZoneScanned(t, todo, z, zones[z]))
  }

  lemma ScanNext(t: Spec.Tracker, todo: set<string>, id: string,
                 before: map<string, ZoneInfo>, after: map<string, ZoneInfo>)
    requires Scanned(t, todo, before) && "" !in t.peers && id in todo && id in t.peers
    requires
      if id != t.uuid && t.peers[id].zone != "" then
        var zone := t.peers[id].zone;
        var zi := if zone in before then before[zone] else ZoneInfo({}, "", 0);
        var owned := ChunksOf(t, id);
        after == before[zone := if zi.bestUuid == "" || |owned| > zi.bestOwned
                                then ZoneInfo(zi.owned + owned, id, |owned|)
                                else zi.(owned := zi.owned + owned)]
      else after == before
    ensures Scanned(t, todo - {id}, after)
  {
    var rest := todo - {id};
    forall z, m | SeenMember(t, rest, m, z) && z != "" ensures z in after {
      assert m == id || SeenMember(t, todo, m, z);
    }
    forall z | z in after ensures z != "" && ZoneScanned(t, rest, z, after[z]) {
      if Member(t, id, z) {
        forall c | c in after[z].owned ensures exists m :: SeenMember(t, rest, m, z) && c in ChunksOf(t, m) {
          if c in ChunksOf(t, id) {
            assert SeenMember(t, rest, id, z);
          } else {
            var m :| SeenMember(t, todo, m, z) && c in ChunksOf(t, m);
            assert SeenMember(t, rest, m, z);
          }
        }
        forall m | SeenMember(t, rest, m, z) ensures m == id || SeenMember(t, todo, m, z) {
        }
      } else {
        assert ZoneScanned(t, todo, z, before[z]);
        forall m ensures SeenMember(t, rest, m, z) <==> SeenMember(t, todo, m, z) {
        }
      }
    }
  }

  lemma ScanDone(t: Spec.Tracker, zones: map<string, ZoneInfo>)
    requires Scanned(t, {}, zones)
    ensures forall z :: z in zones ==> z != "" && BestStocked(t, z, zones[z].bestUuid)
    ensures forall id, z :: z != "" && Member(t, id, z) ==> z in zones
    ensures forall z, c :: z in zones ==> (c in zones[z].owned <==> OwnedInZone(t, z, c))
  {
    assert forall id, z :: SeenMember(t, {}, id, z) <==> Member(t, id, z);
  }

  function PlanFrom(zi: ZoneInfo, c: int, total: nat, k: nat): seq<Command> {
    Prefetches(zi.bestUuid, FirstMissing(zi.owned, c, total, k))
  }

  function ZonePlan(zi: ZoneInfo, total: nat): seq<Command> {
    PlanFrom(zi, 0, total, MAX_PREFETCH)
  }

  lemma PlanStep(zi: ZoneInfo, c: int, total: nat, k: nat)
    requires c < total && k > 0
    ensures PlanFrom(zi, c, total, k)
         == if c in zi.owned then PlanFrom(zi, c + 1, total, k)
            else [Prefetch(zi.bestUuid, c)] + PlanFrom(zi, c + 1, total, k - 1)
  {
  }

  lemma PlanEnds(zi: ZoneInfo, c: int, total: nat, k: nat)
    requires c >= total || k == 0
    ensures PlanFrom(zi, c, total, k) == []
  {
  }

  lemma AllServed(t: Spec.Tracker, cmds: seq<Command>, total: nat, zones: map<string, ZoneInfo>)
    requires forall k :: 0 <= k < |cmds| ==> GoodCommand(t, cmds[k])
    requires forall z :: z in zones ==> BestStocked(t, z, zones[z].bestUuid)
    requires forall id, z :: z != "" && Member(t, id, z) ==> z in zones
    requires forall z, c :: z in zones ==> (c in zones[z].owned <==> OwnedInZone(t, z, c))
    requires forall z :: z in zones ==> ForZone(t, cmds, z) == ZonePlan(zones[z], total)
    ensures Round(t, cmds, total)
  {
    forall id, z | z != "" && Member(t, id, z) ensures ZoneServed(t, cmds, z, total) {
      assert ServesZone(t, cmds, z, total, zones[z].bestUuid, zones[z].owned);
    }
  }

  /** The zones that are no longer in `todo` have their commands, the others have none yet. */
  ghost predicate Planned(t: Spec.Tracker, zones: map<string, ZoneInfo>, total: nat, todo: set<string>,
      cmds: seq<Command>) {
    && (forall k :: 0 <= k < |cmds| ==> GoodCommand(t, cmds[k]))
    && (forall z :: z in zones ==> ForZone(t, cmds, z) == if z in todo then [] else ZonePlan(zones[z], total))
  }

  lemma PlanNext(t: Spec.Tracker, zones: map<string, ZoneInfo>, total: nat, todo: set<string>, zone: string,
      cmds: seq<Command>)
    requires zone in todo && zone in zones && zone != ""
    requires Member(t, zones[zone].bestUuid, zone)
    requires Planned(t, zones, total, todo, cmds)
    ensures Planned(t, zones, total, todo - {zone}, cmds + ZonePlan(zones[zone], total))
  {
    hide ForZone, ZonePlan, GoodCommand, Member;
    var zi := zones[zone];
    PlanIsGood(t, zi, total, zone);
    var more := ZonePlan(zi, total);
    forall z | z in zones
      ensures ForZone(t, cmds + more, z) == if z in todo - {zone} then [] else ZonePlan(zones[z], total)
    {
      if z == zone {
        PlanForSame(t, zi, total, zone, cmds);
      } else {
        PlanForOther(t, zi, total, zone, z, cmds);
      }
    }
  }

  lemma PlanIsGood(t: Spec.Tracker, zi: ZoneInfo, total: nat, zone: string)
    requires Member(t, zi.bestUuid, zone) && zone != ""
    ensures forall k :: 0 <= k < |ZonePlan(zi, total)| ==> GoodCommand(t, ZonePlan(zi, total)[k])
  {
  }

  lemma PlanForSame(t: Spec.Tracker, zi: ZoneInfo, total: nat, zone: string, cmds: seq<Command>)
    requires Member(t, zi.bestUuid, zone) && ForZone(t, cmds, zone) == []
    ensures ForZone(t, cmds + ZonePlan(zi, total), zone) == ZonePlan(zi, total)
  {
    ForZoneAppend(t, cmds, ZonePlan(zi, total), zone);
    ForZoneOfOne(t, ZonePlan(zi, total), zi.bestUuid, zone);
  }

  lemma PlanForOther(t: Spec.Tracker, zi: ZoneInfo, total: nat, zone: string, z: string, cmds: seq<Command>)
    requires Member(t, zi.bestUuid, zone) && z != zone
    ensures ForZone(t, cmds + ZonePlan(zi, total), z) == ForZone(t, cmds, z)
  {
    ForZoneAppend(t, cmds, ZonePlan(zi, total), z);
    ForZoneOfOne(t, ZonePlan(zi, total), zi.bestUuid, z);
  }
}
