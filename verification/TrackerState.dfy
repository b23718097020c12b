/** The tracker's state as a value, and what each of its operations does to it.  The class
    Session in Tracker.dfy carries these operations out in place. */
module TrackerState {
  import opened Integers
  import opened Outcomes
  import opened LeaseKeys
  import opened Ranking

  /** Nanoseconds.  The zero time stands for "never". */
  type Time = nat

  const SECOND: nat := 1_000_000_000
  const LEASE_TTL: nat := 45 * SECOND
  const MAX_INFLIGHT: nat := 2
  const MAX_SOURCES_PER_WANT: nat := 3
  const COLD_START_MBPS: real := 1000.0
  const CROSS_ZONE_FACTOR: real := 0.15
  const FAIL_HALF_LIFE: real := 30.0
  const CENTRAL_SEED_BOOST: real := 1000000000.0
  const ZONE_OF_CENTRAL := "*"

  datatype Peer = Peer(
    addr: string,
    conn: Option<nat>,
    connNum: nat,
    speed: real,
    zone: string,
    lastFailure: Option<Time>,
    failStreak: nat,
    cooldownTil: Time,
    leases: map<string, Time>)

  const NO_PEER := Peer("", None, 0, 0.0, "", None, 0, 0, map[])

  datatype Tracker = Tracker(
    uuid: string,
    peers: map<string, Peer>,
    chunkOwners: map<int, set<string>>,
    peerOwners: map<string, set<int>>,
    chunkNum: Option<nat>,     // of the chunk provider; None without a file
    isMain: bool,
    chunkHash: map<int, int>)  // checksums of the chunks that were added

  function New(uuid: string): Tracker {
    Tracker(uuid, map[], map[], map[], None, false, map[])
  }

  function OwnersOf(t: Tracker, i: int): set<string> {
    if i in t.chunkOwners then t.chunkOwners[i] else {}
  }

  function ChunksOf(t: Tracker, id: string): set<int> {
    if id in t.peerOwners then t.peerOwners[id] else {}
  }

  function SetPeer(t: Tracker, id: string, p: Peer): Tracker {
    t.(peers := t.peers[id := p])
  }

  // ----- Registration and ownership -----

  function AddPeer(t: Tracker, id: string, addr: string, conn: Option<nat>): Tracker {
    if id in t.peers then SetPeer(t, id, t.peers[id].(addr := addr, conn := conn))
    else SetPeer(t, id, NO_PEER.(addr := addr, conn := conn))
  }

  function WithoutOwner(owners: map<int, set<string>>, id: string, chunks: set<int>): map<int, set<string>> {
    map i | i in owners :: if i in chunks then owners[i] - {id} else owners[i]
  }

  function RemovePeer(t: Tracker, id: string): Tracker {
    t.(chunkOwners := WithoutOwner(t.chunkOwners, id, ChunksOf(t, id)),
       peerOwners := t.peerOwners - {id},
       peers := t.peers - {id})
  }

  function AddBlockOwner(t: Tracker, i: int, id: string): Tracker {
    if t.chunkNum.None? || i < 0 || i >= t.chunkNum.value || id !in t.peers then t
    else t.(chunkOwners := t.chunkOwners[i := OwnersOf(t, i) + {id}],
            peerOwners := t.peerOwners[id := ChunksOf(t, id) + {i}])
  }

  function DropOwner(t: Tracker, i: int, id: string): Tracker {
    t.(chunkOwners := WithoutOwner(t.chunkOwners, id, {i}),
       peerOwners := if id in t.peerOwners then t.peerOwners[id := t.peerOwners[id] - {i}] else t.peerOwners)
  }

  function SetPeerZone(t: Tracker, id: string, zone: string): Tracker {
    if id in t.peers then SetPeer(t, id, t.peers[id].(zone := zone)) else t
  }

  // ----- Leases -----

  function Released(p: Peer, key: string): Peer {
    if key in p.leases
    then p.(leases := p.leases - {key}, connNum := if p.connNum > 0 then p.connNum - 1 else 0)
    else p
  }

  function Release(t: Tracker, id: string, i: int, requester: string): Tracker {
    if id in t.peers then SetPeer(t, id, Released(t.peers[id], LeaseKey(requester, i))) else t
  }

  function Leased(p: Peer, key: string, now: Time): Peer {
    p.(connNum := if key in p.leases then p.connNum else p.connNum + 1,
       leases := p.leases[key := now + LEASE_TTL])
  }

  function Lease(t: Tracker, id: string, i: int, requester: string, now: Time): Tracker {
    SetPeer(t, id, Leased(if id in t.peers then t.peers[id] else NO_PEER, LeaseKey(requester, i), now))
  }

  function ExpiredKeys(p: Peer, now: Time): set<string> {
    set k | k in p.leases && now > p.leases[k]
  }

  function Expired(p: Peer, now: Time): Peer {
    var gone := ExpiredKeys(p, now);
    p.(leases := p.leases - gone, connNum := if p.connNum > |gone| then p.connNum - |gone| else 0)
  }

  function Expire(t: Tracker, now: Time): Tracker {
    t.(peers := map id | id in t.peers :: Expired(t.peers[id], now))
  }

  // ----- Reports -----

  function Pow2(k: nat): nat {
    if k == 0 then 1 else 2 * Pow2(k - 1)
  }

  function Punished(p: Peer, now: Time): Peer {
    var streak := p.failStreak + 1;
    p.(failStreak := streak, lastFailure := Some(now),
       cooldownTil := now + Pow2(if streak < 4 then streak else 4) * SECOND,
       speed := p.speed * 0.5)
  }

  function Credited(p: Peer, speed: int): Peer {
    p.(failStreak := 0, cooldownTil := 0,
       speed := if p.speed <= 0.0 then speed as real else p.speed * 0.7 + speed as real * 0.3)
  }

  function UpdatePeer(t: Tracker, id: string, speed: int, failed: bool, i: int, requester: string, now: Time): Tracker {
    if id !in t.peers then t
    else
      var p := Released(t.peers[id], LeaseKey(requester, i));
      if failed then
        SetPeer(if id != t.uuid then DropOwner(t, i, id) else t, id, Punished(p, now))
      else
        SetPeer(t, id, Credited(p, speed))
  }

  // ----- The source and its epoch -----

  function AddOwner(owners: map<int, set<string>>, i: int, id: string): map<int, set<string>> {
    owners[i := (if i in owners then owners[i] else {}) + {id}]
  }

  /** The central node becomes an owner of the first `n` chunks. */
  function AddCentral(owners: map<int, set<string>>, uuid: string, n: nat): map<int, set<string>> {
    if n == 0 then owners else AddOwner(AddCentral(owners, uuid, n - 1), n - 1, uuid)
  }

  function BeSendMain(t: Tracker, n: nat): Tracker {
    SetPeer(t, t.uuid, NO_PEER)
    .(chunkNum := Some(n), isMain := true, chunkOwners := AddCentral(t.chunkOwners, t.uuid, n))
  }

  function MarkSender(t: Tracker): Tracker {
    (if t.uuid in t.peers then t else SetPeer(t, t.uuid, NO_PEER)).(isMain := true)
  }

  /** BeSendSub and ClearChunks exchange the chunk provider and forget the added chunks. */
  function SetProvider(t: Tracker, n: Option<nat>): Tracker {
    t.(chunkNum := n, chunkHash := map[])
  }

  /** The first checksum of a chunk stays. */
  function AddChunk(t: Tracker, i: int, checksum: int): Tracker {
    if i in t.chunkHash then t else t.(chunkHash := t.chunkHash[i := checksum])
  }

  predicate HasChunk(t: Tracker, i: int) {
    t.chunkNum.Some? && 0 <= i < t.chunkNum.value && (t.isMain || i in t.chunkHash)
  }

  function Cleared(p: Peer): Peer {
    p.(leases := map[], connNum := 0)
  }

  function ClearContent(t: Tracker): Tracker {
    t.(chunkNum := None, chunkHash := map[], chunkOwners := map[], peerOwners := map[],
       peers := map id | id in t.peers :: Cleared(t.peers[id]))
  }

  // ----- Candidates -----

  /** Half to the power of `x`; only its values matter, not how they are computed. */
  type Halving = real -> real

  datatype Want = Want(index: int, uuid: string, zone: string, want: int)

  /** The requester's zone: as stated, as registered, or as its address suggests. */
  function ZoneFor(t: Tracker, req: Want, connZone: string): string {
    if req.zone != "" then req.zone
    else if req.uuid in t.peers && t.peers[req.uuid].zone != "" then t.peers[req.uuid].zone
    else connZone
  }

  function ScoreSource(up: real, connections: nat, locality: real, failures: real, halving: Halving): real {
    up / (connections + 1) as real * locality * halving(failures)
  }

  function LocalityFactor(source: string, requester: string): real {
    if source == ZONE_OF_CENTRAL || requester == "" || source == requester then 1.0 else CROSS_ZONE_FACTOR
  }

  function Failures(p: Peer, now: Time, halving: Halving): real {
    match p.lastFailure
    case None => p.failStreak as real
    case Some(at) => p.failStreak as real * halving((now as int - at as int) as real / SECOND as real / FAIL_HALF_LIFE)
  }

  function PeerCandidate(id: string, p: Peer, now: Time, zone: string, halving: Halving): Candidate {
    var speed := if p.speed <= 0.0 then COLD_START_MBPS else p.speed;
    Candidate(id, p.addr, ScoreSource(speed, p.connNum, LocalityFactor(p.zone, zone), Failures(p, now, halving),
        halving))
  }

  /** A receiver that owns the chunk, other than the requester itself. */
  predicate OtherOwner(t: Tracker, req: Want, id: string) {
    id in OwnersOf(t, req.index) && id != req.uuid && id in t.peers && id != t.uuid
  }

  predicate Eligible(t: Tracker, req: Want, id: string, now: Time) {
    OtherOwner(t, req, id) && now >= t.peers[id].cooldownTil && t.peers[id].connNum < MAX_INFLIGHT
  }

  ghost predicate HasLocalOwner(t: Tracker, req: Want, zone: string) {
    exists id :: OtherOwner(t, req, id) && t.peers[id].zone == zone
  }

  /** The central node; a named zone without an owner of the chunk prefers it. */
  function CentralCandidate(t: Tracker, zone: string, hasLocal: bool, halving: Halving): Candidate {
    var known := t.uuid in t.peers;
    var speed := if known && t.peers[t.uuid].speed > 0.0 then t.peers[t.uuid].speed else COLD_START_MBPS;
    var score := ScoreSource(speed, if known then t.peers[t.uuid].connNum else 0, 1.0, 0.0, halving);
    Candidate(t.uuid, "", if !hasLocal && zone != "" then score * CENTRAL_SEED_BOOST else score)
  }

  ghost function PeerCandidates(t: Tracker, req: Want, now: Time, zone: string, halving: Halving): set<Candidate> {
    set id | id in OwnersOf(t, req.index) && Eligible(t, req, id, now) ::
      PeerCandidate(id, t.peers[id], now, zone, halving)
  }

  ghost function Candidates(t: Tracker, req: Want, now: Time, connZone: string, halving: Halving): (s: set<Candidate>)
    ensures DistinctIds(s)
    ensures
      var zone := ZoneFor(t, req, connZone);
      CentralCandidate(t, zone, HasLocalOwner(t, req, zone), halving) in s
  {
    var zone := ZoneFor(t, req, connZone);
    PeerCandidates(t, req, now, zone, halving)
    + {CentralCandidate(t, zone, HasLocalOwner(t, req, zone), halving)}
  }

  /** What candidatesLocked returns. */
  ghost function Ranked(t: Tracker, req: Want, now: Time, connZone: string, halving: Halving): (r: seq<Candidate>)
    ensures r != []
  {
    var s := Candidates(t, req, now, connZone, halving);
    EmptyTogether(TheRanking(s), s);
    TheRanking(s)
  }

  /** The part of WantRequest under the lock: expiry, then a lease on the best source. */
  ghost function WantLease(t: Tracker, req: Want, now: Time, leaseAt: Time, connZone: string,
      halving: Halving): Tracker {
    var current := Expire(t, now);
    Lease(current, Ranked(current, req, now, connZone, halving)[0].uuid, req.index, req.uuid, leaseAt)
  }

  // ----- Runs -----

  datatype Op =
    | OpAddPeer(id: string, addr: string, conn: Option<nat>)
    | OpRemovePeer(id: string)
    | OpSetZone(id: string, zone: string)
    | OpReportChunk(i: int, id: string)
    | OpReportPeer(id: string, speed: int, failed: bool, i: int, requester: string, now: Time)
    | OpWant(req: Want, now: Time, leaseAt: Time, connZone: string)
    | OpSendFailed(id: string, i: int, requester: string)
    | OpExpire(now: Time)
    | OpBeSendMain(n: nat)
    | OpMarkSender
    | OpSetProvider(chunkNum: Option<nat>)
    | OpAddChunk(i: int, checksum: int)
    | OpClearContent

  ghost function Apply(t: Tracker, op: Op, halving: Halving): Tracker {
    match op
    case OpAddPeer(id, addr, conn) => AddPeer(t, id, addr, conn)
    case OpRemovePeer(id) => RemovePeer(t, id)
    case OpSetZone(id, zone) => SetPeerZone(t, id, zone)
    case OpReportChunk(i, id) => AddBlockOwner(t, i, id)
    case OpReportPeer(id, speed, failed, i, requester, now) => UpdatePeer(t, id, speed, failed, i, requester, now)
    case OpWant(req, now, leaseAt, connZone) => WantLease(t, req, now, leaseAt, connZone, halving)
    case OpSendFailed(id, i, requester) => Release(t, id, i, requester)
    case OpExpire(now) => Expire(t, now)
    case OpBeSendMain(n) => BeSendMain(t, n)
    case OpMarkSender => MarkSender(t)
    case OpSetProvider(chunkNum) => SetProvider(t, chunkNum)
    case OpAddChunk(i, checksum) => AddChunk(t, i, checksum)
    case OpClearContent => ClearContent(t)
  }

  /** The tracker after any operations, in any order. */
  ghost function Run(uuid: string, ops: seq<Op>, halving: Halving): Tracker {
    if ops == [] then New(uuid)
    else Apply(Run(uuid, ops[..|ops| - 1], halving), ops[|ops| - 1], halving)
  }
}
