/** What every step of the download engine keeps, and what a successful run therefore
    guarantees. */
module EngineSafety {
  import opened Integers
  import opened Outcomes
  import opened Chunks
  import opened Engine
  import FeedOrder

  /** The index a worker is responsible for while it is in `claimed`. */
  function Job(at: Worker): Option<nat> {
    match at
    case Attempting(i, _) => Some(i)
    case Asking(i, _) => Some(i)
    case Trying(i, _, _) => Some(i)
    case Fetching(i, _, _, _) => Some(i)
    case Fetched(i, _, _) => Some(i)
    case Added(i, _) => Some(i)
    case Missed(i, _) => Some(i)
    case Failing(i) => Some(i)
    case Waiting => None
    case Received(_) => None
    case Cancelling => None
    case Exited => None
  }

  ghost predicate SomeoneHas(s: State, i: nat) {
    exists w :: 0 <= w < |s.workers| && Job(s.workers[w]) == Some(i)
  }

  ghost predicate SomeoneReceived(s: State, i: nat) {
    exists w :: 0 <= w < |s.workers| && s.workers[w] == Received(i)
  }

  ghost predicate Stopped(s: State) {
    s.workDone || s.failure.Some?
  }

  ghost predicate WorkerOk(c: Config, s: State, at: Worker) {
    && (at.Received? ==> at.i < c.Count())
    && (Job(at).Some? ==>
          && !c.isMain
          && Job(at).value < c.Count()
          && Job(at).value in s.claimed
          // A chunk enters chunkHash while its worker still holds the claim.
          && (Job(at).value in s.chunkHash <==> at.Added?))
    && (at.Added? || at.Fetched? ==> at.n == Len(c.size, at.i))
    && (at.Cancelling? ==> s.failure.Some?)
    && (at.Exited? ==> s.workDone || s.feeder.Closed?)
  }

  ghost predicate WorkersOk(c: Config, s: State) {
    && |s.workers| == (if c.Count() < MAX_WORKERS then c.Count() else MAX_WORKERS)
    && forall w :: 0 <= w < |s.workers| ==> WorkerOk(c, s, s.workers[w])
  }

  ghost predicate ExclusiveJobs(s: State) {
    forall v, w :: 0 <= v < w < |s.workers| && Job(s.workers[v]).Some? ==>
                     Job(s.workers[v]) != Job(s.workers[w])
  }

  ghost predicate FeederOk(c: Config, s: State) {
    && s.feeder.n <= c.Count()
    && (!s.feeder.Closed? ==> s.feeder.n < c.Count())
    && (s.feeder.Closed? && s.feeder.n < c.Count() ==> s.workDone)
    && (s.feeder.HoldUrgent? ==> s.feeder.urgent < c.Count())
    && |s.priority| <= PRIORITY_CAPACITY
    && (forall k :: 0 <= k < |s.priority| ==> s.priority[k] < c.Count())
  }

  /** A claim without a worker only outlives a stop, and a stop has a reason. */
  ghost predicate ClaimsOk(c: Config, s: State) {
    && (forall i :: i in s.claimed && !Stopped(s) ==> SomeoneHas(s, i))
    && (c.isMain ==> s.claimed == {})
    && (s.workDone ==> s.ctxDone || s.failure.Some?)
  }

  /** Every entry of chunkHash was added exactly once. */
  ghost predicate HashesOk(c: Config, s: State) {
    && |s.file| == c.size
    && (forall i :: i in s.chunkHash ==> i < c.Count())
    && (forall i :: s.added[i] == if i in s.chunkHash then 1 else 0)
    && (c.isMain ==> s.chunkHash == map[])
  }

  /** Chunks that were added and are no longer claimed. */
  function Settled(s: State): set<nat> {
    s.chunkHash.Keys - s.claimed
  }

  ghost predicate CountsOk(c: Config, s: State) {
    && s.done == |Settled(s)|
    && s.received == TotalLen(c.size, Settled(s), c.Count())
  }

  ghost predicate Kept(c: Config, s: State, i: nat) {
    c.isMain || i in s.chunkHash || i in s.claimed || SomeoneReceived(s, i)
  }

  /** No index that was fed gets lost. */
  ghost predicate FedKept(c: Config, s: State)
    requires c.Valid()
  {
    forall m: nat | m < s.feeder.n && m < c.Count() :: Kept(c, s, Feed(c, m))
  }

  ghost predicate Inv(c: Config, s: State)
    requires c.Valid()
  {
    && FeederOk(c, s) && WorkersOk(c, s) && ExclusiveJobs(s) && ClaimsOk(c, s)
    && HashesOk(c, s) && CountsOk(c, s) && FedKept(c, s)
  }

  lemma InvInit(c: Config)
    requires c.Valid()
    ensures Inv(c, Init(c))
  {
    assert Settled(Init(c)) == {};
    EmptyTotal(c.size, c.Count());
  }

  lemma {:induction false} EmptyTotal(size: nat, k: nat)
    requires k <= ChunkNum(size)
    ensures TotalLen(size, {}, k) == 0
  {
    if k > 0 {
      EmptyTotal(size, k - 1);
    }
  }

  // ----- Keeping the parts, for a step that moves at most worker `w` -----

  ghost predicate OnlyMoves(s: State, t: State, w: nat) {
    && |t.workers| == |s.workers|
    && forall v :: 0 <= v < |s.workers| && v != w ==> t.workers[v] == s.workers[v]
  }

  /** The position of worker `w`, or `Exited` when there is no such worker. */
  function At(s: State, w: nat): Worker {
    if w < |s.workers| then s.workers[w] else Exited
  }

  lemma FeederAfter(c: Config, s: State, t: State)
    requires FeederOk(c, s) && t.feeder == s.feeder && t.priority == s.priority && (s.workDone ==> t.workDone)
    ensures FeederOk(c, t)
  {
  }

  lemma WorkersAfter(c: Config, s: State, t: State, w: nat)
    requires WorkersOk(c, s) && OnlyMoves(s, t, w)
    requires t.chunkHash == s.chunkHash && s.claimed <= t.claimed
    requires s.failure.Some? ==> t.failure.Some?
    requires s.workDone ==> t.workDone
    requires s.feeder.Closed? ==> t.feeder.Closed?
    requires w < |t.workers| ==> WorkerOk(c, t, t.workers[w])
    ensures WorkersOk(c, t)
  {
  }

  lemma ExclusiveAfter(s: State, t: State, w: nat)
    requires ExclusiveJobs(s) && OnlyMoves(s, t, w)
    requires Job(At(t, w)).None? || Job(At(t, w)) == Job(At(s, w)) || !SomeoneHas(s, Job(At(t, w)).value)
    ensures ExclusiveJobs(t)
  {
  }

  lemma ClaimsAfter(c: Config, s: State, t: State, w: nat)
    requires ClaimsOk(c, s) && OnlyMoves(s, t, w)
    requires Stopped(s) ==> Stopped(t)
    requires t.workDone ==> t.ctxDone || t.failure.Some?
    requires c.isMain ==> t.claimed == {}
    requires forall i :: i in t.claimed ==> i in s.claimed || Job(At(t, w)) == Some(i)
    requires Job(At(s, w)).Some? && Job(At(t, w)) != Job(At(s, w))
             ==> Stopped(t) || Job(At(s, w)).value !in t.claimed
    ensures ClaimsOk(c, t)
  {
  }

  lemma HashesAfter(c: Config, s: State, t: State)
    requires HashesOk(c, s) && t.chunkHash == s.chunkHash && t.added == s.added && |t.file| == |s.file|
    ensures HashesOk(c, t)
  {
  }

  lemma CountsAfter(c: Config, s: State, t: State)
    requires CountsOk(c, s) && Settled(t) == Settled(s) && t.done == s.done && t.received == s.received
    ensures CountsOk(c, t)
  {
  }

  lemma FedAfter(c: Config, s: State, t: State, w: nat)
    requires c.Valid() && FedKept(c, s) && OnlyMoves(s, t, w)
    requires
      || t.feeder.n == s.feeder.n
      || (t.feeder.n == s.feeder.n + 1 <= c.Count() && w < |t.workers| && t.workers[w] == Received(Feed(c, s.feeder.n)))
    requires At(s, w).Received? ==>
               var i := At(s, w).i;
               At(t, w) == Received(i) || i in t.claimed || i in t.chunkHash || c.isMain
    requires forall i :: i in s.chunkHash ==> i in t.chunkHash
    requires forall i :: i in s.claimed ==> i in t.claimed || i in t.chunkHash
    ensures FedKept(c, t)
  {
  }

  // ----- Steps of the feeder and of the environment -----

  /** Only the feeder, the priority channel and the contexts change. */
  lemma SharedMove(c: Config, s: State, t: State)
    requires c.Valid() && Inv(c, s)
    requires t == s.(feeder := t.feeder, priority := t.priority, ctxDone := t.ctxDone, workDone := t.workDone)
    requires t.feeder.n == s.feeder.n && FeederOk(c, t)
    requires s.feeder.Closed? ==> t.feeder.Closed?
    requires s.ctxDone ==> t.ctxDone
    requires s.workDone ==> t.workDone
    requires t.workDone ==> t.ctxDone || s.failure.Some?
    ensures Inv(c, t)
  {
    hide FeederOk, WorkersOk, ExclusiveJobs, HashesOk, CountsOk, FedKept;
    var w := |s.workers|;
    WorkersAfter(c, s, t, w);
    ExclusiveAfter(s, t, w);
    ClaimsAfter(c, s, t, w);
    HashesAfter(c, s, t);
    CountsAfter(c, s, t);
    FedAfter(c, s, t, w);
  }

  lemma SendKeeps(c: Config, s: State, w: nat, feeder: Feeder, i: nat)
    requires c.Valid() && Inv(c, s) && w < |s.workers| && s.workers[w].Waiting? && i < c.Count()
    requires !s.feeder.Closed? && FeederOk(c, s.(feeder := feeder))
    requires feeder.n == s.feeder.n || (feeder.n == s.feeder.n + 1 && i == Feed(c, s.feeder.n))
    ensures Inv(c, Goto(s.(feeder := feeder), w, Received(i)))
  {
    var t := Goto(s.(feeder := feeder), w, Received(i));
    FeederAfter(c, s.(feeder := feeder), t);
    NextRoundInRange(c, s, feeder);
    hide FeederOk, WorkersOk, ExclusiveJobs, HashesOk, CountsOk, FedKept;
    WorkersAfter(c, s, t, w);
    ExclusiveAfter(s, t, w);
    ClaimsAfter(c, s, t, w);
    HashesAfter(c, s, t);
    CountsAfter(c, s, t);
    FedAfter(c, s, t, w);
  }

  lemma NextRoundInRange(c: Config, s: State, feeder: Feeder)
    requires FeederOk(c, s.(feeder := feeder))
    ensures feeder.n <= c.Count()
  {
  }

  // ----- Steps of one worker -----

  /** A worker moves on, or drops its job because the run is stopping; claims and hashes
      stay as they are. */
  lemma WorkerMove(c: Config, s: State, t: State, w: nat)
    requires c.Valid() && Inv(c, s) && w < |s.workers| && OnlyMoves(s, t, w)
    requires t == s.(workers := t.workers, file := t.file, failure := t.failure, workDone := t.workDone)
    requires |t.file| == |s.file|
    requires s.failure.Some? ==> t.failure.Some?
    requires s.workDone ==> t.workDone
    requires t.workDone ==> t.ctxDone || t.failure.Some?
    requires !s.workers[w].Received?
    requires WorkerOk(c, t, t.workers[w])
    requires Job(t.workers[w]) == Job(s.workers[w]) || (Job(t.workers[w]).None? && Stopped(t))
    ensures Inv(c, t)
  {
    hide FeederOk, WorkersOk, ExclusiveJobs, HashesOk, CountsOk, FedKept;
    FeederAfter(c, s, t);
    WorkersAfter(c, s, t, w);
    ExclusiveAfter(s, t, w);
    ClaimsAfter(c, s, t, w);
    HashesAfter(c, s, t);
    CountsAfter(c, s, t);
    FedAfter(c, s, t, w);
  }

  /** The common case: nothing but the worker's own position changes. */
  lemma GotoKeeps(c: Config, s: State, w: nat, pc: Worker)
    requires c.Valid() && Inv(c, s) && w < |s.workers|
    requires !s.workers[w].Received? && !pc.Received?
    requires Job(pc) == Job(s.workers[w]) || (Job(pc).None? && Stopped(s))
    requires pc.Added? || pc.Fetched? || pc.Cancelling? ==> pc == s.workers[w]
    requires s.workers[w].Added? ==> pc.Added?
    requires pc.Exited? ==> s.workDone || s.feeder.Closed?
    ensures Inv(c, Goto(s, w, pc))
  {
    WorkerIsOk(c, s, w);
    hide FeederOk, WorkersOk, ExclusiveJobs, HashesOk, CountsOk, FedKept;
    WorkerMove(c, s, Goto(s, w, pc), w);
  }

  lemma WorkerIsOk(c: Config, s: State, w: nat)
    requires c.Valid() && Inv(c, s) && w < |s.workers|
    ensures WorkerOk(c, s, s.workers[w]) && |s.file| == c.size
    ensures s.workDone ==> s.ctxDone || s.failure.Some?
  {
  }

  lemma FetchOkKeeps(c: Config, s: State, w: nat, payload: Bytes, checksum: int)
    requires c.Valid() && Inv(c, s) && Enabled(c, s, FetchOk(w, payload, checksum))
    ensures Inv(c, Next(c, s, FetchOk(w, payload, checksum)))
  {
    WorkerIsOk(c, s, w);
    hide FeederOk, WorkersOk, ExclusiveJobs, HashesOk, CountsOk, FedKept;
    WorkerMove(c, s, Next(c, s, FetchOk(w, payload, checksum)), w);
  }

  predicate OwnStep(e: Event) {
    e.Begin? || e.AskOk? || e.AskError? || e.NextSource? || e.BackOff?
    || e.Interrupted? || e.GiveUp? || e.Drain?
  }

  lemma MoveKeepsJob(c: Config, s: State, e: Event)
    requires (OwnStep(e) || e.FetchError?) && Enabled(c, s, e)
    ensures
      var at, pc := s.workers[e.w], Move(c, s.workers[e.w], e, s.workDone);
      && !at.Received? && !pc.Received? && !at.Added? && !pc.Added? && !pc.Fetched? && !pc.Cancelling?
      && (Job(pc) == Job(at) || (pc.Exited? && s.workDone))
      && (pc.Exited? ==> s.workDone || s.feeder.Closed?)
  {
  }

  lemma FetchErrorKeeps(c: Config, s: State, w: nat, partial: Bytes)
    requires c.Valid() && Inv(c, s) && Enabled(c, s, FetchError(w, partial))
    ensures Inv(c, Next(c, s, FetchError(w, partial)))
  {
    WorkerIsOk(c, s, w);
    var at := s.workers[w];
    var pc := Move(c, at, FetchError(w, partial), s.workDone);
    MoveKeepsJob(c, s, FetchError(w, partial));
    hide FeederOk, WorkersOk, ExclusiveJobs, HashesOk, CountsOk, FedKept, Move;
    WorkerMove(c, s, Goto(s.(file := Write(s.file, at.i, partial)), w, pc), w);
  }

  lemma FailureKeeps(c: Config, s: State, w: nat)
    requires c.Valid() && Inv(c, s) && Enabled(c, s, RecordFailure(w))
    ensures Inv(c, Next(c, s, RecordFailure(w)))
  {
    WorkerIsOk(c, s, w);
    hide FeederOk, WorkersOk, ExclusiveJobs, HashesOk, CountsOk, FedKept;
    WorkerMove(c, s, Next(c, s, RecordFailure(w)), w);
  }

  lemma CancelKeeps(c: Config, s: State, w: nat)
    requires c.Valid() && Inv(c, s) && Enabled(c, s, CancelWork(w))
    ensures Inv(c, Next(c, s, CancelWork(w)))
  {
    WorkerIsOk(c, s, w);
    hide FeederOk, WorkersOk, ExclusiveJobs, HashesOk, CountsOk, FedKept;
    WorkerMove(c, s, Next(c, s, CancelWork(w)), w);
  }

  lemma ClaimedByNobody(c: Config, s: State, i: nat)
    requires WorkersOk(c, s) && i !in s.claimed
    ensures !SomeoneHas(s, i)
  {
  }

  /** The claimed index was free: it is fetched by this worker alone. */
  lemma ClaimKeeps(c: Config, s: State, w: nat, i: nat)
    requires c.Valid() && Inv(c, s) && w < |s.workers| && s.workers[w] == Received(i)
    requires i !in s.claimed && i !in s.chunkHash && !c.isMain
    ensures Inv(c, Goto(s.(claimed := s.claimed + {i}), w, Attempting(i, 0)))
  {
    var t := Goto(s.(claimed := s.claimed + {i}), w, Attempting(i, 0));
    WorkerIsOk(c, s, w);
    hide FeederOk, WorkersOk, ExclusiveJobs, HashesOk, CountsOk, FedKept;
    FeederAfter(c, s, t);
    WorkersAfter(c, s, t, w);
    ClaimedByNobody(c, s, i);
    ExclusiveAfter(s, t, w);
    ClaimsAfter(c, s, t, w);
    HashesAfter(c, s, t);
    SettledAfterClaim(s, t, i);
    CountsAfter(c, s, t);
    FedAfter(c, s, t, w);
  }

  lemma SkipKeeps(c: Config, s: State, w: nat, i: nat)
    requires c.Valid() && Inv(c, s) && w < |s.workers| && s.workers[w] == Received(i)
    requires i in s.claimed || i in s.chunkHash || c.isMain
    ensures Inv(c, Goto(s, w, Waiting))
  {
    var t := Goto(s, w, Waiting);
    hide FeederOk, WorkersOk, ExclusiveJobs, HashesOk, CountsOk, FedKept;
    FeederAfter(c, s, t);
    WorkersAfter(c, s, t, w);
    ExclusiveAfter(s, t, w);
    ClaimsAfter(c, s, t, w);
    HashesAfter(c, s, t);
    CountsAfter(c, s, t);
    FedAfter(c, s, t, w);
  }

  /** Another worker has another job. */
  lemma OthersJob(s: State, v: nat, w: nat)
    requires ExclusiveJobs(s) && v < |s.workers| && w < |s.workers| && v != w && Job(s.workers[w]).Some?
    ensures Job(s.workers[v]) != Job(s.workers[w])
  {
  }

  lemma AddedWorkersOk(c: Config, s: State, w: nat, i: nat, n: nat, checksum: int)
    requires WorkersOk(c, s) && ExclusiveJobs(s) && w < |s.workers| && s.workers[w] == Fetched(i, n, checksum)
    ensures i !in s.chunkHash && i < c.Count() && i in s.claimed && !c.isMain
    ensures WorkersOk(c, Goto(s.(chunkHash := s.chunkHash[i := checksum], added := s.added + multiset{i}), w,
        Added(i, n)))
  {
  }

  lemma AddedHashesOk(c: Config, s: State, t: State, i: nat, checksum: int)
    requires HashesOk(c, s) && i !in s.chunkHash && i < c.Count() && !c.isMain
    requires t.chunkHash == s.chunkHash[i := checksum] && t.added == s.added + multiset{i} && t.file == s.file
    ensures HashesOk(c, t)
  {
  }

  lemma SettledAfterAdd(s: State, t: State, i: nat, checksum: int)
    requires t.chunkHash == s.chunkHash[i := checksum] && t.claimed == s.claimed && i in s.claimed
    ensures Settled(t) == Settled(s)
  {
  }

  lemma SettledAfterClaim(s: State, t: State, i: nat)
    requires t.chunkHash == s.chunkHash && t.claimed == s.claimed + {i} && i !in s.chunkHash
    ensures Settled(t) == Settled(s)
  {
  }

  lemma SettledAfterCommit(s: State, t: State, i: nat)
    requires t.chunkHash == s.chunkHash && t.claimed == s.claimed - {i} && i in s.chunkHash && i in s.claimed
    ensures Settled(t) == Settled(s) + {i} && i !in Settled(s)
  {
  }

  lemma AddChunkKeeps(c: Config, s: State, w: nat, i: nat, n: nat, checksum: int)
    requires c.Valid() && Inv(c, s) && w < |s.workers| && s.workers[w] == Fetched(i, n, checksum)
    ensures i !in s.chunkHash
    ensures Inv(c, Goto(s.(chunkHash := s.chunkHash[i := checksum], added := s.added + multiset{i}), w, Added(i, n)))
  {
    var t := Goto(s.(chunkHash := s.chunkHash[i := checksum], added := s.added + multiset{i}), w, Added(i, n));
    hide FeederOk, WorkersOk, ExclusiveJobs, HashesOk, CountsOk, FedKept;
    FeederAfter(c, s, t);
    AddedWorkersOk(c, s, w, i, n, checksum);
    ExclusiveAfter(s, t, w);
    ClaimsAfter(c, s, t, w);
    AddedHashesOk(c, s, t, i, checksum);
    SettledAfterAdd(s, t, i, checksum);
    CountsAfter(c, s, t);
    FedAfter(c, s, t, w);
  }

  lemma CommittedWorkersOk(c: Config, s: State, t: State, w: nat, i: nat, n: nat)
    requires WorkersOk(c, s) && ExclusiveJobs(s) && w < |s.workers| && s.workers[w] == Added(i, n)
    requires t == Goto(s.(claimed := s.claimed - {i}, done := t.done, received := t.received), w, Waiting)
    ensures WorkersOk(c, t)
    ensures i < c.Count() && i in s.claimed && i in s.chunkHash && n == Len(c.size, i)
  {
  }

  lemma CommittedCountsOk(c: Config, s: State, t: State, i: nat)
    requires CountsOk(c, s) && i < c.Count() && i !in Settled(s) && Settled(t) == Settled(s) + {i}
    requires t.done == s.done + 1 && t.received == s.received + Len(c.size, i)
    ensures CountsOk(c, t)
  {
    TotalLenAdd(c.size, Settled(s), i, c.Count());
  }

  lemma CommitKeeps(c: Config, s: State, w: nat, i: nat, n: nat)
    requires c.Valid() && Inv(c, s) && w < |s.workers| && s.workers[w] == Added(i, n)
    ensures Inv(c, Goto(s.(claimed := s.claimed - {i}, done := s.done + 1, received := s.received + n), w, Waiting))
  {
    var t := Goto(s.(claimed := s.claimed - {i}, done := s.done + 1, received := s.received + n), w, Waiting);
    hide FeederOk, WorkersOk, ExclusiveJobs, HashesOk, CountsOk, FedKept;
    FeederAfter(c, s, t);
    CommittedWorkersOk(c, s, t, w, i, n);
    ExclusiveAfter(s, t, w);
    ClaimsAfter(c, s, t, w);
    HashesAfter(c, s, t);
    SettledAfterCommit(s, t, i);
    CommittedCountsOk(c, s, t, i);
    FedAfter(c, s, t, w);
  }

  // ----- All steps -----

  lemma WorkerStep(c: Config, s: State, e: Event)
    requires c.Valid() && Inv(c, s) && OwnStep(e) && Enabled(c, s, e)
    ensures Inv(c, Next(c, s, e))
  {
    MoveKeepsJob(c, s, e);
    GotoKeeps(c, s, e.w, Move(c, s.workers[e.w], e, s.workDone));
  }

  lemma FeederStep(c: Config, s: State, e: Event)
    requires c.Valid() && Inv(c, s) && Enabled(c, s, e)
    requires e.TakeUrgent? || e.NoUrgent? || e.BreakFeed?
    ensures Inv(c, Next(c, s, e))
  {
    SharedMove(c, s, Next(c, s, e));
  }

  lemma ContextStep(c: Config, s: State, e: Event)
    requires c.Valid() && Inv(c, s) && Enabled(c, s, e)
    requires e.Prefetch? || e.CtxCancel? || e.Propagate?
    ensures Inv(c, Next(c, s, e))
  {
    SharedMove(c, s, Next(c, s, e));
  }

  lemma SendStep(c: Config, s: State, e: Event)
    requires c.Valid() && Inv(c, s) && Enabled(c, s, e)
    requires e.SendUrgent? || e.Send?
    ensures Inv(c, Next(c, s, e))
  {
    match e
    case SendUrgent(w) => SendKeeps(c, s, w, Offering(s.feeder.n), s.feeder.urgent);
    case Send(w) => SendKeeps(c, s, w, NextRound(c, s.feeder.n), Feed(c, s.feeder.n));
  }

  lemma ClaimStep(c: Config, s: State, w: nat)
    requires c.Valid() && Inv(c, s) && Enabled(c, s, Claim(w))
    ensures Inv(c, Next(c, s, Claim(w)))
  {
    var i := s.workers[w].i;
    WorkerIsOk(c, s, w);
    if i in s.claimed || HasChunk(c, s, i) {
      SkipKeeps(c, s, w, i);
    } else {
      ClaimKeeps(c, s, w, i);
    }
  }

  lemma AddChunkStep(c: Config, s: State, w: nat)
    requires c.Valid() && Inv(c, s) && Enabled(c, s, AddChunk(w))
    ensures Inv(c, Next(c, s, AddChunk(w)))
  {
    AddChunkKeeps(c, s, w, s.workers[w].i, s.workers[w].n, s.workers[w].checksum);
  }

  lemma CommitStep(c: Config, s: State, w: nat)
    requires c.Valid() && Inv(c, s) && Enabled(c, s, Commit(w))
    ensures Inv(c, Next(c, s, Commit(w)))
  {
    CommitKeeps(c, s, w, s.workers[w].i, s.workers[w].n);
  }

  lemma InvStep(c: Config, s: State, e: Event)
    requires c.Valid() && Inv(c, s) && Enabled(c, s, e)
    ensures Inv(c, Next(c, s, e))
  {
    if e.Claim? {
      ClaimStep(c, s, e.w);
    } else if e.SendUrgent? || e.Send? {
      SendStep(c, s, e);
    } else if e.FetchOk? {
      FetchOkKeeps(c, s, e.w, e.payload, e.checksum);
    } else if e.FetchError? {
      FetchErrorKeeps(c, s, e.w, e.partial);
    } else if e.AddChunk? {
      AddChunkStep(c, s, e.w);
    } else if e.Commit? {
      CommitStep(c, s, e.w);
    } else if e.RecordFailure? {
      FailureKeeps(c, s, e.w);
    } else if e.CancelWork? {
      CancelKeeps(c, s, e.w);
    } else if OwnStep(e) {
      WorkerStep(c, s, e);
    } else if e.Prefetch? || e.CtxCancel? || e.Propagate? {
      ContextStep(c, s, e);
    } else {
      FeederStep(c, s, e);
    }
  }

  /** The invariant holds after every interleaving. */
  lemma {:induction false} InvAlways(c: Config, run: seq<Event>)
    requires c.Valid() && After(c, run).Some?
    ensures Inv(c, After(c, run).value)
  {
    if run == [] {
      InvInit(c);
    } else {
      InvAlways(c, run[..|run| - 1]);
      InvStep(c, After(c, run[..|run| - 1]).value, run[|run| - 1]);
    }
  }

  // ----- The bytes in the file -----

  /** Every chunk that was added, or saved and about to be added, satisfies `good`. */
  ghost predicate FileGood(c: Config, s: State, good: (nat, Bytes) -> bool) {
    && |s.file| == c.size
    && (forall i :: i in s.chunkHash ==> i < c.Count() && good(i, Range(s.file, i)))
    && (forall w :: 0 <= w < |s.workers| && s.workers[w].Fetched? ==>
          s.workers[w].i < c.Count() && good(s.workers[w].i, Range(s.file, s.workers[w].i)))
  }

  /** No other worker has saved or added the chunk that this one is fetching. */
  lemma FetchedElsewhere(c: Config, s: State, w: nat)
    requires c.Valid() && Inv(c, s) && w < |s.workers| && s.workers[w].Fetching?
    ensures s.workers[w].i !in s.chunkHash && s.workers[w].i < c.Count()
    ensures forall v :: 0 <= v < |s.workers| && s.workers[v].Fetched? ==> s.workers[v].i != s.workers[w].i
  {
    WorkerIsOk(c, s, w);
    forall v | 0 <= v < |s.workers| && s.workers[v].Fetched? ensures s.workers[v].i != s.workers[w].i {
      OthersJob(s, v, w);
    }
  }

  lemma WriteKeepsOthers(file: Bytes, i: nat, data: Bytes, j: nat)
    requires i < ChunkNum(|file|) && |data| <= Len(|file|, i) && j < ChunkNum(|file|) && j != i
    ensures Range(Write(file, i, data), j) == Range(file, j)
  {
  }

  /** A chunk that was added is never written again, whatever the workers do: if all fetches
      deliver good data, then all added chunks are good at all times. */
  lemma FileGoodStep(c: Config, s: State, e: Event, good: (nat, Bytes) -> bool)
    requires c.Valid() && Inv(c, s) && FileGood(c, s, good) && Enabled(c, s, e)
    requires e.FetchOk? ==> good(s.workers[e.w].i, e.payload)
    ensures FileGood(c, Next(c, s, e), good)
  {
    if e.FetchOk? {
      FetchedElsewhere(c, s, e.w);
      WriteGood(c, s, e.w, e.payload, Fetched(s.workers[e.w].i, |e.payload|, e.checksum), good);
    } else if e.FetchError? {
      FetchedElsewhere(c, s, e.w);
      MoveKeepsJob(c, s, e);
      WriteGood(c, s, e.w, e.partial, Move(c, s.workers[e.w], e, s.workDone), good);
    } else {
      OnlyFetchesWrite(c, s, e);
    }
  }

  /** Other steps neither write the file nor add a chunk that was not saved. */
  lemma OnlyFetchesWrite(c: Config, s: State, e: Event)
    requires c.Valid() && Enabled(c, s, e) && !e.FetchOk? && !e.FetchError?
    ensures
      var t := Next(c, s, e);
      && t.file == s.file && |t.workers| == |s.workers|
      && (forall i :: i in t.chunkHash ==> i in s.chunkHash || (e.AddChunk? && i == s.workers[e.w].i))
      && (forall w :: 0 <= w < |t.workers| && t.workers[w].Fetched? ==> t.workers[w] == s.workers[w])
  {
    if OwnStep(e) {
      MoveKeepsJob(c, s, e);
    }
  }

  lemma WriteGood(c: Config, s: State, w: nat, data: Bytes, pc: Worker, good: (nat, Bytes) -> bool)
    requires FileGood(c, s, good) && w < |s.workers| && s.workers[w].Fetching?
    requires s.workers[w].i !in s.chunkHash && s.workers[w].i < c.Count() && |data| <= Len(c.size, s.workers[w].i)
    requires forall v :: 0 <= v < |s.workers| && s.workers[v].Fetched? ==> s.workers[v].i != s.workers[w].i
    requires pc.Fetched? ==> pc.i == s.workers[w].i && |data| == Len(c.size, pc.i) && good(pc.i, data)
    ensures FileGood(c, Goto(s.(file := Write(s.file, s.workers[w].i, data)), w, pc), good)
  {
    var i := s.workers[w].i;
    var t := Goto(s.(file := Write(s.file, i, data)), w, pc);
    forall j | j in t.chunkHash ensures j < c.Count() && good(j, Range(t.file, j)) {
      WriteKeepsOthers(s.file, i, data, j);
    }
    forall v | 0 <= v < |t.workers| && t.workers[v].Fetched?
      ensures t.workers[v].i < c.Count() && good(t.workers[v].i, Range(t.file, t.workers[v].i))
    {
      if v == w {
        OverwriteFillsTile(s.file, i, data);
      } else {
        WriteKeepsOthers(s.file, i, data, s.workers[v].i);
      }
    }
  }

  // ----- A successful run -----

  /** When the checks after the join pass, the run was never stopped. */
  lemma SuccessIsUndisturbed(c: Config, s: State)
    requires c.Valid() && Inv(c, s) && Succeeds(s)
    ensures !Stopped(s) && s.claimed == {} && s.feeder.n == c.Count()
  {
  }

  lemma NobodyLeft(s: State, i: nat)
    requires Joined(s)
    ensures !SomeoneHas(s, i) && !SomeoneReceived(s, i)
  {
  }

  lemma SuccessfulState(c: Config, s: State)
    requires c.Valid() && Inv(c, s) && Succeeds(s) && !c.isMain
    ensures s.chunkHash.Keys == Indices(c.Count()) && s.claimed == {}
  {
    SuccessIsUndisturbed(c, s);
    forall t: nat | t < c.Count() ensures t in s.chunkHash {
      var m := FeedOrder.FeedSurjective(c.start, c.step, c.Count(), t);
      assert Kept(c, s, Feed(c, m));
      NobodyLeft(s, t);
    }
  }

  /** The central claim about a download: returning nil means that every chunk was added,
      exactly once, and that the counters account for the whole file. */
  lemma SuccessIsComplete(c: Config, run: seq<Event>)
    requires c.Valid() && After(c, run).Some? && Succeeds(After(c, run).value) && !c.isMain
    ensures
      var s := After(c, run).value;
      && s.chunkHash.Keys == Indices(c.Count())
      && s.added == multiset(Indices(c.Count()))
      && s.done == c.Count() && s.received == c.size
  {
    var s := After(c, run).value;
    InvAlways(c, run);
    SuccessfulState(c, s);
    assert Settled(s) == Indices(c.Count());
    TotalLenOfAll(c.size, Settled(s));
  }

  /** A session that was marked as a main sender claims to have every chunk, so a run on it
      skips them all and still returns nil: success then means a complete download exactly
      when there was nothing to download. */
  lemma MainSessionDownloadsNothing(c: Config, run: seq<Event>)
    requires c.Valid() && After(c, run).Some? && Succeeds(After(c, run).value)
    ensures
      var s := After(c, run).value;
      s.done == c.Count() <==> !c.isMain || c.Count() == 0
    ensures
      var s := After(c, run).value;
      c.isMain ==> s.added == multiset{} && s.done == 0 && s.received == 0
  {
    InvAlways(c, run);
    if c.isMain {
      assert Settled(After(c, run).value) == {};
      EmptyTotal(c.size, c.Count());
    } else {
      SuccessIsComplete(c, run);
    }
  }

  /** The file of a successful run, in terms of what its fetches delivered. */
  lemma {:induction false} FileGoodAlways(c: Config, run: seq<Event>, good: (nat, Bytes) -> bool)
    requires c.Valid() && After(c, run).Some? && GoodFetches(c, run, good)
    ensures FileGood(c, After(c, run).value, good)
  {
    if run == [] {
    } else {
      var rest := run[..|run| - 1];
      forall k | 0 <= k < |rest| && rest[k].FetchOk?
        ensures After(c, rest[..k]).Some? && rest[k].w < |After(c, rest[..k]).value.workers|
             && After(c, rest[..k]).value.workers[rest[k].w].Fetching?
             && good(After(c, rest[..k]).value.workers[rest[k].w].i, rest[k].payload)
      {
        assert rest[..k] == run[..k] && rest[k] == run[k];
      }
      FileGoodAlways(c, rest, good);
      InvAlways(c, rest);
      FileGoodStep(c, After(c, rest).value, run[|run| - 1], good);
    }
  }

  ghost predicate GoodFetches(c: Config, run: seq<Event>, good: (nat, Bytes) -> bool)
    requires c.Valid()
  {
    forall k | 0 <= k < |run| && run[k].FetchOk? ::
      var before := After(c, run[..k]);
      && before.Some? && run[k].w < |before.value.workers| && before.value.workers[run[k].w].Fetching?
      && good(before.value.workers[run[k].w].i, run[k].payload)
  }

  /** One of the run's fetches delivered `data` for chunk `i`. */
  ghost predicate Delivered(c: Config, run: seq<Event>, i: nat, data: Bytes)
    requires c.Valid()
  {
    exists k :: 0 <= k < |run| && DeliveredAt(c, run, k, i, data)
  }

  ghost predicate DeliveredAt(c: Config, run: seq<Event>, k: nat, i: nat, data: Bytes)
    requires c.Valid() && k < |run|
  {
    var before := After(c, run[..k]);
    && before.Some? && run[k].FetchOk? && run[k].w < |before.value.workers|
    && before.value.workers[run[k].w].Fetching? && before.value.workers[run[k].w].i == i
    && run[k].payload == data
  }

  lemma {:induction false} PrefixPossible(c: Config, run: seq<Event>, k: nat)
    requires c.Valid() && k <= |run| && After(c, run).Some?
    ensures After(c, run[..k]).Some?
    decreases |run|
  {
    if k == |run| {
      assert run[..k] == run;
    } else {
      PrefixPossible(c, run[..|run| - 1], k);
      assert run[..|run| - 1][..k] == run[..k];
    }
  }

  /** The published file consists of data that successful fetches delivered. */
  lemma SuccessWasFetched(c: Config, run: seq<Event>, i: nat)
    requires c.Valid() && After(c, run).Some? && Succeeds(After(c, run).value) && !c.isMain
    requires i < c.Count()
    ensures |After(c, run).value.file| == c.size
    ensures Delivered(c, run, i, Range(After(c, run).value.file, i))
  {
    var good := (j: nat, data: Bytes) => Delivered(c, run, j, data);
    forall k | 0 <= k < |run| && run[k].FetchOk?
      ensures
        var before := After(c, run[..k]);
        && before.Some? && run[k].w < |before.value.workers| && before.value.workers[run[k].w].Fetching?
        && good(before.value.workers[run[k].w].i, run[k].payload)
    {
      PrefixPossible(c, run, k + 1);
      assert run[..k + 1][..k] == run[..k] && run[..k + 1][k] == run[k];
      var before := After(c, run[..k]).value;
      assert DeliveredAt(c, run, k, before.workers[run[k].w].i, run[k].payload);
    }
    FileGoodAlways(c, run, good);
    SuccessIsComplete(c, run);
  }
}
