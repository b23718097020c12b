/** The download engine as a transition system.  A feeder hands chunk indices to up to
    five workers over an unbuffered channel; each worker claims, fetches, retries and
    commits.  A step is one critical section, one channel hand-off, one check of the
    context, or the outcome of one request. */
module Engine {
  import opened Outcomes
  import opened Chunks
  import FeedOrder

  const MAX_WORKERS: nat := 5
  const MAX_ATTEMPTS: nat := 3
  const PRIORITY_CAPACITY: nat := 4
  /** Bound on the sources in one reply of the tracker. */
  const MAX_SOURCES: nat := 3

  /** What a run is given: the file size, the drawn walk, the central address, and whether
      the session it downloads into was marked as a main sender. */
  datatype Config = Config(size: nat, start: nat, step: nat, central: string, isMain: bool) {
    function Count(): nat {
      ChunkNum(size)
    }

    ghost predicate Valid() {
      Count() > 0 ==> start < Count() && FeedOrder.Coprime(step, Count())
    }
  }

  datatype Feeder =
    | Top(n: nat)                    // about to look at the priority channel in round n
    | HoldUrgent(n: nat, urgent: nat) // offering a prefetch request
    | Offering(n: nat)               // offering the walk's own index
    | Closed(n: nat)                 // jobs closed after n rounds

  datatype Worker =
    | Waiting                                                   // ranging over jobs
    | Received(i: nat)
    | Attempting(i: nat, attempt: nat)                          // top of the attempt loop
    | Asking(i: nat, attempt: nat)                              // wantChunk in progress
    | Trying(i: nat, attempt: nat, sources: seq<string>)        // next source to try
    | Fetching(i: nat, attempt: nat, from: string, rest: seq<string>)
    | Fetched(i: nat, n: nat, checksum: int)                    // n bytes saved, not yet added
    | Added(i: nat, n: nat)                                     // in chunkHash, still claimed
    | Missed(i: nat, attempt: nat)                              // attempt failed
    | Failing(i: nat)                                           // attempts used up
    | Cancelling                                                // failure recorded
    | Exited

  datatype State = State(
    feeder: Feeder,
    priority: seq<nat>,
    workers: seq<Worker>,
    claimed: set<nat>,
    chunkHash: map<nat, int>,
    added: multiset<nat>,     // history: indices that AddChunk put into chunkHash
    done: nat,
    received: nat,
    failure: Option<nat>,
    ctxDone: bool,            // the caller's context
    workDone: bool,           // workCtx, derived from it
    file: Bytes)

  function Init(c: Config): State {
    State(
      if c.Count() == 0 then Closed(0) else Top(0),
      [],
      seq(if c.Count() < MAX_WORKERS then c.Count() else MAX_WORKERS, _ => Waiting),
      {}, map[], multiset{}, 0, 0, None, false, false,
      seq(c.size, _ => 0))
  }

  datatype Event =
    // the environment
    | Prefetch(index: int)
    | CtxCancel
    // the feeder
    | TakeUrgent
    | NoUrgent
    | SendUrgent(w: nat)
    | Send(w: nat)
    | BreakFeed
    // the derived context learns that its parent was cancelled
    | Propagate
    // a worker
    | Claim(w: nat)
    | Begin(w: nat)
    | AskOk(w: nat, reply: seq<string>, location: string)
    | AskError(w: nat)
    | NextSource(w: nat)
    | FetchOk(w: nat, payload: Bytes, checksum: int)
    | FetchError(w: nat, partial: Bytes)
    | AddChunk(w: nat)
    | Commit(w: nat)
    | BackOff(w: nat)
    | Interrupted(w: nat)
    | GiveUp(w: nat)
    | RecordFailure(w: nat)
    | CancelWork(w: nat)
    | Drain(w: nat)

  predicate External(e: Event) {
    e.Prefetch? || e.CtxCancel?
  }

  /** HasChunk: a main session claims to have every valid index. */
  predicate HasChunk(c: Config, s: State, i: int) {
    0 <= i < c.Count() && (c.isMain || i in s.chunkHash)
  }

  /** The sources one attempt goes through: those of the reply, or its single location when
      it lists none; the central source is appended when it is not among them.  An empty
      address stands for the central one. */
  function Candidates(central: string, reply: seq<string>, location: string): (r: seq<string>)
    ensures 1 <= |r| <= |reply| + 2
    ensures |reply| >= 1 ==> |r| <= |reply| + 1
    ensures ListsCentral(central, r)
  {
    var listed := if reply == [] then [location] else reply;
    if ListsCentral(central, listed) then listed
    else
      assert (listed + [""])[|listed|] == "";
      listed + [""]
  }

  /** The listed sources keep their order, and the central one comes last exactly if it is not
      among them. */
  lemma CandidatesKeepOrder(central: string, reply: seq<string>, location: string)
    ensures
      var listed, r := if reply == [] then [location] else reply, Candidates(central, reply, location);
      && |r| == |listed| + (if ListsCentral(central, listed) then 0 else 1)
      && (forall k :: 0 <= k < |listed| ==> r[k] == listed[k])
      && (|r| > |listed| ==> r[|listed|] == "")
  {
  }

  predicate ListsCentral(central: string, sources: seq<string>) {
    exists k :: 0 <= k < |sources| && (sources[k] == "" || sources[k] == central)
  }

  predicate WorkerAt(s: State, w: nat) {
    w < |s.workers|
  }

  ghost predicate Enabled(c: Config, s: State, e: Event) {
    match e
    case Prefetch(index) => true
    case CtxCancel => true
    case TakeUrgent => s.feeder.Top? && s.priority != []
    case NoUrgent => s.feeder.Top? && s.priority == []
    case SendUrgent(w) => s.feeder.HoldUrgent? && WorkerAt(s, w) && s.workers[w].Waiting?
    case Send(w) => s.feeder.Offering? && WorkerAt(s, w) && s.workers[w].Waiting?
    case BreakFeed => (s.feeder.HoldUrgent? || s.feeder.Offering?) && s.workDone
    case Propagate => s.ctxDone && !s.workDone
    case Claim(w) => WorkerAt(s, w) && s.workers[w].Received?
    case Begin(w) => WorkerAt(s, w) && s.workers[w].Attempting?
    case AskOk(w, reply, _) => WorkerAt(s, w) && s.workers[w].Asking? && |reply| <= MAX_SOURCES
    case AskError(w) => WorkerAt(s, w) && s.workers[w].Asking?
    case NextSource(w) => WorkerAt(s, w) && s.workers[w].Trying? && s.workers[w].sources != []
    case FetchOk(w, payload, _) =>
      // Save accepts the payload only for a valid index and with the exact length.
      && WorkerAt(s, w) && s.workers[w].Fetching?
      && s.workers[w].i < ChunkNum(|s.file|)
      && |payload| == Len(|s.file|, s.workers[w].i)
    case FetchError(w, partial) =>
      // A failing disk write may leave a prefix of the payload in the chunk's range.
      && WorkerAt(s, w) && s.workers[w].Fetching?
      && (partial != [] ==> s.workers[w].i < ChunkNum(|s.file|) && |partial| <= Len(|s.file|, s.workers[w].i))
    case AddChunk(w) => WorkerAt(s, w) && s.workers[w].Fetched?
    case Commit(w) => WorkerAt(s, w) && s.workers[w].Added?
    case BackOff(w) => WorkerAt(s, w) && s.workers[w].Missed? && s.workers[w].attempt + 1 < MAX_ATTEMPTS
    case Interrupted(w) =>
      WorkerAt(s, w) && s.workers[w].Missed? && s.workers[w].attempt + 1 < MAX_ATTEMPTS && s.workDone
    case GiveUp(w) => WorkerAt(s, w) && s.workers[w].Missed? && s.workers[w].attempt + 1 >= MAX_ATTEMPTS
    case RecordFailure(w) => WorkerAt(s, w) && s.workers[w].Failing?
    case CancelWork(w) => WorkerAt(s, w) && s.workers[w].Cancelling?
    case Drain(w) => WorkerAt(s, w) && s.workers[w].Waiting? && s.feeder.Closed?
  }

  function Goto(s: State, w: nat, pc: Worker): State
    requires WorkerAt(s, w)
  {
    s.(workers := s.workers[w := pc])
  }

  /** Where a worker goes when the step is about its own position only (a failed fetch may
      also have touched the file). */
  function Move(c: Config, at: Worker, e: Event, workDone: bool): Worker {
    match (e, at)
    case (Begin(_), Attempting(i, a)) => if workDone then Exited else Asking(i, a)
    case (AskOk(_, reply, location), Asking(i, a)) => Trying(i, a, Candidates(c.central, reply, location))
    case (AskError(_), Asking(i, a)) => Missed(i, a)
    case (NextSource(_), Trying(i, a, sources)) =>
      if workDone || sources == [] then Exited else Fetching(i, a, sources[0], sources[1..])
    case (FetchError(_, _), Fetching(i, a, _, rest)) => if rest == [] then Missed(i, a) else Trying(i, a, rest)
    case (BackOff(_), Missed(i, a)) => Attempting(i, a + 1)
    case (GiveUp(_), Missed(i, a)) => Failing(i)
    case (Interrupted(_), Missed(_, _)) => Exited
    case (Drain(_), Waiting) => Exited
    case _ => at
  }

  /** The walk's index for round `n`. */
  function Feed(c: Config, n: nat): (i: nat)
    requires c.Valid() && n < c.Count()
    ensures i < c.Count()
  {
    FeedOrder.FeedAt(c.start, c.step, c.Count(), n)
  }

  function NextRound(c: Config, n: nat): Feeder {
    if n + 1 < c.Count() then Top(n + 1) else Closed(n + 1)
  }

  function Write(file: Bytes, i: nat, data: Bytes): (r: Bytes)
    requires data != [] ==> i < ChunkNum(|file|) && |data| <= Len(|file|, i)
    ensures |r| == |file|
  {
    if data == [] then file else Overwrite(file, Offset(i), data)
  }

  ghost function Next(c: Config, s: State, e: Event): State
    requires c.Valid() && Enabled(c, s, e)
  {
    match e
    case Prefetch(index) =>
      if 0 <= index < c.Count() && |s.priority| < PRIORITY_CAPACITY
      then s.(priority := s.priority + [index])
      else s
    case CtxCancel => s.(ctxDone := true)
    case Propagate => s.(workDone := true)
    case TakeUrgent => s.(feeder := HoldUrgent(s.feeder.n, s.priority[0]), priority := s.priority[1..])
    case NoUrgent => s.(feeder := Offering(s.feeder.n))
    case SendUrgent(w) => Goto(s.(feeder := Offering(s.feeder.n)), w, Received(s.feeder.urgent))
    case Send(w) =>
      if s.feeder.n < c.Count()
      then Goto(s.(feeder := NextRound(c, s.feeder.n)), w, Received(Feed(c, s.feeder.n)))
      else s
    case BreakFeed => s.(feeder := Closed(s.feeder.n))
    case Claim(w) =>
      var i := s.workers[w].i;
      if i in s.claimed || HasChunk(c, s, i)
      then Goto(s, w, Waiting)
      else Goto(s.(claimed := s.claimed + {i}), w, Attempting(i, 0))
    case FetchOk(w, payload, checksum) =>
      var i := s.workers[w].i;
      Goto(s.(file := Write(s.file, i, payload)), w, Fetched(i, |payload|, checksum))
    case FetchError(w, partial) =>
      var at := s.workers[w];
      Goto(s.(file := Write(s.file, at.i, partial)), w, Move(c, at, e, s.workDone))
    case AddChunk(w) =>
      var Fetched(i, n, checksum) := s.workers[w];
      Goto(if i in s.chunkHash then s
           else s.(chunkHash := s.chunkHash[i := checksum], added := s.added + multiset{i}),
           w, Added(i, n))
    case Commit(w) =>
      var Added(i, n) := s.workers[w];
      Goto(s.(claimed := s.claimed - {i}, done := s.done + 1, received := s.received + n), w, Waiting)
    case RecordFailure(w) =>
      Goto(s.(failure := if s.failure.None? then Some(s.workers[w].i) else s.failure), w, Cancelling)
    case CancelWork(w) => Goto(s.(workDone := true), w, Exited)
    case _ => Goto(s, e.w, Move(c, s.workers[e.w], e, s.workDone))
  }

  /** The state after a run of events, if each of them was possible when it came. */
  ghost function After(c: Config, run: seq<Event>): Option<State>
    requires c.Valid()
  {
    if run == [] then Some(Init(c))
    else
      var before := After(c, run[..|run| - 1]);
      if before.Some? && Enabled(c, before.value, run[|run| - 1])
      then Some(Next(c, before.value, run[|run| - 1]))
      else None
  }

  /** The feeder has closed `jobs` and `wg.Wait` has returned. */
  ghost predicate Joined(s: State) {
    s.feeder.Closed? && forall w | 0 <= w < |s.workers| :: s.workers[w].Exited?
  }

  /** The checks after the join pass: RunTo goes on to publish the file. */
  ghost predicate Succeeds(s: State) {
    Joined(s) && !s.ctxDone && s.failure.None?
  }
}
