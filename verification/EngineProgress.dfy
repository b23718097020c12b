/** The download engine never gets stuck and always ends. */
module EngineProgress {
  import opened Outcomes
  import opened Chunks
  import opened Engine
  import opened EngineSafety

  /** The most candidates one attempt goes through. */
  const MAX_CANDIDATES: nat := MAX_SOURCES + 1

  // ----- Never stuck -----

  ghost predicate CanMove(c: Config, s: State) {
    exists e :: !External(e) && Enabled(c, s, e)
  }

  lemma BusyWorkerCanMove(c: Config, s: State, w: nat)
    requires w < |s.workers| && !s.workers[w].Waiting? && !s.workers[w].Exited?
    requires s.workers[w].Trying? ==> s.workers[w].sources != []
    ensures CanMove(c, s)
  {
    var e := match s.workers[w]
      case Received(_) => Claim(w)
      case Attempting(_, _) => Begin(w)
      case Asking(_, _) => AskError(w)
      case Trying(_, _, _) => NextSource(w)
      case Fetching(_, _, _, _) => FetchError(w, [])
      case Fetched(_, _, _) => AddChunk(w)
      case Added(_, _) => Commit(w)
      case Missed(_, attempt) => if attempt + 1 < MAX_ATTEMPTS then BackOff(w) else GiveUp(w)
      case Failing(_) => RecordFailure(w)
      case _ => CancelWork(w);
    assert Enabled(c, s, e) && !External(e);
  }

  /** Attempts are numbered below the maximum, and there is always a source to try. */
  ghost predicate Bounded(s: State) {
    forall w :: 0 <= w < |s.workers| ==> WorkerBounded(s.workers[w])
  }

  ghost predicate WorkerBounded(at: Worker) {
    match at
    case Attempting(_, a) => a < MAX_ATTEMPTS
    case Asking(_, a) => a < MAX_ATTEMPTS
    case Trying(_, a, sources) => a < MAX_ATTEMPTS && 1 <= |sources| <= MAX_CANDIDATES
    case Fetching(_, a, _, rest) => a < MAX_ATTEMPTS && |rest| < MAX_CANDIDATES
    case Missed(_, a) => a < MAX_ATTEMPTS
    case _ => true
  }

  /** The step belongs to a worker, rather than to the feeder or the context. */
  predicate WorkerEvent(e: Event) {
    OwnStep(e) || e.FetchError? || NewPlace(e)
  }

  /** Steps after which the worker is at a place without an attempt in it, or at the first. */
  predicate NewPlace(e: Event) {
    || e.SendUrgent? || e.Send? || e.Claim? || e.FetchOk? || e.AddChunk? || e.Commit?
    || e.RecordFailure? || e.CancelWork?
  }

  lemma OnlyOneMoves(c: Config, s: State, e: Event, w: nat)
    requires c.Valid() && Enabled(c, s, e) && w < |s.workers| == |Next(c, s, e).workers|
    requires Next(c, s, e).workers[w] != s.workers[w]
    ensures WorkerEvent(e) && e.w == w
  {
  }

  lemma MoveBounded(c: Config, s: State, e: Event)
    requires (OwnStep(e) || e.FetchError?) && Enabled(c, s, e) && WorkerBounded(s.workers[e.w])
    ensures WorkerBounded(Move(c, s.workers[e.w], e, s.workDone))
  {
  }

  lemma NewPlaceBounded(c: Config, s: State, e: Event)
    requires c.Valid() && Enabled(c, s, e) && NewPlace(e)
    requires WorkerBounded(s.workers[e.w])
    ensures e.w < |Next(c, s, e).workers| && WorkerBounded(Next(c, s, e).workers[e.w])
  {
  }

  lemma MoverBounded(c: Config, s: State, e: Event)
    requires c.Valid() && Enabled(c, s, e) && WorkerEvent(e) && e.w < |s.workers|
    requires WorkerBounded(s.workers[e.w])
    ensures e.w < |Next(c, s, e).workers| && WorkerBounded(Next(c, s, e).workers[e.w])
  {
    if NewPlace(e) {
      NewPlaceBounded(c, s, e);
    } else {
      MoveBounded(c, s, e);
    }
  }

  lemma SameWorkers(c: Config, s: State, e: Event)
    requires c.Valid() && Enabled(c, s, e)
    ensures |Next(c, s, e).workers| == |s.workers|
  {
  }

  lemma BoundedStep(c: Config, s: State, e: Event)
    requires c.Valid() && Bounded(s) && Enabled(c, s, e)
    ensures Bounded(Next(c, s, e))
  {
    var t := Next(c, s, e);
    SameWorkers(c, s, e);
    hide Enabled, Next, WorkerBounded;
    forall w | 0 <= w < |t.workers| ensures WorkerBounded(t.workers[w]) {
      assert WorkerBounded(s.workers[w]);
      if t.workers[w] != s.workers[w] {
        OnlyOneMoves(c, s, e, w);
        MoverBounded(c, s, e);
      }
    }
  }

  lemma {:induction false} BoundedAlways(c: Config, run: seq<Event>)
    requires c.Valid() && After(c, run).Some?
    ensures Bounded(After(c, run).value)
  {
    if run != [] {
      BoundedAlways(c, run[..|run| - 1]);
      BoundedStep(c, After(c, run[..|run| - 1]).value, run[|run| - 1]);
    }
  }

  /** Until the run has joined, some goroutine has a step to take that needs nothing from
      outside but the outcome of its own request. */
  lemma NeverStuck(c: Config, run: seq<Event>)
    requires c.Valid() && After(c, run).Some? && !Joined(After(c, run).value)
    ensures CanMove(c, After(c, run).value)
  {
    var s := After(c, run).value;
    InvAlways(c, run);
    BoundedAlways(c, run);
    if w: nat :| w < |s.workers| && !s.workers[w].Waiting? && !s.workers[w].Exited? {
      assert WorkerBounded(s.workers[w]);
      BusyWorkerCanMove(c, s, w);
    } else if s.feeder.Top? {
      assert Enabled(c, s, if s.priority == [] then NoUrgent else TakeUrgent);
    } else if w: nat :| w < |s.workers| && s.workers[w].Waiting? {
      assert Enabled(c, s, match s.feeder
                           case HoldUrgent(_, _) => SendUrgent(w)
                           case Offering(_) => Send(w)
                           case _ => Drain(w));
    } else {
      // All workers have left although jobs is open: the work was cancelled.
      assert WorkerOk(c, s, s.workers[0]);
      assert Enabled(c, s, BreakFeed);
    }
  }

  // ----- Always ends -----

  /** The steps a job may still take after its current attempt failed. */
  function AfterMiss(attempt: nat): nat {
    if attempt + 1 < MAX_ATTEMPTS then (MAX_ATTEMPTS - 1 - attempt) * 16 + 5 else 5
  }

  function WorkerSteps(at: Worker): nat {
    match at
    case Exited => 0
    case Waiting => 2
    case Added(_, _) => 3
    case Fetched(_, _, _) => 4
    case Cancelling => 3
    case Failing(_) => 4
    case Missed(_, a) => AfterMiss(a)
    case Trying(_, a, sources) => AfterMiss(a) + 2 * |sources|
    case Fetching(_, a, _, rest) => AfterMiss(a) + 2 * |rest| + 1
    case Asking(_, a) => AfterMiss(a) + 9
    case Attempting(_, a) => AfterMiss(a) + 10
    case Received(_) => 48
  }

  function FeederSteps(count: nat, f: Feeder): int {
    match f
    case Top(n) => 100 * (count - n)
    case HoldUrgent(n, _) => 100 * (count - n) - 1
    case Offering(n) => 100 * (count - n) - 48
    case Closed(_) => 0
  }

  function AllWorkerSteps(workers: seq<Worker>): nat {
    if workers == [] then 0 else WorkerSteps(workers[0]) + AllWorkerSteps(workers[1..])
  }

  function StepsLeft(c: Config, s: State): int {
    FeederSteps(c.Count(), s.feeder) + AllWorkerSteps(s.workers) + if s.workDone then 0 else 1
  }

  lemma {:induction false} AllWorkerStepsUpdate(workers: seq<Worker>, w: nat, pc: Worker)
    requires w < |workers|
    ensures AllWorkerSteps(workers[w := pc])
         == AllWorkerSteps(workers) - WorkerSteps(workers[w]) + WorkerSteps(pc)
  {
    if w == 0 {
      assert workers[w := pc][1..] == workers[1..];
    } else {
      assert workers[w := pc][1..] == workers[1..][w - 1 := pc];
      AllWorkerStepsUpdate(workers[1..], w - 1, pc);
    }
  }

  lemma MoveStepsDown(c: Config, s: State, e: Event)
    requires (OwnStep(e) || e.FetchError?) && Enabled(c, s, e) && WorkerBounded(s.workers[e.w])
    ensures WorkerSteps(Move(c, s.workers[e.w], e, s.workDone)) < WorkerSteps(s.workers[e.w])
  {
  }

  predicate SharedStep(e: Event) {
    e.TakeUrgent? || e.NoUrgent? || e.BreakFeed? || e.Propagate?
  }

  lemma SharedStepsDown(c: Config, s: State, e: Event)
    requires c.Valid() && FeederOk(c, s) && SharedStep(e) && Enabled(c, s, e)
    ensures StepsLeft(c, Next(c, s, e)) < StepsLeft(c, s)
  {
  }

  lemma SendStepsDown(c: Config, s: State, e: Event)
    requires c.Valid() && FeederOk(c, s) && (e.Send? || e.SendUrgent?) && Enabled(c, s, e)
    ensures StepsLeft(c, Next(c, s, e)) < StepsLeft(c, s)
  {
    var t := Next(c, s, e);
    AllWorkerStepsUpdate(s.workers, e.w, t.workers[e.w]);
    assert FeederSteps(c.Count(), t.feeder) + 46 < FeederSteps(c.Count(), s.feeder);
  }

  lemma JobStepsDown(c: Config, s: State, e: Event)
    requires e.Claim? || e.FetchOk? || e.AddChunk? || e.Commit? || e.RecordFailure? || e.CancelWork?
    requires c.Valid() && Enabled(c, s, e)
    ensures
      var t := Next(c, s, e);
      && t.feeder == s.feeder && t.workers == s.workers[e.w := t.workers[e.w]]
      && (s.workDone ==> t.workDone)
      && WorkerSteps(t.workers[e.w]) < WorkerSteps(s.workers[e.w])
  {
  }

  lemma OwnStepsDown(c: Config, s: State, e: Event)
    requires OwnStep(e) || e.FetchError?
    requires c.Valid() && Enabled(c, s, e) && WorkerBounded(s.workers[e.w])
    ensures
      var t := Next(c, s, e);
      && t.feeder == s.feeder && t.workers == s.workers[e.w := t.workers[e.w]]
      && (s.workDone ==> t.workDone)
      && WorkerSteps(t.workers[e.w]) < WorkerSteps(s.workers[e.w])
  {
    MoveStepsDown(c, s, e);
  }

  /** Every step other than a prefetch request or a cancellation from outside uses up one of
      finitely many steps; those two leave the number alone. */
  lemma StepsDecrease(c: Config, s: State, e: Event)
    requires c.Valid() && FeederOk(c, s) && Bounded(s) && Enabled(c, s, e)
    ensures External(e) ==> StepsLeft(c, Next(c, s, e)) == StepsLeft(c, s)
    ensures !External(e) ==> StepsLeft(c, Next(c, s, e)) < StepsLeft(c, s)
  {
    if SharedStep(e) {
      SharedStepsDown(c, s, e);
    } else if e.Send? || e.SendUrgent? {
      SendStepsDown(c, s, e);
    } else if !External(e) {
      assert WorkerBounded(s.workers[e.w]);
      if OwnStep(e) || e.FetchError? {
        OwnStepsDown(c, s, e);
      } else {
        JobStepsDown(c, s, e);
      }
      AllWorkerStepsUpdate(s.workers, e.w, Next(c, s, e).workers[e.w]);
    }
  }

  lemma StepsLeftNonNegative(c: Config, s: State)
    requires c.Valid() && Inv(c, s)
    ensures StepsLeft(c, s) >= 0
  {
  }

  function InternalSteps(run: seq<Event>): nat {
    if run == [] then 0
    else InternalSteps(run[..|run| - 1]) + if External(run[|run| - 1]) then 0 else 1
  }

  lemma {:induction false} StepsOfIdleWorkers(workers: seq<Worker>)
    requires forall w :: 0 <= w < |workers| ==> workers[w].Waiting?
    ensures AllWorkerSteps(workers) == 2 * |workers|
  {
    if workers != [] {
      StepsOfIdleWorkers(workers[1..]);
    }
  }

  lemma {:induction false} StepsAccounted(c: Config, run: seq<Event>)
    requires c.Valid() && After(c, run).Some?
    ensures StepsLeft(c, After(c, run).value) + InternalSteps(run) <= 100 * c.Count() + 11
  {
    if run == [] {
      StepsOfIdleWorkers(Init(c).workers);
    } else {
      var rest := run[..|run| - 1];
      StepsAccounted(c, rest);
      InvAlways(c, rest);
      BoundedAlways(c, rest);
      StepsDecrease(c, After(c, rest).value, run[|run| - 1]);
    }
  }

  /** No run takes more steps than this, however the goroutines are scheduled and however
      many prefetch requests arrive.  With NeverStuck, every run that is not abandoned joins. */
  lemma AlwaysEnds(c: Config, run: seq<Event>)
    requires c.Valid() && After(c, run).Some?
    ensures InternalSteps(run) <= 100 * c.Count() + 11
  {
    StepsAccounted(c, run);
    InvAlways(c, run);
    StepsLeftNonNegative(c, After(c, run).value);
  }

  // ----- Hand-offs -----

  function Sends(run: seq<Event>): nat {
    if run == [] then 0
    else
      var e := run[|run| - 1];
      Sends(run[..|run| - 1]) + if e.Send? || e.SendUrgent? then 1 else 0
  }

  function SendsLeft(count: nat, f: Feeder): int {
    match f
    case Top(n) => 2 * (count - n)
    case HoldUrgent(n, _) => 2 * (count - n)
    case Offering(n) => 2 * (count - n) - 1
    case Closed(n) => 0
  }

  lemma OthersKeepFeeder(c: Config, s: State, e: Event)
    requires c.Valid() && Enabled(c, s, e) && !SharedStep(e) && !e.Send? && !e.SendUrgent?
    ensures Next(c, s, e).feeder == s.feeder
  {
  }

  lemma SendsLeftStep(c: Config, s: State, e: Event)
    requires c.Valid() && FeederOk(c, s) && Enabled(c, s, e)
    ensures SendsLeft(c.Count(), Next(c, s, e).feeder) + (if e.Send? || e.SendUrgent? then 1 else 0)
         <= SendsLeft(c.Count(), s.feeder)
  {
    if !SharedStep(e) && !e.Send? && !e.SendUrgent? {
      OthersKeepFeeder(c, s, e);
    }
  }

  lemma {:induction false} SendsAccounted(c: Config, run: seq<Event>)
    requires c.Valid() && After(c, run).Some?
    ensures SendsLeft(c.Count(), After(c, run).value.feeder) + Sends(run) <= 2 * c.Count()
  {
    if run != [] {
      var rest := run[..|run| - 1];
      SendsAccounted(c, rest);
      InvAlways(c, rest);
      SendsLeftStep(c, After(c, rest).value, run[|run| - 1]);
    }
  }

  /** Prefetch requests at most double the number of hand-offs. */
  lemma AtMostTwoSendsPerChunk(c: Config, run: seq<Event>)
    requires c.Valid() && After(c, run).Some?
    ensures Sends(run) <= 2 * c.Count()
  {
    SendsAccounted(c, run);
    InvAlways(c, run);
  }
}
