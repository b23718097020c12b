/** What a cancellation stops, and which failure a run reports. */
module EngineOutcome {
  import opened Outcomes
  import opened Engine
  import EngineFailover
  import EngineProgress

  // ----- After a cancellation -----

  predicate Requests(at: Worker) {
    at.Asking? || at.Fetching?
  }

  lemma StaysCancelled(c: Config, s: State, e: Event)
    requires c.Valid() && Enabled(c, s, e) && s.workDone
    ensures Next(c, s, e).workDone
  {
  }

  lemma CancelledMove(c: Config, at: Worker, e: Event)
    requires Move(c, at, e, true) != at
    ensures !Requests(Move(c, at, e, true))
  {
    hide Candidates;
  }

  lemma CancelledNewPlace(c: Config, s: State, e: Event)
    requires c.Valid() && Enabled(c, s, e) && EngineProgress.NewPlace(e) && e.w < |s.workers|
    ensures e.w < |Next(c, s, e).workers|
    ensures Next(c, s, e).workers[e.w] == s.workers[e.w] || !Requests(Next(c, s, e).workers[e.w])
  {
  }

  lemma CancelledStep(c: Config, s: State, e: Event, w: nat)
    requires c.Valid() && Enabled(c, s, e) && s.workDone && w < |s.workers|
    ensures
      var t := Next(c, s, e);
      t.workDone && w < |t.workers| && (Requests(t.workers[w]) ==> t.workers[w] == s.workers[w])
  {
    hide Enabled, Next, Move;
    StaysCancelled(c, s, e);
    EngineProgress.SameWorkers(c, s, e);
    if Next(c, s, e).workers[w] != s.workers[w] {
      EngineProgress.OnlyOneMoves(c, s, e, w);
      if EngineProgress.NewPlace(e) {
        CancelledNewPlace(c, s, e);
      } else if e.FetchError? {
        EngineFailover.WhereFetchErrorLeads(c, s, w, e.partial);
      } else {
        EngineFailover.PlaceAfterOwnStep(c, s, e);
        CancelledMove(c, s.workers[e.w], e);
      }
    }
  }

  /** Once the workers are cancelled no request to the tracker or to a source begins: one that is
      under way was under way then. */
  lemma {:induction false} NothingBegins(c: Config, run: seq<Event>, later: seq<Event>, w: nat)
    requires c.Valid() && After(c, run).Some? && After(c, run).value.workDone
    requires w < |After(c, run).value.workers| && After(c, run + later).Some?
    ensures
      var s, t := After(c, run).value, After(c, run + later).value;
      t.workDone && w < |t.workers| && (Requests(t.workers[w]) ==> t.workers[w] == s.workers[w])
  {
    if later == [] {
      assert run + later == run;
    } else {
      var rest := later[..|later| - 1];
      assert (run + later)[..|run + later| - 1] == run + rest;
      hide Requests, Next, Enabled;
      NothingBegins(c, run, rest, w);
      CancelledStep(c, After(c, run + rest).value, later[|later| - 1], w);
    }
  }

  // ----- The failure that is reported -----

  /** The chunk that a worker gave up first. */
  ghost function FirstGivenUp(c: Config, run: seq<Event>): Option<nat>
    requires c.Valid()
  {
    if run == [] then None
    else
      var rest, e := run[..|run| - 1], run[|run| - 1];
      var s := After(c, rest);
      if FirstGivenUp(c, rest).Some? then FirstGivenUp(c, rest)
      else if e.RecordFailure? && s.Some? && e.w < |s.value.workers| && s.value.workers[e.w].Failing?
      then Some(s.value.workers[e.w].i)
      else None
  }

  lemma FailureStep(c: Config, s: State, e: Event)
    requires c.Valid() && Enabled(c, s, e)
    ensures e.RecordFailure? ==> e.w < |s.workers| && s.workers[e.w].Failing?
    ensures
      Next(c, s, e).failure ==
      if e.RecordFailure? && s.failure.None? then Some(s.workers[e.w].i) else s.failure
  {
  }

  /** A run reports the first failure, and none exactly if no worker gave up. */
  lemma {:induction false} FirstFailureIsReported(c: Config, run: seq<Event>)
    requires c.Valid() && After(c, run).Some?
    ensures After(c, run).value.failure == FirstGivenUp(c, run)
  {
    if run != [] {
      var rest := run[..|run| - 1];
      hide Next, Enabled;
      FirstFailureIsReported(c, rest);
      FailureStep(c, After(c, rest).value, run[|run| - 1]);
    }
  }

  // ----- Prefetch requests -----

  /** How many prefetch requests the feeder took up. */
  function Taken(run: seq<Event>): nat {
    if run == [] then 0 else Taken(run[..|run| - 1]) + if run[|run| - 1] == TakeUrgent then 1 else 0
  }

  /** The accepted prefetch requests in order: for a chunk of the file, while fewer than four are
      waiting. */
  function Accepted(count: nat, run: seq<Event>): seq<nat> {
    if run == [] then []
    else
      var rest, before := run[..|run| - 1], Accepted(count, run[..|run| - 1]);
      match run[|run| - 1]
      case Prefetch(index) => if 0 <= index < count && |before| - Taken(rest) < 4 then before + [index] else before
      case _ => before
  }

  lemma UrgentStep(c: Config, s: State, e: Event)
    requires c.Valid() && Enabled(c, s, e)
    ensures
      var t := Next(c, s, e);
      && (e.Prefetch? ==>
            t.priority == (if 0 <= e.index < c.Count() && |s.priority| < 4 then s.priority + [e.index] else s.priority))
      && (e == TakeUrgent ==>
            s.priority != [] && t.priority == s.priority[1..]
            && t.feeder.HoldUrgent? && t.feeder.urgent == s.priority[0])
      && (!e.Prefetch? && e != TakeUrgent ==> t.priority == s.priority)
      && (e != TakeUrgent && t.feeder.HoldUrgent? ==> s.feeder.HoldUrgent? && t.feeder.urgent == s.feeder.urgent)
  {
  }

  /** Prefetch requests wait in the order of their arrival, and the feeder offers the one it took
      up last. */
  lemma {:induction false} UrgentIsQueue(c: Config, run: seq<Event>)
    requires c.Valid() && After(c, run).Some?
    ensures
      var s, taken, accepted := After(c, run).value, Taken(run), Accepted(c.Count(), run);
      && taken <= |accepted| && s.priority == accepted[taken..]
      && (s.feeder.HoldUrgent? ==> taken > 0 && s.feeder.urgent == accepted[taken - 1])
  {
    if run != [] {
      var rest := run[..|run| - 1];
      hide Next, Enabled;
      UrgentIsQueue(c, rest);
      UrgentStep(c, After(c, rest).value, run[|run| - 1]);
    }
  }

  /** The feeder goes on to the walk exactly when no prefetch request is waiting. */
  lemma UrgentFirst(c: Config, run: seq<Event>)
    requires c.Valid() && After(c, run).Some? && After(c, run).value.feeder.Top?
    ensures
      var s, waiting := After(c, run).value, |Accepted(c.Count(), run)| - Taken(run);
      && (Enabled(c, s, NoUrgent) <==> waiting == 0)
      && (Enabled(c, s, TakeUrgent) <==> waiting > 0)
  {
    UrgentIsQueue(c, run);
  }

  /** A worker is handed the prefetch request that is offered, or else the next index of the walk;
      only the latter advances the walk. */
  lemma HandedOver(c: Config, run: seq<Event>, e: Event)
    requires c.Valid() && After(c, run).Some? && Enabled(c, After(c, run).value, e)
    requires e.SendUrgent? || (e.Send? && After(c, run).value.feeder.n < c.Count())
    ensures
      var s, t := After(c, run).value, Next(c, After(c, run).value, e);
      && e.w < |t.workers| && t.workers[e.w].Received?
      && (e.Send? ==> t.workers[e.w].i == Feed(c, s.feeder.n) && t.feeder.n == s.feeder.n + 1)
      && (e.SendUrgent? ==>
            && 0 < Taken(run) <= |Accepted(c.Count(), run)|
            && t.workers[e.w].i == Accepted(c.Count(), run)[Taken(run) - 1]
            && t.feeder.n == s.feeder.n)
  {
    UrgentIsQueue(c, run);
  }
}
