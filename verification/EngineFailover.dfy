/** A chunk is given up only after three attempts, each of which went through every source. */
module EngineFailover {
  import opened Outcomes
  import opened Chunks
  import opened Engine
  import EngineProgress
  import EngineSafety

  // ----- What a worker went through -----

  /** One fetch that failed: the source it was sent to, and the chunk it was for. */
  datatype Try = Try(from: string, chunk: nat)

  /** One attempt: the tracker did not answer, or it answered and these fetches failed. */
  datatype Attempt = Untold | Told(reply: seq<string>, location: string, failed: seq<Try>)

  /** A worker's attempts for the chunk it claimed last, as its events show them. */
  datatype History = History(chunk: nat, attempts: seq<Attempt>)

  function WithTry(h: History, at: Worker): History {
    if h.attempts == [] || h.attempts[|h.attempts| - 1].Untold? || !at.Fetching? then h
    else
      var last := h.attempts[|h.attempts| - 1];
      h.(attempts := h.attempts[..|h.attempts| - 1] + [last.(failed := last.failed + [Try(at.from, at.i)])])
  }

  /** The history after an event that found the worker at this place. */
  function Recorded(h: History, e: Event, at: Worker): History {
    match e
    case Claim(_) => if at.Received? then History(at.i, []) else h
    case AskError(_) => h.(attempts := h.attempts + [Untold])
    case AskOk(_, reply, location) => h.(attempts := h.attempts + [Told(reply, location, [])])
    case FetchError(_, _) => WithTry(h, at)
    case _ => h
  }

  predicate Concerns(e: Event, w: nat) {
    match e
    case Claim(v) => v == w
    case AskError(v) => v == w
    case AskOk(v, _, _) => v == w
    case FetchError(v, _) => v == w
    case _ => false
  }

  ghost function HistoryOf(c: Config, run: seq<Event>, w: nat): History
    requires c.Valid()
  {
    if run == [] then History(0, [])
    else
      var rest, e := run[..|run| - 1], run[|run| - 1];
      var before := After(c, rest);
      if Concerns(e, w) && before.Some? && w < |before.value.workers|
      then Recorded(HistoryOf(c, rest, w), e, before.value.workers[w])
      else HistoryOf(c, rest, w)
  }

  // ----- What an attempt must have tried -----

  function Listed(reply: seq<string>, location: string): seq<string> {
    if reply == [] then [location] else reply
  }

  /** An empty address stands for the central source. */
  predicate IsCentral(central: string, source: string) {
    source == "" || source == central
  }

  /** The failed fetches were for the chunk, from the listed sources in their order, and then
      from the central one if it was not among them. */
  ghost predicate TriedAll(central: string, a: Attempt, chunk: nat) {
    a.Told? ==>
      var listed := Listed(a.reply, a.location);
      var known := exists k :: 0 <= k < |listed| && IsCentral(central, listed[k]);
      && |a.failed| == |listed| + (if known then 0 else 1)
      && (forall k :: 0 <= k < |listed| ==> a.failed[k] == Try(listed[k], chunk))
      && (!known ==> a.failed[|listed|] == Try("", chunk))
  }

  ghost predicate AllTriedAll(central: string, h: History) {
    forall k :: 0 <= k < |h.attempts| ==> TriedAll(central, h.attempts[k], h.chunk)
  }

  // ----- The invariant -----

  function Tries(sources: seq<string>, chunk: nat): seq<Try> {
    seq(|sources|, k requires 0 <= k < |sources| => Try(sources[k], chunk))
  }

  /** The last attempt still has these sources before it. */
  ghost predicate UnderWay(central: string, h: History, left: seq<string>) {
    && h.attempts != []
    && var last := h.attempts[|h.attempts| - 1];
    && last.Told?
    && last.failed + Tries(left, h.chunk) == Tries(Candidates(central, last.reply, last.location), h.chunk)
    && AllTriedAll(central, h.(attempts := h.attempts[..|h.attempts| - 1]))
  }

  /** The place of a worker agrees with what it went through. */
  ghost predicate Fits(central: string, at: Worker, h: History) {
    match at
    case Attempting(i, a) => Between(central, h, i, a)
    case Asking(i, a) => Between(central, h, i, a)
    case Trying(i, a, sources) => Within(central, h, i, a, sources)
    case Fetching(i, a, from, rest) => Within(central, h, i, a, [from] + rest)
    case Missed(i, a) => a < MAX_ATTEMPTS && Complete(central, h, i, a + 1)
    case Failing(i) => Complete(central, h, i, MAX_ATTEMPTS)
    case _ => true
  }

  /** So many attempts for the chunk are over, and each tried everything. */
  ghost predicate Complete(central: string, h: History, i: nat, n: nat) {
    h.chunk == i && |h.attempts| == n && AllTriedAll(central, h)
  }

  ghost predicate Between(central: string, h: History, i: nat, a: nat) {
    a < MAX_ATTEMPTS && Complete(central, h, i, a)
  }

  ghost predicate Within(central: string, h: History, i: nat, a: nat, left: seq<string>) {
    && h.chunk == i && a < MAX_ATTEMPTS && |h.attempts| == a + 1
    && left != [] && UnderWay(central, h, left)
  }

  // ----- Steps of one worker -----

  lemma UntoldKeeps(central: string, h: History)
    requires AllTriedAll(central, h)
    ensures AllTriedAll(central, h.(attempts := h.attempts + [Untold]))
  {
    hide TriedAll;
    assert TriedAll(central, Untold, h.chunk) by {
      UntoldTriedAll(central, h.chunk);
    }
  }

  lemma UntoldTriedAll(central: string, chunk: nat)
    ensures TriedAll(central, Untold, chunk)
  {
  }

  lemma ToldBegins(central: string, h: History, reply: seq<string>, location: string)
    requires AllTriedAll(central, h)
    ensures UnderWay(central, h.(attempts := h.attempts + [Told(reply, location, [])]),
                     Candidates(central, reply, location))
  {
    hide AllTriedAll, Candidates;
    var next := h.(attempts := h.attempts + [Told(reply, location, [])]);
    assert next.attempts[..|next.attempts| - 1] == h.attempts;
    var none: seq<Try> := [];
    var all := Tries(Candidates(central, reply, location), h.chunk);
    assert none + all == all;
  }

  /** After the last source the failed fetches are those of the whole list. */
  lemma WholeListTried(central: string, a: Attempt, chunk: nat)
    requires a.Told? && a.failed == Tries(Candidates(central, a.reply, a.location), chunk)
    ensures TriedAll(central, a, chunk)
  {
    CandidatesKeepOrder(central, a.reply, a.location);
  }

  lemma TriesOf(from: string, rest: seq<string>, chunk: nat)
    ensures Tries([from] + rest, chunk) == [Try(from, chunk)] + Tries(rest, chunk)
    ensures rest == [] ==> Tries(rest, chunk) == []
  {
  }

  /** One more failed fetch. */
  lemma TryFails(central: string, h: History, at: Worker)
    requires at.Fetching? && at.i == h.chunk && UnderWay(central, h, [at.from] + at.rest)
    ensures |WithTry(h, at).attempts| == |h.attempts| && WithTry(h, at).chunk == h.chunk
    ensures at.rest != [] ==> UnderWay(central, WithTry(h, at), at.rest)
    ensures at.rest == [] ==> AllTriedAll(central, WithTry(h, at))
  {
    hide TriedAll, Candidates, Tries;
    var n := |h.attempts| - 1;
    var last, next := h.attempts[n], WithTry(h, at);
    var tried := last.failed + [Try(at.from, at.i)];
    TriesOf(at.from, at.rest, h.chunk);
    assert next.attempts[..n] == h.attempts[..n];
    assert last.failed + ([Try(at.from, at.i)] + Tries(at.rest, h.chunk)) == tried + Tries(at.rest, h.chunk);
    if at.rest == [] {
      assert tried + Tries(at.rest, h.chunk) == tried;
      WholeListTried(central, next.attempts[n], h.chunk);
      assert next.attempts == h.attempts[..n] + [next.attempts[n]];
    }
  }

  lemma ClaimFits(c: Config, s: State, w: nat, h: History)
    requires c.Valid() && Enabled(c, s, Claim(w))
    ensures Next(c, s, Claim(w)).workers[w].Waiting? ||
            Next(c, s, Claim(w)).workers[w] == Attempting(s.workers[w].i, 0)
    ensures Fits(c.central, Next(c, s, Claim(w)).workers[w], Recorded(h, Claim(w), s.workers[w]))
  {
  }

  lemma WhereFetchErrorLeads(c: Config, s: State, w: nat, partial: Bytes)
    requires c.Valid() && Enabled(c, s, FetchError(w, partial))
    ensures
      var next := Next(c, s, FetchError(w, partial)).workers;
      && w < |s.workers| && w < |next|
      && var at := s.workers[w];
      && at.Fetching?
      && next[w] == if at.rest == [] then Missed(at.i, at.attempt) else Trying(at.i, at.attempt, at.rest)
  {
  }

  lemma FetchErrorFits(c: Config, s: State, w: nat, partial: Bytes, h: History)
    requires c.Valid() && Enabled(c, s, FetchError(w, partial)) && w < |s.workers| && Fits(c.central, s.workers[w], h)
    ensures
      var next := Next(c, s, FetchError(w, partial)).workers;
      w < |s.workers| && w < |next| && Fits(c.central, next[w], WithTry(h, s.workers[w]))
  {
    hide Enabled, Next, AllTriedAll, UnderWay, WithTry;
    WhereFetchErrorLeads(c, s, w, partial);
    TryFails(c.central, h, s.workers[w]);
  }

  lemma AskFits(c: Config, s: State, e: Event, w: nat, h: History)
    requires c.Valid() && (e.AskOk? || e.AskError?) && e.w == w && Enabled(c, s, e)
    requires Fits(c.central, s.workers[w], h)
    ensures Fits(c.central, Next(c, s, e).workers[w], Recorded(h, e, s.workers[w]))
  {
    UntoldKeeps(c.central, h);
    if e.AskOk? {
      ToldBegins(c.central, h, e.reply, e.location);
    }
    hide AllTriedAll, UnderWay, Candidates;
  }

  /** Steps of the worker that record nothing: it stays with its sources and counts attempts. */
  lemma MoveFits(c: Config, s: State, e: Event, h: History)
    requires EngineSafety.OwnStep(e) && Enabled(c, s, e) && !e.AskOk? && !e.AskError?
    requires Fits(c.central, s.workers[e.w], h)
    ensures Fits(c.central, Move(c, s.workers[e.w], e, s.workDone), h)
  {
    hide AllTriedAll, UnderWay, Candidates;
    if e.NextSource? {
      var sources := s.workers[e.w].sources;
      assert [sources[0]] + sources[1..] == sources;
    }
  }

  lemma PlaceAfterOwnStep(c: Config, s: State, e: Event)
    requires c.Valid() && Enabled(c, s, e) && EngineSafety.OwnStep(e)
    ensures e.w < |s.workers| == |Next(c, s, e).workers|
    ensures Next(c, s, e).workers[e.w] == Move(c, s.workers[e.w], e, s.workDone)
  {
  }

  /** At a new place other than after a claim there is nothing to agree with. */
  lemma NewPlaceFits(c: Config, s: State, e: Event, h: History)
    requires c.Valid() && Enabled(c, s, e) && EngineProgress.NewPlace(e) && !e.Claim? && e.w < |s.workers|
    ensures e.w < |Next(c, s, e).workers|
    ensures Next(c, s, e).workers[e.w] == s.workers[e.w] || Fits(c.central, Next(c, s, e).workers[e.w], h)
  {
    hide AllTriedAll, UnderWay, Candidates;
  }

  /** The other steps record nothing. */
  lemma SilentFits(c: Config, s: State, e: Event, w: nat, h: History)
    requires c.Valid() && Enabled(c, s, e) && !Concerns(e, w) && w < |s.workers|
    requires Fits(c.central, s.workers[w], h)
    ensures w < |Next(c, s, e).workers| && Fits(c.central, Next(c, s, e).workers[w], h)
  {
    hide Enabled, Next, Fits;
    EngineProgress.SameWorkers(c, s, e);
    if Next(c, s, e).workers[w] != s.workers[w] {
      EngineProgress.OnlyOneMoves(c, s, e, w);
      if EngineProgress.NewPlace(e) {
        NewPlaceFits(c, s, e, h);
      } else {
        PlaceAfterOwnStep(c, s, e);
        MoveFits(c, s, e, h);
      }
    }
  }

  lemma FitsStep(c: Config, s: State, e: Event, w: nat, h: History)
    requires c.Valid() && Enabled(c, s, e) && w < |s.workers| && Fits(c.central, s.workers[w], h)
    ensures w < |Next(c, s, e).workers|
    ensures Fits(c.central, Next(c, s, e).workers[w], if Concerns(e, w) then Recorded(h, e, s.workers[w]) else h)
  {
    if Concerns(e, w) {
      match e
      case Claim(_) => ClaimFits(c, s, w, h);
      case AskOk(_, _, _) => AskFits(c, s, e, w, h);
      case AskError(_) => AskFits(c, s, e, w, h);
      case FetchError(_, partial) => FetchErrorFits(c, s, w, partial, h);
    } else {
      SilentFits(c, s, e, w, h);
    }
  }

  lemma {:induction false} FitsAlways(c: Config, run: seq<Event>, w: nat)
    requires c.Valid() && After(c, run).Some? && w < |After(c, run).value.workers|
    ensures Fits(c.central, After(c, run).value.workers[w], HistoryOf(c, run, w))
  {
    if run != [] {
      var rest, e := run[..|run| - 1], run[|run| - 1];
      var before := After(c, rest).value;
      EngineProgress.SameWorkers(c, before, e);
      FitsAlways(c, rest, w);
      hide Fits, Recorded, Enabled, Next;
      FitsStep(c, before, e, w, HistoryOf(c, rest, w));
    }
  }

  // ----- Giving up -----

  /** A failure is recorded only after exactly three attempts for the chunk.  In each of them
      either the tracker did not answer, or every source of its answer, in that order, and the
      central one in any case, was asked for the chunk and failed. */
  lemma FailureMeansExhausted(c: Config, run: seq<Event>, w: nat)
    requires c.Valid() && After(c, run + [RecordFailure(w)]).Some?
    ensures
      var h, before := HistoryOf(c, run, w), After(c, run);
      && before.Some? && w < |before.value.workers| && before.value.workers[w] == Failing(h.chunk)
      && |h.attempts| == 3 && AllTriedAll(c.central, h)
  {
    assert (run + [RecordFailure(w)])[..|run|] == run;
    FitsAlways(c, run, w);
  }

  // ----- When the central source delivers -----

  /** No request to the tracker failed in the run, and no fetch from the central source did. */
  ghost predicate CentralDelivers(c: Config, run: seq<Event>)
    requires c.Valid()
  {
    forall k :: 0 <= k < |run| ==> !run[k].AskError? && !CentralFails(c, run[..k], run[k])
  }

  ghost predicate CentralFails(c: Config, before: seq<Event>, e: Event)
    requires c.Valid()
  {
    e.FetchError? &&
    var s := After(c, before);
    && s.Some? && e.w < |s.value.workers| && s.value.workers[e.w].Fetching?
    && IsCentral(c.central, s.value.workers[e.w].from)
  }

  ghost predicate NoCentralTry(central: string, h: History) {
    forall k :: 0 <= k < |h.attempts| ==> NotCentral(central, h.attempts[k])
  }

  ghost predicate NotCentral(central: string, a: Attempt) {
    a.Told? && forall j :: 0 <= j < |a.failed| ==> !IsCentral(central, a.failed[j].from)
  }

  lemma NoCentralTryNext(central: string, h: History, e: Event, at: Worker)
    requires NoCentralTry(central, h) && !e.AskError?
    requires e.FetchError? && at.Fetching? ==> !IsCentral(central, at.from)
    ensures NoCentralTry(central, Recorded(h, e, at))
  {
    hide IsCentral;
  }

  lemma {:induction false} NoCentralTryAlways(c: Config, run: seq<Event>, w: nat)
    requires c.Valid() && After(c, run).Some? && CentralDelivers(c, run)
    ensures NoCentralTry(c.central, HistoryOf(c, run, w))
  {
    if run != [] {
      var rest, e := run[..|run| - 1], run[|run| - 1];
      forall k | 0 <= k < |rest|
        ensures !rest[k].AskError? && !CentralFails(c, rest[..k], rest[k])
      {
        assert rest[..k] == run[..k] && rest[k] == run[k];
      }
      NoCentralTryAlways(c, rest, w);
      assert !CentralFails(c, run[..|rest|], run[|rest|]);
      hide NoCentralTry, Recorded, Next, Enabled;
      if Concerns(e, w) && w < |After(c, rest).value.workers| {
        NoCentralTryNext(c.central, HistoryOf(c, rest, w), e, After(c, rest).value.workers[w]);
      }
    }
  }

  /** Whatever was tried includes the central source. */
  lemma TriedCentral(central: string, a: Attempt, chunk: nat)
    requires a.Told? && TriedAll(central, a, chunk)
    ensures !NotCentral(central, a)
  {
    var listed := Listed(a.reply, a.location);
    if k :| 0 <= k < |listed| && IsCentral(central, listed[k]) {
      assert a.failed[k].from == listed[k];
    } else {
      assert a.failed[|listed|].from == "";
    }
  }

  lemma OnlyRecordingFails(c: Config, s: State, e: Event)
    requires c.Valid() && Enabled(c, s, e) && s.failure.None? && Next(c, s, e).failure.Some?
    ensures e.RecordFailure?
  {
  }

  /** If the tracker always answers and the central source always delivers, no chunk is given
      up, however the other sources fare. */
  lemma {:induction false} CentralIsEnough(c: Config, run: seq<Event>)
    requires c.Valid() && After(c, run).Some? && CentralDelivers(c, run)
    ensures After(c, run).value.failure.None?
  {
    if run != [] {
      var rest, e := run[..|run| - 1], run[|run| - 1];
      forall k | 0 <= k < |rest|
        ensures !rest[k].AskError? && !CentralFails(c, rest[..k], rest[k])
      {
        assert rest[..k] == run[..k] && rest[k] == run[k];
      }
      CentralIsEnough(c, rest);
      if After(c, run).value.failure.Some? {
        OnlyRecordingFails(c, After(c, rest).value, e);
        assert run == rest + [RecordFailure(e.w)];
        FailureMeansExhausted(c, rest, e.w);
        NoCentralTryAlways(c, rest, e.w);
        var h := HistoryOf(c, rest, e.w);
        TriedCentral(c.central, h.attempts[0], h.chunk);
        assert false;
      }
    }
  }
}
