/** How many sockets of one address there can be at once: idle, being dialled, or in use. */
module ConnPoolLoad {
  import opened Integers
  import opened Outcomes
  import opened ConnPool
  import opened ConnPoolSafety

  /** Sockets that are idle, being dialled, or in use. */
  ghost function Load(p: Pool, a: string): nat {
    |BucketOf(p, a).idle| + |EngagedThreads(p.threads, a)|
  }

  /** A thread starts to dial while the maximum number of sockets is already engaged. */
  ghost predicate Overtakes(p: Pool, e: Event, a: string) {
    e.NoIdle? && At(p, e.t).Scanning? && At(p, e.t).addr == a && |EngagedThreads(p.threads, a)| == p.max
  }

  ghost predicate InsideRelease(p: Pool, a: string) {
    exists u: Tid :: At(p, u).Storing? && At(p, u).addr == a
  }

  // ----- One step -----

  /** Starting to dial finds no idle socket and engages one more thread. */
  lemma DialLoad(p: Pool, t: Tid)
    requires Enabled(p, NoIdle(t))
    ensures
      var a := At(p, t).addr;
      && Load(p, a) == |EngagedThreads(p.threads, a)|
      && Load(Next(p, NoIdle(t)), a) == |EngagedThreads(p.threads, a)| + 1
  {
    EngagedAfter(p.threads, t, Dialling(At(p, t).addr), At(p, t).addr);
  }

  /** The other steps keep the idle and engaged sockets in balance. */
  lemma OtherLoadStep(p: Pool, e: Event, a: string)
    requires Enabled(p, e) && !e.Drain? && !(e.TakeIdle? && !e.young) && !(e.NoIdle? && At(p, e.t).addr == a)
    requires e.LockRelease? ==> ThreadOk(p, e.t)
    ensures Next(p, e).threads == p.threads[e.t := At(Next(p, e), e.t)]
    ensures
      var q := Next(p, e);
      |BucketOf(q, a).idle| + (if Engaged(At(q, e.t), a) then 1 else 0)
      <= |BucketOf(p, a).idle| + (if Engaged(At(p, e.t), a) then 1 else 0)
  {
  }

  /** No other step adds to the load. */
  lemma OtherLoad(p: Pool, e: Event, a: string)
    requires Inv(p) && Enabled(p, e) && !(e.NoIdle? && At(p, e.t).addr == a)
    ensures Load(Next(p, e), a) <= Load(p, a)
  {
    var q := Next(p, e);
    EngagedAfter(p.threads, e.t, At(q, e.t), a);
    if e.Drain? || (e.TakeIdle? && !e.young) {
      assert q.threads == p.threads && |BucketOf(q, a).idle| <= |BucketOf(p, a).idle|;
    } else {
      assert ThreadOk(p, e.t);
      OtherLoadStep(p, e, a);
    }
  }

  /** Whoever is engaged holds a permit, except a thread that release has just made give up its
      own; release runs under the mutex, so there is at most one such thread. */
  lemma EngagedHold(p: Pool, t: Tid)
    requires Inv(p) && At(p, t).Scanning?
    ensures
      var a := At(p, t).addr;
      && |EngagedThreads(p.threads, a)| <= p.max
      && (|EngagedThreads(p.threads, a)| == p.max ==> InsideRelease(p, a))
  {
    var a := At(p, t).addr;
    assert BucketOk(p, a) && t in Holders(p.threads, a);
    var others := Holders(p.threads, a) - {t};
    if InsideRelease(p, a) {
      var u: Tid :| At(p, u).Storing? && At(p, u).addr == a;
      assert ThreadOk(p, u);
      forall v | v in EngagedThreads(p.threads, a) ensures v in others + {u} {
        assert ThreadOk(p, v);
      }
      SubsetSize(EngagedThreads(p.threads, a), others + {u});
    } else {
      forall v | v in EngagedThreads(p.threads, a) ensures v in others {
        assert At(p, v) == p.threads[v];
      }
      SubsetSize(EngagedThreads(p.threads, a), others);
    }
  }

  /** From within the bound, the one step that leaves it is a dial while the maximum is engaged,
      and that needs another thread between the two halves of release. */
  lemma OnlyOvertakingExceeds(p: Pool, e: Event, a: string)
    requires Inv(p) && Enabled(p, e) && Load(p, a) <= p.max
    ensures Load(Next(p, e), a) > p.max <==> Overtakes(p, e, a)
    ensures Load(Next(p, e), a) > p.max ==> InsideRelease(p, a)
  {
    if e.NoIdle? && At(p, e.t).addr == a {
      DialLoad(p, e.t);
      EngagedHold(p, e.t);
    } else {
      OtherLoad(p, e, a);
    }
  }

  lemma OneMoreStep(p: Pool, e: Event, a: string)
    requires Inv(p) && Enabled(p, e) && Load(p, a) <= p.max + 1
    ensures Load(Next(p, e), a) <= p.max + 1
  {
    if e.NoIdle? && At(p, e.t).addr == a {
      DialLoad(p, e.t);
      EngagedHold(p, e.t);
    } else {
      OtherLoad(p, e, a);
    }
  }

  // ----- Whole runs -----

  lemma NewLoad(max: nat, a: string)
    ensures Load(New(max), a) == 0
  {
    assert EngagedThreads(New(max).threads, a) == {};
  }

  /** In every run, whatever the schedule, at most one socket more than the maximum. */
  lemma {:induction false} LoadWithinOneMore(max: nat, run: seq<Event>, a: string)
    requires After(max, run).Some?
    ensures Load(After(max, run).value, a) <= After(max, run).value.max + 1
  {
    hide Inv, Enabled, Next, Load;
    if run == [] {
      NewLoad(max, a);
    } else {
      var rest := run[..|run| - 1];
      LoadWithinOneMore(max, rest, a);
      InvAlways(max, rest);
      OneMoreStep(After(max, rest).value, run[|run| - 1], a);
      SameMax(After(max, rest).value, run[|run| - 1]);
    }
  }

  lemma SameMax(p: Pool, e: Event)
    requires Enabled(p, e)
    ensures Next(p, e).max == p.max
  {
  }

  /** At no moment of the run did the load exceed the maximum. */
  ghost predicate AlwaysWithin(max: nat, run: seq<Event>, a: string) {
    forall k :: 0 <= k <= |run| ==> WithinAt(max, run[..k], a)
  }

  ghost predicate WithinAt(max: nat, run: seq<Event>, a: string) {
    After(max, run).Some? && Load(After(max, run).value, a) <= After(max, run).value.max
  }

  /** Some step of the run was a dial while the maximum was engaged. */
  ghost predicate OvertakingRun(max: nat, run: seq<Event>, a: string) {
    exists k :: 0 <= k < |run| && OvertakesAt(max, run[..k], run[k], a)
  }

  ghost predicate OvertakesAt(max: nat, before: seq<Event>, e: Event, a: string) {
    After(max, before).Some? && Overtakes(After(max, before).value, e, a)
  }

  lemma WithinNext(max: nat, run: seq<Event>, a: string)
    requires run != []
    ensures AlwaysWithin(max, run, a) <==> AlwaysWithin(max, run[..|run| - 1], a) && WithinAt(max, run, a)
  {
    hide WithinAt;
    var rest := run[..|run| - 1];
    forall k | 0 <= k <= |rest| ensures rest[..k] == run[..k] {
    }
    assert run[..|run|] == run;
    assert AlwaysWithin(max, run, a) ==> WithinAt(max, run[..|run|], a);
    if AlwaysWithin(max, run, a) {
      forall k | 0 <= k <= |rest| ensures WithinAt(max, rest[..k], a) {
        assert WithinAt(max, run[..k], a);
      }
    }
    if AlwaysWithin(max, rest, a) && WithinAt(max, run, a) {
      forall k | 0 <= k <= |run| ensures WithinAt(max, run[..k], a) {
        assert k <= |rest| ==> WithinAt(max, rest[..k], a);
      }
    }
  }

  lemma OvertakingNext(max: nat, run: seq<Event>, a: string)
    requires run != []
    ensures
      var rest := run[..|run| - 1];
      OvertakingRun(max, run, a) <==> OvertakingRun(max, rest, a) || OvertakesAt(max, rest, run[|rest|], a)
  {
    hide OvertakesAt;
    var rest := run[..|run| - 1];
    forall k | 0 <= k <= |rest| ensures rest[..k] == run[..k] {
    }
    if OvertakingRun(max, rest, a) {
      var k :| 0 <= k < |rest| && OvertakesAt(max, rest[..k], rest[k], a);
      assert OvertakesAt(max, run[..k], run[k], a);
    }
    if OvertakingRun(max, run, a) {
      var k :| 0 <= k < |run| && OvertakesAt(max, run[..k], run[k], a);
      assert k < |rest| ==> OvertakesAt(max, rest[..k], rest[k], a);
    }
    assert OvertakesAt(max, rest, run[|rest|], a) ==> OvertakesAt(max, run[..|rest|], run[|rest|], a);
  }

  /** The load stays within the maximum throughout a run exactly when nobody overtakes. */
  lemma {:induction false} LoadBoundedExactly(max: nat, run: seq<Event>, a: string)
    requires After(max, run).Some?
    ensures AlwaysWithin(max, run, a) <==> !OvertakingRun(max, run, a)
  {
    if run == [] {
      NewLoad(max, a);
      assert run[..0] == run;
    } else {
      hide Inv, Enabled, Next, Load, Overtakes, AlwaysWithin, OvertakingRun;
      var rest, e := run[..|run| - 1], run[|run| - 1];
      LoadBoundedExactly(max, rest, a);
      WithinNext(max, run, a);
      OvertakingNext(max, run, a);
      if AlwaysWithin(max, rest, a) {
        LastWithin(max, rest, a);
        InvAlways(max, rest);
        SameMax(After(max, rest).value, e);
        OnlyOvertakingExceeds(After(max, rest).value, e, a);
      }
    }
  }

  lemma LastWithin(max: nat, run: seq<Event>, a: string)
    requires AlwaysWithin(max, run, a)
    ensures WithinAt(max, run, a)
  {
    assert run[..|run|] == run;
  }

  /** The closing branch of release is taken for lack of room exactly when all idle places are
      full, which is when the load is one above the maximum and nobody else is engaged. */
  lemma ClosesForLackOfRoom(max: nat, run: seq<Event>, t: Tid)
    requires After(max, run).Some? && At(After(max, run).value, t).Storing?
    ensures
      var p := After(max, run).value;
      var a := At(p, t).addr;
      |BucketOf(p, a).idle| >= p.max <==> Load(p, a) > p.max && EngagedThreads(p.threads, a) == {t}
  {
    var p := After(max, run).value;
    var a := At(p, t).addr;
    LoadWithinOneMore(max, run, a);
    assert t in EngagedThreads(p.threads, a);
    if |BucketOf(p, a).idle| >= p.max {
      OnlyMember(EngagedThreads(p.threads, a), t);
    }
  }

  lemma OnlyMember(s: set<Tid>, t: Tid)
    requires t in s && |s| <= 1
    ensures s == {t}
  {
    SizeWithout(s, t);
  }

  // ----- Release as one step -----

  /** While a thread is inside release, nobody else takes a step. */
  ghost predicate ReleaseAlone(p: Pool, e: Event) {
    forall t: Tid :: At(p, t).Unpermitting? || At(p, t).Storing? ==> e.t == t
  }

  ghost predicate AtomicRun(max: nat, run: seq<Event>) {
    forall k | 0 <= k < |run| && After(max, run[..k]).Some? :: ReleaseAlone(After(max, run[..k]).value, run[k])
  }

  /** If release were one step, idle, dialling and borrowed sockets together would never exceed
      the maximum... */
  lemma {:induction false} AtomicReleaseBoundsLoad(max: nat, run: seq<Event>, a: string)
    requires After(max, run).Some? && AtomicRun(max, run)
    ensures Load(After(max, run).value, a) <= After(max, run).value.max
  {
    hide Inv, Enabled, Next, Load;
    if run == [] {
      NewLoad(max, a);
    } else {
      var rest, e := run[..|run| - 1], run[|run| - 1];
      forall k | 0 <= k < |rest| && After(max, rest[..k]).Some?
        ensures ReleaseAlone(After(max, rest[..k]).value, rest[k])
      {
        assert rest[..k] == run[..k];
      }
      AtomicReleaseBoundsLoad(max, rest, a);
      InvAlways(max, rest);
      SameMax(After(max, rest).value, e);
      OnlyOvertakingExceeds(After(max, rest).value, e, a);
    }
  }

  /** ... and a socket that may be reused would always find room in the idle channel. */
  lemma AtomicReleaseFindsRoom(max: nat, run: seq<Event>, t: Tid)
    requires After(max, run).Some? && AtomicRun(max, run) && At(After(max, run).value, t).Storing?
    ensures
      var p := After(max, run).value;
      |BucketOf(p, At(p, t).addr).idle| < p.max
  {
    var p := After(max, run).value;
    var a := At(p, t).addr;
    AtomicReleaseBoundsLoad(max, run, a);
    assert t in EngagedThreads(p.threads, a);
  }
}
