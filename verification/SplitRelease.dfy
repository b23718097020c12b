/** Runs of the connection pool in which the permit returned by release is taken by another
    thread before the socket reaches the idle channel. */
module SplitRelease {
  import opened Outcomes
  import opened ConnPool
  import opened ConnPoolLoad

  const A := "a"

  /** An open pool for one socket per address, used by threads 1 and 2. */
  function TwoThreads(permits: nat, idle: seq<Conn>, mutex: Option<Tid>,
                      borrowed: map<Conn, string>, dialled: map<Conn, string>,
                      one: Pc, two: Pc): Pool {
    Pool(1, false, mutex, map[A := Bucket(permits, idle)], borrowed, dialled, {}, map[1 := one, 2 := two])
  }

  ghost predicate Leads(p: Pool, e: Event, q: Pool) {
    Enabled(p, e) && Next(p, e) == q
  }

  lemma Step(run: seq<Event>, p: Pool, e: Event, q: Pool)
    requires After(1, run) == Some(p) && Leads(p, e, q)
    ensures After(1, run + [e]) == Some(q)
  {
    assert (run + [e])[..|run|] == run;
  }

  lemma BothEnter() returns (run: seq<Event>)
    ensures After(1, run) == Some(TwoThreads(0, [], None, map[], map[], Acquiring(A), Acquiring(A)))
  {
    var p0 := New(1);
    var p1 := p0.(buckets := map[A := Bucket(0, [])], threads := map[1 := Acquiring(A)]);
    var p2 := TwoThreads(0, [], None, map[], map[], Acquiring(A), Acquiring(A));
    assert After(1, []) == Some(p0);
    Step([], p0, Enter(1, A), p1);
    run := [] + [Enter(1, A)];
    assert p1.threads[2 := Acquiring(A)] == p2.threads;
    Step(run, p1, Enter(2, A), p2);
    run := run + [Enter(2, A)];
  }

  lemma OneDials() returns (run: seq<Event>)
    ensures After(1, run) == Some(TwoThreads(1, [], None, map[], map[], Dialling(A), Acquiring(A)))
  {
    run := BothEnter();
    hide After, Leads, TwoThreads;
    OneAcquires();
    OneFindsNone();
    var q := TwoThreads(1, [], None, map[], map[], Scanning(A), Acquiring(A));
    Step(run, TwoThreads(0, [], None, map[], map[], Acquiring(A), Acquiring(A)), Acquire(1), q);
    run := run + [Acquire(1)];
    Step(run, q, NoIdle(1), TwoThreads(1, [], None, map[], map[], Dialling(A), Acquiring(A)));
    run := run + [NoIdle(1)];
  }

  lemma OneAcquires()
    ensures Leads(TwoThreads(0, [], None, map[], map[], Acquiring(A), Acquiring(A)), Acquire(1),
                  TwoThreads(1, [], None, map[], map[], Scanning(A), Acquiring(A)))
  {
  }

  lemma OneFindsNone()
    ensures Leads(TwoThreads(1, [], None, map[], map[], Scanning(A), Acquiring(A)), NoIdle(1),
                  TwoThreads(1, [], None, map[], map[], Dialling(A), Acquiring(A)))
  {
  }

  lemma OneBorrows() returns (run: seq<Event>)
    ensures After(1, run) == Some(TwoThreads(1, [], None, map[0 := A], map[0 := A], Using(A, 0), Acquiring(A)))
  {
    run := OneDials();
    hide After, Leads, TwoThreads;
    var d := map[0 := A];
    OneConnects();
    OneRegisters();
    var q := TwoThreads(1, [], None, map[], d, Registering(A, 0), Acquiring(A));
    Step(run, TwoThreads(1, [], None, map[], map[], Dialling(A), Acquiring(A)), DialOk(1, 0), q);
    run := run + [DialOk(1, 0)];
    Step(run, q, Register(1), TwoThreads(1, [], None, d, d, Using(A, 0), Acquiring(A)));
    run := run + [Register(1)];
  }

  lemma OneConnects()
    ensures Leads(TwoThreads(1, [], None, map[], map[], Dialling(A), Acquiring(A)), DialOk(1, 0),
                  TwoThreads(1, [], None, map[], map[0 := A], Registering(A, 0), Acquiring(A)))
  {
  }

  lemma OneRegisters()
    ensures Leads(TwoThreads(1, [], None, map[], map[0 := A], Registering(A, 0), Acquiring(A)), Register(1),
                  TwoThreads(1, [], None, map[0 := A], map[0 := A], Using(A, 0), Acquiring(A)))
  {
  }

  lemma OneReleases() returns (run: seq<Event>)
    ensures After(1, run)
         == Some(TwoThreads(1, [], Some(1), map[], map[0 := A], Unpermitting(A, 0, true), Acquiring(A)))
  {
    run := OneBorrows();
    hide After, Leads, TwoThreads;
    var d := map[0 := A];
    OnePuts();
    OneLocks();
    var q := TwoThreads(1, [], None, d, d, Returning(A, 0, true), Acquiring(A));
    Step(run, TwoThreads(1, [], None, d, d, Using(A, 0), Acquiring(A)), Put(1, true), q);
    run := run + [Put(1, true)];
    Step(run, q, LockRelease(1), TwoThreads(1, [], Some(1), map[], d, Unpermitting(A, 0, true), Acquiring(A)));
    run := run + [LockRelease(1)];
  }

  lemma OnePuts()
    ensures
      var d := map[0 := A];
      Leads(TwoThreads(1, [], None, d, d, Using(A, 0), Acquiring(A)), Put(1, true),
            TwoThreads(1, [], None, d, d, Returning(A, 0, true), Acquiring(A)))
  {
  }

  lemma OneLocks()
    ensures
      var d := map[0 := A];
      Leads(TwoThreads(1, [], None, d, d, Returning(A, 0, true), Acquiring(A)), LockRelease(1),
            TwoThreads(1, [], Some(1), map[], d, Unpermitting(A, 0, true), Acquiring(A)))
  {
    var d := map[0 := A];
    assert d - {0} == map[];
  }

  lemma OneReturnsPermit() returns (run: seq<Event>)
    ensures After(1, run)
         == Some(TwoThreads(0, [], Some(1), map[], map[0 := A], Storing(A, 0, true), Acquiring(A)))
  {
    run := OneReleases();
    hide After, Leads, TwoThreads;
    OneUnpermits();
    Step(run, TwoThreads(1, [], Some(1), map[], map[0 := A], Unpermitting(A, 0, true), Acquiring(A)),
         ReturnPermit(1), TwoThreads(0, [], Some(1), map[], map[0 := A], Storing(A, 0, true), Acquiring(A)));
    run := run + [ReturnPermit(1)];
  }

  lemma OneUnpermits()
    ensures Leads(TwoThreads(1, [], Some(1), map[], map[0 := A], Unpermitting(A, 0, true), Acquiring(A)),
                  ReturnPermit(1),
                  TwoThreads(0, [], Some(1), map[], map[0 := A], Storing(A, 0, true), Acquiring(A)))
  {
  }

  lemma TwoAcquires()
    ensures Leads(TwoThreads(0, [], Some(1), map[], map[0 := A], Storing(A, 0, true), Acquiring(A)), Acquire(2),
                  TwoThreads(1, [], Some(1), map[], map[0 := A], Storing(A, 0, true), Scanning(A)))
  {
  }

  lemma TwoFindsNone()
    ensures Leads(TwoThreads(1, [], Some(1), map[], map[0 := A], Storing(A, 0, true), Scanning(A)), NoIdle(2),
                  TwoThreads(1, [], Some(1), map[], map[0 := A], Storing(A, 0, true), Dialling(A)))
  {
  }

  /** Thread 2 starts dialling between the two halves of the release by thread 1. */
  lemma TwoSlipsIn() returns (run: seq<Event>)
    ensures After(1, run)
         == Some(TwoThreads(1, [], Some(1), map[], map[0 := A], Storing(A, 0, true), Dialling(A)))
  {
    run := OneReturnsPermit();
    hide After, Leads, TwoThreads;
    var d := map[0 := A];
    TwoAcquires();
    TwoFindsNone();
    var q := TwoThreads(1, [], Some(1), map[], d, Storing(A, 0, true), Scanning(A));
    Step(run, TwoThreads(0, [], Some(1), map[], d, Storing(A, 0, true), Acquiring(A)), Acquire(2), q);
    run := run + [Acquire(2)];
    Step(run, q, NoIdle(2), TwoThreads(1, [], Some(1), map[], d, Storing(A, 0, true), Dialling(A)));
    run := run + [NoIdle(2)];
  }

  lemma StoresOne()
    ensures
      var d := map[0 := A];
      Leads(TwoThreads(1, [], Some(1), map[], d, Storing(A, 0, true), Dialling(A)), Store(1, true),
            TwoThreads(1, [0], None, map[], d, Done, Dialling(A)))
  {
    var d := map[0 := A];
    var p := TwoThreads(1, [], Some(1), map[], d, Storing(A, 0, true), Dialling(A));
    var q := Next(p, Store(1, true));
    var before: seq<Conn> := [];
    assert BucketOf(p, A) == Bucket(1, before) && before + [0] == [0];
    assert q.buckets == map[A := Bucket(1, [0])];
    assert q.threads == map[1 := Done, 2 := Dialling(A)];
  }

  lemma OneStores() returns (run: seq<Event>)
    ensures After(1, run) == Some(TwoThreads(1, [0], None, map[], map[0 := A], Done, Dialling(A)))
  {
    run := TwoSlipsIn();
    hide After, Leads, TwoThreads;
    StoresOne();
    Step(run, TwoThreads(1, [], Some(1), map[], map[0 := A], Storing(A, 0, true), Dialling(A)), Store(1, true),
         TwoThreads(1, [0], None, map[], map[0 := A], Done, Dialling(A)));
    run := run + [Store(1, true)];
  }

  /** With the permit return as a step of its own the bound on the sum fails: one socket is idle
      while another is being dialled, under a maximum of one. */
  lemma SplitReleaseExceedsLoad()
    ensures exists run :: After(1, run).Some? && Load(After(1, run).value, A) == After(1, run).value.max + 1
  {
    var run := OneStores();
    var p := TwoThreads(1, [0], None, map[], map[0 := A], Done, Dialling(A));
    hide After;
    assert 2 in EngagedThreads(p.threads, A);
    LoadWithinOneMore(1, run, A);
    assert Load(After(1, run).value, A) == After(1, run).value.max + 1;
  }

  // ----- The socket that finds no room -----

  lemma TwoBorrows() returns (run: seq<Event>)
    ensures
      var d := map[0 := A, 1 := A];
      After(1, run) == Some(TwoThreads(1, [0], None, map[1 := A], d, Done, Using(A, 1)))
  {
    run := OneStores();
    hide After, Leads, TwoThreads;
    var d := map[0 := A, 1 := A];
    TwoConnects();
    TwoRegisters();
    var q := TwoThreads(1, [0], None, map[], d, Done, Registering(A, 1));
    Step(run, TwoThreads(1, [0], None, map[], map[0 := A], Done, Dialling(A)), DialOk(2, 1), q);
    run := run + [DialOk(2, 1)];
    Step(run, q, Register(2), TwoThreads(1, [0], None, map[1 := A], d, Done, Using(A, 1)));
    run := run + [Register(2)];
  }

  lemma TwoConnects()
    ensures Leads(TwoThreads(1, [0], None, map[], map[0 := A], Done, Dialling(A)), DialOk(2, 1),
                  TwoThreads(1, [0], None, map[], map[0 := A, 1 := A], Done, Registering(A, 1)))
  {
  }

  lemma TwoRegisters()
    ensures
      var d := map[0 := A, 1 := A];
      Leads(TwoThreads(1, [0], None, map[], d, Done, Registering(A, 1)), Register(2),
            TwoThreads(1, [0], None, map[1 := A], d, Done, Using(A, 1)))
  {
  }

  lemma TwoReleases() returns (run: seq<Event>)
    ensures
      var d := map[0 := A, 1 := A];
      After(1, run) == Some(TwoThreads(1, [0], Some(2), map[], d, Done, Unpermitting(A, 1, true)))
  {
    run := TwoBorrows();
    hide After, Leads, TwoThreads;
    var d, b := map[0 := A, 1 := A], map[1 := A];
    TwoPuts();
    TwoLocks();
    var q := TwoThreads(1, [0], None, b, d, Done, Returning(A, 1, true));
    Step(run, TwoThreads(1, [0], None, b, d, Done, Using(A, 1)), Put(2, true), q);
    run := run + [Put(2, true)];
    Step(run, q, LockRelease(2), TwoThreads(1, [0], Some(2), map[], d, Done, Unpermitting(A, 1, true)));
    run := run + [LockRelease(2)];
  }

  lemma TwoPuts()
    ensures
      var d, b := map[0 := A, 1 := A], map[1 := A];
      Leads(TwoThreads(1, [0], None, b, d, Done, Using(A, 1)), Put(2, true),
            TwoThreads(1, [0], None, b, d, Done, Returning(A, 1, true)))
  {
  }

  lemma TwoLocks()
    ensures
      var d, b := map[0 := A, 1 := A], map[1 := A];
      Leads(TwoThreads(1, [0], None, b, d, Done, Returning(A, 1, true)), LockRelease(2),
            TwoThreads(1, [0], Some(2), map[], d, Done, Unpermitting(A, 1, true)))
  {
    var b := map[1 := A];
    assert b - {1} == map[];
  }

  lemma TwoReturnsPermit()
    ensures
      var d := map[0 := A, 1 := A];
      Leads(TwoThreads(1, [0], Some(2), map[], d, Done, Unpermitting(A, 1, true)), ReturnPermit(2),
            TwoThreads(0, [0], Some(2), map[], d, Done, Storing(A, 1, true)))
  {
  }

  /** The pool is open and the socket may be reused and is usable, but is closed. */
  ghost predicate ClosesUsable(p: Pool, t: Tid, c: Conn) {
    && At(p, t) == Storing(A, c, true) && !p.closed
    && Enabled(p, Store(t, true)) && c !in p.shut && c in Next(p, Store(t, true)).shut
  }

  lemma TwoFindsNoRoom()
    ensures ClosesUsable(TwoThreads(0, [0], Some(2), map[], map[0 := A, 1 := A], Done, Storing(A, 1, true)), 2, 1)
  {
  }

  /** The second socket, still usable, finds the idle channel full and is closed. */
  lemma SplitReleaseClosesUsableSocket()
    ensures exists run, t, c :: After(1, run).Some? && ClosesUsable(After(1, run).value, t, c)
  {
    var run := TwoReleases();
    hide After, Leads, TwoThreads, ClosesUsable;
    var d := map[0 := A, 1 := A];
    TwoReturnsPermit();
    TwoFindsNoRoom();
    Step(run, TwoThreads(1, [0], Some(2), map[], d, Done, Unpermitting(A, 1, true)), ReturnPermit(2),
         TwoThreads(0, [0], Some(2), map[], d, Done, Storing(A, 1, true)));
    run := run + [ReturnPermit(2)];
    assert ClosesUsable(After(1, run).value, 2, 1);
  }
}
