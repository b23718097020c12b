/** What becomes of a socket that was given back: which ones are handed out again, and in what
    order. */
module ConnPoolReuse {
  import opened Outcomes
  import opened ConnPool
  import opened ConnPoolSafety

  // ----- What a run says about the sockets -----

  /** What a thread gave back when it last called release. */
  datatype Loan = Loan(addr: string, c: Conn, reuse: bool)

  ghost predicate Runs(max: nat, run: seq<Event>) {
    After(max, run).Some?
  }

  lemma RunsBefore(max: nat, run: seq<Event>)
    requires Runs(max, run) && run != []
    ensures Runs(max, run[..|run| - 1])
    ensures Enabled(After(max, run[..|run| - 1]).value, run[|run| - 1])
    ensures After(max, run).value == Next(After(max, run[..|run| - 1]).value, run[|run| - 1])
  {
  }

  ghost function GivenBack(max: nat, run: seq<Event>, t: Tid): Option<Loan>
    requires Runs(max, run)
  {
    if run == [] then None
    else
      var init, e := run[..|run| - 1], run[|run| - 1];
      var at := At(After(max, init).value, t);
      if e == Put(t, true) then Some(Loan(at.addr, at.c, true))
      else if e == Put(t, false) then Some(Loan(at.addr, at.c, false))
      else GivenBack(max, init, t)
  }

  /** The sockets that went into the idle channel of the address, in order: given back for reuse
      to an open pool, still usable, and with room in the channel. */
  ghost function Stored(max: nat, run: seq<Event>, a: string): seq<Conn>
    requires Runs(max, run)
  {
    if run == [] then []
    else
      var init, e := run[..|run| - 1], run[|run| - 1];
      var before := Stored(max, init, a);
      if e.Store? && e.usable && !After(max, init).value.closed &&
         |before| - Taken(max, init, a) < After(max, init).value.max
      then
        match GivenBack(max, init, e.t)
        case Some(Loan(addr, c, true)) => if addr == a then before + [c] else before
        case _ => before
      else before
  }

  /** How many sockets came out of the idle channel of the address. */
  ghost function Taken(max: nat, run: seq<Event>, a: string): nat
    requires Runs(max, run)
  {
    if run == [] then 0
    else
      var init, e := run[..|run| - 1], run[|run| - 1];
      var before := Taken(max, init, a);
      match e
      case TakeIdle(t, _) => if At(After(max, init).value, t).addr == a then before + 1 else before
      case Drain(_, addr) => if addr == a then before + 1 else before
      case _ => before
  }

  predicate Releasing(pc: Pc) {
    pc.Returning? || pc.Unpermitting? || pc.Storing?
  }

  /** Throughout a release the thread has the socket it gave back, with the wish it gave it back
      with. */
  lemma {:induction false} ReleaseKeepsLoan(max: nat, run: seq<Event>, t: Tid)
    requires Runs(max, run)
    ensures
      var pc := At(After(max, run).value, t);
      Releasing(pc) ==> GivenBack(max, run, t) == Some(Loan(pc.addr, pc.c, pc.reuse))
  {
    if run != [] {
      var init, e := run[..|run| - 1], run[|run| - 1];
      RunsBefore(max, run);
      ReleaseKeepsLoan(max, init, t);
      InvAlways(max, init);
      var p := After(max, init).value;
      assert ThreadOk(p, t);
      LoanStep(p, e, t);
      hide Next, Enabled, Inv, ThreadOk;
    }
  }

  lemma LoanStep(p: Pool, e: Event, t: Tid)
    requires ThreadOk(p, t) && Enabled(p, e)
    ensures
      var before, after := At(p, t), At(Next(p, e), t);
      && (Releasing(after) && !(e.Put? && e.t == t) ==>
            && Releasing(before)
            && before.addr == after.addr && before.c == after.c && before.reuse == after.reuse)
      && (e.Put? && e.t == t ==> before.Using? && after == Returning(before.addr, before.c, e.reuse))
  {
    hide BucketOf;
  }

  // ----- The idle channel is a queue -----

  /** An idle channel holds the sockets that were stored and not taken out since, in that order. */
  lemma {:induction false} IdleIsQueue(max: nat, run: seq<Event>, a: string)
    requires Runs(max, run)
    ensures
      && Taken(max, run, a) <= |Stored(max, run, a)|
      && BucketOf(After(max, run).value, a).idle == Stored(max, run, a)[Taken(max, run, a)..]
  {
    if run != [] {
      var init, e := run[..|run| - 1], run[|run| - 1];
      RunsBefore(max, run);
      IdleIsQueue(max, init, a);
      ReleaseKeepsLoan(max, init, e.t);
      var p := After(max, init).value;
      IdleStep(p, e, a);
      hide Next, Enabled, BucketOf;
    }
  }

  lemma IdleStep(p: Pool, e: Event, a: string)
    requires Enabled(p, e)
    ensures
      var before, after := BucketOf(p, a).idle, BucketOf(Next(p, e), a).idle;
      && ((e.TakeIdle? && At(p, e.t).addr == a) || (e.Drain? && e.addr == a) ==>
            before != [] && after == before[1..])
      && (e.Store? && e.usable && !p.closed && |before| < p.max && At(p, e.t).reuse && At(p, e.t).addr == a ==>
            after == before + [At(p, e.t).c])
      && (e.Store? && !(e.usable && !p.closed && |before| < p.max && At(p, e.t).reuse && At(p, e.t).addr == a) ==>
            after == before)
      && (e.TakeIdle? && At(p, e.t).addr != a ==> after == before)
      && (e.Drain? && e.addr != a ==> after == before)
      && (!e.TakeIdle? && !e.Drain? && !e.Store? ==> after == before)
      && (e.Store? ==> At(p, e.t).Storing?)
      && (e.TakeIdle? ==> At(p, e.t).Scanning?)
  {
  }

  /** A release ends with the socket idle exactly if it was given back for reuse, is still usable,
      the pool is open and the channel has room; otherwise the socket is closed. */
  lemma ReleaseDecides(max: nat, run: seq<Event>, t: Tid, usable: bool)
    requires Runs(max, run) && Enabled(After(max, run).value, Store(t, usable))
    ensures
      var p, q := After(max, run).value, Next(After(max, run).value, Store(t, usable));
      GivenBack(max, run, t).Some? &&
      var loan := GivenBack(max, run, t).value;
      && (loan.c in BucketOf(q, loan.addr).idle <==>
            loan.reuse && usable && !p.closed && |BucketOf(p, loan.addr).idle| < p.max)
      && (loan.c !in BucketOf(q, loan.addr).idle <==> loan.c in q.shut)
  {
    var p, q := After(max, run).value, Next(After(max, run).value, Store(t, usable));
    ReleaseKeepsLoan(max, run, t);
    var a, c := At(p, t).addr, At(p, t).c;
    InvAlways(max, run);
    InvStep(p, Store(t, usable));
    NotIdleWhileHeld(p, t, a, c);
    IdleMemberHere(q, a, c);
    IdleStep(p, Store(t, usable), a);
  }

  lemma NotIdleWhileHeld(p: Pool, t: Tid, a: string, c: Conn)
    requires Inv(p) && Held(p, t, c)
    ensures c !in BucketOf(p, a).idle
  {
    assert BucketOk(p, a);
  }

  lemma IdleMemberHere(p: Pool, a: string, c: Conn)
    requires Inv(p)
    ensures c in BucketOf(p, a).idle ==> c !in p.shut
  {
    assert BucketOk(p, a);
  }

  /** A thread that looks for a socket finds the one that was stored first, and none exactly if
      all were taken out; it keeps a young one and closes one that is too old, and looks on. */
  lemma OldestFirst(max: nat, run: seq<Event>, t: Tid, young: bool)
    requires Runs(max, run) && At(After(max, run).value, t).Scanning?
    ensures
      var p := After(max, run).value;
      var a := At(p, t).addr;
      && Taken(max, run, a) <= |Stored(max, run, a)|
      && (Enabled(p, NoIdle(t)) <==> Taken(max, run, a) == |Stored(max, run, a)|)
      && (Enabled(p, TakeIdle(t, young)) <==> Taken(max, run, a) < |Stored(max, run, a)|)
      && (Enabled(p, TakeIdle(t, young)) ==>
            var c, q := Stored(max, run, a)[Taken(max, run, a)], Next(p, TakeIdle(t, young));
            && (young ==> At(q, t) == Registering(a, c) && c !in q.shut)
            && (!young ==> At(q, t) == Scanning(a) && c in q.shut))
  {
    var p := After(max, run).value;
    IdleIsQueue(max, run, At(p, t).addr);
    InvAlways(max, run);
    if BucketOf(p, At(p, t).addr).idle != [] {
      IdleMemberHere(p, At(p, t).addr, BucketOf(p, At(p, t).addr).idle[0]);
    }
  }

  /** What a thread dialled or found is what it gets, unless the pool was closed meanwhile. */
  lemma GetsWhatItFound(p: Pool, t: Tid)
    requires Enabled(p, Register(t))
    ensures
      var q, found := Next(p, Register(t)), At(p, t);
      && (!p.closed ==> At(q, t) == Using(found.addr, found.c) && q.shut == p.shut)
      && (p.closed ==> At(q, t) == Done && found.c in q.shut)
  {
  }

  // ----- Sockets that are given up -----

  /** Sockets that were discarded, or were too old when they were found. */
  ghost function GivenUp(max: nat, run: seq<Event>): set<Conn>
    requires Runs(max, run)
  {
    if run == [] then {}
    else
      var init, e := run[..|run| - 1], run[|run| - 1];
      var p := After(max, init).value;
      match e
      case Put(t, false) => GivenUp(max, init) + {At(p, t).c}
      case TakeIdle(t, false) => GivenUp(max, init) + {BucketOf(p, At(p, t).addr).idle[0]}
      case _ => GivenUp(max, init)
  }

  ghost predicate Discards(pc: Pc, c: Conn) {
    Releasing(pc) && pc.c == c && !pc.reuse
  }

  ghost predicate Lost(p: Pool, c: Conn) {
    c in p.dialled && c in p.shut && forall t: Tid :: !Held(p, t, c)
  }

  ghost predicate OnItsWayOut(p: Pool, c: Conn) {
    exists t: Tid :: Discards(At(p, t), c)
  }

  lemma LostStays(p: Pool, e: Event, c: Conn)
    requires Inv(p) && Enabled(p, e) && Lost(p, c)
    ensures Lost(Next(p, e), c)
  {
    var q := Next(p, e);
    if e.TakeIdle? {
      IdleMemberHere(p, At(p, e.t).addr, BucketOf(p, At(p, e.t).addr).idle[0]);
    }
    forall t: Tid ensures !Held(q, t, c) {
      assert !Held(p, t, c);
    }
  }

  lemma OnItsWayOutStays(p: Pool, e: Event, c: Conn)
    requires Inv(p) && Enabled(p, e) && OnItsWayOut(p, c)
    ensures Lost(Next(p, e), c) || OnItsWayOut(Next(p, e), c)
  {
    var q := Next(p, e);
    var t: Tid :| Discards(At(p, t), c);
    assert ThreadOk(p, t) && Held(p, t, c) && ConnOk(p, c);
    if e.t == t && e.Store? {
      forall u: Tid ensures !Held(q, u, c) {
        assert u != t ==> !Held(p, u, c);
      }
    } else {
      assert Discards(At(q, t), c);
    }
  }

  lemma GivingUp(p: Pool, e: Event)
    requires Inv(p) && Enabled(p, e)
    ensures e.Put? && !e.reuse ==> OnItsWayOut(Next(p, e), At(p, e.t).c)
    ensures e.TakeIdle? && !e.young ==> Lost(Next(p, e), BucketOf(p, At(p, e.t).addr).idle[0])
  {
    var q := Next(p, e);
    if e.Put? && !e.reuse {
      assert Discards(At(q, e.t), At(p, e.t).c);
    }
    if e.TakeIdle? && !e.young {
      var a := At(p, e.t).addr;
      var c := BucketOf(p, a).idle[0];
      assert BucketOk(p, a) && IdleOk(p, a, c);
      forall t: Tid ensures !Held(q, t, c) {
        assert !Held(p, t, c);
      }
    }
  }

  lemma {:induction false} GivenUpOk(max: nat, run: seq<Event>, c: Conn)
    requires Runs(max, run) && c in GivenUp(max, run)
    ensures Lost(After(max, run).value, c) || OnItsWayOut(After(max, run).value, c)
  {
    var init, e := run[..|run| - 1], run[|run| - 1];
    RunsBefore(max, run);
    InvAlways(max, init);
    var p := After(max, init).value;
    hide Next, Enabled, Inv, Lost, OnItsWayOut;
    if c in GivenUp(max, init) {
      GivenUpOk(max, init, c);
      if Lost(p, c) {
        LostStays(p, e, c);
      } else {
        OnItsWayOutStays(p, e, c);
      }
    } else {
      GivingUp(p, e);
    }
  }

  /** A socket that was discarded, or was too old when it was found, is never idle and with no
      borrower again; it is closed, or still on its way through release. */
  lemma GivenUpForGood(max: nat, run: seq<Event>, c: Conn)
    requires Runs(max, run) && c in GivenUp(max, run)
    ensures
      var p := After(max, run).value;
      && (forall a :: c !in BucketOf(p, a).idle)
      && (forall t: Tid :: Held(p, t, c) ==> !At(p, t).Registering? && !At(p, t).Using?)
      && ((forall t: Tid :: !Held(p, t, c)) ==> c in p.shut)
  {
    var p := After(max, run).value;
    GivenUpOk(max, run, c);
    InvAlways(max, run);
    assert ConnOk(p, c);
    forall a ensures c !in BucketOf(p, a).idle {
      assert BucketOk(p, a);
      IdleMember(p, a, c);
      if OnItsWayOut(p, c) {
        var t: Tid :| Discards(At(p, t), c);
        assert Held(p, t, c);
      }
    }
    if OnItsWayOut(p, c) {
      var t: Tid :| Discards(At(p, t), c);
      assert Held(p, t, c);
    }
  }
}
