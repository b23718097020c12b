/** What every step of the connection pool keeps. */
module ConnPoolSafety {
  import opened Outcomes
  import opened ConnPool

  // ----- The invariant -----

  ghost predicate Held(p: Pool, t: Tid, c: Conn) {
    HasConn(At(p, t)) == Some(c)
  }

  /** Every permit in the channel belongs to one thread, and idle sockets are open, distinct, of
      this address, and nobody else's. */
  ghost predicate BucketOk(p: Pool, a: string) {
    var b := BucketOf(p, a);
    && b.permits == |Holders(p.threads, a)| <= p.max
    && |b.idle| <= p.max
    && (forall k :: 0 <= k < |b.idle| ==> IdleOk(p, a, b.idle[k]))
    && (forall j, k :: 0 <= j < k < |b.idle| ==> b.idle[j] != b.idle[k])
  }

  ghost predicate IdleOk(p: Pool, a: string, c: Conn) {
    && c in p.dialled && p.dialled[c] == a && c !in p.shut
    && forall t: Tid :: !Held(p, t, c)
  }

  lemma IdleMember(p: Pool, a: string, c: Conn)
    requires BucketOk(p, a)
    ensures c in BucketOf(p, a).idle ==> IdleOk(p, a, c)
  {
  }

  predicate InCriticalSection(pc: Pc) {
    pc.Unpermitting? || pc.Storing? || pc.Draining?
  }

  ghost predicate ThreadOk(p: Pool, t: Tid) {
    var pc := At(p, t);
    && (InCriticalSection(pc) <==> p.mutex == Some(t))
    && (pc.Draining? ==> p.closed)
    && (HasConn(pc).Some? ==>
          var c := HasConn(pc).value;
          && c in p.dialled && p.dialled[c] == pc.addr
          // An open pool never closes a socket that somebody has.
          && (c in p.shut ==> p.closed))
    && (pc.Using? || pc.Returning? ==> pc.c in p.borrowed && p.borrowed[pc.c] == pc.addr)
  }

  /** A socket that is neither closed nor idle is held, by one thread only. */
  ghost predicate ConnOk(p: Pool, c: Conn) {
    && (forall t: Tid, u: Tid :: Held(p, t, c) && Held(p, u, c) ==> t == u)
    && (c in p.borrowed ==> exists t: Tid :: Held(p, t, c) && (At(p, t).Using? || At(p, t).Returning?))
    && (c in p.dialled ==>
          || c in p.shut
          || c in BucketOf(p, p.dialled[c]).idle
          || exists t: Tid :: Held(p, t, c))
    && (c in p.shut || c in p.borrowed ==> c in p.dialled)
  }

  ghost predicate ClosedOk(p: Pool) {
    && p.max >= 1
    && (p.closed ==> AllDrained(p) || (p.mutex.Some? && At(p, p.mutex.value).Draining?))
  }

  ghost predicate Buckets(p: Pool) {
    forall a :: BucketOk(p, a)
  }

  ghost predicate Threads(p: Pool) {
    forall t: Tid :: ThreadOk(p, t)
  }

  ghost predicate Conns(p: Pool) {
    forall c: Conn :: ConnOk(p, c)
  }

  ghost predicate Inv(p: Pool) {
    Buckets(p) && Threads(p) && Conns(p) && ClosedOk(p)
  }

  lemma InvNew(max: nat)
    ensures Inv(New(max))
  {
    assert forall a :: Holders(New(max).threads, a) == {};
  }

  // ----- One thread moves -----

  /** Thread `t` goes to `pc`; nothing else about the threads changes. */
  ghost predicate Moves(p: Pool, q: Pool, t: Tid, pc: Pc) {
    q.max == p.max && q.threads == p.threads[t := pc]
  }

  lemma OthersStay(p: Pool, q: Pool, t: Tid, pc: Pc, u: Tid)
    requires Moves(p, q, t, pc)
    ensures At(q, u) == if u == t then pc else At(p, u)
  {
  }

  /** A bucket that the step does not touch. */
  lemma BucketStays(p: Pool, q: Pool, t: Tid, pc: Pc, a: string)
    requires BucketOk(p, a) && Moves(p, q, t, pc)
    requires BucketOf(q, a) == BucketOf(p, a)
    requires HoldsPermit(pc, a) <==> HoldsPermit(At(p, t), a)
    requires forall c :: c in p.dialled ==> c in q.dialled && q.dialled[c] == p.dialled[c]
    requires forall c :: c in q.shut && c !in p.shut ==> c !in BucketOf(p, a).idle
    requires HasConn(pc).Some? && HasConn(pc) != HasConn(At(p, t)) ==> HasConn(pc).value !in BucketOf(p, a).idle
    ensures BucketOk(q, a)
  {
    HoldersAfter(p.threads, t, pc, a);
    var b := BucketOf(q, a);
    forall k | 0 <= k < |b.idle| ensures IdleOk(q, a, b.idle[k]) {
      assert IdleOk(p, a, b.idle[k]);
      forall u: Tid ensures !Held(q, u, b.idle[k]) {
        OthersStay(p, q, t, pc, u);
        assert !Held(p, u, b.idle[k]);
      }
    }
  }

  /** A socket that keeps its place. */
  lemma ConnStays(p: Pool, q: Pool, t: Tid, pc: Pc, c: Conn)
    requires ConnOk(p, c) && Moves(p, q, t, pc)
    requires HasConn(pc) == Some(c) <==> HasConn(At(p, t)) == Some(c)
    requires HasConn(pc) == Some(c) && (At(p, t).Using? || At(p, t).Returning?) ==>
        pc.Using? || pc.Returning? || c !in q.borrowed
    requires c in q.borrowed ==> c in p.borrowed
    requires c in p.shut <==> c in q.shut
    requires c in p.dialled <==> c in q.dialled
    requires c in p.dialled ==>
               q.dialled[c] == p.dialled[c]
               && (c in BucketOf(p, p.dialled[c]).idle ==> c in BucketOf(q, p.dialled[c]).idle)
    ensures ConnOk(q, c)
  {
    forall u: Tid ensures Held(q, u, c) <==> Held(p, u, c) {
      OthersStay(p, q, t, pc, u);
    }
    if c in q.borrowed {
      var u: Tid :| Held(p, u, c) && (At(p, u).Using? || At(p, u).Returning?);
      OthersStay(p, q, t, pc, u);
      assert Held(q, u, c) && (At(q, u).Using? || At(q, u).Returning?);
    }
  }

  /** A step in which no socket changes its place and the mutex does not change hands. */
  lemma QuietMove(p: Pool, q: Pool, t: Tid, pc: Pc)
    requires Inv(p) && Moves(p, q, t, pc)
    requires q == p.(threads := q.threads, buckets := q.buckets)
    requires forall a :: BucketOf(q, a).idle == BucketOf(p, a).idle
    requires forall a :: BucketOf(q, a).permits
                      == BucketOf(p, a).permits - (if HoldsPermit(At(p, t), a) then 1 else 0)
                         + (if HoldsPermit(pc, a) then 1 else 0) <= p.max
    requires HasConn(pc) == HasConn(At(p, t))
    requires HasConn(pc).Some? ==> pc.addr == At(p, t).addr
    requires InCriticalSection(pc) <==> InCriticalSection(At(p, t))
    requires pc.Draining? <==> At(p, t).Draining?
    requires pc.Using? || pc.Returning? <==> At(p, t).Using? || At(p, t).Returning?
    ensures Inv(q)
  {
    forall a ensures BucketOk(q, a) {
      assert BucketOk(p, a);
      QuietBucket(p, q, t, pc, a);
    }
    forall u: Tid ensures ThreadOk(q, u) {
      OthersStay(p, q, t, pc, u);
      assert ThreadOk(p, u);
    }
    forall c: Conn ensures ConnOk(q, c) {
      assert ConnOk(p, c);
      ConnStays(p, q, t, pc, c);
    }
    ClosedStays(p, q, t, pc);
  }

  lemma QuietBucket(p: Pool, q: Pool, t: Tid, pc: Pc, a: string)
    requires BucketOk(p, a) && Moves(p, q, t, pc)
    requires q == p.(threads := q.threads, buckets := q.buckets)
    requires BucketOf(q, a).idle == BucketOf(p, a).idle
    requires BucketOf(q, a).permits
          == BucketOf(p, a).permits - (if HoldsPermit(At(p, t), a) then 1 else 0)
             + (if HoldsPermit(pc, a) then 1 else 0) <= p.max
    requires HasConn(pc) == HasConn(At(p, t))
    ensures BucketOk(q, a)
  {
    HoldersAfter(p.threads, t, pc, a);
    var b := BucketOf(q, a);
    forall k | 0 <= k < |b.idle| ensures IdleOk(q, a, b.idle[k]) {
      assert IdleOk(p, a, b.idle[k]);
      forall u: Tid ensures !Held(q, u, b.idle[k]) {
        OthersStay(p, q, t, pc, u);
        assert !Held(p, u, b.idle[k]);
      }
    }
  }

  lemma ClosedStays(p: Pool, q: Pool, t: Tid, pc: Pc)
    requires ClosedOk(p) && Moves(p, q, t, pc)
    requires q.closed == p.closed && q.mutex == p.mutex
    requires forall a :: BucketOf(q, a).idle == BucketOf(p, a).idle
    requires pc.Draining? <==> At(p, t).Draining?
    ensures ClosedOk(q)
  {
    if q.closed && AllDrained(p) {
      forall a <- q.buckets ensures q.buckets[a].idle == [] {
        assert BucketOf(q, a).idle == BucketOf(p, a).idle;
      }
    } else if q.closed {
      OthersStay(p, q, t, pc, p.mutex.value);
    }
  }

  predicate Quiet(e: Event) {
    e.Enter? || e.Acquire? || e.Abandon? || e.NoIdle? || e.DialError? || e.Put? || e.ReturnPermit?
  }

  lemma QuietPermits(p: Pool, e: Event, a: string)
    requires BucketOk(p, a) && Quiet(e) && Enabled(p, e)
    ensures
      var q := Next(p, e);
      && BucketOf(q, a).idle == BucketOf(p, a).idle
      && BucketOf(q, a).permits
      == BucketOf(p, a).permits - (if HoldsPermit(At(p, e.t), a) then 1 else 0)
         + (if HoldsPermit(At(q, e.t), a) then 1 else 0) <= p.max
  {
  }

  lemma QuietStep(p: Pool, e: Event)
    requires Inv(p) && Quiet(e) && Enabled(p, e)
    ensures Inv(Next(p, e))
  {
    var q := Next(p, e);
    var pc := At(q, e.t);
    forall a
      ensures BucketOf(q, a).idle == BucketOf(p, a).idle
      ensures BucketOf(q, a).permits
           == BucketOf(p, a).permits - (if HoldsPermit(At(p, e.t), a) then 1 else 0)
              + (if HoldsPermit(pc, a) then 1 else 0) <= p.max
    {
      assert BucketOk(p, a);
      QuietPermits(p, e, a);
    }
    hide Inv, BucketOf, HoldsPermit;
    QuietMove(p, q, e.t, pc);
  }

  // ----- A socket leaves the idle channel -----

  lemma HeadLeaves(idle: seq<Conn>)
    requires idle != []
    requires forall j, k :: 0 <= j < k < |idle| ==> idle[j] != idle[k]
    ensures idle[0] !in idle[1..]
    ensures forall c :: c in idle <==> c == idle[0] || c in idle[1..]
  {
  }

  lemma TakeIdleStep(p: Pool, t: Tid, young: bool)
    requires Inv(p) && Enabled(p, TakeIdle(t, young))
    ensures Inv(Next(p, TakeIdle(t, young)))
  {
    var q := Next(p, TakeIdle(t, young));
    var pc, a := At(q, t), At(p, t).addr;
    var c := BucketOf(p, a).idle[0];
    assert BucketOk(p, a) && IdleOk(p, a, c);
    HeadLeaves(BucketOf(p, a).idle);
    assert q.threads == p.threads[t := pc];
    RemoveHead(p, q, t, pc, a, c);
    OthersWithoutHead(p, q, t, pc, a, c);
    forall u: Tid ensures ThreadOk(q, u) {
      assert ThreadOk(p, u);
      OthersStay(p, q, t, pc, u);
      assert !Held(p, u, c);
    }
    forall d: Conn ensures ConnOk(q, d) {
      assert ConnOk(p, d);
      if d == c {
        HeadPlaced(p, q, t, pc, c);
      } else {
        ConnStays(p, q, t, pc, d);
      }
    }
    DrainedStays(p, q, t, pc, a);
  }

  /** The bucket that lost its first idle socket. */
  lemma RemoveHead(p: Pool, q: Pool, t: Tid, pc: Pc, a: string, c: Conn)
    requires BucketOk(p, a) && Moves(p, q, t, pc) && q.dialled == p.dialled && q.shut <= p.shut + {c}
    requires BucketOf(p, a).idle != [] && c == BucketOf(p, a).idle[0]
    requires BucketOf(q, a) == BucketOf(p, a).(idle := BucketOf(p, a).idle[1..])
    requires HoldsPermit(pc, a) <==> HoldsPermit(At(p, t), a)
    requires HasConn(pc) == HasConn(At(p, t)) || HasConn(pc) == Some(c) || HasConn(pc) == None
    ensures BucketOk(q, a)
  {
    HoldersAfter(p.threads, t, pc, a);
    var b := BucketOf(q, a);
    HeadLeaves(BucketOf(p, a).idle);
    forall k | 0 <= k < |b.idle| ensures IdleOk(q, a, b.idle[k]) {
      assert b.idle[k] == BucketOf(p, a).idle[k + 1] != c;
      assert IdleOk(p, a, b.idle[k]);
      forall u: Tid ensures !Held(q, u, b.idle[k]) {
        OthersStay(p, q, t, pc, u);
        assert !Held(p, u, b.idle[k]);
      }
    }
  }

  lemma OthersWithoutHead(p: Pool, q: Pool, t: Tid, pc: Pc, a: string, c: Conn)
    requires Buckets(p) && BucketOk(q, a) && Moves(p, q, t, pc) && q.dialled == p.dialled && q.shut <= p.shut + {c}
    requires c in p.dialled && p.dialled[c] == a
    requires forall b :: b != a ==> BucketOf(q, b) == BucketOf(p, b)
    requires forall b :: b != a ==> (HoldsPermit(pc, b) <==> HoldsPermit(At(p, t), b))
    requires HasConn(pc) == HasConn(At(p, t)) || HasConn(pc) == Some(c) || HasConn(pc) == None
    ensures Buckets(q)
  {
    forall b ensures BucketOk(q, b) {
      assert BucketOk(p, b);
      if b != a {
        IdleMember(p, b, c);
        BucketStays(p, q, t, pc, b);
      }
    }
  }

  /** The former head of the channel is now held by this thread alone, or closed. */
  lemma HeadPlaced(p: Pool, q: Pool, t: Tid, pc: Pc, c: Conn)
    requires Moves(p, q, t, pc) && ConnOk(p, c) && c in p.dialled && q.dialled == p.dialled && q.borrowed == p.borrowed
    requires forall u: Tid :: !Held(p, u, c)
    requires HasConn(pc) == Some(c) || c in q.shut
    ensures ConnOk(q, c)
  {
    forall u: Tid ensures Held(q, u, c) ==> u == t {
      OthersStay(p, q, t, pc, u);
      assert !Held(p, u, c);
    }
    OthersStay(p, q, t, pc, t);
    assert HasConn(pc) == Some(c) ==> Held(q, t, c);
  }

  lemma DrainedStays(p: Pool, q: Pool, t: Tid, pc: Pc, a: string)
    requires ClosedOk(p) && Moves(p, q, t, pc) && q.closed == p.closed && q.mutex == p.mutex
    requires forall b :: b != a ==> BucketOf(q, b).idle == BucketOf(p, b).idle
    requires BucketOf(p, a).idle != []
    requires At(p, t).Draining? ==> pc.Draining?
    ensures ClosedOk(q)
  {
  }

  lemma DrainStep(p: Pool, t: Tid, a: string)
    requires Inv(p) && Enabled(p, Drain(t, a))
    ensures Inv(Next(p, Drain(t, a)))
  {
    var q := Next(p, Drain(t, a));
    var pc := At(p, t);
    var c := BucketOf(p, a).idle[0];
    assert BucketOk(p, a) && IdleOk(p, a, c);
    HeadLeaves(BucketOf(p, a).idle);
    assert t in p.threads && q.threads == p.threads[t := pc];
    RemoveHead(p, q, t, pc, a, c);
    OthersWithoutHead(p, q, t, pc, a, c);
    forall u: Tid ensures ThreadOk(q, u) {
      assert ThreadOk(p, u);
      assert !Held(p, u, c);
    }
    forall d: Conn ensures ConnOk(q, d) {
      assert ConnOk(p, d);
      if d == c {
        HeadPlaced(p, q, t, pc, c);
      } else {
        ConnStays(p, q, t, pc, d);
      }
    }
    DrainedStays(p, q, t, pc, a);
  }

  // ----- A socket is dialled, registered, or refused -----

  lemma DialStep(p: Pool, t: Tid, c: Conn)
    requires Inv(p) && Enabled(p, DialOk(t, c))
    ensures Inv(Next(p, DialOk(t, c)))
  {
    var q := Next(p, DialOk(t, c));
    var pc := At(q, t);
    assert ConnOk(p, c);
    forall u: Tid ensures !Held(p, u, c) && ThreadOk(q, u) {
      assert ThreadOk(p, u);
      OthersStay(p, q, t, pc, u);
    }
    forall a ensures BucketOk(q, a) {
      assert BucketOk(p, a);
      IdleMember(p, a, c);
      BucketStays(p, q, t, pc, a);
    }
    forall d: Conn ensures ConnOk(q, d) {
      assert ConnOk(p, d);
      if d == c {
        forall u: Tid ensures Held(q, u, c) ==> u == t {
          OthersStay(p, q, t, pc, u);
          assert !Held(p, u, c);
        }
        assert Held(q, t, c);
      } else {
        ConnStays(p, q, t, pc, d);
      }
    }
    ClosedStays(p, q, t, pc);
  }

  lemma OnlyHolder(p: Pool, t: Tid, c: Conn)
    requires ConnOk(p, c) && Held(p, t, c)
    ensures forall u: Tid :: u != t ==> !Held(p, u, c)
  {
  }

  /** A socket is handed out: only an open pool does so. */
  lemma RegisterOpenStep(p: Pool, t: Tid)
    requires Inv(p) && Enabled(p, Register(t)) && !p.closed
    ensures Inv(Next(p, Register(t)))
  {
    var q := Next(p, Register(t));
    var pc, c := At(q, t), At(p, t).c;
    assert ThreadOk(p, t) && Held(p, t, c);
    OnlyHolder(p, t, c);
    forall u: Tid ensures ThreadOk(q, u) {
      assert ThreadOk(p, u);
      OthersStay(p, q, t, pc, u);
    }
    forall a ensures BucketOk(q, a) {
      assert BucketOk(p, a);
      BucketStays(p, q, t, pc, a);
    }
    forall d: Conn ensures ConnOk(q, d) {
      assert ConnOk(p, d);
      if d == c {
        forall u: Tid ensures Held(q, u, c) ==> u == t {
          OthersStay(p, q, t, pc, u);
          assert u != t ==> !Held(p, u, c);
        }
        assert Held(q, t, c) && At(q, t).Using?;
      } else {
        ConnStays(p, q, t, pc, d);
      }
    }
    ClosedStays(p, q, t, pc);
  }

  /** A thread lets go of its socket by closing it. */
  lemma DropSocket(p: Pool, q: Pool, t: Tid, c: Conn)
    requires Inv(p) && Moves(p, q, t, Done) && Held(p, t, c) && c !in p.borrowed
    requires q.dialled == p.dialled && q.borrowed == p.borrowed && q.closed == p.closed && q.shut == p.shut + {c}
    requires q.mutex == if InCriticalSection(At(p, t)) then None else p.mutex
    requires !At(p, t).Draining?
    requires forall a :: BucketOf(q, a).idle == BucketOf(p, a).idle
    requires forall a :: BucketOf(q, a).permits == BucketOf(p, a).permits - if HoldsPermit(At(p, t), a) then 1 else 0
    ensures Inv(q)
  {
    assert ThreadOk(p, t) && ConnOk(p, c);
    OnlyHolder(p, t, c);
    forall u: Tid ensures ThreadOk(q, u) {
      assert ThreadOk(p, u);
      OthersStay(p, q, t, Done, u);
      assert u != t ==> !Held(p, u, c);
    }
    forall a ensures BucketOk(q, a) {
      DropBucket(p, q, t, c, a);
    }
    forall d: Conn ensures ConnOk(q, d) {
      assert ConnOk(p, d);
      if d == c {
        forall u: Tid ensures !Held(q, u, c) {
          OthersStay(p, q, t, Done, u);
          assert u != t ==> !Held(p, u, c);
        }
      } else {
        ConnStays(p, q, t, Done, d);
      }
    }
    DropClosed(p, q, t);
  }

  lemma DropBucket(p: Pool, q: Pool, t: Tid, c: Conn, a: string)
    requires BucketOk(p, a) && Moves(p, q, t, Done) && Held(p, t, c)
    requires q.dialled == p.dialled && q.shut == p.shut + {c}
    requires BucketOf(q, a).idle == BucketOf(p, a).idle
    requires BucketOf(q, a).permits == BucketOf(p, a).permits - if HoldsPermit(At(p, t), a) then 1 else 0
    ensures BucketOk(q, a)
  {
    HoldersAfter(p.threads, t, Done, a);
    var b := BucketOf(q, a);
    forall k | 0 <= k < |b.idle| ensures IdleOk(q, a, b.idle[k]) {
      assert IdleOk(p, a, b.idle[k]);
      forall u: Tid ensures !Held(q, u, b.idle[k]) {
        OthersStay(p, q, t, Done, u);
        assert !Held(p, u, b.idle[k]);
      }
      assert !Held(p, t, b.idle[k]);
    }
  }

  lemma DropClosed(p: Pool, q: Pool, t: Tid)
    requires ClosedOk(p) && Threads(p) && Moves(p, q, t, Done) && q.closed == p.closed && !At(p, t).Draining?
    requires q.mutex == if InCriticalSection(At(p, t)) then None else p.mutex
    requires forall a :: BucketOf(q, a).idle == BucketOf(p, a).idle
    ensures ClosedOk(q)
  {
    assert ThreadOk(p, t);
    if q.closed && AllDrained(p) {
      forall a <- q.buckets ensures q.buckets[a].idle == [] {
        assert BucketOf(q, a).idle == BucketOf(p, a).idle;
      }
    } else if q.closed {
      OthersStay(p, q, t, Done, p.mutex.value);
    }
  }

  lemma RegisterClosedStep(p: Pool, t: Tid)
    requires Inv(p) && Enabled(p, Register(t)) && p.closed
    ensures Inv(Next(p, Register(t)))
  {
    var c := At(p, t).c;
    assert Held(p, t, c) && ConnOk(p, c);
    DropSocket(p, Next(p, Register(t)), t, c);
  }

  // ----- A socket is released -----

  /** Whoever uses a socket finds it in `borrowed`. */
  lemma LockReleaseStep(p: Pool, t: Tid)
    requires Inv(p) && Enabled(p, LockRelease(t))
    ensures Inv(Next(p, LockRelease(t)))
  {
    var q := Next(p, LockRelease(t));
    var pc, c := At(q, t), At(p, t).c;
    assert ThreadOk(p, t) && Held(p, t, c) && ConnOk(p, c);
    forall u: Tid ensures ThreadOk(q, u) {
      assert ThreadOk(p, u);
      OthersStay(p, q, t, pc, u);
      assert u != t ==> !Held(p, u, c);
    }
    forall a ensures BucketOk(q, a) {
      assert BucketOk(p, a);
      BucketStays(p, q, t, pc, a);
    }
    forall d: Conn ensures ConnOk(q, d) {
      assert ConnOk(p, d);
      ConnStays(p, q, t, pc, d);
    }
  }

  lemma NotBorrowedInRelease(p: Pool, t: Tid)
    requires Inv(p) && At(p, t).Storing?
    ensures At(p, t).c !in p.borrowed
  {
    var c := At(p, t).c;
    assert Held(p, t, c) && ConnOk(p, c);
  }

  lemma StoreDropStep(p: Pool, t: Tid, usable: bool)
    requires Inv(p) && Enabled(p, Store(t, usable))
    requires !At(p, t).reuse || p.closed || !usable || |BucketOf(p, At(p, t).addr).idle| >= p.max
    ensures Inv(Next(p, Store(t, usable)))
  {
    NotBorrowedInRelease(p, t);
    assert Held(p, t, At(p, t).c) && ThreadOk(p, t);
    DropSocket(p, Next(p, Store(t, usable)), t, At(p, t).c);
  }

  lemma StoreIdleStep(p: Pool, t: Tid, usable: bool)
    requires Inv(p) && Enabled(p, Store(t, usable))
    requires At(p, t).reuse && !p.closed && usable && |BucketOf(p, At(p, t).addr).idle| < p.max
    ensures Inv(Next(p, Store(t, usable)))
  {
    var q := Next(p, Store(t, usable));
    var c, a := At(p, t).c, At(p, t).addr;
    NotBorrowedInRelease(p, t);
    assert Held(p, t, c) && ThreadOk(p, t) && ConnOk(p, c);
    forall u: Tid ensures ThreadOk(q, u) {
      assert ThreadOk(p, u);
      OthersStay(p, q, t, Done, u);
    }
    forall b ensures BucketOk(q, b) {
      assert BucketOk(p, b);
      if b == a {
        StoredBucket(p, q, t, a, c);
      } else {
        BucketStays(p, q, t, Done, b);
      }
    }
    forall d: Conn ensures ConnOk(q, d) {
      assert ConnOk(p, d);
      if d == c {
        forall u: Tid ensures !Held(q, u, c) {
          OthersStay(p, q, t, Done, u);
          assert u != t ==> !Held(p, u, c);
        }
        assert BucketOf(q, a).idle[|BucketOf(p, a).idle|] == c;
      } else {
        ConnStays(p, q, t, Done, d);
      }
    }
  }

  lemma StoredBucket(p: Pool, q: Pool, t: Tid, a: string, c: Conn)
    requires BucketOk(p, a) && Moves(p, q, t, Done) && At(p, t).Storing? && Held(p, t, c)
    requires forall u: Tid :: u != t ==> !Held(p, u, c)
    requires c in p.dialled && p.dialled[c] == a && c !in p.shut
    requires q.dialled == p.dialled && q.shut == p.shut && |BucketOf(p, a).idle| < p.max
    requires BucketOf(q, a) == BucketOf(p, a).(idle := BucketOf(p, a).idle + [c])
    ensures BucketOk(q, a)
  {
    HoldersAfter(p.threads, t, Done, a);
    IdleMember(p, a, c);
    var b := BucketOf(q, a);
    forall k | 0 <= k < |b.idle| ensures IdleOk(q, a, b.idle[k]) {
      if k < |BucketOf(p, a).idle| {
        assert IdleOk(p, a, b.idle[k]);
      }
      forall u: Tid ensures !Held(q, u, b.idle[k]) {
        OthersStay(p, q, t, Done, u);
        assert u != t ==> !Held(p, u, b.idle[k]);
      }
    }
  }

  // ----- The pool is closed -----

  lemma CloseBeginStep(p: Pool, t: Tid)
    requires Inv(p) && Enabled(p, CloseBegin(t))
    ensures Inv(Next(p, CloseBegin(t)))
  {
    var q := Next(p, CloseBegin(t));
    forall u: Tid ensures ThreadOk(q, u) {
      assert ThreadOk(p, u);
      OthersStay(p, q, t, Draining, u);
    }
    forall a ensures BucketOk(q, a) {
      assert BucketOk(p, a);
      forall c | c in p.borrowed ensures c !in BucketOf(p, a).idle {
        assert ConnOk(p, c);
        IdleMember(p, a, c);
      }
      BucketStays(p, q, t, Draining, a);
    }
    forall d: Conn ensures ConnOk(q, d) {
      assert ConnOk(p, d);
      CloseConn(p, q, t, d);
    }
  }

  lemma CloseConn(p: Pool, q: Pool, t: Tid, c: Conn)
    requires ConnOk(p, c) && At(p, t).Done? && Moves(p, q, t, Draining)
    requires q.buckets == p.buckets && q.dialled == p.dialled && q.borrowed == p.borrowed
    requires q.shut == p.shut + p.borrowed.Keys
    ensures ConnOk(q, c)
  {
    forall u: Tid ensures Held(q, u, c) <==> Held(p, u, c) {
      OthersStay(p, q, t, Draining, u);
    }
    if c in q.borrowed {
      var u: Tid :| Held(p, u, c) && (At(p, u).Using? || At(p, u).Returning?);
      OthersStay(p, q, t, Draining, u);
      assert Held(q, u, c) && (At(q, u).Using? || At(q, u).Returning?);
    }
  }

  lemma CloseEndStep(p: Pool, t: Tid)
    requires Inv(p) && Enabled(p, CloseEnd(t))
    ensures Inv(Next(p, CloseEnd(t)))
  {
    var q := Next(p, CloseEnd(t));
    forall u: Tid ensures ThreadOk(q, u) {
      assert ThreadOk(p, u) && ThreadOk(p, t);
      OthersStay(p, q, t, Done, u);
    }
    forall a ensures BucketOk(q, a) {
      assert BucketOk(p, a);
      BucketStays(p, q, t, Done, a);
    }
    forall d: Conn ensures ConnOk(q, d) {
      assert ConnOk(p, d);
      ConnStays(p, q, t, Done, d);
    }
  }

  // ----- All steps -----

  lemma InvStep(p: Pool, e: Event)
    requires Inv(p) && Enabled(p, e)
    ensures Inv(Next(p, e))
  {
    hide Inv, Next, Enabled;
    match e
    case TakeIdle(t, young) => TakeIdleStep(p, t, young);
    case DialOk(t, c) => DialStep(p, t, c);
    case Register(t) => RegisterStep(p, t);
    case LockRelease(t) => LockReleaseStep(p, t);
    case Store(t, usable) => StoreStep(p, t, usable);
    case CloseBegin(t) => CloseBeginStep(p, t);
    case Drain(t, a) => DrainStep(p, t, a);
    case CloseEnd(t) => CloseEndStep(p, t);
    case _ => QuietStep(p, e);
  }

  lemma RegisterStep(p: Pool, t: Tid)
    requires Inv(p) && Enabled(p, Register(t))
    ensures Inv(Next(p, Register(t)))
  {
    hide Inv, Next, Enabled;
    if p.closed {
      RegisterClosedStep(p, t);
    } else {
      RegisterOpenStep(p, t);
    }
  }

  lemma StoreStep(p: Pool, t: Tid, usable: bool)
    requires Inv(p) && Enabled(p, Store(t, usable))
    ensures Inv(Next(p, Store(t, usable)))
  {
    if At(p, t).reuse && !p.closed && usable && |BucketOf(p, At(p, t).addr).idle| < p.max {
      StoreIdleStep(p, t, usable);
    } else {
      StoreDropStep(p, t, usable);
    }
  }

  lemma {:induction false} InvAlways(max: nat, run: seq<Event>)
    requires After(max, run).Some?
    ensures Inv(After(max, run).value)
  {
    if run == [] {
      InvNew(max);
    } else {
      InvAlways(max, run[..|run| - 1]);
      InvStep(After(max, run[..|run| - 1]).value, run[|run| - 1]);
    }
  }

  // ----- What the pool promises -----

  ghost function BorrowedAt(p: Pool, a: string): set<Conn> {
    set c | c in p.borrowed && p.borrowed[c] == a
  }

  lemma {:induction false} MaxStays(max: nat, run: seq<Event>)
    requires After(max, run).Some?
    ensures After(max, run).value.max == if max >= 1 then max else 1
  {
    if run != [] {
      MaxStays(max, run[..|run| - 1]);
    }
  }

  /** Per address, neither the borrowed nor the idle sockets ever exceed the maximum. */
  lemma BoundedPerAddress(max: nat, run: seq<Event>, a: string)
    requires After(max, run).Some?
    ensures
      var p := After(max, run).value;
      && p.max == (if max >= 1 then max else 1)
      && |BorrowedAt(p, a)| <= p.max && |BucketOf(p, a).idle| <= p.max && BucketOf(p, a).permits <= p.max
  {
    var p := After(max, run).value;
    MaxStays(max, run);
    InvAlways(max, run);
    assert BucketOk(p, a);
    forall c | c in BorrowedAt(p, a) ensures exists t :: t in Holders(p.threads, a) && Held(p, t, c) {
      assert ConnOk(p, c);
      var t: Tid :| Held(p, t, c) && (At(p, t).Using? || At(p, t).Returning?);
      assert ThreadOk(p, t);
    }
    BorrowedHaveHolders(p, BorrowedAt(p, a), Holders(p.threads, a));
  }

  lemma {:induction false} BorrowedHaveHolders(p: Pool, conns: set<Conn>, holders: set<Tid>)
    requires forall c :: c in conns ==> exists t :: t in holders && Held(p, t, c)
    ensures |conns| <= |holders|
    decreases conns
  {
    if conns != {} {
      var c :| c in conns;
      var t :| t in holders && Held(p, t, c);
      forall d | d in conns - {c} ensures exists u :: u in holders - {t} && Held(p, u, d) {
        var u :| u in holders && Held(p, u, d);
      }
      BorrowedHaveHolders(p, conns - {c}, holders - {t});
    }
  }

  /** Taking a permit out of the channel never has to wait: not in release and not in
      GetConnContext, whether dialling failed or the pool was closed meanwhile. */
  lemma ReturningPermitNeverBlocks(max: nat, run: seq<Event>, t: Tid)
    requires After(max, run).Some? && HasPermit(At(After(max, run).value, t))
    ensures
      var p := After(max, run).value;
      BucketOf(p, At(p, t).addr).permits > 0
  {
    var p := After(max, run).value;
    InvAlways(max, run);
    assert BucketOk(p, At(p, t).addr);
    assert t in Holders(p.threads, At(p, t).addr);
  }

  /** Each socket that was ever dialled is closed, idle in the channel of its own address, or in
      the hands of exactly one thread; an idle socket is open and in nobody's hands, and while the
      pool is open a socket in somebody's hands is open. */
  lemma EverySocketHasOnePlace(max: nat, run: seq<Event>, c: Conn)
    requires After(max, run).Some? && c in After(max, run).value.dialled
    ensures
      var p := After(max, run).value;
      var idle := BucketOf(p, p.dialled[c]).idle;
      && (c in p.shut || c in idle || exists t: Tid :: Held(p, t, c))
      && (forall t: Tid, u: Tid :: Held(p, t, c) && Held(p, u, c) ==> t == u)
      && (c in idle ==> c !in p.shut && forall t: Tid :: !Held(p, t, c))
      && (forall a :: c in BucketOf(p, a).idle ==> a == p.dialled[c])
      && (forall t: Tid :: Held(p, t, c) && c in p.shut ==> p.closed)
  {
    var p := After(max, run).value;
    InvAlways(max, run);
    assert ConnOk(p, c);
    forall a ensures c in BucketOf(p, a).idle ==> IdleOk(p, a, c) {
      assert BucketOk(p, a);
      IdleMember(p, a, c);
    }
    forall t: Tid ensures Held(p, t, c) && c in p.shut ==> p.closed {
      assert ThreadOk(p, t);
    }
  }

  /** Once Close has returned no socket is idle, and from the moment it began none is handed
      out and no call begins. */
  lemma NothingAfterClose(max: nat, run: seq<Event>, e: Event)
    requires After(max, run).Some? && Enabled(After(max, run).value, e)
    ensures
      var p := After(max, run).value;
      && (p.closed && p.mutex.None? ==> forall a :: BucketOf(p, a).idle == [])
      && (p.closed ==> Next(p, e).closed)
      && (p.closed ==> forall t: Tid :: At(Next(p, e), t).Using? ==> At(p, t).Using?)
      && (p.closed ==> forall t: Tid :: At(p, t).Done? ==> At(Next(p, e), t).Done?)
  {
    InvAlways(max, run);
  }
}
