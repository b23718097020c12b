/** The connection pool as a transition system.  The pool's mutex protects `borrowed` and
    `closed`; the permit and idle channels of a bucket are also touched without it, so each
    channel operation is a step of its own. */
module ConnPool {
  import opened Outcomes

  type Conn = nat
  type Tid = nat

  datatype Pc =
    | Acquiring(addr: string)              // waiting to put a permit into the channel
    | Scanning(addr: string)               // holds a permit, looks for an idle socket
    | Dialling(addr: string)
    | Registering(addr: string, c: Conn)   // has a socket, wants the mutex
    | Using(addr: string, c: Conn)         // GetConnContext has returned the socket
    | Returning(addr: string, c: Conn, reuse: bool)   // called release, wants the mutex
    | Unpermitting(addr: string, c: Conn, reuse: bool) // has the mutex, about to take a permit out
    | Storing(addr: string, c: Conn, reuse: bool)     // has the mutex, permit is out
    | Draining                             // Close, with the mutex
    | Done

  datatype Bucket = Bucket(permits: nat, idle: seq<Conn>)

  datatype Pool = Pool(
    max: nat,
    closed: bool,
    mutex: Option<Tid>,
    buckets: map<string, Bucket>,
    borrowed: map<Conn, string>,
    dialled: map<Conn, string>, // every socket there was, with its address
    shut: set<Conn>,          // sockets that were closed
    threads: map<Tid, Pc>)

  function New(max: nat): Pool {
    Pool(if max < 1 then 1 else max, false, None, map[], map[], map[], {}, map[])
  }

  datatype Event =
    | Enter(t: Tid, addr: string)
    | Acquire(t: Tid)
    | Abandon(t: Tid)
    | TakeIdle(t: Tid, young: bool)
    | NoIdle(t: Tid)
    | DialOk(t: Tid, c: Conn)
    | DialError(t: Tid)
    | Register(t: Tid)
    | Put(t: Tid, reuse: bool)
    | LockRelease(t: Tid)
    | ReturnPermit(t: Tid)
    | Store(t: Tid, usable: bool)
    | CloseBegin(t: Tid)
    | Drain(t: Tid, addr: string)
    | CloseEnd(t: Tid)

  function At(p: Pool, t: Tid): Pc {
    if t in p.threads then p.threads[t] else Done
  }

  function Goto(p: Pool, t: Tid, pc: Pc): Pool {
    p.(threads := p.threads[t := pc])
  }

  function BucketOf(p: Pool, addr: string): Bucket {
    if addr in p.buckets then p.buckets[addr] else Bucket(0, [])
  }

  function SetBucket(p: Pool, addr: string, b: Bucket): Pool {
    p.(buckets := p.buckets[addr := b])
  }

  predicate AllDrained(p: Pool) {
    forall a <- p.buckets :: p.buckets[a].idle == []
  }

  predicate Enabled(p: Pool, e: Event) {
    match e
    case Enter(t, _) => At(p, t).Done? && p.mutex.None? && !p.closed
    case Acquire(t) => At(p, t).Acquiring? && BucketOf(p, At(p, t).addr).permits < p.max
    case Abandon(t) => At(p, t).Acquiring?
    case TakeIdle(t, _) => At(p, t).Scanning? && BucketOf(p, At(p, t).addr).idle != []
    case NoIdle(t) => At(p, t).Scanning? && BucketOf(p, At(p, t).addr).idle == []
    case DialOk(t, c) => At(p, t).Dialling? && c !in p.dialled
    case DialError(t) => At(p, t).Dialling? && BucketOf(p, At(p, t).addr).permits > 0
    case Register(t) =>
      At(p, t).Registering? && p.mutex.None? && (p.closed ==> BucketOf(p, At(p, t).addr).permits > 0)
    case Put(t, _) => At(p, t).Using?
    case LockRelease(t) => At(p, t).Returning? && p.mutex.None?
    case ReturnPermit(t) => At(p, t).Unpermitting? && BucketOf(p, At(p, t).addr).permits > 0
    case Store(t, _) => At(p, t).Storing?
    case CloseBegin(t) => At(p, t).Done? && p.mutex.None? && !p.closed
    case Drain(t, addr) => At(p, t).Draining? && BucketOf(p, addr).idle != []
    case CloseEnd(t) => At(p, t).Draining? && AllDrained(p)
  }

  function Next(p: Pool, e: Event): Pool
    requires Enabled(p, e)
  {
    var at := At(p, e.t);
    match e
    case Enter(t, addr) => Goto(SetBucket(p, addr, BucketOf(p, addr)), t, Acquiring(addr))
    case Acquire(t) =>
      var b := BucketOf(p, at.addr);
      Goto(SetBucket(p, at.addr, b.(permits := b.permits + 1)), t, Scanning(at.addr))
    case Abandon(t) => Goto(p, t, Done)
    case TakeIdle(t, young) =>
      var b := BucketOf(p, at.addr);
      var q := SetBucket(p, at.addr, b.(idle := b.idle[1..]));
      if young then Goto(q, t, Registering(at.addr, b.idle[0]))
      else q.(shut := q.shut + {b.idle[0]})
    case NoIdle(t) => Goto(p, t, Dialling(at.addr))
    case DialOk(t, c) => Goto(p.(dialled := p.dialled[c := at.addr]), t, Registering(at.addr, c))
    case DialError(t) =>
      var b := BucketOf(p, at.addr);
      Goto(SetBucket(p, at.addr, b.(permits := b.permits - 1)), t, Done)
    case Register(t) =>
      if p.closed then
        var b := BucketOf(p, at.addr);
        Goto(SetBucket(p, at.addr, b.(permits := b.permits - 1)).(shut := p.shut + {at.c}), t, Done)
      else
        Goto(p.(borrowed := p.borrowed[at.c := at.addr]), t, Using(at.addr, at.c))
    case Put(t, reuse) => Goto(p, t, Returning(at.addr, at.c, reuse))
    case LockRelease(t) =>
      if at.c in p.borrowed
      then Goto(p.(mutex := Some(t), borrowed := p.borrowed - {at.c}), t,
                Unpermitting(p.borrowed[at.c], at.c, at.reuse))
      else Goto(p.(shut := p.shut + {at.c}), t, Done)
    case ReturnPermit(t) =>
      var b := BucketOf(p, at.addr);
      Goto(SetBucket(p, at.addr, b.(permits := b.permits - 1)), t, Storing(at.addr, at.c, at.reuse))
    case Store(t, usable) =>
      var b := BucketOf(p, at.addr);
      var q := Goto(p.(mutex := None), t, Done);
      if !at.reuse || p.closed || !usable || |b.idle| >= p.max
      then q.(shut := q.shut + {at.c})
      else SetBucket(q, at.addr, b.(idle := b.idle + [at.c]))
    case CloseBegin(t) => Goto(p.(closed := true, mutex := Some(t), shut := p.shut + p.borrowed.Keys), t, Draining)
    case Drain(t, addr) =>
      var b := BucketOf(p, addr);
      SetBucket(p, addr, b.(idle := b.idle[1..])).(shut := p.shut + {b.idle[0]})
    case CloseEnd(t) => Goto(p.(mutex := None), t, Done)
  }

  /** The pool after a run of events, if each of them was possible when it came. */
  function After(max: nat, run: seq<Event>): Option<Pool> {
    if run == [] then Some(New(max))
    else
      var before := After(max, run[..|run| - 1]);
      if before.Some? && Enabled(before.value, run[|run| - 1])
      then Some(Next(before.value, run[|run| - 1]))
      else None
  }

  // ----- Counting threads -----

  /** Between putting a permit into the channel and taking one out again. */
  predicate HasPermit(pc: Pc) {
    pc.Scanning? || pc.Dialling? || pc.Registering? || pc.Using? || pc.Returning? || pc.Unpermitting?
  }

  predicate HoldsPermit(pc: Pc, addr: string) {
    HasPermit(pc) && pc.addr == addr
  }

  /** Dialling, or holding a socket of this address. */
  predicate Engaged(pc: Pc, addr: string) {
    && (pc.Dialling? || pc.Registering? || pc.Using? || pc.Returning? || pc.Unpermitting? || pc.Storing?)
    && pc.addr == addr
  }

  function HasConn(pc: Pc): Option<Conn> {
    match pc
    case Registering(_, c) => Some(c)
    case Using(_, c) => Some(c)
    case Returning(_, c, _) => Some(c)
    case Unpermitting(_, c, _) => Some(c)
    case Storing(_, c, _) => Some(c)
    case _ => None
  }

  ghost function Where(threads: map<Tid, Pc>, f: Pc -> bool): set<Tid> {
    set t | t in threads && f(threads[t])
  }

  ghost function Holders(threads: map<Tid, Pc>, addr: string): set<Tid> {
    Where(threads, pc => HoldsPermit(pc, addr))
  }

  ghost function EngagedThreads(threads: map<Tid, Pc>, addr: string): set<Tid> {
    Where(threads, pc => Engaged(pc, addr))
  }

  /** How a count of threads changes when one thread moves. */
  lemma WhereAfter(threads: map<Tid, Pc>, t: Tid, pc: Pc, f: Pc -> bool)
    ensures |Where(threads[t := pc], f)|
         == |Where(threads, f)| - (if t in threads && f(threads[t]) then 1 else 0) + (if f(pc) then 1 else 0)
  {
    var before, after := Where(threads, f), Where(threads[t := pc], f);
    forall u ensures u in before - {t} <==> u in after - {t} {
    }
    assert before - {t} == after - {t};
    SizeWithout(before, t);
    SizeWithout(after, t);
  }

  lemma SizeWithout(s: set<Tid>, t: Tid)
    ensures |s| == |s - {t}| + if t in s then 1 else 0
  {
  }

  lemma HoldersAfter(threads: map<Tid, Pc>, t: Tid, pc: Pc, addr: string)
    ensures |Holders(threads[t := pc], addr)|
         == |Holders(threads, addr)| - (if t in threads && HoldsPermit(threads[t], addr) then 1 else 0)
            + (if HoldsPermit(pc, addr) then 1 else 0)
  {
    WhereAfter(threads, t, pc, pc => HoldsPermit(pc, addr));
  }

  lemma EngagedAfter(threads: map<Tid, Pc>, t: Tid, pc: Pc, addr: string)
    ensures |EngagedThreads(threads[t := pc], addr)|
         == |EngagedThreads(threads, addr)| - (if t in threads && Engaged(threads[t], addr) then 1 else 0)
            + (if Engaged(pc, addr) then 1 else 0)
  {
    WhereAfter(threads, t, pc, pc => Engaged(pc, addr));
  }
}
