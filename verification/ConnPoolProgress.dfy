/** The connection pool never gets stuck: calls only ever wait for borrowers. */
module ConnPoolProgress {
  import opened Outcomes
  import opened ConnPool
  import opened ConnPoolSafety

  /** Inside GetConnContext, release or Close. */
  predicate InCall(pc: Pc) {
    !pc.Done? && !pc.Using?
  }

  /** The step goes on with a call that has begun.  Giving up belongs to the caller, except on a
      closed pool. */
  predicate GoesOn(p: Pool, e: Event) {
    match e
    case Enter(_, _) => false
    case Put(_, _) => false
    case CloseBegin(_) => false
    case Abandon(_) => p.closed
    case _ => true
  }

  ghost predicate CanProgress(p: Pool) {
    exists e :: Progress(p, e)
  }

  ghost predicate Progress(p: Pool, e: Event) {
    Enabled(p, e) && GoesOn(p, e)
  }

  /** All permits of the address belong to sockets that callers have in use. */
  ghost predicate WaitsForBorrowers(p: Pool, t: Tid) {
    && At(p, t).Acquiring? && !p.closed
    && var a := At(p, t).addr;
    && BucketOf(p, a).permits == p.max == |Holders(p.threads, a)|
    && forall u :: u in Holders(p.threads, a) ==> At(p, u).Using?
  }

  // ----- Who can go on -----

  lemma PermitIsThere(p: Pool, t: Tid)
    requires Inv(p) && HasPermit(At(p, t))
    ensures BucketOf(p, At(p, t).addr).permits > 0
  {
    assert BucketOk(p, At(p, t).addr);
    assert t in Holders(p.threads, At(p, t).addr);
  }

  /** The owner of the mutex can go on. */
  lemma OwnerGoesOn(p: Pool, t: Tid)
    requires Inv(p) && p.mutex == Some(t)
    ensures CanProgress(p)
  {
    assert ThreadOk(p, t);
    match At(p, t)
    case Unpermitting(_, _, _) =>
      PermitIsThere(p, t);
      assert Progress(p, ReturnPermit(t));
    case Storing(_, _, _) =>
      assert Progress(p, Store(t, true));
    case Draining =>
      if AllDrained(p) {
        assert Progress(p, CloseEnd(t));
      } else {
        var a :| a in p.buckets && p.buckets[a].idle != [];
        assert Progress(p, Drain(t, a));
      }
  }

  /** So can, while the mutex is free, everybody in a call who is not waiting for a permit. */
  lemma HolderGoesOn(p: Pool, t: Tid)
    requires Inv(p) && p.mutex.None? && InCall(At(p, t)) && !At(p, t).Acquiring?
    ensures CanProgress(p)
  {
    assert ThreadOk(p, t);
    PermitIsThere(p, t);
    match At(p, t)
    case Scanning(a) =>
      assert Progress(p, if BucketOf(p, a).idle == [] then NoIdle(t) else TakeIdle(t, true));
    case Dialling(_) =>
      assert Progress(p, DialError(t));
    case Registering(_, _) =>
      assert Progress(p, Register(t));
    case Returning(_, _, _) =>
      assert Progress(p, LockRelease(t));
  }

  /** Without a step to go on with, a waiting call waits for borrowers. */
  lemma WaiterIsBlocked(p: Pool, t: Tid)
    requires Inv(p) && !CanProgress(p) && At(p, t).Acquiring?
    ensures WaitsForBorrowers(p, t)
  {
    var a := At(p, t).addr;
    assert BucketOk(p, a);
    assert !Progress(p, Abandon(t)) && !Progress(p, Acquire(t));
    forall u | u in Holders(p.threads, a)
      ensures At(p, u).Using?
    {
      if p.mutex.Some? {
        OwnerGoesOn(p, p.mutex.value);
      } else if !At(p, u).Using? {
        HolderGoesOn(p, u);
      }
    }
  }

  // ----- When nobody can -----

  lemma NobodyBlockedGoesOn(p: Pool, e: Event)
    requires Progress(p, e)
    ensures InCall(At(p, e.t)) && !WaitsForBorrowers(p, e.t)
  {
  }

  /** In every reachable state, no call can go on if and only if every call that has begun waits
      for a permit of an address whose permits all belong to borrowed sockets. */
  lemma StuckExactlyOnBorrowers(max: nat, run: seq<Event>)
    requires After(max, run).Some?
    ensures
      var p := After(max, run).value;
      !CanProgress(p) <==> forall t: Tid :: InCall(At(p, t)) ==> WaitsForBorrowers(p, t)
  {
    var p := After(max, run).value;
    InvAlways(max, run);
    hide After, Inv, Progress, WaitsForBorrowers;
    if !CanProgress(p) {
      forall t: Tid | InCall(At(p, t))
        ensures WaitsForBorrowers(p, t)
      {
        if p.mutex.Some? {
          OwnerGoesOn(p, p.mutex.value);
        } else if !At(p, t).Acquiring? {
          HolderGoesOn(p, t);
        }
        WaiterIsBlocked(p, t);
      }
    } else {
      var e :| Progress(p, e);
      NobodyBlockedGoesOn(p, e);
    }
  }
}
