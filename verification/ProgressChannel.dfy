/** The progress channel of a client: bounded, and dropping its oldest entry rather than
    making the download wait.  The consumer may receive between any two steps of an emit. */
module ProgressChannel {
  import opened Outcomes

  const CAPACITY: nat := 16

  datatype Status = Downloading | Completed | Failed | Cancelled

  datatype Info = Info(status: Status, downloaded: nat)

  /** Where an emit stands: it tries to send, drops one entry, then sends for good. */
  datatype Emitter = Idle | Trying(info: Info) | Draining(info: Info) | Sending(info: Info)

  datatype Phase = Running | Ended | Closed

  /** emitted, delivered and lost are history variables. */
  datatype State = State(
    buffer: seq<Info>, emitter: Emitter, phase: Phase, status: Info,
    emitted: seq<Info>, delivered: seq<Info>, lost: nat)

  datatype Event =
    | Report(downloaded: nat)
    | Complete(total: nat)
    | Fail(ctxDone: bool)
    | TrySend
    | Drop
    | Send
    | Close
    | Receive

  const START: State := State([], Idle, Running, Info(Downloading, 0), [], [], 0)

  predicate Enabled(s: State, e: Event) {
    match e
    case Report(_) => s.phase == Running && s.emitter == Idle
    case Complete(_) => s.phase == Running && s.emitter == Idle
    case Fail(_) => s.phase == Running && s.emitter == Idle
    case TrySend => s.emitter.Trying?
    case Drop => s.emitter.Draining?
    case Send => s.emitter.Sending? && |s.buffer| < CAPACITY
    case Close => s.phase == Ended && s.emitter == Idle
    case Receive => s.buffer != []
  }

  function Emit(s: State, info: Info, phase: Phase): State {
    s.(emitter := Trying(info), phase := phase, status := info, emitted := s.emitted + [info])
  }

  function Push(s: State, info: Info): State {
    s.(buffer := s.buffer + [info], emitter := Idle)
  }

  function Next(s: State, e: Event): State
    requires Enabled(s, e)
  {
    match e
    case Report(downloaded) => Emit(s, Info(Downloading, downloaded), Running)
    case Complete(total) => Emit(s, Info(Completed, total), Ended)
    case Fail(ctxDone) => Emit(s, s.status.(status := if ctxDone then Cancelled else Failed), Ended)
    case TrySend =>
      if |s.buffer| < CAPACITY then Push(s, s.emitter.info) else s.(emitter := Draining(s.emitter.info))
    case Drop =>
      if s.buffer == [] then s.(emitter := Sending(s.emitter.info))
      else s.(buffer := s.buffer[1..], emitter := Sending(s.emitter.info), lost := s.lost + 1)
    case Send => Push(s, s.emitter.info)
    case Close => s.(phase := Closed)
    case Receive => s.(buffer := s.buffer[1..], delivered := s.delivered + [s.buffer[0]])
  }

  function After(events: seq<Event>): Option<State> {
    if events == [] then Some(START)
    else
      var e := events[|events| - 1];
      match After(events[..|events| - 1])
      case None => None
      case Some(s) => if Enabled(s, e) then Some(Next(s, e)) else None
  }

  // ----- Subsequences -----

  /** a is b with some entries left out. */
  predicate Subsequence(a: seq<Info>, b: seq<Info>) {
    a == [] ||
    (b != [] &&
     (Subsequence(a, b[..|b| - 1]) ||
      (a[|a| - 1] == b[|b| - 1] && Subsequence(a[..|a| - 1], b[..|b| - 1]))))
  }

  lemma SubsequenceSkips(a: seq<Info>, b: seq<Info>, x: Info)
    requires Subsequence(a, b)
    ensures Subsequence(a, b + [x])
  {
    assert (b + [x])[..|b|] == b;
  }

  lemma SubsequenceTakes(a: seq<Info>, b: seq<Info>, x: Info)
    requires Subsequence(a, b)
    ensures Subsequence(a + [x], b + [x])
  {
    assert (b + [x])[..|b|] == b && (a + [x])[..|a|] == a;
  }

  function Without(a: seq<Info>, k: nat): seq<Info>
    requires k < |a|
  {
    a[..k] + a[k + 1..]
  }

  lemma SubsequenceEnds(a: seq<Info>, b: seq<Info>)
    requires Subsequence(a, b) && a != []
    ensures b != []
    ensures
      var init := b[..|b| - 1];
      Subsequence(a, init) || (a[|a| - 1] == b[|b| - 1] && Subsequence(a[..|a| - 1], init))
  {
  }

  lemma {:induction false} SubsequenceLoses(a: seq<Info>, b: seq<Info>, k: nat)
    requires Subsequence(a, b) && k < |a|
    ensures Subsequence(Without(a, k), b)
  {
    SubsequenceEnds(a, b);
    hide Subsequence;
    var init := b[..|b| - 1];
    assert b == init + [b[|b| - 1]];
    if Subsequence(a, init) {
      SubsequenceLoses(a, init, k);
      SubsequenceSkips(Without(a, k), init, b[|b| - 1]);
    } else {
      var rest := a[..|a| - 1];
      if k == |a| - 1 {
        assert Without(a, k) == rest;
        SubsequenceSkips(rest, init, b[|b| - 1]);
      } else {
        SubsequenceLoses(rest, init, k);
        SubsequenceTakes(Without(rest, k), init, b[|b| - 1]);
        assert Without(a, k) == Without(rest, k) + [a[|a| - 1]];
      }
    }
  }

  // ----- The invariant -----

  function Seen(s: State): seq<Info> {
    s.delivered + s.buffer
  }

  /** The entry being emitted is not in the buffer yet, everything before it was. */
  ghost predicate InOrder(s: State) {
    if s.emitter == Idle then
      Subsequence(Seen(s), s.emitted)
    else
      && s.emitted != [] && s.emitted[|s.emitted| - 1] == s.emitter.info
      && Subsequence(Seen(s), s.emitted[..|s.emitted| - 1])
  }

  ghost predicate LatestKept(s: State) {
    && (s.emitted != [] ==> s.status == s.emitted[|s.emitted| - 1])
    && (s.emitted != [] && s.emitter == Idle ==>
          Seen(s) != [] && Seen(s)[|Seen(s)| - 1] == s.emitted[|s.emitted| - 1])
  }

  ghost predicate Roomy(s: State) {
    |s.buffer| <= CAPACITY && (s.emitter.Sending? ==> |s.buffer| < CAPACITY)
  }

  ghost predicate Conserved(s: State) {
    |s.emitted| == |s.delivered| + |s.buffer| + s.lost + if s.emitter == Idle then 0 else 1
  }

  /** All entries but the last are progress reports, and the last one is not once the
      download has ended. */
  ghost predicate TerminalLast(s: State) {
    && (forall k :: 0 <= k < |s.emitted| - 1 ==> s.emitted[k].status == Downloading)
    && (s.phase == Running && s.emitted != [] ==> s.emitted[|s.emitted| - 1].status == Downloading)
    && (s.phase != Running ==> s.emitted != [] && s.emitted[|s.emitted| - 1].status != Downloading)
  }

  ghost predicate Inv(s: State) {
    InOrder(s) && LatestKept(s) && Roomy(s) && Conserved(s) && TerminalLast(s)
  }

  lemma PushStep(s: State)
    requires Inv(s) && s.emitter != Idle && |s.buffer| < CAPACITY
    ensures Inv(Push(s, s.emitter.info))
  {
    var init := s.emitted[..|s.emitted| - 1];
    SubsequenceTakes(Seen(s), init, s.emitter.info);
    assert init + [s.emitter.info] == s.emitted;
    assert Seen(Push(s, s.emitter.info)) == Seen(s) + [s.emitter.info];
  }

  lemma EmitStep(s: State, info: Info, phase: Phase)
    requires Inv(s) && s.emitter == Idle && s.phase == Running
    requires phase == Running <==> info.status == Downloading
    ensures Inv(Emit(s, info, phase))
  {
  }

  /** Dropping the oldest buffered entry leaves one entry out of what is seen. */
  lemma SeenWithoutOldest(delivered: seq<Info>, buffer: seq<Info>)
    requires buffer != []
    ensures delivered + buffer[1..] == Without(delivered + buffer, |delivered|)
  {
  }

  lemma DropKeepsOrder(s: State)
    requires InOrder(s) && s.emitter.Draining?
    ensures InOrder(Next(s, Drop))
  {
    hide Subsequence, Without;
    if s.buffer != [] {
      SubsequenceLoses(Seen(s), s.emitted[..|s.emitted| - 1], |s.delivered|);
      SeenWithoutOldest(s.delivered, s.buffer);
    }
  }

  lemma DropStep(s: State)
    requires Inv(s) && s.emitter.Draining?
    ensures Inv(Next(s, Drop))
  {
    hide InOrder;
    DropKeepsOrder(s);
  }

  lemma ReceiveStep(s: State)
    requires Inv(s) && s.buffer != []
    ensures Inv(Next(s, Receive))
  {
    hide Subsequence;
    assert Seen(Next(s, Receive)) == Seen(s);
  }

  /** A full buffer makes the emitter drain it. */
  lemma FullStep(s: State)
    requires Inv(s) && s.emitter.Trying?
    ensures Inv(s.(emitter := Draining(s.emitter.info)))
  {
    hide Subsequence;
    assert Seen(s.(emitter := Draining(s.emitter.info))) == Seen(s);
  }

  lemma CloseStep(s: State)
    requires Inv(s) && s.phase == Ended
    ensures Inv(s.(phase := Closed))
  {
    hide Subsequence;
    assert Seen(s.(phase := Closed)) == Seen(s);
  }

  lemma InvStep(s: State, e: Event)
    requires Inv(s) && Enabled(s, e)
    ensures Inv(Next(s, e))
  {
    hide Inv, Emit, Push;
    match e
    case Report(downloaded) => EmitStep(s, Info(Downloading, downloaded), Running);
    case Complete(total) => EmitStep(s, Info(Completed, total), Ended);
    case Fail(ctxDone) => EmitStep(s, s.status.(status := if ctxDone then Cancelled else Failed), Ended);
    case TrySend =>
      if |s.buffer| < CAPACITY {
        PushStep(s);
      } else {
        FullStep(s);
      }
    case Drop => DropStep(s);
    case Send => PushStep(s);
    case Close => CloseStep(s);
    case Receive => ReceiveStep(s);
  }

  lemma {:induction false} InvAlways(events: seq<Event>)
    requires After(events).Some?
    ensures Inv(After(events).value)
  {
    if events == [] {
    } else {
      hide Inv, Enabled, Next;
      InvAlways(events[..|events| - 1]);
      InvStep(After(events[..|events| - 1]).value, events[|events| - 1]);
    }
  }

  // ----- The promises -----

  function NextOfEmit(emitter: Emitter): Event
    requires emitter != Idle
  {
    match emitter
    case Trying(_) => TrySend
    case Draining(_) => Drop
    case Sending(_) => Send
  }

  /** Whatever the consumer does, an emit that has begun can always take its next step. */
  lemma EmitNeverBlocks(events: seq<Event>)
    requires After(events).Some?
    ensures
      var s := After(events).value;
      s.emitter != Idle ==> Enabled(s, NextOfEmit(s.emitter))
  {
    InvAlways(events);
  }

  lemma InOrderMeans(s: State)
    requires InOrder(s)
    ensures Subsequence(Seen(s), s.emitted)
  {
  }

  /** Delivered and buffered entries are the emitted ones in their order, with as many left
      out as were dropped, and always include the latest one once its emit is over. */
  lemma ConsumerSeesInOrder(events: seq<Event>)
    requires After(events).Some?
    ensures
      var s := After(events).value;
      && Subsequence(Seen(s), s.emitted)
      && (s.emitter == Idle ==> |s.emitted| == |Seen(s)| + s.lost)
      && (s.emitter == Idle && s.emitted != [] ==>
            Seen(s) != [] && Seen(s)[|Seen(s)| - 1] == s.emitted[|s.emitted| - 1])
  {
    hide Subsequence, After, InOrder;
    InvAlways(events);
    InOrderMeans(After(events).value);
  }

  /** A consumer that drains the channel to its close has seen the final status last. */
  lemma DrainedSeesFinalStatus(events: seq<Event>)
    requires After(events).Some?
    requires After(events).value.phase == Closed && After(events).value.buffer == []
    ensures
      var s := After(events).value;
      && s.delivered != []
      && s.delivered[|s.delivered| - 1] == s.status
      && s.status.status != Downloading
  {
    hide Subsequence;
    InvAlways(events);
    ClosedIsIdle(events);
    assert Seen(After(events).value) == After(events).value.delivered;
  }

  lemma {:induction false} ClosedIsIdle(events: seq<Event>)
    requires After(events).Some?
    ensures After(events).value.phase == Closed ==> After(events).value.emitter == Idle
  {
    if events != [] {
      ClosedIsIdle(events[..|events| - 1]);
    }
  }

  // ----- Which entries those are -----

  /** The number of chunks that was reported last. */
  function LastReport(events: seq<Event>): nat {
    if events == [] then 0
    else
      match events[|events| - 1]
      case Report(downloaded) => downloaded
      case _ => LastReport(events[..|events| - 1])
  }

  /** What the events have to say to the consumer: each progress report, the completion, or how
      and where the download failed. */
  function Entries(events: seq<Event>): seq<Info> {
    if events == [] then []
    else
      var init := events[..|events| - 1];
      match events[|events| - 1]
      case Report(downloaded) => Entries(init) + [Info(Downloading, downloaded)]
      case Complete(total) => Entries(init) + [Info(Completed, total)]
      case Fail(true) => Entries(init) + [Info(Cancelled, LastReport(init))]
      case Fail(false) => Entries(init) + [Info(Failed, LastReport(init))]
      case _ => Entries(init)
  }

  /** Exactly these entries are emitted. */
  lemma {:induction false} EmittedAreEntries(events: seq<Event>)
    requires After(events).Some?
    ensures
      var s := After(events).value;
      && s.emitted == Entries(events)
      && (s.phase == Running ==> s.status == Info(Downloading, LastReport(events)))
  {
    if events != [] {
      EmittedAreEntries(events[..|events| - 1]);
    }
  }

  predicate Speaks(e: Event) {
    e.Report? || e.Complete? || e.Fail?
  }

  /** The last entry is that of the last event that says anything. */
  lemma {:induction false} LastEntry(events: seq<Event>) returns (k: nat)
    requires Entries(events) != []
    ensures k < |events| && Speaks(events[k]) && forall j :: k < j < |events| ==> !Speaks(events[j])
    ensures
      var final, reported := Entries(events)[|Entries(events)| - 1], LastReport(events[..k]);
      match events[k]
      case Report(downloaded) => final == Info(Downloading, downloaded)
      case Complete(total) => final == Info(Completed, total)
      case Fail(ctxDone) => final == Info(if ctxDone then Cancelled else Failed, reported)
      case _ => true
  {
    var init := events[..|events| - 1];
    if Speaks(events[|events| - 1]) {
      k := |events| - 1;
    } else {
      k := LastEntry(init);
      assert init[..k] == events[..k];
    }
  }

  /** A consumer that drains the channel to its close has seen the outcome last: completed with
      the total, cancelled or failed with the number that was reported last before. */
  lemma DrainedSeesOutcome(events: seq<Event>)
    requires After(events).Some?
    requires After(events).value.phase == Closed && After(events).value.buffer == []
    ensures
      var delivered := After(events).value.delivered;
      delivered != [] &&
      var final := delivered[|delivered| - 1];
      exists k ::
        && 0 <= k < |events| && (forall j :: k < j < |events| ==> !Speaks(events[j]))
        && ((events[k].Complete? && final == Info(Completed, events[k].total))
            || (events[k] == Fail(true) && final == Info(Cancelled, LastReport(events[..k])))
            || (events[k] == Fail(false) && final == Info(Failed, LastReport(events[..k]))))
  {
    DrainedSeesFinalStatus(events);
    EmittedAreEntries(events);
    StatusIsLatest(events);
    hide After, Entries, LastReport;
    var k := LastEntry(events);
  }

  lemma StatusIsLatest(events: seq<Event>)
    requires After(events).Some? && After(events).value.phase != Running
    ensures
      var s := After(events).value;
      s.emitted != [] && s.status == s.emitted[|s.emitted| - 1]
  {
    hide InOrder, After;
    InvAlways(events);
  }
}
