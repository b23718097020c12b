/** What a round of the distribution does with the answers of the peers. */
module DistributionOutcome {
  import opened Distribution
  import opened DistributionSafety
  import opened Outcomes

  // ----- What was heard -----

  datatype ProbeResult = ProbeResult(ok: bool, ready: bool)
  datatype StartResult = StartResult(started: bool, status: Status)
  datatype PollResult = PollResult(answered: bool, sameTask: bool, now: Status)

  /** The last answers of one peer. */
  datatype Heard = Heard(probe: Option<ProbeResult>, start: Option<StartResult>, poll: Option<PollResult>)

  function HeardFrom(events: seq<Event>, p: PeerId): Heard {
    if events == [] then Heard(None, None, None)
    else
      var before := HeardFrom(events[..|events| - 1], p);
      match events[|events| - 1]
      case Act(q, ProbeAnswer(ok, ready)) => if q == p then before.(probe := Some(ProbeResult(ok, ready))) else before
      case Act(q, StartAnswer(ok, status)) => if q == p then before.(start := Some(StartResult(ok, status))) else before
      case Act(q, PollAnswer(ok, same, now)) =>
        if q == p then before.(poll := Some(PollResult(ok, same, now))) else before
      case _ => before
  }

  /** The member that a newcomer becomes: left out after a bad probe or a refused start, and
      otherwise with the status that it reports. */
  ghost predicate Admitted(h: Heard, m: Member) {
    h.probe.Some? &&
    if !h.probe.value.ok then m == Member(false, None)
    else
      h.start.Some? &&
      if h.start.value.started then m == Member(h.probe.value.ready, Some(h.start.value.status))
      else m == Member(false, Some(Failed))
  }

  /** What a poll makes of a member: failed without an answer, the reported status of the same
      task, and nothing new about another task. */
  ghost predicate Updated(h: Heard, before: Member, m: Member) {
    && h.poll.Some?
    && m.ready == before.ready
    && (!h.poll.value.answered ==> m.task == Some(Failed))
    && (h.poll.value.answered && h.poll.value.sameTask ==> m.task == Some(h.poll.value.now))
    && (h.poll.value.answered && !h.poll.value.sameTask ==> m.task == before.task)
  }

  // ----- The invariant of a round -----

  /** The result of a goroutine, with the start that a good probe led to. */
  ghost predicate Follows(base: State, log: seq<Message>, h: Heard, p: PeerId, m: Member) {
    if p in base.members then Updated(h, base.members[p], m)
    else Admitted(h, m) && (h.probe.value.ok ==> SaidSince(log, |base.log|, p, Start))
  }

  ghost predicate Unchanged(base: State, s: State, p: PeerId) {
    (p in s.members <==> p in base.members) && (p in base.members ==> s.members[p] == base.members[p])
  }

  ghost predicate JobTold(base: State, s: State, h: Heard, p: PeerId, job: Job) {
    && job.seen == (p in base.members) && (job.seen ==> job.member == base.members[p])
    && (job.phase != Gone ==> Unchanged(base, s, p))
    && match job.phase
       case Waiting => true
       case Probing => !job.seen
       case Probed(ready) => !job.seen && h.probe == Some(ProbeResult(true, ready))
       case Starting(ready) =>
         !job.seen && h.probe == Some(ProbeResult(true, ready)) && SaidSince(s.log, |base.log|, p, Start)
       case Polling => job.seen
       case Storing(result) => Follows(base, s.log, h, p, result)
       case Gone => s.cancelled || (p in s.members && Follows(base, s.log, h, p, s.members[p]))
  }

  ghost predicate Told(base: State, s: State, h: Heard, p: PeerId) {
    && s.round.Some? && |base.log| <= |s.log|
    && if p in s.round.value.jobs then JobTold(base, s, h, p, s.round.value.jobs[p]) else Unchanged(base, s, p)
  }

  lemma OwnStep(base: State, s: State, h: Heard, next: Heard, p: PeerId, a: Action)
    requires Told(base, s, h, p) && p in s.round.value.jobs && CanAct(s.round.value.jobs[p], a, s.cancelled)
    requires a.ProbeAnswer? ==> next == h.(probe := Some(ProbeResult(a.ok, a.ready)))
    requires a.StartAnswer? ==> next == h.(start := Some(StartResult(a.started, a.status)))
    requires a.PollAnswer? ==> next == h.(poll := Some(PollResult(a.answered, a.sameTask, a.now)))
    requires !a.ProbeAnswer? && !a.StartAnswer? && !a.PollAnswer? ==> next == h
    ensures Told(base, Acted(s, s.round.value, p, a), next, p)
  {
    hide SaidSince, Logged;
    SaidSinceAfter(s.log, |base.log|, p, Said(a), p, Start);
    LogGrows(s.log, p, Said(a));
  }

  lemma LogGrows(log: seq<Message>, p: PeerId, said: Option<Kind>)
    ensures |log| <= |Logged(log, p, said)|
  {
  }

  lemma OtherStep(base: State, s: State, h: Heard, p: PeerId, q: PeerId, a: Action)
    requires Told(base, s, h, p) && q in s.round.value.jobs && CanAct(s.round.value.jobs[q], a, s.cancelled) && q != p
    ensures Told(base, Acted(s, s.round.value, q, a), h, p)
  {
    hide SaidSince, Logged, PhaseAfter, CanAct;
    SaidSinceAfter(s.log, |base.log|, q, Said(a), p, Start);
    LogGrows(s.log, q, Said(a));
  }

  lemma {:induction false} ToldAlways(base: State, peers: set<PeerId>, events: seq<Event>, p: PeerId)
    requires Enabled(base, BeginRound(peers)) && EndRound !in events
    requires After(Next(base, BeginRound(peers)), events).Some?
    ensures Told(base, After(Next(base, BeginRound(peers)), events).value, HeardFrom(events, p), p)
  {
    var begun := Next(base, BeginRound(peers));
    if events != [] {
      var init, e := events[..|events| - 1], events[|events| - 1];
      ToldAlways(base, peers, init, p);
      var s := After(begun, init).value;
      hide Told, Acted, CanAct;
      TellsRound(base, s, HeardFrom(init, p), p);
      match e
      case Act(q, a) =>
        if q == p {
          OwnStep(base, s, HeardFrom(init, p), HeardFrom(events, p), p, a);
        } else {
          OtherStep(base, s, HeardFrom(init, p), p, q, a);
        }
      case Pause => FlagsChange(base, s, HeardFrom(init, p), p);
      case Cancel => FlagsChange(base, s, HeardFrom(init, p), p);
      case _ =>
    }
  }

  lemma TellsRound(base: State, s: State, h: Heard, p: PeerId)
    requires Told(base, s, h, p)
    ensures s.round.Some?
  {
  }

  lemma FlagsChange(base: State, s: State, h: Heard, p: PeerId)
    requires Told(base, s, h, p)
    ensures Told(base, s.(active := false), h, p) && Told(base, s.(cancelled := true), h, p)
  {
    hide SaidSince;
  }

  /** In a round that ends without cancellation every newcomer was probed and, after a good probe,
      started, if the round was accepting; it became what its answers say.  Every running member
      is as its poll says, and nobody else changed. */
  lemma AnswersAreKept(base: State, peers: set<PeerId>, events: seq<Event>, p: PeerId)
    requires Enabled(base, BeginRound(peers)) && EndRound !in events
    requires
      var end := After(Next(base, BeginRound(peers)), events);
      end.Some? && Enabled(end.value, EndRound) && !end.value.cancelled
    ensures
      var s, h := After(Next(base, BeginRound(peers)), events).value, HeardFrom(events, p);
      if p in peers && p !in base.members && base.active then
        && p in s.members && Admitted(h, s.members[p])
        && (h.probe.value.ok ==> SaidSince(s.log, |base.log|, p, Start))
      else if p in peers && p in base.members && base.members[p].task == Some(Running) then
        p in s.members && Updated(h, base.members[p], s.members[p])
      else Unchanged(base, s, p)
  {
    hide After, SaidSince, Admitted, Updated, HeardFrom;
    ToldAlways(base, peers, events, p);
    RoundBegins(base, peers);
    RoundAlways(base, peers, Next(base, BeginRound(peers)), events);
    assert p in NewJobs(base.members, base.active, peers) <==> p in peers && Wanted(base.members, base.active, p);
  }
}
