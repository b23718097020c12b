/** Each peer is started at most once and only after a good probe; pausing admits nobody new. */
module DistributionSafety {
  import opened Distribution
  import opened Outcomes

  // ----- What the log says about a peer -----

  ghost predicate Says(log: seq<Message>, p: PeerId, k: Kind) {
    Message(p, k) in log
  }

  /** Nothing but polls ever passed between the sender and the peer. */
  ghost predicate Untouched(log: seq<Message>, p: PeerId) {
    !Says(log, p, Probe) && !Says(log, p, Good) && !Says(log, p, Bad) && !Says(log, p, Start)
  }

  // ----- The invariant -----

  /** A goroutine is at work on a newcomer and has not given up. */
  ghost predicate AtWork(s: State, p: PeerId) {
    s.round.Some? && p in s.round.value.jobs &&
    var job := s.round.value.jobs[p];
    !job.seen && job.phase != Waiting && job.phase != Gone
  }

  /** Who was contacted as a newcomer is a member, or still being dealt with, or the
      whole distribution is cancelled. */
  ghost predicate TouchedAreKnown(s: State) {
    forall p :: !Untouched(s.log, p) ==> p in s.members || s.cancelled || AtWork(s, p)
  }

  /** What may have been said so far to a newcomer, phase by phase. */
  ghost predicate JobFits(log: seq<Message>, p: PeerId, job: Job) {
    && (!job.seen && job.phase == Waiting ==> Untouched(log, p))
    && (job.phase == Probing ==> !Says(log, p, Good) && !Says(log, p, Bad) && !Says(log, p, Start))
    && (job.phase.Probed? ==> Says(log, p, Good) && !Says(log, p, Bad) && !Says(log, p, Start))
    && (job.phase.Probing? || job.phase.Probed? || job.phase.Starting? ==> !job.seen)
  }

  ghost predicate JobsFit(s: State) {
    s.round.Some? ==> forall p :: p in s.round.value.jobs ==> JobFits(s.log, p, s.round.value.jobs[p])
  }

  ghost predicate ProbedBefore(log: seq<Message>, k: nat, p: PeerId) {
    exists j :: 0 <= j < k && j < |log| && log[j] == Message(p, Good)
  }

  /** Every start is the only one for its peer, after a good probe, and no probe of it failed. */
  ghost predicate StartsFine(log: seq<Message>) {
    && (forall k :: 0 <= k < |log| && log[k].kind == Start ==>
          ProbedBefore(log, k, log[k].peer) && !Says(log, log[k].peer, Bad))
    && (forall j, k :: 0 <= j < k < |log| && log[j].kind == Start && log[k].kind == Start ==>
          log[j].peer != log[k].peer)
  }

  ghost predicate Inv(s: State) {
    TouchedAreKnown(s) && JobsFit(s) && StartsFine(s.log)
  }

  // ----- Steps of one goroutine -----

  lemma JobStep(log: seq<Message>, p: PeerId, job: Job, a: Action, cancelled: bool)
    requires JobFits(log, p, job) && CanAct(job, a, cancelled)
    ensures JobFits(Logged(log, p, Said(a)), p, job.(phase := PhaseAfter(job, a, cancelled)))
  {
  }

  lemma OtherJob(log: seq<Message>, p: PeerId, said: Option<Kind>, q: PeerId, job: Job)
    requires JobFits(log, q, job) && q != p
    ensures JobFits(Logged(log, p, said), q, job)
  {
  }

  lemma ActKeepsJobs(s: State, r: Round, p: PeerId, a: Action)
    requires s.round == Some(r) && p in r.jobs && CanAct(r.jobs[p], a, s.cancelled) && JobsFit(s)
    ensures JobsFit(Acted(s, r, p, a))
  {
    hide JobFits, CanAct, PhaseAfter, Said, Logged;
    var next := Acted(s, r, p, a);
    forall q | q in next.round.value.jobs
      ensures JobFits(next.log, q, next.round.value.jobs[q])
    {
      assert JobFits(s.log, q, r.jobs[q]);
      if q == p {
        JobStep(s.log, p, r.jobs[p], a, s.cancelled);
      } else {
        OtherJob(s.log, p, Said(a), q, r.jobs[q]);
      }
    }
  }

  lemma OneStaysKnown(s: State, r: Round, p: PeerId, a: Action, q: PeerId)
    requires s.round == Some(r) && p in r.jobs && CanAct(r.jobs[p], a, s.cancelled)
    requires JobFits(s.log, p, r.jobs[p])
    requires Untouched(s.log, q) || q in s.members || s.cancelled || AtWork(s, q)
    ensures
      var next := Acted(s, r, p, a);
      Untouched(next.log, q) || q in next.members || next.cancelled || AtWork(next, q)
  {
  }

  lemma ActKeepsKnown(s: State, r: Round, p: PeerId, a: Action)
    requires s.round == Some(r) && p in r.jobs && CanAct(r.jobs[p], a, s.cancelled)
    requires JobsFit(s) && TouchedAreKnown(s)
    ensures TouchedAreKnown(Acted(s, r, p, a))
  {
    hide Untouched, JobFits, CanAct, Acted, AtWork;
    forall q | !Untouched(Acted(s, r, p, a).log, q)
      ensures q in Acted(s, r, p, a).members || Acted(s, r, p, a).cancelled || AtWork(Acted(s, r, p, a), q)
    {
      OneStaysKnown(s, r, p, a, q);
    }
  }

  lemma StartsFineNext(log: seq<Message>, p: PeerId, k: Kind)
    requires StartsFine(log)
    requires k == Start ==> Says(log, p, Good) && !Says(log, p, Bad) && !Says(log, p, Start)
    requires k == Bad ==> !Says(log, p, Start)
    ensures StartsFine(log + [Message(p, k)])
  {
    var all := log + [Message(p, k)];
    forall i | 0 <= i < |all| && all[i].kind == Start
      ensures ProbedBefore(all, i, all[i].peer)
    {
      if i < |log| {
        var j :| 0 <= j < i && j < |log| && log[j] == Message(log[i].peer, Good);
        assert all[j] == Message(all[i].peer, Good);
      } else {
        var j :| 0 <= j < |log| && log[j] == Message(p, Good);
        assert all[j] == Message(all[i].peer, Good);
      }
    }
    forall i | 0 <= i < |all| && all[i].kind == Start
      ensures !Says(all, all[i].peer, Bad)
    {
      assert i < |log| ==> log[i] == all[i] && Says(log, log[i].peer, Start);
      assert i < |log| ==> all[i].peer != p || k != Bad;
    }
  }

  lemma ActKeepsStarts(s: State, r: Round, p: PeerId, a: Action)
    requires s.round == Some(r) && p in r.jobs && CanAct(r.jobs[p], a, s.cancelled)
    requires JobFits(s.log, p, r.jobs[p]) && StartsFine(s.log)
    ensures StartsFine(Acted(s, r, p, a).log)
  {
    hide StartsFine, Says, Untouched;
    if Said(a).Some? {
      StartsFineNext(s.log, p, Said(a).value);
    }
  }

  // ----- Steps of the loop -----

  lemma RoundKeepsInv(s: State, peers: set<PeerId>)
    requires Inv(s) && Enabled(s, BeginRound(peers))
    ensures Inv(Next(s, BeginRound(peers)))
  {
  }

  lemma EndKeepsInv(s: State)
    requires Inv(s) && Enabled(s, EndRound)
    ensures Inv(Next(s, EndRound))
  {
  }

  lemma FlagKeepsInv(s: State, e: Event)
    requires Inv(s) && (e == Pause || e == Cancel)
    ensures Inv(Next(s, e))
  {
  }

  lemma InvStep(s: State, e: Event)
    requires Inv(s) && Enabled(s, e)
    ensures Inv(Next(s, e))
  {
    match e
    case BeginRound(peers) => RoundKeepsInv(s, peers);
    case EndRound => EndKeepsInv(s);
    case Pause => FlagKeepsInv(s, e);
    case Cancel => FlagKeepsInv(s, e);
    case Act(p, a) =>
      hide JobFits, StartsFine, CanAct, TouchedAreKnown, Acted;
      ActKeepsJobs(s, s.round.value, p, a);
      ActKeepsKnown(s, s.round.value, p, a);
      ActKeepsStarts(s, s.round.value, p, a);
  }

  lemma InvAtStart()
    ensures Inv(START)
  {
  }

  lemma {:induction false} InvAlways(s: State, events: seq<Event>)
    requires Inv(s) && After(s, events).Some?
    ensures Inv(After(s, events).value)
  {
    hide Inv, Enabled, Next;
    if events != [] {
      InvAlways(s, events[..|events| - 1]);
      InvStep(After(s, events[..|events| - 1]).value, events[|events| - 1]);
    }
  }

  /** In every run each peer is sent "start" at most once, after its probe succeeded, and
      never if its probe failed. */
  lemma StartedAtMostOnce(events: seq<Event>, j: nat, k: nat)
    requires After(START, events).Some?
    requires j <= k < |After(START, events).value.log|
    ensures
      var log := After(START, events).value.log;
      && (log[k].kind == Start ==>
            ProbedBefore(log, k, log[k].peer) && !Says(log, log[k].peer, Bad))
      && (log[j].kind == Start && log[k].kind == Start && log[j].peer == log[k].peer ==> j == k)
  {
    hide After, Says, ProbedBefore, TouchedAreKnown, JobsFit;
    InvAtStart();
    InvAlways(START, events);
  }

  // ----- Pausing -----

  ghost predicate Newcomer(s: State, p: PeerId) {
    s.round.Some? && p in s.round.value.jobs && !s.round.value.jobs[p].seen
  }

  /** Since the state base only its own newcomers were contacted, others were only polled. */
  ghost predicate NobodyNew(base: State, s: State) {
    && !s.active
    && |base.log| <= |s.log|
    && (forall k :: |base.log| <= k < |s.log| && s.log[k].kind != Poll ==> Newcomer(base, s.log[k].peer))
    && (forall p :: Newcomer(s, p) ==> Newcomer(base, p))
  }

  lemma QuietStep(base: State, s: State, e: Event)
    requires NobodyNew(base, s) && Inv(s) && Enabled(s, e)
    ensures NobodyNew(base, Next(s, e))
  {
  }

  lemma {:induction false} QuietAlways(base: State, events: seq<Event>)
    requires Inv(base) && !base.active && After(base, events).Some?
    ensures NobodyNew(base, After(base, events).value)
  {
    hide Inv, Enabled, Next;
    if events != [] {
      var init := events[..|events| - 1];
      QuietAlways(base, init);
      InvAlways(base, init);
      hide NobodyNew;
      QuietStep(base, After(base, init).value, events[|events| - 1]);
    }
  }

  /** After a pause only newcomers of the round in progress are still contacted; in every
      round that begins later all messages are polls of members. */
  lemma PauseAdmitsNobody(before: seq<Event>, later: seq<Event>, k: nat)
    requires After(START, before).Some?
    requires
      var paused := Next(After(START, before).value, Pause);
      After(paused, later).Some? && |paused.log| <= k < |After(paused, later).value.log|
    ensures
      var paused := Next(After(START, before).value, Pause);
      var message := After(paused, later).value.log[k];
      message.kind == Poll || Newcomer(paused, message.peer)
  {
    hide After, Inv;
    InvAtStart();
    InvAlways(START, before);
    var paused := Next(After(START, before).value, Pause);
    InvStep(After(START, before).value, Pause);
    QuietAlways(paused, later);
  }

  // ----- Every peer of a round is served -----

  ghost predicate SaidSince(log: seq<Message>, began: nat, p: PeerId, k: Kind) {
    exists i :: began <= i < |log| && log[i] == Message(p, k)
  }

  function Due(job: Job): Kind {
    if job.seen then Poll else Probe
  }

  ghost predicate Served(log: seq<Message>, began: nat, p: PeerId, job: Job, cancelled: bool) {
    job.phase == Waiting || SaidSince(log, began, p, Due(job)) || (job.phase == Gone && cancelled)
  }

  /** s is a state of the round that began in the state base with these peers. */
  ghost predicate InRound(base: State, peers: set<PeerId>, s: State) {
    && s.round.Some?
    && var jobs := s.round.value.jobs;
    && (forall p :: p in jobs <==> p in NewJobs(base.members, base.active, peers))
    && (forall p :: p in jobs ==>
          && jobs[p].seen == (p in base.members)
          && Served(s.log, |base.log|, p, jobs[p], s.cancelled))
  }

  lemma SaidSinceAfter(log: seq<Message>, began: nat, p: PeerId, said: Option<Kind>, q: PeerId, k: Kind)
    requires began <= |log|
    ensures SaidSince(log, began, q, k) ==> SaidSince(Logged(log, p, said), began, q, k)
    ensures said == Some(k) && q == p ==> SaidSince(Logged(log, p, said), began, q, k)
  {
    var all := Logged(log, p, said);
    if SaidSince(log, began, q, k) {
      var i :| began <= i < |log| && log[i] == Message(q, k);
      assert all[i] == Message(q, k);
    }
    if said == Some(k) && q == p {
      assert all[|log|] == Message(q, k);
    }
  }

  lemma ServedStep(log: seq<Message>, began: nat, p: PeerId, job: Job, a: Action, cancelled: bool)
    requires began <= |log| && Served(log, began, p, job, cancelled) && CanAct(job, a, cancelled)
    ensures Served(Logged(log, p, Said(a)), began, p, job.(phase := PhaseAfter(job, a, cancelled)), cancelled)
  {
    hide SaidSince, Logged;
    SaidSinceAfter(log, began, p, Said(a), p, Due(job));
  }

  lemma ServedElsewhere(log: seq<Message>, began: nat, p: PeerId, said: Option<Kind>, q: PeerId, job: Job,
                        cancelled: bool)
    requires began <= |log| && Served(log, began, q, job, cancelled)
    ensures Served(Logged(log, p, said), began, q, job, cancelled)
  {
    hide SaidSince, Logged;
    SaidSinceAfter(log, began, p, said, q, Due(job));
  }

  lemma RoundStep(base: State, peers: set<PeerId>, s: State, e: Event)
    requires InRound(base, peers, s) && Enabled(s, e) && e != EndRound && |base.log| <= |s.log|
    ensures InRound(base, peers, Next(s, e)) && |base.log| <= |Next(s, e).log|
  {
    hide NewJobs;
    match e
    case Act(p, a) =>
      hide Served, CanAct, PhaseAfter, Said;
      var r := s.round.value;
      var next := Acted(s, r, p, a);
      forall q | q in next.round.value.jobs
        ensures Served(next.log, |base.log|, q, next.round.value.jobs[q], next.cancelled)
      {
        if q == p {
          ServedStep(s.log, |base.log|, p, r.jobs[p], a, s.cancelled);
        } else {
          ServedElsewhere(s.log, |base.log|, p, Said(a), q, r.jobs[q], s.cancelled);
        }
      }
    case Pause =>
    case Cancel =>
      hide SaidSince;
  }

  lemma {:induction false} RoundAlways(base: State, peers: set<PeerId>, s: State, events: seq<Event>)
    requires InRound(base, peers, s) && |base.log| <= |s.log|
    requires After(s, events).Some? && EndRound !in events
    ensures InRound(base, peers, After(s, events).value) && |base.log| <= |After(s, events).value.log|
  {
    hide InRound, Enabled, Next;
    if events != [] {
      RoundAlways(base, peers, s, events[..|events| - 1]);
      RoundStep(base, peers, After(s, events[..|events| - 1]).value, events[|events| - 1]);
    }
  }

  lemma RoundBegins(base: State, peers: set<PeerId>)
    requires Enabled(base, BeginRound(peers))
    ensures InRound(base, peers, Next(base, BeginRound(peers)))
  {
  }

  /** When a round ends without cancellation, every running member among its peers was polled
      in it, paused or not, and every newcomer was probed if the round was accepting. */
  lemma EveryoneIsServed(base: State, peers: set<PeerId>, events: seq<Event>, p: PeerId)
    requires Enabled(base, BeginRound(peers)) && EndRound !in events
    requires
      var end := After(Next(base, BeginRound(peers)), events);
      end.Some? && Enabled(end.value, EndRound) && !end.value.cancelled
    requires p in peers
    ensures
      var log := After(Next(base, BeginRound(peers)), events).value.log;
      && (p in base.members && base.members[p].task == Some(Running) ==> SaidSince(log, |base.log|, p, Poll))
      && (p !in base.members && base.active ==> SaidSince(log, |base.log|, p, Probe))
  {
    hide After, SaidSince;
    RoundBegins(base, peers);
    RoundAlways(base, peers, Next(base, BeginRound(peers)), events);
    assert Wanted(base.members, base.active, p) ==> p in NewJobs(base.members, base.active, peers);
  }
}
