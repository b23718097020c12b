/** Unconditional distribution: rounds in which one goroutine per peer probes and starts a
    newcomer or polls a running member, while pause and cancellation may come at any moment. */
module Distribution {
  import opened Outcomes

  type PeerId = string

  datatype Status = Running | Finished | Failed

  datatype Member = Member(ready: bool, task: Option<Status>)

  // ----- One goroutine -----

  datatype Phase =
    | Waiting
    | Probing
    | Probed(ready: bool)
    | Starting(ready: bool)
    | Polling
    | Storing(result: Member)
    | Gone

  /** seen and member are what the goroutine was given. */
  datatype Job = Job(seen: bool, member: Member, phase: Phase)

  datatype Action =
    | SendProbe
    | ProbeAnswer(ok: bool, ready: bool)
    | SendStart
    | StartAnswer(started: bool, status: Status)
    | SendPoll
    | PollAnswer(answered: bool, sameTask: bool, now: Status)
    | Store
    | Leave

  datatype Kind = Probe | Good | Bad | Start | Poll

  /** What passed between the sender and a peer. */
  datatype Message = Message(peer: PeerId, kind: Kind)

  predicate CanAct(job: Job, a: Action, cancelled: bool) {
    match a
    case SendProbe => job.phase == Waiting && !job.seen
    case ProbeAnswer(_, _) => job.phase == Probing
    case SendStart => job.phase.Probed?
    case StartAnswer(_, _) => job.phase.Starting?
    case SendPoll => job.phase == Waiting && job.seen
    case PollAnswer(_, _, _) => job.phase == Polling
    case Store => job.phase.Storing?
    case Leave => cancelled && (job.phase == Waiting || job.phase.Storing?)
  }

  function PhaseAfter(job: Job, a: Action, cancelled: bool): Phase
    requires CanAct(job, a, cancelled)
  {
    match a
    case SendProbe => Probing
    case ProbeAnswer(ok, ready) => if ok then Probed(ready) else Storing(Member(false, None))
    case SendStart => Starting(job.phase.ready)
    case StartAnswer(started, status) =>
      Storing(if started then Member(job.phase.ready, Some(status)) else Member(false, Some(Failed)))
    case SendPoll => Polling
    case PollAnswer(answered, sameTask, now) =>
      Storing(if !answered then job.member.(task := Some(Failed))
              else if sameTask then job.member.(task := Some(now)) else job.member)
    case Store => Gone
    case Leave => Gone
  }

  function Said(a: Action): Option<Kind> {
    match a
    case SendProbe => Some(Probe)
    case ProbeAnswer(ok, _) => Some(if ok then Good else Bad)
    case SendStart => Some(Start)
    case SendPoll => Some(Poll)
    case _ => None
  }

  function Logged(log: seq<Message>, p: PeerId, said: Option<Kind>): seq<Message> {
    match said
    case None => log
    case Some(k) => log + [Message(p, k)]
  }

  // ----- The loop -----

  /** began is the length of the log when the round began. */
  datatype Round = Round(accepting: bool, began: nat, jobs: map<PeerId, Job>)

  /** active: the distribution is still accepting newcomers; log: a history variable. */
  datatype State = State(
    members: map<PeerId, Member>, active: bool, cancelled: bool, round: Option<Round>, log: seq<Message>)

  datatype Event = BeginRound(peers: set<PeerId>) | Act(peer: PeerId, action: Action) | EndRound | Pause | Cancel

  predicate Wanted(members: map<PeerId, Member>, accepting: bool, p: PeerId) {
    if p in members then members[p].task == Some(Running) else accepting
  }

  function NewJob(members: map<PeerId, Member>, p: PeerId): Job {
    if p in members then Job(true, members[p], Waiting) else Job(false, Member(false, None), Waiting)
  }

  function NewJobs(members: map<PeerId, Member>, accepting: bool, peers: set<PeerId>): map<PeerId, Job> {
    map p | p in peers && Wanted(members, accepting, p) :: NewJob(members, p)
  }

  ghost predicate Enabled(s: State, e: Event) {
    match e
    case BeginRound(_) => s.round.None? && !s.cancelled
    case Act(p, a) => s.round.Some? && p in s.round.value.jobs && CanAct(s.round.value.jobs[p], a, s.cancelled)
    case EndRound =>
      s.round.Some? && forall p :: p in s.round.value.jobs ==> s.round.value.jobs[p].phase == Gone
    case Pause => true
    case Cancel => true
  }

  function Acted(s: State, r: Round, p: PeerId, a: Action): State
    requires p in r.jobs && CanAct(r.jobs[p], a, s.cancelled)
  {
    var job := r.jobs[p];
    s.(members := if a == Store then s.members[p := job.phase.result] else s.members,
       round := Some(r.(jobs := r.jobs[p := job.(phase := PhaseAfter(job, a, s.cancelled))])),
       log := Logged(s.log, p, Said(a)))
  }

  function Next(s: State, e: Event): State
    requires Enabled(s, e)
  {
    match e
    case BeginRound(peers) => s.(round := Some(Round(s.active, |s.log|, NewJobs(s.members, s.active, peers))))
    case Act(p, a) => Acted(s, s.round.value, p, a)
    case EndRound => s.(round := None)
    case Pause => s.(active := false)
    case Cancel => s.(cancelled := true)
  }

  const START: State := State(map[], true, false, None, [])

  /** The state after the events, if each was enabled in its turn. */
  ghost function After(s: State, events: seq<Event>): Option<State> {
    if events == [] then Some(s)
    else
      var e := events[|events| - 1];
      match After(s, events[..|events| - 1])
      case None => None
      case Some(now) => if Enabled(now, e) then Some(Next(now, e)) else None
  }
}
