/** Many receivers that download the same file from the central source and from each other,
    during one epoch of that source.  Each receiver runs its own download engine; a request
    for a chunk is checked by one step of the provider and answered by a later one. */
module Swarm {
  import opened Outcomes
  import opened Chunks
  import E = Engine
  import Safety = EngineSafety

  /** The epoch: the source's bytes and the checksum function, of which nothing is assumed. */
  datatype World = World(source: Bytes, crc: Bytes -> int)

  /** serving says that the session still has the chunks of its current or last run. */
  datatype Node = Node(config: E.Config, engine: E.State, serving: bool)

  datatype Provider = Central | Peer(id: string)

  /** A getChunk request; number tells the requests for one chunk apart. */
  datatype Request = Request(from: Provider, index: nat, number: nat)

  /** A getChunk response: its JSON header and its data frame. */
  datatype Reply = Reply(index: nat, checksum: int, data: Bytes)

  datatype State = State(
    nodes: map<string, Node>,
    // Requests that passed HasChunk and now wait for an upload slot.
    grants: set<Request>,
    replies: set<Reply>)

  function Init(): State {
    State(map[], {}, {})
  }

  datatype Event =
    | Start(id: string, config: E.Config)
    | Local(id: string, event: E.Event)
    | Grant(request: Request)
    | Forget(request: Request)
    | Answer(request: Request)
    | Deliver(id: string, worker: nat, reply: Reply, payload: Bytes, accepted: nat)
    | Fail(id: string)
    | Leave(id: string)

  predicate Serves(w: World, s: State, from: Provider, i: nat) {
    match from
    case Central => i < ChunkNum(|w.source|)
    case Peer(id) => id in s.nodes && s.nodes[id].serving && E.HasChunk(s.nodes[id].config, s.nodes[id].engine, i)
  }

  /** ReadChunk of the provider only looks at the index, not at chunkHash. */
  predicate CanRead(w: World, s: State, from: Provider, i: nat) {
    match from
    case Central => i < ChunkNum(|w.source|)
    case Peer(id) => id in s.nodes && s.nodes[id].serving && i < ChunkNum(|s.nodes[id].engine.file|)
  }

  function ReadBy(w: World, s: State, from: Provider, i: nat): Bytes
    requires CanRead(w, s, from, i)
  {
    match from
    case Central => Range(w.source, i)
    case Peer(id) => Range(s.nodes[id].engine.file, i)
  }

  /** The network delivers the data frame, or damages it in a way the checksum detects. */
  predicate Faithful(w: World, reply: Reply, payload: Bytes) {
    payload == reply.data || w.crc(payload) != reply.checksum
  }

  /** What `fetch` makes of a response: it saves a payload that carries the requested index,
      the announced checksum and the exact length. */
  function FetchOutcome(w: World, engine: E.State, worker: nat, reply: Reply, payload: Bytes, accepted: nat): E.Event
    requires worker < |engine.workers| && engine.workers[worker].Fetching? && accepted <= |payload|
  {
    var i := engine.workers[worker].i;
    if reply.index != i || w.crc(payload) != reply.checksum then E.FetchError(worker, [])
    else if i >= ChunkNum(|engine.file|) || |payload| != Len(|engine.file|, i) then E.FetchError(worker, [])
    else if accepted < |payload| then E.FetchError(worker, payload[..accepted])
    else E.FetchOk(worker, payload, w.crc(payload))
  }

  ghost predicate Enabled(w: World, s: State, e: Event) {
    match e
    case Start(id, config) =>
      // One run at a time per receiver, with the metadata that the source reports.
      && config.Valid() && config.size == |w.source| && !config.isMain
      && (id in s.nodes ==> E.Joined(s.nodes[id].engine))
    case Local(id, event) =>
      && id in s.nodes && E.Enabled(s.nodes[id].config, s.nodes[id].engine, event)
      && !event.FetchOk? && (event.FetchError? ==> event.partial == [])
    case Grant(r) => Serves(w, s, r.from, r.index)
    case Forget(r) => r in s.grants
    case Answer(r) => r in s.grants && CanRead(w, s, r.from, r.index)
    case Deliver(id, worker, reply, payload, accepted) =>
      && id in s.nodes && reply in s.replies
      && worker < |s.nodes[id].engine.workers| && s.nodes[id].engine.workers[worker].Fetching?
      && accepted <= |payload| && Faithful(w, reply, payload)
    case Fail(id) =>
      // The run has joined; it may still fail while it publishes the file.
      id in s.nodes && E.Joined(s.nodes[id].engine)
    case Leave(id) => id in s.nodes
  }

  ghost predicate ConfigsValid(s: State) {
    forall id <- s.nodes :: s.nodes[id].config.Valid()
  }

  ghost function Next(w: World, s: State, e: Event): State
    requires Enabled(w, s, e) && ConfigsValid(s)
  {
    match e
    case Start(id, config) => s.(nodes := s.nodes[id := Node(config, E.Init(config), true)])
    case Local(id, event) =>
      var node := s.nodes[id];
      s.(nodes := s.nodes[id := node.(engine := E.Next(node.config, node.engine, event))])
    case Grant(r) => s.(grants := s.grants + {r})
    case Forget(r) => s.(grants := s.grants - {r})
    case Answer(r) =>
      var data := ReadBy(w, s, r.from, r.index);
      s.(grants := s.grants - {r}, replies := s.replies + {Reply(r.index, w.crc(data), data)})
    case Deliver(id, worker, reply, payload, accepted) =>
      var node := s.nodes[id];
      var event := FetchOutcome(w, node.engine, worker, reply, payload, accepted);
      s.(nodes := s.nodes[id := node.(engine := E.Next(node.config, node.engine, event))])
    case Fail(id) => s.(nodes := s.nodes[id := s.nodes[id].(serving := false)])
    case Leave(id) => Without(s, id)
  }

  /** The swarm after the process of one receiver is gone. */
  function Without(s: State, id: string): State {
    s.(nodes := s.nodes - {id}, grants := set g | g in s.grants && g.from != Peer(id))
  }

  /** The state after a run of events, if each of them was possible when it came. */
  ghost function After(w: World, run: seq<Event>): (r: Option<State>)
    ensures r.Some? ==> ConfigsValid(r.value)
  {
    if run == [] then Some(Init())
    else
      var before := After(w, run[..|run| - 1]);
      if before.Some? && Enabled(w, before.value, run[|run| - 1])
      then Some(Next(w, before.value, run[|run| - 1]))
      else None
  }

  function Zeros(n: nat): Bytes {
    seq(n, _ => 0)
  }

  ghost predicate ZeroChunk(w: World, i: nat) {
    i < ChunkNum(|w.source|) && Range(w.source, i) == Zeros(Len(|w.source|, i))
  }

  /** All outstanding grants of a receiver are for chunks of the source that are all zeros. */
  ghost predicate ZeroChunks(w: World, grants: set<Request>, id: string) {
    forall g <- grants | g.from == Peer(id) :: ZeroChunk(w, g.index)
  }

  /** A receiver that starts over has no grants outstanding, other than for zero chunks. */
  ghost predicate HarmlessStart(w: World, s: State, e: Event) {
    e.Start? ==> ZeroChunks(w, s.grants, e.id)
  }

  ghost predicate HarmlessRun(w: World, run: seq<Event>) {
    forall k | 0 <= k < |run| && After(w, run[..k]).Some? :: HarmlessStart(w, After(w, run[..k]).value, run[k])
  }

  // ----- The invariant -----

  ghost function SourceChunk(w: World): (nat, Bytes) -> bool {
    (i: nat, data: Bytes) => i < ChunkNum(|w.source|) && data == Range(w.source, i)
  }

  ghost predicate NodeOk(w: World, node: Node) {
    && node.config.Valid() && node.config.size == |w.source| && !node.config.isMain
    && Safety.Inv(node.config, node.engine)
    && Safety.FileGood(node.config, node.engine, SourceChunk(w))
  }

  /** Whatever is read for the chunk, now or later, is the source's: it was added and is final, or
      both the source and the file have zeros there, before as after any good fetch. */
  ghost predicate ReadsRight(w: World, engine: E.State, i: nat) {
    || i in engine.chunkHash
    || (ZeroChunk(w, i) && |engine.file| == |w.source| && Range(engine.file, i) == Range(w.source, i))
  }

  ghost predicate GrantOk(w: World, s: State, from: Provider, i: nat) {
    && i < ChunkNum(|w.source|)
    && (from.Peer? ==> from.id in s.nodes && (s.nodes[from.id].serving ==> ReadsRight(w, s.nodes[from.id].engine, i)))
  }

  ghost predicate ReplyOk(w: World, reply: Reply) {
    && reply.index < ChunkNum(|w.source|)
    && reply.data == Range(w.source, reply.index) && reply.checksum == w.crc(reply.data)
  }

  ghost predicate NodesOk(w: World, s: State) {
    forall id <- s.nodes :: NodeOk(w, s.nodes[id])
  }

  ghost predicate GrantsOk(w: World, s: State) {
    forall g <- s.grants :: GrantOk(w, s, g.from, g.index)
  }

  ghost predicate RepliesOk(w: World, s: State) {
    forall r <- s.replies :: ReplyOk(w, r)
  }

  ghost predicate Inv(w: World, s: State) {
    NodesOk(w, s) && GrantsOk(w, s) && RepliesOk(w, s)
  }

  lemma HashesGrow(c: E.Config, s: E.State, e: E.Event)
    requires c.Valid() && E.Enabled(c, s, e)
    ensures forall i :: i in s.chunkHash ==> i in E.Next(c, s, e).chunkHash
  {
  }

  lemma FreshNodeOk(w: World, config: E.Config)
    requires config.Valid() && config.size == |w.source| && !config.isMain
    ensures NodeOk(w, Node(config, E.Init(config), true))
  {
    Safety.InvInit(config);
  }

  lemma EngineStepOk(w: World, node: Node, e: E.Event)
    requires NodeOk(w, node) && E.Enabled(node.config, node.engine, e)
    requires e.FetchOk? ==> SourceChunk(w)(node.engine.workers[e.w].i, e.payload)
    ensures NodeOk(w, node.(engine := E.Next(node.config, node.engine, e)))
  {
    Safety.InvStep(node.config, node.engine, e);
    Safety.FileGoodStep(node.config, node.engine, e, SourceChunk(w));
  }

  lemma WriteKeepsZeros(w: World, file: Bytes, j: nat, data: Bytes, i: nat)
    requires ZeroChunk(w, i) && |file| == |w.source| && Range(file, i) == Range(w.source, i)
    requires j < ChunkNum(|w.source|) && data <= Range(w.source, j)
    ensures Range(E.Write(file, j, data), i) == Range(w.source, i)
  {
    if j == i {
      var after := Range(E.Write(file, i, data), i);
      forall k | 0 <= k < |after| ensures after[k] == Range(w.source, i)[k] {
        assert k >= |data| ==> after[k] == Range(file, i)[k];
      }
    } else {
      Safety.WriteKeepsOthers(file, j, data, i);
    }
  }

  /** What a fetch puts into the file is the source's chunk, or a part of it from the front. */
  ghost predicate GoodWrite(w: World, engine: E.State, e: E.Event) {
    && (e.FetchOk? ==> e.w < |engine.workers| && GoodData(w, engine.workers[e.w], e.payload))
    && (e.FetchOk? ==> SourceChunk(w)(engine.workers[e.w].i, e.payload))
    && (e.FetchError? && e.partial != [] ==> e.w < |engine.workers| && GoodData(w, engine.workers[e.w], e.partial))
  }

  ghost predicate GoodData(w: World, at: E.Worker, data: Bytes) {
    at.Fetching? && at.i < ChunkNum(|w.source|) && data <= Range(w.source, at.i)
  }

  lemma ReadsRightStep(w: World, node: Node, e: E.Event, i: nat)
    requires NodeOk(w, node) && E.Enabled(node.config, node.engine, e) && GoodWrite(w, node.engine, e)
    requires ReadsRight(w, node.engine, i)
    ensures ReadsRight(w, E.Next(node.config, node.engine, e), i)
  {
    HashesGrow(node.config, node.engine, e);
    if i !in node.engine.chunkHash {
      if e.FetchOk? {
        WriteKeepsZeros(w, node.engine.file, node.engine.workers[e.w].i, e.payload, i);
      } else if e.FetchError? {
        if e.partial != [] {
          WriteKeepsZeros(w, node.engine.file, node.engine.workers[e.w].i, e.partial, i);
        }
      } else {
        Safety.OnlyFetchesWrite(node.config, node.engine, e);
      }
    }
  }

  /** A node may move on as long as it stays good and what it was asked for stays right. */
  lemma ReplaceNode(w: World, s: State, id: string, node: Node)
    requires Inv(w, s) && id in s.nodes && NodeOk(w, node)
    requires node.serving ==> s.nodes[id].serving
    requires forall i: nat :: ReadsRight(w, s.nodes[id].engine, i) ==> ReadsRight(w, node.engine, i)
    ensures Inv(w, s.(nodes := s.nodes[id := node]))
  {
    hide NodeOk, ReadsRight;
    var t := s.(nodes := s.nodes[id := node]);
    forall g <- t.grants ensures GrantOk(w, t, g.from, g.index) {
      assert GrantOk(w, s, g.from, g.index);
    }
  }

  lemma AdvanceOk(w: World, s: State, id: string, e: E.Event)
    requires Inv(w, s) && id in s.nodes && s.nodes[id].config.Valid()
    requires E.Enabled(s.nodes[id].config, s.nodes[id].engine, e) && GoodWrite(w, s.nodes[id].engine, e)
    ensures
      var node := s.nodes[id];
      Inv(w, s.(nodes := s.nodes[id := node.(engine := E.Next(node.config, node.engine, e))]))
  {
    var node := s.nodes[id];
    assert NodeOk(w, node);
    forall i: nat | ReadsRight(w, node.engine, i)
      ensures ReadsRight(w, E.Next(node.config, node.engine, e), i)
    {
      ReadsRightStep(w, node, e, i);
    }
    hide E.Enabled, E.Next, ReadsRight;
    EngineStepOk(w, node, e);
    ReplaceNode(w, s, id, node.(engine := E.Next(node.config, node.engine, e)));
  }

  lemma OutcomeEnabled(w: World, config: E.Config, engine: E.State, worker: nat, reply: Reply, payload: Bytes,
                       accepted: nat)
    requires worker < |engine.workers| && engine.workers[worker].Fetching? && accepted <= |payload|
    ensures E.Enabled(config, engine, FetchOutcome(w, engine, worker, reply, payload, accepted))
  {
  }

  /** A response that passes the checks of `fetch` carries the source's bytes. */
  lemma AcceptedPayload(w: World, reply: Reply, payload: Bytes)
    requires ReplyOk(w, reply) && Faithful(w, reply, payload) && w.crc(payload) == reply.checksum
    ensures SourceChunk(w)(reply.index, payload)
  {
  }

  lemma OutcomeGood(w: World, engine: E.State, worker: nat, reply: Reply, payload: Bytes, accepted: nat)
    requires worker < |engine.workers| && engine.workers[worker].Fetching? && accepted <= |payload|
    requires ReplyOk(w, reply) && Faithful(w, reply, payload)
    ensures GoodWrite(w, engine, FetchOutcome(w, engine, worker, reply, payload, accepted))
  {
    if w.crc(payload) == reply.checksum {
      AcceptedPayload(w, reply, payload);
    }
  }

  lemma DeliverOk(w: World, s: State, e: Event)
    requires Inv(w, s) && e.Deliver? && Enabled(w, s, e) && ConfigsValid(s)
    ensures Inv(w, Next(w, s, e))
  {
    hide E.Enabled, E.Next, NodeOk, FetchOutcome, GoodWrite, ReplyOk, GrantOk;
    var node := s.nodes[e.id];
    assert ReplyOk(w, e.reply);
    OutcomeEnabled(w, node.config, node.engine, e.worker, e.reply, e.payload, e.accepted);
    OutcomeGood(w, node.engine, e.worker, e.reply, e.payload, e.accepted);
    AdvanceOk(w, s, e.id, FetchOutcome(w, node.engine, e.worker, e.reply, e.payload, e.accepted));
  }

  lemma FreshFile(config: E.Config, i: nat)
    requires i < ChunkNum(config.size)
    ensures Range(E.Init(config).file, i) == Zeros(Len(config.size, i))
  {
  }

  lemma StartOk(w: World, s: State, id: string, config: E.Config)
    requires Inv(w, s) && NodeOk(w, Node(config, E.Init(config), true)) && config.size == |w.source|
    requires ZeroChunks(w, s.grants, id)
    ensures Inv(w, s.(nodes := s.nodes[id := Node(config, E.Init(config), true)]))
  {
    var node := Node(config, E.Init(config), true);
    var t := s.(nodes := s.nodes[id := node]);
    hide NodeOk;
    forall g <- t.grants ensures GrantOk(w, t, g.from, g.index) {
      assert GrantOk(w, s, g.from, g.index);
      if g.from == Peer(id) {
        FreshFile(config, g.index);
      }
    }
  }

  /** What the provider reads for a grant is what it checked: an added chunk is final. */
  lemma AnswerOk(w: World, s: State, e: Event)
    requires Inv(w, s) && e.Answer? && Enabled(w, s, e) && ConfigsValid(s)
    ensures Inv(w, Next(w, s, e))
  {
    assert GrantOk(w, s, e.request.from, e.request.index);
    if e.request.from.Peer? {
      var node := s.nodes[e.request.from.id];
      assert NodeOk(w, node);
      if e.request.index in node.engine.chunkHash {
        assert SourceChunk(w)(e.request.index, Range(node.engine.file, e.request.index));
      }
    }
    var t := Next(w, s, e);
    var data := ReadBy(w, s, e.request.from, e.request.index);
    assert ReplyOk(w, Reply(e.request.index, w.crc(data), data));
    forall g <- t.grants ensures GrantOk(w, t, g.from, g.index) {
      assert GrantOk(w, s, g.from, g.index);
    }
  }

  lemma GrantStepOk(w: World, s: State, e: Event)
    requires Inv(w, s) && (e.Grant? || e.Forget?) && Enabled(w, s, e) && ConfigsValid(s)
    ensures Inv(w, Next(w, s, e))
  {
    var t := Next(w, s, e);
    forall g <- t.grants ensures GrantOk(w, t, g.from, g.index) {
      if g in s.grants {
        assert GrantOk(w, s, g.from, g.index);
      } else if g.from.Peer? {
        assert NodeOk(w, s.nodes[g.from.id]);
      }
    }
  }

  lemma LeaveOk(w: World, s: State, id: string)
    requires Inv(w, s)
    ensures Inv(w, Without(s, id))
  {
    var t := Without(s, id);
    hide NodeOk;
    forall g <- t.grants ensures GrantOk(w, t, g.from, g.index) {
      assert GrantOk(w, s, g.from, g.index);
    }
  }

  lemma NotServingOk(w: World, node: Node)
    requires NodeOk(w, node)
    ensures NodeOk(w, node.(serving := false))
  {
    hide Safety.Inv, Safety.FileGood;
  }

  lemma FailOk(w: World, s: State, id: string)
    requires Inv(w, s) && id in s.nodes
    ensures Inv(w, s.(nodes := s.nodes[id := s.nodes[id].(serving := false)]))
  {
    var node := s.nodes[id];
    assert NodeOk(w, node);
    hide NodeOk, ReadsRight, GrantOk, ReplyOk;
    NotServingOk(w, node);
    ReplaceNode(w, s, id, node.(serving := false));
  }

  lemma InvStep(w: World, s: State, e: Event)
    requires Inv(w, s) && ConfigsValid(s) && Enabled(w, s, e) && HarmlessStart(w, s, e)
    ensures Inv(w, Next(w, s, e))
  {
    if e.Start? {
      FreshNodeOk(w, e.config);
      StartOk(w, s, e.id, e.config);
    } else if e.Local? {
      AdvanceOk(w, s, e.id, e.event);
    } else if e.Answer? {
      AnswerOk(w, s, e);
    } else if e.Deliver? {
      DeliverOk(w, s, e);
    } else if e.Fail? {
      FailOk(w, s, e.id);
    } else if e.Leave? {
      LeaveOk(w, s, e.id);
    } else {
      GrantStepOk(w, s, e);
    }
  }

  lemma {:induction false} InvAlways(w: World, run: seq<Event>)
    requires After(w, run).Some? && HarmlessRun(w, run)
    ensures Inv(w, After(w, run).value)
  {
    if run != [] {
      var rest := run[..|run| - 1];
      forall k | 0 <= k < |rest| && After(w, rest[..k]).Some?
        ensures HarmlessStart(w, After(w, rest[..k]).value, rest[k])
      {
        assert rest[..k] == run[..k];
      }
      InvAlways(w, rest);
      InvStep(w, After(w, rest).value, run[|run| - 1]);
    }
  }

  // ----- Integrity -----

  /** Every chunk a receiver announces is the source's, every answer carries the source's bytes,
      and a receiver whose run succeeded holds the source file. */
  ghost predicate SourceOnly(w: World, s: State) {
    && (forall id, i :: id in s.nodes && i in s.nodes[id].engine.chunkHash ==> HoldsChunk(w, s.nodes[id].engine, i))
    && (forall r :: r in s.replies ==> r.index < ChunkNum(|w.source|) && r.data == Range(w.source, r.index))
    && (forall id :: id in s.nodes && E.Succeeds(s.nodes[id].engine) ==> s.nodes[id].engine.file == w.source)
  }

  ghost predicate HoldsChunk(w: World, engine: E.State, i: nat) {
    && |engine.file| == |w.source| && i < ChunkNum(|w.source|)
    && Range(engine.file, i) == Range(w.source, i)
  }

  /** Whatever the receivers, the network and the disks do, as long as every start is harmless. */
  lemma Integrity(w: World, run: seq<Event>)
    requires After(w, run).Some? && HarmlessRun(w, run)
    ensures SourceOnly(w, After(w, run).value)
  {
    InvAlways(w, run);
    var s := After(w, run).value;
    forall id, i | id in s.nodes && i in s.nodes[id].engine.chunkHash
      ensures HoldsChunk(w, s.nodes[id].engine, i)
    {
      assert NodeOk(w, s.nodes[id]);
      assert SourceChunk(w)(i, Range(s.nodes[id].engine.file, i));
    }
    forall id | id in s.nodes && E.Succeeds(s.nodes[id].engine)
      ensures s.nodes[id].engine.file == w.source
    {
      FinishedFile(w, s.nodes[id]);
    }
    assert forall r :: r in s.replies ==> ReplyOk(w, r);
  }

  lemma FinishedFile(w: World, node: Node)
    requires NodeOk(w, node) && E.Succeeds(node.engine)
    ensures node.engine.file == w.source
  {
    Safety.SuccessfulState(node.config, node.engine);
    forall i: nat | i < ChunkNum(|w.source|)
      ensures Range(node.engine.file, i) == Range(w.source, i)
    {
      assert SourceChunk(w)(i, Range(node.engine.file, i));
    }
    SameTilesSameFile(node.engine.file, w.source);
  }

  // ----- Starting over with a grant outstanding -----

  /** The answers to a receiver's outstanding grants are the source's chunks. */
  ghost predicate RightAnswers(w: World, s: State, grants: set<Request>, id: string) {
    forall g <- grants | g.from == Peer(id) ::
      && CanRead(w, s, g.from, g.index) && g.index < ChunkNum(|w.source|)
      && ReadBy(w, s, g.from, g.index) == Range(w.source, g.index)
  }

  lemma StaleAnswer(w: World, s: State, id: string, config: E.Config, g: Request)
    requires Inv(w, s) && ConfigsValid(s) && Enabled(w, s, Start(id, config)) && g in s.grants && g.from == Peer(id)
    ensures
      var t := Next(w, s, Start(id, config));
      && CanRead(w, t, g.from, g.index) && g.index < ChunkNum(|w.source|)
      && ReadBy(w, t, g.from, g.index) == Zeros(Len(|w.source|, g.index))
  {
    hide NodeOk;
    assert GrantOk(w, s, g.from, g.index);
    FreshFile(config, g.index);
  }

  /** HasChunk was asked of the old run, ReadChunk reads the file of the new one, which is
      still empty: before its first step the outstanding grants of a receiver that starts over are
      answered with the source's bytes exactly when those chunks of the source are all zeros. */
  lemma AnswersAfterRestart(w: World, s: State, id: string, config: E.Config)
    requires Inv(w, s) && ConfigsValid(s) && Enabled(w, s, Start(id, config))
    ensures RightAnswers(w, Next(w, s, Start(id, config)), s.grants, id) <==> ZeroChunks(w, s.grants, id)
  {
    var t := Next(w, s, Start(id, config));
    forall g <- s.grants | g.from == Peer(id)
      ensures
        && CanRead(w, t, g.from, g.index) && g.index < ChunkNum(|w.source|)
        && ReadBy(w, t, g.from, g.index) == Zeros(Len(|w.source|, g.index))
    {
      StaleAnswer(w, s, id, config, g);
    }
    hide Next, Enabled, CanRead, ReadBy, Inv;
  }

  lemma Extend(w: World, run: seq<Event>, e: Event)
    requires After(w, run).Some? && Enabled(w, After(w, run).value, e)
    ensures After(w, run + [e]) == Some(Next(w, After(w, run).value, e))
  {
    assert (run + [e])[..|run|] == run;
  }

  /** `more` continues the run `base`, and its own starts are harmless. */
  ghost predicate Continues(w: World, base: seq<Event>, more: seq<Event>) {
    && After(w, base + more).Some?
    && forall k | |base| <= k < |base + more| && After(w, (base + more)[..k]).Some? ::
         HarmlessStart(w, After(w, (base + more)[..k]).value, (base + more)[k])
  }

  ghost predicate SafeAfter(w: World, run: seq<Event>) {
    After(w, run).Some? && SourceOnly(w, After(w, run).value)
  }

  lemma WholeRunHarmless(w: World, run: seq<Event>, start: Event, more: seq<Event>)
    requires HarmlessRun(w, run) && After(w, run).Some? && HarmlessStart(w, After(w, run).value, start)
    requires Continues(w, run + [start], more)
    ensures HarmlessRun(w, run + [start] + more)
  {
    hide HarmlessStart, After;
    var base, all := run + [start], run + [start] + more;
    forall k | 0 <= k < |all| && After(w, all[..k]).Some?
      ensures HarmlessStart(w, After(w, all[..k]).value, all[k])
    {
      if k < |run| {
        assert all[..k] == run[..k];
      } else if k == |run| {
        assert all[..k] == run;
      }
    }
  }

  /** A grant for a chunk with a byte other than zero is answered wrongly right after the start. */
  lemma HarmfulContinuation(w: World, run: seq<Event>, start: Event, g: Request)
    requires After(w, run).Some? && start.Start? && Enabled(w, After(w, run).value, start)
    requires Inv(w, After(w, run).value)
    requires g in After(w, run).value.grants && g.from == Peer(start.id) && !ZeroChunk(w, g.index)
    ensures
      var more := [Answer(g)];
      Continues(w, run + [start], more) && !SafeAfter(w, run + [start] + more)
  {
    var s := After(w, run).value;
    var answer := Answer(g);
    StaleAnswer(w, s, start.id, start.config, g);
    Extend(w, run, start);
    var t := Next(w, s, start);
    Extend(w, run + [start], answer);
    var data := ReadBy(w, t, g.from, g.index);
    var wrong := Reply(g.index, w.crc(data), data);
    hide After, ReadBy, CanRead;
    assert wrong in Next(w, t, answer).replies;
    assert data != Range(w.source, g.index);
  }

  /** Integrity survives a start in every continuation exactly when the start is harmless: when
      all outstanding grants of the receiver are for chunks of the source that are all zeros. */
  lemma StartIsSafeExactlyWhen(w: World, run: seq<Event>, start: Event)
    requires After(w, run).Some? && HarmlessRun(w, run)
    requires start.Start? && Enabled(w, After(w, run).value, start)
    ensures
      (forall more :: Continues(w, run + [start], more) ==> SafeAfter(w, run + [start] + more))
      <==> ZeroChunks(w, After(w, run).value.grants, start.id)
  {
    hide After, SourceOnly, Enabled, Inv, ZeroChunk, Continues, HarmlessRun;
    InvAlways(w, run);
    var s := After(w, run).value;
    if ZeroChunks(w, s.grants, start.id) {
      forall more | Continues(w, run + [start], more)
        ensures SafeAfter(w, run + [start] + more)
      {
        WholeRunHarmless(w, run, start, more);
        ContinuesToState(w, run + [start], more);
        Integrity(w, run + [start] + more);
      }
    } else {
      var g :| g in s.grants && g.from == Peer(start.id) && !ZeroChunk(w, g.index);
      HarmfulContinuation(w, run, start, g);
    }
  }

  lemma ContinuesToState(w: World, base: seq<Event>, more: seq<Event>)
    requires Continues(w, base, more)
    ensures After(w, base + more).Some?
  {
  }
}
