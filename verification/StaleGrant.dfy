/** A run that shows why a receiver must not start over with a grant outstanding: a peer whose
    request was granted by the first run is answered from the empty file of the second, and a
    receiver that takes the answer ends with a file that is not the source's. */
module StaleGrant {
  import opened Outcomes
  import opened Chunks
  import opened Swarm
  import E = Engine
  import FeedOrder

  /** The receiver that starts over, and the one that asks it. */
  const ID := "r"
  const ASKER := "q"

  /** One chunk of one byte. */
  const CONFIG := E.Config(1, 0, 1, "", false)

  lemma ConfigOk()
    ensures CONFIG.Valid() && CONFIG.Count() == 1
  {
  }

  // ----- The steps of one engine -----

  function OneWorker(feeder: E.Feeder, at: E.Worker): E.State {
    E.State(feeder, [], [at], {}, map[], multiset{}, 0, 0, None, false, false, [0])
  }

  function Busy(at: E.Worker): E.State {
    OneWorker(E.Closed(1), at).(claimed := {0})
  }

  ghost predicate Steps(before: E.State, e: E.Event, after: E.State) {
    CONFIG.Valid() && E.Enabled(CONFIG, before, e) && E.Next(CONFIG, before, e) == after
  }

  lemma Offers()
    ensures Steps(OneWorker(E.Top(0), E.Waiting), E.NoUrgent, OneWorker(E.Offering(0), E.Waiting))
  {
    ConfigOk();
  }

  lemma Sends()
    ensures Steps(OneWorker(E.Offering(0), E.Waiting), E.Send(0), OneWorker(E.Closed(1), E.Received(0)))
  {
    ConfigOk();
  }

  lemma Claims()
    ensures Steps(OneWorker(E.Closed(1), E.Received(0)), E.Claim(0), Busy(E.Attempting(0, 0)))
  {
    ConfigOk();
  }

  lemma Begins()
    ensures Steps(Busy(E.Attempting(0, 0)), E.Begin(0), Busy(E.Asking(0, 0)))
  {
    ConfigOk();
  }

  lemma Learns()
    ensures Steps(Busy(E.Asking(0, 0)), E.AskOk(0, [""], ""), Busy(E.Trying(0, 0, [""])))
  {
  }

  lemma Tries()
    ensures Steps(Busy(E.Trying(0, 0, [""])), E.NextSource(0), Busy(E.Fetching(0, 0, "", [])))
  {
    ConfigOk();
    assert [""][1..] == [];
  }

  function Saved(b: byte, at: E.Worker): E.State {
    Busy(at).(file := [b])
  }

  lemma Saves(b: byte, checksum: int)
    ensures Steps(Busy(E.Fetching(0, 0, "", [])), E.FetchOk(0, [b], checksum), Saved(b, E.Fetched(0, 1, checksum)))
  {
    ConfigOk();
  }

  function Added(b: byte, checksum: int, at: E.Worker): E.State {
    Saved(b, at).(chunkHash := map[0 := checksum], added := multiset{0})
  }

  lemma Adds(b: byte, checksum: int)
    ensures Steps(Saved(b, E.Fetched(0, 1, checksum)), E.AddChunk(0), Added(b, checksum, E.Added(0, 1)))
  {
  }

  function Finished(b: byte, checksum: int, at: E.Worker): E.State {
    Added(b, checksum, at).(claimed := {}, done := 1, received := 1)
  }

  lemma Commits(b: byte, checksum: int)
    ensures Steps(Added(b, checksum, E.Added(0, 1)), E.Commit(0), Finished(b, checksum, E.Waiting))
  {
  }

  lemma Drains(b: byte, checksum: int)
    ensures Steps(Finished(b, checksum, E.Waiting), E.Drain(0), Finished(b, checksum, E.Exited))
  {
    ConfigOk();
  }

  // ----- The steps of the swarm -----

  function Put(s: State, id: string, engine: E.State): State {
    s.(nodes := s.nodes[id := Node(CONFIG, engine, true)])
  }

  lemma PutTwice(s: State, id: string, x: E.State, y: E.State)
    ensures Put(Put(s, id, x), id, y) == Put(s, id, y)
  {
    assert s.nodes[id := Node(CONFIG, x, true)][id := Node(CONFIG, y, true)] == s.nodes[id := Node(CONFIG, y, true)];
  }

  lemma LocalStep(w: World, run: seq<Event>, s: State, id: string, before: E.State, e: E.Event, after: E.State)
    returns (longer: seq<Event>)
    requires After(w, run) == Some(Put(s, id, before)) && Steps(before, e, after)
    requires !e.FetchOk? && !e.FetchError?
    ensures After(w, longer) == Some(Put(s, id, after))
  {
    longer := run + [Local(id, e)];
    Extend(w, run, Local(id, e));
    PutTwice(s, id, before, after);
  }

  lemma StartStep(w: World, run: seq<Event>, s: State, id: string) returns (longer: seq<Event>)
    requires |w.source| == 1 && After(w, run) == Some(s)
    requires id in s.nodes ==> E.Joined(s.nodes[id].engine)
    ensures After(w, longer) == Some(Put(s, id, OneWorker(E.Top(0), E.Waiting)))
  {
    longer := run + [Start(id, CONFIG)];
    ConfigOk();
    Extend(w, run, Start(id, CONFIG));
    assert E.Init(CONFIG) == OneWorker(E.Top(0), E.Waiting);
  }

  lemma GrantStep(w: World, run: seq<Event>, s: State, from: Provider) returns (longer: seq<Event>)
    requires After(w, run) == Some(s) && Serves(w, s, from, 0)
    ensures After(w, longer) == Some(s.(grants := s.grants + {Request(from, 0, 0)}))
  {
    longer := run + [Grant(Request(from, 0, 0))];
    Extend(w, run, Grant(Request(from, 0, 0)));
  }

  lemma AnswerStep(w: World, run: seq<Event>, s: State, from: Provider, data: Bytes) returns (longer: seq<Event>)
    requires After(w, run) == Some(s) && Request(from, 0, 0) in s.grants
    requires CanRead(w, s, from, 0) && ReadBy(w, s, from, 0) == data
    ensures After(w, longer)
         == Some(s.(grants := s.grants - {Request(from, 0, 0)}, replies := s.replies + {Reply(0, w.crc(data), data)}))
  {
    longer := run + [Answer(Request(from, 0, 0))];
    Extend(w, run, Answer(Request(from, 0, 0)));
  }

  lemma DeliverStep(w: World, run: seq<Event>, s: State, id: string, b: byte) returns (longer: seq<Event>)
    requires After(w, run) == Some(Put(s, id, Busy(E.Fetching(0, 0, "", []))))
    requires Reply(0, w.crc([b]), [b]) in s.replies
    ensures After(w, longer) == Some(Put(s, id, Saved(b, E.Fetched(0, 1, w.crc([b])))))
  {
    var engine, reply := Busy(E.Fetching(0, 0, "", [])), Reply(0, w.crc([b]), [b]);
    longer := run + [Deliver(id, 0, reply, [b], 1)];
    Extend(w, run, Deliver(id, 0, reply, [b], 1));
    Saves(b, w.crc([b]));
    assert FetchOutcome(w, engine, 0, reply, [b], 1) == E.FetchOk(0, [b], w.crc([b]));
    PutTwice(s, id, engine, Saved(b, E.Fetched(0, 1, w.crc([b]))));
  }

  // ----- The parts of a download -----

  /** From its start to its request for the chunk. */
  lemma Asks(w: World, run: seq<Event>, s: State, id: string) returns (longer: seq<Event>)
    requires |w.source| == 1 && After(w, run) == Some(s)
    requires id in s.nodes ==> E.Joined(s.nodes[id].engine)
    ensures After(w, longer) == Some(Put(s, id, Busy(E.Fetching(0, 0, "", []))))
  {
    Offers(); Sends(); Claims(); Begins(); Learns(); Tries();
    hide After, Steps, OneWorker, Busy, Put, E.Joined;
    var offering, received := OneWorker(E.Offering(0), E.Waiting), OneWorker(E.Closed(1), E.Received(0));
    var attempting, asking := Busy(E.Attempting(0, 0)), Busy(E.Asking(0, 0));
    var trying := Busy(E.Trying(0, 0, [""]));
    longer := StartStep(w, run, s, id);
    longer := LocalStep(w, longer, s, id, OneWorker(E.Top(0), E.Waiting), E.NoUrgent, offering);
    longer := LocalStep(w, longer, s, id, offering, E.Send(0), received);
    longer := LocalStep(w, longer, s, id, received, E.Claim(0), attempting);
    longer := LocalStep(w, longer, s, id, attempting, E.Begin(0), asking);
    longer := LocalStep(w, longer, s, id, asking, E.AskOk(0, [""], ""), trying);
    longer := LocalStep(w, longer, s, id, trying, E.NextSource(0), Busy(E.Fetching(0, 0, "", [])));
  }

  /** From the answer to the entry in chunkHash. */
  lemma Takes(w: World, run: seq<Event>, s: State, id: string, b: byte) returns (longer: seq<Event>)
    requires After(w, run) == Some(Put(s, id, Busy(E.Fetching(0, 0, "", []))))
    requires Reply(0, w.crc([b]), [b]) in s.replies
    ensures After(w, longer) == Some(Put(s, id, Added(b, w.crc([b]), E.Added(0, 1))))
  {
    Adds(b, w.crc([b]));
    hide After, Steps, Busy, Saved, Added, Put;
    longer := DeliverStep(w, run, s, id, b);
    longer := LocalStep(w, longer, s, id, Saved(b, E.Fetched(0, 1, w.crc([b]))), E.AddChunk(0),
                        Added(b, w.crc([b]), E.Added(0, 1)));
  }

  /** From there to the join. */
  lemma Ends(w: World, run: seq<Event>, s: State, id: string, b: byte) returns (longer: seq<Event>)
    requires After(w, run) == Some(Put(s, id, Added(b, w.crc([b]), E.Added(0, 1))))
    ensures After(w, longer) == Some(Put(s, id, Finished(b, w.crc([b]), E.Exited)))
  {
    var sum := w.crc([b]);
    Commits(b, sum);
    Drains(b, sum);
    hide After, Steps, Added, Finished, Put;
    longer := LocalStep(w, run, s, id, Added(b, sum, E.Added(0, 1)), E.Commit(0), Finished(b, sum, E.Waiting));
    longer := LocalStep(w, longer, s, id, Finished(b, sum, E.Waiting), E.Drain(0), Finished(b, sum, E.Exited));
  }

  // ----- The run -----

  function Answered(w: World): State {
    State(map[], {}, {Reply(0, w.crc([1]), [1])})
  }

  function WithGrant(w: World): State {
    Answered(w).(grants := {Request(Peer(ID), 0, 0)})
  }

  /** The first run asks the central node and has its answer. */
  lemma FirstIsAnswered(w: World) returns (run: seq<Event>)
    requires w.source == [1]
    ensures After(w, run) == Some(Put(Answered(w), ID, Busy(E.Fetching(0, 0, "", []))))
  {
    run := Asks(w, [], Init(), ID);
    var s := Put(Init(), ID, Busy(E.Fetching(0, 0, "", [])));
    assert Range(w.source, 0) == [1];
    hide After, Busy;
    run := GrantStep(w, run, s, Central);
    var t := s.(grants := s.grants + {Request(Central, 0, 0)});
    run := AnswerStep(w, run, t, Central, [1]);
    assert t.grants - {Request(Central, 0, 0)} == {};
    assert t.replies + {Reply(0, w.crc([1]), [1])} == {Reply(0, w.crc([1]), [1])};
  }

  lemma ServesAdded(w: World)
    requires w.source == [1]
    ensures Serves(w, Put(Answered(w), ID, Added(1, w.crc([1]), E.Added(0, 1))), Peer(ID), 0)
  {
    ConfigOk();
  }

  /** The first run ends successfully; the grant it gave is still waiting. */
  lemma FinishesWithGrant(w: World) returns (run: seq<Event>)
    requires w.source == [1]
    ensures After(w, run) == Some(Put(WithGrant(w), ID, Finished(1, w.crc([1]), E.Exited)))
  {
    run := FirstIsAnswered(w);
    ServesAdded(w);
    hide After, Busy, Added, Finished, Serves;
    run := Takes(w, run, Answered(w), ID, 1);
    var s := Put(Answered(w), ID, Added(1, w.crc([1]), E.Added(0, 1)));
    run := GrantStep(w, run, s, Peer(ID));
    assert s.grants + {Request(Peer(ID), 0, 0)} == {Request(Peer(ID), 0, 0)};
    run := Ends(w, run, WithGrant(w), ID, 1);
  }

  function Misled(w: World): State {
    Put(Answered(w), ID, OneWorker(E.Top(0), E.Waiting))
    .(replies := {Reply(0, w.crc([1]), [1])} + {Reply(0, w.crc([0]), [0])})
  }

  /** The second run has begun when the grant of the first is answered. */
  lemma AnswersFromEmptyFile(w: World) returns (run: seq<Event>)
    requires w.source == [1]
    ensures After(w, run) == Some(Misled(w))
  {
    run := FinishesWithGrant(w);
    var s := Put(WithGrant(w), ID, Finished(1, w.crc([1]), E.Exited));
    var t := Put(WithGrant(w), ID, OneWorker(E.Top(0), E.Waiting));
    PutTwice(WithGrant(w), ID, Finished(1, w.crc([1]), E.Exited), OneWorker(E.Top(0), E.Waiting));
    assert E.Joined(Finished(1, w.crc([1]), E.Exited));
    assert ReadBy(w, t, Peer(ID), 0) == [0];
    hide After, Finished, ReadBy;
    run := StartStep(w, run, s, ID);
    run := AnswerStep(w, run, t, Peer(ID), [0]);
    assert t.grants - {Request(Peer(ID), 0, 0)} == {};
  }

  /** A start over an outstanding grant breaks integrity: a peer is answered with a zero where
      the source has a one, under a checksum that matches the wrong data. */
  lemma RestartCanServeWrongData(w: World)
    requires w.source == [1]
    ensures exists run ::
              && After(w, run).Some?
              && Reply(0, w.crc([0]), [0]) in After(w, run).value.replies
              && Range(w.source, 0) == [1]
  {
    var run := AnswersFromEmptyFile(w);
    assert Range(w.source, 0) == [1];
  }

  /** The receiver's run succeeded, and its file is not the source. */
  ghost predicate EndsWithWrongFile(w: World, s: State, id: string) {
    id in s.nodes && E.Succeeds(s.nodes[id].engine) && s.nodes[id].engine.file != w.source
  }

  lemma FinishedWrong(w: World, s: State)
    requires w.source == [1]
    ensures EndsWithWrongFile(w, Put(s, ASKER, Finished(0, w.crc([0]), E.Exited)), ASKER)
  {
  }

  /** The loss that a user sees: the peer takes the answer, every check of its run passes, and
      its finished file differs from the source. */
  lemma RestartCanSpoilAnotherReceiver(w: World)
    requires w.source == [1]
    ensures exists run :: After(w, run).Some? && EndsWithWrongFile(w, After(w, run).value, ASKER)
  {
    var run := AnswersFromEmptyFile(w);
    assert Reply(0, w.crc([0]), [0]) in Misled(w).replies && ASKER !in Misled(w).nodes;
    FinishedWrong(w, Misled(w));
    hide After, Put, Busy, Added, Finished, Misled, EndsWithWrongFile;
    run := Asks(w, run, Misled(w), ASKER);
    run := Takes(w, run, Misled(w), ASKER, 0);
    run := Ends(w, run, Misled(w), ASKER, 0);
    assert EndsWithWrongFile(w, After(w, run).value, ASKER);
  }
}
