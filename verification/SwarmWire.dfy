/** The deliveries of the swarm are what the exchange on the wire does: the step that a delivered
    response makes in the receiver's engine is the effect of its fetch on the response's bytes. */
module SwarmWire {
  import opened Integers
  import opened Outcomes
  import opened Chunks
  import opened Codec
  import E = Engine
  import X = Exchange
  import S = Swarm

  /** The JSON header of a delivered response. */
  function HeaderOf(reply: S.Reply): X.Header
    requires reply.index < 0x8000_0000_0000_0000
  {
    X.Header(reply.index as int64, true, reply.checksum, "")
  }

  /** A response as it reaches the receiver: its header, and the data frame with this payload. */
  function Wire(f: X.Format, reply: S.Reply, payload: Bytes): Bytes
    requires reply.index < 0x8000_0000_0000_0000
  {
    Encode(TYPE_JSON, f.marshal(HeaderOf(reply))) + Encode(TYPE_FILE_CHUNK, payload)
  }

  /** The header survives JSON and fits the receiver's buffer. */
  ghost predicate Readable(f: X.Format, reply: S.Reply)
    requires reply.index < 0x8000_0000_0000_0000
  {
    && f.parse(f.marshal(HeaderOf(reply))) == Some(HeaderOf(reply))
    && |f.marshal(HeaderOf(reply))| <= X.HEADER_BUFFER
  }

  // ----- What is on the wire -----

  /** An undamaged response is the reply of the handler, byte for byte. */
  lemma UndamagedIsReply(f: X.Format, reply: S.Reply)
    requires reply.index < 0x8000_0000_0000_0000 && reply.checksum == f.crc(reply.data)
    ensures Wire(f, reply, reply.data) == X.Reply(f, reply.index as int64, reply.data)
  {
  }

  lemma TooLong(typ: byte, payload: Bytes, tail: Bytes, limit: nat)
    requires ValidType(typ) && limit < |payload| < TWO_32
    ensures Decoded(Encode(typ, payload) + tail, limit).0.Err?
  {
    EncodedParts(typ, payload, tail);
  }

  /** A response is sound exactly if it is for the requested chunk, its payload fits the buffer
      and its checksum is the payload's. */
  lemma SoundExactly(f: X.Format, reply: S.Reply, payload: Bytes, tail: Bytes, index: int64)
    requires reply.index < 0x8000_0000_0000_0000 && Readable(f, reply) && |payload| < TWO_32
    ensures
      var s := Wire(f, reply, payload) + tail;
      && (X.Sound(f, s, index) <==>
            reply.index == index as int && |payload| <= CHUNK_SIZE && f.crc(payload) == reply.checksum)
      && (X.Sound(f, s, index) ==> X.PayloadOf(f, s, index) == payload)
  {
    var head := f.marshal(HeaderOf(reply));
    var body := Encode(TYPE_FILE_CHUNK, payload) + tail;
    assert Wire(f, reply, payload) + tail == Encode(TYPE_JSON, head) + body;
    hide Encode, Decoded;
    FrameRoundTrip(TYPE_JSON, head, body, X.HEADER_BUFFER);
    if |payload| <= CHUNK_SIZE {
      FrameRoundTrip(TYPE_FILE_CHUNK, payload, tail, CHUNK_SIZE);
    } else {
      TooLong(TYPE_FILE_CHUNK, payload, tail, CHUNK_SIZE);
    }
  }

  /** A response that breaks off is never sound: nothing of it reaches the file. */
  lemma BrokenIsNotSound(f: X.Format, reply: S.Reply, payload: Bytes, k: nat, index: int64)
    requires reply.index < 0x8000_0000_0000_0000 && Readable(f, reply) && |payload| < TWO_32
    requires k < |Wire(f, reply, payload)|
    ensures !X.Sound(f, Wire(f, reply, payload)[..k], index)
  {
    var head := f.marshal(HeaderOf(reply));
    var first, second := Encode(TYPE_JSON, head), Encode(TYPE_FILE_CHUNK, payload);
    hide Encode, Decoded;
    if k < |first| {
      assert Wire(f, reply, payload)[..k] == first[..k];
      PrefixYieldsNothing(TYPE_JSON, head, k, X.HEADER_BUFFER);
    } else {
      assert Wire(f, reply, payload)[..k] == first + second[..k - |first|];
      FrameRoundTrip(TYPE_JSON, head, second[..k - |first|], X.HEADER_BUFFER);
      PrefixYieldsNothing(TYPE_FILE_CHUNK, payload, k - |first|, CHUNK_SIZE);
    }
  }

  // ----- The same step twice -----

  /** The engine's event, for a disk that accepts that many bytes. */
  function EventOf(w: S.World, engine: E.State, worker: nat, reply: S.Reply, payload: Bytes, accepted: nat): E.Event
    requires worker < |engine.workers| && engine.workers[worker].Fetching?
  {
    S.FetchOutcome(w, engine, worker, reply, payload, if accepted < |payload| then accepted else |payload|)
  }

  /** What an event returns and does to the file, in the terms of the exchange. */
  function Effect(file: Bytes, i: nat, event: E.Event): X.Outcome
    requires event.FetchOk? ==> i < ChunkNum(|file|) && |event.payload| == Len(|file|, i)
    requires event.FetchError? && event.partial != [] ==> i < ChunkNum(|file|) && |event.partial| <= Len(|file|, i)
  {
    match event
    case FetchOk(_, payload, checksum) => X.Outcome(Some((|payload|, checksum)), E.Write(file, i, payload))
    case FetchError(_, partial) => X.Outcome(None, E.Write(file, i, partial))
    case _ => X.Outcome(None, file)
  }

  lemma EventFits(w: S.World, engine: E.State, worker: nat, reply: S.Reply, payload: Bytes, accepted: nat)
    requires worker < |engine.workers| && engine.workers[worker].Fetching?
    ensures
      var event, i := EventOf(w, engine, worker, reply, payload, accepted), engine.workers[worker].i;
      && (event.FetchOk? || event.FetchError?) && event.w == worker
      && (event.FetchOk? ==> i < ChunkNum(|engine.file|) && |event.payload| == Len(|engine.file|, i))
      && (event.FetchError? && event.partial != [] ==>
            i < ChunkNum(|engine.file|) && |event.partial| <= Len(|engine.file|, i))
  {
  }

  /** What a delivery returns and does to the file. */
  function Delivered(w: S.World, engine: E.State, worker: nat, reply: S.Reply, payload: Bytes, accepted: nat)
    : X.Outcome
    requires worker < |engine.workers| && engine.workers[worker].Fetching?
  {
    EventFits(w, engine, worker, reply, payload, accepted);
    Effect(engine.file, engine.workers[worker].i, EventOf(w, engine, worker, reply, payload, accepted))
  }

  lemma WriteIsWriteAt(file: Bytes, i: nat, data: Bytes)
    requires i < ChunkNum(|file|) && |data| <= Len(|file|, i)
    ensures E.Write(file, i, data) == WriteAt(file, Offset(i), data)
  {
  }

  lemma SavedIsWrite(file: Bytes, size: FileSize, index: int64, payload: Bytes, accepted: nat)
    requires size as int == |file| && X.Fits(Some(size), index, payload)
    ensures X.Saved(Some(size), file, index, payload, accepted)
         == if accepted < |payload| then (false, E.Write(file, index as int, payload[..accepted]))
            else (true, E.Write(file, index as int, payload))
  {
    WriteIsWriteAt(file, index as int, if accepted < |payload| then payload[..accepted] else payload);
  }

  /** A fetch on the bytes of a delivered response returns and saves what the swarm's step says. */
  lemma FetchIsDelivery(w: S.World, f: X.Format, engine: E.State, size: FileSize, worker: nat, reply: S.Reply,
                        payload: Bytes, tail: Bytes, index: int64, accepted: nat)
    requires f.crc == w.crc && reply.index < 0x8000_0000_0000_0000 && Readable(f, reply) && |payload| < TWO_32
    requires worker < |engine.workers| && engine.workers[worker].Fetching?
    requires engine.workers[worker].i == index as int && size as int == |engine.file|
    ensures X.Fetched(f, Wire(f, reply, payload) + tail, Some(size), engine.file, index, accepted)
         == Delivered(w, engine, worker, reply, payload, accepted)
  {
    EventFits(w, engine, worker, reply, payload, accepted);
    SoundExactly(f, reply, payload, tail, index);
    hide Wire, X.Sound, X.PayloadOf, Decoded, Encode, E.Write, WriteAt;
    if X.Fits(Some(size), index, payload) {
      SavedIsWrite(engine.file, size, index, payload, accepted);
    }
    assert E.Write(engine.file, index as int, []) == engine.file by {
      WriteNothing(engine.file, index as int);
    }
  }

  lemma WriteNothing(file: Bytes, i: nat)
    ensures E.Write(file, i, []) == file
  {
  }

  /** And that is the file of the engine after the step. */
  lemma DeliveredIsNext(w: S.World, config: E.Config, engine: E.State, worker: nat, reply: S.Reply,
                        payload: Bytes, accepted: nat)
    requires config.Valid() && worker < |engine.workers| && engine.workers[worker].Fetching?
    ensures
      var event := EventOf(w, engine, worker, reply, payload, accepted);
      && E.Enabled(config, engine, event)
      && E.Next(config, engine, event).file == Delivered(w, engine, worker, reply, payload, accepted).content
  {
    EventFits(w, engine, worker, reply, payload, accepted);
    var taken := if accepted < |payload| then accepted else |payload|;
    S.OutcomeEnabled(w, config, engine, worker, reply, payload, taken);
    hide S.FetchOutcome;
  }

  // ----- The providers of the swarm -----

  /** What the handler of a receiver sees of its session and its file. */
  ghost predicate HandlerOf(node: S.Node, serving: X.Serving, ck: FileChunk)
    reads ck
  {
    && serving.isMain == node.config.isMain
    && (serving.isMain ==> serving.unchangedBefore && serving.unchangedAfter)
    && (forall i: nat :: i in serving.added <==> i in node.engine.chunkHash)
    && ck.content == node.engine.file && |node.engine.file| == node.config.size
    && ck.statSize.Some? && ck.statSize.value as int == node.config.size
  }

  /** The source is a main session with an unchanged file. */
  ghost predicate HandlerOfCentral(w: S.World, serving: X.Serving, ck: FileChunk)
    reads ck
  {
    && serving.isMain && serving.unchangedBefore && serving.unchangedAfter
    && ck.content == w.source
    && ck.statSize.Some? && ck.statSize.value as int == |w.source|
  }

  ghost predicate IsHandler(w: S.World, s: S.State, from: S.Provider, serving: X.Serving, ck: FileChunk)
    reads ck
  {
    match from
    case Central => HandlerOfCentral(w, serving, ck)
    case Peer(id) => id in s.nodes && s.nodes[id].serving && HandlerOf(s.nodes[id], serving, ck)
  }

  /** A provider of the swarm grants a request exactly if its handler does not refuse it, and what
      it answers is the handler's reply. */
  lemma HandlerServes(w: S.World, s: S.State, f: X.Format, request: S.Request, serving: X.Serving, ck: FileChunk,
                      index: int64)
    requires f.crc == w.crc && request.index == index as int && IsHandler(w, s, request.from, serving, ck)
    requires S.ConfigsValid(s)
    ensures
      var sent := X.Response(f, serving, ck, index, true);
      && (S.Enabled(w, s, S.Grant(request)) ==>
            var granted := S.Next(w, s, S.Grant(request));
            && S.Enabled(w, granted, S.Answer(request))
            && var data := S.ReadBy(w, s, request.from, request.index);
            && sent == X.Reply(f, index, data)
            && S.Next(w, granted, S.Answer(request)).replies
               == s.replies + {S.Reply(request.index, w.crc(data), data)})
      && (!S.Enabled(w, s, S.Grant(request)) ==> sent == X.Refusal(f, index, "no such chunk"))
  {
    hide X.Reply, X.Refusal;
  }

  /** A request that was granted at any time before is answered with what the handler reads now,
      whether or not the chunk was added in between. */
  lemma HandlerReads(w: S.World, s: S.State, from: S.Provider, serving: X.Serving, ck: FileChunk, index: int64)
    requires index >= 0 && IsHandler(w, s, from, serving, ck)
    ensures S.CanRead(w, s, from, index as int) <==> serving.Steady() && X.Readable(ck, index)
    ensures S.CanRead(w, s, from, index as int) ==> S.ReadBy(w, s, from, index as int) == X.ChunkOf(ck, index)
  {
  }
}
