/** One getChunk exchange on the wire: what the provider's handler sends and what the receiver's
    fetch makes of it. */
module Exchange {
  import opened Integers
  import opened Outcomes
  import opened Chunks
  import opened Codec

  /** The JSON header of a response. */
  datatype Header = Header(index: int64, status: bool, checksum: int, error: string)

  /** JSON and the checksum are whatever they are. */
  datatype Format = Format(marshal: Header -> Bytes, parse: Bytes -> Option<Header>, crc: Bytes -> int)

  const HEADER_BUFFER: nat := 4096

  datatype FetchError = Broken | BadType | Refused | WrongChunk | BadChecksum | NotSaved

  // ----- The provider -----

  function Refusal(f: Format, index: int64, error: string): Bytes {
    Encode(TYPE_JSON, f.marshal(Header(index, false, 0, error)))
  }

  function Reply(f: Format, index: int64, data: Bytes): Bytes {
    Encode(TYPE_JSON, f.marshal(Header(index, true, f.crc(data), ""))) + Encode(TYPE_FILE_CHUNK, data)
  }

  /** What a connection that takes room bytes gets of the bytes sent. */
  function Cut(sent: Bytes, room: nat): Bytes {
    if room < |sent| then sent[..room] else sent
  }

  lemma CutTwo(a: Bytes, b: Bytes, room: nat)
    ensures room < |a| ==> Cut(a + b, room) == Cut(a, room)
    ensures room >= |a| ==> Cut(a + b, room) == a + Cut(b, room - |a|)
  {
  }

  method Refuse(conn: Writer, f: Format, index: int64, error: string, room: nat)
    modifies conn
    ensures conn.sent == old(conn.sent) + Cut(Refusal(f, index, error), room)
  {
    hide Encode;
    var _ := EncodeTo(conn, TYPE_JSON, f.marshal(Header(index, false, 0, error)), room);
  }

  method SendReply(conn: Writer, f: Format, index: int64, data: Bytes, room: nat) returns (ok: bool)
    modifies conn
    ensures ok == (room >= |Reply(f, index, data)|)
    ensures conn.sent == old(conn.sent) + Cut(Reply(f, index, data), room)
  {
    hide Encode;
    var header := f.marshal(Header(index, true, f.crc(data), ""));
    ghost var first, second := Encode(TYPE_JSON, header), Encode(TYPE_FILE_CHUNK, data);
    CutTwo(first, second, room);
    ok := EncodeTo(conn, TYPE_JSON, header, room);
    if ok {
      var left := room - |Encode(TYPE_JSON, header)|;
      ok := EncodeTo(conn, TYPE_FILE_CHUNK, data, left);
      assert conn.sent == old(conn.sent) + first + Cut(second, room - |first|);
    }
  }

  /** What the session knows when a request comes: whether it is a main one, the chunks it added,
      and whether the source file is still unchanged before and after the read. */
  datatype Serving = Serving(isMain: bool, added: set<int>, unchangedBefore: bool, unchangedAfter: bool) {
    predicate Has(ck: FileChunk, index: int64) {
      0 <= index < ck.GetChunkNum() && (isMain || index as int in added)
    }

    /** A receiver's file is not watched. */
    predicate Steady() {
      !isMain || (unchangedBefore && unchangedAfter)
    }
  }

  /** Reads for a response; a source that changed before or during the read is an error. */
  method ReadServed(serving: Serving, ck: FileChunk, index: int64, buf: array<byte>) returns (r: Option<Bytes>)
    requires buf.Length == CHUNK_SIZE
    modifies buf
    ensures r == if serving.Steady() && Readable(ck, index) then Some(ChunkOf(ck, index)) else None
  {
    if serving.isMain && !serving.unchangedBefore {
      return None;
    }
    var n := ck.ReadChunk(index, buf);
    if n.Err? || (serving.isMain && !serving.unchangedAfter) {
      return None;
    }
    r := Some(buf[..n.value]);
  }

  /** The frames for a request: a chunk that the session has and can read, and otherwise the
      reason why it is not given. */
  ghost function Response(f: Format, serving: Serving, ck: FileChunk, index: int64, slot: bool): Bytes
    reads ck
  {
    if index < 0 || index as int >= ChunksIn(ck.statSize) then Refusal(f, index, "no such chunk")
    else if !serving.isMain && index as int !in serving.added then Refusal(f, index, "no such chunk")
    else if !slot then Refusal(f, index, "no upload slot")
    else if serving.isMain && !(serving.unchangedBefore && serving.unchangedAfter) then Refusal(f, index, "read error")
    else if Offset(index as int) + Len(ck.statSize.value as int, index as int) > |ck.content| then
      Refusal(f, index, "read error")
    else Reply(f, index, ChunkOf(ck, index))
  }

  ghost function ChunksIn(size: Option<FileSize>): nat {
    if size.None? then 0 else ChunkNum(size.value as int)
  }

  /** slot is what the wait for an upload slot came to; the connection takes room bytes.  A reply
      that cannot be sent whole closes the connection. */
  method GetChunk(conn: Writer, f: Format, serving: Serving, ck: FileChunk, index: int64, slot: bool,
                  buf: array<byte>, room: nat) returns (close: bool)
    requires buf.Length == CHUNK_SIZE
    modifies conn, buf
    ensures conn.sent == old(conn.sent) + Cut(Response(f, serving, ck, index, slot), room)
    ensures close <==>
              && serving.Has(ck, index) && slot && serving.Steady() && Readable(ck, index)
              && room < |Response(f, serving, ck, index, slot)|
  {
    hide Refusal, Reply, Cut;
    if !serving.Has(ck, index) {
      Refuse(conn, f, index, "no such chunk", room);
      return false;
    }
    if !slot {
      Refuse(conn, f, index, "no upload slot", room);
      return false;
    }
    var data := ReadServed(serving, ck, index, buf);
    if data.None? {
      Refuse(conn, f, index, "read error", room);
      return false;
    }
    var ok := SendReply(conn, f, index, data.value, room);
    close := !ok;
  }

  ghost predicate Readable(ck: FileChunk, index: int64)
    reads ck
  {
    && 0 <= index < ck.GetChunkNum()
    && Offset(index as int) + Len(ck.statSize.value as int, index as int) <= |ck.content|
  }

  ghost function ChunkOf(ck: FileChunk, index: int64): Bytes
    requires Readable(ck, index)
    reads ck
  {
    var n := Len(ck.statSize.value as int, index as int);
    ck.content[Offset(index as int)..Offset(index as int) + n]
  }

  // ----- The receiver -----

  /** The response says that it carries the requested chunk, and its checksum and type agree. */
  ghost predicate Sound(f: Format, s: Bytes, index: int64) {
    var (head, rest) := Decoded(s, HEADER_BUFFER);
    && head.Ok? && head.value.typ == TYPE_JSON && f.parse(head.value.payload).Some?
    && var info := f.parse(head.value.payload).value;
    && info.error == "" && info.status && info.index == index
    && var (body, _) := Decoded(rest, CHUNK_SIZE);
    && body.Ok? && body.value.typ == TYPE_FILE_CHUNK && f.crc(body.value.payload) == info.checksum
  }

  ghost function PayloadOf(f: Format, s: Bytes, index: int64): Bytes
    requires Sound(f, s, index)
  {
    Decoded(Decoded(s, HEADER_BUFFER).1, CHUNK_SIZE).0.value.payload
  }

  /** The length is the exact one for a valid index of a file of the recorded size. */
  ghost predicate Fits(size: Option<FileSize>, index: int64, data: Bytes) {
    size.Some? && 0 <= index as int < ChunkNum(size.value as int) &&
    |data| == Len(size.value as int, index as int)
  }

  /** Whether the payload could be saved, and the file that the attempt leaves. */
  ghost function Saved(size: Option<FileSize>, content: Bytes, index: int64, payload: Bytes, accepted: nat)
    : (bool, Bytes)
  {
    if !Fits(size, index, payload) then (false, content)
    else if accepted < |payload| then (false, WriteAt(content, Offset(index as int), payload[..accepted]))
    else (true, WriteAt(content, Offset(index as int), payload))
  }

  method SavePayload(ck: FileChunk, index: int64, payload: Bytes, accepted: nat) returns (ok: bool)
    modifies ck
    ensures (ok, ck.content) == Saved(ck.statSize, old(ck.content), index, payload, accepted)
  {
    var taken := if accepted < |payload| then accepted else |payload|;
    var saved := ck.Save(index, payload, taken);
    assert payload[..|payload|] == payload;
    ok := saved.Ok?;
  }

  /** What a fetch returns, and the file it leaves, when the disk accepts that many bytes. */
  datatype Outcome = Outcome(result: Option<(nat, int)>, content: Bytes)

  ghost function Fetched(f: Format, s: Bytes, size: Option<FileSize>, content: Bytes, index: int64, accepted: nat)
    : Outcome
  {
    if !Sound(f, s, index) then Outcome(None, content)
    else
      var payload := PayloadOf(f, s, index);
      var (ok, after) := Saved(size, content, index, payload, accepted);
      Outcome(if ok then Some((|payload|, f.crc(payload))) else None, after)
  }

  /** Saves the chunk exactly if the response is sound, has the exact length, and the disk takes
      all of it; a response that is refused leaves the file alone, and a disk that takes less is
      left with a part of the chunk from the front. */
  method Fetch(conn: Reader, f: Format, ck: FileChunk, index: int64, buf: array<byte>, accepted: nat)
    returns (r: Result<(nat, int), FetchError>)
    requires conn.Valid() && buf.Length == CHUNK_SIZE
    modifies conn, buf, ck
    ensures conn.Valid()
    ensures Outcome(if r.Ok? then Some(r.value) else None, ck.content)
         == Fetched(f, old(conn.Left()), ck.statSize, old(ck.content), index, accepted)
  {
    hide Saved, Decoded;
    var header := new byte[4096];
    var first := Decode(conn, header);
    if first.Err? {
      return Err(Broken);
    }
    if first.value.typ != TYPE_JSON {
      return Err(BadType);
    }
    var info := f.parse(first.value.payload);
    if info.None? {
      return Err(Broken);
    }
    if info.value.error != "" {
      return Err(Refused);
    }
    if !info.value.status || info.value.index != index {
      return Err(WrongChunk);
    }
    var second := Decode(conn, buf);
    if second.Err? {
      return Err(Broken);
    }
    if second.value.typ != TYPE_FILE_CHUNK {
      return Err(BadType);
    }
    var payload := second.value.payload;
    var checksum := f.crc(payload);
    if checksum != info.value.checksum {
      return Err(BadChecksum);
    }
    var saved := SavePayload(ck, index, payload, accepted);
    if !saved {
      return Err(NotSaved);
    }
    return Ok((|payload|, checksum));
  }

  // ----- Both together -----

  /** A whole reply is sound for the requested index exactly if it is about that index, and then
      carries the bytes that were read. */
  lemma ReplyIsSound(f: Format, asked: int64, sent: int64, data: Bytes, tail: Bytes)
    requires
      var header := Header(sent, true, f.crc(data), "");
      f.parse(f.marshal(header)) == Some(header) && |f.marshal(header)| <= HEADER_BUFFER
    requires |data| <= CHUNK_SIZE
    ensures
      var s := Reply(f, sent, data) + tail;
      && (Sound(f, s, asked) <==> asked == sent)
      && (Sound(f, s, asked) ==> PayloadOf(f, s, asked) == data)
  {
    var head := f.marshal(Header(sent, true, f.crc(data), ""));
    var body := Encode(TYPE_FILE_CHUNK, data) + tail;
    assert Reply(f, sent, data) + tail == Encode(TYPE_JSON, head) + body;
    hide Encode, Decoded;
    FrameRoundTrip(TYPE_JSON, head, body, HEADER_BUFFER);
    FrameRoundTrip(TYPE_FILE_CHUNK, data, tail, CHUNK_SIZE);
  }

  /** A refusal never puts anything into the receiver's file, whatever the stream goes on with. */
  lemma RefusalIsNotSound(f: Format, asked: int64, sent: int64, error: string, tail: Bytes)
    requires
      var header := Header(sent, false, 0, error);
      f.parse(f.marshal(header)) == Some(header) && |f.marshal(header)| <= HEADER_BUFFER
    ensures !Sound(f, Refusal(f, sent, error) + tail, asked)
  {
    hide Encode, Decoded;
    FrameRoundTrip(TYPE_JSON, f.marshal(Header(sent, false, 0, error)), tail, HEADER_BUFFER);
  }

  /** JSON gives the header back, and it fits the receiver's buffer. */
  ghost predicate Survives(f: Format, header: Header) {
    f.parse(f.marshal(header)) == Some(header) && |f.marshal(header)| <= HEADER_BUFFER
  }

  /** The headers of all responses for this index survive. */
  ghost predicate HeadersSurvive(f: Format, ck: FileChunk, index: int64)
    reads ck
  {
    && Survives(f, Header(index, false, 0, "no such chunk"))
    && Survives(f, Header(index, false, 0, "no upload slot"))
    && Survives(f, Header(index, false, 0, "read error"))
    && (Readable(ck, index) ==> Survives(f, Header(index, true, f.crc(ChunkOf(ck, index)), "")))
  }

  /** A receiver is given a chunk exactly if the session is the main one or added that chunk, a
      slot came free in time and the whole range could be read, of a main session without the file
      having changed; it is then given what was read. */
  lemma GivenExactly(f: Format, serving: Serving, ck: FileChunk, index: int64, slot: bool, tail: Bytes)
    requires HeadersSurvive(f, ck, index)
    ensures
      var s := Response(f, serving, ck, index, slot) + tail;
      && (Sound(f, s, index) <==>
            && ck.statSize.Some? && 0 <= index as int < ChunkNum(ck.statSize.value as int)
            && (serving.isMain || index as int in serving.added)
            && slot
            && (serving.isMain ==> serving.unchangedBefore && serving.unchangedAfter)
            && Offset(index as int) + Len(ck.statSize.value as int, index as int) <= |ck.content|)
      && (Sound(f, s, index) ==> PayloadOf(f, s, index) == ChunkOf(ck, index))
  {
    hide Sound, PayloadOf, Refusal, Reply, Encode, Decoded;
    RefusalIsNotSound(f, index, index, "no such chunk", tail);
    RefusalIsNotSound(f, index, index, "no upload slot", tail);
    RefusalIsNotSound(f, index, index, "read error", tail);
    if Readable(ck, index) {
      ReplyIsSound(f, index, index, ChunkOf(ck, index), tail);
    }
  }
}
