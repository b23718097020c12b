/** The GSP framing: one type byte, four little-endian length bytes, the payload. */
module Codec {
  import opened Outcomes
  import opened Chunks

  const TYPE_JSON: byte := 1
  const TYPE_FILE_CHUNK: byte := 2
  const HEADER: nat := 5
  /** Lengths are converted to 32 bits, as uint32(...) does. */
  const TWO_32: nat := 0x1_0000_0000

  datatype Packet = Packet(typ: byte, length: nat, payload: Bytes)

  datatype CodecError = EndOfStream | InvalidType | TooLarge

  // ----- Length bytes -----

  function PutLe32(n: nat): (b: Bytes)
    requires n < TWO_32
    ensures |b| == 4
  {
    [(n % 256) as byte, (n / 256 % 256) as byte, (n / 0x1_0000 % 256) as byte, (n / 0x100_0000) as byte]
  }

  function Le32(b: Bytes): (n: nat)
    requires |b| == 4
    ensures n < TWO_32
  {
    b[0] as int + 256 * b[1] as int + 0x1_0000 * b[2] as int + 0x100_0000 * b[3] as int
  }

  lemma Le32RoundTrip(n: nat)
    requires n < TWO_32
    ensures Le32(PutLe32(n)) == n
  {
    var n1, n2, n3 := n / 256, n / 0x1_0000, n / 0x100_0000;
    DigitSum(n, n1);
    DigitSum(n1, n2);
    DigitSum(n2, n3);
    LeOfDigits(n, n1, n2, n3);
  }

  lemma DigitSum(n: nat, above: nat)
    requires above == n / 256
    ensures n == n % 256 + 256 * above
  {
  }

  lemma LeOfDigits(n: nat, n1: nat, n2: nat, n3: nat)
    requires n == n % 256 + 256 * n1 && n1 == n1 % 256 + 256 * n2 && n2 == n2 % 256 + 256 * n3
    ensures n == n % 256 + 256 * (n1 % 256) + 0x1_0000 * (n2 % 256) + 0x100_0000 * n3
  {
  }

  lemma PutLe32RoundTrip(b: Bytes)
    requires |b| == 4
    ensures PutLe32(Le32(b)) == b
  {
    Le32Bytes(b[0] as int, b[1] as int, b[2] as int, b[3] as int);
  }

  lemma Le32Bytes(b0: int, b1: int, b2: int, b3: int)
    requires 0 <= b0 < 256 && 0 <= b1 < 256 && 0 <= b2 < 256 && 0 <= b3 < 256
    ensures
      var n := b0 + 256 * b1 + 0x1_0000 * b2 + 0x100_0000 * b3;
      n % 256 == b0 && n / 256 % 256 == b1 && n / 0x1_0000 % 256 == b2 && n / 0x100_0000 == b3
  {
    var n := b0 + 256 * b1 + 0x1_0000 * b2 + 0x100_0000 * b3;
    assert n / 256 == b1 + 256 * b2 + 0x1_0000 * b3;
    assert n / 0x1_0000 == b2 + 256 * b3;
  }

  // ----- Frames as byte sequences -----

  function Encode(typ: byte, payload: Bytes): Bytes {
    [typ] + PutLe32(|payload| % TWO_32) + payload
  }

  /** Decoding from a stream of which `s` is left, when payloads above `limit` are refused:
      the outcome and what is left then. */
  function Decoded(s: Bytes, limit: nat): (Result<Packet, CodecError>, Bytes) {
    if |s| < HEADER then (Err(EndOfStream), [])
    else if s[0] != TYPE_JSON && s[0] != TYPE_FILE_CHUNK then (Err(InvalidType), s[HEADER..])
    else
      var n := Le32(s[1..HEADER]);
      if limit < n then (Err(TooLarge), s[HEADER..])
      else if |s| - HEADER < n then (Err(EndOfStream), [])
      else (Ok(Packet(s[0], n, s[HEADER..HEADER + n])), s[HEADER + n..])
  }

  predicate ValidType(typ: byte) {
    typ == TYPE_JSON || typ == TYPE_FILE_CHUNK
  }

  lemma EncodedParts(typ: byte, payload: Bytes, tail: Bytes)
    ensures
      var s := Encode(typ, payload) + tail;
      && |s| == HEADER + |payload| + |tail| && s[0] == typ
      && Le32(s[1..HEADER]) == |payload| % TWO_32
      && s[HEADER..] == payload + tail
  {
    var s := Encode(typ, payload) + tail;
    assert s[1..HEADER] == PutLe32(|payload| % TWO_32);
    Le32RoundTrip(|payload| % TWO_32);
  }

  /** A frame comes back, with exactly its bytes consumed, exactly when its payload fits. */
  lemma FrameRoundTrip(typ: byte, payload: Bytes, tail: Bytes, limit: nat)
    requires ValidType(typ) && limit < TWO_32
    ensures Decoded(Encode(typ, payload) + tail, limit) == (Ok(Packet(typ, |payload|, payload)), tail)
       <==> |payload| <= limit
  {
    EncodedParts(typ, payload, tail);
    var s := Encode(typ, payload) + tail;
    if |payload| <= limit {
      assert s[HEADER..HEADER + |payload|] == payload;
      assert s[HEADER + |payload|..] == tail;
    }
  }

  /** A frame that breaks off yields no packet. */
  lemma PrefixYieldsNothing(typ: byte, payload: Bytes, k: nat, limit: nat)
    requires ValidType(typ) && |payload| < TWO_32 && k < |Encode(typ, payload)|
    ensures Decoded(Encode(typ, payload)[..k], limit).0.Err?
  {
    var s := Encode(typ, payload);
    EncodedParts(typ, payload, []);
    assert s + [] == s;
    if k >= HEADER {
      assert s[..k][1..HEADER] == s[1..HEADER];
    }
  }

  /** Encoding a decoded packet gives back the bytes it was decoded from. */
  lemma ReEncode(s: Bytes, limit: nat)
    requires limit < TWO_32 && Decoded(s, limit).0.Ok?
    ensures
      var p := Decoded(s, limit).0.value;
      && ValidType(p.typ) && p.length == |p.payload| <= limit
      && Encode(p.typ, p.payload) + Decoded(s, limit).1 == s
  {
    PutLe32RoundTrip(s[1..HEADER]);
    var p, rest := Decoded(s, limit).0.value, Decoded(s, limit).1;
    assert Encode(p.typ, p.payload) == [s[0]] + s[1..HEADER] + s[HEADER..HEADER + p.length];
    assert s == [s[0]] + s[1..HEADER] + s[HEADER..HEADER + p.length] + s[HEADER + p.length..];
  }

  datatype Frame = Frame(typ: byte, payload: Bytes)

  function EncodeAll(frames: seq<Frame>): Bytes {
    if frames == [] then [] else Encode(frames[0].typ, frames[0].payload) + EncodeAll(frames[1..])
  }

  /** The first `k` packets of a stream, and what is left after them. */
  function DecodedMany(s: Bytes, limit: nat, k: nat): Option<(seq<Frame>, Bytes)> {
    if k == 0 then Some(([], s))
    else
      var (first, rest) := Decoded(s, limit);
      if first.Err? then None
      else
        var more := DecodedMany(rest, limit, k - 1);
        if more.None? then None
        else Some(([Frame(first.value.typ, first.value.payload)] + more.value.0, more.value.1))
  }

  /** Any sequence of frames that fit is read back as it was sent, and nothing beyond it is
      touched. */
  lemma {:induction false} StreamRoundTrip(frames: seq<Frame>, tail: Bytes, limit: nat)
    requires limit < TWO_32
    requires forall k :: 0 <= k < |frames| ==> ValidType(frames[k].typ) && |frames[k].payload| <= limit
    ensures DecodedMany(EncodeAll(frames) + tail, limit, |frames|) == Some((frames, tail))
  {
    if frames == [] {
      assert EncodeAll(frames) + tail == tail;
    } else {
      var f, rest := frames[0], frames[1..];
      StreamRoundTrip(rest, tail, limit);
      FrameRoundTrip(f.typ, f.payload, EncodeAll(rest) + tail, limit);
      assert EncodeAll(frames) + tail == Encode(f.typ, f.payload) + (EncodeAll(rest) + tail);
      assert frames == [f] + rest;
    }
  }

  /** Decoders with different limits agree wherever both accept. */
  lemma LimitsAgree(s: Bytes, a: nat, b: nat)
    requires Decoded(s, a).0.Ok? && Decoded(s, b).0.Ok?
    ensures Decoded(s, a) == Decoded(s, b)
  {
  }

  // ----- The codec on streams and buffers -----

  class Reader {
    const data: Bytes
    var pos: nat

    constructor (data: Bytes)
      ensures Valid() && Left() == data
    {
      this.data, this.pos := data, 0;
    }

    ghost predicate Valid()
      reads this
    {
      pos <= |data|
    }

    /** What has not been read yet. */
    ghost function Left(): Bytes
      reads this
      requires Valid()
    {
      data[pos..]
    }

    /** io.ReadFull on the first `n` bytes of the buffer: a short stream is read to its end. */
    method ReadFull(buf: array<byte>, n: nat) returns (ok: bool)
      requires Valid() && n <= buf.Length
      modifies this, buf
      ensures Valid() && ok == (n <= |old(Left())|)
      ensures ok ==> buf[..n] == old(Left())[..n] && Left() == old(Left())[n..]
      ensures !ok ==> Left() == []
    {
      if n <= |data| - pos {
        forall k | 0 <= k < n {
          buf[k] := data[pos + k];
        }
        pos := pos + n;
        return true;
      }
      pos := |data|;
      return false;
    }
  }

  class Writer {
    var sent: Bytes

    constructor ()
      ensures sent == []
    {
      sent := [];
    }
  }

  /** Reads a frame into the caller's buffer.  The buffer's capacity is compared in 32 bits. */
  method Decode(r: Reader, payloadBuf: array<byte>) returns (res: Result<Packet, CodecError>)
    requires r.Valid()
    modifies r, payloadBuf
    ensures r.Valid()
    ensures (res, r.Left()) == Decoded(old(r.Left()), payloadBuf.Length % TWO_32)
    ensures res.Ok? ==> payloadBuf[..res.value.length] == res.value.payload
  {
    ghost var s := r.Left();
    var header := new byte[5];
    var ok := r.ReadFull(header, 5);
    if !ok {
      return Err(EndOfStream);
    }
    assert header[..5] == s[..5];
    assert header[..][1..] == s[1..5];
    if header[0] != TYPE_JSON && header[0] != TYPE_FILE_CHUNK {
      return Err(InvalidType);
    }
    var dataLen := Le32(header[1..]);
    if payloadBuf.Length % TWO_32 < dataLen {
      return Err(TooLarge);
    }
    ok := r.ReadFull(payloadBuf, dataLen);
    if !ok {
      return Err(EndOfStream);
    }
    assert s[5..][..dataLen] == s[5..5 + dataLen];
    return Ok(Packet(header[0], dataLen, payloadBuf[..dataLen]));
  }

  /** Reads a frame of at most `limit` bytes, into the buffer if it is large enough and into a
      new one otherwise. */
  method DecodeBounded(r: Reader, buf: array<byte>, limit: nat) returns (res: Result<Packet, CodecError>)
    requires r.Valid() && limit < TWO_32
    modifies r, buf
    ensures r.Valid()
    ensures (res, r.Left()) == Decoded(old(r.Left()), limit)
  {
    ghost var s := r.Left();
    var header := new byte[5];
    var ok := r.ReadFull(header, 5);
    if !ok {
      return Err(EndOfStream);
    }
    assert header[..5] == s[..5];
    assert header[..][1..] == s[1..5];
    if header[0] != TYPE_JSON && header[0] != TYPE_FILE_CHUNK {
      return Err(InvalidType);
    }
    var n := Le32(header[1..]);
    if n > limit {
      return Err(TooLarge);
    }
    var target := buf;
    if buf.Length % TWO_32 < n {
      target := new byte[n];
    }
    ok := r.ReadFull(target, n);
    if !ok {
      return Err(EndOfStream);
    }
    assert s[5..][..n] == s[5..5 + n];
    return Ok(Packet(header[0], n, target[..n]));
  }

  /** Writes a frame; the connection takes the first `accepted` bytes. */
  method EncodeTo(conn: Writer, typ: byte, payload: Bytes, accepted: nat) returns (ok: bool)
    modifies conn
    ensures ok == (accepted >= |Encode(typ, payload)|)
    ensures conn.sent == old(conn.sent) + if ok then Encode(typ, payload) else Encode(typ, payload)[..accepted]
  {
    var header := new byte[5];
    header[0] := typ;
    var length := PutLe32(|payload| % TWO_32);
    forall k | 0 <= k < 4 {
      header[k + 1] := length[k];
    }
    assert header[..] == [typ] + length;
    var all := header[..] + payload;
    conn.sent := conn.sent + if accepted < |all| then all[..accepted] else all;
    return accepted >= |all|;
  }
}
