/** The codec as it runs: a header filled into, and read out of, a byte array, and frames moved
    through a reader and a writer. */
module FrameIO {
  import opened Frame
  import opened FrameStream

  /** Copy `src` into the array at `off`. */
  method Put(b: array<byte>, off: nat, src: seq<byte>)
    requires off + |src| <= b.Length
    modifies b
    ensures b[..off + |src|] == old(b[..off]) + src
    ensures b[off + |src|..] == old(b[off + |src|..])
  {
    for i := 0 to |src|
      invariant b[..off + i] == old(b[..off]) + src[..i]
      invariant b[off + i..] == old(b[off + i..])
    {
      b[off + i] := src[i];
    }
  }

  /** Store the `n` low bytes of `v` at `off`, least significant first. */
  method PutLittleEndian(b: array<byte>, off: nat, v: nat, n: nat)
    requires off + n <= b.Length
    modifies b
    ensures b[..off + n] == old(b[..off]) + ToLE(v, n)
    ensures b[off + n..] == old(b[off + n..])
  {
    var left := v;
    for i := 0 to n
      invariant ToLE(v, n) == ToLE(v, n)[..i] + ToLE(left, n - i)
      invariant b[..off + i] == old(b[..off]) + ToLE(v, n)[..i]
      invariant b[off + i..] == old(b[off + i..])
    {
      assert ToLE(v, n)[i] == ToLE(left, n - i)[0];
      assert ToLE(v, n)[i + 1..] == ToLE(left, n - i)[1..];
      b[off + i] := (left % 256) as byte;
      left := left / 256;
    }
  }

  method GetLittleEndian(b: array<byte>, off: nat, n: nat) returns (v: nat)
    requires off + n <= b.Length
    ensures v == FromLE(b[off..off + n])
  {
    v := 0;
    for i := n downto 0
      invariant v == FromLE(b[off + i..off + n])
    {
      assert b[off + i..off + n][1..] == b[off + i + 1..off + n];
      v := b[off + i] as nat + 256 * v;
    }
  }

  method EncodeHeader(h: Header) returns (b: array<byte>)
    ensures fresh(b) && b[..] == HeaderBytes(h)
  {
    hide ToLE, Pow256;
    b := new byte[HEADER_SIZE](_ => 0);
    Put(b, 0, h.flag);
    PutLittleEndian(b, 2, Unsigned(h.msgType, 2), 2);
    Put(b, 4, [h.protoFmtType]);
    Put(b, 5, [h.protoVer]);
    PutLittleEndian(b, 6, Unsigned(h.serialNo, 4), 4);
    PutLittleEndian(b, 10, Unsigned(h.bodyLen, 4), 4);
    Put(b, 14, h.bodySHA1);
    Put(b, 142, [h.compressAlgorithm]);
    PutLittleEndian(b, 143, Unsigned(h.reserved, 8), 8);
    assert b[..] == b[..HEADER_SIZE];
  }

  function Signed(u: nat, n: nat): int {
    if 2 * u >= Pow256(n) then u - Pow256(n) else u
  }

  method DecodeHeader(b: array<byte>) returns (r: Result<Header>)
    ensures r == ParseHeader(b[..])
  {
    if b.Length < HEADER_SIZE {
      return Err(ShortHeader);
    }
    var s := b[..];
    assert s[0..2] == b[0..2];
    if b[0..2] != MAGIC {
      return Err(BadMagic);
    }
    assert s[2..4] == b[2..4] && s[6..10] == b[6..10] && s[10..14] == b[10..14] && s[14..142] == b[14..142];
    assert s[143..151] == b[143..151];
    Widths();
    EncodeDecode(s[2..4]);
    EncodeDecode(s[6..10]);
    EncodeDecode(s[10..14]);
    EncodeDecode(s[143..151]);
    hide FromLE, Pow256;
    var msgType := GetLittleEndian(b, 2, 2);
    var serialNo := GetLittleEndian(b, 6, 4);
    var bodyLen := GetLittleEndian(b, 10, 4);
    var reserved := GetLittleEndian(b, 143, 8);
    return Ok(Header(b[0..2], Signed(msgType, 2), b[4], b[5], Signed(serialNo, 4), Signed(bodyLen, 4), b[14..142],
                     b[142], Signed(reserved, 8)));
  }

  /** A byte stream read from the front. */
  class Reader {
    var rest: seq<byte>

    constructor (stream: seq<byte>)
      ensures rest == stream
    {
      rest := stream;
    }

    /** Fill a fresh buffer of `n` bytes, or consume what there is and fail. */
    method ReadFull(n: nat) returns (ok: bool, buf: array<byte>)
      modifies this
      ensures fresh(buf) && buf.Length == n
      ensures ok <==> n <= |old(rest)|
      ensures ok ==> buf[..] == old(rest)[..n] && rest == old(rest)[n..]
      ensures !ok ==> rest == []
    {
      buf := new byte[n](_ => 0);
      ok := n <= |rest|;
      if ok {
        Put(buf, 0, rest[..n]);
        assert buf[..] == buf[..n];
        rest := rest[n..];
      } else {
        Put(buf, 0, rest);
        rest := [];
      }
    }
  }

  method ReadFrame(r: Reader) returns (res: Result<Message>)
    modifies r
    ensures var one := ReadOne(old(r.rest));
            if one.Got? then res == Ok(one.message) && r.rest == one.rest else res == Err(one.error)
  {
    hide ParseHeader;
    ghost var s := r.rest;
    var available := |r.rest|;
    var ok, raw := r.ReadFull(HEADER_SIZE);
    if !ok {
      return Err(Shortfall(available));
    }
    assert raw[..] == s[..HEADER_SIZE];
    var parsed := DecodeHeader(raw);
    if parsed.Err? {
      return Err(parsed.error);
    }
    var h := parsed.value;
    if h.bodyLen < 0 {
      return Err(InvalidBodyLen);
    }
    if h.bodyLen > MAX_BODY_LEN {
      return Err(BodyTooLarge);
    }
    if h.compressAlgorithm != 0 {
      return Err(UnsupportedCompression);
    }
    if h.bodyLen == 0 {
      return Ok(Message(h, []));
    }
    available := |r.rest|;
    var body;
    ok, body := r.ReadFull(h.bodyLen);
    if !ok {
      return Err(Shortfall(available));
    }
    return Ok(Message(h, body[..]));
  }

  /** A writer that takes `room` more bytes and then accepts no more, with an error of its own or
      without a word. */
  class Writer {
    var out: seq<byte>
    var room: nat
    const complains: bool

    constructor (room: nat, complains: bool)
      ensures out == [] && this.room == room && this.complains == complains
    {
      out, this.room, this.complains := [], room, complains;
    }

    method Write(b: seq<byte>) returns (n: nat, failed: bool)
      modifies this
      ensures n == if |b| <= old(room) then |b| else old(room)
      ensures failed <==> n < |b| && complains
      ensures out == old(out) + b[..n] && room == old(room) - n
    {
      n := if |b| <= room then |b| else room;
      failed := n < |b| && complains;
      out := out + b[..n];
      room := room - n;
    }

    method WriteFull(b: seq<byte>) returns (res: Result<()>, ghost n: nat)
      modifies this
      ensures n == if |b| <= old(room) then |b| else old(room)
      ensures res == if n == |b| then Ok(()) else Err(if complains then WriterFailed else ShortWrite)
      ensures out == old(out) + b[..n] && room == old(room) - n
    {
      var m, failed := Write(b);
      n := m;
      if failed {
        return Err(WriterFailed), n;
      }
      if m != |b| {
        return Err(ShortWrite), n;
      }
      return Ok(()), n;
    }
  }

  /** A frame goes out whole, or the writer is left with a proper prefix of it and the error is the
      writer's, or says that it stopped short; a body that is too large sends nothing. */
  method WriteFrame(w: Writer, m: Message) returns (res: Result<()>)
    modifies w
    ensures |m.body| > MAX_BODY_LEN ==> res == Err(BodyTooLarge) && w.out == old(w.out)
    ensures |m.body| <= MAX_BODY_LEN ==>
              var whole := |FrameBytes(m)| <= old(w.room);
              && res == (if whole then Ok(()) else Err(if w.complains then WriterFailed else ShortWrite))
              && w.out == old(w.out) + FrameBytes(m)[..if whole then |FrameBytes(m)| else old(w.room)]
  {
    hide HeaderBytes;
    if |m.body| > MAX_BODY_LEN {
      return Err(BodyTooLarge);
    }
    var h := m.header.(flag := MAGIC, bodyLen := |m.body|);
    var raw := EncodeHeader(h);
    ghost var n;
    res, n := w.WriteFull(raw[..]);
    if res.Err? {
      assert FrameBytes(m)[..n] == raw[..][..n];
      return;
    }
    assert raw[..][..n] == raw[..];
    if |m.body| > 0 {
      res, n := w.WriteFull(m.body);
      assert FrameBytes(m)[..HEADER_SIZE + n] == raw[..] + m.body[..n];
    }
    assert FrameBytes(m)[..|FrameBytes(m)|] == FrameBytes(m);
  }
}
