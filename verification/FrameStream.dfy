/** Frames one after another on a stream: reading them back, and reading a stream that was cut. */
module FrameStream {
  import opened Frame

  datatype Message = Message(header: Header, body: seq<byte>)

  /** What one ReadFrame does: a message and what is left of the stream, or an error. */
  datatype Read = Got(message: Message, rest: seq<byte>) | Failed(error: Error)

  /** io.ReadFull on a stream that ends: nothing read is EOF, too little is UnexpectedEOF. */
  function Shortfall(available: nat): Error {
    if available == 0 then EOF else UnexpectedEOF
  }

  function ReadOne(s: seq<byte>): Read {
    if |s| < HEADER_SIZE then Failed(Shortfall(|s|))
    else
      var parsed := ParseHeader(s[..HEADER_SIZE]);
      if parsed.Err? then Failed(parsed.error)
      else
        var h, rest := parsed.value, s[HEADER_SIZE..];
        if h.bodyLen < 0 then Failed(InvalidBodyLen)
        else if h.bodyLen > MAX_BODY_LEN then Failed(BodyTooLarge)
        else if h.compressAlgorithm != 0 then Failed(UnsupportedCompression)
        else if h.bodyLen > |rest| then Failed(Shortfall(|rest|))
        else Got(Message(h, rest[..h.bodyLen]), rest[h.bodyLen..])
  }

  /** Read until an error: what was read, and the error. */
  function ReadAll(s: seq<byte>): (seq<Message>, Error)
    decreases |s|
  {
    var r := ReadOne(s);
    if r.Failed? then ([], r.error)
    else
      var (ms, e) := ReadAll(r.rest);
      ([r.message] + ms, e)
  }

  predicate Sendable(m: Message) {
    |m.body| <= MAX_BODY_LEN && m.header.compressAlgorithm == 0
  }

  /** WriteFrame forces the flag and the body length. */
  function Stamped(m: Message): Message
    requires |m.body| <= MAX_BODY_LEN
  {
    m.(header := m.header.(flag := MAGIC, bodyLen := |m.body|))
  }

  function FrameBytes(m: Message): (s: seq<byte>)
    requires |m.body| <= MAX_BODY_LEN
    ensures |s| == HEADER_SIZE + |m.body|
  {
    HeaderBytes(Stamped(m).header) + m.body
  }

  predicate AllSendable(ms: seq<Message>) {
    forall m :: m in ms ==> Sendable(m)
  }

  function Stream(ms: seq<Message>): seq<byte>
    requires AllSendable(ms)
  {
    if ms == [] then [] else assert ms[0] in ms; FrameBytes(ms[0]) + Stream(ms[1..])
  }

  function AllStamped(ms: seq<Message>): seq<Message>
    requires AllSendable(ms)
  {
    if ms == [] then [] else assert ms[0] in ms; [Stamped(ms[0])] + AllStamped(ms[1..])
  }

  /** How many of the messages lie wholly within the first `n` bytes of their stream. */
  function Whole(ms: seq<Message>, n: nat): (k: nat)
    ensures k <= |ms|
  {
    if ms == [] || n < HEADER_SIZE + |ms[0].body| then 0
    else 1 + Whole(ms[1..], n - HEADER_SIZE - |ms[0].body|)
  }

  /** Whether the first `n` bytes end where nothing of the next part has been sent: between two
      frames, or between a header and its body. */
  predicate AtSeam(ms: seq<Message>, n: nat) {
    n == 0
    || (ms != [] && (if n < HEADER_SIZE + |ms[0].body| then n == HEADER_SIZE
                     else AtSeam(ms[1..], n - HEADER_SIZE - |ms[0].body|)))
  }

  /** One whole frame at the head of a stream is read back as it was sent. */
  lemma ReadsWholeFrame(m: Message, tail: seq<byte>)
    requires Sendable(m)
    ensures ReadOne(FrameBytes(m) + tail) == Got(Stamped(m), tail)
  {
    hide HeaderBytes, ParseHeader;
    var s := FrameBytes(m) + tail;
    var h := Stamped(m).header;
    assert s[..HEADER_SIZE] == HeaderBytes(h);
    ParseOfEncoded(h, []);
    assert HeaderBytes(h) + [] == HeaderBytes(h);
    assert s[HEADER_SIZE..] == m.body + tail;
  }

  /** Part of a frame is never read as a frame. */
  lemma ReadsNoPartialFrame(m: Message, n: nat)
    requires Sendable(m) && n < |FrameBytes(m)|
    ensures ReadOne(FrameBytes(m)[..n]) == Failed(if n == 0 || n == HEADER_SIZE then EOF else UnexpectedEOF)
  {
    hide HeaderBytes, ParseHeader;
    var s := FrameBytes(m)[..n];
    var h := Stamped(m).header;
    if n >= HEADER_SIZE {
      assert s[..HEADER_SIZE] == HeaderBytes(h);
      ParseOfEncoded(h, []);
      assert HeaderBytes(h) + [] == HeaderBytes(h);
    }
  }

  /** A stream cut anywhere yields exactly the messages that are whole, unaltered, and then EOF at
      a seam and UnexpectedEOF anywhere else. */
  lemma {:induction false} ReadsCutStream(ms: seq<Message>, n: nat)
    requires AllSendable(ms) && n <= |Stream(ms)|
    ensures AllSendable(ms[..Whole(ms, n)])
    ensures ReadAll(Stream(ms)[..n]) ==
            (AllStamped(ms[..Whole(ms, n)]), if AtSeam(ms, n) then EOF else UnexpectedEOF)
  {
    hide HeaderBytes, ParseHeader, ReadOne;
    var s := Stream(ms)[..n];
    if ms == [] {
      assert s == [];
      assert ReadOne([]) == Failed(EOF) by { EmptyIsEOF(); }
    } else {
      var m, rest := ms[0], ms[1..];
      assert m in ms;
      var first := |FrameBytes(m)|;
      if n < first {
        assert s == FrameBytes(m)[..n];
        ReadsNoPartialFrame(m, n);
      } else {
        assert s == FrameBytes(m) + Stream(rest)[..n - first];
        ReadsWholeFrame(m, Stream(rest)[..n - first]);
        ReadsCutStream(rest, n - first);
        var k := Whole(rest, n - first);
        assert ms[..k + 1] == [m] + rest[..k];
        assert ms[..k + 1][1..] == rest[..k];
      }
    }
  }

  lemma EmptyIsEOF()
    ensures ReadOne([]) == Failed(EOF)
  {
  }

  lemma {:induction false} WholeStream(ms: seq<Message>)
    requires AllSendable(ms)
    ensures Whole(ms, |Stream(ms)|) == |ms| && AtSeam(ms, |Stream(ms)|)
  {
    if ms != [] {
      assert ms[0] in ms;
      WholeStream(ms[1..]);
    }
  }

  /** Reading back any sequence of written frames returns exactly those frames, then EOF. */
  lemma ReadsWhatWasWritten(ms: seq<Message>)
    requires AllSendable(ms)
    ensures ReadAll(Stream(ms)) == (AllStamped(ms), EOF)
  {
    WholeStream(ms);
    ReadsCutStream(ms, |Stream(ms)|);
    assert Stream(ms)[..|Stream(ms)|] == Stream(ms) && ms[..|ms|] == ms;
  }

  lemma {:induction false} StreamAppend(ms: seq<Message>, m: Message)
    requires AllSendable(ms) && Sendable(m)
    ensures AllSendable(ms + [m]) && Stream(ms + [m]) == Stream(ms) + FrameBytes(m)
  {
    if ms != [] {
      assert ms[0] in ms;
      StreamAppend(ms[1..], m);
      assert (ms + [m])[1..] == ms[1..] + [m];
    } else {
      assert (ms + [m])[1..] == [];
    }
  }

  lemma {:induction false} WholeOfPart(ms: seq<Message>, m: Message, k: nat)
    requires AllSendable(ms) && Sendable(m) && k < |FrameBytes(m)|
    ensures Whole(ms + [m], |Stream(ms)| + k) == |ms|
    ensures AtSeam(ms + [m], |Stream(ms)| + k) <==> k == 0 || k == HEADER_SIZE
  {
    hide FrameBytes;
    if ms != [] {
      assert ms[0] in ms;
      assert (ms + [m])[1..] == ms[1..] + [m];
      WholeOfPart(ms[1..], m, k);
    }
  }

  /** A writer that gave up inside a frame leaves a stream that reads as the frames before it. */
  lemma HalfWrittenFrameIsNotRead(ms: seq<Message>, m: Message, k: nat)
    requires AllSendable(ms) && Sendable(m) && k < |FrameBytes(m)|
    ensures ReadAll(Stream(ms) + FrameBytes(m)[..k]) ==
            (AllStamped(ms), if k == 0 || k == HEADER_SIZE then EOF else UnexpectedEOF)
  {
    hide ReadAll, FrameBytes, Stream, AllStamped, Whole, AtSeam;
    StreamAppend(ms, m);
    WholeOfPart(ms, m, k);
    ReadsCutStream(ms + [m], |Stream(ms)| + k);
    assert Stream(ms + [m])[..|Stream(ms)| + k] == Stream(ms) + FrameBytes(m)[..k];
    assert (ms + [m])[..|ms|] == ms;
  }
}
