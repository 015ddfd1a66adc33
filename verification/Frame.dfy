/** The 151-byte header of the push channel, and the frames that follow one another on it. */
module Frame {

  newtype byte = x: int | 0 <= x < 0x100

  const HEADER_SIZE := 151
  const MAX_BODY_LEN := 8 * 1024 * 1024
  const MAGIC: seq<byte> := [0x48, 0x53]

  type int16 = x: int | -0x8000 <= x < 0x8000
  type int32 = x: int | -0x8000_0000 <= x < 0x8000_0000
  type int64 = x: int | -0x8000_0000_0000_0000 <= x < 0x8000_0000_0000_0000
  type Flag = s: seq<byte> | |s| == 2 witness [0, 0]
  type Signature = s: seq<byte> | |s| == 128 witness seq(128, _ => 0)

  datatype Header = Header(
    flag: Flag,
    msgType: int16,
    protoFmtType: byte,
    protoVer: byte,
    serialNo: int32,
    bodyLen: int32,
    bodySHA1: Signature,
    compressAlgorithm: byte,
    reserved: int64
  )

  // ---- fixed-width little-endian fields ----

  function Pow256(n: nat): nat {
    if n == 0 then 1 else 256 * Pow256(n - 1)
  }

  /** The `n` low bytes of `v`, least significant first. */
  function ToLE(v: nat, n: nat): (s: seq<byte>)
    ensures |s| == n
  {
    if n == 0 then [] else [(v % 256) as byte] + ToLE(v / 256, n - 1)
  }

  function FromLE(s: seq<byte>): nat {
    if s == [] then 0 else s[0] as nat + 256 * FromLE(s[1..])
  }

  lemma {:induction false} FromToLE(v: nat, n: nat)
    requires v < Pow256(n)
    ensures FromLE(ToLE(v, n)) == v
  {
    if n > 0 {
      FromToLE(v / 256, n - 1);
      assert ToLE(v, n)[1..] == ToLE(v / 256, n - 1);
    }
  }

  lemma {:induction false} ToFromLE(s: seq<byte>)
    ensures FromLE(s) < Pow256(|s|)
    ensures ToLE(FromLE(s), |s|) == s
  {
    if s != [] {
      ToFromLE(s[1..]);
      assert FromLE(s) / 256 == FromLE(s[1..]) && FromLE(s) % 256 == s[0] as nat;
    }
  }

  lemma DivUnique(v: nat, d: nat, q: nat, rem: nat)
    requires v == d * q + rem && rem < d
    ensures v / d == q
  {
    var k := v / d;
    assert v == d * k + v % d;
    assert d * (q - k) == v % d - rem;
    assert q - k >= 1 ==> d * (q - k) >= d;
    assert k - q >= 1 ==> d * (k - q) >= d;
    assert d * (k - q) == rem - v % d;
  }

  lemma DivDiv(v: nat, p: nat)
    requires p > 0
    ensures v / 256 / p == v / (256 * p)
  {
    var a, r := v / 256, v % 256;
    var q, t := a / p, a % p;
    assert a == p * q + t;
    assert 256 * (p * q + t) == (256 * p) * q + 256 * t;
    DivUnique(v, 256 * p, q, 256 * t + r);
  }

  /** Byte i is the i-th digit of the value in base 256: the least significant byte comes first. */
  lemma {:induction false} BytesAreDigits(v: nat, n: nat, i: nat)
    requires i < n
    ensures Pow256(i) > 0 && ToLE(v, n)[i] as nat == v / Pow256(i) % 256
  {
    if i > 0 {
      BytesAreDigits(v / 256, n - 1, i - 1);
      DivDiv(v, Pow256(i - 1));
      assert ToLE(v, n)[i] == ToLE(v / 256, n - 1)[i - 1];
    }
  }

  /** The two's complement of `v` in `n` bytes. */
  function Unsigned(v: int, n: nat): nat {
    if v >= 0 then v else if v + Pow256(n) >= 0 then v + Pow256(n) else 0
  }

  function Encode(v: int, n: nat): (s: seq<byte>)
    ensures |s| == n
  {
    ToLE(Unsigned(v, n), n)
  }

  function Decode(s: seq<byte>): int {
    var u := FromLE(s);
    if 2 * u >= Pow256(|s|) then u - Pow256(|s|) else u
  }

  lemma DecodeEncode(v: int, n: nat)
    requires 0 - Pow256(n) <= 2 * v < Pow256(n)
    ensures Decode(Encode(v, n)) == v
  {
    FromToLE(Unsigned(v, n), n);
    hide FromLE, ToLE, Pow256;
  }

  lemma EncodeDecode(s: seq<byte>)
    ensures 0 - Pow256(|s|) <= 2 * Decode(s) < Pow256(|s|)
    ensures Encode(Decode(s), |s|) == s
  {
    ToFromLE(s);
    hide FromLE, ToLE, Pow256;
    assert Unsigned(Decode(s), |s|) == FromLE(s);
  }

  lemma Widths()
    ensures Pow256(2) == 0x1_0000 && Pow256(4) == 0x1_0000_0000 && Pow256(8) == 0x1_0000_0000_0000_0000
  {
    assert Pow256(1) == 256;
    assert Pow256(2) == 256 * Pow256(1);
    assert Pow256(3) == 256 * Pow256(2);
    assert Pow256(4) == 256 * Pow256(3);
    assert Pow256(5) == 256 * Pow256(4);
    assert Pow256(6) == 256 * Pow256(5);
    assert Pow256(7) == 256 * Pow256(6);
    assert Pow256(8) == 256 * Pow256(7);
  }

  // ---- the header ----

  /** The header as it goes on the wire. */
  function HeaderBytes(h: Header): (s: seq<byte>)
    ensures |s| == HEADER_SIZE
    ensures s[0..2] == h.flag
  {
    h.flag + Encode(h.msgType, 2) + [h.protoFmtType] + [h.protoVer] + Encode(h.serialNo, 4) + Encode(h.bodyLen, 4)
    + h.bodySHA1 + [h.compressAlgorithm] + Encode(h.reserved, 8)
  }

  datatype Error = EOF | UnexpectedEOF | ShortHeader | BadMagic | InvalidBodyLen | BodyTooLarge
                 | UnsupportedCompression | ShortWrite | WriterFailed

  datatype Result<T> = Ok(value: T) | Err(error: Error)

  function ParseHeader(b: seq<byte>): Result<Header> {
    if |b| < HEADER_SIZE then Err(ShortHeader)
    else if b[0..2] != MAGIC then Err(BadMagic)
    else
      Widths();
      EncodeDecode(b[2..4]); EncodeDecode(b[6..10]); EncodeDecode(b[10..14]); EncodeDecode(b[143..151]);
      Ok(Header(b[0..2], Decode(b[2..4]), b[4], b[5], Decode(b[6..10]), Decode(b[10..14]), b[14..142], b[142],
                Decode(b[143..151])))
  }

  /** Where each field of an encoded header sits. */
  lemma FieldsOf(h: Header)
    ensures var b := HeaderBytes(h);
            && b[2..4] == Encode(h.msgType, 2) && b[4] == h.protoFmtType && b[5] == h.protoVer
            && b[6..10] == Encode(h.serialNo, 4) && b[10..14] == Encode(h.bodyLen, 4) && b[14..142] == h.bodySHA1
            && b[142] == h.compressAlgorithm && b[143..151] == Encode(h.reserved, 8)
  {
  }

  /** Decoding an encoded header gives the header back, exactly when it carries the magic flag;
      bytes after it do not matter. */
  lemma ParseOfEncoded(h: Header, tail: seq<byte>)
    ensures ParseHeader(HeaderBytes(h) + tail) == if h.flag == MAGIC then Ok(h) else Err(BadMagic)
  {
    var b := HeaderBytes(h) + tail;
    Widths();
    FieldsOf(h);
    assert b[0..2] == HeaderBytes(h)[0..2] && b[2..4] == HeaderBytes(h)[2..4] && b[6..10] == HeaderBytes(h)[6..10];
    assert b[10..14] == HeaderBytes(h)[10..14] && b[14..142] == HeaderBytes(h)[14..142];
    assert b[143..151] == HeaderBytes(h)[143..151];
    DecodeEncode(h.msgType, 2);
    DecodeEncode(h.serialNo, 4);
    DecodeEncode(h.bodyLen, 4);
    DecodeEncode(h.reserved, 8);
  }

  /** Encoding a decoded header gives its 151 bytes back. */
  lemma EncodedOfParse(b: seq<byte>)
    requires ParseHeader(b).Ok?
    ensures HeaderBytes(ParseHeader(b).value) == b[..HEADER_SIZE]
  {
    var h := ParseHeader(b).value;
    Widths();
    FieldsOf(h);
    EncodeDecode(b[2..4]);
    EncodeDecode(b[6..10]);
    EncodeDecode(b[10..14]);
    EncodeDecode(b[143..151]);
    var s := HeaderBytes(h);
    assert s == s[0..2] + s[2..4] + [s[4]] + [s[5]] + s[6..10] + s[10..14] + s[14..142] + [s[142]] + s[143..151];
    assert b[..HEADER_SIZE] ==
           b[0..2] + b[2..4] + [b[4]] + [b[5]] + b[6..10] + b[10..14] + b[14..142] + [b[142]] + b[143..151];
  }
}
