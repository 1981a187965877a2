/** The tunnel frame: a 24-byte big-endian header and a payload. */
module FrameCodec {
  import opened Common

  const HeaderSize := 24
  const ProtocolVersion: byte := 1
  const MaxControlPayload := 64 * 1024
  const MaxDataPayload := 1024 * 1024
  const MaxSequence := Pow256(8) - 1

  const Magic: seq<byte> := [0x48, 0x58, 0x54, 0x31]  // "HXT1"
  const KindControl: byte := 1
  const KindData: byte := 2

  datatype Frame = Frame(kind: byte, streamID: nat, sequence: nat, payload: seq<byte>) {
    /** The widths of the fields: 32 and 64 bits. */
    predicate Sized() { streamID < Pow256(4) && sequence < Pow256(8) }
  }

  datatype Error = ShortHeader | BadMagic | BadVersion | BadKind | BadFlags | LengthMismatch | PayloadTooLong | ZeroSequence | ZeroStream

  datatype Result<T> = Ok(value: T) | Err(error: Error)

  // ---------------------------------------------------------- big-endian bytes

  function Pow256(n: nat): (p: nat)
    ensures p >= 1
  {
    if n == 0 then 1 else 256 * Pow256(n - 1)
  }

  /** The low `width` bytes of `v`, most significant first. */
  function BigEndian(v: nat, width: nat): (s: seq<byte>)
    ensures |s| == width
    decreases width
  {
    if width == 0 then [] else BigEndian(v / 256, width - 1) + [(v % 256) as byte]
  }

  function Value(s: seq<byte>): (v: nat)
    ensures v < Pow256(|s|)
  {
    if s == [] then 0 else Value(s[..|s| - 1]) * 256 + s[|s| - 1] as nat
  }

  lemma {:induction false} ValueOfBigEndian(v: nat, width: nat)
    requires v < Pow256(width)
    ensures Value(BigEndian(v, width)) == v
    decreases width
  {
    if width > 0 {
      var s := BigEndian(v, width);
      ValueOfBigEndian(v / 256, width - 1);
      assert s[..width - 1] == BigEndian(v / 256, width - 1);
    }
  }

  lemma {:induction false} BigEndianOfValue(s: seq<byte>)
    ensures BigEndian(Value(s), |s|) == s
  {
    if s != [] {
      var init := s[..|s| - 1];
      BigEndianOfValue(init);
      assert Value(s) / 256 == Value(init) && Value(s) % 256 == s[|s| - 1] as nat;
      assert s == init + [s[|s| - 1]];
    }
  }

  /** Network byte order: the first byte is the most significant. */
  lemma {:induction false} FirstIsMostSignificant(b: byte, s: seq<byte>)
    ensures Value([b] + s) == b as nat * Pow256(|s|) + Value(s)
  {
    if s == [] {
      assert Value([b]) == Value([b][..0]) * 256 + b as nat;
    } else {
      var init, last := s[..|s| - 1], s[|s| - 1];
      FirstIsMostSignificant(b, init);
      assert ([b] + s)[..|s|] == [b] + init;
      assert Value([b] + s) == Value([b] + init) * 256 + last as nat;
      Shifted(b as nat, Pow256(|init|), Value(init), last as nat);
    }
  }

  lemma Shifted(b: nat, p: nat, v: nat, l: nat)
    ensures (b * p + v) * 256 + l == b * (256 * p) + (v * 256 + l)
  {
  }

  // ------------------------------------------------------------------- frames

  function MaxPayload(kind: byte): nat { if kind == KindControl then MaxControlPayload else MaxDataPayload }

  function FieldError(f: Frame): Option<Error> {
    if f.kind != KindControl && f.kind != KindData then Some(BadKind)
    else if f.sequence == 0 then Some(ZeroSequence)
    else if |f.payload| > MaxPayload(f.kind) then Some(PayloadTooLong)
    else if f.kind == KindData && f.streamID == 0 then Some(ZeroStream)
    else None
  }

  predicate Valid(f: Frame) { f.Sized() && FieldError(f).None? }

  /** The contract's bounds: which frames there are. */
  lemma ValidIff(f: Frame)
    ensures Valid(f) <==>
      && f.streamID <= 0xFFFF_FFFF && 1 <= f.sequence <= 0xFFFF_FFFF_FFFF_FFFF
      && ((f.kind == 1 && |f.payload| <= 65536) || (f.kind == 2 && |f.payload| <= 1048576 && f.streamID >= 1))
  {
    PowersOf256();
  }

  /** The wire image of a frame. */
  function Image(f: Frame): seq<byte> {
    Magic + [ProtocolVersion, f.kind] + BigEndian(0, 2) + BigEndian(f.streamID, 4) + BigEndian(|f.payload|, 4) + BigEndian(f.sequence, 8) + f.payload
  }

  function Decode(s: seq<byte>): Result<Frame> {
    if |s| < HeaderSize then Err(ShortHeader)
    else if s[0..4] != Magic then Err(BadMagic)
    else if s[4] != ProtocolVersion then Err(BadVersion)
    else if s[5] != KindControl && s[5] != KindData then Err(BadKind)
    else if Value(s[6..8]) != 0 then Err(BadFlags)
    else if Value(s[12..16]) != |s| - HeaderSize then Err(LengthMismatch)
    else if Value(s[12..16]) > MaxPayload(s[5]) then Err(PayloadTooLong)
    else
      var f := Frame(s[5], Value(s[8..12]), Value(s[16..24]), s[HeaderSize..]);
      var e := FieldError(f);
      if e.Some? then Err(e.value) else Ok(f)
  }

  lemma PowersOf256()
    ensures Pow256(2) == 0x1_0000 && Pow256(4) == 0x1_0000_0000 && Pow256(8) == 0x1_0000_0000_0000_0000
  {
    assert Pow256(2) == 256 * Pow256(1) && Pow256(1) == 256 * Pow256(0);
    assert Pow256(4) == 256 * Pow256(3) && Pow256(3) == 256 * Pow256(2);
    assert Pow256(8) == 256 * Pow256(7) && Pow256(7) == 256 * Pow256(6);
    assert Pow256(6) == 256 * Pow256(5) && Pow256(5) == 256 * Pow256(4);
  }

  /** Where the fields sit in the image. */
  lemma ImageLayout(f: Frame)
    ensures var s := Image(f);
      && |s| == HeaderSize + |f.payload| && s[0..4] == Magic && s[4] == ProtocolVersion && s[5] == f.kind
      && s[6..8] == BigEndian(0, 2) && s[8..12] == BigEndian(f.streamID, 4) && s[12..16] == BigEndian(|f.payload|, 4)
      && s[16..24] == BigEndian(f.sequence, 8) && s[HeaderSize..] == f.payload
  {
    Layout(Magic, [ProtocolVersion, f.kind], BigEndian(0, 2), BigEndian(f.streamID, 4), BigEndian(|f.payload|, 4), BigEndian(f.sequence, 8), f.payload);
  }

  lemma Layout(magic: seq<byte>, tags: seq<byte>, flags: seq<byte>, stream: seq<byte>, length: seq<byte>, sequence: seq<byte>, payload: seq<byte>)
    requires |magic| == 4 && |tags| == 2 && |flags| == 2 && |stream| == 4 && |length| == 4 && |sequence| == 8
    ensures var s := magic + tags + flags + stream + length + sequence + payload;
      && |s| == HeaderSize + |payload| && s[0..4] == magic && s[4..6] == tags && s[4] == tags[0] && s[5] == tags[1]
      && s[6..8] == flags && s[8..12] == stream && s[12..16] == length && s[16..24] == sequence && s[HeaderSize..] == payload
  {
  }

  /** The header is judged field by field: the first violation decides the error. */
  lemma FirstViolation(s: seq<byte>)
    ensures Decode(s) == Err(ShortHeader) <==> |s| < 24
    ensures |s| >= 24 ==> (Decode(s) == Err(BadMagic) <==> s[0..4] != [0x48, 0x58, 0x54, 0x31])
    ensures |s| >= 24 && s[0..4] == Magic ==> (Decode(s) == Err(BadVersion) <==> s[4] != 1)
    ensures |s| >= 24 && s[0..4] == Magic && s[4] == 1 ==> (Decode(s) == Err(BadKind) <==> s[5] != 1 && s[5] != 2)
    ensures |s| >= 24 && s[0..4] == Magic && s[4] == 1 && (s[5] == 1 || s[5] == 2) ==> (Decode(s) == Err(BadFlags) <==> Value(s[6..8]) != 0)
    ensures Decode(s) == Err(LengthMismatch) ==> Value(s[12..16]) != |s| - 24
    ensures Decode(s) == Err(PayloadTooLong) ==> |s| - 24 > (if s[5] == 1 then 65536 else 1048576)
    ensures Decode(s) == Err(ZeroSequence) ==> |s| - 24 <= (if s[5] == 1 then 65536 else 1048576)
  {
  }

  lemma DecodeImage(f: Frame)
    requires Valid(f)
    ensures Decode(Image(f)) == Ok(f)
  {
    ImageLayout(f);
    PowersOf256();
    ValueOfBigEndian(0, 2);
    ValueOfBigEndian(f.streamID, 4);
    ValueOfBigEndian(|f.payload|, 4);
    ValueOfBigEndian(f.sequence, 8);
  }

  // ---------------------------------------------- the contract's golden vectors

  lemma FourBytes(a: byte, b: byte, c: byte, d: byte)
    ensures Value([a, b, c, d]) == ((a as nat * 256 + b as nat) * 256 + c as nat) * 256 + d as nat
  {
    assert [a, b, c, d][..3] == [a, b, c] && [a, b, c][..2] == [a, b] && [a, b][..1] == [a] && [a][..0] == [];
    assert Value([a]) == a as nat && Value([a, b]) == a as nat * 256 + b as nat;
    assert Value([a, b, c]) == Value([a, b]) * 256 + c as nat;
  }

  lemma ZerosInFront(s: seq<byte>)
    ensures Value([0, 0, 0, 0] + s) == Value(s)
  {
    FirstIsMostSignificant(0, s);
    FirstIsMostSignificant(0, [0] + s);
    FirstIsMostSignificant(0, [0] + ([0] + s));
    FirstIsMostSignificant(0, [0] + ([0] + ([0] + s)));
    assert [0, 0, 0, 0] + s == [0] + ([0] + ([0] + ([0] + s)));
  }

  /** "hello" as data of stream 7 with number 1. */
  lemma GoldenHello()
    ensures Image(Frame(2, 7, 1, [0x68, 0x65, 0x6c, 0x6c, 0x6f])) ==
      [0x48, 0x58, 0x54, 0x31, 1, 2, 0, 0, 0, 0, 0, 7, 0, 0, 0, 5, 0, 0, 0, 0, 0, 0, 0, 1] + [0x68, 0x65, 0x6c, 0x6c, 0x6f]
  {
    GoldenHeader(2, 7, 0, 5, 1, [0x68, 0x65, 0x6c, 0x6c, 0x6f]);
  }

  /** The two largest payloads. */
  lemma GoldenLargest(data: seq<byte>, control: seq<byte>)
    requires |data| == 1048576 && |control| == 65536
    ensures Valid(Frame(2, 3, 4, data)) && Image(Frame(2, 3, 4, data)) ==
      [0x48, 0x58, 0x54, 0x31, 1, 2, 0, 0, 0, 0, 0, 3, 0, 0x10, 0, 0, 0, 0, 0, 0, 0, 0, 0, 4] + data
    ensures Valid(Frame(1, 0, 5, control)) && Image(Frame(1, 0, 5, control)) ==
      [0x48, 0x58, 0x54, 0x31, 1, 1, 0, 0, 0, 0, 0, 0, 0, 1, 0, 0, 0, 0, 0, 0, 0, 0, 0, 5] + control
  {
    ValidIff(Frame(2, 3, 4, data));
    ValidIff(Frame(1, 0, 5, control));
    GoldenHeader(2, 3, 0x10, 0, 4, data);
    GoldenHeader(1, 0, 1, 0, 5, control);
  }

  lemma GoldenHeader(kind: byte, stream: nat, hi: nat, lo: nat, sequence: nat, payload: seq<byte>)
    requires stream < 256 && hi < 256 && lo < 256 && sequence < 256 && |payload| == hi * 0x1_0000 + lo
    ensures Image(Frame(kind, stream, sequence, payload)) ==
      [0x48, 0x58, 0x54, 0x31, 1, kind, 0, 0, 0, 0, 0, stream as byte, 0, hi as byte, 0, lo as byte, 0, 0, 0, 0, 0, 0, 0, sequence as byte] + payload
  {
    TwoZeros();
    Small(0, stream as byte);
    Small(hi as byte, lo as byte);
    SmallNumber(sequence as byte);
    GoldenBytes(kind, stream as byte, hi as byte, lo as byte, sequence as byte, payload);
  }

  lemma TwoZeros()
    ensures BigEndian(0, 2) == [0, 0]
  {
    BigEndianOfValue([0, 0]);
    assert [0, 0][..1] == [0] && [0][..0] == [];
    assert Value([0]) == 0 && Value([0, 0]) == 0;
  }

  lemma Small(hi: byte, lo: byte)
    ensures BigEndian(hi as nat * 0x1_0000 + lo as nat, 4) == [0, hi, 0, lo]
  {
    FourBytes(0, hi, 0, lo);
    BigEndianOfValue([0, hi, 0, lo]);
  }

  lemma SmallNumber(v: byte)
    ensures BigEndian(v as nat, 8) == [0, 0, 0, 0] + [0, 0, 0, v]
  {
    FourBytes(0, 0, 0, v);
    ZerosInFront([0, 0, 0, v]);
    BigEndianOfValue([0, 0, 0, 0] + [0, 0, 0, v]);
  }

  lemma GoldenBytes(kind: byte, stream: byte, hi: byte, lo: byte, sequence: byte, payload: seq<byte>)
    ensures Magic + [ProtocolVersion, kind] + [0, 0] + [0, 0, 0, stream] + [0, hi, 0, lo] + ([0, 0, 0, 0] + [0, 0, 0, sequence]) + payload
      == [0x48, 0x58, 0x54, 0x31, 1, kind, 0, 0, 0, 0, 0, stream, 0, hi, 0, lo, 0, 0, 0, 0, 0, 0, 0, sequence] + payload
  {
  }

  lemma SplitHeader(s: seq<byte>)
    requires |s| >= HeaderSize
    ensures s == s[0..4] + [s[4], s[5]] + s[6..8] + s[8..12] + s[12..16] + s[16..24] + s[HeaderSize..]
  {
  }

  /** Whatever is accepted is the image of the valid frame it decodes to: no two byte strings decode alike. */
  lemma ImageOfDecoded(s: seq<byte>)
    requires Decode(s).Ok?
    ensures Valid(Decode(s).value) && Image(Decode(s).value) == s
  {
    var f := Decode(s).value;
    PowersOf256();
    BigEndianOfValue(s[6..8]);
    BigEndianOfValue(s[8..12]);
    BigEndianOfValue(s[12..16]);
    BigEndianOfValue(s[16..24]);
    SplitHeader(s);
    assert |s[8..12]| == 4 && |s[16..24]| == 8;
  }

  // ------------------------------------------------------------- the encoder

  /** Writes `v` into `width` bytes from `at`, and nothing else. */
  method PutUint(a: array<byte>, at: nat, v: nat, width: nat)
    requires at + width <= a.Length
    modifies a
    ensures a[..] == old(a[..at]) + BigEndian(v, width) + old(a[at + width..])
  {
    var i, rest := width, v;
    while i > 0
      invariant 0 <= i <= width && rest >= 0
      invariant a[..at + i] == old(a[..at + i]) && a[at + width..] == old(a[at + width..])
      invariant BigEndian(v, width) == BigEndian(rest, i) + a[at + i..at + width]
    {
      i := i - 1;
      a[at + i] := (rest % 256) as byte;
      assert BigEndian(rest, i + 1) == BigEndian(rest / 256, i) + [a[at + i]];
      assert a[at + i..at + width] == [a[at + i]] + a[at + i + 1..at + width];
      rest := rest / 256;
    }
    assert a[..] == a[..at] + a[at..at + width] + a[at + width..];
  }

  /** Writes the bytes of `s` from `at`. */
  method Copy(a: array<byte>, at: nat, s: seq<byte>)
    requires at + |s| <= a.Length
    modifies a
    ensures a[..] == old(a[..at]) + s + old(a[at + |s|..])
  {
    for i := 0 to |s|
      invariant a[..at] == old(a[..at]) && a[at..at + i] == s[..i] && a[at + i..] == old(a[at + i..])
    {
      a[at + i] := s[i];
      assert a[at..at + i + 1] == a[at..at + i] + [s[i]];
    }
    assert a[..] == a[..at] + a[at..at + |s|] + a[at + |s|..];
  }

  method EncodeFrame(f: Frame) returns (r: Result<array<byte>>)
    requires f.Sized()
    ensures r.Ok? <==> Valid(f)
    ensures r.Ok? ==> fresh(r.value) && r.value[..] == Image(f)
    ensures r.Err? ==> FieldError(f) == Some(r.error)
  {
    var e := FieldError(f);
    if e.Some? {
      return Err(e.value);
    }
    var a := new byte[HeaderSize + |f.payload|];
    Copy(a, 0, Magic);
    assert a[..4] == Magic;
    Copy(a, 4, [ProtocolVersion, f.kind]);
    assert a[..6] == Magic + [ProtocolVersion, f.kind];
    PutUint(a, 6, 0, 2);
    assert a[..8] == Magic + [ProtocolVersion, f.kind] + BigEndian(0, 2);
    PutUint(a, 8, f.streamID, 4);
    assert a[..12] == Magic + [ProtocolVersion, f.kind] + BigEndian(0, 2) + BigEndian(f.streamID, 4);
    PutUint(a, 12, |f.payload|, 4);
    assert a[..16] == Magic + [ProtocolVersion, f.kind] + BigEndian(0, 2) + BigEndian(f.streamID, 4) + BigEndian(|f.payload|, 4);
    PutUint(a, 16, f.sequence, 8);
    Copy(a, HeaderSize, f.payload);
    r := Ok(a);
  }

  // ---------------------------------------------------------------- sequences

  function NextSequence(last: nat): Option<nat> { if last == MaxSequence then None else Some(last + 1) }

  class SequenceTracker {
    var last: nat

    constructor ()
      ensures last == 0
    {
      last := 0;
    }

    /** Only the next number is accepted, and the last one ends the session. */
    method Accept(sequence: nat) returns (ok: bool)
      modifies this
      ensures ok <==> old(last) != MaxSequence && sequence == old(last) + 1
      ensures last == if ok then sequence else old(last)
    {
      var expected := NextSequence(last);
      if expected.None? {
        return false;
      }
      if sequence != expected.value {
        return false;
      }
      last := sequence;
      ok := true;
    }
  }
}
