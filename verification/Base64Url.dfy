/**
  Unpadded base64url (sections 3.5 and 5 of RFC 4648) and the canonical-form check.

  The decoder is the one of the Go library: it skips line breaks and ignores the spare
  bits of the last digit.  The check of the contract encodes what was decoded and
  compares, so it accepts one text per byte string; nonces and challenges rely on that
  in the transcripts they are signed in.
 */
module Base64Url {
  import opened Common

  type digit = x: int | 0 <= x < 64

  function Char(v: digit): char {
    if v < 26 then ('A' as int + v) as char
    else if v < 52 then ('a' as int + (v - 26)) as char
    else if v < 62 then ('0' as int + (v - 52)) as char
    else if v == 62 then '-' else '_'
  }

  function Digit(c: char): Option<digit> {
    if 'A' <= c <= 'Z' then Some(c as int - 'A' as int)
    else if 'a' <= c <= 'z' then Some(c as int - 'a' as int + 26)
    else if '0' <= c <= '9' then Some(c as int - '0' as int + 52)
    else if c == '-' then Some(62)
    else if c == '_' then Some(63)
    else None
  }

  lemma DigitOfChar(v: digit)
    ensures Digit(Char(v)) == Some(v) && Char(v) != '\r' && Char(v) != '\n' && Char(v) != '\0'
  {
  }

  function Encode(s: seq<byte>): string {
    if |s| == 0 then ""
    else if |s| == 1 then [Char(s[0] / 4), Char(s[0] % 4 * 16)]
    else if |s| == 2 then [Char(s[0] / 4), Char(s[0] % 4 * 16 + s[1] / 16), Char(s[1] % 16 * 4)]
    else [Char(s[0] / 4), Char(s[0] % 4 * 16 + s[1] / 16), Char(s[1] % 16 * 4 + s[2] / 64), Char(s[2] % 64)] + Encode(s[3..])
  }

  /** Section 10 of RFC 4648 without padding, and the two characters of its section 5. */
  lemma TestVectors()
    ensures Encode([]) == "" && Encode([102]) == "Zg" && Encode([102, 111]) == "Zm8" && Encode([102, 111, 111]) == "Zm9v"
    ensures Encode([102, 111, 111, 98, 97, 114]) == "Zm9vYmFy" && Encode([251, 239, 255]) == "--__"
  {
    assert [102, 111, 111, 98, 97, 114][3..] == [98, 97, 114] && [98, 97, 114][3..] == [];
    assert Encode([98, 97, 114]) == "YmFy" + Encode([]);
    assert Encode([102, 111, 111, 98, 97, 114]) == "Zm9v" + Encode([98, 97, 114]);
    assert [102, 111, 111][3..] == [] && [251, 239, 255][3..] == [];
  }

  // The decoder of the Go library: it skips line breaks and ignores spare bits in the last digit.

  function WithoutLineBreaks(s: string): string {
    if s == "" then "" else (if s[0] == '\r' || s[0] == '\n' then "" else [s[0]]) + WithoutLineBreaks(s[1..])
  }

  function First(a: digit, b: digit): byte { a * 4 + b / 16 }
  function Second(b: digit, c: digit): byte { b % 16 * 16 + c / 4 }
  function Third(c: digit, d: digit): byte { c % 4 * 64 + d }

  function DecodeDigits(t: string): Option<seq<byte>> {
    if |t| == 0 then Some([])
    else if |t| == 1 then None
    else
      var a, b := Digit(t[0]), Digit(t[1]);
      if a.None? || b.None? then None
      else if |t| == 2 then Some([First(a.value, b.value)])
      else
        var c := Digit(t[2]);
        if c.None? then None
        else if |t| == 3 then Some([First(a.value, b.value), Second(b.value, c.value)])
        else
          var d, rest := Digit(t[3]), DecodeDigits(t[4..]);
          if d.None? || rest.None? then None
          else Some([First(a.value, b.value), Second(b.value, c.value), Third(c.value, d.value)] + rest.value)
  }

  function Decode(s: string): Option<seq<byte>> { DecodeDigits(WithoutLineBreaks(s)) }

  /** The decoder takes no notice of a line break, wherever it stands. */
  lemma {:induction false} LineBreakIsSkipped(a: string, c: char, b: string)
    requires c == '\r' || c == '\n'
    ensures Decode(a + [c] + b) == Decode(a + b)
  {
    SkippedIn(a, c, b);
  }

  lemma {:induction false} SkippedIn(a: string, c: char, b: string)
    requires c == '\r' || c == '\n'
    ensures WithoutLineBreaks(a + [c] + b) == WithoutLineBreaks(a + b)
  {
    if a == "" {
      assert a + [c] + b == [c] + b && a + b == b && ([c] + b)[1..] == b;
    } else {
      SkippedIn(a[1..], c, b);
      assert (a + [c] + b)[1..] == a[1..] + [c] + b && (a + b)[1..] == a[1..] + b;
    }
  }

  /** validateRawBase64Length */
  predicate ValidRaw(s: string, size: nat) {
    var d := Decode(s);
    d.Some? && |d.value| == size && Encode(d.value) == s
  }

  predicate PlainChar(c: char) { Digit(c).Some? }

  lemma {:induction false} EncodeIsPlain(s: seq<byte>)
    ensures forall i :: 0 <= i < |Encode(s)| ==> PlainChar(Encode(s)[i])
    ensures |Encode(s)| == |s| / 3 * 4 + (if |s| % 3 == 0 then 0 else |s| % 3 + 1)
  {
    if |s| >= 3 {
      EncodeIsPlain(s[3..]);
      var head := [Char(s[0] / 4), Char(s[0] % 4 * 16 + s[1] / 16), Char(s[1] % 16 * 4 + s[2] / 64), Char(s[2] % 64)];
      assert Encode(s) == head + Encode(s[3..]);
      DigitOfChar(s[0] / 4);
      DigitOfChar(s[0] % 4 * 16 + s[1] / 16);
      DigitOfChar(s[1] % 16 * 4 + s[2] / 64);
      DigitOfChar(s[2] % 64);
      assert PlainChar(head[0]) && PlainChar(head[1]) && PlainChar(head[2]) && PlainChar(head[3]);
    }
  }

  lemma {:induction false} NoLineBreaks(s: string)
    requires forall i :: 0 <= i < |s| ==> PlainChar(s[i])
    ensures WithoutLineBreaks(s) == s
  {
    if s != "" {
      assert PlainChar(s[0]);
      NoLineBreaks(s[1..]);
      assert s == [s[0]] + s[1..];
    }
  }

  lemma GroupRoundTrip(x: byte, y: byte, z: byte)
    ensures First(x / 4, x % 4 * 16 + y / 16) == x
    ensures Second(x % 4 * 16 + y / 16, y % 16 * 4 + z / 64) == y
    ensures Third(y % 16 * 4 + z / 64, z % 64) == z
  {
  }

  lemma OneByte(x: byte)
    ensures DecodeDigits(Encode([x])) == Some([x])
  {
    DigitOfChar(x / 4);
    DigitOfChar(x % 4 * 16);
    assert First(x / 4, x % 4 * 16) == x;
  }

  lemma DecodeThree(a: digit, b: digit, c: digit)
    ensures DecodeDigits([Char(a), Char(b), Char(c)]) == Some([First(a, b), Second(b, c)])
  {
    DigitOfChar(a);
    DigitOfChar(b);
    DigitOfChar(c);
  }

  lemma PairRoundTrip(x: byte, y: byte)
    ensures First(x / 4, x % 4 * 16 + y / 16) == x && Second(x % 4 * 16 + y / 16, y % 16 * 4) == y
  {
  }

  lemma TwoBytes(x: byte, y: byte)
    ensures DecodeDigits(Encode([x, y])) == Some([x, y])
  {
    DecodeThree(x / 4, x % 4 * 16 + y / 16, y % 16 * 4);
    PairRoundTrip(x, y);
  }

  lemma DecodeFour(a: digit, b: digit, c: digit, d: digit, rest: string, bytes: seq<byte>)
    requires DecodeDigits(rest) == Some(bytes)
    ensures DecodeDigits([Char(a), Char(b), Char(c), Char(d)] + rest) == Some([First(a, b), Second(b, c), Third(c, d)] + bytes)
  {
    DigitOfChar(a);
    DigitOfChar(b);
    DigitOfChar(c);
    DigitOfChar(d);
    assert ([Char(a), Char(b), Char(c), Char(d)] + rest)[4..] == rest;
  }

  lemma {:induction false} DecodeDigitsOfEncode(s: seq<byte>)
    ensures DecodeDigits(Encode(s)) == Some(s)
  {
    if |s| == 1 {
      OneByte(s[0]);
      assert s == [s[0]];
    } else if |s| == 2 {
      TwoBytes(s[0], s[1]);
      assert s == [s[0], s[1]];
    } else if |s| >= 3 {
      DecodeDigitsOfEncode(s[3..]);
      DecodeFour(s[0] / 4, s[0] % 4 * 16 + s[1] / 16, s[1] % 16 * 4 + s[2] / 64, s[2] % 64, Encode(s[3..]), s[3..]);
      GroupRoundTrip(s[0], s[1], s[2]);
      assert s == [s[0], s[1], s[2]] + s[3..];
    }
  }

  lemma DecodeOfEncode(s: seq<byte>)
    ensures Decode(Encode(s)) == Some(s)
  {
    EncodeIsPlain(s);
    NoLineBreaks(Encode(s));
    DecodeDigitsOfEncode(s);
  }

  /** The check accepts exactly the encodings of byte strings of the given size. */
  lemma ValidRawIff(s: string, size: nat)
    ensures ValidRaw(s, size) <==> exists d: seq<byte> :: |d| == size && s == Encode(d)
  {
    if d: seq<byte> :| |d| == size && s == Encode(d) {
      DecodeOfEncode(d);
    }
    if ValidRaw(s, size) {
      assert s == Encode(Decode(s).value);
    }
  }

  /** So two accepted texts are equal exactly when they stand for the same bytes. */
  lemma ValidRawIsInjective(s: string, t: string, size: nat)
    requires ValidRaw(s, size) && ValidRaw(t, size)
    ensures s == t <==> Decode(s) == Decode(t)
  {
  }

  lemma DecodeTwo(a: digit, b: digit)
    ensures Decode([Char(a), Char(b)]) == Some([First(a, b)])
  {
    DigitOfChar(a);
    DigitOfChar(b);
    NoLineBreaks([Char(a), Char(b)]);
  }

  /** The decoder alone would not do: it ignores the spare bits of the last digit, and the check insists that they are zero. */
  lemma SpareBits(a: digit, b: digit)
    ensures Decode([Char(a), Char(b)]) == Decode([Char(a), Char(b / 16 * 16)])
    ensures ValidRaw([Char(a), Char(b)], 1) <==> b % 16 == 0
  {
    DecodeTwo(a, b);
    DecodeTwo(a, b / 16 * 16);
    var x := First(a, b);
    assert x / 4 == a && x % 4 * 16 == b / 16 * 16;
    assert Encode([x]) == [Char(a), Char(b / 16 * 16)];
    DigitOfChar(b);
    DigitOfChar(b / 16 * 16);
    if Char(b) == Char(b / 16 * 16) {
      assert b == b / 16 * 16;
    }
  }

  lemma ValidRawIsPlain(s: string, size: nat)
    requires ValidRaw(s, size)
    ensures forall i :: 0 <= i < |s| ==> PlainChar(s[i])
  {
    EncodeIsPlain(Decode(s).value);
  }
}
