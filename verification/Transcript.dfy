/**
  The signed byte sequences of authentication and resume: NUL-joined, validated components.

  Identifiers, nonces and timestamps are checked before they are joined.  None of the
  checks lets a NUL through, so the joined text determines its components, and the two
  kinds of transcript start differently.  The results are stated for any such checks
  and then for the contract's own.
 */
module Transcript {
  import opened Common
  import opened Base64Url

  const Nul: char := '\0'

  // -------------------------------------------------------- component patterns

  predicate Between(c: char, lo: char, hi: char) { lo <= c <= hi }

  predicate AlphaNumeric(c: char) { Between(c, 'A', 'Z') || Between(c, 'a', 'z') || Between(c, '0', '9') }

  predicate IdChar(c: char) { AlphaNumeric(c) || c == '.' || c == '_' || c == ':' || c == '-' }

  /** One alphanumeric, then up to 63 identifier characters. */
  predicate ValidId(s: string) {
    1 <= |s| <= 64 && AlphaNumeric(s[0]) && forall i :: 0 <= i < |s| ==> IdChar(s[i])
  }

  predicate IsDigit(c: char) { Between(c, '0', '9') }

  function Number(s: string, from: nat, to: nat): nat
    requires from <= to <= |s| && forall i :: from <= i < to ==> IsDigit(s[i])
  {
    if from == to then 0 else assert IsDigit(s[to - 1]); Number(s, from, to - 1) * 10 + (s[to - 1] as int - '0' as int)
  }

  predicate Digits(s: string, from: nat, to: nat) { from <= to <= |s| && forall i :: from <= i < to ==> IsDigit(s[i]) }

  predicate Leap(year: nat) { year % 4 == 0 && (year % 100 != 0 || year % 400 == 0) }

  function DaysIn(year: nat, month: nat): nat {
    if month == 2 then (if Leap(year) then 29 else 28) else if month == 4 || month == 6 || month == 9 || month == 11 then 30 else 31
  }

  /** yyyy-mm-ddThh:mm:ss, an optional fraction of one to nine digits, and Z; the date exists. */
  predicate ValidTime(s: string) {
    TimeShape(s) && TimeEnds(s)
    && InRange(Number(s, 0, 4), Number(s, 5, 7), Number(s, 8, 10), Number(s, 11, 13), Number(s, 14, 16), Number(s, 17, 19))
  }

  predicate TimeShape(s: string) {
    && |s| >= 20 && Digits(s, 0, 4) && s[4] == '-' && Digits(s, 5, 7) && s[7] == '-' && Digits(s, 8, 10) && s[10] == 'T'
    && Digits(s, 11, 13) && s[13] == ':' && Digits(s, 14, 16) && s[16] == ':' && Digits(s, 17, 19)
  }

  predicate TimeEnds(s: string)
    requires |s| >= 20
  {
    s[|s| - 1] == 'Z' && (|s| == 20 || (22 <= |s| <= 30 && s[19] == '.' && Digits(s, 20, |s| - 1)))
  }

  predicate InRange(year: nat, month: nat, day: nat, hour: nat, minute: nat, second: nat) {
    1 <= month <= 12 && 1 <= day <= DaysIn(year, month) && hour <= 23 && minute <= 59 && second <= 59
  }

  // ----------------------------------------- what the patterns accept, built up instead of checked

  /** One more character: an identifier starts with a letter or digit and has at most 64 characters. */
  lemma IdGrows(s: string, c: char)
    ensures ValidId([c]) <==> 'A' <= c <= 'Z' || 'a' <= c <= 'z' || '0' <= c <= '9'
    ensures s != "" ==> (ValidId(s + [c]) <==> ValidId(s) && |s| < 64 && (ValidId([c]) || c == '.' || c == '_' || c == ':' || c == '-'))
    ensures !ValidId("")
  {
    if s != "" {
      var t := s + [c];
      assert forall i :: 0 <= i < |s| ==> t[i] == s[i];
      assert t[|s|] == c;
    }
  }

  /** A date and time of day in UTC, and the digits of the fraction of a second. */
  datatype Instant = Instant(year: nat, month: nat, day: nat, hour: nat, minute: nat, second: nat, fraction: string)

  function MonthLengths(year: nat): seq<nat> {
    [31, if year % 400 == 0 || (year % 4 == 0 && year % 100 != 0) then 29 else 28, 31, 30, 31, 30, 31, 31, 30, 31, 30, 31]
  }

  predicate Exists(t: Instant) {
    && t.year <= 9999 && 1 <= t.month <= 12 && 1 <= t.day <= MonthLengths(t.year)[t.month - 1]
    && t.hour <= 23 && t.minute <= 59 && t.second <= 59
    && |t.fraction| <= 9 && forall i :: 0 <= i < |t.fraction| ==> IsDigit(t.fraction[i])
  }

  function DigitChar(d: nat): char
    requires d < 10
  {
    ('0' as int + d) as char
  }

  /** The last `width` decimal digits of `n`. */
  function Padded(n: nat, width: nat): (s: string)
    ensures |s| == width
    decreases width
  {
    if width == 0 then "" else Padded(n / 10, width - 1) + [DigitChar(n % 10)]
  }

  function Printed(t: Instant): string {
    Padded(t.year, 4) + "-" + Padded(t.month, 2) + "-" + Padded(t.day, 2) + "T" + Padded(t.hour, 2) + ":" + Padded(t.minute, 2) + ":"
    + Padded(t.second, 2) + (if t.fraction == "" then "" else "." + t.fraction) + "Z"
  }

  lemma {:induction false} PaddedNumber(s: string, from: nat, to: nat)
    requires Digits(s, from, to)
    ensures Padded(Number(s, from, to), to - from) == s[from..to]
  {
    if from < to {
      PaddedNumber(s, from, to - 1);
      assert IsDigit(s[to - 1]);
      assert s[from..to] == s[from..to - 1] + [s[to - 1]];
    }
  }

  function Power10(width: nat): nat { if width == 0 then 1 else 10 * Power10(width - 1) }

  // Wherever the digits of `n` stand, they read as `n`.
  lemma {:induction false} NumberPadded(s: string, from: nat, to: nat, n: nat)
    requires from <= to <= |s| && s[from..to] == Padded(n, to - from) && n < Power10(to - from)
    ensures Digits(s, from, to) && Number(s, from, to) == n
  {
    if from < to {
      var p := s[from..to];
      assert p[..to - 1 - from] == s[from..to - 1] && p[to - 1 - from] == s[to - 1];
      assert p == Padded(n / 10, to - 1 - from) + [DigitChar(n % 10)];
      NumberPadded(s, from, to - 1, n / 10);
    }
  }

  // Where the parts of a timestamp stand.
  lemma TimeLayout(y: string, mo: string, d: string, h: string, mi: string, sec: string, rest: string)
    requires |y| == 4 && |mo| == |d| == |h| == |mi| == |sec| == 2
    ensures var s := y + "-" + mo + "-" + d + "T" + h + ":" + mi + ":" + sec + rest;
      && |s| == 19 + |rest| && s[0..4] == y && s[4] == '-' && s[5..7] == mo && s[7] == '-' && s[8..10] == d && s[10] == 'T'
      && s[11..13] == h && s[13] == ':' && s[14..16] == mi && s[16] == ':' && s[17..19] == sec && s[19..] == rest
  {
  }

  lemma TimeSplit(s: string)
    requires |s| >= 20 && s[4] == '-' && s[7] == '-' && s[10] == 'T' && s[13] == ':' && s[16] == ':'
    ensures s == s[0..4] + "-" + s[5..7] + "-" + s[8..10] + "T" + s[11..13] + ":" + s[14..16] + ":" + s[17..19] + s[19..]
  {
  }

  /** The end of a timestamp: Z, or a point, digits and Z. */
  function Ending(fraction: string): string { (if fraction == "" then "" else "." + fraction) + "Z" }

  lemma PrintedIsLaidOut(t: Instant)
    ensures Printed(t) == Padded(t.year, 4) + "-" + Padded(t.month, 2) + "-" + Padded(t.day, 2) + "T" + Padded(t.hour, 2) + ":"
      + Padded(t.minute, 2) + ":" + Padded(t.second, 2) + Ending(t.fraction)
  {
    var front := Padded(t.year, 4) + "-" + Padded(t.month, 2) + "-" + Padded(t.day, 2) + "T" + Padded(t.hour, 2) + ":" + Padded(t.minute, 2) + ":"
      + Padded(t.second, 2);
    var point := if t.fraction == "" then "" else "." + t.fraction;
    assert front + point + "Z" == front + (point + "Z");
  }

  lemma SamePlaces()
    ensures Power10(2) == 100 && Power10(4) == 10000
  {
    assert Power10(4) == 10 * Power10(3) && Power10(3) == 10 * Power10(2) && Power10(2) == 10 * Power10(1) && Power10(1) == 10 * Power10(0);
  }

  lemma SameCalendar(year: nat, month: nat)
    requires 1 <= month <= 12
    ensures DaysIn(year, month) == MonthLengths(year)[month - 1]
  {
    if month == 2 { assert Leap(year) <==> year % 400 == 0 || (year % 4 == 0 && year % 100 != 0); }
  }

  lemma InRangeIff(t: Instant)
    requires t.year <= 9999 && |t.fraction| <= 9 && forall i :: 0 <= i < |t.fraction| ==> IsDigit(t.fraction[i])
    ensures Exists(t) <==> InRange(t.year, t.month, t.day, t.hour, t.minute, t.second)
  {
    if 1 <= t.month <= 12 { SameCalendar(t.year, t.month); }
  }

  // The digits of an instant stand where they should.
  lemma PrintedNumbers(s: string, t: Instant)
    requires s == Printed(t) && t.year <= 9999 && t.month <= 99 && t.day <= 99 && t.hour <= 99 && t.minute <= 99 && t.second <= 99
    ensures TimeShape(s) && s[19..] == Ending(t.fraction)
    ensures Number(s, 0, 4) == t.year && Number(s, 5, 7) == t.month && Number(s, 8, 10) == t.day
    ensures Number(s, 11, 13) == t.hour && Number(s, 14, 16) == t.minute && Number(s, 17, 19) == t.second
  {
    PrintedIsLaidOut(t);
    TimeLayout(Padded(t.year, 4), Padded(t.month, 2), Padded(t.day, 2), Padded(t.hour, 2), Padded(t.minute, 2), Padded(t.second, 2), Ending(t.fraction));
    SamePlaces();
    NumberPadded(s, 0, 4, t.year);
    NumberPadded(s, 5, 7, t.month);
    NumberPadded(s, 8, 10, t.day);
    NumberPadded(s, 11, 13, t.hour);
    NumberPadded(s, 14, 16, t.minute);
    NumberPadded(s, 17, 19, t.second);
  }

  // Every instant is printed as a valid timestamp.
  lemma PrintedIsValid(t: Instant)
    requires Exists(t)
    ensures ValidTime(Printed(t))
  {
    PrintedNumbers(Printed(t), t);
    InRangeIff(t);
    EndingIsValid(Printed(t), t.fraction);
  }

  lemma EndingIsValid(s: string, fraction: string)
    requires |s| >= 20 && s[19..] == Ending(fraction) && |fraction| <= 9 && forall i :: 0 <= i < |fraction| ==> IsDigit(fraction[i])
    ensures TimeEnds(s)
  {
    var e := Ending(fraction);
    assert forall i :: 0 <= i < |e| ==> s[19 + i] == e[i];
    if fraction != "" {
      forall i | 20 <= i < |s| - 1 ensures IsDigit(s[i]) {
        assert s[i] == e[i - 19] == fraction[i - 20];
      }
    }
  }

  /** A timestamp is valid iff it is the printed form of an instant that exists. */
  lemma ValidTimeIff(s: string)
    ensures ValidTime(s) <==> exists t: Instant :: Exists(t) && Printed(t) == s
  {
    if ValidTime(s) {
      var t := Instant(Number(s, 0, 4), Number(s, 5, 7), Number(s, 8, 10), Number(s, 11, 13), Number(s, 14, 16), Number(s, 17, 19),
                       if |s| == 20 then "" else s[20..|s| - 1]);
      ParsedExists(s, t);
      assert Exists(t) && Printed(t) == s;
    }
    forall t: Instant | Exists(t) && Printed(t) == s ensures ValidTime(s) {
      PrintedIsValid(t);
    }
  }

  lemma {:induction false} NumberBound(s: string, from: nat, to: nat)
    requires Digits(s, from, to)
    ensures Number(s, from, to) < Power10(to - from)
  {
    if from < to {
      NumberBound(s, from, to - 1);
      assert IsDigit(s[to - 1]);
    }
  }

  lemma ParsedExists(s: string, t: Instant)
    requires ValidTime(s)
    requires t == Instant(Number(s, 0, 4), Number(s, 5, 7), Number(s, 8, 10), Number(s, 11, 13), Number(s, 14, 16), Number(s, 17, 19),
                          if |s| == 20 then "" else s[20..|s| - 1])
    ensures Exists(t) && Printed(t) == s
  {
    SamePlaces();
    NumberBound(s, 0, 4);
    FractionParses(s, t.fraction);
    InRangeIff(t);
    ParsedPrints(s, t);
  }

  lemma ParsedPrints(s: string, t: Instant)
    requires TimeShape(s) && s[19..] == Ending(t.fraction)
    requires t.year == Number(s, 0, 4) && t.month == Number(s, 5, 7) && t.day == Number(s, 8, 10)
    requires t.hour == Number(s, 11, 13) && t.minute == Number(s, 14, 16) && t.second == Number(s, 17, 19)
    ensures Printed(t) == s
  {
    PaddedNumber(s, 0, 4);
    PaddedNumber(s, 5, 7);
    PaddedNumber(s, 8, 10);
    PaddedNumber(s, 11, 13);
    PaddedNumber(s, 14, 16);
    PaddedNumber(s, 17, 19);
    TimeSplit(s);
    PrintedIsLaidOut(t);
  }

  lemma FractionParses(s: string, fraction: string)
    requires |s| >= 20 && TimeEnds(s)
    requires fraction == if |s| == 20 then "" else s[20..|s| - 1]
    ensures |fraction| <= 9 && (forall i :: 0 <= i < |fraction| ==> IsDigit(fraction[i])) && s[19..] == Ending(fraction)
  {
    if |s| > 20 {
      assert forall i :: 0 <= i < |fraction| ==> fraction[i] == s[20 + i];
      assert s[19..] == "." + s[20..|s| - 1] + "Z";
    } else {
      assert s[19..] == "Z";
    }
  }

  predicate NulFree(s: string) { forall i :: 0 <= i < |s| ==> s[i] != Nul }

  lemma IdIsNulFree(s: string)
    requires ValidId(s)
    ensures NulFree(s)
  {
    forall i | 0 <= i < |s| ensures s[i] != Nul {
      assert IdChar(s[i]);
    }
  }

  lemma TimeIsNulFree(s: string)
    requires ValidTime(s)
    ensures NulFree(s)
  {
    forall i | 0 <= i < |s| ensures s[i] != Nul {
      if i == 4 || i == 7 || i == 10 || i == 13 || i == 16 || i == |s| - 1 || i == 19 {
      } else {
        assert IsDigit(s[i]);
      }
    }
  }

  lemma RawIsNulFree(s: string, size: nat)
    requires ValidRaw(s, size)
    ensures NulFree(s)
  {
    ValidRawIsPlain(s, size);
    forall i | 0 <= i < |s| ensures s[i] != Nul {
      assert PlainChar(s[i]);
    }
  }

  // ------------------------------------------------------------------ joining

  function Join(parts: seq<string>): string
    requires parts != []
  {
    if |parts| == 1 then parts[0] else parts[0] + [Nul] + Join(parts[1..])
  }

  ghost predicate AllNulFree(parts: seq<string>) { forall i :: 0 <= i < |parts| ==> NulFree(parts[i]) }

  /** The first NUL of a joined list ends its first part. */
  lemma FirstPart(parts: seq<string>)
    requires parts != [] && AllNulFree(parts)
    ensures forall i :: 0 <= i < |parts[0]| ==> i < |Join(parts)| && Join(parts)[i] == parts[0][i] != Nul
    ensures |parts| > 1 ==> |parts[0]| < |Join(parts)| && Join(parts)[|parts[0]|] == Nul
    ensures |parts| > 1 ==> Join(parts)[|parts[0]| + 1..] == Join(parts[1..])
    ensures |parts| == 1 ==> |Join(parts)| == |parts[0]|
  {
    assert NulFree(parts[0]);
  }

  lemma SameFirstPart(a: seq<string>, b: seq<string>)
    requires a != [] && b != [] && AllNulFree(a) && AllNulFree(b) && Join(a) == Join(b)
    ensures |a[0]| == |b[0]| && (|a| == 1 <==> |b| == 1)
  {
    FirstPart(a);
    FirstPart(b);
  }

  /** Joining is injective on lists of NUL-free parts, of whatever lengths. */
  lemma {:induction false} JoinIsInjective(a: seq<string>, b: seq<string>)
    requires a != [] && b != [] && AllNulFree(a) && AllNulFree(b) && Join(a) == Join(b)
    ensures a == b
    decreases |a|
  {
    SameFirstPart(a, b);
    FirstPart(a);
    FirstPart(b);
    assert a[0] == b[0];
    if |a| > 1 {
      assert AllNulFree(a[1..]) && AllNulFree(b[1..]);
      JoinIsInjective(a[1..], b[1..]);
      assert a == [a[0]] + a[1..] && b == [b[0]] + b[1..];
    }
  }

  // ------------------------------------------------------------ what is checked

  /** The checks of the contract's components, and the bytes a checked nonce stands for. */
  datatype Checks = Checks(id: string -> bool, raw: string -> bool, time: string -> bool, bytes: string -> Option<seq<byte>>)

  const V1 := Checks(ValidId, (s: string) => ValidRaw(s, 32), ValidTime, Decode)

  ghost predicate NulSafe(c: Checks) { forall s: string :: c.id(s) || c.raw(s) || c.time(s) ==> NulFree(s) }

  /** One text per byte string. */
  ghost predicate Canonical(c: Checks) { forall s: string, t: string :: c.raw(s) && c.raw(t) && c.bytes(s) == c.bytes(t) ==> s == t }

  /** The contract's identifiers, nonces and timestamps contain no NUL, and its nonces are canonical. */
  lemma V1IsSound()
    ensures NulSafe(V1) && Canonical(V1)
  {
    forall s: string | V1.id(s) || V1.raw(s) || V1.time(s) ensures NulFree(s) {
      if V1.id(s) { IdIsNulFree(s); }
      else if V1.raw(s) { RawIsNulFree(s, 32); }
      else { TimeIsNulFree(s); }
    }
    forall s: string, t: string | V1.raw(s) && V1.raw(t) && V1.bytes(s) == V1.bytes(t) ensures s == t {
      ValidRawIsInjective(s, t, 32);
    }
  }

  // --------------------------------------------------------------- transcripts

  datatype Auth = Auth(sessionID: string, deviceID: string, authorizationID: string, tokenID: string, clientNonce: string, serverNonce: string)

  datatype Resume = Resume(deviceID: string, authorizationID: string, tokenID: string, sessionID: string, resumeNonce: string, resumeChallenge: string, issuedAt: string)

  const AuthPrefix := "HXT1-AUTH"
  const ResumePrefix := "HXT1-RESUME"

  predicate ValidAuth(c: Checks, x: Auth) {
    && c.id(x.sessionID) && c.id(x.deviceID) && c.id(x.authorizationID) && c.id(x.tokenID)
    && c.raw(x.clientNonce) && c.raw(x.serverNonce)
  }

  predicate ValidResume(c: Checks, x: Resume) {
    && c.id(x.deviceID) && c.id(x.authorizationID) && c.id(x.tokenID) && c.id(x.sessionID)
    && c.raw(x.resumeNonce) && c.raw(x.resumeChallenge) && c.time(x.issuedAt)
  }

  function AuthParts(x: Auth): seq<string> {
    [AuthPrefix, x.sessionID, x.deviceID, x.authorizationID, x.tokenID, x.clientNonce, x.serverNonce]
  }

  function ResumeParts(x: Resume): seq<string> {
    [ResumePrefix, x.deviceID, x.authorizationID, x.tokenID, x.sessionID, x.resumeNonce, x.resumeChallenge, x.issuedAt]
  }

  /** None where the source returns a nil transcript. */
  function AuthTranscript(c: Checks, x: Auth): Option<string> { if ValidAuth(c, x) then Some(Join(AuthParts(x))) else None }

  function ResumeTranscript(c: Checks, x: Resume): Option<string> { if ValidResume(c, x) then Some(Join(ResumeParts(x))) else None }

  /** The byte sequences as the contract writes them out: which components, in which order, with one NUL between two. */
  lemma TranscriptText(c: Checks, x: Auth, y: Resume)
    requires ValidAuth(c, x) && ValidResume(c, y)
    ensures AuthTranscript(c, x) == Some("HXT1-AUTH" + [Nul] + (x.sessionID + [Nul] + (x.deviceID + [Nul]
      + (x.authorizationID + [Nul] + (x.tokenID + [Nul] + (x.clientNonce + [Nul] + x.serverNonce))))))
    ensures ResumeTranscript(c, y) == Some("HXT1-RESUME" + [Nul] + (y.deviceID + [Nul] + (y.authorizationID + [Nul]
      + (y.tokenID + [Nul] + (y.sessionID + [Nul] + (y.resumeNonce + [Nul] + (y.resumeChallenge + [Nul] + y.issuedAt)))))))
  {
    JoinSeven(AuthParts(x));
    var parts := ResumeParts(y);
    JoinSeven(parts[1..]);
  }

  lemma JoinSeven(p: seq<string>)
    requires |p| == 7
    ensures Join(p) == p[0] + [Nul] + (p[1] + [Nul] + (p[2] + [Nul] + (p[3] + [Nul] + (p[4] + [Nul] + (p[5] + [Nul] + p[6])))))
  {
    assert p[1..][1..] == p[2..] && p[2..][1..] == p[3..] && p[3..][1..] == p[4..] && p[4..][1..] == p[5..] && p[5..][1..] == p[6..];
    assert Join(p[6..]) == p[6];
    assert Join(p[5..]) == p[5] + [Nul] + Join(p[6..]);
    assert Join(p[4..]) == p[4] + [Nul] + Join(p[5..]);
    assert Join(p[3..]) == p[3] + [Nul] + Join(p[4..]);
    assert Join(p[2..]) == p[2] + [Nul] + Join(p[3..]);
    assert Join(p[1..]) == p[1] + [Nul] + Join(p[2..]);
  }

  lemma PartsNulFree(c: Checks, x: Auth, y: Resume)
    requires NulSafe(c)
    ensures ValidAuth(c, x) ==> AllNulFree(AuthParts(x))
    ensures ValidResume(c, y) ==> AllNulFree(ResumeParts(y))
  {
    assert NulFree(AuthPrefix) && NulFree(ResumePrefix);
  }

  /** A signed authentication transcript fixes every component. */
  lemma AuthTranscriptIsInjective(c: Checks, x: Auth, y: Auth)
    requires NulSafe(c) && AuthTranscript(c, x).Some? && AuthTranscript(c, x) == AuthTranscript(c, y)
    ensures x == y
  {
    var z := Resume("", "", "", "", "", "", "");
    PartsNulFree(c, x, z);
    PartsNulFree(c, y, z);
    var a, b := AuthParts(x), AuthParts(y);
    JoinIsInjective(a, b);
    assert a[1] == b[1] && a[2] == b[2] && a[3] == b[3] && a[4] == b[4] && a[5] == b[5] && a[6] == b[6];
  }

  predicate SameBytes(c: Checks, x: Auth, y: Auth) {
    && x.sessionID == y.sessionID && x.deviceID == y.deviceID && x.authorizationID == y.authorizationID && x.tokenID == y.tokenID
    && c.bytes(x.clientNonce) == c.bytes(y.clientNonce) && c.bytes(x.serverNonce) == c.bytes(y.serverNonce)
  }

  /** And it binds the nonces themselves: two transcripts agree exactly if the identifiers and the nonces' bytes do. */
  lemma AuthTranscriptBindsBytes(c: Checks, x: Auth, y: Auth)
    requires NulSafe(c) && Canonical(c) && ValidAuth(c, x) && ValidAuth(c, y)
    ensures AuthTranscript(c, x) == AuthTranscript(c, y) <==> SameBytes(c, x, y)
  {
    if AuthTranscript(c, x) == AuthTranscript(c, y) {
      AuthTranscriptIsInjective(c, x, y);
    }
  }

  lemma ResumeTranscriptIsInjective(c: Checks, x: Resume, y: Resume)
    requires NulSafe(c) && ResumeTranscript(c, x).Some? && ResumeTranscript(c, x) == ResumeTranscript(c, y)
    ensures x == y
  {
    var z := Auth("", "", "", "", "", "");
    PartsNulFree(c, z, x);
    PartsNulFree(c, z, y);
    var a, b := ResumeParts(x), ResumeParts(y);
    JoinIsInjective(a, b);
    assert a[1] == b[1] && a[2] == b[2] && a[3] == b[3] && a[4] == b[4] && a[5] == b[5] && a[6] == b[6] && a[7] == b[7];
  }

  /** No signature over one kind of transcript is a signature over the other. */
  lemma TranscriptsAreDisjoint(c: Checks, x: Auth, y: Resume)
    requires NulSafe(c) && AuthTranscript(c, x).Some?
    ensures AuthTranscript(c, x) != ResumeTranscript(c, y)
  {
    if AuthTranscript(c, x) == ResumeTranscript(c, y) {
      PartsNulFree(c, x, y);
      SameFirstPart(AuthParts(x), ResumeParts(y));
    }
  }

  /** All of it for the contract's own checks. */
  lemma V1Transcripts(x: Auth, x': Auth, y: Resume, y': Resume)
    ensures AuthTranscript(V1, x).Some? && AuthTranscript(V1, x) == AuthTranscript(V1, x') ==> x == x'
    ensures ResumeTranscript(V1, y).Some? && ResumeTranscript(V1, y) == ResumeTranscript(V1, y') ==> y == y'
    ensures AuthTranscript(V1, x).Some? ==> AuthTranscript(V1, x) != ResumeTranscript(V1, y)
  {
    V1IsSound();
    AllTranscripts(V1, x, x', y, y');
  }

  lemma AllTranscripts(c: Checks, x: Auth, x': Auth, y: Resume, y': Resume)
    requires NulSafe(c)
    ensures AuthTranscript(c, x).Some? && AuthTranscript(c, x) == AuthTranscript(c, x') ==> x == x'
    ensures ResumeTranscript(c, y).Some? && ResumeTranscript(c, y) == ResumeTranscript(c, y') ==> y == y'
    ensures AuthTranscript(c, x).Some? ==> AuthTranscript(c, x) != ResumeTranscript(c, y)
  {
    if AuthTranscript(c, x).Some? && AuthTranscript(c, x) == AuthTranscript(c, x') { AuthTranscriptIsInjective(c, x, x'); }
    if ResumeTranscript(c, y).Some? && ResumeTranscript(c, y) == ResumeTranscript(c, y') { ResumeTranscriptIsInjective(c, y, y'); }
    if AuthTranscript(c, x).Some? { TranscriptsAreDisjoint(c, x, y); }
  }
}
