/** The response header limit: an incremental matcher for the end of the header section. */
module HeaderLimit {
  import opened Common

  const CR: byte := 13
  const LF: byte := 10

  /** CRLFCRLF, the end of the header section (section 2.1 of RFC 9112). */
  const Separator: seq<byte> := [CR, LF, CR, LF]

  predicate SeparatorAt(s: seq<byte>, i: int) { 0 <= i && i + 4 <= |s| && s[i..i + 4] == Separator }

  ghost predicate Contains(s: seq<byte>) { exists i: int :: SeparatorAt(s, i) }

  /** The matcher's next count of matched separator bytes. */
  function Advance(matched: nat, b: byte): nat
    requires matched < 4
  {
    if b == Separator[matched] then matched + 1 else if b == Separator[0] then 1 else 0
  }

  // ----------------------------------------------- the matcher against the search

  /** The byte `i` places before the end of `s` is `b`. */
  predicate FromEnd(s: seq<byte>, i: nat, b: byte) { i < |s| && s[|s| - 1 - i] == b }

  /** The last `k` bytes of `s` are the first `k` of the separator. */
  predicate EndsWith(s: seq<byte>, k: nat) {
    match k
    case 0 => true
    case 1 => FromEnd(s, 0, CR)
    case 2 => FromEnd(s, 0, LF) && FromEnd(s, 1, CR)
    case 3 => FromEnd(s, 0, CR) && FromEnd(s, 1, LF) && FromEnd(s, 2, CR)
    case 4 => FromEnd(s, 0, LF) && FromEnd(s, 1, CR) && FromEnd(s, 2, LF) && FromEnd(s, 3, CR)
    case _ => false
  }

  /** `k` is the length of the longest proper prefix of the separator that ends `s`. */
  predicate Longest(s: seq<byte>, k: nat) {
    && k < 4 && EndsWith(s, k)
    && (k < 3 ==> !EndsWith(s, 3)) && (k < 2 ==> !EndsWith(s, 2)) && (k < 1 ==> !EndsWith(s, 1))
  }

  lemma FromEndAfter(s: seq<byte>, b: byte, i: nat, x: byte)
    ensures FromEnd(s + [b], i + 1, x) <==> FromEnd(s, i, x)
    ensures FromEnd(s + [b], 0, x) <==> b == x
  {
  }

  lemma EndsAfter(s: seq<byte>, b: byte, k: nat)
    requires k < 4
    ensures EndsWith(s + [b], k + 1) <==> EndsWith(s, k) && b == Separator[k]
  {
    forall i: nat, x ensures FromEnd(s + [b], i + 1, x) <==> FromEnd(s, i, x) {
      FromEndAfter(s, b, i, x);
    }
  }

  /** One byte keeps the count exact; the count reaches four exactly when the separator has just ended. */
  lemma AdvanceIsExact(s: seq<byte>, b: byte, k: nat)
    requires Longest(s, k)
    ensures Advance(k, b) == 4 <==> EndsWith(s + [b], 4)
    ensures Advance(k, b) < 4 ==> Longest(s + [b], Advance(k, b))
  {
    EndsAfter(s, b, 0);
    EndsAfter(s, b, 1);
    EndsAfter(s, b, 2);
    EndsAfter(s, b, 3);
  }

  lemma EndIsSeparator(s: seq<byte>)
    ensures EndsWith(s, 4) <==> SeparatorAt(s, |s| - 4)
  {
    if |s| >= 4 {
      var t := s[|s| - 4..|s| - 4 + 4];
      assert t[0] == s[|s| - 4] && t[1] == s[|s| - 3] && t[2] == s[|s| - 2] && t[3] == s[|s| - 1];
      assert t == [t[0], t[1], t[2], t[3]];
    }
  }

  lemma ContainsAfter(s: seq<byte>, b: byte)
    ensures Contains(s + [b]) <==> Contains(s) || EndsWith(s + [b], 4)
  {
    var t := s + [b];
    EndIsSeparator(t);
    if i: int :| SeparatorAt(t, i) {
      if i + 4 <= |s| {
        assert s[i..i + 4] == t[i..i + 4];
        assert SeparatorAt(s, i);
      }
    }
    ContainsMore(s, [b]);
  }

  lemma ByteMatched(s: seq<byte>, b: byte, k: nat)
    requires !Contains(s) && Longest(s, k)
    ensures Contains(s + [b]) <==> Advance(k, b) == 4
    ensures Advance(k, b) < 4 ==> Longest(s + [b], Advance(k, b))
  {
    AdvanceIsExact(s, b, k);
    ContainsAfter(s, b);
  }

  lemma NothingInEmpty()
    ensures !Contains([]) && Longest([], 0)
  {
  }

  lemma ContainsMore(s: seq<byte>, more: seq<byte>)
    ensures Contains(s) ==> Contains(s + more)
  {
    if i: int :| SeparatorAt(s, i) {
      assert (s + more)[i..i + 4] == s[i..i + 4];
      assert SeparatorAt(s + more, i);
    }
  }

  /** The matcher's count after all of `s`; four once the separator has been seen. */
  function Scan(s: seq<byte>): nat {
    if s == [] then 0 else
      var m := Scan(s[..|s| - 1]);
      if m >= 4 then 4 else Advance(m, s[|s| - 1])
  }

  /** For every byte string the matcher finds the separator exactly when the string contains it. */
  lemma {:induction false} ScanIsSearch(s: seq<byte>)
    ensures Scan(s) <= 4 && (Scan(s) == 4 <==> Contains(s))
    ensures Scan(s) < 4 ==> Longest(s, Scan(s))
  {
    if s == [] {
      NothingInEmpty();
    } else {
      var init, b := s[..|s| - 1], s[|s| - 1];
      assert s == init + [b];
      ScanIsSearch(init);
      ContainsAfter(init, b);
      if Scan(init) < 4 {
        AdvanceIsExact(init, b, Scan(init));
      }
    }
  }

  // --------------------------------------------------------------- the reader

  datatype Outcome = Passed | TooLarge

  class Reader {
    var upstream: seq<byte>          // what the connection will still deliver
    var remaining: int
    var matched: nat
    var done: bool
    ghost const limit: int
    ghost var consumed: seq<byte>    // everything handed on so far

    constructor (upstream: seq<byte>, limit: int)
      ensures Valid() && this.upstream == upstream && this.limit == limit && consumed == [] && !done
    {
      this.upstream, remaining, matched, done := upstream, limit, 0, false;
      this.limit, consumed := limit, [];
      new;
      NothingInEmpty();
    }

    /** `done` is set exactly when the bytes read so far contain the separator. */
    ghost predicate Valid()
      reads this
    {
      && (done <==> Contains(consumed))
      && (!done ==> Longest(consumed, matched) && remaining == limit - |consumed| && (remaining >= 0 || consumed == []))
    }

    /** One Read with a buffer of `size` bytes; the connection delivers any part of that. */
    method Read(size: nat) returns (data: seq<byte>, r: Outcome)
      requires Valid()
      modifies this
      ensures Valid() && |data| <= size
      ensures old(upstream) == data + upstream && consumed == old(consumed) + data
      ensures old(done) ==> done && r.Passed?
      ensures !old(done) && limit >= 0 ==> |consumed| <= limit
      ensures r.TooLarge? <==> !Contains(consumed) && |consumed| >= limit
    {
      if done {
        data := Deliver(size);
        ContainsMore(old(consumed), data);
        return data, Passed;
      }
      if remaining <= 0 {
        assert old(consumed) == old(consumed) + [];
        return [], TooLarge;
      }
      data := Deliver(if size > remaining then remaining else size);
      remaining := remaining - |data|;
      Match(data);
      r := if !done && remaining == 0 then TooLarge else Passed;
    }

    method Deliver(size: nat) returns (data: seq<byte>)
      modifies this`upstream, this`consumed
      ensures |data| <= size && old(upstream) == data + upstream && consumed == old(consumed) + data
    {
      var n: nat :| n <= size && n <= |upstream|;
      data := upstream[..n];
      upstream, consumed := upstream[n..], consumed + data;
    }

    /** The byte loop; it stops at the byte that completes the separator. */
    method Match(data: seq<byte>)
      requires !done && |data| <= |consumed|
      requires var before := consumed[..|consumed| - |data|]; consumed == before + data && !Contains(before) && Longest(before, matched)
      modifies this`matched, this`done
      ensures done <==> Contains(consumed)
      ensures !done ==> Longest(consumed, matched)
    {
      ghost var before := consumed[..|consumed| - |data|];
      assert before + data[..0] == before;
      for i := 0 to |data|
        invariant !done && !Contains(before + data[..i]) && Longest(before + data[..i], matched)
      {
        ghost var s := before + data[..i];
        assert before + data[..i + 1] == s + [data[i]];
        ByteMatched(s, data[i], matched);
        if data[i] == Separator[matched] {
          matched := matched + 1;
          if matched == |Separator| {
            done := true;
            assert consumed == before + data[..i + 1] + data[i + 1..];
            ContainsMore(before + data[..i + 1], data[i + 1..]);
            return;
          }
          continue;
        }
        if data[i] == Separator[0] {
          matched := 1;
        } else {
          matched := 0;
        }
      }
      assert before + data[..|data|] == consumed;
    }
  }

  /**
    Any series of reads, whatever the buffer sizes and the chunks delivered: the
    outcome depends only on the bytes.  The limit error appears exactly when the
    first `limit` bytes have been read and hold no separator.
   */
  method ReadInChunks(upstream: seq<byte>, limit: nat, sizes: seq<nat>) returns (read: seq<byte>, r: Outcome, done: bool)
    ensures read <= upstream
    ensures done <==> Contains(read)
    ensures r.TooLarge? ==> limit <= |upstream| && read == upstream[..limit] && !Contains(upstream[..limit])
    ensures r.Passed? && !done ==> |read| < limit || sizes == []
    ensures limit <= |upstream| && Contains(upstream[..limit]) ==> r.Passed?
  {
    var reader := new Reader(upstream, limit);
    read, r := [], Passed;
    for i := 0 to |sizes|
      invariant reader.Valid() && reader.limit == limit && reader.consumed == read && upstream == read + reader.upstream
      invariant r.Passed? && (reader.done || |read| <= limit) && (!reader.done && i > 0 ==> |read| < limit)
    {
      var data;
      data, r := reader.Read(sizes[i]);
      assert read + data + reader.upstream == upstream;
      read := read + data;
      if r.TooLarge? {
        break;
      }
    }
    done := reader.done;
    if r.TooLarge? {
      assert read == upstream[..limit];
    }
  }
}
