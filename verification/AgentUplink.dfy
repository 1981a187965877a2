/** From the Agent's senders to the Gateway's reader. */
module AgentUplink {
  // The writer of `AgentWriter` feeds the numbered frames of `Wire`, so frames arrive in
  // acceptance order.

  import opened Common
  import opened FrameCodec
  import W = AgentWriter
  import opened Wire

  /** What a request asks to send; the stamp only orders it. */
  datatype Content = Content(streamID: nat, bytes: seq<byte>)

  /** `framed` is history: the request behind each frame after the handshake. */
  datatype Uplink = Uplink(writer: W.State, dir: Dir, out: nat, framed: seq<W.Request>)

  datatype Move = Writer(step: W.Step) | Deliver

  function KindOf(r: W.Request): byte { if r.control then KindControl else KindData }

  function FrameOf(r: W.Request, content: int -> Content, sequence: nat): Frame {
    Frame(KindOf(r), content(r.payload).streamID, sequence, content(r.payload).bytes)
  }

  /** The frame is the request's: control or data as asked, with its stream, its bytes and this number. */
  predicate IsFrameOf(f: Frame, r: W.Request, content: int -> Content, sequence: nat) {
    && (f.kind == 1 <==> r.control) && (f.kind == 2 <==> !r.control)
    && f.streamID == content(r.payload).streamID && f.payload == content(r.payload).bytes && f.sequence == sequence
  }

  /** writeQueued for one request; a request that does not encode is answered with an error and skipped. */
  function Send1(c: Codec, u: Uplink, r: W.Request, content: int -> Content): Uplink {
    var w := Written(c, u.dir, u.out, KindOf(r), content(r.payload).streamID, content(r.payload).bytes);
    u.(dir := w.0, out := w.1, framed := if w.1 == u.out then u.framed else u.framed + [r])
  }

  ghost predicate Next(c: Codec, u: Uplink, m: Move, content: int -> Content, u': Uplink) {
    match m
    case Writer(step) =>
      && W.Next(u.writer, step, u'.writer)
      && if step.Write? then step.p < |u.writer.pending| && u' == Send1(c, u, u.writer.pending[step.p], content).(writer := u'.writer)
         else u' == u.(writer := u'.writer)
    case Deliver =>
      && u.dir.link != [] && Receive(c, u.dir).Some?
      && u' == u.(dir := Take(u.dir, Receive(c, u.dir).value))
  }

  /** The session starts with its handshake frames sent and an empty writer. */
  ghost predicate Starts(c: Codec, u: Uplink) {
    u.writer == W.Initial && DirOk(c, u.dir) && u.out == |u.dir.sent| && u.framed == []
  }

  ghost predicate IsRun(c: Codec, run: seq<Uplink>, moves: seq<Move>, content: int -> Content) {
    && |run| == |moves| + 1 && Starts(c, run[0])
    && forall k :: 0 <= k < |moves| ==> Next(c, run[k], moves[k], content, run[k + 1])
  }

  /** Frame `base + i` was made from request `i`. */
  ghost predicate MadeFrom(sent: seq<Frame>, framed: seq<W.Request>, content: int -> Content, base: nat) {
    && |sent| == base + |framed|
    && forall i :: 0 <= i < |framed| ==> sent[base + i] == FrameOf(framed[i], content, base + i + 1)
  }

  /** The framed requests were written, in increasing order of their stamps. */
  ghost predicate Ordered(framed: seq<W.Request>, written: seq<W.Request>) {
    W.Ascending(framed) && forall r :: r in framed ==> r in written
  }

  ghost predicate Inv(c: Codec, u: Uplink, content: int -> Content, base: nat) {
    && RoundTrips(c) && W.Inv(u.writer) && W.WrittenWell(u.writer)
    && DirOk(c, u.dir) && u.out == |u.dir.sent|
    && MadeFrom(u.dir.sent, u.framed, content, base) && Ordered(u.framed, u.writer.written)
  }

  lemma WriterKeeps(w: W.State, step: W.Step, w': W.State)
    requires W.Inv(w) && W.WrittenWell(w) && W.Next(w, step, w')
    ensures W.Inv(w') && W.WrittenWell(w')
  {
    W.NextPreserves(w, step, w');
    W.WrittenStep(w, step, w');
  }

  /** The request just written is younger than every framed one. */
  lemma FramedIsOlder(framed: seq<W.Request>, written: seq<W.Request>, r: W.Request)
    requires W.Ascending(written + [r]) && Ordered(framed, written)
    ensures Ordered(framed + [r], written + [r]) && Ordered(framed, written + [r])
  {
    forall i | 0 <= i < |framed| ensures framed[i].order < r.order {
      assert framed[i] in written;
      var k :| 0 <= k < |written| && written[k] == framed[i];
      assert (written + [r])[k] == framed[i] && (written + [r])[|written|] == r;
    }
  }

  lemma MadeFromMore(sent: seq<Frame>, framed: seq<W.Request>, content: int -> Content, base: nat, r: W.Request)
    requires MadeFrom(sent, framed, content, base)
    ensures MadeFrom(sent + [FrameOf(r, content, |sent| + 1)], framed + [r], content, base)
  {
  }

  lemma SendKeepsInv(c: Codec, u: Uplink, r: W.Request, content: int -> Content, written: seq<W.Request>, base: nat)
    requires DirOk(c, u.dir) && u.out == |u.dir.sent| && MadeFrom(u.dir.sent, u.framed, content, base)
    requires Ordered(u.framed, written) && W.Ascending(written + [r])
    ensures var u' := Send1(c, u, r, content);
      && DirOk(c, u'.dir) && u'.out == |u'.dir.sent| && MadeFrom(u'.dir.sent, u'.framed, content, base)
      && Ordered(u'.framed, written + [r])
  {
    WrittenKeeps(c, u.dir, u.out, KindOf(r), content(r.payload).streamID, content(r.payload).bytes);
    MadeFromMore(u.dir.sent, u.framed, content, base, r);
    FramedIsOlder(u.framed, written, r);
  }

  lemma WriteKeepsInv(c: Codec, u: Uplink, m: Move, content: int -> Content, u': Uplink, base: nat)
    requires Inv(c, u, content, base) && Next(c, u, m, content, u') && m.Writer? && m.step.Write?
    ensures Inv(c, u', content, base)
  {
    WriterKeeps(u.writer, m.step, u'.writer);
    SendKeepsInv(c, u, u.writer.pending[m.step.p], content, u.writer.written, base);
  }

  lemma NextKeepsInv(c: Codec, u: Uplink, m: Move, content: int -> Content, u': Uplink, base: nat)
    requires Inv(c, u, content, base) && Next(c, u, m, content, u')
    ensures Inv(c, u', content, base)
  {
    if m.Deliver? {
      ReceiveSucceeds(c, u.dir);
    } else if m.step.Write? {
      WriteKeepsInv(c, u, m, content, u', base);
    } else {
      WriterKeeps(u.writer, m.step, u'.writer);
    }
  }

  lemma {:induction false} RunInv(c: Codec, run: seq<Uplink>, moves: seq<Move>, content: int -> Content, k: nat)
    requires RoundTrips(c) && IsRun(c, run, moves, content) && k < |run|
    ensures Inv(c, run[k], content, |run[0].dir.sent|)
  {
    if k > 0 {
      RunInv(c, run, moves, content, k - 1);
      assert Next(c, run[k - 1], moves[k - 1], content, run[k - 1 + 1]);
      NextKeepsInv(c, run[k - 1], moves[k - 1], content, run[k], |run[0].dir.sent|);
    }
  }

  /** Whatever is on its way to the Gateway will be accepted there. */
  lemma HeadIsAlwaysAccepted(run: seq<Uplink>, moves: seq<Move>, content: int -> Content, k: nat)
    requires IsRun(Tunnel, run, moves, content) && k < |run|
    ensures run[k].dir.link != [] ==> AcceptsHead(Tunnel, run[k].dir)
  {
    TunnelRoundTrips();
    RunInv(Tunnel, run, moves, content, k);
    if run[k].dir.link != [] {
      ReceiveSucceeds(Tunnel, run[k].dir);
    }
  }

  /**
    For every interleaving of senders, writer and transport: the frames the
    Gateway has accepted after the handshake are those of accepted requests, in
    acceptance order, numbered without gaps, each with its request's contents.
   */
  lemma ArrivesInAcceptanceOrder(run: seq<Uplink>, moves: seq<Move>, content: int -> Content, k: nat, i: nat)
    requires IsRun(Tunnel, run, moves, content) && k < |run|
    requires |run[0].dir.sent| <= i < |run[k].dir.delivered|
    ensures var u, base := run[k], |run[0].dir.sent|;
      && i - base < |u.framed| && IsFrameOf(u.dir.delivered[i], u.framed[i - base], content, i + 1)
      && u.framed[i - base] in u.writer.accepted
      && |u.dir.delivered| - base <= |u.framed|
      && forall m :: i - base < m < |u.framed| ==> u.framed[i - base].order < u.framed[m].order
  {
    TunnelRoundTrips();
    RunInv(Tunnel, run, moves, content, k);
    Arrived(Tunnel, run[k], content, |run[0].dir.sent|, i);
  }

  lemma Arrived(c: Codec, u: Uplink, content: int -> Content, base: nat, i: nat)
    requires Inv(c, u, content, base) && base <= i < |u.dir.delivered|
    ensures i - base < |u.framed| && u.dir.delivered[i] == FrameOf(u.framed[i - base], content, i + 1)
    ensures u.framed[i - base] in u.writer.accepted && |u.dir.delivered| - base <= |u.framed|
    ensures forall m :: i - base < m < |u.framed| ==> u.framed[i - base].order < u.framed[m].order
  {
    assert u.dir.delivered[i] == u.dir.sent[base + (i - base)];
    assert u.framed[i - base] in u.framed;
    assert u.framed[i - base] in u.writer.handled;
  }

  // ------------------------------------------------------------- what becomes a frame

  /** There is a number left and the request encodes under it. */
  predicate Encodes(r: W.Request, content: int -> Content, out: nat) { out < MaxSequence && Valid(FrameOf(r, content, out + 1)) }

  /** One of the first `k` moves ends the context of the caller with stamp `n`. */
  ghost predicate Happened(moves: seq<Move>, k: nat, n: nat) {
    exists j :: 0 <= j < k && j < |moves| && moves[j].Writer? && moves[j].step.GiveUp? && n in moves[j].step.who
  }

  lemma {:induction false} GaveUpIff(c: Codec, run: seq<Uplink>, moves: seq<Move>, content: int -> Content, k: nat, n: nat)
    requires IsRun(c, run, moves, content) && k < |run|
    ensures n in run[k].writer.gaveUp <==> Happened(moves, k, n)
  {
    if k > 0 {
      GaveUpIff(c, run, moves, content, k - 1, n);
      assert Next(c, run[k - 1], moves[k - 1], content, run[k - 1 + 1]);
      if Happened(moves, k, n) {
        var j :| 0 <= j < k && j < |moves| && moves[j].Writer? && moves[j].step.GiveUp? && n in moves[j].step.who;
        assert j < k - 1 ==> Happened(moves, k - 1, n);
      }
    }
  }

  /** Move `j` handles request `i`. */
  predicate HandledBy(run: seq<Uplink>, j: nat, i: nat) {
    j + 1 < |run| && |run[j].writer.handled| == i && |run[j + 1].writer.handled| == i + 1
  }

  /** A request is handled and framed in one move, unless it is dropped or does not encode. */
  predicate Handles(u: Uplink, u': Uplink, content: int -> Content) {
    var h, h' := u.writer.handled, u'.writer.handled;
    && |h'| == |h| + 1 && h'[..|h|] == h
    && u'.framed == if !W.Dropped(h'[|h|], u.writer.gaveUp) && Encodes(h'[|h|], content, u.out) then u.framed + [h'[|h|]] else u.framed
  }

  lemma FramedStep(c: Codec, u: Uplink, m: Move, content: int -> Content, u': Uplink)
    requires Next(c, u, m, content, u')
    ensures (u'.framed == u.framed && u'.writer.handled == u.writer.handled) || Handles(u, u', content)
  {
  }

  /**
    In every run, a handled request becomes a frame iff it encodes and is not a
    control frame whose caller had given up before it was handled.
   */
  lemma {:induction false} FramedIff(c: Codec, run: seq<Uplink>, moves: seq<Move>, content: int -> Content, k: nat, i: nat, j: nat)
    requires RoundTrips(c) && IsRun(c, run, moves, content) && j < k < |run| && HandledBy(run, j, i) && i < |run[k].writer.handled|
    ensures var r := run[k].writer.handled[i];
      r in run[k].framed <==> Encodes(r, content, run[j].out) && !(r.control && Happened(moves, j, r.order))
  {
    var m := k - 1;
    assert Next(c, run[m], moves[m], content, run[m + 1]);
    FramedStep(c, run[m], moves[m], content, run[k]);
    FramedIsHandled(c, run, moves, content, m);
    FramedIsHandled(c, run, moves, content, k);
    if j < m {
      HandledGrows(c, run, moves, content, j + 1, m);
      FramedIff(c, run, moves, content, m, i, j);
      OthersStay(run[m], run[k], content, i);
    } else {
      GaveUpIff(c, run, moves, content, j, run[k].writer.handled[i].order);
      W.NewIsFresh(run[m].writer.handled, run[k].writer.handled, run[m].framed);
    }
  }

  lemma FramedIsHandled(c: Codec, run: seq<Uplink>, moves: seq<Move>, content: int -> Content, k: nat)
    requires RoundTrips(c) && IsRun(c, run, moves, content) && k < |run|
    ensures W.Ascending(run[k].writer.handled) && forall r :: r in run[k].framed ==> r in run[k].writer.handled
  {
    RunInv(c, run, moves, content, k);
  }

  lemma OthersStay(u: Uplink, u': Uplink, content: int -> Content, i: nat)
    requires (u'.framed == u.framed && u'.writer.handled == u.writer.handled) || Handles(u, u', content)
    requires i < |u.writer.handled| && W.Ascending(u'.writer.handled)
    ensures i < |u'.writer.handled| && u'.writer.handled[i] == u.writer.handled[i]
    ensures u.writer.handled[i] in u'.framed <==> u.writer.handled[i] in u.framed
  {
    W.NewIsOther(u.writer.handled, u'.writer.handled, i);
  }

  lemma {:induction false} HandledGrows(c: Codec, run: seq<Uplink>, moves: seq<Move>, content: int -> Content, j: nat, k: nat)
    requires IsRun(c, run, moves, content) && j <= k < |run|
    ensures |run[j].writer.handled| <= |run[k].writer.handled|
  {
    if j < k {
      HandledGrows(c, run, moves, content, j, k - 1);
      assert Next(c, run[k - 1], moves[k - 1], content, run[k - 1 + 1]);
      FramedStep(c, run[k - 1], moves[k - 1], content, run[k]);
    }
  }

  /** Once nothing is on its way, the Gateway has accepted every frame: one for each framed request, in order. */
  lemma EveryFrameArrives(run: seq<Uplink>, moves: seq<Move>, content: int -> Content, k: nat)
    requires IsRun(Tunnel, run, moves, content) && k < |run| && run[k].dir.link == []
    ensures var u, base := run[k], |run[0].dir.sent|;
      && u.dir.delivered == u.dir.sent && MadeFrom(u.dir.delivered, u.framed, content, base)
      && W.Ascending(u.framed) && forall r :: r in u.framed ==> r in u.writer.written
  {
    TunnelRoundTrips();
    RunInv(Tunnel, run, moves, content, k);
  }
}
