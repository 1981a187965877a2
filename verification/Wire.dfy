/** Both directions of one connection: handshake or resume, then numbered frames over FIFO links. */
module Wire {
  import opened Common
  import opened FrameCodec

  /** One direction.  `sent` and `delivered` are history. */
  datatype Dir = Dir(link: seq<seq<byte>>, tracker: nat, sent: seq<Frame>, delivered: seq<Frame>)

  /** How frames become bytes and back; the connection below only relies on the round trip. */
  datatype Codec = Codec(encode: Frame -> seq<byte>, decode: seq<byte> -> Result<Frame>)

  const Tunnel := Codec(Image, Decode)

  ghost predicate RoundTrips(c: Codec) { forall f: Frame :: Valid(f) ==> c.decode(c.encode(f)) == Ok(f) }

  lemma TunnelRoundTrips()
    ensures RoundTrips(Tunnel)
  {
    forall f: Frame | Valid(f) ensures Tunnel.decode(Tunnel.encode(f)) == Ok(f) {
      DecodeImage(f);
    }
  }

  datatype AgentPhase = Idle | AwaitChallenge | AwaitReady | AwaitResumed | AgentRunning
  datatype GatewayPhase = AwaitPreface | AwaitAuth | GatewayRunning

  /** `agentOut` and `gatewayOut` are the sessions' outbound counters; `rejected` records that a frame was refused. */
  datatype State = State(up: Dir, down: Dir, agent: AgentPhase, gateway: GatewayPhase, resuming: bool, agentOut: nat, gatewayOut: nat, rejected: bool)

  datatype Side = Agent | Gateway

  /** Handshake steps carry the payload they write. */
  datatype Step =
    | Open(resuming: bool, message: seq<byte>)
    | ReadPreface(reply: seq<byte>)
    | ReadChallenge(auth: seq<byte>)
    | ReadAuth(ready: seq<byte>)
    | ReadReady
    | ReadResumed
    | Write(side: Side, kind: byte, streamID: nat, payload: seq<byte>)
    | Read(at: Side)

  // session_resumed announces this as the Agent's next sequence number.
  const ResumedNextSequence := 2

  function Control(sequence: nat, payload: seq<byte>): Frame { Frame(KindControl, 0, sequence, payload) }

  function Send(c: Codec, d: Dir, f: Frame): Dir { d.(link := d.link + [c.encode(f)], sent := d.sent + [f]) }

  /** The frame at the head of the link, if it decodes and its number is the next one. */
  function Receive(c: Codec, d: Dir): Option<Frame>
    requires d.link != []
  {
    var r := c.decode(d.link[0]);
    if r.Ok? && NextSequence(d.tracker) == Some(r.value.sequence) then Some(r.value) else None
  }

  function Take(d: Dir, f: Frame): Dir
    requires d.link != []
  {
    d.(link := d.link[1..], tracker := f.sequence, delivered := d.delivered + [f])
  }

  predicate IsSessionControl(f: Frame) { f.kind == KindControl && f.streamID == 0 }

  function Incoming(st: State, at: Side): Dir { if at.Agent? then st.down else st.up }

  predicate CanDo(st: State, s: Step) {
    match s
    case Open(_, message) => st.agent.Idle? && Valid(Control(1, message))
    case ReadPreface(reply) => st.gateway.AwaitPreface? && st.up.link != [] && Valid(Control(1, reply))
    case ReadChallenge(auth) => st.agent.AwaitChallenge? && st.down.link != [] && Valid(Control(2, auth))
    case ReadAuth(ready) => st.gateway.AwaitAuth? && st.up.link != [] && Valid(Control(2, ready))
    case ReadReady => st.agent.AwaitReady? && st.down.link != []
    case ReadResumed => st.agent.AwaitResumed? && st.down.link != []
    case Write(side, _, streamID, _) => streamID < Pow256(4) && (if side.Agent? then st.agent.AgentRunning? else st.gateway.GatewayRunning?)
    case Read(at) => Incoming(st, at).link != [] && (if at.Agent? then st.agent.AgentRunning? else st.gateway.GatewayRunning?)
  }

  /** writeQueued: the counter moves only if the number exists and the frame encodes. */
  function Written(c: Codec, d: Dir, out: nat, kind: byte, streamID: nat, payload: seq<byte>): (Dir, nat) {
    var next := NextSequence(out);
    if next.None? then (d, out) else
      var f := Frame(kind, streamID, next.value, payload);
      if Valid(f) then (Send(c, d, f), next.value) else (d, out)
  }

  function Do(c: Codec, st: State, s: Step): State
    requires CanDo(st, s)
  {
    match s
    case Open(resuming, message) =>
      st.(up := Send(c, st.up, Control(1, message)), resuming := resuming, agent := if resuming then AwaitResumed else AwaitChallenge)
    case ReadPreface(reply) =>
      var f := Receive(c, st.up);
      if f.None? || !IsSessionControl(f.value) then st.(rejected := true)
      else if st.resuming then
        // A resumed session starts numbering at zero and its writer sends the reply.
        var w := Written(c, st.down, 0, KindControl, 0, reply);
        st.(up := Take(st.up, f.value), gateway := GatewayRunning, down := w.0, gatewayOut := w.1)
      else st.(up := Take(st.up, f.value), down := Send(c, st.down, Control(1, reply)), gateway := AwaitAuth)
    case ReadChallenge(auth) =>
      var f := Receive(c, st.down);
      if f.None? || f.value.sequence != 1 || !IsSessionControl(f.value) then st.(rejected := true)
      else st.(down := Take(st.down, f.value), up := Send(c, st.up, Control(2, auth)), agent := AwaitReady)
    case ReadAuth(ready) =>
      var f := Receive(c, st.up);
      if f.None? || !IsSessionControl(f.value) then st.(rejected := true)
      else st.(up := Take(st.up, f.value), down := Send(c, st.down, Control(2, ready)), gateway := GatewayRunning, gatewayOut := 2)
    case ReadReady =>
      var f := Receive(c, st.down);
      if f.None? || f.value.sequence != 2 || !IsSessionControl(f.value) then st.(rejected := true)
      else st.(down := Take(st.down, f.value), agent := AgentRunning, agentOut := 2)
    case ReadResumed =>
      var f := Receive(c, st.down);
      if f.None? || f.value.sequence != 1 || !IsSessionControl(f.value) then st.(rejected := true)
      else st.(down := Take(st.down, f.value), agent := AgentRunning, agentOut := ResumedNextSequence - 1)
    case Write(side, kind, streamID, payload) =>
      if side.Agent? then var w := Written(c, st.up, st.agentOut, kind, streamID, payload); st.(up := w.0, agentOut := w.1)
      else var w := Written(c, st.down, st.gatewayOut, kind, streamID, payload); st.(down := w.0, gatewayOut := w.1)
    case Read(at) =>
      var f := Receive(c, Incoming(st, at));
      if f.None? then st.(rejected := true)
      else if at.Agent? then st.(down := Take(st.down, f.value)) else st.(up := Take(st.up, f.value))
  }

  // --------------------------------------------------------------- invariants

  /** The byte strings are the frames' images. */
  ghost predicate Carries(c: Codec, link: seq<seq<byte>>, frames: seq<Frame>) {
    |link| == |frames| && forall i :: 0 <= i < |link| ==> IsImage(c, link[i], frames[i])
  }

  predicate IsImage(c: Codec, s: seq<byte>, f: Frame) { s == c.encode(f) }

  /** Contiguous numbers from one, and the link holds exactly what was sent and not yet delivered. */
  ghost predicate DirOk(c: Codec, d: Dir) {
    && d.delivered <= d.sent && d.tracker == |d.delivered| && Numbered(d.sent)
    && Carries(c, d.link, d.sent[|d.delivered|..])
  }

  ghost predicate Numbered(frames: seq<Frame>) {
    forall i :: 0 <= i < |frames| ==> Valid(frames[i]) && frames[i].sequence == i + 1
  }

  predicate OpensWith(sent: seq<Frame>, n: nat) { forall i :: 0 <= i < n && i < |sent| ==> IsSessionControl(sent[i]) }

  /** How many control frames open each direction. */
  function Opening(st: State): nat { if st.resuming then 1 else 2 }

  predicate PhasesOk(st: State) {
    && OpensWith(st.up.sent, Opening(st)) && OpensWith(st.down.sent, Opening(st))
    && (match st.agent
        case Idle => |st.up.sent| == 0 && |st.down.delivered| == 0 && st.gateway.AwaitPreface?
        case AwaitChallenge => |st.up.sent| == 1 && |st.down.delivered| == 0 && !st.resuming && !st.gateway.GatewayRunning?
        case AwaitReady => |st.up.sent| == 2 && |st.down.delivered| == 1 && !st.resuming
        case AwaitResumed => |st.up.sent| == 1 && |st.down.delivered| == 0 && st.resuming
        case AgentRunning => st.agentOut == |st.up.sent| >= Opening(st) && |st.down.delivered| >= Opening(st))
    && (match st.gateway
        case AwaitPreface => |st.down.sent| == 0 && |st.up.delivered| == 0
        case AwaitAuth => |st.down.sent| == 1 && |st.up.delivered| == 1 && !st.resuming
        case GatewayRunning => st.gatewayOut == |st.down.sent| >= Opening(st) && |st.up.delivered| >= Opening(st))
  }

  ghost predicate Inv(c: Codec, st: State) { RoundTrips(c) && DirOk(c, st.up) && DirOk(c, st.down) && PhasesOk(st) && !st.rejected }

  lemma CarriesMore(c: Codec, link: seq<seq<byte>>, frames: seq<Frame>, f: Frame)
    requires Carries(c, link, frames)
    ensures Carries(c, link + [c.encode(f)], frames + [f])
  {
    assert IsImage(c, c.encode(f), f);
  }

  lemma CarriesRest(c: Codec, link: seq<seq<byte>>, frames: seq<Frame>)
    requires Carries(c, link, frames) && link != []
    ensures link[0] == c.encode(frames[0]) && Carries(c, link[1..], frames[1..])
  {
    assert IsImage(c, link[0], frames[0]);
  }

  lemma SendKeeps(c: Codec, d: Dir, f: Frame)
    requires DirOk(c, d) && Valid(f) && f.sequence == |d.sent| + 1
    ensures DirOk(c, Send(c, d, f))
  {
    CarriesMore(c, d.link, d.sent[|d.delivered|..], f);
    assert (d.sent + [f])[|d.delivered|..] == d.sent[|d.delivered|..] + [f];
  }

  lemma WrittenKeeps(c: Codec, d: Dir, out: nat, kind: byte, streamID: nat, payload: seq<byte>)
    requires DirOk(c, d) && out == |d.sent|
    ensures DirOk(c, Written(c, d, out, kind, streamID, payload).0)
    ensures Written(c, d, out, kind, streamID, payload).1 == |Written(c, d, out, kind, streamID, payload).0.sent|
    ensures Written(c, d, out, kind, streamID, payload).0.delivered == d.delivered
    ensures Written(c, d, out, kind, streamID, payload).0.sent ==
      if Written(c, d, out, kind, streamID, payload).1 == out then d.sent else d.sent + [Frame(kind, streamID, out + 1, payload)]
  {
    var f := Frame(kind, streamID, out + 1, payload);
    if Valid(f) {
      SendKeeps(c, d, f);
    }
  }

  /** An accepted head is the first undelivered frame. */
  lemma HeadIsAccepted(c: Codec, d: Dir, f: Frame)
    requires d.link != [] && d.link[0] == c.encode(f) && Valid(f) && RoundTrips(c) && f.sequence == d.tracker + 1
    ensures Receive(c, d) == Some(f)
  {
    NumberFollows(d.tracker, f);
  }

  lemma NumberFollows(tracker: nat, f: Frame)
    requires Valid(f) && f.sequence == tracker + 1
    ensures NextSequence(tracker) == Some(f.sequence)
  {
  }

  lemma TakeKeeps(c: Codec, d: Dir)
    requires DirOk(c, d) && d.link != []
    ensures d.link[0] == c.encode(d.sent[|d.delivered|]) && DirOk(c, Take(d, d.sent[|d.delivered|]))
  {
    var rest := d.sent[|d.delivered|..];
    CarriesRest(c, d.link, rest);
    assert rest[0] == d.sent[|d.delivered|] && rest[1..] == d.sent[|d.delivered| + 1..];
  }

  lemma ReceiveSucceeds(c: Codec, d: Dir)
    requires RoundTrips(c) && DirOk(c, d) && d.link != []
    ensures Receive(c, d) == Some(d.sent[|d.delivered|])
    ensures DirOk(c, Take(d, d.sent[|d.delivered|]))
  {
    TakeKeeps(c, d);
    HeadIsAccepted(c, d, d.sent[|d.delivered|]);
  }

  lemma OpenKeepsInv(c: Codec, st: State, s: Step)
    requires Inv(c, st) && CanDo(st, s) && s.Open?
    ensures Inv(c, Do(c, st, s))
  {
    SendKeeps(c, st.up, Control(1, s.message));
  }

  lemma AgentHandshakeKeepsInv(c: Codec, st: State, s: Step)
    requires Inv(c, st) && CanDo(st, s) && (s.ReadChallenge? || s.ReadReady? || s.ReadResumed?)
    ensures Inv(c, Do(c, st, s))
  {
    ReceiveSucceeds(c, st.down);
    if s.ReadChallenge? {
      SendKeeps(c, st.up, Control(2, s.auth));
    }
  }

  lemma GatewayHandshakeKeepsInv(c: Codec, st: State, s: Step)
    requires Inv(c, st) && CanDo(st, s) && (s.ReadPreface? || s.ReadAuth?)
    ensures Inv(c, Do(c, st, s))
  {
    ReceiveSucceeds(c, st.up);
    match s
    case ReadPreface(reply) => SendKeeps(c, st.down, Control(1, reply));
    case ReadAuth(ready) => SendKeeps(c, st.down, Control(2, ready));
  }

  lemma WriteKeepsInv(c: Codec, st: State, s: Step)
    requires Inv(c, st) && CanDo(st, s) && s.Write?
    ensures Inv(c, Do(c, st, s))
  {
    if s.side.Agent? {
      WrittenKeeps(c, st.up, st.agentOut, s.kind, s.streamID, s.payload);
    } else {
      WrittenKeeps(c, st.down, st.gatewayOut, s.kind, s.streamID, s.payload);
    }
  }

  lemma ReadKeepsInv(c: Codec, st: State, s: Step)
    requires Inv(c, st) && CanDo(st, s) && s.Read?
    ensures Inv(c, Do(c, st, s))
  {
    ReceiveSucceeds(c, Incoming(st, s.at));
  }

  // ------------------------------------------------------------------ results

  const NewDir := Dir([], 0, [], [])
  const Connected := State(NewDir, NewDir, Idle, AwaitPreface, false, 0, 0, false)

  predicate StepTo(c: Codec, st: State, s: Step, st': State) { CanDo(st, s) && st' == Do(c, st, s) }

  ghost predicate IsRun(c: Codec, run: seq<State>, steps: seq<Step>) {
    && |run| == |steps| + 1 && run[0] == Connected
    && forall k :: 0 <= k < |steps| ==> StepTo(c, run[k], steps[k], run[k + 1])
  }

  lemma {:induction false} RunInv(c: Codec, run: seq<State>, steps: seq<Step>, k: nat)
    requires RoundTrips(c) && IsRun(c, run, steps) && k < |run|
    ensures Inv(c, run[k])
  {
    if k > 0 {
      RunInv(c, run, steps, k - 1);
      var st, s := run[k - 1], steps[k - 1];
      assert StepTo(c, st, s, run[k]);
      match s
      case Open(_, _) => OpenKeepsInv(c, st, s);
      case ReadPreface(_) => GatewayHandshakeKeepsInv(c, st, s);
      case ReadAuth(_) => GatewayHandshakeKeepsInv(c, st, s);
      case ReadChallenge(_) => AgentHandshakeKeepsInv(c, st, s);
      case ReadReady => AgentHandshakeKeepsInv(c, st, s);
      case ReadResumed => AgentHandshakeKeepsInv(c, st, s);
      case Write(_, _, _, _) => WriteKeepsInv(c, st, s);
      case Read(_) => ReadKeepsInv(c, st, s);
    }
  }

  predicate AcceptsHead(c: Codec, d: Dir)
    requires d.link != []
  {
    |d.delivered| < |d.sent| && Receive(c, d) == Some(d.sent[|d.delivered|])
  }

  /** Over FIFO links no frame is ever refused: every byte string decodes, every number is the expected one. */
  lemma NeverRejected(run: seq<State>, steps: seq<Step>, k: nat)
    requires IsRun(Tunnel, run, steps) && k < |run|
    ensures !run[k].rejected
    ensures run[k].up.link != [] ==> AcceptsHead(Tunnel, run[k].up)
    ensures run[k].down.link != [] ==> AcceptsHead(Tunnel, run[k].down)
  {
    TunnelRoundTrips();
    RunInv(Tunnel, run, steps, k);
    if run[k].up.link != [] { ReceiveSucceeds(Tunnel, run[k].up); }
    if run[k].down.link != [] { ReceiveSucceeds(Tunnel, run[k].down); }
  }

  /** What has been delivered is what was sent, in order, without gaps; the rest is still on the link. */
  lemma DeliveredIsPrefixOfSent(run: seq<State>, steps: seq<Step>, k: nat)
    requires IsRun(Tunnel, run, steps) && k < |run|
    ensures run[k].up.delivered <= run[k].up.sent && |run[k].up.sent| == |run[k].up.delivered| + |run[k].up.link|
    ensures run[k].down.delivered <= run[k].down.sent && |run[k].down.sent| == |run[k].down.delivered| + |run[k].down.link|
    ensures forall i :: 0 <= i < |run[k].up.sent| ==> run[k].up.sent[i].sequence == i + 1
    ensures forall i :: 0 <= i < |run[k].down.sent| ==> run[k].down.sent[i].sequence == i + 1
  {
    TunnelRoundTrips();
    RunInv(Tunnel, run, steps, k);
  }

  /**
    After a full handshake and after a resume alike, each writer's counter is
    the peer's tracker plus what is in flight.
   */
  lemma CountersAgree(run: seq<State>, steps: seq<Step>, k: nat)
    requires IsRun(Tunnel, run, steps) && k < |run|
    ensures run[k].agent.AgentRunning? ==> run[k].agentOut == run[k].up.tracker + |run[k].up.link|
    ensures run[k].gateway.GatewayRunning? ==> run[k].gatewayOut == run[k].down.tracker + |run[k].down.link|
  {
    TunnelRoundTrips();
    RunInv(Tunnel, run, steps, k);
  }

  // ------------------------------------------------------------------ what is refused

  /** The frame is what the reader expects: it decodes, has the next number, and in the handshake is control of stream 0 with the right number. */
  predicate Expected(c: Codec, d: Dir, handshake: bool, number: Option<nat>)
    requires d.link != []
  {
    var r := c.decode(d.link[0]);
    && r.Ok? && d.tracker != MaxSequence && r.value.sequence == d.tracker + 1
    && (handshake ==> r.value.kind == 1 && r.value.streamID == 0) && (number.Some? ==> r.value.sequence == number.value)
  }

  /** Whatever stands on the link: a read refuses it iff it is not what is expected, and a refused frame changes nothing else. */
  lemma RefusedIff(c: Codec, st: State, s: Step)
    requires CanDo(st, s) && !st.rejected
    ensures s.ReadPreface? || s.ReadAuth? ==> (Do(c, st, s).rejected <==> !Expected(c, st.up, true, None))
    ensures s.ReadChallenge? || s.ReadResumed? ==> (Do(c, st, s).rejected <==> !Expected(c, st.down, true, Some(1)))
    ensures s.ReadReady? ==> (Do(c, st, s).rejected <==> !Expected(c, st.down, true, Some(2)))
    ensures s.Read? ==> (Do(c, st, s).rejected <==> !Expected(c, Incoming(st, s.at), false, None))
    ensures s.Open? || s.Write? ==> !Do(c, st, s).rejected
    ensures Do(c, st, s).rejected ==> Do(c, st, s) == st.(rejected := true)
  {
  }

  /** Each side sends and reads as soon as its own handshake is done, whatever the other side is doing. */
  lemma TrafficIsEnabled(st: State, kind: byte, streamID: nat, payload: seq<byte>)
    requires streamID <= 0xFFFF_FFFF
    ensures CanDo(st, Write(Agent, kind, streamID, payload)) <==> st.agent.AgentRunning?
    ensures CanDo(st, Write(Gateway, kind, streamID, payload)) <==> st.gateway.GatewayRunning?
    ensures CanDo(st, Read(Agent)) <==> st.agent.AgentRunning? && st.down.link != []
    ensures CanDo(st, Read(Gateway)) <==> st.gateway.GatewayRunning? && st.up.link != []
  {
    PowersOf256();
  }

  // ---------------------------------------------------------- what is sent, and progress

  /** What one step asks a side to send, if it is a frame at all; the number is left out. */
  function Asks(s: Step, side: Side): seq<Frame> {
    match s
    case Open(_, message) => if side.Agent? then [Control(0, message)] else []
    case ReadPreface(reply) => if side.Gateway? then [Control(0, reply)] else []
    case ReadChallenge(auth) => if side.Agent? then [Control(0, auth)] else []
    case ReadAuth(ready) => if side.Gateway? then [Control(0, ready)] else []
    case Write(who, kind, streamID, payload) =>
      if who == side && Valid(Frame(kind, streamID, 1, payload)) then [Frame(kind, streamID, 0, payload)] else []
    case _ => []
  }

  /** What the first `k` steps ask a side to send, as far as the numbers last. */
  function Asked(steps: seq<Step>, side: Side, k: nat): seq<Frame>
    requires k <= |steps|
  {
    if k == 0 then [] else MoreAsked(Asked(steps, side, k - 1), steps[k - 1], side)
  }

  function MoreAsked(asked: seq<Frame>, s: Step, side: Side): seq<Frame> { if |asked| < MaxSequence then asked + Asks(s, side) else asked }

  /** The frames, numbered from one. */
  predicate Numbers(frames: seq<Frame>, asked: seq<Frame>) {
    |frames| == |asked| && forall i :: 0 <= i < |frames| ==> frames[i] == asked[i].(sequence := i + 1)
  }

  /** The side has sent what it was asked to send, numbered from one. */
  predicate HasSent(st: State, side: Side, asked: seq<Frame>) { Numbers(Outgoing(st, side).sent, asked) && |asked| <= MaxSequence }

  function Outgoing(st: State, side: Side): Dir { if side.Agent? then st.up else st.down }

  /** A valid frame is valid under every number there is. */
  lemma AnyNumber(kind: byte, streamID: nat, payload: seq<byte>, n: nat)
    requires 1 <= n <= MaxSequence
    ensures Valid(Frame(kind, streamID, n, payload)) <==> Valid(Frame(kind, streamID, 1, payload))
  {
    PowersOf256();
  }

  lemma WriteSends(c: Codec, d: Dir, out: nat, kind: byte, streamID: nat, payload: seq<byte>)
    requires out == |d.sent| <= MaxSequence
    ensures Written(c, d, out, kind, streamID, payload).0.sent ==
      if out < MaxSequence && Valid(Frame(kind, streamID, 1, payload)) then d.sent + [Frame(kind, streamID, out + 1, payload)] else d.sent
  {
    if out < MaxSequence { AnyNumber(kind, streamID, payload, out + 1); }
  }

  /** `sent'` is `sent` with what was asked, numbered, while there are numbers. */
  predicate Follows(sent: seq<Frame>, more: seq<Frame>, sent': seq<Frame>) {
    sent' == if |sent| < MaxSequence && more != [] then sent + [more[0].(sequence := |sent| + 1)] else sent
  }

  lemma WriteSendsAsked(c: Codec, st: State, s: Step, side: Side)
    requires Inv(c, st) && CanDo(st, s) && s.Write? && |Outgoing(st, side).sent| <= MaxSequence
    ensures Follows(Outgoing(st, side).sent, Asks(s, side), Outgoing(Do(c, st, s), side).sent)
  {
    if s.side == side { WriteSends(c, Outgoing(st, side), if side.Agent? then st.agentOut else st.gatewayOut, s.kind, s.streamID, s.payload); }
  }

  lemma AgentSendsAsked(c: Codec, st: State, s: Step, side: Side)
    requires Inv(c, st) && CanDo(st, s) && (s.Open? || s.ReadChallenge? || s.ReadReady? || s.ReadResumed?)
    ensures Follows(Outgoing(st, side).sent, Asks(s, side), Outgoing(Do(c, st, s), side).sent)
  {
    PowersOf256();
    if !s.Open? { ReceiveSucceeds(c, st.down); }
  }

  lemma GatewaySendsAsked(c: Codec, st: State, s: Step, side: Side)
    requires Inv(c, st) && CanDo(st, s) && (s.ReadPreface? || s.ReadAuth?)
    ensures Follows(Outgoing(st, side).sent, Asks(s, side), Outgoing(Do(c, st, s), side).sent)
  {
    PowersOf256();
    ReceiveSucceeds(c, st.up);
    if s.ReadPreface? { WriteSends(c, st.down, 0, KindControl, 0, s.reply); }
  }

  lemma SendsAsked(c: Codec, st: State, s: Step, side: Side)
    requires Inv(c, st) && CanDo(st, s) && |Outgoing(st, side).sent| <= MaxSequence
    ensures Follows(Outgoing(st, side).sent, Asks(s, side), Outgoing(Do(c, st, s), side).sent)
  {
    if s.Write? { WriteSendsAsked(c, st, s, side); }
    else if s.ReadPreface? || s.ReadAuth? { GatewaySendsAsked(c, st, s, side); }
    else if !s.Read? { AgentSendsAsked(c, st, s, side); }
  }

  lemma NumbersMore(sent: seq<Frame>, asked: seq<Frame>, s: Step, side: Side, sent': seq<Frame>)
    requires Numbers(sent, asked) && |asked| <= MaxSequence && Follows(sent, Asks(s, side), sent')
    ensures Numbers(sent', MoreAsked(asked, s, side)) && |MoreAsked(asked, s, side)| <= MaxSequence
  {
  }

  lemma {:induction false} RunSentIsAsked(c: Codec, run: seq<State>, steps: seq<Step>, k: nat, side: Side)
    requires RoundTrips(c) && IsRun(c, run, steps) && k < |run|
    ensures HasSent(run[k], side, Asked(steps, side, k))
  {
    if k > 0 {
      RunSentIsAsked(c, run, steps, k - 1, side);
      RunInv(c, run, steps, k - 1);
      assert StepTo(c, run[k - 1], steps[k - 1], run[k - 1 + 1]);
      AskedStep(c, run[k - 1], steps[k - 1], run[k], side, Asked(steps, side, k - 1));
    }
  }

  lemma AskedStep(c: Codec, st: State, s: Step, st': State, side: Side, asked: seq<Frame>)
    requires Inv(c, st) && StepTo(c, st, s, st') && HasSent(st, side, asked)
    ensures HasSent(st', side, MoreAsked(asked, s, side))
  {
    SendsAsked(c, st, s, side);
    NumbersMore(Outgoing(st, side).sent, asked, s, side, Outgoing(st', side).sent);
  }

  /** In every run each side has sent exactly what it was asked to send, in order, numbered from one. */
  lemma SentIsAsked(run: seq<State>, steps: seq<Step>, k: nat, side: Side)
    requires IsRun(Tunnel, run, steps) && k < |run|
    ensures HasSent(run[k], side, Asked(steps, side, k))
  {
    TunnelRoundTrips();
    RunSentIsAsked(Tunnel, run, steps, k, side);
  }

  /** The next step of the handshake, with `message` as what it writes. */
  function Handshaking(st: State, resuming: bool, message: seq<byte>): Step {
    if st.agent.Idle? then Open(resuming, message)
    else if st.gateway.AwaitPreface? then ReadPreface(message)
    else if st.agent.AwaitChallenge? then ReadChallenge(message)
    else if st.gateway.AwaitAuth? then ReadAuth(message)
    else if st.agent.AwaitReady? then ReadReady
    else ReadResumed
  }

  predicate Established(st: State) { st.agent.AgentRunning? && st.gateway.GatewayRunning? }

  /** How many handshake steps are left at most. */
  function Remaining(st: State): nat {
    (match st.agent case Idle => 3 case AwaitChallenge => 2 case AwaitReady => 1 case AwaitResumed => 1 case AgentRunning => 0)
    + (match st.gateway case AwaitPreface => 2 case AwaitAuth => 1 case GatewayRunning => 0)
  }

  /** Until both sides are running the next step of the handshake is enabled, is not refused, and brings them closer. */
  lemma HandshakeProgresses(c: Codec, st: State, resuming: bool, message: seq<byte>)
    requires Inv(c, st) && !Established(st) && |message| <= MaxControlPayload
    ensures var s := Handshaking(st, resuming, message);
      CanDo(st, s) && Remaining(Do(c, st, s)) < Remaining(st) && !Do(c, st, s).rejected
  {
    PowersOf256();
    var s := Handshaking(st, resuming, message);
    LinkHolds(c, st.up);
    LinkHolds(c, st.down);
    if s.ReadPreface? || s.ReadAuth? { ReceiveSucceeds(c, st.up); }
    if s.ReadChallenge? || s.ReadReady? || s.ReadResumed? { ReceiveSucceeds(c, st.down); }
  }

  lemma LinkHolds(c: Codec, d: Dir)
    requires DirOk(c, d)
    ensures |d.link| == |d.sent| - |d.delivered|
  {
  }

  /** So every handshake, full or resumed, can complete. */
  lemma HandshakeCompletes(run: seq<State>, steps: seq<Step>, resuming: bool, message: seq<byte>) returns (run': seq<State>, steps': seq<Step>)
    requires IsRun(Tunnel, run, steps) && |message| <= MaxControlPayload
    ensures IsRun(Tunnel, run', steps') && run <= run' && Established(run'[|run'| - 1])
  {
    TunnelRoundTrips();
    run', steps' := RunCompletes(Tunnel, run, steps, resuming, message);
  }

  lemma {:induction false} RunCompletes(c: Codec, run: seq<State>, steps: seq<Step>, resuming: bool, message: seq<byte>) returns (run': seq<State>, steps': seq<Step>)
    requires RoundTrips(c) && IsRun(c, run, steps) && |message| <= MaxControlPayload
    ensures IsRun(c, run', steps') && run <= run' && Established(run'[|run'| - 1])
    decreases Remaining(run[|run| - 1])
  {
    var st := run[|run| - 1];
    if Established(st) {
      run', steps' := run, steps;
    } else {
      RunInv(c, run, steps, |run| - 1);
      HandshakeProgresses(c, st, resuming, message);
      var s := Handshaking(st, resuming, message);
      ExtendRun(c, run, steps, s);
      run', steps' := RunCompletes(c, run + [Do(c, st, s)], steps + [s], resuming, message);
    }
  }

  lemma ExtendRun(c: Codec, run: seq<State>, steps: seq<Step>, s: Step)
    requires IsRun(c, run, steps) && CanDo(run[|run| - 1], s)
    ensures IsRun(c, run + [Do(c, run[|run| - 1], s)], steps + [s])
  {
    var run', steps' := run + [Do(c, run[|run| - 1], s)], steps + [s];
    forall k | 0 <= k < |steps'| ensures StepTo(c, run'[k], steps'[k], run'[k + 1]) {
      if k < |steps| { assert StepTo(c, run[k], steps[k], run[k + 1]); }
    }
  }
}
