/** What one direction of a stream carries. */
module EndToEnd {
  // `FlowControl` says how many bytes may move; here the same runs move the frames
  // themselves, from the sender to the receiver's reader.

  import opened Common
  import opened FlowBounds
  import opened FlowControl
  import D = StreamDelivery
  import L = StreamLedger
  import Window

  type Chunk = L.Chunk

  /** The frames behind the sizes of a flow-control state; `sent` and `received` are history. */
  datatype Load = Load(wire: seq<Chunk>, queue: seq<Chunk>, tail: seq<Chunk>, sent: seq<Chunk>, received: seq<Chunk>)

  const Nothing := Load([], [], [], [], [])

  function Sizes(frames: seq<Chunk>): seq<nat> {
    if frames == [] then [] else [|frames[0].data|] + Sizes(frames[1..])
  }

  function Drop(frames: seq<Chunk>, k: nat): seq<Chunk>
    requires k < |frames|
  {
    frames[..k] + frames[k + 1..]
  }

  /** The contents have the sizes of the state. */
  predicate Fits(d: Load, s: State) {
    Sizes(d.wire) == s.wire && Sizes(d.queue) == s.queue && Sizes(d.tail) == s.tail
  }

  predicate Enabled(d: Load, step: Step, payload: seq<byte>) {
    && (step.Send? ==> |payload| == step.n)
    && (step.LoseData? ==> step.k < |d.wire|)
    && (step.Arrive? || step.ArriveRefused? ==> d.wire != [])
    && (step.Dequeue? || step.Drain? ==> d.queue != [])
  }

  /** One step of the contents; only a send uses `payload`. */
  function Moved(d: Load, step: Step, payload: seq<byte>, refused: bool): Load
    requires Enabled(d, step, payload)
  {
    match step
    case Send(_) => var c := L.Chunk(|d.sent|, payload); d.(wire := d.wire + [c], sent := d.sent + [c])
    case LoseData(k) => d.(wire := Drop(d.wire, k))
    case Arrive => if refused then d.(wire := d.wire[1..]) else d.(wire := d.wire[1..], queue := d.queue + [d.wire[0]])
    case ArriveRefused => d.(wire := d.wire[1..])
    case Drain => d.(queue := d.queue[1..], tail := d.tail + [d.queue[0]])
    case Dequeue => d.(queue := d.queue[1..], received := d.received + [d.queue[0]])
    case DequeueTail => d.(tail := [], received := d.received + d.tail)
    case _ => d
  }

  predicate Refused(cfg: Config, s: State) { s.wire != [] && !Verdict(cfg, s, s.wire[0]).NotRefused? }

  ghost predicate Carries(cfg: Config, s: State, step: Step, d: Load, payload: seq<byte>, d': Load) {
    Enabled(d, step, payload) && d' == Moved(d, step, payload, Refused(cfg, s))
  }

  /** A flow-control run together with the contents it moves. */
  ghost predicate IsTransfer(cfg: Config, f: nat, run: seq<State>, steps: seq<Step>, ds: seq<Load>, payloads: seq<seq<byte>>) {
    && IsRun(cfg, f, run, steps) && |ds| == |run| && |payloads| == |steps| && ds[0] == Nothing
    && forall k :: 0 <= k < |steps| ==> Carries(cfg, run[k], steps[k], ds[k], payloads[k], ds[k + 1])
  }

  // ------------------------------------------------------------------- sizes

  lemma {:induction false} SizesConcat(a: seq<Chunk>, b: seq<Chunk>)
    ensures Sizes(a + b) == Sizes(a) + Sizes(b)
  {
    if a == [] {
      assert a + b == b;
    } else {
      assert (a + b)[1..] == a[1..] + b;
      SizesConcat(a[1..], b);
    }
  }

  lemma {:induction false} SizesSum(frames: seq<Chunk>)
    ensures |Sizes(frames)| == |frames| && Sum(Sizes(frames)) == L.Size(frames)
  {
    if frames != [] {
      SizesSum(frames[1..]);
      assert Sizes(frames)[1..] == Sizes(frames[1..]);
    }
  }

  lemma SizesAppend(a: seq<Chunk>, c: Chunk)
    ensures Sizes(a + [c]) == Sizes(a) + [|c.data|]
  {
    SizesConcat(a, [c]);
    assert Sizes([c]) == [|c.data|] + Sizes([c][1..]);
  }

  lemma SizesDrop(frames: seq<Chunk>, k: nat)
    requires k < |frames|
    ensures |Sizes(frames)| == |frames| && Sizes(Drop(frames, k)) == Without(Sizes(frames), k)
  {
    var front, rest := frames[..k], frames[k + 1..];
    assert frames == front + [frames[k]] + rest;
    SizesAppend(front, frames[k]);
    SizesConcat(front + [frames[k]], rest);
    SizesConcat(front, rest);
    SizesSum(front);
    SizesSum(frames);
  }

  lemma SizesTail(frames: seq<Chunk>)
    requires frames != []
    ensures Sizes(frames) != [] && Sizes(frames)[0] == |frames[0].data| && Sizes(frames)[1..] == Sizes(frames[1..])
  {
  }

  /** A step of the sizes is a step of the contents. */
  lemma FitsStep(cfg: Config, f: nat, s: State, step: Step, s': State, d: Load, payload: seq<byte>)
    requires Fits(d, s) && StepTo(cfg, f, s, step, s') && (step.Send? ==> |payload| == step.n)
    ensures Enabled(d, step, payload) && Fits(Moved(d, step, payload, Refused(cfg, s)), s')
  {
    SizesSum(d.wire);
    SizesSum(d.queue);
    SizesSum(d.tail);
    match step
    case Send(n) => SizesAppend(d.wire, L.Chunk(|d.sent|, payload));
    case LoseData(k) => SizesDrop(d.wire, k);
    case Arrive => SizesTail(d.wire); SizesAppend(d.queue, d.wire[0]);
    case ArriveRefused => SizesTail(d.wire);
    case Drain => SizesTail(d.queue); SizesAppend(d.tail, d.queue[0]);
    case Dequeue => SizesTail(d.queue);
    case _ =>
  }

  lemma {:induction false} TransferFits(cfg: Config, f: nat, run: seq<State>, steps: seq<Step>, ds: seq<Load>, payloads: seq<seq<byte>>, k: nat)
    requires IsTransfer(cfg, f, run, steps, ds, payloads) && k < |run|
    ensures Fits(ds[k], run[k])
  {
    if k > 0 {
      var i := k - 1;
      TransferFits(cfg, f, run, steps, ds, payloads, i);
      assert StepTo(cfg, f, run[i], steps[i], run[i + 1]);
      assert Carries(cfg, run[i], steps[i], ds[i], payloads[i], ds[i + 1]);
      FitsStep(cfg, f, run[i], steps[i], run[i + 1], ds[i], payloads[i]);
    }
  }

  // ---------------------------------------------------------------- contents

  /** The frames still on their way to the reader, in the order in which they are ahead of each other. */
  function Pending(d: Load): seq<Chunk> { d.tail + (d.queue + d.wire) }

  /** Where the sent frames are, from the reader backwards. */
  function Whereabouts(d: Load): seq<Chunk> { d.received + d.tail + (d.queue + d.wire) }

  /** While nothing is lost every frame is in one place, in order exactly if nothing overtook. */
  ghost predicate Intact(d: Load, s: State) {
    !s.lost ==> L.LineUp(true, d.received + d.tail, d.queue + d.wire, d.sent, s.overtaken)
  }

  lemma IntactStep(cfg: Config, f: nat, s: State, step: Step, s': State, d: Load, payload: seq<byte>)
    requires Fits(d, s) && StepTo(cfg, f, s, step, s') && Intact(d, s) && Enabled(d, step, payload)
    ensures Intact(Moved(d, step, payload, Refused(cfg, s)), s')
  {
    SizesSum(d.wire);
    SizesSum(d.tail);
    if !s'.lost {
      match step
      case Send(n) => SendKeepsLine(d, payload, s.overtaken);
      case Arrive => ArriveKeepsLine(d);
      case Drain => DrainKeepsLine(d, s.overtaken);
      case Dequeue => DequeueKeepsLine(d, s.overtaken);
      case DequeueTail => assert d.received + d.tail + [] == d.received + d.tail;
      case _ =>
    }
  }

  lemma ArriveKeepsLine(d: Load)
    requires d.wire != []
    ensures d.queue + [d.wire[0]] + d.wire[1..] == d.queue + d.wire
  {
  }

  lemma SendKeepsLine(d: Load, payload: seq<byte>, o: bool)
    requires L.LineUp(true, d.received + d.tail, d.queue + d.wire, d.sent, o)
    ensures var c := L.Chunk(|d.sent|, payload); L.LineUp(true, d.received + d.tail, d.queue + (d.wire + [c]), d.sent + [c], o)
  {
    var c := L.Chunk(|d.sent|, payload);
    L.LineUpAppended(true, d.received + d.tail, d.queue + d.wire, d.sent, o, c);
    assert d.queue + d.wire + [c] == d.queue + (d.wire + [c]);
  }

  lemma DrainKeepsLine(d: Load, o: bool)
    requires d.queue != [] && L.LineUp(true, d.received + d.tail, d.queue + d.wire, d.sent, o)
    ensures L.LineUp(true, d.received + (d.tail + [d.queue[0]]), d.queue[1..] + d.wire, d.sent, o)
  {
    var front := d.received + d.tail;
    assert front + [] == front && (d.queue + d.wire)[1..] == d.queue[1..] + d.wire;
    L.LineUpHeadDeparts(true, front, [], d.queue + d.wire, d.sent, o);
    assert L.Insert(front, d.queue[0], []) == d.received + (d.tail + [d.queue[0]]);
  }

  lemma DequeueKeepsLine(d: Load, o: bool)
    requires d.queue != [] && L.LineUp(true, d.received + d.tail, d.queue + d.wire, d.sent, o)
    ensures L.LineUp(true, d.received + [d.queue[0]] + d.tail, d.queue[1..] + d.wire, d.sent, o || d.tail != [])
  {
    assert (d.queue + d.wire)[1..] == d.queue[1..] + d.wire;
    L.LineUpHeadDeparts(true, d.received, d.tail, d.queue + d.wire, d.sent, o);
    assert L.Insert(d.received, d.queue[0], d.tail) == d.received + [d.queue[0]] + d.tail;
  }

  lemma {:induction false} TransferIntact(cfg: Config, f: nat, run: seq<State>, steps: seq<Step>, ds: seq<Load>, payloads: seq<seq<byte>>, k: nat)
    requires IsTransfer(cfg, f, run, steps, ds, payloads) && k < |run|
    ensures Intact(ds[k], run[k])
  {
    if k > 0 {
      var i := k - 1;
      TransferIntact(cfg, f, run, steps, ds, payloads, i);
      TransferFits(cfg, f, run, steps, ds, payloads, i);
      assert StepTo(cfg, f, run[i], steps[i], run[i + 1]);
      assert Carries(cfg, run[i], steps[i], ds[i], payloads[i], ds[i + 1]);
      IntactStep(cfg, f, run[i], steps[i], run[i + 1], ds[i], payloads[i]);
    }
  }

  /** Every sent frame is in one place, and the bytes are in order iff no receive passed a drained frame. */
  ghost predicate OnceAndInOrderIff(d: Load, overtaken: bool) {
    && |Whereabouts(d)| == |d.sent| && D.ExactlyOnce(Whereabouts(d), d.sent)
    && (Whereabouts(d) == d.sent <==> !overtaken)
    && (!overtaken ==> L.Flatten(d.sent) == L.Flatten(d.received) + L.Flatten(Pending(d)))
  }

  lemma IntactMeans(d: Load, o: bool)
    requires L.LineUp(true, d.received + d.tail, d.queue + d.wire, d.sent, o)
    ensures OnceAndInOrderIff(d, o)
  {
    D.LineUpExactlyOnce(true, d.received + d.tail, d.queue + d.wire, d.sent, o);
    D.LineUpInOrderIff(d.received + d.tail, d.queue + d.wire, d.sent, o);
    assert Whereabouts(d) == d.received + Pending(d);
    L.FlattenConcat(d.received, Pending(d));
  }

  /** In every run, half-close included step by step, while nothing is lost. */
  lemma DeliveredInOrderIff(cfg: Config, f: nat, run: seq<State>, steps: seq<Step>, ds: seq<Load>, payloads: seq<seq<byte>>, k: nat)
    requires IsTransfer(cfg, f, run, steps, ds, payloads) && k < |run| && !run[k].lost
    ensures OnceAndInOrderIff(ds[k], run[k].overtaken)
    ensures Quiescent(run[k]) ==> D.ExactlyOnce(ds[k].received, ds[k].sent) && (ds[k].received == ds[k].sent <==> !run[k].overtaken)
  {
    var d := ds[k];
    TransferIntact(cfg, f, run, steps, ds, payloads, k);
    IntactMeans(d, run[k].overtaken);
    TransferFits(cfg, f, run, steps, ds, payloads, k);
    SizesSum(d.wire);
    SizesSum(d.queue);
    SizesSum(d.tail);
    assert d.received + [] + ([] + []) == d.received;
  }

  // ------------------------------------------------------- nothing is lost by itself

  /** Failures of the world: a failed send, a shared budget that is full. */
  predicate Misfortune(step: Step) { step.LoseData? || step.ArriveRefused? || step.LoseGrant? || step.LoseCredit? }

  ghost predicate Calm(steps: seq<Step>) { forall k :: 0 <= k < |steps| ==> !Misfortune(steps[k]) }

  ghost predicate Roomy(cfg: Config, f: nat) { Sensible(cfg) && W(cfg) <= cfg.budget && 0 < f && W(cfg) / f <= cfg.slots }

  /** The only other way to lose something is the receiver's own refusal. */
  lemma LossHasACause(cfg: Config, f: nat, s: State, step: Step, s': State)
    requires Sensible(cfg) && Inv(cfg, f, s) && StepTo(cfg, f, s, step, s') && !Misfortune(step) && !s.lost
    ensures s'.lost ==> !s'.refusal.NotRefused?
  {
  }

  /** Without misfortune the receiver's own bounds never lose anything: frames sent under credit always find room. */
  lemma {:induction false} CalmRunsLoseNothing(cfg: Config, f: nat, run: seq<State>, steps: seq<Step>, k: nat)
    requires Roomy(cfg, f) && IsRun(cfg, f, run, steps) && Calm(steps) && k < |run|
    ensures !run[k].lost
  {
    if k > 0 {
      var i := k - 1;
      CalmRunsLoseNothing(cfg, f, run, steps, i);
      RunInv(cfg, f, run, steps, i);
      assert StepTo(cfg, f, run[i], steps[i], run[i + 1]);
      LossHasACause(cfg, f, run[i], steps[i], run[k]);
      RunNotRefusedByBudget(cfg, f, run, steps, k);
      RunNotRefusedBySlots(cfg, f, run, steps, k);
    }
  }

  /**
    End to end: without misfortune every frame sent under credit reaches the reader
    or is on its way, exactly once, and the bytes are in order iff no receive passed
    a drained frame; towards the Agent, which drains nothing, they always are.
   */
  lemma EndToEndDelivery(cfg: Config, f: nat, run: seq<State>, steps: seq<Step>, ds: seq<Load>, payloads: seq<seq<byte>>, k: nat)
    requires Roomy(cfg, f) && IsTransfer(cfg, f, run, steps, ds, payloads) && Calm(steps) && k < |run|
    ensures OnceAndInOrderIff(ds[k], run[k].overtaken)
    ensures !cfg.retains ==> !run[k].overtaken
  {
    CalmRunsLoseNothing(cfg, f, run, steps, k);
    DeliveredInOrderIff(cfg, f, run, steps, ds, payloads, k);
    RunInv(cfg, f, run, steps, k);
  }

  /** Both directions of a stream as the peers configure them, with frames of at least 4096 bytes. */
  lemma BothDirectionsAreRoomy(bytes: nat, frames: nat, f: nat)
    requires bytes > 0 && MinTunnelFrame <= f <= MaxDataPayload
    ensures bytes >= Window.HeaderAllowance ==> Roomy(Request(bytes, frames), f)
    ensures Roomy(Response(bytes, frames), f)
  {
    SmallerQuotient(W(Response(bytes, frames)), bytes, f);
    if bytes >= Window.HeaderAllowance {
      SmallerQuotient(W(Request(bytes, frames)), bytes, f);
    }
  }

  // ---------------------------------------------------------------- the contents follow

  function Zeros(n: nat): seq<byte> { seq(n, _ => 0) }

  /** Some payload for a step: zeros where it sends. */
  function SomePayload(step: Step): seq<byte> { if step.Send? then Zeros(step.n) else [] }

  lemma FollowOne(cfg: Config, f: nat, run: seq<State>, steps: seq<Step>, ds: seq<Load>, payloads: seq<seq<byte>>, step: Step, s: State) returns (d: Load)
    requires IsTransfer(cfg, f, run, steps, ds, payloads) && StepTo(cfg, f, run[|run| - 1], step, s)
    ensures IsTransfer(cfg, f, run + [s], steps + [step], ds + [d], payloads + [SomePayload(step)])
    ensures Helpful(step) ==> d.sent == ds[|ds| - 1].sent
  {
    var last := |run| - 1;
    TransferFits(cfg, f, run, steps, ds, payloads, last);
    FitsStep(cfg, f, run[last], step, s, ds[last], SomePayload(step));
    d := Moved(ds[last], step, SomePayload(step), Refused(cfg, run[last]));
    ExtendTransfer(cfg, f, run, steps, ds, payloads, s, step, d);
  }

  lemma PrefixGrows<T>(s: seq<T>, n: nat)
    requires n < |s|
    ensures s[..n] + [s[n]] == s[..n + 1]
  {
  }

  /** The contents follow any continuation, and one that sends nothing adds nothing. */
  lemma {:induction false} Follow(cfg: Config, f: nat, run: seq<State>, steps: seq<Step>, ds: seq<Load>, payloads: seq<seq<byte>>,
                                  run': seq<State>, steps': seq<Step>, n: nat) returns (ds': seq<Load>, payloads': seq<seq<byte>>)
    requires IsTransfer(cfg, f, run, steps, ds, payloads) && IsRun(cfg, f, run', steps') && run <= run' && steps <= steps'
    requires |steps| <= n <= |steps'|
    ensures IsTransfer(cfg, f, run'[..n + 1], steps'[..n], ds', payloads')
    ensures ds <= ds' && ((forall k :: |steps| <= k < |steps'| ==> Helpful(steps'[k])) ==> ds'[n].sent == ds[|ds| - 1].sent)
    decreases n
  {
    if n == |steps| {
      assert run'[..n + 1] == run && steps'[..n] == steps;
      ds', payloads' := ds, payloads;
    } else {
      ds', payloads' := Follow(cfg, f, run, steps, ds, payloads, run', steps', n - 1);
      assert StepTo(cfg, f, run'[n - 1], steps'[n - 1], run'[n - 1 + 1]);
      var d := FollowOne(cfg, f, run'[..n], steps'[..n - 1], ds', payloads', steps'[n - 1], run'[n]);
      PrefixGrows(run', n);
      PrefixGrows(steps', n - 1);
      ds', payloads' := ds' + [d], payloads' + [SomePayload(steps'[n - 1])];
    }
  }

  lemma ExtendTransfer(cfg: Config, f: nat, run: seq<State>, steps: seq<Step>, ds: seq<Load>, payloads: seq<seq<byte>>, s: State, step: Step, d: Load)
    requires IsTransfer(cfg, f, run, steps, ds, payloads) && StepTo(cfg, f, run[|run| - 1], step, s)
    requires Carries(cfg, run[|run| - 1], step, ds[|ds| - 1], SomePayload(step), d)
    ensures IsTransfer(cfg, f, run + [s], steps + [step], ds + [d], payloads + [SomePayload(step)])
  {
    ExtendRun(cfg, f, run, steps, step, s);
    var run', steps', ds', payloads' := run + [s], steps + [step], ds + [d], payloads + [SomePayload(step)];
    forall k | 0 <= k < |steps'| ensures Carries(cfg, run'[k], steps'[k], ds'[k], payloads'[k], ds'[k + 1]) {
      if k < |steps| {
        assert Carries(cfg, run[k], steps[k], ds[k], payloads[k], ds[k + 1]);
      }
    }
  }

  /** Every run of the sizes is the run of some contents. */
  lemma SomeContents(cfg: Config, f: nat, run: seq<State>, steps: seq<Step>) returns (ds: seq<Load>, payloads: seq<seq<byte>>)
    requires IsRun(cfg, f, run, steps)
    ensures IsTransfer(cfg, f, run, steps, ds, payloads)
  {
    assert IsTransfer(cfg, f, [run[0]], [], [Nothing], []);
    ds, payloads := Follow(cfg, f, [run[0]], [], [Nothing], [], run, steps, |steps|);
    assert run[..|steps| + 1] == run && steps[..|steps|] == steps;
  }

  // ---------------------------------------------------------------- when order is guaranteed

  /** Whatever is sent and however the peers are scheduled, while nothing is lost the frames stay in order. */
  ghost predicate AlwaysInOrder(cfg: Config, f: nat) {
    forall run: seq<State>, steps: seq<Step>, ds: seq<Load>, payloads: seq<seq<byte>> ::
      IsTransfer(cfg, f, run, steps, ds, payloads) && !run[|run| - 1].lost ==> Whereabouts(ds[|ds| - 1]) == ds[|ds| - 1].sent
  }

  // A frame in the tail and one in the queue: both are in play.
  lemma TwoFramesInPlay(cfg: Config, f: nat, s: State)
    requires Inv(cfg, f, s) && s.tail != [] && s.queue != []
    ensures 2 * f <= W(cfg)
  {
    assert s.tail[0] >= f && s.queue[0] >= f;
  }

  lemma {:induction false} SmallWindowsNeverOvertake(cfg: Config, f: nat, run: seq<State>, steps: seq<Step>, k: nat)
    requires Sensible(cfg) && (!cfg.retains || W(cfg) < 2 * f) && IsRun(cfg, f, run, steps) && k < |run|
    ensures !run[k].overtaken
  {
    RunInv(cfg, f, run, steps, k);
    if k > 0 {
      var i := k - 1;
      SmallWindowsNeverOvertake(cfg, f, run, steps, i);
      RunInv(cfg, f, run, steps, i);
      assert StepTo(cfg, f, run[i], steps[i], run[i + 1]);
      if cfg.retains && run[k].overtaken {
        OvertakingTakesTwo(cfg, run[i], steps[i], run[k]);
        TwoFramesInPlay(cfg, f, run[i]);
      }
    }
  }

  lemma OvertakingTakesTwo(cfg: Config, s: State, step: Step, s': State)
    requires Next(cfg, s, step) == Some(s') && s'.overtaken && !s.overtaken
    ensures s.tail != [] && s.queue != []
  {
  }

  // Two frames are queued, the finisher drains the first, the reader receives the second.
  lemma OvertakingRun(cfg: Config, f: nat) returns (run: seq<State>, steps: seq<Step>)
    requires Roomy(cfg, f) && f <= MaxDataPayload && cfg.retains && 2 * f <= W(cfg)
    ensures IsRun(cfg, f, run, steps) && !run[|run| - 1].lost && run[|run| - 1].overtaken
  {
    QuotientAtLeast(W(cfg), f, 2);
    run, steps := LoadSlots(cfg, f, 2);
    CopiesSum(f, 2);
    var s0 := run[|run| - 1];
    assert Copies(f, 2) == [f, f] by { assert Copies(f, 1) == Copies(f, 0) + [f]; }
    run, steps := RaceDrain(cfg, f, run, steps, s0);
  }

  lemma RaceDrain(cfg: Config, f: nat, run: seq<State>, steps: seq<Step>, s: State) returns (run': seq<State>, steps': seq<Step>)
    requires IsRun(cfg, f, run, steps) && run[|run| - 1] == s && cfg.retains
    requires s.phase.Open? && s.wire == [] && s.tail == [] && s.queue == [f, f]
    ensures IsRun(cfg, f, run', steps') && run'[|run'| - 1] == s.(phase := Draining, queue := [], tail := [f], taken := s.taken + [f], overtaken := true)
  {
    var s1 := s.(phase := Draining);
    var s2 := s1.(queue := [f], tail := [f]);
    var s3 := s2.(queue := [], taken := s.taken + [f], overtaken := true);
    assert [f, f][1..] == [f] && [] + [f] == [f] && [f][1..] == [];
    ExtendRun(cfg, f, run, steps, HalfClose, s1);
    ExtendRun(cfg, f, run + [s1], steps + [HalfClose], Drain, s2);
    ExtendRun(cfg, f, run + [s1] + [s2], steps + [HalfClose] + [Drain], Dequeue, s3);
    run', steps' := run + [s1] + [s2] + [s3], steps + [HalfClose] + [Drain] + [Dequeue];
  }

  /**
    With frames of at least f bytes the order is guaranteed exactly if the receiver
    drops its queue at the end, or the window is too small for two frames.
   */
  lemma AlwaysInOrderIff(cfg: Config, f: nat)
    requires Roomy(cfg, f) && f <= MaxDataPayload
    ensures AlwaysInOrder(cfg, f) <==> !cfg.retains || W(cfg) < 2 * f
  {
    if cfg.retains && 2 * f <= W(cfg) {
      var run, steps := OvertakingRun(cfg, f);
      var ds, payloads := SomeContents(cfg, f, run, steps);
      DeliveredInOrderIff(cfg, f, run, steps, ds, payloads, |run| - 1);
    } else {
      forall run: seq<State>, steps: seq<Step>, ds: seq<Load>, payloads: seq<seq<byte>>
        | IsTransfer(cfg, f, run, steps, ds, payloads) && !run[|run| - 1].lost
        ensures Whereabouts(ds[|ds| - 1]) == ds[|ds| - 1].sent
      {
        SmallWindowsNeverOvertake(cfg, f, run, steps, |run| - 1);
        DeliveredInOrderIff(cfg, f, run, steps, ds, payloads, |run| - 1);
      }
    }
  }

  // ---------------------------------------------------------------- finishing

  /**
    From every lossless state the peers can finish without new data: then the sender
    has its whole window and the reader every frame that was sent, and in order iff
    nothing had overtaken before.
   */
  lemma DeliveryCompletes(cfg: Config, run: seq<State>, steps: seq<Step>, ds: seq<Load>, payloads: seq<seq<byte>>)
      returns (run': seq<State>, steps': seq<Step>, ds': seq<Load>, payloads': seq<seq<byte>>)
    requires Sensible(cfg) && W(cfg) <= cfg.budget && cfg.slots > 0
    requires IsTransfer(cfg, 0, run, steps, ds, payloads) && !run[|run| - 1].lost
    ensures IsTransfer(cfg, 0, run', steps', ds', payloads') && run <= run' && ds <= ds'
    ensures run'[|run'| - 1].window.credit == W(cfg)
    ensures D.ExactlyOnce(ds'[|ds'| - 1].received, ds[|ds| - 1].sent)
    ensures ds'[|ds'| - 1].received == ds[|ds| - 1].sent <==> !run[|run| - 1].overtaken
  {
    run', steps' := WindowReturns(cfg, run, steps);
    ds', payloads' := Follow(cfg, 0, run, steps, ds, payloads, run', steps', |steps'|);
    assert run'[..|steps'| + 1] == run' && steps'[..|steps'|] == steps';
    DeliveredInOrderIff(cfg, 0, run', steps', ds', payloads', |run'| - 1);
  }
}
