/**
  Credit flow control of one direction of one v2 byte stream, as a two-party step
  system: the sender's window, the data frames on their way, the receiver's queue
  under its byte budget, the retained tail, the bytes taken off the queue but not
  yet credited, and the credit frames on their way back.
 */
module FlowControl {
  import opened Common
  import opened Window
  import Budgets

  const MaxDataPayload := 1024 * 1024
  const MinTunnelFrame := 4096

  /**
    A direction: the sender's window limit, the credit the sender gives itself at
    open, the receiver's first grant (0: none), the receiver's per-stream byte
    budget and slot count, and whether it retains a tail on half-close.
   */
  datatype Config = Config(limit: int, allowance: nat, grant: nat, budget: int, slots: nat, retains: bool)

  /** The whole window the two sides put into play. */
  function W(cfg: Config): nat { cfg.allowance + cfg.grant }

  function StreamQueueFrames(maxFrames: int, budgetBytes: int): (r: int)
    ensures r >= maxFrames && r >= budgetBytes / MinTunnelFrame
    ensures r == maxFrames || r == budgetBytes / MinTunnelFrame
  {
    var frames := budgetBytes / MinTunnelFrame;
    if frames < maxFrames then maxFrames else frames
  }

  /** The Agent's input budget for one stream: HTTP requests may use the session bound. */
  function StreamInputBudget(byteStream: bool, maxStream: int, maxSession: int): (r: int)
    ensures byteStream ==> r == maxStream
    ensures !byteStream ==> maxStream <= r && maxSession <= r && (r == maxStream || r == maxSession)
  {
    if byteStream then maxStream else if maxSession > maxStream then maxSession else maxStream
  }

  /** Gateway to Agent: headers may go out before the Agent's first grant. */
  function Request(inputBytes: nat, maxFrames: nat): Config {
    Config(MaxWindowCredit + HeaderAllowance, HeaderAllowance,
           if inputBytes > HeaderAllowance then InitialCredit(inputBytes - HeaderAllowance) else 0,
           inputBytes, StreamQueueFrames(maxFrames, inputBytes), false)
  }

  /** Agent to Gateway. */
  function Response(queueBytes: nat, queueFrames: nat): Config {
    Config(MaxWindowCredit, 0, InitialCredit(queueBytes), queueBytes, StreamQueueFrames(queueFrames, queueBytes), true)
  }

  /** The receiver's half-close: `finish` drains the queue into the tail under the lock, then publishes it. */
  datatype Phase = Open | Draining | Closed

  datatype Refusal = NotRefused | ByStreamBudget | BySlots

  datatype State = State(
    window: Credit,
    wire: seq<nat>,        // data frames accepted by the sender's writer, not yet handled by the receiver
    queue: seq<nat>,       // frames in the receiver's queue
    tail: seq<nat>,        // frames drained at half-close, to be read as one
    taken: seq<nat>,       // dequeued, budget not yet released
    uncredited: seq<nat>,  // released, credit not yet sent
    credits: seq<nat>,     // credit frames on their way back
    lost: bool,            // some send failed, or a shared budget refused a frame
    refusal: Refusal,
    overGranted: bool,
    phase: Phase,          // the sender sent the half-close after its last data frame
    overtaken: bool)       // history: a frame was dequeued past drained ones

  datatype Step =
    | Send(n: nat) | LoseData(k: nat)
    | Arrive | ArriveRefused
    | HalfClose | Drain | Drained | Dequeue | DequeueTail | Release
    | Grant | LoseGrant | CreditArrives | LoseCredit(k: nat)

  function Sum(s: seq<nat>): nat { if s == [] then 0 else s[0] + Sum(s[1..]) }

  /** The direction when the stream is open on both sides. */
  function Init(cfg: Config): State {
    State(Credit(cfg.allowance, cfg.limit, false, 0), [], [], [], [], [],
          if cfg.grant > 0 then [cfg.grant] else [], false, NotRefused, false, Open, false)
  }

  /** What the receiver's per-stream budget is charged with. */
  function Charged(s: State): nat { Sum(s.queue) + Sum(s.tail) + Sum(s.taken) }

  /** The receiver's own two bounds, in the order it checks them. */
  function Verdict(cfg: Config, s: State, n: nat): Refusal {
    if !Budgets.Admits(cfg.budget, Charged(s), n) then ByStreamBudget
    else if |s.queue| >= cfg.slots then BySlots
    else NotRefused
  }

  function Without(s: seq<nat>, k: nat): seq<nat>
    requires k < |s|
  {
    s[..k] + s[k + 1..]
  }

  function SenderNext(s: State, step: Step): Option<State>
    requires step.Send? || step.LoseData? || step.CreditArrives? || step.LoseCredit?
  {
    match step
    case Send(n) =>
      if 0 < n <= MaxDataPayload && n <= s.window.limit && !s.window.closed && s.window.credit >= n && s.phase.Open?
      then Some(s.(window := s.window.(credit := s.window.credit - n), wire := s.wire + [n])) else None
    case LoseData(k) => if k < |s.wire| then Some(s.(wire := Without(s.wire, k), lost := true)) else None
    case CreditArrives =>
      if s.credits == [] then None
      else Some(s.(window := Add(s.window, s.credits[0]), credits := s.credits[1..],
                   lost := s.lost || !AddResult(s.window, s.credits[0]).Done?,
                   overGranted := s.overGranted || AddResult(s.window, s.credits[0]).OverGrant?
                     || AddResult(s.window, s.credits[0]).Invalid?))
    case LoseCredit(k) => if k < |s.credits| then Some(s.(credits := Without(s.credits, k), lost := true)) else None
  }

  function ReceiverNext(cfg: Config, s: State, step: Step): Option<State>
    requires !(step.Send? || step.LoseData? || step.CreditArrives? || step.LoseCredit?)
  {
    match step
    case Arrive =>
      if s.wire == [] then None
      else if Verdict(cfg, s, s.wire[0]).NotRefused? then Some(s.(wire := s.wire[1..], queue := s.queue + [s.wire[0]]))
      else Some(s.(wire := s.wire[1..], lost := true, refusal := Verdict(cfg, s, s.wire[0])))
    case ArriveRefused => if s.wire == [] then None else Some(s.(wire := s.wire[1..], lost := true))
    case HalfClose => if cfg.retains && s.wire == [] && s.phase.Open? then Some(s.(phase := Draining)) else None
    case Drain =>
      if !s.phase.Draining? || s.queue == [] then None
      else Some(s.(queue := s.queue[1..], tail := s.tail + [s.queue[0]]))
    case Drained => if s.phase.Draining? && s.queue == [] then Some(s.(phase := Closed)) else None
    case Dequeue =>
      // The receive does not take the lock, so it can come between two steps of the drain.
      if s.queue == [] then None
      else Some(s.(queue := s.queue[1..], taken := s.taken + [s.queue[0]], overtaken := s.overtaken || s.tail != []))
    case DequeueTail =>
      if !s.phase.Closed? || Sum(s.tail) == 0 then None else Some(s.(tail := [], taken := s.taken + [Sum(s.tail)]))
    case Release => if s.taken == [] then None else Some(s.(taken := s.taken[1..], uncredited := s.uncredited + [s.taken[0]]))
    case Grant => if s.uncredited == [] then None else Some(s.(uncredited := s.uncredited[1..], credits := s.credits + [s.uncredited[0]]))
    case LoseGrant => if s.uncredited == [] then None else Some(s.(uncredited := s.uncredited[1..], lost := true))
  }

  function Next(cfg: Config, s: State, step: Step): Option<State> {
    if step.Send? || step.LoseData? || step.CreditArrives? || step.LoseCredit? then SenderNext(s, step)
    else ReceiverNext(cfg, s, step)
  }

  ghost predicate StepTo(cfg: Config, minFrame: nat, s: State, step: Step, s': State) {
    Next(cfg, s, step) == Some(s') && (step.Send? ==> step.n >= minFrame)
  }

  /** A run of the direction whose data frames all carry at least `minFrame` bytes. */
  ghost predicate IsRun(cfg: Config, minFrame: nat, run: seq<State>, steps: seq<Step>) {
    && |run| == |steps| + 1 && run[0] == Init(cfg)
    && forall k :: 0 <= k < |steps| ==> StepTo(cfg, minFrame, run[k], steps[k], run[k + 1])
  }

  // ----- conservation -----------------------------------------------------------------

  /** Every byte of window that is in play, wherever it is. */
  function InPlay(s: State): int {
    s.window.credit + Sum(s.wire) + Sum(s.queue) + Sum(s.tail) + Sum(s.taken) + Sum(s.uncredited) + Sum(s.credits)
  }

  ghost predicate AllAtLeast(s: seq<nat>, m: nat) { forall k :: 0 <= k < |s| ==> s[k] >= m }

  ghost predicate Sensible(cfg: Config) {
    0 < W(cfg) <= cfg.limit && cfg.grant <= MaxWindowCredit && (cfg.retains ==> W(cfg) <= MaxWindowCredit)
  }

  /** A frame or grant between 1 byte and the contract ceiling. */
  ghost predicate Bounded(s: seq<nat>) { forall k :: 0 <= k < |s| ==> 0 < s[k] <= MaxWindowCredit }

  /** The window bytes in play never exceed W, and are exactly W while nothing was lost. */
  ghost predicate Books(cfg: Config, s: State) {
    && s.window.limit == cfg.limit && s.window.credit >= 0 && !s.window.closed && !s.overGranted
    && InPlay(s) <= W(cfg)
    && (!s.lost ==> InPlay(s) == W(cfg))
    && (!cfg.retains ==> s.tail == [] && s.phase.Open? && !s.overtaken)
  }

  ghost predicate Frames(minFrame: nat, s: State) {
    && Bounded(s.wire) && Bounded(s.queue) && Bounded(s.tail) && Bounded(s.taken) && Bounded(s.uncredited) && Bounded(s.credits)
    && AllAtLeast(s.wire, minFrame) && AllAtLeast(s.queue, minFrame) && AllAtLeast(s.tail, minFrame)
  }

  /** There is a tail only from the half-close on, and nothing but the tail once it is drained. */
  ghost predicate Phased(s: State) {
    (s.phase.Open? ==> s.tail == []) && (!s.phase.Open? ==> s.wire == []) && (s.phase.Closed? ==> s.queue == [])
  }

  ghost predicate Inv(cfg: Config, minFrame: nat, s: State) { Books(cfg, s) && Frames(minFrame, s) && Phased(s) }

  lemma {:induction false} SumConcat(a: seq<nat>, b: seq<nat>)
    ensures Sum(a + b) == Sum(a) + Sum(b)
  {
    if a == [] { assert a + b == b; }
    else {
      assert (a + b)[1..] == a[1..] + b;
      SumConcat(a[1..], b);
    }
  }

  lemma SumWithout(s: seq<nat>, k: nat)
    requires k < |s|
    ensures Sum(Without(s, k)) == Sum(s) - s[k]
  {
    assert s == s[..k] + ([s[k]] + s[k + 1..]);
    SumConcat(s[..k], [s[k]] + s[k + 1..]);
    SumConcat(s[..k], s[k + 1..]);
  }

  lemma SumMove(a: seq<nat>, b: seq<nat>)
    requires a != []
    ensures Sum(a[1..]) + Sum(b + [a[0]]) == Sum(a) + Sum(b)
  {
    SumConcat(b, [a[0]]);
  }

  lemma {:induction false} SumCount(s: seq<nat>, m: nat)
    requires AllAtLeast(s, m)
    ensures |s| * m <= Sum(s)
  {
    if s != [] { SumCount(s[1..], m); }
  }

  lemma SenderKeepsBooks(cfg: Config, s: State, step: Step)
    requires step.Send? || step.LoseData? || step.CreditArrives? || step.LoseCredit?
    requires Sensible(cfg) && Books(cfg, s) && Bounded(s.credits) && SenderNext(s, step).Some?
    ensures Books(cfg, SenderNext(s, step).value)
  {
    match step
    case Send(n) => SumConcat(s.wire, [n]);
    case LoseData(k) => SumWithout(s.wire, k);
    case CreditArrives =>
    case LoseCredit(k) => SumWithout(s.credits, k);
  }

  lemma ArriveKeepsBooks(cfg: Config, s: State)
    requires Sensible(cfg) && Books(cfg, s) && ReceiverNext(cfg, s, Arrive).Some?
    ensures Books(cfg, ReceiverNext(cfg, s, Arrive).value)
  {
    var n, rest := s.wire[0], s.wire[1..];
    assert Sum(s.wire) == n + Sum(rest);
    SumConcat(s.queue, [n]);
    ArriveBooks(cfg, s, rest, s.queue + [n], n);
    RefuseBooks(cfg, s, rest, Verdict(cfg, s, n));
  }

  lemma ArriveBooks(cfg: Config, s: State, wire: seq<nat>, queue: seq<nat>, n: nat)
    requires Books(cfg, s) && Sum(s.wire) == n + Sum(wire) && Sum(queue) == Sum(s.queue) + n
    ensures Books(cfg, s.(wire := wire, queue := queue))
  {
  }

  lemma RefuseBooks(cfg: Config, s: State, wire: seq<nat>, refusal: Refusal)
    requires Books(cfg, s) && Sum(wire) <= Sum(s.wire)
    ensures Books(cfg, s.(wire := wire, lost := true, refusal := refusal))
  {
  }

  lemma RefusedKeepsBooks(cfg: Config, s: State)
    requires Sensible(cfg) && Books(cfg, s) && ReceiverNext(cfg, s, ArriveRefused).Some?
    ensures Books(cfg, ReceiverNext(cfg, s, ArriveRefused).value)
  {
  }

  lemma HalfCloseKeepsBooks(cfg: Config, s: State, step: Step)
    requires step.HalfClose? || step.Drain? || step.Drained?
    requires Sensible(cfg) && Books(cfg, s) && ReceiverNext(cfg, s, step).Some?
    ensures Books(cfg, ReceiverNext(cfg, s, step).value)
  {
    if step.Drain? { SumMove(s.queue, s.tail); }
  }

  lemma ConsumptionKeepsBooks(cfg: Config, s: State, step: Step)
    requires step.Dequeue? || step.DequeueTail? || step.Release? || step.Grant? || step.LoseGrant?
    requires Sensible(cfg) && Books(cfg, s) && ReceiverNext(cfg, s, step).Some?
    ensures Books(cfg, ReceiverNext(cfg, s, step).value)
  {
    match step
    case Dequeue => SumMove(s.queue, s.taken);
    case DequeueTail => SumConcat(s.taken, [Sum(s.tail)]);
    case Release => SumMove(s.taken, s.uncredited);
    case Grant => SumMove(s.uncredited, s.credits);
    case LoseGrant =>
  }

  lemma SenderKeepsFrames(minFrame: nat, s: State, step: Step)
    requires step.Send? || step.LoseData? || step.CreditArrives? || step.LoseCredit?
    requires Frames(minFrame, s) && SenderNext(s, step).Some? && (step.Send? ==> step.n >= minFrame)
    ensures Frames(minFrame, SenderNext(s, step).value)
  {
  }

  lemma QueueKeepsFrames(cfg: Config, minFrame: nat, s: State, step: Step)
    requires step.Arrive? || step.ArriveRefused? || step.HalfClose? || step.Drain? || step.Drained?
    requires Frames(minFrame, s) && ReceiverNext(cfg, s, step).Some?
    ensures Frames(minFrame, ReceiverNext(cfg, s, step).value)
  {
  }

  lemma ConsumptionKeepsFrames(cfg: Config, minFrame: nat, s: State, step: Step)
    requires step.Dequeue? || step.DequeueTail? || step.Release? || step.Grant? || step.LoseGrant?
    requires Frames(minFrame, s) && Sum(s.tail) <= MaxWindowCredit && ReceiverNext(cfg, s, step).Some?
    ensures Frames(minFrame, ReceiverNext(cfg, s, step).value)
  {
  }

  lemma InitInv(cfg: Config, minFrame: nat)
    requires Sensible(cfg)
    ensures Inv(cfg, minFrame, Init(cfg))
  {
    assert Sum([cfg.grant]) == cfg.grant;
  }

  lemma SenderPreserves(cfg: Config, minFrame: nat, s: State, step: Step)
    requires step.Send? || step.LoseData? || step.CreditArrives? || step.LoseCredit?
    requires Sensible(cfg) && Inv(cfg, minFrame, s) && SenderNext(s, step).Some? && (step.Send? ==> step.n >= minFrame)
    ensures Inv(cfg, minFrame, SenderNext(s, step).value)
  {
    SenderKeepsBooks(cfg, s, step);
    SenderKeepsFrames(minFrame, s, step);
  }

  lemma ArrivalPreserves(cfg: Config, minFrame: nat, s: State, step: Step)
    requires step.Arrive? || step.ArriveRefused? || step.HalfClose? || step.Drain? || step.Drained?
    requires Sensible(cfg) && Inv(cfg, minFrame, s) && ReceiverNext(cfg, s, step).Some?
    ensures Inv(cfg, minFrame, ReceiverNext(cfg, s, step).value)
  {
    if step.Arrive? { ArriveKeepsBooks(cfg, s); }
    else if step.ArriveRefused? { RefusedKeepsBooks(cfg, s); }
    else { HalfCloseKeepsBooks(cfg, s, step); }
    QueueKeepsFrames(cfg, minFrame, s, step);
  }

  lemma ConsumptionPreserves(cfg: Config, minFrame: nat, s: State, step: Step)
    requires step.Dequeue? || step.DequeueTail? || step.Release? || step.Grant? || step.LoseGrant?
    requires Sensible(cfg) && Inv(cfg, minFrame, s) && ReceiverNext(cfg, s, step).Some?
    ensures Inv(cfg, minFrame, ReceiverNext(cfg, s, step).value)
  {
    ConsumptionKeepsBooks(cfg, s, step);
    TailFits(cfg, s);
    ConsumptionKeepsFrames(cfg, minFrame, s, step);
  }

  lemma TailFits(cfg: Config, s: State)
    requires Sensible(cfg) && Books(cfg, s)
    ensures Sum(s.tail) <= MaxWindowCredit
  {
  }

  lemma NextPreserves(cfg: Config, minFrame: nat, s: State, step: Step, s': State)
    requires Sensible(cfg) && Inv(cfg, minFrame, s) && StepTo(cfg, minFrame, s, step, s')
    ensures Inv(cfg, minFrame, s')
  {
    if step.Send? || step.LoseData? || step.CreditArrives? || step.LoseCredit? { SenderPreserves(cfg, minFrame, s, step); }
    else if step.Dequeue? || step.DequeueTail? || step.Release? || step.Grant? || step.LoseGrant? { ConsumptionPreserves(cfg, minFrame, s, step); }
    else { ArrivalPreserves(cfg, minFrame, s, step); }
  }

  lemma {:induction false} RunInv(cfg: Config, minFrame: nat, run: seq<State>, steps: seq<Step>, k: nat)
    requires Sensible(cfg) && IsRun(cfg, minFrame, run, steps) && k < |run|
    ensures Inv(cfg, minFrame, run[k])
  {
    if k == 0 {
      InitInv(cfg, minFrame);
    } else {
      RunInv(cfg, minFrame, run, steps, k - 1);
      assert StepTo(cfg, minFrame, run[k - 1], steps[k - 1], run[k - 1 + 1]);
      NextPreserves(cfg, minFrame, run[k - 1], steps[k - 1], run[k]);
    }
  }
}
