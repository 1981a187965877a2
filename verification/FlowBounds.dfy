/** What the runs of `FlowControl` keep. */
module FlowBounds {
  // Credit between the two peers, the receiver's byte and slot bounds under credit, how
  // much window there is, and the way back to a full window.

  import opened Common
  import opened Window
  import opened FlowControl

  // ----- results over every run -----------------------------------------------------------

  lemma RequestSensible(inputBytes: nat, maxFrames: nat)
    ensures Sensible(Request(inputBytes, maxFrames))
  {
  }

  lemma ResponseSensible(queueBytes: nat, queueFrames: nat)
    ensures Sensible(Response(queueBytes, queueFrames))
  {
  }

  /** Credit is conserved between the two peers: never above W, exactly W while nothing was lost. */
  lemma CreditConserved(cfg: Config, run: seq<State>, steps: seq<Step>, k: nat)
    requires Sensible(cfg) && IsRun(cfg, 0, run, steps) && k < |run|
    ensures 0 <= run[k].window.credit && InPlay(run[k]) <= W(cfg)
    ensures !run[k].lost ==> InPlay(run[k]) == W(cfg)
  {
    RunInv(cfg, 0, run, steps, k);
  }

  /** No window update is ever an over-grant or outside the contract's 1..8 MiB. */
  lemma GrantsAreInBounds(cfg: Config, run: seq<State>, steps: seq<Step>, k: nat)
    requires Sensible(cfg) && IsRun(cfg, 0, run, steps) && k < |run|
    ensures !run[k].overGranted
    ensures forall i :: 0 <= i < |run[k].credits| ==> 1 <= run[k].credits[i] <= MaxWindowCredit
    ensures run[k].credits != [] ==> AddResult(run[k].window, run[k].credits[0]).Done?
  {
    RunInv(cfg, 0, run, steps, k);
  }

  /** Both results for the two directions of a stream as the peers set them up, whatever the bounds. */
  lemma BothDirectionsConserve(cfg: Config, bytes: nat, frames: nat, run: seq<State>, steps: seq<Step>, k: nat)
    requires cfg == Request(bytes, frames) || cfg == Response(bytes, frames)
    requires IsRun(cfg, 0, run, steps) && k < |run|
    ensures InPlay(run[k]) <= W(cfg) <= cfg.limit && (!run[k].lost ==> InPlay(run[k]) == W(cfg))
    ensures !run[k].overGranted && forall i :: 0 <= i < |run[k].credits| ==> 1 <= run[k].credits[i] <= MaxWindowCredit
  {
    RequestSensible(bytes, frames);
    ResponseSensible(bytes, frames);
    CreditConserved(cfg, run, steps, k);
    GrantsAreInBounds(cfg, run, steps, k);
  }

  // The arriving frame is part of what is in play, next to what the budget is charged with.
  lemma ArrivalFits(cfg: Config, minFrame: nat, s: State)
    requires Inv(cfg, minFrame, s) && s.wire != []
    ensures Charged(s) + s.wire[0] <= W(cfg) && 0 < s.wire[0]
  {
  }

  /** Only an arriving frame is refused, by the receiver's verdict on it. */
  lemma RefusalComesFromArrival(cfg: Config, s: State, step: Step, s': State)
    requires Next(cfg, s, step) == Some(s') && s'.refusal != s.refusal
    ensures step.Arrive? && s.wire != [] && s'.refusal == Verdict(cfg, s, s.wire[0])
  {
  }

  lemma {:induction false} RunNotRefusedByBudget(cfg: Config, minFrame: nat, run: seq<State>, steps: seq<Step>, k: nat)
    requires Sensible(cfg) && W(cfg) <= cfg.budget && IsRun(cfg, minFrame, run, steps) && k < |run|
    ensures run[k].refusal != ByStreamBudget
  {
    if k > 0 {
      RunNotRefusedByBudget(cfg, minFrame, run, steps, k - 1);
      RunInv(cfg, minFrame, run, steps, k - 1);
      assert StepTo(cfg, minFrame, run[k - 1], steps[k - 1], run[k - 1 + 1]);
      NotRefusedByBudget(cfg, minFrame, run[k - 1], steps[k - 1], run[k]);
    }
  }

  lemma NotRefusedByBudget(cfg: Config, minFrame: nat, s: State, step: Step, s': State)
    requires W(cfg) <= cfg.budget && Inv(cfg, minFrame, s) && Next(cfg, s, step) == Some(s') && s.refusal != ByStreamBudget
    ensures s'.refusal != ByStreamBudget
  {
    if s'.refusal != s.refusal {
      RefusalComesFromArrival(cfg, s, step, s');
      ArrivalFits(cfg, minFrame, s);
    }
  }

  lemma EmptyRun(cfg: Config, minFrame: nat)
    ensures IsRun(cfg, minFrame, [Init(cfg)], [])
  {
  }

  lemma ExtendRun(cfg: Config, minFrame: nat, run: seq<State>, steps: seq<Step>, step: Step, s: State)
    requires IsRun(cfg, minFrame, run, steps) && StepTo(cfg, minFrame, run[|run| - 1], step, s)
    ensures IsRun(cfg, minFrame, run + [s], steps + [step])
  {
    var run', steps' := run + [s], steps + [step];
    forall k | 0 <= k < |steps'| ensures StepTo(cfg, minFrame, run'[k], steps'[k], run'[k + 1]) {
      if k < |steps| { assert StepTo(cfg, minFrame, run[k], steps[k], run[k + 1]); }
    }
  }

  ghost predicate SomeRunRefuses(cfg: Config, minFrame: nat, refusal: Refusal) {
    exists run: seq<State>, steps: seq<Step> :: IsRun(cfg, minFrame, run, steps) && run[|run| - 1].refusal == refusal
  }

  // A first frame of n bytes under the local allowance, larger than the whole budget.
  lemma FirstFrameRefused(cfg: Config, n: nat)
    requires 0 < n <= MaxDataPayload && n <= cfg.allowance <= cfg.limit && cfg.budget < n
    ensures SomeRunRefuses(cfg, 0, ByStreamBudget)
  {
    var s0 := Init(cfg);
    var s1 := s0.(window := s0.window.(credit := cfg.allowance - n), wire := [n]);
    assert s0.wire + [n] == [n];
    var s2 := s1.(wire := [], lost := true, refusal := ByStreamBudget);
    assert [n][1..] == [];
    EmptyRun(cfg, 0);
    ExtendRun(cfg, 0, [s0], [], Send(n), s1);
    ExtendRun(cfg, 0, [s0] + [s1], [] + [Send(n)], Arrive, s2);
    var run, steps := [s0] + [s1] + [s2], [] + [Send(n)] + [Arrive];
    assert IsRun(cfg, 0, run, steps) && run[|run| - 1].refusal == ByStreamBudget;
  }

  /**
    Request bodies: the Agent's per-stream budget can refuse a frame sent under
    credit exactly when it is smaller than the header allowance the Gateway
    gives itself without asking.
   */
  lemma RequestBudgetRefusesIff(inputBytes: nat, maxFrames: nat)
    ensures SomeRunRefuses(Request(inputBytes, maxFrames), 0, ByStreamBudget) <==> inputBytes < HeaderAllowance
  {
    var cfg := Request(inputBytes, maxFrames);
    if inputBytes < HeaderAllowance {
      FirstFrameRefused(cfg, inputBytes + 1);
    } else {
      NeverRefusedByBudget(cfg);
    }
  }

  /** So a byte stream needs a stream bound of 64 KiB, and an HTTP request a stream or a session bound of that size. */
  lemma AgentBudgetRefusesIff(byteStream: bool, maxStream: nat, maxSession: nat, maxFrames: nat)
    ensures SomeRunRefuses(Request(StreamInputBudget(byteStream, maxStream, maxSession), maxFrames), 0, ByStreamBudget)
      <==> maxStream < HeaderAllowance && (byteStream || maxSession < HeaderAllowance)
  {
    RequestBudgetRefusesIff(StreamInputBudget(byteStream, maxStream, maxSession), maxFrames);
  }

  /** Response bodies: the Gateway's per-stream budget never refuses a frame sent under credit. */
  lemma ResponseBudgetNeverRefuses(queueBytes: nat, queueFrames: nat)
    requires queueBytes > 0  // Limits.valid
    ensures !SomeRunRefuses(Response(queueBytes, queueFrames), 0, ByStreamBudget)
  {
    NeverRefusedByBudget(Response(queueBytes, queueFrames));
  }

  lemma NeverRefusedByBudget(cfg: Config)
    requires Sensible(cfg) && W(cfg) <= cfg.budget
    ensures !SomeRunRefuses(cfg, 0, ByStreamBudget)
  {
    forall run: seq<State>, steps: seq<Step> | IsRun(cfg, 0, run, steps) ensures run[|run| - 1].refusal != ByStreamBudget {
      RunNotRefusedByBudget(cfg, 0, run, steps, |run| - 1);
    }
  }

  // ----- slots ------------------------------------------------------------------------------

  lemma {:induction false} RunNotRefusedBySlots(cfg: Config, f: nat, run: seq<State>, steps: seq<Step>, k: nat)
    requires Sensible(cfg) && 0 < f && W(cfg) / f <= cfg.slots && IsRun(cfg, f, run, steps) && k < |run|
    ensures run[k].refusal != BySlots
  {
    if k > 0 {
      RunNotRefusedBySlots(cfg, f, run, steps, k - 1);
      RunInv(cfg, f, run, steps, k - 1);
      assert StepTo(cfg, f, run[k - 1], steps[k - 1], run[k - 1 + 1]);
      NotRefusedBySlots(cfg, f, run[k - 1], steps[k - 1], run[k]);
    }
  }

  lemma NotRefusedBySlots(cfg: Config, f: nat, s: State, step: Step, s': State)
    requires 0 < f && W(cfg) / f <= cfg.slots && Inv(cfg, f, s) && Next(cfg, s, step) == Some(s') && s.refusal != BySlots
    ensures s'.refusal != BySlots
  {
    if s'.refusal != s.refusal {
      RefusalComesFromArrival(cfg, s, step, s');
      ArrivalFits(cfg, f, s);
      SumCount(s.queue, f);
      FewerFrames(|s.queue|, f, W(cfg), cfg.slots);
    }
  }

  // (q + 1) frames of f bytes fit into w, so q is below w / f.
  lemma FewerFrames(q: nat, f: nat, w: nat, slots: nat)
    requires 0 < f && q * f + f <= w && w / f <= slots
    ensures q < slots
  {
    assert (q + 1) * f <= w;
    QuotientAtLeast(w, f, q + 1);
  }

  lemma QuotientAtLeast(w: nat, f: nat, k: nat)
    requires 0 < f && k * f <= w
    ensures k <= w / f
  {
    assert w < (w / f + 1) * f;
    assert k * f < (w / f + 1) * f;
  }

  function Copies(f: nat, k: nat): seq<nat> { if k == 0 then [] else Copies(f, k - 1) + [f] }

  lemma {:induction false} CopiesSum(f: nat, k: nat)
    ensures |Copies(f, k)| == k && Sum(Copies(f, k)) == k * f
  {
    if k > 0 {
      CopiesSum(f, k - 1);
      SumConcat(Copies(f, k - 1), [f]);
    }
  }

  /** k frames of f bytes queued, the rest of the window back in the sender's hand. */
  function Loaded(cfg: Config, f: nat, k: nat): State {
    State(Credit(W(cfg) - k * f, cfg.limit, false, 0), [], Copies(f, k), [], [], [], [], false, NotRefused, false, Open, false)
  }

  // The receiver's first grant reaches the sender.
  lemma Ready(cfg: Config, f: nat) returns (run: seq<State>, steps: seq<Step>)
    requires Sensible(cfg)
    ensures IsRun(cfg, f, run, steps) && run[|run| - 1] == Loaded(cfg, f, 0)
  {
    EmptyRun(cfg, f);
    run, steps := [Init(cfg)], [];
    if cfg.grant > 0 {
      assert [cfg.grant][1..] == [];
      ExtendRun(cfg, f, run, steps, CreditArrives, Loaded(cfg, f, 0));
      run, steps := run + [Loaded(cfg, f, 0)], steps + [CreditArrives];
    }
  }

  lemma SendOne(cfg: Config, f: nat, run: seq<State>, steps: seq<Step>, k: nat) returns (run': seq<State>, steps': seq<Step>)
    requires Sensible(cfg) && 0 < f <= MaxDataPayload && k * f + f <= W(cfg)
    requires IsRun(cfg, f, run, steps) && run[|run| - 1] == Loaded(cfg, f, k)
    ensures IsRun(cfg, f, run', steps')
    ensures run'[|run'| - 1] == Loaded(cfg, f, k).(window := Credit(W(cfg) - k * f - f, cfg.limit, false, 0), wire := [f])
  {
    var s := Loaded(cfg, f, k);
    var s' := s.(window := Credit(W(cfg) - k * f - f, cfg.limit, false, 0), wire := [f]);
    assert s.wire + [f] == [f];
    assert k * f >= 0;
    ExtendRun(cfg, f, run, steps, Send(f), s');
    run', steps' := run + [s'], steps + [Send(f)];
  }

  lemma {:induction false} LoadSlots(cfg: Config, f: nat, k: nat) returns (run: seq<State>, steps: seq<Step>)
    requires Sensible(cfg) && W(cfg) <= cfg.budget && 0 < f <= MaxDataPayload && k <= cfg.slots && k * f <= W(cfg)
    ensures IsRun(cfg, f, run, steps) && run[|run| - 1] == Loaded(cfg, f, k)
  {
    if k == 0 {
      run, steps := Ready(cfg, f);
    } else {
      assert (k - 1) * f + f == k * f;
      run, steps := LoadSlots(cfg, f, k - 1);
      run, steps := SendOne(cfg, f, run, steps, k - 1);
      CopiesSum(f, k - 1);
      var s := run[|run| - 1];
      assert Sum([]) == 0 && [f][1..] == [];
      assert Verdict(cfg, s, f) == NotRefused;
      ExtendRun(cfg, f, run, steps, Arrive, Loaded(cfg, f, k));
      run, steps := run + [Loaded(cfg, f, k)], steps + [Arrive];
    }
  }

  lemma OverloadSlots(cfg: Config, f: nat)
    requires Sensible(cfg) && W(cfg) <= cfg.budget && 0 < f <= MaxDataPayload && cfg.slots * f + f <= W(cfg)
    ensures SomeRunRefuses(cfg, f, BySlots)
  {
    assert cfg.slots * f <= W(cfg);
    var run, steps := LoadSlots(cfg, f, cfg.slots);
    run, steps := SendOne(cfg, f, run, steps, cfg.slots);
    CopiesSum(f, cfg.slots);
    var s := run[|run| - 1];
    assert Sum([]) == 0;
    assert Verdict(cfg, s, f) == BySlots;
    var s' := s.(wire := s.wire[1..], lost := true, refusal := BySlots);
    ExtendRun(cfg, f, run, steps, Arrive, s');
    var run', steps' := run + [s'], steps + [Arrive];
    assert IsRun(cfg, f, run', steps') && run'[|run'| - 1].refusal == BySlots;
  }

  /** With frames of at least f bytes, the slot count can bind before the byte budget exactly if it is below W / f. */
  lemma SlotsBindIff(cfg: Config, f: nat)
    requires Sensible(cfg) && W(cfg) <= cfg.budget && 0 < f <= MaxDataPayload
    ensures SomeRunRefuses(cfg, f, BySlots) <==> cfg.slots < W(cfg) / f
  {
    if cfg.slots < W(cfg) / f {
      EnoughFrames(cfg.slots, f, W(cfg));
      OverloadSlots(cfg, f);
    } else {
      forall run: seq<State>, steps: seq<Step> | IsRun(cfg, f, run, steps) ensures run[|run| - 1].refusal != BySlots {
        RunNotRefusedBySlots(cfg, f, run, steps, |run| - 1);
      }
    }
  }

  lemma EnoughFrames(q: nat, f: nat, w: nat)
    requires 0 < f && q < w / f
    ensures q * f + f <= w
  {
    assert (q + 1) * f <= (w / f) * f;
  }

  /** The slot sizing of both peers: frames of at least 4096 bytes never run out of slots first. */
  lemma SlotsFollowTheBudget(cfg: Config, bytes: nat, frames: nat, f: nat)
    requires (cfg == Request(bytes, frames) && bytes >= HeaderAllowance) || (cfg == Response(bytes, frames) && bytes > 0)
    requires 4096 <= f <= 1048576
    ensures !SomeRunRefuses(cfg, f, BySlots)
  {
    assert W(cfg) <= cfg.budget == bytes;
    SmallerQuotient(W(cfg), bytes, f);
    SlotsBindIff(cfg, f);
  }

  lemma ProductGrows(q: nat, a: nat, b: nat)
    requires a <= b
    ensures q * a <= q * b
  {
  }

  lemma SmallerQuotient(w: nat, bytes: nat, f: nat)
    requires w <= bytes && MinTunnelFrame <= f
    ensures w / f <= bytes / MinTunnelFrame
  {
    ProductGrows(w / f, MinTunnelFrame, f);
    QuotientAtLeast(bytes, MinTunnelFrame, w / f);
  }

  // ----- how much window there is ---------------------------------------------------------------

  function Min(a: nat, b: nat): nat { if a < b then a else b }

  /**
    The window each direction opens, in terms of the receiver's byte budget: the whole
    budget up to the contract's ceiling, and never less than the header allowance on
    requests.  The sender's limit is the largest window there can be.
   */
  lemma WindowSizes(bytes: nat, frames: nat)
    ensures W(Request(bytes, frames)) == if bytes <= HeaderAllowance then HeaderAllowance else Min(bytes, MaxWindowCredit + HeaderAllowance)
    ensures W(Response(bytes, frames)) == if bytes == 0 then 1 else Min(bytes, MaxWindowCredit)
    ensures W(Request(bytes, frames)) <= Request(bytes, frames).limit == W(Request(MaxWindowCredit + HeaderAllowance, frames))
    ensures W(Response(bytes, frames)) <= Response(bytes, frames).limit == W(Response(MaxWindowCredit, frames))
  {
  }

  /** In some run n bytes are queued at the receiver at once, with nothing lost. */
  ghost predicate CanQueue(cfg: Config, n: nat) {
    exists run: seq<State>, steps: seq<Step> :: Queues(cfg, run, steps, n)
  }

  ghost predicate Queues(cfg: Config, run: seq<State>, steps: seq<Step>, n: nat) {
    IsRun(cfg, 0, run, steps) && !run[|run| - 1].lost && Sum(run[|run| - 1].queue) == n
  }

  /** n bytes in frames as large as they can be. */
  function Chopped(n: nat): seq<nat> {
    if n == 0 then [] else if n <= MaxDataPayload then [n] else Chopped(n - MaxDataPayload) + [MaxDataPayload]
  }

  lemma {:induction false} ChoppedSum(n: nat, slots: nat)
    requires n <= slots * MaxDataPayload
    ensures Sum(Chopped(n)) == n && |Chopped(n)| <= slots
  {
    if n > MaxDataPayload {
      ChoppedSum(n - MaxDataPayload, slots - 1);
      SumConcat(Chopped(n - MaxDataPayload), [MaxDataPayload]);
    }
  }

  /** n bytes queued, the rest of the window in the sender's hand. */
  function Stuffed(cfg: Config, n: nat): State {
    Loaded(cfg, 0, 0).(window := Credit(W(cfg) - n, cfg.limit, false, 0), queue := Chopped(n))
  }

  // One more frame goes through, from a state in which the queue has room for it.
  lemma StuffOne(cfg: Config, run: seq<State>, steps: seq<Step>, m: nat, n: nat) returns (run': seq<State>, steps': seq<Step>)
    requires Sensible(cfg) && W(cfg) <= cfg.budget && m < n <= W(cfg) && n - m <= MaxDataPayload
    requires Chopped(n) == Chopped(m) + [n - m] && Sum(Chopped(m)) == m && |Chopped(m)| < cfg.slots
    requires IsRun(cfg, 0, run, steps) && run[|run| - 1] == Stuffed(cfg, m)
    ensures IsRun(cfg, 0, run', steps') && run'[|run'| - 1] == Stuffed(cfg, n)
  {
    var s, f := Stuffed(cfg, m), n - m;
    var sent := s.(window := Credit(W(cfg) - n, cfg.limit, false, 0), wire := [f]);
    assert s.wire + [f] == [f] && [f][1..] == [] && Sum([]) == 0;
    ExtendRun(cfg, 0, run, steps, Send(f), sent);
    assert Verdict(cfg, sent, f) == NotRefused;
    ExtendRun(cfg, 0, run + [sent], steps + [Send(f)], Arrive, Stuffed(cfg, n));
    run', steps' := run + [sent] + [Stuffed(cfg, n)], steps + [Send(f)] + [Arrive];
  }

  lemma {:induction false} Stuff(cfg: Config, n: nat) returns (run: seq<State>, steps: seq<Step>)
    requires Sensible(cfg) && W(cfg) <= cfg.budget && n <= W(cfg) && n <= cfg.slots * MaxDataPayload
    ensures IsRun(cfg, 0, run, steps) && run[|run| - 1] == Stuffed(cfg, n)
  {
    if n == 0 {
      run, steps := Ready(cfg, 0);
    } else {
      var m := if n > MaxDataPayload then n - MaxDataPayload else 0;
      run, steps := Stuff(cfg, m);
      ChoppedSum(m, cfg.slots - 1);
      run, steps := StuffOne(cfg, run, steps, m, n);
    }
  }

  /** The whole window can stand in the receiver's queue at once, and nothing more. */
  lemma WholeWindowUsable(cfg: Config, n: nat)
    requires Sensible(cfg) && W(cfg) <= cfg.budget && W(cfg) <= cfg.slots * MaxDataPayload
    ensures CanQueue(cfg, n) <==> n <= W(cfg)
  {
    if n <= W(cfg) {
      var run, steps := Stuff(cfg, n);
      ChoppedSum(n, cfg.slots);
      assert Queues(cfg, run, steps, n);
    } else if CanQueue(cfg, n) {
      var run, steps :| Queues(cfg, run, steps, n);
      RunInv(cfg, 0, run, steps, |run| - 1);
    }
  }

  lemma EnoughSlots(bytes: nat, frames: nat)
    requires frames > 0
    ensures bytes <= StreamQueueFrames(frames, bytes) * MaxDataPayload
  {
    var slots := StreamQueueFrames(frames, bytes);
    if bytes > MaxDataPayload { assert bytes < (bytes / MinTunnelFrame) * MaxDataPayload; }
    assert bytes / MinTunnelFrame <= slots && 1 <= slots;
  }

  lemma RequestUsable(bytes: nat, frames: nat, n: nat)
    requires frames > 0 && bytes >= HeaderAllowance
    ensures CanQueue(Request(bytes, frames), n) <==> n <= Min(bytes, MaxWindowCredit + HeaderAllowance)
  {
    WindowSizes(bytes, frames);
    EnoughSlots(bytes, frames);
    WholeWindowUsable(Request(bytes, frames), n);
  }

  lemma ResponseUsable(bytes: nat, frames: nat, n: nat)
    requires frames > 0 && bytes > 0
    ensures CanQueue(Response(bytes, frames), n) <==> n <= Min(bytes, MaxWindowCredit)
  {
    WindowSizes(bytes, frames);
    EnoughSlots(bytes, frames);
    WholeWindowUsable(Response(bytes, frames), n);
  }

  /**
    So with the peers' own sizing the receiver's budget can be used to the last byte,
    up to the contract's ceiling, in either direction.
   */
  lemma WholeBudgetUsable(bytes: nat, frames: nat, n: nat)
    requires frames > 0  // Limits.valid
    ensures bytes >= 65536 ==> (CanQueue(Request(bytes, frames), n) <==> n <= Min(bytes, 8388608 + 65536))
    ensures bytes > 0 ==> (CanQueue(Response(bytes, frames), n) <==> n <= Min(bytes, 8388608))
  {
    if bytes >= 65536 { RequestUsable(bytes, frames, n); }
    if bytes > 0 { ResponseUsable(bytes, frames, n); }
  }

  // ----- no credit deadlock -------------------------------------------------------------------

  /** Nothing on the wire, nothing with the receiver, no credit on its way. */
  ghost predicate Quiescent(s: State) {
    s.wire == [] && s.queue == [] && s.tail == [] && s.taken == [] && s.uncredited == [] && s.credits == []
  }

  /** In a quiescent state with nothing lost the sender holds the whole window again. */
  lemma QuiescentMeansFullWindow(cfg: Config, run: seq<State>, steps: seq<Step>, k: nat, n: nat)
    requires Sensible(cfg) && IsRun(cfg, 0, run, steps) && k < |run|
    requires !run[k].lost && Quiescent(run[k])
    ensures run[k].window.credit == W(cfg)
    ensures 0 < n <= MaxDataPayload && run[k].phase.Open? ==> (Next(cfg, run[k], Send(n)).Some? <==> n <= W(cfg))
  {
    RunInv(cfg, 0, run, steps, k);
  }

  /** A chunk larger than W is never sendable, in any state of any run. */
  lemma LargerChunksNeverGo(cfg: Config, run: seq<State>, steps: seq<Step>, k: nat, n: nat)
    requires Sensible(cfg) && IsRun(cfg, 0, run, steps) && k < |run| && n > W(cfg)
    ensures Next(cfg, run[k], Send(n)).None?
  {
    RunInv(cfg, 0, run, steps, k);
  }

  /** Steps that neither send new data nor lose anything. */
  ghost predicate Helpful(step: Step) {
    step.Arrive? || step.Drain? || step.Drained? || step.Dequeue? || step.DequeueTail? || step.Release? || step.Grant? || step.CreditArrives?
  }

  function Distance(s: State): nat {
    6 * |s.wire| + 5 * |s.queue| + (if s.tail != [] then 4 else 0) + (if s.phase.Draining? then 1 else 0) + 3 * |s.taken| + 2 * |s.uncredited| + |s.credits|
  }

  /** Every helpful step brings the direction strictly closer to quiescence, whatever the schedule. */
  lemma HelpfulStepsProgress(cfg: Config, s: State, step: Step, s': State)
    requires Helpful(step) && Next(cfg, s, step) == Some(s')
    ensures Distance(s') < Distance(s)
  {
  }

  /** The next helpful step: oldest obligations first, and no receive past a drained frame. */
  function Help(s: State): Step {
    if s.credits != [] then CreditArrives
    else if s.uncredited != [] then Grant
    else if s.taken != [] then Release
    else if s.queue != [] then if s.phase.Draining? then Drain else Dequeue
    else if s.tail != [] then if s.phase.Draining? then Drained else DequeueTail
    else Arrive
  }

  lemma HelpIsEnabled(cfg: Config, s: State)
    requires Sensible(cfg) && W(cfg) <= cfg.budget && cfg.slots > 0 && Inv(cfg, 0, s) && !s.lost && !Quiescent(s)
    ensures Helpful(Help(s)) && Next(cfg, s, Help(s)).Some?
    ensures !Next(cfg, s, Help(s)).value.lost && Next(cfg, s, Help(s)).value.overtaken == s.overtaken
  {
    if Help(s).Arrive? { ArrivalFits(cfg, 0, s); }
  }

  /** From any lossless state of any run, the peers can return the whole window to the sender without new data. */
  lemma {:induction false} WindowReturns(cfg: Config, run: seq<State>, steps: seq<Step>) returns (run': seq<State>, steps': seq<Step>)
    requires Sensible(cfg) && W(cfg) <= cfg.budget && cfg.slots > 0 && IsRun(cfg, 0, run, steps) && !run[|run| - 1].lost
    ensures IsRun(cfg, 0, run', steps') && run <= run' && steps <= steps'
    ensures forall k :: |steps| <= k < |steps'| ==> Helpful(steps'[k])
    ensures run'[|run'| - 1].window.credit == W(cfg) && Quiescent(run'[|run'| - 1]) && !run'[|run'| - 1].lost
    ensures run'[|run'| - 1].overtaken == run[|run| - 1].overtaken
    decreases Distance(run[|run| - 1])
  {
    var s := run[|run| - 1];
    RunInv(cfg, 0, run, steps, |run| - 1);
    if Quiescent(s) {
      run', steps' := run, steps;
    } else {
      HelpIsEnabled(cfg, s);
      var next := Next(cfg, s, Help(s)).value;
      HelpfulStepsProgress(cfg, s, Help(s), next);
      ExtendRun(cfg, 0, run, steps, Help(s), next);
      run', steps' := WindowReturns(cfg, run + [next], steps + [Help(s)]);
      assert steps'[|steps|] == Help(s);
    }
  }
}
