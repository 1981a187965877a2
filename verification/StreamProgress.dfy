/** No deadlock among the goroutines of a stream. */
module StreamProgress {
  // From every reachable state of `StreamLedger`, whatever holds the queue lock, a stream can
  // be brought to its end, and until a discard begins its reader can get everything that
  // was accepted.

  import opened Common
  import opened StreamLedger
  import opened StreamDelivery

  // ----- one stream ------------------------------------------------------------------------

  /** A bound on the steps until the enqueuer rests; a push adds a chunk to the queue. */
  function EnqueueWork(enq: Enqueuer): int {
    match enq case Resting => 0 case Acquiring(_, held) => 40 - 2 * held case Undoing(_, held) => 2 * held
  }

  function FinishWork(fin: Finisher): nat {
    match fin case NotFinished => 3 case Draining => 2 case Dropping(_, held) => held + 3 case Finished => 0
  }

  function DiscardWork(dis: Discarder): nat {
    match dis
    case NotDiscarded => 20
    case Emptying => 10
    case Dumping(_, held) => held + 11
    case SeenEmpty => 9
    case Discarding(_, held) => held + 1
    case Discarded => 0
  }

  function StopWork(rd: Reader): nat {
    match rd case Releasing(_, held) => held + 2 case Waiting => 1 case Ended => 0 case Stopped => 0
  }

  /** What is left to do until the stream is finished, discarded on the Gateway, and its reader gone. */
  function EndWork(cfg: Config, st: StreamState): int {
    EnqueueWork(st.enq) + 10 * |st.queue| + StopWork(st.rd) + FinishWork(st.fin) + (if cfg.retain then DiscardWork(st.dis) else 0)
  }

  predicate Over(cfg: Config, st: StreamState) {
    st.enq.Resting? && st.fin.Finished? && (st.rd.Stopped? || st.rd.Ended?) && (cfg.retain ==> st.dis.Discarded?)
  }

  /** The enqueuer's next action, whatever the budgets answer. */
  function EnqueuerNext(cfg: Config, st: StreamState): Action
    requires !st.enq.Resting?
  {
    if st.enq.Undoing? then Undo else if st.enq.held < cfg.levels then AcquireNext else Push
  }

  function FinisherNext(st: StreamState): Action
    requires !st.fin.Finished?
  {
    if st.fin.NotFinished? then Finish else if st.fin.Dropping? then DropNext else if st.queue != [] then Drain else Ready
  }

  function DiscarderNext(st: StreamState): Action
    requires !st.dis.Discarded?
  {
    match st.dis
    case NotDiscarded => Discard
    case Emptying => if st.queue != [] then Dump else SeeEmpty
    case Dumping(_, _) => DumpNext
    case SeenEmpty => Seal
    case Discarding(_, _) => DiscardNext
    case Discarded => SeeEmpty
  }

  function ReaderLeaves(st: StreamState): Action {
    if !st.rd.Releasing? then Stop else if st.rd.held > 0 then ReleaseNext else Deliver
  }

  /** Who moves next towards the end. */
  function EndNext(cfg: Config, st: StreamState): Action
    requires !Over(cfg, st)
  {
    if !st.enq.Resting? then EnqueuerNext(cfg, st)
    else if !(st.rd.Stopped? || st.rd.Ended?) then ReaderLeaves(st)
    else if !st.fin.Finished? then FinisherNext(st)
    else DiscarderNext(st)
  }

  lemma EnqueuerAdvances(cfg: Config, st: StreamState, fits: bool)
    requires ValidConfig(cfg) && LocalShape(cfg, st) && !st.enq.Resting?
    ensures var m := EnqueueMove(cfg, st, fits, EnqueuerNext(cfg, st));
      && m.Some? && EnqueueWork(m.value.st.enq) + 10 * |m.value.st.queue| < EnqueueWork(st.enq) + 10 * |st.queue|
      && m.value.st == st.(enq := m.value.st.enq, queue := m.value.st.queue, accepted := m.value.st.accepted)
      && st.accepted <= m.value.st.accepted
  {
  }

  lemma FinisherAdvances(cfg: Config, st: StreamState)
    requires ValidConfig(cfg) && LocalShape(cfg, st) && st.enq.Resting? && !st.fin.Finished?
    ensures var m := FinishMove(cfg, st, FinisherNext(st));
      && m.Some? && FinishWork(m.value.st.fin) + 10 * |m.value.st.queue| + 8 * |m.value.st.tail| < FinishWork(st.fin) + 10 * |st.queue| + 8 * |st.tail|
      && FinishWork(m.value.st.fin) + 10 * |m.value.st.queue| < FinishWork(st.fin) + 10 * |st.queue|
      && m.value.st == st.(fin := m.value.st.fin, queue := m.value.st.queue, tail := m.value.st.tail, gone := m.value.st.gone)
  {
  }

  lemma DiscarderAdvances(cfg: Config, st: StreamState)
    requires ValidConfig(cfg) && LocalShape(cfg, st) && cfg.retain && st.enq.Resting? && st.fin.Finished? && !st.dis.Discarded?
    ensures var m := DiscardMove(cfg, st, DiscarderNext(st));
      && m.Some? && DiscardWork(m.value.st.dis) + 10 * |m.value.st.queue| < DiscardWork(st.dis) + 10 * |st.queue|
      && m.value.st.enq == st.enq && m.value.st.rd == st.rd && m.value.st.fin == st.fin && m.value.st.accepted == st.accepted
  {
  }

  lemma ReaderAdvances(cfg: Config, st: StreamState)
    requires !(st.rd.Stopped? || st.rd.Ended?)
    ensures var m := ReadMove(cfg, st, ReaderLeaves(st));
      && m.Some? && StopWork(m.value.st.rd) < StopWork(st.rd)
      && m.value.st.enq == st.enq && m.value.st.queue == st.queue && m.value.st.fin == st.fin && m.value.st.dis == st.dis
      && m.value.st.accepted == st.accepted
  {
  }

  predicate Sooner(cfg: Config, st: StreamState, m: Option<Move>) {
    m.Some? && EndWork(cfg, m.value.st) < EndWork(cfg, st)
  }

  lemma EnqueuerEnds(cfg: Config, st: StreamState, fits: bool)
    requires ValidConfig(cfg) && LocalShape(cfg, st) && !st.enq.Resting?
    ensures Sooner(cfg, st, LocalMove(cfg, st, fits, EnqueuerNext(cfg, st)))
  {
    EnqueuerAdvances(cfg, st, fits);
  }

  lemma ReaderEnds(cfg: Config, st: StreamState, fits: bool)
    requires !(st.rd.Stopped? || st.rd.Ended?)
    ensures Sooner(cfg, st, LocalMove(cfg, st, fits, ReaderLeaves(st)))
  {
    ReaderAdvances(cfg, st);
  }

  lemma FinisherEnds(cfg: Config, st: StreamState, fits: bool)
    requires ValidConfig(cfg) && LocalShape(cfg, st) && st.enq.Resting? && !st.fin.Finished?
    ensures Sooner(cfg, st, LocalMove(cfg, st, fits, FinisherNext(st)))
  {
    FinisherAdvances(cfg, st);
  }

  lemma DiscarderEnds(cfg: Config, st: StreamState, fits: bool)
    requires ValidConfig(cfg) && LocalShape(cfg, st) && cfg.retain && st.enq.Resting? && st.fin.Finished? && !st.dis.Discarded?
    ensures Sooner(cfg, st, LocalMove(cfg, st, fits, DiscarderNext(st)))
  {
    DiscarderAdvances(cfg, st);
  }

  lemma EndAdvances(cfg: Config, st: StreamState, fits: bool)
    requires ValidConfig(cfg) && LocalShape(cfg, st) && !Over(cfg, st)
    ensures Sooner(cfg, st, LocalMove(cfg, st, fits, EndNext(cfg, st)))
  {
    if !st.enq.Resting? { EnqueuerEnds(cfg, st, fits); }
    else if !(st.rd.Stopped? || st.rd.Ended?) { ReaderEnds(cfg, st, fits); }
    else if !st.fin.Finished? { FinisherEnds(cfg, st, fits); }
    else { DiscarderEnds(cfg, st, fits); }
  }

  lemma EndWorkNonNegative(cfg: Config, st: StreamState)
    requires ValidConfig(cfg) && LocalShape(cfg, st)
    ensures EndWork(cfg, st) >= 0
  {
  }

  // ----- the system --------------------------------------------------------------------------

  /** One action of stream `i`, as a step of the system. */
  lemma ActSteps(cfg: Config, sys: System, i: nat, a: Action)
    requires Indexed(sys, i) && LocalShape(cfg, sys.streams[i]) && LocalMove(cfg, sys.streams[i], NextFits(cfg, sys, i), a).Some?
    ensures var sys' := Next(cfg, sys, Act(i, a));
      sys'.Some? && i < |sys'.value.streams| && sys'.value.streams[i] == LocalMove(cfg, sys.streams[i], NextFits(cfg, sys, i), a).value.st
  {
    MoveCharges(cfg, sys.streams[i], NextFits(cfg, sys, i), a);
  }

  lemma Acts(cfg: Config, run: seq<System>, i: nat, a: Action) returns (run': seq<System>, fits: bool)
    requires ValidConfig(cfg) && IsRun(cfg, run) && i < |run[|run| - 1].streams|
    requires LocalMove(cfg, run[|run| - 1].streams[i], true, a).Some? && LocalMove(cfg, run[|run| - 1].streams[i], false, a).Some?
    ensures IsRun(cfg, run') && |run'| == |run| + 1 && run <= run' && i < |run'[|run|].streams|
    ensures run'[|run|].streams[i] == LocalMove(cfg, run[|run| - 1].streams[i], fits, a).value.st
  {
    var sys := run[|run| - 1];
    StreamIsSound(cfg, run, i);
    fits := NextFits(cfg, sys, i);
    ActSteps(cfg, sys, i, a);
    ExtendRun(cfg, run, Act(i, a), Next(cfg, sys, Act(i, a)).value);
    run' := run + [Next(cfg, sys, Act(i, a)).value];
  }

  lemma StreamIsSound(cfg: Config, run: seq<System>, i: nat)
    requires ValidConfig(cfg) && IsRun(cfg, run) && i < |run[|run| - 1].streams|
    ensures Indexed(run[|run| - 1], i) && LocalShape(cfg, run[|run| - 1].streams[i]) && LocalBytes(run[|run| - 1].streams[i])
  {
    LedgerExactInEveryRun(cfg, run, |run| - 1);
    assert LocalInv(cfg, run[|run| - 1].streams[i]);
  }

  lemma EndStep(cfg: Config, run: seq<System>, i: nat) returns (run': seq<System>)
    requires ValidConfig(cfg) && IsRun(cfg, run) && i < |run[|run| - 1].streams| && !Over(cfg, run[|run| - 1].streams[i])
    ensures IsRun(cfg, run') && |run'| == |run| + 1 && run <= run' && i < |run'[|run|].streams|
    ensures 0 <= EndWork(cfg, run'[|run|].streams[i]) < EndWork(cfg, run[|run| - 1].streams[i])
  {
    var st := run[|run| - 1].streams[i];
    StreamIsSound(cfg, run, i);
    EndAdvances(cfg, st, true);
    EndAdvances(cfg, st, false);
    var fits;
    run', fits := Acts(cfg, run, i, EndNext(cfg, st));
    StreamIsSound(cfg, run', i);
    EndWorkNonNegative(cfg, run'[|run|].streams[i]);
  }

  /**
    From every state of every run of either peer, each stream can be brought to its
    end by its own goroutines alone: finished, discarded on the Gateway, its reader
    gone and nothing in the enqueuer's hand.
   */
  lemma {:induction false} EveryStreamCanEnd(cfg: Config, run: seq<System>, i: nat) returns (run': seq<System>)
    requires ValidConfig(cfg) && IsRun(cfg, run) && i < |run[|run| - 1].streams|
    ensures IsRun(cfg, run') && run <= run' && i < |run'[|run'| - 1].streams| && Over(cfg, run'[|run'| - 1].streams[i])
    decreases EndWork(cfg, run[|run| - 1].streams[i])
  {
    if Over(cfg, run[|run| - 1].streams[i]) {
      run' := run;
    } else {
      var longer := EndStep(cfg, run, i);
      run' := EveryStreamCanEnd(cfg, longer, i);
    }
  }

  // ----- the reader gets everything ------------------------------------------------------------

  function ReadWork(st: StreamState): nat {
    match st.rd
    case Releasing(_, held) => held + 4
    case Waiting => 1 + (if st.buffer != [] then 1 else 0)
    case Ended => 0
    case Stopped => 0
  }

  /** What is left to do until the reader has seen the end. */
  function DeliveryWork(st: StreamState): int {
    EnqueueWork(st.enq) + 10 * |st.queue| + 8 * |st.tail| + FinishWork(st.fin) + ReadWork(st)
  }

  predicate Reading(st: StreamState) { (st.rd.Waiting? || st.rd.Releasing?) && st.dis.NotDiscarded? }

  function ReaderNext(st: StreamState): Action {
    if st.rd.Releasing? then (if st.rd.held > 0 then ReleaseNext else Deliver)
    else if st.buffer != [] then Copy(|st.buffer|)
    else if Deliverable(st) then TakeTail
    else End
  }

  /** Who moves next towards the end of the stream as the reader sees it. */
  function DeliveryNext(cfg: Config, st: StreamState): Action {
    if !st.enq.Resting? then EnqueuerNext(cfg, st)
    else if !st.fin.Finished? then FinisherNext(st)
    else ReaderNext(st)
  }

  lemma ReaderDelivers(cfg: Config, st: StreamState)
    requires ValidConfig(cfg) && cfg.retain && LocalShape(cfg, st) && LocalBytes(st) && Reading(st) && st.enq.Resting? && st.fin.Finished?
    ensures var m := ReadMove(cfg, st, ReaderNext(st));
      && m.Some? && ReadWork(m.value.st) + 8 * |m.value.st.tail| < ReadWork(st) + 8 * |st.tail|
      && m.value.st.enq == st.enq && m.value.st.queue == st.queue && m.value.st.fin == st.fin && m.value.st.dis == st.dis
      && m.value.st.accepted == st.accepted && m.value.st.overtaken == st.overtaken && m.value.st.readPast == st.readPast
      && (Reading(m.value.st) || m.value.st.rd.Ended?)
  {
  }

  /** A step towards the end of the stream that loses nothing and overtakes nothing. */
  predicate Closer(st: StreamState, st': StreamState) {
    && DeliveryWork(st') < DeliveryWork(st) && st.accepted <= st'.accepted && st'.readPast == st.readPast && st'.dis == st.dis
    && (Reading(st') || st'.rd.Ended?)
  }

  lemma EnqueuerCloser(cfg: Config, st: StreamState, fits: bool)
    requires ValidConfig(cfg) && LocalShape(cfg, st) && Reading(st) && !st.enq.Resting?
    ensures var m := LocalMove(cfg, st, fits, EnqueuerNext(cfg, st)); m.Some? && Closer(st, m.value.st)
  {
    EnqueuerAdvances(cfg, st, fits);
  }

  lemma FinisherCloser(cfg: Config, st: StreamState, fits: bool)
    requires ValidConfig(cfg) && LocalShape(cfg, st) && Reading(st) && st.enq.Resting? && !st.fin.Finished?
    ensures var m := LocalMove(cfg, st, fits, FinisherNext(st)); m.Some? && Closer(st, m.value.st)
  {
    FinisherAdvances(cfg, st);
  }

  lemma ReaderCloser(cfg: Config, st: StreamState, fits: bool)
    requires ValidConfig(cfg) && cfg.retain && LocalShape(cfg, st) && LocalBytes(st) && Reading(st) && st.enq.Resting? && st.fin.Finished?
    ensures var m := LocalMove(cfg, st, fits, ReaderNext(st)); m.Some? && Closer(st, m.value.st)
  {
    ReaderDelivers(cfg, st);
  }

  lemma DeliveryAdvances(cfg: Config, st: StreamState, fits: bool)
    requires ValidConfig(cfg) && cfg.retain && LocalShape(cfg, st) && LocalBytes(st) && Reading(st)
    ensures var m := LocalMove(cfg, st, fits, DeliveryNext(cfg, st)); m.Some? && Closer(st, m.value.st)
  {
    if !st.enq.Resting? { EnqueuerCloser(cfg, st, fits); }
    else if !st.fin.Finished? { FinisherCloser(cfg, st, fits); }
    else { ReaderCloser(cfg, st, fits); }
  }

  lemma DeliveryStep(cfg: Config, run: seq<System>, i: nat) returns (run': seq<System>)
    requires ValidConfig(cfg) && cfg.retain && IsRun(cfg, run) && i < |run[|run| - 1].streams| && Reading(run[|run| - 1].streams[i])
    ensures IsRun(cfg, run') && |run'| == |run| + 1 && run <= run' && i < |run'[|run|].streams|
    ensures Closer(run[|run| - 1].streams[i], run'[|run|].streams[i]) && DeliveryWork(run'[|run|].streams[i]) >= 0
  {
    var st := run[|run| - 1].streams[i];
    StreamIsSound(cfg, run, i);
    DeliveryAdvances(cfg, st, true);
    DeliveryAdvances(cfg, st, false);
    var fits;
    run', fits := Acts(cfg, run, i, DeliveryNext(cfg, st));
    StreamIsSound(cfg, run', i);
    DeliveryWorkNonNegative(cfg, run'[|run|].streams[i]);
  }

  lemma DeliveryWorkNonNegative(cfg: Config, st: StreamState)
    requires ValidConfig(cfg) && LocalShape(cfg, st)
    ensures DeliveryWork(st) >= 0
  {
  }

  lemma {:induction false} ReaderReachesTheEnd(cfg: Config, run: seq<System>, i: nat) returns (run': seq<System>)
    requires ValidConfig(cfg) && cfg.retain && IsRun(cfg, run) && i < |run[|run| - 1].streams| && Reading(run[|run| - 1].streams[i])
    ensures IsRun(cfg, run') && run <= run' && i < |run'[|run'| - 1].streams|
    ensures var st, st' := run[|run| - 1].streams[i], run'[|run'| - 1].streams[i];
      st'.rd.Ended? && st'.dis.NotDiscarded? && st.accepted <= st'.accepted && st'.readPast == st.readPast
    decreases DeliveryWork(run[|run| - 1].streams[i])
  {
    var longer := DeliveryStep(cfg, run, i);
    if longer[|run|].streams[i].rd.Ended? {
      run' := longer;
    } else {
      run' := ReaderReachesTheEnd(cfg, longer, i);
    }
  }

  /**
    From every state of every run in which a Gateway stream is still being read and no
    discard has begun, its reader can get every byte and every datagram accepted so
    far, in order unless one of its receives has already passed a drained chunk.
   */
  lemma EverythingCanBeDelivered(cfg: Config, run: seq<System>, i: nat) returns (run': seq<System>)
    requires ValidConfig(cfg) && cfg.retain && IsRun(cfg, run) && i < |run[|run| - 1].streams| && Reading(run[|run| - 1].streams[i])
    ensures IsRun(cfg, run') && run <= run' && i < |run'[|run'| - 1].streams|
    ensures var st, st' := run[|run| - 1].streams[i], run'[|run'| - 1].streams[i];
      && st'.rd.Ended? && st.accepted <= st'.accepted
      && (forall c :: Matters(st', c) ==> c in st'.delivered)
      && (!st.readPast ==> if st'.datagram then st'.delivered == st'.accepted else st'.returned == Flatten(st'.accepted))
  {
    run' := ReaderReachesTheEnd(cfg, run, i);
    var k := |run'| - 1;
    LedgerExactInEveryRun(cfg, run', k);
    assert LocalInv(cfg, run'[k].streams[i]);
    EndDeliversEverythingIff(cfg, run', k, i);
    if !run'[k].streams[i].readPast { EndDeliversInOrderIff(cfg, run', k, i); }
  }
}
