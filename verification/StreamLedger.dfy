/**
  Stream queues and the byte budgets above them, at the granularity of single
  channel operations and single budget operations.

  One machine covers both peers.  The Gateway charges three levels (stream,
  session, process) and keeps what is queued when a stream finishes as a
  terminal tail; the Agent charges two levels and drops it.  Every action below
  is one indivisible step of one goroutine: the frame handler (`Enqueuer`), the
  stream reader (`Reader`), the finisher and the discarder.  `queueMu` is held
  exactly while the enqueuer is not resting or the finisher is draining, and for
  the single steps in which the reader or the discarder takes the tail, so its
  exclusion is a guard on those states.
 */
module StreamLedger {
  import opened Common
  import Budgets

  // ----- state -----------------------------------------------------------------

  /** A queued payload; `id` is its rank in the order of acceptance. */
  datatype Chunk = Chunk(id: nat, data: seq<byte>)

  /** `held` counts the budget levels still charged: 1 stream, 2 session, 3 process. */
  datatype Enqueuer = Resting | Acquiring(chunk: Chunk, held: nat) | Undoing(chunk: Chunk, held: nat)
  datatype Reader = Waiting | Releasing(items: seq<Chunk>, held: nat) | Ended | Stopped
  datatype Finisher = NotFinished | Draining | Dropping(dropped: seq<Chunk>, held: nat) | Finished
  /** discardRetained: receive and release what is queued, take the tail under the lock, release it. */
  datatype Discarder =
    NotDiscarded | Emptying | Dumping(dumped: seq<Chunk>, held: nat) | SeenEmpty | Discarding(abandoned: seq<Chunk>, held: nat) | Discarded

  datatype StreamState = StreamState(
    session: nat, datagram: bool, slots: nat, limit: nat,
    queue: seq<Chunk>, tail: seq<Chunk>,
    enq: Enqueuer, rd: Reader, fin: Finisher, dis: Discarder,
    buffer: seq<byte>, returned: seq<byte>,
    // History: what was accepted; what the reader has; what was dropped for good; whether
    // a receive ever passed a chunk in the tail, and whether one of the reader did; whether
    // the discarder began before the reader had stopped; how many chunks had left the queue
    // at the discarder's locked section.
    accepted: seq<Chunk>, delivered: seq<Chunk>, gone: seq<Chunk>, overtaken: bool, readPast: bool, spoiled: bool, sealedAt: int)

  /** The discarder has been through its locked section: it will not look at the stream again. */
  predicate Sealed(dis: Discarder) { dis.Discarding? || dis.Discarded? }

  /** The budgets above the streams; each stream has its own limit, which on the Agent depends on its mode. */
  datatype Config = Config(levels: nat, retain: bool, sessionLimit: int, globalLimit: int)

  datatype System = System(streams: seq<StreamState>, streamUsed: seq<int>, sessionUsed: seq<int>, globalUsed: int)

  ghost predicate ValidConfig(cfg: Config) {
    cfg.levels == (if cfg.retain then 3 else 2) && 0 <= cfg.sessionLimit && 0 <= cfg.globalLimit
  }

  function Size(items: seq<Chunk>): nat {
    if items == [] then 0 else |items[0].data| + Size(items[1..])
  }

  function Flatten(items: seq<Chunk>): seq<byte> {
    if items == [] then [] else items[0].data + Flatten(items[1..])
  }

  function Deliverable(st: StreamState): bool {
    if st.datagram then st.tail != [] else Flatten(st.tail) != []
  }

  // ----- steps -----------------------------------------------------------------

  datatype Action =
    | Begin(data: seq<byte>) | AcquireNext | Push | Undo
    | Receive | TakeTail | End | ReleaseNext | Deliver | Copy(n: nat) | Stop
    | Finish | Drain | DropNext | Ready
    | Discard | Dump | DumpNext | SeeEmpty | Seal | DiscardNext

  predicate OfEnqueuer(a: Action) { a.Begin? || a.AcquireNext? || a.Push? || a.Undo? }
  predicate OfReader(a: Action) { a.Receive? || a.TakeTail? || a.End? || a.ReleaseNext? || a.Deliver? || a.Copy? || a.Stop? }
  predicate OfFinisher(a: Action) { a.Finish? || a.Drain? || a.DropNext? || a.Ready? }
  predicate OfDiscarder(a: Action) { a.Discard? || a.Dump? || a.DumpNext? || a.SeeEmpty? || a.Seal? || a.DiscardNext? }

  /** The local effect of an action and the budget operation it performs (`level` 0: none). */
  datatype Move = Move(st: StreamState, level: nat, delta: int)

  function Quiet(st: StreamState): Option<Move> { Some(Move(st, 0, 0)) }

  function EnqueueMove(cfg: Config, st: StreamState, fits: bool, a: Action): Option<Move>
    requires OfEnqueuer(a)
  {
    match a
    case Begin(data) =>
      // A closed stream refuses the payload without touching any budget.
      if st.enq.Resting? && st.fin.NotFinished? then Quiet(st.(enq := Acquiring(Chunk(|st.accepted|, data), 0))) else None
    case AcquireNext =>
      if !st.enq.Acquiring? || st.enq.held >= cfg.levels then None
      else
        var c, h := st.enq.chunk, st.enq.held;
        if fits then Some(Move(st.(enq := Acquiring(c, h + 1)), h + 1, |c.data|))
        else if h == 0 then Quiet(st.(enq := Resting))
        else Quiet(st.(enq := Undoing(c, h)))
    case Push =>
      if !st.enq.Acquiring? || st.enq.held != cfg.levels then None
      else if |st.queue| < st.slots then
        Quiet(st.(enq := Resting, queue := st.queue + [st.enq.chunk], accepted := st.accepted + [st.enq.chunk]))
      else Quiet(st.(enq := Undoing(st.enq.chunk, st.enq.held)))
    case Undo =>
      if !st.enq.Undoing? || st.enq.held == 0 then None
      else
        var c, h := st.enq.chunk, st.enq.held;
        Some(Move(st.(enq := if h == 1 then Resting else Undoing(c, h - 1)), h, 0 - |c.data|))
  }

  function ReadMove(cfg: Config, st: StreamState, a: Action): Option<Move>
    requires OfReader(a)
  {
    match a
    case Receive =>
      // The channel receive does not take queueMu.
      if !st.rd.Waiting? || st.buffer != [] || st.queue == [] then None
      else Quiet(st.(rd := Releasing([st.queue[0]], cfg.levels), queue := st.queue[1..],
                     overtaken := st.overtaken || st.tail != [], readPast := st.readPast || st.tail != []))
    case TakeTail =>
      if !st.rd.Waiting? || st.buffer != [] || !st.fin.Finished? || !st.enq.Resting? || !Deliverable(st) then None
      else if st.datagram then
        if st.tail == [] then None
        else Quiet(st.(rd := Releasing([st.tail[0]], cfg.levels), tail := st.tail[1..]))
      else Quiet(st.(rd := Releasing(st.tail, cfg.levels), tail := []))
    case End =>
      if st.rd.Waiting? && st.buffer == [] && st.fin.Finished? && st.enq.Resting? && !Deliverable(st)
      then Quiet(st.(rd := Ended)) else None
    case ReleaseNext =>
      if !st.rd.Releasing? || st.rd.held == 0 then None
      else Some(Move(st.(rd := Releasing(st.rd.items, st.rd.held - 1)), st.rd.held, 0 - Size(st.rd.items)))
    case Deliver =>
      if !st.rd.Releasing? || st.rd.held != 0 then None
      else Quiet(st.(rd := Waiting, delivered := st.delivered + st.rd.items,
                     buffer := if st.datagram then [] else Flatten(st.rd.items)))
    case Copy(n) =>
      if st.rd.Waiting? && n <= |st.buffer|
      then Quiet(st.(returned := st.returned + st.buffer[..n], buffer := st.buffer[n..])) else None
    case Stop =>
      if st.rd.Waiting? then Quiet(st.(rd := Stopped)) else None
  }

  function FinishMove(cfg: Config, st: StreamState, a: Action): Option<Move>
    requires OfFinisher(a)
  {
    match a
    case Finish =>
      if st.fin.NotFinished? && st.enq.Resting? then Quiet(st.(fin := Draining)) else None
    case Drain =>
      if !st.fin.Draining? || st.queue == [] then None
      else
        var st' := st.(queue := st.queue[1..]);
        if cfg.retain then Quiet(st'.(tail := st.tail + [st.queue[0]]))
        else Quiet(st'.(fin := Dropping([st.queue[0]], cfg.levels), gone := st.gone + [st.queue[0]]))
    case DropNext =>
      if !st.fin.Dropping? then None
      else if st.fin.held > 0 then
        Some(Move(st.(fin := Dropping(st.fin.dropped, st.fin.held - 1)), st.fin.held, 0 - Size(st.fin.dropped)))
      else Quiet(st.(fin := Draining))
    case Ready =>
      if st.fin.Draining? && st.queue == [] then Quiet(st.(fin := Finished)) else None
  }

  function DiscardMove(cfg: Config, st: StreamState, a: Action): Option<Move>
    requires OfDiscarder(a)
  {
    match a
    case Discard =>
      // Another goroutine may own the detach and finish later, and a handler that gives up on a
      // stalled reader does not wait for it to stop.
      if cfg.retain && st.dis.NotDiscarded? then Quiet(st.(dis := Emptying, spoiled := !(st.rd.Stopped? || st.rd.Ended?))) else None
    case Dump =>
      // The receive does not take queueMu, so it can race the finisher's drain and the enqueuer.
      if !st.dis.Emptying? || st.queue == [] then None
      else Quiet(st.(dis := Dumping([st.queue[0]], cfg.levels), queue := st.queue[1..], gone := st.gone + [st.queue[0]],
                     overtaken := st.overtaken || st.tail != []))
    case DumpNext =>
      if !st.dis.Dumping? then None
      else if st.dis.held > 0 then
        Some(Move(st.(dis := Dumping(st.dis.dumped, st.dis.held - 1)), st.dis.held, 0 - Size(st.dis.dumped)))
      else Quiet(st.(dis := Emptying))
    case SeeEmpty =>
      if st.dis.Emptying? && st.queue == [] then Quiet(st.(dis := SeenEmpty)) else None
    case Seal =>
      // The locked section: it excludes the enqueuer and a drain in progress.
      if st.dis.SeenEmpty? && st.enq.Resting? && !st.fin.Draining?
      then Quiet(st.(dis := Discarding(st.tail, cfg.levels), tail := [], gone := st.gone + st.tail,
                     sealedAt := |st.accepted| - |st.queue|)) else None
    case DiscardNext =>
      if !st.dis.Discarding? then None
      else if st.dis.held > 0 then
        Some(Move(st.(dis := Discarding(st.dis.abandoned, st.dis.held - 1)), st.dis.held, 0 - Size(st.dis.abandoned)))
      else Quiet(st.(dis := Discarded))
  }

  function LocalMove(cfg: Config, st: StreamState, fits: bool, a: Action): Option<Move> {
    if OfEnqueuer(a) then EnqueueMove(cfg, st, fits, a)
    else if OfReader(a) then ReadMove(cfg, st, a)
    else if OfFinisher(a) then FinishMove(cfg, st, a)
    else DiscardMove(cfg, st, a)
  }

  predicate Indexed(sys: System, i: nat) {
    i < |sys.streams| == |sys.streamUsed| && sys.streams[i].session < |sys.sessionUsed|
  }

  /** Usage of the budget that `level` names for stream `i`. */
  function Used(sys: System, i: nat, level: nat): int
    requires Indexed(sys, i)
  {
    if level == 1 then sys.streamUsed[i]
    else if level == 2 then sys.sessionUsed[sys.streams[i].session]
    else sys.globalUsed
  }

  function Limit(cfg: Config, st: StreamState, level: nat): int {
    if level == 1 then st.limit else if level == 2 then cfg.sessionLimit else cfg.globalLimit
  }

  /** TryAcquire of the budget at `level` succeeds. */
  predicate Fits(cfg: Config, sys: System, i: nat, level: nat, size: nat)
    requires Indexed(sys, i)
  {
    Budgets.Admits(Limit(cfg, sys.streams[i], level), Used(sys, i, level), size)
  }

  function Charge(sys: System, i: nat, level: nat, delta: int): System
    requires Indexed(sys, i)
  {
    var s := sys.streams[i].session;
    if level == 1 then sys.(streamUsed := sys.streamUsed[i := sys.streamUsed[i] + delta])
    else if level == 2 then sys.(sessionUsed := sys.sessionUsed[s := sys.sessionUsed[s] + delta])
    else if level == 3 then sys.(globalUsed := sys.globalUsed + delta)
    else sys
  }

  /** What the next acquisition of stream `i`, if it is about to make one, would get. */
  predicate NextFits(cfg: Config, sys: System, i: nat)
    requires Indexed(sys, i)
  {
    sys.streams[i].enq.Acquiring? && Fits(cfg, sys, i, sys.streams[i].enq.held + 1, |sys.streams[i].enq.chunk.data|)
  }

  datatype Step = Act(stream: nat, action: Action) | OpenSession | OpenStream(session: nat, datagram: bool, slots: nat, limit: nat)

  function FreshStream(session: nat, datagram: bool, slots: nat, limit: nat): StreamState {
    StreamState(session, datagram, slots, limit, [], [], Resting, Waiting, NotFinished, NotDiscarded, [], [], [], [], [], false, false, false, 0)
  }

  /** The successor state, or None when the step is not enabled. */
  function Next(cfg: Config, sys: System, step: Step): Option<System> {
    match step
    case OpenSession => Some(sys.(sessionUsed := sys.sessionUsed + [0]))
    case OpenStream(s, datagram, slots, limit) =>
      if s < |sys.sessionUsed|
      then Some(sys.(streams := sys.streams + [FreshStream(s, datagram, slots, limit)], streamUsed := sys.streamUsed + [0])) else None
    case Act(i, a) =>
      if Indexed(sys, i) then
        var m := LocalMove(cfg, sys.streams[i], NextFits(cfg, sys, i), a);
        if m.None? || m.value.st.session != sys.streams[i].session then None
        else Some(Charge(sys.(streams := sys.streams[i := m.value.st]), i, m.value.level, m.value.delta))
      else None
  }

  const Empty := System([], [], [], 0)

  ghost predicate CanStep(cfg: Config, sys: System, sys': System) {
    exists step :: Next(cfg, sys, step) == Some(sys')
  }

  /** A run: it starts with no sessions and every state follows by an enabled step. */
  ghost predicate IsRun(cfg: Config, run: seq<System>) {
    run != [] && run[0] == Empty &&
    forall i, j {:trigger CanStep(cfg, run[i], run[j])} :: 0 <= i < |run| - 1 && j == i + 1 ==> CanStep(cfg, run[i], run[j])
  }

  // ----- what a stream holds, level by level --------------------------------------

  function Share(items: seq<Chunk>, held: nat, level: nat): nat {
    if level <= held then Size(items) else 0
  }

  function EnqueuerShare(enq: Enqueuer, level: nat): nat {
    if enq.Resting? || enq.held < level then 0 else |enq.chunk.data|
  }

  function ReaderShare(rd: Reader, level: nat): nat {
    if rd.Releasing? then Share(rd.items, rd.held, level) else 0
  }

  function FinisherShare(fin: Finisher, level: nat): nat {
    if fin.Dropping? then Share(fin.dropped, fin.held, level) else 0
  }

  function DiscarderShare(dis: Discarder, level: nat): nat {
    if dis.Discarding? then Share(dis.abandoned, dis.held, level)
    else if dis.Dumping? then Share(dis.dumped, dis.held, level)
    else 0
  }

  /** The bytes of this stream that the budget at `level` must account for right now. */
  function Held(st: StreamState, level: nat): nat {
    Size(st.queue) + Size(st.tail) + EnqueuerShare(st.enq, level) + ReaderShare(st.rd, level)
      + FinisherShare(st.fin, level) + DiscarderShare(st.dis, level)
  }

  lemma {:induction false} SizeConcat(a: seq<Chunk>, b: seq<Chunk>)
    ensures Size(a + b) == Size(a) + Size(b)
  {
    if a == [] {
      assert a + b == b;
    } else {
      assert (a + b)[1..] == a[1..] + b;
      SizeConcat(a[1..], b);
    }
  }

  lemma {:induction false} FlattenConcat(a: seq<Chunk>, b: seq<Chunk>)
    ensures Flatten(a + b) == Flatten(a) + Flatten(b)
  {
    if a == [] {
      assert a + b == b;
    } else {
      assert (a + b)[1..] == a[1..] + b;
      FlattenConcat(a[1..], b);
    }
  }

  lemma SizeSplit(items: seq<Chunk>)
    requires items != []
    ensures Size(items) == Size([items[0]]) + Size(items[1..])
  {
    assert items == [items[0]] + items[1..];
    SizeConcat([items[0]], items[1..]);
  }

  lemma EnqueueBalances(cfg: Config, st: StreamState, fits: bool, a: Action, level: nat)
    requires OfEnqueuer(a)
    requires EnqueueMove(cfg, st, fits, a).Some? && 1 <= level <= cfg.levels
    ensures Balanced(st, EnqueueMove(cfg, st, fits, a).value, level)
  {
    if a.Push? { PushBalances(cfg, st, fits, level); }
  }

  lemma PushBalances(cfg: Config, st: StreamState, fits: bool, level: nat)
    requires EnqueueMove(cfg, st, fits, Push).Some? && 1 <= level <= cfg.levels
    ensures Balanced(st, EnqueueMove(cfg, st, fits, Push).value, level)
  {
    PushKeepsHeld(st, st.enq.chunk, st.enq.held, st.accepted + [st.enq.chunk], level);
  }

  // Charged in full, a chunk weighs the same in the enqueuer's hand, in the queue, or being undone.
  lemma PushKeepsHeld(st: StreamState, c: Chunk, held: nat, accepted: seq<Chunk>, level: nat)
    requires st.enq == Acquiring(c, held) && 1 <= level <= held
    ensures Held(st.(enq := Resting, queue := st.queue + [c], accepted := accepted), level) == Held(st, level)
    ensures Held(st.(enq := Undoing(c, held)), level) == Held(st, level)
  {
    SizeAppend(st.queue, c);
  }

  lemma SizeAppend(items: seq<Chunk>, c: Chunk)
    ensures Size(items + [c]) == Size(items) + |c.data|
  {
    SizeConcat(items, [c]);
    assert Size([c]) == |c.data| + Size([c][1..]);
  }

  lemma ReadBalances(cfg: Config, st: StreamState, a: Action, level: nat)
    requires OfReader(a)
    requires ReadMove(cfg, st, a).Some? && 1 <= level <= cfg.levels
    ensures Balanced(st, ReadMove(cfg, st, a).value, level)
  {
    if a.Receive? { SizeSplit(st.queue); }
    if a.TakeTail? && st.datagram { SizeSplit(st.tail); }
  }

  lemma FinishBalances(cfg: Config, st: StreamState, a: Action, level: nat)
    requires OfFinisher(a)
    requires FinishMove(cfg, st, a).Some? && 1 <= level <= cfg.levels
    ensures Balanced(st, FinishMove(cfg, st, a).value, level)
  {
    if a.Drain? {
      SizeSplit(st.queue);
      SizeConcat(st.tail, [st.queue[0]]);
    }
  }

  lemma DiscardBalances(cfg: Config, st: StreamState, a: Action, level: nat)
    requires OfDiscarder(a) && DiscardMove(cfg, st, a).Some? && 1 <= level <= cfg.levels
    ensures Balanced(st, DiscardMove(cfg, st, a).value, level)
  {
    if a.Dump? { DumpBalances(cfg, st, level); }
  }

  lemma DumpBalances(cfg: Config, st: StreamState, level: nat)
    requires DiscardMove(cfg, st, Dump).Some? && 1 <= level <= cfg.levels
    ensures Balanced(st, DiscardMove(cfg, st, Dump).value, level)
  {
    SizeSplit(st.queue);
  }

  /** What the stream holds at `level` changes by exactly the budget operation of the move. */
  ghost predicate Balanced(st: StreamState, m: Move, level: nat) {
    Held(m.st, level) == Held(st, level) + (if m.level == level then m.delta else 0)
  }

  lemma MoveBalances(cfg: Config, st: StreamState, fits: bool, a: Action, level: nat)
    requires LocalMove(cfg, st, fits, a).Some? && 1 <= level <= cfg.levels
    ensures Balanced(st, LocalMove(cfg, st, fits, a).value, level)
  {
    if OfEnqueuer(a) { EnqueueBalances(cfg, st, fits, a, level); }
    else if OfReader(a) { ReadBalances(cfg, st, a, level); }
    else if OfFinisher(a) { FinishBalances(cfg, st, a, level); }
    else { DiscardBalances(cfg, st, a, level); }
  }

  // ----- invariant of one stream ----------------------------------------------------

  ghost predicate LocalShape(cfg: Config, st: StreamState) {
    && (st.enq.Acquiring? ==> st.enq.held <= cfg.levels)
    && (st.enq.Undoing? ==> 1 <= st.enq.held <= cfg.levels)
    && (!st.enq.Resting? ==> st.enq.chunk.id == |st.accepted|)
    && (st.rd.Releasing? ==> st.rd.held <= cfg.levels)
    && (st.fin.Dropping? ==> st.fin.held <= cfg.levels && !cfg.retain)
    && (st.dis.Discarding? || st.dis.Dumping? ==> st.dis.held <= cfg.levels)
    && (!st.fin.NotFinished? ==> st.enq.Resting?)
    && (st.fin.NotFinished? || !cfg.retain ==> st.tail == [])
    && (st.fin.Finished? ==> st.queue == [])
    && (!st.dis.NotDiscarded? ==> cfg.retain && (st.rd.Stopped? || st.rd.Ended? || st.spoiled))
    && (st.dis.NotDiscarded? ==> !st.spoiled && (cfg.retain ==> st.gone == []))
    && (st.rd.Ended? ==> st.fin.Finished? && st.buffer == [])
    && (st.readPast ==> st.overtaken)
    && (st.rd.Ended? && cfg.retain ==> !Deliverable(st))
    && (st.rd.Ended? && cfg.retain && !st.spoiled ==> NothingLeft(st.datagram, st.gone))
  }

  /** No payload byte, and for datagrams no packet. */
  predicate NothingLeft(datagram: bool, items: seq<Chunk>) {
    if datagram then items == [] else Flatten(items) == []
  }

  function InHand(rd: Reader): seq<Chunk> { if rd.Releasing? then rd.items else [] }

  function Line(delivered: seq<Chunk>, hand: seq<Chunk>, gone: seq<Chunk>, tail: seq<Chunk>): seq<Chunk> {
    delivered + (hand + (gone + tail))
  }

  /** Everything that has left the queue, in the order in which it reaches the reader. */
  function Departed(st: StreamState): seq<Chunk> {
    Line(st.delivered, InHand(st.rd), st.gone, st.tail)
  }

  ghost predicate Inverted(s: seq<Chunk>) {
    exists i, j :: 0 <= i < j < |s| && s[i].id > s[j].id
  }

  /** No chunk twice. */
  ghost predicate Distinct(s: seq<Chunk>) {
    forall i, j :: 0 <= i < j < |s| ==> s[i].id != s[j].id
  }

  /**
    `departed` holds the accepted chunks that are no longer queued, each once; when
    `strict` they stand in order of acceptance exactly if nothing overtook.
   */
  ghost predicate LineUp(strict: bool, departed: seq<Chunk>, queue: seq<Chunk>, accepted: seq<Chunk>, overtaken: bool) {
    && (forall k :: 0 <= k < |accepted| ==> accepted[k].id == k)
    && |departed| + |queue| == |accepted|
    && queue == accepted[|departed|..]
    && (forall k :: 0 <= k < |departed| ==> departed[k].id < |departed| && departed[k] == accepted[departed[k].id])
    && Distinct(departed)
    && (strict ==> if overtaken then Inverted(departed) else departed == accepted[..|departed|])
  }

  /** The discarder had the stream to itself, or has taken nothing. */
  predicate Ordered(cfg: Config, st: StreamState) { cfg.retain && (!st.spoiled || st.gone == []) }

  ghost predicate LocalOrder(cfg: Config, st: StreamState) {
    LineUp(Ordered(cfg, st), Departed(st), st.queue, st.accepted, st.overtaken)
  }

  ghost predicate LocalBytes(st: StreamState) {
    (st.rd.Releasing? ==> st.buffer == []) &&
    (if st.datagram then st.buffer == [] else st.returned + st.buffer == Flatten(st.delivered))
  }

  lemma EnqueueKeepsShape(cfg: Config, st: StreamState, fits: bool, a: Action)
    requires OfEnqueuer(a)
    requires ValidConfig(cfg) && EnqueueMove(cfg, st, fits, a).Some? && LocalShape(cfg, st)
    ensures LocalShape(cfg, EnqueueMove(cfg, st, fits, a).value.st)
  {
  }

  lemma ReadKeepsShape(cfg: Config, st: StreamState, a: Action)
    requires OfReader(a)
    requires ReadMove(cfg, st, a).Some? && LocalShape(cfg, st)
    ensures LocalShape(cfg, ReadMove(cfg, st, a).value.st)
  {
  }

  lemma FinishKeepsShape(cfg: Config, st: StreamState, a: Action)
    requires OfFinisher(a)
    requires FinishMove(cfg, st, a).Some? && LocalShape(cfg, st)
    ensures LocalShape(cfg, FinishMove(cfg, st, a).value.st)
  {
  }

  lemma DiscardKeepsShape(cfg: Config, st: StreamState, a: Action)
    requires OfDiscarder(a) && DiscardMove(cfg, st, a).Some? && LocalShape(cfg, st)
    ensures LocalShape(cfg, DiscardMove(cfg, st, a).value.st)
  {
    if a.Seal? { FlattenConcat(st.gone, st.tail); }
  }

  lemma ShapePreserved(cfg: Config, st: StreamState, fits: bool, a: Action)
    requires ValidConfig(cfg) && LocalMove(cfg, st, fits, a).Some? && LocalShape(cfg, st)
    ensures LocalShape(cfg, LocalMove(cfg, st, fits, a).value.st)
  {
    if OfEnqueuer(a) { EnqueueKeepsShape(cfg, st, fits, a); }
    else if OfReader(a) { ReadKeepsShape(cfg, st, a); }
    else if OfFinisher(a) { FinishKeepsShape(cfg, st, a); }
    else { DiscardKeepsShape(cfg, st, a); }
  }

  lemma BytesPreserved(cfg: Config, st: StreamState, fits: bool, a: Action)
    requires LocalMove(cfg, st, fits, a).Some? && LocalBytes(st)
    ensures LocalBytes(LocalMove(cfg, st, fits, a).value.st)
  {
    if OfEnqueuer(a) { BytesAfterEnqueue(cfg, st, fits, a); }
    else if a.Deliver? { BytesAfterDeliver(cfg, st); }
    else if a.Copy? { BytesAfterCopy(cfg, st, a.n); }
    else if OfReader(a) { BytesAfterRead(cfg, st, a); }
    else if OfFinisher(a) { BytesAfterFinish(cfg, st, a); }
    else { BytesAfterDiscard(cfg, st, a); }
  }

  lemma BytesAfterEnqueue(cfg: Config, st: StreamState, fits: bool, a: Action)
    requires OfEnqueuer(a) && EnqueueMove(cfg, st, fits, a).Some? && LocalBytes(st)
    ensures LocalBytes(EnqueueMove(cfg, st, fits, a).value.st)
  {
  }

  lemma BytesAfterFinish(cfg: Config, st: StreamState, a: Action)
    requires OfFinisher(a) && FinishMove(cfg, st, a).Some? && LocalBytes(st)
    ensures LocalBytes(FinishMove(cfg, st, a).value.st)
  {
  }

  lemma BytesAfterDiscard(cfg: Config, st: StreamState, a: Action)
    requires OfDiscarder(a) && DiscardMove(cfg, st, a).Some? && LocalBytes(st)
    ensures LocalBytes(DiscardMove(cfg, st, a).value.st)
  {
  }

  lemma BytesAfterRead(cfg: Config, st: StreamState, a: Action)
    requires OfReader(a) && !a.Deliver? && !a.Copy? && ReadMove(cfg, st, a).Some? && LocalBytes(st)
    ensures LocalBytes(ReadMove(cfg, st, a).value.st)
  {
  }

  lemma BytesAfterDeliver(cfg: Config, st: StreamState)
    requires ReadMove(cfg, st, Deliver).Some? && LocalBytes(st)
    ensures LocalBytes(ReadMove(cfg, st, Deliver).value.st)
  {
    FlattenConcat(st.delivered, st.rd.items);
  }

  lemma BytesAfterCopy(cfg: Config, st: StreamState, n: nat)
    requires ReadMove(cfg, st, Copy(n)).Some? && LocalBytes(st)
    ensures LocalBytes(ReadMove(cfg, st, Copy(n)).value.st)
  {
    assert st.returned + st.buffer[..n] + st.buffer[n..] == st.returned + st.buffer;
  }

  /** `x` inserted behind `front`. */
  function Insert(front: seq<Chunk>, x: Chunk, passed: seq<Chunk>): seq<Chunk> { front + ([x] + passed) }

  lemma InsertAt(front: seq<Chunk>, x: Chunk, passed: seq<Chunk>, k: nat)
    requires k <= |front| + |passed|
    ensures Insert(front, x, passed)[k] ==
      if k < |front| then (front + passed)[k] else if k == |front| then x else (front + passed)[k - 1]
  {
  }

  lemma InsertDistinct(front: seq<Chunk>, x: Chunk, passed: seq<Chunk>)
    requires Distinct(front + passed) && forall k :: 0 <= k < |front + passed| ==> (front + passed)[k].id < x.id
    ensures Distinct(Insert(front, x, passed))
  {
    var d, d' := front + passed, Insert(front, x, passed);
    forall i, j | 0 <= i < j < |d'| ensures d'[i].id != d'[j].id {
      InsertAt(front, x, passed, i);
      InsertAt(front, x, passed, j);
    }
  }

  lemma InsertInverts(front: seq<Chunk>, x: Chunk, passed: seq<Chunk>)
    requires if passed == [] then Inverted(front + passed) else passed[0].id < x.id
    ensures Inverted(Insert(front, x, passed))
  {
    var d' := Insert(front, x, passed);
    if passed != [] {
      assert d'[|front|] == x && d'[|front| + 1] == passed[0];
    } else {
      var i, j :| 0 <= i < j < |front + passed| && (front + passed)[i].id > (front + passed)[j].id;
      assert d'[i] == (front + passed)[i] && d'[j] == (front + passed)[j];
    }
  }

  // The queue head departs behind `front` and ahead of `passed`, which was accepted before it.
  lemma LineUpHeadDeparts(strict: bool, front: seq<Chunk>, passed: seq<Chunk>, q: seq<Chunk>, acc: seq<Chunk>, o: bool)
    requires LineUp(strict, front + passed, q, acc, o) && q != []
    ensures LineUp(strict, Insert(front, q[0], passed), q[1..], acc, o || passed != [])
  {
    var d, d' := front + passed, Insert(front, q[0], passed);
    assert q[0] == acc[|d|] && q[0].id == |d|;
    forall k | 0 <= k < |d'| ensures d'[k].id < |d'| && d'[k] == acc[d'[k].id] {
      InsertAt(front, q[0], passed, k);
    }
    InsertDistinct(front, q[0], passed);
    if passed != [] { assert d[|front|] == passed[0]; }
    if strict && (o || passed != []) { InsertInverts(front, q[0], passed); }
  }

  lemma LineUpAppended(strict: bool, d: seq<Chunk>, q: seq<Chunk>, acc: seq<Chunk>, o: bool, c: Chunk)
    requires LineUp(strict, d, q, acc, o) && c.id == |acc|
    ensures LineUp(strict, d, q + [c], acc + [c], o)
  {
    assert (acc + [c])[..|d|] == acc[..|d|];
  }

  // How the line changes when its parts do.

  lemma LineDelivered(a: seq<Chunk>, h: seq<Chunk>, g: seq<Chunk>, t: seq<Chunk>)
    ensures Line(a + h, [], g, t) == Line(a, h, g, t)
  {
    assert [] + (g + t) == g + t;
  }

  lemma LineReceived(a: seq<Chunk>, g: seq<Chunk>, t: seq<Chunk>, x: Chunk)
    ensures Line(a, [], g, t) == a + (g + t) && Line(a, [x], g, t) == Insert(a, x, g + t)
  {
    assert [] + (g + t) == g + t;
  }

  lemma LineDumped(a: seq<Chunk>, h: seq<Chunk>, g: seq<Chunk>, t: seq<Chunk>, x: Chunk)
    ensures Line(a, h, g, t) == a + h + g + t && Line(a, h, g + [x], t) == Insert(a + h + g, x, t)
  {
  }

  lemma LineDrained(a: seq<Chunk>, h: seq<Chunk>, g: seq<Chunk>, t: seq<Chunk>, x: Chunk)
    ensures Line(a, h, g, t + [x]) == Insert(Line(a, h, g, t), x, []) && Line(a, h, g, t) + [] == Line(a, h, g, t)
  {
  }

  lemma LineSealed(a: seq<Chunk>, h: seq<Chunk>, g: seq<Chunk>, t: seq<Chunk>)
    ensures Line(a, h, g + t, []) == Line(a, h, g, t)
  {
    assert g + t + [] == g + t;
  }

  lemma LineTaken(a: seq<Chunk>, g: seq<Chunk>, u: seq<Chunk>, v: seq<Chunk>)
    ensures Line(a, [], g, u + v) == a + (g + (u + v)) && Line(a, u, g, v) == a + (u + (g + v))
    ensures g == [] ==> Line(a, [], g, u + v) == Line(a, u, g, v)
  {
    assert [] + (g + (u + v)) == g + (u + v);
    assert [] + (u + v) == u + v && [] + v == v;
  }

  ghost predicate SameLine(st: StreamState, st': StreamState) {
    && Departed(st) == Departed(st') && st.queue == st'.queue && st.accepted == st'.accepted && st.overtaken == st'.overtaken
    && (st.spoiled ==> st'.spoiled) && (st.gone != [] ==> st'.gone != [])
  }

  lemma OrderKept(cfg: Config, st: StreamState, st': StreamState)
    requires LocalOrder(cfg, st) && SameLine(st, st')
    ensures LocalOrder(cfg, st')
  {
  }

  /** Two neighbouring blocks of the line change places; without the claim on order it is still a line. */
  lemma SwapBlocks(front: seq<Chunk>, a: seq<Chunk>, b: seq<Chunk>, rest: seq<Chunk>, q: seq<Chunk>, acc: seq<Chunk>, o: bool)
    requires LineUp(false, front + (a + (b + rest)), q, acc, o)
    ensures LineUp(false, front + (b + (a + rest)), q, acc, o)
  {
    var d, d' := front + (a + (b + rest)), front + (b + (a + rest));
    forall k | 0 <= k < |d'| ensures d'[k] == d[Swapped(|front|, |a|, |b|, k)] {
    }
    forall i, j | 0 <= i < j < |d'| ensures d'[i].id != d'[j].id {
      var x, y := Swapped(|front|, |a|, |b|, i), Swapped(|front|, |a|, |b|, j);
      assert d'[i] == d[x] && d'[j] == d[y] && x != y;
      assert d[if x < y then x else y].id != d[if x < y then y else x].id;
    }
  }

  /** Where position `k` was before the two blocks changed places. */
  function Swapped(f: nat, a: nat, b: nat, k: nat): nat {
    if k < f then k else if k < f + b then k + a else if k < f + b + a then k - b else k
  }

  lemma OrderAfterTakeTail(cfg: Config, st: StreamState)
    requires LocalShape(cfg, st) && LocalOrder(cfg, st) && ReadMove(cfg, st, TakeTail).Some?
    ensures LocalOrder(cfg, ReadMove(cfg, st, TakeTail).value.st)
  {
    var st' := ReadMove(cfg, st, TakeTail).value.st;
    var taken, rest := InHand(st'.rd), st'.tail;
    assert taken + rest == st.tail;
    LineTaken(st.delivered, st.gone, taken, rest);
    if st.gone != [] {
      TailTaken(Ordered(cfg, st), st.delivered, st.gone, taken, rest, st.queue, st.accepted, st.overtaken);
    }
  }

  lemma TailTaken(strict: bool, a: seq<Chunk>, g: seq<Chunk>, u: seq<Chunk>, v: seq<Chunk>, q: seq<Chunk>, acc: seq<Chunk>, o: bool)
    requires LineUp(strict, Line(a, [], g, u + v), q, acc, o)
    ensures LineUp(false, Line(a, u, g, v), q, acc, o)
  {
    LineTaken(a, g, u, v);
    Unordered(strict, Line(a, [], g, u + v), q, acc, o, o);
    SwapBlocks(a, g, u, v, q, acc, o);
  }

  lemma Unordered(strict: bool, d: seq<Chunk>, q: seq<Chunk>, acc: seq<Chunk>, o: bool, o': bool)
    requires LineUp(strict, d, q, acc, o)
    ensures LineUp(false, d, q, acc, o')
  {
  }

  lemma LineAfterDeliver(cfg: Config, st: StreamState)
    requires ReadMove(cfg, st, Deliver).Some?
    ensures SameLine(st, ReadMove(cfg, st, Deliver).value.st)
  {
    LineDelivered(st.delivered, st.rd.items, st.gone, st.tail);
  }

  lemma EnqueueKeepsOrder(cfg: Config, st: StreamState, fits: bool, a: Action)
    requires OfEnqueuer(a)
    requires EnqueueMove(cfg, st, fits, a).Some? && LocalShape(cfg, st) && LocalOrder(cfg, st)
    ensures LocalOrder(cfg, EnqueueMove(cfg, st, fits, a).value.st)
  {
    var st' := EnqueueMove(cfg, st, fits, a).value.st;
    if st'.queue != st.queue { OrderAfterPush(cfg, st, fits); }
    else { OrderKept(cfg, st, st'); }
  }

  lemma ReadKeepsOrder(cfg: Config, st: StreamState, a: Action)
    requires OfReader(a)
    requires ReadMove(cfg, st, a).Some? && LocalShape(cfg, st) && LocalOrder(cfg, st)
    ensures LocalOrder(cfg, ReadMove(cfg, st, a).value.st)
  {
    if a.Receive? { OrderAfterReceive(cfg, st); }
    else if a.TakeTail? { OrderAfterTakeTail(cfg, st); }
    else {
      if a.Deliver? { LineAfterDeliver(cfg, st); }
      OrderKept(cfg, st, ReadMove(cfg, st, a).value.st);
    }
  }

  lemma FinishKeepsOrder(cfg: Config, st: StreamState, a: Action)
    requires OfFinisher(a)
    requires FinishMove(cfg, st, a).Some? && LocalShape(cfg, st) && LocalOrder(cfg, st)
    ensures LocalOrder(cfg, FinishMove(cfg, st, a).value.st)
  {
    if a.Drain? { OrderAfterDrain(cfg, st); }
    else { OrderKept(cfg, st, FinishMove(cfg, st, a).value.st); }
  }

  lemma OrderPreserved(cfg: Config, st: StreamState, fits: bool, a: Action)
    requires LocalMove(cfg, st, fits, a).Some? && LocalShape(cfg, st) && LocalOrder(cfg, st)
    ensures LocalOrder(cfg, LocalMove(cfg, st, fits, a).value.st)
  {
    if OfEnqueuer(a) { EnqueueKeepsOrder(cfg, st, fits, a); }
    else if OfReader(a) { ReadKeepsOrder(cfg, st, a); }
    else if OfFinisher(a) { FinishKeepsOrder(cfg, st, a); }
    else { DiscardKeepsOrder(cfg, st, a); }
  }

  lemma OrderAfterPush(cfg: Config, st: StreamState, fits: bool)
    requires LocalShape(cfg, st) && LocalOrder(cfg, st) && EnqueueMove(cfg, st, fits, Push).Some?
    ensures LocalOrder(cfg, EnqueueMove(cfg, st, fits, Push).value.st)
  {
    LineUpAppended(Ordered(cfg, st), Departed(st), st.queue, st.accepted, st.overtaken, st.enq.chunk);
  }

  lemma OrderAfterReceive(cfg: Config, st: StreamState)
    requires LocalShape(cfg, st) && LocalOrder(cfg, st) && ReadMove(cfg, st, Receive).Some?
    ensures LocalOrder(cfg, ReadMove(cfg, st, Receive).value.st)
  {
    LineReceived(st.delivered, st.gone, st.tail, st.queue[0]);
    assert st.gone == [] ==> st.gone + st.tail == st.tail;
    HeadPasses(Ordered(cfg, st), st.delivered, st.gone + st.tail, st.queue, st.accepted, st.overtaken, st.overtaken || st.tail != []);
  }

  // As LineUpHeadDeparts, for a flag that is right where it matters.
  lemma HeadPasses(strict: bool, front: seq<Chunk>, passed: seq<Chunk>, q: seq<Chunk>, acc: seq<Chunk>, o: bool, o': bool)
    requires LineUp(strict, front + passed, q, acc, o) && q != [] && (strict ==> o' == (o || passed != []))
    ensures LineUp(strict, Insert(front, q[0], passed), q[1..], acc, o')
  {
    LineUpHeadDeparts(strict, front, passed, q, acc, o);
    if !strict { Unordered(strict, Insert(front, q[0], passed), q[1..], acc, o || passed != [], o'); }
  }

  lemma DiscardKeepsOrder(cfg: Config, st: StreamState, a: Action)
    requires OfDiscarder(a) && DiscardMove(cfg, st, a).Some? && LocalShape(cfg, st) && LocalOrder(cfg, st)
    ensures LocalOrder(cfg, DiscardMove(cfg, st, a).value.st)
  {
    if a.Dump? { OrderAfterDump(cfg, st); }
    else {
      if a.Seal? { LineSealed(st.delivered, InHand(st.rd), st.gone, st.tail); }
      OrderKept(cfg, st, DiscardMove(cfg, st, a).value.st);
    }
  }

  lemma OrderAfterDump(cfg: Config, st: StreamState)
    requires LocalShape(cfg, st) && LocalOrder(cfg, st) && DiscardMove(cfg, st, Dump).Some?
    ensures LocalOrder(cfg, DiscardMove(cfg, st, Dump).value.st)
  {
    var st' := DiscardMove(cfg, st, Dump).value.st;
    var front := st.delivered + InHand(st.rd) + st.gone;
    LineDumped(st.delivered, InHand(st.rd), st.gone, st.tail, st.queue[0]);
    HeadPasses(Ordered(cfg, st), front, st.tail, st.queue, st.accepted, st.overtaken, st'.overtaken);
  }

  lemma OrderAfterDrain(cfg: Config, st: StreamState)
    requires LocalShape(cfg, st) && LocalOrder(cfg, st) && FinishMove(cfg, st, Drain).Some?
    ensures LocalOrder(cfg, FinishMove(cfg, st, Drain).value.st)
  {
    var d, st' := Departed(st), FinishMove(cfg, st, Drain).value.st;
    LineDrained(st.delivered, InHand(st.rd), st.gone, st.tail, st.queue[0]);
    LineSealed(st.delivered, InHand(st.rd), st.gone, [st.queue[0]]);
    assert st.tail == [] ==> st.tail + [st.queue[0]] == [st.queue[0]];
    HeadPasses(Ordered(cfg, st), d, [], st.queue, st.accepted, st.overtaken, st.overtaken);
  }

  // What came late: still queued at the discarder's locked section, or accepted after it.

  ghost predicate LateParts(sealedAt: int, gone: seq<Chunk>, tail: seq<Chunk>) {
    (forall c :: c in gone ==> c.id < sealedAt) && (forall c :: c in tail ==> c.id >= sealedAt)
  }

  ghost predicate LocalLate(st: StreamState) {
    Sealed(st.dis) ==> 0 <= st.sealedAt <= |st.accepted| - |st.queue| && LateParts(st.sealedAt, st.gone, st.tail)
  }

  lemma LineUpIds(strict: bool, a: seq<Chunk>, h: seq<Chunk>, g: seq<Chunk>, t: seq<Chunk>, q: seq<Chunk>, acc: seq<Chunk>, o: bool)
    requires LineUp(strict, Line(a, h, g, t), q, acc, o)
    ensures |acc| - |q| >= 0 && LateParts(|acc| - |q|, g + t, [])
    ensures q != [] ==> q[0].id == |acc| - |q|
  {
    var d := Line(a, h, g, t);
    forall c | c in g + t ensures c.id < |d| {
      var k :| 0 <= k < |g + t| && (g + t)[k] == c;
      assert d[|a| + |h| + k] == c;
    }
    if q != [] { assert q[0] == acc[|d|]; }
  }

  lemma LatePreserved(cfg: Config, st: StreamState, fits: bool, a: Action)
    requires LocalMove(cfg, st, fits, a).Some? && LocalShape(cfg, st) && LocalOrder(cfg, st) && LocalLate(st)
    ensures LocalLate(LocalMove(cfg, st, fits, a).value.st)
  {
    LineUpIds(Ordered(cfg, st), st.delivered, InHand(st.rd), st.gone, st.tail, st.queue, st.accepted, st.overtaken);
    if OfEnqueuer(a) { EnqueueKeepsLate(cfg, st, fits, a); }
    else if OfReader(a) { ReadKeepsLate(cfg, st, a); }
    else if OfFinisher(a) { FinishKeepsLate(cfg, st, a); }
    else { DiscardKeepsLate(cfg, st, a); }
  }

  lemma EnqueueKeepsLate(cfg: Config, st: StreamState, fits: bool, a: Action)
    requires OfEnqueuer(a) && EnqueueMove(cfg, st, fits, a).Some? && LocalLate(st)
    ensures LocalLate(EnqueueMove(cfg, st, fits, a).value.st)
  {
  }

  lemma ReadKeepsLate(cfg: Config, st: StreamState, a: Action)
    requires OfReader(a) && ReadMove(cfg, st, a).Some? && LocalLate(st)
    ensures LocalLate(ReadMove(cfg, st, a).value.st)
  {
  }

  lemma FinishKeepsLate(cfg: Config, st: StreamState, a: Action)
    requires OfFinisher(a) && FinishMove(cfg, st, a).Some? && LocalLate(st) && LocalShape(cfg, st)
    requires st.queue != [] ==> st.queue[0].id == |st.accepted| - |st.queue|
    ensures LocalLate(FinishMove(cfg, st, a).value.st)
  {
  }

  lemma DiscardKeepsLate(cfg: Config, st: StreamState, a: Action)
    requires OfDiscarder(a) && DiscardMove(cfg, st, a).Some? && LocalLate(st)
    requires |st.accepted| - |st.queue| >= 0 && LateParts(|st.accepted| - |st.queue|, st.gone + st.tail, [])
    ensures LocalLate(DiscardMove(cfg, st, a).value.st)
  {
  }

  // ----- the whole system -----------------------------------------------------------

  /** Bytes held at `level` by the streams of one session, or of all sessions (None). */
  function Total(streams: seq<StreamState>, session: Option<nat>, level: nat): int {
    if streams == [] then 0
    else
      var last := streams[|streams| - 1];
      Total(streams[..|streams| - 1], session, level)
      + (if session.None? || session.value == last.session then Held(last, level) else 0)
  }

  lemma {:induction false} TotalNonNegative(streams: seq<StreamState>, session: Option<nat>, level: nat)
    ensures Total(streams, session, level) >= 0
  {
    if streams != [] { TotalNonNegative(streams[..|streams| - 1], session, level); }
  }

  lemma {:induction false} TotalUpdate(streams: seq<StreamState>, session: Option<nat>, level: nat, i: nat, st: StreamState)
    requires i < |streams| && st.session == streams[i].session
    ensures Total(streams[i := st], session, level) == Total(streams, session, level)
      + (if session.None? || session.value == st.session then Held(st, level) - Held(streams[i], level) else 0)
  {
    var n := |streams| - 1;
    if i < n {
      assert streams[i := st][..n] == streams[..n][i := st];
      TotalUpdate(streams[..n], session, level, i, st);
    } else {
      assert streams[i := st][..n] == streams[..n];
    }
  }

  lemma {:induction false} TotalCovers(streams: seq<StreamState>, session: Option<nat>, level: nat, i: nat)
    requires i < |streams| && (session.None? || session.value == streams[i].session)
    ensures Held(streams[i], level) <= Total(streams, session, level)
  {
    var n := |streams| - 1;
    if i < n { TotalCovers(streams[..n], session, level, i); }
    else { TotalNonNegative(streams[..n], session, level); }
  }

  ghost predicate LocalInv(cfg: Config, st: StreamState) {
    LocalShape(cfg, st) && LocalOrder(cfg, st) && LocalBytes(st) && LocalLate(st)
  }

  ghost predicate Locals(cfg: Config, streams: seq<StreamState>) {
    forall i :: 0 <= i < |streams| ==> LocalInv(cfg, streams[i])
  }

  /** The books: each level's usage is what the streams under it hold, within its limit. */
  ghost predicate Ledger(cfg: Config, sys: System) {
    && |sys.streamUsed| == |sys.streams|
    && (forall i :: 0 <= i < |sys.streams| ==> sys.streams[i].session < |sys.sessionUsed|)
    && (forall i :: 0 <= i < |sys.streams| ==> sys.streamUsed[i] == Held(sys.streams[i], 1) <= sys.streams[i].limit)
    && (forall s :: 0 <= s < |sys.sessionUsed| ==> sys.sessionUsed[s] == Total(sys.streams, Some(s), 2) <= cfg.sessionLimit)
    && sys.globalUsed == (if cfg.levels == 3 then Total(sys.streams, None, 3) else 0) <= cfg.globalLimit
  }

  ghost predicate Inv(cfg: Config, sys: System) {
    Ledger(cfg, sys) && Locals(cfg, sys.streams)
  }

  /** A move names a level it may charge, keeps the stream's identity, and only a fitting acquisition charges more. */
  lemma MoveCharges(cfg: Config, st: StreamState, fits: bool, a: Action)
    requires LocalMove(cfg, st, fits, a).Some? && LocalShape(cfg, st)
    ensures var m := LocalMove(cfg, st, fits, a).value;
      && m.level <= cfg.levels && m.st.session == st.session && m.st.limit == st.limit
      && (m.level == 0 ==> m.delta == 0)
      && (m.delta > 0 ==> fits && st.enq.Acquiring? && m.level == st.enq.held + 1 && m.delta == |st.enq.chunk.data|)
  {
    if OfEnqueuer(a) { EnqueueCharges(cfg, st, fits, a); }
    else if OfReader(a) { ReadReleases(cfg, st, a); }
    else if OfFinisher(a) { FinishReleases(cfg, st, a); }
    else { DiscardReleases(cfg, st, a); }
  }

  lemma EnqueueCharges(cfg: Config, st: StreamState, fits: bool, a: Action)
    requires OfEnqueuer(a) && EnqueueMove(cfg, st, fits, a).Some? && LocalShape(cfg, st)
    ensures var m := EnqueueMove(cfg, st, fits, a).value;
      && m.level <= cfg.levels && m.st.session == st.session && m.st.limit == st.limit
      && (m.level == 0 ==> m.delta == 0)
      && (m.delta > 0 ==> fits && st.enq.Acquiring? && m.level == st.enq.held + 1 && m.delta == |st.enq.chunk.data|)
  {
  }

  /** A move that only gives back. */
  predicate Releases(cfg: Config, st: StreamState, m: Move) {
    m.level <= cfg.levels && m.st.session == st.session && m.st.limit == st.limit && (m.level == 0 ==> m.delta == 0) && m.delta <= 0
  }

  lemma ReadReleases(cfg: Config, st: StreamState, a: Action)
    requires OfReader(a) && ReadMove(cfg, st, a).Some? && LocalShape(cfg, st)
    ensures Releases(cfg, st, ReadMove(cfg, st, a).value)
  {
  }

  lemma FinishReleases(cfg: Config, st: StreamState, a: Action)
    requires OfFinisher(a) && FinishMove(cfg, st, a).Some? && LocalShape(cfg, st)
    ensures Releases(cfg, st, FinishMove(cfg, st, a).value)
  {
  }

  lemma DiscardReleases(cfg: Config, st: StreamState, a: Action)
    requires OfDiscarder(a) && DiscardMove(cfg, st, a).Some? && LocalShape(cfg, st)
    ensures Releases(cfg, st, DiscardMove(cfg, st, a).value)
  {
  }

  lemma LocalInvPreserved(cfg: Config, st: StreamState, fits: bool, a: Action)
    requires ValidConfig(cfg) && LocalInv(cfg, st) && LocalMove(cfg, st, fits, a).Some?
    ensures LocalInv(cfg, LocalMove(cfg, st, fits, a).value.st)
  {
    ShapePreserved(cfg, st, fits, a);
    OrderPreserved(cfg, st, fits, a);
    BytesPreserved(cfg, st, fits, a);
    LatePreserved(cfg, st, fits, a);
  }

  ghost predicate ActOf(cfg: Config, sys: System, i: nat, a: Action, m: Move) {
    && ValidConfig(cfg) && Inv(cfg, sys) && i < |sys.streams|
    && LocalMove(cfg, sys.streams[i], NextFits(cfg, sys, i), a) == Some(m)
  }

  lemma StreamBooks(cfg: Config, sys: System, i: nat, a: Action, m: Move)
    requires ActOf(cfg, sys, i, a, m)
    ensures sys.streamUsed[i] + (if m.level == 1 then m.delta else 0) == Held(m.st, 1) <= m.st.limit
  {
    MoveCharges(cfg, sys.streams[i], NextFits(cfg, sys, i), a);
    MoveBalances(cfg, sys.streams[i], NextFits(cfg, sys, i), a, 1);
  }

  lemma SessionBooks(cfg: Config, sys: System, i: nat, a: Action, m: Move, s: nat)
    requires ActOf(cfg, sys, i, a, m) && s < |sys.sessionUsed|
    ensures sys.sessionUsed[s] + (if m.level == 2 && s == sys.streams[i].session then m.delta else 0)
         == Total(sys.streams[i := m.st], Some(s), 2) <= cfg.sessionLimit
  {
    MoveCharges(cfg, sys.streams[i], NextFits(cfg, sys, i), a);
    MoveBalances(cfg, sys.streams[i], NextFits(cfg, sys, i), a, 2);
    TotalUpdate(sys.streams, Some(s), 2, i, m.st);
  }

  lemma GlobalBooks(cfg: Config, sys: System, i: nat, a: Action, m: Move)
    requires ActOf(cfg, sys, i, a, m) && cfg.levels == 3
    ensures sys.globalUsed + (if m.level == 3 then m.delta else 0) == Total(sys.streams[i := m.st], None, 3) <= cfg.globalLimit
  {
    MoveCharges(cfg, sys.streams[i], NextFits(cfg, sys, i), a);
    MoveBalances(cfg, sys.streams[i], NextFits(cfg, sys, i), a, 3);
    TotalUpdate(sys.streams, None, 3, i, m.st);
  }

  // The books still balance once stream `i` is `st` and `delta` is charged at `level`.
  ghost predicate Rebooked(cfg: Config, sys: System, i: nat, m: Move)
    requires Indexed(sys, i)
  {
    && m.st.session == sys.streams[i].session && m.level <= cfg.levels && (m.level == 0 ==> m.delta == 0)
    && sys.streamUsed[i] + (if m.level == 1 then m.delta else 0) == Held(m.st, 1) <= m.st.limit
    && (forall s :: 0 <= s < |sys.sessionUsed| ==>
          sys.sessionUsed[s] + (if m.level == 2 && s == m.st.session then m.delta else 0)
            == Total(sys.streams[i := m.st], Some(s), 2) <= cfg.sessionLimit)
    && (cfg.levels == 3 ==>
          sys.globalUsed + (if m.level == 3 then m.delta else 0) == Total(sys.streams[i := m.st], None, 3) <= cfg.globalLimit)
  }

  lemma ChargeKeepsLedger(cfg: Config, sys: System, i: nat, m: Move)
    requires ValidConfig(cfg) && Ledger(cfg, sys) && Indexed(sys, i) && Rebooked(cfg, sys, i, m)
    ensures Ledger(cfg, Charge(sys.(streams := sys.streams[i := m.st]), i, m.level, m.delta))
  {
  }

  lemma ActRebooks(cfg: Config, sys: System, i: nat, a: Action, m: Move)
    requires ActOf(cfg, sys, i, a, m)
    ensures Rebooked(cfg, sys, i, m)
  {
    MoveCharges(cfg, sys.streams[i], NextFits(cfg, sys, i), a);
    StreamBooks(cfg, sys, i, a, m);
    forall s | 0 <= s < |sys.sessionUsed|
      ensures sys.sessionUsed[s] + (if m.level == 2 && s == m.st.session then m.delta else 0)
           == Total(sys.streams[i := m.st], Some(s), 2) <= cfg.sessionLimit
    {
      SessionBooks(cfg, sys, i, a, m, s);
    }
    if cfg.levels == 3 { GlobalBooks(cfg, sys, i, a, m); }
  }

  lemma ActPreserves(cfg: Config, sys: System, i: nat, a: Action, m: Move)
    requires ActOf(cfg, sys, i, a, m)
    ensures m.st.session == sys.streams[i].session
    ensures Inv(cfg, Charge(sys.(streams := sys.streams[i := m.st]), i, m.level, m.delta))
  {
    ActRebooks(cfg, sys, i, a, m);
    ChargeKeepsLedger(cfg, sys, i, m);
    LocalInvPreserved(cfg, sys.streams[i], NextFits(cfg, sys, i), a);
    LocalsAfterUpdate(cfg, sys.streams, i, m.st);
  }

  lemma LocalsAfterUpdate(cfg: Config, streams: seq<StreamState>, i: nat, st: StreamState)
    requires i < |streams| && LocalInv(cfg, st) && Locals(cfg, streams)
    ensures Locals(cfg, streams[i := st])
  {
    var streams' := streams[i := st];
    forall k | 0 <= k < |streams'| ensures LocalInv(cfg, streams'[k]) {
      if k != i { assert LocalInv(cfg, streams[k]); }
    }
  }

  lemma OpenSessionPreserves(cfg: Config, sys: System)
    requires ValidConfig(cfg) && Inv(cfg, sys)
    ensures Inv(cfg, Next(cfg, sys, OpenSession).value)
  {
    NoStreamsYet(sys.streams, |sys.sessionUsed|, 2);
  }

  lemma LedgerAfterOpen(cfg: Config, sys: System, st: StreamState)
    requires ValidConfig(cfg) && Ledger(cfg, sys) && st.session < |sys.sessionUsed|
    requires forall level: nat :: Held(st, level) == 0
    ensures Ledger(cfg, sys.(streams := sys.streams + [st], streamUsed := sys.streamUsed + [0]))
  {
    var streams' := sys.streams + [st];
    assert streams'[..|sys.streams|] == sys.streams;
    assert forall session: Option<nat>, level: nat :: Total(streams', session, level) == Total(sys.streams, session, level);
  }

  lemma OpenStreamPreserves(cfg: Config, sys: System, s: nat, datagram: bool, slots: nat, limit: nat)
    requires ValidConfig(cfg) && Inv(cfg, sys) && s < |sys.sessionUsed|
    ensures Inv(cfg, Next(cfg, sys, OpenStream(s, datagram, slots, limit)).value)
  {
    FreshStreamInv(cfg, s, datagram, slots, limit);
    LedgerAfterOpen(cfg, sys, FreshStream(s, datagram, slots, limit));
    LocalsAfterAppend(cfg, sys.streams, FreshStream(s, datagram, slots, limit));
  }

  lemma LocalsAfterAppend(cfg: Config, streams: seq<StreamState>, st: StreamState)
    requires LocalInv(cfg, st) && Locals(cfg, streams)
    ensures Locals(cfg, streams + [st])
  {
    var streams' := streams + [st];
    forall k | 0 <= k < |streams'| ensures LocalInv(cfg, streams'[k]) {
      if k < |streams| { assert LocalInv(cfg, streams[k]); }
    }
  }

  lemma FreshStreamInv(cfg: Config, s: nat, datagram: bool, slots: nat, limit: nat)
    ensures LocalInv(cfg, FreshStream(s, datagram, slots, limit))
    ensures forall level: nat :: Held(FreshStream(s, datagram, slots, limit), level) == 0
  {
    assert Departed(FreshStream(s, datagram, slots, limit)) == [];
  }

  lemma {:induction false} NoStreamsYet(streams: seq<StreamState>, s: nat, level: nat)
    requires forall i :: 0 <= i < |streams| ==> streams[i].session < s
    ensures Total(streams, Some(s), level) == 0
  {
    if streams != [] { NoStreamsYet(streams[..|streams| - 1], s, level); }
  }

  lemma NextPreserves(cfg: Config, sys: System, step: Step)
    requires ValidConfig(cfg) && Inv(cfg, sys) && Next(cfg, sys, step).Some?
    ensures Inv(cfg, Next(cfg, sys, step).value)
  {
    if step.Act? {
      ActPreserves(cfg, sys, step.stream, step.action,
                   LocalMove(cfg, sys.streams[step.stream], NextFits(cfg, sys, step.stream), step.action).value);
    } else if step.OpenSession? {
      OpenSessionPreserves(cfg, sys);
    } else {
      OpenStreamPreserves(cfg, sys, step.session, step.datagram, step.slots, step.limit);
    }
  }
}
