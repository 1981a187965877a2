/** What the runs of `StreamLedger` keep, deliver and give back. */
module StreamDelivery {
  // Exact books, each payload exactly once, in order unless a receive overtook, and every
  // share of the budgets, unless a payload came after the discard.

  import opened Common
  import opened StreamLedger

  // ----- results over every run ------------------------------------------------------

  /** In every state of every run the three levels of accounting are exact and within their limits. */
  lemma {:induction false} LedgerExactInEveryRun(cfg: Config, run: seq<System>, k: nat)
    requires ValidConfig(cfg) && IsRun(cfg, run) && k < |run|
    ensures Ledger(cfg, run[k])
    ensures Inv(cfg, run[k])
  {
    if k > 0 {
      LedgerExactInEveryRun(cfg, run, k - 1);
      assert CanStep(cfg, run[k - 1], run[k - 1 + 1]);
      var step :| Next(cfg, run[k - 1], step) == Some(run[k]);
      NextPreserves(cfg, run[k - 1], step);
    }
  }

  /** No release, by any goroutine at any point of any run, takes a budget below zero. */
  lemma ReleaseNeverUnderflows(cfg: Config, run: seq<System>, k: nat, i: nat, a: Action)
    requires ValidConfig(cfg) && IsRun(cfg, run) && k < |run| && Indexed(run[k], i)
    requires LocalMove(cfg, run[k].streams[i], NextFits(cfg, run[k], i), a).Some?
    ensures var m := LocalMove(cfg, run[k].streams[i], NextFits(cfg, run[k], i), a).value;
      m.delta < 0 ==> Used(run[k], i, m.level) + m.delta >= 0
  {
    LedgerExactInEveryRun(cfg, run, k);
    var sys := run[k];
    var m := LocalMove(cfg, sys.streams[i], NextFits(cfg, sys, i), a).value;
    ActRebooks(cfg, sys, i, a, m);
    TotalNonNegative(sys.streams[i := m.st], Some(m.st.session), 2);
    TotalNonNegative(sys.streams[i := m.st], None, 3);
  }

  // ----- finish and discard ---------------------------------------------------------------

  /** Nothing that came late still weighs on the budgets: each such payload is empty or reached the reader. */
  ghost predicate LateIsDelivered(st: StreamState) {
    forall n :: 0 <= st.sealedAt <= n < |st.accepted| ==> st.accepted[n].data == [] || st.accepted[n] in st.delivered
  }

  lemma {:induction false} SizeZeroIff(items: seq<Chunk>)
    ensures Size(items) == 0 <==> forall c :: c in items ==> c.data == []
  {
    if items != [] {
      SizeZeroIff(items[1..]);
      assert items == [items[0]] + items[1..];
    }
  }

  // All accepted chunks have left the queue, to the reader, for good, or into the tail.
  lemma TailEmptyIff(delivered: seq<Chunk>, gone: seq<Chunk>, tail: seq<Chunk>, acc: seq<Chunk>, o: bool, sealedAt: nat)
    requires LineUp(false, delivered + (gone + tail), [], acc, o) && sealedAt <= |acc|
    requires (forall c :: c in gone ==> c.id < sealedAt) && (forall c :: c in tail ==> c.id >= sealedAt)
    ensures Size(tail) == 0 <==> forall n :: sealedAt <= n < |acc| ==> acc[n].data == [] || acc[n] in delivered
  {
    var d := delivered + (gone + tail);
    SizeZeroIff(tail);
    if Size(tail) == 0 {
      forall n | sealedAt <= n < |acc| ensures acc[n].data == [] || acc[n] in delivered {
        LineUpExactlyOnce(false, d, [], acc, o);
        assert acc[n] in d + [];
        assert acc[n] in delivered || acc[n] in gone || acc[n] in tail;
      }
    } else {
      var c :| c in tail && c.data != [];
      InBoth(delivered, gone, tail, acc, o, c);
    }
  }

  lemma InBoth(delivered: seq<Chunk>, gone: seq<Chunk>, tail: seq<Chunk>, acc: seq<Chunk>, o: bool, c: Chunk)
    requires LineUp(false, delivered + (gone + tail), [], acc, o) && c in tail
    ensures c.id < |acc| && acc[c.id] == c && c !in delivered
  {
    var d := delivered + (gone + tail);
    var k :| 0 <= k < |tail| && tail[k] == c;
    var p := |delivered| + |gone| + k;
    assert d[p] == c;
    forall i | 0 <= i < |delivered| ensures delivered[i] != c {
      assert d[i] == delivered[i] && d[i].id != d[p].id;
    }
  }

  /**
    Once a Gateway stream is finished and discarded and its reader holds nothing,
    its share is the same at all three levels, and it is zero exactly if every
    payload that was still queued at the discarder's locked section, or accepted
    after it, is empty or reached the reader.
   */
  lemma DiscardReturnsEverythingIff(cfg: Config, run: seq<System>, k: nat, i: nat, level: nat)
    requires ValidConfig(cfg) && cfg.retain && IsRun(cfg, run) && k < |run| && i < |run[k].streams|
    requires run[k].streams[i].dis.Discarded? && run[k].streams[i].fin.Finished? && !run[k].streams[i].rd.Releasing?
    ensures i < |run[k].streamUsed| && run[k].streamUsed[i] == Held(run[k].streams[i], level)
    ensures Held(run[k].streams[i], level) == 0 <==> LateIsDelivered(run[k].streams[i])
  {
    LedgerExactInEveryRun(cfg, run, k);
    var st := run[k].streams[i];
    assert LocalInv(cfg, st);
    ShareIsTail(cfg, st, level);
    ShareIsTail(cfg, st, 1);
    LineReceived(st.delivered, st.gone, st.tail, Chunk(0, []));
    Unordered(Ordered(cfg, st), Departed(st), st.queue, st.accepted, st.overtaken, false);
    TailEmptyIff(st.delivered, st.gone, st.tail, st.accepted, false, st.sealedAt);
  }

  lemma ShareIsTail(cfg: Config, st: StreamState, level: nat)
    requires LocalShape(cfg, st) && st.dis.Discarded? && st.fin.Finished? && !st.rd.Releasing?
    ensures Held(st, level) == Size(st.tail) && st.queue == []
  {
  }

  /** One step of the system as stream `i` sees it. */
  ghost predicate StreamStep(cfg: Config, st: StreamState, st': StreamState) {
    st' == st || exists fits: bool, a: Action :: LocalMove(cfg, st, fits, a).Some? && LocalMove(cfg, st, fits, a).value.st == st'
  }

  lemma StepOfStream(cfg: Config, sys: System, sys': System, i: nat)
    requires CanStep(cfg, sys, sys') && i < |sys.streams|
    ensures i < |sys'.streams| && StreamStep(cfg, sys.streams[i], sys'.streams[i])
  {
    var step :| Next(cfg, sys, step) == Some(sys');
    if step.Act? && step.stream == i {
      var m := LocalMove(cfg, sys.streams[i], NextFits(cfg, sys, i), step.action);
      assert sys'.streams[i] == m.value.st;
    }
  }

  /** Finished, and everything accepted had left the queue at the locked section if that has passed. */
  predicate Punctual(st: StreamState) { st.fin.Finished? && (Sealed(st.dis) ==> st.sealedAt == |st.accepted|) }

  /** A finished stream takes no payload. */
  lemma FinishedRefuses(cfg: Config, st: StreamState, fits: bool, a: Action)
    requires LocalShape(cfg, st) && st.fin.Finished? && OfEnqueuer(a)
    ensures EnqueueMove(cfg, st, fits, a).None?
  {
  }

  lemma PunctualMove(cfg: Config, st: StreamState, fits: bool, a: Action)
    requires LocalShape(cfg, st) && Punctual(st) && LocalMove(cfg, st, fits, a).Some?
    ensures Punctual(LocalMove(cfg, st, fits, a).value.st)
  {
    if OfEnqueuer(a) { FinishedRefuses(cfg, st, fits, a); }
    else if OfReader(a) { PunctualRead(cfg, st, a); }
    else if OfDiscarder(a) { PunctualDiscard(cfg, st, a); }
  }

  lemma PunctualRead(cfg: Config, st: StreamState, a: Action)
    requires OfReader(a) && Punctual(st) && ReadMove(cfg, st, a).Some?
    ensures Punctual(ReadMove(cfg, st, a).value.st)
  {
  }

  lemma PunctualDiscard(cfg: Config, st: StreamState, a: Action)
    requires OfDiscarder(a) && LocalShape(cfg, st) && Punctual(st) && DiscardMove(cfg, st, a).Some?
    ensures Punctual(DiscardMove(cfg, st, a).value.st)
  {
  }

  lemma FinishedStaysPunctual(cfg: Config, st: StreamState, st': StreamState)
    requires LocalShape(cfg, st) && StreamStep(cfg, st, st') && Punctual(st)
    ensures Punctual(st')
  {
    if st' != st {
      var fits: bool, a: Action :| LocalMove(cfg, st, fits, a).Some? && LocalMove(cfg, st, fits, a).value.st == st';
      PunctualMove(cfg, st, fits, a);
    }
  }

  lemma {:induction false} PunctualRun(cfg: Config, run: seq<System>, j: nat, k: nat, i: nat)
    requires ValidConfig(cfg) && IsRun(cfg, run) && j <= k < |run| && i < |run[j].streams| && Punctual(run[j].streams[i])
    ensures i < |run[k].streams| && Punctual(run[k].streams[i])
  {
    if j < k {
      PunctualRun(cfg, run, j, k - 1, i);
      LedgerExactInEveryRun(cfg, run, k - 1);
      assert LocalInv(cfg, run[k - 1].streams[i]);
      assert CanStep(cfg, run[k - 1], run[k - 1 + 1]);
      StepOfStream(cfg, run[k - 1], run[k], i);
      FinishedStaysPunctual(cfg, run[k - 1].streams[i], run[k].streams[i]);
    }
  }

  /** The order the comments of the source intend: finished before the locked section, so the share ends at zero. */
  lemma FinishThenDiscardReturnsEverything(cfg: Config, run: seq<System>, j: nat, k: nat, i: nat, level: nat)
    requires ValidConfig(cfg) && cfg.retain && IsRun(cfg, run) && j <= k < |run| && i < |run[j].streams|
    requires run[j].streams[i].fin.Finished? && !Sealed(run[j].streams[i].dis)
    requires i < |run[k].streams| && run[k].streams[i].dis.Discarded? && !run[k].streams[i].rd.Releasing?
    ensures Held(run[k].streams[i], level) == 0
  {
    PunctualRun(cfg, run, j, k, i);
    DiscardReturnsEverythingIff(cfg, run, k, i, level);
  }

  /** Finished, discarded, and the reader gone. */
  predicate Dead(st: StreamState) { st.fin.Finished? && st.dis.Discarded? && (st.rd.Stopped? || st.rd.Ended?) }

  /** A dead stream never moves again: a share that is left stays charged. */
  lemma DeadStreamNeverMoves(cfg: Config, st: StreamState, fits: bool, a: Action)
    requires LocalShape(cfg, st) && Dead(st)
    ensures LocalMove(cfg, st, fits, a).None?
  {
    if OfEnqueuer(a) { FinishedRefuses(cfg, st, fits, a); }
  }

  lemma DeadStreamStays(cfg: Config, st: StreamState, st': StreamState)
    requires LocalShape(cfg, st) && Dead(st) && StreamStep(cfg, st, st')
    ensures st' == st
  {
    if st' != st {
      var fits: bool, a: Action :| LocalMove(cfg, st, fits, a).Some? && LocalMove(cfg, st, fits, a).value.st == st';
      DeadStreamNeverMoves(cfg, st, fits, a);
    }
  }

  lemma {:induction false} LeakIsForever(cfg: Config, run: seq<System>, j: nat, k: nat, i: nat, level: nat)
    requires ValidConfig(cfg) && IsRun(cfg, run) && j <= k < |run| && i < |run[j].streams|
    requires Dead(run[j].streams[i])
    ensures i < |run[k].streams| && run[k].streams[i] == run[j].streams[i]
    ensures Held(run[k].streams[i], level) == Held(run[j].streams[i], level)
  {
    if j < k {
      LeakIsForever(cfg, run, j, k - 1, i, level);
      LedgerExactInEveryRun(cfg, run, k - 1);
      assert LocalInv(cfg, run[k - 1].streams[i]);
      assert CanStep(cfg, run[k - 1], run[k - 1 + 1]);
      StepOfStream(cfg, run[k - 1], run[k], i);
      DeadStreamStays(cfg, run[k - 1].streams[i], run[k].streams[i]);
    }
  }

  /** Once the Agent's stream is finished and its local writer holds no payload, its share is zero at both levels. */
  lemma FinishReturnsEverything(cfg: Config, run: seq<System>, k: nat, i: nat, level: nat)
    requires ValidConfig(cfg) && !cfg.retain && IsRun(cfg, run) && k < |run| && i < |run[k].streams|
    requires run[k].streams[i].fin.Finished? && (run[k].streams[i].rd.Releasing? ==> run[k].streams[i].rd.held == 0)
    requires 1 <= level
    ensures Held(run[k].streams[i], level) == 0
    ensures i < |run[k].streamUsed| && run[k].streamUsed[i] == 0
  {
    LedgerExactInEveryRun(cfg, run, k);
    assert LocalInv(cfg, run[k].streams[i]);
  }

  /** Nothing is left in a finished queue, so draining it again on detach releases nothing twice. */
  lemma FinishedQueueIsEmpty(cfg: Config, run: seq<System>, k: nat, i: nat)
    requires ValidConfig(cfg) && IsRun(cfg, run) && k < |run| && i < |run[k].streams|
    requires run[k].streams[i].fin.Finished?
    ensures run[k].streams[i].queue == []
  {
    LedgerExactInEveryRun(cfg, run, k);
    assert LocalInv(cfg, run[k].streams[i]);
  }

  // ----- exactly once, and in order iff nothing overtook ------------------------------

  function Everything(st: StreamState): seq<Chunk> { Departed(st) + st.queue }

  ghost predicate ExactlyOnce(placed: seq<Chunk>, accepted: seq<Chunk>) {
    Distinct(placed) && forall n :: 0 <= n < |accepted| ==> accepted[n] in placed
  }

  ghost predicate HasId(s: seq<Chunk>, m: nat) { exists k :: 0 <= k < |s| && s[k].id == m }

  // Pigeonhole: n distinct ids below n are all of them.
  lemma {:induction false} DistinctCovers(s: seq<Chunk>, m: nat)
    requires m < |s| && Distinct(s) && forall k :: 0 <= k < |s| ==> s[k].id < |s|
    ensures HasId(s, m)
    decreases |s|
  {
    var n := |s| - 1;
    if HasId(s, n) {
      // Swap the chunk with the largest id to the end and look among the rest.
      var p :| 0 <= p < |s| && s[p].id == n;
      var rest := s[p := s[n]][..n];
      if m < n {
        DistinctCovers(rest, m);
        var k :| 0 <= k < |rest| && rest[k].id == m;
        assert s[if k == p then n else k].id == m;
      }
    } else {
      // All ids are below n, so the last one repeats an earlier one.
      DistinctCovers(s[..n], s[n].id);
      assert false;
    }
  }

  lemma LineUpExactlyOnce(strict: bool, d: seq<Chunk>, q: seq<Chunk>, acc: seq<Chunk>, o: bool)
    requires LineUp(strict, d, q, acc, o)
    ensures ExactlyOnce(d + q, acc)
  {
    forall n | 0 <= n < |acc| ensures acc[n] in d + q {
      if n < |d| {
        DistinctCovers(d, n);
        var k :| 0 <= k < |d| && d[k].id == n;
        assert (d + q)[k] == acc[n];
      } else {
        assert (d + q)[n] == acc[n];
      }
    }
  }

  /** At every interleaving, each accepted payload is in exactly one place: with the reader, dropped, in the tail, or queued. */
  lemma AcceptedExactlyOnce(cfg: Config, run: seq<System>, k: nat, i: nat)
    requires ValidConfig(cfg) && IsRun(cfg, run) && k < |run| && i < |run[k].streams|
    ensures ExactlyOnce(Everything(run[k].streams[i]), run[k].streams[i].accepted)
  {
    LedgerExactInEveryRun(cfg, run, k);
    var st := run[k].streams[i];
    assert LocalInv(cfg, st);
    LineUpExactlyOnce(Ordered(cfg, st), Departed(st), st.queue, st.accepted, st.overtaken);
  }

  lemma LineUpInOrderIff(d: seq<Chunk>, q: seq<Chunk>, acc: seq<Chunk>, o: bool)
    requires LineUp(true, d, q, acc, o)
    ensures d + q == acc <==> !o
  {
    if o {
      var a, b :| 0 <= a < b < |d| && d[a].id > d[b].id;
      assert (d + q)[a].id > (d + q)[b].id;
    }
  }

  /**
    Unless a discarder that began before the reader had stopped has taken something:
    the accepted payloads line up in order exactly as long as no receive has passed a
    chunk in the tail.
   */
  lemma InOrderIffNothingOvertook(cfg: Config, run: seq<System>, k: nat, i: nat)
    requires ValidConfig(cfg) && cfg.retain && IsRun(cfg, run) && k < |run| && i < |run[k].streams|
    requires !run[k].streams[i].spoiled || run[k].streams[i].gone == []
    ensures Everything(run[k].streams[i]) == run[k].streams[i].accepted <==> !run[k].streams[i].overtaken
  {
    LedgerExactInEveryRun(cfg, run, k);
    var st := run[k].streams[i];
    assert LocalInv(cfg, st);
    LineUpInOrderIff(Departed(st), st.queue, st.accepted, st.overtaken);
  }

  // ----- what the reader has, whatever the discarder does ----------------------------------

  /** Each chunk was accepted after the one before it. */
  ghost predicate Ascending(s: seq<Chunk>) { forall i, j :: 0 <= i < j < |s| ==> s[i].id < s[j].id }

  /** What the reader has, and behind it what can still reach it. */
  function Reach(delivered: seq<Chunk>, hand: seq<Chunk>, tail: seq<Chunk>, queue: seq<Chunk>): seq<Chunk> {
    delivered + (hand + (tail + queue))
  }

  ghost predicate ReadOrder(line: seq<Chunk>, n: nat, past: bool) {
    (forall k :: 0 <= k < |line| ==> line[k].id < n) && (!past ==> Ascending(line))
  }

  ghost predicate LocalRead(st: StreamState) {
    ReadOrder(Reach(st.delivered, InHand(st.rd), st.tail, st.queue), |st.accepted|, st.readPast)
  }

  lemma ReadOrderWithout(front: seq<Chunk>, block: seq<Chunk>, rest: seq<Chunk>, n: nat, past: bool)
    requires ReadOrder(front + (block + rest), n, past)
    ensures ReadOrder(front + rest, n, past)
  {
    var line, line' := front + (block + rest), front + rest;
    forall k | 0 <= k < |line'| ensures line'[k] == line[if k < |front| then k else k + |block|] {
    }
  }

  lemma ReadOrderAppended(line: seq<Chunk>, c: Chunk, past: bool)
    requires ReadOrder(line, c.id, past)
    ensures ReadOrder(line + [c], c.id + 1, past)
  {
  }

  // The queue's head moves into the tail, or is dropped.
  lemma HeadLeaves(a: seq<Chunk>, h: seq<Chunk>, t: seq<Chunk>, q: seq<Chunk>, n: nat, past: bool)
    requires q != [] && ReadOrder(Reach(a, h, t, q), n, past)
    ensures ReadOrder(Reach(a, h, t + [q[0]], q[1..]), n, past) && ReadOrder(Reach(a, h, t, q[1..]), n, past)
  {
    var front := a + (h + t);
    assert Reach(a, h, t, q) == front + ([q[0]] + q[1..]) == Reach(a, h, t + [q[0]], q[1..]);
    assert Reach(a, h, t, q[1..]) == front + q[1..];
    ReadOrderWithout(front, [q[0]], q[1..], n, past);
  }

  lemma TailLeaves(a: seq<Chunk>, h: seq<Chunk>, t: seq<Chunk>, q: seq<Chunk>, n: nat, past: bool)
    requires ReadOrder(Reach(a, h, t, q), n, past)
    ensures ReadOrder(Reach(a, h, [], q), n, past)
  {
    assert Reach(a, h, t, q) == a + h + (t + q) && Reach(a, h, [], q) == a + h + q;
    ReadOrderWithout(a + h, t, q, n, past);
  }

  // A receive past a nonempty tail: only the bound on the ids is left to keep.
  lemma ReadOrderPassed(a: seq<Chunk>, t: seq<Chunk>, q: seq<Chunk>, n: nat, past: bool)
    requires q != [] && ReadOrder(Reach(a, [], t, q), n, past)
    ensures ReadOrder(Reach(a, [q[0]], t, q[1..]), n, past || t != [])
  {
    var line, line' := Reach(a, [], t, q), Reach(a, [q[0]], t, q[1..]);
    assert t == [] ==> line == line';
    forall k | 0 <= k < |line'|
      ensures line'[k] == line[if k < |a| then k else if k == |a| then |a| + |t| else if k <= |a| + |t| then k - 1 else k]
    {
    }
  }

  lemma EnqueueKeepsRead(cfg: Config, st: StreamState, fits: bool, a: Action)
    requires OfEnqueuer(a) && EnqueueMove(cfg, st, fits, a).Some? && LocalShape(cfg, st) && LocalRead(st)
    ensures LocalRead(EnqueueMove(cfg, st, fits, a).value.st)
  {
    if a.Push? && |st.queue| < st.slots {
      var line := Reach(st.delivered, InHand(st.rd), st.tail, st.queue);
      ReadOrderAppended(line, st.enq.chunk, st.readPast);
      assert line + [st.enq.chunk] == Reach(st.delivered, InHand(st.rd), st.tail, st.queue + [st.enq.chunk]);
    }
  }

  // What is in hand is delivered, or what is taken from the tail is in hand.
  lemma ReachShifts(a: seq<Chunk>, h: seq<Chunk>, t: seq<Chunk>, q: seq<Chunk>)
    ensures Reach(a + h, [], t, q) == Reach(a, h, t, q) == Reach(a, [], h + t, q)
  {
  }

  lemma TakeTailKeepsRead(cfg: Config, st: StreamState)
    requires ReadMove(cfg, st, TakeTail).Some? && LocalRead(st)
    ensures LocalRead(ReadMove(cfg, st, TakeTail).value.st)
  {
    var st' := ReadMove(cfg, st, TakeTail).value.st;
    assert InHand(st'.rd) + st'.tail == st.tail;
    ReachShifts(st.delivered, InHand(st'.rd), st'.tail, st.queue);
  }

  lemma ReadKeepsRead(cfg: Config, st: StreamState, a: Action)
    requires OfReader(a) && ReadMove(cfg, st, a).Some? && LocalRead(st)
    ensures LocalRead(ReadMove(cfg, st, a).value.st)
  {
    if a.Receive? { ReadOrderPassed(st.delivered, st.tail, st.queue, |st.accepted|, st.readPast); }
    else if a.TakeTail? { TakeTailKeepsRead(cfg, st); }
    else if a.Deliver? { ReachShifts(st.delivered, st.rd.items, st.tail, st.queue); }
  }

  lemma FinishKeepsRead(cfg: Config, st: StreamState, a: Action)
    requires OfFinisher(a) && FinishMove(cfg, st, a).Some? && LocalShape(cfg, st) && LocalRead(st)
    ensures LocalRead(FinishMove(cfg, st, a).value.st)
  {
    if a.Drain? { HeadLeaves(st.delivered, InHand(st.rd), st.tail, st.queue, |st.accepted|, st.readPast); }
  }

  lemma DiscardKeepsRead(cfg: Config, st: StreamState, a: Action)
    requires OfDiscarder(a) && DiscardMove(cfg, st, a).Some? && LocalRead(st)
    ensures LocalRead(DiscardMove(cfg, st, a).value.st)
  {
    if a.Dump? { HeadLeaves(st.delivered, InHand(st.rd), st.tail, st.queue, |st.accepted|, st.readPast); }
    else if a.Seal? { TailLeaves(st.delivered, InHand(st.rd), st.tail, st.queue, |st.accepted|, st.readPast); }
  }

  lemma StepKeepsRead(cfg: Config, st: StreamState, st': StreamState)
    requires LocalShape(cfg, st) && LocalRead(st) && StreamStep(cfg, st, st')
    ensures LocalRead(st')
  {
    if st' != st {
      var fits: bool, a: Action :| LocalMove(cfg, st, fits, a).Some? && LocalMove(cfg, st, fits, a).value.st == st';
      if OfEnqueuer(a) { EnqueueKeepsRead(cfg, st, fits, a); }
      else if OfReader(a) { ReadKeepsRead(cfg, st, a); }
      else if OfFinisher(a) { FinishKeepsRead(cfg, st, a); }
      else { DiscardKeepsRead(cfg, st, a); }
    }
  }

  /** A stream that was not there before the step has just been opened. */
  lemma BornFresh(cfg: Config, sys: System, sys': System, i: nat)
    requires CanStep(cfg, sys, sys') && |sys.streams| <= i < |sys'.streams|
    ensures LocalRead(sys'.streams[i])
  {
    var step :| Next(cfg, sys, step) == Some(sys');
  }

  lemma {:induction false} ReadInEveryRun(cfg: Config, run: seq<System>, k: nat, i: nat)
    requires ValidConfig(cfg) && IsRun(cfg, run) && k < |run| && i < |run[k].streams|
    ensures LocalRead(run[k].streams[i])
  {
    if k > 0 {
      assert CanStep(cfg, run[k - 1], run[k - 1 + 1]);
      if i < |run[k - 1].streams| {
        ReadInEveryRun(cfg, run, k - 1, i);
        LedgerExactInEveryRun(cfg, run, k - 1);
        assert LocalInv(cfg, run[k - 1].streams[i]);
        StepOfStream(cfg, run[k - 1], run[k], i);
        StepKeepsRead(cfg, run[k - 1].streams[i], run[k].streams[i]);
      } else {
        BornFresh(cfg, run[k - 1], run[k], i);
      }
    }
  }

  /** `part` is `whole` with some of its chunks left out. */
  ghost predicate Subsequence(part: seq<Chunk>, whole: seq<Chunk>) {
    Ascending(part) && forall k :: 0 <= k < |part| ==> part[k].id < |whole| && part[k] == whole[part[k].id]
  }

  /**
    In every run of either peer, whatever the finisher and the discarder do: unless
    a receive of the reader passed a chunk in the tail, the reader has the accepted
    payloads in order, with at most some left out, and those of a byte stream make
    up what its reads returned and hold ready.
   */
  lemma ReaderIsInOrder(cfg: Config, run: seq<System>, k: nat, i: nat)
    requires ValidConfig(cfg) && IsRun(cfg, run) && k < |run| && i < |run[k].streams|
    ensures var st := run[k].streams[i];
      && (!st.readPast ==> Subsequence(st.delivered, st.accepted))
      && (st.readPast ==> st.overtaken)
      && (!st.datagram ==> st.returned + st.buffer == Flatten(st.delivered))
  {
    LedgerExactInEveryRun(cfg, run, k);
    var st := run[k].streams[i];
    assert LocalInv(cfg, st);
    ReadInEveryRun(cfg, run, k, i);
    DeliveredIsAccepted(cfg, st);
    var line := Reach(st.delivered, InHand(st.rd), st.tail, st.queue);
    assert forall n :: 0 <= n < |st.delivered| ==> line[n] == st.delivered[n];
  }

  lemma DeliveredIsAccepted(cfg: Config, st: StreamState)
    requires LocalOrder(cfg, st)
    ensures forall n :: 0 <= n < |st.delivered| ==> st.delivered[n].id < |st.accepted| && st.delivered[n] == st.accepted[st.delivered[n].id]
  {
    forall n | 0 <= n < |st.delivered| ensures Departed(st)[n] == st.delivered[n] {
    }
  }

  // ----- the end of the stream -------------------------------------------------------------

  /** A payload that a reader can miss: any datagram, any byte. */
  predicate Matters(st: StreamState, c: Chunk) { c in st.accepted && (st.datagram || c.data != []) }

  lemma {:induction false} FlattenEmptyIff(items: seq<Chunk>)
    ensures Flatten(items) == [] <==> forall c :: c in items ==> c.data == []
  {
    if items != [] {
      FlattenEmptyIff(items[1..]);
      assert items == [items[0]] + items[1..];
    }
  }

  lemma NothingLeftIff(datagram: bool, items: seq<Chunk>)
    ensures NothingLeft(datagram, items) <==> forall c :: c in items ==> !datagram && c.data == []
  {
    FlattenEmptyIff(items);
    if datagram && items != [] { assert items[0] in items; }
  }

  // At the end nothing is queued or in hand, and what is in the tail does not matter.
  lemma EndedPlaces(cfg: Config, st: StreamState, c: Chunk)
    requires LocalInv(cfg, st) && st.rd.Ended?
    ensures c in st.gone ==> c in st.accepted && c !in st.delivered
    ensures Matters(st, c) ==> c in st.delivered || c in st.gone
  {
    LineReceived(st.delivered, st.gone, st.tail, c);
    var d := st.delivered + (st.gone + st.tail);
    LineUpExactlyOnce(Ordered(cfg, st), d, [], st.accepted, st.overtaken);
    NothingLeftIff(st.datagram, st.tail);
    if c in st.gone { GoneIsApart(Ordered(cfg, st), st.delivered, st.gone, st.tail, st.accepted, st.overtaken, c); }
    if Matters(st, c) {
      var n :| 0 <= n < |st.accepted| && st.accepted[n] == c;
      assert c in d + [];
    }
  }

  lemma GoneIsApart(strict: bool, delivered: seq<Chunk>, gone: seq<Chunk>, tail: seq<Chunk>, acc: seq<Chunk>, o: bool, c: Chunk)
    requires LineUp(strict, delivered + (gone + tail), [], acc, o) && c in gone
    ensures c in acc && c !in delivered
  {
    var d := delivered + (gone + tail);
    var k :| 0 <= k < |gone| && gone[k] == c;
    var p := |delivered| + k;
    assert d[p] == c && acc[d[p].id] == c;
    forall i | 0 <= i < |delivered| ensures delivered[i] != c {
      assert d[i] == delivered[i] && d[i].id != d[p].id;
    }
  }

  /**
    When a read reports the end of the stream, the payloads the reader has missed
    are exactly those that were dropped.  On the Gateway those are the discarder's,
    and there are none unless it began before the reader had stopped.
   */
  lemma EndDeliversEverything(cfg: Config, run: seq<System>, k: nat, i: nat, c: Chunk)
    requires ValidConfig(cfg) && IsRun(cfg, run) && k < |run| && i < |run[k].streams|
    requires run[k].streams[i].rd.Ended?
    ensures var st := run[k].streams[i];
      && (Matters(st, c) ==> (c in st.delivered <==> c !in st.gone))
      && (cfg.retain && Matters(st, c) && !st.spoiled ==> c in st.delivered)
      && (!st.datagram ==> st.returned == Flatten(st.delivered))
  {
    LedgerExactInEveryRun(cfg, run, k);
    var st := run[k].streams[i];
    assert LocalInv(cfg, st);
    EndedPlaces(cfg, st, c);
    NothingLeftIff(st.datagram, st.gone);
  }

  /** So every byte, and every datagram whole, has reached the reader iff there is none among what was dropped. */
  lemma EndDeliversEverythingIff(cfg: Config, run: seq<System>, k: nat, i: nat)
    requires ValidConfig(cfg) && IsRun(cfg, run) && k < |run| && i < |run[k].streams|
    requires run[k].streams[i].rd.Ended?
    ensures var st := run[k].streams[i];
      (forall c :: Matters(st, c) ==> c in st.delivered) <==> NothingLeft(st.datagram, st.gone)
  {
    LedgerExactInEveryRun(cfg, run, k);
    var st := run[k].streams[i];
    assert LocalInv(cfg, st);
    NothingLeftIff(st.datagram, st.gone);
    forall c: Chunk ensures c in st.gone ==> c in st.accepted && c !in st.delivered
      ensures Matters(st, c) ==> c in st.delivered || c in st.gone
    {
      EndedPlaces(cfg, st, c);
    }
  }

  /** Every chunk of `whole`, or every nonempty one, is in `part`. */
  ghost predicate Covers(part: seq<Chunk>, whole: seq<Chunk>, all: bool) {
    forall c :: c in whole && (all || c.data != []) ==> c in part
  }

  // A subsequence has all the bytes exactly if it leaves out empty chunks only, and then it has them in order.
  lemma {:induction false} SubsequenceBytes(part: seq<Chunk>, whole: seq<Chunk>)
    requires Subsequence(part, whole) && forall n :: 0 <= n < |whole| ==> whole[n].id == n
    ensures |Flatten(part)| <= |Flatten(whole)|
    ensures Flatten(part) == Flatten(whole) <==> Covers(part, whole, false)
    ensures part == whole <==> Covers(part, whole, true)
  {
    if whole != [] {
      var n := |whole| - 1;
      var last, init := whole[n], whole[..n];
      assert whole == init + [last];
      FlattenLast(init, last);
      if part != [] && part[|part| - 1] == last {
        var rest := part[..|part| - 1];
        assert part == rest + [last];
        FlattenLast(rest, last);
        SubsequenceBytes(rest, init);
        SameEnd(rest, init, [last]);
        SameEnd(Flatten(rest), Flatten(init), last.data);
        CoversLast(rest, init, last, true);
        CoversLast(rest, init, last, false);
      } else {
        LastIsMissing(part, whole);
        SubsequenceBytes(part, init);
        assert last in whole && forall c :: c in whole <==> c in init || c == last;
      }
    }
  }

  lemma FlattenLast(items: seq<Chunk>, c: Chunk)
    ensures Flatten(items + [c]) == Flatten(items) + c.data
  {
    FlattenConcat(items, [c]);
    assert Flatten([c]) == c.data + Flatten([c][1..]);
  }

  lemma LastIsMissing(part: seq<Chunk>, whole: seq<Chunk>)
    requires whole != [] && Subsequence(part, whole) && whole[|whole| - 1].id == |whole| - 1
    requires part == [] || part[|part| - 1] != whole[|whole| - 1]
    ensures whole[|whole| - 1] !in part && Subsequence(part, whole[..|whole| - 1])
  {
    var n := |whole| - 1;
    forall k | 0 <= k < |part| ensures part[k].id < n {
      assert part[k].id <= part[|part| - 1].id;
    }
  }

  lemma CoversLast(rest: seq<Chunk>, init: seq<Chunk>, last: Chunk, all: bool)
    requires last !in init
    ensures Covers(rest, init, all) <==> Covers(rest + [last], init + [last], all)
  {
    if Covers(rest + [last], init + [last], all) {
      forall c | c in init && (all || c.data != []) ensures c in rest {
        assert c in init + [last];
      }
    }
  }

  lemma SameEnd<T>(a: seq<T>, b: seq<T>, z: seq<T>)
    ensures a + z == b + z <==> a == b
  {
    if a + z == b + z {
      assert |a + z| == |b + z|;
      assert a == (a + z)[..|a|] == (b + z)[..|b|] == b;
    }
  }

  /**
    At the end, unless a receive of the reader passed a chunk in the tail: the reader
    has the accepted byte sequence, or the accepted datagrams, iff there is no byte
    and no datagram among what was dropped.
   */
  lemma EndDeliversInOrderIff(cfg: Config, run: seq<System>, k: nat, i: nat)
    requires ValidConfig(cfg) && IsRun(cfg, run) && k < |run| && i < |run[k].streams|
    requires run[k].streams[i].rd.Ended? && !run[k].streams[i].readPast
    ensures var st := run[k].streams[i];
      && ((if st.datagram then st.delivered == st.accepted else st.returned == Flatten(st.accepted)) <==> NothingLeft(st.datagram, st.gone))
      && (cfg.retain && !st.spoiled ==> NothingLeft(st.datagram, st.gone))
  {
    LedgerExactInEveryRun(cfg, run, k);
    var st := run[k].streams[i];
    assert LocalInv(cfg, st);
    ReaderIsInOrder(cfg, run, k, i);
    EndDeliversEverythingIff(cfg, run, k, i);
    SubsequenceBytes(st.delivered, st.accepted);
    if st.datagram { assert forall c :: Matters(st, c) <==> c in st.accepted; }
    else { assert forall c :: Matters(st, c) <==> c in st.accepted && c.data != []; }
  }

  // ----- the overtaking run -------------------------------------------------------------

  const Small := Config(3, true, 8, 8)

  /** One session with one stream. */
  function Solo(st: StreamState, n1: int, n2: int, n3: int): System { System([st], [n1], [n2], n3) }

  lemma ExtendRun(cfg: Config, run: seq<System>, step: Step, sys: System)
    requires IsRun(cfg, run) && Next(cfg, run[|run| - 1], step) == Some(sys)
    ensures IsRun(cfg, run + [sys])
  {
    var longer := run + [sys];
    forall i, j | 0 <= i < |longer| - 1 && j == i + 1 ensures CanStep(cfg, longer[i], longer[j]) {
      if i < |run| - 1 { assert CanStep(cfg, run[i], run[j]); }
    }
  }

  function Moved(m: Move, level: nat, n: int): int { if m.level == level then n + m.delta else n }

  lemma SoloCharge(m: Move, n1: int, n2: int, n3: int)
    requires m.st.session == 0
    ensures Charge(Solo(m.st, n1, n2, n3), 0, m.level, m.delta) == Solo(m.st, Moved(m, 1, n1), Moved(m, 2, n2), Moved(m, 3, n3))
  {
    assert [n1][0 := n1 + m.delta] == [n1 + m.delta] && [n2][0 := n2 + m.delta] == [n2 + m.delta];
  }

  lemma SoloFits(st: StreamState, n1: int, n2: int, n3: int)
    requires st.session == 0 && st.limit == 8 && (st.enq.Acquiring? ==> |st.enq.chunk.data| == 1)
    requires st.enq.Acquiring? && st.enq.held < 3 ==> n1 < 8 && n2 < 8 && n3 < 8
    ensures st.enq.Acquiring? && st.enq.held < 3 ==> NextFits(Small, Solo(st, n1, n2, n3), 0)
  {
  }

  lemma SoloStep(run: seq<System>, st: StreamState, n1: int, n2: int, n3: int, a: Action, m: Move) returns (run': seq<System>)
    requires IsRun(Small, run) && run[|run| - 1] == Solo(st, n1, n2, n3) && st.session == m.st.session == 0 && st.limit == 8
    requires LocalMove(Small, st, n1 < 8 && n2 < 8 && n3 < 8, a) == Some(m)
    requires st.enq.Acquiring? ==> |st.enq.chunk.data| == 1
    requires st.enq.Acquiring? && st.enq.held < 3 ==> n1 < 8 && n2 < 8 && n3 < 8
    ensures IsRun(Small, run')
    ensures run' != [] && run'[|run'| - 1] == Solo(m.st, Moved(m, 1, n1), Moved(m, 2, n2), Moved(m, 3, n3))
  {
    var sys, sys' := Solo(st, n1, n2, n3), Solo(m.st, Moved(m, 1, n1), Moved(m, 2, n2), Moved(m, 3, n3));
    SoloFits(st, n1, n2, n3);
    assert LocalMove(Small, st, NextFits(Small, sys, 0), a) == Some(m);
    assert sys.streams[0 := m.st] == sys'.streams;
    SoloCharge(m, n1, n2, n3);
    ExtendRun(Small, run, Act(0, a), sys');
    run' := run + [sys'];
  }

  /** A one-byte payload passes the three budgets and is queued. */
  lemma SoloEnqueue(run: seq<System>, st: StreamState, n: int, b: byte) returns (run': seq<System>, st': StreamState)
    requires IsRun(Small, run) && run[|run| - 1] == Solo(st, n, n, n) && n < 7
    requires st.session == 0 && st.limit == 8 && st.enq.Resting? && st.fin.NotFinished? && |st.queue| < st.slots
    ensures var c := Chunk(|st.accepted|, [b]); st' == st.(queue := st.queue + [c], accepted := st.accepted + [c])
    ensures IsRun(Small, run') && run'[|run'| - 1] == Solo(st', n + 1, n + 1, n + 1)
  {
    var c := Chunk(|st.accepted|, [b]);
    st' := st.(queue := st.queue + [c], accepted := st.accepted + [c]);
    run' := SoloStep(run, st, n, n, n, Begin([b]), Move(st.(enq := Acquiring(c, 0)), 0, 0));
    run' := SoloStep(run', st.(enq := Acquiring(c, 0)), n, n, n, AcquireNext, Move(st.(enq := Acquiring(c, 1)), 1, 1));
    run' := SoloStep(run', st.(enq := Acquiring(c, 1)), n + 1, n, n, AcquireNext, Move(st.(enq := Acquiring(c, 2)), 2, 1));
    run' := SoloStep(run', st.(enq := Acquiring(c, 2)), n + 1, n + 1, n, AcquireNext, Move(st.(enq := Acquiring(c, 3)), 3, 1));
    run' := SoloStep(run', st.(enq := Acquiring(c, 3)), n + 1, n + 1, n + 1, Push, Move(st', 0, 0));
  }

  lemma SoloOpen() returns (run: seq<System>)
    ensures IsRun(Small, run) && run[|run| - 1] == Solo(FreshStream(0, false, 4, 8), 0, 0, 0)
  {
    var st := FreshStream(0, false, 4, 8);
    var sessionOnly := System([], [], [0], 0);
    assert Empty.sessionUsed + [0] == [0];
    ExtendRun(Small, [Empty], OpenSession, sessionOnly);
    run := [Empty] + [sessionOnly];
    assert sessionOnly.streams + [st] == [st] && sessionOnly.streamUsed + [0] == [0];
    ExtendRun(Small, run, OpenStream(0, false, 4, 8), Solo(st, 0, 0, 0));
    run := run + [Solo(st, 0, 0, 0)];
  }

  lemma SoloRace(run: seq<System>, st: StreamState, a: Chunk, b: Chunk) returns (run': seq<System>)
    requires IsRun(Small, run) && run[|run| - 1] == Solo(st, 2, 2, 2) && st.session == 0 && st.limit == 8
    requires st.queue == [a, b] && st.tail == [] && st.buffer == []
    requires st.enq.Resting? && st.fin.NotFinished? && st.rd.Waiting?
    ensures IsRun(Small, run') && run'[|run'| - 1] == Solo(st.(fin := Draining, queue := [], tail := [a],
      rd := Releasing([b], 3), overtaken := true, readPast := true), 2, 2, 2)
  {
    var st1 := st.(fin := Draining);
    var st2 := st1.(queue := [b], tail := [a]);
    var st3 := st2.(queue := [], rd := Releasing([b], 3), overtaken := true, readPast := true);
    run' := SoloStep(run, st, 2, 2, 2, Finish, Move(st1, 0, 0));
    assert [a, b][1..] == [b] && [] + [a] == [a] && [b][1..] == [];
    run' := SoloStep(run', st1, 2, 2, 2, Drain, Move(st2, 0, 0));
    run' := SoloStep(run', st2, 2, 2, 2, Receive, Move(st3, 0, 0));
  }

  /**
    The source permits it: two payloads are accepted, the finisher drains the first,
    the reader receives the second, and will see the second before the first.
   */
  lemma OvertakingHappens() returns (run: seq<System>)
    ensures ValidConfig(Small) && IsRun(Small, run) && |run[|run| - 1].streams| == 1
    ensures run[|run| - 1].streams[0].accepted == [Chunk(0, [1]), Chunk(1, [2])]
    ensures Everything(run[|run| - 1].streams[0]) == [Chunk(1, [2]), Chunk(0, [1])]
  {
    var a, b := Chunk(0, [1]), Chunk(1, [2]);
    run := SoloOpen();
    var st;
    run, st := SoloEnqueue(run, FreshStream(0, false, 4, 8), 0, 1);
    run, st := SoloEnqueue(run, st, 1, 2);
    assert st.queue == st.accepted == [a, b];
    run := SoloRace(run, st, a, b);
    assert Departed(run[|run| - 1].streams[0]) == [b, a];
  }

  // ----- the leaking run ----------------------------------------------------------------

  /** The discarder finds the queue empty. */
  lemma SoloEmpty(run: seq<System>, st: StreamState, n: int) returns (run': seq<System>, st': StreamState)
    requires IsRun(Small, run) && run[|run| - 1] == Solo(st, n, n, n) && st.session == 0 && st.limit == 8
    requires st.dis.NotDiscarded? && st.queue == [] && st.enq.Resting?
    ensures st' == st.(dis := SeenEmpty, spoiled := !(st.rd.Stopped? || st.rd.Ended?))
    ensures IsRun(Small, run') && run'[|run'| - 1] == Solo(st', n, n, n)
  {
    var st1 := st.(dis := Emptying, spoiled := !(st.rd.Stopped? || st.rd.Ended?));
    st' := st1.(dis := SeenEmpty);
    run' := SoloStep(run, st, n, n, n, Discard, Move(st1, 0, 0));
    run' := SoloStep(run', st1, n, n, n, SeeEmpty, Move(st', 0, 0));
  }

  /** It takes the tail under the lock and releases it at the three levels. */
  lemma SoloSeal(run: seq<System>, st: StreamState, n: int, z: nat) returns (run': seq<System>, st': StreamState)
    requires IsRun(Small, run) && run[|run| - 1] == Solo(st, n, n, n) && st.session == 0 && st.limit == 8
    requires st.dis.SeenEmpty? && st.enq.Resting? && !st.fin.Draining? && z == Size(st.tail)
    ensures st' == st.(dis := Discarded, tail := [], gone := st.gone + st.tail, sealedAt := |st.accepted| - |st.queue|)
    ensures IsRun(Small, run') && run'[|run'| - 1] == Solo(st', n - z, n - z, n - z)
  {
    var t, d := st.tail, 0 - z;
    var sealed := st.(tail := [], gone := st.gone + t, sealedAt := |st.accepted| - |st.queue|);
    run' := SoloStep(run, st, n, n, n, Seal, Move(sealed.(dis := Discarding(t, 3)), 0, 0));
    run' := SoloRelease(run', sealed, t, n, z);
    st' := sealed.(dis := Discarded);
  }

  lemma SoloRelease(run: seq<System>, st: StreamState, t: seq<Chunk>, n: int, z: nat) returns (run': seq<System>)
    requires IsRun(Small, run) && run[|run| - 1] == Solo(st.(dis := Discarding(t, 3)), n, n, n) && st.session == 0 && st.limit == 8 && st.enq.Resting? && z == Size(t)
    ensures IsRun(Small, run') && run'[|run'| - 1] == Solo(st.(dis := Discarded), n - z, n - z, n - z)
  {
    var h3, h2, h1, h0 := st.(dis := Discarding(t, 3)), st.(dis := Discarding(t, 2)), st.(dis := Discarding(t, 1)), st.(dis := Discarding(t, 0));
    run' := SoloStep(run, h3, n, n, n, DiscardNext, Move(h2, 3, 0 - z));
    run' := SoloStep(run', h2, n, n, n - z, DiscardNext, Move(h1, 2, 0 - z));
    run' := SoloStep(run', h1, n, n - z, n - z, DiscardNext, Move(h0, 1, 0 - z));
    run' := SoloStep(run', h0, n - z, n - z, n - z, DiscardNext, Move(st.(dis := Discarded), 0, 0));
  }

  lemma SoloFinish(run: seq<System>, st: StreamState, c: Chunk) returns (run': seq<System>, st': StreamState)
    requires IsRun(Small, run) && run[|run| - 1] == Solo(st, 1, 1, 1) && st.session == 0 && st.limit == 8
    requires st.queue == [c] && st.tail == [] && st.enq.Resting? && st.fin.NotFinished?
    ensures st' == st.(fin := Finished, queue := [], tail := [c])
    ensures IsRun(Small, run') && run'[|run'| - 1] == Solo(st', 1, 1, 1)
  {
    var st1 := st.(fin := Draining);
    var st2 := st1.(queue := [], tail := [c]);
    st' := st2.(fin := Finished);
    run' := SoloStep(run, st, 1, 1, 1, Finish, Move(st1, 0, 0));
    assert [c][1..] == [] && [] + [c] == [c];
    run' := SoloStep(run', st1, 1, 1, 1, Drain, Move(st2, 0, 0));
    run' := SoloStep(run', st2, 1, 1, 1, Ready, Move(st', 0, 0));
  }

  /**
    The source permits it: while another goroutine owns the detach, the handler
    discards first; a payload is accepted after that and finish retains it.  All
    three budgets stay charged with nobody left to release them.
   */
  lemma LeakHappens() returns (run: seq<System>)
    ensures ValidConfig(Small) && IsRun(Small, run) && |run[|run| - 1].streams| == 1
    ensures run[|run| - 1].streams[0].fin.Finished? && run[|run| - 1].streams[0].dis.Discarded?
    ensures run[|run| - 1].streamUsed == [1] && run[|run| - 1].sessionUsed == [1] && run[|run| - 1].globalUsed == 1
  {
    var c, st := Chunk(0, [1]), FreshStream(0, false, 4, 8);
    run := SoloOpen();
    run := SoloStep(run, st, 0, 0, 0, Stop, Move(st.(rd := Stopped), 0, 0));
    run, st := SoloEmpty(run, st.(rd := Stopped), 0);
    run, st := SoloSeal(run, st, 0, 0);
    run, st := SoloEnqueue(run, st, 0, 1);
    assert st.queue == [c];
    run, st := SoloFinish(run, st, c);
  }

  /**
    A discarder that does not wait for the reader takes the tail from under it: the
    read then reports the end, and the accepted byte was never delivered.
   */
  lemma TruncationHappens() returns (run: seq<System>)
    ensures ValidConfig(Small) && IsRun(Small, run) && |run[|run| - 1].streams| == 1
    ensures run[|run| - 1].streams[0].rd.Ended? && run[|run| - 1].streams[0].spoiled
    ensures run[|run| - 1].streams[0].accepted == [Chunk(0, [1])] && run[|run| - 1].streams[0].returned == []
  {
    var c, st := Chunk(0, [1]), FreshStream(0, false, 4, 8);
    run := SoloOpen();
    run, st := SoloEnqueue(run, st, 0, 1);
    assert st.queue == [c];
    run, st := SoloFinish(run, st, c);
    run, st := SoloEmpty(run, st, 1);
    assert Size([c]) == 1;
    run, st := SoloSeal(run, st, 1, 1);
    run := SoloStep(run, st, 0, 0, 0, End, Move(st.(rd := Ended), 0, 0));
  }
}
