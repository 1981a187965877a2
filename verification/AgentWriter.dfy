/** The Agent's session writer. */
module AgentWriter {
  // Senders stamp and enqueue their frames under one mutex onto two bounded queues, and a
  // single writer goroutine merges the queues back into acceptance order.

  import opened Common

  const ControlCapacity := 32
  const DataCapacity := 2

  /** `order` is the acceptance stamp. */
  datatype Request = Request(order: nat, control: bool, payload: int)

  // ----- the writer's own code -----------------------------------------------------

  ghost predicate Oldest(pending: seq<Request>, p: nat) {
    p < |pending| && forall k :: 0 <= k < |pending| ==> pending[p].order <= pending[k].order
  }

  function Without(s: seq<Request>, p: nat): seq<Request>
    requires p < |s|
  {
    s[..p] + s[p + 1..]
  }

  /** The search and removal at the end of one pass of writeLoop. */
  method PickOldest(pending: seq<Request>) returns (p: nat, request: Request, rest: seq<Request>)
    requires pending != []
    ensures Oldest(pending, p) && request == pending[p] && rest == Without(pending, p)
  {
    p := 0;
    for i := 1 to |pending|
      invariant p < i && forall k :: 0 <= k < i ==> pending[p].order <= pending[k].order
    {
      if pending[i].order < pending[p].order {
        p := i;
      }
    }
    request, rest := pending[p], Without(pending, p);
  }

  // ----- the protocol ----------------------------------------------------------------

  datatype State = State(
    nextWrite: nat,
    holder: Option<Request>,      // stamped, holding writeMu, not yet enqueued
    control: seq<Request>, data: seq<Request>,
    pending: seq<Request>,
    drained: bool,                // both queues were seen empty in this pass
    accepted: seq<Request>,       // history: in order of enqueueing
    handled: seq<Request>,        // history: written, or dropped because a control caller gave up
    written: seq<Request>,
    gaveUp: set<nat>)             // stamps of the requests whose caller's context has ended

  datatype Step =
    | Stamp(isControl: bool, payload: int) | Enqueue | Abandon
    | TakeControl | TakeData | SeeBothEmpty | Write(p: nat) | Drop(p: nat)
    | GiveUp(who: set<nat>)

  const Initial := State(0, None, [], [], [], false, [], [], [], {})

  /** Only a control frame is dropped, and only if its caller has given up. */
  predicate Dropped(r: Request, gaveUp: set<nat>) { r.control && r.order in gaveUp }

  ghost predicate Next(s: State, step: Step, s': State) {
    match step
    case Stamp(isControl, payload) =>
      s.holder.None? && s' == s.(nextWrite := s.nextWrite + 1, holder := Some(Request(s.nextWrite + 1, isControl, payload)))
    case Enqueue =>
      // The mutex is kept while a full queue blocks the sender.
      && s.holder.Some?
      && var r := s.holder.value;
         if r.control then |s.control| < ControlCapacity && s' == s.(holder := None, control := s.control + [r], accepted := s.accepted + [r])
         else |s.data| < DataCapacity && s' == s.(holder := None, data := s.data + [r], accepted := s.accepted + [r])
    case Abandon => s.holder.Some? && s' == s.(holder := None)
    case TakeControl =>
      !s.drained && s.control != [] && s' == s.(control := s.control[1..], pending := s.pending + [s.control[0]])
    case TakeData =>
      !s.drained && s.data != [] && s' == s.(data := s.data[1..], pending := s.pending + [s.data[0]])
    case SeeBothEmpty =>
      !s.drained && s.control == [] && s.data == [] && s.pending != [] && s' == s.(drained := true)
    case Write(p) =>
      && s.drained && Oldest(s.pending, p) && !Dropped(s.pending[p], s.gaveUp)
      && s' == s.(drained := false, pending := Without(s.pending, p), handled := s.handled + [s.pending[p]], written := s.written + [s.pending[p]])
    case Drop(p) =>
      // A data frame is never dropped for its caller's deadline.
      && s.drained && Oldest(s.pending, p) && Dropped(s.pending[p], s.gaveUp)
      && s' == s.(drained := false, pending := Without(s.pending, p), handled := s.handled + [s.pending[p]])
    case GiveUp(who) =>
      // A context ends at any time, even before its request is stamped, and for good.
      s' == s.(gaveUp := s.gaveUp + who)
  }

  ghost predicate IsRun(run: seq<State>, steps: seq<Step>) {
    |run| == |steps| + 1 && run[0] == Initial && forall k :: 0 <= k < |steps| ==> Next(run[k], steps[k], run[k + 1])
  }

  // ----- one pass of writeLoop, as steps of the protocol ---------------------------------

  /** `path` leads from its first state to its last by `steps`. */
  ghost predicate IsPath(path: seq<State>, steps: seq<Step>) {
    |path| == |steps| + 1 && forall k :: 0 <= k < |steps| ==> Next(path[k], steps[k], path[k + 1])
  }

  lemma ExtendPath(path: seq<State>, steps: seq<Step>, step: Step, s: State)
    requires IsPath(path, steps) && Next(path[|path| - 1], step, s)
    ensures IsPath(path + [s], steps + [step])
  {
    var path', steps' := path + [s], steps + [step];
    forall k | 0 <= k < |steps'| ensures Next(path'[k], steps'[k], path'[k + 1]) {
      if k < |steps| { assert Next(path[k], steps[k], path[k + 1]); }
    }
  }

  /** One receive of the drain, from whichever queue yields. */
  method TakeOne(s: State) returns (s': State, ghost step: Step)
    requires !s.drained && (s.control != [] || s.data != [])
    ensures Next(s, step, s') && s' == s.(control := s'.control, data := s'.data, pending := s'.pending)
    ensures s.pending <= s'.pending && |s'.control| + |s'.data| < |s.control| + |s.data|
    ensures multiset(s'.pending) + multiset(s'.control) + multiset(s'.data) == multiset(s.pending) + multiset(s.control) + multiset(s.data)
  {
    if
    case s.control != [] =>
      assert s.control == [s.control[0]] + s.control[1..];
      s', step := s.(control := s.control[1..], pending := s.pending + [s.control[0]]), TakeControl;
    case s.data != [] =>
      assert s.data == [s.data[0]] + s.data[1..];
      s', step := s.(data := s.data[1..], pending := s.pending + [s.data[0]]), TakeData;
  }

  /** The drain ends only when both queues are empty. */
  method DrainQueues(s: State) returns (s': State, ghost path: seq<State>, ghost steps: seq<Step>)
    requires !s.drained
    ensures IsPath(path, steps) && path[0] == s && path[|path| - 1] == s'
    ensures s' == s.(control := [], data := [], pending := s'.pending) && s.pending <= s'.pending
    ensures multiset(s'.pending) == multiset(s.pending) + multiset(s.control) + multiset(s.data)
  {
    s', path, steps := s, [s], [];
    while s'.control != [] || s'.data != []
      invariant IsPath(path, steps) && path[0] == s && path[|path| - 1] == s'
      invariant s' == s.(control := s'.control, data := s'.data, pending := s'.pending) && s.pending <= s'.pending
      invariant multiset(s'.pending) + multiset(s'.control) + multiset(s'.data) == multiset(s.pending) + multiset(s.control) + multiset(s.data)
      decreases |s'.control| + |s'.data|
    {
      ghost var step;
      var next;
      next, step := TakeOne(s');
      ExtendPath(path, steps, step, next);
      path, steps, s' := path + [next], steps + [step], next;
    }
  }

  /**
    One pass, during which the callers in `late` give up: drain both queues, see them
    empty, pick the oldest and write it, or drop it if it is control and its caller
    has given up.
   */
  method WritePass(s: State, late: set<nat>) returns (s': State, ghost path: seq<State>, ghost steps: seq<Step>)
    requires !s.drained && (s.pending != [] || s.control != [] || s.data != [])
    ensures IsPath(path, steps) && path[0] == s && path[|path| - 1] == s' && !s'.drained
    ensures |s'.handled| == |s.handled| + 1 && s.handled <= s'.handled && s'.accepted == s.accepted
    ensures s'.gaveUp == s.gaveUp + late
    ensures Inv(s) ==> |s.handled| < |s.accepted| && s'.handled == s.accepted[..|s.handled| + 1]
    ensures Inv(s) ==> var r := s.accepted[|s.handled|];
      s'.written == if r.control && (r.order in s.gaveUp || r.order in late) then s.written else s.written + [r]
  {
    s', path, steps := DrainQueues(s);
    assert s'.pending != [] by {
      if s'.pending == [] { NothingDrained(s.pending, s.control, s.data); }
    }
    ExtendPath(path, steps, SeeBothEmpty, s'.(drained := true));
    s' := s'.(drained := true);
    path, steps := path + [s'], steps + [SeeBothEmpty];
    ExtendPath(path, steps, GiveUp(late), s'.(gaveUp := s'.gaveUp + late));
    s' := s'.(gaveUp := s'.gaveUp + late);
    path, steps := path + [s'], steps + [GiveUp(late)];
    var p, request, rest := PickOldest(s'.pending);
    var dropped := request.control && request.order in s'.gaveUp;
    ghost var step := if dropped then Drop(p) else Write(p);
    var next := s'.(drained := false, pending := rest, handled := s'.handled + [request],
                    written := if dropped then s'.written else s'.written + [request]);
    ExtendPath(path, steps, step, next);
    if Inv(s) {
      PathKeepsInv(path, steps, |path| - 1);
      PickPreserves(s', step, next);
    }
    path, steps, s' := path + [next], steps + [step], next;
  }

  lemma NothingDrained(pending: seq<Request>, control: seq<Request>, data: seq<Request>)
    requires multiset(pending) + multiset(control) + multiset(data) == multiset([])
    ensures pending == [] && control == [] && data == []
  {
    assert |multiset(pending) + multiset(control) + multiset(data)| == |pending| + |control| + |data|;
  }

  // ----- invariant -----------------------------------------------------------------------

  ghost predicate Ascending(s: seq<Request>) {
    forall i, j :: 0 <= i < j < |s| ==> s[i].order < s[j].order
  }

  ghost predicate Distinct(s: seq<Request>) {
    forall i, j :: 0 <= i < j < |s| ==> s[i] != s[j]
  }

  /** What is accepted but not yet handled, in acceptance order. */
  function Waiting(s: State): seq<Request>
    requires |s.handled| <= |s.accepted|
  {
    s.accepted[|s.handled|..]
  }

  ghost predicate Stamps(s: State) {
    && Ascending(s.accepted)
    && (forall k :: 0 <= k < |s.accepted| ==> s.accepted[k].order <= s.nextWrite)
    && (s.holder.Some? ==> s.holder.value.order == s.nextWrite && forall k :: 0 <= k < |s.accepted| ==> s.accepted[k].order < s.nextWrite)
  }

  /** Each waiting request is in exactly one of the three places. */
  ghost predicate Places(waiting: seq<Request>, pending: seq<Request>, control: seq<Request>, data: seq<Request>) {
    && Distinct(pending) && Distinct(control) && Distinct(data)
    && (forall r :: r in waiting <==> r in pending || r in control || r in data)
    && (forall r :: r in pending ==> r !in control && r !in data)
    && (forall r :: r in control ==> r !in data)
  }

  ghost predicate Inv(s: State) {
    && Stamps(s)
    && |s.handled| <= |s.accepted| && s.handled == s.accepted[..|s.handled|]
    && Places(Waiting(s), s.pending, s.control, s.data)
    && (s.drained ==> forall p, q :: p in s.pending && (q in s.control || q in s.data) ==> p.order < q.order)
  }

  lemma DistinctAppend(s: seq<Request>, r: Request)
    requires Distinct(s) && r !in s
    ensures Distinct(s + [r])
  {
  }

  lemma PlacesAfterEnqueue(waiting: seq<Request>, pending: seq<Request>, into: seq<Request>, other: seq<Request>, r: Request)
    requires Places(waiting, pending, into, other) && r !in waiting
    ensures Places(waiting + [r], pending, into + [r], other)
  {
    DistinctAppend(into, r);
  }

  lemma PlacesAfterTake(waiting: seq<Request>, pending: seq<Request>, from: seq<Request>, other: seq<Request>)
    requires from != [] && Places(waiting, pending, from, other)
    ensures Places(waiting, pending + [from[0]], from[1..], other)
  {
    assert from == [from[0]] + from[1..];
    assert from[0] !in from[1..];
    assert from[0] in from;
    DistinctAppend(pending, from[0]);
  }

  // A newly stamped request is younger than everything accepted before it.
  lemma StampsAfterEnqueue(s: State, s': State)
    requires Inv(s) && Next(s, Enqueue, s')
    ensures Stamps(s') && Waiting(s') == Waiting(s) + [s.holder.value] && s'.handled == s'.accepted[..|s'.handled|]
    ensures forall r :: r in Waiting(s) ==> r.order < s.holder.value.order
  {
    forall r | r in Waiting(s) ensures r.order < s.holder.value.order {
      var k :| 0 <= k < |Waiting(s)| && Waiting(s)[k] == r;
      assert r == s.accepted[|s.handled| + k];
    }
  }

  lemma EnqueuePreserves(s: State, s': State)
    requires Inv(s) && Next(s, Enqueue, s')
    ensures Inv(s')
  {
    var r, w := s.holder.value, Waiting(s);
    StampsAfterEnqueue(s, s');
    assert r !in w;
    if r.control {
      PlacesAfterEnqueue(w, s.pending, s.control, s.data, r);
    } else {
      PlacesSwap(w, s.pending, s.control, s.data);
      PlacesAfterEnqueue(w, s.pending, s.data, s.control, r);
      PlacesSwap(w + [r], s.pending, s'.data, s.control);
    }
  }

  lemma PlacesSwap(waiting: seq<Request>, pending: seq<Request>, control: seq<Request>, data: seq<Request>)
    requires Places(waiting, pending, control, data)
    ensures Places(waiting, pending, data, control)
  {
  }

  lemma TakePreserves(s: State, step: Step, s': State)
    requires Inv(s) && Next(s, step, s') && (step.TakeControl? || step.TakeData?)
    ensures Inv(s')
  {
    if step.TakeControl? {
      PlacesAfterTake(Waiting(s), s.pending, s.control, s.data);
    } else {
      PlacesSwap(Waiting(s), s.pending, s.control, s.data);
      PlacesAfterTake(Waiting(s), s.pending, s.data, s.control);
      PlacesSwap(Waiting(s), s'.pending, s'.data, s'.control);
    }
  }

  // After the drain the oldest pending request is the oldest waiting one.
  lemma OldestIsNext(s: State, p: nat)
    requires Inv(s) && s.drained && Oldest(s.pending, p)
    ensures Waiting(s) != [] && s.pending[p] == Waiting(s)[0]
  {
    var r, w := s.pending[p], Waiting(s);
    assert r in w;
    var first := w[0];
    if first in s.pending {
      var k :| 0 <= k < |s.pending| && s.pending[k] == first;
      assert r.order <= first.order;
    }
    var j :| 0 <= j < |w| && w[j] == r;
    assert w[j] == s.accepted[|s.handled| + j] && w[0] == s.accepted[|s.handled|];
  }

  lemma PlacesAfterPick(waiting: seq<Request>, pending: seq<Request>, control: seq<Request>, data: seq<Request>, p: nat)
    requires Places(waiting, pending, control, data) && p < |pending| && waiting != [] && waiting[0] == pending[p] && Distinct(waiting)
    ensures Places(waiting[1..], Without(pending, p), control, data)
  {
    var rest := Without(pending, p);
    assert pending == pending[..p] + [pending[p]] + pending[p + 1..];
    forall r | r in rest ensures r in pending && r != pending[p] {
      var k :| 0 <= k < |rest| && rest[k] == r;
      assert r == pending[if k < p then k else k + 1];
    }
    forall r | r in pending && r != pending[p] ensures r in rest {
      var k :| 0 <= k < |pending| && pending[k] == r;
      assert r == rest[if k < p then k else k - 1];
    }
    assert waiting == [waiting[0]] + waiting[1..];
    forall i, j | 0 <= i < j < |rest| ensures rest[i] != rest[j] {
      assert rest[i] == pending[if i < p then i else i + 1] && rest[j] == pending[if j < p then j else j + 1];
    }
  }

  lemma PickPreserves(s: State, step: Step, s': State)
    requires Inv(s) && Next(s, step, s') && (step.Write? || step.Drop?)
    ensures Inv(s') && s'.handled == s.handled + [s.accepted[|s.handled|]]
  {
    OldestIsNext(s, step.p);
    assert Waiting(s') == Waiting(s)[1..];
    assert s'.handled == s.accepted[..|s.handled| + 1];
    PlacesAfterPick(Waiting(s), s.pending, s.control, s.data, step.p);
  }

  lemma NextPreserves(s: State, step: Step, s': State)
    requires Inv(s) && Next(s, step, s')
    ensures Inv(s')
  {
    match step
    case Enqueue => EnqueuePreserves(s, s');
    case TakeControl => TakePreserves(s, step, s');
    case TakeData => TakePreserves(s, step, s');
    case Write(p) => PickPreserves(s, step, s');
    case Drop(p) => PickPreserves(s, step, s');
    case _ =>
  }

  lemma {:induction false} PathKeepsInv(path: seq<State>, steps: seq<Step>, k: nat)
    requires IsPath(path, steps) && Inv(path[0]) && k < |path|
    ensures Inv(path[k])
  {
    if k > 0 {
      PathKeepsInv(path, steps, k - 1);
      assert Next(path[k - 1], steps[k - 1], path[k - 1 + 1]);
      NextPreserves(path[k - 1], steps[k - 1], path[k]);
    }
  }

  // ----- results over every run -----------------------------------------------------------

  lemma {:induction false} RunInv(run: seq<State>, steps: seq<Step>, k: nat)
    requires IsRun(run, steps) && k < |run|
    ensures Inv(run[k])
  {
    if k > 0 {
      RunInv(run, steps, k - 1);
      assert Next(run[k - 1], steps[k - 1], run[k - 1 + 1]);
      NextPreserves(run[k - 1], steps[k - 1], run[k]);
    }
  }

  /** For every interleaving of senders, requests leave the writer exactly in acceptance order, none skipped or repeated. */
  lemma HandledInAcceptanceOrder(run: seq<State>, steps: seq<Step>, k: nat)
    requires IsRun(run, steps) && k < |run|
    ensures run[k].handled <= run[k].accepted
    ensures Ascending(run[k].handled)
  {
    RunInv(run, steps, k);
  }

  ghost predicate Subsequence(s: seq<Request>, t: seq<Request>) {
    if s == [] then true
    else t != [] && (Subsequence(s, t[..|t| - 1]) || (s[|s| - 1] == t[|t| - 1] && Subsequence(s[..|s| - 1], t[..|t| - 1])))
  }

  /** The frames on the wire carry strictly increasing stamps; every handled data frame is among them. */
  lemma {:induction false} WrittenInAcceptanceOrder(run: seq<State>, steps: seq<Step>, k: nat)
    requires IsRun(run, steps) && k < |run|
    ensures Ascending(run[k].written)
    ensures Subsequence(run[k].written, run[k].handled)
    ensures forall r :: r in run[k].handled && !r.control ==> r in run[k].written
    ensures forall r :: r in run[k].written ==> r in run[k].handled
  {
    if k > 0 {
      WrittenInAcceptanceOrder(run, steps, k - 1);
      assert Next(run[k - 1], steps[k - 1], run[k - 1 + 1]);
      HandledInAcceptanceOrder(run, steps, k);
      WrittenStep(run[k - 1], steps[k - 1], run[k]);
    }
  }

  ghost predicate WrittenWell(s: State) {
    && Ascending(s.written) && Subsequence(s.written, s.handled)
    && (forall r :: r in s.handled && !r.control ==> r in s.written)
    && (forall r :: r in s.written ==> r in s.handled)
  }

  lemma WrittenStep(s: State, step: Step, s': State)
    requires WrittenWell(s) && Next(s, step, s') && Ascending(s'.handled)
    ensures WrittenWell(s')
  {
    if step.Write? || step.Drop? {
      assert s'.handled[..|s'.handled| - 1] == s.handled;
      if step.Write? {
        assert s'.written[..|s'.written| - 1] == s.written;
        LastIsLargest(s'.handled, s.handled, s.written);
      }
    }
  }

  lemma LastIsLargest(h': seq<Request>, h: seq<Request>, w: seq<Request>)
    requires |h'| == |h| + 1 && h == h'[..|h|] && Ascending(h') && forall r :: r in w ==> r in h
    ensures forall i :: 0 <= i < |w| ==> w[i].order < h'[|h|].order
  {
    forall i | 0 <= i < |w| ensures w[i].order < h'[|h|].order {
      assert w[i] in h;
      var k :| 0 <= k < |h| && h[k] == w[i];
      assert h'[k] == w[i];
    }
  }

  // ----- what is written --------------------------------------------------------------------

  ghost predicate Happened(steps: seq<Step>, k: nat, n: nat) { exists j :: 0 <= j < k && j < |steps| && steps[j].GiveUp? && n in steps[j].who }

  /** A caller counts as gone iff its context has ended in one of the steps so far. */
  lemma {:induction false} GaveUpIff(run: seq<State>, steps: seq<Step>, k: nat, n: nat)
    requires IsRun(run, steps) && k < |run|
    ensures n in run[k].gaveUp <==> Happened(steps, k, n)
  {
    if k > 0 {
      GaveUpIff(run, steps, k - 1, n);
      assert Next(run[k - 1], steps[k - 1], run[k - 1 + 1]);
      if Happened(steps, k, n) {
        var j :| 0 <= j < k && j < |steps| && steps[j].GiveUp? && n in steps[j].who;
        assert j < k - 1 ==> Happened(steps, k - 1, n);
      }
    }
  }

  /** Step `j` handles request `i`. */
  predicate HandledBy(run: seq<State>, j: nat, i: nat) { j + 1 < |run| && |run[j].handled| == i && |run[j + 1].handled| == i + 1 }

  lemma {:induction false} HandledOnce(run: seq<State>, steps: seq<Step>, k: nat, i: nat) returns (j: nat)
    requires IsRun(run, steps) && k < |run| && i < |run[k].handled|
    ensures j < k && HandledBy(run, j, i)
  {
    assert Next(run[k - 1], steps[k - 1], run[k - 1 + 1]);
    if i < |run[k - 1].handled| { j := HandledOnce(run, steps, k - 1, i); } else { j := k - 1; }
  }

  // What one step does to the two histories.
  lemma HistoryStep(s: State, step: Step, s': State)
    requires Next(s, step, s')
    ensures Logged(s, s')
  {
  }

  predicate Logged(s: State, s': State) {
    var h, h' := s.handled, s'.handled;
    || (h' == h && s'.written == s.written)
    || (|h'| == |h| + 1 && h'[..|h|] == h && s'.written == if Dropped(h'[|h|], s.gaveUp) then s.written else s.written + [h'[|h|]])
  }

  lemma OthersStay(s: State, s': State, i: nat)
    requires Logged(s, s') && i < |s.handled| && Ascending(s'.handled)
    ensures i < |s'.handled| && s'.handled[i] == s.handled[i] && (s.handled[i] in s'.written <==> s.handled[i] in s.written)
  {
    NewIsOther(s.handled, s'.handled, i);
  }

  /**
    In every run, a handled request is missing from what was written iff it is a
    control frame whose caller had given up before the step that handled it.
   */
  lemma {:induction false} MissingIff(run: seq<State>, steps: seq<Step>, k: nat, i: nat, j: nat)
    requires IsRun(run, steps) && j < k < |run| && HandledBy(run, j, i) && i < |run[k].handled|
    ensures run[k].handled[i] !in run[k].written <==> run[k].handled[i].control && Happened(steps, j, run[k].handled[i].order)
  {
    var m := k - 1;
    assert Next(run[m], steps[m], run[m + 1]);
    HistoryStep(run[m], steps[m], run[k]);
    HandledInAcceptanceOrder(run, steps, k);
    WrittenIsHandled(run, steps, m);
    if j < m {
      HandledGrows(run, steps, j + 1, m);
      MissingIff(run, steps, m, i, j);
      OthersStay(run[m], run[k], i);
    } else {
      GaveUpIff(run, steps, j, run[k].handled[i].order);
      NewIsFresh(run[m].handled, run[k].handled, run[m].written);
    }
  }

  lemma WrittenIsHandled(run: seq<State>, steps: seq<Step>, k: nat)
    requires IsRun(run, steps) && k < |run|
    ensures forall r :: r in run[k].written ==> r in run[k].handled
  {
    WrittenInAcceptanceOrder(run, steps, k);
  }

  lemma {:induction false} HandledGrows(run: seq<State>, steps: seq<Step>, j: nat, k: nat)
    requires IsRun(run, steps) && j <= k < |run|
    ensures |run[j].handled| <= |run[k].handled|
  {
    if j < k {
      HandledGrows(run, steps, j, k - 1);
      assert Next(run[k - 1], steps[k - 1], run[k - 1 + 1]);
      HistoryStep(run[k - 1], steps[k - 1], run[k]);
    }
  }

  lemma NewIsOther(h: seq<Request>, h': seq<Request>, i: nat)
    requires Ascending(h') && i < |h| <= |h'| && h'[..|h|] == h
    ensures h'[i] == h[i] && (|h| < |h'| ==> h'[i] != h'[|h|])
  {
  }

  lemma NewIsFresh(h: seq<Request>, h': seq<Request>, w: seq<Request>)
    requires |h'| == |h| + 1 && h'[..|h|] == h && Ascending(h') && forall r :: r in w ==> r in h
    ensures h'[|h|] !in w
  {
    assert forall k :: 0 <= k < |h| ==> h'[k] == h[k] && h'[k].order < h'[|h|].order;
  }

  /** In every run the control queue holds at most 32 requests and the data queue at most two. */
  lemma {:induction false} QueuesAreBounded(run: seq<State>, steps: seq<Step>, k: nat)
    requires IsRun(run, steps) && k < |run|
    ensures |run[k].control| <= 32 && |run[k].data| <= 2
  {
    if k > 0 {
      QueuesAreBounded(run, steps, k - 1);
      assert Next(run[k - 1], steps[k - 1], run[k - 1 + 1]);
    }
  }

  /** A sender gets its stamp exactly when nobody else holds the mutex, and the stamps count up. */
  lemma StampedIff(s: State, isControl: bool, payload: int)
    ensures (exists s' :: Next(s, Stamp(isControl, payload), s')) <==> s.holder.None?
    ensures forall s' :: Next(s, Stamp(isControl, payload), s') ==>
      s'.holder.Some? && s'.holder.value.order == s.nextWrite + 1 == s'.nextWrite && s'.holder.value.control == isControl && s'.holder.value.payload == payload
  {
    var s' := s.(nextWrite := s.nextWrite + 1, holder := Some(Request(s.nextWrite + 1, isControl, payload)));
    assert s.holder.None? ==> Next(s, Stamp(isControl, payload), s');
  }

  /** The sender with the mutex gets in exactly while its own queue has room; the other queue does not matter. */
  lemma AdmittedIff(s: State)
    requires s.holder.Some?
    ensures (exists s' :: Next(s, Enqueue, s')) <==> if s.holder.value.control then |s.control| < 32 else |s.data| < 2
  {
    var r := s.holder.value;
    var s' := if r.control then s.(holder := None, control := s.control + [r], accepted := s.accepted + [r])
              else s.(holder := None, data := s.data + [r], accepted := s.accepted + [r]);
    assert (if r.control then |s.control| < 32 else |s.data| < 2) ==> Next(s, Enqueue, s');
  }

  // ----- progress ------------------------------------------------------------------------------

  /** How many steps the writer and the sender holding the mutex still have to make. */
  function Work(s: State): nat {
    (if s.holder.Some? then 4 else 0) + 3 * (|s.control| + |s.data|) + 2 * |s.pending| + (if s.drained then 0 else 1)
  }

  lemma {:induction false} SomeOldest(pending: seq<Request>) returns (p: nat)
    requires pending != []
    ensures Oldest(pending, p)
  {
    var n := |pending| - 1;
    if n == 0 {
      p := 0;
    } else {
      p := SomeOldest(pending[..n]);
      assert forall k :: 0 <= k < n ==> pending[k] == pending[..n][k];
      if pending[n].order < pending[p].order { p := n; }
    }
  }

  // The next step of the writer, or of the sender once both queues are empty.
  lemma WriterMoves(s: State) returns (step: Step, s': State)
    requires s.holder.Some? || s.control != [] || s.data != [] || s.pending != []
    requires s.drained ==> s.pending != []
    ensures Next(s, step, s') && Work(s') < Work(s) && (s'.drained ==> s'.pending != [])
    ensures s'.gaveUp == s.gaveUp && s'.accepted + Held(s') == s.accepted + Held(s)
  {
    if s.drained {
      var p := SomeOldest(s.pending);
      s' := s.(drained := false, pending := Without(s.pending, p), handled := s.handled + [s.pending[p]],
               written := if Dropped(s.pending[p], s.gaveUp) then s.written else s.written + [s.pending[p]]);
      step := if Dropped(s.pending[p], s.gaveUp) then Drop(p) else Write(p);
    } else if s.control != [] {
      step, s' := TakeControl, s.(control := s.control[1..], pending := s.pending + [s.control[0]]);
    } else if s.data != [] {
      step, s' := TakeData, s.(data := s.data[1..], pending := s.pending + [s.data[0]]);
    } else if s.pending != [] {
      step, s' := SeeBothEmpty, s.(drained := true);
    } else {
      var r := s.holder.value;
      step := Enqueue;
      s' := if r.control then s.(holder := None, control := s.control + [r], accepted := s.accepted + [r])
            else s.(holder := None, data := s.data + [r], accepted := s.accepted + [r]);
    }
  }

  function Held(s: State): seq<Request> { if s.holder.Some? then [s.holder.value] else [] }

  /** From every reachable state the writer can finish: everything stamped is accepted and handled, with nobody else moving. */
  lemma {:induction false} WriterFinishes(s: State) returns (path: seq<State>, steps: seq<Step>)
    requires Inv(s) && (s.drained ==> s.pending != [])
    ensures IsPath(path, steps) && path[0] == s
    ensures path[|path| - 1].handled == path[|path| - 1].accepted == s.accepted + Held(s)
    ensures path[|path| - 1].gaveUp == s.gaveUp
    decreases Work(s)
  {
    if s.holder.None? && s.control == [] && s.data == [] && s.pending == [] {
      path, steps := [s], [];
      NothingWaits(s);
    } else {
      var step, s' := WriterMoves(s);
      NextPreserves(s, step, s');
      path, steps := WriterFinishes(s');
      PrependPath(s, step, path, steps);
      path, steps := [s] + path, [step] + steps;
    }
  }

  lemma NothingWaits(s: State)
    requires Inv(s) && s.control == [] && s.data == [] && s.pending == []
    ensures s.handled == s.accepted
  {
    HasMember(Waiting(s));
  }

  lemma HasMember(w: seq<Request>)
    ensures w != [] ==> exists r :: r in w
  {
    if w != [] { assert w[0] in w; }
  }

  lemma PrependPath(s: State, step: Step, path: seq<State>, steps: seq<Step>)
    requires IsPath(path, steps) && Next(s, step, path[0])
    ensures IsPath([s] + path, [step] + steps)
  {
    var path', steps' := [s] + path, [step] + steps;
    forall k | 0 <= k < |steps'| ensures Next(path'[k], steps'[k], path'[k + 1]) {
      if k > 0 { assert Next(path[k - 1], steps[k - 1], path[k - 1 + 1]); }
    }
  }

  /** So every run can be continued until all that senders have stamped is handled. */
  lemma EverythingIsHandled(run: seq<State>, steps: seq<Step>, k: nat) returns (path: seq<State>, more: seq<Step>)
    requires IsRun(run, steps) && k < |run|
    ensures IsPath(path, more) && path[0] == run[k]
    ensures path[|path| - 1].handled == path[|path| - 1].accepted == run[k].accepted + Held(run[k])
  {
    RunInv(run, steps, k);
    RunDrained(run, steps, k);
    path, more := WriterFinishes(run[k]);
  }

  lemma {:induction false} RunDrained(run: seq<State>, steps: seq<Step>, k: nat)
    requires IsRun(run, steps) && k < |run|
    ensures run[k].drained ==> run[k].pending != []
  {
    if k > 0 {
      RunDrained(run, steps, k - 1);
      assert Next(run[k - 1], steps[k - 1], run[k - 1 + 1]);
    }
  }
}
