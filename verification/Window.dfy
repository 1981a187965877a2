/** Sender-side credit of one flow-controlled stream. */
module Window {

  const MaxWindowCredit := 8 * 1024 * 1024
  const HeaderAllowance := 64 * 1024

  datatype Outcome = Done | Invalid | OverGrant | WasClosed(err: int) | ContextDone | StillWaiting

  /** The fields of a window as a value. */
  datatype Credit = Credit(credit: int, limit: int, closed: bool, err: int)

  /** What other goroutines can do to a window while a taker waits on it. */
  datatype Wakeup = Granted(size: int) | Shut(err: int) | Cancelled

  ghost predicate Sound(w: Credit) { 0 <= w.credit <= w.limit && w.limit >= 1 }

  function AddResult(w: Credit, size: int): Outcome {
    if size <= 0 || size > w.limit then Invalid
    else if w.closed then WasClosed(w.err)
    else if w.credit + size > w.limit then OverGrant
    else Done
  }

  function Add(w: Credit, size: int): Credit {
    if AddResult(w, size).Done? then w.(credit := w.credit + size) else w
  }

  function Close(w: Credit, err: int): Credit {
    if w.closed then w else w.(closed := true, err := err)
  }

  function Wake(w: Credit, e: Wakeup): Credit {
    match e
    case Granted(n) => Add(w, n)
    case Shut(err) => Close(w, err)
    case Cancelled => w
  }

  /** The window after the first `k` wake-ups, none of which the taker has acted on. */
  function After(w: Credit, wakeups: seq<Wakeup>, k: nat): Credit
    requires k <= |wakeups|
  {
    if k == 0 then w else Wake(After(w, wakeups, k - 1), wakeups[k - 1])
  }

  /** A taker of `size` bytes makes up its mind in state `w`. */
  predicate Decided(w: Credit, size: int) { w.closed || w.credit >= size }

  /** A taker of `size` bytes waits through the first `n` wake-ups: nothing lets it decide and nothing cancels it. */
  ghost predicate Waits(w: Credit, wakeups: seq<Wakeup>, n: nat, size: int)
    requires n <= |wakeups|
  {
    forall k :: 0 <= k < n ==> !Decided(After(w, wakeups, k), size) && !wakeups[k].Cancelled?
  }

  lemma {:induction false} AfterSound(w: Credit, wakeups: seq<Wakeup>, k: nat)
    requires Sound(w) && k <= |wakeups|
    ensures Sound(After(w, wakeups, k)) && After(w, wakeups, k).limit == w.limit
  {
    if k > 0 { AfterSound(w, wakeups, k - 1); }
  }

  /** The first close decides: from then on nothing changes any more, neither the error nor the credit. */
  lemma {:induction false} FirstCloseWins(w: Credit, wakeups: seq<Wakeup>, k: nat, l: nat)
    requires k < l <= |wakeups| && wakeups[k].Shut? && !After(w, wakeups, k).closed
    ensures After(w, wakeups, l) == After(w, wakeups, k).(closed := true, err := wakeups[k].err)
  {
    if k + 1 < l { FirstCloseWins(w, wakeups, k, l - 1); }
  }

  /** What the applied grants among the first k wake-ups amount to. */
  function Applied(w: Credit, wakeups: seq<Wakeup>, k: nat): int
    requires k <= |wakeups|
  {
    if k == 0 then 0
    else Applied(w, wakeups, k - 1) + (match wakeups[k - 1]
      case Granted(n) => if 1 <= n && !After(w, wakeups, k - 1).closed && After(w, wakeups, k - 1).credit + n <= w.limit then n else 0
      case _ => 0)
  }

  /** Credit is exactly what it was plus the grants that kept it within the limit. */
  lemma {:induction false} CreditIsGranted(w: Credit, wakeups: seq<Wakeup>, k: nat)
    requires Sound(w) && k <= |wakeups|
    ensures After(w, wakeups, k).credit == w.credit + Applied(w, wakeups, k)
  {
    if k > 0 {
      CreditIsGranted(w, wakeups, k - 1);
      AfterSound(w, wakeups, k - 1);
    }
  }

  class StreamWindow {
    var credit: int
    const limit: int
    var closed: bool
    var err: int

    ghost function State(): Credit
      reads this
    {
      Credit(credit, limit, closed, err)
    }

    constructor (limit: int)
      ensures State() == Credit(0, if limit <= 0 then 1 else limit, false, 0)
      ensures Sound(State())
    {
      this.limit := if limit <= 0 then 1 else limit;
      credit, closed, err := 0, false, 0;
    }

    /** A grant is applied whole or not at all, and never beyond the limit. */
    method AddCredit(size: int) returns (r: Outcome)
      requires Sound(State())
      modifies this
      ensures Sound(State()) && State() == Add(old(State()), size)
      ensures r == AddResult(old(State()), size)
      ensures r == Done <==> 1 <= size && !old(closed) && old(credit) + size <= limit
      ensures r == Invalid <==> size < 1 || size > limit
    {
      if size <= 0 || size > limit {
        return Invalid;
      }
      if closed {
        return WasClosed(err);
      }
      if credit + size > limit {
        return OverGrant;
      }
      credit := credit + size;
      return Done;
    }

    method CloseWindow(e: int)
      modifies this
      ensures State() == Close(old(State()), e)
    {
      if closed {
        return;
      }
      closed, err := true, e;
    }

    /**
      Take with the wake-ups that happen while it waits: it decides in the first
      state that lets it, and consumes exactly `size` bytes of credit if it succeeds.
     */
    method Take(size: int, wakeups: seq<Wakeup>) returns (r: Outcome, seen: nat)
      requires Sound(State())
      modifies this
      ensures Sound(State()) && seen <= |wakeups|
      ensures (size <= 0 || size > limit) ==> r == Invalid && State() == old(State())
      ensures 0 < size <= limit ==> var w := After(old(State()), wakeups, seen);
        && Waits(old(State()), wakeups, seen, size)
        && (r == Done ==> !w.closed && w.credit >= size && State() == w.(credit := w.credit - size))
        && (r != Done ==> State() == w)
        && (r.WasClosed? ==> w.closed && r.err == w.err)
        && (r.StillWaiting? ==> seen == |wakeups| && !Decided(w, size))
        && (r.ContextDone? ==> !Decided(w, size) && seen < |wakeups| && wakeups[seen].Cancelled?)
        && !r.Invalid? && !r.OverGrant?
    {
      seen := 0;
      if size <= 0 || size > limit {
        return Invalid, 0;
      }
      while true
        invariant seen <= |wakeups| && Sound(State())
        invariant State() == After(old(State()), wakeups, seen)
        invariant Waits(old(State()), wakeups, seen, size)
        decreases |wakeups| - seen
      {
        if closed {
          return WasClosed(err), seen;
        }
        if credit >= size {
          credit := credit - size;
          return Done, seen;
        }
        if seen == |wakeups| {
          return StillWaiting, seen;
        }
        match wakeups[seen] {
          case Granted(n) => var _ := AddCredit(n);
          case Shut(e) => CloseWindow(e);
          case Cancelled => return ContextDone, seen;
        }
        seen := seen + 1;
      }
    }
  }

  /** The first grant a receiver makes out of its byte budget. */
  function InitialCredit(budget: int): (r: int)
    ensures 1 <= r <= MaxWindowCredit && (1 <= budget ==> r <= budget)
    ensures 1 <= budget <= MaxWindowCredit ==> r == budget
    ensures budget < 1 ==> r == 1
    ensures budget > MaxWindowCredit ==> r == MaxWindowCredit
  {
    if budget < 1 then 1 else if budget > MaxWindowCredit then MaxWindowCredit else budget
  }
}
