/** Per-key admission: bounded concurrency and rate, with a reduced fair share under contention. */
module Admission {
  import opened Common
  import opened TokenBuckets

  const NoKey: Key := 0
  const ContentionWindow: real := 2.0

  /** Three quarters of the allowance, strictly below it. */
  function FairnessShare(global: int): (share: int)
    ensures global >= 2 ==> 1 <= share < global && 4 * share <= 3 * global < 4 * (share + 1)
    ensures global <= 1 ==> share == global
  {
    if global <= 1 then global else
      var share := global * 3 / 4;
      var share := if share >= global then global - 1 else share;
      if share < 1 then 1 else share
  }

  datatype Config = Config(maxInFlight: int, rate: int, burst: int, alwaysFair: bool, maxTracked: nat)

  datatype Entry = Entry(inFlight: int, bucket: Bucket)

  datatype Verdict = Accepted | RejectedRate | RejectedConcurrency

  datatype Limiter = Limiter(states: map<Key, Entry>, recentKey: Key, recentAt: real, previousKey: Key, previousAt: real)

  function InFlight(l: Limiter, key: Key): int { if key in l.states then l.states[key].inFlight else 0 }

  predicate OtherKeyRecentlySeen(l: Limiter, key: Key, now: real) {
    || (l.recentKey != NoKey && l.recentKey != key && l.recentAt >= now - ContentionWindow)
    || (l.previousKey != NoKey && l.previousKey != key && l.previousAt >= now - ContentionWindow)
  }

  predicate Contended(cfg: Config, l: Limiter, key: Key, now: real) { cfg.alwaysFair || OtherKeyRecentlySeen(l, key, now) }

  function Observed(l: Limiter, key: Key, now: real): Limiter {
    if l.recentKey == key then l.(recentAt := now)
    else l.(previousKey := l.recentKey, previousAt := l.recentAt, recentKey := key, recentAt := now)
  }

  function Share(contended: bool, allowance: int): int { if contended then FairnessShare(allowance) else allowance }

  function Entered(cfg: Config, m: map<Key, Entry>, key: Key, now: real): map<Key, Entry> {
    if key in m then m else m[key := Entry(0, Bucket(cfg.burst as real, now))]
  }

  /** Entries with nothing in flight go, except the caller's own. */
  function WithoutIdle(m: map<Key, Entry>, key: Key): map<Key, Entry> {
    map k | k in m && (k == key || m[k].inFlight != 0) :: m[k]
  }

  function Made(cfg: Config, m: map<Key, Entry>, key: Key, now: real): map<Key, Entry> {
    var e := Entered(cfg, m, key, now);
    if key !in m && |e| > cfg.maxTracked then WithoutIdle(e, key) else e
  }

  function Judge(cfg: Config, l: Limiter, key: Key, now: real): Verdict {
    var fair := Contended(cfg, l, key, now);
    var e := Entered(cfg, l.states, key, now)[key];
    if e.inFlight >= Share(fair, cfg.maxInFlight) then RejectedConcurrency
    else if Grants(e.bucket, now, Share(fair, cfg.rate) as real, Share(fair, cfg.burst) as real) then Accepted
    else RejectedRate
  }

  function Charged(cfg: Config, fair: bool, e: Entry, now: real, v: Verdict): Entry {
    var bucket := Used(e.bucket, now, Share(fair, cfg.rate) as real, Share(fair, cfg.burst) as real);
    match v
    case RejectedConcurrency => e
    case RejectedRate => Entry(e.inFlight, bucket)
    case Accepted => Entry(e.inFlight + 1, bucket)
  }

  function Acquired(cfg: Config, l: Limiter, key: Key, now: real): Limiter {
    var m := Made(cfg, l.states, key, now);
    var e := Charged(cfg, Contended(cfg, l, key, now), m[key], now, Judge(cfg, l, key, now));
    Observed(l, key, now).(states := m[key := e])
  }

  class KeyedAdmissionLimiter {
    const cfg: Config
    var states: map<Key, Entry>
    var recentKey: Key
    var recentAt: real
    var previousKey: Key
    var previousAt: real
    var rejected: nat

    constructor (cfg: Config)
      ensures this.cfg == cfg && Contents() == Fresh && rejected == 0
    {
      this.cfg, states, rejected := cfg, map[], 0;
      recentKey, recentAt, previousKey, previousAt := NoKey, 0.0, NoKey, 0.0;
    }

    function Contents(): Limiter
      reads this
    {
      Limiter(states, recentKey, recentAt, previousKey, previousAt)
    }

    method TryAcquire(key: Key, now: real) returns (v: Verdict)
      modifies this
      ensures Contents() == Acquired(cfg, old(Contents()), key, now)
      ensures v == Judge(cfg, old(Contents()), key, now)
      ensures rejected == old(rejected) + (if v.Accepted? then 0 else 1)
    {
      var contended := cfg.alwaysFair || OtherKeyRecentlySeen(Contents(), key, now);
      ObserveKey(key, now);
      var maxInFlight, rate, burst := cfg.maxInFlight, cfg.rate, cfg.burst;
      if contended {
        maxInFlight, rate, burst := FairnessShare(maxInFlight), FairnessShare(rate), FairnessShare(burst);
      }
      if key !in states {
        states := states[key := Entry(0, Bucket(cfg.burst as real, now))];
        if |states| > cfg.maxTracked {
          SweepIdle(key);
        }
      }
      assert states == Made(cfg, old(states), key, now);
      v := Charge(key, now, maxInFlight, rate, burst);
    }

    method ObserveKey(key: Key, now: real)
      modifies this`recentKey, this`recentAt, this`previousKey, this`previousAt
      ensures Contents() == Observed(old(Contents()), key, now)
    {
      if recentKey == key {
        recentAt := now;
        return;
      }
      previousKey, previousAt := recentKey, recentAt;
      recentKey, recentAt := key, now;
    }

    method SweepIdle(key: Key)
      modifies this`states
      ensures states == WithoutIdle(old(states), key)
    {
      var todo := states.Keys;
      while todo != {}
        invariant todo <= states.Keys <= old(states).Keys
        invariant forall k :: k in states ==> states[k] == old(states)[k]
        invariant forall k :: k in old(states) && (k in todo || k == key || old(states)[k].inFlight != 0) ==> k in states
        invariant forall k :: k in states && k !in todo ==> k == key || old(states)[k].inFlight != 0
        decreases todo
      {
        var k :| k in todo;
        todo := todo - {k};
        if states[k].inFlight == 0 && k != key {
          states := states - {k};
        }
      }
    }

    method Charge(key: Key, now: real, maxInFlight: int, rate: int, burst: int) returns (v: Verdict)
      requires key in states
      modifies this`states, this`rejected
      ensures v.RejectedConcurrency? <==> old(states)[key].inFlight >= maxInFlight
      ensures v.Accepted? <==> old(states)[key].inFlight < maxInFlight && Grants(old(states)[key].bucket, now, rate as real, burst as real)
      ensures rejected == old(rejected) + (if v.Accepted? then 0 else 1)
      ensures v.RejectedConcurrency? ==> states == old(states)
      ensures !v.RejectedConcurrency? ==> states == old(states)[key :=
        Entry(old(states)[key].inFlight + (if v.Accepted? then 1 else 0), Used(old(states)[key].bucket, now, rate as real, burst as real))]
    {
      var state := states[key];
      if state.inFlight >= maxInFlight {
        rejected := rejected + 1;
        return RejectedConcurrency;
      }
      var t := if now < state.bucket.last then state.bucket.last else now;
      var tokens := state.bucket.tokens + Gain(state.bucket.last, t, rate as real);
      if tokens > burst as real {
        tokens := burst as real;
      }
      assert Refilled(state.bucket, now, rate as real, burst as real) == Bucket(tokens, t);
      if tokens < 1.0 {
        states := states[key := Entry(state.inFlight, Bucket(tokens, t))];
        rejected := rejected + 1;
        return RejectedRate;
      }
      states := states[key := Entry(state.inFlight + 1, Bucket(tokens - 1.0, t))];
      v := Accepted;
    }

    /** Returns false where the source panics. */
    method Release(key: Key) returns (ok: bool)
      modifies this`states
      ensures ok == CanRelease(old(Contents()), key)
      ensures Contents() == if ok then Released(old(Contents()), key) else old(Contents())
    {
      if key !in states || states[key].inFlight <= 0 {
        return false;
      }
      states := states[key := states[key].(inFlight := states[key].inFlight - 1)];
      ok := true;
    }
  }

  const Fresh := Limiter(map[], NoKey, 0.0, NoKey, 0.0)

  predicate CanRelease(l: Limiter, key: Key) { key in l.states && l.states[key].inFlight > 0 }

  function Released(l: Limiter, key: Key): Limiter
    requires CanRelease(l, key)
  {
    l.(states := l.states[key := l.states[key].(inFlight := l.states[key].inFlight - 1)])
  }

  // --------------------------------------------------------------- accounting

  /** An acquire changes the in-flight count of its own key only, by one exactly when accepted. */
  lemma AcquireCounts(cfg: Config, l: Limiter, key: Key, now: real, k: Key)
    ensures InFlight(Acquired(cfg, l, key, now), k) == InFlight(l, k) + (if k == key && Judge(cfg, l, key, now).Accepted? then 1 else 0)
  {
    var m := Made(cfg, l.states, key, now);
    assert m[key] == Entered(cfg, l.states, key, now)[key];
  }

  predicate Capped(l: Limiter, cap: int) { forall k :: k in l.states ==> 0 <= l.states[k].inFlight <= cap }

  /** The cap that binds at all times. */
  function Cap(cfg: Config): int { if cfg.alwaysFair then FairnessShare(cfg.maxInFlight) else cfg.maxInFlight }

  lemma AcquireKeepsCap(cfg: Config, l: Limiter, key: Key, now: real)
    requires cfg.maxInFlight >= 0 && Capped(l, Cap(cfg))
    ensures Capped(Acquired(cfg, l, key, now), Cap(cfg))
  {
    var l' := Acquired(cfg, l, key, now);
    forall k | k in l'.states ensures 0 <= l'.states[k].inFlight <= Cap(cfg) {
      AcquireCounts(cfg, l, key, now, k);
      assert l'.states[k].inFlight == InFlight(l', k);
    }
  }

  datatype Event = Acquire(key: Key, now: real) | Release(key: Key)

  /** One call; a release of a slot that is not held does not return. */
  predicate StepTo(cfg: Config, l: Limiter, e: Event, l': Limiter) {
    match e
    case Acquire(key, now) => l' == Acquired(cfg, l, key, now)
    case Release(key) => CanRelease(l, key) && l' == Released(l, key)
  }

  ghost predicate IsRun(cfg: Config, ls: seq<Limiter>, es: seq<Event>) {
    && |ls| == |es| + 1 && ls[0] == Fresh
    && forall i :: 0 <= i < |es| ==> StepTo(cfg, ls[i], es[i], ls[i + 1])
  }

  predicate Takes(cfg: Config, l: Limiter, e: Event, key: Key) { e.Acquire? && e.key == key && Judge(cfg, l, key, e.now).Accepted? }

  /** Accepted acquires of `key` minus its releases, over the first `n` calls. */
  ghost function Outstanding(cfg: Config, ls: seq<Limiter>, es: seq<Event>, key: Key, n: nat): int
    requires n <= |es| < |ls|
  {
    if n == 0 then 0 else
      Outstanding(cfg, ls, es, key, n - 1) + (if Takes(cfg, ls[n - 1], es[n - 1], key) then 1 else 0) - (if es[n - 1] == Release(key) then 1 else 0)
  }

  /** In every run, through every sweep, the in-flight count is the outstanding balance. */
  lemma {:induction false} InFlightIsBalance(cfg: Config, ls: seq<Limiter>, es: seq<Event>, key: Key, n: nat)
    requires IsRun(cfg, ls, es) && n <= |es|
    ensures InFlight(ls[n], key) == Outstanding(cfg, ls, es, key, n)
  {
    if n > 0 {
      InFlightIsBalance(cfg, ls, es, key, n - 1);
      assert StepTo(cfg, ls[n - 1], es[n - 1], ls[n - 1 + 1]);
      StepCounts(cfg, ls[n - 1], es[n - 1], ls[n], key);
    }
  }

  lemma StepCounts(cfg: Config, l: Limiter, e: Event, l': Limiter, key: Key)
    requires StepTo(cfg, l, e, l')
    ensures InFlight(l', key) == InFlight(l, key) + (if Takes(cfg, l, e, key) then 1 else 0) - (if e == Release(key) then 1 else 0)
  {
    if e.Acquire? { AcquireCounts(cfg, l, e.key, e.now, key); }
  }

  lemma {:induction false} NeverAboveCap(cfg: Config, ls: seq<Limiter>, es: seq<Event>, key: Key, n: nat)
    requires IsRun(cfg, ls, es) && n <= |es| && cfg.maxInFlight >= 0
    ensures 0 <= InFlight(ls[n], key) <= Cap(cfg)
    ensures Capped(ls[n], Cap(cfg))
    ensures cfg.alwaysFair && cfg.maxInFlight >= 2 ==> InFlight(ls[n], key) < cfg.maxInFlight
  {
    if n > 0 {
      NeverAboveCap(cfg, ls, es, key, n - 1);
      assert StepTo(cfg, ls[n - 1], es[n - 1], ls[n - 1 + 1]);
      if es[n - 1].Acquire? {
        AcquireKeepsCap(cfg, ls[n - 1], es[n - 1].key, es[n - 1].now);
      }
    }
  }

  /** A release is refused exactly when every accepted acquire of the key has been released already. */
  lemma ReleaseUnderflowsIff(cfg: Config, ls: seq<Limiter>, es: seq<Event>, key: Key, n: nat)
    requires IsRun(cfg, ls, es) && n <= |es|
    ensures CanRelease(ls[n], key) <==> Outstanding(cfg, ls, es, key, n) > 0
  {
    InFlightIsBalance(cfg, ls, es, key, n);
  }

  /** A key without state, new or swept, is always admitted: its first request meets a free slot and a full bucket. */
  lemma NewKeyIsAdmitted(cfg: Config, l: Limiter, key: Key, now: real)
    requires cfg.maxInFlight >= 1 && cfg.burst >= 1 && cfg.rate >= 0 && key !in l.states
    ensures Judge(cfg, l, key, now) == Accepted
  {
    assert Gain(now, now, Share(Contended(cfg, l, key, now), cfg.rate) as real) == 0.0;
  }

  // --------------------------------------------------------------- contention

  ghost predicate SeenAt(es: seq<Event>, n: nat, key: Key, at: real) {
    exists i :: 0 <= i < n && i < |es| && es[i] == Acquire(key, at)
  }

  /** The first `n` calls observe nonempty keys in order of time, none after `now`. */
  ghost predicate InOrder(es: seq<Event>, n: nat, now: real) {
    && n <= |es|
    && (forall i :: 0 <= i < n && es[i].Acquire? ==> es[i].key != NoKey && es[i].now <= now)
    && (forall i, j :: 0 <= i < j < n && es[i].Acquire? && es[j].Acquire? ==> es[i].now <= es[j].now)
  }

  /** The two slots hold the latest observation, and the latest one of any other key. */
  ghost predicate Remembers(l: Limiter, es: seq<Event>, n: nat)
    requires n <= |es|
  {
    && (l.recentKey == NoKey ==> l.previousKey == NoKey && forall i :: 0 <= i < n ==> !es[i].Acquire?)
    && (l.recentKey != NoKey ==> SeenAt(es, n, l.recentKey, l.recentAt) && forall i :: 0 <= i < n && es[i].Acquire? ==> es[i].now <= l.recentAt)
    && (l.previousKey == NoKey ==> forall i :: 0 <= i < n && es[i].Acquire? ==> es[i].key == l.recentKey)
    && (l.previousKey != NoKey ==> l.previousKey != l.recentKey && SeenAt(es, n, l.previousKey, l.previousAt))
    && (l.previousKey != NoKey ==> forall i :: 0 <= i < n && es[i].Acquire? && es[i].key != l.recentKey ==> es[i].now <= l.previousAt)
  }

  lemma ObservationRemembered(l: Limiter, l': Limiter, es: seq<Event>, n: nat)
    requires n < |es| && Remembers(l, es, n) && InOrder(es, n + 1, if es[n].Acquire? then es[n].now else 0.0) && es[n].Acquire?
    requires Observed(l, es[n].key, es[n].now) == l'.(states := l.states)
    ensures Remembers(l', es, n + 1)
  {
    assert es[n] == Acquire(es[n].key, es[n].now);
    assert SeenAt(es, n + 1, es[n].key, es[n].now);
    if l.recentKey != NoKey { SeenLater(es, n, l.recentKey, l.recentAt); }
    if l.previousKey != NoKey { SeenLater(es, n, l.previousKey, l.previousAt); }
  }

  lemma SeenLater(es: seq<Event>, n: nat, key: Key, at: real)
    requires SeenAt(es, n, key, at)
    ensures SeenAt(es, n + 1, key, at)
  {
  }

  lemma ReleaseRemembered(l: Limiter, l': Limiter, es: seq<Event>, n: nat)
    requires n < |es| && Remembers(l, es, n) && es[n].Release? && l'.(states := l.states) == l
    ensures Remembers(l', es, n + 1)
  {
    if l.recentKey != NoKey { SeenLater(es, n, l.recentKey, l.recentAt); }
    if l.previousKey != NoKey { SeenLater(es, n, l.previousKey, l.previousAt); }
  }

  lemma StepRemembered(cfg: Config, l: Limiter, l': Limiter, es: seq<Event>, n: nat, now: real)
    requires n < |es| && Remembers(l, es, n) && InOrder(es, n + 1, now) && StepTo(cfg, l, es[n], l')
    ensures Remembers(l', es, n + 1)
  {
    if es[n].Acquire? {
      ObservationRemembered(l, l', es, n);
    } else {
      ReleaseRemembered(l, l', es, n);
    }
  }

  lemma {:induction false} RunRemembers(cfg: Config, ls: seq<Limiter>, es: seq<Event>, n: nat, now: real)
    requires IsRun(cfg, ls, es) && InOrder(es, n, now)
    ensures Remembers(ls[n], es, n)
  {
    if n > 0 {
      RunRemembers(cfg, ls, es, n - 1, now);
      assert StepTo(cfg, ls[n - 1], es[n - 1], ls[n - 1 + 1]);
      StepRemembered(cfg, ls[n - 1], ls[n], es, n - 1, now);
    }
  }

  /** Some other key was observed within the last two seconds. */
  ghost predicate OtherObserved(es: seq<Event>, n: nat, key: Key, now: real)
    requires n <= |es|
  {
    exists i :: 0 <= i < n && es[i].Acquire? && es[i].key != key && es[i].now >= now - 2.0
  }

  /**
    Two slots are enough memory: for observations in order of time a key counts as
    contended exactly if any other key was observed in the last two seconds.
   */
  lemma ContendedIff(cfg: Config, ls: seq<Limiter>, es: seq<Event>, n: nat, key: Key, now: real)
    requires IsRun(cfg, ls, es) && InOrder(es, n, now)
    ensures Contended(cfg, ls[n], key, now) <==> cfg.alwaysFair || OtherObserved(es, n, key, now)
  {
    RunRemembers(cfg, ls, es, n, now);
    RememberedIff(ls[n], es, n, key, now);
  }

  /**
    In every run with observations in order of time, a request is refused for
    concurrency iff the key's outstanding requests reach the cap, which is the smaller
    share exactly while the limiter is always fair or another key was observed in the
    last two seconds.
   */
  lemma RefusedForConcurrencyIff(cfg: Config, ls: seq<Limiter>, es: seq<Event>, n: nat, key: Key, now: real)
    requires IsRun(cfg, ls, es) && InOrder(es, n, now)
    ensures Judge(cfg, ls[n], key, now) == RejectedConcurrency <==>
      Outstanding(cfg, ls, es, key, n) >= (if cfg.alwaysFair || OtherObserved(es, n, key, now) then FairnessShare(cfg.maxInFlight) else cfg.maxInFlight)
  {
    ContendedIff(cfg, ls, es, n, key, now);
    InFlightIsBalance(cfg, ls, es, key, n);
  }

  /** Below its cap, a key that waits for a token at its share of the rate is always admitted. */
  lemma PatientKeyIsAdmitted(cfg: Config, l: Limiter, key: Key, now: real)
    requires key in l.states && InRange(l.states[key].bucket, cfg.burst as real) && cfg.burst >= 1
    requires InFlight(l, key) < Share(Contended(cfg, l, key, now), cfg.maxInFlight)
    requires l.states[key].bucket.last <= now
    requires Gain(l.states[key].bucket.last, now, Share(Contended(cfg, l, key, now), cfg.rate) as real) >= 1.0
    ensures Judge(cfg, l, key, now) == Accepted
  {
    var fair := Contended(cfg, l, key, now);
    assert Share(fair, cfg.burst) >= 1;
    assert l.states[key].bucket.tokens >= 0.0;
  }

  lemma RememberedIff(l: Limiter, es: seq<Event>, n: nat, key: Key, now: real)
    requires n <= |es| && Remembers(l, es, n)
    ensures OtherKeyRecentlySeen(l, key, now) <==> OtherObserved(es, n, key, now)
  {
    if l.recentKey != NoKey {
      var i :| 0 <= i < n && es[i] == Acquire(l.recentKey, l.recentAt);
    }
    if l.previousKey != NoKey {
      var i :| 0 <= i < n && es[i] == Acquire(l.previousKey, l.previousAt);
    }
  }
}
