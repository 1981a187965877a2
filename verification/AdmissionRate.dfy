/** The rate side of keyed admission: how much a key is granted, and what dropping its idle entry does to that. */
module AdmissionRate {
  import opened Common
  import opened TokenBuckets
  import opened Admission

  predicate Sane(cfg: Admission.Config) { cfg.maxInFlight >= 1 && cfg.rate >= 0 && cfg.burst >= 1 }

  /** The burst and rate that bind at all times. */
  function Burst(cfg: Admission.Config): int { if cfg.alwaysFair then FairnessShare(cfg.burst) else cfg.burst }
  function Rate(cfg: Admission.Config): int { if cfg.alwaysFair then FairnessShare(cfg.rate) else cfg.rate }

  /** Accepted acquires of `key` among the first `n` calls. */
  ghost function AcceptedOf(cfg: Admission.Config, ls: seq<Limiter>, es: seq<Event>, key: Key, n: nat): nat
    requires n <= |es| < |ls|
  {
    if n == 0 then 0 else AcceptedOf(cfg, ls, es, key, n - 1) + (if Takes(cfg, ls[n - 1], es[n - 1], key) then 1 else 0)
  }

  /** A call dropped the key's entry. */
  predicate Dropped(l: Limiter, l': Limiter, key: Key) { key in l.states && key !in l'.states }

  /** Only the first request of another key can do that, when the map is full and the key has nothing in flight; its last use does not matter. */
  lemma DroppedIff(cfg: Admission.Config, l: Limiter, other: Key, now: real, key: Key)
    ensures Dropped(l, Acquired(cfg, l, other, now), key) <==>
      key in l.states && other !in l.states && |l.states| + 1 > cfg.maxTracked && l.states[key].inFlight == 0
  {
    var e := Entered(cfg, l.states, other, now);
    assert other !in l.states ==> e.Keys == l.states.Keys + {other};
  }

  // ------------------------------------------------------ the bound between sweeps

  /** What a key can still be granted up to time `horizon`. */
  function Allowance(cfg: Admission.Config, l: Limiter, key: Key, start: real, horizon: real): real {
    if key in l.states then l.states[key].bucket.tokens + Gain(l.states[key].bucket.last, horizon, Rate(cfg) as real)
    else Burst(cfg) as real + Gain(start, horizon, Rate(cfg) as real)
  }

  predicate EntryOk(cfg: Admission.Config, e: Entry, start: real, horizon: real) {
    InRange(e.bucket, Burst(cfg) as real) && start <= e.bucket.last <= horizon
  }

  ghost predicate EntriesOk(cfg: Admission.Config, l: Limiter, start: real, horizon: real) {
    forall k :: k in l.states ==> EntryOk(cfg, l.states[k], start, horizon)
  }

  lemma ShareIsSmaller(cfg: Admission.Config, fair: bool)
    requires Sane(cfg) && (cfg.alwaysFair ==> fair)
    ensures 0 <= Share(fair, cfg.rate) <= Rate(cfg) && 1 <= Share(fair, cfg.burst) <= Burst(cfg)
  {
  }

  lemma SlowerGains(a: real, b: real, slow: real, fast: real)
    requires a <= b && 0.0 <= slow <= fast
    ensures 0.0 <= Gain(a, b, slow) <= Gain(a, b, fast)
  {
    GainNonNegative(a, b, slow);
    GainNonNegative(a, b, fast - slow);
    assert Gain(a, b, fast) == Gain(a, b, slow) + Gain(a, b, fast - slow);
  }

  /** One charge at any share: a grant takes one token out of what the full rate would have paid for. */
  lemma ChargeStep(b: Bucket, now: real, rate: real, burst: real, fast: real, full: real, start: real, horizon: real)
    requires 0.0 <= b.tokens && start <= b.last <= horizon && start <= now <= horizon && 0.0 <= rate <= fast && 1.0 <= burst <= full
    ensures var b' := Used(b, now, rate, burst);
      && InRange(b', full) && start <= b'.last <= horizon
      && (if Grants(b, now, rate, burst) then 1.0 else 0.0) + b'.tokens + Gain(b'.last, horizon, fast) <= b.tokens + Gain(b.last, horizon, fast)
  {
    var b' := Used(b, now, rate, burst);
    SlowerGains(b.last, b'.last, rate, fast);
    OneObservation(b, now, rate, burst);
    GainAdds(b.last, b'.last, horizon, fast);
  }

  /** A new entry is charged at once, so it never holds more than the binding burst. */
  lemma NewEntryStep(now: real, rate: real, burst: real, whole: real, fast: real, full: real, start: real, horizon: real)
    requires start <= now <= horizon && 0.0 <= rate <= fast && 1.0 <= burst <= full && burst <= whole
    ensures var b' := Used(Bucket(whole, now), now, rate, burst);
      && InRange(b', full) && start <= b'.last <= horizon
      && (if Grants(Bucket(whole, now), now, rate, burst) then 1.0 else 0.0) + b'.tokens + Gain(b'.last, horizon, fast) <= full + Gain(start, horizon, fast)
  {
    assert Gain(now, now, rate) == 0.0;
    GainAdds(start, now, horizon, fast);
    GainNonNegative(start, now, fast);
  }

  lemma AcquireEntry(cfg: Admission.Config, l: Limiter, key: Key, now: real, start: real, horizon: real)
    requires Sane(cfg) && EntriesOk(cfg, l, start, horizon) && start <= now <= horizon
    ensures var l' := Acquired(cfg, l, key, now);
      && key in l'.states && EntryOk(cfg, l'.states[key], start, horizon)
      && (if Judge(cfg, l, key, now).Accepted? then 1.0 else 0.0) + Allowance(cfg, l', key, start, horizon) <= Allowance(cfg, l, key, start, horizon)
  {
    var fair := Contended(cfg, l, key, now);
    ShareIsSmaller(cfg, fair);
    var rate, burst, fast, full := Share(fair, cfg.rate) as real, Share(fair, cfg.burst) as real, Rate(cfg) as real, Burst(cfg) as real;
    assert Made(cfg, l.states, key, now)[key] == Entered(cfg, l.states, key, now)[key];
    if key in l.states {
      assert EntryOk(cfg, l.states[key], start, horizon);
      ChargeStep(l.states[key].bucket, now, rate, burst, fast, full, start, horizon);
    } else {
      NewEntryStep(now, rate, burst, cfg.burst as real, fast, full, start, horizon);
    }
  }

  lemma AcquireOthers(cfg: Admission.Config, l: Limiter, key: Key, now: real, k: Key)
    requires k != key
    ensures var l' := Acquired(cfg, l, key, now);
      (k in l'.states ==> k in l.states && l'.states[k] == l.states[k]) && (k in l.states && k !in l'.states ==> Dropped(l, l', k))
  {
  }

  lemma CallStep(cfg: Admission.Config, l: Limiter, e: Event, l': Limiter, key: Key, start: real, horizon: real)
    requires Sane(cfg) && EntriesOk(cfg, l, start, horizon) && StepTo(cfg, l, e, l') && !Dropped(l, l', key)
    requires e.Acquire? ==> start <= e.now <= horizon
    ensures EntriesOk(cfg, l', start, horizon)
    ensures (if Takes(cfg, l, e, key) then 1.0 else 0.0) + Allowance(cfg, l', key, start, horizon) <= Allowance(cfg, l, key, start, horizon)
  {
    if e.Acquire? {
      AcquireEntry(cfg, l, e.key, e.now, start, horizon);
      forall k | k in l'.states ensures EntryOk(cfg, l'.states[k], start, horizon) {
        if k != e.key { AcquireOthers(cfg, l, e.key, e.now, k); }
      }
      if key != e.key { AcquireOthers(cfg, l, e.key, e.now, key); }
    }
  }

  /** All times lie between `start` and `horizon`, in any order. */
  ghost predicate Within(es: seq<Event>, start: real, horizon: real) {
    start <= horizon && forall i :: 0 <= i < |es| && es[i].Acquire? ==> start <= es[i].now <= horizon
  }

  ghost predicate NeverDropped(ls: seq<Limiter>, key: Key, n: nat) {
    forall i :: 0 <= i < n && i + 1 < |ls| ==> !Dropped(ls[i], ls[i + 1], key)
  }

  lemma {:induction false} GrantsPaidForWhileKept(cfg: Admission.Config, ls: seq<Limiter>, es: seq<Event>, key: Key, start: real, horizon: real, n: nat)
    requires Sane(cfg) && Admission.IsRun(cfg, ls, es) && Within(es, start, horizon) && n <= |es| && NeverDropped(ls, key, n)
    ensures EntriesOk(cfg, ls[n], start, horizon)
    ensures AcceptedOf(cfg, ls, es, key, n) as real + Allowance(cfg, ls[n], key, start, horizon)
      <= Burst(cfg) as real + Gain(start, horizon, Rate(cfg) as real)
  {
    if n > 0 {
      GrantsPaidForWhileKept(cfg, ls, es, key, start, horizon, n - 1);
      assert StepTo(cfg, ls[n - 1], es[n - 1], ls[n - 1 + 1]) && !Dropped(ls[n - 1], ls[n - 1 + 1], key);
      CallStep(cfg, ls[n - 1], es[n - 1], ls[n], key, start, horizon);
    }
  }

  /** While a key's entry is not dropped, its grants are at most the binding burst plus the binding rate times the time that passes. */
  lemma RateBoundWhileKept(cfg: Admission.Config, ls: seq<Limiter>, es: seq<Event>, key: Key, start: real, horizon: real, n: nat)
    requires Sane(cfg) && Admission.IsRun(cfg, ls, es) && Within(es, start, horizon) && n <= |es| && NeverDropped(ls, key, n)
    ensures AcceptedOf(cfg, ls, es, key, n) as real <= Burst(cfg) as real + Gain(start, horizon, Rate(cfg) as real)
  {
    GrantsPaidForWhileKept(cfg, ls, es, key, start, horizon, n);
    if key in ls[n].states {
      assert EntryOk(cfg, ls[n].states[key], start, horizon);
      GainNonNegative(ls[n].states[key].bucket.last, horizon, Rate(cfg) as real);
    } else {
      GainNonNegative(start, horizon, Rate(cfg) as real);
    }
  }

  // --------------------------------------------------------------- few keys

  ghost predicate KeysUpTo(es: seq<Event>, n: nat) { forall i :: 0 <= i < |es| ==> 1 <= es[i].key <= n }

  lemma {:induction false} FewKeys(s: set<Key>, n: nat)
    requires forall k :: k in s ==> 1 <= k <= n
    ensures |s| <= n
  {
    if n == 0 {
      assert s == {};
    } else {
      FewKeys(s - {n}, n - 1);
    }
  }

  ghost predicate StatesUpTo(l: Limiter, n: nat) { forall k :: k in l.states ==> 1 <= k <= n }

  lemma CallKeepsKeys(cfg: Admission.Config, l: Limiter, e: Event, l': Limiter, keys: nat)
    requires StatesUpTo(l, keys) && StepTo(cfg, l, e, l') && 1 <= e.key <= keys
    ensures StatesUpTo(l', keys)
  {
    if e.Acquire? {
      forall k | k in l'.states ensures 1 <= k <= keys {
        if k != e.key { AcquireOthers(cfg, l, e.key, e.now, k); }
      }
    }
  }

  lemma {:induction false} RunKeepsKeys(cfg: Admission.Config, ls: seq<Limiter>, es: seq<Event>, keys: nat, i: nat)
    requires Admission.IsRun(cfg, ls, es) && KeysUpTo(es, keys) && i <= |es|
    ensures StatesUpTo(ls[i], keys)
  {
    if i > 0 {
      RunKeepsKeys(cfg, ls, es, keys, i - 1);
      assert StepTo(cfg, ls[i - 1], es[i - 1], ls[i - 1 + 1]);
      CallKeepsKeys(cfg, ls[i - 1], es[i - 1], ls[i], keys);
    }
  }

  /** A map with room for all keys drops none. */
  lemma FewKeysAreKept(cfg: Admission.Config, l: Limiter, e: Event, l': Limiter, keys: nat, key: Key)
    requires StatesUpTo(l, keys) && StepTo(cfg, l, e, l') && 1 <= e.key <= keys <= cfg.maxTracked
    ensures !Dropped(l, l', key)
  {
    if e.Acquire? {
      DroppedIff(cfg, l, e.key, e.now, key);
      if e.key !in l.states { FewKeys(l.states.Keys + {e.key}, keys); }
    }
  }

  // -------------------------------------------------- one key more than the map holds

  lemma ExtendRun(cfg: Admission.Config, ls: seq<Limiter>, es: seq<Event>, e: Event, l: Limiter)
    requires Admission.IsRun(cfg, ls, es) && StepTo(cfg, ls[|es|], e, l)
    ensures Admission.IsRun(cfg, ls + [l], es + [e])
  {
    var ls', es' := ls + [l], es + [e];
    forall i | 0 <= i < |es'| ensures StepTo(cfg, ls'[i], es'[i], ls'[i + 1]) {
      if i < |es| { assert StepTo(cfg, ls[i], es[i], ls[i + 1]); }
    }
  }

  lemma {:induction false} AcceptedPrefix(cfg: Admission.Config, ls: seq<Limiter>, es: seq<Event>, e: Event, l: Limiter, key: Key, n: nat)
    requires |ls| == |es| + 1 && n <= |es|
    ensures AcceptedOf(cfg, ls + [l], es + [e], key, n) == AcceptedOf(cfg, ls, es, key, n)
  {
    if n > 0 { AcceptedPrefix(cfg, ls, es, e, l, key, n - 1); }
  }

  /** A run at the single instant 0 over keys from 1 to `keys`, in which key 1 was accepted `count` times. */
  ghost predicate Sample(cfg: Admission.Config, ls: seq<Limiter>, es: seq<Event>, keys: nat, count: nat) {
    && Admission.IsRun(cfg, ls, es) && Within(es, 0.0, 0.0) && KeysUpTo(es, keys)
    && AcceptedOf(cfg, ls, es, 1, |es|) == count
  }

  lemma ExtendSample(cfg: Admission.Config, ls: seq<Limiter>, es: seq<Event>, keys: nat, count: nat, e: Event, l: Limiter)
    requires Sample(cfg, ls, es, keys, count) && StepTo(cfg, ls[|es|], e, l) && 1 <= e.key <= keys && (e.Acquire? ==> e.now == 0.0)
    ensures Sample(cfg, ls + [l], es + [e], keys, count + (if Takes(cfg, ls[|es|], e, 1) then 1 else 0))
  {
    ExtendRun(cfg, ls, es, e, l);
    AcceptedPrefix(cfg, ls, es, e, l, 1, |es|);
    assert (ls + [l])[|es|] == ls[|es|] && (es + [e])[|es|] == e;
  }

  /** Key 1 is alone and has `left` tokens. */
  function Alone(left: int): Limiter { Limiter(map[1 := Entry(0, Bucket(left as real, 0.0))], 1, 0.0, NoKey, 0.0) }

  lemma UsedAtOnce(tokens: real, rate: real, burst: real)
    requires tokens >= 1.0 && burst >= 1.0
    ensures Grants(Bucket(tokens, 0.0), 0.0, rate, burst)
    ensures Used(Bucket(tokens, 0.0), 0.0, rate, burst) == Bucket(Lesser(tokens, burst) - 1.0, 0.0)
  {
    assert Gain(0.0, 0.0, rate) == 0.0;
  }

  lemma AloneAcquires(cfg: Admission.Config, left: int)
    requires Sane(cfg) && 1 <= left <= Burst(cfg)
    ensures Judge(cfg, Alone(left), 1, 0.0).Accepted?
    ensures Acquired(cfg, Alone(left), 1, 0.0) == Limiter(map[1 := Entry(1, Bucket((left - 1) as real, 0.0))], 1, 0.0, NoKey, 0.0)
  {
    assert Contended(cfg, Alone(left), 1, 0.0) == cfg.alwaysFair;
    UsedAtOnce(left as real, Share(cfg.alwaysFair, cfg.rate) as real, Share(cfg.alwaysFair, cfg.burst) as real);
    assert Alone(left).states[1 := Entry(1, Bucket((left - 1) as real, 0.0))] == map[1 := Entry(1, Bucket((left - 1) as real, 0.0))];
  }

  lemma FirstAcquires(cfg: Admission.Config)
    requires Sane(cfg) && cfg.maxTracked >= 1
    ensures Judge(cfg, Fresh, 1, 0.0).Accepted?
    ensures Acquired(cfg, Fresh, 1, 0.0) == Limiter(map[1 := Entry(1, Bucket((Burst(cfg) - 1) as real, 0.0))], 1, 0.0, NoKey, 0.0)
  {
    assert |Entered(cfg, map[], 1, 0.0)| == 1;
    UsedAtOnce(cfg.burst as real, Share(cfg.alwaysFair, cfg.rate) as real, Share(cfg.alwaysFair, cfg.burst) as real);
  }

  /** After `i` rounds of acquire and release. */
  lemma {:induction false} SpendBurst(cfg: Admission.Config, keys: nat, i: nat) returns (ls: seq<Limiter>, es: seq<Event>)
    requires Sane(cfg) && cfg.maxTracked >= 1 && 1 <= i <= Burst(cfg) && keys >= 1
    ensures Sample(cfg, ls, es, keys, i) && ls[|es|] == Alone(Burst(cfg) - i)
  {
    if i == 1 {
      ls, es := [Fresh], [];
      FirstAcquires(cfg);
    } else {
      ls, es := SpendBurst(cfg, keys, i - 1);
      AloneAcquires(cfg, Burst(cfg) - i + 1);
    }
    var held := Limiter(map[1 := Entry(1, Bucket((Burst(cfg) - i) as real, 0.0))], 1, 0.0, NoKey, 0.0);
    ExtendSample(cfg, ls, es, keys, i - 1, Acquire(1, 0.0), held);
    ls, es := ls + [held], es + [Acquire(1, 0.0)];
    ExtendSample(cfg, ls, es, keys, i, Release(1), Alone(Burst(cfg) - i));
    ls, es := ls + [Alone(Burst(cfg) - i)], es + [Release(1)];
  }

  /** Keys 1 to `n` have entries; key 1 alone has nothing in flight. */
  ghost predicate Filled(l: Limiter, n: nat) {
    && n >= 1 && (forall k: Key :: k in l.states <==> 1 <= k <= n)
    && forall k :: 1 <= k <= n ==> l.states[k].inFlight == (if k == 1 then 0 else 1)
  }

  lemma AloneIsFilled()
    ensures Filled(Alone(0), 1)
  {
  }

  lemma FilledSize(l: Limiter, n: nat)
    requires Filled(l, n)
    ensures |l.states| == n
  {
    SizeOfRange(l.states.Keys, n);
  }

  lemma {:induction false} SizeOfRange(s: set<Key>, n: nat)
    requires forall k: Key :: k in s <==> 1 <= k <= n
    ensures |s| == n
  {
    if n == 0 {
      assert s == {};
    } else {
      SizeOfRange(s - {n}, n - 1);
    }
  }

  lemma NewcomerJoins(cfg: Admission.Config, l: Limiter, n: nat)
    requires Sane(cfg) && Filled(l, n) && n < cfg.maxTracked
    ensures Filled(Acquired(cfg, l, n + 1, 0.0), n + 1)
  {
    FilledSize(l, n);
    NewKeyIsAdmitted(cfg, l, n + 1, 0.0);
    assert Entered(cfg, l.states, n + 1, 0.0).Keys == l.states.Keys + {n + 1};
  }

  lemma NewcomerSweeps(cfg: Admission.Config, l: Limiter)
    requires Sane(cfg) && cfg.maxTracked >= 1 && Filled(l, cfg.maxTracked)
    ensures 1 !in Acquired(cfg, l, cfg.maxTracked + 1, 0.0).states
  {
    FilledSize(l, cfg.maxTracked);
    DroppedIff(cfg, l, cfg.maxTracked + 1, 0.0, 1);
  }

  lemma JoinSample(cfg: Admission.Config, ls: seq<Limiter>, es: seq<Event>, keys: nat, count: nat, n: nat) returns (ls': seq<Limiter>, es': seq<Event>)
    requires Sane(cfg) && Sample(cfg, ls, es, keys, count) && 1 <= n < cfg.maxTracked < keys && Filled(ls[|es|], n)
    ensures Sample(cfg, ls', es', keys, count) && Filled(ls'[|es'|], n + 1)
  {
    var l := Acquired(cfg, ls[|es|], n + 1, 0.0);
    NewcomerJoins(cfg, ls[|es|], n);
    ExtendSample(cfg, ls, es, keys, count, Acquire(n + 1, 0.0), l);
    ls', es' := ls + [l], es + [Acquire(n + 1, 0.0)];
    assert ls'[|es'|] == l;
  }

  lemma {:induction false} FillMap(cfg: Admission.Config, keys: nat, n: nat) returns (ls: seq<Limiter>, es: seq<Event>)
    requires Sane(cfg) && 1 <= n <= cfg.maxTracked < keys
    ensures Sample(cfg, ls, es, keys, Burst(cfg)) && Filled(ls[|es|], n)
  {
    if n == 1 {
      ls, es := SpendBurst(cfg, keys, Burst(cfg));
      AloneIsFilled();
    } else {
      ls, es := FillMap(cfg, keys, n - 1);
      ls, es := JoinSample(cfg, ls, es, keys, Burst(cfg), n - 1);
    }
  }

  /** With one key more than the map holds, a key gets a grant beyond its burst without any time passing. */
  lemma SweptKeyStartsAfresh(cfg: Admission.Config, keys: nat) returns (ls: seq<Limiter>, es: seq<Event>)
    requires Sane(cfg) && 1 <= cfg.maxTracked < keys
    ensures Sample(cfg, ls, es, keys, Burst(cfg) + 1)
  {
    ls, es := FillMap(cfg, keys, cfg.maxTracked);
    var last := cfg.maxTracked + 1;
    var l := Acquired(cfg, ls[|es|], last, 0.0);
    NewcomerSweeps(cfg, ls[|es|]);
    ExtendSample(cfg, ls, es, keys, Burst(cfg), Acquire(last, 0.0), l);
    ls, es := ls + [l], es + [Acquire(last, 0.0)];
    NewKeyIsAdmitted(cfg, l, 1, 0.0);
    var l' := Acquired(cfg, l, 1, 0.0);
    ExtendSample(cfg, ls, es, keys, Burst(cfg), Acquire(1, 0.0), l');
    ls, es := ls + [l'], es + [Acquire(1, 0.0)];
  }

  /** No run over keys 1 to `keys` grants any key more than its burst and refill. */
  ghost predicate RateHolds(cfg: Admission.Config, keys: nat) {
    forall ls: seq<Limiter>, es: seq<Event>, key: Key, start: real, horizon: real ::
      Admission.IsRun(cfg, ls, es) && Within(es, start, horizon) && KeysUpTo(es, keys) ==>
      AcceptedOf(cfg, ls, es, key, |es|) as real <= Burst(cfg) as real + Gain(start, horizon, Rate(cfg) as real)
  }

  /** The per-key rate limit holds exactly if the map has room for all keys: beyond that, dropping idle entries hands out fresh bursts. */
  lemma RateHoldsIff(cfg: Admission.Config, keys: nat)
    requires Sane(cfg) && cfg.maxTracked >= 1
    ensures RateHolds(cfg, keys) <==> keys <= cfg.maxTracked
  {
    if keys <= cfg.maxTracked {
      forall ls: seq<Limiter>, es: seq<Event>, key: Key, start: real, horizon: real
        | Admission.IsRun(cfg, ls, es) && Within(es, start, horizon) && KeysUpTo(es, keys)
        ensures AcceptedOf(cfg, ls, es, key, |es|) as real <= Burst(cfg) as real + Gain(start, horizon, Rate(cfg) as real)
      {
        forall i | 0 <= i < |es| ensures !Dropped(ls[i], ls[i + 1], key) {
          RunKeepsKeys(cfg, ls, es, keys, i);
          assert StepTo(cfg, ls[i], es[i], ls[i + 1]);
          FewKeysAreKept(cfg, ls[i], es[i], ls[i + 1], keys, key);
        }
        RateBoundWhileKept(cfg, ls, es, key, start, horizon, |es|);
      }
    } else {
      var ls, es := SweptKeyStartsAfresh(cfg, keys);
      assert Gain(0.0, 0.0, Rate(cfg) as real) == 0.0;
    }
  }
}
