/** Refill-rate limiting: one bucket, and buckets per key with idle entries swept. */
module TokenBuckets {
  import opened Common

  // Times are seconds; token counts are reals.

  datatype Bucket = Bucket(tokens: real, last: real)

  function Later(a: real, b: real): real { if a < b then b else a }

  function Lesser(a: real, b: real): real { if a < b then a else b }

  /** Tokens that accrue between two instants. */
  function Gain(from: real, to: real, rate: real): real { (to - from) * rate }

  lemma GainNonNegative(from: real, to: real, rate: real)
    requires from <= to && rate >= 0.0
    ensures Gain(from, to, rate) >= 0.0
  {
  }

  lemma GainAdds(a: real, b: real, c: real, rate: real)
    ensures Gain(a, b, rate) + Gain(b, c, rate) == Gain(a, c, rate)
  {
  }

  /** The clock never runs backwards: an early observation counts as the last one. */
  function Refilled(b: Bucket, now: real, rate: real, burst: real): Bucket {
    var t := Later(b.last, now);
    Bucket(Lesser(b.tokens + Gain(b.last, t, rate), burst), t)
  }

  predicate Grants(b: Bucket, now: real, rate: real, burst: real) { Refilled(b, now, rate, burst).tokens >= 1.0 }

  function Used(b: Bucket, now: real, rate: real, burst: real): Bucket {
    var r := Refilled(b, now, rate, burst);
    if r.tokens < 1.0 then r else r.(tokens := r.tokens - 1.0)
  }

  predicate InRange(b: Bucket, burst: real) { 0.0 <= b.tokens <= burst }

  class TokenBucket {
    const rate: real
    const burst: real
    var tokens: real
    var last: real
    var rejected: nat

    constructor (rate: nat, burst: nat, now: real)
      ensures this.rate == rate as real && this.burst == burst as real
      ensures Contents() == Bucket(this.burst, now) && Valid()
    {
      this.rate, this.burst := rate as real, burst as real;
      tokens, last, rejected := burst as real, now, 0;
    }

    function Contents(): Bucket
      reads this
    {
      Bucket(tokens, last)
    }

    ghost predicate Valid()
      reads this
    {
      rate >= 0.0 && InRange(Contents(), burst)
    }

    method Allow(now: real) returns (ok: bool)
      requires Valid()
      modifies this
      ensures Valid() && Contents() == Used(old(Contents()), now, rate, burst)
      ensures ok == Grants(old(Contents()), now, rate, burst)
      ensures rejected == old(rejected) + (if ok then 0 else 1)
    {
      StaysInRange(Contents(), now, rate, burst);
      var t := now;
      if t < last {
        t := last;
      }
      tokens := tokens + Gain(last, t, rate);
      if tokens > burst {
        tokens := burst;
      }
      last := t;
      if tokens < 1.0 {
        rejected := rejected + 1;
        return false;
      }
      tokens := tokens - 1.0;
      ok := true;
    }
  }

  lemma StaysInRange(b: Bucket, now: real, rate: real, burst: real)
    requires InRange(b, burst) && rate >= 0.0
    ensures InRange(Used(b, now, rate, burst), burst) && b.last <= Used(b, now, rate, burst).last
  {
    GainNonNegative(b.last, Later(b.last, now), rate);
  }

  /** `bs[k]` is the bucket after `k` observations; the times come in any order. */
  ghost predicate IsRun(bs: seq<Bucket>, times: seq<real>, rate: real, burst: real) {
    && |bs| == |times| + 1 && InRange(bs[0], burst) && rate >= 0.0
    && forall k :: 0 <= k < |times| ==> bs[k + 1] == Used(bs[k], times[k], rate, burst)
  }

  /** Grants among observations i to j. */
  ghost function Granted(bs: seq<Bucket>, times: seq<real>, rate: real, burst: real, i: nat, j: nat): nat
    requires i <= j <= |times| < |bs|
    decreases j
  {
    if i == j then 0 else Granted(bs, times, rate, burst, i, j - 1) + (if Grants(bs[j - 1], times[j - 1], rate, burst) then 1 else 0)
  }

  lemma {:induction false} TokensInRange(bs: seq<Bucket>, times: seq<real>, rate: real, burst: real, k: nat)
    requires IsRun(bs, times, rate, burst) && k < |bs|
    ensures InRange(bs[k], burst)
  {
    if k > 0 {
      TokensInRange(bs, times, rate, burst, k - 1);
      StaysInRange(bs[k - 1], times[k - 1], rate, burst);
      assert bs[k - 1 + 1] == Used(bs[k - 1], times[k - 1], rate, burst);
    }
  }

  /** What one observation costs: a grant takes one token, a refill adds at most rate times the advance. */
  lemma OneObservation(b: Bucket, now: real, rate: real, burst: real)
    ensures (if Grants(b, now, rate, burst) then 1.0 else 0.0) + Used(b, now, rate, burst).tokens
      <= b.tokens + Gain(b.last, Used(b, now, rate, burst).last, rate)
  {
  }

  lemma {:induction false} GrantsPaidFor(bs: seq<Bucket>, times: seq<real>, rate: real, burst: real, i: nat, j: nat)
    requires IsRun(bs, times, rate, burst) && i <= j < |bs|
    ensures Granted(bs, times, rate, burst, i, j) as real + bs[j].tokens <= bs[i].tokens + Gain(bs[i].last, bs[j].last, rate)
    decreases j
  {
    if i == j {
      GainNonNegative(bs[i].last, bs[i].last, rate);
    } else {
      GrantsPaidFor(bs, times, rate, burst, i, j - 1);
      OneObservation(bs[j - 1], times[j - 1], rate, burst);
      assert bs[j - 1 + 1] == Used(bs[j - 1], times[j - 1], rate, burst);
      GainAdds(bs[i].last, bs[j - 1].last, bs[j].last, rate);
    }
  }

  /** In any stretch of any run the grants are at most the burst plus rate times the advance of the bucket's clock. */
  lemma RateBound(bs: seq<Bucket>, times: seq<real>, rate: real, burst: real, i: nat, j: nat)
    requires IsRun(bs, times, rate, burst) && i <= j < |bs|
    ensures Granted(bs, times, rate, burst, i, j) as real <= burst + Gain(bs[i].last, bs[j].last, rate)
  {
    GrantsPaidFor(bs, times, rate, burst, i, j);
    TokensInRange(bs, times, rate, burst, i);
    TokensInRange(bs, times, rate, burst, j);
  }

  /** Tokens that one observation loses to the cap. */
  function Surplus(b: Bucket, now: real, rate: real, burst: real): real {
    var full := b.tokens + Gain(b.last, Later(b.last, now), rate);
    if full > burst then full - burst else 0.0
  }

  ghost function Spilled(bs: seq<Bucket>, times: seq<real>, rate: real, burst: real, i: nat, j: nat): real
    requires i <= j <= |times| < |bs|
    decreases j
  {
    if i == j then 0.0 else Spilled(bs, times, rate, burst, i, j - 1) + Surplus(bs[j - 1], times[j - 1], rate, burst)
  }

  lemma OneBalance(b: Bucket, now: real, rate: real, burst: real)
    ensures (if Grants(b, now, rate, burst) then 1.0 else 0.0) + Used(b, now, rate, burst).tokens + Surplus(b, now, rate, burst)
      == b.tokens + Gain(b.last, Used(b, now, rate, burst).last, rate)
    ensures Surplus(b, now, rate, burst) >= 0.0
  {
  }

  /** Tokens are conserved over any stretch of any run: granted, left, or lost to a full bucket; a refusal costs none. */
  lemma {:induction false} GrantsBalance(bs: seq<Bucket>, times: seq<real>, rate: real, burst: real, i: nat, j: nat)
    requires IsRun(bs, times, rate, burst) && i <= j < |bs|
    ensures Granted(bs, times, rate, burst, i, j) as real + bs[j].tokens + Spilled(bs, times, rate, burst, i, j)
      == bs[i].tokens + Gain(bs[i].last, bs[j].last, rate)
    decreases j
  {
    if i == j {
      GainAdds(bs[i].last, bs[i].last, bs[i].last, rate);
    } else {
      GrantsBalance(bs, times, rate, burst, i, j - 1);
      OneBalance(bs[j - 1], times[j - 1], rate, burst);
      assert bs[j - 1 + 1] == Used(bs[j - 1], times[j - 1], rate, burst);
      GainAdds(bs[i].last, bs[j - 1].last, bs[j].last, rate);
    }
  }

  /**
    The lower bound: a request is refused only if, since any earlier moment, all but
    less than one of the tokens that were there or have accrued went to grants or
    over the cap.
   */
  lemma RefusedOnlyWhenSpent(bs: seq<Bucket>, times: seq<real>, rate: real, burst: real, i: nat, j: nat)
    requires IsRun(bs, times, rate, burst) && burst >= 1.0 && i <= j < |times| && !Grants(bs[j], times[j], rate, burst)
    ensures Granted(bs, times, rate, burst, i, j) as real + Spilled(bs, times, rate, burst, i, j)
      > bs[i].tokens + Gain(bs[i].last, Later(bs[j].last, times[j]), rate) - 1.0
  {
    GrantsBalance(bs, times, rate, burst, i, j);
    GainAdds(bs[i].last, bs[j].last, Later(bs[j].last, times[j]), rate);
  }

  /** A caller that waits for a token each time is never refused. */
  lemma PatientCallersAreGranted(b: Bucket, now: real, rate: real, burst: real)
    requires InRange(b, burst) && burst >= 1.0 && b.last <= now && Gain(b.last, now, rate) >= 1.0
    ensures Grants(b, now, rate, burst)
  {
  }

  // ---------------------------------------------------------- buckets per key

  type Key = nat
  type States = map<Key, Bucket>

  const IdleAfter: real := 60.0

  /** NewKeyedTokenBuckets raises a rate or burst below one to one. */
  datatype Config = Config(rate: nat, burst: nat, maxTracked: nat) {
    predicate Valid() { rate >= 1 && burst >= 1 }
  }

  datatype Call = Call(key: Key, now: real)

  predicate Idle(m: States, k: Key, call: Call)
    requires k in m
  {
    k != call.key && m[k].last < call.now - IdleAfter
  }

  function Swept(m: States, call: Call): States {
    map k | k in m && !Idle(m, k, call) :: m[k]
  }

  /** The entry for the key exists: a new key starts with a full burst. */
  function WithEntry(cfg: Config, m: States, call: Call): States {
    if call.key in m then m else m[call.key := Bucket(cfg.burst as real, call.now)]
  }

  /** The state a call works on: entry made, and idle entries swept if a new entry exceeds the bound. */
  function Tracked(cfg: Config, m: States, call: Call): (t: States)
    ensures call.key in t
  {
    if call.key !in m && |WithEntry(cfg, m, call)| > cfg.maxTracked then Swept(WithEntry(cfg, m, call), call) else WithEntry(cfg, m, call)
  }

  function Stepped(cfg: Config, m: States, call: Call): States
    requires call.key in m
  {
    m[call.key := Used(m[call.key], call.now, cfg.rate as real, cfg.burst as real)]
  }

  predicate Answer(cfg: Config, m: States, call: Call)
    requires call.key in m
  {
    Grants(m[call.key], call.now, cfg.rate as real, cfg.burst as real)
  }

  class KeyedTokenBuckets {
    const cfg: Config
    var states: States
    var rejected: nat

    constructor (rate: int, burst: int, maxTracked: nat)
      ensures cfg.Valid() && states == map[] && rejected == 0
      ensures cfg == Config(if rate < 1 then 1 else rate, if burst < 1 then 1 else burst, maxTracked)
    {
      cfg := Config(if rate < 1 then 1 else rate, if burst < 1 then 1 else burst, maxTracked);
      states, rejected := map[], 0;
    }

    method Allow(key: Key, now: real) returns (ok: bool)
      modifies this
      ensures states == Stepped(cfg, Tracked(cfg, old(states), Call(key, now)), Call(key, now))
      ensures ok == Answer(cfg, Tracked(cfg, old(states), Call(key, now)), Call(key, now))
      ensures rejected == old(rejected) + (if ok then 0 else 1)
    {
      if key !in states {
        states := states[key := Bucket(cfg.burst as real, now)];
        if |states| > cfg.maxTracked {
          Sweep(key, now);
        }
      }
      var tokens, last := states[key].tokens, states[key].last;
      var t := now;
      if t < last {
        t := last;
      }
      tokens := tokens + Gain(last, t, cfg.rate as real);
      if tokens > cfg.burst as real {
        tokens := cfg.burst as real;
      }
      assert Refilled(states[key], now, cfg.rate as real, cfg.burst as real) == Bucket(tokens, t);
      if tokens < 1.0 {
        states := states[key := Bucket(tokens, t)];
        rejected := rejected + 1;
        return false;
      }
      states := states[key := Bucket(tokens - 1.0, t)];
      ok := true;
    }

    method Sweep(key: Key, now: real)
      modifies this`states
      ensures states == Swept(old(states), Call(key, now))
    {
      var cutoff := now - IdleAfter;
      var todo := states.Keys;
      while todo != {}
        invariant todo <= states.Keys <= old(states).Keys
        invariant forall k :: k in states ==> states[k] == old(states)[k]
        invariant forall k :: k in old(states) && (k in todo || !Idle(old(states), k, Call(key, now))) ==> k in states
        invariant forall k :: k in states && k !in todo ==> !Idle(old(states), k, Call(key, now))
        decreases todo
      {
        var k :| k in todo;
        todo := todo - {k};
        if k != key && states[k].last < cutoff {
          states := states - {k};
        }
      }
    }
  }

  // -------------------------------------------------- sweeping against no sweeping

  /** The answers of the limiter to a sequence of calls. */
  function Answers(cfg: Config, m: States, calls: seq<Call>): seq<bool>
    decreases |calls|
  {
    if calls == [] then [] else
      var t := Tracked(cfg, m, calls[0]);
      [Answer(cfg, t, calls[0])] + Answers(cfg, Stepped(cfg, t, calls[0]), calls[1..])
  }

  /** The same limiter with an unbounded map that is never swept. */
  function PlainAnswers(cfg: Config, m: States, calls: seq<Call>): seq<bool>
    decreases |calls|
  {
    if calls == [] then [] else
      var t := WithEntry(cfg, m, calls[0]);
      [Answer(cfg, t, calls[0])] + PlainAnswers(cfg, Stepped(cfg, t, calls[0]), calls[1..])
  }

  ghost predicate Nondecreasing(calls: seq<Call>) {
    forall i, j :: 0 <= i < j < |calls| ==> calls[i].now <= calls[j].now
  }

  /** Every entry is in range and none is from the future. */
  ghost predicate Sane(cfg: Config, m: States, t: real) {
    forall k :: k in m ==> InRange(m[k], cfg.burst as real) && m[k].last <= t
  }

  /** The swept map agrees with the plain one, except for entries that have been idle for a minute. */
  ghost predicate Simulates(m: States, plain: States, t: real) {
    && m.Keys <= plain.Keys
    && (forall k :: k in m ==> m[k] == plain[k])
    && (forall k :: k in plain && k !in m ==> plain[k].last < t - IdleAfter)
  }

  /** A bucket idle for a minute refills to the brim, when a minute is enough. */
  lemma IdleRefills(cfg: Config, b: Bucket, now: real)
    requires cfg.burst <= 60 * cfg.rate && InRange(b, cfg.burst as real) && b.last < now - IdleAfter
    ensures Refilled(b, now, cfg.rate as real, cfg.burst as real) == Bucket(cfg.burst as real, now)
  {
    var rate := cfg.rate as real;
    GainAdds(b.last, now - IdleAfter, now, rate);
    GainNonNegative(b.last, now - IdleAfter, rate);
    assert Gain(now - IdleAfter, now, rate) == (60 * cfg.rate) as real;
  }

  /** So the plain entry and a fresh one answer alike and end alike. */
  lemma SameEntry(cfg: Config, m: States, plain: States, call: Call, t: real)
    requires cfg.Valid() && cfg.burst <= 60 * cfg.rate && t <= call.now && Sane(cfg, plain, t) && Simulates(m, plain, t)
    ensures var x, y := WithEntry(cfg, m, call)[call.key], WithEntry(cfg, plain, call)[call.key];
      Refilled(x, call.now, cfg.rate as real, cfg.burst as real) == Refilled(y, call.now, cfg.rate as real, cfg.burst as real)
  {
    if call.key in plain && call.key !in m {
      IdleRefills(cfg, plain[call.key], call.now);
      assert Refilled(Bucket(cfg.burst as real, call.now), call.now, cfg.rate as real, cfg.burst as real) == Bucket(cfg.burst as real, call.now);
    }
  }

  lemma SameStep(cfg: Config, m: States, plain: States, call: Call, t: real)
    requires cfg.Valid() && cfg.burst <= 60 * cfg.rate && t <= call.now && Sane(cfg, plain, t) && Simulates(m, plain, t)
    ensures Answer(cfg, Tracked(cfg, m, call), call) == Answer(cfg, WithEntry(cfg, plain, call), call)
    ensures Simulates(Stepped(cfg, Tracked(cfg, m, call), call), Stepped(cfg, WithEntry(cfg, plain, call), call), call.now)
  {
    SameEntry(cfg, m, plain, call, t);
    assert Tracked(cfg, m, call)[call.key] == WithEntry(cfg, m, call)[call.key];
  }

  lemma SaneStep(cfg: Config, plain: States, call: Call, t: real)
    requires cfg.Valid() && t <= call.now && Sane(cfg, plain, t)
    ensures Sane(cfg, Stepped(cfg, WithEntry(cfg, plain, call), call), call.now)
  {
    StaysInRange(WithEntry(cfg, plain, call)[call.key], call.now, cfg.rate as real, cfg.burst as real);
  }

  lemma {:induction false} SimulationRun(cfg: Config, m: States, plain: States, calls: seq<Call>, t: real)
    requires cfg.Valid() && cfg.burst <= 60 * cfg.rate && Sane(cfg, plain, t) && Simulates(m, plain, t)
    requires Nondecreasing(calls) && (calls != [] ==> t <= calls[0].now)
    ensures Answers(cfg, m, calls) == PlainAnswers(cfg, plain, calls)
    decreases |calls|
  {
    if calls != [] {
      SameStep(cfg, m, plain, calls[0], t);
      SaneStep(cfg, plain, calls[0], t);
      SimulationRun(cfg, Stepped(cfg, Tracked(cfg, m, calls[0]), calls[0]), Stepped(cfg, WithEntry(cfg, plain, calls[0]), calls[0]),
                    calls[1..], calls[0].now);
    }
  }

  /** When a minute refills the whole burst, no sequence of calls can tell that entries are swept. */
  lemma SweepingUnobservable(cfg: Config, calls: seq<Call>)
    requires cfg.Valid() && cfg.burst <= 60 * cfg.rate && Nondecreasing(calls)
    ensures Answers(cfg, map[], calls) == PlainAnswers(cfg, map[], calls)
  {
    SimulationRun(cfg, map[], map[], calls, if calls == [] then 0.0 else calls[0].now);
  }

  // ------------------------------------------- a minute that does not refill the burst

  ghost function CountFor(calls: seq<Call>, answers: seq<bool>, key: Key): nat
    requires |calls| == |answers|
  {
    if calls == [] then 0 else (if calls[0].key == key && answers[0] then 1 else 0) + CountFor(calls[1..], answers[1..], key)
  }

  lemma {:induction false} AnswersLength(cfg: Config, m: States, calls: seq<Call>)
    ensures |Answers(cfg, m, calls)| == |calls| && |PlainAnswers(cfg, m, calls)| == |calls|
    decreases |calls|
  {
    if calls != [] {
      AnswersLength(cfg, Stepped(cfg, Tracked(cfg, m, calls[0]), calls[0]), calls[1..]);
      AnswersLength(cfg, Stepped(cfg, WithEntry(cfg, m, calls[0]), calls[0]), calls[1..]);
    }
  }

  /** What a key can still be granted up to time `horizon`. */
  function Allowance(cfg: Config, m: States, key: Key, start: real, horizon: real): real {
    if key in m then m[key].tokens + Gain(m[key].last, horizon, cfg.rate as real)
    else cfg.burst as real + Gain(start, horizon, cfg.rate as real)
  }

  lemma AllowanceStep(cfg: Config, m: States, call: Call, key: Key, horizon: real)
    requires cfg.Valid() && Sane(cfg, m, call.now) && call.now <= horizon
    ensures (if call.key == key && Answer(cfg, WithEntry(cfg, m, call), call) then 1.0 else 0.0)
      + Allowance(cfg, Stepped(cfg, WithEntry(cfg, m, call), call), key, call.now, horizon) <= Allowance(cfg, m, key, call.now, horizon)
  {
    if call.key == key {
      var b := WithEntry(cfg, m, call)[key];
      OneObservation(b, call.now, cfg.rate as real, cfg.burst as real);
      GainAdds(b.last, call.now, horizon, cfg.rate as real);
    }
  }

  lemma LaterStart(cfg: Config, m: States, key: Key, start: real, start': real, horizon: real)
    requires start <= start'
    ensures Allowance(cfg, m, key, start', horizon) <= Allowance(cfg, m, key, start, horizon)
  {
    GainAdds(start, start', horizon, cfg.rate as real);
    GainNonNegative(start, start', cfg.rate as real);
  }

  /** Without sweeping, a key's grants stay within its allowance. */
  lemma {:induction false} PlainGrantsBounded(cfg: Config, m: States, calls: seq<Call>, key: Key, start: real, horizon: real)
    requires cfg.Valid() && Sane(cfg, m, start) && Nondecreasing(calls) && start <= horizon
    requires forall i :: 0 <= i < |calls| ==> start <= calls[i].now <= horizon
    ensures |PlainAnswers(cfg, m, calls)| == |calls|
    ensures CountFor(calls, PlainAnswers(cfg, m, calls), key) as real <= Allowance(cfg, m, key, start, horizon)
    decreases |calls|
  {
    AnswersLength(cfg, m, calls);
    if calls == [] {
      assert key in m ==> InRange(m[key], cfg.burst as real);
      GainNonNegative(if key in m then m[key].last else start, horizon, cfg.rate as real);
    } else {
      var call := calls[0];
      AllowanceStep(cfg, m, call, key, horizon);
      LaterStart(cfg, m, key, start, call.now, horizon);
      SaneStep(cfg, m, call, start);
      var m' := Stepped(cfg, WithEntry(cfg, m, call), call);
      PlainGrantsBounded(cfg, m', calls[1..], key, call.now, horizon);
      assert PlainAnswers(cfg, m, calls)[1..] == PlainAnswers(cfg, m', calls[1..]);
    }
  }

  function Repeat(call: Call, n: nat): seq<Call> { seq(n, _ => call) }

  ghost predicate AllTrue(s: seq<bool>) { forall i :: 0 <= i < |s| ==> s[i] }

  /** The state after a sequence of calls. */
  ghost function After(cfg: Config, m: States, calls: seq<Call>): States
    decreases |calls|
  {
    if calls == [] then m else After(cfg, Stepped(cfg, Tracked(cfg, m, calls[0]), calls[0]), calls[1..])
  }

  lemma {:induction false} AfterOfConcat(cfg: Config, m: States, a: seq<Call>, b: seq<Call>)
    ensures After(cfg, m, a + b) == After(cfg, After(cfg, m, a), b)
    decreases |a|
  {
    if a == [] {
      assert a + b == b;
    } else {
      assert (a + b)[0] == a[0] && (a + b)[1..] == a[1..] + b;
      AfterOfConcat(cfg, Stepped(cfg, Tracked(cfg, m, a[0]), a[0]), a[1..], b);
    }
  }

  /** The first call of a sequence is answered by itself, and the rest from the state it leaves. */
  lemma FirstAnswer(cfg: Config, m: States, call: Call, rest: seq<Call>, m': States)
    requires m' == Stepped(cfg, Tracked(cfg, m, call), call)
    ensures Answers(cfg, m, [call] + rest) == [Answer(cfg, Tracked(cfg, m, call), call)] + Answers(cfg, m', rest)
    ensures After(cfg, m, [call] + rest) == After(cfg, m', rest)
  {
    assert ([call] + rest)[1..] == rest;
  }

  lemma Glued(first: bool, all: seq<bool>, front: seq<bool>, restOfAll: seq<bool>, restOfFront: seq<bool>, back: seq<bool>)
    requires all == [first] + restOfAll && front == [first] + restOfFront && restOfAll == restOfFront + back
    ensures all == front + back
  {
  }

  lemma AnswersOfNil(cfg: Config, m: States, b: seq<Call>)
    ensures [] + b == b && After(cfg, m, []) == m && Answers(cfg, m, []) == [] && [] + Answers(cfg, m, b) == Answers(cfg, m, b)
  {
  }

  lemma AnswersOfCons(cfg: Config, m: States, call: Call, rest: seq<Call>, b: seq<Call>, m': States)
    requires m' == Stepped(cfg, Tracked(cfg, m, call), call)
    requires Answers(cfg, m', rest + b) == Answers(cfg, m', rest) + Answers(cfg, After(cfg, m', rest), b)
    ensures [call] + (rest + b) == [call] + rest + b && After(cfg, m, [call] + rest) == After(cfg, m', rest)
    ensures Answers(cfg, m, [call] + (rest + b)) == Answers(cfg, m, [call] + rest) + Answers(cfg, After(cfg, m', rest), b)
  {
    FirstAnswer(cfg, m, call, rest + b, m');
    FirstAnswer(cfg, m, call, rest, m');
    Glued(Answer(cfg, Tracked(cfg, m, call), call), Answers(cfg, m, [call] + (rest + b)), Answers(cfg, m, [call] + rest),
          Answers(cfg, m', rest + b), Answers(cfg, m', rest), Answers(cfg, After(cfg, m', rest), b));
  }

  lemma {:induction false} AnswersOfConcat(cfg: Config, m: States, a: seq<Call>, b: seq<Call>)
    ensures Answers(cfg, m, a + b) == Answers(cfg, m, a) + Answers(cfg, After(cfg, m, a), b)
    decreases |a|
  {
    if a == [] {
      AnswersOfNil(cfg, m, b);
    } else {
      var call, rest := a[0], a[1..];
      var m' := Stepped(cfg, Tracked(cfg, m, call), call);
      AnswersOfConcat(cfg, m', rest, b);
      AnswersOfCons(cfg, m, call, rest, b, m');
      assert [call] + rest == a;
    }
  }

  /** `n` calls at one instant are all granted while `n` tokens last. */
  lemma {:induction false} Drain(cfg: Config, m: States, call: Call, n: nat, tokens: nat)
    requires cfg.Valid() && call.key in m && m[call.key] == Bucket(tokens as real, call.now) && n <= tokens <= cfg.burst
    ensures AllTrue(Answers(cfg, m, Repeat(call, n)))
    ensures After(cfg, m, Repeat(call, n)) == m[call.key := Bucket((tokens - n) as real, call.now)]
    decreases n
  {
    if n > 0 {
      var m' := Stepped(cfg, Tracked(cfg, m, call), call);
      GainNonNegative(call.now, call.now, cfg.rate as real);
      assert Gain(call.now, call.now, cfg.rate as real) == 0.0;
      assert m' == m[call.key := Bucket((tokens - 1) as real, call.now)];
      assert Repeat(call, n)[1..] == Repeat(call, n - 1) && Repeat(call, n)[0] == call;
      Drain(cfg, m', call, n - 1, tokens - 1);
    }
  }

  /** A new key gets a whole burst. */
  lemma DrainNew(cfg: Config, m: States, call: Call)
    requires cfg.Valid() && call.key !in m
    ensures AllTrue(Answers(cfg, m, Repeat(call, cfg.burst)))
    ensures After(cfg, m, Repeat(call, cfg.burst)) == Tracked(cfg, m, call)[call.key := Bucket(0.0, call.now)]
  {
    var t := Tracked(cfg, m, call);
    assert t[call.key] == Bucket(cfg.burst as real, call.now);
    Drain(cfg, t, call, cfg.burst, cfg.burst);
    var calls := Repeat(call, cfg.burst);
    assert Tracked(cfg, t, call) == t;
    assert Answers(cfg, m, calls) == Answers(cfg, t, calls);
    assert After(cfg, m, calls) == After(cfg, t, calls);
  }

  /** Calls of keys 1 to n at time `now`. */
  function Newcomers(n: nat, now: real): seq<Call> { seq(n, (i: nat) => Call(i + 1, now)) }

  ghost predicate Filled(m: States, n: nat, now: real) {
    && (forall k: Key :: k in m <==> k <= n)
    && m[0] == Bucket(0.0, 0.0) && forall k :: 1 <= k <= n ==> m[k].last == now
  }

  lemma FilledSize(m: States, n: nat, now: real)
    requires Filled(m, n, now)
    ensures |m| == n + 1
  {
    SizeUpTo(m.Keys, n);
  }

  lemma {:induction false} SizeUpTo(s: set<Key>, n: nat)
    requires forall k: Key :: k in s <==> k <= n
    ensures |s| == n + 1
  {
    if n == 0 {
      assert s == {0};
    } else {
      SizeUpTo(s - {n}, n - 1);
    }
  }

  lemma FillOne(cfg: Config, m: States, n: nat, now: real)
    requires cfg.Valid() && 0 < n < cfg.maxTracked && Filled(m, n - 1, now) && now > 0.0
    ensures Filled(After(cfg, m, [Call(n, now)]), n, now)
  {
    var call := Call(n, now);
    FilledSize(m, n - 1, now);
    assert WithEntry(cfg, m, call).Keys == m.Keys + {n};
    assert After(cfg, m, [call]) == Stepped(cfg, WithEntry(cfg, m, call), call);
  }

  /** Below the bound nothing is swept. */
  lemma {:induction false} FillUp(cfg: Config, m: States, n: nat, now: real)
    requires cfg.Valid() && n < cfg.maxTracked && Filled(m, 0, now) && now > 0.0
    ensures Filled(After(cfg, m, Newcomers(n, now)), n, now)
  {
    if n > 0 {
      FillUp(cfg, m, n - 1, now);
      assert Newcomers(n, now) == Newcomers(n - 1, now) + [Call(n, now)];
      AfterOfConcat(cfg, m, Newcomers(n - 1, now), [Call(n, now)]);
      FillOne(cfg, After(cfg, m, Newcomers(n - 1, now)), n, now);
    }
  }

  /** The newcomer that exceeds the bound sweeps key 0. */
  lemma Overflow(cfg: Config, m: States, now: real)
    requires cfg.Valid() && cfg.maxTracked >= 1 && Filled(m, 0, now) && now > IdleAfter
    ensures 0 !in After(cfg, m, Newcomers(cfg.maxTracked, now))
  {
    var n := cfg.maxTracked;
    FillUp(cfg, m, n - 1, now);
    var call := Call(n, now);
    assert Newcomers(n, now) == Newcomers(n - 1, now) + [call];
    AfterOfConcat(cfg, m, Newcomers(n - 1, now), [call]);
    var m1 := After(cfg, m, Newcomers(n - 1, now));
    FilledSize(m1, n - 1, now);
    assert WithEntry(cfg, m1, call).Keys == m1.Keys + {n};
    assert After(cfg, m1, [call]) == Stepped(cfg, Tracked(cfg, m1, call), call);
  }

  lemma {:induction false} CountTrue(calls: seq<Call>, answers: seq<bool>, key: Key)
    requires |calls| == |answers| && AllTrue(answers) && forall i :: 0 <= i < |calls| ==> calls[i].key == key
    ensures CountFor(calls, answers, key) == |calls|
  {
    if calls != [] {
      CountTrue(calls[1..], answers[1..], key);
    }
  }

  lemma {:induction false} CountConcat(a: seq<Call>, x: seq<bool>, b: seq<Call>, y: seq<bool>, key: Key)
    requires |a| == |x| && |b| == |y|
    ensures CountFor(a + b, x + y, key) == CountFor(a, x, key) + CountFor(b, y, key)
  {
    if a == [] {
      assert a + b == b && x + y == y;
    } else {
      assert (a + b)[1..] == a[1..] + b && (x + y)[1..] == x[1..] + y;
      CountConcat(a[1..], x[1..], b, y, key);
    }
  }

  /** An instant just after the idle limit, at which the plain bucket holds half a token more than a minute's refill. */
  function Reopening(cfg: Config): real
    requires cfg.Valid()
  {
    IdleAfter + 0.5 / cfg.rate as real
  }

  function Witness(cfg: Config): seq<Call>
    requires cfg.Valid()
  {
    var t := Reopening(cfg);
    Repeat(Call(0, 0.0), cfg.burst) + Newcomers(cfg.maxTracked, t) + Repeat(Call(0, t), cfg.burst)
  }

  lemma ReopeningIsLate(cfg: Config)
    requires cfg.Valid()
    ensures Reopening(cfg) > IdleAfter
    ensures Gain(0.0, Reopening(cfg), cfg.rate as real) == (60 * cfg.rate) as real + 0.5
  {
    var r := cfg.rate as real;
    assert 0.5 / r > 0.0 && 0.5 / r * r == 0.5;
    assert (IdleAfter + 0.5 / r) * r == IdleAfter * r + 0.5 / r * r;
  }

  /** With sweeping, the witness grants key 0 its burst twice. */
  lemma SweptGrantsTwice(cfg: Config)
    requires cfg.Valid() && cfg.maxTracked >= 1
    ensures |Answers(cfg, map[], Witness(cfg))| == |Witness(cfg)|
    ensures CountFor(Witness(cfg), Answers(cfg, map[], Witness(cfg)), 0) >= 2 * cfg.burst
  {
    var t := Reopening(cfg);
    var first, middle, last := Repeat(Call(0, 0.0), cfg.burst), Newcomers(cfg.maxTracked, t), Repeat(Call(0, t), cfg.burst);
    ReopeningIsLate(cfg);
    DrainNew(cfg, map[], Call(0, 0.0));
    var m := After(cfg, map[], first);
    assert m == map[0 := Bucket(0.0, 0.0)] by {
      assert |WithEntry(cfg, map[], Call(0, 0.0))| == 1;
    }
    Overflow(cfg, m, t);
    var m2 := After(cfg, m, middle);
    DrainNew(cfg, m2, Call(0, t));
    AfterOfConcat(cfg, map[], first, middle);
    AnswersOfConcat(cfg, map[], first, middle);
    AnswersOfConcat(cfg, map[], first + middle, last);
    AnswersLength(cfg, map[], first);
    AnswersLength(cfg, m, middle);
    AnswersLength(cfg, m2, last);
    CountTrue(first, Answers(cfg, map[], first), 0);
    CountTrue(last, Answers(cfg, m2, last), 0);
    CountConcat(first, Answers(cfg, map[], first), middle, Answers(cfg, m, middle), 0);
    CountConcat(first + middle, Answers(cfg, map[], first) + Answers(cfg, m, middle), last, Answers(cfg, m2, last), 0);
  }

  lemma WitnessNondecreasing(cfg: Config)
    requires cfg.Valid()
    ensures Nondecreasing(Witness(cfg))
    ensures forall i :: 0 <= i < |Witness(cfg)| ==> 0.0 <= Witness(cfg)[i].now <= Reopening(cfg)
  {
    ReopeningIsLate(cfg);
  }

  lemma SweepingObservable(cfg: Config)
    requires cfg.Valid() && cfg.maxTracked >= 1 && cfg.burst > 60 * cfg.rate
    ensures Answers(cfg, map[], Witness(cfg)) != PlainAnswers(cfg, map[], Witness(cfg))
  {
    SweptGrantsTwice(cfg);
    ReopeningIsLate(cfg);
    WitnessNondecreasing(cfg);
    PlainGrantsBounded(cfg, map[], Witness(cfg), 0, 0.0, Reopening(cfg));
  }

  /**
    Sweeping is unobservable, for every sequence of calls in time order, exactly
    when one idle minute refills a whole burst.
   */
  lemma SweepingUnobservableIff(cfg: Config)
    requires cfg.Valid() && cfg.maxTracked >= 1
    ensures (forall calls :: Nondecreasing(calls) ==> Answers(cfg, map[], calls) == PlainAnswers(cfg, map[], calls))
      <==> cfg.burst <= 60 * cfg.rate
  {
    if cfg.burst <= 60 * cfg.rate {
      forall calls | Nondecreasing(calls) ensures Answers(cfg, map[], calls) == PlainAnswers(cfg, map[], calls) {
        SweepingUnobservable(cfg, calls);
      }
    } else {
      SweepingObservable(cfg);
      WitnessNondecreasing(cfg);
    }
  }

  // ----------------------------------------------------- observations out of order

  /** A bucket that is not observed later than its own clock only ever spends what it has. */
  lemma {:induction false} NoAdvanceNoGain(cfg: Config, m: States, calls: seq<Call>, key: Key)
    requires cfg.Valid() && key in m && 0.0 <= m[key].tokens <= cfg.burst as real
    requires forall i :: 0 <= i < |calls| && calls[i].key == key ==> calls[i].now <= m[key].last
    ensures |PlainAnswers(cfg, m, calls)| == |calls|
    ensures CountFor(calls, PlainAnswers(cfg, m, calls), key) as real <= m[key].tokens
    decreases |calls|
  {
    AnswersLength(cfg, m, calls);
    if calls != [] {
      var m' := Stepped(cfg, WithEntry(cfg, m, calls[0]), calls[0]);
      assert PlainAnswers(cfg, m, calls)[1..] == PlainAnswers(cfg, m', calls[1..]);
      assert Gain(m[key].last, m[key].last, cfg.rate as real) == 0.0;
      NoAdvanceNoGain(cfg, m', calls[1..], key);
    }
  }

  /** Key 0 spends its burst, is swept a minute later, and is then observed before its first use. */
  function Backwards(cfg: Config): seq<Call> {
    Repeat(Call(0, 0.0), cfg.burst) + Newcomers(cfg.maxTracked, 61.0) + [Call(0, -1.0)]
  }

  lemma SweptForgets(cfg: Config)
    requires cfg.Valid() && cfg.maxTracked >= 1
    ensures |Answers(cfg, map[], Backwards(cfg))| == |Backwards(cfg)|
    ensures CountFor(Backwards(cfg), Answers(cfg, map[], Backwards(cfg)), 0) > cfg.burst
  {
    var first, middle, last := Repeat(Call(0, 0.0), cfg.burst), Newcomers(cfg.maxTracked, 61.0), [Call(0, -1.0)];
    DrainNew(cfg, map[], Call(0, 0.0));
    var m := After(cfg, map[], first);
    assert m == map[0 := Bucket(0.0, 0.0)] by {
      assert |WithEntry(cfg, map[], Call(0, 0.0))| == 1;
    }
    Overflow(cfg, m, 61.0);
    var m2 := After(cfg, m, middle);
    NewIsGranted(cfg, m2, Call(0, -1.0));
    AfterOfConcat(cfg, map[], first, middle);
    AnswersOfConcat(cfg, map[], first, middle);
    AnswersOfConcat(cfg, map[], first + middle, last);
    AnswersLength(cfg, map[], first);
    AnswersLength(cfg, m, middle);
    CountTrue(first, Answers(cfg, map[], first), 0);
    CountTrue(last, Answers(cfg, m2, last), 0);
    CountConcat(first, Answers(cfg, map[], first), middle, Answers(cfg, m, middle), 0);
    CountConcat(first + middle, Answers(cfg, map[], first) + Answers(cfg, m, middle), last, Answers(cfg, m2, last), 0);
  }

  lemma NewIsGranted(cfg: Config, m: States, call: Call)
    requires cfg.Valid() && call.key !in m
    ensures Answers(cfg, m, [call]) == [true]
  {
    assert Tracked(cfg, m, call)[call.key] == Bucket(cfg.burst as real, call.now);
    assert Gain(call.now, call.now, cfg.rate as real) == 0.0;
    assert [call][1..] == [];
  }

  /** Without the order of times, sweeping is observable under every configuration. */
  lemma OrderIsNeeded(cfg: Config)
    requires cfg.Valid() && cfg.maxTracked >= 1
    ensures Answers(cfg, map[], Backwards(cfg)) != PlainAnswers(cfg, map[], Backwards(cfg))
  {
    SweptForgets(cfg);
    var calls := Backwards(cfg);
    var entered := WithEntry(cfg, map[], Call(0, 0.0));
    assert calls[0] == Call(0, 0.0);
    NoAdvanceNoGain(cfg, entered, calls, 0);
    assert WithEntry(cfg, entered, calls[0]) == entered;
    assert PlainAnswers(cfg, map[], calls) == PlainAnswers(cfg, entered, calls);
  }
}
