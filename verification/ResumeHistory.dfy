/** What the steps of a resume run say about its states. */
module ResumeHistory {
  // Who is authorized, who is registered, and what every accepted resume has been through.

  import opened Common
  import opened Resume

  /** `s` is among the first `k` steps. */
  ghost predicate Happened(steps: seq<Step>, k: nat, s: Step) { exists j :: 0 <= j < k && j < |steps| && steps[j] == s }

  lemma HappenedNext(steps: seq<Step>, k: nat, s: Step)
    requires 0 < k <= |steps|
    ensures Happened(steps, k, s) <==> Happened(steps, k - 1, s) || steps[k - 1] == s
  {
  }

  // ------------------------------------------------------------------ one step

  /** Objects stay where they are with their identity; at most one is added, armed and authorized. */
  ghost predicate Grows(objs: seq<Obj>, objs': seq<Obj>) {
    && |objs| <= |objs'| <= |objs| + 1
    && (forall o :: 0 <= o < |objs| ==> KeepsName(objs[o], objs'[o]))
    && (|objs| < |objs'| ==> objs'[|objs|].authorized && objs'[|objs|].armed)
  }

  predicate KeepsName(x: Obj, y: Obj) {
    x.sid == y.sid && x.subject == y.subject && x.challenge == y.challenge && x.maker == y.maker && x.parent == y.parent
  }

  lemma DoGrows(st: State, s: Step)
    requires CanDo(st, s)
    ensures Grows(st.objs, Do(st, s).objs)
  {
    match s
    case ResumeInto(a, next) => ResumeGrows(st, a, next);
    case _ =>
  }

  lemma ResumeGrows(st: State, a: nat, next: Challenge)
    requires CanDo(st, ResumeInto(a, next))
    ensures Grows(st.objs, Do(st, ResumeInto(a, next)).objs)
  {
  }

  /** Only Deauthorize takes an authorization away, and it does. */
  lemma DoAuthorizes(st: State, s: Step, o: nat)
    requires CanDo(st, s) && o < |st.objs|
    ensures o < |Do(st, s).objs| && (Do(st, s).objs[o].authorized <==> st.objs[o].authorized && s != Deauthorize(o))
  {
  }

  lemma DoRegisters(st: State, s: Step, sid: nat, o: nat)
    requires CanDo(st, s)
    ensures In(Do(st, s), sid, o) <==>
      if s.Register? && st.objs[s.obj].sid == sid then s.obj == o
      else In(st, sid, o) && !(s == Unregister(o) && o < |st.objs| && st.objs[o].sid == sid)
  {
    match s
    case ResumeInto(_, _) =>
    case _ =>
  }

  predicate In(st: State, sid: nat, o: nat) { sid in st.registry && st.registry[sid] == o }

  lemma {:induction false} RunGrows(run: seq<State>, steps: seq<Step>, j: nat, k: nat, o: nat)
    requires IsRun(run, steps) && j <= k < |run| && o < |run[j].objs|
    ensures o < |run[k].objs| && KeepsName(run[j].objs[o], run[k].objs[o])
  {
    if j < k {
      RunGrows(run, steps, j, k - 1, o);
      assert StepTo(run[k - 1], steps[k - 1], run[k - 1 + 1]);
      DoGrows(run[k - 1], steps[k - 1]);
    }
  }

  /** What other goroutines may do at any time; a registration is due exactly once, after the answer. */
  lemma AlwaysPossible(st: State, o: nat, sid: nat, subject: nat, c: Challenge)
    ensures CanDo(st, Arrive(sid, subject, c))
    ensures o < |st.objs| ==> CanDo(st, Deauthorize(o)) && CanDo(st, Unregister(o))
    ensures o < |st.objs| ==> (CanDo(st, Register(o)) <==> st.objs[o].stage.Answered?) && (CanDo(st, Refuse(o)) <==> st.objs[o].stage.Answered?)
    ensures CanDo(st, Handshake(sid, subject, c)) <==> forall x :: x in st.objs ==> x.sid != sid && (c != NoChallenge ==> x.challenge != c)
  {
  }

  // -------------------------------------------------------------- authorization

  /** In every run an object is authorized iff it has never been deauthorized. */
  lemma {:induction false} AuthorizedIff(run: seq<State>, steps: seq<Step>, k: nat, o: nat)
    requires IsRun(run, steps) && k < |run| && o < |run[k].objs|
    ensures run[k].objs[o].authorized <==> !Happened(steps, k, Deauthorize(o))
  {
    if k > 0 {
      assert StepTo(run[k - 1], steps[k - 1], run[k - 1 + 1]);
      HappenedNext(steps, k, Deauthorize(o));
      if o < |run[k - 1].objs| {
        AuthorizedIff(run, steps, k - 1, o);
        DoAuthorizes(run[k - 1], steps[k - 1], o);
      } else {
        NotYet(run, steps, k - 1, o);
        DoGrows(run[k - 1], steps[k - 1]);
      }
    }
  }

  lemma NotYet(run: seq<State>, steps: seq<Step>, k: nat, o: nat)
    requires IsRun(run, steps) && k < |run| && o >= |run[k].objs|
    ensures !Happened(steps, k, Deauthorize(o))
  {
    if Happened(steps, k, Deauthorize(o)) {
      var j :| 0 <= j < k && j < |steps| && steps[j] == Deauthorize(o);
      assert StepTo(run[j], steps[j], run[j + 1]);
      RunGrows(run, steps, j, k, o);
    }
  }

  /** The object an attempt has found, whatever it has done with it since. */
  predicate Names(p: Phase, o: nat) { !p.Start? && !p.Failed? && p.obj == o }

  /** An attempt starts to name an object only by a lookup that finds it authorized. */
  lemma DoNames(st: State, s: Step, a: nat, o: nat)
    requires CanDo(st, s) && a < |Do(st, s).attempts| && Names(Do(st, s).attempts[a].phase, o)
    ensures a < |st.attempts|
    ensures Names(st.attempts[a].phase, o) || (s == Lookup(a) && st.attempts[a].phase.Start? && o < |st.objs| && st.objs[o].authorized)
  {
    match s
    case ResumeInto(_, _) =>
    case Reply(_, _) =>
    case _ =>
  }

  /** Acceptances are only ever added, one at a time, by resumeInto on an authorized object. */
  lemma DoAccepts(st: State, s: Step)
    requires CanDo(st, s)
    ensures var more := Do(st, s).accepted;
      || more == st.accepted
      || (s.ResumeInto? && more[..|more| - 1] == st.accepted && st.attempts[s.a].phase == Verified(more[|more| - 1].obj)
          && more[|more| - 1].obj < |st.objs| && st.objs[more[|more| - 1].obj].authorized)
  {
    if s.ResumeInto? {
      var x := Acceptance(st.attempts[s.a].phase.obj, st.attempts[s.a].challenge, |st.objs|);
      assert (st.accepted + [x])[..|st.accepted|] == st.accepted;
    }
  }

  /**
    Withdrawing a session's authorization ends it: no resume of it is accepted from
    then on, and no attempt that has not found it yet ever does.
   */
  lemma {:induction false} RevokedIsNeverResumed(run: seq<State>, steps: seq<Step>, k: nat, l: nat, o: nat)
    requires IsRun(run, steps) && k < l < |run| && steps[k] == Deauthorize(o)
    ensures |run[k].accepted| <= |run[l].accepted|
    ensures forall i :: |run[k].accepted| <= i < |run[l].accepted| ==> run[l].accepted[i].obj != o
    ensures |run[k + 1].attempts| <= |run[l].attempts|
    ensures forall a :: 0 <= a < |run[l].attempts| && (a < |run[k + 1].attempts| ==> run[k + 1].attempts[a].phase.Start?) ==>
      !Names(run[l].attempts[a].phase, o)
  {
    var m := l - 1;
    assert StepTo(run[m], steps[m], run[m + 1]);
    assert StepTo(run[k], steps[k], run[k + 1]);
    if k < m {
      RevokedIsNeverResumed(run, steps, k, m, o);
      RunGrows(run, steps, k, m, o);
      AuthorizedIff(run, steps, m, o);
      DoAccepts(run[m], steps[m]);
      DoKeepsAttempts(run[m], steps[m]);
      forall a | 0 <= a < |run[l].attempts| && Names(run[l].attempts[a].phase, o) ensures a < |run[m].attempts| && Names(run[m].attempts[a].phase, o) {
        DoNames(run[m], steps[m], a, o);
      }
    }
  }

  /** Attempts keep what they present. */
  lemma DoKeepsAttempts(st: State, s: Step)
    requires CanDo(st, s)
    ensures |st.attempts| <= |Do(st, s).attempts|
    ensures forall a :: 0 <= a < |st.attempts| ==> Presents(st.attempts[a], Do(st, s).attempts[a])
  {
    match s
    case ResumeInto(_, _) =>
    case _ =>
  }

  predicate Presents(t: Attempt, t': Attempt) { t'.sid == t.sid && t'.subject == t.subject && t'.challenge == t.challenge }

  // ------------------------------------------------------------------- registry

  /** Step `j` registered `o` under `sid`, and nothing since has replaced or removed it. */
  ghost predicate Current(run: seq<State>, steps: seq<Step>, k: nat, j: nat, sid: nat, o: nat)
    requires |run| == |steps| + 1 && j < k < |run|
  {
    && steps[j] == Register(o) && o < |run[j].objs| && run[j].objs[o].sid == sid
    && forall m :: j < m < k ==> !Displaces(run[m], steps[m], sid, o)
  }

  predicate Displaces(st: State, s: Step, sid: nat, o: nat) {
    s == Unregister(o) || (s.Register? && s.obj < |st.objs| && st.objs[s.obj].sid == sid)
  }

  ghost predicate SomeCurrent(run: seq<State>, steps: seq<Step>, k: nat, sid: nat, o: nat)
    requires |run| == |steps| + 1 && k < |run|
  {
    exists j :: 0 <= j < k && Current(run, steps, k, j, sid, o)
  }

  /** The registered object of a session ID is the last one registered under it, until that very object is unregistered. */
  lemma {:induction false} RegisteredIff(run: seq<State>, steps: seq<Step>, k: nat, sid: nat, o: nat)
    requires IsRun(run, steps) && k < |run|
    ensures In(run[k], sid, o) <==> SomeCurrent(run, steps, k, sid, o)
  {
    if k > 0 {
      var m := k - 1;
      RegisteredIff(run, steps, m, sid, o);
      assert StepTo(run[m], steps[m], run[m + 1]);
      DoRegisters(run[m], steps[m], sid, o);
      CurrentNext(run, steps, k, sid, o);
      if In(run[m], sid, o) && steps[m] == Unregister(o) { RegisteredKeepsId(run, steps, m, sid, o); }
    }
  }

  lemma RegisteredKeepsId(run: seq<State>, steps: seq<Step>, k: nat, sid: nat, o: nat)
    requires IsRun(run, steps) && k < |run| && SomeCurrent(run, steps, k, sid, o)
    ensures o < |run[k].objs| && run[k].objs[o].sid == sid
  {
    var j :| 0 <= j < k && Current(run, steps, k, j, sid, o);
    RunGrows(run, steps, j, k, o);
  }

  lemma CurrentNext(run: seq<State>, steps: seq<Step>, k: nat, sid: nat, o: nat)
    requires IsRun(run, steps) && 0 < k < |run|
    ensures SomeCurrent(run, steps, k, sid, o) <==>
      || (SomeCurrent(run, steps, k - 1, sid, o) && !Displaces(run[k - 1], steps[k - 1], sid, o))
      || (steps[k - 1] == Register(o) && o < |run[k - 1].objs| && run[k - 1].objs[o].sid == sid)
  {
    var m := k - 1;
    if SomeCurrent(run, steps, k, sid, o) {
      var j :| 0 <= j < k && Current(run, steps, k, j, sid, o);
      if j < m { assert Current(run, steps, m, j, sid, o); }
    }
    if SomeCurrent(run, steps, m, sid, o) && !Displaces(run[m], steps[m], sid, o) {
      var j :| 0 <= j < m && Current(run, steps, m, j, sid, o);
      assert Current(run, steps, k, j, sid, o);
    }
    if steps[m] == Register(o) && o < |run[m].objs| && run[m].objs[o].sid == sid { assert Current(run, steps, k, m, sid, o); }
  }

  // -------------------------------------------------- what a success has been through

  /** The attempt has found an object of its session ID, and passed the checks its phase stands for. */
  predicate Checked(st: State, a: nat)
    requires a < |st.attempts|
  {
    var t := st.attempts[a];
    (t.phase.Found? || HoldsSlot(t.phase)) && t.phase.obj < |st.objs| ==>
      && st.objs[t.phase.obj].sid == t.sid
      && (t.phase.SubjectOk? || t.phase.ChallengeOk? || t.phase.Verified? ==> st.objs[t.phase.obj].subject == t.subject)
  }

  /** Registered objects stand under their own session ID. */
  ghost predicate Filed(st: State) {
    forall sid :: sid in st.registry && st.registry[sid] < |st.objs| ==> st.objs[st.registry[sid]].sid == sid
  }

  ghost predicate AllChecked(st: State) { Filed(st) && forall a :: 0 <= a < |st.attempts| ==> Checked(st, a) }

  lemma DoKeepsFiled(st: State, s: Step)
    requires Inv(st) && Filed(st) && CanDo(st, s)
    ensures Filed(Do(st, s))
  {
    DoGrows(st, s);
    forall sid | sid in Do(st, s).registry && Do(st, s).registry[sid] < |Do(st, s).objs|
      ensures Do(st, s).objs[Do(st, s).registry[sid]].sid == sid
    {
      DoRegisters(st, s, sid, Do(st, s).registry[sid]);
    }
  }

  lemma DoKeepsChecked(st: State, s: Step, a: nat)
    requires Inv(st) && AllChecked(st) && CanDo(st, s) && a < |Do(st, s).attempts|
    ensures Checked(Do(st, s), a)
  {
    if a < |st.attempts| {
      assert Checked(st, a) && AttemptOk(st, a);
      DoGrows(st, s);
      DoKeepsAttempts(st, s);
      PhaseFollows(st, s, a);
      CheckedFollows(st, s, a, Do(st, s));
    } else {
      NewAttemptStarts(st, s, a);
    }
  }

  lemma NewAttemptStarts(st: State, s: Step, a: nat)
    requires CanDo(st, s) && |st.attempts| <= a < |Do(st, s).attempts|
    ensures Do(st, s).attempts[a].phase.Start?
  {
    match s
    case ResumeInto(_, _) =>
    case _ =>
  }

  /** How an attempt gets from one phase to the next. */
  predicate Follows(st: State, s: Step, a: nat, p': Phase)
    requires a < |st.attempts|
  {
    var p := st.attempts[a].phase;
    || p' == p || p'.Failed? || p'.Resumed? || p'.Replied?
    || (p.Start? && p'.Found? && s == Lookup(a) && In(st, st.attempts[a].sid, p'.obj) && p'.obj < |st.objs|)
    || (p.Found? && p' == Consumed(p.obj))
    || (p.Consumed? && p' == SubjectOk(p.obj) && p.obj < |st.objs| && st.objs[p.obj].subject == st.attempts[a].subject)
    || (p.SubjectOk? && p' == ChallengeOk(p.obj))
    || (p.ChallengeOk? && p' == Verified(p.obj) && s == Verify(a, true))
  }

  lemma CheckedFollows(st: State, s: Step, a: nat, st': State)
    requires Filed(st) && a < |st.attempts| && a < |st'.attempts| && Checked(st, a) && AttemptOk(st, a)
    requires Grows(st.objs, st'.objs) && Presents(st.attempts[a], st'.attempts[a]) && Follows(st, s, a, st'.attempts[a].phase)
    ensures Checked(st', a)
  {
  }

  lemma PhaseFollows(st: State, s: Step, a: nat)
    requires CanDo(st, s) && a < |st.attempts|
    ensures a < |Do(st, s).attempts| && Follows(st, s, a, Do(st, s).attempts[a].phase)
  {
    match s
    case ResumeInto(_, _) =>
    case Reply(_, _) =>
    case _ =>
  }

  lemma {:induction false} RunChecked(run: seq<State>, steps: seq<Step>, k: nat)
    requires IsRun(run, steps) && k < |run|
    ensures AllChecked(run[k])
  {
    if k > 0 {
      RunChecked(run, steps, k - 1);
      RunInv(run, steps, k - 1);
      assert StepTo(run[k - 1], steps[k - 1], run[k - 1 + 1]);
      DoKeepsFiled(run[k - 1], steps[k - 1]);
      forall a | 0 <= a < |run[k].attempts| ensures Checked(run[k], a) {
        DoKeepsChecked(run[k - 1], steps[k - 1], a);
      }
    }
  }

  lemma {:induction false} VerifiedHappened(run: seq<State>, steps: seq<Step>, k: nat, a: nat)
    requires IsRun(run, steps) && k < |run| && a < |run[k].attempts| && run[k].attempts[a].phase.Verified?
    ensures Happened(steps, k, Verify(a, true))
  {
    assert StepTo(run[k - 1], steps[k - 1], run[k - 1 + 1]);
    HappenedNext(steps, k, Verify(a, true));
    if a < |run[k - 1].attempts| {
      PhaseFollows(run[k - 1], steps[k - 1], a);
      if run[k - 1].attempts[a].phase.Verified? { VerifiedHappened(run, steps, k - 1, a); }
    }
  }

  /** The attempt that made the successor presented this session, this subject and this challenge, and its proof was verified. */
  ghost predicate Earned(st: State, steps: seq<Step>, k: nat, x: Acceptance, a: nat) {
    && x.obj < |st.objs| && x.successor < |st.objs| && a < |st.attempts|
    && st.objs[x.successor].maker == Some(a) && st.objs[x.successor].parent == Some(x.obj)
    && st.attempts[a].sid == st.objs[x.obj].sid && st.attempts[a].subject == st.objs[x.obj].subject
    && st.attempts[a].challenge == x.presented == st.objs[x.obj].challenge
    && Happened(steps, k, Verify(a, true))
  }

  lemma EarnedStays(st: State, s: Step, steps: seq<Step>, k: nat, x: Acceptance, a: nat)
    requires CanDo(st, s) && Earned(st, steps, k, x, a)
    ensures Earned(Do(st, s), steps, k + 1, x, a)
  {
    DoGrows(st, s);
    DoKeepsAttempts(st, s);
  }

  lemma EarnedNow(st: State, s: Step, steps: seq<Step>, k: nat)
    requires Inv(st) && AllChecked(st) && CanDo(st, s) && s.ResumeInto? && Do(st, s).accepted != st.accepted
    requires Happened(steps, k, Verify(s.a, true))
    ensures var more := Do(st, s).accepted; |more| > 0 && Earned(Do(st, s), steps, k, more[|more| - 1], s.a)
  {
    assert Checked(st, s.a) && AttemptOk(st, s.a);
  }

  /**
    In every run, each accepted resume comes from an attempt that presented the
    session's ID, its subject and its challenge, and whose window, authorization and
    signature were verified.
   */
  lemma {:induction false} SuccessPassedEveryCheck(run: seq<State>, steps: seq<Step>, k: nat, i: nat) returns (a: nat)
    requires IsRun(run, steps) && k < |run| && i < |run[k].accepted|
    ensures Earned(run[k], steps, k, run[k].accepted[i], a)
  {
    var m := k - 1;
    assert StepTo(run[m], steps[m], run[m + 1]);
    DoAccepts(run[m], steps[m]);
    if i < |run[m].accepted| {
      a := SuccessPassedEveryCheck(run, steps, m, i);
      EarnedStays(run[m], steps[m], steps, m, run[m].accepted[i], a);
      assert run[k].accepted[i] == run[m].accepted[i];
    } else {
      a := steps[m].a;
      RunInv(run, steps, m);
      RunChecked(run, steps, m);
      VerifiedHappened(run, steps, m, a);
      EarnedNow(run[m], steps[m], steps, m);
      var j :| 0 <= j < m && steps[j] == Verify(a, true);
    }
  }

  // ------------------------------------------------------- an honest resume succeeds

  /** A registered, authorized session whose slot is free and whose peer can resume. */
  predicate Resumable(st: State, sid: nat, o: nat) {
    In(st, sid, o) && o < |st.objs| && st.objs[o].sid == sid && st.objs[o].authorized && st.objs[o].armed && st.objs[o].challenge != NoChallenge
  }

  /** The steps of one attempt that nothing interferes with. */
  function Honest(st: State, sid: nat, o: nat, next: Challenge): seq<Step>
    requires o < |st.objs|
  {
    var a := |st.attempts|;
    [Arrive(sid, st.objs[o].subject, st.objs[o].challenge), Lookup(a), Consume(a), CheckSubject(a), CheckChallenge(a),
     Verify(a, true), ResumeInto(a, next), Reply(a, true), Register(|st.objs|)]
  }

  /** `path` follows `steps` from its first state. */
  ghost predicate IsPath(path: seq<State>, steps: seq<Step>) {
    |path| == |steps| + 1 && forall k :: 0 <= k < |steps| ==> StepTo(path[k], steps[k], path[k + 1])
  }

  /** `st` with the new attempt in phase `p` and the object `o` as `x`. */
  function Trying(st: State, o: nat, p: Phase, x: Obj): State
    requires o < |st.objs|
  {
    st.(attempts := st.attempts + [Attempt(x.sid, x.subject, x.challenge, p)], objs := st.objs[o := x])
  }

  lemma TryingMoves(st: State, o: nat, p: Phase, x: Obj, p': Phase, x': Obj)
    requires o < |st.objs| && KeepsName(x, x')
    ensures WithObj(Moved(Trying(st, o, p, x), |st.attempts|, p'), o, x') == Trying(st, o, p', x')
    ensures Moved(Trying(st, o, p, x), |st.attempts|, p') == Trying(st, o, p', x)
  {
    var t, t' := Attempt(x.sid, x.subject, x.challenge, p), Attempt(x.sid, x.subject, x.challenge, p');
    assert (st.attempts + [t])[|st.attempts| := t'] == st.attempts + [t'];
    assert st.objs[o := x][o := x'] == st.objs[o := x'];
  }

  lemma HonestFinds(st: State, sid: nat, o: nat)
    requires Resumable(st, sid, o)
    ensures var a, x := |st.attempts|, st.objs[o];
      && StepTo(st, Arrive(sid, x.subject, x.challenge), Trying(st, o, Start, x))
      && StepTo(Trying(st, o, Start, x), Lookup(a), Trying(st, o, Found(o), x))
      && StepTo(Trying(st, o, Found(o), x), Consume(a), Trying(st, o, Consumed(o), x.(armed := false, holder := Some(a))))
  {
    var a, x := |st.attempts|, st.objs[o];
    assert st.objs[o := x] == st.objs;
    TryingMoves(st, o, Start, x, Found(o), x);
    TryingMoves(st, o, Found(o), x, Consumed(o), x.(armed := false, holder := Some(a)));
  }

  lemma HonestProves(st: State, o: nat, y: Obj)
    requires o < |st.objs| && y.challenge != NoChallenge
    ensures var a := |st.attempts|;
      && StepTo(Trying(st, o, Consumed(o), y), CheckSubject(a), Trying(st, o, SubjectOk(o), y))
      && StepTo(Trying(st, o, SubjectOk(o), y), CheckChallenge(a), Trying(st, o, ChallengeOk(o), y))
      && StepTo(Trying(st, o, ChallengeOk(o), y), Verify(a, true), Trying(st, o, Verified(o), y))
  {
    TryingMoves(st, o, Consumed(o), y, SubjectOk(o), y);
    TryingMoves(st, o, SubjectOk(o), y, ChallengeOk(o), y);
    TryingMoves(st, o, ChallengeOk(o), y, Verified(o), y);
  }

  /** The successor, its reply and its registration. */
  lemma HonestTakesOver(st: State, o: nat, y: Obj, next: Challenge) returns (s7: State, s8: State, s9: State)
    requires o < |st.objs| && y.authorized && KeepsName(st.objs[o], y) && next != NoChallenge && FreshChallenge(st, next)
    ensures var a, n := |st.attempts|, |st.objs|;
      && StepTo(Trying(st, o, Verified(o), y), ResumeInto(a, next), s7) && StepTo(s7, Reply(a, true), s8) && StepTo(s8, Register(n), s9)
      && Resumable(s9, y.sid, n) && s9.objs[n].parent == Some(o) && s9.objs[n].challenge == next
      && s9.objs[o].child == Some(n) && |s9.accepted| == |st.accepted| + 1
  {
    var a, n, s6 := |st.attempts|, |st.objs|, Trying(st, o, Verified(o), y);
    forall z | z in s6.objs ensures z.challenge != next {
      var i :| 0 <= i < |s6.objs| && s6.objs[i] == z;
      assert st.objs[i] in st.objs;
    }
    s7 := Do(s6, ResumeInto(a, next));
    assert s7.attempts[a].phase == Resumed(o, n) && s7.objs[n].stage == Owing;
    s8 := Do(s7, Reply(a, true));
    assert s8.objs[n].stage == Answered;
    s9 := Do(s8, Register(n));
  }

  /** The right subject, challenge and proof resume it: the successor takes over the session ID with a new challenge. */
  lemma HonestResumeSucceeds(st: State, sid: nat, o: nat, next: Challenge) returns (path: seq<State>)
    requires Resumable(st, sid, o) && next != NoChallenge && FreshChallenge(st, next)
    ensures IsPath(path, Honest(st, sid, o, next)) && path[0] == st
    ensures var st', n := path[|path| - 1], |st.objs|;
      && Resumable(st', sid, n) && st'.objs[n].parent == Some(o) && st'.objs[n].challenge == next
      && st'.objs[o].child == Some(n) && |st'.accepted| == |st.accepted| + 1
  {
    var steps := Honest(st, sid, o, next);
    var x := st.objs[o];
    var y := x.(armed := false, holder := Some(|st.attempts|));
    HonestFinds(st, sid, o);
    HonestProves(st, o, y);
    var s7, s8, s9 := HonestTakesOver(st, o, y, next);
    path := [st, Trying(st, o, Start, x), Trying(st, o, Found(o), x), Trying(st, o, Consumed(o), y), Trying(st, o, SubjectOk(o), y),
             Trying(st, o, ChallengeOk(o), y), Trying(st, o, Verified(o), y), s7, s8, s9];
  }
}
