/** Session resume: one-shot slots and rotating challenges under any interleaving of attempts. */
module Resume {
  import opened Common

  /** A challenge string; `NoChallenge` is the empty one, issued to peers that cannot resume. */
  type Challenge = nat
  const NoChallenge: Challenge := 0

  /**
    One Gateway session object.  `armed`, `authorized` and `challenge` are the
    source's fields; the others record history: where it comes from, which
    attempt made it and which holds its slot, whether its slot was burned, and
    how far its admission has come.
   */
  datatype Stage =
    | Owing      // made by a resume whose reply is not sent yet
    | Answered   // answered; its one registration is due
    | Admitted   // has been registered
    | Stillborn  // its reply could not be sent, or its registration was refused

  datatype Obj = Obj(sid: nat, subject: nat, challenge: Challenge, armed: bool, authorized: bool,
    parent: Option<nat>, maker: Option<nat>, child: Option<nat>, holder: Option<nat>, burned: bool, stage: Stage)

  /** How far one run of resumeSession has come; `obj` indexes the session object it found. */
  datatype Phase =
    | Start
    | Found(obj: nat)
    | Consumed(obj: nat)      // won the compare-and-swap on the slot
    | SubjectOk(obj: nat)
    | ChallengeOk(obj: nat)
    | Verified(obj: nat)      // window, authorization, signature, entropy
    | Resumed(obj: nat, successor: nat)  // session_resumed not yet sent
    | Replied(obj: nat, successor: nat)
    | Failed

  datatype Attempt = Attempt(sid: nat, subject: nat, challenge: Challenge, phase: Phase)

  datatype Acceptance = Acceptance(obj: nat, presented: Challenge, successor: nat)

  /** `registry` maps a session ID to the registered object. */
  datatype State = State(objs: seq<Obj>, attempts: seq<Attempt>, registry: map<nat, nat>, accepted: seq<Acceptance>)

  datatype Step =
    | Handshake(sid: nat, subject: nat, challenge: Challenge)
    | Register(obj: nat)
    | Refuse(obj: nat)
    | Unregister(obj: nat)
    | Deauthorize(obj: nat)
    | Arrive(sid: nat, subject: nat, challenge: Challenge)
    | Lookup(a: nat)
    | Consume(a: nat)
    | CheckSubject(a: nat)
    | CheckChallenge(a: nat)
    | Verify(a: nat, ok: bool)
    | ResumeInto(a: nat, next: Challenge)
    | Reply(a: nat, ok: bool)

  /** An empty expected challenge matches nothing. */
  predicate MatchChallenge(expected: Challenge, presented: Challenge) { expected != NoChallenge && expected == presented }

  // Randomness: a fresh value differs from every earlier one.
  predicate FreshChallenge(st: State, c: Challenge) { c != NoChallenge ==> forall o :: o in st.objs ==> o.challenge != c }
  predicate FreshSession(st: State, sid: nat) { forall o :: o in st.objs ==> o.sid != sid }

  predicate HoldsSlot(p: Phase) { p.Consumed? || p.SubjectOk? || p.ChallengeOk? || p.Verified? }

  predicate At(st: State, a: nat) { a < |st.attempts| && (HoldsSlot(st.attempts[a].phase) ==> st.attempts[a].phase.obj < |st.objs|) }

  predicate CanDo(st: State, s: Step) {
    match s
    case Handshake(sid, _, c) => FreshSession(st, sid) && FreshChallenge(st, c)
    case Register(o) => o < |st.objs| && st.objs[o].stage.Answered?
    case Refuse(o) => o < |st.objs| && st.objs[o].stage.Answered?
    case Unregister(o) => o < |st.objs|
    case Deauthorize(o) => o < |st.objs|
    case Arrive(_, _, _) => true
    case Lookup(a) => a < |st.attempts| && st.attempts[a].phase.Start?
    case Consume(a) => a < |st.attempts| && st.attempts[a].phase.Found? && st.attempts[a].phase.obj < |st.objs|
    case CheckSubject(a) => At(st, a) && st.attempts[a].phase.Consumed?
    case CheckChallenge(a) => At(st, a) && st.attempts[a].phase.SubjectOk?
    case Verify(a, _) => At(st, a) && st.attempts[a].phase.ChallengeOk?
    case ResumeInto(a, next) => At(st, a) && st.attempts[a].phase.Verified? && next != NoChallenge && FreshChallenge(st, next)
    case Reply(a, _) => a < |st.attempts| && st.attempts[a].phase.Resumed? && st.attempts[a].phase.successor < |st.objs|
  }

  /** A full handshake returns its session after session_ready is written; a resumed one still owes its reply. */
  function NewSession(sid: nat, subject: nat, c: Challenge, parent: Option<nat>, maker: Option<nat>): Obj {
    Obj(sid, subject, c, true, true, parent, maker, None, None, false, if parent.None? then Answered else Owing)
  }

  function Moved(st: State, a: nat, p: Phase): State
    requires a < |st.attempts|
  {
    st.(attempts := st.attempts[a := st.attempts[a].(phase := p)])
  }

  function WithObj(st: State, o: nat, x: Obj): State
    requires o < |st.objs|
  {
    st.(objs := st.objs[o := x])
  }

  /** The attempt fails and hands the slot back. */
  function Rearm(st: State, a: nat): State
    requires At(st, a) && HoldsSlot(st.attempts[a].phase)
  {
    var o := st.attempts[a].phase.obj;
    WithObj(Moved(st, a, Failed), o, st.objs[o].(armed := true, holder := None))
  }

  function Do(st: State, s: Step): State
    requires CanDo(st, s)
  {
    match s
    case Handshake(sid, subject, c) => st.(objs := st.objs + [NewSession(sid, subject, c, None, None)])
    case Register(o) => WithObj(st, o, st.objs[o].(stage := Admitted)).(registry := st.registry[st.objs[o].sid := o])
    case Refuse(o) => WithObj(st, o, st.objs[o].(stage := Stillborn))
    case Unregister(o) =>
      var sid := st.objs[o].sid;
      if sid in st.registry && st.registry[sid] == o then st.(registry := st.registry - {sid}) else st
    case Deauthorize(o) => WithObj(st, o, st.objs[o].(authorized := false))
    case Arrive(sid, subject, c) => st.(attempts := st.attempts + [Attempt(sid, subject, c, Start)])
    case Lookup(a) => DoLookup(st, a)
    case Consume(a) => DoConsume(st, a)
    case CheckSubject(a) => DoCheckSubject(st, a)
    case CheckChallenge(a) =>
      var o := st.attempts[a].phase.obj;
      if MatchChallenge(st.objs[o].challenge, st.attempts[a].challenge) then Moved(st, a, ChallengeOk(o)) else Rearm(st, a)
    case Verify(a, ok) => if ok then Moved(st, a, Verified(st.attempts[a].phase.obj)) else Rearm(st, a)
    case ResumeInto(a, next) => DoResumeInto(st, a, next)
    case Reply(a, ok) => DoReply(st, a, ok)
  }

  /** A reply that cannot be sent closes the successor, which was never registered; the old slot stays spent. */
  function DoReply(st: State, a: nat, ok: bool): State
    requires CanDo(st, Reply(a, ok))
  {
    var p := st.attempts[a].phase;
    if ok then WithObj(Moved(st, a, Replied(p.obj, p.successor)), p.successor, st.objs[p.successor].(stage := Answered))
    else WithObj(Moved(st, a, Failed), p.successor, st.objs[p.successor].(stage := Stillborn))
  }

  function DoLookup(st: State, a: nat): State
    requires CanDo(st, Lookup(a))
  {
    var sid := st.attempts[a].sid;
    if sid in st.registry && st.registry[sid] < |st.objs| && st.objs[st.registry[sid]].authorized
    then Moved(st, a, Found(st.registry[sid]))
    else Moved(st, a, Failed)
  }

  function DoConsume(st: State, a: nat): State
    requires CanDo(st, Consume(a))
  {
    var o := st.attempts[a].phase.obj;
    if st.objs[o].armed
    then WithObj(Moved(st, a, Consumed(o)), o, st.objs[o].(armed := false, holder := Some(a)))
    else Moved(st, a, Failed)
  }

  /** A subject mismatch fails without handing the slot back. */
  function DoCheckSubject(st: State, a: nat): State
    requires CanDo(st, CheckSubject(a))
  {
    var o := st.attempts[a].phase.obj;
    if st.objs[o].subject == st.attempts[a].subject then Moved(st, a, SubjectOk(o))
    else WithObj(Moved(st, a, Failed), o, st.objs[o].(holder := None, burned := true))
  }

  function DoResumeInto(st: State, a: nat, next: Challenge): State
    requires CanDo(st, ResumeInto(a, next))
  {
    var o := st.attempts[a].phase.obj;
    var x := st.objs[o];
    if !x.authorized then Rearm(st, a)
    else
      var n := |st.objs|;
      State(st.objs[o := x.(child := Some(n), holder := None)] + [NewSession(x.sid, x.subject, next, Some(o), Some(a))],
            Moved(st, a, Resumed(o, n)).attempts, st.registry,
            st.accepted + [Acceptance(o, st.attempts[a].challenge, n)])
  }

  // --------------------------------------------------------------- invariants

  /** Objects sharing a session ID form one chain in creation order. */
  ghost predicate Linear(objs: seq<Obj>) {
    && (forall i :: 0 <= i < |objs| && objs[i].parent.Some? ==> IsLink(objs, objs[i].parent.value, i))
    && (forall i :: 0 <= i < |objs| && objs[i].child.Some? ==> IsLink(objs, i, objs[i].child.value))
    && (forall i, j :: 0 <= i < j < |objs| && objs[i].sid == objs[j].sid ==>
          objs[j].parent.Some? && objs[i].child.Some? && objs[i].child.value <= j)
  }

  predicate IsLink(objs: seq<Obj>, p: nat, c: nat) {
    && p < c < |objs| && objs[c].parent == Some(p) && objs[p].child == Some(c)
    && objs[c].sid == objs[p].sid && objs[c].subject == objs[p].subject
  }

  ghost predicate DistinctChallenges(objs: seq<Obj>) {
    forall i, j :: 0 <= i < j < |objs| && objs[i].challenge != NoChallenge ==> objs[i].challenge != objs[j].challenge
  }

  /** The slot is free, held by one attempt, spent on a successor, or burned: never two of these. */
  predicate SlotOk(x: Obj) {
    && (x.armed <==> x.holder.None? && x.child.None? && !x.burned)
    && (x.holder.Some? ==> x.child.None? && !x.burned)
    && (x.child.Some? ==> !x.burned)
    // Until it has been registered nobody can find it.
    && (!x.stage.Admitted? ==> x.holder.None? && x.child.None?)
  }

  ghost predicate Slots(objs: seq<Obj>) { forall i :: 0 <= i < |objs| ==> SlotOk(objs[i]) }

  predicate AttemptOk(st: State, a: nat)
    requires a < |st.attempts|
  {
    var t := st.attempts[a];
    && (t.phase.Found? ==> t.phase.obj < |st.objs| && st.objs[t.phase.obj].stage.Admitted?)
    && (HoldsSlot(t.phase) ==> t.phase.obj < |st.objs| && st.objs[t.phase.obj].holder == Some(a))
    && (t.phase.Resumed? ==> Owes(st.objs, a, t.phase.obj, t.phase.successor))
    && ((t.phase.ChallengeOk? || t.phase.Verified?) && t.phase.obj < |st.objs| ==> MatchChallenge(st.objs[t.phase.obj].challenge, t.challenge))
  }

  /** Attempt `a` made `n` out of `o` and has not answered yet. */
  predicate Owes(objs: seq<Obj>, a: nat, o: nat, n: nat) {
    o < |objs| && n < |objs| && objs[o].child == Some(n) && objs[n].maker == Some(a) && objs[n].stage.Owing?
  }

  ghost predicate Registered(st: State) {
    forall sid :: sid in st.registry ==> st.registry[sid] < |st.objs| && st.objs[st.registry[sid]].stage.Admitted?
  }

  ghost predicate Holders(st: State) {
    && (forall a :: 0 <= a < |st.attempts| ==> AttemptOk(st, a))
    && (forall i :: 0 <= i < |st.objs| && st.objs[i].holder.Some? ==> HeldBy(st, i, st.objs[i].holder.value))
  }

  predicate HeldBy(st: State, i: nat, a: nat) {
    a < |st.attempts| && HoldsSlot(st.attempts[a].phase) && st.attempts[a].phase.obj == i
  }

  predicate AcceptanceOk(objs: seq<Obj>, x: Acceptance) {
    x.obj < |objs| && MatchChallenge(objs[x.obj].challenge, x.presented) && objs[x.obj].child == Some(x.successor)
  }

  ghost predicate Accepted(st: State) {
    && (forall k :: 0 <= k < |st.accepted| ==> AcceptanceOk(st.objs, st.accepted[k]))
    && (forall k, l :: 0 <= k < l < |st.accepted| ==> st.accepted[k].obj != st.accepted[l].obj)
  }

  ghost predicate Inv(st: State) {
    Linear(st.objs) && DistinctChallenges(st.objs) && Slots(st.objs) && Holders(st) && Accepted(st) && Registered(st)
  }

  // Updating the slot fields of one object leaves chain, challenges and acceptances alone.

  predicate SameIdentity(x: Obj, y: Obj) {
    x.sid == y.sid && x.subject == y.subject && x.challenge == y.challenge && x.parent == y.parent && x.child == y.child && x.maker == y.maker
  }

  lemma UpdateKeepsChain(st: State, st': State)
    requires |st'.objs| == |st.objs| && forall i :: 0 <= i < |st.objs| ==> SameIdentity(st.objs[i], st'.objs[i])
    requires st'.accepted == st.accepted
    ensures Linear(st.objs) ==> Linear(st'.objs)
    ensures DistinctChallenges(st.objs) ==> DistinctChallenges(st'.objs)
    ensures Accepted(st) ==> Accepted(st')
  {
    forall i, j | 0 <= i < |st.objs| && 0 <= j < |st.objs| && IsLink(st.objs, i, j) ensures IsLink(st'.objs, i, j) {
    }
  }

  lemma AppendKeepsLink(objs: seq<Obj>, y: Obj, i: nat, j: nat)
    requires IsLink(objs, i, j)
    ensures IsLink(objs + [y], i, j)
  {
  }

  lemma AppendKeepsChain(objs: seq<Obj>, y: Obj)
    requires Linear(objs) && y.parent.None? && y.child.None? && forall z :: z in objs ==> z.sid != y.sid
    ensures Linear(objs + [y])
  {
    var objs' := objs + [y];
    forall i | 0 <= i < |objs'| && objs'[i].parent.Some? ensures IsLink(objs', objs'[i].parent.value, i) {
      AppendKeepsLink(objs, y, objs[i].parent.value, i);
    }
    forall i | 0 <= i < |objs'| && objs'[i].child.Some? ensures IsLink(objs', i, objs'[i].child.value) {
      AppendKeepsLink(objs, y, i, objs[i].child.value);
    }
    forall i, j | 0 <= i < j < |objs'| && objs'[i].sid == objs'[j].sid
      ensures objs'[j].parent.Some? && objs'[i].child.Some? && objs'[i].child.value <= j
    {
      assert objs[i] in objs;
    }
  }

  lemma AppendKeepsChallenges(objs: seq<Obj>, y: Obj)
    requires DistinctChallenges(objs) && (y.challenge != NoChallenge ==> forall z :: z in objs ==> z.challenge != y.challenge)
    ensures DistinctChallenges(objs + [y])
  {
    forall i | 0 <= i < |objs| ensures objs[i] in objs {
    }
  }

  lemma HandshakeKeepsInv(st: State, s: Step)
    requires Inv(st) && s.Handshake? && CanDo(st, s)
    ensures Inv(Do(st, s))
  {
    var st' := Do(st, s);
    AppendKeepsChain(st.objs, st'.objs[|st.objs|]);
    AppendKeepsChallenges(st.objs, st'.objs[|st.objs|]);
    forall a | 0 <= a < |st.attempts| ensures AttemptOk(st', a) {
      assert AttemptOk(st, a);
    }
    forall k | 0 <= k < |st.accepted| ensures AcceptanceOk(st'.objs, st.accepted[k]) {
      assert AcceptanceOk(st.objs, st.accepted[k]);
    }
  }

  /** Neither objects nor attempts change. */
  lemma UnregisterKeepsInv(st: State, s: Step)
    requires Inv(st) && CanDo(st, s) && s.Unregister?
    ensures Inv(Do(st, s))
  {
    var st' := Do(st, s);
    forall a | 0 <= a < |st'.attempts| ensures AttemptOk(st', a) {
      assert AttemptOk(st, a);
    }
    forall i | 0 <= i < |st'.objs| && st'.objs[i].holder.Some? ensures HeldBy(st', i, st'.objs[i].holder.value) {
      assert HeldBy(st, i, st.objs[i].holder.value);
    }
  }

  /** An object that was answered but never registered is registered or refused. */
  lemma AdmissionKeepsAttempts(st: State, s: Step)
    requires Inv(st) && CanDo(st, s) && (s.Register? || s.Refuse?)
    ensures Holders(Do(st, s))
  {
    var st' := Do(st, s);
    assert SlotOk(st.objs[s.obj]);
    forall a | 0 <= a < |st'.attempts| ensures AttemptOk(st', a) {
      assert AttemptOk(st, a);
    }
    forall i | 0 <= i < |st'.objs| && st'.objs[i].holder.Some? ensures HeldBy(st', i, st'.objs[i].holder.value) {
      assert HeldBy(st, i, st.objs[i].holder.value);
    }
  }

  lemma AdmissionKeepsSlots(st: State, s: Step)
    requires Slots(st.objs) && Registered(st) && CanDo(st, s) && (s.Register? || s.Refuse?)
    ensures Slots(Do(st, s).objs) && Registered(Do(st, s))
  {
    assert SlotOk(st.objs[s.obj]);
  }

  lemma AdmissionKeepsInv(st: State, s: Step)
    requires Inv(st) && CanDo(st, s) && (s.Register? || s.Refuse?)
    ensures Inv(Do(st, s))
  {
    UpdateKeepsChain(st, Do(st, s));
    AdmissionKeepsAttempts(st, s);
    AdmissionKeepsSlots(st, s);
  }

  lemma DeauthorizeKeepsAttempts(st: State, s: Step)
    requires Inv(st) && CanDo(st, s) && s.Deauthorize?
    ensures Holders(Do(st, s)) && Slots(Do(st, s).objs)
  {
    var st' := Do(st, s);
    assert SlotOk(st.objs[s.obj]);
    forall a | 0 <= a < |st'.attempts| ensures AttemptOk(st', a) {
      assert AttemptOk(st, a);
    }
    forall i | 0 <= i < |st'.objs| && st'.objs[i].holder.Some? ensures HeldBy(st', i, st'.objs[i].holder.value) {
      assert HeldBy(st, i, st.objs[i].holder.value);
    }
  }

  lemma DeauthorizeKeepsInv(st: State, s: Step)
    requires Inv(st) && CanDo(st, s) && s.Deauthorize?
    ensures Inv(Do(st, s))
  {
    UpdateKeepsChain(st, Do(st, s));
    DeauthorizeKeepsAttempts(st, s);
  }

  lemma ArriveKeepsInv(st: State, s: Step)
    requires Inv(st) && CanDo(st, s) && s.Arrive?
    ensures Inv(Do(st, s))
  {
    var st' := Do(st, s);
    forall a | 0 <= a < |st'.attempts| ensures AttemptOk(st', a) {
      assert a < |st.attempts| ==> AttemptOk(st, a);
    }
    forall i | 0 <= i < |st'.objs| && st'.objs[i].holder.Some? ensures HeldBy(st', i, st'.objs[i].holder.value) {
      assert HeldBy(st, i, st.objs[i].holder.value);
    }
  }

  /** Attempt `a` moves between phases; object `o`'s slot may change with it. */
  lemma MoveKeepsHolders(st: State, st': State, a: nat, o: nat)
    requires Inv(st) && a < |st.attempts| && o < |st.objs|
    requires |st'.attempts| == |st.attempts| && |st'.objs| == |st.objs|
    requires forall b :: 0 <= b < |st.attempts| && b != a ==> st'.attempts[b] == st.attempts[b]
    requires forall i :: 0 <= i < |st.objs| && i != o ==> st'.objs[i] == st.objs[i]
    requires SameIdentity(st'.objs[o], st.objs[o]) && st'.objs[o].stage == st.objs[o].stage
    requires forall b :: 0 <= b < |st.attempts| && b != a ==> !HeldBy(st, o, b)
    requires HoldsSlot(st.attempts[a].phase) ==> st.attempts[a].phase.obj == o
    requires AttemptOk(st', a)
    requires st'.objs[o].holder.Some? ==> HeldBy(st', o, st'.objs[o].holder.value)
    ensures Holders(st')
  {
    forall b | 0 <= b < |st'.attempts| ensures AttemptOk(st', b) {
      if b != a {
        assert AttemptOk(st, b);
        assert !HeldBy(st, o, b);
      }
    }
    forall i | 0 <= i < |st'.objs| && st'.objs[i].holder.Some? ensures HeldBy(st', i, st'.objs[i].holder.value) {
      if i != o {
        assert HeldBy(st, i, st.objs[i].holder.value);
      }
    }
  }

  lemma HolderIsUnique(st: State, o: nat, a: nat, b: nat)
    requires Inv(st) && o < |st.objs| && HeldBy(st, o, a) && HeldBy(st, o, b)
    ensures a == b
  {
    assert AttemptOk(st, a) && AttemptOk(st, b);
  }

  lemma OthersDoNotHold(st: State, o: nat, a: nat)
    requires Inv(st) && o < |st.objs| && (HeldBy(st, o, a) || st.objs[o].armed)
    ensures forall b :: 0 <= b < |st.attempts| && b != a ==> !HeldBy(st, o, b)
  {
    forall b | 0 <= b < |st.attempts| && b != a && HeldBy(st, o, b) ensures false {
      assert AttemptOk(st, b) && SlotOk(st.objs[o]);
      if HeldBy(st, o, a) {
        HolderIsUnique(st, o, a, b);
      }
    }
  }

  /** A phase that owns nothing. */
  predicate Harmless(st: State, p: Phase) {
    !HoldsSlot(p) && !p.Resumed? && (p.Found? ==> p.obj < |st.objs| && st.objs[p.obj].stage.Admitted?)
  }

  /** Lookup and a lost compare-and-swap touch no slot. */
  lemma LookupKeepsInv(st: State, a: nat)
    requires Inv(st) && a < |st.attempts| && !HoldsSlot(st.attempts[a].phase)
    ensures forall p: Phase :: Harmless(st, p) ==> Inv(Moved(st, a, p))
  {
    forall p: Phase | Harmless(st, p) ensures Inv(Moved(st, a, p)) {
      var st' := Moved(st, a, p);
      forall b | 0 <= b < |st'.attempts| ensures AttemptOk(st', b) {
        assert AttemptOk(st, b);
      }
      forall i | 0 <= i < |st.objs| && st.objs[i].holder.Some? ensures HeldBy(st', i, st'.objs[i].holder.value) {
        assert HeldBy(st, i, st.objs[i].holder.value);
      }
      UpdateKeepsChain(st, st');
    }
  }

  lemma ConsumeKeepsInv(st: State, a: nat)
    requires Inv(st) && CanDo(st, Consume(a)) && st.objs[st.attempts[a].phase.obj].armed
    ensures Inv(Do(st, Consume(a)))
  {
    var st' := Do(st, Consume(a));
    var o := st.attempts[a].phase.obj;
    assert AttemptOk(st, a) && SlotOk(st.objs[o]);
    OthersDoNotHold(st, o, a);
    UpdateKeepsChain(st, st');
    assert HeldBy(st', o, a);
    MoveKeepsHolders(st, st', a, o);
  }

  lemma RearmKeepsInv(st: State, a: nat)
    requires Inv(st) && At(st, a) && HoldsSlot(st.attempts[a].phase)
    ensures Inv(Rearm(st, a))
  {
    var o := st.attempts[a].phase.obj;
    assert AttemptOk(st, a) && SlotOk(st.objs[o]);
    OthersDoNotHold(st, o, a);
    UpdateKeepsChain(st, Rearm(st, a));
    MoveKeepsHolders(st, Rearm(st, a), a, o);
  }

  /** A check that passes only advances the attempt. */
  lemma PassKeepsInv(st: State, a: nat, p: Phase)
    requires Inv(st) && At(st, a) && HoldsSlot(st.attempts[a].phase) && HoldsSlot(p) && p.obj == st.attempts[a].phase.obj
    requires p.ChallengeOk? || p.Verified? ==> MatchChallenge(st.objs[p.obj].challenge, st.attempts[a].challenge)
    ensures Inv(Moved(st, a, p))
  {
    assert AttemptOk(st, a);
    OthersDoNotHold(st, p.obj, a);
    UpdateKeepsChain(st, Moved(st, a, p));
    MoveKeepsHolders(st, Moved(st, a, p), a, p.obj);
  }

  lemma BurnKeepsInv(st: State, a: nat)
    requires Inv(st) && CanDo(st, CheckSubject(a)) && st.objs[st.attempts[a].phase.obj].subject != st.attempts[a].subject
    ensures Inv(Do(st, CheckSubject(a)))
  {
    var o := st.attempts[a].phase.obj;
    assert AttemptOk(st, a) && SlotOk(st.objs[o]);
    OthersDoNotHold(st, o, a);
    UpdateKeepsChain(st, Do(st, CheckSubject(a)));
    MoveKeepsHolders(st, Do(st, CheckSubject(a)), a, o);
  }

  predicate Extends(objs: seq<Obj>, o: nat, x: Obj, y: Obj) {
    && o < |objs| && objs[o].child.None? && x == objs[o].(child := Some(|objs|), holder := None)
    && y.sid == x.sid && y.subject == x.subject && y.parent == Some(o) && y.child.None?
  }

  lemma ExtendKeepsLinks(objs: seq<Obj>, o: nat, x: Obj, y: Obj, i: nat, j: nat)
    requires Extends(objs, o, x, y) && (IsLink(objs, i, j) || (i == o && j == |objs|))
    ensures IsLink(objs[o := x] + [y], i, j)
  {
  }

  /** The holder's object is the newest of its chain. */
  lemma NewestHasNoChild(objs: seq<Obj>, o: nat)
    requires Linear(objs) && o < |objs| && objs[o].child.None?
    ensures forall j :: 0 <= j < |objs| && objs[j].sid == objs[o].sid ==> j <= o
  {
  }

  lemma ExtendKeepsOrder(objs: seq<Obj>, o: nat, x: Obj, y: Obj, i: nat, j: nat)
    requires Linear(objs) && Extends(objs, o, x, y) && i < j <= |objs|
    requires (objs[o := x] + [y])[i].sid == (objs[o := x] + [y])[j].sid
    ensures var objs' := objs[o := x] + [y];
      objs'[j].parent.Some? && objs'[i].child.Some? && objs'[i].child.value <= j
  {
    if j == |objs| {
      NewestHasNoChild(objs, o);
    }
  }

  /** So the new object extends the chain. */
  lemma ResumeExtendsChain(objs: seq<Obj>, o: nat, x: Obj, y: Obj)
    requires Linear(objs) && Extends(objs, o, x, y)
    ensures Linear(objs[o := x] + [y])
  {
    var objs' := objs[o := x] + [y];
    forall i | 0 <= i < |objs'| && objs'[i].parent.Some? ensures IsLink(objs', objs'[i].parent.value, i) {
      ExtendKeepsLinks(objs, o, x, y, objs'[i].parent.value, i);
    }
    forall i | 0 <= i < |objs'| && objs'[i].child.Some? ensures IsLink(objs', i, objs'[i].child.value) {
      ExtendKeepsLinks(objs, o, x, y, i, objs'[i].child.value);
    }
    forall i, j | 0 <= i < j < |objs'| && objs'[i].sid == objs'[j].sid
      ensures objs'[j].parent.Some? && objs'[i].child.Some? && objs'[i].child.value <= j
    {
      ExtendKeepsOrder(objs, o, x, y, i, j);
    }
  }

  lemma ExtendKeepsChallenges(objs: seq<Obj>, o: nat, x: Obj, y: Obj)
    requires DistinctChallenges(objs) && o < |objs| && x.challenge == objs[o].challenge
    requires forall z :: z in objs ==> z.challenge != y.challenge
    ensures DistinctChallenges(objs[o := x] + [y])
  {
    forall i | 0 <= i < |objs| ensures objs[i].challenge != y.challenge {
      assert objs[i] in objs;
    }
  }

  lemma ResumeKeepsHolders(st: State, a: nat, next: Challenge)
    requires Inv(st) && CanDo(st, ResumeInto(a, next)) && st.objs[st.attempts[a].phase.obj].authorized
    ensures Slots(DoResumeInto(st, a, next).objs) && Holders(DoResumeInto(st, a, next))
  {
    var st' := DoResumeInto(st, a, next);
    var o := st.attempts[a].phase.obj;
    assert AttemptOk(st, a) && SlotOk(st.objs[o]);
    OthersDoNotHold(st, o, a);
    forall b | 0 <= b < |st'.attempts| ensures AttemptOk(st', b) {
      assert AttemptOk(st, b);
      assert b != a ==> !HeldBy(st, o, b);
    }
    forall i | 0 <= i < |st'.objs| && st'.objs[i].holder.Some? ensures HeldBy(st', i, st'.objs[i].holder.value) {
      assert HeldBy(st, i, st.objs[i].holder.value);
    }
  }

  lemma ResumeKeepsAccepted(st: State, a: nat, next: Challenge)
    requires Inv(st) && CanDo(st, ResumeInto(a, next)) && st.objs[st.attempts[a].phase.obj].authorized
    ensures Accepted(DoResumeInto(st, a, next))
  {
    var st' := DoResumeInto(st, a, next);
    var o := st.attempts[a].phase.obj;
    assert AttemptOk(st, a) && SlotOk(st.objs[o]);
    forall k | 0 <= k < |st.accepted|
      ensures AcceptanceOk(st'.objs, st.accepted[k]) && st.accepted[k].obj != o
    {
      assert AcceptanceOk(st.objs, st.accepted[k]);
    }
  }

  lemma ResumeIntoKeepsInv(st: State, a: nat, next: Challenge)
    requires Inv(st) && CanDo(st, ResumeInto(a, next))
    ensures Inv(Do(st, ResumeInto(a, next)))
  {
    var o := st.attempts[a].phase.obj;
    if st.objs[o].authorized {
      assert AttemptOk(st, a) && SlotOk(st.objs[o]);
      ResumeKeepsHolders(st, a, next);
      ResumeKeepsAccepted(st, a, next);
      var x := st.objs[o];
      ResumeExtendsChain(st.objs, o, x.(child := Some(|st.objs|), holder := None), NewSession(x.sid, x.subject, next, Some(o), Some(a)));
      ExtendKeepsChallenges(st.objs, o, x.(child := Some(|st.objs|), holder := None), NewSession(x.sid, x.subject, next, Some(o), Some(a)));
    } else {
      RearmKeepsInv(st, a);
    }
  }

  /** Nobody but its maker knows a successor that owes its reply. */
  lemma OthersDoNotKnow(st: State, a: nat, n: nat, b: nat)
    requires Inv(st) && a < |st.attempts| && st.attempts[a].phase.Resumed? && st.attempts[a].phase.successor == n
    requires b < |st.attempts| && b != a
    ensures n < |st.objs| && !st.objs[n].stage.Admitted? && st.objs[n].holder.None? && st.objs[n].child.None?
    ensures st.attempts[b].phase.Found? || HoldsSlot(st.attempts[b].phase) ==> st.attempts[b].phase.obj != n
    ensures st.attempts[b].phase.Resumed? ==> st.attempts[b].phase.obj != n && st.attempts[b].phase.successor != n
  {
    assert AttemptOk(st, a) && AttemptOk(st, b) && SlotOk(st.objs[n]);
  }

  lemma ReplyKeepsAttempts(st: State, a: nat, ok: bool)
    requires Inv(st) && CanDo(st, Reply(a, ok))
    ensures Holders(DoReply(st, a, ok))
  {
    var st', n := DoReply(st, a, ok), st.attempts[a].phase.successor;
    forall b | 0 <= b < |st'.attempts| ensures AttemptOk(st', b) {
      assert AttemptOk(st, b);
      if b != a { OthersDoNotKnow(st, a, n, b); }
    }
    forall i | 0 <= i < |st'.objs| && st'.objs[i].holder.Some? ensures HeldBy(st', i, st'.objs[i].holder.value) {
      assert HeldBy(st, i, st.objs[i].holder.value);
    }
  }

  lemma ReplyKeepsInv(st: State, a: nat, ok: bool)
    requires Inv(st) && CanDo(st, Reply(a, ok))
    ensures Inv(DoReply(st, a, ok))
  {
    assert AttemptOk(st, a);
    UpdateKeepsChain(st, DoReply(st, a, ok));
    ReplyKeepsAttempts(st, a, ok);
    ReplyKeepsSlots(st, a, ok);
  }

  lemma ReplyKeepsSlots(st: State, a: nat, ok: bool)
    requires Slots(st.objs) && Registered(st) && CanDo(st, Reply(a, ok)) && AttemptOk(st, a)
    ensures Slots(DoReply(st, a, ok).objs) && Registered(DoReply(st, a, ok))
  {
    assert SlotOk(st.objs[st.attempts[a].phase.successor]);
  }

  lemma TryConsumeKeepsInv(st: State, a: nat)
    requires Inv(st) && CanDo(st, Consume(a))
    ensures Inv(Do(st, Consume(a)))
  {
    if st.objs[st.attempts[a].phase.obj].armed { ConsumeKeepsInv(st, a); } else { LookupKeepsInv(st, a); }
  }

  lemma SubjectKeepsInv(st: State, a: nat)
    requires Inv(st) && CanDo(st, CheckSubject(a))
    ensures Inv(Do(st, CheckSubject(a)))
  {
    var o := st.attempts[a].phase.obj;
    if st.objs[o].subject == st.attempts[a].subject { PassKeepsInv(st, a, SubjectOk(o)); } else { BurnKeepsInv(st, a); }
  }

  lemma ChallengeKeepsInv(st: State, a: nat)
    requires Inv(st) && CanDo(st, CheckChallenge(a))
    ensures Inv(Do(st, CheckChallenge(a)))
  {
    var o := st.attempts[a].phase.obj;
    if MatchChallenge(st.objs[o].challenge, st.attempts[a].challenge) { PassKeepsInv(st, a, ChallengeOk(o)); } else { RearmKeepsInv(st, a); }
  }

  lemma VerifyKeepsInv(st: State, a: nat, ok: bool)
    requires Inv(st) && CanDo(st, Verify(a, ok))
    ensures Inv(Do(st, Verify(a, ok)))
  {
    assert AttemptOk(st, a);
    if ok { PassKeepsInv(st, a, Verified(st.attempts[a].phase.obj)); } else { RearmKeepsInv(st, a); }
  }

  lemma DoKeepsInv(st: State, s: Step)
    requires Inv(st) && CanDo(st, s)
    ensures Inv(Do(st, s))
  {
    match s
    case Handshake(_, _, _) => HandshakeKeepsInv(st, s);
    case Register(_) => AdmissionKeepsInv(st, s);
    case Refuse(_) => AdmissionKeepsInv(st, s);
    case Unregister(_) => UnregisterKeepsInv(st, s);
    case Deauthorize(_) => DeauthorizeKeepsInv(st, s);
    case Arrive(_, _, _) => ArriveKeepsInv(st, s);
    case Lookup(a) => LookupKeepsInv(st, a);
    case Consume(a) => TryConsumeKeepsInv(st, a);
    case CheckSubject(a) => SubjectKeepsInv(st, a);
    case CheckChallenge(a) => ChallengeKeepsInv(st, a);
    case Verify(a, ok) => VerifyKeepsInv(st, a, ok);
    case ResumeInto(a, next) => ResumeIntoKeepsInv(st, a, next);
    case Reply(a, ok) => ReplyKeepsInv(st, a, ok);
  }

  // ------------------------------------------------------------------ results

  const Empty := State([], [], map[], [])

  predicate StepTo(st: State, s: Step, st': State) { CanDo(st, s) && st' == Do(st, s) }

  ghost predicate IsRun(run: seq<State>, steps: seq<Step>) {
    && |run| == |steps| + 1 && run[0] == Empty
    && forall k :: 0 <= k < |steps| ==> StepTo(run[k], steps[k], run[k + 1])
  }

  lemma {:induction false} RunInv(run: seq<State>, steps: seq<Step>, k: nat)
    requires IsRun(run, steps) && k < |run|
    ensures Inv(run[k])
  {
    if k > 0 {
      RunInv(run, steps, k - 1);
      assert StepTo(run[k - 1], steps[k - 1], run[k]);
      DoKeepsInv(run[k - 1], steps[k - 1]);
    }
  }

  /** No session object ever gets two successors. */
  lemma OneSuccessor(run: seq<State>, steps: seq<Step>, k: nat, i: nat, j: nat, p: nat)
    requires IsRun(run, steps) && k < |run| && i < |run[k].objs| && j < |run[k].objs|
    requires run[k].objs[i].parent == run[k].objs[j].parent == Some(p)
    ensures i == j
  {
    RunInv(run, steps, k);
    assert IsLink(run[k].objs, p, i) && IsLink(run[k].objs, p, j);
  }

  /**
    Objects sharing a session ID form one chain: the first comes from a full
    handshake, and each later one resumes exactly the one before it.
   */
  lemma SharedIdIsOneChain(run: seq<State>, steps: seq<Step>, k: nat, i: nat, j: nat)
    requires IsRun(run, steps) && k < |run| && i < j < |run[k].objs| && run[k].objs[i].sid == run[k].objs[j].sid
    ensures run[k].objs[j].parent.Some? && i <= run[k].objs[j].parent.value < j
    ensures run[k].objs[run[k].objs[j].parent.value].sid == run[k].objs[j].sid
    ensures (forall m :: i < m < j ==> run[k].objs[m].sid != run[k].objs[j].sid) ==> run[k].objs[j].parent == Some(i)
  {
    RunInv(run, steps, k);
    var objs := run[k].objs;
    var p := objs[j].parent.value;
    assert IsLink(objs, p, j);
  }

  /** Every successful resume presented the challenge issued to the object it resumed. */
  lemma SuccessPresentedItsChallenge(run: seq<State>, steps: seq<Step>, k: nat, i: nat)
    requires IsRun(run, steps) && k < |run| && i < |run[k].accepted|
    ensures var x := run[k].accepted[i]; x.obj < |run[k].objs| && x.presented == run[k].objs[x.obj].challenge != NoChallenge
    ensures var x := run[k].accepted[i]; IsLink(run[k].objs, x.obj, x.successor)
  {
    RunInv(run, steps, k);
    assert AcceptanceOk(run[k].objs, run[k].accepted[i]);
  }

  /** No challenge is ever accepted twice, so a captured resume frame resumes at most once. */
  lemma ChallengeAcceptedOnce(run: seq<State>, steps: seq<Step>, k: nat, i: nat, j: nat)
    requires IsRun(run, steps) && k < |run| && i < j < |run[k].accepted|
    ensures run[k].accepted[i].presented != run[k].accepted[j].presented
  {
    RunInv(run, steps, k);
    var st := run[k];
    assert AcceptanceOk(st.objs, st.accepted[i]) && AcceptanceOk(st.objs, st.accepted[j]);
    assert st.accepted[i].obj != st.accepted[j].obj;
  }

  /** The step in which an attempt that holds `o`'s slot presents another subject. */
  predicate Mismatched(st: State, s: Step, o: nat) {
    && s.CheckSubject? && CanDo(st, s) && st.attempts[s.a].phase.obj == o
    && st.objs[o].subject != st.attempts[s.a].subject
  }

  /** The step in which the reply to a resume of `o` cannot be sent. */
  predicate ReplyFailed(st: State, s: Step, o: nat) {
    s.Reply? && CanDo(st, s) && !s.ok && st.attempts[s.a].phase.obj == o
  }

  /** The step in which the registration of `o`'s answered successor is refused. */
  predicate RegistrationRefused(st: State, s: Step, o: nat) {
    s.Refuse? && CanDo(st, s) && o < |st.objs| && st.objs[o].child == Some(s.obj)
  }

  /** The slot is neither free nor held, and there is no successor that is or may yet become reachable. */
  predicate Lost(st: State, o: nat) {
    && o < |st.objs| && !st.objs[o].armed && st.objs[o].holder.None?
    && (st.objs[o].child.None? || (st.objs[o].child.value < |st.objs| && st.objs[st.objs[o].child.value].stage.Stillborn?))
  }

  /**
    A slot is lost without a reachable successor exactly by a subject mismatch, an
    unsent reply or a refused registration; every other failure hands it back, and
    what is lost stays lost.
   */
  lemma SlotLostIff(st: State, s: Step, o: nat)
    requires Inv(st) && CanDo(st, s) && o < |st.objs|
    ensures Lost(Do(st, s), o) <==> Lost(st, o) || Mismatched(st, s, o) || ReplyFailed(st, s, o) || RegistrationRefused(st, s, o)
  {
    match s
    case Refuse(n) => LostOnRefuse(st, n, o);
    case Consume(a) => LostByConsume(st, a, o);
    case CheckSubject(a) => LostByCheck(st, s, o);
    case CheckChallenge(a) => LostByCheck(st, s, o);
    case Verify(a, _) => LostByCheck(st, s, o);
    case ResumeInto(a, next) => LostByResume(st, a, next, o);
    case Reply(a, ok) => LostOnReply(st, a, ok, o);
    case _ => LostOutside(st, s, o);
  }

  /** Objects keep their slots, and those they link to keep theirs. */
  lemma LostOutside(st: State, s: Step, o: nat)
    requires Inv(st) && CanDo(st, s) && o < |st.objs|
    requires s.Handshake? || s.Register? || s.Unregister? || s.Deauthorize? || s.Arrive? || s.Lookup?
    ensures Lost(Do(st, s), o) <==> Lost(st, o)
  {
    var st' := Do(st, s);
    assert SameSlot(st.objs[o], st'.objs[o]);
    if st.objs[o].child.Some? {
      var n := st.objs[o].child.value;
      assert IsLink(st.objs, o, n);
      assert SameSlot(st.objs[n], st'.objs[n]);
    }
  }

  predicate SameSlot(x: Obj, y: Obj) {
    x.armed == y.armed && x.holder == y.holder && x.child == y.child && x.stage.Stillborn? == y.stage.Stillborn?
  }

  lemma LostOnRefuse(st: State, n: nat, o: nat)
    requires Inv(st) && CanDo(st, Refuse(n)) && o < |st.objs|
    ensures Lost(Do(st, Refuse(n)), o) <==> Lost(st, o) || RegistrationRefused(st, Refuse(n), o)
  {
    assert SlotOk(st.objs[o]);
    if st.objs[o].child.Some? { assert IsLink(st.objs, o, st.objs[o].child.value); }
  }

  lemma LostByConsume(st: State, a: nat, o: nat)
    requires Inv(st) && CanDo(st, Consume(a)) && o < |st.objs|
    ensures Lost(Do(st, Consume(a)), o) <==> Lost(st, o)
  {
    if st.objs[o].child.Some? { assert IsLink(st.objs, o, st.objs[o].child.value); }
  }

  lemma LostByCheck(st: State, s: Step, o: nat)
    requires Inv(st) && CanDo(st, s) && o < |st.objs| && (s.CheckSubject? || s.CheckChallenge? || s.Verify?)
    ensures Lost(Do(st, s), o) <==> Lost(st, o) || Mismatched(st, s, o)
  {
    assert AttemptOk(st, s.a) && SlotOk(st.objs[o]);
    if st.objs[o].child.Some? { assert IsLink(st.objs, o, st.objs[o].child.value); }
  }

  lemma LostByResume(st: State, a: nat, next: Challenge, o: nat)
    requires Inv(st) && CanDo(st, ResumeInto(a, next)) && o < |st.objs|
    ensures Lost(Do(st, ResumeInto(a, next)), o) <==> Lost(st, o)
  {
    assert AttemptOk(st, a) && SlotOk(st.objs[o]);
    if st.objs[o].child.Some? { assert IsLink(st.objs, o, st.objs[o].child.value); }
  }

  lemma LostOnReply(st: State, a: nat, ok: bool, o: nat)
    requires Inv(st) && CanDo(st, Reply(a, ok)) && o < |st.objs|
    ensures Lost(Do(st, Reply(a, ok)), o) <==> Lost(st, o) || ReplyFailed(st, Reply(a, ok), o)
  {
    var p := st.attempts[a].phase;
    assert AttemptOk(st, a) && SlotOk(st.objs[o]) && SlotOk(st.objs[p.obj]);
    assert IsLink(st.objs, p.obj, p.successor);
    if st.objs[o].child.Some? { assert IsLink(st.objs, o, st.objs[o].child.value); }
  }

  lemma LostStays(st: State, s: Step, st': State, o: nat)
    requires Inv(st) && StepTo(st, s, st') && Lost(st, o)
    ensures Lost(st', o)
  {
    SlotLostIff(st, s, o);
  }

  lemma {:induction false} LostForever(run: seq<State>, steps: seq<Step>, k: nat, l: nat, o: nat)
    requires IsRun(run, steps) && k <= l < |run| && Lost(run[k], o)
    ensures Lost(run[l], o)
  {
    if k < l {
      LostForever(run, steps, k, l - 1, o);
      RunInv(run, steps, l - 1);
      assert StepTo(run[l - 1], steps[l - 1], run[l - 1 + 1]);
      LostStays(run[l - 1], steps[l - 1], run[l], o);
    }
  }

  /** A successor whose reply was not sent or whose registration was refused is never found or resumed. */
  lemma StillbornIsUnreachable(run: seq<State>, steps: seq<Step>, k: nat, n: nat)
    requires IsRun(run, steps) && k < |run| && n < |run[k].objs| && run[k].objs[n].stage.Stillborn?
    ensures run[k].objs[n].child.None? && run[k].objs[n].holder.None?
    ensures forall sid :: sid in run[k].registry ==> run[k].registry[sid] != n
    ensures forall a :: 0 <= a < |run[k].attempts| ==> run[k].attempts[a].phase != Found(n)
  {
    RunInv(run, steps, k);
    assert SlotOk(run[k].objs[n]);
    forall a | 0 <= a < |run[k].attempts| ensures run[k].attempts[a].phase != Found(n) {
      assert AttemptOk(run[k], a);
    }
  }

  // ------------------------------------------------------- the three losses happen

  lemma ExtendRun(run: seq<State>, steps: seq<Step>, s: Step)
    requires IsRun(run, steps) && CanDo(run[|run| - 1], s)
    ensures IsRun(run + [Do(run[|run| - 1], s)], steps + [s])
  {
    var run', steps' := run + [Do(run[|run| - 1], s)], steps + [s];
    forall k | 0 <= k < |steps'| ensures StepTo(run'[k], steps'[k], run'[k + 1]) {
      if k < |steps| { assert StepTo(run[k], steps[k], run[k + 1]); }
    }
  }

  function Solo(x: Obj, t: Attempt): State { State([x], [t], map[7 := 0], []) }

  /** A session with ID 7 and subject 1 is registered. */
  lemma SessionRegistered() returns (run: seq<State>, steps: seq<Step>)
    ensures IsRun(run, steps) && run[|run| - 1] == State([NewSession(7, 1, 5, None, None).(stage := Admitted)], [], map[7 := 0], [])
  {
    var x := NewSession(7, 1, 5, None, None);
    run, steps := [Empty], [];
    ExtendRun(run, steps, Handshake(7, 1, 5));
    run, steps := run + [State([x], [], map[], [])], steps + [Handshake(7, 1, 5)];
    ExtendRun(run, steps, Register(0));
    run, steps := run + [State([x.(stage := Admitted)], [], map[7 := 0], [])], steps + [Register(0)];
  }

  /** An attempt that presents `subject` and its challenge wins its slot. */
  lemma SlotTaken(subject: nat) returns (run: seq<State>, steps: seq<Step>)
    ensures IsRun(run, steps)
    ensures run[|run| - 1] == Solo(NewSession(7, 1, 5, None, None).(armed := false, holder := Some(0), stage := Admitted), Attempt(7, subject, 5, Consumed(0)))
  {
    var x, t := NewSession(7, 1, 5, None, None).(stage := Admitted), Attempt(7, subject, 5, Start);
    run, steps := SessionRegistered();
    ExtendRun(run, steps, Arrive(7, subject, 5));
    run, steps := run + [Solo(x, t)], steps + [Arrive(7, subject, 5)];
    ExtendRun(run, steps, Lookup(0));
    run, steps := run + [Solo(x, t.(phase := Found(0)))], steps + [Lookup(0)];
    ExtendRun(run, steps, Consume(0));
    run, steps := run + [Solo(x.(armed := false, holder := Some(0)), t.(phase := Consumed(0)))], steps + [Consume(0)];
  }

  lemma LostBySubject() returns (run: seq<State>, steps: seq<Step>)
    ensures IsRun(run, steps) && Lost(run[|run| - 1], 0) && run[|run| - 1].objs[0].child.None?
  {
    run, steps := SlotTaken(2);
    ExtendRun(run, steps, CheckSubject(0));
    run, steps := run + [Do(run[|run| - 1], CheckSubject(0))], steps + [CheckSubject(0)];
  }

  lemma AllVerified() returns (run: seq<State>, steps: seq<Step>)
    ensures IsRun(run, steps)
    ensures run[|run| - 1] == Solo(NewSession(7, 1, 5, None, None).(armed := false, holder := Some(0), stage := Admitted), Attempt(7, 1, 5, Verified(0)))
  {
    run, steps := SlotTaken(1);
    var x, t := NewSession(7, 1, 5, None, None).(armed := false, holder := Some(0), stage := Admitted), Attempt(7, 1, 5, Start);
    ExtendRun(run, steps, CheckSubject(0));
    run, steps := run + [Solo(x, t.(phase := SubjectOk(0)))], steps + [CheckSubject(0)];
    ExtendRun(run, steps, CheckChallenge(0));
    run, steps := run + [Solo(x, t.(phase := ChallengeOk(0)))], steps + [CheckChallenge(0)];
    ExtendRun(run, steps, Verify(0, true));
    run, steps := run + [Solo(x, t.(phase := Verified(0)))], steps + [Verify(0, true)];
  }

  /** Everything was in order, and yet the reply does not go out: the old session stays registered and can never be resumed. */
  lemma LostByReply() returns (run: seq<State>, steps: seq<Step>)
    ensures IsRun(run, steps) && Lost(run[|run| - 1], 0) && run[|run| - 1].objs[0].child == Some(1)
    ensures run[|run| - 1].registry == map[7 := 0] && run[|run| - 1].objs[0].authorized
  {
    run, steps := AllVerified();
    ExtendRun(run, steps, ResumeInto(0, 6));
    run, steps := run + [Do(run[|run| - 1], ResumeInto(0, 6))], steps + [ResumeInto(0, 6)];
    ExtendRun(run, steps, Reply(0, false));
    run, steps := run + [Do(run[|run| - 1], Reply(0, false))], steps + [Reply(0, false)];
  }

  lemma LostByRefusal() returns (run: seq<State>, steps: seq<Step>)
    ensures IsRun(run, steps) && Lost(run[|run| - 1], 0) && run[|run| - 1].objs[0].child == Some(1)
    ensures |run[|run| - 1].attempts| == 1 && run[|run| - 1].attempts[0].phase.Replied?
  {
    run, steps := AllVerified();
    ExtendRun(run, steps, ResumeInto(0, 6));
    run, steps := run + [Do(run[|run| - 1], ResumeInto(0, 6))], steps + [ResumeInto(0, 6)];
    ExtendRun(run, steps, Reply(0, true));
    run, steps := run + [Do(run[|run| - 1], Reply(0, true))], steps + [Reply(0, true)];
    ExtendRun(run, steps, Refuse(1));
    run, steps := run + [Do(run[|run| - 1], Refuse(1))], steps + [Refuse(1)];
  }
}
