/** The Gateway's tunnel registry: bounded tunnels per device, one routing primary each. */
module Registry {
  import opened Common

  /** An identifier; the registry only ever compares them. */
  type Name = nat

  /**
    One session object; `object` tells apart sessions that share a session ID.
    What other goroutines keep changing (last seen, authorization, the clock)
    reaches an operation as an argument.
   */
  datatype Session = Session(deviceID: Name, sessionID: Name, object: nat)

  /** The last-seen times one operation reads: a snapshot, taken as fixed while the operation runs. */
  type Seen = Session -> int
  type Tunnels = map<Name, map<Name, Session>>

  datatype Limits = Limits(maxSessions: nat, maxPerDevice: nat)

  // --------------------------------------------------------------- one device

  datatype Device = Device(tunnels: map<Name, Session>, primary: Option<Session>)

  /** This very session object is registered under its own session ID. */
  predicate Holds(tunnels: map<Name, Session>, s: Session) {
    s.sessionID in tunnels && tunnels[s.sessionID] == s
  }

  ghost predicate SoundDevice(v: Device, d: Name, maxPerDevice: nat) {
    && |v.tunnels| <= maxPerDevice
    && (forall s :: s in v.tunnels ==> v.tunnels[s].deviceID == d && v.tunnels[s].sessionID == s)
    // A device has a primary iff it has tunnels, and the primary is one of them.
    && (v.primary.None? <==> v.tunnels == map[])
    && (v.primary.Some? ==> Holds(v.tunnels, v.primary.value))
  }

  predicate Standby(v: Device, s: Session) {
    Holds(v.tunnels, s) && v.primary != Some(s)
  }

  /** The session that `sess` displaces under its own session ID, if any. */
  function Displaced(v: Device, sess: Session): Option<Session> {
    if sess.sessionID in v.tunnels && v.tunnels[sess.sessionID] != sess then Some(v.tunnels[sess.sessionID]) else None
  }

  function Spared(tunnels: map<Name, Session>, victim: Option<Session>): map<Name, Session> {
    if victim.None? then tunnels else tunnels - {victim.value.sessionID}
  }

  /** The device after admitting `sess`, with `victim` recycled if there is one. */
  function Admit(v: Device, sess: Session, victim: Option<Session>): Device {
    Device(Spared(v.tunnels, victim)[sess.sessionID := sess], if TakesOver(v, sess) then Some(sess) else v.primary)
  }

  /** No primary yet, or `sess` replaces the primary's own tunnel. */
  predicate TakesOver(v: Device, sess: Session) {
    v.primary.None? || Displaced(v, sess) == v.primary
  }

  /** A known session ID is replaced; a new one needs a free place or the oldest standby's. */
  ghost predicate Admissible(v: Device, sess: Session, victim: Option<Session>, seen: Seen, maxPerDevice: nat) {
    if sess.sessionID in v.tunnels || |v.tunnels| < maxPerDevice then victim.None?
    else victim.Some? && OldestStandby(v, victim.value, seen)
  }

  ghost predicate OldestStandby(v: Device, s: Session, seen: Seen) {
    Standby(v, s) && forall t :: t in v.tunnels && Some(v.tunnels[t]) != v.primary ==> seen(s) <= seen(v.tunnels[t])
  }

  ghost predicate OnlyPrimary(v: Device) {
    forall s :: s in v.tunnels ==> Some(v.tunnels[s]) == v.primary
  }

  /** Admission keeps the device sound and every tunnel but the victim and the displaced one. */
  lemma AdmitKeepsDevice(v: Device, sess: Session, victim: Option<Session>, seen: Seen, maxPerDevice: nat)
    requires SoundDevice(v, sess.deviceID, maxPerDevice) && maxPerDevice > 0
    requires Admissible(v, sess, victim, seen, maxPerDevice)
    ensures SoundDevice(Admit(v, sess, victim), sess.deviceID, maxPerDevice)
    ensures Holds(Admit(v, sess, victim).tunnels, sess)
    ensures forall s :: Holds(v.tunnels, s) && Some(s) != victim && s.sessionID != sess.sessionID ==>
      Holds(Admit(v, sess, victim).tunnels, s)
  {
    SizeAfterAdmit(v.tunnels, sess, victim);
    assert sess.sessionID in Admit(v, sess, victim).tunnels;
  }

  /** The primary survives every admission except the reconnection of its own session ID, which inherits routing. */
  lemma AdmitKeepsPrimary(v: Device, sess: Session, victim: Option<Session>, seen: Seen, maxPerDevice: nat)
    requires SoundDevice(v, sess.deviceID, maxPerDevice) && v.primary.Some?
    requires Admissible(v, sess, victim, seen, maxPerDevice)
    ensures victim != v.primary
    ensures Admit(v, sess, victim).primary == if v.primary.value.sessionID == sess.sessionID then Some(sess) else v.primary
  {
  }

  lemma SizeAfterAdmit(tunnels: map<Name, Session>, sess: Session, victim: Option<Session>)
    requires victim.Some? ==> victim.value.sessionID in tunnels && sess.sessionID !in tunnels
    ensures |Spared(tunnels, victim)[sess.sessionID := sess]| ==
      |tunnels| - (if victim.Some? then 1 else 0) + (if sess.sessionID in tunnels then 0 else 1)
  {
    var spared := Spared(tunnels, victim);
    if victim.Some? {
      assert spared.Keys == tunnels.Keys - {victim.value.sessionID};
    }
    assert spared[sess.sessionID := sess].Keys == spared.Keys + {sess.sessionID};
  }

  /** The device after `sess` leaves; `heir` is promoted when `sess` was the primary. */
  function Remove(v: Device, sess: Session, heir: Option<Session>): Device {
    Device(v.tunnels - {sess.sessionID}, if v.primary == Some(sess) then heir else v.primary)
  }

  /** The oldest survivor, or none if none is left. */
  ghost predicate Heir(rest: map<Name, Session>, heir: Option<Session>, seen: Seen) {
    && (heir.None? <==> rest == map[])
    && (heir.Some? ==> Holds(rest, heir.value) && forall s :: s in rest ==> seen(heir.value) <= seen(rest[s]))
  }

  lemma RemoveKeepsDevice(v: Device, sess: Session, heir: Option<Session>, seen: Seen, maxPerDevice: nat)
    requires SoundDevice(v, sess.deviceID, maxPerDevice) && Holds(v.tunnels, sess)
    requires v.primary == Some(sess) ==> Heir(v.tunnels - {sess.sessionID}, heir, seen)
    ensures SoundDevice(Remove(v, sess, heir), sess.deviceID, maxPerDevice)
    ensures |Remove(v, sess, heir).tunnels| == |v.tunnels| - 1
    ensures forall s :: Holds(v.tunnels, s) && s != sess ==> Holds(Remove(v, sess, heir).tunnels, s)
  {
    var rest := v.tunnels - {sess.sessionID};
    assert rest.Keys == v.tunnels.Keys - {sess.sessionID};
    if v.primary != Some(sess) {
      assert v.primary.value.sessionID in rest;
    }
  }

  /** A session that has been replaced or recycled is no longer the registered one: its own unregister does nothing. */
  lemma ReplacedIsGone(v: Device, sess: Session, victim: Option<Session>, seen: Seen, maxPerDevice: nat)
    requires SoundDevice(v, sess.deviceID, maxPerDevice) && Admissible(v, sess, victim, seen, maxPerDevice)
    ensures victim.Some? ==> !Holds(Admit(v, sess, victim).tunnels, victim.value)
    ensures Displaced(v, sess).Some? ==> !Holds(Admit(v, sess, victim).tunnels, Displaced(v, sess).value)
  {
  }

  // ------------------------------------------------------------------ routing

  /** A standby seen last, or none if there is no standby. */
  ghost predicate Newest(v: Device, seen: Seen, c: Option<Session>) {
    && (c.None? <==> OnlyPrimary(v))
    && (c.Some? ==> Standby(v, c.value))
    && (c.Some? ==> forall t :: t in v.tunnels && Some(v.tunnels[t]) != v.primary ==> seen(v.tunnels[t]) <= seen(c.value))
  }

  predicate Usable(c: Option<Session>, routable: Session -> bool) { c.Some? && routable(c.value) }

  /** `r` is what sessionForDevice may answer. */
  ghost predicate Routes(v: Device, seen: Seen, routable: Session -> bool, r: Option<Session>) {
    if Usable(v.primary, routable) then r == v.primary
    else exists c :: Newest(v, seen, c) && r == if Usable(c, routable) then c else None
  }

  /** A routable tunnel exists and yet routing may answer none. */
  ghost predicate Hides(v: Device, seen: Seen, routable: Session -> bool) {
    Routes(v, seen, routable, None) && exists s :: s in v.tunnels && routable(v.tunnels[s])
  }

  /**
    Routing finds a tunnel whenever one is routable, whatever the times and
    authorizations, exactly for devices with at most two tunnels.
   */
  lemma RoutingCompleteIff(v: Device, d: Name, maxPerDevice: nat)
    requires SoundDevice(v, d, maxPerDevice)
    ensures (exists seen: Seen, routable: Session -> bool :: Hides(v, seen, routable)) <==> |v.tunnels| > 2
  {
    if |v.tunnels| > 2 {
      var hidden, newer := TwoStandbys(v, d, maxPerDevice);
      var seen: Seen := s => if s == newer then 1 else 0;
      var routable := s => s == hidden;
      assert Newest(v, seen, Some(newer));
      assert hidden.sessionID in v.tunnels;
      assert Hides(v, seen, routable);
    } else {
      forall seen: Seen, routable: Session -> bool ensures !Hides(v, seen, routable) {
        FewNeverHide(v, d, maxPerDevice, seen, routable);
      }
    }
  }

  lemma TwoStandbys(v: Device, d: Name, maxPerDevice: nat) returns (a: Session, b: Session)
    requires SoundDevice(v, d, maxPerDevice) && |v.tunnels| > 2
    ensures Standby(v, a) && Standby(v, b) && a != b
  {
    var keys := v.tunnels.Keys;
    var rest := keys - {v.primary.value.sessionID};
    assert |rest| > 1;
    var x :| x in rest;
    assert |rest - {x}| > 0;
    var y :| y in rest - {x};
    a, b := v.tunnels[x], v.tunnels[y];
  }

  lemma FewNeverHide(v: Device, d: Name, maxPerDevice: nat, seen: Seen, routable: Session -> bool)
    requires SoundDevice(v, d, maxPerDevice) && |v.tunnels| <= 2
    ensures !Hides(v, seen, routable)
  {
    if Hides(v, seen, routable) {
      var s :| s in v.tunnels && routable(v.tunnels[s]);
      var c :| Newest(v, seen, c) && !Usable(c, routable);
      ThreeKeys(v.tunnels.Keys, s, v.primary.value.sessionID, c.value.sessionID);
    }
  }

  lemma ThreeKeys(keys: set<Name>, a: Name, b: Name, c: Name)
    requires a in keys && b in keys && c in keys && a != b && a != c && b != c
    ensures |keys| >= 3
  {
    assert |keys - {a} - {b} - {c}| == |keys| - 3;
  }

  // ---------------------------------------------------------------- the count

  /** The registered (device, session) pairs; their number is the session count. */
  ghost function Pairs(t: Tunnels): set<(Name, Name)> { PairsOf(t, t.Keys) }

  ghost function PairsOf(t: Tunnels, devices: set<Name>): set<(Name, Name)>
    requires devices <= t.Keys
  {
    set d, s | d in devices && s in t[d] :: (d, s)
  }

  ghost function PairsFor(d: Name, sids: set<Name>): set<(Name, Name)> { set s | s in sids :: (d, s) }

  lemma {:induction false} DeviceCount(d: Name, sids: set<Name>)
    ensures |PairsFor(d, sids)| == |sids|
    decreases sids
  {
    if sids != {} {
      var x :| x in sids;
      DeviceCount(d, sids - {x});
      assert PairsFor(d, sids) == PairsFor(d, sids - {x}) + {(d, x)};
    } else {
      assert PairsFor(d, sids) == {};
    }
  }

  lemma CountOneMore(t: Tunnels, done: set<Name>, d: Name)
    requires done <= t.Keys && d in t && d !in done
    ensures |PairsOf(t, done + {d})| == |PairsOf(t, done)| + |t[d]|
  {
    DeviceCount(d, t[d].Keys);
    assert PairsOf(t, done + {d}) == PairsOf(t, done) + PairsFor(d, t[d].Keys);
    assert PairsOf(t, done) !! PairsFor(d, t[d].Keys);
  }

  /** The total is the device's own count plus that of the other devices. */
  lemma CountSplit(t: Tunnels, d: Name)
    ensures |Pairs(t)| == |PairsOf(t, t.Keys - {d})| + |TunnelsOf(t, d)|
  {
    if d in t {
      CountOneMore(t, t.Keys - {d}, d);
      assert t.Keys - {d} + {d} == t.Keys;
    } else {
      assert t.Keys - {d} == t.Keys;
    }
  }

  // ------------------------------------------------------------ all devices

  datatype State = State(tunnels: Tunnels, primaries: map<Name, Session>, draining: bool, closed: bool)

  function TunnelsOf(t: Tunnels, d: Name): map<Name, Session> { if d in t then t[d] else map[] }

  function DeviceAt(st: State, d: Name): Device {
    Device(TunnelsOf(st.tunnels, d), if d in st.primaries then Some(st.primaries[d]) else None)
  }

  function WithTunnels(t: Tunnels, d: Name, tunnels: map<Name, Session>): Tunnels {
    if tunnels == map[] then t - {d} else t[d := tunnels]
  }

  /** The registry with device `d` set to `v`; a device without tunnels or primary has no entry. */
  function WithDevice(st: State, d: Name, v: Device): State {
    st.(tunnels := WithTunnels(st.tunnels, d, v.tunnels),
        primaries := if v.primary.None? then st.primaries - {d} else st.primaries[d := v.primary.value])
  }

  lemma DeviceAfter(st: State, d: Name, v: Device, e: Name)
    ensures DeviceAt(WithDevice(st, d, v), e) == if e == d then v else DeviceAt(st, e)
  {
  }

  lemma CountAfter(t: Tunnels, d: Name, tunnels: map<Name, Session>)
    ensures |Pairs(WithTunnels(t, d, tunnels))| == |Pairs(t)| - |TunnelsOf(t, d)| + |tunnels|
  {
    var t' := WithTunnels(t, d, tunnels);
    CountSplit(t, d);
    CountSplit(t', d);
    assert t'.Keys - {d} == t.Keys - {d};
    assert PairsOf(t', t'.Keys - {d}) == PairsOf(t, t.Keys - {d});
  }

  ghost predicate AllSound(st: State, maxPerDevice: nat) {
    forall d: Name :: SoundDevice(DeviceAt(st, d), d, maxPerDevice)
  }

  ghost predicate Sound(st: State, lim: Limits) {
    && AllSound(st, lim.maxPerDevice)
    && (forall d :: d in st.tunnels ==> st.tunnels[d] != map[])
    && |Pairs(st.tunnels)| <= lim.maxSessions
    && (st.closed ==> st.draining && st.tunnels == map[])
  }

  lemma WithDeviceKeepsSound(st: State, d: Name, v: Device, lim: Limits)
    requires Sound(st, lim) && SoundDevice(v, d, lim.maxPerDevice)
    requires |Pairs(st.tunnels)| - |TunnelsOf(st.tunnels, d)| + |v.tunnels| <= lim.maxSessions
    requires st.closed ==> v.tunnels == map[]
    ensures Sound(WithDevice(st, d, v), lim)
  {
    var st' := WithDevice(st, d, v);
    CountAfter(st.tunnels, d, v.tunnels);
    forall e: Name ensures SoundDevice(DeviceAt(st', e), e, lim.maxPerDevice) {
      DeviceAfter(st, d, v, e);
      assert SoundDevice(DeviceAt(st, e), e, lim.maxPerDevice);
    }
  }

  predicate Fits(st: State, sess: Session, lim: Limits, total: nat) {
    sess.sessionID in TunnelsOf(st.tunnels, sess.deviceID) || total < lim.maxSessions
  }

  ghost predicate Registers(st: State, st': State, sess: Session, victim: Option<Session>, seen: Seen, lim: Limits) {
    var v := DeviceAt(st, sess.deviceID);
    && !st.draining && Fits(st, sess, lim, |Pairs(st.tunnels)|)
    && Admissible(v, sess, victim, seen, lim.maxPerDevice)
    && st' == WithDevice(st, sess.deviceID, Admit(v, sess, victim))
  }

  ghost predicate Unregisters(st: State, st': State, sess: Session, heir: Option<Session>, seen: Seen) {
    var v := DeviceAt(st, sess.deviceID);
    if !Holds(v.tunnels, sess) then st' == st
    else
      && (v.primary == Some(sess) ==> Heir(v.tunnels - {sess.sessionID}, heir, seen))
      && st' == WithDevice(st, sess.deviceID, Remove(v, sess, heir))
  }

  predicate Closes(st: State, st': State) {
    st.draining && st' == State(map[], map[], true, true)
  }

  /** One critical section of the registry. */
  ghost predicate Next(st: State, st': State, lim: Limits) {
    || (exists sess, victim, seen :: Registers(st, st', sess, victim, seen, lim))
    || (exists sess, heir, seen :: Unregisters(st, st', sess, heir, seen))
    || st' == st.(draining := true)
    || Closes(st, st')
  }

  lemma RegistersKeepsSound(st: State, st': State, sess: Session, victim: Option<Session>, seen: Seen, lim: Limits)
    requires lim.maxPerDevice > 0 && Sound(st, lim) && Registers(st, st', sess, victim, seen, lim)
    ensures Sound(st', lim)
  {
    var v := DeviceAt(st, sess.deviceID);
    assert SoundDevice(v, sess.deviceID, lim.maxPerDevice);
    AdmitKeepsDevice(v, sess, victim, seen, lim.maxPerDevice);
    SizeAfterAdmit(v.tunnels, sess, victim);
    WithDeviceKeepsSound(st, sess.deviceID, Admit(v, sess, victim), lim);
  }

  lemma UnregistersKeepsSound(st: State, st': State, sess: Session, heir: Option<Session>, seen: Seen, lim: Limits)
    requires Sound(st, lim) && Unregisters(st, st', sess, heir, seen)
    ensures Sound(st', lim)
  {
    var v := DeviceAt(st, sess.deviceID);
    assert SoundDevice(v, sess.deviceID, lim.maxPerDevice);
    if Holds(v.tunnels, sess) {
      RemoveKeepsDevice(v, sess, heir, seen, lim.maxPerDevice);
      WithDeviceKeepsSound(st, sess.deviceID, Remove(v, sess, heir), lim);
    }
  }

  lemma NothingPaired()
    ensures Pairs(map[]) == {}
  {
  }

  lemma NextKeepsSound(st: State, st': State, lim: Limits)
    requires lim.maxPerDevice > 0 && Sound(st, lim) && Next(st, st', lim)
    ensures Sound(st', lim)
  {
    if Closes(st, st') {
      NothingPaired();
    } else if st' == st.(draining := true) {
      forall d: Name ensures SoundDevice(DeviceAt(st', d), d, lim.maxPerDevice) {
        assert SoundDevice(DeviceAt(st, d), d, lim.maxPerDevice);
      }
    } else if exists sess, victim, seen :: Registers(st, st', sess, victim, seen, lim) {
      var sess, victim, seen :| Registers(st, st', sess, victim, seen, lim);
      RegistersKeepsSound(st, st', sess, victim, seen, lim);
    } else {
      var sess, heir, seen :| Unregisters(st, st', sess, heir, seen);
      UnregistersKeepsSound(st, st', sess, heir, seen, lim);
    }
  }

  // ------------------------------------------------------ when a registration succeeds

  ghost predicate CanRegister(st: State, sess: Session, seen: Seen, lim: Limits) {
    exists st': State, victim: Option<Session> :: Registers(st, st', sess, victim, seen, lim)
  }

  /** Among finitely many standbys there is one seen least recently. */
  lemma {:induction false} LeastSeen(v: Device, seen: Seen, keys: set<Name>) returns (s: Session)
    requires keys != {} && keys <= v.tunnels.Keys
    ensures s in (set k | k in keys :: v.tunnels[k]) && forall k :: k in keys ==> seen(s) <= seen(v.tunnels[k])
    decreases |keys|
  {
    var k :| k in keys;
    s := v.tunnels[k];
    if keys != {k} {
      var t := LeastSeen(v, seen, keys - {k});
      if seen(t) < seen(s) { s := t; }
    }
  }

  lemma SomeVictim(v: Device, d: Name, seen: Seen, maxPerDevice: nat) returns (s: Session)
    requires SoundDevice(v, d, maxPerDevice) && |v.tunnels| >= 2
    ensures OldestStandby(v, s, seen)
  {
    assert v.tunnels != map[];
    var keys := v.tunnels.Keys - {v.primary.value.sessionID};
    assert |keys| == |v.tunnels.Keys| - 1;
    s := LeastSeen(v, seen, keys);
  }

  /** Unregistering never blocks: if a primary leaves others behind, one of them is the heir. */
  lemma UnregisterSucceeds(st: State, sess: Session, seen: Seen, lim: Limits) returns (st': State, heir: Option<Session>)
    requires Sound(st, lim)
    ensures Unregisters(st, st', sess, heir, seen)
    ensures !Holds(TunnelsOf(st'.tunnels, sess.deviceID), sess)
  {
    var v := DeviceAt(st, sess.deviceID);
    assert SoundDevice(v, sess.deviceID, lim.maxPerDevice);
    heir := None;
    st' := st;
    if Holds(v.tunnels, sess) {
      var rest := v.tunnels - {sess.sessionID};
      if v.primary == Some(sess) && rest != map[] {
        var s := LeastSeen(Device(rest, None), seen, rest.Keys);
        heir := Some(s);
      }
      st' := WithDevice(st, sess.deviceID, Remove(v, sess, heir));
      DeviceAfter(st, sess.deviceID, Remove(v, sess, heir), sess.deviceID);
    }
  }

  lemma LoneTunnelIsPrimary(v: Device, d: Name, seen: Seen, maxPerDevice: nat, s: Session)
    requires SoundDevice(v, d, maxPerDevice) && |v.tunnels| == 1
    ensures !OldestStandby(v, s, seen)
  {
    var p := v.primary.value;
    assert v.tunnels.Keys == {p.sessionID} by {
      assert p.sessionID in v.tunnels.Keys && |v.tunnels.Keys - {p.sessionID}| == 0;
    }
  }

  /**
    A registration succeeds iff the Gateway is not draining and either the session ID
    is known on its device, whatever the load, or there is room for one more session
    in all and the device has room or more than one place.
   */
  lemma RegisterSucceedsIff(st: State, sess: Session, seen: Seen, lim: Limits)
    requires lim.maxPerDevice > 0 && Sound(st, lim)
    ensures CanRegister(st, sess, seen, lim) <==>
      && !st.draining
      && (|| sess.sessionID in TunnelsOf(st.tunnels, sess.deviceID)
          || (|Pairs(st.tunnels)| < lim.maxSessions && (TunnelsOf(st.tunnels, sess.deviceID) == map[] || lim.maxPerDevice >= 2)))
  {
    var d := sess.deviceID;
    var v := DeviceAt(st, d);
    assert SoundDevice(v, d, lim.maxPerDevice);
    if sess.sessionID in v.tunnels || |v.tunnels| < lim.maxPerDevice {
      var st' := WithDevice(st, d, Admit(v, sess, None));
      assert !st.draining && Fits(st, sess, lim, |Pairs(st.tunnels)|) ==> Registers(st, st', sess, None, seen, lim);
    } else if |v.tunnels| >= 2 {
      var s := SomeVictim(v, d, seen, lim.maxPerDevice);
      var st' := WithDevice(st, d, Admit(v, sess, Some(s)));
      assert !st.draining && Fits(st, sess, lim, |Pairs(st.tunnels)|) ==> Registers(st, st', sess, Some(s), seen, lim);
    } else {
      forall s: Session ensures !OldestStandby(v, s, seen) {
        LoneTunnelIsPrimary(v, d, seen, lim.maxPerDevice, s);
      }
    }
  }

  const Empty := State(map[], map[], false, false)

  ghost predicate IsRun(run: seq<State>, lim: Limits) {
    && run != [] && run[0] == Empty
    && forall i :: 0 < i < |run| ==> Next(run[i - 1], run[i], lim)
  }

  /** In every run of register, unregister, drain and close, every state is sound. */
  lemma {:induction false} RegistryIsSound(run: seq<State>, lim: Limits, i: nat)
    requires lim.maxPerDevice > 0 && IsRun(run, lim) && i < |run|
    ensures Sound(run[i], lim)
  {
    if i == 0 {
      NothingPaired();
    } else {
      RegistryIsSound(run, lim, i - 1);
      NextKeepsSound(run[i - 1], run[i], lim);
    }
  }

  lemma NextKeepsClosed(st: State, st': State, lim: Limits)
    requires Sound(st, lim) && Next(st, st', lim)
    ensures (st.draining ==> st'.draining) && (st.closed ==> st'.closed)
  {
  }

  lemma ClosedIsEmpty(st: State, lim: Limits)
    requires Sound(st, lim) && st.closed
    ensures st.tunnels == map[] && st.primaries == map[]
  {
    forall d: Name ensures d !in st.primaries {
      assert SoundDevice(DeviceAt(st, d), d, lim.maxPerDevice);
    }
  }

  /** Once closed, the registry holds no tunnel and no primary ever again. */
  lemma {:induction false} EmptyAfterClose(run: seq<State>, lim: Limits, i: nat, j: nat)
    requires lim.maxPerDevice > 0 && IsRun(run, lim) && i <= j < |run| && run[i].closed
    ensures run[j].closed && run[j].tunnels == map[] && run[j].primaries == map[]
  {
    RegistryIsSound(run, lim, j);
    if i < j {
      EmptyAfterClose(run, lim, i, j - 1);
      RegistryIsSound(run, lim, j - 1);
      NextKeepsClosed(run[j - 1], run[j], lim);
    }
    ClosedIsEmpty(run[j], lim);
  }

  lemma StableOnAdmit(v: Device, sess: Session, victim: Option<Session>, s: Session)
    requires v.primary == Some(s) && Holds(Admit(v, sess, victim).tunnels, s)
    requires forall k :: k in v.tunnels ==> v.tunnels[k].sessionID == k
    ensures Admit(v, sess, victim).primary == Some(s)
  {
  }

  /** As long as a device's primary stays registered, it stays the primary: only its own leaving or reconnecting moves routing. */
  lemma PrimaryIsStable(st: State, st': State, lim: Limits, d: Name, s: Session)
    requires Sound(st, lim) && Next(st, st', lim) && DeviceAt(st, d).primary == Some(s)
    requires Holds(DeviceAt(st', d).tunnels, s)
    ensures DeviceAt(st', d).primary == Some(s)
  {
    assert SoundDevice(DeviceAt(st, d), d, lim.maxPerDevice);
    if Closes(st, st') || st' == st.(draining := true) {
    } else if exists sess, victim, seen :: Registers(st, st', sess, victim, seen, lim) {
      var sess, victim, seen :| Registers(st, st', sess, victim, seen, lim);
      var v := DeviceAt(st, sess.deviceID);
      DeviceAfter(st, sess.deviceID, Admit(v, sess, victim), d);
      if d == sess.deviceID {
        StableOnAdmit(v, sess, victim, s);
      }
    } else {
      var sess, heir, seen :| Unregisters(st, st', sess, heir, seen);
      DeviceAfter(st, sess.deviceID, Remove(DeviceAt(st, sess.deviceID), sess, heir), d);
    }
  }

  // --------------------------------------------------------------- the object

  datatype Registration = Draining | AtCapacity | DeviceFull | Registered(replaced: Option<Session>)

  class Gateway {
    const lim: Limits
    var tunnels: Tunnels
    var primaries: map<Name, Session>
    var draining: bool
    var closed: bool  // history: Close has run

    constructor (lim: Limits)
      requires lim.maxPerDevice > 0
      ensures this.lim == lim && Contents() == Empty && Valid()
    {
      this.lim := lim;
      tunnels, primaries, draining, closed := map[], map[], false, false;
      new;
      NothingPaired();
    }

    function Contents(): State
      reads this
    {
      State(tunnels, primaries, draining, closed)
    }

    ghost predicate Valid()
      reads this
    {
      lim.maxPerDevice > 0 && Sound(Contents(), lim)
    }

    method CountSessions() returns (n: nat)
      ensures n == |Pairs(tunnels)|
    {
      n := 0;
      var todo := tunnels.Keys;
      ghost var done: set<Name> := {};
      assert PairsOf(tunnels, done) == {};
      while todo != {}
        invariant todo !! done && todo + done == tunnels.Keys
        invariant n == |PairsOf(tunnels, done)|
        decreases todo
      {
        var d :| d in todo;
        CountOneMore(tunnels, done, d);
        n := n + |tunnels[d]|;
        todo, done := todo - {d}, done + {d};
      }
      assert PairsOf(tunnels, done) == Pairs(tunnels);
    }

    /**
      A known session ID is replaced in place; a new tunnel must fit the global
      bound, and at the device bound it recycles the oldest standby, never the
      primary.
     */
    method Register(sess: Session, seen: Seen) returns (r: Registration, ghost victim: Option<Session>)
      requires Valid()
      modifies this`tunnels, this`primaries
      ensures Valid()
      ensures r.Draining? <==> draining
      ensures r.AtCapacity? <==> !draining && sess.sessionID !in TunnelsOf(old(tunnels), sess.deviceID) && |Pairs(old(tunnels))| >= lim.maxSessions
      ensures r.DeviceFull? == (!draining && sess.sessionID !in TunnelsOf(old(tunnels), sess.deviceID) && |Pairs(old(tunnels))| < lim.maxSessions
        && lim.maxPerDevice == 1 && TunnelsOf(old(tunnels), sess.deviceID) != map[])
      ensures !r.Registered? ==> Contents() == old(Contents())
      ensures r.Registered? ==> Registers(old(Contents()), Contents(), sess, victim, seen, lim)
      ensures r.Registered? ==> r.replaced == if victim.Some? then victim else Displaced(DeviceAt(old(Contents()), sess.deviceID), sess)
    {
      victim := None;
      if draining {
        return Draining, victim;
      }
      var v := DeviceAt(Contents(), sess.deviceID);
      assert SoundDevice(v, sess.deviceID, lim.maxPerDevice);
      var replaced := Displaced(v, sess);
      var total := CountSessions();
      if !Fits(Contents(), sess, lim, total) {
        return AtCapacity, victim;
      }
      var recycled: Option<Session> := None;
      if sess.sessionID !in v.tunnels && |v.tunnels| >= lim.maxPerDevice {
        recycled := FindOldestStandby(v, sess.deviceID, seen, lim.maxPerDevice);
        if recycled.None? {
          OnlyOne(v, sess.deviceID, lim.maxPerDevice);
          return DeviceFull, victim;
        }
        NotAlone(v, sess.deviceID, recycled.value, lim.maxPerDevice);
        replaced := recycled;
      }
      victim := recycled;
      Install(sess, recycled, v.primary.None? || (recycled.None? && replaced.Some? && v.primary == replaced));
      RegistersKeepsSound(old(Contents()), Contents(), sess, victim, seen, lim);
      r := Registered(replaced);
    }

    /** The map updates at the end of registerSession's critical section. */
    method Install(sess: Session, victim: Option<Session>, takesOver: bool)
      requires takesOver == TakesOver(DeviceAt(Contents(), sess.deviceID), sess)
      modifies this`tunnels, this`primaries
      ensures Contents() == WithDevice(old(Contents()), sess.deviceID, Admit(DeviceAt(old(Contents()), sess.deviceID), sess, victim))
    {
      var device := Spared(TunnelsOf(tunnels, sess.deviceID), victim)[sess.sessionID := sess];
      assert sess.sessionID in device;
      tunnels := tunnels[sess.deviceID := device];
      if takesOver {
        primaries := primaries[sess.deviceID := sess];
      }
    }

    /** Identity-checked removal; the oldest survivor inherits routing. */
    method Unregister(sess: Session, seen: Seen) returns (ghost heir: Option<Session>)
      requires Valid()
      modifies this`tunnels, this`primaries
      ensures Valid() && Unregisters(old(Contents()), Contents(), sess, heir, seen)
    {
      heir := None;
      ghost var v := DeviceAt(Contents(), sess.deviceID);
      assert SoundDevice(v, sess.deviceID, lim.maxPerDevice);
      if sess.deviceID !in tunnels || !Holds(tunnels[sess.deviceID], sess) {
        return;
      }
      var rest := tunnels[sess.deviceID] - {sess.sessionID};
      tunnels := WithTunnels(tunnels, sess.deviceID, rest);
      if sess.deviceID in primaries && primaries[sess.deviceID] == sess {
        var oldest := FindOldest(rest, seen);
        primaries := if oldest.None? then primaries - {sess.deviceID} else primaries[sess.deviceID := oldest.value];
        heir := oldest;
      }
      assert Contents() == WithDevice(old(Contents()), sess.deviceID, Remove(v, sess, heir));
      UnregistersKeepsSound(old(Contents()), Contents(), sess, heir, seen, lim);
    }

    method BeginDrain()
      requires Valid()
      modifies this`draining
      ensures Valid() && draining
    {
      ghost var before := Contents();
      draining := true;
      assert Next(before, Contents(), lim);
      NextKeepsSound(before, Contents(), lim);
    }

    method Close()
      requires Valid()
      modifies this
      ensures Valid() && Contents() == State(map[], map[], true, true)
    {
      BeginDrain();
      ghost var before := Contents();
      tunnels, primaries, closed := map[], map[], true;
      assert Closes(before, Contents());
      NextKeepsSound(before, Contents(), lim);
    }

    /** The routing primary if it is routable, else the newest standby if that is. */
    method SessionForDevice(d: Name, seen: Seen, routable: Session -> bool) returns (r: Option<Session>)
      requires Valid()
      ensures Routes(DeviceAt(Contents(), d), seen, routable, r)
      ensures r.Some? ==> Holds(TunnelsOf(tunnels, d), r.value) && routable(r.value)
      ensures |TunnelsOf(tunnels, d)| <= 2 && r.None? ==> forall s :: s in TunnelsOf(tunnels, d) ==> !routable(tunnels[d][s])
    {
      var v := DeviceAt(Contents(), d);
      assert SoundDevice(v, d, lim.maxPerDevice);
      var standby := FindNewestStandby(v, d, seen, lim.maxPerDevice);
      if Usable(v.primary, routable) {
        return v.primary;
      }
      r := if Usable(standby, routable) then standby else None;
      assert Routes(v, seen, routable, r);
      if |v.tunnels| <= 2 && r.None? {
        FewNeverHide(v, d, lim.maxPerDevice, seen, routable);
      }
    }
  }

  lemma OnlyOne(v: Device, d: Name, maxPerDevice: nat)
    requires SoundDevice(v, d, maxPerDevice) && OnlyPrimary(v) && |v.tunnels| >= maxPerDevice > 0
    ensures maxPerDevice == 1
  {
    assert v.tunnels.Keys == {v.primary.value.sessionID};
  }

  lemma NotAlone(v: Device, d: Name, s: Session, maxPerDevice: nat)
    requires SoundDevice(v, d, maxPerDevice) && Standby(v, s)
    ensures maxPerDevice >= 2
  {
    assert {s.sessionID, v.primary.value.sessionID} <= v.tunnels.Keys;
    AtLeastTwo(v.tunnels.Keys, s.sessionID, v.primary.value.sessionID);
  }

  lemma AtLeastTwo(keys: set<Name>, a: Name, b: Name)
    requires a in keys && b in keys && a != b
    ensures |keys| >= 2
  {
    var pair := {a, b};
    assert keys == (keys - pair) + pair;
    assert |pair| == 2;
  }

  /** The oldest tunnel that is not the primary; iteration order is arbitrary. */
  method FindOldestStandby(v: Device, ghost d: Name, seen: Seen, ghost maxPerDevice: nat) returns (victim: Option<Session>)
    requires SoundDevice(v, d, maxPerDevice)
    ensures victim.Some? ==> OldestStandby(v, victim.value, seen)
    ensures victim.None? <==> OnlyPrimary(v)
  {
    victim := None;
    var todo := v.tunnels.Keys;
    while todo != {}
      invariant todo <= v.tunnels.Keys
      invariant victim.Some? ==> Standby(v, victim.value)
      invariant forall s :: s in v.tunnels && s !in todo && Some(v.tunnels[s]) != v.primary ==>
        victim.Some? && seen(victim.value) <= seen(v.tunnels[s])
      decreases todo
    {
      var s :| s in todo;
      var candidate := v.tunnels[s];
      todo := todo - {s};
      if Some(candidate) == v.primary { continue; }
      if victim.None? || seen(candidate) < seen(victim.value) {
        victim := Some(candidate);
      }
    }
  }

  method FindNewestStandby(v: Device, ghost d: Name, seen: Seen, ghost maxPerDevice: nat) returns (standby: Option<Session>)
    requires SoundDevice(v, d, maxPerDevice)
    ensures Newest(v, seen, standby)
  {
    standby := None;
    var todo := v.tunnels.Keys;
    while todo != {}
      invariant todo <= v.tunnels.Keys
      invariant standby.Some? ==> Standby(v, standby.value)
      invariant forall s :: s in v.tunnels && s !in todo && Some(v.tunnels[s]) != v.primary ==>
        standby.Some? && seen(v.tunnels[s]) <= seen(standby.value)
      decreases todo
    {
      var s :| s in todo;
      var candidate := v.tunnels[s];
      todo := todo - {s};
      if Some(candidate) == v.primary { continue; }
      if standby.None? || seen(candidate) > seen(standby.value) {
        standby := Some(candidate);
      }
    }
  }

  method FindOldest(rest: map<Name, Session>, seen: Seen) returns (heir: Option<Session>)
    requires forall s :: s in rest ==> rest[s].sessionID == s
    ensures Heir(rest, heir, seen)
  {
    heir := None;
    var todo := rest.Keys;
    while todo != {}
      invariant todo <= rest.Keys
      invariant heir.Some? ==> Holds(rest, heir.value)
      invariant forall s :: s in rest && s !in todo ==> heir.Some? && seen(heir.value) <= seen(rest[s])
      decreases todo
    {
      var s :| s in todo;
      todo := todo - {s};
      if heir.None? || seen(rest[s]) < seen(heir.value) {
        heir := Some(rest[s]);
      }
    }
  }

  /** A session replaced by `sess` runs its own unregister afterwards: the registry does not change. */
  method ReplaceThenUnregister(g: Gateway, sess: Session, seen: Seen) returns (r: Registration)
    requires g.Valid()
    modifies g`tunnels, g`primaries
    ensures g.Valid()
    ensures r.Registered? ==> Holds(TunnelsOf(g.tunnels, sess.deviceID), sess)
    ensures r.Registered? ==> exists victim :: Registers(old(g.Contents()), g.Contents(), sess, victim, seen, g.lim)
  {
    ghost var v := DeviceAt(g.Contents(), sess.deviceID);
    assert SoundDevice(v, sess.deviceID, g.lim.maxPerDevice);
    ghost var victim;
    r, victim := g.Register(sess, seen);
    if r.Registered? {
      AdmitKeepsDevice(v, sess, victim, seen, g.lim.maxPerDevice);
      DeviceAfter(old(g.Contents()), sess.deviceID, Admit(v, sess, victim), sess.deviceID);
      if r.replaced.Some? {
        ReplacedIsGone(v, sess, victim, seen, g.lim.maxPerDevice);
        ghost var heir := g.Unregister(r.replaced.value, seen);
      }
    }
  }
}
