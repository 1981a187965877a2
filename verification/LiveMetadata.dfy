/** Live Gateway metadata: monotone revisions, served only inside their freshness deadline. */
module LiveMetadata {
  import opened Common

  // Times are nanoseconds on the Gateway's clock.
  type Time = int

  const Second: int := 1_000_000_000
  const MaxFutureSkew: int := 30 * Second
  const ProtocolVersion: int := 1

  datatype Snapshot = Snapshot(id: nat, ready: bool)

  /** current.json, decoded; a timestamp that does not parse is None. */
  datatype Manifest = Manifest(version: int, revision: nat, generation: string, publishedAt: Option<Time>, validUntil: Option<Time>)

  datatype Content = Content(snapshot: Snapshot, digest: nat)

  /**
    What one refresh reads: the root check, the manifest if it can be read and
    decoded, the directory fingerprint before and after the load, and the
    generation's content if it loads.
   */
  datatype Disk = Disk(rootOk: bool, manifest: Option<Manifest>, fingerprint: Option<nat>, content: Option<Content>, fingerprintAfter: Option<nat>)

  datatype Parsed = Parsed(revision: nat, generation: string, publishedAt: Time, validUntil: Time, deadline: Time)

  datatype Generation = Generation(parsed: Parsed, content: Content, fingerprint: nat)

  predicate NameChar(c: char) {
    'a' <= c <= 'z' || 'A' <= c <= 'Z' || '0' <= c <= '9' || c == '-' || c == '_' || c == '.'
  }

  predicate ValidGenerationName(name: string) {
    name != "" && name != "." && name != ".." && |name| <= 128 && forall i :: 0 <= i < |name| ==> NameChar(name[i])
  }

  /** One more character; a name is nonempty, has at most 128 characters and is not a dot entry. */
  lemma NameGrows(s: string, c: char)
    ensures NameChar(c) <==> 'a' <= c <= 'z' || 'A' <= c <= 'Z' || '0' <= c <= '9' || c in "-_."
    ensures ValidGenerationName(s + [c]) <==>
      NameChar(c) && |s| < 128 && (s == "" || s == "." || s == ".." || ValidGenerationName(s)) && !((s == "" || s == ".") && c == '.')
    ensures !ValidGenerationName("")
  {
    var t := s + [c];
    assert forall i :: 0 <= i < |s| ==> t[i] == s[i];
    assert t[|s|] == c;
    assert t == ".." <==> s == "." && c == '.';
  }

  /** So it is a single path element below the metadata directory. */
  lemma NameIsOneElement(s: string)
    requires ValidGenerationName(s)
    ensures s != "" && s != "." && s != ".." && forall i :: 0 <= i < |s| ==> s[i] != '/' && s[i] != '\\' && s[i] != '\0'
  {
    forall i | 0 <= i < |s| ensures s[i] != '/' && s[i] != '\\' && s[i] != '\0' {
      assert NameChar(s[i]);
    }
  }

  // ------------------------------------------------------------- the manifest

  /** A manifest this Gateway accepts at time `now`. */
  predicate Acceptable(m: Manifest, now: Time, maxAge: Time) {
    && m.version == ProtocolVersion && m.revision > 0 && ValidGenerationName(m.generation)
    && m.publishedAt.Some? && m.validUntil.Some?
    && m.publishedAt.value < m.validUntil.value
    && m.publishedAt.value <= now + MaxFutureSkew
    && now < m.validUntil.value && now < m.publishedAt.value + maxAge && maxAge > 0
  }

  /** In nanoseconds: contract version 1, a positive revision, at most thirty seconds from the future, and all three bounds ahead. */
  lemma AcceptableIff(m: Manifest, now: Time, maxAge: Time)
    ensures Acceptable(m, now, maxAge) <==>
      && m.version == 1 && m.revision >= 1 && ValidGenerationName(m.generation) && m.publishedAt.Some? && m.validUntil.Some?
      && var p, v := m.publishedAt.value, m.validUntil.value; p <= now + 30_000_000_000 && p < v && now < v && now < p + maxAge && now < now + maxAge
  {
  }

  /** The deadline is the earliest of the three bounds. */
  predicate Earliest(d: Time, publishedAt: Time, validUntil: Time, now: Time, maxAge: Time) {
    && d <= validUntil && d <= publishedAt + maxAge && d <= now + maxAge
    && (d == validUntil || d == publishedAt + maxAge || d == now + maxAge)
  }

  method LoadManifest(file: Option<Manifest>, now: Time, maxAge: Time) returns (r: Option<Parsed>)
    ensures r.Some? <==> file.Some? && Acceptable(file.value, now, maxAge)
    ensures r.Some? ==> Matches(r.value, file.value) && Earliest(r.value.deadline, r.value.publishedAt, r.value.validUntil, now, maxAge)
  {
    if file.None? {
      return None;
    }
    var m := file.value;
    if m.version != ProtocolVersion || m.revision == 0 || !ValidGenerationName(m.generation) || m.publishedAt.None? || m.validUntil.None? {
      return None;
    }
    var publishedAt, validUntil := m.publishedAt.value, m.validUntil.value;
    if !(publishedAt < validUntil) || publishedAt > now + MaxFutureSkew {
      return None;
    }
    var localDeadline, acceptedDeadline := publishedAt + maxAge, now + maxAge;
    var deadline := validUntil;
    if localDeadline < deadline {
      deadline := localDeadline;
    }
    if acceptedDeadline < deadline {
      deadline := acceptedDeadline;
    }
    if !(now < deadline) {
      return None;
    }
    r := Some(Parsed(m.revision, m.generation, publishedAt, validUntil, deadline));
  }

  predicate Matches(p: Parsed, m: Manifest) {
    p.revision == m.revision && p.generation == m.generation && Some(p.publishedAt) == m.publishedAt && Some(p.validUntil) == m.validUntil
  }

  // -------------------------------------------------------------- one refresh

  predicate Parses(disk: Disk, now: Time, maxAge: Time) {
    disk.rootOk && disk.manifest.Some? && Acceptable(disk.manifest.value, now, maxAge)
  }

  function FingerprintOrZero(f: Option<nat>): nat { if f.Some? then f.value else 0 }

  /** The generation a refresh may install: what the disk held, with the earliest deadline. */
  predicate Candidate(g: Generation, disk: Disk, now: Time, maxAge: Time) {
    && Parses(disk, now, maxAge) && disk.content == Some(g.content)
    && g.fingerprint == FingerprintOrZero(disk.fingerprintAfter) && Matches(g.parsed, disk.manifest.value)
    && Earliest(g.parsed.deadline, g.parsed.publishedAt, g.parsed.validUntil, now, maxAge)
  }

  /** A refresh either installs a strictly newer candidate or leaves the active generation alone. */
  predicate Refreshes(active: Option<Generation>, active': Option<Generation>, disk: Disk, now: Time, maxAge: Time) {
    if Newer(active, disk, now, maxAge) && disk.content.Some?
    then active'.Some? && Candidate(active'.value, disk, now, maxAge)
    else active' == active
  }

  predicate Newer(active: Option<Generation>, disk: Disk, now: Time, maxAge: Time) {
    Parses(disk, now, maxAge) && (active.None? || disk.manifest.value.revision > active.value.parsed.revision)
  }

  /** Re-reading the active revision: nothing was touched, or everything reads the same again. */
  predicate Unchanged(g: Generation, disk: Disk)
    requires disk.manifest.Some?
  {
    && disk.manifest.value.revision == g.parsed.revision && disk.manifest.value.generation == g.parsed.generation
    && (|| disk.fingerprint == Some(g.fingerprint)
        || (disk.content.Some? && Matches(g.parsed, disk.manifest.value) && disk.content.value.digest == g.content.digest))
  }

  class Source {
    const maxAge: Time
    var active: Option<Generation>
    var successes: nat
    var failures: nat

    constructor (maxAge: Time)
      ensures this.maxAge == maxAge && active.None? && successes == failures == 0
    {
      this.maxAge := maxAge;
      active, successes, failures := None, 0, 0;
    }

    /** Rollbacks, unreadable input and a republished revision fail; the active generation then stays. */
    method RefreshAt(disk: Disk, now: Time) returns (ok: bool)
      modifies this
      ensures Refreshes(old(active), active, disk, now, maxAge)
      ensures ok <==> Parses(disk, now, maxAge) && (if Newer(old(active), disk, now, maxAge) then disk.content.Some? else Unchanged(old(active).value, disk))
      ensures successes == old(successes) + (if ok then 1 else 0) && failures == old(failures) + (if ok then 0 else 1)
    {
      ok := Attempt(disk, now);
      if ok { successes := successes + 1; } else { failures := failures + 1; }
    }

    method Attempt(disk: Disk, now: Time) returns (ok: bool)
      modifies this`active
      ensures Refreshes(old(active), active, disk, now, maxAge)
      ensures ok <==> Parses(disk, now, maxAge) && (if Newer(old(active), disk, now, maxAge) then disk.content.Some? else Unchanged(old(active).value, disk))
    {
      if !disk.rootOk {
        return false;
      }
      var manifest := LoadManifest(disk.manifest, now, maxAge);
      if manifest.None? {
        return false;
      }
      var m := manifest.value;
      if active.Some? && m.revision < active.value.parsed.revision {
        return false;
      }
      if active.Some? && m.revision == active.value.parsed.revision && m.generation == active.value.parsed.generation {
        if disk.fingerprint.Some? && disk.fingerprint.value == active.value.fingerprint {
          return true;
        }
      }
      if disk.content.None? {
        return false;
      }
      if active.Some? && m.revision == active.value.parsed.revision {
        var p := active.value.parsed;
        return p.generation == m.generation && p.publishedAt == m.publishedAt && p.validUntil == m.validUntil
          && active.value.content.digest == disk.content.value.digest;
      }
      active := Some(Generation(m, disk.content.value, FingerprintOrZero(disk.fingerprintAfter)));
      ok := true;
    }

    /** A snapshot is handed out only strictly before its deadline. */
    method ActiveSnapshot(at: Time) returns (r: Option<Snapshot>)
      ensures r == Serves(active, at)
    {
      if active.None? {
        return None;
      }
      if !(at < active.value.parsed.deadline) {
        return None;
      }
      if !active.value.content.snapshot.ready {
        return None;
      }
      r := Some(active.value.content.snapshot);
    }
  }

  function Serves(active: Option<Generation>, at: Time): Option<Snapshot> {
    if active.Some? && at < active.value.parsed.deadline && active.value.content.snapshot.ready then Some(active.value.content.snapshot) else None
  }

  // ----------------------------------------------------------------- whole runs

  datatype Refresh = Refresh(disk: Disk, now: Time)

  /** `actives[k]` is the active generation after `k` refreshes; the clock may even go back. */
  ghost predicate IsRun(actives: seq<Option<Generation>>, rs: seq<Refresh>, maxAge: Time) {
    && |actives| == |rs| + 1 && actives[0].None?
    && forall k :: 0 <= k < |rs| ==> Refreshes(actives[k], actives[k + 1], rs[k].disk, rs[k].now, maxAge)
  }

  /** Revisions never decrease, and the same revision means the very same snapshot and deadline. */
  lemma {:induction false} RevisionsAreMonotone(actives: seq<Option<Generation>>, rs: seq<Refresh>, maxAge: Time, i: nat, j: nat)
    requires IsRun(actives, rs, maxAge) && i <= j < |actives| && actives[i].Some?
    ensures actives[j].Some? && actives[i].value.parsed.revision <= actives[j].value.parsed.revision
    ensures actives[i].value.parsed.revision == actives[j].value.parsed.revision ==> actives[i] == actives[j]
  {
    if i < j {
      RevisionsAreMonotone(actives, rs, maxAge, i, j - 1);
      var k := j - 1;
      assert Refreshes(actives[k], actives[k + 1], rs[k].disk, rs[k].now, maxAge);
    }
  }

  /** The refresh reads an acceptable manifest and loads what it names. */
  predicate Loads(r: Refresh, maxAge: Time) {
    r.disk.rootOk && r.disk.manifest.Some? && Acceptable(r.disk.manifest.value, r.now, maxAge) && r.disk.content.Some?
  }

  /** The revision a refresh loads, or 0. */
  function RevisionOf(r: Refresh, maxAge: Time): nat { if Loads(r, maxAge) then r.disk.manifest.value.revision else 0 }

  /** Refresh `i` is the first of the first `k` to load the largest revision among them. */
  ghost predicate FirstNewest(rs: seq<Refresh>, maxAge: Time, k: nat, i: nat)
    requires i < k <= |rs|
  {
    && Loads(rs[i], maxAge)
    && (forall m :: 0 <= m < k ==> RevisionOf(rs[m], maxAge) <= RevisionOf(rs[i], maxAge))
    && (forall m :: 0 <= m < i ==> RevisionOf(rs[m], maxAge) < RevisionOf(rs[i], maxAge))
  }

  /** Nothing is active iff no refresh so far has loaded anything. */
  lemma {:induction false} ActiveIff(actives: seq<Option<Generation>>, rs: seq<Refresh>, maxAge: Time, k: nat)
    requires IsRun(actives, rs, maxAge) && k < |actives|
    ensures actives[k].None? <==> forall m :: 0 <= m < k ==> !Loads(rs[m], maxAge)
  {
    if k > 0 {
      ActiveIff(actives, rs, maxAge, k - 1);
      assert Refreshes(actives[k - 1], actives[k - 1 + 1], rs[k - 1].disk, rs[k - 1].now, maxAge);
    }
  }

  /** The active generation is the one that the first refresh with the largest loaded revision read. */
  lemma {:induction false} ActiveIsNewest(actives: seq<Option<Generation>>, rs: seq<Refresh>, maxAge: Time, k: nat) returns (i: nat)
    requires IsRun(actives, rs, maxAge) && k < |actives| && actives[k].Some?
    ensures i < k && FirstNewest(rs, maxAge, k, i) && Candidate(actives[k].value, rs[i].disk, rs[i].now, maxAge)
  {
    var m := k - 1;
    assert Refreshes(actives[m], actives[m + 1], rs[m].disk, rs[m].now, maxAge);
    ActiveIff(actives, rs, maxAge, m);
    if actives[m].Some? {
      i := ActiveIsNewest(actives, rs, maxAge, m);
      if RevisionOf(rs[m], maxAge) > RevisionOf(rs[i], maxAge) { i := m; }
    } else {
      i := m;
    }
  }

  /** `b` reads the revision that `a` installed again, with nothing touched since `a` or everything reading the same. */
  predicate ReadsAgain(a: Refresh, b: Refresh) {
    && a.disk.manifest.Some? && b.disk.manifest.Some? && a.disk.content.Some?
    && b.disk.manifest.value.revision == a.disk.manifest.value.revision && b.disk.manifest.value.generation == a.disk.manifest.value.generation
    && (|| b.disk.fingerprint == Some(if a.disk.fingerprintAfter.Some? then a.disk.fingerprintAfter.value else 0)
        || (b.disk.manifest.value.publishedAt == a.disk.manifest.value.publishedAt && b.disk.manifest.value.validUntil == a.disk.manifest.value.validUntil
            && b.disk.content.Some? && b.disk.content.value.digest == a.disk.content.value.digest))
  }

  /** A refresh that does not advance counts as unchanged iff it reads again what the installing refresh read. */
  lemma UnchangedIff(actives: seq<Option<Generation>>, rs: seq<Refresh>, maxAge: Time, k: nat) returns (i: nat)
    requires IsRun(actives, rs, maxAge) && k < |rs| && actives[k].Some? && rs[k].disk.manifest.Some?
    ensures i < k && FirstNewest(rs, maxAge, k, i)
    ensures Unchanged(actives[k].value, rs[k].disk) <==> ReadsAgain(rs[i], rs[k])
  {
    i := ActiveIsNewest(actives, rs, maxAge, k);
  }

  /** The refresh `r` read `s` from disk, and `at` is still inside all three freshness bounds. */
  predicate FreshAt(r: Refresh, s: Snapshot, at: Time, maxAge: Time) {
    && r.disk.manifest.Some? && r.disk.manifest.value.publishedAt.Some? && r.disk.manifest.value.validUntil.Some?
    && r.disk.content.Some? && r.disk.content.value.snapshot == s
    && at < r.disk.manifest.value.validUntil.value
    && at < r.disk.manifest.value.publishedAt.value + maxAge
    && at < r.now + maxAge
  }

  /**
    What is served is the snapshot the first refresh with the largest revision read,
    iff it is ready and inside that refresh's bounds, however often the revision was
    seen again.
   */
  lemma ServedIff(actives: seq<Option<Generation>>, rs: seq<Refresh>, maxAge: Time, k: nat, at: Time) returns (i: nat)
    requires IsRun(actives, rs, maxAge) && k < |actives| && actives[k].Some?
    ensures i < k && FirstNewest(rs, maxAge, k, i)
    ensures var s := rs[i].disk.content.value.snapshot;
      Serves(actives[k], at) == if s.ready && FreshAt(rs[i], s, at, maxAge) then Some(s) else None
  {
    i := ActiveIsNewest(actives, rs, maxAge, k);
  }

  /** With no newer acceptable manifest, service stops for good at the deadline, whatever refreshes happen. */
  lemma DeadlineIsNeverExtended(actives: seq<Option<Generation>>, rs: seq<Refresh>, maxAge: Time, i: nat, j: nat, at: Time)
    requires IsRun(actives, rs, maxAge) && i <= j < |actives| && actives[i].Some?
    requires actives[j].Some? && actives[j].value.parsed.revision == actives[i].value.parsed.revision
    requires at >= actives[i].value.parsed.deadline
    ensures Serves(actives[j], at).None?
  {
    RevisionsAreMonotone(actives, rs, maxAge, i, j);
  }
}
