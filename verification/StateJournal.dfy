/** The Agent's rollback journal over its two state files. */
module StateJournal {
  // A power loss can follow every filesystem operation, and every operation can fail: each
  // primitive below chooses nondeterministically whether its effect took place and whether
  // it reports success, an error, or never returns (`Crashed`).  `faults` counts the
  // primitives that did not report success and `deaths` those that never returned, so that
  // contracts can say what happens when nothing, or only one thing, goes wrong.
  //
  // Backups are written in place, so they can be left incomplete; state files and the
  // manifest are replaced by a rename.  RemoveAll deletes the journal's entries one at a
  // time in any order.

  import opened Common

  type Contents = seq<byte>

  /** The two state files; None is an absent file. */
  datatype Files = Files(config: Option<Contents>, secret: Option<Contents>)

  datatype Manifest = Manifest(configExists: bool, secretExists: bool)

  /** The journal directory and what it contains. */
  datatype Journal = Journal(configBefore: Option<Contents>, secretBefore: Option<Contents>, manifest: Option<Manifest>)

  datatype Entry = ConfigBackup | SecretBackup | ManifestFile

  datatype Outcome = Ok | Failed | Crashed

  /** One step of a mutation: replace or remove one of the two files. */
  datatype Write = SetConfig(data: Option<Contents>) | SetSecret(data: Option<Contents>)

  function Apply(f: Files, w: Write): Files {
    match w
    case SetConfig(d) => f.(config := d)
    case SetSecret(d) => f.(secret := d)
  }

  function ApplyAll(f: Files, ws: seq<Write>): Files {
    if ws == [] then f else Apply(ApplyAll(f, ws[..|ws| - 1]), ws[|ws| - 1])
  }

  /** After any writes each file holds what the last write to it says, or what it held before if there was none. */
  lemma {:induction false} LastWriteWins(f: Files, ws: seq<Write>, i: nat)
    requires i <= |ws|
    ensures i < |ws| && ws[i].SetConfig? && (forall j :: i < j < |ws| ==> !ws[j].SetConfig?) ==> ApplyAll(f, ws).config == ws[i].data
    ensures i < |ws| && ws[i].SetSecret? && (forall j :: i < j < |ws| ==> !ws[j].SetSecret?) ==> ApplyAll(f, ws).secret == ws[i].data
    ensures (forall j :: 0 <= j < |ws| ==> !ws[j].SetConfig?) ==> ApplyAll(f, ws).config == f.config
    ensures (forall j :: 0 <= j < |ws| ==> !ws[j].SetSecret?) ==> ApplyAll(f, ws).secret == f.secret
  {
    if ws != [] {
      var n := |ws| - 1;
      LastWriteWins(f, ws[..n], if i <= n then i else n);
    }
  }

  function ManifestOf(f: Files): Manifest { Manifest(f.config.Some?, f.secret.Some?) }

  function Delete(j: Journal, e: Entry): Journal {
    match e
    case ConfigBackup => j.(configBefore := None)
    case SecretBackup => j.(secretBefore := None)
    case ManifestFile => j.(manifest := None)
  }

  predicate Has(j: Journal, e: Entry) {
    match e
    case ConfigBackup => j.configBefore.Some?
    case SecretBackup => j.secretBefore.Some?
    case ManifestFile => j.manifest.Some?
  }

  /** `j` is `k` with some entries deleted. */
  ghost predicate Remnant(j: Journal, k: Journal) {
    && (j.configBefore.Some? ==> j.configBefore == k.configBefore)
    && (j.secretBefore.Some? ==> j.secretBefore == k.secretBefore)
    && (j.manifest.Some? ==> j.manifest == k.manifest)
  }

  /** The journal does not make the rollback of `base` impossible. */
  ghost predicate Agrees(j: Journal, base: Files) {
    && j.manifest == Some(ManifestOf(base))
    && (base.config.Some? && j.configBefore.Some? ==> j.configBefore == base.config)
    && (base.secret.Some? && j.secretBefore.Some? ==> j.secretBefore == base.secret)
  }

  /** Recovery can finish: nothing was published, or every backup the manifest calls for is there. */
  predicate Recoverable(j: Journal) {
    j.manifest.None? ||
    ((j.manifest.value.configExists ==> j.configBefore.Some?) && (j.manifest.value.secretExists ==> j.secretBefore.Some?))
  }

  /** The files after a recovery in which no operation fails; None: it stops on a missing backup. */
  function Restored(f: Files, j: Journal): Option<Files> {
    if j.manifest.None? then Some(f)
    else
      var m := j.manifest.value;
      if (m.configExists && j.configBefore.None?) || (m.secretExists && j.secretBefore.None?) then None
      else Some(Files(if m.configExists then j.configBefore else None, if m.secretExists then j.secretBefore else None))
  }

  /** A journal that agrees with `base` restores it byte for byte, absence included, or cannot restore anything. */
  lemma RestoredIsBase(f: Files, j: Journal, base: Files)
    requires Agrees(j, base)
    ensures Restored(f, j) == (if Recoverable(j) then Some(base) else None)
  {
  }

  class StateDir {
    var files: Files
    var journal: Option<Journal>
    ghost var faults: nat
    ghost var deaths: nat

    /**
      The crash invariant, for the last committed contents `base`: without a
      published manifest the files are `base`; with one, the journal can only
      ever roll back to `base`.
     */
    ghost predicate Durable(base: Files)
      reads this
    {
      if journal.None? || journal.value.manifest.None? then files == base else Agrees(journal.value, base)
    }

    /** A published journal that holds everything needed to restore `base`. */
    ghost predicate Intact(base: Files)
      reads this
    {
      && journal.Some? && journal.value.manifest == Some(ManifestOf(base))
      && (base.config.Some? ==> journal.value.configBefore == base.config)
      && (base.secret.Some? ==> journal.value.secretBefore == base.secret)
    }

    /** An outcome has been counted: anything but success as a fault, a crash as a death. */
    ghost predicate Counted(r: Outcome, faultsBefore: nat, deathsBefore: nat)
      reads this
    {
      faults == faultsBefore + (if r.Ok? then 0 else 1) && deaths == deathsBefore + (if r == Crashed then 1 else 0)
    }

    constructor (files: Files)
      ensures this.files == files && journal == None && Durable(files) && faults == 0 && deaths == 0
    {
      this.files, journal, faults, deaths := files, None, 0, 0;
    }

    // ----- primitives: one filesystem effect each --------------------------------------

    /** Any outcome at all; everything but success is a fault. */
    method Choose() returns (r: Outcome)
      modifies this`faults, this`deaths
      ensures Counted(r, old(faults), old(deaths))
    {
      r := *;
      if r != Ok { faults := faults + 1; }
      if r == Crashed { deaths := deaths + 1; }
    }

    /** An outcome that admits success only if the effect took place; an error can be reported after it as well as before. */
    method Report(effect: bool) returns (r: Outcome)
      modifies this`faults, this`deaths
      ensures Counted(r, old(faults), old(deaths)) && (r.Ok? ==> effect)
    {
      r := *;
      if !effect && r == Ok { r := Failed; }
      if r != Ok { faults := faults + 1; }
      if r == Crashed { deaths := deaths + 1; }
    }

    /** The journal's directory; an error means that there is none. */
    method MakeJournal() returns (r: Outcome)
      requires journal.None?
      modifies this`journal, this`faults, this`deaths
      ensures journal.None? || journal == Some(Journal(None, None, None))
      ensures r.Ok? ==> journal.Some?
      ensures r == Failed ==> journal.None?
      ensures Counted(r, old(faults), old(deaths))
    {
      r := Choose();
      var effect: bool := *;
      if r == Ok || (r == Crashed && effect) {
        journal := Some(Journal(None, None, None));
      }
    }

    /** A rename-based replacement (or removal) of one state file. */
    method Replace(w: Write) returns (r: Outcome)
      modifies this`files, this`faults, this`deaths
      ensures Counted(r, old(faults), old(deaths))
      ensures files == old(files) || files == Apply(old(files), w)
      ensures r.Ok? ==> files == Apply(old(files), w)
    {
      var effect: bool := *;
      if effect {
        files := Apply(files, w);
      }
      r := Report(effect);
    }

    /** A backup is written in place: a crash or error leaves any part of it. */
    method WriteBackup(e: Entry, data: Contents) returns (r: Outcome)
      requires journal.Some? && e != ManifestFile
      modifies this`journal, this`faults, this`deaths
      ensures Counted(r, old(faults), old(deaths))
      ensures journal.Some? && journal.value.manifest == old(journal.value.manifest)
      ensures e == ConfigBackup ==> journal.value.secretBefore == old(journal.value.secretBefore)
      ensures e == SecretBackup ==> journal.value.configBefore == old(journal.value.configBefore)
      ensures r.Ok? ==> (if e == ConfigBackup then journal.value.configBefore else journal.value.secretBefore) == Some(data)
    {
      var effect, part: Option<Contents> := *, *;
      var written := if effect then Some(data) else part;
      journal := Some(if e == ConfigBackup then journal.value.(configBefore := written) else journal.value.(secretBefore := written));
      r := Report(effect);
    }

    method PublishManifest(m: Manifest) returns (r: Outcome)
      requires journal.Some?
      modifies this`journal, this`faults, this`deaths
      ensures Counted(r, old(faults), old(deaths))
      ensures journal == old(journal) || journal == Some(old(journal).value.(manifest := Some(m)))
      ensures r.Ok? ==> journal == Some(old(journal).value.(manifest := Some(m)))
    {
      var effect: bool := *;
      if effect {
        journal := Some(journal.value.(manifest := Some(m)));
      }
      r := Report(effect);
    }

    /** RemoveAll on the journal: entries go one by one, in any order, and it can stop anywhere. */
    method RemoveAll() returns (r: Outcome)
      requires journal.Some?
      modifies this`journal, this`faults, this`deaths
      ensures Counted(r, old(faults), old(deaths))
      ensures journal.Some? ==> Remnant(journal.value, old(journal.value))
      ensures r.Ok? ==> journal.None?
    {
      while true
        invariant journal.Some? && Remnant(journal.value, old(journal.value)) && faults == old(faults) && deaths == old(deaths)
        decreases (if Has(journal.value, ConfigBackup) then 1 else 0) + (if Has(journal.value, SecretBackup) then 1 else 0)
          + (if Has(journal.value, ManifestFile) then 1 else 0)
      {
        var stop: bool := *;
        if stop {
          r := Report(false);
          return;
        }
        if exists e :: Has(journal.value, e) {
          var e :| Has(journal.value, e);
          journal := Some(Delete(journal.value, e));
        } else {
          journal := None;
          r := Choose();
          return;
        }
      }
    }

    // ----- the journal's operations -------------------------------------------------------

    /** ensureStateReadable in front of a load: reads are refused while a journal exists. */
    method Load(ghost base: Files) returns (r: Option<Files>)
      requires Durable(base)
      ensures r.Some? <==> journal.None?
      ensures r.Some? ==> r.value == base
    {
      if journal.Some? {
        return None;
      }
      return Some(files);
    }

    /** beginStateTransaction. */
    method Begin(ghost base: Files) returns (r: Outcome)
      requires Durable(base)
      modifies this
      ensures Durable(base)
      ensures r.Ok? ==> Intact(base) && files == base
      ensures old(journal).Some? ==> r == Failed && unchanged(this)
      ensures old(journal).None? && faults == old(faults) ==> r.Ok?
      ensures r == Failed && faults == old(faults) + 1 ==> journal.None?
      ensures files == old(files) && faults >= old(faults) && (r.Ok? ==> faults == old(faults))
      ensures deaths == old(deaths) + (if r == Crashed then 1 else 0)
    {
      if journal.Some? {
        return Failed;
      }
      r := MakeJournal();
      if r != Ok {
        return;
      }
      r := Prepare(base);
      if r == Failed && journal.Some? {
        // The deferred clean-up; its own outcome is ignored unless the process dies in it.
        var clean := RemoveAll();
        if clean == Crashed {
          r := Crashed;
        }
      }
    }

    /** The fallible part of begin: snapshot both files, then publish the manifest. */
    method Prepare(ghost base: Files) returns (r: Outcome)
      requires journal == Some(Journal(None, None, None)) && files == base
      modifies this`journal, this`faults, this`deaths
      ensures Counted(r, old(faults), old(deaths))
      ensures journal.Some? && (journal.value.manifest.Some? ==> Intact(base))
      ensures r.Ok? ==> Intact(base)
    {
      if files.config.Some? {
        r := WriteBackup(ConfigBackup, files.config.value);
        if r != Ok { return; }
      }
      if files.secret.Some? {
        r := WriteBackup(SecretBackup, files.secret.value);
        if r != Ok { return; }
      }
      r := PublishManifest(ManifestOf(files));
    }

    /** The mutation itself: its writes in order, failing or dying anywhere. */
    method Operate(writes: seq<Write>) returns (r: Outcome)
      modifies this`files, this`faults, this`deaths
      ensures Counted(r, old(faults), old(deaths))
      ensures r.Ok? ==> files == ApplyAll(old(files), writes)
      ensures exists k :: 0 <= k <= |writes| && files == ApplyAll(old(files), writes[..k])
    {
      for i := 0 to |writes|
        invariant files == ApplyAll(old(files), writes[..i]) && faults == old(faults) && deaths == old(deaths)
      {
        assert writes[..i + 1][..i] == writes[..i];
        r := Replace(writes[i]);
        assert files == ApplyAll(old(files), writes[..i]) || files == ApplyAll(old(files), writes[..i + 1]);
        if r != Ok { return; }
      }
      assert writes[..|writes|] == writes;
      // What else the operation does can still fail.
      r := Choose();
    }

    /** restoreStateFile for one of the two files. */
    method RestoreFile(e: Entry, existed: bool) returns (r: Outcome)
      requires journal.Some? && e != ManifestFile
      modifies this`files, this`faults, this`deaths
      ensures faults == old(faults) + (if r.Ok? || (existed && !Has(journal.value, e)) then 0 else 1)
      ensures deaths == old(deaths) + (if r == Crashed then 1 else 0)
      ensures var backup := if e == ConfigBackup then journal.value.configBefore else journal.value.secretBefore;
        var w := if e == ConfigBackup then SetConfig(if existed then backup else None) else SetSecret(if existed then backup else None);
        && (files == old(files) || files == Apply(old(files), w))
        && (r.Ok? ==> files == Apply(old(files), w))
        && (existed && backup.None? ==> r == Failed && files == old(files))
    {
      var backup := if e == ConfigBackup then journal.value.configBefore else journal.value.secretBefore;
      if existed && backup.None? {
        return Failed;
      }
      var content := if existed then backup else None;
      r := Replace(if e == ConfigBackup then SetConfig(content) else SetSecret(content));
    }

    /**
      recoverStateTransaction.  Whatever happens the crash invariant is kept; if it
      completes, the files are the pre-transaction ones byte for byte and the journal
      is gone; until it starts removing the journal it can be repeated from scratch;
      and it completes, if nothing fails, exactly on a recoverable journal.
     */
    method Recover(ghost base: Files) returns (r: Outcome, ghost removing: bool)
      requires Durable(base)
      modifies this
      ensures Durable(base)
      ensures r.Ok? ==> journal.None? && files == base
      ensures r.Ok? && old(journal).Some? ==> Some(files) == Restored(old(files), old(journal).value)
      ensures old(Intact(base)) && !removing ==> Intact(base) && !r.Ok?
      ensures removing ==> files == base
      ensures !removing ==> journal == old(journal)
      ensures old(journal).Some? && !Recoverable(old(journal).value) ==> r != Ok && journal == old(journal)
      ensures old(journal).None? ==> r.Ok? && unchanged(this)
      ensures faults == old(faults) ==> (r.Ok? <==> old(journal).None? || Recoverable(old(journal).value))
      ensures faults >= old(faults) && (r.Ok? ==> faults == old(faults))
      ensures deaths == old(deaths) + (if r == Crashed then 1 else 0)
    {
      removing := false;
      if journal.None? {
        return Ok, removing;
      }
      if journal.value.manifest.None? {
        removing := true;
        r := RemoveAll();
        return;
      }
      var m := journal.value.manifest.value;
      r := RestoreFile(ConfigBackup, m.configExists);
      if r != Ok { return; }
      r := RestoreFile(SecretBackup, m.secretExists);
      if r != Ok { return; }
      assert files == base;
      removing := true;
      r := RemoveAll();
    }

    /**
      runStateTransaction: all of its writes become the durable contents, or none.
      `after` is what is durable when it returns or dies.  With nothing failing it
      commits; if one thing fails, the mutation is rolled back and the journal gone,
      unless it was the commit itself.
     */
    method RunTransaction(writes: seq<Write>, ghost base: Files) returns (r: Outcome, ghost after: Files)
      requires Durable(base)
      modifies this
      ensures after == base || after == ApplyAll(base, writes)
      ensures Durable(after)
      ensures r.Ok? ==> journal.None? && after == ApplyAll(base, writes) && files == after
      ensures old(journal).None? && faults == old(faults) ==> r.Ok?
      ensures old(journal).None? && faults == old(faults) + 1 && r == Failed ==>
        (journal.None? && files == base) || files == ApplyAll(base, writes)
      ensures old(journal).Some? ==> r == Failed && unchanged(this)
      ensures faults >= old(faults) && (r.Ok? ==> faults == old(faults))
      ensures deaths == old(deaths) + (if r == Crashed then 1 else 0)
    {
      after := base;
      r := Begin(base);
      if r != Ok { return; }
      r := Operate(writes);
      if r == Crashed { return; }
      if r == Failed {
        ghost var removing;
        r, removing := Recover(base);
        r := if r == Crashed then Crashed else Failed;
        return;
      }
      r := RemoveAll();
      // The commit point is the deletion of the manifest.
      if journal.None? || journal.value.manifest.None? {
        after := files;
      }
    }
  }

  /** All the attempted transactions, in order. */
  function AllApplied(base: Files, attempts: seq<seq<Write>>): Files {
    if attempts == [] then base else ApplyAll(AllApplied(base, attempts[..|attempts| - 1]), attempts[|attempts| - 1])
  }

  /** Later contents, as the result of some of the attempted transactions, each whole and in order. */
  ghost predicate Serial(base: Files, attempts: seq<seq<Write>>, result: Files) {
    if attempts == [] then result == base
    else
      var earlier := attempts[..|attempts| - 1];
      || Serial(base, earlier, result)
      || exists mid :: Serial(base, earlier, mid) && result == ApplyAll(mid, attempts[|attempts| - 1])
  }

  /**
    Any number of process lifetimes, each recovering first and then attempting one
    transaction, each failing or dying anywhere: what a reader can see afterwards is
    always the outcome of whole transactions in order, and of all of them if nothing
    fails.
   */
  method Lifetimes(dir: StateDir, attempts: seq<seq<Write>>, ghost base: Files) returns (ghost after: Files)
    requires dir.Durable(base)
    modifies dir
    ensures dir.Durable(after) && Serial(base, attempts, after)
    ensures dir.journal.None? ==> Serial(base, attempts, dir.files)
    ensures attempts != [] && dir.faults == old(dir.faults) && (old(dir.journal).Some? ==> Recoverable(old(dir.journal).value)) ==>
      dir.journal.None? && dir.files == AllApplied(base, attempts)
  {
    after := base;
    ghost var sound := dir.journal.Some? ==> Recoverable(dir.journal.value);
    for i := 0 to |attempts|
      invariant dir.Durable(after) && Serial(base, attempts[..i], after) && dir.faults >= old(dir.faults)
      invariant sound && dir.faults == old(dir.faults) ==> after == AllApplied(base, attempts[..i])
      invariant sound && dir.faults == old(dir.faults) ==> if i == 0 then dir.journal == old(dir.journal) else dir.journal.None?
    {
      ghost var before := after;
      var r;
      ghost var removing;
      r, removing := dir.Recover(after);
      if r == Ok {
        r, after := dir.RunTransaction(attempts[i], after);
      }
      assert attempts[..i + 1][..i] == attempts[..i];
      assert Serial(base, attempts[..i], before);
    }
    assert attempts[..|attempts|] == attempts;
  }

  /**
    Recovery can be restarted: as long as no attempt has started to remove the
    journal it stays complete, and the first attempt that completes restores both
    files exactly, whatever the earlier ones left half done.
   */
  method RecoverRepeatedly(dir: StateDir, attempts: nat, ghost base: Files) returns (r: Outcome, ghost removing: bool)
    requires dir.Intact(base) && dir.Durable(base)
    modifies dir
    ensures dir.Durable(base)
    ensures r.Ok? ==> dir.journal.None? && dir.files == base
    ensures !removing ==> dir.Intact(base) && Recoverable(dir.journal.value) && !r.Ok?
    ensures attempts > 0 && dir.faults == old(dir.faults) ==> r.Ok?
  {
    r, removing := Failed, false;
    var i := 0;
    while i < attempts && r != Ok
      invariant dir.Durable(base) && (r.Ok? ==> dir.journal.None? && dir.files == base)
      invariant !removing ==> dir.Intact(base) && !r.Ok?
      invariant dir.faults >= old(dir.faults) && (dir.faults == old(dir.faults) ==> if i == 0 then !removing else r.Ok?)
    {
      ghost var started;
      r, started := dir.Recover(base);
      removing := removing || started;
      i := i + 1;
    }
  }

  // ----- when a crash inside RemoveAll leaves a journal that cannot be recovered -----------

  /** The journal after the first k deletions of an order. */
  function Deleted(j: Journal, order: seq<Entry>, k: nat): Journal
    requires k <= |order|
  {
    if k == 0 then j else Delete(Deleted(j, order, k - 1), order[k - 1])
  }

  /** An order in which RemoveAll can delete the entries of `j`. */
  ghost predicate RemovalOrder(j: Journal, order: seq<Entry>) {
    && (forall i, k :: 0 <= i < k < |order| ==> order[i] != order[k])
    && (forall e :: e in order <==> Has(j, e))
  }

  predicate Needed(m: Manifest, e: Entry) {
    match e
    case ConfigBackup => m.configExists
    case SecretBackup => m.secretExists
    case ManifestFile => false
  }

  /** Every backup the manifest calls for is deleted after the manifest. */
  ghost predicate ManifestFirst(m: Manifest, order: seq<Entry>) {
    forall i, k :: 0 <= i < |order| && 0 <= k < |order| && order[i] == ManifestFile && Needed(m, order[k]) ==> i < k
  }

  lemma {:induction false} DeletedHas(j: Journal, order: seq<Entry>, k: nat, e: Entry)
    requires k <= |order|
    ensures Has(Deleted(j, order, k), e) <==> Has(j, e) && e !in order[..k]
    ensures Deleted(j, order, k).manifest.Some? ==> Deleted(j, order, k).manifest == j.manifest
  {
    if k > 0 {
      DeletedHas(j, order, k - 1, e);
      assert order[..k] == order[..k - 1] + [order[k - 1]];
    }
  }

  lemma RecoverableAt(j: Journal, order: seq<Entry>, k: nat)
    requires j.manifest.Some? && Recoverable(j) && k <= |order|
    ensures Recoverable(Deleted(j, order, k)) <==>
      (ManifestFile in order[..k] || forall e :: Needed(j.manifest.value, e) ==> e !in order[..k])
  {
    DeletedHas(j, order, k, ManifestFile);
    DeletedHas(j, order, k, ConfigBackup);
    DeletedHas(j, order, k, SecretBackup);
  }

  /**
    A complete journal survives a crash at every point of its removal, in the sense
    that recovery can still finish, exactly if the manifest is deleted before every
    backup it calls for.
   */
  lemma RemovalIsRestartableIff(j: Journal, order: seq<Entry>)
    requires j.manifest.Some? && Recoverable(j) && RemovalOrder(j, order)
    ensures (forall k :: 0 <= k <= |order| ==> Recoverable(Deleted(j, order, k))) <==> ManifestFirst(j.manifest.value, order)
  {
    var m := j.manifest.value;
    assert Has(j, ManifestFile);
    var i :| 0 <= i < |order| && order[i] == ManifestFile;
    if ManifestFirst(m, order) {
      forall k | 0 <= k <= |order| ensures Recoverable(Deleted(j, order, k)) {
        RecoverableAt(j, order, k);
        if i < k { assert order[..k][i] == ManifestFile; }
      }
    } else {
      var i', k :| 0 <= i' < |order| && 0 <= k < |order| && order[i'] == ManifestFile && Needed(m, order[k]) && k <= i';
      RecoverableAt(j, order, k + 1);
      assert order[..k + 1][k] == order[k];
      assert ManifestFile !in order[..k + 1];
    }
  }

  /** For example: a commit that dies right after deleting config.before first. */
  lemma WedgedExample(c: Contents, s: Contents)
    ensures var j := Journal(Some(c), Some(s), Some(Manifest(true, true)));
      Recoverable(j) && !Recoverable(Deleted(j, [ConfigBackup, ManifestFile, SecretBackup], 1))
  {
    var j := Journal(Some(c), Some(s), Some(Manifest(true, true)));
    assert Deleted(j, [ConfigBackup, ManifestFile, SecretBackup], 0) == j;
  }
}
