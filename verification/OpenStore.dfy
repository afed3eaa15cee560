/** Opening the database by way of a checked copy: whatever fails, the original bytes survive. */
module OpenStore {
  type Bytes = string

  datatype Base = Path | Temporary | Backup
  datatype Part = Whole | Wal | Shm
  datatype Name = Name(base: Base, part: Part)

  type Files = map<Name, Bytes>

  datatype Seen = Present | Absent | Trouble
  datatype Result = Opened | Failed(named: set<Name>)

  /** An opening or closing of a database, and the length of the directory's history when it was over. */
  datatype Trial = Trial(base: Base, ok: bool, end: nat)
  datatype Move = Move(source: Name, destination: Name, ok: bool, end: nat)

  const SIDECARS: seq<Part> := [Wal, Shm]

  /** The two file systems agree on every other name. */
  ghost predicate SameBut(a: Files, b: Files, names: set<Name>) {
    forall n | n !in names :: (n in a <==> n in b) && (n in a ==> a[n] == b[n])
  }

  function Family(base: Base): set<Name> {
    {Name(base, Whole), Name(base, Wal), Name(base, Shm)}
  }

  /** The directory. Any operation may fail; SQLite may do anything to the files it opens. */
  class Disk {
    var files: Files
    /** Every state the directory has been in. */
    ghost var history: seq<Files>
    /** An existence check failed on a file that was there. */
    ghost var misled: bool
    /** Anything but a removal has failed. */
    ghost var failed: bool
    /** A removal has left its file. */
    ghost var stuck: bool
    ghost var ran: seq<Trial>
    ghost var moved: seq<Move>

    constructor (files: Files)
      ensures this.files == files && Untried()
    {
      this.files, history, misled, failed, stuck, ran, moved := files, [files], false, false, false, [], [];
    }

    /** Nothing has been done to the directory. */
    ghost predicate Untried()
      reads this
    {
      history == [files] && !misled && !failed && !stuck && ran == [] && moved == []
    }

    ghost predicate Only(before: seq<Files>, start: Files, names: set<Name>)
      reads this
    {
      && |before| <= |history| && history[..|before|] == before && SameBut(start, files, names)
      && forall f | f in history[|before|..] :: SameBut(start, f, names)
    }

    method Stat(name: Name) returns (seen: Seen)
      modifies this`misled, this`failed
      ensures seen.Present? ==> name in files
      ensures seen.Absent? ==> name !in files
      ensures misled <==> old(misled) || (seen.Trouble? && name in files)
      ensures failed <==> old(failed) || seen.Trouble?
    {
      var trouble: bool := *;
      if trouble {
        misled, failed := misled || name in files, true;
        return Trouble;
      }
      return if name in files then Present else Absent;
    }

    /** Asking for a file's mode. */
    method Info(name: Name) returns (ok: bool)
      modifies this`failed
      ensures ok ==> name in files
      ensures failed <==> old(failed) || !ok
    {
      var able: bool := *;
      ok := able && name in files;
      failed := failed || !ok;
    }

    /** `copyFile`: a failure may leave anything at the destination. */
    method Copy(source: Name, destination: Name) returns (ok: bool)
      requires source != destination
      modifies this`files, this`history, this`failed
      ensures Only(old(history), old(files), {destination}) && (failed <==> old(failed) || !ok)
      ensures ok ==> source in old(files) && files == old(files)[destination := old(files)[source]]
    {
      var opens: bool := *;
      if source !in files || !opens {
        history, failed := history + [files], true;
        return false;
      }
      files := files[destination := ""];
      history := history + [files];
      var whole: bool := *;
      var written: Bytes := *;
      files := files[destination := if whole then files[source] else written];
      history, failed := history + [files], failed || !whole;
      return whole;
    }

    /** Renaming is atomic. */
    method Rename(source: Name, destination: Name) returns (ok: bool)
      requires source != destination
      modifies this`files, this`history, this`failed, this`moved
      ensures ok ==> source in old(files) && files == (old(files) - {source})[destination := old(files)[source]]
      ensures !ok ==> files == old(files)
      ensures history == old(history) + [files] && (failed <==> old(failed) || !ok)
      ensures moved == old(moved) + [Move(source, destination, ok, |history|)]
    {
      var able: bool := *;
      ok := able && source in files;
      if ok {
        files := (files - {source})[destination := files[source]];
      }
      history, failed := history + [files], failed || !ok;
      moved := moved + [Move(source, destination, ok, |history|)];
    }

    method Remove(name: Name)
      modifies this`files, this`history, this`stuck
      ensures files == old(files) || files == old(files) - {name}
      ensures history == old(history) + [files] && (stuck <==> old(stuck) || name in files)
    {
      var able: bool := *;
      if able {
        files := files - {name};
      }
      history, stuck := history + [files], stuck || name in files;
    }

    /** Opening or closing a database, with its migrations: any number of writes to its files, of anything. */
    method Run(base: Base) returns (ok: bool)
      modifies this`files, this`history, this`failed, this`ran
      ensures Only(old(history), old(files), Family(base)) && history != [] && history[|history| - 1] == files
      ensures ran == old(ran) + [Trial(base, ok, |history|)] && (failed <==> old(failed) || !ok)
    {
      ok := *;
      var writes: nat :| writes >= 0;
      history := history + [files];
      for i := 0 to writes
        invariant Only(old(history), old(files), Family(base)) && history != [] && history[|history| - 1] == files
        invariant ran == old(ran) && failed == old(failed)
      {
        var left: Files := *;
        files := (map n | n in files && n !in Family(base) :: files[n]) + (map n | n in left && n in Family(base) :: left[n]);
        history := history + [files];
      }
      ran, failed := ran + [Trial(base, ok, |history|)], failed || !ok;
    }

    method CreateTemporary() returns (ok: bool)
      modifies this`files, this`history, this`failed
      ensures Only(old(history), old(files), {Name(Temporary, Whole)}) && (failed <==> old(failed) || !ok)
      ensures !ok ==> files == old(files)
    {
      ok := *;
      if ok {
        files := files[Name(Temporary, Whole) := ""];
      }
      history, failed := history + [files], failed || !ok;
    }
  }

  /** No file of this base is there. */
  ghost predicate None(f: Files, base: Base) {
    forall part :: Name(base, part) !in f
  }

  /** The backups that are there were there before, and are not among these. */
  ghost predicate NoneBut(f: Files, before: Files, copies: set<Name>) {
    forall part :: Name(Backup, part) in f ==> Name(Backup, part) in before && Name(Backup, part) !in copies
  }

  lemma StillNone(start: Files, now: Files, before: Files, copies: set<Name>)
    requires NoneBut(start, before, copies) && SameBut(start, now, Family(Temporary))
    ensures NoneBut(now, before, copies)
  {
  }

  lemma NoneSince(f: Files, mid: Files, before: Files, copies: set<Name>)
    requires NoneBut(f, mid, copies) && NoMore(before, mid, Backup)
    ensures NoneBut(f, before, copies)
  {
  }

  lemma NoMoreElsewhere(a: Files, b: Files, names: set<Name>, base: Base)
    requires SameBut(a, b, names) && forall n | n in names :: n.base != base
    ensures NoMore(a, b, base)
  {
  }

  lemma RenamedSame(a: Files, b: Files)
    requires Name(Temporary, Whole) in a && b == (a - {Name(Temporary, Whole)})[Name(Path, Whole) := a[Name(Temporary, Whole)]]
    ensures NoMore(a, b, Backup) && Name(Temporary, Whole) !in b
  {
  }

  /** None has come. */
  ghost predicate NoMore(a: Files, b: Files, base: Base) {
    forall part :: Name(base, part) in b ==> Name(base, part) in a
  }

  /** The path and its sidecars are as they were. */
  ghost predicate Untouched(original: Files, f: Files) {
    forall part :: var n := Name(Path, part); (n in original <==> n in f) && (n in original ==> f[n] == original[n])
  }

  ghost predicate Holds(f: Files, base: Base, original: Files, part: Part) {
    Name(Path, part) in original && Name(base, part) in f && f[Name(base, part)] == original[Name(Path, part)]
  }

  /** The original database is at its path or in its backup. */
  ghost predicate Safe(original: Files, f: Files) {
    Holds(f, Path, original, Whole) || Holds(f, Backup, original, Whole)
  }

  ghost predicate AlwaysSafe(original: Files, history: seq<Files>) {
    forall f | f in history :: Safe(original, f)
  }

  /** Every original file is in place, or in a backup that the error names. */
  ghost predicate Preserved(original: Files, f: Files, named: set<Name>) {
    forall part | Name(Path, part) in original ::
      Holds(f, Path, original, part) || (Holds(f, Backup, original, part) && Name(Backup, part) in named)
  }

  /** Every original file is in place. */
  ghost predicate Returned(original: Files, f: Files) {
    forall part | Name(Path, part) in original :: Holds(f, Path, original, part)
  }

  predicate AllMoved(moved: seq<Move>) {
    forall m | m in moved :: m.ok
  }

  lemma NotAllMoved(moved: seq<Move>)
    requires moved != [] && !moved[|moved| - 1].ok
    ensures !AllMoved(moved)
  {
  }

  ghost predicate BackedUp(original: Files, f: Files) {
    forall part | Name(Path, part) in original :: Holds(f, Backup, original, part)
  }

  lemma UntouchedIsSafe(original: Files, f: Files)
    requires Untouched(original, f) && Name(Path, Whole) in original
    ensures Safe(original, f) && Preserved(original, f, {}) && Returned(original, f)
  {
  }

  lemma Begins(original: Files)
    requires Name(Path, Whole) in original
    ensures Untouched(original, original) && AlwaysSafe(original, [original])
  {
  }

  lemma StillUntouched(original: Files, start: Files, f: Files, names: set<Name>)
    requires Untouched(original, start) && SameBut(start, f, names) && forall n | n in names :: n.base != Path
    ensures Untouched(original, f)
  {
  }

  /** Steps that touch no original keep every state safe. */
  lemma SafeSteps(original: Files, before: seq<Files>, after: seq<Files>, start: Files, now: Files, names: set<Name>)
    requires AlwaysSafe(original, before) && Untouched(original, start) && Name(Path, Whole) in original
    requires |before| <= |after| && after[..|before|] == before && SameBut(start, now, names)
    requires forall f | f in after[|before|..] :: SameBut(start, f, names)
    requires forall n | n in names :: n.base != Path
    ensures AlwaysSafe(original, after) && Untouched(original, now)
  {
    StillUntouched(original, start, now, names);
    forall f | f in after ensures Safe(original, f) {
      assert after == after[..|before|] + after[|before|..];
      if f in after[|before|..] {
        StillUntouched(original, start, f, names);
        UntouchedIsSafe(original, f);
      }
    }
  }

  /** Copy the sidecars to another base; one that is not there is skipped. */
  method CopySidecars(disk: Disk, base: Base, strict: bool, ghost original: Files) returns (ok: bool, copies: set<Name>)
    requires base != Path && Untouched(original, disk.files) && AlwaysSafe(original, disk.history) && Name(Path, Whole) in original
    modifies disk`files, disk`history, disk`misled, disk`failed
    ensures Untouched(original, disk.files) && AlwaysSafe(original, disk.history) && old(disk.history) <= disk.history
    ensures SameBut(old(disk.files), disk.files, {Name(base, Wal), Name(base, Shm)}) && (old(disk.misled) ==> disk.misled)
    ensures old(disk.failed) || !ok ==> disk.failed
    ensures ok ==> forall part :: Name(base, part) in disk.files ==> Name(base, part) in old(disk.files) || Name(base, part) in copies
    ensures ok && !disk.misled ==> forall part | part != Whole && Name(Path, part) in original ::
      Holds(disk.files, base, original, part) && Name(base, part) in copies
    ensures forall n | n in copies :: n.base == base
  {
    copies := {};
    for i := 0 to |SIDECARS|
      invariant Untouched(original, disk.files) && AlwaysSafe(original, disk.history) && (old(disk.misled) ==> disk.misled)
      invariant old(disk.history) <= disk.history && (old(disk.failed) ==> disk.failed)
      invariant SameBut(old(disk.files), disk.files, {Name(base, Wal), Name(base, Shm)})
      invariant forall part :: Name(base, part) in disk.files ==> Name(base, part) in old(disk.files) || Name(base, part) in copies
      invariant !disk.misled ==> forall k | 0 <= k < i && Name(Path, SIDECARS[k]) in original ::
        Holds(disk.files, base, original, SIDECARS[k]) && Name(base, SIDECARS[k]) in copies
      invariant forall n | n in copies :: n.base == base
    {
      var part := SIDECARS[i];
      var seen := disk.Stat(Name(Path, part));
      if seen.Present? {
        ghost var before, start := disk.history, disk.files;
        var copied := disk.Copy(Name(Path, part), Name(base, part));
        SafeSteps(original, before, disk.history, start, disk.files, {Name(base, part)});
        if !copied {
          return false, copies;
        }
        copies := copies + {Name(base, part)};
      } else if strict && seen.Trouble? {
        return false, copies;
      }
    }
    assert SIDECARS[0] == Wal && SIDECARS[1] == Shm;
    return true, copies;
  }

  /** `removeFiles`. */
  method RemoveFiles(disk: Disk, names: set<Name>)
    modifies disk`files, disk`history, disk`stuck
    ensures disk.Only(old(disk.history), old(disk.files), names)
    ensures (old(disk.stuck) ==> disk.stuck) && (!disk.stuck ==> forall n | n in names :: n !in disk.files)
  {
    var left := names;
    while left != {}
      invariant left <= names && disk.Only(old(disk.history), old(disk.files), names)
      invariant (old(disk.stuck) ==> disk.stuck) && (!disk.stuck ==> forall n | n in names - left :: n !in disk.files)
    {
      var n :| n in left;
      disk.Remove(n);
      left := left - {n};
    }
  }

  /** `existingFiles`. */
  method ExistingFiles(disk: Disk, names: set<Name>) returns (existing: set<Name>)
    modifies disk`misled, disk`failed
    ensures existing <= names && (forall n | n in existing :: n in disk.files) && (old(disk.misled) ==> disk.misled) && (old(disk.failed) ==> disk.failed)
    ensures !disk.misled ==> forall n | n in names && n in disk.files :: n in existing
  {
    existing := {};
    var left := names;
    while left != {}
      invariant left <= names && existing <= names - left && forall n | n in existing :: n in disk.files
      invariant (old(disk.misled) ==> disk.misled) && (old(disk.failed) ==> disk.failed)
      invariant !disk.misled ==> forall n | n in names - left && n in disk.files :: n in existing
    {
      var n :| n in left;
      var seen := disk.Stat(n);
      if seen.Present? {
        existing := existing + {n};
      }
      left := left - {n};
    }
  }

  /** The deferred removal of what is left of the copy. */
  method CleanUp(disk: Disk, promoted: bool)
    modifies disk`files, disk`history, disk`stuck
    ensures disk.Only(old(disk.history), old(disk.files), Family(Temporary)) && (old(disk.stuck) ==> disk.stuck)
    ensures !disk.stuck && (promoted ==> Name(Temporary, Whole) !in old(disk.files)) ==> None(disk.files, Temporary)
  {
    if !promoted {
      disk.Remove(Name(Temporary, Whole));
    }
    disk.Remove(Name(Temporary, Wal));
    disk.Remove(Name(Temporary, Shm));
    if !disk.stuck && (promoted ==> Name(Temporary, Whole) !in old(disk.files)) {
      forall part ensures Name(Temporary, part) !in disk.files {
        match part
        case Whole =>
        case Wal =>
        case Shm =>
      }
    }
  }

  /** A copy of the database that opens and closes without fault. */
  method Check(disk: Disk, ghost original: Files) returns (ok: bool)
    requires Untouched(original, disk.files) && AlwaysSafe(original, disk.history) && Name(Path, Whole) in original && disk.ran == []
    modifies disk`files, disk`history, disk`misled, disk`failed, disk`ran
    ensures Untouched(original, disk.files) && AlwaysSafe(original, disk.history) && (old(disk.misled) ==> disk.misled)
    ensures old(disk.history) <= disk.history && (old(disk.failed) || !ok ==> disk.failed)
    ensures NoMore(old(disk.files), disk.files, Backup)
    ensures forall t | t in disk.ran :: t.base == Temporary
    ensures ok ==> |disk.ran| == 2 && disk.ran[0].ok && disk.ran[1].ok
    ensures ok ==> disk.ran[1].end == |disk.history| && disk.history != [] && disk.history[|disk.history| - 1] == disk.files
  {
    ghost var before, start := disk.history, disk.files;
    ok := disk.Copy(Name(Path, Whole), Name(Temporary, Whole));
    SafeSteps(original, before, disk.history, start, disk.files, {Name(Temporary, Whole)});
    if !ok {
      return;
    }
    var sidecars;
    ok, sidecars := CopySidecars(disk, Temporary, true, original);
    if !ok {
      return;
    }
    before, start := disk.history, disk.files;
    ok := disk.Run(Temporary);
    SafeSteps(original, before, disk.history, start, disk.files, Family(Temporary));
    if !ok {
      return;
    }
    before, start := disk.history, disk.files;
    ok := disk.Run(Temporary);
    SafeSteps(original, before, disk.history, start, disk.files, Family(Temporary));
  }

  /** The backup of the original and its sidecars. */
  method MakeBackup(disk: Disk, ghost original: Files) returns (ok: bool, copies: set<Name>)
    requires Untouched(original, disk.files) && AlwaysSafe(original, disk.history) && Name(Path, Whole) in original
    modifies disk`files, disk`history, disk`misled, disk`failed
    ensures Untouched(original, disk.files) && AlwaysSafe(original, disk.history) && (old(disk.misled) ==> disk.misled)
    ensures old(disk.history) <= disk.history && SameBut(old(disk.files), disk.files, Family(Backup)) && (old(disk.failed) || !ok ==> disk.failed)
    ensures ok ==> Holds(disk.files, Backup, original, Whole) && Name(Backup, Whole) in copies
    ensures ok ==> forall part :: Name(Backup, part) in disk.files ==> Name(Backup, part) in old(disk.files) || Name(Backup, part) in copies
    ensures ok && !disk.misled ==> BackedUp(original, disk.files) && forall part | Name(Path, part) in original :: Name(Backup, part) in copies
    ensures forall n | n in copies :: n.base == Backup
  {
    copies := {};
    ghost var before, start := disk.history, disk.files;
    ok := disk.Copy(Name(Path, Whole), Name(Backup, Whole));
    SafeSteps(original, before, disk.history, start, disk.files, {Name(Backup, Whole)});
    if !ok {
      return;
    }
    var more;
    ok, more := CopySidecars(disk, Backup, false, original);
    copies := {Name(Backup, Whole)} + more;
  }

  /** Steps that leave the backup of the main file alone keep every state safe. */
  lemma BackupSteps(original: Files, before: seq<Files>, after: seq<Files>, start: Files, now: Files, names: set<Name>)
    requires AlwaysSafe(original, before) && Holds(start, Backup, original, Whole) && Name(Backup, Whole) !in names
    requires |before| <= |after| && after[..|before|] == before && SameBut(start, now, names)
    requires forall f | f in after[|before|..] :: SameBut(start, f, names)
    ensures AlwaysSafe(original, after) && Holds(now, Backup, original, Whole)
  {
    forall f | f in after ensures Safe(original, f) {
      assert after == after[..|before|] + after[|before|..];
    }
  }

  lemma Append(original: Files, before: seq<Files>, now: Files)
    requires AlwaysSafe(original, before) && Safe(original, now)
    ensures AlwaysSafe(original, before + [now])
  {
  }

  /** Where each original file is while the sidecars go back, the first `i` of them done. */
  ghost predicate Returning(original: Files, f: Files, copies: set<Name>, i: nat) {
    && Holds(f, Path, original, Whole)
    && (forall k | 0 <= k < |SIDECARS| && Name(Path, SIDECARS[k]) in original ::
          if k < i then Holds(f, Path, original, SIDECARS[k])
          else Holds(f, Backup, original, SIDECARS[k]) && Name(Backup, SIDECARS[k]) in copies)
  }

  lemma SidecarIndex(part: Part) returns (k: nat)
    requires part != Whole
    ensures k < |SIDECARS| && SIDECARS[k] == part
  {
    k := if part == Wal then 0 else 1;
  }

  lemma Wider(a: Files, b: Files, names: set<Name>)
    requires SameBut(a, b, names) && forall n | n in names :: n.base == Backup
    ensures SameBut(a, b, Family(Backup))
  {
    forall n | n in names ensures n in Family(Backup) {
      match n.part
      case Whole =>
      case Wal =>
      case Shm =>
    }
  }

  lemma ReturnedAll(original: Files, f: Files, copies: set<Name>)
    requires Returning(original, f, copies, |SIDECARS|)
    ensures Preserved(original, f, {}) && Returned(original, f)
  {
    forall part | Name(Path, part) in original ensures Holds(f, Path, original, part) {
      if part != Whole {
        var k := SidecarIndex(part);
      }
    }
  }

  lemma ReturnedSome(original: Files, f: Files, copies: set<Name>, named: set<Name>, i: nat)
    requires Returning(original, f, copies, i) && forall n | n in copies && n in f :: n in named
    ensures Preserved(original, f, named)
  {
    forall part | Name(Path, part) in original
      ensures Holds(f, Path, original, part) || (Holds(f, Backup, original, part) && Name(Backup, part) in named)
    {
      if part != Whole {
        var k := SidecarIndex(part);
        assert k < i || Holds(f, Backup, original, SIDECARS[k]);
      }
    }
  }

  /** The backup of each sidecar is renamed into place. */
  method RestoreSidecars(disk: Disk, copies: set<Name>, ghost original: Files) returns (named: set<Name>)
    requires AlwaysSafe(original, disk.history) && Holds(disk.files, Path, original, Whole)
    requires !disk.misled ==> Returning(original, disk.files, copies, 0)
    modifies disk`files, disk`history, disk`misled, disk`failed, disk`moved
    ensures AlwaysSafe(original, disk.history) && Safe(original, disk.files) && (!disk.misled ==> Preserved(original, disk.files, named))
    ensures old(disk.misled) ==> disk.misled
    ensures old(disk.history) <= disk.history && old(disk.moved) <= disk.moved && (old(disk.failed) ==> disk.failed)
    ensures !disk.misled && AllMoved(disk.moved) ==> Returned(original, disk.files)
    ensures NoMore(old(disk.files), disk.files, Temporary)
  {
    for i := 0 to |SIDECARS|
      invariant AlwaysSafe(original, disk.history) && Holds(disk.files, Path, original, Whole) && (old(disk.misled) ==> disk.misled)
      invariant !disk.misled ==> Returning(original, disk.files, copies, i)
      invariant old(disk.history) <= disk.history && old(disk.moved) <= disk.moved && (old(disk.failed) ==> disk.failed)
      invariant NoMore(old(disk.files), disk.files, Temporary)
    {
      var part := SIDECARS[i];
      var seen := disk.Stat(Name(Backup, part));
      if seen.Present? {
        ghost var before := disk.history;
        var restored := disk.Rename(Name(Backup, part), Name(Path, part));
        assert SIDECARS[0] == Wal && SIDECARS[1] == Shm;
        Append(original, before, disk.files);
        if !restored {
          named := ExistingFiles(disk, copies);
          NotAllMoved(disk.moved);
          if !disk.misled {
            ReturnedSome(original, disk.files, copies, named, i);
          }
          return;
        }
      }
    }
    named := {};
    if !disk.misled {
      ReturnedAll(original, disk.files, copies);
    }
  }

  /** The sidecars at the path go. */
  method RemoveSidecars(disk: Disk, ghost original: Files)
    requires AlwaysSafe(original, disk.history) && Holds(disk.files, Backup, original, Whole)
    modifies disk`files, disk`history, disk`stuck
    ensures old(disk.stuck) ==> disk.stuck
    ensures AlwaysSafe(original, disk.history) && old(disk.history) <= disk.history
    ensures SameBut(old(disk.files), disk.files, {Name(Path, Wal), Name(Path, Shm)})
  {
    ghost var before := disk.history;
    disk.Remove(Name(Path, Wal));
    Append(original, before, disk.files);
    before := disk.history;
    disk.Remove(Name(Path, Shm));
    Append(original, before, disk.files);
  }

  /** After the promoted copy fails to open, the backup goes back. */
  method Restore(disk: Disk, copies: set<Name>, ghost original: Files) returns (named: set<Name>)
    requires AlwaysSafe(original, disk.history) && Holds(disk.files, Backup, original, Whole) && Name(Backup, Whole) in copies
    requires !disk.misled ==> BackedUp(original, disk.files) && forall part | Name(Path, part) in original :: Name(Backup, part) in copies
    modifies disk`files, disk`history, disk`misled, disk`failed, disk`moved, disk`stuck
    ensures AlwaysSafe(original, disk.history) && Safe(original, disk.files) && (!disk.misled ==> Preserved(original, disk.files, named))
    ensures old(disk.misled) ==> disk.misled
    ensures old(disk.history) <= disk.history && old(disk.moved) <= disk.moved && (old(disk.failed) ==> disk.failed)
    ensures !disk.misled && AllMoved(disk.moved) ==> Returned(original, disk.files)
    ensures NoMore(old(disk.files), disk.files, Temporary) && (old(disk.stuck) ==> disk.stuck)
  {
    RemoveSidecars(disk, original);
    ghost var before := disk.history;
    var restored := disk.Rename(Name(Backup, Whole), Name(Path, Whole));
    Append(original, before, disk.files);
    if !restored {
      named := ExistingFiles(disk, copies);
      NotAllMoved(disk.moved);
      return;
    }
    named := RestoreSidecars(disk, copies, original);
  }

  /** The promoted copy is in the original's place: old sidecars go, and it is opened. */
  method OpenPromoted(disk: Disk, ghost original: Files) returns (works: bool)
    requires AlwaysSafe(original, disk.history) && Holds(disk.files, Backup, original, Whole)
    modifies disk`files, disk`history, disk`failed, disk`ran, disk`stuck
    ensures AlwaysSafe(original, disk.history) && Holds(disk.files, Backup, original, Whole) && old(disk.history) <= disk.history
    ensures old(disk.stuck) ==> disk.stuck
    ensures disk.ran == old(disk.ran) + [Trial(Path, works, |disk.history|)] && (disk.failed <==> old(disk.failed) || !works)
    ensures SameBut(old(disk.files), disk.files, Family(Path)) && disk.history != [] && disk.history[|disk.history| - 1] == disk.files
  {
    RemoveSidecars(disk, original);
    ghost var before, start := disk.history, disk.files;
    works := disk.Run(Path);
    BackupSteps(original, before, disk.history, start, disk.files, Family(Path));
  }

  lemma BackupStays(original: Files, start: Files, now: Files)
    requires BackedUp(original, start) && SameBut(start, now, Family(Path) + {Name(Temporary, Whole)})
    ensures BackedUp(original, now)
  {
  }

  /** The last state before the backups go is safe, and after it only backups change. */
  lemma OnlyBackupsGo(before: seq<Files>, after: seq<Files>, start: Files, now: Files, names: set<Name>)
    requires before != [] && before[|before| - 1] == start && forall n | n in names :: n.base == Backup
    requires |before| <= |after| && after[..|before|] == before && SameBut(start, now, names)
    requires forall f | f in after[|before|..] :: SameBut(start, f, names)
    ensures SameBut(start, now, Family(Backup)) && after[|before| - 1] == start
    ensures forall f | f in after[|before|..] :: SameBut(start, f, Family(Backup))
  {
    Wider(start, now, names);
    forall f | f in after[|before|..] ensures SameBut(start, f, Family(Backup)) {
      Wider(start, f, names);
    }
  }

  /** The promoted copy has opened: the backups go, and nothing else changes. */
  method DropBackups(disk: Disk, copies: set<Name>)
    requires disk.history != [] && disk.history[|disk.history| - 1] == disk.files && forall n | n in copies :: n.base == Backup
    modifies disk`files, disk`history, disk`stuck
    ensures old(disk.history) <= disk.history && SameBut(old(disk.files), disk.files, Family(Backup))
    ensures (old(disk.stuck) ==> disk.stuck) && (!disk.stuck ==> NoneBut(disk.files, old(disk.files), copies))
    ensures forall f | f in disk.history[|old(disk.history)|..] :: SameBut(old(disk.files), f, Family(Backup))
  {
    ghost var before, start := disk.history, disk.files;
    RemoveFiles(disk, copies);
    hide SameBut;
    OnlyBackupsGo(before, disk.history, start, disk.files, copies);
  }

  /** Nothing has been promoted: the backups go, and the original is where it was. */
  method RemoveBackups(disk: Disk, copies: set<Name>, ghost original: Files)
    requires Untouched(original, disk.files) && AlwaysSafe(original, disk.history) && Name(Path, Whole) in original
    requires forall n | n in copies :: n.base == Backup
    modifies disk`files, disk`history, disk`stuck
    ensures Untouched(original, disk.files) && AlwaysSafe(original, disk.history) && old(disk.history) <= disk.history
    ensures (old(disk.stuck) ==> disk.stuck) && (!disk.stuck ==> NoneBut(disk.files, old(disk.files), copies))
  {
    ghost var before, start := disk.history, disk.files;
    RemoveFiles(disk, copies);
    SafeSteps(original, before, disk.history, start, disk.files, copies);
  }

  /** The rename that puts the copy, as it then is, in the original's place. */
  ghost predicate Promotes(m: Move, f: Files, history: seq<Files>) {
    && m.source == Name(Temporary, Whole) && m.destination == Name(Path, Whole) && m.ok && 0 < m.end <= |history|
    && m.source in f && m.destination in history[m.end - 1] && history[m.end - 1][m.destination] == f[m.source]
  }

  /** The promoted copy is opened; if it does not open, the backup goes back. */
  method OpenOrRestore(disk: Disk, copies: set<Name>, ghost original: Files) returns (r: Result, ghost point: nat)
    requires AlwaysSafe(original, disk.history) && Name(Temporary, Whole) !in disk.files
    requires Holds(disk.files, Backup, original, Whole) && Name(Backup, Whole) in copies && forall n | n in copies :: n.base == Backup
    requires !disk.misled ==> BackedUp(original, disk.files) && forall part | Name(Path, part) in original :: Name(Backup, part) in copies
    modifies disk
    ensures (old(disk.misled) ==> disk.misled) && (old(disk.stuck) ==> disk.stuck) && (r.Failed? || old(disk.failed) ==> disk.failed)
    ensures old(disk.history) <= disk.history && old(disk.moved) <= disk.moved && Name(Temporary, Whole) !in disk.files
    ensures r.Opened? && !disk.stuck ==> NoneBut(disk.files, old(disk.files), copies)
    ensures |disk.ran| == |old(disk.ran)| + 1 && disk.ran[..|old(disk.ran)|] == old(disk.ran)
    ensures var last := disk.ran[|disk.ran| - 1]; last.base == Path && (last.ok <==> r.Opened?)
    ensures r.Opened? ==> point == disk.ran[|disk.ran| - 1].end && disk.moved == old(disk.moved)
    ensures r.Failed? && !disk.misled && AllMoved(disk.moved) ==> Returned(original, disk.files)
    ensures r.Failed? ==> AlwaysSafe(original, disk.history) && Safe(original, disk.files) && (!disk.misled ==> Preserved(original, disk.files, r.named))
    ensures r.Opened? ==> 0 < point <= |disk.history| && AlwaysSafe(original, disk.history[..point])
    ensures r.Opened? ==> SameBut(disk.history[point - 1], disk.files, Family(Backup))
                          && forall f | f in disk.history[point..] :: SameBut(disk.history[point - 1], f, Family(Backup))
  {
    hide AllMoved, Returned, Preserved, BackedUp;
    ghost var first := disk.files;
    point := 0;
    var works := OpenPromoted(disk, original);
    NoMoreElsewhere(first, disk.files, Family(Path), Backup);
    if works {
      point := |disk.history|;
      ghost var tried := disk.files;
      DropBackups(disk, copies);
      if !disk.stuck {
        NoneSince(disk.files, tried, first, copies);
      }
      return Opened, point;
    }
    if !disk.misled {
      BackupStays(original, first, disk.files);
    }
    var named := Restore(disk, copies, original);
    return Failed(named), 0;
  }

  /** The promoted copy takes the original's place and is opened; if it does not open, the backup goes back. */
  method Promote(disk: Disk, copies: set<Name>, ghost original: Files) returns (r: Result, promoted: bool, ghost point: nat)
    requires disk.moved == []
    requires Untouched(original, disk.files) && AlwaysSafe(original, disk.history) && Name(Path, Whole) in original
    requires Holds(disk.files, Backup, original, Whole) && Name(Backup, Whole) in copies && forall n | n in copies :: n.base == Backup
    requires !disk.misled ==> BackedUp(original, disk.files) && forall part | Name(Path, part) in original :: Name(Backup, part) in copies
    modifies disk
    ensures old(disk.misled) ==> disk.misled
    ensures old(disk.history) <= disk.history && (old(disk.failed) ==> disk.failed)
    ensures old(disk.stuck) ==> disk.stuck
    ensures promoted ==> Name(Temporary, Whole) !in disk.files
    ensures (r.Opened? || !promoted) && !disk.stuck ==> NoneBut(disk.files, old(disk.files), copies)
    ensures !promoted ==> disk.ran == old(disk.ran) && r.Failed? && !AllMoved(disk.moved)
    ensures promoted ==> |disk.ran| == |old(disk.ran)| + 1 && disk.ran[..|old(disk.ran)|] == old(disk.ran)
    ensures promoted ==> var last := disk.ran[|disk.ran| - 1]; last.base == Path && (last.ok <==> r.Opened?)
    ensures promoted ==> disk.moved != [] && Promotes(disk.moved[0], old(disk.files), disk.history)
    ensures r.Opened? ==> promoted && point == disk.ran[|disk.ran| - 1].end && |disk.moved| == 1
    ensures r.Failed? ==> disk.failed
    ensures r.Failed? && !disk.misled && AllMoved(disk.moved) ==> Returned(original, disk.files)
    ensures r.Failed? ==> AlwaysSafe(original, disk.history) && Safe(original, disk.files) && (!disk.misled ==> Preserved(original, disk.files, r.named))
    ensures r.Opened? ==> 0 < point <= |disk.history| && AlwaysSafe(original, disk.history[..point])
    ensures r.Opened? ==> SameBut(disk.history[point - 1], disk.files, Family(Backup))
                          && forall f | f in disk.history[point..] :: SameBut(disk.history[point - 1], f, Family(Backup))
  {
    point := 0;
    ghost var before, first := disk.history, disk.files;
    hide AllMoved, Returned, Preserved, BackedUp, NoneBut, NoMore;
    promoted := disk.Rename(Name(Temporary, Whole), Name(Path, Whole));
    if !promoted {
      NotAllMoved(disk.moved);
      UntouchedIsSafe(original, disk.files);
      Append(original, before, disk.files);
      RemoveBackups(disk, copies, original);
      UntouchedIsSafe(original, disk.files);
      return Failed({}), false, 0;
    }
    Append(original, before, disk.files);
    RenamedSame(first, disk.files);
    if !disk.misled {
      BackupStays(original, first, disk.files);
    }
    ghost var renamed := disk.files;
    r, point := OpenOrRestore(disk, copies, original);
    if r.Opened? && !disk.stuck {
      NoneSince(disk.files, renamed, first, copies);
    }
  }

  /** Removing what is left of the copy harms nothing. */
  lemma CleanSteps(original: Files, before: seq<Files>, after: seq<Files>, start: Files, now: Files, named: set<Name>)
    requires AlwaysSafe(original, before) && Safe(original, start)
    requires |before| <= |after| && after[..|before|] == before && SameBut(start, now, Family(Temporary))
    requires forall f | f in after[|before|..] :: SameBut(start, f, Family(Temporary))
    ensures AlwaysSafe(original, after) && Safe(original, now)
    ensures Preserved(original, start, named) ==> Preserved(original, now, named)
    ensures Returned(original, start) ==> Returned(original, now)
  {
    forall f | f in after ensures Safe(original, f) {
      assert after == after[..|before|] + after[|before|..];
    }
  }

  lemma PrefixSafe(original: Files, before: seq<Files>, after: seq<Files>, point: nat)
    requires point <= |before| <= |after| && after[..|before|] == before && AlwaysSafe(original, before[..point])
    ensures AlwaysSafe(original, after[..point])
  {
    assert after[..point] == before[..point];
  }

  lemma OthersAlike(last: Files, before: seq<Files>, after: seq<Files>, start: Files, point: nat)
    requires point <= |before| <= |after| && after[..|before|] == before && SameBut(last, start, Family(Backup))
    requires forall f | f in before[point..] :: SameBut(last, f, Family(Backup))
    requires forall f | f in after[|before|..] :: SameBut(start, f, Family(Temporary))
    ensures forall f | f in after[point..] :: SameBut(last, f, Family(Temporary) + Family(Backup))
  {
    assert after[point..] == before[point..] + after[|before|..];
  }

  lemma PromotesSame(m: Move, f: Files, g: Files, history: seq<Files>)
    requires Promotes(m, f, history) && SameBut(g, f, Family(Backup))
    ensures Promotes(m, g, history)
  {
  }

  lemma WorksOnce(ran: seq<Trial>)
    requires 2 <= |ran| <= 3 && ran[0].base == Temporary && ran[1].base == Temporary && ran[0].ok && ran[1].ok
    requires |ran| == 3 ==> ran[2].base == Path
    ensures Works(ran) <==> exists t :: t in ran && t.base == Path && t.ok
    ensures (exists t :: t in ran && t.base == Path) ==> |ran| == 3
  {
    if t :| t in ran && t.base == Path {
      var i :| 0 <= i < |ran| && ran[i] == t;
      assert i == 2;
    }
    if Works(ran) {
      assert ran[2] in ran;
    }
  }

  /** The promotion as seen from the end of the history. */
  lemma StillPromotes(m: Move, f: Files, before: seq<Files>, after: seq<Files>)
    requires Promotes(m, f, before) && before <= after
    ensures Promotes(m, f, after)
  {
  }

  method PromoteAndCleanUp(disk: Disk, copies: set<Name>, ghost original: Files) returns (r: Result, ghost point: nat)
    requires disk.moved == [] && |disk.ran| == 2 && (forall t | t in disk.ran :: t.base == Temporary && t.ok)
    requires Untouched(original, disk.files) && AlwaysSafe(original, disk.history) && Name(Path, Whole) in original
    requires Holds(disk.files, Backup, original, Whole) && Name(Backup, Whole) in copies && forall n | n in copies :: n.base == Backup
    requires !disk.misled ==> BackedUp(original, disk.files) && forall part | Name(Path, part) in original :: Name(Backup, part) in copies
    modifies disk
    ensures old(disk.history) <= disk.history && (r.Failed? || old(disk.failed) ==> disk.failed)
    ensures old(disk.ran) <= disk.ran && |disk.ran| <= 3 && (|disk.ran| == 3 ==> disk.ran[2].base == Path)
    ensures r.Opened? <==> Works(disk.ran)
    ensures |disk.ran| > 2 ==> disk.moved != [] && Promotes(disk.moved[0], old(disk.files), disk.history)
    ensures |disk.ran| == 2 ==> !AllMoved(disk.moved)
    ensures !disk.stuck ==> None(disk.files, Temporary)
    ensures r.Opened? && !disk.stuck ==> NoneBut(disk.files, old(disk.files), copies)
    ensures r.Failed? ==> AlwaysSafe(original, disk.history)
    ensures r.Failed? && !disk.misled ==> Preserved(original, disk.files, r.named)
    ensures r.Failed? && !disk.misled && AllMoved(disk.moved) ==> Returned(original, disk.files)
    ensures r.Opened? ==> 0 < point <= |disk.history| && AlwaysSafe(original, disk.history[..point]) && point == disk.ran[2].end
    ensures r.Opened? ==> forall f | f in disk.history[point..] :: SameBut(disk.history[point - 1], f, Family(Temporary) + Family(Backup))
  {
    hide Preserved, SameBut, AlwaysSafe, Safe, BackedUp, Returned, AllMoved, Promotes, NoneBut;
    var promoted: bool;
    r, promoted, point := Promote(disk, copies, original);
    ghost var before, start := disk.history, disk.files;
    CleanUp(disk, promoted);
    if promoted {
      StillPromotes(disk.moved[0], old(disk.files), before, disk.history);
    }
    if r.Failed? {
      CleanSteps(original, before, disk.history, start, disk.files, r.named);
    } else {
      PrefixSafe(original, before, disk.history, point);
      if NoneBut(start, old(disk.files), copies) {
        StillNone(start, disk.files, old(disk.files), copies);
      }
      OthersAlike(before[point - 1], before, disk.history, start, point);
    }
  }

  /** Nothing has been promoted: what is left of the copy goes. */
  method Discard(disk: Disk, ghost original: Files)
    requires Untouched(original, disk.files) && AlwaysSafe(original, disk.history) && Name(Path, Whole) in original
    modifies disk`files, disk`history, disk`stuck
    ensures Untouched(original, disk.files) && AlwaysSafe(original, disk.history) && old(disk.history) <= disk.history
    ensures !disk.stuck ==> None(disk.files, Temporary)
  {
    ghost var before, start := disk.history, disk.files;
    CleanUp(disk, false);
    SafeSteps(original, before, disk.history, start, disk.files, Family(Temporary));
  }

  /** The copy was opened and closed, and then the database in its place was opened, each without fault. */
  predicate Works(ran: seq<Trial>) {
    && |ran| == 3 && ran[0].base == Temporary && ran[1].base == Temporary && ran[2].base == Path
    && ran[0].ok && ran[1].ok && ran[2].ok
  }

  /** `openStorePreservingFailures` for a path that exists. It succeeds exactly if the database has opened in its place, and
      without a failure it does. Only what a faultless trial has left of the copy is ever put there. At every step until
      the promoted copy has opened, the original main file is at its path or in its backup; on every error each original file is
      in place, or in a backup that the error names, and in place if no rename failed, provided no existence check failed on a
      file that was there. */
  method OpenPreservingFailures(disk: Disk, regular: bool) returns (r: Result, ghost point: nat)
    requires Name(Path, Whole) in disk.files && disk.Untried()
    modifies disk
    ensures r.Opened? <==> Works(disk.ran)
    ensures r.Opened? <==> exists t :: t in disk.ran && t.base == Path && t.ok
    ensures regular && !disk.failed ==> r.Opened?
    ensures !disk.stuck && None(old(disk.files), Temporary) ==> None(disk.files, Temporary)
    ensures !disk.stuck && None(old(disk.files), Backup) && r.Opened? ==> None(disk.files, Backup)
    ensures forall t | t in disk.ran && t.base == Path ::
              |disk.ran| == 3 && disk.ran[0].ok && disk.ran[1].ok && 0 < disk.ran[1].end <= |disk.history|
              && disk.moved != [] && Promotes(disk.moved[0], disk.history[disk.ran[1].end - 1], disk.history)
    ensures r.Failed? ==> AlwaysSafe(old(disk.files), disk.history)
    ensures r.Failed? && !disk.misled ==> Preserved(old(disk.files), disk.files, r.named)
    ensures r.Failed? && !disk.misled && AllMoved(disk.moved) ==> Returned(old(disk.files), disk.files)
    ensures r.Opened? ==> 0 < point <= |disk.history| && AlwaysSafe(old(disk.files), disk.history[..point]) && point == disk.ran[2].end
    ensures r.Opened? ==> forall f | f in disk.history[point..] :: SameBut(disk.history[point - 1], f, Family(Temporary) + Family(Backup))
  {
    hide Untouched, AlwaysSafe, Safe, Preserved, Returned, AllMoved, BackedUp, SameBut, Promotes;
    ghost var original := disk.files;
    point := 0;
    Begins(original);
    UntouchedIsSafe(original, disk.files);
    var known := disk.Info(Name(Path, Whole));
    if !known || !regular {
      return Failed({}), 0;
    }
    ghost var before, start := disk.history, disk.files;
    var created := disk.CreateTemporary();
    SafeSteps(original, before, disk.history, start, disk.files, {Name(Temporary, Whole)});
    UntouchedIsSafe(original, disk.files);
    NoMoreElsewhere(original, disk.files, {Name(Temporary, Whole)}, Backup);
    if !created {
      return Failed({}), 0;
    }
    var ok := Check(disk, original);
    ghost var left := disk.files;
    var copies: set<Name> := {};
    if ok {
      ok, copies := MakeBackup(disk, original);
    }
    if !ok {
      Discard(disk, original);
      UntouchedIsSafe(original, disk.files);
      return Failed({}), 0;
    }
    ghost var end, history := disk.ran[1].end, disk.history;
    assert history[end - 1] == left;
    before, start := disk.history, disk.files;
    r, point := PromoteAndCleanUp(disk, copies, original);
    WorksOnce(disk.ran);
    if |disk.ran| == 3 {
      assert disk.history[end - 1] == history[end - 1];
      PromotesSame(disk.moved[0], start, left, disk.history);
    }
  }
}
