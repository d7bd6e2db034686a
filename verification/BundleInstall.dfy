/** Installing a bundle: the runtime tree is written beside its destination and
    swapped in by renames, with the old tree kept at dest.old in between. */
module BundleInstall {
  import opened Common
  import opened Envelope
  import opened BundleArchive

  /** The three directories involved, as far as they exist. */
  datatype Dirs = Dirs(dest: Option<Tree>, backup: Option<Tree>, tmp: Option<Tree>)

  /** Which file-system calls fail. A failed RemoveAll may leave any part behind;
      `blocked` is a Stat that fails for another reason than a missing entry. Whether
      a rename may replace an empty directory depends on the system. */
  datatype Faults = Faults(
    firstRemove: Option<Option<Tree>>, blocked: bool, renameAway: bool, overEmpty: bool, renameIn: bool, renameBack: bool,
    lastRemove: Option<Option<Tree>>)

  const NO_FAULTS := Faults(None, false, false, false, false, false, None)

  /** What a RemoveAll leaves of a directory. */
  function Remains(dir: Option<Tree>, failure: Option<Option<Tree>>): Option<Tree> {
    if failure.Some? && dir.Some? then failure.value else None
  }

  /** Nothing is in the way of a rename. */
  predicate Clear(target: Option<Tree>, overEmpty: bool) {
    target.None? || (overEmpty && target.value == map[])
  }

  /** One of the two complete trees is where it can be found. */
  predicate Complete(d: Dirs, old_: Tree, new_: Tree) {
    d.dest in {Some(old_), Some(new_)} || d.backup in {Some(old_), Some(new_)}
  }

  ghost predicate Throughout(states: seq<Dirs>, old_: Tree, new_: Tree) {
    forall s | s in states :: Complete(s, old_, new_)
  }

  /** Swapping `new_` in where there was no destination: a complete tree is there in
      all these states exactly when it is the one left beside the destination. */
  ghost predicate LeftBeside(states: seq<Dirs>, left: Option<Tree>, new_: Tree) {
    forall old_: Tree :: Throughout(states, old_, new_) <==> left in {Some(old_), Some(new_)}
  }

  lemma WithoutDest(first: Dirs, states: seq<Dirs>, new_: Tree)
    requires first in states && first.dest.None?
    requires forall s | s in states :: s == first || s.dest == Some(new_)
    ensures LeftBeside(states, first.backup, new_)
  {
    forall old_: Tree ensures Throughout(states, old_, new_) <==> first.backup in {Some(old_), Some(new_)} {
      assert Complete(first, old_, new_) <==> first.backup in {Some(old_), Some(new_)};
    }
  }

  class Disk {
    var dest: Option<Tree>
    var backup: Option<Tree>
    var tmp: Option<Tree>
    /** Every state the directories were in, after each file-system call. */
    ghost var history: seq<Dirs>

    ghost function Now(): Dirs
      reads `dest, `backup, `tmp
    {
      Dirs(dest, backup, tmp)
    }

    constructor (dest: Option<Tree>, backup: Option<Tree>)
      ensures Now() == Dirs(dest, backup, None) && history == []
    {
      this.dest, this.backup, tmp, history := dest, backup, None, [];
    }

    /** os.RemoveAll(dest.old), whose error is ignored. */
    method RemoveBackup(failure: Option<Option<Tree>>)
      modifies `backup, `history
      ensures backup == Remains(old(backup), failure)
      ensures history == old(history) + [Now()]
    {
      backup := if failure.Some? && backup.Some? then failure.value else None;
      history := history + [Now()];
    }

    /** os.Rename(dest, dest.old): fails when something is in the way. */
    method RenameAway(fails: bool, overEmpty: bool) returns (ok: bool)
      requires dest.Some?
      modifies `dest, `backup, `history
      ensures ok == (!fails && Clear(old(backup), overEmpty))
      ensures Now() == if ok then Dirs(None, old(dest), tmp) else old(Now())
      ensures history == old(history) + [Now()]
    {
      ok := !fails && (backup.None? || (overEmpty && backup.value == map[]));
      if ok {
        dest, backup := None, dest;
      }
      history := history + [Now()];
    }

    /** os.Rename(tmp, dest) */
    method RenameIn(fails: bool) returns (ok: bool)
      requires dest.None? && tmp.Some?
      modifies `dest, `tmp, `history
      ensures ok == !fails
      ensures Now() == if ok then Dirs(old(tmp), backup, None) else old(Now())
      ensures history == old(history) + [Now()]
    {
      ok := !fails;
      if ok {
        dest, tmp := tmp, None;
      }
      history := history + [Now()];
    }

    /** os.Rename(dest.old, dest), whose error is ignored. */
    method RenameBack(fails: bool)
      requires dest.None?
      modifies `dest, `backup, `history
      ensures Now() == if fails then old(Now()) else Dirs(old(backup), None, tmp)
      ensures history == old(history) + [Now()]
    {
      if !fails {
        dest, backup := backup, None;
      }
      history := history + [Now()];
    }

    /** replaceDirAtomically. When there was a destination, a complete old or new
        tree sits at dest or dest.old after every single call, whatever fails. When
        there was none, this is so exactly when the first RemoveAll leaves such a
        tree at dest.old. */
    method ReplaceDir(f: Faults) returns (ok: bool)
      requires tmp.Some?
      modifies this
      ensures ok <==> !f.blocked && !f.renameIn &&
                      (old(dest).Some? ==> !f.renameAway && Clear(Remains(old(backup), f.firstRemove), f.overEmpty))
      ensures var left := Remains(old(backup), f.firstRemove);
              Now() == if ok then Dirs(old(tmp), Remains(if old(dest).Some? then old(dest) else left, f.lastRemove), None)
                       else if old(dest).None? || f.blocked || f.renameAway || !Clear(left, f.overEmpty)
                       then Dirs(old(dest), left, old(tmp))
                       else if f.renameBack then Dirs(None, old(dest), old(tmp))
                       else Dirs(old(dest), None, old(tmp))
      ensures |history| > |old(history)| && history[..|old(history)|] == old(history)
      ensures old(dest).Some? ==> Throughout(history[|old(history)|..], old(dest).value, old(tmp).value)
      ensures old(dest).None? ==>
                LeftBeside(history[|old(history)|..], Remains(old(backup), f.firstRemove), old(tmp).value)
    {
      hide LeftBeside;
      ghost var h, new_ := |history|, tmp.value;
      RemoveBackup(f.firstRemove);
      ghost var first := Now();
      assert history[h..] == [first];
      if dest.None? {
        WithoutDest(first, [first], new_);
      }
      var hadDest := false;
      if f.blocked {
        return false;
      }
      if dest.Some? {
        var moved := RenameAway(f.renameAway, f.overEmpty);
        if !moved {
          return false;
        }
        hadDest := true;
      }
      var installed := RenameIn(f.renameIn);
      if !hadDest {
        assert history[h..] == [first, Now()];
        WithoutDest(first, [first, Now()], new_);
      }
      if !installed {
        if hadDest {
          RenameBack(f.renameBack);
        }
        return false;
      }
      ghost var second := Now();
      RemoveBackup(f.lastRemove);
      if !hadDest {
        assert history[h..] == [first, second, Now()];
        WithoutDest(first, [first, second, Now()], new_);
      }
      ok := true;
    }

    /** extract, from an envelope that opened: the archive must agree with its
        manifest; a destination that verifies is left alone; otherwise a fresh tree
        is written to tmp and swapped in, and tmp is removed if that fails.
        `writes` tells whether creating and writing tmp succeeds; it cannot when a
        file stands where another needs a directory. */
    method Extract(t: Tools, zip: seq<Entry>, header: Header, expected: string, writes: bool, f: Faults) returns (ok: bool)
      requires tmp.None?
      modifies this
      ensures tmp == None
      ensures ok ==> (expected == "" || header.buildId == expected) && GoodArchive(t, zip, header)
      ensures ok ==> dest.Some? && Verified(t, dest.value, ManifestIn(t, zip).value)
      ensures ok && !AlreadyThere(t, zip, header, old(dest)) ==>
                dest == Some(Installed(t, ManifestIn(t, zip).value, Payload(zip))) && Storable(dest.value)
      ensures AlreadyThere(t, zip, header, old(dest)) && (expected == "" || header.buildId == expected) ==>
                ok && Now() == old(Now()) && history == old(history)
      ensures !GoodArchive(t, zip, header) || (expected != "" && header.buildId != expected) ==>
                Now() == old(Now()) && history == old(history)
      ensures |history| >= |old(history)| && history[..|old(history)|] == old(history)
      ensures old(dest).Some? && GoodArchive(t, zip, header) ==>
                Throughout(history[|old(history)|..], old(dest).value,
                           Installed(t, ManifestIn(t, zip).value, Payload(zip)))
      ensures old(dest).None? && GoodArchive(t, zip, header) && history != old(history) ==>
                LeftBeside(history[|old(history)|..], Remains(old(backup), f.firstRemove),
                           Installed(t, ManifestIn(t, zip).value, Payload(zip)))
      ensures GoodArchive(t, zip, header) && !Storable(Installed(t, ManifestIn(t, zip).value, Payload(zip))) ==>
                Now() == old(Now()) && history == old(history)
    {
      hide GoodArchive, ManifestIn, Payload, Installed, Verified, Complete, LeftBeside, Storable;
      if expected != "" && header.buildId != expected {
        return false;
      }
      var r := ReadAndVerify(t, zip, header);
      if r.Err? {
        return false;
      }
      var manifest, entries := r.value.0, r.value.1;
      PathsAgree(t, zip, header);
      FilesSafe(t, zip, header);
      if dest.Some? {
        var same := VerifyExtracted(t, dest.value, manifest);
        if same {
          return true;
        }
      }
      if !writes {
        return false;
      }
      var tree := WriteTree(t, manifest, entries);
      if !Storable(tree) {
        return false;
      }
      InstalledVerifies(t, zip, header);
      tmp := Some(tree);
      ok := ReplaceDir(f);
      tmp := None;
    }
  }

  /** The destination is the tree of this very archive already. */
  predicate AlreadyThere(t: Tools, zip: seq<Entry>, header: Header, dest: Option<Tree>) {
    GoodArchive(t, zip, header) && dest.Some? && Verified(t, dest.value, ManifestIn(t, zip).value)
  }

  lemma FilesSafe(t: Tools, zip: seq<Entry>, header: Header)
    requires GoodArchive(t, zip, header)
    ensures var m := ManifestIn(t, zip).value; forall i | 0 <= i < |m.files| :: Safe(m.files[i].path)
  {
    PathsAgree(t, zip, header);
    var m := ManifestIn(t, zip).value;
    hide GoodArchive, ManifestIn, Payload, Safe;
    forall i | 0 <= i < |m.files| ensures Safe(m.files[i].path) {
      assert FileAgrees(t, Payload(zip), m.files[i]);
    }
  }

  /** Two extractions in a row: the second leaves every directory as the first did. */
  method ExtractTwice(
    disk: Disk, t: Tools, zip: seq<Entry>, header: Header, expected: string, writes: bool, f: Faults, g: Faults)
    returns (first: bool, second: bool, ghost between: (Dirs, seq<Dirs>))
    requires disk.tmp.None?
    modifies disk
    ensures first ==> second && disk.dest.Some? && GoodArchive(t, zip, header) &&
                      Verified(t, disk.dest.value, ManifestIn(t, zip).value)
    ensures |between.1| >= |old(disk.history)| && between.1[..|old(disk.history)|] == old(disk.history)
    ensures between.0.tmp == None && |disk.history| >= |between.1| && disk.history[..|between.1|] == between.1
    ensures first ==> between.0.dest.Some? && Verified(t, between.0.dest.value, ManifestIn(t, zip).value)
    ensures first ==> (disk.Now(), disk.history) == between
  {
    hide GoodArchive, ManifestIn, Verified;
    first := disk.Extract(t, zip, header, expected, writes, f);
    between := (disk.Now(), disk.history);
    second := disk.Extract(t, zip, header, expected, writes, g);
  }

  /** Without a destination the promise fails although no call does: a tree left at
      dest.old by an earlier crash is removed first, and for a moment there is no
      complete tree. */
  method LeftoverIsRemoved(old_: Tree, new_: Tree) returns (disk: Disk, ok: bool)
    ensures fresh(disk) && ok && disk.Now() == Dirs(Some(new_), None, None)
    ensures Complete(Dirs(None, Some(old_), Some(new_)), old_, new_) && !Throughout(disk.history, old_, new_)
  {
    disk := new Disk(None, Some(old_));
    disk.tmp := Some(new_);
    assert disk.history == [];
    ok := disk.ReplaceDir(NO_FAULTS);
    assert disk.history[0..] == disk.history;
    assert LeftBeside(disk.history, None, new_);
  }
}
