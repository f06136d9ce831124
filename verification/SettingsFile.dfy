/**
 The code that saves the settings file, run on the disk of `SettingsDisk` with savers of other
 processes taking their steps between any two of its own, and the code that loads it, run on one
 folder whose every operation may fail.
 */
module SettingsFiles {
  import opened Common
  import opened SettingsDisk

  // ---- Saving -----------------------------------------------------------------------------

  // A step of another process: neither of writer `w` nor of a save of process `pid`.
  predicate OfAnother(d: Disk, a: Action, w: nat, pid: nat) {
    match a
    case Open(v, p, _, _) => v != w && p != pid && forall u <- d.writers :: d.writers[u].pid != p
    case Write(v, _) => v != w && v in d.writers && d.writers[v].pid != pid
    case Sync(v) => v != w && v in d.writers && d.writers[v].pid != pid
    case Rename(v) => v != w && v in d.writers && d.writers[v].pid != pid
    case GiveUp(v, _) => v != w && v in d.writers && d.writers[v].pid != pid
    case Crash(_, _) => false
  }

  // What a saver finds as it left it, whatever the others did.
  ghost predicate Undisturbed(d: Disk, d': Disk, w: nat, pid: nat) {
    && Inv(d') && Alone(d', w, pid)
    && (w in d.writers ==> w in d'.writers && d'.writers[w] == d.writers[w])
    && (w !in d.writers ==> w !in d'.writers)
    && (w in d'.renamed <==> w in d.renamed)
  }

  // No other save of the process is in progress.
  ghost predicate Alone(d: Disk, w: nat, pid: nat) {
    && (forall v <- d.writers :: v != w ==> d.writers[v].pid != pid)
    && (w in d.writers ==> d.writers[w].pid == pid)
  }

  lemma OtherUndisturbed(d: Disk, a: Action, w: nat, pid: nat)
    requires Inv(d) && Alone(d, w, pid) && Enabled(d, a) && OfAnother(d, a, w, pid)
    ensures Undisturbed(d, Apply(d, a), w, pid)
  {
    Keeps(d, a);
  }

  class Volume {
    var disk: Disk
    var nextFile: Inode
    ghost var refused: nat  // how many of the saver's operations the system refused

    ghost predicate Valid()
      reads this
    {
      Inv(disk) && forall n <- disk.files :: n < nextFile
    }

    // Whether the system does what it is asked.
    method Attempt() returns (ok: bool)
      modifies `refused
      ensures refused == old(refused) + if ok then 0 else 1
    {
      ok := *;
      refused := refused + if ok then 0 else 1;
    }

    method OtherSavers(w: nat, pid: nat)
      requires Valid() && Alone(disk, w, pid)
      modifies `disk, `nextFile
      ensures Valid() && Undisturbed(old(disk), disk, w, pid)
    {
      var n: nat :| true;
      while n > 0
        invariant Valid() && Undisturbed(old(disk), disk, w, pid)
      {
        var a: Action := *;
        if Enabled(disk, a) && OfAnother(disk, a, w, pid) {
          OtherUndisturbed(disk, a, w, pid);
          nextFile := if a.Open? && a.unused >= nextFile then a.unused + 1 else nextFile;
          disk := Apply(disk, a);
        }
        n := n - 1;
      }
    }

    // One step of this saver, after any of the others'.
    ghost predicate Mine(w: nat, pid: nat, value: Bytes)
      reads this
    {
      && Valid() && Alone(disk, w, pid)
      && w in disk.writers && disk.writers[w].value == value && w !in disk.renamed
    }

    method OpenTemp(w: nat, pid: nat, value: Bytes)
      requires Valid() && Alone(disk, w, pid) && w !in disk.writers && w !in disk.renamed
      modifies `disk, `nextFile
      ensures Mine(w, pid, value) && disk.writers[w].written == 0 && !disk.writers[w].synced
    {
      Keeps(disk, Open(w, pid, value, nextFile));
      disk := Apply(disk, Open(w, pid, value, nextFile));
      nextFile := nextFile + 1;
    }

    method WriteAll(w: nat, pid: nat, value: Bytes) returns (ok: bool)
      requires Mine(w, pid, value) && disk.writers[w].written == 0 && !disk.writers[w].synced
      modifies this
      ensures Mine(w, pid, value) && !disk.writers[w].synced
      ensures ok ==> disk.writers[w].written == |value|
      ensures if ok then refused == old(refused) else refused > old(refused)
    {
      var written := 0;
      while written < |value|
        invariant Mine(w, pid, value) && !disk.writers[w].synced && refused == old(refused)
        invariant disk.writers[w].written == written <= |value|
      {
        OtherSavers(w, pid);
        ok := Attempt();
        if !ok { return; }
        var count: nat :| 1 <= count <= |value| - written;
        assert WriterOk(disk, w);
        Keeps(disk, Write(w, count));
        disk := Apply(disk, Write(w, count));
        written := written + count;
      }
      ok := true;
    }

    method SyncAll(w: nat, pid: nat, value: Bytes) returns (ok: bool)
      requires Mine(w, pid, value) && disk.writers[w].written == |value|
      modifies this
      ensures Mine(w, pid, value) && (ok ==> disk.writers[w].synced)
      ensures if ok then refused == old(refused) else refused > old(refused)
    {
      OtherSavers(w, pid);
      ok := Attempt();
      if ok {
        assert WriterOk(disk, w);
        Keeps(disk, Sync(w));
        disk := Apply(disk, Sync(w));
      }
    }

    method RenameOver(w: nat, pid: nat, value: Bytes) returns (ok: bool)
      requires Mine(w, pid, value) && disk.writers[w].synced
      modifies this
      ensures ok ==> Valid() && Alone(disk, w, pid) && w !in disk.writers && w in disk.renamed && Content(disk) == Some(value)
      ensures !ok ==> Mine(w, pid, value)
      ensures if ok then refused == old(refused) else refused > old(refused)
    {
      OtherSavers(w, pid);
      ok := Attempt();
      if ok {
        assert WriterOk(disk, w);
        OnlyARenameChanges(disk, Rename(w));
        Keeps(disk, Rename(w));
        disk := Apply(disk, Rename(w));
      }
    }

    method RemoveTemp(w: nat, pid: nat, value: Bytes)
      requires Mine(w, pid, value)
      modifies this
      ensures Valid() && Alone(disk, w, pid) && w !in disk.writers && w !in disk.renamed && refused >= old(refused)
    {
      OtherSavers(w, pid);
      var removed := Attempt();
      Keeps(disk, GiveUp(w, removed));
      disk := Apply(disk, GiveUp(w, removed));
    }

    /** A save that reports success has renamed its whole value into place; one that reports an error
        never touched the settings, and reports it only if the system refused something. */
    method WriteJson(w: nat, pid: nat, value: Bytes) returns (ok: bool)
      requires Valid() && Alone(disk, w, pid) && w !in disk.writers && w !in disk.renamed
      modifies this
      ensures Valid() && Alone(disk, w, pid) && w !in disk.writers
      ensures ok <==> w in disk.renamed
      ensures ok ==> Content(disk) == Some(value)
      ensures if ok then refused == old(refused) else refused > old(refused)
    {
      OtherSavers(w, pid);
      // The folder cannot be made, the value cannot be encoded, or the file cannot be opened.
      ok := Attempt();
      if !ok { return; }
      OpenTemp(w, pid, value);
      ok := WriteAll(w, pid, value);
      if ok {
        ok := SyncAll(w, pid, value);
      }
      if ok {
        ok := RenameOver(w, pid, value);
      }
      if !ok {
        RemoveTemp(w, pid, value);
      }
    }
  }

  // ---- Loading ----------------------------------------------------------------------------

  datatype Load = Read | KeptUnreadable

  /** The settings file, the copy of an unreadable one kept beside it, and what of the settings type
      the loader needs: reading a text, the default, and its text. */
  class SettingsFolder<T(==)> {
    var settings: Option<Bytes>
    var kept: Option<Bytes>
    const parse: Bytes -> Option<T>
    const initial: T
    const initialText: Bytes

    constructor (settings: Option<Bytes>, kept: Option<Bytes>, parse: Bytes -> Option<T>, initial: T, initialText: Bytes)
      ensures this.settings == settings && this.kept == kept && this.parse == parse
      ensures this.initial == initial && this.initialText == initialText
    {
      this.settings, this.kept, this.parse, this.initial, this.initialText := settings, kept, parse, initial, initialText;
    }

    // An older copy is removed first, if it can be; then the file is moved or, failing that, copied.
    // A copy that fails leaves a part.
    method KeepUnreadable(removable: bool, movable: bool, copyable: bool) returns (done: bool)
      requires settings.Some?
      modifies this
      ensures done <==> movable || copyable
      ensures done ==> kept == old(settings)
      ensures settings == if movable then None else old(settings)
    {
      if removable {
        kept := None;
      }
      if movable {
        kept, settings := settings, None;
        return true;
      }
      done := copyable;
      if done {
        kept := settings;
      } else {
        var part: nat :| true;
        kept := if part <= |settings.value| then Some(settings.value[..part]) else kept;
      }
    }

    /** What a missing, readable, unreadable or inaccessible file loads as, and that no bytes the user
        had are lost: an unreadable file is under its own name, or whole under the other. */
    method LoadSettingsReporting(accessible: bool, writable: bool, removable: bool, movable: bool, copyable: bool)
      returns (result: Option<(T, Load)>)
      modifies this
      ensures !accessible ==> result == Some((initial, Read)) && settings == old(settings) && kept == old(kept)
      ensures accessible && old(settings).None? ==>
                && kept == old(kept)
                && result == (if writable then Some((initial, Read)) else None)
                && settings == (if writable then Some(initialText) else None)
      ensures accessible && old(settings).Some? ==>
                match parse(old(settings).value)
                case Some(value) => result == Some((value, Read)) && settings == old(settings) && kept == old(kept)
                case None =>
                  && result == Some((initial, if movable || copyable then KeptUnreadable else Read))
                  && settings == (if movable then None else old(settings))
                  && (movable || copyable ==> kept == old(settings))
    {
      if !accessible {
        return Some((initial, Read));
      }
      if settings.None? {
        if !writable { return None; }
        settings := Some(initialText);
        return Some((initial, Read));
      }
      var value := parse(settings.value);
      if value.Some? {
        return Some((value.value, Read));
      }
      var done := KeepUnreadable(removable, movable, copyable);
      result := Some((initial, if done then KeptUnreadable else Read));
    }
  }
}
