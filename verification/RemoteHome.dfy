/** Editing ~/.ssh/authorized_keys over SFTP (app/infrastructure/ssh_bootstrap.py). */
module RemoteHomes {
  import opened Wrappers
  import opened Text
  import opened AuthorizedKeys
  import opened SetupErrors

  /** A remote account's ~/.ssh: is it there, its authorized_keys, and its other files. */
  datatype Home = Home(sshDir: bool, keys: Option<string>, others: set<string>)

  predicate IsHome(home: Home) {
    !home.sshDir ==> home.keys.None? && home.others == {}
  }

  /** AuthorizedKeyInstall. */
  datatype Receipt = Receipt(publicKeyAdded: bool, sshDirCreated: bool, authorizedKeysCreated: bool)

  function Content(home: Home): string {
    if home.keys.Some? then home.keys.value else ""
  }

  /** The same home for every purpose but blank lines. */
  predicate SameHome(a: Home, b: Home) {
    && a.sshDir == b.sshDir && a.others == b.others && a.keys.Some? == b.keys.Some?
    && NonBlank(SplitLines(Content(a))) == NonBlank(SplitLines(Content(b)))
  }

  /** The state a successful install leaves, given what was there before. */
  predicate Installed(before: Home, after: Home, key: string, receipt: Receipt) {
    && KeyIdentity(key).Some?
    && after.sshDir && after.others == before.others && after.keys.Some?
    && receipt.sshDirCreated == !before.sshDir
    && receipt.authorizedKeysCreated == before.keys.None?
    && receipt.publicKeyAdded == !Lists(Content(before), KeyIdentity(key).value)
    && Content(after) == if receipt.publicKeyAdded then InstallText(Content(before), key) else Content(before)
  }

  /** How the system lets the steps of one install end. */
  datatype InstallFaults = InstallFaults(paths: bool, directory: Fault, read: Fault, permissions: bool, write: bool,
                                         undo: bool)

  /** How it lets the steps of undoing one end. */
  datatype UndoFaults = UndoFaults(directory: Fault, read: Fault, write: bool, readAgain: Fault, unlink: bool,
                                   rmdir: bool) {
    predicate Fine() {
      directory.Fine? && read.Fine? && write && readAgain.Fine? && unlink && rmdir
    }
  }

  /** An install of this key gets through. */
  predicate InstallComes(home: Home, key: string, f: InstallFaults) {
    && f.paths && KeyIdentity(key).Some? && f.directory.Fine? && f.read.Fine?
    && if Lists(Content(home), KeyIdentity(key).value) then f.permissions else f.write
  }

  /** One account's SFTP session. */
  class RemoteHome {
    var home: Home

    constructor (home: Home)
      requires IsHome(home)
      ensures this.home == home
    {
      this.home := home;
    }

    /** _ensure_ssh_directory: true when it created the directory. */
    method EnsureSshDirectory(f: Fault) returns (r: Result<bool>)
      requires IsHome(home)
      modifies this
      ensures IsHome(home)
      ensures r.Ok? <==> f.Fine?
      ensures r.Ok? ==> home == old(home).(sshDir := true) && r.value == !old(home).sshDir
      ensures r.Err? ==>
                && home == old(home)
                && r.error in {AuthorizedKeysUnsafe, AuthorizedKeysWriteFailed, Escaped(Elsewhere)}
    {
      if f.Escapes? {
        return Err(Escaped(Elsewhere));
      }
      if f.Refused? {
        var unsafe: bool := *;
        return Err(if unsafe then AuthorizedKeysUnsafe else AuthorizedKeysWriteFailed);
      }
      var created := !home.sshDir;
      home := home.(sshDir := true);
      return Ok(created);
    }

    /** _read_authorized_keys: the text and whether the file exists. */
    method ReadAuthorizedKeys(f: Fault) returns (r: Result<(string, bool)>)
      ensures r.Ok? <==> f.Fine?
      ensures r.Ok? ==> r.value == (Content(home), home.keys.Some?)
      ensures r.Err? ==> r.error in {AuthorizedKeysUnsafe, AuthorizedKeysWriteFailed, Escaped(ReadingAuthorizedKeys)}
      ensures r == Err(Escaped(ReadingAuthorizedKeys)) <==> f.Escapes?
    {
      if f.Escapes? {
        return Err(Escaped(ReadingAuthorizedKeys));
      }
      if f.Refused? {
        var unsafe: bool := *;
        return Err(if unsafe then AuthorizedKeysUnsafe else AuthorizedKeysWriteFailed);
      }
      return Ok(if home.keys.None? then ("", false) else (home.keys.value, true));
    }

    /** _replace_authorized_keys: the whole file is replaced, or nothing happens. */
    method ReplaceAuthorizedKeys(content: string, works: bool) returns (r: Result<()>)
      requires home.sshDir
      modifies this
      ensures r.Ok? <==> works
      ensures r.Ok? ==> home == old(home).(keys := Some(content))
      ensures r.Err? ==> home == old(home) && r.error == AuthorizedKeysWriteFailed
    {
      if !works {
        return Err(AuthorizedKeysWriteFailed);
      }
      home := home.(keys := Some(content));
      return Ok(());
    }

    /** _remove_empty_created_directory. */
    method RemoveEmptyDirectory(works: bool) returns (removed: bool)
      requires IsHome(home)
      modifies this
      ensures removed <==> works && old(home).keys.None? && old(home).others == {}
      ensures IsHome(home)
      ensures removed ==> old(home).keys.None? && old(home).others == {} && home == old(home).(sshDir := false)
      ensures !removed ==> home == old(home)
    {
      if !works || home.keys.Some? || home.others != {} {
        return false;
      }
      home := home.(sshDir := false);
      return true;
    }

    /**
     install_public_key: afterwards the key text is in the file unless its identity was listed. A
     failure leaves the home unchanged, except that a directory it created stays when it could
     not be removed, and when reading the file ended in an exception that is not a RABError.
     */
    method InstallPublicKey(key: string, f: InstallFaults) returns (r: Result<Receipt>)
      requires IsHome(home)
      modifies this
      ensures IsHome(home)
      ensures r.Ok? ==> Installed(old(home), home, key, r.value)
      ensures r.Ok? <==> InstallComes(old(home), key, f)
      ensures f.undo ==> r != Err(RollbackFailed)
      ensures r.Err? && r.error in {RollbackFailed, Escaped(ReadingAuthorizedKeys)} ==>
                home == old(home).(sshDir := true)
      ensures r.Err? && r.error !in {RollbackFailed, Escaped(ReadingAuthorizedKeys)} ==> home == old(home)
      ensures r.Err? ==> r.error in {AuthorizedKeysUnsafe, AuthorizedKeysWriteFailed, KeyInvalid, RollbackFailed,
                                     Escaped(ReadingAuthorizedKeys), Escaped(Elsewhere)}
      ensures r == Err(Escaped(ReadingAuthorizedKeys)) <==>
                f.paths && KeyIdentity(key).Some? && f.directory.Fine? && f.read.Escapes?
    {
      if !f.paths {
        return Err(AuthorizedKeysUnsafe);
      }
      var id := KeyIdentity(key);
      if id.None? {
        return Err(KeyInvalid);
      }
      var created := EnsureSshDirectory(f.directory);
      if created.Err? {
        return Err(created.error);
      }
      var read := ReadAuthorizedKeys(f.read);
      if read.Err? {
        if read.error.Escaped? {
          return Err(read.error);
        }
        var undone := UndoDirectory(created.value, f.undo);
        return Err(if undone then read.error else RollbackFailed);
      }
      var (existing, existed) := read.value;
      var listed := IsListed(existing, id.value);
      if listed {
        if !f.permissions {
          return Err(AuthorizedKeysWriteFailed);
        }
        return Ok(Receipt(false, created.value, !existed));
      }
      var replaced := ReplaceAuthorizedKeys(InstallText(existing, key), f.write);
      if replaced.Err? {
        var undone := UndoDirectory(created.value, f.undo);
        return Err(if undone then replaced.error else RollbackFailed);
      }
      return Ok(Receipt(true, created.value, !existed));
    }

    /** Inside a failed install: a directory that was just created is removed again. */
    method UndoDirectory(created: bool, works: bool) returns (undone: bool)
      requires IsHome(home)
      modifies this
      ensures undone <==> !created || (works && old(home).keys.None? && old(home).others == {})
      ensures IsHome(home)
      ensures undone ==> home == if created then old(home).(sshDir := false) else old(home)
      ensures !undone ==> home == old(home) && created
    {
      if !created {
        return true;
      }
      undone := RemoveEmptyDirectory(works);
    }

    /** any(_public_key_identity(line) == identity for line in existing.splitlines()). */
    method IsListed(existing: string, id: (string, string)) returns (listed: bool)
      ensures listed <==> Lists(existing, id)
    {
      var lines := SplitLines(existing);
      for i := 0 to |lines|
        invariant forall k | 0 <= k < i :: KeyIdentity(lines[k]) != Some(id)
      {
        if KeyIdentity(lines[i]) == Some(id) {
          return true;
        }
      }
      return false;
    }

    /** remove_public_key: deletes the first line that is exactly the key. */
    method RemovePublicKey(key: string, f: UndoFaults) returns (r: Result<bool>)
      requires IsHome(home)
      modifies this
      ensures IsHome(home)
      ensures r == Ok(true) ==>
                && RemoveText(Content(old(home)), key).Some?
                && home == old(home).(sshDir := true, keys := Some(RemoveText(Content(old(home)), key).value))
      ensures r == Ok(false) ==> RemoveText(Content(old(home)), key).None? && home == old(home).(sshDir := true)
      ensures r.Err? ==> home == old(home) || home == old(home).(sshDir := true)
      ensures f.Fine() ==> r.Ok?
    {
      var created := EnsureSshDirectory(f.directory);
      if created.Err? {
        return Err(created.error);
      }
      var read := ReadAuthorizedKeys(f.read);
      if read.Err? {
        return Err(read.error);
      }
      var updated := RemoveText(read.value.0, key);
      if updated.None? {
        return Ok(false);
      }
      var replaced := ReplaceAuthorizedKeys(updated.value, f.write);
      return if replaced.Err? then Err(replaced.error) else Ok(true);
    }

    /**
     rollback_public_key after an install: true means the home is as it was before the install,
     blank lines apart; whatever it returns, only the installed key may be missing.
     */
    method RollbackPublicKey(key: string, receipt: Receipt, f: UndoFaults, ghost before: Home)
      returns (r: Result<bool>)
      requires IsHome(before) && IsHome(home) && Installed(before, home, key, receipt)
      requires Strip(key) == key
      modifies this
      ensures IsHome(home)
      ensures r == Ok(true) ==> SameHome(before, home)
      ensures forall id | Lists(Content(before), id) :: Lists(Content(home), id)
      ensures f.Fine() && (receipt.publicKeyAdded ==> OneLineKey(key)) ==> r == Ok(true)
    {
      hide Words, KeyIndex, IsBase64;
      InstallKeepsListed(Content(before), key);
      if receipt.publicKeyAdded {
        RemovalUndoesInstall(Content(before), key);
        if OneLineKey(key) {
          KeepsListed(Content(before), key);
        }
        var removed := RemovePublicKey(key, f);
        if removed.Err? || !removed.value {
          return if removed.Err? then Err(removed.error) else Ok(false);
        }
      } else {
        NoKeysNothingListed(before);
      }
      r := RollbackFiles(receipt, f, before);
    }

    /** The end of rollback_public_key: the file and the directory that the install created. */
    method RollbackFiles(receipt: Receipt, f: UndoFaults, ghost before: Home) returns (r: Result<bool>)
      requires IsHome(before) && IsHome(home) && home.sshDir && home.keys.Some? && home.others == before.others
      requires NonBlank(SplitLines(Content(home))) == NonBlank(SplitLines(Content(before)))
      requires receipt.sshDirCreated == !before.sshDir && receipt.authorizedKeysCreated == before.keys.None?
      requires before.keys.None? ==> Content(home) == ""
      modifies this
      ensures IsHome(home)
      ensures r == Ok(true) ==> SameHome(before, home)
      ensures Content(home) == Content(old(home))
      ensures f.Fine() ==> r == Ok(true)
    {
      if receipt.authorizedKeysCreated {
        var read := ReadAuthorizedKeys(f.readAgain);
        if read.Err? {
          return Err(read.error);
        }
        if read.value.1 {
          if read.value.0 != "" {
            return Ok(false);
          }
          if !f.unlink {
            return Ok(false);
          }
          home := home.(keys := None);
        }
      }
      if receipt.sshDirCreated {
        var removed := RemoveEmptyDirectory(f.rmdir);
        if !removed {
          return Ok(false);
        }
      }
      return Ok(true);
    }
  }

  /** After an install the key identity is listed exactly when it was before or the key text itself lists it. */
  lemma InstalledListsExactly(before: Home, after: Home, key: string, receipt: Receipt)
    requires Installed(before, after, key, receipt) && Strip(key) == key
    ensures var id := KeyIdentity(key).value;
            Lists(Content(after), id) <==> Lists(Content(before), id) || Lists(key, id)
  {
    hide KeyIdentity, Lists, InstallText, Strip;
    HasText(key);
    ListedExactly(Content(before), key, KeyIdentity(key).value);
  }

  lemma HasText(key: string)
    requires KeyIdentity(key).Some?
    ensures key != ""
  {
  }

  /** Installing the same key twice changes nothing the second time. */
  lemma InstallTwice(before: Home, once: Home, twice: Home, key: string, first: Receipt, second: Receipt)
    requires OneLineKey(key) && Installed(before, once, key, first) && Installed(once, twice, key, second)
    ensures twice == once && second == Receipt(false, false, false)
  {
    hide SplitLines, KeyIdentity, Lists, InstallText;
    InstalledIsListed(Content(before), key);
    assert twice.keys == Some(Content(twice));
  }

  /** When the added key can be removed again, the text is as before, blank lines apart. */
  lemma RemovalUndoesInstall(existing: string, key: string)
    requires Strip(key) == key && KeyIdentity(key).Some? && !Lists(existing, KeyIdentity(key).value)
    ensures var removed := RemoveText(InstallText(existing, key), key);
            removed.Some? ==>
              && NonBlank(SplitLines(removed.value)) == NonBlank(SplitLines(existing))
              && (existing == "" ==> removed.value == "")
              && forall id | Lists(existing, id) :: Lists(removed.value, id)
  {
    hide SplitLines, KeyIdentity, Lists, RemoveText, InstallText, Strip;
    if NoBreak(key) {
      RoundTripKeepsNonBlank(existing, key);
      KeepsListed(existing, key);
    } else {
      BrokenKeyIsNotFound(InstallText(existing, key), key);
    }
  }

  lemma NoKeysNothingListed(before: Home)
    ensures before.keys.None? ==> forall id :: !Lists(Content(before), id)
  {
  }

  /** Rolling the added key back keeps every identity that was listed before. */
  lemma KeepsListed(existing: string, key: string)
    requires OneLineKey(key) && !Lists(existing, KeyIdentity(key).value)
    ensures RemoveText(InstallText(existing, key), key).Some?
    ensures forall id | Lists(existing, id) :: Lists(RemoveText(InstallText(existing, key), key).value, id)
  {
    hide SplitLines, KeyIdentity, Lists, RemoveText, InstallText;
    InstallThenRemove(existing, key);
    InstallKeepsListed(existing, key);
    forall id | Lists(existing, id) ensures Lists(RemoveText(InstallText(existing, key), key).value, id) {
      RemoveKeepsOthers(InstallText(existing, key), key, id);
    }
  }
}
