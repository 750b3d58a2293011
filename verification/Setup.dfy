/**
 Setting up a managed profile as one transaction with compensation
 (app/services/setup_service.py). Every step may fail.
 */
module Setups {
  import opened Wrappers
  import opened Domain
  import opened Text
  import opened AuthorizedKeys
  import opened SetupErrors
  import opened HostKeys
  import opened KeyStores
  import opened RemoteHomes
  import PS = ProfileServices

  datatype SetupRequest = SetupRequest(
    name: string,
    host: string,
    username: string,
    port: nat,
    confirmedFingerprint: Option<string>,
    existingKeyId: Option<string>,
    startRemotePort: int,
    autoReconnect: bool,
    endpointUrl: string)

  /** What the steps after the installed key answer. */
  datatype Completion = Completion(login: Fault, proxyPort: Option<int>, unexpected: bool, selected: Option<int>,
                                   book: BookFaults)

  /** How the system lets the rollback of home and key files end. */
  datatype RollbackFaults = RollbackFaults(home: UndoFaults, test: Fault, publicStays: bool, privateStays: bool)

  /** What the system and the server answer. */
  datatype Faults = Faults(
    refused: Option<Refusal>,             // what the checks before the first effect say, if they refuse
    shown: Option<HostKeyInfo>,           // the server's host key, if the handshake succeeds
    hosts: HostFaults,
    authenticated: bool, sftp: bool,      // the password login and the SFTP session
    keys: KeyFaults,
    install: InstallFaults,
    completion: Completion,
    undo: RollbackFaults) {
    /** Everything that a rollback needs works. */
    predicate UndoWorks() {
      && undo.home.Fine() && undo.test.Fine? && !undo.publicStays && !undo.privateStays
      && hosts.undoRead.Fine? && hosts.undoWrite.Fine? && install.undo
    }

    predicate Shows(req: SetupRequest) {
      shown.Some? && shown.value.host == req.host && shown.value.port == req.port && shown.value.keyBase64 != ""
    }
  }

  datatype Refusal = BadInput | BadDiscovery | BadScan | NameBusy | NoProxy

  /** Everything one setup can touch: two local stores, one remote account, and the profiles. */
  datatype Stores = Stores(
    lines: seq<string>,
    privateFiles: set<string>,
    publicFiles: map<string, string>,
    home: Home,
    profiles: map<string, Profile>)

  // ---------------------------------------------------------------- what a setup promises

  /** Nothing is left behind: as before, blank lines of authorized_keys apart. */
  predicate Restored(before: Stores, now: Stores) {
    && now.lines == before.lines
    && now.privateFiles == before.privateFiles && now.publicFiles == before.publicFiles
    && SameHome(before.home, now.home)
    && now.profiles == before.profiles
  }

  /** Every complete pair is still there, unchanged. */
  ghost predicate KeepsPairs(before: Stores, privateFiles: set<string>, publicFiles: map<string, string>) {
    forall id | PairKey(before.privateFiles, before.publicFiles, id).Some? ::
      PairKey(privateFiles, publicFiles, id) == PairKey(before.privateFiles, before.publicFiles, id)
  }

  /** Key pairs that are new are single-line keys. */
  ghost predicate NewPairsAreLines(before: Stores, privateFiles: set<string>, publicFiles: map<string, string>) {
    forall id | PairKey(privateFiles, publicFiles, id).Some? ::
      || PairKey(before.privateFiles, before.publicFiles, id).Some?
      || OneLineKey(PairKey(privateFiles, publicFiles, id).value)
  }

  ghost predicate KeepsIdentities(before: Home, now: Home) {
    forall id | Lists(Content(before), id) :: Lists(Content(now), id)
  }

  /** Nothing that was there is lost: host entries, key pairs, listed identities. */
  ghost predicate Keeps(before: Stores, now: Stores) {
    && before.lines <= now.lines
    && KeepsPairs(before, now.privateFiles, now.publicFiles)
    && NewPairsAreLines(before, now.privateFiles, now.publicFiles)
    && KeepsIdentities(before.home, now.home)
  }

  /** A stored managed profile has its complete key pair and an entry of its host key type. */
  predicate Present(now: Stores, p: Profile) {
    p.managed.Some? &&
    var m := p.managed.value;
    var key := PairKey(now.privateFiles, now.publicFiles, m.keyId);
    && key.Some? && KeyIdentity(key.value).Some?
    && HasHostEntry(now.lines, HostToken(m.host, m.sshPort), m.hostKeyType)
  }

  /** Its key is listed on the account exactly when it was before or the key text itself lists it. */
  predicate KeyListed(before: Stores, now: Stores, p: Profile)
    requires Present(now, p)
  {
    var key := PairKey(now.privateFiles, now.publicFiles, p.managed.value.keyId).value;
    var id := KeyIdentity(key).value;
    Lists(Content(now.home), id) <==> Lists(Content(before.home), id) || Lists(key, id)
  }

  predicate HasHostEntry(lines: seq<string>, token: string, keyType: string) {
    exists i | 0 <= i < |Entries(lines, token)| :: Entries(lines, token)[i].0 == keyType
  }

  predicate Fits(p: Profile, req: SetupRequest) {
    && p.name == req.name && PS.Consistent(p) && p.managed.Some?
    && p.autoReconnect == req.autoReconnect && p.endpointUrl == req.endpointUrl
    && p.managed.value.host == req.host && p.managed.value.username == req.username
    && p.managed.value.sshPort == req.port
    && (req.existingKeyId.Some? ==> p.managed.value.keyId == req.existingKeyId.value)
  }

  /** What a failed setup can leave behind although no rollback failed. */
  datatype Leftover = Nothing | Directory | Pair(id: string)

  /** Everything is as before but for this. */
  predicate RestoredBut(before: Stores, now: Stores, left: Leftover) {
    match left
    case Nothing => Restored(before, now)
    case Directory => now.home == before.home.(sshDir := true) && Restored(before, now.(home := before.home))
    case Pair(id) =>
      && id !in before.privateFiles && id !in before.publicFiles
      && NewPair(before.privateFiles, before.publicFiles, now.privateFiles, now.publicFiles, id)
      && Restored(before, now.(privateFiles := before.privateFiles, publicFiles := before.publicFiles))
  }

  /** Which failures leave something: the step was left by an exception that is not a RABError. */
  function LeftBy(req: SetupRequest, f: Faults, e: SetupError): Leftover {
    if e == RollbackFailed || e == Escaped(ReadingAuthorizedKeys) then Directory
    else if e == Escaped(TestingKeyLinks) && req.existingKeyId.None? then Pair(f.keys.id)
    else Nothing
  }

  /** All or nothing: success stores a working profile; failure without RollbackFailed restores, LeftBy apart. */
  ghost predicate Promise(before: Stores, now: Stores, req: SetupRequest, f: Faults, r: Result<Profile>) {
    && Keeps(before, now)
    && (r.Ok? ==>
          && Fits(r.value, req) && Present(now, r.value) && KeyListed(before, now, r.value)
          && r.value.name !in before.profiles && now.profiles == before.profiles[r.value.name := r.value])
    && (r.Err? ==> now.profiles == before.profiles)
    && (r.Err? && r.error != RollbackFailed ==> RestoredBut(before, now, LeftBy(req, f, r.error)))
  }

  // ---------------------------------------------------------------- progress of one setup

  /** How far a setup got, told from its artifacts: exactly these effects, nothing else. */
  predicate HostProgress(before: seq<string>, now: seq<string>, added: bool, info: Option<HostKeyInfo>) {
    if added then
      && info.Some? && IsHost(info.value.host) && IsValidKey(info.value) && info.value.keyBase64 != ""
      && Entries(before, HostToken(info.value.host, info.value.port)) == []
      && now == before + [KnownHostLine(info.value)]
    else now == before
  }

  predicate KeyProgress(before: Stores, privateNow: set<string>, publicNow: map<string, string>,
                        pair: Option<KeyPair>, left: Leftover) {
    match pair
    case None =>
      if left.Pair? then
        && left.id !in before.privateFiles && left.id !in before.publicFiles
        && NewPair(before.privateFiles, before.publicFiles, privateNow, publicNow, left.id)
      else privateNow == before.privateFiles && publicNow == before.publicFiles
    case Some(p) =>
      && !left.Pair? && PairKey(privateNow, publicNow, p.keyId) == Some(p.publicKey)
      && if p.generated then
           && p.keyId !in before.privateFiles && p.keyId !in before.publicFiles
           && NewPair(before.privateFiles, before.publicFiles, privateNow, publicNow, p.keyId)
         else privateNow == before.privateFiles && publicNow == before.publicFiles
  }

  predicate HomeProgress(before: Home, now: Home, pair: Option<KeyPair>, receipt: Option<Receipt>, left: Leftover) {
    match receipt
    case None => now == if left.Directory? then before.(sshDir := true) else before
    case Some(r) => !left.Directory? && pair.Some? && Installed(before, now, pair.value.publicKey, r)
  }

  predicate Progress(before: Stores, now: Stores, added: bool, pair: Option<KeyPair>, receipt: Option<Receipt>,
                     info: Option<HostKeyInfo>, left: Leftover) {
    && HostProgress(before.lines, now.lines, added, info)
    && KeyProgress(before, now.privateFiles, now.publicFiles, pair, left)
    && HomeProgress(before.home, now.home, pair, receipt, left)
    && now.profiles == before.profiles
  }

  // ---------------------------------------------------------------- when a setup succeeds

  /** The key gets onto the account: the login, the pair, the session and the install all work. */
  predicate KeyComes(before: Stores, req: SetupRequest, f: Faults) {
    && f.authenticated && f.sftp
    && PairComes(before.privateFiles, before.publicFiles, req.existingKeyId, f.keys)
    && InstallComes(before.home, PairText(before.privateFiles, before.publicFiles, req.existingKeyId, f.keys),
                    f.install)
  }

  /** The key that would be installed is on one line. */
  predicate OneLineToCome(before: Stores, req: SetupRequest, f: Faults) {
    PairComes(before.privateFiles, before.publicFiles, req.existingKeyId, f.keys) ==>
      OneLineKey(PairText(before.privateFiles, before.publicFiles, req.existingKeyId, f.keys))
  }

  /** The id of the pair that is used. */
  function KeyIdOf(req: SetupRequest, f: Faults): string {
    if req.existingKeyId.Some? then req.existingKeyId.value else f.keys.id
  }

  /** The profile that a setup makes: what was asked for, and what the checks found. */
  predicate IsMadeFrom(p: Profile, req: SetupRequest, info: HostKeyInfo, keyId: string, c: Completion) {
    && p.name == req.name && p.sshTarget == req.username + "@" + req.host
    && Some(p.localProxyPort) == c.proxyPort && Some(p.remotePort) == c.selected
    && p.autoReconnect == req.autoReconnect && p.endpointUrl == req.endpointUrl
    && p.managed.Some?
    && p.managed.value.host == req.host && p.managed.value.username == req.username
    && p.managed.value.sshPort == req.port && p.managed.value.keyId == keyId
    && p.managed.value.hostKeyType == info.keyType && p.managed.value.fingerprint == info.fingerprint
  }

  /** The steps after the installed key work, and the two ports found make a valid profile. */
  predicate Completes(profiles: map<string, Profile>, req: SetupRequest, c: Completion) {
    && c.login.Fine? && c.proxyPort.Some? && !c.unexpected && c.selected.Some?
    && 1 <= c.proxyPort.value <= 65535 && 1 <= c.selected.value <= 65535
    && c.book.grammar && !c.book.busy && req.name !in profiles && !c.book.fails
  }

  /** Everything a setup needs works: the checks, the host key, the key, and the completion. */
  predicate Succeeds(before: Stores, req: SetupRequest, f: Faults) {
    && IsHost(req.host) && 1 <= req.port <= 65535 && f.refused.None? && req.name !in before.profiles
    && f.Shows(req) && Confirmable(before.lines, req, f.shown.value, f.hosts)
    && KeyComes(before, req, f)
    && Completes(before.profiles, req, f.completion)
  }

  /** _SetupArtifacts. */
  class SetupArtifacts {
    var knownHostAdded: bool
    var keyPair: Option<KeyPair>
    var install: Option<Receipt>

    constructor ()
      ensures !knownHostAdded && keyPair.None? && install.None?
    {
      knownHostAdded, keyPair, install := false, None, None;
    }
  }

  /** What the profile store answers: the verdict of the text grammars, a busy lock, a failed write. */
  datatype BookFaults = BookFaults(grammar: bool, busy: bool, fails: bool)

  /** The profile side of a setup: ensure_create_available and create. */
  class ProfileBook {
    var profiles: map<string, Profile>

    constructor (profiles: map<string, Profile>)
      ensures this.profiles == profiles
    {
      this.profiles := profiles;
    }

    method EnsureCreateAvailable(name: string, busy: bool) returns (r: Result<()>)
      ensures r.Ok? <==> !busy && name !in profiles
      ensures r.Err? ==> r.error in {SetupErrors.ProfileBusy, ProfileExists}
    {
      if busy {
        return Err(SetupErrors.ProfileBusy);
      }
      return if name in profiles then Err(ProfileExists) else Ok(());
    }

    method Create(p: Profile, f: BookFaults) returns (r: Result<Profile>)
      modifies this
      ensures r.Ok? <==> PS.Consistent(p) && f.grammar && !f.busy && p.name !in old(profiles) && !f.fails
      ensures r.Ok? ==>
                && r.value == p && p.name !in old(profiles) && PS.Consistent(p)
                && profiles == old(profiles)[p.name := p]
      ensures r.Err? ==> profiles == old(profiles) && r.error != RollbackFailed && !r.error.Escaped?
    {
      if !PS.Consistent(p) || !f.grammar {
        return Err(ProfileInvalid);
      }
      if f.busy {
        return Err(SetupErrors.ProfileBusy);
      }
      if p.name in profiles {
        return Err(ProfileExists);
      }
      if f.fails {
        return Err(ManagedSetupFailed);
      }
      profiles := profiles[p.name := p];
      return Ok(p);
    }
  }

  class SetupService {
    const hostKeys: HostKeyStore
    const sshKeys: SSHKeyStore
    const book: ProfileBook

    constructor (hostKeys: HostKeyStore, sshKeys: SSHKeyStore, book: ProfileBook)
      ensures this.hostKeys == hostKeys && this.sshKeys == sshKeys && this.book == book
    {
      this.hostKeys := hostKeys;
      this.sshKeys := sshKeys;
      this.book := book;
    }

    ghost function Now(remote: RemoteHome): Stores
      reads hostKeys, sshKeys, book, remote
    {
      Stores(hostKeys.Lines(), sshKeys.privateFiles, sshKeys.publicFiles, remote.home, book.profiles)
    }

    ghost predicate Reached(before: Stores, remote: RemoteHome, art: SetupArtifacts, info: Option<HostKeyInfo>,
        left: Leftover)
      reads hostKeys, sshKeys, book, remote, art
    {
      && IsHome(before.home) && IsHome(remote.home)
      && Progress(before, Now(remote), art.knownHostAdded, art.keyPair, art.install, info, left)
    }

    /** The handshake shows the server's host key. */
    method Handshake(req: SetupRequest, f: Faults) returns (r: Result<HostKeyInfo>)
      ensures r == if f.Shows(req) then Ok(f.shown.value) else Err(HandshakeFailed)
    {
      r := if f.Shows(req) then Ok(f.shown.value) else Err(HandshakeFailed);
    }

    /** The host key part of _run_bootstrap: trusted already, or added after confirmation. */
    method ConfirmHost(req: SetupRequest, info: HostKeyInfo, art: SetupArtifacts, f: Faults) returns (r: Result<()>)
      requires IsHost(info.host) && info.keyBase64 != "" && !art.knownHostAdded
      modifies hostKeys, art`knownHostAdded
      ensures HostProgress(old(hostKeys.Lines()), hostKeys.Lines(), art.knownHostAdded, Some(info))
      ensures r.Ok? ==> HasHostEntry(hostKeys.Lines(), HostToken(info.host, info.port), info.keyType)
      ensures r.Ok? && req.confirmedFingerprint.Some? ==> req.confirmedFingerprint.value == info.fingerprint
      ensures art.knownHostAdded ==> req.confirmedFingerprint == Some(info.fingerprint)
      ensures r.Err? ==> r.error != RollbackFailed && !art.knownHostAdded
      ensures r.Err? && r.error.Escaped? ==> r.error == Escaped(Elsewhere)
      ensures r.Ok? <==> Confirmable(old(hostKeys.Lines()), req, info, f.hosts)
      ensures r == Err(HostKeyConfirmationRequired) ==>
                && req.confirmedFingerprint.None?
                && Entries(old(hostKeys.Lines()), HostToken(info.host, info.port)) == []
      ensures r == Err(HostKeyChanged) ==>
                || (req.confirmedFingerprint.Some? && req.confirmedFingerprint.value != info.fingerprint)
                || (&& Entries(old(hostKeys.Lines()), HostToken(info.host, info.port)) != []
                    && (info.keyType, info.keyBase64) !in
                       Entries(old(hostKeys.Lines()), HostToken(info.host, info.port)))
    {
      hide Entries, KnownHostLine, HostToken, IsHost, IsValidKey, LinesOf, HasHostEntry;
      var status := hostKeys.Status(info, f.hosts.status);
      if status.Err? {
        return Err(status.error);
      }
      if status.value == Unknown {
        if req.confirmedFingerprint.None? {
          return Err(HostKeyConfirmationRequired);
        }
        if req.confirmedFingerprint.value != info.fingerprint {
          return Err(HostKeyChanged);
        }
        ghost var lines := hostKeys.Lines();
        var added := hostKeys.Confirm(info, true, f.hosts);
        if added.Err? {
          return Err(added.error);
        }
        art.knownHostAdded := added.value;
        if added.value {
          LineReadsBack(lines, info);
        }
      } else if req.confirmedFingerprint.Some? && req.confirmedFingerprint.value != info.fingerprint {
        return Err(HostKeyChanged);
      }
      EntryMeansHasEntry(hostKeys.Lines(), info);
      return Ok(());
    }

    /** Password login and key pair. */
    method MakePair(req: SetupRequest, art: SetupArtifacts, f: Faults, ghost before: Stores)
      returns (r: Result<KeyPair>)
      requires art.keyPair.None?
      requires sshKeys.privateFiles == before.privateFiles && sshKeys.publicFiles == before.publicFiles
      modifies sshKeys, art`keyPair
      ensures KeyProgress(before, sshKeys.privateFiles, sshKeys.publicFiles, art.keyPair,
                          if r.Ok? then Nothing else LeftBy(req, f, r.error))
      ensures if r.Ok? then art.keyPair == Some(r.value) else art.keyPair.None?
      ensures r.Err? ==> r.error !in {RollbackFailed, Escaped(ReadingAuthorizedKeys)}
      ensures r.Ok? ==> (req.existingKeyId.Some? ==> r.value.keyId == req.existingKeyId.value && !r.value.generated)
      ensures r.Ok? ==> r.value.keyId == KeyIdOf(req, f)
      ensures r.Ok? <==>
                f.authenticated && PairComes(before.privateFiles, before.publicFiles, req.existingKeyId, f.keys)
      ensures r.Ok? ==>
                r.value.publicKey == PairText(before.privateFiles, before.publicFiles, req.existingKeyId, f.keys)
      ensures f.authenticated && OnlyTheTestEscapes(req, f) && f.keys.id !in before.privateFiles
              && f.keys.id !in before.publicFiles ==>
                r == Err(Escaped(TestingKeyLinks))
    {
      hide KeyValue, OneLineKey, NewPair, IsKeyId;
      if !f.authenticated {
        return Err(AuthenticationFailed);
      }
      r := sshKeys.EnsureKey(req.existingKeyId, f.keys);
      if r.Ok? {
        art.keyPair := Some(r.value);
      }
    }

    /** Login, key pair, SFTP and installation: the middle of _run_bootstrap. */
    method InstallKey(req: SetupRequest, remote: RemoteHome, art: SetupArtifacts, info: HostKeyInfo, f: Faults,
                      ghost before: Stores)
      returns (r: Result<KeyPair>, sftp: bool)
      requires Reached(before, remote, art, Some(info), Nothing) && art.keyPair.None? && art.install.None?
      modifies sshKeys, remote, art
      ensures Reached(before, remote, art, Some(info), if r.Ok? then Nothing else LeftBy(req, f, r.error))
      ensures art.install.Some? ==> sftp && art.keyPair.Some?
      ensures hostKeys.Lines() == old(hostKeys.Lines()) && art.knownHostAdded == old(art.knownHostAdded)
      ensures r.Ok? ==>
                && art.keyPair == Some(r.value) && art.install.Some?
                && (req.existingKeyId.Some? ==> r.value.keyId == req.existingKeyId.value)
      ensures r.Ok? ==> r.value.keyId == KeyIdOf(req, f)
      ensures r.Ok? <==> KeyComes(before, req, f)
      ensures art.keyPair.Some? && art.install.Some? && OneLineToCome(before, req, f) ==>
                OneLineKey(art.keyPair.value.publicKey)
      ensures f.UndoWorks() ==> r != Err(RollbackFailed)
      ensures f.authenticated && OnlyTheReadEscapes(req, f) && HasPair(before, req) ==>
                r == Err(Escaped(ReadingAuthorizedKeys)) && art.install.None?
                && art.keyPair.Some? && !art.keyPair.value.generated
      ensures f.authenticated && OnlyTheTestEscapes(req, f) && f.keys.id !in before.privateFiles
              && f.keys.id !in before.publicFiles ==>
                r == Err(Escaped(TestingKeyLinks)) && art.install.None? && art.keyPair.None?
    {
      hide HostProgress, Installed, KeyValue, OneLineKey, NewPair, IsKeyId, KeyIdentity, Strip, LinesOf;
      hide InstallComes, Lists, IsBase64, SplitLines;
      sftp := false;
      var pair := MakePair(req, art, f, before);
      if pair.Err? {
        return Err(pair.error), sftp;
      }
      if !f.sftp {
        return Err(BootstrapFailed), sftp;
      }
      sftp := true;
      PairHasIdentity(sshKeys.privateFiles, sshKeys.publicFiles, pair.value.keyId);
      var installed := remote.InstallPublicKey(pair.value.publicKey, f.install);
      if installed.Err? {
        return Err(installed.error), sftp;
      }
      art.install := Some(installed.value);
      return Ok(pair.value), sftp;
    }

    /** The batch login check and the completion of setup_managed_profile. */
    method Complete(req: SetupRequest, info: HostKeyInfo, pair: KeyPair, c: Completion) returns (r: Result<Profile>)
      modifies book
      ensures r.Err? ==>
                && book.profiles == old(book.profiles) && r.error != RollbackFailed
                && (r.error.Escaped? ==> r.error == Escaped(Elsewhere))
      ensures r.Ok? <==> Completes(old(book.profiles), req, c)
      ensures r.Ok? ==>
                && IsMadeFrom(r.value, req, info, pair.keyId, c)
                && r.value.name !in old(book.profiles) && PS.Consistent(r.value)
                && book.profiles == old(book.profiles)[r.value.name := r.value]
    {
      if !c.login.Fine? {
        return Err(if c.login.Refused? then BatchLoginFailed else Escaped(Elsewhere));
      }
      if c.proxyPort.None? {
        return Err(DiscoveryFailed);
      }
      if c.unexpected {
        return Err(ManagedSetupFailed);
      }
      if c.selected.None? {
        return Err(RemotePortUnavailable);
      }
      var managed := Managed(req.host, req.username, req.port, pair.keyId, info.keyType, info.fingerprint);
      var profile := Profile(req.name, req.username + "@" + req.host, c.proxyPort.value, c.selected.value,
                             req.autoReconnect, req.endpointUrl, Some(managed));
      r := book.Create(profile, c.book);
    }

    /** The checks before anything is touched. */
    method Preflight(req: SetupRequest, f: Faults) returns (r: Result<()>)
      ensures r.Ok? <==> IsHost(req.host) && 1 <= req.port <= 65535 && f.refused.None? && req.name !in book.profiles
      ensures r.Err? ==> r.error != RollbackFailed && !r.error.Escaped?
    {
      if !IsHost(req.host) || !(1 <= req.port <= 65535) || f.refused == Some(BadInput) {
        return Err(ProfileInvalid);
      }
      if f.refused == Some(BadDiscovery) {
        return Err(DiscoveryFailed);
      }
      if f.refused == Some(BadScan) {
        return Err(RemotePortUnavailable);
      }
      r := book.EnsureCreateAvailable(req.name, f.refused == Some(NameBusy));
      if r.Ok? && f.refused.Some? {
        return Err(DiscoveryFailed);  // what is left is the proxy discovery
      }
    }

    /** _run_bootstrap up to the installed key: whatever happens, the artifacts say exactly what was done. */
    method TrustAndInstall(req: SetupRequest, remote: RemoteHome, art: SetupArtifacts, f: Faults)
      returns (r: Result<KeyPair>, info: Option<HostKeyInfo>, sftp: bool)
      requires IsHost(req.host) && IsHome(remote.home)
      requires !art.knownHostAdded && art.keyPair.None? && art.install.None?
      modifies hostKeys, sshKeys, remote, art
      ensures Reached(old(Now(remote)), remote, art, info, if r.Ok? then Nothing else LeftBy(req, f, r.error))
      ensures art.install.Some? ==> sftp && art.keyPair.Some?
      ensures r.Ok? ==>
                && art.keyPair == Some(r.value) && art.install.Some?
                && (req.existingKeyId.Some? ==> r.value.keyId == req.existingKeyId.value)
                && info.Some? && info.value.host == req.host && info.value.port == req.port
                && HasHostEntry(hostKeys.Lines(), HostToken(req.host, req.port), info.value.keyType)
      ensures r.Ok? <==>
                && f.Shows(req) && Confirmable(old(hostKeys.Lines()), req, f.shown.value, f.hosts)
                && KeyComes(old(Now(remote)), req, f)
      ensures r.Ok? ==> info == f.shown && r.value.keyId == KeyIdOf(req, f)
      ensures art.keyPair.Some? && art.install.Some? && OneLineToCome(old(Now(remote)), req, f) ==>
                OneLineKey(art.keyPair.value.publicKey)
      ensures f.UndoWorks() ==> r != Err(RollbackFailed)
      ensures Answers(old(Now(remote)), req, f, Escaped(ReadingAuthorizedKeys)) ==>
                r == Err(Escaped(ReadingAuthorizedKeys)) && OwnsNoMoreThanALine(art)
      ensures Answers(old(Now(remote)), req, f, Escaped(TestingKeyLinks)) ==>
                r == Err(Escaped(TestingKeyLinks)) && OwnsNoMoreThanALine(art)
    {
      hide KeyComes, Confirmable, OneLineToCome, OneLineKey, NewPair, KeyProgress, HomeProgress;
      hide IsHost, HasHostEntry, LinesOf, Entries, IsValidKey;
      ghost var before := Now(remote);
      info, sftp := None, false;
      HostOnly(before, before.lines, false, None);
      var shown := Handshake(req, f);
      if shown.Err? {
        return Err(shown.error), info, sftp;
      }
      info := Some(shown.value);
      var trusted := ConfirmHost(req, shown.value, art, f);
      HostOnly(before, hostKeys.Lines(), art.knownHostAdded, info);
      if trusted.Err? {
        return Err(trusted.error), info, sftp;
      }
      r, sftp := InstallKey(req, remote, art, shown.value, f, before);
    }

    /** The try block of _run_bootstrap with the completion of setup_managed_profile. */
    method RunBootstrap(req: SetupRequest, remote: RemoteHome, art: SetupArtifacts, f: Faults)
      returns (r: Result<Profile>, info: Option<HostKeyInfo>, sftp: bool)
      requires IsHost(req.host) && IsHome(remote.home)
      requires !art.knownHostAdded && art.keyPair.None? && art.install.None?
      modifies hostKeys, sshKeys, book, remote, art
      ensures r.Err? ==>
                && Reached(old(Now(remote)), remote, art, info, LeftBy(req, f, r.error))
                && (art.install.Some? ==> sftp)
      ensures r.Ok? ==> IsHome(remote.home) && Promise(old(Now(remote)), Now(remote), req, f, r)
      ensures r.Ok? <==>
                && f.Shows(req) && Confirmable(old(hostKeys.Lines()), req, f.shown.value, f.hosts)
                && KeyComes(old(Now(remote)), req, f) && Completes(old(book.profiles), req, f.completion)
      ensures r.Ok? ==> IsMadeFrom(r.value, req, f.shown.value, KeyIdOf(req, f), f.completion)
      ensures art.keyPair.Some? && art.install.Some? && OneLineToCome(old(Now(remote)), req, f) ==>
                OneLineKey(art.keyPair.value.publicKey)
      ensures f.UndoWorks() ==> r != Err(RollbackFailed)
      ensures Answers(old(Now(remote)), req, f, Escaped(ReadingAuthorizedKeys)) ==>
                r == Err(Escaped(ReadingAuthorizedKeys)) && OwnsNoMoreThanALine(art)
      ensures Answers(old(Now(remote)), req, f, Escaped(TestingKeyLinks)) ==>
                r == Err(Escaped(TestingKeyLinks)) && OwnsNoMoreThanALine(art)
    {
      hide HostProgress, KeyProgress, HomeProgress, IsHost, HasHostEntry, LinesOf, PairKey, Lists, OneLineKey, Answers;
      hide KeyListed, KeyIdentity, KeyComes, Confirmable, OneLineToCome, Completes;
      ghost var before := Now(remote);
      var pair;
      pair, info, sftp := TrustAndInstall(req, remote, art, f);
      if pair.Err? {
        return Err(pair.error), info, sftp;
      }
      ghost var reached := Now(remote);
      r := Complete(req, info.value, pair.value, f.completion);
      if r.Ok? {
        ProgressKeeps(before, reached, art.knownHostAdded, art.keyPair, art.install, info, Nothing);
        ProgressIsPresent(before, reached, art.knownHostAdded, pair.value, art.install.value, info, r.value);
        KeptPromise(before, reached, Now(remote), req, f, r.value);
      }
    }

    /**
     setup_managed_profile. A failure whose code is not SETUP_ROLLBACK_FAILED restores everything
     exactly unless an exception that is not a RABError left one of two steps: reading
     authorized_keys after creating ~/.ssh, or testing a pair that was just generated.
     */
    method SetupManagedProfile(req: SetupRequest, remote: RemoteHome, f: Faults) returns (r: Result<Profile>)
      requires IsHome(remote.home)
      modifies hostKeys, sshKeys, book, remote
      ensures IsHome(remote.home)
      ensures Promise(old(Now(remote)), Now(remote), req, f, r)
      ensures r.Err? && r.error != RollbackFailed ==>
                (Restored(old(Now(remote)), Now(remote)) <==>
                   && !(r.error == Escaped(ReadingAuthorizedKeys) && !old(remote.home).sshDir)
                   && !(r.error == Escaped(TestingKeyLinks) && req.existingKeyId.None?))
      ensures r.Ok? <==> Succeeds(old(Now(remote)), req, f)
      ensures r.Ok? ==> IsMadeFrom(r.value, req, f.shown.value, KeyIdOf(req, f), f.completion)
      ensures f.UndoWorks() && OneLineToCome(old(Now(remote)), req, f) ==> r != Err(RollbackFailed)
      ensures Answers(old(Now(remote)), req, f, Escaped(ReadingAuthorizedKeys)) ==>
                r == Err(Escaped(ReadingAuthorizedKeys))
      ensures Answers(old(Now(remote)), req, f, Escaped(TestingKeyLinks)) ==>
                r == Err(Escaped(TestingKeyLinks))
    {
      hide Progress, Promise, Restored, RestoredBut, Keeps, Lists;
      hide KeyComes, Confirmable, OneLineToCome, Completes, IsMadeFrom;
      ghost var before := Now(remote);
      AnswersPassPreflight(before, req, f);
      var checked := Preflight(req, f);
      if checked.Err? {
        NothingChanged(before, req, f, checked.error);
        RestoredExactly(before, Now(remote), req, f, Err(checked.error));
        return Err(checked.error);
      }
      var art := new SetupArtifacts();
      var info, sftp;
      r, info, sftp := RunBootstrap(req, remote, art, f);
      if r.Err? {
        var failed := Rollback(remote, art, info, sftp, f, before, LeftBy(req, f, r.error));
        if failed {
          r := Err(RollbackFailed);
        }
        FailedPromise(before, Now(remote), req, f, r);
        RestoredExactly(before, Now(remote), req, f, r);
      }
    }

    /** Of what this setup created, at most the host key is recorded and can be undone. */
    predicate OwnsNoMoreThanALine(art: SetupArtifacts)
      reads art
    {
      && (art.keyPair.None? || !art.keyPair.value.generated)
      && (art.install.None? || art.install.value == Receipt(false, false, false))
    }

    /** _rollback: each effect recorded in the artifacts is undone on its own. */
    method Rollback(remote: RemoteHome, art: SetupArtifacts, info: Option<HostKeyInfo>, sftp: bool, f: Faults,
                    ghost before: Stores, ghost left: Leftover)
      returns (failed: bool)
      requires Reached(before, remote, art, info, left)
      modifies hostKeys, sshKeys, remote
      ensures IsHome(remote.home) && Keeps(before, Now(remote))
      ensures Now(remote).profiles == before.profiles
      ensures !failed ==> RestoredBut(before, Now(remote), left)
      ensures OwnsNoMoreThanALine(art) && f.hosts.undoRead.Fine? && f.hosts.undoWrite.Fine? ==> !failed
      ensures OwnsNoMoreThanALine(art) && !art.knownHostAdded ==> !failed && Now(remote) == old(Now(remote))
      ensures (&& f.UndoWorks() && (art.install.Some? ==> sftp)
               && (art.keyPair.Some? && art.install.Some? ==> OneLineKey(art.keyPair.value.publicKey))) ==> !failed
    {
      hide KeepsPairs, NewPairsAreLines, KeepsIdentities, SameHome, Installed, OneLineKey, NewPair, HostProgress, Strip;
      hide PairKey, RestoredBut, KeyIdentity;
      if art.keyPair.Some? {
        PairHasIdentity(sshKeys.privateFiles, sshKeys.publicFiles, art.keyPair.value.keyId);
      }
      var homeFailed := RollbackHome(remote, art, sftp, f.undo.home, before.home, left);
      var keysFailed := RollbackKeys(art, f.undo, before, left);
      var hostFailed := RollbackHost(art, info, f.hosts, before.lines);
      failed := homeFailed || keysFailed || hostFailed;
      if !failed {
        AllUndone(before, Now(remote), left);
      }
    }

    method RollbackHome(remote: RemoteHome, art: SetupArtifacts, sftp: bool, f: UndoFaults, ghost before: Home,
                        ghost left: Leftover)
      returns (failed: bool)
      requires IsHome(before) && IsHome(remote.home)
      requires HomeProgress(before, remote.home, art.keyPair, art.install, left)
      requires art.keyPair.Some? ==> Strip(art.keyPair.value.publicKey) == art.keyPair.value.publicKey
      modifies remote
      ensures IsHome(remote.home)
      ensures !failed ==> if left.Directory? then remote.home == before.(sshDir := true)
                else SameHome(before, remote.home)
      ensures art.install.None? || art.install.value == Receipt(false, false, false) ==>
                !failed && remote.home == old(remote.home)
      ensures KeepsIdentities(before, remote.home)
      ensures (&& f.Fine() && (art.install.Some? ==> sftp)
               && (art.keyPair.Some? && art.install.Some? ==> OneLineKey(art.keyPair.value.publicKey))) ==> !failed
    {
      if art.install.None? {
        return false;
      }
      var receipt, pair := art.install.value, art.keyPair.value;
      if !(receipt.publicKeyAdded || receipt.sshDirCreated || receipt.authorizedKeysCreated) {
        return false;
      }
      if !sftp {
        InstallKeepsListed(Content(before), pair.publicKey);
        return true;
      }
      var done := remote.RollbackPublicKey(pair.publicKey, receipt, f, before);
      failed := done.Err? || !done.value;
    }

    method RollbackKeys(art: SetupArtifacts, f: RollbackFaults, ghost before: Stores, ghost left: Leftover)
      returns (failed: bool)
      requires KeyProgress(before, sshKeys.privateFiles, sshKeys.publicFiles, art.keyPair, left)
      modifies sshKeys
      ensures f.test.Fine? && !f.publicStays && !f.privateStays ==> !failed
      ensures left.Pair? ==> !failed && KeyProgress(before, sshKeys.privateFiles, sshKeys.publicFiles, None, left)
      ensures !failed && !left.Pair? ==>
                sshKeys.privateFiles == before.privateFiles && sshKeys.publicFiles == before.publicFiles
      ensures art.keyPair.None? || !art.keyPair.value.generated ==>
                && !failed && sshKeys.privateFiles == old(sshKeys.privateFiles)
                && sshKeys.publicFiles == old(sshKeys.publicFiles)
      ensures KeepsPairs(before, sshKeys.privateFiles, sshKeys.publicFiles)
      ensures NewPairsAreLines(before, sshKeys.privateFiles, sshKeys.publicFiles)
    {
      if art.keyPair.None? || !art.keyPair.value.generated {
        if left.Pair? {
          NewPairOnly(before, sshKeys.privateFiles, sshKeys.publicFiles, left.id);
        }
        return false;
      }
      var removed := sshKeys.RemoveGenerated(art.keyPair.value, f.test, f.publicStays, f.privateStays);
      failed := removed.Err?;
      GeneratedPairOnly(before, old(sshKeys.privateFiles), old(sshKeys.publicFiles),
                        sshKeys.privateFiles, sshKeys.publicFiles, art.keyPair.value);
    }

    method RollbackHost(art: SetupArtifacts, info: Option<HostKeyInfo>, f: HostFaults, ghost before: seq<string>)
      returns (failed: bool)
      requires HostProgress(before, hostKeys.Lines(), art.knownHostAdded, info)
      modifies hostKeys
      ensures !failed ==> hostKeys.Lines() == before
      ensures f.undoRead.Fine? && f.undoWrite.Fine? ==> !failed
      ensures !art.knownHostAdded ==> !failed && hostKeys.file == old(hostKeys.file)
      ensures before <= hostKeys.Lines()
    {
      if !art.knownHostAdded {
        return false;
      }
      var removed := hostKeys.RemoveIfMatches(info.value, f);
      failed := removed.Err? || !removed.value;
      if !failed {
        ghost var i :| IndexOf(old(hostKeys.Lines()), KnownHostLine(info.value)) == Some(i)
                       && hostKeys.Lines() == Without(old(hostKeys.Lines()), i);
        ConfirmThenRemove(before, info.value, i);
      }
    }
  }

  /** Only the host key part was done, if anything. */
  lemma HostOnly(before: Stores, lines: seq<string>, added: bool, info: Option<HostKeyInfo>)
    requires HostProgress(before.lines, lines, added, info)
    ensures Progress(before, before.(lines := lines), added, None, None, info, Nothing)
  {
  }

  /** The three parts undone, what is left apart, are the whole undone. */
  lemma AllUndone(before: Stores, now: Stores, left: Leftover)
    requires now.lines == before.lines && now.profiles == before.profiles
    requires KeyProgress(before, now.privateFiles, now.publicFiles, None, left)
    requires if left.Directory? then now.home == before.home.(sshDir := true) else SameHome(before.home, now.home)
    ensures RestoredBut(before, now, left)
  {
    hide NewPair, SplitLines, NonBlank;
  }

  lemma NothingChanged(before: Stores, req: SetupRequest, f: Faults, e: SetupError)
    requires !e.Escaped? && e != RollbackFailed
    ensures Promise(before, before, req, f, Err(e))
  {
    hide PairKey, Lists, OneLineKey;
  }

  lemma FailedPromise(before: Stores, now: Stores, req: SetupRequest, f: Faults, r: Result<Profile>)
    requires r.Err? && Keeps(before, now) && now.profiles == before.profiles
    requires r.error != RollbackFailed ==> RestoredBut(before, now, LeftBy(req, f, r.error))
    ensures Promise(before, now, req, f, r)
  {
    hide RestoredBut, Keeps, LeftBy;
  }

  lemma KeptPromise(before: Stores, reached: Stores, now: Stores, req: SetupRequest, f: Faults, p: Profile)
    requires Keeps(before, reached) && Present(reached, p) && KeyListed(before, reached, p) && Fits(p, req)
    requires now == reached.(profiles := now.profiles) && reached.profiles == before.profiles
    requires p.name !in before.profiles && now.profiles == before.profiles[p.name := p]
    ensures Promise(before, now, req, f, Ok(p))
  {
    hide PairKey, Lists, OneLineKey, HasHostEntry, KeyIdentity, Fits;
  }

  /** What a failure that is not a failed rollback leaves, told from its code and what was there before. */
  lemma RestoredExactly(before: Stores, now: Stores, req: SetupRequest, f: Faults, r: Result<Profile>)
    requires Promise(before, now, req, f, r) && r.Err? && IsHome(before.home)
    ensures r.error != RollbackFailed ==>
              (Restored(before, now) <==>
                 && !(r.error == Escaped(ReadingAuthorizedKeys) && !before.home.sshDir)
                 && !(r.error == Escaped(TestingKeyLinks) && req.existingKeyId.None?))
  {
    hide Keeps, PairKey, OneLineKey, NonBlank, SplitLines;
    if r.error == Escaped(TestingKeyLinks) && req.existingKeyId.None? {
      assert f.keys.id in now.privateFiles && f.keys.id !in before.privateFiles;
    } else if r.error == Escaped(ReadingAuthorizedKeys) && before.home.sshDir {
      assert now.home == before.home;
    }
  }

  /** With ~/.ssh in place and a pair that is reused, every such failure restores everything. */
  lemma SafeSetupsRestore(before: Stores, now: Stores, req: SetupRequest, f: Faults, r: Result<Profile>)
    requires Promise(before, now, req, f, r) && r.Err? && r.error != RollbackFailed && IsHome(before.home)
    requires before.home.sshDir && req.existingKeyId.Some?
    ensures Restored(before, now)
  {
    hide Promise, Restored;
    RestoredExactly(before, now, req, f, r);
  }

  // ---------------------------------------------------------------- answers that make a setup leave something

  /** Everything goes well up to the step that is left by an exception which is not a RABError. */
  predicate Answers(before: Stores, req: SetupRequest, f: Faults, e: SetupError) {
    && IsHost(req.host) && 1 <= req.port <= 65535 && f.refused.None? && req.name !in before.profiles
    && f.Shows(req) && Confirmable(before.lines, req, f.shown.value, f.hosts) && f.authenticated
    && f.hosts.undoRead.Fine? && f.hosts.undoWrite.Fine?
    && if e == Escaped(ReadingAuthorizedKeys) then OnlyTheReadEscapes(req, f) && HasPair(before, req)
       else OnlyTheTestEscapes(req, f) && f.keys.id !in before.privateFiles && f.keys.id !in before.publicFiles
  }

  predicate Trusted(lines: seq<string>, info: HostKeyInfo) {
    IsValidKey(info) && (info.keyType, info.keyBase64) in Entries(lines, HostToken(info.host, info.port))
  }

  /** The host key passes: trusted already, or unknown and shown with the confirmed fingerprint. */
  predicate Confirmable(lines: seq<string>, req: SetupRequest, info: HostKeyInfo, f: HostFaults) {
    && f.status.Fine? && (req.confirmedFingerprint.Some? ==> req.confirmedFingerprint.value == info.fingerprint)
    && (|| Trusted(lines, info)
        || (&& IsValidKey(info) && Entries(lines, HostToken(info.host, info.port)) == []
            && req.confirmedFingerprint.Some? && f.again.Fine? && f.last.Fine? && f.write.Fine?))
  }

  predicate HasPair(before: Stores, req: SetupRequest) {
    req.existingKeyId.Some? && IsKeyId(req.existingKeyId.value)
    && PairKey(before.privateFiles, before.publicFiles, req.existingKeyId.value).Some?
  }

  predicate OnlyTheReadEscapes(req: SetupRequest, f: Faults) {
    && req.existingKeyId.Some? && f.keys.test.Fine? && f.sftp
    && f.install.paths && f.install.directory.Fine? && f.install.read.Escapes?
  }

  predicate OnlyTheTestEscapes(req: SetupRequest, f: Faults) {
    req.existingKeyId.None? && f.keys.Makes() && f.keys.test.Escapes?
  }

  lemma AnswersPassPreflight(before: Stores, req: SetupRequest, f: Faults)
    ensures forall e | Answers(before, req, f, e) ::
              && f.hosts.undoRead.Fine? && f.hosts.undoWrite.Fine?
              && IsHost(req.host) && 1 <= req.port <= 65535 && f.refused.None? && req.name !in before.profiles
  {
  }

  /**
   Such answers exist whenever ~/.ssh is missing or a new pair is wanted: for a host that is
   trusted already, and for a new host whose fingerprint the user confirms.
   */
  lemma LeavingIsPossible(req: SetupRequest, info: HostKeyInfo, keyId: string, body: string)
    returns (before: Stores, f: Faults)
    requires IsHost(req.host) && 1 <= req.port <= 65535
    requires info.host == req.host && info.port == req.port && IsValidKey(info) && info.keyBase64 != ""
    requires req.confirmedFingerprint.Some? ==> req.confirmedFingerprint.value == info.fingerprint
    requires IsKeyId(keyId) && IsBase64(body) && body != ""
    requires req.existingKeyId.Some? ==> req.existingKeyId.value == keyId
    ensures !before.home.sshDir && IsHome(before.home)
    ensures req.confirmedFingerprint.Some? ==> before.lines == []
    ensures Answers(before, req, f, if req.existingKeyId.Some? then Escaped(ReadingAuthorizedKeys)
              else Escaped(TestingKeyLinks))
  {
    hide Entries, KnownHostLine, IsHost, IsValidKey, IsBase64, KeyValue;
    assert [] + [KnownHostLine(info)] == [KnownHostLine(info)];
    LineReadsBack([], info);
    NoEntries(HostToken(info.host, info.port));
    GeneratedIsValid(body, keyId);
    var stored, known := req.existingKeyId.Some?, req.confirmedFingerprint.None?;
    before := Stores(if known then [KnownHostLine(info)] else [],
                     if stored then {keyId} else {},
                     if stored then map[keyId := GeneratedFile(body, keyId)] else map[],
                     Home(false, None, {}), map[]);
    f := Faults(None, Some(info), HostFaults(Fine, Fine, Fine, Fine, Fine, Fine), true, true,
                KeyFaults(keyId, body, true, Fine, if stored then Fine else Escapes, true),
                InstallFaults(true, Fine, Escapes, true, true, true),
                Completion(Fine, None, false, None, BookFaults(true, false, false)),
                RollbackFaults(UndoFaults(Fine, Fine, true, Fine, true, true), Fine, false, false));
  }

  lemma NoEntries(token: string)
    ensures Entries([], token) == []
  {
  }

  /** However far a setup gets, it adds and never takes away. */
  lemma ProgressKeeps(before: Stores, now: Stores, added: bool, pair: Option<KeyPair>, receipt: Option<Receipt>,
                      info: Option<HostKeyInfo>, left: Leftover)
    requires Progress(before, now, added, pair, receipt, info, left)
    ensures Keeps(before, now)
  {
    hide KeyValue, OneLineKey, Lists, InstallText, KeyIdentity;
    if receipt.Some? {
      InstallKeepsListed(Content(before.home), pair.value.publicKey);
    }
    if pair.Some? && pair.value.generated {
      NewPairOnly(before, now.privateFiles, now.publicFiles, pair.value.keyId);
    } else if pair.None? && left.Pair? {
      NewPairOnly(before, now.privateFiles, now.publicFiles, left.id);
    }
  }

  /** A setup that got through has everything its profile relies on. */
  lemma ProgressIsPresent(before: Stores, now: Stores, added: bool, pair: KeyPair, receipt: Receipt,
                          info: Option<HostKeyInfo>, p: Profile)
    requires Progress(before, now, added, Some(pair), Some(receipt), info, Nothing)
    requires p.managed.Some? && p.managed.value.keyId == pair.keyId
    requires HasHostEntry(now.lines, HostToken(p.managed.value.host, p.managed.value.sshPort),
              p.managed.value.hostKeyType)
    ensures Present(now, p) && KeyListed(before, now, p)
  {
    hide KeyValue, Lists, InstallText, KeyIdentity, HasHostEntry, HostProgress, Strip;
    PairHasIdentity(now.privateFiles, now.publicFiles, pair.keyId);
    InstalledListsExactly(before.home, now.home, pair.publicKey, receipt);
  }

  /** A complete pair's key is stripped and carries an identity. */
  lemma PairHasIdentity(privateFiles: set<string>, publicFiles: map<string, string>, id: string)
    ensures var key := PairKey(privateFiles, publicFiles, id);
            key.Some? ==> KeyIdentity(key.value).Some? && Strip(key.value) == key.value
  {
    hide KeyValue, KeyIdentity, Strip;
    if PairKey(privateFiles, publicFiles, id).Some? {
      ValidKeyHasIdentity(publicFiles[id], id);
    }
  }

  /** A new pair touches no other pair. */
  lemma NewPairOnly(before: Stores, privateFiles: set<string>, publicFiles: map<string, string>, id: string)
    requires id !in before.privateFiles && id !in before.publicFiles
    requires NewPair(before.privateFiles, before.publicFiles, privateFiles, publicFiles, id)
    ensures KeepsPairs(before, privateFiles, publicFiles) && NewPairsAreLines(before, privateFiles, publicFiles)
  {
    hide KeyValue, OneLineKey;
    var pair := KeyPair(id, PairKey(privateFiles, publicFiles, id).value, true);
    GeneratedPairOnly(before, privateFiles, publicFiles, privateFiles, publicFiles, pair);
  }

  /** Taking all, some or none of a generated pair away again touches no other pair. */
  lemma GeneratedPairOnly(before: Stores, privateFiles: set<string>, publicFiles: map<string, string>,
                          privateLeft: set<string>, publicLeft: map<string, string>, pair: KeyPair)
    requires pair.generated && OneLineKey(pair.publicKey)
    requires pair.keyId !in before.privateFiles && pair.keyId !in before.publicFiles
    requires privateFiles == before.privateFiles + {pair.keyId} && publicFiles - {pair.keyId} == before.publicFiles
    requires PairKey(privateFiles, publicFiles, pair.keyId) == Some(pair.publicKey)
    requires privateLeft == privateFiles || privateLeft == privateFiles - {pair.keyId}
    requires publicLeft == publicFiles || publicLeft == publicFiles - {pair.keyId}
    ensures pair.keyId !in privateLeft ==> privateLeft == before.privateFiles
    ensures pair.keyId !in publicLeft ==> publicLeft == before.publicFiles
    ensures KeepsPairs(before, privateLeft, publicLeft) && NewPairsAreLines(before, privateLeft, publicLeft)
  {
    hide KeyValue, OneLineKey;
    assert forall id | id != pair.keyId :: (id in publicFiles <==> id in before.publicFiles);
    assert forall id | id in before.publicFiles :: publicFiles[id] == before.publicFiles[id];
  }

  lemma EntryMeansHasEntry(lines: seq<string>, info: HostKeyInfo)
    ensures (info.keyType, info.keyBase64) in Entries(lines, HostToken(info.host, info.port)) ==>
              HasHostEntry(lines, HostToken(info.host, info.port), info.keyType)
  {
  }
}
