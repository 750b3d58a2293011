/**
 What the stored managed profiles rely on, over any sequence of setups, updates and deletes.
 Setups run one at a time, each against one remote account; several hosts may name one account.
 */
module Credentials {
  import opened Wrappers
  import opened Domain
  import opened Text
  import opened AuthorizedKeys
  import opened SetupErrors
  import opened HostKeys
  import opened KeyStores
  import opened RemoteHomes
  import opened Setups
  import PS = ProfileServices

  type Account = nat

  /** The machine a host, user and port lead to. */
  type Resolver = (string, string, nat) -> Account

  datatype World = World(
    lines: seq<string>,
    privateFiles: set<string>,
    publicFiles: map<string, string>,
    homes: map<Account, Home>,
    profiles: map<string, Profile>)

  function HomeOf(w: World, a: Account): Home {
    if a in w.homes then w.homes[a] else Home(false, None, {})
  }

  /** What a setup against one account sees. */
  function View(w: World, a: Account): Stores {
    Stores(w.lines, w.privateFiles, w.publicFiles, HomeOf(w, a), w.profiles)
  }

  function AccountOf(resolve: Resolver, m: Managed): Account {
    resolve(m.host, m.username, m.sshPort)
  }

  datatype Action =
    | Setup(req: SetupRequest, faults: Faults, result: Result<Profile>)
    | Update(name: string, changes: PS.Changes)
    | Delete(name: string)

  /** One operation; one that is refused changes nothing. */
  ghost predicate Step(resolve: Resolver, w: World, w': World, a: Action) {
    match a
    case Setup(req, faults, result) =>
      var account := resolve(req.host, req.username, req.port);
      && Promise(View(w, account), View(w', account), req, faults, result)
      && forall other: Account | other != account :: HomeOf(w', other) == HomeOf(w, other)
    case Update(name, changes) =>
      || w' == w
      || (name in w.profiles && w' == w.(profiles := w.profiles[name := PS.Changed(w.profiles[name], changes)]))
    case Delete(name) =>
      || w' == w
      || (name in w.profiles && w.profiles[name].managed.None? && w' == w.(profiles := w.profiles - {name}))
  }

  /** A stored profile has its key pair, its host entry, and its key listed on its account. */
  predicate Usable(resolve: Resolver, w: World, m: Managed) {
    var key := PairKey(w.privateFiles, w.publicFiles, m.keyId);
    && key.Some? && OneLineKey(key.value)
    && HasHostEntry(w.lines, HostToken(m.host, m.sshPort), m.hostKeyType)
    && Lists(Content(HomeOf(w, AccountOf(resolve, m))), KeyIdentity(key.value).value)
  }

  /** Every key pair is a single-line key, and every managed profile is usable. */
  ghost predicate CredInv(resolve: Resolver, w: World) {
    && (forall id | PairKey(w.privateFiles, w.publicFiles, id).Some? ::
          OneLineKey(PairKey(w.privateFiles, w.publicFiles, id).value))
    && (forall name | name in w.profiles && w.profiles[name].managed.Some? ::
          Usable(resolve, w, w.profiles[name].managed.value))
  }

  /** A fresh installation: no key pairs yet, and only legacy profiles. */
  predicate Fresh(w: World) {
    && w.privateFiles == {}
    && forall name | name in w.profiles :: w.profiles[name].managed.None?
  }

  lemma FreshIsFine(resolve: Resolver, w: World)
    requires Fresh(w)
    ensures CredInv(resolve, w)
  {
    hide KeyValue, OneLineKey, Usable;
    assert forall id :: PairKey(w.privateFiles, w.publicFiles, id).None?;
  }

  /** Adding lines keeps the entries that were there. */
  lemma {:induction false} EntriesGrow(lines: seq<string>, more: seq<string>, token: string)
    requires lines <= more
    ensures Entries(lines, token) <= Entries(more, token)
    decreases |more|
  {
    hide Words;
    if lines != more {
      EntriesGrow(lines, more[..|more| - 1], token);
    }
  }

  lemma HostEntryStays(lines: seq<string>, more: seq<string>, token: string, keyType: string)
    requires lines <= more && HasHostEntry(lines, token, keyType)
    ensures HasHostEntry(more, token, keyType)
  {
    hide Entries;
    EntriesGrow(lines, more, token);
    var i :| 0 <= i < |Entries(lines, token)| && Entries(lines, token)[i].0 == keyType;
    assert Entries(more, token)[i] == Entries(lines, token)[i];
  }

  /** What one operation leaves of a usable profile: everything, with the same public key. */
  lemma UsableStays(resolve: Resolver, w: World, w': World, a: Action, m: Managed)
    requires Step(resolve, w, w', a) && Usable(resolve, w, m)
    ensures Usable(resolve, w', m)
    ensures PairKey(w'.privateFiles, w'.publicFiles, m.keyId) == PairKey(w.privateFiles, w.publicFiles, m.keyId)
  {
    hide KeyValue, Lists, KeyIdentity, HasHostEntry, Present, Fits, Restored;
    if a.Setup? {
      HostEntryStays(w.lines, w'.lines, HostToken(m.host, m.sshPort), m.hostKeyType);
      var account := resolve(a.req.host, a.req.username, a.req.port);
      var id := KeyIdentity(PairKey(w.privateFiles, w.publicFiles, m.keyId).value).value;
      if AccountOf(resolve, m) == account {
        assert Lists(Content(View(w, account).home), id);
      }
    }
  }

  /** Every operation, failing or not, keeps every managed profile usable. */
  lemma StepKeepsCredInv(resolve: Resolver, w: World, w': World, a: Action)
    requires CredInv(resolve, w) && Step(resolve, w, w', a)
    ensures CredInv(resolve, w')
  {
    hide KeyValue, OneLineKey, Lists, KeyIdentity, HasHostEntry, Usable;
    forall name | name in w'.profiles && w'.profiles[name].managed.Some?
      ensures Usable(resolve, w', w'.profiles[name].managed.value)
    {
      var m := w'.profiles[name].managed.value;
      if name in w.profiles && w.profiles[name].managed == Some(m) {
        UsableStays(resolve, w, w', a, m);
      } else {
        NewProfileIsUsable(resolve, w, w', a, name);
      }
    }
    KeysStayLines(resolve, w, w', a);
  }

  lemma KeysStayLines(resolve: Resolver, w: World, w': World, a: Action)
    requires CredInv(resolve, w) && Step(resolve, w, w', a)
    ensures forall id | PairKey(w'.privateFiles, w'.publicFiles, id).Some? ::
              OneLineKey(PairKey(w'.privateFiles, w'.publicFiles, id).value)
  {
    hide KeyValue, OneLineKey, Usable, Present, Fits, Restored, HasHostEntry;
  }

  /** Only a setup makes a managed profile, and it leaves it usable. */
  lemma NewProfileIsUsable(resolve: Resolver, w: World, w': World, a: Action, name: string)
    requires CredInv(resolve, w) && Step(resolve, w, w', a)
    requires name in w'.profiles && w'.profiles[name].managed.Some?
    requires !(name in w.profiles && w.profiles[name].managed == w'.profiles[name].managed)
    ensures Usable(resolve, w', w'.profiles[name].managed.value)
  {
    hide KeyValue, OneLineKey, Lists, KeyIdentity, HasHostEntry;
    KeysStayLines(resolve, w, w', a);
    assert a.Setup? && a.result.Ok? && w'.profiles[name] == a.result.value;
    OneLineListsItself(PairKey(w'.privateFiles, w'.publicFiles, a.result.value.managed.value.keyId).value);
  }

  /** A history: each world follows from the one before by some operation. */
  ghost predicate IsHistory(resolve: Resolver, ws: seq<World>, acts: seq<Action>) {
    && |ws| == |acts| + 1
    && forall i | 0 <= i < |acts| :: Step(resolve, ws[i], ws[i + 1], acts[i])
  }

  /** Existing credentials survive: in every world of every history, every managed profile is usable. */
  lemma {:induction false} CredentialsSurvive(resolve: Resolver, ws: seq<World>, acts: seq<Action>, i: nat)
    requires IsHistory(resolve, ws, acts) && CredInv(resolve, ws[0]) && i < |ws|
    ensures CredInv(resolve, ws[i])
  {
    hide Step, CredInv;
    if i > 0 {
      CredentialsSurvive(resolve, ws, acts, i - 1);
      StepKeepsCredInv(resolve, ws[i - 1], ws[i], acts[i - 1]);
    }
  }

  /**
   A managed profile is for good: once stored it is never deleted or moved to another account,
   and from then on it stays usable with the very same public key.
   */
  lemma {:induction false} ManagedIsForGood(resolve: Resolver, ws: seq<World>, acts: seq<Action>, i: nat, j: nat,
      name: string)
    requires IsHistory(resolve, ws, acts) && CredInv(resolve, ws[0]) && i <= j < |ws|
    requires name in ws[i].profiles && ws[i].profiles[name].managed.Some?
    ensures name in ws[j].profiles && ws[j].profiles[name].managed == ws[i].profiles[name].managed
    ensures var m := ws[i].profiles[name].managed.value;
            && Usable(resolve, ws[j], m)
            && PairKey(ws[j].privateFiles, ws[j].publicFiles, m.keyId) ==
              PairKey(ws[i].privateFiles, ws[i].publicFiles, m.keyId)
    decreases j
  {
    hide Step, Usable, KeyValue, OneLineKey;
    CredentialsSurvive(resolve, ws, acts, j);
    if i < j {
      ManagedIsForGood(resolve, ws, acts, i, j - 1, name);
      StepKeepsManaged(resolve, ws[j - 1], ws[j], acts[j - 1], name);
      UsableStays(resolve, ws[j - 1], ws[j], acts[j - 1], ws[i].profiles[name].managed.value);
    }
  }

  lemma StepKeepsManaged(resolve: Resolver, w: World, w': World, a: Action, name: string)
    requires Step(resolve, w, w', a) && name in w.profiles && w.profiles[name].managed.Some?
    ensures name in w'.profiles && w'.profiles[name].managed == w.profiles[name].managed
  {
    hide Keeps, Present, Fits;
  }
}
