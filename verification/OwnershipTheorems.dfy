/**
 What every interleaving of the ownership protocol keeps: no orphaned tunnel, no foreign
 process signalled, no evidence dropped early, and only the lock holder writes.
 */
module OwnershipTheorems {
  import opened Wrappers
  import opened Domain
  import opened Ownership

  // ---------------------------------------------------------------- the invariant

  /** The actions that start or end a process. */
  predicate MovesProcess(act: Action) {
    act.Exit? || act.Spawn? || act.StartChild? || act.StopChild?
  }

  /** The actions that change a record or a hold without moving a process. */
  predicate WritesRecord(act: Action) {
    act.RecordChild? || act.SaveRecord? || act.ClearRecord?
  }

  lemma StoreStepMovesNothing(s: State, act: Action)
    requires Enabled(s, act) && !MovesProcess(act)
    ensures var t := Apply(s, act); t.table == s.table && t.used == s.used && t.origin == s.origin
  {
    hide Separated, Matches, Close, Released, Fresh, Fits, MayUpdate, MayRecord, MayClear, MaySave, Live;
  }

  lemma ProcessStepKeepsTable(s: State, act: Action)
    requires TableInv(s) && Enabled(s, act) && MovesProcess(act)
    ensures TableInv(Apply(s, act))
  {
  }

  lemma StepKeepsTable(s: State, act: Action)
    requires TableInv(s) && Enabled(s, act)
    ensures TableInv(Apply(s, act))
  {
    hide Enabled, Apply, Separated;
    if MovesProcess(act) {
      ProcessStepKeepsTable(s, act);
    } else {
      StoreStepMovesNothing(s, act);
    }
  }

  lemma ProcessStepKeepsRecords(s: State, act: Action)
    requires Inv(s) && Enabled(s, act) && MovesProcess(act)
    ensures RecordInv(Apply(s, act))
  {
    hide Separated, Live, PendingInv, NoOrphans;
  }

  lemma StoreStepKeepsRecords(s: State, act: Action)
    requires Inv(s) && Enabled(s, act) && !MovesProcess(act)
    ensures RecordInv(Apply(s, act))
  {
    hide Separated, Matches, Close, Released, Live, Fresh, NoOrphans, TableInv;
  }

  lemma StepKeepsRecords(s: State, act: Action)
    requires Inv(s) && Enabled(s, act)
    ensures RecordInv(Apply(s, act))
  {
    hide Inv, Enabled, Apply, RecordInv;
    if MovesProcess(act) {
      ProcessStepKeepsRecords(s, act);
    } else {
      StoreStepKeepsRecords(s, act);
    }
  }

  lemma ProcessStepKeepsPendingOk(s: State, act: Action, n: string)
    requires Inv(s) && Enabled(s, act) && MovesProcess(act)
    ensures PendingOk(Apply(s, act), n)
  {
    assert n in s.holds ==> PendingOk(s, n);
  }

  lemma WriteStepKeepsPendingOk(s: State, act: Action, n: string)
    requires Inv(s) && Enabled(s, act) && WritesRecord(act)
    ensures PendingOk(Apply(s, act), n)
  {
    hide Separated, Matches, Close, Released, RecordInv, TableInv, NoOrphans;
    assert n in s.holds ==> PendingOk(s, n);
  }

  lemma OtherStepKeepsPendingOk(s: State, act: Action, n: string)
    requires Inv(s) && Enabled(s, act) && !MovesProcess(act) && !WritesRecord(act)
    ensures PendingOk(Apply(s, act), n)
  {
    hide Separated, Matches, Close, Released, MayClear, Fresh, RecordInv, TableInv, NoOrphans, MayUpdate;
    assert n in s.holds ==> PendingOk(s, n);
  }

  lemma StepKeepsPendingOk(s: State, act: Action, n: string)
    requires Inv(s) && Enabled(s, act)
    ensures PendingOk(Apply(s, act), n)
  {
    hide Inv, Enabled, Apply, PendingOk;
    if MovesProcess(act) {
      ProcessStepKeepsPendingOk(s, act, n);
    } else if WritesRecord(act) {
      WriteStepKeepsPendingOk(s, act, n);
    } else {
      OtherStepKeepsPendingOk(s, act, n);
    }
  }

  lemma StartStepAccounts(s: State, act: Action, id: Identity)
    requires Inv(s) && Enabled(s, act) && (act.Spawn? || act.StartChild?)
    requires id in Apply(s, act).origin && Live(Apply(s, act), id)
    ensures Accounted(Apply(s, act), id)
  {
    hide Separated, RecordInv;
    assert forall n | n in s.holds :: PendingOk(s, n);
  }

  lemma EndStepAccounts(s: State, act: Action, id: Identity)
    requires Inv(s) && Enabled(s, act) && (act.Exit? || act.StopChild?)
    requires id in Apply(s, act).origin && Live(Apply(s, act), id)
    ensures Accounted(Apply(s, act), id)
  {
    hide Separated, RecordInv;
    assert forall n | n in s.holds :: PendingOk(s, n);
  }

  lemma ProcessStepAccounts(s: State, act: Action, id: Identity)
    requires Inv(s) && Enabled(s, act) && MovesProcess(act) && id in Apply(s, act).origin && Live(Apply(s, act), id)
    ensures Accounted(Apply(s, act), id)
  {
    hide Inv, Enabled, Apply, Accounted, Live;
    if act.Spawn? || act.StartChild? {
      StartStepAccounts(s, act, id);
    } else {
      EndStepAccounts(s, act, id);
    }
  }

  lemma WriteStepAccounts(s: State, act: Action, id: Identity)
    requires Inv(s) && Enabled(s, act) && WritesRecord(act) && id in s.origin && Live(s, id)
    ensures Accounted(Apply(s, act), id)
  {
    hide Separated, Matches, Close, Released;
    var n := s.origin[id].name;
    assert n in s.holds ==> PendingOk(s, n);
  }

  lemma OtherStepAccounts(s: State, act: Action, id: Identity)
    requires Inv(s) && Enabled(s, act) && !MovesProcess(act) && !WritesRecord(act) && id in s.origin && Live(s, id)
    ensures Accounted(Apply(s, act), id)
  {
    hide Separated, Matches, Close, Released, Fits, MayUpdate;
    var n := s.origin[id].name;
    assert n in s.holds ==> PendingOk(s, n);
  }

  lemma StoreStepAccounts(s: State, act: Action, id: Identity)
    requires Inv(s) && Enabled(s, act) && !MovesProcess(act) && id in s.origin && Live(s, id)
    ensures Accounted(Apply(s, act), id)
  {
    hide Inv, Enabled, Apply, Accounted, Live;
    if WritesRecord(act) {
      WriteStepAccounts(s, act, id);
    } else {
      OtherStepAccounts(s, act, id);
    }
  }

  lemma StepKeepsNoOrphans(s: State, act: Action)
    requires Inv(s) && Enabled(s, act)
    ensures NoOrphans(Apply(s, act))
  {
    forall id | id in Apply(s, act).origin && Live(Apply(s, act), id) ensures Accounted(Apply(s, act), id) {
      if MovesProcess(act) {
        ProcessStepAccounts(s, act, id);
      } else {
        StoreStepAccounts(s, act, id);
      }
    }
  }

  lemma StepKeepsInv(s: State, act: Action)
    requires Inv(s) && Enabled(s, act)
    ensures Inv(Apply(s, act))
  {
    StepKeepsTable(s, act);
    StepKeepsRecords(s, act);
    forall n ensures PendingOk(Apply(s, act), n) {
      StepKeepsPendingOk(s, act, n);
    }
    StepKeepsNoOrphans(s, act);
  }

  /** Over any interleaving, in every reachable state. */
  lemma {:induction false} RunKeepsInv(s: State, acts: seq<Action>)
    requires Inv(s) && IsRun(s, acts)
    ensures Inv(Exec(s, acts))
  {
    if acts != [] {
      var init := acts[..|acts| - 1];
      RunKeepsInv(s, init);
      StepKeepsInv(Exec(s, init), acts[|acts| - 1]);
    }
  }

  /** A prefix of a run is a run, and the action after it was enabled there. */
  lemma {:induction false} RunPrefix(s: State, acts: seq<Action>, k: nat)
    requires IsRun(s, acts) && k <= |acts|
    ensures IsRun(s, acts[..k])
    ensures k < |acts| ==> Enabled(Exec(s, acts[..k]), acts[k])
    ensures k < |acts| ==> Exec(s, acts[..k + 1]) == Apply(Exec(s, acts[..k]), acts[k])
    decreases |acts|
  {
    if k == |acts| {
      assert acts[..k] == acts;
    } else {
      var init := acts[..|acts| - 1];
      RunPrefix(s, init, k);
      assert init[..k] == acts[..k];
      if k == |acts| - 1 {
        assert acts[..k + 1] == acts;
      } else {
        assert init[..k + 1] == acts[..k + 1];
      }
    }
  }

  lemma {:induction false} RunAppend(s: State, acts: seq<Action>, more: seq<Action>)
    requires IsRun(s, acts) && IsRun(Exec(s, acts), more)
    ensures IsRun(s, acts + more) && Exec(s, acts + more) == Exec(Exec(s, acts), more)
  {
    if more == [] {
      assert acts + more == acts;
    } else {
      var init := more[..|more| - 1];
      RunAppend(s, acts, init);
      assert (acts + more)[..|acts + more| - 1] == acts + init;
      assert (acts + more)[|acts + more| - 1] == more[|more| - 1];
    }
  }

  /** No orphans: in every reachable state at most one RAB process is live for a profile. */
  lemma AtMostOneLive(s: State, acts: seq<Action>, i: Identity, j: Identity)
    requires Inv(s) && IsRun(s, acts)
    requires var t := Exec(s, acts);
             i in t.origin && j in t.origin && t.origin[i].name == t.origin[j].name && Live(t, i) && Live(t, j)
    ensures i == j && Accounted(Exec(s, acts), i)
  {
    RunKeepsInv(s, acts);
    var t := Exec(s, acts);
    assert t.origin[i].name in t.holds ==> PendingOk(t, t.origin[i].name);
  }

  /** A record's profile exists and has its port, so a port change never strands a record. */
  lemma RecordMatchesProfile(s: State, acts: seq<Action>, n: string)
    requires Inv(s) && IsRun(s, acts) && n in Exec(s, acts).records
    ensures var t := Exec(s, acts);
            n in t.profiles && t.profiles[n].remotePort == t.records[n].port
  {
    RunKeepsInv(s, acts);
  }

  /** ProcessInspector.matches is exact for the stored record. */
  lemma MatchesIsLive(s: State, n: string)
    requires Inv(s) && n in s.records
    ensures Matches(s, s.records[n]) <==> Live(s, RecId(s.records[n]))
    ensures RecId(s.records[n]) in s.used
  {
  }

  // ---------------------------------------------------------------- time

  /** What never changes as time passes: identities stay used, the dead stay dead, origins stay. */
  ghost predicate Older(s: State, t: State) {
    && (forall id | id in s.used :: id in t.used && (Live(t, id) ==> Live(s, id)))
    && (forall id | id in s.origin :: id in t.origin && t.origin[id] == s.origin[id])
  }

  lemma ProcessStepIsOlder(s: State, act: Action)
    requires Inv(s) && Enabled(s, act) && MovesProcess(act)
    ensures Older(s, Apply(s, act))
  {
    hide Separated, Matches, Close, Released, RecordInv, PendingInv, NoOrphans;
  }

  lemma StepIsOlder(s: State, act: Action)
    requires Inv(s) && Enabled(s, act)
    ensures Older(s, Apply(s, act))
  {
    hide Inv, Enabled, Apply;
    if MovesProcess(act) {
      ProcessStepIsOlder(s, act);
    } else {
      StoreStepMovesNothing(s, act);
    }
  }

  lemma {:induction false} RunIsOlder(s: State, acts: seq<Action>)
    requires Inv(s) && IsRun(s, acts)
    ensures Older(s, Exec(s, acts))
  {
    if acts != [] {
      var init := acts[..|acts| - 1];
      RunIsOlder(s, init);
      RunKeepsInv(s, init);
      StepIsOlder(Exec(s, init), acts[|acts| - 1]);
    }
  }

  lemma {:induction false} LaterIsOlder(s: State, acts: seq<Action>, j: nat, k: nat)
    requires Inv(s) && IsRun(s, acts) && j <= k <= |acts|
    ensures Older(Exec(s, acts[..j]), Exec(s, acts[..k]))
    decreases k - j
  {
    if j < k {
      LaterIsOlder(s, acts, j, k - 1);
      RunPrefix(s, acts, k - 1);
      RunKeepsInv(s, acts[..k - 1]);
      StepIsOlder(Exec(s, acts[..k - 1]), acts[k - 1]);
    }
  }

  // ---------------------------------------------------------------- signal safety

  /** The process an action signals: whatever has the record's pid, or the child. */
  function Victim(s: State, act: Action): Option<Identity> {
    match act
    case Signal(a, n) =>
      if n in s.records && s.records[n].pid in s.table then Some(s.table[s.records[n].pid]) else None
    case StopChild(a, n, id) => if Live(s, id) then Some(id) else None
    case _ => None
  }

  /** Every process ever signalled was started by RAB for that profile, and by this agent or recorded. */
  lemma SignalSafety(s: State, acts: seq<Action>, k: nat)
    requires Inv(s) && IsRun(s, acts) && k < |acts|
    requires Victim(Exec(s, acts[..k]), acts[k]).Some?
    ensures var t := Exec(s, acts[..k]);
            var victim := Victim(t, acts[k]).value;
            && victim in t.origin && t.origin[victim].name == acts[k].name
            && (|| t.origin[victim].starter == acts[k].agent
                || (acts[k].name in t.records && RecId(t.records[acts[k].name]) == victim))
  {
    RunPrefix(s, acts, k);
    RunKeepsInv(s, acts[..k]);
  }

  /** A process that RAB did not start is never signalled, even when it reuses a recorded pid. */
  lemma ForeignNeverSignalled(s: State, acts: seq<Action>, j: nat, k: nat, foreign: Identity)
    requires Inv(s) && IsRun(s, acts) && j < k < |acts| && acts[j] == Spawn(foreign)
    ensures Victim(Exec(s, acts[..k]), acts[k]) != Some(foreign)
  {
    SpawnedIsForeign(s, acts, j, k, foreign);
    if Victim(Exec(s, acts[..k]), acts[k]) == Some(foreign) {
      SignalSafety(s, acts, k);
    }
  }

  lemma {:induction false} SpawnedIsForeign(s: State, acts: seq<Action>, j: nat, k: nat, foreign: Identity)
    requires Inv(s) && IsRun(s, acts) && j < k <= |acts| && acts[j] == Spawn(foreign)
    ensures foreign in Exec(s, acts[..k]).used && foreign !in Exec(s, acts[..k]).origin
    decreases k
  {
    hide IsRun, Exec, Separated, Matches, MaySave, MayClear;
    RunPrefix(s, acts, k - 1);
    RunKeepsInv(s, acts[..k - 1]);
    if j < k - 1 {
      SpawnedIsForeign(s, acts, j, k - 1, foreign);
    }
  }

  // ---------------------------------------------------------------- only the holder writes

  lemma OnlyTheHolderWrites(s: State, act: Action, n: string)
    requires Enabled(s, act)
    requires SlotOf(Apply(s, act), n).profile != SlotOf(s, n).profile
              || SlotOf(Apply(s, act), n).record != SlotOf(s, n).record
    ensures Actor(act).Some? && Holds(s, Actor(act).value, n)
  {
  }

  /** Everything that concerns one profile name. */
  datatype Slot = Slot(profile: Option<Profile>, record: Option<Record>, hold: Option<Hold>)

  function SlotOf(s: State, n: string): Slot {
    Slot(
      if n in s.profiles then Some(s.profiles[n]) else None,
      if n in s.records then Some(s.records[n]) else None,
      if n in s.holds then Some(s.holds[n]) else None)
  }

  /** What an agent may rely on while all the others run: nothing it holds moves. */
  ghost predicate Rely(s: State, t: State, a: Agent) {
    && (forall n | Holds(s, a, n) :: SlotOf(t, n) == SlotOf(s, n))
    && Older(s, t)
  }

  predicate ByOthers(acts: seq<Action>, a: Agent) {
    forall i | 0 <= i < |acts| :: Actor(acts[i]) != Some(a)
  }

  lemma {:induction false} OthersKeepWhatIHold(s: State, acts: seq<Action>, a: Agent)
    requires Inv(s) && IsRun(s, acts) && ByOthers(acts, a)
    ensures Rely(s, Exec(s, acts), a)
  {
    RunIsOlder(s, acts);
    forall n | Holds(s, a, n) ensures SlotOf(Exec(s, acts), n) == SlotOf(s, n) {
      OthersKeepSlot(s, acts, a, n);
    }
  }

  /** While an agent holds a profile's lock, its profile and record are stable under everyone else. */
  lemma {:induction false} OthersKeepSlot(s: State, acts: seq<Action>, a: Agent, n: string)
    requires IsRun(s, acts) && ByOthers(acts, a) && Holds(s, a, n)
    ensures SlotOf(Exec(s, acts), n) == SlotOf(s, n)
  {
    if acts != [] {
      var init := acts[..|acts| - 1];
      assert ByOthers(init, a);
      OthersKeepSlot(s, init, a, n);
      OtherStepKeepsSlot(Exec(s, init), acts[|acts| - 1], a, n);
    }
  }

  lemma OtherStepKeepsSlot(s: State, act: Action, a: Agent, n: string)
    requires Enabled(s, act) && Actor(act) != Some(a) && Holds(s, a, n)
    ensures SlotOf(Apply(s, act), n) == SlotOf(s, n)
  {
    hide Fresh, Fits, MayClear, Matches, Released;
  }

  /** Nobody else's action gives an agent a lock. */
  lemma {:induction false} OthersGiveNothing(s: State, acts: seq<Action>, a: Agent, n: string)
    requires IsRun(s, acts) && ByOthers(acts, a) && !Holds(s, a, n)
    ensures !Holds(Exec(s, acts), a, n)
  {
    if acts != [] {
      var init := acts[..|acts| - 1];
      assert ByOthers(init, a);
      OthersGiveNothing(s, init, a, n);
      OtherStepGivesNothing(Exec(s, init), acts[|acts| - 1], a, n);
    }
  }

  lemma OtherStepGivesNothing(s: State, act: Action, a: Agent, n: string)
    requires Enabled(s, act) && Actor(act) != Some(a) && !Holds(s, a, n)
    ensures !Holds(Apply(s, act), a, n)
  {
    hide Fresh, Fits, MaySave, MayClear, MayUpdate, Matches, Live;
  }

  lemma StepKeepsManagedPart(s: State, act: Action, n: string)
    requires Enabled(s, act) && n in s.profiles && s.profiles[n].managed.Some?
    ensures n in Apply(s, act).profiles && Apply(s, act).profiles[n].managed == s.profiles[n].managed
  {
    hide Fresh, MaySave, MayClear, Matches, Live;
  }

  /** A managed profile is for good: no run deletes it or changes its managed part. */
  lemma {:induction false} ManagedPartStays(s: State, acts: seq<Action>, n: string)
    requires IsRun(s, acts) && n in s.profiles && s.profiles[n].managed.Some?
    ensures n in Exec(s, acts).profiles && Exec(s, acts).profiles[n].managed == s.profiles[n].managed
  {
    hide Enabled, Apply;
    if acts != [] {
      ManagedPartStays(s, acts[..|acts| - 1], n);
      StepKeepsManagedPart(Exec(s, acts[..|acts| - 1]), acts[|acts| - 1], n);
    }
  }

  // ---------------------------------------------------------------- evidence

  /** The actions at which the observations of a lock holder start afresh. */
  predicate Opens(act: Action, n: string) {
    || ((act.Lock? || act.BeginOperation?) && act.name == n)
    || (act.RecordChild? && act.record.name == n)
  }

  predicate Sees(act: Action, n: string) {
    (act.SeeMatch? || act.SeeGone? || act.SeeAbsent? || act.SeeOwnership? || act.Saw?) && act.name == n
  }

  /** Where the current operation on `n` began: a lock, a new operation, or the recording of a child. */
  function OpenedAt(acts: seq<Action>, n: string): int {
    if acts == [] then -1
    else if Opens(acts[|acts| - 1], n) then |acts| - 1
    else OpenedAt(acts[..|acts| - 1], n)
  }

  /** Where `n` was observed last. */
  function SeenLastAt(acts: seq<Action>, n: string): int {
    if acts == [] then -1
    else if Sees(acts[|acts| - 1], n) then |acts| - 1
    else SeenLastAt(acts[..|acts| - 1], n)
  }

  lemma {:induction false} OpenedAtIsLast(acts: seq<Action>, n: string)
    ensures -1 <= OpenedAt(acts, n) < |acts|
    ensures OpenedAt(acts, n) >= 0 ==> Opens(acts[OpenedAt(acts, n)], n)
    ensures forall j | OpenedAt(acts, n) < j < |acts| :: !Opens(acts[j], n)
  {
    if acts != [] {
      OpenedAtIsLast(acts[..|acts| - 1], n);
    }
  }

  ghost predicate LedgerIsTrue(acts: seq<Action>, from: nat, n: string, h: Hold)
    requires from <= |acts|
  {
    && (forall id :: id in h.ledger.matched <==> SeeMatch(h.agent, n, id) in acts[from..])
    && (forall id :: id in h.ledger.gone <==> SeeGone(h.agent, n, id) in acts[from..])
    && (forall port :: port in h.ledger.absent <==> SeeAbsent(h.agent, n, port) in acts[from..])
    && (forall answer :: answer in h.ledger.answers <==> Saw(h.agent, n, answer) in acts[from..])
  }

  /** A ledger holds exactly what its holder observed and was told in its current operation. */
  lemma {:induction false} LedgerMeaning(s: State, acts: seq<Action>, n: string)
    requires s.holds == map[] && IsRun(s, acts) && n in Exec(s, acts).holds
    ensures 0 <= OpenedAt(acts, n) < |acts|
    ensures Opens(acts[OpenedAt(acts, n)], n) && acts[OpenedAt(acts, n)].agent == Exec(s, acts).holds[n].agent
    ensures LedgerIsTrue(acts, OpenedAt(acts, n), n, Exec(s, acts).holds[n])
  {
    hide IsRun, Exec, Enabled, Apply;
    OpenedAtIsLast(acts, n);
    RunEnds(s, acts);
    var init, last := acts[..|acts| - 1], acts[|acts| - 1];
    if Opens(last, n) {
      OpeningStep(Exec(s, init), last, n);
    } else {
      LedgerStep(Exec(s, init), last, n);
      LedgerMeaning(s, init, n);
      LedgerStays(acts, OpenedAt(acts, n), n, Exec(s, init).holds[n], Exec(s, acts).holds[n]);
    }
  }

  lemma LedgerStays(acts: seq<Action>, from: nat, n: string, before: Hold, after: Hold)
    requires acts != [] && from < |acts| && LedgerIsTrue(acts[..|acts| - 1], from, n, before)
    requires before.agent == after.agent && after.ledger == Noted(before.ledger, acts[|acts| - 1], n)
    requires Sees(acts[|acts| - 1], n) ==> acts[|acts| - 1].agent == after.agent
    ensures LedgerIsTrue(acts, from, n, after)
  {
    var last := acts[|acts| - 1];
    assert acts[from..] == acts[..|acts| - 1][from..] + [last];
  }

  /** A run that leads to a hold is not empty, and its last action was enabled. */
  lemma RunEnds(s: State, acts: seq<Action>)
    requires IsRun(s, acts)
    ensures acts == [] ==> Exec(s, acts) == s
    ensures acts != [] ==>
              var init := acts[..|acts| - 1];
              && IsRun(s, init) && Enabled(Exec(s, init), acts[|acts| - 1])
              && Exec(s, acts) == Apply(Exec(s, init), acts[|acts| - 1])
  {
  }

  lemma OpeningStep(s: State, act: Action, n: string)
    requires Enabled(s, act) && Opens(act, n)
    ensures n in Apply(s, act).holds && Apply(s, act).holds[n].agent == act.agent
    ensures Apply(s, act).holds[n].ledger == EMPTY_LEDGER
  {
    hide Fresh, MayClear, MayUpdate, Matches, Live;
  }

  lemma SeeingStep(s: State, act: Action, n: string)
    requires Enabled(s, act) && Sees(act, n)
    ensures n in s.holds && n in Apply(s, act).holds && s.holds[n].agent == Apply(s, act).holds[n].agent == act.agent
    ensures Apply(s, act).holds[n].ledger == Noted(s.holds[n].ledger, act, n)
  {
    hide Live;
  }

  /** The actions that an agent performs on a hold itself. */
  predicate ChangesHold(act: Action) {
    || act.Lock? || act.Unlock? || act.BeginOperation? || act.RecordChild? || act.StartChild? || act.StopChild?
    || act.SeeMatch? || act.SeeGone? || act.SeeAbsent? || act.SeeOwnership? || act.Saw?
  }

  lemma OtherStepKeepsHolds(s: State, act: Action)
    requires Enabled(s, act) && !ChangesHold(act)
    ensures Apply(s, act).holds == s.holds
  {
    hide Fresh, Fits, MaySave, MayClear, MayUpdate, Matches, Live, Holds;
  }

  lemma UnseeingHoldStep(s: State, act: Action, n: string)
    requires Enabled(s, act) && ChangesHold(act) && n in Apply(s, act).holds && !Opens(act, n) && !Sees(act, n)
    ensures n in s.holds && s.holds[n].agent == Apply(s, act).holds[n].agent
    ensures s.holds[n].ledger == Apply(s, act).holds[n].ledger
  {
    hide Fresh, Fits, MaySave, MayClear, MayUpdate, Matches, Live;
  }

  lemma UnseeingStep(s: State, act: Action, n: string)
    requires Enabled(s, act) && n in Apply(s, act).holds && !Opens(act, n) && !Sees(act, n)
    ensures n in s.holds && s.holds[n].agent == Apply(s, act).holds[n].agent
    ensures s.holds[n].ledger == Apply(s, act).holds[n].ledger
  {
    hide Enabled, Apply, Opens, Sees;
    if ChangesHold(act) {
      UnseeingHoldStep(s, act, n);
    } else {
      OtherStepKeepsHolds(s, act);
    }
  }

  /** Any other step adds to a ledger only the observation it is. */
  lemma LedgerStep(s: State, act: Action, n: string)
    requires Enabled(s, act) && n in Apply(s, act).holds && !Opens(act, n)
    ensures n in s.holds && s.holds[n].agent == Apply(s, act).holds[n].agent
    ensures Apply(s, act).holds[n].ledger == Noted(s.holds[n].ledger, act, n)
    ensures Sees(act, n) ==> act.agent == s.holds[n].agent
  {
    hide Enabled, Apply;
    if Sees(act, n) {
      SeeingStep(s, act, n);
    } else {
      UnseeingStep(s, act, n);
    }
  }

  function Noted(l: Ledger, act: Action, n: string): Ledger {
    match act
    case SeeMatch(_, m, id) => if m == n then SawMatch(l, id) else l
    case SeeGone(_, m, id) => if m == n then SawGone(l, id) else l
    case SeeAbsent(_, m, port) => if m == n then SawAbsent(l, port) else l
    case SeeOwnership(_, m, remote) => if m == n then SawOwner(l, remote) else l
    case Saw(_, m, answer) => if m == n then SawAnswer(l, answer) else l
    case _ => l
  }

  /** A session counts as verified only while that is the latest observation of the profile. */
  lemma {:induction false} VerifiedIsLatest(s: State, acts: seq<Action>, n: string)
    requires s.holds == map[] && IsRun(s, acts) && n in Exec(s, acts).holds
    requires Exec(s, acts).holds[n].ledger.verified.Some?
    ensures 0 <= OpenedAt(acts, n) < SeenLastAt(acts, n) < |acts|
    ensures var h := Exec(s, acts).holds[n];
            acts[SeenLastAt(acts, n)] == SeeOwnership(h.agent, n, h.ledger.verified.value)
  {
    hide IsRun, Exec, Enabled, Apply;
    RunEnds(s, acts);
    OpenedAtIsLast(acts, n);
    var init, last := acts[..|acts| - 1], acts[|acts| - 1];
    if Opens(last, n) {
      OpeningStep(Exec(s, init), last, n);
    } else {
      LedgerStep(Exec(s, init), last, n);
      LedgerMeaning(s, init, n);
      if !Sees(last, n) {
        VerifiedIsLatest(s, init, n);
      }
    }
  }

  /** A record disappears only through its lock holder's ClearRecord, under the evidence rule. */
  lemma OnlyClearDropsARecord(s: State, act: Action, n: string)
    requires Enabled(s, act) && n in s.records && n !in Apply(s, act).records
    ensures act.ClearRecord? && act.name == n && Holds(s, act.agent, n) && MayClear(s, n)
  {
  }

  /** Seeing a process alive comes before seeing it gone: the dead never come back. */
  lemma AliveThenGone(s: State, acts: seq<Action>, i: nat, j: nat, a: Agent, n: string, id: Identity)
    requires Inv(s) && IsRun(s, acts) && i < |acts| && j < |acts|
    requires acts[i] == SeeMatch(a, n, id) && acts[j] == SeeGone(a, n, id)
    ensures i < j
  {
    RunPrefix(s, acts, i);
    RunPrefix(s, acts, j);
    if j < i {
      LaterIsOlder(s, acts, j, i);
    }
  }

  /** What was seen before a child was recorded, or in an earlier operation, never justifies dropping its record. */
  lemma EarlierSightsDoNotCount(s: State, act: Action, n: string, exits: bool)
    requires Enabled(s, act) && Opens(act, n)
    requires n in Apply(s, act).records && Apply(s, act).records[n].remote.Some?
    requires exits ==> Enabled(Apply(s, act), Exit(RecId(Apply(s, act).records[n])))
    ensures var t := Apply(s, act);
            var u := if exits then Apply(t, Exit(RecId(t.records[n]))) else t;
            forall a: Agent :: !Enabled(u, ClearRecord(a, n))
  {
    OpeningStep(s, act, n);
  }

  /**
   Evidence is never dropped early. When a record with a remote identity disappears, its
   process is dead, and within the operation that removed it the agent either saw that process
   match and later saw it gone, or saw its port free. No child was recorded for the profile
   after those observations, so they are about this record.
   */
  lemma EvidenceNeverDroppedEarly(s: State, acts: seq<Action>, k: nat, n: string)
    returns (matchedAt: int, seenAt: int)
    requires Init(s) && IsRun(s, acts) && k < |acts|
    requires n in Exec(s, acts[..k]).records && n !in Exec(s, acts[..k + 1]).records
    requires Exec(s, acts[..k]).records[n].remote.Some?
    ensures acts[k].ClearRecord? && acts[k].name == n
    ensures var r := Exec(s, acts[..k]).records[n];
            var from := OpenedAt(acts[..k], n);
            && 0 <= from < seenAt < k && Opens(acts[from], n) && acts[from].agent == acts[k].agent
            && (forall j | from < j < k :: !Opens(acts[j], n))
            && !Live(Exec(s, acts[..k]), RecId(r))
            && ((acts[seenAt] == SeeAbsent(acts[k].agent, n, r.port))
                || (from < matchedAt < seenAt
                    && acts[matchedAt] == SeeMatch(acts[k].agent, n, RecId(r))
                    && acts[seenAt] == SeeGone(acts[k].agent, n, RecId(r))))
  {
    hide IsRun, Exec, Apply;
    var before := acts[..k];
    RunPrefix(s, acts, k);
    OnlyClearDropsARecord(Exec(s, before), acts[k], n);
    LedgerMeaning(s, before, n);
    OpenedAtIsLast(before, n);
    var r, a, from := Exec(s, before).records[n], acts[k].agent, OpenedAt(before, n);
    matchedAt := -1;
    if r.port in Exec(s, before).holds[n].ledger.absent {
      seenAt := SeenAt(before, from, SeeAbsent(a, n, r.port));
    } else {
      matchedAt := SeenAt(before, from, SeeMatch(a, n, RecId(r)));
      seenAt := SeenAt(before, from, SeeGone(a, n, RecId(r)));
      AliveThenGone(s, acts, matchedAt, seenAt, a, n, RecId(r));
    }
  }

  lemma SeenAt(acts: seq<Action>, from: nat, act: Action) returns (i: nat)
    requires from < |acts| && act in acts[from..] && acts[from] != act
    ensures from < i < |acts| && acts[i] == act
  {
    var k :| 0 <= k < |acts[from..]| && acts[from..][k] == act;
    i := from + k;
  }

  /** A remote session is terminated only when the latest observation was that it is ours. */
  lemma RemoteKillSafety(s: State, acts: seq<Action>, k: nat)
    requires Init(s) && IsRun(s, acts) && k < |acts| && acts[k].KillRemote?
    ensures var n := acts[k].name;
            var seen := SeenLastAt(acts[..k], n);
            && 0 <= OpenedAt(acts[..k], n) < seen < k
            && acts[seen] == SeeOwnership(acts[k].agent, n, acts[k].remote)
  {
    hide IsRun, Exec, Apply;
    RunPrefix(s, acts, k);
    VerifiedIsLatest(s, acts[..k], acts[k].name);
  }
}
