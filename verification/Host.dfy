/**
 The shared machine as a mutable object: the profile store on disk
 (app/infrastructure/profile_store.py), its file locks, the process table behind
 ProcessInspector and ProcessRunner (app/infrastructure/process_identity.py,
 app/infrastructure/process_runner.py) and the remote checks. Before every effect any
 number of other agents, and the environment, may have acted.
 */
module Hosts {
  import opened Wrappers
  import opened Domain
  import opened Ownership
  import opened OwnershipTheorems

  /** The slot with a new ledger and a new pending child. */
  function Rehold(slot: Slot, ledger: Ledger, pending: Option<Identity>): Slot
    requires slot.hold.Some?
  {
    slot.(hold := Some(Hold(slot.hold.value.agent, pending, ledger)))
  }

  class Host {
    var now: State
    ghost const start: State
    ghost var trace: seq<Action>

    /** The state was reached from the start state by a run of the protocol. */
    ghost predicate Valid()
      reads this
    {
      Init(start) && IsRun(start, trace) && now == Exec(start, trace)
    }

    ghost function At(n: string): Slot
      reads this
    {
      SlotOf(now, n)
    }

    /** What the store held for `n` after this many actions. */
    ghost function Then(at: nat, n: string): Slot
      reads this
      requires at <= |trace|
    {
      SlotOf(Exec(start, trace[..at]), n)
    }

    /** The agent holds the lock of `n` and has no child that is not yet recorded. */
    ghost predicate Settled(a: Agent, n: string)
      reads this
    {
      && Valid() && Holds(now, a, n)
      && now.holds[n].pending.None?
    }

    /** Everything this agent has done so far that changed or signalled something. */
    ghost function Did(a: Agent): seq<Action>
      reads this
    {
      Effects(trace, a)
    }

    /** Two-state frame of every method of a lock holder: time passed, `n` is still held. */
    twostate predicate Kept(a: Agent, n: string)
      reads this
    {
      Valid() && Holds(now, a, n) && Older(old(now), now) && Grew(old(trace), trace)
    }

    /** The holder only looked. */
    twostate predicate Looked(a: Agent, n: string)
      reads this
    {
      Kept(a, n) && Did(a) == old(Did(a))
    }

    /** No new operation on `n` began. */
    twostate predicate Within(n: string)
      reads this
    {
      OpenedAt(trace, n) == old(OpenedAt(trace, n))
    }

    /** The holder's operation went on: what it had observed still counts. */
    twostate predicate Grows(n: string)
      reads this
    {
      LedgerGrew(old(At(n)), At(n)) && Within(n)
    }

    constructor (initial: State)
      requires Init(initial)
      ensures Valid() && now == initial && trace == []
    {
      now := initial;
      start := initial;
      trace := [];
    }

    lemma Reachable()
      requires Valid()
      ensures Inv(now)
    {
      RunKeepsInv(start, trace);
    }

    /** A stored record carries its own name and its profile's port. */
    lemma RecordFits(n: string)
      requires Valid() && n in now.records
      ensures now.records[n].name == n
      ensures n in now.profiles && now.profiles[n].remotePort == now.records[n].port
      ensures RecId(now.records[n]) in now.origin && now.origin[RecId(now.records[n])].name == n
      ensures RecId(now.records[n]) in now.used
      ensures n in now.holds ==> now.holds[n].pending.None?
    {
      Reachable();
      assert n in now.holds ==> PendingOk(now, n);
    }

    /** A moment of the trace stays what it was. */
    lemma ThenStays(before: seq<Action>, n: string)
      requires before <= trace
      ensures Then(|before|, n) == SlotOf(Exec(start, before), n)
    {
      assert trace[..|before|] == before;
    }

    /** The same for a moment before an earlier end of the trace. */
    lemma ThenLater(earlier: seq<Action>, at: nat, n: string)
      requires earlier <= trace && at <= |earlier|
      ensures Then(at, n) == SlotOf(Exec(start, earlier[..at]), n)
    {
      assert trace[..at] == earlier[..at];
    }

    lemma NoProfileNoRecord(n: string)
      requires Valid() && At(n).profile.None?
      ensures At(n).record.None?
    {
      if At(n).record.Some? {
        RecordFits(n);
      }
    }

    lemma ProfileFits(n: string)
      requires Valid() && n in now.profiles
      ensures now.profiles[n].name == n
    {
      Reachable();
    }

    /** With no child pending, the only RAB process of `n` that can be alive is the recorded one. */
    ghost predicate OnlyRecorded(n: string)
      reads this
    {
      forall id | id in now.origin && now.origin[id].name == n && Live(now, id) ::
        At(n).record.Some? && RecId(At(n).record.value) == id
    }

    lemma SettledMeansOnlyRecorded(a: Agent, n: string)
      requires Settled(a, n)
      ensures OnlyRecorded(n)
    {
      Reachable();
    }

    lemma FreeMeansOnlyRecorded(n: string)
      requires Valid() && n !in now.holds
      ensures OnlyRecorded(n)
    {
      Reachable();
    }

    lemma OriginUsed(id: Identity)
      requires Valid() && id in now.origin
      ensures id in now.used
    {
      Reachable();
    }

    /** One enabled action; every effect in this project goes through here. */
    method Do(act: Action)
      requires Valid() && Enabled(now, act)
      modifies this
      ensures Valid() && now == Apply(old(now), act) && trace == old(trace) + [act]
      ensures Older(old(now), now) && Grew(old(trace), trace)
      ensures act.Exit? || act.Spawn? || Did(act.agent) == old(Did(act.agent)) + (if IsEffect(act) then [act] else [])
      ensures forall n ::
                OpenedAt(trace, n) == if Opens(act, n) then |trace| - 1 else OpenedAt(old(trace), n)
    {
      Reachable();
      StepIsOlder(now, act);
      assert (trace + [act])[..|trace|] == trace;
      now := Apply(now, act);
      trace := trace + [act];
    }

    /** Any run of the other agents and of the environment. */
    method Interfere(a: Agent)
      requires Valid()
      modifies this
      ensures Valid() && Rely(old(now), now, a) && Grew(old(trace), trace) && Did(a) == old(Did(a))
      ensures forall n | Holds(old(now), a, n) :: OpenedAt(trace, n) == OpenedAt(old(trace), n)
      ensures Quiet(old(trace), trace, a)
      ensures forall n :: Holds(now, a, n) <==> Holds(old(now), a, n)
    {
      hide Exec, IsRun, Effects, OpenedAt, Init;
      var others: seq<Action> := *;
      Reachable();
      if IsRun(now, others) && ByOthers(others, a) {
        OthersKeepWhatIHold(now, others, a);
        forall n ensures Holds(Exec(now, others), a, n) <==> Holds(now, a, n) {
          if Holds(now, a, n) {
            OthersKeepSlot(now, others, a, n);
          } else {
            OthersGiveNothing(now, others, a, n);
          }
        }
        RunAppend(start, trace, others);
        OthersHaveNoEffectOfMine(trace, others, a);
        forall n | Holds(now, a, n) ensures OpenedAt(trace + others, n) == OpenedAt(trace, n) {
          OthersOpenNothing(now, trace, others, a, n);
        }
        now := Exec(now, others);
        trace := trace + others;
      }
    }

    /** Time passes for the holder of `n`: the others act, and nothing of its own moves. */
    method Wait(a: Agent, n: string)
      requires Valid() && Holds(now, a, n)
      modifies this
      ensures Looked(a, n) && Within(n) && At(n) == old(At(n))
    {
      hide Exec, IsRun, OpenedAt, Effects;
      label before:
      Interfere(a);
      assert SlotOf(now, n) == SlotOf(old@before(now), n);
    }

    /** The holder writes down an observation or an answer. */
    method Notice(a: Agent, n: string, act: Action)
      requires Valid() && Enabled(now, act) && Sees(act, n) && act.agent == a
      modifies this
      ensures Looked(a, n) && Within(n) && now.table == old(now).table && trace == old(trace) + [act]
      ensures Holds(old(now), a, n)
      ensures At(n) == if act.SeeGone? then SeenGone(old(At(n)), act.id)
                else Rehold(old(At(n)), Noted(old(At(n)).hold.value.ledger, act, n), old(At(n)).hold.value.pending)
    {
      hide Exec, IsRun, OpenedAt, Effects, Fresh, Fits, MaySave, MayRecord, MayClear, MayUpdate, Matches;
      Do(act);
    }

    // -------------------------------------------------------------- the store

    /** ProfileStore.supervisor_lock, entry: it succeeds exactly when nobody had the lock at that moment, `at`. */
    method TryLock(a: Agent, n: string) returns (ok: bool, ghost at: nat)
      requires Valid()
      modifies this
      ensures Valid() && Older(old(now), now) && Grew(old(trace), trace) && Did(a) == old(Did(a))
      ensures ok ==> Settled(a, n) && now.holds[n].ledger == EMPTY_LEDGER
      ensures !ok ==> (Holds(now, a, n) <==> Holds(old(now), a, n))
      ensures |old(trace)| <= at <= |trace| && (ok <==> Then(at, n).hold.None?)
      ensures At(n).profile == Then(at, n).profile && At(n).record == Then(at, n).record
    {
      hide IsRun, OpenedAt, Effects, Init;
      Interfere(a);
      ok := n !in now.holds;
      ghost var before := trace;
      at := |before|;
      assert trace[..at] == trace;
      if ok {
        Do(Lock(a, n));
      }
      assert trace[..at] == before;
    }

    /** ProfileStore.supervisor_lock, exit. */
    method Release(a: Agent, n: string)
      requires Settled(a, n)
      modifies this
      ensures Valid() && n !in now.holds && Older(old(now), now) && Grew(old(trace), trace)
      ensures Did(a) == old(Did(a))
      ensures At(n).profile == old(At(n).profile) && At(n).record == old(At(n).record)
    {
      Interfere(a);
      Do(Unlock(a, n));
    }

    method LoadProfile(a: Agent, n: string) returns (p: Option<Profile>)
      requires Valid()
      modifies this
      ensures Valid() && Rely(old(now), now, a) && Grew(old(trace), trace) && Did(a) == old(Did(a))
      ensures Holds(old(now), a, n) ==> Within(n)
      ensures Holds(now, a, n) <==> Holds(old(now), a, n)
      ensures p == At(n).profile
    {
      Interfere(a);
      p := if n in now.profiles then Some(now.profiles[n]) else None;
    }

    method LoadRuntime(a: Agent, n: string) returns (r: Option<Record>)
      requires Valid()
      modifies this
      ensures Valid() && Rely(old(now), now, a) && Grew(old(trace), trace) && Did(a) == old(Did(a))
      ensures Holds(old(now), a, n) ==> Within(n)
      ensures Holds(now, a, n) <==> Holds(old(now), a, n)
      ensures r == At(n).record
    {
      Interfere(a);
      r := if n in now.records then Some(now.records[n]) else None;
    }

    /** ProfileStore.save_profile; it refuses to overwrite. */
    method CreateProfile(a: Agent, p: Profile)
      requires Settled(a, p.name) && At(p.name).profile.None?
      modifies this
      ensures Kept(a, p.name) && At(p.name) == old(At(p.name)).(profile := Some(p))
      ensures Did(a) == old(Did(a)) + [Action.CreateProfile(a, p)]
    {
      Interfere(a);
      Do(Action.CreateProfile(a, p));
    }

    /** ProfileStore.update_profile. */
    method UpdateProfile(a: Agent, p: Profile)
      requires Settled(a, p.name) && At(p.name).record.None?
      requires At(p.name).profile.Some? && At(p.name).profile.value.managed == p.managed
      modifies this
      ensures Kept(a, p.name) && At(p.name) == old(At(p.name)).(profile := Some(p))
      ensures Did(a) == old(Did(a)) + [Action.UpdateProfile(a, p)]
    {
      label before:
      Interfere(a);
      assert SlotOf(now, p.name) == SlotOf(old@before(now), p.name);
      Do(Action.UpdateProfile(a, p));
    }

    /** ProfileStore.delete_profile. */
    method RemoveProfile(a: Agent, n: string)
      requires Settled(a, n) && At(n).record.None?
      requires At(n).profile.Some? && At(n).profile.value.managed.None?
      modifies this
      ensures Kept(a, n) && At(n) == old(At(n)).(profile := None)
      ensures Did(a) == old(Did(a)) + [DeleteProfile(a, n)]
    {
      label before:
      Interfere(a);
      assert SlotOf(now, n) == SlotOf(old@before(now), n);
      Do(DeleteProfile(a, n));
    }

    /** The start of one operation of a lock holder: what it saw before does not count. */
    method BeginOperation(a: Agent, n: string)
      requires Settled(a, n)
      modifies this
      ensures Looked(a, n) && Settled(a, n) && At(n) == Rehold(old(At(n)), EMPTY_LEDGER, None)
      ensures OpenedAt(trace, n) == |trace| - 1 >= |old(trace)|
      ensures forall act | Actor(act) == Some(a) && act != Action.BeginOperation(a, n) :: !Since(old(trace), trace, act)
    {
      label before:
      Interfere(a);
      assert SlotOf(now, n) == SlotOf(old@before(now), n);
      QuietThen(old(trace), trace, a, Action.BeginOperation(a, n));
      Do(Action.BeginOperation(a, n));
    }

    /** The ledger holds exactly what was observed and answered after this operation began. */
    lemma SeenInOperation(begun: seq<Action>, a: Agent, n: string)
      requires Valid() && Holds(now, a, n)
      requires begun <= trace && begun != [] && OpenedAt(trace, n) == |begun| - 1
      ensures forall id :: id in now.holds[n].ledger.matched <==> Since(begun, trace, SeeMatch(a, n, id))
      ensures forall id :: id in now.holds[n].ledger.gone <==> Since(begun, trace, SeeGone(a, n, id))
      ensures forall port :: port in now.holds[n].ledger.absent <==> Since(begun, trace, SeeAbsent(a, n, port))
      ensures forall answer :: answer in now.holds[n].ledger.answers <==> Since(begun, trace, Saw(a, n, answer))
    {
      hide IsRun, Exec;
      LedgerMeaning(start, trace, n);
      assert trace[|begun| - 1..] == [trace[|begun| - 1]] + trace[|begun|..];
    }

    /** When an operation began in this call, its ledger is what was seen in this call. */
    lemma SeenInCall(before: seq<Action>, begun: seq<Action>, a: Agent, n: string)
      requires Valid() && Holds(now, a, n)
      requires before <= begun <= trace && begun != [] && OpenedAt(trace, n) == |begun| - 1
      requires forall act | Actor(act) == Some(a) && act != Action.BeginOperation(a, n) :: !Since(before, begun, act)
      ensures Seen(before, trace, a, n) == now.holds[n].ledger.(verified := None)
    {
      hide Exec, IsRun, OpenedAt, Since, Seen;
      var l, seen := now.holds[n].ledger, Seen(before, trace, a, n);
      SeenInOperation(begun, a, n);
      SeenIs(before, trace, a, n);
      forall act | Actor(act) == Some(a) && act != Action.BeginOperation(a, n)
        ensures Since(before, trace, act) <==> Since(begun, trace, act)
      {
        SinceSplit(before, begun, trace, act);
      }
      assert forall id :: id in seen.matched <==> id in l.matched;
      assert forall id :: id in seen.gone <==> id in l.gone;
      assert forall port :: port in seen.absent <==> port in l.absent;
      assert forall answer :: answer in seen.answers <==> answer in l.answers;
    }

    /** A process that is dead is never seen to match later. */
    lemma NeverMatchesAgain(midway: State, before: seq<Action>, a: Agent, n: string, id: Identity)
      requires Valid() && before <= trace && midway == Exec(start, before)
      requires id in midway.used && !Live(midway, id)
      ensures !Since(before, trace, SeeMatch(a, n, id))
    {
      if Since(before, trace, SeeMatch(a, n, id)) {
        var i :| 0 <= i < |trace[|before|..]| && trace[|before|..][i] == SeeMatch(a, n, id);
        var k := |before| + i;
        assert trace[k] == SeeMatch(a, n, id) && trace[..|before|] == before;
        RunPrefix(start, trace, k);
        LaterIsOlder(start, trace, |before|, k);
        assert false;
      }
    }

    /** ProfileStore.save_runtime for a child that was just started. */
    method RecordChild(a: Agent, r: Record)
      requires Valid() && MayRecord(now, a, r)
      modifies this
      ensures Kept(a, r.name)
      ensures At(r.name) == Rehold(old(At(r.name)), EMPTY_LEDGER, None).(record := Some(r))
      ensures Did(a) == old(Did(a)) + [Action.RecordChild(a, r)]
    {
      label before:
      Interfere(a);
      assert SlotOf(now, r.name) == SlotOf(old@before(now), r.name);
      assert RecId(r) in old@before(now).origin;
      Do(Action.RecordChild(a, r));
    }

    /** ProfileStore.save_runtime for a record that is stored already, or was and is put back. */
    method SaveRuntime(a: Agent, r: Record)
      requires Valid() && MaySave(now, a, r)
      modifies this
      ensures Kept(a, r.name) && Within(r.name) && At(r.name) == old(At(r.name)).(record := Some(r))
      ensures Did(a) == old(Did(a)) + [SaveRecord(a, r)]
    {
      label before:
      Interfere(a);
      assert SlotOf(now, r.name) == SlotOf(old@before(now), r.name);
      assert RecId(r) in old@before(now).origin;
      Do(SaveRecord(a, r));
    }

    method ClearRuntime(a: Agent, n: string)
      requires Valid() && Holds(now, a, n) && MayClear(now, n)
      modifies this
      ensures Kept(a, n) && Within(n) && At(n) == old(At(n)).(record := None)
      ensures Did(a) == old(Did(a)) + [ClearRecord(a, n)]
    {
      label before:
      Reachable();
      Interfere(a);
      assert SlotOf(now, n) == SlotOf(old@before(now), n);
      Do(ClearRecord(a, n));
    }

    // -------------------------------------------------------------- local processes

    /** ProcessInspector.matches on the stored record. */
    method MatchesRecord(a: Agent, n: string, r: Record) returns (yes: bool)
      requires Valid() && Holds(now, a, n) && At(n).record == Some(r)
      modifies this
      ensures Looked(a, n) && Within(n)
      ensures var l := old(At(n)).hold.value.ledger;
              At(n) == Rehold(old(At(n)),
                              if yes then SawMatch(l, RecId(r)) else SawGone(l, RecId(r)),
                              None)
      ensures old(At(n)).hold.value.pending.None?
      ensures (yes <==> Live(now, RecId(r))) && (yes ==> Matches(now, r))
      ensures Since(old(trace), trace, if yes then SeeMatch(a, n, RecId(r)) else SeeGone(a, n, RecId(r)))
    {
      hide IsRun, Exec, Since, Separated, NoOrphans, OpenedAt, Effects, Init;
      RecordFits(n);
      Wait(a, n);
      Reachable();
      MatchesIsLive(now, n);
      yes := Matches(now, r);
      ghost var act := if yes then SeeMatch(a, n, RecId(r)) else SeeGone(a, n, RecId(r));
      LastIsSince(old(trace), trace, act);
      if yes {
        Notice(a, n, SeeMatch(a, n, RecId(r)));
      } else {
        Notice(a, n, SeeGone(a, n, RecId(r)));
      }
    }

    /**
     ProcessInspector.terminate_owned: checks and signals in one step, then polls the pid
     for a while. `None` is an exception out of the operating system before any signal.
     */
    method TerminateOwned(a: Agent, n: string, r: Record) returns (stopped: Option<bool>)
      requires Valid() && Holds(now, a, n) && At(n).record == Some(r)
      modifies this
      ensures Kept(a, n) && Settled(a, n)
      ensures At(n).record == Some(r) && At(n).profile == old(At(n).profile)
      ensures Grows(n)
      ensures stopped == Some(true) ==>
                && !Live(now, RecId(r))
                && RecId(r) in At(n).hold.value.ledger.matched && RecId(r) in At(n).hold.value.ledger.gone
                && Since(old(trace), trace, SeeMatch(a, n, RecId(r)))
                  && Since(old(trace), trace, SeeGone(a, n, RecId(r)))
                && Did(a) == old(Did(a)) + [Signal(a, n)]
      ensures stopped != Some(true) ==> NotStopped(old(trace), trace, a, n, RecId(r), stopped)
    {
      hide IsRun, Exec, Since, Effects, OpenedAt, Init;
      ghost var before := trace;
      var yes := MatchesRecord(a, n, r);
      ghost var seen := trace;
      if !yes {
        return Some(false);
      }
      var signalled := TrySignal(a, n, r);
      ghost var tried := trace;
      SinceEarlier(before, seen, trace, Saw(a, n, Raises));
      SinceEarlier(before, seen, trace, Saw(a, n, Refused));
      if signalled != Some(true) {
        return signalled;
      }
      stopped := WaitForExit(a, n, r);
      SinceGrows(before, before, seen, trace, SeeMatch(a, n, RecId(r)));
      SinceEarlier(before, tried, trace, SeeGone(a, n, RecId(r)));
      SinceEarlier(before, tried, trace, Saw(a, n, Lingers));
    }

    /** The signal of terminate_owned, in one step with the check before it; the system may raise or refuse. */
    method TrySignal(a: Agent, n: string, r: Record) returns (signalled: Option<bool>)
      requires Settled(a, n) && At(n).record == Some(r) && Matches(now, r)
      modifies this
      ensures Kept(a, n) && Within(n) && Settled(a, n)
      ensures At(n) == if signalled == Some(true) then old(At(n))
                else Told(old(At(n)), if signalled.None? then Raises else Refused)
      ensures Did(a) == if signalled == Some(true) then old(Did(a)) + [Signal(a, n)] else old(Did(a))
      ensures signalled.None? ==> Since(old(trace), trace, Saw(a, n, Raises))
      ensures signalled.Some? && !signalled.value ==> Since(old(trace), trace, Saw(a, n, Refused))
    {
      var refused: bool, raised: bool := *, *;
      if raised {
        Hear(a, n, Raises);
        return None;
      }
      if refused {
        Hear(a, n, Refused);
        return Some(false);
      }
      Do(Signal(a, n));
      return Some(true);
    }

    /** The agent is told something; it writes that down. */
    method Hear(a: Agent, n: string, answer: Answer)
      requires Valid() && Holds(now, a, n)
      modifies this
      ensures Looked(a, n) && Within(n) && At(n) == Told(old(At(n)), answer)
      ensures Since(old(trace), trace, Saw(a, n, answer))
    {
      Wait(a, n);
      LastIsSince(old(trace), trace, Saw(a, n, answer));
      Notice(a, n, Saw(a, n, answer));
    }

    /** The polling loop at the end of terminate_owned. */
    method WaitForExit(a: Agent, n: string, r: Record) returns (stopped: Option<bool>)
      requires Settled(a, n) && At(n).record == Some(r)
      modifies this
      ensures Looked(a, n) && Within(n) && stopped.Some?
      ensures var l := old(At(n)).hold.value.ledger;
              At(n) == if stopped.value then Rehold(old(At(n)), SawGone(l, RecId(r)), None)
                else Told(old(At(n)), Lingers)
      ensures if stopped.value then !Live(now, RecId(r)) && Since(old(trace), trace, SeeGone(a, n, RecId(r)))
              else Since(old(trace), trace, Saw(a, n, Lingers))
    {
      hide IsRun, Exec, Effects, OpenedAt, Init;
      var ticks: nat := *;
      RecordFits(n);
      while ticks > 0
        invariant Looked(a, n) && Within(n) && At(n) == old(At(n))
        invariant RecId(r) in now.used
      {
        Wait(a, n);
        if r.pid !in now.table {
          LastIsSince(old(trace), trace, SeeGone(a, n, RecId(r)));
          Notice(a, n, SeeGone(a, n, RecId(r)));
          return Some(true);
        }
        ticks := ticks - 1;
      }
      ghost var waited := trace;
      Hear(a, n, Lingers);
      SinceEarlier(old(trace), waited, trace, Saw(a, n, Lingers));
      return Some(false);
    }

    /** ProcessRunner.start_managed: without a child, the code says why. */
    method StartManaged(a: Agent, n: string) returns (child: Option<Identity>, code: Code)
      requires Settled(a, n) && At(n).record.None?
      modifies this
      ensures Kept(a, n) && Within(n)
      ensures At(n) == if child.Some? then Rehold(old(At(n)), old(At(n)).hold.value.ledger, child)
                else Told(old(At(n)), NotStarted(code))
      ensures child.Some? ==>
                && child.value !in old(now).used
                && child.value in now.origin && now.origin[child.value] == Origin(n, a)
      ensures Did(a) == if child.Some? then old(Did(a)) + [StartChild(a, n, child.value)] else old(Did(a))
      ensures code in {ExecutableNotFound, ProcessStartFailed}
    {
      hide IsRun, Exec, Effects, OpenedAt, Init;
      Wait(a, n);
      var id: Identity, found: bool := *, *;
      code := if found then ProcessStartFailed else ExecutableNotFound;
      if Fresh(now, id) {
        Do(StartChild(a, n, id));
        return Some(id), code;
      }
      Notice(a, n, Saw(a, n, NotStarted(code)));
      return None, code;
    }

    /** Popen.poll on a child of this agent. */
    method PollChild(a: Agent, n: string, id: Identity) returns (exited: bool)
      requires Valid() && Holds(now, a, n) && id in now.origin && now.origin[id] == Origin(n, a)
      modifies this
      ensures Looked(a, n) && Within(n)
      ensures At(n) == if exited then SeenGone(old(At(n)), id) else old(At(n))
      ensures exited <==> !Live(now, id)
    {
      hide IsRun, Exec, Effects, OpenedAt, Init;
      OriginUsed(id);
      Wait(a, n);
      exited := !Live(now, id);
      if exited {
        Notice(a, n, SeeGone(a, n, id));
      }
    }

    /** ManagedProcess.stop: terminate, escalate to kill, and wait; the child is dead afterwards. */
    method StopManaged(a: Agent, n: string, id: Identity)
      requires Valid() && Holds(now, a, n) && id in now.origin && now.origin[id] == Origin(n, a)
      modifies this
      ensures Kept(a, n) && Within(n) && !Live(now, id)
      ensures var h := old(At(n)).hold.value;
              At(n) == Rehold(old(At(n)), h.ledger, if h.pending == Some(id) then None else h.pending)
      ensures Did(a) == old(Did(a)) + [StopChild(a, n, id)]
    {
      Wait(a, n);
      Do(StopChild(a, n, id));
    }

    /** ProcessInspector.get_identity on the pid of a child that is not reaped yet. */
    method ChildIdentity(a: Agent, n: string, id: Identity) returns (seen: Option<Identity>)
      requires Valid() && Holds(now, a, n) && now.holds[n].pending == Some(id)
      modifies this
      ensures Looked(a, n) && Within(n) && At(n) == old(At(n))
      ensures seen.Some? ==> seen.value == id
    {
      Wait(a, n);
      Reachable();
      assert PendingOk(now, n);
      var unreadable: bool := *;
      seen := if id.pid in now.table && !unreadable then Some(now.table[id.pid]) else None;
    }

    // -------------------------------------------------------------- remote checks

    /** RemoteProbeService.check_listener; the environment may answer anything. */
    method CheckListener(a: Agent, n: string, port: int) returns (c: Check)
      requires Valid() && Holds(now, a, n)
      modifies this
      ensures Looked(a, n) && Within(n) && ListenerAnswer(c)
      ensures Since(old(trace), trace, ListenerSeen(a, n, port, c))
      ensures At(n) == Rehold(old(At(n)),
                              Noted(old(At(n)).hold.value.ledger, ListenerSeen(a, n, port, c), n),
                              old(At(n)).hold.value.pending)
    {
      hide IsRun, Exec, Effects, OpenedAt, Init;
      Wait(a, n);
      var ran: bool, listening: bool, loopback: bool := *, *, *;
      c := if !ran then Check(FAIL, Some(RemoteCheckFailed))
           else if !listening then Check(FAIL, Some(ListenerAbsent))
           else if loopback then Check(PASS, None)
           else Check(FAIL, Some(UnsafeRemoteBinding));
      LastIsSince(old(trace), trace, ListenerSeen(a, n, port, c));
      Notice(a, n, ListenerSeen(a, n, port, c));
    }

    /** RemoteProbeService.verify_stale_session_ownership. */
    method VerifyOwnership(a: Agent, n: string, r: Record) returns (c: Check)
      requires Valid() && Holds(now, a, n)
      modifies this
      ensures Looked(a, n) && Within(n)
      ensures OwnershipAnswer(c, r)
      ensures Since(old(trace), trace, OwnershipSeen(a, n, r, c))
      ensures At(n) == Rehold(old(At(n)),
                              Noted(old(At(n)).hold.value.ledger, OwnershipSeen(a, n, r, c), n),
                              old(At(n)).hold.value.pending)
    {
      hide IsRun, Exec, Effects, OpenedAt, Init;
      Wait(a, n);
      var ours: bool := *;
      c := if r.remote.None? then Check(FAIL, Some(RemoteIdentityUnavailable))
           else if ours then Check(PASS, None)
           else Check(FAIL, Some(RemoteIdentityMismatch));
      LastIsSince(old(trace), trace, OwnershipSeen(a, n, r, c));
      Notice(a, n, OwnershipSeen(a, n, r, c));
    }

    /** RemoteProbeService.terminate_verified_stale_session. */
    method TerminateStaleSession(a: Agent, n: string, remote: Remote) returns (c: Check)
      requires Valid() && Holds(now, a, n) && now.holds[n].ledger.verified == Some(remote)
      modifies this
      ensures Kept(a, n) && Within(n)
      ensures At(n) == Told(old(At(n)), Cleanup(c.Passed()))
      ensures Did(a) == old(Did(a)) + [KillRemote(a, n, remote)]
      ensures Since(old(trace), trace, KillRemote(a, n, remote))
    {
      hide IsRun, Exec, Effects, OpenedAt, Init;
      Wait(a, n);
      LastIsSince(old(trace), trace, KillRemote(a, n, remote));
      Do(KillRemote(a, n, remote));
      ghost var killed := trace;
      var cleaned: bool := *;
      Notice(a, n, Saw(a, n, Cleanup(cleaned)));
      SinceGrows(old(trace), old(trace), killed, trace, KillRemote(a, n, remote));
      return if cleaned then Check(PASS, None) else Check(FAIL, Some(StaleCleanupFailed));
    }
  }

  /** The slot after its holder was told something. */
  function Told(slot: Slot, answer: Answer): Slot
    requires slot.hold.Some?
  {
    Rehold(slot, SawAnswer(slot.hold.value.ledger, answer), slot.hold.value.pending)
  }

  /** How an answer of the listener check is written down. */
  function ListenerSeen(a: Agent, n: string, port: int, c: Check): Action {
    if c.code == Some(ListenerAbsent) then SeeAbsent(a, n, port) else Saw(a, n, Occupied(port, c))
  }

  /** How an answer about the remote session is written down. */
  function OwnershipSeen(a: Agent, n: string, r: Record, c: Check): Action
    requires OwnershipAnswer(c, r)
  {
    if c.Passed() then SeeOwnership(a, n, r.remote.value) else Saw(a, n, NotOurs(c.code.value))
  }

  predicate OwnershipAnswer(c: Check, r: Record) {
    if c.Passed() then r.remote.Some?
    else c.code in {Some(RemoteIdentityUnavailable), Some(RemoteIdentityMismatch)}
  }

  /** The agent did nothing and saw nothing between two moments of the trace. */
  ghost predicate Quiet(before: seq<Action>, after: seq<Action>, a: Agent) {
    before <= after && ByOthers(after[|before|..], a)
  }

  lemma {:induction false} OthersOpenNothing(s: State, acts: seq<Action>, others: seq<Action>, a: Agent, n: string)
    requires IsRun(s, others) && ByOthers(others, a) && Holds(s, a, n)
    ensures OpenedAt(acts + others, n) == OpenedAt(acts, n)
  {
    if others == [] {
      assert acts + others == acts;
    } else {
      var init, last := others[..|others| - 1], others[|others| - 1];
      assert ByOthers(init, a);
      OthersOpenNothing(s, acts, init, a, n);
      OthersKeepSlot(s, init, a, n);
      OtherOpensNothing(Exec(s, init), last, a, n);
      assert (acts + others)[..|acts + others| - 1] == acts + init;
    }
  }

  lemma OtherOpensNothing(s: State, act: Action, a: Agent, n: string)
    requires Enabled(s, act) && Actor(act) != Some(a) && SlotOf(s, n).hold.Some? && SlotOf(s, n).hold.value.agent == a
    ensures !Opens(act, n)
  {
  }

  /** The agent did or saw this between two moments of the trace. */
  ghost predicate Since(before: seq<Action>, after: seq<Action>, act: Action) {
    before <= after && act in after[|before|..]
  }

  /** The agent did or saw the one thing, and after that the other. */
  ghost predicate InOrder(before: seq<Action>, after: seq<Action>, first: Action, second: Action) {
    exists midway :: before <= midway <= after && Since(before, midway, first) && Since(midway, after, second)
  }

  lemma BothInOrder(before: seq<Action>, midway: seq<Action>, seen: seq<Action>, after: seq<Action>, first: Action,
                    second: Action)
    requires before <= midway <= seen <= after && Since(before, midway, first) && Since(midway, seen, second)
    ensures InOrder(before, after, first, second)
  {
    SinceGrows(midway, midway, seen, after, second);
  }

  lemma InOrderGrows(before: seq<Action>, begun: seq<Action>, seen: seq<Action>, after: seq<Action>, first: Action,
                     second: Action)
    requires before <= begun && InOrder(begun, seen, first, second) && seen <= after
    ensures InOrder(before, after, first, second)
  {
    var midway :| begun <= midway <= seen && Since(begun, midway, first) && Since(midway, seen, second);
    SinceGrows(before, begun, midway, midway, first);
    SinceGrows(midway, midway, seen, after, second);
  }

  /**
   Why a process was not stopped between two moments: an exception or a refusal of the system and
   no signal, or a signal after which it did not exit in time, or it no longer matched.
   */
  ghost predicate NotStopped(before: seq<Action>, after: seq<Action>, a: Agent, n: string, id: Identity,
                             stopped: Option<bool>) {
    match stopped
    case None => Since(before, after, Saw(a, n, Raises)) && Effects(after, a) == Effects(before, a)
    case Some(_) =>
      || (Since(before, after, Saw(a, n, Lingers)) && Effects(after, a) == Effects(before, a) + [Signal(a, n)])
      || (Effects(after, a) == Effects(before, a)
          && (Since(before, after, Saw(a, n, Refused)) || Since(before, after, SeeGone(a, n, id))))
  }

  lemma NotStoppedGrows(before: seq<Action>, begun: seq<Action>, seen: seq<Action>, after: seq<Action>, a: Agent,
                        n: string, id: Identity, stopped: Option<bool>)
    requires before <= begun && seen <= after
    requires Effects(before, a) == Effects(begun, a) && Effects(seen, a) == Effects(after, a)
    ensures NotStopped(begun, seen, a, n, id, stopped) ==> NotStopped(before, after, a, n, id, stopped)
  {
    hide Effects, Since;
    forall act | Since(begun, seen, act) ensures Since(before, after, act) {
      SinceGrows(before, begun, seen, after, act);
    }
  }

  /** Everything an agent observed and was told about `n` between two moments of the trace. */
  ghost function Seen(before: seq<Action>, after: seq<Action>, a: Agent, n: string): Ledger
    requires before <= after
  {
    var acts := after[|before|..];
    Ledger(set act | act in acts && act.SeeMatch? && act.agent == a && act.name == n :: act.id,
           set act | act in acts && act.SeeGone? && act.agent == a && act.name == n :: act.id,
           set act | act in acts && act.SeeAbsent? && act.agent == a && act.name == n :: act.port,
           None,
           set act | act in acts && act.Saw? && act.agent == a && act.name == n :: act.answer)
  }

  lemma SeenIs(before: seq<Action>, after: seq<Action>, a: Agent, n: string)
    requires before <= after
    ensures forall id :: id in Seen(before, after, a, n).matched <==> Since(before, after, SeeMatch(a, n, id))
    ensures forall id :: id in Seen(before, after, a, n).gone <==> Since(before, after, SeeGone(a, n, id))
    ensures forall port :: port in Seen(before, after, a, n).absent <==> Since(before, after, SeeAbsent(a, n, port))
    ensures forall answer :: answer in Seen(before, after, a, n).answers <==> Since(before, after, Saw(a, n, answer))
    ensures Seen(before, after, a, n).verified.None?
  {
  }

  lemma LastIsSince(before: seq<Action>, trace: seq<Action>, act: Action)
    requires before <= trace
    ensures Since(before, trace + [act], act)
  {
    assert (trace + [act])[|before|..][|trace| - |before|] == act;
  }

  lemma SinceGrows(before: seq<Action>, begun: seq<Action>, seen: seq<Action>, after: seq<Action>, act: Action)
    requires before <= begun && Since(begun, seen, act) && seen <= after
    ensures Since(before, after, act)
  {
    var i :| 0 <= i < |seen[|begun|..]| && seen[|begun|..][i] == act;
    assert after[|before|..][|begun| - |before| + i] == act;
  }

  lemma SinceEarlier(before: seq<Action>, begun: seq<Action>, after: seq<Action>, act: Action)
    requires before <= begun
    ensures Since(begun, after, act) ==> Since(before, after, act)
  {
    if Since(begun, after, act) {
      SinceGrows(before, begun, after, after, act);
    }
  }

  lemma SinceSplit(before: seq<Action>, begun: seq<Action>, after: seq<Action>, act: Action)
    requires before <= begun <= after
    ensures Since(before, after, act) <==> Since(before, begun, act) || Since(begun, after, act)
  {
    assert after[|before|..] == begun[|before|..] + after[|begun|..];
  }

  /** After others have acted, an agent's first action is the only one of its own. */
  lemma QuietThen(before: seq<Action>, after: seq<Action>, a: Agent, first: Action)
    requires Quiet(before, after, a)
    ensures forall act | Actor(act) == Some(a) && act != first :: !Since(before, after + [first], act)
  {
    assert (after + [first])[|before|..] == after[|before|..] + [first];
    forall act | Actor(act) == Some(a) && act != first ensures !Since(before, after + [first], act) {
    }
  }

  ghost predicate Grew(before: seq<Action>, after: seq<Action>) {
    before <= after
  }

  /** An action that changes the store, starts, stops or signals a process. */
  predicate IsEffect(act: Action) {
    || act.CreateProfile? || act.UpdateProfile? || act.DeleteProfile?
    || act.RecordChild? || act.SaveRecord? || act.ClearRecord?
    || act.StartChild? || act.StopChild? || act.Signal? || act.KillRemote?
  }

  ghost function Effects(acts: seq<Action>, a: Agent): seq<Action> {
    if acts == [] then []
    else
      var last := acts[|acts| - 1];
      Effects(acts[..|acts| - 1], a) + (if IsEffect(last) && Actor(last) == Some(a) then [last] else [])
  }

  lemma {:induction false} OthersHaveNoEffectOfMine(acts: seq<Action>, others: seq<Action>, a: Agent)
    requires ByOthers(others, a)
    ensures Effects(acts + others, a) == Effects(acts, a)
  {
    if others == [] {
      assert acts + others == acts;
    } else {
      var init := others[..|others| - 1];
      OthersHaveNoEffectOfMine(acts, init, a);
      assert (acts + others)[..|acts + others| - 1] == acts + init;
      assert (acts + others)[|acts + others| - 1] == others[|others| - 1];
    }
  }

  ghost predicate LedgerGrew(before: Slot, after: Slot) {
    && before.hold.Some? && after.hold.Some?
    && before.hold.value.ledger.matched <= after.hold.value.ledger.matched
    && before.hold.value.ledger.gone <= after.hold.value.ledger.gone
    && before.hold.value.ledger.absent <= after.hold.value.ledger.absent
    && before.hold.value.ledger.answers <= after.hold.value.ledger.answers
  }

  predicate ListenerAnswer(c: Check) {
    || c == Check(PASS, None)
    || c == Check(FAIL, Some(ListenerAbsent))
    || c == Check(FAIL, Some(UnsafeRemoteBinding))
    || c == Check(FAIL, Some(RemoteCheckFailed))
  }

  /** The slot after its holder saw that the process is gone. */
  function SeenGone(slot: Slot, id: Identity): Slot
    requires slot.hold.Some?
  {
    var h := slot.hold.value;
    Rehold(slot,
           SawGone(h.ledger, id),
           if h.pending == Some(id) then None else h.pending)
  }

  /** An effect that came after a moment was done after it. */
  lemma {:induction false} EffectSince(before: seq<Action>, after: seq<Action>, a: Agent, act: Action, i: nat)
    requires before <= after && |Effects(before, a)| <= i < |Effects(after, a)| && Effects(after, a)[i] == act
    ensures Since(before, after, act)
  {
    assert after == before || |after| > |before|;
    var init, last := after[..|after| - 1], after[|after| - 1];
    if i < |Effects(init, a)| {
      EffectSince(before, init, a, act, i);
      SinceGrows(before, before, init, after, act);
    } else {
      LastIsSince(before, init, last);
      assert after == init + [last];
    }
  }
}
