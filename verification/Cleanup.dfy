/**
 When a cleanup that reports failure keeps the ownership evidence
 (app/services/tunnel_supervisor.py, _cleanup_active).
 */
module Cleanups {
  import opened Wrappers
  import opened Domain
  import opened Ownership
  import opened OwnershipTheorems
  import opened Hosts
  import opened Tunnels

  /**
   What a cleanup that does not succeed may have done, for a record of the process `id`: nothing,
   one signal, with an active tunnel the stop of its child, and without one the removal of the
   record, once this very cleanup has seen the process match.
   */
  ghost predicate FailedCleanup(owned: bool, before: seq<Action>, after: seq<Action>, a: Agent, n: string,
                                id: Identity) {
    var e, e' := Effects(before, a), Effects(after, a);
    || AtMostASignal(e, e', a, n)
    || (owned && exists child :: e' == e + [StopChild(a, n, child)])
    || (!owned && e' == e + [ClearRecord(a, n)] && Since(before, after, SeeMatch(a, n, id)))
  }

  /** From this state, in every environment, a failed cleanup under the lock leaves the record exactly as it was. */
  ghost predicate KeepsTheRecord(s: State, owned: bool, a: Agent, n: string)
    requires n in s.records
  {
    forall acts |
      && IsRun(s, acts) && Unlock(a, n) !in acts
      && FailedCleanup(owned, [], acts, a, n, RecId(s.records[n])) ::
      SlotOf(Exec(s, acts), n).record == SlotOf(s, n).record
  }

  /**
   A failed cleanup keeps the record whatever the others do, if and only if it has an active
   tunnel or the recorded process is already dead when it begins.
   */
  lemma RecordKeptExactly(s: State, owned: bool, a: Agent, n: string)
    requires Inv(s) && Holds(s, a, n) && n in s.records
    ensures KeepsTheRecord(s, owned, a, n) <==> owned || !Live(s, RecId(s.records[n]))
  {
    hide Exec, IsRun, Inv, Effects, Since;
    var id := RecId(s.records[n]);
    if owned || !Live(s, id) {
      forall acts | IsRun(s, acts) && Unlock(a, n) !in acts && FailedCleanup(owned, [], acts, a, n, id)
        ensures SlotOf(Exec(s, acts), n).record == SlotOf(s, n).record
      {
        if !owned {
          DeadNeverMatches(s, acts, a, n);
        }
        NothingDone(a);
        HarmlessEffectsKeep(s, acts, a, n);
      }
    } else {
      LosingRunLoses(s, a, n);
      var acts := LosingRun(a, n, id);
      assert Unlock(a, n) !in acts;
      assert SlotOf(Exec(s, acts), n).record != SlotOf(s, n).record;
    }
  }

  lemma NothingDone(a: Agent)
    ensures Effects([], a) == []
  {
  }

  /** A recorded process that is dead is never seen to match later. */
  lemma DeadNeverMatches(s: State, acts: seq<Action>, a: Agent, n: string)
    requires Inv(s) && IsRun(s, acts) && n in s.records && !Live(s, RecId(s.records[n]))
    ensures !Since([], acts, SeeMatch(a, n, RecId(s.records[n])))
  {
    var id := RecId(s.records[n]);
    if Since([], acts, SeeMatch(a, n, id)) {
      var i :| 0 <= i < |acts| && acts[i] == SeeMatch(a, n, id);
      RunPrefix(s, acts, i);
      RunIsOlder(s, acts[..i]);
      RecordedIsUsed(s, n);
      assert false;
    }
  }

  lemma RecordedIsUsed(s: State, n: string)
    requires Inv(s) && n in s.records
    ensures RecId(s.records[n]) in s.used
    ensures n in s.holds ==> s.holds[n].pending.None?
  {
    assert n in s.holds ==> PendingOk(s, n);
  }

  predicate Harmless(effects: seq<Action>) {
    forall i | 0 <= i < |effects| :: effects[i].Signal? || effects[i].StopChild?
  }

  lemma {:induction false} HarmlessEffectsKeep(s: State, acts: seq<Action>, a: Agent, n: string)
    requires IsRun(s, acts) && Holds(s, a, n) && Unlock(a, n) !in acts && Harmless(Effects(acts, a))
    ensures Holds(Exec(s, acts), a, n)
    ensures SlotOf(Exec(s, acts), n).record == SlotOf(s, n).record
  {
    hide Exec, IsRun;
    RunEnds(s, acts);
    if acts != [] {
      var init, last := acts[..|acts| - 1], acts[|acts| - 1];
      var e := Effects(init, a);
      assert e <= Effects(acts, a);
      assert forall i | 0 <= i < |e| :: e[i] == Effects(acts, a)[i];
      HarmlessEffectsKeep(s, init, a, n);
      if Actor(last) == Some(a) {
        if IsEffect(last) {
          assert Effects(acts, a)[|e|] == last;
        }
        HarmlessStep(Exec(s, init), last, a, n);
      } else {
        OtherStepKeepsSlot(Exec(s, init), last, a, n);
      }
    }
  }

  lemma HarmlessStep(s: State, act: Action, a: Agent, n: string)
    requires Enabled(s, act) && Actor(act) == Some(a) && act != Unlock(a, n) && Holds(s, a, n)
    requires IsEffect(act) ==> act.Signal? || act.StopChild?
    ensures Holds(Apply(s, act), a, n) && SlotOf(Apply(s, act), n).record == SlotOf(s, n).record
  {
    hide Fresh, MaySave, MayRecord, MayClear, MayUpdate, Matches, Live;
  }

  // ---------------------------------------------------------------- the run that loses the record

  /** The process matches, exits, is seen gone, and the record is cleared as a mismatch. */
  function LosingRun(a: Agent, n: string, id: Identity): seq<Action> {
    [BeginOperation(a, n)] + [SeeMatch(a, n, id)] + [Exit(id)] + [SeeGone(a, n, id)] + [ClearRecord(a, n)]
  }

  /** One more enabled action at the end of a run. */
  lemma RunStep(s: State, acts: seq<Action>, act: Action, a: Agent)
    requires IsRun(s, acts) && Enabled(Exec(s, acts), act)
    ensures IsRun(s, acts + [act]) && Exec(s, acts + [act]) == Apply(Exec(s, acts), act)
    ensures Effects(acts + [act], a) ==
            Effects(acts, a) + (if IsEffect(act) && Actor(act) == Some(a) then [act] else [])
  {
    assert (acts + [act])[..|acts|] == acts;
  }

  /** The first half: seen to match, then dead, and not seen again yet. */
  lemma MatchThenExit(s: State, a: Agent, n: string, id: Identity) returns (acts: seq<Action>)
    requires Holds(s, a, n) && s.holds[n].pending.None? && Live(s, id)
    ensures acts == [BeginOperation(a, n)] + [SeeMatch(a, n, id)] + [Exit(id)]
    ensures IsRun(s, acts) && Effects(acts, a) == []
    ensures Exec(s, acts) == s.(table := s.table - {id.pid},
                                holds := s.holds[n := Hold(a, None, SawMatch(EMPTY_LEDGER, id))])
  {
    hide Exec, IsRun, Effects;
    EmptyRun(s, a);
    RunStep(s, [], BeginOperation(a, n), a);
    acts := [BeginOperation(a, n)];
    assert [] + [BeginOperation(a, n)] == acts;
    RunStep(s, acts, SeeMatch(a, n, id), a);
    acts := acts + [SeeMatch(a, n, id)];
    RunStep(s, acts, Exit(id), a);
    acts := acts + [Exit(id)];
  }

  /** Without an active tunnel a cleanup that reports failure can lose the record of a live process. */
  lemma LosingRunLoses(s: State, a: Agent, n: string)
    requires Inv(s) && Holds(s, a, n) && n in s.records && Live(s, RecId(s.records[n]))
    ensures var acts := LosingRun(a, n, RecId(s.records[n]));
            && IsRun(s, acts) && n !in Exec(s, acts).records
            && FailedCleanup(false, [], acts, a, n, RecId(s.records[n]))
  {
    hide Exec, IsRun, Inv, Effects, Since;
    RecordedIsUsed(s, n);
    NothingDone(a);
    var id := RecId(s.records[n]);
    var acts := MatchThenExit(s, a, n, id);
    LastIsSince([], [BeginOperation(a, n)], SeeMatch(a, n, id));
    RunStep(s, acts, SeeGone(a, n, id), a);
    var seen := acts + [SeeGone(a, n, id)];
    RunStep(s, seen, ClearRecord(a, n), a);
    assert LosingRun(a, n, id) == seen + [ClearRecord(a, n)];
    SinceGrows([], [], [BeginOperation(a, n)] + [SeeMatch(a, n, id)], LosingRun(a, n, id), SeeMatch(a, n, id));
  }

  lemma EmptyRun(s: State, a: Agent)
    ensures IsRun(s, []) && Exec(s, []) == s && Effects([], a) == []
  {
  }

  /** A stored record of a live process, under the lock of `a`: such states exist. */
  lemma RecordedAndLive(a: Agent, n: string) returns (s: State)
    ensures Inv(s) && Holds(s, a, n) && n in s.records && Live(s, RecId(s.records[n]))
  {
    var id := Identity(7, 1.0, "ssh");
    s := State(map[n := Profile(n, "host", 7897, 17890, true, "", None)],
               map[n := Record(n, 7, 1.0, "ssh", "t", 1, 17890, None, Some(Remote("u", 1, 1, "b", "c")))],
               map[n := Hold(a, None, EMPTY_LEDGER)],
               map[7 := id], {id}, map[id := Origin(n, a)]);
  }
}
