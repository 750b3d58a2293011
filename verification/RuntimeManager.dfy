/** Starting, stopping and shutting down supervised profiles (app/services/runtime_manager.py). */
module RuntimeManagers {
  import opened Wrappers
  import opened Domain
  import opened Ownership
  import opened OwnershipTheorems
  import opened Hosts
  import opened Tunnels
  import opened SupervisorLogs
  import opened Registries

  datatype StartResult = Existing(id: nat) | Created(id: nat) | ShuttingDown | StopInProgress | UnknownProfile

  /** RuntimeStopResult. */
  datatype StopResult = StopResult(stopRequested: bool, workerExited: bool, shown: Snapshot)

  datatype StopOutcome = Stopped(result: StopResult) | NoProfile | AlreadyStopping

  /** RuntimeShutdownResult.completed, for one result. */
  predicate Completed(r: StopResult) {
    r.workerExited && r.shown.phase == STOPPED
  }

  class RuntimeManager {
    const tunnels: TunnelManager
    const h: Host := tunnels.h
    var reg: Registry
    ghost var calls: seq<RegAction>

    ghost predicate Valid()
      reads this, h
    {
      h.Valid() && IsRegRun(EMPTY_REGISTRY, calls) && reg == RegExec(EMPTY_REGISTRY, calls)
    }

    constructor (tunnels: TunnelManager)
      requires tunnels.h.Valid()
      ensures this.tunnels == tunnels && Valid() && reg == EMPTY_REGISTRY
    {
      this.tunnels := tunnels;
      this.reg := EMPTY_REGISTRY;
      this.calls := [];
    }

    lemma RegistryHolds()
      requires Valid()
      ensures RegInv(reg)
    {
      RegRunKeepsInv(EMPTY_REGISTRY, calls);
    }

    /** One critical section under the registry lock. */
    method Enter(act: RegAction)
      requires Valid() && RegEnabled(reg, act)
      modifies this
      ensures Valid() && reg == RegApply(old(reg), act) && calls == old(calls) + [act]
    {
      assert (calls + [act])[..|calls|] == calls;
      reg := RegApply(reg, act);
      calls := calls + [act];
    }

    /** Other callers and worker threads run while this caller is outside the registry lock. */
    method Yield(c: Caller)
      requires Valid()
      modifies this
      ensures Valid() && RegRely(old(reg), reg, c) && old(calls) <= calls
    {
      var others: seq<RegAction> := *;
      RegistryHolds();
      if IsRegRun(reg, others) && ByOtherCallers(others, c) {
        OthersKeepMyStop(reg, others, c);
        RegRunAppend(EMPTY_REGISTRY, calls, others);
        reg := RegExec(reg, others);
        calls := calls + others;
      }
    }

    /** RuntimeManager.start: two critical sections around the profile lookup. */
    method Start(c: Caller, a: Agent, n: string) returns (out: StartResult, ghost at: nat)
      requires Valid()
      modifies this, h
      ensures Valid() && Later(old(reg), reg)
      ensures out.Created? ==> !old(reg).closed && !reg.closed && n !in reg.stopping
      ensures out.Created? || out.Existing? ==>
                && n in reg.workers && reg.workers[n] == out.id && out.id < |reg.created|
                && reg.created[out.id].name == n && !reg.created[out.id].finished
      ensures out.Created? ==> out.id >= |old(reg).created| && !reg.created[out.id].stopSet
      ensures out.ShuttingDown? ==> reg.closed
      ensures out.StopInProgress? ==> n in reg.stopping
      ensures old(reg).closed ==> out.ShuttingDown?
      ensures out.UnknownProfile? || out.Created? || out.Existing? ==>
                && |old(h.trace)| <= at <= |h.trace|
                && (out.UnknownProfile? <==> h.Then(at, n).profile.None?)
    {
      hide Exec, IsRun, OpenedAt, Effects, Init;
      at := 0;
      Yield(c);
      if reg.closed {
        return ShuttingDown, at;
      }
      if n in reg.stopping {
        return StopInProgress, at;
      }
      var profile := h.LoadProfile(a, n);
      at := |h.trace|;
      assert h.trace[..at] == h.trace;
      if profile.None? {
        return UnknownProfile, at;
      }
      label between:
      Yield(c);
      if reg.closed {
        return ShuttingDown, at;
      }
      if n in reg.stopping {
        return StopInProgress, at;
      }
      RegistryHolds();
      if n in reg.workers && !reg.created[reg.workers[n]].finished {
        return Existing(reg.workers[n]), at;
      }
      Enter(Create(c, n));
      return Created(|reg.created| - 1), at;
    }

    /** The restore step: if `disconnect` cleared the record without success, it is saved again. */
    method Restore(a: Agent, state: Record)
      requires h.Settled(a, state.name) && (h.At(state.name).record in {None, Some(state)})
      requires MaySave(h.now, a, state)
      modifies h
      ensures h.Settled(a, state.name) && h.At(state.name).record == Some(state)
      ensures h.Did(a) == if old(h.At(state.name)).record.None? then old(h.Did(a)) + [SaveRecord(a, state)]
                else old(h.Did(a))
      ensures h.Grows(state.name) && Grew(old(h.trace), h.trace)
                && Older(old(h.now), h.now)
    {
      hide Exec, IsRun, OpenedAt, Effects, Init;
      var stored := h.LoadRuntime(a, state.name);
      if stored.None? {
        h.SaveRuntime(a, state);
      }
    }

    /**
     The locked part of `_stop_unsupervised`. STOPPED leaves no record; FAILED leaves the record
     it found, whatever `disconnect` did to it, and shows it. A mismatch touches nothing.
     */
    method StopHeld(a: Agent, n: string) returns (r: StopResult)
      requires h.Settled(a, n)
      modifies h
      ensures h.Settled(a, n) && r.workerExited && Grew(old(h.trace), h.trace)
      ensures r.shown.phase == STOPPED || r.shown.phase == FAILED
      ensures r.shown.phase == STOPPED ==> h.At(n).record.None? && !r.shown.runtimePresent
      ensures r.shown.phase == FAILED ==> h.At(n).record == old(h.At(n)).record && Shows(r.shown, old(h.At(n)).record)
      ensures r.shown.phase == FAILED ==> h.At(n).record.Some?
      ensures !r.stopRequested <==> old(h.At(n)).record.None?
      ensures h.Did(a) != old(h.Did(a)) ==>
                && old(h.At(n)).record.Some?
                && Since(old(h.trace), h.trace, SeeMatch(a, n, RecId(old(h.At(n)).record.value)))
      ensures old(h.At(n)).record.Some? ==>
                && StopEvidence(r, a, n, RecId(old(h.At(n)).record.value), old(h.trace))
                && Attempted(r, a, n, RecId(old(h.At(n)).record.value), old(h.trace))
    {
      hide Exec, IsRun, Since, OpenedAt, Effects, Init;
      ghost var before := h.trace;
      h.BeginOperation(a, n);
      ghost var begun := h.trace;
      r := StopRecorded(a, n);
      h.SeenInOperation(begun, a, n);
      if old(h.At(n)).record.Some? {
        ghost var id := RecId(old(h.At(n)).record.value);
        StillAttempted(r, a, n, id, before, begun);
        SinceEarlier(before, begun, h.trace, SeeMatch(a, n, id));
        SinceEarlier(before, begun, h.trace, SeeGone(a, n, id));
      }
    }

    /** What `_stop_unsupervised` does under the lock once the operation has begun. */
    method StopRecorded(a: Agent, n: string) returns (r: StopResult)
      requires h.Settled(a, n)
      modifies h
      ensures h.Settled(a, n) && r.workerExited && Grew(old(h.trace), h.trace)
      ensures r.shown.phase == STOPPED || r.shown.phase == FAILED
      ensures r.shown.phase == STOPPED ==> h.At(n).record.None? && !r.shown.runtimePresent
      ensures r.shown.phase == FAILED ==> h.At(n).record == old(h.At(n)).record && Shows(r.shown, old(h.At(n)).record)
      ensures r.shown.phase == FAILED ==> h.At(n).record.Some?
      ensures !r.stopRequested <==> old(h.At(n)).record.None?
      ensures h.Did(a) != old(h.Did(a)) ==>
                && old(h.At(n)).record.Some?
                && RecId(old(h.At(n)).record.value) in h.At(n).hold.value.ledger.matched
      ensures old(h.At(n)).record.Some? ==>
                && NotedForStop(r, n, RecId(old(h.At(n)).record.value))
                && Attempted(r, a, n, RecId(old(h.At(n)).record.value), old(h.trace))
      ensures h.Within(n)
    {
      hide Exec, IsRun, OpenedAt, Effects, Init;
      ghost var before := h.trace;
      var state := h.LoadRuntime(a, n);
      if state.None? {
        return StopResult(false, true, Describe(Note(STOPPED), None));
      }
      h.RecordFits(n);
      var matches := h.MatchesRecord(a, n, state.value);
      if !matches {
        return StopResult(true, true, Describe(Note(FAILED, 0, Some(ProcessIdentityMismatch),
          processAlive := Some(false)), state));
      }
      ghost var seen := h.trace;
      r := DisconnectAndRestore(a, n, state.value);
      StillAttempted(r, a, n, RecId(state.value), before, seen);
    }

    /** STOPPED: seen to match, then gone. FAILED: seen gone, or seen to match and still kept; in this call. */
    ghost predicate StopEvidence(r: StopResult, a: Agent, n: string, id: Identity, before: seq<Action>)
      reads this, h
    {
      && (r.shown.phase == STOPPED ==>
            && Since(before, h.trace, SeeMatch(a, n, id)) && Since(before, h.trace, SeeGone(a, n, id))
            && !Live(h.now, id))
      && (r.shown.phase == FAILED ==>
            if r.shown.code == Some(ProcessIdentityMismatch)
            then Since(before, h.trace, SeeGone(a, n, id)) && !Live(h.now, id)
            else Since(before, h.trace, SeeMatch(a, n, id)))
    }

    /** The same in terms of what is noted in the current operation. */
    ghost predicate NotedForStop(r: StopResult, n: string, id: Identity)
      reads this, h
      requires n in h.now.holds
    {
      var l := h.now.holds[n].ledger;
      && (r.shown.phase == STOPPED ==> id in l.matched && id in l.gone && !Live(h.now, id))
      && (r.shown.phase == FAILED ==>
            if r.shown.code == Some(ProcessIdentityMismatch) then id in l.gone && !Live(h.now, id) else id in l.matched)
    }

    /**
     What was tried, by the result for a recorded process: STOPPED took a signal; a mismatch took
     none, and put back a record that was cleared for it; anything else was an attempt that failed.
     */
    ghost predicate Attempted(r: StopResult, a: Agent, n: string, id: Identity, before: seq<Action>)
      reads this, h
    {
      var did := Effects(before, a);
      if r.shown.phase == STOPPED then
        h.Did(a) == did + [Signal(a, n)] + [ClearRecord(a, n)]
      else if r.shown.code == Some(ProcessIdentityMismatch) then
        h.Did(a) == did || exists state :: h.Did(a) == did + [ClearRecord(a, n)] + [SaveRecord(a, state)]
      else
        && r.shown.code in {Some(ProcessStopTimeout), Some(ProcessStopFailed)}
        && NotStopped(before, h.trace, a, n, id, if r.shown.code == Some(ProcessStopFailed) then None else Some(false))
    }

    lemma StillAttempted(r: StopResult, a: Agent, n: string, id: Identity, before: seq<Action>, begun: seq<Action>)
      requires before <= begun && Effects(before, a) == Effects(begun, a)
      ensures Attempted(r, a, n, id, begun) ==> Attempted(r, a, n, id, before)
    {
      hide Effects, Since;
      NotStoppedGrows(before, begun, h.trace, h.trace, a, n, id, None);
      NotStoppedGrows(before, begun, h.trace, h.trace, a, n, id, Some(false));
    }

    method DisconnectAndRestore(a: Agent, n: string, state: Record) returns (r: StopResult)
      requires h.Settled(a, n) && h.At(n).record == Some(state) && state.name == n
      requires RecId(state) in h.At(n).hold.value.ledger.matched
      modifies h
      ensures h.Settled(a, n) && r.workerExited && r.stopRequested && Grew(old(h.trace), h.trace)
      ensures r.shown.phase == STOPPED || r.shown.phase == FAILED
      ensures r.shown.phase == STOPPED ==> h.At(n).record.None? && !r.shown.runtimePresent && !Live(h.now, RecId(state))
      ensures r.shown.phase == FAILED ==> h.At(n).record == Some(state) && Shows(r.shown, Some(state))
      ensures h.Grows(n) && NotedForStop(r, n, RecId(state)) && Attempted(r, a, n, RecId(state), old(h.trace))
    {
      hide Exec, IsRun, OpenedAt, Effects, Init;
      ghost var before := h.trace;
      h.RecordFits(n);
      var result := tunnels.Disconnect(a, n);
      if result.Disconnected? && result.check.Passed() {
        return StopResult(true, true, Describe(Note(STOPPED), None));
      }
      var code := if result.DisconnectRaised? then ProcessStopFailed
                  else if result.check.code.Some? then result.check.code.value else ProcessStopFailed;
      ghost var ended := h.trace;
      r := RestoreAndReport(a, n, state, code);
      if h.Did(a) == Effects(ended, a) {
        NotStoppedGrows(before, before, ended, h.trace, a, n, RecId(state),
                        if result.DisconnectRaised? then None else Some(false));
      }
    }

    /** The failing exits of `_stop_unsupervised`: put the evidence back and show it. */
    method RestoreAndReport(a: Agent, n: string, state: Record, code: Code) returns (r: StopResult)
      requires h.Settled(a, n) && state.name == n && h.At(n).record in {None, Some(state)} && MaySave(h.now, a, state)
      requires RecId(state) in h.now.used
      modifies h
      ensures h.Settled(a, n) && Grew(old(h.trace), h.trace) && Older(old(h.now), h.now)
      ensures h.At(n).record == Some(state) && h.Grows(n)
      ensures h.Did(a) == if old(h.At(n)).record.None? then old(h.Did(a)) + [SaveRecord(a, state)] else old(h.Did(a))
      ensures exists alive :: r ==
                StopResult(true, true, Describe(Note(FAILED, 0, Some(code), processAlive := alive), Some(state)))
    {
      hide Exec, IsRun, OpenedAt, Effects, Init;
      Restore(a, state);
      var alive := h.MatchesRecord(a, n, state);
      return StopResult(true, true, Describe(Note(FAILED, 0, Some(code), processAlive := Some(alive)), Some(state)));
    }

    /**
     `_stop_unsupervised`, given when it looked for the profile (`asked`) and when it tried to get
     the lock (`tried`): see StoppedAs.
     */
    method StopUnsupervised(a: Agent, n: string) returns (out: StopOutcome, ghost asked: nat, ghost tried: nat)
      requires h.Valid()
      modifies h
      ensures h.Valid() && Grew(old(h.trace), h.trace) && |old(h.trace)| <= asked
      ensures !old(Holds(h.now, a, n)) ==> !Holds(h.now, a, n)
      ensures StoppedAs(out, a, n, asked, tried, old(h.Did(a)))
    {
      hide Exec, IsRun, OpenedAt, Effects, Init;
      var profile := h.LoadProfile(a, n);
      ghost var looked := h.trace;
      asked, tried := |looked|, |looked|;
      assert looked[..asked] == looked;
      if profile.None? {
        return NoProfile, asked, tried;
      }
      var ok;
      ok, tried := h.TryLock(a, n);
      ghost var taken := h.trace;
      h.ThenLater(looked, asked, n);
      if !ok {
        var runtime := h.LoadRuntime(a, n);
        var busy := Describe(Note(FAILED, 0, Some(ProfileBusy)), None).(runtimePresent := runtime.Some?);
        h.ThenLater(taken, asked, n);
        h.ThenLater(taken, tried, n);
        return Stopped(StopResult(true, true, busy)), asked, tried;
      }
      var result := StopHeld(a, n);
      h.Release(a, n);
      h.ThenLater(taken, asked, n);
      h.ThenLater(taken, tried, n);
      out := Stopped(result);
    }

    /**
     What a stop without a worker does: no such profile exactly when none was stored; busy exactly
     when somebody had the lock; otherwise STOPPED without a record, or FAILED with the record
     that was stored, and nothing is done when there was no record.
     */
    ghost predicate StoppedAs(out: StopOutcome, a: Agent, n: string, asked: nat, tried: nat, did: seq<Action>)
      reads this, h
    {
      && asked <= tried <= |h.trace| && (out.NoProfile? || out.Stopped?)
      && (out.NoProfile? <==> h.Then(asked, n).profile.None?)
      && (out.NoProfile? ==> h.Did(a) == did)
      && (out.Stopped? ==>
            if h.Then(tried, n).hold.Some? then
              && h.Did(a) == did && out.result.stopRequested && out.result.workerExited
              && out.result.shown == Describe(Note(FAILED, 0, Some(ProfileBusy)), None)
                                     .(runtimePresent := h.At(n).record.Some?)
            else
              && out.result.workerExited && out.result.shown.phase in {STOPPED, FAILED}
              && (out.result.shown.phase == STOPPED ==> h.At(n).record.None?)
              && (out.result.shown.phase == FAILED ==>
                    h.Then(tried, n).record.Some? && h.At(n).record == h.Then(tried, n).record
                    && Shows(out.result.shown, h.Then(tried, n).record))
              && (out.result.stopRequested <==> h.Then(tried, n).record.Some?)
              && (h.Then(tried, n).record.None? ==> h.Did(a) == did)
              && (out.result.shown.phase == STOPPED && h.Then(tried, n).record.Some? ==>
                    h.Did(a) == did + [Signal(a, n)] + [ClearRecord(a, n)]))
    }

    /** `_stop_unsupervised_guarded`: on every exit the name is released and has no registry entry. */
    method StopUnsupervisedGuarded(c: Caller, a: Agent, n: string, expected: Option<nat>)
      returns (out: StopOutcome, ghost asked: nat, ghost tried: nat)
      requires Valid() && MyStop(reg, c, n)
      requires n in reg.workers ==> Some(reg.workers[n]) == expected && Finished(reg, reg.workers[n])
      modifies this, h
      ensures Valid() && Later(old(reg), reg) && old(calls) <= calls && Grew(old(h.trace), h.trace)
      ensures n !in reg.stopping && n !in reg.workers && !out.AlreadyStopping?
      ensures !old(Holds(h.now, a, n)) ==> !Holds(h.now, a, n)
      ensures |old(h.trace)| <= asked && StoppedAs(out, a, n, asked, tried, old(h.Did(a)))
    {
      hide Exec, IsRun, OpenedAt, Effects, Init;
      out, asked, tried := StopUnsupervised(a, n);
      Yield(c);
      Enter(EndUnsupervised(c, n, expected));
    }

    /**
     RuntimeManager.stop. The name is taken before anything else and released on every exit; a
     worker that has not finished is asked to stop, and without one the record is dealt with here.
     */
    method Stop(c: Caller, a: Agent, n: string)
      returns (out: StopOutcome, ghost supervised: Option<nat>, ghost asked: nat, ghost tried: nat)
      requires Valid()
      modifies this, h
      ensures Valid() && Later(old(reg), reg)
      ensures if out.AlreadyStopping? then n in reg.stopping else n !in reg.stopping
      ensures supervised.None? && !out.AlreadyStopping? ==>
                && n !in reg.workers
                && |old(h.trace)| <= asked && StoppedAs(out, a, n, asked, tried, old(h.Did(a)))
      ensures supervised.Some? ==>
                && out.Stopped? && supervised.value < |reg.created| && reg.created[supervised.value].name == n
                && reg.created[supervised.value].stopSet && out.result.stopRequested
                && (out.result.workerExited ==>
                      Finished(reg, supervised.value) && out.result.shown.phase == reg.created[supervised.value].final)
      ensures supervised.Some? || out.AlreadyStopping? ==> h.trace == old(h.trace) && h.now == old(h.now)
      ensures !old(Holds(h.now, a, n)) ==> !Holds(h.now, a, n)
    {
      hide Exec, IsRun, OpenedAt, Effects, Init, RegExec, IsRegRun, StoppedAs;
      asked, tried := 0, 0;
      Yield(c);
      if n in reg.stopping {
        return AlreadyStopping, None, asked, tried;
      }
      RegistryHolds();
      Enter(BeginStop(c, n));
      if n in reg.workers && !reg.created[reg.workers[n]].finished {
        supervised := Some(reg.workers[n]);
        var result := StopWorker(c, n, reg.workers[n]);
        return Stopped(result), supervised, asked, tried;
      }
      supervised := None;
      out, asked, tried := StopUnsupervisedGuarded(c, a, n, if n in reg.workers then Some(reg.workers[n]) else None);
    }

    /** What is reported of a worker: whether it has ended, and the snapshot it shows. */
    method WorkerResult(id: nat) returns (r: StopResult)
      requires id < |reg.created|
      ensures r.stopRequested && r.workerExited == reg.created[id].finished
      ensures r.workerExited ==> r.shown.phase == reg.created[id].final
    {
      var shown: Snapshot := *;
      var exited := reg.created[id].finished;
      r := StopResult(true, exited, if exited then shown.(phase := reg.created[id].final) else shown);
    }

    /** The supervised branch of `stop`: set the event, wait, report, release. */
    method StopWorker(c: Caller, n: string, id: nat) returns (r: StopResult)
      requires Valid() && MyStop(reg, c, n) && id < |reg.created| && reg.created[id].name == n
      modifies this
      ensures Valid() && Later(old(reg), reg) && n !in reg.stopping
      ensures id < |reg.created| && reg.created[id].stopSet && r.stopRequested
      ensures r.workerExited ==> Finished(reg, id) && r.shown.phase == reg.created[id].final
    {
      hide RegExec, IsRegRun, EntriesFit, AskedAll, Popped, AsksOnClose;
      Enter(AskStop(c, id));
      Yield(c);
      r := WorkerResult(id);
      Yield(c);
      Enter(EndStop(c, n));
    }

    /**
     One profile of the shutdown loop; `unreadable` says that its record cannot be read. `at` is a
     moment when its record was seen: for a completed result, one when there was none.
     */
    method ShutdownOne(c: Caller, a: Agent, n: string, id: nat, unreadable: bool) returns (r: StopResult, ghost at: nat)
      requires Valid() && reg.closed && id < |reg.created| && reg.created[id].name == n
      requires n in reg.workers ==> reg.workers[n] == id
      modifies this, h
      ensures Valid() && Later(old(reg), reg) && old(calls) <= calls && Grew(old(h.trace), h.trace)
      ensures !old(Holds(h.now, a, n)) ==> !Holds(h.now, a, n)
      ensures Completed(r) ==> |old(h.trace)| <= at && NoRecordAt(h.start, h.trace, n, at)
      ensures r.workerExited <==> Finished(reg, id)
      ensures r.workerExited && unreadable ==> r.shown == Failure(RuntimeStateUnavailable, false)
      ensures r.workerExited && !unreadable ==>
                && |old(h.trace)| <= at <= |h.trace|
                && (h.Then(at, n).record.None? && reg.created[id].final == STOPPED ==> Completed(r))
    {
      hide Exec, IsRun, OpenedAt, Effects, Init, RegExec, IsRegRun;
      at := 0;
      Yield(c);
      r := WorkerResult(id);
      var shown := r.shown;
      if !r.workerExited {
        return;
      }
      if unreadable {
        return StopResult(true, true, Failure(RuntimeStateUnavailable, false)), at;
      }
      var runtime := h.LoadRuntime(a, n);
      at := |h.trace|;
      assert h.trace[..at] == h.trace;
      if shown.phase == STOPPED && runtime.None? {
        return StopResult(true, true, shown), at;
      }
      ghost var read := h.trace;
      ghost var clear;
      r, clear := ShutdownUnsupervised(c, a, n, id, runtime.Some?);
      h.ThenLater(read, at, n);
      at := if Completed(r) then clear else at;
    }

    /** A snapshot that says only why something failed. */
    function Failure(code: Code, runtimePresent: bool): Snapshot {
      Describe(Note(FAILED, 0, Some(code)), None).(runtimePresent := runtimePresent)
    }

    /** `_shutdown_unsupervised`: a stop that is already in flight elsewhere is reported as FAILED. */
    method ShutdownUnsupervised(c: Caller, a: Agent, n: string, id: nat, present: bool)
      returns (r: StopResult, ghost at: nat)
      requires Valid() && reg.closed && Finished(reg, id) && reg.created[id].name == n
      requires n in reg.workers ==> reg.workers[n] == id
      modifies this, h
      ensures Valid() && Later(old(reg), reg) && old(calls) <= calls && Grew(old(h.trace), h.trace)
      ensures !old(Holds(h.now, a, n)) ==> !Holds(h.now, a, n)
      ensures r.workerExited
      ensures Completed(r) ==> |old(h.trace)| <= at && NoRecordAt(h.start, h.trace, n, at)
    {
      hide Exec, IsRun, OpenedAt, Effects, Init, RegExec, IsRegRun;
      at := 0;
      Yield(c);
      if n in reg.stopping {
        return StopResult(true, true, Failure(RuntimeStopInProgress, present)), at;
      }
      Enter(BeginStop(c, n));
      ghost var asked, tried;
      var out;
      out, asked, tried := StopUnsupervisedGuarded(c, a, n, Some(id));
      if !out.Stopped? {
        return StopResult(true, true, Failure(ProfileNotFound, present)), at;
      }
      at := |h.trace|;
      assert h.trace[..at] == h.trace;
      return out.result, at;
    }

    /** The loop of `shutdown` over the workers registered at the close. */
    method ShutdownAll(c: Caller, a: Agent, registered: map<string, nat>, unreadable: set<string>)
      returns (results: seq<StopResult>, completed: bool, ghost clear: map<string, nat>)
      requires Valid() && AtClose(reg, registered)
      modifies this, h
      ensures Valid() && AtClose(reg, registered) && old(calls) <= calls && Grew(old(h.trace), h.trace)
      ensures completed == AllCompleted(results) && |results| == |registered|
      ensures completed ==> Cleared(reg, h.start, h.trace, registered, map[], clear, |old(h.trace)|)
    {
      hide AtClose, Cleared, Exec, IsRun, OpenedAt, Effects, Init;
      results, completed, clear := [], true, map[];
      NoneLeftToClear(reg, h.start, h.trace, registered, |h.trace|);
      var rest := registered;
      ghost var from := |h.trace|;
      while rest.Keys != {}
        invariant Valid() && AtClose(reg, registered) && old(calls) <= calls && Grew(old(h.trace), h.trace)
        invariant forall n | n in rest :: n in registered && rest[n] == registered[n]
        invariant |results| + |rest| == |registered|
        invariant completed == AllCompleted(results)
        invariant completed ==> Cleared(reg, h.start, h.trace, registered, rest, clear, from)
        decreases rest.Keys
      {
        var n :| n in rest;
        var r;
        r, clear := ShutdownNext(c, a, n, rest[n], n in unreadable, registered, rest, clear, from, completed);
        assert (results + [r])[..|results|] == results;
        results, completed, rest := results + [r], completed && Completed(r), rest - {n};
      }
      assert rest == map[];
    }

    /** One round of that loop: `clear` gains the moment this profile was seen without a record. */
    method ShutdownNext(c: Caller, a: Agent, n: string, id: nat, unreadable: bool, registered: map<string, nat>,
                        ghost rest: map<string, nat>, ghost clear: map<string, nat>, ghost from: nat, ghost soFar: bool)
      returns (r: StopResult, ghost clear': map<string, nat>)
      requires Valid() && AtClose(reg, registered) && n in registered && registered[n] == id && from <= |h.trace|
      requires soFar ==> Cleared(reg, h.start, h.trace, registered, rest, clear, from)
      modifies this, h
      ensures Valid() && AtClose(reg, registered)
      ensures old(calls) <= calls && Grew(old(h.trace), h.trace)
      ensures soFar && Completed(r) ==> Cleared(reg, h.start, h.trace, registered, rest - {n}, clear', from)
    {
      hide Exec, IsRun, NoRecordAt, OpenedAt, Effects, Init;
      ghost var before, trace := reg, h.trace;
      ghost var at;
      r, at := ShutdownOne(c, a, n, id, unreadable);
      clear' := clear[n := at];
      if soFar && Completed(r) {
        ClearedGrows(before, reg, h.start, trace, h.trace, registered, rest, clear, from, n, at);
      }
    }

    /** The first section of `shutdown`: closed for good, every unfinished worker asked to stop. */
    method BeginShutdown(c: Caller) returns (registered: map<string, nat>, ghost closedAt: nat)
      requires Valid()
      modifies this
      ensures Valid() && AtClose(reg, registered) && ClosedAt(calls, c, closedAt, registered)
      ensures forall id | 0 <= id < |reg.created| && !reg.created[id].finished :: reg.created[id].stopSet
    {
      Yield(c);
      closedAt := |calls|;
      assert calls[..closedAt] == calls;
      CloseRegisters(c);
      registered := reg.workers;
      Enter(Close(c));
      assert calls[..closedAt] == calls[..|calls| - 1];
      RegistryHolds();
    }

    /**
     RuntimeManager.shutdown. When it reports completion, every worker this manager ever created
     has finished, and each profile registered at the close had no runtime record at a moment
     of the shutdown.
     */
    method Shutdown(c: Caller, a: Agent, unreadable: set<string>)
      returns (results: seq<StopResult>, completed: bool,
               ghost registered: map<string, nat>, ghost closedAt: nat, ghost clear: map<string, nat>)
      requires Valid()
      modifies this, h
      ensures Valid() && reg.closed && ClosedAt(calls, c, closedAt, registered)
      ensures completed == AllCompleted(results) && |results| == |registered|
      ensures completed ==> forall id | 0 <= id < |reg.created| :: reg.created[id].finished
      ensures completed ==> Cleared(reg, h.start, h.trace, registered, map[], clear, |old(h.trace)|)
    {
      hide ClosedAt, Cleared, Exec, IsRun, OpenedAt, Effects, Init;
      var workers;
      workers, closedAt := BeginShutdown(c);
      registered := workers;
      ghost var before := calls;
      results, completed, clear := ShutdownAll(c, a, workers, unreadable);
      ClosedAtStays(before, calls, c, closedAt, registered);
      if completed {
        AllFinished(registered, h.start, h.trace, clear, |old(h.trace)|);
      }
    }

    lemma CloseRegisters(c: Caller)
      requires Valid()
      ensures AtClose(RegApply(reg, Close(c)), reg.workers)
    {
      RegistryHolds();
    }

    /** After the close, once the workers registered then have finished, all workers have. */
    lemma AllFinished(registered: map<string, nat>, start: State, trace: seq<Action>, clear: map<string, nat>,
        from: nat)
      requires Valid() && AtClose(reg, registered)
      requires Cleared(reg, start, trace, registered, map[], clear, from)
      ensures forall id | 0 <= id < |reg.created| :: reg.created[id].finished
    {
      RegistryHolds();
    }
  }

  /** The close was the caller's action number `closedAt`, with these workers registered. */
  ghost predicate ClosedAt(calls: seq<RegAction>, c: Caller, closedAt: nat, registered: map<string, nat>) {
    && closedAt < |calls| && calls[closedAt] == Close(c)
    && RegExec(EMPTY_REGISTRY, calls[..closedAt]).workers == registered
  }

  lemma ClosedAtStays(before: seq<RegAction>, after: seq<RegAction>, c: Caller, closedAt: nat,
      registered: map<string, nat>)
    requires before <= after && ClosedAt(before, c, closedAt, registered)
    ensures ClosedAt(after, c, closedAt, registered)
  {
    assert after[..closedAt] == before[..closedAt];
  }

  /** The registry has been closed, and still has at most the workers registered then. */
  ghost predicate AtClose(g: Registry, registered: map<string, nat>) {
    && g.closed
    && (forall n | n in registered :: registered[n] < |g.created| && g.created[registered[n]].name == n)
    && (forall n | n in g.workers :: n in registered && g.workers[n] == registered[n])
  }

  /** RuntimeShutdownResult.completed. */
  predicate AllCompleted(results: seq<StopResult>) {
    results == [] || (AllCompleted(results[..|results| - 1]) && Completed(results[|results| - 1]))
  }

  /** After this many actions the profile had no runtime record. */
  ghost predicate NoRecordAt(start: State, trace: seq<Action>, n: string, at: nat) {
    at <= |trace| && n !in Exec(start, trace[..at]).records
  }

  /** The registered workers not in `rest` have finished, and their profiles were seen without a record. */
  ghost predicate Cleared(g: Registry, start: State, trace: seq<Action>, registered: map<string, nat>,
                          rest: map<string, nat>, clear: map<string, nat>, from: nat) {
    forall n | n in registered && n !in rest ::
      Finished(g, registered[n]) && n in clear && from <= clear[n] && NoRecordAt(start, trace, n, clear[n])
  }

  lemma NoneLeftToClear(g: Registry, start: State, trace: seq<Action>, registered: map<string, nat>, from: nat)
    ensures Cleared(g, start, trace, registered, registered, map[], from)
  {
  }

  lemma ClearedGrows(g: Registry, g': Registry, start: State, trace: seq<Action>, trace': seq<Action>,
                     registered: map<string, nat>, rest: map<string, nat>, clear: map<string, nat>, from: nat,
                     n: string, at: nat)
    requires Cleared(g, start, trace, registered, rest, clear, from)
    requires Later(g, g') && trace <= trace' && n in registered
    requires Finished(g', registered[n]) && from <= at && NoRecordAt(start, trace', n, at)
    ensures Cleared(g', start, trace', registered, rest - {n}, clear[n := at], from)
  {
    forall m | m in registered && m !in rest && m != n
      ensures Finished(g', registered[m]) && NoRecordAt(start, trace', m, clear[m])
    {
      assert trace'[..clear[m]] == trace[..clear[m]];
    }
  }
}
