/** The long-running owner of one profile's tunnel (app/services/tunnel_supervisor.py). */
module Supervisors {
  import opened Wrappers
  import opened Domain
  import opened Ownership
  import opened OwnershipTheorems
  import opened Hosts
  import opened Tunnels
  import opened Cleanups
  import opened SupervisorLogs

  /** What one part of the loop body decides; `Raised` is an exception. */
  datatype Flow = Proceed | Again | Leave | Return(final: Snapshot) | Raised

  /** The inspection of the local proxy; `InspectRaised` is an exception. */
  datatype Report = Inspected(failure: Option<Code>) | InspectRaised

  datatype Cleanup = Cleaned(ok: bool, code: Option<Code>) | CleanupRaised

  class TunnelSupervisor {
    const name: string
    const agent: Agent
    const tunnels: TunnelManager
    const h: Host := tunnels.h
    const backoff: seq<real>
    /** The stop event is set by someone else just before event number `stopAt` of this run. */
    const stopAt: nat
    /** How many actions the machine had done when this supervisor was made. */
    ghost const born: nat

    var snapshot: Snapshot
    var log: seq<Event>
    /** How many actions the machine had done at each event of the log. */
    ghost var moments: seq<nat>
    /** Does the profile it supervises want automatic reconnect? */
    ghost var reconnect: bool

    constructor (name: string, agent: Agent, tunnels: TunnelManager, backoff: seq<real>, stopAt: nat, ghost age: nat)
      requires Accepted(backoff)
      ensures this.name == name && this.agent == agent && this.tunnels == tunnels
      ensures this.backoff == backoff && this.stopAt == stopAt && log == [] && moments == [] && born == age
    {
      this.name := name;
      this.agent := agent;
      this.tunnels := tunnels;
      this.backoff := backoff;
      this.stopAt := stopAt;
      this.born := age;
      this.log, this.moments := [], [];
      this.snapshot := Snapshot(STARTING, 0, None, None, None, None, None, None, None, false, None);
    }

    /** Every publication so far is about what the store really held then: see LogHolds. */
    ghost predicate True()
      reads this, h
    {
      LogHolds(h.start, h.trace, agent, name, born, log, moments) && born <= |h.trace|
    }

    /** The run goes on: see OpenLog. */
    ghost predicate Open()
      reads this, h
    {
      Accepted(backoff) && OpenLog(backoff, reconnect, stopAt, log) && True()
    }

    /** The run has published its final snapshot: see EndedLog. */
    ghost predicate Ended(s: Snapshot)
      reads this, h
    {
      EndedLog(backoff, reconnect, stopAt, log, s) && snapshot == s && True()
    }

    /** What was true of the log stays true as the machine goes on. */
    lemma StillTrue(before: seq<Action>)
      requires LogHolds(h.start, before, agent, name, born, log, moments) && born <= |before| && before <= h.trace
      ensures True()
    {
      LogHoldsLater(h.start, before, h.trace, agent, name, born, log, moments);
    }

    /** Since the lock was taken, every publication found the same profile in the store. */
    ghost predicate Steady(p: Profile)
      reads this
    {
      forall k | 1 <= k < |log| && log[k].Published? :: log[k].profile == Some(p)
    }

    lemma NothingYet(p: Profile)
      ensures |log| <= 1 ==> Steady(p)
    {
    }

    ghost predicate Locked(p: Profile)
      reads this, h
    {
      && h.Settled(agent, name) && h.At(name).profile == Some(p) && p.name == name && Steady(p)
      && reconnect == p.autoReconnect
    }

    ghost predicate Holding(active: ActiveTunnel?)
      reads this, h, active
    {
      active != null ==> active.Current(h, agent) && active.state.name == name
    }

    /** The loop invariant of `_run_locked`. */
    ghost predicate Running(p: Profile, active: ActiveTunnel?, attempt: nat, index: nat)
      reads this, h, active
    {
      Locked(p) && Holding(active) && Open() && attempt == index == Degradations(log)
    }

    /** The machine has only moved on. */
    twostate predicate TimePassed()
      reads h
    {
      Older(old(h.now), h.now) && Grew(old(h.trace), h.trace)
    }

    /** A tunnel is let go of only when its process is dead. */
    twostate predicate LetGo(active: ActiveTunnel?, new active': ActiveTunnel?)
      reads this, h, active
    {
      && TimePassed()
      && (active != null && active' != active ==> !Live(h.now, RecId(active.state)))
    }

    /** stop_event.is_set() and stop_event.wait(delay). */
    method Ask() returns (stop: bool)
      requires Open() && MayAsk(reconnect, log)
      modifies this
      ensures Open() && log == old(log) + [Asked(stop)] && snapshot == old(snapshot) && reconnect == old(reconnect)
      ensures forall p | old(Steady(p)) :: Steady(p)
      ensures Degradations(log) == Degradations(old(log)) && LastWork(log) == LastWork(old(log))
      ensures !stop ==> |log| <= stopAt && Begun(log, stopAt) == 0
      ensures stop <==> |old(log)| >= stopAt
    {
      hide Exec, IsRun, OpenedAt, Effects, Init, Follows;
      stop := |log| >= stopAt;
      Append(backoff, reconnect, stopAt, log, Asked(stop));
      LogHoldsAppend(h.start, h.trace, agent, name, born, log, moments, Asked(stop));
      log, moments := log + [Asked(stop)], moments + [|h.trace|];
    }

    /** The start of a long operation, right after a question that was answered with no. */
    method Begin(work: Work)
      requires Open() && Accepted(backoff) && Begun(log, stopAt) == 0
      requires Truthful(backoff, reconnect, log, Began(work))
      modifies this
      ensures Open() && log == old(log) + [Began(work)] && snapshot == old(snapshot) && reconnect == old(reconnect)
      ensures forall p | old(Steady(p)) :: Steady(p)
      ensures |moments| == |log| && moments[|log| - 1] == |h.trace|
      ensures Degradations(log) == Degradations(old(log)) && LastWork(log) == Some(work)
    {
      hide Exec, IsRun, OpenedAt, Effects, Init, Follows;
      Append(backoff, reconnect, stopAt, log, Began(work));
      LogHoldsAppend(h.start, h.trace, agent, name, born, log, moments, Began(work));
      log, moments := log + [Began(work)], moments + [|h.trace|];
    }

    /** The end of a long operation that did not raise. */
    method End(work: Work, failure: Option<Code>, suggestion: Option<int>, ghost begun: seq<Action>)
      requires Open() && Latest(log, Began(work)) && h.Valid()
      requires begun <= h.trace && moments[|log| - 1] == |begun|
      requires Worked(begun, h.trace, agent, name, Done(work, failure, suggestion))
      modifies this
      ensures Open() && log == old(log) + [Done(work, failure, suggestion)]
      ensures snapshot == old(snapshot) && reconnect == old(reconnect)
      ensures forall p | old(Steady(p)) :: Steady(p)
      ensures Degradations(log) == Degradations(old(log)) && LastWork(log) == LastWork(old(log))
      ensures Begun(log, stopAt) == Begun(old(log), stopAt)
    {
      hide Exec, IsRun, OpenedAt, Effects, Init, Worked;
      var event := Done(work, failure, suggestion);
      assert h.trace[..|begun|] == begun;
      Append(backoff, reconnect, stopAt, log, event);
      LogHoldsAppend(h.start, h.trace, agent, name, born, log, moments, event);
      log, moments := log + [event], moments + [|h.trace|];
    }

    /** The record a snapshot is made from: the active tunnel's, or what the store holds now. */
    method Stored(active: ActiveTunnel?) returns (runtime: Option<Record>, profile: Option<Profile>)
      requires h.Valid() && Holding(active)
      modifies h
      ensures h.Valid() && Rely(old(h.now), h.now, agent) && h.Did(agent) == old(h.Did(agent))
      ensures Holds(h.now, agent, name) <==> old(Holds(h.now, agent, name))
      ensures Grew(old(h.trace), h.trace)
      ensures runtime == h.At(name).record && profile == h.At(name).profile
    {
      hide Exec, IsRun, OpenedAt, Effects, Init;
      if active != null {
        runtime := Some(active.state);
      } else {
        runtime := h.LoadRuntime(agent, name);
      }
      profile := if name in h.now.profiles then Some(h.now.profiles[name]) else None;
    }

    /** TunnelSupervisor._publish. */
    method Publish(note: Note, active: ActiveTunnel?) returns (shown: Snapshot)
      requires h.Valid() && Open() && Holding(active)
      requires MayTell(reconnect, log, note.phase, note.code, note.suggestion)
      requires note.phase == STOPPED ==> active == null && h.Settled(agent, name) && h.At(name).record.None?
      requires note.phase == READY ==>
                 && active != null && active.state.probedAt.Some? && LastWork(log) == Some(Verify)
                 && note.processAlive == Some(true)
      requires note.phase == CONNECTING ==> note.attempt == Degradations(log)
      requires note.phase == DEGRADED ==>
                 && note.attempt == Degradations(log) + 1
                 && note.retry == Some(Backoff(backoff, Degradations(log)))
      modifies this, h
      ensures h.Valid() && Rely(old(h.now), h.now, agent) && h.Did(agent) == old(h.Did(agent))
      ensures Holds(h.now, agent, name) <==> old(Holds(h.now, agent, name))
      ensures log == old(log) + [Published(shown, h.At(name).record, h.At(name).profile)]
                && moments == old(moments) + [|h.trace|]
      ensures Grew(old(h.trace), h.trace)
      ensures shown == snapshot == Describe(note, h.At(name).record) && reconnect == old(reconnect)
      ensures if Ending(note.phase) then Ended(shown) else Open()
      ensures Degradations(log) == Counted(Degradations(old(log)), note.phase)
      ensures Begun(log, stopAt) == Begun(old(log), stopAt) && LastWork(log) == LastWork(old(log))
    {
      hide Follows, LogHolds, Exec, IsRun, OpenedAt, Effects, Init;
      ghost var before := h.trace;
      var runtime, profile := Stored(active);
      StillTrue(before);
      shown := Describe(note, runtime);
      var event := Published(shown, runtime, profile);
      TellingFollows(reconnect, log, note, runtime, profile);
      Append(backoff, reconnect, stopAt, log, event);
      LogHoldsAppend(h.start, h.trace, agent, name, born, log, moments, event);
      log, snapshot, moments := log + [event], shown, moments + [|h.trace|];
    }

    /**
     TunnelSupervisor._cleanup_active. Success leaves no record; with a tunnel, failure keeps it.
     Whatever it reports, it goes by what it saw in this very call.
     */
    method CleanupActive(p: Profile, active: ActiveTunnel?) returns (out: Cleanup)
      requires Locked(p) && Holding(active) && True()
      modifies h
      ensures Locked(p) && TimePassed() && True()
      ensures old(h.At(name)).record.Some? ==>
                CleanupEvidence(out, RecId(old(h.At(name)).record.value), old(h.trace))
      ensures out.Cleaned? && out.ok ==> h.At(name).record.None? && out.code.None?
      ensures old(h.At(name)).record.None? ==> out == Cleaned(true, None)
      ensures old(h.At(name)).record.Some? && !(out.Cleaned? && out.ok) ==>
                FailedCleanup(active != null, old(h.trace), h.trace, agent, name,
                              RecId(old(h.At(name)).record.value))
      ensures out.Cleaned? && !out.ok ==> out.code.Some? && out.code.value in CLEANUP_CODES && Holding(active)
      ensures out.CleanupRaised? ==> Holding(active) && h.At(name).record == old(h.At(name)).record
      ensures out.Cleaned? && !out.ok && h.At(name).record != old(h.At(name)).record ==>
                && active == null && h.At(name).record.None? && out.code == Some(ProcessIdentityMismatch)
                && !Live(h.now, RecId(old(h.At(name)).record.value))
    {
      hide Exec, IsRun, Since, LogHolds, OpenedAt, Effects, Init;
      ghost var before := h.trace;
      h.BeginOperation(agent, name);
      ghost var begun := h.trace;
      if active != null {
        out := StopActive(p, active);
      } else {
        out := StopStored(p);
      }
      h.SeenInOperation(begun, agent, name);
      StillTrue(before);
      if old(h.At(name)).record.Some? {
        ghost var id := RecId(old(h.At(name)).record.value);
        SinceEarlier(before, begun, h.trace, SeeMatch(agent, name, id));
        SinceEarlier(before, begun, h.trace, SeeGone(agent, name, id));
      }
    }

    /** Success: seen to match, then dead. A mismatch: dead. A timeout: seen to match, and kept. */
    ghost predicate CleanupEvidence(out: Cleanup, id: Identity, before: seq<Action>)
      reads this, h
      requires name in h.now.holds
    {
      && (out.Cleaned? && out.ok ==>
            && Since(before, h.trace, SeeMatch(agent, name, id)) && Since(before, h.trace, SeeGone(agent, name, id))
            && !Live(h.now, id))
      && (out.Cleaned? && !out.ok ==>
            && out.code in {Some(ProcessIdentityMismatch), Some(ProcessStopTimeout), Some(ProcessStopFailed)}
            && (out.code == Some(ProcessIdentityMismatch) ==>
                  Since(before, h.trace, SeeGone(agent, name, id)) && !Live(h.now, id))
            && (out.code != Some(ProcessIdentityMismatch) ==> Since(before, h.trace, SeeMatch(agent, name, id))))
    }

    /** The same in terms of what is noted in the current operation. */
    ghost predicate NotedEvidence(out: Cleanup, id: Identity)
      reads this, h
      requires name in h.now.holds
    {
      var l := h.now.holds[name].ledger;
      && (out.Cleaned? && out.ok ==> id in l.matched && id in l.gone && !Live(h.now, id))
      && (out.Cleaned? && !out.ok ==>
            && out.code in {Some(ProcessIdentityMismatch), Some(ProcessStopTimeout), Some(ProcessStopFailed)}
            && (out.code == Some(ProcessIdentityMismatch) ==> id in l.gone && !Live(h.now, id))
            && (out.code != Some(ProcessIdentityMismatch) ==> id in l.matched))
    }

    /** The branch without an active tunnel: whatever record is stored. */
    method StopStored(p: Profile) returns (out: Cleanup)
      requires Locked(p)
      modifies h
      ensures Locked(p) && TimePassed() && h.Within(name)
      ensures old(h.At(name)).record.Some? ==> NotedEvidence(out, RecId(old(h.At(name)).record.value))
      ensures out.Cleaned? && out.ok ==> h.At(name).record.None? && out.code.None?
      ensures old(h.At(name)).record.None? ==> out == Cleaned(true, None)
      ensures !(out.Cleaned? && out.ok) ==>
                || AtMostASignal(old(h.Did(agent)), h.Did(agent), agent, name)
                || (&& h.Did(agent) == old(h.Did(agent)) + [ClearRecord(agent, name)]
                    && RecId(old(h.At(name)).record.value) in h.now.holds[name].ledger.matched)
      ensures out.Cleaned? && !out.ok ==> out.code.Some?
      ensures out.CleanupRaised? ==> h.At(name).record == old(h.At(name)).record
      ensures out.Cleaned? && !out.ok && h.At(name).record != old(h.At(name)).record ==>
                && h.At(name).record.None? && out.code == Some(ProcessIdentityMismatch)
                && !Live(h.now, RecId(old(h.At(name)).record.value))
    {
      hide Exec, IsRun, Since, Init, Fits, Close, Effects, OpenedAt;
      var state := h.LoadRuntime(agent, name);
      if state.None? {
        return Cleaned(true, None);
      }
      h.RecordFits(name);
      var matches := h.MatchesRecord(agent, name, state.value);
      if !matches {
        return Cleaned(false, Some(ProcessIdentityMismatch));
      }
      var result := tunnels.Disconnect(agent, name);
      if result.DisconnectRaised? {
        return CleanupRaised;
      }
      return if result.check.Passed() then Cleaned(true, None)
             else Cleaned(false, Some(if result.check.code.Some? then result.check.code.value else ProcessStopFailed));
    }

    method StopActive(p: Profile, active: ActiveTunnel) returns (out: Cleanup)
      requires Locked(p) && Holding(active)
      modifies h
      ensures Locked(p) && TimePassed() && h.Within(name)
      ensures NotedEvidence(out, RecId(active.state))
      ensures out.Cleaned? && out.ok ==> h.At(name).record.None? && out.code.None?
      ensures !(out.Cleaned? && out.ok) ==>
                || AtMostASignal(old(h.Did(agent)), h.Did(agent), agent, name)
                || exists child :: h.Did(agent) == old(h.Did(agent)) + [StopChild(agent, name, child)]
      ensures out.Cleaned? && !out.ok ==> out.code.Some? && Holding(active)
      ensures out.CleanupRaised? ==> Holding(active)
    {
      hide Exec, IsRun, Since, Init, Fits, Close, Effects, OpenedAt;
      h.RecordFits(name);
      var matches := h.MatchesRecord(agent, name, active.state);
      if !matches {
        return Cleaned(false, Some(ProcessIdentityMismatch));
      }
      var stopped := active.Stop(h, agent);
      if stopped.None? {
        return CleanupRaised;
      }
      if !stopped.value {
        return Cleaned(false, Some(ProcessStopTimeout));
      }
      h.ClearRuntime(agent, name);
      return Cleaned(true, None);
    }

    /** A publication under the lock. */
    method Tell(p: Profile, active: ActiveTunnel?, note: Note) returns (shown: Snapshot)
      requires Locked(p) && Holding(active) && Open()
      requires MayTell(reconnect, log, note.phase, note.code, note.suggestion)
      requires note.phase == STOPPED ==> active == null && h.At(name).record.None?
      requires note.phase == READY ==>
                 && active != null && active.state.probedAt.Some? && LastWork(log) == Some(Verify)
                 && note.processAlive == Some(true)
      requires note.phase == CONNECTING ==> note.attempt == Degradations(log)
      requires note.phase == DEGRADED ==>
                 && note.attempt == Degradations(log) + 1
                 && note.retry == Some(Backoff(backoff, Degradations(log)))
      modifies this, h
      ensures Locked(p) && Holding(active) && TimePassed()
      ensures log == old(log) + [Published(shown, h.At(name).record, Some(p))]
      ensures h.Did(agent) == old(h.Did(agent))
      ensures h.At(name).record == old(h.At(name)).record
      ensures shown == snapshot == Describe(note, h.At(name).record)
      ensures if Ending(note.phase) then Ended(shown) else Open()
      ensures Degradations(log) == Counted(Degradations(old(log)), note.phase)
      ensures Begun(log, stopAt) == Begun(old(log), stopAt) && LastWork(log) == LastWork(old(log))
    {
      hide LogHolds, OpenLog, EndedLog, Follows, MayTell, MayAsk, MayAbort, Honest, Begun, Degradations, LastWork;
      hide Exec, IsRun, OpenedAt, Effects, Init;
      shown := Publish(note, active);
    }

    /** One DEGRADED publication followed by the wait for the retry. */
    method Degrade(p: Profile, active: ActiveTunnel?, attempt: nat, index: nat, code: Code)
      returns (stop: bool, attempt': nat, index': nat)
      requires Running(p, active, attempt, index)
      requires p.autoReconnect && MayTell(reconnect, log, DEGRADED, Some(code), None)
      modifies this, h
      ensures Running(p, active, attempt', index') && |log| > |old(log)| && TimePassed()
      ensures h.Did(agent) == old(h.Did(agent))
      ensures attempt' == attempt + 1
      ensures !stop ==> |log| <= stopAt && Begun(log, stopAt) == 0
      ensures Latest(log, Asked(stop)) && |log| >= 2 && IsPublished(log[|log| - 2], DEGRADED)
    {
      hide LogHolds, OpenLog, EndedLog, Follows, MayTell, MayAsk, MayAbort, Honest, Begun, Degradations, LastWork;
      hide Exec, IsRun, OpenedAt, Effects, Init, Steady;
      attempt' := attempt + 1;
      var delay := Backoff(backoff, index);
      index' := index + 1;
      var shown := Tell(p, active, Note(DEGRADED, attempt', Some(code), Some(delay)));
      AfterShown(reconnect, log, Some(code));
      stop := Ask();
    }

    /** A final FAILED publication inside the loop. */
    method Fail(p: Profile, active: ActiveTunnel?, note: Note) returns (flow: Flow)
      requires Locked(p) && Holding(active) && Open() && note.phase == FAILED
      requires MayTell(reconnect, log, FAILED, note.code, note.suggestion)
      modifies this, h
      ensures flow.Return? && flow.final == Describe(note, h.At(name).record)
      ensures h.At(name).record == old(h.At(name)).record
      ensures Locked(p) && flow.Return? && Ended(flow.final) && flow.final.phase == FAILED
      ensures |log| > |old(log)| && TimePassed()
      ensures h.Did(agent) == old(h.Did(agent))
    {
      hide LogHolds, OpenLog, EndedLog, Follows, MayTell, MayAsk, MayAbort, Honest, Begun, Degradations, LastWork;
      hide Exec, IsRun, OpenedAt, Effects, Init, Steady;
      var shown := Tell(p, active, note);
      flow := Return(shown);
    }

    /** What every part of the loop body guarantees, by the way it ends. */
    ghost predicate After(p: Profile, flow: Flow, active: ActiveTunnel?, attempt: nat, index: nat)
      reads this, h, active
    {
      && Locked(p)
      && (flow.Return? ==> Ended(flow.final) && flow.final.phase == FAILED)
      && (!flow.Return? ==> Running(p, active, attempt, index))
      && (flow.Again? ==> |log| <= stopAt)
      && (flow.Proceed? ==> |log| <= stopAt && Begun(log, stopAt) == 0)
      && (flow.Leave? ==> Latest(log, Asked(true)))
      && (flow.Again? || flow.Proceed? ==> Latest(log, Asked(false)))
      && (flow.Raised? ==> MayAbort(reconnect, log))
    }

    /** The body's first part: an owned process that exited since the last round. */
    method NoticeExit(p: Profile, active: ActiveTunnel?, attempt: nat, index: nat)
      returns (flow: Flow, active': ActiveTunnel?, attempt': nat, index': nat)
      requires Running(p, active, attempt, index) && |log| <= stopAt && Begun(log, stopAt) == 0
      requires Latest(log, Asked(false))
      modifies this, h
      ensures After(p, flow, active', attempt', index') && |log| >= |old(log)|
      ensures active' == active || active' == null
      ensures LetGo(active, active')
      ensures !flow.Again? && !flow.Raised?
      ensures flow.Proceed? && active' != null ==> Live(h.now, RecId(active'.state))
      ensures h.Did(agent) == old(h.Did(agent))
    {
      hide LogHolds, OpenLog, EndedLog, Follows, MayTell, MayAsk, MayAbort, Honest, Begun, Degradations, LastWork;
      hide Exec, IsRun, OpenedAt, Effects, Init, Steady;
      active', attempt', index' := active, attempt, index;
      if active == null {
        return Proceed, active', attempt', index';
      }
      h.RecordFits(name);
      ghost var before := h.trace;
      var exited := active.Poll(h, agent);
      StillTrue(before);
      if !exited {
        return Proceed, active', attempt', index';
      }
      active' := null;
      flow, attempt', index' := ReportExit(p, attempt, index);
    }

    /** An owned process has exited: report it, then give up or wait for the next round. */
    method ReportExit(p: Profile, attempt: nat, index: nat) returns (flow: Flow, attempt': nat, index': nat)
      requires Running(p, null, attempt, index) && Latest(log, Asked(false))
      modifies this, h
      ensures After(p, flow, null, attempt', index') && |log| > |old(log)| && TimePassed()
      ensures !flow.Again? && !flow.Raised? && (flow.Return? <==> !p.autoReconnect)
      ensures flow.Return? ==> flow.final.code == Some(TunnelExited)
      ensures h.Did(agent) == old(h.Did(agent))
    {
      hide LogHolds, OpenLog, EndedLog, Follows, MayTell, MayAsk, MayAbort, Honest, Begun, Degradations, LastWork;
      hide Exec, IsRun, OpenedAt, Effects, Init, Steady, Host.Settled, ActiveTunnel.Current;
      attempt' := attempt + 1;
      var delay := Backoff(backoff, index);
      index' := index + 1;
      AfterNo(reconnect, log);
      var shown := Tell(p, null, Note(DEGRADED, attempt', Some(TunnelExited), Some(delay)));
      flow := GoOnAfterExit(p, attempt', index');
    }

    /** After the report: the end of the run, or the wait for the retry. */
    method GoOnAfterExit(p: Profile, attempt: nat, index: nat) returns (flow: Flow)
      requires Running(p, null, attempt, index) && LatestShows(log, DEGRADED, Some(TunnelExited))
      modifies this, h
      ensures After(p, flow, null, attempt, index) && |log| > |old(log)| && TimePassed()
      ensures !flow.Again? && !flow.Raised? && (flow.Return? <==> !p.autoReconnect)
      ensures flow.Return? ==> flow.final.code == Some(TunnelExited)
      ensures h.Did(agent) == old(h.Did(agent))
    {
      hide LogHolds, OpenLog, EndedLog, Follows, MayTell, MayAsk, MayAbort, Honest, Begun, Degradations, LastWork;
      hide Exec, IsRun, OpenedAt, Effects, Init, Steady, Host.Settled, ActiveTunnel.Current;
      AfterShown(reconnect, log, Some(TunnelExited));
      if !p.autoReconnect {
        flow := Fail(p, null, Note(FAILED, attempt, Some(TunnelExited)));
        return;
      }
      var stop := Ask();
      flow := if stop then Leave else Proceed;
    }


    /** The second part: the local proxy. `report` is the failed check, `None` when all passed. */
    method CheckLocalProxy(p: Profile, active: ActiveTunnel?, attempt: nat, index: nat)
      returns (flow: Flow, active': ActiveTunnel?, attempt': nat, index': nat)
      requires Running(p, active, attempt, index) && |log| <= stopAt && Begun(log, stopAt) == 0
      requires Latest(log, Asked(false))
      modifies this, h
      ensures After(p, flow, active', attempt', index') && |log| > |old(log)|
      ensures active' == active || active' == null
      ensures LetGo(active, active')
      ensures p.autoReconnect || flow.Proceed? ==> h.Did(agent) == old(h.Did(agent))
      ensures flow.Proceed? ==> LastWork(log) == Some(Inspect)
    {
      hide LogHolds, OpenLog, EndedLog, Follows, MayTell, MayAsk, MayAbort, Honest, Begun, Degradations, LastWork;
      hide Exec, IsRun, OpenedAt, Effects, Init, Steady, Host.Settled, ActiveTunnel.Current;
      active', attempt', index' := active, attempt, index;
      AfterNo(reconnect, log);
      Begin(Inspect);
      AfterBegan(reconnect, log, Inspect);
      var report := InspectProxy(p, active);
      if report.InspectRaised? {
        return Raised, active', attempt', index';
      }
      if report.failure.None? {
        AfterSuccess(reconnect, log, Inspect);
        var stop := Ask();
        return (if stop then Leave else Proceed), active', attempt', index';
      }
      flow, active', attempt', index' := ReportUnhealthy(p, active, attempt, index, report.failure.value);
    }

    /** The local proxy failed: retry, or end the run. */
    method ReportUnhealthy(p: Profile, active: ActiveTunnel?, attempt: nat, index: nat, code: Code)
      returns (flow: Flow, active': ActiveTunnel?, attempt': nat, index': nat)
      requires Running(p, active, attempt, index) && Latest(log, Done(Inspect, Some(code), None))
      modifies this, h
      ensures After(p, flow, active', attempt', index') && |log| >= |old(log)|
      ensures active' == active || active' == null
      ensures LetGo(active, active')
      ensures p.autoReconnect ==> h.Did(agent) == old(h.Did(agent))
      ensures !flow.Proceed? && (flow.Return? || flow.Raised? <==> !p.autoReconnect)
    {
      hide LogHolds, OpenLog, EndedLog, Follows, MayTell, MayAsk, MayAbort, Honest, Begun, Degradations, LastWork;
      hide Exec, IsRun, OpenedAt, Effects, Init, Steady;
      active', attempt', index' := active, attempt, index;
      if !p.autoReconnect {
        flow, active' := GiveUpUnhealthy(p, active, attempt, code);
        return;
      }
      AfterFailure(reconnect, log, Inspect, code, None);
      var stop;
      stop, attempt', index' := Degrade(p, active, attempt, index, code);
      flow := if stop then Leave else Again;
    }

    /** LocalProxy.inspect and _local_failure: the code of the first failed check, if any. */
    method InspectProxy(p: Profile, active: ActiveTunnel?) returns (report: Report)
      requires Locked(p) && Holding(active) && Open() && Latest(log, Began(Inspect)) && moments[|log| - 1] == |h.trace|
      modifies this, h
      ensures Locked(p) && Holding(active) && Open() && h.Did(agent) == old(h.Did(agent)) && TimePassed()
      ensures log == if report.InspectRaised? then old(log) else old(log) + [Done(Inspect, report.failure, None)]
      ensures Degradations(log) == Degradations(old(log)) && LastWork(log) == LastWork(old(log))
    {
      hide LogHolds, OpenLog, EndedLog, Follows, MayTell, MayAsk, MayAbort, Honest, Begun, Degradations, LastWork;
      hide Exec, IsRun, OpenedAt, Effects, Init, Steady;
      ghost var begun := h.trace;
      var raised: bool, failure: Option<Code> := *, *;
      h.Hear(agent, name, if raised then Raises else Proxy(failure));
      StillTrue(begun);
      if raised {
        return InspectRaised;
      }
      End(Inspect, failure, None, begun);
      return Inspected(failure);
    }

    /** Without automatic reconnect a failure ends the run: first the tunnel, then the report. */
    method GiveUpUnhealthy(p: Profile, active: ActiveTunnel?, attempt: nat, code: Code)
      returns (flow: Flow, active': ActiveTunnel?)
      requires Locked(p) && Holding(active) && Open() && attempt == Degradations(log)
      requires !p.autoReconnect && Latest(log, Done(Inspect, Some(code), None))
      modifies this, h
      ensures Locked(p) && |log| >= |old(log)|
      ensures || (flow.Return? && Ended(flow.final) && flow.final.phase == FAILED)
              || (flow == Raised && log == old(log) && Open() && Holding(active') && MayAbort(reconnect, log))
      ensures active' == active || active' == null
      ensures LetGo(active, active')
      ensures flow.Return? && active != null ==>
                || (h.At(name).record.None? && flow.final.code == Some(code))
                || (h.At(name).record == Some(active.state) && flow.final.code.Some?
                    && flow.final.code.value in CLEANUP_CODES)
    {
      hide LogHolds, OpenLog, EndedLog, Follows, MayTell, MayAsk, MayAbort, Honest, Begun, Degradations, LastWork;
      hide Exec, IsRun, OpenedAt, Effects, Init, Steady, FailedCleanup;
      active' := active;
      AfterFailure(reconnect, log, Inspect, code, None);
      if active != null {
        h.RecordFits(name);
        var cleanup := CleanupActive(p, active);
        if cleanup.CleanupRaised? {
          return Raised, active';
        }
        if !cleanup.ok {
          AbortTells(reconnect, log, cleanup.code.value);
          flow := Fail(p, active, Note(FAILED, 0, cleanup.code));
          return;
        }
        active' := null;
      }
      flow := Fail(p, null, Note(FAILED, attempt, Some(code)));
    }

    /** The third part: acquire a tunnel when there is none. */
    method Connect(p: Profile, active: ActiveTunnel?, attempt: nat, index: nat)
      returns (flow: Flow, active': ActiveTunnel?, attempt': nat, index': nat)
      requires Running(p, active, attempt, index) && |log| <= stopAt && Begun(log, stopAt) == 0
      requires Latest(log, Asked(false))
      requires LastWork(log) == Some(Inspect)
      modifies this, h
      ensures After(p, flow, active', attempt', index') && |log| >= |old(log)|
      ensures active' == active || active' == null || fresh(active')
      ensures LetGo(active, active')
      ensures flow.Proceed? ==> active' != null && LastWork(log) in {Some(Inspect), Some(Acquire)}
      ensures flow.Raised? ==> active == null && active' == null
      ensures active != null ==> active' == active && log == old(log) + [Asked(flow.Leave?)]
      ensures flow.Leave? && active' == null ==>
                |log| >= 2 && IsPublished(log[|log| - 2], DEGRADED)
    {
      hide LogHolds, OpenLog, EndedLog, Follows, MayTell, MayAsk, MayAbort, Honest, Begun, Degradations, LastWork;
      hide Exec, IsRun, OpenedAt, Effects, Init, Steady;
      active', attempt', index' := active, attempt, index;
      if active == null {
        flow, active', attempt', index' := ConnectNew(p, attempt, index);
        return;
      }
      AfterNo(reconnect, log);
      var stop := Ask();
      flow := if stop then Leave else Proceed;
    }

    /** Without a tunnel: one attempt, and what becomes of it. */
    method ConnectNew(p: Profile, attempt: nat, index: nat)
      returns (flow: Flow, active': ActiveTunnel?, attempt': nat, index': nat)
      requires Running(p, null, attempt, index) && |log| <= stopAt && Begun(log, stopAt) == 0
      requires Latest(log, Asked(false)) && LastWork(log) == Some(Inspect)
      modifies this, h
      ensures After(p, flow, active', attempt', index') && |log| >= |old(log)| && TimePassed()
      ensures active' == null || fresh(active')
      ensures flow.Proceed? ==> active' != null && LastWork(log) == Some(Acquire)
      ensures flow.Raised? ==> active' == null
      ensures flow.Leave? && active' == null ==> |log| >= 2 && IsPublished(log[|log| - 2], DEGRADED)
    {
      hide LogHolds, OpenLog, EndedLog, Follows, MayTell, MayAsk, MayAbort, Honest, Begun, Degradations, LastWork;
      hide Exec, IsRun, OpenedAt, Effects, Init, Steady, Seen;
      hide TunnelManager.Decided, Host.Settled, ActiveTunnel.Current;
      active', attempt', index' := null, attempt, index;
      ghost var started, begun;
      var out;
      out, started, begun := Attempt(p, attempt);
      if out.AcquireRaised? {
        AfterBegan(reconnect, log, Acquire);
        return Raised, active', attempt', index';
      }
      if out.Conflict? {
        AfterFailure(reconnect, log, Acquire, RemotePortConflict, out.suggestion);
        flow := Fail(p, null, Note(FAILED, attempt, Some(RemotePortConflict), None, out.suggestion));
        return;
      }
      if out.Failed? {
        flow, attempt', index' := RetryLater(p, attempt, index, out.code);
        return;
      }
      active' := out.tunnel;
      AfterSuccess(reconnect, log, Acquire);
      var stop := Ask();
      flow := if stop then Leave else Proceed;
    }

    /** How an acquire ends in the log; one that raises does not end there. */
    function EndOf(out: Acquisition): Event {
      match out
      case Acquired(_) => Done(Acquire, None, None)
      case Conflict(suggestion) => Done(Acquire, Some(RemotePortConflict), suggestion)
      case Failed(code) => Done(Acquire, Some(code), None)
      case AcquireRaised => Began(Acquire)
    }

    /** CONNECTING, and the start of an acquire. */
    method Announce(p: Profile, attempt: nat)
      requires Locked(p) && Open() && attempt == Degradations(log) && Begun(log, stopAt) == 0
      requires LastWork(log) == Some(Inspect) && Latest(log, Asked(false))
      modifies this, h
      ensures Locked(p) && Open() && |log| == |old(log)| + 2 && TimePassed()
      ensures Latest(log, Began(Acquire)) && |moments| == |log| && moments[|log| - 1] == |h.trace|
      ensures Degradations(log) == Degradations(old(log)) && LastWork(log) == Some(Acquire)
      ensures h.At(name).record == old(h.At(name)).record
    {
      hide LogHolds, OpenLog, EndedLog, Follows, MayTell, MayAsk, MayAbort, Honest, Begun, Degradations, LastWork;
      hide Exec, IsRun, OpenedAt, Effects, Init, Steady;
      AfterNo(reconnect, log);
      var shown := Tell(p, null, Note(CONNECTING, attempt));
      AfterShown(reconnect, log, None);
      Begin(Acquire);
    }

    /** One announced acquire, begun at `begun`, and what it came to: see TunnelManager.Decided. */
    method Attempt(p: Profile, attempt: nat)
      returns (out: Acquisition, ghost started: Option<Identity>, ghost begun: seq<Action>)
      requires Locked(p) && Open() && attempt == Degradations(log) && Begun(log, stopAt) == 0
      requires LastWork(log) == Some(Inspect) && Latest(log, Asked(false))
      modifies this, h
      ensures Locked(p) && Open() && attempt == Degradations(log) && |log| > |old(log)| && TimePassed()
      ensures LastWork(log) == Some(Acquire)
      ensures out.Acquired? ==> fresh(out.tunnel) && Holding(out.tunnel)
      ensures Latest(log, EndOf(out))
      ensures out.Failed? ==> out.code != RemotePortConflict
      ensures old(h.trace) <= begun <= h.trace
      ensures tunnels.Decided(out, started, p, old(h.At(name)).record, Seen(begun, h.trace, agent, name))
    {
      hide LogHolds, OpenLog, EndedLog, Follows, MayTell, MayAsk, MayAbort, Honest, Begun, Degradations, LastWork;
      hide Exec, IsRun, OpenedAt, Effects, Init, Steady, Since, Seen;
      Announce(p, attempt);
      begun := h.trace;
      out, started := tunnels.Acquire(agent, p);
      StillTrue(begun);
      SeenIs(begun, h.trace, agent, name);
      if !out.AcquireRaised? {
        End(Acquire, EndOf(out).failure, EndOf(out).suggestion, begun);
      }
    }

    /** A failed acquire: reported and retried with automatic reconnect, and the end of the run without. */
    method RetryLater(p: Profile, attempt: nat, index: nat, code: Code) returns (flow: Flow, attempt': nat, index': nat)
      requires Running(p, null, attempt, index)
      requires Latest(log, Done(Acquire, Some(code), None)) && code != RemotePortConflict
      modifies this, h
      ensures After(p, flow, null, attempt', index') && |log| > |old(log)| && TimePassed()
      ensures !flow.Raised? && !flow.Proceed? && (flow.Return? <==> !p.autoReconnect)
      ensures flow.Return? ==> flow.final.code == Some(code)
      ensures flow.Leave? ==> |log| >= 2 && IsPublished(log[|log| - 2], DEGRADED)
    {
      hide LogHolds, OpenLog, EndedLog, Follows, MayTell, MayAsk, MayAbort, Honest, Begun, Degradations, LastWork;
      hide Exec, IsRun, OpenedAt, Effects, Init, Steady;
      attempt', index' := attempt, index;
      AfterFailure(reconnect, log, Acquire, code, None);
      if !p.autoReconnect {
        flow := Fail(p, null, Note(FAILED, attempt, Some(code)));
        return;
      }
      var stop;
      stop, attempt', index' := Degrade(p, null, attempt, index, code);
      flow := if stop then Leave else Again;
    }

    /** The last part: verify the tunnel, report, and wait. */
    method CheckHealth(p: Profile, active: ActiveTunnel, attempt: nat, index: nat)
      returns (flow: Flow, active': ActiveTunnel?, attempt': nat, index': nat)
      requires Running(p, active, attempt, index) && |log| <= stopAt && Begun(log, stopAt) == 0
      requires Latest(log, Asked(false))
      requires LastWork(log) in {Some(Inspect), Some(Acquire)}
      modifies this, h, active
      ensures After(p, flow, active', attempt', index') && |log| > |old(log)|
      ensures active' == active || active' == null
      ensures LetGo(active, active')
      ensures !flow.Proceed?
    {
      hide LogHolds, OpenLog, EndedLog, Follows, MayTell, MayAsk, MayAbort, Honest, Begun, Degradations, LastWork;
      hide Exec, IsRun, OpenedAt, Effects, Init, Steady, Host.Settled, ActiveTunnel.Current;
      active', attempt', index' := active, attempt, index;
      AfterNo(reconnect, log);
      Begin(Verify);
      AfterBegan(reconnect, log, Verify);
      var report := Health(p, active);
      if report.InspectRaised? {
        return Raised, active', attempt', index';
      }
      if report.failure.None? {
        attempt', index' := 0, 0;
        var stop := ReportReady(p, active);
        flow := if stop then Leave else Again;
        return;
      }
      flow, active', attempt', index' := Unhealthy(p, active, attempt, index, report.failure.value);
    }

    /** READY, and the wait for the next round. */
    method ReportReady(p: Profile, active: ActiveTunnel) returns (stop: bool)
      requires Locked(p) && Holding(active) && Open() && Latest(log, Done(Verify, None, None))
      requires active.state.probedAt.Some? && LastWork(log) == Some(Verify)
      modifies this, h
      ensures Running(p, active, 0, 0) && TimePassed() && |log| > |old(log)|
      ensures Latest(log, Asked(stop)) && (!stop ==> |log| <= stopAt)
    {
      hide LogHolds, OpenLog, EndedLog, Follows, MayTell, MayAsk, MayAbort, Honest, Begun, Degradations, LastWork;
      hide Exec, IsRun, OpenedAt, Effects, Init, Steady;
      AfterSuccess(reconnect, log, Verify);
      var shown := Tell(p, active, Note(READY, processAlive := Some(true)));
      AfterShown(reconnect, log, None);
      stop := Ask();
    }

    /** The verification of the tunnel: the code of the first failed check, if any. */
    method Health(p: Profile, active: ActiveTunnel) returns (report: Report)
      requires Locked(p) && Holding(active) && Open() && Latest(log, Began(Verify)) && moments[|log| - 1] == |h.trace|
      modifies this, h, active
      ensures Locked(p) && Holding(active) && Open() && TimePassed()
      ensures RecId(active.state) == old(RecId(active.state))
      ensures log == if report.InspectRaised? then old(log) else old(log) + [Done(Verify, report.failure, None)]
      ensures Degradations(log) == Degradations(old(log)) && LastWork(log) == LastWork(old(log))
      ensures report == Inspected(None) ==> active.state.probedAt.Some?
    {
      hide LogHolds, OpenLog, EndedLog, Follows, MayTell, MayAsk, MayAbort, Honest, Begun, Degradations, LastWork;
      hide Exec, IsRun, OpenedAt, Effects, Init, Steady;
      ghost var begun := h.trace;
      var out := tunnels.Verify(agent, p, active);
      StillTrue(begun);
      if out.VerifyRaised? {
        return InspectRaised;
      }
      var failed := if !out.listener.Passed() then out.listener else out.endpoint;
      var failure := if failed.Passed() then None else failed.code;
      End(Verify, failure, None, begun);
      return Inspected(failure);
    }

    /** A failed health check: keep a live process, forget a dead one, retry or give up. */
    method Unhealthy(p: Profile, active: ActiveTunnel, attempt: nat, index: nat, code: Code)
      returns (flow: Flow, active': ActiveTunnel?, attempt': nat, index': nat)
      requires Running(p, active, attempt, index) && Latest(log, Done(Verify, Some(code), None))
      modifies this, h
      ensures After(p, flow, active', attempt', index') && |log| >= |old(log)|
      ensures active' == active || active' == null
      ensures LetGo(active, active')
      ensures p.autoReconnect ==> h.Did(agent) == old(h.Did(agent))
      ensures !flow.Proceed? && (flow.Return? || flow.Raised? <==> !p.autoReconnect)
    {
      hide LogHolds, OpenLog, EndedLog, Follows, MayTell, MayAsk, MayAbort, Honest, Begun, Degradations, LastWork;
      hide Exec, IsRun, OpenedAt, Effects, Init, Steady;
      attempt', index' := attempt, index;
      h.RecordFits(name);
      ghost var before := h.trace;
      var exited := active.Poll(h, agent);
      StillTrue(before);
      active' := if exited then null else active;
      if p.autoReconnect {
        AfterFailure(reconnect, log, Verify, code, None);
        var stop;
        stop, attempt', index' := Degrade(p, active', attempt, index, code);
        return (if stop then Leave else Again), active', attempt', index';
      }
      flow, active' := Abandon(p, active', attempt, code);
    }

    /** Without automatic reconnect a failed health check ends the run, with or without a live tunnel. */
    method Abandon(p: Profile, active: ActiveTunnel?, attempt: nat, code: Code)
      returns (flow: Flow, active': ActiveTunnel?)
      requires Locked(p) && Holding(active) && Open()
      requires !p.autoReconnect && Latest(log, Done(Verify, Some(code), None))
      modifies this, h
      ensures Locked(p) && |log| >= |old(log)|
      ensures || (flow.Return? && Ended(flow.final) && flow.final.phase == FAILED)
              || (flow == Raised && log == old(log) && Open() && Holding(active') && MayAbort(reconnect, log))
      ensures active' == active || active' == null
      ensures LetGo(active, active')
      ensures flow.Return? && active != null ==>
                || (h.At(name).record.None? && flow.final.code == Some(code))
                || (h.At(name).record == Some(active.state) && flow.final.code.Some?
                    && flow.final.code.value in CLEANUP_CODES)
    {
      hide LogHolds, OpenLog, EndedLog, Follows, MayTell, MayAsk, MayAbort, Honest, Begun, Degradations, LastWork;
      hide Exec, IsRun, OpenedAt, Effects, Init, Steady, FailedCleanup;
      active' := active;
      AfterFailure(reconnect, log, Verify, code, None);
      if active != null {
        h.RecordFits(name);
      }
      var cleanup := CleanupActive(p, active);
      if cleanup.CleanupRaised? {
        return Raised, active';
      }
      if !cleanup.ok {
        AbortTells(reconnect, log, cleanup.code.value);
        flow := Fail(p, active, Note(FAILED, 0, cleanup.code));
        return;
      }
      active' := null;
      flow := Fail(p, null, Note(FAILED, attempt, Some(code)));
    }

    /** The second half of a round, once the local proxy is known to be fine. */
    method ConnectAndCheck(p: Profile, active: ActiveTunnel?, attempt: nat, index: nat)
      returns (flow: Flow, active': ActiveTunnel?, attempt': nat, index': nat)
      requires Running(p, active, attempt, index) && |log| <= stopAt && Begun(log, stopAt) == 0
      requires Latest(log, Asked(false))
      requires LastWork(log) == Some(Inspect)
      modifies this, h, active
      ensures After(p, flow, active', attempt', index') && |log| >= |old(log)|
      ensures active' == active || active' == null || fresh(active')
      ensures LetGo(active, active')
      ensures !flow.Proceed?
    {
      hide LogHolds, OpenLog, EndedLog, Follows, MayTell, MayAsk, MayAbort, Honest, Begun, Degradations, LastWork;
      hide Exec, IsRun, OpenedAt, Effects, Init, Steady;
      if active != null {
        h.RecordFits(name);
      }
      flow, active', attempt', index' := Connect(p, active, attempt, index);
      if flow.Proceed? {
        flow, active', attempt', index' := CheckHealth(p, active', attempt', index');
      }
    }

    /** One round of the loop body. */
    method Round(p: Profile, active: ActiveTunnel?, attempt: nat, index: nat)
      returns (flow: Flow, active': ActiveTunnel?, attempt': nat, index': nat)
      requires Running(p, active, attempt, index) && |log| <= stopAt && Begun(log, stopAt) == 0
      requires Latest(log, Asked(false))
      modifies this, h, active
      ensures After(p, flow, active', attempt', index') && |log| >= |old(log)|
      ensures active' == active || active' == null || fresh(active')
      ensures LetGo(active, active')
      ensures !flow.Proceed?
    {
      hide LogHolds, OpenLog, EndedLog, Follows, MayTell, MayAsk, MayAbort, Honest, Begun, Degradations, LastWork;
      hide Exec, IsRun, OpenedAt, Effects, Init, Steady;
      if active != null {
        h.RecordFits(name);
      }
      flow, active', attempt', index' := NoticeExit(p, active, attempt, index);
      if flow.Proceed? {
        flow, active', attempt', index' := CheckLocalProxy(p, active', attempt', index');
        if flow.Proceed? {
          flow, active', attempt', index' := ConnectAndCheck(p, active', attempt', index');
        }
      }
    }

    /** TunnelSupervisor._stop. */
    method Stop(p: Profile, active: ActiveTunnel?) returns (flow: Flow)
      requires Locked(p) && Holding(active) && Open() && Latest(log, Asked(true))
      modifies this, h
      ensures Locked(p) && |log| > |old(log)| && TimePassed()
      ensures || (flow.Return? && Ended(flow.final))
              || (flow.Raised? && Open() && Holding(active) && MayAbort(reconnect, log))
      ensures flow.Return? && flow.final.phase == STOPPED ==> h.At(name).record.None?
      ensures flow.Return? && flow.final.phase != STOPPED && active != null ==> h.At(name).record == Some(active.state)
    {
      hide LogHolds, OpenLog, EndedLog, Follows, MayTell, MayAsk, MayAbort, Honest, Begun, Degradations, LastWork;
      hide Exec, IsRun, OpenedAt, Effects, Init, Steady, CleanupEvidence, FailedCleanup;
      AfterYes(reconnect, log);
      var stopping := Tell(p, active, Note(STOPPING));
      flow := StopTunnel(p, active);
    }

    /** The cleanup at the end of a run, and its report. */
    method StopTunnel(p: Profile, active: ActiveTunnel?) returns (flow: Flow)
      requires Locked(p) && Holding(active) && Open() && LatestShows(log, STOPPING, None)
      modifies this, h
      ensures Locked(p) && |log| >= |old(log)| && TimePassed()
      ensures || (flow.Return? && Ended(flow.final))
              || (flow.Raised? && Open() && Holding(active) && MayAbort(reconnect, log))
      ensures flow.Return? && flow.final.phase == STOPPED ==> h.At(name).record.None?
      ensures flow.Return? && flow.final.phase != STOPPED && active != null ==> h.At(name).record == Some(active.state)
    {
      hide LogHolds, OpenLog, EndedLog, Follows, MayTell, MayAsk, MayAbort, Honest, Begun, Degradations, LastWork;
      hide Exec, IsRun, OpenedAt, Effects, Init, Steady, CleanupEvidence, FailedCleanup;
      AfterShown(reconnect, log, None);
      var cleanup := CleanupActive(p, active);
      if cleanup.CleanupRaised? {
        return Raised;
      }
      if !cleanup.ok {
        AbortTells(reconnect, log, cleanup.code.value);
        flow := Fail(p, active, Note(FAILED, 0, cleanup.code));
        return;
      }
      var stopped := Tell(p, null, Note(STOPPED));
      return Return(stopped);
    }

    /** The exception handler of `_run_locked`; `None` when the cleanup raises again. */
    method HandleException(p: Profile, active: ActiveTunnel?) returns (final: Option<Snapshot>)
      requires Locked(p) && Holding(active) && Open() && MayAbort(reconnect, log)
      modifies this, h
      ensures Locked(p) && |log| >= |old(log)| && TimePassed()
      ensures if final.Some? then Ended(final.value) && final.value.phase == FAILED
              else Open() && MayAbort(reconnect, log)
      ensures final.Some? && active != null ==>
                h.At(name).record == if final.value.code == Some(SupervisorFailed) then None else Some(active.state)
    {
      hide LogHolds, OpenLog, EndedLog, Follows, MayTell, MayAsk, MayAbort, Honest, Begun, Degradations, LastWork;
      hide Exec, IsRun, OpenedAt, Effects, Init, Steady, CleanupEvidence, FailedCleanup;
      var flow;
      if active != null {
        var cleanup := CleanupActive(p, active);
        if cleanup.CleanupRaised? {
          return None;
        }
        if !cleanup.ok {
          AbortTells(reconnect, log, cleanup.code.value);
          flow := Fail(p, active, Note(FAILED, 0, cleanup.code));
          return Some(flow.final);
        }
      }
      AbortTells(reconnect, log, SupervisorFailed);
      flow := Fail(p, null, Note(FAILED, 0, Some(SupervisorFailed)));
      return Some(flow.final);
    }

    /** TunnelSupervisor._run_locked. */
    method RunLocked(p: Profile) returns (final: Option<Snapshot>)
      requires Locked(p) && Open() && Degradations(log) == 0
      requires MayAsk(reconnect, log)
      modifies this, h
      ensures Locked(p) && |log| >= |old(log)| && TimePassed()
      ensures if final.Some? then Ended(final.value) else Open() && MayAbort(reconnect, log)
      ensures final.Some? && final.value.phase == STOPPED ==> h.At(name).record.None?
    {
      hide LogHolds, OpenLog, EndedLog, Follows, MayTell, MayAsk, MayAbort, Honest, Begun, Degradations, LastWork;
      hide Exec, IsRun, OpenedAt, Effects, Init, Steady, Host.Settled, ActiveTunnel.Current;
      var active: ActiveTunnel?, attempt: nat, index: nat := null, 0, 0;
      var stop := Ask();
      while !stop
        invariant Running(p, active, attempt, index) && |log| >= |old(log)| && TimePassed()
        invariant active == null || fresh(active)
        invariant !stop ==> |log| <= stopAt && Begun(log, stopAt) == 0
        invariant Latest(log, Asked(stop))
        decreases !stop, stopAt - |log|
      {
        var flow;
        flow, active, attempt, index := Round(p, active, attempt, index);
        if flow.Return? {
          return Some(flow.final);
        }
        if flow.Raised? {
          final := HandleException(p, active);
          return;
        }
        if flow.Leave? {
          break;
        }
        AfterNo(reconnect, log);
        stop := Ask();
      }
      final := Finish(p, active);
    }

    /** After the loop: stop, and handle an exception out of that. */
    method Finish(p: Profile, active: ActiveTunnel?) returns (final: Option<Snapshot>)
      requires Locked(p) && Holding(active) && Open() && Latest(log, Asked(true))
      modifies this, h
      ensures Locked(p) && |log| >= |old(log)| && TimePassed()
      ensures if final.Some? then Ended(final.value) else Open() && MayAbort(reconnect, log)
      ensures final.Some? && final.value.phase == STOPPED ==> h.At(name).record.None?
    {
      hide LogHolds, OpenLog, EndedLog, Follows, MayTell, MayAsk, MayAbort, Honest, Begun, Degradations, LastWork;
      hide Exec, IsRun, OpenedAt, Effects, Init, Steady;
      var flow := Stop(p, active);
      if flow.Return? {
        return Some(flow.final);
      }
      final := HandleException(p, active);
    }

    /** What `run` does while it holds the lock; `running` is the profile it supervises. */
    method Supervise() returns (final: Option<Snapshot>, ghost running: Option<Profile>)
      requires h.Settled(agent, name) && Open()
      requires |log| == 1 && LatestShows(log, STARTING, None) && Degradations(log) == 0
      modifies this, h
      ensures h.Settled(agent, name) && |log| >= 1
      ensures if final.Some? then Ended(final.value) else Open() && MayAbort(reconnect, log)
      ensures running.Some? ==> Steady(running.value) && h.At(name).profile == running
      ensures running.Some? ==> reconnect == running.value.autoReconnect
      ensures running == old(h.At(name)).profile && TimePassed()
      ensures running.None? ==> final.Some? && final.value.phase == FAILED && final.value.code == Some(ProfileNotFound)
      ensures final.Some? && final.value.phase == STOPPED ==> h.At(name).record.None?
    {
      hide LogHolds, OpenLog, EndedLog, Follows, MayTell, MayAsk, MayAbort, Honest, Begun, Degradations, LastWork;
      hide Exec, IsRun, OpenedAt, Effects, Init, Steady;
      ghost var before := h.trace;
      var profile := h.LoadProfile(agent, name);
      StillTrue(before);
      running := profile;
      if profile.None? {
        AfterShown(reconnect, log, None);
        var shown := Publish(Note(FAILED, 0, Some(ProfileNotFound)), null);
        return Some(shown), running;
      }
      h.ProfileFits(name);
      StartingSaysNothing(backoff, reconnect, profile.value.autoReconnect, stopAt, log);
      reconnect := profile.value.autoReconnect;
      AfterShown(reconnect, log, None);
      NothingYet(profile.value);
      final := RunLocked(profile.value);
    }

    /**
     TunnelSupervisor.run. For any behaviour of the environment and any moment of the stop:
     the run's log is honest, it ends with exactly one final snapshot, at most one long
     operation begins after the stop, and every snapshot published under the lock found the
     supervised profile unchanged in the store. What a snapshot is said to have found is what
     the store held at that moment of the machine's trace. STOPPED leaves no record and no live
     process. Only when the handler of `_run_locked` raises, the final snapshot comes after the lock.
     */
    method Run() returns (final: Snapshot, ghost running: Option<Profile>, ghost raised: bool, ghost tried: nat)
      requires h.Valid() && Accepted(backoff) && log == [] && moments == [] && born <= |h.trace|
      modifies this, h
      ensures h.Valid() && Ended(final) && |old(h.trace)| <= tried <= |h.trace|
      ensures !old(Holds(h.now, agent, name)) ==> !Holds(h.now, agent, name)
      ensures final.phase == STOPPED ==> h.At(name).record.None? && h.OnlyRecorded(name)
      ensures running == if h.Then(tried, name).hold.Some? then None else h.Then(tried, name).profile
      ensures running.None? ==>
                && final.phase == FAILED
                && final.code == Some(if h.Then(tried, name).hold.Some? then ProfileBusy else ProfileNotFound)
      ensures running.Some? ==> reconnect == running.value.autoReconnect
      ensures running.Some? ==> Policy(running.value.autoReconnect, log, final)
      ensures running.Some? ==> forall k | 1 <= k < |log| - 1 && log[k].Published? :: log[k].profile == running
      ensures running.Some? && !raised ==> Steady(running.value)
      ensures raised ==> running.Some? && final == Describe(Note(FAILED, 0, Some(SupervisorFailed)), h.At(name).record)
    {
      hide LogHolds, OpenLog, EndedLog, Follows, MayTell, MayAsk, MayAbort, Honest, Begun, Degradations, LastWork;
      hide Exec, IsRun, OpenedAt, Effects, Init, Steady;
      NothingPublished(h.start, h.trace, agent, name, born);
      MayStart(reconnect);
      EmptyIsOpen(backoff, reconnect, stopAt);
      var starting := Publish(Note(STARTING), null);
      final, running, raised, tried := RunStarted();
      PolicyHolds(backoff, reconnect, stopAt, log, final);
    }

    /** `run` after its first publication. */
    method RunStarted() returns (final: Snapshot, ghost running: Option<Profile>, ghost raised: bool, ghost tried: nat)
      requires h.Valid() && Open() && |log| == 1 && LatestShows(log, STARTING, None) && Degradations(log) == 0
      modifies this, h
      ensures h.Valid() && Ended(final) && |old(h.trace)| <= tried <= |h.trace|
      ensures !old(Holds(h.now, agent, name)) ==> !Holds(h.now, agent, name)
      ensures final.phase == STOPPED ==> h.At(name).record.None? && h.OnlyRecorded(name)
      ensures running == if h.Then(tried, name).hold.Some? then None else h.Then(tried, name).profile
      ensures running.None? ==>
                && final.phase == FAILED
                && final.code == Some(if h.Then(tried, name).hold.Some? then ProfileBusy else ProfileNotFound)
      ensures running.Some? ==> reconnect == running.value.autoReconnect
      ensures running.Some? ==> forall k | 1 <= k < |log| - 1 && log[k].Published? :: log[k].profile == running
      ensures running.Some? && !raised ==> Steady(running.value)
      ensures raised ==> running.Some? && final == Describe(Note(FAILED, 0, Some(SupervisorFailed)), h.At(name).record)
    {
      hide LogHolds, OpenLog, EndedLog, Follows, MayTell, MayAsk, MayAbort, Honest, Begun, Degradations, LastWork;
      hide Exec, IsRun, OpenedAt, Effects, Init;
      running, raised := None, false;
      AfterShown(reconnect, log, None);
      ghost var begun := h.trace;
      var locked;
      locked, tried := h.TryLock(agent, name);
      ghost var held := h.trace;
      StillTrue(begun);
      if !locked {
        final := Publish(Note(FAILED, 0, Some(ProfileBusy)), null);
        h.ThenLater(held, tried, name);
        return;
      }
      var result;
      result, running := WithLock();
      raised := result.None?;
      final := Conclude(result);
      h.ThenLater(held, tried, name);
    }

    /** What `run` does with the lock, and its release. */
    method WithLock() returns (final: Option<Snapshot>, ghost running: Option<Profile>)
      requires h.Settled(agent, name) && Open()
      requires |log| == 1 && LatestShows(log, STARTING, None) && Degradations(log) == 0
      modifies this, h
      ensures h.Valid() && |log| >= 1 && Grew(old(h.trace), h.trace) && !Holds(h.now, agent, name)
      ensures if final.Some? then Ended(final.value) else Open() && MayAbort(reconnect, log)
      ensures running == old(h.At(name)).profile
      ensures running.Some? ==> Steady(running.value) && reconnect == running.value.autoReconnect
      ensures running.None? ==> final.Some? && final.value.phase == FAILED && final.value.code == Some(ProfileNotFound)
      ensures final.Some? && final.value.phase == STOPPED ==> h.At(name).record.None? && h.OnlyRecorded(name)
    {
      hide LogHolds, OpenLog, EndedLog, Follows, MayTell, MayAsk, MayAbort, Honest, Begun, Degradations, LastWork;
      hide Exec, IsRun, OpenedAt, Effects, Init, Steady;
      final, running := Supervise();
      ghost var held := h.trace;
      h.Release(agent, name);
      StillTrue(held);
      h.FreeMeansOnlyRecorded(name);
    }

    /** After the lock: an exception out of the locked part is shown as SUPERVISOR_FAILED. */
    method Conclude(result: Option<Snapshot>) returns (final: Snapshot)
      requires h.Valid() && |log| >= 1
      requires if result.Some? then Ended(result.value) else Open() && MayAbort(reconnect, log)
      modifies this, h
      ensures h.Valid() && Ended(final) && reconnect == old(reconnect) && Grew(old(h.trace), h.trace)
      ensures Holds(h.now, agent, name) <==> old(Holds(h.now, agent, name))
      ensures result.Some? ==> final == result.value && log == old(log) && h.now == old(h.now)
      ensures result.None? ==>
                && final == Describe(Note(FAILED, 0, Some(SupervisorFailed)), h.At(name).record)
                && |log| == |old(log)| + 1 && log[..|log| - 1] == old(log)
    {
      hide LogHolds, OpenLog, EndedLog, Follows, MayTell, MayAsk, MayAbort, Honest, Begun, Degradations, LastWork;
      hide Exec, IsRun, OpenedAt, Effects, Init, Steady;
      if result.Some? {
        return result.value;
      }
      AbortTells(reconnect, log, SupervisorFailed);
      final := Publish(Note(FAILED, 0, Some(SupervisorFailed)), null);
    }
  }
}
