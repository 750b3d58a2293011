/** Creating, changing and deleting profiles beside running tunnels (app/services/profile_service.py). */
module ProfileServices {
  import opened Wrappers
  import opened Domain
  import opened Ownership
  import opened OwnershipTheorems
  import opened Hosts
  import opened Tunnels

  datatype ServiceError =
    | NotFound | Exists | Invalid | Busy | UpdateEmpty | FieldNotUpdatable | RuntimeActive
    | ManagedCleanupRequired | TunnelStopFailed | RemoteStateUnresolved | Unexpected

  datatype Outcome<+T> = Ok(value: T) | Err(error: ServiceError)

  /** The fields a caller asks to change; `others` are keys outside UPDATABLE_PROFILE_FIELDS. */
  datatype Changes = Changes(
    sshTarget: Option<string>,
    localProxyPort: Option<int>,
    remotePort: Option<int>,
    autoReconnect: Option<bool>,
    endpointUrl: Option<string>,
    others: set<string>)

  predicate IsEmpty(c: Changes) {
    c == Changes(None, None, None, None, None, {})
  }

  function Pick<T>(change: Option<T>, current: T): T {
    if change.Some? then change.value else current
  }

  /** dataclasses.replace with the accepted changes. */
  function Changed(p: Profile, c: Changes): Profile {
    p.(sshTarget := Pick(c.sshTarget, p.sshTarget),
       localProxyPort := Pick(c.localProxyPort, p.localProxyPort),
       remotePort := Pick(c.remotePort, p.remotePort),
       autoReconnect := Pick(c.autoReconnect, p.autoReconnect),
       endpointUrl := Pick(c.endpointUrl, p.endpointUrl))
  }

  /** The part of Profile.validate that is not a text grammar. */
  predicate Consistent(p: Profile) {
    && 1 <= p.localProxyPort <= 65535
    && 1 <= p.remotePort <= 65535
    && (p.managed.Some? ==> p.sshTarget == p.managed.value.username + "@" + p.managed.value.host)
  }

  /** Each requested field has its requested value, and everything else its old one. */
  predicate Requested(updated: Profile, was: Profile, c: Changes) {
    && updated.name == was.name && updated.managed == was.managed
    && (if c.sshTarget.Some? then Some(updated.sshTarget) == c.sshTarget else updated.sshTarget == was.sshTarget)
    && (if c.localProxyPort.Some? then Some(updated.localProxyPort) == c.localProxyPort
        else updated.localProxyPort == was.localProxyPort)
    && (if c.remotePort.Some? then Some(updated.remotePort) == c.remotePort else updated.remotePort == was.remotePort)
    && (if c.autoReconnect.Some? then Some(updated.autoReconnect) == c.autoReconnect
        else updated.autoReconnect == was.autoReconnect)
    && (if c.endpointUrl.Some? then Some(updated.endpointUrl) == c.endpointUrl
        else updated.endpointUrl == was.endpointUrl)
  }

  /** There is exactly one profile that is as requested. */
  lemma RequestedExactly(updated: Profile, was: Profile, c: Changes)
    ensures Requested(updated, was, c) <==> updated == Changed(was, c)
  {
  }

  /** What an update that is asked for properly does, given what was stored when it asked for the lock. */
  ghost predicate Updated(out: Outcome<Profile>, was: Slot, c: Changes, grammar: bool) {
    if was.hold.Some? then out == Err(Busy)
    else if was.profile.None? then out == Err(NotFound)
    else if was.record.Some? then out == Err(RuntimeActive)
    else
      forall updated | Requested(updated, was.profile.value, c) ::
        out == if Consistent(updated) && grammar then Ok(updated) else Err(Invalid)
  }

  datatype Deletion = Deletion(stoppedOwnedProcess: bool, removedStaleRuntime: bool)

  class ProfileService {
    const tunnels: TunnelManager
    const h: Host := tunnels.h

    constructor (tunnels: TunnelManager)
      ensures this.tunnels == tunnels
    {
      this.tunnels := tunnels;
    }

    /**
     ProfileService.create; `grammar` is the verdict of the text grammars in Profile.validate, and
     `at` the moment when it asked for the lock.
     */
    method Create(a: Agent, p: Profile, grammar: bool) returns (out: Outcome<Profile>, ghost at: nat)
      requires h.Valid()
      modifies h
      ensures !old(Holds(h.now, a, p.name)) ==> !Holds(h.now, a, p.name)
      ensures h.Valid() && Grew(old(h.trace), h.trace)
      ensures out == Err(Invalid) <==> !(Consistent(p) && grammar)
      ensures out != Err(Invalid) ==>
                && |old(h.trace)| <= at <= |h.trace|
                && out == if h.Then(at, p.name).hold.Some? then Err(Busy)
                          else if h.Then(at, p.name).profile.Some? then Err(Exists)
                          else Ok(p)
      ensures out.Ok? ==> h.At(p.name).profile == Some(p) && h.At(p.name).record.None?
      ensures h.Did(a) == if out.Ok? then old(h.Did(a)) + [CreateProfile(a, p)] else old(h.Did(a))
    {
      hide Exec, IsRun, OpenedAt, Effects, Init;
      at := 0;
      if !Consistent(p) || !grammar {
        return Err(Invalid), at;
      }
      var locked;
      locked, at := h.TryLock(a, p.name);
      ghost var tried := h.trace;
      if !locked {
        return Err(Busy), at;
      }
      var existing := h.LoadProfile(a, p.name);
      if existing.Some? {
        h.Release(a, p.name);
        h.ThenLater(tried, at, p.name);
        return Err(Exists), at;
      }
      h.NoProfileNoRecord(p.name);
      h.CreateProfile(a, p);
      h.Release(a, p.name);
      h.ThenLater(tried, at, p.name);
      return Ok(p), at;
    }

    /**
     ProfileService.update. A profile changes only while it has no runtime record: that is what
     keeps every record on its profile's port. `at` is the moment when it asked for the lock.
     */
    method Update(a: Agent, n: string, c: Changes, grammar: bool) returns (out: Outcome<Profile>, ghost at: nat)
      requires h.Valid()
      modifies h
      ensures !old(Holds(h.now, a, n)) ==> !Holds(h.now, a, n)
      ensures h.Valid() && Grew(old(h.trace), h.trace)
      ensures out == Err(UpdateEmpty) <==> IsEmpty(c)
      ensures out == Err(FieldNotUpdatable) <==> !IsEmpty(c) && c.others != {}
      ensures !IsEmpty(c) && c.others == {} ==>
                |old(h.trace)| <= at <= |h.trace| && Updated(out, h.Then(at, n), c, grammar)
      ensures out.Ok? ==>
                && Requested(out.value, h.Then(at, n).profile.value, c)
                && out.value.name == n && h.At(n).profile == Some(out.value) && h.At(n).record.None?
      ensures h.Did(a) == if out.Ok? then old(h.Did(a)) + [UpdateProfile(a, out.value)] else old(h.Did(a))
    {
      hide Exec, IsRun, OpenedAt, Effects, Init, Changed, Requested, Consistent;
      at := 0;
      if IsEmpty(c) {
        return Err(UpdateEmpty), at;
      }
      if c.others != {} {
        return Err(FieldNotUpdatable), at;
      }
      var locked;
      locked, at := h.TryLock(a, n);
      ghost var tried := h.trace;
      if !locked {
        return Err(Busy), at;
      }
      var stored := h.LoadProfile(a, n);
      if stored.None? {
        h.Release(a, n);
        h.ThenLater(tried, at, n);
        return Err(NotFound), at;
      }
      out := UpdateLocked(a, n, stored.value, c, grammar);
      h.Release(a, n);
      h.ThenLater(tried, at, n);
    }

    method UpdateLocked(a: Agent, n: string, current: Profile, c: Changes, grammar: bool)
      returns (out: Outcome<Profile>)
      requires h.Settled(a, n) && h.At(n).profile == Some(current)
      modifies h
      ensures h.Kept(a, n) && h.Settled(a, n)
      ensures h.At(n).record == old(h.At(n)).record
      ensures Updated(out, Slot(Some(current), old(h.At(n)).record, None), c, grammar)
      ensures out.Ok? ==>
                && Requested(out.value, current, c) && out.value.name == n
                && h.At(n).profile == Some(out.value) && h.At(n).record.None?
                && h.Did(a) == old(h.Did(a)) + [UpdateProfile(a, out.value)]
      ensures out.Err? ==>
                && h.Did(a) == old(h.Did(a)) && h.At(n).profile == Some(current)
                && out.error in {RuntimeActive, Invalid}
    {
      hide Exec, IsRun, OpenedAt, Effects, Init, Consistent;
      h.ProfileFits(n);
      var runtime := h.LoadRuntime(a, n);
      if runtime.Some? {
        return Err(RuntimeActive);
      }
      var updated := Changed(current, c);
      forall u ensures Requested(u, current, c) <==> u == updated {
        RequestedExactly(u, current, c);
      }
      if !Consistent(updated) || !grammar {
        return Err(Invalid);
      }
      h.UpdateProfile(a, updated);
      return Ok(updated);
    }

    /**
     ProfileService.delete. A failed deletion leaves profile and record as they were (it may
     have signalled the owned process); a successful one leaves neither. `at` is the moment when
     it asked for the lock.
     */
    method Delete(a: Agent, n: string) returns (out: Outcome<Deletion>, ghost at: nat)
      requires h.Valid()
      modifies h
      ensures !old(Holds(h.now, a, n)) ==> !Holds(h.now, a, n)
      ensures h.Valid() && Grew(old(h.trace), h.trace) && |old(h.trace)| <= at <= |h.trace|
      ensures out == Err(Busy) <==> h.Then(at, n).hold.Some?
      ensures out == Err(NotFound) <==> h.Then(at, n).hold.None? && h.Then(at, n).profile.None?
      ensures out == Err(ManagedCleanupRequired) <==>
                h.Then(at, n).hold.None? && h.Then(at, n).profile.Some? && h.Then(at, n).profile.value.managed.Some?
      ensures out.Ok? ==>
                && h.At(n).profile.None? && h.At(n).record.None?
                && |h.Did(a)| > 0 && h.Did(a)[|h.Did(a)| - 1] == DeleteProfile(a, n)
                && (out.value.stoppedOwnedProcess || out.value.removedStaleRuntime <==> h.Then(at, n).record.Some?)
      ensures out.Err? ==> AtMostASignal(old(h.Did(a)), h.Did(a), a, n)
      ensures out.Err? && out.error in {TunnelStopFailed, RemoteStateUnresolved, Unexpected} ==>
                h.Then(at, n).record.Some?
      ensures out in {Err(NotFound), Err(Busy), Err(ManagedCleanupRequired)} ==> h.Did(a) == old(h.Did(a))
    {
      hide Exec, IsRun, OpenedAt, Effects, Init;
      var locked;
      locked, at := h.TryLock(a, n);
      ghost var tried := h.trace;
      if !locked {
        return Err(Busy), at;
      }
      var stored := h.LoadProfile(a, n);
      if stored.None? {
        h.Release(a, n);
        h.ThenLater(tried, at, n);
        return Err(NotFound), at;
      }
      if stored.value.managed.Some? {
        h.Release(a, n);
        h.ThenLater(tried, at, n);
        return Err(ManagedCleanupRequired), at;
      }
      out := DeleteLegacy(a, n, stored.value);
      h.Release(a, n);
      h.ThenLater(tried, at, n);
    }

    /** The rest of `delete` for a legacy profile, under the lock. */
    method DeleteLegacy(a: Agent, n: string, p: Profile) returns (out: Outcome<Deletion>)
      requires h.Settled(a, n) && h.At(n).profile == Some(p) && p.managed.None?
      modifies h
      ensures h.Kept(a, n) && h.Settled(a, n)
      ensures out.Ok? ==> h.At(n).profile.None? && h.At(n).record.None?
      ensures out.Ok? ==> |h.Did(a)| > 0 && h.Did(a)[|h.Did(a)| - 1] == DeleteProfile(a, n)
      ensures out.Err? ==>
                && h.At(n).profile == Some(p) && h.At(n).record == old(h.At(n)).record
                && AtMostASignal(old(h.Did(a)), h.Did(a), a, n)
                && out.error in {TunnelStopFailed, RemoteStateUnresolved, Unexpected} && old(h.At(n)).record.Some?
      ensures out.Ok? ==> (out.value.stoppedOwnedProcess || out.value.removedStaleRuntime <==>
                old(h.At(n)).record.Some?)
    {
      hide Exec, IsRun, OpenedAt, Effects, Init;
      h.ProfileFits(n);
      out := DropRuntime(a, p);
      if out.Ok? {
        var remaining := h.LoadRuntime(a, n);
        assert remaining.None?;  // PROFILE_DELETE_RUNTIME_REMAINS cannot happen under the lock
        h.RemoveProfile(a, n);
      }
    }

    /** The runtime part of `delete`, under the lock. */
    method DropRuntime(a: Agent, p: Profile) returns (out: Outcome<Deletion>)
      requires h.Settled(a, p.name) && h.At(p.name).profile == Some(p)
      modifies h
      ensures h.Kept(a, p.name) && h.Settled(a, p.name) && h.At(p.name).profile == Some(p)
      ensures out.Ok? ==> h.At(p.name).record.None?
      ensures out.Err? ==>
                && h.At(p.name).record == old(h.At(p.name)).record
                && AtMostASignal(old(h.Did(a)), h.Did(a), a, p.name)
                && out.error in {TunnelStopFailed, RemoteStateUnresolved, Unexpected}
      ensures out.Ok? ==> (out.value.stoppedOwnedProcess || out.value.removedStaleRuntime <==>
                old(h.At(p.name)).record.Some?)
      ensures out.Ok? && old(h.At(p.name)).record.Some? ==>
                !Live(h.now, RecId(old(h.At(p.name)).record.value))
      ensures out.Ok? && out.value.removedStaleRuntime ==> old(h.At(p.name)).record.value.remote.None?
      ensures old(h.At(p.name)).record.None? ==> out.Ok?
    {
      hide Exec, IsRun, OpenedAt, Effects, Init;
      var state := h.LoadRuntime(a, p.name);
      if state.None? {
        return Ok(Deletion(false, false));
      }
      if state.value.remote.Some? {
        out := StopOwnedAndConfirmRemoteRelease(a, p, state.value);
      } else {
        out := DropLegacyRuntime(a, p, state.value);
      }
    }

    /** A record written before remote identities existed holds no remote evidence to keep. */
    method DropLegacyRuntime(a: Agent, p: Profile, state: Record) returns (out: Outcome<Deletion>)
      requires h.Settled(a, p.name) && h.At(p.name) == Slot(Some(p), Some(state), h.At(p.name).hold)
      requires state.remote.None?
      modifies h
      ensures h.Kept(a, p.name) && h.Settled(a, p.name) && h.At(p.name).profile == Some(p)
      ensures h.At(p.name).record == if out.Ok? then None else Some(state)
      ensures out.Err? ==>
                && AtMostASignal(old(h.Did(a)), h.Did(a), a, p.name)
                && out.error in {TunnelStopFailed, Unexpected}
      ensures out.Ok? ==> out.value in {Deletion(true, false), Deletion(false, true)} && !Live(h.now, RecId(state))
      ensures RecId(state) in (if out.Ok? then h.At(p.name).hold.value.ledger.gone
                else h.At(p.name).hold.value.ledger.matched)
      ensures out.Err? ==>
                NotStopped(old(h.trace), h.trace, a, p.name, RecId(state),
                           if out.error == TunnelStopFailed then Some(false) else None)
      ensures out.Ok? ==>
                h.Did(a) == if out.value.stoppedOwnedProcess
                  then old(h.Did(a)) + [Signal(a, p.name)] + [ClearRecord(a, p.name)]
                  else old(h.Did(a)) + [ClearRecord(a, p.name)] + [ClearRecord(a, p.name)]
      ensures out.Ok? && out.value.stoppedOwnedProcess ==> RecId(state) in h.At(p.name).hold.value.ledger.matched
    {
      hide Exec, IsRun, OpenedAt, Effects, Init;
      h.RecordFits(p.name);
      var result := tunnels.Disconnect(a, p.name);
      if result.DisconnectRaised? {
        return Err(Unexpected);
      }
      if result.check.Passed() {
        return Ok(Deletion(true, false));
      }
      if result.check.code == Some(ProcessIdentityMismatch) {
        h.ClearRuntime(a, p.name);
        return Ok(Deletion(false, true));
      }
      return Err(TunnelStopFailed);
    }

    /** _stop_owned_and_confirm_remote_release: dead locally and released remotely, or no change. */
    method StopOwnedAndConfirmRemoteRelease(a: Agent, p: Profile, state: Record) returns (out: Outcome<Deletion>)
      requires h.Settled(a, p.name) && h.At(p.name) == Slot(Some(p), Some(state), h.At(p.name).hold)
      modifies h
      ensures h.Kept(a, p.name) && h.Settled(a, p.name) && h.At(p.name).profile == Some(p)
      ensures h.At(p.name).record == if out.Ok? then None else Some(state)
      ensures out.Err? ==>
                && AtMostASignal(old(h.Did(a)), h.Did(a), a, p.name)
                && out.error in {TunnelStopFailed, RemoteStateUnresolved, Unexpected}
      ensures out.Ok? ==> out.value == Deletion(true, false) && !Live(h.now, RecId(state))
      ensures Resolved(out, a, p, RecId(state), Seen(old(h.trace), h.trace, a, p.name), old(h.trace), h.trace)
      ensures out.Ok? ==>
                InOrder(old(h.trace), h.trace, SeeGone(a, p.name, RecId(state)), SeeAbsent(a, p.name, p.remotePort))
    {
      hide Exec, IsRun, InOrder, Since, OpenedAt, Effects, Init;
      ghost var before := h.trace;
      h.BeginOperation(a, p.name);
      ghost var begun := h.trace;
      out := StopOwned(a, p, state);
      h.SeenInCall(before, begun, a, p.name);
      if out.Ok? {
        InOrderGrows(before, begun, h.trace, h.trace, SeeGone(a, p.name, RecId(state)),
                     SeeAbsent(a, p.name, p.remotePort));
      }
      NotStoppedGrows(before, begun, h.trace, h.trace, a, p.name, RecId(state), None);
      NotStoppedGrows(before, begun, h.trace, h.trace, a, p.name, RecId(state), Some(false));
    }

    /**
     Which way it ends is decided by what it saw and was told in this very call. Success: seen to
     match, then gone, and the port seen free. Stop failed: seen to match, and the attempt to stop
     it failed. Unresolved: seen gone, and not by a stop after which the port was seen free.
     */
    ghost predicate Resolved(out: Outcome<Deletion>, a: Agent, p: Profile, id: Identity, seen: Ledger,
                             before: seq<Action>, after: seq<Action>) {
      match out
      case Ok(_) => id in seen.matched && id in seen.gone && p.remotePort in seen.absent
      case Err(TunnelStopFailed) => id in seen.matched && NotStopped(before, after, a, p.name, id, Some(false))
      case Err(RemoteStateUnresolved) =>
        && id in seen.gone
        && (|| id !in seen.matched
            || NotStopped(before, after, a, p.name, id, Some(false))
            || ReleaseUnseen(seen.answers, p.remotePort))
      case Err(_) => NotStopped(before, after, a, p.name, id, None)
    }

    /** The check of the port found somebody, or could not be made. */
    predicate ReleaseUnseen(answers: set<Answer>, port: int) {
      Taken(answers, port) || Unchecked(answers, port) || Raises in answers
    }

    /** The body of it, in terms of what is noted in the current operation. */
    method StopOwned(a: Agent, p: Profile, state: Record) returns (out: Outcome<Deletion>)
      requires h.Settled(a, p.name) && h.At(p.name) == Slot(Some(p), Some(state), h.At(p.name).hold)
      requires h.At(p.name).hold.value.ledger == EMPTY_LEDGER
      modifies h
      ensures h.Kept(a, p.name) && h.Settled(a, p.name) && h.At(p.name).profile == Some(p)
      ensures h.At(p.name).record == if out.Ok? then None else Some(state)
      ensures out.Err? ==>
                && AtMostASignal(old(h.Did(a)), h.Did(a), a, p.name)
                && out.error in {TunnelStopFailed, RemoteStateUnresolved, Unexpected}
      ensures out.Ok? ==> out.value == Deletion(true, false) && !Live(h.now, RecId(state))
      ensures h.Within(p.name)
      ensures Resolved(out, a, p, RecId(state), h.At(p.name).hold.value.ledger, old(h.trace), h.trace)
      ensures out.Ok? ==>
                InOrder(old(h.trace), h.trace, SeeGone(a, p.name, RecId(state)), SeeAbsent(a, p.name, p.remotePort))
    {
      hide Since, InOrder, Exec, IsRun, OpenedAt, Effects, Init;
      ghost var before := h.trace;
      h.RecordFits(p.name);
      var matches := h.MatchesRecord(a, p.name, state);
      if !matches {
        return Err(RemoteStateUnresolved);
      }
      ghost var seen := h.trace;
      out := StopMatched(a, p, state);
      if out.Ok? {
        InOrderGrows(before, seen, h.trace, h.trace, SeeGone(a, p.name, RecId(state)),
                     SeeAbsent(a, p.name, p.remotePort));
      }
      NotStoppedGrows(before, seen, h.trace, h.trace, a, p.name, RecId(state), None);
      NotStoppedGrows(before, seen, h.trace, h.trace, a, p.name, RecId(state), Some(false));
    }

    /** The recorded process was seen to match: terminate it, and explain a failure to do so. */
    method StopMatched(a: Agent, p: Profile, state: Record) returns (out: Outcome<Deletion>)
      requires h.Settled(a, p.name) && h.At(p.name) == Slot(Some(p), Some(state), h.At(p.name).hold)
      requires RecId(state) in h.At(p.name).hold.value.ledger.matched
      modifies h
      ensures h.Kept(a, p.name) && h.Settled(a, p.name) && h.At(p.name).profile == Some(p)
      ensures h.At(p.name).record == if out.Ok? then None else Some(state)
      ensures h.Grows(p.name)
      ensures out.Err? ==>
                && AtMostASignal(old(h.Did(a)), h.Did(a), a, p.name)
                && out.error in {TunnelStopFailed, RemoteStateUnresolved, Unexpected}
      ensures out.Ok? ==> out.value == Deletion(true, false) && !Live(h.now, RecId(state))
      ensures Resolved(out, a, p, RecId(state), h.At(p.name).hold.value.ledger, old(h.trace), h.trace)
      ensures out.Ok? ==>
                InOrder(old(h.trace), h.trace, SeeGone(a, p.name, RecId(state)), SeeAbsent(a, p.name, p.remotePort))
    {
      hide Since, InOrder, Exec, IsRun, OpenedAt, Effects, Init;
      ghost var before := h.trace;
      var stopped := h.TerminateOwned(a, p.name, state);
      ghost var tried := h.trace;
      if stopped == Some(true) {
        out := ConfirmRemoteRelease(a, p, state);
        if out.Ok? {
          BothInOrder(before, tried, h.trace, h.trace, SeeGone(a, p.name, RecId(state)),
                      SeeAbsent(a, p.name, p.remotePort));
        }
      } else {
        out := ExplainFailedStop(a, p, state, stopped);
        NotStoppedGrows(before, before, tried, h.trace, a, p.name, RecId(state), stopped);
      }
    }

    /** The process is stopped: the record goes only once the port is seen free. */
    method ConfirmRemoteRelease(a: Agent, p: Profile, state: Record) returns (out: Outcome<Deletion>)
      requires h.Settled(a, p.name) && h.At(p.name) == Slot(Some(p), Some(state), h.At(p.name).hold)
      requires !Live(h.now, RecId(state))
      modifies h
      ensures h.Kept(a, p.name) && h.Settled(a, p.name) && h.At(p.name).profile == Some(p)
      ensures h.At(p.name).record == if out.Ok? then None else Some(state)
      ensures h.Grows(p.name) && !Live(h.now, RecId(state))
      ensures out == Ok(Deletion(true, false)) || (out == Err(RemoteStateUnresolved) && h.Did(a) == old(h.Did(a)))
      ensures out.Ok? ==>
                && p.remotePort in h.At(p.name).hold.value.ledger.absent
                && Since(old(h.trace), h.trace, SeeAbsent(a, p.name, p.remotePort))
      ensures out.Err? ==> ReleaseUnseen(h.At(p.name).hold.value.ledger.answers, p.remotePort)
    {
      hide Exec, IsRun, InOrder, Since, OpenedAt, Effects, Init;
      h.RecordFits(p.name);
      var raised: bool := *;
      if raised {
        h.Hear(a, p.name, Raises);
        return Err(RemoteStateUnresolved);
      }
      ghost var before := h.trace;
      var listener := h.CheckListener(a, p.name, p.remotePort);
      ghost var checked := h.trace;
      if listener.code != Some(ListenerAbsent) {
        return Err(RemoteStateUnresolved);
      }
      h.ClearRuntime(a, p.name);
      SinceGrows(before, before, checked, h.trace, SeeAbsent(a, p.name, p.remotePort));
      return Ok(Deletion(true, false));
    }

    method ExplainFailedStop(a: Agent, p: Profile, state: Record, stopped: Option<bool>)
      returns (out: Outcome<Deletion>)
      requires h.Settled(a, p.name) && h.At(p.name) == Slot(Some(p), Some(state), h.At(p.name).hold)
      requires stopped != Some(true)
      modifies h
      ensures h.Looked(a, p.name) && h.Settled(a, p.name) && h.Grows(p.name)
      ensures h.At(p.name).profile == Some(p) && h.At(p.name).record == Some(state)
      ensures out.Err? && (out.error == Unexpected <==> stopped.None?)
      ensures out.error in {TunnelStopFailed, RemoteStateUnresolved, Unexpected}
      ensures out.error == RemoteStateUnresolved ==>
                !Live(h.now, RecId(state)) && RecId(state) in h.At(p.name).hold.value.ledger.gone
      ensures out.error == TunnelStopFailed ==> RecId(state) in h.At(p.name).hold.value.ledger.matched
    {
      hide Exec, IsRun, OpenedAt, Effects, Init;
      if stopped.None? {
        return Err(Unexpected);
      }
      var matches := h.MatchesRecord(a, p.name, state);
      return if matches then Err(TunnelStopFailed) else Err(RemoteStateUnresolved);
    }
  }
}
