/** Acquiring, checking and dropping one reverse tunnel (app/services/tunnel.py). */
module Tunnels {
  import opened Wrappers
  import opened Domain
  import opened Ownership
  import opened OwnershipTheorems
  import opened Hosts

  /** A tunnel in use: its record, and the child process when this manager started it. */
  class ActiveTunnel {
    var state: Record
    const child: Option<Identity>

    constructor (state: Record, child: Option<Identity>)
      ensures this.state == state && this.child == child
    {
      this.state := state;
      this.child := child;
    }

    /** The tunnel is the stored one, held by `a`; a child is the process its record names. */
    ghost predicate Current(h: Host, a: Agent)
      reads this, h
    {
      && h.Settled(a, state.name)
      && h.At(state.name).record == Some(state)
      && (child.Some? ==>
            && child.value == RecId(state)
            && child.value in h.now.origin && h.now.origin[child.value] == Origin(state.name, a))
    }

    /** ActiveTunnel.poll: has the process exited? */
    method Poll(h: Host, a: Agent) returns (exited: bool)
      requires Current(h, a)
      modifies h
      ensures Current(h, a) && h.Looked(a, state.name)
      ensures h.At(state.name).profile == old(h.At(state.name).profile)
      ensures h.Grows(state.name)
      ensures exited <==> !Live(h.now, RecId(state))
      ensures exited ==> RecId(state) in h.At(state.name).hold.value.ledger.gone
    {
      hide Exec, IsRun, OpenedAt, Effects, Init;
      if child.Some? {
        exited := h.PollChild(a, state.name, child.value);
      } else {
        var matches := h.MatchesRecord(a, state.name, state);
        exited := !matches;
      }
    }

    /** ActiveTunnel.stop; `None` is an exception out of the operating system. */
    method Stop(h: Host, a: Agent) returns (stopped: Option<bool>)
      requires Current(h, a)
      modifies h
      ensures Current(h, a) && h.Kept(a, state.name)
      ensures || h.Did(a) == old(h.Did(a)) || h.Did(a) == old(h.Did(a)) + [Signal(a, state.name)]
              || (child.Some? && h.Did(a) == old(h.Did(a)) + [StopChild(a, state.name, child.value)])
      ensures h.At(state.name).profile == old(h.At(state.name).profile)
      ensures h.Grows(state.name)
      ensures stopped == Some(true) ==>
                !Live(h.now, RecId(state)) && RecId(state) in h.At(state.name).hold.value.ledger.gone
      ensures stopped != Some(true) ==>
                child.None? && NotStopped(old(h.trace), h.trace, a, state.name, RecId(state), stopped)
    {
      hide Exec, IsRun, OpenedAt, Effects, Init, Since, NoOrphans, Fresh, Separated;
      ghost var before := h.trace;
      h.RecordFits(state.name);
      var matches := h.MatchesRecord(a, state.name, state);
      ghost var seen := h.trace;
      if !matches {
        var exited := Poll(h, a);
        return Some(exited);
      }
      if child.Some? {
        h.StopManaged(a, state.name, child.value);
        var exited := h.PollChild(a, state.name, child.value);
        return Some(exited);
      }
      stopped := h.TerminateOwned(a, state.name, state);
      NotStoppedGrows(before, seen, h.trace, h.trace, a, state.name, RecId(state), stopped);
    }
  }

  /** TunnelManager.acquire's result; `AcquireRaised` is an exception that is not a TunnelError. */
  datatype Acquisition =
    | Acquired(tunnel: ActiveTunnel)
    | Conflict(suggestion: Option<int>)
    | Failed(code: Code)
    | AcquireRaised

  /** How the first half of `acquire` ends: take over the record, start a child, or give up. */
  datatype Preparation = Adopt(record: Record) | Ready | GiveUp(outcome: Acquisition)

  datatype Verification = Verified(listener: Check, endpoint: Check) | VerifyRaised

  /** TunnelManager.disconnect's result; `DisconnectRaised` is an exception. */
  datatype Disconnection = Disconnected(check: Check) | DisconnectRaised

  class TunnelManager {
    const h: Host
    const sshExecutable: string
    const supervisorPid: int

    constructor (h: Host, sshExecutable: string, supervisorPid: int)
      ensures this.h == h && this.sshExecutable == sshExecutable
    {
      this.h := h;
      this.sshExecutable := sshExecutable;
      this.supervisorPid := supervisorPid;
    }

    /** RemoteProbeService.find_free_port: the first of the next twenty ports that is seen absent. */
    method FindFreePort(a: Agent, p: Profile) returns (port: Option<int>)
      requires h.Settled(a, p.name)
      modifies h
      ensures h.Looked(a, p.name) && h.Settled(a, p.name)
      ensures h.At(p.name).record == old(h.At(p.name).record) && h.At(p.name).profile == old(h.At(p.name).profile)
      ensures h.Grows(p.name) && OnlyListened(old(h.At(p.name)), h.At(p.name))
      ensures FirstFree(p.remotePort, port, h.At(p.name).hold.value.ledger.absent,
                        h.At(p.name).hold.value.ledger.answers)
      ensures h.At(p.name).hold.value.ledger.absent ==
              old(h.At(p.name)).hold.value.ledger.absent + (if port.Some? then {port.value} else {})
    {
      hide Exec, IsRun, OpenedAt, Effects, Init, Since;
      var candidate := p.remotePort + 1;
      while candidate < 65536 && candidate < p.remotePort + 21
        invariant p.remotePort < candidate <= LastCandidate(p.remotePort)
        invariant h.Looked(a, p.name) && h.Settled(a, p.name)
        invariant h.At(p.name).record == old(h.At(p.name).record) && h.At(p.name).profile == old(h.At(p.name).profile)
        invariant h.Grows(p.name) && OnlyListened(old(h.At(p.name)), h.At(p.name))
        invariant AllTaken(h.At(p.name).hold.value.ledger.answers, p.remotePort, candidate)
        invariant h.At(p.name).hold.value.ledger.absent == old(h.At(p.name)).hold.value.ledger.absent
      {
        ghost var answers := h.At(p.name).hold.value.ledger.answers;
        var result := h.CheckListener(a, p.name, candidate);
        AllStayTaken(answers, h.At(p.name).hold.value.ledger.answers, p.remotePort, candidate);
        if result.code == Some(ListenerAbsent) {
          return Some(candidate);
        }
        if result.code == Some(RemoteCheckFailed) {
          assert Unchecked(h.At(p.name).hold.value.ledger.answers, candidate);
          return None;
        }
        assert Taken(h.At(p.name).hold.value.ledger.answers, candidate);
        candidate := candidate + 1;
      }
      return None;
    }

    /**
     The stale-session branch of `acquire`: our old sshd session still holds the port. It is
     terminated only after it was verified to be ours, and the record goes exactly when the
     port was then seen free.
     */
    method ReleaseStaleSession(a: Agent, n: string, existing: Record) returns (released: bool)
      requires h.Settled(a, n) && h.At(n).record == Some(existing)
      requires !Live(h.now, RecId(existing)) && RecId(existing) in h.now.used
      modifies h
      ensures h.Kept(a, n) && h.Settled(a, n) && h.At(n).profile == old(h.At(n).profile)
      ensures h.At(n).record == if released then None else Some(existing)
      ensures h.Grows(n) && OnlyListened(old(h.At(n)), h.At(n))
      ensures h.At(n).hold.value.ledger.absent ==
              old(h.At(n)).hold.value.ledger.absent + (if released then {existing.port} else {})
      ensures released ==>
                && existing.remote.Some? && Cleanup(true) in h.At(n).hold.value.ledger.answers
                && h.Did(a) == old(h.Did(a)) + [KillRemote(a, n, existing.remote.value)] + [ClearRecord(a, n)]
                && InOrder(old(h.trace), h.trace, KillRemote(a, n, existing.remote.value),
                           SeeAbsent(a, n, existing.port))
      ensures !released ==> StaleSessionStays(a, n, existing, old(h.trace))
    {
      hide Exec, IsRun, OpenedAt, Effects, Init, Since, InOrder, Fits;
      ghost var before := h.trace;
      var ownership := h.VerifyOwnership(a, n, existing);
      if !ownership.Passed() {
        return false;
      }
      ghost var verified := h.trace;
      released := EndStaleSession(a, n, existing);
      if released {
        InOrderGrows(before, verified, h.trace, h.trace, KillRemote(a, n, existing.remote.value),
                     SeeAbsent(a, n, existing.port));
      } else {
        forall c: Check ensures Since(verified, h.trace, Saw(a, n, Occupied(existing.port, c))) ==>
                                Since(before, h.trace, Saw(a, n, Occupied(existing.port, c))) {
          SinceEarlier(before, verified, h.trace, Saw(a, n, Occupied(existing.port, c)));
        }
      }
    }

    /** The session was verified to be ours: end it, and see whether that freed the port. */
    method EndStaleSession(a: Agent, n: string, existing: Record) returns (released: bool)
      requires h.Settled(a, n) && h.At(n).record == Some(existing) && existing.remote.Some?
      requires !Live(h.now, RecId(existing)) && RecId(existing) in h.now.used
      requires h.now.holds[n].ledger.verified == existing.remote
      modifies h
      ensures h.Kept(a, n) && h.Settled(a, n) && h.At(n).profile == old(h.At(n).profile)
      ensures h.At(n).record == if released then None else Some(existing)
      ensures h.Grows(n) && OnlyListened(old(h.At(n)), h.At(n))
      ensures h.At(n).hold.value.ledger.absent ==
              old(h.At(n)).hold.value.ledger.absent + (if released then {existing.port} else {})
      ensures released ==>
                && Cleanup(true) in h.At(n).hold.value.ledger.answers
                && h.Did(a) == old(h.Did(a)) + [KillRemote(a, n, existing.remote.value)] + [ClearRecord(a, n)]
                && InOrder(old(h.trace), h.trace, KillRemote(a, n, existing.remote.value),
                           SeeAbsent(a, n, existing.port))
      ensures !released ==> StaleSessionStays(a, n, existing, old(h.trace))
    {
      hide Exec, IsRun, OpenedAt, Effects, Init, Since, InOrder, Fits;
      ghost var before := h.trace;
      var cleanup := h.TerminateStaleSession(a, n, existing.remote.value);
      if !cleanup.Passed() {
        return false;
      }
      ghost var cleaned := h.trace;
      var listener := h.CheckListener(a, n, existing.port);
      if listener.code != Some(ListenerAbsent) {
        SinceEarlier(before, cleaned, h.trace, ListenerSeen(a, n, existing.port, listener));
        return false;
      }
      ghost var checked := h.trace;
      h.ClearRuntime(a, n);
      BothInOrder(before, cleaned, checked, h.trace, KillRemote(a, n, existing.remote.value),
                  SeeAbsent(a, n, existing.port));
      return true;
    }

    /**
     Why a stale session was not released: it could not be verified and nothing was done, or it
     was told to end and that failed, or the port was checked again and was not free.
     */
    ghost predicate StaleSessionStays(a: Agent, n: string, r: Record, before: seq<Action>)
      reads h
      requires n in h.now.holds
    {
      var answers := h.now.holds[n].ledger.answers;
      || (h.Did(a) == Effects(before, a) && exists code :: NotOurs(code) in answers)
      || (&& r.remote.Some? && h.Did(a) == Effects(before, a) + [KillRemote(a, n, r.remote.value)]
          && (|| Cleanup(false) in answers
              || exists c: Check ::
                   c.code != Some(ListenerAbsent) && Since(before, h.trace, Saw(a, n, Occupied(r.port, c)))))
    }

    /**
     The remote part of `acquire`: the port must be seen free. An occupied port is freed only
     when it is our own stale session; another port is suggested only without a record. What it
     answers is decided by what it was told.
     */
    method FreePort(a: Agent, p: Profile, existing: Option<Record>) returns (out: Preparation)
      requires h.Settled(a, p.name) && h.At(p.name).record == existing
      requires existing.Some? ==>
                 && existing.value.port == p.remotePort
                 && !Live(h.now, RecId(existing.value)) && RecId(existing.value) in h.now.used
      requires h.At(p.name).hold.value.ledger.absent == {} && h.At(p.name).hold.value.ledger.answers == {}
      modifies h
      ensures h.Kept(a, p.name) && h.Settled(a, p.name) && h.At(p.name).profile == old(h.At(p.name).profile)
      ensures h.Grows(p.name) && h.At(p.name).hold.value.ledger.matched == old(h.At(p.name)).hold.value.ledger.matched
      ensures !out.Adopt?
      ensures out.Ready? ==> h.At(p.name).record == existing || h.At(p.name).record.None?
      ensures out.GiveUp? ==> !out.outcome.Acquired? && h.At(p.name).record == existing
      ensures Decides(out, p.remotePort, existing, h.At(p.name).hold.value.ledger.absent,
                      h.At(p.name).hold.value.ledger.answers)
    {
      hide Exec, IsRun, OpenedAt, Effects, Init, Since, InOrder, Fits;
      var listener := h.CheckListener(a, p.name, p.remotePort);
      if listener.Passed() || listener.code == Some(UnsafeRemoteBinding) {
        out := Contend(a, p, existing);
        return;
      }
      if listener.code != Some(ListenerAbsent) {
        return GiveUp(Failed(if listener.code.Some? then listener.code.value else RemoteCheckFailed));
      }
      return Ready;
    }

    /** The port is taken: by our own stale session, or by somebody else. */
    method Contend(a: Agent, p: Profile, existing: Option<Record>) returns (out: Preparation)
      requires h.Settled(a, p.name) && h.At(p.name).record == existing
      requires existing.Some? ==>
                 && existing.value.port == p.remotePort
                 && !Live(h.now, RecId(existing.value)) && RecId(existing.value) in h.now.used
      requires h.At(p.name).hold.value.ledger.absent == {} && Raises !in h.At(p.name).hold.value.ledger.answers
      requires Taken(h.At(p.name).hold.value.ledger.answers, p.remotePort)
      modifies h
      ensures h.Kept(a, p.name) && h.Settled(a, p.name) && h.At(p.name).profile == old(h.At(p.name).profile)
      ensures h.Grows(p.name) && h.At(p.name).hold.value.ledger.matched == old(h.At(p.name)).hold.value.ledger.matched
      ensures out.Ready? || (out.GiveUp? && (out.outcome.Conflict? || out.outcome.AcquireRaised?))
      ensures out.Ready? ==> h.At(p.name).record.None? && existing.Some?
      ensures out.GiveUp? ==> h.At(p.name).record == existing
      ensures Decides(out, p.remotePort, existing, h.At(p.name).hold.value.ledger.absent,
                      h.At(p.name).hold.value.ledger.answers)
    {
      hide Exec, IsRun, OpenedAt, Effects, Init, Since, InOrder, Fits;
      var suggestion := None;
      if existing.Some? && existing.value.port == p.remotePort {
        var released := ReleaseStaleSession(a, p.name, existing.value);
        if released {
          return Ready;
        }
      } else {
        suggestion := FindFreePort(a, p);
      }
      var raises: bool := *;
      if raises {
        h.Hear(a, p.name, Raises);
        return GiveUp(AcquireRaised);
      }
      return GiveUp(Conflict(suggestion));
    }

    /** The record of the profile, and whether its process matches and can be taken over. */
    method LookUp(a: Agent, p: Profile) returns (existing: Option<Record>, matches: bool)
      requires h.Settled(a, p.name) && h.At(p.name).profile == Some(p)
      modifies h
      ensures h.Looked(a, p.name) && h.Settled(a, p.name) && h.At(p.name).profile == Some(p)
      ensures h.At(p.name).record == old(h.At(p.name).record) == existing
      ensures h.Grows(p.name)
      ensures existing.Some? ==>
                && existing.value.name == p.name && existing.value.port == p.remotePort
                && RecId(existing.value) in h.now.used
                && (!matches ==> !Live(h.now, RecId(existing.value)))
      ensures matches ==> existing.Some?
      ensures var l := old(h.At(p.name)).hold.value.ledger;
              h.At(p.name).hold.value.ledger ==
                if existing.None? then l
                else if matches then SawMatch(l, RecId(existing.value))
                else SawGone(l, RecId(existing.value))
    {
      hide Exec, IsRun, OpenedAt, Effects, Init;
      existing := h.LoadRuntime(a, p.name);
      matches := false;
      if existing.Some? {
        h.RecordFits(p.name);
        if existing.value.port == p.remotePort {
          matches := h.MatchesRecord(a, p.name, existing.value);
        }
      }
    }

    /** What the first half of `acquire` sees and does once the operation has begun. */
    method Examine(a: Agent, p: Profile) returns (out: Preparation)
      requires h.Settled(a, p.name) && h.At(p.name).profile == Some(p)
      requires h.At(p.name).hold.value.ledger == EMPTY_LEDGER
      modifies h
      ensures h.Kept(a, p.name) && h.Settled(a, p.name) && h.At(p.name).profile == Some(p)
      ensures h.Grows(p.name)
      ensures out.Adopt? ==>
                && h.Did(a) == old(h.Did(a))
                && h.At(p.name).record == old(h.At(p.name).record) == Some(out.record)
                && out.record.name == p.name
      ensures out.Ready? ==> h.At(p.name).record.None?
      ensures out.Ready? && old(h.At(p.name)).record.Some? ==>
                var id := RecId(old(h.At(p.name)).record.value);
                id in h.now.used && !Live(h.now, id)
      ensures out.GiveUp? ==> !out.outcome.Acquired? && h.At(p.name).record == old(h.At(p.name).record)
      ensures Decides(out, p.remotePort, old(h.At(p.name)).record, h.At(p.name).hold.value.ledger.absent,
                      h.At(p.name).hold.value.ledger.answers)
      ensures h.At(p.name).hold.value.ledger.matched == if out.Adopt? then {RecId(out.record)} else {}
    {
      hide Exec, IsRun, OpenedAt, Effects, Init, Since, Fits;
      var unreadable: bool := *;
      if unreadable {
        h.Hear(a, p.name, Raises);
        return GiveUp(AcquireRaised);
      }
      var existing, matches := LookUp(a, p);
      if matches {
        return Adopt(existing.value);
      }
      out := FreePort(a, p, existing);
      if out.Ready? {
        h.ClearRuntime(a, p.name);
      }
    }

    /**
     The first half of `acquire`: adopt, refuse, or discard the old record and go on. Which of
     these is decided by what was seen and answered in this very call: see Decides.
     */
    method Prepare(a: Agent, p: Profile) returns (out: Preparation, ghost begun: seq<Action>)
      requires h.Settled(a, p.name) && h.At(p.name).profile == Some(p)
      modifies h
      ensures h.Kept(a, p.name) && h.Settled(a, p.name) && h.At(p.name).profile == Some(p)
      ensures out.Adopt? ==>
                && h.Did(a) == old(h.Did(a))
                && h.At(p.name).record == old(h.At(p.name).record) == Some(out.record)
                && out.record.name == p.name
      ensures out.Ready? ==> h.At(p.name).record.None?
      ensures out.Ready? && old(h.At(p.name)).record.Some? ==>
                var id := RecId(old(h.At(p.name)).record.value);
                id in h.now.used && !Live(h.now, id)
      ensures out.GiveUp? ==> !out.outcome.Acquired? && h.At(p.name).record == old(h.At(p.name).record)
      ensures old(h.trace) <= begun <= h.trace && begun != [] && OpenedAt(h.trace, p.name) == |begun| - 1
      ensures forall act | Actor(act) == Some(a) && act != BeginOperation(a, p.name) :: !Since(old(h.trace), begun, act)
      ensures var seen := Seen(old(h.trace), h.trace, a, p.name);
              && Decides(out, p.remotePort, old(h.At(p.name)).record, seen.absent, seen.answers)
              && seen.matched == if out.Adopt? then {RecId(out.record)} else {}
    {
      hide Exec, IsRun, OpenedAt, Effects, Init, Since;
      ghost var before := h.trace;
      h.BeginOperation(a, p.name);
      begun := h.trace;
      out := Examine(a, p);
      h.SeenInCall(before, begun, a, p.name);
    }

    /** wait_for_start: true when the child exited inside the startup window. */
    method WaitForStart(a: Agent, n: string, id: Identity) returns (exited: bool)
      requires h.Valid() && Holds(h.now, a, n) && h.now.holds[n].pending == Some(id)
      requires id in h.now.origin && h.now.origin[id] == Origin(n, a)
      modifies h
      ensures h.Looked(a, n) && h.Within(n)
      ensures h.At(n) == if exited then SeenGone(old(h.At(n)), id) else old(h.At(n))
      ensures exited ==> !Live(h.now, id)
    {
      hide Exec, IsRun, OpenedAt, Effects, Init;
      var ticks: nat := *;
      while ticks > 0
        invariant h.Looked(a, n) && h.Within(n) && h.At(n) == old(h.At(n))
      {
        exited := h.PollChild(a, n, id);
        if exited {
          return;
        }
        ticks := ticks - 1;
      }
      exited := false;
    }

    /** _wait_for_identity. */
    method WaitForIdentity(a: Agent, n: string, id: Identity) returns (seen: Option<Identity>)
      requires h.Valid() && Holds(h.now, a, n) && h.now.holds[n].pending == Some(id)
      modifies h
      ensures h.Looked(a, n) && h.Within(n)
      ensures h.At(n) == if seen.Some? then old(h.At(n)) else Told(old(h.At(n)), Unidentified)
      ensures seen.Some? ==> seen.value == id
    {
      hide Exec, IsRun, OpenedAt, Effects, Init;
      var ticks: nat := *;
      while ticks > 0
        invariant h.Looked(a, n) && h.Within(n) && h.At(n) == old(h.At(n))
      {
        seen := h.ChildIdentity(a, n, id);
        if seen.Some? {
          return;
        }
        ticks := ticks - 1;
      }
      h.Hear(a, n, Unidentified);
      seen := None;
    }

    /**
     The second half of `acquire` after the child's local identity is known: read the remote
     identity, have it verified, and only then record the tunnel. Every failure stops the child.
     */
    method Confirm(a: Agent, p: Profile, id: Identity, tunnelId: string) returns (out: Acquisition)
      requires h.Valid() && Holds(h.now, a, p.name) && h.now.holds[p.name].pending == Some(id)
      requires h.At(p.name).profile == Some(p) && h.At(p.name).record.None?
      requires id in h.now.origin && h.now.origin[id] == Origin(p.name, a)
      modifies h
      ensures h.Kept(a, p.name) && h.Settled(a, p.name) && h.At(p.name).profile == Some(p)
      ensures out.Acquired? || out.Failed?
      ensures out.Failed? ==> h.At(p.name).record.None?
      ensures out.Acquired? ==> fresh(out.tunnel) && Launched(out.tunnel, a, p) && out.tunnel.child == Some(id)
      ensures out.Acquired? ==>
                && h.Did(a) == old(h.Did(a)) + [RecordChild(a, out.tunnel.state)]
                && Since(old(h.trace), h.trace, SeeOwnership(a, p.name, out.tunnel.state.remote.value))
      ensures out.Failed? ==> !Live(h.now, id) && h.Did(a) == old(h.Did(a)) + [StopChild(a, p.name, id)]
      ensures out.Failed? ==>
                && h.Grows(p.name)
                && out.code in {RemoteIdentityUnavailable, RemoteIdentityInvalid, RemoteIdentityMismatch}
                && (|| NoMarker(out.code) in h.At(p.name).hold.value.ledger.answers
                    || NotOurs(out.code) in h.At(p.name).hold.value.ledger.answers)
      ensures out.Acquired? ==>
                out.tunnel.state == Record(p.name, id.pid, id.created, id.exe, tunnelId, supervisorPid, p.remotePort,
                                           None, out.tunnel.state.remote)
    {
      hide Exec, IsRun, OpenedAt, Effects, Init, Since;
      ghost var before := h.trace;
      var remote, code := WaitForRemoteIdentity(a, p.name);
      if remote.None? {
        h.StopManaged(a, p.name, id);
        return Failed(code);
      }
      ghost var read := h.trace;
      var state := Record(p.name, id.pid, id.created, id.exe, tunnelId, supervisorPid, p.remotePort, None, remote);
      out := RecordVerified(a, p, id, state);
      if out.Acquired? {
        SinceGrows(before, read, h.trace, h.trace, SeeOwnership(a, p.name, remote.value));
      }
    }

    /** The remote session is verified, and only then the tunnel is recorded. */
    method RecordVerified(a: Agent, p: Profile, id: Identity, state: Record) returns (out: Acquisition)
      requires h.Valid() && Holds(h.now, a, p.name) && h.now.holds[p.name].pending == Some(id)
      requires h.At(p.name).profile == Some(p) && h.At(p.name).record.None?
      requires id in h.now.origin && h.now.origin[id] == Origin(p.name, a)
      requires state.name == p.name && RecId(state) == id && state.port == p.remotePort && state.remote.Some?
      modifies h
      ensures h.Kept(a, p.name) && h.Settled(a, p.name) && h.At(p.name).profile == Some(p)
      ensures out.Acquired? || out.Failed?
      ensures out.Acquired? ==>
                && fresh(out.tunnel) && Launched(out.tunnel, a, p) && out.tunnel.child == Some(id)
                && out.tunnel.state == state && h.Did(a) == old(h.Did(a)) + [RecordChild(a, state)]
                && Since(old(h.trace), h.trace, SeeOwnership(a, p.name, state.remote.value))
      ensures out.Failed? ==>
                && h.At(p.name).record.None? && !Live(h.now, id) && h.Grows(p.name)
                && h.Did(a) == old(h.Did(a)) + [StopChild(a, p.name, id)]
                && out.code in {RemoteIdentityUnavailable, RemoteIdentityMismatch}
                && NotOurs(out.code) in h.At(p.name).hold.value.ledger.answers
    {
      hide Exec, IsRun, OpenedAt, Effects, Init, Since;
      ghost var read := h.trace;
      var ownership := h.VerifyOwnership(a, p.name, state);
      ghost var verified := h.trace;
      if !ownership.Passed() {
        h.StopManaged(a, p.name, id);
        return Failed(ownership.code.value);
      }
      h.RecordChild(a, state);
      SinceGrows(read, read, verified, h.trace, SeeOwnership(a, p.name, state.remote.value));
      var tunnel := new ActiveTunnel(state, Some(id));
      return Acquired(tunnel);
    }

    /** _wait_for_remote_identity: the marker's identity, or the code of the last answer. */
    method WaitForRemoteIdentity(a: Agent, n: string) returns (remote: Option<Remote>, code: Code)
      requires h.Valid() && Holds(h.now, a, n)
      modifies h
      ensures h.Looked(a, n) && h.Within(n)
      ensures h.At(n) == if remote.Some? then old(h.At(n)) else Told(old(h.At(n)), NoMarker(code))
      ensures code in {RemoteIdentityUnavailable, RemoteIdentityInvalid, RemoteIdentityMismatch}
    {
      hide Exec, IsRun, OpenedAt, Effects, Init;
      var answer: Option<Remote>, unreadable: bool, mismatch: bool := *, *, *;
      remote := answer;
      code := if unreadable then RemoteIdentityInvalid
              else if mismatch then RemoteIdentityMismatch else RemoteIdentityUnavailable;
      if remote.None? {
        h.Hear(a, n, NoMarker(code));
      }
    }

    /** A tunnel this manager started and recorded. */
    ghost predicate Launched(t: ActiveTunnel, a: Agent, p: Profile)
      reads h, t
    {
      && t.Current(h, a) && t.state.name == p.name && t.state.port == p.remotePort
      && t.child.Some? && t.state.remote.Some?
    }

    /**
     The second half of `acquire`: start a child and make sure of what it is. It does exactly
     this: start and record, or start and stop, or start one that exits by itself, or nothing.
     */
    method Launch(a: Agent, p: Profile) returns (out: Acquisition, ghost started: Option<Identity>)
      requires h.Settled(a, p.name) && h.At(p.name).profile == Some(p) && h.At(p.name).record.None?
      modifies h
      ensures h.Kept(a, p.name) && h.Settled(a, p.name) && h.At(p.name).profile == Some(p)
      ensures !out.Conflict?
      ensures !out.Acquired? ==> h.At(p.name).record.None?
      ensures out.Acquired? ==>
                && fresh(out.tunnel) && Launched(out.tunnel, a, p)
                && out.tunnel.state.exe == sshExecutable
                && RecId(out.tunnel.state) !in old(h.now).used
                && Since(old(h.trace), h.trace, SeeOwnership(a, p.name, out.tunnel.state.remote.value))
      ensures started.Some? ==> FateOfChild(out, a, p.name, started.value, old(h.Did(a)))
      ensures !out.Acquired? ==> h.Grows(p.name) && NoStart(out, started, h.At(p.name).hold.value.ledger)
      ensures started.None? ==> !out.Acquired? && h.Did(a) == old(h.Did(a))
    {
      hide Exec, IsRun, OpenedAt, Effects, Init, Since;
      var unprepared: bool := *;
      if unprepared {
        h.Hear(a, p.name, Raises);
        return AcquireRaised, None;
      }
      ghost var before := h.trace;
      var child, code := h.StartManaged(a, p.name);
      ghost var launched := h.trace;
      started := child;
      if child.None? {
        return Failed(code), started;
      }
      out := TakeUp(a, p, child.value);
      if out.Acquired? {
        SinceGrows(before, launched, h.trace, h.trace, SeeOwnership(a, p.name, out.tunnel.state.remote.value));
      }
    }

    /** From the started child to the recorded tunnel. */
    method TakeUp(a: Agent, p: Profile, id: Identity) returns (out: Acquisition)
      requires h.Valid() && Holds(h.now, a, p.name) && h.now.holds[p.name].pending == Some(id)
      requires h.At(p.name).profile == Some(p) && h.At(p.name).record.None?
      requires id in h.now.origin && h.now.origin[id] == Origin(p.name, a)
      modifies h
      ensures h.Kept(a, p.name) && h.Settled(a, p.name) && h.At(p.name).profile == Some(p)
      ensures out.Acquired? || out.Failed?
      ensures out.Failed? ==>
                && h.At(p.name).record.None? && !Live(h.now, id) && h.Grows(p.name)
                && NoStart(out, Some(id), h.At(p.name).hold.value.ledger)
                && h.Did(a) == if out.code == TunnelStartFailed then old(h.Did(a))
                  else old(h.Did(a)) + [StopChild(a, p.name, id)]
      ensures out.Acquired? ==>
                && fresh(out.tunnel) && Launched(out.tunnel, a, p) && out.tunnel.child == Some(id)
                && out.tunnel.state.exe == sshExecutable
                && h.Did(a) == old(h.Did(a)) + [RecordChild(a, out.tunnel.state)]
                && Since(old(h.trace), h.trace, SeeOwnership(a, p.name, out.tunnel.state.remote.value))
    {
      hide Exec, IsRun, OpenedAt, Effects, Init, Since;
      ghost var before := h.trace;
      var tunnelId: string := *;
      var exited := WaitForStart(a, p.name, id);
      ghost var survived := h.trace;
      if exited {
        return Failed(TunnelStartFailed);
      }
      out := Identify(a, p, id, tunnelId);
      if out.Acquired? {
        SinceGrows(before, survived, h.trace, h.trace, SeeOwnership(a, p.name, out.tunnel.state.remote.value));
      }
    }

    /** Why a child that did not exit by itself was not taken: no identity, another executable, or its remote side. */
    predicate ChildRefused(code: Code, id: Identity, answers: set<Answer>) {
      || (code == ProcessIdentityUnavailable && Unidentified in answers)
      || (code == ProcessIdentityMismatch && id.exe != sshExecutable)
      || (code in {RemoteIdentityUnavailable, RemoteIdentityInvalid, RemoteIdentityMismatch}
          && id.exe == sshExecutable && (NoMarker(code) in answers || NotOurs(code) in answers))
    }

    /** Why the second half of `acquire` ends without a tunnel. */
    predicate NoStart(out: Acquisition, started: Option<Identity>, l: Ledger) {
      match started
      case None =>
        || (out.Failed? && out.code in {ExecutableNotFound, ProcessStartFailed} && NotStarted(out.code) in l.answers)
        || (out == AcquireRaised && Raises in l.answers)
      case Some(id) =>
        out.Failed? && if out.code == TunnelStartFailed then id in l.gone else ChildRefused(out.code, id, l.answers)
    }

    /**
     Which way `acquire` ends is decided by what it saw and was told in this very call: a record
     that matches is adopted; a process is started if and only if the profile's port was seen
     absent and it could be started; a conflict means that the port was found taken.
     */
    ghost predicate Decided(out: Acquisition, started: Option<Identity>, p: Profile, existing: Option<Record>,
                            seen: Ledger) {
      && (existing.Some? ==> (RecId(existing.value) in seen.matched <==> out.Acquired? && started.None?))
      && (existing.None? ==> !(out.Acquired? && started.None?))
      && (started.Some? ==> p.remotePort in seen.absent)
      && (!out.Acquired? ==>
            if p.remotePort in seen.absent then NoStart(out, started, seen)
            else Decides(GiveUp(out), p.remotePort, existing, seen.absent, seen.answers))
    }

    /** What `acquire` may have done with a child: recorded it, stopped it, or found it dead. */
    ghost predicate FateOfChild(out: Acquisition, a: Agent, n: string, id: Identity, before: seq<Action>)
      reads h, if out.Acquired? then {out.tunnel} else {}
    {
      match out
      case Acquired(tunnel) =>
        && tunnel.child == Some(id) && RecId(tunnel.state) == id
        && h.Did(a) == before + [StartChild(a, n, id)] + [RecordChild(a, tunnel.state)]
      case Failed(code) =>
        && !Live(h.now, id)
        && h.Did(a) == before + [StartChild(a, n, id)] + (if code == TunnelStartFailed then []
          else [StopChild(a, n, id)])
      case Conflict(_) => false
      case AcquireRaised => false
    }

    /** The local identity of a child that survived its start, and the check of its executable. */
    method Identify(a: Agent, p: Profile, id: Identity, tunnelId: string) returns (out: Acquisition)
      requires h.Valid() && Holds(h.now, a, p.name) && h.now.holds[p.name].pending == Some(id)
      requires h.At(p.name).profile == Some(p) && h.At(p.name).record.None?
      requires id in h.now.origin && h.now.origin[id] == Origin(p.name, a)
      modifies h
      ensures h.Kept(a, p.name) && h.Settled(a, p.name) && h.At(p.name).profile == Some(p)
      ensures out.Acquired? || out.Failed?
      ensures out.Failed? ==> h.At(p.name).record.None? && out.code != TunnelStartFailed
      ensures out.Failed? ==> !Live(h.now, id) && h.Did(a) == old(h.Did(a)) + [StopChild(a, p.name, id)]
      ensures out.Failed? ==> h.Grows(p.name) && ChildRefused(out.code, id, h.At(p.name).hold.value.ledger.answers)
      ensures out.Acquired? ==>
                && fresh(out.tunnel) && Launched(out.tunnel, a, p) && out.tunnel.child == Some(id)
                && out.tunnel.state.exe == sshExecutable
                && h.Did(a) == old(h.Did(a)) + [RecordChild(a, out.tunnel.state)]
                && Since(old(h.trace), h.trace, SeeOwnership(a, p.name, out.tunnel.state.remote.value))
    {
      hide Exec, IsRun, OpenedAt, Effects, Init;
      ghost var before := h.trace;
      var identity := WaitForIdentity(a, p.name, id);
      ghost var waited := h.trace;
      if identity.None? {
        h.StopManaged(a, p.name, id);
        return Failed(ProcessIdentityUnavailable);
      }
      if identity.value.exe != sshExecutable {
        h.StopManaged(a, p.name, id);
        return Failed(ProcessIdentityMismatch);
      }
      out := Confirm(a, p, identity.value, tunnelId);
      if out.Acquired? {
        SinceGrows(before, waited, h.trace, h.trace, SeeOwnership(a, p.name, out.tunnel.state.remote.value));
      }
    }

    /**
     TunnelManager.acquire. A tunnel that is returned is the stored one. An existing matching
     record is always adopted, never replaced. Whatever way it fails, the process it started is
     dead, and none of this profile is left alive except the one an unchanged record names.
     */
    method Acquire(a: Agent, p: Profile) returns (out: Acquisition, ghost started: Option<Identity>)
      requires h.Settled(a, p.name) && h.At(p.name).profile == Some(p)
      modifies h
      ensures h.Kept(a, p.name) && h.Settled(a, p.name) && h.At(p.name).profile == Some(p)
      ensures h.OnlyRecorded(p.name)
      ensures out.Acquired? ==> fresh(out.tunnel) && out.tunnel.Current(h, a) && out.tunnel.state.name == p.name
      ensures out.Acquired? ==> out.tunnel.child == started
      ensures Decided(out, started, p, old(h.At(p.name)).record, Seen(old(h.trace), h.trace, a, p.name))
      ensures out.Acquired? && started.None? ==>
                old(h.At(p.name)).record == Some(out.tunnel.state) && h.Did(a) == old(h.Did(a))
      ensures out.Failed? && started.Some? ==> !Live(h.now, started.value)
      ensures out.Conflict? || out.AcquireRaised? ==> started.None?
      ensures out.Acquired? && out.tunnel.child.Some? ==>
                && Launched(out.tunnel, a, p) && out.tunnel.state.exe == sshExecutable
                && Since(old(h.trace), h.trace, SeeOwnership(a, p.name, out.tunnel.state.remote.value))
                && Since(old(h.trace), h.trace, RecordChild(a, out.tunnel.state))
                && RecId(out.tunnel.state) !in old(h.now).used
      ensures out.Conflict? ==> h.At(p.name).record == old(h.At(p.name)).record
      ensures out.Failed? || out.AcquireRaised? ==>
                || h.At(p.name).record == old(h.At(p.name)).record
                || (h.At(p.name).record.None? && Since(old(h.trace), h.trace, SeeAbsent(a, p.name, p.remotePort)))
    {
      hide Exec, IsRun, OpenedAt, Effects, Init, Since, Seen;
      started := None;
      ghost var before, existing := h.trace, h.At(p.name).record;
      var prepared, begun := Prepare(a, p);
      ghost var ready := h.trace;
      SeenIs(before, ready, a, p.name);
      match prepared {
        case Adopt(record) =>
          var tunnel := new ActiveTunnel(record, None);
          out := Acquired(tunnel);
        case GiveUp(outcome) =>
          out := outcome;
        case Ready =>
          ghost var midway := h.now;
          out, started := Launch(a, p);
          if existing.Some? {
            h.NeverMatchesAgain(midway, ready, a, p.name, RecId(existing.value));
            SinceSplit(before, ready, h.trace, SeeMatch(a, p.name, RecId(existing.value)));
          }
          SinceGrows(before, before, ready, h.trace, SeeAbsent(a, p.name, p.remotePort));
          if out.Acquired? {
            SinceGrows(before, ready, h.trace, h.trace, SeeOwnership(a, p.name, out.tunnel.state.remote.value));
            EffectSince(ready, h.trace, a, RecordChild(a, out.tunnel.state), |Effects(ready, a)| + 1);
            SinceGrows(before, ready, h.trace, h.trace, RecordChild(a, out.tunnel.state));
          } else {
            h.SeenInCall(before, begun, a, p.name);
          }
          SeenIs(before, h.trace, a, p.name);
      }
      h.SettledMeansOnlyRecorded(a, p.name);
    }

    /** The waiting loop of `verify`: the last answer; `None` when the process exited while the port was free. */
    method AwaitListener(a: Agent, p: Profile, tunnel: ActiveTunnel) returns (listener: Option<Check>)
      requires tunnel.Current(h, a) && tunnel.state.name == p.name && h.At(p.name).profile == Some(p)
      modifies h
      ensures tunnel.Current(h, a) && h.Looked(a, p.name) && h.At(p.name).profile == Some(p)
      ensures h.Grows(p.name)
      ensures listener.Some? ==>
                && ListenerAnswer(listener.value)
                && Since(old(h.trace), h.trace, ListenerSeen(a, p.name, p.remotePort, listener.value))
      ensures listener.None? ==> !Live(h.now, RecId(tunnel.state))
    {
      hide Exec, IsRun, OpenedAt, Effects, Init, Since, Fits;
      ghost var before := h.trace;
      var answer := h.CheckListener(a, p.name, p.remotePort);
      var ticks: nat := *;
      while answer.code == Some(ListenerAbsent) && ticks > 0
        invariant tunnel.Current(h, a) && h.Looked(a, p.name) && h.At(p.name).profile == Some(p)
        invariant h.Grows(p.name)
        invariant ListenerAnswer(answer)
        invariant Since(before, h.trace, ListenerSeen(a, p.name, p.remotePort, answer))
        decreases ticks
      {
        ghost var earlier := h.trace;
        listener := ListenAgain(a, p, tunnel);
        if listener.None? {
          return;
        }
        answer := listener.value;
        SinceEarlier(before, earlier, h.trace, ListenerSeen(a, p.name, p.remotePort, answer));
        ticks := ticks - 1;
      }
      listener := Some(answer);
    }

    /** One round of that loop: has the process exited, and if not, is the listener there now? */
    method ListenAgain(a: Agent, p: Profile, tunnel: ActiveTunnel) returns (listener: Option<Check>)
      requires tunnel.Current(h, a) && tunnel.state.name == p.name && h.At(p.name).profile == Some(p)
      modifies h
      ensures tunnel.Current(h, a) && h.Looked(a, p.name) && h.At(p.name).profile == Some(p)
      ensures h.Grows(p.name)
      ensures listener.Some? ==>
                && ListenerAnswer(listener.value)
                && Since(old(h.trace), h.trace, ListenerSeen(a, p.name, p.remotePort, listener.value))
      ensures listener.None? ==> !Live(h.now, RecId(tunnel.state))
    {
      hide Exec, IsRun, OpenedAt, Effects, Init, Since, Fits;
      ghost var before := h.trace;
      var exited := tunnel.Poll(h, a);
      if exited {
        return None;
      }
      ghost var polled := h.trace;
      var answer := h.CheckListener(a, p.name, p.remotePort);
      SinceEarlier(before, polled, h.trace, ListenerSeen(a, p.name, p.remotePort, answer));
      listener := Some(answer);
    }

    /**
     TunnelManager.verify. The record and the tunnel change together, only in the time of the
     last good probe, and exactly when the listener and the endpoint check passed.
     */
    method Verify(a: Agent, p: Profile, tunnel: ActiveTunnel) returns (out: Verification)
      requires tunnel.Current(h, a) && tunnel.state.name == p.name && h.At(p.name).profile == Some(p)
      modifies h, tunnel
      ensures tunnel.Current(h, a) && h.Kept(a, p.name) && h.At(p.name).profile == Some(p)
      ensures h.Grows(p.name)
      ensures tunnel.state == old(tunnel.state).(probedAt := tunnel.state.probedAt)
      ensures out.Verified? && out.endpoint.Passed() ==> out.listener.Passed() && tunnel.state.probedAt.Some?
      ensures !(out.Verified? && out.endpoint.Passed()) ==> tunnel.state == old(tunnel.state)
      ensures out.Verified? && !out.listener.Passed() ==> out.endpoint == Check(SKIP, None)
      ensures out.Verified? && !out.listener.Passed() ==> out.listener.code.Some?
      ensures out.Verified? && out.listener.Passed() && !out.endpoint.Passed() ==> out.endpoint.code.Some?
      ensures h.Did(a) == if out.Verified? && out.endpoint.Passed() then old(h.Did(a)) + [SaveRecord(a, tunnel.state)]
                else old(h.Did(a))
      ensures VerifiedBy(out, a, p, tunnel, old(h.trace))
    {
      hide Exec, IsRun, OpenedAt, Effects, Init, Since, Fits;
      ghost var before := h.trace;
      var raises: bool := *;
      if raises {
        h.Hear(a, p.name, Raises);
        return VerifyRaised;
      }
      var listener := AwaitListener(a, p, tunnel);
      ghost var awaited := h.trace;
      if listener.None? {
        out := ExplainExit(a, p, tunnel);
        SinceEarlier(before, awaited, h.trace, Saw(a, p.name, ForwardingDenied));
      } else if !listener.value.Passed() {
        out := Verified(listener.value, Check(SKIP, None));
      } else {
        var endpoint := Probe(a, p, tunnel);
        SinceGrows(before, before, awaited, h.trace, ListenerSeen(a, p.name, p.remotePort, listener.value));
        SinceEarlier(before, awaited, h.trace, Saw(a, p.name, Raises));
        SinceEarlier(before, awaited, h.trace, Saw(a, p.name, Endpoint(true)));
        SinceEarlier(before, awaited, h.trace, Saw(a, p.name, Endpoint(false)));
        out := match endpoint
          case None => VerifyRaised
          case Some(e) => Verified(listener.value, e);
      }
    }

    /** The listener is there: check the endpoint, and keep the time of a good probe; `None` is an exception. */
    method Probe(a: Agent, p: Profile, tunnel: ActiveTunnel) returns (endpoint: Option<Check>)
      requires tunnel.Current(h, a) && tunnel.state.name == p.name && h.At(p.name).profile == Some(p)
      modifies h, tunnel
      ensures tunnel.Current(h, a) && h.Kept(a, p.name) && h.At(p.name).profile == Some(p)
      ensures h.Grows(p.name)
      ensures endpoint.Some? ==> endpoint.value in {Check(PASS, None), Check(FAIL, Some(EndpointUnhealthy))}
      ensures tunnel.state == old(tunnel.state).(probedAt := tunnel.state.probedAt)
      ensures if endpoint == Some(Check(PASS, None))
              then tunnel.state.probedAt.Some? && h.Did(a) == old(h.Did(a)) + [SaveRecord(a, tunnel.state)]
              else tunnel.state == old(tunnel.state) && h.Did(a) == old(h.Did(a))
      ensures endpoint.None? ==> Since(old(h.trace), h.trace, Saw(a, p.name, Raises))
      ensures endpoint.Some? ==> Since(old(h.trace), h.trace, Saw(a, p.name, Endpoint(endpoint.value.Passed())))
    {
      hide Exec, IsRun, OpenedAt, Effects, Init, Since, Fits;
      ghost var before := h.trace;
      var ok := CheckEndpoint(a, p.name);
      if ok.None? {
        return None;
      }
      if !ok.value {
        return Some(Check(FAIL, Some(EndpointUnhealthy)));
      }
      ghost var checked := h.trace;
      SaveProbe(a, tunnel);
      SinceGrows(before, before, checked, h.trace, Saw(a, p.name, Endpoint(true)));
      return Some(Check(PASS, None));
    }

    /** The result of `verify` is the answers it got in this call. */
    ghost predicate VerifiedBy(out: Verification, a: Agent, p: Profile, tunnel: ActiveTunnel, before: seq<Action>)
      reads h, tunnel
    {
      match out
      case VerifyRaised => Since(before, h.trace, Saw(a, p.name, Raises))
      case Verified(listener, endpoint) =>
        if listener.code in {Some(TunnelExited), Some(SshForwardingDenied)} then
          && listener.status == FAIL && !Live(h.now, RecId(tunnel.state))
          && (listener.code == Some(SshForwardingDenied) ==>
                tunnel.child.Some? && Since(before, h.trace, Saw(a, p.name, ForwardingDenied)))
        else
          && ListenerAnswer(listener) && Since(before, h.trace, ListenerSeen(a, p.name, p.remotePort, listener))
          && (listener.Passed() ==> Since(before, h.trace, Saw(a, p.name, Endpoint(endpoint.Passed()))))
    }

    /** The process exited while `verify` was waiting: what it had printed decides the code. */
    method ExplainExit(a: Agent, p: Profile, tunnel: ActiveTunnel) returns (out: Verification)
      requires tunnel.Current(h, a) && tunnel.state.name == p.name && h.At(p.name).profile == Some(p)
      requires !Live(h.now, RecId(tunnel.state))
      modifies h
      ensures tunnel.Current(h, a) && h.Looked(a, p.name) && h.At(p.name).profile == Some(p) && h.Grows(p.name)
      ensures !Live(h.now, RecId(tunnel.state))
      ensures out.Verified? && out.endpoint == Check(SKIP, None)
      ensures out.listener == Check(FAIL, Some(SshForwardingDenied)) || out.listener == Check(FAIL, Some(TunnelExited))
      ensures out.listener.code == Some(SshForwardingDenied) ==>
                tunnel.child.Some? && Since(old(h.trace), h.trace, Saw(a, p.name, ForwardingDenied))
    {
      hide Exec, IsRun, OpenedAt, Effects, Init, Since, Fits;
      h.RecordFits(p.name);
      var denied: bool := *;
      if tunnel.child.Some? && denied {
        h.Hear(a, p.name, ForwardingDenied);
        return Verified(Check(FAIL, Some(SshForwardingDenied)), Check(SKIP, None));
      }
      return Verified(Check(FAIL, Some(TunnelExited)), Check(SKIP, None));
    }

    /** RemoteProbeService.check_endpoint; `None` is an exception. */
    method CheckEndpoint(a: Agent, n: string) returns (ok: Option<bool>)
      requires h.Valid() && Holds(h.now, a, n)
      modifies h
      ensures h.Looked(a, n) && h.Within(n)
      ensures var answer := if ok.None? then Raises else Endpoint(ok.value);
              h.At(n) == Told(old(h.At(n)), answer) && Since(old(h.trace), h.trace, Saw(a, n, answer))
    {
      var raises: bool, healthy: bool := *, *;
      ok := if raises then None else Some(healthy);
      h.Hear(a, n, if raises then Raises else Endpoint(healthy));
    }

    /** A good probe: its time is kept in the tunnel and in the store. */
    method SaveProbe(a: Agent, tunnel: ActiveTunnel)
      requires tunnel.Current(h, a)
      modifies h, tunnel
      ensures tunnel.Current(h, a) && h.Kept(a, old(tunnel.state.name)) && h.Grows(old(tunnel.state.name))
      ensures tunnel.state == old(tunnel.state).(probedAt := tunnel.state.probedAt) && tunnel.state.probedAt.Some?
      ensures h.At(tunnel.state.name).profile == old(h.At(tunnel.state.name)).profile
      ensures h.Did(a) == old(h.Did(a)) + [SaveRecord(a, tunnel.state)]
    {
      hide Exec, IsRun, OpenedAt, Effects, Init, Since;
      var now: int := *;
      h.RecordFits(tunnel.state.name);
      tunnel.state := tunnel.state.(probedAt := Some(now));
      h.SaveRuntime(a, tunnel.state);
    }

    /**
     TunnelManager.disconnect. Its callers must have seen the recorded process match in the same
     operation when the record carries a remote identity; otherwise clearing on a mismatch
     would drop evidence.
     */
    method Disconnect(a: Agent, n: string) returns (out: Disconnection)
      requires h.Settled(a, n)
      requires h.At(n).record.Some? && h.At(n).record.value.remote.Some? ==>
                 RecId(h.At(n).record.value) in h.At(n).hold.value.ledger.matched
      modifies h
      ensures h.Kept(a, n) && h.Settled(a, n) && h.At(n).profile == old(h.At(n)).profile
      ensures h.Grows(n)
      ensures out.Disconnected? && out.check.Passed() ==> out.check == Check(PASS, None) && h.At(n).record.None?
      ensures h.At(n).record.None? && old(h.At(n)).record.Some? ==>
                !Live(h.now, RecId(old(h.At(n)).record.value))
      ensures out == Disconnected(Check(FAIL, Some(ProcessStopTimeout))) ==> h.At(n).record == old(h.At(n)).record
      ensures out == Disconnected(Check(FAIL, Some(ProcessIdentityMismatch))) ==> h.At(n).record.None?
      ensures out.Disconnected? && !out.check.Passed() ==>
                out.check.status == FAIL && out.check.code in {Some(ProcessStopTimeout), Some(ProcessIdentityMismatch)}
      ensures out.DisconnectRaised? ==> h.At(n).record == old(h.At(n)).record
      ensures old(h.At(n)).record.Some? ==>
                DisconnectEvidence(out, a, n, RecId(old(h.At(n)).record.value), old(h.trace))
      ensures h.At(n).record == old(h.At(n)).record ==> AtMostASignal(old(h.Did(a)), h.Did(a), a, n)
      ensures out == Disconnected(Check(FAIL, Some(ProcessIdentityMismatch))) ==>
                h.Did(a) == old(h.Did(a)) + [ClearRecord(a, n)]
      ensures old(h.At(n)).record.None? ==> out == Disconnected(Check(PASS, None)) && h.Did(a) == old(h.Did(a))
    {
      hide Exec, IsRun, Since, OpenedAt, Effects, Init;
      ghost var before := h.trace;
      var state := h.LoadRuntime(a, n);
      if state.None? {
        return Disconnected(Check(PASS, None));
      }
      h.RecordFits(n);
      ghost var loaded := h.trace;
      out := DisconnectRecorded(a, n, state.value);
      NotStoppedGrows(before, loaded, h.trace, h.trace, a, n, RecId(state.value),
                      if out.DisconnectRaised? then None else Some(false));
      SinceEarlier(before, loaded, h.trace, SeeMatch(a, n, RecId(state.value)));
      SinceEarlier(before, loaded, h.trace, SeeGone(a, n, RecId(state.value)));
    }

    /** The rest of `disconnect` when there is a record. */
    method DisconnectRecorded(a: Agent, n: string, state: Record) returns (out: Disconnection)
      requires h.Settled(a, n) && h.At(n).record == Some(state) && RecId(state) in h.now.used
      requires state.remote.Some? ==> RecId(state) in h.At(n).hold.value.ledger.matched
      modifies h
      ensures h.Kept(a, n) && h.Settled(a, n) && h.At(n).profile == old(h.At(n)).profile
      ensures h.Grows(n)
      ensures out in {Disconnected(Check(PASS, None)), Disconnected(Check(FAIL, Some(ProcessStopTimeout))),
                      Disconnected(Check(FAIL, Some(ProcessIdentityMismatch))), DisconnectRaised}
      ensures DisconnectEvidence(out, a, n, RecId(state), old(h.trace))
      ensures if out == Disconnected(Check(PASS, None))
                || out == Disconnected(Check(FAIL, Some(ProcessIdentityMismatch)))
              then h.At(n).record.None? && !Live(h.now, RecId(state))
              else h.At(n).record == Some(state) && AtMostASignal(old(h.Did(a)), h.Did(a), a, n)
      ensures out == Disconnected(Check(FAIL, Some(ProcessIdentityMismatch))) ==>
                h.Did(a) == old(h.Did(a)) + [ClearRecord(a, n)]
    {
      hide Exec, IsRun, Since, Init, Fits, Close, Effects, OpenedAt;
      ghost var before := h.trace;
      var matches := h.MatchesRecord(a, n, state);
      ghost var seen := h.trace;
      if !matches {
        h.ClearRuntime(a, n);
        SinceGrows(before, before, seen, h.trace, SeeGone(a, n, RecId(state)));
        return Disconnected(Check(FAIL, Some(ProcessIdentityMismatch)));
      }
      out := TerminateAndClear(a, n, state);
      NotStoppedGrows(before, seen, h.trace, h.trace, a, n, RecId(state),
                      if out.DisconnectRaised? then None else Some(false));
      SinceGrows(before, before, seen, h.trace, SeeMatch(a, n, RecId(state)));
      SinceEarlier(before, seen, h.trace, SeeGone(a, n, RecId(state)));
    }

    /** What `disconnect` saw in this very call, by the way it ended. */
    ghost predicate DisconnectEvidence(out: Disconnection, a: Agent, n: string, id: Identity, before: seq<Action>)
      reads h
      requires n in h.now.holds
    {
      var l := h.now.holds[n].ledger;
      && (out == Disconnected(Check(PASS, None)) ==>
            && id in l.matched && id in l.gone
            && Since(before, h.trace, SeeMatch(a, n, id)) && Since(before, h.trace, SeeGone(a, n, id))
            && h.Did(a) == Effects(before, a) + [Signal(a, n)] + [ClearRecord(a, n)])
      && (out == Disconnected(Check(FAIL, Some(ProcessIdentityMismatch))) ==>
            id in l.gone && Since(before, h.trace, SeeGone(a, n, id)))
      && (out.DisconnectRaised? || out == Disconnected(Check(FAIL, Some(ProcessStopTimeout))) ==>
            && id in l.matched && Since(before, h.trace, SeeMatch(a, n, id))
            && NotStopped(before, h.trace, a, n, id, if out.DisconnectRaised? then None else Some(false)))
    }

    /** The end of `disconnect`: the record goes only after its process was seen to be gone. */
    method TerminateAndClear(a: Agent, n: string, state: Record) returns (out: Disconnection)
      requires h.Settled(a, n) && h.At(n).record == Some(state)
      modifies h
      ensures h.Kept(a, n) && h.Settled(a, n) && h.At(n).profile == old(h.At(n)).profile
      ensures h.Grows(n)
      ensures out in {Disconnected(Check(PASS, None)), Disconnected(Check(FAIL, Some(ProcessStopTimeout))),
                DisconnectRaised}
      ensures h.At(n).record == if out == Disconnected(Check(PASS, None)) then None else Some(state)
      ensures out == Disconnected(Check(PASS, None)) ==>
                && !Live(h.now, RecId(state))
                && RecId(state) in h.At(n).hold.value.ledger.matched && RecId(state) in h.At(n).hold.value.ledger.gone
                && Since(old(h.trace), h.trace, SeeGone(a, n, RecId(state)))
      ensures out == Disconnected(Check(PASS, None)) ==>
                h.Did(a) == old(h.Did(a)) + [Signal(a, n)] + [ClearRecord(a, n)]
      ensures out != Disconnected(Check(PASS, None)) ==>
                && AtMostASignal(old(h.Did(a)), h.Did(a), a, n)
                && NotStopped(old(h.trace), h.trace, a, n, RecId(state),
                              if out.DisconnectRaised? then None else Some(false))
    {
      hide Exec, IsRun, OpenedAt, Effects, Init;
      h.RecordFits(n);
      ghost var before := h.trace;
      var stopped := h.TerminateOwned(a, n, state);
      ghost var seen := h.trace;
      if stopped.None? {
        return DisconnectRaised;
      }
      if !stopped.value {
        return Disconnected(Check(FAIL, Some(ProcessStopTimeout)));
      }
      h.ClearRuntime(a, n);
      SinceGrows(before, before, seen, h.trace, SeeGone(a, n, RecId(state)));
      return Disconnected(Check(PASS, None));
    }
  }

  /** The listener check found somebody on this port. */
  predicate Taken(answers: set<Answer>, port: int) {
    || Occupied(port, Check(PASS, None)) in answers
    || Occupied(port, Check(FAIL, Some(UnsafeRemoteBinding))) in answers
  }

  /** The listener check could not be made for this port. */
  predicate Unchecked(answers: set<Answer>, port: int) {
    Occupied(port, Check(FAIL, Some(RemoteCheckFailed))) in answers
  }

  /** One past the last port that is tried as a suggestion. */
  function LastCandidate(port: int): int {
    if port >= 65536 then port + 1 else if port + 21 < 65536 then port + 21 else 65536
  }

  /** All ports after `port` and before `k` are taken. */
  predicate AllTaken(answers: set<Answer>, port: int, k: int) {
    forall q | port < q < k :: Taken(answers, q)
  }

  lemma AllStayTaken(before: set<Answer>, after: set<Answer>, port: int, k: int)
    requires AllTaken(before, port, k) && before <= after
    ensures AllTaken(after, port, k)
  {
    forall q | port < q < k ensures Taken(after, q) {
      assert Taken(before, q);
    }
  }

  /** The suggestion is the first candidate seen absent; without one all were taken, or one could not be checked. */
  ghost predicate FirstFree(port: int, suggestion: Option<int>, absent: set<int>, answers: set<Answer>) {
    match suggestion
    case Some(q) =>
      port < q <= port + 20 && q < 65536 && q in absent && AllTaken(answers, port, q)
    case None =>
      exists k | port < k <= LastCandidate(port) ::
        AllTaken(answers, port, k) && (k < LastCandidate(port) ==> Unchecked(answers, k))
  }

  /** Only listener checks were made. */
  ghost predicate OnlyListened(before: Slot, after: Slot) {
    && before.hold.Some? && after.hold.Some?
    && before.hold.value.ledger.matched == after.hold.value.ledger.matched
    && (Raises in after.hold.value.ledger.answers ==> Raises in before.hold.value.ledger.answers)
  }

  /** How the answers of an operation decide the first half of `acquire`. */
  ghost predicate Decides(out: Preparation, port: int, existing: Option<Record>, absent: set<int>,
                          answers: set<Answer>) {
    && (out.Ready? <==> port in absent)
    && (out == GiveUp(AcquireRaised) <==> Raises in answers)
    && (out.GiveUp? && out.outcome.Conflict? ==>
          && Taken(answers, port)
          && if existing.Some? then out.outcome.suggestion.None?
             else FirstFree(port, out.outcome.suggestion, absent, answers))
    && (out.GiveUp? && out.outcome.Failed? ==>
          out.outcome.code == RemoteCheckFailed && Unchecked(answers, port) && !Taken(answers, port))
  }

  /** An attempt to stop that changed nothing in the store. */
  ghost predicate AtMostASignal(before: seq<Action>, after: seq<Action>, a: Agent, n: string) {
    after == before || after == before + [Signal(a, n)]
  }
}
