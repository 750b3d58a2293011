# Remote AI Bridge: ownership protocol and managed setup, verified in Dafny

Remote AI Bridge (RAB) keeps an SSH reverse tunnel open for each profile and records, in a store
shared by all its processes, which SSH process it started. It can also set a remote host up by
itself: trust the host key, make a key pair, and put the public key into the remote
`authorized_keys`. This project models both parts and proves what they promise together, across
files. Check it with `dafny verify dfyconfig.toml`.

## How the model is laid out

**The tunnel ownership protocol.** `Ownership.dfy` is one state machine: profiles, records, file
locks, the process table, and what each lock holder has observed. Its actions are single effects
of any number of agents (managers, supervisors, command line processes) and of the environment;
`Enabled` is the rule each effect obeys. `OwnershipTheorems.dfy` proves what every interleaving
keeps: no orphaned tunnel, no foreign process signalled, no evidence dropped early, stable
profiles under the lock, managed profiles never deleted. `Host.dfy` is the same machine as a
mutable object: each of its methods first lets all other agents run (`Interfere`), then performs
one enabled action. `Tunnel.dfy`, `ProfileService.dfy`, `Supervisor.dfy` and `RuntimeManager.dfy`
are the services as imperative code over it; because every effect goes through `Host.Do`,
verifying them shows that the code obeys the rules, and the theorems then hold for everything they
do. The rules are therefore obligations on the code, not assumptions about it: for example
`ClearRuntime` has to be called with proof that the record's process is dead and that the evidence
rule is met. What a lock holder has observed is forgotten when an operation begins
(`BeginOperation`, at the start of an acquire, a cleanup, a stop and a release) and when a new
child is recorded, so evidence always comes from the operation that uses it. Whatever the system
or a server answers, and does not show in the state of the machine, the holder writes down as an
action of its own (`Saw`). So contracts say which way an operation ends by what it saw and was
told in that very call: see `Decided`, `VerifiedBy`, `Resolved` and `NotStopped`.

`SupervisorLog.dfy` says what a supervisor run may show (an honest log) and what follows from it:
exact snapshots, the backoff trace, one final snapshot, at most one long operation after a stop,
and what automatic reconnect decides: a failed operation is retried with it and ends the run
without it, port conflicts apart. A supervisor keeps, beside its log, how many actions the machine
had done at each event, so that what a snapshot is said to have found, and how an operation is
said to have ended, is tied to the machine. `Cleanup.dfy` says when a failed cleanup keeps the
record. `Registry.dfy` is the worker registry of a manager, again as a state machine with any
number of callers.

**Managed setup.** `Text.dfy` has Python's `splitlines`, `strip`, `split` and `join`;
`AuthorizedKeys.dfy` the text round trip; `HostKeys.dfy`, `KeyStore.dfy` and `RemoteHome.dfy` the
three stores as classes; `Setup.dfy` the transaction with its compensation, where every step may
fail, with a RABError or with another exception, and which says exactly when a setup succeeds;
`Credentials.dfy` what stays true over any history of setups, updates and deletes on any number of
accounts. `Marker.dfy` prints and parses the remote identity marker and compares Python's lookup
with that of the cleanup script.

## What the model takes for granted

- Two processes with one pid and one executable are created at least 0.1 seconds apart, and the
  system does not reuse the pid of a child that is not reaped yet.
- The check and the signal in `terminate_owned` are one step, and a process stopped through
  `ManagedProcess.stop` is dead afterwards.
- A store write or a file effect happens or raises; writes in the tunnel protocol succeed. `mkdir`
  followed by `chmod` is one effect, and clean-ups whose errors are swallowed succeed.
- Releasing a profile lock does not raise (app/infrastructure/profile_store.py:104-107).
- `ProcessRunner.run` reports a failure as a result and the process inspector answers `None`, so
  the probes of `acquire` after the child was started do not raise. Inspecting the proxy,
  acquiring up to that start, verifying, stopping and reading during a shutdown may raise.
- The stop event is set by someone else just before event number `stopAt` of the log, an arbitrary
  number; time limits and poll counts are arbitrary.
- A server host key is not empty. `ssh-keygen` writes `ssh-ed25519`, a base64 body and the comment
  on one line, under an id no other key file has.
- Setups run one at a time, and nobody else edits the stores while one runs. A host, user and port
  lead to the same account over time; several may lead to the same account.
- Verdicts of the text grammars (names, targets, URLs, IP addresses) that the properties do not
  depend on are inputs.

## Results to note

- `authorized_keys`: install then remove is the identity up to a missing final newline exactly for
  text whose only line boundary is "\n" and that is not a lone newline (`RoundTripExactly`;
  `TextsThatChange` gives two that change). For all other text the non-blank lines still come back
  (`RoundTripKeepsNonBlank`).
- The marker: `RemoteTunnelIdentity.validate` accepts an `SSH_CONNECTION` value with a line
  boundary between its words. Such an identity does not survive printing and reading; all others
  do (`MarkerRoundTrip`; `SpaceSurvivesNewlineDoesNot` gives one of each).
- The marker lookup of the cleanup script puts the key into a regular expression. For keys with a
  dot it disagrees with Python's lookup on some text (`DotMatchesAnything`); for keys without
  pattern characters, which all keys in use are, it never does on text without NUL characters
  (`LookupsAgreeExactly`). A NUL in the value is dropped by the shell and kept by Python
  (`NulIsDropped`); `LookupsAgree` and `CheckedIsParsed` say exactly when it matters.
- `_cleanup_active` without an active tunnel can lose the record while it reports FAILED: when the
  process dies between its own check and the one in `disconnect`
  (app/services/tunnel_supervisor.py:320-328, app/services/tunnel.py:240-241). `LosingRunLoses` is
  such a run from any state with a live process. With an active tunnel, or when the process is
  already dead at the start, the record is always kept; `RecordKeptExactly` is the equivalence.
  `RuntimeManager` puts the record back in the same situation (`StopHeld`).
- A setup can fail with a code other than SETUP_ROLLBACK_FAILED and leave something. When reading
  `authorized_keys` after creating `~/.ssh` ends in an exception that is not a RABError (`lstat`
  guards against OSError only, app/infrastructure/ssh_bootstrap.py:319-324, and the directory is
  removed on RABError only, lines 141-149), the directory stays. When testing a just generated
  pair for links does (app/infrastructure/ssh_key_store.py:134-145), its files stay. Nothing else
  ever does: `SetupManagedProfile` states the equivalence, `SafeSetupsRestore` the condition a
  caller can check before, `LeavingIsPossible` the answers that lead there.
- A reused public key file whose type and body are separated by an ASCII line boundary is
  accepted, but installing it does not list the key (`ListsItselfExactly`, `ListedExactly`).
- PROFILE_DELETE_RUNTIME_REMAINS (app/services/profile_service.py:141-148) cannot happen: the
  record is gone by then, since only the lock holder writes.

## Model

| member | source | states |
|---|---|---|
| OwnershipTheorems.RunKeepsInv | app/services/tunnel.py:114-190 | In every state reachable by any interleaving of any number of agents and of the environment: each live SSH process RAB started is the recorded one or the child of an acquire in progress, each record has a profile with its port, and pids are unambiguous |
| OwnershipTheorems.StepKeepsInv | app/services/tunnel.py:114-190 | One enabled action of any agent or of the environment keeps that invariant |
| OwnershipTheorems.AtMostOneLive | app/services/tunnel.py:114-190 | Over any run, two live processes RAB started for one profile are the same process, and it is accounted for |
| OwnershipTheorems.RecordMatchesProfile | app/services/profile_service.py:88-100 | Over any run, a stored record's profile exists and has the record's remote port |
| OwnershipTheorems.MatchesIsLive | app/infrastructure/process_identity.py:27-33 | For a stored record, the pid, executable and creation-time test holds exactly when that very process is alive |
| OwnershipTheorems.SignalSafety | app/infrastructure/process_identity.py:38-51 | Over any run, every process ever signalled was started by RAB for that profile, and either by the signalling agent or named by the stored record at that moment |
| OwnershipTheorems.ForeignNeverSignalled | app/infrastructure/process_identity.py:27-51 | A process RAB did not start is never signalled later, even when it reuses a recorded pid |
| OwnershipTheorems.OnlyTheHolderWrites | app/infrastructure/profile_store.py:86-107 | An action that changes a profile or record is one of the agent that holds that name's lock |
| OwnershipTheorems.OthersKeepWhatIHold | app/infrastructure/profile_store.py:86-107 | While an agent holds locks, any run of all the others leaves the profiles, records and holds under them unchanged |
| OwnershipTheorems.OthersKeepSlot | app/services/tunnel_supervisor.py:59-68 | The same for one name: profile stability while a supervisor holds the lock |
| OwnershipTheorems.RunIsOlder | app/infrastructure/process_identity.py:14-18 | Over any run a used process identity is never reused, the dead stay dead, and who started a process never changes |
| OwnershipTheorems.LedgerMeaning | app/infrastructure/profile_store.py:86-107 | What a lock holder is credited with having observed and been told is exactly what it observed and was told since its current operation began, that is since the lock, a new operation or the recording of a child |
| OwnershipTheorems.VerifiedIsLatest | app/services/tunnel.py:122-124 | A remote session counts as verified only while that verification is the latest observation of the profile |
| OwnershipTheorems.EarlierSightsDoNotCount | app/services/tunnel.py:189-190 | Nothing seen before a child was recorded, or in an earlier operation, ever justifies dropping a record with a remote identity |
| OwnershipTheorems.OnlyClearDropsARecord | app/infrastructure/profile_store.py:79-84 | A record disappears only through its lock holder's clear, and only when its process is dead and, with a remote identity, was seen to match and then gone, or its port free, in the current operation |
| OwnershipTheorems.AliveThenGone | app/infrastructure/process_identity.py:38-51 | One process seen both alive and gone was seen alive first |
| OwnershipTheorems.EvidenceNeverDroppedEarly | app/services/tunnel.py:236-252 | Whenever a record with a remote identity disappears, its process is dead, and within the very operation that removed it, after the record was first saved, the remover either saw the process match and later saw it gone, or saw its port free |
| OwnershipTheorems.RemoteKillSafety | app/services/tunnel.py:122-124 | A remote session is terminated only when the agent's latest observation of that profile, in the same operation, was that the session is ours |
| OwnershipTheorems.ManagedPartStays | app/services/profile_service.py:112-117 | Over any run a managed profile is never deleted, and its managed part never changes |
| Hosts.Host.Do | app/infrastructure/profile_store.py:69-84 | One effect: the state is the protocol's next state and the trace stays a run |
| Hosts.Host.Interfere | app/infrastructure/profile_store.py:86-107 | Any run of all the others keeps what this agent holds, gives it no lock and adds no action of its own |
| Hosts.Host.TryLock | app/infrastructure/profile_store.py:86-107 | Success, with nothing observed yet, exactly when nobody had the lock at that moment; a busy lock changes nothing of this agent |
| Hosts.Host.Release | app/infrastructure/profile_store.py:86-107 | The lock is given back; profile and record are as they were |
| Hosts.Host.LoadProfile | app/infrastructure/profile_store.py:41-45 | The profile stored now, whatever the others did meanwhile |
| Hosts.Host.LoadRuntime | app/infrastructure/profile_store.py:73-77 | The record stored now, whatever the others did meanwhile |
| Hosts.Host.CreateProfile | app/infrastructure/profile_store.py:34-39 | Under the lock and under a free name: the profile is stored, nothing else moves |
| Hosts.Host.UpdateProfile | app/infrastructure/profile_store.py:50-55 | Under the lock, without a record and with the same managed part: the profile is replaced, nothing else moves |
| Hosts.Host.RemoveProfile | app/infrastructure/profile_store.py:57-62 | Under the lock, for a stored legacy profile without a record: the profile is gone, nothing else moves |
| Hosts.Host.BeginOperation | app/services/tunnel.py:114-115 | From here on only new observations count; nothing else changes |
| Hosts.Host.SeenInOperation | app/services/tunnel.py:236-252 | What is noted in the current operation is exactly what was observed and answered after it began |
| Hosts.Host.SeenInCall | app/services/tunnel.py:114-142 | When an operation began in a call, what it has noted is exactly what was seen and answered in that call |
| Hosts.Host.NeverMatchesAgain | app/infrastructure/process_identity.py:27-33 | A process that is dead is never seen to match later |
| Hosts.Host.RecordChild | app/services/tunnel.py:185-190 | The first record of a child: only right after its session was verified; the child is no longer pending, and nothing seen before counts any more |
| Hosts.Host.SaveRuntime | app/infrastructure/profile_store.py:69-71 | A stored record changes only in its probe time, or a removed one is put back |
| Hosts.Host.ClearRuntime | app/infrastructure/profile_store.py:79-84 | The record is gone; allowed only when the evidence rule is met |
| Hosts.Host.MatchesRecord | app/infrastructure/process_identity.py:27-33 | Yes exactly when the recorded process is alive; noted as seen to match or as seen gone |
| Hosts.Host.TerminateOwned | app/infrastructure/process_identity.py:38-51 | Signals only a match; success means one signal, seen to match, then seen gone, and dead; any other answer says why: no match, a refusal or an exception and no signal, or a signal after which it did not exit in time |
| Hosts.Host.TrySignal | app/infrastructure/process_identity.py:41-45 | In one step with the check: exactly one signal, or a refusal or an exception and none |
| Hosts.Host.WaitForExit | app/infrastructure/process_identity.py:46-51 | The polling loop: true only when the process is dead and seen gone, false is written down as not in time |
| Hosts.Host.StartManaged | app/infrastructure/process_runner.py:127-153 | At most one child is started, with an identity never used before, by this agent for this profile; otherwise the code says why and is written down |
| Hosts.Host.PollChild | app/infrastructure/process_runner.py:43-44 | Exited exactly when dead, and then noted; otherwise nothing changes |
| Hosts.Host.StopManaged | app/infrastructure/process_runner.py:46-63 | The child is dead afterwards, and exactly one stop was issued |
| Hosts.Host.ChildIdentity | app/infrastructure/process_identity.py:22-25 | An identity read for an unreaped child's pid is the child's own |
| Hosts.Host.CheckListener | app/services/remote_probe.py:42-68 | One of the four answers, written down for exactly that port |
| Hosts.Host.VerifyOwnership | app/services/remote_probe.py:162-170 | Passing needs a remote identity and is noted for exactly that identity; a failure is written down with its code |
| Hosts.Host.TerminateStaleSession | app/services/remote_probe.py:172-180 | Only a verified session is terminated, exactly once; how it went is written down; the store is unchanged |
| Tunnels.ActiveTunnel.Poll | app/services/tunnel.py:74-77 | Exited exactly when the tunnel's process is dead; the tunnel stays the stored one; no effect |
| Tunnels.ActiveTunnel.Stop | app/services/tunnel.py:79-85 | True means the process is dead and was seen gone; anything else needs an adopted tunnel and says why it was not stopped; the record stays in any case |
| Tunnels.TunnelManager.FindFreePort | app/services/remote_probe.py:200-207 | A suggestion is the first of the next twenty valid ports seen absent, all before it taken; no suggestion means all were taken or one could not be checked |
| Tunnels.TunnelManager.ReleaseStaleSession | app/services/tunnel.py:121-135 | The record goes exactly when the stale session was verified, terminated, and the port then seen absent; otherwise one of these three failed, and nothing more was done |
| Tunnels.TunnelManager.EndStaleSession | app/services/tunnel.py:124-131 | After the verification: one termination, and the record goes exactly when the port was seen absent after it |
| Tunnels.TunnelManager.FreePort | app/services/tunnel.py:119-140 | Going on exactly when the port was seen absent, a conflict only when it was found taken, another failure only when it could not be checked; a suggestion only without a record; giving up leaves the record |
| Tunnels.TunnelManager.Contend | app/services/tunnel.py:120-138 | A taken port: freed exactly when it was our own stale session and was then seen absent, otherwise a conflict, with a suggestion exactly when there is no record |
| Tunnels.TunnelManager.Prepare | app/services/tunnel.py:114-142 | Which way it goes is decided by what was seen and answered in this very call: a record is adopted exactly when its process was seen to match, it goes on exactly when the port was seen absent, and then no record is left; an exception exactly when one was answered |
| Tunnels.TunnelManager.LookUp | app/services/tunnel.py:115-117 | The stored record, unchanged; it matches exactly when its process was seen alive, and otherwise its process was seen gone |
| Tunnels.TunnelManager.Examine | app/services/tunnel.py:114-142 | The same in terms of what is noted in the current operation |
| Tunnels.TunnelManager.WaitForStart | app/infrastructure/process_runner.py:155-162 | An early exit means the child is dead; otherwise nothing changed |
| Tunnels.TunnelManager.WaitForIdentity | app/services/tunnel.py:254-261 | An identity found is the child's; none is written down |
| Tunnels.TunnelManager.Identify | app/services/tunnel.py:153-160 | Failure leaves the child stopped and dead and no record, and its code is what was found: no identity, another executable, or a remote side that was not there or not ours; success is recorded, runs the configured executable |
| Tunnels.TunnelManager.Confirm | app/services/tunnel.py:162-190 | Only a remote identity verified in this call is recorded, with exactly this process, tunnel id and port; every failure stops the child and carries the code it was answered |
| Tunnels.TunnelManager.RecordVerified | app/services/tunnel.py:185-190 | The record is saved exactly when its remote session was verified in this call; otherwise the child is stopped and the code is the one answered |
| Tunnels.TunnelManager.Launch | app/services/tunnel.py:142-190 | Its effects are exactly: start and record, start and stop, start one that exits itself, or nothing; without a tunnel the answers say why: see NoStart |
| Tunnels.TunnelManager.TakeUp | app/services/tunnel.py:147-190 | A started child is recorded, or found dead, or stopped for what was found |
| Tunnels.TunnelManager.Acquire | app/services/tunnel.py:114-190 | Which way it ends is decided by what it saw and was told in this very call: a stored record is adopted, untouched, if and only if its process was seen to match; a process is started only if the port was seen absent, and if it was seen absent there is a process, a tunnel, or an answer that says why not; a conflict means that the port was found taken. A returned tunnel is the stored one; every failure leaves the started process dead and no live process of the profile but the recorded one; a conflict leaves the record; another exception comes before a process is started |
| Tunnels.TunnelManager.AwaitListener | app/services/tunnel.py:192-213 | The waiting loop ends with an answer of the listener check in this call, or because the process is dead |
| Tunnels.TunnelManager.Verify | app/services/tunnel.py:192-226 | Record and tunnel change together, only in the probe time, and exactly when both checks passed in this call; every result is the answers it got in this call, or a dead process; an exception leaves both as they were |
| Tunnels.TunnelManager.Probe | app/services/tunnel.py:215-226 | The endpoint check: the probe time is saved exactly when it passed |
| Tunnels.TunnelManager.Disconnect | app/services/tunnel.py:236-252 | Pass: seen to match, signalled once, then gone in this call, record removed. Mismatch: seen gone in this call, record removed, no signal. Timeout or exception: seen to match in this call, record kept, and the attempt failed: a signal that did not end it in time, a refusal, an exception, or no match at the second check |
| Tunnels.TunnelManager.DisconnectRecorded | app/services/tunnel.py:240-252 | The same for the record that was loaded |
| Tunnels.TunnelManager.TerminateAndClear | app/services/tunnel.py:247-252 | The record goes exactly when the process was signalled and seen gone; otherwise why it was not stopped |
| ProfileServices.ProfileService.Create | app/services/profile_service.py:49-60 | Invalid exactly for an invalid profile; otherwise busy exactly when somebody had the lock at that moment, exists exactly when the name was taken, and success stores exactly this profile; every failure has no effect, and the lock is given back |
| ProfileServices.ProfileService.Update | app/services/profile_service.py:77-106 | Each outcome exactly when it should be, by the request and by what was stored when it asked for the lock: empty, a field that cannot change, busy, not found, in use, invalid; otherwise the stored profile is the one in which each requested field has its requested value and everything else, name and managed part included, its old one; every failure has no effect, and the lock is given back |
| ProfileServices.ProfileService.UpdateLocked | app/services/profile_service.py:88-100 | Under the lock: a record refuses the update; otherwise the requested profile is stored exactly when it is valid |
| ProfileServices.RequestedExactly | app/services/profile_service.py:97-97 | The replaced profile is the one and only profile that has each requested field as requested and everything else as it was |
| ProfileServices.ProfileService.Delete | app/services/profile_service.py:108-154 | Busy, not found and managed exactly when the store says so at the moment of asking; success leaves neither profile nor record and says whether there was one; another failure needs a record, changes nothing in the store and signals at most once; the lock is given back |
| ProfileServices.ProfileService.DeleteLegacy | app/services/profile_service.py:118-150 | Under the lock, for a legacy profile: success leaves neither profile nor record, failure leaves both as they were |
| ProfileServices.ProfileService.DropRuntime | app/services/profile_service.py:118-148 | Success: no record, and the recorded process is dead; failure: the record is kept; a stale record is dropped only without remote identity |
| ProfileServices.ProfileService.DropLegacyRuntime | app/services/profile_service.py:124-139 | The record goes exactly on success; success saw the process gone, failure saw it match |
| ProfileServices.ProfileService.StopOwnedAndConfirmRemoteRelease | app/services/profile_service.py:156-181 | Which way it ends is decided by what it saw and was told in this call: the record goes only after it was seen to match, then gone, and after that its port absent; stop failed means it matched and the attempt failed; unresolved means it was seen gone and no release was seen |
| ProfileServices.ProfileService.StopOwned | app/services/profile_service.py:156-181 | The same in terms of what is noted in the current operation |
| ProfileServices.ProfileService.StopMatched | app/services/profile_service.py:160-181 | After a match: success saw the process gone and after that the port absent; a failure keeps the record after at most one signal and says why |
| ProfileServices.ProfileService.ConfirmRemoteRelease | app/services/profile_service.py:171-181 | Once the process is dead, the record goes exactly when the port is seen absent; otherwise the port was found taken or could not be checked |
| ProfileServices.ProfileService.ExplainFailedStop | app/services/profile_service.py:161-169 | A failed stop is reported as failed when the process still matches and as unresolved when it is gone |
| SupervisorLogs.Describe | app/services/tunnel_supervisor.py:331-363 | A snapshot shows exactly the record's presence, pid, tunnel, port and probe time |
| SupervisorLogs.Append | app/services/tunnel_supervisor.py:331-363 | A truthful event keeps the log honest and open, or ends it |
| SupervisorLogs.LogHoldsAppend | app/services/tunnel_supervisor.py:343-362 | A publication of what the store holds now, or an operation that ended as the machine says, keeps the whole log about what really was |
| SupervisorLogs.LogHoldsLater | app/services/tunnel_supervisor.py:343-362 | What a log says about earlier moments stays true as the machine goes on |
| SupervisorLogs.SnapshotsAreExact | app/services/tunnel_supervisor.py:331-363 | Every snapshot of a run shows exactly the record that the store held at that moment of the machine's trace, and STOPPED means it held none |
| SupervisorLogs.ReadyWasVerified | app/services/tunnel_supervisor.py:191-242 | READY is published only right after a verification, while the store holds a record with a good probe, and shows that record |
| SupervisorLogs.InspectedFirst | app/services/tunnel_supervisor.py:116-157 | No tunnel is acquired in a round whose local proxy was not inspected first |
| SupervisorLogs.FinalIsLast | app/services/tunnel_supervisor.py:56-76 | Nothing follows a STOPPED or FAILED snapshot |
| SupervisorLogs.BackoffTrace | app/services/tunnel_supervisor.py:365-366 | The n-th DEGRADED snapshot since the last READY has attempt n and the n-th delay of the policy, or its last one; always in bounds |
| SupervisorLogs.StreakCounts | app/services/tunnel_supervisor.py:91-243 | The DEGRADED snapshots since the last READY are as many as the attempt counter says |
| SupervisorLogs.NoSecondBegin | app/services/tunnel_supervisor.py:147-189 | Two long operations begun after a position are counted as two, so the bound of one is about positions in the log |
| SupervisorLogs.NothingIsRetried | app/services/tunnel_supervisor.py:108-114 | Without automatic reconnect a DEGRADED snapshot is directly followed by the final FAILED with its code, and a failed operation by the end of the run; a failed acquire ends it with its own code |
| SupervisorLogs.FailuresAreRetried | app/services/tunnel_supervisor.py:174-188 | With automatic reconnect every failed operation but a port conflict is directly followed by DEGRADED with its own code and then by the question whether to stop |
| SupervisorLogs.FailsOnlyFor | app/services/tunnel_supervisor.py:85-266 | With automatic reconnect a run ends FAILED only after a port conflict, while it stops, after an exception, or because the profile was busy or unknown |
| SupervisorLogs.ConflictIsFinal | app/services/tunnel_supervisor.py:158-165 | A port conflict ends the run with that code and its suggestion, with or without automatic reconnect |
| SupervisorLogs.YesIsTheEnd | app/services/tunnel_supervisor.py:90-90 | The first question after the stop event is answered with yes, and only STOPPING and the final snapshot follow |
| SupervisorLogs.PolicyHolds | app/services/tunnel_supervisor.py:85-266 | Every ended run keeps the policy of its profile on automatic reconnect: the three statements above together |
| Supervisors.TunnelSupervisor.Publish | app/services/tunnel_supervisor.py:331-363 | Appends one snapshot of exactly the stored record, only where its phase and code may follow; STOPPED only without a record, READY only after verification, DEGRADED only with the next attempt and delay |
| Supervisors.TunnelSupervisor.Ask | app/services/tunnel_supervisor.py:90-114 | The answer is yes exactly from the stop on |
| Supervisors.TunnelSupervisor.End | app/services/tunnel_supervisor.py:116-195 | A long operation ends in the log as the machine says |
| Supervisors.TunnelSupervisor.Tell | app/services/tunnel_supervisor.py:331-363 | The same under the lock: the record does not move and nothing is signalled |
| Supervisors.TunnelSupervisor.CleanupActive | app/services/tunnel_supervisor.py:296-329 | Success: in this call seen to match, then gone, no record. Mismatch: seen gone. Otherwise the record is kept, unless there is no active tunnel and the process died between the two checks; what a failure may have done is exactly FailedCleanup |
| Supervisors.TunnelSupervisor.StopStored | app/services/tunnel_supervisor.py:317-329 | The branch without an active tunnel, in terms of what is noted in the current operation |
| Supervisors.TunnelSupervisor.StopActive | app/services/tunnel_supervisor.py:301-315 | With an active tunnel every failure keeps the record; success saw the process match and then gone |
| Cleanups.RecordKeptExactly | app/services/tunnel_supervisor.py:296-329 | From each state with a record under the lock: a failed cleanup leaves the record exactly as it was in every environment if and only if there is an active tunnel or the recorded process is already dead when it begins |
| Cleanups.LosingRunLoses | app/services/tunnel_supervisor.py:320-328 | From every state with a live recorded process, a run that loses the record without an active tunnel: seen to match, exits, seen gone, cleared as a mismatch |
| Cleanups.HarmlessEffectsKeep | app/services/tunnel_supervisor.py:301-315 | An agent that at most signals or stops its child keeps the record under its lock, whatever all the others do |
| Supervisors.TunnelSupervisor.NoticeExit | app/services/tunnel_supervisor.py:91-114 | A tunnel is let go of only when its process is dead, and kept only when it is alive; nothing is signalled or cleared |
| Supervisors.TunnelSupervisor.ReportExit | app/services/tunnel_supervisor.py:93-114 | An exit is reported with the next attempt; the run ends exactly when automatic reconnect is off |
| Supervisors.TunnelSupervisor.CheckLocalProxy | app/services/tunnel_supervisor.py:116-148 | A failed inspection is reported and retried with automatic reconnect, with no effect on process or store, and ends the run without; going on means that it passed and no stop was asked |
| Supervisors.TunnelSupervisor.InspectProxy | app/services/tunnel_supervisor.py:116-117 | The result in the log is the answer that was written down |
| Supervisors.TunnelSupervisor.GiveUpUnhealthy | app/services/tunnel_supervisor.py:120-131 | Without automatic reconnect the run ends FAILED with the failed check's code and the tunnel's record gone, or with the cleanup's code and the record kept, or raises with the tunnel still held |
| Supervisors.TunnelSupervisor.Degrade | app/services/tunnel_supervisor.py:132-145 | One DEGRADED snapshot with this code and the next attempt and delay, then a wait; no effect on process or store |
| Supervisors.TunnelSupervisor.RetryLater | app/services/tunnel_supervisor.py:166-186 | A failed acquire ends the run with its code exactly without automatic reconnect, and is otherwise reported and retried after the next delay |
| Supervisors.TunnelSupervisor.Attempt | app/services/tunnel_supervisor.py:150-157 | One acquire announced by CONNECTING, in the log with its result; an acquired tunnel is the stored one, and the result is decided by what was seen and told while it ran |
| Supervisors.TunnelSupervisor.Connect | app/services/tunnel_supervisor.py:150-189 | Going on means there is a tunnel and no stop was asked; a tunnel there was is kept; an exception out of acquire leaves no tunnel held |
| Supervisors.TunnelSupervisor.CheckHealth | app/services/tunnel_supervisor.py:191-244 | READY exactly after a verification that passed, and resets the counters; otherwise as Unhealthy; the tunnel is let go of only when dead |
| Supervisors.TunnelSupervisor.Health | app/services/tunnel_supervisor.py:191-196 | The result in the log is that of the verification: fine exactly when it saved a probe |
| Supervisors.TunnelSupervisor.Unhealthy | app/services/tunnel_supervisor.py:196-233 | With automatic reconnect a failed health check is reported and retried, never signals a process or touches the store, and a live tunnel is kept; without it the run ends |
| Supervisors.TunnelSupervisor.Abandon | app/services/tunnel_supervisor.py:203-219 | Without automatic reconnect the run ends FAILED with the failed check's code and the record gone, or with the cleanup's code and the record kept, or raises with the tunnel still held |
| Supervisors.TunnelSupervisor.Round | app/services/tunnel_supervisor.py:90-244 | One round keeps the loop invariant: active tunnel is the stored record, counters equal the DEGRADED count |
| Supervisors.TunnelSupervisor.Stop | app/services/tunnel_supervisor.py:268-278 | STOPPED means no record is left; FAILED with an active tunnel keeps its record |
| Supervisors.TunnelSupervisor.HandleException | app/services/tunnel_supervisor.py:247-266 | An exception ends the run FAILED; with an active tunnel either it was stopped and its record cleared, or the cleanup's error is shown and the record kept |
| Supervisors.TunnelSupervisor.Finish | app/services/tunnel_supervisor.py:246-266 | After the loop: one final snapshot, or an exception out of the handler; STOPPED means no record |
| Supervisors.TunnelSupervisor.RunLocked | app/services/tunnel_supervisor.py:85-278 | The whole loop, for any moment of the stop: it ends with one final snapshot, or raises out of the handler without one |
| Supervisors.TunnelSupervisor.Supervise | app/services/tunnel_supervisor.py:59-68 | Under the lock every snapshot found the supervised profile unchanged in the store; it is the one that was stored, and without one the run ends with PROFILE_NOT_FOUND |
| Supervisors.TunnelSupervisor.Run | app/services/tunnel_supervisor.py:56-76 | For any environment and any moment of the stop: an honest log about what the store really held at each publication, exactly one final snapshot at its end, at most one long operation begun after the stop; busy exactly when somebody had the lock, not found exactly when no profile was stored, and otherwise the run of the stored profile, with its policy on automatic reconnect; every snapshot under the lock found that profile, the final one too unless the handler of the locked part raised; STOPPED leaves no record and no live process; the lock is given back |
| Registries.RegStepKeepsInv | app/services/runtime_manager.py:73-121 | One critical section or worker end keeps the registry invariant |
| Registries.StepKeepsRegistered | app/services/runtime_manager.py:77-95 | One step keeps every unfinished worker registered under its name |
| Registries.StepKeepsAsked | app/services/runtime_manager.py:167-173 | One step keeps every unfinished worker asked to stop once the manager is closed |
| Registries.RegRunKeepsInv | app/services/runtime_manager.py:73-95 | Over any interleaving: every unfinished worker is the registered one of its name; after the close every unfinished worker is asked to stop; a name is stopping exactly while one caller stops it |
| Registries.OneWorkerPerName | app/services/runtime_manager.py:77-95 | Over any run there is at most one unfinished worker per name |
| Registries.RegRunIsLater | app/services/runtime_manager.py:167-173 | Workers are never forgotten or revived, a stop request and a close are for good, and after a close no entry is added |
| Registries.StoppingIsInFlight | app/services/runtime_manager.py:242-264 | A name is in the stopping set exactly when a stop of it has begun and not ended |
| Registries.StopExcludes | app/services/runtime_manager.py:228-250 | While a stop of a name is in flight no worker is created for it and no second stop begins |
| Registries.NoCreateAfterClose | app/services/runtime_manager.py:228-233 | After a close no worker is ever created |
| Registries.OthersKeepMyStop | app/services/runtime_manager.py:252-264 | While a caller stops a name, any run of the others leaves that stop and the name's registry entry alone |
| RuntimeManagers.RuntimeManager.Start | app/services/runtime_manager.py:73-95 | A worker is created only when open and not stopping; the one returned is unfinished and registered; unknown exactly when no profile was stored when it looked; a closed manager always refuses |
| RuntimeManagers.RuntimeManager.WorkerResult | app/services/runtime_manager.py:107-120 | An exit is reported exactly for a finished worker, and then with its last phase |
| RuntimeManagers.RuntimeManager.Restore | app/services/runtime_manager.py:373-374 | Afterwards the record that was found is stored |
| RuntimeManagers.RuntimeManager.StopHeld | app/services/runtime_manager.py:311-389 | STOPPED leaves no record and, if there was one, took exactly one signal and the clear; FAILED leaves and shows the record it found; a mismatch signals nothing, and any other failure is an attempt that failed |
| RuntimeManagers.RuntimeManager.StopRecorded | app/services/runtime_manager.py:312-389 | The same in terms of what is noted in the current operation |
| RuntimeManagers.RuntimeManager.DisconnectAndRestore | app/services/runtime_manager.py:343-389 | FAILED keeps the record even when disconnect cleared it or raised, and says what was tried; STOPPED took one signal and the clear |
| RuntimeManagers.RuntimeManager.RestoreAndReport | app/services/runtime_manager.py:345-389 | The failing exits put the record back and show it with this error |
| RuntimeManagers.RuntimeManager.StopUnsupervised | app/services/runtime_manager.py:308-400 | No such profile exactly when none was stored when it looked; busy exactly when somebody had the lock; otherwise STOPPED without a record, or FAILED with the record that was stored then; the lock is given back |
| RuntimeManagers.RuntimeManager.StopUnsupervisedGuarded | app/services/runtime_manager.py:252-264 | The same, and on every exit the name is released and has no registry entry |
| RuntimeManagers.RuntimeManager.Stop | app/services/runtime_manager.py:97-121 | The name is released on every exit but a refusal; an unfinished worker is asked to stop, and nothing else is done; without one exactly the outcome of StopUnsupervised |
| RuntimeManagers.RuntimeManager.StopWorker | app/services/runtime_manager.py:107-120 | The event is set, the name released, and an exit is reported only when the worker finished |
| RuntimeManagers.RuntimeManager.ShutdownOne | app/services/runtime_manager.py:177-208 | An exit is reported exactly for a finished worker; a completed result saw the profile without a record; a worker that finished STOPPED and whose profile was read without a record is completed; an unreadable record is reported as such |
| RuntimeManagers.RuntimeManager.ShutdownUnsupervised | app/services/runtime_manager.py:266-306 | The same through an unsupervised stop; a stop in flight elsewhere is not completion |
| RuntimeManagers.RuntimeManager.ShutdownAll | app/services/runtime_manager.py:176-209 | One result per registered worker; completion clears every one of them |
| RuntimeManagers.RuntimeManager.BeginShutdown | app/services/runtime_manager.py:168-173 | Closed for good, and every unfinished worker ever created is asked to stop |
| RuntimeManagers.RuntimeManager.Shutdown | app/services/runtime_manager.py:167-209 | Completion means every worker ever created has finished, and each registered profile had no runtime record at a moment of the shutdown |
| Text.SplitRender | app/infrastructure/host_key_store.py:80-86 | Lines written back and split again are the same lines, a single empty line excepted |
| Text.RenderSplit | app/infrastructure/ssh_bootstrap.py:168-178 | Splitting and rejoining "\n"-separated text only adds a missing final newline |
| Text.SplitAppend | app/infrastructure/ssh_bootstrap.py:153-155 | Appending to text that ends a line appends its lines |
| Text.SplitAcrossNewline | app/infrastructure/ssh_bootstrap.py:153-155 | Appending after an added newline appends its lines, with an extra empty line exactly after a boundary other than "\n" |
| Text.RenderOnlyNewlines | app/infrastructure/ssh_bootstrap.py:174-178 | Written-back text contains no line boundary but "\n" |
| Text.ThreeWords | app/infrastructure/host_key_store.py:49-66 | Three words printed with single spaces split back into those words |
| Text.NonBlankAll | app/infrastructure/host_key_store.py:78-78 | Filtering blank lines keeps a list without blank lines |
| Decimals.NumeralRoundTrip | app/domain/ssh_bootstrap.py:22-24 | Reading a printed number gives the number |
| Decimals.PyIntRoundTrip | app/services/remote_probe.py:131-140 | int() reads a printed number back |
| AuthorizedKeys.InstallLines | app/infrastructure/ssh_bootstrap.py:153-155 | Installing appends exactly one line, the key, after an empty one only where the text ended in a boundary other than "\n" |
| AuthorizedKeys.IdentityExactly | app/infrastructure/ssh_bootstrap.py:402-413 | A line's identity is its first word that names a key type and the word after it, if that is base64; words before are skipped, words after ignored |
| AuthorizedKeys.OptionsAreSkipped | app/infrastructure/ssh_bootstrap.py:402-413 | A line with options before the key has the identity of the key |
| AuthorizedKeys.InstallAddsTheKeysLines | app/infrastructure/ssh_bootstrap.py:153-155 | Installing any stripped key appends exactly the lines of its text, after an empty one only where the text ended in a boundary other than "\n" |
| AuthorizedKeys.InstalledIsListed | app/infrastructure/ssh_bootstrap.py:150-155 | After an install the key identity is listed |
| AuthorizedKeys.ListedExactly | app/infrastructure/ssh_bootstrap.py:150-155 | After an install an identity is listed if and only if it was before or the key text itself lists it |
| AuthorizedKeys.InstallKeepsListed | app/infrastructure/ssh_bootstrap.py:153-155 | Installing any key keeps every identity that was listed |
| AuthorizedKeys.InstallThenRemove | app/infrastructure/ssh_bootstrap.py:165-180 | Removing what was installed gives back the rendered original lines |
| AuthorizedKeys.RoundTripExactly | app/infrastructure/ssh_bootstrap.py:134-180 | For a one-line key not listed before, install then remove gives back the text with at most a final newline added, if and only if the text separates lines by "\n" alone and is not a lone newline |
| AuthorizedKeys.TextsThatChange | app/infrastructure/ssh_bootstrap.py:134-180 | Two texts that do not come back: a lone newline vanishes, and a vertical tab does not survive |
| AuthorizedKeys.RoundTripKeepsNonBlank | app/infrastructure/ssh_bootstrap.py:134-180 | For every text the non-blank lines come back unchanged, and an empty text comes back empty |
| AuthorizedKeys.RemoveDeletesOneLine | app/infrastructure/ssh_bootstrap.py:168-180 | Removal deletes exactly one line, the first that is the key, and keeps the others in order |
| AuthorizedKeys.RemoveKeepsOthers | app/infrastructure/ssh_bootstrap.py:168-180 | Removal keeps every other identity listed |
| AuthorizedKeys.BrokenKeyIsNotFound | app/infrastructure/ssh_bootstrap.py:169-173 | A key that spans lines is never found for removal |
| RemoteHomes.InstallTwice | app/infrastructure/ssh_bootstrap.py:150-152 | Installing the same key twice changes nothing the second time and claims nothing in its receipt |
| RemoteHomes.InstalledListsExactly | app/infrastructure/ssh_bootstrap.py:134-163 | After a successful install the key identity is listed if and only if it was before or the key text itself lists it |
| RemoteHomes.RemovalUndoesInstall | app/infrastructure/ssh_bootstrap.py:165-180 | When an added key can be removed, the non-blank lines and every listed identity are as before |
| RemoteHomes.KeepsListed | app/infrastructure/ssh_bootstrap.py:165-180 | Rolling an added key back keeps every identity that was listed before |
| RemoteHomes.RemoteHome.EnsureSshDirectory | app/infrastructure/ssh_bootstrap.py:297-315 | Success: the directory exists, and the answer says whether it was created; failure: no change |
| RemoteHomes.RemoteHome.ReadAuthorizedKeys | app/infrastructure/ssh_bootstrap.py:318-337 | The text and whether the file exists, a RABError, or another exception out of lstat |
| RemoteHomes.RemoteHome.ReplaceAuthorizedKeys | app/infrastructure/ssh_bootstrap.py:340-355 | The whole text is replaced or nothing happens |
| RemoteHomes.RemoteHome.RemoveEmptyDirectory | app/infrastructure/ssh_bootstrap.py:366-373 | Removed exactly when it is empty and the system allows it |
| RemoteHomes.RemoteHome.InstallPublicKey | app/infrastructure/ssh_bootstrap.py:134-163 | Success exactly when every step it takes works; the text is unchanged when the identity was listed and has the key appended otherwise; the receipt says exactly what was created; a failure changes nothing unless removing a new directory failed or reading the file ended in an exception that is not a RABError |
| RemoteHomes.RemoteHome.UndoDirectory | app/infrastructure/ssh_bootstrap.py:144-149 | A just created directory is removed again, or the caller is told; told only when the system does not allow it |
| RemoteHomes.RemoteHome.IsListed | app/infrastructure/ssh_bootstrap.py:150-150 | The scan answers yes exactly when some line carries the identity |
| RemoteHomes.RemoteHome.RemovePublicKey | app/infrastructure/ssh_bootstrap.py:165-180 | The new text is the text without the first line that is the key; false exactly when there is none |
| RemoteHomes.RemoteHome.RollbackPublicKey | app/infrastructure/ssh_bootstrap.py:182-207 | True: the home is as before the install, blank lines apart; true whenever every step works and the added key is on one line. Always: every identity listed before is still listed |
| RemoteHomes.RemoteHome.RollbackFiles | app/infrastructure/ssh_bootstrap.py:191-207 | Only a created and empty file, and a created and empty directory, are removed |
| HostKeys.LineReadsBack | app/infrastructure/host_key_store.py:37-69 | A confirmed line is one clean line and reads back as exactly its one entry |
| HostKeys.TokenReadsBack | app/domain/ssh_bootstrap.py:23-24 | Read as known_hosts tokens are, a bare name meaning port 22 and a bracketed one carrying its port, a token gives back its host and port |
| HostKeys.TokensDiffer | app/domain/ssh_bootstrap.py:23-24 | Tokens are equal exactly for the same host and port |
| HostKeys.OthersKeepTheirEntries | app/infrastructure/host_key_store.py:49-51 | A line added for one host and port leaves the entries of every other as they are |
| HostKeys.LinesOfExactly | app/infrastructure/host_key_store.py:71-78 | The lines read are exactly the lines of the file that are not blank, in their order; a missing file has none |
| HostKeys.UnknownMeansAbsent | app/infrastructure/host_key_store.py:18-22 | A host without an entry has no such line |
| HostKeys.WriteThenRead | app/infrastructure/host_key_store.py:71-86 | Written lines are read back unchanged |
| HostKeys.ConfirmThenRemove | app/infrastructure/host_key_store.py:37-61 | Rolling a confirmation back restores the line list |
| HostKeys.HostKeyStore.WriteLines | app/infrastructure/host_key_store.py:80-94 | Success: reading gives these lines; failure: the file is unchanged |
| HostKeys.HostKeyStore.EntriesFor | app/infrastructure/host_key_store.py:63-69 | The loop collects exactly the entries of the token, in order |
| HostKeys.HostKeyStore.Status | app/infrastructure/host_key_store.py:18-35 | Unknown: no entry. Confirmed: this very key is an entry. Changed: entries, but not this key. Invalid exactly for an invalid key |
| HostKeys.HostKeyStore.Confirm | app/infrastructure/host_key_store.py:37-51 | True: there was no entry, exactly one line was appended, it reads as this host and port, and every other host and port keeps its entries; true whenever there was none and everything works. False or an error: the file is unchanged |
| HostKeys.HostKeyStore.RemoveIfMatches | app/infrastructure/host_key_store.py:53-61 | True exactly when the line was there; then the first such line and nothing else is gone |
| KeyStores.ValidKeyHasIdentity | app/infrastructure/ssh_key_store.py:142-164 | A validated public key is stripped and carries a key identity |
| KeyStores.GeneratedIsValid | app/infrastructure/ssh_key_store.py:111-140 | A generated key file validates to its one-line key |
| KeyStores.ListsItselfExactly | app/infrastructure/ssh_key_store.py:142-164 | A public key file with white space between its three words is accepted if and only if that is ASCII, and read with "\r" as "\n"; what is read lists its own identity if and only if no line boundary separates type and body |
| KeyStores.SSHKeyStore.ReadAndValidatePair | app/infrastructure/ssh_key_store.py:142-164 | Success gives the validated key of a complete pair whose public file is ASCII, read in text mode |
| KeyStores.SSHKeyStore.Load | app/infrastructure/ssh_key_store.py:70-74 | Loaded exactly when the id is valid and its pair complete and readable; it has the asked id and is not marked generated |
| KeyStores.SSHKeyStore.Generate | app/infrastructure/ssh_key_store.py:111-140 | A new pair under an unused id, all other files untouched, exactly when making, testing and protecting it work; otherwise no change, except that the new files stay exactly when testing them for links ended in an exception that is not a RABError |
| KeyStores.SSHKeyStore.EnsureKey | app/infrastructure/ssh_key_store.py:65-68 | A pair exactly when the one asked for is complete, or a new one can be made; its public key is that of the pair; every other pair is untouched; a failure changes nothing, that same exception apart |
| KeyStores.SSHKeyStore.RemoveGenerated | app/infrastructure/ssh_key_store.py:91-109 | Both files are gone exactly when the pair is still this one and both can be removed; always: no other pair is touched |
| Setups.SetupService.ConfirmHost | app/services/setup_service.py:219-237 | Success exactly when the host key is trusted already, or unknown and shown with the confirmed fingerprint; a line is added only for an unknown host and the confirmed fingerprint, and is recorded as added; confirmation is asked for only for an unknown host, and a changed key means a differing entry or fingerprint |
| Setups.SetupService.MakePair | app/services/setup_service.py:239-241 | A pair exactly when the login works and the pair asked for is there or a new one can be made; whatever happens, the artifact says exactly which pair exists, that same exception apart |
| Setups.SetupService.InstallKey | app/services/setup_service.py:239-245 | Success exactly when login, pair, session and install work; whatever happens, the artifacts and the error say exactly which pair and which remote changes exist |
| Setups.SetupService.TrustAndInstall | app/services/setup_service.py:212-245 | The same for the host key, the pair and the remote file together; certain answers lead to the failures that leave something |
| Setups.SetupService.Complete | app/services/setup_service.py:155-186 | Success exactly when the login, the discovery, the port selection and the profile store work; it stores one new profile, made of what was asked for and found, and failure stores none |
| Setups.SetupService.Preflight | app/services/setup_service.py:124-153 | Going on means valid host and port and a free name; nothing is touched |
| Setups.SetupService.RunBootstrap | app/services/setup_service.py:201-299 | Success exactly when the host key, the key and the completion work, and it keeps the promise of a setup; failure leaves artifacts and an error that describe everything done |
| Setups.SetupService.SetupManagedProfile | app/services/setup_service.py:107-199 | Success if and only if everything it needs works (Succeeds), with a profile made of what was asked for and found, whose key pair and host entry are present and whose key is listed exactly when it was before or its text lists it; a failure other than a failed rollback restores lines, key files, remote home (blank lines apart) and profiles if and only if it is not an exception out of reading authorized_keys after creating ~/.ssh, nor one out of testing a just generated pair; no failed rollback when everything a rollback needs works and the key is on one line; always, nothing that was there is lost |
| Setups.RestoredExactly | app/services/setup_service.py:275-294 | That equivalence for every outcome that keeps the promise |
| Setups.SafeSetupsRestore | app/services/setup_service.py:284-294 | When ~/.ssh exists and an existing pair is reused, every failure but a failed rollback restores everything |
| Setups.LeavingIsPossible | app/infrastructure/ssh_bootstrap.py:141-149 | Otherwise, for any host that is trusted or whose fingerprint is confirmed now, there are stores and answers with which SetupManagedProfile ends in such a failure |
| Setups.SetupService.Rollback | app/services/setup_service.py:309-343 | No failure reported means everything is restored but for what such an exception left; none when everything it needs works and the key is on one line; always, nothing that was there before is lost; with nothing to undo it does nothing and succeeds |
| Setups.SetupService.RollbackHome | app/services/setup_service.py:318-328 | No failure means the remote home is as before, a directory left by such an exception apart; every identity listed before stays |
| Setups.SetupService.RollbackKeys | app/services/setup_service.py:329-333 | Only a generated pair is removed, and no other pair is touched; no failure when its steps work |
| Setups.SetupService.RollbackHost | app/services/setup_service.py:334-342 | No failure means the line list is as before, and there is none when its two steps work; the lines from before are a prefix in any case |
| Setups.ProfileBook.EnsureCreateAvailable | app/services/profile_service.py:62-75 | Success means the name is free |
| Setups.ProfileBook.Create | app/services/profile_service.py:49-60 | Success exactly for a valid profile under a free name when lock and write work, and then exactly this profile is added; failure changes nothing |
| Setups.ProgressKeeps | app/services/setup_service.py:201-299 | However far a setup gets, it adds and never takes away |
| Setups.ProgressIsPresent | app/services/setup_service.py:246-266 | A setup that got through has its pair and host entry, and its key is listed exactly when it was before or its text lists it |
| Setups.GeneratedPairOnly | app/infrastructure/ssh_key_store.py:91-109 | Taking all, some or none of a generated pair away touches no other pair |
| Setups.NewPairOnly | app/infrastructure/ssh_key_store.py:111-140 | A new pair touches no other pair and is a single-line key |
| Credentials.FreshIsFine | app/services/setup_service.py:107-199 | A fresh installation satisfies the credential invariant |
| Credentials.EntriesGrow | app/infrastructure/host_key_store.py:63-69 | Adding lines keeps the entries that were there, in order |
| Credentials.UsableStays | app/services/setup_service.py:309-343 | Any one setup, update or delete keeps a usable profile's pair with the same public key, its host entry and its listed key |
| Credentials.NewProfileIsUsable | app/services/setup_service.py:155-186 | Only a setup makes a managed profile, and it is usable |
| Credentials.StepKeepsCredInv | app/services/setup_service.py:221-245 | Any one setup (succeeding, failing, even failing rollback), update or delete keeps every managed profile usable |
| Credentials.CredentialsSurvive | app/services/setup_service.py:221-245 | In every world of every history, every stored managed profile has its key pair, a host entry for its token and key type, and its public key in its remote account |
| Credentials.ManagedIsForGood | app/services/profile_service.py:112-117 | Once stored, a managed profile is never deleted or moved, and keeps the very same public key and its credentials for ever |
| Credentials.StepKeepsManaged | app/domain/profile.py:139-140 | No operation changes or drops the managed part of a stored profile |
| Markers.ReadFields | app/services/remote_probe.py:126-130 | The loop's dictionary holds, for every key, the value of its first line, and nothing else |
| Markers.BuildIdentity | app/services/remote_probe.py:131-141 | The identity is the one the lines spell out, exactly when complete and valid |
| Markers.ReadTunnelIdentity | app/services/remote_probe.py:116-160 | Each outcome exactly when it should be: bad request, unavailable, invalid, mismatch, or the parsed identity of this tunnel and port |
| Markers.ParsesExactly | app/services/remote_probe.py:126-141 | Which markers spell out an identity, field by field: all seven fields there, the first line of each counting, numbers that are numbers, each value valid; every other marker is refused |
| Markers.LookupExactly | app/services/remote_probe.py:126-130 | The value of a key is that of the first line that starts with it and an equals sign |
| Markers.LookupConcat | app/services/remote_probe.py:126-130 | First wins: a later line never overrides an earlier one |
| Markers.SameLines | app/services/remote_probe.py:277-277 | On "\n"-separated text sed and Python see the same lines |
| Markers.MatchIsPartition | app/services/remote_probe.py:127-130 | For a key without pattern characters, a match on `key=` at the line start is a partition at the first '=' |
| Markers.FirstMatchIsLookup | app/services/remote_probe.py:277-277 | For such a key, the first sed match is the first-wins lookup |
| Markers.LookupsAgree | app/services/remote_probe.py:277-277 | For any "\n"-separated text and any key without '=' and without characters that mean something in a basic regular expression, the script finds what Python finds without its NUL characters, empty where Python finds nothing; so they agree exactly when there are none |
| Markers.LookupsAgreeExactly | app/services/remote_probe.py:277-277 | Of keys whose only pattern character may be the dot, exactly those without a dot agree on every "\n"-separated text without NUL characters |
| Markers.NulIsDropped | app/services/remote_probe.py:277-277 | For every key without a dot, a text with a NUL in its value that the script and Python read differently |
| Markers.DotMatchesAnything | app/services/remote_probe.py:277-277 | For every key with a dot, a text without NUL characters on which the script finds a field that Python does not |
| Markers.SplitPrint | app/services/remote_probe.py:240-249 | Printed fields without line boundaries are read back as lines, whatever follows |
| Markers.LookupPrinted | app/services/remote_probe.py:240-249 | The first printed field with a key is the one found |
| Markers.PrintedFields | app/services/remote_probe.py:240-249 | In a printed marker Python finds every field whole, and of the connection its first line |
| Markers.UniversalSameLines | app/services/remote_probe.py:122-127 | Reading in text mode does not change the lines |
| Markers.MarkerRoundTrip | app/services/remote_probe.py:116-139 | A valid identity is read back from its printed marker if and only if its SSH_CONNECTION value has no line boundary |
| Markers.ConnectionIsValid | app/domain/profile.py:204-217 | Validation accepts an SSH_CONNECTION value with any white space between its words, a newline included |
| Markers.SpaceSurvivesNewlineDoesNot | app/services/remote_probe.py:116-139 | One concrete valid identity that is read back, and the same with a newline for a space, valid too, that is not |
| Markers.CheckedIsParsed | app/services/remote_probe.py:260-282 | A "\n"-separated marker that passes the cleanup script's comparisons for a valid identity is read by Python as that identity if and only if none of the values found has a NUL character |
| Markers.PrintedPassesChecks | app/services/remote_probe.py:260-282 | A freshly printed marker of a valid identity passes all those comparisons if and only if the connection has no NUL character |

## Left out

- Supervisors.TunnelSupervisor.CleanupActive: does not promise that every failure keeps the record, because the code does not; the exact condition is Cleanups.RecordKeptExactly.
- RuntimeManagers.RuntimeManager.Shutdown: says that each profile had no record at a moment of the shutdown, not at its end, because another process may start it again meanwhile.
- Tunnels.TunnelManager.Acquire: models exceptions that are not a TunnelError only before a process is started; after that the inspector and the probes report failures as results, and the store write does not fail.
- Tunnels.TunnelManager.Verify: the codes of a failed endpoint check are one code here, because nothing depends on which it is.
- RuntimeManagers.RuntimeManager.ShutdownOne: whether the record can be read is an input.
- Setups.SetupService.SetupManagedProfile: does not promise that every failure restores, nor that the key is listed, because the code does not; both conditions are exact in its contract. It does not model other agents editing profiles during a setup.
- Setups.ProfileBook.Create: keeps the profiles of a quiet store apart from the shared store of the tunnel protocol, because setups are modelled without other agents; a lock release that raises after the write is not modelled.
- Markers.ReadTunnelIdentity: `int()` is modelled on ASCII text; other decimal digits are not.
- Decimals.PyIntRoundTrip: is about ASCII numerals, because `int()` is modelled on ASCII text only.
- Markers.LookupsAgreeExactly: is about text without NUL characters, because the claim is false of others (Markers.NulIsDropped); it does not model keys with other pattern characters than the dot, because the keys in use have none.
- How a supervisor's run is joined to its worker: the registry knows a worker only by its name, stop event, end and final phase.
- `status`, `list_status`, `wait`, `process_check`: they only read and report.
- `prepare`, `confirm_host_key`, `bootstrap` without a profile, and `remove_key`: the same steps as a setup, or a single deletion.
- Proxy discovery, port selection, the endpoint check and the batch login: they answer anything.
- What the remote shell scripts do, beyond the marker they print and the fields they compare.
- Messages, timestamps, redaction, file modes, empty configuration files, passwords, JSON encoding, atomic renames.
- The HTTP and command line layers and the user interface.
- Crashes of the Python process in the middle of an operation, and threads that cannot be started.
