/**
 What a supervisor run shows to the outside, as one log: when it asked whether to stop, which
 long operation it began, and every snapshot it published (app/domain/supervisor.py).
 */
module SupervisorLogs {
  import opened Wrappers
  import opened Domain
  import opened Ownership
  import opened OwnershipTheorems
  import opened Hosts

  datatype Phase = STARTING | CONNECTING | READY | DEGRADED | STOPPING | STOPPED | FAILED

  datatype Snapshot = Snapshot(
    phase: Phase,
    attempt: nat,
    code: Option<Code>,
    retry: Option<real>,
    pid: Option<int>,
    tunnelId: Option<string>,
    port: Option<int>,
    probedAt: Option<int>,
    suggestion: Option<int>,
    runtimePresent: bool,
    processAlive: Option<bool>)

  datatype Work = Inspect | Acquire | Verify

  /**
   What a run does, in order: it asks whether to stop, begins a long operation, sees it end, and
   publishes. An operation ends fine or with the code of its failure, and a port conflict may come
   with a suggestion; one that raises does not end. `stored` and `profile` are what the store held
   at the moment of publication: see LogHolds.
   */
  datatype Event =
    | Asked(stop: bool)
    | Began(work: Work)
    | Done(work: Work, failure: Option<Code>, suggestion: Option<int>)
    | Published(shown: Snapshot, stored: Option<Record>, profile: Option<Profile>)

  /** SupervisorPolicy.__post_init__: the policies that are accepted. */
  predicate Accepted(backoff: seq<real>) {
    |backoff| > 0 && forall i | 0 <= i < |backoff| :: backoff[i] >= 0.0
  }

  /** The snapshot shows exactly this record: its presence, process, tunnel, port and last probe. */
  predicate Shows(s: Snapshot, r: Option<Record>) {
    match r
    case None =>
      !s.runtimePresent && s.pid.None? && s.tunnelId.None? && s.port.None? && s.probedAt.None?
    case Some(v) =>
      && s.runtimePresent && s.pid == Some(v.pid) && s.tunnelId == Some(v.tunnelId)
      && s.port == Some(v.port) && s.probedAt == v.probedAt
  }

  /** The keyword arguments of `_publish`. */
  datatype Note = Note(
    phase: Phase,
    attempt: nat := 0,
    code: Option<Code> := None,
    retry: Option<real> := None,
    suggestion: Option<int> := None,
    processAlive: Option<bool> := None)

  /** The snapshot that `_publish` builds from its arguments and the record it found. */
  function Describe(note: Note, runtime: Option<Record>): (s: Snapshot)
    ensures Shows(s, runtime) && s.phase == note.phase && s.attempt == note.attempt && s.retry == note.retry
    ensures s.processAlive == note.processAlive && s.code == note.code && s.suggestion == note.suggestion
  {
    match runtime
    case None =>
      Snapshot(note.phase, note.attempt, note.code, note.retry, None, None, None, None,
               note.suggestion, false, note.processAlive)
    case Some(r) =>
      Snapshot(note.phase, note.attempt, note.code, note.retry, Some(r.pid), Some(r.tunnelId), Some(r.port), r.probedAt,
               note.suggestion, true, note.processAlive)
  }

  predicate Final(e: Event) {
    e.Published? && Ending(e.shown.phase)
  }

  predicate Ending(phase: Phase) {
    phase == STOPPED || phase == FAILED
  }

  /** The DEGRADED count after one more publication. */
  function Counted(n: nat, phase: Phase): nat {
    if phase == READY then 0 else if phase == DEGRADED then n + 1 else n
  }

  predicate IsPublished(e: Event, phase: Phase) {
    e.Published? && e.shown.phase == phase
  }

  /** How many DEGRADED snapshots were published since the last READY, or since the start. */
  function Degradations(log: seq<Event>): nat {
    if log == [] then 0
    else
      var before, last := log[..|log| - 1], log[|log| - 1];
      if last.Published? then Counted(Degradations(before), last.shown.phase) else Degradations(before)
  }

  /** The long operation begun last. */
  function LastWork(log: seq<Event>): Option<Work> {
    if log == [] then None
    else if log[|log| - 1].Began? then Some(log[|log| - 1].work)
    else LastWork(log[..|log| - 1])
  }

  function Backoff(backoff: seq<real>, index: nat): real
    requires |backoff| > 0
  {
    backoff[if index < |backoff| then index else |backoff| - 1]
  }

  /** How many long operations began at or after position `from`. */
  function Begun(log: seq<Event>, from: nat): nat {
    if |log| <= from then 0
    else Begun(log[..|log| - 1], from) + (if log[|log| - 1].Began? then 1 else 0)
  }

  /** FAILED with one of these codes. */
  predicate Fails(e: Event, codes: set<Code>) {
    IsPublished(e, FAILED) && e.shown.code.Some? && e.shown.code.value in codes
  }

  const CLEANUP_CODES := {ProcessIdentityMismatch, ProcessStopTimeout, ProcessStopFailed}

  /** An exception ends the run: as such, or as the failure of the cleanup after it. */
  predicate Aborts(e: Event) {
    Fails(e, CLEANUP_CODES + {SupervisorFailed})
  }

  /**
   The reaction to a failed operation. A port conflict is final. With automatic reconnect any
   other failure is reported and retried; without it the run ends, after cleaning up its tunnel.
   */
  predicate Reacts(reconnect: bool, work: Work, code: Code, suggestion: Option<int>, e: Event) {
    if work == Acquire && code == RemotePortConflict then
      Fails(e, {RemotePortConflict}) && e.shown.suggestion == suggestion
    else if reconnect then IsPublished(e, DEGRADED) && e.shown.code == Some(code)
    else Fails(e, {code}) || (work != Acquire && Aborts(e))
  }

  /** What may come next in a run, by the event before. */
  predicate Follows(reconnect: bool, log: seq<Event>, e: Event) {
    if log == [] then IsPublished(e, STARTING)
    else
      match log[|log| - 1]
      case Asked(true) => IsPublished(e, STOPPING)
      case Asked(false) =>
        || e.Asked? || e == Began(Inspect) || e == Began(Verify) || IsPublished(e, CONNECTING)
        || (IsPublished(e, DEGRADED) && e.shown.code == Some(TunnelExited))
      case Began(work) => (e.Done? && e.work == work) || Aborts(e)
      case Done(Verify, None, _) => IsPublished(e, READY)
      case Done(_, None, _) => e.Asked?
      case Done(work, Some(code), suggestion) => Reacts(reconnect, work, code, suggestion, e)
      case Published(shown, _, _) => FollowsPhase(reconnect, shown, e)
  }

  predicate FollowsPhase(reconnect: bool, shown: Snapshot, e: Event) {
    match shown.phase
    case STARTING => e.Asked? || Fails(e, {ProfileBusy, ProfileNotFound})
    case CONNECTING => e == Began(Acquire)
    case READY => e.Asked?
    case DEGRADED =>
      if reconnect then e.Asked? else IsPublished(e, FAILED) && e.shown.code == shown.code == Some(TunnelExited)
    case STOPPING => IsPublished(e, STOPPED) || Aborts(e)
    case STOPPED => false
    case FAILED => false
  }

  /** The same for a snapshot still to be made. */
  predicate MayTell(reconnect: bool, log: seq<Event>, phase: Phase, code: Option<Code>, suggestion: Option<int>) {
    Follows(reconnect, log, Published(Describe(Note(phase, 0, code, None, suggestion), None), None, None))
  }

  lemma TellingFollows(reconnect: bool, log: seq<Event>, note: Note, r: Option<Record>, p: Option<Profile>)
    requires MayTell(reconnect, log, note.phase, note.code, note.suggestion)
    ensures Follows(reconnect, log, Published(Describe(note, r), r, p))
  {
  }

  predicate MayAsk(reconnect: bool, log: seq<Event>) {
    Follows(reconnect, log, Asked(true)) && Follows(reconnect, log, Asked(false))
  }

  /** The event before. */
  predicate Latest(log: seq<Event>, e: Event) {
    log != [] && log[|log| - 1] == e
  }

  predicate LatestShows(log: seq<Event>, phase: Phase, code: Option<Code>) {
    log != [] && IsPublished(log[|log| - 1], phase) && log[|log| - 1].shown.code == code
  }

  /** An exception may end the run here. */
  predicate MayAbort(reconnect: bool, log: seq<Event>) {
    forall code | code in CLEANUP_CODES + {SupervisorFailed} :: MayTell(reconnect, log, FAILED, Some(code), None)
  }

  lemma AfterNo(reconnect: bool, log: seq<Event>)
    requires Latest(log, Asked(false))
    ensures MayAsk(reconnect, log) && MayTell(reconnect, log, CONNECTING, None, None)
    ensures MayTell(reconnect, log, DEGRADED, Some(TunnelExited), None)
    ensures Follows(reconnect, log, Began(Inspect)) && Follows(reconnect, log, Began(Verify))
  {
  }

  lemma AfterYes(reconnect: bool, log: seq<Event>)
    requires Latest(log, Asked(true))
    ensures MayTell(reconnect, log, STOPPING, None, None)
  {
  }

  lemma AfterBegan(reconnect: bool, log: seq<Event>, work: Work)
    requires Latest(log, Began(work))
    ensures MayAbort(reconnect, log)
    ensures forall failure, suggestion :: Follows(reconnect, log, Done(work, failure, suggestion))
  {
  }

  lemma AfterSuccess(reconnect: bool, log: seq<Event>, work: Work)
    requires Latest(log, Done(work, None, None))
    ensures if work == Verify then MayTell(reconnect, log, READY, None, None) else MayAsk(reconnect, log)
  {
  }

  lemma AfterFailure(reconnect: bool, log: seq<Event>, work: Work, code: Code, suggestion: Option<int>)
    requires Latest(log, Done(work, Some(code), suggestion))
    ensures work == Acquire && code == RemotePortConflict ==>
              MayTell(reconnect, log, FAILED, Some(RemotePortConflict), suggestion)
    ensures !(work == Acquire && code == RemotePortConflict) ==>
              if reconnect then MayTell(reconnect, log, DEGRADED, Some(code), None)
              else MayTell(reconnect, log, FAILED, Some(code), None) && (work != Acquire ==> MayAbort(reconnect, log))
  {
  }

  lemma AfterShown(reconnect: bool, log: seq<Event>, code: Option<Code>)
    ensures LatestShows(log, CONNECTING, code) ==> Follows(reconnect, log, Began(Acquire))
    ensures LatestShows(log, READY, code) ==> MayAsk(reconnect, log)
    ensures LatestShows(log, DEGRADED, code) && reconnect ==> MayAsk(reconnect, log)
    ensures LatestShows(log, DEGRADED, Some(TunnelExited)) && !reconnect ==>
              MayTell(reconnect, log, FAILED, Some(TunnelExited), None)
    ensures LatestShows(log, STOPPING, code) ==>
              MayTell(reconnect, log, STOPPED, None, None) && MayAbort(reconnect, log)
    ensures LatestShows(log, STARTING, code) ==>
              && MayAsk(reconnect, log) && MayTell(reconnect, log, FAILED, Some(ProfileBusy), None)
              && MayTell(reconnect, log, FAILED, Some(ProfileNotFound), None)
  {
  }

  lemma AbortTells(reconnect: bool, log: seq<Event>, code: Code)
    requires MayAbort(reconnect, log) && code in CLEANUP_CODES + {SupervisorFailed}
    ensures MayTell(reconnect, log, FAILED, Some(code), None)
  {
  }

  lemma MayStart(reconnect: bool)
    ensures MayTell(reconnect, [], STARTING, None, None)
  {
  }

  /** What an honest run may do next: each round inspects, then may acquire, then verifies. */
  ghost predicate Truthful(backoff: seq<real>, reconnect: bool, log: seq<Event>, e: Event)
    requires |backoff| > 0
  {
    && Follows(reconnect, log, e)
    && match e
       case Asked(_) => true
       case Began(Inspect) => true
       case Began(Acquire) => LastWork(log) == Some(Inspect)
       case Began(Verify) => LastWork(log) == Some(Inspect) || LastWork(log) == Some(Acquire)
       case Done(_, _, _) => true
       case Published(shown, stored, _) =>
         && Shows(shown, stored)
         && (shown.phase == STOPPED ==> stored.None?)
         && (shown.phase == READY ==>
               && LastWork(log) == Some(Verify) && stored.Some? && stored.value.probedAt.Some?
               && shown.processAlive == Some(true))
         && (shown.phase == CONNECTING ==> shown.attempt == Degradations(log))
         && (shown.phase == DEGRADED ==>
               && shown.attempt == Degradations(log) + 1
               && shown.retry == Some(Backoff(backoff, Degradations(log))))
  }

  /** Every publication was truthful and none followed a final one. */
  ghost predicate Honest(backoff: seq<real>, reconnect: bool, log: seq<Event>)
    requires |backoff| > 0
  {
    log == [] ||
    var before, last := log[..|log| - 1], log[|log| - 1];
    && Honest(backoff, reconnect, before)
    && (before == [] || !Final(before[|before| - 1]))
    && Truthful(backoff, reconnect, before, last)
  }

  /** The answers to "shall I stop?": yes from the stop on, and not before. */
  predicate AsksTruly(stopAt: nat, log: seq<Event>) {
    forall k | 0 <= k < |log| && log[k].Asked? :: log[k].stop <==> k >= stopAt
  }

  /** An honest log that is not finished, with at most one operation begun after the stop. */
  ghost predicate OpenLog(backoff: seq<real>, reconnect: bool, stopAt: nat, log: seq<Event>) {
    && Accepted(backoff) && Honest(backoff, reconnect, log)
    && (log == [] || !Final(log[|log| - 1]))
    && Begun(log, stopAt) <= 1 && AsksTruly(stopAt, log)
  }

  /** An honest log that ends with this final snapshot. */
  ghost predicate EndedLog(backoff: seq<real>, reconnect: bool, stopAt: nat, log: seq<Event>, s: Snapshot) {
    && Accepted(backoff) && Honest(backoff, reconnect, log) && Begun(log, stopAt) <= 1 && AsksTruly(stopAt, log)
    && |log| > 0 && Final(log[|log| - 1]) && log[|log| - 1].shown == s
  }

  lemma EmptyIsOpen(backoff: seq<real>, reconnect: bool, stopAt: nat)
    requires Accepted(backoff)
    ensures OpenLog(backoff, reconnect, stopAt, [])
    ensures Degradations([]) == 0 && Begun([], stopAt) == 0
  {
  }

  /** One publication says nothing about automatic reconnect. */
  lemma StartingSaysNothing(backoff: seq<real>, reconnect: bool, other: bool, stopAt: nat, log: seq<Event>)
    requires OpenLog(backoff, reconnect, stopAt, log) && |log| <= 1
    ensures OpenLog(backoff, other, stopAt, log)
  {
    if log != [] {
      assert log[..0] == [];
      assert Truthful(backoff, reconnect, [], log[0]);
    }
  }

  lemma Append(backoff: seq<real>, reconnect: bool, stopAt: nat, log: seq<Event>, e: Event)
    requires OpenLog(backoff, reconnect, stopAt, log) && Truthful(backoff, reconnect, log, e)
    requires e.Began? ==> Begun(log, stopAt) == 0
    requires e.Asked? ==> (e.stop <==> |log| >= stopAt)
    ensures if Final(e) then EndedLog(backoff, reconnect, stopAt, log + [e], e.shown)
            else OpenLog(backoff, reconnect, stopAt, log + [e])
    ensures Degradations(log + [e])
              == if e.Published? then Counted(Degradations(log), e.shown.phase) else Degradations(log)
    ensures !e.Began? ==> Begun(log + [e], stopAt) == Begun(log, stopAt)
    ensures LastWork(log + [e]) == if e.Began? then Some(e.work) else LastWork(log)
  {
    assert (log + [e])[..|log|] == log;
  }

  lemma {:induction false} HonestAt(backoff: seq<real>, reconnect: bool, log: seq<Event>, k: nat)
    requires |backoff| > 0 && Honest(backoff, reconnect, log) && k < |log|
    ensures Truthful(backoff, reconnect, log[..k], log[k]) && (k > 0 ==> !Final(log[k - 1]))
    decreases |log|
  {
    if k < |log| - 1 {
      HonestAt(backoff, reconnect, log[..|log| - 1], k);
      assert log[..|log| - 1][..k] == log[..k];
    }
  }

  // ---------------------------------------------------------------- what an honest log says

  /** What a publication says was stored for `n` is what was stored after `at` actions of the machine. */
  ghost predicate Held(start: State, trace: seq<Action>, n: string, e: Event, at: nat) {
    e.Published? && at <= |trace| ==>
      && SlotOf(Exec(start, trace[..at]), n).record == e.stored
      && SlotOf(Exec(start, trace[..at]), n).profile == e.profile
  }

  /** What the machine did and saw while a long operation ran, by how it ended. */
  ghost predicate Worked(before: seq<Action>, after: seq<Action>, a: Agent, n: string, e: Event) {
    e.Done? ==>
      match e.work
      case Inspect => Since(before, after, Saw(a, n, Proxy(e.failure)))
      case Acquire =>
        && (e.failure.None? ==>
              exists r :: Since(before, after, RecordChild(a, r)) || Since(before, after, SeeMatch(a, n, RecId(r))))
        && (e.suggestion.Some? ==> Since(before, after, SeeAbsent(a, n, e.suggestion.value)))
      case Verify =>
        if e.failure.None? then exists r :: Effects(after, a) == Effects(before, a) + [SaveRecord(a, r)]
        else Effects(after, a) == Effects(before, a)
  }

  /**
   Every publication is about what the store really held, at moments in order and not before
   `born`, and every long operation ended as the machine says.
   */
  ghost predicate LogHolds(start: State, trace: seq<Action>, a: Agent, n: string, born: nat, log: seq<Event>,
                           moments: seq<nat>) {
    && |moments| == |log|
    && (forall k | 0 <= k < |log| :: born <= moments[k] <= |trace| && Held(start, trace, n, log[k], moments[k]))
    && (forall j, k | 0 <= j < k < |log| :: moments[j] <= moments[k])
    && (forall k | 0 < k < |log| :: WorkedAt(trace, a, n, log, moments, k))
  }

  ghost predicate WorkedAt(trace: seq<Action>, a: Agent, n: string, log: seq<Event>, moments: seq<nat>, k: nat)
    requires 0 < k < |log| == |moments|
  {
    moments[k - 1] <= |trace| && moments[k] <= |trace| ==>
      Worked(trace[..moments[k - 1]], trace[..moments[k]], a, n, log[k])
  }

  lemma NothingPublished(start: State, trace: seq<Action>, a: Agent, n: string, born: nat)
    ensures LogHolds(start, trace, a, n, born, [], [])
  {
  }

  lemma LogHoldsLater(start: State, before: seq<Action>, after: seq<Action>, a: Agent, n: string, born: nat,
                      log: seq<Event>, moments: seq<nat>)
    requires LogHolds(start, before, a, n, born, log, moments) && before <= after
    ensures LogHolds(start, after, a, n, born, log, moments)
  {
    hide Exec, SlotOf, Worked;
    forall k | 0 <= k < |log| ensures moments[k] <= |after| && Held(start, after, n, log[k], moments[k]) {
      assert Held(start, before, n, log[k], moments[k]);
      assert after[..moments[k]] == before[..moments[k]];
    }
    forall k | 0 < k < |log| ensures WorkedAt(after, a, n, log, moments, k) {
      assert WorkedAt(before, a, n, log, moments, k);
      assert after[..moments[k]] == before[..moments[k]] && after[..moments[k - 1]] == before[..moments[k - 1]];
    }
  }

  lemma LogHoldsAppend(start: State, trace: seq<Action>, a: Agent, n: string, born: nat, log: seq<Event>,
                       moments: seq<nat>, e: Event)
    requires LogHolds(start, trace, a, n, born, log, moments) && born <= |trace|
    requires e.Published? ==>
               e.stored == SlotOf(Exec(start, trace), n).record && e.profile == SlotOf(Exec(start, trace), n).profile
    requires e.Done? ==> log != [] && Worked(trace[..moments[|log| - 1]], trace, a, n, e)
    ensures LogHolds(start, trace, a, n, born, log + [e], moments + [|trace|])
  {
    hide Exec, SlotOf, Worked;
    assert trace[..|trace|] == trace;
    var log', moments' := log + [e], moments + [|trace|];
    forall k | 0 < k < |log'| ensures WorkedAt(trace, a, n, log', moments', k) {
      if k < |log| {
        assert WorkedAt(trace, a, n, log, moments, k);
      } else {
        NotEnded(trace[..moments'[k - 1]], trace, a, n, e);
      }
    }
  }

  lemma NotEnded(before: seq<Action>, after: seq<Action>, a: Agent, n: string, e: Event)
    ensures !e.Done? ==> Worked(before, after, a, n, e)
  {
  }

  /** Snapshot exactness: each snapshot shows the record that was stored then, and STOPPED means there was none. */
  lemma {:induction false} SnapshotsAreExact(backoff: seq<real>, reconnect: bool, start: State, trace: seq<Action>,
                                             a: Agent, n: string, born: nat, log: seq<Event>, moments: seq<nat>, k: nat)
    requires |backoff| > 0 && Honest(backoff, reconnect, log) && LogHolds(start, trace, a, n, born, log, moments)
    requires k < |log| && log[k].Published?
    ensures born <= moments[k] <= |trace|
    ensures Shows(log[k].shown, SlotOf(Exec(start, trace[..moments[k]]), n).record)
    ensures log[k].shown.phase == STOPPED ==> n !in Exec(start, trace[..moments[k]]).records
  {
    HonestAt(backoff, reconnect, log, k);
    assert Held(start, trace, n, log[k], moments[k]);
  }

  /** READY is published only right after a verification, while a record with a good probe is stored. */
  lemma {:induction false} ReadyWasVerified(backoff: seq<real>, reconnect: bool, start: State, trace: seq<Action>,
                                            a: Agent, n: string, born: nat, log: seq<Event>, moments: seq<nat>, k: nat)
    requires |backoff| > 0 && Honest(backoff, reconnect, log) && LogHolds(start, trace, a, n, born, log, moments)
    requires k < |log| && IsPublished(log[k], READY)
    ensures LastWork(log[..k]) == Some(Verify) && moments[k] <= |trace|
    ensures var s := Exec(start, trace[..moments[k]]);
            n in s.records && s.records[n].probedAt.Some? && Shows(log[k].shown, Some(s.records[n]))
  {
    HonestAt(backoff, reconnect, log, k);
    assert Held(start, trace, n, log[k], moments[k]);
  }

  /** No tunnel is acquired or verified in a round whose local proxy was not inspected first. */
  lemma {:induction false} InspectedFirst(backoff: seq<real>, reconnect: bool, log: seq<Event>, k: nat)
    requires |backoff| > 0 && Honest(backoff, reconnect, log) && k < |log| && log[k] == Began(Acquire)
    ensures LastWork(log[..k]) == Some(Inspect)
  {
    HonestAt(backoff, reconnect, log, k);
  }

  /** Nothing follows a final snapshot. */
  lemma {:induction false} FinalIsLast(backoff: seq<real>, reconnect: bool, log: seq<Event>, k: nat)
    requires |backoff| > 0 && Honest(backoff, reconnect, log) && k < |log| && Final(log[k])
    ensures k == |log| - 1
  {
    HonestAt(backoff, reconnect, log, if k == |log| - 1 then k else k + 1);
  }

  // ---------------------------------------------------------------- what automatic reconnect decides

  /**
   Without automatic reconnect nothing is retried: a DEGRADED snapshot is only ever the report of
   an exited process, directly followed by the final FAILED, and a failed operation ends the run.
   */
  lemma {:induction false} NothingIsRetried(backoff: seq<real>, stopAt: nat, log: seq<Event>, final: Snapshot, k: nat)
    requires EndedLog(backoff, false, stopAt, log, final) && k < |log|
    ensures IsPublished(log[k], DEGRADED) ==>
              k + 1 == |log| - 1 && final.phase == FAILED && final.code == log[k].shown.code == Some(TunnelExited)
    ensures log[k].Done? && log[k].failure.Some? ==>
              && k + 1 == |log| - 1 && final.phase == FAILED
              && (log[k].work == Acquire ==> final.code == log[k].failure)
              && (final.code == log[k].failure || final.code.value in CLEANUP_CODES + {SupervisorFailed})
  {
    if k + 1 < |log| {
      HonestAt(backoff, false, log, k + 1);
      assert log[..k + 1][k] == log[k];
      if Final(log[k + 1]) {
        FinalIsLast(backoff, false, log, k + 1);
      }
    }
  }

  /**
   With automatic reconnect every failed operation but a port conflict is reported as DEGRADED
   with its own code, and the run goes on: it asks whether to stop.
   */
  lemma {:induction false} FailuresAreRetried(backoff: seq<real>, stopAt: nat, log: seq<Event>, final: Snapshot, k: nat)
    requires EndedLog(backoff, true, stopAt, log, final) && k < |log|
    requires log[k].Done? && log[k].failure.Some?
    requires !(log[k].work == Acquire && log[k].failure == Some(RemotePortConflict))
    ensures k + 2 < |log| && IsPublished(log[k + 1], DEGRADED) && log[k + 1].shown.code == log[k].failure
    ensures log[k + 2].Asked?
  {
    assert k + 1 < |log|;
    HonestAt(backoff, true, log, k + 1);
    assert log[..k + 1][k] == log[k];
    assert k + 2 < |log|;
    HonestAt(backoff, true, log, k + 2);
    assert log[..k + 2][k + 1] == log[k + 1];
  }

  /**
   With automatic reconnect a run ends FAILED only for a port conflict, for a failure while it
   stops, or for an exception; or it never began, because the profile is busy or unknown.
   */
  lemma {:induction false} FailsOnlyFor(backoff: seq<real>, stopAt: nat, log: seq<Event>, final: Snapshot)
    requires EndedLog(backoff, true, stopAt, log, final) && final.phase == FAILED
    ensures |log| >= 2
    ensures var before := log[|log| - 2];
            || (before.Done? && before.work == Acquire && before.failure == final.code == Some(RemotePortConflict))
            || (IsPublished(before, STOPPING) && final.code.Some?
                && final.code.value in CLEANUP_CODES + {SupervisorFailed})
            || (before.Began? && final.code.Some? && final.code.value in CLEANUP_CODES + {SupervisorFailed})
            || (IsPublished(before, STARTING) && final.code in {Some(ProfileBusy), Some(ProfileNotFound)})
  {
    HonestAt(backoff, true, log, |log| - 1);
    if |log| >= 2 {
      assert log[..|log| - 1][|log| - 2] == log[|log| - 2];
    }
  }

  /** All of this for one run. */
  ghost predicate Policy(reconnect: bool, log: seq<Event>, final: Snapshot) {
    && (!reconnect ==>
          forall k | 0 <= k < |log| ::
            && (IsPublished(log[k], DEGRADED) ==>
                  k + 1 == |log| - 1 && final.phase == FAILED && final.code == log[k].shown.code)
            && (log[k].Done? && log[k].failure.Some? ==>
                  && k + 1 == |log| - 1 && final.phase == FAILED
                  && (log[k].work == Acquire ==> final.code == log[k].failure)))
    && (reconnect ==>
          && (forall k | 0 <= k < |log| && Retryable(log[k]) ::
                && k + 2 < |log| && IsPublished(log[k + 1], DEGRADED) && log[k + 1].shown.code == log[k].failure
                && log[k + 2].Asked?)
          && (final.phase == FAILED ==>
                || final.code in {Some(RemotePortConflict), Some(SupervisorFailed), Some(ProfileBusy),
                                  Some(ProfileNotFound)}
                || (final.code.Some? && final.code.value in CLEANUP_CODES)))
  }

  predicate Retryable(e: Event) {
    e.Done? && e.failure.Some? && !(e.work == Acquire && e.failure == Some(RemotePortConflict))
  }

  lemma PolicyHolds(backoff: seq<real>, reconnect: bool, stopAt: nat, log: seq<Event>, final: Snapshot)
    requires EndedLog(backoff, reconnect, stopAt, log, final)
    ensures Policy(reconnect, log, final)
  {
    hide EndedLog, Honest, Follows;
    forall k | 0 <= k < |log| && !reconnect
      ensures IsPublished(log[k], DEGRADED) ==>
                k + 1 == |log| - 1 && final.phase == FAILED && final.code == log[k].shown.code
      ensures log[k].Done? && log[k].failure.Some? ==>
                k + 1 == |log| - 1 && final.phase == FAILED && (log[k].work == Acquire ==> final.code == log[k].failure)
    {
      NothingIsRetried(backoff, stopAt, log, final, k);
    }
    forall k | 0 <= k < |log| && reconnect && Retryable(log[k])
      ensures k + 2 < |log| && IsPublished(log[k + 1], DEGRADED) && log[k + 1].shown.code == log[k].failure
      ensures log[k + 2].Asked?
    {
      FailuresAreRetried(backoff, stopAt, log, final, k);
    }
    if reconnect && final.phase == FAILED {
      FailsOnlyFor(backoff, stopAt, log, final);
    }
  }

  /** Whatever automatic reconnect says, a port conflict ends the run with that code. */
  lemma {:induction false} ConflictIsFinal(backoff: seq<real>, reconnect: bool, stopAt: nat, log: seq<Event>,
                                           final: Snapshot, k: nat)
    requires EndedLog(backoff, reconnect, stopAt, log, final) && k < |log|
    requires log[k].Done? && log[k].work == Acquire && log[k].failure == Some(RemotePortConflict)
    ensures k == |log| - 2 && final.phase == FAILED && final.code == Some(RemotePortConflict)
    ensures final.suggestion == log[k].suggestion
  {
    assert k + 1 < |log|;
    HonestAt(backoff, reconnect, log, k + 1);
    assert log[..k + 1][k] == log[k];
    FinalIsLast(backoff, reconnect, log, k + 1);
  }

  /** The first question after the stop event is answered with yes, and then the run stops: STOPPING and the end. */
  lemma {:induction false} YesIsTheEnd(backoff: seq<real>, reconnect: bool, stopAt: nat, log: seq<Event>,
                                       final: Snapshot, k: nat)
    requires EndedLog(backoff, reconnect, stopAt, log, final) && stopAt <= k < |log| && log[k].Asked?
    ensures k == |log| - 3 && IsPublished(log[k + 1], STOPPING)
  {
    assert log[k] == Asked(true) && k + 1 < |log|;
    HonestAt(backoff, reconnect, log, k + 1);
    assert log[..k + 1][k] == log[k];
    assert k + 2 < |log|;
    HonestAt(backoff, reconnect, log, k + 2);
    assert log[..k + 2][k + 1] == log[k + 1];
    FinalIsLast(backoff, reconnect, log, k + 2);
  }

  /** The positions of the DEGRADED snapshots since the last READY before `k`, in order. */
  function Streak(log: seq<Event>): seq<nat> {
    if log == [] then []
    else
      var before, last := log[..|log| - 1], log[|log| - 1];
      if IsPublished(last, READY) then []
      else Streak(before) + (if IsPublished(last, DEGRADED) then [|log| - 1] else [])
  }

  /**
   The backoff trace: the n-th DEGRADED snapshot since the last READY carries attempt n and the
   n-th delay of the policy, or its last one when the policy is shorter.
   */
  lemma {:induction false} BackoffTrace(backoff: seq<real>, reconnect: bool, log: seq<Event>, n: nat)
    requires |backoff| > 0 && Honest(backoff, reconnect, log) && n < |Streak(log)|
    ensures |Streak(log)| == Degradations(log)
    ensures Streak(log)[n] < |log| && IsPublished(log[Streak(log)[n]], DEGRADED)
    ensures log[Streak(log)[n]].shown.attempt == n + 1
    ensures log[Streak(log)[n]].shown.retry == Some(if n < |backoff| then backoff[n] else backoff[|backoff| - 1])
  {
    var before, last := log[..|log| - 1], log[|log| - 1];
    StreakCounts(before);
    StreakCounts(log);
    if n < |Streak(before)| {
      BackoffTrace(backoff, reconnect, before, n);
    }
  }

  lemma {:induction false} StreakCounts(log: seq<Event>)
    ensures |Streak(log)| == Degradations(log)
  {
    if log != [] {
      StreakCounts(log[..|log| - 1]);
    }
  }

  /** Prompt stop, by position: no two long operations begin after the stop event was set. */
  lemma {:induction false} NoSecondBegin(log: seq<Event>, from: nat, i: nat, j: nat)
    requires from <= i < j < |log| && log[i].Began? && log[j].Began?
    ensures Begun(log, from) >= 2
    decreases |log|
  {
    var before := log[..|log| - 1];
    if j < |log| - 1 {
      NoSecondBegin(before, from, i, j);
    } else {
      OneBegin(before, from, i);
    }
  }

  lemma {:induction false} OneBegin(log: seq<Event>, from: nat, i: nat)
    requires from <= i < |log| && log[i].Began?
    ensures Begun(log, from) >= 1
    decreases |log|
  {
    if i < |log| - 1 {
      OneBegin(log[..|log| - 1], from, i);
    }
  }
}
