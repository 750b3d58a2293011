/**
 The tunnel ownership protocol as one state machine.

 `State` is everything the managers, supervisors and command line processes that share a
 state root can see or touch: the two maps of the profile store, the per-profile file
 locks and the processes of the machine. `Action` is one indivisible effect of one agent,
 or of the environment; `Enabled` is the rule each effect obeys. A `Run` is any
 interleaving of enabled actions of any number of agents. The classes in the other files
 perform these actions and nothing else.
 */
module Ownership {
  import opened Wrappers
  import opened Domain

  type Agent = nat

  /**
   What the holder of a profile lock has observed in its current operation. It starts empty
   when the lock is taken, when an operation begins and when a new child is recorded.
   */
  datatype Ledger = Ledger(
    matched: set<Identity>,      // the inspector said: this process is alive and is the saved one
    gone: set<Identity>,         // the inspector said: this process is no longer there
    absent: set<int>,            // the remote check said: nothing listens on this port
    verified: Option<Remote>,    // the last observation: this sshd session is still ours
    answers: set<Answer>)        // whatever else the system or the server answered

  /** What an agent is told beside the observations that the rules depend on. */
  datatype Answer =
    | Occupied(port: int, check: Check)      // the listener check: anything but absent
    | NotOurs(code: Code)                    // a remote session could not be verified
    | Cleanup(ok: bool)                      // was a verified session terminated?
    | NotStarted(code: Code)                 // the SSH executable could not be started, and why
    | Unidentified                           // no identity of the new process in time
    | NoMarker(code: Code)                   // no remote identity in time, and why
    | Endpoint(ok: bool)                     // the endpoint check
    | ForwardingDenied                       // what an exited SSH process had printed
    | Proxy(report: Option<Code>)            // the inspection of the local proxy, and what failed
    | Refused                                // the system would not signal the process
    | Lingers                                // the signalled process did not exit in time
    | Raises                                 // an exception

  const EMPTY_LEDGER := Ledger({}, {}, {}, None, {})

  function SawMatch(l: Ledger, id: Identity): Ledger {
    l.(matched := l.matched + {id}, verified := None)
  }

  function SawGone(l: Ledger, id: Identity): Ledger {
    l.(gone := l.gone + {id}, verified := None)
  }

  function SawAbsent(l: Ledger, port: int): Ledger {
    l.(absent := l.absent + {port}, verified := None)
  }

  function SawAnswer(l: Ledger, answer: Answer): Ledger {
    l.(answers := l.answers + {answer}, verified := None)
  }

  function SawOwner(l: Ledger, remote: Remote): Ledger {
    l.(verified := Some(remote))
  }

  /** A held profile lock; `pending` is an SSH child started by its holder and not yet recorded. */
  datatype Hold = Hold(agent: Agent, pending: Option<Identity>, ledger: Ledger)

  /** For which profile, and by whom, RAB started a process. */
  datatype Origin = Origin(name: string, starter: Agent)

  datatype State = State(
    profiles: map<string, Profile>,
    records: map<string, Record>,
    holds: map<string, Hold>,
    table: map<int, Identity>,
    used: set<Identity>,
    origin: map<Identity, Origin>)

  const EMPTY_STATE := State(map[], map[], map[], map[], {}, map[])

  datatype Action =
    | Exit(id: Identity)
    | Spawn(id: Identity)
    | Lock(agent: Agent, name: string)
    | Unlock(agent: Agent, name: string)
    | CreateProfile(agent: Agent, profile: Profile)
    | UpdateProfile(agent: Agent, profile: Profile)
    | DeleteProfile(agent: Agent, name: string)
    | BeginOperation(agent: Agent, name: string)
    | RecordChild(agent: Agent, record: Record)
    | SaveRecord(agent: Agent, record: Record)
    | ClearRecord(agent: Agent, name: string)
    | StartChild(agent: Agent, name: string, id: Identity)
    | StopChild(agent: Agent, name: string, id: Identity)
    | Signal(agent: Agent, name: string)
    | SeeMatch(agent: Agent, name: string, id: Identity)
    | SeeGone(agent: Agent, name: string, id: Identity)
    | SeeAbsent(agent: Agent, name: string, port: int)
    | SeeOwnership(agent: Agent, name: string, remote: Remote)
    | KillRemote(agent: Agent, name: string, remote: Remote)
    | Saw(agent: Agent, name: string, answer: Answer)

  function Actor(act: Action): Option<Agent> {
    if act.Exit? || act.Spawn? then None else Some(act.agent)
  }

  // ---------------------------------------------------------------- processes

  predicate Live(s: State, id: Identity) {
    id.pid in s.table && s.table[id.pid] == id
  }

  /** ProcessInspector.matches: same pid and executable, creation time within 0.1 seconds. */
  predicate Close(a: Identity, b: Identity) {
    a.exe == b.exe && -0.1 < a.created - b.created < 0.1
  }

  predicate Matches(s: State, r: Record) {
    r.pid in s.table && Close(s.table[r.pid], RecId(r))
  }

  /** Two processes with one pid and one executable are created at least 0.1 seconds apart. */
  predicate Separated(used: set<Identity>) {
    forall i, j | i in used && j in used && i.pid == j.pid && Close(i, j) :: i == j
  }

  /** The system hands out a pid only when no process has it and no unreaped child holds it. */
  predicate Fresh(s: State, id: Identity) {
    && id.pid !in s.table
    && (forall n | n in s.holds && s.holds[n].pending.Some? :: s.holds[n].pending.value.pid != id.pid)
    && id !in s.used
    && Separated(s.used + {id})
  }

  // ---------------------------------------------------------------- the rule of each action

  predicate Holds(s: State, a: Agent, n: string) {
    n in s.holds && s.holds[n].agent == a
  }

  /** The evidence rule: seen to match and then seen gone, or the port seen free. */
  predicate Released(l: Ledger, r: Record) {
    (RecId(r) in l.matched && RecId(r) in l.gone) || r.port in l.absent
  }

  predicate MayClear(s: State, n: string)
    requires n in s.holds
  {
    n in s.records ==>
      var r := s.records[n];
      !Live(s, RecId(r)) && (r.remote.Some? ==> Released(s.holds[n].ledger, r))
  }

  /** A record is written for a process RAB started, on its profile's port. */
  predicate Fits(s: State, r: Record) {
    && r.name in s.profiles && s.profiles[r.name].remotePort == r.port
    && RecId(r) in s.origin && s.origin[RecId(r)].name == r.name
  }

  /** The first record of a child: its remote session has just been verified. */
  predicate MayRecord(s: State, a: Agent, r: Record) {
    && Holds(s, a, r.name) && Fits(s, r) && r.name !in s.records
    && s.holds[r.name].pending == Some(RecId(r))
    && r.remote.Some? && s.holds[r.name].ledger.verified == r.remote
  }

  /** Later writes change the probe time only, or put a removed record back. */
  predicate MaySave(s: State, a: Agent, r: Record) {
    && Holds(s, a, r.name) && Fits(s, r) && s.holds[r.name].pending.None?
    && (r.name in s.records ==> r == s.records[r.name].(probedAt := r.probedAt))
  }

  /** A profile changes only while it is not in use, and never in its managed part. */
  predicate MayUpdate(s: State, a: Agent, p: Profile) {
    && Holds(s, a, p.name) && p.name !in s.records && s.holds[p.name].pending.None?
    && p.name in s.profiles && p.managed == s.profiles[p.name].managed
  }

  predicate Enabled(s: State, act: Action) {
    match act
    case Exit(id) => Live(s, id)
    case Spawn(id) => Fresh(s, id)
    case Lock(a, n) => n !in s.holds
    case Unlock(a, n) => Holds(s, a, n) && s.holds[n].pending.None?
    case CreateProfile(a, p) => Holds(s, a, p.name) && p.name !in s.profiles
    case UpdateProfile(a, p) => MayUpdate(s, a, p)
    case DeleteProfile(a, n) =>
      && Holds(s, a, n) && n !in s.records && s.holds[n].pending.None?
      && n in s.profiles && s.profiles[n].managed.None?
    case BeginOperation(a, n) => Holds(s, a, n)
    case RecordChild(a, r) => MayRecord(s, a, r)
    case SaveRecord(a, r) => MaySave(s, a, r)
    case ClearRecord(a, n) => Holds(s, a, n) && MayClear(s, n)
    case StartChild(a, n, id) =>
      Holds(s, a, n) && s.holds[n].pending.None? && n !in s.records && Fresh(s, id)
    case StopChild(a, n, id) => Holds(s, a, n) && id in s.origin && s.origin[id] == Origin(n, a)
    case Signal(a, n) => Holds(s, a, n) && n in s.records && Matches(s, s.records[n])
    case SeeMatch(a, n, id) => Holds(s, a, n) && Live(s, id)
    case SeeGone(a, n, id) => Holds(s, a, n) && id in s.used && !Live(s, id)
    case SeeAbsent(a, n, port) => Holds(s, a, n)
    case SeeOwnership(a, n, remote) => Holds(s, a, n)
    case KillRemote(a, n, remote) => Holds(s, a, n) && s.holds[n].ledger.verified == Some(remote)
    case Saw(a, n, answer) => Holds(s, a, n)
  }

  // ---------------------------------------------------------------- the effect of each action

  function WithLedger(s: State, n: string, l: Ledger): State
    requires n in s.holds
  {
    s.(holds := s.holds[n := s.holds[n].(ledger := l)])
  }

  function Kill(s: State, id: Identity): State {
    if Live(s, id) then s.(table := s.table - {id.pid}) else s
  }

  /** A pending child that is no longer alive is forgotten. */
  function Drop(s: State, n: string, id: Identity): State
    requires n in s.holds
  {
    if s.holds[n].pending == Some(id) then s.(holds := s.holds[n := s.holds[n].(pending := None)]) else s
  }

  function Apply(s: State, act: Action): State
    requires Enabled(s, act)
  {
    match act
    case Exit(id) => Kill(s, id)
    case Spawn(id) => s.(table := s.table[id.pid := id], used := s.used + {id})
    case Lock(a, n) => s.(holds := s.holds[n := Hold(a, None, EMPTY_LEDGER)])
    case Unlock(a, n) => s.(holds := s.holds - {n})
    case CreateProfile(a, p) => s.(profiles := s.profiles[p.name := p])
    case UpdateProfile(a, p) => s.(profiles := s.profiles[p.name := p])
    case DeleteProfile(a, n) => s.(profiles := s.profiles - {n})
    case BeginOperation(a, n) => WithLedger(s, n, EMPTY_LEDGER)
    case RecordChild(a, r) =>
      s.(records := s.records[r.name := r], holds := s.holds[r.name := Hold(a, None, EMPTY_LEDGER)])
    case SaveRecord(a, r) => s.(records := s.records[r.name := r])
    case ClearRecord(a, n) => s.(records := s.records - {n})
    case StartChild(a, n, id) =>
      s.(table := s.table[id.pid := id],
         used := s.used + {id},
         origin := s.origin[id := Origin(n, a)],
         holds := s.holds[n := s.holds[n].(pending := Some(id))])
    case StopChild(a, n, id) => Drop(Kill(s, id), n, id)
    case Signal(a, n) => s
    case SeeMatch(a, n, id) => WithLedger(s, n, SawMatch(s.holds[n].ledger, id))
    case SeeGone(a, n, id) => Drop(WithLedger(s, n, SawGone(s.holds[n].ledger, id)), n, id)
    case SeeAbsent(a, n, port) => WithLedger(s, n, SawAbsent(s.holds[n].ledger, port))
    case SeeOwnership(a, n, remote) => WithLedger(s, n, SawOwner(s.holds[n].ledger, remote))
    case KillRemote(a, n, remote) => s
    case Saw(a, n, answer) => WithLedger(s, n, SawAnswer(s.holds[n].ledger, answer))
  }

  // ---------------------------------------------------------------- the invariant

  ghost predicate TableInv(s: State) {
    && (forall pid | pid in s.table :: s.table[pid].pid == pid && s.table[pid] in s.used)
    && Separated(s.used)
    && (forall id | id in s.origin :: id in s.used)
  }

  /** A record's profile exists, has the record's port, and the record names a process RAB started. */
  ghost predicate RecordInv(s: State) {
    && (forall n | n in s.profiles :: s.profiles[n].name == n)
    && (forall n | n in s.records ::
          && s.records[n].name == n
          && n in s.profiles && s.profiles[n].remotePort == s.records[n].port
          && RecId(s.records[n]) in s.origin && s.origin[RecId(s.records[n])].name == n)
  }

  /** The child of an acquire in progress: no record beside it, and its pid names nothing else. */
  ghost predicate PendingOk(s: State, n: string) {
    n in s.holds && s.holds[n].pending.Some? ==>
      var id := s.holds[n].pending.value;
      && n !in s.records
      && id in s.origin && s.origin[id] == Origin(n, s.holds[n].agent)
      && (id.pid in s.table ==> Live(s, id))
  }

  ghost predicate PendingInv(s: State) {
    forall n | n in s.holds :: PendingOk(s, n)
  }

  ghost predicate Accounted(s: State, id: Identity)
    requires id in s.origin
  {
    var n := s.origin[id].name;
    || (n in s.records && RecId(s.records[n]) == id)
    || (n in s.holds && s.holds[n].pending == Some(id))
  }

  /** Every live process RAB started is the recorded one, or the child of an acquire in progress. */
  ghost predicate NoOrphans(s: State) {
    forall id | id in s.origin && Live(s, id) :: Accounted(s, id)
  }

  ghost predicate Inv(s: State) {
    TableInv(s) && RecordInv(s) && PendingInv(s) && NoOrphans(s)
  }

  ghost predicate Init(s: State) {
    Inv(s) && s.holds == map[]
  }

  lemma EmptyStateIsInit()
    ensures Init(EMPTY_STATE)
  {
  }

  // ---------------------------------------------------------------- runs

  predicate IsRun(s: State, acts: seq<Action>) {
    acts == [] || (IsRun(s, acts[..|acts| - 1]) && Enabled(Exec(s, acts[..|acts| - 1]), acts[|acts| - 1]))
  }

  /** The state an interleaving leads to; an action that is not enabled would change nothing. */
  function Exec(s: State, acts: seq<Action>): State {
    if acts == [] then s
    else
      var before := Exec(s, acts[..|acts| - 1]);
      if Enabled(before, acts[|acts| - 1]) then Apply(before, acts[|acts| - 1]) else before
  }
}
