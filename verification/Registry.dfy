/**
 The in-process worker registry of RuntimeManager as a state machine: each action is one
 critical section under the registry lock, or the end of a worker thread, and any number of
 callers interleave (app/services/runtime_manager.py).
 */
module Registries {
  import opened Wrappers
  import opened SupervisorLogs

  type Caller = nat

  /** A worker thread; `final` is the last phase its supervisor published, whatever that is. */
  datatype Worker = Worker(name: string, stopSet: bool, finished: bool, final: Phase)

  datatype Registry = Registry(
    created: seq<Worker>,           // every worker this manager ever created
    workers: map<string, nat>,      // _workers: which of them is registered under a name
    stopping: set<string>,          // _stopping_profiles
    closed: bool,                   // _closed
    stoppers: map<string, Caller>)  // whose stop or shutdown cleanup is in flight for a name

  const EMPTY_REGISTRY := Registry([], map[], {}, false, map[])

  datatype RegAction =
    | Create(caller: Caller, name: string)
    | Finish(id: nat, phase: Phase)
    | BeginStop(caller: Caller, name: string)
    | AskStop(caller: Caller, id: nat)
    | EndStop(caller: Caller, name: string)
    | EndUnsupervised(caller: Caller, name: string, expected: Option<nat>)
    | Close(caller: Caller)

  predicate Finished(g: Registry, id: nat) {
    id < |g.created| && g.created[id].finished
  }

  predicate MyStop(g: Registry, c: Caller, n: string) {
    n in g.stoppers && g.stoppers[n] == c
  }

  predicate RegEnabled(g: Registry, act: RegAction) {
    match act
    case Create(_, n) => !g.closed && n !in g.stopping && (n in g.workers ==> Finished(g, g.workers[n]))
    case Finish(id, phase) => id < |g.created| && !g.created[id].finished
    case BeginStop(_, n) => n !in g.stopping
    case AskStop(_, id) => id < |g.created|
    case EndStop(c, n) => MyStop(g, c, n)
    case EndUnsupervised(c, n, _) => MyStop(g, c, n)
    case Close(_) => true
  }

  /** Pops the entry only when it is still the expected worker and that worker has finished. */
  function Popped(g: Registry, n: string, expected: Option<nat>): map<string, nat> {
    if n in g.workers && Some(g.workers[n]) == expected && Finished(g, g.workers[n]) then g.workers - {n} else g.workers
  }

  /** shutdown's first section sets the stop event of every registered unfinished worker. */
  function AskedAll(g: Registry): (created: seq<Worker>)
    ensures |created| == |g.created|
    ensures forall id | 0 <= id < |created| ::
              created[id] == g.created[id].(stopSet := g.created[id].stopSet || AsksOnClose(g, id))
  {
    seq(|g.created|, id requires 0 <= id < |g.created| =>
      g.created[id].(stopSet := g.created[id].stopSet || AsksOnClose(g, id)))
  }

  predicate AsksOnClose(g: Registry, id: nat)
    requires id < |g.created|
  {
    var n := g.created[id].name;
    n in g.workers && g.workers[n] == id && !g.created[id].finished
  }

  function RegApply(g: Registry, act: RegAction): Registry
    requires RegEnabled(g, act)
  {
    match act
    case Create(_, n) =>
      g.(created := g.created + [Worker(n, false, false, STARTING)], workers := g.workers[n := |g.created|])
    case Finish(id, phase) => g.(created := g.created[id := g.created[id].(finished := true, final := phase)])
    case BeginStop(c, n) => g.(stopping := g.stopping + {n}, stoppers := g.stoppers[n := c])
    case AskStop(_, id) => g.(created := g.created[id := g.created[id].(stopSet := true)])
    case EndStop(_, n) => g.(stopping := g.stopping - {n}, stoppers := g.stoppers - {n})
    case EndUnsupervised(_, n, expected) =>
      g.(workers := Popped(g, n, expected), stopping := g.stopping - {n}, stoppers := g.stoppers - {n})
    case Close(_) => g.(created := AskedAll(g), closed := true)
  }

  // ---------------------------------------------------------------- the invariant

  /** Entries name workers of their own name. */
  ghost predicate EntriesFit(g: Registry) {
    forall n | n in g.workers :: g.workers[n] < |g.created| && g.created[g.workers[n]].name == n
  }

  ghost predicate UnfinishedAreRegistered(g: Registry) {
    forall id | 0 <= id < |g.created| && !g.created[id].finished ::
      g.created[id].name in g.workers && g.workers[g.created[id].name] == id
  }

  ghost predicate AskedOnceClosed(g: Registry) {
    g.closed ==> forall id | 0 <= id < |g.created| && !g.created[id].finished :: g.created[id].stopSet
  }

  /**
   Every unfinished worker is the one registered under its name; after the close all of them
   are asked to stop; a name is in `stopping` exactly while one caller is stopping it.
   */
  ghost predicate RegInv(g: Registry) {
    && EntriesFit(g) && UnfinishedAreRegistered(g) && AskedOnceClosed(g)
    && g.stopping == g.stoppers.Keys
  }

  lemma StepKeepsEntries(g: Registry, act: RegAction)
    requires EntriesFit(g) && RegEnabled(g, act)
    ensures EntriesFit(RegApply(g, act))
  {
  }

  lemma StepKeepsRegistered(g: Registry, act: RegAction)
    requires EntriesFit(g) && UnfinishedAreRegistered(g) && RegEnabled(g, act)
    ensures UnfinishedAreRegistered(RegApply(g, act))
  {
    var t := RegApply(g, act);
    forall id | 0 <= id < |t.created| && !t.created[id].finished
      ensures t.created[id].name in t.workers && t.workers[t.created[id].name] == id
    {
      if id < |g.created| {
        assert !g.created[id].finished && t.created[id].name == g.created[id].name;
      }
    }
  }

  lemma StepKeepsAsked(g: Registry, act: RegAction)
    requires UnfinishedAreRegistered(g) && AskedOnceClosed(g) && RegEnabled(g, act)
    ensures AskedOnceClosed(RegApply(g, act))
  {
    var t := RegApply(g, act);
    if t.closed {
      forall id | 0 <= id < |t.created| && !t.created[id].finished ensures t.created[id].stopSet {
        assert id < |g.created| && !g.created[id].finished;
      }
    }
  }

  lemma StepKeepsStopping(g: Registry, act: RegAction)
    requires g.stopping == g.stoppers.Keys && RegEnabled(g, act)
    ensures RegApply(g, act).stopping == RegApply(g, act).stoppers.Keys
  {
  }

  lemma RegStepKeepsInv(g: Registry, act: RegAction)
    requires RegInv(g) && RegEnabled(g, act)
    ensures RegInv(RegApply(g, act))
  {
    hide EntriesFit, UnfinishedAreRegistered, AskedOnceClosed, RegEnabled, RegApply;
    StepKeepsEntries(g, act);
    StepKeepsRegistered(g, act);
    StepKeepsAsked(g, act);
    StepKeepsStopping(g, act);
  }

  predicate IsRegRun(g: Registry, acts: seq<RegAction>) {
    acts == [] || (IsRegRun(g, acts[..|acts| - 1]) && RegEnabled(RegExec(g, acts[..|acts| - 1]), acts[|acts| - 1]))
  }

  function RegExec(g: Registry, acts: seq<RegAction>): Registry {
    if acts == [] then g
    else
      var before := RegExec(g, acts[..|acts| - 1]);
      if RegEnabled(before, acts[|acts| - 1]) then RegApply(before, acts[|acts| - 1]) else before
  }

  lemma {:induction false} RegRunKeepsInv(g: Registry, acts: seq<RegAction>)
    requires RegInv(g) && IsRegRun(g, acts)
    ensures RegInv(RegExec(g, acts))
  {
    if acts != [] {
      RegRunKeepsInv(g, acts[..|acts| - 1]);
      RegStepKeepsInv(RegExec(g, acts[..|acts| - 1]), acts[|acts| - 1]);
    }
  }

  lemma {:induction false} RegRunAppend(g: Registry, acts: seq<RegAction>, more: seq<RegAction>)
    requires IsRegRun(g, acts) && IsRegRun(RegExec(g, acts), more)
    ensures IsRegRun(g, acts + more) && RegExec(g, acts + more) == RegExec(RegExec(g, acts), more)
  {
    if more == [] {
      assert acts + more == acts;
    } else {
      var init := more[..|more| - 1];
      RegRunAppend(g, acts, init);
      assert (acts + more)[..|acts + more| - 1] == acts + init;
      assert (acts + more)[|acts + more| - 1] == more[|more| - 1];
    }
  }

  // ---------------------------------------------------------------- what every interleaving keeps

  /** Registry invariant over any run of any callers: at most one unfinished worker per name. */
  lemma {:induction false} OneWorkerPerName(acts: seq<RegAction>, i: nat, j: nat)
    requires IsRegRun(EMPTY_REGISTRY, acts)
    requires var g := RegExec(EMPTY_REGISTRY, acts);
             i < |g.created| && j < |g.created| && g.created[i].name == g.created[j].name
             && !g.created[i].finished && !g.created[j].finished
    ensures i == j
  {
    RegRunKeepsInv(EMPTY_REGISTRY, acts);
  }

  /** What never changes: workers are never forgotten, revived or released from a stop; a close is for good. */
  ghost predicate Later(g: Registry, t: Registry) {
    && |g.created| <= |t.created|
    && (forall id | 0 <= id < |g.created| ::
          && t.created[id].name == g.created[id].name
          && (g.created[id].finished ==> t.created[id] == g.created[id].(stopSet := t.created[id].stopSet))
          && (g.created[id].stopSet ==> t.created[id].stopSet))
    && (g.closed ==>
          && t.closed && |t.created| == |g.created|
          && forall n | n in t.workers :: n in g.workers && t.workers[n] == g.workers[n])
  }

  lemma RegStepIsLater(g: Registry, act: RegAction)
    requires RegEnabled(g, act)
    ensures Later(g, RegApply(g, act))
  {
  }

  lemma {:induction false} RegRunIsLater(g: Registry, acts: seq<RegAction>)
    requires IsRegRun(g, acts)
    ensures Later(g, RegExec(g, acts))
  {
    if acts != [] {
      RegRunIsLater(g, acts[..|acts| - 1]);
      RegStepIsLater(RegExec(g, acts[..|acts| - 1]), acts[|acts| - 1]);
    }
  }

  /** Is a stop of `n` in flight after these actions: begun, and not ended since? */
  predicate InFlight(acts: seq<RegAction>, n: string) {
    if acts == [] then false
    else
      match acts[|acts| - 1]
      case BeginStop(_, m) => m == n || InFlight(acts[..|acts| - 1], n)
      case EndStop(_, m) => m != n && InFlight(acts[..|acts| - 1], n)
      case EndUnsupervised(_, m, _) => m != n && InFlight(acts[..|acts| - 1], n)
      case _ => InFlight(acts[..|acts| - 1], n)
  }

  /** Stop exclusion: a name is in `stopping` exactly while a stop of it is in flight. */
  lemma {:induction false} StoppingIsInFlight(acts: seq<RegAction>, n: string)
    requires IsRegRun(EMPTY_REGISTRY, acts)
    ensures n in RegExec(EMPTY_REGISTRY, acts).stopping <==> InFlight(acts, n)
  {
    if acts != [] {
      StoppingIsInFlight(acts[..|acts| - 1], n);
    }
  }

  /** While a stop of `n` is in flight no worker is created for `n` and no second stop begins. */
  lemma {:induction false} StopExcludes(acts: seq<RegAction>, k: nat)
    requires IsRegRun(EMPTY_REGISTRY, acts) && k < |acts|
    ensures acts[k].Create? || acts[k].BeginStop? ==> !InFlight(acts[..k], acts[k].name)
  {
    RegRunPrefix(EMPTY_REGISTRY, acts, k);
    if acts[k].Create? || acts[k].BeginStop? {
      StoppingIsInFlight(acts[..k], acts[k].name);
    }
  }

  /** After a close no worker is ever created. */
  lemma {:induction false} NoCreateAfterClose(acts: seq<RegAction>, i: nat, k: nat)
    requires IsRegRun(EMPTY_REGISTRY, acts) && i < k < |acts| && acts[i].Close?
    ensures !acts[k].Create?
  {
    RegRunPrefix(EMPTY_REGISTRY, acts, i);
    RegRunPrefix(EMPTY_REGISTRY, acts, k);
    RegRunTail(EMPTY_REGISTRY, acts, i + 1, k);
  }

  lemma {:induction false} RegRunPrefix(g: Registry, acts: seq<RegAction>, k: nat)
    requires IsRegRun(g, acts) && k <= |acts|
    ensures IsRegRun(g, acts[..k])
    ensures k < |acts| ==> RegEnabled(RegExec(g, acts[..k]), acts[k])
    ensures k < |acts| ==> RegExec(g, acts[..k + 1]) == RegApply(RegExec(g, acts[..k]), acts[k])
    decreases |acts|
  {
    if k == |acts| {
      assert acts[..k] == acts;
    } else {
      var init := acts[..|acts| - 1];
      RegRunPrefix(g, init, k);
      assert init[..k] == acts[..k];
      if k == |acts| - 1 {
        assert acts[..k + 1] == acts;
      } else {
        assert init[..k + 1] == acts[..k + 1];
      }
    }
  }

  lemma {:induction false} RegRunTail(g: Registry, acts: seq<RegAction>, j: nat, k: nat)
    requires IsRegRun(g, acts) && j <= k <= |acts|
    ensures Later(RegExec(g, acts[..j]), RegExec(g, acts[..k]))
    decreases k - j
  {
    if j < k {
      RegRunTail(g, acts, j, k - 1);
      RegRunPrefix(g, acts, k - 1);
      RegStepIsLater(RegExec(g, acts[..k - 1]), acts[k - 1]);
    }
  }

  // ---------------------------------------------------------------- what a caller may rely on

  predicate CalledBy(act: RegAction, c: Caller) {
    !act.Finish? && act.caller == c
  }

  predicate ByOtherCallers(acts: seq<RegAction>, c: Caller) {
    forall i | 0 <= i < |acts| :: !CalledBy(acts[i], c)
  }

  /** While a caller stops `n`, its stop stays its own and the entry of `n` does not move. */
  ghost predicate RegRely(g: Registry, t: Registry, c: Caller) {
    && Later(g, t)
    && (forall n | MyStop(g, c, n) ::
          && MyStop(t, c, n)
          && (n in t.workers <==> n in g.workers)
          && (n in g.workers ==> t.workers[n] == g.workers[n]))
  }

  lemma OtherRegStep(g: Registry, act: RegAction, c: Caller)
    requires RegInv(g) && RegEnabled(g, act) && !CalledBy(act, c)
    ensures RegRely(g, RegApply(g, act), c)
  {
    RegStepIsLater(g, act);
  }

  lemma {:induction false} OthersKeepMyStop(g: Registry, acts: seq<RegAction>, c: Caller)
    requires RegInv(g) && IsRegRun(g, acts) && ByOtherCallers(acts, c)
    ensures RegRely(g, RegExec(g, acts), c)
  {
    if acts != [] {
      var init := acts[..|acts| - 1];
      assert ByOtherCallers(init, c);
      OthersKeepMyStop(g, init, c);
      RegRunKeepsInv(g, init);
      OtherRegStep(RegExec(g, init), acts[|acts| - 1], c);
    }
  }
}
