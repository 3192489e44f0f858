/** The runtime database, the in-memory locks and the engine between them, as a machine of single commits.
  *
  * A run and a plan are named by their position in creation order, which stands for their drawn ids. */
module RunModel {
  import opened Wrappers
  import opened Predicates
  import opened Frontier
  import opened PackJournal

  type RunId = nat

  datatype RunStatus =
    | PROPOSED | WAITING_APPROVAL | AUTHORIZED | DISPATCHED
    | DONE | FAILED | ABORTED | REPLAN_REQUIRED | UNKNOWN

  /** `_ALLOWED_TRANSITIONS`. */
  function Allowed(s: RunStatus): set<RunStatus> {
    match s
    case PROPOSED => {WAITING_APPROVAL, AUTHORIZED, ABORTED}
    case WAITING_APPROVAL => {AUTHORIZED, ABORTED}
    case AUTHORIZED => {DISPATCHED, ABORTED}
    case DISPATCHED => {DONE, FAILED, REPLAN_REQUIRED, UNKNOWN}
    case UNKNOWN => {FAILED, REPLAN_REQUIRED}
    case _ => {}
  }

  /** What a status may follow: a run cannot be DISPATCHED unless it is AUTHORIZED, nor DONE unless it is
    * DISPATCHED, and DONE, FAILED, ABORTED and REPLAN_REQUIRED are final. */
  lemma WhatMayFollow(s: RunStatus, t: RunStatus)
    ensures t in Allowed(s) <==>
            match t
            case PROPOSED => false
            case WAITING_APPROVAL => s == PROPOSED
            case AUTHORIZED => s == PROPOSED || s == WAITING_APPROVAL
            case DISPATCHED => s == AUTHORIZED
            case DONE => s == DISPATCHED
            case FAILED => s == DISPATCHED || s == UNKNOWN
            case ABORTED => s == PROPOSED || s == WAITING_APPROVAL || s == AUTHORIZED
            case REPLAN_REQUIRED => s == DISPATCHED || s == UNKNOWN
            case UNKNOWN => s == DISPATCHED
  {
  }

  /** A row of `action_runs`.  `refreshed` tells a run of the planner path, whose action was taken from a
    * frontier compiled just before, from one of the operator path. */
  datatype Run = Run(plan: nat, action: Action, refreshed: bool, status: RunStatus)

  /** A row of `approvals`, bound to a run and to the arguments that were approved. */
  datatype Grant = Grant(run: RunId, verb: string, args: string, approve: bool, expiresMs: int)

  datatype Config = Config(autoApproveLow: bool, packs: set<string>)

  const BUILTIN := "builtin"

  /** Where the engine stands in `_execute_actions`.  It is lost in a crash. */
  datatype Pc =
    | Idle
    | Created(run: RunId)
    | LocksHeld(run: RunId)
    | Asking(run: RunId)
    | Approved(run: RunId)
    | Authorized(run: RunId)
    | Dispatched(run: RunId)
    | Journaled(run: RunId)
    | Realizing(run: RunId)
    | Realized(run: RunId, outcome: Realization)
    | Answered(run: RunId, result: Result)
    | Checked(run: RunId, result: Result, holds: bool)
    | Concluded(run: RunId)

  /** The committed tables, the in-memory lock set, the program counter, and two logs: the facts on which
    * each run was verified, and what its effect came back with. */
  datatype World = World(
    plans: nat, runs: seq<Run>, book: Book, grants: seq<Grant>, held: set<string>, pc: Pc,
    checks: map<RunId, Facts>, outcomes: map<RunId, Realization>)

  const INIT := World(0, [], BLANK, [], {}, Idle, map[], map[])

  datatype Step =
    | StorePlan
    | Decide(grant: Grant)
    | CreateRun(plan: nat, action: Action, refreshed: bool)
    | Acquire(run: RunId)
    | AskApproval(run: RunId)
    | AutoApprove(run: RunId, expiresMs: int)
    | Recognise(run: RunId, nowMs: int)
    | Authorize(run: RunId)
    | Dispatch(run: RunId, facts: Facts)
    | RunBuiltin(run: RunId, result: Result)
    | ReplayEntry(run: RunId)
    | StartJournal(run: RunId)
    | StartEffect(run: RunId)
    | EndEffect(run: RunId, outcome: Realization)
    | FinishJournal(run: RunId)
    | Check(run: RunId, facts: Facts)
    | Conclude(run: RunId)
    | Leave(run: RunId)
    | Abandon(run: RunId)
    | Crash

  function LockSet(a: Action): set<string> {
    set k | k in a.locks
  }

  /** `_active_locks`: derived from the DISPATCHED rows, so it survives a crash. */
  function DurableLocks(runs: seq<Run>): (locks: set<string>)
    ensures forall i | 0 <= i < |runs| && runs[i].status == DISPATCHED :: LockSet(runs[i].action) <= locks
    ensures forall k | k in locks :: exists i | 0 <= i < |runs| :: runs[i].status == DISPATCHED && k in runs[i].action.locks
  {
    if runs == [] then {}
    else
      var last := runs[|runs| - 1];
      DurableLocks(runs[..|runs| - 1]) + if last.status == DISPATCHED then LockSet(last.action) else {}
  }

  function KeyOf(r: Run): Key {
    Key(r.plan, r.action.id, r.action.verb, r.action.args)
  }

  /** `has_valid_approval`. */
  predicate HasValidGrant(grants: seq<Grant>, i: RunId, a: Action, nowMs: int) {
    exists j | 0 <= j < |grants| :: Binds(grants[j], i, a) && grants[j].expiresMs >= nowMs
  }

  predicate Binds(g: Grant, i: RunId, a: Action) {
    g.approve && g.run == i && g.verb == a.verb && g.args == a.args
  }

  /** The action belongs to a pack that the registry knows. */
  predicate InPack(cfg: Config, a: Action) {
    a.owner != BUILTIN && a.owner in cfg.packs
  }

  predicate AutoApproves(cfg: Config, a: Action) {
    a.hazard == LOW && cfg.autoApproveLow
  }

  /** `_verify_action`. */
  function Verification(a: Action): Predicate {
    match a.verify
    case Some(p) => p
    case None => if a.expectedDelta != [] then All(a.expectedDelta) else Always
  }

  /** A timed-out wait that does not count as a failure; it is concluded without verification. */
  predicate WaitPending(a: Action, result: Result) {
    a.verb == "WAIT_UNTIL" && "nonfatal_timeout" in result.detail && result.detail["nonfatal_timeout"] == "true"
  }

  function WithStatus(runs: seq<Run>, i: RunId, s: RunStatus): seq<Run> {
    if i < |runs| then runs[i := runs[i].(status := s)] else runs
  }

  /** What `_finalize_action` writes, once there is something to write. */
  function Conclusion(pc: Pc, a: Action): Option<RunStatus> {
    match pc
    case Answered(_, result) =>
      if result.status == InFlight then Some(UNKNOWN)
      else if result.status == Failure || result.status == Expired then Some(FAILED)
      else if WaitPending(a, result) then Some(DONE)
      else None
    case Checked(_, _, holds) => Some(if holds then DONE else REPLAN_REQUIRED)
    case _ => None
  }

  /** The run has the last row, and its status may become `s`. */
  predicate MayBecome(w: World, i: RunId, s: RunStatus) {
    i < |w.runs| && s in Allowed(w.runs[i].status)
  }

  predicate HoldsLocks(pc: Pc) {
    !pc.Idle? && !pc.Created?
  }

  predicate Enabled(cfg: Config, w: World, s: Step) {
    match s
    case StorePlan => true
    case Decide(g) => g.run < |w.runs|
    case CreateRun(plan, a, refreshed) =>
      && w.pc == Idle && plan < w.plans
      && (forall j | 0 <= j < |w.runs| :: !(w.runs[j].plan == plan && w.runs[j].action.id == a.id))
      && (refreshed ==> !Locked(a, DurableLocks(w.runs)))
    case Acquire(i) => w.pc == Created(i) && i < |w.runs| && !Locked(w.runs[i].action, w.held)
    case AskApproval(i) => w.pc == LocksHeld(i) && MayBecome(w, i, WAITING_APPROVAL) && w.runs[i].action.approvalRequired
    case AutoApprove(i, _) => w.pc == Asking(i) && i < |w.runs| && AutoApproves(cfg, w.runs[i].action)
    case Recognise(i, nowMs) =>
      && w.pc == Asking(i) && i < |w.runs| && !AutoApproves(cfg, w.runs[i].action)
      && HasValidGrant(w.grants, i, w.runs[i].action, nowMs)
    case Authorize(i) =>
      MayBecome(w, i, AUTHORIZED) && w.pc == if w.runs[i].action.approvalRequired then Approved(i) else LocksHeld(i)
    case Dispatch(i, facts) =>
      && w.pc == Authorized(i) && MayBecome(w, i, DISPATCHED)
      && Evaluate(w.runs[i].action.preconditions, facts) == Holds
    case RunBuiltin(i, result) =>
      && w.pc == Dispatched(i) && i < |w.runs| && w.runs[i].action.owner == BUILTIN
      && (result.status == Success || result.status == Failure)
    case ReplayEntry(i) =>
      w.pc == Dispatched(i) && i < |w.runs| && InPack(cfg, w.runs[i].action) && KeyOf(w.runs[i]) in w.book.entries
    case StartJournal(i) =>
      w.pc == Dispatched(i) && i < |w.runs| && InPack(cfg, w.runs[i].action) && KeyOf(w.runs[i]) !in w.book.entries
    case StartEffect(i) => w.pc == Journaled(i) && i < |w.runs|
    case EndEffect(i, _) => w.pc == Realizing(i) && i < |w.runs|
    case FinishJournal(i) => w.pc.Realized? && w.pc.run == i && i < |w.runs|
    case Check(i, facts) =>
      && w.pc.Answered? && w.pc.run == i && i < |w.runs|
      && w.pc.result.status == Success && !WaitPending(w.runs[i].action, w.pc.result)
      && Evaluate(Verification(w.runs[i].action), facts) != Raises
    case Conclude(i) =>
      && !w.pc.Idle? && w.pc.run == i && i < |w.runs|
      && Conclusion(w.pc, w.runs[i].action).Some? && MayBecome(w, i, Conclusion(w.pc, w.runs[i].action).value)
    case Leave(i) => HoldsLocks(w.pc) && w.pc.run == i && i < |w.runs|
    case Abandon(i) => w.pc == Created(i)
    case Crash => true
  }

  function Apply(cfg: Config, w: World, s: Step): World
    requires Enabled(cfg, w, s)
  {
    match s
    case StorePlan => w.(plans := w.plans + 1)
    case Decide(g) => w.(grants := w.grants + [g])
    case CreateRun(plan, a, refreshed) =>
      w.(runs := w.runs + [Run(plan, a, refreshed, PROPOSED)], pc := Created(|w.runs|))
    case Acquire(i) => w.(held := w.held + LockSet(w.runs[i].action), pc := LocksHeld(i))
    case AskApproval(i) => w.(runs := WithStatus(w.runs, i, WAITING_APPROVAL), pc := Asking(i))
    case AutoApprove(i, expiresMs) =>
      w.(grants := w.grants + [Grant(i, w.runs[i].action.verb, w.runs[i].action.args, true, expiresMs)], pc := Approved(i))
    case Recognise(i, _) => w.(pc := Approved(i))
    case Authorize(i) => w.(runs := WithStatus(w.runs, i, AUTHORIZED), pc := Authorized(i))
    case Dispatch(i, _) => w.(runs := WithStatus(w.runs, i, DISPATCHED), pc := Dispatched(i))
    case RunBuiltin(i, result) => w.(pc := Answered(i, result))
    case ReplayEntry(i) => w.(pc := Answered(i, Replay(w.book.entries[KeyOf(w.runs[i])])))
    case StartJournal(i) =>
      w.(book := w.book.(entries := w.book.entries[KeyOf(w.runs[i]) := Entry(i, IN_FLIGHT, map[])]), pc := Journaled(i))
    case StartEffect(i) => w.(book := w.book.(effects := w.book.effects + multiset{KeyOf(w.runs[i])}), pc := Realizing(i))
    case EndEffect(i, outcome) => w.(outcomes := w.outcomes[i := outcome], pc := Realized(i, outcome))
    case FinishJournal(i) =>
      w.(book := w.book.(entries := w.book.entries[KeyOf(w.runs[i]) := Finished(i, w.pc.outcome)]),
         pc := Answered(i, Replay(Finished(i, w.pc.outcome))))
    case Check(i, facts) =>
      w.(checks := w.checks[i := facts],
         pc := Checked(i, w.pc.result, Evaluate(Verification(w.runs[i].action), facts) == Holds))
    case Conclude(i) =>
      w.(runs := WithStatus(w.runs, i, Conclusion(w.pc, w.runs[i].action).value), pc := Concluded(i))
    case Leave(i) => w.(held := w.held - LockSet(w.runs[i].action), pc := Idle)
    case Abandon(i) => w.(pc := Idle)
    case Crash => w.(held := {}, pc := Idle)
  }

  // ----- Runs of the machine -----

  predicate Legal(cfg: Config, w: World, steps: seq<Step>)
    decreases |steps|, 0
  {
    steps != [] ==>
      var so := steps[..|steps| - 1];
      Legal(cfg, w, so) && Enabled(cfg, After(cfg, w, so), steps[|steps| - 1])
  }

  function After(cfg: Config, w: World, steps: seq<Step>): World
    requires Legal(cfg, w, steps)
    decreases |steps|, 1
  {
    if steps == [] then w
    else Apply(cfg, After(cfg, w, steps[..|steps| - 1]), steps[|steps| - 1])
  }

  lemma AfterSnoc(cfg: Config, w: World, steps: seq<Step>, s: Step)
    requires Legal(cfg, w, steps) && Enabled(cfg, After(cfg, w, steps), s)
    ensures Legal(cfg, w, steps + [s])
    ensures After(cfg, w, steps + [s]) == Apply(cfg, After(cfg, w, steps), s)
  {
    assert (steps + [s])[..|steps|] == steps;
  }

  lemma ConcatSnoc(a: seq<Step>, b: seq<Step>, s: Step)
    ensures a + (b + [s]) == a + b + [s]
  {
  }

  lemma {:induction false} LegalConcat(cfg: Config, w: World, a: seq<Step>, b: seq<Step>)
    requires Legal(cfg, w, a) && Legal(cfg, After(cfg, w, a), b)
    ensures Legal(cfg, w, a + b) && After(cfg, w, a + b) == After(cfg, After(cfg, w, a), b)
    decreases |b|
  {
    if b == [] {
      assert a + b == a;
    } else {
      var so, s := b[..|b| - 1], b[|b| - 1];
      LegalConcat(cfg, w, a, so);
      ConcatSnoc(a, so, s);
      AfterSnoc(cfg, w, a + so, s);
      assert b == so + [s];
    }
  }

  /** Worlds that follow from one another by these steps. */
  ghost predicate IsPath(cfg: Config, worlds: seq<World>, steps: seq<Step>) {
    && |worlds| == |steps| + 1
    && forall k | 0 <= k < |steps| :: Enabled(cfg, worlds[k], steps[k]) && worlds[k + 1] == Apply(cfg, worlds[k], steps[k])
  }

  lemma {:induction false} PathIsRun(cfg: Config, worlds: seq<World>, steps: seq<Step>)
    requires IsPath(cfg, worlds, steps)
    ensures Legal(cfg, worlds[0], steps) && After(cfg, worlds[0], steps) == worlds[|steps|]
  {
    if steps != [] {
      PathIsRun(cfg, worlds[..|steps|], steps[..|steps| - 1]);
    }
  }
}
