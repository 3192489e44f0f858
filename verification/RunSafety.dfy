/** What every step of the run machine keeps. */
module RunSafety {
  import opened Wrappers
  import opened Frontier
  import opened PackJournal
  import opened Predicates
  import opened RunModel

  predicate BeforeDispatch(s: RunStatus) {
    s == PROPOSED || s == WAITING_APPROVAL || s == AUTHORIZED
  }

  predicate IsPack(r: Run) {
    r.action.owner != BUILTIN
  }

  function StateOf(w: World, i: RunId): Option<JournalState>
    requires i < |w.runs|
  {
    if KeyOf(w.runs[i]) in w.book.entries then Some(w.book.entries[KeyOf(w.runs[i])].state) else None
  }

  /** The run was verified, and this was found. */
  predicate Verified(w: World, i: RunId, holds: bool)
    requires i < |w.runs|
  {
    i in w.checks && Evaluate(Verification(w.runs[i].action), w.checks[i]) == Of(holds)
  }

  /** The entry of a finished effect says what it came back with. */
  predicate Records(e: Entry, outcome: Realization) {
    match outcome
    case Returns(detail) => e.state == SUCCEEDED && e.detail == detail
    case Throws(kind, message) => e.state == ERRED && e.detail == map["type" := kind, "message" := message]
  }

  ghost predicate OutcomeOk(w: World, i: RunId)
    requires i < |w.runs|
  {
    && (i in w.outcomes ==> w.book.effects[KeyOf(w.runs[i])] == 1)
    && (StateOf(w, i) == Some(SUCCEEDED) || StateOf(w, i) == Some(ERRED) ==>
          i in w.outcomes && Records(w.book.entries[KeyOf(w.runs[i])], w.outcomes[i]))
  }

  /** What the conclusion of a builtin action rests on. */
  predicate BuiltinOk(w: World, i: RunId)
    requires i < |w.runs|
  {
    && (w.runs[i].status == DONE ==> Verified(w, i, true) || w.runs[i].action.verb == "WAIT_UNTIL")
    && (w.runs[i].status == REPLAN_REQUIRED ==> Verified(w, i, false))
  }

  /** The pairs of notebook status and journal state that a pack-owned run may have. */
  ghost predicate PairOk(w: World, i: RunId)
    requires i < |w.runs|
  {
    var r := w.runs[i];
    match r.status
    case PROPOSED => StateOf(w, i) == None
    case WAITING_APPROVAL => StateOf(w, i) == None
    case AUTHORIZED => StateOf(w, i) == None
    case DISPATCHED => StateOf(w, i) != Some(EXPIRED)
    case DONE =>
      && StateOf(w, i) == Some(SUCCEEDED)
      && (Verified(w, i, true) || WaitPending(r.action, Replay(w.book.entries[KeyOf(r)])))
    case FAILED => StateOf(w, i) == Some(ERRED)
    case REPLAN_REQUIRED => StateOf(w, i) == Some(SUCCEEDED) && Verified(w, i, false)
    case ABORTED => false
    case UNKNOWN => false
  }

  /** A row and its journal entry. */
  ghost predicate RunOk(w: World, i: RunId)
    requires i < |w.runs|
  {
    var r := w.runs[i];
    && w.book.effects[KeyOf(r)] <= 1
    && (w.book.effects[KeyOf(r)] == 1 ==> StateOf(w, i) != None)
    && (StateOf(w, i) == Some(SUCCEEDED) || StateOf(w, i) == Some(ERRED) ==> w.book.effects[KeyOf(r)] == 1)
    && (StateOf(w, i) != None ==> w.book.entries[KeyOf(r)].run == i)
    && r.status != UNKNOWN && r.status != ABORTED
    && (IsPack(r) ==> PairOk(w, i))
    && (!IsPack(r) ==> StateOf(w, i) == None && BuiltinOk(w, i))
    && OutcomeOk(w, i)
    && (r.action.approvalRequired && !(r.status == PROPOSED || r.status == WAITING_APPROVAL) ==> Granted(w, i))
  }

  ghost predicate Granted(w: World, i: RunId)
    requires i < |w.runs|
  {
    exists j | 0 <= j < |w.grants| :: Binds(w.grants[j], i, w.runs[i].action)
  }

  ghost predicate RunsOk(w: World) {
    forall i | 0 <= i < |w.runs| :: RunOk(w, i)
  }

  /** One run for each action of each plan, so no two runs share an idempotency key. */
  ghost predicate KeysOk(w: World) {
    && (forall i | 0 <= i < |w.runs| :: w.runs[i].plan < w.plans)
    && (forall i, j | 0 <= i < j < |w.runs| :: !(w.runs[i].plan == w.runs[j].plan && w.runs[i].action.id == w.runs[j].action.id))
  }

  /** Journal entries, effects, approvals and verifications belong to recorded runs. */
  ghost predicate TablesOk(w: World) {
    && (forall k | k in w.book.entries :: w.book.entries[k].run < |w.runs| && k == KeyOf(w.runs[w.book.entries[k].run]))
    && (forall k | k in w.book.effects :: k in w.book.entries)
    && (forall j | 0 <= j < |w.grants| :: w.grants[j].run < |w.runs|)
    && (forall i | i in w.checks :: i < |w.runs|)
    && (forall i | i in w.outcomes :: i < |w.runs|)
  }

  predicate Disjoint(a: Action, b: Action) {
    LockSet(a) !! LockSet(b)
  }

  /** A run of the planner path shares no lock with a run dispatched before it. */
  ghost predicate LocksOk(w: World) {
    forall i, j | 0 <= i < j < |w.runs| && w.runs[i].status == DISPATCHED && w.runs[j].status == DISPATCHED ::
      w.runs[j].refreshed ==> Disjoint(w.runs[i].action, w.runs[j].action)
  }

  /** While the engine works on a run, the in-memory lock set is exactly its locks. */
  predicate HeldOk(w: World) {
    w.held == if HoldsLocks(w.pc) && w.pc.run < |w.runs| then LockSet(w.runs[w.pc.run].action) else {}
  }

  /** A run not yet dispatched keeps out of the way of those that are. */
  predicate FreshOk(w: World, i: RunId)
    requires i < |w.runs|
  {
    BeforeDispatch(w.runs[i].status) && w.runs[i].refreshed ==> !Locked(w.runs[i].action, DurableLocks(w.runs))
  }

  /** The row and the journal entry of the run are where the program counter says. */
  ghost predicate StageOk(w: World)
    requires !w.pc.Idle? && w.pc.run < |w.runs|
  {
    var i := w.pc.run;
    var status, effects := w.runs[i].status, w.book.effects[KeyOf(w.runs[i])];
    match w.pc
    case Created(_) => status == PROPOSED
    case LocksHeld(_) => status == PROPOSED
    case Asking(_) => status == WAITING_APPROVAL
    case Approved(_) => status == WAITING_APPROVAL && Granted(w, i)
    case Authorized(_) => status == AUTHORIZED
    case Dispatched(_) => status == DISPATCHED && StateOf(w, i) == None
    case Journaled(_) => status == DISPATCHED && StateOf(w, i) == Some(IN_FLIGHT) && effects == 0
    case Realizing(_) => status == DISPATCHED && StateOf(w, i) == Some(IN_FLIGHT) && effects == 1 && i !in w.outcomes
    case Realized(_, outcome) =>
      status == DISPATCHED && StateOf(w, i) == Some(IN_FLIGHT) && effects == 1 && i in w.outcomes && w.outcomes[i] == outcome
    case Answered(_, result) => status == DISPATCHED && AnswerOk(w, i, result)
    case Checked(_, result, holds) =>
      status == DISPATCHED && AnswerOk(w, i, result) && result.status == Success && Verified(w, i, holds)
    case Concluded(_) => !BeforeDispatch(status) && status != DISPATCHED
  }

  /** The run the engine works on has the last row. */
  ghost predicate PcOk(w: World) {
    HeldOk(w) && (!w.pc.Idle? ==> w.pc.run == |w.runs| - 1 && FreshOk(w, w.pc.run) && StageOk(w))
  }

  ghost predicate AnswerOk(w: World, i: RunId, result: Result)
    requires i < |w.runs|
  {
    if IsPack(w.runs[i]) then
      (StateOf(w, i) == Some(SUCCEEDED) || StateOf(w, i) == Some(ERRED)) && result == Replay(w.book.entries[KeyOf(w.runs[i])])
    else result.status == Success || result.status == Failure
  }

  ghost predicate Inv(w: World) {
    KeysOk(w) && TablesOk(w) && RunsOk(w) && LocksOk(w) && PcOk(w)
  }

  // ----- Every step keeps every part -----

  lemma KeysAreDistinct(w: World, i: RunId, j: RunId)
    requires KeysOk(w) && i < |w.runs| && j < |w.runs| && i != j
    ensures KeyOf(w.runs[i]) != KeyOf(w.runs[j])
  {
  }

  /** A step either appends a run, or leaves all but the last one alone. */
  lemma OnlyTheLastRunMoves(cfg: Config, w: World, s: Step, i: RunId)
    requires Inv(w) && Enabled(cfg, w, s) && i < |w.runs|
    ensures var v := Apply(cfg, w, s);
            && |w.runs| <= |v.runs|
            && v.runs[i] == w.runs[i].(status := v.runs[i].status)
            && (i < |w.runs| - 1 || w.pc == Idle ==> v.runs[i] == w.runs[i])
            && (v.runs[i].status != w.runs[i].status ==> v.runs[i].status in Allowed(w.runs[i].status))
  {
  }

  lemma StepKeepsKeys(cfg: Config, w: World, s: Step)
    requires Inv(w) && Enabled(cfg, w, s)
    ensures KeysOk(Apply(cfg, w, s))
  {
    var v := Apply(cfg, w, s);
    forall i | 0 <= i < |w.runs| ensures v.runs[i].plan == w.runs[i].plan && v.runs[i].action == w.runs[i].action {
      OnlyTheLastRunMoves(cfg, w, s, i);
    }
  }

  /** A step writes no journal entry but that of the run the engine works on. */
  lemma OnlyItsEntryMoves(cfg: Config, w: World, s: Step, k: Key)
    requires PcOk(w) && Enabled(cfg, w, s)
    ensures var v := Apply(cfg, w, s);
            && (k in w.book.entries ==> k in v.book.entries)
            && (k in v.book.entries ==>
                  || (k in w.book.entries && v.book.entries[k] == w.book.entries[k])
                  || (!w.pc.Idle? && k == KeyOf(w.runs[w.pc.run]) && v.book.entries[k].run == w.pc.run))
            && (k in v.book.effects ==> k in w.book.effects || (!w.pc.Idle? && k == KeyOf(w.runs[w.pc.run]) && k in w.book.entries))
  {
  }

  lemma StepKeepsTables(cfg: Config, w: World, s: Step)
    requires Inv(w) && Enabled(cfg, w, s)
    ensures TablesOk(Apply(cfg, w, s))
  {
    var v := Apply(cfg, w, s);
    forall k | k in v.book.entries ensures v.book.entries[k].run < |v.runs| && k == KeyOf(v.runs[v.book.entries[k].run]) {
      OnlyItsEntryMoves(cfg, w, s, k);
      var i := v.book.entries[k].run;
      assert i < |w.runs| && KeyOf(w.runs[i]) == k;
      OnlyTheLastRunMoves(cfg, w, s, i);
    }
    forall k | k in v.book.effects ensures k in v.book.entries {
      OnlyItsEntryMoves(cfg, w, s, k);
    }
    GrantsHaveRuns(cfg, w, s);
    LogsHaveRuns(cfg, w, s);
  }

  lemma GrantsHaveRuns(cfg: Config, w: World, s: Step)
    requires Inv(w) && Enabled(cfg, w, s)
    ensures var v := Apply(cfg, w, s); forall j | 0 <= j < |v.grants| :: v.grants[j].run < |v.runs|
  {
  }

  lemma LogsHaveRuns(cfg: Config, w: World, s: Step)
    requires Inv(w) && Enabled(cfg, w, s)
    ensures var v := Apply(cfg, w, s);
            && (forall i | i in v.checks :: i < |v.runs|)
            && (forall i | i in v.outcomes :: i < |v.runs|)
  {
  }

  /** Nothing that concerns the run at `i` differs. */
  ghost predicate SameFor(w: World, v: World, i: RunId)
    requires i < |w.runs|
  {
    var k := KeyOf(w.runs[i]);
    && i < |v.runs| && v.runs[i] == w.runs[i]
    && v.book.effects[k] == w.book.effects[k]
    && (k in v.book.entries <==> k in w.book.entries)
    && (k in w.book.entries ==> v.book.entries[k] == w.book.entries[k])
    && |w.grants| <= |v.grants| && v.grants[..|w.grants|] == w.grants
    && (i in v.checks <==> i in w.checks)
    && (i in w.checks ==> v.checks[i] == w.checks[i])
    && (i in w.outcomes <==> i in v.outcomes)
    && (i in w.outcomes ==> v.outcomes[i] == w.outcomes[i])
  }

  lemma GrantedStays(w: World, v: World, i: RunId)
    requires i < |w.runs| && i < |v.runs| && v.runs[i].action == w.runs[i].action && Granted(w, i)
    requires |w.grants| <= |v.grants| && v.grants[..|w.grants|] == w.grants
    ensures Granted(v, i)
  {
    var j :| 0 <= j < |w.grants| && Binds(w.grants[j], i, w.runs[i].action);
    assert v.grants[j] == w.grants[j];
  }

  lemma SameStaysOk(w: World, v: World, i: RunId)
    requires i < |w.runs| && SameFor(w, v, i) && RunOk(w, i)
    ensures RunOk(v, i)
  {
    if Granted(w, i) {
      GrantedStays(w, v, i);
    }
  }

  /** A step concerns no run but the one the engine works on. */
  lemma OthersAreTheSame(cfg: Config, w: World, s: Step, i: RunId)
    requires KeysOk(w) && PcOk(w) && Enabled(cfg, w, s) && i < |w.runs| && (w.pc.Idle? || w.pc.run != i)
    ensures SameFor(w, Apply(cfg, w, s), i)
  {
    if !w.pc.Idle? {
      KeysAreDistinct(w, i, w.pc.run);
    }
  }

  /** A run just created has no trace of an earlier one. */
  lemma NewRunIsOk(cfg: Config, w: World, s: Step)
    requires Inv(w) && Enabled(cfg, w, s) && s.CreateRun?
    ensures RunOk(Apply(cfg, w, s), |w.runs|)
  {
    var r := Run(s.plan, s.action, s.refreshed, PROPOSED);
    assert forall j | 0 <= j < |w.runs| :: KeyOf(w.runs[j]) != KeyOf(r);
  }

  /** A step that leaves the row alone: it writes the journal, or nothing of the run at all. */
  lemma JournalStaysOk(cfg: Config, w: World, s: Step)
    requires PcOk(w) && !w.pc.Idle? && RunOk(w, w.pc.run) && Enabled(cfg, w, s)
    requires s.StartJournal? || s.StartEffect?
    ensures RunOk(Apply(cfg, w, s), w.pc.run)
  {
    var i, v := w.pc.run, Apply(cfg, w, s);
    if Granted(w, i) {
      GrantedStays(w, v, i);
    }
  }

  lemma OutcomeStaysOk(cfg: Config, w: World, s: Step)
    requires PcOk(w) && !w.pc.Idle? && RunOk(w, w.pc.run) && Enabled(cfg, w, s)
    requires s.EndEffect? || s.FinishJournal?
    ensures RunOk(Apply(cfg, w, s), w.pc.run)
  {
    var i, v := w.pc.run, Apply(cfg, w, s);
    if Granted(w, i) {
      GrantedStays(w, v, i);
    }
  }

  /** A step that moves the row on leaves the journal alone. */
  lemma StatusStaysOk(cfg: Config, w: World, s: Step)
    requires PcOk(w) && !w.pc.Idle? && RunOk(w, w.pc.run) && Enabled(cfg, w, s)
    requires s.AskApproval? || s.Authorize? || s.Dispatch?
    ensures RunOk(Apply(cfg, w, s), w.pc.run)
  {
    var i, v := w.pc.run, Apply(cfg, w, s);
    if Granted(w, i) {
      GrantedStays(w, v, i);
    }
  }

  lemma ConclusionStaysOk(cfg: Config, w: World, s: Step)
    requires PcOk(w) && !w.pc.Idle? && RunOk(w, w.pc.run) && Enabled(cfg, w, s) && s.Conclude?
    ensures RunOk(Apply(cfg, w, s), w.pc.run)
  {
    var i, v := w.pc.run, Apply(cfg, w, s);
    if Granted(w, i) {
      GrantedStays(w, v, i);
    }
  }

  /** The other steps touch neither. */
  lemma RestStaysOk(cfg: Config, w: World, s: Step)
    requires PcOk(w) && !w.pc.Idle? && RunOk(w, w.pc.run) && Enabled(cfg, w, s)
    requires !(s.StartJournal? || s.StartEffect? || s.EndEffect? || s.FinishJournal?)
    requires !(s.AskApproval? || s.Authorize? || s.Dispatch? || s.Conclude? || s.CreateRun?)
    ensures RunOk(Apply(cfg, w, s), w.pc.run)
  {
    var i, v := w.pc.run, Apply(cfg, w, s);
    if s.Check? {
      assert v.runs == w.runs && v.book == w.book && v.grants == w.grants;
    } else {
      SameStaysOk(w, v, i);
    }
  }

  /** The run the engine works on stays well. */
  lemma SubjectStaysOk(cfg: Config, w: World, s: Step)
    requires Inv(w) && Enabled(cfg, w, s) && !w.pc.Idle?
    ensures RunOk(Apply(cfg, w, s), w.pc.run)
  {
    if s.StartJournal? || s.StartEffect? {
      JournalStaysOk(cfg, w, s);
    } else if s.EndEffect? || s.FinishJournal? {
      OutcomeStaysOk(cfg, w, s);
    } else if s.AskApproval? || s.Authorize? || s.Dispatch? {
      StatusStaysOk(cfg, w, s);
    } else if s.Conclude? {
      ConclusionStaysOk(cfg, w, s);
    } else {
      RestStaysOk(cfg, w, s);
    }
  }

  lemma StepKeepsRuns(cfg: Config, w: World, s: Step)
    requires Inv(w) && Enabled(cfg, w, s)
    ensures RunsOk(Apply(cfg, w, s))
  {
    var v := Apply(cfg, w, s);
    forall i | 0 <= i < |v.runs| ensures RunOk(v, i) {
      if i == |w.runs| {
        NewRunIsOk(cfg, w, s);
      } else if !w.pc.Idle? && i == w.pc.run {
        SubjectStaysOk(cfg, w, s);
      } else {
        OthersAreTheSame(cfg, w, s, i);
        SameStaysOk(w, v, i);
      }
    }
  }

  // ----- Locks -----

  /** Fewer DISPATCHED rows, fewer durable locks. */
  lemma DurableLocksShrink(a: seq<Run>, b: seq<Run>)
    requires forall i | 0 <= i < |b| && b[i].status == DISPATCHED ::
               i < |a| && a[i].status == DISPATCHED && a[i].action == b[i].action
    ensures DurableLocks(b) <= DurableLocks(a)
  {
    forall k | k in DurableLocks(b) ensures k in DurableLocks(a) {
      var i :| 0 <= i < |b| && b[i].status == DISPATCHED && k in b[i].action.locks;
      assert k in LockSet(a[i].action);
    }
  }

  lemma FreshMeansDisjoint(runs: seq<Run>, a: Action, i: RunId)
    requires !Locked(a, DurableLocks(runs)) && i < |runs| && runs[i].status == DISPATCHED
    ensures Disjoint(runs[i].action, a)
  {
    forall k | k in LockSet(a) ensures k !in LockSet(runs[i].action) {
      assert k in a.locks;
    }
  }

  lemma StepKeepsLocks(cfg: Config, w: World, s: Step)
    requires Inv(w) && Enabled(cfg, w, s)
    ensures LocksOk(Apply(cfg, w, s))
  {
    var v := Apply(cfg, w, s);
    forall i, j | 0 <= i < j < |v.runs| && v.runs[i].status == DISPATCHED && v.runs[j].status == DISPATCHED && v.runs[j].refreshed
      ensures Disjoint(v.runs[i].action, v.runs[j].action)
    {
      OnlyTheLastRunMoves(cfg, w, s, i);
      assert j < |w.runs|;
      OnlyTheLastRunMoves(cfg, w, s, j);
      if w.runs[j].status != DISPATCHED {
        FreshMeansDisjoint(w.runs, w.runs[j].action, i);
      }
    }
  }

  lemma NothingDispatched(cfg: Config, w: World, s: Step, i: RunId)
    requires PcOk(w) && Enabled(cfg, w, s) && i < |Apply(cfg, w, s).runs| && Apply(cfg, w, s).runs[i].status == DISPATCHED
    requires var v := Apply(cfg, w, s); !v.pc.Idle? && v.pc.run < |v.runs| && BeforeDispatch(v.runs[v.pc.run].status)
    ensures i < |w.runs| && w.runs[i] == Apply(cfg, w, s).runs[i]
  {
  }

  lemma ComesFreshOrStays(cfg: Config, w: World, s: Step)
    requires PcOk(w) && Enabled(cfg, w, s)
    requires var v := Apply(cfg, w, s); !v.pc.Idle? && v.pc.run < |v.runs| && BeforeDispatch(v.runs[v.pc.run].status)
    ensures var r := Apply(cfg, w, s).runs[Apply(cfg, w, s).pc.run];
            r.refreshed ==> !Locked(r.action, DurableLocks(w.runs))
  {
  }

  lemma StepKeepsFreshness(cfg: Config, w: World, s: Step)
    requires PcOk(w) && Enabled(cfg, w, s)
    ensures var v := Apply(cfg, w, s);
            !v.pc.Idle? && v.pc.run < |v.runs| ==> FreshOk(v, v.pc.run)
  {
    var v := Apply(cfg, w, s);
    if !v.pc.Idle? && v.pc.run < |v.runs| && BeforeDispatch(v.runs[v.pc.run].status) {
      ComesFreshOrStays(cfg, w, s);
      forall i | 0 <= i < |v.runs| && v.runs[i].status == DISPATCHED ensures i < |w.runs| && w.runs[i] == v.runs[i] {
        NothingDispatched(cfg, w, s, i);
      }
      DurableLocksShrink(w.runs, v.runs);
      FewerLocksLetPass(v.runs[v.pc.run].action, DurableLocks(v.runs), DurableLocks(w.runs));
    }
  }

  lemma FewerLocksLetPass(a: Action, fewer: set<string>, more: set<string>)
    requires fewer <= more
    ensures Locked(a, fewer) ==> Locked(a, more)
  {
  }

  // ----- The program counter -----

  lemma StepKeepsHeld(cfg: Config, w: World, s: Step)
    requires PcOk(w) && Enabled(cfg, w, s)
    ensures var v := Apply(cfg, w, s); HeldOk(v) && (!v.pc.Idle? ==> v.pc.run == |v.runs| - 1)
  {
  }

  /** Up to its dispatch, the stage of a run is its status and its approval. */
  lemma EarlyStage(cfg: Config, w: World, s: Step)
    requires PcOk(w) && Enabled(cfg, w, s) && (!w.pc.Idle? ==> RunOk(w, w.pc.run))
    requires s.CreateRun? || s.Acquire? || s.AskApproval? || s.AutoApprove? || s.Recognise? || s.Authorize? || s.Dispatch?
    ensures StageOk(Apply(cfg, w, s))
  {
    var v := Apply(cfg, w, s);
    if s.AutoApprove? {
      assert Binds(v.grants[|w.grants|], s.run, v.runs[s.run].action);
    }
  }

  /** From then on it is its journal entry, */
  lemma JournalStage(cfg: Config, w: World, s: Step)
    requires PcOk(w) && Enabled(cfg, w, s) && !w.pc.Idle? && RunOk(w, w.pc.run)
    requires s.StartJournal? || s.StartEffect?
    ensures StageOk(Apply(cfg, w, s))
  {
  }

  lemma OutcomeStage(cfg: Config, w: World, s: Step)
    requires PcOk(w) && Enabled(cfg, w, s) && !w.pc.Idle? && RunOk(w, w.pc.run)
    requires s.EndEffect? || s.FinishJournal?
    ensures StageOk(Apply(cfg, w, s))
  {
  }

  /** and then the answer. */
  lemma LateStage(cfg: Config, w: World, s: Step)
    requires PcOk(w) && Enabled(cfg, w, s) && !w.pc.Idle? && RunOk(w, w.pc.run)
    requires s.RunBuiltin? || s.ReplayEntry?
    ensures StageOk(Apply(cfg, w, s))
  {
  }

  lemma LastStage(cfg: Config, w: World, s: Step)
    requires PcOk(w) && Enabled(cfg, w, s) && !w.pc.Idle? && RunOk(w, w.pc.run)
    requires s.Check? || s.Conclude?
    ensures StageOk(Apply(cfg, w, s))
  {
  }

  lemma StepKeepsPc(cfg: Config, w: World, s: Step)
    requires PcOk(w) && Enabled(cfg, w, s) && (!w.pc.Idle? ==> RunOk(w, w.pc.run))
    ensures PcOk(Apply(cfg, w, s))
  {
    var v := Apply(cfg, w, s);
    StepKeepsFreshness(cfg, w, s);
    StepKeepsHeld(cfg, w, s);
    if s.CreateRun? || s.Acquire? || s.AskApproval? || s.AutoApprove? || s.Recognise? || s.Authorize? || s.Dispatch? {
      EarlyStage(cfg, w, s);
    } else if s.StorePlan? || s.Decide? {
      if w.pc.Approved? {
        GrantedStays(w, v, w.pc.run);
      }
    } else if s.StartJournal? || s.StartEffect? {
      JournalStage(cfg, w, s);
    } else if s.EndEffect? || s.FinishJournal? {
      OutcomeStage(cfg, w, s);
    } else if s.RunBuiltin? || s.ReplayEntry? {
      LateStage(cfg, w, s);
    } else if !v.pc.Idle? {
      LastStage(cfg, w, s);
    }
  }

  lemma StepKeepsInv(cfg: Config, w: World, s: Step)
    requires Inv(w) && Enabled(cfg, w, s)
    ensures Inv(Apply(cfg, w, s))
  {
    StepKeepsKeys(cfg, w, s);
    StepKeepsTables(cfg, w, s);
    StepKeepsRuns(cfg, w, s);
    StepKeepsLocks(cfg, w, s);
    StepKeepsPc(cfg, w, s);
  }

  lemma {:induction false} InvariantHolds(cfg: Config, w: World, steps: seq<Step>)
    requires Inv(w) && RunModel.Legal(cfg, w, steps)
    ensures Inv(After(cfg, w, steps))
  {
    if steps != [] {
      InvariantHolds(cfg, w, steps[..|steps| - 1]);
      StepKeepsInv(cfg, After(cfg, w, steps[..|steps| - 1]), steps[|steps| - 1]);
    }
  }
}
