/** What holds of every run of the machine, whatever crashes and restarts it contains. */
module RunTheorems {
  import opened Wrappers
  import opened Predicates
  import F = Frontier
  import opened PackJournal
  import opened RunModel
  import opened RunSafety

  function Reached(cfg: Config, steps: seq<Step>): World
    requires Legal(cfg, INIT, steps)
  {
    After(cfg, INIT, steps)
  }

  lemma ReachedIsSafe(cfg: Config, steps: seq<Step>)
    requires Legal(cfg, INIT, steps)
    ensures Inv(Reached(cfg, steps))
  {
    assert Inv(INIT);
    InvariantHolds(cfg, INIT, steps);
  }

  // ----- The notebook and the journal agree -----

  /** Which journal entry a run has tells how far it may be, and the notebook never claims more than the
    * journal and the verification support. */
  ghost predicate Agree(w: World, i: RunId)
    requires i < |w.runs|
  {
    var r := w.runs[i];
    var effects := w.book.effects[KeyOf(r)];
    match StateOf(w, i)
    case None => (BeforeDispatch(r.status) || r.status == DISPATCHED) && effects == 0
    case Some(IN_FLIGHT) => r.status == DISPATCHED && effects <= 1
    case Some(SUCCEEDED) =>
      && effects == 1
      && (r.status == DISPATCHED || r.status == DONE || r.status == REPLAN_REQUIRED)
      && (r.status == DONE ==> Verified(w, i, true) || WaitPending(r.action, Replay(w.book.entries[KeyOf(r)])))
      && (r.status == REPLAN_REQUIRED ==> Verified(w, i, false))
    case Some(ERRED) => effects == 1 && (r.status == DISPATCHED || r.status == FAILED)
    case Some(EXPIRED) => false
  }

  /** Every pack-owned run, at every point, after every crash. */
  lemma NotebookAndJournalAgree(cfg: Config, steps: seq<Step>, i: RunId)
    requires Legal(cfg, INIT, steps) && i < |Reached(cfg, steps).runs|
    requires Reached(cfg, steps).runs[i].action.owner != BUILTIN
    ensures Agree(Reached(cfg, steps), i)
  {
    ReachedIsSafe(cfg, steps);
    PairsAgree(Reached(cfg, steps), i);
  }

  lemma PairsAgree(w: World, i: RunId)
    requires i < |w.runs| && IsPack(w.runs[i]) && RunOk(w, i)
    ensures Agree(w, i)
  {
    match w.runs[i].status
    case PROPOSED =>
    case WAITING_APPROVAL =>
    case AUTHORIZED =>
    case DISPATCHED =>
    case DONE =>
    case FAILED =>
    case REPLAN_REQUIRED =>
    case ABORTED =>
    case UNKNOWN =>
  }

  // ----- At most once -----

  lemma KeysNeverRepeat(cfg: Config, steps: seq<Step>, i: RunId, j: RunId)
    requires Legal(cfg, INIT, steps) && i < |Reached(cfg, steps).runs| && j < |Reached(cfg, steps).runs| && i != j
    ensures KeyOf(Reached(cfg, steps).runs[i]) != KeyOf(Reached(cfg, steps).runs[j])
  {
    ReachedIsSafe(cfg, steps);
  }

  /** A step adds to the log of a run's effects exactly when it starts one. */
  lemma StepLogsItsEffect(cfg: Config, w: World, s: Step, i: RunId)
    requires KeysOk(w) && PcOk(w) && Enabled(cfg, w, s) && i < |w.runs|
    ensures Apply(cfg, w, s).book.effects[KeyOf(w.runs[i])] ==
            w.book.effects[KeyOf(w.runs[i])] + if s == StartEffect(i) then 1 else 0
  {
    if s.StartEffect? && s.run != i {
      KeysAreDistinct(w, i, s.run);
    }
  }

  lemma NewRunHasNoEffect(cfg: Config, w: World, s: Step, i: RunId)
    requires Inv(w) && Enabled(cfg, w, s) && |w.runs| <= i < |Apply(cfg, w, s).runs|
    ensures s != StartEffect(i) && Apply(cfg, w, s).book.effects[KeyOf(Apply(cfg, w, s).runs[i])] == 0
  {
    NewRunIsOk(cfg, w, s);
  }

  lemma {:induction false} LogCountsEffects(cfg: Config, steps: seq<Step>, i: RunId)
    requires Legal(cfg, INIT, steps) && i < |Reached(cfg, steps).runs|
    ensures Reached(cfg, steps).book.effects[KeyOf(Reached(cfg, steps).runs[i])] == multiset(steps)[StartEffect(i)]
  {
    var so, s := steps[..|steps| - 1], steps[|steps| - 1];
    var w := Reached(cfg, so);
    assert steps == so + [s];
    ReachedIsSafe(cfg, so);
    if i < |w.runs| {
      LogCountsEffects(cfg, so, i);
      OnlyTheLastRunMoves(cfg, w, s, i);
      StepLogsItsEffect(cfg, w, s, i);
    } else {
      NewRunHasNoEffect(cfg, w, s, i);
      NotStartedBefore(cfg, so, i);
    }
  }

  lemma StartsNeedARun(cfg: Config, w: World, s: Step, i: RunId)
    requires Enabled(cfg, w, s) && i >= |Apply(cfg, w, s).runs|
    ensures i >= |w.runs| && s != StartEffect(i)
  {
  }

  lemma {:induction false} NotStartedBefore(cfg: Config, steps: seq<Step>, i: RunId)
    requires Legal(cfg, INIT, steps) && i >= |Reached(cfg, steps).runs|
    ensures StartEffect(i) !in multiset(steps)
  {
    if steps != [] {
      var so, s := steps[..|steps| - 1], steps[|steps| - 1];
      assert steps == so + [s];
      StartsNeedARun(cfg, Reached(cfg, so), s, i);
      NotStartedBefore(cfg, so, i);
    }
  }

  /** The effect of a run starts at most once over the whole history. */
  lemma EffectStartsAtMostOnce(cfg: Config, steps: seq<Step>, i: RunId)
    requires Legal(cfg, INIT, steps)
    ensures multiset(steps)[StartEffect(i)] <= 1
  {
    if i < |Reached(cfg, steps).runs| {
      LogCountsEffects(cfg, steps, i);
      ReachedIsSafe(cfg, steps);
      assert RunOk(Reached(cfg, steps), i);
    } else {
      NotStartedBefore(cfg, steps, i);
    }
  }

  /** When it starts, the run is DISPATCHED and its journal entry says IN_FLIGHT, both committed before. */
  lemma EffectFollowsBothCommits(cfg: Config, before: seq<Step>, i: RunId)
    requires Legal(cfg, INIT, before) && Enabled(cfg, Reached(cfg, before), StartEffect(i))
    ensures var w := Reached(cfg, before);
            && w.runs[i].status == DISPATCHED && StateOf(w, i) == Some(IN_FLIGHT)
            && multiset(before)[StartEffect(i)] == 0
  {
    ReachedIsSafe(cfg, before);
    LogCountsEffects(cfg, before, i);
  }

  // ----- Locks -----

  ghost predicate DispatchedDisjoint(w: World) {
    forall i, j | 0 <= i < j < |w.runs| && w.runs[i].status == DISPATCHED && w.runs[j].status == DISPATCHED ::
      Disjoint(w.runs[i].action, w.runs[j].action)
  }

  /** On the planner path the locks of the DISPATCHED runs are pairwise disjoint, crashes and restarts
    * included. */
  lemma PlannerPathStaysDisjoint(cfg: Config, steps: seq<Step>)
    requires Legal(cfg, INIT, steps) && forall i | 0 <= i < |steps| && steps[i].CreateRun? :: steps[i].refreshed
    ensures DispatchedDisjoint(Reached(cfg, steps))
  {
    ReachedIsSafe(cfg, steps);
    AllRefreshed(cfg, steps);
  }

  lemma {:induction false} AllRefreshed(cfg: Config, steps: seq<Step>)
    requires Legal(cfg, INIT, steps) && forall i | 0 <= i < |steps| && steps[i].CreateRun? :: steps[i].refreshed
    ensures forall i | 0 <= i < |Reached(cfg, steps).runs| :: Reached(cfg, steps).runs[i].refreshed
  {
    if steps != [] {
      var so, s := steps[..|steps| - 1], steps[|steps| - 1];
      AllRefreshed(cfg, so);
      ReachedIsSafe(cfg, so);
      forall i | 0 <= i < |Reached(cfg, so).runs| ensures Reached(cfg, steps).runs[i].refreshed {
        OnlyTheLastRunMoves(cfg, Reached(cfg, so), s, i);
      }
    }
  }

  /** In general a dispatch keeps them disjoint exactly when its locks are not durably held already.  The
    * operator path does not look. */
  lemma DispatchKeepsDisjointIffUnlocked(cfg: Config, w: World, i: RunId, facts: Facts)
    requires Inv(w) && Enabled(cfg, w, Dispatch(i, facts)) && DispatchedDisjoint(w)
    ensures DispatchedDisjoint(Apply(cfg, w, Dispatch(i, facts))) <==> !F.Locked(w.runs[i].action, DurableLocks(w.runs))
    ensures w.runs[i].refreshed ==> !F.Locked(w.runs[i].action, DurableLocks(w.runs))
  {
    var v := Apply(cfg, w, Dispatch(i, facts));
    assert i == |w.runs| - 1 && w.runs[i].status == AUTHORIZED && FreshOk(w, i);
    if F.Locked(w.runs[i].action, DurableLocks(w.runs)) {
      var k :| k in w.runs[i].action.locks && k in DurableLocks(w.runs);
      var j :| 0 <= j < |w.runs| && w.runs[j].status == DISPATCHED && k in w.runs[j].action.locks;
      assert k in LockSet(v.runs[j].action) && k in LockSet(v.runs[i].action);
      assert j < i && v.runs[j] == w.runs[j] && !Disjoint(v.runs[j].action, v.runs[i].action);
    } else {
      forall j, k | 0 <= j < k < |v.runs| && v.runs[j].status == DISPATCHED && v.runs[k].status == DISPATCHED
        ensures Disjoint(v.runs[j].action, v.runs[k].action)
      {
        if k == i {
          FreshMeansDisjoint(w.runs, w.runs[i].action, j);
        }
      }
    }
  }

  /** The in-memory lock set is empty whenever a run asks for its locks, so the branch for a lock conflict
    * is not reached. */
  lemma LocksAreAlwaysFree(cfg: Config, steps: seq<Step>, i: RunId)
    requires Legal(cfg, INIT, steps) && Reached(cfg, steps).pc == Created(i)
    ensures Reached(cfg, steps).held == {} && Enabled(cfg, Reached(cfg, steps), Acquire(i))
  {
    ReachedIsSafe(cfg, steps);
  }

  // ----- What the engine has left -----

  /** The engine is not working on the run: it has returned from it, or it crashed. */
  predicate Left(w: World, i: RunId) {
    i < |w.runs| && (w.pc.Idle? || w.pc.run != i)
  }

  /** Nothing resumes a run: once the engine has left it, its row and its journal entry stay as they are,
    * and its effect is not started again. */
  lemma {:induction false} LeftRunsAreFrozen(cfg: Config, w: World, steps: seq<Step>, i: RunId)
    requires Inv(w) && Legal(cfg, w, steps) && Left(w, i)
    ensures var v := After(cfg, w, steps); Left(v, i) && v.runs[i] == w.runs[i] && SameFor(w, v, i)
  {
    if steps != [] {
      var so, s := steps[..|steps| - 1], steps[|steps| - 1];
      LeftRunsAreFrozen(cfg, w, so, i);
      InvariantHolds(cfg, w, so);
      OthersAreTheSame(cfg, After(cfg, w, so), s, i);
      SameForTransits(w, After(cfg, w, so), After(cfg, w, steps), i);
    }
  }

  lemma SameForTransits(u: World, v: World, w: World, i: RunId)
    requires i < |u.runs| && SameFor(u, v, i) && SameFor(v, w, i)
    ensures SameFor(u, w, i)
  {
    assert w.grants[..|u.grants|] == w.grants[..|v.grants|][..|u.grants|];
  }

  /** So the locks of a run that a crash left DISPATCHED stay excluded for good: no run of the planner path
    * that wants one of them is ever created again. */
  lemma StaleDispatchExcludesForever(cfg: Config, w: World, steps: seq<Step>, i: RunId, s: Step)
    requires Inv(w) && Legal(cfg, w, steps) && Left(w, i) && w.runs[i].status == DISPATCHED
    requires s.CreateRun? && s.refreshed && Enabled(cfg, After(cfg, w, steps), s)
    ensures Disjoint(w.runs[i].action, s.action)
  {
    LeftRunsAreFrozen(cfg, w, steps, i);
    FreshMeansDisjoint(After(cfg, w, steps).runs, s.action, i);
  }
}
