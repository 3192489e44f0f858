/** When an effect starts: what every gate must have said before it, and that nothing else is asked. */
module RunEffects {
  import opened Wrappers
  import opened Predicates
  import F = Frontier
  import opened PackJournal
  import opened RunModel
  import opened RunSafety
  import opened RunTheorems
  import opened RunDispatch
  import opened RunReports
  import opened RunApprovals

  // ----- Over all runs -----

  /** The second look at the world has let the action pass. */
  ghost predicate LookedAgain(steps: seq<Step>, i: RunId, a: Action) {
    exists facts :: Dispatch(i, facts) in steps && Evaluate(a.preconditions, facts) == Holds
  }

  lemma LookedAgainStays(steps: seq<Step>, s: Step, i: RunId, a: Action)
    requires LookedAgain(steps, i, a)
    ensures LookedAgain(steps + [s], i, a)
  {
    var facts :| Dispatch(i, facts) in steps && Evaluate(a.preconditions, facts) == Holds;
    assert Dispatch(i, facts) in steps + [s];
  }

  lemma HowItIsDispatched(cfg: Config, w: World, s: Step, i: RunId)
    requires Inv(w) && Enabled(cfg, w, s) && i < |Apply(cfg, w, s).runs| && !BeforeDispatch(Apply(cfg, w, s).runs[i].status)
    requires i < |w.runs| ==> BeforeDispatch(w.runs[i].status)
    ensures i < |w.runs| && s.Dispatch? && s.run == i
    ensures Evaluate(Apply(cfg, w, s).runs[i].action.preconditions, s.facts) == Holds
  {
    if i < |w.runs| {
      OnlyTheLastRunMoves(cfg, w, s, i);
    }
  }

  lemma {:induction false} DispatchedWasLookedAt(cfg: Config, steps: seq<Step>, i: RunId)
    requires Legal(cfg, INIT, steps) && i < |Reached(cfg, steps).runs| && !BeforeDispatch(Reached(cfg, steps).runs[i].status)
    ensures LookedAgain(steps, i, Reached(cfg, steps).runs[i].action)
  {
    var so, s := steps[..|steps| - 1], steps[|steps| - 1];
    var w, a := Reached(cfg, so), Reached(cfg, steps).runs[i].action;
    assert steps == so + [s];
    ReachedIsSafe(cfg, so);
    if i < |w.runs| && !BeforeDispatch(w.runs[i].status) {
      OnlyTheLastRunMoves(cfg, w, s, i);
      DispatchedWasLookedAt(cfg, so, i);
      LookedAgainStays(so, s, i, a);
    } else {
      HowItIsDispatched(cfg, w, s, i);
    }
  }

  /** While the engine works on the journal of a run, the run's pack is registered. */
  lemma {:induction false} JournaledIsInPack(cfg: Config, steps: seq<Step>)
    requires Legal(cfg, INIT, steps) && Reached(cfg, steps).pc.Journaled? && Reached(cfg, steps).pc.run < |Reached(cfg, steps).runs|
    ensures InPack(cfg, Reached(cfg, steps).runs[Reached(cfg, steps).pc.run].action)
  {
    var so, s := steps[..|steps| - 1], steps[|steps| - 1];
    if s.StorePlan? || s.Decide? {
      JournaledIsInPack(cfg, so);
    }
  }

  /** In no run, whatever crashes and decisions it contains, does an effect start before every gate has let
    * its action pass: the approval, the second look, the registry, and the two commits. */
  lemma EffectNeedsEveryGate(cfg: Config, before: seq<Step>, i: RunId)
    requires Legal(cfg, INIT, before) && Enabled(cfg, Reached(cfg, before), StartEffect(i))
    ensures var w := Reached(cfg, before);
            var a := w.runs[i].action;
            && (a.approvalRequired ==> AutoApproves(cfg, a) || WasUnlocked(cfg, before, i, a))
            && LookedAgain(before, i, a)
            && InPack(cfg, a)
            && w.runs[i].status == DISPATCHED && StateOf(w, i) == Some(IN_FLIGHT) && StartEffect(i) !in before
  {
    EffectFollowsBothCommits(cfg, before, i);
    DispatchedWasLookedAt(cfg, before, i);
    JournaledIsInPack(cfg, before);
    if Reached(cfg, before).runs[i].action.approvalRequired {
      NoDispatchWithoutApproval(cfg, before, i);
    }
  }

  /** So everything that the preconditions require was found to hold on the second look. */
  lemma EffectNeedsEveryConjunct(cfg: Config, before: seq<Step>, i: RunId)
    requires Legal(cfg, INIT, before) && Enabled(cfg, Reached(cfg, before), StartEffect(i))
    ensures exists facts :: Dispatch(i, facts) in before &&
              forall c | IsConjunct(c, Reached(cfg, before).runs[i].action.preconditions) :: Evaluate(c, facts) == Holds
  {
    var a := Reached(cfg, before).runs[i].action;
    EffectNeedsEveryGate(cfg, before, i);
    var facts :| Dispatch(i, facts) in before && Evaluate(a.preconditions, facts) == Holds;
    forall c | IsConjunct(c, a.preconditions) ensures Evaluate(c, facts) == Holds {
      ConjunctsHold(c, a.preconditions, facts);
    }
  }

  /** And without the automatic rule, a human has approved the very action before. */
  lemma EffectNeedsADecision(cfg: Config, before: seq<Step>, i: RunId)
    requires Legal(cfg, INIT, before) && Enabled(cfg, Reached(cfg, before), StartEffect(i))
    requires var a := Reached(cfg, before).runs[i].action; a.approvalRequired && (a.hazard != F.LOW || !cfg.autoApproveLow)
    ensures var a := Reached(cfg, before).runs[i].action;
            exists n: nat, m: nat :: HumanApproved(before, n, m, i, a.verb, a.args)
  {
    EffectFollowsBothCommits(cfg, before, i);
    PassedMeans(cfg, before, i);
  }

  // ----- Over one pass -----

  /** The action that the loop works on: the refreshed one of that id on the planner path, if the frontier
    * still has it, and the given one on the operator path. */
  function TakenUp(w: World, a: Action, refreshed: bool, given: Inputs): Option<Action> {
    if !refreshed then Some(a)
    else match Compiled(given.refresh, w.runs)
      case None => None
      case Some(f) => F.LastNamed(f, a.id)
  }

  /** On the planner path it is an unlocked candidate whose preconditions held when the frontier was
    * compiled; there is none exactly when no candidate of that id is so. */
  lemma TakenUpIsLegal(w: World, a: Action, given: Inputs)
    requires Compiled(given.refresh, w.runs).Some?
    ensures var b, seen := TakenUp(w, a, true, given), given.refresh.value;
            && (b.Some? ==> b.value.id == a.id && b.value in seen.candidates && F.IsLegal(b.value, seen.facts, DurableLocks(w.runs)))
            && (b.None? <==> forall x | x in seen.candidates && x.id == a.id :: !F.IsLegal(x, seen.facts, DurableLocks(w.runs)))
  {
    F.FrontierIsExact(given.refresh.value.candidates, given.refresh.value.facts, DurableLocks(w.runs));
  }

  /** Every gate between a new action and its effect. */
  predicate GatesOpen(cfg: Config, w: World, plan: nat, b: Action, refreshed: bool, given: Inputs) {
    && (b.approvalRequired ==> AutoApproves(cfg, b))
    && Test(b.preconditions, given.recheck, With(w, plan, b, refreshed, AUTHORIZED)) == Holds
    && InPack(cfg, b)
  }

  predicate StartsEffect(cfg: Config, w: World, plan: nat, a: Action, refreshed: bool, given: Inputs) {
    var b := TakenUp(w, a, refreshed, given);
    b.Some? && GatesOpen(cfg, w, plan, b.value, refreshed, given)
  }

  /** Between two actions no lock is held, no approval of the next run can be on record, and its key is new. */
  lemma NothingInTheWay(w: World, plan: nat, b: Action, nowMs: int)
    requires Inv(w) && w.pc == Idle && IsNew(w, plan, b.id)
    ensures !F.Locked(b, w.held) && !HasValidGrant(w.grants, |w.runs|, b, nowMs)
    ensures Key(plan, b.id, b.verb, b.args) !in w.book.entries
  {
  }

  lemma AnsweredByItsOwner(cfg: Config, w: World, plan: nat, b: Action, refreshed: bool, given: Inputs)
    ensures var c := CourseDispatched(cfg, w, plan, b, refreshed, given);
            Starts(c) && c.action == b && (Answers(c) && b.owner != BUILTIN <==> InPack(cfg, b))
  {
  }

  /** How far an action gets, in terms of the gates. */
  lemma CourseByGates(cfg: Config, w: World, plan: nat, b: Action, refreshed: bool, given: Inputs)
    requires !F.Locked(b, w.held) && !HasValidGrant(w.grants, |w.runs|, b, given.nowMs)
    ensures var c := CourseAs(cfg, w, plan, b, refreshed, given);
            Starts(c) && c.action == b && (GatesOpen(cfg, w, plan, b, refreshed, given) <==> Answers(c) && b.owner != BUILTIN)
  {
    var found := Test(b.preconditions, given.recheck, With(w, plan, b, refreshed, AUTHORIZED));
    if b.approvalRequired && !AutoApproves(cfg, b) {
      CourseIsStopped(cfg, w, plan, b, refreshed, given, None);
    } else if found == Holds {
      CourseIsDispatched(cfg, w, plan, b, refreshed, given);
      AnsweredByItsOwner(cfg, w, plan, b, refreshed, given);
    } else {
      CourseIsStopped(cfg, w, plan, b, refreshed, given, Some(found));
    }
  }

  /** Which courses contain the effect. */
  lemma CourseWithEffect(cfg: Config, w: World, plan: nat, refreshed: bool, c: Course, given: Inputs)
    requires Starts(c) && Key(plan, c.action.id, c.action.verb, c.action.args) !in w.book.entries
    ensures StartEffect(|w.runs|) in StepsOf(cfg, w, plan, refreshed, c, given) <==> Answers(c) && c.action.owner != BUILTIN
  {
    var i, start := |w.runs|, StartEffect(|w.runs|);
    assert start !in ClaimSteps(cfg, w, plan, c.action, refreshed, given);
    if Answers(c) {
      assert start in AnswerSteps(w, plan, c.action, given, c.result) <==> c.action.owner != BUILTIN;
    }
    if c.Ended? {
      assert start !in ConclusionSteps(i, c, given);
    }
  }

  lemma CourseOfTakenUp(cfg: Config, w: World, plan: nat, a: Action, refreshed: bool, given: Inputs)
    ensures var c, b := CourseOf(cfg, w, plan, a, refreshed, given), TakenUp(w, a, refreshed, given);
            && (b.None? ==> !Starts(c))
            && (b.Some? ==> b.value.id == a.id && c == CourseAs(cfg, w, plan, b.value, refreshed, given))
  {
  }

  /** A pass starts the effect exactly when every gate is open: the frontier still has the action, nobody's
    * approval is needed but the automatic one, the second look finds its preconditions to hold, and its pack
    * is registered. */
  lemma PassStartsEffectIffGatesOpen(cfg: Config, w: World, plan: nat, a: Action, refreshed: bool, given: Inputs, c: Course, v: World)
    requires IsPass(cfg, w, plan, a, refreshed, given, c, v)
    ensures StartEffect(|w.runs|) in StepsOf(cfg, w, plan, refreshed, c, given) <==> StartsEffect(cfg, w, plan, a, refreshed, given)
  {
    var b := TakenUp(w, a, refreshed, given);
    CourseOfTakenUp(cfg, w, plan, a, refreshed, given);
    if b.Some? {
      NothingInTheWay(w, plan, b.value, given.nowMs);
      CourseByGates(cfg, w, plan, b.value, refreshed, given);
      CourseWithEffect(cfg, w, plan, refreshed, c, given);
    }
  }

  /** And the hardware sees just that one effect, or none. */
  lemma EffectsOfAPass(cfg: Config, w: World, plan: nat, a: Action, refreshed: bool, given: Inputs, c: Course, v: World)
    requires IsPass(cfg, w, plan, a, refreshed, given, c, v)
    ensures v.book.effects == w.book.effects +
            if StartsEffect(cfg, w, plan, a, refreshed, given) then
              var b := TakenUp(w, a, refreshed, given).value; multiset{Key(plan, b.id, b.verb, b.args)}
            else multiset{}
  {
    var b := TakenUp(w, a, refreshed, given);
    CourseOfTakenUp(cfg, w, plan, a, refreshed, given);
    if b.Some? {
      NothingInTheWay(w, plan, b.value, given.nowMs);
      CourseByGates(cfg, w, plan, b.value, refreshed, given);
    }
  }
}
