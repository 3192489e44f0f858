/** When a decision of a human counts. */
module RunApprovals {
  import opened Predicates
  import F = Frontier
  import opened RunModel
  import opened RunSafety
  import opened RunTheorems
  import opened RunLog
  import opened RunDispatch

  /** The engine is on its way to look for an approval of the run. */
  predicate Open(pc: Pc, i: RunId) {
    pc == Created(i) || pc == LocksHeld(i) || pc == Asking(i)
  }

  /** The decision is recorded by the step of that number, before the engine has looked for it. */
  predicate IsTimely(cfg: Config, steps: seq<Step>, n: nat, i: RunId, g: Grant) {
    n < |steps| && steps[n] == Decide(g) && Legal(cfg, INIT, steps[..n]) && Open(Reached(cfg, steps[..n]).pc, i)
  }

  /** A timely decision on these arguments that has not expired by then. */
  predicate Unlocks(cfg: Config, steps: seq<Step>, n: nat, i: RunId, a: Action, g: Grant, nowMs: int) {
    IsTimely(cfg, steps, n, i, g) && Binds(g, i, a) && g.expiresMs >= nowMs
  }

  ghost predicate Unlocked(cfg: Config, steps: seq<Step>, i: RunId, a: Action, nowMs: int) {
    exists n: nat, g :: Unlocks(cfg, steps, n, i, a, g, nowMs)
  }

  /** The engine has looked, and found one. */
  ghost predicate WasUnlocked(cfg: Config, steps: seq<Step>, i: RunId, a: Action) {
    exists m | 0 <= m < |steps| && steps[m].Recognise? && steps[m].run == i :: Unlocked(cfg, steps[..m], i, a, steps[m].nowMs)
  }

  lemma UnlockedStays(cfg: Config, steps: seq<Step>, s: Step, i: RunId, a: Action, nowMs: int)
    requires Unlocked(cfg, steps, i, a, nowMs)
    ensures Unlocked(cfg, steps + [s], i, a, nowMs)
  {
    var n: nat, g :| Unlocks(cfg, steps, n, i, a, g, nowMs);
    assert (steps + [s])[..n] == steps[..n];
    assert Unlocks(cfg, steps + [s], n, i, a, g, nowMs);
  }

  lemma WasUnlockedStays(cfg: Config, steps: seq<Step>, s: Step, i: RunId, a: Action)
    requires WasUnlocked(cfg, steps, i, a)
    ensures WasUnlocked(cfg, steps + [s], i, a)
  {
    var m :| 0 <= m < |steps| && steps[m].Recognise? && steps[m].run == i && Unlocked(cfg, steps[..m], i, a, steps[m].nowMs);
    assert (steps + [s])[..m] == steps[..m] && (steps + [s])[m] == steps[m];
  }

  /** The step before an open run: an approval of it that was there already was there while it was open. */
  lemma WasOpen(cfg: Config, w: World, s: Step, i: RunId, j: nat)
    requires Inv(w) && Enabled(cfg, w, s) && Open(Apply(cfg, w, s).pc, i)
    requires j < |w.grants| && w.grants[j].run == i && j < |Apply(cfg, w, s).grants|
    ensures Open(w.pc, i) && Apply(cfg, w, s).grants[j] == w.grants[j]
  {
    assert w.grants[j].run < |w.runs|;
  }

  /** And one that was not was decided just then. */
  lemma DecidedNow(cfg: Config, w: World, s: Step, i: RunId, j: nat)
    requires Enabled(cfg, w, s) && Open(Apply(cfg, w, s).pc, i)
    requires |w.grants| <= j < |Apply(cfg, w, s).grants|
    ensures s == Decide(Apply(cfg, w, s).grants[j]) && w.pc == Apply(cfg, w, s).pc
  {
  }

  /** While the run is open, an approval of it in the table is a timely decision. */
  lemma {:induction false} ApprovalsOfOpenRuns(cfg: Config, steps: seq<Step>, i: RunId, a: Action, j: nat, nowMs: int)
    requires Legal(cfg, INIT, steps) && Open(Reached(cfg, steps).pc, i) && j < |Reached(cfg, steps).grants|
    requires var g := Reached(cfg, steps).grants[j]; Binds(g, i, a) && g.expiresMs >= nowMs
    ensures Unlocked(cfg, steps, i, a, nowMs)
  {
    var so, s := steps[..|steps| - 1], steps[|steps| - 1];
    var w := Reached(cfg, so);
    var g := Reached(cfg, steps).grants[j];
    assert steps == so + [s];
    ReachedIsSafe(cfg, so);
    if j < |w.grants| {
      WasOpen(cfg, w, s, i, j);
      ApprovalsOfOpenRuns(cfg, so, i, a, j, nowMs);
      UnlockedStays(cfg, so, s, i, a, nowMs);
    } else {
      DecidedNow(cfg, w, s, i, j);
      assert Unlocks(cfg, steps, |so|, i, a, g, nowMs);
    }
  }

  /** A decision that was recorded is in the table. */
  lemma {:induction false} DecisionsAreKept(cfg: Config, steps: seq<Step>, n: nat)
    requires Legal(cfg, INIT, steps) && n < |steps| && steps[n].Decide?
    ensures steps[n].grant in Reached(cfg, steps).grants
  {
    var so, s := steps[..|steps| - 1], steps[|steps| - 1];
    if n < |so| {
      DecisionsAreKept(cfg, so, n);
    }
  }

  lemma UnlockedIsGranted(cfg: Config, steps: seq<Step>, i: RunId, a: Action, nowMs: int)
    requires Legal(cfg, INIT, steps) && Unlocked(cfg, steps, i, a, nowMs)
    ensures HasValidGrant(Reached(cfg, steps).grants, i, a, nowMs)
  {
    var n: nat, g :| Unlocks(cfg, steps, n, i, a, g, nowMs);
    DecisionsAreKept(cfg, steps, n);
  }

  /** The engine, asking for a run that the automatic rule does not approve, goes on exactly if a decision
    * on it was recorded since the run was created and has not expired.  Any process may record it. */
  lemma RecognisedIffDecidedInTime(cfg: Config, steps: seq<Step>, i: RunId, nowMs: int)
    requires Legal(cfg, INIT, steps) && Reached(cfg, steps).pc == Asking(i) && i < |Reached(cfg, steps).runs|
    ensures var w := Reached(cfg, steps);
            && (Enabled(cfg, w, Recognise(i, nowMs)) <==>
                  !AutoApproves(cfg, w.runs[i].action) && Unlocked(cfg, steps, i, w.runs[i].action, nowMs))
            && (Enabled(cfg, w, AutoApprove(i, nowMs)) <==> AutoApproves(cfg, w.runs[i].action))
  {
    var w := Reached(cfg, steps);
    var a := w.runs[i].action;
    if Enabled(cfg, w, Recognise(i, nowMs)) {
      var j :| 0 <= j < |w.grants| && Binds(w.grants[j], i, a) && w.grants[j].expiresMs >= nowMs;
      ApprovalsOfOpenRuns(cfg, steps, i, a, j, nowMs);
    }
    if Unlocked(cfg, steps, i, a, nowMs) {
      UnlockedIsGranted(cfg, steps, i, a, nowMs);
    }
  }

  /** The engine has passed the approval of the run. */
  predicate Passed(w: World, i: RunId)
    requires i < |w.runs|
  {
    w.pc == Approved(i) || (w.runs[i].status != PROPOSED && w.runs[i].status != WAITING_APPROVAL)
  }

  lemma HowItPasses(cfg: Config, w: World, s: Step, i: RunId)
    requires Inv(w) && Enabled(cfg, w, s) && i < |Apply(cfg, w, s).runs| && Passed(Apply(cfg, w, s), i)
    requires i < |w.runs| ==> !Passed(w, i) && w.runs[i].action.approvalRequired && !AutoApproves(cfg, w.runs[i].action)
    ensures i < |w.runs| && s.Recognise? && s.run == i && w.pc == Asking(i)
  {
    if i < |w.runs| {
      OnlyTheLastRunMoves(cfg, w, s, i);
    }
  }

  /** Whatever else happens, crashes included: an action that needs approval and is not approved
    * automatically passes its approval only if a decision bound to its run, verb and arguments was recorded
    * after the run was created, before the engine looked, and had not expired then. */
  lemma {:induction false} NoDispatchWithoutDecision(cfg: Config, steps: seq<Step>, i: RunId)
    requires Legal(cfg, INIT, steps) && i < |Reached(cfg, steps).runs| && Passed(Reached(cfg, steps), i)
    requires var a := Reached(cfg, steps).runs[i].action; a.approvalRequired && !AutoApproves(cfg, a)
    ensures WasUnlocked(cfg, steps, i, Reached(cfg, steps).runs[i].action)
  {
    var so, s := steps[..|steps| - 1], steps[|steps| - 1];
    var w, a := Reached(cfg, so), Reached(cfg, steps).runs[i].action;
    assert steps == so + [s];
    ReachedIsSafe(cfg, so);
    if i < |w.runs| {
      OnlyTheLastRunMoves(cfg, w, s, i);
    }
    if i < |w.runs| && Passed(w, i) {
      NoDispatchWithoutDecision(cfg, so, i);
      WasUnlockedStays(cfg, so, s, i, a);
    } else {
      HowItPasses(cfg, w, s, i);
      RecognisedIffDecidedInTime(cfg, so, i, s.nowMs);
      assert steps[..|so|] == so && steps[|so|] == s;
    }
  }

  /** By step `m` the engine has found what a human decided by step `n`: this verb with these arguments, for
    * this run, approved and not expired when the engine looked. */
  predicate HumanApproved(steps: seq<Step>, n: nat, m: nat, i: RunId, verb: string, args: string) {
    && n < m < |steps| && steps[n].Decide? && steps[m].Recognise? && steps[m].run == i
    && steps[n].grant.approve && steps[n].grant.run == i && steps[n].grant.verb == verb && steps[n].grant.args == args
    && steps[m].nowMs <= steps[n].grant.expiresMs
  }

  lemma UnlockedByAHuman(cfg: Config, steps: seq<Step>, i: RunId, a: Action)
    requires WasUnlocked(cfg, steps, i, a)
    ensures exists n: nat, m: nat :: HumanApproved(steps, n, m, i, a.verb, a.args)
  {
    var m :| 0 <= m < |steps| && steps[m].Recognise? && steps[m].run == i && Unlocked(cfg, steps[..m], i, a, steps[m].nowMs);
    var n: nat, g :| Unlocks(cfg, steps[..m], n, i, a, g, steps[m].nowMs);
    assert HumanApproved(steps, n, m, i, a.verb, a.args);
  }

  /** A run has passed its approval only if none is required, or its hazard is low and the configuration
    * approves that automatically, or a human approved it in time. */
  lemma PassedMeans(cfg: Config, steps: seq<Step>, i: RunId)
    requires Legal(cfg, INIT, steps) && i < |Reached(cfg, steps).runs| && Passed(Reached(cfg, steps), i)
    ensures var a := Reached(cfg, steps).runs[i].action;
            || !a.approvalRequired
            || (a.hazard == F.LOW && cfg.autoApproveLow)
            || exists n: nat, m: nat :: HumanApproved(steps, n, m, i, a.verb, a.args)
  {
    var a := Reached(cfg, steps).runs[i].action;
    if a.approvalRequired && !(a.hazard == F.LOW && cfg.autoApproveLow) {
      NoDispatchWithoutDecision(cfg, steps, i);
      UnlockedByAHuman(cfg, steps, i, a);
    }
  }

  /** The automatic rule is for the low hazard alone, and then nobody is asked. */
  lemma AutomaticOnlyForLow(cfg: Config, w: World, i: RunId, expiresMs: int, nowMs: int)
    requires i < |w.runs| && w.pc == Asking(i)
    ensures var low := w.runs[i].action.hazard == F.LOW && cfg.autoApproveLow;
            && (Enabled(cfg, w, AutoApprove(i, expiresMs)) <==> low)
            && (Enabled(cfg, w, Recognise(i, nowMs)) <==>
                  !low && exists j | 0 <= j < |w.grants| :: IsApprovalOf(w.grants[j], i, w.runs[i].action, nowMs))
  {
    var a := w.runs[i].action;
    assert forall j | 0 <= j < |w.grants| ::
      IsApprovalOf(w.grants[j], i, a, nowMs) <==> Binds(w.grants[j], i, a) && w.grants[j].expiresMs >= nowMs;
  }

  predicate IsApprovalOf(g: Grant, i: RunId, a: Action, nowMs: int) {
    g.approve && g.run == i && g.verb == a.verb && g.args == a.args && nowMs <= g.expiresMs
  }

  /** Under the automatic rule an approval is recorded all the same. */
  lemma NoDispatchWithoutApproval(cfg: Config, steps: seq<Step>, i: RunId)
    requires Legal(cfg, INIT, steps) && i < |Reached(cfg, steps).runs| && Passed(Reached(cfg, steps), i)
    requires Reached(cfg, steps).runs[i].action.approvalRequired
    ensures Granted(Reached(cfg, steps), i)
    ensures var a := Reached(cfg, steps).runs[i].action; AutoApproves(cfg, a) || WasUnlocked(cfg, steps, i, a)
  {
    ReachedIsSafe(cfg, steps);
    assert RunOk(Reached(cfg, steps), i);
    if !AutoApproves(cfg, Reached(cfg, steps).runs[i].action) {
      NoDispatchWithoutDecision(cfg, steps, i);
    }
  }

  /** From the request for the approval to the dispatch. */
  lemma DecisionReachesDispatch(cfg: Config, w: World, plan: nat, a: Action, refreshed: bool, g: Grant, nowMs: int, facts: Facts)
    returns (steps: seq<Step>)
    requires MayCreate(w, plan, a, refreshed) && w.held == {} && a.approvalRequired && !AutoApproves(cfg, a)
    requires g.run == |w.runs| && Binds(g, g.run, a) && g.expiresMs >= nowMs && Evaluate(a.preconditions, facts) == Holds
    ensures Legal(cfg, w, steps)
    ensures After(cfg, w, steps) ==
            Working(w, Run(plan, a, refreshed, DISPATCHED), Dispatched(|w.runs|), w.grants + [g], w.book)
  {
    var i, r := |w.runs|, Run(plan, a, refreshed, WAITING_APPROVAL);
    var asked, decided := [CreateRun(plan, a, refreshed), Acquire(i), AskApproval(i)], [Decide(g), Recognise(i, nowMs)];
    AskLeads(cfg, w, plan, a, refreshed);
    DecisionLeads(cfg, Working(w, r, Asking(i), w.grants, w.book), g, nowMs);
    LegalConcat(cfg, w, asked, decided);
    DispatchFollows(cfg, Working(w, r, Approved(i), w.grants + [g], w.book), i, facts);
    LegalConcat(cfg, w, asked + decided, [Authorize(i), Dispatch(i, facts)]);
    LastBecomes(w.runs, r, AUTHORIZED);
    LastBecomes(w.runs, r.(status := AUTHORIZED), DISPATCHED);
    steps := asked + decided + [Authorize(i), Dispatch(i, facts)];
  }

  /** Such a decision is possible, and then the effect starts, for every new action that needs one, belongs
    * to a registered pack, and has preconditions that hold of some facts: the second look may find these. */
  lemma DecisionInTimeStartsTheEffect(cfg: Config, w: World, plan: nat, a: Action, refreshed: bool, nowMs: int, facts: Facts)
    returns (steps: seq<Step>)
    requires Inv(w) && MayCreate(w, plan, a, refreshed) && a.approvalRequired && !AutoApproves(cfg, a)
    requires InPack(cfg, a) && Evaluate(a.preconditions, facts) == Holds
    ensures Legal(cfg, w, steps) && StartEffect(|w.runs|) in steps
  {
    var i, g := |w.runs|, Grant(|w.runs|, a.verb, a.args, true, nowMs);
    var dispatched := DecisionReachesDispatch(cfg, w, plan, a, refreshed, g, nowMs, facts);
    EffectLeads(cfg, After(cfg, w, dispatched), i);
    LegalConcat(cfg, w, dispatched, [StartJournal(i), StartEffect(i)]);
    steps := dispatched + [StartJournal(i), StartEffect(i)];
    assert steps[|steps| - 1] == StartEffect(i);
  }

  lemma DecisionLeads(cfg: Config, v: World, g: Grant, nowMs: int)
    requires v.pc == Asking(g.run) && g.run < |v.runs| && !AutoApproves(cfg, v.runs[g.run].action)
    requires Binds(g, g.run, v.runs[g.run].action) && g.expiresMs >= nowMs
    ensures var steps := [Decide(g), Recognise(g.run, nowMs)];
            Legal(cfg, v, steps) && After(cfg, v, steps) == v.(grants := v.grants + [g], pc := Approved(g.run))
  {
    var v1 := v.(grants := v.grants + [g]);
    assert v1.grants[|v.grants|] == g;
    TwoSteps(cfg, v, Decide(g), v1, Recognise(g.run, nowMs));
  }

  lemma DispatchFollows(cfg: Config, v: World, i: RunId, facts: Facts)
    requires v.pc == Approved(i) && MayBecome(v, i, AUTHORIZED) && v.runs[i].action.approvalRequired
    requires Evaluate(v.runs[i].action.preconditions, facts) == Holds
    ensures var steps := [Authorize(i), Dispatch(i, facts)];
            && Legal(cfg, v, steps)
            && After(cfg, v, steps) ==
               v.(runs := WithStatus(WithStatus(v.runs, i, AUTHORIZED), i, DISPATCHED), pc := Dispatched(i))
  {
    TwoSteps(cfg, v, Authorize(i), v.(runs := WithStatus(v.runs, i, AUTHORIZED), pc := Authorized(i)), Dispatch(i, facts));
  }
}
