/** What `_execute_actions` reports of a whole plan, and what may be read off the report. */
module RunReports {
  import opened Wrappers
  import opened Predicates
  import F = Frontier
  import opened PackJournal
  import opened RunModel
  import opened RunSafety
  import opened RunTheorems
  import opened RunLog
  import opened RunDispatch
  import opened Plans

  datatype Error = IllegalTransition(from: RunStatus, to: RunStatus) | Elsewhere

  datatype Report = Report(executed: seq<string>, replan: bool, blocked: Option<RunId>, failed: Option<RunId>)

  const NOTHING := Report([], false, None, None)

  /** The report, or the exception that is thrown instead. */
  datatype Outcome = Returned(report: Report) | Threw(error: Error)

  predicate Continues(c: Course) {
    c.Ended? && c.status == DONE
  }

  /** The exception of an action.  The two branches that ask for REPLAN_REQUIRED too early are refused by
    * the transition table. */
  function Thrown(c: Course): Option<Error> {
    match c
    case Conflict(_) => Some(IllegalTransition(PROPOSED, REPLAN_REQUIRED))
    case Stale(_) => Some(IllegalTransition(AUTHORIZED, REPLAN_REQUIRED))
    case Unread => Some(Elsewhere)
    case Unchecked(_) => Some(Elsewhere)
    case Unanswered(_) => Some(Elsewhere)
    case Unverified(_, _) => Some(Elsewhere)
    case _ => None
  }

  /** The report after an action whose run, if it has one, is `i`. */
  function Told(c: Course, i: RunId, so: Report): Report {
    match c
    case Gone => so.(replan := true)
    case Unapproved(_) => so.(blocked := Some(i))
    case Ended(a, _, status) =>
      so.(executed := so.executed + [a.id],
          replan := so.replan || status == REPLAN_REQUIRED,
          failed := if status == FAILED || status == UNKNOWN then Some(i) else so.failed)
    case _ => so
  }

  /** How the loop goes on after an action. */
  datatype Progress = Goes(report: Report) | Stops(outcome: Outcome)

  function ProgressOf(c: Course, i: RunId, so: Report): Progress {
    if Thrown(c).Some? then Stops(Threw(Thrown(c).value))
    else if !Continues(c) then Stops(Returned(Told(c, i, so)))
    else Goes(Told(c, i, so))
  }

  /** The loop over the actions, from a report so far. */
  function Carry(cfg: Config, w: World, plan: nat, actions: seq<Action>, refreshed: bool, given: seq<Inputs>, so: Report): (World, Outcome)
    requires |given| == |actions|
    decreases |actions|
  {
    if actions == [] then (w, Returned(so))
    else
      var c := CourseOf(cfg, w, plan, actions[0], refreshed, given[0]);
      var v := Performed(cfg, w, plan, refreshed, c, given[0]);
      match ProgressOf(c, |w.runs|, so)
      case Stops(outcome) => (v, outcome)
      case Goes(told) => Carry(cfg, v, plan, actions[1..], refreshed, given[1..], told)
  }

  function AllSteps(cfg: Config, w: World, plan: nat, actions: seq<Action>, refreshed: bool, given: seq<Inputs>): seq<Step>
    requires |given| == |actions|
    decreases |actions|
  {
    if actions == [] then []
    else
      var c := CourseOf(cfg, w, plan, actions[0], refreshed, given[0]);
      StepsOf(cfg, w, plan, refreshed, c, given[0]) +
      if Continues(c) then
        AllSteps(cfg, Performed(cfg, w, plan, refreshed, c, given[0]), plan, actions[1..], refreshed, given[1..])
      else []
  }

  function AllEvents(cfg: Config, w: World, plan: nat, actions: seq<Action>, refreshed: bool, given: seq<Inputs>): seq<Event>
    requires |given| == |actions|
    decreases |actions|
  {
    if actions == [] then []
    else
      var c := CourseOf(cfg, w, plan, actions[0], refreshed, given[0]);
      EventsOf(cfg, w, plan, refreshed, c, given[0]) +
      if Continues(c) then
        AllEvents(cfg, Performed(cfg, w, plan, refreshed, c, given[0]), plan, actions[1..], refreshed, given[1..])
      else []
  }

  /** The plan's actions are distinct and none has a run yet. */
  ghost predicate AllNew(w: World, plan: nat, actions: seq<Action>) {
    && (forall k | 0 <= k < |actions| :: IsNew(w, plan, actions[k].id))
    && (forall j, k | 0 <= j < k < |actions| :: actions[j].id != actions[k].id)
  }

  lemma RestIsNew(cfg: Config, w: World, plan: nat, actions: seq<Action>, refreshed: bool, given: Inputs)
    requires actions != [] && AllNew(w, plan, actions)
    ensures AllNew(Performed(cfg, w, plan, refreshed, CourseOf(cfg, w, plan, actions[0], refreshed, given), given), plan, actions[1..])
  {
    var c := CourseOf(cfg, w, plan, actions[0], refreshed, given);
    var v := Performed(cfg, w, plan, refreshed, c, given);
    FreshCourse(cfg, w, plan, actions[0], refreshed, given);
    var rest := actions[1..];
    forall k | 0 <= k < |rest| ensures IsNew(v, plan, rest[k].id) {
      assert rest[k] == actions[k + 1];
      NewToMore(cfg, w, plan, refreshed, c, given, rest[k].id);
    }
  }

  lemma NewToMore(cfg: Config, w: World, plan: nat, refreshed: bool, c: Course, given: Inputs, id: string)
    requires IsNew(w, plan, id) && (Starts(c) ==> c.action.id != id)
    ensures IsNew(Performed(cfg, w, plan, refreshed, c, given), plan, id)
  {
  }

  /** Carrying out a plan is a run of the machine without a crash, and that is where and by which events it
    * ends. */
  lemma {:induction false} CarryLeads(cfg: Config, w: World, plan: nat, actions: seq<Action>, refreshed: bool, given: seq<Inputs>, so: Report)
    requires |given| == |actions| && w.pc == Idle && plan < w.plans && AllNew(w, plan, actions)
    ensures Leads(cfg, w, AllSteps(cfg, w, plan, actions, refreshed, given), Carry(cfg, w, plan, actions, refreshed, given, so).0,
                  AllEvents(cfg, w, plan, actions, refreshed, given))
    decreases |actions|
  {
    if actions != [] {
      var c := CourseOf(cfg, w, plan, actions[0], refreshed, given[0]);
      var v := Performed(cfg, w, plan, refreshed, c, given[0]);
      var steps, events := StepsOf(cfg, w, plan, refreshed, c, given[0]), EventsOf(cfg, w, plan, refreshed, c, given[0]);
      PerformanceLeads(cfg, w, plan, actions[0], refreshed, given[0]);
      RestIsNew(cfg, w, plan, actions, refreshed, given[0]);
      if Continues(c) {
        CarryLeads(cfg, v, plan, actions[1..], refreshed, given[1..], Told(c, |w.runs|, so));
        LeadsAll(cfg, w, steps, v, events, AllSteps(cfg, v, plan, actions[1..], refreshed, given[1..]),
                 Carry(cfg, w, plan, actions, refreshed, given, so).0, AllEvents(cfg, v, plan, actions[1..], refreshed, given[1..]));
      } else {
        assert steps + [] == steps && events + [] == events;
      }
    }
  }

  // ----- What the report tells -----

  function Ids(actions: seq<Action>): seq<string> {
    seq(|actions|, k requires 0 <= k < |actions| => actions[k].id)
  }

  predicate IsRunOf(r: Run, plan: nat, id: string) {
    r.plan == plan && r.action.id == id
  }

  predicate Failing(s: RunStatus) {
    s == FAILED || s == UNKNOWN
  }

  /** The executed ids are those of the first actions, and each has its run, in order, all but possibly the
    * last DONE. */
  ghost predicate IsPrefix(plan: nat, actions: seq<Action>, added: seq<Run>, ids: seq<string>) {
    && |ids| <= |actions| && |ids| <= |added|
    && ids == Ids(actions[..|ids|])
    && (forall k | 0 <= k < |ids| :: IsRunOf(added[k], plan, ids[k]))
    && (forall k | 0 <= k < |ids| - 1 :: added[k].status == DONE)
  }

  /** The status of the last executed one. */
  function LastStatus(added: seq<Run>, n: nat): RunStatus
    requires n <= |added|
  {
    if n == 0 then DONE else added[n - 1].status
  }

  /** Which case it is: `n` of `total` actions were executed, and run `first` was the first of them. */
  predicate EndsAs(first: RunId, n: nat, total: nat, added: seq<Run>, r: Report)
    requires n <= |added|
  {
    var last := LastStatus(added, n);
    if r.failed.Some? then
      r.failed == Some(first + n - 1) && |added| == n && Failing(last) && r.blocked == None && !r.replan
    else if r.blocked.Some? then
      r.blocked == Some(first + n) && |added| == n + 1 && added[n].status == WAITING_APPROVAL && last == DONE && !r.replan
    else if r.replan then
      |added| == n && (last == DONE || last == REPLAN_REQUIRED)
    else
      |added| == n && n == total && last == DONE
  }

  /** What may be read off a report: `added` are the rows from number `first` on. */
  ghost predicate Truthful(first: RunId, plan: nat, actions: seq<Action>, added: seq<Run>, ids: seq<string>, r: Report) {
    IsPrefix(plan, actions, added, ids) && EndsAs(first, |ids|, |actions|, added, r)
  }

  lemma PrefixFromRest(plan: nat, actions: seq<Action>, done: Run, added: seq<Run>, ids: seq<string>)
    requires actions != [] && IsRunOf(done, plan, actions[0].id) && done.status == DONE
    requires IsPrefix(plan, actions[1..], added, ids)
    ensures IsPrefix(plan, actions, [done] + added, [actions[0].id] + ids)
  {
    var all, allIds := [done] + added, [actions[0].id] + ids;
    assert forall k | 0 <= k < |added| :: all[k + 1] == added[k];
    forall k | 0 <= k < |allIds| ensures allIds[k] == Ids(actions[..|allIds|])[k] && IsRunOf(all[k], plan, allIds[k]) {
      if k > 0 {
        assert allIds[k] == ids[k - 1] == Ids(actions[1..][..|ids|])[k - 1];
      }
    }
  }

  lemma TruthfulFromRest(first: RunId, plan: nat, actions: seq<Action>, done: Run, added: seq<Run>, ids: seq<string>, r: Report)
    requires actions != [] && IsRunOf(done, plan, actions[0].id) && done.status == DONE
    requires Truthful(first + 1, plan, actions[1..], added, ids, r)
    ensures Truthful(first, plan, actions, [done] + added, [actions[0].id] + ids, r)
  {
    PrefixFromRest(plan, actions, done, added, ids);
    assert LastStatus([done] + added, |ids| + 1) == LastStatus(added, |ids|);
  }

  predicate NothingAmiss(so: Report) {
    !so.replan && so.blocked == None && so.failed == None
  }

  /** The same of all that was added to a state and to a report so far. */
  ghost predicate Tells(runs: seq<Run>, so: Report, plan: nat, actions: seq<Action>, after: seq<Run>, r: Report) {
    && so.executed <= r.executed && runs <= after
    && Truthful(|runs|, plan, actions, after[|runs|..], r.executed[|so.executed|..], r)
  }

  lemma TellsFromRest(runs: seq<Run>, so: Report, plan: nat, actions: seq<Action>, done: Run, after: seq<Run>, r: Report)
    requires actions != [] && IsRunOf(done, plan, actions[0].id) && done.status == DONE
    requires Tells(runs + [done], so.(executed := so.executed + [actions[0].id]), plan, actions[1..], after, r)
    ensures Tells(runs, so, plan, actions, after, r)
  {
    var added, ids := after[|runs| + 1..], r.executed[|so.executed| + 1..];
    TruthfulFromRest(|runs|, plan, actions, done, added, ids, r);
    assert runs <= runs + [done] && so.executed <= so.executed + [actions[0].id];
    assert after[|runs|..] == [done] + added;
    assert r.executed[|so.executed|..] == [actions[0].id] + ids;
  }

  /** An action that ends the loop without an exception. */
  lemma TellsOfLast(runs: seq<Run>, so: Report, plan: nat, actions: seq<Action>, refreshed: bool, c: Course)
    requires actions != [] && NothingAmiss(so) && !Continues(c) && Thrown(c) == None
    requires (Starts(c) ==> c.action.id == actions[0].id) && (c.Ended? ==> c.status in Allowed(DISPATCHED))
    ensures Tells(runs, so, plan, actions, Added(runs, plan, refreshed, c), Told(c, |runs|, so))
  {
    var after, r := Added(runs, plan, refreshed, c), Told(c, |runs|, so);
    assert after[|runs|..] == if Starts(c) then [Run(plan, c.action, refreshed, Final(c))] else [];
    assert r.executed[|so.executed|..] == if c.Ended? then [c.action.id] else [];
    if c.Ended? {
      assert Ids(actions[..1]) == [actions[0].id];
    }
  }

  function Added(runs: seq<Run>, plan: nat, refreshed: bool, c: Course): seq<Run> {
    if Starts(c) then runs + [Run(plan, c.action, refreshed, Final(c))] else runs
  }

  lemma OneActionAdds(cfg: Config, w: World, plan: nat, a: Action, refreshed: bool, given: Inputs)
    ensures var c := CourseOf(cfg, w, plan, a, refreshed, given);
            && Performed(cfg, w, plan, refreshed, c, given).runs == Added(w.runs, plan, refreshed, c)
            && (Starts(c) ==> c.action.id == a.id)
            && (c.Ended? ==> c.status in Allowed(DISPATCHED))
  {
    var c := CourseOf(cfg, w, plan, a, refreshed, given);
    FreshCourse(cfg, w, plan, a, refreshed, given);
    if Starts(c) {
      CourseFits(cfg, w, plan, c.action, refreshed, given);
    }
  }

  /** On every normal exit the executed ids are a prefix of the plan's, with all but possibly the last DONE,
    * and the report says which case it is. */
  lemma {:induction false} ReportIsTruthful(cfg: Config, w: World, plan: nat, actions: seq<Action>, refreshed: bool, given: seq<Inputs>, so: Report)
    requires |given| == |actions| && NothingAmiss(so) && Carry(cfg, w, plan, actions, refreshed, given, so).1.Returned?
    ensures var (v, outcome) := Carry(cfg, w, plan, actions, refreshed, given, so);
            Tells(w.runs, so, plan, actions, v.runs, outcome.report)
    decreases |actions|
  {
    if actions == [] {
      assert w.runs[|w.runs|..] == [] && so.executed[|so.executed|..] == [];
      assert Ids(actions[..0]) == [];
    } else {
      var c := CourseOf(cfg, w, plan, actions[0], refreshed, given[0]);
      var told := Told(c, |w.runs|, so);
      OneActionAdds(cfg, w, plan, actions[0], refreshed, given[0]);
      if Continues(c) {
        var u := Performed(cfg, w, plan, refreshed, c, given[0]);
        var (v, outcome) := Carry(cfg, u, plan, actions[1..], refreshed, given[1..], told);
        ReportIsTruthful(cfg, u, plan, actions[1..], refreshed, given[1..], told);
        TellsFromRest(w.runs, so, plan, actions, Run(plan, c.action, refreshed, DONE), v.runs, outcome.report);
      } else {
        TellsOfLast(w.runs, so, plan, actions, refreshed, c);
      }
    }
  }

  // ----- Refused transitions -----

  lemma DispatchedIsNotRefused(cfg: Config, w: World, plan: nat, b: Action, refreshed: bool, given: Inputs)
    ensures var thrown := Thrown(CourseDispatched(cfg, w, plan, b, refreshed, given));
            thrown.Some? ==> thrown.value.Elsewhere?
  {
  }

  /** On the second look at the world it is thrown exactly when the precondition has become false. */
  lemma ThrownOnSecondLook(cfg: Config, w: World, plan: nat, b: Action, refreshed: bool, given: Inputs)
    requires !F.Locked(b, w.held) && (b.approvalRequired ==> Approves(cfg, w.grants, |w.runs|, b, given.nowMs))
    ensures Thrown(CourseAs(cfg, w, plan, b, refreshed, given)) == Some(IllegalTransition(AUTHORIZED, REPLAN_REQUIRED)) <==>
            Test(b.preconditions, given.recheck, With(w, plan, b, refreshed, AUTHORIZED)) == Fails
  {
    var found := Test(b.preconditions, given.recheck, With(w, plan, b, refreshed, AUTHORIZED));
    if found == Holds {
      CourseIsDispatched(cfg, w, plan, b, refreshed, given);
      DispatchedIsNotRefused(cfg, w, plan, b, refreshed, given);
    } else {
      CourseIsStopped(cfg, w, plan, b, refreshed, given, Some(found));
    }
  }

  /** The lock conflict needs a lock that is held when the action begins; between two actions none is. */
  lemma ConflictNeedsALock(cfg: Config, w: World, plan: nat, a: Action, refreshed: bool, given: Inputs)
    requires Inv(w) && w.pc == Idle
    ensures !CourseOf(cfg, w, plan, a, refreshed, given).Conflict?
  {
    var c := CourseOf(cfg, w, plan, a, refreshed, given);
    FreshCourse(cfg, w, plan, a, refreshed, given);
    if c.Conflict? {
      CourseFits(cfg, w, plan, c.action, refreshed, given);
    }
  }

  // ----- What a pass leaves for good -----

  /** A pass over a new action from a state between two actions, and where it leaves the stores. */
  ghost predicate IsPass(cfg: Config, w: World, plan: nat, a: Action, refreshed: bool, given: Inputs, c: Course, v: World) {
    && Inv(w) && w.pc == Idle && plan < w.plans && IsNew(w, plan, a.id)
    && c == CourseOf(cfg, w, plan, a, refreshed, given) && v == Performed(cfg, w, plan, refreshed, c, given)
  }

  lemma PassKeepsInv(cfg: Config, w: World, plan: nat, a: Action, refreshed: bool, given: Inputs, c: Course, v: World)
    requires IsPass(cfg, w, plan, a, refreshed, given, c, v)
    ensures Inv(v)
  {
    PerformanceLeads(cfg, w, plan, a, refreshed, given);
    InvariantHolds(cfg, w, StepsOf(cfg, w, plan, refreshed, c, given));
  }

  /** Nothing that happens later moves the run on which a pass worked, or starts its effect. */
  lemma PassesAreFinal(cfg: Config, w: World, plan: nat, a: Action, refreshed: bool, given: Inputs, c: Course, v: World, steps: seq<Step>)
    requires IsPass(cfg, w, plan, a, refreshed, given, c, v) && Starts(c) && Legal(cfg, v, steps)
    ensures var after, r := After(cfg, v, steps), Run(plan, c.action, refreshed, Final(c));
            && |w.runs| < |after.runs| && after.runs[|w.runs|] == r
            && after.book.effects[KeyOf(r)] == v.book.effects[KeyOf(r)]
            && (BeforeDispatch(Final(c)) ==> after.book.effects[KeyOf(r)] == 0)
  {
    var i := |w.runs|;
    PassKeepsInv(cfg, w, plan, a, refreshed, given, c, v);
    LeftRunsAreFrozen(cfg, v, steps, i);
    assert v.runs[i] == Run(plan, c.action, refreshed, Final(c));
    assert RunOk(v, i);
  }

  lemma RefusedWhere(c: Course)
    requires Thrown(c).Some? && Thrown(c).value.IllegalTransition?
    ensures (c.Conflict? || c.Stale?) && Thrown(c).value.from == Final(c) && Thrown(c).value.to !in Allowed(Final(c))
  {
  }

  lemma StaleWrites(cfg: Config, w: World, plan: nat, refreshed: bool, c: Course, given: Inputs)
    requires c.Stale?
    ensures Performed(cfg, w, plan, refreshed, c, given) ==
            w.(runs := w.runs + [Run(plan, c.action, refreshed, AUTHORIZED)], grants := GrantsAfter(cfg, w, c.action, given))
  {
  }

  /** An action whose pass ends in a refused transition was stale on the second look; only its row and its
    * automatic approval are new.  Its run stays AUTHORIZED whatever happens later, and its effect is never
    * started. */
  lemma RefusedTransitionIsFinal(cfg: Config, w: World, plan: nat, a: Action, refreshed: bool, given: Inputs, c: Course,
                                                    v: World, steps: seq<Step>)
    requires IsPass(cfg, w, plan, a, refreshed, given, c, v) && Legal(cfg, v, steps)
    requires Thrown(c).Some? && Thrown(c).value.IllegalTransition?
    ensures c.Stale? && Thrown(c).value.from == AUTHORIZED && Thrown(c).value.to !in Allowed(AUTHORIZED)
    ensures var after, r := After(cfg, v, steps), Run(plan, c.action, refreshed, AUTHORIZED);
            && v == w.(runs := w.runs + [r], grants := GrantsAfter(cfg, w, c.action, given))
            && |w.runs| < |after.runs| && after.runs[|w.runs|] == r && after.book.effects[KeyOf(r)] == 0
  {
    RefusedWhere(c);
    ConflictNeedsALock(cfg, w, plan, a, refreshed, given);
    StaleWrites(cfg, w, plan, refreshed, c, given);
    PassesAreFinal(cfg, w, plan, a, refreshed, given, c, v, steps);
  }

  /** It does happen: to every action without locks or approval whose precondition holds of the facts of the
    * refresh and fails of those of the second look. */
  lemma SecondLookMayFail(cfg: Config, w: World, plan: nat, a: Action, before: Facts, now: Facts) returns (given: Inputs)
    requires a.locks == [] && !a.approvalRequired
    requires Evaluate(a.preconditions, before) == Holds && Evaluate(a.preconditions, now) == Fails
    ensures CourseOf(cfg, w, plan, a, true, given) == Stale(a)
  {
    given := Inputs(Some(Observation([a], before)), 0, 0, Some(Observation([], now)), Returns(map[]), Raised, None);
    OnlyCandidate(a, before, DurableLocks(w.runs));
    assert FactsOf(given.recheck, With(w, plan, a, true, AUTHORIZED)) == Some(now);
  }

  lemma OnlyCandidate(a: Action, facts: Facts, locked: set<string>)
    requires F.IsLegal(a, facts, locked)
    ensures F.Frontier([a], facts, locked) == Some([a]) && F.LastNamed([a], a.id) == Some(a)
  {
    assert [a][..0] == [];
    assert F.Legal([a][..0], facts, locked) == Some([]) && F.Legal([a], facts, locked) == Some([] + [a]);
    assert [] + [a] == [a];
    assert F.Sort([a]) == [a];
    assert F.Select([a][..0], true) == [] == F.Select([a][..0], false);
    assert F.Select([a], true) == (if F.IsTuning(a) then [a] else []) && F.Select([a], false) == (if F.IsTuning(a) then [] else [a]);
    assert [] + [a] == [a] + [] == [a];
  }

  /** The fact has gone between the two looks. */
  lemma StaleExample(cfg: Config, w: World, plan: nat) returns (a: Action, given: Inputs)
    ensures a.preconditions == Atom("ready", EQ, Num(1.0))
    ensures CourseOf(cfg, w, plan, a, true, given) == Stale(a)
  {
    var p := Atom("ready", EQ, Num(1.0));
    a := F.Action("a", "MOVE", "pack", "", [], F.LOW, false, p, None, [], 0);
    given := SecondLookMayFail(cfg, w, plan, a, map["ready" := Num(1.0)], map[]);
  }

  // ----- Approvals -----

  /** A pass that nobody interrupts stops at the approval exactly when the automatic rule does not give it:
    * its run is its own, so no decision on it can be there yet.  (`RunApprovals` tells what a decision during
    * the pass does.)  The run that it left stays waiting whatever happens later, decisions on it included,
    * and its effect is never started. */
  lemma NeedsHumanStaysWaiting(cfg: Config, w: World, plan: nat, a: Action, refreshed: bool, given: Inputs, c: Course, v: World, steps: seq<Step>)
    requires IsPass(cfg, w, plan, a, refreshed, given, c, v) && Starts(c) && c.action.approvalRequired && Legal(cfg, v, steps)
    ensures c.Unapproved? <==> !AutoApproves(cfg, c.action)
    ensures var after, r := After(cfg, v, steps), Run(plan, c.action, refreshed, WAITING_APPROVAL);
            c.Unapproved? ==> |w.runs| < |after.runs| && after.runs[|w.runs|] == r && after.book.effects[KeyOf(r)] == 0
  {
    FreshCourse(cfg, w, plan, a, refreshed, given);
    CourseFits(cfg, w, plan, c.action, refreshed, given);
    NobodyApproved(w, |w.runs|, c.action, given.nowMs);
    ConflictNeedsALock(cfg, w, plan, a, refreshed, given);
    PassesAreFinal(cfg, w, plan, a, refreshed, given, c, v, steps);
  }

  lemma NobodyApproved(w: World, i: RunId, a: Action, nowMs: int)
    requires TablesOk(w) && i >= |w.runs|
    ensures !HasValidGrant(w.grants, i, a, nowMs)
  {
  }

  // ----- The operator path -----

  /** From `w`, an action without approval gets as far as DISPATCHED, and then the process dies. */
  lemma DispatchAndCrash(cfg: Config, w: World, plan: nat, a: Action, refreshed: bool, facts: Facts) returns (steps: seq<Step>)
    requires MayCreate(w, plan, a, refreshed) && w.held == {} && !a.approvalRequired && Evaluate(a.preconditions, facts) == Holds
    ensures Legal(cfg, w, steps) && After(cfg, w, steps) == w.(runs := w.runs + [Run(plan, a, refreshed, DISPATCHED)])
  {
    var given := Inputs(None, 0, 0, Some(Observation([], facts)), Returns(map[]), Raised, None);
    var i, r := |w.runs|, Run(plan, a, refreshed, DISPATCHED);
    DispatchLeads(cfg, w, plan, a, refreshed, given);
    steps := ClaimSteps(cfg, w, plan, a, refreshed, given) + [Authorize(i), Dispatch(i, facts)];
    AfterSnoc(cfg, w, steps, Crash);
    steps := steps + [Crash];
  }

  lemma TwoPlans(cfg: Config)
    ensures Legal(cfg, INIT, [StorePlan, StorePlan]) && After(cfg, INIT, [StorePlan, StorePlan]) == INIT.(plans := 2)
  {
    PathIsRun(cfg, [INIT, INIT.(plans := 1), INIT.(plans := 2)], [StorePlan, StorePlan]);
  }

  /** Without the refresh the disjointness is lost: after a crash, the operator may dispatch an action whose
    * lock a DISPATCHED run still holds durably, provided that the second look at the world lets both pass. */
  lemma OperatorPathOverlaps(cfg: Config, a: Action, b: Action, k: string, first: Facts, second: Facts)
    requires k in a.locks && k in b.locks && !a.approvalRequired && !b.approvalRequired
    requires Evaluate(a.preconditions, first) == Holds && Evaluate(b.preconditions, second) == Holds
    ensures exists steps :: Legal(cfg, INIT, steps) && !DispatchedDisjoint(Reached(cfg, steps))
  {
    var w := INIT.(plans := 2);
    TwoPlans(cfg);
    var early := DispatchAndCrash(cfg, w, 0, a, true, first);
    var u := w.(runs := w.runs + [Run(0, a, true, DISPATCHED)]);
    var late := DispatchAndCrash(cfg, u, 1, b, false, second);
    var v := u.(runs := u.runs + [Run(1, b, false, DISPATCHED)]);
    LegalConcat(cfg, INIT, [StorePlan, StorePlan], early);
    LegalConcat(cfg, INIT, [StorePlan, StorePlan] + early, late);
    assert k in LockSet(a) && k in LockSet(b) && v.runs[0].action == a && v.runs[1].action == b;
    assert !Disjoint(v.runs[0].action, v.runs[1].action);
  }

  // ----- How a course ends -----

  lemma VerdictIsLast(cfg: Config, w: World, plan: nat, b: Action, refreshed: bool, given: Inputs)
    ensures var c := CourseDispatched(cfg, w, plan, b, refreshed, given);
            c.Ended? ==> c.action == b && c.status in Allowed(DISPATCHED)
  {
  }

  lemma CourseIsDispatched(cfg: Config, w: World, plan: nat, b: Action, refreshed: bool, given: Inputs)
    requires !F.Locked(b, w.held) && (b.approvalRequired ==> Approves(cfg, w.grants, |w.runs|, b, given.nowMs))
    requires Test(b.preconditions, given.recheck, With(w, plan, b, refreshed, AUTHORIZED)) == Holds
    ensures var c := CourseAs(cfg, w, plan, b, refreshed, given);
            c == CourseDispatched(cfg, w, plan, b, refreshed, given) && TakesLocks(c) && !c.Unapproved? && c.action == b
  {
  }

  // ----- A plan of the planner -----

  /** `execute_plan`: the actions that it passes on, once the plan is materialised and stored. */
  datatype Reception = Refused | Stored(actions: seq<Action>) | StoredAndRefused

  function Receive(f: seq<Action>, p: Plan): Reception {
    match Materialize(f, p)
    case ValueError => Refused
    case Ok(q) =>
      match Validate(f, q)
      case ValueError => StoredAndRefused
      case Ok(actions) => Stored(actions)
  }

  /** `_execute_actions` behind the control lease. */
  function CarryUnderLease(cfg: Config, w: World, plan: nat, actions: seq<Action>, refreshed: bool, given: seq<Inputs>, lease: bool): (World, Outcome)
    requires |given| == |actions|
  {
    if actions != [] && !lease then (w, Returned(NOTHING.(replan := true)))
    else Carry(cfg, w, plan, actions, refreshed, given, NOTHING)
  }

  function StepsUnderLease(cfg: Config, w: World, plan: nat, actions: seq<Action>, refreshed: bool, given: seq<Inputs>, lease: bool): seq<Step>
    requires |given| == |actions|
  {
    if actions != [] && !lease then [] else AllSteps(cfg, w, plan, actions, refreshed, given)
  }

  function EventsUnderLease(cfg: Config, w: World, plan: nat, actions: seq<Action>, refreshed: bool, given: seq<Inputs>, lease: bool): seq<Event>
    requires |given| == |actions|
  {
    if actions != [] && !lease then [] else AllEvents(cfg, w, plan, actions, refreshed, given)
  }

  lemma LeaseLeads(cfg: Config, w: World, plan: nat, actions: seq<Action>, refreshed: bool, given: seq<Inputs>, lease: bool)
    requires |given| == |actions| && w.pc == Idle && plan < w.plans && AllNew(w, plan, actions)
    ensures Leads(cfg, w, StepsUnderLease(cfg, w, plan, actions, refreshed, given, lease),
                  CarryUnderLease(cfg, w, plan, actions, refreshed, given, lease).0,
                  EventsUnderLease(cfg, w, plan, actions, refreshed, given, lease))
  {
    CarryLeads(cfg, w, plan, actions, refreshed, given, NOTHING);
  }

  /** A plan just stored has no run yet, and a well-formed plan has no action twice and none from outside
    * the frontier. */
  lemma StoredPlanIsNew(w: World, f: seq<Action>, p: Plan)
    requires KeysOk(w) && WellFormed(p) && Receive(f, p).Stored?
    ensures AllNew(w.(plans := w.plans + 1), w.plans, Receive(f, p).actions)
    ensures |Receive(f, p).actions| <= MAX_HORIZON && forall a | a in Receive(f, p).actions :: a in f
  {
    if Materialize(f, p).Ok? {
      MaterializeIsIdempotent(f, p);
    }
    ValidatesOnlyTheFrontier(f, p);
  }

  lemma StoreLeads(cfg: Config, w: World, stored: World, steps: seq<Step>, v: World, log: seq<Event>)
    requires stored == w.(plans := w.plans + 1) && Leads(cfg, stored, steps, v, log)
    ensures Leads(cfg, w, [StorePlan] + steps, v, [PlanStored] + log)
  {
    OneStep(cfg, w, StorePlan);
    LeadsAll(cfg, w, [StorePlan], stored, [PlanStored], steps, v, log);
  }

  lemma StoredLeads(cfg: Config, w: World, stored: World, actions: seq<Action>, refreshed: bool, given: seq<Inputs>, lease: bool)
    requires stored == w.(plans := w.plans + 1) && w.pc == Idle && |given| == |actions| && AllNew(stored, w.plans, actions)
    ensures Leads(cfg, w, [StorePlan] + StepsUnderLease(cfg, stored, w.plans, actions, refreshed, given, lease),
                  CarryUnderLease(cfg, stored, w.plans, actions, refreshed, given, lease).0,
                  [PlanStored] + EventsUnderLease(cfg, stored, w.plans, actions, refreshed, given, lease))
  {
    var steps := StepsUnderLease(cfg, stored, w.plans, actions, refreshed, given, lease);
    var v := CarryUnderLease(cfg, stored, w.plans, actions, refreshed, given, lease).0;
    LeaseLeads(cfg, stored, w.plans, actions, refreshed, given, lease);
    StoreLeads(cfg, w, stored, steps, v, EventsUnderLease(cfg, stored, w.plans, actions, refreshed, given, lease));
  }

  /** The readings of each action. */
  function InputsFor(actions: seq<Action>, given: nat -> Inputs): (inputs: seq<Inputs>)
    ensures |inputs| == |actions|
  {
    seq(|actions|, given)
  }

  /** `execute_plan`: where a plan leaves the stores and what comes of it. */
  function PlanResult(cfg: Config, w: World, f: seq<Action>, p: Plan, given: nat -> Inputs, lease: bool): (World, Outcome) {
    ReceivedResult(cfg, w, Receive(f, p), given, lease)
  }

  function PlanSteps(cfg: Config, w: World, f: seq<Action>, p: Plan, given: nat -> Inputs, lease: bool): seq<Step> {
    ReceivedSteps(cfg, w, Receive(f, p), given, lease)
  }

  function PlanEvents(cfg: Config, w: World, f: seq<Action>, p: Plan, given: nat -> Inputs, lease: bool): seq<Event> {
    ReceivedEvents(cfg, w, Receive(f, p), given, lease)
  }

  function ReceivedResult(cfg: Config, w: World, r: Reception, given: nat -> Inputs, lease: bool): (World, Outcome) {
    var stored := w.(plans := w.plans + 1);
    match r
    case Refused => (w, Threw(Elsewhere))
    case StoredAndRefused => (stored, Threw(Elsewhere))
    case Stored(actions) => CarryUnderLease(cfg, stored, w.plans, actions, true, InputsFor(actions, given), lease)
  }

  function ReceivedSteps(cfg: Config, w: World, r: Reception, given: nat -> Inputs, lease: bool): seq<Step> {
    match r
    case Refused => []
    case StoredAndRefused => [StorePlan] + []
    case Stored(actions) =>
      [StorePlan] + StepsUnderLease(cfg, w.(plans := w.plans + 1), w.plans, actions, true, InputsFor(actions, given), lease)
  }

  function ReceivedEvents(cfg: Config, w: World, r: Reception, given: nat -> Inputs, lease: bool): seq<Event> {
    match r
    case Refused => []
    case StoredAndRefused => [PlanStored] + []
    case Stored(actions) =>
      [PlanStored] + EventsUnderLease(cfg, w.(plans := w.plans + 1), w.plans, actions, true, InputsFor(actions, given), lease)
  }

  lemma AcceptedLeads(cfg: Config, w: World, r: Reception, given: nat -> Inputs, lease: bool)
    requires w.pc == Idle && r.Stored? && AllNew(w.(plans := w.plans + 1), w.plans, r.actions)
    ensures Leads(cfg, w, ReceivedSteps(cfg, w, r, given, lease), ReceivedResult(cfg, w, r, given, lease).0,
                  ReceivedEvents(cfg, w, r, given, lease))
  {
    var stored, actions, inputs := w.(plans := w.plans + 1), r.actions, InputsFor(r.actions, given);
    assert ReceivedSteps(cfg, w, r, given, lease) == [StorePlan] + StepsUnderLease(cfg, stored, w.plans, actions, true, inputs, lease);
    assert ReceivedEvents(cfg, w, r, given, lease) == [PlanStored] + EventsUnderLease(cfg, stored, w.plans, actions, true, inputs, lease);
    assert ReceivedResult(cfg, w, r, given, lease) == CarryUnderLease(cfg, stored, w.plans, actions, true, inputs, lease);
    StoredLeads(cfg, w, stored, actions, true, inputs, lease);
  }

  lemma RefusedLeads(cfg: Config, w: World, r: Reception, given: nat -> Inputs, lease: bool)
    requires !r.Stored?
    ensures Leads(cfg, w, ReceivedSteps(cfg, w, r, given, lease), ReceivedResult(cfg, w, r, given, lease).0,
                  ReceivedEvents(cfg, w, r, given, lease))
  {
    if r.StoredAndRefused? {
      StoreLeads(cfg, w, w.(plans := w.plans + 1), [], w.(plans := w.plans + 1), []);
    }
  }

  lemma PlanLeads(cfg: Config, w: World, f: seq<Action>, p: Plan, given: nat -> Inputs, lease: bool)
    requires KeysOk(w) && w.pc == Idle && WellFormed(p)
    ensures Leads(cfg, w, PlanSteps(cfg, w, f, p, given, lease), PlanResult(cfg, w, f, p, given, lease).0,
                  PlanEvents(cfg, w, f, p, given, lease))
  {
    var r := Receive(f, p);
    if r.Stored? {
      StoredPlanIsNew(w, f, p);
      AcceptedLeads(cfg, w, r, given, lease);
    } else {
      RefusedLeads(cfg, w, r, given, lease);
    }
  }

  // ----- Steps of the loop -----

  lemma NextCarry(cfg: Config, w: World, plan: nat, actions: seq<Action>, refreshed: bool, given: seq<Inputs>, k: nat, so: Report,
                  c: Course, v: World)
    requires |given| == |actions| && k < |actions|
    requires c == CourseOf(cfg, w, plan, actions[k], refreshed, given[k]) && v == Performed(cfg, w, plan, refreshed, c, given[k])
    ensures var p := ProgressOf(c, |w.runs|, so);
            Carry(cfg, w, plan, actions[k..], refreshed, given[k..], so) ==
            if p.Stops? then (v, p.outcome) else Carry(cfg, v, plan, actions[k + 1..], refreshed, given[k + 1..], p.report)
  {
    assert actions[k..][1..] == actions[k + 1..] && given[k..][1..] == given[k + 1..];
  }

  lemma NextEvents(cfg: Config, w: World, plan: nat, actions: seq<Action>, refreshed: bool, given: seq<Inputs>, k: nat, c: Course, v: World)
    requires |given| == |actions| && k < |actions|
    requires c == CourseOf(cfg, w, plan, actions[k], refreshed, given[k]) && v == Performed(cfg, w, plan, refreshed, c, given[k])
    ensures AllEvents(cfg, w, plan, actions[k..], refreshed, given[k..]) ==
            EventsOf(cfg, w, plan, refreshed, c, given[k]) +
            if Continues(c) then AllEvents(cfg, v, plan, actions[k + 1..], refreshed, given[k + 1..]) else []
  {
    assert actions[k..][1..] == actions[k + 1..] && given[k..][1..] == given[k + 1..];
  }

  lemma NothingMore(told: seq<Event>, now: seq<Event>)
    ensures told + (now + []) == told + now
  {
  }

  /** One turn of the loop, and what is ahead after it. */
  lemma NextTurn(cfg: Config, w: World, plan: nat, actions: seq<Action>, refreshed: bool, given: seq<Inputs>, k: nat, so: Report,
                 told: seq<Event>, c: Course, v: World, p: Progress)
    requires |given| == |actions| && k < |actions| && p == ProgressOf(c, |w.runs|, so)
    requires c == CourseOf(cfg, w, plan, actions[k], refreshed, given[k]) && v == Performed(cfg, w, plan, refreshed, c, given[k])
    ensures var result := Carry(cfg, w, plan, actions[k..], refreshed, given[k..], so);
            var log := told + AllEvents(cfg, w, plan, actions[k..], refreshed, given[k..]);
            var more := told + EventsOf(cfg, w, plan, refreshed, c, given[k]);
            && (p.Stops? ==> result == (v, p.outcome) && log == more)
            && (p.Goes? ==>
                  && result == Carry(cfg, v, plan, actions[k + 1..], refreshed, given[k + 1..], p.report)
                  && log == more + AllEvents(cfg, v, plan, actions[k + 1..], refreshed, given[k + 1..]))
  {
    var now := EventsOf(cfg, w, plan, refreshed, c, given[k]);
    NextCarry(cfg, w, plan, actions, refreshed, given, k, so, c, v);
    NextEvents(cfg, w, plan, actions, refreshed, given, k, c, v);
    if p.Goes? {
      Associate(told, now, AllEvents(cfg, v, plan, actions[k + 1..], refreshed, given[k + 1..]));
    } else {
      NothingMore(told, now);
    }
  }

  // ----- Stops -----

  /** Where an action stops, by what its preparation found; nothing was found without the approval. */
  function StoppedAt(b: Action, found: Option<Truth>): Course {
    if found == None then Unapproved(b) else if found == Some(Raises) then Unchecked(b) else Stale(b)
  }

  lemma CourseIsStopped(cfg: Config, w: World, plan: nat, b: Action, refreshed: bool, given: Inputs, found: Option<Truth>)
    requires !F.Locked(b, w.held) && found != Some(Holds)
    requires found.Some? <==> (b.approvalRequired ==> Approves(cfg, w.grants, |w.runs|, b, given.nowMs))
    requires found.Some? ==> found.value == Test(b.preconditions, given.recheck, With(w, plan, b, refreshed, AUTHORIZED))
    ensures CourseAs(cfg, w, plan, b, refreshed, given) == StoppedAt(b, found)
  {
  }
}
