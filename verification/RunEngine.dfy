/** The execution engine over its database, its locks and the packs.  Every method is proved to leave the
  * stores, and to make things durable in the order, that its specification says; a plan carried out is
  * proved to be a run of the machine. */
module RunEngine {
  import opened Wrappers
  import opened Predicates
  import F = Frontier
  import opened PackJournal
  import opened RunModel
  import opened RunSafety
  import opened RunLog
  import opened RunDispatch
  import opened RunReports
  import opened Plans
  import opened RunStores

  class Engine {
    const cfg: Config
    const tape: Tape
    const db: RuntimeDb
    const locks: LockManager
    const packs: Packs
    ghost var checks: map<RunId, Facts>

    /** The state between two actions. */
    ghost function World(): World reads this, db, locks, packs, packs.db {
      RunModel.World(db.plans, db.runs, packs.Book(), db.grants, locks.held, Idle, checks, packs.outcomes)
    }

    predicate Wired() reads db, locks, packs {
      db.tape == tape && locks.tape == tape && packs.tape == tape && packs.db == db
    }

    ghost predicate Valid() reads this, db, locks, packs, packs.db {
      Wired() && Inv(World())
    }

    constructor (cfg: Config)
      ensures Valid() && World() == INIT && this.cfg == cfg && tape.events == []
      ensures fresh(tape) && fresh(db) && fresh(locks) && fresh(packs)
    {
      var t := new Tape();
      var d := new RuntimeDb(t);
      this.cfg, tape, db, checks := cfg, t, d, map[];
      locks := new LockManager(t);
      packs := new Packs(t, d);
    }

    /** `WorldCompiler.compile`: the frontier and the facts, unless it raises. */
    method Compile(o: Option<Observation>) returns (world: Option<(seq<Action>, Facts)>)
      ensures Compiled(o, db.runs) == if world.Some? then Some(world.value.0) else None
      ensures FactsOf(o, db.runs) == if world.Some? then Some(world.value.1) else None
    {
      if o == None {
        return None;
      }
      var locked := db.ActiveLocks();
      var frontier := F.BuildFrontier(o.value.candidates, o.value.facts, locked);
      if frontier == None {
        return None;
      }
      return Some((frontier.value, o.value.facts));
    }

    /** `HumanGateway.request_approval`. */
    method RequestApproval(id: RunId, a: Action, given: Inputs) returns (approved: bool)
      requires Wired() && id < |db.runs|
      modifies db`grants, tape
      ensures approved <==> Approves(cfg, old(db.grants), id, a, given.nowMs)
      ensures var auto := Grant(id, a.verb, a.args, true, given.expiresMs);
              && db.grants == (if AutoApproves(cfg, a) then old(db.grants) + [auto] else old(db.grants))
              && tape.events == if AutoApproves(cfg, a) then old(tape.events) + [GrantWritten(auto)] else old(tape.events)
    {
      if a.hazard == F.LOW && cfg.autoApproveLow {
        var error := db.RecordApproval(Grant(id, a.verb, a.args, true, given.expiresMs));
        assert error == None;
        return true;
      }
      approved := db.HasValidApproval(id, a, given.nowMs);
    }

    method ExecuteBuiltin(a: Action, given: BuiltinOutcome) returns (result: Option<Result>)
      ensures result == BuiltinAnswer(a, given)
    {
      if a.verb == "WAIT_UNTIL" || a.verb == "CALL_HUMAN" || a.verb == "WAIT" {
        result := match given
          case Completed(detail) => Some(Result(Success, detail))
          case TimedOut(detail) => Some(Result(Failure, detail))
          case Raised => None;
      } else {
        result := Some(Result(Failure, map["reason" := "unknown builtin verb " + a.verb]));
      }
    }

    /** The call of the builtin, or of the pack through its journal; an unknown pack raises. */
    method CallOwner(ghost w: World, plan: nat, b: Action, id: RunId, given: Inputs) returns (answer: Option<Result>)
      requires Wired() && id == |w.runs| && packs.Kept() == JournalOf(w)
      modifies db`entries, packs, tape
      ensures answer == Answer(cfg, w, plan, b, given)
      ensures packs.Kept() == if answer.Some? then JournalAfter(w, plan, b, given) else JournalOf(w)
      ensures tape.events == if answer.Some? then old(tape.events) + AnswerEvents(w, plan, b, given) else old(tape.events)
    {
      if b.owner == BUILTIN {
        answer := ExecuteBuiltin(b, given.builtin);
      } else if b.owner in cfg.packs {
        var result := packs.Execute(Key(plan, b.id, b.verb, b.args), id, given.outcome);
        answer := Some(result);
      } else {
        answer := None;
      }
    }

    method VerifyAction(a: Action, facts: Facts) returns (holds: Truth)
      ensures holds == Evaluate(Verification(a), facts)
    {
      if a.verify.Some? {
        return Evaluate(a.verify.value, facts);
      }
      if a.expectedDelta != [] {
        return Evaluate(All(a.expectedDelta), facts);
      }
      return Holds;
    }

    /** `_finalize_action`: the status it writes, or nothing when compiling or verifying raises. */
    method FinalizeAction(id: RunId, a: Action, result: Result, o: Option<Observation>) returns (verdict: Option<RunStatus>)
      requires Wired() && id < |db.runs| && db.runs[id].status == DISPATCHED
      modifies db`runs, tape, this`checks
      ensures verdict == Verdict(a, result, o, old(db.runs))
      ensures db.runs == if verdict.Some? then WithStatus(old(db.runs), id, verdict.value) else old(db.runs)
      ensures tape.events == if verdict.Some? then old(tape.events) + [StatusWritten(id, verdict.value)] else old(tape.events)
      ensures checks == if verdict.Some? && IsChecked(Ended(a, result, verdict.value)) then old(checks)[id := Seen(o)]
                        else old(checks)
    {
      var status := DONE;
      if result.status == InFlight {
        status := UNKNOWN;
      } else if result.status == Failure || result.status == Expired {
        status := FAILED;
      } else {
        var world := Compile(o);
        if world == None {
          return None;
        }
        if !WaitPending(a, result) {
          var holds := VerifyAction(a, world.value.1);
          if holds == Raises {
            return None;
          }
          checks := checks[id := world.value.1];
          status := if holds == Holds then DONE else REPLAN_REQUIRED;
        }
      }
      var error := db.TransitionActionRun(id, status);
      assert error == None;
      return Some(status);
    }

    /** The new run is the last row, in status `s`, and nothing else has changed since `w` but what is said. */
    ghost predicate StandsAt(w: World, plan: nat, b: Action, refreshed: bool, s: RunStatus, grants: seq<Grant>, kept: Journal,
                          checks: map<RunId, Facts>)
      reads this, db, packs, packs.db
    {
      && db.runs == With(w, plan, b, refreshed, s) && db.grants == grants && packs.Kept() == kept && this.checks == checks
    }

    /** The approval, where one is needed. */
    method AskFirst(ghost w: World, plan: nat, b: Action, refreshed: bool, id: RunId, given: Inputs) returns (approved: bool)
      requires Wired() && id == |w.runs| && StandsAt(w, plan, b, refreshed, PROPOSED, w.grants, JournalOf(w), w.checks)
      modifies db`runs, db`grants, tape
      ensures approved <==> (b.approvalRequired ==> Approves(cfg, w.grants, id, b, given.nowMs))
      ensures StandsAt(w, plan, b, refreshed, if b.approvalRequired then WAITING_APPROVAL else PROPOSED,
                    GrantsAfter(cfg, w, b, given), JournalOf(w), w.checks)
      ensures tape.events == old(tape.events) + AskEvents(cfg, w, b, given)
    {
      approved := true;
      if b.approvalRequired {
        var error := db.TransitionActionRun(id, WAITING_APPROVAL);
        assert error == None;
        approved := RequestApproval(id, b, given);
      }
    }

    /** What the loop makes of a concluded run. */
    method ReportOn(ghost c: Course, id: RunId, a: Action, verdict: RunStatus, so: Report) returns (p: Progress)
      requires c.Ended? && c.action == a && c.status == verdict && verdict in Allowed(DISPATCHED)
      ensures p == ProgressOf(c, id, so)
    {
      var report := so.(executed := so.executed + [a.id]);
      if verdict == REPLAN_REQUIRED {
        return Stops(Returned(report.(replan := true)));
      }
      if verdict == FAILED || verdict == UNKNOWN {
        return Stops(Returned(report.(failed := Some(id))));
      }
      return Goes(report);
    }

    /** The commit of DISPATCHED, and the call. */
    method Dispatch(ghost w: World, plan: nat, b: Action, refreshed: bool, id: RunId, given: Inputs) returns (answer: Option<Result>)
      requires Wired() && id == |w.runs|
      requires StandsAt(w, plan, b, refreshed, AUTHORIZED, GrantsAfter(cfg, w, b, given), JournalOf(w), w.checks)
      modifies db`runs, db`entries, packs, tape
      ensures answer == Answer(cfg, w, plan, b, given)
      ensures StandsAt(w, plan, b, refreshed, DISPATCHED, GrantsAfter(cfg, w, b, given),
                       if answer.Some? then JournalAfter(w, plan, b, given) else JournalOf(w), w.checks)
      ensures tape.events == old(tape.events) + CallEvents(w, plan, b, given, answer.Some?)
    {
      var error := db.TransitionActionRun(id, DISPATCHED);
      assert error == None;
      answer := CallOwner(w, plan, b, id, given);
    }

    /** The conclusion of a run that got its answer. */
    method Conclude(ghost w: World, plan: nat, b: Action, refreshed: bool, id: RunId, result: Result, o: Option<Observation>,
                    ghost grants: seq<Grant>, ghost kept: Journal)
      returns (verdict: Option<RunStatus>)
      requires Wired() && id == |w.runs| && StandsAt(w, plan, b, refreshed, DISPATCHED, grants, kept, w.checks)
      modifies db`runs, tape, this`checks
      ensures verdict == Verdict(b, result, o, With(w, plan, b, refreshed, DISPATCHED))
      ensures verdict == None ==> StandsAt(w, plan, b, refreshed, DISPATCHED, grants, kept, w.checks)
      ensures verdict.Some? ==>
                StandsAt(w, plan, b, refreshed, verdict.value, grants, kept,
                         if IsChecked(Ended(b, result, verdict.value)) then w.checks[id := Seen(o)] else w.checks)
      ensures tape.events == old(tape.events) + if verdict.Some? then [StatusWritten(id, verdict.value)] else []
    {
      verdict := FinalizeAction(id, b, result, o);
    }

    /** From the commit of DISPATCHED to that of the conclusion: how far it got. */
    method DispatchAndFinalize(ghost w: World, plan: nat, b: Action, refreshed: bool, id: RunId, given: Inputs)
      returns (ghost c: Course, verdict: Option<RunStatus>)
      requires Wired() && id == |w.runs|
      requires StandsAt(w, plan, b, refreshed, AUTHORIZED, GrantsAfter(cfg, w, b, given), JournalOf(w), w.checks)
      modifies db`runs, db`entries, packs, tape, this`checks
      ensures c == CourseDispatched(cfg, w, plan, b, refreshed, given)
      ensures verdict == if c.Ended? then Some(c.status) else None
      ensures StandsAt(w, plan, b, refreshed, Final(c), GrantsAfter(cfg, w, b, given),
                       if Answers(c) then JournalAfter(w, plan, b, given) else JournalOf(w),
                       ChecksAfter(w, c, given))
      ensures tape.events == old(tape.events) + DispatchEvents(w, plan, c, given)
    {
      var answer := Dispatch(w, plan, b, refreshed, id, given);
      if answer == None {
        return Unanswered(b), None;
      }
      verdict := Conclude(w, plan, b, refreshed, id, answer.value, given.verify, GrantsAfter(cfg, w, b, given),
                          JournalAfter(w, plan, b, given));
      c := if verdict == None then Unverified(b, answer.value) else Ended(b, answer.value, verdict.value);
    }

    /** The second look at the world, for the preconditions. */
    method LookAgain(b: Action, o: Option<Observation>) returns (holds: Truth)
      ensures holds == Test(b.preconditions, o, db.runs)
    {
      var world := Compile(o);
      if world == None {
        return Raises;
      }
      return Evaluate(b.preconditions, world.value.1);
    }

    /** The commit of AUTHORIZED. */
    method Authorize(ghost w: World, ghost plan: nat, ghost b: Action, ghost refreshed: bool, id: RunId, ghost grants: seq<Grant>,
                     ghost so: seq<Event>, ghost asked: seq<Event>)
      requires Wired() && id == |w.runs| && tape.events == so + asked
      requires StandsAt(w, plan, b, refreshed, if b.approvalRequired then WAITING_APPROVAL else PROPOSED, grants, JournalOf(w), w.checks)
      modifies db`runs, tape
      ensures StandsAt(w, plan, b, refreshed, AUTHORIZED, grants, JournalOf(w), w.checks)
      ensures tape.events == so + (asked + [StatusWritten(id, AUTHORIZED)])
    {
      var error := db.TransitionActionRun(id, AUTHORIZED);
      assert error == None;
      Associate(so, asked, [StatusWritten(id, AUTHORIZED)]);
    }

    /** The `try` block up to the dispatch, where it gets no further than that: what it found, if it did. */
    method Prepare(ghost w: World, plan: nat, b: Action, refreshed: bool, id: RunId, given: Inputs) returns (found: Option<Truth>)
      requires Wired() && id == |w.runs| && StandsAt(w, plan, b, refreshed, PROPOSED, w.grants, JournalOf(w), w.checks)
      modifies db`runs, db`grants, tape
      ensures found.Some? <==> (b.approvalRequired ==> Approves(cfg, w.grants, id, b, given.nowMs))
      ensures found.Some? ==> found.value == Test(b.preconditions, given.recheck, With(w, plan, b, refreshed, AUTHORIZED))
      ensures StandsAt(w, plan, b, refreshed, if found.Some? then AUTHORIZED else WAITING_APPROVAL, GrantsAfter(cfg, w, b, given),
                       JournalOf(w), w.checks)
      ensures tape.events == old(tape.events) +
              if found.Some? then Prepared(cfg, w, b, given) else AskEvents(cfg, w, b, given)
    {
      var approved := AskFirst(w, plan, b, refreshed, id, given);
      if !approved {
        return None;
      }
      Authorize(w, plan, b, refreshed, id, GrantsAfter(cfg, w, b, given), old(tape.events), AskEvents(cfg, w, b, given));
      var holds := LookAgain(b, given.recheck);
      return Some(holds);
    }

    /** What the loop makes of an action that gets no further than its preparation. */
    method StopEarly(id: RunId, ghost b: Action, found: Option<Truth>, so: Report) returns (p: Progress)
      requires Wired() && found != Some(Holds)
      requires found.Some? ==> id < |db.runs| && db.runs[id].status == AUTHORIZED
      modifies db`runs, tape
      ensures p == ProgressOf(StoppedAt(b, found), id, so)
      ensures db.runs == old(db.runs) && tape.events == old(tape.events)
    {
      if found == None {
        return Stops(Returned(so.(blocked := Some(id))));
      }
      if found == Some(Raises) {
        return Stops(Threw(Elsewhere));
      }
      var error := db.TransitionActionRun(id, REPLAN_REQUIRED);
      return Stops(if error.Some? then Threw(error.value) else Returned(so.(replan := true)));
    }

    /** An action that is dispatched. */
    method GoOn(ghost w: World, plan: nat, b: Action, refreshed: bool, id: RunId, given: Inputs, so: Report)
      returns (ghost c: Course, p: Progress)
      requires Wired() && id == |w.runs|
      requires StandsAt(w, plan, b, refreshed, AUTHORIZED, GrantsAfter(cfg, w, b, given), JournalOf(w), w.checks)
      modifies db`runs, db`entries, packs, tape, this`checks
      ensures c == CourseDispatched(cfg, w, plan, b, refreshed, given) && p == ProgressOf(c, id, so)
      ensures StandsAt(w, plan, b, refreshed, Final(c), GrantsAfter(cfg, w, b, given),
                       if Answers(c) then JournalAfter(w, plan, b, given) else JournalOf(w),
                       ChecksAfter(w, c, given))
      ensures tape.events == old(tape.events) + DispatchEvents(w, plan, c, given)
    {
      var verdict;
      c, verdict := DispatchAndFinalize(w, plan, b, refreshed, id, given);
      if verdict == None {
        return c, Stops(Threw(Elsewhere));
      }
      VerdictIsLast(cfg, w, plan, b, refreshed, given);
      p := ReportOn(c, id, b, verdict.value, so);
    }

    /** The `try` block. */
    method Work(ghost w: World, plan: nat, b: Action, refreshed: bool, id: RunId, given: Inputs, so: Report)
      returns (ghost c: Course, p: Progress)
      requires Wired() && id == |w.runs| && StandsAt(w, plan, b, refreshed, PROPOSED, w.grants, JournalOf(w), w.checks)
      requires !F.Locked(b, w.held)
      modifies db`runs, db`entries, db`grants, packs, tape, this`checks
      ensures c == CourseAs(cfg, w, plan, b, refreshed, given) && TakesLocks(c) && c.action == b
      ensures p == ProgressOf(c, id, so)
      ensures StandsAt(w, plan, b, refreshed, Final(c), GrantsAfter(cfg, w, b, given),
                       if Answers(c) then JournalAfter(w, plan, b, given) else JournalOf(w),
                       ChecksAfter(w, c, given))
      ensures tape.events == old(tape.events) + WorkEvents(cfg, w, plan, c, given)
    {
      var found := Prepare(w, plan, b, refreshed, id, given);
      if found == Some(Holds) {
        ghost var prepared := Prepared(cfg, w, b, given);
        assert tape.events == old(tape.events) + prepared;
        c, p := GoOn(w, plan, b, refreshed, id, given, so);
        CourseIsDispatched(cfg, w, plan, b, refreshed, given);
        Associate(old(tape.events), prepared, DispatchEvents(w, plan, c, given));
      } else {
        p := StopEarly(id, b, found, so);
        c := StoppedAt(b, found);
        CourseIsStopped(cfg, w, plan, b, refreshed, given, found);
      }
    }

    /** The frontier refresh: the action as the packs offer it now. */
    method Refresh(id: string, o: Option<Observation>) returns (world: Option<seq<Action>>, found: Option<Action>)
      ensures world == Compiled(o, db.runs)
      ensures found == if world.Some? then F.LastNamed(world.value, id) else None
    {
      var compiled := Compile(o);
      if compiled == None {
        return None, None;
      }
      world := Some(compiled.value.0);
      found := None;
      for n := 0 to |world.value|
        invariant found == F.LastNamed(world.value[..n], id)
      {
        assert world.value[..n + 1][..n] == world.value[..n];
        if world.value[n].id == id {
          found := Some(world.value[n]);
        }
      }
      assert world.value[..|world.value|] == world.value;
    }

    /** One action, taken from the frontier: the row, the locks, the work, and the locks again. */
    method RunAction(plan: nat, b: Action, refreshed: bool, given: Inputs, so: Report) returns (ghost c: Course, p: Progress)
      requires Wired()
      modifies db`runs, db`entries, db`grants, packs, locks, tape, this`checks
      ensures c == CourseAs(cfg, old(World()), plan, b, refreshed, given)
      ensures p == ProgressOf(c, |old(db.runs)|, so)
      ensures World() == Performed(cfg, old(World()), plan, refreshed, c, given)
      ensures tape.events == old(tape.events) + EventsOf(cfg, old(World()), plan, refreshed, c, given)
    {
      ghost var w := World();
      var id := db.CreateActionRun(Run(plan, b, refreshed, PROPOSED));
      var ok := locks.Acquire(b.locks);
      if !ok {
        var error := db.TransitionActionRun(id, REPLAN_REQUIRED);
        return Conflict(b), Stops(if error.Some? then Threw(error.value) else Returned(so.(replan := true)));
      }
      ghost var before, begun := old(tape.events), Opened(w, plan, b, refreshed);
      assert tape.events == before + begun;
      c, p := Work(w, plan, b, refreshed, id, given, so);
      locks.Release(b.locks);
      assert locks.held == w.held;
      Associate(before, begun, WorkEvents(cfg, w, plan, c, given));
      Associate(before, begun + WorkEvents(cfg, w, plan, c, given), [LocksFreed(b.locks)]);
    }

    /** One turn of the loop. */
    method Perform(plan: nat, a: Action, refreshed: bool, given: Inputs, so: Report) returns (ghost c: Course, p: Progress)
      requires Wired()
      modifies db`runs, db`entries, db`grants, packs, locks, tape, this`checks
      ensures c == CourseOf(cfg, old(World()), plan, a, refreshed, given)
      ensures p == ProgressOf(c, |old(db.runs)|, so)
      ensures World() == Performed(cfg, old(World()), plan, refreshed, c, given)
      ensures tape.events == old(tape.events) + EventsOf(cfg, old(World()), plan, refreshed, c, given)
    {
      var b := a;
      if refreshed {
        var world, found := Refresh(a.id, given.refresh);
        if world == None {
          return Unread, Stops(Threw(Elsewhere));
        }
        if found == None {
          return Gone, Stops(Returned(so.(replan := true)));
        }
        b := found.value;
      }
      c, p := RunAction(plan, b, refreshed, given, so);
    }

    /** What is still to be done, and told, from action `k` on. */
    ghost predicate Ahead(result: (World, Outcome), log: seq<Event>, plan: nat, actions: seq<Action>, refreshed: bool,
                          given: seq<Inputs>, k: nat, so: Report)
      requires |given| == |actions| && k <= |actions|
      reads this, db, locks, packs, packs.db, tape
    {
      && result == Carry(cfg, World(), plan, actions[k..], refreshed, given[k..], so)
      && log == tape.events + AllEvents(cfg, World(), plan, actions[k..], refreshed, given[k..])
    }

    /** One turn, and what is ahead after it. */
    method Turn(ghost result: (World, Outcome), ghost log: seq<Event>, plan: nat, actions: seq<Action>, refreshed: bool,
                given: seq<Inputs>, k: nat, so: Report)
      returns (p: Progress)
      requires Wired() && |given| == |actions| && k < |actions|
      requires Ahead(result, log, plan, actions, refreshed, given, k, so)
      modifies db`runs, db`entries, db`grants, packs, locks, tape, this`checks
      ensures p.Stops? ==> result == (World(), p.outcome) && log == tape.events
      ensures p.Goes? ==> Ahead(result, log, plan, actions, refreshed, given, k + 1, p.report)
    {
      ghost var u, told, c := World(), tape.events, Gone;
      c, p := Perform(plan, actions[k], refreshed, given[k], so);
      NextTurn(cfg, u, plan, actions, refreshed, given, k, so, told, c, World(), p);
    }

    /** The loop of `_execute_actions`. */
    method PerformAll(plan: nat, actions: seq<Action>, refreshed: bool, given: seq<Inputs>) returns (outcome: Outcome)
      requires Wired() && |given| == |actions|
      modifies db`runs, db`entries, db`grants, packs, locks, tape, this`checks
      ensures (World(), outcome) == Carry(cfg, old(World()), plan, actions, refreshed, given, NOTHING)
      ensures tape.events == old(tape.events) + AllEvents(cfg, old(World()), plan, actions, refreshed, given)
    {
      var report := NOTHING;
      ghost var result := Carry(cfg, World(), plan, actions, refreshed, given, NOTHING);
      ghost var log := tape.events + AllEvents(cfg, World(), plan, actions, refreshed, given);
      assert actions[0..] == actions && given[0..] == given;
      for k := 0 to |actions|
        invariant Ahead(result, log, plan, actions, refreshed, given, k, report)
      {
        var p := Turn(result, log, plan, actions, refreshed, given, k, report);
        match p {
          case Stops(out) => return out;
          case Goes(more) => report := more;
        }
      }
      return Returned(report);
    }

    /** `_execute_actions`. */
    method PerformUnderLease(plan: nat, actions: seq<Action>, refreshed: bool, given: seq<Inputs>, lease: bool)
      returns (outcome: Outcome)
      requires Wired() && |given| == |actions|
      modifies db`runs, db`entries, db`grants, packs, locks, tape, this`checks
      ensures (World(), outcome) == CarryUnderLease(cfg, old(World()), plan, actions, refreshed, given, lease)
      ensures tape.events == old(tape.events) + EventsUnderLease(cfg, old(World()), plan, actions, refreshed, given, lease)
    {
      if actions != [] && !lease {
        return Returned(NOTHING.(replan := true));
      }
      outcome := PerformAll(plan, actions, refreshed, given);
    }

    /** `execute_plan`, on the frontier of the world that the planner saw. */
    method ExecutePlan(f: seq<Action>, p: Plan, given: nat -> Inputs, lease: bool) returns (outcome: Outcome)
      requires Valid() && WellFormed(p)
      modifies db, packs, locks, tape, this`checks
      ensures Valid() && locks.held == {}
      ensures (World(), outcome) == PlanResult(cfg, old(World()), f, p, given, lease)
      ensures tape.events == old(tape.events) + PlanEvents(cfg, old(World()), f, p, given, lease)
      ensures Leads(cfg, old(World()), PlanSteps(cfg, old(World()), f, p, given, lease), World(),
                    PlanEvents(cfg, old(World()), f, p, given, lease))
    {
      ghost var w := World();
      PlanLeads(cfg, w, f, p, given, lease);
      InvariantHolds(cfg, w, PlanSteps(cfg, w, f, p, given, lease));
      outcome := StoreAndExecute(f, p, given, lease);
    }

    method StoreAndExecute(f: seq<Action>, p: Plan, given: nat -> Inputs, lease: bool) returns (outcome: Outcome)
      requires Wired()
      modifies db, packs, locks, tape, this`checks
      ensures (World(), outcome) == PlanResult(cfg, old(World()), f, p, given, lease)
      ensures tape.events == old(tape.events) + PlanEvents(cfg, old(World()), f, p, given, lease)
    {
      var q := MaterializePlan(f, p);
      if q.ValueError? {
        return Threw(Elsewhere);
      }
      var plan := db.StorePlan();
      if q.value.decision == NO_ACTION || q.value.decision == CALL_HUMAN {
        assert Validate(f, q.value) == Ok([]);
        return Returned(NOTHING);
      }
      var actions := ValidatePlan(f, q.value);
      if actions.ValueError? {
        return Threw(Elsewhere);
      }
      ghost var before, events := old(tape.events),
        EventsUnderLease(cfg, World(), plan, actions.value, true, InputsFor(actions.value, given), lease);
      outcome := PerformUnderLease(plan, actions.value, true, InputsFor(actions.value, given), lease);
      Associate(before, [PlanStored], events);
    }

    /** A plan of given actions, stored and carried out. */
    method StoreAndPerform(actions: seq<Action>, refreshed: bool, given: seq<Inputs>, lease: bool) returns (outcome: Outcome)
      requires Valid() && |given| == |actions| && AllNew(World().(plans := db.plans + 1), db.plans, actions)
      modifies db, packs, locks, tape, this`checks
      ensures Valid() && locks.held == {}
      ensures var stored := old(World()).(plans := old(db.plans) + 1);
              && (World(), outcome) == CarryUnderLease(cfg, stored, old(db.plans), actions, refreshed, given, lease)
              && Leads(cfg, old(World()), [StorePlan] + StepsUnderLease(cfg, stored, old(db.plans), actions, refreshed, given, lease), World(),
                       [PlanStored] + EventsUnderLease(cfg, stored, old(db.plans), actions, refreshed, given, lease))
              && tape.events == old(tape.events) +
                 ([PlanStored] + EventsUnderLease(cfg, stored, old(db.plans), actions, refreshed, given, lease))
    {
      ghost var w := World();
      var plan := db.StorePlan();
      ghost var stored := World();
      StoredLeads(cfg, w, stored, actions, refreshed, given, lease);
      InvariantHolds(cfg, w, [StorePlan] + StepsUnderLease(cfg, stored, plan, actions, refreshed, given, lease));
      ghost var before, events := old(tape.events), EventsUnderLease(cfg, stored, plan, actions, refreshed, given, lease);
      outcome := PerformUnderLease(plan, actions, refreshed, given, lease);
      Associate(before, [PlanStored], events);
    }

    /** `execute_operator_action`: no frontier stands between the operator and the dispatch. */
    method ExecuteOperatorAction(a: Action, given: Inputs, lease: bool) returns (outcome: Outcome)
      requires Valid()
      modifies db, packs, locks, tape, this`checks
      ensures Valid() && locks.held == {}
      ensures var stored := old(World()).(plans := old(db.plans) + 1);
              && (World(), outcome) == CarryUnderLease(cfg, stored, old(db.plans), [a], false, [given], lease)
              && Leads(cfg, old(World()), [StorePlan] + StepsUnderLease(cfg, stored, old(db.plans), [a], false, [given], lease), World(),
                       [PlanStored] + EventsUnderLease(cfg, stored, old(db.plans), [a], false, [given], lease))
              && tape.events == old(tape.events) +
                 ([PlanStored] + EventsUnderLease(cfg, stored, old(db.plans), [a], false, [given], lease))
    {
      outcome := StoreAndPerform([a], false, [given], lease);
    }

    /** A human's decision, refused when there is no such run. */
    method Decide(g: Grant) returns (error: Option<Error>)
      requires Valid()
      modifies db`grants, tape
      ensures Valid() && error == if g.run < |db.runs| then None else Some(Elsewhere)
      ensures error == None ==>
                && Leads(cfg, old(World()), [RunModel.Decide(g)], World(), [GrantWritten(g)])
                && tape.events == old(tape.events) + [GrantWritten(g)]
      ensures error.Some? ==> World() == old(World()) && tape.events == old(tape.events)
    {
      ghost var w := World();
      error := db.RecordApproval(g);
      if error == None {
        OneStep(cfg, w, RunModel.Decide(g));
        StepKeepsInv(cfg, w, RunModel.Decide(g));
      }
    }
  }
}
