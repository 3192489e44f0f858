/** What `_execute_actions` does with the actions of a plan: how far each one gets, what it commits on the
  * way, and where it leaves the stores. */
module RunDispatch {
  import opened Wrappers
  import opened Predicates
  import F = Frontier
  import opened PackJournal
  import opened RunModel
  import opened RunLog

  type Action = F.Action

  // ----- What the engine reads outside the stores -----

  /** What the packs offer and what the facts are when the world is compiled. */
  datatype Observation = Observation(candidates: seq<Action>, facts: Facts)

  datatype BuiltinOutcome = Completed(detail: Payload) | TimedOut(detail: Payload) | Raised

  /** The readings for one action.  An observation is missing when compiling the world raises elsewhere. */
  datatype Inputs = Inputs(
    refresh: Option<Observation>, nowMs: int, expiresMs: int, recheck: Option<Observation>,
    outcome: Realization, builtin: BuiltinOutcome, verify: Option<Observation>)

  /** The frontier of a compiled world; compiling it may raise on a precondition. */
  function Compiled(o: Option<Observation>, runs: seq<Run>): Option<seq<Action>> {
    match o
    case None => None
    case Some(seen) => F.Frontier(seen.candidates, seen.facts, DurableLocks(runs))
  }

  function FactsOf(o: Option<Observation>, runs: seq<Run>): Option<Facts> {
    if Compiled(o, runs).Some? then Some(o.value.facts) else None
  }

  function Seen(o: Option<Observation>): Facts {
    if o.Some? then o.value.facts else map[]
  }

  /** The facts of the second look, */
  function LookedAt(given: Inputs): Facts {
    Seen(given.recheck)
  }

  /** and those of the verification. */
  function VerifiedOn(given: Inputs): Facts {
    Seen(given.verify)
  }

  function Test(p: Predicate, o: Option<Observation>, runs: seq<Run>): Truth {
    match FactsOf(o, runs)
    case None => Raises
    case Some(facts) => Evaluate(p, facts)
  }

  // ----- How far an action gets -----

  datatype Course =
    | Unread
    | Gone
    | Conflict(action: Action)
    | Unapproved(action: Action)
    | Unchecked(action: Action)
    | Stale(action: Action)
    | Unanswered(action: Action)
    | Unverified(action: Action, result: Result)
    | Ended(action: Action, result: Result, status: RunStatus)

  /** `request_approval`. */
  predicate Approves(cfg: Config, grants: seq<Grant>, i: RunId, a: Action, nowMs: int) {
    AutoApproves(cfg, a) || HasValidGrant(grants, i, a, nowMs)
  }

  /** `_execute_builtin`. */
  function BuiltinAnswer(a: Action, given: BuiltinOutcome): (result: Option<Result>)
    ensures result.Some? ==> result.value.status == Success || result.value.status == Failure
  {
    if a.verb != "WAIT_UNTIL" && a.verb != "CALL_HUMAN" && a.verb != "WAIT" then
      Some(Result(Failure, map["reason" := "unknown builtin verb " + a.verb]))
    else match given
      case Completed(detail) => Some(Result(Success, detail))
      case TimedOut(detail) => Some(Result(Failure, detail))
      case Raised => None
  }

  function CallFor(w: World, plan: nat, b: Action, given: Inputs): Call {
    Call(Key(plan, b.id, b.verb, b.args), |w.runs|, Completes(given.outcome))
  }

  /** The answer to a dispatched action; an unknown pack raises. */
  function Answer(cfg: Config, w: World, plan: nat, b: Action, given: Inputs): Option<Result> {
    if b.owner == BUILTIN then BuiltinAnswer(b, given.builtin)
    else if b.owner !in cfg.packs then None
    else Execute(w.book, CallFor(w, plan, b, given)).1
  }

  /** `_finalize_action`: the status to write, unless compiling or verifying raises. */
  function Verdict(b: Action, result: Result, o: Option<Observation>, runs: seq<Run>): Option<RunStatus> {
    if result.status == InFlight then Some(UNKNOWN)
    else if result.status == Failure || result.status == Expired then Some(FAILED)
    else if FactsOf(o, runs) == None then None
    else if WaitPending(b, result) then Some(DONE)
    else match Evaluate(Verification(b), FactsOf(o, runs).value)
      case Holds => Some(DONE)
      case Fails => Some(REPLAN_REQUIRED)
      case Raises => None
  }

  /** The rows with the new run in some status. */
  function With(w: World, plan: nat, b: Action, refreshed: bool, s: RunStatus): seq<Run> {
    w.runs + [Run(plan, b, refreshed, s)]
  }

  function CourseDispatched(cfg: Config, w: World, plan: nat, b: Action, refreshed: bool, given: Inputs): Course {
    var answer := Answer(cfg, w, plan, b, given);
    if answer == None then Unanswered(b)
    else
      var verdict := Verdict(b, answer.value, given.verify, With(w, plan, b, refreshed, DISPATCHED));
      if verdict == None then Unverified(b, answer.value) else Ended(b, answer.value, verdict.value)
  }

  /** The body of the loop, once the action is taken from the frontier. */
  function CourseAs(cfg: Config, w: World, plan: nat, b: Action, refreshed: bool, given: Inputs): Course {
    if F.Locked(b, w.held) then Conflict(b)
    else if b.approvalRequired && !Approves(cfg, w.grants, |w.runs|, b, given.nowMs) then Unapproved(b)
    else match Test(b.preconditions, given.recheck, With(w, plan, b, refreshed, AUTHORIZED))
      case Raises => Unchecked(b)
      case Fails => Stale(b)
      case Holds => CourseDispatched(cfg, w, plan, b, refreshed, given)
  }

  function CourseOf(cfg: Config, w: World, plan: nat, a: Action, refreshed: bool, given: Inputs): Course {
    if !refreshed then CourseAs(cfg, w, plan, a, refreshed, given)
    else match Compiled(given.refresh, w.runs)
      case None => Unread
      case Some(f) =>
        match F.LastNamed(f, a.id)
        case None => Gone
        case Some(b) => CourseAs(cfg, w, plan, b, refreshed, given)
  }

  // ----- Where it leaves the stores -----

  predicate Starts(c: Course) {
    !c.Unread? && !c.Gone?
  }

  predicate TakesLocks(c: Course) {
    Starts(c) && !c.Conflict?
  }

  predicate Answers(c: Course) {
    c.Unverified? || c.Ended?
  }

  /** Whether a verification was made, and its finding written. */
  predicate IsChecked(c: Course) {
    c.Ended? && c.result.status == Success && !WaitPending(c.action, c.result)
  }

  /** The status in which the new run is left. */
  function Final(c: Course): RunStatus {
    match c
    case Unapproved(_) => WAITING_APPROVAL
    case Unchecked(_) => AUTHORIZED
    case Stale(_) => AUTHORIZED
    case Unanswered(_) => DISPATCHED
    case Unverified(_, _) => DISPATCHED
    case Ended(_, _, s) => s
    case _ => PROPOSED
  }

  function AutoGrant(w: World, b: Action, given: Inputs): Grant {
    Grant(|w.runs|, b.verb, b.args, true, given.expiresMs)
  }

  function GrantsAfter(cfg: Config, w: World, b: Action, given: Inputs): seq<Grant> {
    if b.approvalRequired && AutoApproves(cfg, b) then w.grants + [AutoGrant(w, b, given)] else w.grants
  }

  function BookAfter(w: World, plan: nat, b: Action, given: Inputs): Book {
    if b.owner == BUILTIN then w.book else Execute(w.book, CallFor(w, plan, b, given)).0
  }

  /** A builtin action and an entry already there start no effect. */
  function OutcomesAfter(w: World, plan: nat, b: Action, given: Inputs): map<RunId, Realization> {
    if b.owner == BUILTIN || Key(plan, b.id, b.verb, b.args) in w.book.entries then w.outcomes
    else w.outcomes[|w.runs| := given.outcome]
  }

  function ChecksAfter(w: World, c: Course, given: Inputs): map<RunId, Facts> {
    if IsChecked(c) then w.checks[|w.runs| := VerifiedOn(given)] else w.checks
  }

  /** The journal, the effects that were started, and what they came back with. */
  datatype Journal = Journal(book: Book, outcomes: map<RunId, Realization>)

  function JournalOf(w: World): Journal {
    Journal(w.book, w.outcomes)
  }

  function JournalAfter(w: World, plan: nat, b: Action, given: Inputs): Journal {
    Journal(BookAfter(w, plan, b, given), OutcomesAfter(w, plan, b, given))
  }

  /** The state after an action got as far as `c`. */
  function Performed(cfg: Config, w: World, plan: nat, refreshed: bool, c: Course, given: Inputs): World {
    if !Starts(c) then w
    else
      w.(runs := With(w, plan, c.action, refreshed, Final(c)),
         grants := if TakesLocks(c) then GrantsAfter(cfg, w, c.action, given) else w.grants,
         book := if Answers(c) then BookAfter(w, plan, c.action, given) else w.book,
         checks := ChecksAfter(w, c, given),
         outcomes := if Answers(c) then OutcomesAfter(w, plan, c.action, given) else w.outcomes)
  }

  // ----- Its steps -----

  function ClaimSteps(cfg: Config, w: World, plan: nat, b: Action, refreshed: bool, given: Inputs): seq<Step> {
    var i := |w.runs|;
    [CreateRun(plan, b, refreshed), Acquire(i)] +
    if !b.approvalRequired then []
    else if AutoApproves(cfg, b) then [AskApproval(i), AutoApprove(i, given.expiresMs)]
    else if HasValidGrant(w.grants, i, b, given.nowMs) then [AskApproval(i), Recognise(i, given.nowMs)]
    else [AskApproval(i)]
  }

  function AnswerSteps(w: World, plan: nat, b: Action, given: Inputs, result: Result): seq<Step> {
    var i := |w.runs|;
    if b.owner == BUILTIN then [RunBuiltin(i, result)]
    else if Key(plan, b.id, b.verb, b.args) in w.book.entries then [ReplayEntry(i)]
    else [StartJournal(i), StartEffect(i), EndEffect(i, given.outcome), FinishJournal(i)]
  }

  function ConclusionSteps(i: RunId, c: Course, given: Inputs): seq<Step> {
    if IsChecked(c) then [Check(i, VerifiedOn(given)), Conclude(i)] else [Conclude(i)]
  }

  function StepsOf(cfg: Config, w: World, plan: nat, refreshed: bool, c: Course, given: Inputs): seq<Step> {
    if !Starts(c) then []
    else
      var i := |w.runs|;
      var claim := ClaimSteps(cfg, w, plan, c.action, refreshed, given);
      match c
      case Conflict(b) => [CreateRun(plan, b, refreshed), Abandon(i)]
      case Unapproved(_) => claim + [Leave(i)]
      case Unchecked(_) => claim + [Authorize(i)] + [Leave(i)]
      case Stale(_) => claim + [Authorize(i)] + [Leave(i)]
      case Unanswered(_) => claim + [Authorize(i), Dispatch(i, LookedAt(given))] + [Leave(i)]
      case Unverified(b, result) =>
        claim + [Authorize(i), Dispatch(i, LookedAt(given))] + AnswerSteps(w, plan, b, given, result) + [Leave(i)]
      case Ended(b, result, _) =>
        claim + [Authorize(i), Dispatch(i, LookedAt(given))] + AnswerSteps(w, plan, b, given, result) + ConclusionSteps(i, c, given) + [Leave(i)]
  }

  // ----- What it makes durable, in order -----

  function Opened(w: World, plan: nat, b: Action, refreshed: bool): seq<Event> {
    [RunCreated(|w.runs|, Run(plan, b, refreshed, PROPOSED)), LocksTaken(b.locks)]
  }

  function AskEvents(cfg: Config, w: World, b: Action, given: Inputs): seq<Event> {
    if !b.approvalRequired then []
    else if AutoApproves(cfg, b) then [StatusWritten(|w.runs|, WAITING_APPROVAL), GrantWritten(AutoGrant(w, b, given))]
    else [StatusWritten(|w.runs|, WAITING_APPROVAL)]
  }

  function AnswerEvents(w: World, plan: nat, b: Action, given: Inputs): seq<Event> {
    var k := Key(plan, b.id, b.verb, b.args);
    if b.owner == BUILTIN || k in w.book.entries then []
    else [JournalStarted(k, |w.runs|), EffectStarted(k), EffectEnded(k, given.outcome), JournalFinished(k, given.outcome)]
  }

  function CallEvents(w: World, plan: nat, b: Action, given: Inputs, answered: bool): seq<Event> {
    [StatusWritten(|w.runs|, DISPATCHED)] + if answered then AnswerEvents(w, plan, b, given) else []
  }

  function DispatchEvents(w: World, plan: nat, c: Course, given: Inputs): seq<Event> {
    match c
    case Unanswered(b) => CallEvents(w, plan, b, given, false)
    case Unverified(b, _) => CallEvents(w, plan, b, given, true)
    case Ended(b, _, status) => CallEvents(w, plan, b, given, true) + [StatusWritten(|w.runs|, status)]
    case _ => []
  }

  function Prepared(cfg: Config, w: World, b: Action, given: Inputs): seq<Event> {
    AskEvents(cfg, w, b, given) + [StatusWritten(|w.runs|, AUTHORIZED)]
  }

  /** From taking the locks to freeing them. */
  function WorkEvents(cfg: Config, w: World, plan: nat, c: Course, given: Inputs): seq<Event> {
    if !TakesLocks(c) then []
    else if c.Unapproved? then AskEvents(cfg, w, c.action, given)
    else if c.Unchecked? || c.Stale? then Prepared(cfg, w, c.action, given)
    else Prepared(cfg, w, c.action, given) + DispatchEvents(w, plan, c, given)
  }

  /** The row, the locks, the approval, AUTHORIZED, DISPATCHED, the journal before the effect and after it,
    * the conclusion, and the locks again. */
  function EventsOf(cfg: Config, w: World, plan: nat, refreshed: bool, c: Course, given: Inputs): seq<Event> {
    if !Starts(c) then []
    else if c.Conflict? then [RunCreated(|w.runs|, Run(plan, c.action, refreshed, PROPOSED))]
    else Opened(w, plan, c.action, refreshed) + WorkEvents(cfg, w, plan, c, given) + [LocksFreed(c.action.locks)]
  }

  // ----- The steps are legal, and lead there by these events -----

  /** The state while the new run is worked on. */
  function Working(w: World, r: Run, pc: Pc, grants: seq<Grant>, book: Book): World {
    w.(runs := w.runs + [r], pc := pc, held := w.held + LockSet(r.action), grants := grants, book := book)
  }

  /** The run is new to its plan, and the frontier was fresh where it had to be. */
  predicate MayCreate(w: World, plan: nat, b: Action, refreshed: bool) {
    && w.pc == Idle && plan < w.plans
    && (forall j | 0 <= j < |w.runs| :: !(w.runs[j].plan == plan && w.runs[j].action.id == b.id))
    && (refreshed ==> !F.Locked(b, DurableLocks(w.runs)))
  }

  lemma CreationLeads(cfg: Config, w: World, plan: nat, b: Action, refreshed: bool)
    requires MayCreate(w, plan, b, refreshed) && !F.Locked(b, w.held)
    ensures Leads(cfg, w, [CreateRun(plan, b, refreshed), Acquire(|w.runs|)],
                  Working(w, Run(plan, b, refreshed, PROPOSED), LocksHeld(|w.runs|), w.grants, w.book), Opened(w, plan, b, refreshed))
  {
    var i, r := |w.runs|, Run(plan, b, refreshed, PROPOSED);
    var w1 := w.(runs := w.runs + [r], pc := Created(i));
    assert Apply(cfg, w, CreateRun(plan, b, refreshed)) == w1;
    TwoSteps(cfg, w, CreateRun(plan, b, refreshed), w1, Acquire(i));
  }

  lemma LastBecomes(runs: seq<Run>, r: Run, s: RunStatus)
    ensures WithStatus(runs + [r], |runs|, s) == runs + [r.(status := s)]
  {
  }

  /** The status and program counter of the run once it was asked for its approval, where it needs one. */
  function Claimed(cfg: Config, w: World, plan: nat, b: Action, refreshed: bool, given: Inputs): World {
    var i, r := |w.runs|, Run(plan, b, refreshed, if b.approvalRequired then WAITING_APPROVAL else PROPOSED);
    Working(w, r, if !b.approvalRequired then LocksHeld(i)
                  else if Approves(cfg, w.grants, i, b, given.nowMs) then Approved(i)
                  else Asking(i), GrantsAfter(cfg, w, b, given), w.book)
  }

  lemma AskLeads(cfg: Config, w: World, plan: nat, b: Action, refreshed: bool)
    requires MayCreate(w, plan, b, refreshed) && !F.Locked(b, w.held) && b.approvalRequired
    ensures var i := |w.runs|;
            Leads(cfg, w, [CreateRun(plan, b, refreshed), Acquire(i), AskApproval(i)],
                  Working(w, Run(plan, b, refreshed, WAITING_APPROVAL), Asking(i), w.grants, w.book),
                  Opened(w, plan, b, refreshed) + [StatusWritten(i, WAITING_APPROVAL)])
  {
    var i, r := |w.runs|, Run(plan, b, refreshed, PROPOSED);
    var two := [CreateRun(plan, b, refreshed), Acquire(i)];
    CreationLeads(cfg, w, plan, b, refreshed);
    LastBecomes(w.runs, r, WAITING_APPROVAL);
    LeadsOn(cfg, w, two, Working(w, r, LocksHeld(i), w.grants, w.book), Opened(w, plan, b, refreshed), AskApproval(i));
    assert two + [AskApproval(i)] == [CreateRun(plan, b, refreshed), Acquire(i), AskApproval(i)];
  }

  lemma AskedLeads(cfg: Config, w: World, plan: nat, b: Action, refreshed: bool, given: Inputs)
    requires MayCreate(w, plan, b, refreshed) && !F.Locked(b, w.held) && b.approvalRequired
    ensures Leads(cfg, w, ClaimSteps(cfg, w, plan, b, refreshed, given), Claimed(cfg, w, plan, b, refreshed, given),
                  Opened(w, plan, b, refreshed) + AskEvents(cfg, w, b, given))
  {
    var i, begun := |w.runs|, Opened(w, plan, b, refreshed);
    var two, three := [CreateRun(plan, b, refreshed), Acquire(i)], [CreateRun(plan, b, refreshed), Acquire(i), AskApproval(i)];
    var v := Working(w, Run(plan, b, refreshed, WAITING_APPROVAL), Asking(i), w.grants, w.book);
    var log := begun + [StatusWritten(i, WAITING_APPROVAL)];
    AskLeads(cfg, w, plan, b, refreshed);
    if AutoApproves(cfg, b) {
      LeadsOn(cfg, w, three, v, log, AutoApprove(i, given.expiresMs));
      assert three + [AutoApprove(i, given.expiresMs)] == two + [AskApproval(i), AutoApprove(i, given.expiresMs)];
      assert log + [GrantWritten(AutoGrant(w, b, given))] == begun + AskEvents(cfg, w, b, given);
    } else if HasValidGrant(w.grants, i, b, given.nowMs) {
      LeadsOn(cfg, w, three, v, log, Recognise(i, given.nowMs));
      assert three + [Recognise(i, given.nowMs)] == two + [AskApproval(i), Recognise(i, given.nowMs)];
      assert log + [] == log;
    } else {
      assert three == two + [AskApproval(i)];
    }
  }

  /** Up to the approval, if it is given. */
  lemma ClaimLeads(cfg: Config, w: World, plan: nat, b: Action, refreshed: bool, given: Inputs)
    requires MayCreate(w, plan, b, refreshed) && !F.Locked(b, w.held)
    ensures Leads(cfg, w, ClaimSteps(cfg, w, plan, b, refreshed, given), Claimed(cfg, w, plan, b, refreshed, given),
                  Opened(w, plan, b, refreshed) + AskEvents(cfg, w, b, given))
  {
    if b.approvalRequired {
      AskedLeads(cfg, w, plan, b, refreshed, given);
    } else {
      CreationLeads(cfg, w, plan, b, refreshed);
      assert [CreateRun(plan, b, refreshed), Acquire(|w.runs|)] + [] == [CreateRun(plan, b, refreshed), Acquire(|w.runs|)];
      assert Opened(w, plan, b, refreshed) + [] == Opened(w, plan, b, refreshed);
    }
  }

  lemma AuthorizationLeads(cfg: Config, w: World, plan: nat, b: Action, refreshed: bool, given: Inputs)
    requires MayCreate(w, plan, b, refreshed) && !F.Locked(b, w.held)
    requires b.approvalRequired ==> Approves(cfg, w.grants, |w.runs|, b, given.nowMs)
    ensures Leads(cfg, w, ClaimSteps(cfg, w, plan, b, refreshed, given) + [Authorize(|w.runs|)],
                  Working(w, Run(plan, b, refreshed, AUTHORIZED), Authorized(|w.runs|), GrantsAfter(cfg, w, b, given), w.book),
                  Opened(w, plan, b, refreshed) + Prepared(cfg, w, b, given))
  {
    var i, claim, v := |w.runs|, ClaimSteps(cfg, w, plan, b, refreshed, given), Claimed(cfg, w, plan, b, refreshed, given);
    ClaimLeads(cfg, w, plan, b, refreshed, given);
    LastBecomes(w.runs, Run(plan, b, refreshed, if b.approvalRequired then WAITING_APPROVAL else PROPOSED), AUTHORIZED);
    LeadsOn(cfg, w, claim, v, Opened(w, plan, b, refreshed) + AskEvents(cfg, w, b, given), Authorize(i));
    Associate(Opened(w, plan, b, refreshed), AskEvents(cfg, w, b, given), [StatusWritten(i, AUTHORIZED)]);
  }

  lemma DispatchLeads(cfg: Config, w: World, plan: nat, b: Action, refreshed: bool, given: Inputs)
    requires MayCreate(w, plan, b, refreshed) && !F.Locked(b, w.held)
    requires b.approvalRequired ==> Approves(cfg, w.grants, |w.runs|, b, given.nowMs)
    requires Evaluate(b.preconditions, LookedAt(given)) == Holds
    ensures Leads(cfg, w, ClaimSteps(cfg, w, plan, b, refreshed, given) + [Authorize(|w.runs|), Dispatch(|w.runs|, LookedAt(given))],
                  Working(w, Run(plan, b, refreshed, DISPATCHED), Dispatched(|w.runs|), GrantsAfter(cfg, w, b, given), w.book),
                  Opened(w, plan, b, refreshed) + (Prepared(cfg, w, b, given) + [StatusWritten(|w.runs|, DISPATCHED)]))
  {
    var i, claim := |w.runs|, ClaimSteps(cfg, w, plan, b, refreshed, given);
    var r := Run(plan, b, refreshed, AUTHORIZED);
    var v := Working(w, r, Authorized(i), GrantsAfter(cfg, w, b, given), w.book);
    var log := Opened(w, plan, b, refreshed) + Prepared(cfg, w, b, given);
    AuthorizationLeads(cfg, w, plan, b, refreshed, given);
    LastBecomes(w.runs, r, DISPATCHED);
    LeadsOn(cfg, w, claim + [Authorize(i)], v, log, Dispatch(i, LookedAt(given)));
    assert claim + [Authorize(i)] + [Dispatch(i, LookedAt(given))] == claim + [Authorize(i), Dispatch(i, LookedAt(given))];
    Associate(Opened(w, plan, b, refreshed), Prepared(cfg, w, b, given), [StatusWritten(i, DISPATCHED)]);
  }

  lemma EffectLeads(cfg: Config, v: World, i: RunId)
    requires v.pc == Dispatched(i) && i < |v.runs| && InPack(cfg, v.runs[i].action) && KeyOf(v.runs[i]) !in v.book.entries
    ensures var k := KeyOf(v.runs[i]);
            Leads(cfg, v, [StartJournal(i), StartEffect(i)],
                  v.(book := Book(v.book.entries[k := Entry(i, IN_FLIGHT, map[])], v.book.effects + multiset{k}), pc := Realizing(i)),
                  [JournalStarted(k, i), EffectStarted(k)])
  {
    var v1 := v.(book := v.book.(entries := v.book.entries[KeyOf(v.runs[i]) := Entry(i, IN_FLIGHT, map[])]), pc := Journaled(i));
    TwoSteps(cfg, v, StartJournal(i), v1, StartEffect(i));
  }

  /** The journal's commits around the effect. */
  lemma JournalLeads(cfg: Config, v: World, i: RunId, outcome: Realization)
    requires v.pc == Dispatched(i) && i < |v.runs| && InPack(cfg, v.runs[i].action) && KeyOf(v.runs[i]) !in v.book.entries
    ensures var k := KeyOf(v.runs[i]);
            var after := Execute(v.book, Call(k, i, Completes(outcome)));
            Leads(cfg, v, [StartJournal(i), StartEffect(i), EndEffect(i, outcome), FinishJournal(i)],
                  v.(book := after.0, pc := Answered(i, after.1.value), outcomes := v.outcomes[i := outcome]),
                  [JournalStarted(k, i), EffectStarted(k), EffectEnded(k, outcome), JournalFinished(k, outcome)])
  {
    var k := KeyOf(v.runs[i]);
    var started := v.book.entries[k := Entry(i, IN_FLIGHT, map[])];
    var u := v.(book := Book(started, v.book.effects + multiset{k}), pc := Realizing(i));
    EffectLeads(cfg, v, i);
    EffectIsJournaled(cfg, u, i, outcome);
    LeadsAll(cfg, v, [StartJournal(i), StartEffect(i)], u, [JournalStarted(k, i), EffectStarted(k)],
             [EndEffect(i, outcome), FinishJournal(i)],
             u.(book := u.book.(entries := u.book.entries[k := Finished(i, outcome)]),
                pc := Answered(i, Replay(Finished(i, outcome))), outcomes := u.outcomes[i := outcome]),
             [EffectEnded(k, outcome), JournalFinished(k, outcome)]);
    assert started[k := Finished(i, outcome)] == v.book.entries[k := Finished(i, outcome)];
    assert [StartJournal(i), StartEffect(i)] + [EndEffect(i, outcome), FinishJournal(i)] ==
           [StartJournal(i), StartEffect(i), EndEffect(i, outcome), FinishJournal(i)];
    assert [JournalStarted(k, i), EffectStarted(k)] + [EffectEnded(k, outcome), JournalFinished(k, outcome)] ==
           [JournalStarted(k, i), EffectStarted(k), EffectEnded(k, outcome), JournalFinished(k, outcome)];
  }

  lemma EffectIsJournaled(cfg: Config, u: World, i: RunId, outcome: Realization)
    requires u.pc == Realizing(i) && i < |u.runs|
    ensures var k := KeyOf(u.runs[i]);
            Leads(cfg, u, [EndEffect(i, outcome), FinishJournal(i)],
                  u.(book := u.book.(entries := u.book.entries[k := Finished(i, outcome)]),
                     pc := Answered(i, Replay(Finished(i, outcome))), outcomes := u.outcomes[i := outcome]),
                  [EffectEnded(k, outcome), JournalFinished(k, outcome)])
  {
    TwoSteps(cfg, u, EndEffect(i, outcome), u.(outcomes := u.outcomes[i := outcome], pc := Realized(i, outcome)), FinishJournal(i));
  }

  lemma AnswerLeads(cfg: Config, w: World, plan: nat, b: Action, refreshed: bool, given: Inputs, grants: seq<Grant>)
    requires Answer(cfg, w, plan, b, given).Some?
    ensures var i, r, result := |w.runs|, Run(plan, b, refreshed, DISPATCHED), Answer(cfg, w, plan, b, given).value;
            Leads(cfg, Working(w, r, Dispatched(i), grants, w.book), AnswerSteps(w, plan, b, given, result),
                  Working(w, r, Answered(i, result), grants, BookAfter(w, plan, b, given)).(outcomes := OutcomesAfter(w, plan, b, given)),
                  AnswerEvents(w, plan, b, given))
  {
    var i, r, result := |w.runs|, Run(plan, b, refreshed, DISPATCHED), Answer(cfg, w, plan, b, given).value;
    var v := Working(w, r, Dispatched(i), grants, w.book);
    assert v.runs[i] == r && KeyOf(r) == Key(plan, b.id, b.verb, b.args);
    if b.owner == BUILTIN {
      OneStep(cfg, v, RunBuiltin(i, result));
    } else if KeyOf(r) in w.book.entries {
      OneStep(cfg, v, ReplayEntry(i));
    } else {
      JournalLeads(cfg, v, i, given.outcome);
    }
  }

  lemma ConclusionLeads(cfg: Config, w: World, r: Run, grants: seq<Grant>, book: Book, outcomes: map<RunId, Realization>, c: Course, given: Inputs)
    requires r.status == DISPATCHED && c.Ended? && c.action == r.action && Concludes(w, r.action, c, given)
    ensures var i := |w.runs|;
            Leads(cfg, Working(w, r, Answered(i, c.result), grants, book).(outcomes := outcomes), ConclusionSteps(i, c, given),
                  Working(w, r.(status := c.status), Concluded(i), grants, book).(outcomes := outcomes, checks := ChecksAfter(w, c, given)),
                  [StatusWritten(i, c.status)])
  {
    var i := |w.runs|;
    var v := Working(w, r, Answered(i, c.result), grants, book).(outcomes := outcomes);
    LastBecomes(w.runs, r, c.status);
    if IsChecked(c) {
      var v1 := v.(checks := ChecksAfter(w, c, given), pc := Checked(i, c.result, c.status == DONE));
      assert Apply(cfg, v, Check(i, VerifiedOn(given))) == v1;
      TwoSteps(cfg, v, Check(i, VerifiedOn(given)), v1, Conclude(i));
      assert [] + [StatusWritten(i, c.status)] == [StatusWritten(i, c.status)];
    } else {
      OneStep(cfg, v, Conclude(i));
    }
  }

  /** The `finally` clause: the lock set is what it was. */
  lemma LeaveLeads(cfg: Config, w: World, steps: seq<Step>, v: World, log: seq<Event>)
    requires Leads(cfg, w, steps, v, log) && HoldsLocks(v.pc) && v.pc.run < |v.runs|
    requires w.pc == Idle && v.held == w.held + LockSet(v.runs[v.pc.run].action) && !F.Locked(v.runs[v.pc.run].action, w.held)
    ensures Leads(cfg, w, steps + [Leave(v.pc.run)], v.(pc := Idle, held := w.held), log + [LocksFreed(v.runs[v.pc.run].action.locks)])
  {
    LeadsOn(cfg, w, steps, v, log, Leave(v.pc.run));
    assert v.held - LockSet(v.runs[v.pc.run].action) == w.held;
  }

  /** What a course tells of the readings that it came from. */
  predicate Fits(cfg: Config, w: World, plan: nat, b: Action, given: Inputs, c: Course) {
    && Starts(c) && c.action == b
    && (c.Conflict? || !F.Locked(b, w.held))
    && (c.Unapproved? ==> b.approvalRequired && !Approves(cfg, w.grants, |w.runs|, b, given.nowMs))
    && (!c.Conflict? && !c.Unapproved? && b.approvalRequired ==> Approves(cfg, w.grants, |w.runs|, b, given.nowMs))
    && (c.Unanswered? || Answers(c) ==> Evaluate(b.preconditions, LookedAt(given)) == Holds)
    && (Answers(c) ==> Answer(cfg, w, plan, b, given) == Some(c.result))
    && (c.Ended? ==> Concludes(w, b, c, given))
  }

  predicate Concludes(w: World, b: Action, c: Course, given: Inputs)
    requires c.Ended?
  {
    && c.status in Allowed(DISPATCHED)
    && if IsChecked(c) then
         (c.status == DONE || c.status == REPLAN_REQUIRED) && Evaluate(Verification(b), VerifiedOn(given)) == Of(c.status == DONE)
       else Conclusion(Answered(|w.runs|, c.result), b) == Some(c.status)
  }

  lemma VerdictConcludes(w: World, b: Action, result: Result, given: Inputs, runs: seq<Run>)
    requires Verdict(b, result, given.verify, runs).Some?
    ensures Concludes(w, b, Ended(b, result, Verdict(b, result, given.verify, runs).value), given)
  {
  }

  lemma DispatchedFits(cfg: Config, w: World, plan: nat, b: Action, refreshed: bool, given: Inputs)
    requires Evaluate(b.preconditions, LookedAt(given)) == Holds && !F.Locked(b, w.held)
    requires b.approvalRequired ==> Approves(cfg, w.grants, |w.runs|, b, given.nowMs)
    ensures Fits(cfg, w, plan, b, given, CourseDispatched(cfg, w, plan, b, refreshed, given))
  {
    var c := CourseDispatched(cfg, w, plan, b, refreshed, given);
    if c.Ended? {
      VerdictConcludes(w, b, c.result, given, With(w, plan, b, refreshed, DISPATCHED));
    }
  }

  lemma CourseFits(cfg: Config, w: World, plan: nat, b: Action, refreshed: bool, given: Inputs)
    ensures Fits(cfg, w, plan, b, given, CourseAs(cfg, w, plan, b, refreshed, given))
  {
    if && !F.Locked(b, w.held) && (b.approvalRequired ==> Approves(cfg, w.grants, |w.runs|, b, given.nowMs))
       && Test(b.preconditions, given.recheck, With(w, plan, b, refreshed, AUTHORIZED)) == Holds {
      DispatchedFits(cfg, w, plan, b, refreshed, given);
    }
  }

  lemma ConflictLeads(cfg: Config, w: World, plan: nat, b: Action, refreshed: bool)
    requires MayCreate(w, plan, b, refreshed)
    ensures Leads(cfg, w, [CreateRun(plan, b, refreshed), Abandon(|w.runs|)], w.(runs := With(w, plan, b, refreshed, PROPOSED)),
                  [RunCreated(|w.runs|, Run(plan, b, refreshed, PROPOSED))])
  {
    var w1 := w.(runs := With(w, plan, b, refreshed, PROPOSED), pc := Created(|w.runs|));
    assert Apply(cfg, w, CreateRun(plan, b, refreshed)) == w1;
    TwoSteps(cfg, w, CreateRun(plan, b, refreshed), w1, Abandon(|w.runs|));
  }

  /** The runs that end at their approval, at the second look at the world, or without an answer. */
  lemma StopsEarly(cfg: Config, w: World, plan: nat, b: Action, refreshed: bool, c: Course, given: Inputs)
    requires MayCreate(w, plan, b, refreshed) && Fits(cfg, w, plan, b, given, c) && !Answers(c) && !c.Conflict?
    ensures Leads(cfg, w, StepsOf(cfg, w, plan, refreshed, c, given), Performed(cfg, w, plan, refreshed, c, given),
                  EventsOf(cfg, w, plan, refreshed, c, given))
  {
    var i, r := |w.runs|, Run(plan, b, refreshed, PROPOSED);
    var claim, grants := ClaimSteps(cfg, w, plan, b, refreshed, given), GrantsAfter(cfg, w, b, given);
    var begun, prepared := Opened(w, plan, b, refreshed), Prepared(cfg, w, b, given);
    if c.Unapproved? {
      ClaimLeads(cfg, w, plan, b, refreshed, given);
      LeaveLeads(cfg, w, claim, Claimed(cfg, w, plan, b, refreshed, given), begun + AskEvents(cfg, w, b, given));
    } else if c.Unanswered? {
      DispatchLeads(cfg, w, plan, b, refreshed, given);
      LeaveLeads(cfg, w, claim + [Authorize(i), Dispatch(i, LookedAt(given))],
                 Working(w, r.(status := DISPATCHED), Dispatched(i), grants, w.book),
                 begun + (prepared + [StatusWritten(i, DISPATCHED)]));
      assert CallEvents(w, plan, b, given, false) == [StatusWritten(i, DISPATCHED)];
    } else {
      AuthorizationLeads(cfg, w, plan, b, refreshed, given);
      LeaveLeads(cfg, w, claim + [Authorize(i)], Working(w, r.(status := AUTHORIZED), Authorized(i), grants, w.book), begun + prepared);
    }
  }

  lemma Deepen(a: seq<Event>, b: seq<Event>, c: seq<Event>, d: seq<Event>)
    ensures (a + (b + c)) + d == a + (b + (c + d))
  {
  }

  /** Up to the answer. */
  lemma AnswerReached(cfg: Config, w: World, plan: nat, b: Action, refreshed: bool, result: Result, given: Inputs)
    requires MayCreate(w, plan, b, refreshed) && !F.Locked(b, w.held)
    requires b.approvalRequired ==> Approves(cfg, w.grants, |w.runs|, b, given.nowMs)
    requires Evaluate(b.preconditions, LookedAt(given)) == Holds && Answer(cfg, w, plan, b, given) == Some(result)
    ensures var i, claim := |w.runs|, ClaimSteps(cfg, w, plan, b, refreshed, given);
            Leads(cfg, w, claim + [Authorize(i), Dispatch(i, LookedAt(given))] + AnswerSteps(w, plan, b, given, result),
                  Working(w, Run(plan, b, refreshed, DISPATCHED), Answered(i, result), GrantsAfter(cfg, w, b, given),
                          BookAfter(w, plan, b, given)).(outcomes := OutcomesAfter(w, plan, b, given)),
                  Opened(w, plan, b, refreshed) + (Prepared(cfg, w, b, given) + CallEvents(w, plan, b, given, true)))
  {
    var i, r, claim := |w.runs|, Run(plan, b, refreshed, DISPATCHED), ClaimSteps(cfg, w, plan, b, refreshed, given);
    var grants, book := GrantsAfter(cfg, w, b, given), BookAfter(w, plan, b, given);
    var begun, prepared, written := Opened(w, plan, b, refreshed), Prepared(cfg, w, b, given), [StatusWritten(i, DISPATCHED)];
    DispatchLeads(cfg, w, plan, b, refreshed, given);
    AnswerLeads(cfg, w, plan, b, refreshed, given, grants);
    LeadsAll(cfg, w, claim + [Authorize(i), Dispatch(i, LookedAt(given))],
             Working(w, r, Dispatched(i), grants, w.book), begun + (prepared + written),
             AnswerSteps(w, plan, b, given, result),
             Working(w, r, Answered(i, result), grants, book).(outcomes := OutcomesAfter(w, plan, b, given)), AnswerEvents(w, plan, b, given));
    Deepen(begun, prepared, written, AnswerEvents(w, plan, b, given));
  }

  /** The runs that get their answer. */
  lemma RunsThrough(cfg: Config, w: World, plan: nat, b: Action, refreshed: bool, c: Course, given: Inputs)
    requires MayCreate(w, plan, b, refreshed) && Fits(cfg, w, plan, b, given, c) && Answers(c)
    ensures Leads(cfg, w, StepsOf(cfg, w, plan, refreshed, c, given), Performed(cfg, w, plan, refreshed, c, given),
                  EventsOf(cfg, w, plan, refreshed, c, given))
  {
    var i, r, claim := |w.runs|, Run(plan, b, refreshed, DISPATCHED), ClaimSteps(cfg, w, plan, b, refreshed, given);
    var grants, book := GrantsAfter(cfg, w, b, given), BookAfter(w, plan, b, given);
    var through := claim + [Authorize(i), Dispatch(i, LookedAt(given))] + AnswerSteps(w, plan, b, given, c.result);
    var outcomes := OutcomesAfter(w, plan, b, given);
    var answered := Working(w, r, Answered(i, c.result), grants, book).(outcomes := outcomes);
    var begun, prepared, called := Opened(w, plan, b, refreshed), Prepared(cfg, w, b, given), CallEvents(w, plan, b, given, true);
    AnswerReached(cfg, w, plan, b, refreshed, c.result, given);
    if c.Unverified? {
      LeaveLeads(cfg, w, through, answered, begun + (prepared + called));
    } else {
      var v := Working(w, r.(status := c.status), Concluded(i), grants, book).(outcomes := outcomes, checks := ChecksAfter(w, c, given));
      ConclusionLeads(cfg, w, r, grants, book, outcomes, c, given);
      LeadsAll(cfg, w, through, answered, begun + (prepared + called), ConclusionSteps(i, c, given), v, [StatusWritten(i, c.status)]);
      Deepen(begun, prepared, called, [StatusWritten(i, c.status)]);
      LeaveLeads(cfg, w, through + ConclusionSteps(i, c, given), v, begun + (prepared + (called + [StatusWritten(i, c.status)])));
    }
  }

  /** What the frontier refresh buys: a run of the planner path wants no lock that is durably held. */
  lemma RefreshedIsUnlocked(o: Option<Observation>, runs: seq<Run>, id: string)
    requires Compiled(o, runs).Some? && F.LastNamed(Compiled(o, runs).value, id).Some?
    ensures var b := F.LastNamed(Compiled(o, runs).value, id).value; b.id == id && !F.Locked(b, DurableLocks(runs))
  {
    F.FrontierIsLegal(o.value.candidates, o.value.facts, DurableLocks(runs), F.LastNamed(Compiled(o, runs).value, id).value);
  }

  lemma FreshCourse(cfg: Config, w: World, plan: nat, a: Action, refreshed: bool, given: Inputs)
    ensures var c := CourseOf(cfg, w, plan, a, refreshed, given);
            Starts(c) ==>
              && c == CourseAs(cfg, w, plan, c.action, refreshed, given) && c.action.id == a.id
              && (refreshed ==> !F.Locked(c.action, DurableLocks(w.runs)))
  {
    if !refreshed {
      CourseFits(cfg, w, plan, a, refreshed, given);
    } else if Compiled(given.refresh, w.runs).Some? && F.LastNamed(Compiled(given.refresh, w.runs).value, a.id).Some? {
      RefreshedIsUnlocked(given.refresh, w.runs, a.id);
      CourseFits(cfg, w, plan, F.LastNamed(Compiled(given.refresh, w.runs).value, a.id).value, refreshed, given);
    }
  }

  /** The plan has no run yet for the action. */
  predicate IsNew(w: World, plan: nat, id: string) {
    forall j | 0 <= j < |w.runs| :: !(w.runs[j].plan == plan && w.runs[j].action.id == id)
  }

  lemma CourseLeads(cfg: Config, w: World, plan: nat, b: Action, refreshed: bool, c: Course, given: Inputs)
    requires MayCreate(w, plan, b, refreshed) && Fits(cfg, w, plan, b, given, c)
    ensures Leads(cfg, w, StepsOf(cfg, w, plan, refreshed, c, given), Performed(cfg, w, plan, refreshed, c, given),
                  EventsOf(cfg, w, plan, refreshed, c, given))
  {
    if c.Conflict? {
      ConflictLeads(cfg, w, plan, b, refreshed);
    } else if Answers(c) {
      RunsThrough(cfg, w, plan, b, refreshed, c, given);
    } else {
      StopsEarly(cfg, w, plan, b, refreshed, c, given);
    }
  }

  /** One action of the loop takes steps that the machine allows; they lead where `Performed` says, by
    * the events that `EventsOf` lists. */
  lemma PerformanceLeads(cfg: Config, w: World, plan: nat, a: Action, refreshed: bool, given: Inputs)
    requires w.pc == Idle && plan < w.plans && IsNew(w, plan, a.id)
    ensures var c := CourseOf(cfg, w, plan, a, refreshed, given);
            Leads(cfg, w, StepsOf(cfg, w, plan, refreshed, c, given), Performed(cfg, w, plan, refreshed, c, given),
                  EventsOf(cfg, w, plan, refreshed, c, given))
  {
    var c := CourseOf(cfg, w, plan, a, refreshed, given);
    if Starts(c) {
      FreshCourse(cfg, w, plan, a, refreshed, given);
      CourseFits(cfg, w, plan, c.action, refreshed, given);
      CourseLeads(cfg, w, plan, c.action, refreshed, c, given);
    }
  }
}
