/** What the steps of the run machine make durable, or do at the hardware or to the locks, in order. */
module RunLog {
  import opened Wrappers
  import opened PackJournal
  import opened RunModel

  datatype Event =
    | PlanStored
    | RunCreated(run: RunId, row: Run)
    | StatusWritten(run: RunId, status: RunStatus)
    | GrantWritten(grant: Grant)
    | JournalStarted(key: Key, run: RunId)
    | EffectStarted(key: Key)
    | EffectEnded(key: Key, outcome: Realization)
    | JournalFinished(key: Key, outcome: Realization)
    | LocksTaken(keys: seq<string>)
    | LocksFreed(keys: seq<string>)

  /** At most one event a step: between two events there is nothing to lose in a crash. */
  function EventOf(cfg: Config, w: World, s: Step): seq<Event>
    requires Enabled(cfg, w, s)
  {
    match s
    case StorePlan => [PlanStored]
    case Decide(g) => [GrantWritten(g)]
    case CreateRun(plan, a, refreshed) => [RunCreated(|w.runs|, Run(plan, a, refreshed, PROPOSED))]
    case Acquire(i) => [LocksTaken(w.runs[i].action.locks)]
    case AskApproval(i) => [StatusWritten(i, WAITING_APPROVAL)]
    case AutoApprove(i, expiresMs) => [GrantWritten(Grant(i, w.runs[i].action.verb, w.runs[i].action.args, true, expiresMs))]
    case Authorize(i) => [StatusWritten(i, AUTHORIZED)]
    case Dispatch(i, _) => [StatusWritten(i, DISPATCHED)]
    case StartJournal(i) => [JournalStarted(KeyOf(w.runs[i]), i)]
    case StartEffect(i) => [EffectStarted(KeyOf(w.runs[i]))]
    case EndEffect(i, outcome) => [EffectEnded(KeyOf(w.runs[i]), outcome)]
    case FinishJournal(i) => [JournalFinished(KeyOf(w.runs[i]), w.pc.outcome)]
    case Conclude(i) => [StatusWritten(i, Conclusion(w.pc, w.runs[i].action).value)]
    case Leave(i) => [LocksFreed(w.runs[i].action.locks)]
    case _ => []
  }

  function LogOf(cfg: Config, w: World, steps: seq<Step>): seq<Event>
    requires Legal(cfg, w, steps)
    decreases |steps|
  {
    if steps == [] then []
    else
      var so, s := steps[..|steps| - 1], steps[|steps| - 1];
      LogOf(cfg, w, so) + EventOf(cfg, After(cfg, w, so), s)
  }

  /** The steps are legal, and lead from one state to the other by these events. */
  predicate Leads(cfg: Config, w: World, steps: seq<Step>, v: World, log: seq<Event>) {
    Legal(cfg, w, steps) && After(cfg, w, steps) == v && LogOf(cfg, w, steps) == log
  }

  lemma LeadsOn(cfg: Config, w: World, steps: seq<Step>, v: World, log: seq<Event>, s: Step)
    requires Leads(cfg, w, steps, v, log) && Enabled(cfg, v, s)
    ensures Leads(cfg, w, steps + [s], Apply(cfg, v, s), log + EventOf(cfg, v, s))
  {
    AfterSnoc(cfg, w, steps, s);
    assert (steps + [s])[..|steps|] == steps;
  }

  lemma OneStep(cfg: Config, v: World, s: Step)
    requires Enabled(cfg, v, s)
    ensures Leads(cfg, v, [s], Apply(cfg, v, s), EventOf(cfg, v, s))
  {
    var none: seq<Step> := [];
    assert Legal(cfg, v, none) && After(cfg, v, none) == v && LogOf(cfg, v, none) == [];
    assert [s][..0] == none;
  }

  lemma TwoSteps(cfg: Config, v: World, s: Step, u: World, t: Step)
    requires Enabled(cfg, v, s) && u == Apply(cfg, v, s) && Enabled(cfg, u, t)
    ensures Leads(cfg, v, [s, t], Apply(cfg, u, t), EventOf(cfg, v, s) + EventOf(cfg, u, t))
  {
    OneStep(cfg, v, s);
    LeadsOn(cfg, v, [s], u, EventOf(cfg, v, s), t);
    assert [s] + [t] == [s, t];
  }

  /** The last step of a list, apart. */
  lemma LastLeads(cfg: Config, v: World, b: seq<Step>, u: World, log: seq<Event>, so: seq<Step>, s: Step)
    requires b != [] && Leads(cfg, v, b, u, log) && so == b[..|b| - 1] && s == b[|b| - 1]
    ensures Legal(cfg, v, so) && Enabled(cfg, After(cfg, v, so), s) && b == so + [s]
    ensures u == Apply(cfg, After(cfg, v, so), s) && log == LogOf(cfg, v, so) + EventOf(cfg, After(cfg, v, so), s)
  {
  }

  lemma {:induction false} LeadsAll(cfg: Config, w: World, a: seq<Step>, v: World, first: seq<Event>, b: seq<Step>, u: World, second: seq<Event>)
    requires Leads(cfg, w, a, v, first) && Leads(cfg, v, b, u, second)
    ensures Leads(cfg, w, a + b, u, first + second)
    decreases |b|
  {
    if b == [] {
      assert a + b == a && first + second == first;
    } else {
      var so, s := b[..|b| - 1], b[|b| - 1];
      var u', log := After(cfg, v, so), LogOf(cfg, v, so);
      LastLeads(cfg, v, b, u, second, so, s);
      LeadsAll(cfg, w, a, v, first, so, u', log);
      LeadsOn(cfg, w, a + so, u', first + log, s);
      ConcatSnoc(a, so, s);
      Associate(first, log, EventOf(cfg, u', s));
    }
  }

  lemma TakeFront<T>(a: seq<T>, b: seq<T>, k: nat)
    requires k <= |a|
    ensures (a + b)[..k] == a[..k]
  {
  }

  lemma AtMostOneEvent(cfg: Config, w: World, s: Step)
    requires Enabled(cfg, w, s)
    ensures |EventOf(cfg, w, s)| <= 1
  {
  }

  /** Wherever a crash cuts the log, what is durable is what some first steps have made so. */
  lemma {:induction false} EveryCutIsAState(cfg: Config, w: World, steps: seq<Step>, k: nat) returns (n: nat)
    requires Legal(cfg, w, steps) && k <= |LogOf(cfg, w, steps)|
    ensures n <= |steps| && Legal(cfg, w, steps[..n] + [Crash])
    ensures Legal(cfg, w, steps[..n]) && LogOf(cfg, w, steps[..n]) == LogOf(cfg, w, steps)[..k]
    decreases |steps|
  {
    var log := LogOf(cfg, w, steps);
    if k == |log| {
      n := |steps|;
      assert steps[..n] == steps && log[..k] == log;
    } else {
      var so, s := steps[..|steps| - 1], steps[|steps| - 1];
      var u := After(cfg, w, so);
      AtMostOneEvent(cfg, u, s);
      TakeFront(LogOf(cfg, w, so), EventOf(cfg, u, s), k);
      n := EveryCutIsAState(cfg, w, so, k);
      assert so[..n] == steps[..n];
    }
    AfterSnoc(cfg, w, steps[..n], Crash);
  }
}
