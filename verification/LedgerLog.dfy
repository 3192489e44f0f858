/** What the steps of the ledger machine make durable, or do at the hardware, in order. */
module LedgerLog {
  import opened Wrappers
  import opened LedgerModel

  datatype Event =
    | Added(proposal: Proposal)
    | Approved(approval: Approval)
    | StatusWritten(action: ActionId, status: Status)
    | InflightWritten(key: (string, Key), action: ActionId)
    | OutcomeWritten(key: (string, Key), ok: bool)
    | ToolStarted(action: ActionId)
    | ToolEnded(action: ActionId, ok: bool)

  /** At most one event a step: between two events there is nothing to lose in a crash. */
  function EventOf(tools: Registry, w: World, s: Step): seq<Event>
    requires Enabled(tools, w, s)
  {
    match s
    case Propose(p) => if HasActivePair(w.rows, p.tool, p.params) then [] else [Added(p)]
    case Approve(a) => if a.action < |w.rows| then [Approved(a)] else []
    case Reject(i) => [StatusWritten(i, REJECTED)]
    case AwaitApproval(i) => [StatusWritten(i, WAITING_APPROVAL)]
    case PassGates(i) => []
    case WriteInflight(i) => [InflightWritten(DiaryKey(w.rows[i]), i)]
    case CommitDispatch(i) => [StatusWritten(i, DISPATCHED)]
    case DispatchBypass(i) => [StatusWritten(i, DISPATCHED)]
    case StartTool(i) => [ToolStarted(i)]
    case FinishTool(i, ok) => [ToolEnded(i, ok)]
    case WriteOutcome(i, ok) => [OutcomeWritten(DiaryKey(w.rows[i]), ok)]
    case Settle(i, ok) => [StatusWritten(i, if ok then DONE else FAILED)]
    case Resolve(i) => [StatusWritten(i, Verdict(Lookup(w, i)))]
    case Crash => []
  }

  function LogOf(tools: Registry, w: World, steps: seq<Step>): seq<Event>
    requires Legal(tools, w, steps)
    decreases |steps|
  {
    if steps == [] then []
    else
      var so, s := steps[..|steps| - 1], steps[|steps| - 1];
      LogOf(tools, w, so) + EventOf(tools, Run(tools, w, so), s)
  }

  /** The steps are legal, and lead from one state to the other by these events. */
  predicate Leads(tools: Registry, w: World, steps: seq<Step>, v: World, log: seq<Event>) {
    Legal(tools, w, steps) && Run(tools, w, steps) == v && LogOf(tools, w, steps) == log
  }

  lemma LeadsOn(tools: Registry, w: World, steps: seq<Step>, v: World, log: seq<Event>, s: Step)
    requires Leads(tools, w, steps, v, log) && Enabled(tools, v, s)
    ensures Leads(tools, w, steps + [s], Apply(tools, v, s), log + EventOf(tools, v, s))
  {
    RunSnoc(tools, w, steps, s);
    assert (steps + [s])[..|steps|] == steps;
  }

  lemma NoStep(tools: Registry, w: World)
    ensures Leads(tools, w, [], w, [])
  {
  }

  lemma OneStep(tools: Registry, v: World, s: Step)
    requires Enabled(tools, v, s)
    ensures Leads(tools, v, [s], Apply(tools, v, s), EventOf(tools, v, s))
  {
    var none: seq<Step> := [];
    assert Legal(tools, v, none) && Run(tools, v, none) == v && LogOf(tools, v, none) == [];
    assert [s][..0] == none;
  }

  lemma TwoSteps(tools: Registry, v: World, s: Step, u: World, t: Step)
    requires Enabled(tools, v, s) && u == Apply(tools, v, s) && Enabled(tools, u, t)
    ensures Leads(tools, v, [s, t], Apply(tools, u, t), EventOf(tools, v, s) + EventOf(tools, u, t))
  {
    OneStep(tools, v, s);
    LeadsOn(tools, v, [s], u, EventOf(tools, v, s), t);
    assert [s] + [t] == [s, t];
  }

  lemma ConcatSnoc(a: seq<Step>, b: seq<Step>, s: Step)
    ensures a + (b + [s]) == a + b + [s]
  {
  }

  /** The last step of a list, apart. */
  lemma LastLeads(tools: Registry, v: World, b: seq<Step>, u: World, log: seq<Event>, so: seq<Step>, s: Step)
    requires b != [] && Leads(tools, v, b, u, log) && so == b[..|b| - 1] && s == b[|b| - 1]
    ensures Legal(tools, v, so) && Enabled(tools, Run(tools, v, so), s) && b == so + [s]
    ensures u == Apply(tools, Run(tools, v, so), s) && log == LogOf(tools, v, so) + EventOf(tools, Run(tools, v, so), s)
  {
  }

  lemma {:induction false} LeadsAll(tools: Registry, w: World, a: seq<Step>, v: World, first: seq<Event>, b: seq<Step>, u: World, second: seq<Event>)
    requires Leads(tools, w, a, v, first) && Leads(tools, v, b, u, second)
    ensures Leads(tools, w, a + b, u, first + second)
    decreases |b|
  {
    if b == [] {
      assert a + b == a && first + second == first;
    } else {
      var so, s := b[..|b| - 1], b[|b| - 1];
      var u', log := Run(tools, v, so), LogOf(tools, v, so);
      LastLeads(tools, v, b, u, second, so, s);
      LeadsAll(tools, w, a, v, first, so, u', log);
      LeadsOn(tools, w, a + so, u', first + log, s);
      ConcatSnoc(a, so, s);
      Associate(first, log, EventOf(tools, u', s));
    }
  }

  lemma TakeFront<T>(a: seq<T>, b: seq<T>, k: nat)
    requires k <= |a|
    ensures (a + b)[..k] == a[..k]
  {
  }

  lemma AtMostOneEvent(tools: Registry, w: World, s: Step)
    requires Enabled(tools, w, s)
    ensures |EventOf(tools, w, s)| <= 1
  {
  }

  /** Wherever a crash cuts the log, what is durable is what some first steps have made so. */
  lemma {:induction false} EveryCutIsAState(tools: Registry, w: World, steps: seq<Step>, k: nat) returns (n: nat)
    requires Legal(tools, w, steps) && k <= |LogOf(tools, w, steps)|
    ensures n <= |steps| && Legal(tools, w, steps[..n] + [Crash])
    ensures Legal(tools, w, steps[..n]) && LogOf(tools, w, steps[..n]) == LogOf(tools, w, steps)[..k]
    decreases |steps|
  {
    var log := LogOf(tools, w, steps);
    if k == |log| {
      n := |steps|;
      assert steps[..n] == steps && log[..k] == log;
    } else {
      var so, s := steps[..|steps| - 1], steps[|steps| - 1];
      var u := Run(tools, w, so);
      AtMostOneEvent(tools, u, s);
      TakeFront(LogOf(tools, w, so), EventOf(tools, u, s), k);
      n := EveryCutIsAState(tools, w, so, k);
      assert so[..n] == steps[..n];
    }
    RunSnoc(tools, w, steps[..n], Crash);
  }
}
