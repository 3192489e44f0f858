/** The promises of the ledger protocol, over every run from the empty stores. */
module LedgerTheorems {
  import opened Wrappers
  import opened LedgerModel
  import opened LedgerSafety

  lemma ReachableInv(tools: Registry, steps: seq<Step>)
    requires Legal(tools, INIT, steps)
    ensures Inv(tools, Run(tools, INIT, steps))
  {
    InvariantHolds(tools, INIT, steps);
  }

  // ----- Reconcile -----

  /** What a reconcile pass leaves: every dispatched row is settled by what its diary says. */
  function Reconciled(w: World): World {
    w.(rows := seq(|w.rows|, i requires 0 <= i < |w.rows| =>
                 if w.rows[i].status == DISPATCHED then w.rows[i].(status := Verdict(Lookup(w, i))) else w.rows[i]))
  }

  /** What the settled status of a gated action says about what happened at the hardware. */
  ghost predicate TellsTheTruth(w: World, status: Status, i: ActionId)
    requires i < |w.rows|
  {
    && status != DISPATCHED
    && (status == DONE <==> Lookup(w, i) == Some(SUCCESS))
    && (status == DONE ==> i in w.outcomes && w.outcomes[i])
    && (status == FAILED <==> Lookup(w, i) == Some(ERROR))
    && (status == FAILED ==> i in w.outcomes && !w.outcomes[i])
    && (status == UNKNOWN ==> Lookup(w, i) == Some(IN_FLIGHT))
    && (NeverDispatched(status) ==> w.starts[i] == 0)
  }

  /** Every gated action is told the truth about after a crash and a reconcile pass; in particular a tool
    * that was started without its outcome being recorded is UNKNOWN. */
  ghost predicate TruthAfterCrash(tools: Registry, w: World) {
    forall i | 0 <= i < |w.rows| && !Bypass(tools, w.rows[i]) ::
      && TellsTheTruth(w, Reconciled(w).rows[i].status, i)
      && (w.starts[i] == 1 && Lookup(w, i) == Some(IN_FLIGHT) ==> Reconciled(w).rows[i].status == UNKNOWN)
  }

  /** After a crash at any point of any run and a reconcile pass, the ledger tells the truth about every
    * gated action: no row is still dispatched, DONE stands for a recorded success and FAILED for a recorded
    * error of a tool that did run, and an action in a status before dispatch was never started. */
  lemma ReconcileTellsTheTruth(tools: Registry, steps: seq<Step>)
    requires Legal(tools, INIT, steps)
    ensures TruthAfterCrash(tools, Run(tools, INIT, steps).(pc := Idle))
  {
    ReachableInv(tools, steps);
    InvGivesTruth(tools, Run(tools, INIT, steps));
  }

  lemma InvGivesTruth(tools: Registry, u: World)
    requires Inv(tools, u)
    ensures TruthAfterCrash(tools, u.(pc := Idle))
  {
    var w := u.(pc := Idle);
    forall i | 0 <= i < |w.rows| && !Bypass(tools, w.rows[i])
      ensures TellsTheTruth(w, Reconciled(w).rows[i].status, i)
      ensures w.starts[i] == 1 && Lookup(w, i) == Some(IN_FLIGHT) ==> Reconciled(w).rows[i].status == UNKNOWN
    {
      assert RowOk(tools, u, i);
      RowOkGivesTruth(tools, w, i);
    }
  }

  lemma RowOkGivesTruth(tools: Registry, w: World, i: ActionId)
    requires i < |w.rows| && RowOk(tools, w, i) && !Bypass(tools, w.rows[i])
    ensures TellsTheTruth(w, Reconciled(w).rows[i].status, i)
    ensures w.starts[i] == 1 && Lookup(w, i) == Some(IN_FLIGHT) ==> Reconciled(w).rows[i].status == UNKNOWN
  {
  }

  /** Reconcile's "never dispatched" branch is for gate-bypass rows alone: a dispatched row has no diary entry
    * if and only if its tool bypasses the gates. */
  lemma NeverDispatchedBranch(tools: Registry, steps: seq<Step>, i: ActionId)
    requires Legal(tools, INIT, steps)
    ensures var w := Run(tools, INIT, steps);
            i < |w.rows| && w.rows[i].status == DISPATCHED ==> (Lookup(w, i) == None <==> Bypass(tools, w.rows[i]))
  {
    ReachableInv(tools, steps);
    var w := Run(tools, INIT, steps);
    if i < |w.rows| {
      assert RowOk(tools, w, i);
    }
  }

  /** A row resolved to FAILED did not succeed. */
  ghost predicate FailureIsTrue(w: World, i: ActionId) {
    i < |Reconciled(w).rows| && Reconciled(w).rows[i].status == FAILED && i in w.outcomes ==> !w.outcomes[i]
  }

  ghost predicate AlwaysTrue(tools: Registry, tool: string) {
    forall steps, i: ActionId | Legal(tools, INIT, steps) ::
      (var w := Run(tools, INIT, steps); i < |w.rows| && w.rows[i].tool == tool ==> FailureIsTrue(w, i))
  }

  /** Reconcile's FAILED can be believed, in every run, for exactly the tools that pass through the gates: a
    * bypass tool that succeeded just before a crash is reported as failed. */
  lemma FailureIsTrueExactlyForGatedTools(tools: Registry, tool: string)
    requires tool in tools
    ensures AlwaysTrue(tools, tool) <==> !tools[tool].gateBypass
  {
    if tools[tool].gateBypass {
      var steps := LostSuccess(tools, tool);
      assert !FailureIsTrue(Run(tools, INIT, steps), 0);
    } else {
      forall steps, i: ActionId | Legal(tools, INIT, steps)
        ensures var w := Run(tools, INIT, steps); i < |w.rows| && w.rows[i].tool == tool ==> FailureIsTrue(w, i)
      {
        ReachableInv(tools, steps);
        var w := Run(tools, INIT, steps);
        if i < |w.rows| {
          assert RowOk(tools, w, i);
        }
      }
    }
  }

  /** A run in which a bypass tool succeeds and the crash comes before its status is written. */
  lemma LostSuccess(tools: Registry, tool: string) returns (steps: seq<Step>)
    requires tool in tools && tools[tool].gateBypass
    ensures Legal(tools, INIT, steps)
    ensures var w := Run(tools, INIT, steps);
            |w.rows| == 1 && w.rows[0].tool == tool && w.rows[0].status == DISPATCHED && Lookup(w, 0) == None
            && 0 in w.outcomes && w.outcomes[0]
  {
    steps := [];
    steps := Take(tools, steps, Propose(Proposal(tool, "", tools[tool].group, false, 0, 0, None)));
    steps := Take(tools, steps, DispatchBypass(0));
    steps := Take(tools, steps, StartTool(0));
    steps := Take(tools, steps, FinishTool(0, true));
    steps := Take(tools, steps, Crash);
  }

  lemma Take(tools: Registry, steps: seq<Step>, s: Step) returns (more: seq<Step>)
    requires Legal(tools, INIT, steps) && Enabled(tools, Run(tools, INIT, steps), s)
    ensures Legal(tools, INIT, more)
    ensures Run(tools, INIT, more) == Apply(tools, Run(tools, INIT, steps), s)
  {
    RunSnoc(tools, INIT, steps, s);
    more := steps + [s];
  }

  // ----- Execution -----

  /** How often a run starts the tool of action `i`. */
  function StartsIn(steps: seq<Step>, i: ActionId): nat {
    multiset(steps)[StartTool(i)]
  }

  lemma StepLogsItsStart(tools: Registry, w: World, s: Step, i: ActionId)
    requires Enabled(tools, w, s)
    ensures Apply(tools, w, s).starts[i] == w.starts[i] + if s == StartTool(i) then 1 else 0
  {
  }

  lemma {:induction false} LogCountsStarts(tools: Registry, steps: seq<Step>, i: ActionId)
    requires Legal(tools, INIT, steps)
    ensures Run(tools, INIT, steps).starts[i] == StartsIn(steps, i)
  {
    if steps != [] {
      LogCountsStarts(tools, steps[..|steps| - 1], i);
      StepLogsItsStart(tools, Run(tools, INIT, steps[..|steps| - 1]), steps[|steps| - 1], i);
      assert steps == steps[..|steps| - 1] + [steps[|steps| - 1]];
    }
  }

  /** At most once: in no run is an action's tool started twice, whatever crashes and reconcile passes lie
    * between. */
  lemma StartedAtMostOnce(tools: Registry, steps: seq<Step>, i: ActionId)
    requires Legal(tools, INIT, steps)
    ensures StartsIn(steps, i) <= 1
  {
    LogCountsStarts(tools, steps, i);
    ReachableInv(tools, steps);
    if i < |Run(tools, INIT, steps).rows| {
      assert RowOk(tools, Run(tools, INIT, steps), i);
    }
  }

  /** A gated tool is started only when both its IN_FLIGHT entry and its DISPATCHED status are committed, its
    * predecessors are done, and its approval, if it needs one, is recorded; and it was not started before. */
  lemma StartFollowsBothCommits(tools: Registry, before: seq<Step>, i: ActionId)
    requires Legal(tools, INIT, before) && Enabled(tools, Run(tools, INIT, before), StartTool(i))
    ensures var w := Run(tools, INIT, before);
            && i < |w.rows| && w.rows[i].status == DISPATCHED && StartsIn(before, i) == 0
            && (!Bypass(tools, w.rows[i]) ==>
                  && DiaryKey(w.rows[i]) in w.diaries && w.diaries[DiaryKey(w.rows[i])] == Entry(i, IN_FLIGHT)
                  && Cleared(tools, w, i))
  {
    LogCountsStarts(tools, before, i);
    ReachableInv(tools, before);
    assert RowOk(tools, Run(tools, INIT, before), i);
  }

  /** Between any two states of a run, rows are only appended, nothing but a status changes, and that only
    * upwards. */
  lemma {:induction false} RowsOnlyRise(tools: Registry, steps: seq<Step>, n: nat, i: ActionId)
    requires Legal(tools, INIT, steps) && n <= |steps| && Legal(tools, INIT, steps[..n])
    requires i < |Run(tools, INIT, steps[..n]).rows|
    ensures var u, w := Run(tools, INIT, steps[..n]), Run(tools, INIT, steps);
            && |u.rows| <= |w.rows|
            && w.rows[i] == u.rows[i].(status := w.rows[i].status)
            && Rises(u.rows[i].status, w.rows[i].status)
    decreases |steps|
  {
    if n == |steps| {
      assert steps[..n] == steps;
    } else {
      var so := steps[..|steps| - 1];
      assert so[..n] == steps[..n];
      RowsOnlyRise(tools, so, n, i);
      ReachableInv(tools, so);
      StatusRises(tools, Run(tools, INIT, so), steps[|steps| - 1], i);
    }
  }

  /** How often the status of action `i` changes along a run. */
  function Changes(tools: Registry, steps: seq<Step>, i: ActionId): nat
    requires Legal(tools, INIT, steps)
  {
    if steps == [] then 0
    else
      var so := steps[..|steps| - 1];
      var u, w := Run(tools, INIT, so), Run(tools, INIT, steps);
      Changes(tools, so, i) + if i < |u.rows| && i < |w.rows| && u.rows[i].status != w.rows[i].status then 1 else 0
  }

  /** A row changes its status at most three times, and the terminal statuses are final: each change
    * raises the rank, which starts at 0 and ends at 3. */
  lemma {:induction false} StatusChangesAtMostThrice(tools: Registry, steps: seq<Step>, i: ActionId)
    requires Legal(tools, INIT, steps)
    ensures var w := Run(tools, INIT, steps);
            && Changes(tools, steps, i) <= 3
            && (i < |w.rows| ==> Changes(tools, steps, i) <= Rank(w.rows[i].status))
            && (i >= |w.rows| ==> Changes(tools, steps, i) == 0)
  {
    if steps != [] {
      var so := steps[..|steps| - 1];
      StatusChangesAtMostThrice(tools, so, i);
      ReachableInv(tools, so);
      var u := Run(tools, INIT, so);
      if i < |u.rows| {
        StatusRises(tools, u, steps[|steps| - 1], i);
      }
    }
  }

  // ----- Chains -----

  /** If a gated chain step was dispatched by state `n` of a run, then every lower-numbered step of its chain
    * that is recorded at the end of the run was recorded and DONE already at `n`, and still is. */
  lemma ChainPrefix(tools: Registry, steps: seq<Step>, n: nat, i: ActionId, j: ActionId)
    requires Legal(tools, INIT, steps) && n <= |steps| && Legal(tools, INIT, steps[..n])
    requires var u := Run(tools, INIT, steps[..n]);
             i < |u.rows| && !Bypass(tools, u.rows[i]) && !NeverDispatched(u.rows[i].status)
    requires var w := Run(tools, INIT, steps); i < |w.rows| && Precedes(w.rows, j, w.rows[i])
    ensures var u, w := Run(tools, INIT, steps[..n]), Run(tools, INIT, steps);
            j < |u.rows| && u.rows[j].status == DONE && w.rows[j].status == DONE
  {
    var u, w := Run(tools, INIT, steps[..n]), Run(tools, INIT, steps);
    ReachableInv(tools, steps[..n]);
    ReachableInv(tools, steps);
    RowsOnlyRise(tools, steps, n, i);
    RowsOnlyRise(tools, steps, n, j);
    assert Cleared(tools, u, i) && Precedes(u.rows, j, u.rows[i]);
  }

  /** A chain step behind an UNKNOWN, FAILED or REJECTED one never starts, in this state or any later one. */
  lemma BlockedStepNeverStarts(tools: Registry, steps: seq<Step>, n: nat, i: ActionId, j: ActionId)
    requires Legal(tools, INIT, steps) && n <= |steps| && Legal(tools, INIT, steps[..n])
    requires var u := Run(tools, INIT, steps[..n]);
             && i < |u.rows| && !Bypass(tools, u.rows[i]) && Precedes(u.rows, j, u.rows[i])
             && (u.rows[j].status == UNKNOWN || u.rows[j].status == FAILED || u.rows[j].status == REJECTED)
    ensures StartsIn(steps, i) == 0
  {
    var u, w := Run(tools, INIT, steps[..n]), Run(tools, INIT, steps);
    RowsOnlyRise(tools, steps, n, i);
    RowsOnlyRise(tools, steps, n, j);
    ReachableInv(tools, steps);
    LogCountsStarts(tools, steps, i);
    NotStartedBehind(tools, w, i, j);
  }

  lemma NotStartedBehind(tools: Registry, w: World, i: ActionId, j: ActionId)
    requires Inv(tools, w) && i < |w.rows| && !Bypass(tools, w.rows[i]) && Precedes(w.rows, j, w.rows[i])
    ensures w.rows[j].status != DONE ==> w.starts[i] == 0
  {
    assert RowOk(tools, w, i);
  }

  // ----- Keys and device groups -----

  /** After any interleaving of proposals and engine steps, the keys stored for some parameters of a tool are
    * the base key and the retries 1 to n - 1, each once, and at most one of their rows is active. */
  lemma ProposalKeys(tools: Registry, steps: seq<Step>, tool: string, params: string, n: nat)
    requires Legal(tools, INIT, steps)
    ensures var rows := Run(tools, INIT, steps).rows;
            && (n < CountPair(rows, tool, params) <==>
                exists i | 0 <= i < |rows| :: SamePair(rows[i], tool, params) && rows[i].key == Key(tool, params, n))
            && (forall i, j | 0 <= i < |rows| && 0 <= j < |rows| :: rows[i].key == rows[j].key ==> i == j)
            && (forall i, j | 0 <= i < |rows| && 0 <= j < |rows| ::
                  SamePair(rows[i], rows[j].tool, rows[j].params) && Active(rows[i].status) && Active(rows[j].status) ==> i == j)
  {
    ReachableInv(tools, steps);
    KeysAreGapless(Run(tools, INIT, steps).rows, tool, params, n);
  }

  /** In state `n` of a run, row `i` is an action in doubt. */
  ghost predicate InDoubtAt(tools: Registry, steps: seq<Step>, n: nat, i: ActionId) {
    && Legal(tools, INIT, steps) && n <= |steps| && Legal(tools, INIT, steps[..n])
    && i < |Run(tools, INIT, steps[..n]).rows| && Run(tools, INIT, steps[..n]).rows[i].status == UNKNOWN
  }

  /** It stays in doubt, and the ledger refuses every proposal of its parameters in every later state. */
  lemma DoubtStays(tools: Registry, steps: seq<Step>, n: nat, i: ActionId)
    requires InDoubtAt(tools, steps, n, i)
    ensures var u, w := Run(tools, INIT, steps[..n]), Run(tools, INIT, steps);
            && |u.rows| <= |w.rows| && w.rows[i] == u.rows[i]
            && forall p: Proposal | p.tool == u.rows[i].tool && p.params == u.rows[i].params :: Proposed(w.rows, p) == w.rows
  {
    RowsOnlyRise(tools, steps, n, i);
  }

  /** A step adds no row of the parameters in doubt, and starts none. */
  lemma NothingOfThePair(tools: Registry, steps: seq<Step>, i: ActionId, s: Step, k: ActionId)
    requires Legal(tools, INIT, steps) && Enabled(tools, Run(tools, INIT, steps), s)
    requires var rows := Run(tools, INIT, steps).rows;
             && i < |rows| && rows[i].status == UNKNOWN
             && k < |Apply(tools, Run(tools, INIT, steps), s).rows|
             && SamePair(Apply(tools, Run(tools, INIT, steps), s).rows[k], rows[i].tool, rows[i].params)
    ensures var rows := Run(tools, INIT, steps).rows;
            k < |rows| && SamePair(rows[k], rows[i].tool, rows[i].params) && s != StartTool(k)
  {
    var w := Run(tools, INIT, steps);
    ReachableInv(tools, steps);
    if s.Propose? {
      assert SamePair(w.rows[i], w.rows[i].tool, w.rows[i].params) && Active(w.rows[i].status);
    } else if s == StartTool(k) {
      StartFollowsBothCommits(tools, steps, k);
      ProposalKeys(tools, steps, w.rows[i].tool, w.rows[i].params, 0);
      assert SamePair(w.rows[k], w.rows[i].tool, w.rows[i].params) && Active(w.rows[k].status) && Active(w.rows[i].status);
    } else {
      assert k < |w.rows|;
      if k < |w.rows| {
        StatusRises(tools, w, s, k);
      }
    }
  }

  lemma OtherStepsStartNothing(steps: seq<Step>, k: ActionId)
    requires steps != [] && steps[|steps| - 1] != StartTool(k)
    ensures StartsIn(steps, k) == StartsIn(steps[..|steps| - 1], k)
  {
    assert steps == steps[..|steps| - 1] + [steps[|steps| - 1]];
  }

  /** So a command in doubt is never issued again: no later row of the whole run has its tool and
    * parameters, and no row that has them is started any more. */
  lemma {:induction false} DoubtfulIsNeverReissued(tools: Registry, steps: seq<Step>, n: nat, i: ActionId, k: ActionId)
    requires InDoubtAt(tools, steps, n, i)
    requires var u, w := Run(tools, INIT, steps[..n]), Run(tools, INIT, steps);
             k < |w.rows| && SamePair(w.rows[k], u.rows[i].tool, u.rows[i].params)
    ensures k < |Run(tools, INIT, steps[..n]).rows| && StartsIn(steps, k) == StartsIn(steps[..n], k)
    decreases |steps|
  {
    if n == |steps| {
      assert steps[..n] == steps;
    } else {
      var so, s := steps[..|steps| - 1], steps[|steps| - 1];
      assert so[..n] == steps[..n];
      DoubtStays(tools, so, n, i);
      NothingOfThePair(tools, so, i, s, k);
      DoubtfulIsNeverReissued(tools, so, n, i, k);
      OtherStepsStartNothing(steps, k);
    }
  }

  /** No two gated actions of one device group are ever dispatched at the same time. */
  lemma NoDoubleDispatch(tools: Registry, steps: seq<Step>, i: ActionId, j: ActionId)
    requires Legal(tools, INIT, steps)
    ensures var rows := Run(tools, INIT, steps).rows;
            (i < |rows| && j < |rows| && Occupies(tools, rows[i]) && Occupies(tools, rows[j])
             && rows[i].group == rows[j].group) ==> i == j
  {
    ReachableInv(tools, steps);
  }
}
