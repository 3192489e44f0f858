/** What processing a proposal makes of its row, told by the rows, the approvals and the readings alone. */
module LedgerGates {
  import opened Wrappers
  import opened LedgerModel
  import opened LedgerSafety
  import opened LedgerTheorems
  import opened LedgerLog
  import opened LedgerStores
  import opened LedgerDispatch

  // ----- The chain -----

  predicate IsBefore(r: Row, l: Link) {
    r.link.Some? && r.link.value.chain == l.chain && r.link.value.step < l.step
  }

  /** Of the steps before `l`, the one at `j` is the first that is not done. */
  predicate IsFirstUndone(rows: seq<Row>, l: Link, j: nat) {
    && j < |rows| && IsBefore(rows[j], l) && rows[j].status != DONE
    && forall k | 0 <= k < |rows| ::
         IsBefore(rows[k], l) && rows[k].link.value.step < rows[j].link.value.step ==> rows[k].status == DONE
  }

  /** The first undone step of its chain has failed or was rejected, */
  predicate IsBroken(rows: seq<Row>, r: Row) {
    r.link.Some? && exists j | 0 <= j < |rows| ::
      IsFirstUndone(rows, r.link.value, j) && (rows[j].status == FAILED || rows[j].status == REJECTED)
  }

  /** or is still on its way, or in doubt; */
  predicate IsPending(rows: seq<Row>, r: Row) {
    r.link.Some? && exists j | 0 <= j < |rows| ::
      && IsFirstUndone(rows, r.link.value, j)
      && (rows[j].status == PROPOSED || rows[j].status == WAITING_APPROVAL || rows[j].status == DISPATCHED || rows[j].status == UNKNOWN)
  }

  /** or there is none. */
  predicate IsClear(rows: seq<Row>, r: Row) {
    r.link.Some? ==> forall j | 0 <= j < |rows| :: IsBefore(rows[j], r.link.value) ==> rows[j].status == DONE
  }

  lemma {:induction false} CheckStopsAt(rows: seq<Row>, ids: seq<ActionId>) returns (k: nat)
    requires forall m | 0 <= m < |ids| :: ids[m] < |rows|
    ensures k <= |ids| && forall m | 0 <= m < k :: rows[ids[m]].status == DONE
    ensures CheckChain(rows, ids) == Clear <==> k == |ids|
    ensures k < |ids| ==> rows[ids[k]].status != DONE
    ensures k < |ids| ==> (CheckChain(rows, ids) == Broken <==> rows[ids[k]].status == FAILED || rows[ids[k]].status == REJECTED)
  {
    if ids == [] || rows[ids[0]].status != DONE {
      k := 0;
    } else {
      var rest := ids[1..];
      assert forall m | 1 <= m < |ids| :: ids[m] == rest[m - 1];
      var n := CheckStopsAt(rows, rest);
      k := n + 1;
    }
  }

  lemma PrecedesMeansBefore(rows: seq<Row>, j: nat, r: Row)
    requires j < |rows|
    ensures Precedes(rows, j, r) <==> r.link.Some? && IsBefore(rows[j], r.link.value)
  {
  }

  lemma OnlyOneIsFirst(rows: seq<Row>, l: Link, j: nat, k: nat)
    requires ChainsOrdered(rows) && IsFirstUndone(rows, l, j) && IsFirstUndone(rows, l, k)
    ensures j == k
  {
  }

  /** The check of the predecessors finds the first undone one. */
  lemma ChainCheckFindsTheFirst(rows: seq<Row>, r: Row) returns (j: nat)
    requires ChainsOrdered(rows)
    ensures ChainOf(rows, r) == Clear <==> IsClear(rows, r)
    ensures !IsClear(rows, r) ==>
              && IsFirstUndone(rows, r.link.value, j)
              && (ChainOf(rows, r) == Broken <==> rows[j].status == FAILED || rows[j].status == REJECTED)
  {
    var ids := Predecessors(rows, r, |rows|);
    var k := CheckStopsAt(rows, ids);
    PredecessorsInOrder(rows, r, |rows|);
    j := 0;
    if k < |ids| {
      j := ids[k];
      assert Precedes(rows, j, r) && StepAt(rows, j) == rows[j].link.value.step;
      forall n | 0 <= n < |rows| && IsBefore(rows[n], r.link.value) && rows[n].link.value.step < rows[j].link.value.step
        ensures rows[n].status == DONE
      {
        assert Precedes(rows, n, r) && StepAt(rows, n) == rows[n].link.value.step;
        var m :| 0 <= m < |ids| && ids[m] == n;
        assert m < k;
      }
    } else {
      forall n | 0 <= n < |rows| && r.link.Some? && IsBefore(rows[n], r.link.value) ensures rows[n].status == DONE {
        assert Precedes(rows, n, r);
        var m :| 0 <= m < |ids| && ids[m] == n;
      }
    }
  }

  lemma ChainCheckMeans(rows: seq<Row>, r: Row)
    requires ChainsOrdered(rows)
    ensures ChainOf(rows, r) == Clear <==> IsClear(rows, r)
    ensures ChainOf(rows, r) == Broken <==> IsBroken(rows, r)
    ensures ChainOf(rows, r) == Pending <==> IsPending(rows, r)
  {
    var j := ChainCheckFindsTheFirst(rows, r);
    if IsClear(rows, r) {
      assert !IsBroken(rows, r) && !IsPending(rows, r);
    } else {
      forall k | 0 <= k < |rows| && IsFirstUndone(rows, r.link.value, k) ensures k == j {
        OnlyOneIsFirst(rows, r.link.value, j, k);
      }
    }
  }

  // ----- The decision -----

  predicate IsUndecided(approvals: seq<Approval>, i: ActionId) {
    forall m | 0 <= m < |approvals| :: approvals[m].action != i
  }

  /** The last decision on the action. */
  predicate IsDecided(approvals: seq<Approval>, i: ActionId, approve: bool) {
    exists m | 0 <= m < |approvals| :: IsLast(approvals, i, m) && approvals[m].approve == approve
  }

  predicate IsLast(approvals: seq<Approval>, i: ActionId, m: nat) {
    m < |approvals| && approvals[m].action == i && forall n | m < n < |approvals| :: approvals[n].action != i
  }

  lemma OneMoreDecision(so: seq<Approval>, a: Approval, i: ActionId, approve: bool)
    ensures IsDecided(so + [a], i, approve) <==> if a.action == i then a.approve == approve else IsDecided(so, i, approve)
  {
    var more, n := so + [a], |so|;
    if a.action == i {
      assert IsLast(more, i, n);
    } else {
      forall m | 0 <= m < n ensures IsLast(more, i, m) <==> IsLast(so, i, m) {
        assert forall k | m < k < n :: more[k] == so[k];
      }
      assert !IsLast(more, i, n);
    }
  }

  lemma {:induction false} LatestIsTheLast(approvals: seq<Approval>, i: ActionId)
    ensures LatestApproval(approvals, i) == None <==> IsUndecided(approvals, i)
    ensures LatestApproval(approvals, i) == Some(true) <==> IsDecided(approvals, i, true)
    ensures LatestApproval(approvals, i) == Some(false) <==> IsDecided(approvals, i, false)
  {
    if approvals != [] {
      var so, n := approvals[..|approvals| - 1], |approvals| - 1;
      LatestIsTheLast(so, i);
      assert approvals == so + [approvals[n]];
      OneMoreDecision(so, approvals[n], i, true);
      OneMoreDecision(so, approvals[n], i, false);
    }
  }

  // ----- The gates -----

  predicate IsStopped(r: Row, g: Gates) {
    g.estop || (r.tool == "resume_print" && g.externalPause)
  }

  predicate IsOccupied(rows: seq<Row>, group: string) {
    exists j | 0 <= j < |rows| :: rows[j].group == group && rows[j].status == DISPATCHED
  }

  predicate IsTooOld(r: Row, g: Gates) {
    g.nowMs - r.createdMs > r.maxAgeMs
  }

  /** A gate lets nothing through for good. */
  predicate TurnsAway(tool: Tool, w: World, i: ActionId, g: Gates)
    requires i < |w.rows|
  {
    var r := w.rows[i];
    || IsBroken(w.rows, r)
    || (IsClear(w.rows, r)
        && (|| IsStopped(r, g)
            || (!IsOccupied(w.rows, tool.group)
                && (|| IsTooOld(r, g)
                    || (r.requiresApproval && IsDecided(w.approvals, i, false))
                    || (!(r.requiresApproval && IsUndecided(w.approvals, i)) && tool.hasPrecheck && g.precheckError)))))
  }

  /** Only the decision is missing. */
  predicate AsksForDecision(tool: Tool, w: World, i: ActionId, g: Gates)
    requires i < |w.rows|
  {
    var r := w.rows[i];
    && IsClear(w.rows, r) && !IsStopped(r, g) && !IsOccupied(w.rows, tool.group) && !IsTooOld(r, g)
    && r.requiresApproval && IsUndecided(w.approvals, i)
  }

  /** The time has not come. */
  predicate PutsOff(tool: Tool, w: World, i: ActionId, g: Gates)
    requires i < |w.rows|
  {
    var r := w.rows[i];
    IsPending(w.rows, r) || (IsClear(w.rows, r) && !IsStopped(r, g) && IsOccupied(w.rows, tool.group))
  }

  predicate LetsThrough(tool: Tool, w: World, i: ActionId, g: Gates)
    requires i < |w.rows|
  {
    var r := w.rows[i];
    && IsClear(w.rows, r) && !IsStopped(r, g) && !IsOccupied(w.rows, tool.group) && !IsTooOld(r, g)
    && (r.requiresApproval ==> IsDecided(w.approvals, i, true)) && !(tool.hasPrecheck && g.precheckError)
  }

  lemma ClosedGatesMean(tool: Tool, w: World, i: ActionId, g: Gates)
    requires i < |w.rows| && ChainsOrdered(w.rows)
    ensures FirstClosed(tool, w, i, g) == Some(Refused) <==> TurnsAway(tool, w, i, g)
    ensures FirstClosed(tool, w, i, g) == Some(AwaitingApproval) <==> AsksForDecision(tool, w, i, g)
    ensures FirstClosed(tool, w, i, g) == Some(Skipped) <==> PutsOff(tool, w, i, g)
    ensures FirstClosed(tool, w, i, g) == None <==> LetsThrough(tool, w, i, g)
  {
    ChainCheckMeans(w.rows, w.rows[i]);
    LatestIsTheLast(w.approvals, i);
    assert IsOccupied(w.rows, tool.group) <==> HasInflight(w.rows, tool.group);
    match LatestApproval(w.approvals, i)
    case None =>
    case Some(approve) => assert approve || !approve;
  }

  // ----- The row afterwards -----

  /** When the row becomes REJECTED: */
  predicate BecomesRejected(tools: Registry, w: World, i: ActionId, g: Gates)
    requires i < |w.rows|
  {
    var r := w.rows[i];
    r.tool !in tools || (!tools[r.tool].gateBypass && TurnsAway(tools[r.tool], w, i, g))
  }

  predicate Runs(tools: Registry, w: World, i: ActionId, g: Gates)
    requires i < |w.rows|
  {
    var r := w.rows[i];
    r.tool in tools && (tools[r.tool].gateBypass || LetsThrough(tools[r.tool], w, i, g))
  }

  predicate Asks(tools: Registry, w: World, i: ActionId, g: Gates)
    requires i < |w.rows|
  {
    var r := w.rows[i];
    r.tool in tools && !tools[r.tool].gateBypass && AsksForDecision(tools[r.tool], w, i, g)
  }

  /** What the caller is told. */
  lemma ReplyTellsTheCase(tools: Registry, w: World, i: ActionId, g: Gates, result: ToolResult)
    requires i < |w.rows| && ChainsOrdered(w.rows)
    ensures var reply := ReplyTo(tools, w, i, g, result);
            && (reply == Refused <==> BecomesRejected(tools, w, i, g))
            && (reply == AwaitingApproval <==> Asks(tools, w, i, g))
            && (reply.Executed? <==> Runs(tools, w, i, g))
            && (reply.Executed? ==> (reply.ok <==> result.Completion?))
  {
    if w.rows[i].tool in tools {
      ClosedGatesMean(tools[w.rows[i].tool], w, i, g);
    }
  }

  /** The status that processing leaves. */
  function StatusAfter(tools: Registry, w: World, i: ActionId, g: Gates, result: ToolResult): Status
    requires i < |w.rows|
  {
    Processed(tools, w, i, g, result).rows[i].status
  }

  lemma ReplyIsWritten(tools: Registry, w: World, i: ActionId, g: Gates, result: ToolResult)
    requires i < |w.rows|
    ensures var v, reply := Processed(tools, w, i, g, result), ReplyTo(tools, w, i, g, result);
            && v.rows == w.rows[i := w.rows[i].(status :=
                 match reply
                 case Refused => REJECTED
                 case AwaitingApproval => WAITING_APPROVAL
                 case Skipped => w.rows[i].status
                 case Executed(ok) => if ok then DONE else FAILED)]
            && v.approvals == w.approvals
            && v.starts == w.starts + (if reply.Executed? then multiset{i} else multiset{})
            && (!reply.Executed? ==> v.diaries == w.diaries && v.outcomes == w.outcomes)
  {
  }

  /** Processing a proposal rejects its row exactly when a gate turns it away, leaves it WAITING_APPROVAL
    * exactly when it asks for a decision or is put off in that status, and settles it by what the tool came
    * back with exactly when all the gates let it through. */
  lemma RowAfterwards(tools: Registry, w: World, i: ActionId, g: Gates, result: ToolResult)
    requires Waiting(w, i) && ChainsOrdered(w.rows)
    ensures var status := StatusAfter(tools, w, i, g, result);
            && (status == REJECTED <==> BecomesRejected(tools, w, i, g))
            && (status == DONE <==> Runs(tools, w, i, g) && result.Completion?)
            && (status == FAILED <==> Runs(tools, w, i, g) && !result.Completion?)
            && (status == WAITING_APPROVAL <==>
                  || Asks(tools, w, i, g)
                  || (w.rows[i].status == WAITING_APPROVAL && !BecomesRejected(tools, w, i, g) && !Runs(tools, w, i, g)))
  {
    ReplyTellsTheCase(tools, w, i, g, result);
    ReplyIsWritten(tools, w, i, g, result);
  }

  /** Nothing else in the ledger changes, and the tool is started exactly when it is let through. */
  lemma NothingElseChanges(tools: Registry, w: World, i: ActionId, g: Gates, result: ToolResult)
    requires Waiting(w, i) && ChainsOrdered(w.rows)
    ensures var v := Processed(tools, w, i, g, result);
            && v.rows == w.rows[i := w.rows[i].(status := StatusAfter(tools, w, i, g, result))]
            && v.approvals == w.approvals
            && v.starts == w.starts + (if Runs(tools, w, i, g) then multiset{i} else multiset{})
            && (!Runs(tools, w, i, g) ==> v.diaries == w.diaries && v.outcomes == w.outcomes)
  {
    ReplyTellsTheCase(tools, w, i, g, result);
    ReplyIsWritten(tools, w, i, g, result);
  }

  /** Which leaves, for a row that stays as it is, a chain still under way or a device group in use. */
  lemma RowStaysAsItIs(tools: Registry, w: World, i: ActionId, g: Gates, result: ToolResult)
    requires i < |w.rows| && Waiting(w, i) && ChainsOrdered(w.rows)
    requires w.rows[i].tool in tools && !tools[w.rows[i].tool].gateBypass
    requires PutsOff(tools[w.rows[i].tool], w, i, g)
    ensures Processed(tools, w, i, g, result) == w
  {
    ClosedGatesMean(tools[w.rows[i].tool], w, i, g);
  }

  // ----- For good -----

  lemma RejectedStays(tools: Registry, steps: seq<Step>, n: nat, i: ActionId)
    requires Legal(tools, INIT, steps) && n <= |steps| && Legal(tools, INIT, steps[..n])
    requires i < |Run(tools, INIT, steps[..n]).rows| && Run(tools, INIT, steps[..n]).rows[i].status == REJECTED
    ensures var w := Run(tools, INIT, steps); i < |w.rows| && w.rows[i].status == REJECTED && w.starts[i] == 0
  {
    RowsOnlyRise(tools, steps, n, i);
    ReachableInv(tools, steps);
    assert RowOk(tools, Run(tools, INIT, steps), i);
  }

  /** What a gate turns away is never started, whatever is done later: here, what was processed while the
    * emergency stop was on, with nothing undone before it. */
  lemma TurnedAwayForGood(tools: Registry, before: seq<Step>, i: ActionId, g: Gates, result: ToolResult, after: seq<Step>)
    requires Legal(tools, INIT, before) && Run(tools, INIT, before).pc == Idle && Waiting(Run(tools, INIT, before), i)
    requires BecomesRejected(tools, Run(tools, INIT, before), i, g)
    requires Legal(tools, Processed(tools, Run(tools, INIT, before), i, g, result), after)
    ensures var w := Run(tools, Processed(tools, Run(tools, INIT, before), i, g, result), after);
            i < |w.rows| && w.rows[i].status == REJECTED && w.starts[i] == 0
  {
    var u := Run(tools, INIT, before);
    var steps, v := Process(tools, u, i, g, result), Processed(tools, u, i, g, result);
    ReachableInv(tools, before);
    ProcessIsRun(tools, u, i, g, result);
    RowAfterwards(tools, u, i, g, result);
    LeadsAll(tools, INIT, before, u, LogOf(tools, INIT, before), steps, v, LogOf(tools, u, steps));
    var so := before + steps;
    LeadsAll(tools, INIT, so, v, LogOf(tools, INIT, so), after, Run(tools, v, after), LogOf(tools, v, after));
    assert (so + after)[..|so|] == so;
    RejectedStays(tools, so + after, |so|, i);
  }

  lemma StoppedForGood(tools: Registry, before: seq<Step>, i: ActionId, g: Gates, result: ToolResult, after: seq<Step>)
    requires Legal(tools, INIT, before) && Run(tools, INIT, before).pc == Idle && Waiting(Run(tools, INIT, before), i)
    requires var w := Run(tools, INIT, before);
             && w.rows[i].tool in tools && !tools[w.rows[i].tool].gateBypass && IsClear(w.rows, w.rows[i])
             && (g.estop || (w.rows[i].tool == "resume_print" && g.externalPause))
    requires Legal(tools, Processed(tools, Run(tools, INIT, before), i, g, result), after)
    ensures var w := Run(tools, Processed(tools, Run(tools, INIT, before), i, g, result), after);
            i < |w.rows| && w.rows[i].status == REJECTED && w.starts[i] == 0
  {
    TurnedAwayForGood(tools, before, i, g, result, after);
  }

  // ----- A pass over the ledger -----

  predicate Reaches(tools: Registry, w: World, steps: seq<Step>, v: World) {
    Legal(tools, w, steps) && Run(tools, w, steps) == v
  }

  lemma ReachesOn(tools: Registry, w: World, a: seq<Step>, u: World, b: seq<Step>, v: World)
    requires Reaches(tools, w, a, u) && Reaches(tools, u, b, v)
    ensures Reaches(tools, w, a + b, v)
  {
    LeadsAll(tools, w, a, u, LogOf(tools, w, a), b, v, LogOf(tools, u, b));
  }

  /** These are rows to be visited, each once. */
  predicate ToVisit(w: World, ids: seq<ActionId>, status: Status) {
    && (forall m | 0 <= m < |ids| :: ids[m] < |w.rows| && w.rows[ids[m]].status == status)
    && (forall j, m | 0 <= j < m < |ids| :: ids[j] < ids[m])
  }

  lemma StillToVisit(w: World, v: World, ids: seq<ActionId>, status: Status)
    requires ids != [] && ToVisit(w, ids, status) && TouchesOnly(w, v, ids[0])
    ensures ToVisit(v, ids[1..], status)
  {
    assert forall m | 0 <= m < |ids[1..]| :: ids[1..][m] == ids[m + 1];
  }

  /** The state has the row as it was, and the approvals. */
  predicate IsUntouched(w: World, u: World, i: ActionId) {
    |u.rows| == |w.rows| && u.approvals == w.approvals && i < |w.rows| && u.rows[i] == w.rows[i]
  }

  /** The first loop: each proposal is processed once, in a state of the pass that has its row as it was, and
    * its row stays as that left it.  No other row changes. */
  lemma {:induction false} EachIsProcessed(tools: Registry, w: World, ids: seq<ActionId>, readings: ActionId -> Readings, i: ActionId)
      returns (before: seq<Step>, u: World, v: World)
    requires Inv(tools, w) && w.pc == Idle && ToVisit(w, ids, PROPOSED) && i < |w.rows|
    ensures Reaches(tools, w, before, u) && Reaches(tools, w, VisitAll(tools, w, ids, readings), v)
    ensures Inv(tools, v) && v.pc == Idle && before <= VisitAll(tools, w, ids, readings)
    ensures IsUntouched(w, u, i) && |v.rows| == |w.rows| && v.approvals == w.approvals
    ensures v.rows[i] == if i in ids then Processed(tools, u, i, readings(i).gates, readings(i).result).rows[i] else w.rows[i]
    decreases |ids|
  {
    before, u, v := [], w, w;
    NoStep(tools, w);
    if ids != [] {
      var t := readings(ids[0]);
      var steps, next := Process(tools, w, ids[0], t.gates, t.result), Processed(tools, w, ids[0], t.gates, t.result);
      ProcessIsRun(tools, w, ids[0], t.gates, t.result);
      ProcessTouchesOne(tools, w, ids[0], t.gates, t.result);
      ReplyIsWritten(tools, w, ids[0], t.gates, t.result);
      StillToVisit(w, next, ids, PROPOSED);
      var more, u', v' := EachIsProcessed(tools, next, ids[1..], readings, i);
      ReachesOn(tools, w, steps, next, VisitAll(tools, next, ids[1..], readings), v');
      v := v';
      if i != ids[0] {
        ReachesOn(tools, w, steps, next, more, u');
        before, u := steps + more, u';
      }
    }
  }

  /** What the second loop makes of an action that waits for approval: a wait that is over its time or a
    * refusal rejects it, no decision leaves all as it is, and an approval has it processed again. */
  function Revisited(tools: Registry, w: World, i: ActionId, t: Readings, timeoutMs: int): World
    requires i < |w.rows|
  {
    if t.pollMs - w.rows[i].createdMs > timeoutMs || LatestApproval(w.approvals, i) == Some(false) then
      w.(rows := WithStatus(w.rows, i, REJECTED))
    else if LatestApproval(w.approvals, i) == None then w
    else Processed(tools, w, i, t.gates, t.result)
  }

  lemma RevisitIsRun(tools: Registry, w: World, i: ActionId, t: Readings, timeoutMs: int)
    requires Inv(tools, w) && w.pc == Idle && i < |w.rows| && w.rows[i].status == WAITING_APPROVAL
    ensures Legal(tools, w, Revisit(tools, w, i, t, timeoutMs))
    ensures Run(tools, w, Revisit(tools, w, i, t, timeoutMs)) == Revisited(tools, w, i, t, timeoutMs)
  {
    if t.pollMs - w.rows[i].createdMs > timeoutMs || LatestApproval(w.approvals, i) == Some(false) {
      OneStep(tools, w, Reject(i));
    } else if LatestApproval(w.approvals, i) == None {
      NoStep(tools, w);
    } else {
      assert LatestApproval(w.approvals, i).value;
      ProcessIsRun(tools, w, i, t.gates, t.result);
    }
  }

  lemma RevisitedKeepsInv(tools: Registry, w: World, i: ActionId, t: Readings, timeoutMs: int)
    requires Inv(tools, w) && w.pc == Idle && i < |w.rows| && w.rows[i].status == WAITING_APPROVAL
    ensures var v := Revisited(tools, w, i, t, timeoutMs); Inv(tools, v) && v.pc == Idle && TouchesOnly(w, v, i) && v.approvals == w.approvals
  {
    RevisitIsRun(tools, w, i, t, timeoutMs);
    InvariantHolds(tools, w, Revisit(tools, w, i, t, timeoutMs));
    ProcessTouchesOne(tools, w, i, t.gates, t.result);
    ProcessIsIdle(tools, w, i, t.gates, t.result);
  }

  lemma ProcessIsIdle(tools: Registry, w: World, i: ActionId, g: Gates, result: ToolResult)
    requires i < |w.rows|
    ensures Processed(tools, w, i, g, result).pc == w.pc
  {
  }

  lemma RevisitMeans(tools: Registry, w: World, i: ActionId, t: Readings, timeoutMs: int)
    requires i < |w.rows|
    ensures var v, late := Revisited(tools, w, i, t, timeoutMs), t.pollMs - w.rows[i].createdMs > timeoutMs;
            && (late || IsDecided(w.approvals, i, false) ==> v == w.(rows := w.rows[i := w.rows[i].(status := REJECTED)]))
            && (!late && IsUndecided(w.approvals, i) ==> v == w)
            && (!late && IsDecided(w.approvals, i, true) ==> v == Processed(tools, w, i, t.gates, t.result))
            && (late || IsUndecided(w.approvals, i) || IsDecided(w.approvals, i, false) || IsDecided(w.approvals, i, true))
  {
    LatestIsTheLast(w.approvals, i);
    match LatestApproval(w.approvals, i)
    case None =>
    case Some(approve) => assert approve || !approve;
  }

  lemma RevisitFirst(tools: Registry, w: World, i: ActionId, t: Readings, timeoutMs: int) returns (steps: seq<Step>, next: World)
    requires Inv(tools, w) && w.pc == Idle && i < |w.rows| && w.rows[i].status == WAITING_APPROVAL
    ensures steps == Revisit(tools, w, i, t, timeoutMs) && next == Revisited(tools, w, i, t, timeoutMs)
    ensures Reaches(tools, w, steps, next) && Exec(tools, w, steps) == next
    ensures Inv(tools, next) && next.pc == Idle && TouchesOnly(w, next, i) && next.approvals == w.approvals
  {
    steps, next := Revisit(tools, w, i, t, timeoutMs), Revisited(tools, w, i, t, timeoutMs);
    RevisitIsRun(tools, w, i, t, timeoutMs);
    RevisitedKeepsInv(tools, w, i, t, timeoutMs);
  }

  /** The second loop, likewise. */
  lemma {:induction false} EachIsRevisited(tools: Registry, w: World, ids: seq<ActionId>, readings: ActionId -> Readings, timeoutMs: int,
                                           i: ActionId)
      returns (before: seq<Step>, u: World, v: World)
    requires Inv(tools, w) && w.pc == Idle && ToVisit(w, ids, WAITING_APPROVAL) && i < |w.rows|
    ensures Reaches(tools, w, before, u) && Reaches(tools, w, RevisitAll(tools, w, ids, readings, timeoutMs), v)
    ensures before <= RevisitAll(tools, w, ids, readings, timeoutMs)
    ensures IsUntouched(w, u, i) && |v.rows| == |w.rows|
    ensures v.rows[i] == if i in ids then Revisited(tools, u, i, readings(i), timeoutMs).rows[i] else w.rows[i]
    decreases |ids|
  {
    before, u, v := [], w, w;
    NoStep(tools, w);
    if ids != [] {
      var t := readings(ids[0]);
      var steps, next := RevisitFirst(tools, w, ids[0], t, timeoutMs);
      StillToVisit(w, next, ids, WAITING_APPROVAL);
      var more, u', v' := EachIsRevisited(tools, next, ids[1..], readings, timeoutMs, i);
      ReachesOn(tools, w, steps, next, RevisitAll(tools, next, ids[1..], readings, timeoutMs), v');
      v := v';
      if i != ids[0] {
        ReachesOn(tools, w, steps, next, more, u');
        before, u := steps + more, u';
      }
    }
  }

  /** The row as the first loop leaves it: processed in the state `u`, if it was a proposal, */
  predicate IsVisited(tools: Registry, w: World, u: World, mid: World, i: ActionId, t: Readings) {
    && IsUntouched(w, u, i) && |mid.rows| == |w.rows|
    && mid.rows[i] == if w.rows[i].status == PROPOSED then Processed(tools, u, i, t.gates, t.result).rows[i] else w.rows[i]
  }

  /** and as the second does: revisited in the state `x`, if it waits for approval by then. */
  predicate IsRevisited(tools: Registry, mid: World, x: World, v: World, i: ActionId, t: Readings, timeoutMs: int) {
    && IsUntouched(mid, x, i) && |v.rows| == |mid.rows|
    && v.rows[i] == if mid.rows[i].status == WAITING_APPROVAL then Revisited(tools, x, i, t, timeoutMs).rows[i] else mid.rows[i]
  }

  /** Every row through one pass of the engine: both loops miss none and take none twice. */
  lemma RowThroughAPass(tools: Registry, w: World, first: ActionId -> Readings, second: ActionId -> Readings, timeoutMs: int, i: ActionId)
      returns (before: seq<Step>, u: World, mid: World, more: seq<Step>, x: World, v: World)
    requires Inv(tools, w) && w.pc == Idle && i < |w.rows|
    ensures Reaches(tools, w, before, u) && before <= Poll(tools, w, first, second, timeoutMs)
    ensures Reaches(tools, w, VisitAll(tools, w, ByStatus(w.rows, PROPOSED), first), mid) && Reaches(tools, mid, more, x)
    ensures Reaches(tools, w, Poll(tools, w, first, second, timeoutMs), v)
    ensures IsVisited(tools, w, u, mid, i, first(i)) && IsRevisited(tools, mid, x, v, i, second(i), timeoutMs)
  {
    before, u, mid := EachIsProcessed(tools, w, ByStatus(w.rows, PROPOSED), first, i);
    more, x, v := EachIsRevisited(tools, mid, ByStatus(mid.rows, WAITING_APPROVAL), second, timeoutMs, i);
    ReachesOn(tools, w, VisitAll(tools, w, ByStatus(w.rows, PROPOSED), first), mid,
              RevisitAll(tools, mid, ByStatus(mid.rows, WAITING_APPROVAL), second, timeoutMs), v);
  }
}
