/** What one pass of the engine over the ledger commits, as steps of the ledger machine. */
module LedgerDispatch {
  import opened Wrappers
  import opened LedgerModel
  import opened LedgerSafety
  import opened LedgerTheorems
  import opened LedgerLog
  import opened LedgerStores

  /** What the engine reads outside the stores while it processes one proposal. */
  datatype Gates = Gates(estop: bool, externalPause: bool, nowMs: int, precheckError: bool)

  /** The readings for one visit of an action; `pollMs` is the clock at the approval-timeout check. */
  datatype Readings = Readings(pollMs: int, gates: Gates, result: ToolResult)

  datatype Reply = Refused | Skipped | AwaitingApproval | Executed(ok: bool)

  datatype ChainCheck = Clear | Broken | Pending

  /** The predecessors in order; the first that is not done decides. */
  function CheckChain(rows: seq<Row>, ids: seq<ActionId>): ChainCheck
    requires forall k | 0 <= k < |ids| :: ids[k] < |rows|
  {
    if ids == [] then Clear
    else if rows[ids[0]].status == FAILED || rows[ids[0]].status == REJECTED then Broken
    else if Active(rows[ids[0]].status) then Pending
    else CheckChain(rows, ids[1..])
  }

  function ChainOf(rows: seq<Row>, r: Row): ChainCheck {
    CheckChain(rows, Predecessors(rows, r, |rows|))
  }

  lemma {:induction false} CheckChainReads(rows: seq<Row>, ids: seq<ActionId>)
    requires forall k | 0 <= k < |ids| :: ids[k] < |rows|
    ensures CheckChain(rows, ids) == Clear <==>
            forall k | 0 <= k < |ids| :: rows[ids[k]].status == DONE
  {
    if ids != [] {
      var rest := ids[1..];
      assert forall k | 1 <= k < |ids| :: ids[k] == rest[k - 1];
      CheckChainReads(rows, rest);
    }
  }

  lemma ClearMeansDone(rows: seq<Row>, i: ActionId)
    requires i < |rows|
    ensures ChainOf(rows, rows[i]) == Clear <==> PredecessorsDone(rows, i)
  {
    CheckChainReads(rows, Predecessors(rows, rows[i], |rows|));
  }

  predicate Paused(r: Row, g: Gates) {
    r.tool == "resume_print" && g.externalPause
  }

  predicate Expired(r: Row, nowMs: int) {
    nowMs - r.createdMs > r.maxAgeMs
  }

  function Dispatch(i: ActionId, ok: bool): seq<Step> {
    [PassGates(i), WriteInflight(i), CommitDispatch(i), StartTool(i), FinishTool(i, ok), WriteOutcome(i, ok), Settle(i, ok)]
  }

  function DispatchUngated(i: ActionId, ok: bool): seq<Step> {
    [DispatchBypass(i), StartTool(i), FinishTool(i, ok), Settle(i, ok)]
  }

  /** The gates in order: the reply of the first that is closed, if one is. */
  function FirstClosed(tool: Tool, w: World, i: ActionId, g: Gates): (closed: Option<Reply>)
    requires i < |w.rows|
    ensures closed.Some? ==> !closed.value.Executed?
  {
    var r := w.rows[i];
    if ChainOf(w.rows, r) == Broken then Some(Refused)
    else if ChainOf(w.rows, r) == Pending then Some(Skipped)
    else if g.estop || Paused(r, g) then Some(Refused)
    else if HasInflight(w.rows, tool.group) then Some(Skipped)
    else if Expired(r, g.nowMs) then Some(Refused)
    else if r.requiresApproval && LatestApproval(w.approvals, i) == None then Some(AwaitingApproval)
    else if r.requiresApproval && LatestApproval(w.approvals, i) == Some(false) then Some(Refused)
    else if tool.hasPrecheck && g.precheckError then Some(Refused)
    else None
  }

  /** `process_proposal`: the reply. */
  function ReplyTo(tools: Registry, w: World, i: ActionId, g: Gates, result: ToolResult): Reply
    requires i < |w.rows|
  {
    var r := w.rows[i];
    if r.tool !in tools then Refused
    else if tools[r.tool].gateBypass then Executed(result.Completion?)
    else match FirstClosed(tools[r.tool], w, i, g)
      case Some(reply) => reply
      case None => Executed(result.Completion?)
  }

  /** `process_proposal`: the steps that lead to the reply. */
  function Process(tools: Registry, w: World, i: ActionId, g: Gates, result: ToolResult): seq<Step>
    requires i < |w.rows|
  {
    StepsTo(ReplyTo(tools, w, i, g, result), i, w.rows[i].status == WAITING_APPROVAL, Bypass(tools, w.rows[i]))
  }

  function StepsTo(reply: Reply, i: ActionId, waiting: bool, bypass: bool): seq<Step> {
    match reply
    case Refused => [Reject(i)]
    case Skipped => []
    case AwaitingApproval => if waiting then [] else [AwaitApproval(i)]
    case Executed(ok) => if bypass then DispatchUngated(i, ok) else Dispatch(i, ok)
  }

  /** Every gate at once: when the tool of action `i` is run. */
  predicate MayRun(tools: Registry, w: World, i: ActionId, g: Gates)
    requires i < |w.rows|
  {
    w.rows[i].tool in tools && (Bypass(tools, w.rows[i]) || AllGatesOpen(tools[w.rows[i].tool], w, i, g))
  }

  predicate AllGatesOpen(tool: Tool, w: World, i: ActionId, g: Gates)
    requires i < |w.rows|
  {
    var r := w.rows[i];
    && PredecessorsDone(w.rows, i)
    && !g.estop && !Paused(r, g) && !Expired(r, g.nowMs)
    && !HasInflight(w.rows, tool.group)
    && (r.requiresApproval ==> LatestApproval(w.approvals, i) == Some(true))
    && !(tool.hasPrecheck && g.precheckError)
  }

  lemma GatesReadTogether(tool: Tool, w: World, i: ActionId, g: Gates)
    requires i < |w.rows|
    ensures FirstClosed(tool, w, i, g) == None <==> AllGatesOpen(tool, w, i, g)
  {
    ClearMeansDone(w.rows, i);
    match LatestApproval(w.approvals, i)
    case None =>
    case Some(approve) => assert approve || !approve;
  }

  lemma DispatchStartsOnce(i: ActionId, ok: bool)
    ensures StartsIn(Dispatch(i, ok), i) == 1 && StartsIn(DispatchUngated(i, ok), i) == 1
  {
  }

  lemma ExecutedMeansMayRun(tools: Registry, w: World, i: ActionId, g: Gates, result: ToolResult)
    requires i < |w.rows|
    ensures ReplyTo(tools, w, i, g, result).Executed? <==> MayRun(tools, w, i, g)
  {
    if w.rows[i].tool in tools {
      GatesReadTogether(tools[w.rows[i].tool], w, i, g);
    }
  }

  lemma ExecutedMeansStarted(reply: Reply, i: ActionId, waiting: bool, bypass: bool)
    ensures StartsIn(StepsTo(reply, i, waiting, bypass), i) == if reply.Executed? then 1 else 0
  {
    if reply.Executed? {
      DispatchStartsOnce(i, reply.ok);
    }
  }

  /** The tool runs if and only if every gate is open, and then exactly once. */
  lemma RunsExactlyWhenAllGatesOpen(tools: Registry, w: World, i: ActionId, g: Gates, result: ToolResult)
    requires i < |w.rows|
    ensures ReplyTo(tools, w, i, g, result).Executed? <==> MayRun(tools, w, i, g)
    ensures StartsIn(Process(tools, w, i, g, result), i) == if MayRun(tools, w, i, g) then 1 else 0
  {
    ExecutedMeansMayRun(tools, w, i, g, result);
    ExecutedMeansStarted(ReplyTo(tools, w, i, g, result), i, w.rows[i].status == WAITING_APPROVAL, Bypass(tools, w.rows[i]));
  }

  // ----- The steps of a dispatch -----

  function Settled(w: World, i: ActionId, ok: bool): World
    requires i < |w.rows|
  {
    w.(rows := WithStatus(w.rows, i, if ok then DONE else FAILED),
       starts := w.starts + multiset{i}, outcomes := w.outcomes[i := ok])
  }

  function GatedEvents(key: (string, Key), i: ActionId, ok: bool): seq<Event> {
    [InflightWritten(key, i), StatusWritten(i, DISPATCHED), ToolStarted(i), ToolEnded(i, ok),
     OutcomeWritten(key, ok), StatusWritten(i, if ok then DONE else FAILED)]
  }

  function UngatedEvents(i: ActionId, ok: bool): seq<Event> {
    [StatusWritten(i, DISPATCHED), ToolStarted(i), ToolEnded(i, ok), StatusWritten(i, if ok then DONE else FAILED)]
  }

  /** The state while the tool runs. */
  function InTool(w: World, i: ActionId): World
    requires i < |w.rows|
  {
    w.(rows := WithStatus(w.rows, i, DISPATCHED), pc := Running(i), starts := w.starts + multiset{i},
       diaries := w.diaries[DiaryKey(w.rows[i]) := Entry(i, IN_FLIGHT)])
  }

  /** The diary is written, and nothing else yet. */
  function OnDiary(w: World, i: ActionId): World
    requires i < |w.rows|
  {
    w.(diaries := w.diaries[DiaryKey(w.rows[i]) := Entry(i, IN_FLIGHT)], pc := Journaled(i))
  }

  lemma DiaryLeads(tools: Registry, w: World, i: ActionId)
    requires Enabled(tools, w, PassGates(i))
    ensures Leads(tools, w, [PassGates(i), WriteInflight(i)], OnDiary(w, i), [InflightWritten(DiaryKey(w.rows[i]), i)])
  {
    TwoSteps(tools, w, PassGates(i), w.(pc := Gated(i)), WriteInflight(i));
    assert [] + [InflightWritten(DiaryKey(w.rows[i]), i)] == [InflightWritten(DiaryKey(w.rows[i]), i)];
  }

  lemma CommitLeads(tools: Registry, w: World, i: ActionId)
    requires i < |w.rows|
    ensures Leads(tools, OnDiary(w, i), [CommitDispatch(i), StartTool(i)], InTool(w, i), [StatusWritten(i, DISPATCHED), ToolStarted(i)])
  {
    var v := OnDiary(w, i).(rows := WithStatus(w.rows, i, DISPATCHED), pc := Committed(i));
    TwoSteps(tools, OnDiary(w, i), CommitDispatch(i), v, StartTool(i));
  }

  lemma StartRun(tools: Registry, w: World, i: ActionId)
    requires Enabled(tools, w, PassGates(i))
    ensures Leads(tools, w, [PassGates(i), WriteInflight(i), CommitDispatch(i), StartTool(i)], InTool(w, i),
                  [InflightWritten(DiaryKey(w.rows[i]), i), StatusWritten(i, DISPATCHED), ToolStarted(i)])
  {
    var a, b := [PassGates(i), WriteInflight(i)], [CommitDispatch(i), StartTool(i)];
    DiaryLeads(tools, w, i);
    CommitLeads(tools, w, i);
    LeadsAll(tools, w, a, OnDiary(w, i), [InflightWritten(DiaryKey(w.rows[i]), i)],
             b, InTool(w, i), [StatusWritten(i, DISPATCHED), ToolStarted(i)]);
    assert a + b == [PassGates(i), WriteInflight(i), CommitDispatch(i), StartTool(i)];
  }

  /** The tool has returned, and its outcome is in the diary. */
  function OnRecord(w: World, i: ActionId, ok: bool): World
    requires i < |w.rows|
  {
    InTool(w, i).(outcomes := w.outcomes[i := ok], pc := Recorded(i, ok),
                  diaries := w.diaries[DiaryKey(w.rows[i]) := Entry(i, if ok then SUCCESS else ERROR)])
  }

  lemma OutcomeLeads(tools: Registry, w: World, i: ActionId, ok: bool)
    requires i < |w.rows| && !Bypass(tools, w.rows[i])
    ensures Leads(tools, InTool(w, i), [FinishTool(i, ok), WriteOutcome(i, ok)], OnRecord(w, i, ok),
                  [ToolEnded(i, ok), OutcomeWritten(DiaryKey(w.rows[i]), ok)])
  {
    var v := InTool(w, i);
    assert DiaryKey(v.rows[i]) == DiaryKey(w.rows[i]);
    assert Completed(v.diaries, DiaryKey(w.rows[i]), ok) == OnRecord(w, i, ok).diaries;
    TwoSteps(tools, v, FinishTool(i, ok), v.(outcomes := w.outcomes[i := ok], pc := Returned(i, ok)), WriteOutcome(i, ok));
  }

  lemma EndRun(tools: Registry, w: World, i: ActionId, ok: bool)
    requires i < |w.rows| && !Bypass(tools, w.rows[i])
    ensures Leads(tools, InTool(w, i), [FinishTool(i, ok), WriteOutcome(i, ok), Settle(i, ok)],
                  Settled(w, i, ok).(pc := Idle, diaries := w.diaries[DiaryKey(w.rows[i]) := Entry(i, if ok then SUCCESS else ERROR)]),
                  [ToolEnded(i, ok), OutcomeWritten(DiaryKey(w.rows[i]), ok), StatusWritten(i, if ok then DONE else FAILED)])
  {
    OutcomeLeads(tools, w, i, ok);
    LeadsOn(tools, InTool(w, i), [FinishTool(i, ok), WriteOutcome(i, ok)], OnRecord(w, i, ok),
            [ToolEnded(i, ok), OutcomeWritten(DiaryKey(w.rows[i]), ok)], Settle(i, ok));
    StatusTwice(w.rows, i, DISPATCHED, if ok then DONE else FAILED);
    assert [FinishTool(i, ok), WriteOutcome(i, ok)] + [Settle(i, ok)] == [FinishTool(i, ok), WriteOutcome(i, ok), Settle(i, ok)];
  }

  /** The gated dispatch, commit by commit, and where it ends. */
  lemma GatedRun(tools: Registry, w: World, i: ActionId, ok: bool)
    requires Enabled(tools, w, PassGates(i))
    ensures Leads(tools, w, Dispatch(i, ok),
                  Settled(w, i, ok).(diaries := w.diaries[DiaryKey(w.rows[i]) := Entry(i, if ok then SUCCESS else ERROR)]),
                  GatedEvents(DiaryKey(w.rows[i]), i, ok))
  {
    var a, b := [PassGates(i), WriteInflight(i), CommitDispatch(i), StartTool(i)], [FinishTool(i, ok), WriteOutcome(i, ok), Settle(i, ok)];
    var key := DiaryKey(w.rows[i]);
    StartRun(tools, w, i);
    EndRun(tools, w, i, ok);
    LeadsAll(tools, w, a, InTool(w, i), [InflightWritten(key, i), StatusWritten(i, DISPATCHED), ToolStarted(i)],
             b, Settled(w, i, ok).(pc := Idle, diaries := w.diaries[key := Entry(i, if ok then SUCCESS else ERROR)]),
             [ToolEnded(i, ok), OutcomeWritten(key, ok), StatusWritten(i, if ok then DONE else FAILED)]);
    assert a + b == Dispatch(i, ok);
  }

  lemma StatusTwice(rows: seq<Row>, i: ActionId, a: Status, b: Status)
    ensures WithStatus(WithStatus(rows, i, a), i, b) == WithStatus(rows, i, b)
  {
  }

  lemma UngatedRun(tools: Registry, w: World, i: ActionId, ok: bool)
    requires Enabled(tools, w, DispatchBypass(i))
    ensures Leads(tools, w, DispatchUngated(i, ok), Settled(w, i, ok), UngatedEvents(i, ok))
  {
    var w1 := w.(rows := WithStatus(w.rows, i, DISPATCHED), pc := Committed(i));
    var w2 := w1.(starts := w.starts + multiset{i}, pc := Running(i));
    var start, end := [DispatchBypass(i), StartTool(i)], [FinishTool(i, ok), Settle(i, ok)];
    TwoSteps(tools, w, DispatchBypass(i), w1, StartTool(i));
    UngatedEnd(tools, w, i, ok);
    LeadsAll(tools, w, start, w2, [StatusWritten(i, DISPATCHED), ToolStarted(i)],
             end, Settled(w, i, ok), [ToolEnded(i, ok), StatusWritten(i, if ok then DONE else FAILED)]);
    assert start + end == DispatchUngated(i, ok);
  }

  lemma UngatedEnd(tools: Registry, w: World, i: ActionId, ok: bool)
    requires Enabled(tools, w, DispatchBypass(i))
    ensures var v := w.(rows := WithStatus(w.rows, i, DISPATCHED), pc := Running(i), starts := w.starts + multiset{i});
            Leads(tools, v, [FinishTool(i, ok), Settle(i, ok)], Settled(w, i, ok),
                  [ToolEnded(i, ok), StatusWritten(i, if ok then DONE else FAILED)])
  {
    var v := w.(rows := WithStatus(w.rows, i, DISPATCHED), pc := Running(i), starts := w.starts + multiset{i});
    StatusTwice(w.rows, i, DISPATCHED, if ok then DONE else FAILED);
    TwoSteps(tools, v, FinishTool(i, ok), v.(outcomes := w.outcomes[i := ok], pc := Returned(i, ok)), Settle(i, ok));
  }

  /** The state after one proposal was processed. */
  function Processed(tools: Registry, w: World, i: ActionId, g: Gates, result: ToolResult): World
    requires i < |w.rows|
  {
    match ReplyTo(tools, w, i, g, result)
    case Refused => w.(rows := WithStatus(w.rows, i, REJECTED))
    case Skipped => w
    case AwaitingApproval => w.(rows := WithStatus(w.rows, i, WAITING_APPROVAL))
    case Executed(ok) =>
      if Bypass(tools, w.rows[i]) then Settled(w, i, ok)
      else Settled(w, i, ok).(diaries := w.diaries[DiaryKey(w.rows[i]) := Entry(i, if ok then SUCCESS else ERROR)])
  }

  /** What processing a proposal makes durable or does at the hardware, in order.  In a gated dispatch the
    * diary comes before the ledger and both before the tool, then the diary again before the ledger. */
  function Events(tools: Registry, w: World, i: ActionId, g: Gates, result: ToolResult): seq<Event>
    requires i < |w.rows|
  {
    match ReplyTo(tools, w, i, g, result)
    case Refused => [StatusWritten(i, REJECTED)]
    case Skipped => []
    case AwaitingApproval => if w.rows[i].status == WAITING_APPROVAL then [] else [StatusWritten(i, WAITING_APPROVAL)]
    case Executed(ok) => if Bypass(tools, w.rows[i]) then UngatedEvents(i, ok) else GatedEvents(DiaryKey(w.rows[i]), i, ok)
  }

  /** Processing a proposal is a run of the machine, and that is where and by which events it ends. */
  lemma ProcessIsRun(tools: Registry, w: World, i: ActionId, g: Gates, result: ToolResult)
    requires Inv(tools, w) && w.pc == Idle && Waiting(w, i)
    ensures Leads(tools, w, Process(tools, w, i, g, result), Processed(tools, w, i, g, result), Events(tools, w, i, g, result))
    ensures Inv(tools, Processed(tools, w, i, g, result)) && Processed(tools, w, i, g, result).pc == Idle
  {
    assert RowOk(tools, w, i);
    match ReplyTo(tools, w, i, g, result) {
      case Refused => OneStep(tools, w, Reject(i));
      case Skipped => NoStep(tools, w);
      case AwaitingApproval =>
        if w.rows[i].status == WAITING_APPROVAL {
          NoStep(tools, w);
          assert WithStatus(w.rows, i, WAITING_APPROVAL) == w.rows;
        } else {
          OneStep(tools, w, AwaitApproval(i));
        }
      case Executed(ok) => ExecutionIsRun(tools, w, i, g, result);
    }
    InvariantHolds(tools, w, Process(tools, w, i, g, result));
  }

  lemma ExecutionIsRun(tools: Registry, w: World, i: ActionId, g: Gates, result: ToolResult)
    requires w.pc == Idle && Waiting(w, i) && ReplyTo(tools, w, i, g, result).Executed?
    requires w.rows[i].tool in tools ==> w.rows[i].group == tools[w.rows[i].tool].group
    ensures Leads(tools, w, Process(tools, w, i, g, result), Processed(tools, w, i, g, result), Events(tools, w, i, g, result))
  {
    var ok := result.Completion?;
    if Bypass(tools, w.rows[i]) {
      UngatedRun(tools, w, i, ok);
    } else {
      GatesReadTogether(tools[w.rows[i].tool], w, i, g);
      GatedRun(tools, w, i, ok);
    }
  }

  /** A tool without the bypass, when no gate is closed to it, */
  lemma ByNoGate(tools: Registry, w: World, i: ActionId, g: Gates, result: ToolResult, ok: bool)
    requires i < |w.rows| && w.rows[i].tool in tools && !tools[w.rows[i].tool].gateBypass
    requires FirstClosed(tools[w.rows[i].tool], w, i, g) == None && ok == result.Completion?
    ensures ReplyTo(tools, w, i, g, result) == Executed(ok)
    ensures Events(tools, w, i, g, result) == GatedEvents(DiaryKey(w.rows[i]), i, ok)
    ensures Processed(tools, w, i, g, result) ==
            Settled(w, i, ok).(diaries := w.diaries[DiaryKey(w.rows[i]) := Entry(i, if ok then SUCCESS else ERROR)])
  {
  }

  /** and by the gate that is. */
  lemma ByClosedGate(tools: Registry, w: World, i: ActionId, g: Gates, result: ToolResult, reply: Reply)
    requires i < |w.rows| && w.rows[i].tool in tools && !tools[w.rows[i].tool].gateBypass
    requires FirstClosed(tools[w.rows[i].tool], w, i, g) == Some(reply)
    ensures ReplyTo(tools, w, i, g, result) == reply
    ensures Events(tools, w, i, g, result) == StayingOut(w.rows[i], i, reply)
    ensures Processed(tools, w, i, g, result) == w.(rows := RowsLeft(w.rows, i, reply))
  {
  }

  /** What a closed gate writes, and the rows that it leaves. */
  function StayingOut(r: Row, i: ActionId, reply: Reply): seq<Event> {
    if reply == Refused then [StatusWritten(i, REJECTED)]
    else if reply == AwaitingApproval && r.status != WAITING_APPROVAL then [StatusWritten(i, WAITING_APPROVAL)]
    else []
  }

  function RowsLeft(rows: seq<Row>, i: ActionId, reply: Reply): seq<Row> {
    if reply == Refused then WithStatus(rows, i, REJECTED)
    else if reply == AwaitingApproval then WithStatus(rows, i, WAITING_APPROVAL)
    else rows
  }

  /** `Run` where the steps are legal; the polling pass is defined over worlds that it reaches step by step. */
  function Exec(tools: Registry, w: World, steps: seq<Step>): World {
    if Legal(tools, w, steps) then Run(tools, w, steps) else w
  }

  /** The second loop of `poll_once` on one action that waits for approval. */
  function Revisit(tools: Registry, w: World, i: ActionId, t: Readings, timeoutMs: int): seq<Step>
    requires i < |w.rows|
  {
    if t.pollMs - w.rows[i].createdMs > timeoutMs then [Reject(i)]
    else match LatestApproval(w.approvals, i)
      case None => []
      case Some(true) => Process(tools, w, i, t.gates, t.result)
      case Some(false) => [Reject(i)]
  }

  function VisitAll(tools: Registry, w: World, ids: seq<ActionId>, readings: ActionId -> Readings): seq<Step>
    decreases |ids|
  {
    if ids == [] then []
    else if ids[0] >= |w.rows| then VisitAll(tools, w, ids[1..], readings)
    else
      var t := readings(ids[0]);
      var steps := Process(tools, w, ids[0], t.gates, t.result);
      steps + VisitAll(tools, Exec(tools, w, steps), ids[1..], readings)
  }

  function RevisitAll(tools: Registry, w: World, ids: seq<ActionId>, readings: ActionId -> Readings, timeoutMs: int): seq<Step>
    decreases |ids|
  {
    if ids == [] then []
    else if ids[0] >= |w.rows| then RevisitAll(tools, w, ids[1..], readings, timeoutMs)
    else
      var steps := Revisit(tools, w, ids[0], readings(ids[0]), timeoutMs);
      steps + RevisitAll(tools, Exec(tools, w, steps), ids[1..], readings, timeoutMs)
  }

  /** `poll_once`: first the proposals there are, then the actions that wait for approval after that. */
  function Poll(tools: Registry, w: World, first: ActionId -> Readings, second: ActionId -> Readings, timeoutMs: int): seq<Step> {
    var a := VisitAll(tools, w, ByStatus(w.rows, PROPOSED), first);
    var u := Exec(tools, w, a);
    a + RevisitAll(tools, u, ByStatus(u.rows, WAITING_APPROVAL), second, timeoutMs)
  }

  /** The state after a visit differs from the one before in one row's status at most. */
  predicate TouchesOnly(w: World, v: World, i: ActionId) {
    |v.rows| == |w.rows| && forall j | 0 <= j < |w.rows| && j != i :: v.rows[j] == w.rows[j]
  }

  /** The rows still to be visited are as they were read. */
  predicate Unvisited(rows: seq<Row>, snapshot: seq<Row>, ids: seq<ActionId>, k: nat) {
    |rows| == |snapshot| && forall m | k <= m < |ids| :: ids[m] < |rows| && rows[ids[m]] == snapshot[ids[m]]
  }

  lemma StillUnvisited(w: World, v: World, snapshot: seq<Row>, ids: seq<ActionId>, k: nat)
    requires k < |ids| && Unvisited(w.rows, snapshot, ids, k) && TouchesOnly(w, v, ids[k])
    requires forall j, m | 0 <= j < m < |ids| :: ids[j] < ids[m]
    ensures Unvisited(v.rows, snapshot, ids, k + 1)
  {
  }

  lemma ProcessTouchesOne(tools: Registry, w: World, i: ActionId, g: Gates, result: ToolResult)
    requires i < |w.rows|
    ensures TouchesOnly(w, Processed(tools, w, i, g, result), i)
  {
  }

  /** From `w` these steps were taken; their events follow those in `told`. */
  predicate Taken(tools: Registry, w: World, told: seq<Event>, steps: seq<Step>, v: World, log: seq<Event>) {
    Legal(tools, w, steps) && Run(tools, w, steps) == v && log == told + LogOf(tools, w, steps)
  }

  lemma ExtendRun(tools: Registry, w: World, told: seq<Event>, taken: seq<Step>, u: World, mid: seq<Event>,
                  steps: seq<Step>, v: World, end: seq<Event>)
    requires Taken(tools, w, told, taken, u, mid) && Taken(tools, u, mid, steps, v, end)
    ensures Taken(tools, w, told, taken + steps, v, end)
    ensures Exec(tools, u, steps) == v
  {
    LeadsAll(tools, w, taken, u, LogOf(tools, w, taken), steps, v, LogOf(tools, u, steps));
    Associate(told, LogOf(tools, w, taken), LogOf(tools, u, steps));
  }

  lemma NothingTaken(tools: Registry, w: World, told: seq<Event>)
    ensures Taken(tools, w, told, [], w, told)
  {
    NoStep(tools, w);
    assert told + [] == told;
  }

  lemma VisitNext(tools: Registry, w: World, taken: seq<Step>, ids: seq<ActionId>, k: nat, readings: ActionId -> Readings)
    requires k < |ids| && ids[k] < |w.rows|
    ensures var steps := Process(tools, w, ids[k], readings(ids[k]).gates, readings(ids[k]).result);
            taken + VisitAll(tools, w, ids[k..], readings) ==
            (taken + steps) + VisitAll(tools, Exec(tools, w, steps), ids[k + 1..], readings)
  {
    assert ids[k..][1..] == ids[k + 1..];
    var steps := Process(tools, w, ids[k], readings(ids[k]).gates, readings(ids[k]).result);
    Associate(taken, steps, VisitAll(tools, Exec(tools, w, steps), ids[k + 1..], readings));
  }

  lemma RevisitNext(tools: Registry, w: World, taken: seq<Step>, ids: seq<ActionId>, k: nat, readings: ActionId -> Readings,
                    timeoutMs: int)
    requires k < |ids| && ids[k] < |w.rows|
    ensures var steps := Revisit(tools, w, ids[k], readings(ids[k]), timeoutMs);
            taken + RevisitAll(tools, w, ids[k..], readings, timeoutMs) ==
            (taken + steps) + RevisitAll(tools, Exec(tools, w, steps), ids[k + 1..], readings, timeoutMs)
  {
    assert ids[k..][1..] == ids[k + 1..];
    var steps := Revisit(tools, w, ids[k], readings(ids[k]), timeoutMs);
    Associate(taken, steps, RevisitAll(tools, Exec(tools, w, steps), ids[k + 1..], readings, timeoutMs));
  }

  // ----- In the middle of the two loops -----

  /** Of the visits to `ids` from `w`, those before `k` are made, by the steps `taken`; `u` is the state. */
  ghost predicate Visiting(tools: Registry, w: World, told: seq<Event>, taken: seq<Step>, ids: seq<ActionId>, snapshot: seq<Row>,
                           readings: ActionId -> Readings, k: nat, u: World, log: seq<Event>)
  {
    && k <= |ids| && Taken(tools, w, told, taken, u, log) && Unvisited(u.rows, snapshot, ids, k)
    && VisitAll(tools, w, ids, readings) == taken + VisitAll(tools, u, ids[k..], readings)
  }

  lemma VisitingOn(tools: Registry, w: World, told: seq<Event>, taken: seq<Step>, ids: seq<ActionId>, snapshot: seq<Row>,
                   readings: ActionId -> Readings, k: nat, u: World, mid: seq<Event>, v: World, end: seq<Event>)
    requires Visiting(tools, w, told, taken, ids, snapshot, readings, k, u, mid) && k < |ids| && ids[k] < |u.rows|
    requires forall j, m | 0 <= j < m < |ids| :: ids[j] < ids[m]
    requires TouchesOnly(u, v, ids[k])
    requires Taken(tools, u, mid, Process(tools, u, ids[k], readings(ids[k]).gates, readings(ids[k]).result), v, end)
    ensures Visiting(tools, w, told, taken + Process(tools, u, ids[k], readings(ids[k]).gates, readings(ids[k]).result),
                     ids, snapshot, readings, k + 1, v, end)
  {
    var steps := Process(tools, u, ids[k], readings(ids[k]).gates, readings(ids[k]).result);
    VisitNext(tools, u, taken, ids, k, readings);
    ExtendRun(tools, w, told, taken, u, mid, steps, v, end);
    StillUnvisited(u, v, snapshot, ids, k);
  }

  ghost predicate Revisiting(tools: Registry, w: World, told: seq<Event>, taken: seq<Step>, ids: seq<ActionId>, snapshot: seq<Row>,
                             readings: ActionId -> Readings, timeoutMs: int, k: nat, u: World, log: seq<Event>)
  {
    && k <= |ids| && Taken(tools, w, told, taken, u, log) && Unvisited(u.rows, snapshot, ids, k)
    && RevisitAll(tools, w, ids, readings, timeoutMs) == taken + RevisitAll(tools, u, ids[k..], readings, timeoutMs)
  }

  lemma RevisitingOn(tools: Registry, w: World, told: seq<Event>, taken: seq<Step>, ids: seq<ActionId>, snapshot: seq<Row>,
                     readings: ActionId -> Readings, timeoutMs: int, k: nat, u: World, mid: seq<Event>, v: World, end: seq<Event>)
    requires Revisiting(tools, w, told, taken, ids, snapshot, readings, timeoutMs, k, u, mid) && k < |ids| && ids[k] < |u.rows|
    requires forall j, m | 0 <= j < m < |ids| :: ids[j] < ids[m]
    requires TouchesOnly(u, v, ids[k])
    requires Taken(tools, u, mid, Revisit(tools, u, ids[k], readings(ids[k]), timeoutMs), v, end)
    ensures Revisiting(tools, w, told, taken + Revisit(tools, u, ids[k], readings(ids[k]), timeoutMs),
                       ids, snapshot, readings, timeoutMs, k + 1, v, end)
  {
    var steps := Revisit(tools, u, ids[k], readings(ids[k]), timeoutMs);
    RevisitNext(tools, u, taken, ids, k, readings, timeoutMs);
    ExtendRun(tools, w, told, taken, u, mid, steps, v, end);
    StillUnvisited(u, v, snapshot, ids, k);
  }

  lemma BeforeTheFirst(tools: Registry, w: World, told: seq<Event>, ids: seq<ActionId>, readings: ActionId -> Readings, timeoutMs: int)
    requires forall m | 0 <= m < |ids| :: ids[m] < |w.rows|
    ensures Visiting(tools, w, told, [], ids, w.rows, readings, 0, w, told)
    ensures Revisiting(tools, w, told, [], ids, w.rows, readings, timeoutMs, 0, w, told)
  {
    NothingTaken(tools, w, told);
    assert ids[0..] == ids;
    assert [] + VisitAll(tools, w, ids, readings) == VisitAll(tools, w, ids, readings);
    assert [] + RevisitAll(tools, w, ids, readings, timeoutMs) == RevisitAll(tools, w, ids, readings, timeoutMs);
  }

  lemma AfterTheLast(tools: Registry, w: World, told: seq<Event>, taken: seq<Step>, ids: seq<ActionId>, snapshot: seq<Row>,
                     readings: ActionId -> Readings, timeoutMs: int, u: World, log: seq<Event>)
    ensures Visiting(tools, w, told, taken, ids, snapshot, readings, |ids|, u, log) ==>
              Taken(tools, w, told, VisitAll(tools, w, ids, readings), u, log)
    ensures Revisiting(tools, w, told, taken, ids, snapshot, readings, timeoutMs, |ids|, u, log) ==>
              Taken(tools, w, told, RevisitAll(tools, w, ids, readings, timeoutMs), u, log)
  {
    assert taken + [] == taken && ids[|ids|..] == [];
  }
}
