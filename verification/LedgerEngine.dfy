/** The engine over its two stores and the hardware.  Every method is proved to take exactly the steps of
  * the ledger machine that its specification lists, and to make them durable in that order; a crash inside
  * a method leaves the state after some of those steps, which the machine's runs include. */
module LedgerEngine {
  import opened Wrappers
  import opened LedgerModel
  import opened LedgerSafety
  import opened LedgerTheorems
  import opened LedgerLog
  import opened LedgerStores
  import opened LedgerDispatch

  class Engine {
    const tools: Registry
    const approvalTimeoutMs: int
    const tape: Tape
    const ledger: Ledger
    const diary: Diary
    const hardware: Hardware

    /** The state between two calls. */
    ghost function World(): World reads ledger, diary, hardware {
      LedgerModel.World(ledger.rows, ledger.approvals, diary.entries, Idle, hardware.starts, hardware.outcomes)
    }

    ghost predicate Valid() reads ledger, diary, hardware {
      ledger.tape == tape && diary.tape == tape && hardware.tape == tape && Inv(tools, World())
    }

    /** The state is what `steps` make of `from`, they are steps that the machine allows, and their events
      * are on the tape after those in `told`. */
    ghost predicate Took(from: World, told: seq<Event>, steps: seq<Step>) reads ledger, diary, hardware, tape {
      Taken(tools, from, told, steps, World(), tape.events)
    }

    constructor (tools: Registry, approvalTimeoutMs: int)
      ensures Valid() && World() == INIT && this.tools == tools && this.approvalTimeoutMs == approvalTimeoutMs
      ensures fresh(ledger) && fresh(diary) && fresh(hardware) && fresh(tape)
    {
      var t := new Tape();
      this.tools, this.approvalTimeoutMs, tape := tools, approvalTimeoutMs, t;
      ledger := new Ledger(t);
      diary := new Diary(t);
      hardware := new Hardware(t);
    }

    /** The agent's `propose`, called with the device group of the tool and, in a chain, in order. */
    method Propose(p: Proposal) returns (id: Option<ActionId>)
      requires Valid() && InOrder(tools, ledger.rows, p)
      modifies ledger, tape
      ensures Valid() && Took(old(World()), old(tape.events), [LedgerModel.Propose(p)])
      ensures id == if HasActivePair(old(ledger.rows), p.tool, p.params) then None else Some(|old(ledger.rows)|)
    {
      ghost var w := World();
      id := ledger.Propose(p);
      StepKeepsInv(tools, w, LedgerModel.Propose(p));
      OneStep(tools, w, LedgerModel.Propose(p));
    }

    /** An operator's decision. */
    method Approve(id: ActionId, approve: bool)
      requires Valid()
      modifies ledger, tape
      ensures Valid() && Took(old(World()), old(tape.events), [LedgerModel.Approve(Approval(id, approve))])
    {
      ghost var w, s := World(), LedgerModel.Approve(Approval(id, approve));
      ledger.RecordApproval(id, approve);
      StepKeepsInv(tools, w, s);
      OneStep(tools, w, s);
    }

    method Reject(id: ActionId)
      requires ledger.tape == tape
      modifies ledger, tape
      ensures ledger.rows == WithStatus(old(ledger.rows), id, REJECTED) && ledger.approvals == old(ledger.approvals)
      ensures tape.events == old(tape.events) + [StatusWritten(id, REJECTED)]
    {
      ledger.SetStatus(id, REJECTED);
    }

    method CheckPredecessors(proposal: Row) returns (check: ChainCheck)
      ensures check == ChainOf(ledger.rows, proposal)
    {
      var ids := ledger.ChainPredecessors(proposal);
      for k := 0 to |ids|
        invariant CheckChain(ledger.rows, ids) == CheckChain(ledger.rows, ids[k..])
      {
        assert ids[k..][1..] == ids[k + 1..];
        var status := ledger.rows[ids[k]].status;
        if status == FAILED || status == REJECTED {
          return Broken;
        }
        if Active(status) {
          return Pending;
        }
      }
      return Clear;
    }

    /** The gates of `process_proposal`, in order: the reply of the first that is closed, or none. */
    method CheckGates(id: ActionId, proposal: Row, tool: Tool, g: Gates) returns (closed: Option<Reply>)
      requires id < |ledger.rows| && proposal == ledger.rows[id]
      ensures closed == FirstClosed(tool, World(), id, g)
    {
      var check := CheckPredecessors(proposal);
      if check == Broken {
        return Some(Refused);
      }
      if check == Pending {
        return Some(Skipped);
      }
      if g.estop {
        return Some(Refused);
      }
      if proposal.tool == "resume_print" && g.externalPause {
        return Some(Refused);
      }
      var inflight := ledger.InflightIn(tool.group);
      if inflight {
        return Some(Skipped);
      }
      if g.nowMs - proposal.createdMs > proposal.maxAgeMs {
        return Some(Refused);
      }
      if proposal.requiresApproval {
        var approval := ledger.GetApproval(id);
        if approval == None {
          return Some(AwaitingApproval);
        }
        if !approval.value {
          return Some(Refused);
        }
      }
      if tool.hasPrecheck && g.precheckError {
        return Some(Refused);
      }
      return None;
    }

    /** `process_proposal` on a row that is still as it was read: the gates, then the dispatch. */
    method PassThroughGates(id: ActionId, proposal: Row, g: Gates, result: ToolResult) returns (reply: Reply)
      requires ledger.tape == tape && diary.tape == tape && hardware.tape == tape
      requires id < |ledger.rows| && proposal == ledger.rows[id]
      modifies ledger, diary, hardware, tape
      ensures World() == Processed(tools, old(World()), id, g, result)
      ensures reply == ReplyTo(tools, old(World()), id, g, result)
      ensures tape.events == old(tape.events) + Events(tools, old(World()), id, g, result)
    {
      if proposal.tool !in tools {
        Reject(id);
        return Refused;
      }
      if tools[proposal.tool].gateBypass {
        reply := RunUngated(id, result);
        return;
      }
      reply := CheckAndRun(id, proposal, g, result);
    }

    /** A tool without the bypass. */
    method CheckAndRun(id: ActionId, proposal: Row, g: Gates, result: ToolResult) returns (reply: Reply)
      requires ledger.tape == tape && diary.tape == tape && hardware.tape == tape
      requires id < |ledger.rows| && proposal == ledger.rows[id] && proposal.tool in tools && !tools[proposal.tool].gateBypass
      modifies ledger, diary, hardware, tape
      ensures World() == Processed(tools, old(World()), id, g, result)
      ensures reply == ReplyTo(tools, old(World()), id, g, result)
      ensures tape.events == old(tape.events) + Events(tools, old(World()), id, g, result)
    {
      var closed := CheckGates(id, proposal, tools[proposal.tool], g);
      if closed == None {
        ByNoGate(tools, World(), id, g, result, result.Completion?);
        reply := RunGated(id, DiaryKey(proposal), result);
      } else {
        reply := closed.value;
        ByClosedGate(tools, World(), id, g, result, reply);
        StayOut(id, proposal, reply);
      }
    }

    /** The closed gate's decision, written down. */
    method StayOut(id: ActionId, proposal: Row, reply: Reply)
      requires ledger.tape == tape && id < |ledger.rows| && proposal == ledger.rows[id] && !reply.Executed?
      modifies ledger, tape
      ensures ledger.approvals == old(ledger.approvals)
      ensures ledger.rows == RowsLeft(old(ledger.rows), id, reply)
      ensures tape.events == old(tape.events) + StayingOut(proposal, id, reply)
    {
      if reply == Refused {
        Reject(id);
      } else if reply == AwaitingApproval && proposal.status != WAITING_APPROVAL {
        ledger.SetStatus(id, WAITING_APPROVAL);
      }
    }

    /** The gate bypass: no diary, no gates. */
    method RunUngated(id: ActionId, given: ToolResult) returns (reply: Reply)
      requires ledger.tape == tape && hardware.tape == tape && id < |ledger.rows|
      modifies ledger, hardware, tape
      ensures reply == Executed(given.Completion?)
      ensures World() == Settled(old(World()), id, given.Completion?)
      ensures tape.events == old(tape.events) + UngatedEvents(id, given.Completion?)
    {
      ledger.SetStatus(id, DISPATCHED);
      var result := hardware.Execute(id, given);
      var ok := result.Completion?;
      ledger.SetStatus(id, if ok then DONE else FAILED);
      return Executed(ok);
    }

    /** Gate 5: the diary is written before the ledger, and both before the tool is called. */
    method RunGated(id: ActionId, key: (string, Key), given: ToolResult) returns (reply: Reply)
      requires ledger.tape == tape && diary.tape == tape && hardware.tape == tape && id < |ledger.rows|
      modifies ledger, diary, hardware, tape
      ensures reply == Executed(given.Completion?)
      ensures World() == Settled(old(World()), id, given.Completion?).(
                diaries := old(diary.entries)[key := Entry(id, if given.Completion? then SUCCESS else ERROR)])
      ensures tape.events == old(tape.events) + GatedEvents(key, id, given.Completion?)
    {
      diary.WriteInflight(key, id);
      ledger.SetStatus(id, DISPATCHED);
      var result := hardware.Execute(id, given);
      RecordOutcome(id, key, result.Completion?);
      return Executed(result.Completion?);
    }

    /** The outcome goes to the diary and then to the ledger. */
    method RecordOutcome(id: ActionId, key: (string, Key), ok: bool)
      requires ledger.tape == tape && diary.tape == tape && id < |ledger.rows|
      modifies ledger`rows, diary, tape
      ensures ledger.rows == WithStatus(old(ledger.rows), id, if ok then DONE else FAILED)
      ensures diary.entries == Completed(old(diary.entries), key, ok)
      ensures tape.events == old(tape.events) + [OutcomeWritten(key, ok), StatusWritten(id, if ok then DONE else FAILED)]
    {
      if ok {
        diary.WriteSuccess(key);
      } else {
        diary.WriteFailed(key);
      }
      ledger.SetStatus(id, if ok then DONE else FAILED);
    }

    /** `process_proposal` as a run of the machine. */
    method ProcessProposal(id: ActionId, proposal: Row, g: Gates, result: ToolResult) returns (reply: Reply)
      requires Valid() && Waiting(World(), id) && proposal == ledger.rows[id]
      modifies ledger, diary, hardware, tape
      ensures Valid() && Took(old(World()), old(tape.events), Process(tools, old(World()), id, g, result))
      ensures reply == ReplyTo(tools, old(World()), id, g, result)
      ensures World() == Processed(tools, old(World()), id, g, result)
      ensures tape.events == old(tape.events) + Events(tools, old(World()), id, g, result)
    {
      ProcessIsRun(tools, World(), id, g, result);
      reply := PassThroughGates(id, proposal, g, result);
    }

    /** The first loop of `poll_once`.  The rows were read before it began, and are used as they were read:
      * no visit changes a row that is still to be visited. */
    method VisitProposals(ids: seq<ActionId>, snapshot: seq<Row>, readings: ActionId -> Readings)
      requires Valid() && snapshot == ledger.rows && ids == ByStatus(snapshot, PROPOSED)
      modifies ledger, diary, hardware, tape
      ensures Valid() && Took(old(World()), old(tape.events), VisitAll(tools, old(World()), ids, readings))
    {
      ghost var w, told, taken := World(), tape.events, [];
      BeforeTheFirst(tools, w, told, ids, readings, approvalTimeoutMs);
      for k := 0 to |ids|
        invariant Valid() && Visiting(tools, w, told, taken, ids, snapshot, readings, k, World(), tape.events)
      {
        taken := Visit(w, told, taken, ids, snapshot, readings, k);
      }
      AfterTheLast(tools, w, told, taken, ids, snapshot, readings, approvalTimeoutMs, World(), tape.events);
    }

    /** One visit. */
    method Visit(ghost w: World, ghost told: seq<Event>, ghost taken: seq<Step>, ids: seq<ActionId>, snapshot: seq<Row>,
                 readings: ActionId -> Readings, k: nat)
      returns (ghost more: seq<Step>)
      requires Valid() && Visiting(tools, w, told, taken, ids, snapshot, readings, k, World(), tape.events)
      requires k < |ids| && ids == ByStatus(snapshot, PROPOSED)
      modifies ledger, diary, hardware, tape
      ensures Valid() && Visiting(tools, w, told, more, ids, snapshot, readings, k + 1, World(), tape.events)
    {
      ghost var u, mid, t := World(), tape.events, readings(ids[k]);
      ProcessTouchesOne(tools, u, ids[k], t.gates, t.result);
      var _ := ProcessProposal(ids[k], snapshot[ids[k]], readings(ids[k]).gates, readings(ids[k]).result);
      VisitingOn(tools, w, told, taken, ids, snapshot, readings, k, u, mid, World(), tape.events);
      more := taken + Process(tools, u, ids[k], t.gates, t.result);
    }

    /** One action of the second loop of `poll_once`. */
    method RevisitAction(id: ActionId, action: Row, t: Readings)
      requires Valid() && id < |ledger.rows| && action == ledger.rows[id] && action.status == WAITING_APPROVAL
      modifies ledger, diary, hardware, tape
      ensures Valid() && Took(old(World()), old(tape.events), Revisit(tools, old(World()), id, t, approvalTimeoutMs))
      ensures TouchesOnly(old(World()), World(), id)
    {
      ghost var w := World();
      if t.pollMs - action.createdMs > approvalTimeoutMs {
        RejectWaiting(id);
        return;
      }
      var approval := ledger.GetApproval(id);
      if approval.Some? {
        if approval.value {
          ProcessTouchesOne(tools, w, id, t.gates, t.result);
          var _ := ProcessProposal(id, action, t.gates, t.result);
        } else {
          RejectWaiting(id);
        }
      }
    }

    method RejectWaiting(id: ActionId)
      requires Valid() && Waiting(World(), id)
      modifies ledger, tape
      ensures Valid() && Took(old(World()), old(tape.events), [LedgerModel.Reject(id)]) && TouchesOnly(old(World()), World(), id)
    {
      ghost var w := World();
      Reject(id);
      StepKeepsInv(tools, w, LedgerModel.Reject(id));
      OneStep(tools, w, LedgerModel.Reject(id));
    }

    method RevisitWaiting(ids: seq<ActionId>, snapshot: seq<Row>, readings: ActionId -> Readings)
      requires Valid() && snapshot == ledger.rows && ids == ByStatus(snapshot, WAITING_APPROVAL)
      modifies ledger, diary, hardware, tape
      ensures Valid() && Took(old(World()), old(tape.events), RevisitAll(tools, old(World()), ids, readings, approvalTimeoutMs))
    {
      ghost var w, told, taken := World(), tape.events, [];
      BeforeTheFirst(tools, w, told, ids, readings, approvalTimeoutMs);
      for k := 0 to |ids|
        invariant Valid() && Revisiting(tools, w, told, taken, ids, snapshot, readings, approvalTimeoutMs, k, World(), tape.events)
      {
        taken := RevisitNth(w, told, taken, ids, snapshot, readings, k);
      }
      AfterTheLast(tools, w, told, taken, ids, snapshot, readings, approvalTimeoutMs, World(), tape.events);
    }

    method RevisitNth(ghost w: World, ghost told: seq<Event>, ghost taken: seq<Step>, ids: seq<ActionId>, snapshot: seq<Row>,
                      readings: ActionId -> Readings, k: nat)
      returns (ghost more: seq<Step>)
      requires Valid() && Revisiting(tools, w, told, taken, ids, snapshot, readings, approvalTimeoutMs, k, World(), tape.events)
      requires k < |ids| && ids == ByStatus(snapshot, WAITING_APPROVAL)
      modifies ledger, diary, hardware, tape
      ensures Valid() && Revisiting(tools, w, told, more, ids, snapshot, readings, approvalTimeoutMs, k + 1, World(), tape.events)
    {
      ghost var u, mid := World(), tape.events;
      RevisitAction(ids[k], snapshot[ids[k]], readings(ids[k]));
      RevisitingOn(tools, w, told, taken, ids, snapshot, readings, approvalTimeoutMs, k, u, mid, World(), tape.events);
      more := taken + Revisit(tools, u, ids[k], readings(ids[k]), approvalTimeoutMs);
    }

    /** `poll_once`. */
    method PollOnce(first: ActionId -> Readings, second: ActionId -> Readings)
      requires Valid()
      modifies ledger, diary, hardware, tape
      ensures Valid() && Took(old(World()), old(tape.events), Poll(tools, old(World()), first, second, approvalTimeoutMs))
    {
      ghost var w, told := World(), tape.events;
      var proposals := ledger.GetByStatus(PROPOSED);
      VisitProposals(proposals, ledger.rows, first);
      ghost var a, u, mid := VisitAll(tools, w, proposals, first), World(), tape.events;
      var waiting := ledger.GetByStatus(WAITING_APPROVAL);
      RevisitWaiting(waiting, ledger.rows, second);
      ghost var b := RevisitAll(tools, u, waiting, second, approvalTimeoutMs);
      ExtendRun(tools, w, told, a, u, mid, b, World(), tape.events);
    }

    /** `reconcile`: every dispatched row is settled by its diary; the rows left UNKNOWN go to a human. */
    method Reconcile() returns (escalated: seq<ActionId>)
      requires Valid()
      modifies ledger, tape
      ensures Valid() && World() == Reconciled(old(World()))
      ensures Took(old(World()), old(tape.events), Resolutions(ByStatus(old(ledger.rows), DISPATCHED)))
      ensures escalated == InDoubt(old(World()), ByStatus(old(ledger.rows), DISPATCHED))
    {
      ghost var w := World();
      var dispatched := ledger.GetByStatus(DISPATCHED);
      escalated := SettleByDiary(dispatched);
      ResolvedIsRun(tools, w, dispatched);
      ResolvedIsReconciled(w, dispatched);
      InvariantHolds(tools, w, Resolutions(dispatched));
    }

    /** The loop of `reconcile`. */
    method SettleByDiary(dispatched: seq<ActionId>) returns (escalated: seq<ActionId>)
      requires ledger.tape == tape && forall k | 0 <= k < |dispatched| :: dispatched[k] < |ledger.rows|
      modifies ledger, tape
      ensures World() == old(World()).(rows := Resolved(old(World()), dispatched))
      ensures tape.events == old(tape.events) + Settlements(old(World()), dispatched)
      ensures escalated == InDoubt(old(World()), dispatched)
    {
      ghost var w, told := World(), tape.events;
      escalated := [];
      for k := 0 to |dispatched|
        invariant Settling(w, told, dispatched, k, World(), tape.events, escalated)
      {
        escalated := SettleNth(w, told, dispatched, k, escalated);
      }
      assert dispatched[..|dispatched|] == dispatched;
    }

    /** One turn of it. */
    method SettleNth(ghost w: World, ghost told: seq<Event>, dispatched: seq<ActionId>, k: nat, so: seq<ActionId>)
      returns (escalated: seq<ActionId>)
      requires ledger.tape == tape && k < |dispatched| && forall j | 0 <= j < |dispatched| :: dispatched[j] < |w.rows|
      requires Settling(w, told, dispatched, k, World(), tape.events, so)
      modifies ledger, tape
      ensures Settling(w, told, dispatched, k + 1, World(), tape.events, escalated)
    {
      SettleNext(w, dispatched, k);
      var doubtful := Settle(dispatched[k]);
      escalated := if doubtful then so + [dispatched[k]] else so;
    }

    /** One dispatched row, settled by its diary. */
    method Settle(id: ActionId) returns (doubtful: bool)
      requires ledger.tape == tape && id < |ledger.rows|
      modifies ledger, tape
      ensures World() == old(World()).(rows := WithStatus(old(ledger.rows), id, Verdict(Lookup(old(World()), id))))
      ensures tape.events == old(tape.events) + [StatusWritten(id, Verdict(Lookup(old(World()), id)))]
      ensures doubtful <==> Lookup(old(World()), id) == Some(IN_FLIGHT)
    {
      var found := diary.Find(DiaryKey(ledger.rows[id]));
      ledger.SetStatus(id, Verdict(found));
      return found == Some(IN_FLIGHT);
    }
  }

  /** Of the rows in `ids`, those before `k` are settled; `u` is the state. */
  predicate Settling(w: World, told: seq<Event>, ids: seq<ActionId>, k: nat, u: World, log: seq<Event>, escalated: seq<ActionId>)
    requires forall m | 0 <= m < |ids| :: ids[m] < |w.rows|
  {
    && k <= |ids| && u == w.(rows := Resolved(w, ids[..k]))
    && log == told + Settlements(w, ids[..k])
    && escalated == InDoubt(w, ids[..k])
  }

  function Resolutions(ids: seq<ActionId>): seq<Step> {
    if ids == [] then [] else Resolutions(ids[..|ids| - 1]) + [Resolve(ids[|ids| - 1])]
  }

  /** The rows once those in `ids` are settled by the diaries. */
  function Resolved(w: World, ids: seq<ActionId>): (rows: seq<Row>)
    requires forall k | 0 <= k < |ids| :: ids[k] < |w.rows|
    ensures |rows| == |w.rows|
    ensures forall i | 0 <= i < |rows| :: rows[i] == w.rows[i].(status := if i in ids then Verdict(Lookup(w, i)) else w.rows[i].status)
  {
    if ids == [] then w.rows
    else WithStatus(Resolved(w, ids[..|ids| - 1]), ids[|ids| - 1], Verdict(Lookup(w, ids[|ids| - 1])))
  }

  /** What settling those in `ids` writes. */
  function Settlements(w: World, ids: seq<ActionId>): seq<Event>
    requires forall k | 0 <= k < |ids| :: ids[k] < |w.rows|
  {
    if ids == [] then []
    else Settlements(w, ids[..|ids| - 1]) + [StatusWritten(ids[|ids| - 1], Verdict(Lookup(w, ids[|ids| - 1])))]
  }

  /** The actions whose diary still says IN_FLIGHT. */
  function InDoubt(w: World, ids: seq<ActionId>): (doubtful: seq<ActionId>)
    requires forall k | 0 <= k < |ids| :: ids[k] < |w.rows|
    ensures forall i | 0 <= i < |w.rows| :: i in doubtful <==> i in ids && Lookup(w, i) == Some(IN_FLIGHT)
  {
    if ids == [] then []
    else
      var id := ids[|ids| - 1];
      InDoubt(w, ids[..|ids| - 1]) + if Lookup(w, id) == Some(IN_FLIGHT) then [id] else []
  }

  lemma SettleNext(w: World, ids: seq<ActionId>, k: nat)
    requires k < |ids| && forall m | 0 <= m < |ids| :: ids[m] < |w.rows|
    ensures var verdict := Verdict(Lookup(w, ids[k]));
            && Resolved(w, ids[..k + 1]) == WithStatus(Resolved(w, ids[..k]), ids[k], verdict)
            && Settlements(w, ids[..k + 1]) == Settlements(w, ids[..k]) + [StatusWritten(ids[k], verdict)]
            && InDoubt(w, ids[..k + 1]) == InDoubt(w, ids[..k]) + (if Lookup(w, ids[k]) == Some(IN_FLIGHT) then [ids[k]] else [])
            && DiaryKey(Resolved(w, ids[..k])[ids[k]]) == DiaryKey(w.rows[ids[k]])
  {
    assert ids[..k + 1][..k] == ids[..k];
  }

  lemma ResolvedIsReconciled(w: World, ids: seq<ActionId>)
    requires ids == ByStatus(w.rows, DISPATCHED)
    ensures Resolved(w, ids) == Reconciled(w).rows
  {
    forall i | 0 <= i < |w.rows| ensures Resolved(w, ids)[i] == Reconciled(w).rows[i] {
      assert i in ids <==> w.rows[i].status == DISPATCHED;
    }
  }

  lemma {:induction false} ResolvedIsRun(tools: Registry, w: World, ids: seq<ActionId>)
    requires w.pc == Idle && forall k | 0 <= k < |ids| :: ids[k] < |w.rows| && w.rows[ids[k]].status == DISPATCHED
    requires forall j, k | 0 <= j < k < |ids| :: ids[j] < ids[k]
    ensures Leads(tools, w, Resolutions(ids), w.(rows := Resolved(w, ids)), Settlements(w, ids))
  {
    if ids != [] {
      var so, id := ids[..|ids| - 1], ids[|ids| - 1];
      ResolvedIsRun(tools, w, so);
      assert id !in so;
      var u := w.(rows := Resolved(w, so));
      assert Lookup(u, id) == Lookup(w, id);
      LeadsOn(tools, w, Resolutions(so), u, Settlements(w, so), Resolve(id));
    }
  }
}
