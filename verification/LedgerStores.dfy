/** The two stores as their classes keep them. */
module LedgerStores {
  import opened Wrappers
  import opened LedgerModel
  import opened LedgerSafety
  import opened LedgerLog

  /** A record that every store and the hardware write to, so that contracts can speak of their order. */
  class Tape {
    ghost var events: seq<Event>

    constructor ()
      ensures events == []
    {
      events := [];
    }
  }

  datatype ToolResult = Completion | ErrorResult | Raised

  /** The tools, behind `execute`. */
  class Hardware {
    const tape: Tape
    ghost var starts: multiset<ActionId>
    ghost var outcomes: map<ActionId, bool>

    constructor (tape: Tape)
      ensures this.tape == tape && starts == multiset{} && outcomes == map[]
    {
      this.tape, starts, outcomes := tape, multiset{}, map[];
    }

    /** Runs the tool of an action; `given` is what the call comes back with. */
    method Execute(id: ActionId, given: ToolResult) returns (result: ToolResult)
      modifies this, tape
      ensures result == given
      ensures starts == old(starts) + multiset{id} && outcomes == old(outcomes)[id := given.Completion?]
      ensures tape.events == old(tape.events) + [ToolStarted(id), ToolEnded(id, given.Completion?)]
    {
      starts, outcomes := starts + multiset{id}, outcomes[id := given.Completion?];
      tape.events := tape.events + [ToolStarted(id), ToolEnded(id, given.Completion?)];
      result := given;
    }
  }

  /** The actions and approvals tables.  Each mutating method is one committed statement. */
  class Ledger {
    const tape: Tape
    var rows: seq<Row>
    var approvals: seq<Approval>

    constructor (tape: Tape)
      ensures this.tape == tape && rows == [] && approvals == []
    {
      this.tape, rows, approvals := tape, [], [];
    }

    /** `propose`: the new action, unless these parameters of this tool already have an active row. */
    method Propose(p: Proposal) returns (id: Option<ActionId>)
      modifies this`rows, tape
      ensures rows == Proposed(old(rows), p)
      ensures tape.events == if id.Some? then old(tape.events) + [Added(p)] else old(tape.events)
      ensures id == if HasActivePair(old(rows), p.tool, p.params) then None else Some(|old(rows)|)
    {
      var existing := 0;
      for i := 0 to |rows|
        invariant existing == CountPair(rows[..i], p.tool, p.params)
        invariant forall j | 0 <= j < i :: !(SamePair(rows[j], p.tool, p.params) && Active(rows[j].status))
      {
        assert rows[..i + 1][..i] == rows[..i];
        if SamePair(rows[i], p.tool, p.params) {
          if Active(rows[i].status) {
            return None;
          }
          existing := existing + 1;
        }
      }
      assert rows[..|rows|] == rows;
      var key := Key(p.tool, p.params, existing);
      id := Some(|rows|);
      rows := rows + [Row(p.tool, p.params, key, p.group, PROPOSED, p.requiresApproval, p.createdMs, p.maxAgeMs, p.link)];
      tape.events := tape.events + [Added(p)];
    }

    /** `get_proposals` and `get_by_status`: oldest first. */
    method GetByStatus(status: Status) returns (ids: seq<ActionId>)
      ensures ids == ByStatus(rows, status)
    {
      ids := [];
      for i := 0 to |rows|
        invariant ids == ByStatus(rows[..i], status)
      {
        assert rows[..i + 1][..i] == rows[..i];
        if rows[i].status == status {
          ids := ids + [i];
        }
      }
      assert rows[..|rows|] == rows;
    }

    method InflightIn(group: string) returns (found: bool)
      ensures found <==> HasInflight(rows, group)
    {
      for i := 0 to |rows|
        invariant forall j | 0 <= j < i :: !(rows[j].group == group && rows[j].status == DISPATCHED)
      {
        if rows[i].group == group && rows[i].status == DISPATCHED {
          return true;
        }
      }
      return false;
    }

    method SetStatus(id: ActionId, status: Status)
      modifies this`rows, tape
      ensures rows == WithStatus(old(rows), id, status)
      ensures tape.events == old(tape.events) + [StatusWritten(id, status)]
    {
      if id < |rows| {
        rows := rows[id := rows[id].(status := status)];
      }
      tape.events := tape.events + [StatusWritten(id, status)];
    }

    method RecordApproval(id: ActionId, approve: bool)
      modifies this`approvals, tape
      ensures approvals == if id < |rows| then old(approvals) + [Approval(id, approve)] else old(approvals)
      ensures tape.events == if id < |rows| then old(tape.events) + [Approved(Approval(id, approve))] else old(tape.events)
    {
      if id < |rows| {
        approvals := approvals + [Approval(id, approve)];
        tape.events := tape.events + [Approved(Approval(id, approve))];
      }
    }

    method GetApproval(id: ActionId) returns (decision: Option<bool>)
      ensures decision == LatestApproval(approvals, id)
    {
      var n := |approvals|;
      assert approvals[..n] == approvals;
      while n > 0
        invariant 0 <= n <= |approvals|
        invariant LatestApproval(approvals, id) == LatestApproval(approvals[..n], id)
      {
        assert approvals[..n][..n - 1] == approvals[..n - 1];
        n := n - 1;
        if approvals[n].action == id {
          return Some(approvals[n].approve);
        }
      }
      return None;
    }

    /** `_get_chain_predecessors`: the earlier steps of a row's chain.  By `PredecessorsInOrder`, the order of
      * the rows is the order of the steps, which the query asks for. */
    method ChainPredecessors(r: Row) returns (ids: seq<ActionId>)
      ensures ids == Predecessors(rows, r, |rows|)
    {
      ids := [];
      for i := 0 to |rows|
        invariant ids == Predecessors(rows, r, i)
      {
        if Precedes(rows, i, r) {
          ids := ids + [i];
        }
      }
    }
  }

  function Predecessors(rows: seq<Row>, r: Row, n: nat): (ids: seq<ActionId>)
    requires n <= |rows|
    ensures forall k | 0 <= k < |ids| :: ids[k] < n && Precedes(rows, ids[k], r)
    ensures forall j: nat | j < n && Precedes(rows, j, r) :: j in ids
  {
    if n == 0 then [] else Predecessors(rows, r, n - 1) + if Precedes(rows, n - 1, r) then [n - 1] else []
  }

  function StepAt(rows: seq<Row>, id: ActionId): nat {
    if id < |rows| && rows[id].link.Some? then rows[id].link.value.step else 0
  }

  predicate StepsRise(rows: seq<Row>, ids: seq<ActionId>) {
    forall j, k | 0 <= j < k < |ids| :: ids[j] < ids[k] && StepAt(rows, ids[j]) < StepAt(rows, ids[k])
  }

  /** The rows of a chain are recorded in the order of its steps, so the earlier steps are found in that
    * order. */
  lemma {:induction false} PredecessorsInOrder(rows: seq<Row>, r: Row, n: nat)
    requires n <= |rows| && ChainsOrdered(rows)
    ensures StepsRise(rows, Predecessors(rows, r, n))
  {
    if n > 0 {
      PredecessorsInOrder(rows, r, n - 1);
      var so := Predecessors(rows, r, n - 1);
      if Precedes(rows, n - 1, r) {
        forall j | 0 <= j < |so| ensures so[j] < n - 1 && StepAt(rows, so[j]) < StepAt(rows, n - 1) {
          assert Precedes(rows, so[j], r);
        }
      }
    }
  }

  /** The rows with some status, oldest first. */
  function ByStatus(rows: seq<Row>, status: Status): (ids: seq<ActionId>)
    ensures forall k | 0 <= k < |ids| :: ids[k] < |rows| && rows[ids[k]].status == status
    ensures forall j, k | 0 <= j < k < |ids| :: ids[j] < ids[k]
    ensures forall i | 0 <= i < |rows| && rows[i].status == status :: i in ids
  {
    if rows == [] then []
    else
      var n := |rows| - 1;
      ByStatus(rows[..n], status) + if rows[n].status == status then [n] else []
  }

  /** Writing an outcome is an update of one status: it adds no entry, and says the outcome where there is one. */
  lemma OutcomeOnRecord(d: Diaries, k: (string, Key), ok: bool)
    ensures Completed(d, k, ok).Keys == d.Keys
    ensures forall j | j in d && j != k :: Completed(d, k, ok)[j] == d[j]
    ensures k in d ==> Completed(d, k, ok)[k] == Entry(d[k].action, if ok then SUCCESS else ERROR)
  {
  }

  /** The diaries of all device groups. */
  class Diary {
    const tape: Tape
    var entries: Diaries

    constructor (tape: Tape)
      ensures this.tape == tape && entries == map[]
    {
      this.tape, entries := tape, map[];
    }

    method WriteInflight(key: (string, Key), id: ActionId)
      modifies this, tape
      ensures entries == old(entries)[key := Entry(id, IN_FLIGHT)]
      ensures tape.events == old(tape.events) + [InflightWritten(key, id)]
    {
      entries := entries[key := Entry(id, IN_FLIGHT)];
      tape.events := tape.events + [InflightWritten(key, id)];
    }

    method WriteSuccess(key: (string, Key))
      modifies this, tape
      ensures entries == Completed(old(entries), key, true)
      ensures tape.events == old(tape.events) + [OutcomeWritten(key, true)]
    {
      if key in entries {
        entries := entries[key := entries[key].(status := SUCCESS)];
      }
      tape.events := tape.events + [OutcomeWritten(key, true)];
    }

    method WriteFailed(key: (string, Key))
      modifies this, tape
      ensures entries == Completed(old(entries), key, false)
      ensures tape.events == old(tape.events) + [OutcomeWritten(key, false)]
    {
      if key in entries {
        entries := entries[key := entries[key].(status := ERROR)];
      }
      tape.events := tape.events + [OutcomeWritten(key, false)];
    }

    method Find(key: (string, Key)) returns (status: Option<EntryStatus>)
      ensures status == if key in entries then Some(entries[key].status) else None
    {
      status := if key in entries then Some(entries[key].status) else None;
    }
  }
}
