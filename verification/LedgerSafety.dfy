/** What every step of the ledger machine keeps, and what follows for whole runs. */
module LedgerSafety {
  import opened Wrappers
  import opened LedgerModel

  // ----- Keys -----

  /** A row's retry number is the number of rows before it for the same parameters of the same tool, and
    * of all those rows only the last may be active. */
  ghost predicate KeysOk(rows: seq<Row>) {
    && (forall i | 0 <= i < |rows| :: rows[i].key == Key(rows[i].tool, rows[i].params, CountPair(rows[..i], rows[i].tool, rows[i].params)))
    && (forall i, j | 0 <= i < j < |rows| :: SamePair(rows[i], rows[j].tool, rows[j].params) ==> !Active(rows[i].status))
  }

  lemma {:induction false} CountsGrow(rows: seq<Row>, i: nat, j: nat, tool: string, params: string)
    requires i < j <= |rows|
    ensures CountPair(rows[..i], tool, params) <= CountPair(rows[..j], tool, params)
    ensures SamePair(rows[i], tool, params) ==> CountPair(rows[..i], tool, params) < CountPair(rows[..j], tool, params)
    decreases j
  {
    assert rows[..j][..j - 1] == rows[..j - 1];
    if i < j - 1 {
      CountsGrow(rows, i, j - 1, tool, params);
    }
  }

  lemma {:induction false} CountIgnoresStatus(a: seq<Row>, b: seq<Row>, tool: string, params: string)
    requires |a| == |b| && forall i | 0 <= i < |a| :: SamePair(b[i], a[i].tool, a[i].params)
    ensures CountPair(a, tool, params) == CountPair(b, tool, params)
  {
    if a != [] {
      CountIgnoresStatus(a[..|a| - 1], b[..|b| - 1], tool, params);
    }
  }

  lemma KeysAreDistinct(rows: seq<Row>, i: nat, j: nat)
    requires KeysOk(rows) && i < |rows| && j < |rows| && i != j
    ensures DiaryKey(rows[i]) != DiaryKey(rows[j])
  {
    if i < j {
      CountsGrow(rows, i, j, rows[i].tool, rows[i].params);
    } else {
      CountsGrow(rows, j, i, rows[i].tool, rows[i].params);
    }
  }

  lemma EarlierKeyDiffers(rows: seq<Row>, i: nat, j: nat)
    requires KeysOk(rows) && i < j < |rows|
    ensures rows[i].key != rows[j].key
  {
    CountsGrow(rows, i, j, rows[i].tool, rows[i].params);
  }

  /** The row that has the number `n`, one below the count. */
  lemma {:induction false} RowOfNumber(rows: seq<Row>, tool: string, params: string, n: nat) returns (i: nat)
    requires KeysOk(rows) && n < CountPair(rows, tool, params)
    ensures i < |rows| && SamePair(rows[i], tool, params) && rows[i].key == Key(tool, params, n)
  {
    var m := |rows| - 1;
    var so := rows[..m];
    assert forall i | 0 <= i <= m :: so[..i] == rows[..i];
    i := m;
    if n < CountPair(so, tool, params) {
      i := RowOfNumber(so, tool, params, n);
    }
  }

  lemma NumberIsBelow(rows: seq<Row>, tool: string, params: string, i: nat)
    requires KeysOk(rows) && i < |rows| && SamePair(rows[i], tool, params)
    ensures rows[i].key.retry < CountPair(rows, tool, params)
  {
    CountsGrow(rows, i, |rows|, tool, params);
    assert rows[..|rows|] == rows;
  }

  /** For each tool and parameters the stored keys are the base key and the retries 1 to n - 1: every
    * number below n is used, by one row only, and no other. */
  lemma KeysAreGapless(rows: seq<Row>, tool: string, params: string, n: nat)
    requires KeysOk(rows)
    ensures n < CountPair(rows, tool, params) <==>
            exists i | 0 <= i < |rows| :: SamePair(rows[i], tool, params) && rows[i].key == Key(tool, params, n)
    ensures forall i, j | 0 <= i < |rows| && 0 <= j < |rows| :: rows[i].key == rows[j].key ==> i == j
  {
    forall i, j | 0 <= i < j < |rows| ensures rows[i].key != rows[j].key {
      EarlierKeyDiffers(rows, i, j);
    }
    if n < CountPair(rows, tool, params) {
      var i := RowOfNumber(rows, tool, params, n);
    }
    forall i | 0 <= i < |rows| && SamePair(rows[i], tool, params) ensures rows[i].key.retry < CountPair(rows, tool, params) {
      NumberIsBelow(rows, tool, params, i);
    }
  }

  lemma ProposeKeepsKeys(rows: seq<Row>, p: Proposal)
    requires KeysOk(rows)
    ensures KeysOk(Proposed(rows, p))
  {
    var after := Proposed(rows, p);
    if !HasActivePair(rows, p.tool, p.params) {
      assert forall i | 0 <= i <= |rows| :: after[..i] == rows[..i];
    }
  }

  lemma StatusKeepsKeys(rows: seq<Row>, i: nat, s: Status)
    requires KeysOk(rows) && i < |rows| && (Active(s) ==> Active(rows[i].status))
    ensures KeysOk(WithStatus(rows, i, s))
  {
    var after := WithStatus(rows, i, s);
    forall j | 0 <= j < |rows|
      ensures after[j].key == Key(after[j].tool, after[j].params, CountPair(after[..j], after[j].tool, after[j].params))
    {
      CountIgnoresStatus(rows[..j], after[..j], after[j].tool, after[j].params);
    }
  }

  // ----- Rows and the two stores -----

  predicate NeverDispatched(s: Status) {
    s == PROPOSED || s == WAITING_APPROVAL || s == REJECTED
  }

  /** The agreement between a row, its diary entry, and what happened at the hardware. */
  ghost predicate RowOk(tools: Registry, w: World, i: ActionId)
    requires i < |w.rows|
  {
    var r, started := w.rows[i], w.starts[i];
    && started <= 1
    && (i in w.outcomes ==> started == 1)
    && (NeverDispatched(r.status) ==> started == 0)
    && (DiaryKey(r) in w.diaries ==> w.diaries[DiaryKey(r)].action == i)
    && (r.status == DONE ==> i in w.outcomes && w.outcomes[i])
    && (r.tool in tools ==> r.group == tools[r.tool].group)
    && if Bypass(tools, r) then Lookup(w, i) == None && r.status != UNKNOWN else
       match Lookup(w, i)
       case None => NeverDispatched(r.status)
       case Some(IN_FLIGHT) => r.status != DONE && r.status != FAILED
       case Some(SUCCESS) => i in w.outcomes && w.outcomes[i] && (r.status == DISPATCHED || r.status == DONE)
       case Some(ERROR) => i in w.outcomes && !w.outcomes[i] && (r.status == DISPATCHED || r.status == FAILED)
  }

  /** Approvals and gates that let an action through stay true for it. */
  ghost predicate Cleared(tools: Registry, w: World, i: ActionId) {
    && i < |w.rows| && w.rows[i].tool in tools && !Bypass(tools, w.rows[i])
    && PredecessorsDone(w.rows, i)
    && (w.rows[i].requiresApproval ==> Approval(i, true) in w.approvals)
  }

  ghost predicate PcOk(tools: Registry, w: World) {
    match w.pc
    case Idle => true
    case Gated(i) => Cleared(tools, w, i) && Waiting(w, i) && !HasInflight(w.rows, w.rows[i].group)
    case Journaled(i) =>
      Cleared(tools, w, i) && Waiting(w, i) && !HasInflight(w.rows, w.rows[i].group) && Lookup(w, i) == Some(IN_FLIGHT)
    case Committed(i) =>
      && i < |w.rows| && w.rows[i].status == DISPATCHED && w.starts[i] == 0
      && (!Bypass(tools, w.rows[i]) ==> Lookup(w, i) == Some(IN_FLIGHT))
    case Running(i) =>
      && i < |w.rows| && w.rows[i].status == DISPATCHED && w.starts[i] == 1 && i !in w.outcomes
      && (!Bypass(tools, w.rows[i]) ==> Lookup(w, i) == Some(IN_FLIGHT))
    case Returned(i, ok) =>
      && i < |w.rows| && w.rows[i].status == DISPATCHED && i in w.outcomes && w.outcomes[i] == ok
      && (!Bypass(tools, w.rows[i]) ==> Lookup(w, i) == Some(IN_FLIGHT))
    case Recorded(i, ok) =>
      && i < |w.rows| && w.rows[i].status == DISPATCHED && i in w.outcomes && w.outcomes[i] == ok
      && !Bypass(tools, w.rows[i]) && Lookup(w, i) == Some(if ok then SUCCESS else ERROR)
  }

  /** An action that got past the gates had its predecessors done and, if it needs one, an approval. */
  ghost predicate GatesOk(tools: Registry, w: World) {
    forall i | 0 <= i < |w.rows| :: !Bypass(tools, w.rows[i]) && !NeverDispatched(w.rows[i].status) ==> Cleared(tools, w, i)
  }

  /** The rows of one chain are in the order of their steps. */
  ghost predicate ChainsOrdered(rows: seq<Row>) {
    forall i, j | 0 <= i < j < |rows| && rows[i].link.Some? && rows[j].link.Some? ::
      rows[i].link.value.chain == rows[j].link.value.chain ==> rows[i].link.value.step < rows[j].link.value.step
  }

  /** At most one gated action of a device group is dispatched at a time. */
  ghost predicate GroupsExclusive(tools: Registry, w: World) {
    forall i, j | 0 <= i < j < |w.rows| && Occupies(tools, w.rows[i]) && Occupies(tools, w.rows[j]) ::
      w.rows[i].group != w.rows[j].group
  }

  predicate Occupies(tools: Registry, r: Row) {
    r.status == DISPATCHED && !Bypass(tools, r)
  }

  /** The diaries and the logs speak of recorded rows only. */
  ghost predicate StoresOk(w: World) {
    && (forall i | i in w.starts :: i < |w.rows|)
    && (forall i | i in w.outcomes :: i < |w.rows|)
    && (forall k | k in w.diaries :: w.diaries[k].action < |w.rows| && k == DiaryKey(w.rows[w.diaries[k].action]))
  }

  ghost predicate RowsOk(tools: Registry, w: World) {
    forall i | 0 <= i < |w.rows| :: RowOk(tools, w, i)
  }

  ghost predicate Inv(tools: Registry, w: World) {
    && KeysOk(w.rows) && ChainsOrdered(w.rows) && StoresOk(w) && RowsOk(tools, w)
    && PcOk(tools, w) && GatesOk(tools, w) && GroupsExclusive(tools, w)
  }

  lemma {:induction false} ApprovalIsRecorded(approvals: seq<Approval>, i: ActionId)
    ensures LatestApproval(approvals, i) == Some(true) ==> Approval(i, true) in approvals
  {
    if approvals != [] && approvals[|approvals| - 1].action != i {
      ApprovalIsRecorded(approvals[..|approvals| - 1], i);
    }
  }

  // ----- Every step keeps every part -----

  /** The row that an engine step is about. */
  function Subject(s: Step): ActionId {
    match s
    case Propose(_) => 0 case Approve(_) => 0 case Crash => 0
    case Reject(i) => i case AwaitApproval(i) => i case PassGates(i) => i case WriteInflight(i) => i
    case CommitDispatch(i) => i case DispatchBypass(i) => i case StartTool(i) => i case FinishTool(i, _) => i
    case WriteOutcome(i, _) => i case Settle(i, _) => i case Resolve(i) => i
  }

  predicate EngineStep(s: Step) {
    !s.Propose? && !s.Approve? && !s.Crash?
  }

  lemma SubjectExists(tools: Registry, w: World, s: Step)
    requires PcOk(tools, w) && Enabled(tools, w, s) && EngineStep(s)
    ensures Subject(s) < |w.rows|
    ensures |Apply(tools, w, s).rows| == |w.rows|
  {
  }

  /** A status changes only along the engine's course, so the active rows of a pair stay what they were. */
  predicate Rises(a: Status, b: Status) {
    a == b || Rank(a) < Rank(b)
  }

  function Rank(s: Status): nat {
    match s
    case PROPOSED => 0
    case WAITING_APPROVAL => 1
    case DISPATCHED => 2
    case _ => 3
  }

  /** A status only rises: it is kept, or its rank grows.  `set_status` has no such guard; the engine's
    * course supplies it, so the terminal statuses are absorbing. */
  lemma StatusRises(tools: Registry, w: World, s: Step, i: ActionId)
    requires PcOk(tools, w) && Enabled(tools, w, s) && i < |w.rows|
    ensures var v := Apply(tools, w, s);
            && |w.rows| <= |v.rows|
            && v.rows[i] == w.rows[i].(status := v.rows[i].status)
            && Rises(w.rows[i].status, v.rows[i].status)
  {
  }

  /** An engine step leaves the rows alone but for the status of its subject. */
  lemma OneStatusChanges(tools: Registry, w: World, s: Step)
    requires PcOk(tools, w) && Enabled(tools, w, s) && EngineStep(s)
    ensures Subject(s) < |w.rows| && |Apply(tools, w, s).rows| == |w.rows|
    ensures var status := Apply(tools, w, s).rows[Subject(s)].status;
            Apply(tools, w, s).rows == WithStatus(w.rows, Subject(s), status) && Rises(w.rows[Subject(s)].status, status)
  {
    SubjectExists(tools, w, s);
    StatusRises(tools, w, s, Subject(s));
  }

  lemma ProposeKeepsChains(tools: Registry, rows: seq<Row>, p: Proposal)
    requires ChainsOrdered(rows) && InOrder(tools, rows, p)
    ensures ChainsOrdered(Proposed(rows, p))
  {
  }

  lemma StatusKeepsChains(rows: seq<Row>, i: nat, s: Status)
    requires ChainsOrdered(rows)
    ensures ChainsOrdered(WithStatus(rows, i, s))
  {
  }

  lemma StepKeepsKeys(tools: Registry, w: World, s: Step)
    requires Inv(tools, w) && Enabled(tools, w, s)
    ensures KeysOk(Apply(tools, w, s).rows) && ChainsOrdered(Apply(tools, w, s).rows)
  {
    if s.Propose? {
      ProposeKeepsKeys(w.rows, s.proposal);
      ProposeKeepsChains(tools, w.rows, s.proposal);
    } else if EngineStep(s) {
      OneStatusChanges(tools, w, s);
      var status := Apply(tools, w, s).rows[Subject(s)].status;
      if status == w.rows[Subject(s)].status {
        assert Apply(tools, w, s).rows == w.rows;
      } else {
        StatusKeepsKeys(w.rows, Subject(s), status);
        StatusKeepsChains(w.rows, Subject(s), status);
      }
    }
  }

  lemma StepKeepsLogs(tools: Registry, w: World, s: Step, i: ActionId)
    requires Inv(tools, w) && Enabled(tools, w, s)
    ensures i in Apply(tools, w, s).starts || i in Apply(tools, w, s).outcomes ==> i < |Apply(tools, w, s).rows|
  {
    if EngineStep(s) {
      SubjectExists(tools, w, s);
    }
  }

  lemma StepKeepsEntries(tools: Registry, w: World, s: Step, k: (string, Key))
    requires Inv(tools, w) && Enabled(tools, w, s) && k in Apply(tools, w, s).diaries
    ensures var v := Apply(tools, w, s);
            v.diaries[k].action < |v.rows| && k == DiaryKey(v.rows[v.diaries[k].action])
  {
    var i := Apply(tools, w, s).diaries[k].action;
    if s.WriteInflight? && k == DiaryKey(w.rows[s.action]) {
      assert i == s.action;
    } else {
      assert k in w.diaries && i == w.diaries[k].action;
      StatusRises(tools, w, s, i);
    }
  }

  lemma StepKeepsStores(tools: Registry, w: World, s: Step)
    requires Inv(tools, w) && Enabled(tools, w, s)
    ensures StoresOk(Apply(tools, w, s))
  {
    var v := Apply(tools, w, s);
    forall i | i in v.starts || i in v.outcomes ensures i < |v.rows| {
      StepKeepsLogs(tools, w, s, i);
    }
    forall k | k in v.diaries ensures v.diaries[k].action < |v.rows| && k == DiaryKey(v.rows[v.diaries[k].action]) {
      StepKeepsEntries(tools, w, s, k);
    }
  }

  /** Whether a row agrees with the stores depends on its own entries only. */
  lemma RowOkFrame(tools: Registry, w: World, v: World, j: ActionId)
    requires j < |w.rows| && j < |v.rows| && v.rows[j] == w.rows[j] && RowOk(tools, w, j)
    requires v.starts[j] == w.starts[j] && (j in v.outcomes <==> j in w.outcomes)
    requires j in w.outcomes ==> v.outcomes[j] == w.outcomes[j]
    requires DiaryKey(w.rows[j]) in v.diaries <==> DiaryKey(w.rows[j]) in w.diaries
    requires DiaryKey(w.rows[j]) in w.diaries ==> v.diaries[DiaryKey(w.rows[j])] == w.diaries[DiaryKey(w.rows[j])]
    ensures RowOk(tools, v, j)
  {
  }

  /** A row that a step is not about agrees with the stores as before. */
  lemma OtherRowKept(tools: Registry, w: World, s: Step, j: ActionId)
    requires Inv(tools, w) && Enabled(tools, w, s) && EngineStep(s) && j < |w.rows| && j != Subject(s)
    ensures RowOk(tools, Apply(tools, w, s), j)
  {
    SubjectExists(tools, w, s);
    KeysAreDistinct(w.rows, Subject(s), j);
    RowOkFrame(tools, w, Apply(tools, w, s), j);
  }

  predicate WritesStatus(s: Step) {
    s.Reject? || s.AwaitApproval? || s.CommitDispatch? || s.DispatchBypass? || s.Settle? || s.Resolve?
  }

  lemma StatusRowKept(tools: Registry, w: World, s: Step, i: ActionId)
    requires PcOk(tools, w) && Enabled(tools, w, s) && WritesStatus(s) && i == Subject(s) < |w.rows| && RowOk(tools, w, i)
    ensures RowOk(tools, Apply(tools, w, s), i)
  {
  }

  lemma StoresRowKept(tools: Registry, w: World, s: Step, i: ActionId)
    requires PcOk(tools, w) && Enabled(tools, w, s) && EngineStep(s) && !WritesStatus(s)
    requires i == Subject(s) < |w.rows| && RowOk(tools, w, i)
    ensures RowOk(tools, Apply(tools, w, s), i)
  {
  }

  lemma SubjectRowKept(tools: Registry, w: World, s: Step)
    requires Inv(tools, w) && Enabled(tools, w, s) && EngineStep(s)
    ensures Subject(s) < |w.rows| && RowOk(tools, Apply(tools, w, s), Subject(s))
  {
    SubjectExists(tools, w, s);
    if WritesStatus(s) {
      StatusRowKept(tools, w, s, Subject(s));
    } else {
      StoresRowKept(tools, w, s, Subject(s));
    }
  }

  lemma OtherThreadKeepsRow(tools: Registry, w: World, s: Step, j: ActionId)
    requires Enabled(tools, w, s) && !EngineStep(s) && j < |w.rows| && RowOk(tools, w, j)
    ensures RowOk(tools, Apply(tools, w, s), j)
  {
    RowOkFrame(tools, w, Apply(tools, w, s), j);
  }

  lemma StepKeepsRows(tools: Registry, w: World, s: Step)
    requires Inv(tools, w) && Enabled(tools, w, s)
    ensures RowsOk(tools, Apply(tools, w, s))
  {
    var v := Apply(tools, w, s);
    forall j | 0 <= j < |v.rows| ensures RowOk(tools, v, j) {
      if EngineStep(s) {
        SubjectExists(tools, w, s);
        if j == Subject(s) {
          SubjectRowKept(tools, w, s);
        } else {
          OtherRowKept(tools, w, s, j);
        }
      } else if j < |w.rows| {
        OtherThreadKeepsRow(tools, w, s, j);
      } else {
        NewRowOk(tools, w, s.proposal);
      }
    }
  }

  lemma NewRowOk(tools: Registry, w: World, p: Proposal)
    requires Inv(tools, w) && InOrder(tools, w.rows, p) && !HasActivePair(w.rows, p.tool, p.params)
    ensures var v := w.(rows := Proposed(w.rows, p)); RowOk(tools, v, |w.rows|)
  {
    var v, n := w.(rows := Proposed(w.rows, p)), |w.rows|;
    ProposeKeepsKeys(w.rows, p);
    forall k | k in w.diaries ensures k != DiaryKey(v.rows[n]) {
      KeysAreDistinct(v.rows, w.diaries[k].action, n);
    }
  }

  /** Being cleared is never lost: predecessors stay done, later proposals are not predecessors. */
  lemma ClearedIsKept(tools: Registry, w: World, s: Step, i: ActionId)
    requires PcOk(tools, w) && Enabled(tools, w, s) && Cleared(tools, w, i)
    ensures Cleared(tools, Apply(tools, w, s), i)
  {
    var v := Apply(tools, w, s);
    StatusRises(tools, w, s, i);
    forall j | 0 <= j < |v.rows| && Precedes(v.rows, j, v.rows[i]) ensures v.rows[j].status == DONE {
      if j < |w.rows| {
        StatusRises(tools, w, s, j);
        assert Precedes(w.rows, j, w.rows[i]);
      }
    }
  }

  lemma GatesKeepPc(tools: Registry, w: World, i: ActionId)
    requires Inv(tools, w)
    ensures Enabled(tools, w, PassGates(i)) ==> PcOk(tools, w.(pc := Gated(i)))
    ensures Enabled(tools, w, WriteInflight(i)) ==> PcOk(tools, Apply(tools, w, WriteInflight(i)))
  {
    ApprovalIsRecorded(w.approvals, i);
  }

  /** What another thread commits meanwhile does not disturb the engine. */
  lemma OthersKeepPc(tools: Registry, w: World, s: Step)
    requires PcOk(tools, w) && Enabled(tools, w, s) && (s.Propose? || s.Approve?)
    ensures PcOk(tools, Apply(tools, w, s))
  {
    if !w.pc.Idle? {
      StatusRises(tools, w, s, w.pc.action);
      if w.pc.Gated? || w.pc.Journaled? {
        ClearedIsKept(tools, w, s, w.pc.action);
        NewRowsAreNotInflight(tools, w, s, w.rows[w.pc.action].group);
      }
    }
  }

  lemma NewRowsAreNotInflight(tools: Registry, w: World, s: Step, group: string)
    requires Enabled(tools, w, s) && (s.Propose? || s.Approve?) && !HasInflight(w.rows, group)
    ensures !HasInflight(Apply(tools, w, s).rows, group)
  {
    var v := Apply(tools, w, s);
    forall j | 0 <= j < |v.rows| ensures v.rows[j].group == group ==> v.rows[j].status != DISPATCHED {
      if j < |w.rows| {
        assert v.rows[j] == w.rows[j];
      }
    }
  }

  lemma ToolStepsKeepPc(tools: Registry, w: World, s: Step)
    requires Inv(tools, w) && Enabled(tools, w, s)
    requires s.CommitDispatch? || s.DispatchBypass? || s.StartTool? || s.FinishTool? || s.WriteOutcome?
    ensures PcOk(tools, Apply(tools, w, s))
  {
    SubjectExists(tools, w, s);
    assert RowOk(tools, w, Subject(s));
  }

  lemma StepKeepsPc(tools: Registry, w: World, s: Step)
    requires Inv(tools, w) && Enabled(tools, w, s)
    ensures PcOk(tools, Apply(tools, w, s))
  {
    if s.PassGates? || s.WriteInflight? {
      GatesKeepPc(tools, w, s.action);
    } else if s.Propose? || s.Approve? {
      OthersKeepPc(tools, w, s);
    } else if s.CommitDispatch? || s.DispatchBypass? || s.StartTool? || s.FinishTool? || s.WriteOutcome? {
      ToolStepsKeepPc(tools, w, s);
    }
  }

  lemma StepKeepsGates(tools: Registry, w: World, s: Step)
    requires PcOk(tools, w) && GatesOk(tools, w) && Enabled(tools, w, s)
    ensures GatesOk(tools, Apply(tools, w, s))
  {
    var v := Apply(tools, w, s);
    forall i | 0 <= i < |v.rows| && !Bypass(tools, v.rows[i]) && !NeverDispatched(v.rows[i].status)
      ensures Cleared(tools, v, i)
    {
      if i < |w.rows| {
        StatusRises(tools, w, s, i);
        ClearedIsKept(tools, w, s, i);
      }
    }
  }

  lemma StepKeepsGroups(tools: Registry, w: World, s: Step)
    requires PcOk(tools, w) && GroupsExclusive(tools, w) && Enabled(tools, w, s)
    ensures GroupsExclusive(tools, Apply(tools, w, s))
  {
    var v := Apply(tools, w, s);
    forall i, j | 0 <= i < j < |v.rows| && Occupies(tools, v.rows[i]) && Occupies(tools, v.rows[j])
      ensures v.rows[i].group != v.rows[j].group
    {
      StatusRises(tools, w, s, i);
      if j < |w.rows| {
        StatusRises(tools, w, s, j);
      }
    }
  }

  lemma StepKeepsInv(tools: Registry, w: World, s: Step)
    requires Inv(tools, w) && Enabled(tools, w, s)
    ensures Inv(tools, Apply(tools, w, s))
  {
    StepKeepsKeys(tools, w, s);
    StepKeepsStores(tools, w, s);
    StepKeepsRows(tools, w, s);
    StepKeepsPc(tools, w, s);
    StepKeepsGates(tools, w, s);
    StepKeepsGroups(tools, w, s);
  }

  /** The invariant holds in every state of every run, crashes anywhere included. */
  lemma {:induction false} InvariantHolds(tools: Registry, w: World, steps: seq<Step>)
    requires Inv(tools, w) && Legal(tools, w, steps)
    ensures Inv(tools, Run(tools, w, steps))
  {
    if steps != [] {
      InvariantHolds(tools, w, steps[..|steps| - 1]);
      StepKeepsInv(tools, Run(tools, w, steps[..|steps| - 1]), steps[|steps| - 1]);
    }
  }
}
