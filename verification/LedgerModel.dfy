/** The ledger, the diaries and the engine between them, as a machine of single commits.
  *
  * An action is named by its position in the ledger: rows are only ever appended, so the position is as
  * fresh and as lasting as the identifier the ledger draws. */
module LedgerModel {
  import opened Wrappers

  type ActionId = nat

  datatype Status = PROPOSED | WAITING_APPROVAL | DISPATCHED | DONE | FAILED | REJECTED | UNKNOWN

  /** `tool:hash` for retry 0, `tool:hash:retry:n` after that; the parameters stand for their hash. */
  datatype Key = Key(tool: string, params: string, retry: nat)

  datatype Link = Link(chain: nat, step: nat)

  datatype Row = Row(
    tool: string, params: string, key: Key, group: string, status: Status,
    requiresApproval: bool, createdMs: int, maxAgeMs: int, link: Option<Link>)

  /** What an agent hands to `propose`. */
  datatype Proposal = Proposal(
    tool: string, params: string, group: string,
    requiresApproval: bool, createdMs: int, maxAgeMs: int, link: Option<Link>)

  datatype Approval = Approval(action: ActionId, approve: bool)

  datatype EntryStatus = IN_FLIGHT | SUCCESS | ERROR

  datatype Entry = Entry(action: ActionId, status: EntryStatus)

  /** One diary a device group. */
  type Diaries = map<(string, Key), Entry>

  datatype Tool = Tool(group: string, gateBypass: bool, hasPrecheck: bool, requiresApproval: bool, maxAgeMs: int)

  type Registry = map<string, Tool>

  /** Where the engine stands inside `process_proposal`.  It is lost in a crash. */
  datatype Pc =
    | Idle
    | Gated(action: ActionId)
    | Journaled(action: ActionId)
    | Committed(action: ActionId)
    | Running(action: ActionId)
    | Returned(action: ActionId, ok: bool)
    | Recorded(action: ActionId, ok: bool)

  /** The committed stores, the program counter, and two logs of what happened at the hardware: how often
    * each action's tool was started, and what it came back with. */
  datatype World = World(
    rows: seq<Row>, approvals: seq<Approval>, diaries: Diaries, pc: Pc,
    starts: multiset<ActionId>, outcomes: map<ActionId, bool>)

  const INIT := World([], [], map[], Idle, multiset{}, map[])

  datatype Step =
    | Propose(proposal: Proposal)
    | Approve(approval: Approval)
    | Reject(action: ActionId)
    | AwaitApproval(action: ActionId)
    | PassGates(action: ActionId)
    | WriteInflight(action: ActionId)
    | CommitDispatch(action: ActionId)
    | DispatchBypass(action: ActionId)
    | StartTool(action: ActionId)
    | FinishTool(action: ActionId, ok: bool)
    | WriteOutcome(action: ActionId, ok: bool)
    | Settle(action: ActionId, ok: bool)
    | Resolve(action: ActionId)
    | Crash

  // ----- The ledger's statements -----

  predicate Active(s: Status) {
    s == PROPOSED || s == WAITING_APPROVAL || s == DISPATCHED || s == UNKNOWN
  }

  predicate SamePair(r: Row, tool: string, params: string) {
    r.tool == tool && r.params == params
  }

  /** How many rows there are for these parameters of this tool. */
  function CountPair(rows: seq<Row>, tool: string, params: string): nat {
    if rows == [] then 0
    else CountPair(rows[..|rows| - 1], tool, params) + if SamePair(rows[|rows| - 1], tool, params) then 1 else 0
  }

  predicate HasActivePair(rows: seq<Row>, tool: string, params: string) {
    exists i | 0 <= i < |rows| :: SamePair(rows[i], tool, params) && Active(rows[i].status)
  }

  /** `Ledger.propose`. */
  function Proposed(rows: seq<Row>, p: Proposal): seq<Row> {
    if HasActivePair(rows, p.tool, p.params) then rows
    else
      rows + [Row(p.tool, p.params, Key(p.tool, p.params, CountPair(rows, p.tool, p.params)), p.group, PROPOSED,
                  p.requiresApproval, p.createdMs, p.maxAgeMs, p.link)]
  }

  /** `Ledger.set_status`: one row, no guard on its present status. */
  function WithStatus(rows: seq<Row>, i: ActionId, s: Status): seq<Row> {
    if i < |rows| then rows[i := rows[i].(status := s)] else rows
  }

  predicate HasInflight(rows: seq<Row>, group: string) {
    exists i | 0 <= i < |rows| :: rows[i].group == group && rows[i].status == DISPATCHED
  }

  /** `Ledger.get_approval`: the latest decision on an action. */
  function LatestApproval(approvals: seq<Approval>, i: ActionId): Option<bool> {
    if approvals == [] then None
    else if approvals[|approvals| - 1].action == i then Some(approvals[|approvals| - 1].approve)
    else LatestApproval(approvals[..|approvals| - 1], i)
  }

  function DiaryKey(r: Row): (string, Key) {
    (r.group, r.key)
  }

  function Lookup(w: World, i: ActionId): Option<EntryStatus>
    requires i < |w.rows|
  {
    if DiaryKey(w.rows[i]) in w.diaries then Some(w.diaries[DiaryKey(w.rows[i])].status) else None
  }

  /** `write_success` and `write_failed`: an UPDATE, so without effect when there is no such row. */
  function Completed(d: Diaries, k: (string, Key), ok: bool): Diaries {
    if k in d then d[k := d[k].(status := if ok then SUCCESS else ERROR)] else d
  }

  /** The row at `j` is an earlier step of the chain of `r`. */
  predicate Precedes(rows: seq<Row>, j: nat, r: Row) {
    j < |rows| && rows[j].link.Some? && r.link.Some?
    && rows[j].link.value.chain == r.link.value.chain && rows[j].link.value.step < r.link.value.step
  }

  predicate PredecessorsDone(rows: seq<Row>, i: ActionId)
    requires i < |rows|
  {
    forall j | 0 <= j < |rows| :: Precedes(rows, j, rows[i]) ==> rows[j].status == DONE
  }

  predicate Bypass(tools: Registry, r: Row) {
    r.tool in tools && tools[r.tool].gateBypass
  }

  /** Reconcile's decision on one dispatched row. */
  function Verdict(found: Option<EntryStatus>): Status {
    match found
    case Some(SUCCESS) => DONE
    case Some(ERROR) => FAILED
    case Some(IN_FLIGHT) => UNKNOWN
    case None => FAILED
  }

  // ----- Single steps -----

  predicate Waiting(w: World, i: ActionId) {
    i < |w.rows| && (w.rows[i].status == PROPOSED || w.rows[i].status == WAITING_APPROVAL)
  }

  /** The steps of a chain are proposed in increasing order, and with the device group of their tool: this
    * is how the agent calls `propose`. */
  predicate InOrder(tools: Registry, rows: seq<Row>, p: Proposal) {
    && (p.tool in tools ==> p.group == tools[p.tool].group)
    && (p.link.Some? ==>
          forall j | 0 <= j < |rows| && rows[j].link.Some? ::
            rows[j].link.value.chain == p.link.value.chain ==> rows[j].link.value.step < p.link.value.step)
  }

  predicate Enabled(tools: Registry, w: World, s: Step) {
    match s
    case Propose(p) => InOrder(tools, w.rows, p)
    case Approve(a) => true
    case Reject(i) => w.pc == Idle && Waiting(w, i)
    case AwaitApproval(i) => w.pc == Idle && i < |w.rows| && w.rows[i].status == PROPOSED
    case PassGates(i) =>
      && w.pc == Idle && Waiting(w, i) && w.rows[i].tool in tools && !Bypass(tools, w.rows[i])
      && PredecessorsDone(w.rows, i) && !HasInflight(w.rows, w.rows[i].group)
      && (w.rows[i].requiresApproval ==> LatestApproval(w.approvals, i) == Some(true))
    case WriteInflight(i) => w.pc == Gated(i) && i < |w.rows|
    case CommitDispatch(i) => w.pc == Journaled(i)
    case DispatchBypass(i) => w.pc == Idle && Waiting(w, i) && Bypass(tools, w.rows[i])
    case StartTool(i) => w.pc == Committed(i)
    case FinishTool(i, ok) => w.pc == Running(i)
    case WriteOutcome(i, ok) => w.pc == Returned(i, ok) && i < |w.rows| && !Bypass(tools, w.rows[i])
    case Settle(i, ok) =>
      i < |w.rows| && w.pc == if Bypass(tools, w.rows[i]) then Returned(i, ok) else Recorded(i, ok)
    case Resolve(i) => w.pc == Idle && i < |w.rows| && w.rows[i].status == DISPATCHED
    case Crash => true
  }

  function Apply(tools: Registry, w: World, s: Step): World
    requires Enabled(tools, w, s)
  {
    match s
    case Propose(p) => w.(rows := Proposed(w.rows, p))
    case Approve(a) => if a.action < |w.rows| then w.(approvals := w.approvals + [a]) else w
    case Reject(i) => w.(rows := WithStatus(w.rows, i, REJECTED))
    case AwaitApproval(i) => w.(rows := WithStatus(w.rows, i, WAITING_APPROVAL))
    case PassGates(i) => w.(pc := Gated(i))
    case WriteInflight(i) => w.(diaries := w.diaries[DiaryKey(w.rows[i]) := Entry(i, IN_FLIGHT)], pc := Journaled(i))
    case CommitDispatch(i) => w.(rows := WithStatus(w.rows, i, DISPATCHED), pc := Committed(i))
    case DispatchBypass(i) => w.(rows := WithStatus(w.rows, i, DISPATCHED), pc := Committed(i))
    case StartTool(i) => w.(starts := w.starts + multiset{i}, pc := Running(i))
    case FinishTool(i, ok) => w.(outcomes := w.outcomes[i := ok], pc := Returned(i, ok))
    case WriteOutcome(i, ok) =>
      w.(diaries := Completed(w.diaries, DiaryKey(w.rows[i]), ok), pc := Recorded(i, ok))
    case Settle(i, ok) => w.(rows := WithStatus(w.rows, i, if ok then DONE else FAILED), pc := Idle)
    case Resolve(i) => w.(rows := WithStatus(w.rows, i, Verdict(Lookup(w, i))))
    case Crash => w.(pc := Idle)
  }

  // ----- Runs -----

  /** Every step of `steps` is enabled when it is taken, starting from `w`. */
  predicate Legal(tools: Registry, w: World, steps: seq<Step>)
    decreases |steps|, 0
  {
    steps != [] ==>
      var so := steps[..|steps| - 1];
      Legal(tools, w, so) && Enabled(tools, Run(tools, w, so), steps[|steps| - 1])
  }

  function Run(tools: Registry, w: World, steps: seq<Step>): World
    requires Legal(tools, w, steps)
    decreases |steps|, 1
  {
    if steps == [] then w
    else Apply(tools, Run(tools, w, steps[..|steps| - 1]), steps[|steps| - 1])
  }

  lemma RunSnoc(tools: Registry, w: World, steps: seq<Step>, s: Step)
    requires Legal(tools, w, steps) && Enabled(tools, Run(tools, w, steps), s)
    ensures Legal(tools, w, steps + [s])
    ensures Run(tools, w, steps + [s]) == Apply(tools, Run(tools, w, steps), s)
  {
    assert (steps + [s])[..|steps|] == steps;
  }

  /** A run may be cut anywhere: what a crash leaves behind is itself a run. */
  lemma {:induction false} PrefixIsLegal(tools: Registry, w: World, steps: seq<Step>, n: nat)
    requires Legal(tools, w, steps) && n <= |steps|
    ensures Legal(tools, w, steps[..n])
    decreases |steps|
  {
    if n < |steps| {
      assert steps[..|steps| - 1][..n] == steps[..n];
      PrefixIsLegal(tools, w, steps[..|steps| - 1], n);
    } else {
      assert steps[..n] == steps;
    }
  }
}
