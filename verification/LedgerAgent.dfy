/** The agent's way into the ledger: how a decision becomes proposals. */
module LedgerAgent {
  import opened Wrappers
  import opened LedgerModel
  import opened LedgerSafety
  import opened LedgerTheorems
  import opened LedgerLog
  import opened LedgerDispatch
  import opened LedgerEngine

  /** An action as it was decided; `nowMs` is the clock when it is proposed. */
  datatype Act = Act(tool: string, params: string, nowMs: int)

  predicate IsKnown(tools: Registry, acts: seq<Act>) {
    forall k | 0 <= k < |acts| :: acts[k].tool in tools
  }

  /** The device group, the approval and the age limit are those of the tool. */
  function ProposalOf(tool: Tool, a: Act, link: Option<Link>): Proposal {
    Proposal(a.tool, a.params, tool.group, tool.requiresApproval, a.nowMs, tool.maxAgeMs, link)
  }

  /** An action that is still on its way, or in doubt. */
  predicate IsOpen(r: Row) {
    r.status == PROPOSED || r.status == WAITING_APPROVAL || r.status == DISPATCHED || r.status == UNKNOWN
  }

  predicate IsRefused(rows: seq<Row>, a: Act) {
    exists j | 0 <= j < |rows| :: rows[j].tool == a.tool && rows[j].params == a.params && IsOpen(rows[j])
  }

  /** An act is refused exactly when the same tool with the same parameters has an open action; otherwise one
    * row is added, and it takes the device group, the approval flag and the age limit from the tool. */
  lemma ProposedRow(tool: Tool, rows: seq<Row>, a: Act, link: Option<Link>)
    ensures var after := Proposed(rows, ProposalOf(tool, a, link));
            && (IsRefused(rows, a) ==> after == rows)
            && (!IsRefused(rows, a) ==>
                  && |after| == |rows| + 1 && after[..|rows|] == rows
                  && var r := after[|rows|];
                     && r.tool == a.tool && r.params == a.params && r.status == PROPOSED && r.link == link
                     && r.group == tool.group && r.createdMs == a.nowMs && r.maxAgeMs == tool.maxAgeMs
                     && (r.requiresApproval <==> tool.requiresApproval))
  {
    assert IsRefused(rows, a) <==> HasActivePair(rows, a.tool, a.params);
  }

  // ----- Tools that need a decision -----

  predicate NeedsApproval(tools: Registry, tool: string) {
    tool in tools && !tools[tool].gateBypass && tools[tool].requiresApproval
  }

  /** A proposal that asks for approval where its tool requires it, as the agent makes them. */
  predicate IsFlagged(tools: Registry, s: Step) {
    s.Propose? && NeedsApproval(tools, s.proposal.tool) ==> s.proposal.requiresApproval
  }

  ghost predicate AllFlagged(tools: Registry, steps: seq<Step>) {
    forall k | 0 <= k < |steps| :: IsFlagged(tools, steps[k])
  }

  lemma {:induction false} RowsAreFlagged(tools: Registry, steps: seq<Step>, i: ActionId)
    requires Legal(tools, INIT, steps) && AllFlagged(tools, steps) && i < |Run(tools, INIT, steps).rows|
    ensures var r := Run(tools, INIT, steps).rows[i]; NeedsApproval(tools, r.tool) ==> r.requiresApproval
  {
    var so, s := steps[..|steps| - 1], steps[|steps| - 1];
    var w := Run(tools, INIT, so);
    assert IsFlagged(tools, s) && forall k | 0 <= k < |so| :: so[k] == steps[k];
    ReachableInv(tools, so);
    if i < |w.rows| {
      RowsAreFlagged(tools, so, i);
      StatusRises(tools, w, s, i);
    } else if !s.Propose? {
      if EngineStep(s) {
        SubjectExists(tools, w, s);
      }
    }
  }

  /** In no run, with crashes wherever they come, is a gated tool that requires approval started before an
    * operator has approved that very action. */
  lemma NoStartWithoutApproval(tools: Registry, steps: seq<Step>, i: ActionId)
    requires Legal(tools, INIT, steps) && AllFlagged(tools, steps)
    requires var w := Run(tools, INIT, steps);
             && i < |w.rows| && w.starts[i] > 0 && w.rows[i].tool in tools
             && !tools[w.rows[i].tool].gateBypass && tools[w.rows[i].tool].requiresApproval
    ensures exists m | 0 <= m < |Run(tools, INIT, steps).approvals| :: Run(tools, INIT, steps).approvals[m] == Approval(i, true)
  {
    var w := Run(tools, INIT, steps);
    ReachableInv(tools, steps);
    RowsAreFlagged(tools, steps, i);
    assert RowOk(tools, w, i);
    assert Cleared(tools, w, i);
  }

  lemma {:induction false} AgentFlagsItsProposals(tools: Registry, a: Act, chain: nat, acts: seq<Act>, n: nat)
    requires n <= |acts| && IsKnown(tools, acts) && a.tool in tools
    ensures AllFlagged(tools, ChainSteps(tools, chain, acts, n))
    ensures AllFlagged(tools, [Propose(ProposalOf(tools[a.tool], a, None))])
  {
    if n > 0 {
      AgentFlagsItsProposals(tools, a, chain, acts, n - 1);
    }
  }

  // ----- Chains -----

  /** The first `n` acts of a chain, proposed in order. */
  function ChainSteps(tools: Registry, chain: nat, acts: seq<Act>, n: nat): seq<Step>
    requires n <= |acts| && IsKnown(tools, acts)
  {
    if n == 0 then []
    else ChainSteps(tools, chain, acts, n - 1) + [Propose(ProposalOf(tools[acts[n - 1].tool], acts[n - 1], Some(Link(chain, n - 1))))]
  }

  /** The chain has no row from step `n` on. */
  predicate IsFree(rows: seq<Row>, chain: nat, n: nat) {
    forall j | 0 <= j < |rows| && rows[j].link.Some? && rows[j].link.value.chain == chain :: rows[j].link.value.step < n
  }

  lemma NextIsInOrder(tools: Registry, rows: seq<Row>, p: Proposal, chain: nat, n: nat)
    requires IsFree(rows, chain, n) && p.link == Some(Link(chain, n)) && p.tool in tools && p.group == tools[p.tool].group
    ensures InOrder(tools, rows, p) && IsFree(Proposed(rows, p), chain, n + 1)
  {
  }

  /** Whatever the engine and the operators have done to the ledger before, a chain under a fresh id is
    * proposed in the order that the machine asks for. */
  lemma {:induction false} ChainIsLegal(tools: Registry, w: World, chain: nat, acts: seq<Act>, n: nat)
    requires n <= |acts| && IsKnown(tools, acts) && IsFree(w.rows, chain, 0)
    ensures Legal(tools, w, ChainSteps(tools, chain, acts, n))
    ensures IsFree(Run(tools, w, ChainSteps(tools, chain, acts, n)).rows, chain, n)
  {
    if n > 0 {
      var so := ChainSteps(tools, chain, acts, n - 1);
      var p := ProposalOf(tools[acts[n - 1].tool], acts[n - 1], Some(Link(chain, n - 1)));
      ChainIsLegal(tools, w, chain, acts, n - 1);
      NextIsInOrder(tools, Run(tools, w, so).rows, p, chain, n - 1);
      RunSnoc(tools, w, so, Propose(p));
    }
  }

  /** Each act of a chain in turn: unless it is refused in the state that the acts before it have left, it
    * becomes a row with its own position in the chain as step number, and that row stays. */
  lemma {:induction false} ActOfAChain(tools: Registry, w: World, chain: nat, acts: seq<Act>, n: nat, k: nat)
      returns (rows: seq<Row>, after: seq<Row>)
    requires k < n <= |acts| && IsKnown(tools, acts) && IsFree(w.rows, chain, 0)
    ensures LeavesRows(tools, w, ChainSteps(tools, chain, acts, k), rows)
    ensures LeavesRows(tools, w, ChainSteps(tools, chain, acts, n), after)
    ensures Stands(rows, after, acts[k], Link(chain, k))
  {
    var so;
    so, after := OneMoreOfAChain(tools, w, chain, acts, n);
    if k == n - 1 {
      rows := so;
    } else {
      var same;
      rows, same := ActOfAChain(tools, w, chain, acts, n - 1, k);
      StillStands(rows, so, after, acts[k], Link(chain, k));
    }
  }

  predicate LeavesRows(tools: Registry, w: World, steps: seq<Step>, rows: seq<Row>) {
    Legal(tools, w, steps) && Run(tools, w, steps).rows == rows
  }

  /** The act was refused or became the next row after `rows`. */
  predicate Stands(rows: seq<Row>, after: seq<Row>, a: Act, link: Link) {
    rows <= after && (!IsRefused(rows, a) ==> IsRowOf(after, |rows|, a, link))
  }

  lemma StillStands(rows: seq<Row>, so: seq<Row>, after: seq<Row>, a: Act, link: Link)
    requires Stands(rows, so, a, link) && so <= after
    ensures Stands(rows, after, a, link)
  {
  }

  lemma OneMoreOfAChain(tools: Registry, w: World, chain: nat, acts: seq<Act>, n: nat) returns (so: seq<Row>, after: seq<Row>)
    requires 0 < n <= |acts| && IsKnown(tools, acts) && IsFree(w.rows, chain, 0)
    ensures LeavesRows(tools, w, ChainSteps(tools, chain, acts, n - 1), so) && LeavesRows(tools, w, ChainSteps(tools, chain, acts, n), after)
    ensures Stands(so, after, acts[n - 1], Link(chain, n - 1))
  {
    ChainIsLegal(tools, w, chain, acts, n);
    ChainIsLegal(tools, w, chain, acts, n - 1);
    var steps := ChainSteps(tools, chain, acts, n - 1);
    assert ChainSteps(tools, chain, acts, n)[..|steps|] == steps;
    so, after := Run(tools, w, steps).rows, Run(tools, w, ChainSteps(tools, chain, acts, n)).rows;
    ProposedRow(tools[acts[n - 1].tool], so, acts[n - 1], Some(Link(chain, n - 1)));
  }

  predicate IsRowOf(rows: seq<Row>, j: nat, a: Act, link: Link) {
    j < |rows| && rows[j].tool == a.tool && rows[j].params == a.params && rows[j].link == Some(link)
  }

  class Agent {
    const engine: Engine

    constructor (engine: Engine)
      ensures this.engine == engine
    {
      this.engine := engine;
    }

    /** An ACTION decision.  An unknown tool is logged and nothing more. */
    method RouteAction(a: Act) returns (id: Option<ActionId>)
      requires engine.Valid()
      modifies engine.ledger, engine.tape
      ensures engine.Valid()
      ensures var rows := old(engine.ledger.rows);
              && (a.tool !in engine.tools ==> id == None && engine.Took(old(engine.World()), old(engine.tape.events), []))
              && (a.tool in engine.tools ==>
                    && engine.Took(old(engine.World()), old(engine.tape.events), [Propose(ProposalOf(engine.tools[a.tool], a, None))])
                    && id == if HasActivePair(rows, a.tool, a.params) then None else Some(|rows|))
    {
      if a.tool !in engine.tools {
        NothingTaken(engine.tools, engine.World(), engine.tape.events);
        return None;
      }
      id := engine.Propose(ProposalOf(engine.tools[a.tool], a, None));
    }

    /** An ACTION_CHAIN decision, under a chain id that was just drawn.  One unknown tool drops the whole
      * chain; otherwise every act is proposed, though those of an active row are refused one by one. */
    method RouteChain(acts: seq<Act>, chain: nat) returns (proposed: bool)
      requires engine.Valid() && IsFree(engine.ledger.rows, chain, 0)
      modifies engine.ledger, engine.tape
      ensures engine.Valid() && (proposed <==> IsKnown(engine.tools, acts))
      ensures engine.Took(old(engine.World()), old(engine.tape.events),
                          if IsKnown(engine.tools, acts) then ChainSteps(engine.tools, chain, acts, |acts|) else [])
    {
      ghost var w, told := engine.World(), engine.tape.events;
      NothingTaken(engine.tools, w, told);
      proposed := AreKnown(acts);
      if proposed {
        ProposeAll(acts, chain);
      }
    }

    method AreKnown(acts: seq<Act>) returns (known: bool)
      ensures known <==> IsKnown(engine.tools, acts)
    {
      for k := 0 to |acts|
        invariant forall j | 0 <= j < k :: acts[j].tool in engine.tools
      {
        if acts[k].tool !in engine.tools {
          return false;
        }
      }
      return true;
    }

    method ProposeAll(acts: seq<Act>, chain: nat)
      requires engine.Valid() && IsKnown(engine.tools, acts) && IsFree(engine.ledger.rows, chain, 0)
      modifies engine.ledger, engine.tape
      ensures engine.Valid()
      ensures engine.Took(old(engine.World()), old(engine.tape.events), ChainSteps(engine.tools, chain, acts, |acts|))
    {
      ghost var w, told := engine.World(), engine.tape.events;
      NothingTaken(engine.tools, w, told);
      for k := 0 to |acts|
        invariant engine.Valid() && engine.Took(w, told, ChainSteps(engine.tools, chain, acts, k))
      {
        ProposeNext(w, told, acts, chain, k);
      }
    }

    method ProposeNext(ghost w: World, ghost told: seq<Event>, acts: seq<Act>, chain: nat, k: nat)
      requires engine.Valid() && IsKnown(engine.tools, acts) && k < |acts| && IsFree(w.rows, chain, 0)
      requires engine.Took(w, told, ChainSteps(engine.tools, chain, acts, k))
      modifies engine.ledger, engine.tape
      ensures engine.Valid() && engine.Took(w, told, ChainSteps(engine.tools, chain, acts, k + 1))
    {
      ghost var u, mid, taken := engine.World(), engine.tape.events, ChainSteps(engine.tools, chain, acts, k);
      var p := ProposalOf(engine.tools[acts[k].tool], acts[k], Some(Link(chain, k)));
      ChainIsLegal(engine.tools, w, chain, acts, k);
      var _ := engine.Propose(p);
      ExtendRun(engine.tools, w, told, taken, u, mid, [Propose(p)], engine.World(), engine.tape.events);
    }
  }
}
