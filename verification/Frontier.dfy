/** The frontier of legal next actions. */
module Frontier {
  import opened Wrappers
  import opened Predicates

  datatype Hazard = LOW | MEDIUM | HIGH

  /** A bounded action as the packs offer it; `args` stands for its canonical arguments. */
  datatype Action = Action(
    id: string, verb: string, owner: string, args: string, locks: seq<string>,
    hazard: Hazard, approvalRequired: bool, preconditions: Predicate,
    verify: Option<Predicate>, expectedDelta: seq<Predicate>, rank: int)

  const TUNING := "TUNE_"

  predicate IsTuning(a: Action) {
    TUNING <= a.verb
  }

  predicate Locked(a: Action, locked: set<string>) {
    exists k | k in a.locks :: k in locked
  }

  /** What the frontier is to contain. */
  predicate IsLegal(a: Action, facts: Facts, locked: set<string>) {
    !Locked(a, locked) && Evaluate(a.preconditions, facts) == Holds
  }

  /** The filter loop; `None` when a precondition raises before it is done. */
  function Legal(candidates: seq<Action>, facts: Facts, locked: set<string>): Option<seq<Action>> {
    if candidates == [] then Some([])
    else
      var n := |candidates| - 1;
      match Legal(candidates[..n], facts, locked)
      case None => None
      case Some(so) =>
        if Locked(candidates[n], locked) then Some(so)
        else match Evaluate(candidates[n].preconditions, facts)
          case Holds => Some(so + [candidates[n]])
          case Fails => Some(so)
          case Raises => None
  }

  /** The sort key (rank hint, action id). */
  predicate Before(a: Action, b: Action) {
    a.rank < b.rank || (a.rank == b.rank && TextLess(a.id, b.id))
  }

  function Insert(a: Action, sorted: seq<Action>): (r: seq<Action>)
    ensures multiset(r) == multiset(sorted) + multiset{a}
  {
    if sorted == [] then [a]
    else if Before(a, sorted[|sorted| - 1]) then
      assert sorted == sorted[..|sorted| - 1] + [sorted[|sorted| - 1]];
      Insert(a, sorted[..|sorted| - 1]) + [sorted[|sorted| - 1]]
    else sorted + [a]
  }

  /** `list.sort`: stable, by the sort key. */
  function Sort(s: seq<Action>): (r: seq<Action>)
    ensures multiset(r) == multiset(s)
  {
    if s == [] then []
    else
      assert s == s[..|s| - 1] + [s[|s| - 1]];
      Insert(s[|s| - 1], Sort(s[..|s| - 1]))
  }

  predicate IsSorted(s: seq<Action>) {
    forall i, j | 0 <= i < j < |s| :: !Before(s[j], s[i])
  }

  function Select(s: seq<Action>, tuning: bool): (r: seq<Action>)
    ensures forall i | 0 <= i < |r| :: IsTuning(r[i]) == tuning
  {
    if s == [] then []
    else if IsTuning(s[|s| - 1]) == tuning then Select(s[..|s| - 1], tuning) + [s[|s| - 1]]
    else Select(s[..|s| - 1], tuning)
  }

  /** `_build_frontier`. */
  function Frontier(candidates: seq<Action>, facts: Facts, locked: set<string>): Option<seq<Action>> {
    match Legal(candidates, facts, locked)
    case None => None
    case Some(legal) => Some(Select(Sort(legal), false) + Select(Sort(legal), true))
  }

  /** The same by its loops. */
  method BuildFrontier(candidates: seq<Action>, facts: Facts, locked: set<string>) returns (frontier: Option<seq<Action>>)
    ensures frontier == Frontier(candidates, facts, locked)
  {
    var legal: seq<Action> := [];
    for n := 0 to |candidates|
      invariant Legal(candidates[..n], facts, locked) == Some(legal)
    {
      assert candidates[..n + 1][..n] == candidates[..n];
      if !Locked(candidates[n], locked) {
        var holds := Evaluate(candidates[n].preconditions, facts);
        if holds == Raises {
          RaisesEarly(candidates, facts, locked, n + 1);
          return None;
        }
        if holds == Holds {
          legal := legal + [candidates[n]];
        }
      }
    }
    assert candidates[..|candidates|] == candidates;
    legal := Sort(legal);
    var control, tuning := [], [];
    for n := 0 to |legal|
      invariant control == Select(legal[..n], false) && tuning == Select(legal[..n], true)
    {
      assert legal[..n + 1][..n] == legal[..n];
      if IsTuning(legal[n]) {
        tuning := tuning + [legal[n]];
      } else {
        control := control + [legal[n]];
      }
    }
    assert legal[..|legal|] == legal;
    return Some(control + tuning);
  }

  lemma {:induction false} RaisesEarly(candidates: seq<Action>, facts: Facts, locked: set<string>, n: nat)
    requires n <= |candidates| && Legal(candidates[..n], facts, locked) == None
    ensures Legal(candidates, facts, locked) == None
    decreases |candidates|
  {
    if n == |candidates| {
      assert candidates[..n] == candidates;
    } else {
      var so := candidates[..|candidates| - 1];
      assert so[..n] == candidates[..n];
      RaisesEarly(so, facts, locked, n);
    }
  }

  // ----- What the frontier is -----

  lemma {:induction false} TextOrder(a: string, b: string, c: string)
    ensures !(TextLess(a, b) && TextLess(b, a))
    ensures TextLess(a, b) && TextLess(b, c) ==> TextLess(a, c)
    ensures a == b || TextLess(a, b) || TextLess(b, a)
    decreases |a| + |b| + |c|
  {
    if a != "" && b != "" {
      TextOrder(a[1..], b[1..], if c == "" then "" else c[1..]);
      assert a[0] == b[0] && a[1..] == b[1..] ==> a == b;
    }
  }

  lemma BeforeIsAnOrder(a: Action, b: Action, c: Action)
    ensures !(Before(a, b) && Before(b, a))
    ensures !Before(b, a) && !Before(c, b) ==> !Before(c, a)
  {
    TextOrder(a.id, b.id, c.id);
    TextOrder(c.id, a.id, b.id);
    TextOrder(b.id, a.id, c.id);
    TextOrder(c.id, b.id, a.id);
  }

  lemma {:induction false} InsertSorts(a: Action, s: seq<Action>)
    requires IsSorted(s)
    ensures IsSorted(Insert(a, s))
  {
    if s != [] {
      var n := |s| - 1;
      var r := Insert(a, s);
      if Before(a, s[n]) {
        InsertSorts(a, s[..n]);
        var so := Insert(a, s[..n]);
        forall i | 0 <= i < |so| ensures !Before(s[n], so[i]) {
          assert so[i] in multiset(so);
          if so[i] == a {
            BeforeIsAnOrder(a, s[n], a);
          } else {
            assert so[i] in multiset(s[..n]);
          }
        }
      } else {
        forall i | 0 <= i < n ensures !Before(a, s[i]) {
          BeforeIsAnOrder(s[i], s[n], a);
        }
      }
    }
  }

  lemma {:induction false} SortSorts(s: seq<Action>)
    ensures IsSorted(Sort(s))
  {
    if s != [] {
      SortSorts(s[..|s| - 1]);
      InsertSorts(s[|s| - 1], Sort(s[..|s| - 1]));
    }
  }

  lemma {:induction false} SelectKeepsOrder(s: seq<Action>, tuning: bool)
    requires IsSorted(s)
    ensures IsSorted(Select(s, tuning))
    ensures forall a | a in Select(s, tuning) :: a in s
  {
    if s != [] {
      var so, last := s[..|s| - 1], s[|s| - 1];
      SelectKeepsOrder(so, tuning);
      forall a | a in so ensures !Before(last, a) {
        var i :| 0 <= i < |so| && so[i] == a;
        assert s[i] == a;
      }
      var r := Select(so, tuning);
      assert forall i | 0 <= i < |r| :: r[i] in so;
    }
  }

  lemma {:induction false} SelectSplits(s: seq<Action>)
    ensures multiset(Select(s, false)) + multiset(Select(s, true)) == multiset(s)
  {
    if s != [] {
      SelectSplits(s[..|s| - 1]);
      assert s == s[..|s| - 1] + [s[|s| - 1]];
    }
  }

  /** How often an action is among the candidates counts in the frontier if and only if it is legal. */
  lemma LegalSnoc(candidates: seq<Action>, facts: Facts, locked: set<string>)
    requires candidates != [] && Legal(candidates, facts, locked).Some?
    ensures var n := |candidates| - 1;
            && Legal(candidates[..n], facts, locked).Some?
            && Legal(candidates, facts, locked).value ==
               if IsLegal(candidates[n], facts, locked) then Legal(candidates[..n], facts, locked).value + [candidates[n]]
               else Legal(candidates[..n], facts, locked).value
  {
  }

  lemma CountSnoc(so: seq<Action>, b: Action, a: Action)
    ensures multiset(so + [b])[a] == multiset(so)[a] + if a == b then 1 else 0
  {
  }

  lemma {:induction false} LegalCounts(candidates: seq<Action>, facts: Facts, locked: set<string>, a: Action)
    requires Legal(candidates, facts, locked).Some?
    ensures multiset(Legal(candidates, facts, locked).value)[a] ==
            if IsLegal(a, facts, locked) then multiset(candidates)[a] else 0
  {
    if candidates != [] {
      var n := |candidates| - 1;
      LegalCounts(candidates[..n], facts, locked, a);
      LegalSnoc(candidates, facts, locked);
      CountSnoc(candidates[..n], candidates[n], a);
      CountSnoc(Legal(candidates[..n], facts, locked).value, candidates[n], a);
      assert candidates == candidates[..n] + [candidates[n]];
    }
  }

  /** The frontier is exactly the unlocked candidates whose preconditions hold, as often as they were
    * offered: the control actions before the tuning actions, each part sorted by (rank, id). */
  lemma FrontierIsExact(candidates: seq<Action>, facts: Facts, locked: set<string>)
    requires Frontier(candidates, facts, locked).Some?
    ensures var f := Frontier(candidates, facts, locked).value;
            && (forall a :: multiset(f)[a] == if IsLegal(a, facts, locked) then multiset(candidates)[a] else 0)
            && (forall a :: a in f <==> a in candidates && IsLegal(a, facts, locked))
            && (forall i, j | 0 <= i < j < |f| :: IsTuning(f[i]) ==> IsTuning(f[j]))
            && (forall i, j | 0 <= i < j < |f| && IsTuning(f[i]) == IsTuning(f[j]) :: !Before(f[j], f[i]))
  {
    var legal := Legal(candidates, facts, locked).value;
    var sorted := Sort(legal);
    var f := Frontier(candidates, facts, locked).value;
    SortSorts(legal);
    SelectKeepsOrder(sorted, false);
    SelectKeepsOrder(sorted, true);
    SelectSplits(sorted);
    assert multiset(f) == multiset(legal);
    forall a ensures multiset(f)[a] == if IsLegal(a, facts, locked) then multiset(candidates)[a] else 0 {
      LegalCounts(candidates, facts, locked, a);
    }
    forall a ensures a in f <==> a in candidates && IsLegal(a, facts, locked) {
      assert a in f <==> multiset(f)[a] > 0;
      assert a in candidates <==> multiset(candidates)[a] > 0;
    }
  }

  lemma FrontierIsLegal(candidates: seq<Action>, facts: Facts, locked: set<string>, a: Action)
    requires Frontier(candidates, facts, locked).Some? && a in Frontier(candidates, facts, locked).value
    ensures a in candidates && IsLegal(a, facts, locked)
  {
    FrontierIsExact(candidates, facts, locked);
  }

  /** Of a frontier action, no lock is held and everything that its preconditions require holds. */
  lemma FrontierActionsAreSafe(candidates: seq<Action>, facts: Facts, locked: set<string>, a: Action, c: Predicate)
    requires Frontier(candidates, facts, locked).Some? && a in Frontier(candidates, facts, locked).value
    requires IsConjunct(c, a.preconditions)
    ensures Evaluate(c, facts) == Holds && forall k | k in a.locks :: k !in locked
  {
    FrontierIsLegal(candidates, facts, locked, a);
    ConjunctsHold(c, a.preconditions, facts);
  }

  /** Its order, said of the fields: verbs that begin with TUNE_ come last, and within each part a lower rank
    * comes first, and of equal ranks the id that is not later in the alphabet. */
  lemma FrontierOrder(candidates: seq<Action>, facts: Facts, locked: set<string>, i: nat, j: nat)
    requires Frontier(candidates, facts, locked).Some? && i < j < |Frontier(candidates, facts, locked).value|
    ensures var a, b := Frontier(candidates, facts, locked).value[i], Frontier(candidates, facts, locked).value[j];
            && ("TUNE_" <= a.verb ==> "TUNE_" <= b.verb)
            && (("TUNE_" <= a.verb <==> "TUNE_" <= b.verb) ==> a.rank < b.rank || (a.rank == b.rank && !Precedes(b.id, a.id)))
  {
    var a, b := Frontier(candidates, facts, locked).value[i], Frontier(candidates, facts, locked).value[j];
    FrontierIsExact(candidates, facts, locked);
    TextLessIsLexicographic(b.id, a.id);
  }

  /** The frontier as a dictionary by id: of two actions with the same id, the later one counts. */
  function LastNamed(f: seq<Action>, id: string): (found: Option<Action>)
    ensures found.Some? ==> found.value in f && found.value.id == id
    ensures found.Some? ==> exists k | 0 <= k < |f| :: f[k] == found.value && forall j | k < j < |f| :: f[j].id != id
    ensures found.None? ==> forall a | a in f :: a.id != id
  {
    if f == [] then None
    else if f[|f| - 1].id == id then Some(f[|f| - 1])
    else LastNamed(f[..|f| - 1], id)
  }
}
