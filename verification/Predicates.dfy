/** The predicate language of legality and verification. */
module Predicates {
  /** A fact's value.  Booleans are numbers, as they compare. */
  datatype Scalar = Null | Num(n: real) | Text(s: string)

  type Facts = map<string, Scalar>

  datatype Op = EQ | NE | GT | GE | LT | LE

  datatype Predicate =
    | Always
    | All(children: seq<Predicate>)
    | Any(children: seq<Predicate>)
    | Not(child: Predicate)
    | Atom(fact: string, op: Op, value: Scalar)
    | Malformed

  /** `evaluate` returns a truth value or raises: on a malformed predicate, and on an ordering of values
    * that have none. */
  datatype Truth = Holds | Fails | Raises

  function Of(b: bool): Truth {
    if b then Holds else Fails
  }

  predicate TextLess(a: string, b: string) {
    if b == "" then false
    else if a == "" then true
    else if a[0] != b[0] then a[0] < b[0]
    else TextLess(a[1..], b[1..])
  }

  predicate Ordered(op: Op) {
    op != EQ && op != NE
  }

  predicate Comparable(a: Scalar, b: Scalar) {
    (a.Num? && b.Num?) || (a.Text? && b.Text?)
  }

  function Less(a: Scalar, b: Scalar): bool
    requires Comparable(a, b)
  {
    if a.Num? then a.n < b.n else TextLess(a.s, b.s)
  }

  function Compare(op: Op, a: Scalar, b: Scalar): Truth {
    if op == EQ then Of(a == b)
    else if op == NE then Of(a != b)
    else if !Comparable(a, b) then Raises
    else if op == GT then Of(Less(b, a))
    else if op == GE then Of(!Less(a, b))
    else if op == LT then Of(Less(a, b))
    else Of(!Less(b, a))
  }

  /** `PredicateEvaluator.evaluate`; `all` and `any` stop at the first child that decides them. */
  function Evaluate(p: Predicate, facts: Facts): Truth
    decreases p, 1
  {
    match p
    case Always => Holds
    case All(children) => EvaluateAll(children, facts)
    case Any(children) => EvaluateAny(children, facts)
    case Not(child) =>
      (match Evaluate(child, facts) case Holds => Fails case Fails => Holds case Raises => Raises)
    case Atom(fact, op, value) => if fact !in facts then Fails else Compare(op, facts[fact], value)
    case Malformed => Raises
  }

  function EvaluateAll(ps: seq<Predicate>, facts: Facts): Truth
    decreases ps, 0
  {
    if ps == [] then Holds
    else match Evaluate(ps[0], facts)
      case Holds => EvaluateAll(ps[1..], facts)
      case t => t
  }

  function EvaluateAny(ps: seq<Predicate>, facts: Facts): Truth
    decreases ps, 0
  {
    if ps == [] then Fails
    else match Evaluate(ps[0], facts)
      case Fails => EvaluateAny(ps[1..], facts)
      case t => t
  }

  /** Every atom stands under an even number of negations, or every one under an odd number. */
  predicate Polar(p: Predicate, even: bool) {
    match p
    case All(children) => forall c | c in children :: Polar(c, even)
    case Any(children) => forall c | c in children :: Polar(c, even)
    case Not(child) => Polar(child, !even)
    case Atom(_, _, _) => even
    case _ => true
  }

  /** No atom orders values that have no order, and nothing is malformed: decidable before evaluating. */
  predicate WellTyped(p: Predicate, facts: Facts) {
    match p
    case Always => true
    case All(children) => forall c | c in children :: WellTyped(c, facts)
    case Any(children) => forall c | c in children :: WellTyped(c, facts)
    case Not(child) => WellTyped(child, facts)
    case Atom(fact, op, value) => Ordered(op) && fact in facts ==> Comparable(facts[fact], value)
    case Malformed => false
  }

  // ----- What a predicate means -----

  /** Where the loop over the children of an `all` ends. */
  lemma {:induction false} AllStopsAt(ps: seq<Predicate>, facts: Facts) returns (k: nat)
    ensures k <= |ps| && forall j | 0 <= j < k :: Evaluate(ps[j], facts) == Holds
    ensures k == |ps| ==> EvaluateAll(ps, facts) == Holds
    ensures k < |ps| ==> Evaluate(ps[k], facts) != Holds && EvaluateAll(ps, facts) == Evaluate(ps[k], facts)
    decreases |ps|
  {
    k := 0;
    if ps != [] && Evaluate(ps[0], facts) == Holds {
      var rest := AllStopsAt(ps[1..], facts);
      k := rest + 1;
      assert forall j | 1 <= j < |ps| :: ps[j] == ps[1..][j - 1];
    }
  }

  /** An `all` holds when every child does, and fails when some child fails and all before it hold. */
  lemma AllMeans(ps: seq<Predicate>, facts: Facts)
    ensures Evaluate(All(ps), facts) == Holds <==> forall k | 0 <= k < |ps| :: Evaluate(ps[k], facts) == Holds
    ensures Evaluate(All(ps), facts) == Fails <==>
            exists k | 0 <= k < |ps| :: Evaluate(ps[k], facts) == Fails && forall j | 0 <= j < k :: Evaluate(ps[j], facts) == Holds
  {
    var k := AllStopsAt(ps, facts);
  }

  /** Where the loop over the children of an `any` ends. */
  lemma {:induction false} AnyStopsAt(ps: seq<Predicate>, facts: Facts) returns (k: nat)
    ensures k <= |ps| && forall j | 0 <= j < k :: Evaluate(ps[j], facts) == Fails
    ensures k == |ps| ==> EvaluateAny(ps, facts) == Fails
    ensures k < |ps| ==> Evaluate(ps[k], facts) != Fails && EvaluateAny(ps, facts) == Evaluate(ps[k], facts)
    decreases |ps|
  {
    k := 0;
    if ps != [] && Evaluate(ps[0], facts) == Fails {
      var rest := AnyStopsAt(ps[1..], facts);
      k := rest + 1;
      assert forall j | 1 <= j < |ps| :: ps[j] == ps[1..][j - 1];
    }
  }

  /** An `any` fails when every child does, and holds when some child holds and all before it fail. */
  lemma AnyMeans(ps: seq<Predicate>, facts: Facts)
    ensures Evaluate(Any(ps), facts) == Fails <==> forall k | 0 <= k < |ps| :: Evaluate(ps[k], facts) == Fails
    ensures Evaluate(Any(ps), facts) == Holds <==>
            exists k | 0 <= k < |ps| :: Evaluate(ps[k], facts) == Holds && forall j | 0 <= j < k :: Evaluate(ps[j], facts) == Fails
  {
    var k := AnyStopsAt(ps, facts);
  }

  /** The first position at which two texts differ decides, or the end of the shorter one. */
  ghost predicate Precedes(a: string, b: string) {
    exists k | 0 <= k <= |a| && k < |b| :: a[..k] == b[..k] && (k == |a| || a[k] < b[k])
  }

  lemma {:induction false} TextLessIsLexicographic(a: string, b: string)
    ensures TextLess(a, b) <==> Precedes(a, b)
    decreases |a|
  {
    if a != "" && b != "" && a[0] == b[0] {
      var c, d := a[1..], b[1..];
      TextLessIsLexicographic(c, d);
      if Precedes(c, d) {
        var k :| 0 <= k <= |c| && k < |d| && c[..k] == d[..k] && (k == |c| || c[k] < d[k]);
        assert a[..k + 1] == [a[0]] + c[..k] && b[..k + 1] == [b[0]] + d[..k];
      }
      if Precedes(a, b) {
        var k :| 0 <= k <= |a| && k < |b| && a[..k] == b[..k] && (k == |a| || a[k] < b[k]);
        assert k > 0 && c[..k - 1] == a[..k][1..] && d[..k - 1] == b[..k][1..];
      }
    } else {
      assert a[..0] == b[..0];
    }
  }

  /** What an atom asks of a fact: equality of any values, order of two numbers or of two texts. */
  lemma AtomMeans(name: string, value: Scalar, facts: Facts)
    ensures name !in facts ==> forall op :: Evaluate(Atom(name, op, value), facts) == Fails
    ensures name in facts ==>
              && Evaluate(Atom(name, EQ, value), facts) == Of(facts[name] == value)
              && Evaluate(Atom(name, NE, value), facts) == Of(facts[name] != value)
    ensures name in facts && facts[name].Num? && value.Num? ==>
              var x, y := facts[name].n, value.n;
              && Evaluate(Atom(name, GT, value), facts) == Of(x > y) && Evaluate(Atom(name, GE, value), facts) == Of(x >= y)
              && Evaluate(Atom(name, LT, value), facts) == Of(x < y) && Evaluate(Atom(name, LE, value), facts) == Of(x <= y)
    ensures name in facts && facts[name].Text? && value.Text? ==>
              var x, y := facts[name].s, value.s;
              && Evaluate(Atom(name, GT, value), facts) == Of(Precedes(y, x)) && Evaluate(Atom(name, GE, value), facts) == Of(!Precedes(x, y))
              && Evaluate(Atom(name, LT, value), facts) == Of(Precedes(x, y)) && Evaluate(Atom(name, LE, value), facts) == Of(!Precedes(y, x))
    ensures name in facts && (facts[name].Null? || value.Null? || facts[name].Num? != value.Num?) ==>
              forall op | op != EQ && op != NE :: Evaluate(Atom(name, op, value), facts) == Raises
  {
    if name in facts && facts[name].Text? && value.Text? {
      TextLessIsLexicographic(facts[name].s, value.s);
      TextLessIsLexicographic(value.s, facts[name].s);
    }
  }

  /** A negation swaps the two sides, and raises with its child; the empty predicate holds. */
  lemma NotMeans(p: Predicate, facts: Facts)
    ensures Evaluate(Not(p), facts) == Holds <==> Evaluate(p, facts) == Fails
    ensures Evaluate(Not(p), facts) == Fails <==> Evaluate(p, facts) == Holds
    ensures Evaluate(Always, facts) == Holds && Evaluate(Malformed, facts) == Raises
  {
  }

  /** `c` is required by `p`: it is `p`, or is required by a member of an `all`. */
  predicate IsConjunct(c: Predicate, p: Predicate) {
    c == p || (p.All? && exists child | child in p.children :: IsConjunct(c, child))
  }

  /** When a predicate holds, so does everything that it requires. */
  lemma {:induction false} ConjunctsHold(c: Predicate, p: Predicate, facts: Facts)
    requires Evaluate(p, facts) == Holds && IsConjunct(c, p)
    ensures Evaluate(c, facts) == Holds
    decreases p
  {
    if c != p {
      var child :| child in p.children && IsConjunct(c, child);
      var k :| 0 <= k < |p.children| && p.children[k] == child;
      AllMeans(p.children, facts);
      ConjunctsHold(c, child, facts);
    }
  }

  predicate Extends(facts: Facts, more: Facts) {
    forall k | k in facts :: k in more && more[k] == facts[k]
  }

  lemma {:induction false} WellTypedNeverRaises(p: Predicate, facts: Facts)
    requires WellTyped(p, facts)
    ensures Evaluate(p, facts) != Raises
    decreases p, 1
  {
    match p
    case All(children) => AllNeverRaises(children, facts);
    case Any(children) => AllNeverRaises(children, facts);
    case Not(child) => WellTypedNeverRaises(child, facts);
    case _ =>
  }

  lemma {:induction false} AllNeverRaises(ps: seq<Predicate>, facts: Facts)
    requires forall c | c in ps :: WellTyped(c, facts)
    ensures EvaluateAll(ps, facts) != Raises && EvaluateAny(ps, facts) != Raises
    decreases ps, 0
  {
    if ps != [] {
      WellTypedNeverRaises(ps[0], facts);
      AllNeverRaises(ps[1..], facts);
    }
  }

  /** Fail-closed: learning more never refutes what holds, as long as every atom is under an even number of
    * negations; under an odd number it never makes true what fails.  Under more facts the evaluation may
    * raise, but it does not change sides. */
  lemma {:induction false} NeverReversedByMoreFacts(p: Predicate, even: bool, facts: Facts, more: Facts)
    requires Polar(p, even) && Extends(facts, more) && Evaluate(p, facts) == Of(even)
    ensures Evaluate(p, more) != Of(!even)
    decreases p, 1
  {
    match p
    case All(children) => AllNotReversed(children, even, facts, more);
    case Any(children) => AnyNotReversed(children, even, facts, more);
    case Not(child) => NeverReversedByMoreFacts(child, !even, facts, more);
    case _ =>
  }

  lemma {:induction false} AllNotReversed(ps: seq<Predicate>, even: bool, facts: Facts, more: Facts)
    requires forall c | c in ps :: Polar(c, even)
    requires Extends(facts, more) && EvaluateAll(ps, facts) == Of(even)
    ensures EvaluateAll(ps, more) != Of(!even)
    decreases ps, 0
  {
    if ps != [] {
      if Evaluate(ps[0], facts) == Of(even) {
        NeverReversedByMoreFacts(ps[0], even, facts, more);
      }
      if Evaluate(ps[0], facts) == Holds {
        AllNotReversed(ps[1..], even, facts, more);
      }
    }
  }

  lemma {:induction false} AnyNotReversed(ps: seq<Predicate>, even: bool, facts: Facts, more: Facts)
    requires forall c | c in ps :: Polar(c, even)
    requires Extends(facts, more) && EvaluateAny(ps, facts) == Of(even)
    ensures EvaluateAny(ps, more) != Of(!even)
    decreases ps, 0
  {
    if ps != [] {
      if Evaluate(ps[0], facts) == Of(even) {
        NeverReversedByMoreFacts(ps[0], even, facts, more);
      }
      if Evaluate(ps[0], facts) == Fails {
        AnyNotReversed(ps[1..], even, facts, more);
      }
    }
  }

  /** So under every well-typed extension of the facts, the truth of the one and the falsity of the other
    * stay. */
  lemma StaysDecided(p: Predicate, even: bool, facts: Facts, more: Facts)
    requires Polar(p, even) && Extends(facts, more) && WellTyped(p, more) && Evaluate(p, facts) == Of(even)
    ensures Evaluate(p, more) == Of(even)
  {
    NeverReversedByMoreFacts(p, even, facts, more);
    WellTypedNeverRaises(p, more);
  }

  /** Neither condition can be dropped: a negated atom over a missing fact is true and is refuted when the
    * fact arrives, and an `any` that was decided by a later child raises when an earlier one gets a value
    * of the wrong kind. */
  lemma BothConditionsAreNeeded()
    ensures var p := Not(Atom("printer.hot", EQ, Num(1.0)));
            Evaluate(p, map[]) == Holds && Evaluate(p, map["printer.hot" := Num(1.0)]) == Fails
    ensures var p := Any([Atom("printer.temp", GT, Num(1.0)), Always]);
            Polar(p, true) && Evaluate(p, map[]) == Holds && Evaluate(p, map["printer.temp" := Text("n/a")]) == Raises
  {
    var a, none := Atom("printer.temp", GT, Num(1.0)), map[];
    var facts: Facts := map["printer.temp" := Text("n/a")];
    assert Evaluate(a, none) == Fails && Evaluate(a, facts) == Raises;
    assert [a, Always][1..] == [Always] && EvaluateAny([Always], none) == Holds;
    assert forall c | c in [a, Always] :: Polar(c, true);
  }
}
