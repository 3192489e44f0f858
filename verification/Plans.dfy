/** From the planner's output to the actions that are carried out. */
module Plans {
  import opened Wrappers
  import opened Texts
  import F = Frontier

  type Action = F.Action

  datatype Family = SPEED | FLOW | NOZZLE | BED | PRESSURE_ADVANCE | ACCEL

  datatype Direction = UP | DOWN

  datatype Magnitude = SMALL | BIG

  datatype Choice = Choice(family: Family, direction: Direction, magnitude: Magnitude)

  datatype Decision = NO_ACTION | EXECUTE | CALL_HUMAN

  datatype Plan = Plan(decision: Decision, sequence: seq<string>, choice: Option<Choice>)

  datatype Checked<+T> = Ok(value: T) | ValueError

  const MAX_HORIZON := 3

  /** The validator of `PlanIR.sequence`. */
  predicate WellFormed(p: Plan) {
    |p.sequence| <= MAX_HORIZON && forall j, k | 0 <= j < k < |p.sequence| :: p.sequence[j] != p.sequence[k]
  }

  // ----- Tuning actions by their ids -----

  function Upper(s: string): string {
    seq(|s|, k requires 0 <= k < |s| => if 'a' <= s[k] <= 'z' then ((s[k] as int) - 32) as char else s[k])
  }

  function FamilyOf(id: string): Option<Family> {
    var text := Upper(id);
    if Contains(text, "_TRIM_SPEED_") then Some(SPEED)
    else if Contains(text, "_TRIM_FLOW_") then Some(FLOW)
    else if Contains(text, "_TRIM_NOZZLE_") then Some(NOZZLE)
    else if Contains(text, "_TRIM_BED_") then Some(BED)
    else if Contains(text, "_TRIM_PRESSURE_ADVANCE_") then Some(PRESSURE_ADVANCE)
    else if Contains(text, "_TRIM_ACCEL_") then Some(ACCEL)
    else None
  }

  function DirectionOf(id: string): Option<Direction> {
    var text := Upper(id);
    if Contains(text, "_DOWN_") then Some(DOWN) else if Contains(text, "_UP_") then Some(UP) else None
  }

  function MagnitudeOf(id: string): Option<Magnitude> {
    var text := Upper(id);
    if Contains(text, "_BIG") then Some(BIG) else if Contains(text, "_SMALL") then Some(SMALL) else None
  }

  /** The choice that an action stands for, if its id has all three parts. */
  function ChoiceOf(id: string): Option<Choice> {
    if FamilyOf(id).Some? && DirectionOf(id).Some? && MagnitudeOf(id).Some? then
      Some(Choice(FamilyOf(id).value, DirectionOf(id).value, MagnitudeOf(id).value))
    else None
  }

  // ----- Ids as they are spelled -----

  function FamilyName(f: Family): string {
    match f
    case SPEED => "SPEED" case FLOW => "FLOW" case NOZZLE => "NOZZLE" case BED => "BED"
    case PRESSURE_ADVANCE => "PRESSURE_ADVANCE" case ACCEL => "ACCEL"
  }

  /** The id of the action for a choice. */
  function Spelled(c: Choice): string {
    "A_PRUSA_TRIM_" + FamilyName(c.family) + (if c.direction == UP then "_UP_" else "_DOWN_") +
    if c.magnitude == BIG then "BIG" else "SMALL"
  }

  /** The part, laid at `k`, agrees with the text in these two places. */
  predicate Agrees(s: string, part: string, k: nat, i: nat, j: nat) {
    k + |part| <= |s| && i < |part| && j < |part| && s[k + i] == part[i] && s[k + j] == part[j]
  }

  lemma AgreesWhereItIs(s: string, part: string, k: nat, i: nat, j: nat)
    requires i < |part| && j < |part|
    ensures IsAt(s, part, k) ==> Agrees(s, part, k, i, j)
  {
    if IsAt(s, part, k) {
      assert s[k + i] == s[k..k + |part|][i] && s[k + j] == s[k..k + |part|][j];
    }
  }

  lemma NotThere(s: string, part: string, i: nat, j: nat)
    requires i < |part| && j < |part| && forall k | 0 <= k <= |s| - |part| :: !Agrees(s, part, k, i, j)
    ensures !Contains(s, part)
  {
    forall k | 0 <= k <= |s| - |part| ensures !IsAt(s, part, k) {
      AgreesWhereItIs(s, part, k, i, j);
    }
  }

  lemma There(s: string, part: string, k: nat)
    requires IsAt(s, part, k)
    ensures Contains(s, part)
  {
  }

  lemma SpelledInCapitals(c: Choice)
    ensures Upper(Spelled(c)) == Spelled(c)
  {
    assert forall k | 0 <= k < |Spelled(c)| :: !('a' <= Spelled(c)[k] <= 'z');
  }

  lemma NotDown(c: Choice)
    requires c.direction == UP
    ensures !Contains(Spelled(c), "_DOWN_")
  {
    NotThere(Spelled(c), "_DOWN_", 0, 1);
  }

  lemma NotBig(c: Choice)
    requires c.magnitude == SMALL
    ensures !Contains(Spelled(c), "_BIG")
  {
    NotThere(Spelled(c), "_BIG", 2, 3);
  }

  function FamilyPart(f: Family): string {
    match f
    case SPEED => "_TRIM_SPEED_" case FLOW => "_TRIM_FLOW_" case NOZZLE => "_TRIM_NOZZLE_" case BED => "_TRIM_BED_"
    case PRESSURE_ADVANCE => "_TRIM_PRESSURE_ADVANCE_" case ACCEL => "_TRIM_ACCEL_"
  }

  lemma NoLaterM(c: Choice, k: nat)
    requires 12 <= k && k + 2 < |Spelled(c)| && Spelled(c)[k] == 'M'
    ensures Spelled(c)[k + 2] == 'L'
  {
  }

  /** The only "M" with a family's first letter after the next place is that of "TRIM". */
  lemma OnlyAfterTrim(c: Choice, k: nat)
    requires k + 2 < |Spelled(c)| && Spelled(c)[k] == 'M' && Spelled(c)[k + 2] in "SFNBPA"
    ensures k == 11 && Spelled(c)[k + 2] == FamilyName(c.family)[0]
  {
    if k >= 12 {
      NoLaterM(c, k);
    } else {
      assert Spelled(c)[k] == "A_PRUSA_TRIM_"[k];
    }
  }

  /** After "TRIM" comes this family, and no other. */
  lemma NotOfFamily(c: Choice, f: Family)
    requires c.family != f
    ensures !Contains(Spelled(c), FamilyPart(f))
  {
    var s, part := Spelled(c), FamilyPart(f);
    forall k | 0 <= k <= |s| - |part| ensures !Agrees(s, part, k, 4, 6) {
      if Agrees(s, part, k, 4, 6) {
        OnlyAfterTrim(c, k + 4);
      }
    }
    NotThere(s, part, 4, 6);
  }

  lemma SpelledDirection(c: Choice)
    ensures DirectionOf(Spelled(c)) == Some(c.direction)
  {
    var s, n := Spelled(c), 13 + |FamilyName(c.family)|;
    SpelledInCapitals(c);
    if c.direction == UP {
      There(s, "_UP_", n);
      NotDown(c);
    } else {
      There(s, "_DOWN_", n);
    }
  }

  lemma SpelledMagnitude(c: Choice)
    ensures MagnitudeOf(Spelled(c)) == Some(c.magnitude)
  {
    var s := Spelled(c);
    SpelledInCapitals(c);
    if c.magnitude == SMALL {
      There(s, "_SMALL", |s| - 6);
      NotBig(c);
    } else {
      There(s, "_BIG", |s| - 4);
    }
  }

  lemma MiddleIsThere(a: string, b: string, name: string, u: string, r: string, z: string)
    ensures Contains((a + b) + name + (u + r) + z, b + name + u)
  {
    assert (a + b) + name + (u + r) + z == a + (b + name + u) + (r + z);
    assert IsAt(a + (b + name + u) + (r + z), b + name + u, |a|);
  }

  lemma PartIsNamed(f: Family)
    ensures FamilyPart(f) == "_TRIM_" + FamilyName(f) + "_"
  {
  }

  lemma HasItsPart(c: Choice)
    ensures Contains(Spelled(c), FamilyPart(c.family))
  {
    PartIsNamed(c.family);
    assert "A_PRUSA_TRIM_" == "A_PRUSA" + "_TRIM_" && "_UP_" == "_" + "UP_" && "_DOWN_" == "_" + "DOWN_";
    MiddleIsThere("A_PRUSA", "_TRIM_", FamilyName(c.family), "_", if c.direction == UP then "UP_" else "DOWN_",
                  if c.magnitude == BIG then "BIG" else "SMALL");
  }

  lemma SpelledFamily(c: Choice)
    ensures FamilyOf(Spelled(c)) == Some(c.family)
  {
    SpelledInCapitals(c);
    HasItsPart(c);
    forall f | f != c.family ensures !Contains(Spelled(c), FamilyPart(f)) {
      NotOfFamily(c, f);
    }
    FamilyByPart(Spelled(c), c.family);
  }

  lemma FamilyByPart(id: string, f: Family)
    requires Upper(id) == id && forall g :: Contains(id, FamilyPart(g)) <==> g == f
    ensures FamilyOf(id) == Some(f)
  {
    assert (Contains(id, FamilyPart(SPEED)) <==> f == SPEED) && (Contains(id, FamilyPart(FLOW)) <==> f == FLOW);
    assert (Contains(id, FamilyPart(NOZZLE)) <==> f == NOZZLE) && (Contains(id, FamilyPart(BED)) <==> f == BED);
    assert Contains(id, FamilyPart(PRESSURE_ADVANCE)) <==> f == PRESSURE_ADVANCE;
    assert Contains(id, FamilyPart(ACCEL)) <==> f == ACCEL;
  }

  /** The id that spells a choice stands for that choice; so the six families, both directions and both
    * magnitudes can all be told apart. */
  lemma SpelledIsRead(c: Choice)
    ensures ChoiceOf(Spelled(c)) == Some(c)
  {
    SpelledFamily(c);
    SpelledDirection(c);
    SpelledMagnitude(c);
  }

  /** Conversely an id stands for a choice only if it has its parts: a "_DOWN_" decides the direction, a
    * "_BIG" the magnitude, and an id without a direction or a magnitude stands for none. */
  lemma ReadFromItsParts(id: string, c: Choice)
    requires ChoiceOf(id) == Some(c)
    ensures var text := Upper(id);
            && Contains(text, FamilyPart(c.family))
            && (c.direction == DOWN <==> Contains(text, "_DOWN_")) && (c.direction == UP ==> Contains(text, "_UP_"))
            && (c.magnitude == BIG <==> Contains(text, "_BIG")) && (c.magnitude == SMALL ==> Contains(text, "_SMALL"))
  {
    var text := Upper(id);
    assert FamilyPart(SPEED) == "_TRIM_SPEED_" && FamilyPart(FLOW) == "_TRIM_FLOW_" && FamilyPart(NOZZLE) == "_TRIM_NOZZLE_";
    assert FamilyPart(BED) == "_TRIM_BED_" && FamilyPart(ACCEL) == "_TRIM_ACCEL_";
    assert FamilyPart(PRESSURE_ADVANCE) == "_TRIM_PRESSURE_ADVANCE_";
  }

  predicate Fits(a: Action, c: Choice) {
    ChoiceOf(a.id) == Some(c)
  }

  function Matches(f: seq<Action>, c: Choice): (ids: seq<string>)
    ensures forall k | 0 <= k < |ids| :: exists a | a in f :: Fits(a, c) && a.id == ids[k]
  {
    if f == [] then []
    else Matches(f[..|f| - 1], c) + if Fits(f[|f| - 1], c) then [f[|f| - 1].id] else []
  }

  predicate Resolves(f: seq<Action>, c: Choice) {
    |Matches(f, c)| == 1
  }

  // ----- `materialize_plan` and `validate_plan` -----

  /** A tuning choice becomes the one frontier action that it describes.  A choice that does not resolve is
    * refused; next to an explicit sequence it makes the whole plan a NO_ACTION. */
  function Materialize(f: seq<Action>, p: Plan): Checked<Plan> {
    if p.decision != EXECUTE || p.choice == None then Ok(p)
    else if Resolves(f, p.choice.value) then Ok(p.(sequence := Matches(f, p.choice.value), choice := None))
    else if p.sequence != [] then Ok(Plan(NO_ACTION, [], None))
    else ValueError
  }

  function Lookup(f: seq<Action>, ids: seq<string>): Checked<seq<Action>> {
    if ids == [] then Ok([])
    else match Lookup(f, ids[..|ids| - 1])
      case ValueError => ValueError
      case Ok(so) =>
        match F.LastNamed(f, ids[|ids| - 1])
        case None => ValueError
        case Some(a) => Ok(so + [a])
  }

  function Validate(f: seq<Action>, p: Plan): Checked<seq<Action>> {
    match Materialize(f, p)
    case ValueError => ValueError
    case Ok(q) =>
      if q.decision != EXECUTE then Ok([])
      else if q.sequence == [] then ValueError
      else Lookup(f, q.sequence)
  }

  method MaterializePlan(f: seq<Action>, p: Plan) returns (r: Checked<Plan>)
    ensures r == Materialize(f, p)
  {
    if p.decision != EXECUTE || p.choice == None {
      return Ok(p);
    }
    var matches := [];
    for k := 0 to |f|
      invariant matches == Matches(f[..k], p.choice.value)
    {
      assert f[..k + 1][..k] == f[..k];
      if ChoiceOf(f[k].id) == p.choice {
        matches := matches + [f[k].id];
      }
    }
    assert f[..|f|] == f;
    assert |matches| == 1 ==> matches == [matches[0]];
    if p.sequence != [] {
      if |matches| == 1 {
        return Ok(p.(sequence := [matches[0]], choice := None));
      }
      return Ok(Plan(NO_ACTION, [], None));
    }
    if |matches| != 1 {
      return ValueError;
    }
    return Ok(p.(sequence := [matches[0]], choice := None));
  }

  method ValidatePlan(f: seq<Action>, p: Plan) returns (r: Checked<seq<Action>>)
    ensures r == Validate(f, p)
  {
    var q := MaterializePlan(f, p);
    if q.ValueError? {
      return ValueError;
    }
    if q.value.decision == NO_ACTION || q.value.decision == CALL_HUMAN {
      return Ok([]);
    }
    if q.value.sequence == [] {
      return ValueError;
    }
    var ids, actions := q.value.sequence, [];
    for k := 0 to |ids|
      invariant Lookup(f, ids[..k]) == Ok(actions)
    {
      assert ids[..k + 1][..k] == ids[..k];
      var found := F.LastNamed(f, ids[k]);
      if found == None {
        LookupFailsEarly(f, ids, k + 1);
        return ValueError;
      }
      actions := actions + [found.value];
    }
    assert ids[..|ids|] == ids;
    return Ok(actions);
  }

  lemma {:induction false} LookupFailsEarly(f: seq<Action>, ids: seq<string>, n: nat)
    requires n <= |ids| && Lookup(f, ids[..n]) == ValueError
    ensures Lookup(f, ids) == ValueError
    decreases |ids|
  {
    if n == |ids| {
      assert ids[..n] == ids;
    } else {
      assert ids[..|ids| - 1][..n] == ids[..n];
      LookupFailsEarly(f, ids[..|ids| - 1], n);
    }
  }

  // ----- What is carried out -----

  predicate IsNamed(f: seq<Action>, id: string) {
    exists a | a in f :: a.id == id
  }

  lemma FoundIffNamed(f: seq<Action>, id: string)
    ensures F.LastNamed(f, id).Some? <==> IsNamed(f, id)
    ensures F.LastNamed(f, id).Some? ==> F.LastNamed(f, id).value in f && F.LastNamed(f, id).value.id == id
  {
  }

  lemma {:induction false} LookupFinds(f: seq<Action>, ids: seq<string>)
    ensures Lookup(f, ids).Ok? <==> forall k | 0 <= k < |ids| :: IsNamed(f, ids[k])
    ensures Lookup(f, ids).Ok? ==>
              var actions := Lookup(f, ids).value;
              |actions| == |ids| && forall k | 0 <= k < |ids| :: actions[k] in f && actions[k].id == ids[k]
  {
    if ids != [] {
      var n := |ids| - 1;
      LookupFinds(f, ids[..n]);
      FoundIffNamed(f, ids[n]);
      assert forall k | 0 <= k < n :: ids[..n][k] == ids[k];
      if Lookup(f, ids[..n]).ValueError? {
        var k :| 0 <= k < n && !IsNamed(f, ids[..n][k]);
        assert !IsNamed(f, ids[k]);
      }
    }
  }

  lemma {:induction false} NoneMatch(f: seq<Action>, c: Choice)
    ensures |Matches(f, c)| == 0 <==> forall k | 0 <= k < |f| :: !Fits(f[k], c)
  {
    if f != [] {
      NoneMatch(f[..|f| - 1], c);
    }
  }

  lemma {:induction false} TwoFit(f: seq<Action>, c: Choice)
    requires |Matches(f, c)| > 1
    ensures exists j, k | 0 <= j < k < |f| :: Fits(f[j], c) && Fits(f[k], c)
  {
    var n := |f| - 1;
    if |Matches(f[..n], c)| > 1 {
      TwoFit(f[..n], c);
      var j, k :| 0 <= j < k < n && Fits(f[..n][j], c) && Fits(f[..n][k], c);
      assert Fits(f[j], c) && Fits(f[k], c);
    } else {
      NoneMatch(f[..n], c);
      var j :| 0 <= j < n && Fits(f[..n][j], c);
      assert Fits(f[j], c) && Fits(f[n], c);
    }
  }

  lemma {:induction false} TwoMatch(f: seq<Action>, c: Choice, j: nat, k: nat)
    requires j < k < |f| && Fits(f[j], c) && Fits(f[k], c)
    ensures |Matches(f, c)| > 1
  {
    var n := |f| - 1;
    if k < n {
      TwoMatch(f[..n], c, j, k);
    } else {
      NoneMatch(f[..n], c);
      assert Fits(f[..n][j], c);
    }
  }

  lemma ManyMatch(f: seq<Action>, c: Choice)
    ensures |Matches(f, c)| > 1 <==> exists j, k | 0 <= j < k < |f| :: Fits(f[j], c) && Fits(f[k], c)
  {
    if |Matches(f, c)| > 1 {
      TwoFit(f, c);
    }
    forall j, k | 0 <= j < k < |f| && Fits(f[j], c) && Fits(f[k], c) ensures |Matches(f, c)| > 1 {
      TwoMatch(f, c, j, k);
    }
  }

  /** A choice resolves if and only if one action of the frontier, and only one, stands for it; and then to
    * that action's id. */
  lemma ResolvesToTheOnlyOne(f: seq<Action>, c: Choice)
    ensures Resolves(f, c) <==> exists k | 0 <= k < |f| :: IsTheOnlyOne(f, k, c)
    ensures Resolves(f, c) ==> exists a | a in f :: Fits(a, c) && Matches(f, c) == [a.id]
  {
    NoneMatch(f, c);
    ManyMatch(f, c);
    if Resolves(f, c) {
      var k :| 0 <= k < |f| && Fits(f[k], c);
      assert IsTheOnlyOne(f, k, c);
      assert Matches(f, c) == [Matches(f, c)[0]];
    }
  }

  predicate IsTheOnlyOne(f: seq<Action>, k: nat, c: Choice) {
    k < |f| && Fits(f[k], c) && forall j | 0 <= j < |f| && j != k :: !Fits(f[j], c)
  }

  /** A choice becomes the one action that stands for it; where there is none or more than one, a plan with a
    * sequence becomes a NO_ACTION and a plan without one is refused.  Any other plan is left as it is, and
    * nothing is carried out unless the decision is EXECUTE. */
  lemma WhatBecomesOfAPlan(f: seq<Action>, p: Plan)
    ensures p.decision != EXECUTE ==> Materialize(f, p) == Ok(p) && Validate(f, p) == Ok([])
    ensures p.choice == None ==> Materialize(f, p) == Ok(p)
    ensures p.decision == EXECUTE && p.choice.Some? ==>
              && (forall k | 0 <= k < |f| && IsTheOnlyOne(f, k, p.choice.value) ::
                    Materialize(f, p) == Ok(Plan(EXECUTE, [f[k].id], None)))
              && ((forall k | 0 <= k < |f| :: !IsTheOnlyOne(f, k, p.choice.value)) ==>
                    Materialize(f, p) == if p.sequence != [] then Ok(Plan(NO_ACTION, [], None)) else ValueError)
    ensures p.decision == EXECUTE && p.choice == None && p.sequence == [] ==> Validate(f, p) == ValueError
  {
    if p.choice.Some? {
      var c := p.choice.value;
      ResolvesToTheOnlyOne(f, c);
      forall k | 0 <= k < |f| && IsTheOnlyOne(f, k, c) ensures Matches(f, c) == [f[k].id] {
        var a :| a in f && Fits(a, c) && Matches(f, c) == [a.id];
        var j :| 0 <= j < |f| && f[j] == a;
        assert j == k;
      }
    }
  }

  /** Everything that validation passes on is in the frontier, in the order of the plan, each once; and a
    * plan of explicit ids passes if and only if the frontier has them all. */
  lemma ValidatesOnlyTheFrontier(f: seq<Action>, p: Plan)
    requires WellFormed(p)
    ensures Validate(f, p).Ok? ==>
              var actions := Validate(f, p).value;
              && |actions| <= MAX_HORIZON
              && (forall k | 0 <= k < |actions| :: actions[k] in f)
              && (forall j, k | 0 <= j < k < |actions| :: actions[j].id != actions[k].id)
    ensures p.decision == EXECUTE && p.choice == None ==>
              (Validate(f, p).Ok? <==> p.sequence != [] && forall k | 0 <= k < |p.sequence| :: IsNamed(f, p.sequence[k]))
    ensures p.decision == EXECUTE && p.choice.Some? && Validate(f, p).Ok? && Validate(f, p).value != [] ==>
              |Validate(f, p).value| == 1 && Fits(Validate(f, p).value[0], p.choice.value)
  {
    var m := Materialize(f, p);
    if m.Ok? && m.value.decision == EXECUTE {
      LookupFinds(f, m.value.sequence);
      if p.choice.Some? {
        ResolvesToTheOnlyOne(f, p.choice.value);
      }
    }
  }

  lemma MaterializeIsIdempotent(f: seq<Action>, p: Plan)
    requires Materialize(f, p).Ok?
    ensures Materialize(f, Materialize(f, p).value) == Materialize(f, p)
    ensures Validate(f, Materialize(f, p).value) == Validate(f, p)
    ensures WellFormed(p) ==> WellFormed(Materialize(f, p).value)
  {
  }

  // ----- The tuning space that the planner is shown -----

  datatype Axes = Axes(directions: seq<Direction>, magnitudes: seq<Magnitude>)

  type Space = map<Family, Axes>

  predicate Hidden(family: Family) {
    family == ACCEL
  }

  function Added<T(==)>(s: seq<T>, x: T): seq<T> {
    if x in s then s else s + [x]
  }

  function Noted(space: Space, c: Choice): Space {
    var so := if c.family in space then space[c.family] else Axes([], []);
    space[c.family := Axes(Added(so.directions, c.direction), Added(so.magnitudes, c.magnitude))]
  }

  /** The action is one of a family that is shown. */
  predicate IsShown(a: Action) {
    ChoiceOf(a.id).Some? && !Hidden(ChoiceOf(a.id).value.family)
  }

  function TuningSpace(f: seq<Action>): Space {
    if f == [] then map[]
    else
      var so := TuningSpace(f[..|f| - 1]);
      if IsShown(f[|f| - 1]) then Noted(so, ChoiceOf(f[|f| - 1].id).value) else so
  }

  /** `_planner_tuning_action_space`. */
  method PlannerTuningSpace(f: seq<Action>) returns (space: Space)
    ensures space == TuningSpace(f)
  {
    space := map[];
    for k := 0 to |f|
      invariant space == TuningSpace(f[..k])
    {
      assert f[..k + 1][..k] == f[..k];
      var family, direction, magnitude := FamilyOf(f[k].id), DirectionOf(f[k].id), MagnitudeOf(f[k].id);
      if family.Some? && !Hidden(family.value) && direction.Some? && magnitude.Some? {
        var axes := if family.value in space then space[family.value] else Axes([], []);
        if direction.value !in axes.directions {
          axes := axes.(directions := axes.directions + [direction.value]);
        }
        if magnitude.value !in axes.magnitudes {
          axes := axes.(magnitudes := axes.magnitudes + [magnitude.value]);
        }
        space := space[family.value := axes];
      }
    }
    assert f[..|f|] == f;
  }

  /** Some shown action of the family has the direction, or the magnitude. */
  predicate HasDirection(f: seq<Action>, family: Family, d: Direction) {
    exists a | a in f :: IsShown(a) && ChoiceOf(a.id).value.family == family && ChoiceOf(a.id).value.direction == d
  }

  predicate HasMagnitude(f: seq<Action>, family: Family, m: Magnitude) {
    exists a | a in f :: IsShown(a) && ChoiceOf(a.id).value.family == family && ChoiceOf(a.id).value.magnitude == m
  }

  predicate Distinct<T(==)>(s: seq<T>) {
    forall j, k | 0 <= j < k < |s| :: s[j] != s[k]
  }

  predicate Lists(space: Space, family: Family, d: Direction, m: Magnitude) {
    family in space && d in space[family].directions && m in space[family].magnitudes
  }

  lemma {:induction false} DirectionsAreExact(f: seq<Action>, family: Family, d: Direction)
    ensures (family in TuningSpace(f) && d in TuningSpace(f)[family].directions) <==> HasDirection(f, family, d)
  {
    if f != [] {
      var so, a := f[..|f| - 1], f[|f| - 1];
      DirectionsAreExact(so, family, d);
      assert forall b :: b in f <==> b in so || b == a;
    }
  }

  lemma {:induction false} MagnitudesAreExact(f: seq<Action>, family: Family, m: Magnitude)
    ensures (family in TuningSpace(f) && m in TuningSpace(f)[family].magnitudes) <==> HasMagnitude(f, family, m)
  {
    if f != [] {
      var so, a := f[..|f| - 1], f[|f| - 1];
      MagnitudesAreExact(so, family, m);
      assert forall b :: b in f <==> b in so || b == a;
    }
  }

  /** The families of the frontier's tuning actions are offered, all but the acceleration. */
  lemma {:induction false} OfferedFamilies(f: seq<Action>, family: Family)
    ensures family in TuningSpace(f) <==>
            family != ACCEL && exists a | a in f :: ChoiceOf(a.id).Some? && ChoiceOf(a.id).value.family == family
  {
    if f != [] {
      var so, a := f[..|f| - 1], f[|f| - 1];
      OfferedFamilies(so, family);
      assert forall b :: b in f <==> b in so || b == a;
    }
  }

  lemma {:induction false} NothingListedTwice(f: seq<Action>, family: Family)
    ensures family in TuningSpace(f) ==> Distinct(TuningSpace(f)[family].directions) && Distinct(TuningSpace(f)[family].magnitudes)
  {
    if f != [] {
      NothingListedTwice(f[..|f| - 1], family);
    }
  }

  /** The space lists exactly the directions and the magnitudes that shown actions of a family have, each
    * once. */
  lemma SpaceIsExact(f: seq<Action>, family: Family, d: Direction, m: Magnitude)
    ensures var space := TuningSpace(f);
            && ((family in space && d in space[family].directions) <==> HasDirection(f, family, d))
            && ((family in space && m in space[family].magnitudes) <==> HasMagnitude(f, family, m))
            && (family in space ==> Distinct(space[family].directions) && Distinct(space[family].magnitudes))
  {
    DirectionsAreExact(f, family, d);
    MagnitudesAreExact(f, family, m);
    NothingListedTwice(f, family);
  }

  /** One action, and only one, for each combination of the family's directions and magnitudes. */
  ghost predicate IsFullProduct(f: seq<Action>, family: Family) {
    AllCombined(f, family) && NoneTwice(f, family)
  }

  ghost predicate AllCombined(f: seq<Action>, family: Family) {
    forall a, b | a in f && b in f && OfFamily(a, family) && OfFamily(b, family) :: IsOffered(f, Crossed(a, b))
  }

  predicate IsOffered(f: seq<Action>, c: Choice) {
    exists a | a in f :: Fits(a, c)
  }

  /** The direction of one action with the magnitude of another. */
  function Crossed(a: Action, b: Action): Choice
    requires IsShown(a) && IsShown(b)
  {
    ChoiceOf(a.id).value.(magnitude := ChoiceOf(b.id).value.magnitude)
  }

  ghost predicate NoneTwice(f: seq<Action>, family: Family) {
    forall j, k | 0 <= j < k < |f| && OfFamily(f[j], family) && OfFamily(f[k], family) :: ChoiceOf(f[j].id) != ChoiceOf(f[k].id)
  }

  predicate OfFamily(a: Action, family: Family) {
    IsShown(a) && ChoiceOf(a.id).value.family == family
  }

  /** Every choice that the space offers for a family resolves if and only if the family's actions form a
    * full product. */
  lemma ChoicesResolveIffFullProduct(f: seq<Action>, family: Family)
    ensures (forall d, m :: Lists(TuningSpace(f), family, d, m) ==> Resolves(f, Choice(family, d, m))) <==> IsFullProduct(f, family)
  {
    forall d, m ensures Lists(TuningSpace(f), family, d, m) <==> HasDirection(f, family, d) && HasMagnitude(f, family, m) {
      SpaceIsExact(f, family, d, m);
    }
    if IsFullProduct(f, family) {
      forall d, m | HasDirection(f, family, d) && HasMagnitude(f, family, m) ensures Resolves(f, Choice(family, d, m)) {
        ProductResolves(f, family, d, m);
      }
    }
    if forall d, m :: Lists(TuningSpace(f), family, d, m) ==> Resolves(f, Choice(family, d, m)) {
      forall a, b | a in f && b in f && OfFamily(a, family) && OfFamily(b, family)
        ensures Resolves(f, Crossed(a, b))
      {
        var d, m := ChoiceOf(a.id).value.direction, ChoiceOf(b.id).value.magnitude;
        assert HasDirection(f, family, d) && HasMagnitude(f, family, m);
        assert Lists(TuningSpace(f), family, d, m) && Crossed(a, b) == Choice(family, d, m);
      }
      ResolvingIsAProduct(f, family);
    }
  }

  lemma FitsFamily(a: Action, c: Choice)
    requires Fits(a, c) && !Hidden(c.family)
    ensures OfFamily(a, c.family)
  {
  }

  lemma AtMostOneFits(f: seq<Action>, c: Choice)
    requires !Hidden(c.family) && NoneTwice(f, c.family)
    ensures |Matches(f, c)| <= 1
  {
    ManyMatch(f, c);
    forall j, k | 0 <= j < k < |f| && Fits(f[j], c) && Fits(f[k], c) ensures false {
      FitsFamily(f[j], c);
      FitsFamily(f[k], c);
    }
  }

  lemma OfferedMatches(f: seq<Action>, c: Choice)
    requires IsOffered(f, c)
    ensures |Matches(f, c)| > 0
  {
    NoneMatch(f, c);
    var a :| a in f && Fits(a, c);
    var k :| 0 <= k < |f| && f[k] == a;
  }

  lemma CrossedMatches(f: seq<Action>, a: Action, b: Action, family: Family)
    requires AllCombined(f, family) && a in f && b in f && OfFamily(a, family) && OfFamily(b, family)
    ensures Crossed(a, b) == Choice(family, ChoiceOf(a.id).value.direction, ChoiceOf(b.id).value.magnitude)
    ensures |Matches(f, Crossed(a, b))| > 0
  {
    OfferedMatches(f, Crossed(a, b));
  }

  lemma SomeFit(f: seq<Action>, family: Family, d: Direction, m: Magnitude)
    requires AllCombined(f, family) && HasDirection(f, family, d) && HasMagnitude(f, family, m)
    ensures |Matches(f, Choice(family, d, m))| > 0
  {
    var a :| a in f && OfFamily(a, family) && ChoiceOf(a.id).value.direction == d;
    var b :| b in f && OfFamily(b, family) && ChoiceOf(b.id).value.magnitude == m;
    CrossedMatches(f, a, b, family);
  }

  lemma ProductResolves(f: seq<Action>, family: Family, d: Direction, m: Magnitude)
    requires IsFullProduct(f, family) && !Hidden(family) && HasDirection(f, family, d) && HasMagnitude(f, family, m)
    ensures Resolves(f, Choice(family, d, m))
  {
    SomeFit(f, family, d, m);
    AtMostOneFits(f, Choice(family, d, m));
  }

  lemma ResolvingIsAProduct(f: seq<Action>, family: Family)
    requires forall a, b | a in f && b in f && OfFamily(a, family) && OfFamily(b, family) :: Resolves(f, Crossed(a, b))
    ensures IsFullProduct(f, family)
  {
    forall a, b | a in f && b in f && OfFamily(a, family) && OfFamily(b, family) ensures IsOffered(f, Crossed(a, b)) {
      ResolvesToTheOnlyOne(f, Crossed(a, b));
    }
    forall j, k | 0 <= j < k < |f| && OfFamily(f[j], family) && OfFamily(f[k], family)
      ensures ChoiceOf(f[j].id) != ChoiceOf(f[k].id)
    {
      var c := ChoiceOf(f[j].id).value;
      assert Resolves(f, Crossed(f[j], f[j])) && Crossed(f[j], f[j]) == c;
      ManyMatch(f, c);
    }
  }
}
