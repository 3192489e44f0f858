/** The output stage of the MeatPack decoder: it puts a space before the parameter letters of a
  * G-line and drops blank lines.  Every definition below looks at a text through its last byte. */
module GcodeFormatter {
  import opened Bytes

  const LETTER_G: Byte := 71
  const PARAMETERS: set<Byte> := {88, 89, 90, 69, 70, 73, 74, 82, 83, 80, 87, 72, 67, 65}

  datatype Format = Format(output: seq<Byte>, addSpace: bool)

  const EMPTY := Format([], false)

  predicate EndsWith(s: seq<Byte>, v: Byte) {
    s != [] && s[|s| - 1] == v
  }

  /** One character of `flush_pending_output`. */
  function FormatStep(f: Format, value: Byte): Format {
    var newLine := value == LETTER_G && (f.output == [] || EndsWith(f.output, NEWLINE));
    var addSpace := if newLine then true else if value == NEWLINE then false else f.addSpace;
    var wantsSpace := !newLine && addSpace && !EndsWith(f.output, SPACE) && value in PARAMETERS;
    var spaced := if wantsSpace then f.output + [SPACE] else f.output;
    Format(if value != NEWLINE || !EndsWith(spaced, NEWLINE) then spaced + [value] else spaced, addSpace)
  }

  function FormatFrom(f: Format, s: seq<Byte>): Format {
    if s == [] then f else FormatStep(FormatFrom(f, s[..|s| - 1]), s[|s| - 1])
  }

  function Formatted(s: seq<Byte>): seq<Byte> {
    FormatFrom(EMPTY, s).output
  }

  // ----- What the text looks like, independently of the state machine -----

  /** The line that is still open at the end of `s` begins with G. */
  predicate OnGLine(s: seq<Byte>) {
    if s == [] then false
    else
      var p, v := s[..|s| - 1], s[|s| - 1];
      v != NEWLINE && if p == [] || EndsWith(p, NEWLINE) then v == LETTER_G else OnGLine(p)
  }

  /** The normal form the formatter is for: no byte breaks one of its two rules. */
  predicate IsFormatted(s: seq<Byte>) {
    s != [] ==> IsFormatted(s[..|s| - 1]) && Allowed(s[..|s| - 1], s[|s| - 1])
  }

  /** After `p`, `v` is neither a second newline nor an unspaced parameter letter of a G-line. */
  predicate Allowed(p: seq<Byte>, v: Byte) {
    && !(v == NEWLINE && EndsWith(p, NEWLINE))
    && (OnGLine(p) && v in PARAMETERS ==> EndsWith(p, SPACE))
  }

  /** The bytes of a text that the formatter neither adds nor removes. */
  function Ink(s: seq<Byte>): seq<Byte> {
    if s == [] then []
    else if s[|s| - 1] in {SPACE, NEWLINE} then Ink(s[..|s| - 1])
    else Ink(s[..|s| - 1]) + [s[|s| - 1]]
  }

  lemma Snoc(p: seq<Byte>, v: Byte)
    ensures (p + [v])[..|p|] == p && EndsWith(p + [v], v)
    ensures OnGLine(p + [v]) <==>
            v != NEWLINE && if p == [] || EndsWith(p, NEWLINE) then v == LETTER_G else OnGLine(p)
    ensures IsFormatted(p + [v]) <==> IsFormatted(p) && Allowed(p, v)
    ensures Ink(p + [v]) == if v in {SPACE, NEWLINE} then Ink(p) else Ink(p) + [v]
  {
    assert (p + [v])[..|p|] == p;
  }

  lemma OpenLineIsNotEmpty(s: seq<Byte>)
    ensures OnGLine(s) ==> s != [] && !EndsWith(s, NEWLINE)
  {
  }

  /** Position `i` is on a line that begins with G, behind the G. */
  predicate BehindG(s: seq<Byte>, i: nat)
    requires i <= |s|
  {
    exists j | 0 <= j < i :: BeginsWithG(s, j) && (forall k | j <= k < i :: s[k] != NEWLINE)
  }

  predicate BeginsWithG(s: seq<Byte>, j: nat)
    requires j < |s|
  {
    s[j] == LETTER_G && (j > 0 ==> s[j - 1] == NEWLINE)
  }

  /** One position further. */
  lemma NextBehindG(s: seq<Byte>, i: nat)
    requires i < |s|
    ensures BehindG(s, i + 1) <==> s[i] != NEWLINE && (BeginsWithG(s, i) || BehindG(s, i))
  {
    if BehindG(s, i + 1) {
      var j :| 0 <= j < i + 1 && BeginsWithG(s, j) && (forall k | j <= k < i + 1 :: s[k] != NEWLINE);
      assert s[i] != NEWLINE;
    }
  }

  lemma NotBehindG(s: seq<Byte>, i: nat)
    requires 0 < i <= |s| && s[i - 1] == NEWLINE
    ensures !BehindG(s, i)
  {
    NextBehindG(s, i - 1);
  }

  lemma {:induction false} GLinesByPosition(s: seq<Byte>, i: nat)
    requires i <= |s|
    ensures OnGLine(s[..i]) <==> BehindG(s, i)
  {
    if i > 0 {
      assert s[..i][..i - 1] == s[..i - 1];
      GLinesByPosition(s, i - 1);
      NextBehindG(s, i - 1);
      if i > 1 && s[i - 2] == NEWLINE {
        NotBehindG(s, i - 1);
      }
    }
  }

  /** What the two rules of the normal form ask of position `i`. */
  predicate IsTidyAt(s: seq<Byte>, i: nat)
    requires i < |s|
  {
    && !(i > 0 && s[i - 1] == NEWLINE && s[i] == NEWLINE)
    && (BehindG(s, i) && s[i] in PARAMETERS ==> s[i - 1] == SPACE)
  }

  lemma TidyAtEnd(s: seq<Byte>, i: nat)
    requires i < |s|
    ensures IsTidyAt(s, i) <==> Allowed(s[..i], s[i])
  {
    GLinesByPosition(s, i);
  }

  lemma TidyInPrefix(s: seq<Byte>, n: nat, i: nat)
    requires i < n <= |s|
    ensures IsTidyAt(s[..n], i) <==> IsTidyAt(s, i)
  {
    assert s[..n][..i] == s[..i];
    GLinesByPosition(s, i);
    GLinesByPosition(s[..n], i);
  }

  /** The normal form read as two rules about positions. */
  lemma {:induction false} NormalFormByPosition(s: seq<Byte>)
    ensures IsFormatted(s) <==> forall i | 0 <= i < |s| :: IsTidyAt(s, i)
  {
    if s != [] {
      var n := |s| - 1;
      NormalFormByPosition(s[..n]);
      forall i | 0 <= i < n ensures IsTidyAt(s[..n], i) <==> IsTidyAt(s, i) {
        TidyInPrefix(s, n, i);
      }
      TidyAtEnd(s, n);
    }
  }

  /** What the state says about the text: `addSpace` is set exactly when the open line begins with G, and
    * the text is in normal form. */
  ghost predicate Sound(f: Format) {
    (f.addSpace <==> OnGLine(f.output)) && IsFormatted(f.output)
  }

  lemma SpaceKeepsForm(p: seq<Byte>)
    requires IsFormatted(p) && OnGLine(p)
    ensures IsFormatted(p + [SPACE]) && OnGLine(p + [SPACE]) && EndsWith(p + [SPACE], SPACE) && p + [SPACE] != []
  {
    Snoc(p, SPACE);
    OpenLineIsNotEmpty(p);
  }

  lemma StepIsSound(f: Format, value: Byte)
    requires Sound(f)
    ensures Sound(FormatStep(f, value))
  {
    var out := f.output;
    OpenLineIsNotEmpty(out);
    if OnGLine(out) && !EndsWith(out, SPACE) && value in PARAMETERS {
      SpaceKeepsForm(out);
      Snoc(out + [SPACE], value);
    } else {
      Snoc(out, value);
    }
  }

  /** Over every input: spaces are armed exactly on G-lines, no two newlines are adjacent, and every
    * parameter letter of a G-line has a space before it. */
  lemma {:induction false} FormatterInvariant(s: seq<Byte>)
    ensures Sound(FormatFrom(EMPTY, s))
  {
    if s != [] {
      FormatterInvariant(s[..|s| - 1]);
      StepIsSound(FormatFrom(EMPTY, s[..|s| - 1]), s[|s| - 1]);
    }
  }

  /** Flush boundaries do not matter: formatting a batch and then another is formatting both at once. */
  lemma {:induction false} FlushBoundariesDoNotMatter(f: Format, a: seq<Byte>, b: seq<Byte>)
    ensures FormatFrom(f, a + b) == FormatFrom(FormatFrom(f, a), b)
    decreases |b|
  {
    if b == [] {
      assert a + b == a;
    } else {
      assert (a + b)[..|a + b| - 1] == a + b[..|b| - 1];
      FlushBoundariesDoNotMatter(f, a, b[..|b| - 1]);
    }
  }

  lemma StepKeepsNormalForm(p: seq<Byte>, v: Byte)
    requires Allowed(p, v)
    ensures FormatStep(Format(p, OnGLine(p)), v) == Format(p + [v], OnGLine(p + [v]))
  {
    Snoc(p, v);
    OpenLineIsNotEmpty(p);
  }

  /** A text already in normal form goes through unchanged. */
  lemma {:induction false} FormattedTextIsFixed(s: seq<Byte>)
    requires IsFormatted(s)
    ensures FormatFrom(EMPTY, s) == Format(s, OnGLine(s))
  {
    if s != [] {
      var p, v := s[..|s| - 1], s[|s| - 1];
      assert s == p + [v];
      FormattedTextIsFixed(p);
      StepKeepsNormalForm(p, v);
    }
  }

  /** The formatter's fixed points are exactly the texts in normal form, so it is idempotent. */
  lemma FixedPointsAreNormalForms(s: seq<Byte>)
    ensures Formatted(s) == s <==> IsFormatted(s)
    ensures Formatted(Formatted(s)) == Formatted(s)
  {
    FormatterInvariant(s);
    if IsFormatted(s) {
      FormattedTextIsFixed(s);
    }
    FormattedTextIsFixed(Formatted(s));
  }

  /** Nothing but spaces and newlines is ever added, dropped or moved. */
  lemma {:induction false} InkIsConserved(s: seq<Byte>)
    ensures Ink(Formatted(s)) == Ink(s)
  {
    if s != [] {
      var p, v := s[..|s| - 1], s[|s| - 1];
      InkIsConserved(p);
      Snoc(Formatted(p), v);
      Snoc(Formatted(p), SPACE);
      Snoc(Formatted(p) + [SPACE], v);
    }
  }

  /** The output's open line begins with G exactly when the input's does. */
  lemma {:induction false} LinesAreKept(s: seq<Byte>)
    ensures FormatFrom(EMPTY, s).addSpace <==> OnGLine(s)
    ensures Formatted(s) == [] <==> s == []
    ensures EndsWith(Formatted(s), NEWLINE) <==> EndsWith(s, NEWLINE)
  {
    if s != [] {
      LinesAreKept(s[..|s| - 1]);
    }
  }

  // ----- The output, position by position -----

  /** The text without each newline directly behind a newline. */
  function Collapsed(s: seq<Byte>): seq<Byte> {
    if s == [] then []
    else
      var n := |s| - 1;
      Collapsed(s[..n]) + if n > 0 && s[n - 1] == NEWLINE && s[n] == NEWLINE then [] else [s[n]]
  }

  predicate NoBlankLines(s: seq<Byte>) {
    forall i :: 0 < i < |s| ==> !(s[i - 1] == NEWLINE && s[i] == NEWLINE)
  }

  lemma {:induction false} CollapsedEnds(s: seq<Byte>)
    ensures Collapsed(s) == [] <==> s == []
    ensures EndsWith(Collapsed(s), NEWLINE) <==> EndsWith(s, NEWLINE)
  {
    if s != [] {
      CollapsedEnds(s[..|s| - 1]);
    }
  }

  lemma NoBlankLineAdded(so: seq<Byte>, v: Byte)
    requires NoBlankLines(so) && !(EndsWith(so, NEWLINE) && v == NEWLINE)
    ensures NoBlankLines(so + [v])
  {
  }

  lemma {:induction false} CollapsedHasNoBlankLines(s: seq<Byte>)
    ensures NoBlankLines(Collapsed(s))
  {
    if s != [] {
      var p, v := s[..|s| - 1], s[|s| - 1];
      CollapsedHasNoBlankLines(p);
      CollapsedEnds(p);
      if !(EndsWith(p, NEWLINE) && v == NEWLINE) {
        NoBlankLineAdded(Collapsed(p), v);
      }
    }
  }

  lemma NoBlankLinesBefore(s: seq<Byte>)
    requires s != [] && NoBlankLines(s)
    ensures NoBlankLines(s[..|s| - 1])
  {
    assert forall i | 0 <= i < |s| - 1 :: s[..|s| - 1][i] == s[i];
  }

  lemma {:induction false} NothingToCollapse(s: seq<Byte>)
    requires NoBlankLines(s)
    ensures Collapsed(s) == s
  {
    if s != [] {
      NoBlankLinesBefore(s);
      NothingToCollapse(s[..|s| - 1]);
      assert s == s[..|s| - 1] + [s[|s| - 1]];
    }
  }

  /** Dropping blank lines first makes no difference. */
  lemma {:induction false} BlankLinesDoNotMatter(s: seq<Byte>)
    ensures FormatFrom(EMPTY, s) == FormatFrom(EMPTY, Collapsed(s))
  {
    if s != [] {
      var p, v := s[..|s| - 1], s[|s| - 1];
      BlankLinesDoNotMatter(p);
      if p != [] && p[|p| - 1] == NEWLINE && v == NEWLINE {
        LinesAreKept(p);
        OpenLineIsNotEmpty(p);
        assert Collapsed(s) == Collapsed(p);
      } else {
        FormatSnoc(EMPTY, Collapsed(p), v);
      }
    }
  }

  /** A parameter letter behind the G of a G-line that has no space before it. */
  predicate WantsSpace(s: seq<Byte>, i: nat)
    requires i < |s|
  {
    BehindG(s, i) && s[i] in PARAMETERS && s[i - 1] != SPACE
  }

  /** How many there are before position `n`. */
  function Wanting(s: seq<Byte>, n: nat): nat
    requires n <= |s|
  {
    if n == 0 then 0 else Wanting(s, n - 1) + if WantsSpace(s, n - 1) then 1 else 0
  }

  /** Their places. */
  function WantingAt(s: seq<Byte>, n: nat): set<nat>
    requires n <= |s|
  {
    set i: nat | i < n && WantsSpace(s, i)
  }

  lemma OneMoreWanting(s: seq<Byte>, n: nat)
    requires n < |s|
    ensures WantingAt(s, n + 1) == WantingAt(s, n) + if WantsSpace(s, n) then {n} else {}
    ensures n !in WantingAt(s, n)
  {
  }

  lemma {:induction false} WantingCounts(s: seq<Byte>, n: nat)
    requires n <= |s|
    ensures Wanting(s, n) == |WantingAt(s, n)|
  {
    if n > 0 {
      WantingCounts(s, n - 1);
      OneMoreWanting(s, n - 1);
    }
  }

  /** Character `i` of `s` stands in `out` moved on by the letters up to it that wanted a space, and, if it is
    * one of them, with that space directly before it. */
  predicate IsPlaced(s: seq<Byte>, out: seq<Byte>, i: nat)
    requires i < |s|
  {
    && i + Wanting(s, i + 1) < |out| && out[i + Wanting(s, i + 1)] == s[i]
    && (WantsSpace(s, i) ==> out[i + Wanting(s, i)] == SPACE)
  }

  /** So do all, and there is nothing else in `out`. */
  predicate IsSpaced(s: seq<Byte>, out: seq<Byte>) {
    |out| == |s| + Wanting(s, |s|) && forall i | 0 <= i < |s| :: IsPlaced(s, out, i)
  }

  lemma PlacedStays(s: seq<Byte>, n: nat, out: seq<Byte>, more: seq<Byte>, i: nat)
    requires i < n <= |s| && out <= more && IsPlaced(s[..n], out, i)
    ensures IsPlaced(s, more, i)
  {
    SameWanting(s, n, i);
    SameWanting(s, n, i + 1);
    SameWants(s, n, i);
  }

  lemma SpacedSnoc(s: seq<Byte>, out: seq<Byte>, more: seq<Byte>)
    requires s != [] && IsSpaced(s[..|s| - 1], out)
    requires more == out + (if WantsSpace(s, |s| - 1) then [SPACE] else []) + [s[|s| - 1]]
    ensures IsSpaced(s, more)
  {
    var n := |s| - 1;
    SameWanting(s, n, n);
    forall i | 0 <= i < |s| ensures IsPlaced(s, more, i) {
      if i < n {
        PlacedStays(s, n, out, more, i);
      }
    }
  }

  lemma SameWants(s: seq<Byte>, n: nat, i: nat)
    requires i < n <= |s|
    ensures WantsSpace(s[..n], i) <==> WantsSpace(s, i)
  {
    assert s[..n][..i] == s[..i];
    GLinesByPosition(s, i);
    GLinesByPosition(s[..n], i);
  }

  lemma {:induction false} SameWanting(s: seq<Byte>, n: nat, i: nat)
    requires i <= n <= |s|
    ensures Wanting(s[..n], i) == Wanting(s, i)
    decreases i
  {
    if i > 0 {
      SameWanting(s, n, i - 1);
      SameWants(s, n, i - 1);
    }
  }

  lemma WantsAtTheEnd(p: seq<Byte>, v: Byte)
    ensures WantsSpace(p + [v], |p|) <==> OnGLine(p) && v in PARAMETERS && !EndsWith(p, SPACE)
  {
    var s := p + [v];
    assert s[..|p|] == p && (p != [] ==> s[|p| - 1] == p[|p| - 1]);
    GLinesByPosition(s, |p|);
    OpenLineIsNotEmpty(p);
  }

  /** One more character of a text without blank lines. */
  lemma StepWritesSpaced(p: seq<Byte>, v: Byte, f: Format)
    requires !(v == NEWLINE && EndsWith(p, NEWLINE))
    requires (f.output == [] <==> p == []) && (f.addSpace <==> OnGLine(p))
    requires forall x :: EndsWith(f.output, x) <==> EndsWith(p, x)
    ensures FormatStep(f, v).output == f.output + (if WantsSpace(p + [v], |p|) then [SPACE] else []) + [v]
  {
    WantsAtTheEnd(p, v);
    OpenLineIsNotEmpty(p);
    assert f.output + [] == f.output;
  }

  /** What comes out of a text without blank lines: the text, with a single space put directly before each
    * parameter letter of a G-line that had none, and nothing else. */
  lemma {:induction false} FormattedIsSpaced(s: seq<Byte>)
    requires NoBlankLines(s)
    ensures IsSpaced(s, Formatted(s))
    ensures s != [] ==> EndsWith(Formatted(s), s[|s| - 1])
  {
    if s != [] {
      var p, v := s[..|s| - 1], s[|s| - 1];
      assert s == p + [v];
      NoBlankLinesBefore(s);
      FormattedIsSpaced(p);
      LinesAreKept(p);
      StepWritesSpaced(p, v, FormatFrom(EMPTY, p));
      SpacedSnoc(s, Formatted(p), Formatted(s));
    }
  }

  /** Only one sequence is spaced so. */
  lemma SpacedIsUnique(s: seq<Byte>, a: seq<Byte>, b: seq<Byte>)
    requires IsSpaced(s, a) && IsSpaced(s, b)
    ensures a == b
  {
    forall k | 0 <= k < |a| ensures a[k] == b[k] {
      var i := SpacedAt(s, |s|, k);
      assert IsPlaced(s, a, i) && IsPlaced(s, b, i);
    }
  }

  /** Every position of the output is that of a character or of the space before one. */
  lemma {:induction false} SpacedAt(s: seq<Byte>, n: nat, k: nat) returns (i: nat)
    requires n <= |s| && k < n + Wanting(s, n)
    ensures i < n && (k == i + Wanting(s, i + 1) || (WantsSpace(s, i) && k == i + Wanting(s, i)))
    decreases n
  {
    if k < n - 1 + Wanting(s, n - 1) {
      i := SpacedAt(s, n - 1, k);
    } else {
      i := n - 1;
    }
  }

  /** The whole output stage: blank lines go, and then the wanted spaces come. */
  lemma FormattedMeans(s: seq<Byte>)
    ensures Formatted(s) == Formatted(Collapsed(s)) && IsSpaced(Collapsed(s), Formatted(s))
    ensures |Formatted(s)| == |Collapsed(s)| + |WantingAt(Collapsed(s), |Collapsed(s)|)|
    ensures forall out | IsSpaced(Collapsed(s), out) :: out == Formatted(s)
    ensures (forall i | 0 <= i <= |Collapsed(s)| :: !BehindG(Collapsed(s), i)) ==> Formatted(s) == Collapsed(s)
  {
    var c := Collapsed(s);
    BlankLinesDoNotMatter(s);
    CollapsedHasNoBlankLines(s);
    FormattedIsSpaced(c);
    WantingCounts(c, |c|);
    forall out | IsSpaced(c, out) ensures out == Formatted(s) {
      SpacedIsUnique(c, out, Formatted(s));
    }
    if forall i | 0 <= i <= |c| :: !BehindG(c, i) {
      SpacedAlready(c);
      SpacedIsUnique(c, c, Formatted(s));
    }
  }

  lemma {:induction false} NoneWanted(s: seq<Byte>, n: nat)
    requires n <= |s| && forall i | 0 <= i <= |s| :: !BehindG(s, i)
    ensures Wanting(s, n) == 0
  {
    if n > 0 {
      NoneWanted(s, n - 1);
    }
  }

  lemma SpacedAlready(s: seq<Byte>)
    requires forall i | 0 <= i <= |s| :: !BehindG(s, i)
    ensures IsSpaced(s, s)
  {
    NoneWanted(s, |s|);
    forall i | 0 <= i < |s| ensures IsPlaced(s, s, i) {
      NoneWanted(s, i + 1);
    }
  }

  /** The letters that are spaced, and the letter that begins a G-line. */
  lemma LettersByName(c: char)
    ensures c as int < 256 ==> (c as int in PARAMETERS <==> c in "XYZEFIJRSPWHCA")
    ensures LETTER_G == 'G' as int && SPACE == ' ' as int && NEWLINE == '\n' as int
  {
  }

  // ----- Texts without spaces on their G-lines -----

  /** What an encoder removes before it packs in no-spaces mode: every space of every G-line. */
  function WithoutGSpaces(s: seq<Byte>): seq<Byte> {
    if s == [] then []
    else if EndsInGSpace(s) then WithoutGSpaces(s[..|s| - 1])
    else WithoutGSpaces(s[..|s| - 1]) + [s[|s| - 1]]
  }

  predicate EndsInGSpace(s: seq<Byte>) {
    EndsWith(s, SPACE) && OnGLine(s[..|s| - 1])
  }

  /** Every space of a G-line that has a byte after it has a parameter letter after it. */
  predicate GSpacesMeetLetters(s: seq<Byte>) {
    s != [] ==>
      && GSpacesMeetLetters(s[..|s| - 1])
      && (EndsInGSpace(s[..|s| - 1]) ==> s[|s| - 1] in PARAMETERS)
  }

  /** Every space of a G-line stands immediately before a parameter letter. */
  predicate GSpacesOnlyBeforeLetters(s: seq<Byte>) {
    GSpacesMeetLetters(s) && !EndsInGSpace(s)
  }

  lemma SnocGSpace(p: seq<Byte>, v: Byte)
    ensures GSpacesMeetLetters(p + [v]) <==> GSpacesMeetLetters(p) && (EndsInGSpace(p) ==> v in PARAMETERS)
    ensures EndsInGSpace(p + [v]) <==> v == SPACE && OnGLine(p)
  {
    assert (p + [v])[..|p|] == p;
  }

  lemma StepRestoresSpace(q: seq<Byte>, v: Byte)
    requires OnGLine(q) && v in PARAMETERS && GSpacesMeetLetters(q + [SPACE])
    ensures FormatStep(Format(q, true), v) == Format(q + [SPACE] + [v], true)
  {
    SnocGSpace(q, SPACE);
    OpenLineIsNotEmpty(q);
    assert !EndsInGSpace(q);
    OpenLineIsNotEmpty(q[..|q| - 1]);
  }

  /** What the formatter has put out once the stripped form of `s` has gone through it: all of `s`, but
    * for a space that still waits for its letter. */
  function Restored(s: seq<Byte>): Format {
    Format(if EndsInGSpace(s) then s[..|s| - 1] else s, OnGLine(s))
  }

  lemma RestoredStep(p: seq<Byte>, v: Byte)
    requires Allowed(p, v) && GSpacesMeetLetters(p + [v]) && !EndsInGSpace(p + [v])
    ensures FormatStep(Restored(p), v) == Restored(p + [v])
  {
    Snoc(p, v);
    SnocGSpace(p, v);
    if EndsInGSpace(p) {
      var q := p[..|p| - 1];
      assert p == q + [SPACE];
      Snoc(q, SPACE);
      OpenLineIsNotEmpty(q);
      StepRestoresSpace(q, v);
    } else {
      StepKeepsNormalForm(p, v);
    }
  }

  lemma RestoredGap(p: seq<Byte>)
    requires OnGLine(p) && GSpacesMeetLetters(p)
    ensures IsFormatted(p + [SPACE]) && GSpacesMeetLetters(p + [SPACE]) ==> Restored(p + [SPACE]) == Restored(p)
  {
    Snoc(p, SPACE);
    SnocGSpace(p, SPACE);
    OpenLineIsNotEmpty(p);
  }

  lemma FormatSnoc(f: Format, w: seq<Byte>, v: Byte)
    ensures FormatFrom(f, w + [v]) == FormatStep(FormatFrom(f, w), v)
  {
    assert (w + [v])[..|w|] == w;
  }

  /** The formatter puts back exactly the spaces that were stripped. */
  lemma {:induction false} RestoredSoFar(s: seq<Byte>)
    requires IsFormatted(s) && GSpacesMeetLetters(s)
    ensures FormatFrom(EMPTY, WithoutGSpaces(s)) == Restored(s)
  {
    if s != [] {
      var p, v := s[..|s| - 1], s[|s| - 1];
      RestoredSoFar(p);
      assert s == p + [v];
      if EndsInGSpace(s) {
        RestoredGap(p);
      } else {
        FormatSnoc(EMPTY, WithoutGSpaces(p), v);
        RestoredStep(p, v);
      }
    }
  }

  lemma StepSpacesMeetLetters(f: Format, v: Byte)
    requires Sound(f) && GSpacesOnlyBeforeLetters(f.output)
    requires !(v == SPACE && f.addSpace)
    ensures GSpacesOnlyBeforeLetters(FormatStep(f, v).output)
  {
    SnocGSpace(f.output, v);
    SnocGSpace(f.output, SPACE);
    Snoc(f.output, SPACE);
    SnocGSpace(f.output + [SPACE], v);
  }

  /** Stripping keeps the line structure. */
  lemma {:induction false} StrippedLines(s: seq<Byte>)
    ensures OnGLine(WithoutGSpaces(s)) <==> OnGLine(s)
    ensures WithoutGSpaces(s) == [] <==> s == []
    ensures EndsWith(WithoutGSpaces(s), NEWLINE) <==> EndsWith(s, NEWLINE)
  {
    if s != [] {
      var p, v := s[..|s| - 1], s[|s| - 1];
      StrippedLines(p);
      Snoc(WithoutGSpaces(p), v);
      OpenLineIsNotEmpty(p);
    }
  }

  /** A text stripped of its G-line spaces comes out with a space only where a letter asked for one. */
  lemma {:induction false} InsertedSpacesMeetLetters(s: seq<Byte>)
    ensures GSpacesOnlyBeforeLetters(Formatted(WithoutGSpaces(s)))
  {
    if s != [] {
      var p, v := s[..|s| - 1], s[|s| - 1];
      InsertedSpacesMeetLetters(p);
      if !EndsInGSpace(s) {
        var w := WithoutGSpaces(p);
        assert (w + [v])[..|w|] == w;
        StrippedLines(p);
        LinesAreKept(w);
        FormatterInvariant(w);
        StepSpacesMeetLetters(FormatFrom(EMPTY, w), v);
      }
    }
  }

  /** A space at position `i` of a G-line stands before a parameter letter. */
  predicate IsSparseAt(s: seq<Byte>, i: nat)
    requires i < |s|
  {
    BehindG(s, i) && s[i] == SPACE ==> i + 1 < |s| && s[i + 1] in PARAMETERS
  }

  /** The canonical texts: no blank lines, and on each G-line a space before every parameter letter and
    * nowhere else. */
  predicate IsCanonical(s: seq<Byte>) {
    forall i | 0 <= i < |s| :: IsTidyAt(s, i) && IsSparseAt(s, i)
  }

  lemma GSpaceAt(s: seq<Byte>, i: nat)
    requires i < |s|
    ensures EndsInGSpace(s[..i + 1]) <==> BehindG(s, i) && s[i] == SPACE
  {
    assert s[..i + 1][..i] == s[..i];
    GLinesByPosition(s, i);
  }

  lemma {:induction false} GSpacesByPosition(s: seq<Byte>, n: nat)
    requires n <= |s|
    ensures GSpacesMeetLetters(s[..n]) <==> forall i | 0 <= i < n - 1 :: BehindG(s, i) && s[i] == SPACE ==> s[i + 1] in PARAMETERS
  {
    if n > 0 {
      assert s[..n][..n - 1] == s[..n - 1];
      GSpacesByPosition(s, n - 1);
      if n > 1 {
        GSpaceAt(s, n - 2);
      }
    }
  }

  lemma CanonicalByPosition(s: seq<Byte>)
    ensures IsFormatted(s) && GSpacesOnlyBeforeLetters(s) <==> IsCanonical(s)
  {
    assert s[..|s|] == s;
    NormalFormByPosition(s);
    GSpacesByPosition(s, |s|);
    if s != [] {
      assert s[..|s| - 1 + 1] == s;
      GSpaceAt(s, |s| - 1);
    }
    if IsCanonical(s) {
      assert forall i | 0 <= i < |s| :: BehindG(s, i) ==> IsTidyAt(s, i) && IsSparseAt(s, i);
    }
  }

  /** Formatting undoes the stripping on exactly the canonical texts. */
  lemma StrippingIsUndone(s: seq<Byte>)
    ensures Formatted(WithoutGSpaces(s)) == s <==> IsCanonical(s)
  {
    FormatterInvariant(WithoutGSpaces(s));
    InsertedSpacesMeetLetters(s);
    CanonicalByPosition(s);
    if IsFormatted(s) && GSpacesOnlyBeforeLetters(s) {
      RestoredSoFar(s);
    }
  }
}
