/** Which texts come back when the signal byte is among their characters. */
module MeatPackSignals {
  import opened Wrappers
  import opened Bytes
  import opened GcodeFormatter
  import opened MeatPack
  import opened MeatPackCodec

  lemma DropFront(a: seq<Byte>, b: seq<Byte>, n: nat)
    requires n <= |a|
    ensures (a + b)[n..] == a[n..] + b
  {
  }

  lemma SameFirstPiece(a: seq<Byte>, b: seq<Byte>, noSpaces: bool)
    requires a != [] && Width(a) <= |a|
    ensures a + b != [] && Width(a + b) == Width(a) <= |a + b| && FirstPiece(a + b, noSpaces) == FirstPiece(a, noSpaces)
  {
    assert (a + b)[0] == a[0];
    if a[0] != NEWLINE {
      assert (a + b)[1] == a[1];
    }
  }

  lemma PackHead(text: seq<Byte>, noSpaces: bool, piece: seq<Byte>, rest: seq<Byte>)
    requires text != [] && Width(text) <= |text| && piece == FirstPiece(text, noSpaces) && rest == text[Width(text)..]
    ensures Pack(text, noSpaces) == piece + Pack(rest, noSpaces) && (IsPaired(text) <==> IsPaired(rest))
  {
  }

  lemma {:induction false} PackConcat(a: seq<Byte>, b: seq<Byte>, noSpaces: bool)
    requires IsPaired(a)
    ensures Pack(a + b, noSpaces) == Pack(a, noSpaces) + Pack(b, noSpaces)
    ensures IsPaired(a + b) <==> IsPaired(b)
    decreases |a|
  {
    if a == [] {
      assert a + b == b;
    } else {
      var piece, rest := FirstPiece(a, noSpaces), a[Width(a)..];
      PackConcat(rest, b, noSpaces);
      SameFirstPiece(a, b, noSpaces);
      DropFront(a, b, Width(a));
      PackHead(a, noSpaces, piece, rest);
      PackHead(a + b, noSpaces, piece, rest + b);
      Associate(piece, Pack(rest, noSpaces), Pack(b, noSpaces));
    }
  }

  lemma OneAfterEscape(u: Unpacker, a: Byte)
    requires u.commandActive && u.commandCount == 0 && u.unbinarizing && u.fullCharQueue == 0
    ensures Unpack(u, [a]) == []
  {
    UnpackHead(u, a, []);
    assert [a] + [] == [a];
  }

  lemma TwoAfterEscape(u: Unpacker, a: Byte, b: Byte)
    requires u.commandActive && u.commandCount == 0
    ensures |Unpack(u, [a] + [b])| <= 2
  {
    UnpackHead(u, a, [b]);
    UnpackHead(Feed(u, a).0, b, []);
    assert [b] + [] == [b];
  }

  /** A pair that the decoder cannot tell from a command. */
  predicate IsUnpackedPair(a: Byte, b: Byte, noSpaces: bool) {
    NibbleOf(a, noSpaces) == 15 && NibbleOf(b, noSpaces) == 15
  }

  lemma BreaksInside(so: seq<Byte>, b: Byte, noSpaces: bool)
    requires Survives(so, noSpaces) && !EndsWith(Pack(so, noSpaces), SIGNAL) && IsUnpackedPair(SIGNAL, b, noSpaces)
    ensures |Unpack(Packing(noSpaces), Pack(so, noSpaces) + PairOf(SIGNAL, b, noSpaces))| < |so| + 2
  {
    assert PairOf(SIGNAL, b, noSpaces) == [SIGNAL] + ([SIGNAL] + [b]);
    EscapeSwallows(Packing(noSpaces), [b]);
    OneAfterEscape(Packing(noSpaces).(commandActive := true), b);
    UnpackGoesOn(so, noSpaces, PairOf(SIGNAL, b, noSpaces));
  }

  /** What the decoder puts out when the character that it waits for is a signal byte. */
  function Waiting(u: Unpacker): seq<Byte> {
    if u.charBuffer.Some? then [SIGNAL, u.charBuffer.value] else [SIGNAL]
  }

  /** When the packed bytes of a text end with a signal, the decoder still waited for that character. */
  lemma WaitingForTheLast(so: seq<Byte>, front: seq<Byte>, noSpaces: bool)
    requires IsPaired(so) && Pack(so, noSpaces) == front + [SIGNAL]
    ensures var (v, out) := Read(Packing(noSpaces), front);
            v.unbinarizing && v.noSpaces == noSpaces && v.fullCharQueue == 1 && so == out + Waiting(v)
  {
    var (v, out) := Read(Packing(noSpaces), front);
    PackedIsRead(so, noSpaces);
    ReadConcat(Packing(noSpaces), front, [SIGNAL]);
    ReadOne(v, SIGNAL);
  }

  lemma FrontIsShorter(so: seq<Byte>, front: seq<Byte>, noSpaces: bool)
    requires IsPaired(so) && Pack(so, noSpaces) == front + [SIGNAL]
    ensures |Read(Packing(noSpaces), front).1| < |so|
  {
    WaitingForTheLast(so, front, noSpaces);
  }

  lemma BreaksAcross(so: seq<Byte>, front: seq<Byte>, a: Byte, b: Byte, noSpaces: bool)
    requires Survives(so, noSpaces) && Pack(so, noSpaces) == front + [SIGNAL] && IsUnpackedPair(a, b, noSpaces)
    ensures |Unpack(Packing(noSpaces), Pack(so, noSpaces) + PairOf(a, b, noSpaces))| < |so| + 2
  {
    var rest, v := [SIGNAL] + ([SIGNAL] + ([a] + [b])), Read(Packing(noSpaces), front).0;
    CleanConcat(front, [SIGNAL]);
    FrontIsShorter(so, front, noSpaces);
    CleanIsRead(Packing(noSpaces), front, rest);
    EscapeSwallows(v, [a] + [b]);
    TwoAfterEscape(v.(commandActive := true), a, b);
    assert front + [SIGNAL] + PairOf(a, b, noSpaces) == front + rest;
  }

  lemma UncleanPiece(so: seq<Byte>, text: seq<Byte>, noSpaces: bool)
    requires Width(text) <= |text| && Clean(so) && !Clean(so + FirstPiece(text, noSpaces))
    ensures text[0] != NEWLINE && IsUnpackedPair(text[0], text[1], noSpaces) && (!EndsWith(so, SIGNAL) ==> text[0] == SIGNAL)
  {
    CleanConcat(so, FirstPiece(text, noSpaces));
  }

  lemma FirstPacked(so: seq<Byte>, text: seq<Byte>, first: seq<Byte>, noSpaces: bool)
    requires IsPaired(so) && text != [] && Width(text) <= |text| && first == text[..Width(text)]
    ensures Pack(so + first, noSpaces) == Pack(so, noSpaces) + FirstPiece(text, noSpaces)
  {
    var piece := FirstPiece(text, noSpaces);
    PackConcat(so, first, noSpaces);
    SameFirstPiece(first, text[Width(text)..], noSpaces);
    assert text == first + text[Width(text)..] && first[Width(text)..] == [] && piece + [] == piece;
  }

  /** The piece that makes the packed bytes unclean is not restored. */
  lemma PieceIsLost(so: seq<Byte>, text: seq<Byte>, first: seq<Byte>, noSpaces: bool)
    requires Survives(so, noSpaces) && text != [] && Width(text) <= |text| && first == text[..Width(text)]
    requires !Clean(Pack(so + first, noSpaces))
    ensures Unpack(Packing(noSpaces), Pack(so + first, noSpaces)) != so + first
  {
    var packed := Pack(so, noSpaces);
    FirstPacked(so, text, first, noSpaces);
    UncleanPiece(packed, text, noSpaces);
    if EndsWith(packed, SIGNAL) {
      assert packed == packed[..|packed| - 1] + [SIGNAL];
      BreaksAcross(so, packed[..|packed| - 1], text[0], text[1], noSpaces);
    } else {
      BreaksInside(so, text[1], noSpaces);
    }
  }

  /** The first `n` characters are ones at which the encoder may stop, and come back. */
  predicate ComesBack(text: seq<Byte>, n: nat, noSpaces: bool)
    requires n <= |text|
  {
    IsPaired(text[..n]) ==> Unpack(Packing(noSpaces), Pack(text[..n], noSpaces)) == text[..n]
  }

  lemma FirstIsPaired(text: seq<Byte>, first: seq<Byte>)
    requires text != [] && Width(text) <= |text| && first == text[..Width(text)]
    ensures IsPaired(first)
  {
    assert first[0] == text[0] && first[Width(first)..] == [];
  }

  lemma Start(a: seq<Byte>, b: seq<Byte>)
    ensures (a + b)[..|a|] == a
  {
  }

  lemma NextPrefix(so: seq<Byte>, text: seq<Byte>, first: seq<Byte>, rest: seq<Byte>)
    requires IsPaired(so) && IsPaired(first) && text == first + rest
    ensures IsPaired(so + first) && so + text == (so + first) + rest && (so + text)[..|so + first|] == so + first
  {
    PackConcat(so, first, false);
    Associate(so, first, rest);
    Start(so + first, rest);
  }

  /** Where the packed bytes become unclean: a clean text before, and the text that begins with the piece. */
  lemma {:induction false} FirstUnclean(all: seq<Byte>, so: seq<Byte>, text: seq<Byte>, noSpaces: bool)
    returns (before: seq<Byte>, first: seq<Byte>, after: seq<Byte>)
    requires Survives(so, noSpaces) && IsPaired(text) && all == so + text && !Clean(Pack(all, noSpaces))
    ensures all == before + after && Survives(before, noSpaces) && IsPaired(after) && after != [] && first == after[..Width(after)]
    ensures !Clean(Pack(before + first, noSpaces)) && IsPaired(before + first)
    ensures |before + first| <= |all| && all[..|before + first|] == before + first
    decreases |text|
  {
    assert so + [] == so;
    var rest := text[Width(text)..];
    before, first, after := so, text[..Width(text)], text;
    var more := so + first;
    FirstIsPaired(text, first);
    NextPrefix(so, text, first, rest);
    if Clean(Pack(more, noSpaces)) {
      before, first, after := FirstUnclean(all, more, rest, noSpaces);
    }
  }

  lemma SomethingIsLost(text: seq<Byte>, noSpaces: bool) returns (n: nat)
    requires IsPaired(text) && !Clean(Pack(text, noSpaces))
    ensures n <= |text| && !ComesBack(text, n, noSpaces)
  {
    assert [] + text == text;
    var before, first, after := FirstUnclean(text, [], text, noSpaces);
    PieceIsLost(before, after, first, noSpaces);
    n := |before + first|;
  }

  lemma CleanPrefix(text: seq<Byte>, n: nat, noSpaces: bool)
    requires n <= |text| && IsPaired(text[..n]) && Clean(Pack(text, noSpaces))
    ensures Clean(Pack(text[..n], noSpaces))
  {
    assert text == text[..n] + text[n..];
    PackConcat(text[..n], text[n..], noSpaces);
    CleanConcat(Pack(text[..n], noSpaces), Pack(text[n..], noSpaces));
  }

  /** The decoder keeps in step with the encoder, wherever that stops, exactly when no two signal bytes are
    * adjacent in what the encoder writes. */
  lemma InStepIffClean(text: seq<Byte>, noSpaces: bool)
    requires IsPaired(text)
    ensures Clean(Pack(text, noSpaces)) <==> forall n | 0 <= n <= |text| :: ComesBack(text, n, noSpaces)
  {
    if Clean(Pack(text, noSpaces)) {
      forall n | 0 <= n <= |text| && IsPaired(text[..n]) ensures ComesBack(text, n, noSpaces) {
        CleanPrefix(text, n, noSpaces);
        UnpackInvertsPack(text[..n], noSpaces);
      }
    } else {
      var n := SomethingIsLost(text, noSpaces);
    }
  }

  /** One signal byte comes back; two neighbours do not. */
  lemma SignalExamples()
    ensures Survives([SIGNAL, 48, NEWLINE], false) && !Clean(Pack([SIGNAL, SIGNAL, NEWLINE], false))
  {
    var one, two, end: seq<Byte> := [SIGNAL, 48, NEWLINE], [SIGNAL, SIGNAL, NEWLINE], [NEWLINE];
    assert one[2..] == end && two[2..] == end && end[1..] == [];
    assert Pack(end, false) == [12] + Pack([], false) == [12] + [];
    assert Pack(one, false) == PairOf(SIGNAL, 48, false) + [12] == [15, SIGNAL, 12];
    assert Pack(two, false) == PairOf(SIGNAL, SIGNAL, false) + [12] == [SIGNAL, SIGNAL, SIGNAL, 12];
    assert IsPaired(end) && IsPaired(one);
    var packed := Pack(two, false);
    assert packed[0] == SIGNAL && packed[1] == SIGNAL;
  }

  // ----- The whole text -----

  /** The commands that end packing, and, where the spacing is to be kept, those that switch it. */
  function Modes(fixed: bool): set<Byte> {
    {DISABLE_PACKING, RESET_ALL} + if fixed then {ENABLE_NO_SPACES, DISABLE_NO_SPACES} else {}
  }

  /** No signal byte stands before one of them, so none is ever taken for a command. */
  predicate KeepsMode(bytes: seq<Byte>, fixed: bool) {
    forall i | 0 <= i < |bytes| - 1 :: bytes[i] == SIGNAL ==> bytes[i + 1] !in Modes(fixed)
  }

  /** A character that fits no nibble, whatever becomes of the spacing. */
  predicate IsWide(c: Byte, noSpaces: bool, fixed: bool) {
    NibbleOf(c, noSpaces) == 15 && (fixed || NibbleOf(c, !noSpaces) == 15)
  }

  /** The one character that fits a nibble in the other spacing only: the space, or 'E'. */
  function OtherNibble(noSpaces: bool): Byte {
    if noSpaces then SPACE else 69
  }

  lemma WideUnlessOther(c: Byte, noSpaces: bool, fixed: bool)
    requires NibbleOf(c, noSpaces) == 15 && (fixed || c != OtherNibble(noSpaces))
    ensures IsWide(c, noSpaces, fixed)
  {
  }

  lemma NibblesAreNotWide(nibble: nat, noSpaces: bool, fixed: bool)
    requires nibble < 15
    ensures !IsWide(GetChar(nibble, noSpaces), noSpaces, fixed) && GetChar(nibble, noSpaces) != SIGNAL
  {
  }

  /** The decoder takes the next byte, which follows `last`, for a command only if that was a signal. */
  predicate Stuck(u: Unpacker, last: Byte, rest: seq<Byte>, fixed: bool) {
    u.unbinarizing && (u.commandActive ==> last == SIGNAL) && KeepsMode([last] + rest, fixed)
  }

  lemma KeepsModeTail(last: Byte, rest: seq<Byte>, fixed: bool)
    requires KeepsMode([last] + rest, fixed) && rest != []
    ensures KeepsMode([rest[0]] + rest[1..], fixed) && (last == SIGNAL ==> rest[0] !in Modes(fixed))
  {
    assert [last] + rest == [last] + ([rest[0]] + rest[1..]);
    assert ([last] + rest)[1..] == [rest[0]] + rest[1..];
    assert ([last] + rest)[0] == last && ([last] + rest)[1] == rest[0];
  }

  /** The decoder is to put out the two wide characters `a` and `b`, of which it has lost both. */
  predicate IsOwed(u: Unpacker, a: Byte, b: Byte, fixed: bool) {
    && IsWide(b, u.noSpaces, fixed)
    && if u.fullCharQueue == 0 then a == SIGNAL
       else u.fullCharQueue == 1 && u.charBuffer.Some? && !IsWide(u.charBuffer.value, u.noSpaces, fixed)
  }

  lemma BeginsOtherwise(a: Byte, b: Byte, out: seq<Byte>, more: seq<Byte>)
    requires out != [] && (out[0] != a || (|out| > 1 && out[1] != b))
    ensures !([a, b] <= out + more)
  {
    var s := out + more;
    assert s[0] == out[0] && (|out| > 1 ==> s[1] == out[1]);
  }

  /** One received character does not begin with them, or leaves them owed. */
  lemma ReceivedIsNotOwed(u: Unpacker, value: Byte, a: Byte, b: Byte, more: seq<Byte>, fixed: bool)
    requires u.unbinarizing && IsOwed(u, a, b, fixed) && value != SIGNAL
    ensures var (v, out) := RxChar(u, value);
            if out == [] then v.unbinarizing && IsOwed(v, a, b, fixed) else !([a, b] <= out + more)
  {
    var out := RxChar(u, value).1;
    if u.fullCharQueue == 0 {
      if value % 16 != 15 {
        NibblesAreNotWide(value % 16, u.noSpaces, fixed);
        BeginsOtherwise(a, b, out, more);
      } else {
        assert value / 16 != 15;
        NibblesAreNotWide(value / 16, u.noSpaces, fixed);
      }
    } else {
      BeginsOtherwise(a, b, out, more);
    }
  }

  /** Nor does a lone signal byte with the character behind it. */
  lemma LoneIsNotOwed(u: Unpacker, value: Byte, a: Byte, b: Byte, more: seq<Byte>, fixed: bool)
    requires u.unbinarizing && IsOwed(u, a, b, fixed) && value != SIGNAL
    ensures var (u1, out1) := RxChar(u, SIGNAL);
            !([a, b] <= (out1 + RxChar(u1.(commandCount := 0), value).1) + more)
  {
    var (u1, out1) := RxChar(u, SIGNAL);
    BeginsOtherwise(a, b, out1 + RxChar(u1.(commandCount := 0), value).1, more);
  }

  /** The two are never put out, whatever follows, as long as the mode is kept. */
  lemma {:induction false} OwedForGood(u: Unpacker, last: Byte, rest: seq<Byte>, a: Byte, b: Byte, fixed: bool)
    requires Stuck(u, last, rest, fixed) && IsOwed(u, a, b, fixed)
    ensures !([a, b] <= Unpack(u, rest))
    decreases |rest|
  {
    if rest == [] {
      if u.commandCount > 0 && u.fullCharQueue == 1 {
        BeginsOtherwise(a, b, RxChar(u, SIGNAL).1, []);
        assert RxChar(u, SIGNAL).1 + [] == RxChar(u, SIGNAL).1;
      }
    } else {
      var (v, out) := Feed(u, rest[0]);
      KeepsModeTail(last, rest, fixed);
      assert rest == [rest[0]] + rest[1..];
      UnpackHead(u, rest[0], rest[1..]);
      if rest[0] == SIGNAL || u.commandActive {
        OwedForGood(v, rest[0], rest[1..], a, b, fixed);
        assert [] + Unpack(v, rest[1..]) == Unpack(v, rest[1..]);
      } else if u.commandCount > 0 {
        LoneIsNotOwed(u, rest[0], a, b, Unpack(v, rest[1..]), fixed);
      } else {
        ReceivedIsNotOwed(u, rest[0], a, b, Unpack(v, rest[1..]), fixed);
        if out == [] {
          OwedForGood(v, rest[0], rest[1..], a, b, fixed);
          assert [] + Unpack(v, rest[1..]) == Unpack(v, rest[1..]);
        }
      }
    }
  }

  lemma Cancel(w: seq<Byte>, e: seq<Byte>, s: seq<Byte>)
    ensures w + e <= w + s <==> e <= s
  {
    if w + e <= w + s {
      assert s[..|e|] == (w + s)[|w|..|w + e|] == (w + e)[|w|..] == e;
    }
  }

  lemma FirstDiffers(e: seq<Byte>, s: seq<Byte>)
    requires e != [] && s != [] && e[0] != s[0]
    ensures !(e <= s)
  {
  }

  /** The awaited signal byte, and then a character that is not wide, or nothing yet. */
  lemma AfterTheAwaited(u: Unpacker, value: Byte, rest: seq<Byte>, a: Byte, b: Byte, fixed: bool)
    requires Stuck(u, value, rest, fixed) && !u.commandActive && u.fullCharQueue == 0 && u.charBuffer == None && value != SIGNAL
    requires IsWide(a, u.noSpaces, fixed) && IsWide(b, u.noSpaces, fixed)
    ensures var (v, out) := RxChar(u, value); !([a, b] <= out + Unpack(v, rest))
  {
    var (v, out) := RxChar(u, value);
    if value % 16 != 15 {
      NibblesAreNotWide(value % 16, u.noSpaces, fixed);
      BeginsOtherwise(a, b, out, Unpack(v, rest));
    } else {
      assert value / 16 != 15;
      NibblesAreNotWide(value / 16, u.noSpaces, fixed);
      OwedForGood(v, value, rest, a, b, fixed);
      assert [] + Unpack(v, rest) == Unpack(v, rest);
    }
  }

  /** The same while the decoder still waits for a character: it may put that one out, but not the two. */
  lemma {:induction false} QueuedForGood(u: Unpacker, last: Byte, rest: seq<Byte>, a: Byte, b: Byte, fixed: bool)
    requires Stuck(u, last, rest, fixed) && u.fullCharQueue == 1 && IsWide(a, u.noSpaces, fixed) && IsWide(b, u.noSpaces, fixed)
    ensures !(Waiting(u) + [a, b] <= Unpack(u, rest))
    decreases |rest|
  {
    if rest != [] {
      var (v, out) := Feed(u, rest[0]);
      var more := Unpack(v, rest[1..]);
      KeepsModeTail(last, rest, fixed);
      assert rest == [rest[0]] + rest[1..];
      UnpackHead(u, rest[0], rest[1..]);
      if rest[0] == SIGNAL || u.commandActive {
        QueuedForGood(v, rest[0], rest[1..], a, b, fixed);
        assert [] + more == more;
      } else if u.commandCount > 0 {
        var u1 := RxChar(u, SIGNAL).0.(commandCount := 0);
        AfterTheAwaited(u1, rest[0], rest[1..], a, b, fixed);
        Associate(Waiting(u), RxChar(u1, rest[0]).1, more);
        Cancel(Waiting(u), [a, b], RxChar(u1, rest[0]).1 + more);
      } else {
        FirstDiffers(Waiting(u) + [a, b], out + more);
      }
    }
  }

  lemma KeepsModeSuffix(a: seq<Byte>, b: seq<Byte>, fixed: bool)
    requires KeepsMode(a + b, fixed)
    ensures KeepsMode(b, fixed)
  {
    assert forall i | 0 <= i < |b| :: b[i] == (a + b)[|a| + i];
  }

  /** A pair whose two bytes both follow a signal byte: `packed` is what comes after it. */
  lemma LostInside(before: seq<Byte>, b: Byte, rest: seq<Byte>, packed: seq<Byte>, noSpaces: bool, fixed: bool)
    requires Survives(before, noSpaces) && !EndsWith(Pack(before, noSpaces), SIGNAL) && IsWide(b, noSpaces, fixed)
    requires KeepsMode(Pack(before, noSpaces) + ([SIGNAL] + ([SIGNAL] + ([b] + packed))), fixed)
    ensures Unpack(Packing(noSpaces), Pack(before, noSpaces) + ([SIGNAL] + ([SIGNAL] + ([b] + packed)))) != before + ([SIGNAL, b] + rest)
  {
    var stream, u := [SIGNAL] + ([SIGNAL] + ([b] + packed)), Packing(noSpaces).(commandActive := true);
    UnpackGoesOn(before, noSpaces, stream);
    EscapeSwallows(Packing(noSpaces), [b] + packed);
    KeepsModeSuffix(Pack(before, noSpaces), stream, fixed);
    KeepsModeSuffix([SIGNAL], [SIGNAL] + ([b] + packed), fixed);
    OwedForGood(u, SIGNAL, [b] + packed, SIGNAL, b, fixed);
    NotRestored(before, Unpack(u, [b] + packed), [SIGNAL, b], rest);
  }

  lemma NotRestored(before: seq<Byte>, out: seq<Byte>, owed: seq<Byte>, rest: seq<Byte>)
    requires !(owed <= out)
    ensures before + out != before + (owed + rest)
  {
    Cancel(before, owed + rest, out);
    assert owed <= owed + rest;
  }

  /** A pair whose signal byte follows one at the end of the text before. */
  lemma LostAcross(before: seq<Byte>, front: seq<Byte>, a: Byte, b: Byte, rest: seq<Byte>, packed: seq<Byte>, noSpaces: bool, fixed: bool)
    requires Survives(before, noSpaces) && Pack(before, noSpaces) == front + [SIGNAL]
    requires IsWide(a, noSpaces, fixed) && IsWide(b, noSpaces, fixed)
    requires KeepsMode(front + ([SIGNAL] + ([SIGNAL] + ([a] + ([b] + packed)))), fixed)
    ensures Unpack(Packing(noSpaces), front + ([SIGNAL] + ([SIGNAL] + ([a] + ([b] + packed))))) != before + ([a, b] + rest)
  {
    var tail := [a] + ([b] + packed);
    var stream := [SIGNAL] + ([SIGNAL] + tail);
    var (v, out) := Read(Packing(noSpaces), front);
    CleanConcat(front, [SIGNAL]);
    CleanIsRead(Packing(noSpaces), front, stream);
    WaitingForTheLast(before, front, noSpaces);
    EscapeSwallows(v, tail);
    KeepsModeSuffix(front, stream, fixed);
    KeepsModeSuffix([SIGNAL], [SIGNAL] + tail, fixed);
    QueuedForGood(v.(commandActive := true), SIGNAL, tail, a, b, fixed);
    Associate(out, Waiting(v), [a, b] + rest);
    Associate(Waiting(v), [a, b], rest);
    NotRestored(out, Unpack(v.(commandActive := true), tail), Waiting(v) + [a, b], rest);
  }

  lemma UnpackedPairBytes(a: Byte, b: Byte, packed: seq<Byte>, noSpaces: bool)
    requires IsUnpackedPair(a, b, noSpaces)
    ensures PairOf(a, b, noSpaces) + packed == [SIGNAL] + ([a] + ([b] + packed))
  {
    assert PairOf(a, b, noSpaces) == [SIGNAL, a, b];
  }

  lemma LostForGood(before: seq<Byte>, a: Byte, b: Byte, rest: seq<Byte>, packed: seq<Byte>, noSpaces: bool, fixed: bool)
    requires Survives(before, noSpaces) && IsUnpackedPair(a, b, noSpaces) && (!EndsWith(Pack(before, noSpaces), SIGNAL) ==> a == SIGNAL)
    requires KeepsMode(Pack(before, noSpaces) + (PairOf(a, b, noSpaces) + packed), fixed)
    requires IsWide(a, noSpaces, fixed) && IsWide(b, noSpaces, fixed)
    ensures Unpack(Packing(noSpaces), Pack(before, noSpaces) + (PairOf(a, b, noSpaces) + packed)) != before + ([a, b] + rest)
  {
    var so, tail := Pack(before, noSpaces), [SIGNAL] + ([a] + ([b] + packed));
    UnpackedPairBytes(a, b, packed, noSpaces);
    if EndsWith(so, SIGNAL) {
      var front := so[..|so| - 1];
      assert so == front + [SIGNAL];
      Associate(front, [SIGNAL], tail);
      LostAcross(before, front, a, b, rest, packed, noSpaces, fixed);
    } else {
      LostInside(before, b, rest, packed, noSpaces, fixed);
    }
  }

  lemma PieceIsLostForGood(before: seq<Byte>, after: seq<Byte>, first: seq<Byte>, rest: seq<Byte>, noSpaces: bool, fixed: bool)
    requires Survives(before, noSpaces) && after != [] && Width(after) <= |after|
    requires first == after[..Width(after)] && rest == after[Width(after)..]
    requires !Clean(Pack(before + first, noSpaces)) && KeepsMode(Pack(before + after, noSpaces), fixed)
    requires fixed || OtherNibble(noSpaces) !in after
    ensures Unpack(Packing(noSpaces), Pack(before + after, noSpaces)) != before + after
  {
    FirstPacked(before, after, first, noSpaces);
    UncleanPiece(Pack(before, noSpaces), after, noSpaces);
    PackConcat(before, after, noSpaces);
    assert after == [after[0], after[1]] + rest;
    WideUnlessOther(after[0], noSpaces, fixed);
    WideUnlessOther(after[1], noSpaces, fixed);
    LostForGood(before, after[0], after[1], rest, Pack(rest, noSpaces), noSpaces, fixed);
  }

  /** The packed bytes spell no command that ends packing; and if they spell one that switches the spacing,
    * the text is free of the character that the switch makes fit a nibble. */
  predicate KeepsPacking(text: seq<Byte>, noSpaces: bool) {
    || KeepsMode(Pack(text, noSpaces), true)
    || (KeepsMode(Pack(text, noSpaces), false) && OtherNibble(noSpaces) !in text)
  }

  /** A text whose packed bytes are unclean is not restored. */
  lemma UncleanIsLost(text: seq<Byte>, noSpaces: bool)
    requires IsPaired(text) && !Clean(Pack(text, noSpaces)) && KeepsPacking(text, noSpaces)
    ensures Unpack(Packing(noSpaces), Pack(text, noSpaces)) != text
  {
    assert [] + text == text;
    var before, first, after := FirstUnclean(text, [], text, noSpaces);
    PieceIsLostForGood(before, after, first, after[Width(after)..], noSpaces, KeepsMode(Pack(text, noSpaces), true));
  }

  /** Where no end of packing is spelt, a text comes back as a whole exactly when its packed bytes hold no two
    * adjacent signal bytes. */
  lemma RestoredIffClean(text: seq<Byte>, noSpaces: bool)
    requires IsPaired(text) && KeepsPacking(text, noSpaces)
    ensures Unpack(Packing(noSpaces), Pack(text, noSpaces)) == text <==> Clean(Pack(text, noSpaces))
  {
    if Clean(Pack(text, noSpaces)) {
      UnpackInvertsPack(text, noSpaces);
    } else {
      UncleanIsLost(text, noSpaces);
    }
  }
}
