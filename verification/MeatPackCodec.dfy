/** A MeatPack encoder, and what the decoder makes of what it writes. */
module MeatPackCodec {
  import opened Wrappers
  import opened Bytes
  import opened GcodeFormatter
  import opened MeatPack

  /** The nibble for a character; 15 says that it does not fit one. */
  function NibbleOf(c: Byte, noSpaces: bool): (n: nat)
    ensures n <= 15
    ensures n < 15 ==> GetChar(n, noSpaces) == c
    ensures n == 12 <==> c == NEWLINE
  {
    if 48 <= c < 58 then c - 48
    else if c == 46 then 10
    else if c == (if noSpaces then 69 else SPACE) then 11
    else if c == NEWLINE then 12
    else if c == LETTER_G then 13
    else if c == 88 then 14
    else 15
  }

  /** A character as it follows its pair: in full when its nibble could not hold it. */
  function InFull(c: Byte, noSpaces: bool): seq<Byte> {
    if NibbleOf(c, noSpaces) == 15 then [c] else []
  }

  /** The pair byte of two characters, with the characters it asks for in full. */
  function PairOf(a: Byte, b: Byte, noSpaces: bool): seq<Byte> {
    [NibbleOf(a, noSpaces) + 16 * NibbleOf(b, noSpaces)] + InFull(a, noSpaces) + InFull(b, noSpaces)
  }

  /** How many characters the encoder takes at a time. */
  function Width(text: seq<Byte>): nat {
    if text != [] && text[0] == NEWLINE then 1 else 2
  }

  function FirstPiece(text: seq<Byte>, noSpaces: bool): seq<Byte>
    requires Width(text) <= |text|
  {
    if text[0] == NEWLINE then [12] else PairOf(text[0], text[1], noSpaces)
  }

  /** Two characters a byte, low nibble first.  The nibble after a newline is never read; a character left
    * over at the end has half a byte. */
  function Pack(text: seq<Byte>, noSpaces: bool): seq<Byte>
    decreases |text|
  {
    if text == [] then []
    else if Width(text) <= |text| then FirstPiece(text, noSpaces) + Pack(text[Width(text)..], noSpaces)
    else [NibbleOf(text[0], noSpaces)]
  }

  /** No character is left over. */
  predicate IsPaired(text: seq<Byte>)
    decreases |text|
  {
    text == [] || (Width(text) <= |text| && IsPaired(text[Width(text)..]))
  }

  /** The commands that switch packing on, then no-spaces mode on or off. */
  function Preamble(noSpaces: bool): seq<Byte> {
    [SIGNAL, SIGNAL, ENABLE_PACKING, SIGNAL, SIGNAL, if noSpaces then ENABLE_NO_SPACES else DISABLE_NO_SPACES]
  }

  function Packing(noSpaces: bool): Unpacker {
    START.(unbinarizing := true, noSpaces := noSpaces)
  }

  // ----- The format by its numbers -----

  /** The characters of the fifteen nibbles, in the two modes. */
  lemma NibblesByName(n: nat)
    requires n < 15
    ensures GetChar(n, false) == "0123456789. \nGX"[n] as int
    ensures GetChar(n, true) == "0123456789.E\nGX"[n] as int
  {
  }

  /** The five commands; any other byte is none. */
  lemma CommandsByNumber(u: Unpacker, value: Byte)
    ensures var v := HandleCommand(u, value);
            && v == u.(unbinarizing := v.unbinarizing, noSpaces := v.noSpaces)
            && (v.unbinarizing <==> value == 251 || (u.unbinarizing && value != 250 && value != 249))
            && (v.noSpaces <==> value == 247 || (u.noSpaces && value != 246 && value != 249))
  {
  }

  // ----- Reading without escapes -----

  /** What a stream puts out, and where it leaves the unpacker, when no byte of it is a signal. */
  function Read(u: Unpacker, bytes: seq<Byte>): (Unpacker, seq<Byte>)
    decreases |bytes|
  {
    if bytes == [] then (u, [])
    else
      var (u1, out) := RxChar(u, bytes[0]);
      var (u2, rest) := Read(u1, bytes[1..]);
      (u2, out + rest)
  }

  /** No two signal bytes are adjacent. */
  predicate Clean(bytes: seq<Byte>) {
    forall i | 0 <= i < |bytes| - 1 :: !(bytes[i] == SIGNAL && bytes[i + 1] == SIGNAL)
  }

  /** No signal byte is pending. */
  predicate AtRest(u: Unpacker) {
    !u.commandActive && u.commandCount == 0
  }

  lemma ReadHead(u: Unpacker, b: Byte, bytes: seq<Byte>)
    ensures Read(u, [b] + bytes) == (Read(RxChar(u, b).0, bytes).0, RxChar(u, b).1 + Read(RxChar(u, b).0, bytes).1)
  {
    assert ([b] + bytes)[1..] == bytes;
  }

  lemma {:induction false} ReadConcat(u: Unpacker, a: seq<Byte>, b: seq<Byte>)
    ensures Read(u, a + b) == (Read(Read(u, a).0, b).0, Read(u, a).1 + Read(Read(u, a).0, b).1)
    decreases |a|
  {
    if a == [] {
      assert a + b == b;
      assert [] + Read(u, b).1 == Read(u, b).1;
    } else {
      var (u1, out) := RxChar(u, a[0]);
      var (u2, read) := Read(u1, a[1..]);
      ReadConcat(u1, a[1..], b);
      assert (a + b)[1..] == a[1..] + b;
      Associate(out, read, Read(u2, b).1);
    }
  }

  lemma UnpackHead(u: Unpacker, b: Byte, rest: seq<Byte>)
    ensures Unpack(u, [b] + rest) == Feed(u, b).1 + Unpack(Feed(u, b).0, rest)
  {
    assert ([b] + rest)[1..] == rest;
  }

  /** A lone signal byte is read late, but as any other byte. */
  lemma LoneSignal(u: Unpacker, b: Byte, rest: seq<Byte>)
    requires AtRest(u) && b != SIGNAL
    ensures var (u1, out1) := RxChar(u, SIGNAL);
            var (u2, out2) := RxChar(u1, b);
            AtRest(u2) && Unpack(u, [SIGNAL] + ([b] + rest)) == (out1 + out2) + Unpack(u2, rest)
  {
    UnpackHead(u, SIGNAL, [b] + rest);
    UnpackHead(u.(commandCount := 1), b, rest);
  }

  /** The unpacker reads these bytes as without escapes, and what follows from there. */
  predicate IsJustRead(u: Unpacker, bytes: seq<Byte>, rest: seq<Byte>) {
    var (v, out) := Read(u, bytes);
    AtRest(v) && Unpack(u, bytes + rest) == out + Unpack(v, rest)
  }

  lemma OneIsRead(u: Unpacker, b: Byte, bytes: seq<Byte>, rest: seq<Byte>)
    requires AtRest(u) && b != SIGNAL && IsJustRead(RxChar(u, b).0, bytes, rest)
    ensures IsJustRead(u, [b] + bytes, rest)
  {
    var (u1, out) := RxChar(u, b);
    var (v, more) := Read(u1, bytes);
    UnpackHead(u, b, bytes + rest);
    ReadHead(u, b, bytes);
    Associate([b], bytes, rest);
    Associate(out, more, Unpack(v, rest));
  }

  lemma TwoAreRead(u: Unpacker, b: Byte, bytes: seq<Byte>, rest: seq<Byte>)
    requires AtRest(u) && b != SIGNAL && IsJustRead(RxChar(RxChar(u, SIGNAL).0, b).0, bytes, rest)
    ensures IsJustRead(u, [SIGNAL] + ([b] + bytes), rest)
  {
    var (u1, out1) := RxChar(u, SIGNAL);
    var (u2, out2) := RxChar(u1, b);
    var (v, more) := Read(u2, bytes);
    LoneSignal(u, b, bytes + rest);
    ReadHead(u, SIGNAL, [b] + bytes);
    ReadHead(u1, b, bytes);
    Associate([b], bytes, rest);
    Associate([SIGNAL], [b] + bytes, rest);
    Associate(out1, out2, more);
    Associate(out1 + out2, more, Unpack(v, rest));
  }

  lemma LastSignal(u: Unpacker)
    requires AtRest(u)
    ensures IsJustRead(u, [SIGNAL], [])
  {
    var signal: seq<Byte> := [SIGNAL];
    assert signal[1..] == [] && signal + [] == signal;
    assert Unpack(u, signal) == [] + Unpack(u.(commandCount := 1), []);
    assert Read(u, signal) == (RxChar(u, SIGNAL).0, RxChar(u, SIGNAL).1 + []);
  }

  lemma NothingIsRead(u: Unpacker, rest: seq<Byte>)
    requires AtRest(u)
    ensures IsJustRead(u, [], rest)
  {
    assert [] + rest == rest && [] + Unpack(u, rest) == Unpack(u, rest);
  }

  /** Where no two signal bytes are adjacent, the escape changes nothing. */
  lemma {:induction false} CleanIsRead(u: Unpacker, bytes: seq<Byte>, rest: seq<Byte>)
    requires AtRest(u) && Clean(bytes) && (rest != [] ==> !EndsWith(bytes, SIGNAL))
    ensures IsJustRead(u, bytes, rest)
    decreases |bytes|
  {
    if bytes == [] {
      NothingIsRead(u, rest);
    } else if bytes[0] != SIGNAL {
      CleanIsRead(RxChar(u, bytes[0]).0, bytes[1..], rest);
      OneIsRead(u, bytes[0], bytes[1..], rest);
      assert bytes == [bytes[0]] + bytes[1..];
    } else if |bytes| == 1 {
      LastSignal(u);
      assert bytes == [SIGNAL];
    } else {
      CleanIsRead(RxChar(RxChar(u, SIGNAL).0, bytes[1]).0, bytes[2..], rest);
      TwoAreRead(u, bytes[1], bytes[2..], rest);
      assert bytes == [SIGNAL] + ([bytes[1]] + bytes[2..]);
    }
  }

  // ----- What the encoder's pieces are read as -----

  lemma PairByteRead(u: Unpacker, first: nat, second: nat)
    requires u.unbinarizing && u.fullCharQueue == 0 && first <= 15 && second <= 15
    requires first < 15 ==> GetChar(first, u.noSpaces) != NEWLINE
    ensures RxChar(u, first + 16 * second) ==
            if first == 15 && second == 15 then (u.(fullCharQueue := 2), [])
            else if first == 15 then (u.(fullCharQueue := 1, charBuffer := Some(GetChar(second, u.noSpaces))), [])
            else if second == 15 then (u.(fullCharQueue := 1), [GetChar(first, u.noSpaces)])
            else (u, [GetChar(first, u.noSpaces), GetChar(second, u.noSpaces)])
  {
    var pair: Byte := first + 16 * second;
    assert pair % 16 == first && pair / 16 == second;
  }

  lemma ReadOne(u: Unpacker, b: Byte)
    ensures Read(u, [b]) == RxChar(u, b)
  {
    ReadHead(u, b, []);
    assert RxChar(u, b).1 + [] == RxChar(u, b).1;
    assert [b] + [] == [b];
  }

  /** A queued character is put out with the one it made wait. */
  lemma ReadQueued(u: Unpacker, c: Byte)
    requires u.unbinarizing && u.fullCharQueue > 0
    ensures Read(u, [c]) == (u.(fullCharQueue := u.fullCharQueue - 1, charBuffer := None),
                             if u.charBuffer.Some? then [c, u.charBuffer.value] else [c])
  {
    ReadOne(u, c);
  }

  lemma BothQueued(u: Unpacker, a: Byte, b: Byte)
    requires u.unbinarizing && u.fullCharQueue == 2 && u.charBuffer == None
    ensures Read(u, [a] + [b]) == (u.(fullCharQueue := 0), [a, b])
  {
    ReadQueued(u, a);
    ReadQueued(u.(fullCharQueue := 1), b);
    ReadConcat(u, [a], [b]);
    assert [a] + [b] == [a, b];
  }

  /** A pair is read back whichever of its two characters are packed. */
  lemma PairIsRead(a: Byte, b: Byte, noSpaces: bool)
    requires a != NEWLINE
    ensures Read(Packing(noSpaces), PairOf(a, b, noSpaces)) == (Packing(noSpaces), [a, b])
  {
    var u, first, second := Packing(noSpaces), NibbleOf(a, noSpaces), NibbleOf(b, noSpaces);
    var inFull := InFull(a, noSpaces) + InFull(b, noSpaces);
    var pair: Byte := first + 16 * second;
    PairByteRead(u, first, second);
    assert PairOf(a, b, noSpaces) == [pair] + inFull;
    ReadHead(u, pair, inFull);
    if first == 15 && second == 15 {
      BothQueued(u.(fullCharQueue := 2), a, b);
      assert [] + [a, b] == [a, b];
    } else if first == 15 {
      assert inFull == [a] && [] + [a, b] == [a, b];
      ReadQueued(u.(fullCharQueue := 1, charBuffer := Some(b)), a);
    } else if second == 15 {
      assert inFull == [b] && [a] + [b] == [a, b];
      ReadQueued(u.(fullCharQueue := 1), b);
    } else {
      assert inFull == [] && [a, b] + [] == [a, b];
    }
  }

  /** The low nibble comes first, and a character in full takes the place of its nibble: "G1", "A1" with its
    * first, "1B" with its second, "AB" with both in full, and a newline. */
  lemma ReadByHand()
    ensures var u := Packing(false);
            && Read(u, [0x1D]) == (u, [71, 49])
            && Read(u, [0x1F, 65]) == (u, [65, 49])
            && Read(u, [0xF1, 66]) == (u, [49, 66])
            && Read(u, [0xFF, 65, 66]) == (u, [65, 66])
            && Read(u, [0x0C]) == (u, [10])
  {
    assert PairOf(71, 49, false) == [0x1D] && PairOf(65, 49, false) == [0x1F, 65];
    assert PairOf(49, 66, false) == [0xF1, 66] && PairOf(65, 66, false) == [0xFF, 65, 66];
    PairIsRead(71, 49, false);
    PairIsRead(65, 49, false);
    PairIsRead(49, 66, false);
    PairIsRead(65, 66, false);
    ReadOne(Packing(false), 0x0C);
  }

  /** What its pieces are read as, piece by piece. */
  lemma PieceIsRead(noSpaces: bool, piece: seq<Byte>, packed: seq<Byte>, text: seq<Byte>, more: seq<Byte>)
    requires Read(Packing(noSpaces), packed) == (Packing(noSpaces), piece)
    ensures var (u, so) := Read(Packing(noSpaces), more);
            var (v, all) := Read(Packing(noSpaces), packed + more);
            v == u && (all == piece + text <==> so == text)
  {
    var so := Read(Packing(noSpaces), more).1;
    ReadConcat(Packing(noSpaces), packed, more);
    assert (piece + so)[|piece|..] == so && (piece + text)[|piece|..] == text;
  }

  lemma HalfPairIsNotRead(c: Byte, noSpaces: bool)
    requires c != NEWLINE
    ensures Read(Packing(noSpaces), [NibbleOf(c, noSpaces)]).1 != [c]
  {
    PairByteRead(Packing(noSpaces), NibbleOf(c, noSpaces), 0);
    ReadOne(Packing(noSpaces), NibbleOf(c, noSpaces));
  }

  lemma FirstPieceIsRead(text: seq<Byte>, noSpaces: bool)
    requires Width(text) <= |text|
    ensures Read(Packing(noSpaces), FirstPiece(text, noSpaces)) == (Packing(noSpaces), text[..Width(text)])
  {
    if text[0] == NEWLINE {
      ReadOne(Packing(noSpaces), 12);
      assert text[..1] == [NEWLINE];
    } else {
      assert text[..2] == [text[0], text[1]];
      PairIsRead(text[0], text[1], noSpaces);
    }
  }

  /** Read without escapes, a packed text is the text, if and only if it is paired up. */
  lemma {:induction false} PackedIsRead(text: seq<Byte>, noSpaces: bool)
    ensures var (u, out) := Read(Packing(noSpaces), Pack(text, noSpaces));
            (out == text <==> IsPaired(text)) && (IsPaired(text) ==> u == Packing(noSpaces))
    decreases |text|
  {
    if text == [] {
    } else if Width(text) <= |text| {
      var first, rest := text[..Width(text)], text[Width(text)..];
      PackedIsRead(rest, noSpaces);
      FirstPieceIsRead(text, noSpaces);
      PieceIsRead(noSpaces, first, FirstPiece(text, noSpaces), rest, Pack(rest, noSpaces));
      assert text == first + rest;
    } else {
      HalfPairIsNotRead(text[0], noSpaces);
      assert text == [text[0]] && Pack(text, noSpaces) == [NibbleOf(text[0], noSpaces)];
    }
  }

  // ----- The round trip -----

  /** The condition under which a text comes back, on what the encoder has written. */
  predicate Survives(text: seq<Byte>, noSpaces: bool) {
    IsPaired(text) && Clean(Pack(text, noSpaces))
  }

  /** Where the packed bytes hold no two adjacent signal bytes, unpacking inverts packing, in both modes, on
    * exactly the texts that are paired up. */
  lemma UnpackInvertsPack(text: seq<Byte>, noSpaces: bool)
    requires Clean(Pack(text, noSpaces))
    ensures Unpack(Packing(noSpaces), Pack(text, noSpaces)) == text <==> IsPaired(text)
  {
    var packed, u := Pack(text, noSpaces), Packing(noSpaces);
    CleanIsRead(u, packed, []);
    PackedIsRead(text, noSpaces);
    assert packed + [] == packed;
    UnpackNothing(Read(u, packed).0);
  }

  lemma UnpackNothing(u: Unpacker)
    requires AtRest(u)
    ensures Unpack(u, []) == []
  {
  }

  /** Whatever follows is read as from the start. */
  lemma UnpackGoesOn(text: seq<Byte>, noSpaces: bool, rest: seq<Byte>)
    requires Survives(text, noSpaces) && (rest != [] ==> !EndsWith(Pack(text, noSpaces), SIGNAL))
    ensures Unpack(Packing(noSpaces), Pack(text, noSpaces) + rest) == text + Unpack(Packing(noSpaces), rest)
  {
    CleanIsRead(Packing(noSpaces), Pack(text, noSpaces), rest);
    PackedIsRead(text, noSpaces);
  }

  /** A text of complete lines without the signal byte. */
  predicate IsPlain(text: seq<Byte>) {
    SIGNAL !in text && (text != [] ==> EndsWith(text, NEWLINE))
  }

  lemma PlainPieceIsClean(text: seq<Byte>, noSpaces: bool)
    requires SIGNAL !in text && Width(text) <= |text|
    ensures Clean(FirstPiece(text, noSpaces)) && !EndsWith(FirstPiece(text, noSpaces), SIGNAL)
  {
    if text[0] != NEWLINE {
      var pair: Byte := NibbleOf(text[0], noSpaces) + 16 * NibbleOf(text[1], noSpaces);
      assert pair == SIGNAL ==> NibbleOf(text[0], noSpaces) == 15;
    }
  }

  lemma CleanConcat(a: seq<Byte>, b: seq<Byte>)
    ensures Clean(a + b) <==> Clean(a) && Clean(b) && !(EndsWith(a, SIGNAL) && b != [] && b[0] == SIGNAL)
  {
    if Clean(a + b) {
      assert forall i | 0 <= i < |a| :: (a + b)[i] == a[i];
      assert forall i | 0 <= i < |b| :: (a + b)[|a| + i] == b[i];
    }
  }

  /** Every plain text survives. */
  lemma {:induction false} PlainTextsSurvive(text: seq<Byte>, noSpaces: bool)
    requires IsPlain(text)
    ensures Survives(text, noSpaces) && !EndsWith(Pack(text, noSpaces), SIGNAL)
    decreases |text|
  {
    if text != [] {
      var first, rest := FirstPiece(text, noSpaces), text[Width(text)..];
      PlainTextsSurvive(rest, noSpaces);
      PlainPieceIsClean(text, noSpaces);
      CleanConcat(first, Pack(rest, noSpaces));
    }
  }

  // ----- Commands -----

  function Escape(command: Byte): seq<Byte> {
    [SIGNAL, SIGNAL, command]
  }

  /** The escape swallows two signals, and the byte after them. */
  lemma EscapeSwallows(u: Unpacker, rest: seq<Byte>)
    requires AtRest(u)
    ensures Unpack(u, [SIGNAL] + ([SIGNAL] + rest)) == Unpack(u.(commandActive := true), rest)
  {
    UnpackHead(u, SIGNAL, [SIGNAL] + rest);
    UnpackHead(u.(commandCount := 1), SIGNAL, rest);
  }

  lemma CommandIsTaken(u: Unpacker, command: Byte, rest: seq<Byte>)
    requires AtRest(u) && command != SIGNAL
    ensures Unpack(u, Escape(command) + rest) == Unpack(HandleCommand(u, command), rest)
  {
    assert Escape(command) + rest == [SIGNAL] + ([SIGNAL] + ([command] + rest));
    EscapeSwallows(u, [command] + rest);
    UnpackHead(u.(commandActive := true), command, rest);
  }

  /** Between two characters, with nothing queued. */
  predicate IsSettled(u: Unpacker) {
    AtRest(u) && u.fullCharQueue == 0 && u.charBuffer == None
  }

  /** Wherever the decoder has settled, the commands put it into the mode they name. */
  lemma HeaderSetsMode(u: Unpacker, noSpaces: bool, rest: seq<Byte>)
    requires IsSettled(u)
    ensures Unpack(u, Preamble(noSpaces) + rest) == Unpack(Packing(noSpaces), rest)
  {
    var second: Byte := if noSpaces then ENABLE_NO_SPACES else DISABLE_NO_SPACES;
    assert Preamble(noSpaces) + rest == Escape(ENABLE_PACKING) + (Escape(second) + rest);
    CommandIsTaken(u, ENABLE_PACKING, Escape(second) + rest);
    CommandIsTaken(u.(unbinarizing := true), second, rest);
  }

  /** A stretch of a stream: plain behind a command that ends packing, or packed behind its preamble. */
  datatype Stretch = Plain(text: seq<Byte>, reset: bool) | Packed(text: seq<Byte>, noSpaces: bool)

  function Body(s: Stretch): seq<Byte> {
    match s
    case Plain(text, _) => text
    case Packed(text, noSpaces) => Pack(text, noSpaces)
  }

  function Written(s: Stretch): seq<Byte> {
    match s
    case Plain(text, reset) => Escape(if reset then RESET_ALL else DISABLE_PACKING) + text
    case Packed(text, noSpaces) => Preamble(noSpaces) + Pack(text, noSpaces)
  }

  function Stream(parts: seq<Stretch>): seq<Byte> {
    if parts == [] then [] else Written(parts[0]) + Stream(parts[1..])
  }

  function TextOf(parts: seq<Stretch>): seq<Byte> {
    if parts == [] then [] else parts[0].text + TextOf(parts[1..])
  }

  /** What is written is free of accidental escapes, and every packed text is paired up. */
  predicate IsReadable(parts: seq<Stretch>) {
    && (forall k | 0 <= k < |parts| :: Clean(Body(parts[k])) && (parts[k].Packed? ==> IsPaired(parts[k].text)))
    && (forall k | 0 <= k < |parts| - 1 :: !EndsWith(Body(parts[k]), SIGNAL))
  }

  lemma {:induction false} PlainIsRead(u: Unpacker, text: seq<Byte>)
    requires !u.unbinarizing
    ensures Read(u, text) == (u, text)
    decreases |text|
  {
    if text != [] {
      PlainIsRead(u, text[1..]);
      assert text == [text[0]] + text[1..];
    }
  }

  lemma StretchIsRead(u: Unpacker, s: Stretch, rest: seq<Byte>) returns (v: Unpacker)
    requires IsSettled(u) && IsReadable([s]) && (rest != [] ==> !EndsWith(Body(s), SIGNAL))
    ensures IsSettled(v) && Unpack(u, Written(s) + rest) == s.text + Unpack(v, rest)
  {
    assert [s][0] == s;
    match s
    case Plain(text, reset) =>
      var command: Byte := if reset then RESET_ALL else DISABLE_PACKING;
      v := HandleCommand(u, command);
      CommandIsTaken(u, command, text + rest);
      PlainIsRead(v, text);
      CleanIsRead(v, text, rest);
      Associate(Escape(command), text, rest);
    case Packed(text, noSpaces) =>
      v := Packing(noSpaces);
      HeaderSetsMode(u, noSpaces, Pack(text, noSpaces) + rest);
      UnpackGoesOn(text, noSpaces, rest);
      Associate(Preamble(noSpaces), Pack(text, noSpaces), rest);
  }

  /** Modes may change as often as the writer likes: the stretches are read in order, each in its own. */
  lemma {:induction false} StreamIsRead(u: Unpacker, parts: seq<Stretch>)
    requires IsSettled(u) && IsReadable(parts)
    ensures Unpack(u, Stream(parts)) == TextOf(parts)
    decreases |parts|
  {
    if parts != [] {
      var v := StretchIsRead(u, parts[0], Stream(parts[1..]));
      StreamIsRead(v, parts[1..]);
    }
  }

  /** The decoder on a whole stream: its stretches, joined, come back formatted, and so unchanged exactly
    * when they are in the formatter's normal form. */
  lemma StreamIsFormatted(parts: seq<Stretch>)
    requires IsReadable(parts)
    ensures Formatted(Unpack(START, Stream(parts))) == Formatted(TextOf(parts))
    ensures Formatted(Unpack(START, Stream(parts))) == TextOf(parts) <==> IsFormatted(TextOf(parts))
  {
    StreamIsRead(START, parts);
    FixedPointsAreNormalForms(TextOf(parts));
  }

  /** One packed text. */
  lemma DecodedIsFormatted(text: seq<Byte>, noSpaces: bool)
    requires Survives(text, noSpaces)
    ensures Formatted(Unpack(START, Preamble(noSpaces) + Pack(text, noSpaces))) == Formatted(text)
    ensures Formatted(Unpack(START, Preamble(noSpaces) + Pack(text, noSpaces))) == text <==> IsFormatted(text)
  {
    HeaderSetsMode(START, noSpaces, Pack(text, noSpaces));
    UnpackInvertsPack(text, noSpaces);
    FixedPointsAreNormalForms(text);
  }

  /** The no-spaces round trip: strip the spaces of the G-lines, pack with 'E' in the place of the space,
    * decode.  The text is restored on exactly the canonical texts. */
  lemma NoSpacesRoundTrip(text: seq<Byte>)
    requires Survives(WithoutGSpaces(text), true)
    ensures Formatted(Unpack(START, Preamble(true) + Pack(WithoutGSpaces(text), true))) == text <==> IsCanonical(text)
  {
    DecodedIsFormatted(WithoutGSpaces(text), true);
    StrippingIsUndone(text);
  }

  /** It is so of every plain text. */
  lemma StrippedTextsSurvive(text: seq<Byte>)
    requires IsPlain(text)
    ensures Survives(WithoutGSpaces(text), true)
  {
    StrippedLines(text);
    StrippedBytes(text);
    PlainTextsSurvive(WithoutGSpaces(text), true);
  }

  lemma {:induction false} StrippedBytes(text: seq<Byte>)
    ensures forall b :: b in WithoutGSpaces(text) ==> b in text
  {
    if text != [] {
      StrippedBytes(text[..|text| - 1]);
    }
  }
}
