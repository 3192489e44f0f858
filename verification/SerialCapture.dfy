/** The lines of one serial exchange, captured from reads of any size. */
module SerialCapture {
  import opened Wrappers
  import opened Bytes
  import opened Texts

  /** Decoding of a raw line, its surrounding white space stripped. */
  type Decoder = seq<Byte> -> string

  const SPAM: seq<string> :=
    ["FIRMWARE_NAME:", "SOURCE_CODE_URL:", "PROTOCOL_VERSION:", "MACHINE_TYPE:", "EXTRUDER_COUNT:", "UUID:", "Cap:"]

  predicate IsSpam(line: string) {
    exists p | p in SPAM :: Contains(line, p)
  }

  function Printable(line: string): (n: nat)
    ensures n <= |line|
  {
    if line == "" then 0
    else Printable(line[..|line| - 1]) + if 32 <= line[|line| - 1] as int <= 126 then 1 else 0
  }

  /** Empty, or less than seven tenths of it printable. */
  predicate IsGarbled(line: string) {
    line == "" || 10 * Printable(line) < 7 * |line|
  }

  predicate IsKept(line: string) {
    line != "" && !IsSpam(line) && !IsGarbled(line)
  }

  /** The places of the characters from the space to the tilde. */
  function PrintableAt(line: string): set<nat> {
    set k: nat | k < |line| && ' ' <= line[k] <= '~'
  }

  lemma {:induction false} PrintableCounts(line: string)
    ensures Printable(line) == |PrintableAt(line)|
  {
    if line == "" {
      assert PrintableAt(line) == {};
    } else {
      var so, k := line[..|line| - 1], |line| - 1;
      PrintableCounts(so);
      assert PrintableAt(line) == PrintableAt(so) + if ' ' <= line[k] <= '~' then {k} else {};
    }
  }

  /** Kept is a line in which none of the seven names stands anywhere and at least seven characters in ten
    * are printable. */
  lemma KeptMeans(line: string)
    ensures IsKept(line) <==>
            && line != "" && 10 * |PrintableAt(line)| >= 7 * |line|
            && !Contains(line, "FIRMWARE_NAME:") && !Contains(line, "SOURCE_CODE_URL:") && !Contains(line, "PROTOCOL_VERSION:")
            && !Contains(line, "MACHINE_TYPE:") && !Contains(line, "EXTRUDER_COUNT:") && !Contains(line, "UUID:")
            && !Contains(line, "Cap:")
    ensures IsOk(line) <==> |line| >= 2 && line[0] == 'o' && line[1] == 'k'
  {
    PrintableCounts(line);
    assert "FIRMWARE_NAME:" == SPAM[0] && "SOURCE_CODE_URL:" == SPAM[1] && "PROTOCOL_VERSION:" == SPAM[2];
    assert "MACHINE_TYPE:" == SPAM[3] && "EXTRUDER_COUNT:" == SPAM[4] && "UUID:" == SPAM[5] && "Cap:" == SPAM[6];
  }

  predicate IsOk(line: string) {
    "ok" <= line
  }

  // ----- What the lines of a whole stream are -----

  /** The raw lines that a newline ends. */
  function RawLines(stream: seq<Byte>): seq<seq<Byte>> {
    if stream == [] then []
    else if stream[|stream| - 1] != NEWLINE then RawLines(stream[..|stream| - 1])
    else RawLines(stream[..|stream| - 1]) + [Tail(stream[..|stream| - 1])]
  }

  /** What follows the last newline. */
  function Tail(stream: seq<Byte>): seq<Byte> {
    if stream == [] || stream[|stream| - 1] == NEWLINE then []
    else Tail(stream[..|stream| - 1]) + [stream[|stream| - 1]]
  }

  function KeptOf(decode: Decoder, raws: seq<seq<Byte>>): seq<string> {
    if raws == [] then []
    else
      var line := decode(raws[|raws| - 1]);
      KeptOf(decode, raws[..|raws| - 1]) + if IsKept(line) then [line] else []
  }

  predicate HasOk(lines: seq<string>) {
    exists k | 0 <= k < |lines| :: IsOk(lines[k])
  }

  /** Up to and including the first line that starts with "ok". */
  function UpToOk(lines: seq<string>): (r: seq<string>)
    ensures r <= lines
    ensures HasOk(lines) ==> r != [] && IsOk(r[|r| - 1]) && !HasOk(r[..|r| - 1])
  {
    if lines == [] then []
    else if HasOk(lines[..|lines| - 1]) then UpToOk(lines[..|lines| - 1])
    else lines
  }

  /** The result for a stream: its lines up to the "ok", or all of them and the unfinished one. */
  function Captured(decode: Decoder, stream: seq<Byte>): seq<string> {
    var kept := KeptOf(decode, RawLines(stream));
    if HasOk(kept) then UpToOk(kept)
    else
      var last := Tail(stream);
      kept + if last != [] && IsKept(decode(last)) then [decode(last)] else []
  }

  function Joined(chunks: seq<seq<Byte>>): seq<Byte> {
    if chunks == [] then [] else Joined(chunks[..|chunks| - 1]) + chunks[|chunks| - 1]
  }

  // ----- The loop -----

  /** `bytearray.partition` at the first newline. */
  method Partition(buffer: seq<Byte>) returns (raw: seq<Byte>, rest: seq<Byte>)
    requires NEWLINE in buffer
    ensures buffer == raw + [NEWLINE] + rest && NEWLINE !in raw
  {
    var k := 0;
    while buffer[k] != NEWLINE
      invariant k < |buffer| && NEWLINE in buffer[k..] && NEWLINE !in buffer[..k]
      decreases |buffer| - k
    {
      assert buffer[k..] == [buffer[k]] + buffer[k + 1..];
      k := k + 1;
    }
    return buffer[..k], buffer[k + 1..];
  }

  /** `_capture_lines`, over the reads that come within the capture window.  However the stream is cut into
    * reads, the lines are those of the whole. */
  method CaptureLines(decode: Decoder, chunks: seq<seq<Byte>>) returns (lines: seq<string>)
    ensures lines == Captured(decode, Joined(chunks))
  {
    var buffer: seq<Byte> := [];
    lines := [];
    ghost var done: seq<Byte> := [];
    for n := 0 to |chunks|
      invariant Joined(chunks[..n]) == done + buffer && IsClosed(done) && NEWLINE !in buffer
      invariant lines == KeptOf(decode, RawLines(done)) && !HasOk(lines)
    {
      assert chunks[..n + 1][..n] == chunks[..n];
      Associate(done, buffer, chunks[n]);
      buffer := buffer + chunks[n];
      while NEWLINE in buffer
        invariant Joined(chunks[..n + 1]) == done + buffer && IsClosed(done)
        invariant lines == KeptOf(decode, RawLines(done)) && !HasOk(lines)
        decreases |buffer|
      {
        var raw, rest := Partition(buffer);
        OneLineMore(decode, done, raw);
        Regroup(done, raw, rest);
        done := done + (raw + [NEWLINE]);
        buffer := rest;
        var text := decode(raw);
        if IsKept(text) {
          lines := lines + [text];
          if IsOk(text) {
            StartsTheStream(chunks, n + 1);
            OkDecides(decode, done, rest + Joined(chunks[n + 1..]), lines);
            Associate(done, rest, Joined(chunks[n + 1..]));
            return;
          }
        }
      }
    }
    assert chunks[..|chunks|] == chunks;
    ClosedThenOpen(done, buffer);
    if buffer != [] {
      var text := decode(buffer);
      if IsKept(text) {
        lines := lines + [text];
      }
    }
  }

  // ----- Streams taken apart and put together -----

  function Rejoined(raws: seq<seq<Byte>>): seq<Byte> {
    if raws == [] then [] else Rejoined(raws[..|raws| - 1]) + raws[|raws| - 1] + [NEWLINE]
  }

  /** The raw lines and the unfinished one are the stream, cut at its newlines. */
  lemma {:induction false} SplitIsExact(stream: seq<Byte>)
    ensures stream == Rejoined(RawLines(stream)) + Tail(stream)
    ensures NEWLINE !in Tail(stream) && forall k | 0 <= k < |RawLines(stream)| :: NEWLINE !in RawLines(stream)[k]
  {
    if stream != [] {
      var so := stream[..|stream| - 1];
      SplitIsExact(so);
      assert stream == so + [stream[|stream| - 1]];
      if stream[|stream| - 1] == NEWLINE {
        assert RawLines(stream)[..|RawLines(so)|] == RawLines(so);
      }
    }
  }

  /** Nothing is left unfinished at its end. */
  predicate IsClosed(stream: seq<Byte>) {
    stream == [] || stream[|stream| - 1] == NEWLINE
  }

  lemma Regroup(done: seq<Byte>, raw: seq<Byte>, rest: seq<Byte>)
    ensures done + (raw + [NEWLINE] + rest) == (done + (raw + [NEWLINE])) + rest
  {
  }

  lemma {:induction false} LinesOfBoth(a: seq<Byte>, b: seq<Byte>)
    requires IsClosed(a)
    ensures RawLines(a + b) == RawLines(a) + RawLines(b)
    ensures Tail(a + b) == Tail(b)
    decreases |b|
  {
    if b == [] {
      assert a + b == a;
    } else {
      LinesOfBoth(a, b[..|b| - 1]);
      assert (a + b)[..|a + b| - 1] == a + b[..|b| - 1];
    }
  }

  lemma {:induction false} OpenStream(b: seq<Byte>)
    requires NEWLINE !in b
    ensures RawLines(b) == [] && Tail(b) == b
  {
    if b != [] {
      OpenStream(b[..|b| - 1]);
    }
  }

  lemma ClosedThenOpen(done: seq<Byte>, buffer: seq<Byte>)
    requires IsClosed(done) && NEWLINE !in buffer
    ensures RawLines(done + buffer) == RawLines(done) && Tail(done + buffer) == buffer
  {
    LinesOfBoth(done, buffer);
    OpenStream(buffer);
  }

  lemma OneLineMore(decode: Decoder, done: seq<Byte>, raw: seq<Byte>)
    requires IsClosed(done) && NEWLINE !in raw
    ensures IsClosed(done + (raw + [NEWLINE]))
    ensures KeptOf(decode, RawLines(done + (raw + [NEWLINE]))) ==
            KeptOf(decode, RawLines(done)) + if IsKept(decode(raw)) then [decode(raw)] else []
  {
    var line := raw + [NEWLINE];
    LinesOfBoth(done, line);
    OpenStream(raw);
    assert line[..|line| - 1] == raw && RawLines(line) == [raw];
    assert (RawLines(done) + [raw])[..|RawLines(done)|] == RawLines(done);
  }

  lemma {:induction false} KeptOfBoth(decode: Decoder, a: seq<seq<Byte>>, b: seq<seq<Byte>>)
    ensures KeptOf(decode, a + b) == KeptOf(decode, a) + KeptOf(decode, b)
    decreases |b|
  {
    if b == [] {
      assert a + b == a;
    } else {
      KeptOfBoth(decode, a, b[..|b| - 1]);
      assert (a + b)[..|a + b| - 1] == a + b[..|b| - 1];
    }
  }

  /** Line by line, in order: a raw line counts by what it decodes to, and by nothing else. */
  lemma KeptLineByLine(decode: Decoder, a: seq<seq<Byte>>, raw: seq<Byte>, b: seq<seq<Byte>>)
    ensures KeptOf(decode, []) == []
    ensures KeptOf(decode, a + [raw] + b) ==
            KeptOf(decode, a) + (if IsKept(decode(raw)) then [decode(raw)] else []) + KeptOf(decode, b)
  {
    KeptOfBoth(decode, a + [raw], b);
    assert (a + [raw])[..|a|] == a;
  }

  /** While there is no "ok" line, the unfinished one counts like any other; after one, the result ends with
    * the first of them. */
  lemma CapturedMeans(decode: Decoder, stream: seq<Byte>)
    ensures var kept := KeptOf(decode, RawLines(stream));
            && (!HasOk(kept) ==>
                  Captured(decode, stream) == KeptOf(decode, RawLines(stream) + if Tail(stream) != [] then [Tail(stream)] else []))
            && (HasOk(kept) ==>
                  exists n | 0 < n <= |kept| :: Captured(decode, stream) == kept[..n] && IsOk(kept[n - 1]) && !HasOk(kept[..n - 1]))
  {
    var raws, kept := RawLines(stream), KeptOf(decode, RawLines(stream));
    if HasOk(kept) {
      var r := UpToOk(kept);
      assert r == kept[..|r|] && r[..|r| - 1] == kept[..|r| - 1];
    } else if Tail(stream) == [] {
      assert raws + [] == raws;
    } else {
      KeptLineByLine(decode, raws, Tail(stream), []);
      assert raws + [Tail(stream)] + [] == raws + [Tail(stream)];
    }
  }

  lemma {:induction false} UpToOkStops(a: seq<string>, b: seq<string>)
    requires a != [] && IsOk(a[|a| - 1]) && !HasOk(a[..|a| - 1])
    ensures HasOk(a + b) && UpToOk(a + b) == a
    decreases |b|
  {
    if b == [] {
      assert a + b == a;
    } else {
      UpToOkStops(a, b[..|b| - 1]);
      assert (a + b)[..|a + b| - 1] == a + b[..|b| - 1];
    }
    assert IsOk((a + b)[|a| - 1]);
  }

  /** Once the "ok" line is there, nothing that follows in the stream changes the result. */
  lemma OkDecides(decode: Decoder, done: seq<Byte>, rest: seq<Byte>, lines: seq<string>)
    requires IsClosed(done) && lines == KeptOf(decode, RawLines(done))
    requires lines != [] && IsOk(lines[|lines| - 1]) && !HasOk(lines[..|lines| - 1])
    ensures Captured(decode, done + rest) == lines
  {
    LinesOfBoth(done, rest);
    KeptOfBoth(decode, RawLines(done), RawLines(rest));
    UpToOkStops(lines, KeptOf(decode, RawLines(rest)));
  }

  lemma {:induction false} StartsTheStream(chunks: seq<seq<Byte>>, n: nat)
    requires n <= |chunks|
    ensures Joined(chunks) == Joined(chunks[..n]) + Joined(chunks[n..])
    decreases |chunks|
  {
    if n == |chunks| {
      assert chunks[..n] == chunks && chunks[n..] == [];
    } else {
      var so, last := chunks[..|chunks| - 1], chunks[|chunks| - 1];
      StartsTheStream(so, n);
      assert so[..n] == chunks[..n] && chunks[n..][..|chunks| - 1 - n] == so[n..];
      Associate(Joined(so[..n]), Joined(so[n..]), last);
    }
  }
}
