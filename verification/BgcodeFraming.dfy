/** The block framing of a binary G-code container. */
module BgcodeFraming {
  import opened Wrappers
  import opened Bytes

  datatype Block = Block(blockType: nat, compression: nat, payload: seq<Byte>, params: seq<Byte>)

  datatype Error =
    | TooShort | MissingMagic | UnsupportedVersion(version: nat)
    | TruncatedBlockHeader | TruncatedCompressedHeader | UnsupportedBlockType(blockType: nat)
    | TruncatedPayload | DecompressionFailed | UnsupportedCompression(compression: nat)
    | UnsupportedChecksum(checksum: nat) | MalformedParams | UnsupportedEncoding(encoding: nat)
    | NoGcode | NoMarkers

  datatype Result<+T> = Ok(value: T) | Err(error: Error) {
    predicate IsFailure() { Err? }
    function PropagateFailure<U>(): Result<U> requires Err? { Err(error) }
    function Extract(): T requires Ok? { value }
  }

  /** The foreign decompressors; `None` is their failure. */
  datatype Codec = Codec(
    inflate: seq<Byte> -> Option<seq<Byte>>,
    heatshrink: (nat, nat, seq<Byte>) -> Option<seq<Byte>>)

  const MAGIC: seq<Byte> := [71, 67, 68, 69]

  function ParamsLength(blockType: nat): Option<nat> {
    if blockType <= 4 then Some(2) else if blockType == 5 then Some(6) else None
  }

  function Decompress(codec: Codec, compression: nat, stored: seq<Byte>): Result<seq<Byte>> {
    if compression == 0 then Ok(stored)
    else if compression <= 3 then
      var out := if compression == 1 then codec.inflate(stored)
                 else codec.heatshrink(if compression == 2 then 11 else 12, 4, stored);
      if out.Some? then Ok(out.value) else Err(DecompressionFailed)
    else Err(UnsupportedCompression(compression))
  }

  function ChecksumLength(checksumType: nat): nat {
    if checksumType == 0 then 0 else 4
  }

  /** The fixed fields of a block, and where its params start. */
  datatype Header = Header(blockType: nat, compression: nat, size: nat, storedSize: nat, length: nat)

  function ParseHeader(s: seq<Byte>): Result<Header> {
    if 8 > |s| then Err(TruncatedBlockHeader)
    else if U16At(s, 2) == 0 then Ok(Header(U16At(s, 0), 0, U32At(s, 4), U32At(s, 4), 8))
    else if 12 > |s| then Err(TruncatedCompressedHeader)
    else Ok(Header(U16At(s, 0), U16At(s, 2), U32At(s, 4), U32At(s, 8), 12))
  }

  /** One round of the framing loop on what is left of the input: the block and the bytes it took. */
  function ParseBlock(codec: Codec, s: seq<Byte>, checksumType: nat): (r: Result<(Block, nat)>)
    ensures r.Ok? ==> 10 <= r.value.1 <= |s|
  {
    var h :- ParseHeader(s);
    match ParamsLength(h.blockType)
    case None => Err(UnsupportedBlockType(h.blockType))
    case Some(paramsLength) =>
      var dataStart := h.length + paramsLength;
      var dataEnd := dataStart + h.storedSize;
      if dataEnd + ChecksumLength(checksumType) > |s| then Err(TruncatedPayload)
      else
        var payload :- Decompress(codec, h.compression, s[dataStart..dataEnd]);
        Ok((Block(h.blockType, h.compression, payload, s[h.length..dataStart]), dataEnd + ChecksumLength(checksumType)))
  }

  function ParseBlocks(codec: Codec, s: seq<Byte>, checksumType: nat): Result<seq<Block>>
    decreases |s|
  {
    if s == [] then Ok([])
    else
      var (block, n) :- ParseBlock(codec, s, checksumType);
      var rest :- ParseBlocks(codec, s[n..], checksumType);
      Ok([block] + rest)
  }

  function Parse(codec: Codec, raw: seq<Byte>): Result<(seq<Block>, nat)> {
    if |raw| < 10 then Err(TooShort)
    else if raw[..4] != MAGIC then Err(MissingMagic)
    else if U32At(raw, 4) != 1 then Err(UnsupportedVersion(U32At(raw, 4)))
    else
      var blocks :- ParseBlocks(codec, raw[10..], U16At(raw, 8));
      Ok((blocks, U16At(raw, 8)))
  }

  /** The body of the framing loop: the block at `offset`, and the offset after it. */
  method ReadBlock(codec: Codec, raw: seq<Byte>, offset: nat, checksumType: nat) returns (r: Result<(Block, nat)>)
    requires offset < |raw|
    ensures var s := ParseBlock(codec, raw[offset..], checksumType);
            r == if s.Ok? then Ok((s.value.0, offset + s.value.1)) else Err(s.error)
  {
    ghost var s := raw[offset..];
    if offset + 8 > |raw| {
      return Err(TruncatedBlockHeader);
    }
    var blockType, compression := U16At(raw, offset), U16At(raw, offset + 2);
    var uncompressedSize := U32At(raw, offset + 4);
    var compressedSize, headerLength := uncompressedSize, 8;
    if compression != 0 {
      if offset + 12 > |raw| {
        return Err(TruncatedCompressedHeader);
      }
      compressedSize := U32At(raw, offset + 8);
      headerLength := 12;
    }
    assert ParseHeader(s) == Ok(Header(blockType, compression, uncompressedSize, compressedSize, headerLength));
    var paramsLength := ParamsLength(blockType);
    if paramsLength == None {
      return Err(UnsupportedBlockType(blockType));
    }
    var paramsStart := offset + headerLength;
    var dataStart := paramsStart + paramsLength.value;
    var dataEnd := dataStart + compressedSize;
    var checksumLength := if checksumType != 0 then 4 else 0;
    if dataEnd + checksumLength > |raw| {
      return Err(TruncatedPayload);
    }
    var params := raw[paramsStart..dataStart];
    var stored := raw[dataStart..dataEnd];
    SliceShift(raw, offset, paramsStart, dataStart);
    SliceShift(raw, offset, dataStart, dataEnd);
    var payload := Decompress(codec, compression, stored);
    if payload.Err? {
      return Err(payload.error);
    }
    return Ok((Block(blockType, compression, payload.value, params), dataEnd + checksumLength));
  }

  lemma SliceShift(s: seq<Byte>, offset: nat, i: nat, j: nat)
    requires offset <= i <= j <= |s|
    ensures s[i..j] == s[offset..][i - offset..j - offset]
  {
  }

  /** `_parse_bgcode_blocks`. */
  method ParseBgcodeBlocks(codec: Codec, raw: seq<Byte>) returns (r: Result<(seq<Block>, nat)>)
    ensures r == Parse(codec, raw)
  {
    if |raw| < 10 {
      return Err(TooShort);
    }
    if raw[..4] != MAGIC {
      return Err(MissingMagic);
    }
    var version := U32At(raw, 4);
    if version != 1 {
      return Err(UnsupportedVersion(version));
    }
    var checksumType := U16At(raw, 8);
    var blocks := ReadBlocks(codec, raw, checksumType);
    if blocks.Err? {
      return Err(blocks.error);
    }
    return Ok((blocks.value, checksumType));
  }

  /** Its loop over `offset`, which ends on every input. */
  method ReadBlocks(codec: Codec, raw: seq<Byte>, checksumType: nat) returns (r: Result<seq<Block>>)
    requires 10 <= |raw|
    ensures r == ParseBlocks(codec, raw[10..], checksumType)
  {
    var offset := 10;
    var blocks: seq<Block> := [];
    NoneRead(codec, raw, checksumType);
    while offset < |raw|
      invariant IsRead(codec, raw, checksumType, blocks, offset)
    {
      var next := ReadBlock(codec, raw, offset, checksumType);
      if next.Err? {
        NoBlock(codec, raw, offset, blocks, checksumType);
        return Err(next.error);
      }
      NextBlock(codec, raw, offset, blocks, checksumType, next.value.0, next.value.1);
      blocks, offset := blocks + [next.value.0], next.value.1;
    }
    AllRead(codec, raw, blocks, checksumType);
    return Ok(blocks);
  }

  /** The blocks are those before `offset`. */
  ghost predicate IsRead(codec: Codec, raw: seq<Byte>, checksumType: nat, blocks: seq<Block>, offset: nat) {
    && 10 <= offset <= |raw|
    && ParseBlocks(codec, raw[10..], checksumType) == After(blocks, ParseBlocks(codec, raw[offset..], checksumType))
  }

  lemma NoneRead(codec: Codec, raw: seq<Byte>, checksumType: nat)
    requires 10 <= |raw|
    ensures IsRead(codec, raw, checksumType, [], 10)
  {
    AfterNone(ParseBlocks(codec, raw[10..], checksumType));
  }

  lemma AllRead(codec: Codec, raw: seq<Byte>, blocks: seq<Block>, checksumType: nat)
    requires IsRead(codec, raw, checksumType, blocks, |raw|)
    ensures ParseBlocks(codec, raw[10..], checksumType) == Ok(blocks)
  {
    assert raw[|raw|..] == [] && blocks + [] == blocks;
  }

  lemma AfterNone(r: Result<seq<Block>>)
    ensures After([], r) == r
  {
    if r.Ok? {
      assert [] + r.value == r.value;
    }
  }

  lemma NoBlock(codec: Codec, raw: seq<Byte>, offset: nat, blocks: seq<Block>, checksumType: nat)
    requires IsRead(codec, raw, checksumType, blocks, offset) && offset < |raw|
    requires ParseBlock(codec, raw[offset..], checksumType).Err?
    ensures ParseBlocks(codec, raw[10..], checksumType) == Err(ParseBlock(codec, raw[offset..], checksumType).error)
  {
  }

  lemma NextBlock(codec: Codec, raw: seq<Byte>, offset: nat, blocks: seq<Block>, checksumType: nat, block: Block, next: nat)
    requires IsRead(codec, raw, checksumType, blocks, offset) && offset < |raw| && offset <= next
    requires ParseBlock(codec, raw[offset..], checksumType) == Ok((block, next - offset))
    ensures IsRead(codec, raw, checksumType, blocks + [block], next)
  {
    ParseBlocksCons(codec, raw[offset..], checksumType);
    assert raw[offset..][next - offset..] == raw[next..];
    AfterAfter(blocks, block, ParseBlocks(codec, raw[next..], checksumType));
  }

  lemma AfterAfter(blocks: seq<Block>, block: Block, r: Result<seq<Block>>)
    ensures After(blocks, After([block], r)) == After(blocks + [block], r)
  {
    if r.Ok? {
      assert blocks + ([block] + r.value) == blocks + [block] + r.value;
    }
  }

  ghost function After(blocks: seq<Block>, r: Result<seq<Block>>): Result<seq<Block>> {
    if r.Ok? then Ok(blocks + r.value) else r
  }

  // ----- The container format, as a writer lays it out -----

  /** A block as it is on the wire.  `size` is the uncompressed size, `stored` the bytes after
    * compression. */
  datatype Frame = Frame(
    blockType: nat, compression: nat, size: nat,
    params: seq<Byte>, stored: seq<Byte>, checksum: seq<Byte>)

  predicate WellFormed(codec: Codec, f: Frame, checksumType: nat) {
    && f.blockType <= 5 && f.compression < 65536 && f.size < 0x1_0000_0000 && |f.stored| < 0x1_0000_0000
    && (f.compression == 0 ==> f.size == |f.stored|)
    && Some(|f.params|) == ParamsLength(f.blockType)
    && |f.checksum| == ChecksumLength(checksumType)
    && Decompress(codec, f.compression, f.stored).Ok?
  }

  function HeaderBytes(f: Frame): (b: seq<Byte>)
    requires f.blockType < 65536 && f.compression < 65536 && f.size < 0x1_0000_0000 && |f.stored| < 0x1_0000_0000
    ensures |b| == if f.compression == 0 then 8 else 12
  {
    LittleEndian16(f.blockType) + LittleEndian16(f.compression) + LittleEndian32(f.size)
    + if f.compression == 0 then [] else LittleEndian32(|f.stored|)
  }

  function Wire(codec: Codec, f: Frame, checksumType: nat): seq<Byte>
    requires WellFormed(codec, f, checksumType)
  {
    HeaderBytes(f) + f.params + f.stored + f.checksum
  }

  predicate AllWellFormed(codec: Codec, frames: seq<Frame>, checksumType: nat) {
    forall i | 0 <= i < |frames| :: WellFormed(codec, frames[i], checksumType)
  }

  function WireAll(codec: Codec, frames: seq<Frame>, checksumType: nat): seq<Byte>
    requires AllWellFormed(codec, frames, checksumType)
  {
    if frames == [] then []
    else Wire(codec, frames[0], checksumType) + WireAll(codec, frames[1..], checksumType)
  }

  function FileHeader(checksumType: nat): seq<Byte>
    requires checksumType < 65536
  {
    MAGIC + LittleEndian32(1) + LittleEndian16(checksumType)
  }

  /** The block that a frame stands for. */
  function BlockOf(codec: Codec, f: Frame): Block
    requires Decompress(codec, f.compression, f.stored).Ok?
  {
    Block(f.blockType, f.compression, Decompress(codec, f.compression, f.stored).value, f.params)
  }

  function BlocksOf(codec: Codec, frames: seq<Frame>, checksumType: nat): (blocks: seq<Block>)
    requires AllWellFormed(codec, frames, checksumType)
    ensures |blocks| == |frames| && forall i | 0 <= i < |frames| :: blocks[i] == BlockOf(codec, frames[i])
  {
    seq(|frames|, i requires 0 <= i < |frames| && WellFormed(codec, frames[i], checksumType) => BlockOf(codec, frames[i]))
  }

  /** A container with these frames. */
  function Container(codec: Codec, frames: seq<Frame>, checksumType: nat): seq<Byte>
    requires AllWellFormed(codec, frames, checksumType) && checksumType < 65536
  {
    FileHeader(checksumType) + WireAll(codec, frames, checksumType)
  }

  lemma HeaderRoundTrip(f: Frame, tail: seq<Byte>)
    requires f.blockType < 65536 && f.compression < 65536 && f.size < 0x1_0000_0000 && |f.stored| < 0x1_0000_0000
    requires f.compression == 0 ==> f.size == |f.stored|
    ensures ParseHeader(HeaderBytes(f) + tail) ==
            Ok(Header(f.blockType, f.compression, f.size, |f.stored|, |HeaderBytes(f)|))
  {
    var s := HeaderBytes(f) + tail;
    var a, b, c, d := LittleEndian16(f.blockType), LittleEndian16(f.compression), LittleEndian32(f.size), LittleEndian32(|f.stored|);
    assert s[0] == a[0] && s[1] == a[1] && s[2] == b[0] && s[3] == b[1];
    assert s[4] == c[0] && s[5] == c[1] && s[6] == c[2] && s[7] == c[3];
    if f.compression != 0 {
      assert s[8] == d[0] && s[9] == d[1] && s[10] == d[2] && s[11] == d[3];
    }
  }

  lemma Slices(a: seq<Byte>, b: seq<Byte>, c: seq<Byte>, d: seq<Byte>)
    ensures var s := a + b + c + d;
            && s[|a|..|a| + |b|] == b
            && s[|a| + |b|..|a| + |b| + |c|] == c
            && s == a + (b + c + d)
  {
  }

  lemma ParseInvertsWire(codec: Codec, f: Frame, checksumType: nat, rest: seq<Byte>)
    requires WellFormed(codec, f, checksumType)
    ensures ParseBlock(codec, Wire(codec, f, checksumType) + rest, checksumType)
            == Ok((BlockOf(codec, f), |Wire(codec, f, checksumType)|))
  {
    var h := HeaderBytes(f);
    assert Wire(codec, f, checksumType) + rest == h + f.params + f.stored + (f.checksum + rest);
    Slices(h, f.params, f.stored, f.checksum + rest);
    HeaderRoundTrip(f, f.params + f.stored + (f.checksum + rest));
  }

  /** The frame that a parsed block was read from. */
  function FrameOf(codec: Codec, s: seq<Byte>, checksumType: nat): Frame
    requires ParseBlock(codec, s, checksumType).Ok?
  {
    var h, n := ParseHeader(s).value, ParseBlock(codec, s, checksumType).value.1;
    var dataStart := h.length + ParamsLength(h.blockType).value;
    var dataEnd := dataStart + h.storedSize;
    Frame(h.blockType, h.compression, h.size, s[h.length..dataStart], s[dataStart..dataEnd], s[dataEnd..n])
  }

  lemma HeaderIsCanonical(s: seq<Byte>, f: Frame)
    requires ParseHeader(s) == Ok(Header(f.blockType, f.compression, f.size, |f.stored|, if f.compression == 0 then 8 else 12))
    ensures f.blockType < 65536 && f.compression < 65536 && f.size < 0x1_0000_0000 && |f.stored| < 0x1_0000_0000
    ensures HeaderBytes(f) == s[..|HeaderBytes(f)|]
  {
    FieldsAreCanonical(s, 0);
    FieldsAreCanonical(s, 2);
    FieldsAreCanonical(s, 4);
    FieldsAreCanonical(s, 8);
    if f.compression == 0 {
      assert s[..8] == s[0..2] + s[2..4] + s[4..8] + [];
    } else {
      assert s[..12] == s[0..2] + s[2..4] + s[4..8] + s[8..12];
    }
  }

  lemma WireInvertsParse(codec: Codec, s: seq<Byte>, checksumType: nat)
    requires ParseBlock(codec, s, checksumType).Ok?
    ensures var f, n := FrameOf(codec, s, checksumType), ParseBlock(codec, s, checksumType).value.1;
            && WellFormed(codec, f, checksumType)
            && Wire(codec, f, checksumType) == s[..n]
            && BlockOf(codec, f) == ParseBlock(codec, s, checksumType).value.0
  {
    var f, n := FrameOf(codec, s, checksumType), ParseBlock(codec, s, checksumType).value.1;
    var h := ParseHeader(s).value;
    var dataStart := h.length + |f.params|;
    var dataEnd := dataStart + h.storedSize;
    HeaderIsCanonical(s, f);
    Cuts(s, h.length, dataStart, dataEnd, n);
  }

  lemma Cuts(s: seq<Byte>, i: nat, j: nat, k: nat, n: nat)
    requires i <= j <= k <= n <= |s|
    ensures s[..i] + s[i..j] + s[j..k] + s[k..n] == s[..n]
  {
  }

  lemma ParseBlocksCons(codec: Codec, s: seq<Byte>, checksumType: nat)
    requires ParseBlock(codec, s, checksumType).Ok?
    ensures var (block, n) := ParseBlock(codec, s, checksumType).value;
            ParseBlocks(codec, s, checksumType) == After([block], ParseBlocks(codec, s[n..], checksumType))
  {
  }

  lemma BlocksOfCons(codec: Codec, f: Frame, frames: seq<Frame>, checksumType: nat)
    requires WellFormed(codec, f, checksumType) && AllWellFormed(codec, frames, checksumType)
    ensures AllWellFormed(codec, [f] + frames, checksumType)
    ensures BlocksOf(codec, [f] + frames, checksumType) == [BlockOf(codec, f)] + BlocksOf(codec, frames, checksumType)
    ensures WireAll(codec, [f] + frames, checksumType) == Wire(codec, f, checksumType) + WireAll(codec, frames, checksumType)
  {
    assert ([f] + frames)[1..] == frames;
  }

  lemma {:induction false} ParseAllInvertsWireAll(codec: Codec, frames: seq<Frame>, checksumType: nat)
    requires AllWellFormed(codec, frames, checksumType)
    ensures ParseBlocks(codec, WireAll(codec, frames, checksumType), checksumType)
            == Ok(BlocksOf(codec, frames, checksumType))
  {
    if frames != [] {
      var f, rest := frames[0], WireAll(codec, frames[1..], checksumType);
      ParseAllInvertsWireAll(codec, frames[1..], checksumType);
      assert frames == [f] + frames[1..];
      BlocksOfCons(codec, f, frames[1..], checksumType);
      ParseInvertsWire(codec, f, checksumType, rest);
      var w := Wire(codec, f, checksumType);
      assert (w + rest)[|w|..] == rest;
      ParseBlocksCons(codec, w + rest, checksumType);
    }
  }

  lemma {:induction false} WireAllInvertsParseAll(codec: Codec, s: seq<Byte>, checksumType: nat) returns (frames: seq<Frame>)
    requires ParseBlocks(codec, s, checksumType).Ok?
    ensures AllWellFormed(codec, frames, checksumType)
    ensures WireAll(codec, frames, checksumType) == s
    ensures BlocksOf(codec, frames, checksumType) == ParseBlocks(codec, s, checksumType).value
    decreases |s|
  {
    if s == [] {
      return [];
    }
    var n := ParseBlock(codec, s, checksumType).value.1;
    ParseBlocksCons(codec, s, checksumType);
    var rest := WireAllInvertsParseAll(codec, s[n..], checksumType);
    frames := [FrameOf(codec, s, checksumType)] + rest;
    WireAllCons(codec, s, rest, checksumType);
  }

  lemma WireAllCons(codec: Codec, s: seq<Byte>, rest: seq<Frame>, checksumType: nat)
    requires ParseBlock(codec, s, checksumType).Ok? && AllWellFormed(codec, rest, checksumType)
    requires WireAll(codec, rest, checksumType) == s[ParseBlock(codec, s, checksumType).value.1..]
    ensures var frames := [FrameOf(codec, s, checksumType)] + rest;
            && AllWellFormed(codec, frames, checksumType)
            && WireAll(codec, frames, checksumType) == s
            && BlocksOf(codec, frames, checksumType) ==
               [ParseBlock(codec, s, checksumType).value.0] + BlocksOf(codec, rest, checksumType)
  {
    var n := ParseBlock(codec, s, checksumType).value.1;
    WireInvertsParse(codec, s, checksumType);
    BlocksOfCons(codec, FrameOf(codec, s, checksumType), rest, checksumType);
    assert s == s[..n] + s[n..];
  }

  lemma FileHeaderIsCanonical(raw: seq<Byte>)
    requires |raw| >= 10 && raw[..4] == MAGIC && U32At(raw, 4) == 1
    ensures U16At(raw, 8) < 65536 && FileHeader(U16At(raw, 8)) == raw[..10]
  {
    FieldsAreCanonical(raw, 4);
    FieldsAreCanonical(raw, 8);
    assert raw[..10] == raw[..4] + raw[4..8] + raw[8..10];
  }

  lemma ParsedIsContainer(codec: Codec, raw: seq<Byte>, blocks: seq<Block>, checksumType: nat) returns (frames: seq<Frame>)
    requires Parse(codec, raw) == Ok((blocks, checksumType))
    ensures checksumType < 65536 && AllWellFormed(codec, frames, checksumType)
    ensures Container(codec, frames, checksumType) == raw && BlocksOf(codec, frames, checksumType) == blocks
  {
    frames := WireAllInvertsParseAll(codec, raw[10..], checksumType);
    FileHeaderIsCanonical(raw);
    assert raw == raw[..10] + raw[10..];
  }

  /** The parser accepts exactly the containers: it returns these blocks if and only if the input is, byte
    * for byte and with nothing left over, the file header followed by well-formed frames of these blocks. */
  lemma ParserAcceptsExactlyContainers(codec: Codec, raw: seq<Byte>, blocks: seq<Block>, checksumType: nat)
    ensures Parse(codec, raw) == Ok((blocks, checksumType)) <==>
            checksumType < 65536 &&
            exists frames | AllWellFormed(codec, frames, checksumType) ::
              Container(codec, frames, checksumType) == raw && BlocksOf(codec, frames, checksumType) == blocks
  {
    if Parse(codec, raw) == Ok((blocks, checksumType)) {
      var _ := ParsedIsContainer(codec, raw, blocks, checksumType);
    }
    if checksumType < 65536 {
      forall frames | AllWellFormed(codec, frames, checksumType) && Container(codec, frames, checksumType) == raw
        ensures Parse(codec, raw) == Ok((BlocksOf(codec, frames, checksumType), checksumType))
      {
        ParseInvertsContainer(codec, frames, checksumType);
      }
    }
  }

  lemma ParseInvertsContainer(codec: Codec, frames: seq<Frame>, checksumType: nat)
    requires AllWellFormed(codec, frames, checksumType) && checksumType < 65536
    ensures Parse(codec, Container(codec, frames, checksumType))
            == Ok((BlocksOf(codec, frames, checksumType), checksumType))
  {
    FileHeaderRoundTrip(checksumType, WireAll(codec, frames, checksumType));
    ParseAllInvertsWireAll(codec, frames, checksumType);
  }

  lemma FileHeaderRoundTrip(checksumType: nat, rest: seq<Byte>)
    requires checksumType < 65536
    ensures var raw := FileHeader(checksumType) + rest;
            raw[..4] == MAGIC && U32At(raw, 4) == 1 && U16At(raw, 8) == checksumType && raw[10..] == rest
  {
    var raw := FileHeader(checksumType) + rest;
    var version, checksum := LittleEndian32(1), LittleEndian16(checksumType);
    assert raw[4] == version[0] && raw[5] == version[1] && raw[6] == version[2] && raw[7] == version[3];
    assert raw[8] == checksum[0] && raw[9] == checksum[1];
  }

  // ----- The format by its bytes -----

  /** A container with one thumbnail, compressed by heatshrink with its small window, and one plain G-code
    * block, byte by byte: "GCDE", version 1, checksums of four bytes, and the small end first. */
  lemma ContainerByBytes(codec: Codec, size: Byte, p: seq<Byte>, image: seq<Byte>, q: seq<Byte>, text: seq<Byte>, crc: seq<Byte>, crc': seq<Byte>)
    requires |p| == 6 && |q| == 2 && |crc| == 4 && |crc'| == 4 && |image| < 256 && |text| < 256
    requires codec.heatshrink(11, 4, image).Some?
    ensures Parse(codec, [71, 67, 68, 69, 1, 0, 0, 0, 1, 0]
                         + ([5, 0, 2, 0, size, 2, 0, 0, |image|, 0, 0, 0] + p + image + crc
                         + ([1, 0, 0, 0, |text|, 0, 0, 0] + q + text + crc')))
            == Ok(([Block(5, 2, codec.heatshrink(11, 4, image).value, p), Block(1, 0, text, q)], 1))
  {
    var f, g := Frame(5, 2, size + 512, p, image, crc), Frame(1, 0, |text|, q, text, crc');
    ThumbnailByBytes(codec, f, size);
    PlainByBytes(codec, g);
    TwoFrames(codec, f, g);
    ParseInvertsContainer(codec, [f, g], 1);
  }

  lemma ThumbnailByBytes(codec: Codec, f: Frame, size: Byte)
    requires f.blockType == 5 && f.compression == 2 && f.size == size as int + 512
    requires |f.params| == 6 && |f.checksum| == 4 && |f.stored| < 256 && codec.heatshrink(11, 4, f.stored).Some?
    ensures WellFormed(codec, f, 1)
    ensures BlockOf(codec, f) == Block(5, 2, codec.heatshrink(11, 4, f.stored).value, f.params)
    ensures Wire(codec, f, 1) == [5, 0, 2, 0, size, 2, 0, 0, |f.stored|, 0, 0, 0] + f.params + f.stored + f.checksum
  {
    assert HeaderBytes(f) == [5, 0, 2, 0, size, 2, 0, 0, |f.stored|, 0, 0, 0];
  }

  lemma PlainByBytes(codec: Codec, g: Frame)
    requires g.blockType == 1 && g.compression == 0 && g.size == |g.stored| < 256 && |g.params| == 2 && |g.checksum| == 4
    ensures WellFormed(codec, g, 1) && BlockOf(codec, g) == Block(1, 0, g.stored, g.params)
    ensures Wire(codec, g, 1) == [1, 0, 0, 0, |g.stored|, 0, 0, 0] + g.params + g.stored + g.checksum
  {
    assert HeaderBytes(g) == [1, 0, 0, 0, |g.stored|, 0, 0, 0];
  }

  lemma TwoFrames(codec: Codec, f: Frame, g: Frame)
    requires WellFormed(codec, f, 1) && WellFormed(codec, g, 1)
    ensures AllWellFormed(codec, [f, g], 1)
    ensures Container(codec, [f, g], 1) == [71, 67, 68, 69, 1, 0, 0, 0, 1, 0] + (Wire(codec, f, 1) + Wire(codec, g, 1))
    ensures BlocksOf(codec, [f, g], 1) == [BlockOf(codec, f), BlockOf(codec, g)]
  {
    assert [f, g][1..] == [g] && [g][1..] == [];
    assert WireAll(codec, [g], 1) == Wire(codec, g, 1) + [];
    assert FileHeader(1) == [71, 67, 68, 69, 1, 0, 0, 0, 1, 0];
  }

  /** The block types and the compressions by their numbers. */
  lemma CodesByNumber(codec: Codec, blockType: nat, compression: nat, s: seq<Byte>)
    ensures ParamsLength(blockType) == if blockType == 5 then Some(6) else if blockType in {0, 1, 2, 3, 4} then Some(2) else None
    ensures compression in {1, 2, 3} ==>
              var out := [codec.inflate(s), codec.heatshrink(11, 4, s), codec.heatshrink(12, 4, s)][compression - 1];
              Decompress(codec, compression, s) == if out.Some? then Ok(out.value) else Err(DecompressionFailed)
    ensures compression !in {1, 2, 3} ==>
              Decompress(codec, compression, s) == if compression == 0 then Ok(s) else Err(UnsupportedCompression(compression))
  {
  }
}
