/** From a container to canonical G-code text: metadata first, then the G-code blocks in order. */
module BgcodeContainer {
  import opened Bytes
  import opened Texts
  import opened GcodeFormatter
  import opened MeatPack
  import opened MeatPackCodec
  import opened BgcodeFraming

  const GCODE: nat := 1
  const METADATA: set<nat> := {0, 2, 3, 4}

  /** `;LAYER_CHANGE`, `;LAYER:`, `;TYPE:` and `;Z:`. */
  const MARKERS: seq<seq<Byte>> := [
    [59, 76, 65, 89, 69, 82, 95, 67, 72, 65, 78, 71, 69],
    [59, 76, 65, 89, 69, 82, 58],
    [59, 84, 89, 80, 69, 58],
    [59, 90, 58]]

  predicate HasMarker(text: seq<Byte>) {
    exists m | 0 <= m < |MARKERS| :: Contains(text, MARKERS[m])
  }

  predicate IsAscii(text: string) {
    forall k | 0 <= k < |text| :: text[k] as int < 128
  }

  /** The bytes of a text. */
  function Ascii(text: string): seq<Byte>
    requires IsAscii(text)
  {
    seq(|text|, k requires 0 <= k < |text| => text[k] as int as Byte)
  }

  /** Any one of the four slicer comments is enough, wherever it stands. */
  lemma MarkersByName(text: seq<Byte>)
    ensures HasMarker(text) <==>
            || Contains(text, Ascii(";LAYER_CHANGE")) || Contains(text, Ascii(";LAYER:"))
            || Contains(text, Ascii(";TYPE:")) || Contains(text, Ascii(";Z:"))
  {
    assert MARKERS[0] == Ascii(";LAYER_CHANGE") && MARKERS[1] == Ascii(";LAYER:");
    assert MARKERS[2] == Ascii(";TYPE:") && MARKERS[3] == Ascii(";Z:");
  }

  /** `_decode_metadata_block`; the line tidying is the parameter `tidy`. */
  function DecodeMetadata(block: Block, tidy: seq<Byte> -> seq<Byte>): Result<seq<Byte>> {
    if |block.params| != 2 then Err(MalformedParams)
    else if U16At(block.params, 0) != 0 then Err(UnsupportedEncoding(U16At(block.params, 0)))
    else Ok(tidy(block.payload))
  }

  function DecodeGcode(block: Block): Result<seq<Byte>> {
    if |block.params| != 2 then Err(MalformedParams)
    else
      var encoding := U16At(block.params, 0);
      if encoding == 0 then Ok(block.payload)
      else if encoding == 1 || encoding == 2 then Ok(Formatted(Unpack(START, block.payload)))
      else Err(UnsupportedEncoding(encoding))
  }

  datatype Chunks = Chunks(metadata: seq<Byte>, gcode: seq<Byte>, gcodeBlocks: nat)

  /** What the block loop collects, block by block. */
  function Collect(blocks: seq<Block>, tidy: seq<Byte> -> seq<Byte>): Result<Chunks> {
    if blocks == [] then Ok(Chunks([], [], 0))
    else
      var so :- Collect(blocks[..|blocks| - 1], tidy);
      var block := blocks[|blocks| - 1];
      if block.blockType in METADATA then
        var text :- DecodeMetadata(block, tidy);
        Ok(so.(metadata := so.metadata + text))
      else if block.blockType == GCODE then
        var text :- DecodeGcode(block);
        Ok(so.(gcode := so.gcode + text, gcodeBlocks := so.gcodeBlocks + 1))
      else Ok(so)
  }

  function DecodeText(codec: Codec, raw: seq<Byte>, tidy: seq<Byte> -> seq<Byte>): Result<seq<Byte>> {
    var (blocks, checksumType) :- Parse(codec, raw);
    if checksumType > 1 then Err(UnsupportedChecksum(checksumType))
    else
      var chunks :- Collect(blocks, tidy);
      if chunks.gcodeBlocks == 0 then Err(NoGcode)
      else if !HasMarker(chunks.gcode) then Err(NoMarkers)
      else Ok(chunks.metadata + chunks.gcode)
  }

  /** `decode_bgcode_text`. */
  method DecodeBgcodeText(codec: Codec, raw: seq<Byte>, tidy: seq<Byte> -> seq<Byte>) returns (r: Result<seq<Byte>>)
    ensures r == DecodeText(codec, raw, tidy)
  {
    var parsed := ParseBgcodeBlocks(codec, raw);
    if parsed.Err? {
      return Err(parsed.error);
    }
    var (blocks, checksumType) := parsed.value;
    if checksumType != 0 && checksumType != 1 {
      return Err(UnsupportedChecksum(checksumType));
    }
    var chunks := CollectChunks(blocks, tidy);
    if chunks.Err? {
      return Err(chunks.error);
    }
    if chunks.value.gcodeBlocks == 0 {
      return Err(NoGcode);
    }
    if !HasMarker(chunks.value.gcode) {
      return Err(NoMarkers);
    }
    return Ok(chunks.value.metadata + chunks.value.gcode);
  }

  /** Its block loop. */
  method CollectChunks(blocks: seq<Block>, tidy: seq<Byte> -> seq<Byte>) returns (r: Result<Chunks>)
    ensures r == Collect(blocks, tidy)
  {
    var metadata: seq<Byte>, gcode: seq<Byte>, gcodeBlocks := [], [], 0;
    for i := 0 to |blocks|
      invariant Collect(blocks[..i], tidy) == Ok(Chunks(metadata, gcode, gcodeBlocks))
    {
      CollectStep(blocks, i, tidy);
      var block := blocks[i];
      if block.blockType in METADATA {
        var text := DecodeMetadata(block, tidy);
        if text.Err? {
          CollectStops(blocks, i + 1, tidy);
          return Err(text.error);
        }
        metadata := metadata + text.value;
      } else if block.blockType == GCODE {
        var text := DecodeGcodeBlock(block);
        if text.Err? {
          CollectStops(blocks, i + 1, tidy);
          return Err(text.error);
        }
        gcode := gcode + text.value;
        gcodeBlocks := gcodeBlocks + 1;
      }
    }
    assert blocks[..|blocks|] == blocks;
    return Ok(Chunks(metadata, gcode, gcodeBlocks));
  }

  /** `_decode_gcode_block`, through the decoder object. */
  method DecodeGcodeBlock(block: Block) returns (r: Result<seq<Byte>>)
    ensures r == DecodeGcode(block)
  {
    if |block.params| != 2 {
      return Err(MalformedParams);
    }
    var encoding := U16At(block.params, 0);
    if encoding == 0 {
      return Ok(block.payload);
    }
    if encoding == 1 || encoding == 2 {
      var text := DecodeMeatPack(block.payload);
      return Ok(text);
    }
    return Err(UnsupportedEncoding(encoding));
  }

  lemma CollectStep(blocks: seq<Block>, i: nat, tidy: seq<Byte> -> seq<Byte>)
    requires i < |blocks|
    ensures blocks[..i + 1][..i] == blocks[..i] && blocks[..i + 1][i] == blocks[i]
  {
  }

  /** The first error ends the loop. */
  lemma {:induction false} CollectStops(blocks: seq<Block>, n: nat, tidy: seq<Byte> -> seq<Byte>)
    requires n <= |blocks| && Collect(blocks[..n], tidy).Err?
    ensures Collect(blocks, tidy) == Collect(blocks[..n], tidy)
    decreases |blocks|
  {
    if n == |blocks| {
      assert blocks[..n] == blocks;
    } else {
      var p := blocks[..|blocks| - 1];
      assert p[..n] == blocks[..n];
      CollectStops(p, n, tidy);
    }
  }

  /** The block types and the encodings by their numbers: of a single block, 0 and 2 to 4 give metadata, 1
    * gives code, and any other nothing. */
  lemma OneBlock(block: Block, tidy: seq<Byte> -> seq<Byte>)
    ensures var r, encoding := Collect([block], tidy), if |block.params| == 2 then U16At(block.params, 0) else 0;
            && (block.blockType > 4 ==> r == Ok(Chunks([], [], 0)))
            && (block.blockType <= 4 && |block.params| != 2 ==> r == Err(MalformedParams))
            && (block.blockType in {0, 2, 3, 4} && |block.params| == 2 ==>
                  r == if encoding == 0 then Ok(Chunks(tidy(block.payload), [], 0)) else Err(UnsupportedEncoding(encoding)))
            && (block.blockType == 1 && |block.params| == 2 ==>
                  r == if encoding == 0 then Ok(Chunks([], block.payload, 1))
                       else if encoding in {1, 2} then Ok(Chunks([], Formatted(Unpack(START, block.payload)), 1))
                       else Err(UnsupportedEncoding(encoding)))
  {
    assert [block][..0] == [] && Collect([], tidy) == Ok(Chunks([], [], 0));
    assert forall text: seq<Byte> :: [] + text == text;
  }

  // ----- Writing a container -----

  const THUMBNAIL: nat := 5

  /** How a writer may lay one text out: as it is, packed with spaces, or packed without. */
  datatype Layout = AsIs | WithSpaces | NoSpaces

  /** What a writer puts into one block. */
  datatype Part = Code(text: seq<Byte>, layout: Layout) | Metadata(text: seq<Byte>) | Thumbnail

  function Encoded(text: seq<Byte>, layout: Layout): seq<Byte> {
    match layout
    case AsIs => text
    case WithSpaces => Preamble(false) + Pack(text, false)
    case NoSpaces => Preamble(true) + Pack(WithoutGSpaces(text), true)
  }

  /** The packed bytes hold no accidental escape. */
  predicate IsReadable(text: seq<Byte>, layout: Layout) {
    match layout
    case AsIs => true
    case WithSpaces => Survives(text, false)
    case NoSpaces => Survives(WithoutGSpaces(text), true)
  }

  /** What the layout makes of the text. */
  function Delivered(text: seq<Byte>, layout: Layout): seq<Byte> {
    match layout
    case AsIs => text
    case WithSpaces => Formatted(text)
    case NoSpaces => Formatted(WithoutGSpaces(text))
  }

  /** The encoding field of a layout. */
  function EncodingOf(layout: Layout): nat {
    match layout
    case AsIs => 0
    case WithSpaces => 1
    case NoSpaces => 2
  }

  /** A frame that holds the part, however it is compressed. */
  predicate Holds(codec: Codec, f: Frame, part: Part) {
    match part
    case Code(text, layout) =>
      && f.blockType == GCODE && f.params == LittleEndian16(EncodingOf(layout))
      && Decompress(codec, f.compression, f.stored) == Ok(Encoded(text, layout)) && IsReadable(text, layout)
    case Metadata(text) =>
      && f.blockType in METADATA && f.params == LittleEndian16(0)
      && Decompress(codec, f.compression, f.stored) == Ok(text)
    case Thumbnail => f.blockType == THUMBNAIL
  }

  function Joined(texts: seq<seq<Byte>>): seq<Byte> {
    if texts == [] then [] else Joined(texts[..|texts| - 1]) + texts[|texts| - 1]
  }

  function CodeOf(parts: seq<Part>): seq<seq<Byte>> {
    if parts == [] then []
    else
      var last := parts[|parts| - 1];
      CodeOf(parts[..|parts| - 1]) + if last.Code? then [Delivered(last.text, last.layout)] else []
  }

  function MetadataOf(parts: seq<Part>, tidy: seq<Byte> -> seq<Byte>): seq<seq<Byte>> {
    if parts == [] then []
    else
      var last := parts[|parts| - 1];
      MetadataOf(parts[..|parts| - 1], tidy) + if last.Metadata? then [tidy(last.text)] else []
  }

  function Gathered(parts: seq<Part>, tidy: seq<Byte> -> seq<Byte>): Chunks {
    Chunks(Joined(MetadataOf(parts, tidy)), Joined(CodeOf(parts)), |CodeOf(parts)|)
  }

  /** A layout delivers its text: as it is always, packed with spaces when it is in normal form, packed
    * without exactly when it is canonical. */
  lemma DeliveredUnchanged(text: seq<Byte>, layout: Layout)
    ensures Delivered(text, layout) == text <==>
            match layout case AsIs => true case WithSpaces => IsFormatted(text) case NoSpaces => IsCanonical(text)
  {
    FixedPointsAreNormalForms(text);
    StrippingIsUndone(text);
  }

  lemma BlockRoundTrip(codec: Codec, f: Frame, text: seq<Byte>, layout: Layout)
    requires Holds(codec, f, Code(text, layout))
    ensures DecodeGcode(BlockOf(codec, f)) == Ok(Delivered(text, layout))
  {
    if layout == WithSpaces {
      DecodedIsFormatted(text, false);
    } else if layout == NoSpaces {
      DecodedIsFormatted(WithoutGSpaces(text), true);
    }
  }

  lemma MetadataRoundTrip(codec: Codec, f: Frame, text: seq<Byte>, tidy: seq<Byte> -> seq<Byte>)
    requires Holds(codec, f, Metadata(text))
    ensures DecodeMetadata(BlockOf(codec, f), tidy) == Ok(tidy(text))
  {
  }

  /** What one more block adds to what was collected. */
  lemma CollectSnoc(blocks: seq<Block>, block: Block, so: Chunks, tidy: seq<Byte> -> seq<Byte>)
    requires blocks != [] && blocks[|blocks| - 1] == block && Collect(blocks[..|blocks| - 1], tidy) == Ok(so)
    ensures block.blockType in METADATA && DecodeMetadata(block, tidy).Ok? ==>
              Collect(blocks, tidy) == Ok(so.(metadata := so.metadata + DecodeMetadata(block, tidy).value))
    ensures block.blockType == GCODE && DecodeGcode(block).Ok? ==>
              Collect(blocks, tidy) == Ok(so.(gcode := so.gcode + DecodeGcode(block).value, gcodeBlocks := so.gcodeBlocks + 1))
    ensures block.blockType == THUMBNAIL ==> Collect(blocks, tidy) == Ok(so)
  {
  }

  lemma OneMoreCollected(codec: Codec, blocks: seq<Block>, f: Frame, part: Part, so: Chunks, tidy: seq<Byte> -> seq<Byte>)
    requires Holds(codec, f, part) && Decompress(codec, f.compression, f.stored).Ok?
    requires blocks != [] && blocks[|blocks| - 1] == BlockOf(codec, f) && Collect(blocks[..|blocks| - 1], tidy) == Ok(so)
    ensures Collect(blocks, tidy) ==
            match part
            case Code(text, layout) => Ok(so.(gcode := so.gcode + Delivered(text, layout), gcodeBlocks := so.gcodeBlocks + 1))
            case Metadata(text) => Ok(so.(metadata := so.metadata + tidy(text)))
            case Thumbnail => Ok(so)
  {
    CollectSnoc(blocks, BlockOf(codec, f), so, tidy);
    if part.Code? {
      BlockRoundTrip(codec, f, part.text, part.layout);
    } else if part.Metadata? {
      MetadataRoundTrip(codec, f, part.text, tidy);
    }
  }

  lemma JoinedSnoc(texts: seq<seq<Byte>>, text: seq<Byte>)
    ensures Joined(texts + [text]) == Joined(texts) + text
  {
    assert (texts + [text])[..|texts|] == texts;
  }

  lemma {:induction false} AllCollected(codec: Codec, frames: seq<Frame>, parts: seq<Part>, checksumType: nat, tidy: seq<Byte> -> seq<Byte>)
    requires AllWellFormed(codec, frames, checksumType) && |frames| == |parts|
    requires forall i | 0 <= i < |frames| :: Holds(codec, frames[i], parts[i])
    ensures Collect(BlocksOf(codec, frames, checksumType), tidy) == Ok(Gathered(parts, tidy))
  {
    if frames != [] {
      var n := |frames| - 1;
      var blocks := BlocksOf(codec, frames, checksumType);
      assert blocks[..n] == BlocksOf(codec, frames[..n], checksumType);
      AllCollected(codec, frames[..n], parts[..n], checksumType, tidy);
      OneMoreCollected(codec, blocks, frames[n], parts[n], Gathered(parts[..n], tidy), tidy);
      OneMoreGathered(parts, tidy);
    }
  }

  lemma OneMoreGathered(parts: seq<Part>, tidy: seq<Byte> -> seq<Byte>)
    requires parts != []
    ensures var so := Gathered(parts[..|parts| - 1], tidy);
            Gathered(parts, tidy) ==
            match parts[|parts| - 1]
            case Code(text, layout) => so.(gcode := so.gcode + Delivered(text, layout), gcodeBlocks := so.gcodeBlocks + 1)
            case Metadata(text) => so.(metadata := so.metadata + tidy(text))
            case Thumbnail => so
  {
    var so, last := parts[..|parts| - 1], parts[|parts| - 1];
    assert CodeOf(so) + [] == CodeOf(so) && MetadataOf(so, tidy) + [] == MetadataOf(so, tidy);
    if last.Code? {
      JoinedSnoc(CodeOf(so), Delivered(last.text, last.layout));
    } else if last.Metadata? {
      JoinedSnoc(MetadataOf(so, tidy), tidy(last.text));
    }
  }

  /** The whole way: whatever a writer puts into its blocks, in whatever order, laid out and compressed as
    * it chose, the text is the tidied metadata and then the code, each in order, provided that there is
    * code and that it holds a layer or type marker.  Thumbnails leave no trace. */
  lemma ContainerRoundTrip(codec: Codec, frames: seq<Frame>, parts: seq<Part>, checksumType: nat, tidy: seq<Byte> -> seq<Byte>)
    requires checksumType <= 1 && AllWellFormed(codec, frames, checksumType) && |frames| == |parts|
    requires forall i | 0 <= i < |frames| :: Holds(codec, frames[i], parts[i])
    ensures var code := CodeOf(parts);
            DecodeText(codec, Container(codec, frames, checksumType), tidy) ==
            if code == [] then Err(NoGcode)
            else if HasMarker(Joined(code)) then Ok(Joined(MetadataOf(parts, tidy)) + Joined(code))
            else Err(NoMarkers)
  {
    ParseInvertsContainer(codec, frames, checksumType);
    AllCollected(codec, frames, parts, checksumType, tidy);
  }

  /** A checksum type above 1 is skipped over as one of four bytes, and refused once the blocks are read. */
  lemma OtherChecksumsAreRefused(codec: Codec, frames: seq<Frame>, checksumType: nat, tidy: seq<Byte> -> seq<Byte>)
    requires 1 < checksumType < 65536 && AllWellFormed(codec, frames, checksumType)
    ensures DecodeText(codec, Container(codec, frames, checksumType), tidy) == Err(UnsupportedChecksum(checksumType))
    ensures forall i | 0 <= i < |frames| :: |frames[i].checksum| == 4
  {
    ParseInvertsContainer(codec, frames, checksumType);
    assert forall i | 0 <= i < |frames| :: WellFormed(codec, frames[i], checksumType);
  }
}
