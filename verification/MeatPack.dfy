/** The MeatPack decoder: a byte-driven machine that unpacks, feeding the formatter. */
module MeatPack {
  import opened Wrappers
  import opened Bytes
  import opened GcodeFormatter

  const SIGNAL: Byte := 0xFF
  const ENABLE_PACKING: Byte := 251
  const DISABLE_PACKING: Byte := 250
  const RESET_ALL: Byte := 249
  const ENABLE_NO_SPACES: Byte := 247
  const DISABLE_NO_SPACES: Byte := 246

  /** The unpacking half of the decoder's state. */
  datatype Unpacker = Unpacker(
    unbinarizing: bool, noSpaces: bool,
    commandActive: bool, commandCount: nat,
    fullCharQueue: nat, charBuffer: Option<Byte>)

  const START := Unpacker(false, false, false, 0, 0, None)

  function HandleCommand(u: Unpacker, value: Byte): Unpacker {
    if value == ENABLE_PACKING then u.(unbinarizing := true)
    else if value == DISABLE_PACKING then u.(unbinarizing := false)
    else if value == ENABLE_NO_SPACES then u.(noSpaces := true)
    else if value == DISABLE_NO_SPACES then u.(noSpaces := false)
    else if value == RESET_ALL then u.(unbinarizing := false, noSpaces := false)
    else u
  }

  /** The character of one nibble: digits, '.', ' ' or 'E', newline, 'G', 'X'. */
  function GetChar(nibble: nat, noSpaces: bool): Byte {
    if nibble < 10 then 48 + nibble
    else if nibble == 10 then 46
    else if nibble == 11 then if noSpaces then 69 else SPACE
    else if nibble == 12 then NEWLINE
    else if nibble == 13 then LETTER_G
    else if nibble == 14 then 88
    else 0
  }

  /** `handle_rx_char`: the new state and the characters put out. */
  function RxChar(u: Unpacker, value: Byte): (Unpacker, seq<Byte>) {
    if !u.unbinarizing then
      (u, [value])
    else if u.fullCharQueue > 0 then
      (u.(fullCharQueue := u.fullCharQueue - 1, charBuffer := None),
       match u.charBuffer case Some(c) => [value, c] case None => [value])
    else
      var low, high := value % 16, value / 16;
      var second := GetChar(high, u.noSpaces);
      if low == 15 then
        if high == 15 then (u.(fullCharQueue := 2), []) else (u.(fullCharQueue := 1, charBuffer := Some(second)), [])
      else
        var first := GetChar(low, u.noSpaces);
        if first == NEWLINE then (u, [first])
        else if high == 15 then (u.(fullCharQueue := 1), [first])
        else (u, [first, second])
  }

  /** One byte of the payload loop: the signal escape around `handle_command` and `handle_rx_char`. */
  function Feed(u: Unpacker, value: Byte): (Unpacker, seq<Byte>) {
    if value == SIGNAL then
      (if u.commandCount > 0 then u.(commandActive := true, commandCount := 0)
       else u.(commandCount := u.commandCount + 1), [])
    else if u.commandActive then
      (HandleCommand(u, value).(commandActive := false), [])
    else if u.commandCount > 0 then
      var (u1, out1) := RxChar(u, SIGNAL);
      var (u2, out2) := RxChar(u1.(commandCount := 0), value);
      (u2, out1 + out2)
    else
      RxChar(u, value)
  }

  /** Everything that a payload puts out, the signal byte still pending at its end included. */
  function Unpack(u: Unpacker, payload: seq<Byte>): seq<Byte>
    decreases |payload|
  {
    if payload == [] then
      if u.commandCount > 0 then RxChar(u, SIGNAL).1 else []
    else
      var (u', out) := Feed(u, payload[0]);
      out + Unpack(u', payload[1..])
  }

  lemma UnpackFrom(u: Unpacker, payload: seq<Byte>, i: nat)
    requires i < |payload|
    ensures Unpack(u, payload[i..]) == Feed(u, payload[i]).1 + Unpack(Feed(u, payload[i]).0, payload[i + 1..])
  {
    assert payload[i..][1..] == payload[i + 1..];
  }

  /** The decoder as the program has it: one object whose fields every byte updates. */
  class Decoder {
    var unbinarizing: bool
    var noSpacesEnabled: bool
    var commandActive: bool
    var commandCount: nat
    var fullCharQueue: nat
    var charBuffer: Option<Byte>
    var pendingOutput: seq<Byte>
    var output: seq<Byte>
    var addSpace: bool

    ghost function Unpacking(): Unpacker reads this {
      Unpacker(unbinarizing, noSpacesEnabled, commandActive, commandCount, fullCharQueue, charBuffer)
    }

    ghost function Formatting(): Format reads this {
      Format(output, addSpace)
    }

    constructor ()
      ensures Unpacking() == START && pendingOutput == [] && Formatting() == EMPTY
    {
      unbinarizing, noSpacesEnabled, commandActive, commandCount := false, false, false, 0;
      fullCharQueue, charBuffer, pendingOutput, output, addSpace := 0, None, [], [], false;
    }

    method Command(value: Byte)
      modifies this`unbinarizing, this`noSpacesEnabled
      ensures Unpacking() == HandleCommand(old(Unpacking()), value)
    {
      if value == ENABLE_PACKING {
        unbinarizing := true;
      } else if value == DISABLE_PACKING {
        unbinarizing := false;
      } else if value == ENABLE_NO_SPACES {
        noSpacesEnabled := true;
      } else if value == DISABLE_NO_SPACES {
        noSpacesEnabled := false;
      } else if value == RESET_ALL {
        unbinarizing := false;
        noSpacesEnabled := false;
      }
    }

    method OutputChar(value: Byte)
      modifies this`pendingOutput
      ensures pendingOutput == old(pendingOutput) + [value]
    {
      pendingOutput := pendingOutput + [value];
    }

    method Receive(value: Byte)
      modifies this`fullCharQueue, this`charBuffer, this`pendingOutput
      ensures Unpacking() == RxChar(old(Unpacking()), value).0
      ensures pendingOutput == old(pendingOutput) + RxChar(old(Unpacking()), value).1
    {
      if unbinarizing {
        if fullCharQueue > 0 {
          OutputChar(value);
          if charBuffer.Some? {
            OutputChar(charBuffer.value);
            charBuffer := None;
          }
          fullCharQueue := fullCharQueue - 1;
          return;
        }
        var nextFirst, nextSecond := value % 16 == 15, value / 16 == 15;
        var first := if nextFirst then 0 else GetChar(value % 16, noSpacesEnabled);
        var second := if nextSecond then 0 else GetChar(value / 16, noSpacesEnabled);
        if nextFirst {
          fullCharQueue := fullCharQueue + 1;
          if nextSecond {
            fullCharQueue := fullCharQueue + 1;
          } else {
            charBuffer := Some(second);
          }
          return;
        }
        OutputChar(first);
        if first != NEWLINE {
          if nextSecond {
            fullCharQueue := fullCharQueue + 1;
          } else {
            OutputChar(second);
          }
        }
        return;
      }
      OutputChar(value);
    }

    /** The body of the payload loop, up to the flush. */
    method Accept(value: Byte)
      modifies this
      ensures Formatting() == old(Formatting())
      ensures Unpacking() == Feed(old(Unpacking()), value).0
      ensures pendingOutput == old(pendingOutput) + Feed(old(Unpacking()), value).1
    {
      if value == SIGNAL {
        if commandCount > 0 {
          commandActive := true;
          commandCount := 0;
        } else {
          commandCount := commandCount + 1;
        }
      } else if commandActive {
        Command(value);
        commandActive := false;
      } else {
        if commandCount > 0 {
          Receive(SIGNAL);
          commandCount := 0;
        }
        Receive(value);
      }
    }

    method FlushPendingOutput()
      modifies this`pendingOutput, this`output, this`addSpace
      ensures pendingOutput == [] && Formatting() == FormatFrom(old(Formatting()), old(pendingOutput))
    {
      if pendingOutput == [] {
        return;
      }
      for i := 0 to |pendingOutput|
        invariant pendingOutput == old(pendingOutput)
        invariant Formatting() == FormatFrom(old(Formatting()), pendingOutput[..i])
      {
        FormatSnoc(old(Formatting()), pendingOutput[..i], pendingOutput[i]);
        assert pendingOutput[..i] + [pendingOutput[i]] == pendingOutput[..i + 1];
        Flush(pendingOutput[i]);
      }
      assert pendingOutput[..|pendingOutput|] == pendingOutput;
      pendingOutput := [];
    }

    method Flush(value: Byte)
      modifies this`output, this`addSpace
      ensures Formatting() == FormatStep(old(Formatting()), value)
    {
      var currentLength := |output|;
      var newLine := false;
      if value == LETTER_G && (currentLength == 0 || output[|output| - 1] == NEWLINE) {
        addSpace := true;
        newLine := true;
      } else if value == NEWLINE {
        addSpace := false;
      }
      if !newLine && addSpace && (currentLength == 0 || output[|output| - 1] != SPACE) && value in PARAMETERS {
        output := output + [SPACE];
      }
      if value != NEWLINE || currentLength == 0 || output[|output| - 1] != NEWLINE {
        output := output + [value];
      }
    }

    /** One round of the payload loop. */
    method Consume(value: Byte)
      requires pendingOutput == []
      modifies this
      ensures pendingOutput == []
      ensures Unpacking() == Feed(old(Unpacking()), value).0
      ensures Formatting() == FormatFrom(old(Formatting()), Feed(old(Unpacking()), value).1)
    {
      Accept(value);
      assert pendingOutput == Feed(old(Unpacking()), value).1;
      FlushPendingOutput();
    }

    /** What follows the payload loop: a signal byte still pending is an ordinary character. */
    method Finish()
      requires pendingOutput == []
      modifies this
      ensures pendingOutput == []
      ensures Formatting() == FormatFrom(old(Formatting()), Unpack(old(Unpacking()), []))
    {
      if commandCount > 0 {
        Receive(SIGNAL);
      }
      FlushPendingOutput();
    }
  }

  /** `_decode_meatpack`.  The program flushes after every byte; the result is nevertheless the formatter
    * applied once to all that was unpacked. */
  method DecodeMeatPack(payload: seq<Byte>) returns (text: seq<Byte>)
    ensures text == Formatted(Unpack(START, payload))
  {
    var d := new Decoder();
    ghost var unpacked := [];
    for i := 0 to |payload|
      invariant d.pendingOutput == [] && d.Formatting() == FormatFrom(EMPTY, unpacked)
      invariant Unpack(START, payload) == unpacked + Unpack(d.Unpacking(), payload[i..])
    {
      ghost var u := d.Unpacking();
      ghost var out, next := Feed(u, payload[i]).1, Feed(u, payload[i]).0;
      UnpackFrom(u, payload, i);
      FlushBoundariesDoNotMatter(EMPTY, unpacked, out);
      d.Consume(payload[i]);
      assert unpacked + (out + Unpack(next, payload[i + 1..])) == (unpacked + out) + Unpack(next, payload[i + 1..]);
      unpacked := unpacked + out;
    }
    assert payload[|payload|..] == [];
    FlushBoundariesDoNotMatter(EMPTY, unpacked, Unpack(d.Unpacking(), []));
    d.Finish();
    text := d.output;
  }
}
