# Verified model of the Wallee control core

Wallee lets a language model propose actions for a 3D printer and keeps a deterministic engine between the
proposals and the hardware. This project models the parts whose correctness is hard to see from the code, and
proves what they promise.

**The first engine** (`Ledger*.dfy`). Rows of the ledger and rows of a per-device diary are committed
separately around a tool call. `LedgerModel` is that protocol as a machine of single commits, with a crash
possible between any two; `LedgerSafety` is what every step keeps; `LedgerTheorems` are the promises over all
runs from the empty stores. `LedgerStores` and `LedgerEngine` are the classes as the program has them. Each
method is proved to leave the state, and to make things durable in the order, that its specification in
`LedgerDispatch` says. `LedgerLog` assigns each step its durable event, so the order on the `Tape` of the
classes is the order of the steps of the machine, and every point at which a crash can cut a method is a state
of the machine. `LedgerGates` says what a pass makes of each row in terms of the rows, the decisions and the
readings alone. `LedgerAgent` is the agent's way into the ledger.

**The second engine** (`Run*.dfy`, `PackJournal.dfy`, `Frontier.dfy`, `Predicates.dfy`, `Plans.dfy`). Runs,
execution journal, approvals, in-memory locks and durable locks, in the same arrangement: `RunModel`,
`RunSafety`, `RunTheorems`, `RunApprovals`, `RunEffects`, `RunOutcomes`, `RunLog`, the specification in
`RunDispatch` and `RunReports`, the classes in `RunStores` and `RunEngine`. The machine logs what each effect came
back with and the facts that each run was verified on; `RunOutcomes` holds the notebook and the journal against
these. `Plans` is the way from the planner's output to the actions carried out.

**The G-code decoder** (`MeatPack*.dfy`, `GcodeFormatter.dfy`, `Bgcode*.dfy`, `Bytes.dfy`). The byte-driven
decoder object is proved equal to the composition of an unpacker and a formatter; an encoder is given and the
round trips are proved, with the exact set of texts that survive the formatter, and the exact condition on
signal bytes under which the decoder keeps in step; the container parser accepts exactly the serialisations of
well-formed block lists, and a container of code, metadata and thumbnails is decoded to what it holds.

**Two small state machines**: the whiteboard's change log (`Whiteboard.dfy`) and the capture of serial lines
(`SerialCapture.dfy`).

`dafny verify dfyconfig.toml` checks all of it.

## Assumptions

- A store write commits or the process dies; each store method is one commit. A boot keeps the stores and loses
  the program counter and the in-memory locks.
- One engine works at a time. Proposals, operator decisions and crashes may come between any two of its steps.
- Drawn ids are fresh: rows are named by their position, which is as fresh. Hashes are injective: a key is the
  tuple that is hashed. An idempotency key of the ledger is a tool, parameters and a retry number.
- The tool registry does not change over a run. Proposals come with the device group of their tool and, in a
  chain, in increasing order; `LedgerAgent` shows that the agent's do, given fresh chain ids.
- What the engine reads outside its stores (clocks, gates, facts, candidates, tool and effect results, approval
  expiry) is given to each method as arbitrary input. Where the program may raise there, the input says so.

## What the code does differently from what it says

- `wallee_v6/wallee_v6/engine.py:273-277` and `:296-300` ask for a move to REPLAN_REQUIRED that the transition
  table refuses, so both branches end in an exception and not in a replan (`RunReports.Thrown`). A single engine
  never reaches the first.
- `wallee_v6/wallee_v6/predicates.py:46-49` says that missing facts fail closed. That holds where
  every atom is under an even number of negations; one negated atom breaks it, and under more facts an evaluation
  may also raise.
- `wallee/engine/reconcile.py:48-51` reports "never dispatched" for rows without a diary entry. These are exactly
  the rows of gate-bypass tools, which may have run and succeeded.
- `wallee_v6/wallee_v6/engine.py:280-291` leaves a run waiting that no path resumes. A decision counts only if it
  is recorded after the run is created and before the engine looks for it, in the same pass
  (`RunApprovals.NoDispatchWithoutDecision`); one that comes later is without effect, and the next pass asks anew
  for another run.


## Model

| member | source | states |
|---|---|---|
| GcodeFormatter.FormatterInvariant | wallee_v6/wallee_v6/packs/prusa_core_one_plus/bgcode_decode.py:279-300 | over every input: spaces are armed exactly while the open output line begins with G, no two newlines are adjacent, and every parameter letter of a G-line has a space before it |
| GcodeFormatter.GLinesByPosition | wallee_v6/wallee_v6/packs/prusa_core_one_plus/bgcode_decode.py:284-289 | the open line begins with G exactly when some earlier position begins a line with G and no newline follows it |
| GcodeFormatter.NormalFormByPosition | wallee_v6/wallee_v6/packs/prusa_core_one_plus/bgcode_decode.py:284-299 | the normal form of formatted text, said of positions: a second newline never follows a newline, and behind the G of a G-line a parameter letter always follows a space |
| GcodeFormatter.CanonicalByPosition | wallee_v6/wallee_v6/packs/prusa_core_one_plus/bgcode_decode.py:284-299 | the canonical texts, said of positions: in normal form, and behind the G of a G-line every space has a parameter letter after it |
| GcodeFormatter.FlushBoundariesDoNotMatter | wallee_v6/wallee_v6/packs/prusa_core_one_plus/bgcode_decode.py:279-300 | formatting a batch and then another is formatting both at once, for every split, so the flush after each byte cannot be seen |
| GcodeFormatter.FixedPointsAreNormalForms | wallee_v6/wallee_v6/packs/prusa_core_one_plus/bgcode_decode.py:279-300 | a text goes through unchanged if and only if it is in normal form, and formatting is idempotent |
| GcodeFormatter.InkIsConserved | wallee_v6/wallee_v6/packs/prusa_core_one_plus/bgcode_decode.py:283-299 | apart from spaces and newlines nothing is added, dropped or moved |
| GcodeFormatter.LinesAreKept | wallee_v6/wallee_v6/packs/prusa_core_one_plus/bgcode_decode.py:284-299 | the output is on a G-line, empty, or at a line end exactly when the input is |
| GcodeFormatter.StrippingIsUndone | wallee_v6/wallee_v6/packs/prusa_core_one_plus/bgcode_decode.py:291-297 | formatting restores a text whose G-lines lost their spaces if and only if the text is canonical |
| GcodeFormatter.InsertedSpacesMeetLetters | wallee_v6/wallee_v6/packs/prusa_core_one_plus/bgcode_decode.py:291-297 | once the G-line spaces are stripped, the only spaces put into G-lines stand before parameter letters |
| GcodeFormatter.BlankLinesDoNotMatter | wallee_v6/wallee_v6/packs/prusa_core_one_plus/bgcode_decode.py:298-299 | leaving out each newline directly behind a newline first makes no difference to the output |
| GcodeFormatter.FormattedIsSpaced | wallee_v6/wallee_v6/packs/prusa_core_one_plus/bgcode_decode.py:291-299 | the output of a text without blank lines, place by place: each character is moved on by the letters so far that wanted a space, and such a letter has its space directly before it |
| GcodeFormatter.FormattedMeans | wallee_v6/wallee_v6/packs/prusa_core_one_plus/bgcode_decode.py:283-299 | the output is the text without its blank lines with one space more before each parameter letter behind the G of a G-line that had none, and nothing else: its length, its only possible value, and a text without G-lines is left as it is |
| GcodeFormatter.LettersByName | wallee_v6/wallee_v6/packs/prusa_core_one_plus/bgcode_decode.py:193-193 | the parameter letters by name |
| MeatPack.Decoder.Receive | wallee_v6/wallee_v6/packs/prusa_core_one_plus/bgcode_decode.py:249-277 | one received character: the queue of full characters, the buffered second one and the two nibbles, as the unpacker function says |
| MeatPack.Decoder.Accept | wallee_v6/wallee_v6/packs/prusa_core_one_plus/bgcode_decode.py:303-317 | the signal-byte escape around commands and characters |
| MeatPack.Decoder.Flush | wallee_v6/wallee_v6/packs/prusa_core_one_plus/bgcode_decode.py:283-299 | one pending character through the formatter, on the object that holds the output |
| MeatPack.Decoder.FlushPendingOutput | wallee_v6/wallee_v6/packs/prusa_core_one_plus/bgcode_decode.py:279-300 | the pending characters in order, and none pending after it |
| MeatPack.Decoder.Consume | wallee_v6/wallee_v6/packs/prusa_core_one_plus/bgcode_decode.py:302-318 | one byte of the payload with its flush |
| MeatPack.Decoder.Finish | wallee_v6/wallee_v6/packs/prusa_core_one_plus/bgcode_decode.py:320-322 | a signal byte still pending at the end is an ordinary character |
| MeatPack.DecodeMeatPack | wallee_v6/wallee_v6/packs/prusa_core_one_plus/bgcode_decode.py:174-323 | the byte loop with its interleaved flushes computes the formatter applied once to the whole unpacked stream |
| MeatPackCodec.CommandIsTaken | wallee_v6/wallee_v6/packs/prusa_core_one_plus/bgcode_decode.py:195-207 | wherever no signal byte is pending, two signal bytes and a third byte act as the command that the byte names, and put nothing out |
| MeatPackCodec.CommandsByNumber | wallee_v6/wallee_v6/packs/prusa_core_one_plus/bgcode_decode.py:175-207 | what each of the five command bytes sets and clears, by number, and that no other byte is one |
| MeatPackCodec.NibblesByName | wallee_v6/wallee_v6/packs/prusa_core_one_plus/bgcode_decode.py:209-240 | the characters of the fifteen nibbles in both modes |
| MeatPackCodec.ReadByHand | wallee_v6/wallee_v6/packs/prusa_core_one_plus/bgcode_decode.py:242-277 | a byte for each way of packing a pair, read by hand: low nibble first, a character in full in the place of its nibble |
| MeatPackCodec.HeaderSetsMode | wallee_v6/wallee_v6/packs/prusa_core_one_plus/bgcode_decode.py:195-207 | in any settled state the preamble of an encoder puts the decoder into packing mode, with or without spaces, and puts nothing out |
| MeatPackCodec.CleanIsRead | wallee_v6/wallee_v6/packs/prusa_core_one_plus/bgcode_decode.py:302-318 | where no two signal bytes are adjacent the escape changes nothing: a lone one is read late, but as any other byte |
| MeatPackCodec.PairIsRead | wallee_v6/wallee_v6/packs/prusa_core_one_plus/bgcode_decode.py:242-276 | a packed pair is read back whichever of its two characters fit a nibble |
| MeatPackCodec.PackedIsRead | wallee_v6/wallee_v6/packs/prusa_core_one_plus/bgcode_decode.py:242-277 | read without escapes a packed text is itself if and only if no character of it is left over for half a byte |
| MeatPackCodec.UnpackInvertsPack | wallee_v6/wallee_v6/packs/prusa_core_one_plus/bgcode_decode.py:174-322 | for every text whose packed bytes hold no two adjacent signal bytes, in both modes: unpacking gives the text back if and only if it is paired up |
| MeatPackCodec.UnpackGoesOn | wallee_v6/wallee_v6/packs/prusa_core_one_plus/bgcode_decode.py:302-318 | and whatever follows is read as from the start |
| MeatPackCodec.PlainTextsSurvive | wallee_v6/wallee_v6/packs/prusa_core_one_plus/bgcode_decode.py:242-318 | the condition holds of every text of complete lines without the signal byte |
| MeatPackSignals.InStepIffClean | wallee_v6/wallee_v6/packs/prusa_core_one_plus/bgcode_decode.py:302-318 | wherever the encoder of a text may stop, the decoder gives back what was packed, if and only if no two signal bytes are adjacent in the packed bytes of the text |
| MeatPackSignals.RestoredIffClean | wallee_v6/wallee_v6/packs/prusa_core_one_plus/bgcode_decode.py:302-318 | where no end of packing is spelt, and no switch of the spacing that matters to the text, a text comes back as a whole if and only if no two signal bytes are adjacent in its packed bytes |
| MeatPackSignals.OwedForGood | wallee_v6/wallee_v6/packs/prusa_core_one_plus/bgcode_decode.py:302-318 | a signal byte and a wide character behind it that the decoder lost are never put out, whatever bytes follow, as long as packing goes on |
| MeatPackSignals.SignalExamples | wallee_v6/wallee_v6/packs/prusa_core_one_plus/bgcode_decode.py:302-318 | one signal byte survives, two neighbours do not |
| MeatPackCodec.StreamIsRead | wallee_v6/wallee_v6/packs/prusa_core_one_plus/bgcode_decode.py:174-322 | stretches packed with spaces, packed without, or plain behind a command, in any order and number, are read back in order |
| MeatPackCodec.StreamIsFormatted | wallee_v6/wallee_v6/packs/prusa_core_one_plus/bgcode_decode.py:174-323 | and decoded to the formatted form of the whole, unchanged if and only if that is in normal form |
| MeatPackCodec.DecodedIsFormatted | wallee_v6/wallee_v6/packs/prusa_core_one_plus/bgcode_decode.py:174-323 | decoding the preamble and a packed text that survives gives the formatted text, and the text itself if and only if it is in normal form |
| MeatPackCodec.NoSpacesRoundTrip | wallee_v6/wallee_v6/packs/prusa_core_one_plus/bgcode_decode.py:209-300 | strip the G-line spaces, pack with nibble 11 as E, decode: the text is restored if and only if it is canonical |
| BgcodeFraming.ReadBlock | wallee_v6/wallee_v6/packs/prusa_core_one_plus/bgcode_decode.py:90-115 | one round of the framing loop at any offset is the block parser on what is left of the input, its errors included |
| BgcodeFraming.ReadBlocks | wallee_v6/wallee_v6/packs/prusa_core_one_plus/bgcode_decode.py:87-116 | the offset loop computes the recursive parser, stops at the first error, and ends on every input |
| BgcodeFraming.ParseBgcodeBlocks | wallee_v6/wallee_v6/packs/prusa_core_one_plus/bgcode_decode.py:77-116 | length, magic, version, checksum type and blocks |
| BgcodeFraming.HeaderRoundTrip | wallee_v6/wallee_v6/packs/prusa_core_one_plus/bgcode_decode.py:90-101 | reading the header fields of a frame gives them back, compressed or not |
| BgcodeFraming.ParseInvertsWire | wallee_v6/wallee_v6/packs/prusa_core_one_plus/bgcode_decode.py:90-115 | parsing one serialised frame gives its block and takes exactly its bytes |
| BgcodeFraming.WireInvertsParse | wallee_v6/wallee_v6/packs/prusa_core_one_plus/bgcode_decode.py:90-115 | the bytes that a successful parse took are the serialisation of a well-formed frame |
| BgcodeFraming.ParseInvertsContainer | wallee_v6/wallee_v6/packs/prusa_core_one_plus/bgcode_decode.py:77-116 | parsing the serialisation of any list of well-formed frames returns their blocks |
| BgcodeFraming.ParserAcceptsExactlyContainers | wallee_v6/wallee_v6/packs/prusa_core_one_plus/bgcode_decode.py:77-116 | a parse succeeds with some blocks if and only if the input is a file header tiled by well-formed frames that stand for them |
| BgcodeFraming.ContainerByBytes | wallee_v6/wallee_v6/packs/prusa_core_one_plus/bgcode_decode.py:11-25 | a container with a compressed thumbnail and a plain G-code block, given byte by byte, parses to these two blocks |
| BgcodeFraming.CodesByNumber | wallee_v6/wallee_v6/packs/prusa_core_one_plus/bgcode_decode.py:119-137 | block types and compressions by number, with the windows of the decompressors, and the errors |
| BgcodeContainer.DecodeBgcodeText | wallee_v6/wallee_v6/packs/prusa_core_one_plus/bgcode_decode.py:50-74 | the container decoder: parse, checksum type, collected chunks, the missing-G-code and missing-marker errors, metadata before G-code |
| BgcodeContainer.CollectChunks | wallee_v6/wallee_v6/packs/prusa_core_one_plus/bgcode_decode.py:56-64 | the block loop: metadata, G-code and ignored blocks, the first error ends it |
| BgcodeContainer.DecodeGcodeBlock | wallee_v6/wallee_v6/packs/prusa_core_one_plus/bgcode_decode.py:156-164 | one G-code block by its encoding, through the decoder object |
| BgcodeContainer.OneBlock | wallee_v6/wallee_v6/packs/prusa_core_one_plus/bgcode_decode.py:56-64 | what a single block of each type and encoding contributes, by number, and its errors |
| BgcodeContainer.MarkersByName | wallee_v6/wallee_v6/packs/prusa_core_one_plus/bgcode_decode.py:70-71 | any one of the four comments is enough, wherever it stands |
| BgcodeContainer.OtherChecksumsAreRefused | wallee_v6/wallee_v6/packs/prusa_core_one_plus/bgcode_decode.py:52-54 | a container whose checksum type is above 1 is refused after its blocks were read |
| BgcodeContainer.DeliveredUnchanged | wallee_v6/wallee_v6/packs/prusa_core_one_plus/bgcode_decode.py:156-164 | which texts each of the three layouts delivers unchanged |
| BgcodeContainer.BlockRoundTrip | wallee_v6/wallee_v6/packs/prusa_core_one_plus/bgcode_decode.py:156-164 | a block that holds a text in a layout decodes to what the layout delivers |
| BgcodeContainer.ContainerRoundTrip | wallee_v6/wallee_v6/packs/prusa_core_one_plus/bgcode_decode.py:50-116 | for code, metadata and thumbnails in any order, each in its own layout and compression: the tidied metadata joined and then the code joined, or the decoder says which of its two conditions fails |
| LedgerStores.Ledger.Propose | wallee/ledger/db.py:49-102 | appends a row with the next retry key, unless the parameters of the tool already have an active row |
| LedgerStores.Ledger.GetByStatus | wallee/ledger/db.py:135-149 | the rows with a status, all of them, oldest first |
| LedgerStores.Ledger.InflightIn | wallee/ledger/db.py:151-158 | whether a row of the device group is DISPATCHED |
| LedgerStores.Ledger.SetStatus | wallee/ledger/db.py:170-188 | one row, with no guard on its present status, in one commit |
| LedgerStores.Ledger.GetApproval | wallee/ledger/db.py:212-219 | the latest decision on an action |
| LedgerStores.Ledger.ChainPredecessors | wallee/engine/dispatch.py:40-48 | the earlier steps of the chain of a row |
| LedgerStores.PredecessorsInOrder | wallee/engine/dispatch.py:40-48 | they are found in the order of their steps |
| LedgerStores.Diary.WriteSuccess | wallee/ledger/diary.py:50-58 | an update, without effect when there is no such row |
| LedgerStores.Diary.WriteFailed | wallee/ledger/diary.py:60-68 | the same for a failure |
| LedgerDispatch.RunsExactlyWhenAllGatesOpen | wallee/engine/dispatch.py:74-195 | the tool is run if and only if it is known and either bypasses the gates or finds every gate open, and then exactly once |
| LedgerDispatch.ClearMeansDone | wallee/engine/dispatch.py:103-118 | the chain gate is clear if and only if every recorded earlier step is DONE |
| LedgerDispatch.GatedRun | wallee/engine/dispatch.py:175-195 | a gated dispatch is seven steps of the machine; its durable events are, in order, diary, ledger, tool, diary, ledger |
| LedgerDispatch.UngatedRun | wallee/engine/dispatch.py:87-101 | a bypass dispatch writes no diary row |
| LedgerDispatch.ProcessIsRun | wallee/engine/dispatch.py:74-195 | processing a proposal takes legal steps, and ends in the state and by the events that the specification lists, whatever gate closes |
| LedgerGates.ChainCheckMeans | wallee/engine/dispatch.py:103-118 | the chain gate by the first undone earlier step: refused if that has failed or was rejected, put off if it is on its way or in doubt, clear if there is none |
| LedgerGates.LatestIsTheLast | wallee/ledger/db.py:212-219 | the decision that counts is the last one recorded for the action |
| LedgerGates.RowAfterwards | wallee/engine/dispatch.py:74-195 | the status of the row after processing, by rows, decisions and readings alone: REJECTED exactly for an unknown tool or a gate that turns it away (a broken chain, else the stop or the pause, else with no action in flight an expired, refused or failing proposal), WAITING_APPROVAL exactly when only the decision is missing or it is put off in that status, DONE or FAILED exactly when all gates let it through and by what the tool came back with |
| LedgerGates.NothingElseChanges | wallee/engine/dispatch.py:74-195 | no other row, no decision, and no diary or start unless it was let through |
| LedgerGates.ReplyTellsTheCase | wallee/engine/dispatch.py:74-195 | the reply says which of these cases it was |
| LedgerGates.RowStaysAsItIs | wallee/engine/dispatch.py:115-136 | a chain on its way, or a device group in use behind a clear chain and no stop, leaves everything as it was |
| LedgerGates.TurnedAwayForGood | wallee/engine/dispatch.py:120-173 | what a gate has turned away is REJECTED and not started in any later state of any run |
| LedgerGates.StoppedForGood | wallee/engine/dispatch.py:120-129 | in particular a gated proposal with a clear chain that was processed under the emergency stop, or a resume under the external pause |
| LedgerGates.RevisitMeans | wallee/engine/dispatch.py:205-219 | an action that waits for approval: over its time or refused it is rejected, undecided it is left alone, approved it is processed again |
| LedgerGates.RowThroughAPass | wallee/engine/dispatch.py:197-219 | every row through one pass: a proposal is processed in a state of the first loop that has its row as it was, what then waits is revisited in a state of the second, and any other row stays |
| LedgerEngine.Engine.CheckPredecessors | wallee/engine/dispatch.py:103-118 | the first earlier step that is not done decides between refusing and skipping |
| LedgerEngine.Engine.CheckGates | wallee/engine/dispatch.py:103-173 | the gates in order: the reply of the first that is closed |
| LedgerEngine.Engine.RunGated | wallee/engine/dispatch.py:175-195 | the dispatch, with the order of its commits around the tool call |
| LedgerEngine.Engine.RunUngated | wallee/engine/dispatch.py:87-101 | the bypass |
| LedgerEngine.Engine.PassThroughGates | wallee/engine/dispatch.py:74-195 | the whole of one proposal: final state, reply and events |
| LedgerEngine.Engine.ProcessProposal | wallee/engine/dispatch.py:74-195 | the same as a run of the machine that keeps the invariant |
| LedgerEngine.Engine.RevisitAction | wallee/engine/dispatch.py:205-219 | an action that waits for approval: timed out, undecided, approved or refused |
| LedgerEngine.Engine.VisitProposals | wallee/engine/dispatch.py:199-201 | the first loop works on rows read before it began; no visit changes a row still to be visited, so that is sound |
| LedgerEngine.Engine.PollOnce | wallee/engine/dispatch.py:197-219 | a polling pass is a run of the machine, its two loops over two snapshots, with all of its events in order |
| LedgerEngine.Engine.SettleByDiary | wallee/engine/reconcile.py:19-51 | every dispatched row gets the verdict of its diary, and the doubtful ones are escalated |
| LedgerEngine.Engine.Reconcile | wallee/engine/reconcile.py:9-51 | the pass is a run of the machine and leaves exactly the reconciled state |
| LedgerEngine.Engine.Propose | wallee/ledger/db.py:49-102 | a proposal in the order of its chain and with the device group of its tool is a step of the machine and keeps the invariant |
| LedgerAgent.ChainIsLegal | wallee/agent/loop.py:569-592 | whatever the ledger holds, the acts of a chain under a fresh id are proposed in that order |
| LedgerAgent.ActOfAChain | wallee/agent/loop.py:576-592 | each act of a chain becomes a row with its position as step number, unless it is refused in the state that the acts before it have left |
| LedgerAgent.ProposedRow | wallee/agent/loop.py:550-558 | an act is refused exactly when the tool has an open action with these parameters; otherwise one PROPOSED row is added with the group, approval flag and age limit of the tool |
| LedgerAgent.AgentFlagsItsProposals | wallee/agent/loop.py:550-592 | the proposals of both kinds of decision ask for approval where their tool does |
| LedgerAgent.NoStartWithoutApproval | wallee/engine/dispatch.py:147-163 | so over every run, crashes included, a gated tool that requires approval is started only after an operator has approved that very action |
| LedgerAgent.Agent.RouteAction | wallee/agent/loop.py:544-558 | an unknown tool does nothing; another act is one proposal with the group, approval and age limit of its tool |
| LedgerAgent.Agent.RouteChain | wallee/agent/loop.py:567-592 | one unknown tool drops the whole chain; otherwise all of its acts are proposed in order, which keeps the invariant |
| LedgerEngine.Engine.Approve | wallee/ledger/db.py:197-210 | so does a decision of an operator |
| LedgerLog.EveryCutIsAState | wallee/engine/dispatch.py:175-195 | wherever a crash cuts the durable events of any run, what is durable is what some first steps have made so, and a crash there is legal |
| LedgerSafety.StepKeepsInv | wallee/engine/dispatch.py:74-219 | every step, a crash included, keeps the agreement of rows, diaries, approvals, logs and program counter |
| LedgerSafety.StatusRises | wallee/ledger/db.py:170-188 | although the statement has no guard, no step of the engine lowers the rank of a status, so terminal ones are absorbing |
| LedgerTheorems.ReconcileTellsTheTruth | wallee/engine/reconcile.py:19-51 | after a crash at any point of any run and a reconcile pass, no gated row is DISPATCHED, DONE stands for a recorded success, FAILED for a recorded error of a tool that ran, a started tool without a recorded outcome is UNKNOWN, and rows before dispatch were never started |
| LedgerTheorems.NeverDispatchedBranch | wallee/engine/reconcile.py:48-51 | a dispatched row has no diary entry if and only if its tool bypasses the gates |
| LedgerTheorems.FailureIsTrueExactlyForGatedTools | wallee/engine/reconcile.py:48-51 | FAILED after reconcile can be believed in every run for exactly the tools that do not bypass the gates; a bypass tool may have succeeded |
| LedgerTheorems.StartedAtMostOnce | wallee/engine/dispatch.py:74-219 | over every run of proposals, decisions, polls, crashes and reconcile passes, the tool of an action starts at most once |
| LedgerTheorems.StartFollowsBothCommits | wallee/engine/dispatch.py:175-182 | when a gated tool starts, its diary row and its DISPATCHED status are committed, its predecessors done, its approval recorded |
| LedgerTheorems.RowsOnlyRise | wallee/ledger/db.py:170-188 | between any two states of a run, rows are only appended and a row changes in its status alone, upwards |
| LedgerTheorems.StatusChangesAtMostThrice | wallee/ledger/db.py:170-188 | a row changes its status at most three times |
| LedgerTheorems.ChainPrefix | wallee/engine/dispatch.py:105-118 | if a gated chain step was dispatched by some state, every lower-numbered step of its chain recorded at the end was recorded and DONE by then, and still is |
| LedgerTheorems.BlockedStepNeverStarts | wallee/engine/dispatch.py:109-118 | a gated step behind an UNKNOWN, FAILED or REJECTED one never starts |
| LedgerTheorems.ProposalKeys | wallee/ledger/db.py:62-97 | after any interleaving the keys stored for some parameters are the base key and retries 1 to n-1, each once, and at most one of their rows is active |
| LedgerTheorems.DoubtStays | wallee/ledger/db.py:62-97 | once a row is UNKNOWN it stays so, and the ledger refuses its tool and parameters in every later state of the run |
| LedgerTheorems.DoubtfulIsNeverReissued | wallee/ledger/db.py:62-97 | so no later row of the run has them, and no row that has them is started any more |
| LedgerTheorems.NoDoubleDispatch | wallee/engine/dispatch.py:131-136 | two gated rows of one device group are never DISPATCHED together |
| Predicates.WellTypedNeverRaises | wallee_v6/wallee_v6/predicates.py:51-84 | evaluation raises only on a malformed predicate or an ordering of values that have none |
| Predicates.NeverReversedByMoreFacts | wallee_v6/wallee_v6/predicates.py:61-84 | with every atom under an even number of negations, what holds of some facts does not fail of any extension of them; with every atom under an odd number, what fails does not hold of one |
| Predicates.StaysDecided | wallee_v6/wallee_v6/predicates.py:61-84 | and it stays true, or false, when no atom orders values of different kinds |
| Predicates.BothConditionsAreNeeded | wallee_v6/wallee_v6/predicates.py:46-49 | missing facts do not always fail closed: a negated atom over one is true, and an `any` may raise when a fact arrives |
| Predicates.AllMeans | wallee_v6/wallee_v6/predicates.py:64-65 | `all` holds exactly when every child does, and fails exactly when some child fails and all before it hold |
| Predicates.AnyMeans | wallee_v6/wallee_v6/predicates.py:67-68 | `any` holds exactly when some child does and all before it fail, and fails exactly when every child does |
| Predicates.NotMeans | wallee_v6/wallee_v6/predicates.py:70-71 | `not` swaps the two, and raises where its child does |
| Predicates.AtomMeans | wallee_v6/wallee_v6/predicates.py:73-84 | an atom over a missing fact fails; the six comparisons are the arithmetic ones on numbers and the lexicographic ones on texts; values of different kinds are unequal and have no order |
| Predicates.TextLessIsLexicographic | wallee_v6/wallee_v6/predicates.py:11-20 | a text comes before another exactly when it is shorter where they agree, or has the smaller character where they first differ |
| Predicates.ConjunctsHold | wallee_v6/wallee_v6/predicates.py:64-65 | when a condition holds so does each conjunct of it, however deep |
| Frontier.BuildFrontier | wallee_v6/wallee_v6/planning_context.py:171-189 | the filter loop, the sort and the two selections, and the exception of a precondition |
| Frontier.FrontierIsExact | wallee_v6/wallee_v6/planning_context.py:171-189 | the frontier is exactly the unlocked candidates whose preconditions hold, as often as they were offered, control before tuning, each part sorted by rank and id |
| Frontier.FrontierActionsAreSafe | wallee_v6/wallee_v6/planning_context.py:171-189 | every conjunct of the preconditions of a frontier action holds, and none of its locks is held |
| Frontier.FrontierOrder | wallee_v6/wallee_v6/planning_context.py:183-189 | of two frontier actions the one further ahead is of control before tuning, then of smaller rank, then of smaller id |
| Frontier.LastNamed | wallee_v6/wallee_v6/engine.py:258-269 | the dictionary of refreshed actions: found if and only if present, the later of two with one id |
| Plans.MaterializePlan | wallee_v6/wallee_v6/engine.py:144-174 | the tuning choice resolved, refused, or turned into NO_ACTION |
| Plans.WhatBecomesOfAPlan | wallee_v6/wallee_v6/engine.py:144-174 | the only fitting action, or NO_ACTION next to a sequence, or a refusal; any other plan is left as it is, and nothing is passed on unless the decision is EXECUTE |
| Plans.ValidatePlan | wallee_v6/wallee_v6/engine.py:123-142 | the looked-up actions of the plan, or the error |
| Plans.ResolvesToTheOnlyOne | wallee_v6/wallee_v6/engine.py:148-157 | a choice resolves if and only if exactly one action of the frontier stands for it, and then to its id |
| Plans.ValidatesOnlyTheFrontier | wallee_v6/wallee_v6/engine.py:123-142 | what is passed on is in the frontier, in order and each once, at most three; an explicit plan passes if and only if the frontier has all of it; a passed choice is one fitting action |
| Plans.MaterializeIsIdempotent | wallee_v6/wallee_v6/engine.py:144-174 | materialising again changes nothing, nor does validating the materialised plan |
| Plans.PlannerTuningSpace | wallee_v6/wallee_v6/models.py:1476-1497 | the loop that fills the dictionary of families |
| Plans.SpaceIsExact | wallee_v6/wallee_v6/models.py:1476-1497 | the space lists exactly the directions and magnitudes that shown actions of a family have, each once |
| Plans.OfferedFamilies | wallee_v6/wallee_v6/models.py:1476-1497 | exactly the families that some action of the frontier is of, all but the acceleration |
| Plans.SpelledIsRead | wallee_v6/wallee_v6/models.py:1437-1470 | the id that spells a choice is read as that choice, for each of the 24 |
| Plans.ReadFromItsParts | wallee_v6/wallee_v6/models.py:1437-1470 | and an id is read as a choice only by its parts: "_DOWN_" decides the direction and "_BIG" the magnitude |
| Plans.ChoicesResolveIffFullProduct | wallee_v6/wallee_v6/models.py:1476-1497 | every choice that the space offers for a family resolves if and only if its actions form a full product, one action a combination |
| PackJournal.JournalCoversEffects | wallee_v6/wallee_v6/packs/base.py:85-127 | over any calls and crashes, an effect is started at most once a key, only with an entry in the journal, and a finished entry has its effect |
| PackJournal.EntriesAreFinal | wallee_v6/wallee_v6/packs/base.py:85-94 | once a key is in the journal no later call changes its entry or starts its effect |
| PackJournal.AtMostOnceWithStableReplay | wallee_v6/wallee_v6/packs/base.py:69-127 | over any calls and crashes before and after, the effect of a key runs at most once and every completing call returns what the first one did |
| PackJournal.NewKeyTellsTheOutcome | wallee_v6/wallee_v6/packs/base.py:96-127 | for a new key the answer is success exactly when the effect returned, with its result, and a failure exactly when it threw |
| PackJournal.OldKeyIsAnswered | wallee_v6/wallee_v6/packs/base.py:85-94 | for a key in the journal the effect is not started, and the entry is answered |
| PackJournal.AnswersTellTheOutcome | wallee_v6/wallee_v6/packs/base.py:69-127 | over any calls, a later answer tells what the first call, if it completed, came back with |
| PackJournal.InterruptedStaysInFlight | wallee_v6/wallee_v6/packs/base.py:87-105 | after a crash between entry and outcome every later call is told so and repeats nothing |
| RunStores.LockManager.Acquire | wallee_v6/wallee_v6/engine.py:78-83 | all of the keys or none |
| RunStores.LockManager.Release | wallee_v6/wallee_v6/engine.py:85-88 | the keys are discarded, held or not |
| RunStores.RuntimeDb.TransitionActionRun | wallee_v6/wallee_v6/runtime_db.py:274-314 | a move along the transition table, or the exception and no write |
| RunStores.RuntimeDb.HasValidApproval | wallee_v6/wallee_v6/runtime_db.py:355-371 | whether a matching, unexpired approval exists |
| RunStores.RuntimeDb.ActiveLocks | wallee_v6/wallee_v6/planning_context.py:191-201 | the locks of the DISPATCHED rows |
| RunStores.RuntimeDb.StartExecJournal | wallee_v6/wallee_v6/runtime_db.py:512-550 | inserts IN_FLIGHT, or returns the entry there is |
| RunStores.RuntimeDb.FinishExecJournal | wallee_v6/wallee_v6/runtime_db.py:552-578 | an update, without effect when there is no such row |
| RunStores.Packs.Execute | wallee_v6/wallee_v6/packs/base.py:69-127 | the method computes the journal specification, and commits IN_FLIGHT before the effect and the outcome after it |
| RunSafety.StepKeepsInv | wallee_v6/wallee_v6/engine.py:243-333 | every step, a crash included, keeps the agreement of runs, journal, approvals, locks and program counter |
| RunSafety.StepKeepsLocks | wallee_v6/wallee_v6/engine.py:255-302 | a run of the planner path shares no lock with a run dispatched before it and still DISPATCHED |
| RunSafety.StepKeepsRuns | wallee_v6/wallee_v6/engine.py:279-332 | every run and its journal entry stay in an allowed pair |
| RunTheorems.NotebookAndJournalAgree | wallee_v6/wallee_v6/engine.py:418-478 | at every point, after every crash: no entry before DISPATCHED; DONE only with a recorded success that was verified or is a pending wait; REPLAN_REQUIRED only with a recorded success and a failed verification; FAILED only with a recorded error; UNKNOWN and ABORTED never; effects as the entry says |
| RunModel.WhatMayFollow | wallee_v6/wallee_v6/runtime_db.py:31-58 | the transition table, by what may come before a status |
| RunOutcomes.EntriesTellTheOutcome | wallee_v6/wallee_v6/packs/base.py:104-127 | over every run, crashes included: a SUCCEEDED entry stands for an effect that returned just that result, an ERRED one for an effect that threw just that exception, and an effect that came back has an entry that says so or is still IN_FLIGHT |
| RunOutcomes.NotebookTellsTheOutcome | wallee_v6/wallee_v6/engine.py:418-478 | so a pack-owned run that is DONE or REPLAN_REQUIRED had an effect that returned, and one that is FAILED had one that threw |
| RunOutcomes.OutcomesWereReached | wallee_v6/wallee_v6/packs/base.py:104-119 | a logged outcome is what the effect of that run came back with |
| RunOutcomes.VerdictMeans | wallee_v6/wallee_v6/engine.py:418-478 | the status an answer leads to, by the action and the facts: after a success that is no pending wait it is DONE exactly when they meet `verify`, or else every expected change, and REPLAN_REQUIRED exactly when they miss it |
| RunOutcomes.VerificationMeans | wallee_v6/wallee_v6/engine.py:480-485 | what meeting and missing mean for the predicate that is evaluated |
| RunOutcomes.ConclusionsRestOnFacts | wallee_v6/wallee_v6/engine.py:462-478 | over every run: a DONE run was verified on facts that met what it was to bring about, unless it is a pending wait; a REPLAN_REQUIRED one on facts that missed it |
| RunOutcomes.ChecksWereMade | wallee_v6/wallee_v6/engine.py:462-478 | these facts were read at the verification of that run |
| RunOutcomes.BuiltinAnswerMeans | wallee_v6/wallee_v6/engine.py:370-416 | a builtin action succeeds exactly when its verb is known and it ran to its end |
| RunTheorems.KeysNeverRepeat | wallee_v6/wallee_v6/engine.py:344-368 | no two runs share an idempotency key |
| RunTheorems.EffectStartsAtMostOnce | wallee_v6/wallee_v6/packs/base.py:85-127 | over the whole history the effect of a run starts at most once |
| RunTheorems.EffectFollowsBothCommits | wallee_v6/wallee_v6/packs/base.py:96-111 | when it starts, the run is DISPATCHED and its entry IN_FLIGHT, both committed, and it was not started before |
| RunTheorems.PlannerPathStaysDisjoint | wallee_v6/wallee_v6/planning_context.py:171-201 | on the planner path the locks of the DISPATCHED runs are pairwise disjoint, crashes and restarts included |
| RunTheorems.DispatchKeepsDisjointIffUnlocked | wallee_v6/wallee_v6/engine.py:255-302 | in general a dispatch keeps them disjoint if and only if its locks are not durably held, which the frontier refresh guarantees |
| RunReports.OperatorPathOverlaps | wallee_v6/wallee_v6/engine.py:220-241 | without the refresh it is lost: two actions that share a lock can both be DISPATCHED after a crash, whenever the preconditions of each hold of some facts that its second look may find |
| RunTheorems.LocksAreAlwaysFree | wallee_v6/wallee_v6/engine.py:273-277 | the in-memory lock set is empty whenever a run asks for its locks |
| RunTheorems.LeftRunsAreFrozen | wallee_v6/wallee_v6/engine.py:243-333 | once the engine has left a run, by return, exception or crash, nothing changes its row or entry or starts its effect |
| RunTheorems.StaleDispatchExcludesForever | wallee_v6/wallee_v6/planning_context.py:191-201 | so the locks of a run left DISPATCHED exclude every later planner action that wants one |
| RunApprovals.NoDispatchWithoutDecision | wallee_v6/wallee_v6/human.py:67-99 | over every run, crashes included: an action that needs approval and is not approved automatically passes WAITING_APPROVAL only if a decision bound to its run, verb and arguments was recorded after the run was created and before the engine looked, and had not expired then |
| RunApprovals.NoDispatchWithoutApproval | wallee_v6/wallee_v6/human.py:67-99 | every action that needs approval has a bound approval on record once it has passed, by such a decision or by the automatic rule |
| RunApprovals.PassedMeans | wallee_v6/wallee_v6/human.py:67-99 | in terms of action and decision: a run has passed its approval only if none is required, its hazard is low and the configuration approves that, or a human has approved this verb with these arguments for this run, in time |
| RunApprovals.AutomaticOnlyForLow | wallee_v6/wallee_v6/human.py:67-99 | while the engine asks, the automatic rule applies exactly to the low hazard when configured, and otherwise it goes on exactly with a matching, unexpired approval |
| RunApprovals.RecognisedIffDecidedInTime | wallee_v6/wallee_v6/runtime_db.py:355-371 | asking for it, the engine goes on if and only if an unexpired such decision was recorded since the run was created, or the automatic rule applies |
| RunApprovals.DecisionInTimeStartsTheEffect | wallee_v6/wallee_v6/operator_cli.py:35-40 | from every state between two actions, a decision while the engine asks lets the effect of any new action of a registered pack start, provided that its preconditions hold of some facts, which the second look then may find |
| RunEffects.EffectNeedsEveryGate | wallee_v6/wallee_v6/engine.py:279-320 | over every run, crashes included, an effect starts only after a timely decision or the automatic rule, a second look at which the preconditions held, with a registered pack, both commits made, and never before |
| RunEffects.EffectNeedsEveryConjunct | wallee_v6/wallee_v6/engine.py:295-300 | and every conjunct of the preconditions held on the second look |
| RunEffects.EffectNeedsADecision | wallee_v6/wallee_v6/human.py:67-99 | and where approval is required, at a higher hazard or without the automatic rule, a human has approved the very action before |
| RunEffects.TakenUpIsLegal | wallee_v6/wallee_v6/engine.py:256-269 | on the planner path the loop works on an unlocked candidate whose preconditions held at the refresh, and finds none exactly when there is none of that id |
| RunEffects.PassStartsEffectIffGatesOpen | wallee_v6/wallee_v6/engine.py:255-320 | a pass over a new action starts its effect if and only if every gate is open: taken up, approved automatically where approval is needed, held on the second look, pack registered |
| RunEffects.EffectsOfAPass | wallee_v6/wallee_v6/engine.py:255-320 | and then the hardware sees that one effect, otherwise none |
| RunLog.EveryCutIsAState | wallee_v6/wallee_v6/engine.py:243-333 | wherever a crash cuts the durable events of any run, what is durable is what some first steps have made so |
| RunDispatch.FreshCourse | wallee_v6/wallee_v6/engine.py:256-269 | an action of the planner path is worked on as the refreshed frontier offers it, and wants no durably held lock |
| RunDispatch.JournalLeads | wallee_v6/wallee_v6/packs/base.py:96-127 | the commits of the journal before and after the effect, and the effect between them, are steps of the machine in this order |
| RunDispatch.LeaveLeads | wallee_v6/wallee_v6/engine.py:331-332 | the finally clause leaves the lock set as it was when the action began |
| RunDispatch.PerformanceLeads | wallee_v6/wallee_v6/engine.py:255-332 | however far an action gets, its steps are legal and lead to the specified state by the specified durable events |
| RunReports.CarryLeads | wallee_v6/wallee_v6/engine.py:243-333 | carrying out a plan of distinct new actions is a run of the machine, with that end state and those events |
| RunReports.ReportIsTruthful | wallee_v6/wallee_v6/engine.py:243-333 | on every normal exit the executed ids are a prefix of the plan with all but possibly the last DONE; the report says which of failed, blocked, replan or completed it is, and of which run |
| RunReports.PassesAreFinal | wallee_v6/wallee_v6/engine.py:243-333 | whatever happens after a pass, the run it worked on stays in the status it was left in, and its effect is not started any more |
| RunReports.RefusedTransitionIsFinal | wallee_v6/wallee_v6/engine.py:273-300 | an action that ends in a refused transition was stale on the second look; its run stays AUTHORIZED whatever happens later, and its effect is never started |
| RunReports.SecondLookMayFail | wallee_v6/wallee_v6/engine.py:295-300 | and it does happen, to every action without locks or approval whose precondition holds of the first facts and fails of the second |
| RunReports.StaleExample | wallee_v6/wallee_v6/engine.py:295-300 | a fact gone between the two looks |
| RunReports.ThrownOnSecondLook | wallee_v6/wallee_v6/engine.py:295-300 | the second of them is thrown if and only if the precondition fails on the second look |
| RunReports.ConflictNeedsALock | wallee_v6/wallee_v6/engine.py:273-277 | the first of them is not reached by a single engine |
| RunReports.NeedsHumanStaysWaiting | wallee_v6/wallee_v6/engine.py:280-291 | a pass that nobody interrupts stops at the approval if and only if the automatic rule does not give it; the run then stays waiting whatever happens later, decisions included, and its effect is never started |
| RunReports.StoredPlanIsNew | wallee_v6/wallee_v6/engine.py:176-218 | a stored plan has no run yet, its actions are distinct and all in the frontier |
| RunEngine.Engine.Compile | wallee_v6/wallee_v6/planning_context.py:96-136 | the frontier and facts of a compiled world, with the durable locks of the present rows |
| RunEngine.Engine.RequestApproval | wallee_v6/wallee_v6/human.py:67-99 | automatic for low hazards when configured, otherwise a bound unexpired approval |
| RunEngine.Engine.VerifyAction | wallee_v6/wallee_v6/engine.py:480-485 | verify, else the expected delta, else true |
| RunEngine.Engine.FinalizeAction | wallee_v6/wallee_v6/engine.py:418-478 | the status written for an answer, or none when compiling or verifying raises |
| RunEngine.Engine.Work | wallee_v6/wallee_v6/engine.py:279-330 | the try block: how far it gets, its report, the stores and the events |
| RunEngine.Engine.RunAction | wallee_v6/wallee_v6/engine.py:271-332 | the row, the locks, the work, and the locks again on every exit |
| RunEngine.Engine.Perform | wallee_v6/wallee_v6/engine.py:255-332 | one turn of the loop, with the refresh |
| RunEngine.Engine.PerformAll | wallee_v6/wallee_v6/engine.py:255-333 | the loop: final state, outcome and events of the whole plan |
| RunEngine.Engine.ExecutePlan | wallee_v6/wallee_v6/engine.py:176-218 | a plan of the planner, refused, stored or carried out: a run of the machine that keeps the invariant and holds no lock at its end |
| RunEngine.Engine.ExecuteOperatorAction | wallee_v6/wallee_v6/engine.py:220-241 | the same for an action of the operator, without the frontier |
| RunEngine.Engine.Decide | wallee_v6/wallee_v6/human.py:101-143 | a decision on a run is a step of the machine that keeps the invariant; on a run that does not exist it is refused |
| Whiteboard.InMemoryWhiteboard.Publish | wallee_v6/wallee_v6/whiteboard.py:51-58 | one change logged with the value it replaced, values and number kept in step |
| Whiteboard.InMemoryWhiteboard.BatchPublish | wallee_v6/wallee_v6/whiteboard.py:60-70 | the items in order, one change each |
| Whiteboard.InMemoryWhiteboard.TakeSnapshot | wallee_v6/wallee_v6/whiteboard.py:77-80 | the values that the log stands for, and how long it is |
| Whiteboard.InMemoryWhiteboard.ChangesSince | wallee_v6/wallee_v6/whiteboard.py:82-85 | the changes newer than a number |
| Whiteboard.SnapshotAndChangesGiveTheValues | wallee_v6/wallee_v6/whiteboard.py:51-85 | for any history, the changes since a snapshot applied to it in order give the current values, and they are numbered contiguously |
| SerialCapture.CaptureLines | wallee_v6/wallee_v6/packs/prusa_core_one_plus/_serial_helper.py:60-89 | however the stream is cut into reads, the lines are those of the whole stream, filtered, up to the first kept one that starts with ok, and the unfinished line only without one |
| SerialCapture.SplitIsExact | wallee_v6/wallee_v6/packs/prusa_core_one_plus/_serial_helper.py:76-79 | the raw lines and the unfinished one are the stream cut at its newlines |
| SerialCapture.KeptMeans | wallee_v6/wallee_v6/packs/prusa_core_one_plus/_serial_helper.py:13-31 | a line is kept exactly when none of the seven names stands in it and at least seven in ten of its characters are printable |
| SerialCapture.KeptLineByLine | wallee_v6/wallee_v6/packs/prusa_core_one_plus/_serial_helper.py:79-82 | each raw line counts by what it decodes to, in order |
| SerialCapture.CapturedMeans | wallee_v6/wallee_v6/packs/prusa_core_one_plus/_serial_helper.py:76-89 | without an ok line the unfinished one counts like any other; otherwise the result ends with the first of them |
| SerialCapture.OkDecides | wallee_v6/wallee_v6/packs/prusa_core_one_plus/_serial_helper.py:82-84 | once the ok line is there, nothing that follows changes the result |

## Left out

- LedgerStores.Ledger.Propose: keys are tuples, so the SQL `LIKE` pattern, in which `_` is a wildcard, is not modelled; nor is the rollback on an integrity error.
- LedgerStores.Ledger.ChainPredecessors: predecessors come in row order; `LedgerStores.PredecessorsInOrder` shows that this is the order of their steps, by which the query sorts.
- LedgerEngine.Engine.Propose: proposals out of the order of their chain, or with another device group than that of their tool, are not modelled; no caller in the program makes them.
- MeatPackSignals.RestoredIffClean: that a text with adjacent signal bytes never comes back as a whole is proved where its packed bytes spell no end of packing (249 or 250 right behind a signal byte), and no switch of the spacing (246 or 247) unless the text is free of the one character, space or E, that fits a nibble only after it; for the others `MeatPackSignals.InStepIffClean` shows that some initial part of the text is lost.
- LedgerEngine.Engine.RunGated: tool results are taken as serialisable; a serialisation error after a successful call, which the program records as FAILED, is not modelled.
- LedgerEngine.Engine.Reconcile: the messages to the operator are left out, only who is escalated is kept.
- RunStores.RuntimeDb.TransitionActionRun: the result and error columns of a run are not modelled, only its status.
- RunEngine.Engine.RequestApproval: the request that is queued for a human when nothing approves is left out.
- RunEngine.Engine.ExecutePlan: the request of a CALL_HUMAN plan, the notes of a report and the compiled world after it are left out.
- RunEngine.Engine.Compile: deltas, device summaries and the prompt view of a compiled world are left out.
- RunEngine.Engine.ExecuteBuiltin: the waiting loop of WAIT_UNTIL is an arbitrary outcome; its own compilations are left out.
- RunEngine.Engine.FinalizeAction: the safety trip, the operator call and the stored result payload are left out.
- Plans.PlannerTuningSpace: the summary text of a family is left out; upper-casing is that of ASCII letters.
- BgcodeFraming.ParseBgcodeBlocks: decompression is an arbitrary partial function of the compression number, and checksums are skipped as the program skips them.
- BgcodeContainer.DecodeBgcodeText: the decoding of bytes to text and the tidying of metadata lines are left to a parameter or to bytes; the markers are looked for in the bytes.
- SerialCapture.CaptureLines: decoding and stripping of a line are a parameter; the capture window ends after the given reads.
- Whiteboard.InMemoryWhiteboard.Publish: the time stamp of a change is left out.
- Threads: the engine's heartbeat, the locks of the stores, and two engines at once, for which at-most-once is not claimed.
- Network, Redis, Telegram, the language model, cameras, serial ports, the control lease file and the dashboard are inputs or absent.
- The agent loop with its oscillation and stale guards, prompt building, planner heuristics, archiving, actuator range checks and driver clamping would only add easier members.
