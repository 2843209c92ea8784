# DAHDI in Dafny

DAHDI is the telephony layer under Asterisk: kernel drivers that move eight-byte
chunks of audio between hardware, conferences and user space, and the tools that
build, load and license them. This project models the parts of it whose correctness
is not visible in any one function, and proves what those parts are for.

Each file is one module for one component.

- `Ring`, `WriteQueue`, `ReadQueue`, `ConfQueue`: the block queues between user space
  and the interrupt. Copying happens outside the lock, so reads, writes and interrupts
  are steps that may come in any order; `Ring` is what the queues share, two cursors
  with -1 for "no slot".
- `Mixer`: the conference accumulators, which remember for each talker how much of it
  really went in.
- `ConfAlias`: the two tables between conference numbers and accumulators, and the alias
  cached in every channel.
- `Superchannel`: channels bound together by `nextslave`, and the dealing out of bytes.
- `PulseDial`: the dialling state machine and the far end that counts its pulses.
- `ToneZone`: tone descriptions, the fragment table made from them, the loader's checks,
  and the player.
- `Dynamic`, `DynamicLoc`: the message format of dynamic spans with its wrapping counter,
  and the graph of local devices.
- `Fcs`: the frame check sequence of section C.2 of RFC 1662, with the whole table.
- `Menuselect`, `Enabling`: the solver for dependencies and conflicts of build options, and
  what a user's actions achieve with it.
- `Hexfile`, `FpgaLoad`: Intel HEX parsing, printing and cutting, and the numbered
  packets sent to the device.
- `License`: the licence files of the Astribank tools.
- `Basics`: bytes, words and white space, for the text and message formats.

Where the C code changes things in place the module has a class with the same fields;
its methods are proved against functions on values, and the properties are lemmas about
those functions, over all inputs, all reachable states or all runs. Arrays of values
stand for arrays of C structures, except for the local devices, which are nodes in a
heap linked by pointers. Chunks that C writes into a caller's buffer are returned as
sequences. Bytes that are only moved are of type `bv8`; arithmetic is on integers with
the C widths written out. The chunk size is 8 as in `linux/include/dahdi/kernel.h:97`
where arithmetic depends on it (`PulseDial`, `Dynamic`), and arbitrary elsewhere.

`dafny verify dfyconfig.toml` checks everything.

## What is not as it seems

Some things one would expect of the code do not hold. The code is modelled as it is; a
lemma says exactly when the expectation is met, or gives an input for which it is not.

- `menuselect`: the loop over dependencies does not end when a member whose outside
  dependencies are met inherits a hard failure (`Menuselect.StopsIffNoResets`); an
  exclusive category can have two members on, when the first was flagged for another
  conflict already or is ruled out from outside (`Menuselect.LastEnabledWins`,
  `Menuselect.OutsideConflictLeavesTwoOn`, `Menuselect.RuledOutMemberStaysOn`), though
  never two that are written out as built (`Menuselect.AtMostOneBuilt`); a member can be
  built while one it depends on is not (`Menuselect.FlaggedDependencyIsOn`); and switching
  a member on does not look into a dependency that is on but not built
  (`Enabling.BuiltIffNeedsAreOn`).
- Block queues: two processes writing to one channel can fill the same slot
  (`WriteQueue.TwoWritersLoseAByte`), and two reading one can get the same block
  (`ReadQueue.TwoReadersGetOneBlock`).
- Conference mixing: a channel that stops speaking keeps subtracting its last amount
  (`Mixer.StaleAmountIsHeard`, `Mixer.StaleAmountHappens`).
- Conference aliases: closing a cross-connected channel that was put into a conference
  clears its cached alias but not its mode (`ConfAlias.ClosedKeeps`,
  `ConfAlias.ClosingLosesAlias`).
- Superchannels: a slave given a slave of its own can hook it into the list of its master
  (`Superchannel.ConfigKeepsLists`, `Superchannel.SlaveOfASlaveIsFed`), a channel with
  slaves that becomes a slave loses them (`Superchannel.ItsSlavesAreLost`), and a refused
  request still takes the channel from its master (`Superchannel.Unlink`); a slave before
  its master carries nothing (`Superchannel.FedIffAfterMaster`).
- Pulse dialling: which strings the far end reports correctly depends on all three
  timings (`PulseDial.Understood`).
- Tone zones: a bare frequency counts as a place to return to even when it carries a "!"
  (`ToneZone.HasReturn`); the comment in `tools/tonezone.h:40-44` does not say so.
- Dynamic spans: eight signalling bits are read where four were sent, so a neighbour's
  bits appear above a channel's own (`Dynamic.SigIsExact`; the format comment at
  `linux/drivers/dahdi/dahdi_dynamic.c:49-66` promises four); 65536 lost messages are
  none (`Dynamic.GapsAreReported`); the message buffer is sized for up to 164 channels,
  and for 168, out of 255 (`Dynamic.MessageFits`).
- Local devices: once monitors exist several devices can point at one newcomer, which
  answers only the last (`DynamicLoc.JoinKeepsSymmetry`, `DynamicLoc.MonitorIsNotAnswered`).
- Hex files: cutting below four bytes can cut base and start records, and such a file is
  refused (`Hexfile.ResplitParses`); control lines before data leave gaps in the packet
  numbers (`FpgaLoad.NumbersConsecutive`).
- Licence files: a newline in the label can break the file (`License.WrittenIsRead`); a
  truncated dump is accepted, with zeros for what is missing (`License.TruncatedIsPadded`).

## Model

| member | source | states |
|---|---|---|
| Ring.SlotsAreDistinct | linux/drivers/dahdi/dahdi-base.c:2038-2059 | the -1 sentinels mean full and empty as intended, and the slots between the cursors are valid and pairwise different |
| Ring.FilledAppends | linux/drivers/dahdi/dahdi-base.c:2160-2175 | completing the fill slot appends exactly that slot to the queue of slots |
| Ring.DrainedRemoves | linux/drivers/dahdi/dahdi-base.c:6167-6201 | using up the drain slot removes exactly the oldest slot, and gives a stopped filler that slot |
| Ring.ContentsFilled | linux/drivers/dahdi/dahdi-base.c:2160-2175 | completing the fill slot appends exactly what it holds to what is queued |
| Ring.ContentsDrained | linux/drivers/dahdi/dahdi-base.c:6167-6201 | emptying the drain slot removes exactly the oldest value, whatever the slot holds afterwards |
| Ring.ContentsFrontChanged | linux/drivers/dahdi/dahdi-base.c:6160-6166 | taking bytes from the drain slot changes only the oldest queued value |
| WriteQueue.TakenIsQueue | linux/drivers/dahdi/dahdi-base.c:6142-6201 | one block's worth of bytes leaves the queue from the front; blocks behind it stay; the transmitter stops only on an empty queue |
| WriteQueue.DrainIsQueue | linux/drivers/dahdi/dahdi-base.c:6142-6201 | the drain loop of one chunk terminates and sends the oldest pending bytes in order, as many as fit, and keeps the rest |
| WriteQueue.FillSlotIsPrivate | linux/drivers/dahdi/dahdi-base.c:2107-2159 | the slot being filled outside the lock is not in the queue, so writing it leaves the queue alone |
| WriteQueue.DrainIgnoresFillSlot | linux/drivers/dahdi/dahdi-base.c:2107-2159 | whatever half-written bytes are in the slot being filled, the interrupt sends the same bytes and leaves that slot alone: it is never read |
| WriteQueue.DrainKeepsFillSlot | linux/drivers/dahdi/dahdi-base.c:6142-6201 | an interrupt in the middle of a copy does not move the fill cursor |
| WriteQueue.CommittedAppends | linux/drivers/dahdi/dahdi-base.c:2160-2184 | committing appends exactly the filled block to the queue |
| WriteQueue.WrittenIs | linux/drivers/dahdi/dahdi-base.c:2107-2159 | a write queues the front of the user bytes, or one byte for every two of them on a linear channel, as much as fits a block; with the check the last two give way to the check of the rest |
| WriteQueue.StartsByPolicy | linux/drivers/dahdi/dahdi-base.c:2160-2184 | a write starts a waiting transmitter exactly when every block is queued, or by the half-full policy half of them |
| WriteQueue.StopsByPolicy | linux/drivers/dahdi/dahdi-base.c:6167-6201 | an interrupt stops the transmitter exactly when it sent the last of what was queued and the policy is not to send at once |
| WriteQueue.ActKeepsInv | linux/drivers/dahdi/dahdi-base.c:2077-2184 | every step (copy a byte, seal, commit, interrupt), in any order, keeps: sent data + queued bytes = accepted blocks in order |
| WriteQueue.RunConservesBytes | linux/drivers/dahdi/dahdi-base.c:2077-2184 | over every run and interleaving of one writer and the interrupt from a fresh channel: data bytes sent, idle filler apart, followed by the bytes still queued are exactly the accepted writes in order |
| WriteQueue.FullQueueMakesRoom | linux/drivers/dahdi/dahdi-base.c:6167-6201 | when every block is queued, an interrupt long enough for the front block frees a slot for the writer |
| WriteQueue.BlockedWriterIsReleased | linux/drivers/dahdi/dahdi-base.c:2077-2105 | a writer that found no room has it again after n interrupts of a chunk each if and only if n chunks cover what is left of the front block |
| WriteQueue.SerialRunConserves | linux/drivers/dahdi/dahdi-base.c:2077-2184 | with any number of writers, over every run in which one at a time is between picking a slot and committing it, the same conservation holds |
| WriteQueue.TwoWritersLoseAByte | linux/drivers/dahdi/dahdi-base.c:2090-2160 | two writers that pick a slot before either commits it both succeed, and one of the two bytes is neither sent nor queued |
| WriteQueue.TxChannel.constructor | linux/drivers/dahdi/dahdi-base.c:900-990 | fresh buffers with nothing queued; the start policy decides whether the transmitter waits |
| WriteQueue.TxChannel.NumFilledBufs | linux/drivers/dahdi/dahdi-base.c:2038-2059 | num_filled_bufs is the number of queued blocks, sentinels included |
| WriteQueue.TxChannel.FillBlock | linux/drivers/dahdi/dahdi-base.c:2107-2159 | the loop over the user bytes puts them, encoded pair by pair on a linear channel, into the chosen slot only, with length, index and check bytes |
| WriteQueue.TxChannel.CommitBlock | linux/drivers/dahdi/dahdi-base.c:2160-2184 | the locked end of a write appends the block, starts the drain cursor and the transmitter by policy, and moves or parks the fill cursor |
| WriteQueue.TxChannel.ChanWrite | linux/drivers/dahdi/dahdi-base.c:2061-2184 | a non-blocking write is refused for a zero length or without room, leaving all as it was; otherwise one block joins the end of the queue that carries the bytes the reply counts, in order, and the transmitter starts by policy |
| WriteQueue.TxChannel.Advance | linux/drivers/dahdi/dahdi-base.c:6167-6201 | a used-up block is cleared, the drain cursor moves or stops, the waiting filler gets the slot |
| WriteQueue.TxChannel.GetBufChunk | linux/drivers/dahdi/dahdi-base.c:6124-6201 | a chunk is the oldest queued bytes in order, as many as there are, then idle filler; the rest stays queued and the transmitter stops by policy |
| ReadQueue.PlacedIsQueue | linux/drivers/dahdi/dahdi-base.c:7195-7303 | received bytes extend the block being filled; full, it is the newest completed block |
| ReadQueue.ReceiveIsQueue | linux/drivers/dahdi/dahdi-base.c:7195-7303 | the receive interrupt appends bytes in order in blocks of the block size behind what is queued, drops only once every block is filled, and leaves the block being read alone |
| ReadQueue.ReleasedIsQueue | linux/drivers/dahdi/dahdi-base.c:2018-2033 | releasing the slot that was read removes exactly the oldest block |
| ReadQueue.WaitsByPolicy | linux/drivers/dahdi/dahdi-base.c:2018-2033 | by the when-full policy readers are kept waiting from the moment they emptied the queue until every block is filled, and never otherwise |
| ReadQueue.ActKeepsInv | linux/drivers/dahdi/dahdi-base.c:1952-2032 | every step (begin, copy a byte, end, interrupt), in any order, keeps the order of blocks, and the block being copied is not overwritten |
| ReadQueue.RunReadsInOrder | linux/drivers/dahdi/dahdi-base.c:1952-2032 | over every run: the k-th read gets as many bytes of the k-th completed block as it asked for, or all, and completed blocks plus the partial one are exactly the kept bytes in order |
| ReadQueue.SerialRunReadsInOrder | linux/drivers/dahdi/dahdi-base.c:1952-2032 | the same with any number of readers of which one at a time is between picking a block and releasing it |
| ReadQueue.TwoReadersGetOneBlock | linux/drivers/dahdi/dahdi-base.c:1952-2032 | two readers that pick a block before either releases it both get its first byte, and one block is gone after two reads |
| ReadQueue.DropsOnlyWhenFull | linux/drivers/dahdi/dahdi-base.c:7275-7303 | bytes are dropped only by an interrupt that ends with no block left to fill, and readers are then let in |
| ReadQueue.RxChannel.constructor | linux/drivers/dahdi/dahdi-base.c:900-990 | fresh buffers with nothing received |
| ReadQueue.RxChannel.Complete | linux/drivers/dahdi/dahdi-base.c:7208-7303 | a full block is handed to the readers and the fill cursor moves on, or parks at -1 when it meets the reader |
| ReadQueue.RxChannel.PutBufChunk | linux/drivers/dahdi/dahdi-base.c:7121-7303 | the loop takes in a chunk exactly as specified and drops a rest only when every block is filled |
| ReadQueue.RxChannel.Release | linux/drivers/dahdi/dahdi-base.c:2018-2033 | the slot is cleared, the drain cursor moves or stops, a parked fill cursor restarts there |
| ReadQueue.RxChannel.ChanRead | linux/drivers/dahdi/dahdi-base.c:1935-2034 | a non-blocking read refuses a zero length, says "again" without a readable block, and otherwise returns the front of the oldest block and consumes that block |
| ConfQueue.Queue.constructor | linux/drivers/dahdi/dahdi-base.c:1093-1110 | an empty queue |
| ConfQueue.Queue.Push | linux/drivers/dahdi/dahdi-base.c:1068-1091 | a bounded FIFO of full capacity: a chunk joins the end unless all slots are filled, and then nothing changes |
| ConfQueue.Queue.Pull | linux/drivers/dahdi/dahdi-base.c:997-1023 | the oldest chunk leaves; from an empty queue silence is returned and nothing changes |
| Mixer.AddInPlace | linux/drivers/dahdi/arith.h:276-297 | ACSS adds in place with clipping at 32767 and -32768, sample by sample |
| Mixer.SubInPlace | linux/drivers/dahdi/arith.h:299-320 | SCSS subtracts in place with the same clipping |
| Mixer.SpeakOneIs | linux/drivers/dahdi/dahdi-base.c:7073-7086 | one turn: a channel that talks and is not held back moves the accumulator by its input, clipped to sixteen bits, and records what that changed; the after-dialling timer runs, from 50 while dialling |
| Mixer.SpeakAllLevels | linux/drivers/dahdi/dahdi-base.c:7899-7963 | after all channels of one kind each accumulator is the level their inputs bring it to, added in channel order and clipped at each step |
| Mixer.SpeakAllTurns | linux/drivers/dahdi/dahdi-base.c:7056-7086 | each channel records what its own turn changed the level by, nothing if it only listens, and keeps its old amount if it took no part |
| Mixer.SpeakAllIsExact | linux/drivers/dahdi/dahdi-base.c:7899-7963 | besides, each accumulator is what it started with plus the exact integer sum of the recorded amounts, however much was clipped |
| Mixer.TickIsExact | linux/drivers/dahdi/dahdi-base.c:7899-7963 | after a tick an accumulator equals the exact sum of all recorded amounts if and only if it started at zero |
| Mixer.TickLevels | linux/drivers/dahdi/dahdi-base.c:7876-7963 | after a tick each accumulator is the level that real channels, then pseudo channels, bring it to from what it was left with; the banks have changed roles and the next one is zero below maxconfs |
| Mixer.TickTurns | linux/drivers/dahdi/dahdi-base.c:7876-7963 | what every channel has recorded after a tick, from the inputs |
| Mixer.LevelIsSum | linux/drivers/dahdi/dahdi-base.c:6021-6034 | levels are exact integer sums of the inputs all the way if and only if no partial sum leaves the sixteen-bit range |
| Mixer.QuietLevels | linux/drivers/dahdi/dahdi-base.c:6021-6034 | then an accumulator from zero is the sum of all inputs and every talker recorded its input |
| Mixer.RunIsExact | linux/drivers/dahdi/dahdi-base.c:447-456 | an accumulator whose alias was below maxconfs at the previous rotation is the exact integer sum of every talker's recorded amount |
| Mixer.RunLevels | linux/drivers/dahdi/dahdi-base.c:447-456 | from the second tick on, whatever was reconfigured in between, an accumulator below maxconfs at the previous rotation is the level that this tick's inputs bring it to from zero, and their exact sum when nothing clips |
| Mixer.TickRecords | linux/drivers/dahdi/dahdi-base.c:7056-7086 | whoever took part in a tick recorded an amount above -32768 if its input was, and nothing if it only listens |
| Mixer.HearsOtherAmounts | linux/drivers/dahdi/dahdi-base.c:6035-6054 | from the second tick on, with silent outgoing audio, every channel taking part hears the saturated sum of the amounts everyone else recorded, exactly unless it recorded -32768 and the sum is negative |
| Mixer.HearsEveryoneElse | linux/drivers/dahdi/dahdi-base.c:6035-6054 | a listener not held back by dialling or mute hears the level of all inputs less what its own changed it by, and without clipping the sum of the others' inputs, exactly unless its own gain was -32768 and the level negative, as no decoded sample makes it |
| Mixer.OutgoingIs | linux/drivers/dahdi/dahdi-base.c:6035-6060 | a listener's audio is its own less what it last recorded plus the conference; everyone else's is not touched |
| Mixer.RecordedIsNeverLowest | linux/drivers/dahdi/dahdi-base.c:7073-7086 | decoded samples are never -32768, and then neither is a recorded amount |
| Mixer.StaleAmountIsHeard | linux/drivers/dahdi/dahdi-base.c:6938-6950 | a channel that did not speak this tick still subtracts its old amount: it hears the conference right if and only if that amount is zero or disappears in the clipping |
| Mixer.StaleAmountHappens | linux/drivers/dahdi/dahdi-base.c:6938-6950 | three ticks of a lone talker that dials in between, whatever it says: it should hear nothing and hears what it said, negated |
| Mixer.Conference.constructor | linux/drivers/dahdi/dahdi-base.c:447-456 | three zero banks in their first roles |
| Mixer.Conference.RotateSums | linux/drivers/dahdi/dahdi-base.c:447-456 | the banks change roles and the next one is zero below maxconfs, untouched above |
| Mixer.Conference.SpeakKind | linux/drivers/dahdi/dahdi-base.c:7056-7086 | the loop over channels of one kind leaves banks and recorded amounts as the fold over them specifies |
| Mixer.Conference.Tick | linux/drivers/dahdi/dahdi-base.c:7876-7963 | a whole tick without links: real channels speak, banks rotate, pseudo channels speak and all listen |
| Menuselect.DepLoopShrinks | tools/menuselect/menuselect.c:406-450 | every change of the dependency loop uses up one unit of the measure: flags fall once and stay, members only go off |
| Menuselect.ConflictLoopShrinks | tools/menuselect/menuselect.c:496-533 | the same for the conflict loop |
| Menuselect.SettleIsLinear | tools/menuselect/menuselect.c:839 | with no resetting member the whole loop ends after at most four changes a member, and only switches members off |
| Menuselect.SettleSettles | tools/menuselect/menuselect.c:377-533 | when the loop exits every dependency and conflict flag is what the menu says it should be |
| Menuselect.ResetsAlwaysChange | tools/menuselect/menuselect.c:384-388 | a member with met outside dependencies that inherits a HARD failure makes every call report a change |
| Menuselect.StopsIffNoResets | tools/menuselect/menuselect.c:377-450 | the loop terminates if and only if there is no such member, and then within 4n + 1 iterations |
| Menuselect.NeverStopsHere | tools/menuselect/menuselect.c:384-388 | two members for which it never does, from any state |
| Menuselect.CleanMeansAvailable | tools/menuselect/menuselect.c:377-450 | in a settled menu a member without dependency failure has its outside dependencies met and its inside ones on and clean |
| Menuselect.BuiltClosureIsClean | tools/menuselect/menuselect.c:1111-1116 | everything a built member needs, through any chain of dependencies, is switched on, clean and met |
| Menuselect.ClosureIsBuilt | tools/menuselect/menuselect.c:1111-1116 | what a built member needs is built too if and only if nothing outside rules it out and nothing it conflicts with is on |
| Menuselect.FlaggedDependencyIsOn | tools/menuselect/menuselect.c:798-808 | two toggles after which a member is built and the one it depends on is on and not built |
| Menuselect.SettleKeepsSupported | tools/menuselect/menuselect.c:406-533 | settling switches off no member of a set that supports itself |
| Menuselect.SettledIsSupported | tools/menuselect/menuselect.c:406-533 | conversely the members left on support themselves whenever what they need is without conflicts |
| Menuselect.ActionsKeepSettled | tools/menuselect/menuselect.c:792-906 | any sequence of toggle, set, clear and set-all leaves a settled menu settled |
| Menuselect.SettleKeepsFate | tools/menuselect/menuselect.c:406-533 | settling never switches off a member whose conflict flag is raised already or has no cause, and raises a flag only on one it switches off |
| Menuselect.SwitchingOn | tools/menuselect/menuselect.c:690-707 | what settling makes of every member of an exclusive category after one is switched on: another one that was on goes off if and only if its conflict flag was not raised before |
| Menuselect.EnableMemberTidy | tools/menuselect/menuselect.c:792-823 | enabling any member keeps a category without conflicts elsewhere tidy: settled, at most one on, none ruled out that is on |
| Menuselect.SettledIsStable | tools/menuselect/menuselect.c:839 | settling a settled menu does nothing |
| Menuselect.LastEnabledWins | tools/menuselect/menuselect.c:825-883 | toggling or setting a member of an exclusive category leaves at most one on, and that one the last, if and only if the member that was on had no conflict flag raised |
| Menuselect.OutsideConflictBreaks | tools/menuselect/menuselect.c:519-523 | two members end up on whenever the first one to be switched on conflicts with a member elsewhere that stays on |
| Menuselect.OutsideConflictLeavesTwoOn | tools/menuselect/menuselect.c:519-523 | three members for which that happens |
| Menuselect.RuledOutMemberStaysOn | tools/menuselect/menuselect.c:504-505 | two members of which one is on although ruled out: it stays on when the other is switched on |
| Menuselect.BothOnNeitherBuilt | tools/menuselect/menuselect.c:1111-1116 | two members of an exclusive category that are both on in a settled menu are both flagged, and neither is written out as built |
| Menuselect.AtMostOneBuilt | tools/menuselect/menuselect.c:1111-1116 | whatever the user does, at most one member of an exclusive category is written out as built |
| Menuselect.ActionsKeepAtMostOne | tools/menuselect/menuselect.c:690-707 | when the members of an exclusive category conflict with nothing else in the menu, and none is on that an outside conflict rules out, no sequence of actions anywhere in the menu leaves two of them on |
| Menuselect.Members.CheckOutsideDeps | tools/menuselect/menuselect.c:379-398 | the outside pass rewrites one flag as specified, a soft failure surviving a met dependency |
| Menuselect.Members.CheckInsideDeps | tools/menuselect/menuselect.c:411-441 | one inner step: the flag is recomputed and a change switches the member off |
| Menuselect.Members.CalcDepFailures | tools/menuselect/menuselect.c:368-453 | the do/while loop terminates with the specified flags, and says whether it changed something |
| Menuselect.Members.CheckOutsideConflicts | tools/menuselect/menuselect.c:466-488 | the same for conflicts with outside items |
| Menuselect.Members.CheckInsideConflicts | tools/menuselect/menuselect.c:501-524 | one inner step: a newly raised conflict flag switches the member off |
| Menuselect.Members.CalcConflictFailures | tools/menuselect/menuselect.c:455-536 | the conflict loop terminates with the specified flags, and says whether it changed something |
| Menuselect.Members.SettleAll | tools/menuselect/menuselect.c:839 | the outer loop terminates without resetting members, with at most four changes a member |
| Menuselect.Members.EnableOne | tools/menuselect/menuselect.c:792-823 | the recursion over dependencies, in place, is the specified one, by which a member goes on after everything it needs, unless one of them cannot |
| Menuselect.Members.ToggleEnabled | tools/menuselect/menuselect.c:825-841 | off if on, enabled if off, then settled, and nothing for a hard failure, as `Enabling` proves of the specified toggle |
| Menuselect.Members.SetOne | tools/menuselect/menuselect.c:859-883 | enabled and settled unless on or hard-failed |
| Menuselect.Members.ClearOne | tools/menuselect/menuselect.c:885-906 | off and settled |
| Menuselect.Members.SetCategory | tools/menuselect/menuselect.c:1277-1299 | every member of a category in turn, then settled |
| Enabling.SwitchesOn | tools/menuselect/menuselect.c:792-883 | in a settled menu, toggling, setting or setting with its category a member whose needs, through any chain of dependencies, are met outside the menu and clash with nothing that is on and not with each other builds it and all of them, and leaves on whatever supports itself and does not conflict with them |
| Enabling.BuiltIffNeedsAreOn | tools/menuselect/menuselect.c:798-808 | a member whose own dependencies are all on is built by a toggle if and only if all that it needs through chains is on already: a dependency that is on is not looked into |
| Enabling.NotWithoutDependency | tools/menuselect/menuselect.c:798-823 | a member that needs one that is off and ruled out by an outside conflict is not switched on, and neither is that one |
| Enabling.SwitchesOff | tools/menuselect/menuselect.c:825-906 | toggling a member that is on, clearing it, or clearing its category leaves it off, but for hard failures, and leaves on whatever supports itself elsewhere |
| Enabling.DependentsGoOff | tools/menuselect/menuselect.c:406-450 | that switches off every clean member that needs it, through any chain |
| Enabling.BlockedIsLeft | tools/menuselect/menuselect.c:825-883 | a member has a hard failure in a settled menu if and only if it can never be had or an outside conflict rules it out, and then toggling and setting do nothing |
| Fcs.TableBits | tools/hdlctest.c:49-84 | each of the 256 table entries is what eight shifts of the register make of its index |
| Fcs.StepIsSerial | tools/hdlctest.c:85-87 | one table step is eight shifts of the bit-serial register of section C.2 of RFC 1662 |
| Fcs.FoldIsSerial | tools/hdlctest.c:144-156 | over a whole frame the table-driven register is the bit-serial one |
| Fcs.AcceptedIsSerial | tools/hdlctest.c:132-159 | a frame is accepted if and only if its bits bring a register of sixteen ones to 0xf0b8 |
| Fcs.CheckIsSerial | tools/hdlcstress.c:108-145 | the check bytes are the complement of what the bits of the payload make of sixteen ones, low byte first |
| Fcs.LeadingByteDetected | tools/hdlctest.c:132-159 | any byte put before an accepted frame, a zero byte too, makes it rejected |
| Fcs.ShortStringsDiffer | tools/hdlctest.c:85-87 | from one register value, different strings of at most sixteen bits lead to different values |
| Fcs.SuffixInjective | tools/hdlctest.c:85-87 | equal bits keep different registers different: the step is injective in the state |
| Fcs.BurstDetected | tools/hdlctest.c:132-159 | an accepted frame with errors confined to sixteen consecutive bits, at any bit offset, is rejected |
| Fcs.TwoByteErrorDetected | tools/hdlctest.c:132-159 | an accepted frame changed only within two adjacent bytes is rejected |
| Fcs.CheckedIsAccepted | tools/hdlcstress.c:114-136 | every frame the sender finishes drives the receiver to 0xf0b8 |
| Fcs.StampedIsAccepted | linux/drivers/dahdi/dahdi-base.c:880-898 | every block the kernel finishes in place drives the receiver to 0xf0b8 |
| Fcs.AcceptedIffStamped | tools/hdlctest.c:132-159 | a frame is accepted if and only if its last two bytes are the check of the rest |
| Fcs.OddErrorsDetected | tools/hdlctest.c:132-159 | an accepted frame with any odd number of bits flipped anywhere is rejected |
| Fcs.CalcFcs | linux/drivers/dahdi/dahdi-base.c:880-898 | the loop leaves the data and puts their check, low byte first, into the last two bytes |
| Fcs.SendPacket | tools/hdlcstress.c:108-145 | the bytes loaded are the buffer followed by its check |
| Fcs.CheckFrame | tools/hdlctest.c:132-159 | the loop over the received bytes says good if and only if their bits bring sixteen ones to 0xf0b8, that is, if the last two are the check of the rest |
| Hexfile.PrintedParses | tools/xpp/hexfile.c:49-91 | parsing the printed line of any record that the parser allows gives that record back, and its bytes sum to 0 modulo 256 |
| Hexfile.PrintedSumsToZero | tools/xpp/hexfile.c:49-91 | the bytes read off any printed line are length, offset, type, data and a check, and sum to 0 modulo 256 |
| Hexfile.AcceptedIff | tools/xpp/hexfile.c:111-262 | a line is accepted if and only if it holds as many bytes as its first announces, in one of the legal forms of the six record types, summing to 0 modulo 256; the record is those bytes |
| Hexfile.DigitsAre | tools/xpp/hexfile.c:111-262 | digits of either case are read, and upper-case ones printed |
| Hexfile.OtherLines | tools/xpp/hexfile.c:402-468 | comment lines make no difference, nor does a DOS end of file at the end; any other line without a colon is refused |
| Hexfile.ParsedIsOk | tools/xpp/hexfile.c:402-468 | every file that parses holds well-formed records summing to zero, with the end record last |
| Hexfile.NothingAfterEof | tools/xpp/hexfile.c:111-262 | after an end record no further record is accepted |
| Hexfile.SplitKeepsEvents | tools/xpp/hexfile.c:333-358 | the pieces of a record put the same bytes at the same 16-bit addresses |
| Hexfile.ResplitParses | tools/xpp/hexfile.c:302-367 | the file dumped at any width parses again if and only if no base or start record had to be cut; always from width 4 on |
| Hexfile.ResplitPreserves | tools/xpp/hexfile.c:302-367 | the file read back puts the same bytes at the same addresses between the same base records, and has the same BSD checksum |
| Hexfile.BsdStepUndone | tools/xpp/hexfile.c:545-568 | the checksum step is a rotation and an addition: undone by subtracting and rotating back |
| Hexfile.BsdDetectsOneByte | tools/xpp/hexfile.c:545-568 | files that differ in one data byte have different checksums |
| Hexfile.HexData.constructor | tools/xpp/hexfile.c:402-420 | no lines and no end record |
| Hexfile.HexData.HexlineChecksum | tools/xpp/hexfile.c:49-59 | the sum of the record's bytes, which `Hexfile.ChecksumIs` takes off the line |
| Hexfile.ChecksumIs | tools/xpp/hexfile.c:49-59 | the checksum of a record is the sum modulo 256 of all its bytes in printed order |
| Hexfile.HexData.AppendHexline | tools/xpp/hexfile.c:111-262 | one line is appended or refused as specified, each error with its own status, the end record noted |
| Hexfile.HexData.DumpPieces | tools/xpp/hexfile.c:333-358 | one record printed in pieces of at most the width, each with its own offset and checksum |
| Hexfile.HexData.DumpHexfile2 | tools/xpp/hexfile.c:302-367 | all records printed at the width, then the end record |
| Hexfile.HexData.BsdChecksum | tools/xpp/hexfile.c:545-568 | rotate-and-add over the data of every record but the end record |
| Hexfile.ParseHexfile | tools/xpp/hexfile.c:402-468 | the whole text line by line: comments, blank lines and a DOS end of file passed over, any refused line failing the file |
| FpgaLoad.NumbersConsecutive | tools/xpp/fpga_load.c:710-736 | packets carry consecutive 16-bit numbers if and only if every data line has a multiple of 65536 control lines before it |
| FpgaLoad.DataFileIsSent | tools/xpp/fpga_load.c:498-538 | for data-only files the packets, over either bus, are numbered consecutively from zero, join to exactly the file's bytes, and over USB 1 hold 1 to 60 bytes |
| FpgaLoad.AllDataIsSent | tools/xpp/fpga_load.c:442-538 | of any file, over either bus, the packets joined together are the contents of its data lines |
| FpgaLoad.PacketSizes | tools/xpp/fpga_load.c:498-538 | over USB 2 a packet is a line; over USB 1 a line takes packets of 60 bytes and a last one of what is left |
| FpgaLoad.ParsedFileIsLoaded | tools/xpp/fpga_load.c:710-722 | a file the parser accepted is always sent to its end |
| FpgaLoad.Device.SendHexline | tools/xpp/fpga_load.c:442-494 | data lines are sent in a numbered packet, others are passed over |
| FpgaLoad.Device.SendSplitedHexline | tools/xpp/fpga_load.c:498-538 | the loop sends the pieces of a line under consecutive numbers and returns how many |
| FpgaLoad.Device.Load | tools/xpp/fpga_load.c:693-739 | the lines before the end record are sent; success if and only if nothing follows it |
| Superchannel.SlavesAreThose | linux/drivers/dahdi/dahdi-base.c:3873-3882 | the slaves found are exactly the later channels with that master, in increasing order |
| Superchannel.FedIffAfterMaster | linux/drivers/dahdi/dahdi-base.c:3873-3882 | a channel is in no group but its own master's, and in that one if and only if it comes after it |
| Superchannel.AllFedIffMastersFirst | linux/drivers/dahdi/dahdi-base.c:3873-3882 | every channel is in exactly one group if and only if every slave comes after its master |
| Superchannel.LinkWalks | linux/drivers/dahdi/dahdi-base.c:3873-3885 | the links left by the loop, followed until 0, visit exactly those, and no other channel's link changes |
| Superchannel.OthersKeepTheirLists | linux/drivers/dahdi/dahdi-base.c:3860-3888 | relinking one group leaves the list of every other master alone |
| Superchannel.UnlinkKeeps | linux/drivers/dahdi/dahdi-base.c:4046-4054 | a channel leaving its master keeps all lists right |
| Superchannel.WalkAfter | linux/drivers/dahdi/dahdi-base.c:3860-3888 | after an accepted request to enslave a channel, which channels the walk from any master meets |
| Superchannel.ConfigKeepsLists | linux/drivers/dahdi/dahdi-base.c:4002-4102 | after a request every walk from a channel that is its own master meets exactly its group if and only if nobody is enslaved, or the new master is its own master, is a slave of the channel or comes before its own master, or ends a list and the channel comes before it |
| Superchannel.ConfigKeepsMasters | linux/drivers/dahdi/dahdi-base.c:4002-4102 | besides, every master stays its own master if and only if the new one is and the channel has no slaves |
| Superchannel.ItsSlavesAreLost | linux/drivers/dahdi/dahdi-base.c:4002-4102 | the slaves of a channel that becomes a slave are met in no walk any more |
| Superchannel.ConfigMeetsAll | linux/drivers/dahdi/dahdi-base.c:4002-4102 | every channel is met in exactly one walk after a request if and only if every slave comes after its master and, when one is enslaved, it has no slaves and its new master is its own or was the last of a list |
| Superchannel.SlaveOfASlaveIsFed | linux/drivers/dahdi/dahdi-base.c:4002-4102 | a concrete request that hooks a channel into the list of a master that is not its own |
| Superchannel.ByteGoesTo | linux/drivers/dahdi/dahdi-base.c:7829-7843 | byte y * g + j of a superchannel's stream is byte y of its j-th channel |
| Superchannel.ReceivesWhatWasSent | linux/drivers/dahdi/dahdi-base.c:8101-8117 | receiving over the same channels rebuilds exactly the chunks that were sent, in order |
| Superchannel.OthersStillCarry | linux/drivers/dahdi/dahdi-base.c:7820-7843 | dealing out one group leaves what every other group carries |
| Superchannel.Span.constructor | linux/drivers/dahdi/dahdi-base.c:1498 | every channel its own master, without slaves |
| Superchannel.Span.RecalcSlaves | linux/drivers/dahdi/dahdi-base.c:3860-3888 | the in-place relinking is the specified one |
| Superchannel.Span.ChanConfig | linux/drivers/dahdi/dahdi-base.c:4002-4102 | master and links after a request, refused or not; when every list is still right, and when every master is still its own |
| Superchannel.Span.TransmitGroup | linux/drivers/dahdi/dahdi-base.c:7827-7846 | the nested loops pull exactly as many chunks as the group has channels, deal them out byte by byte, and touch no other channel |
| Superchannel.Span.Transmit | linux/drivers/dahdi/dahdi-base.c:7805-7846 | over the whole span every master's group carries that master's supply |
| Superchannel.Span.ReceiveGroup | linux/drivers/dahdi/dahdi-base.c:8099-8121 | the chunks handed up are the frames of the group, one chunk for each of its channels |
| ConfAlias.CheckConfKeeps | linux/drivers/dahdi/dahdi-base.c:786-816 | a conference without members gives its alias back, one with members keeps it, and the tables stay inverse with the right bound |
| ConfAlias.GetAliasKeeps | linux/drivers/dahdi/dahdi-base.c:768-784 | a conference gets an alias of its own, and the tables stay inverse with the right bound |
| ConfAlias.AliasesSuffice | linux/drivers/dahdi/dahdi-base.c:716-725 | a conference can get an alias if and only if another one has none: there is one alias fewer than there are conferences |
| ConfAlias.AliasIsFree | linux/drivers/dahdi/dahdi-base.c:716-725 | a channel that joins always finds an alias: every alias in use has a member, and there are not enough channels |
| ConfAlias.SetConfKeeps | linux/drivers/dahdi/dahdi-base.c:4675-4749 | DAHDI_SETCONF keeps inverse tables, right cached aliases, and no alias without members; a refused request changes nothing |
| ConfAlias.RefusedIff | linux/drivers/dahdi/dahdi-base.c:4675-4720 | DAHDI_SETCONF refuses exactly what is not asked of an open channel in audio mode, for a channel to watch that is there, or a conference in range, none together with mode 0; it is busy exactly when -1 asks for an empty conference and all but the last have members |
| ConfAlias.AcceptedIs | linux/drivers/dahdi/dahdi-base.c:4720-4749 | an accepted channel is in the conference it asked for, or an empty one, with that one's alias in modes 4 to 8 and none otherwise; other channels are left alone |
| ConfAlias.ClosedKeeps | linux/drivers/dahdi/dahdi-base.c:1226-1237 | closing keeps all that if and only if the channel is not cross-connected with a conference mode set |
| ConfAlias.ClosingLosesAlias | linux/drivers/dahdi/dahdi-base.c:1226-1237 | any cross-connected channel put into any conference and then closed is left with the mode and without the alias |
| ConfAlias.LeavingIs | linux/drivers/dahdi/dahdi-base.c:1226-1237 | closing takes a channel that is not cross-connected out of its conference, leaving audio mode any channel; other channels are left alone |
| ConfAlias.AudioOffKeeps | linux/drivers/dahdi/dahdi-base.c:5185-5222 | leaving audio mode keeps all that |
| ConfAlias.PickedIsEmpty | linux/drivers/dahdi/dahdi-base.c:755-766 | the conference picked for -1 has no members; none is found if and only if all below the last have some |
| ConfAlias.RunSharesAliases | linux/drivers/dahdi/dahdi-base.c:716-816 | after any allowed run two channels share a cached alias if and only if they share the conference, and it lies below maxconfs |
| ConfAlias.Conferences.constructor | linux/drivers/dahdi/dahdi-base.c:223-224 | no conference has an alias |
| ConfAlias.Conferences.FirstEmptyAlias | linux/drivers/dahdi/dahdi-base.c:716-725 | the lowest alias not in use, or -1 |
| ConfAlias.Conferences.RecalcMaxconfs | linux/drivers/dahdi/dahdi-base.c:727-739 | one above the highest alias in use, or 0 |
| ConfAlias.Conferences.FirstEmptyConference | linux/drivers/dahdi/dahdi-base.c:755-766 | the highest conference without alias, or -1 |
| ConfAlias.Conferences.GetConfAlias | linux/drivers/dahdi/dahdi-base.c:768-784 | the tables and the alias as specified |
| ConfAlias.Conferences.CheckConference | linux/drivers/dahdi/dahdi-base.c:786-816 | the tables as specified, after a loop over the channels |
| ConfAlias.Conferences.SetConference | linux/drivers/dahdi/dahdi-base.c:4675-4749 | the new state and the reply of every accepted and refused request |
| ConfAlias.Conferences.CloseChannel | linux/drivers/dahdi/dahdi-base.c:1226-1237 | the new state, and when the invariant survives |
| ConfAlias.Conferences.AudioModeOff | linux/drivers/dahdi/dahdi-base.c:5185-5222 | the new state |
| PulseDial.TrainTogether | linux/drivers/dahdi/dahdi-base.c:8141-8166 | pulses closer together than the timeout add up to one count |
| PulseDial.TrainApart | linux/drivers/dahdi/dahdi-base.c:8141-8166 | pulses further apart are reported one by one |
| PulseDial.BreakIs | linux/drivers/dahdi/dahdi-base.c:6583-6620 | a break of k chunks is nothing, a pulse from 120 samples on, or a flash above the longest pulse, and from the flash time on an on-hook event and then an off-hook ring; the first pulse of a train is announced |
| PulseDial.TrainIsReported | linux/drivers/dahdi/dahdi-base.c:8141-8166 | a train is reported when its timer runs out and not before: up to nine pulses, ten, eleven and twelve as digits, 0, star and pound, more as nothing |
| PulseDial.HeardIffUnderstood | linux/drivers/dahdi/dahdi-base.c:6587-6600 | the digits heard are the digits dialled if and only if the breaks fit the window, break and make stay below the timeout (or only ones are dialled), and the after time brings the next digit beyond it (or there is one digit) |
| PulseDial.WholeTrain | linux/drivers/dahdi/dahdi-base.c:6426-6450 | a digit puts exactly its number of breaks on the line, ten for 0, and the far counter follows |
| PulseDial.WholeString | linux/drivers/dahdi/dahdi-base.c:3253-3303 | a whole string, tick by tick: all its digits as breaks, one completion event, sender idle again |
| PulseDial.DialledIsReported | linux/drivers/dahdi/dahdi-base.c:8141-8166 | for every pulse string and all positive timings: the line's changes, one DIALCOMPLETE, and the exact condition under which the far end reports the same digits |
| PulseDial.Dialler.RbsSethook | linux/drivers/dahdi/dahdi-base.c:2240-2365 | state, hook and timer set; the line told only of a change |
| PulseDial.Dialler.DoDtmfLoop | linux/drivers/dahdi/dahdi-base.c:3253-3303 | the loop over the dial buffer stops at the first digit it can start, or reports completion |
| PulseDial.Dialler.OtimerExpire | linux/drivers/dahdi/dahdi-base.c:6325-6455 | the next state of the three pulse states |
| PulseDial.Dialler.Transmit | linux/drivers/dahdi/dahdi-base.c:7812-7817 | the timer counts down by chunks and expires at or below zero |
| PulseDial.Listener.Hooksig | linux/drivers/dahdi/dahdi-base.c:6573-6634 | an off-hook edge is a pulse, a flash, a ring or nothing, by the time since the on-hook edge |
| PulseDial.Listener.Receive | linux/drivers/dahdi/dahdi-base.c:8124-8166 | both timers count down; an expired pulse timer reports the digit for the count |
| ToneZone.FirstNoBangIs | tools/tonezone.c:86-95 | the return fragment lies in the description, and is missing only if every component has a "!" and none is bare |
| ToneZone.TableNexts | tools/tonezone.c:160-175 | the fragments of one description point inside the table if and only if it ends untimed or has somewhere to return to |
| ToneZone.ZoneLoads | linux/drivers/dahdi/dahdi-base.c:2971-2991 | a compiled zone loads if and only if it fits and every description is so |
| ToneZone.StepTogether | linux/drivers/dahdi/dahdi-base.c:6232-6257 | one sample from the table is one sample of the description, phase included |
| ToneZone.ZonePlays | linux/drivers/dahdi/dahdi-base.c:6232-6257 | playing a loaded tone sounds, sample by sample and for ever, exactly as its description reads |
| ToneZone.InOrder | tools/tonezone.c:75-180 | the components are heard in order, each for eight samples a millisecond |
| ToneZone.HoldsForEver | tools/tonezone.c:164-168 | the first untimed component is one unbroken tone for ever |
| ToneZone.RepeatsForEver | tools/tonezone.h:40-44 | with all components timed the end leads back to the first one without "!", any number of times |
| ToneZone.PlayedInPieces | linux/drivers/dahdi/dahdi-base.c:6232-6257 | cutting the sound into chunks of any sizes does not change it |
| ToneZone.BuildTone | tools/tonezone.c:75-180 | the loop writes exactly the fragments of a description, or fails for a syntax error or lack of room, leaving earlier fragments alone |
| ToneZone.BuildZone | tools/tonezone.c:379-392 | the fragments of all sounds, one after the other |
| ToneZone.LoadZone | linux/drivers/dahdi/dahdi-base.c:2916-2991 | the loader's checks |
| ToneZone.Voice.constructor | linux/drivers/dahdi/dahdi-base.c:1379-1423 | the first fragment of the tone, from its start |
| ToneZone.Voice.GetTone | linux/drivers/dahdi/dahdi-base.c:6232-6257 | a chunk of any size is the next samples of the sound, however many fragments it spans |
| DynamicLoc.CreatedKeeps | linux/drivers/dahdi/dahdi_dynamic_loc.c:159-235 | a new device keeps (key, id) unique and every pointer on another listed device of the same key |
| DynamicLoc.DestroyedKeeps | linux/drivers/dahdi/dahdi_dynamic_loc.c:124-157 | so does removing one |
| DynamicLoc.JoinKeepsSymmetry | linux/drivers/dahdi/dahdi_dynamic_loc.c:190-215 | joining keeps peering symmetric if and only if the newcomer monitors or meets at most one device of its key |
| DynamicLoc.MonitorIsNotAnswered | linux/drivers/dahdi/dahdi_dynamic_loc.c:190-215 | three addresses after which one device sends to another that does not send back |
| DynamicLoc.AtMostTwo | linux/drivers/dahdi/dahdi_dynamic_loc.c:190-215 | paired devices are at most two to a key |
| DynamicLoc.CreatedPairs | linux/drivers/dahdi/dahdi_dynamic_loc.c:190-215 | without monitors a new device keeps devices paired |
| DynamicLoc.DestroyedPairs | linux/drivers/dahdi/dahdi_dynamic_loc.c:124-157 | so does removing one |
| DynamicLoc.RunIsSound | linux/drivers/dahdi/dahdi_dynamic_loc.c:124-235 | all of this over every run of create and destroy |
| DynamicLoc.LocalPairs | linux/drivers/dahdi/dahdi_dynamic_loc.c:124-235 | from nothing, without monitor addresses: unique devices, each key at most a pair sending to each other |
| DynamicLoc.PairingIs | linux/drivers/dahdi/dahdi_dynamic_loc.c:190-215 | among paired devices one that monitors nothing is created if and only if its id is free and its key has not two devices yet, and if there is one they send to each other |
| DynamicLoc.MonitoringIs | linux/drivers/dahdi/dahdi_dynamic_loc.c:190-215 | one that monitors another is created if and only if its id is free and that other has no monitor yet; it sends to nobody and nobody to it |
| DynamicLoc.ParseIs | linux/drivers/dahdi/dahdi_dynamic_loc.c:164-182 | an address is a digit, a colon and a digit; two more characters, a colon and a digit, name the monitored device, any other number of them is passed over |
| DynamicLoc.Driver.DropPointers | linux/drivers/dahdi/dahdi_dynamic_loc.c:131-138 | the loop clears exactly the pointers to one node |
| DynamicLoc.Driver.Unlink | linux/drivers/dahdi/dahdi_dynamic_loc.c:139-150 | the node leaves the linked list, if it is in it, and nothing else changes |
| DynamicLoc.Driver.Destroy | linux/drivers/dahdi/dahdi_dynamic_loc.c:124-157 | the graph without the device, or unchanged for one not listed |
| DynamicLoc.Driver.OfferAll | linux/drivers/dahdi/dahdi_dynamic_loc.c:192-215 | the loop up to the first device that does not admit the new one |
| DynamicLoc.Driver.JoinAll | linux/drivers/dahdi/dahdi_dynamic_loc.c:189-232 | all devices of the key are offered the new one, or after a failure every pointer is as it was |
| DynamicLoc.Driver.Link | linux/drivers/dahdi/dahdi_dynamic_loc.c:216-217 | the node goes to the front of the list |
| DynamicLoc.Driver.Create | linux/drivers/dahdi/dahdi_dynamic_loc.c:159-235 | null for a bad address or a device that may not join, and then the graph is unchanged; otherwise the graph with it |
| Dynamic.SentIsReceived | linux/drivers/dahdi/dahdi_dynamic.c:277-412 | a built message is accepted by a span of as many channels unless there are none, every chunk arrives, and every channel reads its nibble below its neighbour's |
| Dynamic.WireIs | linux/drivers/dahdi/dahdi_dynamic.c:164-222 | the message byte by byte: 8, flags, counter and channels high byte first, four signalling nibbles to a word, then eight bytes a channel |
| Dynamic.TakenIs | linux/drivers/dahdi/dahdi_dynamic.c:277-412 | a message is taken if and only if samples, channels and length are right, the length counting the signalling the flags announce; alarm, counter and gap are read off it, and a refused one changes only the noted error |
| Dynamic.ChannelIs | linux/drivers/dahdi/dahdi_dynamic.c:355-381 | each channel gets its own eight bytes and, where there is signalling, its own nibble of it |
| Dynamic.SigIsExact | linux/drivers/dahdi/dahdi_dynamic.c:368 | the low nibble always survives; the whole value is exact if and only if the next channel of the word is silent or absent |
| Dynamic.MessageFits | linux/drivers/dahdi/dahdi_dynamic.c:589 | the message fits the buffer allocated for it if and only if the span has at most 164 channels, or 168 |
| Dynamic.GapsAreReported | linux/drivers/dahdi/dahdi_dynamic.c:385-406 | over any lossy run a gap is reported if and only if the number lost since the last accepted message is not a multiple of 65536 |
| Dynamic.Span.constructor | linux/drivers/dahdi/dahdi_dynamic.c:549-600 | fresh buffers, and the message buffer is long enough exactly when the message fits |
| Dynamic.Span.PutSigs | linux/drivers/dahdi/dahdi_dynamic.c:193-212 | the loop packs four nibbles to a word, low channel lowest, and finishes a begun word |
| Dynamic.Span.SendMessage | linux/drivers/dahdi/dahdi_dynamic.c:164-222 | the buffer holds exactly the message, and the counter goes up modulo 65536 |
| Dynamic.Span.CheckMessage | linux/drivers/dahdi/dahdi_dynamic.c:290-353 | each malformed message gets its own error |
| Dynamic.Span.TakeSigs | linux/drivers/dahdi/dahdi_dynamic.c:355-375 | the loop reads a fresh word every fourth channel and eight bits for each |
| Dynamic.Span.TakeChunks | linux/drivers/dahdi/dahdi_dynamic.c:377-381 | every channel gets its own eight bytes |
| Dynamic.Span.ReceiveMessage | linux/drivers/dahdi/dahdi_dynamic.c:277-412 | a refused message changes only the noted error; an accepted one is taken whole |
| License.PrintedInPieces | tools/xpp/astribank_allow.c:72-96 | printing bytes in two calls prints what one call would |
| License.PrintedIsDump | tools/xpp/astribank_allow.c:72-96 | whatever the pieces, printed and flushed they are sixteen bytes to a line |
| License.DumpReads | tools/xpp/astribank_allow.c:160-181 | the dump's lines, read in order, put back exactly the dumped bytes |
| License.WrittenIsRead | tools/xpp/astribank_allow.c:183-274 | reading a written file in a fresh program gives back eeprom table, capabilities and key if and only if no line of the serial number lacks a key or has the key Data; otherwise it fails |
| License.HeaderSays | tools/xpp/astribank_allow.c:98-108 | read back by key, the header gives the timestamp, the ports of each kind and the twin-star bit of the capabilities, in decimal |
| License.SerialIs | tools/xpp/astribank_allow.c:98-104 | the serial number is the label in the last eight bytes of the eeprom table |
| License.LabelIs | tools/xpp/astribank_allow.c:98-104 | a label is the bytes from its place on, up to a zero or the end of the table |
| License.DumpAt | tools/xpp/astribank_allow.c:72-96 | where in the dump the two digits of each byte are, sixteen bytes to a line |
| License.AnyDumpIsRead | tools/xpp/astribank_allow.c:160-274 | a file with any bytes dumped is accepted if and only if they fit the table and the header is in order, and loads them with zeros for what is missing |
| License.TruncatedIsPadded | tools/xpp/astribank_allow.c:160-274 | so a written file cut off anywhere in its dump loads what is left of it |
| License.PlainLabelIsOk | tools/xpp/astribank_allow.c:98-116 | so it does for every label without a newline |
| License.ReadingTwiceFails | tools/xpp/astribank_allow.c:160-181 | the offset is never set back: after a good file a second reading would fail; the program reads one |
| License.TrimLine | tools/xpp/astribank_allow.c:124-137 | the loops strip white space from both ends |
| License.Program.BinToFile | tools/xpp/astribank_allow.c:72-96 | the loop prints the bytes from the present column on and leaves the column right |
| License.Program.Flush | tools/xpp/astribank_allow.c:76-82 | a begun line is ended |
| License.Program.WriteToFile | tools/xpp/astribank_allow.c:98-116 | the whole file |
| License.Program.StrToBin | tools/xpp/astribank_allow.c:160-181 | the loop puts a line's bytes into the table, or refuses a line of odd length, with a bad digit, or too long |
| License.Program.TakeLine | tools/xpp/astribank_allow.c:213-263 | one line in each of the five states |
| License.Program.ReadFromFile | tools/xpp/astribank_allow.c:183-274 | the line loop ends as the state machine says |

## Left out

- Signals, sleeping and wake-ups: a blocked call is its retry; when there is room for it again is `WriteQueue.BlockedWriterIsReleased`.
- WriteQueue.TxChannel.ChanWrite: is the call without a pending event, and leaves out stopping a tone that is playing.
- WriteQueue.TxChannel.GetBufChunk: is the branch without tone, loop-back or HDLC.
- ReadQueue.RxChannel.PutBufChunk: is the branch of a plain channel.
- ReadQueue.RxChannel.ChanRead: is the call without a pending event and without conversion to linear samples.
- Mixer.Conference.Tick: covers channels in normal conference mode.
- ConfAlias.Conferences.GetConfAlias: is for calls that find an alias, as `ConfAlias.AliasIsFree` proves of all calls.
- HDLC bit stuffing and deframing, MTP2, network and PPP channels: they hang on code outside these files, and the queues are modelled for plain channels.
- Echo cancellation, gains, companding tables and monitor modes: they change samples or add copies, not the bookkeeping.
- Links between conferences and the announce and monitor conference modes in `Mixer`: they break the exact sum by design.
- Conference setup through `DAHDI_CHANCONFIG` and `dahdi_chan_unreg` in `ConfAlias`: the first sets a cross-connect mode without looking at conferences, the second runs while the channel table is half rebuilt.
- Superchannel.Span.Transmit: leaves out audio and cross-connected channels, which take the path of a single channel.
- Channels of several spans in one superchannel: `recalc_slaves` looks only at the master's own span, and so does the model.
- PulseDial.DialledIsReported: covers strings that stay in pulse mode; the letters T, M, O, R and W start tones and pauses. Both ends tick together, receive before transmit, on a line without delay.
- PulseDial.Dialler.DoDtmfLoop: is for dial buffers of digits, as the line above.
- PulseDial.Dialler.RbsSethook: keeps the hook and its timer, not the signalling bits for each kind of line.
- PulseDial.Listener.Hooksig: is for lines whose hook changes need no debouncing.
- Ring cadences, start, wink and debounce states of the hook machine: other branches of the same switch statements that pulse dialling does not enter.
- Tone frequencies to oscillator coefficients, the modulate flag, and the DTMF and MF fragments: floating point, and fragments that only extend the table.
- ToneZone.LoadZone: has the checks on the fragments of sounds.
- Scanning of tone components and other `sscanf` leniency (spaces, short digit groups, `0x`): `ToneZone` starts from scanned components, `Hexfile` takes text with full-width digits.
- A hex line of only white space: the C code reads before its buffer there; the model refuses the line as too short.
- A licence line that is blank or lacks a key: the C code follows a null pointer; the model counts it as a failure.
- FpgaLoad.Device.SendHexline: takes the reply of the device as positive; its failures are not part of this model.
- FpgaLoad.Device.SendSplitedHexline: likewise.
- FpgaLoad.Device.Load: likewise.
- Menuselect in non-interactive mode and with defaulted members, reading XML, and writing make files: modes in which members are switched on again, and input and output. Whether an outside item is available is a flag of the dependency.
- Menuselect.Members.EnableOne: is for menus without cyclic dependencies, which the C recursion needs as well to end.
- Enabling.SwitchesOn: is a sufficient condition; when a dependency is on but not built, what is achieved depends on the order of the dependencies, and `Enabling.BuiltIffNeedsAreOn` is exact where all direct ones are on.
- Dynamic.Span.SendMessage: is for a buffer that holds the message; for which spans it does is `Dynamic.MessageFits`.
- Memory allocation failures, module loading and reference counts.
- Dynamic span drivers, jiffies and the choice of a master span: timing and transport outside the message format.
