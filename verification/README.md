# Verified models of the CoCo 2 and 3 emulator

Dafny models of the pieces of the TTGO-VGA32-COCO emulator in which a fast, incremental or concurrent
form has to agree with a simple one, and proofs that it does. Each file is one piece; imperative code is
modelled as classes and methods over the fields and arrays the C++ has, and every method is tied to a
specification function about which the theorems are proved.

- `IdleLoop.dfy`: the HD6309 interpreter for the instructions a polling loop may contain, and the run
  loop's skip over whole passes of such loops.
- `Instructions.dfy`: what those instructions mean to a program, told from their bytes.
- `GimeRender.dfy`, `GimePicture.dfy`: the GIME's scanline renderers, the reference one and the one with a loop
  per mode, and what every pixel of a line shows.
- `Becker.dfy`: the two byte rings between CPU and DriveWire back end, with cross-core flush requests.
- `AudioFeed.dfy`, `AudioControl.dfy`: the sample ring between emulation and DMA, two threads step by step, and
  what its rate control does.
- `Keyboard.dfy`: the paced key queue.
- `MemoryMap.dfy`, `MemoryLaws.dfy`: page tables against the full address decode, CoCo 3 and CoCo 2, and where
  RAM and ROM are.
- `Interrupts.dfy`, `InterruptLaws.dfy`: interrupt entry and RTI, in steps and in numbers.
- `Tfm.dfy`, `Transfers.dfy`, `Divide.dfy`: block transfer, cut up and opcode by opcode, and division.
- `Disk.dfy`, `TrackFormat.dfy`: the write-back sector cache and the WRITE TRACK parser.
- `GimeTimer.dfy`, `SamCounter.dfy`, `LineMap.dfy`: programmable timer, video address counter, line mapping.
- `PngWriter.dfy`, `Checksums.dfy`, `BlockFile.dfy`: the screenshot encoder, its CRC, and the file-position cache.
- `Words.dfy`, `Hd6309.dfy`: fixed-width words, bits, arithmetic facts; the register file.

Integers are unbounded in Dafny; wherever the C++ relies on 8, 16 or 32 bits the wrap-around is written
out. Device input, clocks, whether memory or a file can be had, and how much a card transfers are
parameters.

Where code and claim differ, the model follows the code and the theorem says exactly when the claim holds:

- The idle skip is right for every budget if and only if the next pass reproduces the registers
  (`IdleLoop.SkipExactIff`). Every accepted body does so after two passes the second of which left X alone
  (`IdleLoop.AcceptedLoopSettles`), and all but those that depend on an LDX indexed by X do leave it alone
  (`IdleLoop.XSettles`). Once a loop has settled, every later call is exact wherever it enters the loop
  (`IdleLoop.SettledLoopExact`). Without the second pass, with a branch noted before the loop was left, or
  with such an LDX, whole run calls end differently with and without the skip (`IdleLoop.OnePassLags`,
  `IdleLoop.StaleBranch`, `IdleLoop.SelfLoadDrifts`).
- The ring comparison `skip_to` is right if and only if the mark is ahead or the distance behind it is at
  most 2^31 modulo 2^32 (`Becker.SkipExactIff`). A waiting receive mark is that near for 2^19 resets after a
  link drop, in runs of any length (`Becker.MarksInReach`), and need not be for one more
  (`Becker.MarkOutOfReach`).
- The plain row law of the SAM counter holds unless text is shown in modes 1, 3 or 5
  (`SamCounter.PlainLawIff`), where rows pass twice as fast.
- DIVD and DIVQ flag a quotient of -128 or -32768 as overflow (`Divide.DivdMeaning`).
- A disk flush clears its dirty bits even when a write takes nothing. Cache and file then agree wherever no
  bit is set if and only if every dirty byte not taken was right already (`DiskCache.FlushKeepsIff`,
  `DiskCache.StalledFlushLosesData`).
- The position cache misses a needed seek exactly when a write at offset 0xFFFFFFFF follows a write, the
  position being unknown: the bytes go to wherever the handle is (`BlockFile.BlockFile.Position`,
  `BlockFile.BlockFile.Write`).
- An audio restart moves `rd` back if and only if the fill has dropped below the target since it was read
  (`AudioFeed.RestartMovesBackIff`). It happens when the ring runs dry in between: then samples already
  played are played again (`AudioFeed.StaleRestart`). The bounds of `AudioFeed.Safety` hold all the same.

## Model

| member | source | states |
|---|---|---|
| `IdleLoop.ClassifierSound` | src/core/mc6809_core_impl.h:2873-2926 | every instruction the idle classifier accepts is a modelled one whose operand is plain memory, and the kind and length it returns are those of the instruction |
| `IdleLoop.PairSettles` | src/core/mc6809_core_impl.h:2930-2945 | with fixed operands an accepted pair of instructions reaches a fixpoint after one settling pass, for all register values |
| `IdleLoop.SingleSettles` | src/core/mc6809_core_impl.h:2930-2945 | a one-instruction body reproduces the state after two passes the second of which leaves X alone |
| `IdleLoop.DoubleSettles` | src/core/mc6809_core_impl.h:2930-2945 | the same for two-instruction bodies, an LDX indexed by X among them included, with registers and condition codes |
| `IdleLoop.AcceptedLoopSettles` | src/core/mc6809_core_impl.h:2841-2945 | for every accepted body: after two full passes from the top, the second leaving X alone, the next pass costs `period` cycles and changes no register, memory or line |
| `IdleLoop.XSettles` | src/core/mc6809_core_impl.h:2887-2945 | which bodies leave X alone from the second pass on, whatever memory holds: those with no LDX indexed by X, and those that also hold an LDX that is not |
| `IdleLoop.PassRuns` | src/core/mc6809_core_impl.h:2971-3039 | a pass that ends within the budget is exactly what the run loop does next |
| `IdleLoop.SkipExact` | src/core/mc6809_core_impl.h:2949-2967 | adding k whole periods of a fixpoint pass to the cycle counter gives the same end of the run call as interpreting them, for every budget |
| `IdleLoop.SkipExactIff` | src/core/mc6809_core_impl.h:2949-2967 | for a loop with constant period the skip is right for every budget if and only if the next pass reproduces the registers |
| `IdleLoop.PassAlike` | src/core/mc6809_core_impl.h:2949-2967 | what a pass does depends on registers and memory only: from any cycle count it leads to the same registers and takes as long |
| `IdleLoop.ClassifierExact` | src/core/mc6809_core_impl.h:2873-2926 | the classifier takes every modelled instruction with a plain operand and no other |
| `IdleLoop.LoopOkIff` | src/core/mc6809_core_impl.h:2930-2945 | a loop is accepted exactly when its branch leads to its top over nothing, over one instruction that does not compute on an accumulator, or over such a one and a second that computes at most on what the first loaded |
| `IdleLoop.SkipTurnExact` | src/core/mc6809_core_impl.h:1177-1200 | one turn of the skipping run loop is matched by interpretation wherever it catches a settled loop, settled being a matter of registers and memory, not of this call |
| `IdleLoop.RunSkipExact` | src/core/mc6809_core_impl.h:2841-3039 | a whole run call with skipping ends with the registers, memory and cycles of one without, in any surrounding code, when every skip catches a settled loop |
| `IdleLoop.RunSkipExactSeen` | src/core/mc6809_core_impl.h:2841-3039 | the same under a condition on the history: wherever the skip fires, the last turns are a whole pass, X the same over it, and the registers it began with are what a whole pass led to before, in this call or an earlier one, over memory unchanged since; that `idle_cyc` then measured one pass is proved |
| `IdleLoop.SessionExact` | src/core/mc6809_core_impl.h:2841-3039 | the same for any sequence of calls, each of which resets the counter and `idle_br`, with anything done to the CPU between them: every call ends as interpreting ends it |
| `IdleLoop.SettledLoopExact` | src/core/mc6809_core_impl.h:2841-3039 | once a pass reproduces the registers, any number of calls of any budgets, the first entered anywhere in the body, end as interpreting ends them and still in the loop, as long as the CPU is left alone between calls |
| `IdleLoop.SettledLag` | src/core/mc6809_core_impl.h:2898-2967 | CMPA then LDA entered at the branch with the carry a pass leaves: every call is exact |
| `IdleLoop.SelfLoadDrifts` | src/core/mc6809_core_impl.h:2887-2898 | LDX ,X along a pointer chain: a run call entered at its top skips after two whole passes and ends with another X than interpreting gives |
| `IdleLoop.OnePassLags` | src/core/mc6809_core_impl.h:2898-2967 | CMPA then LDA: a run call of 36 cycles entered at the branch skips after one pass and ends with another carry than interpreting gives |
| `IdleLoop.StaleBranch` | src/core/mc6809_core_impl.h:2949-2967 | TSTB / BNE left by falling through and entered again 16 cycles later: `idle_br` is stale, the time between is taken for one pass, and a call of 51 cycles ends with another A than interpreting gives |
| `IdleLoop.Cpu.IdleLoopCheck` | src/core/mc6809_core_impl.h:2949-2967 | the imperative check updates counters and cycles as the specification used by the theorems |
| `IdleLoop.Cpu.InterpretOne` | src/core/mc6809_core_impl.h:1177-1200 | fetch, addressing and operation on the fields refine the specified instruction, and report a short branch taken back |
| `IdleLoop.Cpu.ExecuteOne` | src/core/mc6809_core_impl.h:1177-1200 | one instruction and the back-branch hook refine the specified turn |
| `IdleLoop.Cpu.Run` | src/core/mc6809_core_impl.h:2971-3039 | the run loop refines the specified run, whose result is RunSkipExact's subject |
| `Instructions.CompareAndBranch` | src/core/mc6809_core_impl.h:546-568 | after CMPA, CMPB, SUBA or SUBB, in every addressing mode and for all values, each of the sixteen branches is taken exactly when accumulator and operand stand in its relation, unsigned, signed or not fitting |
| `Instructions.CompareXAndBranch` | src/core/mc6809_core_impl.h:546-568 | the same for CMPX |
| `Instructions.ResultAndBranch` | src/core/mc6809_core_impl.h:1905-1953 | after LD, AND, BIT, EOR or OR of an accumulator the branch goes by the result: its sign, whether it is zero, V clear, C as it was |
| `Instructions.AddAndBranch` | src/core/mc6809_core_impl.h:198-211 | after ADD: by the sum, its carry, its sign, whether it fits |
| `Instructions.WordAndBranch` | src/core/mc6809_core_impl.h:1974-1983 | after LDD and LDX: by the word loaded |
| `Instructions.TstAndBranch` | src/core/mc6809_core_impl.h:1042-1049 | after TST of memory: by the byte |
| `Instructions.TstAccAndBranch` | src/core/mc6809_core_impl.h:1424-1429 | after TSTA and TSTB: by the accumulator |
| `Instructions.Leaves8` | src/core/mc6809_core_impl.h:198-227 | difference, sum, AND, OR, EOR or operand in the accumulator, all else as it was; H is the carry out of the low digit after ADD only |
| `Instructions.LeavesWord` | src/core/mc6809_core_impl.h:2409-2417 | LDD puts the high byte into A and the low into B, LDX the word into X, CMPX writes no register |
| `Instructions.LeavesNothing` | src/core/mc6809_core_impl.h:1424-1429 | NOP, TSTA and TSTB write no register, NOP no condition code |
| `Instructions.LeavesTst` | src/core/mc6809_core_impl.h:1042-1049 | nor does TST of memory |
| `Instructions.Takes` | src/core/mc6809_core_impl.h:1873-2224 | cycles of every modelled instruction in emulation and in native mode, offset of an indexed mode included |
| `Instructions.BranchTakes` | src/core/mc6809_core_impl.h:1177-1200 | a branch takes three cycles, taken or not, and touches PC only |
| `GimeRender.DecodedGeometry` | src/core/tcc1014.cpp:721-749 | native lines are 640 pixels wide exactly when bit 0 of HRES is set, a byte becoming 32, 16, 8 or 4 pixels by its other bits and a character 8 or 16 by the highest; VDG lines are 512 wide, of 16 bytes exactly with GnA and an odd SAM mode; the mode bits are bits 7, 5, 4 and 3 of the port |
| `GimeRender.Decoded` | src/core/tcc1014.cpp:48-51 | whatever the registers hold, the decoded row fits the 160-byte staging buffer, resolution is below 4, and the line is 512 or 640 pixels wide with no cell cut off |
| `GimeRender.Gime.constructor` | src/core/tcc1014.cpp:212-230 | the state after initialisation is one the renderers work on |
| `GimeRender.Gime.UpdateFromRegisters` | src/core/tcc1014.cpp:721-749 | mode bits, bytes per row and resolution are those of the registers, whatever they were before, with the widths of `DecodedGeometry` |
| `GimeRender.Gime.WriteRegister` | src/core/tcc1014.cpp:435-560 | $FF90, $FF98, $FF99 and $FF9F keep the state one the renderers work on |
| `GimeRender.Gime.SnoopPia1b` | src/core/tcc1014.cpp:652-662 | so do the watched PIA writes, which count only while the port is not addressing its direction register |
| `GimeRender.Gime.SetSamV` | src/core/tcc1014.cpp:787-794 | and the mode bits of the SAM register |
| `GimeRender.PixelAt` | src/core/tcc1014.cpp:857-1078 | pixel j of cell k of a line has the colour of one dot of that cell: the line in closed form |
| `GimeRender.LegacyPicks` | src/core/tcc1014.cpp:857-1078 | nibble by nibble, mode decisions and the shifted data byte of the reference renderer select exactly the specified palette slots |
| `GimeRender.Gime.FetchByteVram` | src/core/tcc1014.cpp:819-836 | the pair cache delivers byte t of the line, X wrap and bank wrap included |
| `GimeRender.Gime.Emit4` | src/core/tcc1014.cpp:1112-1133 | four dots become 16, 8, 4 or 2 pixels; earlier pixels stay |
| `GimeRender.Gime.LegacyPaint` | src/core/tcc1014.cpp:857-1078 | the two nibbles of a cell paint its pixels |
| `GimeRender.Gime.RenderLegacy` | src/core/tcc1014.cpp:857-1078 | the monolithic renderer paints the specified line, in every mode and resolution; nothing when inactive |
| `GimeRender.Gime.FetchLineBytes` | src/core/tcc1014.cpp:1100-1108 | direct pointer or staged copy: either way byte k is the line's byte k |
| `GimeRender.Gime.EmitBits8` | src/core/tcc1014.cpp:1136-1142 | a two-colour byte paints its cell |
| `GimeRender.Gime.RenderNativeGfx` | src/core/tcc1014.cpp:1145-1166 | native graphics, 2, 4 and 16 colours |
| `GimeRender.Gime.RenderNativeText` | src/core/tcc1014.cpp:1170-1193 | native text with and without attributes, blink and underline |
| `GimeRender.Gime.RenderCocoCg` | src/core/tcc1014.cpp:1197-1208 | VDG colour graphics |
| `GimeRender.Gime.RenderCocoRg` | src/core/tcc1014.cpp:1210-1216 | VDG resolution graphics |
| `GimeRender.Gime.RenderCocoRg2` | src/core/tcc1014.cpp:1218-1230 | VDG low-resolution graphics, every second bit |
| `GimeRender.Gime.RenderCocoText` | src/core/tcc1014.cpp:1234-1268 | VDG alphanumerics and semigraphics |
| `GimeRender.Gime.ZeroOddBytes` | src/core/tcc1014.cpp:1338-1343 | in-place or not, staging clears every second byte of the narrow 16-colour mode |
| `GimeRender.Gime.RenderLine` | src/core/tcc1014.cpp:1315-1356 | mode dispatch reaches the loop that paints the line |
| `GimeRender.Gime.RenderScanline` | src/core/tcc1014.cpp:1445-1500 | the optimised renderer paints the same specified line and width as RenderLegacy, for every state and RAM content |
| `GimePicture.LineWidth` | src/core/tcc1014.cpp:721-749 | the line painted is as wide as the registers say |
| `GimePicture.NativeGraphics` | src/core/tcc1014.cpp:978-1040 | every pixel of a native graphics line is the palette entry in its one, two or four bits of its byte of video memory, offset and bank wrapped; every second byte of the narrow 16-colour lines shows entry 0 |
| `GimePicture.NativeText` | src/core/tcc1014.cpp:949-976 | every pixel of a text line: glyph line, foreground, background, blink and underline of its character |
| `GimePicture.VdgColours` | src/core/tcc1014.cpp:890-906 | every pixel of a VDG colour graphics line |
| `GimePicture.VdgDots` | src/core/tcc1014.cpp:890-906 | every pixel of a VDG resolution graphics line, doubled dots included |
| `GimePicture.VdgBlocks` | src/core/tcc1014.cpp:907-916 | semigraphics: which bit lights which quadrant, in which entry |
| `GimePicture.VdgText` | src/core/tcc1014.cpp:917-934 | every pixel of a VDG text line: glyph, colours and the four inversions |
| `Becker.StepOk` | src/core/becker.cpp:49-193 | every step of either core keeps: 0 to SIZE bytes held, delivery in order and without duplicates, only bytes covered by a later flush passed over |
| `Becker.Safety` | src/core/becker.cpp:49-193 | the invariant holds in every interleaving |
| `Becker.DeliveredExactly` | src/core/becker.cpp:92-102 | in every run, the bytes sent since the last flush and taken by the consumer are delivered once each, in order |
| `Becker.LaterBytesSurvive` | src/core/becker.cpp:33-52 | a flush drops only bytes sent before it: without another flush every later byte taken is delivered |
| `Becker.NoStaleReply` | src/core/becker.cpp:180-193 | no byte pushed toward the CoCo before a link drop is read after it |
| `Becker.NoStaleRequest` | src/core/becker.cpp:114-121 | no byte written before a reset is popped after it, and no earlier reply is read |
| `Becker.KeepsNewRequests` | src/core/becker.cpp:180-193 | a link drop that answers a reset keeps every request written after the reset |
| `Becker.Capacities` | src/core/becker.cpp:92-167 | 4096 bytes one way and 1024 the other; a push takes what fits, a write nothing when full, a pop what is asked for or there |
| `Becker.SkipExact` | src/core/becker.cpp:49-52 | the signed 32-bit comparison decides as the unbounded one when the mark is within reach |
| `Becker.SkipExactIff` | src/core/becker.cpp:49-52 | it is right if and only if the mark is ahead or its distance behind, modulo 2^32, is at most 2^31 |
| `Becker.ShortRunsInReach` | src/core/becker.cpp:49-52 | a ring that has accepted at most 2^31 bytes always has its mark in reach |
| `Becker.MarksInReach` | src/core/becker.cpp:78-85 | in a run of any length: the receive mark is in reach while it waits unless there were more than 2^19 resets since the link dropped, that of a waiting transmit flush always is, that of an uncleared reset unless the back end popped more than 2^21 times since |
| `Becker.MarkOutOfReach` | src/core/becker.cpp:49-52 | a run with 2^19 + 1 resets after a link drop in which the receive mark waits out of reach |
| `Becker.BeckerPort.constructor` | src/core/becker.cpp:62-72 | empty rings |
| `Becker.BeckerPort.ServiceRxFlush` | src/core/becker.cpp:78-85 | a pending request moves the tail to its mark, never back |
| `Becker.BeckerPort.ReadStatus` | src/core/becker.cpp:87-90 | data-ready bit exactly when an unflushed byte waits |
| `Becker.BeckerPort.ReadData` | src/core/becker.cpp:92-102 | the oldest unflushed byte, or 0 |
| `Becker.BeckerPort.WriteData` | src/core/becker.cpp:104-112 | the byte is accepted unless the ring is full; the pending flag follows |
| `Becker.BeckerPort.Reset` | src/core/becker.cpp:114-121 | drops replies, requests the transmit flush |
| `Becker.BeckerPort.TxPop` | src/core/becker.cpp:134-149 | the oldest unflushed bytes, at most the buffer, rest of the buffer untouched |
| `Becker.BeckerPort.RxSpace` | src/core/becker.cpp:151-153 | free space under 32-bit wraparound |
| `Becker.BeckerPort.RxPending` | src/core/becker.cpp:155-157 | waiting bytes under wraparound |
| `Becker.BeckerPort.RxPush` | src/core/becker.cpp:159-167 | as many bytes as fit are accepted, in order |
| `Becker.BeckerPort.ClearReset` | src/core/becker.cpp:171-178 | drops the bytes before the reset and only those |
| `Becker.BeckerPort.SetLinkUp` | src/core/becker.cpp:180-193 | a link drop flushes both rings, a reset-triggered one keeping later requests |
| `AudioFeed.Constants` | src/hal/audio_feed.h:33-65 | the numbers used are the values of the macro definitions |
| `AudioFeed.AverageOk` | src/hal/audio_feed.h:124-155 | the averaged frame interval stays between 8 and 60 ms |
| `AudioFeed.StrideBounded` | src/hal/audio_feed.h:173-201 | the controller keeps the stride in [34078, 67502] and the error average in range |
| `AudioFeed.NextOk` | src/hal/audio_feed.h:111-236 | every step of either thread keeps the invariant |
| `AudioFeed.Safety` | src/hal/audio_feed.h:111-236 | in every interleaving rd <= wr <= rd + 1984, the stride is bounded and only one thread at a time may move rd |
| `AudioFeed.RestartMovesBackIff` | src/hal/audio_feed.h:157-171 | in every reachable state a restart puts `rd` the target level behind `wr`, and so moves it back if and only if the fill is below that level by then |
| `AudioFeed.StaleRestart` | src/hal/audio_feed.h:157-171 | a run from the start in which it does: the level is read, the ring runs dry in one buffer of 776 words, and the restart goes from 774 back to 0; every buffer of the run is of even length |
| `AudioControl.StrideFollowsError` | src/hal/audio_feed.h:173-201 | after a steer the stride is 65536 when not correcting, else its base (65536, or 65536 frames by the averaged interval while slow, at least 36044) plus 7.5 times the averaged error, at most 1966: above the base exactly for a positive error |
| `AudioControl.StrideFollowsFill` | src/hal/audio_feed.h:173-201 | of two feeds alike but for the fill the fuller never gets the smaller stride |
| `AudioControl.Judges` | src/hal/audio_feed.h:173-187 | the error average moves a sixteenth of the way; slow and correcting begin and end at their thresholds |
| `AudioControl.Averages` | src/hal/audio_feed.h:124-155 | implausible intervals count for nothing, ordinary ones move the average by a 32nd |
| `AudioControl.ThreeLong` | src/hal/audio_feed.h:136-141 | the third long frame in a row, and no earlier one, takes the average up to the shortest of the three |
| `AudioControl.MoreLong` | src/hal/audio_feed.h:136-141 | further ones leave it there |
| `AudioControl.ThreeShort` | src/hal/audio_feed.h:143-150 | three frames well under the average take it down to the longest of them |
| `AudioControl.WordPlays` | src/hal/audio_feed.h:207-229 | a word moves the read position by exactly the stride; it is the input sample, or the value nearest to the line between its two |
| `AudioControl.WordsAdvance` | src/hal/audio_feed.h:207-236 | n words that do not run dry move it by exactly n strides |
| `AudioFeed.FullSpeedIsExact` | src/hal/audio_feed.h:207-219 | in every run, samples played at stride 65536 are consecutive input samples, none lost or repeated |
| `AudioFeed.MixedIsBetween` | src/hal/audio_feed.h:220-227 | an interpolated sample lies between its two neighbours and moves at most two samples on |
| `AudioFeed.PlayOk` | src/hal/audio_feed.h:212-227 | a step never moves rd past wr, because two samples are there and the stride is bounded |
| `AudioFeed.WordIsSteps` | src/hal/audio_feed.h:211-235 | the sequential form of one word is a run of the consumer's steps |
| `AudioFeed.WordsAreSteps` | src/hal/audio_feed.h:211-235 | so is a whole buffer |
| `AudioFeed.PushSteps` | src/hal/audio_feed.h:111-119 | an uninterrupted push stores one sample, or none at the fill limit |
| `AudioFeed.SteerSteps` | src/hal/audio_feed.h:124-201 | an uninterrupted steer restarts at exactly the target level, or sets the stride |
| `AudioFeed.AudioRing.constructor` | src/hal/audio_feed.h:89-104 | initial state |
| `AudioFeed.AudioRing.Push` | src/hal/audio_feed.h:111-119 | 32-bit code refines the steps |
| `AudioFeed.AudioRing.Steer` | src/hal/audio_feed.h:124-201 | 32-bit code refines the steps |
| `AudioFeed.AudioRing.OneWord` | src/hal/audio_feed.h:211-235 | one word of the loop refines the steps |
| `AudioFeed.AudioRing.FillWords` | src/hal/audio_feed.h:207-236 | each word of the buffer, in its swapped place, holds the sample of one logged event |
| `AudioFeed.Refill` | src/hal/audio_feed.h:247-266 | buffers are refilled in order, each once, never the one being fetched |
| `Keyboard.FireEarlyOk` | src/hal/hal_keyboard.cpp:87-108 | making a change early, past key releases only, keeps every waiting change real and every press at its SHIFT state |
| `Keyboard.NextOk` | src/hal/hal_keyboard.cpp:56-109 | every event keeps the invariant |
| `Keyboard.QueueLeadsToTarget` | src/hal/hal_keyboard.cpp:70-81 | for every event sequence, applying the queue to the matrix gives the target; at most 64 wait |
| `Keyboard.OrderKept` | src/hal/hal_keyboard.cpp:87-109 | presses and SHIFT changes, and the changes of each cell, take effect in queued order, overflow included, none lost or repeated |
| `Keyboard.PressesAndPacing` | src/hal/hal_keyboard.cpp:87-109 | every press meets its queued SHIFT state; unforced changes come at least 4 (release) or 2 (press) ticks after the cell's last |
| `Keyboard.TargetIsTyped` | src/hal/hal_keyboard.cpp:70-81 | the matrix the queue leads to is the last state of every key, and the changes queued are those of the key events, repeats dropped, each with the SHIFT state of its time |
| `Keyboard.AgesAre` | src/hal/hal_keyboard.cpp:56-61 | a cell's age is the ticks since its last change, up to 255 |
| `Keyboard.TickMakes` | src/hal/hal_keyboard.cpp:87-109 | a tick makes the first change that is free and has only releases before it that are not, and no other |
| `Keyboard.TickRests` | src/hal/hal_keyboard.cpp:87-109 | without such a change it changes nothing but ages |
| `Keyboard.FourFrames` | src/hal/hal_keyboard.cpp:87-109 | a waiting queue shrinks within four ticks |
| `Keyboard.Drains` | src/hal/hal_keyboard.cpp:87-109 | with no new events the queue is empty after 4 ticks per waiting change |
| `Keyboard.Keys.SetKey` | src/hal/hal_keyboard.cpp:56-61 | one bit of one column, its age cleared; bad coordinates ignored |
| `Keyboard.Keys.Remove` | src/hal/hal_keyboard.cpp:63-66 | one element taken out, the rest moved up |
| `Keyboard.Keys.QueueKey` | src/hal/hal_keyboard.cpp:70-81 | refines the specified step: repeats dropped, oldest forced out when full |
| `Keyboard.Keys.Look` | src/hal/hal_keyboard.cpp:95-107 | due and blocked tests of the loop |
| `Keyboard.Keys.TickQueue` | src/hal/hal_keyboard.cpp:87-109 | refines the specified tick |
| `MemoryMap.PagesDecode` | src/core/tcc1014.cpp:177-206 | below $FE00 a present read page holds the cell the full decode selects, an absent one means ROM or cartridge, and the write page holds the cell a write reaches |
| `MemoryMap.SharedCell` | src/core/tcc1014.cpp:177-187 | two addresses share a RAM cell exactly when offset and wrapped bank agree |
| `MemoryMap.Machine.constructor` | src/core/machine.cpp:488-555 | power on and reset with any of the four RAM sizes: reset values and current tables |
| `MemoryMap.Machine.UpdateFastPages` | src/core/tcc1014.cpp:177-187 | the loop makes the tables current |
| `MemoryMap.Machine.UpdateActiveBanks` | src/core/tcc1014.cpp:200-206 | banks and tables current again |
| `MemoryMap.Machine.WriteInit0` | src/core/tcc1014.cpp:435-454 | tables stay current |
| `MemoryMap.Machine.WriteInit1` | src/core/tcc1014.cpp:456-474 | tables stay current although rebuilt only when TR changes |
| `MemoryMap.Machine.WriteMmu` | src/core/tcc1014.cpp:597-601 | bank register masked to the RAM fitted, tables current |
| `MemoryMap.Machine.WriteSam` | src/core/tcc1014.cpp:631-641 | map type change rebuilds the pages |
| `MemoryMap.Machine.SetRam` | src/core/tcc1014.cpp:189-198 | tables current for the new size |
| `MemoryMap.Machine.Reset` | src/core/machine.cpp:620-640 | reset values, RAM cleared, tables current |
| `MemoryMap.Machine.MemCycleRead` | src/core/tcc1014.cpp:291-330 | the decode and selection after it return the specified byte |
| `MemoryMap.Machine.ReadCallback` | src/core/machine.cpp:203-304 | the callback's shortcuts agree with the full decode below $FF00 |
| `MemoryMap.Machine.Read` | src/core/mc6809_core_impl.h:76-89 | a CPU read through the tables returns the byte of the full decode, after any sequence of writes |
| `MemoryMap.Machine.Write` | src/core/mc6809_core_impl.h:91-108 | a CPU write lands in the cell the callback would write, or updates the registers |
| `MemoryMap.Machine.WriteMemory` | src/core/machine.cpp:355-400 | RAM under ROM is written below $FE00, not above |
| `MemoryLaws.ReadByte` | src/core/machine.cpp:204-260 | a read gives RAM with the map type set or in all but the last four of every 64 banks; in those four cartridge or internal ROM, by bank, MC1 and MC0 |
| `MemoryLaws.WriteThenRead` | src/core/machine.cpp:204-260 | a byte written below $FE00 is read at every address of its cell where RAM is seen; no other cell changes, and where RAM is not seen nothing that is read does |
| `MemoryLaws.SameCell` | src/core/tcc1014.cpp:177-187 | two addresses share a cell exactly when offsets and banks agree in the RAM fitted |
| `MemoryLaws.ResetMap` | src/core/machine.cpp:620-640 | after a reset RAM below $8000, internal ROM up to $BFFF, then the cartridge |
| `MemoryLaws.Init0Bits` | src/core/tcc1014.cpp:441-454 | which bits of $FF90 and $FF91 set which switches |
| `MemoryLaws.MmuWrites` | src/core/tcc1014.cpp:597-601 | an MMU write moves its slot to its bank and no other; $FFDF and $FFDE switch the map type |
| `MemoryMapCoco2.PagesDecode` | src/core/machine.cpp:991-1004 | CoCo 2: a present page holds the byte the callback returns, a null one stands for $FF or an ignored write |
| `MemoryMapCoco2.Machine.constructor` | src/core/machine.cpp:1284-1343 | after initialisation no ROM is loaded and the tables are current |
| `MemoryMapCoco2.Machine.UpdateFastPages` | src/core/machine.cpp:991-1004 | the loop makes the tables current |
| `MemoryMapCoco2.Machine.WriteSam` | src/core/machine.cpp:1250-1258 | tables current across map-type changes |
| `MemoryMapCoco2.Machine.LoadRoms` | src/core/machine.cpp:1359-1402 | tables current after ROMs are loaded |
| `MemoryMapCoco2.Machine.Read` | src/core/machine.cpp:1144-1177 | CPU reads below $FF00 agree with the callback |
| `MemoryMapCoco2.Machine.Write` | src/core/machine.cpp:1263-1278 | CPU writes below $FF00 agree with the callback |
| `Tfm.PassMoves` | src/core/hd6309_ops.h:408-449 | one execution in the middle moves one byte and rewinds, or finishes |
| `Tfm.InterruptIsBack` | src/core/mc6809_core_impl.h:2750-2838 | interrupt entry, a handler that brings back what was not stacked, and RTI are one of the events `TransferIsCopy` allows: every register back, CC.E aside, and only cells the two have changed written |
| `Tfm.TransferIsCopy` | src/core/hd6309_ops.h:400-449 | however cut up by interrupts and budgets, TFM is a W-byte sequential copy: memory, registers, W = 0, Z = 1, and cycles 3 a byte plus 6 per fresh start |
| `Transfers.TransferByOpcode` | src/core/hd6309_ops.h:428-448 | for $38 to $3B: which addresses are copied to which, up, down or staying, and where the two registers, and all others, end |
| `Transfers.TransferOnto` | src/core/hd6309_ops.h:428-448 | with one register as both every byte is copied onto itself and the register moves by both steps |
| `Transfers.DownExample` | src/core/hd6309_ops.h:435 | two bytes of r0-,r1- spelled out |
| `Tfm.PlainTransferCycles` | src/core/hd6309_ops.h:408-449 | uninterrupted, in any split into budgets: 6 + 3W cycles and one per extra prefix |
| `Tfm.EmptyTransfer` | src/core/hd6309_ops.h:428-448 | W = 0 moves nothing and sets Z |
| `Tfm.DisjointCopy` | src/core/hd6309_ops.h:428-448 | when the ranges do not overlap every target byte is the original source byte |
| `Tfm.ExecuteTfm` | src/core/mc6809_core_impl.h:826-838 | prefix bytes and instruction, on the machine's registers and memory, refine the specified execution |
| `Tfm.HTfm` | src/core/hd6309_ops.h:408-449 | setup, resume and the trap on a bad register refine it |
| `Tfm.MoveByte` | src/core/hd6309_ops.h:428-448 | the four modes, one register as both included |
| `DiskCache.EachDirtySectorOnce` | src/supervisor/sv_disk.cpp:882-893 | the runs written are maximal, ascending, never adjacent, and every dirty sector is in exactly one |
| `DiskCache.FlushMakesEqual` | src/supervisor/sv_disk.cpp:865-900 | after a flush the data region equals the cache; header and trailing bytes are as before |
| `DiskCache.AfterRunsAt` | src/supervisor/sv_disk.cpp:840-863 | byte by byte, the file after a flush: what the card took comes from the cache, every other byte is as it was |
| `DiskCache.FlushTouchesDirtyOnly` | src/supervisor/sv_disk.cpp:865-900 | stalling or not, a flush leaves header, trailing bytes and clean sectors alone |
| `DiskCache.FlushKeepsIff` | src/supervisor/sv_disk.cpp:840-900 | the invariant survives a flush if and only if every dirty byte the card did not take was right in the file already |
| `DiskCache.AllTakenIff` | src/supervisor/sv_disk.cpp:840-863 | every run is written to its end if and only if none of the writes stalls |
| `DiskCache.SteadyFlush` | src/supervisor/sv_disk.cpp:865-900 | when none stalls, every dirty sector is in the file and nothing else has changed |
| `DiskCache.StalledRun` | src/supervisor/sv_disk.cpp:853-856 | when a write stalls some run is not written to its end |
| `DiskCache.StallLeavesBytes` | src/supervisor/sv_disk.cpp:853-856 | from where a run stops to its end the file keeps its bytes, all of dirty sectors |
| `DiskCache.StalledFlushLosesData` | src/supervisor/sv_disk.cpp:853-898 | a flush on a card that takes nothing leaves the file as it was and marks the differing sector clean |
| `DiskCache.Image.MarkDirty` | src/supervisor/sv_disk.cpp:52-58 | exactly the sectors of the range are marked |
| `DiskCache.Image.StoreSector` | src/supervisor/sv_disk.cpp:471-475 | cache bytes and bitmap change together: a clear bit still means cache and file agree |
| `DiskCache.Image.FlushRun` | src/supervisor/sv_disk.cpp:840-863 | writes the run in pieces, short writes included, up to the first that takes nothing |
| `DiskCache.Image.FlushRuns` | src/supervisor/sv_disk.cpp:880-893 | the coalescing loop writes exactly the maximal runs |
| `DiskCache.Image.Flush` | src/supervisor/sv_disk.cpp:865-900 | whatever the card takes, the file is the specified one and all dirty bits are clear, so that the invariant holds if and only if the data region is the cache; it does when no write stalls |
| `TrackFormat.OffsetInside` | src/supervisor/sv_disk.cpp:126-138 | a valid sector is aligned and inside the image |
| `TrackFormat.SectorsDisjoint` | src/supervisor/sv_disk.cpp:126-138 | distinct sectors never overlap, for every geometry |
| `TrackFormat.SectorOrder` | src/supervisor/sv_disk.cpp:126-138 | sectors lie in the image by number, then side, then track, from its first byte on |
| `TrackFormat.FormatRoundTrip` | src/supervisor/sv_disk.cpp:379-450 | the parser inverts the printer of format streams: sectors are stored exactly and in order, for any gaps and mark counts |
| `TrackFormat.FormatFillsTrack` | src/supervisor/sv_disk.cpp:379-450 | after a printed stream each valid sector's data is at its offset and nothing else in the cache changed |
| `TrackFormat.CacheAfterIsPlaceAll` | src/supervisor/sv_disk.cpp:421-435 | byte-by-byte operation and placing the parsed sectors give the same cache |
| `TrackFormat.Controller.StartWriteTrack` | src/supervisor/sv_disk.cpp:237-259 | the command resets the parser |
| `TrackFormat.Controller.ParseByte` | src/supervisor/sv_disk.cpp:379-436 | the state machine refines the parser; a completed sector goes to the cache |
| `TrackFormat.Controller.WriteTrackByte` | src/supervisor/sv_disk.cpp:379-450 | the same, ending after 6250 bytes |
| `TrackFormat.Controller.WriteData` | src/supervisor/sv_disk.cpp:453-482 | WRITE SECTOR: the last byte puts the buffer at the sector's offset, or reports it missing |
| `GimeTimer.LineConserves` | src/core/tcc1014.cpp:686-712 | a scanline advances the timer by exactly 456 half ticks; a new reload is seen at the next expiry, a zero stops it there |
| `GimeTimer.NoTimeLost` | src/core/tcc1014.cpp:686-712 | no half tick is lost or gained under any rewriting of the low reload byte |
| `GimeTimer.NoDrift` | src/core/tcc1014.cpp:77-81 | n lines after arming: floor(456n / (2(r + 1))) expiries and the remainder in timer_left_x2 |
| `GimeTimer.SlowTimer` | src/core/tcc1014.cpp:689-696 | line-rate mode: floor(n / (r + 1)) expiries |
| `GimeTimer.ZeroStops` | src/core/tcc1014.cpp:687-687 | a stopped timer stays stopped |
| `GimeTimer.RegisterWrites` | src/core/tcc1014.cpp:484-494 | $FF94 restarts the count at the twelve-bit reload plus one, $FF95 disturbs nothing, a change of source restarts |
| `GimeTimer.FastRate` | src/core/tcc1014.cpp:690-712 | after such a write the timer fires floor(228n / (reload + 1)) times in n scanlines |
| `GimeTimer.Gime.ArmTimer` | src/core/tcc1014.cpp:77-81 | counter and remainder from the registers |
| `GimeTimer.Gime.ExpireAll` | src/core/tcc1014.cpp:704-710 | the inner loop terminates and refines the specified expiries; blink toggles with each |
| `GimeTimer.Gime.TickScanline` | src/core/tcc1014.cpp:686-712 | refines the specified scanline |
| `GimeTimer.Gime.WriteMsb` | src/core/tcc1014.cpp:487-491 | arms at once |
| `GimeTimer.Gime.WriteLsb` | src/core/tcc1014.cpp:493-496 | only stores |
| `GimeTimer.Gime.WriteInit1` | src/core/tcc1014.cpp:456-467 | a change of source arms |
| `SamCounter.RowAddress` | src/core/sam6883.cpp:108-163 | row address after k lines for every mode and base, graphics or text |
| `SamCounter.GraphicsRows` | src/core/sam6883.cpp:36-120 | in numbers: bytes a row and lines a row is repeated, for each of the eight modes |
| `SamCounter.PlainLawIff` | src/core/machine.cpp:1492-1515 | one row per repeat holds exactly when the bytes fetched suit the mode: not for text in modes 1, 3 and 5 |
| `SamCounter.OneLine` | src/core/sam6883.cpp:125-163 | one line advances the row count by one tick, or two |
| `SamCounter.Sam.Fsync` | src/core/sam6883.cpp:108-113 | back to the base |
| `SamCounter.Sam.AddressAdd` | src/core/sam6883.cpp:117-133 | the divide logic refines the specification |
| `SamCounter.Sam.FetchBytes` | src/core/sam6883.cpp:139-153 | chunks up to each 16-byte boundary |
| `SamCounter.Sam.HsyncEdge` | src/core/sam6883.cpp:158-163 | add and clear on the falling edge |
| `SamCounter.Sam.ActiveLine` | src/core/machine.cpp:1492-1515 | the active part of a scanline |
| `Divide.DivdMeaning` | src/core/hd6309_ops.h:457-513 | V clear exactly when |quotient| <= 127, and then the law of division; overflow leaves the magnitude |
| `Divide.DivqMeaning` | src/core/hd6309_ops.h:516-568 | the same for 32 by 16 bits |
| `Divide.DivisionLaw` | src/core/hd6309_ops.h:457-568 | signs put back on the magnitudes' quotient and remainder: q * d + r = n, |r| < |d|, r with the sign of n |
| `Divide.DivideByZeroTraps` | src/core/hd6309_ops.h:462-468 | MD.D0 set, vector taken, operands kept |
| `Divide.HDivd` | src/core/hd6309_ops.h:457-513 | refines the specified instruction |
| `Divide.HDivq` | src/core/hd6309_ops.h:516-568 | refines the specified instruction |
| `Interrupts.CcRoundTrip` | src/core/mc6809_core_impl.h:1272-1273 | condition codes survive stacking |
| `Interrupts.PushedAt` | src/core/mc6809_core_impl.h:132-147 | the j-th byte pushed lies j below, for every S |
| `Interrupts.InterruptThenRti` | src/core/mc6809_core_impl.h:2750-2838 | NMI, IRQ, FIRQ short or full: RTI restores every stacked register and S, changing only CC.E |
| `Interrupts.SwiThenRti` | src/core/mc6809_core_impl.h:1320-1335 | the same for SWI |
| `Interrupts.Swi23ThenRti` | src/core/mc6809_core_impl.h:608-622 | the same for SWI2 and SWI3 |
| `Interrupts.TrapThenRti` | src/core/hd6309_ops.h:200-216 | the same for the trap; MD keeps the cause |
| `Interrupts.CwaiThenRti` | src/core/mc6809_core_impl.h:1291-1309 | CWAI stacks once; the interrupt that ends it stacks nothing more |
| `Interrupts.EntryWritesFrameOnly` | src/core/mc6809_core_impl.h:2750-2838 | entry changes no memory outside the 14, 12 or 3 bytes it stacks, and none after CWAI |
| `Interrupts.Core.CheckInterrupts` | src/core/mc6809_core_impl.h:2750-2838 | priority, masks and entry refine the specification |
| `Interrupts.Core.PushWhole` | src/core/mc6809_core_impl.h:45-52 | push order, W included in native mode |
| `Interrupts.Core.Rti` | src/core/mc6809_core_impl.h:1272-1289 | refines the specified RTI |
| `Interrupts.Core.Swi` | src/core/mc6809_core_impl.h:1320-1335 | refines the specified SWI |
| `Interrupts.Core.Swi23` | src/core/mc6809_core_impl.h:608-622 | SWI2 and SWI3 mask nothing |
| `Interrupts.Core.Trap` | src/core/hd6309_ops.h:200-216 | refines the specified trap |
| `Interrupts.Core.Cwai` | src/core/mc6809_core_impl.h:1291-1309 | refines the specified CWAI |
| `InterruptLaws.Priority` | src/core/mc6809_core_impl.h:2750-2838 | NMI when armed, then FIRQ, then IRQ, unless masked |
| `InterruptLaws.Entry` | src/core/mc6809_core_impl.h:2750-2838 | where each register lies on the stack, what E says, which masks are set, the vector and the cycles, for NMI, IRQ and both kinds of FIRQ |
| `InterruptLaws.EntryAfterCwai` | src/core/mc6809_core_impl.h:2750-2838 | after CWAI nothing more is stacked and entry takes 7 cycles |
| `InterruptLaws.Software` | src/core/mc6809_core_impl.h:1320-1335 | the same for SWI, which masks, and SWI2 and SWI3, which do not |
| `InterruptLaws.TrapEntry` | src/core/hd6309_ops.h:200-216 | the same for the trap |
| `InterruptLaws.Waiting` | src/core/mc6809_core_impl.h:1291-1309 | CWAI clears the condition codes its operand leaves out, stacks everything and waits |
| `InterruptLaws.CalmIff` | src/core/mc6809_core_impl.h:2987-3019 | the run loop stops to look exactly when the CPU is halted or waiting or an interrupt would be taken |
| `PngWriter.SizesExact` | src/net/png_writer.cpp:87-90 | the length written ahead of the image data is its length, and everything fits the buffer |
| `PngWriter.InflateBlocks` | src/net/png_writer.cpp:118-130 | the stored blocks decode to the data and decoding stops at the last: only it is final |
| `PngWriter.ZlibRoundTrip` | src/net/png_writer.cpp:111-131 | header, blocks and Adler-32 are accepted by a zlib decoder and give the data back |
| `PngWriter.ChunkRoundTrip` | src/net/png_writer.cpp:49-59 | length, type, data and CRC read back |
| `PngWriter.PixelRoundTrip` | src/net/png_writer.cpp:75-83 | RGB565 pixels are recovered from their three bytes |
| `PngWriter.ColoursScaled` | src/net/png_writer.cpp:75-83 | red, green and blue in this order, each scaled to 0 to 255 with an error below one |
| `PngWriter.RowsRoundTrip` | src/net/png_writer.cpp:70-85 | scanlines are recovered |
| `PngWriter.PngRoundTrip` | src/net/png_writer.cpp:61-143 | for every image the stream decodes to its size and pixels |
| `PngWriter.PngLayout` | src/net/png_writer.cpp:87-143 | signature, header fields and chunk names where a reader finds them |
| `PngWriter.AdlerHalves` | src/net/png_writer.cpp:34-41 | the Adler-32 of RFC 1950 in closed form |
| `PngWriter.EncodedDecodes` | src/net/png_writer.cpp:61-143 | what the encoder returns decodes to the rows of the buffer |
| `Checksums.CrcIsRemainder` | src/net/png_writer.cpp:22-30 | the shift-and-xor register, begun with ones, is the remainder of dividing the message times x^32 (plus the ones) by the CRC-32 polynomial |
| `Checksums.RemainderUnique` | src/net/png_writer.cpp:22-30 | no other polynomial of degree below 32 is such a remainder |
| `PngWriter.Crc32` | src/net/png_writer.cpp:22-30 | the bitwise loop computes the complement of that register |
| `PngWriter.Adler32` | src/net/png_writer.cpp:34-41 | reducing at every byte gives the two sums modulo 65521 |
| `PngWriter.PutChunk` | src/net/png_writer.cpp:49-59 | appends a chunk |
| `PngWriter.BuildRaw` | src/net/png_writer.cpp:64-85 | the filtered scanlines, any stride |
| `PngWriter.PutBlocks` | src/net/png_writer.cpp:118-130 | the block loop |
| `PngWriter.PutImageData` | src/net/png_writer.cpp:111-134 | the image data chunk assembled in place |
| `PngWriter.Encode` | src/net/png_writer.cpp:61-143 | nothing for empty images or lack of memory, else the specified stream |
| `BlockFile.BlockFile.EnsureOpen` | src/core/blockfile.cpp:29-41 | a reopened handle has an unknown position |
| `BlockFile.BlockFile.Position` | src/core/blockfile.cpp:47-53 | for every offset: afterwards the handle is there and usable in this direction, except at 0xFFFFFFFF with the position unknown and the direction unchanged, where it reports success and stays put; a change of direction always seeks |
| `BlockFile.BlockFile.Read` | src/core/blockfile.cpp:91-106 | the bytes of the file at the offset, whether or not the seek was skipped, short transfers included |
| `BlockFile.BlockFile.Write` | src/core/blockfile.cpp:108-126 | for every offset, past the end included: the bytes land there, seek skipped or not, and size stays the file length; with the seek missed they land where the handle was and the recorded position is wrong |
| `BlockFile.BlockFile.Flush` | src/core/blockfile.cpp:128-133 | keeps position and direction valid |
| `BlockFile.BlockFile.Tick` | src/core/blockfile.cpp:135-140 | closes exactly after the idle time, flushed |
| `LineMap.TallFrame` | src/hal/hal_video.cpp:409-423 | a frame taller than the viewport drops exactly the excess; a kept line goes to the row of its rank |
| `LineMap.RowsRise` | src/hal/hal_video.cpp:409-423 | rows of kept lines strictly increase |
| `LineMap.RowsFilled` | src/hal/hal_video.cpp:409-423 | every row is used |
| `LineMap.ShortFrame` | src/hal/hal_video.cpp:409-416 | a frame that fits is shown on consecutive rows, centred |
| `LineMap.Screen.CopyWords` | src/hal/hal_video.cpp:538-543 | word copy with the halves swapped |
| `LineMap.Screen.DoubleWords` | src/hal/hal_video.cpp:544-551 | pixel doubling by word arithmetic |
| `LineMap.Screen.BorderedWords` | src/hal/hal_video.cpp:552-561 | borders and picture by words |
| `LineMap.Screen.CopyBytes` | src/hal/hal_video.cpp:562-582 | the byte-at-a-time fallback |
| `LineMap.Screen.Render` | src/hal/hal_video.cpp:522-583 | all paths put every pixel where the byte form puts it |

## Left out

- IdleLoop.AcceptedLoopSettles: assumes two full passes, the second of which left X alone. The code does not wait for them: `OnePassLags`, `StaleBranch` and `SelfLoadDrifts` are calls in which it skips without.
- IdleLoop.SessionExact: what the machine does between two calls is a function of the CPU's state at the end of the first; the devices of each call are its own.
- IdleLoop.RunSkipExact: instructions the classifier never accepts, devices and interrupt service are an arbitrary function of the state, deterministic and always advancing the cycle counter; budgets are below 2^31 - 256. A turn with an interrupt to serve ends by executing an instruction; it is part of the service here, so a skip that this very instruction sets off is the same in both runs and not compared.
- GimeRender.Gime.RenderScanline: with artifacts off; palettes and fonts are arbitrary functions, so a font index past the end of the table is not an error here; the dirty-line signature, a hash, is not modelled; the 32-bit sum of base and offset does not wrap.
- Becker.Safety: each call is one atomic step of its core; inside a call a second flush request can be lost between reading the mark and clearing the request. The port is initialised and enabled. The methods that act on a waiting flush ask for its mark to be ahead or at most 2^31 bytes behind, modulo 2^32; otherwise the code itself moves the index back.
- AudioFeed.Safety: steps make at most one access to a shared variable, except that the consumer reads its two ring bytes in one step; memory order between cores is as the volatile accesses are written. The underrun, hold and overrun counters are not modelled.
- Keyboard.OrderKept: the PS/2 side, key maps and the injection calls that bypass the queue are not modelled.
- MemoryMap.Machine.Read: below $FF00 only; device reads above it, interrupt-latch timing and dirty flags are not modelled, and the cartridge bank register assumes no Becker port at its address.
- Tfm.TransferIsCopy: flat RAM; interrupt handlers bring back the registers that were not stacked, finish any transfer of their own, keep off the instruction and the source bytes, and what they write is compared nowhere; the instruction is not overwritten before the last byte.
- Interrupts.InterruptThenRti: flat RAM; the handler leaves the frame, MD and the stack pointer it was entered with alone. The V register and the interrupt lines' edge logic are not modelled.
- DiskCache.Image.Flush: the image was loaded completely and its geometry is known; the geometry detection, which subtracts the header of a VDK image twice, is not modelled, nor are failed loads.
- TrackFormat.FormatRoundTrip: no $F5 in identifiers, data or gaps, and mark counts that are at least 3 modulo 256, because the count is kept in a byte. Track and side come from the controller's registers, as in the code; NMI, HALT and INTRQ signals are not modelled.
- GimeTimer.Gime.TickScanline: interrupt flags raised on expiry are not modelled beyond the count and the blink toggle.
- PngWriter.PngRoundTrip: images whose data length fits the 32-bit length field; the inputs of the original are 32-bit sizes too.
- BlockFile.BlockFile.Write: a seek past the end changes nothing until something is written, what fills the gap is up to the file system, and a file ends at 2^32 - 1 bytes, as on FAT.
- LineMap.Screen.Render: viewports whose width is a multiple of four, as both of the program's are.
- Input, output and user interface: FabGL, I2S and DMA registers, SD card driver, NVS, WiFi, HTTP server, DriveWire client, on-screen menus, Python tools.
- The full opcode table and per-opcode cycle counts beyond the instructions named above.
- The virtual hard disk, serial and speech cartridges, and the analogue sound tables.
