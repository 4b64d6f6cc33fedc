# Reference workload: a verified model

This project models six parts of the reference workload repository and proves what they are for. To
check it, run `dafny verify dfyconfig.toml`.

- `emu/` — the emulator's system bus: a master clock with its timer interrupt, general DMA, HDMA, the
  APU catch-up, the CPU's own registers and the controller, and the frame loop over 262 scanlines. The
  CPU is any sequence of bus operations; the picture and sound chips are a log of what was sent to
  them and functions that answer from that log.
- `worker/` — the mock hypervisor worker: leases, slots, scheduled input, snapshots and restores.
  Snapshots are stored under a second lock, so other requests may run between reading and storing.
- `asm/` — the two-pass 65C816 assembler: sizing, encoding, symbols, the label guard and the image.
- `audio/` — the streaming resampler in exact arithmetic and the playback queue shared with the device.
- `record/` — interactive recording: an append-only log and an index that is replaced whole, with a
  crash possible between any two effects; replay on resume; the lint's counts.
- `featuremap/` and `newc/` — the cross-file validator and the cpio archive writer.

Code that changes state in place is modelled by classes and loops (`SysBus`, `Core`, `MockWorker`,
`Assembler`, `Resampler`, `AudioSink`, `Recorder`, `ByteVector`, the validator's passes). Each such
method is proved to take the state where a specification function takes it, and the results are
proved about those functions. The handlers of `SysBus` that have no loop follow their functions branch
for branch and are not listed below.

Some laws turned out to hold only under a condition; each is stated as an equivalence, and where the
condition fails a case is shown.

- A snapshot keeps the last pad as 16 bits while the live pad acts at 32: `Slots.RestoreContinuity`,
  `Slots.WidePadBreaksContinuity`.
- A dump written over a file the index already names, and a crash before the index is saved, leave a
  session that cannot be resumed with verification, and a crash inside that write one that cannot be
  resumed at all: `Fidelity.ResumeExactly`, `Fidelity.OverwritingRefused`, `Fidelity.EmptiedRefused`.
- Several operand forms are sized differently from how they are encoded: `Isa.SizeAgreement`,
  `Isa.UnsupportedForms`. The comment in `instruction_encoded_size` says emission makes the same
  choice; the code does not for those forms, and the label guard is what catches them. Of a program
  with distinct names, backward constants and labels after the origin, the passes agree exactly if
  every form is supported: `Agreement.TwoPassExactly`.
- The comment on `apu_catch_up` says the APU is never more than one scanline behind. At the end of a
  line without a port access it is within one exactly if the line ends no later past its end than it
  began past its start, which an idle CPU already breaks: `ApuLag.LineLag`, `ApuLag.IdleLineOutruns`.
  A DMA kick runs to its end between two catch-ups, and is within a scanline exactly if its channels
  and bytes number at most 169: `ApuLag.KickLag`, `ApuLag.LongKick`.
- The H-only timer is meant to interrupt on every line. It misses lines that are entered past their H
  position, or, with HTIME 338 and 339, left before it: `TimerIrq.HOnlyFiresEveryLine`,
  `TimerIrq.IdleMissesALine`.
- Save RAM above 32 KiB is not fully addressable: `Registers.SramReachedExactly`,
  `Registers.LargeNotReached`.
- A channel first enabled in mid-frame counts its staged line counter down in silence only if that is
  1 to $81; with any other value it sends a unit a line from the staged pointer before its first table
  header: `HdmaStaged.SilentWait`.
- `JSR (addr)` is assembled as `JSR (addr,X)`, `JSL (addr)` and `JML (addr)` as the direct long forms,
  and parentheses around the operand of a register or shift form are ignored: `Decode.EncodedReadsBack`.
- A path that is the trailer's, or holds a NUL, does not survive the archive: `Newc.RoundTrip`,
  `Newc.TrailerNameLost`.

## Model

| member | source | states |
|---|---|---|
| `Clock.PartitionInvariance` | crates/refwork-emu/src/bus.rs:250-270 | however a span of time is cut into increments, frame clock, total clock, IRQ flag and IRQ target end the same as after one lump advance |
| `Clock.AddMclkCompose` | crates/refwork-emu/src/bus.rs:250-270 | two consecutive advances show what their sum shows |
| `Timing.AccessCosts` | crates/refwork-emu/src/timing.rs:51-86 | 12 clocks exactly in $4000-$41FF of the system banks, 6 exactly in the register space around it, 8 elsewhere; the FastROM bit makes exactly the ROM of the upper banks cost 6 |
| `Dma.ExecuteDmaExact` | crates/refwork-emu/src/bus.rs:749-844 | a kick performs exactly the planned byte moves of its enabled channels in order up to the first fault; registers stand where the completed moves leave them; the clock shows one advance of 12 + 8 per channel + 8 per byte |
| `Dma.DmaLoopExact` | crates/refwork-emu/src/bus.rs:773-842 | from any byte on, the channel loop is the rest of its plan |
| `DmaResults.FaultFreeKick` | crates/refwork-emu/src/bus.rs:749-844 | without a fault every enabled channel ends with DAS = 0 and its A address moved by the transfer count (DAS = 0 meaning 65536), other channels untouched |
| `DmaResults.FaultedKick` | crates/refwork-emu/src/bus.rs:749-844 | every kick that starts clean and ends in a fault stopped at one byte of one channel: that byte's move faulted, A1T and DAS name it, the enabled channels before it are finished and later ones have not moved |
| `DmaResults.RegistersAfter` | crates/refwork-emu/src/bus.rs:749-844 | the registers of any channel after any number of completed moves of the kick |
| `DmaResults.KickDelivers` | crates/refwork-emu/src/bus.rs:653-844 | a fault-free kick whose DMAP and BBAD aim every byte at the picture or sound chip changes no memory and delivers, channel by channel and in order, the bytes the source held at the kick |
| `DmaResults.KickCopies` | crates/refwork-emu/src/bus.rs:653-844 | a kick aimed at the WRAM port whose sources lie outside the cells it will write cannot fault, copies them in order from WMADD on, wrapping at 128 KiB, and changes no other cell |
| `DmaResults.ApartInWram` | crates/refwork-emu/src/bus.rs:653-741 | the register comparison that keeps a work-RAM source outside the written cells |
| `DmaResults.CartridgeKickCopies` | crates/refwork-emu/src/bus.rs:653-844 | from the cartridge banks no comparison is needed: up to 128 KiB aimed at the WRAM port always arrive as they stand there |
| `Dma.AliasedModes` | crates/refwork-emu/src/dma.rs:156-181 | transfer modes 5, 6 and 7 plan the same general transfer as modes 1, 2 and 3 |
| `Registers.RegisterReadsBack` | crates/refwork-emu/src/dma.rs:87-145 | a written DMA register reads back its value and no write shows through another register |
| `SystemBus.SysBus.RunDmaChannel` | crates/refwork-emu/src/bus.rs:773-842 | the in-place byte loop of one channel, stopping at a fault, computes the specified transfer |
| `SystemBus.SysBus.RunDma` | crates/refwork-emu/src/bus.rs:749-844 | the in-place engine leaves clock, memory and registers as the specified kick does |
| `Delivery.KickByte` | crates/refwork-emu/src/bus.rs:749-844 | byte i of a kick toward the B bus takes the byte at A1T stepped i times by the DMAP bits 4-3, and writes it to BBAD plus an offset given by mode and i alone: 0 in modes 0, 2 and 6, i mod 2 in modes 1 and 5, i / 2 mod 2 in modes 3 and 7, i mod 4 in mode 4 |
| `Delivery.DeliveredByte` | crates/refwork-emu/src/bus.rs:653-844 | over a fault-free kick at the picture or sound chip, every byte of the source arrives at the register that arithmetic gives it |
| `Delivery.VramUpload` | crates/refwork-emu/src/dma.rs:167-179 | a mode-1 transfer aimed at $18 delivers the even bytes to $2118 and the odd ones to $2119 |
| `ProgramDma.ProgramUpload` | crates/refwork-emu/src/bus.rs:749-844 | the same law for the program's one write to $420B: every byte of the named channels arrives at its register, memory and HDMA stay as they were, and each channel ends with DAS 0 and its address past the bytes moved |
| `ProgramDma.ProgramKick` | crates/refwork-emu/src/bus.rs:1291-1300 | the write that kicks is the kick on the bus as it stands, after the access time of the write, and changes nothing else |
| `Delivery.FetchedByte` | crates/refwork-emu/src/bus.rs:749-844 | byte i of a kick from the B bus reads that register and is stored at the stepped A address |
| `Delivery.UnitByte` | crates/refwork-emu/src/bus.rs:568-592 | the same register law for the bytes of an HDMA unit, in direct and indirect mode |
| `HdmaTrace.HdmaRefinesTable` | crates/refwork-emu/src/bus.rs:477-612 | a channel enabled at frame start sends, over any run of lines, $420C writes and other activity, exactly the first n lines of its table, n being the lines that serviced it; which lines they were does not matter |
| `HdmaTrace.HdmaRefinesTableOffWramPort` | crates/refwork-emu/src/bus.rs:477-612 | the same with a guard a caller can check instead of a calm bus: no enabled channel aims at the WRAM port when a line is serviced, and activity between lines keeps off the table, the channel and the mask |
| `HdmaTrace.LinesRefineTable` | crates/refwork-emu/src/bus.rs:477-612 | with no channel on the WRAM port and only lines and $420C writes in between, nothing is asked of the table or the run: a fault-free frame sends the table as it stood at frame start |
| `HdmaFrame.FrameRefinesTable` | crates/refwork-emu/src/core_impl.rs:155-257 | over a fault-free frame of the scheduler, with any program that leaves the channel's registers alone and does not kick it, the writes sent are the first n lines of the table, n being the visible lines with its bit set |
| `HdmaFrame.RomTableSent` | crates/refwork-emu/src/core_impl.rs:155-257 | with table and data in ROM nothing more is asked: the table is sent whatever the program, general DMA and the other channels do to memory |
| `HdmaTable.LineFollowsTable` | crates/refwork-emu/src/bus.rs:556-612 | one serviced line of the raw-counter machine is one line of the table's meaning, in direct and indirect mode with 16-bit pointer wrap |
| `HdmaTable.EndedForever` | crates/refwork-emu/src/bus.rs:502-519 | a terminated table sends nothing and stays where it is |
| `HdmaTrace.EndedStaysSilent` | crates/refwork-emu/src/bus.rs:1316-1332 | under any lines, faults, $420C writes and other activity that leaves its HDMA state and output alone, a channel in the ended mask is never active and transfers nothing before the next frame start |
| `HdmaTrace.LineOnBus` | crates/refwork-emu/src/bus.rs:556-612 | one scanline of all eight channels, seen from one of them |
| `HdmaTrace.RunFollowsTable` | crates/refwork-emu/src/bus.rs:477-612 | the table is followed from any line of it, not only from the start |
| `HdmaStaged.StagedChannelRuns` | crates/refwork-emu/src/bus.rs:1316-1332 | a channel absent from the mask at frame start and not ended stays silent until a $420C write names it, and from there on sends, over any run of lines, mask writes and other activity, the first n lines its staged registers stand for, n being the lines that serviced it |
| `HdmaStaged.LineFollowsStaged` | crates/refwork-emu/src/bus.rs:556-612 | one serviced line of the raw-counter machine is one line of the staged meaning: the staged NTRL counts down to its first header, then the table at the staged A2A follows |
| `HdmaStaged.SilentWait` | crates/refwork-emu/src/bus.rs:594-611 | nothing is sent before that header if and only if the staged NTRL is 1 to $81 |
| `HdmaStaged.PlainStaging` | crates/refwork-emu/src/bus.rs:1316-1332 | with NTRL 1 to $80 line l sends nothing below NTRL and table line l - NTRL from there on |
| `HdmaStaged.ResumesWhereItWas` | crates/refwork-emu/src/bus.rs:1316-1332 | clearing a channel and setting it again leaves its registers, its activity and a transfer that is due as they were |
| `HdmaStaged.ClearedIsPaused` | crates/refwork-emu/src/bus.rs:556-566 | a line leaves a cleared channel as it was and sends nothing of it |
| `Hdma.FaultSticks` | crates/refwork-emu/src/bus.rs:564-566 | a recorded fault ends the line's HDMA |
| `SystemBus.SysBus.StartHdma` | crates/refwork-emu/src/bus.rs:477-496 | the frame-start loop over the eight channels |
| `SystemBus.SysBus.SendUnit` | crates/refwork-emu/src/bus.rs:568-592 | the in-place loop over one transfer unit, stopping at a fault |
| `SystemBus.SysBus.RunHdma` | crates/refwork-emu/src/bus.rs:556-612 | the per-line loop over channels and bytes computes the specified line |
| `SystemBus.SysBus.SetHdmaen` | crates/refwork-emu/src/bus.rs:1316-1332 | a $420C write activates the newly set channels that have not ended, and nothing else |
| `Registers.SramReachedExactly` | crates/refwork-emu/src/cart.rs:78-122 | every byte of the save RAM has an address if and only if it is at most 32 KiB |
| `Registers.LargeNotReached` | crates/refwork-emu/src/cart.rs:96-99 | the concrete offset that a larger save RAM cannot reach |
| `Memory.BWriteKeepsABus` | crates/refwork-emu/src/bus.rs:653-680 | a B-bus write to anything but the WRAM port leaves every A-bus byte unchanged |
| `SystemBus.SysBus.CpuRead` | crates/refwork-emu/src/bus.rs:848-1112 | a clocked CPU read takes the whole bus state where the specification does |
| `SystemBus.SysBus.CpuWrite` | crates/refwork-emu/src/bus.rs:1114-1390 | a clocked CPU write, registers included |
| `CpuMemory.CpuReadsBack` | crates/refwork-emu/src/bus.rs:848-1137 | a byte written to work RAM reads back at every address of its cell, mirrors included, and no other cell changes |
| `CpuMemory.WramMirrors` | crates/refwork-emu/src/bus.rs:855-877 | which addresses are work RAM: banks $7E-$7F in order and the first 8 KiB in every system bank, and no other |
| `CpuMemory.SramReadsBack` | crates/refwork-emu/src/bus.rs:1073-1112 | the same for the save RAM |
| `CpuMemory.RomPlaced` | crates/refwork-emu/src/cart.rs:78-122 | each bank shows the next 32 KiB of the ROM in its upper half, again from bank $80 on and again past its end |
| `CpuMemory.RomShown` | crates/refwork-emu/src/bus.rs:1061-1112 | in the upper half of every bank but the two of work RAM the program reads the ROM |
| `CpuMemory.LowHalfAnswers` | crates/refwork-emu/src/cart.rs:78-101 | below $8000 only the save RAM windows answer, and only with a save RAM there |
| `CpuMemory.OpenBus` | crates/refwork-emu/src/bus.rs:848-1112 | whatever a read answers is what the next unmapped read repeats |
| `CpuMemory.UnmappedRepeats` | crates/refwork-emu/src/bus.rs:917-919 | the unmapped and write-only addresses answer the last value and change nothing |
| `CpuMemory.UnmappedFaults` | crates/refwork-emu/src/bus.rs:1114-1390 | every write outside the listed addresses is a fault that names address and value, and changes no memory |
| `CpuMemory.WritableKeepsFault` | crates/refwork-emu/src/bus.rs:1114-1390 | a write to a listed address raises no fault of its own, unless it kicks DMA or a device objects |
| `CpuMemory.PortRoundTrip` | crates/refwork-emu/src/bus.rs:1195-1214 | a string of up to 128 KiB written through the WRAM port comes out again when its address is set back |
| `CpuMemory.PortStores` | crates/refwork-emu/src/bus.rs:1195-1200 | it lies in the cells from the port address on, around the end of work RAM, and nowhere else |
| `CpuMemory.PortAddressWritten` | crates/refwork-emu/src/bus.rs:1202-1215 | $2181-$2183 each replace one byte of the port address, the last a single bit |
| `CpuPorts.KickGuarded` | crates/refwork-emu/src/bus.rs:1291-1300 | a $420B write with a channel that is enabled for HDMA is refused with a fault naming exactly those channels; otherwise the channels whose bits are set run |
| `CpuPorts.MasksWritten` | crates/refwork-emu/src/bus.rs:1316-1337 | $420C takes the set bits of the value as the new mask; $420D takes bit 0 as the ROM speed |
| `CpuPorts.PositionWritten` | crates/refwork-emu/src/bus.rs:1269-1289 | writing the halves of an H or V position in either order leaves the nine-bit number they spell |
| `CpuPorts.TimerFlagExact` | crates/refwork-emu/src/bus.rs:952-962 | after any accesses without a $4211 read the timer flag is up exactly if it was up or a target has been passed since, and the next $4211 read shows that and leaves it down |
| `CpuPorts.NmiFlagShown` | crates/refwork-emu/src/bus.rs:939-951 | what $4210 shows: the flag, chip version 2, three bits of open bus |
| `CpuPorts.AccessTime` | crates/refwork-emu/src/bus.rs:849-850 | every access but a kick takes exactly the time of its address, an internal cycle six clocks |
| `IoPorts.ProductShown` | crates/refwork-emu/src/bus.rs:1236-1247 | two factors written, with any other accesses in between and after, leave their product to read at $4216-$4217 |
| `IoPorts.QuotientShown` | crates/refwork-emu/src/bus.rs:1249-1267 | a dividend and a divisor written likewise leave quotient and remainder to read, q d + r = n with r < d, and for a zero divisor the largest word and the dividend |
| `IoPorts.StatusShown` | crates/refwork-emu/src/bus.rs:964-987 | what $4212 shows: vertical blank, horizontal blank from dot 274 on, the busy bit, open bus in between |
| `IoPorts.FixedPortsShown` | crates/refwork-emu/src/bus.rs:930-937 | the output port reads back what was written, the second port and the other controllers are empty |
| `IoPorts.StrobedReads` | crates/refwork-emu/src/joypad.rs:86-135 | strobing the controller and reading it gives the twelve buttons in the console's order, one per read, then four zeros and ones for ever |
| `IoPorts.HeldStrobe` | crates/refwork-emu/src/joypad.rs:110-115 | while the strobe is held every read shows the first button and moves nothing |
| `IoPorts.SerialShown` | crates/refwork-emu/src/bus.rs:921-928 | $4016 shows one serial bit below six bits of open bus and moves on; a write to it is the strobe |
| `IoPorts.NativeWordMeans` | crates/refwork-emu/src/joypad.rs:60-95 | which bit of the console's word each bit of the platform's pad word becomes |
| `IoPorts.StaleForThreeLines` | crates/refwork-emu/src/bus.rs:430-461 | when vertical blank begins with automatic reading enabled, $4218-$4219 show the word latched before for three lines and this frame's buttons from the fourth on |
| `IoPorts.JoyShown` | crates/refwork-emu/src/bus.rs:1019-1043 | the two reads at $4218-$4219 are the word in view |
| `IoPorts.FrameReadsPad` | crates/refwork-emu/src/core_impl.rs:155-257 | a fault-free frame whose program leaves the controller and $4200 alone ends with the buttons given for it latched if automatic reading is enabled, and otherwise with the word it had |
| `CpuMemory.DmaRegisterReadsBack` | crates/refwork-emu/src/bus.rs:1340-1344 | a DMA register written by the program reads back at its address, and no other register of any channel changes |
| `CpuMemory.PictureRead` | crates/refwork-emu/src/bus.rs:881-893 | the program reads the picture unit as DMA does, $2137 first latching the beam position |
| `CpuMemory.ABusMeans` | crates/refwork-emu/src/bus.rs:686-741 | the A side of DMA: work and save RAM as the program sees them, a register space that takes nothing and answers open bus, and faults everywhere else |
| `CpuMemory.DevicesRead` | crates/refwork-emu/src/bus.rs:618-651 | what the device registers answer DMA and leave in the event log; every other register answers open bus |
| `CpuMemory.DevicesWritten` | crates/refwork-emu/src/bus.rs:653-680 | what the device registers do with a byte; every other register takes none |
| `CpuMemory.RegistersShared` | crates/refwork-emu/src/bus.rs:1134-1214 | a program's write to the picture registers or the WRAM port does what the DMA write does |
| `ApuPorts.PortWriteOrder` | crates/refwork-emu/src/bus.rs:1147-1192 | the APU catches up before a byte reaches a sound port, or after it when the byte follows a transfer strobe |
| `ApuPorts.CatchUpFaults` | crates/refwork-emu/src/bus.rs:357-384 | catching up faults exactly if the sound CPU halts on the way and no fault was recorded before |
| `ApuPorts.PortReadOrder` | crates/refwork-emu/src/bus.rs:895-907 | a read of a sound port first lets the APU catch up, and answers what the port then holds |
| `ApuPorts.PortsRepeat` | crates/refwork-emu/src/bus.rs:895-907 | the four sound ports repeat every four addresses from $2140 to $217F |
| `ApuPorts.KickSeen` | crates/refwork-emu/src/bus.rs:394-412 | a waiting kick is not lost: the boot program takes one step with it before another value replaces it, before the port is read, and after a byte for another port |
| `ApuPorts.KickWaits` | crates/refwork-emu/src/bus.rs:386-388 | a kick written to port 0 waits exactly if the boot program is polling for it |
| `BusTime.StepTime` | crates/refwork-emu/src/bus.rs:847-1394 | every bus operation, a DMA kick or a timer write included, moves frame and total clock by the same positive amount |
| `Frame.FrameTimeConserved` | crates/refwork-emu/src/core_impl.rs:155-257 | after k fault-free frames the frame clock is past a whole frame and the total clock is that plus the k - 1 frames subtracted, overruns included |
| `Frame.FaultedForever` | crates/refwork-emu/src/core_impl.rs:155-162 | from the first fault on, picture, frame counter and everything else never change |
| `Frame.FaultLatches` | crates/refwork-emu/src/core_impl.rs:247-256 | a faulting frame commits neither picture nor frame count |
| `Schedule.FrameSchedule` | crates/refwork-emu/src/core_impl.rs:183-245 | the schedule of a fault-free frame, whatever CPU, DMA and HDMA do: begun once, lines 0 to 261 set in order, lines 1 up to vertical blank drawn once each after they were set, and vertical blank begun once, on line 225 or 240 |
| `Schedule.VblankOnce` | crates/refwork-emu/src/bus.rs:430-474 | one edge a frame: a program that leaves $4210, $4200 and the interrupt alone ends every fault-free frame with the flag up, and an interrupt pending exactly if one was or the enable bit is set |
| `Schedule.LineFlag` | crates/refwork-emu/src/bus.rs:430-474 | line 0 lowers the vertical-blank flag, the blanking line alone raises it |
| `ApuSync.StepInStep` | crates/refwork-emu/src/bus.rs:376-425 | no bus operation lets the APU run ahead of the clock or lose a cycle, and after a port access it has caught up |
| `ApuSync.LineCatchesUp` | crates/refwork-emu/src/core_impl.rs:225-229 | at every fault-free line end the APU has received exactly the master clock |
| `ApuSync.FrameCatchesUp` | crates/refwork-emu/src/core_impl.rs:155-257 | over one frame the cycle deltas sum to the clock |
| `ApuSync.RunCatchesUp` | crates/refwork-emu/src/core_impl.rs:155-257 | over any number of fault-free frames the cycle deltas telescope to the total clock, until it wraps |
| `ApuLag.StepLag` | crates/refwork-emu/src/bus.rs:376-425 | before the clock wraps, a port access clears the lag and any other operation adds exactly its own time to it |
| `ApuLag.LineLag` | crates/refwork-emu/src/core_impl.rs:216-229 | at a line's end the APU is behind by exactly the time since the line's last port access, or since its start; never by more than the line took, and without a port access within one scanline if and only if the line ends no later past its end than it began past its start |
| `ApuLag.BriefLineLag` | crates/refwork-emu/src/core_impl.rs:216-229 | on a line without a kick whose instructions make at most n bus operations, the lag is less than a scanline and 12 n clocks |
| `ApuLag.IdleLineOutruns` | crates/refwork-emu/src/bus.rs:414-425 | the concrete line without any DMA: from clock 0 an idle CPU leaves the APU 1368 clocks behind, more than a scanline |
| `ApuLag.KickLag` | crates/refwork-emu/src/bus.rs:749-844 | a fault-free kick moves the clock by 12 + 8 per channel + 8 per byte at once and the APU not at all; that is within a scanline if and only if channels and bytes number at most 169, and the lag after it if and only if cost and earlier lag together are |
| `ApuLag.LongKick` | crates/refwork-emu/src/bus.rs:414-425 | a concrete bus, caught up, whose fault-free kick leaves the APU more than 384 scanlines behind, against the comment there |
| `TimerIrq.OneShotFiresOnce` | crates/refwork-emu/src/bus.rs:250-355 | V and H+V mode: in a frame whose own steps leave the timer registers alone, the timer fires once if and only if its position lies after the carried-in clock and is reached by the end |
| `TimerIrq.OneShotPosition` | crates/refwork-emu/src/bus.rs:312-355 | where that position is: HTIME * 4 + 14 clocks into line VTIME, or without H ten clocks into it |
| `TimerIrq.ArmedThenIdle` | crates/refwork-emu/src/bus.rs:250-355 | a program that arms the timer in one frame and then idles is interrupted once in the next, at its position |
| `TimerIrq.HOnlyFiresEveryLine` | crates/refwork-emu/src/bus.rs:275-355 | H-only mode with HTIME up to 339: in such a frame the timer fires exactly once on each of the 262 lines if and only if every line is left at or past its H position and every line but the last is entered before it |
| `TimerIrq.EntryDecides` | crates/refwork-emu/src/bus.rs:275-355 | with HTIME up to 337 a line is always left past its position, so only its entry decides |
| `TimerIrq.BriefProgramsFire` | crates/refwork-emu/src/bus.rs:275-355 | a program without kicks whose instructions are shorter than the way to the H position is interrupted on every line |
| `TimerIrq.HOnlySilent` | crates/refwork-emu/src/bus.rs:297-355 | from HTIME 340 on there is no position and the timer never fires |
| `TimerIrq.IdleMissesALine` | crates/refwork-emu/src/bus.rs:275-355 | the concrete frame that misses a line: HTIME 339 and an idle CPU |
| `TimerIrq.MidLineWrite` | crates/refwork-emu/src/bus.rs:297-355 | H-only mode, a timer write in the middle of a line: in the rest of the line the timer fires exactly once if the line's position is reached after the write, and otherwise not at all |
| `TimerIrq.HOnlyArming` | crates/refwork-emu/src/bus.rs:331-341 | any H-only timer write arms this line's position if it is still ahead, and otherwise the next line's |
| `TimerIrq.OffArmsNothing` | crates/refwork-emu/src/bus.rs:308-311 | with both enable bits clear nothing is armed |
| `CoreLoop.Core.RunFrame` | crates/refwork-emu/src/core_impl.rs:155-257 | the frame loop over 262 lines, with its early exits, takes the core where the specified frame does |
| `CoreLoop.Core.RunCpuUntil` | crates/refwork-emu/src/bus.rs:1416-1428 | the CPU loop stops at the target, at a fault, or with a fault when the CPU has stopped |
| `CoreLoop.Core.RunScanline` | crates/refwork-emu/src/core_impl.rs:183-245 | one scanline: hooks, HDMA, CPU, APU catch-up and rendering in that order |
| `Slots.RestoreContinuity` | crates/refwork-dh-client/src/mock.rs:262-403 | a restored snapshot answers every future sequence of requests as the slot would have, if and only if the last due pad word is not one whose low 16 bits alone are zero |
| `Slots.Bisimilar` | crates/refwork-dh-client/src/mock.rs:308-403 | the bisimulation: slots with equal guests and equal events to come answer every sequence of requests alike |
| `Slots.WidePadBreaksContinuity` | crates/refwork-dh-client/src/mock.rs:369-381 | the concrete pad word that tells a slot from its restored snapshot |
| `Slots.NarrowPadsSettle` | crates/refwork-dh-client/src/mock.rs:369-381 | with 16-bit pad words continuity always holds |
| `Worker.SnapshotContinuity` | crates/refwork-dh-client/src/mock.rs:262-507 | snapshot, anything at all, restore: the new lease answers as the slot would have at the snapshot, under the same exact condition |
| `Worker.StoreOnlyGrows` | crates/refwork-dh-client/src/mock.rs:494-505 | no run of requests changes or drops a stored snapshot: re-inserting a reference stores the same guest |
| `Worker.ActsKeep` | crates/refwork-dh-client/src/mock.rs:262-534 | every reachable worker: slot ids below the counter, tokens from ids, references naming their guest, guests consistent |
| `Worker.SlotIsolated` | crates/refwork-dh-client/src/mock.rs:239-258 | a slot that no request addresses is unchanged by any run |
| `Worker.DestroyedForGood` | crates/refwork-dh-client/src/mock.rs:509-534 | a destroyed lease is refused for ever after |
| `Worker.LeaseUnforgeable` | crates/refwork-dh-client/src/mock.rs:239-258 | only the token handed out for a live slot opens it |
| `Worker.DoubleRun` | crates/refwork-dh-client/src/mock.rs:262-306 | two restores of one reference, with anything between, cannot be told apart |
| `Worker.CorruptRestoreShows` | crates/refwork-dh-client/src/mock.rs:269-276 | the perturbing mode changes the state hash of every mid-run restore and never of the READY root |
| `Worker.RefBringsGuestBack` | crates/refwork-dh-client/src/mock.rs:262-306 | a stored reference restores the very guest it was made of |
| `Guest.StateHashFaithful` | crates/refwork-dh-client/src/mock.rs:98-107 | on reachable guests equal state hashes, or equal references, mean equal guests, although the running flag is not hashed |
| `Guest.RunsStayConsistent` | crates/refwork-dh-client/src/mock.rs:363-368 | running means frames were run, and the two frame counters agree |
| `Guest.RunsAdd` | crates/refwork-dh-client/src/mock.rs:363-390 | how a frame budget is split over run requests does not matter |
| `Guest.RunsKeepRoom` | crates/refwork-dh-client/src/mock.rs:382-388 | the room has changed exactly when enough non-zero pads were applied |
| `Guest.LivePadIsLatest` | crates/refwork-dh-client/src/mock.rs:372-379 | the live pad is the word of the last event due, and there is none exactly when nothing is due |
| `Guest.MetaReads` | crates/refwork-dh-client/src/mock.rs:115-128 | a reader of the meta page finds version, status, frame and last pad at their offsets, and zeros elsewhere |
| `Reads.ReadAnswered` | crates/refwork-dh-client/src/mock.rs:405-432 | a read request is answered with one chunk per range, each of the length and the bytes its range stands for, exactly if every range is of a known region, layout version 1 and inside the region; otherwise the first range that is not says why; nothing changes |
| `Reads.RangesRead` | crates/refwork-dh-client/src/mock.rs:178-206 | the same for any list of ranges: a wram byte is the room byte at the room offset and 0 elsewhere, a meta byte is the page's, a framebuffer byte has each bit of room times 16 flipped by the frame number |
| `Reads.AdjoiningRanges` | crates/refwork-dh-client/src/mock.rs:178-206 | two adjoining ranges are read exactly if their union is, and their chunks put together are its chunk |
| `Reads.CaptureAnswered` | crates/refwork-dh-client/src/mock.rs:208-237 | a capture is the bytes of its ranges one after the other, each at the sum of the lengths before it, and the pixels exactly if they were asked for; it is refused as a read would be |
| `Reads.FramebufferAnswered` | crates/refwork-dh-client/src/mock.rs:434-450 | the frame request answers the frame number and a uniform picture |
| `Serving.RunAnswered` | crates/refwork-dh-client/src/mock.rs:347-403 | a run of n frames leaves the guest its n scheduled pad words stand for, answers 1000 times its frame as instruction count, its hash, n and the capture, and keeps the frames when the capture is refused |
| `Serving.RunMeans` | crates/refwork-dh-client/src/mock.rs:363-390 | each frame runs with the latest word due or the remembered one; the pad count grows by exactly the frames with a non-zero word, the room turns when the count reaches its threshold, the last word is remembered as 16 bits |
| `Serving.PadsExist` | crates/refwork-dh-client/src/mock.rs:372-379 | every run has the words the law on runs asks for |
| `Serving.InjectAnswered` | crates/refwork-dh-client/src/mock.rs:308-345 | events are scheduled up to the first that is no pad word for a frame to come, the latest for a frame winning; the answer counts them or says why that one was refused |
| `Serving.TakeAnswered` | crates/refwork-dh-client/src/mock.rs:452-507 | a snapshot is refused exactly if an event is queued or the capture is; otherwise it answers reference, frame, hash and capture and keeps a copy of the guest |
| `Serving.CommitStores` | crates/refwork-dh-client/src/mock.rs:494-505 | the oldest snapshot under way is the one stored next, under its reference, and no other entry changes |
| `Serving.RestoreAnswered` | crates/refwork-dh-client/src/mock.rs:262-306 | a restore is answered exactly for the READY root and the stored references, with a slot number never used before and nothing scheduled, and leaves every other lease as it was |
| `Serving.LeasesChecked` | crates/refwork-dh-client/src/mock.rs:239-258 | a lease is refused exactly if it is missing, names no slot or carries another token, and a refusal changes nothing |
| `Worker.ActsInOrder` | crates/refwork-dh-client/src/mock.rs:239-258 | requests and commits happen one after the other in the order given |
| `Mock.MockWorker.RestoreSnapshot` | crates/refwork-dh-client/src/mock.rs:262-306 | the handler against the specification, keeping the worker invariant |
| `Mock.MockWorker.InjectInputs` | crates/refwork-dh-client/src/mock.rs:308-345 | events before a refused one stay scheduled |
| `Mock.MockWorker.Run` | crates/refwork-dh-client/src/mock.rs:347-403 | the per-frame loop; a refused capture comes after the frames have run |
| `Mock.MockWorker.TakeSnapshot` | crates/refwork-dh-client/src/mock.rs:452-507 | refused while events are queued; otherwise read, then store |
| `Mock.MockWorker.ReadGuestMemory` | crates/refwork-dh-client/src/mock.rs:405-432 | region reads in order, stopping at the first refused one |
| `Mock.MockWorker.DestroyVm` | crates/refwork-dh-client/src/mock.rs:509-534 | a stale lease leaves the slot in place |
| `Agreement.MeetsExactly` | xtask/src/asm.rs:105-274 | of any program that assembles, pass 2 is at every line where pass 1 was if and only if every line takes the same space in both passes, up to the 32-bit wrap |
| `Agreement.TwoPassExactly` | xtask/src/asm.rs:105-274 | with distinct names, backward constants and labels after the origin, that is so if and only if every instruction is of a supported form |
| `Agreement.TwoPassAgreement` | xtask/src/asm.rs:105-274 | in such a program of supported forms pass 2 is at every line it reaches where pass 1 was, and the guard never fires |
| `Isa.SizeAgreement` | xtask/src/asm.rs:902-1995 | for every mnemonic and addressing form, the sized length is the emitted length if and only if a condition on the form and the two values holds |
| `Isa.SupportedExactly` | xtask/src/asm.rs:902-1059 | of operands that keep the value they were sized with, or were not yet known, exactly the supported forms meet that condition; only forms whose length depends on the value ask anything of it |
| `Isa.UnsupportedForms` | xtask/src/asm.rs:902-1059 | PEA, JMP [abs], JMP with a long literal and the lower-case accumulator are sized wrong whatever their operand |
| `Isa.EmittedAsFetched` | xtask/src/asm.rs:1098-1995 | every instruction is emitted with exactly the bytes the processor fetches for its opcode at the current widths |
| `Decode.EncodedReadsBack` | xtask/src/asm.rs:1098-1995 | a decoder written from the processor's side reads every encodable instruction back from its bytes: the mnemonic, the addressing mode the operand form and value call for, and the operand modulo its width; branches and BRL give exactly their target |
| `Decode.EncodesExactly` | xtask/src/asm.rs:1098-1995 | an instruction is encoded if and only if its operands evaluate, its mnemonic has the mode, and a branch reaches its target |
| `Agreement.InstructionDrift` | xtask/src/asm.rs:251-271 | pass 2 leaves an instruction where pass 1 did exactly when the sizes agree |
| `Agreement.PassesInPlace` | xtask/src/asm.rs:212-273 | line agreement alone keeps the two passes at the same address |
| `Agreement.GuardSound` | xtask/src/asm.rs:225-243 | a program that assembles has every label at the address pass 2 emits it, whatever the sizes |
| `Agreement.GuardSilent` | xtask/src/asm.rs:225-243 | agreeing lines and kept labels never trip the guard |
| `Agreement.ConstantsStable` | xtask/src/asm.rs:174-194 | with backward constants the second evaluation changes nothing |
| `Agreement.WellFormedAgrees` | xtask/src/asm.rs:105-274 | with distinct names, backward constants and labels after the origin, the lines agree one by one exactly if their forms are supported, and labels end with the values pass 1 gave them |
| `Expression.EvalMonotone` | xtask/src/asm.rs:506-527 | what evaluates keeps its value as the symbol table grows |
| `Expression.OperatorsMean` | xtask/src/asm.rs:507-522 | sums, differences, products and shifts are those of the integers, a shift needing a count of 0 to 63 |
| `Expression.LogicMeans` | xtask/src/asm.rs:517-518 | the logical operators work bit by bit on two's complement numbers |
| `Expression.BytesMean` | xtask/src/asm.rs:523-525 | the byte operators take a value apart, low byte first |
| `ImageLayout.ImagePlacement` | xtask/src/asm.rs:196-274 | every emitted byte is at its address less the base, nothing is dropped or overwritten, every other position is zero, and the length is last address less base |
| `ImageLayout.SizeOfImage` | xtask/src/asm.rs:196-211 | with ascending origins and a byte emitted, the 64 KiB wrap cases never apply |
| `ImageLayout.DataInImage` | xtask/src/asm.rs:261-269 | a data line lies between the base and the end of the image |
| `ImageMeaning.ImageRuns` | xtask/src/asm.rs:213-274 | at the address of every instruction of an assembled program the processor fetches that instruction from the image, with the value its operand has in the final symbol table |
| `ImageMeaning.BranchLands` | xtask/src/asm.rs:1145-1163 | a branch to a label goes to the address at which the labelled line lies in the image |
| `ImageMeaning.DataReads` | xtask/src/asm.rs:421-459 | byte and word data read back from the image as their values modulo 256 and 65536 |
| `Assemble.EmptySource` | xtask/src/asm.rs:196-210 | a source without bytes assembles to 64 KiB of zeros |
| `Assemble.StoreSplices` | xtask/src/asm.rs:261-268 | bytes that fit are spliced in place; of others only the part inside the buffer is stored |
| `AssemblerObject.Assembler.AssembleTwoPass` | xtask/src/asm.rs:105-274 | the two passes with the constant re-evaluation between them, on the object's own symbol table |
| `AssemblerObject.Assembler.SizeLines` | xtask/src/asm.rs:106-166 | the sizing loop and the symbols it leaves |
| `AssemblerObject.Assembler.EmitLines` | xtask/src/asm.rs:213-274 | the emission loop on an array buffer, guard included |
| `Resample.StreamResampled` | crates/ramdiff/src/audio.rs:559-598 | however a stream of N pairs is chunked, exactly ceil((N - 1) / r) pairs come out, the k-th between inputs floor(k r) and floor(k r) + 1, with the final phase and anchor |
| `Resample.PushAppends` | crates/ramdiff/src/audio.rs:559-598 | pushing a then b is pushing a + b, from any state |
| `Resample.ChunksDoNotMatter` | crates/ramdiff/src/audio.rs:559-598 | any chunking of a stream gives the same outputs and the same state |
| `Resample.LerpBetween` | crates/ramdiff/src/audio.rs:601-604 | an interpolated sample lies between its neighbours, so the clamp never acts |
| `Accounts.InterpMeans` | crates/ramdiff/src/audio.rs:559-606 | an interpolated pair is within half a step of the straight line between the two inputs around its position, in both channels |
| `Resample.OutputsExact` | crates/ramdiff/src/audio.rs:578-593 | an output is emitted exactly when its position is before the last input |
| `ResamplerObject.Resampler.Push` | crates/ramdiff/src/audio.rs:559-598 | the interpolation loop ends and computes the specified push |
| `ResamplerObject.Resampler.SetRateScale` | crates/ramdiff/src/audio.rs:551-554 | a rate change moves no position already reached |
| `ResamplerObject.PairsOfInterleave` | crates/ramdiff/src/audio.rs:560-563 | interleaving and pairing are inverse on whole pairs |
| `PlayQueue.QueueSafety` | crates/ramdiff/src/audio.rs:152-203 | over every interleaving of priming, extending and callbacks the queue is the enqueued pairs not yet removed, what was heard is what was enqueued less dropped runs, and every pair is played, dropped or queued |
| `Accounts.EverythingAccounted` | crates/ramdiff/src/audio.rs:152-203 | over every such run the device gets a frame for each it asked for, every produced pair is enqueued, and as many pairs sound as are recorded as played |
| `Accounts.PrimedMeans` | crates/ramdiff/src/audio.rs:477-487 | only an empty queue is primed, with zeros up to the target |
| `Accounts.ExtendMeans` | crates/ramdiff/src/audio.rs:489-499 | an extension beyond the high watermark drops exactly the oldest pairs that leave the low watermark, and otherwise nothing |
| `Accounts.CallbackMeans` | crates/ramdiff/src/audio.rs:389-406 | a callback plays as many waiting pairs as it has frames for, in order, and fills the rest with gaps |
| `PlayQueue.DepthBounded` | crates/ramdiff/src/audio.rs:189-198 | after every extend section the queue is within the high watermark |
| `PlayQueue.MarksGood` | crates/ramdiff/src/audio.rs:278-290 | every accepted device rate gives whole-pair watermarks in order |
| `Accounts.MarksMean` | crates/ramdiff/src/audio.rs:272-290 | the low watermark is 100 ms and the high one 250 ms of sound, in whole pairs |
| `PlayQueue.PoppedPairs` | crates/ramdiff/src/audio.rs:389-406 | the callback takes pairs from the front, then gives silence |
| `Sink.SlewWithinClamp` | crates/ramdiff/src/audio.rs:179-182 | the closed loop stays within the slew by itself and slows or speeds in the right direction |
| `Accounts.RateScaleMeans` | crates/ramdiff/src/audio.rs:179-182 | the scale misses 1 by 0.5 percent of the missing part of the target depth, and stays at 1.005 from twice the target on |
| `Accounts.ClampScaleMeans` | crates/ramdiff/src/audio.rs:551-554 | a scale outside the slew is brought to its nearer end |
| `Sink.RenderPops` | crates/ramdiff/src/audio.rs:396-402 | a filled buffer takes exactly its frames off the queue, muted or not |
| `Sink.RenderedSample` | crates/ramdiff/src/audio.rs:389-428 | channel c of frame k of a filled buffer is sample 2 k + c of the queue for the first two channels, and 0 in further ones, past the queue's end or when muted |
| `Sink.AudioSink.Push` | crates/ramdiff/src/audio.rs:152-203 | prime, slew, resample, extend and trim on the sink's own state |
| `Sink.AudioSink.ExtendQueue` | crates/ramdiff/src/audio.rs:489-499 | oldest samples dropped one by one down to the low watermark |
| `Sink.AudioSink.FillI16` | crates/ramdiff/src/audio.rs:389-406 | the device buffer frame by frame, or silence under contention |
| `Protocol.RunsKeep` | crates/ramdiff/src/record.rs:895-1340 | over every interleaving of starts, frames, dumps, faults, quits and crashes, inside the write of a dump file too, the saved frame count and the strictly increasing dump frames stay within the log |
| `Protocol.NoLineLost` | crates/ramdiff/src/record.rs:531-557 | no recorded pad line is ever removed or changed |
| `Fidelity.ResumeExactly` | crates/ramdiff/src/record.rs:958-1019 | after any history a resume is accepted if and only if the log parses, no checkpoint file was cut short by a crash and, unless verification is skipped, every checkpoint file overwritten before a crash holds the memory it held; an accepted resume continues from the fold of the core over the log |
| `Fidelity.DistinctDumpsAlwaysResume` | crates/ramdiff/src/record.rs:958-1019 | with a new file for every dump, every resume of a log that parses replays and verifies |
| `Fidelity.OverwritingRefused` | crates/ramdiff/src/record.rs:1221-1230 | the concrete run, a crash between dump and save on a reused file, whose resume every guard passes and replay refuses |
| `Fidelity.EmptiedRefused` | crates/ramdiff/src/session.rs:246-268 | the other concrete loss: a crash inside the write of a reused file, whose resume is refused even with verification skipped |
| `Fidelity.IntegrityHolds` | crates/ramdiff/src/record.rs:425-476 | a reachable disk always passes the integrity and epoch checks |
| `Epoch.AcceptedExactly` | crates/ramdiff/src/record.rs:895-1019 | a resume is accepted if and only if the log parses, every stamp present is the resuming build's and ROM's or verification is skipped, the integrity holds and the replay verifies |
| `Epoch.OtherEpochRefused` | crates/ramdiff/src/record.rs:924-936 | a verified resume of a session stamped with another ROM or build is refused |
| `Epoch.StartsWriteNothing` | crates/ramdiff/src/record.rs:895-1019 | a refused start changes no file |
| `Epoch.StampedLogIsOneEpoch` | crates/ramdiff/src/record.rs:895-1340 | over every history in which each start has its own build and ROM and verification is never skipped, all lines of a stamped log were recorded under the stamped ROM and build |
| `Fidelity.ReplayExactly` | crates/ramdiff/src/record.rs:958-1019 | replay never faults; it stops only at a checkpoint whose file was cut short or does not match |
| `Fidelity.FreshExactly` | crates/ramdiff/src/record.rs:403-418 | a fresh start is allowed exactly on a log without frames, so a crash before the header is recovered by it |
| `Fidelity.CleanExit` | crates/ramdiff/src/record.rs:1325-1328 | after a quit or a fault exit the counts are equal and the final lint passes |
| `SessionRuns.OneSessionOrTwo` | crates/ramdiff/src/record.rs:895-1340 | a session closed after its first part and resumed for the second leaves exactly the disk of the one session: same log, index, stamps and dump files; the resume in between is accepted |
| `SessionRuns.SessionRecords` | crates/ramdiff/src/record.rs:895-1340 | a fresh session without a fault leaves the log of its pads, an index entry per dump with its frame, the frame count and the stamps, and in every dump file the memory after the frame last dumped to it |
| `SessionRuns.ResumeRecords` | crates/ramdiff/src/record.rs:895-1340 | a resumed session adds its own pads, dumps and files to what it found and keeps the stamps |
| `SessionRuns.FaultIsEscape` | crates/ramdiff/src/record.rs:1142-1180 | a frame that faults ends the session as Esc before that frame would have: it is not recorded, and nothing after it is |
| `SessionRuns.OutOfPlace` | crates/ramdiff/src/record.rs:895-1340 | a step that does not fit where the process stands changes nothing, and a crash loses the memory alone |
| `SessionRuns.ReplayMeans` | crates/ramdiff/src/record.rs:958-1019 | of any log and any disk the replay verifies exactly if no frame faults and every checkpoint that still holds its file is a whole memory and, unless skipped, the memory of its frame |
| `Fidelity.LintHolds` | crates/ramdiff/src/lint.rs:441-492 | mid-session the lint faults a reachable session only for having no frame count |
| `Recording.IntegrityMeans` | crates/ramdiff/src/record.rs:425-476 | the integrity check accepts exactly the logs that hold every frame the index speaks of |
| `Recording.LintC7Means` | crates/ramdiff/src/lint.rs:553-585 | the single pass over the dumps means: strictly increasing and within the log |
| `Recording.LintAgreesWithResume` | crates/ramdiff/src/lint.rs:441-585 | passing C4 and C7 is integrity plus a frame count plus dump order |
| `RecorderObject.Recorder.RunInteractive` | crates/ramdiff/src/record.rs:895-1340 | a whole session without a crash is the protocol's run of the same inputs and ends consistent |
| `RecorderObject.Recorder.ReplayLog` | crates/ramdiff/src/record.rs:991-1017 | the replay loop returns the specified verdict and the folded core |
| `RecorderObject.Recorder.OpenInteractiveLog` | crates/ramdiff/src/record.rs:531-557 | append on resume of an existing log, truncate and write the header otherwise |
| `RecorderObject.Recorder.LiveFrame` | crates/ramdiff/src/record.rs:1142-1247 | one live iteration: fault check, pad line, dump, in that order |
| `RecorderObject.Recorder.WriteDumpFile` | crates/ramdiff/src/session.rs:262-272 | the memory file and the index entry in memory, before any save |
| `RecorderObject.Recorder.SaveNamed` | crates/ramdiff/src/session.rs:216-227 | the index is replaced whole |
| `Accepted.AcceptsExactly` | crates/refwork-featuremap/src/lib.rs:555-1173 | the validator reports nothing if and only if the pair meets the declarative rules |
| `ItemRules.NamesMean` | crates/refwork-featuremap/src/lib.rs:539-550 | feature names are a letter and up to 63 letters, digits or underscores, spelled out |
| `ItemRules.MapNamesMean` | crates/refwork-featuremap/src/lib.rs:676-690 | map names are letters, digits and hyphens, at least one |
| `ItemRules.WidthsMean` | crates/refwork-featuremap/src/lib.rs:186-240 | which types take one, two and four bytes, and that only raw bytes have no width of their own |
| `ItemRules.WidthSettled` | crates/refwork-featuremap/src/lib.rs:763-794 | a width is settled exactly if the type gives it and the declaration, if any, agrees, raw bytes declaring theirs |
| `ItemRules.IntegersMean` | crates/refwork-featuremap/src/lib.rs:186-240 | the integer types are those that are neither raw bytes nor bit flags nor packed decimal |
| `ItemRules.BitflagsMean` | crates/refwork-featuremap/src/lib.rs:695-712 | bit flags take no other discretisation than bits or none |
| `ItemRules.DiscretizeMeans` | crates/refwork-featuremap/src/lib.rs:643-672 | the refused discretisations: a bucket of size 0 and thresholds that are empty or not strictly increasing throughout |
| `ItemRules.RequiresMean` | crates/refwork-featuremap/src/lib.rs:988-1022 | a stage may require up to eight stages, each before it |
| `Exact.ReportedExactly` | crates/refwork-featuremap/src/lib.rs:555-1173 | each rule is reported for a pair if and only if the pair breaks it |
| `Places.PlacesExactly` | crates/refwork-featuremap/src/lib.rs:555-1173 | findings blame the right item: a rule is reported at a feature, stage, penalty, goal, shaping entry or document if and only if that very item breaks it |
| `Exact.PredRules` | crates/refwork-featuremap/src/lib.rs:1093-1173 | a predicate walk reports a rule exactly when some leaf at some depth breaks it |
| `Exact.MapRules` | crates/refwork-featuremap/src/lib.rs:555-761 | the rules about the map alone |
| `Paths.FindingPoints` | crates/refwork-featuremap/src/lib.rs:1093-1173 | following a finding's path leads to a leaf that breaks its rule |
| `Accepted.LeafReadable` | crates/refwork-featuremap/src/lib.rs:969-1173 | in an accepted pair every leaf reads bytes its region has and bits its type has |
| `Accepted.RequiresLeadBack` | crates/refwork-featuremap/src/lib.rs:988-1022 | required stages only ever lead to earlier ones, so no stage depends on itself |
| `Documents.IndexesAgree` | crates/refwork-featuremap/src/lib.rs:567-596 | without repeated names the first-wins and last-wins indexes are the same |
| `ItemRules.IndexesMean` | crates/refwork-featuremap/src/lib.rs:567-596 | under a repeated name the map's index holds the first feature declared, the cross-file index the last |
| `Documents.MaxBitFitsWidth` | crates/refwork-featuremap/src/lib.rs:186-240 | the largest bit of a bitflags type is the last of its width |
| `Validator.ValidatePair` | crates/refwork-featuremap/src/lib.rs:969-1087 | the imperative validator reports exactly the specified findings in order |
| `Validator.ValidateMap` | crates/refwork-featuremap/src/lib.rs:555-761 | the map's passes in order, sharing the index the first one builds |
| `Validator.ResolveWidth` | crates/refwork-featuremap/src/lib.rs:763-794 | a width, or the one finding that there is none |
| `Validator.ValidateGrid` | crates/refwork-featuremap/src/lib.rs:797-876 | the grid rules for one carrier feature |
| `Validator.WalkPred` | crates/refwork-featuremap/src/lib.rs:931-963 | the recursive walk over nested predicates |
| `Validator.CheckRequires` | crates/refwork-featuremap/src/lib.rs:988-1022 | required stages must be earlier and at most eight |
| `Newc.RoundTrip` | xtask/src/image.rs:1054-1102 | a reader of the New ASCII Format recovers exactly the entries written if and only if no path holds a NUL or is the trailer's |
| `Newc.TrailerNameLost` | xtask/src/image.rs:1054-1102 | the concrete loss: a file named like the trailer, and every file after it, is not there for a reader |
| `Newc.EntryReads` | xtask/src/image.rs:1069-1096 | one written entry reads back whole, its path up to the first NUL |
| `Newc.HeadReads` | xtask/src/image.rs:1069-1091 | every header field says what the format wants: number, mode, links, sizes, zeros elsewhere |
| `Newc.HeadersAligned` | xtask/src/image.rs:1054-1102 | every entry and the trailer start at a multiple of four with the magic |
| `Newc.WordReads` | xtask/src/image.rs:1088-1090 | eight hexadecimal digits read back as the 32-bit word written |
| `Newc.DigitsMean` | xtask/src/image.rs:1088-1090 | digits are written in lower case, and nothing but a digit is read as one |
| `Newc.DirectoryMeans` | xtask/src/image.rs:1071 | two links are for the modes whose file type is a directory's |
| `Newc.ConstantsSpelled` | xtask/src/image.rs:1065-1087 | the magic and the trailer's name, spelled out |
| `Writer.ByteVector.WriteArchive` | xtask/src/image.rs:1054-1067 | the entry loop and trailer on one growing vector |
| `Writer.ByteVector.WriteEntry` | xtask/src/image.rs:1069-1096 | one entry appended in place |
| `Writer.ByteVector.PadToFour` | xtask/src/image.rs:1098-1102 | the padding loop ends with at most three zeros |

## Left out

- CPU, picture and sound chip internals: a script of bus operations and answers computed from an event log stand for them, so what they compute is not part of this model.
- The sound CPU's side of the initial-load handshake: whether it polls, transfers or sees the kick byte is an answer from the log.
- The pad word of a frame is a function of the device events before it, not an argument of the frame; every frame begins with an event of its own, so any sequence of pads is one.
- Introspection counters, diagnostic snapshots, frame flags other than the fault, and the benchmark: observation only.
- Cartridge validation in `from_rom`: a conjunction of size tests; the reset vector is not followed.
- The 64-bit wrap of the total clock is modelled; the APU results stop at it, because the catch-up comparison then reverses.
- The 32-bit overflow of frame and pad counters in the worker, and of the image address in `pc + 2`: counters are unbounded.
- Hashes are terms, not bytes: two different inputs never collide, and no chosen reference equals one.
- Compressed framebuffers, request transport, and the worker calls that always refuse.
- Splitting source text into labels, mnemonics and addressing forms, the `.byte` and `.word` aliases, and parse errors: lines arrive as parsed statements.
- Overflow of the assembler's 64-bit arithmetic: expressions are evaluated over the integers; shift counts outside 0 to 63 fail.
- Rounding of the resampler's phase, which the source keeps in floating point: the phase is a real number here.
- The floating-point sample format of the device callback, device setup, and the depth statistics.
- Pacing, window, gamepad and prompt handling of the recorder, and writes of a log line or an index that are torn midway: lines and index replacements are atomic.
- Of two checkpoints at one frame on different files, which only a hand-edited index can hold, the later entry is verified here; the source takes the later file name.
- The other lint checks, candidate search, label cleaning and file-name sanitising.
- Parsing of documents, version and kind gates, the JSON schema, and the text of validator messages: a finding is its rule and its place.
- Building, registering and validating images, except for the archive writer.
