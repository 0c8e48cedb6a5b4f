# Device-register layer of an x86 PC emulator, in Dafny

This project models the device-register core of a browser-hosted x86 PC
emulator, together with the small data structures that core rests on. Each
modelled source file becomes one Dafny module:

| source | module | what it holds |
|---|---|---|
| `src/lib.ts` | `Strings` | `pads`, `pad0` and `h` |
| `src/lib.ts` | `Log2` | `int_log2`, its 256-entry table and `round_up_to_next_power_of_2` |
| `src/lib.ts` | `Queues` | the ring buffers `ByteQueue`/`FloatQueue` (one generic class) and `CircularQueue` |
| `src/lib.ts` | `Bitmaps` | `Bitmap` |
| `src/dma.ts` | `Dma` | the ISA DMA controller: two cascaded Intel 8237A chips with eight channels |
| `src/pci.ts` | `Pci` | the PCI configuration bus: Configuration Mechanism #1 over ports 0xCF8/0xCFC, from section 3.2.2.3.2 of the PCI Local Bus Specification 3.0 |
| `src/pci.ts` | `Pci` | BAR and expansion-ROM probing, from sections 6.2.5.1 and 6.2.5.2 of the same specification |
| `src/pci.ts` | `Pci` | I/O BAR relocation in the port table, and PIRQ routing |
| `src/rtc.ts` | `Rtc` | the MC146818-style real-time clock and its CMOS RAM |
| `src/sb16.ts` | `Sb16` | a value model of the Sound Blaster 16: DSP, mixer and DMA/IRQ state as one datatype, with each operation a function over it |
| `src/sb16.ts` | `Sb16Device` | the class `SB16`, whose fields are updated in place; every port and handler method is proved to perform its matching `Sb16` function (the "## Model" rows name it) |
| `src/buffer.ts` | `Buffers` | `SyncBuffer`, and the 256-byte block cache of `AsyncXHRBuffer` |

`Wrappers` holds the `Option` type.

Objects whose methods change fields in place are Dafny classes. Their typed arrays become `array`s and their maps and sets become `map`/`set` fields. Expression-level code becomes functions.

Calls out of the core become append-only event logs:

- raising and lowering an IRQ line on the CPU;
- `bus.send` from the SB16;
- a call to a DMA unmask listener;
- a PCI reboot request.

Host inputs become parameters:

- `Date.now()` in the RTC becomes a `now` tick count.
- The calendar fields of the RTC become a `Calendar` value.
- `v86.microtick()` becomes a `microtick` parameter.

Registers are held at the widths the hardware gives them: `bv8`/`bv16`/`bv32`, or bounded integer subset types in `Dma`. Every 16-bit wrap-around is an explicit `% 0x1_0000`. Where the source's JavaScript numbers take a signed 32-bit value, the model keeps the unsigned bit pattern; "## Left out" names those places.

RTC times are counted in ticks of 1/32768 ms. In those ticks the periodic interval `1000 / (32768 >> (rate - 1))` ms is a whole number.

A size probe of a memory BAR stores `~(size - 1) | type` (`src/pci.ts:376-383`), as it does for an I/O BAR.

## Model

| member | source | states |
|---|---|---|
| Strings.HexDigit | src/lib.ts:46-55 | the upper-case digit of a value below 16 is a decimal digit exactly for values below 10, and reads back as the value |
| Strings.PadStart | src/lib.ts:9-12 | `padStart`: the result has length max(len, \|s\|), ends with s, and every added character is the fill |
| Strings.PadEnd | src/lib.ts:3-6 | `padEnd`: the result has length max(len, \|s\|), starts with s, and every added character is the fill |
| Strings.Pad0 | src/lib.ts:9-12 | `pad0`: length max(len, \|s\|), ends with s, left-filled with '0' |
| Strings.Pads | src/lib.ts:3-6 | `pads`: length max(len, \|s\|), starts with s, right-filled with spaces |
| Strings.H | src/lib.ts:46-55 | `h(n, len)` starts with "0x", is followed by the upper-case hex of n zero-padded to `len \|\| 1` digits, and is at least that long |
| Strings.HexDigitsWellFormed | src/lib.ts:46-55 | the digits of a positive number are hex digits, with no leading zero |
| Strings.ParseHexDigits | src/lib.ts:46-55 | reading the hex digits back gives the number: formatting is injective |
| Strings.ParseHexLeadingZeros | src/lib.ts:9-12 | zero-padding does not change the value a digit string denotes |
| Strings.HRoundTrip | src/lib.ts:46-55 | for every positive n and every padding, the digits after "0x" in `h(n, len)` read back as n |
| Strings.HZero | src/lib.ts:46-55 | `h(0)` is "0x0": the falsy 0 becomes the empty string, padded to one digit |
| Strings.HNegative | src/lib.ts:46-55 | a negative number keeps its minus sign after the prefix: `h(-255)` is "0x-FF" |
| Log2.FloorLog2 | src/lib.ts:139-143 | the integer logarithm is the k with 2^k <= x < 2^(k+1) (what `31 - clz32(x)` computes) |
| Log2.FloorLog2Unique | src/lib.ts:139-143 | that k is unique |
| Log2.ByteLog2IsLog2 | src/lib.ts:146-153 | the table value of every byte 1..255 is its logarithm, between 0 and 7 |
| Log2.Log2Table | src/lib.ts:146-153 | the table has 256 entries |
| Log2.NextLog2 | src/lib.ts:146-153 | one step of the table loop: `b` steps up exactly when `!(i & i - 1)`, so it always holds the logarithm of i |
| Log2.FillLog2Table | src/lib.ts:146-153 | the table-filling loop produces exactly the 256-entry table of byte logarithms (-1 at 0) |
| Log2.FloorLog2Shift8 | src/lib.ts:160-185 | dropping the low byte lowers the logarithm by exactly 8 |
| Log2.IntLog2IsFloorLog2 | src/lib.ts:160-185 | the byte-at-a-time table lookup equals the integer logarithm for every 32-bit x > 0, and is below 32 |
| Log2.Int32ShiftOne | src/lib.ts:188-191 | `1 << s` on 32-bit integers is 2^s for s < 31 and -2^31 for s == 31 |
| Log2.RoundUpIsLeastPowerOf2 | src/lib.ts:188-191 | for 0 <= x <= 2^30 the result is a power of two, at least x and below 2x for x > 1; 0 and 1 give 1 |
| Log2.RoundUpWrapsAbove30Bits | src/lib.ts:188-191 | above 2^30 the 32-bit shift shows through: up to 2^31 the result is -2^31, and above 2^31 it is 1 |
| Log2.DebugAssertedLog2Values | src/lib.ts:193-206 | the five `int_log2` values the debug build asserts hold |
| Log2.DebugAssertedRoundUpValues | src/lib.ts:193-206 | the six `round_up_to_next_power_of_2` values the debug build asserts hold |
| Bitmaps.BitIndex | src/lib.ts:448-455 | the bit position `index & 7` is below 8 |
| Bitmaps.BitOf | src/lib.ts:457-462 | a bit reads as 0 or 1 |
| Bitmaps.SetBit | src/lib.ts:448-455 | setting a bit keeps the byte count |
| Bitmaps.SameByteOtherBit | src/lib.ts:448-455 | or-ing or masking bit b of a byte gives b the new value and keeps every other bit |
| Bitmaps.SameByteDifferentBit | src/lib.ts:448-462 | two indices in the same byte are different bits of it |
| Bitmaps.SetThenGetSame | src/lib.ts:448-462 | `get(i)` after `set(i, v)` is 1 exactly when v is truthy, for i inside the bytes |
| Bitmaps.SetThenGetOther | src/lib.ts:448-462 | `set(i, v)` leaves every other index's bit as it was; outside the bytes it changes nothing |
| Bitmaps.Bitmap.constructor | src/lib.ts:437-447 | `new Bitmap(length)` holds `(length + 7) >> 3` zero bytes |
| Bitmaps.Bitmap.FromBuffer | src/lib.ts:437-447 | `new Bitmap(buffer)` views exactly the given bytes |
| Bitmaps.Bitmap.Get | src/lib.ts:457-462 | `get` is 0 or 1, and 0 beyond the bytes |
| Bitmaps.Bitmap.Set | src/lib.ts:448-455 | `set` leaves the bytes as `SetBit` of the old bytes |
| Queues.Wrap | src/lib.ts:234-245 | an index below 2·size brought below size, by subtracting size at most once |
| Queues.RingItems | src/lib.ts:247-257 | the n items from a start slot, in ring order |
| Queues.Queue.Contents | src/lib.ts:221-232 | the queue's contents, oldest first, have `length` items |
| Queues.Queue.constructor | src/lib.ts:221-232 | a power-of-two size gives an empty queue with that capacity |
| Queues.Queue.Push | src/lib.ts:234-245 | on a non-full queue push appends the item and adds one to `length`; on a full queue it drops the oldest item and keeps `length` at size |
| Queues.Queue.Append | src/lib.ts:234-245 | push with room: the start stays and the item is appended |
| Queues.Queue.Overwrite | src/lib.ts:234-245 | push when full: the oldest item is dropped and the new one appended |
| Queues.Queue.Shift | src/lib.ts:247-257 | shift returns the oldest item and removes it (FIFO); on an empty queue it returns None (-1 / undefined) and changes nothing |
| Queues.Queue.Peek | src/lib.ts:259-264 | peek returns what shift would return: None exactly when empty, else the oldest item |
| Queues.Queue.Clear | src/lib.ts:266-270 | clear empties the queue and resets both indices |
| Queues.Queue.ShiftBlock | src/lib.ts:326-347 | `shift_block(count)` returns `count` slots: the min(count, length) oldest items in order, then the fill value; those items leave the queue |
| Queues.Queue.CopyOldest | src/lib.ts:326-347 | the copying half of `shift_block`: the slice holds the oldest n items and the new start is n slots on |
| Queues.LastItems | src/lib.ts:384-391 | the newest `size` items of a history, or all of them |
| Queues.CircularQueue.constructor | src/lib.ts:377-382 | a new circular queue is empty with index 0 |
| Queues.CircularQueue.Add | src/lib.ts:384-387 | `add` writes at `index` (or appends while filling) and advances `index` modulo size |
| Queues.CircularQueue.ToArray | src/lib.ts:389-391 | `toArray` is the data rotated to start at `index` |
| Queues.CircularQueue.Clear | src/lib.ts:393-396 | `clear` empties the data and resets `index` |
| Queues.CircularQueue.Set | src/lib.ts:398-401 | `set(data)` replaces the data and resets `index`, so `toArray` returns exactly the new data |
| Queues.CircularQueue.AddKeepsHistory | src/lib.ts:384-391 | after any sequence of adds, `toArray` is the last `size` items added, oldest first |
| Queues.ModuloOfSuccessor | src/lib.ts:384-387 | `(i + 1) % size` is i + 1, or 0 when i + 1 reaches size |
| Dma.MergeByte | src/dma.ts:369-382 | `flipflop_get` replaces the selected byte of the register and keeps the other byte |
| Dma.ReadByte | src/dma.ts:384-395 | `flipflop_read` returns the low or the high byte of the register |
| Dma.LowThenHigh | src/dma.ts:369-382 | after a flip-flop reset, two writes set the low byte and then the high byte, whatever the register held |
| Dma.ReadBackByte | src/dma.ts:369-395 | a read in the same flip-flop phase returns the byte just written; the other byte is kept |
| Dma.FiredCalls | src/dma.ts:246-260 | a mask change calls every listener, in order, with the channel exactly when the mask becomes 0 from a different value; writing the old value calls none |
| Dma.MaskBit | src/dma.ts:211-216 | a multi-mask write hands over the raw masked bit, 0 or `1 << i`, not 0/1 |
| Dma.MultimaskValue | src/dma.ts:218-226 | the multi-mask read packs four 0/1 masks into bits 0-3 |
| Dma.MultimaskReadBackSpreadsBits | src/dma.ts:211-226 | because the raw bits are stored and shifted again, writing 0x0F reads back 0x55 (writing 0x01 reads back 0x01) |
| Dma.Address8Bit | src/dma.ts:344-357 | the composed address has the 16-bit offset (doubled and truncated on channels 5-7) in its low half, the page in bits 16-23 and the high page in bits 24-31 |
| Dma.Count8Bit | src/dma.ts:359-367 | the byte count is `(count + 1)` units, times 2 on channels 5-7 |
| Dma.AsWrittenFullCountMovesNothing | src/dma.ts:291-337 | as written, count 0xFFFF without autoinit moves no bytes, keeps the channel and calls back with success |
| Dma.CorrectedFullCountMoves | src/dma.ts:291-337 | corrected, count 0xFFFF without autoinit moves 65536 units or the whole units `len` holds, and calls back |
| Dma.WriteStep1 | src/dma.ts:291-342 | one corrected `do_write` step: a continuation asks for strictly fewer bytes, at the position just after the bytes moved |
| Dma.AsWrittenAutoinitNeverEnds | src/dma.ts:291-342 | as written, with count 0xFFFF under autoinit, a step moves 0 bytes and continues with the same request forever |
| Dma.StepBookkeeping | src/dma.ts:291-342 | a step faults exactly when the copy would pass the buffer end; otherwise it moves min(count + 1, whole units in len) units, reloads the registers when autoinit finishes the block and advances them modulo 2^16 otherwise, and continues exactly under autoinit with bytes left |
| Dma.RunShape | src/dma.ts:291-342 | the transfers of a whole `do_write` are contiguous from `start` and total at most len; only addr/count change; a first-step fault changes nothing |
| Dma.FinalStepMovesRest | src/dma.ts:303-328 | an autoinit step that finishes moves all whole units left in len |
| Dma.ContinueStepMovesBlock | src/dma.ts:291-342 | a continuing step moves exactly the bytes it drops from len |
| Dma.AutoinitRunConsumesLen | src/dma.ts:291-342 | an autoinit `do_write` without a fault moves every whole unit of len |
| Dma.DMA.constructor | src/dma.ts:24-125 | every register bank starts zeroed (the high-page bank allocated), with no listeners and the flip-flop at 0 |
| Dma.DMA.FlipflopGet | src/dma.ts:369-382 | the flip-flop toggles unless continuing, and the new register merges the byte at the new phase |
| Dma.DMA.FlipflopRead | src/dma.ts:384-395 | the flip-flop toggles and the byte of the new phase is returned |
| Dma.DMA.PortCountWrite | src/dma.ts:154-162 | the same byte goes into the same half of count and count_init of the channel only, with one toggle |
| Dma.DMA.PortCountRead | src/dma.ts:164-167 | one toggle, and the selected byte of the current count |
| Dma.DMA.PortAddrWrite | src/dma.ts:169-177 | the same byte goes into the same half of addr and addr_init of the channel only, with one toggle |
| Dma.DMA.PortAddrRead | src/dma.ts:179-182 | one toggle, and the selected byte of the current address |
| Dma.DMA.PortPagehiWrite | src/dma.ts:184-192 | the high-page byte of the channel only is stored |
| Dma.DMA.PortPagehiRead | src/dma.ts:184-192 | the stored high-page byte is read |
| Dma.DMA.PortPageWrite | src/dma.ts:194-202 | the page byte of the channel only is stored |
| Dma.DMA.PortPageRead | src/dma.ts:194-202 | the stored page byte is read |
| Dma.DMA.OnUnmask | src/dma.ts:239-244 | the listener is appended to the listeners |
| Dma.DMA.UpdateMask | src/dma.ts:246-260 | only the named channel's mask changes, and the listener calls are exactly `FiredCalls` |
| Dma.DMA.PortSinglemaskWrite | src/dma.ts:204-209 | channel `(b & 3) + offset` gets mask `(b >> 2) & 1`, with its listener calls |
| Dma.DMA.PortMultimaskWrite | src/dma.ts:211-216 | the mask bank becomes the result of the four updates in order, and the calls are those of the four updates in order |
| Dma.MultimaskMaskAt | src/dma.ts:211-216 | after n of the four updates, the first n channels hold their raw bits and every other byte is unchanged |
| Dma.MultimaskMasksDone | src/dma.ts:211-216 | after all four updates, channels offset..offset+3 hold the raw bits of b and the other four keep theirs |
| Dma.MultimaskCallsStep | src/dma.ts:211-216 | each update appends exactly its own listener calls to the log |
| Dma.MultimaskValueBits | src/dma.ts:218-226 | with 0/1 masks the packed value is below 16 and its bit i is mask i |
| Dma.DMA.PortMultimaskRead | src/dma.ts:218-226 | with 0/1 masks the read is a 4-bit value whose bit i is channel offset+i's mask |
| Dma.DMA.PortModeWrite | src/dma.ts:228-232 | the whole byte becomes the mode of channel `(b & 3) + offset` |
| Dma.DMA.PortCWrite | src/dma.ts:234-237 | the flip-flop is reset to 0 |
| Dma.DMA.AddressGet8Bit | src/dma.ts:344-357 | the channel's composed address, from its registers |
| Dma.DMA.CountGet8Bit | src/dma.ts:359-367 | the channel's byte count: count + 1 units, at most 2^16 units |
| Dma.DMA.DoRead | src/dma.ts:263-287 | a copy past the buffer end reports an error and changes no register; otherwise it copies count bytes to the composed address and advances only this channel's address by them, modulo 2^16 |
| Dma.DMA.DoWrite | src/dma.ts:291-342 | the channel ends as the corrected run leaves it, with that run's error flag and transfers; other channels are untouched |
| Dma.FreshControllerCannotComposeAddress | src/dma.ts:28-29 | as constructed the high-page bank is missing, so address composition fails for every channel; with a zeroed bank it is the page and offset alone |
| Pci.WordOf | src/pci.ts:39-42 | four bytes little endian form the word whose bytes they are |
| Pci.BytesOf | src/pci.ts:39-42 | the four bytes of a word rebuild it |
| Pci.WithByte | src/pci.ts:306-320 | a store through the byte view changes byte j of the word and keeps the other three |
| Pci.StoredByte | src/pci.ts:306-320 | the and/or formula for a byte store changes byte j and keeps the others |
| Pci.WithHalf | src/pci.ts:322-348 | a store through the 16-bit view changes half h and keeps the other half |
| Pci.SpaceFromBytes | src/pci.ts:458-461 | a configuration space is 64 words |
| Pci.SpaceFromBytesReadsBack | src/pci.ts:458-461 | the space reads back the byte list little endian, and words past it are 0 |
| Pci.PortBase | src/pci.ts:399-409 | the port a BAR word selects, `w & ~1 & 0xFFFF`, is even and inside the port table |
| Pci.ProbeRevealsSize | src/pci.ts:376-383 | a probe answer keeps the type bit, and masking its low four bits and complementing gives the BAR size back |
| Pci.RelocatedPorts | src/pci.ts:494-536 | the intended relocation: ports of the new range from 0x1000 up hold the entries, the rest of the old range from 0x1000 up is empty, and every other port is kept |
| Pci.MoveIoRangeAsWritten | src/pci.ts:500-535 | the single-pass loop as written keeps the port table size |
| Pci.OverlappingMoveLosesEntries | src/pci.ts:500-535 | moving 4 ports from 0x1000 to 0x1002 as written empties ports 0x1002-0x1003, which should hold the first two entries |
| Pci.DisjointMoveAsIntended | src/pci.ts:500-535 | for non-overlapping ranges the loop as written gives the intended relocation |
| Pci.RaiseAndLowerAgree | src/pci.ts:538-564 | raising and lowering a device's interrupt select the same routing byte, `(pin + dev - 2) & 3` |
| Pci.HostBridgeBytes | src/pci.ts:159-173 | the host bridge's configuration bytes, with PAM0 (0x59) set to 0x10 |
| Pci.IsaBridgeBytes | src/pci.ts:175-188 | the ISA bridge's 64 configuration bytes |
| Pci.BarsOf | src/pci.ts:465-489 | one BAR descriptor per declared size, built from its word and the current port entries |
| Pci.RegisteredDeviceWellFormed | src/pci.ts:444-492 | a registered device's descriptors agree with its space: right type bit, entries for the whole I/O range |
| Pci.ConfigUpdate | src/pci.ts:444-492 | registering or rewriting one device keeps every device well formed |
| Pci.BarSlotWellFormed | src/pci.ts:363-416 | the BAR a register offset names agrees with its word |
| Pci.RegisterAligned | src/pci.ts:350-442 | a 32-bit access reaches a word offset inside the 256-byte space |
| Pci.PlanWrite32 | src/pci.ts:350-442 | a 32-bit write is planned exactly for a registered bdf; it replaces the addressed word, keeps the device well formed, and moves a whole I/O BAR's entries |
| Pci.Write32Frame | src/pci.ts:350-442 | a 32-bit write changes only the addressed word of the addressed space and keeps every device well formed |
| Pci.AddressBytes | src/pci.ts:254-300 | the address bytes a query reads name the bdf and register the 32-bit write decodes |
| Pci.Write32ThenQueryReadsBack | src/pci.ts:437-441 | an ordinary register keeps a 32-bit write: a query at the same address answers present with the value written |
| Pci.Write32IgnoresCommand | src/pci.ts:433-436 | a 32-bit write to the command word (0x04) changes nothing |
| Pci.WrittenWordMemoryBar | src/pci.ts:376-397 | a memory BAR keeps its type; a size probe reveals the size and any other write restores `original_bar` |
| Pci.WrittenWordIoBar | src/pci.ts:399-409 | an I/O BAR keeps the I/O bit and takes the written base, or for a probe the probe answer's base |
| Pci.WrittenWordKeepsBars | src/pci.ts:363-416 | every 32-bit write keeps the BAR descriptors in agreement with their words |
| Pci.ProbeKeepsType | src/pci.ts:376-383 | the probe answer keeps the BAR's type bit for every size of at least 2 |
| Pci.RelocateThereAndBack | src/pci.ts:494-536 | moving a range there and back restores the port table |
| Pci.RelocateInPlace | src/pci.ts:494-536 | moving a range onto itself changes nothing |
| Pci.ReplayBars | src/pci.ts:231-243 | the state-restore replay of one device's BAR moves keeps the table size |
| Pci.ReplayAll | src/pci.ts:214-252 | the replay over all registered, saved devices keeps the table size |
| Pci.RestoredSpaces | src/pci.ts:214-252 | restoring keeps the set of registered bdfs |
| Pci.RestoredStep | src/pci.ts:214-252 | restoring one more bdf replaces just its space |
| Pci.RestoredConfigWellFormed | src/pci.ts:214-252 | restored spaces keep every device's descriptors in agreement |
| Pci.ReplayUnmovedKeepsPorts | src/pci.ts:231-243 | replaying a snapshot taken before any BAR moved leaves the port table as it is |
| Pci.ReplayAllUnmovedKeepsPorts | src/pci.ts:214-252 | the same for every device of the snapshot |
| Pci.Query | src/pci.ts:254-300 | a query answers status nonzero exactly for a registered bdf `a2 << 8 \| a1`; the response is the word `(a0 & 0xFC) >> 2` of its space, and -1 for an unregistered bdf |
| Pci.PortBaseOfPortWord | src/pci.ts:483 | for a word below 0x10000 the masked port is `word & ~1` itself |
| Pci.PCI.RegisterDevice | src/pci.ts:444-492 | the space is the byte list read as 64 words, stored at the id with the descriptors `BarsOf` gives |
| Pci.PCI.BuildBars | src/pci.ts:465-489 | the BAR loop builds exactly `BarsOf` over the current port table |
| Pci.PCI.BarEntries | src/pci.ts:485-487 | the captured entries are the ports of the BAR's range |
| Pci.PCI.constructor | src/pci.ts:33-197 | zeroed registers, with the host bridge at bdf 0 and the ISA bridge at bdf 8, no reboot request and no IRQ event |
| Pci.PCI.AddressWrite | src/pci.ts:116-136 | byte 0 stores `v & 0xFC`; byte 1 requests a reboot instead of storing when the old byte has `& 6 == 2` and the new `& 6 == 6`; byte 3 runs the query; earlier bytes leave the answer alone |
| Pci.PCI.PciQuery | src/pci.ts:254-300 | the status and response registers hold the `Query` answer for the address register |
| Pci.PCI.Write8 | src/pci.ts:302-320 | a byte write stores the byte at the register offset of a registered space; an unregistered bdf is ignored (corrected) |
| Pci.PCI.Write16 | src/pci.ts:322-348 | a half-word write stores at the register offset, except into the BAR area 0x10-0x2B or for an unregistered bdf |
| Pci.PCI.SetIoBars | src/pci.ts:494-536 | in-table ranges give exactly the intended relocation (corrected: two passes); out-of-table ranges change nothing |
| Pci.PCI.Write32 | src/pci.ts:350-442 | the state change is exactly `Write32Outcome`, whose meaning the Write32 lemmas state |
| Pci.PCI.SetState | src/pci.ts:214-252 | the ports are the replay of the saved BAR moves, the spaces are the restored ones, and the address/response/status bytes are the saved ones |
| Pci.PCI.RestoreSpaces | src/pci.ts:214-246 | the device loop replays moves and restores spaces for every bdf below 256 |
| Pci.PCI.RestoreRegisters | src/pci.ts:248-251 | the register bytes are the saved ones |
| Pci.PCI.ReplayDevice | src/pci.ts:231-243 | the BAR loop of one device performs `ReplayBars` |
| Pci.PCI.StoreWord | src/pci.ts:384-441 | one word of a registered space is replaced |
| Pci.PCI.RaiseIrq | src/pci.ts:538-550 | raises the IRQ that the ISA bridge's routing byte gives for the device's pin |
| Pci.PCI.LowerIrq | src/pci.ts:552-564 | lowers the IRQ that the same routing byte gives |
| Pci.UnregisteredSubWordWriteThrows | src/pci.ts:302-320 | as written, a byte write to an unregistered bdf (0x10) throws on the view before its guard, while a registered one (bdf 8) gets a view |
| Rtc.BcdPackedDigits | src/rtc.ts:168-181 | `bcd_pack` puts decimal digit i in nibble i |
| Rtc.BcdPack | src/rtc.ts:168-181 | the packing loop computes `BcdPacked(n)` |
| Rtc.BcdPackedBelow | src/rtc.ts:168-181 | a number of at most d decimal digits packs into the low 4·d bits |
| Rtc.BcdPackedFitsInt32 | src/rtc.ts:168-181 | below 10^7 the packed value stays under 2^28, so the source's 32-bit `|=`/`<<` give the same result |
| Rtc.BcdUnpack | src/rtc.ts:182-191 | every byte decodes to low nibble plus ten times high nibble, at most 165; a BCD byte decodes below 100 |
| Rtc.BcdRoundTrip | src/rtc.ts:168-191 | for 0 <= n <= 99 packing gives a BCD byte that unpacks to n |
| Rtc.EncodeDecodeRoundTrip | src/rtc.ts:193-209 | in binary and BCD mode alike, decode(encode(t)) == t for t < 100, and the encoding fits a byte |
| Rtc.PeriodTicks | src/rtc.ts:283-288 | the periodic interval is positive for every nonzero rate |
| Rtc.PeriodTimesFrequency | src/rtc.ts:283-288 | interval times frequency `32768 >> (rate - 1)` is exactly one second, for rates 1-16 |
| Rtc.CatchUpPeriods | src/rtc.ts:143-155 | the catch-up adds whole periods and lands the deadline in [now, now + period) |
| Rtc.CatchUpIsLeast | src/rtc.ts:143-155 | that number of periods is the least that reaches now |
| Rtc.WaitTime | src/rtc.ts:157-166 | the wait is in [0, 100], no later than any active deadline, and equals 100 or one of them |
| Rtc.RTC.constructor | src/rtc.ts:70-104 | zero CMOS bytes and index, status A 0x26, B 2, C 0, a 1/1024 s period, no interrupt pending |
| Rtc.RTC.IndexWrite | src/rtc.ts:98-101 | the index is `b & 0x7F` and NMI-disabled is `b >> 7` |
| Rtc.RTC.Timer | src/rtc.ts:138-166 | the clock advances by the elapsed time; a due periodic interrupt sets C bits 6 and 7, raises IRQ 8 and catches up; otherwise a due alarm sets bits 5 and 7, raises once and clears; otherwise nothing fires |
| Rtc.RTC.FireDue | src/rtc.ts:143-155 | the firing half of `timer`, with the same three cases |
| Rtc.RTC.CmosPortRead | src/rtc.ts:211-279 | status C returns the old flags, clears bits 4-7 and lowers IRQ 8; D reads 0; B reads B; A has bit 7 in the update window; time registers are encoded; other indices read CMOS RAM |
| Rtc.RTC.CmosPortWrite | src/rtc.ts:281-331 | for every data byte and index, the registers become `PortWrite` of the old registers (see PortWriteCases) and the period stays the period of status A's rate |
| Rtc.PortWriteCases | src/rtc.ts:281-331 | A stores `b & 0x7F` and sets the period; B stores b and arms the periodic or alarm deadline; alarm indices 1, 3, 5 land in CMOS RAM; other writes change nothing; afterwards `periodic_interrupt` is `B & 0x40 && A & 0xF > 0` |
| Rtc.PortWriteStatusB | src/rtc.ts:289-318 | a status-B write changes only B, the two deadlines and the periodic flag |
| Rtc.PortWriteConsistent | src/rtc.ts:281-331 | a data-port write keeps the period equal to the period of status A's rate and the periodic flag equal to its definition |
| Rtc.RateIsLowNibble | src/rtc.ts:285 | the rate is the low four bits `a & 0xF` |
| Rtc.RateIgnoresHighBits | src/rtc.ts:284-285 | masking status A with 0x7F keeps its rate |
| Rtc.RTC.WriteStatusA | src/rtc.ts:284-288 | the registers become `PortWrite` at index 0x0A: status A is `b & 0x7F` and the period follows its rate |
| Rtc.RTC.WriteStatusB | src/rtc.ts:289-318 | the registers become `PortWrite` at index 0x0B: status B is b; bit 6 arms the periodic deadline at now and bit 5 schedules the alarm |
| Rtc.RTC.WriteAlarmByte | src/rtc.ts:320-324 | the registers become `PortWrite` at an alarm index: the byte lands in CMOS RAM and nothing else changes |
| Rtc.RTC.CmosWrite | src/rtc.ts:337-341 | the byte of the value is stored at the index and reads back |
| Rtc.ByteValue | src/rtc.ts:337-341 | storing a byte value keeps it unchanged |
| Sb16.CommandSize | src/sb16.ts:113 | every opcode waits for at most 3 argument bytes |
| Sb16.HandlerArguments | src/sb16.ts:322-620 | each handler's opcodes wait for the number of bytes it reads (2 for ASP set, 0x14, rate and block size; 3 for the program commands) |
| Sb16.HandlerArity | src/sb16.ts:322-620 | every opcode's size covers the bytes its handler reads |
| Sb16.RaiseThenLower | src/sb16.ts:1606-1616 | raise sets flag `type` and lowers nothing else; lower clears it; together they send raise then lower on the line |
| Sb16.BlockSize | src/sb16.ts:1495-1521 | the block is a multiple of 4 between 32 and 1024 samples, a quarter of the transfer or less once it is 128 bytes |
| Sb16.SampleCount | src/sb16.ts:1491-1493 | `1 + lo + (hi << 8)` is between 1 and 65536 |
| Sb16.TransferStartSizing | src/sb16.ts:1495-1521 | 2 bytes per sample exactly when 16-bit (stereo ignored), bytes = samples × bps, the block bounds, and a masked channel waits while an unmasked one starts the countdown and enables the DAC |
| Sb16.TransferStartSettles | src/sb16.ts:1495-1521 | starting a transfer keeps the invariant |
| Sb16.OnUnmaskOnlyWaitingChannel | src/sb16.ts:1523-1534 | an unmask changes state exactly for the waiting channel: it stops waiting, resets bytes left to the count and unpauses |
| Sb16.TransferNextCountdown | src/sb16.ts:1536-1559 | a failed transfer changes nothing; otherwise a block comes off bytes left, and at zero the IRQ is raised and autoinit re-arms |
| Sb16.Transfers | src/sb16.ts:1536-1559 | n transfer steps keep the 16 IRQ flags |
| Sb16.SingleCycleDrains | src/sb16.ts:1536-1559 | a single-cycle transfer reaches zero bytes left, with its IRQ raised, after ceil(left / block) blocks |
| Sb16.ReplyBytes | src/sb16.ts:568-620 | an answering handler queues between 1 byte and the copyright text plus its terminator |
| Sb16.CommandDo | src/sb16.ts:1358-1369 | after `command_do` no command is pending, its size is 0 and the write buffer is empty |
| Sb16.Handle | src/sb16.ts:321-617 | each registered handler's effect; 0xF2/0xF3 are the as-written `raise_irq()` plus the 8-bit or 16-bit flag (corrected), and an unregistered opcode changes nothing |
| Sb16.HandleSettles | src/sb16.ts:322-620 | every handler keeps the invariant apart from the framing |
| Sb16.TransferHandlersSettle | src/sb16.ts:342-565 | the transfer-starting handlers keep it |
| Sb16.ReplyHandlersSettle | src/sb16.ts:568-620 | the answering handlers keep it |
| Sb16.OtherHandlersSettle | src/sb16.ts:322-620 | the remaining handlers keep it |
| Sb16.SetterHandlersSettle | src/sb16.ts:322-620 | the register-storing handlers keep it |
| Sb16.EventHandlersSettle | src/sb16.ts:322-620 | the handlers that send a DAC event or raise an IRQ keep it |
| Sb16.ProgramDmaSettles | src/sb16.ts:520-565 | the 0xB0-0xCF program commands keep it |
| Sb16.ExecuteInv | src/sb16.ts:1358-1369 | `command_do` keeps the invariant |
| Sb16.WriteCommandPortInv | src/sb16.ts:1283-1303 | a write to 0x22C keeps the invariant |
| Sb16.Feed | src/sb16.ts:1283-1303 | any byte stream written to 0x22C keeps the invariant |
| Sb16.FeedConcat | src/sb16.ts:1283-1303 | feeding a + b is feeding a, then b |
| Sb16.FeedOne | src/sb16.ts:1283-1303 | writing one byte is feeding a one-byte stream |
| Sb16.OpcodeStep | src/sb16.ts:1283-1303 | with no command pending a byte becomes the command; a size-0 command runs at once, any other waits |
| Sb16.ArgumentStep | src/sb16.ts:1283-1303 | with a command pending a byte is queued, and the handler runs when the last one arrives |
| Sb16.ArgumentsQueue | src/sb16.ts:1283-1303 | while fewer bytes than the command's size have arrived they are only queued |
| Sb16.Run | src/sb16.ts:1358-1369 | a whole command leaves the invariant and no command pending |
| Sb16.CommandFraming | src/sb16.ts:1283-1303 | an opcode followed by exactly its size of bytes runs its handler once, on those bytes |
| Sb16.LastArgument | src/sb16.ts:1283-1303 | the last argument byte runs the handler |
| Sb16.CommandsCompose | src/sb16.ts:1283-1303 | a stream of commands is the commands run one after another |
| Sb16.WriteTestStores | src/sb16.ts:594-596 | 0xE4 stores its byte in the test register and nothing else |
| Sb16.ReadTestAnswers | src/sb16.ts:599-602 | 0xE8 answers the test register |
| Sb16.TestRegisterReadBack | src/sb16.ts:594-602 | 0xE4 v then 0xE8 reads back v |
| Sb16.SamplingRateBytes | src/sb16.ts:419-421 | 0x41/0x42 set the rate to `(b0 << 8) \| b1` and tell the DAC |
| Sb16.BlockSizeBytes | src/sb16.ts:424-430 | 0x48 sets the sample count to `1 + b0 + (b1 << 8)` |
| Sb16.IdentifyComplements | src/sb16.ts:568-571 | 0xE0 answers the complement of its byte |
| Sb16.ComplementSum | src/sb16.ts:568-571 | a byte and its complement sum to 0xFF |
| Sb16.AspReadBack | src/sb16.ts:322-330 | 0x0E then 0x0F reads back the ASP register written |
| Sb16.SingleCycle8Bit | src/sb16.ts:342-351 | 0x14 starts a single-cycle 8-bit transfer of `1 + lo + 256 hi` bytes on the 8-bit channel, waiting exactly when that channel is masked |
| Sb16.AspReset | src/sb16.ts:931-972 | after reset the ASP registers are 0 except 5 (0x01) and 9 (0xF8) |
| Sb16.DspResetInv | src/sb16.ts:931-972 | `dsp_reset` keeps the invariant |
| Sb16.WriteResetPort | src/sb16.ts:1244-1259 | after any reset-port write the read buffer is `[0xAA]` |
| Sb16.WriteResetPortCases | src/sb16.ts:1244-1259 | in highspeed mode the write only leaves highspeed; otherwise 0 changes nothing else and nonzero resets the DSP, the transfer and the IRQ flags, lowering the line |
| Sb16.ReadDataPort | src/sb16.ts:1151-1158 | reading 0x22A keeps the invariant |
| Sb16.ReadDataPortCases | src/sb16.ts:1151-1158 | 0x22A returns the next byte and removes it, or repeats the last byte when none is waiting |
| Sb16.ReadStatusPort | src/sb16.ts:1181-1188 | reading 0x22E keeps the invariant |
| Sb16.ReadStatusPortCases | src/sb16.ts:1181-1188 | 0x22E returns `0x7F \| ready << 7`, ready meaning data waits and not highspeed; it lowers the 8-bit IRQ only when triggered |
| Sb16.Ack16Port | src/sb16.ts:1191-1195 | reading 0x22F keeps the invariant |
| Sb16.ReadMpuData | src/sb16.ts:1319-1328 | reading 0x330 keeps the invariant |
| Sb16.WriteMpuCommand | src/sb16.ts:1345-1352 | writing 0x331 keeps the invariant |
| Sb16.WriteMixerAddress | src/sb16.ts:1231-1234 | 0x224 selects the mixer register and changes nothing else |
| Sb16.MpuAcknowledge | src/sb16.ts:1319-1352 | the MPU reset command 0xFF is answered with 0xFE; status reads 0 while it waits and 0x80 after; other commands change nothing |
| Sb16.LegacyTargets | src/sb16.ts:630-648 | each legacy register maps to two distinct non-legacy registers other than itself |
| Sb16.BassLeftAsWritten | src/sb16.ts:753-758 | as written, the bass-left and bass-right registers send the same message |
| Sb16.ToneEventsDistinct | src/sb16.ts:737-766 | corrected, each of the four tone registers sends a message only it sends, carrying its level |
| Sb16.ToneLevelRange | src/sb16.ts:737-766 | tone levels span -14..+15 dB |
| Sb16.IrqSelectReadBack | src/sb16.ts:769-783 | a one-hot 1/2/4/8 written to 0x80 reads back; IRQs 2/5/7/10 round-trip; a write without those bits keeps the IRQ |
| Sb16.DmaSelectReadBack | src/sb16.ts:786-809 | the 8-bit and 16-bit channel bits written to 0x81 read back |
| Sb16.DmaSelectAsConstructed | src/sb16.ts:224-226 | with no 8-bit channel set, 0x81 reads 0x20 and reports no 8-bit channel |
| Sb16.IrqStatusFlags | src/sb16.ts:812-818 | 0x82 reports 0x20 with the 8-bit flag in bit 0 and the 16-bit flag in bit 1 |
| Sb16.RegisterEvents | src/sb16.ts:651-766 | a register write sends at most one message; the tone registers send their as-written messages except 0x46, which sends bass left (corrected) at the same level |
| Sb16.RegisterWrite | src/sb16.ts:1392-1400 | a register write keeps the mixer invariant and the selected address |
| Sb16.LegacyNibbles | src/sb16.ts:1665-1686 | the legacy nibble formulas read V back and keep the low nibbles of both targets |
| Sb16.LegacyWritten | src/sb16.ts:1665-1686 | a legacy write leaves 256 registers |
| Sb16.LegacyRoundTrip | src/sb16.ts:1665-1686 | a legacy write to 0x04 or 0x22 stores V, reads back V, and keeps the targets' low nibbles |
| Sb16.LegacyRegsRoundTrip | src/sb16.ts:1665-1686 | the same at the level of the register array |
| Sb16.LegacyWriteRegs | src/sb16.ts:1665-1686 | what a legacy write to 0x04 or 0x22 leaves in the registers |
| Sb16.StoringWrite | src/sb16.ts:1392-1400 | a register with a storing handler keeps the value written |
| Sb16.LegacyUnmapped | src/sb16.ts:630-648 | a legacy write to 0x26/0x28/0x2E stores the value, but its targets have no write handler, so the legacy read is unchanged |
| Sb16.UpdateThrough | src/sb16.ts:1449-1459 | a partial full update keeps the mixer invariant and address |
| Sb16.UpdateStepEffect | src/sb16.ts:1449-1459 | rewriting one register with its own value only sends its messages and re-applies 0x80/0x81 |
| Sb16.UpdateThroughEffect | src/sb16.ts:1449-1459 | rewriting 1..n-1 changes no register, sends each non-legacy register's messages in order, and re-applies IRQ and DMA select |
| Sb16.FullUpdateEffect | src/sb16.ts:1449-1459 | the same for the whole update over 1..255 |
| Sb16.MixerDefaults | src/sb16.ts:1412-1447 | the reset values cover 256 registers |
| Sb16.LegacyDefaultsConsistent | src/sb16.ts:1412-1447 | after the defaults every legacy register reads back its stored value |
| Sb16.MixerWriteReadBack | src/sb16.ts:1379-1400 | a 0x225 write then read at the same address reads back the value for storing registers |
| Sb16.MixerResetState | src/sb16.ts:1412-1447 | `mixer_reset` sets the defaults, sends every register's messages, keeps the invariant and leaves the DSP and transfer alone |
| Sb16.RegisterWriteInv | src/sb16.ts:1392-1400 | a register write keeps the invariant |
| Sb16.MixerWriteInv | src/sb16.ts:1392-1400 | a mixer write keeps the invariant |
| Sb16.MixerReadInv | src/sb16.ts:1379-1390 | a mixer read keeps the invariant |
| Sb16.InitialState | src/sb16.ts:176-319 | the corrected constructed state: invariant holds, 0x81 reads 0x22, 0x80 reads 0x02, 0x82 reads 0x20, and the events are rate, speaker and IRQ lowering |
| Sb16.OnUnmaskInv | src/sb16.ts:1523-1534 | an unmask keeps the invariant |
| Sb16.DacRequestInv | src/sb16.ts:1586-1594 | a DAC request keeps the invariant |
| Sb16.TriggerIrqAsWrittenUnacknowledged | src/sb16.ts:605-607 | as written, 0xF2's raise sets no flag, so reading 0x22E never lowers the line |
| Sb16.TriggerIrqAcknowledged | src/sb16.ts:605-607 | corrected, 0xF2 then a 0x22E read raises and then lowers the line |
| Sb16.TriggerIrqRun | src/sb16.ts:605-607 | corrected, a whole 0xF2 or 0xF3 command raises the line once and sets the 8-bit or 16-bit flag; nothing else recorded changes |
| Sb16.TriggerIrq16AsWrittenUnreported | src/sb16.ts:605-607 | as written, 0xF3 sets no 16-bit flag, so mixer 0x82 keeps bit 1 clear |
| Sb16.TriggerIrq16Reported | src/sb16.ts:605-607 | corrected, 0xF3 raises the line and mixer 0x82 reports bit 1 |
| Sb16Device.SB16.constructor | src/sb16.ts:176-925 | the fields hold the corrected initial state |
| Sb16Device.SB16.RaiseIrq | src/sb16.ts:1606-1610 | performs `Sb16.RaiseIrq` on the fields |
| Sb16Device.SB16.LowerIrq | src/sb16.ts:1612-1616 | performs `Sb16.LowerIrq` |
| Sb16Device.SB16.TransferSizeSet | src/sb16.ts:1491-1493 | performs `SizeSet` |
| Sb16Device.SB16.SizeTransfer | src/sb16.ts:1495-1514 | performs the sizing half of `dma_transfer_start` |
| Sb16Device.SB16.TransferStart | src/sb16.ts:1495-1521 | performs `Sb16.TransferStart` |
| Sb16Device.SB16.DmaOnUnmask | src/sb16.ts:1523-1534 | performs `OnUnmask` and keeps the invariant |
| Sb16Device.SB16.TransferNext | src/sb16.ts:1536-1559 | performs `Sb16.TransferNext` |
| Sb16Device.SB16.DacHandleRequest | src/sb16.ts:1586-1594 | performs `DacRequest` and keeps the invariant |
| Sb16Device.SB16.SamplingRateChange | src/sb16.ts:1482-1485 | performs `RateChange` |
| Sb16Device.SB16.Dma8Setup | src/sb16.ts:342-351 | performs `Sb16.Dma8Setup` |
| Sb16Device.SB16.ProgramDma | src/sb16.ts:520-565 | performs `Sb16.ProgramDma` |
| Sb16Device.SB16.AnswerCopyright | src/sb16.ts:584-592 | queues the copyright text and its terminator |
| Sb16Device.SB16.HandleReply | src/sb16.ts:568-620 | queues exactly `ReplyBytes` |
| Sb16Device.SB16.HandleTransfer | src/sb16.ts:342-565 | performs `Handle` for the transfer handlers |
| Sb16Device.SB16.HandleOther | src/sb16.ts:322-620 | performs `Handle` for the remaining handlers, 0xF2/0xF3 corrected to set the 8-bit or 16-bit flag |
| Sb16Device.SB16.CommandDo | src/sb16.ts:1358-1369 | performs `Sb16.CommandDo` |
| Sb16Device.SB16.Execute | src/sb16.ts:1358-1369 | performs `Sb16.Execute` |
| Sb16Device.SB16.Port2xCWrite | src/sb16.ts:1283-1303 | performs `WriteCommandPort` and keeps the invariant |
| Sb16Device.SB16.DspReset | src/sb16.ts:931-972 | performs `Sb16.DspReset` and keeps the invariant |
| Sb16Device.SB16.Port2x6Write | src/sb16.ts:1244-1259 | performs `WriteResetPort` |
| Sb16Device.SB16.Port2xARead | src/sb16.ts:1151-1158 | returns and performs `ReadDataPort` |
| Sb16Device.SB16.Port2xERead | src/sb16.ts:1181-1188 | returns and performs `ReadStatusPort` |
| Sb16Device.SB16.Port2xFRead | src/sb16.ts:1191-1195 | returns and performs `Ack16Port` |
| Sb16Device.SB16.Port3x0Read | src/sb16.ts:1319-1328 | returns and performs `ReadMpuData` |
| Sb16Device.SB16.Port3x1Read | src/sb16.ts:1334-1342 | returns `ReadMpuStatus` |
| Sb16Device.SB16.Port3x1Write | src/sb16.ts:1345-1352 | performs `WriteMpuCommand` |
| Sb16Device.SB16.Port2x4Read | src/sb16.ts:1118-1121 | returns the selected mixer address, below 256 |
| Sb16Device.SB16.Port2x4Write | src/sb16.ts:1231-1234 | performs `WriteMixerAddress` |
| Sb16Device.SB16.Port2x5Write | src/sb16.ts:1237-1240 | performs `Sb16.MixerWrite` at the selected address |
| Sb16Device.SB16.Port2x5Read | src/sb16.ts:1124-1127 | returns and performs `Sb16.MixerRead` at the selected address |
| Sb16Device.SB16.IrqSelectWrite | src/sb16.ts:769-783 | the IRQ becomes `IrqSelect` of the bits |
| Sb16Device.SB16.DmaSelectWrite | src/sb16.ts:786-809 | the channels become `Channel8Select`/`Channel16Select` of the bits |
| Sb16Device.SB16.RegisterWrite | src/sb16.ts:1392-1400 | performs `Sb16.RegisterWrite` |
| Sb16Device.SB16.MixerWrite | src/sb16.ts:1392-1400 | performs `Sb16.MixerWrite` |
| Sb16Device.SB16.IrqStatus | src/sb16.ts:812-818 | returns `IrqStatusBits` of the 16 flags |
| Sb16Device.SB16.MixerRead | src/sb16.ts:1379-1390 | returns and performs `Sb16.MixerRead` |
| Sb16Device.SB16.MixerReset | src/sb16.ts:1412-1447 | performs `Sb16.MixerReset` |
| Sb16Device.SB16.MixerFullUpdate | src/sb16.ts:1449-1459 | performs `FullUpdate` |
| Sb16Device.AnyFirstDigit | src/sb16.ts:1634-1640 | the 16 opcodes `base + i` for i = 0..15 |
| Sb16Device.CommandTables.constructor | src/sb16.ts:1624-1632 | empty size and handler tables of 256 entries |
| Sb16Device.CommandTables.RegisterDspCommand | src/sb16.ts:1624-1632 | the listed opcodes get the size and handler; every other entry is kept |
| Buffers.Spliced | src/buffer.ts:36-41 | the data replaces its range and every other byte is kept |
| Buffers.SyncBuffer.constructor | src/buffer.ts:18-25 | the buffer holds the given bytes |
| Buffers.SyncBuffer.Get | src/buffer.ts:31-34 | returns the len bytes from start |
| Buffers.SyncBuffer.Set | src/buffer.ts:36-41 | the slice replaces its range and the rest is kept |
| Buffers.SetThenGet | src/buffer.ts:31-41 | a get after a set over the same range returns the bytes written; other bytes are unchanged |
| Buffers.Range | src/buffer.ts:170-197 | the block indices first..first+n-1 |
| Buffers.Joined | src/buffer.ts:107-129 | the concatenation of n cached blocks has 256·n bytes |
| Buffers.JoinedAt | src/buffer.ts:107-129 | byte k of the concatenation is byte k % 256 of block first + k / 256 |
| Buffers.StoreBlocks | src/buffer.ts:170-197 | block i of the data is stored at index first + i; other blocks are kept |
| Buffers.Patched | src/buffer.ts:199-216 | the read data with cached blocks copied over keeps its length |
| Buffers.PatchedAt | src/buffer.ts:199-216 | byte k is the cached block's byte when its block is cached, else the byte read |
| Buffers.PatchedBeyond | src/buffer.ts:199-216 | bytes past the whole blocks are the bytes read |
| Buffers.UncachedReadPassesThrough | src/buffer.ts:199-216 | with nothing cached the read data passes through unchanged |
| Buffers.CachedReads | src/buffer.ts:199-216 | with `cache_reads`, the missing blocks are recorded from the read data and cached blocks are kept |
| Buffers.RequestedRange | src/buffer.ts:150-154 | with chunk size c the request starts at a multiple of c, has a length that is a multiple of c, covers [offset, offset + len), and overshoots by less than c; with no chunk it is exactly the range |
| Buffers.WrittenBlocks | src/buffer.ts:249-262 | only written blocks are kept, with their cached bytes |
| Buffers.StateRoundTrip | src/buffer.ts:249-274 | the state of a restored cache is the saved state |
| Buffers.WrittenBlockSurvives | src/buffer.ts:170-197 | a block set is in the saved state with the data written |
| Buffers.SetThenGetFromCache | src/buffer.ts:107-197 | after `set(start, data)`, `get_from_cache(start, \|data\|)` finds every block and returns data |
| Buffers.AsyncXHRBuffer.constructor | src/buffer.ts:81-93 | an empty cache and no written blocks |
| Buffers.AsyncXHRBuffer.GetFromCache | src/buffer.ts:107-129 | returns something exactly when all len / 256 blocks from offset / 256 are cached, and then their concatenation in order |
| Buffers.AsyncXHRBuffer.Get | src/buffer.ts:131-168 | answers from the cache exactly when all blocks are cached, with their bytes; otherwise requests exactly `RequestedRange`, the chunk-aligned range covering the request |
| Buffers.AsyncXHRBuffer.HandleRead | src/buffer.ts:199-216 | the read bytes are patched with the cached blocks, and with `cache_reads` the missing blocks are cached |
| Buffers.AsyncXHRBuffer.Complete | src/buffer.ts:156-165 | the loaded array holds the requested range patched with the cached blocks; with `cache_reads` the blocks that were missing are added to the cache, otherwise the cache is unchanged; the caller gets the sub-range at `offset - requested_start` of the patched data |
| Buffers.AsyncXHRBuffer.Set | src/buffer.ts:170-197 | the data's blocks are stored and marked written |
| Buffers.AsyncXHRBuffer.GetState | src/buffer.ts:249-262 | the state holds exactly the written blocks, whole, with their cached bytes |
| Buffers.AsyncXHRBuffer.SetState | src/buffer.ts:264-274 | the state's blocks become cached and written, so `get_state` returns that state |

## Left out

- Dma.Address8Bit: the source's value is the signed 32-bit integer of this bit pattern (`addr |= pagehi << 24`, src/dma.ts:354), negative for a high page of 0x80 or more. The model keeps the unsigned pattern.
- Memory copies of the DMA controller through `cpu.mem8` and `cpu.write_blob`: transfers are recorded as (buffer start, memory address, length) triples.
- DMA `get_state`/`set_state` (src/dma.ts:128-152): positional array copies with no logic.
- Dma.DMA.DoWrite: follows the corrected step of finding (c), which also changes count 0xFFFF without autoinit. As written (src/dma.ts:291-337), `read_count` is then 0: no bytes move, address and count stay as they were, and the callback reports success (`AsWrittenFullCountMovesNothing`). The model moves 65536 units, or the whole units `len` holds when fewer (`CorrectedFullCountMoves`). With autoinit and an initial count of 0xFFFF as well, as written, the step never terminates.
- Dma.DMA.DoWrite and Dma.DMA.DoRead: the callback becomes the returned error flag and transfers.
- Dma.DMA.constructor: allocates the high-page bank (finding (a)). Under "Findings" the source's missing bank is modelled separately.
- PCI `get_state`: the snapshot is the `spaces` map itself. `pci_value` is only saved and restored and is left out.
- Pci.PCI.SetIoBars: refuses a range that leaves the port table, and then changes nothing. The source throws part-way through the loop.
- Pci.PCI.RegisterDevice: requires every memory BAR size to be at least 2. That keeps the type bit of a probe answer.
- Pci.PCI.RegisterDevice, Pci.PCI.BuildBars and Pci.BarsOf: require every I/O BAR word to be below 0x10000, with its ports inside the port table. The source captures `io.ports[(word & ~1) + j]` with no mask (src/pci.ts:483-486), so a larger word would capture undefined entries; below 0x10000 that port is `PortBase(word)` (`PortBaseOfPortWord`).
- Pci.PCI.Write8: the source's debug assertions become requires (no write into the BAR area or ROM word).
- Pci.PCI.Write16: the source's debug assertions become requires: the address is even, and a write to a registered device does not land in the ROM word 0x30-0x33 (src/pci.ts:341-342).
- Contents of `io.ports` entries are not modelled. They are opaque ids with an `Empty` marker.
- RTC calendar decomposition via JavaScript `Date`, `Date.now()` and `v86.microtick()` become parameters.
- RTC `get_state`/`set_state` (src/rtc.ts:106-136): positional array copies.
- Sb16Device.CommandTables: the constructor's sequence of `register_dsp_command` calls (src/sb16.ts:321-617) is not replayed on the tables. `Sb16.CommandSize` and `Sb16.HandlerOf` state the tables' contents after it.
- Rtc.BcdUnpack: the source's debug assertions (a byte with two decimal digits) are not modelled; any byte decodes, as in a build without them.
- Rtc.RTC.Timer: takes the current time as a parameter. The source ignores its argument and reads `Date.now()`.
- Log2.FloorLog2: stands for the `Math.clz32` branch of `int_log2`. The table branch is modelled separately as `IntLog2`.
- Log2.RoundUpIsLeastPowerOf2: stated for x <= 2^30. Above that the 32-bit shift wraps, as `RoundUpWrapsAbove30Bits` states.
- `RoundUpToNextPowerOf2` does not model x > 2^32, where `x >>> 0` truncates.
- Queues.Queue.constructor: requires 0 < size < 2^32. The source's power-of-two test also admits size 0, a queue that cannot hold anything.
- Queues.CircularQueue.constructor: requires size > 0. With size 0 the source computes a NaN index.
- `Bitmap.get_buffer` returns the underlying buffer and is left out.
- `SyncBuffer.load`, `get_buffer`, `get_state` and `set_state` are left out. They are host I/O callbacks or whole-buffer copies.
- `AsyncXHRBuffer.get_buffer` is left out. It always answers with nothing.
- `AsyncXHRBuffer.get_block_cache` is left out. It enumerates a Map with `Object.keys` and is always empty.
- The XHR download itself is left out. `Get` returns the range to request, and `Complete` is the download's callback.
- Buffers.AsyncXHRBuffer.Complete: assumes the loaded range has the full requested length. A short final range at the end of the file is not modelled.
- Buffers.AsyncXHRBuffer.Get: assumes the fixed chunk size is a multiple of 256.
- The block arrays of `get_from_cache` alias the cache. `set` overwrites cached blocks in place. The model copies values, so neither aliasing effect is captured.
- SB16 float audio is left out: command 0x10, the float rate of 0x40, `dma_to_dac`, `dac_send` payloads, `audio_normalize` and `audio_clip`.
- The SB16 FM register handlers are left out. They are stubs.
- SB16 `get_state`/`set_state` are left out. They are positional arrays.
- `bus.send` and CPU IRQ raise/lower become event logs.
- SB16 volume and gain levels are event payloads. Their dB conversion is modelled as integer levels only.
- Sb16.Constructed / Sb16Device.SB16.constructor: the 8-bit DMA channel starts as 1, so 8-bit transfers run on channel 1 and wait while it is masked (`Sb16.SingleCycle8Bit`); as written, `dma_channel_8bit` is undefined and such a transfer starts at once whatever the masks say (Findings row for src/sb16.ts:224-226).
- Rtc.BcdPack / Rtc.BcdPacked: the packing is unbounded. The source's `result |= digit << (4 * i)` is 32-bit: from 10^7 the eighth digit reaches the sign bit (80000000 packs to -2147483648), and from 10^8 the shift count wraps modulo 32. `Rtc.BcdPackedFitsInt32` shows the two agree below 10^7, which covers every time field `encode_time` packs.
- Sb16.Handle: 0xF2 and 0xF3 run the corrected `TriggerIrqCorrected`, which sets flag 1 or 2. As written (`Sb16.TriggerIrqAsWritten`), `raise_irq()` sets no flag. The correction reaches `WriteCommandPort`, `Feed`, `Run` and the SB16 methods `Execute`, `HandleOther` and `Port2xCWrite` (Findings rows for src/sb16.ts:605-607).
- Sb16.RegisterEvents: mixer 0x46 sends the corrected bass-left message. As written (`Sb16.ToneEventAsWritten`), it sends bass right. The correction reaches `MixerWrite`, `MixerReset`, `FullUpdate` and the SB16 methods `Port2x5Write`, `RegisterWrite`, `MixerWrite`, `MixerReset` and `MixerFullUpdate` (Findings row for src/sb16.ts:753-758).
- Sb16Device.SB16.HandleOther: performs the corrected 0xF2/0xF3, setting flag 1 or 2 where the source's `raise_irq()` sets none (see `Sb16.Handle` above).

## Findings

| source | as written | input that shows it | evidently intended | confidence | as-written member | corrected member |
|---|---|---|---|---|---|---|
| src/dma.ts:28-29 | the constructor allocates `channel_page` twice and never allocates `channel_pagehi` | any `do_read`/`do_write`, or a high-page port access, on a fresh controller: reading `channel_pagehi[channel]` throws | an 8-byte zeroed high-page bank | high, not executed | Dma.FreshControllerCannotComposeAddress | Dma.DMA.AddressGet8Bit |
| src/sb16.ts:224-226 | `dma_channel_8bit` is never set; only `dma_channel` is | mixer read 0x81 right after construction answers 0x20 (no 8-bit channel); an 8-bit DMA command (0x14, 0x1C, 0x90, 0xC0-0xCF; src/sb16.ts:344, 363, 460, 510) sets `dma_channel` to the undefined `dma_channel_8bit`, so `dma_transfer_start` (src/sb16.ts:1517-1520) finds no mask entry and `dma_on_unmask` starts the transfer at once, even while DMA channel 1 is masked | 0x22: 8-bit channel 1, 16-bit channel 5 | medium, not executed | Sb16.DmaSelectAsConstructed | Sb16.InitialState |
| src/dma.ts:291-342 | the units moved are `(count + 1) & 0xFFFF` | count 0xFFFF and count_init 0xFFFF with autoinit and len > 0: each step moves 0 bytes, reloads the same count and calls `do_write` again with the same arguments, without end | `count + 1` units (65536) | high, not executed | Dma.AsWrittenAutoinitNeverEnds | Dma.WriteStep1 |
| src/dma.ts:291-337 | the units moved are `(count + 1) & 0xFFFF` | count 0xFFFF without autoinit: the step moves 0 bytes, leaves address and count unchanged and calls back with success | 65536 units, or the whole units `len` holds when fewer | high, not executed | Dma.AsWrittenFullCountMovesNothing | Dma.CorrectedFullCountMoves |
| src/pci.ts:302-320 | the byte (and half-word) view of the space is built before the unregistered-bdf guard | a byte write to bdf 0x10 (address 0x80001004), which is not registered: creating the view over an undefined space throws | the guard ignores the write | high, not executed | Pci.UnregisteredSubWordWriteThrows | Pci.PCI.Write8 |
| src/sb16.ts:753-758 | the bass-left register 0x46 sends the bass-right message | writing any value to mixer 0x46 sends the same message as writing it to 0x47 | the bass-left message | high, not executed | Sb16.BassLeftAsWritten | Sb16.ToneEventsDistinct |
| src/pci.ts:500-535 | one loop empties port `from + i` and then fills port `to + i` | moving a size-4 I/O BAR from 0x1000 to 0x1002: iterations 2 and 3 empty ports 0x1002/0x1003 after iterations 0 and 1 filled them | ports 0x1002-0x1005 hold the four entries | high, not executed | Pci.OverlappingMoveLosesEntries | Pci.PCI.SetIoBars |
| src/sb16.ts:605-607 | 0xF2 and 0xF3 call `raise_irq()` with no type, so no flag is set | 0xF2 then a read of 0x22E: the IRQ line stays raised | the 8-bit flag is set, so the 0x22E read acknowledges it | medium, not executed | Sb16.TriggerIrqAsWrittenUnacknowledged | Sb16.TriggerIrqAcknowledged |
| src/sb16.ts:605-607 | 0xF3 calls `raise_irq()` with no type, so the 16-bit flag is not set | 0xF3 then a read of mixer 0x82 before any read of 0x22F: bit 1 is clear | the 16-bit flag is set, so 0x82 reports it in bit 1 | medium, not executed | Sb16.TriggerIrq16AsWrittenUnreported | Sb16.TriggerIrq16Reported |
