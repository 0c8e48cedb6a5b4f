/**
 * The Sound Blaster 16 of src/sb16.ts as a state value: the DSP command
 * protocol on port 0x22C, the DMA bookkeeping of its transfers, the CT1745
 * mixer behind ports 0x224/0x225, the interrupt flags and the MPU-401 status
 * ports. Every I/O operation is a function from one `Sb` to the next; the class
 * `SB16` of module Sb16Device keeps the same state in fields and is proved to
 * follow these functions.
 *
 * The host side is an event log: what the source sends on the bus
 * (`dac-enable`, `mixer-volume`, ...) and the IRQ line changes it asks the CPU
 * for are appended to `events`. The float audio path (DAC buffers, sample
 * conversion) and the DMA sample buffer are not part of the state.
 */
module Sb16 {
  import opened Wrappers

  /** `DSP_NO_COMMAND`: with this command pending the next 0x22C byte is an opcode. */
  const NoCommand: bv8 := 0
  /** `DSP_BUFSIZE`: capacity of the DSP read/write and MPU byte queues. */
  const DspBufSize: nat := 64
  /** `SB_DMA_BLOCK_SAMPLES`: samples asked for per DMA block. */
  const BlockSamples: nat := 1024
  /** `SB_DMA_CHANNEL_8BIT`, `SB_DMA_CHANNEL_16BIT`, `SB_IRQ`. */
  const DefaultChannel8: nat := 1
  const DefaultChannel16: nat := 5
  const DefaultIrq: nat := 5
  /** Indices into `irq_triggered`: `SB_IRQ_8BIT`, `SB_IRQ_16BIT`. */
  const Irq8Bit: nat := 1
  const Irq16Bit: nat := 2
  const DefaultRate: Rate := Hz(22050)

  /** `DSP_COPYRIGHT`, "COPYRIGHT (C) CREATIVE TECHNOLOGY LTD, 1992.", as ASCII bytes. */
  const CopyrightText: seq<bv8> := [
    0x43, 0x4F, 0x50, 0x59, 0x52, 0x49, 0x47, 0x48, 0x54, 0x20, 0x28, 0x43, 0x29, 0x20, 0x43,
    0x52, 0x45, 0x41, 0x54, 0x49, 0x56, 0x45, 0x20, 0x54, 0x45, 0x43, 0x48, 0x4E, 0x4F, 0x4C,
    0x4F, 0x47, 0x59, 0x20, 0x4C, 0x54, 0x44, 0x2C, 0x20, 0x31, 0x39, 0x39, 0x32, 0x2E]

  /**
   * A sampling rate as DSP commands set it: `Hz(n)` from 0x41/0x42, or
   * `FromTimeConstant(c, ch)` from 0x40, meaning the float
   * `1000000 / (256 - c) / ch` the source stores.
   */
  datatype Rate = Hz(hz: nat) | FromTimeConstant(constant: bv8, channels: nat)

  datatype MixerSource = Master | Dac | PcSpeaker
  datatype MixerChannel = Left | Right | Both

  /** A message to the bus or a request to the CPU's interrupt controller. */
  datatype Event =
    | DacEnable
    | DacDisable
    | TellSamplingRate(rate: Rate)
    | SpeakerConfirmInitialized
    | MixerVolume(source: MixerSource, channel: MixerChannel, db: int)
    | GainLeft(db: int)
    | GainRight(db: int)
    | TrebleLeft(db: int)
    | TrebleRight(db: int)
    | BassLeft(db: int)
    | BassRight(db: int)
    | RaiseLine(irq: nat)
    | LowerLine(irq: nat)

  /**
   * The DSP: the write queue of the pending command's bytes, the read queue of
   * its answers (both ByteQueues, oldest first), the command being assembled,
   * the sample format and the ASP registers.
   */
  datatype Dsp = Dsp(
    writeBuffer: seq<bv8>, readBuffer: seq<bv8>, readLast: bv8,
    command: bv8, commandSize: nat,
    speakerOn: bool, testRegister: bv8,
    highspeed: bool, stereo: bool, sixteenBit: bool, signed: bool,
    samplingRate: Rate, e2Value: bv8, e2Count: nat,
    asp: seq<bv8>)

  /**
   * The `dma_*` fields: the transfer being run, the interrupt it raises when
   * done (`irqKind`, an index into `irq_triggered`), its channel, and the two
   * channels the mixer selects for 8-bit and 16-bit transfers.
   */
  datatype Transfer = Transfer(
    sampleCount: nat, bytesCount: nat, bytesLeft: nat, bytesBlock: nat, bytesPerSample: nat,
    irqKind: nat, channel: nat, channel8: nat, channel16: nat,
    autoinit: bool, waiting: bool, paused: bool)

  /** The mixer's 256 registers and the address port 0x224 selected. */
  datatype Mixer = Mixer(address: nat, regs: seq<bv8>)

  /** The MPU-401 read queue and the byte it last answered. */
  datatype Mpu = Mpu(buffer: seq<bv8>, last: bv8)

  /** The device: its parts, the IRQ number, the `irq_triggered` flags (0 or 1, as booleans) and the event log. */
  datatype Sb = Sb(dsp: Dsp, dma: Transfer, mixer: Mixer, mpu: Mpu,
                   irq: nat, irqTriggered: seq<bool>, events: seq<Event>)

  function Min(a: nat, b: nat): nat { if a < b then a else b }
  function Max(a: nat, b: nat): nat { if a < b then b else a }

  /**
   * A pending command has its table size and fewer queued bytes than that; the
   * read queue stays within its capacity (so a push never drops the oldest
   * byte).
   */
  ghost predicate DspInv(d: Dsp)
  {
    |d.asp| == 256 && |d.readBuffer| <= DspBufSize &&
    (d.command == NoCommand ==> d.writeBuffer == [] && d.commandSize == 0) &&
    (d.command != NoCommand ==> d.commandSize == CommandSize(d.command) && |d.writeBuffer| < d.commandSize)
  }

  /** A transfer raises flag 1 or 2 (0 before the first), and a block, once sized, is 32..1024 samples and a multiple of 4 bytes. */
  ghost predicate DmaInv(t: Transfer)
  {
    t.irqKind <= 2 && t.sampleCount <= 0x10000 &&
    (t.bytesPerSample == 1 || t.bytesPerSample == 2) &&
    (t.bytesBlock == 0 ==> t.bytesLeft == 0 && !t.waiting) &&
    (t.bytesBlock != 0 ==> 32 <= t.bytesBlock <= BlockSamples * t.bytesPerSample && t.bytesBlock % 4 == 0)
  }

  ghost predicate MixerInv(m: Mixer)
  {
    |m.regs| == 256 && m.address < 256
  }

  /** Only flags 0-2 are ever raised. */
  ghost predicate FlagsInv(f: seq<bool>)
  {
    |f| == 16 && forall i :: 3 <= i < 16 ==> !f[i]
  }

  /** What every operation keeps. */
  ghost predicate Inv(s: Sb)
  {
    DspInv(s.dsp) && DmaInv(s.dma) && MixerInv(s.mixer) && |s.mpu.buffer| <= DspBufSize &&
    FlagsInv(s.irqTriggered)
  }

  // ---------------------------------------------------------------------------
  // The command tables filled by register_dsp_command
  // ---------------------------------------------------------------------------

  /** `DSP_COMMAND_SIZES`: argument bytes each opcode waits for; 0 for opcodes never registered. */
  function CommandSize(c: bv8): (n: nat)
    ensures n <= 3
  {
    if c == 0x0F || c == 0x10 || c == 0x40 || c == 0xE0 || c == 0xE2 || c == 0xE4 || c == 0xF9 then 1
    else if c == 0x0E || (0x14 <= c <= 0x17) || c == 0x24 || c == 0x41 || c == 0x42 || c == 0x48
      || (0x74 <= c <= 0x77) || c == 0x80 then 2
    else if 0xB0 <= c <= 0xCF then 3
    else 0
  }

  datatype Handler =
    | AspSet | AspGet | DirectOutput | Dma8Single | Dma8Auto | DirectInput
    | TimeConstant | SetRate | SetBlockSize | Dma8HighSpeed | Program16 | Program8
    | PauseDma | ContinueDma | SpeakerOn | SpeakerOff | SpeakerStatus | ExitAutoinit
    | Identify | Version | Copyright | WriteTest | ReadTest | TriggerIrq | AspUnknown
    | NoHandler

  /** `DSP_COMMAND_HANDLERS`; `NoHandler` is `dsp_default_handler`, which only logs. */
  function HandlerOf(c: bv8): Handler
  {
    if c == 0x0E then AspSet
    else if c == 0x0F then AspGet
    else if c == 0x10 then DirectOutput
    else if c == 0x14 || c == 0x15 then Dma8Single
    else if c == 0x1C then Dma8Auto
    else if c == 0x20 then DirectInput
    else if c == 0x40 then TimeConstant
    else if c == 0x41 || c == 0x42 then SetRate
    else if c == 0x48 then SetBlockSize
    else if c == 0x90 then Dma8HighSpeed
    else if 0xB0 <= c <= 0xBF then Program16
    else if 0xC0 <= c <= 0xCF then Program8
    else if c == 0xD0 || c == 0xD5 then PauseDma
    else if c == 0xD1 then SpeakerOn
    else if c == 0xD3 then SpeakerOff
    else if c == 0xD4 || c == 0xD6 then ContinueDma
    else if c == 0xD8 then SpeakerStatus
    else if c == 0xD9 || c == 0xDA then ExitAutoinit
    else if c == 0xE0 then Identify
    else if c == 0xE1 then Version
    else if c == 0xE3 then Copyright
    else if c == 0xE4 then WriteTest
    else if c == 0xE8 then ReadTest
    else if c == 0xF2 || c == 0xF3 then TriggerIrq
    else if c == 0xF9 then AspUnknown
    else NoHandler
  }

  /** Commands with a handler read only the bytes their size entry makes them wait for. */
  lemma HandlerArguments(c: bv8)
    ensures HandlerOf(c) in {AspSet, Dma8Single, SetRate, SetBlockSize} ==> CommandSize(c) == 2
    ensures HandlerOf(c) in {AspGet, DirectOutput, TimeConstant, Identify, WriteTest, AspUnknown} ==>
      CommandSize(c) == 1
    ensures HandlerOf(c) in {Program16, Program8} <==> CommandSize(c) == 3
  {
  }

  // ---------------------------------------------------------------------------
  // Interrupts
  // ---------------------------------------------------------------------------

  /** `raise_irq(kind)`: set the flag (a Uint8Array ignores indices past its end) and raise the line. */
  function RaiseIrq(s: Sb, kind: nat): Sb
    requires |s.irqTriggered| == 16
  {
    s.(irqTriggered := if kind < 16 then s.irqTriggered[kind := true] else s.irqTriggered,
       events := s.events + [RaiseLine(s.irq)])
  }

  /** `lower_irq(kind)`: clear the flag and lower the line. */
  function LowerIrq(s: Sb, kind: nat): Sb
    requires |s.irqTriggered| == 16
  {
    s.(irqTriggered := if kind < 16 then s.irqTriggered[kind := false] else s.irqTriggered,
       events := s.events + [LowerLine(s.irq)])
  }

  lemma RaiseThenLower(s: Sb, kind: nat)
    requires |s.irqTriggered| == 16 && kind < 16
    ensures RaiseIrq(s, kind).irqTriggered[kind]
    ensures !LowerIrq(RaiseIrq(s, kind), kind).irqTriggered[kind]
    ensures forall i :: 0 <= i < 16 && i != kind ==>
      LowerIrq(RaiseIrq(s, kind), kind).irqTriggered[i] == s.irqTriggered[i]
    ensures LowerIrq(RaiseIrq(s, kind), kind).events == s.events + [RaiseLine(s.irq), LowerLine(s.irq)]
  {
  }

  // ---------------------------------------------------------------------------
  // DMA transfers
  // ---------------------------------------------------------------------------

  /** The DMA controller's `channel_mask[channel]`; a channel past the array reads as unmasked. */
  predicate Masked(mask: seq<bool>, channel: nat)
  {
    channel < |mask| && mask[channel]
  }

  /**
   * The block size of `dma_transfer_start`: a quarter of the transfer with the
   * low two bits cleared, at least 32 bytes and at most 1024 samples.
   */
  function BlockSize(count: nat, bps: nat): (block: nat)
    requires bps == 1 || bps == 2
    ensures 32 <= block <= BlockSamples * bps && block % 4 == 0
    ensures 128 <= count ==> 4 * block <= count
    ensures count < 128 ==> block == 32
  {
    var rounded := count / 4 - (count / 4) % 4;
    QuarterRounded(count, rounded);
    Min(Max(rounded, 32), BlockSamples * bps)
  }

  lemma QuarterRounded(count: nat, rounded: int)
    requires rounded == count / 4 - (count / 4) % 4
    ensures rounded >= 0 && rounded % 4 == 0 && 4 * rounded <= count
    ensures count >= 128 <==> rounded >= 32
  {
  }

  /** `dma_transfer_size_set`: the sample count from the two bytes at `k`, low byte first. */
  function SizeSet(s: Sb, k: nat): Sb
    requires k + 2 <= |s.dsp.writeBuffer|
  {
    s.(dma := s.dma.(sampleCount := SampleCount(s.dsp.writeBuffer[k], s.dsp.writeBuffer[k + 1])))
  }

  /** One more than the 16-bit little-endian count `lo, hi`. */
  function SampleCount(lo: bv8, hi: bv8): (n: nat)
    ensures 1 <= n <= 0x10000
  {
    1 + lo as nat + hi as nat * 256
  }

  /** `dma_on_unmask(channel)`: start the waiting transfer, if `channel` is its channel. */
  function OnUnmask(s: Sb, channel: nat): Sb
  {
    if channel != s.dma.channel || !s.dma.waiting then s
    else s.(dma := s.dma.(waiting := false, bytesLeft := s.dma.bytesCount, paused := false),
            events := s.events + [DacEnable])
  }

  /** The first half of `dma_transfer_start`: size the transfer and its blocks, and wait for the channel. */
  function TransferSized(s: Sb): Sb
  {
    var bps := if s.dsp.sixteenBit then 2 else 1;
    var count := if s.dsp.sixteenBit then 2 * s.dma.sampleCount else s.dma.sampleCount;  // sample_count * bytes_per_sample
    s.(dma := s.dma.(bytesPerSample := bps, bytesCount := count, bytesBlock := BlockSize(count, bps), waiting := true))
  }

  /** `dma_transfer_start`: size the transfer, then wait for the channel unless it is already unmasked. */
  function TransferStart(s: Sb, mask: seq<bool>): Sb
  {
    var s1 := TransferSized(s);
    if !Masked(mask, s1.dma.channel) then OnUnmask(s1, s1.dma.channel) else s1
  }

  /**
   * `dma_transfer_next` once the DMA controller has answered (`failed` is its
   * error flag): count the block off, and at zero raise the transfer's IRQ and,
   * in auto-init mode, start over.
   */
  function TransferNext(s: Sb, failed: bool): Sb
    requires |s.irqTriggered| == 16
  {
    var size := Min(s.dma.bytesLeft, s.dma.bytesBlock);
    if failed then s
    else
      var s1 := s.(dma := s.dma.(bytesLeft := s.dma.bytesLeft - size));
      if s1.dma.bytesLeft != 0 then s1
      else
        var s2 := RaiseIrq(s1, s1.dma.irqKind);
        if s2.dma.autoinit then s2.(dma := s2.dma.(bytesLeft := s2.dma.bytesCount)) else s2
  }

  /** `dac_handle_request`: the speaker asks for data; a transfer runs only if bytes are left and it is not paused. */
  function DacRequest(s: Sb, failed: bool): Sb
    requires |s.irqTriggered| == 16
  {
    if s.dma.bytesLeft == 0 || s.dma.paused then s else TransferNext(s, failed)
  }

  lemma TransferStartSizing(s: Sb, mask: seq<bool>)
    ensures var r := TransferStart(s, mask);
      && r.dsp == s.dsp && r.mixer == s.mixer && r.irqTriggered == s.irqTriggered
      && r.dma.bytesPerSample == (if s.dsp.sixteenBit then 2 else 1)
      && r.dma.bytesCount == s.dma.sampleCount * r.dma.bytesPerSample
      && 32 <= r.dma.bytesBlock <= BlockSamples * r.dma.bytesPerSample && r.dma.bytesBlock % 4 == 0
      && r.dma.sampleCount == s.dma.sampleCount && r.dma.irqKind == s.dma.irqKind
      && (Masked(mask, s.dma.channel) ==>
           r.dma.waiting && r.dma.bytesLeft == s.dma.bytesLeft && r.dma.paused == s.dma.paused
           && r.events == s.events)
      && (!Masked(mask, s.dma.channel) ==>
           !r.dma.waiting && r.dma.bytesLeft == r.dma.bytesCount && !r.dma.paused
           && r.events == s.events + [DacEnable])
  {
  }

  /** Starting a transfer keeps everything but the DMA fields, and those within their invariant. */
  lemma TransferStartSettles(s: Sb, mask: seq<bool>)
    requires Settled(s.(dma := s.dma.(bytesBlock := 0, bytesLeft := 0, waiting := false)))
    ensures Settled(TransferStart(s, mask))
  {
    TransferStartSizing(s, mask);
  }

  lemma OnUnmaskOnlyWaitingChannel(s: Sb, channel: nat)
    ensures channel == s.dma.channel && s.dma.waiting <==> OnUnmask(s, channel) != s
    ensures channel == s.dma.channel && s.dma.waiting ==>
      var r := OnUnmask(s, channel);
      !r.dma.waiting && r.dma.bytesLeft == s.dma.bytesCount && !r.dma.paused
  {
    if channel == s.dma.channel && s.dma.waiting {
      assert OnUnmask(s, channel).dma.waiting != s.dma.waiting;
    }
  }

  /** Each completed block takes `min(left, block)` bytes off; reaching zero raises the IRQ and re-arms an auto-init transfer. */
  lemma TransferNextCountdown(s: Sb, failed: bool)
    requires Inv(s) && s.dma.bytesLeft > 0
    ensures failed ==> TransferNext(s, failed) == s
    ensures !failed && s.dma.bytesLeft > s.dma.bytesBlock ==>
      TransferNext(s, failed) == s.(dma := s.dma.(bytesLeft := s.dma.bytesLeft - s.dma.bytesBlock))
    ensures !failed && s.dma.bytesLeft <= s.dma.bytesBlock ==>
      var r := TransferNext(s, failed);
      && r.irqTriggered[s.dma.irqKind]
      && r.events == s.events + [RaiseLine(s.irq)]
      && r.dma.bytesLeft == (if s.dma.autoinit then s.dma.bytesCount else 0)
  {
  }

  /** `TransferNext` applied `n` times, the controller never failing. */
  function Transfers(s: Sb, n: nat): (r: Sb)
    requires |s.irqTriggered| == 16
    ensures |r.irqTriggered| == 16
  {
    if n == 0 then s else TransferNext(Transfers(s, n - 1), false)
  }

  /**
   * A single-cycle transfer of `left` bytes is done, with its IRQ raised, after
   * `n` blocks, where `n` is `left / block` rounded up.
   */
  lemma {:induction false} SingleCycleDrains(s: Sb, n: nat)
    requires Inv(s) && s.dma.bytesLeft > 0 && !s.dma.autoinit
    requires (n - 1) * s.dma.bytesBlock < s.dma.bytesLeft <= n * s.dma.bytesBlock
    ensures Transfers(s, n).dma.bytesLeft == 0 && Transfers(s, n).irqTriggered[s.dma.irqKind]
    decreases n
  {
    TransferNextCountdown(s, false);
    if s.dma.bytesLeft <= s.dma.bytesBlock {
      assert n == 1 by {
        if n >= 2 { MulMonotone(1, n - 1, s.dma.bytesBlock); }
      }
      assert Transfers(s, 1) == TransferNext(Transfers(s, 0), false);
    } else {
      var s1 := s.(dma := s.dma.(bytesLeft := s.dma.bytesLeft - s.dma.bytesBlock));
      assert n >= 2;
      assert (n - 1) * s.dma.bytesBlock == (n - 2) * s.dma.bytesBlock + s.dma.bytesBlock;
      SingleCycleDrains(s1, n - 1);
      TransfersFirst(s, n - 1);
    }
  }

  lemma MulMonotone(a: nat, b: nat, c: nat)
    requires a <= b
    ensures a * c <= b * c
  {
  }

  /** Running `n + 1` transfers is running one and then `n`. */
  lemma {:induction false} TransfersFirst(s: Sb, n: nat)
    requires |s.irqTriggered| == 16
    ensures Transfers(s, n + 1) == Transfers(TransferNext(s, false), n)
  {
    if n > 0 {
      TransfersFirst(s, n - 1);
    }
  }

  // ---------------------------------------------------------------------------
  // DSP commands
  // ---------------------------------------------------------------------------

  function RateChange(s: Sb, rate: Rate): Sb
  {
    s.(dsp := s.dsp.(samplingRate := rate), events := s.events + [TellSamplingRate(rate)])
  }

  /** `get_channel_count`. */
  function Channels(s: Sb): nat
  {
    if s.dsp.stereo then 2 else 1
  }

  /** The table `SB_F9` that command 0xF9 answers from. */
  function F9Answer(b: bv8): bv8
  {
    if b == 0x0E then 0xFF else if b == 0x0F then 0x07 else if b == 0x37 then 0x38 else 0
  }

  /** A handler that clears the read queue and pushes `bytes`. */
  function Reply(s: Sb, bytes: seq<bv8>): Sb
  {
    s.(dsp := s.dsp.(readBuffer := bytes))
  }

  /**
   * 0xF2/0xF3 as the source has them: `raise_irq()` without a type raises the
   * line but sets no element of `irq_triggered`.
   */
  function TriggerIrqAsWritten(s: Sb): Sb
  {
    s.(events := s.events + [RaiseLine(s.irq)])
  }

  /** 0xF2/0xF3 corrected: force the 8-bit (0xF2) or 16-bit (0xF3) interrupt, so it can be acknowledged. */
  function TriggerIrqCorrected(s: Sb): Sb
    requires |s.irqTriggered| == 16
  {
    RaiseIrq(s, if s.dsp.command == 0xF2 then Irq8Bit else Irq16Bit)
  }

  /** The 8-bit single-cycle (0x14/0x15), auto-init (0x1C) and high-speed (0x90) setups. */
  function Dma8Setup(s: Sb, autoinit: bool, highspeed: bool): Sb
  {
    s.(dma := s.dma.(irqKind := Irq8Bit, channel := s.dma.channel8, autoinit := autoinit),
       dsp := s.dsp.(signed := false, sixteenBit := false, highspeed := highspeed))
  }

  /** The mode settings of 0xB0-0xCF: bit 2 of the opcode is auto-init; mode bits 4 and 5 are signed and stereo. */
  function ProgramSetup(s: Sb, sixteen: bool): Sb
    requires |s.dsp.writeBuffer| >= 1
  {
    var mode := s.dsp.writeBuffer[0];
    s.(dma := s.dma.(irqKind := if sixteen then Irq16Bit else Irq8Bit,
                     channel := if sixteen then s.dma.channel16 else s.dma.channel8,
                     autoinit := s.dsp.command & 4 != 0),
       dsp := s.dsp.(signed := mode & 0x10 != 0, stereo := mode & 0x20 != 0, sixteenBit := sixteen))
  }

  /** 0xB0-0xCF: bit 3 of the opcode (input) is not implemented; otherwise set up and start, the size after the mode byte. */
  function ProgramDma(s: Sb, sixteen: bool, mask: seq<bool>): Sb
    requires |s.dsp.writeBuffer| >= 3
  {
    if s.dsp.command & 8 != 0 then s
    else TransferStart(SizeSet(ProgramSetup(s, sixteen), 1), mask)
  }

  /** Everything the invariant asks of a state but the command framing. */
  ghost predicate Settled(s: Sb)
  {
    |s.dsp.asp| == 256 && |s.dsp.readBuffer| <= DspBufSize &&
    DmaInv(s.dma) && MixerInv(s.mixer) && |s.mpu.buffer| <= DspBufSize && FlagsInv(s.irqTriggered)
  }

  /** A command whose bytes have all arrived, in a device state otherwise invariant. */
  ghost predicate Ready(s: Sb)
  {
    Settled(s) && |s.dsp.writeBuffer| == CommandSize(s.dsp.command)
  }

  /** The argument bytes a handler takes off the write queue. */
  function Arity(h: Handler): nat
  {
    match h
    case Program16 => 3
    case Program8 => 3
    case AspSet => 2
    case Dma8Single => 2
    case SetRate => 2
    case SetBlockSize => 2
    case AspGet => 1
    case DirectOutput => 1
    case TimeConstant => 1
    case Identify => 1
    case WriteTest => 1
    case AspUnknown => 1
    case _ => 0
  }

  /** Every opcode's size entry covers the bytes its handler reads. */
  lemma HandlerArity(c: bv8)
    ensures Arity(HandlerOf(c)) <= CommandSize(c)
  {
  }

  /** What a handler that answers puts in the read queue, from the argument bytes in `writeBuffer`. */
  function ReplyBytes(s: Sb, h: Handler): (r: seq<bv8>)
    requires Replies(h) && Arity(h) <= |s.dsp.writeBuffer| && |s.dsp.asp| == 256
    ensures 1 <= |r| <= |CopyrightText| + 1
  {
    var b := s.dsp.writeBuffer;
    match h
    case AspGet => [s.dsp.asp[b[0] as nat]]
    case DirectInput => [0x7F]
    case SpeakerStatus => [if s.dsp.speakerOn then 0xFF else 0]
    case Identify => [!b[0]]
    case Version => [4, 5]
    case Copyright => CopyrightText + [0]
    case ReadTest => [s.dsp.testRegister]
    case AspUnknown => [F9Answer(b[0])]
  }

  /** What handler `h` does, the pending command's argument bytes in `writeBuffer`. */
  function Handle(s: Sb, h: Handler, mask: seq<bool>): (r: Sb)
    requires Arity(h) <= |s.dsp.writeBuffer|
    requires |s.dsp.asp| == 256 && |s.irqTriggered| == 16
    // 0xF2/0xF3 are the as-written `raise_irq()` plus the 8-bit or 16-bit flag.
    ensures h.TriggerIrq? ==> r == TriggerIrqAsWritten(s).(irqTriggered :=
      s.irqTriggered[if s.dsp.command == 0xF2 then Irq8Bit else Irq16Bit := true])
    ensures h.NoHandler? ==> r == s
  {
    var b := s.dsp.writeBuffer;
    match h
    case AspSet => s.(dsp := s.dsp.(asp := s.dsp.asp[b[0] as nat := b[1]]))
    case AspGet | DirectInput | SpeakerStatus | Identify | Version | Copyright | ReadTest | AspUnknown =>
      Reply(s, ReplyBytes(s, h))
    case DirectOutput => s.(events := s.events + [DacEnable])
    case Dma8Single => TransferStart(SizeSet(Dma8Setup(s, false, false), 0), mask)
    case Dma8Auto => TransferStart(Dma8Setup(s, true, false), mask)
    case TimeConstant => RateChange(s, FromTimeConstant(b[0], Channels(s)))
    case SetRate => RateChange(s, Hz(b[0] as nat * 256 + b[1] as nat))
    case SetBlockSize => SizeSet(s, 0)
    case Dma8HighSpeed => TransferStart(Dma8Setup(s, true, true), mask)
    case Program16 => ProgramDma(s, true, mask)
    case Program8 => ProgramDma(s, false, mask)
    case PauseDma => s.(dma := s.dma.(paused := true), events := s.events + [DacDisable])
    case ContinueDma => s.(dma := s.dma.(paused := false), events := s.events + [DacEnable])
    case SpeakerOn => s.(dsp := s.dsp.(speakerOn := true))
    case SpeakerOff => s.(dsp := s.dsp.(speakerOn := false))
    case ExitAutoinit => s.(dma := s.dma.(autoinit := false))
    case WriteTest => s.(dsp := s.dsp.(testRegister := b[0]))
    case TriggerIrq => TriggerIrqCorrected(s)
    case NoHandler => s
  }

  /** The handler of the pending command, run on its bytes. */
  function Execute(s: Sb, mask: seq<bool>): Sb
    requires |s.dsp.writeBuffer| == CommandSize(s.dsp.command)
    requires |s.dsp.asp| == 256 && |s.irqTriggered| == 16
  {
    HandlerArity(s.dsp.command);
    Handle(s, HandlerOf(s.dsp.command), mask)
  }

  /** `command_do`: run the handler, then forget the command and its bytes. */
  function CommandDo(s: Sb, mask: seq<bool>): (r: Sb)
    requires |s.dsp.writeBuffer| == CommandSize(s.dsp.command)
    requires |s.dsp.asp| == 256 && |s.irqTriggered| == 16
    ensures r.dsp.command == NoCommand && r.dsp.commandSize == 0 && r.dsp.writeBuffer == []
  {
    var e := Execute(s, mask);
    e.(dsp := e.dsp.(command := NoCommand, commandSize := 0, writeBuffer := []))
  }

  /**
   * `port2xC_write`: with no command pending the byte is the opcode; otherwise
   * it is queued. The handler runs as soon as the queue holds the opcode's size.
   */
  function WriteCommandPort(s: Sb, value: bv8, mask: seq<bool>): Sb
    requires Inv(s)
  {
    var s1 := if s.dsp.command == NoCommand
      then s.(dsp := s.dsp.(command := value, writeBuffer := [], commandSize := CommandSize(value)))
      else s.(dsp := s.dsp.(writeBuffer := s.dsp.writeBuffer + [value]));
    if |s1.dsp.writeBuffer| >= s1.dsp.commandSize then CommandDo(s1, mask) else s1
  }

  /** The handlers that start a DMA transfer. */
  predicate StartsTransfer(h: Handler)
  {
    h == Dma8Single || h == Dma8Auto || h == Dma8HighSpeed || h == Program16 || h == Program8
  }

  /** The handlers that answer through the read queue. */
  predicate Replies(h: Handler)
  {
    h == AspGet || h == DirectInput || h == SpeakerStatus || h == Identify || h == Version
    || h == Copyright || h == ReadTest || h == AspUnknown
  }

  /** Every handler keeps the invariant but the framing, whatever the opcode that selected it. */
  lemma HandleSettles(s: Sb, h: Handler, mask: seq<bool>)
    requires Settled(s) && Arity(h) <= |s.dsp.writeBuffer|
    ensures Settled(Handle(s, h, mask))
  {
    if StartsTransfer(h) {
      TransferHandlersSettle(s, h, mask);
    } else if Replies(h) {
      ReplyHandlersSettle(s, h, mask);
    } else {
      OtherHandlersSettle(s, h, mask);
    }
  }

  lemma TransferHandlersSettle(s: Sb, h: Handler, mask: seq<bool>)
    requires Settled(s) && Arity(h) <= |s.dsp.writeBuffer| && StartsTransfer(h)
    ensures Settled(Handle(s, h, mask))
  {
    match h
    case Dma8Single =>
      TransferStartSettles(SizeSet(Dma8Setup(s, false, false), 0), mask);
    case Dma8Auto =>
      TransferStartSettles(Dma8Setup(s, true, false), mask);
    case Dma8HighSpeed =>
      TransferStartSettles(Dma8Setup(s, true, true), mask);
    case Program16 =>
      ProgramDmaSettles(s, true, mask);
    case Program8 =>
      ProgramDmaSettles(s, false, mask);
  }

  lemma ReplyHandlersSettle(s: Sb, h: Handler, mask: seq<bool>)
    requires Settled(s) && Arity(h) <= |s.dsp.writeBuffer| && Replies(h)
    ensures Settled(Handle(s, h, mask))
  {
    match h
    case AspGet =>
    case DirectInput =>
    case SpeakerStatus =>
    case Identify =>
    case Version =>
    case Copyright =>
    case ReadTest =>
    case AspUnknown =>
  }

  lemma OtherHandlersSettle(s: Sb, h: Handler, mask: seq<bool>)
    requires Settled(s) && Arity(h) <= |s.dsp.writeBuffer| && !StartsTransfer(h) && !Replies(h)
    ensures Settled(Handle(s, h, mask))
  {
    if h.AspSet? || h.SpeakerOn? || h.SpeakerOff? || h.ExitAutoinit? || h.WriteTest? || h.SetBlockSize? || h.NoHandler? {
      SetterHandlersSettle(s, h, mask);
    } else {
      EventHandlersSettle(s, h, mask);
    }
  }

  /** The handlers that only store into a register or flag. */
  lemma SetterHandlersSettle(s: Sb, h: Handler, mask: seq<bool>)
    requires Settled(s) && Arity(h) <= |s.dsp.writeBuffer|
    requires h.AspSet? || h.SpeakerOn? || h.SpeakerOff? || h.ExitAutoinit? || h.WriteTest? || h.SetBlockSize? || h.NoHandler?
    ensures Settled(Handle(s, h, mask))
  {
    match h
    case AspSet =>
    case SetBlockSize =>
    case SpeakerOn =>
    case SpeakerOff =>
    case ExitAutoinit =>
    case WriteTest =>
    case NoHandler =>
  }

  /** The handlers that send an event to the DAC or raise an interrupt. */
  lemma EventHandlersSettle(s: Sb, h: Handler, mask: seq<bool>)
    requires Settled(s) && Arity(h) <= |s.dsp.writeBuffer|
    requires h.DirectOutput? || h.TimeConstant? || h.SetRate? || h.PauseDma? || h.ContinueDma? || h.TriggerIrq?
    ensures Settled(Handle(s, h, mask))
  {
    match h
    case DirectOutput =>
    case TimeConstant =>
    case SetRate =>
    case PauseDma =>
    case ContinueDma =>
    case TriggerIrq =>
  }

  lemma ProgramDmaSettles(s: Sb, sixteen: bool, mask: seq<bool>)
    requires Settled(s) && |s.dsp.writeBuffer| >= 3
    ensures Settled(ProgramDma(s, sixteen, mask))
  {
    if s.dsp.command & 8 == 0 {
      TransferStartSettles(SizeSet(ProgramSetup(s, sixteen), 1), mask);
    }
  }

  /** `command_do` keeps the invariant. */
  lemma ExecuteInv(s: Sb, mask: seq<bool>)
    requires Ready(s)
    ensures Inv(CommandDo(s, mask))
  {
    HandlerArity(s.dsp.command);
    HandleSettles(s, HandlerOf(s.dsp.command), mask);
  }

  lemma WriteCommandPortInv(s: Sb, value: bv8, mask: seq<bool>)
    requires Inv(s)
    ensures Inv(WriteCommandPort(s, value, mask))
  {
    var s1 := if s.dsp.command == NoCommand
      then s.(dsp := s.dsp.(command := value, writeBuffer := [], commandSize := CommandSize(value)))
      else s.(dsp := s.dsp.(writeBuffer := s.dsp.writeBuffer + [value]));
    if |s1.dsp.writeBuffer| >= s1.dsp.commandSize {
      ExecuteInv(s1, mask);
    }
  }

  /** The bytes `bytes` written to port 0x22C one after another. */
  function Feed(s: Sb, bytes: seq<bv8>, mask: seq<bool>): (r: Sb)
    requires Inv(s)
    ensures Inv(r)
    decreases |bytes|
  {
    if bytes == [] then s
    else
      WriteCommandPortInv(s, bytes[0], mask);
      Feed(WriteCommandPort(s, bytes[0], mask), bytes[1..], mask)
  }

  lemma {:induction false} FeedConcat(s: Sb, a: seq<bv8>, b: seq<bv8>, mask: seq<bool>)
    requires Inv(s)
    ensures Feed(s, a + b, mask) == Feed(Feed(s, a, mask), b, mask)
    decreases |a|
  {
    if a == [] {
      assert a + b == b;
    } else {
      assert (a + b)[1..] == a[1..] + b;
      WriteCommandPortInv(s, a[0], mask);
      FeedConcat(WriteCommandPort(s, a[0], mask), a[1..], b, mask);
    }
  }

  /** Writing one byte is feeding a one-byte sequence. */
  lemma FeedOne(s: Sb, v: bv8, mask: seq<bool>)
    requires Inv(s)
    ensures Inv(WriteCommandPort(s, v, mask))
    ensures Feed(s, [v], mask) == WriteCommandPort(s, v, mask)
  {
    WriteCommandPortInv(s, v, mask);
    assert [v][1..] == [];
  }

  /** The state with opcode `c` pending and `args` queued. */
  function Pending(s: Sb, c: bv8, args: seq<bv8>): Sb
  {
    s.(dsp := s.dsp.(command := c, writeBuffer := args, commandSize := CommandSize(c)))
  }

  /** With no command pending, a byte becomes the opcode: a size-0 opcode runs at once, any other waits for its bytes. */
  lemma OpcodeStep(s: Sb, c: bv8, mask: seq<bool>)
    requires Inv(s) && s.dsp.command == NoCommand
    ensures CommandSize(c) == 0 ==> WriteCommandPort(s, c, mask) == CommandDo(Pending(s, c, []), mask)
    ensures CommandSize(c) > 0 ==> WriteCommandPort(s, c, mask) == Pending(s, c, [])
  {
  }

  /** With a command pending, a byte is queued, and the handler runs when the last one arrives. */
  lemma ArgumentStep(p: Sb, v: bv8, mask: seq<bool>)
    requires Inv(p) && p.dsp.command != NoCommand
    ensures |p.dsp.writeBuffer| + 1 < p.dsp.commandSize ==>
      WriteCommandPort(p, v, mask) == p.(dsp := p.dsp.(writeBuffer := p.dsp.writeBuffer + [v]))
    ensures |p.dsp.writeBuffer| + 1 == p.dsp.commandSize ==>
      WriteCommandPort(p, v, mask) == CommandDo(p.(dsp := p.dsp.(writeBuffer := p.dsp.writeBuffer + [v])), mask)
  {
  }

  /** While fewer than the opcode's size have arrived, bytes are only queued. */
  lemma {:induction false} ArgumentsQueue(s: Sb, c: bv8, args: seq<bv8>, mask: seq<bool>)
    requires Inv(s) && s.dsp.command == NoCommand && c != NoCommand
    requires |args| < CommandSize(c)
    ensures Inv(Pending(s, c, args))
    ensures Feed(s, [c] + args, mask) == Pending(s, c, args)
    decreases |args|
  {
    if args == [] {
      assert [c] + args == [c];
      OpcodeStep(s, c, mask);
      FeedOne(s, c, mask);
    } else {
      var init := args[..|args| - 1];
      var last := args[|args| - 1];
      assert args == init + [last];
      ArgumentsQueue(s, c, init, mask);
      assert [c] + args == ([c] + init) + [last];
      FeedConcat(s, [c] + init, [last], mask);
      FeedOne(Pending(s, c, init), last, mask);
      ArgumentStep(Pending(s, c, init), last, mask);
      assert Pending(s, c, init).(dsp := Pending(s, c, init).dsp.(writeBuffer := init + [last]))
        == Pending(s, c, args);
    }
  }

  /** A whole command, opcode `c` and its arguments `args`, written with no command pending. */
  function Run(s: Sb, c: bv8, args: seq<bv8>, mask: seq<bool>): (r: Sb)
    requires Inv(s) && s.dsp.command == NoCommand && |args| == CommandSize(c)
    ensures Inv(r) && r.dsp.command == NoCommand
  {
    ExecuteInv(Pending(s, c, args), mask);
    CommandDo(Pending(s, c, args), mask)
  }

  /**
   * Command framing: an opcode followed by exactly its table size of bytes runs
   * its handler on those bytes, once, and leaves no command pending.
   */
  lemma CommandFraming(s: Sb, c: bv8, args: seq<bv8>, mask: seq<bool>)
    requires Inv(s) && s.dsp.command == NoCommand
    requires |args| == CommandSize(c)
    ensures Feed(s, [c] + args, mask) == Run(s, c, args, mask)
  {
    if args == [] {
      assert [c] + args == [c];
      OpcodeStep(s, c, mask);
      FeedOne(s, c, mask);
    } else {
      var init := args[..|args| - 1];
      assert args == init + [args[|args| - 1]];
      LastArgument(s, c, init, args[|args| - 1], mask);
    }
  }

  /** The last argument byte of a command runs its handler. */
  lemma LastArgument(s: Sb, c: bv8, init: seq<bv8>, last: bv8, mask: seq<bool>)
    requires Inv(s) && s.dsp.command == NoCommand
    requires |init| + 1 == CommandSize(c)
    ensures Feed(s, [c] + (init + [last]), mask) == Run(s, c, init + [last], mask)
  {
    assert c != NoCommand;
    ArgumentsQueue(s, c, init, mask);
    assert [c] + (init + [last]) == ([c] + init) + [last];
    FeedConcat(s, [c] + init, [last], mask);
    FeedOne(Pending(s, c, init), last, mask);
    ArgumentStep(Pending(s, c, init), last, mask);
    assert Pending(s, c, init).(dsp := Pending(s, c, init).dsp.(writeBuffer := init + [last]))
      == Pending(s, c, init + [last]);
  }

  /** A stream of commands is the commands run one after another. */
  lemma CommandsCompose(s: Sb, c: bv8, args: seq<bv8>, rest: seq<bv8>, mask: seq<bool>)
    requires Inv(s) && s.dsp.command == NoCommand
    requires |args| == CommandSize(c)
    ensures Feed(s, [c] + args + rest, mask) == Feed(Run(s, c, args, mask), rest, mask)
  {
    FeedConcat(s, [c] + args, rest, mask);
    CommandFraming(s, c, args, mask);
  }

  /** 0xE4: the byte becomes the test register. */
  lemma WriteTestStores(s: Sb, value: bv8, mask: seq<bool>)
    requires Inv(s) && s.dsp.command == NoCommand
    ensures Run(s, 0xE4, [value], mask) == s.(dsp := s.dsp.(testRegister := value))
  {
    assert HandlerOf(0xE4) == WriteTest;
  }

  /** 0xE8: answer the test register. */
  lemma ReadTestAnswers(s: Sb, mask: seq<bool>)
    requires Inv(s) && s.dsp.command == NoCommand
    ensures Run(s, 0xE8, [], mask) == s.(dsp := s.dsp.(readBuffer := [s.dsp.testRegister]))
  {
    assert HandlerOf(0xE8) == ReadTest;
  }

  /** 0xE4 then 0xE8: the test register reads back the byte written. */
  lemma TestRegisterReadBack(s: Sb, value: bv8, mask: seq<bool>)
    requires Inv(s) && s.dsp.command == NoCommand
    ensures Run(Run(s, 0xE4, [value], mask), 0xE8, [], mask).dsp.readBuffer == [value]
  {
    WriteTestStores(s, value, mask);
    ReadTestAnswers(Run(s, 0xE4, [value], mask), mask);
  }

  /** 0x41/0x42: the output rate is the two bytes, high byte first. */
  lemma SamplingRateBytes(s: Sb, c: bv8, hi: bv8, lo: bv8, mask: seq<bool>)
    requires Inv(s) && s.dsp.command == NoCommand && (c == 0x41 || c == 0x42)
    ensures var r := Run(s, c, [hi, lo], mask);
      r.dsp.samplingRate == Hz(hi as nat * 256 + lo as nat) &&
      r.events == s.events + [TellSamplingRate(r.dsp.samplingRate)]
  {
    assert HandlerOf(c) == SetRate;
  }

  /** 0x48: the block transfer size is one more than the two bytes, low byte first. */
  lemma BlockSizeBytes(s: Sb, lo: bv8, hi: bv8, mask: seq<bool>)
    requires Inv(s) && s.dsp.command == NoCommand
    ensures Run(s, 0x48, [lo, hi], mask).dma.sampleCount == 1 + lo as nat + 256 * hi as nat
  {
    assert HandlerOf(0x48) == SetBlockSize;
  }

  /** 0xE0: DSP identification answers the complement of its argument. */
  lemma IdentifyComplements(s: Sb, value: bv8, mask: seq<bool>)
    requires Inv(s) && s.dsp.command == NoCommand
    ensures Run(s, 0xE0, [value], mask).dsp.readBuffer == [!value]
    ensures (Run(s, 0xE0, [value], mask).dsp.readBuffer[0] as nat) + (value as nat) == 0xFF
  {
    assert HandlerOf(0xE0) == Identify && CommandSize(0xE0) == 1;
    var p := Pending(s, 0xE0, [value]);
    assert Execute(p, mask) == Handle(p, Identify, mask);
    ComplementSum(value);
  }

  lemma ComplementSum(b: bv8)
    ensures (!b) as nat + b as nat == 0xFF
  {
  }

  /** 0x0E then 0x0F: an ASP register reads back what was stored in it. */
  lemma AspReadBack(s: Sb, index: bv8, value: bv8, mask: seq<bool>)
    requires Inv(s) && s.dsp.command == NoCommand
    ensures Run(Run(s, 0x0E, [index, value], mask), 0x0F, [index], mask).dsp.readBuffer == [value]
  {
  }

  /** 0x14: an 8-bit single-cycle transfer of `1 + lo + 256 * hi` one-byte samples on the 8-bit channel. */
  lemma SingleCycle8Bit(s: Sb, lo: bv8, hi: bv8, mask: seq<bool>)
    requires Inv(s) && s.dsp.command == NoCommand
    ensures var r := Run(s, 0x14, [lo, hi], mask);
      && r.dma.channel == s.dma.channel8 && r.dma.irqKind == Irq8Bit && !r.dma.autoinit && !r.dsp.sixteenBit
      && r.dma.bytesPerSample == 1 && r.dma.bytesCount == 1 + lo as nat + 256 * hi as nat
      && r.dma.bytesBlock == BlockSize(r.dma.bytesCount, 1)
      && (Masked(mask, s.dma.channel8) <==> r.dma.waiting)
  {
    TransferStartSizing(SizeSet(Dma8Setup(Pending(s, 0x14, [lo, hi]), false, false), 0), mask);
  }

  // ---------------------------------------------------------------------------
  // DSP reset and the DSP ports
  // ---------------------------------------------------------------------------

  /** The ASP registers after `dsp_reset`. */
  function AspReset(): (r: seq<bv8>)
    ensures |r| == 256 && r[5] == 0x01 && r[9] == 0xF8
    ensures forall i :: 0 <= i < 256 && i != 5 && i != 9 ==> r[i] == 0
  {
    seq(256, i => if i == 5 then 0x01 else if i == 9 then 0xF8 else 0)
  }

  /** `dsp_reset`. The mixer, the mixer address, the DMA channel choices, the MPU queue and the IRQ number survive. */
  function DspReset(s: Sb): Sb
    requires |s.irqTriggered| == 16
  {
    var lowered := LowerIrq(s, Irq8Bit);
    lowered.(
      dsp := Dsp(writeBuffer := [], readBuffer := [], readLast := s.dsp.readLast,
                 command := NoCommand, commandSize := 0, speakerOn := false, testRegister := 0,
                 highspeed := false, stereo := false, sixteenBit := false, signed := false,
                 samplingRate := DefaultRate, e2Value := 0xAA, e2Count := 0, asp := AspReset()),
      dma := Transfer(sampleCount := 0, bytesCount := 0, bytesLeft := 0, bytesBlock := 0,
                      bytesPerSample := 1, irqKind := 0, channel := 0,
                      channel8 := s.dma.channel8, channel16 := s.dma.channel16,
                      autoinit := false, waiting := false, paused := false),
      irqTriggered := seq(16, _ => false))
  }

  lemma DspResetInv(s: Sb)
    requires |s.irqTriggered| == 16 && MixerInv(s.mixer) && |s.mpu.buffer| <= DspBufSize
    ensures Inv(DspReset(s))
  {
  }

  /** The `read_buffer` holds `[0xAA]` after any reset-port write; highspeed mode is only left, a nonzero value resets. */
  function WriteResetPort(s: Sb, value: bv8): (r: Sb)
    requires |s.irqTriggered| == 16
    ensures r.dsp.readBuffer == [0xAA]
  {
    var s1 := if s.dsp.highspeed then s.(dsp := s.dsp.(highspeed := false))
      else if value != 0 then DspReset(s) else s;
    s1.(dsp := s1.dsp.(readBuffer := [0xAA]))
  }

  lemma WriteResetPortCases(s: Sb, value: bv8)
    requires Inv(s)
    ensures Inv(WriteResetPort(s, value))
    ensures s.dsp.highspeed ==>
      WriteResetPort(s, value) == s.(dsp := s.dsp.(highspeed := false, readBuffer := [0xAA]))
    ensures !s.dsp.highspeed && value == 0 ==>
      WriteResetPort(s, value) == s.(dsp := s.dsp.(readBuffer := [0xAA]))
    ensures !s.dsp.highspeed && value != 0 ==>
      var r := WriteResetPort(s, value);
      && r.dsp.command == NoCommand && r.dsp.writeBuffer == [] && r.dma.bytesLeft == 0 && !r.dma.waiting
      && r.mixer == s.mixer && r.irq == s.irq && r.events == s.events + [LowerLine(s.irq)]
      && (forall i :: 0 <= i < 16 ==> !r.irqTriggered[i])
  {
    if !s.dsp.highspeed && value != 0 {
      DspResetInv(s);
    }
  }

  /** `port2xA_read`: the next DSP byte, or the last one again when none is waiting. */
  function ReadDataPort(s: Sb): (r: (bv8, Sb))
    ensures Inv(s) ==> Inv(r.1)
  {
    if |s.dsp.readBuffer| > 0 then
      (s.dsp.readBuffer[0], s.(dsp := s.dsp.(readBuffer := s.dsp.readBuffer[1..], readLast := s.dsp.readBuffer[0])))
    else (s.dsp.readLast, s)
  }

  lemma ReadDataPortCases(s: Sb)
    ensures |s.dsp.readBuffer| > 0 ==>
      ReadDataPort(s).0 == s.dsp.readBuffer[0] && ReadDataPort(s).1.dsp.readBuffer == s.dsp.readBuffer[1..]
    ensures |s.dsp.readBuffer| == 0 ==> ReadDataPort(s) == (s.dsp.readLast, s)
    ensures ReadDataPort(ReadDataPort(s).1).0 ==
      (if |s.dsp.readBuffer| > 1 then s.dsp.readBuffer[1] else ReadDataPort(s).0)
  {
  }

  /** `port2xE_read`: acknowledge a raised 8-bit interrupt; bit 7 says data is ready (never in highspeed mode). */
  function ReadStatusPort(s: Sb): (r: (bv8, Sb))
    requires |s.irqTriggered| == 16
    ensures Inv(s) ==> Inv(r.1)
  {
    var s1 := if s.irqTriggered[Irq8Bit] then LowerIrq(s, Irq8Bit) else s;
    ((if |s.dsp.readBuffer| > 0 && !s.dsp.highspeed then 0x80 else 0) | 0x7F, s1)
  }

  lemma ReadStatusPortCases(s: Sb)
    requires |s.irqTriggered| == 16
    ensures ReadStatusPort(s).0 & 0x7F == 0x7F
    ensures ReadStatusPort(s).0 & 0x80 != 0 <==> |s.dsp.readBuffer| > 0 && !s.dsp.highspeed
    ensures s.irqTriggered[Irq8Bit] ==>
      ReadStatusPort(s).1 == s.(irqTriggered := s.irqTriggered[Irq8Bit := false],
                                events := s.events + [LowerLine(s.irq)])
    ensures !s.irqTriggered[Irq8Bit] ==> ReadStatusPort(s).1 == s
  {
  }

  /** `port2xF_read`: acknowledge the 16-bit interrupt, unconditionally. */
  function Ack16Port(s: Sb): (r: (bv8, Sb))
    requires |s.irqTriggered| == 16
    ensures Inv(s) ==> Inv(r.1)
  {
    (0, LowerIrq(s, Irq16Bit))
  }

  /** `port3x0_read`: the next MPU byte, or the last one again. */
  function ReadMpuData(s: Sb): (r: (bv8, Sb))
    ensures Inv(s) ==> Inv(r.1)
  {
    if |s.mpu.buffer| > 0 then (s.mpu.buffer[0], s.(mpu := Mpu(s.mpu.buffer[1..], s.mpu.buffer[0])))
    else (s.mpu.last, s)
  }

  /** `port3x1_read`: bit 7 is set when no MPU byte is waiting; output is always ready (bit 6 clear). */
  function ReadMpuStatus(s: Sb): bv8
  {
    if |s.mpu.buffer| == 0 then 0x80 else 0
  }

  /** `port3x1_write`: the MPU reset command 0xFF is acknowledged with 0xFE. */
  function WriteMpuCommand(s: Sb, value: bv8): (r: Sb)
    ensures Inv(s) ==> Inv(r)
  {
    if value == 0xFF then s.(mpu := s.mpu.(buffer := [0xFE])) else s
  }

  /** `port2x4_write`: select the mixer register the data port reads and writes. */
  function WriteMixerAddress(s: Sb, value: bv8): (r: Sb)
    ensures Inv(s) ==> Inv(r)
    ensures r.mixer.address == value as nat && r.(mixer := s.mixer) == s
  {
    s.(mixer := s.mixer.(address := value as nat))
  }

  lemma MpuAcknowledge(s: Sb)
    ensures ReadMpuStatus(WriteMpuCommand(s, 0xFF)) == 0
    ensures ReadMpuData(WriteMpuCommand(s, 0xFF)).0 == 0xFE
    ensures ReadMpuStatus(ReadMpuData(WriteMpuCommand(s, 0xFF)).1) == 0x80
    ensures forall v: bv8 :: v != 0xFF ==> WriteMpuCommand(s, v) == s
  {
  }

  // ---------------------------------------------------------------------------
  // The CT1745 mixer
  // ---------------------------------------------------------------------------

  /** `MIXER_REGISTER_IS_LEGACY`: the SB Pro registers that alias pairs of SB16 registers. */
  predicate IsLegacy(a: nat)
  {
    a == 0x04 || a == 0x22 || a == 0x26 || a == 0x28 || a == 0x2E
  }

  /** The left and right SB16 registers a legacy register maps its two nibbles to. */
  function LegacyTargets(a: nat): (t: (nat, nat))
    requires IsLegacy(a)
    ensures t.0 < 256 && t.1 < 256 && t.0 != t.1 && !IsLegacy(t.0) && !IsLegacy(t.1)
    ensures t.0 != a && t.1 != a
  {
    if a == 0x04 then (0x32, 0x33)
    else if a == 0x22 then (0x30, 0x31)
    else if a == 0x26 then (0x34, 0x35)
    else if a == 0x28 then (0x36, 0x37)
    else (0x38, 0x39)
  }

  /** `X - (X < 16 ? 14 : 16)` with `X = data >>> 3`, the treble and bass levels. */
  function ToneLevel(data: bv8): int
  {
    var x := (data >> 3) as int;
    x - (if x < 16 then 14 else 16)
  }

  /** The message a write to 0x44-0x47 sends, as the source has it: 0x46 (bass left) sends the bass-right message. */
  function ToneEventAsWritten(a: nat, data: bv8): Event
    requires 0x44 <= a <= 0x47
  {
    if a == 0x44 then TrebleLeft(ToneLevel(data))
    else if a == 0x45 then TrebleRight(ToneLevel(data))
    else BassRight(ToneLevel(data))
  }

  /** The message a write to 0x44-0x47 sends, 0x46 corrected to bass left. */
  function ToneEvent(a: nat, data: bv8): Event
    requires 0x44 <= a <= 0x47
  {
    if a == 0x44 then TrebleLeft(ToneLevel(data))
    else if a == 0x45 then TrebleRight(ToneLevel(data))
    else if a == 0x46 then BassLeft(ToneLevel(data))
    else BassRight(ToneLevel(data))
  }

  /** As written, the bass-left and bass-right registers send the same message for the same value. */
  lemma BassLeftAsWritten(data: bv8)
    ensures ToneEventAsWritten(0x46, data) == ToneEventAsWritten(0x47, data)
  {
  }

  /** Corrected, each of the four tone registers sends a message only it sends. */
  lemma ToneEventsDistinct(a: nat, b: nat, x: bv8, y: bv8)
    requires 0x44 <= a <= 0x47 && 0x44 <= b <= 0x47 && a != b
    ensures ToneEvent(a, x) != ToneEvent(b, y)
    ensures ToneEvent(a, x).db == ToneLevel(x)
  {
  }

  /** `ToneLevel` spans -14..+15 dB: 0..15 map to -14..1 and 16..31 to 0..15. */
  lemma ToneLevelRange(data: bv8)
    ensures -14 <= ToneLevel(data) <= 15
  {
  }

  /**
   * The bus messages the write handler of a non-legacy register sends for
   * `data`: volumes 0x30-0x33 and 0x3B, gains 0x41/0x42, tone 0x44-0x47.
   */
  function RegisterEvents(a: nat, data: bv8): (r: seq<Event>)
    ensures |r| <= 1
    // Every tone register but 0x46 sends its as-written message; 0x46 sends bass left at the same level.
    ensures 0x44 <= a <= 0x47 && a != 0x46 ==> r == [ToneEventAsWritten(a, data)]
    ensures a == 0x46 ==> r == [BassLeft(ToneEventAsWritten(a, data).db)]
  {
    if a == 0x30 then [MixerVolume(Master, Left, VolumeLevel(data))]
    else if a == 0x31 then [MixerVolume(Master, Right, VolumeLevel(data))]
    else if a == 0x32 then [MixerVolume(Dac, Left, VolumeLevel(data))]
    else if a == 0x33 then [MixerVolume(Dac, Right, VolumeLevel(data))]
    else if a == 0x3B then [MixerVolume(PcSpeaker, Both, GainLevel(data) - 18)]
    else if a == 0x41 then [GainLeft(GainLevel(data))]
    else if a == 0x42 then [GainRight(GainLevel(data))]
    else if 0x44 <= a <= 0x47 then [ToneEvent(a, data)]
    else []
  }

  /** `(data >>> 2) - 62`: the volume registers' five-bit level in dB, -62..0 (-62..+1 with bit 1 set). */
  function VolumeLevel(data: bv8): int
  {
    (data >> 2) as int - 62
  }

  /** `(data >>> 6) * 6`: a two-bit gain in dB. */
  function GainLevel(data: bv8): int
  {
    (data >> 6) as int * 6
  }

  /** The registers whose write handler stores the value (besides 0x00, whose default handler stores at the current address). */
  predicate StoresValue(a: nat)
  {
    (0x30 <= a <= 0x33) || a == 0x3B || a == 0x41 || a == 0x42 || (0x44 <= a <= 0x47)
  }

  /** Mixer 0x80 write: the one-hot IRQ choice; with several bits the highest IRQ wins. */
  function IrqSelect(irq: nat, bits: bv8): nat
  {
    if bits & 8 != 0 then 10
    else if bits & 4 != 0 then 7
    else if bits & 2 != 0 then 5
    else if bits & 1 != 0 then 2
    else irq
  }

  /** Mixer 0x80 read. */
  function IrqSelectBits(irq: nat): bv8
  {
    if irq == 2 then 1 else if irq == 5 then 2 else if irq == 7 then 4 else if irq == 10 then 8 else 0
  }

  lemma IrqSelectReadBack(irq: nat, bits: bv8)
    ensures bits in {1, 2, 4, 8} ==> IrqSelectBits(IrqSelect(irq, bits)) == bits
    ensures irq in {2, 5, 7, 10} ==> IrqSelect(0, IrqSelectBits(irq)) == irq
    ensures bits & 0x0F == 0 ==> IrqSelect(irq, bits) == irq
  {
  }

  /** Mixer 0x81 write, 8-bit half: DMA 0, 1 or 3. */
  function Channel8Select(channel: nat, bits: bv8): nat
  {
    if bits & 8 != 0 then 3 else if bits & 2 != 0 then 1 else if bits & 1 != 0 then 0 else channel
  }

  /** Mixer 0x81 write, 16-bit half: DMA 5, 6 or 7. */
  function Channel16Select(channel: nat, bits: bv8): nat
  {
    if bits & 0x80 != 0 then 7 else if bits & 0x40 != 0 then 6 else if bits & 0x20 != 0 then 5 else channel
  }

  /**
   * Mixer 0x81 read. The 8-bit channel is optional because the source never
   * initialises `dma_channel_8bit`: `None` stands for its `undefined`.
   */
  function DmaSelectBits(channel8: Option<nat>, channel16: nat): bv8
  {
    var low: bv8 := match channel8
      case Some(c) => if c == 0 then 1 else if c == 1 then 2 else if c == 3 then 8 else 0
      case None => 0;
    var high: bv8 := if channel16 == 5 then 0x20 else if channel16 == 6 then 0x40
      else if channel16 == 7 then 0x80 else 0;
    low | high
  }

  lemma DmaSelectReadBack(c8: nat, c16: nat, low: bv8, high: bv8)
    requires low in {1, 2, 8} && high in {0x20, 0x40, 0x80}
    ensures DmaSelectBits(Some(Channel8Select(c8, low | high)), Channel16Select(c16, low | high)) == low | high
  {
  }

  /** What the constructor leaves in `dma_channel_8bit`: nothing, so mixer 0x81 reports no 8-bit channel. */
  lemma DmaSelectAsConstructed()
    ensures DmaSelectBits(None, DefaultChannel16) == 0x20
    ensures DmaSelectBits(None, DefaultChannel16) & 0x0B == 0
  {
  }

  /** `ret |= i * irq_triggered[i]` over the first `n` flags, starting from 0x20. */
  function IrqStatusBits(t: seq<bool>, n: nat): bv8
    requires n <= |t| && |t| <= 16
  {
    if n == 0 then 0x20
    else IrqStatusBits(t, n - 1) | (if t[n - 1] then (n - 1) as bv8 else 0)
  }

  /** With only flags 0-2 ever raised, mixer 0x82 reports the 8-bit flag in bit 0 and the 16-bit flag in bit 1. */
  lemma {:induction false} IrqStatusFlags(t: seq<bool>, n: nat)
    requires 3 <= n <= 16 && FlagsInv(t)
    ensures IrqStatusBits(t, n) ==
      0x20 | (if t[Irq8Bit] then 1 else 0) | (if t[Irq16Bit] then 2 else 0)
  {
    if n > 3 {
      IrqStatusFlags(t, n - 1);
      assert !t[n - 1];
    } else {
      assert IrqStatusBits(t, 1) == 0x20;
      assert IrqStatusBits(t, 2) == 0x20 | (if t[1] then 1 else 0);
      assert IrqStatusBits(t, 3) == IrqStatusBits(t, 2) | (if t[2] then 2 else 0);
    }
  }

  /** The handler of a non-legacy register: `mixer_write` for every address but the legacy ones. */
  function RegisterWrite(s: Sb, a: nat, data: bv8): (r: Sb)
    requires MixerInv(s.mixer) && a < 256
    ensures MixerInv(r.mixer) && r.mixer.address == s.mixer.address
  {
    if a == 0x00 then s.(mixer := s.mixer.(regs := s.mixer.regs[s.mixer.address := data]))
    else if StoresValue(a) then
      s.(mixer := s.mixer.(regs := s.mixer.regs[a := data]), events := s.events + RegisterEvents(a, data))
    else if a == 0x80 then s.(irq := IrqSelect(s.irq, data))
    else if a == 0x81 then s.(dma := s.dma.(channel8 := Channel8Select(s.dma.channel8, data),
                                           channel16 := Channel16Select(s.dma.channel16, data)))
    else s
  }

  /** `mixer_write`: a legacy register stores the value and moves its nibbles into the high halves of its two targets. */
  function MixerWrite(s: Sb, a: nat, data: bv8): Sb
    requires MixerInv(s.mixer) && a < 256
  {
    if IsLegacy(a) then
      var (l, r) := LegacyTargets(a);
      var s1 := s.(mixer := s.mixer.(regs := s.mixer.regs[a := data]));
      var left := (data & 0xF0) | (s1.mixer.regs[l] & 0x0F);
      var right := ((data << 4) & 0xF0) | (s1.mixer.regs[r] & 0x0F);
      RegisterWrite(RegisterWrite(s1, l, left), r, right)
    else RegisterWrite(s, a, data)
  }

  /** The read handler of a legacy register. */
  function LegacyRead(m: seq<bv8>, a: nat): bv8
    requires |m| == 256 && IsLegacy(a)
  {
    (m[LegacyTargets(a).0] & 0xF0) | (m[LegacyTargets(a).1] >> 4)
  }

  lemma LegacyNibbles(v: bv8, pl: bv8, pr: bv8)
    ensures ((((v & 0xF0) | (pl & 0x0F)) & 0xF0) | ((((v << 4) & 0xF0) | (pr & 0x0F)) >> 4)) == v
    ensures ((v & 0xF0) | (pl & 0x0F)) & 0x0F == pl & 0x0F
    ensures (((v << 4) & 0xF0) | (pr & 0x0F)) & 0x0F == pr & 0x0F
  {
  }

  /** The registers after a legacy write of `v` to `a`: the value itself and the two high nibbles it sets. */
  function LegacyWritten(m0: seq<bv8>, a: nat, v: bv8): (m: seq<bv8>)
    requires |m0| == 256 && IsLegacy(a)
    ensures |m| == 256
  {
    var (l, r) := LegacyTargets(a);
    m0[a := v][l := (v & 0xF0) | (m0[l] & 0x0F)][r := ((v << 4) & 0xF0) | (m0[r] & 0x0F)]
  }

  /** A legacy write to 0x04 or 0x22 reads back the value written; the old low nibbles of the targets stay. */
  lemma LegacyRoundTrip(s: Sb, a: nat, v: bv8)
    requires MixerInv(s.mixer) && (a == 0x04 || a == 0x22)
    ensures var m := MixerWrite(s, a, v).mixer.regs;
      LegacyRead(m, a) == v && m[a] == v &&
      m[LegacyTargets(a).0] & 0x0F == s.mixer.regs[LegacyTargets(a).0] & 0x0F &&
      m[LegacyTargets(a).1] & 0x0F == s.mixer.regs[LegacyTargets(a).1] & 0x0F
  {
    LegacyWriteRegs(s, a, v);
    LegacyRegsRoundTrip(s.mixer.regs, a, v);
  }

  /** The register-level half of the round trip. */
  lemma LegacyRegsRoundTrip(m0: seq<bv8>, a: nat, v: bv8)
    requires |m0| == 256 && (a == 0x04 || a == 0x22)
    ensures var m := LegacyWritten(m0, a, v);
      LegacyRead(m, a) == v && m[a] == v &&
      m[LegacyTargets(a).0] & 0x0F == m0[LegacyTargets(a).0] & 0x0F &&
      m[LegacyTargets(a).1] & 0x0F == m0[LegacyTargets(a).1] & 0x0F
  {
    if a == 0x04 {
      LegacyNibbles(v, m0[0x32], m0[0x33]);
    } else {
      LegacyNibbles(v, m0[0x30], m0[0x31]);
    }
  }

  /** What a legacy write to 0x04 or 0x22 leaves in the registers. */
  lemma LegacyWriteRegs(s: Sb, a: nat, v: bv8)
    requires MixerInv(s.mixer) && (a == 0x04 || a == 0x22)
    ensures MixerWrite(s, a, v).mixer.regs == LegacyWritten(s.mixer.regs, a, v)
  {
    var (l, r) := LegacyTargets(a);
    var s1 := s.(mixer := s.mixer.(regs := s.mixer.regs[a := v]));
    var left := (v & 0xF0) | (s1.mixer.regs[l] & 0x0F);
    var right := ((v << 4) & 0xF0) | (s1.mixer.regs[r] & 0x0F);
    assert s1.mixer.regs[l] == s.mixer.regs[l] && s1.mixer.regs[r] == s.mixer.regs[r];
    var s2 := RegisterWrite(s1, l, left);
    StoringWrite(s1, l, left);
    StoringWrite(s2, r, right);
    assert MixerWrite(s, a, v).mixer.regs == RegisterWrite(s2, r, right).mixer.regs;
  }

  /** A register with a storing handler keeps the value written. */
  lemma StoringWrite(s: Sb, a: nat, data: bv8)
    requires MixerInv(s.mixer) && a < 256 && StoresValue(a)
    ensures RegisterWrite(s, a, data).mixer.regs == s.mixer.regs[a := data]
  {
  }

  /**
   * A legacy write to 0x26, 0x28 or 0x2E stores the value but its targets have
   * no write handler, so the legacy read still answers from the old targets.
   */
  lemma LegacyUnmapped(s: Sb, a: nat, v: bv8)
    requires MixerInv(s.mixer) && (a == 0x26 || a == 0x28 || a == 0x2E)
    ensures MixerWrite(s, a, v) == s.(mixer := s.mixer.(regs := s.mixer.regs[a := v]))
    ensures LegacyRead(MixerWrite(s, a, v).mixer.regs, a) == LegacyRead(s.mixer.regs, a)
  {
  }

  /** One step of `mixer_full_update`: rewrite register `i` with its own value, unless it is legacy. */
  function UpdateStep(s: Sb, i: nat): Sb
    requires MixerInv(s.mixer) && 0 < i < 256
  {
    if IsLegacy(i) then s else RegisterWrite(s, i, s.mixer.regs[i])
  }

  /** `mixer_full_update` up to (excluding) register `n`, starting at 1. */
  function UpdateThrough(s: Sb, n: nat): (r: Sb)
    requires MixerInv(s.mixer) && n <= 256
    ensures MixerInv(r.mixer) && r.mixer.address == s.mixer.address
  {
    if n <= 1 then s else UpdateStep(UpdateThrough(s, n - 1), n - 1)
  }

  /** The messages of rewriting registers 1..n-1 of `m`, in order. */
  function UpdateEvents(m: seq<bv8>, n: nat): seq<Event>
    requires |m| == 256 && n <= 256
  {
    if n <= 1 then [] else UpdateEvents(m, n - 1) + (if IsLegacy(n - 1) then [] else RegisterEvents(n - 1, m[n - 1]))
  }

  /** `mixer_full_update`. */
  function FullUpdate(s: Sb): Sb
    requires MixerInv(s.mixer)
  {
    UpdateThrough(s, 256)
  }

  /** One rewrite of register `i` with its own value. */
  lemma UpdateStepEffect(p: Sb, i: nat)
    requires MixerInv(p.mixer) && 0 < i < 256
    ensures UpdateStep(p, i) == p.(
      events := p.events + (if IsLegacy(i) then [] else RegisterEvents(i, p.mixer.regs[i])),
      irq := if i == 0x80 then IrqSelect(p.irq, p.mixer.regs[0x80]) else p.irq,
      dma := if i == 0x81 then p.dma.(channel8 := Channel8Select(p.dma.channel8, p.mixer.regs[0x81]),
                                      channel16 := Channel16Select(p.dma.channel16, p.mixer.regs[0x81]))
             else p.dma)
  {
    if StoresValue(i) {
      assert p.mixer.regs[i := p.mixer.regs[i]] == p.mixer.regs;
    } else if !IsLegacy(i) && i != 0x80 && i != 0x81 {
      assert RegisterEvents(i, p.mixer.regs[i]) == [];
    }
  }

  /**
   * Rewriting registers 1..n-1 with their own values changes no register; it
   * sends each non-legacy register's messages in address order and re-applies
   * the IRQ and DMA choices held in 0x80 and 0x81.
   */
  lemma {:induction false} UpdateThroughEffect(s: Sb, n: nat)
    requires MixerInv(s.mixer) && n <= 256
    ensures UpdateThrough(s, n) == s.(
      events := s.events + UpdateEvents(s.mixer.regs, n),
      irq := if n > 0x80 then IrqSelect(s.irq, s.mixer.regs[0x80]) else s.irq,
      dma := if n > 0x81 then s.dma.(channel8 := Channel8Select(s.dma.channel8, s.mixer.regs[0x81]),
                                     channel16 := Channel16Select(s.dma.channel16, s.mixer.regs[0x81]))
             else s.dma)
  {
    if n > 1 {
      UpdateThroughEffect(s, n - 1);
      UpdateStepEffect(UpdateThrough(s, n - 1), n - 1);
    }
  }

  lemma FullUpdateEffect(s: Sb)
    requires MixerInv(s.mixer)
    ensures FullUpdate(s) == s.(
      events := s.events + UpdateEvents(s.mixer.regs, 256),
      irq := IrqSelect(s.irq, s.mixer.regs[0x80]),
      dma := s.dma.(channel8 := Channel8Select(s.dma.channel8, s.mixer.regs[0x81]),
                    channel16 := Channel16Select(s.dma.channel16, s.mixer.regs[0x81])))
  {
    UpdateThroughEffect(s, 256);
  }

  /** The register values `mixer_reset` writes. */
  function MixerDefaults(m: seq<bv8>): (r: seq<bv8>)
    requires |m| == 256
    ensures |r| == 256
  {
    m[0x04 := 0xCC][0x22 := 0xCC][0x26 := 0xCC][0x28 := 0][0x2E := 0][0x0A := 0]
     [0x30 := 0xC0][0x31 := 0xC0][0x32 := 0xC0][0x33 := 0xC0][0x34 := 0xC0][0x35 := 0xC0]
     [0x36 := 0][0x37 := 0][0x38 := 0][0x39 := 0][0x3B := 0]
     [0x3C := 0x1F][0x3D := 0x15][0x3E := 0x0B][0x3F := 0][0x40 := 0]
     [0x41 := 0][0x42 := 0][0x43 := 0][0x44 := 0x80][0x45 := 0x80][0x46 := 0x80][0x47 := 0x80]
  }

  /** After the defaults, every legacy register reads back the value the reset stored in it. */
  lemma LegacyDefaultsConsistent(m: seq<bv8>, a: nat)
    requires |m| == 256 && IsLegacy(a)
    ensures LegacyRead(MixerDefaults(m), a) == MixerDefaults(m)[a]
  {
  }

  /** `mixer_reset`: store the defaults, then replay every register. */
  function MixerReset(s: Sb): Sb
    requires MixerInv(s.mixer)
  {
    FullUpdate(s.(mixer := s.mixer.(regs := MixerDefaults(s.mixer.regs))))
  }

  /** `mixer_read`; reading register 0x00 resets the mixer and answers 0. */
  function MixerRead(s: Sb, a: nat): (r: (bv8, Sb))
    requires MixerInv(s.mixer) && a < 256 && |s.irqTriggered| == 16
  {
    if a == 0x00 then (0, MixerReset(s))
    else if IsLegacy(a) then (LegacyRead(s.mixer.regs, a), s)
    else if StoresValue(a) then (s.mixer.regs[s.mixer.address], s)
    else if a == 0x80 then (IrqSelectBits(s.irq), s)
    else if a == 0x81 then (DmaSelectBits(Some(s.dma.channel8), s.dma.channel16), s)
    else if a == 0x82 then (IrqStatusBits(s.irqTriggered, 16), s)
    else (s.mixer.regs[a], s)
  }

  /** `port2x5_write` followed by `port2x5_read` at the same address: the readable registers read back. */
  lemma MixerWriteReadBack(s: Sb, v: bv8)
    requires Inv(s) && s.mixer.address != 0 && s.mixer.address != 0x80 && s.mixer.address != 0x81
    requires s.mixer.address != 0x82 && !IsLegacy(s.mixer.address)
    ensures MixerRead(MixerWrite(s, s.mixer.address, v), s.mixer.address).0 ==
      (if StoresValue(s.mixer.address) then v else s.mixer.regs[s.mixer.address])
  {
  }

  lemma MixerResetState(s: Sb)
    requires Inv(s)
    ensures Inv(MixerReset(s))
    ensures MixerReset(s).mixer.regs == MixerDefaults(s.mixer.regs)
    ensures MixerReset(s).events == s.events + UpdateEvents(MixerDefaults(s.mixer.regs), 256)
    ensures MixerReset(s).dsp == s.dsp && MixerReset(s).dma.bytesLeft == s.dma.bytesLeft
  {
    FullUpdateEffect(s.(mixer := s.mixer.(regs := MixerDefaults(s.mixer.regs))));
  }

  lemma RegisterWriteInv(s: Sb, a: nat, data: bv8)
    requires Inv(s) && a < 256
    ensures Inv(RegisterWrite(s, a, data))
  {
  }

  lemma MixerWriteInv(s: Sb, a: nat, data: bv8)
    requires Inv(s) && a < 256
    ensures Inv(MixerWrite(s, a, data))
  {
    if IsLegacy(a) {
      var (l, r) := LegacyTargets(a);
      var s1 := s.(mixer := s.mixer.(regs := s.mixer.regs[a := data]));
      var left := (data & 0xF0) | (s1.mixer.regs[l] & 0x0F);
      var right := ((data << 4) & 0xF0) | (s1.mixer.regs[r] & 0x0F);
      RegisterWriteInv(s1, l, left);
      RegisterWriteInv(RegisterWrite(s1, l, left), r, right);
    } else {
      RegisterWriteInv(s, a, data);
    }
  }

  lemma MixerReadInv(s: Sb, a: nat)
    requires Inv(s) && a < 256
    ensures Inv(MixerRead(s, a).1)
  {
    if a == 0 {
      MixerResetState(s);
    }
  }

  // ---------------------------------------------------------------------------
  // Construction
  // ---------------------------------------------------------------------------

  /**
   * The fields the constructor sets before it calls `dsp_reset`. The mixer holds
   * its defaults: the constructor's `mixer_reset` runs before any mixer handler
   * is registered, so its full update sends nothing.
   */
  function Constructed(): Sb
  {
    Sb(
      dsp := Dsp(writeBuffer := [], readBuffer := [], readLast := 0,
                 command := NoCommand, commandSize := 0, speakerOn := false, testRegister := 0,
                 highspeed := false, stereo := false, sixteenBit := false, signed := false,
                 samplingRate := DefaultRate, e2Value := 0xAA, e2Count := 0, asp := seq(256, _ => 0)),
      dma := Transfer(sampleCount := 0, bytesCount := 0, bytesLeft := 0, bytesBlock := 0,
                      bytesPerSample := 1, irqKind := 0, channel := DefaultChannel8,
                      channel8 := DefaultChannel8, channel16 := DefaultChannel16,
                      autoinit := false, waiting := false, paused := false),
      mixer := Mixer(address := 0, regs := MixerDefaults(seq(256, _ => 0))),
      mpu := Mpu(buffer := [], last := 0),
      irq := DefaultIrq, irqTriggered := seq(16, _ => false),
      events := [TellSamplingRate(DefaultRate), SpeakerConfirmInitialized])
  }

  /** A new SB16. */
  function Initial(): Sb
  {
    DspReset(Constructed())
  }

  lemma InitialState()
    ensures Inv(Initial())
    ensures Initial().dma.channel == 0 && Initial().irq == DefaultIrq
    ensures MixerRead(Initial(), 0x81).0 == 0x22
    ensures MixerRead(Initial(), 0x80).0 == 0x02
    ensures MixerRead(Initial(), 0x82).0 == 0x20
    ensures Initial().events == [TellSamplingRate(DefaultRate), SpeakerConfirmInitialized, LowerLine(DefaultIrq)]
  {
    DspResetInv(Constructed());
    IrqStatusFlags(Initial().irqTriggered, 16);
  }

  // ---------------------------------------------------------------------------
  // Invariant preservation of the remaining operations
  // ---------------------------------------------------------------------------

  lemma OnUnmaskInv(s: Sb, channel: nat)
    requires Inv(s)
    ensures Inv(OnUnmask(s, channel))
  {
  }

  lemma DacRequestInv(s: Sb, failed: bool)
    requires Inv(s)
    ensures Inv(DacRequest(s, failed))
  {
    if s.dma.bytesLeft != 0 && !s.dma.paused && !failed {
      var s1 := s.(dma := s.dma.(bytesLeft := s.dma.bytesLeft - Min(s.dma.bytesLeft, s.dma.bytesBlock)));
      assert Inv(s1);
      if s1.dma.bytesLeft == 0 {
        assert Inv(RaiseIrq(s1, s1.dma.irqKind));
      }
    }
  }

  /** 0xF2 as written: the 0x22E acknowledge finds no flag, so the line the command raised is never lowered. */
  lemma TriggerIrqAsWrittenUnacknowledged(s: Sb)
    requires Inv(s) && !s.irqTriggered[Irq8Bit]
    ensures var r := ReadStatusPort(TriggerIrqAsWritten(s)).1;
      r.events == s.events + [RaiseLine(s.irq)] && !r.irqTriggered[Irq8Bit]
  {
  }

  /** A whole 0xF2 or 0xF3 command: the line is raised and the corrected flag set, and nothing else recorded changes. */
  lemma TriggerIrqRun(s: Sb, c: bv8, mask: seq<bool>)
    requires Inv(s) && s.dsp.command == NoCommand && (c == 0xF2 || c == 0xF3)
    ensures var r := Run(s, c, [], mask);
      r.irq == s.irq && r.events == s.events + [RaiseLine(s.irq)] &&
      r.irqTriggered == s.irqTriggered[if c == 0xF2 then Irq8Bit else Irq16Bit := true]
  {
    assert HandlerOf(c) == TriggerIrq && CommandSize(c) == 0;
    var p := Pending(s, c, []);
    assert Execute(p, mask) == Handle(p, TriggerIrq, mask);
  }

  /** 0xF3 as written: no 16-bit flag is set, so mixer 0x82 does not report the interrupt in bit 1. */
  lemma TriggerIrq16AsWrittenUnreported(s: Sb)
    requires Inv(s) && !s.irqTriggered[Irq16Bit]
    ensures var r := TriggerIrqAsWritten(s);
      r.events == s.events + [RaiseLine(s.irq)] && IrqStatusBits(r.irqTriggered, 16) & 2 == 0
  {
    IrqStatusFlags(s.irqTriggered, 16);
  }

  /** 0xF3 corrected: the line is raised and mixer 0x82 reports the 16-bit interrupt in bit 1. */
  lemma TriggerIrq16Reported(s: Sb, mask: seq<bool>)
    requires Inv(s) && s.dsp.command == NoCommand
    ensures var r := Run(s, 0xF3, [], mask);
      r.events == s.events + [RaiseLine(s.irq)] && IrqStatusBits(r.irqTriggered, 16) & 2 == 2
  {
    TriggerIrqRun(s, 0xF3, mask);
    IrqStatusFlags(Run(s, 0xF3, [], mask).irqTriggered, 16);
  }

  /** 0xF2 corrected: the 0x22E acknowledge lowers the line the command raised. */
  lemma TriggerIrqAcknowledged(s: Sb, mask: seq<bool>)
    requires Inv(s) && s.dsp.command == NoCommand
    ensures var r := ReadStatusPort(Run(s, 0xF2, [], mask)).1;
      r.events == s.events + [RaiseLine(s.irq), LowerLine(s.irq)] && !r.irqTriggered[Irq8Bit]
  {
    TriggerIrqRun(s, 0xF2, mask);
  }
}
