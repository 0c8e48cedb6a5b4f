/**
 * The class `SB16` of src/sb16.ts with its fields updated in place: the DSP
 * byte queues and command registers, the `dma_*` transfer fields, the
 * `mixer_registers`, `asp_registers` and `irq_triggered` typed arrays and the
 * MPU queue. Every method is proved to move the fields exactly as the matching
 * function of module Sb16 moves the state value `Snapshot()`, so the
 * properties proved there (command framing, DMA sizing and countdown, mixer
 * aliasing, interrupt flags) hold of the object.
 *
 * ByteQueues are sequences, oldest byte first; their capacity of 64 is never
 * reached (the invariant bounds the read queue, and the write queue holds at
 * most three bytes).
 */
module Sb16Device {
  import opened Wrappers
  import opened Sb16

  class SB16 {
    // DSP
    var writeBuffer: seq<bv8>
    var readBuffer: seq<bv8>
    var readBufferLastValue: bv8
    var command: bv8
    var commandSize: nat
    var speakerEnabled: bool
    var testRegister: bv8
    var dspHighspeed: bool
    var dspStereo: bool
    var dsp16Bit: bool
    var dspSigned: bool
    var samplingRate: Rate
    var e2Value: bv8
    var e2Count: nat
    const aspRegisters: array<bv8>
    // DMA
    var dmaSampleCount: nat
    var dmaBytesCount: nat
    var dmaBytesLeft: nat
    var dmaBytesBlock: nat
    var bytesPerSample: nat
    var dmaIrq: nat
    var dmaChannel: nat
    var dmaChannel8Bit: nat
    var dmaChannel16Bit: nat
    var dmaAutoinit: bool
    var dmaWaitingTransfer: bool
    var dmaPaused: bool
    // Mixer
    var mixerCurrentAddress: nat
    const mixerRegisters: array<bv8>
    // MPU-401
    var mpuReadBuffer: seq<bv8>
    var mpuReadBufferLastValue: bv8
    // Interrupts and the host
    var irq: nat
    const irqTriggered: array<bool>
    /** What was sent on the bus or asked of the CPU's interrupt controller, in order. */
    var events: seq<Event>

    /** The arrays have their sizes and are distinct. */
    ghost predicate Shaped()
    {
      aspRegisters.Length == 256 && mixerRegisters.Length == 256 && irqTriggered.Length == 16 &&
      aspRegisters != mixerRegisters
    }

    ghost function DspPart(): Dsp
      reads this, aspRegisters
    {
      Dsp(writeBuffer, readBuffer, readBufferLastValue, command, commandSize, speakerEnabled,
          testRegister, dspHighspeed, dspStereo, dsp16Bit, dspSigned, samplingRate, e2Value,
          e2Count, aspRegisters[..])
    }

    ghost function DmaPart(): Transfer
      reads this
    {
      Transfer(dmaSampleCount, dmaBytesCount, dmaBytesLeft, dmaBytesBlock, bytesPerSample, dmaIrq,
               dmaChannel, dmaChannel8Bit, dmaChannel16Bit, dmaAutoinit, dmaWaitingTransfer, dmaPaused)
    }

    /** The device state the fields hold. */
    ghost function Snapshot(): Sb
      reads this, aspRegisters, mixerRegisters, irqTriggered
    {
      Sb(DspPart(), DmaPart(), Mixer(mixerCurrentAddress, mixerRegisters[..]),
         Mpu(mpuReadBuffer, mpuReadBufferLastValue), irq, irqTriggered[..], events)
    }

    ghost predicate Valid()
      reads this, aspRegisters, mixerRegisters, irqTriggered
    {
      Shaped() && Inv(Snapshot())
    }

    /**
     * `new SB16(cpu, bus)`: the constructor's first `mixer_reset` stores the
     * defaults (no mixer handler is registered yet, so its full update does
     * nothing), the sampling rate is announced and `dsp_reset` runs.
     */
    constructor()
      ensures Valid() && Snapshot() == Initial()
      ensures fresh(aspRegisters) && fresh(mixerRegisters) && fresh(irqTriggered)
    {
      writeBuffer := [];
      readBuffer := [];
      readBufferLastValue := 0;
      command := NoCommand;
      commandSize := 0;
      mixerCurrentAddress := 0;
      mixerRegisters := new bv8[256](_ => 0);
      speakerEnabled := false;
      testRegister := 0;
      dspHighspeed := false;
      dspStereo := false;
      dsp16Bit := false;
      dspSigned := false;
      dmaSampleCount := 0;
      dmaBytesCount := 0;
      dmaBytesLeft := 0;
      dmaBytesBlock := 0;
      dmaIrq := 0;
      dmaChannel := DefaultChannel8;
      dmaChannel8Bit := DefaultChannel8;
      dmaChannel16Bit := DefaultChannel16;
      dmaAutoinit := false;
      dmaWaitingTransfer := false;
      dmaPaused := false;
      samplingRate := DefaultRate;
      bytesPerSample := 1;
      e2Value := 0xAA;
      e2Count := 0;
      aspRegisters := new bv8[256](_ => 0);
      mpuReadBuffer := [];
      mpuReadBufferLastValue := 0;
      irq := DefaultIrq;
      irqTriggered := new bool[16](_ => false);
      events := [TellSamplingRate(DefaultRate), SpeakerConfirmInitialized];
      new;
      assert mixerRegisters[..] == seq(256, _ => 0);
      assert aspRegisters[..] == seq(256, _ => 0);
      assert irqTriggered[..] == seq(16, _ => false);
      StoreMixerDefaults();
      assert DspPart() == Constructed().dsp;
      assert DmaPart() == Constructed().dma;
      assert Snapshot() == Constructed();
      DspReset();
    }

    // -------------------------------------------------------------------------
    // Field updates shared by several operations. Each touches a few fields, so
    // that the operations built from them are proved by chaining their effects.
    // -------------------------------------------------------------------------

    /** `bus.send(...)` of the messages `es`. */
    method Send(es: seq<Event>)
      modifies this`events
      ensures Snapshot() == old(Snapshot()).(events := old(events) + es)
    {
      events := events + es;
    }

    /** `read_buffer.clear()` followed by a push of each byte of `bytes`. */
    method Answer(bytes: seq<bv8>)
      modifies this`readBuffer
      ensures Snapshot() == Reply(old(Snapshot()), bytes)
    {
      readBuffer := bytes;
    }

    /** Forget the pending command and its bytes. */
    method ClearCommand()
      modifies this`command, this`commandSize, this`writeBuffer
      ensures Snapshot() == old(Snapshot()).(dsp := old(Snapshot()).dsp.(command := NoCommand, commandSize := 0, writeBuffer := []))
    {
      StoreNoCommand();
    }

    method StoreNoCommand()
      modifies this`command, this`commandSize, this`writeBuffer
      ensures DspPart() == old(DspPart()).(command := NoCommand, commandSize := 0, writeBuffer := [])
    {
      command := NoCommand;
      commandSize := 0;
      writeBuffer := [];
    }

    /** The transfer's interrupt, channel and auto-init mode. */
    method SetTransferMode(kind: nat, channel: nat, autoinit: bool)
      modifies this`dmaIrq, this`dmaChannel, this`dmaAutoinit
      ensures Snapshot() == old(Snapshot()).(dma := old(Snapshot()).dma.(irqKind := kind, channel := channel, autoinit := autoinit))
    {
      StoreTransferMode(kind, channel, autoinit);
    }

    method StoreTransferMode(kind: nat, channel: nat, autoinit: bool)
      modifies this`dmaIrq, this`dmaChannel, this`dmaAutoinit
      ensures DmaPart() == old(DmaPart()).(irqKind := kind, channel := channel, autoinit := autoinit)
    {
      dmaIrq := kind;
      dmaChannel := channel;
      dmaAutoinit := autoinit;
    }

    /** The sample format: signedness, stereo, sample width and highspeed mode. */
    method SetFormat(signed: bool, stereo: bool, sixteen: bool, highspeed: bool)
      modifies this`dspSigned, this`dspStereo, this`dsp16Bit, this`dspHighspeed
      ensures Snapshot() == old(Snapshot()).(dsp := old(Snapshot()).dsp.(signed := signed, stereo := stereo, sixteenBit := sixteen, highspeed := highspeed))
    {
      StoreFormat(signed, stereo, sixteen, highspeed);
    }

    method StoreFormat(signed: bool, stereo: bool, sixteen: bool, highspeed: bool)
      modifies this`dspSigned, this`dspStereo, this`dsp16Bit, this`dspHighspeed
      ensures DspPart() == old(DspPart()).(signed := signed, stereo := stereo, sixteenBit := sixteen, highspeed := highspeed)
    {
      dspSigned := signed;
      dspStereo := stereo;
      dsp16Bit := sixteen;
      dspHighspeed := highspeed;
    }

    method SetPaused(paused: bool)
      modifies this`dmaPaused
      ensures Snapshot() == old(Snapshot()).(dma := old(Snapshot()).dma.(paused := paused))
    {
      dmaPaused := paused;
    }

    method SetAutoinit(autoinit: bool)
      modifies this`dmaAutoinit
      ensures Snapshot() == old(Snapshot()).(dma := old(Snapshot()).dma.(autoinit := autoinit))
    {
      dmaAutoinit := autoinit;
    }

    method SetBytesLeft(n: nat)
      modifies this`dmaBytesLeft
      ensures Snapshot() == old(Snapshot()).(dma := old(Snapshot()).dma.(bytesLeft := n))
    {
      dmaBytesLeft := n;
    }

    method SetSpeaker(on: bool)
      modifies this`speakerEnabled
      ensures Snapshot() == old(Snapshot()).(dsp := old(Snapshot()).dsp.(speakerOn := on))
    {
      speakerEnabled := on;
    }

    method SetTestRegister(value: bv8)
      modifies this`testRegister
      ensures Snapshot() == old(Snapshot()).(dsp := old(Snapshot()).dsp.(testRegister := value))
    {
      testRegister := value;
    }

    method SetHighspeed(highspeed: bool)
      modifies this`dspHighspeed
      ensures Snapshot() == old(Snapshot()).(dsp := old(Snapshot()).dsp.(highspeed := highspeed))
    {
      dspHighspeed := highspeed;
    }

    method SetAspRegister(i: nat, value: bv8)
      requires Shaped() && i < 256
      modifies aspRegisters
      ensures Snapshot() == old(Snapshot()).(dsp := old(Snapshot()).dsp.(asp := old(aspRegisters[..])[i := value]))
    {
      aspRegisters[i] := value;
    }

    method SetMixerRegister(i: nat, value: bv8)
      requires Shaped() && i < 256
      modifies mixerRegisters
      ensures Snapshot() == old(Snapshot()).(mixer := old(Snapshot()).mixer.(regs := old(mixerRegisters[..])[i := value]))
    {
      mixerRegisters[i] := value;
    }

    // -------------------------------------------------------------------------
    // Interrupts
    // -------------------------------------------------------------------------

    /** `raise_irq(kind)`. */
    method RaiseIrq(kind: nat)
      requires Shaped()
      modifies this`events, irqTriggered
      ensures Snapshot() == Sb16.RaiseIrq(old(Snapshot()), kind)
    {
      if kind < 16 {
        irqTriggered[kind] := true;
      }
      events := events + [RaiseLine(irq)];
    }

    /** `lower_irq(kind)`. */
    method LowerIrq(kind: nat)
      requires Shaped()
      modifies this`events, irqTriggered
      ensures Snapshot() == Sb16.LowerIrq(old(Snapshot()), kind)
    {
      if kind < 16 {
        irqTriggered[kind] := false;
      }
      events := events + [LowerLine(irq)];
    }

    // -------------------------------------------------------------------------
    // DMA transfers
    // -------------------------------------------------------------------------

    /** `dma_transfer_size_set`, reading the two size bytes at position `k` of the write queue. */
    method TransferSizeSet(k: nat)
      requires k + 2 <= |writeBuffer|
      modifies this`dmaSampleCount
      ensures Snapshot() == SizeSet(old(Snapshot()), k)
    {
      dmaSampleCount := 1 + writeBuffer[k] as nat + writeBuffer[k + 1] as nat * 256;
    }

    /** The three sizes of a transfer. */
    method SetTransferSizes(bps: nat, count: nat, block: nat)
      modifies this`bytesPerSample, this`dmaBytesCount, this`dmaBytesBlock
      ensures Snapshot() == old(Snapshot()).(dma := old(Snapshot()).dma.(bytesPerSample := bps, bytesCount := count, bytesBlock := block))
    {
      StoreTransferSizes(bps, count, block);
    }

    method StoreTransferSizes(bps: nat, count: nat, block: nat)
      modifies this`bytesPerSample, this`dmaBytesCount, this`dmaBytesBlock
      ensures DmaPart() == old(DmaPart()).(bytesPerSample := bps, bytesCount := count, bytesBlock := block)
    {
      bytesPerSample := bps;
      dmaBytesCount := count;
      dmaBytesBlock := block;
    }

    method SetWaiting(waiting: bool)
      modifies this`dmaWaitingTransfer
      ensures Snapshot() == old(Snapshot()).(dma := old(Snapshot()).dma.(waiting := waiting))
    {
      dmaWaitingTransfer := waiting;
    }

    /** Step (1) of `dma_transfer_start`: bytes per sample, total bytes and block size; then wait. */
    method SizeTransfer()
      modifies this`bytesPerSample, this`dmaBytesCount, this`dmaBytesBlock, this`dmaWaitingTransfer
      ensures Snapshot() == TransferSized(old(Snapshot()))
    {
      var bps := 1;
      if dsp16Bit {
        bps := bps * 2;
      }
      var count := dmaSampleCount * bps;
      // `dma_bytes_count >> 2 & ~0x3` on a non-negative count
      var maxBytesBlock := Max(count / 4 - (count / 4) % 4, 32);
      var block := Min(maxBytesBlock, BlockSamples * bps);
      assert bps == (if dsp16Bit then 2 else 1) && count == (if dsp16Bit then 2 * dmaSampleCount else dmaSampleCount);
      assert block == BlockSize(count, bps);
      SetTransferSizes(bps, count, block);
      SetWaiting(true);
    }

    /** `dma_transfer_start`; `mask` is the DMA controller's `channel_mask`. */
    method TransferStart(mask: seq<bool>)
      modifies this
      ensures Snapshot() == Sb16.TransferStart(old(Snapshot()), mask)
    {
      SizeTransfer();
      if !Masked(mask, dmaChannel) {
        DmaOnUnmask(dmaChannel);
      }
    }

    /** Step (3) of a transfer: the whole count is left and the transfer runs. */
    method StartCountdown()
      modifies this`dmaWaitingTransfer, this`dmaBytesLeft, this`dmaPaused
      ensures Snapshot() == old(Snapshot()).(dma := old(Snapshot()).dma.(waiting := false, bytesLeft := old(dmaBytesCount), paused := false))
    {
      StoreCountdown();
    }

    method StoreCountdown()
      modifies this`dmaWaitingTransfer, this`dmaBytesLeft, this`dmaPaused
      ensures DmaPart() == old(DmaPart()).(waiting := false, bytesLeft := old(dmaBytesCount), paused := false)
    {
      dmaWaitingTransfer := false;
      dmaBytesLeft := dmaBytesCount;
      dmaPaused := false;
    }

    /** `dma_on_unmask(channel)`, the DMA controller's unmask listener. */
    method DmaOnUnmask(channel: nat)
      modifies this
      ensures Snapshot() == OnUnmask(old(Snapshot()), channel)
      ensures old(Valid()) ==> Valid()
    {
      ghost var s0 := Snapshot();
      if Shaped() && Inv(s0) {
        OnUnmaskInv(s0, channel);
      }
      if channel != dmaChannel || !dmaWaitingTransfer {
        return;
      }
      StartCountdown();
      Send([DacEnable]);
    }

    /** `dma_transfer_next` once the controller's `do_write` has called back with error flag `failed`. */
    method TransferNext(failed: bool)
      requires Shaped()
      modifies this`dmaBytesLeft, this`events, irqTriggered
      ensures Snapshot() == Sb16.TransferNext(old(Snapshot()), failed)
    {
      var size := Min(dmaBytesLeft, dmaBytesBlock);
      if failed {
        return;
      }
      SetBytesLeft(dmaBytesLeft - size);
      if dmaBytesLeft == 0 {
        RaiseIrq(dmaIrq);
        if dmaAutoinit {
          SetBytesLeft(dmaBytesCount);
        }
      }
    }

    /** `dac_handle_request`: the speaker asks for more samples. */
    method DacHandleRequest(failed: bool)
      requires Valid()
      modifies this`dmaBytesLeft, this`events, irqTriggered
      ensures Valid() && Snapshot() == DacRequest(old(Snapshot()), failed)
    {
      DacRequestInv(Snapshot(), failed);
      if dmaBytesLeft == 0 || dmaPaused {
        return;
      }
      TransferNext(failed);
    }

    // -------------------------------------------------------------------------
    // DSP commands
    // -------------------------------------------------------------------------

    /** `sampling_rate_change`. */
    method SamplingRateChange(rate: Rate)
      modifies this`samplingRate, this`events
      ensures Snapshot() == RateChange(old(Snapshot()), rate)
    {
      SetSamplingRate(rate);
      Send([TellSamplingRate(rate)]);
    }

    method SetSamplingRate(rate: Rate)
      modifies this`samplingRate
      ensures Snapshot() == old(Snapshot()).(dsp := old(Snapshot()).dsp.(samplingRate := rate))
    {
      samplingRate := rate;
    }

    /** The setup 0x14/0x15, 0x1C and 0x90 share. */
    method Dma8Setup(autoinit: bool, highspeed: bool)
      modifies this`dmaIrq, this`dmaChannel, this`dmaAutoinit, this`dspSigned, this`dspStereo, this`dsp16Bit, this`dspHighspeed
      ensures Snapshot() == Sb16.Dma8Setup(old(Snapshot()), autoinit, highspeed)
    {
      SetTransferMode(Irq8Bit, dmaChannel8Bit, autoinit);
      SetFormat(false, dspStereo, false, highspeed);
    }

    /** The handler of 0xB0-0xBF (`sixteen`) or 0xC0-0xCF. */
    method ProgramDma(sixteen: bool, mask: seq<bool>)
      requires |writeBuffer| >= 3
      modifies this
      ensures Snapshot() == Sb16.ProgramDma(old(Snapshot()), sixteen, mask)
    {
      if command & 8 != 0 {
        return;
      }
      var mode := writeBuffer[0];
      SetTransferMode(if sixteen then Irq16Bit else Irq8Bit,
                      if sixteen then dmaChannel16Bit else dmaChannel8Bit, command & 4 != 0);
      SetFormat(mode & 0x10 != 0, mode & 0x20 != 0, sixteen, dspHighspeed);
      TransferSizeSet(1);
      TransferStart(mask);
    }

    /** 0xE3: the copyright string, one byte at a time, then a terminating 0. */
    method AnswerCopyright()
      modifies this`readBuffer
      ensures Snapshot() == Reply(old(Snapshot()), CopyrightText + [0])
    {
      readBuffer := [];
      for i := 0 to |CopyrightText|
        invariant readBuffer == CopyrightText[..i]
      {
        readBuffer := readBuffer + [CopyrightText[i]];
      }
      readBuffer := readBuffer + [0];
    }

    /** The handlers that answer through the read queue. They do not look at the mask. */
    method HandleReply(h: Handler)
      requires Shaped() && Arity(h) <= |writeBuffer| && Replies(h)
      modifies this`readBuffer
      ensures Snapshot() == Reply(old(Snapshot()), ReplyBytes(old(Snapshot()), h))
    {
      if h == Copyright {
        AnswerCopyright();
      } else {
        ReplyShort(h);
      }
    }

    /** The reply handlers but 0xE3, which answer one or two bytes. */
    method ReplyShort(h: Handler)
      requires Shaped() && Arity(h) <= |writeBuffer| && Replies(h) && h != Copyright
      modifies this`readBuffer
      ensures Snapshot() == Reply(old(Snapshot()), ReplyBytes(old(Snapshot()), h))
    {
      var bytes: seq<bv8> :=
        match h
        case AspGet => [aspRegisters[writeBuffer[0] as nat]]
        case DirectInput => [0x7F]
        case SpeakerStatus => [if speakerEnabled then 0xFF else 0]
        case Identify => [!writeBuffer[0]]
        case Version => [4, 5]
        case ReadTest => [testRegister]
        case AspUnknown => [F9Answer(writeBuffer[0])];
      Answer(bytes);
    }

    /** The handlers that set up and start a DMA transfer. */
    method HandleTransfer(h: Handler, mask: seq<bool>)
      requires Shaped() && Arity(h) <= |writeBuffer| && StartsTransfer(h)
      modifies this
      ensures Snapshot() == Sb16.Handle(old(Snapshot()), h, mask)
    {
      match h
      case Dma8Single =>
        Dma8Setup(false, false);
        TransferSizeSet(0);
        TransferStart(mask);
      case Dma8Auto =>
        Dma8Setup(true, false);
        TransferStart(mask);
      case Dma8HighSpeed =>
        Dma8Setup(true, true);
        TransferStart(mask);
      case Program16 => ProgramDma(true, mask);
      case Program8 => ProgramDma(false, mask);
    }

    /** The remaining handlers, which set a register or a flag. They do not look at the mask. */
    method HandleOther(h: Handler)
      requires Shaped() && Arity(h) <= |writeBuffer| && !StartsTransfer(h) && !Replies(h)
      modifies this, aspRegisters, irqTriggered
      ensures Snapshot() == Sb16.Handle(old(Snapshot()), h, [])
    {
      if h.AspSet? || h.SpeakerOn? || h.SpeakerOff? || h.ExitAutoinit? || h.WriteTest? || h.SetBlockSize? || h.NoHandler? {
        HandleSetter(h);
      } else {
        HandleEvent(h);
      }
    }

    /** The handlers that only store into a register or flag. */
    method HandleSetter(h: Handler)
      requires Shaped() && Arity(h) <= |writeBuffer|
      requires h.AspSet? || h.SpeakerOn? || h.SpeakerOff? || h.ExitAutoinit? || h.WriteTest? || h.SetBlockSize? || h.NoHandler?
      modifies this, aspRegisters
      ensures Snapshot() == Sb16.Handle(old(Snapshot()), h, [])
    {
      ghost var s := Snapshot();
      match h
      case AspSet =>
        assert Sb16.Handle(s, h, []) == s.(dsp := s.dsp.(asp := s.dsp.asp[writeBuffer[0] as nat := writeBuffer[1]]));
        SetAspRegister(writeBuffer[0] as nat, writeBuffer[1]);
      case SetBlockSize =>
        assert Sb16.Handle(s, h, []) == SizeSet(s, 0);
        TransferSizeSet(0);
      case SpeakerOn =>
        assert Sb16.Handle(s, h, []) == s.(dsp := s.dsp.(speakerOn := true));
        SetSpeaker(true);
      case SpeakerOff =>
        assert Sb16.Handle(s, h, []) == s.(dsp := s.dsp.(speakerOn := false));
        SetSpeaker(false);
      case ExitAutoinit =>
        assert Sb16.Handle(s, h, []) == s.(dma := s.dma.(autoinit := false));
        SetAutoinit(false);
      case WriteTest =>
        assert Sb16.Handle(s, h, []) == s.(dsp := s.dsp.(testRegister := writeBuffer[0]));
        SetTestRegister(writeBuffer[0]);
      case NoHandler =>
        assert Sb16.Handle(s, h, []) == s;
    }

    /** The handlers that send an event to the DAC or raise an interrupt. */
    method HandleEvent(h: Handler)
      requires Shaped() && Arity(h) <= |writeBuffer|
      requires h.DirectOutput? || h.TimeConstant? || h.SetRate? || h.PauseDma? || h.ContinueDma? || h.TriggerIrq?
      modifies this, irqTriggered
      ensures Snapshot() == Sb16.Handle(old(Snapshot()), h, [])
    {
      ghost var s := Snapshot();
      match h
      case DirectOutput =>
        assert Sb16.Handle(s, h, []) == s.(events := s.events + [DacEnable]);
        Send([DacEnable]);
      case TimeConstant =>
        var rate := FromTimeConstant(writeBuffer[0], if dspStereo then 2 else 1);
        assert Sb16.Handle(s, h, []) == RateChange(s, rate);
        SamplingRateChange(rate);
      case SetRate =>
        var rate := Hz(writeBuffer[0] as nat * 256 + writeBuffer[1] as nat);
        assert Sb16.Handle(s, h, []) == RateChange(s, rate);
        SamplingRateChange(rate);
      case PauseDma =>
        assert Sb16.Handle(s, h, []) == s.(dma := s.dma.(paused := true), events := s.events + [DacDisable]);
        SetPaused(true);
        Send([DacDisable]);
      case ContinueDma =>
        assert Sb16.Handle(s, h, []) == s.(dma := s.dma.(paused := false), events := s.events + [DacEnable]);
        SetPaused(false);
        Send([DacEnable]);
      case TriggerIrq =>
        assert Sb16.Handle(s, h, []) == TriggerIrqCorrected(s);
        RaiseIrq(if command == 0xF2 then Irq8Bit else Irq16Bit);
    }

    /**
     * `command_do`: run the pending command's handler on its argument bytes,
     * then forget the command. The handlers read their bytes where they lie
     * instead of shifting them off the queue; the queue is cleared right after.
     */
    method CommandDo(mask: seq<bool>)
      requires Shaped() && |writeBuffer| == CommandSize(command)
      modifies this, aspRegisters, irqTriggered
      ensures Snapshot() == Sb16.CommandDo(old(Snapshot()), mask)
    {
      Execute(mask);
      ClearCommand();
    }

    /** The pending command's handler, on its argument bytes. */
    method Execute(mask: seq<bool>)
      requires Shaped() && |writeBuffer| == CommandSize(command)
      modifies this, aspRegisters, irqTriggered
      ensures Snapshot() == Sb16.Execute(old(Snapshot()), mask)
    {
      var h := HandlerOf(command);
      HandlerArity(command);
      if StartsTransfer(h) {
        HandleTransfer(h, mask);
      } else if Replies(h) {
        HandleReply(h);
      } else {
        HandleOther(h);
      }
    }

    /** `port2xC_write`: a command byte or an argument byte on port 0x22C. */
    method Port2xCWrite(value: bv8, mask: seq<bool>)
      requires Valid()
      modifies this, aspRegisters, irqTriggered
      ensures Valid() && Snapshot() == WriteCommandPort(old(Snapshot()), value, mask)
    {
      WriteCommandPortInv(Snapshot(), value, mask);
      if command == NoCommand {
        NewCommand(value);
      } else {
        QueueArgument(value);
      }
      if |writeBuffer| >= commandSize {
        CommandDo(mask);
      }
    }

    /** A byte with no command pending: it is the opcode, and the queue waits for its size entry's bytes. */
    method NewCommand(value: bv8)
      modifies this`command, this`commandSize, this`writeBuffer
      ensures Snapshot() == old(Snapshot()).(dsp := old(Snapshot()).dsp.(command := value, writeBuffer := [], commandSize := CommandSize(value)))
    {
      StoreCommand(value);
    }

    method StoreCommand(value: bv8)
      modifies this`command, this`commandSize, this`writeBuffer
      ensures DspPart() == old(DspPart()).(command := value, writeBuffer := [], commandSize := CommandSize(value))
    {
      command := value;
      writeBuffer := [];
      commandSize := CommandSize(value);
    }

    /** `write_buffer.push(value)`. */
    method QueueArgument(value: bv8)
      modifies this`writeBuffer
      ensures Snapshot() == old(Snapshot()).(dsp := old(Snapshot()).dsp.(writeBuffer := old(writeBuffer) + [value]))
    {
      writeBuffer := writeBuffer + [value];
    }

    // -------------------------------------------------------------------------
    // Reset and the DSP ports
    // -------------------------------------------------------------------------

    /** The DSP half of `dsp_reset`: queues, command, registers and the ASP registers. */
    method ResetDsp()
      requires Shaped()
      modifies this`writeBuffer, this`readBuffer, this`command, this`commandSize, this`speakerEnabled,
        this`testRegister, this`dspHighspeed, this`dspStereo, this`dsp16Bit, this`dspSigned,
        this`e2Value, this`e2Count, this`samplingRate, aspRegisters
      ensures Snapshot() == old(Snapshot()).(dsp := Dsp([], [], old(readBufferLastValue), NoCommand, 0, false, 0,
        false, false, false, false, DefaultRate, 0xAA, 0, AspReset()))
    {
      ClearCommand();
      Answer([]);
      ResetDspRegisters();
      ResetAsp();
    }

    /** The DSP registers `dsp_reset` sets. */
    method ResetDspRegisters()
      modifies this`speakerEnabled, this`testRegister, this`dspHighspeed, this`dspStereo, this`dsp16Bit,
        this`dspSigned, this`e2Value, this`e2Count, this`samplingRate
      ensures Snapshot() == old(Snapshot()).(dsp := old(Snapshot()).dsp.(speakerOn := false, testRegister := 0, highspeed := false,
        stereo := false, sixteenBit := false, signed := false, samplingRate := DefaultRate, e2Value := 0xAA, e2Count := 0))
    {
      SetSpeaker(false);
      SetTestRegister(0);
      SetFormat(false, false, false, false);
      ResetE2();
      SetSamplingRate(DefaultRate);
    }

    /** The E2 identification state after a reset. */
    method ResetE2()
      modifies this`e2Value, this`e2Count
      ensures Snapshot() == old(Snapshot()).(dsp := old(Snapshot()).dsp.(e2Value := 0xAA, e2Count := 0))
    {
      StoreE2Defaults();
    }

    method StoreE2Defaults()
      modifies this`e2Value, this`e2Count
      ensures DspPart() == old(DspPart()).(e2Value := 0xAA, e2Count := 0)
    {
      e2Value := 0xAA;
      e2Count := 0;
    }

    /** The ASP registers after a reset. */
    method ResetAsp()
      requires Shaped()
      modifies aspRegisters
      ensures Snapshot() == old(Snapshot()).(dsp := old(Snapshot()).dsp.(asp := AspReset()))
    {
      ResetAspRegisters();
    }

    /** The `dma_*` fields `dsp_reset` sets; the mixer's channel choices stay. */
    method ResetTransfer()
      modifies this`dmaSampleCount, this`dmaBytesCount, this`dmaBytesLeft, this`dmaBytesBlock, this`dmaIrq,
        this`dmaChannel, this`dmaAutoinit, this`dmaWaitingTransfer, this`dmaPaused, this`bytesPerSample
      ensures Snapshot() == old(Snapshot()).(dma := Transfer(0, 0, 0, 0, 1, 0, 0, old(dmaChannel8Bit), old(dmaChannel16Bit), false, false, false))
    {
      StoreTransferDefaults();
    }

    method StoreTransferDefaults()
      modifies this`dmaSampleCount, this`dmaBytesCount, this`dmaBytesLeft, this`dmaBytesBlock, this`dmaIrq,
        this`dmaChannel, this`dmaAutoinit, this`dmaWaitingTransfer, this`dmaPaused, this`bytesPerSample
      ensures DmaPart() == Transfer(0, 0, 0, 0, 1, 0, 0, old(dmaChannel8Bit), old(dmaChannel16Bit), false, false, false)
    {
      dmaSampleCount := 0;
      dmaBytesCount := 0;
      dmaBytesLeft := 0;
      dmaBytesBlock := 0;
      dmaIrq := 0;
      dmaChannel := 0;
      dmaAutoinit := false;
      dmaWaitingTransfer := false;
      dmaPaused := false;
      bytesPerSample := 1;
    }

    /** `irq_triggered.fill(0)`. */
    method ClearIrqFlags()
      requires Shaped()
      modifies irqTriggered
      ensures irqTriggered[..] == seq(16, _ => false)
    {
      for i := 0 to 16
        invariant forall j :: 0 <= j < i ==> !irqTriggered[j]
      {
        irqTriggered[i] := false;
      }
    }

    /** `asp_registers.fill(0)` and the two nonzero defaults. */
    method ResetAspRegisters()
      requires Shaped()
      modifies aspRegisters
      ensures aspRegisters[..] == AspReset()
    {
      for i := 0 to 256
        invariant forall j :: 0 <= j < i ==> aspRegisters[j] == 0
      {
        aspRegisters[i] := 0;
      }
      aspRegisters[5] := 0x01;
      aspRegisters[9] := 0xF8;
    }

    /** `dsp_reset`. */
    method DspReset()
      requires Shaped() && MixerInv(Snapshot().mixer) && |mpuReadBuffer| <= DspBufSize
      modifies this, aspRegisters, irqTriggered
      ensures Valid() && Snapshot() == Sb16.DspReset(old(Snapshot()))
    {
      ghost var s0 := Snapshot();
      DspResetInv(s0);
      ResetDsp();
      ResetTransfer();
      LowerIrq(Irq8Bit);
      ClearIrqFlags();
    }

    /** `port2x6_write`: the DSP reset port 0x226. */
    method Port2x6Write(value: bv8)
      requires Valid()
      modifies this, aspRegisters, irqTriggered
      ensures Valid() && Snapshot() == WriteResetPort(old(Snapshot()), value)
    {
      WriteResetPortCases(Snapshot(), value);
      if dspHighspeed {
        SetHighspeed(false);
      } else if value != 0 {
        DspReset();
      }
      Answer([0xAA]);
    }

    /** `port2xA_read`: the DSP data port 0x22A. */
    method Port2xARead() returns (value: bv8)
      requires Valid()
      modifies this`readBuffer, this`readBufferLastValue
      ensures Valid()
      ensures value == ReadDataPort(old(Snapshot())).0 && Snapshot() == ReadDataPort(old(Snapshot())).1
    {
      if |readBuffer| > 0 {
        PopReadBuffer();
      }
      value := readBufferLastValue;
    }

    /** `read_buffer.shift()`, remembered as the last value read. */
    method PopReadBuffer()
      requires |readBuffer| > 0
      modifies this`readBuffer, this`readBufferLastValue
      ensures DspPart() == old(DspPart()).(readBuffer := old(readBuffer)[1..], readLast := old(readBuffer)[0])
    {
      readBufferLastValue := readBuffer[0];
      readBuffer := readBuffer[1..];
    }

    /** `port2xE_read`: the read-buffer status port 0x22E, which acknowledges the 8-bit interrupt. */
    method Port2xERead() returns (value: bv8)
      requires Valid()
      modifies this`events, irqTriggered
      ensures Valid()
      ensures value == ReadStatusPort(old(Snapshot())).0 && Snapshot() == ReadStatusPort(old(Snapshot())).1
    {
      if irqTriggered[Irq8Bit] {
        LowerIrq(Irq8Bit);
      }
      var ready: bv8 := if |readBuffer| > 0 && !dspHighspeed then 1 else 0;
      value := (ready << 7) | 0x7F;
    }

    /** `port2xF_read`: the 16-bit interrupt acknowledge port 0x22F. */
    method Port2xFRead() returns (value: bv8)
      requires Valid()
      modifies this`events, irqTriggered
      ensures Valid()
      ensures value == Ack16Port(old(Snapshot())).0 && Snapshot() == Ack16Port(old(Snapshot())).1
    {
      LowerIrq(Irq16Bit);
      value := 0;
    }

    /** `port3x0_read`: the MPU-401 data port 0x330. */
    method Port3x0Read() returns (value: bv8)
      requires Valid()
      modifies this`mpuReadBuffer, this`mpuReadBufferLastValue
      ensures Valid()
      ensures value == ReadMpuData(old(Snapshot())).0 && Snapshot() == ReadMpuData(old(Snapshot())).1
    {
      if |mpuReadBuffer| > 0 {
        PopMpuBuffer();
      }
      value := mpuReadBufferLastValue;
    }

    /** `mpu_read_buffer.shift()`, remembered as the last value read. */
    method PopMpuBuffer()
      requires |mpuReadBuffer| > 0
      modifies this`mpuReadBuffer, this`mpuReadBufferLastValue
      ensures mpuReadBuffer == old(mpuReadBuffer)[1..] && mpuReadBufferLastValue == old(mpuReadBuffer)[0]
    {
      mpuReadBufferLastValue := mpuReadBuffer[0];
      mpuReadBuffer := mpuReadBuffer[1..];
    }

    /** `port3x1_read`: the MPU-401 status port 0x331. */
    method Port3x1Read() returns (status: bv8)
      requires Valid()
      ensures status == ReadMpuStatus(Snapshot())
    {
      status := 0;
      status := status | 0x40 * 0;
      status := status | 0x80 * (if |mpuReadBuffer| == 0 then 1 else 0);
    }

    /** `port3x1_write`: the MPU-401 command port 0x331. */
    method Port3x1Write(value: bv8)
      requires Valid()
      modifies this`mpuReadBuffer
      ensures Valid() && Snapshot() == WriteMpuCommand(old(Snapshot()), value)
    {
      if value == 0xFF {
        mpuReadBuffer := [0xFE];
      }
    }

    // -------------------------------------------------------------------------
    // The mixer
    // -------------------------------------------------------------------------

    /** `port2x4_read`: the mixer address port 0x224. */
    method Port2x4Read() returns (value: nat)
      requires Valid()
      ensures value == Snapshot().mixer.address && value < 256
    {
      value := mixerCurrentAddress;
    }

    /** `port2x4_write`. */
    method Port2x4Write(value: bv8)
      requires Valid()
      modifies this`mixerCurrentAddress
      ensures Valid() && Snapshot() == WriteMixerAddress(old(Snapshot()), value)
    {
      mixerCurrentAddress := value as nat;
    }

    /** `port2x5_write`: the mixer data port 0x225. */
    method Port2x5Write(value: bv8)
      requires Valid()
      modifies this`irq, this`dmaChannel8Bit, this`dmaChannel16Bit, this`events, mixerRegisters
      ensures Valid() && Snapshot() == Sb16.MixerWrite(old(Snapshot()), old(mixerCurrentAddress), value)
    {
      MixerWriteInv(Snapshot(), mixerCurrentAddress, value);
      MixerWrite(mixerCurrentAddress, value);
    }

    /** `port2x5_read`. */
    method Port2x5Read() returns (value: bv8)
      requires Valid()
      modifies this`irq, this`dmaChannel8Bit, this`dmaChannel16Bit, this`events, mixerRegisters
      ensures Valid()
      ensures value == Sb16.MixerRead(old(Snapshot()), old(mixerCurrentAddress)).0
      ensures Snapshot() == Sb16.MixerRead(old(Snapshot()), old(mixerCurrentAddress)).1
    {
      MixerReadInv(Snapshot(), mixerCurrentAddress);
      value := MixerRead(mixerCurrentAddress);
    }

    /** The 0x80 write handler: each set bit picks its IRQ, the highest one last. */
    method IrqSelectWrite(bits: bv8)
      modifies this`irq
      ensures Snapshot() == old(Snapshot()).(irq := IrqSelect(old(irq), bits))
    {
      var v := irq;
      if bits & 0x1 != 0 { v := 2; }
      if bits & 0x2 != 0 { v := 5; }
      if bits & 0x4 != 0 { v := 7; }
      if bits & 0x8 != 0 { v := 10; }
      irq := v;
    }

    /** The 0x81 write handler: each set bit picks its DMA channel, later bits last. */
    method DmaSelectWrite(bits: bv8)
      modifies this`dmaChannel8Bit, this`dmaChannel16Bit
      ensures Snapshot() == old(Snapshot()).(dma := old(Snapshot()).dma.(
        channel8 := Channel8Select(old(dmaChannel8Bit), bits), channel16 := Channel16Select(old(dmaChannel16Bit), bits)))
    {
      Channel8Write(bits);
      Channel16Write(bits);
    }

    /** The 8-bit half of the 0x81 write: DMA 0, 1 or 3. */
    method Channel8Write(bits: bv8)
      modifies this`dmaChannel8Bit
      ensures Snapshot() == old(Snapshot()).(dma := old(Snapshot()).dma.(channel8 := Channel8Select(old(dmaChannel8Bit), bits)))
    {
      var c8 := dmaChannel8Bit;
      if bits & 0x1 != 0 { c8 := 0; }
      if bits & 0x2 != 0 { c8 := 1; }
      if bits & 0x8 != 0 { c8 := 3; }
      dmaChannel8Bit := c8;
    }

    /** The 16-bit half of the 0x81 write: DMA 5, 6 or 7. */
    method Channel16Write(bits: bv8)
      modifies this`dmaChannel16Bit
      ensures Snapshot() == old(Snapshot()).(dma := old(Snapshot()).dma.(channel16 := Channel16Select(old(dmaChannel16Bit), bits)))
    {
      var c16 := dmaChannel16Bit;
      if bits & 0x20 != 0 { c16 := 5; }
      if bits & 0x40 != 0 { c16 := 6; }
      if bits & 0x80 != 0 { c16 := 7; }
      dmaChannel16Bit := c16;
    }

    /** The write handler of a non-legacy register (or the log-only fallback). */
    method RegisterWrite(a: nat, data: bv8)
      requires Shaped() && MixerInv(Snapshot().mixer) && a < 256
      modifies this`irq, this`dmaChannel8Bit, this`dmaChannel16Bit, this`events, mixerRegisters
      ensures Snapshot() == Sb16.RegisterWrite(old(Snapshot()), a, data)
    {
      if a == 0x00 {
        SetMixerRegister(mixerCurrentAddress, data);
      } else if StoresValue(a) {
        SetMixerRegister(a, data);
        Send(RegisterEvents(a, data));
      } else if a == 0x80 {
        IrqSelectWrite(data);
      } else if a == 0x81 {
        DmaSelectWrite(data);
      }
    }

    /** `mixer_write`: a legacy register stores the value and writes its nibbles on to its two targets. */
    method MixerWrite(a: nat, data: bv8)
      requires Shaped() && MixerInv(Snapshot().mixer) && a < 256
      modifies this`irq, this`dmaChannel8Bit, this`dmaChannel16Bit, this`events, mixerRegisters
      ensures Snapshot() == Sb16.MixerWrite(old(Snapshot()), a, data)
    {
      if IsLegacy(a) {
        var (newLeft, newRight) := LegacyTargets(a);
        SetMixerRegister(a, data);
        var prevLeft := mixerRegisters[newLeft];
        var prevRight := mixerRegisters[newRight];
        var left := (data & 0xF0) | (prevLeft & 0x0F);
        var right := ((data << 4) & 0xF0) | (prevRight & 0x0F);
        RegisterWrite(newLeft, left);
        RegisterWrite(newRight, right);
      } else {
        RegisterWrite(a, data);
      }
    }

    /** The read handler of mixer 0x82: `ret |= i * irq_triggered[i]` over all 16 flags. */
    method IrqStatus() returns (ret: bv8)
      requires Shaped()
      ensures ret == IrqStatusBits(irqTriggered[..], 16)
    {
      ret := 0x20;
      for i := 0 to 16
        invariant ret == IrqStatusBits(irqTriggered[..], i)
      {
        ret := ret | (if irqTriggered[i] then i as bv8 else 0);
      }
    }

    /** `mixer_read`. */
    method MixerRead(a: nat) returns (data: bv8)
      requires Shaped() && MixerInv(Snapshot().mixer) && a < 256
      modifies this`irq, this`dmaChannel8Bit, this`dmaChannel16Bit, this`events, mixerRegisters
      ensures data == Sb16.MixerRead(old(Snapshot()), a).0 && Snapshot() == Sb16.MixerRead(old(Snapshot()), a).1
    {
      if a == 0x00 {
        MixerReset();
        data := 0;
      } else if IsLegacy(a) {
        var (newLeft, newRight) := LegacyTargets(a);
        data := (mixerRegisters[newLeft] & 0xF0) | (mixerRegisters[newRight] >> 4);
      } else if StoresValue(a) {
        data := mixerRegisters[mixerCurrentAddress];
      } else if a == 0x80 {
        data := if irq == 2 then 0x1 else if irq == 5 then 0x2 else if irq == 7 then 0x4
          else if irq == 10 then 0x8 else 0;
      } else if a == 0x81 {
        data := DmaSelectBits(Some(dmaChannel8Bit), dmaChannel16Bit);
      } else if a == 0x82 {
        data := IrqStatus();
      } else {
        data := mixerRegisters[a];
      }
    }

    /** The stores of `mixer_reset`. */
    method StoreMixerDefaults()
      requires Shaped()
      modifies mixerRegisters
      ensures mixerRegisters[..] == MixerDefaults(old(mixerRegisters[..]))
    {
      mixerRegisters[0x04] := 0xCC;
      mixerRegisters[0x22] := 0xCC;
      mixerRegisters[0x26] := 0xCC;
      mixerRegisters[0x28] := 0;
      mixerRegisters[0x2E] := 0;
      mixerRegisters[0x0A] := 0;
      mixerRegisters[0x30] := 0xC0;
      mixerRegisters[0x31] := 0xC0;
      mixerRegisters[0x32] := 0xC0;
      mixerRegisters[0x33] := 0xC0;
      mixerRegisters[0x34] := 0xC0;
      mixerRegisters[0x35] := 0xC0;
      mixerRegisters[0x36] := 0;
      mixerRegisters[0x37] := 0;
      mixerRegisters[0x38] := 0;
      mixerRegisters[0x39] := 0;
      mixerRegisters[0x3B] := 0;
      mixerRegisters[0x3C] := 0x1F;
      mixerRegisters[0x3D] := 0x15;
      mixerRegisters[0x3E] := 0x0B;
      mixerRegisters[0x3F] := 0;
      mixerRegisters[0x40] := 0;
      mixerRegisters[0x41] := 0;
      mixerRegisters[0x42] := 0;
      mixerRegisters[0x43] := 0;
      mixerRegisters[0x44] := 0x80;
      mixerRegisters[0x45] := 0x80;
      mixerRegisters[0x46] := 0x80;
      mixerRegisters[0x47] := 0x80;
    }

    /** `mixer_reset`, also run when the speaker reports it has initialised. */
    method MixerReset()
      requires Shaped() && MixerInv(Snapshot().mixer)
      modifies this`irq, this`dmaChannel8Bit, this`dmaChannel16Bit, this`events, mixerRegisters
      ensures Snapshot() == Sb16.MixerReset(old(Snapshot()))
    {
      StoreMixerDefaults();
      MixerFullUpdate();
    }

    /** `mixer_full_update`: rewrite registers 1..255 with their own values, skipping the legacy ones. */
    method MixerFullUpdate()
      requires Shaped() && MixerInv(Snapshot().mixer)
      modifies this`irq, this`dmaChannel8Bit, this`dmaChannel16Bit, this`events, mixerRegisters
      ensures Snapshot() == FullUpdate(old(Snapshot()))
    {
      ghost var s0 := Snapshot();
      for i := 1 to mixerRegisters.Length
        invariant MixerInv(Snapshot().mixer)
        invariant Snapshot() == UpdateThrough(s0, i)
      {
        if !IsLegacy(i) {
          MixerWrite(i, mixerRegisters[i]);
        }
      }
    }
  }

  // ---------------------------------------------------------------------------
  // The command tables
  // ---------------------------------------------------------------------------

  /** `any_first_digit(base)`: the 16 opcodes `base`..`base + 15`. */
  method AnyFirstDigit(base: nat) returns (commands: seq<nat>)
    ensures |commands| == 16 && forall i :: 0 <= i < 16 ==> commands[i] == base + i
  {
    commands := [];
    for i := 0 to 16
      invariant |commands| == i && forall j :: 0 <= j < i ==> commands[j] == base + j
    {
      commands := commands + [base + i];
    }
  }

  /** `DSP_COMMAND_SIZES` and `DSP_COMMAND_HANDLERS` as arrays indexed by opcode. */
  class CommandTables {
    const sizes: array<nat>
    const handlers: array<Handler>

    constructor()
      ensures sizes.Length == 256 && handlers.Length == 256 && fresh(sizes) && fresh(handlers)
      ensures forall c :: 0 <= c < 256 ==> sizes[c] == 0 && handlers[c] == NoHandler
    {
      sizes := new nat[256](_ => 0);
      handlers := new Handler[256](_ => NoHandler);
    }

    /** `register_dsp_command(commands, size, handler)`: every listed opcode gets the size and the handler. */
    method RegisterDspCommand(commands: seq<nat>, size: nat, handler: Handler)
      requires sizes.Length == 256 && handlers.Length == 256
      requires forall i :: 0 <= i < |commands| ==> commands[i] < 256
      modifies sizes, handlers
      ensures forall c :: 0 <= c < 256 ==>
        sizes[c] == (if c in commands then size else old(sizes[c])) &&
        handlers[c] == (if c in commands then handler else old(handlers[c]))
    {
      for i := 0 to |commands|
        invariant forall c :: 0 <= c < 256 ==>
          sizes[c] == (if c in commands[..i] then size else old(sizes[c])) &&
          handlers[c] == (if c in commands[..i] then handler else old(handlers[c]))
      {
        assert commands[..i + 1] == commands[..i] + [commands[i]];
        sizes[commands[i]] := size;
        handlers[commands[i]] := handler;
      }
      assert commands[..|commands|] == commands;
    }
  }
}
