/**
 * The ISA DMA controller of src/dma.ts (two cascaded Intel 8237A controllers,
 * channels 0-3 with 8-bit transfers and 5-7 with 16-bit transfers).
 *
 * Each channel has 16-bit current and initial address and count registers, an
 * 8-bit page and high-page register, a mask and a mode byte. One LSB/MSB
 * flip-flop selects which byte of a 16-bit register the next port access reaches.
 * Unmask listeners are opaque ids; calling one is recorded in `unmaskCalls`.
 * Buffers are described by their byte length, and the model records the block
 * copies a transfer asks for instead of performing them.
 */
module Dma {
  import opened Wrappers

  /** Byte, 16-bit and 32-bit register values, as the typed arrays of the source hold them. */
  type U8 = x: int | 0 <= x < 0x100
  type U16 = x: int | 0 <= x < 0x1_0000
  type U32 = x: int | 0 <= x < 0x1_0000_0000

  /** An unmask listener registered with `on_unmask`, as an opaque id. */
  type ListenerId = nat

  /** One call `listener(channel)` made by `update_mask`. */
  datatype UnmaskCall = UnmaskCall(listener: ListenerId, channel: nat)

  /** A block copy between a device buffer and guest memory: `length` bytes at `bufferStart` and `memoryAddress`. */
  datatype Transfer = Transfer(bufferStart: nat, memoryAddress: U32, length: nat)

  /** What `do_read` does: call back with an error, or copy `count` buffer bytes to memory. */
  datatype ReadOutcome = ReadFault | ReadDone(copy: Transfer)

  /** The registers of one channel. */
  datatype Channel = Channel(addr: U16, addrInit: U16, count: U16, countInit: U16,
                             page: U8, pagehi: U8, mode: U8)

  /** Bytes per count unit: channels 5-7 move 16-bit words. */
  function BytesPerCount(channel: nat): (b: nat)
    ensures b == 1 || b == 2
  {
    if channel >= 5 then 2 else 1
  }

  /** `n` count units in bytes on `channel`. */
  function Scale(channel: nat, n: nat): (r: nat)
    ensures r == n * BytesPerCount(channel)
  {
    if channel >= 5 then 2 * n else n
  }

  /** The whole count units that fit in `len` bytes on `channel`. */
  function UnitsIn(channel: nat, len: nat): (r: nat)
    ensures Scale(channel, r) == len - len % BytesPerCount(channel)
    ensures Scale(channel, r) <= len
  {
    if channel >= 5 then len / 2 else len
  }

  /** The register after `flipflop_get` stores `b` into its low (`low`) or high byte. */
  function MergeByte(word: U16, b: U8, low: bool): (r: U16)
    ensures low ==> LowByte(r) == b && HighByte(r) == HighByte(word)
    ensures !low ==> HighByte(r) == b && LowByte(r) == LowByte(word)
  {
    if low then word - word % 0x100 + b else b * 0x100 + word % 0x100
  }

  function LowByte(w: U16): U8 { w % 0x100 }
  function HighByte(w: U16): U8 { w / 0x100 }

  /** `flipflop_read`: the low byte when the toggled flip-flop is 1, the high byte otherwise. */
  function ReadByte(word: U16, low: bool): (b: U8)
    ensures b == if low then LowByte(word) else HighByte(word)
  {
    if low then word % 0x100 else word / 0x100
  }

  /**
   * After a flip-flop reset the two writes of a 16-bit register land low byte
   * first, then high byte: the register ends as `hi:lo`, whatever it held.
   */
  lemma LowThenHigh(word: U16, lo: U8, hi: U8)
    ensures MergeByte(MergeByte(word, lo, true), hi, false) == hi * 0x100 + lo
  {
  }

  /** A read in the same flip-flop phase returns the byte just written there. */
  lemma ReadBackByte(word: U16, b: U8, low: bool)
    ensures ReadByte(MergeByte(word, b, low), low) == b
    ensures ReadByte(MergeByte(word, b, low), !low) == ReadByte(word, !low)
  {
  }

  /** The listener calls made when a mask byte changes from `previous` to `value` on `channel`. */
  function FiredCalls(previous: U8, value: U8, channel: nat, listeners: seq<ListenerId>): (r: seq<UnmaskCall>)
    ensures |r| == if previous != value && value == 0 then |listeners| else 0
    ensures forall i :: 0 <= i < |r| ==> r[i] == UnmaskCall(listeners[i], channel)
  {
    if previous != value && value == 0 then seq(|listeners|, i requires 0 <= i < |listeners| => UnmaskCall(listeners[i], channel))
    else []
  }

  /** The value `port_multimask_write` hands to `update_mask` for bit i: the raw masked bit. */
  function MaskBit(b: U8, i: nat): (r: U8)
    requires i < 8
    ensures r == 0 || r == Bit(i)
  {
    (b / Bit(i)) % 2 * Bit(i)
  }

  /** `1 << i` for a bit position of a byte. */
  function Bit(i: nat): (r: U8)
    requires i < 8
    ensures r > 0
  {
    if i == 0 then 1 else if i == 1 then 2 else if i == 2 then 4 else if i == 3 then 8
    else if i == 4 then 16 else if i == 5 then 32 else if i == 6 then 64 else 128
  }

  /** `mode & 0x10`: the autoinit bit of a mode byte. */
  predicate Autoinit(mode: U8)
  {
    (mode / 0x10) % 2 == 1
  }

  /** The listener calls made by the first n steps of a multi-mask write. */
  function MultimaskCalls(oldMask: seq<U8>, offset: nat, b: U8, n: nat, listeners: seq<ListenerId>): seq<UnmaskCall>
    requires n <= 4 && offset + 4 <= |oldMask|
  {
    if n == 0 then []
    else MultimaskCalls(oldMask, offset, b, n - 1, listeners) +
         FiredCalls(oldMask[offset + n - 1], MaskBit(b, n - 1), offset + n - 1, listeners)
  }

  /** `port_multimask_read` over four mask bytes. */
  function MultimaskValue(m0: U8, m1: U8, m2: U8, m3: U8): (v: nat)
    ensures m0 <= 1 && m1 <= 1 && m2 <= 1 && m3 <= 1 ==> v == m0 + 2 * m1 + 4 * m2 + 8 * m3
  {
    ((m0 as bv16) | ((m1 as bv16) << 1) | ((m2 as bv16) << 2) | ((m3 as bv16) << 3)) as nat
  }

  /** Four 0/1 digits packed as binary read back digit by digit. */
  lemma PackedDigits(a: int, b: int, c: int, d: int)
    requires 0 <= a <= 1 && 0 <= b <= 1 && 0 <= c <= 1 && 0 <= d <= 1
    ensures var v := a + 2 * b + 4 * c + 8 * d;
      v % 2 == a && (v / 2) % 2 == b && (v / 4) % 2 == c && (v / 8) % 2 == d
  {
  }

  /** With 0/1 masks, bit i of the packed value is mask i. */
  lemma MultimaskValueBits(m: seq<U8>)
    requires |m| == 4 && forall i :: 0 <= i < 4 ==> m[i] <= 1
    ensures var v := MultimaskValue(m[0], m[1], m[2], m[3]);
      v < 16 && forall i :: 0 <= i < 4 ==> MaskBit(v, i) == Bit(i) * m[i]
  {
    var v := MultimaskValue(m[0], m[1], m[2], m[3]);
    PackedDigits(m[0], m[1], m[2], m[3]);
    assert MaskBit(v, 0) == m[0] && MaskBit(v, 1) == 2 * m[1] && MaskBit(v, 2) == 4 * m[2] && MaskBit(v, 3) == 8 * m[3];
  }

  /**
   * Because a multi-mask write stores the raw bit `b & (1 << i)` and the read
   * shifts each byte by i again, reading back 0x0F after writing 0x0F gives 0x55.
   */
  lemma MultimaskReadBackSpreadsBits()
    ensures MultimaskValue(MaskBit(0x0F, 0), MaskBit(0x0F, 1), MaskBit(0x0F, 2), MaskBit(0x0F, 3)) == 0x55
    ensures MultimaskValue(MaskBit(0x01, 0), MaskBit(0x01, 1), MaskBit(0x01, 2), MaskBit(0x01, 3)) == 0x01
  {
    assert MaskBit(0x0F, 0) == 1 && MaskBit(0x0F, 1) == 2 && MaskBit(0x0F, 2) == 4 && MaskBit(0x0F, 3) == 8;
    assert (1 as bv16) | ((2 as bv16) << 1) | ((4 as bv16) << 2) | ((8 as bv16) << 3) == 0x55;
    assert MaskBit(0x01, 0) == 1 && MaskBit(0x01, 1) == 0 && MaskBit(0x01, 2) == 0 && MaskBit(0x01, 3) == 0;
  }

  /** `address_get_8bit` for a channel's registers: the 16-bit offset (doubled on 16-bit channels), page and high page. */
  function Address8Bit(channel: nat, c: Channel): (r: U32)
    ensures r % 0x1_0000 == if channel >= 5 then (2 * c.addr) % 0x1_0000 else c.addr
    ensures (r / 0x1_0000) % 0x100 == c.page
    ensures r / 0x100_0000 == c.pagehi
  {
    var low := if channel >= 5 then (2 * c.addr) % 0x1_0000 else c.addr;
    low + c.page * 0x1_0000 + c.pagehi * 0x100_0000
  }

  /** `count_get_8bit`: the programmed length in bytes, `count + 1` units. */
  function Count8Bit(channel: nat, c: Channel): (r: nat)
    ensures 1 <= r <= Scale(channel, 0x1_0000)
    ensures r % BytesPerCount(channel) == 0 && r / BytesPerCount(channel) == c.count as int + 1
  {
    Scale(channel, c.count as int + 1)
  }

  /** The low 16 bits of a non-negative count, as a Uint16Array store keeps them. */
  function Truncate16(n: int): U16 { n % 0x1_0000 }

  /** One invocation of `do_write`, up to the callback it hands to `buffer.set`. */
  datatype WriteStep =
    | StepFault
    | StepDone(after: Channel, copy: Transfer)
    | StepContinue(after: Channel, copy: Transfer, nextStart: nat, nextLen: nat)

  /**
   * One `do_write` step with the units of a programmed count taken as `units`
   * (`count + 1` in the corrected model).
   */
  function WriteStepWith(units: nat, channel: nat, c: Channel, bufferLength: nat, start: nat, len: nat): WriteStep
  {
    var autoinit := Autoinit(c.mode);
    var unfinished := len < Scale(channel, units);
    var readCount := if unfinished then UnitsIn(channel, len) else units;
    var readBytes := Scale(channel, readCount);
    var wantMore := !unfinished && len > readBytes;
    if start + readBytes > bufferLength then StepFault
    else
      var moved := c.(addr := Truncate16(c.addr + readCount), count := Truncate16(c.count - readCount));
      var after := if !unfinished && autoinit then moved.(addr := c.addrInit, count := c.countInit) else moved;
      var copy := Transfer(start, Address8Bit(channel, c), readBytes);
      if wantMore && autoinit then StepContinue(after, copy, start + readBytes, len - readBytes)
      else StepDone(after, copy)
  }

  /** `do_write` as written: `read_count = (count + 1) & 0xFFFF`, so a count of 0xFFFF moves nothing. */
  function WriteStepAsWritten(channel: nat, c: Channel, bufferLength: nat, start: nat, len: nat): WriteStep
  {
    WriteStepWith(((c.count as int + 1) % 0x1_0000), channel, c, bufferLength, start, len)
  }

  /** `do_write` with the count read as `count + 1` units, as `count_get_8bit` reads it. */
  function WriteStep1(channel: nat, c: Channel, bufferLength: nat, start: nat, len: nat): (s: WriteStep)
    ensures s.StepContinue? ==> s.nextLen < len && s.nextStart == start + (len - s.nextLen)
  {
    WriteStepWith(c.count as int + 1, channel, c, bufferLength, start, len)
  }

  /**
   * With count and initial count 0xFFFF and autoinit set, the as-written step
   * moves no bytes and asks to continue at the same start and length, from a
   * state on which the next step does exactly the same: the recursion of
   * `do_write` never ends.
   */
  lemma AsWrittenAutoinitNeverEnds(channel: nat, c: Channel, bufferLength: nat, start: nat, len: nat)
    requires c.count == 0xFFFF && c.countInit == 0xFFFF && Autoinit(c.mode)
    requires 0 < len && start <= bufferLength
    ensures var s := WriteStepAsWritten(channel, c, bufferLength, start, len);
      s.StepContinue? && s.nextStart == start && s.nextLen == len && s.copy.length == 0 &&
      WriteStepAsWritten(channel, s.after, bufferLength, start, len) ==
        StepContinue(s.after, Transfer(start, Address8Bit(channel, s.after), 0), start, len)
  {
  }

  /**
   * Without autoinit a count of 0xFFFF is just as wrong as written: the step
   * moves no bytes, leaves the channel as it was and calls back with success.
   */
  lemma AsWrittenFullCountMovesNothing(channel: nat, c: Channel, bufferLength: nat, start: nat, len: nat)
    requires c.count == 0xFFFF && !Autoinit(c.mode) && start <= bufferLength
    ensures WriteStepAsWritten(channel, c, bufferLength, start, len) ==
      StepDone(c, Transfer(start, Address8Bit(channel, c), 0))
  {
  }

  /**
   * The corrected step on the same channel moves the full 65536 units, or as
   * many whole units as `len` holds when that is fewer.
   */
  lemma CorrectedFullCountMoves(channel: nat, c: Channel, bufferLength: nat, start: nat, len: nat)
    requires c.count == 0xFFFF && !Autoinit(c.mode)
    requires start + len <= bufferLength
    ensures var units := if len < Scale(channel, 0x1_0000) then UnitsIn(channel, len) else 0x1_0000;
      WriteStep1(channel, c, bufferLength, start, len) ==
        StepDone(c.(addr := Truncate16(c.addr + units), count := Truncate16(c.count - units)),
          Transfer(start, Address8Bit(channel, c), Scale(channel, units)))
  {
  }

  /** The outcome of a whole `do_write`, callbacks included. */
  datatype WriteRun = WriteRun(final: Channel, error: bool, transfers: seq<Transfer>)

  /** `do_write` followed through its continuations until it calls back. */
  function RunWrite(channel: nat, c: Channel, bufferLength: nat, start: nat, len: nat): WriteRun
    decreases len
  {
    match WriteStep1(channel, c, bufferLength, start, len)
    case StepFault => WriteRun(c, true, [])
    case StepDone(after, copy) => WriteRun(after, false, [copy])
    case StepContinue(after, copy, nextStart, nextLen) =>
      var rest := RunWrite(channel, after, bufferLength, nextStart, nextLen);
      WriteRun(rest.final, rest.error, [copy] + rest.transfers)
  }

  function TotalBytes(ts: seq<Transfer>): nat
  {
    if ts == [] then 0 else ts[0].length + TotalBytes(ts[1..])
  }

  /** Each transfer starts in the buffer where the previous one ended, the first at `start`. */
  predicate Contiguous(ts: seq<Transfer>, start: nat)
  {
    forall i :: 0 <= i < |ts| ==> ts[i].bufferStart == start + TotalBytes(ts[..i])
  }

  lemma {:induction false} TotalBytesAppend(a: seq<Transfer>, b: seq<Transfer>)
    ensures TotalBytes(a + b) == TotalBytes(a) + TotalBytes(b)
    decreases |a|
  {
    if a == [] {
      assert a + b == b;
    } else {
      assert (a + b)[0] == a[0];
      assert (a + b)[1..] == a[1..] + b;
      TotalBytesAppend(a[1..], b);
    }
  }

  /**
   * The bookkeeping of a single step: it moves `min(count + 1, floor(len / bpc))`
   * units, adds them to `addr` and takes them from `count` modulo 2^16, unless
   * the block is complete under autoinit, in which case both registers are
   * reloaded from their initial latches. A step that would run past the buffer
   * changes nothing.
   */
  lemma StepBookkeeping(channel: nat, c: Channel, bufferLength: nat, start: nat, len: nat)
    ensures var block := c.count as int + 1;
      var units := if block <= UnitsIn(channel, len) then block else UnitsIn(channel, len);
      var s := WriteStep1(channel, c, bufferLength, start, len);
      (s.StepFault? <==> start + Scale(channel, units) > bufferLength) &&
      (!s.StepFault? ==>
        s.copy == Transfer(start, Address8Bit(channel, c), Scale(channel, units)) &&
        s.after.addrInit == c.addrInit && s.after.countInit == c.countInit &&
        s.after.page == c.page && s.after.pagehi == c.pagehi && s.after.mode == c.mode &&
        (if len >= Scale(channel, block) && Autoinit(c.mode)
         then s.after.addr == c.addrInit && s.after.count == c.countInit
         else s.after.addr == (c.addr + units) % 0x1_0000 && s.after.count == (c.count - units) % 0x1_0000) &&
        (s.StepContinue? <==> Autoinit(c.mode) && len > Scale(channel, block)))
  {
  }

  /**
   * Over a whole run the buffer is filled front to back without gaps; the run
   * never moves more than `len` bytes, and only the address and count registers
   * change. A run that fails on its first step leaves the channel unchanged.
   */
  lemma {:induction false} RunShape(channel: nat, c: Channel, bufferLength: nat, start: nat, len: nat)
    ensures var r := RunWrite(channel, c, bufferLength, start, len);
      Contiguous(r.transfers, start) && TotalBytes(r.transfers) <= len &&
      r.final.addrInit == c.addrInit && r.final.countInit == c.countInit &&
      r.final.page == c.page && r.final.pagehi == c.pagehi && r.final.mode == c.mode &&
      (WriteStep1(channel, c, bufferLength, start, len).StepFault? ==> r.final == c && r.error && r.transfers == [])
    decreases len
  {
    var s := WriteStep1(channel, c, bufferLength, start, len);
    var r := RunWrite(channel, c, bufferLength, start, len);
    match s
    case StepFault =>
    case StepDone(after, copy) =>
      assert r.transfers == [copy];
      assert TotalBytes(r.transfers[..0]) == 0;
      assert TotalBytes(r.transfers) == copy.length + TotalBytes([]);
    case StepContinue(after, copy, nextStart, nextLen) =>
      var rest := RunWrite(channel, after, bufferLength, nextStart, nextLen);
      RunShape(channel, after, bufferLength, nextStart, nextLen);
      assert r.transfers == [copy] + rest.transfers;
      assert copy.length == len - nextLen;
      TotalBytesAppend([copy], rest.transfers);
      assert TotalBytes([copy]) == copy.length + TotalBytes([]);
      forall i | 0 <= i < |r.transfers|
        ensures r.transfers[i].bufferStart == start + TotalBytes(r.transfers[..i])
      {
        if i == 0 {
          assert r.transfers[..0] == [];
        } else {
          assert r.transfers[..i] == [copy] + rest.transfers[..i - 1];
          TotalBytesAppend([copy], rest.transfers[..i - 1]);
          assert r.transfers[i] == rest.transfers[i - 1];
        }
      }
  }

  /** Under autoinit the step that ends a run moves everything of `len` that fills whole units. */
  lemma FinalStepMovesRest(channel: nat, c: Channel, bufferLength: nat, start: nat, len: nat)
    requires Autoinit(c.mode) && WriteStep1(channel, c, bufferLength, start, len).StepDone?
    ensures WriteStep1(channel, c, bufferLength, start, len).copy.length == len - len % BytesPerCount(channel)
  {
    StepBookkeeping(channel, c, bufferLength, start, len);
    var block := Scale(channel, c.count as int + 1);
    if len >= block {
      assert len == block;
      assert len % BytesPerCount(channel) == 0 by {
        if channel >= 5 { assert len == 2 * (c.count as int + 1); }
      }
    }
  }

  /** A continuing step moves a whole block, so the remaining length keeps its parity. */
  lemma ContinueStepMovesBlock(channel: nat, c: Channel, bufferLength: nat, start: nat, len: nat)
    requires WriteStep1(channel, c, bufferLength, start, len).StepContinue?
    ensures var s := WriteStep1(channel, c, bufferLength, start, len);
      s.copy.length == len - s.nextLen && len % BytesPerCount(channel) == s.nextLen % BytesPerCount(channel) &&
      s.after.mode == c.mode
  {
    StepBookkeeping(channel, c, bufferLength, start, len);
    var block := Scale(channel, c.count as int + 1);
    if channel >= 5 { assert block == 2 * (c.count as int + 1); }
  }

  /**
   * Under autoinit a run that does not fail consumes the whole of `len`, short
   * of an odd trailing byte on a 16-bit channel.
   */
  lemma {:induction false} AutoinitRunConsumesLen(channel: nat, c: Channel, bufferLength: nat, start: nat, len: nat)
    requires Autoinit(c.mode)
    requires !RunWrite(channel, c, bufferLength, start, len).error
    ensures TotalBytes(RunWrite(channel, c, bufferLength, start, len).transfers) == len - len % BytesPerCount(channel)
    decreases len
  {
    match WriteStep1(channel, c, bufferLength, start, len)
    case StepFault =>
    case StepDone(after, copy) =>
      FinalStepMovesRest(channel, c, bufferLength, start, len);
      assert TotalBytes([copy]) == copy.length + TotalBytes([]);
    case StepContinue(after, copy, nextStart, nextLen) =>
      ContinueStepMovesBlock(channel, c, bufferLength, start, len);
      var rest := RunWrite(channel, after, bufferLength, nextStart, nextLen);
      AutoinitRunConsumesLen(channel, after, bufferLength, nextStart, nextLen);
      TotalBytesAppend([copy], rest.transfers);
      assert TotalBytes([copy]) == copy.length + TotalBytes([]);
  }

  /** The mask bytes after the first n steps of a multi-mask write. */
  function MultimaskMasks(oldMask: seq<U8>, offset: nat, b: U8, n: nat): (r: seq<U8>)
    requires n <= 4 && offset + 4 <= |oldMask|
    ensures |r| == |oldMask|
  {
    if n == 0 then oldMask
    else MultimaskMasks(oldMask, offset, b, n - 1)[offset + n - 1 := MaskBit(b, n - 1)]
  }

  /** After n steps the first n of the four channels hold their raw bits and every other byte is as it was. */
  lemma {:induction false} MultimaskMaskAt(oldMask: seq<U8>, offset: nat, b: U8, n: nat, k: nat)
    requires n <= 4 && offset + 4 <= |oldMask| && k < |oldMask|
    ensures MultimaskMasks(oldMask, offset, b, n)[k] ==
      if offset <= k < offset + n then MaskBit(b, k - offset) else oldMask[k]
  {
    if n > 0 {
      MultimaskMaskAt(oldMask, offset, b, n - 1, k);
    }
  }

  /** One more step of a multi-mask write appends that step's listener calls to the log. */
  lemma MultimaskCallsStep(log: seq<UnmaskCall>, oldMask: seq<U8>, offset: nat, b: U8, n: nat, listeners: seq<ListenerId>)
    requires n < 4 && offset + 4 <= |oldMask|
    ensures log + MultimaskCalls(oldMask, offset, b, n, listeners) +
            FiredCalls(oldMask[offset + n], MaskBit(b, n), offset + n, listeners) ==
            log + MultimaskCalls(oldMask, offset, b, n + 1, listeners)
  {
    var fired := FiredCalls(oldMask[offset + n], MaskBit(b, n), offset + n, listeners);
    assert MultimaskCalls(oldMask, offset, b, n + 1, listeners) == MultimaskCalls(oldMask, offset, b, n, listeners) + fired;
  }

  /** After all four steps exactly the four channels of the controller hold their raw bits. */
  lemma MultimaskMasksDone(oldMask: seq<U8>, offset: nat, b: U8)
    requires offset + 4 <= |oldMask|
    ensures forall k :: 0 <= k < |oldMask| ==>
      MultimaskMasks(oldMask, offset, b, 4)[k] == if offset <= k < offset + 4 then MaskBit(b, k - offset) else oldMask[k]
  {
    forall k | 0 <= k < |oldMask|
      ensures MultimaskMasks(oldMask, offset, b, 4)[k] == if offset <= k < offset + 4 then MaskBit(b, k - offset) else oldMask[k]
    {
      MultimaskMaskAt(oldMask, offset, b, 4, k);
    }
  }

  class DMA {
    const channelPage: array<U8>
    /** The high-page bank; see the finding below for the source's missing allocation. */
    const channelPagehi: array<U8>
    const channelAddr: array<U16>
    const channelAddrInit: array<U16>
    const channelCount: array<U16>
    const channelCountInit: array<U16>
    const channelMask: array<U8>
    const channelMode: array<U8>
    var unmaskListeners: seq<ListenerId>
    /** The LSB/MSB flip-flop: true is the source's 1 (low byte next touched after a toggle). */
    var lsbMsbFlipflop: bool
    /** Every listener call made so far, in order. */
    var unmaskCalls: seq<UnmaskCall>

    ghost predicate Valid()
    {
      channelPage.Length == 8 && channelPagehi.Length == 8 && channelAddr.Length == 8 &&
      channelAddrInit.Length == 8 && channelCount.Length == 8 && channelCountInit.Length == 8 &&
      channelMask.Length == 8 && channelMode.Length == 8 &&
      channelPage != channelPagehi && channelPage != channelMask && channelPage != channelMode &&
      channelPagehi != channelMask && channelPagehi != channelMode && channelMask != channelMode &&
      channelAddr != channelAddrInit && channelAddr != channelCount && channelAddr != channelCountInit &&
      channelAddrInit != channelCount && channelAddrInit != channelCountInit && channelCount != channelCountInit
    }

    /** The registers of one channel. */
    ghost function ChannelAt(ch: nat): Channel
      reads this, channelPage, channelPagehi, channelAddr, channelAddrInit, channelCount, channelCountInit, channelMode
      requires Valid() && ch < 8
    {
      Channel(channelAddr[ch], channelAddrInit[ch], channelCount[ch], channelCountInit[ch],
              channelPage[ch], channelPagehi[ch], channelMode[ch])
    }

    /** `new DMA(cpu)`: every bank zeroed (the high-page bank included), no listeners, flip-flop 0. */
    constructor()
      ensures Valid() && fresh(channelPage) && fresh(channelPagehi) && fresh(channelAddr) && fresh(channelAddrInit)
      ensures fresh(channelCount) && fresh(channelCountInit) && fresh(channelMask) && fresh(channelMode)
      ensures channelPage[..] == seq(8, _ => 0) && channelPagehi[..] == seq(8, _ => 0)
      ensures channelAddr[..] == seq(8, _ => 0) && channelAddrInit[..] == seq(8, _ => 0)
      ensures channelCount[..] == seq(8, _ => 0) && channelCountInit[..] == seq(8, _ => 0)
      ensures channelMask[..] == seq(8, _ => 0) && channelMode[..] == seq(8, _ => 0)
      ensures unmaskListeners == [] && !lsbMsbFlipflop && unmaskCalls == []
    {
      channelPage := new U8[8](_ => 0);
      channelPagehi := new U8[8](_ => 0);
      channelAddr := new U16[8](_ => 0);
      channelAddrInit := new U16[8](_ => 0);
      channelCount := new U16[8](_ => 0);
      channelCountInit := new U16[8](_ => 0);
      channelMask := new U8[8](_ => 0);
      channelMode := new U8[8](_ => 0);
      unmaskListeners := [];
      lsbMsbFlipflop := false;
      unmaskCalls := [];
    }

    /** `flipflop_get`: toggle unless continuing, then merge the byte into the half the flip-flop selects. */
    method FlipflopGet(word: U16, b: U8, continuing: bool) returns (r: U16)
      modifies this`lsbMsbFlipflop
      ensures lsbMsbFlipflop == if continuing then old(lsbMsbFlipflop) else !old(lsbMsbFlipflop)
      ensures r == MergeByte(word, b, lsbMsbFlipflop)
    {
      if !continuing {
        lsbMsbFlipflop := !lsbMsbFlipflop;
      }
      if lsbMsbFlipflop {
        r := word - word % 0x100 + b;
      } else {
        r := b * 0x100 + word % 0x100;
      }
    }

    /** `flipflop_read`: toggle, then return the byte the flip-flop selects. */
    method FlipflopRead(word: U16) returns (b: U8)
      modifies this`lsbMsbFlipflop
      ensures lsbMsbFlipflop == !old(lsbMsbFlipflop)
      ensures b == ReadByte(word, lsbMsbFlipflop)
    {
      lsbMsbFlipflop := !lsbMsbFlipflop;
      if lsbMsbFlipflop {
        b := word % 0x100;
      } else {
        b := word / 0x100;
      }
    }

    /**
     * `port_count_write`: the same byte, in the same half, goes into the current
     * count and its initial latch; the flip-flop toggles once.
     */
    method PortCountWrite(channel: nat, b: U8)
      requires Valid() && channel < 8
      modifies this`lsbMsbFlipflop, channelCount, channelCountInit
      ensures lsbMsbFlipflop == !old(lsbMsbFlipflop)
      ensures channelCount[..] == old(channelCount[..])[channel := MergeByte(old(channelCount[channel]), b, lsbMsbFlipflop)]
      ensures channelCountInit[..] == old(channelCountInit[..])[channel := MergeByte(old(channelCountInit[channel]), b, lsbMsbFlipflop)]
    {
      var r := FlipflopGet(channelCount[channel], b, false);
      channelCount[channel] := r;
      r := FlipflopGet(channelCountInit[channel], b, true);
      channelCountInit[channel] := r;
    }

    /** `port_count_read`: one byte of the current count, as the flip-flop selects. */
    method PortCountRead(channel: nat) returns (b: U8)
      requires Valid() && channel < 8
      modifies this`lsbMsbFlipflop
      ensures lsbMsbFlipflop == !old(lsbMsbFlipflop)
      ensures b == ReadByte(channelCount[channel], lsbMsbFlipflop)
    {
      b := FlipflopRead(channelCount[channel]);
    }

    /** `port_addr_write`: as `port_count_write`, on the address registers. */
    method PortAddrWrite(channel: nat, b: U8)
      requires Valid() && channel < 8
      modifies this`lsbMsbFlipflop, channelAddr, channelAddrInit
      ensures lsbMsbFlipflop == !old(lsbMsbFlipflop)
      ensures channelAddr[..] == old(channelAddr[..])[channel := MergeByte(old(channelAddr[channel]), b, lsbMsbFlipflop)]
      ensures channelAddrInit[..] == old(channelAddrInit[..])[channel := MergeByte(old(channelAddrInit[channel]), b, lsbMsbFlipflop)]
    {
      var r := FlipflopGet(channelAddr[channel], b, false);
      channelAddr[channel] := r;
      r := FlipflopGet(channelAddrInit[channel], b, true);
      channelAddrInit[channel] := r;
    }

    /** `port_addr_read`: one byte of the current address. */
    method PortAddrRead(channel: nat) returns (b: U8)
      requires Valid() && channel < 8
      modifies this`lsbMsbFlipflop
      ensures lsbMsbFlipflop == !old(lsbMsbFlipflop)
      ensures b == ReadByte(channelAddr[channel], lsbMsbFlipflop)
    {
      b := FlipflopRead(channelAddr[channel]);
    }

    /** `port_pagehi_write` (ports 0x481-0x48B; channel 4 has none). */
    method PortPagehiWrite(channel: nat, b: U8)
      requires Valid() && channel < 8
      modifies channelPagehi
      ensures channelPagehi[..] == old(channelPagehi[..])[channel := b]
    {
      channelPagehi[channel] := b;
    }

    function PortPagehiRead(channel: nat): (b: U8)
      reads this, channelPagehi
      requires Valid() && channel < 8
      ensures b == ChannelAt(channel).pagehi
    {
      channelPagehi[channel]
    }

    /** `port_page_write` (ports 0x81-0x8F). */
    method PortPageWrite(channel: nat, b: U8)
      requires Valid() && channel < 8
      modifies channelPage
      ensures channelPage[..] == old(channelPage[..])[channel := b]
    {
      channelPage[channel] := b;
    }

    function PortPageRead(channel: nat): (b: U8)
      reads this, channelPage
      requires Valid() && channel < 8
      ensures b == ChannelAt(channel).page
    {
      channelPage[channel]
    }

    /** `on_unmask`: register a listener. */
    method OnUnmask(listener: ListenerId)
      modifies this`unmaskListeners
      ensures unmaskListeners == old(unmaskListeners) + [listener]
    {
      unmaskListeners := unmaskListeners + [listener];
    }

    /**
     * `update_mask`: only the named channel's mask byte changes; when it changes
     * to 0 every listener is called with the channel, in registration order.
     * Writing the value already there does nothing.
     */
    method UpdateMask(channel: nat, value: U8)
      requires Valid() && channel < 8
      modifies channelMask, this`unmaskCalls
      ensures channelMask[..] == old(channelMask[..])[channel := value]
      ensures unmaskCalls == old(unmaskCalls) + FiredCalls(old(channelMask[channel]), value, channel, unmaskListeners)
    {
      if channelMask[channel] != value {
        channelMask[channel] := value;
        if value == 0 {
          var i := 0;
          while i < |unmaskListeners|
            modifies this`unmaskCalls
            invariant 0 <= i <= |unmaskListeners|
            invariant unmaskCalls == old(unmaskCalls) + FiredCalls(old(channelMask[channel]), value, channel, unmaskListeners)[..i]
          {
            unmaskCalls := unmaskCalls + [UnmaskCall(unmaskListeners[i], channel)];
            i := i + 1;
          }
        }
      } else {
        assert channelMask[..] == old(channelMask[..])[channel := value];
      }
    }

    /** `port_singlemask_write`: channel `(b & 3) + offset` masked when bit 2 is set, unmasked otherwise. */
    method PortSinglemaskWrite(offset: nat, b: U8)
      requires Valid() && (offset == 0 || offset == 4)
      modifies channelMask, this`unmaskCalls
      ensures var ch := b % 4 + offset;
        var v := (b / 4) % 2;
        channelMask[..] == old(channelMask[..])[ch := v] &&
        unmaskCalls == old(unmaskCalls) + FiredCalls(old(channelMask[ch]), v, ch, unmaskListeners)
    {
      var channel := b % 4 + offset;
      var value := if MaskBit(b, 2) != 0 then 1 else 0;
      UpdateMask(channel, value);
    }

    /** `port_multimask_write`: each of the four channels gets its raw bit `b & (1 << i)`. */
    method PortMultimaskWrite(offset: nat, b: U8)
      requires Valid() && (offset == 0 || offset == 4)
      modifies channelMask, this`unmaskCalls
      ensures channelMask[..] == MultimaskMasks(old(channelMask[..]), offset, b, 4)
      ensures unmaskCalls == old(unmaskCalls) + MultimaskCalls(old(channelMask[..]), offset, b, 4, unmaskListeners)
    {
      ghost var oldMask := channelMask[..];
      var i := 0;
      while i < 4
        invariant 0 <= i <= 4
        invariant channelMask[..] == MultimaskMasks(oldMask, offset, b, i)
        invariant unmaskCalls == old(unmaskCalls) + MultimaskCalls(oldMask, offset, b, i, unmaskListeners)
      {
        MultimaskMaskAt(oldMask, offset, b, i, offset + i);
        UpdateMask(offset + i, MaskBit(b, i));
        MultimaskCallsStep(old(unmaskCalls), oldMask, offset, b, i, unmaskListeners);
        i := i + 1;
      }
    }

    /** `port_multimask_read`: the four mask bytes of a controller, byte i shifted left by i. */
    function PortMultimaskRead(offset: nat): (v: nat)
      reads this, channelMask
      requires Valid() && (offset == 0 || offset == 4)
      ensures (forall k :: offset <= k < offset + 4 ==> channelMask[k] <= 1) ==>
        v < 16 && forall i :: 0 <= i < 4 ==> MaskBit(v, i) == Bit(i) * channelMask[offset + i]
    {
      var m := channelMask[offset..offset + 4];
      if forall i :: 0 <= i < 4 ==> m[i] <= 1 then
        MultimaskValueBits(m);
        MultimaskValue(m[0], m[1], m[2], m[3])
      else
        MultimaskValue(m[0], m[1], m[2], m[3])
    }

    /** `port_mode_write`: the whole byte becomes the mode of channel `(b & 3) + offset`. */
    method PortModeWrite(offset: nat, b: U8)
      requires Valid() && (offset == 0 || offset == 4)
      modifies channelMode
      ensures channelMode[..] == old(channelMode[..])[b % 4 + offset := b]
    {
      channelMode[b % 4 + offset] := b;
    }

    /** `portC_write` (ports 0x0C and 0xD8): reset the flip-flop, whatever the byte. */
    method PortCWrite(b: U8)
      modifies this`lsbMsbFlipflop
      ensures !lsbMsbFlipflop
    {
      lsbMsbFlipflop := false;
    }

    /** `address_get_8bit` of a channel. */
    function AddressGet8Bit(channel: nat): (r: U32)
      reads this, channelPage, channelPagehi, channelAddr, channelAddrInit, channelCount, channelCountInit, channelMode
      requires Valid() && channel < 8
      ensures r == Address8Bit(channel, ChannelAt(channel))
    {
      Address8Bit(channel, Channel(channelAddr[channel], channelAddrInit[channel], channelCount[channel],
        channelCountInit[channel], channelPage[channel], channelPagehi[channel], channelMode[channel]))
    }

    /** `count_get_8bit` of a channel. */
    function CountGet8Bit(channel: nat): (r: nat)
      reads this, channelCount
      requires Valid() && channel < 8
      ensures 1 <= r <= Scale(channel, 0x1_0000)
      ensures r / BytesPerCount(channel) == channelCount[channel] as int + 1
    {
      Scale(channel, channelCount[channel] as int + 1)
    }

    /**
     * `do_read`: copy `count_get_8bit` bytes from the buffer to memory at
     * `address_get_8bit`. A copy that would run past the buffer calls back with an
     * error and changes nothing; otherwise the address register advances by the
     * byte count modulo 2^16 and nothing else changes.
     */
    method DoRead(bufferLength: nat, start: nat, len: nat, channel: nat) returns (outcome: ReadOutcome)
      requires Valid() && channel < 8
      modifies channelAddr
      ensures var c := old(ChannelAt(channel));
        var n := Count8Bit(channel, c);
        if start + n > bufferLength then outcome == ReadFault && channelAddr[..] == old(channelAddr[..])
        else outcome == ReadDone(Transfer(start, Address8Bit(channel, c), n)) &&
             channelAddr[..] == old(channelAddr[..])[channel := Truncate16(c.addr + n)]
    {
      var readCount := CountGet8Bit(channel);
      var addr := AddressGet8Bit(channel);
      if start + readCount > bufferLength {
        outcome := ReadFault;
      } else {
        channelAddr[channel] := Truncate16(channelAddr[channel] + readCount);
        outcome := ReadDone(Transfer(start, addr, readCount));
      }
    }

    /**
     * `do_write`: copy from memory into the buffer, following the autoinit
     * continuation until it calls back. Only this channel's address and count
     * registers change, exactly as `RunWrite` says.
     */
    method DoWrite(bufferLength: nat, start: nat, len: nat, channel: nat) returns (error: bool, transfers: seq<Transfer>)
      requires Valid() && channel < 8
      modifies channelAddr, channelCount
      ensures var run := RunWrite(channel, old(ChannelAt(channel)), bufferLength, start, len);
        ChannelAt(channel) == run.final && error == run.error && transfers == run.transfers
      ensures forall k :: 0 <= k < 8 && k != channel ==>
        channelAddr[k] == old(channelAddr[k]) && channelCount[k] == old(channelCount[k])
      decreases len
    {
      ghost var c := ChannelAt(channel);
      var readCount := channelCount[channel] as nat + 1;
      var readBytes := Scale(channel, readCount);
      var addr := AddressGet8Bit(channel);
      var unfinished := false;
      var wantMore := false;
      var autoinit := Autoinit(channelMode[channel]);
      if len < readBytes {
        readCount := UnitsIn(channel, len);
        readBytes := Scale(channel, readCount);
        unfinished := true;
      } else if len > readBytes {
        wantMore := true;
      }
      if start + readBytes > bufferLength {
        return true, [];
      }
      channelAddr[channel] := Truncate16(channelAddr[channel] + readCount);
      channelCount[channel] := Truncate16(channelCount[channel] - readCount);
      if !unfinished && autoinit {
        channelAddr[channel] := channelAddrInit[channel];
        channelCount[channel] := channelCountInit[channel];
      }
      var copy := Transfer(start, addr, readBytes);
      assert channelAddr[channel] == if !unfinished && autoinit then c.addrInit else Truncate16(c.addr + readCount);
      assert channelCount[channel] == if !unfinished && autoinit then c.countInit else Truncate16(c.count - readCount);
      assert ChannelAt(channel) == if !unfinished && autoinit then c.(addr := c.addrInit, count := c.countInit)
        else c.(addr := Truncate16(c.addr + readCount), count := Truncate16(c.count - readCount));
      assert wantMore == (!unfinished && len > readBytes);
      assert WriteStep1(channel, c, bufferLength, start, len) ==
        if wantMore && autoinit then StepContinue(ChannelAt(channel), copy, start + readBytes, len - readBytes)
        else StepDone(ChannelAt(channel), copy);
      if wantMore && autoinit {
        var rest;
        error, rest := DoWrite(bufferLength, start + readBytes, len - readBytes, channel);
        transfers := [copy] + rest;
      } else {
        error, transfers := false, [copy];
      }
    }
  }

  /**
   * The constructor as written allocates `channel_page` twice and never
   * allocates `channel_pagehi`, so the high-page bank is undefined (None here)
   * and reading an entry of it throws. `address_get_8bit` reads it on every
   * call, so as written it fails (None) for every channel and register value.
   */
  function AddressGet8BitAsWritten(channel: nat, c: Channel, pagehiBank: Option<seq<U8>>): Option<U32>
    requires channel < 8
  {
    match pagehiBank
    case None => None
    case Some(bank) =>
      if |bank| <= channel then None
      else Some(Address8Bit(channel, c.(pagehi := bank[channel])))
  }

  /** The high-page bank the source's constructor leaves behind: none at all. */
  function PagehiBankAsConstructed(): Option<seq<U8>> { None }

  /** Consequently every `do_read` and `do_write` on a freshly built controller throws before it moves a byte. */
  lemma FreshControllerCannotComposeAddress(channel: nat, c: Channel)
    requires channel < 8
    ensures AddressGet8BitAsWritten(channel, c, PagehiBankAsConstructed()) == None
    ensures AddressGet8BitAsWritten(channel, c, Some(seq(8, _ => 0))) == Some(Address8Bit(channel, c.(pagehi := 0)))
  {
  }
}
