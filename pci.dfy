/**
 * The PCI configuration mechanism #1 of src/pci.ts: the address register at
 * port 0xCF8, the data window at 0xCFC, per-device 64-word configuration
 * spaces, base-address registers (BARs) whose I/O ranges move the entries of
 * the port table, and interrupt routing through the ISA bridge.
 *
 * Configuration spaces are 32-bit words (`bv32`, the bit patterns the
 * source's Int32Arrays hold); byte and half-word views over them are little
 * endian. The I/O port table is an array of opaque entries. CPU reboots and
 * interrupt requests are recorded in logs instead of being performed.
 */
module Pci {
  import opened Wrappers
  import Queues

  /** An entry of the I/O port table: the empty entry, or a device's handlers (opaque). */
  datatype PortEntry = Empty | Handlers(id: nat)

  /** A BAR descriptor after `register_device`: its size, its first word and, for I/O, the entries it owns. */
  datatype Bar = Bar(size: nat, originalBar: bv32, entries: seq<PortEntry>)

  /** A registered device: its BAR slots and its expansion ROM (`romSize` 0 for none). */
  datatype Device = Device(bars: seq<Option<Bar>>, romSize: nat, romAddress: bv32)

  /** What a caller of `register_device` supplies: id, lspci byte list, BAR sizes and ROM. */
  datatype DeviceSpec = DeviceSpec(id: nat, bytes: seq<bv8>, barSizes: seq<Option<nat>>, romSize: nat, romAddress: bv32)

  datatype IrqEvent = Raise(irq: bv8) | Lower(irq: bv8)

  const PortCount: nat := 0x1_0000

  // ---- Little-endian views of a configuration word ----

  function ByteOf(w: bv32, j: nat): bv8
    requires j < 4
  {
    if j == 0 then (w & 0xFF) as bv8
    else if j == 1 then ((w >> 8) & 0xFF) as bv8
    else if j == 2 then ((w >> 16) & 0xFF) as bv8
    else (w >> 24) as bv8
  }

  function WordOf(b0: bv8, b1: bv8, b2: bv8, b3: bv8): (w: bv32)
    ensures ByteOf(w, 0) == b0 && ByteOf(w, 1) == b1 && ByteOf(w, 2) == b2 && ByteOf(w, 3) == b3
  {
    (b0 as bv32) | ((b1 as bv32) << 8) | ((b2 as bv32) << 16) | ((b3 as bv32) << 24)
  }

  /** The bytes of a word, lowest address first. */
  function BytesOf(w: bv32): (r: seq<bv8>)
    ensures |r| == 4 && WordOf(r[0], r[1], r[2], r[3]) == w
  {
    [ByteOf(w, 0), ByteOf(w, 1), ByteOf(w, 2), ByteOf(w, 3)]
  }

  /** A store through the Uint8Array view: byte j of the word becomes b. */
  function WithByte(w: bv32, j: nat, b: bv8): (r: bv32)
    requires j < 4
    ensures ByteOf(r, j) == b
    ensures forall k :: 0 <= k < 4 && k != j ==> ByteOf(r, k) == ByteOf(w, k)
  {
    var r := if j == 0 then (w & 0xFFFF_FF00) | (b as bv32)
      else if j == 1 then (w & 0xFFFF_00FF) | ((b as bv32) << 8)
      else if j == 2 then (w & 0xFF00_FFFF) | ((b as bv32) << 16)
      else (w & 0x00FF_FFFF) | ((b as bv32) << 24);
    StoredByte(w, j, b, r);
    r
  }

  lemma StoredByte(w: bv32, j: nat, b: bv8, r: bv32)
    requires j < 4
    requires r == if j == 0 then (w & 0xFFFF_FF00) | (b as bv32)
      else if j == 1 then (w & 0xFFFF_00FF) | ((b as bv32) << 8)
      else if j == 2 then (w & 0xFF00_FFFF) | ((b as bv32) << 16)
      else (w & 0x00FF_FFFF) | ((b as bv32) << 24)
    ensures ByteOf(r, j) == b
    ensures ByteOf(r, 0) == (if j == 0 then b else ByteOf(w, 0))
    ensures ByteOf(r, 1) == (if j == 1 then b else ByteOf(w, 1))
    ensures ByteOf(r, 2) == (if j == 2 then b else ByteOf(w, 2))
    ensures ByteOf(r, 3) == (if j == 3 then b else ByteOf(w, 3))
  {
    if j == 0 {
      assert ByteOf(r, 0) == b;
    } else if j == 1 {
      assert ByteOf(r, 1) == b;
    } else if j == 2 {
      assert ByteOf(r, 2) == b;
    } else {
      assert ByteOf(r, 3) == b;
    }
  }

  /** A store through the Uint16Array view: half-word h of the word becomes v. */
  function WithHalf(w: bv32, h: nat, v: bv16): (r: bv32)
    requires h < 2
    ensures ByteOf(r, 2 * h) == (v & 0xFF) as bv8 && ByteOf(r, 2 * h + 1) == (v >> 8) as bv8
    ensures ByteOf(r, 2 - 2 * h) == ByteOf(w, 2 - 2 * h) && ByteOf(r, 3 - 2 * h) == ByteOf(w, 3 - 2 * h)
  {
    if h == 0 then (w & 0xFFFF_0000) | (v as bv32) else (w & 0x0000_FFFF) | ((v as bv32) << 16)
  }

  /** `new Int32Array(64)` set from the byte list of an lspci dump. */
  function SpaceFromBytes(bytes: seq<bv8>): (space: seq<bv32>)
    requires |bytes| <= 256 && |bytes| % 4 == 0
    ensures |space| == 64
  {
    seq(64, i requires 0 <= i < 64 =>
      if 4 * i < |bytes| then WordOf(bytes[4 * i], bytes[4 * i + 1], bytes[4 * i + 2], bytes[4 * i + 3]) else 0)
  }

  /** The space reads back the byte list little endian: byte k is byte k % 4 of word k / 4; words past it are 0. */
  lemma SpaceFromBytesReadsBack(bytes: seq<bv8>)
    requires |bytes| <= 256 && |bytes| % 4 == 0
    ensures forall k :: 0 <= k < |bytes| ==> ByteOf(SpaceFromBytes(bytes)[k / 4], k % 4) == bytes[k]
    ensures forall i :: |bytes| / 4 <= i < 64 ==> SpaceFromBytes(bytes)[i] == 0
  {
    var space := SpaceFromBytes(bytes);
    forall k | 0 <= k < |bytes|
      ensures ByteOf(space[k / 4], k % 4) == bytes[k]
    {
      var i := k / 4;
      assert 4 * i + 3 < |bytes| && k == 4 * i + k % 4;
      assert space[i] == WordOf(bytes[4 * i], bytes[4 * i + 1], bytes[4 * i + 2], bytes[4 * i + 3]);
    }
  }

  // ---- BARs ----

  /** The port a BAR word selects: `word & ~1 & 0xFFFF`. */
  function PortBase(w: bv32): (p: nat)
    ensures p < PortCount && p % 2 == 0
  {
    var m := w & 0xFFFE;
    assert m as int < 0x1_0000 && (m as int) % 2 == 0;
    m as int
  }

  /** Below 0x10000 the mask changes nothing: the port is `word & ~1` itself. */
  lemma PortBaseOfPortWord(w: bv32)
    requires w < 0x1_0000
    ensures PortBase(w) == (w & !1) as int
  {
    assert w & 0xFFFE == w & !1;
  }

  /** The size check `(written | 3 | (size - 1)) === -1` of a BAR write. */
  predicate IsSizeProbe(written: bv32, size: nat)
    requires 0 < size < 0x1_0000_0000
  {
    written | 3 | ((size as bv32) - 1) == 0xFFFF_FFFF
  }

  /** The word a size probe leaves: `~(size - 1) | type`. */
  function ProbeAnswer(size: nat, typ: bv32): bv32
    requires 0 < size < 0x1_0000_0000
  {
    !((size as bv32) - 1) | typ
  }

  /** `size as bv32` keeps the lower bounds the BAR lemmas need. */
  lemma CastAtLeast16(size: nat)
    requires 16 <= size < 0x1_0000_0000
    ensures size as bv32 >= 16
  {
  }

  lemma CastAtLeast2(size: nat)
    requires 2 <= size < 0x1_0000_0000
    ensures size as bv32 >= 2
  {
  }

  /**
   * The point of the probe: masking off the low four bits of the answer and
   * complementing gives back the size of a memory BAR (16 bytes or more), and
   * the type bit survives.
   */
  lemma ProbeRevealsSize(size: nat, typ: bv32)
    requires Queues.IsPowerOfTwoSize(size) && 16 <= size && (typ == 0 || typ == 1)
    ensures !(ProbeAnswer(size, typ) & 0xFFFF_FFF0) + 1 == size as bv32
    ensures ProbeAnswer(size, typ) & 1 == typ
  {
    CastAtLeast16(size);
    ProbeBits(size as bv32, typ);
  }

  lemma ProbeBits(s: bv32, typ: bv32)
    requires s >= 16 && s & (s - 1) == 0 && (typ == 0 || typ == 1)
    ensures !((!(s - 1) | typ) & 0xFFFF_FFF0) + 1 == s
    ensures (!(s - 1) | typ) & 1 == typ
  {
  }

  /** A BAR descriptor agrees with its current word: power-of-two size, same type bit, I/O entries for the whole range. */
  ghost predicate BarWellFormed(b: Bar, word: bv32)
  {
    BarShape(b) && word & 1 == b.originalBar & 1
  }

  /** What a descriptor guarantees on its own: power-of-two size, I/O entries for the whole range. */
  predicate BarShape(b: Bar)
  {
    Queues.IsPowerOfTwoSize(b.size) && 2 <= b.size &&
    (b.originalBar & 1 == 1 ==> |b.entries| == b.size)
  }

  ghost predicate DeviceWellFormed(d: Device, space: seq<bv32>)
  {
    |space| == 64 && |d.bars| <= 6 &&
    forall i :: 0 <= i < |d.bars| && d.bars[i].Some? ==> BarWellFormed(d.bars[i].value, space[4 + i])
  }

  /**
   * `set_io_bars` as the port table should end: every port of the new range
   * (from 0x1000 up) holds the BAR's entry, every other port of the old range
   * (from 0x1000 up) is empty, and all other ports are unchanged.
   */
  function RelocatedPorts(table: seq<PortEntry>, entries: seq<PortEntry>, size: nat, from: nat, to: nat): (r: seq<PortEntry>)
    requires |table| == PortCount && size <= |entries|
    ensures |r| == PortCount
  {
    seq(PortCount, p requires 0 <= p < PortCount =>
      if to <= p < to + size && p >= 0x1000 then entries[p - to]
      else if from <= p < from + size && p >= 0x1000 then Empty
      else table[p])
  }

  /** The outcome of moving an I/O range: false where the source throws, with the table as it then is. */
  datatype MoveResult = MoveResult(ok: bool, table: seq<PortEntry>)

  /**
   * `set_io_bars` as written: iteration i empties port `from + i`, then places
   * `entries[i]` at `to + i` (each only from 0x1000 up). Indexing past the table
   * throws, at the point the source reads the missing entry.
   */
  function MoveIoRangeAsWritten(table: seq<PortEntry>, entries: seq<PortEntry>, from: nat, to: nat, n: nat): (r: MoveResult)
    requires |table| == PortCount && n <= |entries|
    ensures |r.table| == PortCount
  {
    if n == 0 then MoveResult(true, table)
    else
      var prev := MoveIoRangeAsWritten(table, entries, from, to, n - 1);
      var i := n - 1;
      if !prev.ok then prev
      else if from + i >= PortCount then MoveResult(false, prev.table)
      else
        var t1 := if from + i >= 0x1000 then prev.table[from + i := Empty] else prev.table;
        if to + i >= PortCount then MoveResult(false, t1)
        else MoveResult(true, if to + i >= 0x1000 then t1[to + i := entries[i]] else t1)
  }

  /**
   * Moving a range up by less than its size loses entries: with size 4 from
   * 0x1000 to 0x1002, iteration 2 empties port 0x1002 after iteration 0 had put
   * `entries[0]` there, and the table ends with 0x1002 and 0x1003 empty.
   */
  lemma OverlappingMoveLosesEntries(table: seq<PortEntry>, entries: seq<PortEntry>)
    requires |table| == PortCount && |entries| == 4 && entries[0] != Empty
    ensures var r := MoveIoRangeAsWritten(table, entries, 0x1000, 0x1002, 4);
      r.ok && r.table[0x1002] == Empty && r.table[0x1003] == Empty &&
      RelocatedPorts(table, entries, 4, 0x1000, 0x1002)[0x1002] == entries[0]
  {
    var r1 := MoveIoRangeAsWritten(table, entries, 0x1000, 0x1002, 1);
    var r2 := MoveIoRangeAsWritten(table, entries, 0x1000, 0x1002, 2);
    var r3 := MoveIoRangeAsWritten(table, entries, 0x1000, 0x1002, 3);
    var r0 := MoveIoRangeAsWritten(table, entries, 0x1000, 0x1002, 0);
    assert r0 == MoveResult(true, table);
    assert r1 == MoveResult(true, table[0x1000 := Empty][0x1002 := entries[0]]);
    assert r2.ok;
    assert r3.ok;
    assert r3.table[0x1002 := Empty][0x1004 := entries[2]][0x1002] == Empty;
  }

  /** When the ranges do not overlap, the as-written loop and the intended relocation agree. */
  lemma {:induction false} DisjointMoveAsIntended(table: seq<PortEntry>, entries: seq<PortEntry>, size: nat, from: nat, to: nat, n: nat)
    requires |table| == PortCount && size <= |entries| && n <= size
    requires from + size <= PortCount && to + size <= PortCount
    requires from + size <= to || to + size <= from
    ensures var r := MoveIoRangeAsWritten(table, entries, from, to, n);
      r.ok && r.table == RelocatedPorts(table, entries, n, from, to)
    decreases n
  {
    if n > 0 {
      DisjointMoveAsIntended(table, entries, size, from, to, n - 1);
      var prev := MoveIoRangeAsWritten(table, entries, from, to, n - 1);
      var r := MoveIoRangeAsWritten(table, entries, from, to, n);
      var want := RelocatedPorts(table, entries, n, from, to);
      forall p | 0 <= p < PortCount
        ensures r.table[p] == want[p]
      {
      }
    }
  }

  // ---- Interrupt routing ----

  /** The ISA-bridge byte index (0-3 past 0x60) that `raise_irq` reads for a device. */
  function RaisePin(pciId: nat, interruptWord: bv32): nat
  {
    var pin := ((interruptWord >> 8) & 0xFF) as int - 1;
    var device := (pciId / 8 - 1) % 0x100;
    (pin + device) % 4
  }

  /** The ISA-bridge byte index that `lower_irq` reads for a device. */
  function LowerPin(pciId: nat, interruptWord: bv32): nat
  {
    var pin := ((interruptWord >> 8) & 0xFF) as int;
    var device := (pciId / 8) % 0x100;
    (pin + device - 2) % 4
  }

  /** Raising and lowering a device's interrupt always go through the same PIRQ routing byte: `(pin + dev - 2) & 3`. */
  lemma RaiseAndLowerAgree(pciId: nat, interruptWord: bv32)
    ensures RaisePin(pciId, interruptWord) == LowerPin(pciId, interruptWord)
    ensures RaisePin(pciId, interruptWord) == (((interruptWord >> 8) & 0xFF) as int + pciId / 8 - 2) % 4
  {
    var pin := ((interruptWord >> 8) & 0xFF) as int;
    var d := pciId / 8;
    ByteWrapMod4(pin - 1, d - 1);
    ByteWrapMod4(pin - 2, d);
  }

  /** Reducing one summand modulo 256 does not change the sum modulo 4. */
  lemma ByteWrapMod4(a: int, b: int)
    ensures (a + b % 0x100) % 4 == (a + b) % 4
  {
    var q := b / 0x100;
    assert b % 0x100 == b - 0x100 * q;
    AddMultipleOf4(a + b % 0x100, 0x40 * q);
  }

  lemma AddMultipleOf4(x: int, k: int)
    ensures (x + 4 * k) % 4 == x % 4
  {
  }

  // ---- The two bridges the constructor registers ----

  /** 00:00.0 Host bridge 82441FX PMC; byte 0x59 is PAM0 = 0x10. */
  function HostBridgeBytes(): (r: seq<bv8>)
    ensures |r| == 96 && r[0x59] == 0x10
  {
    [0x86, 0x80, 0x37, 0x12, 0x00, 0x00, 0x00, 0x00, 0x02, 0x00, 0x00, 0x06, 0x00, 0x00, 0x00, 0x00] +
    seq(73, _ => 0) + [0x10] + seq(6, _ => 0)
  }

  /** 00:01.0 ISA bridge 82371SB PIIX3. */
  function IsaBridgeBytes(): (r: seq<bv8>)
    ensures |r| == 64
  {
    [0x86, 0x80, 0x00, 0x70, 0x07, 0x00, 0x00, 0x02, 0x00, 0x00, 0x01, 0x06, 0x00, 0x00, 0x80, 0x00] +
    seq(48, _ => 0)
  }

  /** The ISA device number of a bdf: `bdf >> 3 & 0x1F`. */
  function DeviceNumber(bdf: nat): nat { (bdf / 8) % 32 }

  /** The descriptor `register_device` builds for one BAR slot from its size and initial word. */
  function BarOf(size: Option<nat>, word: bv32, table: seq<PortEntry>): Option<Bar>
    requires |table| == PortCount
    requires size.Some? && word & 1 == 1 ==> word < 0x1_0000 && PortBase(word) + size.value <= PortCount
  {
    match size
    case None => None
    case Some(n) => Some(Bar(n, word, if word & 1 == 1 then table[PortBase(word)..PortBase(word) + n] else []))
  }

  /** The BAR descriptors of all slots. */
  function BarsOf(barSizes: seq<Option<nat>>, space: seq<bv32>, table: seq<PortEntry>): (bars: seq<Option<Bar>>)
    requires |barSizes| <= 6 && |space| == 64 && |table| == PortCount
    requires forall i :: 0 <= i < |barSizes| && barSizes[i].Some? && space[4 + i] & 1 == 1 ==>
      space[4 + i] < 0x1_0000 && PortBase(space[4 + i]) + barSizes[i].value <= PortCount
    ensures |bars| == |barSizes|
    ensures forall i :: 0 <= i < |barSizes| ==> bars[i] == BarOf(barSizes[i], space[4 + i], table)
  {
    seq(|barSizes|, i requires 0 <= i < |barSizes| => BarOf(barSizes[i], space[4 + i], table))
  }

  /** A device as `register_device` builds it satisfies the BAR invariant. */
  lemma RegisteredDeviceWellFormed(spec: DeviceSpec, table: seq<PortEntry>)
    requires |table| == PortCount
    requires 64 <= |spec.bytes| <= 256 && |spec.bytes| % 4 == 0 && |spec.barSizes| <= 6
    requires forall i :: 0 <= i < |spec.barSizes| && spec.barSizes[i].Some? ==>
      Queues.IsPowerOfTwoSize(spec.barSizes[i].value) && 2 <= spec.barSizes[i].value &&
      (SpaceFromBytes(spec.bytes)[4 + i] & 1 == 1 ==>
        SpaceFromBytes(spec.bytes)[4 + i] < 0x1_0000 &&
        PortBase(SpaceFromBytes(spec.bytes)[4 + i]) + spec.barSizes[i].value <= PortCount)
    ensures var space := SpaceFromBytes(spec.bytes);
      DeviceWellFormed(Device(BarsOf(spec.barSizes, space, table), spec.romSize, spec.romAddress), space)
  {
  }

  /** Every registered device's BAR descriptors agree with its space. */
  ghost predicate WellFormedConfig(spaces: map<nat, seq<bv32>>, devices: map<nat, Device>)
  {
    spaces.Keys == devices.Keys &&
    forall id :: id in spaces ==> id < 256 && DeviceWellFormed(devices[id], spaces[id])
  }

  /** Registering or rewriting one device keeps the configuration well formed. */
  lemma ConfigUpdate(spaces: map<nat, seq<bv32>>, devices: map<nat, Device>, id: nat, space: seq<bv32>, d: Device)
    requires WellFormedConfig(spaces, devices) && id < 256 && DeviceWellFormed(d, space)
    ensures WellFormedConfig(spaces[id := space], devices[id := d])
  {
  }

  /** The BAR slot a register offset names, if any, agrees with its word. */
  lemma BarSlotWellFormed(d: Device, space: seq<bv32>, reg: nat)
    requires DeviceWellFormed(d, space) && reg < 0x100
    ensures 0x10 <= reg < 0x28 && PCI.BarAt(d, (reg - 0x10) / 4).Some? ==>
      BarWellFormed(PCI.BarAt(d, (reg - 0x10) / 4).value, space[reg / 4])
  {
    if 0x10 <= reg < 0x28 { assert reg / 4 == 4 + (reg - 0x10) / 4; }
  }

  /** The register offset of a word-aligned address is a word offset inside the 256-byte space. */
  lemma RegisterAligned(address: bv32)
    requires address & 3 == 0
    ensures PCI.RegOf(address) < 0x100 && PCI.RegOf(address) % 4 == 0
  {
    assert (address & 0xFF) & 3 == 0;
  }

  /** A relocation of an I/O BAR's entries. */
  datatype Move = Move(bar: Bar, from: nat, to: nat)

  /** What one `pci_write32` to a registered device does: store `word` at `index`, possibly moving ports. */
  datatype Write32Plan = Write32Plan(bdf: nat, index: nat, word: bv32, move: Option<Move>)

  /**
   * The decision `pci_write32` makes: nothing for an unregistered bdf; otherwise
   * the word `WrittenWord` gives, and for an I/O BAR a move of its entries from
   * the base of the current word to the base of the new one.
   */
  function PlanWrite32(spaces: map<nat, seq<bv32>>, devices: map<nat, Device>, address: bv32, written: bv32): (p: Option<Write32Plan>)
    requires WellFormedConfig(spaces, devices) && address & 3 == 0
    ensures p.Some? <==> PCI.BdfOf(address) in spaces
    ensures p.Some? ==>
      p.value.bdf == PCI.BdfOf(address) && p.value.index == PCI.RegOf(address) / 4 < 64 &&
      DeviceWellFormed(devices[p.value.bdf], spaces[p.value.bdf][p.value.index := p.value.word])
    ensures p.Some? && p.value.move.Some? ==> p.value.move.value.bar.size == |p.value.move.value.bar.entries|
  {
    var bdf := PCI.BdfOf(address);
    var reg := PCI.RegOf(address);
    RegisterAligned(address);
    if bdf !in spaces then None
    else
      var d := devices[bdf];
      var current := spaces[bdf][reg / 4];
      BarSlotWellFormed(d, spaces[bdf], reg);
      var newWord := PCI.WrittenWord(d, current, reg, written);
      WrittenWordKeepsBars(d, spaces[bdf], reg, written);
      var move :=
        if 0x10 <= reg < 0x28 && PCI.BarAt(d, (reg - 0x10) / 4).Some? && current & 1 == 1
        then Some(Move(PCI.BarAt(d, (reg - 0x10) / 4).value, PortBase(current), PortBase(newWord)))
        else None;
      Some(Write32Plan(bdf, reg / 4, newWord, move))
  }

  datatype WriteOutcome = WriteOutcome(ok: bool, spaces: map<nat, seq<bv32>>, ports: seq<PortEntry>)

  /**
   * `pci_write32` on spaces, devices and port table: an unregistered bdf changes
   * nothing; otherwise the planned word is stored and, for an I/O BAR, the port
   * entries are relocated, the whole write being refused (ok false, nothing
   * changed) when either range leaves the table.
   */
  ghost function Write32Outcome(spaces: map<nat, seq<bv32>>, devices: map<nat, Device>, table: seq<PortEntry>,
                                address: bv32, written: bv32): WriteOutcome
    requires |table| == PortCount && WellFormedConfig(spaces, devices) && address & 3 == 0
  {
    match PlanWrite32(spaces, devices, address, written)
    case None => WriteOutcome(true, spaces, table)
    case Some(p) =>
      var stored := spaces[p.bdf := spaces[p.bdf][p.index := p.word]];
      match p.move
      case None => WriteOutcome(true, stored, table)
      case Some(m) =>
        if m.from + m.bar.size <= PortCount && m.to + m.bar.size <= PortCount
        then WriteOutcome(true, stored, RelocatedPorts(table, m.bar.entries, m.bar.size, m.from, m.to))
        else WriteOutcome(false, spaces, table)
  }

  /** A registered write changes only the addressed word of the addressed device's space. */
  lemma Write32Frame(spaces: map<nat, seq<bv32>>, devices: map<nat, Device>, table: seq<PortEntry>,
                     address: bv32, written: bv32)
    requires |table| == PortCount && WellFormedConfig(spaces, devices) && address & 3 == 0
    ensures var o := Write32Outcome(spaces, devices, table, address, written);
      var bdf := PCI.BdfOf(address);
      o.spaces.Keys == spaces.Keys &&
      WellFormedConfig(o.spaces, devices) &&
      (forall id :: id in spaces && id != bdf ==> o.spaces[id] == spaces[id]) &&
      (bdf in spaces ==>
        |o.spaces[bdf]| == 64 &&
        forall j :: 0 <= j < 64 && j != PCI.RegOf(address) / 4 ==> o.spaces[bdf][j] == spaces[bdf][j])
  {
    var plan := PlanWrite32(spaces, devices, address, written);
    if plan.Some? {
      ConfigUpdate(spaces, devices, plan.value.bdf, spaces[plan.value.bdf][plan.value.index := plan.value.word], devices[plan.value.bdf]);
      assert devices[plan.value.bdf := devices[plan.value.bdf]] == devices;
    }
  }

  /** The address bytes a query reads name the bdf and register the 32-bit write decodes. */
  lemma AddressBytes(address: bv32)
    requires address & 3 == 0
    ensures (ByteOf(address, 2) as nat) * 0x100 + ByteOf(address, 1) as nat == PCI.BdfOf(address)
    ensures (ByteOf(address, 0) & 0xFC) as nat == PCI.RegOf(address)
  {
    var x := (address >> 8) & 0xFFFF;
    Mask16(address);
    Split16(x);
    ByteNat(address >> 8);
    ByteNat(address >> 16);
    ByteNat(address);
    assert (address & 0xFF) & 0xFC == address & 0xFF;
  }

  lemma ByteNat(w: bv32)
    ensures ((w & 0xFF) as bv8) as nat == (w & 0xFF) as nat
  {
  }

  lemma Split16(x: bv32)
    requires x < 0x1_0000
    ensures x as nat == ((x >> 8) & 0xFF) as nat * 0x100 + (x & 0xFF) as nat
  {
  }

  lemma Mask16(address: bv32)
    ensures (address >> 8) & 0xFFFF < 0x1_0000
    ensures (((address >> 8) & 0xFFFF) >> 8) & 0xFF == (address >> 16) & 0xFF
    ensures ((address >> 8) & 0xFFFF) & 0xFF == (address >> 8) & 0xFF
  {
  }

  /**
   * An ordinary register (not the command word, a BAR or the ROM address) keeps
   * what was written: a following query for the same address answers it.
   */
  lemma Write32ThenQueryReadsBack(spaces: map<nat, seq<bv32>>, devices: map<nat, Device>, table: seq<PortEntry>,
                                  address: bv32, written: bv32)
    requires |table| == PortCount && WellFormedConfig(spaces, devices) && address & 3 == 0
    requires PCI.BdfOf(address) in spaces
    requires var reg := PCI.RegOf(address); !(0x10 <= reg < 0x28) && reg != 0x30 && reg != 0x04
    ensures var o := Write32Outcome(spaces, devices, table, address, written);
      var q := Query(o.spaces, ByteOf(address, 0), ByteOf(address, 1), ByteOf(address, 2));
      o.ok && o.ports == table && q.status == 0x8000_0000 && q.response == written
  {
    AddressBytes(address);
    RegisterAligned(address);
  }

  /** A write to the command word (0x04) is ignored. */
  lemma Write32IgnoresCommand(spaces: map<nat, seq<bv32>>, devices: map<nat, Device>, table: seq<PortEntry>,
                              address: bv32, written: bv32)
    requires |table| == PortCount && WellFormedConfig(spaces, devices) && address & 3 == 0
    requires PCI.RegOf(address) == 0x04
    ensures Write32Outcome(spaces, devices, table, address, written) == WriteOutcome(true, spaces, table)
  {
    var bdf := PCI.BdfOf(address);
    if bdf in spaces {
      assert spaces[bdf][1 := spaces[bdf][1]] == spaces[bdf];
      assert spaces[bdf := spaces[bdf]] == spaces;
    }
  }

  /**
   * A memory BAR cannot be moved: a size probe answers `~(size - 1)`, from which
   * the size of a BAR of 16 bytes or more is recovered, and any other write
   * restores the original BAR. (`Write32Outcome` stores this word; the port
   * table is only touched for I/O BARs.)
   */
  lemma WrittenWordMemoryBar(d: Device, current: bv32, reg: nat, written: bv32)
    requires 0x10 <= reg < 0x28 && PCI.BarAt(d, (reg - 0x10) / 4).Some?
    requires BarWellFormed(PCI.BarAt(d, (reg - 0x10) / 4).value, current) && current & 1 == 0
    ensures var bar := PCI.BarAt(d, (reg - 0x10) / 4).value;
      var w := PCI.WrittenWord(d, current, reg, written);
      w & 1 == 0 &&
      (IsSizeProbe(written, bar.size) && 16 <= bar.size ==> !(w & 0xFFFF_FFF0) + 1 == bar.size as bv32) &&
      (!IsSizeProbe(written, bar.size) ==> w == bar.originalBar)
  {
    var bar := PCI.BarAt(d, (reg - 0x10) / 4).value;
    var w := PCI.WrittenWord(d, current, reg, written);
    assert w == if IsSizeProbe(written, bar.size) then ProbeAnswer(bar.size, 0) else bar.originalBar;
    MemoryBarWord(bar, written, w);
  }

  lemma MemoryBarWord(bar: Bar, written: bv32, w: bv32)
    requires BarShape(bar) && bar.originalBar & 1 == 0
    requires w == if IsSizeProbe(written, bar.size) then ProbeAnswer(bar.size, 0) else bar.originalBar
    ensures w & 1 == 0
    ensures IsSizeProbe(written, bar.size) && 16 <= bar.size ==> !(w & 0xFFFF_FFF0) + 1 == bar.size as bv32
    ensures !IsSizeProbe(written, bar.size) ==> w == bar.originalBar
  {
    if IsSizeProbe(written, bar.size) {
      ProbeKeepsType(bar.size, 0);
      if 16 <= bar.size {
        ProbeRevealsSize(bar.size, 0);
      }
    }
  }

  /**
   * An I/O BAR follows what is written: the new word keeps the I/O bit and its
   * base is the written base, or for a size probe the base of the probe answer.
   * This base is where `Write32Outcome` relocates the BAR's ports.
   */
  lemma WrittenWordIoBar(d: Device, current: bv32, reg: nat, written: bv32)
    requires 0x10 <= reg < 0x28 && PCI.BarAt(d, (reg - 0x10) / 4).Some?
    requires BarWellFormed(PCI.BarAt(d, (reg - 0x10) / 4).value, current) && current & 1 == 1
    ensures var bar := PCI.BarAt(d, (reg - 0x10) / 4).value;
      var w := PCI.WrittenWord(d, current, reg, written);
      w & 1 == 1 &&
      PortBase(w) == if IsSizeProbe(written, bar.size) then PortBase(ProbeAnswer(bar.size, 1)) else PortBase(written)
  {
    var bar := PCI.BarAt(d, (reg - 0x10) / 4).value;
    if IsSizeProbe(written, bar.size) {
      ProbeKeepsType(bar.size, 1);
    } else {
      assert (written | 1) & 0xFFFE == written & 0xFFFE;
    }
  }

  /**
   * Moving a range and moving it back restores the table, when both ranges lie
   * from 0x1000 up, the old range held exactly the entries and the new range
   * was free.
   */
  lemma RelocateThereAndBack(table: seq<PortEntry>, entries: seq<PortEntry>, size: nat, from: nat, to: nat)
    requires |table| == PortCount && size == |entries|
    requires 0x1000 <= from && from + size <= PortCount && 0x1000 <= to && to + size <= PortCount
    requires forall k :: 0 <= k < size ==> table[from + k] == entries[k]
    requires forall p :: to <= p < to + size && !(from <= p < from + size) ==> table[p] == Empty
    ensures RelocatedPorts(RelocatedPorts(table, entries, size, from, to), entries, size, to, from) == table
  {
    var there := RelocatedPorts(table, entries, size, from, to);
    var back := RelocatedPorts(there, entries, size, to, from);
    forall p | 0 <= p < PortCount
      ensures back[p] == table[p]
    {
      if from <= p < from + size {
        assert table[from + (p - from)] == entries[p - from];
      }
    }
  }

  // ---- Restoring a snapshot ----

  /**
   * A saved space fits a device of the current configuration: 64 words, a BAR
   * word with the I/O bit only where an I/O descriptor exists, the type bit of
   * every described BAR kept, and both ranges of each I/O move inside the table.
   */
  predicate SnapshotMatches(d: Device, snap: seq<bv32>)
  {
    |snap| == 64 && |d.bars| <= 6 &&
    (forall k :: 0 <= k < |d.bars| && d.bars[k].Some? ==> BarShape(d.bars[k].value)) &&
    forall k :: 0 <= k < |d.bars| ==>
      match d.bars[k]
      case None => snap[4 + k] & 1 == 0
      case Some(bar) =>
        snap[4 + k] & 1 == bar.originalBar & 1 &&
        (snap[4 + k] & 1 == 1 ==>
          PortBase(bar.originalBar) + bar.size <= PortCount && PortBase(snap[4 + k]) + bar.size <= PortCount)
  }

  /** Every saved space of a registered device fits it. */
  predicate StateMatches(devices: map<nat, Device>, snapshot: map<nat, seq<bv32>>)
  {
    forall id :: id in devices && id in snapshot ==> SnapshotMatches(devices[id], snapshot[id])
  }

  /**
   * The replay `set_state` does for one device's first `k` BARs: each one whose
   * saved word has the I/O bit moves from the original BAR's base to the saved base.
   */
  function ReplayBars(table: seq<PortEntry>, d: Device, snap: seq<bv32>, k: nat): (r: seq<PortEntry>)
    requires |table| == PortCount && SnapshotMatches(d, snap) && k <= |d.bars|
    ensures |r| == PortCount
  {
    if k == 0 then table
    else
      var t := ReplayBars(table, d, snap, k - 1);
      var w := snap[4 + k - 1];
      if w & 1 == 1 then
        var bar := d.bars[k - 1].value;
        RelocatedPorts(t, bar.entries, bar.size, PortBase(bar.originalBar), PortBase(w))
      else t
  }

  /** The replay for all registered bdfs below `n` that the snapshot holds. */
  function ReplayAll(table: seq<PortEntry>, devices: map<nat, Device>, snapshot: map<nat, seq<bv32>>, n: nat): (r: seq<PortEntry>)
    requires |table| == PortCount && StateMatches(devices, snapshot)
    ensures |r| == PortCount
  {
    if n == 0 then table
    else
      var t := ReplayAll(table, devices, snapshot, n - 1);
      if n - 1 in devices && n - 1 in snapshot then ReplayBars(t, devices[n - 1], snapshot[n - 1], |devices[n - 1].bars|)
      else t
  }

  /** The spaces after restoring the bdfs below `n`: a registered bdf the snapshot holds takes the saved space. */
  function RestoredSpaces(spaces: map<nat, seq<bv32>>, snapshot: map<nat, seq<bv32>>, n: nat): (r: map<nat, seq<bv32>>)
    ensures r.Keys == spaces.Keys
  {
    map id | id in spaces :: if id < n && id in snapshot then snapshot[id] else spaces[id]
  }

  /** Restoring one more bdf replaces just its space. */
  lemma RestoredStep(spaces: map<nat, seq<bv32>>, snapshot: map<nat, seq<bv32>>, i: nat)
    ensures var r := RestoredSpaces(spaces, snapshot, i);
      RestoredSpaces(spaces, snapshot, i + 1) == if i in spaces && i in snapshot then r[i := snapshot[i]] else r
  {
  }

  /** Restoring saved spaces that fit keeps every device's descriptors in agreement with its space. */
  lemma {:induction false} RestoredConfigWellFormed(spaces: map<nat, seq<bv32>>, devices: map<nat, Device>,
                                                   snapshot: map<nat, seq<bv32>>, n: nat)
    requires WellFormedConfig(spaces, devices) && StateMatches(devices, snapshot)
    ensures WellFormedConfig(RestoredSpaces(spaces, snapshot, n), devices)
  {
    var r := RestoredSpaces(spaces, snapshot, n);
    forall id | id in r
      ensures id < 256 && DeviceWellFormed(devices[id], r[id])
    {
      if id < n && id in snapshot {
        var d := devices[id];
        assert SnapshotMatches(d, snapshot[id]);
        forall k | 0 <= k < |d.bars| && d.bars[k].Some?
          ensures BarWellFormed(d.bars[k].value, snapshot[id][4 + k])
        {
        }
      }
    }
  }

  /** A move to where the entries already are changes nothing. */
  lemma RelocateInPlace(table: seq<PortEntry>, entries: seq<PortEntry>, size: nat, base: nat)
    requires |table| == PortCount && size <= |entries| && base + size <= PortCount
    requires forall k :: 0 <= k < size && 0x1000 <= base + k ==> table[base + k] == entries[k]
    ensures RelocatedPorts(table, entries, size, base, base) == table
  {
    var r := RelocatedPorts(table, entries, size, base, base);
    forall p | 0 <= p < PortCount
      ensures r[p] == table[p]
    {
      if base <= p < base + size && p >= 0x1000 {
        assert table[base + (p - base)] == entries[p - base];
      }
    }
  }

  /** Each I/O BAR of the device sits at its original base in the table and is saved there. */
  predicate UnmovedBars(table: seq<PortEntry>, d: Device, snap: seq<bv32>)
    requires |table| == PortCount && SnapshotMatches(d, snap)
  {
    forall k :: 0 <= k < |d.bars| && snap[4 + k] & 1 == 1 ==>
      PortBase(snap[4 + k]) == PortBase(d.bars[k].value.originalBar) &&
      forall j :: 0 <= j < d.bars[k].value.size && 0x1000 <= PortBase(snap[4 + k]) + j ==>
        table[PortBase(snap[4 + k]) + j] == d.bars[k].value.entries[j]
  }

  /** Replaying a snapshot taken before any I/O BAR moved leaves the port table as it is. */
  lemma {:induction false} ReplayUnmovedKeepsPorts(table: seq<PortEntry>, d: Device, snap: seq<bv32>, k: nat)
    requires |table| == PortCount && SnapshotMatches(d, snap) && k <= |d.bars|
    requires UnmovedBars(table, d, snap)
    ensures ReplayBars(table, d, snap, k) == table
    decreases k
  {
    if k > 0 {
      ReplayUnmovedKeepsPorts(table, d, snap, k - 1);
      var w := snap[4 + k - 1];
      if w & 1 == 1 {
        var bar := d.bars[k - 1].value;
        RelocateInPlace(table, bar.entries, bar.size, PortBase(w));
      }
    }
  }

  /** The same for every device of the snapshot. */
  lemma {:induction false} ReplayAllUnmovedKeepsPorts(table: seq<PortEntry>, devices: map<nat, Device>,
                                                     snapshot: map<nat, seq<bv32>>, n: nat)
    requires |table| == PortCount && StateMatches(devices, snapshot)
    requires forall id :: id in devices && id in snapshot ==> UnmovedBars(table, devices[id], snapshot[id])
    ensures ReplayAll(table, devices, snapshot, n) == table
    decreases n
  {
    if n > 0 {
      ReplayAllUnmovedKeepsPorts(table, devices, snapshot, n - 1);
      if n - 1 in devices && n - 1 in snapshot {
        ReplayUnmovedKeepsPorts(table, devices[n - 1], snapshot[n - 1], |devices[n - 1].bars|);
      }
    }
  }

  datatype QueryAnswer = QueryAnswer(status: bv32, response: bv32)

  /**
   * What `pci_query` answers for address bytes a0-a2: bdf `a2 << 8 | a1`,
   * register `a0 & 0xFC`. A registered bdf is reported present with the
   * selected word of its space (0 past its end); any other bdf is absent and
   * reads all ones. The enable bit in the fourth byte is not consulted.
   */
  function Query(spaces: map<nat, seq<bv32>>, a0: bv8, a1: bv8, a2: bv8): (q: QueryAnswer)
    ensures var bdf := (a2 as nat) * 0x100 + a1 as nat;
      (q.status != 0 <==> bdf in spaces) &&
      (bdf !in spaces ==> q.response == 0xFFFF_FFFF) &&
      (bdf in spaces && |spaces[bdf]| == 64 ==> q.response == spaces[bdf][(a0 & 0xFC) as nat / 4])
  {
    var bdf := (a2 as nat) * 0x100 + a1 as nat;
    var reg := (a0 & 0xFC) as nat;
    if bdf in spaces then
      QueryAnswer(0x8000_0000, if reg < 4 * |spaces[bdf]| then spaces[bdf][reg / 4] else 0)
    else QueryAnswer(0, 0xFFFF_FFFF)
  }

  class PCI {
    const pciAddr: array<bv8>
    const pciResponse: array<bv8>
    const pciStatus: array<bv8>
    /** `io.ports`, shared with the I/O bus. */
    const ports: array<PortEntry>
    /** `device_spaces`, keyed by bdf. */
    var spaces: map<nat, seq<bv32>>
    /** `devices`, keyed by bdf. */
    var devices: map<nat, Device>
    /** Reboots requested through CF9-style writes of the second address byte. */
    var rebootRequests: nat
    var irqEvents: seq<IrqEvent>

    ghost predicate Valid()
      reads this, pciAddr
    {
      pciAddr.Length == 4 && pciResponse.Length == 4 && pciStatus.Length == 4 &&
      pciAddr != pciResponse && pciAddr != pciStatus && pciResponse != pciStatus &&
      ports.Length == PortCount &&
      pciAddr[0] & 3 == 0 &&
      WellFormedConfig(spaces, devices)
    }

    /** `pci_addr32[0]`. */
    function AddressWord(): bv32
      reads this, pciAddr
      requires Valid()
    {
      WordOf(pciAddr[0], pciAddr[1], pciAddr[2], pciAddr[3])
    }

    /** `register_device`: a 64-word space from the byte list and the BAR descriptors over it. */
    method RegisterDevice(spec: DeviceSpec) returns (space: seq<bv32>)
      requires Valid()
      requires spec.id !in devices && spec.id < 256
      requires 64 <= |spec.bytes| <= 256 && |spec.bytes| % 4 == 0
      requires |spec.barSizes| <= 6
      requires forall i :: 0 <= i < |spec.barSizes| && spec.barSizes[i].Some? ==>
        Queues.IsPowerOfTwoSize(spec.barSizes[i].value) && 2 <= spec.barSizes[i].value &&
        (SpaceFromBytes(spec.bytes)[4 + i] & 1 == 1 ==>
          SpaceFromBytes(spec.bytes)[4 + i] < 0x1_0000 &&
          PortBase(SpaceFromBytes(spec.bytes)[4 + i]) + spec.barSizes[i].value <= PortCount)
      modifies this`spaces, this`devices
      ensures Valid()
      ensures space == SpaceFromBytes(spec.bytes)
      ensures spaces == old(spaces)[spec.id := space]
      ensures devices == old(devices)[spec.id := Device(BarsOf(spec.barSizes, space, ports[..]), spec.romSize, spec.romAddress)]
    {
      space := SpaceFromBytes(spec.bytes);
      var bars := BuildBars(spec.barSizes, space);
      RegisteredDeviceWellFormed(spec, ports[..]);
      ConfigUpdate(spaces, devices, spec.id, space, Device(bars, spec.romSize, spec.romAddress));
      spaces := spaces[spec.id := space];
      devices := devices[spec.id := Device(bars, spec.romSize, spec.romAddress)];
    }

    /** The BAR loop of `register_device`: one descriptor per declared size, capturing the I/O entries. */
    method BuildBars(barSizes: seq<Option<nat>>, space: seq<bv32>) returns (bars: seq<Option<Bar>>)
      requires Valid() && |space| == 64 && |barSizes| <= 6
      requires forall i :: 0 <= i < |barSizes| && barSizes[i].Some? && space[4 + i] & 1 == 1 ==>
        space[4 + i] < 0x1_0000 && PortBase(space[4 + i]) + barSizes[i].value <= PortCount
      ensures bars == BarsOf(barSizes, space, ports[..])
    {
      ghost var want := BarsOf(barSizes, space, ports[..]);
      bars := [];
      var i := 0;
      while i < |barSizes|
        invariant 0 <= i <= |barSizes|
        invariant bars == want[..i]
      {
        match barSizes[i] {
          case None =>
            bars := bars + [None];
          case Some(size) =>
            var barBase := space[4 + i];
            var entries: seq<PortEntry> := [];
            if barBase & 1 == 1 {
              entries := BarEntries(PortBase(barBase), size);
            }
            bars := bars + [Some(Bar(size, barBase, entries))];
        }
        assert bars[i] == want[i];
        assert bars == want[..i + 1];
        i := i + 1;
      }
      assert bars == want;
    }

    /** The inner loop of `register_device`: the entries of ports `port` to `port + size - 1`. */
    method BarEntries(port: nat, size: nat) returns (entries: seq<PortEntry>)
      requires Valid() && port + size <= PortCount
      ensures entries == ports[port..port + size]
    {
      entries := [];
      var j := 0;
      while j < size
        invariant 0 <= j <= size
        invariant entries == ports[port..port + j]
      {
        entries := entries + [ports[port + j]];
        j := j + 1;
      }
    }

    /** `new PCI(cpu)`: the CF8/CFC window over `io.ports`, with the host bridge at bdf 0 and the ISA bridge at bdf 8. */
    constructor(ports: array<PortEntry>)
      requires ports.Length == PortCount
      ensures Valid() && this.ports == ports && fresh(pciAddr) && fresh(pciResponse) && fresh(pciStatus)
      ensures pciAddr[..] == [0, 0, 0, 0] && pciResponse[..] == [0, 0, 0, 0] && pciStatus[..] == [0, 0, 0, 0]
      ensures spaces == map[0 := SpaceFromBytes(HostBridgeBytes()), 8 := SpaceFromBytes(IsaBridgeBytes())]
      ensures devices == map[0 := Device([], 0, 0), 8 := Device([], 0, 0)]
      ensures rebootRequests == 0 && irqEvents == []
    {
      pciAddr := new bv8[4](_ => 0);
      pciResponse := new bv8[4](_ => 0);
      pciStatus := new bv8[4](_ => 0);
      this.ports := ports;
      spaces := map[];
      devices := map[];
      rebootRequests := 0;
      irqEvents := [];
      new;
      assert pciAddr[..] == [0, 0, 0, 0];
      var _ := RegisterDevice(DeviceSpec(0, HostBridgeBytes(), [], 0, 0));
      var _ := RegisterDevice(DeviceSpec(8, IsaBridgeBytes(), [], 0, 0));
    }

    /**
     * The byte handlers of the address register at 0xCF8 + offset. Byte 0 keeps
     * its top six bits; byte 1 requests a reboot instead of being stored when it
     * sets bits 1-2 while the stored byte has only bit 1 of them; byte 3 starts a
     * query.
     */
    method AddressWrite(offset: nat, b: bv8)
      requires Valid() && offset < 4
      modifies pciAddr, pciResponse, pciStatus, this`rebootRequests
      ensures Valid()
      ensures offset == 0 ==> pciAddr[..] == old(pciAddr[..])[0 := b & 0xFC] && rebootRequests == old(rebootRequests)
      ensures offset == 1 && old(pciAddr[1]) & 6 == 2 && b & 6 == 6 ==>
        pciAddr[..] == old(pciAddr[..]) && rebootRequests == old(rebootRequests) + 1
      ensures offset == 1 && !(old(pciAddr[1]) & 6 == 2 && b & 6 == 6) ==>
        pciAddr[..] == old(pciAddr[..])[1 := b] && rebootRequests == old(rebootRequests)
      ensures offset >= 2 ==> pciAddr[..] == old(pciAddr[..])[offset := b] && rebootRequests == old(rebootRequests)
      ensures offset == 3 ==> QueryAnswered()
      ensures offset < 3 ==> pciResponse[..] == old(pciResponse[..]) && pciStatus[..] == old(pciStatus[..])
    {
      if offset == 0 {
        pciAddr[0] := b & 0xFC;
      } else if offset == 1 {
        if pciAddr[1] & 6 == 2 && b & 6 == 6 {
          rebootRequests := rebootRequests + 1;
          return;
        }
        pciAddr[1] := b;
      } else if offset == 2 {
        pciAddr[2] := b;
      } else {
        pciAddr[3] := b;
        PciQuery();
      }
    }

    /** The bdf the address register selects: `addr[2] << 8 | addr[1]`. */
    function SelectedBdf(): nat
      reads this, pciAddr
      requires Valid()
    {
      (pciAddr[2] as nat) * 0x100 + pciAddr[1] as nat
    }

    /** The response and status registers hold what `pci_query` answers for the current address. */
    ghost predicate QueryAnswered()
      reads this, pciAddr, pciResponse, pciStatus
      requires Valid()
    {
      var q := Query(spaces, pciAddr[0], pciAddr[1], pciAddr[2]);
      pciStatus[..] == BytesOf(q.status) && pciResponse[..] == BytesOf(q.response)
    }

    /**
     * `pci_query`: store the status and response words `Query` computes for the
     * address register, through the byte views of the two registers.
     */
    method PciQuery()
      requires Valid()
      modifies pciResponse, pciStatus
      ensures Valid() && QueryAnswered()
    {
      var q := Query(spaces, pciAddr[0], pciAddr[1], pciAddr[2]);
      pciStatus[0], pciStatus[1], pciStatus[2], pciStatus[3] :=
        ByteOf(q.status, 0), ByteOf(q.status, 1), ByteOf(q.status, 2), ByteOf(q.status, 3);
      pciResponse[0], pciResponse[1], pciResponse[2], pciResponse[3] :=
        ByteOf(q.response, 0), ByteOf(q.response, 1), ByteOf(q.response, 2), ByteOf(q.response, 3);
      assert pciStatus[..] == BytesOf(q.status) && pciResponse[..] == BytesOf(q.response);
    }

    /** The byte reads of the data window 0xCFC-0xCFF: the response register. */
    function DataRead(offset: nat): bv8
      reads this, pciAddr, pciResponse
      requires Valid() && offset < 4
    {
      pciResponse[offset]
    }

    /** The byte reads of the address port 0xCF8-0xCFB: the status register. */
    function StatusRead(offset: nat): bv8
      reads this, pciAddr, pciStatus
      requires Valid() && offset < 4
    {
      pciStatus[offset]
    }

    /** The bdf and register offset a configuration address names. */
    static function BdfOf(address: bv32): nat { ((address >> 8) & 0xFFFF) as nat }
    static function RegOf(address: bv32): nat { (address & 0xFF) as nat }

    /**
     * `pci_write8`: the byte at the register offset of the addressed space. A
     * write to an unregistered bdf does nothing (see the finding on the view
     * constructed before that check).
     */
    method Write8(address: bv32, written: bv8)
      requires Valid()
      requires BdfOf(address) in spaces ==>
        !(0x10 <= RegOf(address) < 0x2C || 0x30 <= RegOf(address) < 0x34)
      modifies this`spaces
      ensures Valid()
      ensures var bdf := BdfOf(address); var reg := RegOf(address);
        spaces == if bdf in old(spaces)
          then old(spaces)[bdf := old(spaces)[bdf][reg / 4 := WithByte(old(spaces)[bdf][reg / 4], reg % 4, written)]]
          else old(spaces)
    {
      var bdf := BdfOf(address);
      var reg := RegOf(address);
      if bdf !in spaces {
        return;
      }
      var space := spaces[bdf];
      spaces := spaces[bdf := space[reg / 4 := WithByte(space[reg / 4], reg % 4, written)]];
    }

    /**
     * `pci_write16`: the half-word at the register offset. Writes into the BAR
     * area 0x10-0x2B are ignored; an unregistered bdf is ignored too.
     */
    method Write16(address: bv32, written: bv16)
      requires Valid() && address & 1 == 0
      requires BdfOf(address) in spaces ==> !(0x30 <= RegOf(address) < 0x34)
      modifies this`spaces
      ensures Valid()
      ensures var bdf := BdfOf(address); var reg := RegOf(address);
        spaces == if bdf in old(spaces) && !(0x10 <= reg < 0x2C)
          then old(spaces)[bdf := old(spaces)[bdf][reg / 4 := WithHalf(old(spaces)[bdf][reg / 4], (reg / 2) % 2, written)]]
          else old(spaces)
    {
      var bdf := BdfOf(address);
      var reg := RegOf(address);
      if bdf !in spaces {
        return;
      }
      if 0x10 <= reg < 0x2C {
        return;
      }
      var space := spaces[bdf];
      spaces := spaces[bdf := space[reg / 4 := WithHalf(space[reg / 4], (reg / 2) % 2, written)]];
    }

    /** The BAR descriptor of slot `barNr`, if the device has one. */
    static function BarAt(d: Device, barNr: nat): Option<Bar>
    {
      if barNr < |d.bars| then d.bars[barNr] else None
    }

    /**
     * The word a 32-bit configuration write leaves behind at register `reg`
     * (0x10-0x27 BARs, 0x30 ROM, 0x04 command, anything else stored as is).
     */
    static function WrittenWord(d: Device, current: bv32, reg: nat, written: bv32): bv32
      requires reg < 0x100
      requires 0x10 <= reg < 0x28 && BarAt(d, (reg - 0x10) / 4).Some? ==>
        0 < BarAt(d, (reg - 0x10) / 4).value.size < 0x1_0000_0000
    {
      if 0x10 <= reg < 0x28 then
        match BarAt(d, (reg - 0x10) / 4)
        case None => 0
        case Some(bar) =>
          var typ := current & 1;
          if IsSizeProbe(written, bar.size) then ProbeAnswer(bar.size, typ)
          else if typ == 0 then bar.originalBar
          else written | 1
      else if reg == 0x30 then
        if d.romSize == 0 then 0
        else if written | 0x7FF == 0xFFFF_FFFF then 0 - ((d.romSize % 0x1_0000_0000) as bv32)
        else d.romAddress
      else if reg == 0x04 then current
      else written
    }

    /**
     * `set_io_bars`: move the BAR's entries from the range at `from` to the range
     * at `to`, only ports from 0x1000 up changing hands. A range that leaves the
     * port table is refused and nothing changes (the source throws part-way).
     */
    method SetIoBars(bar: Bar, from: nat, to: nat) returns (ok: bool)
      requires Valid() && bar.size <= |bar.entries|
      modifies ports
      ensures ok == (from + bar.size <= PortCount && to + bar.size <= PortCount)
      ensures ok ==> ports[..] == RelocatedPorts(old(ports[..]), bar.entries, bar.size, from, to)
      ensures !ok ==> ports[..] == old(ports[..])
    {
      if from + bar.size > PortCount || to + bar.size > PortCount {
        return false;
      }
      ghost var before := ports[..];
      var i := 0;
      while i < bar.size
        invariant 0 <= i <= bar.size
        invariant forall p :: 0 <= p < PortCount ==>
          ports[p] == if from <= p < from + i && p >= 0x1000 then Empty else before[p]
      {
        if from + i >= 0x1000 {
          ports[from + i] := Empty;
        }
        i := i + 1;
      }
      i := 0;
      while i < bar.size
        invariant 0 <= i <= bar.size
        invariant forall p :: 0 <= p < PortCount ==>
          ports[p] == if to <= p < to + i && p >= 0x1000 then bar.entries[p - to]
                      else if from <= p < from + bar.size && p >= 0x1000 then Empty else before[p]
      {
        if to + i >= 0x1000 {
          ports[to + i] := bar.entries[i];
        }
        i := i + 1;
      }
      ok := true;
      assert ports[..] == RelocatedPorts(before, bar.entries, bar.size, from, to);
    }

    /**
     * `pci_write32`: the state change `Write32Outcome` describes. `ok` is false
     * only when an I/O BAR's move is refused.
     */
    method Write32(address: bv32, written: bv32) returns (ok: bool)
      requires Valid() && address & 3 == 0
      modifies this`spaces, ports
      ensures Valid()
      ensures WriteOutcome(ok, spaces, ports[..]) == Write32Outcome(old(spaces), devices, old(ports[..]), address, written)
    {
      var plan := PlanWrite32(spaces, devices, address, written);
      ok := true;
      match plan {
        case None =>
        case Some(p) =>
          if p.move.Some? {
            var m := p.move.value;
            ok := SetIoBars(m.bar, m.from, m.to);
            if !ok {
              return;
            }
          }
          StoreWord(p.bdf, p.index, p.word);
      }
    }

    /**
     * `set_state`: for each bdf below 256 that is registered and saved, replay
     * the I/O BAR moves the saved words imply and take the saved space; then
     * restore the address, response and status registers.
     */
    method SetState(snapshot: map<nat, seq<bv32>>, addr: seq<bv8>, response: seq<bv8>, status: seq<bv8>)
      requires Valid() && StateMatches(devices, snapshot)
      requires |addr| == 4 && |response| == 4 && |status| == 4 && addr[0] & 3 == 0
      modifies ports, this`spaces, pciAddr, pciResponse, pciStatus
      ensures Valid()
      ensures ports[..] == ReplayAll(old(ports[..]), devices, snapshot, 256)
      ensures spaces == RestoredSpaces(old(spaces), snapshot, 256)
      ensures pciAddr[..] == addr && pciResponse[..] == response && pciStatus[..] == status
    {
      RestoreSpaces(snapshot);
      RestoreRegisters(addr, response, status);
    }

    /** The device loop of `set_state`. */
    method RestoreSpaces(snapshot: map<nat, seq<bv32>>)
      requires Valid() && StateMatches(devices, snapshot)
      modifies ports, this`spaces
      ensures Valid()
      ensures ports[..] == ReplayAll(old(ports[..]), devices, snapshot, 256)
      ensures spaces == RestoredSpaces(old(spaces), snapshot, 256)
    {
      ghost var table := ports[..];
      ghost var before := spaces;
      var i := 0;
      while i < 256
        invariant 0 <= i <= 256 && Valid()
        invariant ports[..] == ReplayAll(table, devices, snapshot, i)
        invariant spaces == RestoredSpaces(before, snapshot, i)
      {
        RestoredStep(before, snapshot, i);
        RestoredConfigWellFormed(before, devices, snapshot, i + 1);
        if i in devices && i in snapshot {
          ReplayDevice(devices[i], snapshot[i]);
          spaces := spaces[i := snapshot[i]];
        }
        i := i + 1;
      }
    }

    /** The register part of `set_state`: the address, response and status bytes. */
    method RestoreRegisters(addr: seq<bv8>, response: seq<bv8>, status: seq<bv8>)
      requires Valid() && |addr| == 4 && |response| == 4 && |status| == 4 && addr[0] & 3 == 0
      modifies pciAddr, pciResponse, pciStatus
      ensures Valid()
      ensures pciAddr[..] == addr && pciResponse[..] == response && pciStatus[..] == status
    {
      pciAddr[0], pciAddr[1], pciAddr[2], pciAddr[3] := addr[0], addr[1], addr[2], addr[3];
      pciResponse[0], pciResponse[1], pciResponse[2], pciResponse[3] := response[0], response[1], response[2], response[3];
      pciStatus[0], pciStatus[1], pciStatus[2], pciStatus[3] := status[0], status[1], status[2], status[3];
      assert pciAddr[..] == addr && pciResponse[..] == response && pciStatus[..] == status;
    }

    /** The BAR loop of `set_state` for one device. */
    method ReplayDevice(d: Device, snap: seq<bv32>)
      requires Valid() && SnapshotMatches(d, snap)
      modifies ports
      ensures ports[..] == ReplayBars(old(ports[..]), d, snap, |d.bars|)
    {
      ghost var table := ports[..];
      var k := 0;
      while k < |d.bars|
        invariant 0 <= k <= |d.bars|
        invariant ports[..] == ReplayBars(table, d, snap, k)
      {
        var w := snap[4 + k];
        if w & 1 == 1 {
          var bar := d.bars[k].value;
          var ok := SetIoBars(bar, PortBase(bar.originalBar), PortBase(w));
        }
        k := k + 1;
      }
    }

    /** Replace one word of a registered device's space, keeping its descriptors. */
    method StoreWord(bdf: nat, index: nat, w: bv32)
      requires Valid() && bdf in spaces && index < 64
      requires DeviceWellFormed(devices[bdf], spaces[bdf][index := w])
      modifies this`spaces
      ensures Valid()
      ensures spaces == old(spaces)[bdf := old(spaces)[bdf][index := w]]
    {
      ConfigUpdate(spaces, devices, bdf, spaces[bdf][index := w], devices[bdf]);
      assert devices[bdf := devices[bdf]] == devices;
      spaces := spaces[bdf := spaces[bdf][index := w]];
    }

    /** `raise_irq`: raise the IRQ the ISA bridge routes the device's pin to. */
    method RaiseIrq(pciId: nat)
      requires Valid() && pciId in spaces && 8 in spaces
      modifies this`irqEvents
      ensures irqEvents == old(irqEvents) + [Raise(ByteOf(spaces[8][24], RaisePin(pciId, spaces[pciId][15])))]
    {
      var pin := ((spaces[pciId][15] >> 8) & 0xFF) as int - 1;
      var device := (pciId / 8 - 1) % 0x100;
      var parentPin := (pin + device) % 4;
      irqEvents := irqEvents + [Raise(ByteOf(spaces[8][(0x60 + parentPin) / 4], parentPin))];
    }

    /** `lower_irq`: lower the IRQ the ISA bridge routes the device's pin to. */
    method LowerIrq(pciId: nat)
      requires Valid() && pciId in spaces && 8 in spaces
      modifies this`irqEvents
      ensures irqEvents == old(irqEvents) + [Lower(ByteOf(spaces[8][24], LowerPin(pciId, spaces[pciId][15])))]
    {
      var pin := ((spaces[pciId][15] >> 8) & 0xFF) as int;
      var device := (pciId / 8) % 0x100;
      var parentPin := (pin + device - 2) % 4;
      irqEvents := irqEvents + [Lower(ByteOf(spaces[8][(0x60 + parentPin) / 4], parentPin))];
    }
  }

  /** A 32-bit write keeps every BAR descriptor in agreement with its word. */
  lemma WrittenWordKeepsBars(d: Device, space: seq<bv32>, reg: nat, written: bv32)
    requires DeviceWellFormed(d, space) && reg < 0x100 && reg % 4 == 0
    ensures 0x10 <= reg < 0x28 && PCI.BarAt(d, (reg - 0x10) / 4).Some? ==>
      0 < PCI.BarAt(d, (reg - 0x10) / 4).value.size < 0x1_0000_0000
    ensures DeviceWellFormed(d, space[reg / 4 := PCI.WrittenWord(d, space[reg / 4], reg, written)])
  {
    var space' := space[reg / 4 := PCI.WrittenWord(d, space[reg / 4], reg, written)];
    forall i | 0 <= i < |d.bars| && d.bars[i].Some?
      ensures BarWellFormed(d.bars[i].value, space'[4 + i])
    {
      if reg / 4 == 4 + i {
        var bar := d.bars[i].value;
        var current := space[4 + i];
        assert (reg - 0x10) / 4 == i;
        assert BarWellFormed(bar, current);
        var typ := current & 1;
        if IsSizeProbe(written, bar.size) {
          ProbeKeepsType(bar.size, typ);
        }
      }
    }
  }

  /** A probe answer keeps the type bit, for every BAR size of at least 2. */
  lemma ProbeKeepsType(size: nat, typ: bv32)
    requires Queues.IsPowerOfTwoSize(size) && 2 <= size && (typ == 0 || typ == 1)
    ensures ProbeAnswer(size, typ) & 1 == typ
  {
    CastAtLeast2(size);
    TypeBit(size as bv32, typ);
  }

  lemma TypeBit(s: bv32, typ: bv32)
    requires s >= 2 && s & (s - 1) == 0 && (typ == 0 || typ == 1)
    ensures (!(s - 1) | typ) & 1 == typ
  {
  }

  /**
   * `pci_write8` and `pci_write16` as written build their byte or half-word
   * view from `device_spaces[bdf].buffer` before the `!space` check that is
   * meant to ignore unregistered devices, so for those the access throws
   * (None) instead of returning.
   */
  function SubWordViewAsWritten(spaces: map<nat, seq<bv32>>, address: bv32): Option<seq<bv32>>
  {
    var bdf := PCI.BdfOf(address);
    if bdf in spaces then Some(spaces[bdf]) else None
  }

  /** For instance bus 0 device 2 (bdf 0x10), empty in the constructor's configuration, throws. */
  lemma UnregisteredSubWordWriteThrows(spaces: map<nat, seq<bv32>>)
    requires spaces.Keys == {0, 8}
    ensures SubWordViewAsWritten(spaces, 0x8000_1004) == None
    ensures SubWordViewAsWritten(spaces, 0x8000_0804).Some?
  {
    assert PCI.BdfOf(0x8000_1004) == 0x10;
    assert PCI.BdfOf(0x8000_0804) == 0x08;
  }
}
