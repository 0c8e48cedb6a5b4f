/**
 * The real-time clock and CMOS memory of src/rtc.ts (an MC146818-style chip
 * behind ports 0x70 and 0x71).
 *
 * Times are whole numbers of ticks of 1/32768 ms, so every periodic-interrupt
 * period `1000 / (32768 >> (rate - 1))` ms is a whole number of ticks. The host
 * clock (`Date.now()`), the UTC calendar fields of the clock and the
 * microsecond counter are parameters of the operations that read them. Raising
 * and lowering IRQ 8 is recorded in `irqEvents`.
 */
module Rtc {
  import Log2

  /** Ticks per millisecond. */
  const TicksPerMs: nat := 32768

  /** What the clock does to the CPU's interrupt line 8. */
  datatype IrqEvent = Raise | Lower

  /** The UTC calendar fields of the clock time, as `Date` would give them. */
  datatype Calendar = Calendar(seconds: nat, minutes: nat, hours: nat, weekday: nat,
                               date: nat, month: nat, fullYear: nat)

  // ---- BCD ----

  /** `bcd_pack` as a value: decimal digit i of `n` in nibble i. */
  function BcdPacked(n: nat): nat
  {
    if n == 0 then 0 else n % 10 + 16 * BcdPacked(n / 10)
  }

  /** Nibble `i` of `x`. */
  function Nibble(x: nat, i: nat): nat
  {
    if i == 0 then x % 16 else Nibble(x / 16, i - 1)
  }

  /** Decimal digit `i` of `n`. */
  function Digit(n: nat, i: nat): nat
  {
    if i == 0 then n % 10 else Digit(n / 10, i - 1)
  }

  /** Packing puts decimal digit i in nibble i, for every i. */
  lemma {:induction false} BcdPackedDigits(n: nat, i: nat)
    ensures Nibble(BcdPacked(n), i) == Digit(n, i)
    decreases i
  {
    if n == 0 {
      ZeroDigits(i);
    } else if i > 0 {
      assert BcdPacked(n) / 16 == BcdPacked(n / 10);
      BcdPackedDigits(n / 10, i - 1);
    }
  }

  lemma {:induction false} ZeroDigits(i: nat)
    ensures Nibble(0, i) == 0 && Digit(0, i) == 0
    decreases i
  {
    if i > 0 {
      ZeroDigits(i - 1);
    }
  }

  /** `bcd_pack`: the digit loop. */
  method BcdPack(n: nat) returns (result: nat)
    ensures result == BcdPacked(n)
  {
    var m: nat := n;
    var scale: nat := 1;
    result := 0;
    while m != 0
      invariant result + scale * BcdPacked(m) == BcdPacked(n)
      decreases m
    {
      var digit := m % 10;
      // `result |= digit << (4 * i)`: the nibbles at and above i are still clear
      PackStep(result, scale, m);
      result := result + digit * scale;
      scale := 16 * scale;
      m := (m - digit) / 10;
    }
  }

  function Pow10(d: nat): (p: nat)
    ensures p >= 1
  {
    if d == 0 then 1 else 10 * Pow10(d - 1)
  }

  /** A number of at most `d` decimal digits packs into the low `4 * d` bits. */
  lemma {:induction false} BcdPackedBelow(n: nat, d: nat)
    requires n < Pow10(d)
    ensures BcdPacked(n) < Log2.Pow2(4 * d)
  {
    if n != 0 {
      assert d > 0;
      BcdPackedBelow(n / 10, d - 1);
      Log2.Pow2Add(4 * (d - 1), 4);
      assert Log2.Pow2(4) == 16;
      assert 4 * (d - 1) + 4 == 4 * d;
    }
  }

  /**
   * Below 10^7 every digit lands in bits 0-27, so the source's 32-bit `|=` and
   * `<<` never reach the sign bit or wrap their shift count: the int32 result
   * is `BcdPacked(n)`, and every time field (at most 99) is far inside.
   */
  lemma BcdPackedFitsInt32(n: nat)
    requires n < 10000000
    ensures BcdPacked(n) < 0x1000_0000
  {
    assert Pow10(7) == 10000000;
    BcdPackedBelow(n, 7);
    Log2.Pow2Values();
    Log2.Pow2Add(24, 4);
  }

  lemma PackStep(result: nat, scale: nat, m: nat)
    requires m != 0
    ensures (result + m % 10 * scale) + (16 * scale) * BcdPacked(m / 10) == result + scale * BcdPacked(m)
  {
    assert BcdPacked(m) == m % 10 + 16 * BcdPacked(m / 10);
    PackArith(result, scale, m % 10, BcdPacked(m / 10));
  }

  /** The ring identity behind one step of the packing loop. */
  lemma PackArith(result: int, scale: int, digit: int, rest: int)
    ensures (result + digit * scale) + (16 * scale) * rest == result + scale * (digit + 16 * rest)
  {
  }

  /** A byte whose two nibbles are decimal digits: what `bcd_unpack` asserts of its argument. */
  predicate IsBcd(b: nat)
  {
    b < 0x100 && b % 16 < 10 && b / 16 < 10
  }

  /**
   * `bcd_unpack`: low nibble `n & 0xF` plus ten times `n >> 4 & 0xF`. Its
   * debug assertions (a byte, two decimal digits) do not stop the computation,
   * so any byte decodes; only a BCD byte decodes below 100.
   */
  function BcdUnpack(b: nat): (n: nat)
    ensures n <= 15 + 10 * 15
    ensures IsBcd(b) ==> n < 100
  {
    b % 16 + 10 * ((b / 16) % 16)
  }

  /** The packed form of 0..99 is a BCD byte, and unpacking it gives the number back. */
  lemma BcdRoundTrip(n: nat)
    requires n < 100
    ensures IsBcd(BcdPacked(n))
    ensures BcdUnpack(BcdPacked(n)) == n
  {
    var hi := n / 10;
    assert BcdPacked(hi) == hi by {
      if hi != 0 {
        assert hi / 10 == 0;
      }
    }
    var p := BcdPacked(n);
    assert p == n % 10 + 16 * hi;
    assert p % 16 == n % 10 && p / 16 == hi;
  }

  /** Binary mode: bit 2 of status register B. */
  predicate BinaryMode(b: bv8) { b & 4 != 0 }

  /** `encode_time`: packed BCD unless status B selects binary mode. */
  function EncodeTime(b: bv8, t: nat): nat
  {
    if BinaryMode(b) then t else BcdPacked(t)
  }

  /** `decode_time`: the inverse. */
  function DecodeTime(b: bv8, t: nat): nat
  {
    if BinaryMode(b) then t else BcdUnpack(t)
  }

  /** In either mode a time field of 0..99 encodes to a byte that decodes back to it. */
  lemma EncodeDecodeRoundTrip(b: bv8, t: nat)
    requires t < 100
    ensures var e := EncodeTime(b, t); e < 0x100 && (!BinaryMode(b) ==> IsBcd(e)) && DecodeTime(b, e) == t
  {
    if !BinaryMode(b) {
      BcdRoundTrip(t);
    }
  }

  // ---- Periodic interrupt ----

  /**
   * `periodic_interrupt_time` for the rate in the low nibble of status A, in
   * ticks: `1000 / (32768 >> (rate - 1))` ms is `1000 * 2^(rate - 1)` ticks.
   * Rate 0 divides by zero in the source (an infinite period) and is 0 here;
   * the periodic interrupt is off at rate 0, so it is never used.
   */
  function PeriodTicks(rate: nat): (p: nat)
    ensures rate > 0 ==> p > 0
  {
    if rate == 0 then 0 else 1000 * Log2.Pow2(rate - 1)
  }

  /** The rate select of a status-A byte, its low four bits `a & 0xF`. */
  function Rate(a: bv8): (r: nat)
    ensures r < 16
  {
    a as nat % 16
  }

  /** Rate is the bitwise `a & 0xF` of the source. */
  lemma RateIsLowNibble(a: bv8)
    ensures Rate(a) == (a & 0xF) as nat
  {
  }

  /** The interrupt frequency of a rate, `32768 >> (rate - 1)` Hz. */
  function Frequency(rate: nat): nat
    requires 1 <= rate <= 16
  {
    Log2.Pow2(16 - rate)
  }

  /** The period is one second divided by the frequency: period times frequency is 1000 ms. */
  lemma PeriodTimesFrequency(rate: nat)
    requires 1 <= rate <= 16
    ensures PeriodTicks(rate) * Frequency(rate) == 1000 * TicksPerMs
  {
    Log2.Pow2Add(rate - 1, 16 - rate);
    Pow2Of15();
  }

  lemma Pow2Of15()
    ensures Log2.Pow2(15) == 32768
  {
    assert Log2.Pow2(5) == 32;
    assert Log2.Pow2(10) == 1024;
  }

  /** Bit 6 of status B: periodic interrupt enable. */
  predicate PeriodicBit(b: bv8) { b & 0x40 == 0x40 }

  /** Bit 5 of status B: alarm interrupt enable. */
  predicate AlarmBit(b: bv8) { b & 0x20 == 0x20 }

  /** `periodic_interrupt` as every data-port write recomputes it: B bit 6 set and a nonzero rate. */
  predicate PeriodicEnabled(a: bv8, b: bv8)
  {
    PeriodicBit(b) && Rate(a) > 0
  }

  /**
   * `Math.ceil((now - next) / period)`: the number of whole periods that takes
   * a passed deadline `next` to `now` or just beyond.
   */
  function CatchUpPeriods(next: int, now: int, period: nat): (q: nat)
    requires next < now && period > 0
    ensures now <= next + q * period < now + period
  {
    var x := now - next;
    var q := (x + period - 1) / period;
    assert x + period - 1 == q * period + (x + period - 1) % period;
    q
  }

  /** The deadline after a periodic interrupt fires: `next` advanced by those periods. */
  function CatchUp(next: int, now: int, period: nat): int
    requires next < now && period > 0
  {
    next + CatchUpPeriods(next, now, period) * period
  }

  /** The catch-up is the least: no smaller whole number of periods reaches `now`. */
  lemma CatchUpIsLeast(next: int, now: int, period: nat, k: int)
    requires next < now && period > 0
    requires now <= next + k * period
    ensures CatchUpPeriods(next, now, period) <= k
  {
    var q := CatchUpPeriods(next, now, period);
    if k < q {
      MulMonotone(k, q - 1, period);
    }
  }

  lemma MulMonotone(a: int, b: int, c: nat)
    requires a <= b
    ensures a * c <= b * c
  {
  }

  /** The alarm time `Date.UTC(today, hours, minutes, seconds)` from the start of the UTC day, in ticks. */
  function AlarmAt(dayStart: int, hours: nat, minutes: nat, seconds: nat): int
  {
    dayStart + ((hours * 60 + minutes) * 60 + seconds) * 1000 * TicksPerMs
  }

  /** The largest distance `timer` ever asks to wait for: 100 ms. */
  const MaxWait: nat := 100 * TicksPerMs

  // ---- Data-port writes ----

  /** The registers a data-port write can change: status A and B, the two deadlines, the periodic state and CMOS memory. */
  datatype Registers = Registers(a: bv8, b: bv8, next: int, alarm: int, periodic: bool, periodTime: nat, data: seq<bv8>)

  /** The CMOS indices of the seconds, minutes and hours alarm bytes. */
  predicate AlarmIndex(index: nat) { index == 1 || index == 3 || index == 5 }

  /** The switch of `cmos_port_write` on the selected index, before `periodic_interrupt` is recomputed. */
  function PortSwitch(r: Registers, index: nat, v: bv8, now: int, dayStart: int): Registers
    requires |r.data| == 128
  {
    if index == 0x0A then
      var a := v & 0x7F; r.(a := a, periodTime := PeriodTicks(Rate(a)))
    else if index == 0x0B then
      r.(b := v, next := if PeriodicBit(v) then now else r.next,
         alarm := if AlarmBit(v) then ScheduledAlarm(v, r.data, dayStart) else r.alarm)
    else if AlarmIndex(index) then r.(data := r.data[index := v])
    else r
  }

  /**
   * `cmos_port_write` of byte v at index `index`, host time `now`, `dayStart`
   * being the start of the UTC day of `now`: the switch on the index, then
   * `periodic_interrupt` recomputed from the new status bytes.
   */
  function PortWrite(r: Registers, index: nat, v: bv8, now: int, dayStart: int): Registers
    requires |r.data| == 128
  {
    var r1 := PortSwitch(r, index, v, now, dayStart);
    r1.(periodic := PeriodicEnabled(r1.a, r1.b))
  }

  /**
   * What one data-port write does, case by case: status A keeps its low seven
   * bits and the period follows the written rate; status B is stored whole,
   * bit 6 restarts the periodic deadline at `now` and bit 5 schedules the alarm
   * for today at the decoded alarm bytes; an alarm index stores the byte; any
   * other index changes nothing but the recomputed periodic flag. Afterwards
   * the periodic interrupt is on exactly when B bit 6 is set and the rate is not 0.
   */
  lemma PortWriteCases(r: Registers, index: nat, v: bv8, now: int, dayStart: int)
    requires |r.data| == 128
    ensures var w := PortWrite(r, index, v, now, dayStart);
      |w.data| == 128 &&
      w.periodic == (PeriodicBit(w.b) && Rate(w.a) > 0) &&
      (index == 0x0A ==> w.a == v & 0x7F && w.b == r.b && w.periodTime == PeriodTicks(Rate(v))) &&
      (index == 0x0B ==>
        w.b == v && w.a == r.a &&
        w.next == (if PeriodicBit(v) then now else r.next) &&
        w.alarm == (if AlarmBit(v) then ScheduledAlarm(v, r.data, dayStart) else r.alarm)) &&
      (index != 0x0A ==> w.periodTime == r.periodTime) &&
      (index != 0x0B ==> w.next == r.next && w.alarm == r.alarm) &&
      (index != 0x0A && index != 0x0B ==> w.a == r.a && w.b == r.b) &&
      (AlarmIndex(index) ==> w.data == r.data[index := v]) &&
      (!AlarmIndex(index) ==> w.data == r.data)
  {
    if index == 0x0A {
      RateIgnoresHighBits(v);
      var a := v & 0x7F;
      assert PortWrite(r, index, v, now, dayStart) ==
        r.(a := a, periodTime := PeriodTicks(Rate(a)), periodic := PeriodicEnabled(a, r.b));
    } else if index == 0x0B {
      PortWriteStatusB(r, v, now, dayStart);
    } else if AlarmIndex(index) {
      assert PortWrite(r, index, v, now, dayStart) == r.(data := r.data[index := v], periodic := PeriodicEnabled(r.a, r.b));
    } else {
      assert PortWrite(r, index, v, now, dayStart) == r.(periodic := PeriodicEnabled(r.a, r.b));
    }
  }

  /** The rate select survives `b & 0x7F`. */
  lemma RateIgnoresHighBits(v: bv8)
    ensures Rate(v & 0x7F) == Rate(v)
  {
    assert (v & 0x7F) as nat % 16 == v as nat % 16 by {
      assert (v & 0x7F) as nat == v as nat % 128;
    }
  }

  /** A status-B write, field by field. */
  lemma PortWriteStatusB(r: Registers, v: bv8, now: int, dayStart: int)
    requires |r.data| == 128
    ensures PortWrite(r, 0x0B, v, now, dayStart) ==
      r.(b := v, next := if PeriodicBit(v) then now else r.next,
         alarm := if AlarmBit(v) then ScheduledAlarm(v, r.data, dayStart) else r.alarm,
         periodic := PeriodicEnabled(r.a, v))
  {
  }

  /** A data-port write keeps the period in step with status A and the periodic flag with both status bytes. */
  lemma PortWriteConsistent(r: Registers, index: nat, v: bv8, now: int, dayStart: int)
    requires |r.data| == 128 && r.periodTime == PeriodTicks(Rate(r.a))
    ensures var w := PortWrite(r, index, v, now, dayStart);
      |w.data| == 128 && w.periodTime == PeriodTicks(Rate(w.a)) && w.periodic == PeriodicEnabled(w.a, w.b)
  {
  }

  // ---- The chip ----

  class RTC {
    /** `cmos_data`: 128 bytes of CMOS memory. */
    const cmosData: array<bv8>
    var cmosIndex: nat
    var rtcTime: int
    var lastUpdate: int
    var nextInterrupt: int
    var nextInterruptAlarm: int
    var periodicInterrupt: bool
    /** In ticks; 0 stands for the infinite period of rate 0. */
    var periodicInterruptTime: nat
    var cmosA: bv8
    var cmosB: bv8
    var cmosC: bv8
    var nmiDisabled: nat
    var irqEvents: seq<IrqEvent>

    ghost predicate Valid()
      reads this
    {
      Shape() &&
      periodicInterruptTime == PeriodTicks(Rate(cmosA)) &&
      periodicInterrupt == PeriodicEnabled(cmosA, cmosB)
    }

    /** The sizes and ranges of the registers. */
    ghost predicate Shape()
      reads this
    {
      cmosData.Length == 128 && cmosIndex < 128 && nmiDisabled <= 1
    }

    /** `new RTC(cpu)` at host time `now`: status A 0x26 (a period of 1000/1024 ms), B 2, everything else 0. */
    constructor(now: int)
      ensures Valid() && fresh(cmosData) && cmosData[..] == seq(128, _ => 0)
      ensures cmosIndex == 0 && rtcTime == now && lastUpdate == now
      ensures nextInterrupt == 0 && nextInterruptAlarm == 0 && !periodicInterrupt
      ensures periodicInterruptTime == 1000 * TicksPerMs / 1024
      ensures cmosA == 0x26 && cmosB == 2 && cmosC == 0 && nmiDisabled == 0 && irqEvents == []
    {
      cmosData := new bv8[128](_ => 0);
      cmosIndex := 0;
      rtcTime := now;
      lastUpdate := now;
      nextInterrupt := 0;
      nextInterruptAlarm := 0;
      periodicInterrupt := false;
      periodicInterruptTime := 32000;
      cmosA := 0x26;
      cmosB := 2;
      cmosC := 0;
      nmiDisabled := 0;
      irqEvents := [];
      new;
      assert Rate(cmosA) == 6;
    }

    /** The write handler of port 0x70: select a CMOS index and the NMI-disable bit. */
    method IndexWrite(outByte: bv8)
      requires Valid()
      modifies this`cmosIndex, this`nmiDisabled
      ensures Valid()
      ensures cmosIndex == (outByte & 0x7F) as nat && nmiDisabled == (outByte >> 7) as nat
    {
      cmosIndex := (outByte & 0x7F) as nat;
      nmiDisabled := (outByte >> 7) as nat;
    }

    /**
     * `timer` at host time `now` (the source reads `Date.now()` and ignores its
     * argument). The clock advances by the time since the last update. A pending
     * periodic deadline fires (C bits 6 and 7, IRQ 8) and is caught up by whole
     * periods; otherwise an expired alarm fires once (C bits 5 and 7, IRQ 8) and
     * is cleared. The result is the time until the nearest active deadline, at
     * most 100 ms and never negative.
     */
    method Timer(now: int) returns (t: int)
      requires Valid()
      modifies this`rtcTime, this`lastUpdate, this`cmosC, this`nextInterrupt, this`nextInterruptAlarm, this`irqEvents
      ensures Valid()
      ensures rtcTime == old(rtcTime) + now - old(lastUpdate) && lastUpdate == now
      ensures old(periodicInterrupt) && old(nextInterrupt) < now ==>
        cmosC == old(cmosC) | 0xC0 && irqEvents == old(irqEvents) + [Raise] &&
        nextInterrupt == CatchUp(old(nextInterrupt), now, periodicInterruptTime) &&
        nextInterruptAlarm == old(nextInterruptAlarm)
      ensures !(old(periodicInterrupt) && old(nextInterrupt) < now) && old(nextInterruptAlarm) != 0 && old(nextInterruptAlarm) < now ==>
        cmosC == old(cmosC) | 0xA0 && irqEvents == old(irqEvents) + [Raise] &&
        nextInterrupt == old(nextInterrupt) && nextInterruptAlarm == 0
      ensures !(old(periodicInterrupt) && old(nextInterrupt) < now) && !(old(nextInterruptAlarm) != 0 && old(nextInterruptAlarm) < now) ==>
        cmosC == old(cmosC) && irqEvents == old(irqEvents) &&
        nextInterrupt == old(nextInterrupt) && nextInterruptAlarm == old(nextInterruptAlarm)
      ensures t == WaitTime(periodicInterrupt, nextInterrupt, nextInterruptAlarm, now)
    {
      rtcTime := rtcTime + now - lastUpdate;
      lastUpdate := now;
      FireDue(now);
      t := WaitTime(periodicInterrupt, nextInterrupt, nextInterruptAlarm, now);
    }

    /** The interrupt part of `timer`: the periodic deadline first, else the alarm. */
    method FireDue(now: int)
      requires Valid()
      modifies this`cmosC, this`nextInterrupt, this`nextInterruptAlarm, this`irqEvents
      ensures Valid()
      ensures old(periodicInterrupt) && old(nextInterrupt) < now ==>
        cmosC == old(cmosC) | 0xC0 && irqEvents == old(irqEvents) + [Raise] &&
        nextInterrupt == CatchUp(old(nextInterrupt), now, periodicInterruptTime) &&
        nextInterruptAlarm == old(nextInterruptAlarm)
      ensures !(old(periodicInterrupt) && old(nextInterrupt) < now) && old(nextInterruptAlarm) != 0 && old(nextInterruptAlarm) < now ==>
        cmosC == old(cmosC) | 0xA0 && irqEvents == old(irqEvents) + [Raise] &&
        nextInterrupt == old(nextInterrupt) && nextInterruptAlarm == 0
      ensures !(old(periodicInterrupt) && old(nextInterrupt) < now) && !(old(nextInterruptAlarm) != 0 && old(nextInterruptAlarm) < now) ==>
        cmosC == old(cmosC) && irqEvents == old(irqEvents) &&
        nextInterrupt == old(nextInterrupt) && nextInterruptAlarm == old(nextInterruptAlarm)
    {
      if periodicInterrupt && nextInterrupt < now {
        irqEvents := irqEvents + [Raise];
        cmosC := cmosC | 0xC0;
        nextInterrupt := CatchUp(nextInterrupt, now, periodicInterruptTime);
      } else if nextInterruptAlarm != 0 && nextInterruptAlarm < now {
        irqEvents := irqEvents + [Raise];
        cmosC := cmosC | 0xA0;
        nextInterruptAlarm := 0;
      }
    }

    /**
     * `cmos_port_read`: the byte at port 0x71 for the selected index. Time fields
     * come from the calendar of the clock, encoded per status B; status A shows
     * update-in-progress for the last microsecond-millisecond of every second;
     * reading status C returns it, clears its flags (bits 4-7) and lowers IRQ 8;
     * status D reads 0; any other index reads CMOS memory.
     */
    method CmosPortRead(cal: Calendar, microtick: int) returns (v: nat)
      requires Valid()
      modifies this`cmosC, this`irqEvents
      ensures Valid()
      ensures v == ReadValue(cal, microtick, old(cmosC))
      ensures cmosIndex == 0x0C ==>
        v == old(cmosC) as nat && cmosC == old(cmosC) & 0x0F && cmosC & 0xF0 == 0 && irqEvents == old(irqEvents) + [Lower]
      ensures cmosIndex != 0x0C ==> cmosC == old(cmosC) && irqEvents == old(irqEvents)
      ensures cmosIndex == 0x0D ==> v == 0
      ensures cmosIndex == 0x0B ==> v == cmosB as nat
      ensures cmosIndex == 0x0A ==> v == (if microtick % 1000 >= 999 then cmosA | 0x80 else cmosA) as nat
      ensures cmosIndex == 0x00 ==> v == EncodeTime(cmosB, cal.seconds)
      ensures cmosIndex == 0x09 ==> v == EncodeTime(cmosB, cal.fullYear % 100)
      ensures cmosIndex !in TimeIndices ==> v == cmosData[cmosIndex] as nat
    {
      if cmosIndex == 0x0C {
        irqEvents := irqEvents + [Lower];
        v := cmosC as nat;
        cmosC := cmosC & !0xF0;
      } else {
        v := ReadValue(cal, microtick, cmosC);
      }
    }

    /** The byte `cmos_port_read` returns, given status C before the read. */
    function ReadValue(cal: Calendar, microtick: int, c: bv8): (v: nat)
      reads this, cmosData
      requires Valid()
    {
      match cmosIndex
      case 0x00 => EncodeTime(cmosB, cal.seconds)
      case 0x02 => EncodeTime(cmosB, cal.minutes)
      case 0x04 => EncodeTime(cmosB, cal.hours)
      case 0x06 => EncodeTime(cmosB, cal.weekday + 1)
      case 0x07 => EncodeTime(cmosB, cal.date)
      case 0x08 => EncodeTime(cmosB, cal.month + 1)
      case 0x09 => EncodeTime(cmosB, cal.fullYear % 100)
      case 0x0A => if microtick % 1000 >= 999 then (cmosA | 0x80) as nat else cmosA as nat
      case 0x0B => cmosB as nat
      case 0x0C => c as nat
      case 0x0D => 0
      case 0x32 => EncodeTime(cmosB, cal.fullYear / 100)
      case 0x37 => EncodeTime(cmosB, cal.fullYear / 100)
      case _ => cmosData[cmosIndex] as nat
    }

    /** The registers a data-port write can change. */
    ghost function Regs(): Registers
      reads this, cmosData
    {
      Registers(cmosA, cmosB, nextInterrupt, nextInterruptAlarm, periodicInterrupt, periodicInterruptTime, cmosData[..])
    }

    /**
     * `cmos_port_write` at host time `now`, `dayStart` being the start of the
     * UTC day of `now`: the registers become PortWrite of the old ones, whose
     * cases PortWriteCases spells out.
     */
    method CmosPortWrite(dataByte: bv8, now: int, dayStart: int)
      requires Valid()
      modifies cmosData, this`cmosA, this`cmosB, this`nextInterrupt, this`nextInterruptAlarm
      modifies this`periodicInterrupt, this`periodicInterruptTime
      ensures Valid()
      ensures Regs() == PortWrite(old(Regs()), cmosIndex, dataByte, now, dayStart)
    {
      if cmosIndex == 0x0A {
        WriteStatusA(dataByte, now, dayStart);
      } else if cmosIndex == 0x0B {
        WriteStatusB(dataByte, now, dayStart);
      } else if AlarmIndex(cmosIndex) {
        WriteAlarmByte(dataByte, now, dayStart);
      } else {
        PortWriteConsistent(Regs(), cmosIndex, dataByte, now, dayStart);
        assert Regs() == PortWrite(Regs(), cmosIndex, dataByte, now, dayStart);
      }
    }

    /** The status-A case of `cmos_port_write`. */
    method WriteStatusA(dataByte: bv8, ghost now: int, ghost dayStart: int)
      requires Valid() && cmosIndex == 0x0A
      modifies this`cmosA, this`periodicInterruptTime, this`periodicInterrupt
      ensures Valid()
      ensures Regs() == PortWrite(old(Regs()), cmosIndex, dataByte, now, dayStart)
    {
      ghost var r := Regs();
      cmosA := dataByte & 0x7F;
      periodicInterruptTime := PeriodTicks(Rate(cmosA));
      periodicInterrupt := PeriodicEnabled(cmosA, cmosB);
      assert Regs() == r.(a := cmosA, periodTime := periodicInterruptTime, periodic := periodicInterrupt);
    }

    /** The status-B case of `cmos_port_write`. */
    method WriteStatusB(dataByte: bv8, now: int, dayStart: int)
      requires Valid() && cmosIndex == 0x0B
      modifies this`cmosB, this`nextInterrupt, this`nextInterruptAlarm, this`periodicInterrupt
      ensures Valid()
      ensures Regs() == PortWrite(old(Regs()), cmosIndex, dataByte, now, dayStart)
    {
      ghost var r := Regs();
      PortWriteStatusB(r, dataByte, now, dayStart);
      cmosB := dataByte;
      if PeriodicBit(cmosB) {
        nextInterrupt := now;
      }
      if AlarmBit(cmosB) {
        nextInterruptAlarm := ScheduledAlarm(dataByte, cmosData[..], dayStart);
      }
      periodicInterrupt := PeriodicEnabled(cmosA, cmosB);
    }

    /** The alarm-byte case of `cmos_port_write`: `cmos_write` at the index. */
    method WriteAlarmByte(dataByte: bv8, ghost now: int, ghost dayStart: int)
      requires Valid() && AlarmIndex(cmosIndex)
      modifies cmosData
      ensures Valid()
      ensures Regs() == PortWrite(old(Regs()), cmosIndex, dataByte, now, dayStart)
    {
      ghost var r := Regs();
      ByteValue(dataByte);
      CmosWrite(cmosIndex, dataByte as int);
      assert Regs() == r.(data := r.data[cmosIndex := dataByte]);
    }

    /** `cmos_read`. */
    function CmosRead(index: nat): bv8
      reads this, cmosData
      requires Valid() && index < 128
    {
      cmosData[index]
    }

    /** `cmos_write`: the Uint8Array keeps the value modulo 256. */
    method CmosWrite(index: nat, value: int)
      requires Valid() && index < 128
      modifies cmosData
      ensures Valid()
      ensures cmosData[..] == old(cmosData[..])[index := ToByte(value)]
      ensures CmosRead(index) == ToByte(value)
    {
      cmosData[index] := ToByte(value);
    }
  }

  /** The indices `cmos_port_read` serves from the clock or the status registers rather than CMOS memory. */
  const TimeIndices: set<nat> := {0x00, 0x02, 0x04, 0x06, 0x07, 0x08, 0x09, 0x0A, 0x0B, 0x0C, 0x0D, 0x32, 0x37}

  /** A number stored into a Uint8Array: its value modulo 256. */
  function ToByte(value: int): bv8
  {
    (value % 0x100) as bv8
  }

  /** A byte stored through the Uint8Array is itself. */
  lemma ByteValue(b: bv8)
    ensures ToByte(b as int) == b
  {
    ByteBound(b);
    assert b as int % 0x100 == b as int;
  }

  lemma ByteBound(b: bv8)
    ensures b as int < 0x100
  {
  }

  /**
   * What `timer` returns: 100 ms, lowered to the distance (never negative) to
   * the periodic deadline when that is on and set, and to the alarm when set.
   * The result is the least of those bounds.
   */
  function WaitTime(periodic: bool, next: int, alarm: int, now: int): (t: int)
    ensures 0 <= t <= MaxWait
    ensures periodic && next != 0 ==> t <= Max0(next - now)
    ensures alarm != 0 ==> t <= Max0(alarm - now)
    ensures t == MaxWait || (periodic && next != 0 && t == Max0(next - now)) || (alarm != 0 && t == Max0(alarm - now))
  {
    var t0 := MaxWait;
    var t1 := if periodic && next != 0 then Min(t0, Max0(next - now)) else t0;
    if alarm != 0 then Min(t1, Max0(alarm - now)) else t1
  }

  function Min(a: int, b: int): int { if a <= b then a else b }
  function Max0(a: int): int { if a >= 0 then a else 0 }

  /** The alarm a status-B write with bit 5 set schedules: today at the decoded alarm fields. */
  function ScheduledAlarm(b: bv8, data: seq<bv8>, dayStart: int): int
    requires |data| == 128
  {
    AlarmAt(dayStart, DecodeTime(b, data[5] as nat), DecodeTime(b, data[3] as nat), DecodeTime(b, data[1] as nat))
  }

}
