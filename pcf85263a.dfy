// PCF85263A: the register map and driver operations of PCF85263A.cpp. The
// time registers start at address 0 and the stop and reset registers are the
// last two, so `set` writes across the end of the register file and relies on
// the chip's address pointer wrapping back to register 0.

module PCF85263A {
  import opened Rtc
  import opened Registers

  // reg_num of PCF85263A, numbered consecutively from 0 (the 12-hour-mode
  // aliases declared after `Resets` name the same addresses and are not used).
  const Hundredths: nat := 0
  const Seconds: nat := 1
  const Minutes: nat := 2
  const Hours: nat := 3
  const Days: nat := 4
  const Weekdays: nat := 5
  const Months: nat := 6
  const Years: nat := 7
  const SecondAlarm1: nat := 8
  const MinuteAlarm1: nat := 9
  const HourAlarm1: nat := 10
  const DayAlarm1: nat := 11
  const MonthAlarm1: nat := 12
  const MinuteAlarm2: nat := 13
  const HourAlarm2: nat := 14
  const WeekdayAlarm2: nat := 15
  const AlarmEnables: nat := 16
  const Tsr1Seconds: nat := 17
  const Tsr1Years: nat := 22
  const Tsr2Seconds: nat := 23
  const Tsr2Years: nat := 28
  const Tsr3Seconds: nat := 29
  const Tsr3Years: nat := 34
  const TsrMode: nat := 35
  const Offset: nat := 36
  const Oscillator: nat := 37
  const BatterySwitch: nat := 38
  const PinIo: nat := 39
  const Function: nat := 40
  const IntAEnable: nat := 41
  const IntBEnable: nat := 42
  const Flags: nat := 43
  const RamByte: nat := 44
  const WatchDog: nat := 45
  const StopEnable: nat := 46
  const Resets: nat := 47

  /** Number of registers (_100th_seconds .. Resets); the address pointer wraps after Resets. */
  const RegCount: nat := 48

  /** A chip state whose register file has the PCF85263A map. */
  predicate Fits(c: Chip) { |c.regs| == RegCount }

  /**
   * alarm_setting_85263A: the fields alarm 1 (second to month) and alarm 2
   * (minute, hour, weekday) compare, in enumerator order.
   */
  datatype AlarmSelect =
    | Alarm1Second | Alarm1Minute | Alarm1Hour | Alarm1Day | Alarm1Month
    | Alarm2Minute | Alarm2Hour | Alarm2Weekday
  {
    /** The enumerator's value in C. */
    function Index(): (i: nat)
      ensures i < 8
    {
      match this
      case Alarm1Second => 0
      case Alarm1Minute => 1
      case Alarm1Hour => 2
      case Alarm1Day => 3
      case Alarm1Month => 4
      case Alarm2Minute => 5
      case Alarm2Hour => 6
      case Alarm2Weekday => 7
    }
  }

  /** inta: the INTA pin function, Pin_IO bits 0-1. */
  datatype IntAPin = IntAClockOut | IntABatteryMode | IntAInterrupt | IntAHighZ
  {
    function Code(): (c: bv8)
      ensures c < 4
    {
      match this
      case IntAClockOut => 0
      case IntABatteryMode => 1
      case IntAInterrupt => 2
      case IntAHighZ => 3
    }
  }

  /** intb: the INTB pin function, Pin_IO bits 2-3. */
  datatype IntBPin = IntBDisabled | IntBInterrupt | IntBClockOut | IntBInput
  {
    function Code(): (c: bv8)
      ensures c < 4
    {
      match this
      case IntBDisabled => 0
      case IntBInterrupt => 1
      case IntBClockOut => 2
      case IntBInput => 3
    }
  }

  // ts_in: the options ts_congfig ORs together (Pin_IO bits 4-6).
  const TsPullup80k: int := 0x00
  const TsPullup40k: int := 0x40
  const TslActiveHigh: int := 0x00
  const TslActiveLow: int := 0x20
  const TsimCmos: int := 0x00
  const TsimMechanical: int := 0x10

  /** One option of each ts_in pair, as ts_congfig's setting is composed. */
  predicate TsInOptions(pullup: int, level: int, input: int)
  {
    (pullup == TsPullup80k || pullup == TsPullup40k) &&
    (level == TslActiveHigh || level == TslActiveLow) &&
    (input == TsimCmos || input == TsimMechanical)
  }

  /**
   * The ten bytes `set` writes from Stop_enable: STOP, the clear-prescaler
   * command 0xA4 for Resets, then the eight time registers from
   * _100th_seconds. The hour slot is filled with the hour and then
   * overwritten with the weekday; the weekday slot is never filled, so it
   * carries whatever `stale` byte the buffer held.
   */
  function SetBuffer(t: Tm, wday: int, stale: bv8): (bf: seq<bv8>)
    ensures |bf| == 10
  {
    var bf := [0x01, 0xA4, 0x00, Enc(t.sec), Enc(t.min), Enc(t.hour), Enc(t.mday), stale, Enc(t.mon + 1), Enc(t.year - 100)];
    bf[5 := Enc(wday)]
  }

  /** The calendar time the eight bytes from _100th_seconds decode to; the 100ths and weekday bytes are skipped. */
  function TimeFields(bf: seq<bv8>): Tm
    requires |bf| == 8
  {
    Tm(Bcd2Dec(bf[1]), Bcd2Dec(bf[2]), Bcd2Dec(bf[3]), Bcd2Dec(bf[4]), Bcd2Dec(bf[6]) - 1, Bcd2Dec(bf[7]) + 100)
  }

  /** The calendar time `rtc_time` decodes from the time registers (before mktime). */
  function TimeOf(regs: seq<bv8>): Tm
    requires |regs| == RegCount
  {
    TimeFields(regs[Hundredths..Years + 1])
  }

  /**
   * The time part of set's buffer decodes to the time that was set, except
   * that the hour reads back as the weekday.
   */
  lemma {:induction false} SetBufferDecode(t: Tm, wday: int, stale: bv8)
    requires Encodable(t) && 0 <= wday <= 99
    ensures TimeFields(SetBuffer(t, wday, stale)[2..]) == t.(hour := wday)
  {
    var bf := SetBuffer(t, wday, stale)[2..];
    assert TimeFields(bf) == Decoded(t.(hour := wday));
    DecodedEncodable(t.(hour := wday));
  }

  /** The registers `set` writes: Stop_enable, Resets and the eight time registers. */
  const SetTouched: set<nat> := Span(StopEnable, 2) + Span(Hundredths, 8)

  /** set: one ten-byte block from Stop_enable, wrapping to _100th_seconds, then Stop_enable := 0. */
  function SetOp(c: Chip, t: Tm, wday: int, stale: bv8): (r: Chip)
    requires Fits(c)
    ensures Fits(r)
  {
    PutByte(PutBlock(c, StopEnable, SetBuffer(t, wday, stale)), StopEnable, 0x00)
  }

  /**
   * After set, the clock runs again (Stop_enable is 0), Resets holds the
   * prescaler-clear command 0xA4, the time registers hold the last eight
   * bytes of the buffer, and no other register changed.
   */
  lemma {:induction false} SetRegisters(c: Chip, t: Tm, wday: int, stale: bv8)
    requires Fits(c)
    ensures var r := SetOp(c, t, wday, stale);
      r.regs[StopEnable] == 0x00 && r.regs[Resets] == 0xA4 &&
      r.regs[Hundredths..Years + 1] == SetBuffer(t, wday, stale)[2..] &&
      SameExcept(c.regs, r.regs, SetTouched)
  {
    var bf := SetBuffer(t, wday, stale);
    var c1 := PutBlock(c, StopEnable, bf);
    var r := PutByte(c1, StopEnable, 0x00);
    assert Fetched(c1.regs, StopEnable, 10) == c1.regs[StopEnable..] + c1.regs[..8];
    assert c1.regs[StopEnable..] == bf[..2];
    assert c1.regs[..8] == bf[2..];
    assert r.regs[..8] == c1.regs[..8];
  }

  /**
   * set's writes: the block whose first byte raises STOP (Stop_enable bit 0)
   * is written first, and the single write clearing Stop_enable comes last.
   */
  lemma {:induction false} SetWriteOrder(c: Chip, t: Tm, wday: int, stale: bv8)
    requires Fits(c)
    ensures var bf := SetBuffer(t, wday, stale);
      SetOp(c, t, wday, stale).writes == c.writes + [Write(StopEnable, bf), Write(StopEnable, [0x00])] &&
      bf[0] & 0x01 == 0x01
  {
  }

  /**
   * Reading the time back after `set` gives the fields that were set, except
   * the hour, which reads back as the weekday (the hour byte is overwritten
   * in the buffer).
   */
  lemma {:induction false} SetThenRead(c: Chip, t: Tm, wday: int, stale: bv8)
    requires Fits(c) && Encodable(t) && 0 <= wday <= 99
    ensures TimeOf(SetOp(c, t, wday, stale).regs) == t.(hour := wday)
  {
    SetRegisters(c, t, wday, stale);
    SetBufferDecode(t, wday, stale);
  }

  /**
   * The Alarm_enables bit set_alarm turns on: bit `digit` when `val & 80` is
   * zero, nothing otherwise. The constant is decimal 80 (bits 4 and 6), and
   * only the low byte of `val` can meet it.
   */
  function AlarmEnableBit(digit: nat, val: int): bv8
    requires digit < 8
  {
    if U8(val) & 80 != 0 then 0x00 else Bit(digit)
  }

  /**
   * Consequences of the decimal constant: the disabling sentinel 0x80 has
   * neither bit 4 nor bit 6, so it enables the alarm, while a real setting
   * such as 30 has bit 4 and leaves the alarm disabled.
   */
  lemma {:induction false} AlarmEnableExamples(digit: nat)
    requires digit < 8
    ensures AlarmEnableBit(digit, 0x80) == Bit(digit)
    ensures AlarmEnableBit(digit, 30) == 0x00
  {
    U8Small(0x80);
    U8Small(30);
  }

  /** The interrupt enable bit set_alarm raises in INTA_enable or INTB_enable: A1IE for alarm 1, A2IE for alarm 2. */
  function AlarmInterruptBit(digit: nat): bv8
  {
    if digit < 5 then 0x10 else 0x80
  }

  /**
   * set_alarm: the alarm register receives dec2bcd(val) (the 0x80 sentinel
   * is encoded too), the enable bit is ORed into Alarm_enables and the alarm
   * interrupt of the selected output is enabled.
   */
  function SetAlarmOp(c: Chip, digit: nat, val: int, intSel: nat): (r: Chip)
    requires Fits(c) && digit < 8 && intSel < 2
    ensures Fits(r)
  {
    var en := AlarmEnableBit(digit, val);
    var enBit := AlarmInterruptBit(digit);
    var c1 := PutByte(c, SecondAlarm1 + digit, Enc(val));
    var c2 := PutMasked(c1, AlarmEnables, !en, en);
    PutMasked(c2, IntAEnable + intSel, !enBit, enBit)
  }

  /** The two bit_op8 updates of set_alarm, on the register values they act on. */
  lemma AlarmBytes(enables: bv8, intEnable: bv8, en: bv8, enBit: bv8)
    ensures en == 0x00 ==> Masked(enables, !en, en) == enables
    ensures Raised(enables, Masked(enables, !en, en), en)
    ensures Raised(intEnable, Masked(intEnable, !enBit, enBit), enBit)
  {
  }

  /**
   * After set_alarm, the alarm register holds dec2bcd(val); Alarm_enables has
   * bit `digit` set when `val & 80` is zero and is unchanged otherwise; the
   * alarm's interrupt enable bit of the selected output is set; and no other
   * register or bit changed.
   */
  lemma {:induction false} SetAlarmRegisters(c: Chip, digit: nat, val: int, intSel: nat)
    requires Fits(c) && digit < 8 && intSel < 2
    ensures var r := SetAlarmOp(c, digit, val, intSel);
      var ie := IntAEnable + intSel;
      r.regs[SecondAlarm1 + digit] == Enc(val) &&
      (U8(val) & 80 == 0 ==> Raised(c.regs[AlarmEnables], r.regs[AlarmEnables], Bit(digit))) &&
      (U8(val) & 80 != 0 ==> r.regs[AlarmEnables] == c.regs[AlarmEnables]) &&
      Raised(c.regs[ie], r.regs[ie], AlarmInterruptBit(digit)) &&
      SameExcept(c.regs, r.regs, {SecondAlarm1 + digit, AlarmEnables, ie})
  {
    AlarmBytes(c.regs[AlarmEnables], c.regs[IntAEnable + intSel], AlarmEnableBit(digit, val), AlarmInterruptBit(digit));
  }

  /** alarm(alarm_setting digit, val, int_sel): WEEKDAY is refused and changes nothing; the others are alarm-1 fields. */
  function AlarmOp(c: Chip, digit: AlarmSetting, val: int, intSel: nat): (r: Chip)
    requires Fits(c) && intSel < 2
    ensures Fits(r)
  {
    if digit == Weekday then c else SetAlarmOp(c, digit.Index(), val, intSel)
  }

  /**
   * The shared alarm_setting reaches alarm 1 only: WEEKDAY leaves the chip
   * (and its write log) as it was, and SECOND..DAY program Second_alarm1 ..
   * Day_alarm1.
   */
  lemma {:induction false} AlarmSharedSetting(c: Chip, digit: AlarmSetting, val: int, intSel: nat)
    requires Fits(c) && intSel < 2
    ensures digit == Weekday ==> AlarmOp(c, digit, val, intSel) == c
    ensures digit != Weekday ==>
      SecondAlarm1 <= SecondAlarm1 + digit.Index() <= DayAlarm1 &&
      AlarmOp(c, digit, val, intSel).regs[SecondAlarm1 + digit.Index()] == Enc(val)
  {
    if digit != Weekday {
      SetAlarmRegisters(c, digit.Index(), val, intSel);
    }
  }

  /** alarm_clear: Alarm_enables is zeroed and nothing else changes. */
  function AlarmClearOp(c: Chip): (r: Chip)
    requires Fits(c)
    ensures Fits(r)
    ensures r.regs[AlarmEnables] == 0x00
    ensures SameExcept(c.regs, r.regs, {AlarmEnables})
  {
    PutByte(c, AlarmEnables, 0x00)
  }

  /** alarm_clear undoes every enable bit set_alarm can set. */
  lemma {:induction false} AlarmClearAfterAlarm(c: Chip, digit: nat, val: int, intSel: nat)
    requires Fits(c) && digit < 8 && intSel < 2
    ensures var r := AlarmClearOp(SetAlarmOp(c, digit, val, intSel));
      r.regs[AlarmEnables] == 0x00 && r.regs[SecondAlarm1 + digit] == Enc(val)
  {
    SetAlarmRegisters(c, digit, val, intSel);
  }

  /** alarm_disable: bits 3-4 of INTA_enable, then of INTB_enable, are set. */
  function AlarmDisableOp(c: Chip): (r: Chip)
    requires Fits(c)
    ensures Fits(r)
  {
    PutMasked(PutMasked(c, IntAEnable, !0x18, 0x18), IntBEnable, !0x18, 0x18)
  }

  /** After alarm_disable, both enable registers have bits 3-4 set, their other bits kept, and nothing else changed. */
  lemma {:induction false} AlarmDisableRegisters(c: Chip)
    requires Fits(c)
    ensures var r := AlarmDisableOp(c);
      Raised(c.regs[IntAEnable], r.regs[IntAEnable], 0x18) &&
      Raised(c.regs[IntBEnable], r.regs[IntBEnable], 0x18) &&
      SameExcept(c.regs, r.regs, {IntAEnable, IntBEnable})
  {
    MaskedRaise(c.regs[IntAEnable], 0x18);
    MaskedRaise(c.regs[IntBEnable], 0x18);
  }

  /** int_clear: Flags is overwritten with the complement of the value read. */
  function IntClearOp(c: Chip): (r: Chip)
    requires Fits(c)
    ensures Fits(r)
    ensures r.regs[Flags] == !c.regs[Flags]
    ensures SameExcept(c.regs, r.regs, {Flags})
  {
    var status := c.regs[Flags];
    PutByte(c, Flags, !status)
  }

  /**
   * The byte int_clear writes has a 0 at every flag that was set (a flag is
   * cleared by writing 0). On this plain-memory register file a second
   * int_clear reads that byte and writes back the byte the first one read.
   */
  lemma {:induction false} IntClearTwice(c: Chip)
    requires Fits(c)
    ensures IntClearOp(c).regs[Flags] & c.regs[Flags] == 0
    ensures IntClearOp(IntClearOp(c)).writes ==
      c.writes + [Write(Flags, [!c.regs[Flags]]), Write(Flags, [c.regs[Flags]])]
  {
    var r := IntClearOp(c);
    assert r.writes == c.writes + [Write(Flags, [!c.regs[Flags]])];
    assert IntClearOp(r).writes == r.writes + [Write(Flags, [!!c.regs[Flags]])];
  }

  /**
   * On the chip, where writing 0 clears a flag and writing 1 keeps it, the
   * byte int_clear writes clears every pending flag: a second int_clear
   * returns no pending flag and leaves none.
   */
  lemma {:induction false} IntClearOnFlagRegister(c: Chip)
    requires Fits(c)
    ensures var held := FlagWrite(c.regs[Flags], IntClearOp(c).regs[Flags]);
      held == 0 && FlagWrite(held, !held) == 0
  {
    var held := FlagWrite(c.regs[Flags], IntClearOp(c).regs[Flags]);
    assert held == c.regs[Flags] & !c.regs[Flags];
  }

  /**
   * periodic_interrupt_enable: `sel` goes into Function bits 5-6 (the same
   * bit_op8 is issued twice), then bit 6 of INTA_enable or INTB_enable is set
   * for a periodic interrupt and cleared for DISABLE.
   */
  function PeriodicOp(c: Chip, sel: PeriodicIntSelect, intSel: nat): (r: Chip)
    requires Fits(c) && intSel < 2
    ensures Fits(r)
  {
    var pi := sel.Code() << 5;
    var on: bv8 := if sel != Disable then 1 else 0;
    var c1 := PutMasked(c, Function, !0x60, pi);
    var c2 := PutMasked(c1, Function, !0x60, pi);
    PutMasked(c2, IntAEnable + intSel, !0x40, on << 6)
  }

  /** The bytes periodic_interrupt_enable computes: the PI field holds the code, and bit 6 is set exactly for a periodic interrupt. */
  lemma PeriodicBytes(fn: bv8, intEnable: bv8, code: bv8, on: bool)
    requires code <= 2
    ensures Masked(fn, !0x60, code << 5) & 0x60 == code << 5
    ensures (Masked(fn, !0x60, code << 5) & 0x60) >> 5 == code
    ensures SameOutside(fn, Masked(fn, !0x60, code << 5), 0x60)
    ensures var v := Masked(intEnable, !0x40, (if on then 1 else 0) << 6);
      (v & 0x40 != 0 <==> on) && SameOutside(intEnable, v, 0x40)
  {
  }

  /**
   * After periodic_interrupt_enable, Function's PI field (bits 5-6) decodes
   * to `sel`, bit 6 of the selected interrupt enable register is set exactly
   * when `sel` is not DISABLE, the other bits of both are kept, no other
   * register changed, and the repeated write to Function changed nothing.
   */
  lemma {:induction false} PeriodicRegisters(c: Chip, sel: PeriodicIntSelect, intSel: nat)
    requires Fits(c) && intSel < 2
    ensures var r := PeriodicOp(c, sel, intSel);
      var ie := IntAEnable + intSel;
      (r.regs[Function] & 0x60) >> 5 == sel.Code() &&
      SameOutside(c.regs[Function], r.regs[Function], 0x60) &&
      (r.regs[ie] & 0x40 != 0 <==> sel != Disable) &&
      SameOutside(c.regs[ie], r.regs[ie], 0x40) &&
      SameExcept(c.regs, r.regs, {Function, ie})
    ensures PutMasked(c, Function, !0x60, sel.Code() << 5).regs ==
      PutMasked(PutMasked(c, Function, !0x60, sel.Code() << 5), Function, !0x60, sel.Code() << 5).regs
  {
    var pi := sel.Code() << 5;
    MaskedTwice(c.regs[Function], !0x60, pi);
    PeriodicBytes(c.regs[Function], c.regs[IntAEnable + intSel], sel.Code(), sel != Disable);
  }

  /** pin_congfig: Pin_IO bits 0-1 take the INTA function and bits 2-3 the INTB function. */
  function PinConfigOp(c: Chip, a: IntAPin, b: IntBPin): (r: Chip)
    requires Fits(c)
    ensures Fits(r)
  {
    PutMasked(c, PinIo, !0x0F, (b.Code() << 2) | a.Code())
  }

  /** The Pin_IO byte pin_congfig writes: both codes can be read back from it, and the upper nibble is kept. */
  lemma PinBytes(prev: bv8, a: bv8, b: bv8)
    requires a < 4 && b < 4
    ensures Masked(prev, !0x0F, (b << 2) | a) & 0x03 == a
    ensures (Masked(prev, !0x0F, (b << 2) | a) >> 2) & 0x03 == b
    ensures SameOutside(prev, Masked(prev, !0x0F, (b << 2) | a), 0x0F)
  {
  }

  /** After pin_congfig, INTAPM and INTBPM decode to the chosen pin functions; nothing else changed. */
  lemma {:induction false} PinConfigRegisters(c: Chip, a: IntAPin, b: IntBPin)
    requires Fits(c)
    ensures var r := PinConfigOp(c, a, b);
      r.regs[PinIo] & 0x03 == a.Code() && (r.regs[PinIo] >> 2) & 0x03 == b.Code() &&
      SameOutside(c.regs[PinIo], r.regs[PinIo], 0x0F) &&
      SameExcept(c.regs, r.regs, {PinIo})
  {
    PinBytes(c.regs[PinIo], a.Code(), b.Code());
  }

  /** ts_congfig: Pin_IO keeps its low nibble and ORs in the setting, then the timestamp interrupt (INTA_enable bit 2) is enabled. */
  function TsConfigOp(c: Chip, setting: int): (r: Chip)
    requires Fits(c)
    ensures Fits(r)
  {
    PutMasked(PutMasked(c, PinIo, 0x0F, U8(setting)), IntAEnable, !0x04, 0x04)
  }

  /**
   * After ts_congfig, Pin_IO's upper nibble is the setting's; a setting
   * composed of the ts_in options keeps the pin functions in the low nibble;
   * INTA_enable has bit 2 set; nothing else changed.
   */
  lemma {:induction false} TsConfigRegisters(c: Chip, setting: int)
    requires Fits(c)
    ensures var r := TsConfigOp(c, setting);
      r.regs[PinIo] == (c.regs[PinIo] & 0x0F) | U8(setting) &&
      r.regs[PinIo] & 0xF0 == U8(setting) & 0xF0 &&
      (U8(setting) & 0x0F == 0 ==> r.regs[PinIo] & 0x0F == c.regs[PinIo] & 0x0F) &&
      Raised(c.regs[IntAEnable], r.regs[IntAEnable], 0x04) &&
      SameExcept(c.regs, r.regs, {PinIo, IntAEnable})
  {
    MaskedRaise(c.regs[IntAEnable], 0x04);
  }

  /**
   * A setting ORed from the ts_in options lands in Pin_IO bits 4-6, one bit
   * per chosen option, bit 7 is cleared and the pin functions in the low
   * nibble are kept. The options occupy distinct bits, so their sum is their OR.
   */
  lemma {:induction false} TsConfigOptions(c: Chip, pullup: int, level: int, input: int)
    requires Fits(c) && TsInOptions(pullup, level, input)
    ensures var p := TsConfigOp(c, pullup + level + input).regs[PinIo];
      (p & 0x40 != 0 <==> pullup == TsPullup40k) &&
      (p & 0x20 != 0 <==> level == TslActiveLow) &&
      (p & 0x10 != 0 <==> input == TsimMechanical) &&
      p & 0x8F == c.regs[PinIo] & 0x0F
  {
    var setting := pullup + level + input;
    U8Small(setting);
    var b := U8(setting);
    assert b == (if pullup == TsPullup40k then 0x40 else 0) | (if level == TslActiveLow then 0x20 else 0) |
      (if input == TsimMechanical then 0x10 else 0);
  }

  /** The first register of timestamp block `num` (0-based): the blocks are six registers apart. */
  function TimestampRegister(num: int): (reg: nat)
    requires 0 <= num < 3
    ensures num == 0 ==> reg == Tsr1Seconds && reg + 5 == Tsr1Years
    ensures num == 1 ==> reg == Tsr2Seconds && reg + 5 == Tsr2Years
    ensures num == 2 ==> reg == Tsr3Seconds && reg + 5 == Tsr3Years
    ensures Tsr1Seconds <= reg <= Tsr3Seconds
  {
    Tsr1Seconds + 6 * num
  }

  /** The calendar time a timestamp block decodes to: seconds to years. */
  function StampFields(b: seq<bv8>): Tm
    requires |b| == 6
  {
    Tm(Bcd2Dec(b[0]), Bcd2Dec(b[1]), Bcd2Dec(b[2]), Bcd2Dec(b[3]), Bcd2Dec(b[4]) - 1, Bcd2Dec(b[5]) + 100)
  }

  /** The calendar time `timestamp(num)` decodes from block `num` (before mktime). */
  function TimestampOf(regs: seq<bv8>, num: int): Tm
    requires |regs| == RegCount && 0 <= num < 3
  {
    var reg := TimestampRegister(num);
    StampFields(regs[reg..reg + 6])
  }

  /** A PCF85263A driver over its register file. */
  class Pcf85263a {
    const dev: RegisterFile

    ghost predicate Valid()
      reads this, dev
    {
      dev.Valid() && dev.count == RegCount
    }

    constructor (dev: RegisterFile)
      requires dev.Valid() && dev.count == RegCount
      ensures this.dev == dev && Valid()
    {
      this.dev := dev;
    }

    /** begin: nothing to do. */
    method Begin()
      requires Valid()
      ensures dev.chip == old(dev.chip)
    {
    }

    /**
     * set: `wday` is the weekday that mktime/localtime derive from `t`, and
     * `stale` the byte the uninitialised weekday slot of the buffer holds.
     */
    method Set(t: Tm, wday: int, stale: bv8)
      requires Valid()
      modifies dev
      ensures Valid() && dev.chip == SetOp(old(dev.chip), t, wday, stale)
    {
      var bf := SetBuffer(t, wday, stale);
      dev.WriteRegs(StopEnable, bf);
      dev.WriteReg(StopEnable, 0x00);
    }

    /** oscillator_stop: the OS flag, bit 7 of Seconds. */
    method OscillatorStop() returns (stopped: bool)
      requires Valid()
      ensures stopped <==> OscillatorStopped(dev.chip.regs[Seconds])
    {
      var v := dev.ReadReg(Seconds);
      stopped := OscillatorStopped(v);
    }

    /** alarm(digit, val): alarm on INTA. */
    method Alarm(digit: AlarmSetting, val: int)
      requires Valid()
      modifies dev
      ensures Valid() && dev.chip == AlarmOp(old(dev.chip), digit, val, 0)
    {
      AlarmOn(digit, val, 0);
    }

    /** alarm(alarm_setting digit, val, int_sel): WEEKDAY is reported as unsupported and ignored. */
    method AlarmOn(digit: AlarmSetting, val: int, intSel: nat)
      requires Valid() && intSel < 2
      modifies dev
      ensures Valid() && dev.chip == AlarmOp(old(dev.chip), digit, val, intSel)
    {
      if digit == Weekday {
        return;
      }
      SetAlarm(digit.Index(), val, intSel);
    }

    /** alarm(alarm_setting_85263A digit, val, int_sel). */
    method AlarmSelected(digit: AlarmSelect, val: int, intSel: nat)
      requires Valid() && intSel < 2
      modifies dev
      ensures Valid() && dev.chip == SetAlarmOp(old(dev.chip), digit.Index(), val, intSel)
    {
      SetAlarm(digit.Index(), val, intSel);
    }

    method SetAlarm(digit: nat, val: int, intSel: nat)
      requires Valid() && digit < 8 && intSel < 2
      modifies dev
      ensures Valid() && dev.chip == SetAlarmOp(old(dev.chip), digit, val, intSel)
    {
      var en: bv8 := if U8(val) & 80 != 0 then 0x00 else Bit(digit);
      dev.WriteReg(SecondAlarm1 + digit, Enc(val));
      dev.BitOp8(AlarmEnables, !en, en);
      var enBit: bv8 := if digit < 5 then 0x10 else 0x80;
      dev.BitOp8(IntAEnable + intSel, !enBit, enBit);
    }

    method AlarmClear()
      requires Valid()
      modifies dev
      ensures Valid() && dev.chip == AlarmClearOp(old(dev.chip))
    {
      dev.WriteReg(AlarmEnables, 0x00);
    }

    method AlarmDisable()
      requires Valid()
      modifies dev
      ensures Valid() && dev.chip == AlarmDisableOp(old(dev.chip))
    {
      dev.BitOp8(IntAEnable, !0x18, 0x18);
      dev.BitOp8(IntBEnable, !0x18, 0x18);
    }

    /** int_clear: returns Flags as read. */
    method IntClear() returns (status: bv8)
      requires Valid()
      modifies dev
      ensures Valid() && dev.chip == IntClearOp(old(dev.chip))
      ensures status == old(dev.chip.regs[Flags])
    {
      status := dev.ReadReg(Flags);
      dev.WriteReg(Flags, !status);
    }

    /** rtc_time: eight bytes from _100th_seconds, decoded field by field. */
    method RtcTime() returns (t: Tm)
      requires Valid()
      ensures t == TimeOf(dev.chip.regs)
    {
      var bf := new bv8[8];
      dev.ReadRegs(Hundredths, bf, 8);
      assert bf[..] == dev.chip.regs[Hundredths..Years + 1];
      t := TimeFields(bf[..]);
    }

    method PeriodicInterruptEnable(sel: PeriodicIntSelect, intSel: nat)
      requires Valid() && intSel < 2
      modifies dev
      ensures Valid() && dev.chip == PeriodicOp(old(dev.chip), sel, intSel)
    {
      dev.BitOp8(Function, !0x60, sel.Code() << 5);
      dev.BitOp8(Function, !0x60, sel.Code() << 5);
      var on: bv8 := if sel != Disable then 1 else 0;
      dev.BitOp8(IntAEnable + intSel, !0x40, on << 6);
    }

    /** pin_congfig(cfg_a, cfg_b). */
    method PinConfig(a: IntAPin, b: IntBPin)
      requires Valid()
      modifies dev
      ensures Valid() && dev.chip == PinConfigOp(old(dev.chip), a, b)
    {
      dev.BitOp8(PinIo, !0x0F, (b.Code() << 2) | a.Code());
    }

    /** ts_congfig(setting): `setting` ORs ts_in options together. */
    method TsConfig(setting: int)
      requires Valid()
      modifies dev
      ensures Valid() && dev.chip == TsConfigOp(old(dev.chip), setting)
    {
      dev.BitOp8(PinIo, 0x0F, U8(setting));
      dev.BitOp8(IntAEnable, !0x04, 0x04);
    }

    /** timestamp(num): the six registers of block `num` (0-based), decoded. */
    method Timestamp(num: int) returns (t: Tm)
      requires Valid() && 0 <= num < 3
      ensures t == TimestampOf(dev.chip.regs, num)
    {
      var reg := Tsr1Seconds + 6 * num;
      var bf := new bv8[6];
      dev.ReadRegs(reg, bf, 6);
      assert reg == TimestampRegister(num) && bf[..] == dev.chip.regs[reg..reg + 6];
      t := StampFields(bf[..]);
    }
  }
}
