// PCF2131: the register map of PCF2131_base and its driver operations. Every
// operation is a sequence of register accesses through the register file; the
// pure functions ending in `Op` give the chip state after the operation, and
// their contracts say which registers and bits the operation touches.

module PCF2131 {
  import opened Rtc
  import opened Registers

  // reg_num: the enumerators are numbered consecutively from 0.
  const Control1: nat := 0
  const Control2: nat := 1
  const Control3: nat := 2
  const Control4: nat := 3
  const Control5: nat := 4
  const SrReset: nat := 5
  const Hundredths: nat := 6
  const Seconds: nat := 7
  const Minutes: nat := 8
  const Hours: nat := 9
  const Days: nat := 10
  const Weekdays: nat := 11
  const Months: nat := 12
  const Years: nat := 13
  const SecondAlarm: nat := 14
  const MinuteAlarm: nat := 15
  const HourAlarm: nat := 16
  const DayAlarm: nat := 17
  const WeekdayAlarm: nat := 18
  const ClkoutCtl: nat := 19
  const TimestpCtl1: nat := 20
  const SecTimestp1: nat := 21
  const YearTimestp1: nat := 26
  const TimestpCtl2: nat := 27
  const SecTimestp2: nat := 28
  const YearTimestp2: nat := 33
  const TimestpCtl3: nat := 34
  const SecTimestp3: nat := 35
  const YearTimestp3: nat := 40
  const TimestpCtl4: nat := 41
  const SecTimestp4: nat := 42
  const YearTimestp4: nat := 47
  const AgingOffset: nat := 48
  const IntAMask1: nat := 49
  const IntAMask2: nat := 50
  const IntBMask1: nat := 51
  const IntBMask2: nat := 52
  const WatchdgTimCtl: nat := 53
  const WatchdgTimVal: nat := 54
  /** Number of registers (Control_1 .. Watchdg_tim_val). */
  const RegCount: nat := 55

  /** timestamp_setting: keep the first or the last event. */
  datatype TimestampSetting = Last | First

  /** clock_out_frequency: the CLKOUT_ctl COF field, in enumerator order. */
  datatype ClockOutFrequency =
    | Freq32768Hz | Freq16384Hz | Freq8192Hz | Freq4096Hz
    | Freq2048Hz | Freq1024Hz | Freq1Hz | FreqDisable
  {
    function Code(): (c: bv8)
      ensures c < 8
    {
      match this
      case Freq32768Hz => 0
      case Freq16384Hz => 1
      case Freq8192Hz => 2
      case Freq4096Hz => 3
      case Freq2048Hz => 4
      case Freq1024Hz => 5
      case Freq1Hz => 6
      case FreqDisable => 7
    }
  }

  /** A chip state whose register file has the PCF2131 map. */
  predicate Fits(c: Chip) { |c.regs| == RegCount }

  /**
   * int_mask_reg: row `intSel` holds the MASK1 and MASK2 registers of
   * interrupt output INT_A (0) or INT_B (1).
   */
  function IntMaskReg(intSel: nat, k: nat): (reg: nat)
    requires intSel < 2 && k < 2
    ensures intSel == 0 ==> reg == if k == 0 then IntAMask1 else IntAMask2
    ensures intSel == 1 ==> reg == if k == 0 then IntBMask1 else IntBMask2
    ensures IntAMask1 <= reg <= IntBMask2
  {
    if intSel == 0 then (if k == 0 then IntAMask1 else IntAMask2)
    else (if k == 0 then IntBMask1 else IntBMask2)
  }

  /** `Second_alarm + digit`: the alarm register of the field `digit` names. */
  function AlarmRegister(digit: AlarmSetting): (reg: nat)
    ensures reg == match digit
      case Second => SecondAlarm
      case Minute => MinuteAlarm
      case Hour => HourAlarm
      case Day => DayAlarm
      case Weekday => WeekdayAlarm
  {
    SecondAlarm + digit.Index()
  }

  /**
   * `Timestp_ctl1 + (num - 1) * 7`: timestamp blocks are seven registers long,
   * so this is the control register of block `num`, and the six registers after
   * it run from its seconds register to its years register.
   */
  function TimestampControl(num: int): (reg: nat)
    requires 1 <= num <= 4
    ensures num == 1 ==> reg == TimestpCtl1 && reg + 1 == SecTimestp1 && reg + 6 == YearTimestp1
    ensures num == 2 ==> reg == TimestpCtl2 && reg + 1 == SecTimestp2 && reg + 6 == YearTimestp2
    ensures num == 3 ==> reg == TimestpCtl3 && reg + 1 == SecTimestp3 && reg + 6 == YearTimestp3
    ensures num == 4 ==> reg == TimestpCtl4 && reg + 1 == SecTimestp4 && reg + 6 == YearTimestp4
    ensures TimestpCtl1 <= reg <= TimestpCtl4
  {
    TimestpCtl1 + (num - 1) * 7
  }

  /** The eight bytes `set` writes from _100th_Seconds; `wday` is the weekday the calendar library derives. */
  function TimeBytes(t: Tm, wday: int): (bf: seq<bv8>)
    ensures |bf| == 8
  {
    [0, Enc(t.sec), Enc(t.min), Enc(t.hour), Enc(t.mday), Enc(wday), Enc(t.mon + 1), Enc(t.year - 100)]
  }

  /** The calendar time the eight bytes from _100th_Seconds decode to; the 100ths and weekday bytes are skipped. */
  function TimeFields(bf: seq<bv8>): Tm
    requires |bf| == 8
  {
    Tm(Bcd2Dec(bf[1]), Bcd2Dec(bf[2]), Bcd2Dec(bf[3]), Bcd2Dec(bf[4]), Bcd2Dec(bf[6]) - 1, Bcd2Dec(bf[7]) + 100)
  }

  /** The calendar time `rtc_time` decodes from the time registers (before mktime). */
  function TimeOf(regs: seq<bv8>): Tm
    requires |regs| == RegCount
  {
    TimeFields(regs[Hundredths..Years + 1])
  }

  /** Decoding the bytes `set` writes gives back every field of an encodable time. */
  lemma {:induction false} TimeBytesDecode(t: Tm, wday: int)
    requires Encodable(t)
    ensures TimeFields(TimeBytes(t, wday)) == t
  {
    var bf := TimeBytes(t, wday);
    assert TimeFields(bf) == Decoded(t);
    DecodedEncodable(t);
  }

  /** The calendar time a timestamp block decodes to: control byte, then seconds to years. */
  function StampFields(b: seq<bv8>): Tm
    requires |b| == 7
  {
    Tm(Bcd2Dec(b[1]), Bcd2Dec(b[2]), Bcd2Dec(b[3]), Bcd2Dec(b[4]), Bcd2Dec(b[5]) - 1, Bcd2Dec(b[6]) + 100)
  }

  /** The calendar time `timestamp(num)` decodes from timestamp block `num` (before mktime). */
  function TimestampOf(regs: seq<bv8>, num: int): Tm
    requires |regs| == RegCount && 1 <= num <= 4
  {
    var reg := TimestampControl(num);
    StampFields(regs[reg..reg + 7])
  }

  /** The registers `set` writes: Control_1, SR_Reset and the eight time registers. */
  const SetTouched: set<nat> := {Control1, SrReset} + Span(Hundredths, 8)

  /**
   * set: STOP (Control_1 bit 5) is raised with bit 3 cleared, SR_Reset bit 7 is
   * set, the eight time bytes are written from _100th_Seconds, and STOP is
   * dropped again.
   */
  function SetOp(c: Chip, t: Tm, wday: int): (r: Chip)
    requires Fits(c)
    ensures Fits(r)
  {
    var c1 := PutMasked(c, Control1, !0x28, 0x20);
    var c2 := PutMasked(c1, SrReset, !0x80, 0x80);
    var c3 := PutBlock(c2, Hundredths, TimeBytes(t, wday));
    PutMasked(c3, Control1, !0x20, 0x00)
  }

  /**
   * The bytes set puts on Control_1 and SR_Reset: STOP raised with bit 3
   * cleared, then STOP dropped, leaves bits 3 and 5 clear and the rest of
   * Control_1 as it was; SR_Reset gets bit 7 set.
   */
  lemma SetBytes(ctl1: bv8, srReset: bv8)
    ensures Cleared(ctl1, Masked(Masked(ctl1, !0x28, 0x20), !0x20, 0x00), 0x28)
    ensures Raised(srReset, Masked(srReset, !0x80, 0x80), 0x80)
  {
  }

  /**
   * After set, Control_1 has bits 3 and 5 clear, SR_Reset has bit 7 set, the
   * time registers hold the eight time bytes, and no other register changed.
   */
  lemma {:induction false} SetRegisters(c: Chip, t: Tm, wday: int)
    requires Fits(c)
    ensures var r := SetOp(c, t, wday);
      Cleared(c.regs[Control1], r.regs[Control1], 0x28) &&
      Raised(c.regs[SrReset], r.regs[SrReset], 0x80) &&
      r.regs[Hundredths..Years + 1] == TimeBytes(t, wday) &&
      SameExcept(c.regs, r.regs, SetTouched)
  {
    var bf := TimeBytes(t, wday);
    var c1 := PutMasked(c, Control1, !0x28, 0x20);
    var c2 := PutMasked(c1, SrReset, !0x80, 0x80);
    var c3 := PutBlock(c2, Hundredths, bf);
    var r := PutMasked(c3, Control1, !0x20, 0x00);
    assert r == SetOp(c, t, wday);
    SetBytes(c.regs[Control1], c.regs[SrReset]);
    assert c3.regs[Hundredths..Years + 1] == bf;
    assert r.regs[Hundredths..Years + 1] == c3.regs[Hundredths..Years + 1];
    forall k | 0 <= k < RegCount && k !in SetTouched
      ensures r.regs[k] == c.regs[k]
    {
      assert k !in Span(Hundredths, 8);
    }
  }

  /**
   * The order of set's writes: the bit_op8 raising STOP (Control_1 bit 5, with
   * bit 3 cleared) comes before anything else, then the one setting SR_Reset
   * bit 7; the time block is written while the clock is stopped, and the last
   * write leaves Control_1 with its final value, STOP dropped.
   */
  lemma {:induction false} SetWriteOrder(c: Chip, t: Tm, wday: int)
    requires Fits(c)
    ensures var r := SetOp(c, t, wday);
      r.writes == c.writes + [
        Write(Control1, [Masked(c.regs[Control1], !0x28, 0x20)]),
        Write(SrReset, [Masked(c.regs[SrReset], !0x80, 0x80)]),
        Write(Hundredths, TimeBytes(t, wday)),
        Write(Control1, [r.regs[Control1]])]
  {
    var c1 := PutMasked(c, Control1, !0x28, 0x20);
    var c2 := PutMasked(c1, SrReset, !0x80, 0x80);
    var c3 := PutBlock(c2, Hundredths, TimeBytes(t, wday));
    var r := PutMasked(c3, Control1, !0x20, 0x00);
    assert r == SetOp(c, t, wday);
    assert c3.regs[Control1] == c1.regs[Control1];
  }

  /** Reading the time back after `set` gives the fields that were set; the weekday and 100ths bytes are not read back. */
  lemma {:induction false} SetThenRead(c: Chip, t: Tm, wday: int)
    requires Fits(c) && Encodable(t)
    ensures TimeOf(SetOp(c, t, wday).regs) == t
  {
    SetRegisters(c, t, wday);
    TimeBytesDecode(t, wday);
  }

  /**
   * alarm: the alarm register of `digit` receives the alarm code, then alarm
   * interrupt mask bit 2 of the selected MASK1 is cleared and the alarm
   * interrupt enable (Control_2 bit 1) is set.
   */
  function AlarmOp(c: Chip, digit: AlarmSetting, val: int, intSel: nat): (r: Chip)
    requires Fits(c) && intSel < 2
    ensures Fits(r)
  {
    var c1 := PutByte(c, AlarmRegister(digit), AlarmCode(val));
    var c2 := PutMasked(c1, IntMaskReg(intSel, 0), !0x04, 0x00);
    PutMasked(c2, Control2, !0x02, 0x02)
  }

  /** After alarm, the alarm register holds the alarm code, the alarm is unmasked and enabled, and no other register changed. */
  lemma {:induction false} AlarmRegisters(c: Chip, digit: AlarmSetting, val: int, intSel: nat)
    requires Fits(c) && intSel < 2
    ensures var r := AlarmOp(c, digit, val, intSel);
      var m1 := IntMaskReg(intSel, 0);
      r.regs[AlarmRegister(digit)] == AlarmCode(val) &&
      Cleared(c.regs[m1], r.regs[m1], 0x04) &&
      Raised(c.regs[Control2], r.regs[Control2], 0x02) &&
      SameExcept(c.regs, r.regs, {AlarmRegister(digit), m1, Control2})
  {
    MaskedClear(c.regs[IntMaskReg(intSel, 0)], 0x04);
    MaskedRaise(c.regs[Control2], 0x02);
  }

  /** alarm_clear: only the alarm flag, Control_2 bit 4, changes, to 0. */
  function AlarmClearOp(c: Chip): (r: Chip)
    requires Fits(c)
    ensures Fits(r)
    ensures Cleared(c.regs[Control2], r.regs[Control2], 0x10)
    ensures SameExcept(c.regs, r.regs, {Control2})
  {
    PutMasked(c, Control2, !0x10, 0x00)
  }

  /** alarm_disable: only the alarm interrupt enable, Control_2 bit 1, changes, to 0. */
  function AlarmDisableOp(c: Chip): (r: Chip)
    requires Fits(c)
    ensures Fits(r)
    ensures Cleared(c.regs[Control2], r.regs[Control2], 0x02)
    ensures SameExcept(c.regs, r.regs, {Control2})
  {
    PutMasked(c, Control2, !0x02, 0x00)
  }

  /** The value timestamp puts into bit 7 (TSM) of a block's control register. */
  function FirstBit(setting: TimestampSetting): bv8
  {
    if setting == First then 0x80 else 0x00
  }

  /**
   * timestamp(num, setting, int_sel): bit 7 of the block's control register
   * selects first or last event, then the timestamp's interrupt mask bit in the
   * selected MASK2 is cleared and its enable bit in Control_5 is set.
   */
  function TimestampOp(c: Chip, num: int, setting: TimestampSetting, intSel: nat): (r: Chip)
    requires Fits(c) && 1 <= num <= 4 && intSel < 2
    ensures Fits(r)
  {
    var n := num - 1;
    var c1 := PutMasked(c, TimestampControl(num), !0x80, FirstBit(setting));
    var c2 := PutMasked(c1, IntMaskReg(intSel, 1), !Bit(3 - n), 0x00);
    PutMasked(c2, Control5, !Bit(7 - n), Bit(7 - n))
  }

  /**
   * After timestamp, bit 7 of the block's control register is set exactly when
   * the first event is kept; mask bit 3 - (num - 1) of the selected MASK2 is
   * clear; enable bit 7 - (num - 1) of Control_5 is set; every other bit of
   * these registers and every other register is unchanged.
   */
  lemma {:induction false} TimestampRegisters(c: Chip, num: int, setting: TimestampSetting, intSel: nat)
    requires Fits(c) && 1 <= num <= 4 && intSel < 2
    ensures var r := TimestampOp(c, num, setting, intSel);
      var ctl, m2 := TimestampControl(num), IntMaskReg(intSel, 1);
      (r.regs[ctl] & 0x80 != 0 <==> setting == First) && SameOutside(c.regs[ctl], r.regs[ctl], 0x80) &&
      Cleared(c.regs[m2], r.regs[m2], Bit(3 - (num - 1))) &&
      Raised(c.regs[Control5], r.regs[Control5], Bit(7 - (num - 1))) &&
      SameExcept(c.regs, r.regs, {ctl, m2, Control5})
  {
    var ctl, m2 := TimestampControl(num), IntMaskReg(intSel, 1);
    TimestampBytes(c.regs[ctl], c.regs[m2], c.regs[Control5], setting, Bit(3 - (num - 1)), Bit(7 - (num - 1)));
  }

  /** The three bit_op8 updates of timestamp, on the register values they act on. */
  lemma TimestampBytes(ctl: bv8, mask2: bv8, ctl5: bv8, setting: TimestampSetting, maskBit: bv8, enableBit: bv8)
    ensures var v := Masked(ctl, !0x80, FirstBit(setting));
      (v & 0x80 != 0 <==> setting == First) && SameOutside(ctl, v, 0x80)
    ensures Cleared(mask2, Masked(mask2, !maskBit, 0x00), maskBit)
    ensures Raised(ctl5, Masked(ctl5, !enableBit, enableBit), enableBit)
  {
    MaskedField(ctl, 0x80, FirstBit(setting));
    MaskedClear(mask2, maskBit);
    MaskedRaise(ctl5, enableBit);
  }

  /**
   * int_clear: Control_2..Control_4 are read in one block; each is rewritten
   * only when one of its interrupt flags is set.
   */
  function IntClearOp(c: Chip): (r: Chip)
    requires Fits(c)
    ensures Fits(r)
    ensures r.regs[Control2] == IntClearCtl2(c.regs[Control2])
    ensures r.regs[Control3] == IntClearCtl3(c.regs[Control3])
    ensures r.regs[Control4] == IntClearCtl4(c.regs[Control4])
    ensures SameExcept(c.regs, r.regs, {Control2, Control3, Control4})
  {
    var rv := Fetched(c.regs, Control2, 3);
    var c1 := PutByteIf(c, rv[0] & 0x90 != 0, Control2, IntClearCtl2(rv[0]));
    var c2 := PutByteIf(c1, rv[1] & 0x08 != 0, Control3, IntClearCtl3(rv[1]));
    PutByteIf(c2, rv[2] & 0xF0 != 0, Control4, IntClearCtl4(rv[2]))
  }

  /** Control_2 after int_clear: the value written back when a flag (bit 4 or 7) is set. */
  function IntClearCtl2(v: bv8): bv8 { if v & 0x90 != 0 then v & !((v & 0x90) | 0x49) else v }
  /** Control_3 after int_clear. */
  function IntClearCtl3(v: bv8): bv8 { if v & 0x08 != 0 then v & !0x08 else v }
  /** Control_4 after int_clear. */
  function IntClearCtl4(v: bv8): bv8 { if v & 0xF0 != 0 then v & !(v & 0xF0) else v }

  /** On each control register, int_clear clears the flags and keeps what its mask keeps. */
  lemma IntClearBytes(v2: bv8, v3: bv8, v4: bv8)
    ensures IntClearCtl2(v2) == if v2 & 0x90 != 0 then v2 & 0x26 else v2
    ensures IntClearCtl2(v2) & 0x90 == 0
    ensures Cleared(v3, IntClearCtl3(v3), 0x08)
    ensures Cleared(v4, IntClearCtl4(v4), 0xF0)
  {
  }

  /**
   * After int_clear, Control_2 has lost its set flags (bits 4 and 7) together
   * with bits 0, 3 and 6 when a flag was set, and is unchanged otherwise;
   * Control_3 has flag bit 3 clear and Control_4 has flag bits 4-7 clear, the
   * rest of each kept; no other register changed.
   */
  lemma {:induction false} IntClearRegisters(c: Chip)
    requires Fits(c)
    ensures var r := IntClearOp(c);
      (r.regs[Control2] == if c.regs[Control2] & 0x90 != 0 then c.regs[Control2] & 0x26 else c.regs[Control2]) &&
      r.regs[Control2] & 0x90 == 0 &&
      Cleared(c.regs[Control3], r.regs[Control3], 0x08) &&
      Cleared(c.regs[Control4], r.regs[Control4], 0xF0) &&
      SameExcept(c.regs, r.regs, {Control2, Control3, Control4})
  {
    IntClearBytes(c.regs[Control2], c.regs[Control3], c.regs[Control4]);
  }

  /**
   * int_clear writes exactly the control registers that had a flag set, in
   * register order, each with its final value.
   */
  lemma {:induction false} IntClearWrites(c: Chip)
    requires Fits(c)
    ensures var r := IntClearOp(c);
      r.writes == c.writes +
        (if c.regs[Control2] & 0x90 != 0 then [Write(Control2, [r.regs[Control2]])] else []) +
        (if c.regs[Control3] & 0x08 != 0 then [Write(Control3, [r.regs[Control3]])] else []) +
        (if c.regs[Control4] & 0xF0 != 0 then [Write(Control4, [r.regs[Control4]])] else [])
  {
  }

  /** A second int_clear finds no flag set: it writes nothing and changes nothing. */
  lemma {:induction false} IntClearSettles(c: Chip)
    requires Fits(c)
    ensures IntClearOp(IntClearOp(c)) == IntClearOp(c)
  {
    IntClearRegisters(c);
  }

  /**
   * periodic_interrupt_enable: DISABLE clears Control_1 bits 0-1 and sets the
   * MI/SI mask bits 4-5 of the selected MASK1. Any other selection writes
   * Control_1 bits 0-1 with 3 (the computed 1 or 2 is overridden) and
   * MASK1 with the masked update whose value is ~(3 << 4).
   */
  function PeriodicOp(c: Chip, sel: PeriodicIntSelect, intSel: nat): (r: Chip)
    requires Fits(c) && intSel < 2
    ensures Fits(r)
  {
    var m1 := IntMaskReg(intSel, 0);
    var v: bv8 := 3;
    if sel == Disable then
      PutMasked(PutMasked(c, Control1, !0x03, 0x00), m1, !0x30, 0x30)
    else
      PutMasked(PutMasked(c, Control1, !0x03, v), m1, !0x30, !(v << 4))
  }

  /**
   * After periodic_interrupt_enable, DISABLE leaves Control_1 bits 0-1 clear
   * and the mask bits 4-5 set; any other selection leaves both Control_1 bits
   * 0-1 set (second and minute interrupts at once) and MASK1 equal to 0xCF,
   * whatever it held, so every other interrupt of that output is masked.
   */
  lemma {:induction false} PeriodicRegisters(c: Chip, sel: PeriodicIntSelect, intSel: nat)
    requires Fits(c) && intSel < 2
    ensures var r := PeriodicOp(c, sel, intSel);
      var m1 := IntMaskReg(intSel, 0);
      (sel == Disable ==>
        Cleared(c.regs[Control1], r.regs[Control1], 0x03) && Raised(c.regs[m1], r.regs[m1], 0x30)) &&
      (sel != Disable ==>
        Raised(c.regs[Control1], r.regs[Control1], 0x03) && r.regs[m1] == 0xCF) &&
      SameExcept(c.regs, r.regs, {Control1, m1})
  {
    var m1 := IntMaskReg(intSel, 0);
    if sel == Disable {
      MaskedClear(c.regs[Control1], 0x03);
      MaskedRaise(c.regs[m1], 0x30);
    } else {
      MaskedRaise(c.regs[Control1], 0x03);
    }
  }

  /** set_clock_out: the COF field, CLKOUT_ctl bits 0-2, takes the frequency code. */
  function ClockOutOp(c: Chip, freq: ClockOutFrequency): (r: Chip)
    requires Fits(c)
    ensures Fits(r)
    ensures r.regs[ClkoutCtl] & 0x07 == freq.Code() && SameOutside(c.regs[ClkoutCtl], r.regs[ClkoutCtl], 0x07)
    ensures SameExcept(c.regs, r.regs, {ClkoutCtl})
  {
    PutMasked(c, ClkoutCtl, !0x07, freq.Code())
  }

  /** reset: the software-reset command 0x2C is written to SR_Reset and nothing else. */
  function ResetOp(c: Chip): (r: Chip)
    requires Fits(c)
    ensures Fits(r)
    ensures r.regs[SrReset] == 0x2C && r.writes == c.writes + [Write(SrReset, [0x2C])]
    ensures SameExcept(c.regs, r.regs, {SrReset})
  {
    PutByte(c, SrReset, 0x2C)
  }

  /** otp_refresh: only OTPR (CLKOUT_ctl bit 5) changes, and it ends set. */
  function OtpRefreshOp(c: Chip): (r: Chip)
    requires Fits(c)
    ensures Fits(r)
    ensures Raised(c.regs[ClkoutCtl], r.regs[ClkoutCtl], 0x20)
    ensures SameExcept(c.regs, r.regs, {ClkoutCtl})
  {
    PutMasked(PutMasked(c, ClkoutCtl, !0x20, 0x00), ClkoutCtl, !0x20, 0x20)
  }

  /** otp_refresh pulses OTPR: two writes to CLKOUT_ctl, the first with bit 5 clear, the second with it set. */
  lemma {:induction false} OtpRefreshPulse(c: Chip)
    requires Fits(c)
    ensures OtpRefreshOp(c).writes == c.writes + [
      Write(ClkoutCtl, [c.regs[ClkoutCtl] & !0x20]),
      Write(ClkoutCtl, [c.regs[ClkoutCtl] | 0x20])]
  {
    var v := c.regs[ClkoutCtl];
    OtprBytes(v);
    var c1 := PutMasked(c, ClkoutCtl, !0x20, 0x00);
    assert c1.regs[ClkoutCtl] == v & !0x20;
  }

  /** The two values otp_refresh writes: OTPR cleared, then OTPR set, the other bits as they were. */
  lemma OtprBytes(v: bv8)
    ensures Masked(v, !0x20, 0x00) == v & !0x20
    ensures Masked(v & !0x20, !0x20, 0x20) == v | 0x20
  {
  }

  /** A PCF2131 driver over its register file; the transport (I2C or SPI) only forwards to it. */
  class Pcf2131 {
    const dev: RegisterFile

    ghost predicate Valid()
      reads this, dev
    {
      dev.Valid() && dev.count == RegCount
    }

    constructor (dev: RegisterFile)
      requires dev.Valid() && dev.count == RegCount
      ensures this.dev == dev && Valid()
    {
      this.dev := dev;
    }

    /** begin: clears pending interrupts. */
    method Begin()
      requires Valid()
      modifies dev
      ensures Valid() && dev.chip == IntClearOp(old(dev.chip))
    {
      var _ := IntClear();
    }

    /** oscillator_stop: the OSF flag, bit 7 of Seconds. */
    method OscillatorStop() returns (stopped: bool)
      requires Valid()
      ensures stopped <==> OscillatorStopped(dev.chip.regs[Seconds])
    {
      var v := dev.ReadReg(Seconds);
      stopped := OscillatorStopped(v);
    }

    /** rtc_time: eight bytes from _100th_Seconds, decoded field by field. */
    method RtcTime() returns (t: Tm)
      requires Valid()
      ensures t == TimeOf(dev.chip.regs)
    {
      var bf := new bv8[8];
      dev.ReadRegs(Hundredths, bf, 8);
      assert bf[..] == dev.chip.regs[Hundredths..Years + 1];
      t := Tm(Bcd2Dec(bf[1]), Bcd2Dec(bf[2]), Bcd2Dec(bf[3]), Bcd2Dec(bf[4]),
              Bcd2Dec(bf[6]) - 1, Bcd2Dec(bf[7]) + 100);
    }

    /** set: `wday` is the weekday that mktime/localtime derive from `t`. */
    method Set(t: Tm, wday: int)
      requires Valid()
      modifies dev
      ensures Valid() && dev.chip == SetOp(old(dev.chip), t, wday)
    {
      var bf := TimeBytes(t, wday);
      dev.BitOp8(Control1, !0x28, 0x20);
      dev.BitOp8(SrReset, !0x80, 0x80);
      dev.WriteRegs(Hundredths, bf);
      dev.BitOp8(Control1, !0x20, 0x00);
    }

    /** alarm(digit, val): alarm on interrupt output INT_A. */
    method Alarm(digit: AlarmSetting, val: int)
      requires Valid()
      modifies dev
      ensures Valid() && dev.chip == AlarmOp(old(dev.chip), digit, val, 0)
    {
      AlarmOn(digit, val, 0);
    }

    /** alarm(digit, val, int_sel). */
    method AlarmOn(digit: AlarmSetting, val: int, intSel: nat)
      requires Valid() && intSel < 2
      modifies dev
      ensures Valid() && dev.chip == AlarmOp(old(dev.chip), digit, val, intSel)
    {
      var v: bv8 := if val == 0x80 then 0x80 else Enc(val);
      dev.WriteReg(SecondAlarm + digit.Index(), v);
      dev.BitOp8(IntMaskReg(intSel, 0), !0x04, 0x00);
      dev.BitOp8(Control2, !0x02, 0x02);
    }

    method AlarmClear()
      requires Valid()
      modifies dev
      ensures Valid() && dev.chip == AlarmClearOp(old(dev.chip))
    {
      dev.BitOp8(Control2, !0x10, 0x00);
    }

    method AlarmDisable()
      requires Valid()
      modifies dev
      ensures Valid() && dev.chip == AlarmDisableOp(old(dev.chip))
    {
      dev.BitOp8(Control2, !0x02, 0x00);
    }

    /** timestamp(num, ts_setting, int_sel), num in 1..4. */
    method Timestamp(num: int, setting: TimestampSetting, intSel: nat)
      requires Valid() && 1 <= num <= 4 && intSel < 2
      modifies dev
      ensures Valid() && dev.chip == TimestampOp(old(dev.chip), num, setting, intSel)
    {
      var fst: bv8 := if setting == First then 0x80 else 0x00;
      var n := num - 1;
      var reg := TimestpCtl1 + n * 7;
      assert reg == TimestampControl(num) && fst == FirstBit(setting);
      dev.BitOp8(reg, !0x80, fst);
      dev.BitOp8(IntMaskReg(intSel, 1), !Bit(3 - n), 0x00);
      dev.BitOp8(Control5, !Bit(7 - n), Bit(7 - n));
    }

    /** timestamp(num): the seven registers of block `num`, decoded. */
    method TimestampRead(num: int) returns (t: Tm)
      requires Valid() && 1 <= num <= 4
      ensures t == TimestampOf(dev.chip.regs, num)
    {
      var n := num - 1;
      var reg := TimestpCtl1 + n * 7;
      var v := new bv8[7];
      dev.ReadRegs(reg, v, 7);
      assert reg == TimestampControl(num) && v[..7] == dev.chip.regs[reg..reg + 7];
      t := StampFields(v[..7]);
    }

    /** int_clear(): int_clear into a scratch buffer; the result is a constant 0. */
    method IntClear() returns (r: bv8)
      requires Valid()
      modifies dev
      ensures Valid() && dev.chip == IntClearOp(old(dev.chip))
      ensures r == 0
    {
      var dummy := new bv8[3];
      var _ := IntClearInto(dummy);
      r := 0;
    }

    /** int_clear(rv): `rv` receives Control_2..Control_4 as read; the result is a constant 0. */
    method IntClearInto(rv: array<bv8>) returns (r: bv8)
      requires Valid() && rv.Length >= 3
      modifies dev, rv
      ensures Valid() && dev.chip == IntClearOp(old(dev.chip))
      ensures rv[..3] == old(dev.chip.regs[Control2..Control5])
      ensures rv[3..] == old(rv[3..])
      ensures r == 0
    {
      dev.ReadRegs(Control2, rv, 3);
      WriteIfFlagged(rv[0] & 0x90 != 0, Control2, IntClearCtl2(rv[0]));
      WriteIfFlagged(rv[1] & 0x08 != 0, Control3, IntClearCtl3(rv[1]));
      WriteIfFlagged(rv[2] & 0xF0 != 0, Control4, IntClearCtl4(rv[2]));
      r := 0;
    }

    /** One arm of int_clear: the register is written back only when one of its flags is set. */
    method WriteIfFlagged(flagged: bool, reg: nat, v: bv8)
      requires Valid() && reg < RegCount
      modifies dev
      ensures Valid() && dev.chip == PutByteIf(old(dev.chip), flagged, reg, v)
    {
      if flagged {
        dev.WriteReg(reg, v);
      }
    }

    method PeriodicInterruptEnable(sel: PeriodicIntSelect, intSel: nat)
      requires Valid() && intSel < 2
      modifies dev
      ensures Valid() && dev.chip == PeriodicOp(old(dev.chip), sel, intSel)
    {
      if sel == Disable {
        dev.BitOp8(Control1, !0x03, 0x00);
        dev.BitOp8(IntMaskReg(intSel, 0), !0x30, 0x30);
        return;
      }
      var v: bv8 := if sel == EveryMinute then 0x02 else 0x01;
      v := 3;
      dev.BitOp8(Control1, !0x03, v);
      dev.BitOp8(IntMaskReg(intSel, 0), !0x30, !(v << 4));
    }

    method SetClockOut(freq: ClockOutFrequency)
      requires Valid()
      modifies dev
      ensures Valid() && dev.chip == ClockOutOp(old(dev.chip), freq)
    {
      dev.BitOp8(ClkoutCtl, !0x07, freq.Code());
    }

    method Reset()
      requires Valid()
      modifies dev
      ensures Valid() && dev.chip == ResetOp(old(dev.chip))
    {
      dev.WriteReg(SrReset, 0x2C);
    }

    method OtpRefresh()
      requires Valid()
      modifies dev
      ensures Valid() && dev.chip == OtpRefreshOp(old(dev.chip))
    {
      dev.BitOp8(ClkoutCtl, !0x20, 0x00);
      dev.BitOp8(ClkoutCtl, !0x20, 0x20);
    }
  }
}
