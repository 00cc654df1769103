// PCF85063A: the register map of PCF85063_base and its driver operations
// (PCF85063A.cpp). As for the other chips, each operation is a method on the
// register file whose effect is a pure function ending in `Op`; the lemmas
// beside each function say which registers and bits the operation touches.

module PCF85063A {
  import opened Rtc
  import opened Registers

  // reg_num of PCF85063_base, numbered consecutively from 0.
  const Control1: nat := 0
  const Control2: nat := 1
  const Offset: nat := 2
  const RamByte: nat := 3
  const Seconds: nat := 4
  const Minutes: nat := 5
  const Hours: nat := 6
  const Days: nat := 7
  const Weekdays: nat := 8
  const Months: nat := 9
  const Years: nat := 10
  const SecondAlarm: nat := 11
  const MinuteAlarm: nat := 12
  const HourAlarm: nat := 13
  const DayAlarm: nat := 14
  const WeekdayAlarm: nat := 15
  const TimerValue: nat := 16
  const TimerMode: nat := 17

  /** Number of registers (Control_1 .. Timer_mode). */
  const RegCount: nat := 18

  /** A chip state whose register file has the PCF85063 map. */
  predicate Fits(c: Chip) { |c.regs| == RegCount }

  /** `Second_alarm + digit`: the alarm register of the field `digit` names. */
  function AlarmRegister(digit: AlarmSetting): (reg: nat)
    ensures reg == match digit
      case Second => SecondAlarm
      case Minute => MinuteAlarm
      case Hour => HourAlarm
      case Day => DayAlarm
      case Weekday => WeekdayAlarm
  {
    SecondAlarm + digit.Index()
  }

  /** The seven bytes `set` writes from Seconds: sec, min, hour, mday, weekday, month + 1, year - 100. */
  function TimeBytes(t: Tm, wday: int): (bf: seq<bv8>)
    ensures |bf| == 7
  {
    [Enc(t.sec), Enc(t.min), Enc(t.hour), Enc(t.mday), Enc(wday), Enc(t.mon + 1), Enc(t.year - 100)]
  }

  /** The calendar time the seven bytes from Seconds decode to; the weekday byte is skipped. */
  function TimeFields(bf: seq<bv8>): Tm
    requires |bf| == 7
  {
    Tm(Bcd2Dec(bf[0]), Bcd2Dec(bf[1]), Bcd2Dec(bf[2]), Bcd2Dec(bf[3]), Bcd2Dec(bf[5]) - 1, Bcd2Dec(bf[6]) + 100)
  }

  /** The calendar time `rtc_time` decodes from the time registers (before mktime). */
  function TimeOf(regs: seq<bv8>): Tm
    requires |regs| == RegCount
  {
    TimeFields(regs[Seconds..Years + 1])
  }

  /** Decoding the bytes `set` writes gives back every field of an encodable time. */
  lemma {:induction false} TimeBytesDecode(t: Tm, wday: int)
    requires Encodable(t)
    ensures TimeFields(TimeBytes(t, wday)) == t
  {
    var bf := TimeBytes(t, wday);
    assert TimeFields(bf) == Decoded(t);
    DecodedEncodable(t);
  }

  /** The registers `set` writes: Control_1 and the seven time registers. */
  const SetTouched: set<nat> := {Control1} + Span(Seconds, 7)

  /** set: STOP (Control_1 bit 5) is raised, the time block is written, STOP is dropped. */
  function SetOp(c: Chip, t: Tm, wday: int): (r: Chip)
    requires Fits(c)
    ensures Fits(r)
  {
    var c1 := PutMasked(c, Control1, !0x20, 0x20);
    var c2 := PutBlock(c1, Seconds, TimeBytes(t, wday));
    PutMasked(c2, Control1, !0x20, 0x00)
  }

  /** The two values set writes to Control_1: STOP raised, then STOP dropped, every other bit as it was. */
  lemma StopBytes(v: bv8)
    ensures Masked(v, !0x20, 0x20) == v | 0x20
    ensures Masked(v | 0x20, !0x20, 0x00) == v & !0x20
    ensures Cleared(v, v & !0x20, 0x20)
  {
  }

  /**
   * After set, Control_1 has STOP clear and every other bit as it was, the
   * time registers hold the seven time bytes, and no other register changed.
   */
  lemma {:induction false} SetRegisters(c: Chip, t: Tm, wday: int)
    requires Fits(c)
    ensures var r := SetOp(c, t, wday);
      Cleared(c.regs[Control1], r.regs[Control1], 0x20) &&
      r.regs[Seconds..Years + 1] == TimeBytes(t, wday) &&
      SameExcept(c.regs, r.regs, SetTouched)
  {
    var bf := TimeBytes(t, wday);
    var c1 := PutMasked(c, Control1, !0x20, 0x20);
    var c2 := PutBlock(c1, Seconds, bf);
    var r := PutMasked(c2, Control1, !0x20, 0x00);
    assert r == SetOp(c, t, wday);
    StopBytes(c.regs[Control1]);
    assert c2.regs[Control1] == c1.regs[Control1];
    assert c2.regs[Seconds..Years + 1] == bf;
    assert r.regs[Seconds..Years + 1] == c2.regs[Seconds..Years + 1];
    forall k | 0 <= k < RegCount && k !in SetTouched
      ensures r.regs[k] == c.regs[k]
    {
      assert k !in Span(Seconds, 7);
    }
  }

  /**
   * The order of set's writes: Control_1 with STOP raised, the time block,
   * then Control_1 with STOP dropped; the other Control_1 bits are written
   * back as they were each time.
   */
  lemma {:induction false} SetWriteOrder(c: Chip, t: Tm, wday: int)
    requires Fits(c)
    ensures SetOp(c, t, wday).writes == c.writes + [
      Write(Control1, [c.regs[Control1] | 0x20]),
      Write(Seconds, TimeBytes(t, wday)),
      Write(Control1, [c.regs[Control1] & !0x20])]
  {
    var v := c.regs[Control1];
    StopBytes(v);
    var c1 := PutMasked(c, Control1, !0x20, 0x20);
    var c2 := PutBlock(c1, Seconds, TimeBytes(t, wday));
    assert c2.regs[Control1] == v | 0x20;
  }

  /** Reading the time back after `set` gives the fields that were set. */
  lemma {:induction false} SetThenRead(c: Chip, t: Tm, wday: int)
    requires Fits(c) && Encodable(t)
    ensures TimeOf(SetOp(c, t, wday).regs) == t
  {
    SetRegisters(c, t, wday);
    TimeBytesDecode(t, wday);
  }

  /** alarm: the alarm register of `digit` receives the alarm code, then the alarm interrupt enable (Control_2 bit 7) is set. */
  function AlarmOp(c: Chip, digit: AlarmSetting, val: int): (r: Chip)
    requires Fits(c)
    ensures Fits(r)
  {
    PutMasked(PutByte(c, AlarmRegister(digit), AlarmCode(val)), Control2, !0x80, 0x80)
  }

  /** After alarm, the alarm register holds the alarm code, AIE is set, and no other register or bit changed. */
  lemma {:induction false} AlarmRegisters(c: Chip, digit: AlarmSetting, val: int)
    requires Fits(c)
    ensures var r := AlarmOp(c, digit, val);
      r.regs[AlarmRegister(digit)] == AlarmCode(val) &&
      Raised(c.regs[Control2], r.regs[Control2], 0x80) &&
      SameExcept(c.regs, r.regs, {AlarmRegister(digit), Control2})
  {
    MaskedRaise(c.regs[Control2], 0x80);
  }

  /** alarm_disable: only AIE, Control_2 bit 7, changes, to 0. */
  function AlarmDisableOp(c: Chip): (r: Chip)
    requires Fits(c)
    ensures Fits(r)
    ensures Cleared(c.regs[Control2], r.regs[Control2], 0x80)
    ensures SameExcept(c.regs, r.regs, {Control2})
  {
    PutMasked(c, Control2, !0x80, 0x00)
  }

  /** Disabling undoes the enable: after alarm then alarm_disable, Control_2 is as it was with AIE clear. */
  lemma {:induction false} AlarmThenDisable(c: Chip, digit: AlarmSetting, val: int)
    requires Fits(c)
    ensures var r := AlarmDisableOp(AlarmOp(c, digit, val));
      r.regs[Control2] == c.regs[Control2] & !0x80 &&
      r.regs[AlarmRegister(digit)] == AlarmCode(val)
  {
    var c1 := AlarmOp(c, digit, val);
    AlarmRegisters(c, digit, val);
    assert c1.regs[Control2] & !0x80 == c.regs[Control2] & !0x80;
  }

  /** int_clear: Control_2 is written back with the alarm and timer flags (bits 6 and 3) cleared. */
  function IntClearOp(c: Chip): (r: Chip)
    requires Fits(c)
    ensures Fits(r)
    ensures Cleared(c.regs[Control2], r.regs[Control2], 0x48)
    ensures r.writes == c.writes + [Write(Control2, [r.regs[Control2]])]
    ensures SameExcept(c.regs, r.regs, {Control2})
  {
    var v := c.regs[Control2];
    PutByte(c, Control2, v & !0x48)
  }

  /**
   * int_clear returns the Control_2 value it read, so a second call returns a
   * value with both flags clear, and leaves the registers where the first
   * call left them.
   */
  lemma {:induction false} IntClearTwice(c: Chip)
    requires Fits(c)
    ensures IntClearOp(c).regs[Control2] & 0x48 == 0
    ensures IntClearOp(IntClearOp(c)).regs == IntClearOp(c).regs
  {
    var r := IntClearOp(c);
    assert r.regs[Control2] & !0x48 == r.regs[Control2];
  }

  /** A PCF85063A driver over its register file. */
  class Pcf85063a {
    const dev: RegisterFile

    ghost predicate Valid()
      reads this, dev
    {
      dev.Valid() && dev.count == RegCount
    }

    constructor (dev: RegisterFile)
      requires dev.Valid() && dev.count == RegCount
      ensures this.dev == dev && Valid()
    {
      this.dev := dev;
    }

    /** begin: nothing to do. */
    method Begin()
      requires Valid()
      ensures dev.chip == old(dev.chip)
    {
    }

    /** set: `wday` is the weekday that mktime/localtime derive from `t`. */
    method Set(t: Tm, wday: int)
      requires Valid()
      modifies dev
      ensures Valid() && dev.chip == SetOp(old(dev.chip), t, wday)
    {
      var bf := TimeBytes(t, wday);
      dev.BitOp8(Control1, !0x20, 0x20);
      dev.WriteRegs(Seconds, bf);
      dev.BitOp8(Control1, !0x20, 0x00);
    }

    /** oscillator_stop: the OS flag, bit 7 of Seconds. */
    method OscillatorStop() returns (stopped: bool)
      requires Valid()
      ensures stopped <==> OscillatorStopped(dev.chip.regs[Seconds])
    {
      var v := dev.ReadReg(Seconds);
      stopped := OscillatorStopped(v);
    }

    method Alarm(digit: AlarmSetting, val: int)
      requires Valid()
      modifies dev
      ensures Valid() && dev.chip == AlarmOp(old(dev.chip), digit, val)
    {
      var v: bv8 := if val == 0x80 then 0x80 else Enc(val);
      dev.WriteReg(SecondAlarm + digit.Index(), v);
      dev.BitOp8(Control2, !0x80, 0x80);
    }

    /** alarm_clear: not implemented by the driver; no register is accessed. */
    method AlarmClear()
      requires Valid()
      ensures dev.chip == old(dev.chip)
    {
    }

    method AlarmDisable()
      requires Valid()
      modifies dev
      ensures Valid() && dev.chip == AlarmDisableOp(old(dev.chip))
    {
      dev.BitOp8(Control2, !0x80, 0x00);
    }

    /** int_clear: returns Control_2 as it was before the flags were cleared. */
    method IntClear() returns (v: bv8)
      requires Valid()
      modifies dev
      ensures Valid() && dev.chip == IntClearOp(old(dev.chip))
      ensures v == old(dev.chip.regs[Control2])
    {
      v := dev.ReadReg(Control2);
      dev.WriteReg(Control2, v & !0x48);
    }

    /** rtc_time: seven bytes from Seconds, decoded field by field. */
    method RtcTime() returns (t: Tm)
      requires Valid()
      ensures t == TimeOf(dev.chip.regs)
    {
      var bf := new bv8[7];
      dev.ReadRegs(Seconds, bf, 7);
      assert bf[..] == dev.chip.regs[Seconds..Years + 1];
      t := TimeFields(bf[..]);
    }
  }
}
