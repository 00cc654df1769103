// PCF85053A: the register map and driver operations of PCF85053A.cpp. The
// seconds, minutes and hours registers alternate with their alarm registers,
// so one block write from Seconds sets the time and clears the three alarms.

module PCF85053A {
  import opened Rtc
  import opened Registers

  // reg_num of PCF85053A, numbered consecutively from 0.
  const Seconds: nat := 0
  const SecondsAlarm: nat := 1
  const Minutes: nat := 2
  const MinutesAlarm: nat := 3
  const Hours: nat := 4
  const HoursAlarm: nat := 5
  const DayOfWeek: nat := 6
  const DayOfMonth: nat := 7
  const Month: nat := 8
  const Year: nat := 9
  const Control: nat := 10
  const Status: nat := 11
  const ClkoutControl: nat := 12
  const Control2: nat := 13
  const Scratchpad: nat := 14
  const Version: nat := 15
  const VendorId: nat := 16
  const Model: nat := 17
  const Offset: nat := 18
  const Oscillator: nat := 19
  const AccessConfig: nat := 20
  const SecTimestamp: nat := 21
  const YearTimestamp: nat := 27
  const RCode1: nat := 28
  const RCode2: nat := 29

  /** Number of registers (Seconds .. R_code2). */
  const RegCount: nat := 30

  /** A chip state whose register file has the PCF85053A map. */
  predicate Fits(c: Chip) { |c.regs| == RegCount }

  /** alarm_offsets: the alarm registers of SECOND, MINUTE and HOUR. */
  const AlarmOffsets: seq<nat> := [1, 3, 5]

  /**
   * `alarm_offsets[digit]`. The table has three entries, so only SECOND,
   * MINUTE and HOUR have an alarm register; DAY and WEEKDAY would index past
   * its end.
   */
  function AlarmRegister(digit: AlarmSetting): (reg: nat)
    requires digit.Index() < 3
    ensures digit == Second ==> reg == SecondsAlarm
    ensures digit == Minute ==> reg == MinutesAlarm
    ensures digit == Hour ==> reg == HoursAlarm
    ensures reg == 2 * digit.Index() + 1
  {
    AlarmOffsets[digit.Index()]
  }

  /**
   * The ten bytes `set` writes from Seconds: each of seconds, minutes and
   * hours followed by 0xFF for its alarm register, then weekday, day of
   * month, month + 1 and year - 100.
   */
  function TimeBytes(t: Tm, wday: int): (bf: seq<bv8>)
    ensures |bf| == 10
  {
    [Enc(t.sec), 0xFF, Enc(t.min), 0xFF, Enc(t.hour), 0xFF, Enc(wday), Enc(t.mday), Enc(t.mon + 1), Enc(t.year - 100)]
  }

  /** The calendar time the ten bytes from Seconds decode to; alarm and weekday bytes are skipped. */
  function TimeFields(bf: seq<bv8>): Tm
    requires |bf| == 10
  {
    Tm(Bcd2Dec(bf[0]), Bcd2Dec(bf[2]), Bcd2Dec(bf[4]), Bcd2Dec(bf[7]), Bcd2Dec(bf[8]) - 1, Bcd2Dec(bf[9]) + 100)
  }

  /** The calendar time `rtc_time` decodes from the time registers (before mktime). */
  function TimeOf(regs: seq<bv8>): Tm
    requires |regs| == RegCount
  {
    TimeFields(regs[Seconds..Year + 1])
  }

  /** Decoding the bytes `set` writes gives back every field of an encodable time. */
  lemma {:induction false} TimeBytesDecode(t: Tm, wday: int)
    requires Encodable(t)
    ensures TimeFields(TimeBytes(t, wday)) == t
  {
    var bf := TimeBytes(t, wday);
    assert TimeFields(bf) == Decoded(t);
    DecodedEncodable(t);
  }

  /** set: one ten-byte block from Seconds. */
  function SetOp(c: Chip, t: Tm, wday: int): (r: Chip)
    requires Fits(c)
    ensures Fits(r)
  {
    PutBlock(c, Seconds, TimeBytes(t, wday))
  }

  /**
   * After set, the ten registers from Seconds hold the time bytes, so the
   * three alarm registers read 0xFF, and no other register changed.
   */
  lemma {:induction false} SetRegisters(c: Chip, t: Tm, wday: int)
    requires Fits(c)
    ensures var r := SetOp(c, t, wday);
      r.regs[Seconds..Year + 1] == TimeBytes(t, wday) &&
      r.regs[SecondsAlarm] == 0xFF && r.regs[MinutesAlarm] == 0xFF && r.regs[HoursAlarm] == 0xFF &&
      SameExcept(c.regs, r.regs, Span(Seconds, 10))
  {
    var r := SetOp(c, t, wday);
    assert r.regs[Seconds..Year + 1] == TimeBytes(t, wday);
    assert r.regs[SecondsAlarm] == r.regs[Seconds..Year + 1][1];
    assert r.regs[MinutesAlarm] == r.regs[Seconds..Year + 1][3];
    assert r.regs[HoursAlarm] == r.regs[Seconds..Year + 1][5];
  }

  /** Reading the time back after `set` gives the fields that were set. */
  lemma {:induction false} SetThenRead(c: Chip, t: Tm, wday: int)
    requires Fits(c) && Encodable(t)
    ensures TimeOf(SetOp(c, t, wday).regs) == t
  {
    SetRegisters(c, t, wday);
    TimeBytesDecode(t, wday);
  }

  /** alarm: the field's alarm register receives dec2bcd(val), then the alarm interrupt enable (Control bit 3) is set. */
  function AlarmOp(c: Chip, digit: AlarmSetting, val: int): (r: Chip)
    requires Fits(c) && digit.Index() < 3
    ensures Fits(r)
  {
    PutMasked(PutByte(c, AlarmRegister(digit), Enc(val)), Control, !0x08, 0x08)
  }

  /**
   * After alarm, the alarm register holds dec2bcd(val), Control bit 3 is
   * set, and no other register or bit changed. There is no sentinel: 0x80
   * is encoded like any other value.
   */
  lemma {:induction false} AlarmRegisters(c: Chip, digit: AlarmSetting, val: int)
    requires Fits(c) && digit.Index() < 3
    ensures var r := AlarmOp(c, digit, val);
      r.regs[AlarmRegister(digit)] == Enc(val) &&
      Raised(c.regs[Control], r.regs[Control], 0x08) &&
      SameExcept(c.regs, r.regs, {AlarmRegister(digit), Control})
  {
    MaskedRaise(c.regs[Control], 0x08);
  }

  /** alarm_clear: 0xFF goes to the seconds, minutes and hours alarm registers, in that order. */
  function AlarmClearOp(c: Chip): (r: Chip)
    requires Fits(c)
    ensures Fits(r)
  {
    PutByte(PutByte(PutByte(c, AlarmOffsets[0], 0xFF), AlarmOffsets[1], 0xFF), AlarmOffsets[2], 0xFF)
  }

  /** After alarm_clear, exactly registers 1, 3 and 5 read 0xFF, and they were written in that order. */
  lemma {:induction false} AlarmClearRegisters(c: Chip)
    requires Fits(c)
    ensures var r := AlarmClearOp(c);
      r.regs[SecondsAlarm] == 0xFF && r.regs[MinutesAlarm] == 0xFF && r.regs[HoursAlarm] == 0xFF &&
      SameExcept(c.regs, r.regs, {SecondsAlarm, MinutesAlarm, HoursAlarm}) &&
      r.writes == c.writes + [Write(SecondsAlarm, [0xFF]), Write(MinutesAlarm, [0xFF]), Write(HoursAlarm, [0xFF])]
  {
    assert AlarmOffsets[0] == SecondsAlarm && AlarmOffsets[1] == MinutesAlarm && AlarmOffsets[2] == HoursAlarm;
  }

  /** set and alarm_clear leave the three alarm registers alike. */
  lemma {:induction false} SetClearsAlarms(c: Chip, t: Tm, wday: int)
    requires Fits(c)
    ensures var s, a := SetOp(c, t, wday), AlarmClearOp(c);
      s.regs[SecondsAlarm] == a.regs[SecondsAlarm] &&
      s.regs[MinutesAlarm] == a.regs[MinutesAlarm] &&
      s.regs[HoursAlarm] == a.regs[HoursAlarm]
  {
    SetRegisters(c, t, wday);
    AlarmClearRegisters(c);
  }

  /** alarm_disable: only the alarm interrupt enable, Control bit 3, changes, to 0. */
  function AlarmDisableOp(c: Chip): (r: Chip)
    requires Fits(c)
    ensures Fits(r)
    ensures Cleared(c.regs[Control], r.regs[Control], 0x08)
    ensures SameExcept(c.regs, r.regs, {Control})
  {
    PutMasked(c, Control, !0x08, 0x00)
  }

  /** int_clear: Status is written with the complement of its flag bits (4-7) as read. */
  function IntClearOp(c: Chip): (r: Chip)
    requires Fits(c)
    ensures Fits(r)
    ensures SameExcept(c.regs, r.regs, {Status})
  {
    var status := c.regs[Status];
    PutByte(c, Status, !(status & 0xF0))
  }

  /**
   * The byte int_clear writes has a 0 at every flag that was set (a flag is
   * cleared by writing 0) and a 1 everywhere else, so flags that were clear
   * and the low nibble are written with 1.
   */
  lemma {:induction false} IntClearRegisters(c: Chip)
    requires Fits(c)
    ensures var r := IntClearOp(c);
      var s := c.regs[Status];
      r.regs[Status] & s & 0xF0 == 0 &&
      r.regs[Status] | (s & 0xF0) == 0xFF &&
      r.writes == c.writes + [Write(Status, [r.regs[Status]])]
  {
    var s := c.regs[Status];
    assert IntClearOp(c).regs[Status] == !(s & 0xF0);
  }

  /**
   * On the chip, where writing 0 clears a flag and writing 1 keeps it, the
   * byte int_clear writes clears every pending flag of bits 4-7: a second
   * int_clear returns no pending flag and leaves none.
   */
  lemma {:induction false} IntClearOnStatusRegister(c: Chip)
    requires Fits(c)
    ensures var held := FlagWrite(c.regs[Status], IntClearOp(c).regs[Status]);
      held & 0xF0 == 0 && FlagWrite(held, !(held & 0xF0)) & 0xF0 == 0
  {
    var s := c.regs[Status];
    assert IntClearOp(c).regs[Status] == !(s & 0xF0);
  }

  /** A PCF85053A driver over its register file. */
  class Pcf85053a {
    const dev: RegisterFile

    ghost predicate Valid()
      reads this, dev
    {
      dev.Valid() && dev.count == RegCount
    }

    constructor (dev: RegisterFile)
      requires dev.Valid() && dev.count == RegCount
      ensures this.dev == dev && Valid()
    {
      this.dev := dev;
    }

    /** begin: nothing to do. */
    method Begin()
      requires Valid()
      ensures dev.chip == old(dev.chip)
    {
    }

    /** set: `wday` is the weekday that mktime/localtime derive from `t`. */
    method Set(t: Tm, wday: int)
      requires Valid()
      modifies dev
      ensures Valid() && dev.chip == SetOp(old(dev.chip), t, wday)
    {
      var bf := TimeBytes(t, wday);
      dev.WriteRegs(Seconds, bf);
    }

    /**
     * oscillator_stop: the OSF flag, Status bit 6. The driver returns before
     * its bit_op8 on Status, so no register is written.
     */
    method OscillatorStop() returns (stopped: bool)
      requires Valid()
      ensures stopped <==> dev.chip.regs[Status] & 0x40 != 0
    {
      var v := dev.ReadReg(Status);
      stopped := v & 0x40 != 0;
    }

    /** alarm(digit, val), for SECOND, MINUTE and HOUR. */
    method Alarm(digit: AlarmSetting, val: int)
      requires Valid() && digit.Index() < 3
      modifies dev
      ensures Valid() && dev.chip == AlarmOp(old(dev.chip), digit, val)
    {
      dev.WriteReg(AlarmOffsets[digit.Index()], Enc(val));
      dev.BitOp8(Control, !0x08, 0x08);
    }

    method AlarmClear()
      requires Valid()
      modifies dev
      ensures Valid() && dev.chip == AlarmClearOp(old(dev.chip))
    {
      dev.WriteReg(AlarmOffsets[0], 0xFF);
      dev.WriteReg(AlarmOffsets[1], 0xFF);
      dev.WriteReg(AlarmOffsets[2], 0xFF);
    }

    method AlarmDisable()
      requires Valid()
      modifies dev
      ensures Valid() && dev.chip == AlarmDisableOp(old(dev.chip))
    {
      dev.BitOp8(Control, !0x08, 0x00);
    }

    /** int_clear: returns Status as read. */
    method IntClear() returns (status: bv8)
      requires Valid()
      modifies dev
      ensures Valid() && dev.chip == IntClearOp(old(dev.chip))
      ensures status == old(dev.chip.regs[Status])
    {
      status := dev.ReadReg(Status);
      dev.WriteReg(Status, !(status & 0xF0));
    }

    /** rtc_time: ten bytes from Seconds, decoded field by field. */
    method RtcTime() returns (t: Tm)
      requires Valid()
      ensures t == TimeOf(dev.chip.regs)
    {
      var bf := new bv8[10];
      dev.ReadRegs(Seconds, bf, 10);
      assert bf[..] == dev.chip.regs[Seconds..Year + 1];
      t := TimeFields(bf[..]);
    }
  }
}
