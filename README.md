# RTC_NXP drivers in Dafny

This project models the drivers of the RTC_NXP Arduino library for NXP real-time
clocks: PCF2131 (over I2C or SPI), PCF85063A, PCF85263A and PCF85053A, and the SPI
framing class the PCF2131 uses on SPI. A driver works through a few register
accessors: single-byte and block writes, single-byte and block reads, and the
masked read-modify-write `bit_op8`. Every public operation is a fixed sequence of
those accesses. It packs calendar fields into BCD, sets and clears control bits
and writes interrupt masks.

The model is layered like the library:

- `rtc_nxp.dfy` (module `Rtc`): the BCD codec `dec2bcd`/`bcd2dec` of the
  `RTC_NXP` base class, C's conversion of an `int` to `uint8_t`, the calendar
  record (`struct tm` restricted to the fields the drivers use) and the shared
  enumerations `alarm_setting` and `periodic_int_select`.
- `registers.dfy` (module `Registers`): the chip as a byte-addressed register
  file together with the log of write transactions issued so far. Pure
  functions (`PutByte`, `PutBlock`, `PutMasked`) give the chip after one access.
  The class `RegisterFile` holds the chip state and is the accessor proxy every
  driver calls. Block transfers wrap from the last register back to register 0,
  as the chips' address pointers do; PCF85263A's `set` depends on this.
- `pcf2131.dfy`, `pcf85063a.dfy`, `pcf85263a.dfy`, `pcf85053a.dfy`: one module
  per chip, each with:
  - its register map;
  - a pure function `XxxOp` per operation, giving the chip after the operation;
  - lemmas stating which registers and bits each operation changes, what it
    writes, in which order, and what reading back returns;
  - a class whose methods perform the accesses step by step on a
    `RegisterFile`, each proved equal to its `XxxOp`.
- `spi_for_rtc.dfy` (module `SpiForRtc`): the frames `SPI_for_RTC` puts on the
  bus for register and 16/24-bit accesses, and the sign extension of `read_r24`.
  The device's answer to a frame is an abstract function.

The calendar conversions `mktime`/`localtime` are outside the model, so the
weekday that `set` derives from them is an extra argument `wday` of every `set`.
The read operations return the decoded calendar record, not a `time_t`.

Behaviour of the code that may not be what its authors intended is modelled as
written:

- PCF85263A `set` overwrites the hour byte with the weekday, so the hour reads
  back as the weekday (`PCF85263A.SetThenRead`).
- PCF85263A `set_alarm` tests `val & 80` with decimal 80 (bits 4 and 6), not
  0x80 (`PCF85263A.AlarmEnableExamples`).
- PCF2131 `periodic_interrupt_enable` overrides its computed selection with
  `v = 3`, so both periodic interrupts are enabled for any selection other than
  DISABLE (`PCF2131.PeriodicRegisters`).
- PCF85053A's `alarm_offsets` has three entries, so only SECOND, MINUTE and HOUR
  may be passed to `alarm` (`PCF85053A.AlarmRegister`).

## Model

| member | source | states |
|---|---|---|
| Rtc.U8Value | src/RTC_NXP.h:111 | an `int` passed to `dec2bcd(uint8_t)` keeps its value modulo 256 |
| Rtc.Dec2BcdDigits | src/RTC_NXP.h:106-111 | on 0..99, dec2bcd puts the tens digit in the high nibble and the units digit in the low nibble, and the result is valid BCD |
| Rtc.DecodeEncode | src/RTC_NXP.h:99-111 | bcd2dec undoes dec2bcd on 0..99 |
| Rtc.EncodeDecode | src/RTC_NXP.h:99-111 | dec2bcd undoes bcd2dec on every valid BCD byte, and the decoded value is at most 99 |
| Rtc.DecodedEncodable | src/PCF85063A.cpp:22-27 | storing every field biased as the chips do (month + 1, year - 100) and decoding it gives the original time back |
| Rtc.AlarmSetting.Index | src/RTC_NXP.h:35-41 | the enumerator values SECOND..WEEKDAY are 0..4 |
| Rtc.PeriodicIntSelect.Code | src/RTC_NXP.h:142-146 | the selection codes are 0..2, and 0 exactly for DISABLE |
| Rtc.AlarmCodeValue | src/PCF2131_base.cpp:75 | the alarm value 0x80 (alarm off) is stored as 0x80; 0..99 is stored in BCD and decodes back |
| Registers.Masked | src/RTC_NXP.h:474-482 | bit_op8: every bit outside the mask takes the value's bit |
| Registers.FlagWrite | src/PCF85263A.cpp:94-100 | a write to a flag register of the chip never raises a flag, clears every flag written 0 and keeps every flag written 1 |
| Registers.MaskedClear | src/RTC_NXP.h:474-482 | mask `~bits` with value 0 clears exactly `bits` |
| Registers.MaskedRaise | src/RTC_NXP.h:474-482 | mask `~bits` with value `bits` sets exactly `bits` |
| Registers.MaskedField | src/RTC_NXP.h:474-482 | mask `~field` with a value inside the field stores the value in the field and keeps the other bits |
| Registers.MaskedTwice | src/RTC_NXP.h:474-482 | repeating the same masked update changes nothing further |
| Registers.StoredAt | src/RTC_NXP.h:264 | byte `j` of a block write lands in register `addr + j`, or in `addr + j - count` after the pointer wraps |
| Registers.FetchStored | src/RTC_NXP.h:264-267 | a block read of the same registers returns what a block write stored |
| Registers.PutBlock | src/RTC_NXP.h:264 | a block write stores its data, logs one transaction and changes only the registers it covers, wrapping included |
| Registers.PutByte | src/RTC_NXP.h:270 | a single-byte write changes one register and logs one transaction |
| Registers.ByteIsBlock | src/RTC_NXP.h:264-270 | a single-byte write equals a one-byte block write |
| Registers.PutByteIf | src/PCF2131_base.cpp:143-150 | a write guarded by a flag condition happens, and is logged, only when the condition holds |
| Registers.PutMasked | src/RTC_NXP.h:276 | bit_op8 changes one register to the masked value and logs that write |
| Registers.RegisterFile.ReadReg | src/RTC_NXP.h:273 | a single read returns the register |
| Registers.RegisterFile.ReadRegs | src/RTC_NXP.h:267 | a block read fills the first `n` bytes of the buffer with the wrapped register range and leaves the rest |
| Registers.RegisterFile.WriteReg | src/RTC_NXP.h:270 | the chip after a single write is PutByte of the chip before |
| Registers.RegisterFile.WriteRegs | src/RTC_NXP.h:264 | the chip after a block write is PutBlock of the chip before |
| Registers.RegisterFile.BitOp8 | src/RTC_NXP.h:276 | read, mask and write back: the chip after is PutMasked of the chip before |
| PCF2131.ClockOutFrequency.Code | src/RTC_NXP.h:153-163 | the eight CLKOUT frequencies are the codes 0..7 |
| PCF2131.IntMaskReg | src/RTC_NXP.h:279-282 | row 0 holds INT_A_MASK1/2, row 1 INT_B_MASK1/2 |
| PCF2131.AlarmRegister | src/PCF2131_base.cpp:76 | `Second_alarm + digit` is the alarm register of each field |
| PCF2131.TimestampControl | src/PCF2131_base.cpp:93-98 | `Timestp_ctl1 + (num - 1) * 7` is the control register of block `num`, followed by its seconds..years registers |
| PCF2131.TimeBytesDecode | src/PCF2131_base.cpp:46-58 | the eight bytes set writes decode back to the time given |
| PCF2131.SetBytes | src/PCF2131_base.cpp:60-65 | the two Control_1 updates clear bits 3 and 5 together; SR_Reset bit 7 is set |
| PCF2131.SetRegisters | src/PCF2131_base.cpp:41-66 | after set: Control_1 bits 3 and 5 clear, SR_Reset bit 7 set, the time registers hold the encoded time, nothing else changed |
| PCF2131.SetWriteOrder | src/PCF2131_base.cpp:60-65 | set writes STOP on, then SR_Reset, then the time block, then STOP off, in that order |
| PCF2131.SetThenRead | src/PCF2131_base.cpp:22-66 | rtc_time after set returns the time that was set |
| PCF2131.AlarmRegisters | src/PCF2131_base.cpp:73-79 | alarm stores the alarm code, unmasks the alarm in MASK1 of the chosen output and enables it in Control_2, nothing else |
| PCF2131.AlarmClearOp | src/PCF2131_base.cpp:81-84 | alarm_clear clears the alarm flag (Control_2 bit 4) only |
| PCF2131.AlarmDisableOp | src/PCF2131_base.cpp:86-89 | alarm_disable clears the alarm enable (Control_2 bit 1) only |
| PCF2131.TimestampBytes | src/PCF2131_base.cpp:100-103 | the three masked updates of timestamp set the first/last flag, clear one mask bit and set one enable bit |
| PCF2131.TimestampRegisters | src/PCF2131_base.cpp:91-104 | block `num` keeps the first event exactly when FIRST is chosen; its MASK2 bit is cleared and its Control_5 enable bit set; nothing else changes |
| PCF2131.IntClearOp | src/PCF2131_base.cpp:139-153 | int_clear changes only Control_2..4, each per its flag condition |
| PCF2131.IntClearBytes | src/PCF2131_base.cpp:143-150 | a flagged Control_2 keeps only bits 1, 2 and 5, and its flags read 0 afterwards; the Control_3 and Control_4 flags are cleared and their other bits kept |
| PCF2131.IntClearRegisters | src/PCF2131_base.cpp:139-153 | after int_clear no interrupt flag of Control_2..4 is set and every other bit and register is as before |
| PCF2131.IntClearWrites | src/PCF2131_base.cpp:143-150 | a control register is written exactly when one of its flags was set, in Control_2, 3, 4 order |
| PCF2131.IntClearSettles | src/PCF2131_base.cpp:139-153 | a second int_clear changes nothing and writes nothing |
| PCF2131.PeriodicRegisters | src/PCF2131_base.cpp:155-168 | DISABLE clears both periodic enables and masks both interrupts; any other selection sets both enables (the `v = 3` override) and leaves MASK1 at 0xCF |
| PCF2131.ClockOutOp | src/PCF2131_base.cpp:170-173 | the CLKOUT frequency field holds the chosen code; other bits and registers kept |
| PCF2131.ResetOp | src/PCF2131_base.cpp:175-178 | reset writes 0x2C to SR_Reset and nothing else |
| PCF2131.OtpRefreshOp | src/PCF2131_base.cpp:180-184 | after otp_refresh, OTPR (CLKOUT_ctl bit 5) is set and nothing else changed |
| PCF2131.OtpRefreshPulse | src/PCF2131_base.cpp:180-184 | otp_refresh writes OTPR low, then high |
| PCF2131.OtprBytes | src/PCF2131_base.cpp:182-183 | the two masked writes are `v & ~0x20` then `v \| 0x20` |
| PCF2131.Pcf2131.Begin | src/PCF2131_base.cpp:11-14 | begin is int_clear |
| PCF2131.Pcf2131.OscillatorStop | src/PCF2131_base.cpp:17-20 | true exactly when Seconds bit 7, the oscillator-stop flag, is set |
| PCF2131.Pcf2131.RtcTime | src/PCF2131_base.cpp:22-39 | returns the time decoded from _100th_Seconds..Years |
| PCF2131.Pcf2131.Set | src/PCF2131_base.cpp:41-66 | the chip after set is SetOp |
| PCF2131.Pcf2131.Alarm | src/PCF2131_base.cpp:68-71 | alarm without an output selects INT_A |
| PCF2131.Pcf2131.AlarmOn | src/PCF2131_base.cpp:73-79 | the chip after alarm is AlarmOp |
| PCF2131.Pcf2131.AlarmClear | src/PCF2131_base.cpp:81-84 | the chip after alarm_clear is AlarmClearOp |
| PCF2131.Pcf2131.AlarmDisable | src/PCF2131_base.cpp:86-89 | the chip after alarm_disable is AlarmDisableOp |
| PCF2131.Pcf2131.Timestamp | src/PCF2131_base.cpp:91-104 | the chip after timestamp setup is TimestampOp |
| PCF2131.Pcf2131.TimestampRead | src/PCF2131_base.cpp:106-129 | returns the time decoded from timestamp block `num` |
| PCF2131.Pcf2131.IntClear | src/PCF2131_base.cpp:131-137 | int_clear through a scratch buffer; returns 0 |
| PCF2131.Pcf2131.IntClearInto | src/PCF2131_base.cpp:139-153 | the buffer receives Control_2..4 as read, the chip after is IntClearOp, returns 0 |
| PCF2131.Pcf2131.WriteIfFlagged | src/PCF2131_base.cpp:143-150 | the guarded single write of int_clear |
| PCF2131.Pcf2131.PeriodicInterruptEnable | src/PCF2131_base.cpp:155-168 | the chip after periodic_interrupt_enable is PeriodicOp |
| PCF2131.Pcf2131.SetClockOut | src/PCF2131_base.cpp:170-173 | the chip after set_clock_out is ClockOutOp |
| PCF2131.Pcf2131.Reset | src/PCF2131_base.cpp:175-178 | the chip after reset is ResetOp |
| PCF2131.Pcf2131.OtpRefresh | src/PCF2131_base.cpp:180-184 | the chip after otp_refresh is OtpRefreshOp |
| PCF85063A.AlarmRegister | src/PCF85063A.cpp:46 | `Second_alarm + digit` is the alarm register of each field |
| PCF85063A.TimeBytesDecode | src/PCF85063A.cpp:20-31 | the seven bytes set writes decode back to the time given |
| PCF85063A.StopBytes | src/PCF85063A.cpp:33-35 | STOP is raised by `v \| 0x20` and dropped by `v & ~0x20`, leaving the other bits as they were |
| PCF85063A.SetRegisters | src/PCF85063A.cpp:15-36 | after set, STOP is clear, the time registers hold the encoded time, nothing else changed |
| PCF85063A.SetWriteOrder | src/PCF85063A.cpp:33-35 | set writes STOP on, then the time block, then STOP off |
| PCF85063A.SetThenRead | src/PCF85063A.cpp:106-113 | rtc_time after set returns the time that was set |
| PCF85063A.AlarmRegisters | src/PCF85063A.cpp:43-48 | alarm stores the alarm code and sets the alarm enable (Control_2 bit 7), nothing else |
| PCF85063A.AlarmDisableOp | src/PCF85063A.cpp:55-58 | alarm_disable clears Control_2 bit 7 only |
| PCF85063A.AlarmThenDisable | src/PCF85063A.cpp:43-58 | alarm then alarm_disable leaves the alarm value and only the enable bit cleared |
| PCF85063A.IntClearOp | src/PCF85063A.cpp:60-66 | int_clear clears the AF and TF flags (Control_2 bits 3 and 6) with one write, nothing else |
| PCF85063A.IntClearTwice | src/PCF85063A.cpp:60-66 | the flags read 0 afterwards, and a second int_clear leaves the registers as they are |
| PCF85063A.Pcf85063a.Begin | src/PCF85063A.cpp:11-13 | begin does nothing |
| PCF85063A.Pcf85063a.Set | src/PCF85063A.cpp:15-36 | the chip after set is SetOp |
| PCF85063A.Pcf85063a.OscillatorStop | src/PCF85063A.cpp:38-41 | true exactly when Seconds bit 7 is set |
| PCF85063A.Pcf85063a.Alarm | src/PCF85063A.cpp:43-48 | the chip after alarm is AlarmOp |
| PCF85063A.Pcf85063a.AlarmClear | src/PCF85063A.cpp:50-53 | alarm_clear does nothing |
| PCF85063A.Pcf85063a.AlarmDisable | src/PCF85063A.cpp:55-58 | the chip after alarm_disable is AlarmDisableOp |
| PCF85063A.Pcf85063a.IntClear | src/PCF85063A.cpp:60-66 | returns Control_2 as read; the chip after is IntClearOp |
| PCF85063A.Pcf85063a.RtcTime | src/PCF85063A.cpp:100-117 | returns the time decoded from Seconds..Years |
| PCF85263A.AlarmSelect.Index | src/RTC_NXP.h:1127-1136 | the eight alarm fields are numbered 0..7 |
| PCF85263A.IntAPin.Code | src/RTC_NXP.h:1146-1151 | INT_A configurations are the codes 0..3 |
| PCF85263A.IntBPin.Code | src/RTC_NXP.h:1154-1159 | INT_B configurations are the codes 0..3 |
| PCF85263A.SetBufferDecode | src/PCF85263A.cpp:25-39 | the time bytes of the set buffer decode to the time given, with the hour replaced by the weekday |
| PCF85263A.SetRegisters | src/PCF85263A.cpp:19-43 | after set, Stop_enable is 0, Resets holds 0xA4 (CPR), the time registers hold the buffer's time bytes, and nothing else changed; the block wraps past the last register |
| PCF85263A.SetWriteOrder | src/PCF85263A.cpp:41-42 | set writes the ten-byte block from Stop_enable with STOP set, then clears Stop_enable |
| PCF85263A.SetThenRead | src/PCF85263A.cpp:19-43 | rtc_time after set returns the time set, except that the hour reads back as the weekday |
| PCF85263A.AlarmEnableExamples | src/PCF85263A.cpp:74 | the enable condition uses decimal 80: the value 0x80 still enables the alarm, the value 30 does not |
| PCF85263A.AlarmBytes | src/PCF85263A.cpp:77-80 | the two masked updates of set_alarm set their enable bits and keep the others |
| PCF85263A.SetAlarmRegisters | src/PCF85263A.cpp:70-81 | set_alarm stores the BCD value, sets the field's enable bit exactly when `val & 80` is zero, sets the alarm 1 or alarm 2 interrupt enable of the chosen output, nothing else |
| PCF85263A.AlarmSharedSetting | src/PCF85263A.cpp:55-63 | the shared alarm_setting WEEKDAY changes nothing; SECOND..DAY address alarm 1's registers |
| PCF85263A.AlarmClearOp | src/PCF85263A.cpp:83-86 | alarm_clear zeroes Alarm_enables only |
| PCF85263A.AlarmClearAfterAlarm | src/PCF85263A.cpp:83-86 | alarm_clear after set_alarm disables every alarm and keeps the alarm value |
| PCF85263A.AlarmDisableRegisters | src/PCF85263A.cpp:88-92 | alarm_disable sets bits 3 and 4 in INTA_enable and INTB_enable, nothing else |
| PCF85263A.IntClearOp | src/PCF85263A.cpp:94-100 | int_clear writes the complement of Flags, nothing else |
| PCF85263A.IntClearTwice | src/PCF85263A.cpp:94-100 | every flag set before is written 0; a second int_clear writes back the byte the first one read |
| PCF85263A.IntClearOnFlagRegister | src/PCF85263A.cpp:94-100 | on a chip whose flags are cleared by writing 0, int_clear clears every pending flag, and a second int_clear returns no pending flag and leaves none |
| PCF85263A.PeriodicBytes | src/PCF85263A.cpp:122-125 | the selection lands in Function bits 5-6, and the INTA/INTB periodic enable is set exactly when `on` |
| PCF85263A.PeriodicRegisters | src/PCF85263A.cpp:120-126 | Function bits 5-6 hold the selection, the periodic enable of the chosen output is set exactly when not DISABLE, nothing else changes; the repeated write changes nothing further |
| PCF85263A.PinBytes | src/PCF85263A.cpp:130 | `(cfg_b << 2) \| cfg_a` puts INT_A's code in bits 0-1 and INT_B's in bits 2-3 |
| PCF85263A.PinConfigRegisters | src/PCF85263A.cpp:128-131 | pin_congfig sets the low nibble of Pin_IO to the two pin codes, nothing else |
| PCF85263A.TsConfigRegisters | src/PCF85263A.cpp:133-137 | ts_congfig leaves Pin_IO as its old low nibble ORed with the setting, so the setting's high nibble replaces bits 4-7 and a setting with a zero low nibble keeps the pin codes; it sets INTA_enable bit 2 and changes nothing else |
| PCF85263A.TsConfigOptions | src/RTC_NXP.h:1161-1168 | a setting ORed from one option of each ts_in pair sets Pin_IO bit 6, 5 or 4 exactly when TS_PULLUP_40K, TSL_ACTIVE_LOW or TSIM_MECHANICAL is chosen, clears bit 7 and keeps the pin codes |
| PCF85263A.TimestampRegister | src/PCF85263A.cpp:143-145 | `TSR1_seconds + 6 * num` is the first register of timestamp block `num` |
| PCF85263A.Pcf85263a.Begin | src/PCF85263A.cpp:15-17 | begin does nothing |
| PCF85263A.Pcf85263a.Set | src/PCF85263A.cpp:19-43 | the chip after set is SetOp |
| PCF85263A.Pcf85263a.OscillatorStop | src/PCF85263A.cpp:45-48 | true exactly when Seconds bit 7 is set |
| PCF85263A.Pcf85263a.Alarm | src/PCF85263A.cpp:50-53 | alarm without an output selects INT_A |
| PCF85263A.Pcf85263a.AlarmOn | src/PCF85263A.cpp:55-63 | the chip after alarm with a shared setting is AlarmOp |
| PCF85263A.Pcf85263a.AlarmSelected | src/PCF85263A.cpp:65-68 | alarm with an alarm_setting_85263A field is set_alarm |
| PCF85263A.Pcf85263a.SetAlarm | src/PCF85263A.cpp:70-81 | the chip after set_alarm is SetAlarmOp |
| PCF85263A.Pcf85263a.AlarmClear | src/PCF85263A.cpp:83-86 | the chip after alarm_clear is AlarmClearOp |
| PCF85263A.Pcf85263a.AlarmDisable | src/PCF85263A.cpp:88-92 | the chip after alarm_disable is AlarmDisableOp |
| PCF85263A.Pcf85263a.IntClear | src/PCF85263A.cpp:94-100 | returns Flags as read; the chip after is IntClearOp |
| PCF85263A.Pcf85263a.RtcTime | src/PCF85263A.cpp:102-118 | returns the time decoded from _100th_seconds..Years |
| PCF85263A.Pcf85263a.PeriodicInterruptEnable | src/PCF85263A.cpp:120-126 | the chip after periodic_interrupt_enable is PeriodicOp |
| PCF85263A.Pcf85263a.PinConfig | src/PCF85263A.cpp:128-131 | the chip after pin_congfig is PinConfigOp |
| PCF85263A.Pcf85263a.TsConfig | src/PCF85263A.cpp:133-137 | the chip after ts_congfig is TsConfigOp |
| PCF85263A.Pcf85263a.Timestamp | src/PCF85263A.cpp:139-158 | returns the time decoded from timestamp block `num` |
| PCF85053A.AlarmRegister | src/PCF85053A.cpp:82 | alarm_offsets maps SECOND, MINUTE, HOUR to the registers 1, 3, 5 that follow their time registers |
| PCF85053A.TimeBytesDecode | src/PCF85053A.cpp:13-27 | the ten bytes set writes decode back to the time given |
| PCF85053A.SetRegisters | src/PCF85053A.cpp:9-30 | after set, Seconds..Year hold the encoded time with 0xFF in the three alarm registers, nothing else changed |
| PCF85053A.SetThenRead | src/PCF85053A.cpp:64-80 | rtc_time after set returns the time that was set |
| PCF85053A.AlarmRegisters | src/PCF85053A.cpp:38-42 | alarm stores the BCD value in the field's alarm register and sets the alarm enable (Control bit 3), nothing else |
| PCF85053A.AlarmClearRegisters | src/PCF85053A.cpp:44-49 | alarm_clear writes 0xFF to the seconds, minutes and hours alarms in that order, nothing else |
| PCF85053A.SetClearsAlarms | src/PCF85053A.cpp:15-20 | set leaves the three alarm registers as alarm_clear does |
| PCF85053A.AlarmDisableOp | src/PCF85053A.cpp:51-54 | alarm_disable clears Control bit 3 only |
| PCF85053A.IntClearOp | src/PCF85053A.cpp:56-62 | int_clear writes the status register only |
| PCF85053A.IntClearRegisters | src/PCF85053A.cpp:56-62 | the written status is 0 in every flag (bits 4-7) set before and 1 in every other bit, in one write |
| PCF85053A.IntClearOnStatusRegister | src/PCF85053A.cpp:56-62 | on a chip whose flags are cleared by writing 0, int_clear clears every pending flag of bits 4-7, and a second int_clear returns no pending flag and leaves none |
| PCF85053A.Pcf85053a.Begin | src/PCF85053A.cpp:7 | begin does nothing |
| PCF85053A.Pcf85053a.Set | src/PCF85053A.cpp:9-30 | the chip after set is SetOp |
| PCF85053A.Pcf85053a.OscillatorStop | src/PCF85053A.cpp:32-36 | true exactly when Status bit 6 is set; nothing changes |
| PCF85053A.Pcf85053a.Alarm | src/PCF85053A.cpp:38-42 | the chip after alarm is AlarmOp |
| PCF85053A.Pcf85053a.AlarmClear | src/PCF85053A.cpp:44-49 | the chip after alarm_clear is AlarmClearOp |
| PCF85053A.Pcf85053a.AlarmDisable | src/PCF85053A.cpp:51-54 | the chip after alarm_disable is AlarmDisableOp |
| PCF85053A.Pcf85053a.IntClear | src/PCF85053A.cpp:56-62 | returns the status as read; the chip after is IntClearOp |
| PCF85053A.Pcf85053a.RtcTime | src/PCF85053A.cpp:64-80 | returns the time decoded from Seconds..Year |
| SpiForRtc.Word16BigEndian | src/SPI_for_RTC.cpp:39-43 | the two bytes of a 16-bit value, high byte first, give the value back |
| SpiForRtc.Word24BigEndian | src/SPI_for_RTC.cpp:51-55 | the three bytes write_r24 sends spell the value modulo 2^24 |
| SpiForRtc.ShiftPair | src/SPI_for_RTC.cpp:62-67 | placing three bytes at bits 8-31 of an `int32_t` and shifting right by 8 gives the signed 24-bit value |
| SpiForRtc.ReadR24SignExtends | src/SPI_for_RTC.cpp:57-68 | read_r24's arithmetic is the two's-complement value of the 24-bit big-endian answer |
| SpiForRtc.Int24Residue | src/SPI_for_RTC.cpp:57-68 | on the signed 24-bit range, sign extension inverts the reduction modulo 2^24 |
| SpiForRtc.WriteThenReadR24 | src/SPI_for_RTC.cpp:51-68 | a signed 24-bit value sent by write_r24 and answered back unchanged reads back as the same value |
| SpiForRtc.FrameDirection | src/SPI_for_RTC.cpp:10-31 | for a 7-bit address, a read request has bit 7 set and a write frame has it clear, with the same address; both are one byte longer than the data |
| SpiForRtc.SpiForRtc.Txrx | src/SPI_for_RTC.cpp:3-8 | the buffer is sent as one frame and replaced by the device's answer |
| SpiForRtc.SpiForRtc.RegW | src/SPI_for_RTC.cpp:10-18 | sends one frame: the address, then the first `size` data bytes |
| SpiForRtc.SpiForRtc.RegR | src/SPI_for_RTC.cpp:20-31 | sends the address with bit 7 set and `size` 0xFF bytes; the data receives the answer after its first byte; the rest of the buffer is kept |
| SpiForRtc.SpiForRtc.Command | src/SPI_for_RTC.cpp:33-37 | sends the 16-bit command, high byte first |
| SpiForRtc.SpiForRtc.WriteR16 | src/SPI_for_RTC.cpp:39-43 | sends the register and then the value, each high byte first |
| SpiForRtc.SpiForRtc.ReadR16 | src/SPI_for_RTC.cpp:45-49 | nothing is sent, so the result is the dummy 0xFFFF |
| SpiForRtc.SpiForRtc.WriteR24 | src/SPI_for_RTC.cpp:51-55 | sends the register and then the low 24 bits of the value, each high byte first |
| SpiForRtc.SpiForRtc.ReadR24 | src/SPI_for_RTC.cpp:57-68 | sends the register and three 0xFF bytes; returns the signed 24-bit value of the answer's last three bytes |

## Left out

- Bus transport: the I2C and SPI transfers, chip select and the `I2C_device` base class are not modelled. A register access changes the register file directly. `SPI_for_RTC` is modelled on frames, with the device's answer as an abstract function.
- The PCF2131_I2C and PCF2131_SPI forwarding members: they pass each register access on to the transport unchanged, so `RegisterFile` stands for both.
- The register files are plain memory. Hardware side effects are not modelled: flags cleared by writing 0, the oscillator halting while STOP is set, software reset and OTP refresh, and the time advancing.
- `mktime`/`localtime`: the weekday `set` derives from them is the parameter `wday`, and the read operations return the decoded calendar record, not a `time_t`.
- `tm_isdst` and the other `struct tm` fields the drivers do not touch are not part of `Rtc.Tm`.
- `dec2bcd`/`bcd2dec` have no body in the source files. They are modelled on `uint8_t` as tens in the high nibble and units in the low nibble. Values above 99 are encoded by the same formula and are not checked.
- PCF85063A `timer` works in floating point and is not modelled.
- `Serial` prints are not modelled: PCF85263A's message for an unsupported WEEKDAY alarm, and the disabled debug block of PCF85063A `timer`.
- PCF85063TP and the top-level `RTC_NXP.h`/`RTC_NXP.cpp` are not part of this model. The top-level files are an older revision of the header. `RTC_NXP::time` only returns `rtc_time()`.
- Concurrency and interrupts are not modelled.
- PCF85263A.IntClearTwice and PCF85053A.IntClearRegisters: on the plain-memory register file a written 1 raises a flag, so these lemmas cannot state that a second `int_clear` finds no pending flag. That property is stated for the chip's write-0-to-clear flags by `Registers.FlagWrite`, PCF85263A.IntClearOnFlagRegister and PCF85053A.IntClearOnStatusRegister, which are not tied to the register file.
- The 12-hour-mode alias registers of PCF85263A are not used by any driver operation and are not declared.
- The single-byte `reg_w`/`reg_r`, `write_r8`, `read_r8` and `bit_op8` that `SPI_for_RTC` declares have no body in `SPI_for_RTC.cpp` and are not modelled. `SPI_for_RTC` declares `txrx`, `reg_w` and `reg_r`, but `command`, `write_r16`, `read_r16`, `write_r24` and `read_r24` are not declared in it. `SPI_for_RTC.cpp` defines all eight bodies as `SPI_for_AFE` members. The model treats all of them as members of one SPI framing class.
- PCF2131.Pcf2131.AlarmOn, PCF2131.Pcf2131.Timestamp and PCF2131.Pcf2131.PeriodicInterruptEnable: `int_sel` must be 0 or 1. The source indexes `int_mask_reg[int_sel]` without a check, and other values read outside the table.
- PCF85263A.Pcf85263a.AlarmOn, PCF85263A.Pcf85263a.SetAlarm and PCF85263A.Pcf85263a.PeriodicInterruptEnable: `int_sel` must be 0 or 1 (INTA_enable or INTB_enable). Other values address other registers, and the model does not cover them.
- PCF85263A.Pcf85263a.SetAlarm: `digit` must be 0..7, the values of `alarm_setting_85263A`. Other values shift the enable bit out of the byte.
- PCF85263A.Pcf85263a.Timestamp: `num` must be 0..2, the three timestamp blocks. Other values read registers that hold no timestamp.
- PCF2131.Pcf2131.Timestamp and PCF2131.Pcf2131.TimestampRead: `num` must be 1..4, the four timestamp blocks. Other values address registers outside them.
- PCF85053A.Pcf85053a.Alarm: only SECOND, MINUTE and HOUR are accepted. DAY and WEEKDAY index past the end of `alarm_offsets` in the source.
- PCF85263A.Pcf85263a.Set: byte 7 of the set buffer, which lands in Weekdays, is never assigned in the source. It is the parameter `stale`.
- SpiForRtc.SpiForRtc.WriteR24: the source parameter is a `uint32_t`. The model accepts any `int` and sends the same three bytes as for `val` modulo 2^32; only the low 24 bits are sent. The shifts are modelled as divisions by powers of two, which give the same bytes.
- SpiForRtc.SpiForRtc.ReadR24: the shifts of `int32_t` values are modelled as multiplication with an explicit 32-bit two's-complement wrap, followed by floor division. This is what the target compilers produce. Before C++20, the left shift `r0 << 24` with `r0` at least 128 overflows `int32_t` and is undefined behaviour, and the right shift of a negative value is implementation-defined.
