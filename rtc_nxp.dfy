// Shared vocabulary of the RTC_NXP driver family: the packed-BCD codec of the
// RTC_NXP base class, the calendar record that the drivers exchange, and the
// enumerations that several chips share.

module Rtc {

  /**
   * The byte whose value is `n`, built by counting up from zero so that the
   * verifier unfolds it only as far as a proof needs.
   */
  function ToByte(n: nat): bv8
    requires n < 256
  {
    if n == 0 then 0 else ToByte(n - 1) + 1
  }

  /** Counting up to `n` never wraps below 256: the byte's value is `n`. */
  lemma {:induction false} ToByteValue(n: nat)
    requires n < 256
    ensures ToByte(n) as int == n
  {
    if n > 0 {
      ToByteValue(n - 1);
    }
  }

  /** C's conversion of an `int` to `uint8_t`: the value modulo 256. */
  function U8(x: int): bv8
  {
    ToByte(x % 256)
  }

  /** The conversion keeps the value modulo 256. */
  lemma {:induction false} U8Value(x: int)
    ensures U8(x) as int == x % 256
  {
    ToByteValue(x % 256);
  }

  /** Values 0..255 pass the conversion unchanged. */
  lemma {:induction false} U8Small(x: int)
    requires 0 <= x < 256
    ensures U8(x) as int == x
  {
    assert x % 256 == x;
    ToByteValue(x);
  }

  /**
   * The oscillator-stop flag of PCF2131, PCF85063A and PCF85263A: bit 7 of
   * the Seconds register, set once the chip has lost its timebase.
   */
  predicate OscillatorStopped(seconds: bv8)
  {
    seconds & 0x80 != 0
  }

  /** High and low nibble of a byte. */
  function Hi(b: bv8): nat { (b >> 4) as nat }
  function Lo(b: bv8): nat { (b & 0x0F) as nat }

  /** A byte holding two decimal digits, one per nibble. */
  predicate IsBcd(b: bv8) { Hi(b) <= 9 && Lo(b) <= 9 }

  /** dec2bcd: tens into the high nibble, units into the low nibble, truncated to 8 bits. */
  function Dec2Bcd(v: bv8): bv8
  {
    ((v / 10) << 4) | (v % 10)
  }

  /** On 0..99, dec2bcd puts the tens digit in the high nibble and the units digit in the low one. */
  lemma Dec2BcdDigits(v: bv8)
    requires v <= 99
    ensures IsBcd(Dec2Bcd(v)) && Hi(Dec2Bcd(v)) == v as nat / 10 && Lo(Dec2Bcd(v)) == v as nat % 10
  {
  }

  /** bcd2dec: high nibble times ten plus low nibble. */
  function Bcd2Dec(b: bv8): nat
  {
    10 * Hi(b) + Lo(b)
  }

  /** dec2bcd of an `int` argument, as every driver calls it. */
  function Enc(x: int): bv8
  {
    Dec2Bcd(U8(x))
  }

  /** Decoding undoes encoding on the encoder's domain 0..99, and the encoding is valid BCD. */
  lemma {:induction false} DecodeEncode(x: int)
    requires 0 <= x <= 99
    ensures IsBcd(Enc(x)) && Bcd2Dec(Enc(x)) == x
  {
    U8Small(x);
    Dec2BcdDigits(U8(x));
  }

  /** Encoding undoes decoding on well-formed BCD bytes. */
  lemma {:induction false} EncodeDecode(b: bv8)
    requires IsBcd(b)
    ensures Bcd2Dec(b) <= 99
    ensures Enc(Bcd2Dec(b)) == b
  {
    var n := Bcd2Dec(b);
    U8Small(n);
    var v := U8(n);
    Dec2BcdDigits(v);
    var e := Dec2Bcd(v);
    assert Hi(e) == n / 10 == Hi(b);
    assert Lo(e) == n % 10 == Lo(b);
    assert e >> 4 == b >> 4 && e & 0x0F == b & 0x0F;
  }

  /**
   * The fields of a C `struct tm` that the drivers write and read back: month is
   * 0-based and year counts from 1900. The weekday is not part of the record:
   * the drivers never read `tm_wday` of their argument but recompute it with
   * the platform's calendar routines, and the decoded results leave it unset.
   */
  datatype Tm = Tm(sec: int, min: int, hour: int, mday: int, mon: int, year: int)

  /** Every field lands in 0..99 once biased as the chips store it (month + 1, year - 100). */
  predicate Encodable(t: Tm)
  {
    0 <= t.sec <= 99 && 0 <= t.min <= 99 && 0 <= t.hour <= 99 && 0 <= t.mday <= 99 &&
    0 <= t.mon + 1 <= 99 && 0 <= t.year - 100 <= 99
  }

  /**
   * The time read back after every field is stored as the chips store it
   * (month + 1 and year - 100 in BCD) and decoded again.
   */
  function Decoded(t: Tm): Tm
  {
    Tm(Bcd2Dec(Enc(t.sec)), Bcd2Dec(Enc(t.min)), Bcd2Dec(Enc(t.hour)), Bcd2Dec(Enc(t.mday)),
       Bcd2Dec(Enc(t.mon + 1)) - 1, Bcd2Dec(Enc(t.year - 100)) + 100)
  }

  /** Storing and decoding an encodable time gives it back, field by field. */
  lemma {:induction false} DecodedEncodable(t: Tm)
    requires Encodable(t)
    ensures Decoded(t) == t
  {
    DecodeEncode(t.sec);
    DecodeEncode(t.min);
    DecodeEncode(t.hour);
    DecodeEncode(t.mday);
    DecodeEncode(t.mon + 1);
    DecodeEncode(t.year - 100);
  }

  /** alarm_setting: which time field an alarm register compares. */
  datatype AlarmSetting = Second | Minute | Hour | Day | Weekday
  {
    /** The enumerator's value in C. */
    function Index(): (i: nat)
      ensures i < 5
    {
      match this
      case Second => 0
      case Minute => 1
      case Hour => 2
      case Day => 3
      case Weekday => 4
    }
  }

  /** periodic_int_select, declared alike by PCF2131 and PCF85263A. */
  datatype PeriodicIntSelect = Disable | EverySecond | EveryMinute
  {
    function Code(): (c: bv8)
      ensures c <= 2 && (c == 0 <==> this == Disable)
    {
      match this
      case Disable => 0
      case EverySecond => 1
      case EveryMinute => 2
    }
  }

  /**
   * The value `alarm` writes to an alarm register on PCF2131 and PCF85063A:
   * the sentinel 0x80 is passed through, anything else is BCD-encoded.
   */
  function AlarmCode(val: int): bv8
  {
    if val == 0x80 then 0x80 else Enc(val)
  }

  /** The alarm code is 0x80 for the sentinel and decodes back to `val` on 0..99. */
  lemma AlarmCodeValue(val: int)
    ensures val == 0x80 ==> AlarmCode(val) == 0x80
    ensures 0 <= val <= 99 ==> IsBcd(AlarmCode(val)) && Bcd2Dec(AlarmCode(val)) == val
  {
    if 0 <= val <= 99 {
      DecodeEncode(val);
    }
  }
}
