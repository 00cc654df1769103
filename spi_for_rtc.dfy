// SPI framing of SPI_for_RTC.cpp: the byte frames the register accessors and
// the 16/24-bit accessors put on the bus. The transfer itself (chip select
// and the full-duplex exchange) is one abstract step: the bus records the
// frame it sent and overwrites the buffer with the device's answer, which is
// as long as the frame.

module SpiForRtc {
  import opened Rtc

  /** A 16-bit value as two bytes, most significant first. */
  function BigEndian16(x: bv16): (b: seq<bv8>)
    ensures |b| == 2
  {
    [(x >> 8) as bv8, (x & 0xFF) as bv8]
  }

  /** Two bytes, most significant first, as a 16-bit value. */
  function Word16(b: seq<bv8>): bv16
    requires |b| == 2
  {
    (b[0] as bv16 << 8) | b[1] as bv16
  }

  /** The two bytes of BigEndian16 give the value back. */
  lemma Word16BigEndian(x: bv16)
    ensures Word16(BigEndian16(x)) == x
  {
  }

  /**
   * The three bytes write_r24 sends for `val`: bits 16-23, 8-15 and 0-7 of
   * the value, each cut to `uint8_t`. The argument is converted to
   * `uint32_t` first, which changes none of these bits; the shift by 16 is
   * written as two floor divisions by 256.
   */
  function BigEndian24(val: int): (b: seq<bv8>)
    ensures |b| == 3
  {
    [U8(val / 0x100 / 0x100), U8(val / 0x100), U8(val)]
  }

  /** Three bytes, most significant first, as an unsigned 24-bit number. */
  function Word24(b: seq<bv8>): (w: nat)
    requires |b| == 3
    ensures w < 0x100_0000
  {
    b[0] as nat * 0x1_0000 + b[1] as nat * 0x100 + b[2] as nat
  }

  /** The two's-complement value of a 24-bit word. */
  function Int24(w: nat): (v: int)
    requires w < 0x100_0000
    ensures -0x80_0000 <= v < 0x80_0000
  {
    if w < 0x80_0000 then w else w - 0x100_0000
  }

  /** An `int` result stored in an `int32_t`: the value modulo 2^32, in two's complement. */
  function Wrap32(x: int): (v: int)
    ensures -0x8000_0000 <= v < 0x8000_0000
  {
    var m := x % 0x1_0000_0000;
    if m < 0x8000_0000 then m else m - 0x1_0000_0000
  }

  /**
   * read_r24's arithmetic: the three bytes are shifted to bits 24-31, 16-23
   * and 8-15 of an `int32_t` (the `|` joins disjoint bit ranges, so it adds),
   * and the result is shifted right by 8 with sign propagation, a floor
   * division by 256.
   */
  function ReadR24Value(b: seq<bv8>): int
    requires |b| == 3
  {
    Wrap32(b[0] as int * 0x100_0000 + b[1] as int * 0x1_0000 + b[2] as int * 0x100) / 0x100
  }

  /** Wrap32 on the range of a `uint32_t`: unchanged below 2^31, less 2^32 from there on. */
  lemma Wrap32Unsigned(x: int)
    requires 0 <= x < 0x1_0000_0000
    ensures x < 0x8000_0000 ==> Wrap32(x) == x
    ensures x >= 0x8000_0000 ==> Wrap32(x) == x - 0x1_0000_0000
  {
  }

  /** The shift pair on byte values: placing three bytes at bits 8-31 and shifting back by 8 sign-extends them. */
  lemma {:induction false} ShiftPair(b0: int, b1: int, b2: int)
    requires 0 <= b0 < 0x100 && 0 <= b1 < 0x100 && 0 <= b2 < 0x100
    ensures Wrap32(b0 * 0x100_0000 + b1 * 0x1_0000 + b2 * 0x100) / 0x100
         == Int24(b0 * 0x1_0000 + b1 * 0x100 + b2)
  {
    var w := b0 * 0x1_0000 + b1 * 0x100 + b2;
    var x := b0 * 0x100_0000 + b1 * 0x1_0000 + b2 * 0x100;
    assert x == w * 0x100;
    Wrap32Unsigned(x);
    if w < 0x80_0000 {
      assert Wrap32(x) / 0x100 == w;
    } else {
      assert Wrap32(x) == (w - 0x100_0000) * 0x100;
      assert Wrap32(x) / 0x100 == w - 0x100_0000;
    }
  }

  /** read_r24's shift pair sign-extends the 24-bit big-endian value. */
  lemma {:induction false} ReadR24SignExtends(b: seq<bv8>)
    requires |b| == 3
    ensures ReadR24Value(b) == Int24(Word24(b))
  {
    ShiftPair(b[0] as int, b[1] as int, b[2] as int);
  }

  /** A value is its 2^24 remainder once written as a multiple of 2^24 plus a 24-bit part. */
  lemma Mod24(val: int, q: int, rest: int)
    requires val == q * 0x100_0000 + rest && 0 <= rest < 0x100_0000
    ensures val % 0x100_0000 == rest
  {
  }

  /** The bytes of BigEndian24 spell the argument modulo 2^24. */
  lemma {:induction false} Word24BigEndian(val: int)
    ensures Word24(BigEndian24(val)) == val % 0x100_0000
  {
    var q1 := val / 0x100;
    var q2 := q1 / 0x100;
    var q3 := q2 / 0x100;
    U8Value(val);
    U8Value(q1);
    U8Value(q2);
    var lo, mid, hi := val % 0x100, q1 % 0x100, q2 % 0x100;
    assert val == q1 * 0x100 + lo;
    assert q1 == q2 * 0x100 + mid;
    assert q2 == q3 * 0x100 + hi;
    assert Word24(BigEndian24(val)) == hi * 0x1_0000 + mid * 0x100 + lo;
    Mod24(val, q3, hi * 0x1_0000 + mid * 0x100 + lo);
  }

  /** Int24 inverts the reduction modulo 2^24 on the signed 24-bit range. */
  lemma {:induction false} Int24Residue(val: int)
    requires -0x80_0000 <= val < 0x80_0000
    ensures Int24(val % 0x100_0000) == val
  {
    if val >= 0 {
      Mod24(val, 0, val);
    } else {
      Mod24(val, -1, val + 0x100_0000);
    }
  }

  /**
   * A signed 24-bit value sent with write_r24 and answered back unchanged is
   * read back by read_r24 as the same value.
   */
  lemma {:induction false} WriteThenReadR24(val: int)
    requires -0x80_0000 <= val < 0x80_0000
    ensures ReadR24Value(BigEndian24(val)) == val
  {
    Word24BigEndian(val);
    ReadR24SignExtends(BigEndian24(val));
    Int24Residue(val);
  }

  /** The reg_w frame: the register address, then the data. */
  function WriteFrame(reg: bv8, data: seq<bv8>): seq<bv8>
  {
    [reg] + data
  }

  /** The reg_r request: the register address with bit 7 set, then one 0xFF per byte to read. */
  function ReadRequest(reg: bv8, size: nat): seq<bv8>
  {
    [reg | 0x80] + seq(size, _ => 0xFF)
  }

  /**
   * For a 7-bit register address, the first byte tells a read from a write:
   * bit 7 is set in a read request and clear in a write frame, and the
   * remaining bits carry the same address. Both frames carry one byte more
   * than the data.
   */
  lemma {:induction false} FrameDirection(reg: bv8, data: seq<bv8>, size: nat)
    requires reg < 0x80
    ensures ReadRequest(reg, size)[0] & 0x80 == 0x80 && WriteFrame(reg, data)[0] & 0x80 == 0x00
    ensures ReadRequest(reg, size)[0] & 0x7F == WriteFrame(reg, data)[0]
    ensures |ReadRequest(reg, size)| == size + 1 && |WriteFrame(reg, data)| == |data| + 1
  {
    assert ReadRequest(reg, size)[0] == reg | 0x80;
  }

  /** The read_r24 request: the register big-endian, then three 0xFF bytes. */
  function R24Request(reg: bv16): seq<bv8>
  {
    BigEndian16(reg) + [0xFF, 0xFF, 0xFF]
  }

  /**
   * SPI_for_RTC over an abstract device. `sent` is every frame put on the bus,
   * oldest first; `answer` is the device: the bytes it shifts back while a
   * frame is shifted out.
   */
  class SpiForRtc {
    var sent: seq<seq<bv8>>
    const answer: seq<bv8> -> seq<bv8>

    /** A full-duplex exchange returns as many bytes as it sends. */
    ghost predicate Valid()
      reads this
    {
      forall f: seq<bv8> :: |answer(f)| == |f|
    }

    constructor (answer: seq<bv8> -> seq<bv8>)
      requires forall f: seq<bv8> :: |answer(f)| == |f|
      ensures Valid() && this.answer == answer && sent == []
    {
      this.answer := answer;
      sent := [];
    }

    /** txrx: `data` is sent, and replaced in place by the device's answer. */
    method Txrx(data: array<bv8>)
      requires Valid()
      modifies this, data
      ensures Valid()
      ensures sent == old(sent) + [old(data[..])]
      ensures data[..] == answer(old(data[..]))
    {
      var frame := data[..];
      var reply := answer(frame);
      sent := sent + [frame];
      forall i | 0 <= i < data.Length {
        data[i] := reply[i];
      }
    }

    /** reg_w(reg_adr, data, size): one frame, the address followed by the first `size` bytes of `data`. */
    method RegW(reg: bv8, data: array<bv8>, size: nat)
      requires Valid() && size <= data.Length
      modifies this
      ensures Valid()
      ensures sent == old(sent) + [WriteFrame(reg, data[..size])]
    {
      var v := new bv8[size + 1];
      v[0] := reg;
      forall i | 0 <= i < size {
        v[i + 1] := data[i];
      }
      assert v[..] == WriteFrame(reg, data[..size]);
      Txrx(v);
    }

    /**
     * reg_r(reg_adr, data, size): a read request of `size` dummy bytes; the
     * first `size` bytes of `data` receive the answer after its first byte.
     */
    method RegR(reg: bv8, data: array<bv8>, size: nat)
      requires Valid() && size <= data.Length
      modifies this, data
      ensures Valid()
      ensures sent == old(sent) + [ReadRequest(reg, size)]
      ensures data[..size] == answer(ReadRequest(reg, size))[1..]
      ensures data[size..] == old(data[size..])
    {
      var v := new bv8[size + 1];
      var i := 0;
      while i < size + 1
        modifies v
        invariant 0 <= i <= size + 1
        invariant forall k :: 0 <= k < i ==> v[k] == 0xFF
      {
        v[i] := 0xFF;
        i := i + 1;
      }
      v[0] := reg | 0x80;
      assert v[..] == ReadRequest(reg, size);
      Txrx(v);
      ghost var reply := answer(ReadRequest(reg, size));
      assert v[..] == reply && |reply| == size + 1;
      forall k | 0 <= k < size {
        data[k] := v[k + 1];
      }
      assert data[..size] == reply[1..];
    }

    /** command(reg): the 16-bit command, most significant byte first. */
    method Command(reg: bv16)
      requires Valid()
      modifies this
      ensures Valid()
      ensures sent == old(sent) + [BigEndian16(reg)]
    {
      var v := new bv8[2];
      v[0], v[1] := (reg >> 8) as bv8, (reg & 0xFF) as bv8;
      assert v[..] == BigEndian16(reg);
      Txrx(v);
    }

    /** write_r16(reg, val): the register, then the value, each most significant byte first. */
    method WriteR16(reg: bv16, val: bv16)
      requires Valid()
      modifies this
      ensures Valid()
      ensures sent == old(sent) + [BigEndian16(reg) + BigEndian16(val)]
    {
      var v := new bv8[4];
      v[0], v[1] := (reg >> 8) as bv8, (reg & 0xFF) as bv8;
      v[2], v[3] := (val >> 8) as bv8, (val & 0xFF) as bv8;
      assert v[..] == BigEndian16(reg) + BigEndian16(val);
      Txrx(v);
    }

    /**
     * read_r16(reg): the request is built but never sent, so the result is
     * the dummy bytes 0xFF 0xFF and nothing goes on the bus.
     */
    method ReadR16(reg: bv16) returns (r: bv16)
      requires Valid()
      ensures r == 0xFFFF
    {
      var v := BigEndian16(reg) + [0xFF, 0xFF];
      r := (v[2] as bv16 << 8) | v[3] as bv16;
    }

    /** write_r24(reg, val): the register, then the low 24 bits of the value, each most significant byte first. */
    method WriteR24(reg: bv16, val: int)
      requires Valid()
      modifies this
      ensures Valid()
      ensures sent == old(sent) + [BigEndian16(reg) + BigEndian24(val)]
    {
      var v := new bv8[5];
      v[0], v[1] := (reg >> 8) as bv8, (reg & 0xFF) as bv8;
      v[2], v[3], v[4] := U8(val / 0x100 / 0x100), U8(val / 0x100), U8(val);
      assert v[..] == BigEndian16(reg) + BigEndian24(val);
      Txrx(v);
    }

    /**
     * read_r24(reg): the answer's last three bytes as a signed 24-bit value,
     * most significant byte first.
     */
    method ReadR24(reg: bv16) returns (r: int)
      requires Valid()
      modifies this
      ensures Valid()
      ensures sent == old(sent) + [R24Request(reg)]
      ensures r == Int24(Word24(answer(R24Request(reg))[2..5]))
      ensures -0x80_0000 <= r < 0x80_0000
    {
      var v := new bv8[5];
      v[0], v[1] := (reg >> 8) as bv8, (reg & 0xFF) as bv8;
      v[2], v[3], v[4] := 0xFF, 0xFF, 0xFF;
      assert v[..] == R24Request(reg);
      Txrx(v);
      var r0, r1, r2 := v[2] as int, v[3] as int, v[4] as int;
      var w := Wrap32(r0 * 0x100_0000 + r1 * 0x1_0000 + r2 * 0x100);
      r := w / 0x100;
      assert r == ReadR24Value(v[2..5]);
      ReadR24SignExtends(v[2..5]);
    }
  }
}
