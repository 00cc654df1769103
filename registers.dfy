// The register access proxy every driver is written against: single-byte and
// block writes and reads, and the masked update `bit_op8`, over a chip that is
// a byte-addressed register file. Besides the register contents the model keeps
// the write transactions issued so far, so that the order of writes (a STOP bit
// raised before a block write, a bit toggled low then high) can be stated.

module Registers {

  /** One write transaction: `data` stored from register `addr` onwards. */
  datatype Write = Write(addr: nat, data: seq<bv8>)

  /** A chip as the drivers see it: register contents and the writes issued so far, oldest first. */
  datatype Chip = Chip(regs: seq<bv8>, writes: seq<Write>)

  /** bit_op8's new register value: the bits selected by `mask` are protected, `value` is ORed in. */
  function Masked(prev: bv8, mask: bv8, value: bv8): (r: bv8)
    ensures r & !mask == value & !mask
  {
    (prev & mask) | value
  }

  /** bit_op8 with mask `~bits` and value 0 clears `bits` and keeps the rest. */
  lemma MaskedClear(prev: bv8, bits: bv8)
    ensures Cleared(prev, Masked(prev, !bits, 0), bits)
  {
  }

  /** bit_op8 with mask `~bits` and value `bits` sets `bits` and keeps the rest. */
  lemma MaskedRaise(prev: bv8, bits: bv8)
    ensures Raised(prev, Masked(prev, !bits, bits), bits)
  {
  }

  /** bit_op8 with mask `~field` and a value inside `field` puts the value into the field and keeps the rest. */
  lemma MaskedField(prev: bv8, field: bv8, value: bv8)
    requires value & !field == 0
    ensures Masked(prev, !field, value) & field == value
    ensures SameOutside(prev, Masked(prev, !field, value), field)
  {
  }

  /** Repeating a masked update changes nothing more: bit_op8 is idempotent. */
  lemma MaskedTwice(prev: bv8, mask: bv8, value: bv8)
    ensures Masked(Masked(prev, mask, value), mask, value) == Masked(prev, mask, value)
  {
  }

  /**
   * A flag register on the chip itself, unlike the plain memory of this
   * model: writing 0 clears a flag, writing 1 keeps it, and no write raises a
   * flag.
   */
  function FlagWrite(held: bv8, written: bv8): (r: bv8)
    ensures r & !held == 0
    ensures r & !written == 0
    ensures held & written & !r == 0
  {
    held & written
  }

  /** Bit `i` of a byte as a mask, `1 << i`, tabulated so that no shift by a symbolic amount is needed. */
  function Bit(i: nat): (b: bv8)
    requires i < 8
    ensures b != 0 && b & (b - 1) == 0
  {
    [0x01, 0x02, 0x04, 0x08, 0x10, 0x20, 0x40, 0x80][i]
  }

  /** Only the bits in `field` differ between the two bytes. */
  predicate SameOutside(before: bv8, after: bv8, field: bv8)
  {
    after & !field == before & !field
  }

  /** The bits in `bits` are zero afterwards and every other bit is kept. */
  predicate Cleared(before: bv8, after: bv8, bits: bv8)
  {
    after & bits == 0 && SameOutside(before, after, bits)
  }

  /** The bits in `bits` are one afterwards and every other bit is kept. */
  predicate Raised(before: bv8, after: bv8, bits: bv8)
  {
    after & bits == bits && SameOutside(before, after, bits)
  }

  /** Every register outside `touched` keeps its value. */
  predicate SameExcept(before: seq<bv8>, after: seq<bv8>, touched: set<nat>)
  {
    |after| == |before| &&
    forall k :: 0 <= k < |before| && k !in touched ==> after[k] == before[k]
  }

  /** The registers `addr .. addr + len - 1`. */
  function Span(addr: nat, len: nat): (s: set<nat>)
    ensures forall k :: k in s <==> addr <= k < addr + len
  {
    if len == 0 then {} else Span(addr, len - 1) + {addr + len - 1}
  }

  /**
   * Register contents after `data` is written from `addr`. The chip's register
   * pointer advances after every byte and wraps from the last register back to
   * register 0, so a transfer that runs past the end continues at register 0.
   */
  function Stored(regs: seq<bv8>, addr: nat, data: seq<bv8>): (r: seq<bv8>)
    requires addr < |regs| && |data| <= |regs|
    ensures |r| == |regs|
  {
    if addr + |data| <= |regs| then
      regs[..addr] + data + regs[addr + |data|..]
    else
      var head := |regs| - addr;
      data[head..] + regs[|data| - head..addr] + data[..head]
  }

  /**
   * Byte `j` of the data lands in register `addr + j`, or, once the pointer has
   * wrapped, in register `addr + j - |regs|`.
   */
  lemma {:induction false} StoredAt(regs: seq<bv8>, addr: nat, data: seq<bv8>, j: nat)
    requires addr < |regs| && j < |data| <= |regs|
    ensures addr + j < |regs| ==> Stored(regs, addr, data)[addr + j] == data[j]
    ensures addr + j >= |regs| ==> Stored(regs, addr, data)[addr + j - |regs|] == data[j]
  {
    var n := |regs|;
    var r := Stored(regs, addr, data);
    if addr + |data| <= n {
      assert r[addr + j] == (regs[..addr] + data)[addr + j];
    } else {
      var head := n - addr;
      var wrapped, kept := data[head..], regs[|data| - head..addr];
      assert r == wrapped + kept + data[..head];
      if j < head {
        assert |wrapped + kept| == addr;
        assert r[addr + j] == data[..head][j];
      } else {
        assert r[j - head] == wrapped[j - head];
      }
    }
  }

  /** The `len` bytes a block read from `addr` returns, wrapping like a block write. */
  function Fetched(regs: seq<bv8>, addr: nat, len: nat): (r: seq<bv8>)
    requires addr < |regs| && len <= |regs|
    ensures |r| == len
    ensures addr + len <= |regs| ==> r == regs[addr..addr + len]
  {
    if addr + len <= |regs| then regs[addr..addr + len] else regs[addr..] + regs[..addr + len - |regs|]
  }

  /** A block read returns what a block write of the same length stored. */
  lemma {:induction false} FetchStored(regs: seq<bv8>, addr: nat, data: seq<bv8>)
    requires addr < |regs| && |data| <= |regs|
    ensures Fetched(Stored(regs, addr, data), addr, |data|) == data
  {
    var r := Stored(regs, addr, data);
    if addr + |data| <= |regs| {
      assert r[addr..addr + |data|] == data;
    } else {
      var head := |regs| - addr;
      assert r[addr..] == data[..head];
      assert r[..addr + |data| - |regs|] == data[head..];
      assert data[..head] + data[head..] == data;
    }
  }

  /**
   * A block write: registers from `addr` receive `data`, wrapping past the
   * last register, and the transaction is logged.
   */
  function PutBlock(c: Chip, addr: nat, data: seq<bv8>): (r: Chip)
    requires addr < |c.regs| && |data| <= |c.regs|
    ensures |r.regs| == |c.regs| && r.writes == c.writes + [Write(addr, data)]
    ensures Fetched(r.regs, addr, |data|) == data
    ensures addr + |data| <= |c.regs| ==> SameExcept(c.regs, r.regs, Span(addr, |data|))
    ensures addr + |data| > |c.regs| ==>
      SameExcept(c.regs, r.regs, Span(addr, |c.regs| - addr) + Span(0, addr + |data| - |c.regs|))
  {
    FetchStored(c.regs, addr, data);
    Chip(Stored(c.regs, addr, data), c.writes + [Write(addr, data)])
  }

  /** A single-byte write: one register changes, and a one-byte transaction is logged. */
  function PutByte(c: Chip, addr: nat, v: bv8): (r: Chip)
    requires addr < |c.regs|
    ensures r.regs == c.regs[addr := v]
    ensures r.writes == c.writes + [Write(addr, [v])]
  {
    Chip(c.regs[addr := v], c.writes + [Write(addr, [v])])
  }

  /** A single-byte write is a block write of length one. */
  lemma {:induction false} ByteIsBlock(c: Chip, addr: nat, v: bv8)
    requires addr < |c.regs|
    ensures PutByte(c, addr, v) == PutBlock(c, addr, [v])
  {
    assert c.regs[..addr] + [v] + c.regs[addr + 1..] == c.regs[addr := v];
  }

  /** A single-byte write issued only when `cond` holds; otherwise nothing happens. */
  function PutByteIf(c: Chip, cond: bool, addr: nat, v: bv8): (r: Chip)
    requires addr < |c.regs|
    ensures r.regs == if cond then c.regs[addr := v] else c.regs
    ensures r.writes == c.writes + if cond then [Write(addr, [v])] else []
  {
    if cond then PutByte(c, addr, v) else c
  }

  /** bit_op8: read the register, keep the bits under `mask`, OR in `value`, write it back. */
  function PutMasked(c: Chip, addr: nat, mask: bv8, value: bv8): (r: Chip)
    requires addr < |c.regs|
    ensures r.regs == c.regs[addr := Masked(c.regs[addr], mask, value)]
    ensures r.writes == c.writes + [Write(addr, [Masked(c.regs[addr], mask, value)])]
  {
    PutByte(c, addr, Masked(c.regs[addr], mask, value))
  }

  /**
   * The register file behind a driver. Every bus access of the drivers goes
   * through these five methods (`_reg_w`, `_reg_r` and `_bit_op8` and their
   * transport-specific implementations).
   */
  class RegisterFile {
    /** Number of registers; the register pointer wraps after the last one. */
    const count: nat
    var chip: Chip

    ghost predicate Valid()
      reads this
    {
      count > 0 && |chip.regs| == count
    }

    constructor (initial: seq<bv8>)
      requires |initial| > 0
      ensures Valid() && count == |initial| && chip == Chip(initial, [])
    {
      count := |initial|;
      chip := Chip(initial, []);
    }

    /** Single-register read. */
    method ReadReg(addr: nat) returns (v: bv8)
      requires Valid() && addr < count
      ensures v == chip.regs[addr]
    {
      v := chip.regs[addr];
    }

    /** Block read of `n` registers from `addr` into the first `n` slots of `buf`. */
    method ReadRegs(addr: nat, buf: array<bv8>, n: nat)
      requires Valid() && addr < count && n <= count && n <= buf.Length
      modifies buf
      ensures buf[..n] == Fetched(chip.regs, addr, n)
      ensures buf[n..] == old(buf[n..])
    {
      forall j | 0 <= j < n {
        buf[j] := if addr + j < count then chip.regs[addr + j] else chip.regs[addr + j - count];
      }
    }

    /** Single-register write. */
    method WriteReg(addr: nat, v: bv8)
      requires Valid() && addr < count
      modifies this
      ensures Valid()
      ensures chip == PutByte(old(chip), addr, v)
    {
      chip := PutByte(chip, addr, v);
    }

    /** Block write of `data` from `addr` (the buffer and its length of `_reg_w`). */
    method WriteRegs(addr: nat, data: seq<bv8>)
      requires Valid() && addr < count && |data| <= count
      modifies this
      ensures Valid()
      ensures chip == PutBlock(old(chip), addr, data)
    {
      chip := PutBlock(chip, addr, data);
    }

    /** Masked update: `reg := (reg & mask) | value`. */
    method BitOp8(addr: nat, mask: bv8, value: bv8)
      requires Valid() && addr < count
      modifies this
      ensures Valid()
      ensures chip == PutMasked(old(chip), addr, mask, value)
    {
      var v := ReadReg(addr);
      WriteReg(addr, Masked(v, mask, value));
    }
  }
}
