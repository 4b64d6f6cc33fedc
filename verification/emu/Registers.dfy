/** The DMA register file as a memory, and how much of the save RAM the cartridge decode reaches. */
module Registers {
  import opened Timing
  import opened Memory
  import opened Dma

  lemma HalvesKept(w: word, v: byte)
    ensures SetLow(w, v) % 0x100 == v && SetLow(w, v) / 0x100 == w / 0x100
    ensures SetHigh(w, v) / 0x100 == v && SetHigh(w, v) % 0x100 == w % 0x100
  {
  }

  /** A written register reads back its value, and no write shows through any other register. */
  lemma RegisterReadsBack(c: DmaChannel, reg: byte, v: byte, other: byte)
    ensures ReadReg(WriteReg(c, reg, v), other)
            == if other == reg && reg <= 0xA then Some(v) else ReadReg(c, other)
  {
    hide SetLow, SetHigh;
    HalvesKept(c.a1t, v);
    HalvesKept(c.das, v);
    HalvesKept(c.a2a, v);
  }

  /** The save RAM sizes a cartridge accepts: powers of two from 2 KiB to 512 KiB. */
  predicate SramSize(size: nat) {
    size in {0x800, 0x1000, 0x2000, 0x4000, 0x8000, 0x1_0000, 0x2_0000, 0x4_0000, 0x8_0000}
  }

  predicate Reached(i: nat, size: nat)
    requires size > 0
  {
    exists bank: byte, off: word :: SramWindow(bank, off) && SramOffset(bank, off, size) == i
  }

  ghost predicate AllReached(size: nat)
    requires size > 0
  {
    forall i: nat :: i < size ==> Reached(i, size)
  }

  lemma SmallReached(size: nat, i: nat)
    requires SramSize(size) && size <= 0x8000 && i < size
    ensures Reached(i, size)
  {
    assert SramWindow(0x70, i);
    assert SramOffset(0x70, i, size) == i by { Aligned(size, i); }
  }

  lemma Aligned(size: nat, i: nat)
    requires SramSize(size) && size <= 0x8000 && i < size
    ensures (0x70 * 0x1_0000 + i) % size == i
  {
  }

  /** The window repeats below $8000 of each bank, so offset $8000 of a larger RAM has no address. */
  lemma LargeNotReached(size: nat)
    requires SramSize(size) && size > 0x8000
    ensures !Reached(0x8000, size)
  {
    forall bank: byte, off: word | SramWindow(bank, off) ensures SramOffset(bank, off, size) != 0x8000 {
      LowHalf(bank, off, size);
    }
  }

  lemma LowHalf(bank: byte, off: word, size: nat)
    requires SramSize(size) && size > 0x8000 && off < 0x8000
    ensures (bank * 0x1_0000 + off) % size % 0x1_0000 == off
  {
  }

  /** Every byte of the save RAM has an address exactly when it is at most 32 KiB. */
  lemma SramReachedExactly(size: nat)
    requires SramSize(size)
    ensures AllReached(size) <==> size <= 0x8000
  {
    if size <= 0x8000 {
      forall i: nat | i < size ensures Reached(i, size) { SmallReached(size, i); }
    } else {
      LargeNotReached(size);
      assert 0x8000 < size;
    }
  }
}
