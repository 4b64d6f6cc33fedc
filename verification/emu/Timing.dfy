/** Machine integers and the frame/line constants of the emulator. */
module Timing {

  type byte = x: int | 0 <= x < 0x100
  type word = x: int | 0 <= x < 0x1_0000

  datatype Option<+T> = None | Some(value: T)

  const LINES_PER_FRAME := 262
  const MCLK_PER_LINE := 1364
  const MCLK_PER_FRAME := LINES_PER_FRAME * MCLK_PER_LINE
  const FIRST_VISIBLE_LINE := 1
  const MCLK_PER_INTERNAL_CYCLE := 6
  /** One past the largest value of the 64-bit total clock. */
  const TOTAL_RANGE := 0x1_0000_0000_0000_0000
  type u64 = x: int | 0 <= x < TOTAL_RANGE

  /** Bit `k` of a byte. */
  predicate Bit(v: byte, k: nat)
    requires k < 8
  {
    match k
    case 0 => v % 2 == 1
    case 1 => v / 2 % 2 == 1
    case 2 => v / 4 % 2 == 1
    case 3 => v / 8 % 2 == 1
    case 4 => v / 16 % 2 == 1
    case 5 => v / 32 % 2 == 1
    case 6 => v / 64 % 2 == 1
    case _ => v >= 128
  }

  /** Bit `k` of a number in two's complement. */
  predicate BitSet(x: int, k: nat)
    decreases k
  {
    if k == 0 then x % 2 == 1 else BitSet(x / 2, k - 1)
  }

  /** Two to the power `n`. */
  function Pow2(n: nat): (p: nat)
    ensures p > 0
  {
    if n == 0 then 1 else 2 * Pow2(n - 1)
  }

  lemma OneDown(x: nat, k: nat)
    ensures BitSet(x, k) <==> if k == 0 then x % 2 == 1 else BitSet(x / 2, k - 1)
  {
  }

  lemma {:induction false} HighBits(x: nat, n: nat, k: nat)
    ensures BitSet(x, n + k) <==> BitSet(x / Pow2(n), k)
    decreases n
  {
    if n > 0 {
      HighBits(x / 2, n - 1, k);
      DivTwice(x, Pow2(n - 1));
    }
  }

  lemma DivTwice(x: nat, p: nat)
    requires p > 0
    ensures x / 2 / p == x / (2 * p)
  {
    var q, r := x / (2 * p), x % (2 * p);
    assert x == q * (2 * p) + r && 0 <= r < 2 * p;
    assert x / 2 == q * p + r / 2;
    var s := x / 2 / p - q;
    assert x / 2 - q * p == r / 2 && 0 <= r / 2 < p;
    assert s * p == r / 2 - x / 2 % p;
  }

  /** The channels whose bit is set in a $420B/$420C mask. */
  function Channels(mask: byte): set<nat> {
    set k: nat | k < 8 && Bit(mask, k)
  }

  /** Banks $00-$3F and $80-$BF, where the low half of the bank holds WRAM and registers. */
  predicate SystemBank(bank: byte) {
    bank <= 0x3F || 0x80 <= bank <= 0xBF
  }

  /** Master clocks of one bus access. */
  function MemSpeed(bank: byte, off: word, fastRom: bool): (n: nat)
    ensures 6 <= n <= 12
  {
    if bank <= 0x3F then
      if off <= 0x1FFF then 8
      else if off <= 0x3FFF then 6
      else if off <= 0x41FF then 12
      else if off <= 0x5FFF then 6
      else 8
    else if bank <= 0x7F then 8
    else if bank <= 0xBF then
      if off <= 0x1FFF then 8
      else if off <= 0x3FFF then 6
      else if off <= 0x41FF then 12
      else if off <= 0x5FFF then 6
      else if off <= 0x7FFF then 8
      else if fastRom then 6 else 8
    else if fastRom then 6 else 8
  }

  /**
   What the table of access times says: 12 clocks in one window of the system banks only, 6 in the
   register space around it, 8 elsewhere; the FastROM bit makes just the ROM of the upper banks cheaper,
   and below $8000 banks $80-$BF cost what banks $00-$3F do.
   */
  lemma AccessCosts(bank: byte, off: word, fastRom: bool)
    ensures MemSpeed(bank, off, fastRom) == 12 <==> SystemBank(bank) && 0x4000 <= off <= 0x41FF
    ensures MemSpeed(bank, off, false) == 6
            <==> SystemBank(bank) && (0x2000 <= off <= 0x3FFF || 0x4200 <= off <= 0x5FFF)
    ensures MemSpeed(bank, off, false) != 12 && MemSpeed(bank, off, false) != 6 ==> MemSpeed(bank, off, false) == 8
    ensures MemSpeed(bank, off, true) != MemSpeed(bank, off, false)
            <==> bank >= 0x80 && (off >= 0x8000 || !SystemBank(bank))
    ensures MemSpeed(bank, off, true) != MemSpeed(bank, off, false) ==> MemSpeed(bank, off, true) == 6
    ensures bank <= 0x3F && off < 0x8000 ==> MemSpeed(bank + 0x80, off, fastRom) == MemSpeed(bank, off, fastRom)
  {
  }
}
