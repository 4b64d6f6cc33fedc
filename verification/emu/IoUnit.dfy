/** The CPU's own I/O registers: multiplier and divider, the output port, and the first controller. */
module IoUnit {
  import opened Timing

  const HBLANK_START_DOT := 274

  /** `pad` is the platform's word, latched for the frame; `joy1` the console's, latched by a read. */
  datatype Joypad = Joypad(pad: word, joy1: word, strobe: bool, shift: nat)

  datatype IoRegs = IoRegs(
    wrio: byte,
    wrmpya: byte,
    wrdiv: word,
    rddiv: word,
    rdmpy: word,
    joypad: Joypad,
    joyPrev: word,
    autoJoyBusy: bool)

  const POWER_ON_IO := IoRegs(0xFF, 0xFF, 0xFFFF, 0, 0, Joypad(0, 0, false, 0), 0, false)

  // ---- The controller ----

  /** A number from its bits, the highest first. */
  function FromBits(bits: seq<bool>): (n: nat)
    ensures n < Pow2(|bits|)
  {
    if bits == [] then 0 else 2 * FromBits(bits[..|bits| - 1]) + (if bits[|bits| - 1] then 1 else 0)
  }

  /** Where the console's order, highest bit first, finds each button in the platform's. */
  const NATIVE_ORDER: seq<nat> := [1, 3, 11, 10, 6, 7, 8, 9, 0, 2, 4, 5]

  function NativeWord(pad: word): word {
    var bits := seq(16, i requires 0 <= i < 16 => i < 12 && BitSet(pad, NATIVE_ORDER[i]));
    assert Pow2(16) == 0x1_0000 by { PowersOfTwo(); }
    FromBits(bits)
  }

  lemma PowersOfTwo()
    ensures Pow2(4) == 0x10 && Pow2(8) == 0x100 && Pow2(12) == 0x1000 && Pow2(16) == 0x1_0000
  {
    assert Pow2(4) == 0x10;
    assert Pow2(6) == 4 * Pow2(4);
    assert Pow2(8) == 4 * Pow2(6);
    assert Pow2(10) == 4 * Pow2(8);
    assert Pow2(12) == 4 * Pow2(10);
    assert Pow2(14) == 4 * Pow2(12);
    assert Pow2(16) == 4 * Pow2(14);
  }

  function LatchPad(j: Joypad): Joypad { j.(joy1 := NativeWord(j.pad), shift := 0) }

  /** Letting go of the strobe latches the buttons. */
  function WriteStrobe(j: Joypad, v: byte): Joypad {
    (if j.strobe && v % 2 == 0 then LatchPad(j) else j).(strobe := v % 2 == 1)
  }

  /** The first bit while the strobe is held, then the word bit by bit, then ones. */
  function ReadSerial(j: Joypad): (byte, Joypad) {
    if j.strobe then (j.joy1 / 0x8000, j)
    else if j.shift >= 16 then (1, j)
    else (if BitSet(j.joy1, 15 - j.shift) then 1 else 0, j.(shift := j.shift + 1))
  }

  /** The controller is read as vertical blank begins; for three lines the old word stays in view. */
  function LineIo(io: IoRegs, line: nat, vblankStart: nat, enabled: bool): IoRegs {
    if line == 0 then io
    else if line == vblankStart then
      if enabled then io.(joyPrev := io.joypad.joy1, joypad := LatchPad(io.joypad), autoJoyBusy := true) else io
    else if line == vblankStart + 3 then io.(autoJoyBusy := false)
    else io
  }

  function JoyInView(io: IoRegs): word { if io.autoJoyBusy then io.joyPrev else io.joypad.joy1 }

  // ---- Registers ----

  predicate IoReadAddress(off: word) { off == 0x4016 || off == 0x4017 || 0x4212 <= off <= 0x421F }
  predicate IoWriteAddress(off: word) { off == 0x4016 || 0x4201 <= off <= 0x4206 }

  /** `mdr` is the open-bus value some of the bits come from. */
  function ReadIo(io: IoRegs, off: word, mdr: byte, vblank: bool, hblank: bool): (byte, IoRegs)
    requires IoReadAddress(off)
  {
    if off == 0x4016 then
      var (bit, j) := ReadSerial(io.joypad);
      (mdr / 4 * 4 + bit % 2, io.(joypad := j))
    else if off == 0x4017 then (mdr / 0x20 * 0x20 + 0x1C, io)
    else if off == 0x4212 then
      ((if vblank then 0x80 else 0) + (if hblank then 0x40 else 0) + mdr % 0x40 / 2 * 2
        + (if io.autoJoyBusy then 1 else 0),
       io)
    else if off == 0x4213 then (io.wrio, io)
    else if off == 0x4214 then (io.rddiv % 0x100, io)
    else if off == 0x4215 then (io.rddiv / 0x100, io)
    else if off == 0x4216 then (io.rdmpy % 0x100, io)
    else if off == 0x4217 then (io.rdmpy / 0x100, io)
    else if off == 0x4218 then (JoyInView(io) % 0x100, io)
    else if off == 0x4219 then (JoyInView(io) / 0x100, io)
    else (0, io)
  }

  /** Division by zero gives the largest quotient and the dividend as remainder. */
  function Divide(io: IoRegs, v: byte): IoRegs {
    if v == 0 then io.(rddiv := 0xFFFF, rdmpy := io.wrdiv)
    else io.(rddiv := io.wrdiv / v, rdmpy := io.wrdiv % v)
  }

  function WriteIo(io: IoRegs, off: word, v: byte): IoRegs
    requires IoWriteAddress(off)
  {
    if off == 0x4016 then io.(joypad := WriteStrobe(io.joypad, v))
    else if off == 0x4201 then io.(wrio := v)
    else if off == 0x4202 then io.(wrmpya := v)
    else if off == 0x4203 then io.(rdmpy := io.wrmpya * v)
    else if off == 0x4204 then io.(wrdiv := io.wrdiv / 0x100 * 0x100 + v)
    else if off == 0x4205 then io.(wrdiv := v * 0x100 + io.wrdiv % 0x100)
    else Divide(io, v)
  }
}
