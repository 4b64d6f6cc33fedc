/** The newc archive writer, and a reader of the New ASCII Format that recovers what was written. */
module Newc {
  import opened Timing

  const U32 := 0x1_0000_0000
  const HEADER := 110

  type u32 = n: nat | n < U32

  datatype Entry = Entry(path: seq<byte>, mode: u32, data: seq<byte>)

  /** "TRAILER!!!" and "070701" in ASCII. */
  const TRAILER: seq<byte> := [0x54, 0x52, 0x41, 0x49, 0x4C, 0x45, 0x52, 0x21, 0x21, 0x21]
  const MAGIC: seq<byte> := [0x30, 0x37, 0x30, 0x37, 0x30, 0x31]

  lemma ConstantsSpelled()
    ensures |MAGIC| == 6 && forall i :: 0 <= i < 6 ==> MAGIC[i] as char == "070701"[i]
    ensures |TRAILER| == 10 && forall i :: 0 <= i < 10 ==> TRAILER[i] as char == "TRAILER!!!"[i]
  {
  }

  // ---- Hexadecimal fields ----

  type Nibble = n: nat | n < 16

  function Digit(n: Nibble): byte { if n < 10 then 0x30 + n else 0x61 + n - 10 }

  /** Either case is read. */
  function DigitValue(b: byte): Option<Nibble> {
    if 0x30 <= b <= 0x39 then Some(b - 0x30)
    else if 0x61 <= b <= 0x66 then Some(b - 0x61 + 10)
    else if 0x41 <= b <= 0x46 then Some(b - 0x41 + 10)
    else None
  }

  /** The sixteen digits as they are written, in ASCII, and the capitals a reader also takes. */
  const DIGITS: seq<byte> :=
    [0x30, 0x31, 0x32, 0x33, 0x34, 0x35, 0x36, 0x37, 0x38, 0x39, 0x61, 0x62, 0x63, 0x64, 0x65, 0x66]
  const CAPITALS: seq<byte> := [0x41, 0x42, 0x43, 0x44, 0x45, 0x46]

  /** Digits are written in lower case, and nothing but a digit is read as one. */
  lemma DigitsMean(n: Nibble, b: byte)
    ensures Digit(n) == DIGITS[n]
    ensures DigitValue(b) == Some(n) <==> b == DIGITS[n] || (n >= 10 && b == CAPITALS[n - 10])
    ensures DigitValue(b) == None <==> b !in DIGITS + CAPITALS
  {
    assert b in DIGITS + CAPITALS <==> b in DIGITS || b in CAPITALS;
  }

  function Hex(n: nat, width: nat): (s: seq<byte>)
    ensures |s| == width
    decreases width
  {
    if width == 0 then [] else Hex(n / 16, width - 1) + [Digit(n % 16)]
  }

  function HexValue(s: seq<byte>): Option<nat>
    decreases s
  {
    if s == [] then Some(0)
    else
      var high, low := HexValue(s[..|s| - 1]), DigitValue(s[|s| - 1]);
      if high.None? || low.None? then None else Some(16 * high.value + low.value)
  }

  function Limit(width: nat): nat { if width == 0 then 1 else 16 * Limit(width - 1) }

  lemma {:induction false} HexReads(n: nat, width: nat)
    requires n < Limit(width)
    ensures HexValue(Hex(n, width)) == Some(n)
    decreases width
  {
    if width > 0 {
      HexReads(n / 16, width - 1);
      var s := Hex(n, width);
      assert s[..|s| - 1] == Hex(n / 16, width - 1);
    }
  }

  lemma WordReads(n: u32)
    ensures HexValue(Hex(n, 8)) == Some(n)
  {
    assert Limit(8) == U32 by {
      assert Limit(2) == 0x100 && Limit(4) == 0x1_0000 && Limit(6) == 0x100_0000;
    }
    HexReads(n, 8);
  }

  function Fields(words: seq<u32>): (s: seq<byte>)
    ensures |s| == 8 * |words|
    decreases words
  {
    if words == [] then [] else Fields(words[..|words| - 1]) + Hex(words[|words| - 1], 8)
  }

  lemma SliceOfSum(a: seq<byte>, b: seq<byte>, from: nat, to: nat)
    requires from <= to <= |a| + |b|
    ensures to <= |a| ==> (a + b)[from..to] == a[from..to]
    ensures from == |a| && to == |a| + |b| ==> (a + b)[from..to] == b
  {
  }

  lemma {:induction false} FieldAt(words: seq<u32>, k: nat)
    requires k < |words|
    ensures Fields(words)[8 * k..8 * k + 8] == Hex(words[k], 8)
    decreases words
  {
    hide Hex;
    var n := |words| - 1;
    SliceOfSum(Fields(words[..n]), Hex(words[n], 8), 8 * k, 8 * k + 8);
    if k < n { FieldAt(words[..n], k); }
  }

  // ---- Writing ----

  function Zeros(n: nat): seq<byte> { seq(n, i => 0) }
  function Round4(n: nat): (r: nat)
    ensures r % 4 == 0 && n <= r < n + 4
  {
    n + (4 - n % 4) % 4
  }

  function Pad4(s: seq<byte>): (r: seq<byte>)
    ensures |r| == Round4(|s|) && s <= r && forall i :: |s| <= i < |r| ==> r[i] == 0
  {
    s + Zeros(Round4(|s|) - |s|)
  }

  /** Link count 2 for a directory, 1 otherwise; lengths are kept to 32 bits. */
  function Words(ino: u32, e: Entry): (w: seq<u32>)
    ensures |w| == 13
  {
    [ino, e.mode, 0, 0, if Directory(e) then 2 else 1, 0, |e.data| % U32, 0, 0, 0, 0, (|e.path| + 1) % U32, 0]
  }

  function Head(ino: u32, e: Entry): (s: seq<byte>)
    ensures |s| == HEADER + |e.path| + 1
  {
    MAGIC + Fields(Words(ino, e)) + e.path + [0]
  }

  /** Two aligned parts make an aligned whole. */
  function Join(a: seq<byte>, b: seq<byte>): (s: seq<byte>)
    requires |a| % 4 == 0 && |b| % 4 == 0
    ensures |s| % 4 == 0
  {
    a + b
  }

  function Encode(ino: u32, e: Entry): (s: seq<byte>)
    ensures |s| % 4 == 0
  {
    Join(Pad4(Head(ino, e)), Pad4(e.data))
  }

  const END := Entry(TRAILER, 0, [])

  /** The entries numbered from `first` on, and the trailer. */
  function Archive(es: seq<Entry>, first: nat): seq<byte>
    decreases es
  {
    if es == [] then Encode(first % U32, END) else Encode(first % U32, es[0]) + Archive(es[1..], first + 1)
  }

  // ---- Reading, from the New ASCII Format of cpio(5) ----

  function CString(s: seq<byte>): (r: seq<byte>)
    ensures r <= s
    decreases s
  {
    if s == [] || s[0] == 0 then [] else [s[0]] + CString(s[1..])
  }

  datatype Read = Read(entry: Entry, rest: seq<byte>)

  function Word(s: seq<byte>, k: nat): Option<nat>
    requires |s| >= HEADER && k < 13
  {
    HexValue(s[6 + 8 * k..14 + 8 * k])
  }

  /** Header and path together, and the data, are each padded to a multiple of four. */
  function ReadEntry(s: seq<byte>): Option<Read> {
    if |s| < HEADER || s[..6] != MAGIC then None
    else
      var mode, size, name := Word(s, 1), Word(s, 6), Word(s, 11);
      if mode.None? || size.None? || name.None? || mode.value >= U32 || name.value == 0 then None
      else
        var body := Round4(HEADER + name.value);
        var next := body + Round4(size.value);
        if |s| < next || s[HEADER + name.value - 1] != 0 then None
        else Some(Read(Entry(CString(s[HEADER..HEADER + name.value]), mode.value, s[body..body + size.value]),
          s[next..]))
  }

  function ReadArchive(s: seq<byte>): Option<seq<Entry>>
    decreases |s|
  {
    var r := ReadEntry(s);
    if r.None? then None
    else if r.value.entry.path == TRAILER then Some([])
    else
      ReadShrinks(s);
      var rest := ReadArchive(r.value.rest);
      if rest.None? then None else Some([r.value.entry] + rest.value)
  }

  lemma ReadShrinks(s: seq<byte>)
    requires ReadEntry(s).Some?
    ensures |ReadEntry(s).value.rest| < |s|
  {
    hide HexValue, CString;
  }

  // ---- Round trip ----

  /** Sizes that fit their fields. */
  predicate Fits(e: Entry) { |e.data| < U32 && |e.path| + 1 < U32 }

  predicate Directory(e: Entry) { e.mode / 0x1000 % 0x10 == 4 }

  /** The file type is in bits 12 to 15 of the mode, and a directory's is 4. */
  lemma {:induction false} DirectoryMeans(e: Entry)
    ensures Directory(e) <==>
            !BitSet(e.mode, 12) && !BitSet(e.mode, 13) && BitSet(e.mode, 14) && !BitSet(e.mode, 15)
  {
    hide BitSet;
    Thousand();
    HighBits(e.mode, 12, 0);
    HighBits(e.mode, 12, 1);
    HighBits(e.mode, 12, 2);
    HighBits(e.mode, 12, 3);
    FourBits(e.mode / 0x1000);
  }

  lemma Thousand()
    ensures Pow2(12) == 0x1000
  {
    assert Pow2(4) == 16;
    assert Pow2(8) == 16 * Pow2(4) by { assert Pow2(6) == 4 * Pow2(4); }
    assert Pow2(10) == 4 * Pow2(8);
  }

  lemma FourBits(m: nat)
    ensures m % 16 == 4 <==> !BitSet(m, 0) && !BitSet(m, 1) && BitSet(m, 2) && !BitSet(m, 3)
  {
    hide BitSet;
    OneDown(m, 0);
    OneDown(m, 1);
    OneDown(m, 2);
    OneDown(m, 3);
    OneDown(m / 2, 0);
    OneDown(m / 2, 1);
    OneDown(m / 2, 2);
    OneDown(m / 2 / 2, 0);
    OneDown(m / 2 / 2, 1);
    OneDown(m / 2 / 2 / 2, 0);
    Binary(m);
  }

  lemma Binary(m: nat)
    ensures m % 16 == m % 2 + 2 * (m / 2 % 2) + 4 * (m / 2 / 2 % 2) + 8 * (m / 2 / 2 / 2 % 2)
  {
    var (h, q, e) := (m / 2, m / 2 / 2, m / 2 / 2 / 2);
    Sixteen(m % 2 + 2 * (h % 2) + 4 * (q % 2) + 8 * (e % 2), e / 2);
  }

  lemma Sixteen(low: nat, high: nat)
    requires low < 16
    ensures (low + 16 * high) % 16 == low
  {
  }

  lemma HeaderStarts(ino: u32, e: Entry, tail: seq<byte>)
    ensures var s := Encode(ino, e) + tail;
            |s| >= HEADER && s[..6] == MAGIC && s[6..HEADER] == Fields(Words(ino, e))
  {
    hide Fields, Words, Round4;
    var s, head := Encode(ino, e) + tail, Head(ino, e);
    assert s[..|head|] == head;
    assert s[6..HEADER] == head[6..HEADER];
  }

  lemma SliceOfSlice(s: seq<byte>, a: nat, b: nat, i: nat, j: nat)
    requires a <= b <= |s| && i <= j <= b - a
    ensures s[a..b][i..j] == s[a + i..a + j]
  {
    var inner, direct := s[a..b][i..j], s[a + i..a + j];
    assert |inner| == |direct| && forall k :: 0 <= k < |inner| ==> inner[k] == s[a + i + k] == direct[k];
    assert inner == direct;
  }

  lemma WordIs(ino: u32, e: Entry, tail: seq<byte>, k: nat)
    requires k < 13
    ensures |Encode(ino, e) + tail| >= HEADER && Word(Encode(ino, e) + tail, k) == Some(Words(ino, e)[k])
  {
    hide Hex, HexValue, Fields, Words, Encode;
    var s, words := Encode(ino, e) + tail, Words(ino, e);
    HeaderStarts(ino, e, tail);
    FieldAt(words, k);
    WordReads(words[k]);
    SliceOfSlice(s, 6, HEADER, 8 * k, 8 * k + 8);
    assert 6 + (8 * k + 8) == 14 + 8 * k;
  }

  /** Every header field says what the format wants of it: number, mode, links, sizes, and zeros elsewhere. */
  lemma HeadReads(ino: u32, e: Entry, tail: seq<byte>)
    requires Fits(e)
    ensures var s := Encode(ino, e) + tail;
            && |s| >= HEADER && s[..6] == MAGIC
            && Word(s, 0) == Some(ino) && Word(s, 1) == Some(e.mode)
               && Word(s, 4) == Some(if Directory(e) then 2 else 1)
            && Word(s, 6) == Some(|e.data|) && Word(s, 11) == Some(|e.path| + 1)
            && Word(s, 2) == Word(s, 3) == Word(s, 5) == Word(s, 7) == Some(0)
            && Word(s, 8) == Word(s, 9) == Word(s, 10) == Word(s, 12) == Some(0)
  {
    hide Word, Encode, Words;
    HeaderStarts(ino, e, tail);
    forall k: nat | k < 13 ensures Word(Encode(ino, e) + tail, k) == Some(Words(ino, e)[k]) {
      WordIs(ino, e, tail, k);
    }
    WordsMean(ino, e);
  }

  lemma WordsMean(ino: u32, e: Entry)
    requires Fits(e)
    ensures var w := Words(ino, e);
            && |w| == 13 && w[0] == ino && w[1] == e.mode && w[4] == (if Directory(e) then 2 else 1)
            && w[6] == |e.data| && w[11] == |e.path| + 1
            && w[2] == w[3] == w[5] == w[7] == w[8] == w[9] == w[10] == w[12] == 0
  {
  }

  lemma BodyReads(ino: u32, e: Entry, tail: seq<byte>)
    ensures var s, body := Encode(ino, e) + tail, Round4(HEADER + |e.path| + 1);
            && |s| >= body + Round4(|e.data|)
            && s[HEADER..HEADER + |e.path| + 1] == e.path + [0] && s[HEADER + |e.path|] == 0
            && s[body..body + |e.data|] == e.data && s[body + Round4(|e.data|)..] == tail
  {
    hide Fields, Round4;
    var s, head := Encode(ino, e) + tail, Head(ino, e);
    assert s[..|head|] == head;
    assert s[HEADER..HEADER + |e.path| + 1] == head[HEADER..];
  }

  lemma {:induction false} CStringStops(p: seq<byte>)
    ensures CString(p + [0]) == CString(p)
    decreases p
  {
    if p == [] {
      assert (p + [0])[0] == 0;
    } else {
      assert (p + [0])[0] == p[0] && (p + [0])[1..] == p[1..] + [0];
      CStringStops(p[1..]);
    }
  }

  lemma {:induction false} CStringWhole(p: seq<byte>)
    ensures CString(p) == p <==> 0 !in p
    decreases p
  {
    if p != [] {
      CStringWhole(p[1..]);
      assert p == [p[0]] + p[1..];
    }
  }

  /** What a reader makes of one written entry: everything back, the path up to its first NUL. */
  lemma EntryReads(ino: u32, e: Entry, tail: seq<byte>)
    requires Fits(e)
    ensures ReadEntry(Encode(ino, e) + tail) == Some(Read(e.(path := CString(e.path)), tail))
  {
    hide Encode, Word, CString;
    HeadReads(ino, e, tail);
    BodyReads(ino, e, tail);
    CStringStops(e.path);
  }

  predicate Plain(e: Entry) { 0 !in e.path && e.path != TRAILER }

  /**
   Round trip: a reader recovers exactly the entries written if and only if no path holds a NUL or
   is the trailer's.
   */
  lemma {:induction false} RoundTrip(es: seq<Entry>, first: nat)
    requires forall i :: 0 <= i < |es| ==> Fits(es[i])
    ensures ReadArchive(Archive(es, first)) == Some(es) <==> forall i :: 0 <= i < |es| ==> Plain(es[i])
    decreases es
  {
    hide Encode, ReadEntry, CString;
    if es == [] {
      TrailerReads(first % U32);
    } else {
      var rest := Archive(es[1..], first + 1);
      EntryReads(first % U32, es[0], rest);
      CStringWhole(es[0].path);
      RoundTrip(es[1..], first + 1);
      PlainSplits(es);
      assert es == [es[0]] + es[1..];
    }
  }

  lemma PlainSplits(es: seq<Entry>)
    requires es != []
    ensures (forall i :: 0 <= i < |es| ==> Plain(es[i])) <==>
            Plain(es[0]) && forall i :: 0 <= i < |es[1..]| ==> Plain(es[1..][i])
  {
    hide Plain;
    assert es == [es[0]] + es[1..];
  }

  lemma TrailerReads(ino: u32)
    ensures ReadArchive(Encode(ino, END)) == Some([])
  {
    hide Encode, ReadEntry, CString;
    EntryReads(ino, END, []);
    assert Encode(ino, END) + [] == Encode(ino, END);
    CStringWhole(TRAILER);
  }

  /** A file named like the trailer ends the archive for a reader: it and all after it are lost. */
  lemma TrailerNameLost(es: seq<Entry>, first: nat)
    requires es != [] && Fits(es[0]) && es[0].path == TRAILER
    ensures ReadArchive(Archive(es, first)) == Some([])
  {
    hide Encode, ReadEntry, CString;
    EntryReads(first % U32, es[0], Archive(es[1..], first + 1));
    CStringWhole(TRAILER);
  }

  /** Where entry `i` starts, and that its header is there, four-aligned. */
  function Offset(es: seq<Entry>, first: nat, i: nat): nat
    requires i <= |es|
    decreases i
  {
    if i == 0 then 0 else |Encode(first % U32, es[0])| + Offset(es[1..], first + 1, i - 1)
  }

  /** Every entry, and the trailer after the last, starts at a multiple of four with the magic. */
  lemma {:induction false} HeadersAligned(es: seq<Entry>, first: nat, i: nat)
    requires i <= |es|
    ensures var at := Offset(es, first, i);
            at % 4 == 0 && at <= |Archive(es, first)|
            && Archive(es, first)[at..] == Archive(es[i..], first + i)
            && MAGIC <= Archive(es[i..], first + i)
    decreases i
  {
    hide Encode, Offset, Archive;
    StartsWithMagic(es[i..], first + i);
    if i == 0 {
      OffsetZero(es, first);
      assert es[0..] == es;
    } else {
      HeadersAligned(es[1..], first + 1, i - 1);
      assert es[1..][i - 1..] == es[i..];
      OffsetStep(es, first, i);
      ArchiveStep(es, first);
    }
  }

  lemma ArchiveStep(es: seq<Entry>, first: nat)
    requires es != []
    ensures Archive(es, first) == Encode(first % U32, es[0]) + Archive(es[1..], first + 1)
    ensures |Encode(first % U32, es[0])| % 4 == 0
  {
  }

  lemma OffsetZero(es: seq<Entry>, first: nat)
    ensures Offset(es, first, 0) == 0
  {
  }

  lemma OffsetStep(es: seq<Entry>, first: nat, i: nat)
    requires 0 < i <= |es|
    ensures Offset(es, first, i) == |Encode(first % U32, es[0])| + Offset(es[1..], first + 1, i - 1)
  {
  }

  lemma StartsWithMagic(es: seq<Entry>, first: nat)
    ensures MAGIC <= Archive(es, first)
  {
    hide Fields, Round4;
    var e := if es == [] then END else es[0];
    assert MAGIC <= Head(first % U32, e) <= Encode(first % U32, e) <= Archive(es, first);
  }
}
