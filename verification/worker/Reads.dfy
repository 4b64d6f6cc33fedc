/** What reads, captures and runs answer, in terms of the guest alone. */
module Reads {
  import opened Timing
  import opened Guest
  import opened Slots
  import opened Worker

  // ---- Bytes of the regions ----

  function RegionLength(f: Fixture, r: Region): Option<nat> {
    match r
    case Wram => Some(f.wramSize)
    case Framebuffer => Some(0x3_8000)
    case MetaPage => Some(4096)
    case UnknownRegion => None
  }

  /** Byte `k`, counted from the lowest, of a number. */
  function ByteOf(x: nat, k: nat): byte { if k == 0 then x % 0x100 else ByteOf(x / 0x100, k - 1) }

  lemma {:induction false} LeBytes(x: nat, width: nat, k: nat)
    requires k < width
    ensures Le(x, width)[k] == ByteOf(x, k)
    decreases width
  {
    if k > 0 {
      LeBytes(x / 0x100, width - 1, k - 1);
    }
  }

  /** The harness page: version at 0, status at 4, frame at 8, last pad at 16, nothing else. */
  function MetaByte(g: GuestState, at: nat): byte {
    if at == 0 then 1
    else if at == 4 then (if g.running then 2 else 1)
    else if 8 <= at < 16 then ByteOf(g.metaFrame, at - 8)
    else if 16 <= at < 18 then ByteOf(g.lastPad, at - 16)
    else 0
  }

  lemma SmallBytes(x: byte, k: nat)
    ensures ByteOf(x, k) == if k == 0 then x else 0
    decreases k
  {
    if k > 1 { SmallBytes(0, k - 1); }
  }

  lemma MetaBytes(g: GuestState, at: nat)
    requires at < 4096
    ensures MetaView(g)[at] == MetaByte(g, at)
  {
    hide Le, ByteOf;
    var status: byte := if g.running then 2 else 1;
    if at < 4 {
      LeBytes(1, 4, at);
      SmallBytes(1, at);
    } else if at < 8 {
      LeBytes(status, 4, at - 4);
      SmallBytes(status, at - 4);
    } else if at < 16 {
      LeBytes(g.metaFrame, 8, at - 8);
    } else if at < 18 {
      LeBytes(g.lastPad, 2, at - 16);
    }
  }

  /** Every bit of the fill is the room's, four places up, unless the frame number flips it. */
  predicate FillByte(g: GuestState, v: byte) {
    forall k | 0 <= k < 8 :: BitSet(v, k) <==> ((k >= 4 && BitSet(g.room, k - 4)) != BitSet(g.frame, k))
  }

  lemma FillIsFill(g: GuestState)
    ensures FillByte(g, Fill(g))
  {
    forall k | 0 <= k < 8
      ensures BitSet(Fill(g), k) <==> ((k >= 4 && BitSet(g.room, k - 4)) != BitSet(g.frame, k))
    {
      XorBits(g.room * 16, g.frame, 8, k);
      FourUp(g.room, k);
    }
  }

  lemma FourUp(x: nat, k: nat)
    ensures BitSet(x * 16, k) <==> k >= 4 && BitSet(x, k - 4)
  {
    Doubled(x * 8, k);
    if k >= 1 { Doubled(x * 4, k - 1); }
    if k >= 2 { Doubled(x * 2, k - 2); }
    if k >= 3 { Doubled(x, k - 3); }
  }

  lemma Doubled(x: nat, k: nat)
    ensures BitSet(x * 2, k) <==> k >= 1 && BitSet(x, k - 1)
  {
  }

  /** Byte `at` of a region of the guest. */
  predicate RegionByte(f: Fixture, g: GuestState, r: Region, at: nat, v: byte) {
    match r
    case Wram => v == if at == f.roomOffset then g.room else 0
    case Framebuffer => FillByte(g, v)
    case MetaPage => v == MetaByte(g, at)
    case UnknownRegion => false
  }

  // ---- Reads ----

  /** The range is of a region of layout version 1 and lies inside it. */
  predicate Readable(f: Fixture, r: Range) {
    var n := RegionLength(f, r.region);
    n.Some? && r.layoutVersion == 1 && r.offset + r.len <= n.value
  }

  /** The bytes a range stands for. */
  predicate Shows(f: Fixture, g: GuestState, r: Range, chunk: seq<byte>) {
    |chunk| == r.len && forall i | 0 <= i < r.len :: RegionByte(f, g, r.region, r.offset + i, chunk[i])
  }

  /** Why a range is refused: the region is looked at before its version, and that before the bounds. */
  predicate RefusedFor(f: Fixture, r: Range, e: Status) {
    && !Readable(f, r)
    && (e == RegionNotInManifest <==> r.region.UnknownRegion?)
    && (e == LayoutMismatch <==> !r.region.UnknownRegion? && r.layoutVersion != 1)
    && e in {RegionNotInManifest, LayoutMismatch, ReadTooLong}
  }

  lemma ViewBytes(f: Fixture, g: GuestState, r: Region, at: nat)
    requires !r.UnknownRegion? && at < RegionLength(f, r).value
    ensures |View(f, g, r)| == RegionLength(f, r).value && RegionByte(f, g, r, at, View(f, g, r)[at])
  {
    hide FillByte, Fill, MetaByte, MetaView;
    match r {
      case Wram =>
      case Framebuffer => FillIsFill(g);
      case MetaPage => MetaBytes(g, at);
    }
  }

  lemma ViewLength(f: Fixture, g: GuestState, r: Region)
    requires !r.UnknownRegion?
    ensures |View(f, g, r)| == RegionLength(f, r).value
  {
    hide WramView, MetaView, FramebufferView;
    assert |WramView(f, g)| == f.wramSize by { WramLength(f, g); }
  }

  lemma WramLength(f: Fixture, g: GuestState)
    ensures |WramView(f, g)| == f.wramSize
  {
  }

  lemma RegionReads(f: Fixture, g: GuestState, r: Range)
    ensures ReadRegion(f, g, r).Ok? ==> Readable(f, r) && Shows(f, g, r, ReadRegion(f, g, r).value)
    ensures ReadRegion(f, g, r).Err? ==> RefusedFor(f, r, ReadRegion(f, g, r).status)
  {
    hide View, RegionByte;
    if !r.region.UnknownRegion? { ViewLength(f, g, r.region); }
    if ReadRegion(f, g, r).Ok? {
      forall i | 0 <= i < r.len ensures RegionByte(f, g, r.region, r.offset + i, ReadRegion(f, g, r).value[i]) {
        ViewBytes(f, g, r.region, r.offset + i);
      }
    }
  }

  lemma RefusedUnreadable(f: Fixture, r: Range, e: Status)
    requires RefusedFor(f, r, e)
    ensures !Readable(f, r)
  {
  }

  /** The first range that cannot be read is the one reported. */
  predicate FirstRefused(f: Fixture, ranges: seq<Range>, k: nat, e: Status) {
    k < |ranges| && RefusedFor(f, ranges[k], e) && forall j | 0 <= j < k :: Readable(f, ranges[j])
  }

  /**
   A read of several ranges is answered exactly when each of them can be read, chunk by chunk with
   the bytes of its range; otherwise the first range that cannot be read says why.
   */
  lemma {:induction false} RangesRead(f: Fixture, g: GuestState, ranges: seq<Range>) returns (k: nat)
    ensures var got := ReadRegions(f, g, ranges);
            && (got.Ok? <==> forall j | 0 <= j < |ranges| :: Readable(f, ranges[j]))
            && (got.Ok? ==> |got.value| == |ranges|
                            && forall j | 0 <= j < |ranges| :: Shows(f, g, ranges[j], got.value[j]))
            && (got.Err? ==> FirstRefused(f, ranges, k, got.status))
    decreases ranges
  {
    hide Readable, Shows, RefusedFor, ReadRegion;
    k := 0;
    if ranges != [] {
      RegionReads(f, g, ranges[0]);
      if ReadRegion(f, g, ranges[0]).Ok? {
        var rest := RangesRead(f, g, ranges[1..]);
        assert ranges == [ranges[0]] + ranges[1..];
        k := rest + 1;
        assert forall j | 1 <= j < |ranges| :: ranges[j] == ranges[1..][j - 1];
      } else {
        RefusedUnreadable(f, ranges[0], ReadRegion(f, g, ranges[0]).status);
      }
    }
  }

  /** A range cut in two is read exactly when both parts are, and the parts put together are the whole. */
  lemma AdjoiningRanges(f: Fixture, g: GuestState, r: Range, cut: nat)
    requires cut <= r.len
    ensures var parts := ReadRegions(f, g, [r.(len := cut), r.(offset := r.offset + cut, len := r.len - cut)]);
            var whole := ReadRegions(f, g, [r]);
            && (whole.Ok? <==> parts.Ok?)
            && (whole.Ok? && parts.Ok? ==> |whole.value| == 1 && |parts.value| == 2
                                           && whole.value[0] == parts.value[0] + parts.value[1])
  {
    hide View;
    var low, high := r.(len := cut), r.(offset := r.offset + cut, len := r.len - cut);
    assert [r][1..] == [] && [low, high][1..] == [high] && [high][1..] == [];
  }

  // ---- Captures ----

  /** How many bytes the ranges before the `j`-th ask for. */
  function Start(ranges: seq<Range>, j: nat): nat
    requires j <= |ranges|
    decreases j
  {
    if j == 0 then 0 else Start(ranges, j - 1) + ranges[j - 1].len
  }

  predicate Frame(g: GuestState, pixels: seq<byte>) {
    |pixels| == 0x3_8000 && forall i | 0 <= i < |pixels| :: FillByte(g, pixels[i])
  }

  lemma FrameShown(g: GuestState)
    ensures Frame(g, FramebufferView(g))
  {
    hide Fill, FillByte;
    FillIsFill(g);
  }

  /** The ranges one after the other, and the pixels exactly when they were asked for. */
  predicate Captured(f: Fixture, g: GuestState, spec: Option<CaptureSpec>, c: Capture) {
    if spec.None? then c.features == [] && c.pixels.None?
    else
      var ranges := spec.value.ranges;
      && |c.features| == Start(ranges, |ranges|)
      && (forall j | 0 <= j < |ranges| :: Start(ranges, j) + ranges[j].len <= |c.features| &&
            Shows(f, g, ranges[j], c.features[Start(ranges, j)..Start(ranges, j) + ranges[j].len]))
      && (c.pixels.Some? <==> spec.value.framebuffer)
      && (c.pixels.Some? ==> Frame(g, c.pixels.value))
  }

  predicate Fits(ranges: seq<Range>, chunks: seq<seq<byte>>) {
    |chunks| == |ranges| && forall j | 0 <= j < |ranges| :: |chunks[j]| == ranges[j].len
  }

  lemma {:induction false} StartOfRest(ranges: seq<Range>, j: nat)
    requires ranges != [] && 1 <= j <= |ranges|
    ensures Start(ranges, j) == ranges[0].len + Start(ranges[1..], j - 1)
    decreases j
  {
    if j > 1 { StartOfRest(ranges, j - 1); }
  }

  lemma {:induction false} Pieces(ranges: seq<Range>, chunks: seq<seq<byte>>, j: nat)
    requires Fits(ranges, chunks) && j < |ranges|
    ensures var (all, from) := (Concat(chunks), Start(ranges, j));
            && |all| == Start(ranges, |ranges|)
            && from + ranges[j].len <= |all| && all[from..from + ranges[j].len] == chunks[j]
    decreases chunks
  {
    var (rest, more) := (ranges[1..], chunks[1..]);
    StartOfRest(ranges, |ranges|);
    var head := ranges[0].len;
    if rest == [] {
      assert Concat(more) == [] && Concat(chunks) == chunks[0];
    } else if j == 0 {
      Pieces(rest, more, 0);
      assert Concat(chunks)[..head] == chunks[0];
    } else {
      Pieces(rest, more, j - 1);
      StartOfRest(ranges, j);
      var from := Start(rest, j - 1);
      assert Concat(chunks)[head + from..head + from + ranges[j].len] == Concat(more)[from..from + ranges[j].len];
    }
  }

  lemma CaptureHolds(f: Fixture, g: GuestState, spec: CaptureSpec, chunks: seq<seq<byte>>)
    requires |chunks| == |spec.ranges| && forall j | 0 <= j < |spec.ranges| :: Shows(f, g, spec.ranges[j], chunks[j])
    ensures var pixels := if spec.framebuffer then Some(FramebufferView(g)) else None;
            Captured(f, g, Some(spec), Capture(Concat(chunks), pixels))
  {
    hide Shows, Frame, FramebufferView, Start, Concat;
    var ranges := spec.ranges;
    FrameShown(g);
    assert Fits(ranges, chunks) by { ShownFits(f, g, ranges, chunks); }
    if ranges == [] { NoPieces(chunks); } else { Pieces(ranges, chunks, 0); }
    forall j | 0 <= j < |ranges|
      ensures var (all, from) := (Concat(chunks), Start(ranges, j));
              && |all| == Start(ranges, |ranges|) && from + ranges[j].len <= |all|
              && Shows(f, g, ranges[j], all[from..from + ranges[j].len])
    {
      Pieces(ranges, chunks, j);
    }
  }

  lemma ShownFits(f: Fixture, g: GuestState, ranges: seq<Range>, chunks: seq<seq<byte>>)
    requires |chunks| == |ranges| && forall j | 0 <= j < |ranges| :: Shows(f, g, ranges[j], chunks[j])
    ensures Fits(ranges, chunks)
  {
    hide RegionByte;
  }

  lemma NoPieces(chunks: seq<seq<byte>>)
    ensures chunks == [] ==> Concat(chunks) == []
    ensures Start([], 0) == 0
  {
  }

  /** A capture is refused as a read of its ranges would be. */
  lemma CaptureAnswered(f: Fixture, g: GuestState, spec: Option<CaptureSpec>) returns (k: nat)
    ensures var got := TakeCapture(f, g, spec);
            && (got.Ok? <==> spec.None? || forall j | 0 <= j < |spec.value.ranges| :: Readable(f, spec.value.ranges[j]))
            && (got.Ok? ==> Captured(f, g, spec, got.value))
            && (got.Err? ==> spec.Some? && FirstRefused(f, spec.value.ranges, k, got.status))
  {
    hide Readable, ReadRegions, Shows, RefusedFor, FramebufferView, FirstRefused, Concat;
    k := 0;
    if spec.Some? {
      k := RangesRead(f, g, spec.value.ranges);
      var got := ReadRegions(f, g, spec.value.ranges);
      if got.Ok? { CaptureHolds(f, g, spec.value, got.value); }
    }
  }

  // ---- At the worker ----

  /** The slot behind a lease that opens it. */
  predicate Opens(w: WorkerState, lease: Lease) {
    lease.slot in w.slots && w.slots[lease.slot].token == lease.token
  }

  /** What a read request is answered; it changes nothing. */
  lemma ReadAnswered(f: Fixture, w: WorkerState, lease: Lease, raw: nat, ranges: seq<Range>) returns (k: nat)
    requires Opens(w, lease)
    ensures var (u, answer) := OnLease(f, w, Some(lease), ReadMemory(raw, ranges));
            var g := w.slots[lease.slot].guest;
            && u == w && answer.FromSlot?
            && (answer.reply.Chunks? <==> raw == 0 && forall j | 0 <= j < |ranges| :: Readable(f, ranges[j]))
            && (answer.reply.Chunks? ==>
                  && answer.reply.readAt == 1000 * g.frame
                  && |answer.reply.chunks| == |ranges|
                  && forall j | 0 <= j < |ranges| :: Shows(f, g, ranges[j], answer.reply.chunks[j]))
            && (!answer.reply.Chunks? ==> answer.reply.Failed?)
            && (answer.reply.Failed? && raw > 0 ==> answer.reply.status == OnlyRegionReads)
            && (answer.reply.Failed? && raw == 0 ==> FirstRefused(f, ranges, k, answer.reply.status))
  {
    hide Readable, Shows, RefusedFor, ReadRegions;
    var s := w.slots[lease.slot];
    k := RangesRead(f, s.guest, ranges);
    assert w.slots[lease.slot := s] == w.slots;
  }

  lemma FramebufferAnswered(f: Fixture, w: WorkerState, lease: Lease)
    requires Opens(w, lease)
    ensures var (u, answer) := OnLease(f, w, Some(lease), GetFramebuffer);
            var g := w.slots[lease.slot].guest;
            && u == w && answer.FromSlot? && answer.reply.Pixels?
            && answer.reply.frame == g.frame && Frame(g, answer.reply.pixels)
  {
    hide FramebufferView, Frame;
    var s := w.slots[lease.slot];
    FrameShown(s.guest);
    assert w.slots[lease.slot := s] == w.slots;
  }
}
