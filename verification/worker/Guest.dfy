/** The synthetic guest: its fixture, its state, the frame step, the hash over it and what is readable of it. */
module Guest {
  import opened Timing

  const FB_BYTES := 0x3_8000
  const META_SIZE := 4096

  type PadWord = n: nat | n < 0x1_0000_0000

  /**
   Byte strings that name things. Hash outputs are kept as the terms that were hashed: distinct
   terms are distinct strings, and none is a string a fixture or client made up.
   */
  datatype Digest =
    | Given(id: nat)
    | HashOfGuest(frame: nat, room: byte, nonzeroPads: nat, lastPad: word, metaFrame: nat)
    | HashOfDigest(inner: Digest)
    | HashOfSlot(slot: nat)

  datatype FixtureFields = FixtureFields(
    readyRef: Digest,
    readyFrame: nat,
    wramSize: nat,
    roomOffset: nat,
    roomInitial: byte,
    roomTarget: byte,
    transitionAfterPads: nat,
    corruptMidRunRestores: bool)

  /** The READY root is a chosen reference, and the room byte lies inside work RAM. */
  type Fixture = f: FixtureFields | f.readyRef.Given? && f.roomOffset < f.wramSize
    witness FixtureFields(Given(0), 0, 1, 0, 0, 1, 8, false)

  datatype GuestState = GuestState(
    frame: nat, room: byte, nonzeroPads: nat, lastPad: word, metaFrame: nat, running: bool)

  function Ready(f: Fixture): GuestState {
    GuestState(f.readyFrame, f.roomInitial, 0, 0, 0, false)
  }

  /** `running` is the one field that is not hashed. */
  function StateHash(g: GuestState): Digest {
    HashOfGuest(g.frame, g.room, g.nonzeroPads, g.lastPad, g.metaFrame)
  }

  function SnapshotRef(g: GuestState): Digest { HashOfDigest(StateHash(g)) }

  // ---- One frame ----

  type Agenda = map<nat, PadWord>

  /** The latest word scheduled at or before `frame`. */
  function LivePad(a: Agenda, frame: nat): Option<PadWord>
    decreases frame, a
  {
    if frame in a then Some(a[frame]) else if frame == 0 then None else LivePad(a, frame - 1)
  }

  /** `k` is the last frame with an event at or before `frame`. */
  predicate LastDue(a: Agenda, frame: nat, k: nat) {
    k in a && k <= frame && forall j :: j in a && j <= frame ==> j <= k
  }

  /** The live word is the one of the last event due; there is none just when no event is due. */
  lemma {:induction false} LivePadIsLatest(a: Agenda, frame: nat) returns (k: nat)
    ensures LivePad(a, frame).Some? ==> LastDue(a, frame, k) && LivePad(a, frame).value == a[k]
    ensures LivePad(a, frame).None? ==> forall j :: j in a ==> j > frame
    decreases frame
  {
    k := frame;
    if frame !in a && frame > 0 {
      k := LivePadIsLatest(a, frame - 1);
    }
  }

  function PadFor(g: GuestState, a: Agenda): PadWord {
    var live := LivePad(a, g.frame + 1);
    if live.Some? then live.value else g.lastPad
  }

  /** The pad acts at full width but is remembered as a 16-bit word. */
  function ApplyPad(f: Fixture, g: GuestState, pad: PadWord): GuestState {
    var latched := g.(lastPad := pad % 0x1_0000);
    if pad == 0 then latched
    else
      var counted := latched.(nonzeroPads := g.nonzeroPads + 1);
      if counted.nonzeroPads >= f.transitionAfterPads then counted.(room := f.roomTarget) else counted
  }

  function RunFrame(f: Fixture, g: GuestState, a: Agenda): GuestState {
    ApplyPad(f, g.(frame := g.frame + 1, metaFrame := g.metaFrame + 1, running := true), PadFor(g, a))
  }

  function RunFrames(f: Fixture, g: GuestState, a: Agenda, budget: nat): GuestState
    decreases budget
  {
    if budget == 0 then g else RunFrames(f, RunFrame(f, g, a), a, budget - 1)
  }

  /** How a budget is split over run requests does not matter. */
  lemma {:induction false} RunsAdd(f: Fixture, g: GuestState, a: Agenda, m: nat, n: nat)
    ensures RunFrames(f, g, a, m + n) == RunFrames(f, RunFrames(f, g, a, m), a, n)
    decreases m
  {
    hide RunFrame;
    if m > 0 {
      RunsAdd(f, RunFrame(f, g, a), a, m - 1, n);
    }
  }

  // ---- What every reachable guest satisfies ----

  /** A guest has left READY exactly when it has run frames, and its two frame counters agree. */
  predicate Consistent(f: Fixture, g: GuestState) {
    (g.running <==> g.metaFrame > 0) && g.frame == f.readyFrame + g.metaFrame
  }

  lemma {:induction false} RunsStayConsistent(f: Fixture, g: GuestState, a: Agenda, budget: nat)
    requires Consistent(f, g)
    ensures Consistent(f, RunFrames(f, g, a, budget))
    decreases budget
  {
    if budget > 0 {
      RunsStayConsistent(f, RunFrame(f, g, a), a, budget - 1);
    }
  }

  /** Equal state hashes mean equal guests, although `running` is left out of the hash. */
  lemma StateHashFaithful(f: Fixture, g: GuestState, h: GuestState)
    requires Consistent(f, g) && Consistent(f, h)
    ensures StateHash(g) == StateHash(h) <==> g == h
    ensures SnapshotRef(g) == SnapshotRef(h) <==> g == h
    ensures SnapshotRef(g) != f.readyRef && SnapshotRef(g) != StateHash(h)
  {
    assert StateHash(g) == StateHash(h) ==> g.metaFrame == h.metaFrame && g.running == h.running;
  }

  /** The room has changed exactly when enough non-zero pads were applied. */
  predicate RoomFollowsPads(f: Fixture, g: GuestState) {
    g.room == if g.nonzeroPads > 0 && g.nonzeroPads >= f.transitionAfterPads then f.roomTarget else f.roomInitial
  }

  lemma {:induction false} RunsKeepRoom(f: Fixture, g: GuestState, a: Agenda, budget: nat)
    requires RoomFollowsPads(f, g)
    ensures RoomFollowsPads(f, Ready(f)) && RoomFollowsPads(f, RunFrames(f, g, a, budget))
    decreases budget
  {
    hide LivePad;
    if budget > 0 {
      RunsKeepRoom(f, RunFrame(f, g, a), a, budget - 1);
    }
  }

  // ---- Readable regions ----

  datatype Region = Wram | Framebuffer | MetaPage | UnknownRegion

  function Zeros(n: nat): (z: seq<byte>)
    ensures |z| == n && forall i :: 0 <= i < n ==> z[i] == 0
  {
    seq(n, i => 0)
  }

  /** Little-endian bytes of `x`, wrapped to the width. */
  function Le(x: nat, width: nat): (s: seq<byte>)
    ensures |s| == width
    decreases width
  {
    if width == 0 then [] else [x % 0x100] + Le(x / 0x100, width - 1)
  }

  function WramView(f: Fixture, g: GuestState): seq<byte> { Zeros(f.wramSize)[f.roomOffset := g.room] }

  /** Version, status (1 READY, 2 running), frame and last pad, at the offsets of the harness page. */
  function MetaView(g: GuestState): (v: seq<byte>)
    ensures |v| == META_SIZE
  {
    Le(1, 4) + Le(if g.running then 2 else 1, 4) + Le(g.metaFrame, 8) + Le(g.lastPad, 2) + Zeros(META_SIZE - 18)
  }

  /** The number little-endian bytes stand for. */
  function FromLe(s: seq<byte>): nat
    decreases s
  {
    if s == [] then 0 else s[0] + 0x100 * FromLe(s[1..])
  }

  /** Numbers of `width` bytes. */
  function LeRange(width: nat): (n: nat)
    ensures n > 0
  {
    if width == 0 then 1 else 0x100 * LeRange(width - 1)
  }

  lemma {:induction false} LeReads(x: nat, width: nat)
    requires x < LeRange(width)
    ensures FromLe(Le(x, width)) == x
    decreases width
  {
    if width > 0 {
      assert Le(x, width)[1..] == Le(x / 0x100, width - 1);
      LeReads(x / 0x100, width - 1);
    }
  }

  /** What a reader of the page finds at the harness's offsets; every other byte is zero. */
  lemma MetaReads(g: GuestState)
    ensures var v := MetaView(g);
            && FromLe(v[0..4]) == 1
            && FromLe(v[4..8]) == (if g.running then 2 else 1)
            && (g.metaFrame < 0x1_0000_0000_0000_0000 ==> FromLe(v[8..16]) == g.metaFrame)
            && FromLe(v[16..18]) == g.lastPad
            && forall i :: 18 <= i < META_SIZE ==> v[i] == 0
  {
    hide Le, FromLe;
    var v, status := MetaView(g), if g.running then 2 else 1;
    assert v[0..4] == Le(1, 4) && v[4..8] == Le(status, 4);
    assert v[8..16] == Le(g.metaFrame, 8) && v[16..18] == Le(g.lastPad, 2);
    LeRanges();
    LeReads(1, 4);
    LeReads(status, 4);
    LeReads(g.lastPad, 2);
    if g.metaFrame < LeRange(8) { LeReads(g.metaFrame, 8); }
  }

  lemma LeRanges()
    ensures LeRange(2) == 0x1_0000 && LeRange(4) == 0x1_0000_0000 && LeRange(8) == 0x1_0000_0000_0000_0000
  {
    assert LeRange(5) == 0x100 * LeRange(4) && LeRange(4) == 0x100 * LeRange(3);
    assert LeRange(8) == 0x100 * LeRange(7) && LeRange(7) == 0x100 * LeRange(6) && LeRange(6) == 0x100 * LeRange(5);
  }

  /** Exclusive or of the low `width` bits of two numbers. */
  function Xor(x: nat, y: nat, width: nat): (r: nat)
    ensures r < Pow2(width)
    decreases width
  {
    if width == 0 then 0
    else 2 * Xor(x / 2, y / 2, width - 1) + (if x % 2 != y % 2 then 1 else 0)
  }

  lemma {:induction false} XorBits(x: nat, y: nat, width: nat, k: nat)
    requires k < width
    ensures BitSet(Xor(x, y, width), k) <==> BitSet(x, k) != BitSet(y, k)
    decreases width
  {
    assert Xor(x, y, width) / 2 == Xor(x / 2, y / 2, width - 1);
    if k > 0 {
      XorBits(x / 2, y / 2, width - 1, k - 1);
    }
  }

  /** The byte every pixel byte of a frame has. */
  function Fill(g: GuestState): byte {
    assert Pow2(8) == 0x100 by { assert Pow2(4) == 16; }
    Xor(g.room * 16, g.frame, 8)
  }

  function FramebufferView(g: GuestState): (v: seq<byte>)
    ensures |v| == FB_BYTES
  {
    seq(FB_BYTES, i => Fill(g))
  }

  function View(f: Fixture, g: GuestState, r: Region): seq<byte>
    requires !r.UnknownRegion?
  {
    match r
    case Wram => WramView(f, g)
    case Framebuffer => FramebufferView(g)
    case MetaPage => MetaView(g)
  }
}
