/** One VM slot: scheduling, running, capturing and snapshotting, and why a snapshot is as good as the slot. */
module Slots {
  import opened Timing
  import opened Guest

  datatype Slot = Slot(token: Digest, guest: GuestState, agenda: Agenda)

  datatype Status =
    | MissingLease | SlotEmpty | StaleLease | SnapshotNotFound
    | OnlyFrameBudget | OnlyAtFrame | NotInFuture | OnlyPadSet | OnlyRegionReads | AgendaNotEmpty
    | RegionNotInManifest | LayoutMismatch | ReadTooLong

  datatype Result<T> = Ok(value: T) | Err(status: Status)

  datatype Event = Event(atFrame: Option<nat>, padSet: Option<PadWord>)
  datatype Range = Range(region: Region, layoutVersion: nat, offset: nat, len: nat)
  datatype CaptureSpec = CaptureSpec(ranges: seq<Range>, framebuffer: bool)
  datatype Capture = Capture(features: seq<byte>, pixels: Option<seq<byte>>)

  datatype Reply =
    | Injected(scheduled: nat)
    | Ran(icount: nat, hash: Digest, elapsed: nat, captured: Capture)
    | Taken(ref: Digest, takenAt: nat, takenHash: Digest, takenCapture: Capture)
    | Chunks(chunks: seq<seq<byte>>, readAt: nat)
    | Pixels(frame: nat, pixels: seq<byte>)
    | Failed(status: Status)

  /** The requests that address a slot through its lease, without the lease. */
  datatype SlotOp =
    | Inject(events: seq<Event>)
    | Run(budget: nat, runCapture: Option<CaptureSpec>)
    | Take(takeCapture: Option<CaptureSpec>)
    | ReadMemory(rawRanges: nat, ranges: seq<Range>)
    | GetFramebuffer

  // ---- Reading regions ----

  function ReadRegion(f: Fixture, g: GuestState, r: Range): Result<seq<byte>> {
    if r.region.UnknownRegion? then Err(RegionNotInManifest)
    else if r.layoutVersion != 1 then Err(LayoutMismatch)
    else if r.offset + r.len > |View(f, g, r.region)| then Err(ReadTooLong)
    else Ok(View(f, g, r.region)[r.offset..r.offset + r.len])
  }

  function ReadRegions(f: Fixture, g: GuestState, ranges: seq<Range>): Result<seq<seq<byte>>>
    decreases ranges
  {
    if ranges == [] then Ok([])
    else
      match ReadRegion(f, g, ranges[0])
      case Err(e) => Err(e)
      case Ok(chunk) =>
        match ReadRegions(f, g, ranges[1..])
        case Err(e) => Err(e)
        case Ok(rest) => Ok([chunk] + rest)
  }

  function Concat(chunks: seq<seq<byte>>): seq<byte>
    decreases chunks
  {
    if chunks == [] then [] else chunks[0] + Concat(chunks[1..])
  }

  function TakeCapture(f: Fixture, g: GuestState, spec: Option<CaptureSpec>): Result<Capture> {
    if spec.None? then Ok(Capture([], None))
    else
      match ReadRegions(f, g, spec.value.ranges)
      case Err(e) => Err(e)
      case Ok(chunks) =>
        Ok(Capture(Concat(chunks), if spec.value.framebuffer then Some(FramebufferView(g)) else None))
  }

  // ---- The operations ----

  /** Events are scheduled one by one: those before a refused event stay scheduled. */
  function InjectEvents(s: Slot, events: seq<Event>, accepted: nat): (Slot, Reply)
    decreases events
  {
    if events == [] then (s, Injected(accepted))
    else if events[0].atFrame.None? then (s, Failed(OnlyAtFrame))
    else if events[0].atFrame.value <= s.guest.frame then (s, Failed(NotInFuture))
    else if events[0].padSet.None? then (s, Failed(OnlyPadSet))
    else
      InjectEvents(s.(agenda := s.agenda[events[0].atFrame.value := events[0].padSet.value]), events[1..], accepted + 1)
  }

  /** A refused capture comes after the frames have run. */
  function RunSlot(f: Fixture, s: Slot, budget: nat, spec: Option<CaptureSpec>): (Slot, Reply) {
    var s1 := s.(guest := RunFrames(f, s.guest, s.agenda, budget));
    match TakeCapture(f, s1.guest, spec)
    case Err(e) => (s1, Failed(e))
    case Ok(c) => (s1, Ran(s1.guest.frame * 1000, StateHash(s1.guest), budget, c))
  }

  predicate Drained(s: Slot) { forall k :: k in s.agenda ==> k <= s.guest.frame }

  function TakeSlot(f: Fixture, s: Slot, spec: Option<CaptureSpec>): Reply {
    if !Drained(s) then Failed(AgendaNotEmpty)
    else
      match TakeCapture(f, s.guest, spec)
      case Err(e) => Failed(e)
      case Ok(c) => Taken(SnapshotRef(s.guest), s.guest.frame, StateHash(s.guest), c)
  }

  function ReadSlot(f: Fixture, s: Slot, rawRanges: nat, ranges: seq<Range>): Reply {
    if rawRanges > 0 then Failed(OnlyRegionReads)
    else
      match ReadRegions(f, s.guest, ranges)
      case Err(e) => Failed(e)
      case Ok(chunks) => Chunks(chunks, s.guest.frame * 1000)
  }

  function SlotStep(f: Fixture, s: Slot, op: SlotOp): (Slot, Reply) {
    match op
    case Inject(events) => InjectEvents(s, events, 0)
    case Run(budget, spec) => RunSlot(f, s, budget, spec)
    case Take(spec) => (s, TakeSlot(f, s, spec))
    case ReadMemory(raw, ranges) => (s, ReadSlot(f, s, raw, ranges))
    case GetFramebuffer => (s, Pixels(s.guest.frame, FramebufferView(s.guest)))
  }

  function SlotSteps(f: Fixture, s: Slot, ops: seq<SlotOp>): Slot
    decreases ops
  {
    if ops == [] then s else SlotSteps(f, SlotStep(f, s, ops[0]).0, ops[1..])
  }

  function Replies(f: Fixture, s: Slot, ops: seq<SlotOp>): seq<Reply>
    decreases ops
  {
    if ops == [] then [] else [SlotStep(f, s, ops[0]).1] + Replies(f, SlotStep(f, s, ops[0]).0, ops[1..])
  }

  /** What a restore of the slot's snapshot creates: the same guest with nothing scheduled. */
  function Restored(g: GuestState, token: Digest): Slot { Slot(token, g, map[]) }

  // ---- Continuity ----

  /** The last event due is the pad word the guest remembers. */
  predicate Latched(s: Slot) {
    var live := LivePad(s.agenda, s.guest.frame);
    live.Some? ==> s.guest.lastPad == live.value % 0x1_0000
  }

  /** The last event due would act as the remembered 16-bit word acts. */
  predicate Settled(s: Slot) {
    var live := LivePad(s.agenda, s.guest.frame);
    live.Some? && live.value % 0x1_0000 == 0 ==> live.value == 0
  }

  ghost predicate SameFuture(a: Agenda, b: Agenda, frame: nat) {
    forall k :: k > frame ==> (k in a <==> k in b) && (k in a && k in b ==> a[k] == b[k])
  }

  /** The bisimulation: same guest, same events still to come, same pad until then. */
  ghost predicate Alike(s: Slot, t: Slot) {
    && s.guest == t.guest && Latched(s) && Latched(t)
    && SameFuture(s.agenda, t.agenda, s.guest.frame)
    && (LivePad(s.agenda, s.guest.frame) == LivePad(t.agenda, t.guest.frame) || (Settled(s) && Settled(t)))
  }

  lemma NextPad(a: Agenda, frame: nat)
    ensures LivePad(a, frame + 1) == if frame + 1 in a then Some(a[frame + 1]) else LivePad(a, frame)
  {
  }

  lemma FrameAlike(f: Fixture, s: Slot, t: Slot)
    requires Alike(s, t)
    ensures Alike(s.(guest := RunFrame(f, s.guest, s.agenda)), t.(guest := RunFrame(f, t.guest, t.agenda)))
  {
    hide LivePad;
    NextPad(s.agenda, s.guest.frame);
    NextPad(t.agenda, t.guest.frame);
    assert s.guest.frame + 1 in s.agenda <==> s.guest.frame + 1 in t.agenda;
  }

  lemma {:induction false} RunAlike(f: Fixture, s: Slot, t: Slot, budget: nat)
    requires Alike(s, t)
    ensures Alike(s.(guest := RunFrames(f, s.guest, s.agenda, budget)),
            t.(guest := RunFrames(f, t.guest, t.agenda, budget)))
    decreases budget
  {
    hide RunFrame, Alike;
    if budget > 0 {
      FrameAlike(f, s, t);
      RunAlike(f, s.(guest := RunFrame(f, s.guest, s.agenda)), t.(guest := RunFrame(f, t.guest, t.agenda)), budget - 1);
    } else {
      assert s.(guest := s.guest) == s && t.(guest := t.guest) == t;
    }
  }

  lemma {:induction false} LivePadUnaffected(a: Agenda, key: nat, v: PadWord, frame: nat)
    requires key > frame
    ensures LivePad(a[key := v], frame) == LivePad(a, frame)
    decreases frame
  {
    if frame !in a && frame > 0 {
      LivePadUnaffected(a, key, v, frame - 1);
    }
  }

  lemma {:induction false} InjectAlike(s: Slot, t: Slot, events: seq<Event>, accepted: nat)
    requires Alike(s, t)
    ensures Alike(InjectEvents(s, events, accepted).0, InjectEvents(t, events, accepted).0)
    ensures InjectEvents(s, events, accepted).1 == InjectEvents(t, events, accepted).1
    decreases events
  {
    if events != [] && events[0].atFrame.Some? && events[0].padSet.Some? && events[0].atFrame.value > s.guest.frame {
      var (k, v) := (events[0].atFrame.value, events[0].padSet.value);
      LivePadUnaffected(s.agenda, k, v, s.guest.frame);
      LivePadUnaffected(t.agenda, k, v, t.guest.frame);
      InjectAlike(s.(agenda := s.agenda[k := v]), t.(agenda := t.agenda[k := v]), events[1..], accepted + 1);
    }
  }

  lemma DrainedAlike(s: Slot, t: Slot)
    requires Alike(s, t)
    ensures Drained(s) <==> Drained(t)
  {
  }

  lemma StepAlike(f: Fixture, s: Slot, t: Slot, op: SlotOp)
    requires Alike(s, t)
    ensures Alike(SlotStep(f, s, op).0, SlotStep(f, t, op).0)
    ensures SlotStep(f, s, op).1 == SlotStep(f, t, op).1
  {
    hide SameFuture, Latched, Settled, LivePad, TakeCapture, ReadRegions, InjectEvents, RunFrames, Drained;
    match op {
      case Inject(events) => InjectAlike(s, t, events, 0);
      case Run(budget, spec) => RunAlike(f, s, t, budget);
      case Take(spec) => DrainedAlike(s, t);
      case _ =>
    }
  }

  /** Alike slots answer every sequence of requests alike, and stay alike. */
  lemma {:induction false} Bisimilar(f: Fixture, s: Slot, t: Slot, ops: seq<SlotOp>)
    requires Alike(s, t)
    ensures Replies(f, s, ops) == Replies(f, t, ops)
    ensures SlotSteps(f, s, ops).guest == SlotSteps(f, t, ops).guest
    decreases ops
  {
    hide SlotStep, Latched, SameFuture, LivePad, Settled;
    if ops != [] {
      StepAlike(f, s, t, ops[0]);
      Bisimilar(f, SlotStep(f, s, ops[0]).0, SlotStep(f, t, ops[0]).0, ops[1..]);
    }
  }

  /** No sequence of requests tells the two slots apart. */
  ghost predicate SameReplies(f: Fixture, s: Slot, t: Slot) {
    forall ops :: Replies(f, s, ops) == Replies(f, t, ops)
  }

  /**
   Snapshot continuity, exactly: a restored snapshot answers every future as the slot it was taken
   from would if and only if the last event due, when its low 16 bits are zero, is zero.
   */
  lemma RestoreContinuity(f: Fixture, s: Slot, token: Digest)
    requires Latched(s) && Drained(s)
    ensures SameReplies(f, s, Restored(s.guest, token)) <==> Settled(s)
  {
    var t := Restored(s.guest, token);
    if Settled(s) {
      NothingScheduled(map[], s.guest.frame);
      forall ops ensures Replies(f, s, ops) == Replies(f, t, ops) {
        Bisimilar(f, s, t, ops);
      }
    } else {
      var probe := [Run(1, None)];
      WidePadShows(f, s, token);
      assert Replies(f, s, probe)[0] != Replies(f, t, probe)[0];
    }
  }

  lemma NothingScheduled(a: Agenda, frame: nat)
    requires a == map[]
    ensures LivePad(a, frame) == None
  {
    var k := LivePadIsLatest(a, frame);
  }

  lemma OneFrame(f: Fixture, g: GuestState, a: Agenda)
    ensures RunFrames(f, g, a, 1) == RunFrame(f, g, a)
  {
    assert RunFrames(f, RunFrame(f, g, a), a, 0) == RunFrame(f, g, a);
  }

  /** One more frame tells a wide pad word from the zero the snapshot kept of it. */
  lemma WidePadShows(f: Fixture, s: Slot, token: Digest)
    requires Latched(s) && Drained(s) && !Settled(s)
    ensures SlotStep(f, s, Run(1, None)).1 != SlotStep(f, Restored(s.guest, token), Run(1, None)).1
  {
    var g := s.guest;
    OneFrame(f, g, s.agenda);
    OneFrame(f, g, map[]);
    NothingScheduled(map[], g.frame + 1);
    assert LivePad(s.agenda, g.frame + 1) == LivePad(s.agenda, g.frame);
    assert RunFrame(f, g, s.agenda).nonzeroPads == g.nonzeroPads + 1;
    assert RunFrame(f, g, map[]).nonzeroPads == g.nonzeroPads;
  }

  /** With 16-bit pad words every slot is settled. */
  lemma NarrowPadsSettle(s: Slot)
    requires forall k :: k in s.agenda ==> s.agenda[k] < 0x1_0000
    ensures Settled(s)
  {
    var k := LivePadIsLatest(s.agenda, s.guest.frame);
  }

  /** A word above 16 bits whose low half is zero: snapshot, restore and one frame tell the slots apart. */
  lemma WidePadBreaksContinuity(f: Fixture, token: Digest)
    ensures var root := Restored(Ready(f), token);
            var s := SlotSteps(f, root, [Inject([Event(Some(f.readyFrame + 1), Some(0x1_0000))]), Run(1, None)]);
            Drained(s) && Replies(f, s, [Run(1, None)]) != Replies(f, Restored(s.guest, token), [Run(1, None)])
  {
    var root := Restored(Ready(f), token);
    var ev := Event(Some(f.readyFrame + 1), Some(0x1_0000));
    var s1 := Slot(token, Ready(f), map[f.readyFrame + 1 := 0x1_0000]);
    assert InjectEvents(root, [ev], 0) == (s1, Injected(1)) by {
      assert [ev][1..] == [];
      assert InjectEvents(s1, [], 1) == (s1, Injected(1));
      assert root.agenda[f.readyFrame + 1 := 0x1_0000] == s1.agenda;
    }
    OneFrame(f, s1.guest, s1.agenda);
    var s := s1.(guest := RunFrame(f, s1.guest, s1.agenda));
    var ops := [Inject([ev]), Run(1, None)];
    assert ops[1..] == [Run(1, None)] && ops[1..][1..] == [];
    assert SlotStep(f, s1, Run(1, None)).0 == s;
    assert SlotSteps(f, root, ops) == SlotSteps(f, s1, [Run(1, None)]) == SlotSteps(f, s, []) == s;
    WidePadShows(f, s, token);
    assert Replies(f, s, [Run(1, None)])[0] != Replies(f, Restored(s.guest, token), [Run(1, None)])[0];
  }

  // ---- What every slot keeps ----

  lemma {:induction false} RunKeepsLatch(f: Fixture, s: Slot, budget: nat)
    requires Latched(s)
    ensures Latched(s.(guest := RunFrames(f, s.guest, s.agenda, budget)))
    decreases budget
  {
    if budget > 0 {
      RunKeepsLatch(f, s.(guest := RunFrame(f, s.guest, s.agenda)), budget - 1);
    }
  }

  lemma {:induction false} InjectKeeps(s: Slot, events: seq<Event>, accepted: nat)
    requires Latched(s)
    ensures var t := InjectEvents(s, events, accepted).0; Latched(t) && t.guest == s.guest && t.token == s.token
    decreases events
  {
    if events != [] && events[0].atFrame.Some? && events[0].padSet.Some? && events[0].atFrame.value > s.guest.frame {
      var (k, v) := (events[0].atFrame.value, events[0].padSet.value);
      LivePadUnaffected(s.agenda, k, v, s.guest.frame);
      InjectKeeps(s.(agenda := s.agenda[k := v]), events[1..], accepted + 1);
    }
  }

  predicate SlotOk(f: Fixture, s: Slot) { Latched(s) && Consistent(f, s.guest) }

  lemma StepKeepsSlot(f: Fixture, s: Slot, op: SlotOp)
    requires SlotOk(f, s)
    ensures SlotOk(f, SlotStep(f, s, op).0) && SlotStep(f, s, op).0.token == s.token
  {
    hide TakeCapture, ReadRegions, LivePad, Latched;
    match op {
      case Inject(events) => InjectKeeps(s, events, 0);
      case Run(budget, spec) =>
        RunKeepsLatch(f, s, budget);
        RunsStayConsistent(f, s.guest, s.agenda, budget);
      case _ =>
    }
  }
}
