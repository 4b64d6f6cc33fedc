/** What schedules, runs, snapshots, restores and stale leases are answered, in terms of the guest alone. */
module Serving {
  import opened Timing
  import opened Guest
  import opened Slots
  import opened Worker
  import opened Reads

  // ---- Frames ----

  /** The word a frame runs with: the latest scheduled by then, or the remembered one when nothing is due. */
  predicate RunsWith(a: Agenda, remembered: word, at: nat, pad: PadWord) {
    || (exists k | k in a :: LastDue(a, at, k) && pad == a[k])
    || ((forall k | k in a :: k > at) && pad == remembered)
  }

  predicate PadsOf(a: Agenda, g: GuestState, pads: seq<PadWord>) {
    forall i | 0 <= i < |pads| :: RunsWith(a, g.lastPad, g.frame + 1 + i, pads[i])
  }

  /** How many of the words are not zero. */
  function NonZero(pads: seq<PadWord>): nat {
    if pads == [] then 0 else NonZero(pads[..|pads| - 1]) + (if pads[|pads| - 1] != 0 then 1 else 0)
  }

  /** The guest after frames run with the given words. */
  predicate Ran(f: Fixture, g: GuestState, pads: seq<PadWord>, h: GuestState) {
    && h.frame == g.frame + |pads| && h.metaFrame == g.metaFrame + |pads|
    && (h.running <==> g.running || pads != [])
    && h.nonzeroPads == g.nonzeroPads + NonZero(pads)
    && h.lastPad == (if pads == [] then g.lastPad else pads[|pads| - 1] % 0x1_0000)
    && h.room == (if NonZero(pads) > 0 && h.nonzeroPads >= f.transitionAfterPads then f.roomTarget else g.room)
  }

  /** The word the next frame runs with, when the frames so far ran with `pads`. */
  lemma NextWord(f: Fixture, a: Agenda, g: GuestState, pads: seq<PadWord>, h: GuestState, pad: PadWord)
    requires PadsOf(a, g, pads) && Ran(f, g, pads, h) && RunsWith(a, g.lastPad, h.frame + 1, pad)
    ensures PadFor(h, a) == pad
  {
    hide NonZero;
    var k := LivePadIsLatest(a, h.frame + 1);
    if LivePad(a, h.frame + 1).None? && pads != [] {
      assert RunsWith(a, g.lastPad, g.frame + 1 + (|pads| - 1), pads[|pads| - 1]);
    }
  }

  /** A run applies the scheduled words one frame after the other, counting those that are not zero. */
  lemma {:induction false} RunMeans(f: Fixture, g: GuestState, a: Agenda, pads: seq<PadWord>)
    requires PadsOf(a, g, pads)
    ensures Ran(f, g, pads, RunFrames(f, g, a, |pads|))
    decreases |pads|
  {
    hide LivePad, LastDue;
    if pads != [] {
      var n := |pads| - 1;
      var before := pads[..n];
      RunMeans(f, g, a, before);
      RunsAdd(f, g, a, n, 1);
      var h := RunFrames(f, g, a, n);
      OneFrame(f, h, a);
      assert RunsWith(a, g.lastPad, g.frame + 1 + n, pads[n]);
      NextWord(f, a, g, before, h, pads[n]);
    }
  }

  /** Some words always fit, so the law above speaks of every run. */
  lemma {:induction false} PadsExist(a: Agenda, g: GuestState, budget: nat) returns (pads: seq<PadWord>)
    ensures |pads| == budget && PadsOf(a, g, pads)
    decreases budget
  {
    hide LivePad;
    pads := [];
    if budget > 0 {
      pads := PadsExist(a, g, budget - 1);
      var k := LivePadIsLatest(a, g.frame + budget);
      var pad: PadWord := if LivePad(a, g.frame + budget).Some? then a[k] else g.lastPad;
      assert RunsWith(a, g.lastPad, g.frame + budget, pad);
      pads := pads + [pad];
    }
  }

  // ---- Requests that change a slot ----

  /** Only the addressed slot's guest and agenda may differ, and nothing new is stored. */
  predicate OnlySlot(w: WorkerState, u: WorkerState, lease: Lease, guest: GuestState, agenda: Agenda) {
    u == w.(slots := w.slots[lease.slot := Slot(lease.token, guest, agenda)])
  }

  /** A run is answered after its frames, and a refused capture does not take them back. */
  lemma RunAnswered(f: Fixture, w: WorkerState, lease: Lease, pads: seq<PadWord>, spec: Option<CaptureSpec>)
    returns (h: GuestState, k: nat)
    requires Opens(w, lease) && PadsOf(w.slots[lease.slot].agenda, w.slots[lease.slot].guest, pads)
    ensures var s := w.slots[lease.slot];
            var (u, answer) := OnLease(f, w, Some(lease), Run(|pads|, spec));
            && Ran(f, s.guest, pads, h) && OnlySlot(w, u, lease, h, s.agenda)
            && answer.FromSlot? && (answer.reply.Ran? || answer.reply.Failed?)
            && (answer.reply.Ran? ==>
                  && answer.reply.icount == 1000 * h.frame && answer.reply.hash == StateHash(h)
                  && answer.reply.elapsed == |pads| && Captured(f, h, spec, answer.reply.captured))
            && (answer.reply.Failed? ==> spec.Some? && FirstRefused(f, spec.value.ranges, k, answer.reply.status))
            && (answer.reply.Ran? <==>
                spec.None? || forall j | 0 <= j < |spec.value.ranges| :: Readable(f, spec.value.ranges[j]))
  {
    hide Ran, RunFrames, TakeCapture, Captured, FirstRefused, Readable, PadsOf, StateHash;
    var s := w.slots[lease.slot];
    RunMeans(f, s.guest, s.agenda, pads);
    h := RunFrames(f, s.guest, s.agenda, |pads|);
    k := CaptureAnswered(f, h, spec);
  }

  /** The event can be scheduled: a pad word for a frame to come. */
  predicate Acceptable(e: Event, frame: nat) {
    e.atFrame.Some? && e.atFrame.value > frame && e.padSet.Some?
  }

  /** Why an event is refused: its kind of schedule first, then its frame, then its kind. */
  predicate EventRefused(e: Event, frame: nat, status: Status) {
    && !Acceptable(e, frame) && status in {OnlyAtFrame, NotInFuture, OnlyPadSet}
    && (status == OnlyAtFrame <==> e.atFrame.None?)
    && (status == NotInFuture <==> e.atFrame.Some? && e.atFrame.value <= frame)
  }

  /** The word of the latest of the events for a frame. */
  function Latest(events: seq<Event>, x: nat): Option<PadWord> {
    if events == [] then None
    else
      var last := events[|events| - 1];
      if last.atFrame == Some(x) && last.padSet.Some? then last.padSet else Latest(events[..|events| - 1], x)
  }

  /** A frame with an event has the word of its latest; a frame without one keeps what it had. */
  ghost predicate Scheduled(a: Agenda, events: seq<Event>, b: Agenda) {
    forall x: nat ::
      var latest := if Latest(events, x).Some? || x !in a then Latest(events, x) else Some(a[x]);
      (x in b <==> latest.Some?) && (x in b && latest.Some? ==> b[x] == latest.value)
  }

  /** The first event that cannot be scheduled. */
  predicate FirstBad(events: seq<Event>, frame: nat, n: nat, status: Status) {
    n < |events| && EventRefused(events[n], frame, status) && forall j | 0 <= j < n :: Acceptable(events[j], frame)
  }

  lemma {:induction false} LatestOfRest(events: seq<Event>, x: nat)
    requires events != []
    ensures Latest(events, x) == var later := Latest(events[1..], x);
                                 if later.Some? then later
                                 else if events[0].atFrame == Some(x) then events[0].padSet else None
    decreases |events|
  {
    var front := events[..|events| - 1];
    if |events| > 1 {
      LatestOfRest(front, x);
      assert events[1..][..|events| - 2] == front[1..];
    }
  }

  /** Events are scheduled up to the first that cannot be, and those stay scheduled. */
  lemma {:induction false} InjectMeans(s: Slot, events: seq<Event>, accepted: nat) returns (n: nat)
    ensures var (t, reply) := InjectEvents(s, events, accepted);
            && n <= |events| && t == s.(agenda := t.agenda) && Scheduled(s.agenda, events[..n], t.agenda)
            && (reply.Injected? || reply.Failed?)
            && (reply.Injected? ==> n == |events| && reply.scheduled == accepted + n)
            && (reply.Injected? <==> forall j | 0 <= j < |events| :: Acceptable(events[j], s.guest.frame))
            && (reply.Failed? ==> FirstBad(events, s.guest.frame, n, reply.status))
    decreases events
  {
    n := 0;
    if events != [] && Acceptable(events[0], s.guest.frame) {
      var (x, pad) := (events[0].atFrame.value, events[0].padSet.value);
      var more := InjectMeans(s.(agenda := s.agenda[x := pad]), events[1..], accepted + 1);
      n := more + 1;
      assert events[..n][1..] == events[1..][..more];
      forall y: nat
        ensures Latest(events[..n], y) == var later := Latest(events[1..][..more], y);
                                          if later.Some? then later else if y == x then Some(pad) else None
      {
        LatestOfRest(events[..n], y);
      }
      assert events == [events[0]] + events[1..];
    }
  }

  lemma InjectAnswered(f: Fixture, w: WorkerState, lease: Lease, events: seq<Event>) returns (agenda: Agenda, n: nat)
    requires Opens(w, lease)
    ensures var s := w.slots[lease.slot];
            var (u, answer) := OnLease(f, w, Some(lease), Inject(events));
            && n <= |events| && OnlySlot(w, u, lease, s.guest, agenda) && Scheduled(s.agenda, events[..n], agenda)
            && answer.FromSlot? && (answer.reply.Injected? || answer.reply.Failed?)
            && (answer.reply.Injected? ==> n == |events| && answer.reply.scheduled == n)
            && (answer.reply.Injected? <==> forall j | 0 <= j < |events| :: Acceptable(events[j], s.guest.frame))
            && (answer.reply.Failed? ==> FirstBad(events, s.guest.frame, n, answer.reply.status))
  {
    hide Scheduled, Acceptable, FirstBad, InjectEvents;
    var s := w.slots[lease.slot];
    n := InjectMeans(s, events, 0);
    agenda := InjectEvents(s, events, 0).0.agenda;
  }

  // ---- Snapshots ----

  /** The reference is kept beside a copy of the guest; the slot goes on as it was. */
  lemma TakeAnswered(f: Fixture, w: WorkerState, lease: Lease, spec: Option<CaptureSpec>) returns (k: nat)
    requires Opens(w, lease)
    ensures var s := w.slots[lease.slot];
            var (u, answer) := OnLease(f, w, Some(lease), Take(spec));
            var queued := exists at | at in s.agenda :: at > s.guest.frame;
            && answer.FromSlot? && (answer.reply.Taken? || answer.reply.Failed?)
            && u == w.(pending := u.pending)
            && u.pending == (if answer.reply.Taken? then w.pending + [(SnapshotRef(s.guest), s.guest)] else w.pending)
            && (answer.reply.Taken? ==>
                  && answer.reply.ref == SnapshotRef(s.guest) && answer.reply.takenHash == StateHash(s.guest)
                  && answer.reply.takenAt == s.guest.frame && Captured(f, s.guest, spec, answer.reply.takenCapture))
            && (answer.reply.Taken? <==>
                !queued && (spec.None? || forall j | 0 <= j < |spec.value.ranges| :: Readable(f, spec.value.ranges[j])))
            && (answer.reply.Failed? && queued ==> answer.reply.status == AgendaNotEmpty)
            && (answer.reply.Failed? && !queued ==>
                  spec.Some? && FirstRefused(f, spec.value.ranges, k, answer.reply.status))
  {
    hide TakeCapture, Captured, FirstRefused, Readable, SnapshotRef, StateHash;
    var s := w.slots[lease.slot];
    k := CaptureAnswered(f, s.guest, spec);
    assert w.slots[lease.slot := s] == w.slots;
  }

  /** The oldest snapshot on its way is the one stored next. */
  lemma CommitStores(w: WorkerState)
    ensures var u := CommitOldest(w);
            && u.slots == w.slots && u.nextSlot == w.nextSlot
            && (w.pending == [] ==> u == w)
            && (w.pending != [] ==>
                  && u.pending == w.pending[1..] && u.snapshots.Keys == w.snapshots.Keys + {w.pending[0].0}
                  && forall r :: r in u.snapshots ==>
                       u.snapshots[r] == if r == w.pending[0].0 then w.pending[0].1 else w.snapshots[r])
  {
  }

  /**
   A restore is answered exactly for the READY root and the stored references, with a new slot and a
   guest that has nothing scheduled; the negative-test mode adds one applied pad to stored guests only.
   */
  lemma RestoreAnswered(f: Fixture, w: WorkerState, ref: Digest)
    requires WorkerOk(f, w)
    ensures var (u, answer) := RestoreRef(f, w, ref);
            && (answer.Leased? <==> ref == f.readyRef || ref in w.snapshots)
            && (!answer.Leased? ==> answer == Refused(SnapshotNotFound) && u == w)
            && (answer.Leased? ==>
                  && answer.lease.slot !in w.slots && Opens(u, answer.lease)
                  && (forall l: Lease :: Opens(w, l) ==>
                     Opens(u, l) && u.slots[l.slot] == w.slots[l.slot] && l != answer.lease)
                  && u.slots.Keys == w.slots.Keys + {answer.lease.slot}
                  && u.snapshots == w.snapshots && u.pending == w.pending
                  && var s := u.slots[answer.lease.slot];
                     && s.agenda == map[] && answer.hash == StateHash(s.guest) && answer.frame == s.guest.frame
                     && s.guest == (if ref == f.readyRef then GuestState(f.readyFrame, f.roomInitial, 0, 0, 0, false)
                                    else if f.corruptMidRunRestores then
                                      w.snapshots[ref].(nonzeroPads := 1 + w.snapshots[ref].nonzeroPads)
                                    else w.snapshots[ref]))
  {
    hide StateHash, SlotOk;
  }

  // ---- Leases ----

  /** Why a lease is refused. */
  predicate LeaseRefused(w: WorkerState, lease: Option<Lease>, status: Status) {
    && status in {MissingLease, SlotEmpty, StaleLease}
    && (status == MissingLease <==> lease.None?)
    && (status == SlotEmpty <==> lease.Some? && lease.value.slot !in w.slots)
    && (lease.Some? ==> !Opens(w, lease.value))
  }

  /** A lease that opens no slot is refused without a change, whatever is asked; an open one is always answered. */
  lemma LeasesChecked(f: Fixture, w: WorkerState, lease: Option<Lease>, op: SlotOp)
    ensures var (u, answer) := OnLease(f, w, lease, op);
            && (answer.Refused? <==> lease.None? || !Opens(w, lease.value))
            && (answer.Refused? ==> u == w && LeaseRefused(w, lease, answer.status))
            && (!answer.Refused? ==> answer.FromSlot?)
    ensures var (u, answer) := DestroySlot(w, lease);
            && (answer.Refused? <==> lease.None? || !Opens(w, lease.value))
            && (answer.Refused? ==> u == w && LeaseRefused(w, lease, answer.status))
            && (!answer.Refused? ==> answer.Destroyed? && u == w.(slots := w.slots - {lease.value.slot}))
    ensures Serve(f, w, RunUntilOther(lease)) == (w, Refused(OnlyFrameBudget))
  {
    hide SlotStep;
  }
}
