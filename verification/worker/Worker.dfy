/** The worker: slots behind leases, the snapshot store, and what every run of requests keeps. */
module Worker {
  import opened Timing
  import opened Guest
  import opened Slots

  datatype Lease = Lease(slot: nat, token: Digest)

  datatype WorkerState = WorkerState(
    slots: map<nat, Slot>,
    snapshots: map<Digest, GuestState>,
    nextSlot: nat,
    pending: seq<(Digest, GuestState)>)

  const EMPTY := WorkerState(map[], map[], 0, [])

  /** `frameBudget` is absent in a run request that stops on anything else. */
  datatype Request =
    | Restore(ref: Digest)
    | OnSlot(lease: Option<Lease>, op: SlotOp)
    | RunUntilOther(lease: Option<Lease>)
    | Destroy(lease: Option<Lease>)

  datatype Answer =
    | Leased(lease: Lease, hash: Digest, frame: nat)
    | FromSlot(reply: Reply)
    | Destroyed
    | Refused(status: Status)

  /** A snapshot is stored under a second lock: anything may happen between the two. */
  datatype Action = Handle(request: Request) | Commit

  // ---- Requests ----

  function CheckLease(w: WorkerState, lease: Option<Lease>): Option<Status> {
    if lease.None? then Some(MissingLease)
    else if lease.value.slot !in w.slots then Some(SlotEmpty)
    else if w.slots[lease.value.slot].token != lease.value.token then Some(StaleLease)
    else None
  }

  /** The negative-test mode perturbs every restore but the READY root's. */
  function Thaw(f: Fixture, g: GuestState): GuestState {
    if f.corruptMidRunRestores then g.(nonzeroPads := g.nonzeroPads + 1) else g
  }

  function Lookup(f: Fixture, w: WorkerState, ref: Digest): Option<GuestState> {
    if ref == f.readyRef then Some(Ready(f))
    else if ref in w.snapshots then Some(Thaw(f, w.snapshots[ref]))
    else None
  }

  function RestoreRef(f: Fixture, w: WorkerState, ref: Digest): (WorkerState, Answer) {
    var guest := Lookup(f, w, ref);
    if guest.None? then (w, Refused(SnapshotNotFound))
    else
      var id := w.nextSlot + 1;
      var token := HashOfSlot(id);
      (w.(nextSlot := id, slots := w.slots[id := Restored(guest.value, token)]),
       Leased(Lease(id, token), StateHash(guest.value), guest.value.frame))
  }

  function Pend(w: WorkerState, s: Slot, reply: Reply): WorkerState {
    if reply.Taken? then w.(pending := w.pending + [(reply.ref, s.guest)]) else w
  }

  function OnLease(f: Fixture, w: WorkerState, lease: Option<Lease>, op: SlotOp): (WorkerState, Answer) {
    var refused := CheckLease(w, lease);
    if refused.Some? then (w, Refused(refused.value))
    else
      var (s, reply) := SlotStep(f, w.slots[lease.value.slot], op);
      (Pend(w.(slots := w.slots[lease.value.slot := s]), s, reply), FromSlot(reply))
  }

  function DestroySlot(w: WorkerState, lease: Option<Lease>): (WorkerState, Answer) {
    var refused := CheckLease(w, lease);
    if refused.Some? then (w, Refused(refused.value)) else (w.(slots := w.slots - {lease.value.slot}), Destroyed)
  }

  function Serve(f: Fixture, w: WorkerState, r: Request): (WorkerState, Answer) {
    match r
    case Restore(ref) => RestoreRef(f, w, ref)
    case OnSlot(lease, op) => OnLease(f, w, lease, op)
    case RunUntilOther(_) => (w, Refused(OnlyFrameBudget))
    case Destroy(lease) => DestroySlot(w, lease)
  }

  function CommitOldest(w: WorkerState): WorkerState {
    if w.pending == [] then w
    else w.(pending := w.pending[1..], snapshots := w.snapshots[w.pending[0].0 := w.pending[0].1])
  }

  function Act(f: Fixture, w: WorkerState, a: Action): WorkerState {
    if a.Commit? then CommitOldest(w) else Serve(f, w, a.request).0
  }

  function Acts(f: Fixture, w: WorkerState, actions: seq<Action>): WorkerState
    decreases actions
  {
    if actions == [] then w else Acts(f, Act(f, w, actions[0]), actions[1..])
  }

  /** Actions happen one after the other, in the order given. */
  lemma {:induction false} ActsInOrder(f: Fixture, w: WorkerState, actions: seq<Action>, a: Action)
    ensures Acts(f, w, []) == w && Acts(f, w, actions + [a]) == Act(f, Acts(f, w, actions), a)
    decreases actions
  {
    hide Act;
    if actions == [] {
      assert [a][1..] == [] && [] + [a] == [a];
      assert Acts(f, w, [a]) == Acts(f, Act(f, w, a), []);
    } else {
      assert (actions + [a])[1..] == actions[1..] + [a];
      ActsInOrder(f, Act(f, w, actions[0]), actions[1..], a);
    }
  }

  // ---- Invariant ----

  predicate SlotsOk(f: Fixture, w: WorkerState) {
    forall i :: i in w.slots ==> i <= w.nextSlot && w.slots[i].token == HashOfSlot(i) && SlotOk(f, w.slots[i])
  }

  predicate StoreOk(f: Fixture, store: map<Digest, GuestState>) {
    forall ref :: ref in store ==> ref == SnapshotRef(store[ref]) && Consistent(f, store[ref])
  }

  predicate PendingOk(f: Fixture, pending: seq<(Digest, GuestState)>) {
    forall p :: p in pending ==> p.0 == SnapshotRef(p.1) && Consistent(f, p.1)
  }

  predicate WorkerOk(f: Fixture, w: WorkerState) {
    SlotsOk(f, w) && StoreOk(f, w.snapshots) && PendingOk(f, w.pending)
  }

  lemma RestoreKeeps(f: Fixture, w: WorkerState, ref: Digest)
    requires WorkerOk(f, w)
    ensures WorkerOk(f, RestoreRef(f, w, ref).0)
  {
    var guest := Lookup(f, w, ref);
    if guest.Some? {
      assert Consistent(f, guest.value);
      NothingScheduled(map[], guest.value.frame);
      assert SlotOk(f, Restored(guest.value, HashOfSlot(w.nextSlot + 1)));
    }
  }

  lemma TakenNamesGuest(f: Fixture, s: Slot, op: SlotOp)
    ensures SlotStep(f, s, op).1.Taken? ==> SlotStep(f, s, op).1.ref == SnapshotRef(SlotStep(f, s, op).0.guest)
  {
    if op.Inject? { InjectNeverTakes(s, op.events, 0); }
  }

  lemma {:induction false} InjectNeverTakes(s: Slot, events: seq<Event>, accepted: nat)
    ensures !InjectEvents(s, events, accepted).1.Taken?
    decreases events
  {
    if events != [] && events[0].atFrame.Some? && events[0].padSet.Some? && events[0].atFrame.value > s.guest.frame {
      InjectNeverTakes(s.(agenda := s.agenda[events[0].atFrame.value := events[0].padSet.value]), events[1..],
        accepted + 1);
    }
  }

  lemma OnLeaseKeeps(f: Fixture, w: WorkerState, lease: Option<Lease>, op: SlotOp)
    requires WorkerOk(f, w)
    ensures WorkerOk(f, OnLease(f, w, lease, op).0)
  {
    hide SlotStep, Latched, SnapshotRef;
    if CheckLease(w, lease).None? {
      StepKeepsSlot(f, w.slots[lease.value.slot], op);
      TakenNamesGuest(f, w.slots[lease.value.slot], op);
    }
  }

  lemma ActKeeps(f: Fixture, w: WorkerState, a: Action)
    requires WorkerOk(f, w)
    ensures WorkerOk(f, Act(f, w, a))
  {
    hide SlotOk, SnapshotRef, Consistent, RestoreRef, OnLease;
    if a.Handle? {
      match a.request {
        case Restore(ref) => RestoreKeeps(f, w, ref);
        case OnSlot(lease, op) => OnLeaseKeeps(f, w, lease, op);
        case _ =>
      }
    }
  }

  /**
   Every reachable worker: slot ids below the counter, tokens from ids, guests consistent, refs naming
   their guest.
   */
  lemma {:induction false} ActsKeep(f: Fixture, w: WorkerState, actions: seq<Action>)
    requires WorkerOk(f, w)
    ensures WorkerOk(f, Acts(f, w, actions))
    decreases actions
  {
    hide WorkerOk, Act;
    if actions != [] {
      ActKeeps(f, w, actions[0]);
      ActsKeep(f, Act(f, w, actions[0]), actions[1..]);
    }
  }

  // ---- The store ----

  predicate Extends(m: map<Digest, GuestState>, n: map<Digest, GuestState>) {
    forall k :: k in m ==> k in n && n[k] == m[k]
  }

  lemma ActExtendsStore(f: Fixture, w: WorkerState, a: Action)
    requires WorkerOk(f, w)
    ensures Extends(w.snapshots, Act(f, w, a).snapshots)
  {
    if a.Commit? && w.pending != [] {
      var (ref, g) := w.pending[0];
      assert w.pending[0] in w.pending;
      if ref in w.snapshots { StateHashFaithful(f, g, w.snapshots[ref]); }
    }
  }

  /** No run of requests ever changes or drops a stored snapshot: re-inserting a reference stores the same guest. */
  lemma {:induction false} StoreOnlyGrows(f: Fixture, w: WorkerState, actions: seq<Action>)
    requires WorkerOk(f, w)
    ensures Extends(w.snapshots, Acts(f, w, actions).snapshots)
    decreases actions
  {
    hide WorkerOk, Act;
    if actions != [] {
      ActExtendsStore(f, w, actions[0]);
      ActKeeps(f, w, actions[0]);
      StoreOnlyGrows(f, Act(f, w, actions[0]), actions[1..]);
    }
  }

  // ---- Isolation ----

  /** The slot an action's lease addresses, or the one a restore would create. */
  predicate Touches(w: WorkerState, a: Action, i: nat) {
    a.Handle? && match a.request
                 case Restore(_) => i == w.nextSlot + 1
                 case OnSlot(lease, _) => lease.Some? && lease.value.slot == i
                 case RunUntilOther(_) => false
                 case Destroy(lease) => lease.Some? && lease.value.slot == i
  }

  predicate SameSlot(w: WorkerState, v: WorkerState, i: nat) {
    (i in w.slots <==> i in v.slots) && (i in w.slots && i in v.slots ==> w.slots[i] == v.slots[i])
  }

  lemma OthersUntouched(f: Fixture, w: WorkerState, a: Action, i: nat)
    requires !Touches(w, a, i)
    ensures SameSlot(w, Act(f, w, a), i)
  {
    hide SlotStep, Lookup;
  }

  predicate NeverTouched(f: Fixture, w: WorkerState, actions: seq<Action>, i: nat)
    decreases actions
  {
    actions == [] || (!Touches(w, actions[0], i) && NeverTouched(f, Act(f, w, actions[0]), actions[1..], i))
  }

  /** However other slots are used, restored or destroyed, a slot nobody addresses is unchanged. */
  lemma {:induction false} SlotIsolated(f: Fixture, w: WorkerState, actions: seq<Action>, i: nat)
    requires NeverTouched(f, w, actions, i)
    ensures var v := Acts(f, w, actions);
            (i in w.slots <==> i in v.slots) && (i in w.slots && i in v.slots ==> v.slots[i] == w.slots[i])
    decreases actions
  {
    hide Act, Touches;
    if actions != [] {
      OthersUntouched(f, w, actions[0], i);
      SlotIsolated(f, Act(f, w, actions[0]), actions[1..], i);
    }
  }

  // ---- Leases ----

  lemma {:induction false} SlotStaysGone(f: Fixture, w: WorkerState, actions: seq<Action>, i: nat)
    requires i <= w.nextSlot && i !in w.slots
    ensures i !in Acts(f, w, actions).slots
    decreases actions
  {
    hide SlotStep, Lookup;
    if actions != [] {
      SlotStaysGone(f, Act(f, w, actions[0]), actions[1..], i);
    }
  }

  /** A destroyed lease is dead for good: its slot number is never given out again. */
  lemma DestroyedForGood(f: Fixture, w: WorkerState, lease: Lease, actions: seq<Action>, op: SlotOp)
    requires WorkerOk(f, w) && DestroySlot(w, Some(lease)).1.Destroyed?
    ensures OnLease(f, Acts(f, DestroySlot(w, Some(lease)).0, actions), Some(lease), op).1 == Refused(SlotEmpty)
  {
    SlotStaysGone(f, DestroySlot(w, Some(lease)).0, actions, lease.slot);
  }

  /** Only the lease handed out for a live slot opens it. */
  lemma LeaseUnforgeable(f: Fixture, w: WorkerState, lease: Lease, op: SlotOp)
    requires WorkerOk(f, w)
    ensures OnLease(f, w, Some(lease), op).1.FromSlot? <==>
            lease.slot in w.slots && lease.token == HashOfSlot(lease.slot)
  {
    hide SlotStep;
  }

  // ---- Continuity ----

  function SlotActions(lease: Lease, ops: seq<SlotOp>): seq<Action>
    decreases ops
  {
    if ops == [] then [] else [Handle(OnSlot(Some(lease), ops[0]))] + SlotActions(lease, ops[1..])
  }

  function Answers(f: Fixture, w: WorkerState, actions: seq<Action>): seq<Answer>
    decreases actions
  {
    if actions == [] then []
    else
      var rest := Answers(f, Act(f, w, actions[0]), actions[1..]);
      if actions[0].Handle? then [Serve(f, w, actions[0].request).1] + rest else rest
  }

  function AsAnswers(replies: seq<Reply>): (r: seq<Answer>)
    decreases replies
  {
    if replies == [] then [] else [FromSlot(replies[0])] + AsAnswers(replies[1..])
  }

  /** Requests on one live lease are answered by the slot alone. */
  lemma {:induction false} AnswersAreReplies(f: Fixture, w: WorkerState, lease: Lease, ops: seq<SlotOp>)
    requires WorkerOk(f, w) && CheckLease(w, Some(lease)).None?
    ensures Answers(f, w, SlotActions(lease, ops)) == AsAnswers(Replies(f, w.slots[lease.slot], ops))
    decreases ops
  {
    hide SlotStep, WorkerOk;
    if ops != [] {
      var a := Handle(OnSlot(Some(lease), ops[0]));
      var rest := SlotActions(lease, ops[1..]);
      assert ([a] + rest)[1..] == rest;
      ActKeeps(f, w, a);
      StepKeepsToken(f, w, w.slots[lease.slot], ops[0], lease);
      AnswersAreReplies(f, Act(f, w, a), lease, ops[1..]);
      var r := SlotStep(f, w.slots[lease.slot], ops[0]);
      var later := Replies(f, r.0, ops[1..]);
      assert ([r.1] + later)[1..] == later;
    }
  }

  lemma StepKeepsToken(f: Fixture, w: WorkerState, s: Slot, op: SlotOp, lease: Lease)
    requires WorkerOk(f, w) && CheckLease(w, Some(lease)).None? && s == w.slots[lease.slot]
    ensures SlotStep(f, s, op).0.token == lease.token
  {
    hide SlotStep;
    StepKeepsSlot(f, s, op);
  }

  /** No sequence of requests on the one lease is told from the same sequence on the other. */
  ghost predicate SameAnswers(f: Fixture, w: WorkerState, lease: Lease, v: WorkerState, other: Lease) {
    forall ops :: Answers(f, w, SlotActions(lease, ops)) == Answers(f, v, SlotActions(other, ops))
  }

  lemma SlotsAnswer(f: Fixture, w: WorkerState, lease: Lease, v: WorkerState, other: Lease)
    requires WorkerOk(f, w) && CheckLease(w, Some(lease)).None?
    requires WorkerOk(f, v) && CheckLease(v, Some(other)).None?
    ensures SameAnswers(f, w, lease, v, other) <==> SameReplies(f, w.slots[lease.slot], v.slots[other.slot])
  {
    hide Replies, SlotActions, Answers, WorkerOk;
    var (s, t) := (w.slots[lease.slot], v.slots[other.slot]);
    forall ops ensures Answers(f, w, SlotActions(lease, ops)) == Answers(f, v, SlotActions(other, ops))
                   <==> Replies(f, s, ops) == Replies(f, t, ops) {
      AnswersAreReplies(f, w, lease, ops);
      AnswersAreReplies(f, v, other, ops);
      AsAnswersInjective(Replies(f, s, ops), Replies(f, t, ops));
    }
  }

  predicate Snapshots(f: Fixture, w: WorkerState, lease: Lease, spec: Option<CaptureSpec>) {
    CheckLease(w, Some(lease)).None? && TakeSlot(f, w.slots[lease.slot], spec).Taken?
  }

  /** The worker after a snapshot of the slot and anything that follows. */
  function After(f: Fixture, w: WorkerState, lease: Lease, spec: Option<CaptureSpec>,
                 between: seq<Action>): WorkerState
  {
    Acts(f, Act(f, w, Handle(OnSlot(Some(lease), Take(spec)))), between)
  }

  /** A reachable worker that holds a reference holds the guest it was made of. */
  lemma RefBringsGuestBack(f: Fixture, v: WorkerState, g: GuestState)
    requires WorkerOk(f, v) && Consistent(f, g) && SnapshotRef(g) in v.snapshots && !f.corruptMidRunRestores
    ensures var (u, got) := RestoreRef(f, v, SnapshotRef(g));
            && WorkerOk(f, u) && got.Leased? && CheckLease(u, Some(got.lease)).None?
            && u.slots[got.lease.slot] == Restored(g, got.lease.token)
            && got.hash == StateHash(g) && got.frame == g.frame
  {
    hide WorkerOk;
    StoredGuest(f, v, g);
    RestoreKeeps(f, v, SnapshotRef(g));
  }

  lemma StoredGuest(f: Fixture, v: WorkerState, g: GuestState)
    requires WorkerOk(f, v) && Consistent(f, g) && SnapshotRef(g) in v.snapshots
    ensures v.snapshots[SnapshotRef(g)] == g && SnapshotRef(g) != f.readyRef
  {
    StateHashFaithful(f, g, v.snapshots[SnapshotRef(g)]);
  }

  /**
   Snapshot, anything, restore: once its reference is stored, whatever happened in between, a restore
   gives a lease on which every sequence of requests is answered as the slot would have answered it
   at the snapshot, exactly when that slot's last due pad word was not a wide zero.
   */
  lemma SnapshotContinuity(f: Fixture, w: WorkerState, lease: Lease, spec: Option<CaptureSpec>, between: seq<Action>)
    requires WorkerOk(f, w) && !f.corruptMidRunRestores && Snapshots(f, w, lease, spec)
    requires SnapshotRef(w.slots[lease.slot].guest) in After(f, w, lease, spec, between).snapshots
    ensures var s := w.slots[lease.slot];
            var (u, got) := RestoreRef(f, After(f, w, lease, spec, between), SnapshotRef(s.guest));
            && got.Leased? && got.hash == StateHash(s.guest) && got.frame == s.guest.frame
            && (SameAnswers(f, u, got.lease, w, lease) <==> Settled(s))
  {
    hide WorkerOk, SameAnswers, SameReplies, Settled, RestoreRef, SnapshotRef, Act, TakeSlot, Consistent, Latched;
    var s := w.slots[lease.slot];
    SlotFacts(f, w, lease, spec);
    ActKeeps(f, w, Handle(OnSlot(Some(lease), Take(spec))));
    ActsKeep(f, Act(f, w, Handle(OnSlot(Some(lease), Take(spec)))), between);
    RefBringsGuestBack(f, After(f, w, lease, spec, between), s.guest);
    var (u, got) := RestoreRef(f, After(f, w, lease, spec, between), SnapshotRef(s.guest));
    SlotsAnswer(f, u, got.lease, w, lease);
    RestoreContinuity(f, s, got.lease.token);
    SameRepliesSymmetric(f, s, u.slots[got.lease.slot]);
  }

  lemma SlotFacts(f: Fixture, w: WorkerState, lease: Lease, spec: Option<CaptureSpec>)
    requires WorkerOk(f, w) && Snapshots(f, w, lease, spec)
    ensures var s := w.slots[lease.slot]; Consistent(f, s.guest) && Latched(s) && Drained(s)
  {
  }

  lemma SameRepliesSymmetric(f: Fixture, s: Slot, t: Slot)
    ensures SameReplies(f, s, t) <==> SameReplies(f, t, s)
  {
  }

  lemma {:induction false} AsAnswersInjective(r: seq<Reply>, q: seq<Reply>)
    ensures AsAnswers(r) == AsAnswers(q) <==> r == q
    decreases r
  {
    if r != [] && q != [] {
      AsAnswersInjective(r[1..], q[1..]);
      assert r == [r[0]] + r[1..] && q == [q[0]] + q[1..];
      assert AsAnswers(r)[0] == FromSlot(r[0]) && AsAnswers(r)[1..] == AsAnswers(r[1..]);
      assert AsAnswers(q)[0] == FromSlot(q[0]) && AsAnswers(q)[1..] == AsAnswers(q[1..]);
    }
  }

  // ---- Double runs and the negative test ----

  /** Restoring one reference twice, with anything in between, gives leases nothing tells apart, perturbed or not. */
  lemma DoubleRun(f: Fixture, w: WorkerState, ref: Digest, between: seq<Action>)
    requires WorkerOk(f, w) && Lookup(f, w, ref).Some?
    ensures var (u, first) := RestoreRef(f, w, ref);
            var (v, second) := RestoreRef(f, Acts(f, u, between), ref);
            first.Leased? && second.Leased? && first.hash == second.hash
              && SameAnswers(f, u, first.lease, v, second.lease)
  {
    hide WorkerOk, SameAnswers, SameReplies, Acts;
    var (u, first) := RestoreRef(f, w, ref);
    var u1 := Acts(f, u, between);
    RestoreKeeps(f, w, ref);
    ActsKeep(f, u, between);
    StoreOnlyGrows(f, u, between);
    var (v, second) := RestoreRef(f, u1, ref);
    RestoreKeeps(f, u1, ref);
    var (s, t) := (u.slots[first.lease.slot], v.slots[second.lease.slot]);
    NothingScheduled(map[], s.guest.frame);
    TwinsAlike(f, s, t);
    SlotsAnswer(f, u, first.lease, v, second.lease);
  }

  lemma TwinsAlike(f: Fixture, s: Slot, t: Slot)
    requires s.guest == t.guest && s.agenda == t.agenda && Latched(s)
    ensures SameReplies(f, s, t)
  {
    forall ops ensures Replies(f, s, ops) == Replies(f, t, ops) {
      Bisimilar(f, s, t, ops);
    }
  }

  /** The negative-test mode is caught at once by the state hash, and leaves the READY root alone. */
  lemma CorruptRestoreShows(f: Fixture, v: WorkerState, g: GuestState)
    requires WorkerOk(f, v) && Consistent(f, g) && SnapshotRef(g) in v.snapshots
    ensures RestoreRef(f, v, SnapshotRef(g)).1.hash == StateHash(g) <==> !f.corruptMidRunRestores
    ensures RestoreRef(f, v, f.readyRef).1.hash == StateHash(Ready(f))
  {
    StoredGuest(f, v, g);
  }
}
