/** The mock hypervisor worker as the object its handlers mutate, each handler proved against `Worker`. */
module Mock {
  import opened Timing
  import opened Guest
  import opened Slots
  import opened Worker

  class MockWorker {
    const fixture: Fixture
    var slots: map<nat, Slot>
    var snapshots: map<Digest, GuestState>
    var nextSlot: nat

    constructor (fixture: Fixture)
      ensures this.fixture == fixture && Now() == EMPTY && WorkerOk(fixture, Now())
    {
      this.fixture := fixture;
      slots, snapshots, nextSlot := map[], map[], 0;
    }

    /** The abstract state between requests, when no snapshot is on its way to the store. */
    function Now(): WorkerState
      reads this
    {
      WorkerState(slots, snapshots, nextSlot, [])
    }

    method RestoreSnapshot(ref: Digest) returns (answer: Answer)
      modifies this`slots, this`nextSlot
      ensures (Now(), answer) == RestoreRef(fixture, old(Now()), ref)
      ensures WorkerOk(fixture, old(Now())) ==> WorkerOk(fixture, Now())
    {
      RestoreKept(ref);
      var guest: GuestState;
      if ref == fixture.readyRef {
        guest := Ready(fixture);
      } else if ref in snapshots {
        guest := snapshots[ref];
        if fixture.corruptMidRunRestores {
          guest := guest.(nonzeroPads := guest.nonzeroPads + 1);
        }
      } else {
        return Refused(SnapshotNotFound);
      }
      nextSlot := nextSlot + 1;
      var token := HashOfSlot(nextSlot);
      answer := Leased(Lease(nextSlot, token), StateHash(guest), guest.frame);
      slots := slots[nextSlot := Slot(token, guest, map[])];
    }

    lemma RestoreKept(ref: Digest)
      ensures WorkerOk(fixture, Now()) ==> WorkerOk(fixture, RestoreRef(fixture, Now(), ref).0)
    {
      if WorkerOk(fixture, Now()) { RestoreKeeps(fixture, Now(), ref); }
    }

    method FindSlot(lease: Option<Lease>) returns (refused: Option<Status>)
      ensures refused == CheckLease(Now(), lease)
    {
      if lease.None? { return Some(MissingLease); }
      if lease.value.slot !in slots { return Some(SlotEmpty); }
      if slots[lease.value.slot].token != lease.value.token { return Some(StaleLease); }
      return None;
    }

    /** An event accepted before a refused one stays in the agenda. */
    method InjectInputs(lease: Option<Lease>, events: seq<Event>) returns (answer: Answer)
      modifies this`slots
      ensures (Now(), answer) == OnLease(fixture, old(Now()), lease, Inject(events))
    {
      var refused := FindSlot(lease);
      if refused.Some? { return Refused(refused.value); }
      var id := lease.value.slot;
      ghost var goal := InjectEvents(slots[id], events, 0);
      InjectNeverTakes(slots[id], events, 0);
      for i := 0 to |events|
        invariant id in slots && slots == old(slots)[id := slots[id]]
        invariant InjectEvents(slots[id], events[i..], i) == goal
      {
        assert events[i..][0] == events[i] && events[i..][1..] == events[i + 1..];
        var s := slots[id];
        if events[i].atFrame.None? { return FromSlot(Failed(OnlyAtFrame)); }
        if events[i].atFrame.value <= s.guest.frame { return FromSlot(Failed(NotInFuture)); }
        if events[i].padSet.None? { return FromSlot(Failed(OnlyPadSet)); }
        slots := slots[id := s.(agenda := s.agenda[events[i].atFrame.value := events[i].padSet.value])];
      }
      answer := FromSlot(Injected(|events|));
    }

    method RunFrameOnce(id: nat)
      requires id in slots
      modifies this`slots
      ensures var s := old(slots[id]);
              slots == old(slots)[id := s.(guest := RunFrame(fixture, s.guest, s.agenda))]
    {
      var s := slots[id];
      var g := s.guest.(frame := s.guest.frame + 1, metaFrame := s.guest.metaFrame + 1, running := true);
      var live := LivePad(s.agenda, g.frame);
      var pad := if live.Some? then live.value else g.lastPad;
      g := g.(lastPad := pad % 0x1_0000);
      if pad != 0 {
        g := g.(nonzeroPads := g.nonzeroPads + 1);
        if g.nonzeroPads >= fixture.transitionAfterPads {
          g := g.(room := fixture.roomTarget);
        }
      }
      slots := slots[id := s.(guest := g)];
    }

    /** The frames are run in the slot itself, so a refused capture does not take them back. */
    method Run(lease: Option<Lease>, frameBudget: Option<nat>, capture: Option<CaptureSpec>) returns (answer: Answer)
      modifies this`slots
      ensures (Now(), answer) == Serve(fixture, old(Now()),
                                       if frameBudget.None? then RunUntilOther(lease)
                                       else OnSlot(lease, Slots.Run(frameBudget.value, capture)))
    {
      hide RunFrame, TakeCapture;
      if frameBudget.None? { return Refused(OnlyFrameBudget); }
      var refused := FindSlot(lease);
      if refused.Some? { return Refused(refused.value); }
      var id := lease.value.slot;
      ghost var goal := RunFrames(fixture, slots[id].guest, slots[id].agenda, frameBudget.value);
      for i := 0 to frameBudget.value
        invariant id in slots && slots == old(slots)[id := slots[id]]
        invariant slots[id] == old(slots[id]).(guest := slots[id].guest)
        invariant RunFrames(fixture, slots[id].guest, slots[id].agenda, frameBudget.value - i) == goal
      {
        RunFrameOnce(id);
      }
      var s := slots[id];
      match TakeCapture(fixture, s.guest, capture) {
        case Err(status) => answer := FromSlot(Failed(status));
        case Ok(c) => answer := FromSlot(Ran(s.guest.frame * 1000, StateHash(s.guest), frameBudget.value, c));
      }
    }

    /** The reading section, then the storing section. */
    method TakeSnapshot(lease: Option<Lease>, capture: Option<CaptureSpec>) returns (answer: Answer)
      modifies this`snapshots
      ensures Now() == CommitOldest(OnLease(fixture, old(Now()), lease, Take(capture)).0)
      ensures answer == OnLease(fixture, old(Now()), lease, Take(capture)).1
    {
      hide TakeCapture;
      var refused := FindSlot(lease);
      if refused.Some? { return Refused(refused.value); }
      var s := slots[lease.value.slot];
      assert slots[lease.value.slot := s] == slots;
      if exists at :: at in s.agenda && at > s.guest.frame {
        return FromSlot(Failed(AgendaNotEmpty));
      }
      match TakeCapture(fixture, s.guest, capture) {
        case Err(status) => return FromSlot(Failed(status));
        case Ok(c) =>
          var ref := SnapshotRef(s.guest);
          snapshots := snapshots[ref := s.guest];
          answer := FromSlot(Taken(ref, s.guest.frame, StateHash(s.guest), c));
      }
    }

    method ReadGuestMemory(lease: Option<Lease>, rawRanges: nat, ranges: seq<Range>) returns (answer: Answer)
      ensures (Now(), answer) == OnLease(fixture, Now(), lease, ReadMemory(rawRanges, ranges))
    {
      hide ReadRegion;
      var refused := FindSlot(lease);
      if refused.Some? { return Refused(refused.value); }
      var s := slots[lease.value.slot];
      assert slots[lease.value.slot := s] == slots;
      if rawRanges > 0 { return FromSlot(Failed(OnlyRegionReads)); }
      var chunks := [];
      ghost var goal := ReadRegions(fixture, s.guest, ranges);
      PrependNone(goal);
      assert ranges[0..] == ranges;
      for i := 0 to |ranges|
        invariant Prepend(chunks, ReadRegions(fixture, s.guest, ranges[i..])) == goal
      {
        assert ranges[i..][0] == ranges[i] && ranges[i..][1..] == ranges[i + 1..];
        match ReadRegion(fixture, s.guest, ranges[i]) {
          case Err(status) => return FromSlot(Failed(status));
          case Ok(chunk) =>
            PrependOne(chunks, chunk, ReadRegions(fixture, s.guest, ranges[i + 1..]));
            chunks := chunks + [chunk];
        }
      }
      assert ranges[|ranges|..] == [] && goal == Ok(chunks + []) && chunks + [] == chunks;
      answer := FromSlot(Chunks(chunks, s.guest.frame * 1000));
    }

    method DestroyVm(lease: Option<Lease>) returns (answer: Answer)
      modifies this`slots
      ensures (Now(), answer) == DestroySlot(old(Now()), lease)
    {
      if lease.None? { return Refused(MissingLease); }
      var id := lease.value.slot;
      if id !in slots { return Refused(SlotEmpty); }
      var s := slots[id];
      slots := slots - {id};
      if s.token == lease.value.token { return Destroyed; }
      slots := slots[id := s];
      assert slots == old(slots);
      answer := Refused(StaleLease);
    }
  }

  function Prepend(chunks: seq<seq<byte>>, rest: Result<seq<seq<byte>>>): Result<seq<seq<byte>>> {
    match rest
    case Err(e) => Err(e)
    case Ok(more) => Ok(chunks + more)
  }

  lemma PrependNone(rest: Result<seq<seq<byte>>>)
    ensures Prepend([], rest) == rest
  {
    if rest.Ok? {
      assert [] + rest.value == rest.value;
    }
  }

  lemma PrependOne(chunks: seq<seq<byte>>, chunk: seq<byte>, rest: Result<seq<seq<byte>>>)
    ensures Prepend(chunks, Prepend([chunk], rest)) == Prepend(chunks + [chunk], rest)
  {
    if rest.Ok? {
      assert chunks + ([chunk] + rest.value) == chunks + [chunk] + rest.value;
    }
  }
}
