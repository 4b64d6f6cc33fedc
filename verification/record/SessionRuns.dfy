/** What whole sessions leave on disk, and why two sessions leave what one would have left. */
module SessionRuns {
  import opened Timing
  import opened Recording
  import opened Protocol
  import opened Fidelity
  import opened RecorderObject

  // ---- What a session should leave, from its inputs ----

  function PadsOf(inputs: seq<Input>): seq<Pad> { seq(|inputs|, i requires 0 <= i < |inputs| => inputs[i].pad) }

  /** The index entries of the dumps asked for, the first input being frame `from`. */
  function DumpsOf(inputs: seq<Input>, from: nat): seq<DumpMeta> {
    if inputs == [] then []
    else
      var n := |inputs| - 1;
      DumpsOf(inputs[..n], from)
      + if inputs[n].dump.Some? then [DumpMeta(inputs[n].dump.value.0, from + n, inputs[n].dump.value.1)] else []
  }

  /** The dump files: each holds the memory after the frame of the last dump into it. */
  function FilesOf(b: Build, before: seq<Pad>, inputs: seq<Input>, files: map<string, seq<byte>>): map<string,
      seq<byte>> {
    if inputs == [] then files
    else
      var n := |inputs| - 1;
      var earlier := FilesOf(b, before, inputs[..n], files);
      if inputs[n].dump.Some? then earlier[inputs[n].dump.value.1 := After(b, before + PadsOf(inputs)).wram]
        else earlier
  }

  lemma PadsAppend(xs: seq<Input>, ys: seq<Input>)
    ensures PadsOf(xs + ys) == PadsOf(xs) + PadsOf(ys)
  {
  }

  lemma {:induction false} DumpsAppend(xs: seq<Input>, ys: seq<Input>, from: nat)
    ensures DumpsOf(xs + ys, from) == DumpsOf(xs, from) + DumpsOf(ys, from + |xs|)
    decreases |ys|
  {
    if ys == [] {
      assert xs + ys == xs;
    } else {
      var n := |ys| - 1;
      assert (xs + ys)[..|xs| + n] == xs + ys[..n];
      DumpsAppend(xs, ys[..n], from);
    }
  }

  lemma {:induction false} FilesAppend(b: Build, before: seq<Pad>, xs: seq<Input>, ys: seq<Input>,
      files: map<string, seq<byte>>)
    ensures FilesOf(b, before, xs + ys, files)
            == FilesOf(b, before + PadsOf(xs), ys, FilesOf(b, before, xs, files))
    decreases |ys|
  {
    hide After;
    if ys == [] {
      assert xs + ys == xs;
    } else {
      var n := |ys| - 1;
      assert (xs + ys)[..|xs| + n] == xs + ys[..n];
      FilesAppend(b, before, xs, ys[..n], files);
      PadsAppend(xs, ys);
      assert before + PadsOf(xs) + PadsOf(ys) == before + PadsOf(xs + ys);
    }
  }

  // ---- The live loop ----

  function FramesActions(inputs: seq<Input>): seq<Action> {
    if inputs == [] then [] else FramesActions(inputs[..|inputs| - 1]) + FrameActions(inputs[|inputs| - 1])
  }

  lemma {:induction false} FramesFirst(inputs: seq<Input>)
    requires inputs != []
    ensures FramesActions(inputs) == FrameActions(inputs[0]) + FramesActions(inputs[1..])
    decreases |inputs|
  {
    hide FrameActions;
    var n := |inputs| - 1;
    if n == 0 {
      assert FramesActions(inputs[..0]) == [] && FramesActions(inputs[1..]) == [];
    } else {
      FramesFirst(inputs[..n]);
      assert inputs[..n][1..] == inputs[1..][..n - 1];
      var (x, y, z) := (FrameActions(inputs[0]), FramesActions(inputs[1..][..n - 1]), FrameActions(inputs[n]));
      assert x + y + z == x + (y + z);
    }
  }

  lemma {:induction false} LiveIsFrames(inputs: seq<Input>)
    ensures LiveActions(inputs) == FramesActions(inputs) + [Escape, Save]
    decreases inputs
  {
    hide FrameActions;
    if inputs != [] {
      LiveIsFrames(inputs[1..]);
      FramesFirst(inputs);
      var (x, y, z) := (FrameActions(inputs[0]), FramesActions(inputs[1..]), [Escape, Save]);
      assert x + y + z == x + (y + z);
    }
  }

  /** The process is between frames, with the log and the core where `pads` leave them. */
  predicate LiveAt(b: Build, w: World, pads: seq<Pad>) {
    w.proc.Live? && w.disk.log == Lines(pads) && w.proc.frame == |pads| && w.proc.core == After(b, pads)
  }

  /** One frame with its dump, if one is asked for. */
  lemma OneFrame(b: Build, w: World, pads: seq<Pad>, input: Input)
    requires LiveAt(b, w, pads) && RunsClean(b, pads + [input.pad])
    ensures var v := DoAll(b, w, FrameActions(input));
            && LiveAt(b, v, pads + [input.pad])
            && v.proc.session.dumps == w.proc.session.dumps + DumpsOf([input], |pads|)
            && v.proc.session.emu == w.proc.session.emu && v.proc.session.rom == w.proc.session.rom
            && v.disk.files == FilesOf(b, pads, [input], w.disk.files)
            && (w.torn == map[] ==> v.torn == map[])
  {
    hide After, RunsClean;
    DoFour(b, w, FrameActions(input));
    NextCore(b, pads, input.pad);
    assert [input][..0] == [] && PadsOf([input]) == [input.pad];
    assert DumpsOf([input][..0], |pads|) == [] && FilesOf(b, pads, [input][..0], w.disk.files) == w.disk.files;
    var v := Do(b, Do(b, w, RunFrame(input.pad)), AppendLine);
    assert v.proc == Logged(w.proc.session, |pads|, After(b, pads + [input.pad]))
      && v.disk.log == Lines(pads + [input.pad]);
    if input.dump.None? {
      assert v.proc.session.dumps + [] == v.proc.session.dumps;
      assert Do(b, Do(b, v, NoDump), Save) == Do(b, v, NoDump);
    }
  }

  lemma NextCore(b: Build, pads: seq<Pad>, pad: Pad)
    requires RunsClean(b, pads + [pad])
    ensures RunsClean(b, pads) && After(b, pads + [pad]) == b.step(After(b, pads), pad)
            && !After(b, pads + [pad]).faulted
  {
    assert (pads + [pad])[..|pads|] == pads;
  }

  /** Any number of frames. */
  lemma {:induction false} LiveRuns(b: Build, w: World, pads: seq<Pad>, inputs: seq<Input>)
    requires LiveAt(b, w, pads) && RunsClean(b, pads + PadsOf(inputs))
    ensures var v := DoAll(b, w, FramesActions(inputs));
            && LiveAt(b, v, pads + PadsOf(inputs))
            && v.proc.session.dumps == w.proc.session.dumps + DumpsOf(inputs, |pads|)
            && v.proc.session.emu == w.proc.session.emu && v.proc.session.rom == w.proc.session.rom
            && v.disk.files == FilesOf(b, pads, inputs, w.disk.files)
            && (w.torn == map[] ==> v.torn == map[])
    decreases |inputs|
  {
    hide After, RunsClean, FrameActions;
    if inputs == [] {
      assert pads + PadsOf(inputs) == pads;
      assert w.proc.session.dumps + [] == w.proc.session.dumps;
    } else {
      var (front, last) := (inputs[..|inputs| - 1], inputs[|inputs| - 1]);
      assert inputs == front + [last];
      PadsAppend(front, [last]);
      assert pads + PadsOf(inputs) == pads + PadsOf(front) + [last.pad];
      NextCore(b, pads + PadsOf(front), last.pad);
      LiveRuns(b, w, pads, front);
      DoAllAppends(b, w, FramesActions(front), FrameActions(last));
      OneFrame(b, DoAll(b, w, FramesActions(front)), pads + PadsOf(front), last);
      DumpsAppend(front, [last], |pads|);
      FilesAppend(b, pads, front, [last], w.disk.files);
    }
  }

  /** The disk after a live loop that ends with Esc. */
  predicate Left(b: Build, d: Disk, s: Session, pads: seq<Pad>, inputs: seq<Input>, files: map<string, seq<byte>>) {
    d == Disk(Lines(pads + PadsOf(inputs)),
              Some(Session(s.dumps + DumpsOf(inputs, |pads|), Some(|pads| + |inputs|), s.emu, s.rom)),
              FilesOf(b, pads, inputs, files))
  }

  lemma LiveLeaves(b: Build, w: World, pads: seq<Pad>, inputs: seq<Input>)
    requires LiveAt(b, w, pads) && RunsClean(b, pads + PadsOf(inputs))
    ensures var v := DoAll(b, w, LiveActions(inputs));
            && v.proc.Idle? && Left(b, v.disk, w.proc.session, pads, inputs, w.disk.files)
            && (w.torn == map[] ==> v.torn == map[])
  {
    hide After, RunsClean, DoAll, FramesActions, LiveActions, FilesOf, DumpsOf;
    LiveIsFrames(inputs);
    LiveRuns(b, w, pads, inputs);
    DoAllAppends(b, w, FramesActions(inputs), [Escape, Save]);
    DoTwo(b, DoAll(b, w, FramesActions(inputs)), Escape, Save);
  }

  // ---- Whole sessions ----

  lemma FreshStarts(b: Build)
    ensures var w := DoAll(b, FIRST_BOOT, StartActions(false, false));
            && LiveAt(b, w, []) && w.proc.session == Session([], None, Some(b.emu), Some(b.rom))
            && w.disk.files == map[] && w.torn == map[]
  {
    DoFour(b, FIRST_BOOT, StartActions(false, false));
  }

  /**
   A fresh session without a fault leaves the log of its pads, an index of its dumps with the frame
   count and the stamps, and in every dump file the memory after the frame last dumped to it.
   */
  lemma SessionRecords(b: Build, inputs: seq<Input>)
    requires RunsClean(b, PadsOf(inputs))
    ensures var w := DoAll(b, FIRST_BOOT, StartActions(false, false) + LiveActions(inputs));
            && w.proc.Idle? && w.torn == map[]
            && w.disk == Disk(Lines(PadsOf(inputs)),
                              Some(Session(DumpsOf(inputs, 0), Some(|inputs|), Some(b.emu), Some(b.rom))),
                              FilesOf(b, [], inputs, map[]))
  {
    hide RunsClean, DoAll, StartActions, LiveActions, LiveAt, FilesOf, DumpsOf;
    var w := DoAll(b, FIRST_BOOT, StartActions(false, false));
    FreshStarts(b);
    DoAllAppends(b, FIRST_BOOT, StartActions(false, false), LiveActions(inputs));
    assert [] + PadsOf(inputs) == PadsOf(inputs) && [] + DumpsOf(inputs, 0) == DumpsOf(inputs, 0);
    LiveLeaves(b, w, [], inputs);
  }

  lemma ResumeStarts(b: Build, w: World, skip: bool)
    requires w.proc.Idle? && Resumable(b, w.disk, skip)
    ensures var v := DoAll(b, w, StartActions(true, skip));
            && LiveAt(b, v, Pads(w)) && v.proc.session == Load(w.disk)
            && v.disk.saved == w.disk.saved && v.disk.files == w.disk.files && v.torn == w.torn
  {
    hide Resumable, After;
    DoFour(b, w, StartActions(true, skip));
    ResumableParses(b, w.disk, skip);
    if w.disk.log.NoLog? { NothingRun(b); }
  }

  lemma ResumableParses(b: Build, d: Disk, skip: bool)
    requires Resumable(b, d, skip)
    ensures !d.log.Bare? && ParseLog(d.log) == Some(Recorded(d.log))
  {
    hide Replay, CheckIntegrity;
  }

  lemma NothingRun(b: Build)
    ensures After(b, []) == b.powerOn
  {
  }

  /** A resumed session adds its own pads, dumps and files to what it found. */
  lemma ResumeRecords(b: Build, w: World, skip: bool, inputs: seq<Input>)
    requires w.proc.Idle? && Resumable(b, w.disk, skip) && RunsClean(b, Pads(w) + PadsOf(inputs))
    ensures var v := DoAll(b, w, StartActions(true, skip) + LiveActions(inputs));
            && v.proc.Idle? && (w.torn == map[] ==> v.torn == map[])
            && v.disk == Disk(Lines(Pads(w) + PadsOf(inputs)),
                              Some(Session(Load(w.disk).dumps + DumpsOf(inputs, |Pads(w)|), Some(|Pads(w)| + |inputs|),
                                           Load(w.disk).emu, Load(w.disk).rom)),
                              FilesOf(b, Pads(w), inputs, w.disk.files))
  {
    hide RunsClean, DoAll, StartActions, LiveActions, LiveAt, FilesOf, DumpsOf, Resumable;
    ResumeStarts(b, w, skip);
    DoAllAppends(b, w, StartActions(true, skip), LiveActions(inputs));
    LiveLeaves(b, DoAll(b, w, StartActions(true, skip)), Pads(w), inputs);
  }

  lemma {:induction false} CleanPart(b: Build, pads: seq<Pad>, more: seq<Pad>)
    requires RunsClean(b, pads + more)
    ensures RunsClean(b, pads)
    decreases |more|
  {
    if more == [] {
      assert pads + more == pads;
    } else {
      assert (pads + more)[..|pads + more| - 1] == pads + more[..|more| - 1];
      CleanPart(b, pads, more[..|more| - 1]);
    }
  }

  /**
   Stopping and going on later changes nothing: a session closed after its first part and resumed for
   the second leaves exactly the disk of the one session, and the resume in between is accepted.
   */
  lemma OneSessionOrTwo(b: Build, first: seq<Input>, second: seq<Input>)
    requires RunsClean(b, PadsOf(first + second)) && |first| <= MAX_FRAMES
    ensures var w := DoAll(b, FIRST_BOOT, StartActions(false, false) + LiveActions(first));
            && Resumable(b, w.disk, false)
            && DoAll(b, w, StartActions(true, false) + LiveActions(second)).disk
               == DoAll(b, FIRST_BOOT, StartActions(false, false) + LiveActions(first + second)).disk
  {
    hide RunsClean, DoAll, StartActions, LiveActions, FilesOf, DumpsOf, Resumable;
    PadsAppend(first, second);
    CleanPart(b, PadsOf(first), PadsOf(second));
    SessionRecords(b, first);
    SessionRecords(b, first + second);
    ClosedResumes(b, first);
    var w := DoAll(b, FIRST_BOOT, StartActions(false, false) + LiveActions(first));
    ResumeRecords(b, w, false, second);
    DumpsAppend(first, second, 0);
    FilesAppend(b, [], first, second, map[]);
    assert [] + PadsOf(first) == PadsOf(first);
  }

  /** A closed session is always resumable, up to the format's frame limit. */
  lemma ClosedResumes(b: Build, inputs: seq<Input>)
    requires RunsClean(b, PadsOf(inputs)) && |inputs| <= MAX_FRAMES
    ensures Resumable(b, DoAll(b, FIRST_BOOT, StartActions(false, false) + LiveActions(inputs)).disk, false)
  {
    hide RunsClean, DoAll, StartActions, LiveActions, FilesOf, DumpsOf, Resumable, FilesOk, Faithful, Readable;
    SessionRecords(b, inputs);
    var actions := StartActions(false, false) + LiveActions(inputs);
    ResumeExactly(b, actions, false);
    NothingTorn(DoAll(b, FIRST_BOOT, actions));
    UntornFaithful(b, DoAll(b, FIRST_BOOT, actions));
  }

  lemma NothingTorn(w: World)
    requires w.torn == map[]
    ensures NoTear(w)
  {
  }

  // ---- A frame that faults ----

  lemma FaultEnds(b: Build, w: World, pads: seq<Pad>, input: Input)
    requires LiveAt(b, w, pads) && b.step(After(b, pads), input.pad).faulted
    ensures DoAll(b, w, FrameActions(input)) == DoAll(b, w, [Escape, Save])
  {
    hide After;
    DoFour(b, w, FrameActions(input));
    DoTwo(b, w, Escape, Save);
  }

  /** A frame that faults ends the session as Esc would have ended it before that frame. */
  lemma FaultIsEscape(b: Build, w: World, pads: seq<Pad>, inputs: seq<Input>, faulting: Input, rest: seq<Input>)
    requires LiveAt(b, w, pads) && RunsClean(b, pads + PadsOf(inputs))
    requires b.step(After(b, pads + PadsOf(inputs)), faulting.pad).faulted
    ensures DoAll(b, w, LiveActions(inputs + [faulting] + rest)) == DoAll(b, w, LiveActions(inputs))
  {
    hide After, RunsClean, DoAll, FramesActions, LiveActions, FrameActions;
    LiveRuns(b, w, pads, inputs);
    var v := DoAll(b, w, FramesActions(inputs));
    LiveIsFrames(inputs);
    DoAllAppends(b, w, FramesActions(inputs), [Escape, Save]);
    FaultEnds(b, v, pads + PadsOf(inputs), faulting);
    LiveSplits(inputs, faulting, rest);
    DoAllAppends(b, w, FramesActions(inputs), FrameActions(faulting) + LiveActions(rest));
    DoAllAppends(b, v, FrameActions(faulting), LiveActions(rest));
    DoTwo(b, v, Escape, Save);
    EndedStays(b, DoAll(b, v, FrameActions(faulting)), rest);
  }

  lemma {:induction false} LiveSplits(inputs: seq<Input>, x: Input, rest: seq<Input>)
    ensures LiveActions(inputs + [x] + rest) == FramesActions(inputs) + (FrameActions(x) + LiveActions(rest))
    decreases inputs
  {
    hide FrameActions;
    var all := inputs + [x] + rest;
    if inputs == [] {
      assert all[0] == x && all[1..] == rest;
    } else {
      assert all[0] == inputs[0] && all[1..] == inputs[1..] + [x] + rest;
      LiveSplits(inputs[1..], x, rest);
      FramesFirst(inputs);
      var (p, q, r) := (FrameActions(inputs[0]), FramesActions(inputs[1..]), FrameActions(x) + LiveActions(rest));
      assert p + q + r == p + (q + r);
    }
  }

  /** What does not fit the place where the process stands changes nothing; a crash loses the memory alone. */
  lemma OutOfPlace(b: Build, w: World, a: Action)
    ensures a.StartFresh? || a.StartResume? ==> w.proc.Idle? || Do(b, w, a) == w
    ensures a.OpenLog? ==> w.proc.Ready? || Do(b, w, a) == w
    ensures a.WriteHeader? ==> w.proc.NeedHeader? || Do(b, w, a) == w
    ensures a.RunFrame? || a.Escape? ==> w.proc.Live? || Do(b, w, a) == w
    ensures a.AppendLine? ==> w.proc.Ran? || Do(b, w, a) == w
    ensures a.Dump? || a.CutDump? || a.NoDump? ==> w.proc.Logged? || Do(b, w, a) == w
    ensures a.Save? ==> w.proc.NeedStamp? || w.proc.Dumped? || w.proc.Ending? || Do(b, w, a) == w
    ensures a.Crash? ==> Do(b, w, a) == World(w.disk, Idle, w.torn)
  {
    hide Resumable;
  }

  // ---- What a replay verifies ----

  /** Not a dump of frame 0, and the first of the largest frame on its file: the one whose bytes the file has. */
  predicate Holds(dumps: seq<DumpMeta>, k: nat)
    requires k < |dumps|
  {
    && dumps[k].frame != 0
    && (forall j | 0 <= j < k && dumps[j].file == dumps[k].file :: dumps[j].frame < dumps[k].frame)
    && (forall j | k < j < |dumps| && dumps[j].file == dumps[k].file :: dumps[j].frame <= dumps[k].frame)
  }

  lemma KeptHolds(dumps: seq<DumpMeta>, k: nat)
    requires k < |dumps|
    ensures Kept(dumps, k) <==> Holds(dumps, k)
  {
  }

  /** The last of the checkpoints of a frame that hold their file. */
  predicate Checked(dumps: seq<DumpMeta>, k: nat)
    requires k < |dumps|
  {
    Holds(dumps, k) && forall j | k < j < |dumps| :: dumps[j].frame == dumps[k].frame ==> !Holds(dumps, j)
  }

  lemma {:induction false} CheckpointIsChecked(dumps: seq<DumpMeta>, index: nat, n: nat)
    requires n <= |dumps| && forall j | n <= j < |dumps| :: dumps[j].frame == index ==> !Holds(dumps, j)
    ensures CheckpointAt(dumps, index, n).Some? <==>
            exists k | 0 <= k < |dumps| :: dumps[k].frame == index && Checked(dumps, k)
    ensures forall k | 0 <= k < |dumps| && dumps[k].frame == index && Checked(dumps, k) ::
              CheckpointAt(dumps, index, n) == Some(dumps[k])
    decreases n
  {
    hide Kept, Holds;
    if n > 0 {
      KeptHolds(dumps, n - 1);
      if dumps[n - 1].frame == index && Kept(dumps, n - 1) {
        assert Checked(dumps, n - 1);
      } else {
        CheckpointIsChecked(dumps, index, n - 1);
      }
    }
  }

  /** The replayed frame is clean, and its checkpoint, if it has one, is readable and matches or is not verified. */
  predicate FrameVerifies(b: Build, pads: seq<Pad>, d: Disk, skip: bool, i: nat)
    requires i < |pads|
  {
    var (c, dumps) := (After(b, pads[..i + 1]), Load(d).dumps);
    !c.faulted && forall k | 0 <= k < |dumps| && dumps[k].frame == i && Checked(dumps, k) ::
      && dumps[k].file in d.files && |d.files[dumps[k].file]| == 0x2_0000
      && (skip || d.files[dumps[k].file] == c.wram)
  }

  /** Of any log and any disk: the replay verifies exactly when every frame of it does. */
  lemma {:induction false} ReplayMeans(b: Build, pads: seq<Pad>, d: Disk, skip: bool, n: nat)
    requires n <= |pads|
    ensures Replay(b, pads, d, skip, n).Verified? <==> forall i | 0 <= i < n :: FrameVerifies(b, pads, d, skip, i)
    decreases n
  {
    hide After, FrameVerifies, CheckAfter, CheckpointAt;
    if n > 0 {
      ReplayMeans(b, pads, d, skip, n - 1);
      FrameChecked(b, pads, d, skip, n - 1);
    }
  }

  lemma FrameChecked(b: Build, pads: seq<Pad>, d: Disk, skip: bool, i: nat)
    requires i < |pads|
    ensures var dumps := Load(d).dumps;
            CheckAfter(After(b, pads[..i + 1]), CheckpointAt(dumps, i, |dumps|), d.files, i, skip).Verified?
            <==> FrameVerifies(b, pads, d, skip, i)
  {
    hide After, CheckpointAt, Checked;
    var dumps := Load(d).dumps;
    CheckpointIsChecked(dumps, i, |dumps|);
  }
}
