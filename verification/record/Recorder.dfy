/**
 The interactive recorder as a program: guards, replay, the live loop and its saves, proved to be a
 run of the protocol.
 */
module RecorderObject {
  import opened Timing
  import opened Recording
  import opened Protocol

  /** What the operator does in one live frame. */
  datatype Input = Input(pad: Pad, dump: Option<(string, string)>)

  function FrameActions(input: Input): seq<Action> {
    var dump := if input.dump.Some? then Dump(input.dump.value.0, input.dump.value.1) else NoDump;
    [RunFrame(input.pad), AppendLine, dump, Save]
  }

  function LiveActions(inputs: seq<Input>): seq<Action>
    decreases inputs
  {
    if inputs == [] then [Escape, Save] else FrameActions(inputs[0]) + LiveActions(inputs[1..])
  }

  function StartActions(resume: bool, skip: bool): seq<Action> {
    [if resume then StartResume(skip) else StartFresh, OpenLog, WriteHeader, Save]
  }

  // ---- Running action lists ----

  lemma {:induction false} DoAllAppends(b: Build, w: World, xs: seq<Action>, ys: seq<Action>)
    ensures DoAll(b, w, xs + ys) == DoAll(b, DoAll(b, w, xs), ys)
    decreases xs
  {
    hide Do;
    if xs == [] {
      assert xs + ys == ys;
    } else {
      assert (xs + ys)[0] == xs[0] && (xs + ys)[1..] == xs[1..] + ys;
      DoAllAppends(b, Do(b, w, xs[0]), xs[1..], ys);
    }
  }

  lemma DoTwo(b: Build, w: World, a0: Action, a1: Action)
    ensures DoAll(b, w, [a0, a1]) == Do(b, Do(b, w, a0), a1)
  {
    hide Do;
    var v := Do(b, w, a0);
    assert [a0, a1][1..] == [a1] && [a1][1..] == [];
    assert DoAll(b, v, [a1]) == DoAll(b, Do(b, v, a1), []) == Do(b, v, a1);
  }

  lemma DoFour(b: Build, w: World, a: seq<Action>)
    requires |a| == 4
    ensures DoAll(b, w, a) == Do(b, Do(b, Do(b, Do(b, w, a[0]), a[1]), a[2]), a[3])
  {
    hide Do;
    DoAllAppends(b, w, [a[0], a[1]], [a[2], a[3]]);
    assert a == [a[0], a[1]] + [a[2], a[3]];
    DoTwo(b, w, a[0], a[1]);
    DoTwo(b, Do(b, Do(b, w, a[0]), a[1]), a[2], a[3]);
  }

  /** Without a new start, a process that has ended stays ended. */
  lemma {:induction false} EndedStays(b: Build, w: World, inputs: seq<Input>)
    requires w.proc.Idle?
    ensures DoAll(b, w, LiveActions(inputs)) == w
    decreases inputs
  {
    if inputs == [] {
      DoTwo(b, w, Escape, Save);
    } else {
      DoAllAppends(b, w, FrameActions(inputs[0]), LiveActions(inputs[1..]));
      DoFour(b, w, FrameActions(inputs[0]));
      EndedStays(b, w, inputs[1..]);
    }
  }

  class Recorder {
    const b: Build
    var log: Log
    var saved: Option<Session>
    var files: map<string, seq<byte>>
    var session: Session
    var frame: nat
    var core: Core
    ghost var proc: Proc
    ghost var torn: map<string, nat>

    constructor (b: Build)
      ensures this.b == b && Now() == FIRST_BOOT
    {
      this.b := b;
      log, saved, files := NoLog, None, map[];
      session, frame, core := NEW_SESSION, 0, b.powerOn;
      proc, torn := Idle, map[];
    }

    ghost function Now(): World
      reads this
    {
      World(Disk(log, saved, files), proc, torn)
    }

    /** The replay loop: runs every recorded frame, verifying each checkpoint right after its frame. */
    method ReplayLog(pads: seq<Pad>, dumps: seq<DumpMeta>, skip: bool) returns (verdict: Verdict)
      requires dumps == Load(Now().disk).dumps
      modifies this`core
      ensures verdict == Replay(b, pads, Now().disk, skip, |pads|)
      ensures verdict.Verified? ==> core == After(b, pads)
    {
      hide CheckpointAt;
      core := b.powerOn;
      for i := 0 to |pads|
        invariant core == After(b, pads[..i])
        invariant Replay(b, pads, Now().disk, skip, i).Verified?
      {
        assert pads[..i + 1][..i] == pads[..i];
        core := b.step(core, pads[i]);
        var dump := CheckpointAt(dumps, i, |dumps|);
        verdict := CheckAfter(core, dump, files, i, skip);
        if !verdict.Verified? {
          StopsThere(b, pads, Now().disk, skip, i + 1, |pads|);
          return;
        }
      }
      assert pads[..|pads|] == pads;
      verdict := Verified;
    }

    lemma {:induction false} StopsThere(b: Build, pads: seq<Pad>, d: Disk, skip: bool, i: nat, n: nat)
      requires i <= n <= |pads| && !Replay(b, pads, d, skip, i).Verified?
      ensures Replay(b, pads, d, skip, n) == Replay(b, pads, d, skip, i)
      decreases n
    {
      if i < n { StopsThere(b, pads, d, skip, i, n - 1); }
    }

    /** Guards and replay; a refused start leaves every file as it was. */
    method Start(resume: bool, skip: bool) returns (ok: bool)
      requires proc.Idle?
      modifies this`session, this`frame, this`core, this`proc
      ensures Now() == Do(b, old(Now()), if resume then StartResume(skip) else StartFresh)
      ensures if ok then proc.Ready? else proc.Idle?
      ensures ok ==> proc == Ready(resume, session, frame, core)
    {
      hide Replay, CheckIntegrity;
      session := if saved.Some? then saved.value else NEW_SESSION;
      if !resume {
        if Recorded(log) != [] || session.dumps != [] { return false; }
        session := session.(emu := Some(b.emu), rom := Some(b.rom));
        frame, core := 0, b.powerOn;
        proc := Ready(false, session, frame, core);
        return true;
      }
      var prior := ParseLog(log);
      if prior.None? || !CheckIntegrity(|prior.value|, !log.NoLog?, session).Sound? { return false; }
      if !EpochOk(b, session, skip) { return false; }
      var verdict := ReplayLog(prior.value, session.dumps, skip);
      if !verdict.Verified? { return false; }
      frame := |prior.value|;
      proc := Ready(true, session, frame, core);
      ok := true;
    }

    /** Append when resuming an existing log; otherwise truncate and write the header. */
    method OpenInteractiveLog(resume: bool)
      requires proc == Ready(resume, session, frame, core) && (!resume || log.NoLog? ==> frame == 0)
      modifies this`log, this`proc
      ensures Now() == Do(b, Do(b, old(Now()), OpenLog), WriteHeader)
      ensures proc == if resume then Live(session, frame, core) else NeedStamp(session, core)
    {
      if resume && !log.NoLog? {
        proc := Live(session, frame, core);
        return;
      }
      log := Bare;
      log := Lines([]);
      proc := if resume then Live(session, 0, core) else NeedStamp(session, core);
    }

    /** A faulted frame leaves no line: the log holds exactly the frames before it. */
    method EndOnFault(input: Input)
      requires proc == Live(session, frame, core) && b.step(core, input.pad).faulted
      modifies this`session, this`saved, this`core, this`proc
      ensures Now()
              == Do(b, Do(b, Do(b, Do(b, old(Now()), RunFrame(input.pad)), AppendLine), FrameActions(input)[2]), Save)
      ensures proc.Idle?
    {
      hide Fresh, Resume, Open, Header, Append, WriteDump;
      core := b.step(core, input.pad);
      session := session.(logFrames := Some(frame));
      saved, proc := Some(session), Idle;
      assert torn - {} == torn;
    }

    method LogFrame(pad: Pad)
      requires proc == Live(session, frame, core) && !b.step(core, pad).faulted
      modifies this`log, this`core, this`proc
      ensures Now() == Do(b, Do(b, old(Now()), RunFrame(pad)), AppendLine) && proc == Logged(session, frame, core)
    {
      core := b.step(core, pad);
      log := Lines(Recorded(log) + [pad]);
      proc := Logged(session, frame, core);
    }

    method WriteDumpFile(name: string, file: string)
      requires proc == Logged(session, frame, core)
      modifies this`files, this`session, this`proc, this`torn
      ensures Now() == Do(b, old(Now()), Dump(name, file)) && proc == Dumped(session, frame, core, file)
    {
      hide Fresh, Resume, Open, Header, Frame, Append, SaveNow;
      files := files[file := core.wram];
      torn := torn[file := frame];
      session := session.(dumps := session.dumps + [DumpMeta(name, frame, file)], logFrames := Some(frame + 1));
      proc := Dumped(session, frame, core, file);
    }

    method SaveNamed(file: string)
      requires proc == Dumped(session, frame, core, file)
      modifies this`saved, this`proc, this`torn
      ensures Now() == Do(b, old(Now()), Save) && proc == Live(session, frame + 1, core)
    {
      hide Fresh, Resume, Open, Header, Frame, Append, WriteDump;
      saved, torn := Some(session), torn - {file};
      proc := Live(session, frame + 1, core);
    }

    /** The memory file first, then the index that names it. */
    method SaveDump(name: string, file: string)
      requires proc == Logged(session, frame, core)
      modifies this`files, this`session, this`saved, this`proc, this`torn
      ensures Now() == Do(b, Do(b, old(Now()), Dump(name, file)), Save) && proc == Live(session, frame + 1, core)
    {
      hide Do;
      WriteDumpFile(name, file);
      SaveNamed(file);
    }

    /** One iteration of the live loop; false when the frame faulted and the run is over. */
    method LiveFrame(input: Input) returns (alive: bool)
      requires proc == Live(session, frame, core)
      modifies this`log, this`saved, this`files, this`session, this`frame, this`core, this`proc, this`torn
      ensures Now() == DoAll(b, old(Now()), FrameActions(input))
      ensures if alive then proc == Live(session, frame, core) else proc.Idle?
    {
      hide DoAll;
      DoFour(b, Now(), FrameActions(input));
      if b.step(core, input.pad).faulted {
        EndOnFault(input);
        return false;
      }
      LogFrame(input.pad);
      if input.dump.Some? {
        SaveDump(input.dump.value.0, input.dump.value.1);
      } else {
        proc := Live(session, frame + 1, core);
      }
      frame := frame + 1;
      alive := true;
    }

    /** A whole session without a crash: start, frames until a fault or Esc, and the last save. */
    method RunInteractive(resume: bool, skip: bool, inputs: seq<Input>)
      requires Consistent(b, Now()) && proc.Idle?
      modifies this
      ensures Now() == DoAll(b, old(Now()), StartActions(resume, skip) + LiveActions(inputs))
      ensures Consistent(b, Now()) && proc.Idle?
    {
      hide Do, Consistent, DoAll, FrameActions;
      ghost var w := Now();
      ghost var started := StartActions(resume, skip);
      RunsKeep(b, w, started + LiveActions(inputs));
      DoAllAppends(b, w, started, LiveActions(inputs));
      DoFour(b, w, started);
      var ok := Start(resume, skip);
      if !ok {
        NotStarted(b, Now());
        EndedStays(b, Now(), inputs);
        return;
      }
      DoKeeps(b, w, started[0]);
      ReadyFrame(b, Now());
      OpenInteractiveLog(resume);
      SaveStamp(resume);
      for i := 0 to |inputs|
        invariant proc == Live(session, frame, core)
        invariant DoAll(b, Now(), LiveActions(inputs[i..])) == DoAll(b, w, started + LiveActions(inputs))
      {
        assert inputs[i..][0] == inputs[i] && inputs[i..][1..] == inputs[i + 1..];
        DoAllAppends(b, Now(), FrameActions(inputs[i]), LiveActions(inputs[i + 1..]));
        var alive := LiveFrame(inputs[i]);
        if !alive {
          EndedStays(b, Now(), inputs[i + 1..]);
          return;
        }
      }
      assert inputs[|inputs|..] == [];
      DoTwo(b, Now(), Escape, Save);
      Quit();
    }

    /** A fresh session's stamp reaches the disk before its first frame; a resumed one saves nothing here. */
    method SaveStamp(resume: bool)
      requires proc == if resume then Live(session, frame, core) else NeedStamp(session, core)
      requires !resume ==> frame == 0
      modifies this`saved, this`proc
      ensures Now() == Do(b, old(Now()), Save) && proc == Live(session, frame, core)
    {
      if !resume { saved := Some(session); }
      proc := Live(session, frame, core);
      assert torn - {} == torn;
    }

    method Quit()
      requires proc == Live(session, frame, core)
      modifies this`session, this`saved, this`proc
      ensures Now() == Do(b, Do(b, old(Now()), Escape), Save) && proc.Idle?
    {
      session := session.(logFrames := Some(frame));
      saved, proc := Some(session), Idle;
      assert torn - {} == torn;
    }
  }

  lemma NotStarted(b: Build, w: World)
    requires w.proc.Idle?
    ensures Do(b, Do(b, Do(b, w, OpenLog), WriteHeader), Save) == w
  {
  }

  lemma ReadyFrame(b: Build, w: World)
    requires Consistent(b, w) && w.proc.Ready?
    ensures !w.proc.resume || w.disk.log.NoLog? ==> w.proc.frame == 0
  {
    hide RunsClean, After, IndexOk;
  }
}
