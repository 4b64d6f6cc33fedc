/** What a recording leaves on disk, and the checks that decide whether it can be continued. */
module Recording {
  import opened Timing

  const WRAM_SIZE := 0x2_0000
  const MAX_FRAMES := 10_000_000

  type Pad = n: nat | n < 0x1000
  type Wram = s: seq<byte> | |s| == WRAM_SIZE witness seq(WRAM_SIZE, i => 0)

  // ---- The deterministic emulator ----

  /** A core at rest: its work RAM, everything else about it, and whether it has faulted. */
  datatype Core = Core(wram: Wram, rest: nat, faulted: bool)

  /** One build running one ROM; `step` is a whole frame with the pad latched. */
  datatype Build = Build(emu: string, rom: string, powerOn: Core, step: (Core, Pad) -> Core)

  function After(b: Build, pads: seq<Pad>): Core
    decreases pads
  {
    if pads == [] then b.powerOn else b.step(After(b, pads[..|pads| - 1]), pads[|pads| - 1])
  }

  /** No frame of the run faults. */
  predicate RunsClean(b: Build, pads: seq<Pad>)
    decreases pads
  {
    pads == [] || (RunsClean(b, pads[..|pads| - 1]) && !After(b, pads).faulted)
  }

  // ---- On disk ----

  datatype DumpMeta = DumpMeta(name: string, frame: nat, file: string)

  datatype Session = Session(dumps: seq<DumpMeta>, logFrames: Option<nat>, emu: Option<string>, rom: Option<string>)

  const NEW_SESSION := Session([], None, None, None)

  /** `Bare` is a created file whose header has not been written. */
  datatype Log = NoLog | Bare | Lines(pads: seq<Pad>)

  /** A dump file holds the bytes written to it so far: fewer than a whole memory if a crash cut the write short. */
  datatype Disk = Disk(log: Log, saved: Option<Session>, files: map<string, seq<byte>>)

  const EMPTY_DISK := Disk(NoLog, None, map[])

  function Recorded(log: Log): seq<Pad> { if log.Lines? then log.pads else [] }
  function Load(d: Disk): Session { if d.saved.Some? then d.saved.value else NEW_SESSION }

  // ---- Starting fresh ----

  predicate FreshAllowed(d: Disk) { Recorded(d.log) == [] && Load(d).dumps == [] }

  // ---- Resuming ----

  /** None when the log does not parse: no header, or more frames than the format allows. */
  function ParseLog(log: Log): Option<seq<Pad>> {
    match log
    case NoLog => Some([])
    case Bare => None
    case Lines(pads) => if |pads| > MAX_FRAMES then None else Some(pads)
  }

  /** The largest frame of a checkpoint; frame 0 marks a dump that is not one. */
  function MaxDump(dumps: seq<DumpMeta>): nat
    decreases dumps
  {
    if dumps == [] then 0
    else
      var m, f := MaxDump(dumps[..|dumps| - 1]), dumps[|dumps| - 1].frame;
      if f > m then f else m
  }

  datatype Integrity = Sound | LogMissing | LogShort | DumpBeyondLog

  function CheckIntegrity(logFrames: nat, logExists: bool, s: Session): Integrity {
    if !logExists then
      if MaxDump(s.dumps) > 0 || (s.logFrames.Some? && s.logFrames.value > 0) then LogMissing else Sound
    else if s.logFrames.Some? && logFrames < s.logFrames.value then LogShort
    else if MaxDump(s.dumps) > 0 && MaxDump(s.dumps) >= logFrames then DumpBeyondLog
    else Sound
  }

  /** A different ROM or build refuses, unless downgraded to a warning. */
  predicate EpochOk(b: Build, s: Session, skip: bool) {
    skip || ((s.rom.Some? ==> s.rom.value == b.rom) && (s.emu.Some? ==> s.emu.value == b.emu))
  }

  // ---- Checkpoints ----

  /** Of the checkpoints on one file, the one whose bytes the file still holds. */
  predicate Kept(dumps: seq<DumpMeta>, i: nat)
    requires i < |dumps|
  {
    dumps[i].frame > 0 && forall j :: 0 <= j < |dumps| && dumps[j].file == dumps[i].file ==>
      dumps[j].frame < dumps[i].frame || (dumps[j].frame == dumps[i].frame && i <= j)
  }

  /** The checkpoint to verify after frame `index`, if any. */
  function CheckpointAt(dumps: seq<DumpMeta>, index: nat, n: nat): Option<DumpMeta>
    requires n <= |dumps|
    decreases n
  {
    if n == 0 then None
    else if dumps[n - 1].frame == index && Kept(dumps, n - 1) then Some(dumps[n - 1])
    else CheckpointAt(dumps, index, n - 1)
  }

  datatype Verdict = Verified | ReplayFault(frame: nat) | DumpUnreadable(frame: nat) | Diverged(frame: nat)

  /** A dump file of any other length than a memory cannot be read. */
  predicate ReadableFile(files: map<string, seq<byte>>, file: string) {
    file in files && |files[file]| == WRAM_SIZE
  }

  /** A mismatch is only a warning when verification is skipped; an unreadable dump never is. */
  function CheckAfter(c: Core, dump: Option<DumpMeta>, files: map<string, seq<byte>>, index: nat,
                      skip: bool): Verdict
  {
    if c.faulted then ReplayFault(index)
    else if dump.None? then Verified
    else if !ReadableFile(files, dump.value.file) then DumpUnreadable(index)
    else if files[dump.value.file] != c.wram && !skip then Diverged(index)
    else Verified
  }

  /** Replay of the first n recorded frames against the dumps. */
  function Replay(b: Build, pads: seq<Pad>, d: Disk, skip: bool, n: nat): Verdict
    requires n <= |pads|
    decreases n
  {
    if n == 0 then Verified
    else
      var before := Replay(b, pads, d, skip, n - 1);
      if !before.Verified? then before
      else
        var dumps := Load(d).dumps;
        CheckAfter(After(b, pads[..n]), CheckpointAt(dumps, n - 1, |dumps|), d.files, n - 1, skip)
  }

  // ---- The lint's view ----

  /** Recorded frame count against the log, mid-session or final. */
  predicate LintC4(s: Session, frames: nat, final: bool) {
    s.logFrames.Some? && if final then s.logFrames.value == frames else s.logFrames.value <= frames
  }

  /** Checkpoint frames strictly increase and lie within the log; `prev` is the last one seen. */
  predicate LintC7From(dumps: seq<DumpMeta>, frames: nat, prev: Option<nat>)
    decreases dumps
  {
    dumps == [] ||
    (if dumps[0].frame == 0 then LintC7From(dumps[1..], frames, prev)
     else
       && (prev.Some? ==> prev.value < dumps[0].frame)
       && dumps[0].frame < frames
       && LintC7From(dumps[1..], frames, Some(dumps[0].frame)))
  }

  predicate LintC7(s: Session, frames: nat) { LintC7From(s.dumps, frames, None) }

  // ---- Integrity, lint and their meaning ----

  predicate Increasing(dumps: seq<DumpMeta>) {
    forall i, j :: 0 <= i < j < |dumps| && dumps[i].frame > 0 && dumps[j].frame > 0 ==> dumps[i].frame < dumps[j].frame
  }

  predicate Within(dumps: seq<DumpMeta>, frames: nat) {
    forall i :: 0 <= i < |dumps| ==> dumps[i].frame == 0 || dumps[i].frame < frames
  }

  lemma {:induction false} MaxDumpWithin(dumps: seq<DumpMeta>, frames: nat)
    ensures Within(dumps, frames) <==> MaxDump(dumps) == 0 || MaxDump(dumps) < frames
    decreases dumps
  {
    if dumps != [] {
      var head := dumps[..|dumps| - 1];
      MaxDumpWithin(head, frames);
      assert Within(dumps, frames) <==>
        Within(head, frames) && (dumps[|dumps| - 1].frame == 0 || dumps[|dumps| - 1].frame < frames);
    }
  }

  /** The integrity check accepts exactly the logs that hold every frame the index speaks of. */
  lemma IntegrityMeans(frames: nat, s: Session)
    ensures CheckIntegrity(frames, true, s).Sound?
            <==> (s.logFrames.Some? ==> s.logFrames.value <= frames) && Within(s.dumps, frames)
    ensures CheckIntegrity(0, false, s).Sound?
            <==> (s.logFrames.Some? ==> s.logFrames.value == 0) && Within(s.dumps, 0)
  {
    hide MaxDump;
    MaxDumpWithin(s.dumps, frames);
    MaxDumpWithin(s.dumps, 0);
  }

  predicate FollowsAll(dumps: seq<DumpMeta>, prev: Option<nat>) {
    prev.Some? ==> forall i :: 0 <= i < |dumps| && dumps[i].frame > 0 ==> prev.value < dumps[i].frame
  }

  lemma {:induction false} LintC7Means(dumps: seq<DumpMeta>, frames: nat, prev: Option<nat>)
    ensures LintC7From(dumps, frames, prev) <==> Increasing(dumps) && Within(dumps, frames) && FollowsAll(dumps, prev)
    decreases dumps
  {
    if dumps != [] {
      var rest := dumps[1..];
      assert dumps == [dumps[0]] + rest;
      assert Within(dumps, frames) <==> (dumps[0].frame == 0 || dumps[0].frame < frames) && Within(rest, frames);
      if dumps[0].frame == 0 {
        LintC7Means(rest, frames, prev);
        assert Increasing(dumps) <==> Increasing(rest);
      } else {
        LintC7Means(rest, frames, Some(dumps[0].frame));
        IncreasingSplits(dumps);
      }
    }
  }

  lemma IncreasingSplits(dumps: seq<DumpMeta>)
    requires dumps != [] && dumps[0].frame > 0
    ensures Increasing(dumps) <==> Increasing(dumps[1..]) && FollowsAll(dumps[1..], Some(dumps[0].frame))
  {
    var rest := dumps[1..];
    if Increasing(rest) && FollowsAll(rest, Some(dumps[0].frame)) {
      forall i, j | 0 <= i < j < |dumps| && dumps[i].frame > 0 && dumps[j].frame > 0
        ensures dumps[i].frame < dumps[j].frame
      {
        assert dumps[j] == rest[j - 1];
        if i > 0 { assert dumps[i] == rest[i - 1]; }
      }
    }
    if Increasing(dumps) {
      forall i, j | 0 <= i < j < |rest| && rest[i].frame > 0 && rest[j].frame > 0
        ensures rest[i].frame < rest[j].frame
      {
        assert rest[i] == dumps[i + 1] && rest[j] == dumps[j + 1];
      }
    }
  }

  /** A session the lint passes on C4 and C7 can be resumed; only the order of dumps is checked by the lint alone. */
  lemma LintAgreesWithResume(s: Session, frames: nat)
    ensures LintC4(s, frames, false) && LintC7(s, frames)
            <==> s.logFrames.Some? && Increasing(s.dumps) && CheckIntegrity(frames, true, s).Sound?
    ensures LintC4(s, frames, true) <==> s.logFrames == Some(frames)
  {
    hide MaxDump;
    LintC7Means(s.dumps, frames, None);
    IntegrityMeans(frames, s);
  }
}
