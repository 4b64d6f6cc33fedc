/** Every resume is accepted, and replays to the recorded state: exactly when, over every crash. */
module Fidelity {
  import opened Timing
  import opened Recording
  import opened Protocol

  // ---- The guards ----

  lemma IndexWithin(s: Session, frames: nat)
    requires IndexOk(s, frames)
    ensures Within(s.dumps, frames) && Increasing(s.dumps)
  {
  }

  /** The index and the log of a reachable disk always pass the integrity check. */
  lemma IntegrityHolds(b: Build, w: World)
    requires Consistent(b, w)
    ensures CheckIntegrity(|Pads(w)|, !w.disk.log.NoLog?, Load(w.disk)).Sound?
    ensures EpochOk(b, Load(w.disk), false)
  {
    hide RunsClean, After, MaxDump, CheckIntegrity, ProcOk;
    IndexWithin(Load(w.disk), |Pads(w)|);
    IntegrityMeans(|Pads(w)|, Load(w.disk));
  }

  /** A fresh start is allowed exactly on a log with no recorded frame: a crash before the header is recovered so. */
  lemma FreshExactly(b: Build, w: World)
    requires Consistent(b, w)
    ensures FreshAllowed(w.disk) <==> Pads(w) == []
    ensures w.disk.log.Bare? ==> FreshAllowed(w.disk) && !Resumable(b, w.disk, true)
  {
    hide RunsClean, After, ProcOk, IndexOk, Replay;
    if Pads(w) == [] { NothingIndexed(Load(w.disk)); }
  }

  // ---- The lint ----

  /** Mid-session the lint fails a reachable session only for having no frame count; the dump order always passes. */
  lemma LintHolds(b: Build, w: World)
    requires Consistent(b, w)
    ensures LintC7(Load(w.disk), |Pads(w)|)
    ensures LintC4(Load(w.disk), |Pads(w)|, false) <==> Load(w.disk).logFrames.Some?
  {
    hide RunsClean, After, ProcOk, LintC7From;
    IndexWithin(Load(w.disk), |Pads(w)|);
    LintC7Means(Load(w.disk).dumps, |Pads(w)|, None);
  }

  /** After a quit or a fault the counts are equal, as the final lint requires. */
  lemma CleanExit(b: Build, w: World)
    requires Consistent(b, w) && w.proc.Ending?
    ensures var v := Do(b, w, Save);
            v.proc.Idle? && Pads(v) == Pads(w) && LintC4(Load(v.disk), |Pads(v)|, true)
              && LintC7(Load(v.disk), |Pads(v)|)
  {
    hide RunsClean, After, IndexOk, LintC7From;
    SaveKeeps(b, w);
    LintHolds(b, Do(b, w, Save));
  }

  // ---- What dump files hold ----

  function WramAt(b: Build, pads: seq<Pad>, frame: nat): Wram
    requires frame < |pads|
  {
    After(b, pads[..frame + 1]).wram
  }

  /**
   The file of checkpoint `i` holds that frame's memory, or, while torn, the memory of the frame that
   overwrote it, as far as that write got.
   */
  predicate FileOk(b: Build, w: World, i: nat)
    requires i < |Load(w.disk).dumps|
  {
    var d := Load(w.disk).dumps[i];
    Kept(Load(w.disk).dumps, i) ==>
      && d.frame < |Pads(w)| && d.file in w.disk.files
      && if d.file in w.torn
         then w.torn[d.file] < |Pads(w)| && w.disk.files[d.file] <= WramAt(b, Pads(w), w.torn[d.file])
         else w.disk.files[d.file] == WramAt(b, Pads(w), d.frame)
  }

  predicate FilesOk(b: Build, w: World) {
    && (forall i :: 0 <= i < |Load(w.disk).dumps| ==> FileOk(b, w, i))
    && (w.proc.Dumped? ==> w.proc.file in w.disk.files && w.disk.files[w.proc.file] == w.proc.core.wram)
  }

  predicate Recordable(b: Build, w: World) { Consistent(b, w) && FilesOk(b, w) }

  lemma WramStays(b: Build, pads: seq<Pad>, more: seq<Pad>, frame: nat)
    requires frame < |pads| && pads <= more
    ensures WramAt(b, more, frame) == WramAt(b, pads, frame)
  {
    assert more[..frame + 1] == pads[..frame + 1];
  }

  /** Where neither the index nor the files change, the files stay right as the log grows. */
  lemma FilesStay(b: Build, w: World, v: World)
    requires FilesOk(b, w) && Pads(w) <= Pads(v)
    requires Load(v.disk).dumps == Load(w.disk).dumps && v.disk.files == w.disk.files && v.torn == w.torn
             && !v.proc.Dumped?
    ensures FilesOk(b, v)
  {
    hide Kept, WramAt, Recorded;
    forall i | 0 <= i < |Load(v.disk).dumps| ensures FileOk(b, v, i) {
      assert FileOk(b, w, i);
      var d := Load(w.disk).dumps[i];
      if Kept(Load(w.disk).dumps, i) {
        WramStays(b, Pads(w), Pads(v), if d.file in w.torn then w.torn[d.file] else d.frame);
      }
    }
  }

  lemma DumpFiles(b: Build, w: World, name: string, file: string)
    requires Recordable(b, w) && w.proc.Logged?
    ensures FilesOk(b, WriteDump(w, name, file))
  {
    hide Kept, RunsClean, After, IndexOk;
    var v := WriteDump(w, name, file);
    assert Pads(w)[..w.proc.frame + 1] == Pads(w);
    forall i | 0 <= i < |Load(v.disk).dumps| ensures FileOk(b, v, i) {
      assert FileOk(b, w, i);
    }
  }

  lemma CutFiles(b: Build, w: World, file: string, length: nat)
    requires Recordable(b, w) && w.proc.Logged?
    ensures FilesOk(b, CutShort(w, file, length))
  {
    hide Kept, RunsClean, After, IndexOk;
    var v := CutShort(w, file, length);
    assert Pads(w)[..w.proc.frame + 1] == Pads(w);
    forall i | 0 <= i < |Load(v.disk).dumps| ensures FileOk(b, v, i) {
      assert FileOk(b, w, i);
    }
  }

  /** The dump a save adds to the index takes over its file. */
  lemma SaveFiles(b: Build, w: World)
    requires Recordable(b, w) && w.proc.Dumped?
    ensures FilesOk(b, SaveNow(w))
  {
    hide RunsClean, After;
    var v, n := SaveNow(w), |Load(w.disk).dumps|;
    var dumps := Load(v.disk).dumps;
    assert dumps[..n] == Load(w.disk).dumps;
    assert Pads(w)[..w.proc.frame + 1] == Pads(w);
    forall i | 0 <= i < |dumps| && Kept(dumps, i) ensures FileOk(b, v, i) {
      if i < n {
        assert dumps[i] == Load(w.disk).dumps[i] && dumps[i].frame < dumps[n].frame;
        KeptBefore(dumps, n, i);
        assert FileOk(b, w, i);
      }
    }
  }

  lemma KeptBefore(dumps: seq<DumpMeta>, n: nat, i: nat)
    requires n < |dumps| && i < n && Kept(dumps, i)
    requires dumps[i].frame < dumps[n].frame
    ensures Kept(dumps[..n], i) && dumps[i].file != dumps[n].file
  {
    forall j | 0 <= j < n && dumps[..n][j].file == dumps[..n][i].file
      ensures dumps[..n][j].frame < dumps[i].frame || (dumps[..n][j].frame == dumps[i].frame && i <= j) {
      assert dumps[j] == dumps[..n][j];
    }
  }

  lemma DoKeepsFiles(b: Build, w: World, a: Action)
    requires Recordable(b, w)
    ensures Recordable(b, Do(b, w, a))
  {
    hide After, RunsClean, IndexOk, FileOk, Resumable;
    DoKeeps(b, w, a);
    DoExtendsLog(b, w, a);
    var v := Do(b, w, a);
    if a.Save? && w.proc.Dumped? {
      SaveFiles(b, w);
    } else if a.Dump? && w.proc.Logged? {
      DumpFiles(b, w, a.name, a.file);
    } else if a.CutDump? && w.proc.Logged? {
      CutFiles(b, w, a.file, a.length);
    } else if v != w {
      QuietStep(b, w, a);
      FilesStay(b, w, v);
    }
  }

  /** Every other action leaves files, index entries and torn marks alone. */
  lemma QuietStep(b: Build, w: World, a: Action)
    requires Consistent(b, w) && Do(b, w, a) != w
    requires !(a.Save? && w.proc.Dumped?) && !((a.Dump? || a.CutDump?) && w.proc.Logged?)
    ensures var v := Do(b, w, a);
            Load(v.disk).dumps == Load(w.disk).dumps && v.disk.files == w.disk.files && v.torn == w.torn
              && !v.proc.Dumped?
  {
    hide After, RunsClean, IndexOk, Resumable;
    assert w.torn - {} == w.torn;
  }

  lemma {:induction false} RunsKeepFiles(b: Build, w: World, actions: seq<Action>)
    requires Recordable(b, w)
    ensures Recordable(b, DoAll(b, w, actions))
    decreases actions
  {
    hide Recordable, Do;
    if actions != [] {
      DoKeepsFiles(b, w, actions[0]);
      RunsKeepFiles(b, Do(b, w, actions[0]), actions[1..]);
    }
  }

  // ---- Replay ----

  /** No checkpoint's file was cut short. */
  predicate Readable(w: World) { ReadableBefore(w, |Pads(w)|) }

  predicate ReadableBefore(w: World, n: nat) {
    forall i :: 0 <= i < |Load(w.disk).dumps| && Kept(Load(w.disk).dumps, i) && Load(w.disk).dumps[i].frame < n ==>
      ReadableFile(w.disk.files, Load(w.disk).dumps[i].file)
  }

  predicate ReadableFrame(w: World, n: nat) {
    forall i :: 0 <= i < |Load(w.disk).dumps| && Kept(Load(w.disk).dumps, i) && Load(w.disk).dumps[i].frame == n ==>
      ReadableFile(w.disk.files, Load(w.disk).dumps[i].file)
  }

  /** Every torn checkpoint's file was being overwritten with the same memory it had. */
  predicate Faithful(b: Build, w: World)
    requires FilesOk(b, w)
  {
    forall i :: 0 <= i < |Load(w.disk).dumps| && Kept(Load(w.disk).dumps, i) ==>
      var d := Load(w.disk).dumps[i];
      assert FileOk(b, w, i);
      d.file in w.torn ==> WramAt(b, Pads(w), w.torn[d.file]) == WramAt(b, Pads(w), d.frame)
  }

  lemma {:induction false} CleanPrefix(b: Build, pads: seq<Pad>, n: nat)
    requires RunsClean(b, pads) && 0 < n <= |pads|
    ensures !After(b, pads[..n]).faulted
    decreases |pads| - n
  {
    if n == |pads| {
      assert pads[..n] == pads;
    } else {
      var head := pads[..|pads| - 1];
      assert head[..n] == pads[..n];
      CleanPrefix(b, head, n);
    }
  }

  lemma {:induction false} CheckpointFound(dumps: seq<DumpMeta>, index: nat, n: nat) returns (i: nat)
    requires n <= |dumps| && (forall i, j :: 0 <= i < j < |dumps| ==> dumps[i].frame < dumps[j].frame)
    ensures var found := CheckpointAt(dumps, index, n);
            found.Some? ==> i < n && dumps[i] == found.value && dumps[i].frame == index && Kept(dumps, i)
    ensures forall k :: 0 <= k < n && Kept(dumps, k) && dumps[k].frame == index ==>
            CheckpointAt(dumps, index, n) == Some(dumps[k])
    decreases n
  {
    hide Kept;
    i := 0;
    if n > 0 {
      if dumps[n - 1].frame == index && Kept(dumps, n - 1) {
        i := n - 1;
      } else {
        i := CheckpointFound(dumps, index, n - 1);
      }
    }
  }

  /** The memory of checkpoint `i` is what its file holds. */
  predicate Matches(b: Build, w: World, i: nat)
    requires i < |Load(w.disk).dumps|
  {
    var d := Load(w.disk).dumps[i];
    d.frame < |Pads(w)| && d.file in w.disk.files && w.disk.files[d.file] == WramAt(b, Pads(w), d.frame)
  }

  predicate MatchesBefore(b: Build, w: World, n: nat) {
    forall i :: 0 <= i < |Load(w.disk).dumps| && Kept(Load(w.disk).dumps, i) && Load(w.disk).dumps[i].frame < n ==>
      Matches(b, w, i)
  }

  /** Replay never faults; it stops only at a checkpoint whose file was cut short or does not match. */
  lemma {:induction false} ReplayExactly(b: Build, w: World, skip: bool, n: nat)
    requires Recordable(b, w) && n <= |Pads(w)|
    ensures Replay(b, Pads(w), w.disk, skip, n).Verified?
            <==> ReadableBefore(w, n) && (skip || MatchesBefore(b, w, n))
    decreases n
  {
    hide After, RunsClean, Kept, Pads, IndexOk;
    if n > 0 {
      ReplayExactly(b, w, skip, n - 1);
      LastFrame(b, w, skip, n - 1);
      MatchesSplit(b, w, n - 1);
    }
  }

  predicate MatchesFrame(b: Build, w: World, n: nat) {
    forall i :: 0 <= i < |Load(w.disk).dumps| && Kept(Load(w.disk).dumps, i) && Load(w.disk).dumps[i].frame == n ==>
      Matches(b, w, i)
  }

  lemma MatchesSplit(b: Build, w: World, n: nat)
    ensures MatchesBefore(b, w, n + 1) <==> MatchesBefore(b, w, n) && MatchesFrame(b, w, n)
    ensures ReadableBefore(w, n + 1) <==> ReadableBefore(w, n) && ReadableFrame(w, n)
  {
    hide Kept, Matches, ReadableFile;
  }

  lemma LastFrame(b: Build, w: World, skip: bool, n: nat)
    requires Recordable(b, w) && n < |Pads(w)|
    ensures var dumps := Load(w.disk).dumps;
            CheckAfter(After(b, Pads(w)[..n + 1]), CheckpointAt(dumps, n, |dumps|), w.disk.files, n, skip).Verified?
            <==> ReadableFrame(w, n) && (skip || MatchesFrame(b, w, n))
  {
    hide Kept, After, CheckpointAt, RunsClean, ProcOk;
    CleanPrefix(b, Pads(w), n + 1);
    var dumps := Load(w.disk).dumps;
    var i := CheckpointFound(dumps, n, |dumps|);
    if CheckpointAt(dumps, n, |dumps|).Some? { assert FileOk(b, w, i); }
  }

  lemma FaithfulMatches(b: Build, w: World)
    requires Recordable(b, w)
    ensures Readable(w) && Faithful(b, w) <==> MatchesBefore(b, w, |Pads(w)|)
  {
    hide Kept, WramAt, Consistent;
    forall i | 0 <= i < |Load(w.disk).dumps| && Kept(Load(w.disk).dumps, i)
      ensures var d := Load(w.disk).dumps[i];
              && d.frame < |Pads(w)|
              && (d.file in w.torn ==> w.torn[d.file] < |Pads(w)|)
              && (Matches(b, w, i)
                  <==> ReadableFile(w.disk.files, d.file)
                       && (d.file in w.torn ==> WramAt(b, Pads(w), w.torn[d.file]) == WramAt(b, Pads(w), d.frame)))
    {
      assert FileOk(b, w, i);
    }
  }

  /** The log parses: it has its header and is within the format's frame limit. */
  predicate Parses(w: World) { !w.disk.log.Bare? && |Pads(w)| <= MAX_FRAMES }

  /**
   Replay fidelity over every history: a resume is accepted exactly when the log parses, no checkpoint
   file was cut short and, unless verification is skipped, every checkpoint file torn by a crash
   happens to hold the same memory. An accepted resume continues from the fold of the core over the whole log.
   */
  lemma ResumeExactly(b: Build, actions: seq<Action>, skip: bool)
    ensures var w := DoAll(b, FIRST_BOOT, actions);
            && FilesOk(b, w)
            && (Resumable(b, w.disk, skip) <==> Parses(w) && Readable(w) && (skip || Faithful(b, w)))
            && (Resumable(b, w.disk, skip) ==>
               Resume(b, w, skip).proc == Ready(true, Load(w.disk), |Pads(w)|, After(b, Pads(w))))
  {
    hide After, RunsClean, Do, FilesOk, Faithful, Replay, CheckIntegrity, ProcOk;
    var w := DoAll(b, FIRST_BOOT, actions);
    FirstBootConsistent(b);
    BootFiles(b);
    RunsKeepFiles(b, FIRST_BOOT, actions);
    IntegrityHolds(b, w);
    ReplayExactly(b, w, skip, |Pads(w)|);
    FaithfulMatches(b, w);
  }

  lemma BootFiles(b: Build)
    ensures FilesOk(b, FIRST_BOOT)
  {
  }

  // ---- Fresh file names ----

  predicate Named(s: Session, file: string) { exists i :: 0 <= i < |s.dumps| && s.dumps[i].file == file }

  predicate NoTear(w: World) { forall file :: file in w.torn ==> !Named(Load(w.disk), file) }

  /** Every dump is written to a file the index does not name. */
  predicate NewNames(b: Build, w: World, actions: seq<Action>)
    decreases actions
  {
    actions != [] ==>
      (actions[0].Dump? || actions[0].CutDump? ==> !Named(Load(w.disk), actions[0].file))
      && NewNames(b, Do(b, w, actions[0]), actions[1..])
  }

  lemma DoKeepsUntorn(b: Build, w: World, a: Action)
    requires Consistent(b, w) && NoTear(w) && (a.Dump? || a.CutDump? ==> !Named(Load(w.disk), a.file))
    ensures NoTear(Do(b, w, a))
  {
    hide After, RunsClean, IndexOk, Resumable;
    var v := Do(b, w, a);
    if a.Save? && w.proc.Dumped? {
      var n := |Load(w.disk).dumps|;
      forall file | file in v.torn ensures !Named(Load(v.disk), file) {
        assert forall i :: 0 <= i < n ==> Load(v.disk).dumps[i] == Load(w.disk).dumps[i] by {
          assert Load(v.disk).dumps[..n] == Load(w.disk).dumps;
        }
        assert !Named(Load(w.disk), file);
      }
    } else if !((a.Dump? || a.CutDump?) && w.proc.Logged?) && v != w {
      QuietStep(b, w, a);
    }
  }

  lemma {:induction false} RunsKeepUntorn(b: Build, w: World, actions: seq<Action>)
    requires Consistent(b, w) && NoTear(w) && NewNames(b, w, actions)
    ensures NoTear(DoAll(b, w, actions))
    decreases actions
  {
    hide Consistent, NoTear, Do, Named;
    if actions != [] {
      DoKeeps(b, w, actions[0]);
      DoKeepsUntorn(b, w, actions[0]);
      RunsKeepUntorn(b, Do(b, w, actions[0]), actions[1..]);
    }
  }

  /**
   With a new file for every dump, every resume of a log that parses replays and verifies, across any
   number of crashes.
   */
  lemma DistinctDumpsAlwaysResume(b: Build, actions: seq<Action>)
    requires NewNames(b, FIRST_BOOT, actions)
    ensures Resumable(b, DoAll(b, FIRST_BOOT, actions).disk, false) <==> Parses(DoAll(b, FIRST_BOOT, actions))
  {
    hide After, RunsClean, Do, FilesOk, Resumable, NewNames, DoAll, Parses;
    var w := DoAll(b, FIRST_BOOT, actions);
    FirstBootConsistent(b);
    RunsKeepUntorn(b, FIRST_BOOT, actions);
    ResumeExactly(b, actions, false);
    UntornFaithful(b, w);
  }

  lemma UntornFaithful(b: Build, w: World)
    requires FilesOk(b, w) && NoTear(w)
    ensures Faithful(b, w) && Readable(w)
  {
    hide Kept, WramAt;
    forall i | 0 <= i < |Load(w.disk).dumps| && Kept(Load(w.disk).dumps, i)
      ensures ReadableFile(w.disk.files, Load(w.disk).dumps[i].file) && Load(w.disk).dumps[i].file !in w.torn
    {
      assert FileOk(b, w, i) && Named(Load(w.disk), Load(w.disk).dumps[i].file);
    }
  }

  // ---- A crash that defeats verification ----

  function Marked(n: nat): Wram { seq(WRAM_SIZE, i => if i == 0 then n % 0x100 else 0) }

  /** A core whose first byte of memory counts the frames. */
  function Counter(): Build {
    Build("emu", "rom", Core(Marked(0), 0, false), (c: Core, pad: Pad) => Core(Marked(c.rest + 1), c.rest + 1, false))
  }

  function CoreAt(n: nat): Core { Core(Marked(n), n, false) }
  function NoPads(n: nat): seq<Pad> { seq(n, i => 0) }

  lemma {:induction false} CountsFrames(n: nat)
    ensures After(Counter(), NoPads(n)) == CoreAt(n)
    decreases n
  {
    if n > 0 {
      CountsFrames(n - 1);
      assert NoPads(n)[..n - 1] == NoPads(n - 1);
    }
  }

  const STAMPED := Session([], None, Some("emu"), Some("rom"))
  const ONE_DUMP := Session([DumpMeta("a", 1, "a.bin")], Some(2), Some("emu"), Some("rom"))

  /** A fresh start up to its first live frame. */
  function Begun(): World {
    var b := Counter();
    Do(b, Do(b, Do(b, Do(b, FIRST_BOOT, StartFresh), OpenLog), WriteHeader), Save)
  }

  lemma BegunLive()
    ensures Begun() == World(Disk(Lines([]), Some(STAMPED), map[]), Live(STAMPED, 0, CoreAt(0)), map[])
  {
    hide Marked;
    var none: map<string, nat> := map[];
    assert none - {} == none;
  }

  function RecordFrame(w: World): World { Do(Counter(), Do(Counter(), w, RunFrame(0)), AppendLine) }

  lemma FrameRecorded(s: Session, n: nat, saved: Option<Session>, files: map<string, seq<byte>>, torn: map<string, nat>)
    ensures RecordFrame(World(Disk(Lines(NoPads(n)), saved, files), Live(s, n, CoreAt(n)), torn))
            == World(Disk(Lines(NoPads(n + 1)), saved, files), Logged(s, n, CoreAt(n + 1)), torn)
  {
    hide Marked;
    assert NoPads(n) + [0] == NoPads(n + 1);
  }

  /** Frame 1 is dumped and saved, and frame 2 recorded. */
  function SecondFrame(): World {
    var b := Counter();
    RecordFrame(Do(b, Do(b, RecordFrame(Do(b, RecordFrame(Begun()), NoDump)), Dump("a", "a.bin")), Save))
  }

  /** Then frame 2 is dumped to the same file, and the process dies before the save. */
  function Overwriting(): World {
    Do(Counter(), Do(Counter(), SecondFrame(), Dump("a", "a.bin")), Crash)
  }

  /** Or it dies as soon as the file has been emptied for the new bytes. */
  function Emptied(): World { Do(Counter(), SecondFrame(), CutDump("a.bin", 0)) }

  function CutWorld(): World {
    World(Disk(Lines(NoPads(3)), Some(ONE_DUMP), map["a.bin" := []]), Idle, map["a.bin" := 2])
  }

  function TornWorld(): World {
    World(Disk(Lines(NoPads(3)), Some(ONE_DUMP), map["a.bin" := Marked(3)]), Idle, map["a.bin" := 2])
  }

  /** Frame 1 has run and been logged. */
  function LoggedOne(): World {
    World(Disk(Lines(NoPads(2)), Some(STAMPED), map[]), Logged(STAMPED, 1, CoreAt(2)), map[])
  }

  /** Its memory is in the file, its index entry still in memory. */
  function DumpedOne(): World {
    World(Disk(Lines(NoPads(2)), Some(STAMPED), map["a.bin" := Marked(2)]),
          Dumped(ONE_DUMP, 1, CoreAt(2), "a.bin"), map["a.bin" := 1])
  }

  /** Frame 2 has run and been logged over the saved dump of frame 1. */
  function LoggedTwo(): World {
    World(Disk(Lines(NoPads(3)), Some(ONE_DUMP), map["a.bin" := Marked(2)]), Logged(ONE_DUMP, 2, CoreAt(3)), map[])
  }

  lemma FirstDump()
    ensures Do(Counter(), LoggedOne(), Dump("a", "a.bin")) == DumpedOne()
  {
    hide Marked;
    assert STAMPED.dumps + [DumpMeta("a", 1, "a.bin")] == ONE_DUMP.dumps;
  }

  lemma FirstSave()
    ensures Do(Counter(), DumpedOne(), Save)
            == World(Disk(Lines(NoPads(2)), Some(ONE_DUMP), map["a.bin" := Marked(2)]), Live(ONE_DUMP, 2, CoreAt(2)),
              map[])
  {
    hide Marked;
    var torn: map<string, nat> := map["a.bin" := 1];
    assert torn - {"a.bin"} == map[];
  }

  lemma SecondDump()
    ensures Do(Counter(), Do(Counter(), LoggedTwo(), Dump("a", "a.bin")), Crash) == TornWorld()
  {
    hide Marked;
  }

  lemma SecondFrameLogged()
    ensures SecondFrame() == LoggedTwo()
  {
    hide Marked, RecordFrame, Do, Begun, NoPads;
    BegunLive();
    assert NoPads(0) == [] by { NoPadsEmpty(); }
    FrameRecorded(STAMPED, 0, Some(STAMPED), map[], map[]);
    SkipDump();
    FrameRecorded(STAMPED, 1, Some(STAMPED), map[], map[]);
    FirstDump();
    FirstSave();
    FrameRecorded(ONE_DUMP, 2, Some(ONE_DUMP), map["a.bin" := Marked(2)], map[]);
  }

  lemma OverwritingEnds()
    ensures Overwriting() == TornWorld()
  {
    hide Marked, SecondFrame, Do;
    SecondFrameLogged();
    SecondDump();
  }

  lemma EmptiedEnds()
    ensures Emptied() == CutWorld()
  {
    hide Marked, SecondFrame;
    SecondFrameLogged();
    var wram: seq<byte> := LoggedTwo().proc.core.wram;
    assert wram[..0] == [];
  }

  lemma NoPadsEmpty()
    ensures NoPads(0) == []
  {
  }

  lemma SkipDump()
    ensures Do(Counter(), World(Disk(Lines(NoPads(1)), Some(STAMPED), map[]), Logged(STAMPED, 0, CoreAt(1)), map[]),
            NoDump)
            == World(Disk(Lines(NoPads(1)), Some(STAMPED), map[]), Live(STAMPED, 1, CoreAt(1)), map[])
  {
    hide Marked;
  }

  /** The concrete loss: this run's log and index pass every guard, and its resume is still refused. */
  lemma OverwritingRefused()
    ensures Overwriting() == TornWorld()
    ensures CheckIntegrity(3, true, ONE_DUMP).Sound? && Parses(TornWorld())
    ensures Replay(Counter(), NoPads(3), TornWorld().disk, false, 3) == Diverged(1)
    ensures !Resumable(Counter(), TornWorld().disk, false)
  {
    hide Marked, Overwriting;
    OverwritingEnds();
    ReplayToFirstDump();
  }

  /** The other loss: a file cut short is refused even when verification is skipped. */
  lemma EmptiedRefused()
    ensures Emptied() == CutWorld()
    ensures CheckIntegrity(3, true, ONE_DUMP).Sound? && Parses(CutWorld())
    ensures Replay(Counter(), NoPads(3), CutWorld().disk, true, 3) == DumpUnreadable(1)
    ensures !Resumable(Counter(), CutWorld().disk, true)
  {
    hide Marked, Emptied;
    EmptiedEnds();
    var b, d := Counter(), CutWorld().disk;
    CountsFrames(1);
    CountsFrames(2);
    assert NoPads(3)[..1] == NoPads(1) && NoPads(3)[..2] == NoPads(2);
    assert Kept(ONE_DUMP.dumps, 0);
    assert CheckpointAt(ONE_DUMP.dumps, 0, 1) == None && CheckpointAt(ONE_DUMP.dumps, 1, 1) == Some(ONE_DUMP.dumps[0]);
    assert Replay(b, NoPads(3), d, true, 0).Verified?;
    assert Replay(b, NoPads(3), d, true, 1).Verified?;
    assert Replay(b, NoPads(3), d, true, 2) == DumpUnreadable(1);
  }

  lemma ReplayToFirstDump()
    ensures Replay(Counter(), NoPads(3), TornWorld().disk, false, 2) == Diverged(1)
  {
    hide Marked;
    var b, d := Counter(), TornWorld().disk;
    CountsFrames(1);
    CountsFrames(2);
    assert NoPads(3)[..1] == NoPads(1) && NoPads(3)[..2] == NoPads(2);
    assert Kept(ONE_DUMP.dumps, 0);
    assert CheckpointAt(ONE_DUMP.dumps, 0, 1) == None && CheckpointAt(ONE_DUMP.dumps, 1, 1) == Some(ONE_DUMP.dumps[0]);
    assert Replay(b, NoPads(3), d, false, 0).Verified?;
    assert Replay(b, NoPads(3), d, false, 1).Verified?;
    MarksDiffer(2, 3);
  }

  lemma MarksDiffer(m: nat, n: nat)
    requires m < n < 0x100
    ensures Marked(m) != Marked(n)
  {
    assert Marked(m)[0] != Marked(n)[0];
  }
}
