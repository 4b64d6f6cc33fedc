/**
 The recording process against its disk, one effect at a time, with a crash possible between any two
 and inside a dump's write.
 */
module Protocol {
  import opened Timing
  import opened Recording

  /** Where the process stands; each state holds what it keeps in memory. */
  datatype Proc =
    | Idle
    | Ready(resume: bool, session: Session, frame: nat, core: Core)
    | NeedHeader(resume: bool, session: Session, core: Core)
    | NeedStamp(session: Session, core: Core)
    | Live(session: Session, frame: nat, core: Core)
    | Ran(session: Session, frame: nat, core: Core, pad: Pad)
    | Logged(session: Session, frame: nat, core: Core)
    | Dumped(session: Session, frame: nat, core: Core, file: string)
    | Ending(session: Session)

  /** `torn` remembers dump files written since the last save that named them, with their frame. */
  datatype World = World(disk: Disk, proc: Proc, torn: map<string, nat>)

  const FIRST_BOOT := World(EMPTY_DISK, Idle, map[])

  datatype Action =
    | StartFresh
    | StartResume(skip: bool)
    | OpenLog
    | WriteHeader
    | Save
    | RunFrame(pad: Pad)
    | AppendLine
    | Dump(name: string, file: string)
    | CutDump(file: string, length: nat)
    | NoDump
    | Escape
    | Crash

  // ---- Each action ----

  function Fresh(b: Build, w: World): World {
    if !FreshAllowed(w.disk) then w
    else w.(proc := Ready(false, Load(w.disk).(emu := Some(b.emu), rom := Some(b.rom)), 0, b.powerOn))
  }

  predicate Resumable(b: Build, d: Disk, skip: bool) {
    var pads, s := ParseLog(d.log), Load(d);
    && pads.Some?
    && CheckIntegrity(|pads.value|, !d.log.NoLog?, s).Sound?
    && EpochOk(b, s, skip)
    && Replay(b, pads.value, d, skip, |pads.value|).Verified?
  }

  function Resume(b: Build, w: World, skip: bool): World {
    if !Resumable(b, w.disk, skip) then w
    else
      var pads := ParseLog(w.disk.log).value;
      w.(proc := Ready(true, Load(w.disk), |pads|, After(b, pads)))
  }

  function SetLog(w: World, log: Log): World { w.(disk := w.disk.(log := log)) }

  /** Appends to an existing log on resume, and truncates otherwise. */
  function Open(w: World): World
    requires w.proc.Ready?
  {
    if w.proc.resume && !w.disk.log.NoLog? then w.(proc := Live(w.proc.session, w.proc.frame, w.proc.core))
    else SetLog(w, Bare).(proc := NeedHeader(w.proc.resume, w.proc.session, w.proc.core))
  }

  function Header(w: World): World
    requires w.proc.NeedHeader?
  {
    SetLog(w, Lines([])).(proc := if w.proc.resume then Live(w.proc.session, 0, w.proc.core)
                                  else NeedStamp(w.proc.session, w.proc.core))
  }

  /** The index is replaced whole, or not at all. */
  function SaveIndex(w: World, next: Proc, named: set<string>): World
    requires !w.proc.Idle?
  {
    World(w.disk.(saved := Some(w.proc.session)), next, w.torn - named)
  }

  function SaveNow(w: World): World {
    match w.proc
    case NeedStamp(s, c) => SaveIndex(w, Live(s, 0, c), {})
    case Dumped(s, f, c, file) => SaveIndex(w, Live(s, f + 1, c), {file})
    case Ending(_) => SaveIndex(w, Idle, {})
    case _ => w
  }

  /** A fault ends the run with the log as long as the frames before it. */
  function Frame(b: Build, w: World, pad: Pad): World
    requires w.proc.Live?
  {
    var next := b.step(w.proc.core, pad);
    w.(proc := if next.faulted then Ending(w.proc.session.(logFrames := Some(w.proc.frame)))
               else Ran(w.proc.session, w.proc.frame, next, pad))
  }

  function Append(w: World): World
    requires w.proc.Ran?
  {
    SetLog(w, Lines(Recorded(w.disk.log) + [w.proc.pad])).(proc := Logged(w.proc.session, w.proc.frame, w.proc.core))
  }

  function WriteDump(w: World, name: string, file: string): World
    requires w.proc.Logged?
  {
    var s := w.proc.session;
    World(w.disk.(files := w.disk.files[file := w.proc.core.wram]),
          Dumped(s.(dumps := s.dumps + [DumpMeta(name, w.proc.frame, file)], logFrames := Some(w.proc.frame + 1)),
                 w.proc.frame, w.proc.core, file),
          w.torn[file := w.proc.frame])
  }

  /** The process dies inside the write of a dump file, or the write fails: a prefix is left. */
  function CutShort(w: World, file: string, length: nat): World
    requires w.proc.Logged?
  {
    var wram := w.proc.core.wram;
    World(w.disk.(files := w.disk.files[file := wram[..if length < |wram| then length else |wram|]]),
          Idle, w.torn[file := w.proc.frame])
  }

  /** An action that does not fit the process's place changes nothing. */
  function Do(b: Build, w: World, a: Action): World {
    match a
    case StartFresh => if w.proc.Idle? then Fresh(b, w) else w
    case StartResume(skip) => if w.proc.Idle? then Resume(b, w, skip) else w
    case OpenLog => if w.proc.Ready? then Open(w) else w
    case WriteHeader => if w.proc.NeedHeader? then Header(w) else w
    case Save => SaveNow(w)
    case RunFrame(pad) => if w.proc.Live? then Frame(b, w, pad) else w
    case AppendLine => if w.proc.Ran? then Append(w) else w
    case Dump(name, file) => if w.proc.Logged? then WriteDump(w, name, file) else w
    case CutDump(file, length) => if w.proc.Logged? then CutShort(w, file, length) else w
    case NoDump => if w.proc.Logged? then w.(proc := Live(w.proc.session, w.proc.frame + 1, w.proc.core)) else w
    case Escape => if w.proc.Live? then w.(proc := Ending(w.proc.session.(logFrames := Some(w.proc.frame)))) else w
    case Crash => w.(proc := Idle)
  }

  function DoAll(b: Build, w: World, actions: seq<Action>): World
    decreases actions
  {
    if actions == [] then w else DoAll(b, Do(b, w, actions[0]), actions[1..])
  }

  function Pads(w: World): seq<Pad> { Recorded(w.disk.log) }

  // ---- Invariant: the index never outruns the log ----

  /** Everything an index says lies within `frames` recorded frames. */
  predicate IndexOk(s: Session, frames: nat) {
    && (s.logFrames.Some? ==> s.logFrames.value <= frames)
    && (forall i :: 0 <= i < |s.dumps| ==> s.dumps[i].frame < frames)
    && (forall i, j :: 0 <= i < j < |s.dumps| ==> s.dumps[i].frame < s.dumps[j].frame)
  }

  predicate Stamped(b: Build, s: Session) {
    (s.emu.Some? ==> s.emu.value == b.emu) && (s.rom.Some? ==> s.rom.value == b.rom)
  }

  /** What is on disk: a clean log, and an index within it. */
  predicate DiskOk(b: Build, d: Disk) {
    RunsClean(b, Recorded(d.log)) && IndexOk(Load(d), |Recorded(d.log)|) && Stamped(b, Load(d))
  }

  /** The session in memory names what the saved one names. */
  predicate SameIndex(s: Session, w: World) {
    s.dumps == Load(w.disk).dumps && s.logFrames == Load(w.disk).logFrames
  }

  /** A stamped session whose dumps are the saved ones, within the first `frames` lines of a log with a header. */
  predicate Carries(b: Build, w: World, s: Session, frames: nat) {
    w.disk.log.Lines? && IndexOk(s, frames) && Stamped(b, s) && s.dumps == Load(w.disk).dumps
  }

  /** The session about to be saved is the saved one with the dump just written added. */
  predicate AddsDump(w: World, s: Session, frame: nat, file: string) {
    var last := |s.dumps| - 1;
    last >= 0 && s.dumps[..last] == Load(w.disk).dumps && s.dumps[last].frame == frame && s.dumps[last].file == file
  }

  /** In memory the process has the saved index, but for the change it is about to save. */
  predicate ProcOk(b: Build, w: World) {
    var pads := Pads(w);
    var n := |pads|;
    match w.proc
    case Idle => true
    case Ready(resume, s, f, c) =>
      && f == n && c == After(b, pads) && Stamped(b, s) && SameIndex(s, w)
      && if resume then !w.disk.log.Bare? else n == 0 && s.dumps == []
    case NeedHeader(_, s, c) =>
      n == 0 && c == b.powerOn && Stamped(b, s) && SameIndex(s, w) && s.dumps == []
    case NeedStamp(s, c) =>
      w.disk.log == Lines([]) && c == b.powerOn && Stamped(b, s) && SameIndex(s, w) && s.dumps == []
    case Live(s, f, c) =>
      Carries(b, w, s, n) && f == n && c == After(b, pads)
    case Ran(s, f, c, pad) =>
      Carries(b, w, s, n) && f == n && c == b.step(After(b, pads), pad) && !c.faulted
    case Logged(s, f, c) =>
      f + 1 == n && Carries(b, w, s, f) && c == After(b, pads)
    case Dumped(s, f, c, file) =>
      && w.disk.log.Lines? && f + 1 == n && c == After(b, pads)
      && Stamped(b, s) && IndexOk(s, n) && s.logFrames == Some(n) && AddsDump(w, s, f, file)
    case Ending(s) =>
      Carries(b, w, s, n) && s.logFrames == Some(n)
  }

  predicate Consistent(b: Build, w: World) { DiskOk(b, w.disk) && ProcOk(b, w) }

  lemma AppendedLine(b: Build, pads: seq<Pad>, pad: Pad)
    requires RunsClean(b, pads) && !b.step(After(b, pads), pad).faulted
    ensures RunsClean(b, pads + [pad]) && After(b, pads + [pad]) == b.step(After(b, pads), pad)
  {
    assert (pads + [pad])[..|pads|] == pads;
  }

  lemma IndexStays(s: Session, m: nat, n: nat)
    requires IndexOk(s, m) && m <= n
    ensures IndexOk(s, n)
  {
  }

  lemma DoKeeps(b: Build, w: World, a: Action)
    requires Consistent(b, w)
    ensures Consistent(b, Do(b, w, a))
  {
    hide After, RunsClean, Replay, CheckIntegrity, IndexOk;
    match a {
      case StartFresh => FreshKeeps(b, w);
      case StartResume(skip) => ResumeKeeps(b, w, skip);
      case OpenLog => OpenKeeps(b, w);
      case WriteHeader => HeaderKeeps(b, w);
      case Save => SaveKeeps(b, w);
      case RunFrame(pad) => EndIndex(w);
      case AppendLine => AppendKeeps(b, w);
      case Dump(name, file) => DumpKeeps(b, w, name, file);
      case CutDump(_, _) =>
      case NoDump => NoDumpKeeps(b, w);
      case Escape => EndIndex(w);
      case Crash =>
    }
  }

  lemma EndIndex(w: World)
    ensures w.proc.Live? && IndexOk(w.proc.session, w.proc.frame) ==>
              IndexOk(w.proc.session.(logFrames := Some(w.proc.frame)), w.proc.frame)
  {
  }

  lemma OpenKeeps(b: Build, w: World)
    requires Consistent(b, w)
    ensures Consistent(b, Do(b, w, OpenLog))
  {
    hide RunsClean;
    if w.proc.Ready? && Pads(w) == [] { NothingIndexed(Load(w.disk)); }
  }

  /** An index over an empty log names no dump. */
  lemma NothingIndexed(s: Session)
    requires IndexOk(s, 0)
    ensures s.dumps == []
  {
    if s.dumps != [] {
      var first := s.dumps[0].frame;
      assert false;
    }
  }

  lemma FreshKeeps(b: Build, w: World)
    requires Consistent(b, w)
    ensures Consistent(b, Do(b, w, StartFresh))
  {
    hide RunsClean, IndexOk;
  }

  lemma ResumeKeeps(b: Build, w: World, skip: bool)
    requires Consistent(b, w)
    ensures Consistent(b, Do(b, w, StartResume(skip)))
  {
    hide After, RunsClean, IndexOk, Replay, CheckIntegrity;
  }

  lemma HeaderKeeps(b: Build, w: World)
    requires Consistent(b, w)
    ensures Consistent(b, Do(b, w, WriteHeader))
  {
  }

  lemma SaveKeeps(b: Build, w: World)
    requires Consistent(b, w)
    ensures Consistent(b, Do(b, w, Save))
  {
    hide RunsClean;
  }

  lemma AppendKeeps(b: Build, w: World)
    requires Consistent(b, w)
    ensures Consistent(b, Do(b, w, AppendLine))
  {
    hide After, RunsClean, IndexOk;
    if w.proc.Ran? {
      AppendedLine(b, Pads(w), w.proc.pad);
      IndexStays(Load(w.disk), |Pads(w)|, |Pads(w)| + 1);
    }
  }

  lemma DumpKeeps(b: Build, w: World, name: string, file: string)
    requires Consistent(b, w)
    ensures Consistent(b, Do(b, w, Dump(name, file)))
  {
    hide After, RunsClean, IndexOk, Stamped, AddsDump, DiskOk, WriteDump;
    if w.proc.Logged? {
      DumpDisk(b, w, name, file);
      DumpProc(b, w, name, file);
    }
  }

  lemma DumpDisk(b: Build, w: World, name: string, file: string)
    requires w.proc.Logged? && DiskOk(b, w.disk)
    ensures DiskOk(b, WriteDump(w, name, file).disk)
  {
    hide After, RunsClean, IndexOk, Stamped;
  }

  lemma DumpProc(b: Build, w: World, name: string, file: string)
    requires w.proc.Logged? && ProcOk(b, w)
    ensures WriteDump(w, name, file).proc.Dumped? && ProcOk(b, WriteDump(w, name, file))
  {
    hide After, RunsClean, IndexOk, Stamped, AddsDump;
    DumpIndex(w.proc.session, name, w.proc.frame, file);
    DumpStamp(b, w.proc.session, name, w.proc.frame, file);
    DumpAdded(w, name, file);
  }

  lemma DumpStamp(b: Build, s: Session, name: string, frame: nat, file: string)
    requires Stamped(b, s)
    ensures Stamped(b, s.(dumps := s.dumps + [DumpMeta(name, frame, file)], logFrames := Some(frame + 1)))
  {
  }

  lemma DumpAdded(w: World, name: string, file: string)
    requires w.proc.Logged? && w.proc.session.dumps == Load(w.disk).dumps
    ensures AddsDump(WriteDump(w, name, file), WriteDump(w, name, file).proc.session, w.proc.frame, file)
  {
    var dumps := w.proc.session.dumps;
    assert (dumps + [DumpMeta(name, w.proc.frame, file)])[..|dumps|] == dumps;
  }

  lemma DumpIndex(s: Session, name: string, frame: nat, file: string)
    requires IndexOk(s, frame)
    ensures IndexOk(s.(dumps := s.dumps + [DumpMeta(name, frame, file)], logFrames := Some(frame + 1)), frame + 1)
  {
  }

  lemma NoDumpKeeps(b: Build, w: World)
    requires Consistent(b, w)
    ensures Consistent(b, Do(b, w, NoDump))
  {
    hide After, RunsClean, IndexOk;
    if w.proc.Logged? { IndexStays(w.proc.session, w.proc.frame, w.proc.frame + 1); }
  }

  /**
   Over every interleaving of starts, frames, dumps, faults, quits and crashes, inside a dump's write
   too, the index stays within the log.
   */
  lemma {:induction false} RunsKeep(b: Build, w: World, actions: seq<Action>)
    requires Consistent(b, w)
    ensures Consistent(b, DoAll(b, w, actions))
    decreases actions
  {
    hide Consistent, Do;
    if actions != [] {
      DoKeeps(b, w, actions[0]);
      RunsKeep(b, Do(b, w, actions[0]), actions[1..]);
    }
  }

  lemma FirstBootConsistent(b: Build)
    ensures Consistent(b, FIRST_BOOT)
  {
  }

  // ---- No input is ever lost ----

  lemma DoExtendsLog(b: Build, w: World, a: Action)
    requires Consistent(b, w)
    ensures Pads(w) <= Pads(Do(b, w, a))
  {
    hide After, RunsClean, IndexOk, Resumable, CheckIntegrity;
  }

  /** A recorded pad line is never removed or changed. */
  lemma {:induction false} NoLineLost(b: Build, w: World, actions: seq<Action>)
    requires Consistent(b, w)
    ensures Pads(w) <= Pads(DoAll(b, w, actions))
    decreases actions
  {
    hide Consistent, Do, Pads;
    if actions != [] {
      DoKeeps(b, w, actions[0]);
      DoExtendsLog(b, w, actions[0]);
      NoLineLost(b, Do(b, w, actions[0]), actions[1..]);
    }
  }
}
