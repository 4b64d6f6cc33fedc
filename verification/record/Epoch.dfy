/**
 The epoch guard: a history in which every start may be another build running another ROM. Lines are
 remembered with the build that recorded them.
 */
module Epoch {
  import opened Timing
  import opened Recording
  import opened Protocol

  // ---- When a resume is accepted ----

  /** Every stamp the saved index has is that of the build and ROM resuming. */
  predicate StampsMatch(b: Build, d: Disk) {
    && (Load(d).rom.Some? ==> Load(d).rom.value == b.rom)
    && (Load(d).emu.Some? ==> Load(d).emu.value == b.emu)
  }

  /** Any disk at all: the four conditions of a resume, the stamps asked only while verification is on. */
  lemma AcceptedExactly(b: Build, w: World, skip: bool)
    requires w.proc.Idle?
    ensures var pads := ParseLog(w.disk.log);
            Do(b, w, StartResume(skip)).proc.Ready? <==>
              && pads.Some?
              && CheckIntegrity(|pads.value|, !w.disk.log.NoLog?, Load(w.disk)).Sound?
              && (skip || StampsMatch(b, w.disk))
              && Replay(b, pads.value, w.disk, skip, |pads.value|).Verified?
  {
    hide Replay, CheckIntegrity;
  }

  /** A start never touches the disk, and a refused one leaves the process idle as well. */
  lemma StartsWriteNothing(b: Build, w: World, skip: bool)
    ensures Do(b, w, StartResume(skip)).disk == w.disk && Do(b, w, StartFresh).disk == w.disk
    ensures !Do(b, w, StartResume(skip)).proc.Ready? ==> Do(b, w, StartResume(skip)) == w
    ensures !Do(b, w, StartFresh).proc.Ready? ==> Do(b, w, StartFresh) == w
  {
    hide Resumable;
  }

  /** A session stamped with another ROM or build is refused, whatever its log and dumps. */
  lemma OtherEpochRefused(b: Build, w: World)
    requires w.proc.Idle? && !StampsMatch(b, w.disk)
    ensures Do(b, w, StartResume(false)) == w
  {
    hide Replay, CheckIntegrity;
    AcceptedExactly(b, w, false);
    StartsWriteNothing(b, w, false);
  }

  // ---- Histories over several builds ----

  /** One process: a build, and what it does from its start on. A new process begins where the last one stopped. */
  datatype Launch = Launch(b: Build, actions: seq<Action>)

  /** The world, and for every recorded line the build that recorded it. */
  datatype Traced = Traced(w: World, who: seq<Build>)

  const NOTHING := Traced(FIRST_BOOT, [])

  function DoTraced(b: Build, t: Traced, a: Action): Traced {
    Traced(Do(b, t.w, a), if a.AppendLine? && t.w.proc.Ran? then t.who + [b] else t.who)
  }

  function DoAllTraced(b: Build, t: Traced, actions: seq<Action>): Traced
    decreases actions
  {
    if actions == [] then t else DoAllTraced(b, DoTraced(b, t, actions[0]), actions[1..])
  }

  function Launched(t: Traced, l: Launch): Traced {
    DoAllTraced(l.b, t.(w := t.w.(proc := Idle)), l.actions)
  }

  function History(t: Traced, launches: seq<Launch>): Traced
    decreases launches
  {
    if launches == [] then t else History(Launched(t, launches[0]), launches[1..])
  }

  predicate Verifying(actions: seq<Action>) { forall a :: a in actions ==> a != StartResume(true) }

  /** Every line was recorded by a build and a ROM that the stamps of `s` allow. */
  predicate OneEpoch(s: Session, who: seq<Build>) {
    forall i :: 0 <= i < |who| ==>
      (s.rom.Some? ==> who[i].rom == s.rom.value) && (s.emu.Some? ==> who[i].emu == s.emu.value)
  }

  predicate SameStamps(s: Session, u: Session) { s.rom == u.rom && s.emu == u.emu }

  predicate MatchesBuild(b: Build, s: Session) {
    (s.rom.Some? ==> s.rom.value == b.rom) && (s.emu.Some? ==> s.emu.value == b.emu)
  }

  /** The session the process holds, while it runs. */
  function Held(p: Proc): Session
    requires !p.Idle?
  {
    match p
    case Ready(_, s, _, _) => s
    case NeedHeader(_, s, _) => s
    case NeedStamp(s, _) => s
    case Live(s, _, _) => s
    case Ran(s, _, _, _) => s
    case Logged(s, _, _) => s
    case Dumped(s, _, _, _) => s
    case Ending(s) => s
  }

  /** Until a fresh session has saved its stamp there are no lines; from then on the saved stamp is the held one. */
  predicate Stamping(p: Proc) { (p.Ready? && !p.resume) || (p.NeedHeader? && !p.resume) || p.NeedStamp? }

  predicate Attributed(b: Build, t: Traced) {
    && |t.who| == |Pads(t.w)|
    && OneEpoch(Load(t.w.disk), t.who)
    && (!t.w.proc.Idle? ==>
          && MatchesBuild(b, Held(t.w.proc))
          && if Stamping(t.w.proc) then t.who == [] else SameStamps(Held(t.w.proc), Load(t.w.disk)))
    && (t.w.proc.Ready? && t.w.proc.resume ==> t.w.proc.frame == |Pads(t.w)| && !t.w.disk.log.Bare?)
    && (t.w.proc.NeedHeader? ==> t.who == [])
  }

  lemma DoKeepsEpoch(b: Build, t: Traced, a: Action)
    requires Attributed(b, t) && a != StartResume(true)
    ensures Attributed(b, DoTraced(b, t, a))
  {
    hide Replay, CheckIntegrity, After;
  }

  lemma {:induction false} ActionsKeepEpoch(b: Build, t: Traced, actions: seq<Action>)
    requires Attributed(b, t) && Verifying(actions)
    ensures Attributed(b, DoAllTraced(b, t, actions))
    decreases actions
  {
    hide Attributed, DoTraced;
    if actions != [] {
      assert actions[0] in actions && forall a :: a in actions[1..] ==> a in actions;
      DoKeepsEpoch(b, t, actions[0]);
      ActionsKeepEpoch(b, DoTraced(b, t, actions[0]), actions[1..]);
    }
  }

  /** At rest no build is involved. */
  lemma AtRest(b: Build, c: Build, t: Traced)
    requires Attributed(b, t)
    ensures Attributed(c, t.(w := t.w.(proc := Idle)))
  {
  }

  lemma {:induction false} HistoryKeepsEpoch(b: Build, t: Traced, launches: seq<Launch>) returns (c: Build)
    requires Attributed(b, t) && forall l :: l in launches ==> Verifying(l.actions)
    ensures Attributed(c, History(t, launches))
    decreases launches
  {
    hide Attributed, Launched, Verifying;
    c := b;
    if launches != [] {
      var l := launches[0];
      LaunchKeepsEpoch(b, t, l);
      c := HistoryKeepsEpoch(l.b, Launched(t, l), launches[1..]);
    }
  }

  lemma LaunchKeepsEpoch(b: Build, t: Traced, l: Launch)
    requires Attributed(b, t) && Verifying(l.actions)
    ensures Attributed(l.b, Launched(t, l))
  {
    hide Attributed, DoTraced;
    AtRest(b, l.b, t);
    ActionsKeepEpoch(l.b, t.(w := t.w.(proc := Idle)), l.actions);
  }

  /**
   One epoch: over any history of builds, ROMs and crashes in which verification is never skipped, every
   line of a stamped session was recorded by the stamped build running the stamped ROM.
   */
  lemma StampedLogIsOneEpoch(launches: seq<Launch>)
    requires forall l :: l in launches ==> Verifying(l.actions)
    ensures var t := History(NOTHING, launches);
            && |t.who| == |Pads(t.w)|
            && forall i :: 0 <= i < |t.who| ==>
                 && (Load(t.w.disk).rom.Some? ==> t.who[i].rom == Load(t.w.disk).rom.value)
                 && (Load(t.w.disk).emu.Some? ==> t.who[i].emu == Load(t.w.disk).emu.value)
  {
    hide History;
    var b := AnyBuild();
    assert Attributed(b, NOTHING);
    var c := HistoryKeepsEpoch(b, NOTHING, launches);
  }

  function AnyBuild(): Build {
    Build("", "", Core(seq(WRAM_SIZE, i => 0), 0, false), (c: Core, pad: Pad) => c)
  }
}
