/** When the kernel stops: in a panic, for want of frames, or because no user task lives, and in the last
    case without fail. */
module Halting {
  import opened KernelTypes
  import opened KernelSpec
  import opened Invariant
  import opened KillOutcome
  import opened KillTheorem
  import opened Actions
  import opened Steps
  import opened Spaces
  import opened Runs
  import opened RootRuns

  // ---------------------------------------------------------------------------
  // Why it stops
  // ---------------------------------------------------------------------------

  /** A stopped kernel has a reason, and the note that no user task lives is true. */
  predicate StopOk(s: State) {
    && (s.clock.panicked ==> s.clock.halted) && (s.clock.haltDumped ==> s.clock.halted && !UserAlive(s))
    && (s.clock.halted ==> s.clock.panicked || s.taken >= s.config.supply || !UserAlive(s))
  }

  /** Nobody revives and nobody changes kind. */
  predicate NobodyRises(s: State, r: State) {
    |r.tasks| == |s.tasks| && forall j: nat {:trigger r.tasks[j]} :: j < |s.tasks| ==>
      r.tasks[j].kind == s.tasks[j].kind && (s.tasks[j].state == Dead ==> r.tasks[j].state == Dead)
  }

  lemma AliveBefore(s: State, r: State)
    requires NobodyRises(s, r) && UserAlive(r)
    ensures UserAlive(s)
  {
    var i :| 0 <= i < |r.tasks| && r.tasks[i].state != Dead && r.tasks[i].kind == UserSpace;
    assert s.tasks[i].state != Dead && s.tasks[i].kind == UserSpace;
  }

  /** Nobody rises and the kernel does not stop. */
  lemma StopKept(s: State, r: State)
    requires StopOk(s) && NobodyRises(s, r) && r.clock == s.clock && s.taken <= r.taken && r.config == s.config
    ensures StopOk(r)
  {
    if UserAlive(r) { AliveBefore(s, r); }
  }

  lemma NotedRises(s: State, r: State)
    requires Noted(s, r)
    ensures NobodyRises(s, r) && s.taken <= r.taken && r.config == s.config
  {
    forall j: nat | j < |s.tasks| ensures r.tasks[j].kind == s.tasks[j].kind && (s.tasks[j].state == Dead ==> r.tasks[j].state == Dead) {
      assert SameButSlice(s.tasks[j], r.tasks[j]);
    }
  }

  lemma NoteStop(s: State, k: Entry, r: State)
    requires StopOk(s) && Noted(s, r) && Books(s, k, r)
    ensures StopOk(r)
  {
    NotedRises(s, r);
    if UserAlive(r) { AliveBefore(s, r); }
  }

  lemma SlayStop(s: State, i: nat, why: KillReason, r: State)
    requires Settled(s) && StopOk(s) && Slays(s, i, why, r)
    ensures StopOk(r)
  {
    KillLog(s, i, why);
    assert s.tasks[i].id == i + 1;
    KillQuietlyForm(s, i, why);
    forall j: nat | j < |s.tasks| ensures r.tasks[j].kind == s.tasks[j].kind && (s.tasks[j].state == Dead ==> r.tasks[j].state == Dead) {
      FateMet(s, i, why, j);
    }
    StopKept(s, r);
  }

  lemma SendClock(s: State, a: Action, r: State)
    requires Settled(s) && Does(s, a, r) && (a.QueueSend? || a.HandOver? || a.TakeSend? || a.Listen?)
    ensures r.clock == s.clock
  {
  }

  lemma ReplyClock(s: State, a: Action, r: State)
    requires Settled(s) && Does(s, a, r) && Replies(a)
    ensures r.clock == s.clock
  {
  }

  /** Schedules, calls and kills leave the clock alone. */
  lemma ActionClock(s: State, a: Action, r: State)
    requires Settled(s) && Does(s, a, r) && !a.Note?
    ensures r.clock == s.clock
  {
    if a.Slay? {
      KillLog(s, a.task, a.why);
    } else if a.Reschedule? {
      ScheduleClock(s);
    } else if Replies(a) {
      ReplyClock(s, a, r);
    } else {
      SendClock(s, a, r);
    }
  }

  lemma CallStop(s: State, a: Action, r: State)
    requires Settled(s) && StopOk(s) && Does(s, a, r) && !a.Note? && !a.Slay?
    ensures StopOk(r)
  {
    ActionUntouched(s, a, r);
    ActionClock(s, a, r);
    StopKept(s, r);
  }

  lemma StopInductive()
    ensures Inductive(StopOk, ALL)
  {
    forall s: State, a: Action, r: State {:trigger StopOk(s), Does(s, a, r)} | Settled(s) && StopOk(s) && Does(s, a, r)
      ensures StopOk(r)
    {
      if a.Note? { NoteStop(s, a.entry, r); } else if a.Slay? { SlayStop(s, a.task, a.why, r); } else { CallStop(s, a, r); }
    }
  }

  // ---------------------------------------------------------------------------
  // That it stops
  // ---------------------------------------------------------------------------

  /** A user task lives, or the kernel has noted that none does, or it has panicked. */
  predicate Noticed(s: State) {
    UserAlive(s) || s.clock.haltDumped || s.clock.panicked
  }

  /** Tasks and flags are as before, as far as this matters. */
  lemma NoticedKept(s: State, r: State)
    requires Noticed(s) && |r.tasks| == |s.tasks|
    requires forall j: nat {:trigger r.tasks[j]} :: j < |s.tasks| ==>
      r.tasks[j].kind == s.tasks[j].kind && (r.tasks[j].state == Dead ==> s.tasks[j].state == Dead)
    requires (s.clock.haltDumped ==> r.clock.haltDumped) && (s.clock.panicked ==> r.clock.panicked)
    ensures Noticed(r)
  {
    if UserAlive(s) {
      var i :| 0 <= i < |s.tasks| && s.tasks[i].state != Dead && s.tasks[i].kind == UserSpace;
      assert r.tasks[i].state != Dead && r.tasks[i].kind == UserSpace;
    }
  }

  lemma NotesNoticed(s: State, r: State)
    requires Noticed(s) && Notes(s, r)
    ensures Noticed(r)
  {
    forall j: nat | j < |s.tasks| ensures r.tasks[j].kind == s.tasks[j].kind && (r.tasks[j].state == Dead ==> s.tasks[j].state == Dead) {
      assert SameButSlice(s.tasks[j], r.tasks[j]);
    }
    NoticedKept(s, r);
  }

  /** Every kill of a task ends with the question whether a user task lives. */
  lemma KillNoticed(s: State, i: nat, why: KillReason)
    requires Shape(s) && Noticed(s)
    ensures Noticed(Kill(s, i, why))
  {
    if i >= |s.tasks| { NoticedKept(s, Kill(s, i, why)); }
  }

  lemma AccessNoticed(s: State, inp: TickInput, next: nat)
    requires Core(s) && Noticed(s)
    ensures Noticed(GuardedAccess(s, inp, next))
  {
    var s1 := s.(cr3 := 0);
    NoticedKept(s, s1);
    if inp.fault {
      KillNoticed(s1, s.current, UserPageFault);
      StageNoticed(Kill(s1, s.current, UserPageFault), s.current, 0);
    } else {
      StageNoticed(s1, s.current, next);
    }
  }

  lemma StageNoticed(s: State, i: nat, stage: nat)
    requires Noticed(s) && i < |s.tasks|
    ensures Noticed(SetStage(s, i, stage))
  {
    NoticedKept(s, SetStage(s, i, stage));
  }

  lemma ActNoticed(s: State, inp: TickInput)
    requires Core(s) && Noticed(s)
    ensures Noticed(Act(s, inp))
  {
    if s.clock.activity != MappingDemoPage {
      QuietActNoted(s, inp);
      NotesNoticed(s, Act(s, inp));
    } else if s.current == 0 {
      KernelMemDemoNoted(s, inp.tables);
      NotesNoticed(s, KernelMemDemo(s, inp.tables));
    } else {
      UserDemoNoticed(s, inp);
    }
  }

  lemma UserDemoNoticed(s: State, inp: TickInput)
    requires Core(s) && Noticed(s) && s.clock.activity == MappingDemoPage && s.current != 0
    ensures Noticed(UserMemDemo(s, inp))
  {
    if Accesses(s) {
      AccessNoticed(s, inp, 2);
      AccessNoticed(s, inp, 0);
    } else {
      QuietDemoNoticed(s, inp);
    }
  }

  lemma QuietDemoNoticed(s: State, inp: TickInput)
    requires Core(s) && Noticed(s) && s.clock.activity == MappingDemoPage && s.current != 0 && !Accesses(s)
    ensures Noticed(UserMemDemo(s, inp))
  {
    var t := s.tasks[s.current];
    if t.kind == UserSpace && t.space.rooted {
      UserMemDemoNoted(s, inp);
      NotesNoticed(s, UserMemDemo(s, inp));
    } else {
      NoticedKept(s, UserMemDemo(s, inp));
    }
  }

  lemma TickNoticed(s: State, inp: TickInput)
    requires Core(s) && Noticed(s)
    ensures Noticed(Tick(s, inp))
  {
    if !s.clock.halted {
      var s0 := StartTick(s);
      ClockNoted(s, s0);
      NotedSettled(s, s0);
      NotesNoticed(s, s0);
      ActNoticed(s0, inp);
      var a := Act(s0, inp);
      if a.tasks[s.current].state == Dead && !a.clock.panicked {
        DeadEndNoticed(s, inp);
      }
    }
  }

  lemma DeadEndNoticed(s: State, inp: TickInput)
    requires Core(s) && !s.clock.halted && Noticed(Act(StartTick(s), inp))
    requires Act(StartTick(s), inp).tasks[s.current].state == Dead && !Act(StartTick(s), inp).clock.panicked
    ensures Noticed(Tick(s, inp))
  {
    ActCore(s, inp);
    var a := SetActivity(Act(StartTick(s), inp), NextActivity(s.clock.activity));
    NoticedKept(Act(StartTick(s), inp), a);
  }

  /** At the end of the action of a tick somebody runs. */
  lemma ActCore(s: State, inp: TickInput)
    requires Core(s) && !s.clock.halted
    ensures Core(Act(StartTick(s), inp))
  {
    var P := (x: State) => true;
    AnythingInductive();
    Strengthen(P, ALL);
    ActedKeeps(s, inp, (x: State) => Settled(x) && P(x), ALL);
  }

  lemma {:induction false} NoticedForever(s: State, steps: seq<Step>)
    requires Booted(s) && |s.tasks| >= 2 && Legal(steps)
    ensures Noticed(Run(s, steps))
    decreases |steps|
  {
    if steps == [] {
      assert s.tasks[1].state == Ready && s.tasks[1].kind == UserSpace;
    } else {
      var init := steps[..|steps| - 1];
      NoticedForever(s, init);
      CoreForever(s, init);
      match steps[|steps| - 1]
      case TickStep(inp) => TickNoticed(Run(s, init), inp);
      case KillStep(i, why) => KillNoticed(Run(s, init), i, why);
    }
  }

  /** In every run from a boot with at least one user task: the kernel runs on only while a user task
      lives; when none does it has stopped, on the kernel's root unless it panicked; and it stops for no
      other reason than that, a panic, or that the frames are used up. */
  lemma HaltForever(s: State, steps: seq<Step>)
    requires Booted(s) && |s.tasks| >= 2 && Legal(steps)
    ensures var r := Run(s, steps);
      && (UserAlive(r) || r.clock.halted) && (!UserAlive(r) ==> r.cr3 == 0)
      && (r.clock.halted ==> !UserAlive(r) || r.taken >= r.config.supply || r.clock.panicked)
  {
    NoticedForever(s, steps);
    BootedCore(s);
    assert StopOk(s);
    StopInductive();
    RunKeeps(s, steps, StopOk, ALL);
    CoreForever(s, steps);
    if !UserAlive(Run(s, steps)) { IdleRuns(Run(s, steps)); }
    RootForever(s, steps);
  }

  lemma IdleRuns(s: State)
    requires Core(s) && !UserAlive(s)
    ensures s.current == 0
  {
    assert TaskOk(s.tasks[s.current], s.current, |s.tasks|);
    assert s.tasks[s.current].kind != UserSpace;
  }
}
