/** What the page calls of the kernel answer and leave, and what the memory demo does with them. */
module PageCalls {
  import opened KernelTypes
  import opened PageOps
  import opened KernelSpec
  import opened Invariant
  import opened IpcPaths
  import opened Scheduling
  import opened Agreement
  import opened Actions
  import opened Steps
  import opened DemoTicks

  // ---------------------------------------------------------------------------
  // The calls
  // ---------------------------------------------------------------------------

  /** The frame that task `i` maps: its own, or else the next one of the allocator. */
  function FrameFor(s: State, i: nat): Option<nat>
    requires i < |s.tasks|
  {
    if s.tasks[i].demoFrame.Some? then s.tasks[i].demoFrame else if s.taken < s.config.supply then Some(s.taken) else None
  }

  /** How many frames are taken once task `i` has its frame. */
  function TakenWith(s: State, i: nat): nat
    requires i < |s.tasks|
  {
    s.taken + if s.tasks[i].demoFrame == None && s.taken < s.config.supply then 1 else 0
  }

  lemma DemoFrameExact(s: State, i: nat)
    requires i < |s.tasks|
    ensures var (r, frame) := DemoFrame(s, i);
      && frame == FrameFor(s, i) && r.taken == TakenWith(s, i)
      && r.tasks == s.tasks[i := s.tasks[i].(demoFrame := if frame.Some? then frame else None)]
      && r == s.(tasks := r.tasks, taken := r.taken, history := r.history)
  {
  }

  /** When the map call of a user task for a USER page of the slot succeeds. */
  predicate MapSucceeds(s: State, i: nat, page: nat, n: nat)
    requires i < |s.tasks|
  {
    && FrameFor(s, i).Some? && page !in s.tasks[i].space.record && |s.tasks[i].space.record| < 64
    && TakenWith(s, i) + n <= s.config.supply
  }

  /** The space with the page mapped to `frame`, in the record and in the slot. */
  function Mapped(s: Space, page: nat, frame: nat, flags: Flags): Space {
    Space(s.record[page := Leaf(frame, flags)], s.leaves[BASE_PAGE + page := Leaf(frame, flags)], s.rooted)
  }

  /** A map call on behalf of user task `i`, from an agreeing space. */
  lemma MapForExact(s: State, i: nat, page: nat, flags: Flags, n: nat)
    requires i < |s.tasks| && s.tasks[i].kind == UserSpace && Proper(s.tasks[i].space) && Agree(s.tasks[i].space)
    requires page < SLOT_PAGES && flags.user
    ensures var (r, out) := MapFor(s, i, page, flags, n);
      && (out == Returned(0) <==> MapSucceeds(s, i, page, n)) && out.Returned?
      && (out == Returned(0) ==>
            && r.tasks == s.tasks[i := s.tasks[i].(space := Mapped(s.tasks[i].space, page, FrameFor(s, i).value, flags), demoFrame := FrameFor(s, i))]
            && r.taken == TakenWith(s, i) + n)
      && (out != Returned(0) ==> r.tasks[i].space.leaves == s.tasks[i].space.leaves && out == Returned(MapRefusal(s, i, page)))
      && r.tasks[i].stage == s.tasks[i].stage && r.clock == s.clock && |r.tasks| == |s.tasks| && r.tasks == s.tasks[i := r.tasks[i]] && r.tasks[i].state == s.tasks[i].state
  {
    DemoFrameExact(s, i);
    var (s1, frame) := DemoFrame(s, i);
    UserMapExact(s1.tasks[i].space, page, frame, flags, s1.taken + n <= s.config.supply);
    assert AgreeAt(s.tasks[i].space, page);
    SetTaskTwice(s, i, s1.tasks[i], MapFor(s, i, page, flags, n).0.tasks[i]);
  }

  /** The code of a refused map call: 10 without a frame or without tables, 1 for a page already mapped,
      3 for a full record. */
  function MapRefusal(s: State, i: nat, page: nat): nat
    requires i < |s.tasks|
  {
    if FrameFor(s, i) == None then 10
    else if page in s.tasks[i].space.record then 1
    else if |s.tasks[i].space.record| >= 64 then 3
    else 10
  }

  /** What a map call leaves to its caller. */
  predicate MapAnswered(s: State, i: nat, page: nat, flags: Flags, n: nat, t': Task)
    requires i < |s.tasks|
  {
    var t := s.tasks[i];
    && t'.sysRetUnread && t'.stage == t.stage
    && if MapSucceeds(s, i, page, n) then
         t' == t.(space := Mapped(t.space, page, FrameFor(s, i).value, flags), demoFrame := FrameFor(s, i), sysRet := Some(0), sysRetUnread := true)
       else t'.sysRet == Some(MapRefusal(s, i, page)) && t'.space.leaves == t.space.leaves
  }

  /** A map call of the running user task for a USER page of the slot, from an agreeing space: it succeeds
      exactly when there is a frame, the page is free, the record has room and there are frames for the
      missing tables. Then the page is mapped to the task's frame, and exactly the frames for it and for
      the tables are taken. In any case the caller finds the code, unread. */
  lemma MapCallExact(s: State, page: nat, flags: Flags, n: nat)
    requires Shape(s) && s.tasks[s.current].kind == UserSpace && s.tasks[s.current].state != Dead
    requires Proper(s.tasks[s.current].space) && Agree(s.tasks[s.current].space) && page < SLOT_PAGES && flags.user
    ensures var i := s.current;
      var r := PageCall(s, CallPageMap(page, flags), n);
      && r.clock == s.clock && |r.tasks| == |s.tasks| && r.tasks == s.tasks[i := r.tasks[i]]
      && MapAnswered(s, i, page, flags, n, r.tasks[i]) && (MapSucceeds(s, i, page, n) ==> r.taken == TakenWith(s, i) + n)
  {
    var i := s.current;
    MapForExact(s, i, page, flags, n);
    var (m, out) := MapFor(s, i, page, flags, n);
    SetTaskTwice(s, i, m.tasks[i], m.tasks[i].(sysRet := Some(out.code), sysRetUnread := true));
  }

  /** What an unmap call leaves to its caller. */
  predicate UnmapAnswered(t: Task, page: nat, t': Task) {
    t' == t.(space := Space(t.space.record - {page}, t.space.leaves - (if page in t.space.record then {BASE_PAGE + page} else {}), true),
             sysRet := Some(if page in t.space.record then 0 else 2), sysRetUnread := true)
  }

  /** An unmap call of the running user task, from an agreeing space: 0 and the page is gone on both sides,
      or 2 if it was not mapped. */
  lemma UnmapCallExact(s: State, page: nat, n: nat)
    requires Shape(s) && s.tasks[s.current].kind == UserSpace && s.tasks[s.current].state != Dead
    requires Proper(s.tasks[s.current].space) && Agree(s.tasks[s.current].space)
    ensures var i := s.current;
      var t := s.tasks[i];
      var r := PageCall(s, CallPageUnmap(page), n);
      && r == s.(tasks := s.tasks[i := r.tasks[i]]) && UnmapAnswered(t, page, r.tasks[i])
  {
    var i := s.current;
    var t := s.tasks[i];
    UnmapKeepsAgreement(t.space, page);
    var (m, out) := UnmapFor(s, i, page);
    if page in t.space.record { assert AgreeAt(t.space, page); }
    assert t.space.leaves - {} == t.space.leaves;
    SetTaskTwice(s, i, m.tasks[i], m.tasks[i].(sysRet := Some(out.code), sysRetUnread := true));
  }

  /** The program's next step takes note of the result before it chooses its call. */
  lemma ResultConsumed(s: State, i: nat, choice: UserChoice)
    requires i < |s.tasks| && s.tasks[i].state != Dead && s.tasks[i].state != Blocked && s.tasks[i].pendingCall == None && s.tasks[i].sysRetUnread
    ensures UserStep(s, i, choice).tasks[i].sysRet == None && !UserStep(s, i, choice).tasks[i].sysRetUnread
  {
  }

  // ---------------------------------------------------------------------------
  // The end of a tick
  // ---------------------------------------------------------------------------

  /** Nothing but scheduling and run time has changed. */
  predicate SameButTurn(t: Task, t': Task) {
    t' == t.(state := t'.state, reason := t'.reason, slice := t'.slice, runtimeTicks := t'.runtimeTicks)
  }

  lemma PreemptTask(c: State, j: nat)
    requires Core(c) && j < |c.tasks|
    ensures SameButTurn(c.tasks[j], Schedule(Expired(c)).tasks[j])
  {
    SliceNoted(c, c.tasks[c.current].slice + 1);
    NotedSettled(c, Expired(c));
    ScheduleTask(Expired(c), j);
  }

  lemma ChargeTask(c: State, j: nat)
    requires Core(c) && j < |c.tasks|
    ensures SameButTurn(c.tasks[j], ChargeSlice(c).tasks[j])
  {
    if c.tasks[c.current].slice + 1 >= c.config.quantum && c.ready != [] {
      PreemptForm(c);
      PreemptTask(c, j);
    } else {
      ChargeForm(c);
    }
  }

  lemma ChargedCore(m: State, ran: nat)
    requires Core(m) && ran < |m.tasks|
    ensures Core(UpdateRuntime(m, ran))
  {
    RuntimeNoted(m, ran);
    NotedSettled(m, UpdateRuntime(m, ran));
  }

  lemma EndedTask(m: State, ran: nat, next: Activity, j: nat)
    requires Core(m) && ran < |m.tasks| && j < |m.tasks|
    ensures SameButTurn(m.tasks[j], Account(m, ran).tasks[j]) && SameButTurn(m.tasks[j], Ended(m, ran, next).tasks[j])
  {
    ChargedCore(m, ran);
    var c := UpdateRuntime(m, ran);
    ChargeTask(c, j);
    RuntimeTask(m, ran, j);
    TurnChain(m.tasks[j], c.tasks[j], ChargeSlice(c).tasks[j]);
    assert Account(m, ran) == c || Account(m, ran) == ChargeSlice(c);
  }

  lemma RuntimeTask(m: State, ran: nat, j: nat)
    requires ran < |m.tasks| && j < |m.tasks|
    ensures SameButTurn(m.tasks[j], UpdateRuntime(m, ran).tasks[j])
  {
  }

  lemma TurnChain(a: Task, b: Task, c: Task)
    requires SameButTurn(a, b) && SameButTurn(b, c)
    ensures SameButTurn(a, c)
  {
  }

  // ---------------------------------------------------------------------------
  // The memory demo of a user task
  // ---------------------------------------------------------------------------

  /** The running task makes a page call of the demo in this tick and goes on to stage `stage`. */
  predicate Demos(s: State, call: Syscall, stage: nat) {
    && Shape(s) && s.clock.activity == MappingDemoPage && s.current != 0 && s.tasks[s.current].kind == UserSpace
    && s.tasks[s.current].space.rooted && s.tasks[s.current].state == Running
    && call == (if s.tasks[s.current].stage == 0 then CallPageMap(DemoPage(s.current), Flags(true, true, false)) else CallPageUnmap(DemoPage(s.current)))
    && (s.tasks[s.current].stage == 0 || s.tasks[s.current].stage == 2)
    && stage == if s.tasks[s.current].stage == 0 then 1 else if s.config.pfDemo then 3 else 0
  }

  lemma DemoIssues(s: State, inp: TickInput, call: Syscall, stage: nat)
    requires Demos(s, call, stage)
    ensures var a := Begun(s, inp);
      var x := Issued(a);
      && a.current == s.current && a.tasks[s.current].state == Running && a.clock.panicked == s.clock.panicked
      && UserStep(a, s.current, inp.choice) == a && Admitted(a) && a.tasks[s.current].pendingCall == Some(call)
      && x == s.(tasks := s.tasks[s.current := s.tasks[s.current].(pendingCall := None, stage := stage)], clock := x.clock, history := x.history)
  {
    var i := s.current;
    var t := s.tasks[i];
    var s0 := StartTick(s);
    assert Begun(s, inp) == DemoCall(s0, i, t.stage);
    SetTaskTwice(s0, i, t.(pendingCall := Some(call)), t.(pendingCall := Some(call), stage := stage));
    SetTaskTwice(s0, i, t.(pendingCall := Some(call), stage := stage), t.(pendingCall := None, stage := stage));
  }

  /** A tick of the demo is its page call and the end of the tick. */
  lemma DemoTickForm(s: State, inp: TickInput, call: Syscall, stage: nat)
    requires Core(s) && Demos(s, call, stage) && !s.clock.halted && !s.clock.panicked
    requires !PageCall(Issued(Begun(s, inp)), call, inp.tables).clock.panicked
    ensures var m := PageCall(Issued(Begun(s, inp)), call, inp.tables);
      Tick(s, inp) == if Account(m, s.current).clock.panicked then Account(m, s.current) else Ended(m, s.current, NextActivity(s.clock.activity))
  {
    DemoIssues(s, inp, call, stage);
    CarriedForm(Begun(s, inp), inp);
    TickForm(s, inp);
  }

  lemma DemoCallCore(s: State, x: State, call: Syscall, stage: nat, n: nat)
    requires Core(s) && x == s.(tasks := s.tasks[s.current := s.tasks[s.current].(pendingCall := None, stage := stage)], clock := x.clock, history := x.history)
    ensures Core(PageCall(x, call, n))
  {
    AlikeSettled(s, x);
    PageCallNoted(x, call, n);
    NotedSettled(x, PageCall(x, call, n));
  }

  lemma DemoTick(s: State, inp: TickInput, call: Syscall, stage: nat)
    requires Core(s) && Demos(s, call, stage) && !s.clock.halted && !s.clock.panicked
    requires !PageCall(Issued(Begun(s, inp)), call, inp.tables).clock.panicked
    ensures SameButTurn(PageCall(Issued(Begun(s, inp)), call, inp.tables).tasks[s.current], Tick(s, inp).tasks[s.current])
  {
    DemoTickForm(s, inp, call, stage);
    DemoIssues(s, inp, call, stage);
    var x := Issued(Begun(s, inp));
    DemoCallCore(s, x, call, stage, inp.tables);
    EndedTask(PageCall(x, call, inp.tables), s.current, NextActivity(s.clock.activity), s.current);
  }

  /** What the map call of the demo leaves to task `t`, as `t'`. */
  predicate DemoMaps(s: State, i: nat, n: nat, t': Task)
    requires i < |s.tasks|
  {
    && t'.stage == 1 && t'.sysRetUnread
    && if MapSucceeds(s, i, 0x110, n) then
         && t'.sysRet == Some(0) && t'.demoFrame == FrameFor(s, i)
         && t'.space == Mapped(s.tasks[i].space, 0x110, FrameFor(s, i).value, Flags(true, true, false))
       else t'.sysRet == Some(MapRefusal(s, i, 0x110)) && t'.space.leaves == s.tasks[i].space.leaves
  }

  lemma DemoMapCall(s: State, x: State, n: nat)
    requires Shape(s) && s.tasks[s.current].kind == UserSpace && s.tasks[s.current].state == Running
    requires Proper(s.tasks[s.current].space) && Agree(s.tasks[s.current].space)
    requires x == s.(tasks := s.tasks[s.current := s.tasks[s.current].(pendingCall := None, stage := 1)], clock := x.clock, history := x.history)
    ensures var r := PageCall(x, CallPageMap(0x110, Flags(true, true, false)), n);
      r.clock == x.clock && DemoMaps(s, s.current, n, r.tasks[s.current])
  {
    MapCallExact(x, 0x110, Flags(true, true, false), n);
    DemoAnswered(s, x, n, PageCall(x, CallPageMap(0x110, Flags(true, true, false)), n).tasks[s.current]);
  }

  lemma DemoAnswered(s: State, x: State, n: nat, t': Task)
    requires Shape(s) && x == s.(tasks := s.tasks[s.current := s.tasks[s.current].(pendingCall := None, stage := 1)], clock := x.clock, history := x.history)
    requires MapAnswered(x, s.current, 0x110, Flags(true, true, false), n, t')
    ensures DemoMaps(s, s.current, n, t')
  {
  }

  /** The tick in which the memory demo of user task 1 or 2 maps: from an agreeing space with room and frames
      at hand, page 0x110 ends up mapped to the task's own frame, writable and open to user code, in the
      record and in the slot, and the task finds the code 0; otherwise it finds the reason, and nothing is
      mapped. */
  lemma DemoMapTick(s: State, inp: TickInput)
    requires Core(s) && !s.clock.halted && !s.clock.panicked && s.clock.activity == MappingDemoPage
    requires (s.current == 1 || s.current == 2) && s.tasks[s.current].stage == 0
    requires Proper(s.tasks[s.current].space) && Agree(s.tasks[s.current].space)
    ensures DemoMaps(s, s.current, inp.tables, Tick(s, inp).tasks[s.current])
  {
    var call := CallPageMap(0x110, Flags(true, true, false));
    UserRuns(s);
    DemoIssues(s, inp, call, 1);
    DemoMapCall(s, Issued(Begun(s, inp)), inp.tables);
    DemoTick(s, inp, call, 1);
  }

  lemma UserRuns(s: State)
    requires Core(s) && s.current != 0
    ensures s.tasks[s.current].kind == UserSpace && s.tasks[s.current].state == Running
  {
    assert TaskOk(s.tasks[s.current], s.current, |s.tasks|);
  }

  /** What its unmap call leaves. */
  predicate DemoUnmaps(s: State, i: nat, t': Task)
    requires i < |s.tasks|
  {
    && t'.stage == (if s.config.pfDemo then 3 else 0) && t'.sysRetUnread
    && t'.sysRet == Some(if 0x110 in s.tasks[i].space.record then 0 else 2)
    && t'.space.record == s.tasks[i].space.record - {0x110} && t'.space.leaves == s.tasks[i].space.leaves - {BASE_PAGE + 0x110}
  }

  lemma DemoUnmapCall(s: State, x: State, n: nat)
    requires Shape(s) && s.tasks[s.current].kind == UserSpace && s.tasks[s.current].state == Running
    requires Proper(s.tasks[s.current].space) && Agree(s.tasks[s.current].space)
    requires x == s.(tasks := s.tasks[s.current := s.tasks[s.current].(pendingCall := None, stage := if s.config.pfDemo then 3 else 0)], clock := x.clock, history := x.history)
    ensures var r := PageCall(x, CallPageUnmap(0x110), n);
      r.clock == x.clock && DemoUnmaps(s, s.current, r.tasks[s.current])
  {
    UnmapCallExact(x, 0x110, n);
    DemoUnanswered(s, s.current, x.tasks[s.current], PageCall(x, CallPageUnmap(0x110), n).tasks[s.current]);
  }

  lemma DemoUnanswered(s: State, i: nat, t: Task, t': Task)
    requires i < |s.tasks| && t == s.tasks[i].(pendingCall := None, stage := if s.config.pfDemo then 3 else 0)
    requires Agree(s.tasks[i].space) && UnmapAnswered(t, 0x110, t')
    ensures DemoUnmaps(s, i, t')
  {
    assert AgreeAt(s.tasks[i].space, 0x110);
  }

  /** The tick in which it unmaps: the page is gone on both sides, and the task finds the code 0, or 2 if it
      was not mapped. */
  lemma DemoUnmapTick(s: State, inp: TickInput)
    requires Core(s) && !s.clock.halted && !s.clock.panicked && s.clock.activity == MappingDemoPage
    requires (s.current == 1 || s.current == 2) && s.tasks[s.current].stage == 2
    requires Proper(s.tasks[s.current].space) && Agree(s.tasks[s.current].space)
    ensures DemoUnmaps(s, s.current, Tick(s, inp).tasks[s.current])
  {
    var call := CallPageUnmap(0x110);
    var stage := if s.config.pfDemo then 3 else 0;
    UserRuns(s);
    DemoIssues(s, inp, call, stage);
    DemoUnmapCall(s, Issued(Begun(s, inp)), inp.tables);
    DemoTick(s, inp, call, stage);
  }

  /** An access that does not fault ends on the kernel's root and leads from stage 1 to stage 2, or from stage 3 back to
      the first; nothing else changes. */
  lemma QuietAccess(s: State, inp: TickInput)
    requires Accesses(s) && s.tasks[s.current].state == Running && !inp.fault
    ensures Act(s, inp) == s.(cr3 := 0, tasks := s.tasks[s.current := s.tasks[s.current].(stage := if s.tasks[s.current].stage == 1 then 2 else 0)])
  {
  }

  // ---------------------------------------------------------------------------
  // The memory demo of the kernel task
  // ---------------------------------------------------------------------------

  /** The kernel task's turn of the memory demo, with frames at hand and page 0x100 free: it maps the page to its
      own frame, writable and closed to user code, and logs it. */
  lemma KernelMaps(s: State, n: nat)
    requires Shape(s) && s.current == 0 && s.tasks[0].kind == KernelSpace && !s.tasks[0].demoMapped
    requires FrameFor(s, 0).Some? && TakenWith(s, 0) + n <= s.config.supply
    requires 0x100 !in s.tasks[0].space.record && 0x100 !in s.tasks[0].space.leaves && |s.tasks[0].space.record| < 64
    ensures var r := KernelMemDemo(s, n);
      && r.tasks[0].demoMapped && r.tasks[0].demoFrame == FrameFor(s, 0) && r.clock == s.clock && r.taken == TakenWith(s, 0) + n
      && r.history != [] && r.history[|r.history| - 1] == MemActionApplied(s.tasks[0].id)
      && r.tasks[0].space == Space(s.tasks[0].space.record[0x100 := Leaf(FrameFor(s, 0).value, Flags(true, false, false))],
                                   s.tasks[0].space.leaves[0x100 := Leaf(FrameFor(s, 0).value, Flags(true, false, false))], s.tasks[0].space.rooted)
      && r.tasks[0].kind == KernelSpace && r.current == 0
  {
    DemoFrameExact(s, 0);
    var (s1, frame) := DemoFrame(s, 0);
    KernelMapExact(s1.tasks[0].space, 0x100, frame, Flags(true, false, false), s1.taken + n <= s.config.supply);
  }

  /** A later turn unmaps the page again. */
  lemma KernelUnmaps(s: State, n: nat)
    requires Shape(s) && s.current == 0 && s.tasks[0].kind == KernelSpace && s.tasks[0].demoMapped
    requires 0x100 in s.tasks[0].space.record && 0x100 in s.tasks[0].space.leaves
    ensures var r := KernelMemDemo(s, n);
      && !r.tasks[0].demoMapped && r.tasks[0].demoFrame == s.tasks[0].demoFrame && r.clock == s.clock && r.taken == s.taken
      && r.tasks[0].space == Space(s.tasks[0].space.record - {0x100}, s.tasks[0].space.leaves - {0x100}, s.tasks[0].space.rooted)
      && r.history == s.history + [MemActionApplied(s.tasks[0].id)]
  {
  }

  /** When a turn of the kernel task's memory demo stops the kernel: for want of a frame; and in a panic exactly
      when the page is not free, the record is full or tables are missing, or when it is not there to unmap. */
  lemma KernelDemoFails(s: State, n: nat)
    requires Shape(s) && s.current == 0 && s.tasks[0].kind == KernelSpace && !s.clock.halted && !s.clock.panicked
    ensures var r := KernelMemDemo(s, n);
      var space := s.tasks[0].space;
      && (r.clock.halted && !r.clock.panicked <==> !s.tasks[0].demoMapped && FrameFor(s, 0) == None)
      && (r.clock.panicked <==>
            if s.tasks[0].demoMapped then 0x100 !in space.record || 0x100 !in space.leaves
            else FrameFor(s, 0).Some? && (0x100 in space.record || |space.record| >= 64 || 0x100 in space.leaves || TakenWith(s, 0) + n > s.config.supply))
  {
    if !s.tasks[0].demoMapped {
      DemoFrameExact(s, 0);
      var (s1, frame) := DemoFrame(s, 0);
      KernelMapExact(s1.tasks[0].space, 0x100, frame, Flags(true, false, false), s1.taken + n <= s.config.supply);
    }
  }

  /** So two turns restore the kernel's space. */
  lemma KernelTurns(s: State, n: nat, n': nat)
    requires Shape(s) && s.current == 0 && s.tasks[0].kind == KernelSpace && !s.tasks[0].demoMapped
    requires FrameFor(s, 0).Some? && TakenWith(s, 0) + n <= s.config.supply
    requires 0x100 !in s.tasks[0].space.record && 0x100 !in s.tasks[0].space.leaves && |s.tasks[0].space.record| < 64
    ensures var r := KernelMemDemo(KernelMemDemo(s, n), n');
      !r.tasks[0].demoMapped && r.tasks[0].space == s.tasks[0].space && r.tasks[0].demoFrame == FrameFor(s, 0) && r.clock == s.clock
  {
    KernelMaps(s, n);
    var m := KernelMemDemo(s, n);
    KernelUnmaps(m, n');
    assert m.tasks[0].space.record - {0x100} == s.tasks[0].space.record;
    assert m.tasks[0].space.leaves - {0x100} == s.tasks[0].space.leaves;
  }
}
