/** Single ticks of a peaceful kernel, in the forms that the demo program needs. */
module DemoTicks {
  import opened KernelTypes
  import opened PageOps
  import opened KernelSpec
  import opened Holdings
  import opened Invariant
  import opened Scheduling
  import opened Steps

  /** What the demo's future depends on, apart from the tasks. */
  predicate SameRest(s: State, r: State) {
    r.current == s.current && r.ready == s.ready && r.endpoints == s.endpoints && r.config == s.config
    && r.sentByTask1 == s.sentByTask1 && |r.tasks| == |s.tasks|
  }

  /** A task record up to run time, memory and page-call results. */
  predicate SameTask(t: Task, t': Task) {
    && t' == t.(runtimeTicks := t'.runtimeTicks, sysRet := t'.sysRet, sysRetUnread := t'.sysRetUnread,
                space := t'.space, demoFrame := t'.demoFrame, demoMapped := t'.demoMapped)
    && t'.space.rooted == t.space.rooted
  }

  /** The parts of a task record that page calls and the memory demo change. */
  predicate SamePages(t: Task, t': Task) {
    SameMemory(t, t') && t'.demoMapped == t.demoMapped
  }

  predicate SameTasks(s: State, r: State) {
    |r.tasks| == |s.tasks| && forall j: nat {:trigger r.tasks[j]} :: j < |s.tasks| ==> SameTask(s.tasks[j], r.tasks[j])
  }

  lemma VacatedSame(s: State)
    requires Settled(s) && s.tasks[s.current].state != Running
    ensures Vacated(s) == s
  {
    CompactionIdle(s);
  }

  /** A blocked task hands the processor to the only ready one. */
  lemma ScheduleSingle(s: State, x: nat)
    requires Settled(s) && s.tasks[s.current].state == Blocked && s.ready == [x]
    ensures x < |s.tasks|
    ensures var r := Schedule(s);
      && r.tasks == s.tasks[x := Dispatched(s.tasks[x])] && r.current == x && r.ready == []
      && r.endpoints == s.endpoints && r.config == s.config && r.sentByTask1 == s.sentByTask1 && r.clock == s.clock
  {
    VacatedSame(s);
    DispatchForm(s, s.current);
    assert BestPos(s.tasks, s.ready, 1) == 0;
    assert SwapRemove(s.ready, 0) == [];
  }

  /** The running idle task is preempted by the better of two ready tasks, the first. */
  lemma ScheduleFirst(s: State, x: nat, y: nat)
    requires Settled(s) && s.tasks[s.current].state == Running && s.current == 0 && s.ready == [x, y]
    requires x < |s.tasks| && y < |s.tasks| && s.tasks[x].priority > s.tasks[y].priority && x != 0
    ensures var r := Schedule(s);
      && r.tasks == s.tasks[0 := Woken(s.tasks[0])][x := Dispatched(s.tasks[x])] && r.current == x && r.ready == [y]
      && r.endpoints == s.endpoints && r.config == s.config && r.sentByTask1 == s.sentByTask1 && r.clock == s.clock
  {
    VacatedLinks(s);
    CompactionIdle(s);
    var v := Vacated(s);
    assert v.ready == [x, y];
    DispatchForm(v, s.current);
    assert BestPos(v.tasks, v.ready, 1) == 0 && BestPos(v.tasks, v.ready, 2) == 0;
    assert SwapRemove(v.ready, 0) == [y];
  }

  // ---------------------------------------------------------------------------
  // The action
  // ---------------------------------------------------------------------------

  /** The state in which the running task gets to act. */
  function Begun(s: State, inp: TickInput): State
    requires Shape(s)
  {
    Act(StartTick(s), inp)
  }

  /** What the memory demo does to user task `i` when it does not fault. */
  function Demoed(t: Task, i: nat): Task {
    if t.stage == 0 then t.(pendingCall := Some(CallPageMap(DemoPage(i), DEMO_FLAGS)), stage := 1)
    else if t.stage == 1 then t.(stage := 2)
    else if t.stage == 2 then t.(pendingCall := Some(CallPageUnmap(DemoPage(i))), stage := 0)
    else t.(stage := 0)
  }

  /** Neither stopped for good nor panicked. */
  predicate Sane(s: State) {
    !s.clock.haltDumped && !s.clock.panicked
  }

  /** What an action that neither halts by the demo nor panics does to the clock. */
  predicate NextTick(s: State, a: State) {
    a.clock.tickCount == s.clock.tickCount + 1 && a.clock.haltDumped == s.clock.haltDumped && a.clock.panicked == s.clock.panicked
  }

  lemma BegunQuiet(s: State, inp: TickInput)
    requires Shape(s) && s.clock.activity != MappingDemoPage
    ensures var a := Begun(s, inp); SameRest(s, a) && a.tasks == s.tasks && NextTick(s, a)
  {
  }

  /** The idle task's memory demo either panics or is invisible. */
  lemma BegunIdle(s: State, inp: TickInput)
    requires Shape(s) && s.clock.activity == MappingDemoPage && s.current == 0 && s.tasks[0].state == Running
    ensures var a := Begun(s, inp);
      || (a.clock.panicked && a.clock.tickCount == s.clock.tickCount + 1)
      || (SameRest(s, a) && a.tasks == s.tasks[0 := a.tasks[0]] && SameTask(s.tasks[0], a.tasks[0]) && NextTick(s, a))
  {
    var s0 := StartTick(s);
    assert Begun(s, inp) == KernelMemDemo(s0, inp.tables);
    KernelDemoForm(s0, inp.tables);
  }

  /** Only the memory of task `i` changes, and the log. */
  predicate OnlyDemo(s: State, r: State, i: nat) {
    && i < |s.tasks| == |r.tasks| && r == s.(tasks := s.tasks[i := r.tasks[i]], taken := r.taken, history := r.history)
    && SameTask(s.tasks[i], r.tasks[i])
  }

  lemma KernelDemoForm(s: State, n: nat)
    requires Shape(s)
    ensures var r := KernelMemDemo(s, n); Collapses(s, r) || r == Halt(s) || OnlyDemo(s, r, s.current)
  {
    if s.tasks[s.current].demoMapped {
      UnmapForForm(s, s.current, DemoPage(s.current));
      var (m, out) := UnmapFor(s, s.current, DemoPage(s.current));
      ToggledForm(s, m, out);
    } else {
      MapForForm(s, s.current, DemoPage(s.current), DEMO_FLAGS_TASK0, n);
      var (m, out) := MapFor(s, s.current, DemoPage(s.current), DEMO_FLAGS_TASK0, n);
      ToggledForm(s, m, out);
    }
  }

  /** The kernel panics, and no time passes. */
  predicate Collapses(s: State, r: State) {
    r.clock == Panic(s).clock
  }

  lemma ToggledForm(s: State, m: State, out: Outcome)
    requires Shape(s) && OnlyMemory(s, m, s.current)
    requires m.clock == if out.Panicked? then Panic(s).clock else s.clock
    ensures var r := Toggled(m, s.current, s.tasks[s.current], out); Collapses(s, r) || OnlyDemo(s, r, s.current)
  {
    SetTaskTwice(s, s.current, m.tasks[s.current], m.tasks[s.current].(demoMapped := !s.tasks[s.current].demoMapped));
  }

  lemma BegunDemo(s: State, inp: TickInput)
    requires Shape(s) && s.clock.activity == MappingDemoPage && s.current != 0 && s.tasks[s.current].kind == UserSpace
    requires s.tasks[s.current].state == Running && !inp.fault && !s.config.pfDemo && s.tasks[s.current].space.rooted
    ensures var a := Begun(s, inp);
      SameRest(s, a) && a.tasks == s.tasks[s.current := Demoed(s.tasks[s.current], s.current)] && NextTick(s, a)
  {
    assert Begun(s, inp) == UserMemDemo(StartTick(s), inp);
    DemoedForm(StartTick(s), inp);
  }

  lemma DemoedForm(s: State, inp: TickInput)
    requires Shape(s) && s.tasks[s.current].kind == UserSpace && !inp.fault && !s.config.pfDemo && s.tasks[s.current].space.rooted
    ensures var r := UserMemDemo(s, inp);
      r == s.(tasks := s.tasks[s.current := Demoed(s.tasks[s.current], s.current)], cr3 := r.cr3)
  {
    var i := s.current;
    var t := s.tasks[i];
    SetTaskTwice(s, i, t.(pendingCall := Some(CallPageMap(DemoPage(i), DEMO_FLAGS))), Demoed(t, i));
    SetTaskTwice(s, i, t.(pendingCall := Some(CallPageUnmap(DemoPage(i)))), Demoed(t, i));
  }

  // ---------------------------------------------------------------------------
  // The end of a tick
  // ---------------------------------------------------------------------------

  /** A tick of a kernel in which a user task lives on: action, call, account. */
  lemma TickForm(s: State, inp: TickInput)
    requires Shape(s) && !s.clock.halted
    requires var a := Begun(s, inp);
      && a.current == s.current && a.tasks[s.current].state != Dead && !a.clock.panicked
      && !HandlePending(UserStep(a, s.current, inp.choice), inp).clock.panicked
    ensures var a := Begun(s, inp);
      var r := Account(HandlePending(UserStep(a, s.current, inp.choice), inp), s.current);
      Tick(s, inp) == if r.clock.panicked then r else MaybeHalt(SetActivity(r, NextActivity(s.clock.activity)))
  {
    ServeForm(Begun(s, inp), inp);
  }

  /** Closing a tick after the running task has been switched away. */
  lemma CloseSwitched(m: State, ran: nat, next: Activity)
    requires Shape(m) && ran < |m.tasks| && m.current != ran && UserAlive(m)
    ensures var r := MaybeHalt(SetActivity(Account(m, ran), next));
      && SameRest(m, r) && SameTasks(m, r) && r.clock == m.clock.(activity := next)
    ensures Account(m, ran).clock == m.clock
  {
    var m3 := UpdateRuntime(m, ran);
    assert Account(m, ran) == m3;
    AliveStill(m, SetActivity(m3, next));
  }

  lemma AliveStill(s: State, r: State)
    requires UserAlive(s) && |r.tasks| == |s.tasks|
    requires forall j: nat {:trigger r.tasks[j]} :: j < |s.tasks| ==> r.tasks[j].state == s.tasks[j].state && r.tasks[j].kind == s.tasks[j].kind
    ensures UserAlive(r)
  {
    var i :| 0 <= i < |s.tasks| && s.tasks[i].state != Dead && s.tasks[i].kind == UserSpace;
    assert r.tasks[i].state != Dead && r.tasks[i].kind == UserSpace;
  }

  /** The slice after one more tick. */
  function Charged(slice: nat, quantum: nat): nat {
    if slice + 1 < quantum then slice + 1 else 0
  }

  /** Closing a tick in which the running task keeps running, unless its quantum ends with
      somebody else ready. */
  lemma CloseRunning(m: State, next: Activity)
    requires Shape(m) && m.tasks[m.current].state == Running && UserAlive(m)
    requires m.tasks[m.current].slice + 1 < m.config.quantum || m.ready == []
    ensures var r := MaybeHalt(SetActivity(Account(m, m.current), next));
      && SameRest(m, r) && r.clock == m.clock.(activity := next)
      && (forall j: nat {:trigger r.tasks[j]} :: j < |m.tasks| && j != m.current ==> r.tasks[j] == m.tasks[j])
      && SameTask(m.tasks[m.current].(slice := Charged(m.tasks[m.current].slice, m.config.quantum)), r.tasks[m.current])
      && SamePages(m.tasks[m.current], r.tasks[m.current])
    ensures Account(m, m.current).clock == m.clock
  {
    var i := m.current;
    var m3 := UpdateRuntime(m, i);
    var t := m3.tasks[i];
    var used := Charged(t.slice, m.config.quantum);
    var c := ChargeSlice(m3);
    assert Account(m, i) == c;
    ChargeForm(m3);
    AliveStill(m, SetActivity(c, next));
  }

  lemma ChargeForm(s: State)
    requires Shape(s) && (s.tasks[s.current].slice + 1 < s.config.quantum || s.ready == [])
    ensures var r := ChargeSlice(s);
      && SameRest(s, r) && r.clock == s.clock
      && r.tasks == s.tasks[s.current := s.tasks[s.current].(slice := Charged(s.tasks[s.current].slice, s.config.quantum))]
  {
    var t := s.tasks[s.current];
    SetTaskTwice(s, s.current, t.(slice := t.slice + 1), t.(slice := 0));
  }
}
