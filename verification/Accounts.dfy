/** Time and run time: what the clock shows after any number of ticks, and that every tick is charged to
    the task that ran in it. */
module Accounts {
  import opened KernelTypes
  import opened KernelSpec
  import opened Invariant
  import opened Scheduling
  import opened KillOutcome
  import opened KillTheorem
  import opened Actions
  import opened Steps
  import opened Deaths
  import opened Switches
  import opened Runs

  // ---------------------------------------------------------------------------
  // Time
  // ---------------------------------------------------------------------------

  /** The clock during a tick, after its action. */
  predicate Ticked(c: Clock, c': Clock) {
    c'.tickCount == c.tickCount + 1 && c'.timeTicks == c.timeTicks + (if c.activity == UpdatingTimer then 1 else 0)
  }

  lemma ActClock(s: State, inp: TickInput)
    requires Shape(s)
    ensures var c := Act(StartTick(s), inp).clock; Ticked(s.clock, c) && c.activity == s.clock.activity
  {
  }

  /** What a tick does to the clock. */
  lemma TickClock(s: State, inp: TickInput)
    requires Shape(s) && !s.clock.halted && !s.clock.panicked
    ensures var c := Tick(s, inp).clock;
      Ticked(s.clock, c) && (!c.panicked ==> c.activity == NextActivity(s.clock.activity))
  {
    ActClock(s, inp);
  }

  /** The activity that comes after `t` ticks. */
  function Phase(t: nat): Activity {
    match t % 4
    case 0 => Idle
    case 1 => UpdatingTimer
    case 2 => AllocatingFrame
    case _ => MappingDemoPage
  }

  lemma PhaseStep(t: nat)
    ensures NextActivity(Phase(t)) == Phase(t + 1) && (t + 3) / 4 == (t + 2) / 4 + (if Phase(t) == UpdatingTimer then 1 else 0)
  {
  }

  /** How many of the steps are ticks. */
  function TickSteps(steps: seq<Step>): nat {
    if steps == [] then 0 else TickSteps(steps[..|steps| - 1]) + if steps[|steps| - 1].TickStep? then 1 else 0
  }

  lemma KillClock(s: State, i: nat, why: KillReason)
    requires Core(s) && i != 0
    ensures var c := Kill(s, i, why).clock;
      c.tickCount == s.clock.tickCount && c.timeTicks == s.clock.timeTicks && c.activity == s.clock.activity && (s.clock.halted ==> c.halted)
  {
    if i < |s.tasks| {
      var q := KillQuietly(s, i, why);
      KillLog(s, i, why);
      KillSettles(s, i, why);
      ScheduleClock(q);
    }
  }

  /** In every run: the four activities take turns, the timer has been updated in every fourth tick, and as
      long as the kernel has not stopped every tick step was a tick. */
  lemma {:induction false} ClockForever(s: State, steps: seq<Step>)
    requires Booted(s) && Legal(steps)
    ensures var c := Run(s, steps).clock;
      && c.timeTicks == (c.tickCount + 2) / 4 && (!c.panicked ==> c.activity == Phase(c.tickCount))
      && c.tickCount <= TickSteps(steps) && (!c.halted && !c.panicked ==> c.tickCount == TickSteps(steps))
    decreases |steps|
  {
    if steps != [] {
      var init := steps[..|steps| - 1];
      ClockForever(s, init);
      CoreForever(s, init);
      StepClock(Run(s, init), steps[|steps| - 1]);
    }
  }

  /** What a step does to the clock. */
  lemma StepClock(m: State, step: Step)
    requires Core(m) && (step.KillStep? ==> step.task != 0)
    requires m.clock.timeTicks == (m.clock.tickCount + 2) / 4 && (!m.clock.panicked ==> m.clock.activity == Phase(m.clock.tickCount))
    ensures var c := Apply(m, step).clock;
      && c.timeTicks == (c.tickCount + 2) / 4 && (!c.panicked ==> c.activity == Phase(c.tickCount))
      && (if step.TickStep? && !m.clock.halted && !m.clock.panicked then c.tickCount == m.clock.tickCount + 1 else c.tickCount == m.clock.tickCount)
      && (m.clock.halted ==> c.halted) && (m.clock.panicked ==> c.panicked)
  {
    if !m.clock.panicked {
      match step
      case TickStep(inp) =>
        PhaseStep(m.clock.tickCount);
        if !m.clock.halted { TickClock(m, inp); }
      case KillStep(i, why) => KillClock(m, i, why);
    }
  }

  // ---------------------------------------------------------------------------
  // Run time
  // ---------------------------------------------------------------------------

  lemma RuntimesChain(b: State, s: State, r: State)
    requires SameRuntimes(b, s) && SameRuntimes(s, r)
    ensures SameRuntimes(b, r)
  {
    forall j: nat | j < |b.tasks| ensures r.tasks[j].runtimeTicks == b.tasks[j].runtimeTicks { assert s.tasks[j].runtimeTicks == b.tasks[j].runtimeTicks; }
  }

  lemma RescheduleRuntimes(s: State, r: State)
    requires Settled(s) && Reschedules(s, r)
    ensures SameRuntimes(s, r)
  {
    forall j: nat | j < |s.tasks| ensures r.tasks[j].runtimeTicks == s.tasks[j].runtimeTicks { ScheduleTask(s, j); }
  }

  lemma SlayRuntimes(s: State, i: nat, why: KillReason, r: State)
    requires Settled(s) && Slays(s, i, why, r)
    ensures SameRuntimes(s, r)
  {
    assert s.tasks[i].id == i + 1;
    KillQuietlyForm(s, i, why);
    FateMet(s, i, why, i);
    forall j: nat | j < |s.tasks| ensures r.tasks[j].runtimeTicks == s.tasks[j].runtimeTicks { FateMet(s, i, why, j); }
  }

  lemma AskRuntimes(s: State, a: Action, r: State)
    requires Settled(s) && Does(s, a, r) && (a.QueueSend? || a.HandOver? || a.TakeSend? || a.Listen?)
    ensures SameRuntimes(s, r)
  {
  }

  lemma ReplyRuntimes(s: State, a: Action, r: State)
    requires Settled(s) && Does(s, a, r) && Replies(a)
    ensures SameRuntimes(s, r)
  {
  }

  const NO_CHARGES := Scope(true, true, true, false, true)

  lemma ActionRuntimes(s: State, a: Action, r: State)
    requires Settled(s) && Within(a, NO_CHARGES) && Does(s, a, r)
    ensures SameRuntimes(s, r)
  {
    if a.Reschedule? {
      RescheduleRuntimes(s, r);
    } else if a.Slay? {
      SlayRuntimes(s, a.task, a.why, r);
    } else if Replies(a) {
      ReplyRuntimes(s, a, r);
    } else if !a.Note? {
      AskRuntimes(s, a, r);
    }
  }

  lemma RuntimesInductive(b: State)
    ensures Inductive((x: State) => SameRuntimes(b, x), NO_CHARGES)
  {
    var P := (x: State) => SameRuntimes(b, x);
    forall s: State, a: Action, r: State {:trigger P(s), Does(s, a, r)} |
      Settled(s) && P(s) && Within(a, NO_CHARGES) && Does(s, a, r) ensures P(r)
    {
      ActionRuntimes(s, a, r);
      RuntimesChain(b, s, r);
    }
  }

  /** Nobody is charged before the end of a tick. */
  lemma IssuedRuntimes(s: State, inp: TickInput)
    requires Core(s) && !s.clock.halted
    ensures var a := Act(StartTick(s), inp);
      Core(a) && SameRuntimes(s, a) && (a.tasks[s.current].state != Dead ==>
        var m := HandlePending(UserStep(a, a.current, inp.choice), inp);
        a.current == s.current && Core(m) && SameRuntimes(s, m))
  {
    var P := (x: State) => SameRuntimes(s, x);
    RuntimesInductive(s);
    Strengthen(P, NO_CHARGES);
    var Q := (x: State) => Settled(x) && P(x);
    ActedKeeps(s, inp, Q, NO_CHARGES);
    IssueKeeps(Act(StartTick(s), inp), inp, Q, NO_CHARGES);
  }

  /** At the end of a tick the task that ran is charged, unless it is dead. */
  lemma EndedRuntimes(m: State, ran: nat, next: Activity)
    requires Core(m) && ran < |m.tasks|
    ensures SameRuntimes(UpdateRuntime(m, ran), Ended(m, ran, next))
  {
    var c := UpdateRuntime(m, ran);
    RuntimeNoted(m, ran);
    NotedSettled(m, c);
    var P := (x: State) => SameRuntimes(c, x);
    RuntimesInductive(c);
    Strengthen(P, NO_CHARGES);
    var Q := (x: State) => Settled(x) && P(x);
    assert SameButSlice(m.tasks[m.current], c.tasks[m.current]);
    ChargeKeeps(c, Q, NO_CHARGES);
    EndedFrom(Account(m, ran), next, Q);
  }

  lemma EndedFrom(r: State, next: Activity, Q: State -> bool)
    requires Live(r) && Q(r) && Stable(Q, NO_CHARGES)
    ensures Q(MaybeHalt(SetActivity(r, next)))
  {
    ClockNoted(r, SetActivity(r, next));
    NoteKeeps(r, SetActivity(r, next), Q, NO_CHARGES);
    HaltKeeps(SetActivity(r, next), Q, NO_CHARGES);
  }

  /** Charged once more than before. */
  predicate ChargedOnly(s: State, r: State, i: nat) {
    && i < |s.tasks| && |r.tasks| == |s.tasks|
    && forall j: nat {:trigger r.tasks[j]} :: j < |s.tasks| ==>
         r.tasks[j].runtimeTicks == s.tasks[j].runtimeTicks + if j == i && r.tasks[i].state != Dead then 1 else 0
  }

  lemma ServedRuntimes(s: State, m: State, ran: nat, next: Activity)
    requires Core(m) && ran < |m.tasks| && SameRuntimes(s, m)
    ensures ChargedOnly(s, Ended(m, ran, next), ran)
  {
    EndedRuntimes(m, ran, next);
    EndsBloodless(m, ran, next);
    var r := Ended(m, ran, next);
    forall j: nat | j < |s.tasks| ensures r.tasks[j].runtimeTicks == s.tasks[j].runtimeTicks + if j == ran && r.tasks[ran].state != Dead then 1 else 0 {
      assert m.tasks[j].runtimeTicks == s.tasks[j].runtimeTicks;
      assert r.tasks[ran].state == Dead <==> m.tasks[ran].state == Dead;
    }
  }

  /** Every tick is charged to the task that ran in it, unless it died or the kernel panicked, and to
      nobody else. */
  lemma TickRuntime(s: State, inp: TickInput)
    requires Core(s) && !s.clock.halted && !s.clock.panicked
    ensures var r := Tick(s, inp); if r.clock.panicked then SameRuntimes(s, r) else ChargedOnly(s, r, s.current)
  {
    IssuedRuntimes(s, inp);
    var a := Act(StartTick(s), inp);
    if !a.clock.panicked && a.tasks[s.current].state != Dead {
      ServeForm(a, inp);
      var m := HandlePending(UserStep(a, s.current, inp.choice), inp);
      if !m.clock.panicked {
        AccountClock(m, s.current);
        ServedRuntimes(s, m, s.current, NextActivity(s.clock.activity));
      }
    }
  }

  lemma AccountClock(m: State, ran: nat)
    requires Core(m) && ran < |m.tasks|
    ensures Account(m, ran).clock == m.clock
  {
    var c := UpdateRuntime(m, ran);
    RuntimeNoted(m, ran);
    NotedSettled(m, c);
    assert SameButSlice(m.tasks[m.current], c.tasks[m.current]);
    ChargeClock(c);
  }

  lemma ChargeClock(c: State)
    requires Core(c)
    ensures ChargeSlice(c).clock == c.clock
  {
    if c.tasks[c.current].slice + 1 >= c.config.quantum && c.ready != [] {
      PreemptForm(c);
      SliceNoted(c, c.tasks[c.current].slice + 1);
      NotedSettled(c, Expired(c));
      ScheduleClock(Expired(c));
    }
  }

  /** The run time of all tasks together. */
  function Total(tasks: seq<Task>): nat {
    if tasks == [] then 0 else Total(tasks[..|tasks| - 1]) + tasks[|tasks| - 1].runtimeTicks
  }

  lemma {:induction false} TotalCharged(a: seq<Task>, b: seq<Task>, i: nat)
    requires |a| == |b| && forall j: nat {:trigger b[j]} :: j < |a| ==> b[j].runtimeTicks == a[j].runtimeTicks + if j == i then 1 else 0
    ensures Total(b) == Total(a) + if i < |a| then 1 else 0
  {
    if a != [] {
      var n := |a| - 1;
      TotalCharged(a[..n], b[..n], i);
      assert b[n].runtimeTicks == a[n].runtimeTicks + if n == i then 1 else 0;
    }
  }

  lemma TickTotal(s: State, inp: TickInput)
    requires Core(s) && !s.clock.halted && !s.clock.panicked && !Fatal(s, inp)
    ensures Total(Tick(s, inp).tasks) == Total(s.tasks) + if Tick(s, inp).clock.panicked then 0 else 1
  {
    TickRuntime(s, inp);
    PeacefulTick(s, inp);
    var r := Tick(s, inp);
    assert r.tasks[s.current].state != Dead;
    TotalCharged(s.tasks, r.tasks, if r.clock.panicked then |s.tasks| else s.current);
  }

  /** No tick is lost: in every run without kills the run times of all tasks add up to the ticks since
      boot, except for one that ended in a panic. */
  lemma {:induction false} RuntimeForever(s: State, steps: seq<Step>)
    requires Booted(s) && KillFree(steps)
    ensures var r := Run(s, steps);
      Total(r.tasks) + (if r.clock.panicked then 1 else 0) == Total(s.tasks) + r.clock.tickCount
    decreases |steps|
  {
    if steps != [] {
      var init := steps[..|steps| - 1];
      RuntimeForever(s, init);
      CoreForever(s, init);
      var m := Run(s, init);
      if !m.clock.panicked && !m.clock.halted {
        var inp := steps[|steps| - 1].inp;
        assert Peaceful(inp);
        TickTotal(m, inp);
        TickClock(m, inp);
      }
    }
  }

  // ---------------------------------------------------------------------------
  // What the log says of time
  // ---------------------------------------------------------------------------

  lemma ActionGrows(s: State, a: Action, r: State)
    requires Settled(s) && Does(s, a, r)
    ensures s.history <= r.history
  {
    if a.Reschedule? { var h := ScheduleSwitch(s); } else { ActionStill(s, a, r); }
  }

  lemma GrowsInductive(h: seq<Event>)
    ensures Inductive((x: State) => h <= x.history, ALL)
  {
    var P := (x: State) => h <= x.history;
    forall s: State, a: Action, r: State {:trigger P(s), Does(s, a, r)} | Settled(s) && P(s) && Does(s, a, r) ensures P(r) {
      ActionGrows(s, a, r);
    }
  }

  /** What the action of a tick has logged stays in the log. */
  lemma ActGrows(s: State, inp: TickInput)
    requires Core(s) && !s.clock.halted
    ensures var a := Act(StartTick(s), inp);
      && s.history + [TickStarted(s.clock.tickCount + 1)] <= a.history
      && (s.clock.activity == UpdatingTimer ==> s.history + [TickStarted(s.clock.tickCount + 1)] + [TimerUpdated(s.clock.timeTicks + 1)] <= a.history)
  {
    var s0 := StartTick(s);
    ClockNoted(s, s0);
    NotedSettled(s, s0);
    if s.clock.activity == MappingDemoPage { DemoGrows(s0, inp); } else { QuietGrows(s0, inp); }
  }

  lemma QuietGrows(s: State, inp: TickInput)
    requires Shape(s) && s.clock.activity != MappingDemoPage
    ensures s.history <= Act(s, inp).history
    ensures s.clock.activity == UpdatingTimer ==> Act(s, inp).history == s.history + [TimerUpdated(s.clock.timeTicks + 1)]
  {
  }

  lemma DemoGrows(s: State, inp: TickInput)
    requires Core(s)
    ensures s.history <= Act(s, inp).history
  {
    var P := (x: State) => s.history <= x.history;
    GrowsInductive(s.history);
    Strengthen(P, ALL);
    var Q := (x: State) => Settled(x) && P(x);
    GroundKeeps(s, Q, ALL);
    ActKeeps(s, inp, Q, ALL);
  }

  lemma TickGrows(s: State, inp: TickInput)
    requires Core(s) && !s.clock.halted
    ensures Act(StartTick(s), inp).history <= Tick(s, inp).history
  {
    IssuedRuntimes(s, inp);
    var a := Act(StartTick(s), inp);
    if Serves(s, inp) {
      GrowsInductive(a.history);
      ServedKeeps(s, inp, (x: State) => a.history <= x.history);
    }
  }

  /** Every tick begins its log with its own number, and when it updates the timer, with the new time. */
  lemma TickLogsTime(s: State, inp: TickInput)
    requires Core(s) && !s.clock.halted
    ensures var h := Tick(s, inp).history;
      && s.history + [TickStarted(s.clock.tickCount + 1)] <= h
      && (s.clock.activity == UpdatingTimer ==> s.history + [TickStarted(s.clock.tickCount + 1)] + [TimerUpdated(s.clock.timeTicks + 1)] <= h)
  {
    ActGrows(s, inp);
    TickGrows(s, inp);
  }
}
