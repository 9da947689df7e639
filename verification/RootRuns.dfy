/** Runs: exactly when a user task runs on its own root, and what the log of switches says. */
module RootRuns {
  import opened KernelTypes
  import opened KernelSpec
  import opened Invariant
  import opened IpcPaths
  import opened Actions
  import opened Steps
  import opened Roots
  import opened Switches
  import opened Runs

  /** An access to user memory starts from the kernel's root as well as from the task's own. */
  lemma AccessGrounds(s: State, inp: TickInput)
    requires Accesses(s) && !s.clock.halted && s.tasks[s.current].state != Dead
    ensures Tick(s.(cr3 := 0), inp) == Tick(s, inp)
  {
    var s0 := StartTick(s);
    assert StartTick(s.(cr3 := 0)) == s0.(cr3 := 0);
    DemoGrounds(s0, inp);
  }

  lemma DemoGrounds(s: State, inp: TickInput)
    requires Accesses(s) && s.tasks[s.current].state != Dead
    ensures Act(s.(cr3 := 0), inp) == Act(s, inp)
  {
    var next := if s.tasks[s.current].stage == 1 then 2 else 0;
    assert UserMemDemo(s, inp) == GuardedAccess(s, inp, next);
    assert UserMemDemo(s.(cr3 := 0), inp) == GuardedAccess(s.(cr3 := 0), inp, next);
    assert s.(cr3 := 0).(cr3 := 0) == s.(cr3 := 0);
  }

  /** A tick without an access to user memory. */
  lemma QuietTurn(s: State, inp: TickInput)
    requires Core(s) && RootOk(s) && (Accesses(s) ==> s.cr3 == 0)
    ensures Turn(s, Tick(s, inp))
  {
    var P := (x: State) => Turn(s, x);
    TurnInductive(s);
    TickKeeps(s, inp, P, NO_GROUNDS);
  }

  lemma TickTurn(s: State, inp: TickInput)
    requires Core(s) && RootOk(s) && !s.clock.halted
    ensures Turn(if Accesses(s) then s.(cr3 := 0) else s, Tick(s, inp))
  {
    if Accesses(s) {
      AlikeSettled(s, s.(cr3 := 0));
      AccessGrounds(s, inp);
      QuietTurn(s.(cr3 := 0), inp);
    } else {
      QuietTurn(s, inp);
    }
  }

  lemma KillTurn(s: State, i: nat, why: KillReason)
    requires Core(s) && RootOk(s) && i != 0
    ensures Turn(s, Kill(s, i, why))
  {
    TurnInductive(s);
    KillStepKeeps(s, i, why, (x: State) => Turn(s, x), NO_GROUNDS);
  }

  /** The step is a tick with an access to user memory. */
  predicate Touches(s: State, step: Step) {
    step.TickStep? && !s.clock.halted && !s.clock.panicked && Accesses(s)
  }

  lemma StepTurn(s: State, step: Step)
    requires Core(s) && RootOk(s) && (step.KillStep? ==> step.task != 0)
    ensures Turn(if Touches(s, step) then s.(cr3 := 0) else s, Apply(s, step))
  {
    if !s.clock.panicked {
      match step
      case TickStep(inp) => if !s.clock.halted { TickTurn(s, inp); }
      case KillStep(i, why) => KillTurn(s, i, why);
    }
  }

  /** Since the last switch, user memory has been touched. */
  predicate TouchedSince(s: State, steps: seq<Step>)
    requires Shape(s)
  {
    if steps == [] then false
    else
      var init := steps[..|steps| - 1];
      && Unswitched(Run(s, init).history, Run(s, steps).history)
      && (TouchedSince(s, init) || Touches(Run(s, init), steps[|steps| - 1]))
  }

  /** In every run the running user task is on its own root if and only if real switches are allowed and
      it has not touched user memory since it was switched to; otherwise, and under the idle task, the
      kernel's root is loaded. */
  lemma {:induction false} RootForever(s: State, steps: seq<Step>)
    requires Booted(s) && Legal(steps)
    ensures var r := Run(s, steps);
      r.cr3 == if r.config.allowSwitch && !TouchedSince(s, steps) then r.current else 0
    decreases |steps|
  {
    if steps != [] {
      var init := steps[..|steps| - 1];
      RootForever(s, init);
      CoreForever(s, init);
      RootedForever(s, init);
      StepTurn(Run(s, init), steps[|steps| - 1]);
    }
  }

  /** In every run the running task is the one that the log last switched to, and the kernel's counter
      is the number of logged switches to another user task. */
  lemma SwitchesForever(s: State, steps: seq<Step>)
    requires Booted(s) && Legal(steps)
    ensures var r := Run(s, steps);
      LastSwitched(r.history) == r.current + 1 && SwitchCount(r.history) == r.counters.switches
  {
    BootedCore(s);
    LogInductive();
    RunKeeps(s, steps, LogOk, ALL);
  }
}
