/** Runs of the kernel on its buffers, and what the theorems about runs say of them. */
module MachineRuns {
  import opened KernelTypes
  import opened KernelSpec
  import opened Slots
  import opened Invariant
  import opened WaitGraph
  import opened Spaces
  import opened Frames
  import opened Roots
  import opened Checks
  import opened Switches
  import opened Runs
  import opened RootRuns
  import opened Halting
  import opened EventLog
  import opened KernelMachine

  /** What holds after every run from boot; with up to three user tasks nobody is stranded and no
      check of the kernel fails. */
  ghost predicate Upheld(s: State) {
    && Core(s) && RootOk(s) && NoCycle(s) && SpacesOk(s) && Isolated(s) && LogOk(s)
    && (|s.tasks| >= 2 ==> UserAlive(s) || s.clock.halted)
    && (|s.tasks| <= 4 ==> NoStray(s) && NoViolation(s))
  }

  lemma RunUpheld(s: State, steps: seq<Step>)
    requires Booted(s) && Legal(steps)
    ensures Upheld(Run(s, steps))
  {
    CoreForever(s, steps);
    RootedForever(s, steps);
    NoCycleForever(s, steps);
    SpacesForever(s, steps);
    IsolatedForever(s, steps);
    SwitchesForever(s, steps);
    if |s.tasks| >= 2 { HaltForever(s, steps); }
    if |s.tasks| <= 4 {
      NobodyStrandedForever(s, steps);
      NoViolationForever(s, steps);
    }
  }

  lemma RunNext(s: State, steps: seq<Step>, k: nat)
    requires Shape(s) && k < |steps|
    ensures Run(s, steps[..k + 1]) == Apply(Run(s, steps[..k]), steps[k])
  {
    assert steps[..k + 1][..k] == steps[..k];
  }

  /** The kernel takes the steps one after the other. A panic ends the run. */
  method Perform(kernel: Kernel, steps: seq<Step>)
    requires kernel.Valid()
    modifies kernel.Repr()
    ensures kernel.Valid() && kernel.View() == Run(old(kernel.View()), steps)
    ensures Booted(old(kernel.View())) && Legal(steps) ==> Upheld(kernel.View())
  {
    ghost var s := kernel.View();
    for k := 0 to |steps|
      invariant kernel.Valid() && kernel.View() == Run(s, steps[..k])
    {
      RunNext(s, steps, k);
      if !kernel.clock.panicked {
        match steps[k]
        case TickStep(inp) => kernel.Tick(inp);
        case KillStep(i, why) => kernel.Kill(i, why);
      }
    }
    assert steps[..|steps|] == steps;
    if Booted(s) && Legal(steps) { RunUpheld(s, steps); }
  }

  /** A whole session: boot, run, dump. The dump shows the latest events of the run, in order. */
  method Session(logCapacity: nat, allowSwitch: bool, pfDemo: bool, supply: nat, mapped: map<nat, Leaf>, steps: seq<Step>)
    returns (events: seq<Event>)
    ensures events == Latest(Run(Boot(allowSwitch, pfDemo, supply, mapped), steps).history, logCapacity)
  {
    var kernel := new Kernel(logCapacity, allowSwitch, pfDemo, supply, mapped);
    Perform(kernel, steps);
    events := kernel.log.Dump();
  }
}
