/** Guarded access to user memory: a fault inside the armed window resumes behind it, and
    every path ends on the kernel root with the guard off. */
module FaultGuard {
  import opened KernelTypes

  datatype FaultInfo = FaultInfo(addr: Word, err: Word, rip: Word, rsp: Word, isUser: bool)

  /** The instructions of a guarded access: store the resume address, switch the guard on, touch
      user memory, switch the guard off. */
  datatype Instr = StoreResume | Arm | Touch | Disarm

  /** What the processor and the guard's variables hold. `resume` is None as long as the stored
      resume address is 0. */
  datatype Guard = Guard(cr3: nat, active: bool, resume: Option<nat>, hit: bool, last: Option<FaultInfo>)

  /** The code of a guarded access with `n` accesses. */
  function Code(n: nat): seq<Instr> {
    [StoreResume, Arm] + seq(n, i => Touch) + [Disarm]
  }

  datatype Cpu = At(pc: nat, guard: Guard) | Stopped

  /** pf_guard_try_fixup */
  function TryFixup(g: Guard): (r: (Guard, Option<nat>)) {
    if !g.active || g.resume == None then (g, None)
    else (g.(hit := true, active := false), g.resume)
  }

  /** The page-fault handler: the fault is recorded, and unless it can be fixed up the machine stops. */
  function OnFault(g: Guard, info: FaultInfo): (r: Cpu) {
    var (g', to) := TryFixup(g.(last := Some(info)));
    match to
    case None => Stopped
    case Some(pc) => At(pc, g')
  }

  /** One instruction; `fault` is the fault it raises, if any. */
  function Execute(code: seq<Instr>, cpu: Cpu, fault: Option<FaultInfo>): (r: Cpu) {
    if cpu.Stopped? || cpu.pc >= |code| then cpu
    else if fault.Some? then OnFault(cpu.guard, fault.value)
    else
      var g := cpu.guard;
      match code[cpu.pc]
      case StoreResume => At(cpu.pc + 1, g.(resume := Some(|code|)))
      case Arm => At(cpu.pc + 1, g.(active := true))
      case Touch => At(cpu.pc + 1, g)
      case Disarm => At(cpu.pc + 1, g.(active := false))
  }

  function ExecuteAll(code: seq<Instr>, cpu: Cpu, faults: seq<Option<FaultInfo>>): (r: Cpu)
    decreases |faults|
  {
    if faults == [] then cpu
    else Execute(code, ExecuteAll(code, cpu, faults[..|faults| - 1]), faults[|faults| - 1])
  }

  /** guarded_user_rw_u64_in_root and guarded_user_read_u64_in_root, up to the end of the code. */
  function Entered(g: Guard, userRoot: nat): Guard {
    g.(cr3 := userRoot, hit := false, last := None)
  }

  datatype Access = Done | Faulted(info: FaultInfo)

  /** The end of a guarded access: back on the kernel root, the fault taken if there was one. */
  function Leave(g: Guard, kernelRoot: nat): (r: (Guard, Access)) {
    var g1 := g.(cr3 := kernelRoot);
    if !g.hit then (g1, Done)
    else
      match g.last
      case Some(info) => (g1.(last := None), Faulted(info))
      case None => (g1, Faulted(FaultInfo(0, 0, 0, 0, true)))
  }

  /** Where an access may be while it runs, from a guard that was off. */
  predicate Underway(n: nat, userRoot: nat, cpu: Cpu, first: Option<FaultInfo>) {
    match cpu
    case Stopped => true
    case At(pc, g) =>
      && pc <= n + 3 && g.cr3 == userRoot
      && (g.active <==> 2 <= pc <= n + 2) && (pc >= 1 ==> g.resume == Some(n + 3))
      && (g.hit <==> first.Some?) && (g.hit ==> pc == n + 3 && g.last == first)
  }

  /** The first fault raised in the armed window, if any. */
  function FirstFault(faults: seq<Option<FaultInfo>>, n: nat): Option<FaultInfo> {
    if faults == [] then None
    else
      var before := FirstFault(faults[..|faults| - 1], n);
      if before.Some? || |faults| > n + 3 || |faults| <= 2 then before else faults[|faults| - 1]
  }

  lemma {:induction false} StaysUnderway(n: nat, g: Guard, userRoot: nat, faults: seq<Option<FaultInfo>>)
    requires !g.active
    ensures var cpu := ExecuteAll(Code(n), At(0, Entered(g, userRoot)), faults);
      && Underway(n, userRoot, cpu, FirstFault(faults, n))
      && (cpu.At? && FirstFault(faults, n) == None ==> cpu.pc == if |faults| < n + 3 then |faults| else n + 3)
    decreases |faults|
  {
    if faults != [] { StaysUnderway(n, g, userRoot, faults[..|faults| - 1]); }
  }

  /** Every guarded access that comes to its end, whatever faults struck on the way: it is
      back on the kernel root, the guard is off, and it reports a fault exactly when one struck
      in the armed window, namely the first. */
  lemma GuardedAccessExact(n: nat, g: Guard, userRoot: nat, kernelRoot: nat, faults: seq<Option<FaultInfo>>)
    requires !g.active && |faults| >= n + 3
    ensures var cpu := ExecuteAll(Code(n), At(0, Entered(g, userRoot)), faults);
      cpu.At? ==>
        && cpu.pc == n + 3
        && var (g', access) := Leave(cpu.guard, kernelRoot);
           && g'.cr3 == kernelRoot && !g'.active
           && (FirstFault(faults, n) == None ==> access == Done)
           && (FirstFault(faults, n).Some? ==> access == Faulted(FirstFault(faults, n).value) && g'.last == None)
  {
    StaysUnderway(n, g, userRoot, faults);
  }

  /** At every point that a guarded access reaches, whatever struck before: a fault stops the machine
      if and only if the guard is not on yet; after that it is recorded, the access resumes at its end,
      and the guard is off. */
  lemma FixupWindow(n: nat, g: Guard, userRoot: nat, faults: seq<Option<FaultInfo>>, info: FaultInfo)
    requires !g.active
    ensures var cpu := ExecuteAll(Code(n), At(0, Entered(g, userRoot)), faults);
      cpu.At? && cpu.pc < n + 3 ==>
        var next := ExecuteAll(Code(n), At(0, Entered(g, userRoot)), faults + [Some(info)]);
        && (next == Stopped <==> cpu.pc < 2)
        && (cpu.pc >= 2 ==> next == At(n + 3, Guard(userRoot, false, Some(n + 3), true, Some(info))))
  {
    StaysUnderway(n, g, userRoot, faults);
    assert (faults + [Some(info)])[..|faults|] == faults;
  }

  /** The machine stops in a guarded access exactly when a fault strikes before the guard is on. */
  lemma {:induction false} StopsOnlyUnarmed(n: nat, g: Guard, userRoot: nat, faults: seq<Option<FaultInfo>>)
    requires !g.active
    ensures ExecuteAll(Code(n), At(0, Entered(g, userRoot)), faults) == Stopped <==>
      (|faults| >= 1 && faults[0].Some?) || (|faults| >= 2 && faults[1].Some?)
    decreases |faults|
  {
    if faults != [] {
      var init := faults[..|faults| - 1];
      StaysUnderway(n, g, userRoot, init);
      StopsOnlyUnarmed(n, g, userRoot, init);
      if |init| <= 2 { EarlyFaults(n, init); }
    }
  }

  lemma {:induction false} EarlyFaults(n: nat, faults: seq<Option<FaultInfo>>)
    requires |faults| <= 2
    ensures FirstFault(faults, n) == None
  {
    if faults != [] { EarlyFaults(n, faults[..|faults| - 1]); }
  }
}
