/** What holds after every run: any number of ticks with any programs, and kills of any
    user tasks at any time. */
module Runs {
  import opened KernelTypes
  import opened KernelSpec
  import opened Counting
  import opened Slots
  import opened Invariant
  import opened Actions
  import opened Steps
  import opened WaitGraph
  import opened Sessions
  import opened SessionProof
  import opened Strays
  import opened Conservation
  import opened Roots
  import opened Mailboxes
  import opened Holdings
  import opened Spaces
  import opened Frames
  import opened FrameAllocator

  // ---------------------------------------------------------------------------
  // Boot
  // ---------------------------------------------------------------------------

  predicate FreshTask(t: Task, i: nat) {
    && t.id == i + 1 && t.state == (if i == 0 then Running else Ready) && t.slice == 0 && t.stage == 0
    && t.kind == (if i == 0 then KernelSpace else UserSpace) && t.space.rooted && t.space.record == map[] && (i > 0 ==> t.space.leaves == map[])
    && t.demoFrame == None && !t.demoMapped && t.reason == None && t.lastMsg == None
    && t.lastReply == None && t.pendingMsg == None && t.pendingCall == None && t.sysRet == None && !t.sysRetUnread
  }

  predicate FreshEndpoint(ep: Endpoint) {
    !ep.closed && ep.receiver == None && ep.senders == [] && ep.repliers == []
  }

  /** The kernel as it starts: the idle task runs, every user task is queued as ready, and
      no endpoint has a waiter. Each user space has an empty record and a root, for which the
      first frames were taken; what the boot loader has mapped for the kernel has frames of its
      own. Priorities and owners are arbitrary. */
  predicate Booted(s: State) {
    && 0 < |s.tasks| && s.current == 0 && s.config.quantum > 0 && s.cr3 == 0
    && (forall i: nat {:trigger s.tasks[i]} :: i < |s.tasks| ==> FreshTask(s.tasks[i], i))
    && |s.ready| == |s.tasks| - 1 && (forall k :: 0 <= k < |s.ready| ==> s.ready[k] == k + 1)
    && (forall e: nat {:trigger s.endpoints[e]} :: e < |s.endpoints| ==> FreshEndpoint(s.endpoints[e]))
    && s.counters == NO_COUNTS && s.history == [] && s.clock == Clock(0, 0, Idle, false, false, false) && !s.sentByTask1
    && |s.tasks| - 1 <= s.taken <= s.config.supply
    && (forall v :: v in s.tasks[0].space.leaves ==> s.tasks[0].space.leaves[v].frame >= s.config.supply)
  }

  /** What the boot loader has mapped, with frame numbers beyond those of the allocator. */
  predicate BootMap(mapped: map<nat, Leaf>, supply: nat) {
    supply >= 2 && forall v :: v in mapped ==> mapped[v].frame >= supply
  }

  lemma BootIsBooted(allowSwitch: bool, pfDemo: bool, supply: nat, mapped: map<nat, Leaf>)
    requires BootMap(mapped, supply)
    ensures Booted(Boot(allowSwitch, pfDemo, supply, mapped))
  {
  }

  lemma BootedMembers(s: State, sl: Slot)
    requires Booted(s)
    ensures Members(s, sl) == if sl == AtReady then s.ready else []
  {
  }

  lemma BootedLinked(s: State)
    requires Booted(s)
    ensures Linked(s)
  {
    forall sl: Slot, i: nat {:trigger i in Members(s, sl)} | i in Members(s, sl)
      ensures i < |s.tasks| && Home(s.tasks[i], i) == Some(sl)
    {
      BootedMembers(s, sl);
    }
    forall i: nat | i < |s.tasks| && NeedsSlot(s.tasks[i], i) ensures i in Members(s, Home(s.tasks[i], i).value) {
      assert s.ready[i - 1] == i;
    }
    forall sl: Slot ensures Distinct(Members(s, sl)) { BootedMembers(s, sl); }
  }

  lemma BootedCore(s: State)
    requires Booted(s)
    ensures Core(s)
  {
    BootedLinked(s);
    forall e: nat ensures Members(s, AtReply(e)) == [] { BootedMembers(s, AtReply(e)); }
  }

  // ---------------------------------------------------------------------------
  // Runs
  // ---------------------------------------------------------------------------

  /** Only user tasks are killed. */
  predicate Legal(steps: seq<Step>) {
    forall k :: 0 <= k < |steps| && steps[k].KillStep? ==> steps[k].task != 0
  }

  /** Nobody is killed. */
  predicate KillFree(steps: seq<Step>) {
    forall k :: 0 <= k < |steps| ==> steps[k].TickStep? && Peaceful(steps[k].inp)
  }

  lemma {:induction false} RunKeeps(s: State, steps: seq<Step>, P: State -> bool, sc: Scope)
    requires Core(s) && P(s) && Inductive(P, sc) && Legal(steps) && (sc.kills || KillFree(steps))
    requires sc.replies && sc.grounds && sc.charges && sc.misses
    ensures Core(Run(s, steps)) && P(Run(s, steps))
    decreases |steps|
  {
    if steps != [] {
      var init := steps[..|steps| - 1];
      var last := steps[|steps| - 1];
      RunKeeps(s, init, P, sc);
      if !Run(s, init).clock.panicked {
        match last
        case TickStep(inp) => TickKeeps(Run(s, init), inp, P, sc);
        case KillStep(i, why) => KillStepKeeps(Run(s, init), i, why, P, sc);
      }
    }
  }

  lemma AnythingInductive()
    ensures Inductive((s: State) => true, ALL)
  {
  }

  /** The invariant holds at every tick boundary of every run, for any number of tasks and
      endpoints: exactly the current task runs, the ready queue holds exactly the ready user
      tasks once each, every receiver and sender sits in exactly its slot, closed endpoints
      are empty, and no endpoint has both a receiver and a sender waiting. */
  lemma CoreForever(s: State, steps: seq<Step>)
    requires Booted(s) && Legal(steps)
    ensures Core(Run(s, steps))
  {
    BootedCore(s);
    AnythingInductive();
    RunKeeps(s, steps, (s: State) => true, ALL);
  }

  /** No wait ever closes a circle, for any number of tasks. */
  lemma NoCycleForever(s: State, steps: seq<Step>)
    requires Booted(s) && Legal(steps)
    ensures NoCycle(Run(s, steps))
  {
    BootedCore(s);
    BootedRanked(s);
    RankedInductive();
    RunKeeps(s, steps, Ranked, ALL);
    RankedNoCycle(Run(s, steps));
  }

  lemma BootedRanked(s: State)
    requires Booted(s)
    ensures Ranked(s)
  {
    assert RankOk(s, seq(|s.tasks|, i => 0));
  }

  /** Every history is unbroken, for every task, and the task's state is its session's. */
  lemma SessionsForever(s: State, steps: seq<Step>, i: nat)
    requires Booted(s) && Legal(steps) && i < |s.tasks|
    ensures SessionOf(Run(s, steps).history, i + 1) != Broken
    ensures Agrees(SessionOf(Run(s, steps).history, i + 1), Run(s, steps).tasks[i])
  {
    BootedCore(s);
    assert SessionsOk(s);
    SessionsInductive();
    RunKeeps(s, steps, SessionsOk, ALL);
    assert Agrees(SessionAt(Run(s, steps), i), Run(s, steps).tasks[i]);
  }

  /** In every run, what a task finds in its mailbox is the last message delivered to it. */
  lemma MailForever(s: State, steps: seq<Step>, i: nat)
    requires Booted(s) && Legal(steps) && i < |s.tasks|
    ensures Run(s, steps).tasks[i].lastMsg.Some? ==>
      LastFor(Run(s, steps).history, i + 1) == Run(s, steps).tasks[i].lastMsg
  {
    BootedCore(s);
    assert MailOk(s);
    MailInductive();
    RunKeeps(s, steps, MailOk, ALL);
  }

  /** With up to three user tasks nobody is ever stranded in a reply wait. */
  lemma NobodyStrandedForever(s: State, steps: seq<Step>)
    requires Booted(s) && Legal(steps) && |s.tasks| <= 4
    ensures NoStray(Run(s, steps))
  {
    BootedCore(s);
    BootedRanked(s);
    StrandsInductive();
    assert NobodyStranded(s);
    RunKeeps(s, steps, NobodyStranded, ALL);
  }

  /** Conservation for any number of tasks. */
  lemma BalancedForever(s: State, steps: seq<Step>)
    requires Booted(s) && KillFree(steps)
    ensures Balanced(Run(s, steps))
  {
    BootedCore(s);
    BootedTotals(s.endpoints);
    BalancedInductive();
    RunKeeps(s, steps, Balanced, PEACE);
  }

  /** Conservation of deliveries with up to two user tasks. */
  lemma AnswerableForever(s: State, steps: seq<Step>)
    requires Booted(s) && KillFree(steps) && |s.tasks| <= 3
    ensures Answerable(Run(s, steps))
  {
    BootedCore(s);
    BootedTotals(s.endpoints);
    AnswerableInductive();
    assert TwoUserBalance(s);
    RunKeeps(s, steps, TwoUserBalance, PEACE);
  }

  lemma {:induction false} BootedTotals(eps: seq<Endpoint>)
    requires forall e: nat {:trigger eps[e]} :: e < |eps| ==> FreshEndpoint(eps[e])
    ensures forall line: Line :: Total(eps, line) == 0
  {
    if eps != [] { BootedTotals(eps[..|eps| - 1]); }
  }

  /** The loaded root is always the kernel's or the current task's. */
  lemma RootedForever(s: State, steps: seq<Step>)
    requires Booted(s) && Legal(steps)
    ensures RootOk(Run(s, steps))
  {
    BootedCore(s);
    RootInductive();
    RunKeeps(s, steps, RootOk, ALL);
  }

  /** In every run user pages lie in the user slot, every page really mapped there is recorded as it
      is, and a dead task's space has no user page left. */
  lemma SpacesForever(s: State, steps: seq<Step>)
    requires Booted(s) && Legal(steps)
    ensures SpacesOk(Run(s, steps))
  {
    BootedCore(s);
    assert SpacesOk(s);
    SpacesInductive();
    RunKeeps(s, steps, SpacesOk, ALL);
  }

  lemma BootedIsolated(s: State)
    requires Booted(s)
    ensures Isolated(s)
  {
    forall j: nat, f: nat {:trigger Holds(s.tasks[j], f)} | j < |s.tasks| && Holds(s.tasks[j], f) ensures f >= s.config.supply {
      assert FreshTask(s.tasks[j], j);
    }
  }

  lemma IsolatedForever(s: State, steps: seq<Step>)
    requires Booted(s) && Legal(steps)
    ensures Isolated(Run(s, steps))
  {
    BootedCore(s);
    BootedIsolated(s);
    IsolatedInductive();
    RunKeeps(s, steps, Isolated, ALL);
  }

  lemma FramesApart(r: State, i: nat, f: nat, j: nat, g: nat)
    requires Isolated(r) && i < |r.tasks| && f < r.config.supply && Maps(r.tasks[i].space, f)
    requires g < |r.tasks| - 1 || (j < |r.tasks| && j != i && Maps(r.tasks[j].space, g))
    ensures f != g
  {
    assert Holds(r.tasks[i], f);
    if g >= |r.tasks| - 1 { assert Holds(r.tasks[j], g); }
  }

  /** In every run, over disjoint usable regions: a frame of the allocator that one space maps is
      at a physical address that no other space maps and that is no user root's. */
  lemma FramesIsolated(regions: seq<Region>, s: State, steps: seq<Step>, i: nat, f: nat, j: nat, g: nat)
    requires Booted(s) && Legal(steps) && Disjoint(regions) && s.config.supply == |FramesFrom(regions, 0)|
    requires var r := Run(s, steps);
      i < |r.tasks| && f < s.config.supply && Maps(r.tasks[i].space, f)
      && g < s.config.supply && (g < |r.tasks| - 1 || (j < |r.tasks| && j != i && Maps(r.tasks[j].space, g)))
    ensures FramesFrom(regions, 0)[f] != FramesFrom(regions, 0)[g]
  {
    SupplyForever(s, steps);
    IsolatedForever(s, steps);
    FramesApart(Run(s, steps), i, f, j, g);
    FramesDistinct(regions, 0);
  }

  lemma SupplyForever(s: State, steps: seq<Step>)
    requires Booted(s) && Legal(steps)
    ensures Run(s, steps).config == s.config
  {
    BootedCore(s);
    ConfigInductive(s.config);
    RunKeeps(s, steps, (x: State) => x.config == s.config, ALL);
  }

  /** A task that is dead stays dead through every further run. */
  lemma DeadForever(s: State, steps: seq<Step>, i: nat)
    requires Core(s) && Legal(steps) && IsDead(s, i)
    ensures IsDead(Run(s, steps), i)
  {
    DeadInductive(i);
    RunKeeps(s, steps, (x: State) => IsDead(x, i), ALL);
  }
}
