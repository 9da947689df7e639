/** Priority inversion is bounded by the quantum. */
module Priorities {
  import opened KernelTypes
  import opened KernelSpec
  import opened Slots
  import opened Invariant
  import opened Links
  import opened Scheduling
  import opened IpcPaths
  import opened ReplyPath
  import opened KillOutcome
  import opened Actions
  import opened Steps
  import opened Frames
  import opened Runs

  /** Task `u` no longer waits behind a task of lower priority, or is dead. */
  predicate Relieved(s: State, u: nat) {
    && Shape(s) && u < |s.tasks|
    && (s.tasks[u].state == Dead || s.tasks[s.current].priority >= s.tasks[u].priority)
  }

  predicate Patient(s: State, u: nat) {
    0 < u < |s.tasks| && s.tasks[u].state == Ready
  }

  /** From `s` to `r` the same task runs on with the same slice, and `u` is still ready. */
  predicate Still(s: State, r: State, u: nat) {
    && Shape(s) && |r.tasks| == |s.tasks| && r.current == s.current && Patient(s, u) && Patient(r, u)
    && r.tasks[r.current].state == Running && r.config == s.config
    && r.tasks[r.current].slice == s.tasks[s.current].slice
    && r.tasks[r.current].priority == s.tasks[s.current].priority && r.tasks[u].priority == s.tasks[u].priority
  }

  /** The same task runs on, or another one that relieves `u`. */
  predicate Passes(s: State, r: State, u: nat) {
    Still(s, r, u) || (r.current != s.current && Relieved(r, u))
  }

  predicate Bears(s: State, r: State, u: nat) {
    Passes(s, r, u) || (Shape(r) && u < |r.tasks| && r.tasks[u].state == Dead)
  }

  lemma ScheduleRelieves(s: State, u: nat)
    requires Settled(s) && Patient(s, u)
    ensures Relieved(Schedule(s), u)
  {
    SchedulePicksBest(s, u);
    ScheduleTask(s, u);
    ScheduleTask(s, Schedule(s).current);
  }

  /** A task that blocked or died is not scheduled. */
  lemma ScheduleLeaves(s: State)
    requires Settled(s) && (s.tasks[s.current].state == Blocked || s.tasks[s.current].state == Dead)
    ensures Schedule(s).current != s.current
  {
    ScheduleOk(s);
    ScheduleTask(s, s.current);
  }

  lemma NotedStill(s: State, r: State, u: nat)
    requires Live(s) && Patient(s, u) && Noted(s, r) && r.tasks[s.current].slice == s.tasks[s.current].slice
    ensures Still(s, r, u)
  {
    assert SameButSlice(s.tasks[u], r.tasks[u]) && SameButSlice(s.tasks[s.current], r.tasks[s.current]);
  }

  lemma NotedRelieved(s: State, r: State, u: nat)
    requires Relieved(s, u) && Noted(s, r)
    ensures Relieved(r, u)
  {
    assert SameButSlice(s.tasks[u], r.tasks[u]) && SameButSlice(s.tasks[s.current], r.tasks[s.current]);
  }

  lemma SlayStill(s: State, i: nat, why: KillReason, u: nat)
    requires Core(s) && Patient(s, u) && 0 < i < |s.tasks| && i != u
    ensures Settled(KillQuietly(s, i, why)) && Patient(KillQuietly(s, i, why), u)
    ensures i != s.current ==> Still(s, KillQuietly(s, i, why), u)
    ensures KillQuietly(s, i, why).tasks[i].state == Dead
  {
    KillSettles(s, i, why);
    assert s.tasks[i].id == i + 1;
    KillQuietlyForm(s, i, why);
    KillLog(s, i, why);
    FateMet(s, i, why, u);
    FateMet(s, i, why, s.current);
    FateMet(s, i, why, i);
  }

  lemma KillBears(s: State, i: nat, why: KillReason, u: nat)
    requires Core(s) && Patient(s, u) && i != 0
    ensures Bears(s, Kill(s, i, why), u) && (i != u ==> Passes(s, Kill(s, i, why), u))
  {
    if i == u {
      KillIsFatal(s, i, why);
    } else if i < |s.tasks| && Removable(s.tasks[i]) {
      SlayStill(s, i, why, u);
      if i == s.current {
        ScheduleRelieves(KillQuietly(s, i, why), u);
        ScheduleLeaves(KillQuietly(s, i, why));
      }
    }
  }

  /** Killing a task that is not running takes no relief away. */
  lemma KillKeepsRelief(s: State, i: nat, why: KillReason, u: nat)
    requires Core(s) && Relieved(s, u) && i != 0 && i != s.current
    ensures Relieved(Kill(s, i, why), u)
  {
    if i < |s.tasks| && Removable(s.tasks[i]) { SlayKeepsRelief(s, i, why, u); }
  }

  lemma SlayKeepsRelief(s: State, i: nat, why: KillReason, u: nat)
    requires Core(s) && Relieved(s, u) && 0 < i < |s.tasks| && i != s.current
    ensures Relieved(KillQuietly(s, i, why), u)
  {
    assert s.tasks[i].id == i + 1;
    KillQuietlyForm(s, i, why);
    KillLog(s, i, why);
    FateMet(s, i, why, u);
    FateMet(s, i, why, s.current);
  }

  // ---------------------------------------------------------------------------
  // System calls
  // ---------------------------------------------------------------------------

  /** After a receive, `u` is relieved, or the receiver still runs. */
  lemma RecvOpenBears(s: State, e: nat, u: nat)
    requires Calling(s, e) && Patient(s, u)
    ensures Passes(s, RecvOpen(s, e), u)
  {
    RecvOpenIdeal(s, e);
    var q := s.endpoints[e].senders;
    if q != [] {
      TakeBears(s, e, q[|q| - 1], u);
    } else if s.endpoints[e].receiver == None {
      ListenBears(s, e, u);
    }
  }

  lemma TakeBears(s: State, e: nat, x: nat, u: nat)
    requires Calling(s, e) && Patient(s, u) && s.endpoints[e].senders != [] && x == s.endpoints[e].senders[|s.endpoints[e].senders| - 1]
    requires x < |s.tasks| && s.tasks[x].pendingMsg.Some?
    ensures Passes(s, TakenFrom(s, e, x), u)
  {
    assert x in Members(s, AtSend(e));
  }

  lemma ListenBears(s: State, e: nat, u: nat)
    requires Calling(s, e) && Patient(s, u) && s.endpoints[e].receiver == None && s.endpoints[e].senders == []
    ensures Passes(s, Schedule(Listening(s, e)), u)
  {
    ListeningSettles(s, e);
    ScheduleRelieves(Listening(s, e), u);
    ScheduleLeaves(Listening(s, e));
  }

  lemma SendOpenBears(s: State, e: nat, msg: Word, u: nat)
    requires Calling(s, e) && Patient(s, u)
    ensures Passes(s, SendOpen(s, e, msg), u)
  {
    SendOpenIdeal(s, e, msg);
    if s.endpoints[e].receiver.Some? {
      HandOverBears(s, e, s.endpoints[e].receiver.value, msg, u);
    } else {
      QueueBears(s, e, msg, u);
    }
  }

  lemma HandOverBears(s: State, e: nat, x: nat, msg: Word, u: nat)
    requires Calling(s, e) && Patient(s, u) && s.endpoints[e].receiver == Some(x) && x < |s.tasks|
    ensures Passes(s, Schedule(HandedOver(s, e, x, msg)), u)
  {
    HandedOverSettles(s, e, x, msg);
    ScheduleRelieves(HandedOver(s, e, x, msg), u);
    ScheduleLeaves(HandedOver(s, e, x, msg));
  }

  lemma QueueBears(s: State, e: nat, msg: Word, u: nat)
    requires Calling(s, e) && Patient(s, u) && s.endpoints[e].receiver == None
    ensures Passes(s, Schedule(Queued(s, e, msg)), u)
  {
    QueuedSettles(s, e, msg);
    ScheduleRelieves(Queued(s, e, msg), u);
    ScheduleLeaves(Queued(s, e, msg));
  }

  lemma ReplyOpenBears(s: State, e: nat, msg: Word, u: nat)
    requires Calling(s, e) && Patient(s, u)
    ensures Still(s, ReplyOpen(s, e, msg), u)
  {
    WaitersOk(s, e);
    var q := s.endpoints[e].repliers;
    var k := LastMatch(s, q, s.tasks[s.current].id, e);
    if k < |q| { AnsweredForm(s, e, msg, k); } else { MisdirectedForm(s, e, msg); }
  }

  lemma StillCore(s: State, ev: Event, u: nat)
    requires Core(s) && Patient(s, u)
    ensures Core(Emit(s, ev)) && Still(s, Emit(s, ev), u)
  {
    AlikeSettled(s, Emit(s, ev));
  }

  lemma StillBears(s: State, m: State, r: State, u: nat)
    requires Still(s, m, u) && Bears(m, r, u)
    ensures Bears(s, r, u)
  {
  }

  lemma RecvBears(s: State, e: nat, u: nat)
    requires Core(s) && Patient(s, u)
    ensures Core(Recv(s, e)) && Passes(s, Recv(s, e), u)
  {
    var r := Recv(s, e);
    if Gate(s, e).Some? {
      RejectedNoted(s, e);
      NotedStill(s, r, u);
      NotedSettled(s, r);
    } else {
      var s1 := Emit(s, IpcRecvCalled(s.tasks[s.current].id, e));
      StillCore(s, IpcRecvCalled(s.tasks[s.current].id, e), u);
      assert TaskOk(s.tasks[s.current], s.current, |s.tasks|);
      RecvOpenBears(s1, e, u);
      RecvOpenCore(s1, e);
    }
  }

  lemma AfterRecvBears(s: State, r: State, inp: TickInput, u: nat)
    requires Shape(s) && |r.tasks| == |s.tasks| && Core(r) && Passes(s, r, u)
    ensures Bears(s, AfterRecv(r, s.current, inp), u)
  {
    var i := s.current;
    if inp.killReceiver && r.tasks[i].kind == UserSpace {
      assert TaskOk(r.tasks[i], i, |r.tasks|);
      if i != r.current {
        KillKeepsRelief(r, i, DemoInjected, u);
      } else {
        KillBears(r, i, DemoInjected, u);
        StillBears(s, r, Kill(r, i, DemoInjected), u);
      }
    }
  }

  lemma SendBears(s: State, e: nat, msg: Word, u: nat)
    requires Core(s) && Patient(s, u)
    ensures Bears(s, Send(s, e, msg), u)
  {
    if Gate(s, e).Some? {
      RejectedNoted(s, e);
      NotedStill(s, Send(s, e, msg), u);
    } else {
      StillCore(s, IpcSendCalled(s.tasks[s.current].id, e, msg), u);
      assert TaskOk(s.tasks[s.current], s.current, |s.tasks|);
      SendOpenBears(Emit(s, IpcSendCalled(s.tasks[s.current].id, e, msg)), e, msg, u);
    }
  }

  lemma ReplyBears(s: State, e: nat, msg: Word, u: nat)
    requires Core(s) && Patient(s, u)
    ensures Still(s, Reply(s, e, msg), u)
  {
    if Gate(s, e).Some? {
      RejectedNoted(s, e);
      NotedStill(s, Reply(s, e, msg), u);
    } else {
      assert TaskOk(s.tasks[s.current], s.current, |s.tasks|);
      ReplyOpenBears(s, e, msg, u);
    }
  }

  lemma SyscallBears(s: State, call: Syscall, inp: TickInput, u: nat)
    requires Core(s) && Patient(s, u)
    ensures Bears(s, HandleSyscall(s, call, inp), u)
  {
    var t := s.tasks[s.current];
    if t.kind == KernelSpace && IsIpc(call) {
    } else {
      var s1 := Emit(s, SyscallHandled(t.id));
      StillCore(s, SyscallHandled(t.id), u);
      match call {
        case CallRecv(e) =>
          RecvBears(s1, e, u);
          AfterRecvBears(s1, Recv(s1, e), inp, u);
        case CallSend(e, msg) => SendBears(s1, e, msg, u);
        case CallReply(e, msg) => ReplyBears(s1, e, msg, u);
        case _ =>
          PageCallNoted(s1, call, inp.tables);
          NotedStill(s1, PageCall(s1, call, inp.tables), u);
      }
    }
  }

  lemma IssueBears(s: State, inp: TickInput, u: nat)
    requires Core(s) && Patient(s, u)
    ensures Bears(s, HandlePending(UserStep(s, s.current, inp.choice), inp), u)
  {
    UserStepNoted(s, s.current, inp.choice);
    var s1 := UserStep(s, s.current, inp.choice);
    NotedStill(s, s1, u);
    NotedSettled(s, s1);
    var t := s1.tasks[s.current];
    if t.pendingCall.Some? {
      var s2 := Emit(SetTask(s1, s.current, t.(pendingCall := None)), SyscallIssued(t.id));
      AlikeSettled(s1, s2);
      assert Still(s1, s2, u);
      SyscallBears(s2, t.pendingCall.value, inp, u);
    }
  }

  // ---------------------------------------------------------------------------
  // The tick
  // ---------------------------------------------------------------------------

  /** One more tick on the running task's account, `u` still waiting. */
  predicate Longer(s: State, r: State, u: nat) {
    && Shape(s) && |r.tasks| == |s.tasks| && r.current == s.current && Patient(r, u)
    && r.tasks[r.current].slice == s.tasks[s.current].slice + 1
    && r.tasks[r.current].priority == s.tasks[s.current].priority && r.tasks[u].priority == s.tasks[u].priority
  }

  lemma ChargeBears(s: State, u: nat)
    requires Core(s) && Patient(s, u)
    ensures Relieved(ChargeSlice(s), u) || Longer(s, ChargeSlice(s), u)
  {
    assert NeedsSlot(s.tasks[u], u);
    assert u in Members(s, AtReady);
    if s.tasks[s.current].slice + 1 >= s.config.quantum {
      PreemptForm(s);
      ExpiredSettled(s);
      ScheduleRelieves(Expired(s), u);
    } else {
      UnexpiredLonger(s, u);
    }
  }

  lemma ExpiredSettled(s: State)
    requires Core(s)
    ensures Settled(Expired(s))
  {
    SliceNoted(s, s.tasks[s.current].slice + 1);
    NotedSettled(s, Expired(s));
  }

  lemma UnexpiredLonger(s: State, u: nat)
    requires Live(s) && Patient(s, u) && u != s.current && s.tasks[s.current].slice + 1 < s.config.quantum
    ensures Longer(s, ChargeSlice(s), u)
  {
  }

  lemma AccountBears(s: State, m: State, u: nat)
    requires Core(s) && Core(m) && Patient(s, u) && |m.tasks| == |s.tasks| && Bears(s, m, u)
    ensures Relieved(Account(m, s.current), u) || Longer(s, Account(m, s.current), u)
  {
    var ran := s.current;
    RuntimeNoted(m, ran);
    var m3 := UpdateRuntime(m, ran);
    NotedSettled(m, m3);
    if Still(s, m, u) {
      NotedStill(m, m3, u);
      ChargeBears(m3, u);
    } else if m.current != s.current {
      NotedRelieved(m, m3, u);
    } else {
      assert SameButSlice(m.tasks[u], m3.tasks[u]);
      ChargeDead(m3, u);
    }
  }

  lemma ChargeDead(s: State, u: nat)
    requires Core(s) && u < |s.tasks| && s.tasks[u].state == Dead
    ensures ChargeSlice(s).tasks[u].state == Dead
  {
    if s.tasks[s.current].slice + 1 >= s.config.quantum && s.ready != [] {
      PreemptForm(s);
      ExpiredSettled(s);
      ScheduleTask(Expired(s), u);
    }
  }

  lemma ActBears(s: State, inp: TickInput, u: nat)
    requires Core(s) && Patient(s, u)
    ensures Passes(s, Act(s, inp), u)
  {
    if s.clock.activity == MappingDemoPage {
      MemDemoBears(s, inp, u);
    }
  }

  lemma MemDemoBears(s: State, inp: TickInput, u: nat)
    requires Core(s) && Patient(s, u)
    ensures Passes(s, MemDemo(s, inp), u)
  {
    if s.current == 0 {
      KernelMemDemoNoted(s, inp.tables);
      NotedStill(s, MemDemo(s, inp), u);
    } else {
      UserMemDemoBears(s, inp, u);
    }
  }

  lemma UserMemDemoBears(s: State, inp: TickInput, u: nat)
    requires Core(s) && Patient(s, u) && s.current != 0
    ensures Passes(s, UserMemDemo(s, inp), u)
  {
    var stage := s.tasks[s.current].stage;
    if stage == 1 || (stage == 3 && s.config.pfDemo) {
      GuardedBears(s, inp, if stage == 1 then 2 else 0, u);
    } else {
      UserMemDemoNoted(s, inp);
      NotedStill(s, UserMemDemo(s, inp), u);
    }
  }

  lemma GuardedBears(s: State, inp: TickInput, next: nat, u: nat)
    requires Core(s) && Patient(s, u) && s.current != 0
    ensures Passes(s, GuardedAccess(s, inp, next), u)
  {
    var s1 := s.(cr3 := 0);
    AlikeSettled(s, s1);
    if inp.fault {
      KillBears(s1, s.current, UserPageFault, u);
      KillIsFatal(s1, s.current, UserPageFault);
      var k := Kill(s1, s.current, UserPageFault);
      StageNoted(k, s.current, 0);
      if Relieved(k, u) { NotedRelieved(k, SetStage(k, s.current, 0), u); }
    }
  }

  lemma ActCore(s: State, inp: TickInput)
    requires Core(s)
    ensures Core(Act(s, inp))
  {
    var P := (x: State) => true;
    AnythingInductive();
    Strengthen(P, ALL);
    AlikeSettled(s, s.(cr3 := 0));
    ActKeeps(s, inp, (x: State) => Settled(x) && P(x), ALL);
  }

  lemma IssueCore(s: State, inp: TickInput)
    requires Core(s)
    ensures Core(HandlePending(UserStep(s, s.current, inp.choice), inp))
  {
    var P := (x: State) => true;
    AnythingInductive();
    Strengthen(P, ALL);
    IssueKeeps(s, inp, (x: State) => Settled(x) && P(x), ALL);
  }

  lemma ServeBears(s: State, inp: TickInput, u: nat)
    requires Core(s) && Patient(s, u)
    ensures var r := Serve(s, s.current, inp); r.clock.panicked || Relieved(r, u) || Longer(s, r, u)
  {
    ServeForm(s, inp);
    IssueCore(s, inp);
    IssueBears(s, inp, u);
    AccountBears(s, HandlePending(UserStep(s, s.current, inp.choice), inp), u);
  }

  /** A tick with `u` ready behind the running task: at its end `u` is relieved, or the
      running task has used up one more tick of its quantum, or the kernel has panicked. */
  lemma TickBears(s: State, inp: TickInput, u: nat)
    requires Core(s) && Patient(s, u) && !s.clock.halted
    ensures Tick(s, inp).clock.panicked || Relieved(Tick(s, inp), u) || Longer(s, Tick(s, inp), u)
  {
    var s0 := StartTick(s);
    AlikeSettled(s, s0);
    ActBears(s0, inp, u);
    ActCore(s0, inp);
    var s1 := Act(s0, inp);
    if s1.tasks[s.current].state == Dead {
      assert s1.tasks[s1.current].state == Running;
    } else if !s1.clock.panicked {
      ActStays(s0, inp);
      ServeBears(s1, inp, u);
    }
  }

  // ---------------------------------------------------------------------------
  // Runs
  // ---------------------------------------------------------------------------

  /** Task `u` is ready behind a running task of lower priority. */
  predicate Inverted(s: State, u: nat) {
    Shape(s) && Patient(s, u) && !s.clock.halted && !s.clock.panicked && s.tasks[s.current].priority < s.tasks[u].priority
  }

  function Ticks(steps: seq<Step>): nat {
    if steps == [] then 0 else Ticks(steps[..|steps| - 1]) + (if steps[|steps| - 1].TickStep? then 1 else 0)
  }

  /** As long as the inversion lasts, every tick is charged to the same running task. */
  lemma {:induction false} InversionCharged(s: State, steps: seq<Step>, u: nat)
    requires Core(s) && Legal(steps)
    requires forall k :: 0 <= k <= |steps| ==> Inverted(Run(s, steps[..k]), u)
    ensures Core(Run(s, steps)) && Run(s, steps).config == s.config
    ensures Run(s, steps).tasks[Run(s, steps).current].slice >= Ticks(steps)
    decreases |steps|
  {
    if steps != [] {
      var n := |steps| - 1;
      var init := steps[..n];
      assert forall k :: 0 <= k <= n ==> init[..k] == steps[..k];
      assert steps[..|steps|] == steps;
      InversionCharged(s, init, u);
      assert Inverted(Run(s, init), u) && Inverted(Run(s, steps), u);
      StepCharged(Run(s, init), steps[n], u);
    }
  }

  lemma StepCharged(s: State, step: Step, u: nat)
    requires Core(s) && Inverted(s, u) && Inverted(Apply(s, step), u) && (step.KillStep? ==> step.task != 0)
    ensures var r := Apply(s, step);
      && Core(r) && r.config == s.config
      && r.tasks[r.current].slice >= s.tasks[s.current].slice + (if step.TickStep? then 1 else 0)
  {
    var P := (x: State) => x.config == s.config;
    ConfigInductive(s.config);
    match step
    case TickStep(inp) =>
      TickKeeps(s, inp, P, ALL);
      TickBears(s, inp, u);
    case KillStep(i, why) =>
      KillStepKeeps(s, i, why, P, ALL);
      KillBears(s, i, why, u);
  }

  /** Bounded priority inversion: in any run that contains at least `quantum` ticks there is
      a point at which `u` is not ready behind a task of lower priority, or the kernel has
      halted. */
  lemma InversionBounded(s: State, steps: seq<Step>, u: nat) returns (k: nat)
    requires Core(s) && Legal(steps) && Ticks(steps) >= s.config.quantum
    ensures k <= |steps| && !Inverted(Run(s, steps[..k]), u)
  {
    if forall k :: 0 <= k <= |steps| ==> Inverted(Run(s, steps[..k]), u) {
      InversionCharged(s, steps, u);
      assert false;
    }
    k :| 0 <= k <= |steps| && !Inverted(Run(s, steps[..k]), u);
  }
}
