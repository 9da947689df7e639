/** Ticks and kills decompose into actions, so they keep the invariant and every
    property that the actions keep. */
module Steps {
  import opened KernelTypes
  import opened PageOps
  import opened KernelSpec
  import opened Holdings
  import opened Invariant
  import opened Links
  import opened Scheduling
  import opened IpcPaths
  import opened ReplyPath
  import opened KillPath
  import opened KillOutcome
  import opened Actions

  lemma NoteKeeps(s: State, r: State, Q: State -> bool, sc: Scope)
    requires Live(s) && Q(s) && Stable(Q, sc) && Notes(s, r)
    requires r.tasks[r.current].slice < r.config.quantum
    ensures Live(r) && Q(r)
  {
    assert SameButSlice(s.tasks[s.current], r.tasks[s.current]);
    assert Q(r);
  }

  lemma SettledHere(s: State, Q: State -> bool, sc: Scope)
    requires Q(s) && Stable(Q, sc)
    ensures Settled(s)
    ensures Live(s) ==> Core(s)
  {
    assert Ask(s);
  }

  lemma ScheduleKeeps(s: State, Q: State -> bool, sc: Scope)
    requires Shape(s) && Q(s) && Stable(Q, sc)
    ensures Live(Schedule(s)) && Q(Schedule(s))
  {
    assert Reschedules(s, Schedule(s));
    SettledHere(s, Q, sc);
    ScheduleOk(s);
  }

  lemma RejectedNoted(s: State, e: nat)
    requires Shape(s) && Gate(s, e).Some?
    ensures Notes(s, Gate(s, e).value) && Gate(s, e).value.tasks[s.current].slice == s.tasks[s.current].slice
  {
    var t := s.tasks[s.current];
    if e >= |s.endpoints| || t.state == Dead {
      SetNotes(s, s.current, t);
      assert s.tasks[s.current := t] == s.tasks;
    } else if t.kind == KernelSpace {
      SetNotes(s, s.current, t.(lastReply := Some(IPC_ERR_DEAD_PARTNER)));
    } else {
      SetNotes(s, s.current, t.(lastReply := Some(IPC_ERR_ENDPOINT_CLOSED)));
    }
  }

  /** One task's local data changes, and nothing else. */
  lemma SetNotes(s: State, i: nat, t: Task)
    requires i < |s.tasks| && SameButSlice(s.tasks[i], t) && SameMemory(s.tasks[i], t) && t.runtimeTicks == s.tasks[i].runtimeTicks
    ensures Notes(s, SetTask(s, i, t))
  {
    LocalNoted(s, SetTask(s, i, t), i);
  }

  /** And then an event that says nothing about a task's state. */
  lemma SetEmitNotes(s: State, i: nat, t: Task, ev: Event)
    requires i < |s.tasks| && SameButSlice(s.tasks[i], t) && SameMemory(s.tasks[i], t) && t.runtimeTicks == s.tasks[i].runtimeTicks
    requires Benign(ev) && !ev.TaskSwitched?
    ensures Notes(s, Emit(SetTask(s, i, t), ev))
  {
    LocalNoted(s, Emit(SetTask(s, i, t), ev), i);
  }

  lemma RecvKeeps(s: State, e: nat, Q: State -> bool, sc: Scope)
    requires Live(s) && Q(s) && Stable(Q, sc)
    ensures Live(Recv(s, e)) && Q(Recv(s, e))
  {
    if Gate(s, e).Some? {
      RejectedNoted(s, e);
      NoteKeeps(s, Recv(s, e), Q, sc);
    } else {
      var s1 := Emit(s, IpcRecvCalled(s.tasks[s.current].id, e));
      NoteKeeps(s, s1, Q, sc);
      SettledHere(s1, Q, sc);
      assert TaskOk(s1.tasks[s.current], s.current, |s.tasks|);
      RecvOpenKeeps(s1, e, Q, sc);
    }
  }

  lemma RecvOpenKeeps(s: State, e: nat, Q: State -> bool, sc: Scope)
    requires Calling(s, e) && Q(s) && Stable(Q, sc)
    ensures Live(RecvOpen(s, e)) && Q(RecvOpen(s, e))
  {
    RecvOpenIdeal(s, e);
    RecvOpenCore(s, e);
    var q := s.endpoints[e].senders;
    if q != [] {
      assert TakesSend(s, e, q[|q| - 1], RecvOpen(s, e));
    } else if s.endpoints[e].receiver.Some? {
      LocalNoted(s, RecvOpen(s, e), s.current);
      assert Noted(s, RecvOpen(s, e));
    } else {
      assert Listens(s, e, Listening(s, e));
      ScheduleKeeps(Listening(s, e), Q, sc);
    }
  }

  lemma SendKeeps(s: State, e: nat, msg: Word, Q: State -> bool, sc: Scope)
    requires Live(s) && Q(s) && Stable(Q, sc)
    ensures Live(Send(s, e, msg)) && Q(Send(s, e, msg))
  {
    if Gate(s, e).Some? {
      RejectedNoted(s, e);
      NoteKeeps(s, Send(s, e, msg), Q, sc);
    } else {
      SettledHere(s, Q, sc);
      assert TaskOk(s.tasks[s.current], s.current, |s.tasks|);
      SendCallingKeeps(s, e, msg, Q, sc);
    }
  }

  lemma SendCallingKeeps(s: State, e: nat, msg: Word, Q: State -> bool, sc: Scope)
    requires Calling(s, e) && Q(s) && Stable(Q, sc)
    ensures var s1 := Emit(s, IpcSendCalled(s.current + 1, e, msg));
      Live(SendOpen(s1, e, msg)) && Q(SendOpen(s1, e, msg))
  {
    var s1 := Emit(s, IpcSendCalled(s.current + 1, e, msg));
    EmitCalling(s, e, IpcSendCalled(s.current + 1, e, msg));
    SendOpenIdeal(s1, e, msg);
    if s.endpoints[e].receiver.Some? {
      var x := s.endpoints[e].receiver.value;
      var r := HandedOver(s1, e, x, msg);
      assert HandsOver(s, e, x, msg, r);
      ScheduleKeeps(r, Q, sc);
    } else {
      var r := Queued(s1, e, msg);
      assert QueuesSend(s, e, msg, r);
      ScheduleKeeps(r, Q, sc);
    }
  }

  lemma ReplyKeeps(s: State, e: nat, msg: Word, Q: State -> bool, sc: Scope)
    requires Live(s) && Q(s) && Stable(Q, sc) && (Gate(s, e) == None ==> sc.replies)
    ensures Live(Reply(s, e, msg)) && Q(Reply(s, e, msg))
  {
    if Gate(s, e).Some? {
      RejectedNoted(s, e);
      NoteKeeps(s, Reply(s, e, msg), Q, sc);
    } else {
      SettledHere(s, Q, sc);
      assert TaskOk(s.tasks[s.current], s.current, |s.tasks|);
      ReplyCallingKeeps(s, e, msg, Q, sc);
    }
  }

  lemma ReplyCallingKeeps(s: State, e: nat, msg: Word, Q: State -> bool, sc: Scope)
    requires Calling(s, e) && s.tasks[s.current].id == s.current + 1 && Q(s) && Stable(Q, sc) && sc.replies
    ensures Live(ReplyOpen(s, e, msg)) && Q(ReplyOpen(s, e, msg))
  {
    ReplyOpenCore(s, e, msg);
    var q := s.endpoints[e].repliers;
    var k := LastMatch(s, q, s.current + 1, e);
    if k < |q| {
      AnsweredForm(s, e, msg, k);
      assert Answers(s, e, k, msg, ReplyOpen(s, e, msg));
    } else {
      MisdirectedForm(s, e, msg);
      if q != [] {
        assert Misdirects(s, e, ReplyOpen(s, e, msg));
      }
    }
  }

  lemma HaltKeeps(s: State, Q: State -> bool, sc: Scope)
    requires Live(s) && Q(s) && Stable(Q, sc)
    ensures Live(MaybeHalt(s)) && Q(MaybeHalt(s))
  {
    var r := MaybeHalt(s);
    ClockNoted(s, r);
    if r != s { assert Quits(s, r); }
  }

  /** Killing another task leaves the running one alone. */
  lemma BystanderRuns(s: State, i: nat, why: KillReason)
    requires Core(s) && 0 < i < |s.tasks| && i != s.current
    ensures Core(KillQuietly(s, i, why))
  {
    KillSettles(s, i, why);
    KillQuietlyForm(s, i, why);
    FateMet(s, i, why, s.current);
    KillLog(s, i, why);
    assert Fate(s, i, s.current) == s.tasks[s.current];
  }

  /** Only clocks, counters and roots change. */
  lemma ClockNoted(s: State, r: State)
    requires r == s.(clock := r.clock, counters := r.counters, cr3 := r.cr3, taken := r.taken, history := r.history)
    requires SameIpcCounters(s.counters, r.counters) && (r.cr3 == s.cr3 || r.cr3 == 0)
    requires s.taken <= r.taken && (s.taken <= s.config.supply ==> r.taken <= s.config.supply)
    requires s.history <= r.history && forall k :: |s.history| <= k < |r.history| ==> Benign(r.history[k])
    ensures Noted(s, r)
    ensures r.cr3 == s.cr3 && r.counters == s.counters && Unswitched(s.history, r.history) && Steady(s, r) ==> Notes(s, r)
  {
    MemorySame(s, r);
  }

  /** kill_task restores the invariant and keeps `Q`, whichever user task is killed. */
  lemma KillKeeps(s: State, i: nat, why: KillReason, Q: State -> bool, sc: Scope)
    requires Live(s) && Q(s) && Stable(Q, sc) && sc.kills && i != 0 && (i < |s.tasks| || sc.misses)
    ensures Live(Kill(s, i, why)) && Q(Kill(s, i, why))
  {
    if i >= |s.tasks| {
      ClockNoted(s, Kill(s, i, why));
      assert Misses(s, why, Kill(s, i, why));
    } else if !Removable(s.tasks[i]) {
      ClockNoted(s, Kill(s, i, why));
      NoteKeeps(s, Kill(s, i, why), Q, sc);
    } else {
      var q := KillQuietly(s, i, why);
      SettledHere(s, Q, sc);
      assert Slays(s, i, why, q);
      if i == s.current {
        ScheduleKeeps(q, Q, sc);
        HaltKeeps(Schedule(q), Q, sc);
      } else {
        BystanderRuns(s, i, why);
        HaltKeeps(q, Q, sc);
      }
    }
  }

  /** A tick in which nobody is killed. */
  predicate Peaceful(inp: TickInput) {
    !inp.fault && !inp.killReceiver
  }

  lemma AfterRecvKeeps(s: State, i: nat, inp: TickInput, Q: State -> bool, sc: Scope)
    requires Live(s) && Q(s) && Stable(Q, sc) && (sc.kills || !inp.killReceiver)
    ensures Live(AfterRecv(s, i, inp)) && Q(AfterRecv(s, i, inp))
  {
    if inp.killReceiver && i < |s.tasks| && s.tasks[i].kind == UserSpace {
      SettledHere(s, Q, sc);
      assert TaskOk(s.tasks[i], i, |s.tasks|);
      KillKeeps(s, i, DemoInjected, Q, sc);
    }
  }

  /** The state in which the running task's pending call is carried out. */
  function Issued(u: State): (r: State)
    requires Shape(u)
    ensures Keeps(u, r)
  {
    var t := u.tasks[u.current];
    Emit(Emit(SetTask(u, u.current, t.(pendingCall := None)), SyscallIssued(t.id)), SyscallHandled(t.id))
  }

  /** What carrying out a call means, when nobody is killed. */
  function Carried(x: State, call: Syscall, inp: TickInput): (r: State)
    requires Shape(x)
    ensures Sized(x, r) && Shape(r)
  {
    match call
    case CallRecv(e) => Recv(x, e)
    case CallSend(e, msg) => Send(x, e, msg)
    case CallReply(e, msg) => Reply(x, e, msg)
    case _ => PageCall(x, call, inp.tables)
  }

  /** A user call other than a rejected one, or a page call, is pending. */
  predicate Admitted(u: State) {
    && Shape(u) && u.tasks[u.current].state != Dead && u.tasks[u.current].pendingCall.Some?
    && !(u.tasks[u.current].kind == KernelSpace && IsIpc(u.tasks[u.current].pendingCall.value))
  }

  lemma CarriedForm(u: State, inp: TickInput)
    requires Admitted(u)
    ensures var call := u.tasks[u.current].pendingCall.value;
      var r := Carried(Issued(u), call, inp);
      HandlePending(u, inp) == if call.CallRecv? then AfterRecv(r, u.current, inp) else r
  {
  }

  /** The running task is about to make a reply that is not rejected. */
  predicate Replying(u: State) {
    && Admitted(u) && u.tasks[u.current].pendingCall.value.CallReply?
    && Gate(Issued(u), u.tasks[u.current].pendingCall.value.ep) == None
  }

  /** The kill hook strikes the task that is about to receive. */
  predicate Hooked(u: State, inp: TickInput) {
    Admitted(u) && u.tasks[u.current].pendingCall.value.CallRecv? && inp.killReceiver
  }

  lemma CarriedKeeps(s: State, call: Syscall, inp: TickInput, Q: State -> bool, sc: Scope)
    requires Live(s) && Q(s) && Stable(Q, sc) && (call.CallReply? && Gate(s, call.ep) == None ==> sc.replies)
    ensures Live(Carried(s, call, inp)) && Q(Carried(s, call, inp))
  {
    match call
    case CallRecv(e) => RecvKeeps(s, e, Q, sc);
    case CallSend(e, msg) => SendKeeps(s, e, msg, Q, sc);
    case CallReply(e, msg) => ReplyKeeps(s, e, msg, Q, sc);
    case _ => PageCallKeeps(s, call, inp.tables, Q, sc);
  }

  lemma PageCallKeeps(s: State, call: Syscall, n: nat, Q: State -> bool, sc: Scope)
    requires Live(s) && Q(s) && Stable(Q, sc)
    ensures Live(PageCall(s, call, n)) && Q(PageCall(s, call, n))
  {
    PageCallNoted(s, call, n);
    NoteKeeps(s, PageCall(s, call, n), Q, sc);
  }

  lemma IssuedNoted(u: State)
    requires Shape(u) && u.tasks[u.current].state != Dead
    ensures Notes(u, Issued(u)) && Issued(u).tasks[u.current].slice == u.tasks[u.current].slice
  {
    LocalNoted(u, Issued(u), u.current);
  }

  lemma PendingKeeps(s: State, inp: TickInput, Q: State -> bool, sc: Scope)
    requires Live(s) && Q(s) && Stable(Q, sc) && (sc.kills || !Hooked(s, inp)) && (Replying(s) ==> sc.replies)
    ensures Live(HandlePending(s, inp)) && Q(HandlePending(s, inp))
  {
    if Admitted(s) {
      IssuedNoted(s);
      NoteKeeps(s, Issued(s), Q, sc);
      CarriedForm(s, inp);
      var call := s.tasks[s.current].pendingCall.value;
      CarriedKeeps(Issued(s), call, inp, Q, sc);
      if call.CallRecv? && inp.killReceiver { AfterRecvKeeps(Carried(Issued(s), call, inp), s.current, inp, Q, sc); }
    } else {
      DroppedNoted(s, inp);
      NoteKeeps(s, HandlePending(s, inp), Q, sc);
    }
  }

  /** Nothing is pending, or an IPC call of the kernel task. */
  lemma DroppedNoted(s: State, inp: TickInput)
    requires Shape(s) && s.tasks[s.current].state == Running && !Admitted(s)
    ensures Notes(s, HandlePending(s, inp)) && HandlePending(s, inp).tasks[s.current].slice == s.tasks[s.current].slice
  {
    var t := s.tasks[s.current];
    if t.pendingCall == None {
      SetNotes(s, s.current, t);
      assert s.tasks[s.current := t] == s.tasks;
    } else {
      SetEmitNotes(s, s.current, t.(pendingCall := None), SyscallIssued(t.id));
    }
  }

  predicate SameMemory(t: Task, t': Task) {
    t'.space == t.space && t'.demoFrame == t.demoFrame
  }

  /** One task's local data changes; clocks and roots may, and benign events may follow. */
  lemma LocalNoted(s: State, r: State, i: nat)
    requires i < |s.tasks| == |r.tasks| && r.tasks == s.tasks[i := r.tasks[i]] && SameButSlice(s.tasks[i], r.tasks[i])
    requires r == s.(tasks := r.tasks, cr3 := r.cr3, sentByTask1 := r.sentByTask1, clock := r.clock, history := r.history)
    requires r.cr3 == s.cr3 || r.cr3 == 0
    requires SameMemory(s.tasks[i], r.tasks[i])
    requires s.history <= r.history && forall k :: |s.history| <= k < |r.history| ==> Benign(r.history[k])
    ensures Noted(s, r)
    ensures r.cr3 == s.cr3 && r.tasks[i].runtimeTicks == s.tasks[i].runtimeTicks && Unswitched(s.history, r.history) && Steady(s, r) ==>
      Notes(s, r)
  {
    MemorySame(s, r);
  }

  lemma ProgramStepLocal(s: State, i: nat, choice: UserChoice)
    requires i < |s.tasks| && s.tasks[i].state != Dead
    ensures var r := ProgramStep(s, i, choice);
      && r == s.(tasks := r.tasks, sentByTask1 := r.sentByTask1) && r.tasks == s.tasks[i := r.tasks[i]]
      && SameControl(s.tasks[i], r.tasks[i]) && SameMemory(s.tasks[i], r.tasks[i])
      && r.tasks[i].runtimeTicks == s.tasks[i].runtimeTicks
  {
    if choice.DemoProgram? && i == TASK1_INDEX {
      ClientStepLocal(s, i);
    } else if choice.DemoProgram? && i != TASK0_INDEX {
      ServerStepLocal(s, i);
    }
  }

  lemma ClientStepLocal(s: State, i: nat)
    requires i < |s.tasks| && s.tasks[i].state != Dead
    ensures var r := ClientStep(s, i);
      && r == s.(tasks := r.tasks, sentByTask1 := r.sentByTask1) && r.tasks == s.tasks[i := r.tasks[i]]
      && SameControl(s.tasks[i], r.tasks[i]) && SameMemory(s.tasks[i], r.tasks[i])
      && r.tasks[i].runtimeTicks == s.tasks[i].runtimeTicks
  {
  }

  lemma ServerStepLocal(s: State, i: nat)
    requires i < |s.tasks| && s.tasks[i].state != Dead
    ensures var r := ServerStep(s, i);
      && r == s.(tasks := r.tasks) && r.tasks == s.tasks[i := r.tasks[i]] && SameControl(s.tasks[i], r.tasks[i])
      && SameMemory(s.tasks[i], r.tasks[i]) && r.tasks[i].runtimeTicks == s.tasks[i].runtimeTicks
  {
  }

  lemma UserStepNoted(s: State, i: nat, choice: UserChoice)
    requires i < |s.tasks|
    ensures Notes(s, UserStep(s, i, choice))
    ensures UserStep(s, i, choice).tasks[i].slice == s.tasks[i].slice
  {
    UserStepLocal(s, i, choice);
    LocalNoted(s, UserStep(s, i, choice), i);
  }

  lemma UserStepLocal(s: State, i: nat, choice: UserChoice)
    requires i < |s.tasks|
    ensures var r := UserStep(s, i, choice);
      && |r.tasks| == |s.tasks| && r == s.(tasks := s.tasks[i := r.tasks[i]], sentByTask1 := r.sentByTask1)
      && SameControl(s.tasks[i], r.tasks[i]) && SameMemory(s.tasks[i], r.tasks[i]) && r.tasks[i].runtimeTicks == s.tasks[i].runtimeTicks
  {
    var t := s.tasks[i];
    if t.state == Dead || t.state == Blocked || t.pendingCall.Some? {
      assert s.tasks[i := t] == s.tasks;
    } else {
      var s1 := if t.sysRetUnread then SetTask(s, i, t.(sysRet := None, sysRetUnread := false)) else s;
      ProgramStepLocal(s1, i, choice);
      var r := ProgramStep(s1, i, choice);
      assert s1.tasks[i := r.tasks[i]] == s.tasks[i := r.tasks[i]];
    }
  }

  /** A page call of the running task, whatever its outcome. */
  lemma MemoryNoted(s: State, r: State)
    requires Shape(s) && s.tasks[s.current].state != Dead && OnlyMemory(s, r, s.current) && Memory(s, r)
    requires Steady(s, r)
    ensures Notes(s, r) && r.tasks[s.current].slice == s.tasks[s.current].slice
  {
  }

  lemma ResultNoted(s: State, m: State, out: Outcome)
    requires Shape(s) && Notes(s, m) && m.tasks[s.current].slice == s.tasks[s.current].slice
    ensures Notes(s, LeaveResult(m, out)) && LeaveResult(m, out).tasks[s.current].slice == s.tasks[s.current].slice
  {
    LocalAfter(s, m, LeaveResult(m, out), s.current);
  }

  /** Local data of task `i` change after a note. */
  lemma LocalAfter(s: State, m: State, r: State, i: nat)
    requires Shape(s) && i < |s.tasks| == |r.tasks| && Notes(s, m) && r.tasks == m.tasks[i := r.tasks[i]]
    requires SameControl(m.tasks[i], r.tasks[i])
    requires SameMemory(m.tasks[i], r.tasks[i])
    requires r.tasks[i].runtimeTicks == m.tasks[i].runtimeTicks && Steady(m, r) && Unswitched(m.history, r.history)
    requires r == m.(tasks := r.tasks, clock := r.clock, history := r.history)
    requires m.history <= r.history && forall k :: |m.history| <= k < |r.history| ==> Benign(r.history[k])
    ensures Notes(s, r)
  {
    forall j: nat, f: nat {:trigger Holds(r.tasks[j], f)} | j < |s.tasks| && Holds(r.tasks[j], f) ensures Holds(m.tasks[j], f) {}
    forall j: nat | j < |s.tasks| ensures SpaceKept(s.tasks[j], r.tasks[j]) && SameButSlice(s.tasks[j], r.tasks[j]) {
      assert SpaceKept(s.tasks[j], m.tasks[j]) && SameButSlice(s.tasks[j], m.tasks[j]);
    }
  }

  lemma PageCallNoted(s: State, call: Syscall, n: nat)
    requires Shape(s) && s.tasks[s.current].state != Dead
    ensures Notes(s, PageCall(s, call, n))
    ensures PageCall(s, call, n).tasks[s.current].slice == s.tasks[s.current].slice
  {
    match call
    case CallPageMap(page, flags) =>
      var (m, out) := MapFor(s, s.current, page, flags, n);
      MapForNoted(s, page, flags, n);
      ResultNoted(s, m, out);
    case CallPageUnmap(page) =>
      var (m, out) := UnmapFor(s, s.current, page);
      UnmapForNoted(s, page);
      ResultNoted(s, m, out);
    case _ => LocalNoted(s, s, s.current);
  }

  lemma StageNoted(s: State, i: nat, stage: nat)
    requires i < |s.tasks|
    ensures Notes(s, SetStage(s, i, stage))
    ensures forall j: nat {:trigger SetStage(s, i, stage).tasks[j]} :: j < |s.tasks| ==>
      SetStage(s, i, stage).tasks[j].slice == s.tasks[j].slice
  {
    LocalNoted(s, SetStage(s, i, stage), i);
  }

  lemma StageKeeps(s: State, i: nat, stage: nat, Q: State -> bool, sc: Scope)
    requires Live(s) && Q(s) && Stable(Q, sc) && i < |s.tasks|
    ensures Live(SetStage(s, i, stage)) && Q(SetStage(s, i, stage))
  {
    StageNoted(s, i, stage);
    NoteKeeps(s, SetStage(s, i, stage), Q, sc);
  }

  lemma GroundKeeps(s: State, Q: State -> bool, sc: Scope)
    requires Live(s) && Q(s) && Stable(Q, sc) && sc.grounds
    ensures Q(s.(cr3 := 0))
  {
    ClockNoted(s, s.(cr3 := 0));
    assert Grounds(s, s.(cr3 := 0));
  }

  lemma GuardedKeeps(s: State, inp: TickInput, next: nat, Q: State -> bool, sc: Scope)
    requires Live(s) && Q(s.(cr3 := 0)) && Stable(Q, sc) && (sc.kills || !inp.fault) && s.current != 0
    ensures Live(GuardedAccess(s, inp, next)) && Q(GuardedAccess(s, inp, next))
  {
    var s1 := s.(cr3 := 0);
    if inp.fault {
      KillKeeps(s1, s.current, UserPageFault, Q, sc);
      if !Kill(s1, s.current, UserPageFault).clock.panicked {
        StageKeeps(Kill(s1, s.current, UserPageFault), s.current, 0, Q, sc);
      }
    } else {
      StageKeeps(s1, s.current, next, Q, sc);
    }
  }

  /** A tick from this state touches user memory: stage 1, or stage 3 where the page-fault demo is built in. */
  predicate Accesses(s: State) {
    && Shape(s) && s.clock.activity == MappingDemoPage && s.current != 0
    && s.tasks[s.current].kind == UserSpace && s.tasks[s.current].space.rooted
    && (s.tasks[s.current].stage == 1 || (s.tasks[s.current].stage == 3 && s.config.pfDemo))
  }

  /** The tick's access to user memory faults. */
  predicate Strikes(s: State, inp: TickInput) {
    inp.fault && Accesses(s)
  }

  lemma MapForNoted(s: State, page: nat, flags: Flags, n: nat)
    requires Shape(s) && s.tasks[s.current].state != Dead
    ensures var m := MapFor(s, s.current, page, flags, n).0; Notes(s, m) && m.tasks[s.current].slice == s.tasks[s.current].slice
  {
    MapForForm(s, s.current, page, flags, n);
    MapForMemory(s, page, flags, n);
    MemoryNoted(s, MapFor(s, s.current, page, flags, n).0);
  }

  lemma UnmapForNoted(s: State, page: nat)
    requires Shape(s) && s.tasks[s.current].state != Dead
    ensures var m := UnmapFor(s, s.current, page).0; Notes(s, m) && m.tasks[s.current].slice == s.tasks[s.current].slice
  {
    UnmapForForm(s, s.current, page);
    UnmapForMemory(s, page);
    MemoryNoted(s, UnmapFor(s, s.current, page).0);
  }

  /** The kernel task's share of the memory demo. */
  lemma KernelMemDemoNoted(s: State, n: nat)
    requires Shape(s) && s.tasks[s.current].state != Dead
    ensures Notes(s, KernelMemDemo(s, n))
    ensures KernelMemDemo(s, n).tasks[s.current].slice == s.tasks[s.current].slice
  {
    ClockNoted(s, Halt(s));
    if s.tasks[s.current].demoMapped {
      UnmapForNoted(s, DemoPage(s.current));
      var (m, out) := UnmapFor(s, s.current, DemoPage(s.current));
      ToggleNoted(s, m, out);
    } else {
      MapForNoted(s, DemoPage(s.current), DEMO_FLAGS_TASK0, n);
      var (m, out) := MapFor(s, s.current, DemoPage(s.current), DEMO_FLAGS_TASK0, n);
      ToggleNoted(s, m, out);
    }
  }

  lemma ToggleNoted(s: State, m: State, out: Outcome)
    requires Shape(s) && Notes(s, m) && m.tasks[s.current].slice == s.tasks[s.current].slice
    ensures var r := Toggled(m, s.current, s.tasks[s.current], out);
      Notes(s, r) && r.tasks[s.current].slice == s.tasks[s.current].slice
  {
    var i := s.current;
    if out != Returned(OK) {
      LocalAfter(s, m, Panic(m), i);
    } else {
      var t := m.tasks[i].(demoMapped := !s.tasks[i].demoMapped);
      LocalAfter(s, m, Emit(SetTask(m, i, t), MemActionApplied(s.tasks[i].id)), i);
    }
  }

  /** A user task's share of the memory demo that does not touch memory. */
  lemma UserMemDemoNoted(s: State, inp: TickInput)
    requires Shape(s) && s.tasks[s.current].stage != 1 && !(s.tasks[s.current].stage == 3 && s.config.pfDemo)
    requires s.tasks[s.current].state != Dead
    ensures Notes(s, UserMemDemo(s, inp))
    ensures UserMemDemo(s, inp).tasks[s.current].slice == s.tasks[s.current].slice
  {
    var i := s.current;
    if s.tasks[i].kind != UserSpace {
      LocalNoted(s, s, i);
    } else if !s.tasks[i].space.rooted {
      ClockNoted(s, Panic(s));
    } else {
      DemoCallNoted(s, i, s.tasks[i].stage);
    }
  }

  lemma DemoCallNoted(s: State, i: nat, stage: nat)
    requires i < |s.tasks| && s.tasks[i].state != Dead
    ensures Notes(s, DemoCall(s, i, stage)) && DemoCall(s, i, stage).tasks[i].slice == s.tasks[i].slice
  {
    if stage == 0 {
      CallStageNoted(s, i, CallPageMap(DemoPage(i), DEMO_FLAGS), 1);
    } else if stage == 2 {
      CallStageNoted(s, i, CallPageUnmap(DemoPage(i)), if s.config.pfDemo then 3 else 0);
    } else {
      LocalNoted(s, SetStage(s, i, 0), i);
    }
  }

  lemma CallStageNoted(s: State, i: nat, call: Syscall, stage: nat)
    requires i < |s.tasks| && s.tasks[i].state != Dead
    ensures var r := SetStage(SetCall(s, i, call), i, stage); Notes(s, r) && r.tasks[i].slice == s.tasks[i].slice
  {
    var t := s.tasks[i];
    SetTaskTwice(s, i, t.(pendingCall := Some(call)), t.(pendingCall := Some(call), stage := stage));
    LocalNoted(s, SetTask(s, i, t.(pendingCall := Some(call), stage := stage)), i);
  }

  lemma MemDemoKeeps(s: State, inp: TickInput, Q: State -> bool, sc: Scope)
    requires Live(s) && Q(s) && Stable(Q, sc) && (sc.kills || !Strikes(s, inp))
    requires s.clock.activity == MappingDemoPage && (Accesses(s) ==> Q(s.(cr3 := 0)))
    ensures Live(MemDemo(s, inp)) && Q(MemDemo(s, inp))
  {
    if s.current == 0 {
      KernelMemDemoNoted(s, inp.tables);
      NoteKeeps(s, MemDemo(s, inp), Q, sc);
    } else {
      UserMemDemoKeeps(s, inp, Q, sc);
    }
  }

  lemma UserMemDemoKeeps(s: State, inp: TickInput, Q: State -> bool, sc: Scope)
    requires Live(s) && Q(s) && Stable(Q, sc) && (sc.kills || !Strikes(s, inp)) && s.current != 0
    requires s.clock.activity == MappingDemoPage && (Accesses(s) ==> Q(s.(cr3 := 0)))
    ensures Live(UserMemDemo(s, inp)) && Q(UserMemDemo(s, inp))
  {
    var t := s.tasks[s.current];
    if Accesses(s) {
      GuardedKeeps(s, inp, 2, Q, sc);
      GuardedKeeps(s, inp, 0, Q, sc);
    } else if t.kind == UserSpace && !t.space.rooted {
      ClockNoted(s, Panic(s));
      NoteKeeps(s, Panic(s), Q, sc);
    } else if t.kind == UserSpace {
      UserMemDemoNoted(s, inp);
      NoteKeeps(s, UserMemDemo(s, inp), Q, sc);
    }
  }

  lemma KillIsFatal(s: State, i: nat, why: KillReason)
    requires Core(s) && 0 < i < |s.tasks|
    ensures if Removable(s.tasks[i]) then Kill(s, i, why).tasks[i].state == Dead else Kill(s, i, why) == Panic(s)
  {
    var q := KillQuietly(s, i, why);
    KillSettles(s, i, why);
    KillQuietlyForm(s, i, why);
    FateMet(s, i, why, i);
    if i == s.current { ScheduleTask(q, i); }
  }

  /** The action of a tick switches tasks only if it kills the running one. */
  lemma ActStays(s: State, inp: TickInput)
    requires Core(s) && Act(s, inp).tasks[s.current].state != Dead
    ensures Act(s, inp).current == s.current
  {
    if s.clock.activity == MappingDemoPage && s.current != 0 && inp.fault {
      var s1 := s.(cr3 := 0);
      AlikeSettled(s, s1);
      KillIsFatal(s1, s.current, UserPageFault);
    }
  }

  lemma ActKeeps(s: State, inp: TickInput, Q: State -> bool, sc: Scope)
    requires Live(s) && Q(s) && Stable(Q, sc) && (sc.kills || !Strikes(s, inp)) && (Accesses(s) ==> Q(s.(cr3 := 0)))
    ensures Live(Act(s, inp)) && Q(Act(s, inp))
  {
    if s.clock.activity == MappingDemoPage {
      MemDemoKeeps(s, inp, Q, sc);
    } else {
      QuietActNoted(s, inp);
      NoteKeeps(s, Act(s, inp), Q, sc);
    }
  }

  /** The timer, the allocation of a frame, or nothing. */
  lemma QuietActNoted(s: State, inp: TickInput)
    requires Shape(s) && s.clock.activity != MappingDemoPage
    ensures Notes(s, Act(s, inp)) && Act(s, inp).tasks == s.tasks
  {
    ClockNoted(s, Act(s, inp));
  }

  /** The running task's slice after a charge that does not schedule. */
  lemma SliceNoted(s: State, used: nat)
    requires Shape(s) && s.tasks[s.current].state == Running
    ensures var r := SetTask(s, s.current, s.tasks[s.current].(slice := used));
      Notes(s, r) && Notes(s, Emit(r, QuantumExpired(s.tasks[s.current].id, s.tasks[s.current].slice + 1)))
  {
    var r := SetTask(s, s.current, s.tasks[s.current].(slice := used));
    LocalNoted(s, r, s.current);
    LocalNoted(s, Emit(r, QuantumExpired(s.tasks[s.current].id, s.tasks[s.current].slice + 1)), s.current);
  }

  lemma ChargeKeeps(s: State, Q: State -> bool, sc: Scope)
    requires Live(s) && Q(s) && Stable(Q, sc)
    ensures Live(ChargeSlice(s)) && Q(ChargeSlice(s))
  {
    var t := s.tasks[s.current];
    SliceNoted(s, t.slice + 1);
    if t.slice + 1 < s.config.quantum {
      NoteKeeps(s, ChargeSlice(s), Q, sc);
    } else if s.ready == [] {
      RenewKeeps(s, Q, sc);
    } else {
      PreemptForm(s);
      PreemptKeeps(s, Q, sc);
    }
  }

  lemma RenewForm(s: State)
    requires Shape(s) && s.ready == [] && s.tasks[s.current].slice + 1 >= s.config.quantum
    ensures var t := s.tasks[s.current];
      ChargeSlice(s) == Emit(SetTask(s, s.current, t.(slice := 0)), QuantumExpired(t.id, t.slice + 1))
  {
    var t := s.tasks[s.current];
    SetTaskTwice(s, s.current, t.(slice := t.slice + 1), t.(slice := 0));
  }

  /** An expired quantum with nobody else ready is renewed. */
  lemma RenewKeeps(s: State, Q: State -> bool, sc: Scope)
    requires Live(s) && Q(s) && Stable(Q, sc) && s.ready == []
    requires s.tasks[s.current].slice + 1 >= s.config.quantum
    ensures Live(ChargeSlice(s)) && Q(ChargeSlice(s))
  {
    SliceNoted(s, 0);
    RenewForm(s);
    NoteKeeps(s, ChargeSlice(s), Q, sc);
  }

  /** The state in which an expired quantum is noticed. */
  function Expired(s: State): State
    requires Shape(s)
  {
    var t := s.tasks[s.current];
    Emit(SetTask(s, s.current, t.(slice := t.slice + 1)), QuantumExpired(t.id, t.slice + 1))
  }

  lemma PreemptForm(s: State)
    requires Shape(s) && s.ready != [] && s.tasks[s.current].slice + 1 >= s.config.quantum
    ensures ChargeSlice(s) == Schedule(Expired(s))
  {
  }

  /** An expired quantum with somebody ready ends in a schedule. */
  lemma PreemptKeeps(s: State, Q: State -> bool, sc: Scope)
    requires Live(s) && Q(s) && Stable(Q, sc)
    ensures Live(Schedule(Expired(s))) && Q(Schedule(Expired(s)))
  {
    SliceNoted(s, s.tasks[s.current].slice + 1);
    assert Notes(s, Expired(s));
    ScheduleKeeps(Expired(s), Q, sc);
  }

  lemma RuntimeNoted(s: State, i: nat)
    requires i < |s.tasks|
    ensures Noted(s, UpdateRuntime(s, i))
    ensures forall j: nat {:trigger UpdateRuntime(s, i).tasks[j]} :: j < |s.tasks| ==>
      UpdateRuntime(s, i).tasks[j].slice == s.tasks[j].slice
  {
    LocalNoted(s, UpdateRuntime(s, i), i);
  }

  /** The end of a tick: run time, and the slice of a task that still runs. */
  function Account(s: State, ran: nat): State
    requires Shape(s) && ran < |s.tasks|
  {
    var s3 := UpdateRuntime(s, ran);
    if ran == s3.current && s3.tasks[ran].state == Running then ChargeSlice(s3) else s3
  }

  lemma AccountKeeps(s: State, ran: nat, Q: State -> bool, sc: Scope)
    requires Live(s) && Q(s) && Stable(Q, sc) && sc.charges && ran < |s.tasks|
    ensures Live(Account(s, ran)) && Q(Account(s, ran))
  {
    RuntimeNoted(s, ran);
    var s3 := UpdateRuntime(s, ran);
    assert Charges(s, ran, s3);
    assert SameButSlice(s.tasks[s.current], s3.tasks[s.current]);
    ChargeKeeps(s3, Q, sc);
  }

  lemma IssueKeeps(s: State, inp: TickInput, Q: State -> bool, sc: Scope)
    requires Live(s) && Q(s) && Stable(Q, sc) && (sc.kills || !Hooked(UserStep(s, s.current, inp.choice), inp))
    requires Replying(UserStep(s, s.current, inp.choice)) ==> sc.replies
    ensures var r := HandlePending(UserStep(s, s.current, inp.choice), inp); Live(r) && Q(r)
  {
    UserStepNoted(s, s.current, inp.choice);
    NoteKeeps(s, UserStep(s, s.current, inp.choice), Q, sc);
    PendingKeeps(UserStep(s, s.current, inp.choice), inp, Q, sc);
  }

  lemma ServeForm(s: State, inp: TickInput)
    requires Shape(s)
    ensures var m := HandlePending(UserStep(s, s.current, inp.choice), inp);
      Serve(s, s.current, inp) == if m.clock.panicked then m else Account(m, s.current)
  {
  }

  lemma ServeKeeps(s: State, inp: TickInput, Q: State -> bool, sc: Scope)
    requires Live(s) && Q(s) && Stable(Q, sc) && (sc.kills || !Hooked(UserStep(s, s.current, inp.choice), inp))
    requires sc.charges && (Replying(UserStep(s, s.current, inp.choice)) ==> sc.replies)
    ensures Live(Serve(s, s.current, inp)) && Q(Serve(s, s.current, inp))
  {
    ServeForm(s, inp);
    IssueKeeps(s, inp, Q, sc);
    AccountKeeps(HandlePending(UserStep(s, s.current, inp.choice), inp), s.current, Q, sc);
  }

  /** The state in which the running task's call of this tick is due. */
  function Chosen(s: State, inp: TickInput): (u: State)
    requires Shape(s)
    ensures Sized(s, u) && Shape(u)
  {
    var a := Act(StartTick(s), inp);
    UserStep(a, a.current, inp.choice)
  }

  /** The tick gets to the running task's call. */
  predicate Serves(s: State, inp: TickInput)
    requires Shape(s)
  {
    var a := Act(StartTick(s), inp);
    !s.clock.halted && !a.clock.panicked && a.tasks[s.current].state != Dead
  }

  /** Somebody is killed in the tick. */
  predicate Fatal(s: State, inp: TickInput)
    requires Shape(s)
  {
    Strikes(s, inp) || (Serves(s, inp) && Hooked(Chosen(s, inp), inp))
  }

  lemma ActedKeeps(s: State, inp: TickInput, Q: State -> bool, sc: Scope)
    requires Live(s) && Q(s) && Stable(Q, sc) && (sc.kills || !Strikes(s, inp)) && !s.clock.halted
    requires Accesses(s) ==> sc.grounds || Q(StartTick(s).(cr3 := 0))
    ensures var a := Act(StartTick(s), inp);
      Live(a) && Q(a) && (a.tasks[s.current].state != Dead ==> a.current == s.current)
  {
    var s0 := StartTick(s);
    ClockNoted(s, s0);
    NoteKeeps(s, s0, Q, sc);
    if Accesses(s) && sc.grounds { GroundKeeps(s0, Q, sc); }
    ActKeeps(s0, inp, Q, sc);
    SettledHere(s0, Q, sc);
    if Act(s0, inp).tasks[s.current].state != Dead { ActStays(s0, inp); }
  }

  lemma TickStable(s: State, inp: TickInput, Q: State -> bool, sc: Scope)
    requires Live(s) && Q(s) && Stable(Q, sc) && (sc.kills || !Fatal(s, inp))
    requires sc.charges && (Serves(s, inp) && Replying(Chosen(s, inp)) ==> sc.replies)
    requires Accesses(s) ==> sc.grounds || Q(StartTick(s).(cr3 := 0))
    ensures Live(Tick(s, inp)) && Q(Tick(s, inp))
  {
    if !s.clock.halted {
      ActedKeeps(s, inp, Q, sc);
      var s1 := Act(StartTick(s), inp);
      var next := NextActivity(s.clock.activity);
      if s1.tasks[s.current].state == Dead {
        ClockNoted(s1, SetActivity(s1, next));
        NoteKeeps(s1, SetActivity(s1, next), Q, sc);
      } else if !s1.clock.panicked {
        TickServes(s1, inp, next, Q, sc);
      }
    }
  }

  lemma TickServes(s: State, inp: TickInput, next: Activity, Q: State -> bool, sc: Scope)
    requires Live(s) && Q(s) && Stable(Q, sc) && (sc.kills || !Hooked(UserStep(s, s.current, inp.choice), inp))
    requires sc.charges && (Replying(UserStep(s, s.current, inp.choice)) ==> sc.replies)
    ensures var m := Serve(s, s.current, inp);
      var r := MaybeHalt(SetActivity(m, next));
      Live(m) && Q(m) && Live(r) && Q(r)
  {
    ServeKeeps(s, inp, Q, sc);
    var s2 := Serve(s, s.current, inp);
    ClockNoted(s2, SetActivity(s2, next));
    NoteKeeps(s2, SetActivity(s2, next), Q, sc);
    HaltKeeps(SetActivity(s2, next), Q, sc);
  }

  /** One tick: whatever the running task does and whoever is killed in it, the invariant
      and `P` hold again at its end, provided that what the tick does counts. */
  lemma TickKeeps(s: State, inp: TickInput, P: State -> bool, sc: Scope)
    requires Core(s) && P(s) && Inductive(P, sc) && (sc.kills || !Fatal(s, inp)) && sc.charges
    requires (Serves(s, inp) && Replying(Chosen(s, inp)) ==> sc.replies) && (Accesses(s) ==> sc.grounds || GroundOk(StartTick(s), P))
    ensures Core(Tick(s, inp)) && P(Tick(s, inp))
  {
    Strengthen(P, sc);
    var Q := (x: State) => Settled(x) && P(x);
    if Accesses(s) && !sc.grounds { AlikeSettled(s, StartTick(s).(cr3 := 0)); }
    TickStable(s, inp, Q, sc);
  }

  /** A return to the kernel root would keep `P`. */
  ghost predicate GroundOk(s: State, P: State -> bool) {
    P(s.(cr3 := 0))
  }

  /** What a tick does up to its call. */
  lemma IssuedKeeps(s: State, inp: TickInput, P: State -> bool, sc: Scope)
    requires Core(s) && P(s) && Inductive(P, sc) && (sc.kills || !Strikes(s, inp)) && sc.grounds && Serves(s, inp)
    ensures var u := Chosen(s, inp); u.current == s.current && Core(Issued(u)) && P(Issued(u))
  {
    Strengthen(P, sc);
    var Q := (x: State) => Settled(x) && P(x);
    ActedKeeps(s, inp, Q, sc);
    ChosenKeeps(Act(StartTick(s), inp), inp, Q, sc);
  }

  lemma ChosenKeeps(a: State, inp: TickInput, Q: State -> bool, sc: Scope)
    requires Live(a) && Q(a) && Stable(Q, sc)
    ensures var u := UserStep(a, a.current, inp.choice); Live(Issued(u)) && Q(Issued(u))
  {
    UserStepNoted(a, a.current, inp.choice);
    var u := UserStep(a, a.current, inp.choice);
    NoteKeeps(a, u, Q, sc);
    IssuedNoted(u);
    NoteKeeps(u, Issued(u), Q, sc);
  }

  /** What a tick does after its action. */
  lemma ServedKeeps(s: State, inp: TickInput, P: State -> bool)
    requires Shape(s) && Serves(s, inp) && Inductive(P, ALL)
    requires var a := Act(StartTick(s), inp); Core(a) && a.current == s.current && P(a)
    ensures P(Tick(s, inp))
  {
    Strengthen(P, ALL);
    TickServes(Act(StartTick(s), inp), inp, NextActivity(s.clock.activity), (x: State) => Settled(x) && P(x), ALL);
  }

  lemma RecvKept(x: State, e: nat, P: State -> bool, sc: Scope)
    requires Core(x) && P(x) && Inductive(P, sc)
    ensures Core(Recv(x, e)) && P(Recv(x, e))
  {
    Strengthen(P, sc);
    RecvKeeps(x, e, (y: State) => Settled(y) && P(y), sc);
  }

  /** What is left of a tick after its call. */
  function Ended(m: State, ran: nat, next: Activity): State
    requires Shape(m) && ran < |m.tasks|
  {
    MaybeHalt(SetActivity(Account(m, ran), next))
  }

  lemma EndedKeeps(m: State, ran: nat, next: Activity, P: State -> bool, sc: Scope)
    requires Core(m) && ran < |m.tasks| && P(m) && Inductive(P, sc) && sc.charges
    ensures P(Account(m, ran)) && P(Ended(m, ran, next))
  {
    Strengthen(P, sc);
    var Q := (x: State) => Settled(x) && P(x);
    AccountKeeps(m, ran, Q, sc);
    var r := Account(m, ran);
    ClockNoted(r, SetActivity(r, next));
    NoteKeeps(r, SetActivity(r, next), Q, sc);
    HaltKeeps(SetActivity(r, next), Q, sc);
  }

  /** One kill of a user task. */
  lemma KillStepKeeps(s: State, i: nat, why: KillReason, P: State -> bool, sc: Scope)
    requires Core(s) && P(s) && Inductive(P, sc) && sc.kills && i != 0 && (i < |s.tasks| || sc.misses)
    ensures Core(Kill(s, i, why)) && P(Kill(s, i, why))
  {
    Strengthen(P, sc);
    var Q := (x: State) => Settled(x) && P(x);
    KillKeeps(s, i, why, Q, sc);
  }
}
