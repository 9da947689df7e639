/** Which call the log shows last: a tick logs a call exactly when the running task makes one. */
module CallLog {
  import opened KernelTypes
  import opened KernelSpec
  import opened Invariant
  import opened Links
  import opened IpcPaths
  import opened ReplyPath
  import opened Actions
  import opened Steps
  import opened Mailboxes

  /** The message of the last call of task `id`. */
  function LastCallBy(h: seq<Event>, id: TaskId): Option<Word> {
    if h == [] then None
    else
      match h[|h| - 1]
      case IpcSendCalled(t, _, msg) => if t == id then Some(msg) else LastCallBy(h[..|h| - 1], id)
      case _ => LastCallBy(h[..|h| - 1], id)
  }

  /** `h'` continues `h` without a call. */
  predicate Uncalled(h: seq<Event>, h': seq<Event>) {
    h <= h' && forall k :: |h| <= k < |h'| ==> !h'[k].IpcSendCalled?
  }

  lemma UncalledChain(h: seq<Event>, m: seq<Event>, h': seq<Event>)
    requires Uncalled(h, m) && Uncalled(m, h')
    ensures Uncalled(h, h')
  {
  }

  lemma {:induction false} LastCallKept(h: seq<Event>, h': seq<Event>, id: TaskId)
    requires Uncalled(h, h')
    ensures LastCallBy(h', id) == LastCallBy(h, id)
    decreases |h'|
  {
    if |h'| > |h| {
      LastCallKept(h, h'[..|h'| - 1], id);
    } else {
      assert h' == h;
    }
  }

  lemma LastCallIs(h: seq<Event>, id: TaskId, e: nat, msg: Word, h': seq<Event>)
    requires Uncalled(h + [IpcSendCalled(id, e, msg)], h')
    ensures LastCallBy(h', id) == Some(msg)
  {
    var m := h + [IpcSendCalled(id, e, msg)];
    assert m[|m| - 1] == IpcSendCalled(id, e, msg);
    LastCallKept(m, h', id);
  }

  // ---------------------------------------------------------------------------
  // The parts of a tick
  // ---------------------------------------------------------------------------

  /** A peaceful action is bookkeeping. */
  lemma ActNoted(s: State, inp: TickInput)
    requires Shape(s) && s.tasks[s.current].state != Dead && Peaceful(inp)
    ensures Noted(s, Act(s, inp)) && Act(s, inp).tasks[s.current].slice == s.tasks[s.current].slice
  {
    if s.clock.activity != MappingDemoPage {
      ClockNoted(s, Act(s, inp));
    } else if s.current == 0 {
      KernelMemDemoNoted(s, inp.tables);
    } else {
      UserActNoted(s, inp);
    }
  }

  lemma UserActNoted(s: State, inp: TickInput)
    requires Shape(s) && s.tasks[s.current].state != Dead && Peaceful(inp)
    ensures Noted(s, UserMemDemo(s, inp)) && UserMemDemo(s, inp).tasks[s.current].slice == s.tasks[s.current].slice
  {
    var t := s.tasks[s.current];
    if t.stage == 1 || (t.stage == 3 && s.config.pfDemo) {
      ClockNoted(s, Panic(s));
      LocalNoted(s, s, s.current);
      AccessNoted(s, 2);
      AccessNoted(s, 0);
    } else {
      UserMemDemoNoted(s, inp);
    }
  }

  lemma AccessNoted(s: State, stage: nat)
    requires Shape(s)
    ensures Noted(s, SetStage(s.(cr3 := 0), s.current, stage))
  {
    LocalNoted(s, SetStage(s.(cr3 := 0), s.current, stage), s.current);
  }

  lemma RecvUncalled(s: State, e: nat)
    requires Core(s)
    ensures Uncalled(s.history, Recv(s, e).history)
  {
    if Gate(s, e) == None {
      var s1 := Emit(s, IpcRecvCalled(s.tasks[s.current].id, e));
      AlikeSettled(s, s1);
      assert TaskOk(s1.tasks[s.current], s.current, |s.tasks|);
      RecvOpenUncalled(s1, e);
      UncalledChain(s.history, s1.history, RecvOpen(s1, e).history);
    }
  }

  lemma RecvOpenUncalled(s: State, e: nat)
    requires Calling(s, e)
    ensures Uncalled(s.history, RecvOpen(s, e).history)
  {
    RecvOpenIdeal(s, e);
    var q := s.endpoints[e].senders;
    if q != [] {
      TakenUncalled(s, e, q[|q| - 1]);
    } else if s.endpoints[e].receiver == None {
      ListenUncalled(s, e);
    }
  }

  lemma TakenUncalled(s: State, e: nat, x: nat)
    requires Shape(s) && e < |s.endpoints| && x < |s.tasks| && s.endpoints[e].senders != [] && s.tasks[x].pendingMsg.Some?
    ensures Uncalled(s.history, TakenFrom(s, e, x).history)
  {
  }

  lemma ListenUncalled(s: State, e: nat)
    requires Calling(s, e) && s.endpoints[e].receiver == None && s.endpoints[e].senders == []
    ensures Uncalled(s.history, Schedule(Listening(s, e)).history)
  {
    ListeningSettles(s, e);
    ScheduleUncalled(s.history, Listening(s, e));
  }

  lemma ScheduleUncalled(h: seq<Event>, s: State)
    requires Settled(s) && Uncalled(h, s.history)
    ensures Uncalled(h, Schedule(s).history)
  {
    ScheduleSilent(s);
    UncalledChain(h, s.history, Schedule(s).history);
  }

  lemma ReplyUncalled(s: State, e: nat, msg: Word)
    requires Core(s)
    ensures Uncalled(s.history, Reply(s, e, msg).history)
  {
    if Gate(s, e) == None {
      assert TaskOk(s.tasks[s.current], s.current, |s.tasks|);
      ReplyOpenUncalled(s, e, msg);
    }
  }

  lemma ReplyOpenUncalled(s: State, e: nat, msg: Word)
    requires Calling(s, e)
    ensures Uncalled(s.history, ReplyOpen(s, e, msg).history)
  {
    var q := s.endpoints[e].repliers;
    var k := LastMatch(s, q, s.tasks[s.current].id, e);
    if k < |q| {
      AnsweredForm(s, e, msg, k);
      AnsweredUncalled(s, e, k, msg);
    } else {
      MisdirectedForm(s, e, msg);
    }
  }

  lemma AnsweredUncalled(s: State, e: nat, k: nat, msg: Word)
    requires Shape(s) && e < |s.endpoints| && k < |s.endpoints[e].repliers| && s.endpoints[e].repliers[k] < |s.tasks|
    ensures Uncalled(s.history, Answered(s, e, k, msg).history)
  {
  }

  /** A call on an open endpoint is logged, and nothing is logged after it that would hide it. */
  lemma SendLogs(s: State, e: nat, msg: Word)
    requires Calling(s, e)
    ensures Uncalled(s.history + [IpcSendCalled(s.current + 1, e, msg)], Send(s, e, msg).history)
  {
    assert TaskOk(s.tasks[s.current], s.current, |s.tasks|);
    var ev := IpcSendCalled(s.current + 1, e, msg);
    EmitCalling(s, e, ev);
    assert Gate(s, e) == None && Send(s, e, msg) == SendOpen(Emit(s, ev), e, msg);
    SendOpenLogs(Emit(s, ev), e, msg);
  }

  lemma SendOpenLogs(s: State, e: nat, msg: Word)
    requires Calling(s, e)
    ensures Uncalled(s.history, SendOpen(s, e, msg).history)
  {
    SendOpenIdeal(s, e, msg);
    if s.endpoints[e].receiver.Some? {
      HandOverLogs(s, e, s.endpoints[e].receiver.value, msg);
    } else {
      QueueLogs(s, e, msg);
    }
  }

  lemma QueueLogs(s: State, e: nat, msg: Word)
    requires Calling(s, e) && s.endpoints[e].receiver == None
    ensures Uncalled(s.history, Schedule(Queued(s, e, msg)).history)
  {
    QueuedSettles(s, e, msg);
    ScheduleUncalled(s.history, Queued(s, e, msg));
  }

  lemma HandOverLogs(s: State, e: nat, x: nat, msg: Word)
    requires Calling(s, e) && s.endpoints[e].receiver == Some(x) && x < |s.tasks|
    ensures Uncalled(s.history, Schedule(HandedOver(s, e, x, msg)).history)
  {
    HandedOverSettles(s, e, x, msg);
    ScheduleUncalled(s.history, HandedOver(s, e, x, msg));
  }

  lemma ChargeUncalled(s: State)
    requires Core(s)
    ensures Uncalled(s.history, ChargeSlice(s).history)
  {
    if s.tasks[s.current].slice + 1 >= s.config.quantum && s.ready != [] {
      PreemptForm(s);
      ExpiredUncalled(s);
    }
  }

  lemma ExpiredUncalled(s: State)
    requires Core(s)
    ensures Uncalled(s.history, Schedule(Expired(s)).history)
  {
    SliceNoted(s, s.tasks[s.current].slice + 1);
    NotedSettled(s, Expired(s));
    ScheduleUncalled(s.history, Expired(s));
  }

  lemma AccountUncalled(s: State, ran: nat)
    requires Core(s) && ran < |s.tasks|
    ensures Uncalled(s.history, Account(s, ran).history)
  {
    RuntimeNoted(s, ran);
    var m := UpdateRuntime(s, ran);
    NotedSettled(s, m);
    ChargeUncalled(m);
    UncalledChain(s.history, m.history, Account(s, ran).history);
  }

  // ---------------------------------------------------------------------------
  // A tick
  // ---------------------------------------------------------------------------

  predicate Sends(u: State) {
    Shape(u) && u.tasks[u.current].pendingCall.Some? && u.tasks[u.current].pendingCall.value.CallSend?
  }

  lemma ChosenCore(s: State, inp: TickInput)
    requires Core(s) && Peaceful(inp)
    ensures var u := Chosen(s, inp);
      Core(u) && Uncalled(s.history, u.history) && u.current == s.current && Act(StartTick(s), inp).current == s.current
      && Act(StartTick(s), inp).tasks[s.current].state == Running
  {
    var s0 := StartTick(s);
    AlikeSettled(s, s0);
    ActNoted(s0, inp);
    var a := Act(s0, inp);
    NotedSettled(s0, a);
    assert SameButSlice(s0.tasks[s.current], a.tasks[s.current]);
    UserStepNoted(a, s.current, inp.choice);
    NotedSettled(a, UserStep(a, s.current, inp.choice));
    NotedUncalled(s0, a);
    NotedUncalled(a, UserStep(a, s.current, inp.choice));
    UncalledChain(s0.history, a.history, UserStep(a, s.current, inp.choice).history);
    UncalledChain(s.history, s0.history, UserStep(a, s.current, inp.choice).history);
  }

  lemma NotedUncalled(s: State, r: State)
    requires Noted(s, r)
    ensures Uncalled(s.history, r.history)
  {
  }

  lemma IssuingCore(u: State)
    requires Core(u)
    ensures Core(Issued(u)) && Uncalled(u.history, Issued(u).history)
  {
    AlikeSettled(u, Issued(u));
  }

  /** A tick without a send logs no call. */
  lemma PendingUncalled(u: State, inp: TickInput)
    requires Core(u) && Peaceful(inp) && !Sends(u)
    ensures Uncalled(u.history, HandlePending(u, inp).history)
  {
    var t := u.tasks[u.current];
    if t.pendingCall.Some? && !(t.kind == KernelSpace && IsIpc(t.pendingCall.value)) {
      IssuingCore(u);
      CarriedForm(u, inp);
      CarriedUncalled(Issued(u), t.pendingCall.value, inp);
      UncalledChain(u.history, Issued(u).history, HandlePending(u, inp).history);
    }
  }

  lemma CarriedUncalled(x: State, call: Syscall, inp: TickInput)
    requires Core(x) && !call.CallSend?
    ensures Uncalled(x.history, Carried(x, call, inp).history)
  {
    if call.CallRecv? {
      RecvUncalled(x, call.ep);
    } else if call.CallReply? {
      ReplyUncalled(x, call.ep, call.msg);
    } else {
      PageCallNoted(x, call, inp.tables);
      NotedUncalled(x, PageCall(x, call, inp.tables));
    }
  }

  /** After a peaceful tick that did not panic: the state before its account, and its history. */
  lemma TickHistory(s: State, inp: TickInput)
    requires Core(s) && Peaceful(inp) && !s.clock.halted && !Tick(s, inp).clock.panicked
    ensures Uncalled(HandlePending(Chosen(s, inp), inp).history, Tick(s, inp).history)
  {
    ChosenCore(s, inp);
    var u := Chosen(s, inp);
    var a := Act(StartTick(s), inp);
    ServeForm(a, inp);
    var m := HandlePending(u, inp);
    IssuedCore(u, inp);
    AccountUncalled(m, s.current);
  }

  lemma IssuedCore(u: State, inp: TickInput)
    requires Core(u)
    ensures Core(HandlePending(u, inp))
  {
    var P := (x: State) => true;
    Strengthen(P, ALL);
    PendingKeeps(u, inp, (x: State) => Settled(x) && P(x), ALL);
  }

  /** A peaceful tick without a send keeps every task's last call. */
  lemma TickKeepsCalls(s: State, inp: TickInput, id: TaskId)
    requires Core(s) && Peaceful(inp) && !s.clock.halted && !Tick(s, inp).clock.panicked && !Sends(Chosen(s, inp))
    ensures LastCallBy(Tick(s, inp).history, id) == LastCallBy(s.history, id)
  {
    ChosenCore(s, inp);
    TickHistory(s, inp);
    var u := Chosen(s, inp);
    PendingUncalled(u, inp);
    UncalledChain(s.history, u.history, HandlePending(u, inp).history);
    UncalledChain(s.history, HandlePending(u, inp).history, Tick(s, inp).history);
    LastCallKept(s.history, Tick(s, inp).history, id);
  }

  /** A peaceful tick with a send on an open endpoint makes its message the caller's last call. */
  lemma TickLogsCall(s: State, inp: TickInput, e: nat, msg: Word)
    requires Core(s) && Peaceful(inp) && !s.clock.halted && !Tick(s, inp).clock.panicked && s.current != 0
    requires Shape(Chosen(s, inp)) && Chosen(s, inp).current == s.current
    requires Chosen(s, inp).tasks[s.current].pendingCall == Some(CallSend(e, msg))
    requires e < |Chosen(s, inp).endpoints| && !Chosen(s, inp).endpoints[e].closed
    ensures LastCallBy(Tick(s, inp).history, s.current + 1) == Some(msg)
  {
    ChosenCore(s, inp);
    TickHistory(s, inp);
    var u := Chosen(s, inp);
    var x := Issued(u);
    IssuingCore(u);
    assert TaskOk(u.tasks[u.current], u.current, |u.tasks|);
    CarriedForm(u, inp);
    SendLogs(x, e, msg);
    UncalledChain(x.history + [IpcSendCalled(s.current + 1, e, msg)], Send(x, e, msg).history, Tick(s, inp).history);
    LastCallIs(x.history, s.current + 1, e, msg, Tick(s, inp).history);
  }
}
