/** The demo program on this kernel: client and server follow an exact timetable. */
module DemoRun {
  import opened KernelTypes
  import opened PageOps
  import opened KernelSpec
  import opened Holdings
  import opened Invariant
  import opened Steps
  import opened DemoTicks

  // ---------------------------------------------------------------------------
  // The timetable
  // ---------------------------------------------------------------------------

  /** What the demo shows of a task. */
  datatype Role = Role(state: TaskState, reason: Option<BlockedReason>, stage: nat,
                       lastMsg: Option<Word>, lastReply: Option<Word>, pendingMsg: Option<Word>)

  /** What the demo shows of the kernel. */
  datatype Scene = Scene(current: nat, ready: seq<nat>, client: Role, server: Role,
                         receiver: Option<nat>, senders: seq<nat>, repliers: seq<nat>, sent: bool)

  function RoleOf(t: Task): Role {
    Role(t.state, t.reason, t.stage, t.lastMsg, t.lastReply, t.pendingMsg)
  }

  function SceneOf(s: State): Scene
    requires |s.tasks| == 3 && |s.endpoints| == 2
  {
    var ep := s.endpoints[0];
    Scene(s.current, s.ready, RoleOf(s.tasks[1]), RoleOf(s.tasks[2]), ep.receiver, ep.senders, ep.repliers, s.sentByTask1)
  }

  /** The place of tick `t` in the timetable: an opening of eleven ticks, then a period of 24. */
  function Beat(t: nat): (b: nat)
    ensures b < 35
  {
    if t < 35 then t else Beat(t - 24)
  }

  /** The client's place in its memory demo. */
  function ClientStage(b: nat): nat {
    if b < 12 then 0 else if b < 16 then 1 else if b < 20 then 2 else if b < 24 then 0
    else if b < 28 then 1 else if b < 32 then 2 else 0
  }

  function IdleRole(state: TaskState, stage: nat): Role {
    Role(state, None, stage, None, None, None)
  }

  function SteadyScene(b: nat, answer: Word): Scene {
    Scene(1, [], IdleRole(Running, ClientStage(b)).(lastReply := if b == 10 || b == 18 then Some(answer) else None),
          IdleRole(Blocked, 1).(reason := Some(IpcRecv(0))), Some(2), [], [], true)
  }

  /** At beat `b`, where `msg` is the last message sent and `answer` its answer. The first
      call queues at tick 6; from tick 10 on the client runs and the server listens, except
      that every 24 ticks, at beat 16, the client sends, the server answers one tick later
      and listens again after two. */
  function SceneIn(b: nat, msg: Word, answer: Word): Scene {
    if b < 5 then Scene(0, [1, 2], IdleRole(Ready, 0), IdleRole(Ready, 0), None, [], [], false)
    else if b == 5 then Scene(1, [2], IdleRole(Running, 0), IdleRole(Ready, 0), None, [], [], false)
    else if b == 6 then
      Scene(2, [], IdleRole(Blocked, 0).(reason := Some(IpcSend(0)), pendingMsg := Some(msg)),
            IdleRole(Running, 0), None, [1], [], true)
    else if b == 7 then
      Scene(2, [], IdleRole(Blocked, 0).(reason := Some(IpcReply(3, 0))),
            IdleRole(Running, 0).(lastMsg := Some(msg)), None, [], [1], true)
    else if b == 8 then
      Scene(2, [], IdleRole(Blocked, 0).(reason := Some(IpcReply(3, 0))),
            IdleRole(Running, 1).(lastMsg := Some(msg)), None, [], [1], true)
    else if b == 9 then
      Scene(2, [1], IdleRole(Ready, 0).(lastReply := Some(answer)), IdleRole(Running, 1), None, [], [], true)
    else if b == 16 then
      Scene(2, [], IdleRole(Blocked, 2).(reason := Some(IpcReply(3, 0))),
            IdleRole(Running, 1).(lastMsg := Some(msg)), None, [], [1], true)
    else if b == 17 then
      Scene(2, [1], IdleRole(Ready, 2).(lastReply := Some(answer)), IdleRole(Running, 1), None, [], [], true)
    else SteadyScene(b, answer)
  }

  /** The running task's slice, where the timetable depends on it. */
  function SliceIn(b: nat): Option<nat> {
    if b < 5 then Some(b)
    else if 6 <= b <= 9 then Some(b - 6)
    else if b == 16 then Some(0)
    else if b == 17 then Some(1)
    else None
  }

  function ActivityIn(b: nat): Activity {
    if b % 4 == 0 then Idle else if b % 4 == 1 then UpdatingTimer else if b % 4 == 2 then AllocatingFrame else MappingDemoPage
  }

  /** What never changes during the demo. */
  predicate Stageset(s: State) {
    && |s.tasks| == 3 && |s.endpoints| == 2 && s.config.quantum == 5 && !s.config.pfDemo && !s.endpoints[0].closed
    && s.tasks[0].priority == 1 && s.tasks[1].priority == 3 && s.tasks[2].priority == 2
    && s.tasks[0].pendingCall == None && s.tasks[1].pendingCall == None && s.tasks[2].pendingCall == None
    && s.tasks[1].kind == UserSpace && s.tasks[2].kind == UserSpace && s.tasks[0].lastReply == None
    && s.tasks[1].space.rooted && s.tasks[2].space.rooted
  }

  /** The kernel is at beat `b`. */
  predicate AtBeat(s: State, b: nat, msg: Word, answer: Word) {
    && Stageset(s) && Shape(s) && Sane(s) && s.clock.activity == ActivityIn(b)
    && SceneOf(s) == SceneIn(b, msg, answer)
    && (SliceIn(b).Some? ==> s.tasks[s.current].slice == SliceIn(b).value)
  }

  /** An input of the demo: the built-in program, no fault, nobody killed. Frames may run
      out and page calls may return anything. */
  predicate DemoInput(inp: TickInput) {
    inp.choice == DemoProgram && Peaceful(inp)
  }

  // ---------------------------------------------------------------------------
  // What the programs do
  // ---------------------------------------------------------------------------

  /** `r` is `s` after a program step of its current task, up to page-call results. */
  predicate Acted(s: State, r: State, t: Task) {
    && |r.tasks| == |s.tasks| && s.current < |s.tasks| && r.current == s.current && r.ready == s.ready
    && r.endpoints == s.endpoints && r.config == s.config && r.clock == s.clock
    && r.tasks == s.tasks[s.current := r.tasks[s.current]] && SameTask(t, r.tasks[s.current])
  }

  lemma ClientIdles(a: State)
    requires |a.tasks| == 3 && a.current == 1 && a.tasks[1].state == Running && a.tasks[1].pendingCall == None
    requires a.sentByTask1 && (a.clock.tickCount % 8 != 0 || |a.endpoints| == 0 || a.endpoints[0].receiver == None)
    ensures var u := UserStep(a, 1, DemoProgram);
      Acted(a, u, a.tasks[1].(lastReply := None)) && u.sentByTask1
  {
  }

  lemma ClientCalls(a: State)
    requires |a.tasks| == 3 && a.current == 1 && a.tasks[1].state == Running && a.tasks[1].pendingCall == None
    requires |a.endpoints| > 0 && a.clock.tickCount > 0
    requires !a.sentByTask1 || (a.clock.tickCount % 8 == 0 && a.endpoints[0].receiver.Some?)
    ensures var u := UserStep(a, 1, DemoProgram);
      var msg := if a.sentByTask1 then PeriodicMessage(a.clock.tickCount) else KickMessage(a.clock.tickCount);
      Acted(a, u, a.tasks[1].(lastReply := None, pendingCall := Some(CallSend(0, msg)))) && u.sentByTask1
  {
  }

  lemma ServerActs(a: State)
    requires |a.tasks| == 3 && a.current == 2 && a.tasks[2].state == Running && a.tasks[2].pendingCall == None
    ensures var u := UserStep(a, 2, DemoProgram);
      var t := a.tasks[2];
      && u.sentByTask1 == a.sentByTask1
      && Acted(a, u, if t.lastMsg.Some? then t.(lastMsg := None, pendingCall := Some(CallReply(0, ServerReply(t.lastMsg.value))))
                     else t.(pendingCall := Some(CallRecv(0))))
  {
  }

  lemma IdleActs(a: State)
    requires |a.tasks| == 3 && a.current == 0 && a.tasks[0].state == Running && a.tasks[0].pendingCall == None
    ensures var u := UserStep(a, 0, DemoProgram);
      Acted(a, u, a.tasks[0].(lastReply := None)) && u.sentByTask1 == a.sentByTask1
  {
  }

  /** A page call already pending keeps the program from acting, and leaves a result. */
  lemma PageStalls(a: State, inp: TickInput)
    requires Shape(a) && a.tasks[a.current].state == Running && a.tasks[a.current].kind == UserSpace && !inp.killReceiver
    requires a.tasks[a.current].pendingCall == Some(CallPageMap(DemoPage(a.current), DEMO_FLAGS))
          || a.tasks[a.current].pendingCall == Some(CallPageUnmap(DemoPage(a.current)))
    ensures var h := HandlePending(UserStep(a, a.current, inp.choice), inp);
      Acted(a, h, a.tasks[a.current].(pendingCall := None)) && h.sentByTask1 == a.sentByTask1
  {
    CarriedForm(a, inp);
    var x := Issued(a);
    DemoPageCall(x, a.tasks[a.current].pendingCall.value, inp.tables);
    var h := PageCall(x, a.tasks[a.current].pendingCall.value, inp.tables);
    SetTaskTwice(a, a.current, x.tasks[a.current], h.tasks[a.current]);
  }

  /** The page calls of the demo return; all they change is the caller's memory and result. */
  lemma DemoPageCall(x: State, call: Syscall, n: nat)
    requires Shape(x) && x.tasks[x.current].kind == UserSpace
    requires call == CallPageMap(DemoPage(x.current), DEMO_FLAGS) || call == CallPageUnmap(DemoPage(x.current))
    ensures var h := PageCall(x, call, n);
      && h == x.(tasks := x.tasks[x.current := h.tasks[x.current]], taken := h.taken, history := h.history)
      && SameTask(x.tasks[x.current], h.tasks[x.current])
  {
    if call.CallPageMap? {
      MapForForm(x, x.current, DemoPage(x.current), DEMO_FLAGS, n);
      var (m, out) := MapFor(x, x.current, DemoPage(x.current), DEMO_FLAGS, n);
      LeftForm(x, m, out);
    } else {
      UnmapForForm(x, x.current, DemoPage(x.current));
      var (m, out) := UnmapFor(x, x.current, DemoPage(x.current));
      LeftForm(x, m, out);
    }
  }

  lemma LeftForm(x: State, m: State, out: Outcome)
    requires Shape(x) && OnlyMemory(x, m, x.current) && m.clock == x.clock
    ensures var h := LeaveResult(m, out);
      && h == x.(tasks := x.tasks[x.current := h.tasks[x.current]], taken := h.taken, history := h.history)
      && SameTask(x.tasks[x.current], h.tasks[x.current])
  {
    if out.Returned? {
      SetTaskTwice(x, x.current, m.tasks[x.current], m.tasks[x.current].(sysRet := Some(out.code), sysRetUnread := true));
    }
  }
}
