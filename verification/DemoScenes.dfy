/** What each kind of tick does to the demo's scene. */
module DemoScenes {
  import opened KernelTypes
  import opened KernelSpec
  import opened Invariant
  import opened IpcPaths
  import opened Actions
  import opened Steps
  import opened DemoTicks
  import opened DemoCalls
  import opened DemoRun

  // ---------------------------------------------------------------------------
  // The scene after each kind of tick
  // ---------------------------------------------------------------------------

  function QueueScene(sc: Scene, msg: Word): Scene {
    sc.(current := 2, ready := [], senders := sc.senders + [1], sent := true,
        client := sc.client.(state := Blocked, reason := Some(IpcSend(0)), lastReply := None, pendingMsg := Some(msg)),
        server := sc.server.(state := Running, reason := None))
  }

  function SendScene(sc: Scene, msg: Word): Scene {
    sc.(current := 2, ready := [], receiver := None, repliers := sc.repliers + [1], sent := true,
        client := sc.client.(state := Blocked, reason := Some(IpcReply(3, 0)), lastReply := None, stage := 2),
        server := sc.server.(state := Running, reason := None, lastMsg := Some(msg)))
  }

  function TakeScene(sc: Scene): Scene {
    sc.(senders := [], repliers := sc.repliers + [1],
        client := sc.client.(state := Blocked, reason := Some(IpcReply(3, 0)), pendingMsg := None),
        server := sc.server.(lastMsg := sc.client.pendingMsg))
  }

  function AnswerScene(sc: Scene, answer: Word): Scene {
    sc.(ready := sc.ready + [1], repliers := [],
        client := sc.client.(state := Ready, reason := None, lastReply := Some(answer)),
        server := sc.server.(lastMsg := None))
  }

  function ListenScene(sc: Scene): Scene {
    sc.(current := 1, ready := [], receiver := Some(2), client := sc.client.(state := Running, reason := None),
        server := sc.server.(state := Blocked, reason := Some(IpcRecv(0))))
  }

  function SwitchScene(sc: Scene): Scene {
    sc.(current := 1, ready := [2], client := sc.client.(state := Running, reason := None))
  }

  function NextStage(r: Role): Role {
    r.(stage := (r.stage + 1) % 3)
  }

  function StallScene(sc: Scene): Scene {
    if sc.current == 1 then sc.(client := NextStage(sc.client)) else sc.(server := NextStage(sc.server))
  }

  function QuietScene(sc: Scene): Scene {
    sc.(client := sc.client.(lastReply := None))
  }

  function PassScene(sc: Scene): Scene {
    sc.(client := sc.client.(lastReply := None, stage := 2))
  }

  // ---------------------------------------------------------------------------
  // What a tick does to the scene, before it is accounted for
  // ---------------------------------------------------------------------------

  ghost predicate Poised(s: State, inp: TickInput) {
    Stageset(s) && Core(s) && !s.clock.halted && Sane(s) && DemoInput(inp)
  }

  /** The state after the action and the call of a tick. */
  function Played(s: State, inp: TickInput): State
    requires Shape(s)
  {
    var a := Begun(s, inp);
    if a.current < |a.tasks| then HandlePending(UserStep(a, a.current, inp.choice), inp) else a
  }

  predicate Lands(s: State, m: State, sc: Scene) {
    Stageset(m) && m.clock.tickCount == s.clock.tickCount + 1 && Sane(m) && SceneOf(m) == sc
  }

  predicate Continues(s: State, m: State) {
    s.current < |s.tasks| && s.current < |m.tasks| && m.current == s.current
    && m.tasks[m.current].state == Running && m.tasks[m.current].slice == s.tasks[s.current].slice
  }

  predicate TakesOver(m: State, i: nat) {
    i < |m.tasks| && m.current == i && m.tasks[i].slice == 0
  }

  /** When the memory demo has a page call to make, the program has to wait. */
  lemma StalledForm(s: State, inp: TickInput)
    requires Poised(s, inp) && s.current != 0 && s.clock.activity == MappingDemoPage
    requires s.tasks[s.current].stage == 0 || s.tasks[s.current].stage == 2
    ensures var m := Played(s, inp);
      && SameRest(s, m) && m.tasks == s.tasks[s.current := m.tasks[s.current]]
      && SameTask(s.tasks[s.current].(stage := (s.tasks[s.current].stage + 1) % 3), m.tasks[s.current])
      && m.clock.tickCount == s.clock.tickCount + 1 && Sane(m)
  {
    BegunDemo(s, inp);
    var a := Begun(s, inp);
    PageStalls(a, inp);
    StalledAct(s, a, Played(s, inp));
  }

  lemma StalledAct(s: State, a: State, m: State)
    requires Shape(s) && SameRest(s, a) && a.tasks == s.tasks[s.current := Demoed(s.tasks[s.current], s.current)] && NextTick(s, a)
    requires s.tasks[s.current].pendingCall == None && (s.tasks[s.current].stage == 0 || s.tasks[s.current].stage == 2)
    requires Acted(a, m, a.tasks[s.current].(pendingCall := None)) && m.sentByTask1 == a.sentByTask1 && Sane(s)
    ensures SameRest(s, m) && m.tasks == s.tasks[s.current := m.tasks[s.current]]
    ensures SameTask(s.tasks[s.current].(stage := (s.tasks[s.current].stage + 1) % 3), m.tasks[s.current])
    ensures m.clock.tickCount == s.clock.tickCount + 1 && Sane(m)
  {
    StalledTask(s.tasks[s.current], s.current);
  }

  lemma StalledTask(t: Task, i: nat)
    requires t.pendingCall == None && (t.stage == 0 || t.stage == 2)
    ensures Demoed(t, i).(pendingCall := None) == t.(stage := (t.stage + 1) % 3)
  {
  }

  lemma StalledScene(s: State, m: State)
    requires Stageset(s) && 0 < s.current < 3 && SameRest(s, m) && m.tasks == s.tasks[s.current := m.tasks[s.current]]
    requires SameTask(s.tasks[s.current].(stage := (s.tasks[s.current].stage + 1) % 3), m.tasks[s.current])
    requires s.tasks[s.current].state == Running && m.clock.tickCount == s.clock.tickCount + 1 && Sane(m)
    ensures Lands(s, m, StallScene(SceneOf(s)))
    ensures Continues(s, m)
  {
  }

  lemma ClientQuietPlay(s: State, inp: TickInput)
    requires Poised(s, inp) && s.current == 1 && s.clock.activity != MappingDemoPage
    requires s.sentByTask1 && (s.clock.tickCount + 1) % 8 != 0
    ensures Lands(s, Played(s, inp), QuietScene(SceneOf(s))) && Continues(s, Played(s, inp))
  {
    BegunQuiet(s, inp);
    ClientIdles(Begun(s, inp));
  }

  lemma ClientPassPlay(s: State, inp: TickInput)
    requires Poised(s, inp) && s.current == 1 && s.clock.activity == MappingDemoPage && s.tasks[1].stage == 1
    requires s.sentByTask1 && (s.clock.tickCount + 1) % 8 != 0
    ensures Lands(s, Played(s, inp), PassScene(SceneOf(s)))
    ensures Continues(s, Played(s, inp))
  {
    BegunDemo(s, inp);
    ClientIdles(Begun(s, inp));
  }

  /** `x` is `s` one tick later, when its current task, now `t` up to page-call results, is
      about to carry out an IPC call on the demo's endpoint. */
  ghost predicate Calls(s: State, x: State, t: Task) {
    Calling(x, 0) && Poses(s, x, t)
  }

  predicate Poses(s: State, x: State, t: Task) {
    && Stageset(s) && Shape(s) && SameRest(s, x.(sentByTask1 := s.sentByTask1))
    && x.tasks == s.tasks[s.current := x.tasks[s.current]] && SameTask(t, x.tasks[s.current])
    && t.priority == s.tasks[s.current].priority && t.kind == s.tasks[s.current].kind && t.pendingCall == None
    && x.clock.tickCount == s.clock.tickCount + 1 && Sane(x)
  }

  /** A program that has chosen an IPC call is about to make it. */
  lemma AboutToCall(s: State, a: State, t: Task, u: State)
    requires Core(s) && Stageset(s) && s.current != 0 && SameRest(s, a)
    requires a.tasks == s.tasks[s.current := a.tasks[s.current]] && SameControl(s.tasks[s.current], a.tasks[s.current])
    requires a.clock.tickCount == s.clock.tickCount + 1 && Sane(a)
    requires Acted(a, u, t) && SameControl(a.tasks[s.current], t)
    ensures Calls(s, Issued(u), t.(pendingCall := None)) && Issued(u).sentByTask1 == u.sentByTask1
  {
    AlikeSettled(s, Issued(u));
  }

  lemma QuietClientCalls(s: State, inp: TickInput)
    requires Poised(s, inp) && s.current == 1 && s.clock.activity != MappingDemoPage && !s.sentByTask1
    ensures var x := Issued(UserStep(Begun(s, inp), 1, DemoProgram));
      && Calls(s, x, s.tasks[1].(lastReply := None)) && x.sentByTask1
      && Played(s, inp) == Send(x, 0, KickMessage(s.clock.tickCount + 1))
  {
    BegunQuiet(s, inp);
    var a := Begun(s, inp);
    ClientCalls(a);
    var u := UserStep(a, 1, DemoProgram);
    AboutToCall(s, a, a.tasks[1].(lastReply := None, pendingCall := Some(CallSend(0, KickMessage(s.clock.tickCount + 1)))), u);
    CarriedForm(u, inp);
  }

  lemma DemoClientCalls(s: State, inp: TickInput)
    requires Poised(s, inp) && s.current == 1 && s.clock.activity == MappingDemoPage && s.tasks[1].stage == 1
    requires s.sentByTask1 && s.endpoints[0].receiver.Some? && (s.clock.tickCount + 1) % 8 == 0
    ensures var x := Issued(UserStep(Begun(s, inp), 1, DemoProgram));
      && Calls(s, x, s.tasks[1].(lastReply := None, stage := 2)) && x.sentByTask1
      && Played(s, inp) == Send(x, 0, PeriodicMessage(s.clock.tickCount + 1))
  {
    BegunDemo(s, inp);
    var a := Begun(s, inp);
    ClientCalls(a);
    var u := UserStep(a, 1, DemoProgram);
    AboutToCall(s, a, a.tasks[1].(lastReply := None, pendingCall := Some(CallSend(0, PeriodicMessage(s.clock.tickCount + 1)))), u);
    CarriedForm(u, inp);
  }

  lemma ServerCalls(s: State, inp: TickInput)
    requires Poised(s, inp) && s.current == 2 && s.clock.activity != MappingDemoPage
    ensures var x := Issued(UserStep(Begun(s, inp), 2, DemoProgram));
      && Calls(s, x, s.tasks[2].(lastMsg := None)) && x.sentByTask1 == s.sentByTask1
      && Played(s, inp) == if s.tasks[2].lastMsg.Some? then Reply(x, 0, ServerReply(s.tasks[2].lastMsg.value)) else Recv(x, 0)
  {
    BegunQuiet(s, inp);
    var a := Begun(s, inp);
    ServerActs(a);
    var u := UserStep(a, 2, DemoProgram);
    var t := a.tasks[2];
    AboutToCall(s, a, if t.lastMsg.Some? then t.(lastMsg := None, pendingCall := Some(CallReply(0, ServerReply(t.lastMsg.value))))
                      else t.(pendingCall := Some(CallRecv(0))), u);
    CarriedForm(u, inp);
  }

  /** The first call finds no receiver: it queues, and the server takes over. */
  lemma QueuesScene(s: State, x: State, msg: Word)
    requires Stageset(s) && Calls(s, x, s.tasks[1].(lastReply := None)) && s.current == 1 && s.ready == [2] && x.sentByTask1
    requires s.endpoints[0].receiver == None
    ensures Lands(s, Send(x, 0, msg), QueueScene(SceneOf(s), msg))
    ensures TakesOver(Send(x, 0, msg), 2)
  {
    SendQueues(x, 0, msg, 2);
  }

  /** Later calls find the server listening: it takes over with the message. */
  lemma SendsScene(s: State, x: State, msg: Word)
    requires Stageset(s) && Calls(s, x, s.tasks[1].(lastReply := None, stage := 2)) && s.current == 1 && s.ready == [] && x.sentByTask1
    requires s.endpoints[0].receiver == Some(2)
    ensures Lands(s, Send(x, 0, msg), SendScene(SceneOf(s), msg))
    ensures TakesOver(Send(x, 0, msg), 2)
  {
    SendHands(x, 0, msg, 2);
  }

  /** The server takes the queued message and runs on. */
  lemma TakesScene(s: State, x: State)
    requires Stageset(s) && Calls(s, x, s.tasks[2].(lastMsg := None)) && s.current == 2 && x.sentByTask1 == s.sentByTask1
    requires s.endpoints[0].senders == [1] && s.tasks[2].state == Running
    ensures Lands(s, Recv(x, 0), TakeScene(SceneOf(s)))
    ensures Continues(s, Recv(x, 0))
  {
    RecvTakes(x, 0, 1);
  }

  /** The server answers the waiting client and runs on. */
  lemma AnswersScene(s: State, x: State, msg: Word)
    requires Stageset(s) && Calls(s, x, s.tasks[2].(lastMsg := None)) && s.current == 2 && x.sentByTask1 == s.sentByTask1
    requires s.endpoints[0].repliers == [1] && s.tasks[2].state == Running
    requires s.tasks[1].state == Blocked && s.tasks[1].reason == Some(IpcReply(3, 0))
    ensures Lands(s, Reply(x, 0, msg), AnswerScene(SceneOf(s), msg))
    ensures Continues(s, Reply(x, 0, msg))
  {
    ReplyAnswers(x, 0, msg, 1);
  }

  /** The server listens again and the client takes over. */
  lemma ListensScene(s: State, x: State)
    requires Stageset(s) && Calls(s, x, s.tasks[2].(lastMsg := None)) && s.current == 2 && x.sentByTask1 == s.sentByTask1
    requires s.ready == [1] && s.tasks[2].lastMsg == None && s.endpoints[0].senders == [] && s.endpoints[0].receiver == None
    ensures Lands(s, Recv(x, 0), ListenScene(SceneOf(s)))
    ensures TakesOver(Recv(x, 0), 1)
  {
    RecvListens(x, 0, 1);
    ListenedScene(s, x, Recv(x, 0));
  }

  lemma ListenedScene(s: State, x: State, r: State)
    requires Stageset(s) && Poses(s, x, s.tasks[2].(lastMsg := None)) && s.current == 2 && x.sentByTask1 == s.sentByTask1
    requires s.tasks[2].lastMsg == None && SameFrame(x, r)
    requires Leaves(r, x.tasks[2 := Parked(x.tasks[2], IpcRecv(0))][1 := Dispatched(x.tasks[1])],
                    1, [], x.endpoints[0 := x.endpoints[0].(receiver := Some(2))])
    ensures Lands(s, r, ListenScene(SceneOf(s))) && TakesOver(r, 1)
  {
  }

  // ---------------------------------------------------------------------------
  // Whole ticks
  // ---------------------------------------------------------------------------

  lemma PlayedTick(s: State, inp: TickInput)
    requires Poised(s, inp) && !Begun(s, inp).clock.panicked && !Played(s, inp).clock.panicked
    ensures var r := Account(Played(s, inp), s.current);
      Tick(s, inp) == if r.clock.panicked then r else MaybeHalt(SetActivity(r, NextActivity(s.clock.activity)))
  {
    if s.clock.activity != MappingDemoPage {
      BegunQuiet(s, inp);
    } else if s.current == 0 {
      BegunIdle(s, inp);
    } else {
      assert s.tasks[s.current].kind == UserSpace;
      BegunDemo(s, inp);
    }
    TickForm(s, inp);
  }

  /** Only the idle task's memory demo can panic. */
  lemma BegunSane(s: State, inp: TickInput)
    requires Poised(s, inp) && (s.current != 0 || s.clock.activity != MappingDemoPage)
    ensures !Begun(s, inp).clock.panicked
  {
    if s.clock.activity != MappingDemoPage {
      BegunQuiet(s, inp);
    } else {
      assert s.tasks[s.current].kind == UserSpace;
      BegunDemo(s, inp);
    }
  }

  lemma Alive(m: State)
    requires |m.tasks| == 3 && m.tasks[1].state != Dead && m.tasks[1].kind == UserSpace
    ensures UserAlive(m)
  {
  }

  /** Run times, slices and page-call results are not part of the scene. */
  lemma SameScene(m: State, r: State)
    requires Stageset(m) && SameRest(m, r)
    requires forall j: nat {:trigger r.tasks[j]} :: j < 3 ==> SameTask(m.tasks[j].(slice := r.tasks[j].slice), r.tasks[j])
    ensures Stageset(r) && SceneOf(r) == SceneOf(m)
  {
    assert SameTask(m.tasks[0].(slice := r.tasks[0].slice), r.tasks[0]);
    assert SameTask(m.tasks[1].(slice := r.tasks[1].slice), r.tasks[1]);
    assert SameTask(m.tasks[2].(slice := r.tasks[2].slice), r.tasks[2]);
  }

  /** The task that ran is still running. */
  lemma FinishRunning(s: State, m: State, next: Activity, sc: Scene)
    requires Shape(s) && Lands(s, m, sc) && Continues(s, m) && (s.tasks[s.current].slice < 4 || sc.ready == [])
    requires sc.client.state != Dead
    ensures var r := MaybeHalt(SetActivity(Account(m, s.current), next));
      && Lands(s, r, sc) && r.clock.activity == next && Shape(r)
      && r.tasks[r.current].slice == Charged(s.tasks[s.current].slice, 5)
  {
    Alive(m);
    CloseRunning(m, next);
    RanOn(s, m, MaybeHalt(SetActivity(Account(m, s.current), next)), next, sc);
  }

  lemma RanOn(s: State, m: State, r: State, next: Activity, sc: Scene)
    requires Shape(s) && Lands(s, m, sc) && Continues(s, m) && SameRest(m, r) && r.clock == m.clock.(activity := next)
    requires forall j: nat {:trigger r.tasks[j]} :: j < |m.tasks| && j != m.current ==> r.tasks[j] == m.tasks[j]
    requires SameTask(m.tasks[m.current].(slice := Charged(m.tasks[m.current].slice, m.config.quantum)), r.tasks[m.current])
    ensures Lands(s, r, sc) && r.clock.activity == next && Shape(r) && r.tasks[r.current].slice == Charged(s.tasks[s.current].slice, 5)
  {
    SameScene(m, r);
  }

  /** Another task has taken over. */
  lemma FinishSwitched(s: State, m: State, next: Activity, sc: Scene, i: nat)
    requires Shape(s) && Lands(s, m, sc) && TakesOver(m, i) && |s.tasks| == 3 && s.current != i
    requires sc.client.state != Dead
    ensures var r := MaybeHalt(SetActivity(Account(m, s.current), next));
      && Lands(s, r, sc) && r.clock.activity == next && Shape(r) && r.tasks[r.current].slice == 0
  {
    Alive(m);
    CloseSwitched(m, s.current, next);
    SameScene(m, MaybeHalt(SetActivity(Account(m, s.current), next)));
  }

  /** `r` is the state one tick after `s`, with scene `sc`. */
  predicate After(s: State, r: State, sc: Scene, slice: nat) {
    Lands(s, r, sc) && r.clock.activity == NextActivity(s.clock.activity) && Shape(r) && r.tasks[r.current].slice == slice
  }

  lemma RunsOn(s: State, inp: TickInput, sc: Scene)
    requires Poised(s, inp) && Lands(s, Played(s, inp), sc) && Continues(s, Played(s, inp)) && sc.client.state != Dead
    requires (s.tasks[s.current].slice < 4 || sc.ready == []) && !Begun(s, inp).clock.panicked
    ensures After(s, Tick(s, inp), sc, Charged(s.tasks[s.current].slice, 5))
  {
    PlayedTick(s, inp);
    FinishRunning(s, Played(s, inp), NextActivity(s.clock.activity), sc);
  }

  lemma HandsOn(s: State, inp: TickInput, sc: Scene, i: nat)
    requires Poised(s, inp) && Lands(s, Played(s, inp), sc) && TakesOver(Played(s, inp), i) && s.current != i
    requires sc.client.state != Dead && s.current != 0
    ensures After(s, Tick(s, inp), sc, 0)
  {
    BegunSane(s, inp);
    PlayedTick(s, inp);
    FinishSwitched(s, Played(s, inp), NextActivity(s.clock.activity), sc, i);
  }

  /** The first quantum of the idle task ends, and the client takes over. */
  lemma FirstSwitch(s: State, inp: TickInput)
    requires Poised(s, inp) && s.current == 0 && s.ready == [1, 2] && s.tasks[0].slice == 4 && s.clock.activity != MappingDemoPage
    ensures var r := Tick(s, inp);
      After(s, r, SwitchScene(SceneOf(s)), 0)
  {
    BegunSane(s, inp);
    IdleForm(s, inp);
    PlayedTick(s, inp);
    var u := Played(s, inp);
    AlikeSettled(s, u);
    PreemptScene(u, NextActivity(s.clock.activity));
  }

  lemma IdleForm(s: State, inp: TickInput)
    requires Poised(s, inp) && s.current == 0 && !Begun(s, inp).clock.panicked
    ensures Alike(s, Played(s, inp)) && Continues(s, Played(s, inp)) && Lands(s, Played(s, inp), SceneOf(s))
  {
    if s.clock.activity != MappingDemoPage { BegunQuiet(s, inp); } else { BegunIdle(s, inp); }
    var a := Begun(s, inp);
    IdleActs(a);
    var u := UserStep(a, 0, DemoProgram);
    IdlePlayed(s, a, u);
    assert HandlePending(u, inp) == u;
  }

  lemma IdlePlayed(s: State, a: State, u: State)
    requires Stageset(s) && Sane(s) && s.current == 0 && s.tasks[0].state == Running
    requires SameRest(s, a) && a.tasks == s.tasks[0 := a.tasks[0]] && SameTask(s.tasks[0], a.tasks[0]) && NextTick(s, a)
    requires Acted(a, u, a.tasks[0].(lastReply := None)) && u.sentByTask1 == a.sentByTask1
    ensures Alike(s, u) && Continues(s, u) && Lands(s, u, SceneOf(s)) && u.tasks[0].pendingCall == None
  {
    assert u.tasks[1] == s.tasks[1] && u.tasks[2] == s.tasks[2];
  }

  lemma PreemptScene(u: State, next: Activity)
    requires Settled(u) && Stageset(u) && u.current == 0 && u.ready == [1, 2] && u.tasks[0].slice == 4 && Sane(u)
    requires u.tasks[0].state == Running
    ensures var r := MaybeHalt(SetActivity(Account(u, 0), next));
      && Stageset(r) && r.clock == u.clock.(activity := next) && Shape(r) && r.tasks[r.current].slice == 0
      && SceneOf(r) == SwitchScene(SceneOf(u))
    ensures Account(u, 0).clock == u.clock
  {
    var m := UpdateRuntime(u, 0);
    RuntimeNoted(u, 0);
    NotedSettled(u, m);
    PreemptForm(m);
    var x := Expired(m);
    SliceNoted(m, m.tasks[0].slice + 1);
    NotedSettled(m, x);
    ScheduleFirst(x, 1, 2);
    assert Account(u, 0) == Schedule(x);
    Alive(SetActivity(Schedule(x), next));
  }

  lemma IdleTick(s: State, inp: TickInput)
    requires Poised(s, inp) && s.current == 0 && s.tasks[0].slice < 4 && s.tasks[1].state != Dead
    ensures Panics(s, Tick(s, inp)) || After(s, Tick(s, inp), SceneOf(s), s.tasks[0].slice + 1)
  {
    if Begun(s, inp).clock.panicked {
      if s.clock.activity != MappingDemoPage { BegunQuiet(s, inp); } else { BegunIdle(s, inp); }
    } else {
      IdleForm(s, inp);
      RunsOn(s, inp, SceneOf(s));
    }
  }

  /** The tick ended in a panic of the idle task's memory demo. */
  predicate Panics(s: State, r: State) {
    s.clock.activity == MappingDemoPage && r.clock.panicked && r.clock.tickCount == s.clock.tickCount + 1
  }

  /** When the memory demo has a page call to make, the program has to wait. */
  lemma StalledTick(s: State, inp: TickInput)
    requires Poised(s, inp) && s.current != 0 && s.clock.activity == MappingDemoPage && s.ready == []
    requires s.tasks[s.current].stage == 0 || s.tasks[s.current].stage == 2
    requires s.tasks[1].state != Dead
    ensures After(s, Tick(s, inp), StallScene(SceneOf(s)), Charged(s.tasks[s.current].slice, 5))
  {
    StalledForm(s, inp);
    StalledScene(s, Played(s, inp));
    BegunSane(s, inp);
    RunsOn(s, inp, StallScene(SceneOf(s)));
  }

  /** The client has nothing to say. */
  lemma QuietTick(s: State, inp: TickInput)
    requires Poised(s, inp) && s.current == 1 && s.clock.activity != MappingDemoPage && s.ready == []
    requires s.sentByTask1 && (s.clock.tickCount + 1) % 8 != 0
    ensures After(s, Tick(s, inp), QuietScene(SceneOf(s)), Charged(s.tasks[1].slice, 5))
  {
    ClientQuietPlay(s, inp);
    BegunSane(s, inp);
    RunsOn(s, inp, QuietScene(SceneOf(s)));
  }

  lemma PassTick(s: State, inp: TickInput)
    requires Poised(s, inp) && s.current == 1 && s.clock.activity == MappingDemoPage && s.tasks[1].stage == 1 && s.ready == []
    requires s.sentByTask1 && (s.clock.tickCount + 1) % 8 != 0
    ensures After(s, Tick(s, inp), PassScene(SceneOf(s)),
                  Charged(s.tasks[1].slice, 5))
  {
    ClientPassPlay(s, inp);
    BegunSane(s, inp);
    RunsOn(s, inp, PassScene(SceneOf(s)));
  }

  /** The first call queues, and the server takes over. */
  lemma QueueTick(s: State, inp: TickInput, msg: Word)
    requires Poised(s, inp) && s.current == 1 && s.clock.activity != MappingDemoPage && s.ready == [2]
    requires !s.sentByTask1 && s.endpoints[0].receiver == None && msg == KickMessage(s.clock.tickCount + 1)
    ensures After(s, Tick(s, inp), QueueScene(SceneOf(s), msg), 0)
  {
    QuietClientCalls(s, inp);
    QueuesScene(s, Issued(UserStep(Begun(s, inp), 1, DemoProgram)), msg);
    HandsOn(s, inp, QueueScene(SceneOf(s), msg), 2);
  }

  /** A later call finds the server listening: it takes over with the message. */
  lemma SendTick(s: State, inp: TickInput, msg: Word)
    requires Poised(s, inp) && s.current == 1 && s.clock.activity == MappingDemoPage && s.tasks[1].stage == 1 && s.ready == []
    requires s.sentByTask1 && s.endpoints[0].receiver == Some(2) && (s.clock.tickCount + 1) % 8 == 0
    requires msg == PeriodicMessage(s.clock.tickCount + 1)
    ensures After(s, Tick(s, inp), SendScene(SceneOf(s), msg), 0)
  {
    DemoClientCalls(s, inp);
    SendsScene(s, Issued(UserStep(Begun(s, inp), 1, DemoProgram)), msg);
    HandsOn(s, inp, SendScene(SceneOf(s), msg), 2);
  }

  /** The server takes the queued message and runs on. */
  lemma TakeTick(s: State, inp: TickInput)
    requires Poised(s, inp) && s.current == 2 && s.clock.activity != MappingDemoPage && s.ready == []
    requires s.tasks[2].lastMsg == None && s.endpoints[0].senders == [1]
    ensures After(s, Tick(s, inp), TakeScene(SceneOf(s)), Charged(s.tasks[2].slice, 5))
  {
    ServerCalls(s, inp);
    TakesScene(s, Issued(UserStep(Begun(s, inp), 2, DemoProgram)));
    BegunSane(s, inp);
    RunsOn(s, inp, TakeScene(SceneOf(s)));
  }

  /** The server answers the waiting client and runs on. */
  lemma AnswerTick(s: State, inp: TickInput, answer: Word)
    requires Poised(s, inp) && s.current == 2 && s.clock.activity != MappingDemoPage && s.tasks[2].slice < 4
    requires s.tasks[2].lastMsg.Some? && s.endpoints[0].repliers == [1]
    requires s.tasks[1].state == Blocked && s.tasks[1].reason == Some(IpcReply(3, 0))
    requires answer == ServerReply(s.tasks[2].lastMsg.value)
    ensures After(s, Tick(s, inp), AnswerScene(SceneOf(s), answer), s.tasks[2].slice + 1)
  {
    AnswerPlay(s, inp, answer);
    BegunSane(s, inp);
    RunsOn(s, inp, AnswerScene(SceneOf(s), answer));
  }

  lemma AnswerPlay(s: State, inp: TickInput, answer: Word)
    requires Poised(s, inp) && s.current == 2 && s.clock.activity != MappingDemoPage
    requires s.tasks[2].lastMsg.Some? && s.endpoints[0].repliers == [1]
    requires s.tasks[1].state == Blocked && s.tasks[1].reason == Some(IpcReply(3, 0))
    requires answer == ServerReply(s.tasks[2].lastMsg.value)
    ensures Lands(s, Played(s, inp), AnswerScene(SceneOf(s), answer)) && Continues(s, Played(s, inp))
  {
    ServerCalls(s, inp);
    var x := Issued(UserStep(Begun(s, inp), 2, DemoProgram));
    assert Played(s, inp) == Reply(x, 0, answer);
    AnswersScene(s, x, answer);
  }

  /** The server listens again and the client takes over. */
  lemma ListenTick(s: State, inp: TickInput)
    requires Poised(s, inp) && s.current == 2 && s.clock.activity != MappingDemoPage && s.ready == [1]
    requires s.tasks[2].lastMsg == None && s.endpoints[0].senders == [] && s.endpoints[0].receiver == None
    ensures After(s, Tick(s, inp), ListenScene(SceneOf(s)), 0)
  {
    ServerCalls(s, inp);
    ListensScene(s, Issued(UserStep(Begun(s, inp), 2, DemoProgram)));
    HandsOn(s, inp, ListenScene(SceneOf(s)), 1);
  }
}
