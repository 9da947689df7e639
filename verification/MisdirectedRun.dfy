/** A run of three user tasks in which a waiter is told that its partner is dead, while it lives. */
module MisdirectedRun {
  import opened KernelTypes
  import opened KernelSpec
  import opened Invariant
  import opened ReplyPath
  import opened Steps
  import opened Runs
  import opened DemoTicks
  import opened DemoCalls
  import opened Rehearsal

  /** A kernel with three user tasks and two endpoints, as it boots. */
  function ThreeUsers(): State {
    State([BootTask(0, 1, NewSpace(true)), BootTask(1, 4, NewSpace(true)), BootTask(2, 3, NewSpace(true)), BootTask(3, 2, NewSpace(true))],
          0, [1, 2, 3], [EMPTY, EMPTY], 0, 3, false, NO_COUNTS, [], Clock(0, 0, Idle, false, false, false), STAGE)
  }

  const RANKS: seq<nat> := [1, 4, 3, 2]

  const AWAITING := Post(Blocked, Some(IpcReply(3, 0)), 0)

  const START := Cast(0, [1, 2, 3], [BUSY, FREE, FREE, FREE], [EMPTY, EMPTY])

  /** Task 1 runs first. */
  const FIRST := Cast(1, [3, 2], [FREE, BUSY, FREE, FREE], [EMPTY, EMPTY])

  /** It has called on endpoint 0; task 2 runs. */
  const CALLED := Cast(2, [3], [FREE, Post(Blocked, Some(IpcSend(0)), 0), BUSY, FREE], [EMPTY.(senders := [1]), EMPTY])

  /** Task 2 has received that call. */
  const RECEIVED := Cast(2, [3], [FREE, AWAITING, BUSY, FREE], [EMPTY.(repliers := [1]), EMPTY])

  const STALLED := Cast(2, [3], [FREE, AWAITING, Post(Running, None, 1), FREE], [EMPTY.(repliers := [1]), EMPTY])

  /** Before it answers, it listens on endpoint 1; task 3 runs. */
  const AWAY := Cast(3, [], [FREE, AWAITING, Post(Blocked, Some(IpcRecv(1)), 1), BUSY], [EMPTY.(repliers := [1]), EMPTY.(receiver := Some(2))])

  lemma ThreeUsersBooted()
    ensures Booted(ThreeUsers()) && Untapped(ThreeUsers().tasks[0]) && ThreeUsers().taken == 3
  {
  }

  lemma ThreeUsersStage()
    ensures OnStage(ThreeUsers(), RANKS, START, 0)
  {
    assert Posts(ThreeUsers().tasks) == START.posts;
  }

  /** A kernel that has just shown the first scene. */
  ghost predicate Opens(b: State) {
    Reached(b, [], RANKS, START, 0, Idle) && Untapped(b.tasks[0]) && b.taken < 100
  }

  lemma ThreeUsersOpen()
    ensures Opens(ThreeUsers())
  {
    ThreeUsersBooted();
    ThreeUsersStage();
    Begins(ThreeUsers(), RANKS, START);
  }

  lemma FirstScene()
    ensures Leads(START, RANKS, 0) && Yield(START, 0) == FIRST && Lively(FIRST)
  {
    assert SwapRemove(START.ready, 0) == FIRST.ready;
    assert Yield(START, 0).posts == FIRST.posts;
  }

  lemma CalledScene()
    ensures Leads(FIRST, RANKS, 1) && Queue(FIRST, 0, 1) == CALLED && Lively(CALLED)
  {
    assert SwapRemove(FIRST.ready, 1) == CALLED.ready;
    assert Queue(FIRST, 0, 1).posts == CALLED.posts;
    assert FIRST.endpoints[0].senders + [1] == [1];
    assert Queue(FIRST, 0, 1).endpoints == CALLED.endpoints;
  }

  lemma ReceivedScene()
    ensures Take(CALLED, 0, 1) == RECEIVED && Lively(RECEIVED)
  {
    assert Take(CALLED, 0, 1).posts == RECEIVED.posts;
    assert CALLED.endpoints[0].repliers + [1] == [1];
    assert Take(CALLED, 0, 1).endpoints == RECEIVED.endpoints;
  }

  lemma StalledScene()
    ensures Stall(RECEIVED) == STALLED && Lively(STALLED)
  {
    assert Stall(RECEIVED).posts == STALLED.posts;
  }

  lemma AwayScene()
    ensures Leads(STALLED, RANKS, 0) && Listen(STALLED, 1, 0) == AWAY && Lively(AWAY)
  {
    assert SwapRemove(STALLED.ready, 0) == AWAY.ready;
    assert Listen(STALLED, 1, 0).posts == AWAY.posts;
    assert Listen(STALLED, 1, 0).endpoints == AWAY.endpoints;
  }

  lemma AtFirst(b: State) returns (steps: seq<Step>)
    requires Opens(b)
    ensures |steps| == 5 && Reached(b, steps, RANKS, FIRST, 0, UpdatingTimer)
  {
    steps := IdleWait(b, RANKS, START);
    FirstScene();
    YieldStep(b, steps, RANKS, START, Idle, 0);
    steps := Then(steps, None);
  }

  lemma AtCalled(b: State) returns (steps: seq<Step>)
    requires Opens(b)
    ensures |steps| == 6 && Reached(b, steps, RANKS, CALLED, 0, AllocatingFrame)
  {
    steps := AtFirst(b);
    CalledScene();
    QueueStep(b, steps, RANKS, FIRST, 0, UpdatingTimer, 0, 7, 1);
    steps := Then(steps, Some(CallSend(0, 7)));
  }

  lemma AtReceived(b: State) returns (steps: seq<Step>)
    requires Opens(b)
    ensures |steps| == 7 && Reached(b, steps, RANKS, RECEIVED, 1, MappingDemoPage)
  {
    steps := AtCalled(b);
    ReceivedScene();
    TakeStep(b, steps, RANKS, CALLED, 0, AllocatingFrame, 0, 1);
    steps := Then(steps, Some(CallRecv(0)));
  }

  lemma AtStalled(b: State) returns (steps: seq<Step>)
    requires Opens(b)
    ensures |steps| == 8 && Reached(b, steps, RANKS, STALLED, 2, Idle)
  {
    steps := AtReceived(b);
    StalledScene();
    StallStep(b, steps, RANKS, RECEIVED, 1);
    steps := Then(steps, None);
  }

  lemma AtAway(b: State) returns (steps: seq<Step>)
    requires Opens(b)
    ensures |steps| == 9 && Reached(b, steps, RANKS, AWAY, 0, UpdatingTimer)
  {
    steps := AtStalled(b);
    AwayScene();
    ListenStep(b, steps, RANKS, STALLED, 2, Idle, 1, 0);
    steps := Then(steps, Some(CallRecv(1)));
  }

  /** Task 1 has been told that its partner is dead; task 2, its partner, and everybody else lives. */
  predicate Misinformed(s: State) {
    && |s.tasks| == 4 && s.tasks[1].state == Ready && s.tasks[1].lastReply == Some(IPC_ERR_DEAD_PARTNER)
    && forall i: nat {:trigger s.tasks[i]} :: i < 4 ==> s.tasks[i].state != Dead
  }

  lemma AwayFacts(x: State)
    requires OnStage(x, RANKS, AWAY, 0)
    ensures x.current == 3 && x.endpoints[0] == EMPTY.(repliers := [1]) && x.tasks[3].state == Running && x.tasks[3].kind == UserSpace
    ensures x.tasks[1].state == Blocked && x.tasks[1].reason == Some(IpcReply(3, 0))
    ensures x.tasks[0].state == Ready && x.tasks[2].state == Blocked
  {
    assert Posts(x.tasks)[0] == FREE && Posts(x.tasks)[1] == AWAITING && Posts(x.tasks)[2].state == Blocked && Posts(x.tasks)[3] == BUSY;
    assert Member(x.tasks[3], 3, 2);
  }

  /** Task 3 replies on endpoint 0. */
  lemma WrongReply(x: State, msg: Word)
    requires Core(x) && OnStage(x, RANKS, AWAY, 0)
    ensures var m := Reply(x, 0, msg);
      Misinformed(m) && m.current == 3 && m.tasks[3] == x.tasks[3] && m.tasks[3].state == Running && m.tasks[3].kind == UserSpace && SameFrame(x, m)
      && m.ready == [1]
  {
    AwayFacts(x);
    GateOpen(x, 0);
    MisdirectedForm(x, 0, msg);
  }

  lemma MisinformedEnds(m: State, next: Activity)
    requires Shape(m) && Misinformed(m) && m.current == 3 && m.tasks[3].state == Running && m.tasks[3].kind == UserSpace
    requires m.tasks[3].slice == 0 && m.config.quantum == 5
    ensures Misinformed(Ended(m, 3, next)) && Account(m, 3).clock == m.clock
  {
    assert UserAlive(m);
    CloseRunning(m, next);
  }

  lemma WrongTick(s: State)
    requires Core(s) && OnStage(s, RANKS, AWAY, 0) && s.clock.activity != MappingDemoPage && s.taken < s.config.supply
    ensures Misinformed(Tick(s, Prompt(Some(CallReply(0, 8)))))
  {
    var x := PromptedTick(s, RANKS, AWAY, 0, CallReply(0, 8));
    WrongReply(x, 8);
    MisinformedEnds(Reply(x, 0, 8), NextActivity(s.clock.activity));
  }

  lemma LastStep(b: State) returns (steps: seq<Step>)
    requires Opens(b)
    ensures |steps| == 9 && Shape(b) && 1 < |b.tasks| && Run(b, steps).tasks[1].reason == Some(IpcReply(3, 0))
    ensures var all := Then(steps, Some(CallReply(0, 8))); KillFree(all) && Misinformed(Run(b, all))
  {
    steps := AtAway(b);
    ThenTick(b, steps, Some(CallReply(0, 8)));
    AwayFacts(Run(b, steps));
    WrongTick(Run(b, steps));
  }

  /** Ten ticks of three user tasks: task 1 sends on endpoint 0, task 2 receives, task 3 replies on
      endpoint 0. The last tick tells task 1, which awaits task 2, that its partner is dead. Nobody is. */
  lemma ThreeUsersMisdirect() returns (steps: seq<Step>, all: seq<Step>)
    ensures Booted(ThreeUsers()) && |ThreeUsers().tasks| == 4 && KillFree(all) && |all| == 10 && steps == all[..9]
    ensures Run(ThreeUsers(), steps).tasks[1].reason == Some(IpcReply(3, 0))
    ensures Misinformed(Run(ThreeUsers(), all))
  {
    ThreeUsersBooted();
    ThreeUsersOpen();
    steps := LastStep(ThreeUsers());
    all := Then(steps, Some(CallReply(0, 8)));
  }
}
