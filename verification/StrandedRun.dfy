/** A run of four user tasks that strands one of them. */
module StrandedRun {
  import opened KernelTypes
  import opened KernelSpec
  import opened Slots
  import opened Invariant
  import opened ReplyPath
  import opened Steps
  import opened Runs
  import opened DemoTicks
  import opened DemoCalls
  import opened Rehearsal

  /** A kernel with four user tasks and two endpoints, as it boots. */
  function FourUsers(): State {
    State([BootTask(0, 1, NewSpace(true)), BootTask(1, 4, NewSpace(true)), BootTask(2, 2, NewSpace(true)),
           BootTask(3, 5, NewSpace(true)), BootTask(4, 3, NewSpace(true))], 0, [1, 2, 3, 4],
          [EMPTY, EMPTY], 0, 4, false, NO_COUNTS, [], Clock(0, 0, Idle, false, false, false), STAGE)
  }

  const RANKS: seq<nat> := [1, 4, 2, 5, 3]

  function Awaiting(partner: TaskId, stage: nat): Post { Post(Blocked, Some(IpcReply(partner, 0)), stage) }

  const START := Cast(0, [1, 2, 3, 4], [BUSY, FREE, FREE, FREE, FREE], [EMPTY, EMPTY])

  /** Task 3 runs first. */
  const FIRST := Cast(3, [1, 2, 4], [FREE, FREE, FREE, BUSY, FREE], [EMPTY, EMPTY])

  /** It has called on endpoint 0; task 1 runs. */
  const CALLED := Cast(1, [4, 2], [FREE, BUSY, FREE, Post(Blocked, Some(IpcSend(0)), 0), FREE], [EMPTY.(senders := [3]), EMPTY])

  /** Task 1 has received that call. */
  const RECEIVED := Cast(1, [4, 2], [FREE, BUSY, FREE, Awaiting(2, 0), FREE], [EMPTY.(repliers := [3]), EMPTY])

  /** Its memory demo has cost it a tick. */
  const STALLED := Cast(1, [4, 2], [FREE, Post(Running, None, 1), FREE, Awaiting(2, 0), FREE], [EMPTY.(repliers := [3]), EMPTY])

  const LISTENING := Post(Blocked, Some(IpcRecv(1)), 1)

  /** Instead of answering, task 1 listens on endpoint 1; task 4 runs. */
  const AWAY := Cast(4, [2], [FREE, LISTENING, FREE, Awaiting(2, 0), BUSY], [EMPTY.(repliers := [3]), EMPTY.(receiver := Some(1))])

  /** Task 4 has called on endpoint 0 as well; task 2 runs. */
  const SECOND := Cast(2, [], [FREE, LISTENING, BUSY, Awaiting(2, 0), Post(Blocked, Some(IpcSend(0)), 0)],
                       [EMPTY.(senders := [4], repliers := [3]), EMPTY.(receiver := Some(1))])

  /** Task 2 has received the second call. */
  const CROSSED := Cast(2, [], [FREE, LISTENING, BUSY, Awaiting(2, 0), Awaiting(3, 0)],
                        [EMPTY.(repliers := [3, 4]), EMPTY.(receiver := Some(1))])

  const STALLED_AGAIN := Cast(2, [], [FREE, LISTENING, Post(Running, None, 1), Awaiting(2, 0), Awaiting(3, 0)],
                              [EMPTY.(repliers := [3, 4]), EMPTY.(receiver := Some(1))])

  /** Task 2 has called task 1 back on endpoint 1. */
  const BACK := Cast(1, [], [FREE, Post(Running, None, 1), Post(Blocked, Some(IpcReply(2, 1)), 1), Awaiting(2, 0), Awaiting(3, 0)],
                     [EMPTY.(repliers := [3, 4]), EMPTY.(repliers := [2])])

  lemma FourUsersBooted()
    ensures Booted(FourUsers()) && Untapped(FourUsers().tasks[0]) && FourUsers().taken == 4
  {
  }

  lemma FourUsersStage()
    ensures OnStage(FourUsers(), RANKS, START, 0)
  {
    assert Posts(FourUsers().tasks) == START.posts;
  }

  /** A kernel that has just shown the first scene. */
  ghost predicate Opens(b: State) {
    Reached(b, [], RANKS, START, 0, Idle) && Untapped(b.tasks[0]) && b.taken < 100
  }

  lemma FourUsersOpen()
    ensures Opens(FourUsers())
  {
    FourUsersBooted();
    FourUsersStage();
    Begins(FourUsers(), RANKS, START);
  }

  lemma FirstScene()
    ensures Leads(START, RANKS, 2) && Yield(START, 2) == FIRST && Lively(FIRST)
  {
    assert SwapRemove(START.ready, 2) == FIRST.ready;
    assert Yield(START, 2).posts == FIRST.posts;
  }

  lemma CalledScene()
    ensures Leads(FIRST, RANKS, 0) && Queue(FIRST, 0, 0) == CALLED && Lively(CALLED)
  {
    assert SwapRemove(FIRST.ready, 0) == CALLED.ready;
    assert Queue(FIRST, 0, 0).posts == CALLED.posts;
    assert FIRST.endpoints[0].senders + [3] == [3];
    assert Queue(FIRST, 0, 0).endpoints == CALLED.endpoints;
  }

  lemma ReceivedScene()
    ensures Take(CALLED, 0, 3) == RECEIVED && Lively(RECEIVED)
  {
    assert Take(CALLED, 0, 3).posts == RECEIVED.posts;
    assert CALLED.endpoints[0].repliers + [3] == [3];
    assert Take(CALLED, 0, 3).endpoints == RECEIVED.endpoints;
  }

  lemma StalledScene()
    ensures Stall(RECEIVED) == STALLED && Lively(STALLED)
  {
    assert Stall(RECEIVED).posts == STALLED.posts;
  }

  lemma AwayScene()
    ensures Leads(STALLED, RANKS, 0) && Listen(STALLED, 1, 0) == AWAY && Lively(AWAY)
  {
    assert SwapRemove(STALLED.ready, 0) == AWAY.ready;
    assert Listen(STALLED, 1, 0).posts == AWAY.posts;
    assert Listen(STALLED, 1, 0).endpoints == AWAY.endpoints;
  }

  lemma SecondScene()
    ensures Leads(AWAY, RANKS, 0) && Queue(AWAY, 0, 0) == SECOND && Lively(SECOND)
  {
    assert SwapRemove(AWAY.ready, 0) == SECOND.ready;
    assert Queue(AWAY, 0, 0).posts == SECOND.posts;
    assert AWAY.endpoints[0].senders + [4] == [4];
    assert Queue(AWAY, 0, 0).endpoints == SECOND.endpoints;
  }

  lemma CrossedScene()
    ensures Take(SECOND, 0, 4) == CROSSED && Lively(CROSSED)
  {
    assert Take(SECOND, 0, 4).posts == CROSSED.posts;
    assert SECOND.endpoints[0].repliers + [4] == [3, 4];
    assert Take(SECOND, 0, 4).endpoints == CROSSED.endpoints;
  }

  lemma StalledAgainScene()
    ensures Stall(CROSSED) == STALLED_AGAIN && Lively(STALLED_AGAIN)
  {
    assert Stall(CROSSED).posts == STALLED_AGAIN.posts;
  }

  lemma BackScene()
    ensures Hand(STALLED_AGAIN, 1, 1) == BACK && Lively(BACK)
  {
    assert Hand(STALLED_AGAIN, 1, 1).posts == BACK.posts;
    assert STALLED_AGAIN.endpoints[1].repliers + [2] == [2];
    assert Hand(STALLED_AGAIN, 1, 1).endpoints == BACK.endpoints;
  }

  lemma AtFirst(b: State) returns (steps: seq<Step>)
    requires Opens(b)
    ensures |steps| == 5 && Reached(b, steps, RANKS, FIRST, 0, UpdatingTimer)
  {
    steps := IdleWait(b, RANKS, START);
    FirstScene();
    YieldStep(b, steps, RANKS, START, Idle, 2);
    steps := Then(steps, None);
  }

  lemma AtCalled(b: State) returns (steps: seq<Step>)
    requires Opens(b)
    ensures |steps| == 6 && Reached(b, steps, RANKS, CALLED, 0, AllocatingFrame)
  {
    steps := AtFirst(b);
    CalledScene();
    QueueStep(b, steps, RANKS, FIRST, 0, UpdatingTimer, 0, 7, 0);
    steps := Then(steps, Some(CallSend(0, 7)));
  }

  lemma AtReceived(b: State) returns (steps: seq<Step>)
    requires Opens(b)
    ensures |steps| == 7 && Reached(b, steps, RANKS, RECEIVED, 1, MappingDemoPage)
  {
    steps := AtCalled(b);
    ReceivedScene();
    TakeStep(b, steps, RANKS, CALLED, 0, AllocatingFrame, 0, 3);
    steps := Then(steps, Some(CallRecv(0)));
  }

  lemma AtStalled(b: State) returns (steps: seq<Step>)
    requires Opens(b)
    ensures |steps| == 8 && Reached(b, steps, RANKS, STALLED, 2, Idle)
  {
    steps := AtReceived(b);
    StalledScene();
    StallStep(b, steps, RANKS, RECEIVED, 1);
    steps := Then(steps, None);
  }

  lemma AtAway(b: State) returns (steps: seq<Step>)
    requires Opens(b)
    ensures |steps| == 9 && Reached(b, steps, RANKS, AWAY, 0, UpdatingTimer)
  {
    steps := AtStalled(b);
    AwayScene();
    ListenStep(b, steps, RANKS, STALLED, 2, Idle, 1, 0);
    steps := Then(steps, Some(CallRecv(1)));
  }

  lemma AtSecond(b: State) returns (steps: seq<Step>)
    requires Opens(b)
    ensures |steps| == 10 && Reached(b, steps, RANKS, SECOND, 0, AllocatingFrame)
  {
    steps := AtAway(b);
    SecondScene();
    QueueStep(b, steps, RANKS, AWAY, 0, UpdatingTimer, 0, 8, 0);
    steps := Then(steps, Some(CallSend(0, 8)));
  }

  lemma AtCrossed(b: State) returns (steps: seq<Step>)
    requires Opens(b)
    ensures |steps| == 11 && Reached(b, steps, RANKS, CROSSED, 1, MappingDemoPage)
  {
    steps := AtSecond(b);
    CrossedScene();
    TakeStep(b, steps, RANKS, SECOND, 0, AllocatingFrame, 0, 4);
    steps := Then(steps, Some(CallRecv(0)));
  }

  lemma AtStalledAgain(b: State) returns (steps: seq<Step>)
    requires Opens(b)
    ensures |steps| == 12 && Reached(b, steps, RANKS, STALLED_AGAIN, 2, Idle)
  {
    steps := AtCrossed(b);
    StalledAgainScene();
    StallStep(b, steps, RANKS, CROSSED, 1);
    steps := Then(steps, None);
  }

  lemma AtBack(b: State) returns (steps: seq<Step>)
    requires Opens(b)
    ensures |steps| == 13 && Reached(b, steps, RANKS, BACK, 0, UpdatingTimer)
  {
    steps := AtStalledAgain(b);
    BackScene();
    HandStep(b, steps, RANKS, STALLED_AGAIN, 2, Idle, 1, 9, 1);
    steps := Then(steps, Some(CallSend(1, 9)));
  }

  lemma BackFacts(x: State)
    requires OnStage(x, RANKS, BACK, 0)
    ensures x.current == 1 && x.endpoints[0] == EMPTY.(repliers := [3, 4]) && x.tasks[1].state == Running && x.tasks[1].kind == UserSpace
    ensures !AwaitsReply(x, 4, 2, 0) && AwaitsReply(x, 3, 2, 0)
  {
    assert Posts(x.tasks)[3] == Awaiting(2, 0) && Posts(x.tasks)[4] == Awaiting(3, 0) && Posts(x.tasks)[1].state == Running;
    assert Member(x.tasks[1], 1, 4);
  }

  /** Task 1's answer to task 3 drops task 4 from the line. */
  lemma LastReply(x: State, msg: Word)
    requires Core(x) && OnStage(x, RANKS, BACK, 0)
    ensures var m := Reply(x, 0, msg);
      && IsStray(m, 4) && m.current == 1 && m.tasks[1] == x.tasks[1] && m.tasks[1].state == Running && m.tasks[1].kind == UserSpace
      && SameFrame(x, m)
  {
    BackFacts(x);
    GateOpen(x, 0);
    ReplyStrays(x, 0, msg, 4);
    AnsweredForm(x, 0, msg, 0);
  }

  lemma StrayEnds(m: State, next: Activity)
    requires Shape(m) && IsStray(m, 4) && m.current == 1 && m.tasks[1].state == Running && m.tasks[1].kind == UserSpace
    requires m.tasks[1].slice == 0 && m.config.quantum == 5
    ensures IsStray(Ended(m, 1, next), 4) && Account(m, 1).clock == m.clock
  {
    assert UserAlive(m);
    CloseRunning(m, next);
  }

  /** The last tick: task 4 waits for a reply and is in no line. */
  lemma StrandTick(s: State)
    requires Core(s) && OnStage(s, RANKS, BACK, 0) && s.clock.activity != MappingDemoPage && s.taken < s.config.supply
    ensures IsStray(Tick(s, Prompt(Some(CallReply(0, 10)))), 4)
  {
    var x := PromptedTick(s, RANKS, BACK, 0, CallReply(0, 10));
    LastReply(x, 10);
    StrayEnds(Reply(x, 0, 10), NextActivity(s.clock.activity));
  }

  /** Fourteen ticks of four user tasks, in which nobody is killed and nothing fails, leave task 4
      waiting for ever: it awaits a reply, and no reply line holds it. */
  lemma FourUsersStrand() returns (steps: seq<Step>)
    ensures Booted(FourUsers()) && |FourUsers().tasks| == 5 && KillFree(steps) && |steps| == 14
    ensures IsStray(Run(FourUsers(), steps), 4) && !NoStray(Run(FourUsers(), steps))
  {
    FourUsersBooted();
    FourUsersOpen();
    steps := LastStep(FourUsers());
  }

  lemma LastStep(b: State) returns (steps: seq<Step>)
    requires Opens(b)
    ensures |steps| == 14 && KillFree(steps) && Shape(b) && IsStray(Run(b, steps), 4)
  {
    steps := AtBack(b);
    ThenTick(b, steps, Some(CallReply(0, 10)));
    StrandTick(Run(b, steps));
    steps := Then(steps, Some(CallReply(0, 10)));
  }
}
