/** Runs of any number of user tasks that make one call a tick, shown scene by scene. */
module Rehearsal {
  import opened KernelTypes
  import opened KernelSpec
  import opened PageOps
  import opened Invariant
  import opened Links
  import opened Scheduling
  import opened IpcPaths
  import opened Actions
  import opened Steps
  import opened Runs
  import opened DemoTicks
  import opened DemoCalls
  import opened DemoRun

  // ---------------------------------------------------------------------------
  // Schedules and calls with several ready tasks
  // ---------------------------------------------------------------------------

  /** Position `k` of the ready queue holds the only task of the highest priority. */
  predicate Foremost(s: State, k: nat) {
    k < |s.ready| && s.ready[k] < |s.tasks| && forall j: nat {:trigger s.ready[j]} :: j < |s.ready| ==>
      s.ready[j] < |s.tasks| && (j != k ==> s.tasks[s.ready[j]].priority < s.tasks[s.ready[k]].priority)
  }

  lemma {:induction false} ForemostIsBest(tasks: seq<Task>, q: seq<nat>, k: nat, n: nat)
    requires k < n <= |q| && q[k] < |tasks| && forall j: nat {:trigger q[j]} :: j < |q| ==>
      q[j] < |tasks| && (j != k ==> tasks[q[j]].priority < tasks[q[k]].priority)
    ensures BestPos(tasks, q, n) == k
    decreases n
  {
    if n - 1 > k {
      ForemostIsBest(tasks, q, k, n - 1);
    } else if n > 1 {
      assert BestPos(tasks, q, n - 1) < k;
    }
  }

  /** What a schedule that starts `y` leaves. */
  predicate HandsTo(s: State, r: State, tasks: seq<Task>, k: nat) {
    && k < |s.ready| && s.ready[k] < |tasks| && Leaves(r, tasks[s.ready[k] := Dispatched(tasks[s.ready[k]])], s.ready[k], SwapRemove(s.ready, k), s.endpoints)
    && SameFrame(s, r)
  }

  /** A blocked task hands the processor to the foremost ready one. */
  lemma ScheduleForemost(s: State, k: nat)
    requires Settled(s) && s.tasks[s.current].state == Blocked && Foremost(s, k)
    ensures HandsTo(s, Schedule(s), s.tasks, k)
  {
    VacatedSame(s);
    DispatchForm(s, s.current);
    ForemostIsBest(s.tasks, s.ready, k, |s.ready|);
  }

  /** The running idle task gives way to the foremost ready task. */
  lemma PreemptForemost(s: State, k: nat)
    requires Settled(s) && s.tasks[s.current].state == Running && s.current == 0 && Foremost(s, k) && s.ready[k] != 0
    ensures HandsTo(s, Schedule(s), s.tasks[0 := Woken(s.tasks[0])], k)
  {
    VacatedLinks(s);
    CompactionIdle(s);
    var v := Vacated(s);
    assert v.ready == s.ready && v.tasks == s.tasks[0 := Woken(s.tasks[0])];
    DispatchForm(v, s.current);
    forall j: nat | j < |v.ready| ensures v.ready[j] < |v.tasks| && v.tasks[v.ready[j]].priority == s.tasks[s.ready[j]].priority {
      assert s.ready[j] < |s.tasks|;
    }
    ForemostIsBest(v.tasks, v.ready, k, |v.ready|);
  }

  /** No receiver waits: the sender queues, and the foremost ready task takes over. */
  lemma SendQueuesTo(x: State, e: nat, msg: Word, k: nat)
    requires Calling(x, e) && x.endpoints[e].receiver == None && Foremost(x, k)
    ensures var r := Send(x, e, msg);
      && Leaves(r, x.tasks[x.current := Parked(x.tasks[x.current], IpcSend(e)).(pendingMsg := Some(msg))]
                          [x.ready[k] := Dispatched(x.tasks[x.ready[k]])],
                x.ready[k], SwapRemove(x.ready, k),
                x.endpoints[e := x.endpoints[e].(senders := x.endpoints[e].senders + [x.current])])
      && SameFrame(x, r)
  {
    GateOpen(x, e);
    var ev := IpcSendCalled(x.current + 1, e, msg);
    var x1 := Emit(x, ev);
    EmitCalling(x, e, ev);
    SendOpenIdeal(x1, e, msg);
    QueuedSettles(x1, e, msg);
    NotQueued(x, x.current);
    ScheduleForemost(Queued(x1, e, msg), k);
  }

  /** No sender is queued: the receiver waits, and the foremost ready task takes over. */
  lemma RecvListensTo(x: State, e: nat, k: nat)
    requires Calling(x, e) && x.endpoints[e].senders == [] && x.endpoints[e].receiver == None && Foremost(x, k)
    ensures var r := Recv(x, e);
      && Leaves(r, x.tasks[x.current := Parked(x.tasks[x.current], IpcRecv(e))]
                          [x.ready[k] := Dispatched(x.tasks[x.ready[k]])],
                x.ready[k], SwapRemove(x.ready, k), x.endpoints[e := x.endpoints[e].(receiver := Some(x.current))])
      && SameFrame(x, r)
  {
    RecvForm(x, e);
    var x1 := Emit(x, IpcRecvCalled(x.current + 1, e));
    RecvOpenIdeal(x1, e);
    ListeningSettles(x1, e);
    NotQueued(x, x.current);
    ScheduleForemost(Listening(x1, e), k);
  }

  // ---------------------------------------------------------------------------
  // Frames
  // ---------------------------------------------------------------------------

  lemma MapForTakes(s: State, i: nat, page: nat, flags: Flags)
    requires i < |s.tasks|
    ensures MapFor(s, i, page, flags, 0).0.taken <= s.taken + 1
  {
  }

  lemma ActTakes(s: State, inp: TickInput)
    requires Shape(s) && inp.tables == 0
    ensures Act(s, inp).taken <= s.taken + 1
  {
    MapForTakes(s, s.current, DemoPage(s.current), DEMO_FLAGS_TASK0);
  }

  lemma PendingTakes(s: State, inp: TickInput)
    requires Shape(s) && inp.tables == 0
    ensures HandlePending(s, inp).taken <= s.taken + 1
  {
    var t := s.tasks[s.current];
    if t.state != Dead && t.pendingCall.Some? && t.pendingCall.value.CallPageMap? {
      var s1 := Emit(SetTask(s, s.current, t.(pendingCall := None)), SyscallIssued(t.id));
      MapForTakes(Emit(s1, SyscallHandled(t.id)), s.current, t.pendingCall.value.page, t.pendingCall.value.flags);
    }
  }

  /** A tick whose map calls find their tables takes at most two frames. */
  lemma TickTakes(s: State, inp: TickInput)
    requires Shape(s) && inp.tables == 0
    ensures Tick(s, inp).taken <= s.taken + 2
  {
    ActTakes(StartTick(s), inp);
    PendingTakes(UserStep(Act(StartTick(s), inp), s.current, inp.choice), inp);
  }

  // ---------------------------------------------------------------------------
  // The cast
  // ---------------------------------------------------------------------------

  /** What the run shows of a task. */
  datatype Post = Post(state: TaskState, reason: Option<BlockedReason>, stage: nat)

  function PostOf(t: Task): Post { Post(t.state, t.reason, t.stage) }

  function Posts(tasks: seq<Task>): (r: seq<Post>)
    ensures |r| == |tasks| && forall i: nat {:trigger r[i]} {:trigger tasks[i]} :: i < |r| ==> r[i] == PostOf(tasks[i])
  {
    seq(|tasks|, i requires 0 <= i < |tasks| => PostOf(tasks[i]))
  }

  /** What the run shows of the kernel. */
  datatype Cast = Cast(current: nat, ready: seq<nat>, posts: seq<Post>, endpoints: seq<Endpoint>)

  function CastOf(s: State): Cast {
    Cast(s.current, s.ready, Posts(s.tasks), s.endpoints)
  }

  const STAGE := Config(5, true, false, 1000)

  predicate Member(t: Task, i: nat, rank: nat) {
    t.priority == rank && t.pendingCall == None && (i > 0 ==> t.kind == UserSpace && t.space.rooted)
  }

  /** What never changes during the run. */
  predicate Troupe(s: State, ranks: seq<nat>) {
    && |s.tasks| == |ranks| && 2 <= |ranks| && s.config == STAGE
    && (forall i: nat {:trigger s.tasks[i]} :: i < |s.tasks| ==> Member(s.tasks[i], i, ranks[i]))
    && !s.clock.halted && !s.clock.haltDumped && !s.clock.panicked
  }

  /** One tick of the run: the running task makes `call`. */
  function Prompt(call: Option<Syscall>): TickInput {
    TickInput(0, false, AnyProgram(call, false, false), false)
  }

  predicate Awake(s: State, r: State) {
    r.clock.halted == s.clock.halted && r.clock.haltDumped == s.clock.haltDumped && r.clock.panicked == s.clock.panicked
  }

  predicate OnStage(s: State, ranks: seq<nat>, c: Cast, slice: nat) {
    Troupe(s, ranks) && Shape(s) && CastOf(s) == c && s.tasks[s.current].slice == slice
  }

  /** Only the running task differs, and only in what the run does not show. */
  predicate Prepared(s: State, x: State) {
    && Shape(s) && SameRest(s, x) && Awake(s, x)
    && x.tasks == s.tasks[s.current := x.tasks[s.current]] && SameTask(s.tasks[s.current], x.tasks[s.current])
  }

  /** Run times, slices, memory and page-call results are not shown. */
  lemma SameCast(m: State, r: State, ranks: seq<nat>)
    requires Troupe(m, ranks) && SameRest(m, r) && Awake(m, r)
    requires forall j: nat {:trigger r.tasks[j]} :: j < |m.tasks| ==> SameTask(m.tasks[j].(slice := r.tasks[j].slice), r.tasks[j])
    ensures Troupe(r, ranks) && CastOf(r) == CastOf(m)
  {
    forall j: nat | j < |r.tasks| ensures PostOf(r.tasks[j]) == PostOf(m.tasks[j]) && Member(r.tasks[j], j, ranks[j]) {
      assert SameTask(m.tasks[j].(slice := r.tasks[j].slice), r.tasks[j]);
      assert Member(m.tasks[j], j, ranks[j]);
    }
    assert Posts(r.tasks) == Posts(m.tasks);
  }

  lemma PreparedCast(s: State, x: State, ranks: seq<nat>, c: Cast, n: nat)
    requires OnStage(s, ranks, c, n) && Prepared(s, x)
    ensures OnStage(x, ranks, c, n)
  {
    SameCast(s, x, ranks);
  }

  lemma PreparedCore(s: State, x: State)
    requires Core(s) && Prepared(s, x)
    ensures Core(x)
  {
    AlikeSettled(s, x);
  }

  /** The current task runs, and task 1 lives. */
  predicate Lively(c: Cast) {
    1 < |c.posts| && c.current < |c.posts| && c.posts[c.current].state == Running && c.posts[1].state != Dead
  }

  lemma LivelyAlive(m: State, ranks: seq<nat>, c: Cast, n: nat)
    requires OnStage(m, ranks, c, n) && Lively(c)
    ensures m.tasks[m.current].state == Running && UserAlive(m)
  {
    assert Posts(m.tasks)[m.current].state == Running && Posts(m.tasks)[1].state != Dead;
    assert Member(m.tasks[1], 1, ranks[1]);
  }

  // ---------------------------------------------------------------------------
  // The end of a tick
  // ---------------------------------------------------------------------------

  lemma EndsSwitched(m: State, ran: nat, next: Activity, ranks: seq<nat>, c: Cast)
    requires OnStage(m, ranks, c, 0) && ran < |m.tasks| && c.current != ran && Lively(c)
    ensures OnStage(Ended(m, ran, next), ranks, c, 0) && Ended(m, ran, next).clock.activity == next
    ensures !Account(m, ran).clock.panicked
  {
    LivelyAlive(m, ranks, c, 0);
    CloseSwitched(m, ran, next);
    SameCast(m, Ended(m, ran, next), ranks);
  }

  lemma EndsRunning(m: State, next: Activity, ranks: seq<nat>, c: Cast, n: nat)
    requires OnStage(m, ranks, c, n) && n < 4 && Lively(c)
    ensures OnStage(Ended(m, m.current, next), ranks, c, n + 1) && Ended(m, m.current, next).clock.activity == next
    ensures SamePages(m.tasks[m.current], Ended(m, m.current, next).tasks[m.current])
    ensures !Account(m, m.current).clock.panicked
  {
    LivelyAlive(m, ranks, c, n);
    CloseRunning(m, next);
    SameCast(m, Ended(m, m.current, next), ranks);
  }

  // ---------------------------------------------------------------------------
  // How the calls change the scene
  // ---------------------------------------------------------------------------

  predicate Placed(c: Cast, e: nat) {
    0 < c.current < |c.posts| && e < |c.endpoints| && !c.endpoints[e].closed
  }

  /** Position `k` of the ready queue holds the best task. */
  predicate Leads(c: Cast, ranks: seq<nat>, k: nat) {
    && k < |c.ready| && |c.posts| == |ranks| && c.ready[k] < |ranks|
    && forall j: nat {:trigger c.ready[j]} :: j < |c.ready| ==> c.ready[j] < |ranks| && (j != k ==> ranks[c.ready[j]] < ranks[c.ready[k]])
  }

  lemma LeadsForemost(s: State, ranks: seq<nat>, k: nat)
    requires Troupe(s, ranks) && Leads(CastOf(s), ranks, k)
    ensures Foremost(s, k)
  {
    forall j: nat | j < |s.ready| ensures s.ready[j] < |s.tasks| && s.tasks[s.ready[j]].priority == ranks[s.ready[j]] {
      assert s.ready[j] == CastOf(s).ready[j];
      assert Member(s.tasks[s.ready[j]], s.ready[j], ranks[s.ready[j]]);
    }
  }

  function Busy(p: Post): Post { Post(Running, None, p.stage) }

  function Waits(p: Post, why: BlockedReason): Post { Post(Blocked, Some(why), p.stage) }

  /** The running task waits for `why` on endpoint `e`, which becomes `ep`; the ready task at `k` runs. */
  function Parting(c: Cast, why: BlockedReason, e: nat, ep: Endpoint, k: nat): Cast
    requires Placed(c, e) && k < |c.ready| && c.ready[k] < |c.posts|
  {
    var y := c.ready[k];
    Cast(y, SwapRemove(c.ready, k), c.posts[c.current := Waits(c.posts[c.current], why)][y := Busy(c.posts[y])], c.endpoints[e := ep])
  }

  function Queue(c: Cast, e: nat, k: nat): Cast
    requires Placed(c, e) && k < |c.ready| && c.ready[k] < |c.posts|
  {
    Parting(c, IpcSend(e), e, c.endpoints[e].(senders := c.endpoints[e].senders + [c.current]), k)
  }

  function Listen(c: Cast, e: nat, k: nat): Cast
    requires Placed(c, e) && k < |c.ready| && c.ready[k] < |c.posts|
  {
    Parting(c, IpcRecv(e), e, c.endpoints[e].(receiver := Some(c.current)), k)
  }

  /** The running task takes the message of the only queued sender, `y`. */
  function Take(c: Cast, e: nat, y: nat): Cast
    requires Placed(c, e) && y < |c.posts|
  {
    c.(posts := c.posts[y := Waits(c.posts[y], IpcReply(c.current + 1, e))],
       endpoints := c.endpoints[e := c.endpoints[e].(senders := [], repliers := c.endpoints[e].repliers + [y])])
  }

  /** The running task hands its message to the waiting receiver `y`, which runs. */
  function Hand(c: Cast, e: nat, y: nat): Cast
    requires Placed(c, e) && y < |c.posts|
  {
    Cast(y, [], c.posts[c.current := Waits(c.posts[c.current], IpcReply(y + 1, e))][y := Busy(c.posts[y])],
         c.endpoints[e := c.endpoints[e].(receiver := None, repliers := c.endpoints[e].repliers + [c.current])])
  }

  /** The idle task gives way to the ready task at `k`. */
  function Yield(c: Cast, k: nat): Cast
    requires 0 < |c.posts| && k < |c.ready| && c.ready[k] < |c.posts|
  {
    var y := c.ready[k];
    c.(current := y, ready := SwapRemove(c.ready, k), posts := c.posts[0 := Post(Ready, None, c.posts[0].stage)][y := Busy(c.posts[y])])
  }

  /** The memory demo costs the running task a tick. */
  function Stall(c: Cast): Cast
    requires c.current < |c.posts|
  {
    c.(posts := c.posts[c.current := c.posts[c.current].(stage := 1)])
  }

  /** Two tasks change. */
  lemma Recast(x: State, r: State, ranks: seq<nat>, i: nat, ti: Task, j: nat, tj: Task)
    requires Troupe(x, ranks) && SameFrame(x, r) && i < |x.tasks| && j < |x.tasks| && i != j
    requires r.tasks == x.tasks[i := ti][j := tj]
    requires Member(ti, i, ranks[i]) && Member(tj, j, ranks[j])
    ensures Troupe(r, ranks)
    ensures CastOf(r) == Cast(r.current, r.ready, CastOf(x).posts[i := PostOf(ti)][j := PostOf(tj)], r.endpoints)
  {
    forall k: nat | k < |r.tasks| ensures Member(r.tasks[k], k, ranks[k]) {
      assert Member(x.tasks[k], k, ranks[k]);
    }
    assert Posts(r.tasks) == Posts(x.tasks)[i := PostOf(ti)][j := PostOf(tj)];
  }

  lemma QueueCast(x: State, ranks: seq<nat>, c: Cast, n: nat, e: nat, msg: Word, k: nat)
    requires Core(x) && OnStage(x, ranks, c, n) && Placed(c, e) && c.endpoints[e].receiver == None && Leads(c, ranks, k)
    ensures OnStage(Send(x, e, msg), ranks, Queue(c, e, k), 0)
  {
    LeadsForemost(x, ranks, k);
    SendQueuesTo(x, e, msg, k);
    var me, y := x.current, x.ready[k];
    NotQueued(x, me);
    assert y == c.ready[k] && y in x.ready;
    assert Member(x.tasks[me], me, ranks[me]) && Member(x.tasks[y], y, ranks[y]);
    Recast(x, Send(x, e, msg), ranks, me, Parked(x.tasks[me], IpcSend(e)).(pendingMsg := Some(msg)), y, Dispatched(x.tasks[y]));
  }

  lemma ListenCast(x: State, ranks: seq<nat>, c: Cast, n: nat, e: nat, k: nat)
    requires Core(x) && OnStage(x, ranks, c, n) && Placed(c, e) && Leads(c, ranks, k)
    requires c.endpoints[e].receiver == None && c.endpoints[e].senders == []
    ensures OnStage(Recv(x, e), ranks, Listen(c, e, k), 0)
  {
    LeadsForemost(x, ranks, k);
    RecvListensTo(x, e, k);
    var me, y := x.current, x.ready[k];
    NotQueued(x, me);
    assert y == c.ready[k] && y in x.ready;
    assert Member(x.tasks[me], me, ranks[me]) && Member(x.tasks[y], y, ranks[y]);
    Recast(x, Recv(x, e), ranks, me, Parked(x.tasks[me], IpcRecv(e)), y, Dispatched(x.tasks[y]));
  }

  /** Taking the message of `y` off the line. */
  lemma TakenCast(x: State, r: State, ranks: seq<nat>, c: Cast, n: nat, e: nat, y: nat)
    requires OnStage(x, ranks, c, n) && Placed(c, e) && y < |x.tasks| && y != x.current && SameFrame(x, r)
    requires Leaves(r, x.tasks[y := Parked(x.tasks[y], IpcReply(x.current + 1, e)).(pendingMsg := None)]
                              [x.current := x.tasks[x.current].(lastMsg := x.tasks[y].pendingMsg)],
                    x.current, x.ready, x.endpoints[e := x.endpoints[e].(senders := [], repliers := x.endpoints[e].repliers + [y])])
    ensures OnStage(r, ranks, Take(c, e, y), n)
  {
    var me := x.current;
    assert Member(x.tasks[me], me, ranks[me]) && Member(x.tasks[y], y, ranks[y]);
    Recast(x, r, ranks, y, Parked(x.tasks[y], IpcReply(me + 1, e)).(pendingMsg := None),
           me, x.tasks[me].(lastMsg := x.tasks[y].pendingMsg));
    assert PostOf(x.tasks[me]) == c.posts[me];
  }

  lemma TakeCast(x: State, ranks: seq<nat>, c: Cast, n: nat, e: nat, y: nat)
    requires Core(x) && OnStage(x, ranks, c, n) && Placed(c, e) && c.endpoints[e].senders == [y]
    ensures y < |c.posts| && OnStage(Recv(x, e), ranks, Take(c, e, y), n)
  {
    RecvTakes(x, e, y);
    TakenCast(x, Recv(x, e), ranks, c, n, e, y);
  }

  lemma HandCast(x: State, ranks: seq<nat>, c: Cast, n: nat, e: nat, msg: Word, y: nat)
    requires Core(x) && OnStage(x, ranks, c, n) && Placed(c, e) && c.endpoints[e].receiver == Some(y) && c.ready == []
    ensures y < |c.posts| && OnStage(Send(x, e, msg), ranks, Hand(c, e, y), 0)
  {
    SendHands(x, e, msg, y);
    var me := x.current;
    assert Member(x.tasks[me], me, ranks[me]) && Member(x.tasks[y], y, ranks[y]);
    Recast(x, Send(x, e, msg), ranks, me, Parked(x.tasks[me], IpcReply(y + 1, e)), y, Dispatched(x.tasks[y]).(lastMsg := Some(msg)));
  }

  lemma YieldCast(x: State, ranks: seq<nat>, c: Cast, n: nat, k: nat)
    requires Settled(x) && OnStage(x, ranks, c, n) && x.tasks[0].state == Running && c.current == 0 && Leads(c, ranks, k) && c.ready[k] != 0
    ensures OnStage(Schedule(x), ranks, Yield(c, k), 0)
  {
    LeadsForemost(x, ranks, k);
    PreemptForemost(x, k);
    var y := x.ready[k];
    assert y == c.ready[k];
    assert Member(x.tasks[0], 0, ranks[0]) && Member(x.tasks[y], y, ranks[y]);
    Recast(x, Schedule(x), ranks, 0, Woken(x.tasks[0]), y, Dispatched(x.tasks[y]));
  }

  // ---------------------------------------------------------------------------
  // Whole ticks
  // ---------------------------------------------------------------------------

  lemma BegunAwake(s: State, call: Option<Syscall>)
    requires Shape(s) && s.taken < s.config.supply
    requires s.clock.activity == MappingDemoPage ==>
      s.current != 0 && s.tasks[s.current].stage == 0 && s.tasks[s.current].kind == UserSpace && s.tasks[s.current].space.rooted
    ensures Awake(s, Begun(s, Prompt(call)))
  {
  }

  /** The program of the running task chooses `call`. */
  lemma Chooses(a: State, call: Option<Syscall>)
    requires Shape(a) && a.tasks[a.current].state == Running && a.tasks[a.current].pendingCall == None
    ensures var u := UserStep(a, a.current, AnyProgram(call, false, false));
      && u == a.(tasks := a.tasks[a.current := u.tasks[a.current]])
      && SameTask(a.tasks[a.current].(pendingCall := call), u.tasks[a.current]) && SamePages(a.tasks[a.current], u.tasks[a.current])
  {
    var t := a.tasks[a.current];
    SetTaskTwice(a, a.current, t.(sysRet := None, sysRetUnread := false),
                 t.(sysRet := None, sysRetUnread := false, pendingCall := call));
  }

  lemma IssuedForm(u: State)
    requires Shape(u)
    ensures var x := Issued(u);
      && x == u.(tasks := x.tasks, history := x.history) && x.tasks == u.tasks[u.current := u.tasks[u.current].(pendingCall := None)]
  {
  }

  /** The running task is about to carry out its call. */
  lemma Prompted(s: State, ranks: seq<nat>, call: Syscall)
    requires Core(s) && Troupe(s, ranks) && s.current != 0 && s.clock.activity != MappingDemoPage && s.taken < s.config.supply
    ensures var u := UserStep(Begun(s, Prompt(Some(call))), s.current, Prompt(Some(call)).choice);
      && u.current == s.current && u.tasks[s.current].pendingCall == Some(call) && u.tasks[s.current].state == Running
      && u.tasks[s.current].kind == UserSpace && Prepared(s, Issued(u))
  {
    assert Member(s.tasks[s.current], s.current, ranks[s.current]);
    BegunQuiet(s, Prompt(Some(call)));
    BegunAwake(s, Some(call));
    var a := Begun(s, Prompt(Some(call)));
    Chooses(a, Some(call));
    IssuedForm(UserStep(a, s.current, Prompt(Some(call)).choice));
  }

  /** A tick that shows scene `c`. */
  predicate Shows(s: State, ranks: seq<nat>, call: Option<Syscall>, c: Cast, slice: nat)
    requires Shape(s)
  {
    OnStage(Tick(s, Prompt(call)), ranks, c, slice) && Tick(s, Prompt(call)).clock.activity == NextActivity(s.clock.activity)
  }

  /** A tick is its call and its end. */
  lemma PromptedTick(s: State, ranks: seq<nat>, c: Cast, n: nat, call: Syscall) returns (x: State)
    requires Core(s) && OnStage(s, ranks, c, n) && s.current != 0 && s.clock.activity != MappingDemoPage && IsIpc(call)
    requires s.taken < s.config.supply
    ensures Core(x) && OnStage(x, ranks, c, n) && |Carried(x, call, Prompt(Some(call))).tasks| == |s.tasks|
    ensures !Carried(x, call, Prompt(Some(call))).clock.panicked && !Account(Carried(x, call, Prompt(Some(call))), s.current).clock.panicked ==>
      Tick(s, Prompt(Some(call))) == Ended(Carried(x, call, Prompt(Some(call))), s.current, NextActivity(s.clock.activity))
  {
    Prompted(s, ranks, call);
    BegunQuiet(s, Prompt(Some(call)));
    var u := UserStep(Begun(s, Prompt(Some(call))), s.current, Prompt(Some(call)).choice);
    x := Issued(u);
    PreparedCast(s, x, ranks, c, n);
    PreparedCore(s, x);
    CarriedForm(u, Prompt(Some(call)));
    assert HandlePending(u, Prompt(Some(call))) == Carried(x, call, Prompt(Some(call)));
    if !Carried(x, call, Prompt(Some(call))).clock.panicked {
      TickForm(s, Prompt(Some(call)));
    }
  }

  lemma QueueTick(s: State, ranks: seq<nat>, c: Cast, n: nat, e: nat, msg: Word, k: nat)
    requires Core(s) && OnStage(s, ranks, c, n) && s.clock.activity != MappingDemoPage && s.taken < s.config.supply
    requires Placed(c, e) && c.endpoints[e].receiver == None && Leads(c, ranks, k) && c.ready[k] != c.current && Lively(Queue(c, e, k))
    ensures Shows(s, ranks, Some(CallSend(e, msg)), Queue(c, e, k), 0)
  {
    var x := PromptedTick(s, ranks, c, n, CallSend(e, msg));
    QueueCast(x, ranks, c, n, e, msg, k);
    EndsSwitched(Send(x, e, msg), s.current, NextActivity(s.clock.activity), ranks, Queue(c, e, k));
  }

  lemma ListenTick(s: State, ranks: seq<nat>, c: Cast, n: nat, e: nat, k: nat)
    requires Core(s) && OnStage(s, ranks, c, n) && s.clock.activity != MappingDemoPage && s.taken < s.config.supply
    requires Placed(c, e) && Leads(c, ranks, k) && c.ready[k] != c.current && Lively(Listen(c, e, k))
    requires c.endpoints[e].receiver == None && c.endpoints[e].senders == []
    ensures Shows(s, ranks, Some(CallRecv(e)), Listen(c, e, k), 0)
  {
    var x := PromptedTick(s, ranks, c, n, CallRecv(e));
    ListenCast(x, ranks, c, n, e, k);
    EndsSwitched(Recv(x, e), s.current, NextActivity(s.clock.activity), ranks, Listen(c, e, k));
  }

  lemma TakeTick(s: State, ranks: seq<nat>, c: Cast, n: nat, e: nat, y: nat)
    requires Core(s) && OnStage(s, ranks, c, n) && n < 4 && s.clock.activity != MappingDemoPage && s.taken < s.config.supply
    requires Placed(c, e) && c.endpoints[e].senders == [y] && y < |c.posts| && Lively(Take(c, e, y))
    ensures Shows(s, ranks, Some(CallRecv(e)), Take(c, e, y), n + 1)
  {
    var x := PromptedTick(s, ranks, c, n, CallRecv(e));
    TakeCast(x, ranks, c, n, e, y);
    EndsRunning(Recv(x, e), NextActivity(s.clock.activity), ranks, Take(c, e, y), n);
  }

  lemma HandTick(s: State, ranks: seq<nat>, c: Cast, n: nat, e: nat, msg: Word, y: nat)
    requires Core(s) && OnStage(s, ranks, c, n) && s.clock.activity != MappingDemoPage && s.taken < s.config.supply
    requires Placed(c, e) && c.endpoints[e].receiver == Some(y) && c.ready == [] && y < |c.posts| && y != c.current && Lively(Hand(c, e, y))
    ensures Shows(s, ranks, Some(CallSend(e, msg)), Hand(c, e, y), 0)
  {
    var x := PromptedTick(s, ranks, c, n, CallSend(e, msg));
    HandCast(x, ranks, c, n, e, msg, y);
    EndsSwitched(Send(x, e, msg), s.current, NextActivity(s.clock.activity), ranks, Hand(c, e, y));
  }

  // ---------------------------------------------------------------------------
  // Ticks without a call
  // ---------------------------------------------------------------------------

  /** The kernel task has not mapped its page yet. */
  predicate Untapped(t: Task) {
    t.space == Space(map[], map[], true) && t.demoFrame == None && !t.demoMapped && t.kind == KernelSpace
  }

  /** The state after the running task's program, which makes no call. */
  function Mused(s: State): State
    requires Shape(s)
  {
    HandlePending(UserStep(Begun(s, Prompt(None)), s.current, Prompt(None).choice), Prompt(None))
  }

  lemma MapsFirstPage(s: State)
    requires Shape(s) && s.current == 0 && Untapped(s.tasks[0]) && s.taken < s.config.supply
    ensures var r := KernelMemDemo(s, 0); r.clock == s.clock && OnlyDemo(s, r, 0)
  {
    KernelDemoForm(s, 0);
    FirstPageFree(s);
  }

  lemma FirstPageFree(s: State)
    requires Shape(s) && s.current == 0 && Untapped(s.tasks[0]) && s.taken < s.config.supply
    ensures MapFor(s, 0, DEMO_PAGE_TASK0, DEMO_FLAGS_TASK0, 0).1 == Returned(OK)
    ensures KernelMemDemo(s, 0).clock == s.clock
  {
    var t := DemoFrame(s, 0).0.tasks[0];
    assert t.space == Space(map[], map[], true);
    assert Permitted(DEMO_PAGE_TASK0, DEMO_FLAGS_TASK0);
  }

  /** The idle task has nothing to do but to map its page in time. */
  lemma IdleBegins(s: State)
    requires Shape(s) && s.current == 0 && s.tasks[0].state == Running && s.taken < s.config.supply
    requires s.clock.activity == MappingDemoPage ==> Untapped(s.tasks[0])
    ensures Prepared(s, Begun(s, Prompt(None)))
    ensures s.clock.activity != MappingDemoPage ==> Begun(s, Prompt(None)).tasks == s.tasks
  {
    if s.clock.activity == MappingDemoPage {
      MapsFirstPage(StartTick(s));
    } else {
      BegunQuiet(s, Prompt(None));
      BegunAwake(s, None);
    }
  }

  lemma IdleMuses(s: State)
    requires Shape(s) && s.current == 0 && s.tasks[0].state == Running && s.tasks[0].pendingCall == None && s.taken < s.config.supply
    requires s.clock.activity == MappingDemoPage ==> Untapped(s.tasks[0])
    ensures Prepared(s, Mused(s)) && (s.clock.activity != MappingDemoPage ==> SamePages(s.tasks[0], Mused(s).tasks[0]))
  {
    IdleBegins(s);
    var a := Begun(s, Prompt(None));
    Chooses(a, None);
    var u := UserStep(a, 0, Prompt(None).choice);
    assert HandlePending(u, Prompt(None)) == u;
    assert a.tasks[0 := u.tasks[0]] == s.tasks[0 := u.tasks[0]];
  }

  lemma MusedTick(s: State)
    requires Shape(s) && !s.clock.halted && Begun(s, Prompt(None)).current == s.current
    requires Begun(s, Prompt(None)).tasks[s.current].state != Dead && !Begun(s, Prompt(None)).clock.panicked
    requires Shape(Mused(s)) && s.current < |Mused(s).tasks| && !Mused(s).clock.panicked && !Account(Mused(s), s.current).clock.panicked
    ensures Tick(s, Prompt(None)) == Ended(Mused(s), s.current, NextActivity(s.clock.activity))
  {
    TickForm(s, Prompt(None));
  }

  lemma IdleTick(s: State, ranks: seq<nat>, c: Cast, n: nat)
    requires Core(s) && OnStage(s, ranks, c, n) && n < 4 && c.current == 0 && Lively(c) && s.taken < s.config.supply
    requires Untapped(s.tasks[0])
    ensures Shows(s, ranks, None, c, n + 1)
    ensures s.clock.activity != MappingDemoPage ==> Untapped(Tick(s, Prompt(None)).tasks[0])
  {
    assert Member(s.tasks[0], 0, ranks[0]);
    IdleMuses(s);
    IdleBegins(s);
    var u := Mused(s);
    PreparedCast(s, u, ranks, c, n);
    EndsRunning(u, NextActivity(s.clock.activity), ranks, c, n);
    MusedTick(s);
  }

  lemma ExpiredSettled(u: State)
    requires Settled(u) && u.tasks[u.current].state == Running
    ensures Settled(Expired(UpdateRuntime(u, u.current)))
  {
    var m := UpdateRuntime(u, u.current);
    RuntimeNoted(u, u.current);
    NotedSettled(u, m);
    SliceNoted(m, m.tasks[u.current].slice + 1);
    NotedSettled(m, Expired(m));
  }

  /** The state in which the idle task's quantum is found expired. */
  lemma ExpiredForm(u: State)
    requires Shape(u) && u.tasks[u.current].state == Running && u.ready != []
    requires u.tasks[u.current].slice + 1 >= u.config.quantum
    ensures var x := Expired(UpdateRuntime(u, u.current));
      && Account(u, u.current) == Schedule(x) && SameRest(u, x) && Awake(u, x)
      && x.tasks == u.tasks[u.current := x.tasks[u.current]]
      && SameTask(u.tasks[u.current].(slice := x.tasks[u.current].slice), x.tasks[u.current])
  {
    var i := u.current;
    var t := u.tasks[i];
    var m := UpdateRuntime(u, i);
    assert m.tasks[i] == t.(runtimeTicks := t.runtimeTicks + 1);
    SetTaskTwice(u, i, m.tasks[i], m.tasks[i].(slice := t.slice + 1));
    assert Account(u, i) == ChargeSlice(m);
    PreemptForm(m);
  }

  lemma PreemptCast(u: State, ranks: seq<nat>, c: Cast, k: nat)
    requires Settled(u) && OnStage(u, ranks, c, 4) && u.tasks[0].state == Running && c.current == 0 && Leads(c, ranks, k) && c.ready[k] != 0
    ensures Shape(Account(u, 0)) && OnStage(Account(u, 0), ranks, Yield(c, k), 0)
  {
    ExpiredSettled(u);
    ExpiredForm(u);
    var x := Expired(UpdateRuntime(u, 0));
    SameCast(u, x, ranks);
    YieldCast(x, ranks, c, x.tasks[0].slice, k);
  }

  lemma AliveEnds(r: State, next: Activity, ranks: seq<nat>, c: Cast)
    requires OnStage(r, ranks, c, 0) && Lively(c)
    ensures var e := MaybeHalt(SetActivity(r, next)); OnStage(e, ranks, c, 0) && e.clock.activity == next
  {
    LivelyAlive(r, ranks, c, 0);
    AliveStill(r, SetActivity(r, next));
    SameCast(r, SetActivity(r, next), ranks);
  }

  /** The idle task's quantum ends, and the best ready task runs. */
  lemma YieldTick(s: State, ranks: seq<nat>, c: Cast, k: nat)
    requires Core(s) && OnStage(s, ranks, c, 4) && c.current == 0 && Leads(c, ranks, k) && c.ready[k] != 0 && Lively(Yield(c, k))
    requires s.clock.activity != MappingDemoPage && s.taken < s.config.supply
    ensures Shows(s, ranks, None, Yield(c, k), 0)
  {
    assert Member(s.tasks[0], 0, ranks[0]);
    IdleMuses(s);
    IdleBegins(s);
    var u := Mused(s);
    PreparedCast(s, u, ranks, c, 4);
    PreparedCore(s, u);
    PreemptCast(u, ranks, c, k);
    AliveEnds(Account(u, 0), NextActivity(s.clock.activity), ranks, Yield(c, k));
    MusedTick(s);
  }

  /** The memory demo of the running task costs it a tick. */
  lemma StallMuses(s: State, ranks: seq<nat>)
    requires Core(s) && Troupe(s, ranks) && s.current != 0 && s.clock.activity == MappingDemoPage && s.tasks[s.current].stage == 0
    requires s.taken < s.config.supply
    ensures var m := Mused(s);
      && SameRest(s, m) && Awake(s, m) && m.tasks == s.tasks[s.current := m.tasks[s.current]]
      && SameTask(s.tasks[s.current].(stage := 1), m.tasks[s.current])
    ensures var a := Begun(s, Prompt(None)); a.current == s.current && a.tasks[s.current].state == Running && Awake(s, a)
  {
    assert Member(s.tasks[s.current], s.current, ranks[s.current]);
    BegunDemo(s, Prompt(None));
    BegunAwake(s, None);
    PageStalls(Begun(s, Prompt(None)), Prompt(None));
  }

  lemma StallCast(s: State, m: State, ranks: seq<nat>, c: Cast, n: nat)
    requires OnStage(s, ranks, c, n) && SameRest(s, m) && Awake(s, m) && m.tasks == s.tasks[s.current := m.tasks[s.current]]
    requires SameTask(s.tasks[s.current].(stage := 1), m.tasks[s.current])
    ensures OnStage(m, ranks, Stall(c), n)
  {
    forall k: nat | k < |m.tasks| ensures Member(m.tasks[k], k, ranks[k]) { assert Member(s.tasks[k], k, ranks[k]); }
    assert Posts(m.tasks) == Posts(s.tasks)[s.current := PostOf(s.tasks[s.current]).(stage := 1)];
  }

  lemma StallTick(s: State, ranks: seq<nat>, c: Cast, n: nat)
    requires Core(s) && OnStage(s, ranks, c, n) && n < 4 && c.current != 0 && s.clock.activity == MappingDemoPage
    requires Lively(Stall(c)) && c.posts[c.current].stage == 0 && s.taken < s.config.supply
    ensures Shows(s, ranks, None, Stall(c), n + 1)
  {
    assert Posts(s.tasks)[s.current].stage == 0;
    StallMuses(s, ranks);
    var m := Mused(s);
    StallCast(s, m, ranks, c, n);
    EndsRunning(m, NextActivity(s.clock.activity), ranks, Stall(c), n);
    MusedTick(s);
  }

  // ---------------------------------------------------------------------------
  // Runs
  // ---------------------------------------------------------------------------

  const BUSY := Post(Running, None, 0)
  const FREE := Post(Ready, None, 0)

  /** After `steps`, in which nobody is killed, the kernel shows scene `c`. */
  ghost predicate Reached(b: State, steps: seq<Step>, ranks: seq<nat>, c: Cast, slice: nat, a: Activity) {
    && Shape(b) && KillFree(steps) && Core(Run(b, steps)) && OnStage(Run(b, steps), ranks, c, slice)
    && Run(b, steps).clock.activity == a && Run(b, steps).taken <= b.taken + 2 * |steps|
  }

  function Then(steps: seq<Step>, call: Option<Syscall>): seq<Step> {
    steps + [TickStep(Prompt(call))]
  }

  lemma ThenTick(b: State, steps: seq<Step>, call: Option<Syscall>)
    requires Shape(b) && KillFree(steps) && Core(Run(b, steps)) && !Run(b, steps).clock.panicked
    ensures KillFree(Then(steps, call)) && Run(b, Then(steps, call)) == Tick(Run(b, steps), Prompt(call))
    ensures Core(Run(b, Then(steps, call)))
  {
    assert Then(steps, call)[..|steps|] == steps;
    AnythingInductive();
    TickKeeps(Run(b, steps), Prompt(call), (x: State) => true, ALL);
  }

  lemma ThenShows(b: State, steps: seq<Step>, ranks: seq<nat>, c: Cast, n: nat, a: Activity, call: Option<Syscall>, d: Cast, slice: nat)
    requires Reached(b, steps, ranks, c, n, a) && Shows(Run(b, steps), ranks, call, d, slice)
    ensures Reached(b, Then(steps, call), ranks, d, slice, NextActivity(a))
  {
    ThenTick(b, steps, call);
    TickTakes(Run(b, steps), Prompt(call));
  }

  lemma Begins(b: State, ranks: seq<nat>, c: Cast)
    requires Booted(b) && OnStage(b, ranks, c, 0)
    ensures Reached(b, [], ranks, c, 0, Idle)
  {
    BootedCore(b);
  }

  lemma IdleStep(b: State, steps: seq<Step>, ranks: seq<nat>, c: Cast, n: nat, a: Activity)
    requires Reached(b, steps, ranks, c, n, a) && n < 4 && c.current == 0 && Lively(c) && b.taken < 100 && |steps| < 100
    requires Untapped(Run(b, steps).tasks[0])
    ensures Reached(b, Then(steps, None), ranks, c, n + 1, NextActivity(a))
    ensures a != MappingDemoPage ==> Untapped(Run(b, Then(steps, None)).tasks[0])
  {
    IdleTick(Run(b, steps), ranks, c, n);
    ThenShows(b, steps, ranks, c, n, a, None, c, n + 1);
    ThenTick(b, steps, None);
  }

  /** The idle task's quantum, up to its last tick. */
  lemma IdleWait(b: State, ranks: seq<nat>, c: Cast) returns (steps: seq<Step>)
    requires Reached(b, [], ranks, c, 0, Idle) && c.current == 0 && Lively(c) && Untapped(b.tasks[0]) && b.taken < 100
    ensures |steps| == 4 && Reached(b, steps, ranks, c, 4, Idle)
  {
    IdleStep(b, [], ranks, c, 0, Idle);
    steps := Then([], None);
    IdleStep(b, steps, ranks, c, 1, UpdatingTimer);
    steps := Then(steps, None);
    IdleStep(b, steps, ranks, c, 2, AllocatingFrame);
    steps := Then(steps, None);
    IdleStep(b, steps, ranks, c, 3, MappingDemoPage);
    steps := Then(steps, None);
  }

  /** A run that can go on: it has come to scene `c`, and there are frames left. */
  ghost predicate GoesOn(b: State, steps: seq<Step>, ranks: seq<nat>, c: Cast, n: nat, a: Activity) {
    Reached(b, steps, ranks, c, n, a) && b.taken < 100 && |steps| < 100
  }

  lemma QueueStep(b: State, steps: seq<Step>, ranks: seq<nat>, c: Cast, n: nat, a: Activity, e: nat, msg: Word, k: nat)
    requires GoesOn(b, steps, ranks, c, n, a) && a != MappingDemoPage
    requires Placed(c, e) && c.endpoints[e].receiver == None && Leads(c, ranks, k) && c.ready[k] != c.current && Lively(Queue(c, e, k))
    ensures Reached(b, Then(steps, Some(CallSend(e, msg))), ranks, Queue(c, e, k), 0, NextActivity(a))
  {
    QueueTick(Run(b, steps), ranks, c, n, e, msg, k);
    ThenShows(b, steps, ranks, c, n, a, Some(CallSend(e, msg)), Queue(c, e, k), 0);
  }

  lemma ListenStep(b: State, steps: seq<Step>, ranks: seq<nat>, c: Cast, n: nat, a: Activity, e: nat, k: nat)
    requires GoesOn(b, steps, ranks, c, n, a) && a != MappingDemoPage
    requires Placed(c, e) && Leads(c, ranks, k) && c.ready[k] != c.current && Lively(Listen(c, e, k))
    requires c.endpoints[e].receiver == None && c.endpoints[e].senders == []
    ensures Reached(b, Then(steps, Some(CallRecv(e))), ranks, Listen(c, e, k), 0, NextActivity(a))
  {
    ListenTick(Run(b, steps), ranks, c, n, e, k);
    ThenShows(b, steps, ranks, c, n, a, Some(CallRecv(e)), Listen(c, e, k), 0);
  }

  lemma TakeStep(b: State, steps: seq<Step>, ranks: seq<nat>, c: Cast, n: nat, a: Activity, e: nat, y: nat)
    requires GoesOn(b, steps, ranks, c, n, a) && a != MappingDemoPage && n < 4
    requires Placed(c, e) && c.endpoints[e].senders == [y] && y < |c.posts| && Lively(Take(c, e, y))
    ensures Reached(b, Then(steps, Some(CallRecv(e))), ranks, Take(c, e, y), n + 1, NextActivity(a))
  {
    TakeTick(Run(b, steps), ranks, c, n, e, y);
    ThenShows(b, steps, ranks, c, n, a, Some(CallRecv(e)), Take(c, e, y), n + 1);
  }

  lemma HandStep(b: State, steps: seq<Step>, ranks: seq<nat>, c: Cast, n: nat, a: Activity, e: nat, msg: Word, y: nat)
    requires GoesOn(b, steps, ranks, c, n, a) && a != MappingDemoPage
    requires Placed(c, e) && c.endpoints[e].receiver == Some(y) && c.ready == [] && y < |c.posts| && y != c.current && Lively(Hand(c, e, y))
    ensures Reached(b, Then(steps, Some(CallSend(e, msg))), ranks, Hand(c, e, y), 0, NextActivity(a))
  {
    HandTick(Run(b, steps), ranks, c, n, e, msg, y);
    ThenShows(b, steps, ranks, c, n, a, Some(CallSend(e, msg)), Hand(c, e, y), 0);
  }

  lemma StallStep(b: State, steps: seq<Step>, ranks: seq<nat>, c: Cast, n: nat)
    requires GoesOn(b, steps, ranks, c, n, MappingDemoPage) && n < 4 && c.current != 0
    requires c.current < |c.posts| && Lively(Stall(c)) && c.posts[c.current].stage == 0
    ensures Reached(b, Then(steps, None), ranks, Stall(c), n + 1, Idle)
  {
    StallTick(Run(b, steps), ranks, c, n);
    ThenShows(b, steps, ranks, c, n, MappingDemoPage, None, Stall(c), n + 1);
  }

  lemma YieldStep(b: State, steps: seq<Step>, ranks: seq<nat>, c: Cast, a: Activity, k: nat)
    requires GoesOn(b, steps, ranks, c, 4, a) && a != MappingDemoPage
    requires c.current == 0 && Leads(c, ranks, k) && c.ready[k] != 0 && Lively(Yield(c, k))
    ensures Reached(b, Then(steps, None), ranks, Yield(c, k), 0, NextActivity(a))
  {
    YieldTick(Run(b, steps), ranks, c, k);
    ThenShows(b, steps, ranks, c, 4, a, None, Yield(c, k), 0);
  }
}
