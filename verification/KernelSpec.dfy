/** What each kernel operation does, as a function of the kernel state. The branches,
    including the repair and capacity branches, are those of the operation itself. */
module KernelSpec {
  import opened KernelTypes
  import opened PageOps
  import opened Words

  // ---------------------------------------------------------------------------
  // Queues
  // ---------------------------------------------------------------------------

  /** Order-keeping removal of every occurrence of `x`. */
  function RemoveAll(q: seq<nat>, x: nat): seq<nat> {
    if q == [] then []
    else
      var rest := RemoveAll(q[..|q| - 1], x);
      if q[|q| - 1] == x then rest else rest + [q[|q| - 1]]
  }

  /** The entries of `q` that name a Ready task, in order. */
  function KeepReady(tasks: seq<Task>, q: seq<nat>): seq<nat> {
    if q == [] then []
    else
      var rest := KeepReady(tasks, q[..|q| - 1]);
      var x := q[|q| - 1];
      if x < |tasks| && tasks[x].state == Ready then rest + [x] else rest
  }

  /** Removal that fills the hole with the last entry. */
  function SwapRemove(q: seq<nat>, pos: nat): seq<nat>
    requires pos < |q|
  {
    q[pos := q[|q| - 1]][..|q| - 1]
  }

  /** Swap-removal of every occurrence of `x` from position `pos` on. */
  function SwapPurge(q: seq<nat>, x: nat, pos: nat): seq<nat>
    decreases |q| - pos
  {
    if pos >= |q| then q
    else if q[pos] == x then SwapPurge(SwapRemove(q, pos), x, pos)
    else SwapPurge(q, x, pos + 1)
  }

  /** Priority of the task that a queue entry names; entries out of range never win. */
  function PriorityOf(tasks: seq<Task>, x: nat): nat {
    if x < |tasks| then tasks[x].priority else 0
  }

  /** The first position of the highest priority among the first `k` entries. */
  function BestPos(tasks: seq<Task>, q: seq<nat>, k: nat): (b: nat)
    requires 0 < k <= |q|
    ensures b < k
  {
    if k == 1 then 0
    else
      var b := BestPos(tasks, q, k - 1);
      if q[k - 1] < |tasks| && PriorityOf(tasks, q[k - 1]) > PriorityOf(tasks, q[b]) then k - 1 else b
  }

  // ---------------------------------------------------------------------------
  // State updates
  // ---------------------------------------------------------------------------

  /** What indexing in the kernel relies on. */
  predicate Shape(s: State) {
    s.current < |s.tasks|
  }

  /** An update that moves no task or endpoint. */
  predicate Sized(s: State, r: State) {
    |r.tasks| == |s.tasks| && |r.endpoints| == |s.endpoints|
  }

  /** An update in which no time passes either. */
  predicate Timely(s: State, r: State) {
    Sized(s, r) && r.clock.tickCount == s.clock.tickCount && r.clock.timeTicks == s.clock.timeTicks && r.clock.activity == s.clock.activity
  }

  /** An update that takes no frame either. */
  predicate Spares(s: State, r: State) {
    Timely(s, r) && r.taken == s.taken
  }

  /** An update that also leaves the current task in place. */
  predicate Keeps(s: State, r: State) {
    Spares(s, r) && r.current == s.current
  }

  function SetTask(s: State, i: nat, t: Task): (r: State)
    requires i < |s.tasks|
    ensures Keeps(s, r)
  {
    s.(tasks := s.tasks[i := t])
  }

  function SetEp(s: State, e: nat, ep: Endpoint): (r: State)
    requires e < |s.endpoints|
    ensures Keeps(s, r)
  {
    s.(endpoints := s.endpoints[e := ep])
  }

  function Halt(s: State): State {
    s.(clock := s.clock.(halted := true))
  }

  /** A panic stops the kernel for good; what it was about to change no longer matters. */
  function Panic(s: State): State {
    s.(clock := s.clock.(halted := true, panicked := true))
  }

  function Emit(s: State, ev: Event): State {
    s.(history := s.history + [ev])
  }

  // ---------------------------------------------------------------------------
  // Scheduler
  // ---------------------------------------------------------------------------

  /** wake_task_to_ready */
  function Wake(s: State, i: nat): (r: State)
    ensures Keeps(s, r)
  {
    if i >= |s.tasks| || s.tasks[i].state == Dead then s
    else
      var t := s.tasks[i];
      if t.state == Ready || t.state == Running then SetTask(s, i, t.(reason := None))
      else
        var s1 := SetTask(s, i, t.(state := Ready, reason := None, slice := 0));
        var s2 := if i in s.ready || |s.ready| >= |s.tasks| then s1 else s1.(ready := s.ready + [i]);
        Emit(s2, TaskStateChanged(t.id, Ready))
  }

  /** block_task */
  function Block(s: State, i: nat, why: BlockedReason): (r: State)
    ensures Keeps(s, r)
  {
    if i >= |s.tasks| || s.tasks[i].state == Dead then s
    else
      var t := s.tasks[i];
      var s1 := SetTask(s, i, t.(state := Blocked, reason := Some(why), slice := 0));
      Emit(s1.(ready := RemoveAll(s.ready, i)), TaskStateChanged(t.id, Blocked))
  }

  /** enqueue_ready */
  function EnqueueReady(s: State, i: nat): (r: State)
    ensures Keeps(s, r)
  {
    if |s.ready| >= |s.tasks| || i >= |s.tasks| || i in s.ready || s.tasks[i].state != Ready then s
    else Emit(s.(ready := s.ready + [i]), ReadyQueued(s.tasks[i].id))
  }

  /** The part of schedule_next_task that puts a still running task back. */
  function Requeue(s: State, i: nat): (r: State)
    requires i < |s.tasks|
    ensures Keeps(s, r)
  {
    var t := s.tasks[i];
    var s1 := Emit(SetTask(s, i, t.(state := Ready, reason := None, slice := 0)), TaskStateChanged(t.id, Ready));
    if i == TASK0_INDEX then s1 else EnqueueReady(s1, i)
  }

  /** The part of schedule_next_task that falls back to the idle task. */
  function RunIdle(s: State): (r: State)
    requires Shape(s)
    ensures Spares(s, r) && Shape(r)
  {
    var t := s.tasks[TASK0_INDEX];
    if t.state == Dead then Halt(s)
    else
      var s1 := SetTask(s, TASK0_INDEX, t.(state := Running, reason := None, slice := 0));
      Emit(Emit(s1.(current := TASK0_INDEX, cr3 := 0), TaskSwitched(t.id)), TaskStateChanged(t.id, Running))
  }

  /** The root loaded when task `i` is dispatched. */
  function NextCr3(s: State, i: nat): nat
    requires i < |s.tasks|
  {
    match s.tasks[i].kind
    case KernelSpace => 0
    case UserSpace => if s.tasks[i].space.rooted && s.config.allowSwitch then i else s.cr3
  }

  /** The end of schedule_next_task: `next` runs. */
  function Start(s: State, next: nat, prev: nat): (r: State)
    requires next < |s.tasks|
    ensures Spares(s, r) && Shape(r)
  {
    var t := s.tasks[next];
    var s2 := SetTask(s, next, t.(state := Running, slice := 0, reason := None)).(current := next);
    var c := if next != prev then s.counters.(switches := s.counters.switches + 1) else s.counters;
    var s3 := s2.(cr3 := NextCr3(s2, next), counters := c);
    Emit(Emit(s3, TaskSwitched(t.id)), TaskStateChanged(t.id, Running))
  }

  /** dequeue_ready_highest_priority and the rest of schedule_next_task. */
  function Dispatch(s: State, prev: nat): (r: State)
    requires Shape(s)
    ensures Spares(s, r) && Shape(r)
  {
    var q := KeepReady(s.tasks, s.ready);
    if q == [] then Halt(s.(ready := []))
    else
      var b := BestPos(s.tasks, q, |q|);
      var next := q[b];
      if next >= |s.tasks| then Halt(s.(ready := []))
      else Start(Emit(s.(ready := SwapRemove(q, b)), ReadyDequeued(s.tasks[next].id)), next, prev)
  }

  /** schedule_next_task */
  function Schedule(s: State): (r: State)
    requires Shape(s)
    ensures Spares(s, r) && Shape(r)
  {
    var s1 := s.(ready := KeepReady(s.tasks, s.ready));
    var s2 := if s1.tasks[s.current].state == Running then Requeue(s1, s.current) else s1;
    if s2.ready == [] then RunIdle(s2) else Dispatch(s2, s.current)
  }

  // ---------------------------------------------------------------------------
  // IPC
  // ---------------------------------------------------------------------------

  /** rescue_task_with_error */
  function Rescue(s: State, i: nat, err: Word): (r: State)
    ensures Keeps(s, r)
  {
    if i >= |s.tasks| || s.tasks[i].state == Dead then s
    else Wake(SetTask(s, i, s.tasks[i].(pendingMsg := None, reason := None, lastReply := Some(err))), i)
  }

  /** try_enqueue_sender: the new line and whether there was room. */
  function Enqueue(q: seq<nat>, i: nat, capacity: nat): (r: (seq<nat>, bool)) {
    if |q| >= capacity then (q, false)
    else if i in q then (q, true)
    else (q + [i], true)
  }

  function SetReply(s: State, i: nat, v: Word): (r: State)
    requires i < |s.tasks|
    ensures Keeps(s, r)
  {
    SetTask(s, i, s.tasks[i].(lastReply := Some(v)))
  }

  predicate QueuedSender(s: State, e: nat, x: nat) {
    x < |s.tasks| && s.tasks[x].state == Blocked && s.tasks[x].reason == Some(IpcSend(e))
  }

  /** The dequeue loop of ipc_recv_fastpath: broken entries are dropped. */
  function PopSender(s: State, e: nat): (r: (State, Option<nat>))
    requires e < |s.endpoints|
    ensures Keeps(s, r.0)
    decreases |s.endpoints[e].senders|
  {
    var ep := s.endpoints[e];
    if ep.senders == [] then (s, None)
    else
      var x := ep.senders[|ep.senders| - 1];
      var s1 := SetEp(s, e, ep.(senders := ep.senders[..|ep.senders| - 1]));
      if QueuedSender(s, e, x) then (s1, Some(x)) else PopSender(s1, e)
  }

  /** The end of ipc_recv_fastpath: `me` has the message, and its sender `x` awaits the reply. */
  function Delivered(s: State, e: nat, x: nat, me: nat, msg: Word): (r: State)
    requires x < |s.tasks| && me < |s.tasks|
    ensures Keeps(s, r)
  {
    var s3 := Block(s, x, IpcReply(s.tasks[me].id, e));
    var s4 := SetTask(s3, me, s3.tasks[me].(lastMsg := Some(msg)));
    var s5 := s4.(counters := s4.counters.(recvFast := s4.counters.recvFast + 1));
    Emit(s5, IpcDelivered(s.tasks[x].id, s.tasks[me].id, e, msg))
  }

  /** The rest of ipc_recv_fastpath, once a sender `x` has been dequeued. */
  function TakeFrom(s: State, e: nat, x: nat): (r: (State, bool))
    requires Shape(s) && e < |s.endpoints| && x < |s.tasks|
    ensures Keeps(s, r.0)
  {
    var me := s.current;
    if s.tasks[x].pendingMsg == None then (Rescue(s, x, IPC_ERR_DEAD_PARTNER), false)
    else
      var msg := s.tasks[x].pendingMsg.value;
      var s1 := SetTask(s, x, s.tasks[x].(pendingMsg := None));
      var (line, ok) := Enqueue(s1.endpoints[e].repliers, x, |s.tasks|);
      if !ok then (Rescue(s1, x, IPC_ERR_CAPACITY), false)
      else
        (Delivered(SetEp(s1, e, s1.endpoints[e].(repliers := line)), e, x, me, msg), true)
  }

  /** ipc_recv_fastpath */
  function RecvFast(s: State, e: nat): (r: (State, bool))
    requires Shape(s) && e < |s.endpoints|
    ensures Keeps(s, r.0)
  {
    var (s1, who) := PopSender(s, e);
    match who
    case None => (s1, false)
    case Some(x) => if x < |s1.tasks| then TakeFrom(s1, e, x) else (s1, false)
  }

  /** ipc_recv_slowpath before it schedules. */
  function RecvWait(s: State, e: nat): (r: State)
    requires Shape(s) && e < |s.endpoints|
    ensures Keeps(s, r)
  {
    var s1 := s.(counters := s.counters.(recvSlow := s.counters.recvSlow + 1));
    var s2 := Block(s1, s.current, IpcRecv(e));
    var s3 := SetEp(s2, e, s2.endpoints[e].(receiver := Some(s.current)));
    Emit(s3, IpcRecvBlocked(s.tasks[s.current].id, e))
  }

  /** ipc_recv_slowpath */
  function RecvSlow(s: State, e: nat): (r: State)
    requires Shape(s) && e < |s.endpoints|
    ensures Spares(s, r) && Shape(r)
  {
    if s.endpoints[e].receiver.Some? then SetReply(s, s.current, IPC_ERR_RECV_ALREADY_WAITING)
    else Schedule(RecvWait(s, e))
  }

  /** The checks at the entry of ipc_recv, ipc_send and ipc_reply. */
  function Gate(s: State, e: nat): (r: Option<State>)
    requires Shape(s)
    ensures r == None ==> e < |s.endpoints| && !s.endpoints[e].closed
    ensures r.Some? ==> Keeps(s, r.value)
  {
    var t := s.tasks[s.current];
    if e >= |s.endpoints| || t.state == Dead then Some(s)
    else if t.kind == KernelSpace then Some(SetReply(s, s.current, IPC_ERR_DEAD_PARTNER))
    else if s.endpoints[e].closed then Some(SetReply(s, s.current, IPC_ERR_ENDPOINT_CLOSED))
    else None
  }

  /** ipc_recv */
  function Recv(s: State, e: nat): (r: State)
    requires Shape(s)
    ensures Spares(s, r) && Shape(r)
  {
    match Gate(s, e)
    case Some(rejected) => rejected
    case None =>
      var s1 := Emit(s, IpcRecvCalled(s.tasks[s.current].id, e));
      var (s2, done) := RecvFast(s1, e);
      if done then s2 else RecvSlow(s2, e)
  }

  /** The receiver that ipc_send_fastpath accepts, if any. */
  function WaitingReceiver(s: State, e: nat): (r: Option<nat>)
    requires e < |s.endpoints|
    ensures r.Some? ==> r.value < |s.tasks|
  {
    match s.endpoints[e].receiver
    case None => None
    case Some(x) =>
      if x < |s.tasks| && s.tasks[x].state != Dead && s.tasks[x].reason == Some(IpcRecv(e)) then Some(x) else None
  }

  /** The end of ipc_send_fastpath: the sender awaits the reply of `x`. */
  function AwaitReply(s: State, e: nat, x: nat, msg: Word): (r: State)
    requires Shape(s) && x < |s.tasks|
    ensures Keeps(s, r)
  {
    var s4 := Block(s, s.current, IpcReply(s.tasks[x].id, e));
    var s5 := s4.(counters := s4.counters.(sendFast := s4.counters.sendFast + 1));
    Emit(s5, IpcDelivered(s.tasks[s.current].id, s.tasks[x].id, e, msg))
  }

  /** ipc_send_fastpath to receiver `x`, before it schedules; false when the sender
      found no room in the reply line and is not blocked. */
  function Handover(s: State, e: nat, x: nat, msg: Word): (r: (State, bool))
    requires Shape(s) && e < |s.endpoints| && x < |s.tasks|
    ensures Keeps(s, r.0)
  {
    var me := s.current;
    var s1 := Wake(SetEp(s, e, s.endpoints[e].(receiver := None)), x);
    var s2 := SetTask(s1, x, s1.tasks[x].(lastMsg := Some(msg)));
    var (line, ok) := Enqueue(s2.endpoints[e].repliers, me, |s.tasks|);
    if !ok then (SetReply(s2, me, IPC_ERR_CAPACITY), false)
    else
      (AwaitReply(SetEp(s2, e, s2.endpoints[e].(repliers := line)), e, x, msg), true)
  }

  /** The end of ipc_send_slowpath: the sender waits with its message. */
  function AwaitReceiver(s: State, e: nat, msg: Word): (r: State)
    requires Shape(s)
    ensures Keeps(s, r)
  {
    var s3 := SetTask(s, s.current, s.tasks[s.current].(pendingMsg := Some(msg)));
    Emit(Block(s3, s.current, IpcSend(e)), IpcSendBlocked(s.tasks[s.current].id, e))
  }

  /** ipc_send_slowpath before it schedules; false when there was no room. */
  function SendWait(s: State, e: nat, msg: Word): (r: (State, bool))
    requires Shape(s) && e < |s.endpoints|
    ensures Keeps(s, r.0)
  {
    var me := s.current;
    var s1 := s.(counters := s.counters.(sendSlow := s.counters.sendSlow + 1));
    var (line, ok) := Enqueue(s1.endpoints[e].senders, me, |s.tasks|);
    if !ok then (SetReply(s1, me, IPC_ERR_CAPACITY), false)
    else
      (AwaitReceiver(SetEp(s1, e, s1.endpoints[e].(senders := line)), e, msg), true)
  }

  /** ipc_send past its entry checks. */
  function SendOpen(s: State, e: nat, msg: Word): (r: State)
    requires Shape(s) && e < |s.endpoints|
    ensures Spares(s, r) && Shape(r)
  {
    match WaitingReceiver(s, e)
    case Some(x) =>
      var (s1, blocked) := Handover(s, e, x, msg);
      if blocked then Schedule(s1) else s1
    case None =>
      var (s1, blocked) := SendWait(s, e, msg);
      if blocked then Schedule(s1) else s1
  }

  /** ipc_send */
  function Send(s: State, e: nat, msg: Word): (r: State)
    requires Shape(s)
    ensures Spares(s, r) && Shape(r)
  {
    match Gate(s, e)
    case Some(rejected) => rejected
    case None => SendOpen(Emit(s, IpcSendCalled(s.tasks[s.current].id, e, msg)), e, msg)
  }

  predicate AwaitsReply(s: State, x: nat, partner: TaskId, e: nat) {
    x < |s.tasks| && s.tasks[x].state != Dead && s.tasks[x].reason == Some(IpcReply(partner, e))
  }

  /** take_reply_waiter_for_partner: scanning the line from its end, every entry that is
      not the partner's is dropped. The result is the remaining line, the waiter found,
      and the first live entry that was dropped. */
  function TakeScan(s: State, q: seq<nat>, partner: TaskId, e: nat, dropped: Option<nat>)
    : (r: (seq<nat>, Option<nat>, Option<nat>))
    ensures r.1.Some? ==> AwaitsReply(s, r.1.value, partner, e)
  {
    if q == [] then ([], None, dropped)
    else
      var x := q[|q| - 1];
      var rest := q[..|q| - 1];
      if AwaitsReply(s, x, partner, e) then (rest, Some(x), dropped)
      else if x >= |s.tasks| || s.tasks[x].state == Dead || dropped.Some? then TakeScan(s, rest, partner, e, dropped)
      else TakeScan(s, rest, partner, e, Some(x))
  }

  /** The end of ipc_reply: `x` gets the answer of the task with id `me`. */
  function Answer(s: State, e: nat, x: nat, me: TaskId, msg: Word): (r: State)
    requires x < |s.tasks|
    ensures Keeps(s, r)
  {
    var s2 := Emit(s, IpcReplyCalled(me, e, s.tasks[x].id));
    var s3 := Wake(SetReply(s2, x, msg), x);
    var s4 := s3.(counters := s3.counters.(replyDelivered := s3.counters.replyDelivered + 1));
    Emit(s4, IpcReplyDelivered(me, s.tasks[x].id, e))
  }

  /** ipc_reply past its entry checks. */
  function ReplyOpen(s: State, e: nat, msg: Word): (r: State)
    requires Shape(s) && e < |s.endpoints|
    ensures Keeps(s, r)
  {
    var me := s.tasks[s.current].id;
    var (line, found, dropped) := TakeScan(s, s.endpoints[e].repliers, me, e, None);
    var s1 := SetEp(s, e, s.endpoints[e].(repliers := line));
    match found
    case None => if dropped.Some? then Rescue(s1, dropped.value, IPC_ERR_DEAD_PARTNER) else s1
    case Some(x) => Answer(s1, e, x, me, msg)
  }

  /** ipc_reply */
  function Reply(s: State, e: nat, msg: Word): (r: State)
    requires Shape(s)
    ensures Keeps(s, r)
  {
    match Gate(s, e)
    case Some(rejected) => rejected
    case None => ReplyOpen(s, e, msg)
  }

  // ---------------------------------------------------------------------------
  // Kill
  // ---------------------------------------------------------------------------

  /** What close_endpoint_and_rescue_waiters does to one waiter. */
  function RescueClosed(s: State, x: nat, dropMsg: bool): (r: State)
    ensures Keeps(s, r)
    ensures r.endpoints == s.endpoints
  {
    if x >= |s.tasks| || s.tasks[x].state == Dead then s
    else
      var t := s.tasks[x];
      var t' := t.(reason := None, lastReply := Some(IPC_ERR_ENDPOINT_CLOSED),
                   pendingMsg := if dropMsg then None else t.pendingMsg);
      Wake(SetTask(s, x, t'), x)
  }

  function DrainReceiver(s: State, e: nat): (r: State)
    requires e < |s.endpoints|
    ensures Keeps(s, r)
  {
    match s.endpoints[e].receiver
    case None => s
    case Some(x) => RescueClosed(SetEp(s, e, s.endpoints[e].(receiver := None)), x, false)
  }

  function DrainSenders(s: State, e: nat): (r: State)
    requires e < |s.endpoints|
    ensures Keeps(s, r)
    decreases |s.endpoints[e].senders|
  {
    var ep := s.endpoints[e];
    if ep.senders == [] then s
    else
      var last := |ep.senders| - 1;
      DrainSenders(RescueClosed(SetEp(s, e, ep.(senders := ep.senders[..last])), ep.senders[last], true), e)
  }

  function DrainRepliers(s: State, e: nat): (r: State)
    requires e < |s.endpoints|
    ensures Keeps(s, r)
    decreases |s.endpoints[e].repliers|
  {
    var ep := s.endpoints[e];
    if ep.repliers == [] then s
    else
      var last := |ep.repliers| - 1;
      DrainRepliers(RescueClosed(SetEp(s, e, ep.(repliers := ep.repliers[..last])), ep.repliers[last], false), e)
  }

  /** close_endpoint_and_rescue_waiters */
  function CloseEndpoint(s: State, e: nat): (r: State)
    requires e < |s.endpoints|
    ensures Keeps(s, r)
  {
    if s.endpoints[e].closed then s
    else DrainRepliers(DrainSenders(DrainReceiver(SetEp(s, e, s.endpoints[e].(closed := true)), e), e), e)
  }

  /** Closing, in order from endpoint `e` on, the endpoints that `dead` owns. */
  function CloseOwned(s: State, dead: TaskId, e: nat): (r: State)
    ensures Keeps(s, r)
    decreases |s.endpoints| - e
  {
    if e >= |s.endpoints| then s
    else CloseOwned(if s.endpoints[e].owner == Some(dead) then CloseEndpoint(s, e) else s, dead, e + 1)
  }

  predicate Orphan(s: State, x: nat, dead: TaskId, e: nat) {
    x < |s.tasks| && s.tasks[x].state == Blocked && s.tasks[x].reason == Some(IpcReply(dead, e))
  }

  /** The waiter at position `pos` leaves its line with DEAD_PARTNER. */
  function FreeOrphan(s: State, e: nat, pos: nat): (r: State)
    requires e < |s.endpoints| && pos < |s.endpoints[e].repliers| && s.endpoints[e].repliers[pos] < |s.tasks|
    ensures Keeps(s, r) && |r.endpoints[e].repliers| == |s.endpoints[e].repliers| - 1
  {
    var ep := s.endpoints[e];
    var x := ep.repliers[pos];
    var s1 := SetEp(s, e, ep.(repliers := SwapRemove(ep.repliers, pos)));
    SetTask(s1, x, s1.tasks[x].(reason := None, lastReply := Some(IPC_ERR_DEAD_PARTNER)))
  }

  /** One endpoint's share of resolve_ipc_reply_waiters_for_dead_partner: orphans are
      swap-removed from the line and noted in the bounded wake list. */
  function ResolveLine(s: State, dead: TaskId, e: nat, pos: nat, wakes: seq<nat>): (r: (State, seq<nat>))
    requires e < |s.endpoints|
    ensures Keeps(s, r.0)
    decreases |s.endpoints[e].repliers| - pos
  {
    var ep := s.endpoints[e];
    if pos >= |ep.repliers| then (s, wakes)
    else
      var x := ep.repliers[pos];
      if Orphan(s, x, dead, e) then
        ResolveLine(FreeOrphan(s, e, pos), dead, e, pos, if |wakes| < |s.tasks| then wakes + [x] else wakes)
      else ResolveLine(s, dead, e, pos + 1, wakes)
  }

  function ResolveFrom(s: State, dead: TaskId, e: nat, wakes: seq<nat>): (r: (State, seq<nat>))
    ensures Keeps(s, r.0)
    decreases |s.endpoints| - e
  {
    if e >= |s.endpoints| then (s, wakes)
    else
      var (s1, w) := ResolveLine(s, dead, e, 0, wakes);
      ResolveFrom(s1, dead, e + 1, w)
  }

  function WakeAll(s: State, wakes: seq<nat>): (r: State)
    ensures Keeps(s, r)
    decreases |wakes|
  {
    if wakes == [] then s else WakeAll(Wake(s, wakes[0]), wakes[1..])
  }

  /** resolve_ipc_reply_waiters_for_dead_partner */
  function ResolveOrphans(s: State, dead: TaskId): (r: State)
    ensures Keeps(s, r)
  {
    var (s1, w) := ResolveFrom(s, dead, 0, []);
    WakeAll(s1, w)
  }

  function PurgeEndpoint(ep: Endpoint, i: nat): Endpoint {
    ep.(receiver := if ep.receiver == Some(i) then None else ep.receiver,
        senders := SwapPurge(ep.senders, i, 0),
        repliers := SwapPurge(ep.repliers, i, 0))
  }

  /** remove_task_from_endpoints */
  function PurgeEndpoints(eps: seq<Endpoint>, i: nat): (r: seq<Endpoint>)
    ensures |r| == |eps|
    ensures forall e :: 0 <= e < |eps| ==> r[e] == PurgeEndpoint(eps[e], i)
  {
    seq(|eps|, e requires 0 <= e < |eps| => PurgeEndpoint(eps[e], i))
  }

  function DeadTask(t: Task): Task {
    t.(state := Dead, reason := None, pendingCall := None, pendingMsg := None, lastMsg := None,
       lastReply := None, sysRet := None, sysRetUnread := false, slice := 0, stage := 0,
       demoFrame := None, demoMapped := false, space := if t.kind == UserSpace then Cleaned(t.space) else t.space)
  }

  /** Whether the cleanup of a killed task's mappings gets through without a panic. */
  predicate Removable(t: Task) {
    t.kind == UserSpace ==> CleanOk(t.space)
  }

  function CountKill(c: Counters, why: KillReason): Counters {
    match why
    case UserPageFault => c.(killedUserPf := c.killedUserPf + 1)
    case DemoInjected => c.(killedDemo := c.killedDemo + 1)
  }

  /** kill_task up to the point where the dead task has left every queue. */
  function Bury(s: State, i: nat): (r: State)
    requires i < |s.tasks|
    ensures Keeps(s, r)
  {
    SetTask(s.(ready := RemoveAll(s.ready, i), endpoints := PurgeEndpoints(s.endpoints, i)), i, DeadTask(s.tasks[i]))
  }

  /** kill_task before it schedules. */
  function KillQuietly(s: State, i: nat, why: KillReason): (r: State)
    requires Shape(s) && i < |s.tasks|
    ensures Keeps(s, r)
  {
    var dead := s.tasks[i].id;
    var s1 := Bury(s.(counters := CountKill(s.counters, why)), i);
    var s2 := ResolveOrphans(CloseOwned(s1, dead, 0), dead);
    Emit(Emit(s2, TaskKilled(dead, why)), TaskStateChanged(dead, Dead))
  }

  predicate UserAlive(s: State) {
    exists i :: 0 <= i < |s.tasks| && s.tasks[i].state != Dead && s.tasks[i].kind == UserSpace
  }

  /** maybe_halt_if_no_user_tasks */
  function MaybeHalt(s: State): (r: State)
    ensures Keeps(s, r)
  {
    if s.clock.haltDumped || UserAlive(s) then s
    else s.(cr3 := 0, clock := s.clock.(haltDumped := true, halted := true))
  }

  /** kill_task */
  function Kill(s: State, i: nat, why: KillReason): (r: State)
    requires Shape(s)
    ensures Spares(s, r) && Shape(r)
  {
    if i >= |s.tasks| then s.(counters := CountKill(s.counters, why))
    else if !Removable(s.tasks[i]) then Panic(s)
    else
      var s1 := KillQuietly(s, i, why);
      MaybeHalt(if i == s.current then Schedule(s1) else s1)
  }

  // ---------------------------------------------------------------------------
  // User programs and system calls
  // ---------------------------------------------------------------------------

  function KickMessage(tick: nat): Word { 0x1111_0000_0000_0000 ^ (Low16(tick % 0x10000) as Word) }

  function PeriodicMessage(tick: nat): Word { 0x2222_0000_0000_0000 ^ (Low16(tick % 0x10000) as Word) }

  function ServerReply(msg: Word): Word { 0xABCD_0000_0000_0000 ^ (msg & 0xFFFF) }

  function SetCall(s: State, i: nat, call: Syscall): State
    requires i < |s.tasks|
  {
    SetTask(s, i, s.tasks[i].(pendingCall := Some(call)))
  }

  /** Task1's part of user_step_issue_syscall. */
  function ClientStep(s: State, i: nat): (r: State)
    requires i < |s.tasks|
    ensures Keeps(s, r)
  {
    var s1 := SetTask(s, i, s.tasks[i].(lastReply := None));
    if !s1.sentByTask1 then SetCall(s1.(sentByTask1 := true), i, CallSend(IPC_DEMO_EP0, KickMessage(s.clock.tickCount)))
    else if s.clock.tickCount != 0 && s.clock.tickCount % IPC_KICK_PERIOD_TICKS == 0
            && IPC_DEMO_EP0 < |s.endpoints| && s.endpoints[IPC_DEMO_EP0].receiver.Some?
    then SetCall(s1, i, CallSend(IPC_DEMO_EP0, PeriodicMessage(s.clock.tickCount)))
    else s1
  }

  /** Task2's part of user_step_issue_syscall. */
  function ServerStep(s: State, i: nat): (r: State)
    requires i < |s.tasks|
    ensures Keeps(s, r)
  {
    match s.tasks[i].lastMsg
    case Some(m) => SetCall(SetTask(s, i, s.tasks[i].(lastMsg := None)), i, CallReply(IPC_DEMO_EP0, ServerReply(m)))
    case None => SetCall(s, i, CallRecv(IPC_DEMO_EP0))
  }

  function ProgramStep(s: State, i: nat, choice: UserChoice): (r: State)
    requires i < |s.tasks|
    ensures Keeps(s, r)
  {
    match choice
    case DemoProgram =>
      if i == TASK0_INDEX then SetTask(s, i, s.tasks[i].(lastReply := None))
      else if i == TASK1_INDEX then ClientStep(s, i)
      else ServerStep(s, i)
    case AnyProgram(call, takeMsg, takeReply) =>
      var t := s.tasks[i];
      SetTask(s, i, t.(pendingCall := call, lastMsg := if takeMsg then None else t.lastMsg,
                       lastReply := if takeReply then None else t.lastReply))
  }

  /** user_step_issue_syscall */
  function UserStep(s: State, i: nat, choice: UserChoice): (r: State)
    ensures Keeps(s, r)
  {
    if i >= |s.tasks| || s.tasks[i].state == Dead || s.tasks[i].state == Blocked || s.tasks[i].pendingCall.Some? then s
    else
      var t := s.tasks[i];
      var s1 := if t.sysRetUnread then SetTask(s, i, t.(sysRet := None, sysRetUnread := false)) else s;
      ProgramStep(s1, i, choice)
  }

  /** get_or_alloc_demo_frame */
  function DemoFrame(s: State, i: nat): (r: (State, Option<nat>))
    requires i < |s.tasks|
    ensures Timely(s, r.0) && r.0.current == s.current
  {
    var t := s.tasks[i];
    if t.demoFrame.Some? then (s, t.demoFrame)
    else if s.taken >= s.config.supply then (s, None)
    else (Emit(SetTask(s.(taken := s.taken + 1), i, t.(demoFrame := Some(s.taken))), FrameAllocated), Some(s.taken))
  }

  /** How many frames are taken after `n` tables were asked for. */
  function TablesTaken(taken: nat, n: nat, supply: nat): nat {
    if taken + n <= supply then taken + n else if taken <= supply then supply else taken
  }

  /** A map call on behalf of task `i`, with `n` tables missing, and its outcome. */
  function MapFor(s: State, i: nat, page: nat, flags: Flags, n: nat): (r: (State, Outcome))
    requires i < |s.tasks|
    ensures Timely(s, r.0) && r.0.current == s.current
  {
    var (s1, frame) := DemoFrame(s, i);
    var t := s1.tasks[i];
    var (space, out) := PageMap(t.space, t.kind, page, frame, flags, s1.taken + n <= s.config.supply);
    if out.Panicked? then (Panic(s1), out)
    else
      var s2 := SetTask(s1, i, t.(space := space));
      var needs := frame.Some? && NeedsTables(t.space, t.kind, page, flags);
      (if needs then s2.(taken := TablesTaken(s1.taken, n, s.config.supply)) else s2, out)
  }

  /** An unmap call on behalf of task `i`, and its outcome. */
  function UnmapFor(s: State, i: nat, page: nat): (r: (State, Outcome))
    requires i < |s.tasks|
    ensures Keeps(s, r.0)
  {
    var t := s.tasks[i];
    var (space, out) := PageUnmap(t.space, t.kind, page);
    if out.Panicked? then (Panic(s), out) else (SetTask(s, i, t.(space := space)), out)
  }

  /** set_last_syscall_ret_for_current, unless the call panicked. */
  function LeaveResult(s: State, out: Outcome): (r: State)
    requires Shape(s)
    ensures Keeps(s, r)
  {
    if out.Panicked? || s.tasks[s.current].state == Dead then s
    else SetTask(s, s.current, s.tasks[s.current].(sysRet := Some(out.code), sysRetUnread := true))
  }

  /** The page system calls of the current task. */
  function PageCall(s: State, call: Syscall, n: nat): (r: State)
    requires Shape(s)
    ensures Timely(s, r) && r.current == s.current
  {
    match call
    case CallPageMap(page, flags) =>
      var (s1, out) := MapFor(s, s.current, page, flags, n);
      LeaveResult(s1, out)
    case CallPageUnmap(page) =>
      var (s1, out) := UnmapFor(s, s.current, page);
      LeaveResult(s1, out)
    case _ => s
  }

  /** The test hook after ipc_recv: the receiving user task may be killed. */
  function AfterRecv(s: State, i: nat, inp: TickInput): (r: State)
    requires Shape(s)
    ensures Spares(s, r) && Shape(r)
  {
    if inp.killReceiver && i < |s.tasks| && s.tasks[i].kind == UserSpace then Kill(s, i, DemoInjected) else s
  }

  predicate IsIpc(call: Syscall) {
    call.CallRecv? || call.CallSend? || call.CallReply?
  }

  /** handle_syscall */
  function HandleSyscall(s: State, call: Syscall, inp: TickInput): (r: State)
    requires Shape(s)
    ensures Timely(s, r) && Shape(r)
  {
    var t := s.tasks[s.current];
    if t.kind == KernelSpace && IsIpc(call) then s
    else
      var s1 := Emit(s, SyscallHandled(t.id));
      match call
      case CallRecv(e) => AfterRecv(Recv(s1, e), s.current, inp)
      case CallSend(e, msg) => Send(s1, e, msg)
      case CallReply(e, msg) => Reply(s1, e, msg)
      case _ => PageCall(s1, call, inp.tables)
  }

  /** handle_pending_syscall_if_any */
  function HandlePending(s: State, inp: TickInput): (r: State)
    requires Shape(s)
    ensures Timely(s, r) && Shape(r)
  {
    var t := s.tasks[s.current];
    if t.state == Dead then SetTask(s, s.current, t.(pendingCall := None))
    else
      match t.pendingCall
      case None => s
      case Some(call) =>
        var s1 := SetTask(s, s.current, t.(pendingCall := None));
        HandleSyscall(Emit(s1, SyscallIssued(t.id)), call, inp)
  }

  // ---------------------------------------------------------------------------
  // The tick
  // ---------------------------------------------------------------------------

  /** next_activity_and_action: each activity names the action of its tick. */
  function NextActivity(a: Activity): Activity {
    match a
    case Idle => UpdatingTimer
    case UpdatingTimer => AllocatingFrame
    case AllocatingFrame => MappingDemoPage
    case MappingDemoPage => Idle
  }

  function SetStage(s: State, i: nat, stage: nat): (r: State)
    requires i < |s.tasks|
    ensures Keeps(s, r)
  {
    SetTask(s, i, s.tasks[i].(stage := stage))
  }

  /** A guarded access to user memory: it always ends on the kernel root. When it
      faults, the current task is killed. */
  function GuardedAccess(s: State, inp: TickInput, next: nat): (r: State)
    requires Shape(s)
    ensures Spares(s, r) && Shape(r)
  {
    var s1 := s.(cr3 := 0);
    if !inp.fault then SetStage(s1, s.current, next)
    else
      var s2 := Kill(s1, s.current, UserPageFault);
      if s2.clock.panicked then s2 else SetStage(s2, s.current, 0)
  }

  const DEMO_PAGE_TASK0: nat := 0x100
  const DEMO_PAGE_USER: nat := 0x110

  /** demo_page_for_task */
  function DemoPage(i: nat): nat {
    if i == TASK1_INDEX || i == TASK2_INDEX then DEMO_PAGE_USER else DEMO_PAGE_TASK0
  }

  const DEMO_FLAGS := Flags(true, true, false)
  const DEMO_FLAGS_TASK0 := Flags(true, false, false)

  /** do_mem_demo_normal for a user task: map, access, unmap, access after unmap. */
  function UserMemDemo(s: State, inp: TickInput): (r: State)
    requires Shape(s)
    ensures Spares(s, r) && Shape(r)
  {
    var i := s.current;
    var stage := s.tasks[i].stage;
    if s.tasks[i].kind != UserSpace then s
    else if !s.tasks[i].space.rooted then Panic(s)
    else if stage == 1 then GuardedAccess(s, inp, 2)
    else if stage == 3 && s.config.pfDemo then GuardedAccess(s, inp, 0)
    else DemoCall(s, i, stage)
  }

  /** The stages that do not touch memory: a page call, or back to the first stage. */
  function DemoCall(s: State, i: nat, stage: nat): (r: State)
    requires i < |s.tasks|
    ensures Keeps(s, r)
  {
    if stage == 0 then SetStage(SetCall(s, i, CallPageMap(DemoPage(i), DEMO_FLAGS)), i, 1)
    else if stage == 2 then SetStage(SetCall(s, i, CallPageUnmap(DemoPage(i))), i, if s.config.pfDemo then 3 else 0)
    else SetStage(s, i, 0)
  }

  /** do_mem_demo_normal for the kernel task: map and unmap in turn; any failure is a panic. */
  function KernelMemDemo(s: State, n: nat): (r: State)
    requires Shape(s)
    ensures Timely(s, r) && r.current == s.current
  {
    var i := s.current;
    var t := s.tasks[i];
    if !t.demoMapped && t.demoFrame == None && s.taken >= s.config.supply then Halt(s)
    else
      var (s1, out) := if t.demoMapped then UnmapFor(s, i, DemoPage(i)) else MapFor(s, i, DemoPage(i), DEMO_FLAGS_TASK0, n);
      Toggled(s1, i, t, out)
  }

  /** The end of the kernel task's memory demo, once its action was tried. */
  function Toggled(s: State, i: nat, t: Task, out: Outcome): (r: State)
    requires i < |s.tasks|
    ensures Keeps(s, r)
  {
    if out != Returned(OK) then Panic(s)
    else Emit(SetTask(s, i, s.tasks[i].(demoMapped := !t.demoMapped)), MemActionApplied(t.id))
  }

  /** do_mem_demo_normal */
  function MemDemo(s: State, inp: TickInput): (r: State)
    requires Shape(s)
    ensures Timely(s, r) && Shape(r)
  {
    if s.tasks[s.current].state == Dead then s
    else if s.current != TASK0_INDEX then UserMemDemo(s, inp)
    else KernelMemDemo(s, inp.tables)
  }

  /** The action of a tick, chosen by the activity. */
  function Act(s: State, inp: TickInput): (r: State)
    requires Shape(s)
    ensures Sized(s, r) && Shape(r)
  {
    match s.clock.activity
    case Idle => s
    case UpdatingTimer =>
      Emit(s.(clock := s.clock.(timeTicks := s.clock.timeTicks + 1)), TimerUpdated(s.clock.timeTicks + 1))
    case AllocatingFrame =>
      if s.taken >= s.config.supply then Halt(s) else Emit(s.(taken := s.taken + 1), FrameAllocated)
    case MappingDemoPage => MemDemo(s, inp)
  }

  /** update_runtime_for */
  function UpdateRuntime(s: State, i: nat): (r: State)
    ensures Keeps(s, r)
  {
    if i >= |s.tasks| || s.tasks[i].state == Dead then s
    else
      var t := s.tasks[i];
      Emit(SetTask(s, i, t.(runtimeTicks := t.runtimeTicks + 1)), RuntimeUpdated(t.id, t.runtimeTicks + 1))
  }

  /** update_time_slice_for_and_maybe_schedule, for a task that is still running. */
  function ChargeSlice(s: State): (r: State)
    requires Shape(s)
    ensures Spares(s, r) && Shape(r)
  {
    var i := s.current;
    var t := s.tasks[i];
    var s1 := SetTask(s, i, t.(slice := t.slice + 1));
    if t.slice + 1 < s.config.quantum then s1
    else
      var s2 := Emit(s1, QuantumExpired(t.id, t.slice + 1));
      if s2.ready == [] then SetTask(s2, i, s2.tasks[i].(slice := 0)) else Schedule(s2)
  }

  function SetActivity(s: State, a: Activity): State {
    s.(clock := s.clock.(activity := a))
  }

  /** The part of a tick after its action, for a running task that did not die. */
  function Serve(s: State, ran: nat, inp: TickInput): (r: State)
    requires Shape(s) && ran < |s.tasks|
    ensures Timely(s, r) && Shape(r)
  {
    var s1 := UserStep(s, ran, inp.choice);
    var s2 := if ran == s1.current then HandlePending(s1, inp) else s1;
    if s2.clock.panicked then s2
    else
      var s3 := UpdateRuntime(s2, ran);
      if ran == s3.current && s3.tasks[ran].state == Running then ChargeSlice(s3) else s3
  }

  function StartTick(s: State): (r: State)
    ensures Sized(s, r) && r.current == s.current && r.taken == s.taken
  {
    Emit(s.(clock := s.clock.(tickCount := s.clock.tickCount + 1)), TickStarted(s.clock.tickCount + 1))
  }

  /** tick */
  function Tick(s: State, inp: TickInput): (r: State)
    requires Shape(s)
    ensures Sized(s, r) && Shape(r)
  {
    if s.clock.halted then s
    else
      var s1 := Act(StartTick(s), inp);
      var next := NextActivity(s.clock.activity);
      if s1.clock.panicked then s1
      else if s1.tasks[s.current].state == Dead then
        var s2 := SetActivity(s1, next);
        if s2.tasks[s2.current].state != Running then Schedule(s2) else s2
      else
        var s2 := Serve(s1, s.current, inp);
        if s2.clock.panicked then s2 else MaybeHalt(SetActivity(s2, next))
  }

  // ---------------------------------------------------------------------------
  // Boot and runs
  // ---------------------------------------------------------------------------

  const NO_COUNTS := Counters(0, 0, 0, 0, 0, 0, 0, 0)

  function BootTask(i: nat, priority: nat, space: Space): Task {
    Task(i + 1, if i == 0 then Running else Ready, priority, 0, 0, if i == 0 then KernelSpace else UserSpace, space,
         None, None, None, None, false, None, None, 0, None, false)
  }

  /** A user space as it starts: nothing mapped, and a root if there was a frame for it. */
  function NewSpace(rooted: bool): Space { Space(map[], map[], rooted) }

  /** KernelState::new: three tasks with priorities 1, 3 and 2, two endpoints, quantum 5; the
      first two frames become the roots of the user spaces. `mapped` is what the boot loader
      has mapped. */
  function Boot(allowSwitch: bool, pfDemo: bool, supply: nat, mapped: map<nat, Leaf>): State {
    State(BootTasks(mapped, supply),
          0, [1, 2], [EMPTY, EMPTY],
          0, if supply < 2 then supply else 2, false, NO_COUNTS, [], Clock(0, 0, Idle, false, false, false),
          Config(5, allowSwitch, pfDemo, supply))
  }

  function BootTasks(mapped: map<nat, Leaf>, supply: nat): seq<Task> {
    [BootTask(0, 1, Space(map[], mapped, true)), BootTask(1, 3, NewSpace(1 <= supply)), BootTask(2, 2, NewSpace(2 <= supply))]
  }

  datatype Step = TickStep(inp: TickInput) | KillStep(task: nat, why: KillReason)

  function Apply(s: State, step: Step): (r: State)
    requires Shape(s)
    ensures Sized(s, r) && Shape(r)
  {
    if s.clock.panicked then s
    else
      match step
      case TickStep(inp) => Tick(s, inp)
      case KillStep(i, why) => Kill(s, i, why)
  }

  /** The state after all of `steps`. */
  function Run(s: State, steps: seq<Step>): (r: State)
    requires Shape(s)
    ensures Sized(s, r) && Shape(r)
    decreases |steps|
  {
    if steps == [] then s else Apply(Run(s, steps[..|steps| - 1]), steps[|steps| - 1])
  }
}
