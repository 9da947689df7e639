/** The kernel as it runs: task and queue buffers updated in place. Every operation is proved
    to take the kernel's view from one state to the next exactly as `KernelSpec` says. */
module KernelMachine {
  import opened KernelTypes
  import opened PageOps
  import Spec = KernelSpec
  import opened Buffers
  import opened EventLog
  import opened EndpointCells

  predicate Apart(c: EndpointCell, d: EndpointCell) {
    c != d && c.sendQueue != d.sendQueue && c.sendQueue != d.replyQueue && c.replyQueue != d.sendQueue
    && c.replyQueue != d.replyQueue
  }

  ghost predicate InCells(c: EndpointCell, cells: set<object>, capacity: nat) {
    c in cells && c.sendQueue in cells && c.replyQueue in cells
    && c.sendQueue.Length == capacity && c.replyQueue.Length == capacity
  }

  /** Endpoint::new, once for each endpoint. */
  method NewCells(n: nat, capacity: nat) returns (eps: seq<EndpointCell>, ghost cells: set<object>)
    ensures |eps| == n && fresh(cells)
    ensures forall e: nat {:trigger eps[e]} :: e < n ==>
      InCells(eps[e], cells, capacity) && eps[e].Valid() && eps[e].Value() == EMPTY
    ensures forall e: nat, f: nat {:trigger eps[e], eps[f]} :: e < f < n ==> Apart(eps[e], eps[f])
  {
    eps, cells := [], {};
    for k := 0 to n
      invariant |eps| == k && fresh(cells)
      invariant forall e: nat {:trigger eps[e]} :: e < k ==>
        InCells(eps[e], cells, capacity) && eps[e].Valid() && eps[e].Value() == EMPTY
      invariant forall e: nat, f: nat {:trigger eps[e], eps[f]} :: e < f < k ==> Apart(eps[e], eps[f])
    {
      var c := new EndpointCell(capacity, None);
      eps, cells := eps + [c], cells + {c, c.sendQueue, c.replyQueue};
    }
  }

  /** The task table and the ready queue at boot. */
  method NewTables(mapped: map<nat, Leaf>, supply: nat) returns (tasks: array<Task>, queue: array<nat>)
    ensures fresh(tasks) && fresh(queue) && tasks as object != queue as object && queue.Length == tasks.Length == 3
    ensures tasks[..] == Spec.BootTasks(mapped, supply) && queue[..2] == [1, 2]
  {
    var kernel := Space(map[], mapped, true);
    tasks := new Task[3][Spec.BootTask(0, 1, kernel), Spec.BootTask(1, 3, Spec.NewSpace(1 <= supply)),
                         Spec.BootTask(2, 2, Spec.NewSpace(2 <= supply))];
    queue := new nat[3][1, 2, 0];
  }

  /** A user task that is not dead. */
  predicate LiveUser(t: Task) {
    t.state != Dead && t.kind == UserSpace
  }

  function LiveUsers(tasks: seq<Task>): (r: set<nat>)
    ensures forall i: nat {:trigger tasks[i]} :: i in r <==> i < |tasks| && LiveUser(tasks[i])
  {
    set i: nat | i < |tasks| && LiveUser(tasks[i])
  }

  lemma LiveUsersStep(tasks: seq<Task>, n: nat)
    requires n < |tasks|
    ensures |LiveUsers(tasks[..n + 1])| == |LiveUsers(tasks[..n])| + if LiveUser(tasks[n]) then 1 else 0
  {
    var before := LiveUsers(tasks[..n]);
    assert tasks[..n + 1] == tasks[..n] + [tasks[n]];
    LiveUsersAdd(tasks[..n], tasks[n]);
    assert n !in before;
  }

  lemma LiveUsersAdd(tasks: seq<Task>, t: Task)
    ensures LiveUsers(tasks + [t]) == LiveUsers(tasks) + if LiveUser(t) then {|tasks|} else {}
  {
    forall i: nat ensures i in LiveUsers(tasks + [t]) <==> i in LiveUsers(tasks) || (i == |tasks| && LiveUser(t)) {
      if i < |tasks| + 1 { assert (tasks + [t])[i] == if i < |tasks| then tasks[i] else t; }
    }
  }

  class Kernel {
    const tasks: array<Task>
    var current: nat
    const readyQueue: array<nat>
    var readyLen: nat
    const endpoints: seq<EndpointCell>
    var cr3: nat
    var taken: nat
    var sentByTask1: bool
    var counters: Counters
    const log: Ring
    var clock: Clock
    const config: Config
    /** The endpoint cells and their buffers. */
    ghost const cells: set<object>
    /** What the endpoint cells stand for. */
    ghost var lines: seq<Endpoint>

    // -------------------------------------------------------------------------
    // The state this kernel stands for
    // -------------------------------------------------------------------------

    ghost function Repr(): set<object> {
      {this, tasks, readyQueue, log, log.slots} + cells
    }

    ghost predicate Owned(c: EndpointCell) {
      InCells(c, cells, tasks.Length)
    }

    /** The buffers have the capacity of the task table, and no two of them are the same. */
    ghost predicate Wired() {
      && 0 < tasks.Length == readyQueue.Length && tasks as object != readyQueue as object
      && log as object != this && tasks as object != log.slots as object && readyQueue as object != log.slots as object
      && this !in cells && tasks !in cells && readyQueue !in cells && log !in cells && log.slots !in cells
      && (forall e: nat {:trigger endpoints[e]} :: e < |endpoints| ==> Owned(endpoints[e]))
      && (forall e: nat, f: nat {:trigger endpoints[e], endpoints[f]} :: e < f < |endpoints| ==> Apart(endpoints[e], endpoints[f]))
    }

    ghost predicate CellsValid()
      requires Wired()
      reads this, cells
    {
      && |lines| == |endpoints|
      && forall e: nat {:trigger endpoints[e]} :: e < |endpoints| ==>
           Owned(endpoints[e]) && endpoints[e].Valid() && endpoints[e].Value() == lines[e]
    }

    ghost predicate Valid()
      reads Repr()
    {
      Wired() && current < tasks.Length && readyLen <= readyQueue.Length && CellsValid() && log.Valid()
    }

    ghost function View(): State
      reads this, tasks, readyQueue, log
      requires readyLen <= readyQueue.Length
    {
      State(tasks[..], current, readyQueue[..readyLen], lines, cr3, taken, sentByTask1, counters, log.history, clock, config)
    }

    /** KernelState::new */
    constructor (logCapacity: nat, allowSwitch: bool, pfDemo: bool, supply: nat, mapped: map<nat, Leaf>)
      ensures Valid() && fresh(Repr()) && View() == Spec.Boot(allowSwitch, pfDemo, supply, mapped) && log.slots.Length == logCapacity
    {
      var table, queue := NewTables(mapped, supply);
      tasks, readyQueue := table, queue;
      var eps, boxes := NewCells(2, 3);
      endpoints, cells := eps, boxes;
      log := new Ring(logCapacity);
      current, readyLen, cr3, taken, sentByTask1 := 0, 2, 0, if supply < 2 then supply else 2, false;
      counters, clock := Spec.NO_COUNTS, Clock(0, 0, Idle, false, false, false);
      config := Config(5, allowSwitch, pfDemo, supply);
      lines := [EMPTY, EMPTY];
      new;
    }

    // -------------------------------------------------------------------------
    // Elementary updates
    // -------------------------------------------------------------------------

    method SetTask(i: nat, t: Task)
      requires Valid() && i < tasks.Length
      modifies tasks
      ensures Valid() && View() == Spec.SetTask(old(View()), i, t)
    {
      tasks[i] := t;
      assert tasks[..] == old(tasks[..])[i := t];
    }

    /** push_event */
    method Emit(ev: Event)
      requires Valid()
      modifies log, log.slots
      ensures Valid() && View() == Spec.Emit(old(View()), ev)
    {
      log.Push(ev);
    }

    method SetReceiver(e: nat, r: Option<nat>)
      requires Valid() && e < |endpoints|
      modifies this, endpoints[e]
      ensures Valid() && View() == Spec.SetEp(old(View()), e, old(View()).endpoints[e].(receiver := r))
    {
      endpoints[e].receiver := r;
      lines := lines[e := endpoints[e].Value()];
    }

    method MarkClosed(e: nat)
      requires Valid() && e < |endpoints|
      modifies this, endpoints[e]
      ensures Valid() && View() == Spec.SetEp(old(View()), e, old(View()).endpoints[e].(closed := true))
    {
      endpoints[e].closed := true;
      lines := lines[e := endpoints[e].Value()];
    }

    method EnqueueSender(e: nat, i: nat) returns (ok: bool)
      requires Valid() && e < |endpoints|
      modifies this, endpoints[e], endpoints[e].sendQueue
      ensures Valid()
      ensures var (line, room) := Spec.Enqueue(old(View()).endpoints[e].senders, i, tasks.Length);
        && ok == room
        && View() == if ok then Spec.SetEp(old(View()), e, old(View()).endpoints[e].(senders := line)) else old(View())
    {
      ok := endpoints[e].TryEnqueueSender(i);
      if ok { lines := lines[e := endpoints[e].Value()]; }
    }

    method EnqueueReplyWaiter(e: nat, i: nat) returns (ok: bool)
      requires Valid() && e < |endpoints|
      modifies this, endpoints[e], endpoints[e].replyQueue
      ensures Valid()
      ensures var (line, room) := Spec.Enqueue(old(View()).endpoints[e].repliers, i, tasks.Length);
        && ok == room
        && View() == if ok then Spec.SetEp(old(View()), e, old(View()).endpoints[e].(repliers := line)) else old(View())
    {
      ok := endpoints[e].TryEnqueueReplyWaiter(i);
      if ok { lines := lines[e := endpoints[e].Value()]; }
    }

    method DequeueSender(e: nat) returns (r: Option<nat>)
      requires Valid() && e < |endpoints|
      modifies this, endpoints[e]
      ensures Valid()
      ensures var q := old(View()).endpoints[e].senders;
        if q == [] then r == None && View() == old(View())
        else r == Some(q[|q| - 1]) && View() == Spec.SetEp(old(View()), e, old(View()).endpoints[e].(senders := q[..|q| - 1]))
    {
      ghost var q := lines[e].senders;
      r := endpoints[e].DequeueSender();
      if r.Some? {
        assert endpoints[e].Value() == lines[e].(senders := q[..|q| - 1]);
        lines := lines[e := endpoints[e].Value()];
      }
    }

    method RemoveReplyWaiterAt(e: nat, pos: nat) returns (x: nat)
      requires Valid() && e < |endpoints| && pos < |View().endpoints[e].repliers|
      modifies this, endpoints[e], endpoints[e].replyQueue
      ensures Valid()
      ensures var q := old(View()).endpoints[e].repliers;
        x == q[pos] && View() == Spec.SetEp(old(View()), e, old(View()).endpoints[e].(repliers := Spec.SwapRemove(q, pos)))
    {
      var r := endpoints[e].RemoveReplyWaiterAt(pos);
      x := r.value;
      lines := lines[e := endpoints[e].Value()];
    }

    method PurgeCell(e: nat, i: nat)
      requires Valid() && e < |endpoints|
      modifies this, endpoints[e], endpoints[e].sendQueue, endpoints[e].replyQueue
      ensures Valid() && View() == Spec.SetEp(old(View()), e, Spec.PurgeEndpoint(old(View()).endpoints[e], i))
    {
      endpoints[e].Purge(i);
      lines := lines[e := endpoints[e].Value()];
    }

    // -------------------------------------------------------------------------
    // Scheduler
    // -------------------------------------------------------------------------

    method AppendReady(i: nat)
      requires Valid() && readyLen < readyQueue.Length
      modifies this, readyQueue
      ensures Valid() && View() == old(View()).(ready := old(View()).ready + [i])
    {
      readyQueue[readyLen] := i;
      readyLen := readyLen + 1;
      assert readyQueue[..readyLen] == old(readyQueue[..readyLen]) + [i];
    }

    /** remove_from_ready_queue */
    method RemoveFromReady(i: nat)
      requires Valid()
      modifies this, readyQueue
      ensures Valid() && View() == old(View()).(ready := Spec.RemoveAll(old(View()).ready, i))
    {
      readyLen := RemoveInOrder(readyQueue, readyLen, i);
    }

    /** compact_ready_queue_to_ready_only */
    method CompactReady()
      requires Valid()
      modifies this, readyQueue
      ensures Valid() && View() == old(View()).(ready := Spec.KeepReady(old(View()).tasks, old(View()).ready))
    {
      readyLen := KeepReadyOnly(tasks, readyQueue, readyLen);
    }

    /** wake_task_to_ready */
    method Wake(i: nat)
      requires Valid()
      modifies Repr()
      ensures Valid() && View() == Spec.Wake(old(View()), i)
    {
      if i >= tasks.Length || tasks[i].state == Dead { return; }
      var t := tasks[i];
      if t.state == Ready || t.state == Running {
        SetTask(i, t.(reason := None));
        return;
      }
      SetTask(i, t.(state := Ready, reason := None, slice := 0));
      var found := Contains(readyQueue, readyLen, i);
      if !found && readyLen < readyQueue.Length { AppendReady(i); }
      Emit(TaskStateChanged(t.id, Ready));
    }

    /** block_task */
    method Block(i: nat, why: BlockedReason)
      requires Valid()
      modifies Repr()
      ensures Valid() && View() == Spec.Block(old(View()), i, why)
    {
      if i >= tasks.Length || tasks[i].state == Dead { return; }
      RemoveFromReady(i);
      var t := tasks[i];
      SetTask(i, t.(state := Blocked, reason := Some(why), slice := 0));
      Emit(TaskStateChanged(t.id, Blocked));
    }

    /** enqueue_ready */
    method EnqueueReady(i: nat)
      requires Valid()
      modifies Repr()
      ensures Valid() && View() == Spec.EnqueueReady(old(View()), i)
    {
      if readyLen >= readyQueue.Length || i >= tasks.Length { return; }
      var found := Contains(readyQueue, readyLen, i);
      if found || tasks[i].state != Ready { return; }
      AppendReady(i);
      Emit(ReadyQueued(tasks[i].id));
    }

    /** The part of schedule_next_task that puts a still running task back. */
    method Requeue(i: nat)
      requires Valid() && i < tasks.Length
      modifies Repr()
      ensures Valid() && View() == Spec.Requeue(old(View()), i)
    {
      var t := tasks[i];
      SetTask(i, t.(state := Ready, reason := None, slice := 0));
      Emit(TaskStateChanged(t.id, Ready));
      if i != TASK0_INDEX { EnqueueReady(i); }
    }

    method Halt()
      requires Valid()
      modifies this
      ensures Valid() && View() == Spec.Halt(old(View()))
    {
      clock := clock.(halted := true);
    }

    /** A panic: nothing runs after it. */
    method Panic()
      requires Valid()
      modifies this
      ensures Valid() && View() == Spec.Panic(old(View()))
    {
      clock := clock.(halted := true, panicked := true);
    }

    method Enter(i: nat, root: nat)
      requires Valid() && i < tasks.Length
      modifies this
      ensures Valid() && View() == old(View()).(current := i, cr3 := root)
    {
      current, cr3 := i, root;
    }

    method Announce(id: TaskId)
      requires Valid()
      modifies log, log.slots
      ensures Valid() && View() == Spec.Emit(Spec.Emit(old(View()), TaskSwitched(id)), TaskStateChanged(id, Running))
    {
      Emit(TaskSwitched(id));
      Emit(TaskStateChanged(id, Running));
    }

    /** The part of schedule_next_task that falls back to the idle task. */
    method RunIdle()
      requires Valid()
      modifies Repr()
      ensures Valid() && View() == Spec.RunIdle(old(View()))
    {
      var t := tasks[TASK0_INDEX];
      if t.state == Dead { Halt(); return; }
      SetTask(TASK0_INDEX, t.(state := Running, reason := None, slice := 0));
      Enter(TASK0_INDEX, 0);
      Announce(t.id);
    }

    /** The choice in dequeue_ready_highest_priority, on a queue that was just compacted. */
    method ChooseBest() returns (b: nat)
      requires Valid() && View().ready != [] && View().ready == Spec.KeepReady(View().tasks, View().ready)
      ensures b < |View().ready| && b == Spec.BestPos(View().tasks, View().ready, |View().ready|)
      ensures View().ready[b] < tasks.Length
    {
      KeptInRange(tasks[..], readyQueue[..readyLen], 0);
      var r := FindBest(tasks, readyQueue, readyLen);
      b := r.value;
    }

    method TakeReady(b: nat) returns (next: nat)
      requires Valid() && b < |View().ready|
      modifies this, readyQueue
      ensures Valid() && next == old(View()).ready[b]
      ensures View() == old(View()).(ready := Spec.SwapRemove(old(View()).ready, b))
    {
      next := readyQueue[b];
      readyLen := SwapOut(readyQueue, readyLen, b);
    }

    /** The root that is loaded for task `i`. */
    method SwitchRoot(i: nat)
      requires Valid() && i < tasks.Length
      modifies this
      ensures Valid() && View() == old(View()).(cr3 := Spec.NextCr3(old(View()), i))
    {
      match tasks[i].kind
      case KernelSpace => cr3 := 0;
      case UserSpace => if tasks[i].space.rooted && config.allowSwitch { cr3 := i; }
    }

    method SwitchTo(next: nat, prev: nat)
      requires Valid() && next < tasks.Length
      modifies this
      ensures Valid() && View() == old(View()).(current := next, cr3 := Spec.NextCr3(old(View()), next),
        counters := if next != prev then old(counters).(switches := old(counters).switches + 1) else old(counters))
    {
      SwitchRoot(next);
      current := next;
      if next != prev { counters := counters.(switches := counters.switches + 1); }
    }

    /** The end of schedule_next_task: `next` runs. */
    method Start(next: nat, prev: nat)
      requires Valid() && next < tasks.Length
      modifies Repr()
      ensures Valid() && View() == Spec.Start(old(View()), next, prev)
    {
      var t := tasks[next];
      SetTask(next, t.(state := Running, slice := 0, reason := None));
      SwitchTo(next, prev);
      Announce(t.id);
    }

    /** The part of schedule_next_task that chooses and starts a ready task. */
    method Dispatch(prev: nat)
      requires Valid()
      modifies Repr()
      ensures Valid() && View() == Spec.Dispatch(old(View()), prev)
    {
      KeptTwice(tasks[..], readyQueue[..readyLen]);
      CompactReady();
      if readyLen == 0 { Halt(); return; }
      var b := ChooseBest();
      StartFrom(b, prev);
    }

    /** The ready task at position `b` is dequeued and runs. */
    method StartFrom(b: nat, prev: nat)
      requires Valid() && b < |View().ready| && View().ready[b] < tasks.Length
      modifies Repr()
      ensures Valid()
      ensures var s := old(View());
        View() == Spec.Start(Spec.Emit(s.(ready := Spec.SwapRemove(s.ready, b)), ReadyDequeued(s.tasks[s.ready[b]].id)), s.ready[b], prev)
    {
      var next := TakeReady(b);
      Emit(ReadyDequeued(tasks[next].id));
      Start(next, prev);
    }

    /** schedule_next_task */
    method Schedule()
      requires Valid()
      modifies Repr()
      ensures Valid() && View() == Spec.Schedule(old(View()))
    {
      var prev := current;
      CompactReady();
      if tasks[prev].state == Running { Requeue(prev); }
      if readyLen == 0 { RunIdle(); } else { Dispatch(prev); }
    }

    // -------------------------------------------------------------------------
    // IPC
    // -------------------------------------------------------------------------

    /** rescue_task_with_error */
    method Rescue(i: nat, err: Word)
      requires Valid()
      modifies Repr()
      ensures Valid() && View() == Spec.Rescue(old(View()), i, err)
    {
      if i >= tasks.Length || tasks[i].state == Dead { return; }
      SetTask(i, tasks[i].(pendingMsg := None, reason := None, lastReply := Some(err)));
      Wake(i);
    }

    method SetReply(i: nat, v: Word)
      requires Valid() && i < tasks.Length
      modifies tasks
      ensures Valid() && View() == Spec.SetReply(old(View()), i, v)
    {
      SetTask(i, tasks[i].(lastReply := Some(v)));
    }

    method SetCounters(c: Counters)
      requires Valid()
      modifies this
      ensures Valid() && View() == old(View()).(counters := c)
    {
      counters := c;
    }

    /** The dequeue loop of ipc_recv_fastpath. */
    method PopSender(e: nat) returns (who: Option<nat>)
      requires Valid() && e < |endpoints|
      modifies Repr()
      ensures Valid() && (View(), who) == Spec.PopSender(old(View()), e)
    {
      while true
        invariant Valid() && Spec.PopSender(View(), e) == Spec.PopSender(old(View()), e)
        decreases |View().endpoints[e].senders|
      {
        who := DequeueSender(e);
        if who == None { return; }
        var x := who.value;
        if x < tasks.Length && tasks[x].state == Blocked && tasks[x].reason == Some(IpcSend(e)) { return; }
      }
    }

    /** The rest of ipc_recv_fastpath, once a sender has been dequeued. */
    method TakeFrom(e: nat, x: nat) returns (done: bool)
      requires Valid() && e < |endpoints| && x < tasks.Length
      modifies Repr()
      ensures Valid() && (View(), done) == Spec.TakeFrom(old(View()), e, x)
    {
      var me := current;
      match tasks[x].pendingMsg {
        case None =>
          Rescue(x, IPC_ERR_DEAD_PARTNER);
          return false;
        case Some(msg) =>
          SetTask(x, tasks[x].(pendingMsg := None));
          var ok := EnqueueReplyWaiter(e, x);
          if !ok {
            Rescue(x, IPC_ERR_CAPACITY);
            return false;
          }
          Delivered(e, x, me, msg);
          return true;
      }
    }

    method Delivered(e: nat, x: nat, me: nat, msg: Word)
      requires Valid() && x < tasks.Length && me < tasks.Length
      modifies Repr()
      ensures Valid() && View() == Spec.Delivered(old(View()), e, x, me, msg)
    {
      Block(x, IpcReply(tasks[me].id, e));
      SetTask(me, tasks[me].(lastMsg := Some(msg)));
      SetCounters(counters.(recvFast := counters.recvFast + 1));
      Emit(IpcDelivered(tasks[x].id, tasks[me].id, e, msg));
    }

    /** ipc_recv_fastpath */
    method RecvFast(e: nat) returns (done: bool)
      requires Valid() && e < |endpoints|
      modifies Repr()
      ensures Valid() && (View(), done) == Spec.RecvFast(old(View()), e)
    {
      var who := PopSender(e);
      match who
      case None => return false;
      case Some(x) =>
        if x >= tasks.Length { return false; }
        done := TakeFrom(e, x);
    }

    /** ipc_recv_slowpath before it schedules. */
    method RecvWait(e: nat)
      requires Valid() && e < |endpoints|
      modifies Repr()
      ensures Valid() && View() == Spec.RecvWait(old(View()), e)
    {
      var me, id := current, tasks[current].id;
      SetCounters(counters.(recvSlow := counters.recvSlow + 1));
      Block(me, IpcRecv(e));
      Register(e, me, id);
    }

    method Register(e: nat, i: nat, id: TaskId)
      requires Valid() && e < |endpoints|
      modifies Repr()
      ensures Valid()
      ensures View() == Spec.Emit(Spec.SetEp(old(View()), e, old(View()).endpoints[e].(receiver := Some(i))), IpcRecvBlocked(id, e))
    {
      SetReceiver(e, Some(i));
      Emit(IpcRecvBlocked(id, e));
    }

    /** ipc_recv_slowpath */
    method RecvSlow(e: nat)
      requires Valid() && e < |endpoints|
      modifies Repr()
      ensures Valid() && View() == Spec.RecvSlow(old(View()), e)
    {
      if endpoints[e].receiver.Some? {
        SetReply(current, IPC_ERR_RECV_ALREADY_WAITING);
      } else {
        RecvWait(e);
        Schedule();
      }
    }

    /** The checks at the entry of ipc_recv, ipc_send and ipc_reply. */
    method Gate(e: nat) returns (rejected: bool)
      requires Valid()
      modifies Repr()
      ensures Valid() && rejected == Spec.Gate(old(View()), e).Some?
      ensures View() == if rejected then Spec.Gate(old(View()), e).value else old(View())
    {
      var t := tasks[current];
      if e >= |endpoints| || t.state == Dead { return true; }
      if t.kind == KernelSpace {
        SetReply(current, IPC_ERR_DEAD_PARTNER);
        return true;
      }
      if endpoints[e].closed {
        SetReply(current, IPC_ERR_ENDPOINT_CLOSED);
        return true;
      }
      rejected := false;
    }

    /** ipc_recv */
    method Recv(e: nat)
      requires Valid()
      modifies Repr()
      ensures Valid() && View() == Spec.Recv(old(View()), e)
    {
      var rejected := Gate(e);
      if rejected { return; }
      Emit(IpcRecvCalled(tasks[current].id, e));
      var done := RecvFast(e);
      if !done { RecvSlow(e); }
    }

    /** The receiver that ipc_send_fastpath accepts, if any. */
    method WaitingReceiver(e: nat) returns (r: Option<nat>)
      requires Valid() && e < |endpoints|
      ensures r == Spec.WaitingReceiver(View(), e)
    {
      match endpoints[e].receiver
      case None => r := None;
      case Some(x) =>
        if x < tasks.Length && tasks[x].state != Dead && tasks[x].reason == Some(IpcRecv(e)) { r := Some(x); } else { r := None; }
    }

    /** The end of ipc_send_fastpath. */
    method AwaitReply(e: nat, x: nat, msg: Word)
      requires Valid() && x < tasks.Length
      modifies Repr()
      ensures Valid() && View() == Spec.AwaitReply(old(View()), e, x, msg)
    {
      var from, to := tasks[current].id, tasks[x].id;
      Block(current, IpcReply(to, e));
      SetCounters(counters.(sendFast := counters.sendFast + 1));
      Emit(IpcDelivered(from, to, e, msg));
    }

    /** The end of ipc_send_slowpath. */
    method AwaitReceiver(e: nat, msg: Word)
      requires Valid()
      modifies Repr()
      ensures Valid() && View() == Spec.AwaitReceiver(old(View()), e, msg)
    {
      var id := tasks[current].id;
      SetTask(current, tasks[current].(pendingMsg := Some(msg)));
      Block(current, IpcSend(e));
      Emit(IpcSendBlocked(id, e));
    }

    /** ipc_send_fastpath to receiver `x`, before it schedules. */
    method Handover(e: nat, x: nat, msg: Word) returns (blocked: bool)
      requires Valid() && e < |endpoints| && x < tasks.Length
      modifies Repr()
      ensures Valid() && (View(), blocked) == Spec.Handover(old(View()), e, x, msg)
    {
      var me := current;
      SetReceiver(e, None);
      Wake(x);
      SetTask(x, tasks[x].(lastMsg := Some(msg)));
      blocked := EnqueueReplyWaiter(e, me);
      if !blocked {
        SetReply(me, IPC_ERR_CAPACITY);
      } else {
        AwaitReply(e, x, msg);
      }
    }

    /** ipc_send_slowpath before it schedules. */
    method SendWait(e: nat, msg: Word) returns (blocked: bool)
      requires Valid() && e < |endpoints|
      modifies Repr()
      ensures Valid() && (View(), blocked) == Spec.SendWait(old(View()), e, msg)
    {
      SetCounters(counters.(sendSlow := counters.sendSlow + 1));
      blocked := JoinSenders(e, msg);
    }

    /** The caller joins the line of senders, if there is room. */
    method JoinSenders(e: nat, msg: Word) returns (blocked: bool)
      requires Valid() && e < |endpoints|
      modifies Repr()
      ensures Valid()
      ensures var s := old(View());
        var (line, room) := Spec.Enqueue(s.endpoints[e].senders, s.current, |s.tasks|);
        && blocked == room
        && View() == if room then Spec.AwaitReceiver(Spec.SetEp(s, e, s.endpoints[e].(senders := line)), e, msg)
                     else Spec.SetReply(s, s.current, IPC_ERR_CAPACITY)
    {
      blocked := EnqueueSender(e, current);
      if blocked { AwaitReceiver(e, msg); } else { SetReply(current, IPC_ERR_CAPACITY); }
    }

    /** ipc_send */
    method Send(e: nat, msg: Word)
      requires Valid()
      modifies Repr()
      ensures Valid() && View() == Spec.Send(old(View()), e, msg)
    {
      var rejected := Gate(e);
      if rejected { return; }
      Emit(IpcSendCalled(tasks[current].id, e, msg));
      var r := WaitingReceiver(e);
      var blocked;
      match r {
        case Some(x) => blocked := Handover(e, x, msg);
        case None => blocked := SendWait(e, msg);
      }
      if blocked { Schedule(); }
    }

    /** take_reply_waiter_for_partner, up to the rescue of a dropped waiter. */
    method TakeScan(e: nat, partner: TaskId) returns (found: Option<nat>, dropped: Option<nat>)
      requires Valid() && e < |endpoints|
      modifies Repr()
      ensures Valid()
      ensures var s := old(View());
        var (line, f, d) := Spec.TakeScan(s, s.endpoints[e].repliers, partner, e, None);
        found == f && dropped == d && View() == Spec.SetEp(s, e, s.endpoints[e].(repliers := line))
    {
      ghost var s := View();
      dropped := None;
      assert View() == Scanned(s, e, s.endpoints[e].repliers);
      while endpoints[e].replyLen > 0
        invariant Valid() && View() == Scanned(s, e, View().endpoints[e].repliers)
        invariant Spec.TakeScan(s, View().endpoints[e].repliers, partner, e, dropped)
               == Spec.TakeScan(s, s.endpoints[e].repliers, partner, e, None)
        decreases endpoints[e].replyLen
      {
        ghost var q := View().endpoints[e].repliers;
        var x := RemoveReplyWaiterAt(e, endpoints[e].replyLen - 1);
        ScannedLast(s, e, q);
        if Awaits(x, partner, e) { return Some(x), dropped; }
        if x < tasks.Length && tasks[x].state != Dead && dropped == None { dropped := Some(x); }
      }
      found := None;
    }

    function Awaits(x: nat, partner: TaskId, e: nat): (r: bool)
      reads tasks
    {
      x < tasks.Length && tasks[x].state != Dead && tasks[x].reason == Some(IpcReply(partner, e))
    }

    /** ipc_reply */
    method Reply(e: nat, msg: Word)
      requires Valid()
      modifies Repr()
      ensures Valid() && View() == Spec.Reply(old(View()), e, msg)
    {
      var rejected := Gate(e);
      if rejected { return; }
      var me := tasks[current].id;
      var found, dropped := TakeScan(e, me);
      match found
      case None => if dropped.Some? { Rescue(dropped.value, IPC_ERR_DEAD_PARTNER); }
      case Some(x) => Answer(e, x, me, msg);
    }

    /** The end of ipc_reply: `x` gets the answer. */
    method Answer(e: nat, x: nat, me: TaskId, msg: Word)
      requires Valid() && x < tasks.Length
      modifies Repr()
      ensures Valid() && View() == Spec.Answer(old(View()), e, x, me, msg)
    {
      var to := tasks[x].id;
      Emit(IpcReplyCalled(me, e, to));
      SetReply(x, msg);
      Wake(x);
      SetCounters(counters.(replyDelivered := counters.replyDelivered + 1));
      Emit(IpcReplyDelivered(me, to, e));
    }

    // -------------------------------------------------------------------------
    // Kill
    // -------------------------------------------------------------------------

    /** What close_endpoint_and_rescue_waiters does to one waiter. */
    method RescueClosed(x: nat, dropMsg: bool)
      requires Valid()
      modifies Repr()
      ensures Valid() && View() == Spec.RescueClosed(old(View()), x, dropMsg)
    {
      if x >= tasks.Length || tasks[x].state == Dead { return; }
      var t := tasks[x];
      SetTask(x, t.(reason := None, lastReply := Some(IPC_ERR_ENDPOINT_CLOSED),
                    pendingMsg := if dropMsg then None else t.pendingMsg));
      Wake(x);
    }

    method DrainReceiver(e: nat)
      requires Valid() && e < |endpoints|
      modifies Repr()
      ensures Valid() && View() == Spec.DrainReceiver(old(View()), e)
    {
      match endpoints[e].receiver
      case None =>
      case Some(x) =>
        SetReceiver(e, None);
        RescueClosed(x, false);
    }

    method DrainSenders(e: nat)
      requires Valid() && e < |endpoints|
      modifies Repr()
      ensures Valid() && View() == Spec.DrainSenders(old(View()), e)
    {
      while endpoints[e].sendLen > 0
        invariant Valid() && Spec.DrainSenders(View(), e) == Spec.DrainSenders(old(View()), e)
        decreases |View().endpoints[e].senders|
      {
        var r := DequeueSender(e);
        RescueClosed(r.value, true);
      }
    }

    method DrainRepliers(e: nat)
      requires Valid() && e < |endpoints|
      modifies Repr()
      ensures Valid() && View() == Spec.DrainRepliers(old(View()), e)
    {
      while endpoints[e].replyLen > 0
        invariant Valid() && Spec.DrainRepliers(View(), e) == Spec.DrainRepliers(old(View()), e)
        decreases |View().endpoints[e].repliers|
      {
        ghost var q := View().endpoints[e].repliers;
        var x := RemoveReplyWaiterAt(e, endpoints[e].replyLen - 1);
        RemovedLast(q);
        RescueClosed(x, false);
      }
    }

    /** close_endpoint_and_rescue_waiters */
    method CloseEndpoint(e: nat)
      requires Valid() && e < |endpoints|
      modifies Repr()
      ensures Valid() && View() == Spec.CloseEndpoint(old(View()), e)
    {
      if endpoints[e].closed { return; }
      MarkClosed(e);
      DrainReceiver(e);
      DrainSenders(e);
      DrainRepliers(e);
    }

    /** The closing loop of kill_task. */
    method CloseOwned(dead: TaskId)
      requires Valid()
      modifies Repr()
      ensures Valid() && View() == Spec.CloseOwned(old(View()), dead, 0)
    {
      for e := 0 to |endpoints|
        invariant Valid() && Spec.CloseOwned(View(), dead, e) == Spec.CloseOwned(old(View()), dead, 0)
      {
        if endpoints[e].owner == Some(dead) { CloseEndpoint(e); }
      }
    }

    method FreeOrphan(e: nat, pos: nat)
      requires Valid() && e < |endpoints| && pos < |View().endpoints[e].repliers|
      requires View().endpoints[e].repliers[pos] < tasks.Length
      modifies Repr()
      ensures Valid() && View() == Spec.FreeOrphan(old(View()), e, pos)
    {
      var x := RemoveReplyWaiterAt(e, pos);
      SetTask(x, tasks[x].(reason := None, lastReply := Some(IPC_ERR_DEAD_PARTNER)));
    }

    /** One turn of the inner loop of resolve_ipc_reply_waiters_for_dead_partner. */
    method ResolveOne(dead: TaskId, e: nat, pos: nat, w: seq<nat>) returns (next: nat, w': seq<nat>)
      requires Valid() && e < |endpoints| && pos < |View().endpoints[e].repliers|
      modifies Repr()
      ensures Valid() && Spec.ResolveLine(View(), dead, e, next, w') == Spec.ResolveLine(old(View()), dead, e, pos, w)
      ensures |View().endpoints[e].repliers| - next == |old(View()).endpoints[e].repliers| - pos - 1
    {
      var x := endpoints[e].replyQueue[pos];
      next, w' := pos, w;
      if x < tasks.Length && tasks[x].state == Blocked && tasks[x].reason == Some(IpcReply(dead, e)) {
        FreeOrphan(e, pos);
        if |w| < tasks.Length { w' := w + [x]; }
      } else {
        next := pos + 1;
      }
    }

    /** One endpoint's share of resolve_ipc_reply_waiters_for_dead_partner. */
    method ResolveLine(dead: TaskId, e: nat, wakes: seq<nat>) returns (w: seq<nat>)
      requires Valid() && e < |endpoints|
      modifies Repr()
      ensures Valid() && (View(), w) == Spec.ResolveLine(old(View()), dead, e, 0, wakes)
    {
      var pos: nat := 0;
      w := wakes;
      while pos < endpoints[e].replyLen
        invariant Valid()
        invariant Spec.ResolveLine(View(), dead, e, pos, w) == Spec.ResolveLine(old(View()), dead, e, 0, wakes)
        decreases |View().endpoints[e].repliers| - pos
      {
        pos, w := ResolveOne(dead, e, pos, w);
      }
    }

    /** resolve_ipc_reply_waiters_for_dead_partner */
    method ResolveOrphans(dead: TaskId)
      requires Valid()
      modifies Repr()
      ensures Valid() && View() == Spec.ResolveOrphans(old(View()), dead)
    {
      var w: seq<nat> := [];
      for e := 0 to |endpoints|
        invariant Valid() && Spec.ResolveFrom(View(), dead, e, w) == Spec.ResolveFrom(old(View()), dead, 0, [])
      {
        w := ResolveLine(dead, e, w);
      }
      ghost var s := View();
      for k := 0 to |w|
        invariant Valid() && Spec.WakeAll(View(), w[k..]) == Spec.WakeAll(s, w)
      {
        assert w[k..][1..] == w[k + 1..];
        Wake(w[k]);
      }
    }

    /** remove_task_from_endpoints */
    method PurgeEndpoints(i: nat)
      requires Valid()
      modifies Repr()
      ensures Valid() && View() == old(View()).(endpoints := Spec.PurgeEndpoints(old(View()).endpoints, i))
    {
      ghost var s := View();
      for e := 0 to |endpoints|
        invariant Valid() && View() == s.(endpoints := View().endpoints)
        invariant forall f: nat {:trigger lines[f]} :: f < |endpoints| ==>
          lines[f] == if f < e then Spec.PurgeEndpoint(s.endpoints[f], i) else s.endpoints[f]
      {
        PurgeCell(e, i);
      }
      assert lines == Spec.PurgeEndpoints(s.endpoints, i);
    }

    /** kill_task up to the point where the dead task has left every queue. */
    method Bury(i: nat)
      requires Valid() && i < tasks.Length
      modifies Repr()
      ensures Valid() && View() == Spec.Bury(old(View()), i)
    {
      RemoveFromReady(i);
      PurgeEndpoints(i);
      SetTask(i, Spec.DeadTask(tasks[i]));
    }

    /** kill_task before it schedules. */
    method KillQuietly(i: nat, why: KillReason)
      requires Valid() && i < tasks.Length
      modifies Repr()
      ensures Valid() && View() == Spec.KillQuietly(old(View()), i, why)
    {
      var dead := tasks[i].id;
      SetCounters(Spec.CountKill(counters, why));
      Bury(i);
      CloseOwned(dead);
      ResolveOrphans(dead);
      Emit(TaskKilled(dead, why));
      Emit(TaskStateChanged(dead, Dead));
    }

    /** alive_user_task_count */
    method AliveUsers() returns (n: nat)
      requires Valid()
      ensures n == |LiveUsers(View().tasks)|
    {
      n := 0;
      for i := 0 to tasks.Length
        invariant n == |LiveUsers(tasks[..i])|
      {
        LiveUsersStep(tasks[..], i);
        assert tasks[..][..i] == tasks[..i] && tasks[..][..i + 1] == tasks[..i + 1];
        if tasks[i].state != Dead && tasks[i].kind == UserSpace { n := n + 1; }
      }
      assert tasks[..tasks.Length] == tasks[..];
    }

    /** maybe_halt_if_no_user_tasks */
    method MaybeHalt()
      requires Valid()
      modifies this
      ensures Valid() && View() == Spec.MaybeHalt(old(View()))
    {
      if clock.haltDumped { return; }
      var n := AliveUsers();
      NobodyLeft(View());
      if n != 0 { return; }
      cr3, clock := 0, clock.(haltDumped := true, halted := true);
    }

    /** kill_task */
    method Kill(i: nat, why: KillReason)
      requires Valid()
      modifies Repr()
      ensures Valid() && View() == Spec.Kill(old(View()), i, why)
    {
      if i >= tasks.Length {
        SetCounters(Spec.CountKill(counters, why));
        return;
      }
      if !Spec.Removable(tasks[i]) { Panic(); return; }
      KillQuietly(i, why);
      if i == current { Schedule(); }
      MaybeHalt();
    }

    // -------------------------------------------------------------------------
    // User programs and system calls
    // -------------------------------------------------------------------------

    method SetCall(i: nat, call: Syscall)
      requires Valid() && i < tasks.Length
      modifies tasks
      ensures Valid() && View() == Spec.SetCall(old(View()), i, call)
    {
      SetTask(i, tasks[i].(pendingCall := Some(call)));
    }

    method MarkSent()
      requires Valid()
      modifies this
      ensures Valid() && View() == old(View()).(sentByTask1 := true)
    {
      sentByTask1 := true;
    }

    /** Task1's part of user_step_issue_syscall. */
    method ClientStep(i: nat)
      requires Valid() && i < tasks.Length
      modifies Repr()
      ensures Valid() && View() == Spec.ClientStep(old(View()), i)
    {
      SetTask(i, tasks[i].(lastReply := None));
      var tick := clock.tickCount;
      if !sentByTask1 {
        MarkSent();
        SetCall(i, CallSend(IPC_DEMO_EP0, Spec.KickMessage(tick)));
      } else if tick != 0 && tick % IPC_KICK_PERIOD_TICKS == 0
          && IPC_DEMO_EP0 < |endpoints| && endpoints[IPC_DEMO_EP0].receiver.Some? {
        SetCall(i, CallSend(IPC_DEMO_EP0, Spec.PeriodicMessage(tick)));
      }
    }

    /** Task2's part of user_step_issue_syscall. */
    method ServerStep(i: nat)
      requires Valid() && i < tasks.Length
      modifies Repr()
      ensures Valid() && View() == Spec.ServerStep(old(View()), i)
    {
      match tasks[i].lastMsg
      case Some(m) =>
        SetTask(i, tasks[i].(lastMsg := None));
        SetCall(i, CallReply(IPC_DEMO_EP0, Spec.ServerReply(m)));
      case None => SetCall(i, CallRecv(IPC_DEMO_EP0));
    }

    method ProgramStep(i: nat, choice: UserChoice)
      requires Valid() && i < tasks.Length
      modifies Repr()
      ensures Valid() && View() == Spec.ProgramStep(old(View()), i, choice)
    {
      match choice
      case DemoProgram =>
        if i == TASK0_INDEX {
          SetTask(i, tasks[i].(lastReply := None));
        } else if i == TASK1_INDEX {
          ClientStep(i);
        } else {
          ServerStep(i);
        }
      case AnyProgram(call, takeMsg, takeReply) =>
        var t := tasks[i];
        SetTask(i, t.(pendingCall := call, lastMsg := if takeMsg then None else t.lastMsg,
                      lastReply := if takeReply then None else t.lastReply));
    }

    /** user_step_issue_syscall */
    method UserStep(i: nat, choice: UserChoice)
      requires Valid()
      modifies Repr()
      ensures Valid() && View() == Spec.UserStep(old(View()), i, choice)
    {
      if i >= tasks.Length || tasks[i].state == Dead || tasks[i].state == Blocked || tasks[i].pendingCall.Some? { return; }
      var t := tasks[i];
      if t.sysRetUnread { SetTask(i, t.(sysRet := None, sysRetUnread := false)); }
      ProgramStep(i, choice);
    }

    /** get_or_alloc_demo_frame */
    method DemoFrame(i: nat) returns (frame: Option<nat>)
      requires Valid() && i < tasks.Length
      modifies Repr()
      ensures Valid() && (View(), frame) == Spec.DemoFrame(old(View()), i)
    {
      var t := tasks[i];
      if t.demoFrame.Some? { return t.demoFrame; }
      if taken >= config.supply { return None; }
      frame := Some(taken);
      SetTaken(taken + 1);
      SetTask(i, t.(demoFrame := frame));
      Emit(FrameAllocated);
    }

    method SetTaken(n: nat)
      requires Valid()
      modifies this
      ensures Valid() && View() == old(View()).(taken := n)
    {
      taken := n;
    }

    /** A map call on behalf of task `i`, with `n` tables missing. */
    method MapFor(i: nat, page: nat, flags: Flags, n: nat) returns (out: Outcome)
      requires Valid() && i < tasks.Length
      modifies Repr()
      ensures Valid() && (View(), out) == Spec.MapFor(old(View()), i, page, flags, n)
    {
      var frame := DemoFrame(i);
      var t := tasks[i];
      var (space, o) := PageMap(t.space, t.kind, page, frame, flags, taken + n <= config.supply);
      out := o;
      if out.Panicked? { Panic(); return; }
      SetTask(i, t.(space := space));
      if frame.Some? && NeedsTables(t.space, t.kind, page, flags) {
        SetTaken(Spec.TablesTaken(taken, n, config.supply));
      }
    }

    /** An unmap call on behalf of task `i`. */
    method UnmapFor(i: nat, page: nat) returns (out: Outcome)
      requires Valid() && i < tasks.Length
      modifies Repr()
      ensures Valid() && (View(), out) == Spec.UnmapFor(old(View()), i, page)
    {
      var t := tasks[i];
      var (space, o) := PageUnmap(t.space, t.kind, page);
      out := o;
      if out.Panicked? { Panic(); } else { SetTask(i, t.(space := space)); }
    }

    method LeaveResult(out: Outcome)
      requires Valid()
      modifies Repr()
      ensures Valid() && View() == Spec.LeaveResult(old(View()), out)
    {
      if out.Panicked? || tasks[current].state == Dead { return; }
      SetTask(current, tasks[current].(sysRet := Some(out.code), sysRetUnread := true));
    }

    /** The page system calls of the current task. */
    method PageCall(call: Syscall, n: nat)
      requires Valid()
      modifies Repr()
      ensures Valid() && View() == Spec.PageCall(old(View()), call, n)
    {
      match call
      case CallPageMap(page, flags) =>
        var out := MapFor(current, page, flags, n);
        LeaveResult(out);
      case CallPageUnmap(page) =>
        var out := UnmapFor(current, page);
        LeaveResult(out);
      case _ =>
    }

    method AfterRecv(i: nat, inp: TickInput)
      requires Valid()
      modifies Repr()
      ensures Valid() && View() == Spec.AfterRecv(old(View()), i, inp)
    {
      if inp.killReceiver && i < tasks.Length && tasks[i].kind == UserSpace { Kill(i, DemoInjected); }
    }

    /** handle_syscall */
    method HandleSyscall(call: Syscall, inp: TickInput)
      requires Valid()
      modifies Repr()
      ensures Valid() && View() == Spec.HandleSyscall(old(View()), call, inp)
    {
      var me := current;
      if tasks[me].kind == KernelSpace && Spec.IsIpc(call) { return; }
      Emit(SyscallHandled(tasks[me].id));
      match call
      case CallRecv(e) =>
        Recv(e);
        AfterRecv(me, inp);
      case CallSend(e, msg) => Send(e, msg);
      case CallReply(e, msg) => Reply(e, msg);
      case _ => PageCall(call, inp.tables);
    }

    /** handle_pending_syscall_if_any */
    method HandlePending(inp: TickInput)
      requires Valid()
      modifies Repr()
      ensures Valid() && View() == Spec.HandlePending(old(View()), inp)
    {
      var t := tasks[current];
      if t.state == Dead {
        SetTask(current, t.(pendingCall := None));
        return;
      }
      match t.pendingCall
      case None =>
      case Some(call) =>
        SetTask(current, t.(pendingCall := None));
        Emit(SyscallIssued(t.id));
        HandleSyscall(call, inp);
    }

    // -------------------------------------------------------------------------
    // The tick
    // -------------------------------------------------------------------------

    method SetClock(c: Clock)
      requires Valid()
      modifies this
      ensures Valid() && View() == old(View()).(clock := c)
    {
      clock := c;
    }

    method SetStage(i: nat, stage: nat)
      requires Valid() && i < tasks.Length
      modifies tasks
      ensures Valid() && View() == Spec.SetStage(old(View()), i, stage)
    {
      SetTask(i, tasks[i].(stage := stage));
    }

    /** A guarded access to user memory by the current task. */
    method GuardedAccess(inp: TickInput, next: nat)
      requires Valid()
      modifies Repr()
      ensures Valid() && View() == Spec.GuardedAccess(old(View()), inp, next)
    {
      var me := current;
      Enter(me, 0);
      if inp.fault {
        Kill(me, UserPageFault);
        if clock.panicked { return; }
        SetStage(me, 0);
      } else {
        SetStage(me, next);
      }
    }

    method UserMemDemo(inp: TickInput)
      requires Valid()
      modifies Repr()
      ensures Valid() && View() == Spec.UserMemDemo(old(View()), inp)
    {
      var i, stage := current, tasks[current].stage;
      if tasks[i].kind != UserSpace { return; }
      if !tasks[i].space.rooted { Panic(); return; }
      if stage == 0 {
        SetCall(i, CallPageMap(Spec.DemoPage(i), Spec.DEMO_FLAGS));
        SetStage(i, 1);
      } else if stage == 1 {
        GuardedAccess(inp, 2);
      } else if stage == 2 {
        SetCall(i, CallPageUnmap(Spec.DemoPage(i)));
        SetStage(i, if config.pfDemo then 3 else 0);
      } else if stage == 3 && config.pfDemo {
        GuardedAccess(inp, 0);
      } else {
        SetStage(i, 0);
      }
    }

    /** do_mem_demo_normal for the kernel task. */
    method KernelMemDemo(n: nat)
      requires Valid()
      modifies Repr()
      ensures Valid() && View() == Spec.KernelMemDemo(old(View()), n)
    {
      var i, t := current, tasks[current];
      if !t.demoMapped && t.demoFrame == None && taken >= config.supply { Halt(); return; }
      var out;
      if t.demoMapped {
        out := UnmapFor(i, Spec.DemoPage(i));
      } else {
        out := MapFor(i, Spec.DemoPage(i), Spec.DEMO_FLAGS_TASK0, n);
      }
      Toggle(i, t, out);
    }

    method Toggle(i: nat, t: Task, out: Outcome)
      requires Valid() && i < tasks.Length
      modifies Repr()
      ensures Valid() && View() == Spec.Toggled(old(View()), i, t, out)
    {
      if out != Returned(OK) { Panic(); return; }
      SetTask(i, tasks[i].(demoMapped := !t.demoMapped));
      Emit(MemActionApplied(t.id));
    }

    /** do_mem_demo_normal */
    method MemDemo(inp: TickInput)
      requires Valid()
      modifies Repr()
      ensures Valid() && View() == Spec.MemDemo(old(View()), inp)
    {
      if tasks[current].state == Dead { return; }
      if current != TASK0_INDEX { UserMemDemo(inp); } else { KernelMemDemo(inp.tables); }
    }

    /** The action of a tick. */
    method Act(inp: TickInput)
      requires Valid()
      modifies Repr()
      ensures Valid() && View() == Spec.Act(old(View()), inp)
    {
      match clock.activity
      case Idle =>
      case UpdatingTimer =>
        SetClock(clock.(timeTicks := clock.timeTicks + 1));
        Emit(TimerUpdated(clock.timeTicks));
      case AllocatingFrame =>
        if taken >= config.supply { Halt(); return; }
        SetTaken(taken + 1);
        Emit(FrameAllocated);
      case MappingDemoPage => MemDemo(inp);
    }

    /** update_runtime_for */
    method UpdateRuntime(i: nat)
      requires Valid()
      modifies tasks, log, log.slots
      ensures Valid() && View() == Spec.UpdateRuntime(old(View()), i)
    {
      if i >= tasks.Length || tasks[i].state == Dead { return; }
      var t := tasks[i];
      ghost var s := View();
      var t' := t.(runtimeTicks := t.runtimeTicks + 1);
      SetTask(i, t');
      Emit(RuntimeUpdated(t.id, t'.runtimeTicks));
      assert View() == Spec.Emit(Spec.SetTask(s, i, t'), RuntimeUpdated(t.id, t'.runtimeTicks));
    }

    /** update_time_slice_for_and_maybe_schedule, for a task that is still running. */
    method ChargeSlice()
      requires Valid()
      modifies Repr()
      ensures Valid() && View() == Spec.ChargeSlice(old(View()))
    {
      var i, t := current, tasks[current];
      SetTask(i, t.(slice := t.slice + 1));
      if t.slice + 1 < config.quantum { return; }
      Emit(QuantumExpired(t.id, t.slice + 1));
      Renew();
    }

    /** An expired slice is renewed if nobody else is ready. */
    method Renew()
      requires Valid()
      modifies Repr()
      ensures Valid() && View() == if old(View()).ready == [] then
        Spec.SetTask(old(View()), old(current), old(View()).tasks[old(current)].(slice := 0)) else Spec.Schedule(old(View()))
    {
      if readyLen == 0 { SetTask(current, tasks[current].(slice := 0)); } else { Schedule(); }
    }

    /** The part of a tick after its action, for a task that did not die. */
    method Serve(ran: nat, inp: TickInput)
      requires Valid() && ran < tasks.Length
      modifies Repr()
      ensures Valid() && View() == Spec.Serve(old(View()), ran, inp)
    {
      UserStep(ran, inp.choice);
      if ran == current { HandlePending(inp); }
      if clock.panicked { return; }
      UpdateRuntime(ran);
      if ran == current && tasks[ran].state == Running { ChargeSlice(); }
    }

    method StartTick()
      requires Valid()
      modifies Repr()
      ensures Valid() && View() == Spec.StartTick(old(View()))
    {
      var tick := clock.tickCount + 1;
      SetClock(clock.(tickCount := tick));
      Emit(TickStarted(tick));
    }

    method SetActivity(a: Activity)
      requires Valid()
      modifies this
      ensures Valid() && View() == Spec.SetActivity(old(View()), a)
    {
      SetClock(clock.(activity := a));
    }

    /** tick */
    method Tick(inp: TickInput)
      requires Valid()
      modifies Repr()
      ensures Valid() && View() == Spec.Tick(old(View()), inp)
    {
      if clock.halted { return; }
      var ran, next := current, Spec.NextActivity(clock.activity);
      StartTick();
      Act(inp);
      if clock.panicked { return; }
      if tasks[ran].state == Dead {
        SetActivity(next);
        if tasks[current].state != Running { Schedule(); }
      } else {
        Serve(ran, inp);
        if clock.panicked { return; }
        SetActivity(next);
        MaybeHalt();
      }
    }
  }

  lemma NobodyLeft(s: State)
    ensures |LiveUsers(s.tasks)| == 0 <==> !Spec.UserAlive(s)
  {
    if Spec.UserAlive(s) {
      var i :| 0 <= i < |s.tasks| && s.tasks[i].state != Dead && s.tasks[i].kind == UserSpace;
      assert i in LiveUsers(s.tasks);
    } else {
      assert LiveUsers(s.tasks) == {};
    }
  }

  lemma RemovedLast(q: seq<nat>)
    requires q != []
    ensures Spec.SwapRemove(q, |q| - 1) == q[..|q| - 1]
  {
  }

  /** `s` with what is left of a reply line. */
  function Scanned(s: State, e: nat, q: seq<nat>): State
    requires e < |s.endpoints|
  {
    Spec.SetEp(s, e, s.endpoints[e].(repliers := q))
  }

  lemma ScannedLast(s: State, e: nat, q: seq<nat>)
    requires e < |s.endpoints| && q != []
    ensures var x := Scanned(s, e, q);
      Spec.SetEp(x, e, x.endpoints[e].(repliers := Spec.SwapRemove(q, |q| - 1))) == Scanned(s, e, q[..|q| - 1])
  {
    RemovedLast(q);
  }

  lemma {:induction false} KeptInRange(tasks: seq<Task>, q: seq<nat>, k: nat)
    requires k < |Spec.KeepReady(tasks, q)|
    ensures Spec.KeepReady(tasks, q)[k] < |tasks| && tasks[Spec.KeepReady(tasks, q)[k]].state == Ready
  {
    if k < |Spec.KeepReady(tasks, q[..|q| - 1])| { KeptInRange(tasks, q[..|q| - 1], k); }
  }

  /** Compacting a compacted queue changes nothing. */
  lemma {:induction false} KeptTwice(tasks: seq<Task>, q: seq<nat>)
    ensures var r := Spec.KeepReady(tasks, q); Spec.KeepReady(tasks, r) == r
  {
    if q != [] {
      var rest := Spec.KeepReady(tasks, q[..|q| - 1]);
      KeptTwice(tasks, q[..|q| - 1]);
      assert (rest + [q[|q| - 1]])[..|rest|] == rest;
    }
  }
}
