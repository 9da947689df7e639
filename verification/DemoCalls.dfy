/** Single system calls of a peaceful kernel, in the forms that the demo program needs. */
module DemoCalls {
  import opened KernelTypes
  import opened KernelSpec
  import opened Invariant
  import opened Links
  import opened IpcPaths
  import opened ReplyPath
  import opened Actions
  import opened DemoTicks

  /** What a call leaves behind, apart from counters, roots and history. */
  predicate Leaves(r: State, tasks: seq<Task>, current: nat, ready: seq<nat>, endpoints: seq<Endpoint>) {
    r.tasks == tasks && r.current == current && r.ready == ready && r.endpoints == endpoints
  }

  predicate SameFrame(s: State, r: State) {
    r.config == s.config && r.sentByTask1 == s.sentByTask1 && r.clock == s.clock
  }

  /** A user task is about to call on the open endpoint `e`. */
  lemma GateOpen(x: State, e: nat)
    requires Core(x) && x.current != 0 && e < |x.endpoints| && !x.endpoints[e].closed
    ensures Gate(x, e) == None && x.tasks[x.current].id == x.current + 1
  {
    assert TaskOk(x.tasks[x.current], x.current, |x.tasks|);
  }

  /** No receiver waits: the sender queues, and the only ready task takes over. */
  lemma SendQueues(x: State, e: nat, msg: Word, y: nat)
    requires Calling(x, e) && x.endpoints[e].receiver == None && x.ready == [y]
    ensures y < |x.tasks|
    ensures var r := Send(x, e, msg);
      && Leaves(r, x.tasks[x.current := Parked(x.tasks[x.current], IpcSend(e)).(pendingMsg := Some(msg))]
                          [y := Dispatched(x.tasks[y])],
                y, [], x.endpoints[e := x.endpoints[e].(senders := x.endpoints[e].senders + [x.current])])
      && SameFrame(x, r)
  {
    GateOpen(x, e);
    var ev := IpcSendCalled(x.current + 1, e, msg);
    var x1 := Emit(x, ev);
    EmitCalling(x, e, ev);
    SendOpenIdeal(x1, e, msg);
    QueuedSettles(x1, e, msg);
    NotQueued(x, x.current);
    ScheduleSingle(Queued(x1, e, msg), y);
  }

  lemma SendHandsForm(x: State, e: nat, msg: Word, y: nat)
    requires Calling(x, e) && x.endpoints[e].receiver == Some(y) && x.ready == []
    ensures y < |x.tasks| && y != x.current && x.tasks[y].id == y + 1
    ensures var h := HandedOver(Emit(x, IpcSendCalled(x.current + 1, e, msg)), e, y, msg);
      Settled(h) && h.ready == [y] && Send(x, e, msg) == Schedule(h)
  {
    GateOpen(x, e);
    var ev := IpcSendCalled(x.current + 1, e, msg);
    var x1 := Emit(x, ev);
    EmitCalling(x, e, ev);
    SendOpenIdeal(x1, e, msg);
    HandedOverSettles(x1, e, y, msg);
    assert TaskOk(x.tasks[y], y, |x.tasks|);
  }

  lemma Overwrite(tasks: seq<Task>, y: nat, me: nat, a: Task, b: Task, c: Task)
    requires y < |tasks| && me < |tasks| && y != me
    ensures tasks[y := a][me := b][y := c] == tasks[me := b][y := c]
  {
  }

  /** A receiver `y` waits and nobody is ready: the receiver takes over with the message. */
  lemma SendHands(x: State, e: nat, msg: Word, y: nat)
    requires Calling(x, e) && x.endpoints[e].receiver == Some(y) && x.ready == []
    ensures y < |x.tasks| && y != x.current
    ensures var r := Send(x, e, msg);
      && Leaves(r, x.tasks[x.current := Parked(x.tasks[x.current], IpcReply(y + 1, e))]
                          [y := Dispatched(x.tasks[y]).(lastMsg := Some(msg))],
                y, [], x.endpoints[e := x.endpoints[e].(receiver := None, repliers := x.endpoints[e].repliers + [x.current])])
      && SameFrame(x, r)
  {
    SendHandsForm(x, e, msg, y);
    var h := HandedOver(Emit(x, IpcSendCalled(x.current + 1, e, msg)), e, y, msg);
    ScheduleSingle(h, y);
    Overwrite(x.tasks, y, x.current, Woken(x.tasks[y]).(lastMsg := Some(msg)),
              Parked(x.tasks[x.current], IpcReply(y + 1, e)), Dispatched(x.tasks[y]).(lastMsg := Some(msg)));
  }

  lemma RecvForm(x: State, e: nat)
    requires Calling(x, e)
    ensures Recv(x, e) == RecvOpen(Emit(x, IpcRecvCalled(x.current + 1, e)), e)
    ensures Calling(Emit(x, IpcRecvCalled(x.current + 1, e)), e)
  {
    GateOpen(x, e);
    EmitCalling(x, e, IpcRecvCalled(x.current + 1, e));
  }

  /** One sender `y` is queued: the receiver takes its message and runs on. */
  lemma RecvTakes(x: State, e: nat, y: nat)
    requires Calling(x, e) && x.endpoints[e].senders == [y]
    ensures y < |x.tasks| && y != x.current && x.tasks[y].pendingMsg.Some?
    ensures var r := Recv(x, e);
      && Leaves(r, x.tasks[y := Parked(x.tasks[y], IpcReply(x.current + 1, e)).(pendingMsg := None)]
                          [x.current := x.tasks[x.current].(lastMsg := x.tasks[y].pendingMsg)],
                x.current, x.ready, x.endpoints[e := x.endpoints[e].(senders := [], repliers := x.endpoints[e].repliers + [y])])
      && SameFrame(x, r)
  {
    GateOpen(x, e);
    RecvForm(x, e);
    var x1 := Emit(x, IpcRecvCalled(x.current + 1, e));
    RecvOpenIdeal(x1, e);
    TakenFromSettles(x1, e, y);
    assert [y][..0] == [];
  }

  /** No sender is queued: the receiver waits, and the only ready task takes over. */
  lemma RecvListens(x: State, e: nat, y: nat)
    requires Calling(x, e) && x.endpoints[e].senders == [] && x.endpoints[e].receiver == None && x.ready == [y]
    ensures y < |x.tasks|
    ensures var r := Recv(x, e);
      && Leaves(r, x.tasks[x.current := Parked(x.tasks[x.current], IpcRecv(e))][y := Dispatched(x.tasks[y])],
                y, [], x.endpoints[e := x.endpoints[e].(receiver := Some(x.current))])
      && SameFrame(x, r)
  {
    RecvForm(x, e);
    var x1 := Emit(x, IpcRecvCalled(x.current + 1, e));
    RecvOpenIdeal(x1, e);
    ListeningSettles(x1, e);
    NotQueued(x, x.current);
    ScheduleSingle(Listening(x1, e), y);
  }

  /** The only waiter `y` awaits the caller: it gets the answer and becomes ready. */
  lemma ReplyAnswers(x: State, e: nat, msg: Word, y: nat)
    requires Calling(x, e) && x.endpoints[e].repliers == [y] && AwaitsReply(x, y, x.current + 1, e)
    ensures var r := Reply(x, e, msg);
      && Leaves(r, x.tasks[y := Woken(x.tasks[y]).(lastReply := Some(msg))],
                x.current, x.ready + [y], x.endpoints[e := x.endpoints[e].(repliers := [])])
      && SameFrame(x, r)
  {
    GateOpen(x, e);
    var k := LastMatch(x, [y], x.current + 1, e);
    assert k == 0;
    AnsweredForm(x, e, msg, 0);
    assert [y][..0] == [];
  }
}
