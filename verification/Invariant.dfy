/** The invariant of the tick-driven kernel. */
module Invariant {
  import opened KernelTypes
  import opened KernelSpec
  import opened Counting
  import opened Slots

  /** What a single task record must satisfy, whatever the rest of the kernel does. */
  predicate TaskOk(t: Task, i: nat, n: nat) {
    && t.id == i + 1
    && (t.kind == KernelSpace <==> i == TASK0_INDEX)
    && (t.state == Blocked <==> t.reason.Some?)
    && (t.pendingMsg.Some? <==> t.reason.Some? && t.reason.value.IpcSend?)
    && (t.state != Running ==> t.slice == 0)
    && (i == TASK0_INDEX ==> t.state == Ready || t.state == Running)
    && (t.state == Dead ==> t.lastMsg == None && t.lastReply == None && t.pendingCall == None)
    && (t.reason.Some? && t.reason.value.IpcReply? ==>
          2 <= t.reason.value.partner <= n && t.reason.value.partner != t.id)
  }

  predicate TasksOk(s: State) {
    forall i: nat {:trigger s.tasks[i]} :: i < |s.tasks| ==> TaskOk(s.tasks[i], i, |s.tasks|)
  }

  predicate OneRunning(s: State) {
    forall i: nat {:trigger s.tasks[i]} :: i < |s.tasks| && s.tasks[i].state == Running ==> i == s.current
  }

  /** Closed endpoints are empty, and no endpoint has both a waiting receiver and senders. */
  predicate EndpointOk(ep: Endpoint) {
    && (ep.closed ==> ep.receiver == None && ep.senders == [] && ep.repliers == [])
    && (ep.receiver.Some? ==> ep.senders == [])
  }

  predicate EndpointsOk(s: State) {
    forall e: nat {:trigger s.endpoints[e]} :: e < |s.endpoints| ==> EndpointOk(s.endpoints[e])
  }

  predicate PartnerLives(s: State, t: Task) {
    t.reason.Some? && t.reason.value.IpcReply? && 1 <= t.reason.value.partner <= |s.tasks|
    && s.tasks[t.reason.value.partner - 1].state != Dead
  }

  /** Whoever is in a reply line waits for a task that is not dead. */
  ghost predicate LivePartners(s: State) {
    forall e: nat, x: nat {:trigger x in Members(s, AtReply(e))} ::
      x in Members(s, AtReply(e)) ==> x < |s.tasks| && PartnerLives(s, s.tasks[x])
  }

  /** Everything but the current task's own state: what holds when a schedule is due. */
  ghost predicate Settled(s: State) {
    Shape(s) && s.config.quantum > 0 && Linked(s) && TasksOk(s) && OneRunning(s) && EndpointsOk(s) && LivePartners(s)
  }

  /** The invariant at tick boundaries. */
  ghost predicate Core(s: State) {
    Settled(s) && s.tasks[s.current].state == Running && s.tasks[s.current].slice < s.config.quantum
  }

  // ---------------------------------------------------------------------------
  // Task records after the elementary moves
  // ---------------------------------------------------------------------------

  function Parked(t: Task, why: BlockedReason): Task {
    t.(state := Blocked, reason := Some(why), slice := 0)
  }

  function Woken(t: Task): Task {
    t.(state := Ready, reason := None, slice := 0)
  }

  function Dispatched(t: Task): Task {
    t.(state := Running, reason := None, slice := 0)
  }

  // ---------------------------------------------------------------------------
  // Closed forms: what each path does once the invariant rules out its repair branches
  // ---------------------------------------------------------------------------

  lemma NotQueued(s: State, i: nat)
    requires Forward(s) && i < |s.tasks| && Home(s.tasks[i], i) == None
    ensures forall sl :: i !in Members(s, sl)
    ensures i !in s.ready
    ensures forall e: nat {:trigger s.endpoints[e]} :: e < |s.endpoints| ==>
      s.endpoints[e].receiver != Some(i) && i !in s.endpoints[e].senders && i !in s.endpoints[e].repliers
  {
    assert i !in Members(s, AtReady);
    forall e: nat | e < |s.endpoints|
      ensures s.endpoints[e].receiver != Some(i) && i !in s.endpoints[e].senders && i !in s.endpoints[e].repliers
    {
      assert i !in Members(s, AtRecv(e)) && i !in Members(s, AtSend(e)) && i !in Members(s, AtReply(e));
    }
  }

  /** Any slot that misses some task has room for it. */
  lemma Room(s: State, sl: Slot, i: nat)
    requires Forward(s) && NoRepeats(s) && i < |s.tasks| && i !in Members(s, sl)
    ensures |Members(s, sl)| < |s.tasks|
  {
    forall x: nat | x in Members(s, sl) ensures x < |s.tasks| {}
    assert Distinct(Members(s, sl));
    Pigeonhole(Members(s, sl), |s.tasks|, i);
  }

  lemma WakeForm(s: State, x: nat)
    requires x < |s.tasks| && s.tasks[x].state == Blocked && x !in s.ready && |s.ready| < |s.tasks|
    ensures Wake(s, x) == s.(
      tasks := s.tasks[x := Woken(s.tasks[x])],
      ready := s.ready + [x],
      history := s.history + [TaskStateChanged(s.tasks[x].id, Ready)])
  {
  }

  lemma BlockForm(s: State, i: nat, why: BlockedReason)
    requires i < |s.tasks| && s.tasks[i].state != Dead && i !in s.ready
    ensures Block(s, i, why) == s.(
      tasks := s.tasks[i := Parked(s.tasks[i], why)],
      history := s.history + [TaskStateChanged(s.tasks[i].id, Blocked)])
  {
    RemoveAllAbsent(s.ready, i);
  }

  lemma SetTaskTwice(s: State, i: nat, a: Task, b: Task)
    requires i < |s.tasks|
    ensures SetTask(SetTask(s, i, a), i, b) == SetTask(s, i, b)
  {
    assert s.tasks[i := a][i := b] == s.tasks[i := b];
  }

  lemma SetEpTwice(s: State, e: nat, a: Endpoint, b: Endpoint)
    requires e < |s.endpoints|
    ensures SetEp(SetEp(s, e, a), e, b) == SetEp(s, e, b)
  {
    assert s.endpoints[e := a][e := b] == s.endpoints[e := b];
  }

  lemma RecvWaitForm(s: State, e: nat)
    requires Shape(s) && s.tasks[s.current].state == Running && s.current !in s.ready && e < |s.endpoints|
    ensures RecvWait(s, e) == s.(
      tasks := s.tasks[s.current := Parked(s.tasks[s.current], IpcRecv(e))],
      endpoints := s.endpoints[e := s.endpoints[e].(receiver := Some(s.current))],
      counters := s.counters.(recvSlow := s.counters.recvSlow + 1),
      history := s.history + [TaskStateChanged(s.tasks[s.current].id, Blocked)]
                 + [IpcRecvBlocked(s.tasks[s.current].id, e)])
  {
    BlockForm(s.(counters := s.counters.(recvSlow := s.counters.recvSlow + 1)), s.current, IpcRecv(e));
  }

  /** A sender that finds no receiver joins the senders' line. */
  function Queued(s: State, e: nat, msg: Word): State
    requires Shape(s) && e < |s.endpoints|
  {
    var me := s.current;
    var id := s.tasks[me].id;
    s.(tasks := s.tasks[me := Parked(s.tasks[me], IpcSend(e)).(pendingMsg := Some(msg))],
       endpoints := s.endpoints[e := s.endpoints[e].(senders := s.endpoints[e].senders + [me])],
       counters := s.counters.(sendSlow := s.counters.sendSlow + 1),
       history := s.history + [TaskStateChanged(id, Blocked)] + [IpcSendBlocked(id, e)])
  }

  lemma SendWaitForm(s: State, e: nat, msg: Word)
    requires Shape(s) && s.tasks[s.current].state == Running && s.current !in s.ready && e < |s.endpoints|
    requires s.current !in s.endpoints[e].senders && |s.endpoints[e].senders| < |s.tasks|
    ensures SendWait(s, e, msg) == (Queued(s, e, msg), true)
  {
    var me := s.current;
    var s1 := s.(counters := s.counters.(sendSlow := s.counters.sendSlow + 1));
    var s2 := SetEp(s1, e, s1.endpoints[e].(senders := s.endpoints[e].senders + [me]));
    var s3 := SetTask(s2, me, s2.tasks[me].(pendingMsg := Some(msg)));
    BlockForm(s3, me, IpcSend(e));
    SetTaskTwice(s2, me, s3.tasks[me], Parked(s3.tasks[me], IpcSend(e)));
    assert Parked(s3.tasks[me], IpcSend(e)) == Parked(s.tasks[me], IpcSend(e)).(pendingMsg := Some(msg));
  }

  /** A sender that finds receiver `x` waiting hands its message over and awaits the reply. */
  function HandedOver(s: State, e: nat, x: nat, msg: Word): State
    requires Shape(s) && e < |s.endpoints| && x < |s.tasks|
  {
    var me := s.current;
    s.(tasks := s.tasks[x := Woken(s.tasks[x]).(lastMsg := Some(msg))]
                       [me := Parked(s.tasks[me], IpcReply(s.tasks[x].id, e))],
       ready := s.ready + [x],
       endpoints := s.endpoints[e := s.endpoints[e].(receiver := None, repliers := s.endpoints[e].repliers + [me])],
       counters := s.counters.(sendFast := s.counters.sendFast + 1),
       history := s.history + [TaskStateChanged(s.tasks[x].id, Ready)] + [TaskStateChanged(s.tasks[me].id, Blocked)]
                  + [IpcDelivered(s.tasks[me].id, s.tasks[x].id, e, msg)])
  }

  /** The first half of a handover: receiver `x` is woken with the message. */
  lemma GreetedForm(s: State, e: nat, x: nat, msg: Word)
    requires e < |s.endpoints| && x < |s.tasks| && s.tasks[x].state == Blocked && x !in s.ready && |s.ready| < |s.tasks|
    ensures var s1 := Wake(SetEp(s, e, s.endpoints[e].(receiver := None)), x);
      SetTask(s1, x, s1.tasks[x].(lastMsg := Some(msg)))
      == s.(tasks := s.tasks[x := Woken(s.tasks[x]).(lastMsg := Some(msg))], ready := s.ready + [x],
            endpoints := s.endpoints[e := s.endpoints[e].(receiver := None)],
            history := s.history + [TaskStateChanged(s.tasks[x].id, Ready)])
  {
    var s0 := SetEp(s, e, s.endpoints[e].(receiver := None));
    WakeForm(s0, x);
    SetTaskTwice(s0, x, Woken(s.tasks[x]), Woken(s.tasks[x]).(lastMsg := Some(msg)));
  }

  lemma HandoverForm(s: State, e: nat, x: nat, msg: Word)
    requires Shape(s) && s.tasks[s.current].state == Running && e < |s.endpoints|
    requires x < |s.tasks| && x != s.current && s.tasks[x].state == Blocked
    requires s.current !in s.ready && x !in s.ready && |s.ready| < |s.tasks|
    requires s.current !in s.endpoints[e].repliers && |s.endpoints[e].repliers| < |s.tasks|
    ensures Handover(s, e, x, msg) == (HandedOver(s, e, x, msg), true)
  {
    var me := s.current;
    GreetedForm(s, e, x, msg);
    var s0 := SetEp(s, e, s.endpoints[e].(receiver := None));
    var s1 := Wake(s0, x);
    var s2 := SetTask(s1, x, s1.tasks[x].(lastMsg := Some(msg)));
    var line := s.endpoints[e].repliers + [me];
    var s3 := SetEp(s2, e, s2.endpoints[e].(repliers := line));
    SetEpTwice(s2, e, s0.endpoints[e], s3.endpoints[e]);
    assert s3.endpoints == s.endpoints[e := s.endpoints[e].(receiver := None, repliers := line)];
    BlockForm(s3, me, IpcReply(s.tasks[x].id, e));
  }

  /** A receiver takes the message of queued sender `x`, who now awaits the reply. */
  function TakenFrom(s: State, e: nat, x: nat): State
    requires Shape(s) && e < |s.endpoints| && x < |s.tasks| && s.endpoints[e].senders != [] && s.tasks[x].pendingMsg.Some?
  {
    var me := s.current;
    var ep := s.endpoints[e];
    var msg := s.tasks[x].pendingMsg.value;
    s.(tasks := s.tasks[x := Parked(s.tasks[x], IpcReply(s.tasks[me].id, e)).(pendingMsg := None)]
                       [me := s.tasks[me].(lastMsg := Some(msg))],
       endpoints := s.endpoints[e := ep.(senders := ep.senders[..|ep.senders| - 1], repliers := ep.repliers + [x])],
       counters := s.counters.(recvFast := s.counters.recvFast + 1),
       history := s.history + [TaskStateChanged(s.tasks[x].id, Blocked)]
                  + [IpcDelivered(s.tasks[x].id, s.tasks[me].id, e, msg)])
  }

  lemma TakeFromForm(s: State, e: nat, x: nat)
    requires Shape(s) && e < |s.endpoints| && x < |s.tasks| && s.tasks[x].state == Blocked
    requires x != s.current && s.tasks[x].pendingMsg.Some? && x !in s.ready
    requires x !in s.endpoints[e].repliers && |s.endpoints[e].repliers| < |s.tasks|
    ensures var me := s.current;
      var msg := s.tasks[x].pendingMsg.value;
      TakeFrom(s, e, x) == (s.(
        tasks := s.tasks[x := Parked(s.tasks[x], IpcReply(s.tasks[me].id, e)).(pendingMsg := None)]
                        [me := s.tasks[me].(lastMsg := Some(msg))],
        endpoints := s.endpoints[e := s.endpoints[e].(repliers := s.endpoints[e].repliers + [x])],
        counters := s.counters.(recvFast := s.counters.recvFast + 1),
        history := s.history + [TaskStateChanged(s.tasks[x].id, Blocked)]
                   + [IpcDelivered(s.tasks[x].id, s.tasks[me].id, e, msg)]), true)
  {
    var me := s.current;
    var s1 := SetTask(s, x, s.tasks[x].(pendingMsg := None));
    var s2 := SetEp(s1, e, s1.endpoints[e].(repliers := s.endpoints[e].repliers + [x]));
    BlockForm(s2, x, IpcReply(s.tasks[me].id, e));
    SetTaskTwice(s, x, s1.tasks[x], Parked(s1.tasks[x], IpcReply(s.tasks[me].id, e)));
  }

  lemma RecvFastForm(s: State, e: nat, x: nat)
    requires Shape(s) && e < |s.endpoints| && s.endpoints[e].senders != []
    requires x == s.endpoints[e].senders[|s.endpoints[e].senders| - 1] && QueuedSender(s, e, x)
    requires x != s.current && s.tasks[x].pendingMsg.Some? && x !in s.ready
    requires x !in s.endpoints[e].repliers && |s.endpoints[e].repliers| < |s.tasks|
    ensures RecvFast(s, e) == (TakenFrom(s, e, x), true)
  {
    var me := s.current;
    var ep := s.endpoints[e];
    var s0 := SetEp(s, e, ep.(senders := ep.senders[..|ep.senders| - 1]));
    assert PopSender(s, e) == (s0, Some(x));
    TakeFromForm(s0, e, x);
    SetEpTwice(s, e, s0.endpoints[e], ep.(senders := ep.senders[..|ep.senders| - 1], repliers := ep.repliers + [x]));
  }
}
