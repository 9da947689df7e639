/** The IPC paths keep the invariant, and their repair and capacity branches are dead. */
module IpcPaths {
  import opened KernelTypes
  import opened KernelSpec
  import opened Slots
  import opened Invariant
  import opened Links
  import opened Scheduling

  /** A user task is about to use an open endpoint. */
  ghost predicate Calling(s: State, e: nat) {
    Core(s) && s.current != 0 && e < |s.endpoints| && !s.endpoints[e].closed
  }

  lemma QueuedSettles(s: State, e: nat, msg: Word)
    requires Calling(s, e) && s.endpoints[e].receiver == None
    ensures Settled(Queued(s, e, msg))
  {
    var r := Queued(s, e, msg);
    QueuedLinks(s, e, msg);
    ReplyLinesSame(s, r);
  }

  /** Reply lines untouched, nobody dies, and nobody in a line changes its reason. */
  lemma ReplyLinesSame(s: State, r: State)
    requires Forward(s) && LivePartners(s) && NoNewDead(s, r)
    requires forall e: nat {:trigger Members(r, AtReply(e))} :: Members(r, AtReply(e)) == Members(s, AtReply(e))
    requires forall j: nat {:trigger r.tasks[j]} ::
      j < |s.tasks| && s.tasks[j].reason.Some? && s.tasks[j].reason.value.IpcReply? ==>
        r.tasks[j].reason == s.tasks[j].reason
    ensures LivePartners(r)
  {
    forall e: nat, x: nat | x in Members(r, AtReply(e))
      ensures x in Members(s, AtReply(e)) && x < |s.tasks| && r.tasks[x].reason == s.tasks[x].reason
    {
      assert x in Members(s, AtReply(e));
    }
    PartnersKept(s, r);
  }

  lemma ListeningSettles(s: State, e: nat)
    requires Calling(s, e) && s.endpoints[e].receiver == None && s.endpoints[e].senders == []
    ensures Settled(Listening(s, e))
  {
    ListeningLinks(s, e);
    ReplyLinesSame(s, Listening(s, e));
  }

  lemma HandedOverPartners(s: State, e: nat, x: nat, msg: Word)
    requires Shape(s) && Forward(s) && LivePartners(s) && s.tasks[s.current].state == Running && e < |s.endpoints|
    requires x != s.current && x < |s.tasks| && s.tasks[x].reason == Some(IpcRecv(e)) && s.tasks[x].state == Blocked
    requires 1 <= s.tasks[x].id <= |s.tasks| && s.tasks[x].id - 1 == x
    ensures LivePartners(HandedOver(s, e, x, msg))
  {
    var r := HandedOver(s, e, x, msg);
    forall f: nat, y: nat {:trigger y in Members(r, AtReply(f))} | y in Members(r, AtReply(f)) ensures y < |r.tasks| && PartnerLives(r, r.tasks[y]) {
      if y != s.current {
        assert y in Members(s, AtReply(f));
        assert y != x && r.tasks[y] == s.tasks[y];
        assert PartnerLives(s, s.tasks[y]);
      } else {
        assert y !in Members(s, AtReply(f));
        assert r.tasks[y].reason == Some(IpcReply(s.tasks[x].id, e));
      }
    }
  }

  lemma HandedOverSettles(s: State, e: nat, x: nat, msg: Word)
    requires Calling(s, e) && s.endpoints[e].receiver == Some(x)
    ensures x != s.current && 0 < x < |s.tasks| && s.tasks[x].reason == Some(IpcRecv(e)) && s.tasks[x].state == Blocked
    ensures Settled(HandedOver(s, e, x, msg))
  {
    assert x in Members(s, AtRecv(e));
    HandedOverLinks(s, e, x, msg);
    HandedOverPartners(s, e, x, msg);
  }

  lemma TakenFromPartners(s: State, e: nat, x: nat)
    requires Shape(s) && Forward(s) && LivePartners(s) && s.tasks[s.current].state == Running && e < |s.endpoints|
    requires x != s.current && x < |s.tasks| && QueuedSender(s, e, x) && s.tasks[x].pendingMsg.Some?
    requires s.endpoints[e].senders != [] && s.tasks[s.current].id == s.current + 1
    ensures LivePartners(TakenFrom(s, e, x))
  {
    var r := TakenFrom(s, e, x);
    forall f: nat, y: nat {:trigger y in Members(r, AtReply(f))} | y in Members(r, AtReply(f)) ensures y < |r.tasks| && PartnerLives(r, r.tasks[y]) {
      if y != x {
        assert y in Members(s, AtReply(f));
        assert y != s.current && r.tasks[y] == s.tasks[y];
        assert PartnerLives(s, s.tasks[y]);
      } else {
        assert r.tasks[y].reason == Some(IpcReply(s.tasks[s.current].id, e));
      }
    }
  }

  lemma TakenFromTasks(s: State, e: nat, x: nat)
    requires Shape(s) && TasksOk(s) && OneRunning(s) && s.tasks[s.current].state == Running && s.current != 0
    requires x != s.current && x < |s.tasks| && QueuedSender(s, e, x) && s.tasks[x].pendingMsg.Some?
    requires e < |s.endpoints| && s.endpoints[e].senders != []
    ensures TasksOk(TakenFrom(s, e, x)) && OneRunning(TakenFrom(s, e, x))
  {
  }

  lemma TakenFromSettles(s: State, e: nat, x: nat)
    requires Calling(s, e) && s.endpoints[e].senders != [] && x == s.endpoints[e].senders[|s.endpoints[e].senders| - 1]
    ensures x != s.current && 0 < x < |s.tasks| && QueuedSender(s, e, x) && s.tasks[x].pendingMsg.Some?
    ensures Core(TakenFrom(s, e, x))
  {
    assert x in Members(s, AtSend(e));
    TakenFromLinks(s, e, x);
    TakenFromPartners(s, e, x);
    TakenFromTasks(s, e, x);
    assert s.endpoints[e].receiver == None;
  }

  // ---------------------------------------------------------------------------
  // Changes the invariant does not see
  // ---------------------------------------------------------------------------

  predicate SameControl(t: Task, t': Task) {
    && t'.id == t.id && t'.state == t.state && t'.priority == t.priority && t'.kind == t.kind
    && t'.reason == t.reason && t'.pendingMsg == t.pendingMsg && t'.slice == t.slice && t'.space.rooted == t.space.rooted
    && (t'.lastMsg == t.lastMsg || t'.lastMsg == None)
    && (t.state == Dead ==> t'.lastMsg == t.lastMsg && t'.lastReply == t.lastReply && t'.pendingCall == t.pendingCall)
  }

  /** `r` differs from `s` at most in clocks, counters, history, roots and task-local data. */
  predicate Alike(s: State, r: State) {
    && |r.tasks| == |s.tasks| && r.current == s.current && r.ready == s.ready && r.endpoints == s.endpoints
    && r.config == s.config
    && forall j: nat {:trigger r.tasks[j]} :: j < |s.tasks| ==> SameControl(s.tasks[j], r.tasks[j])
  }

  lemma AlikeSettled(s: State, r: State)
    requires Settled(s) && Alike(s, r)
    ensures Settled(r)
    ensures Core(s) ==> Core(r)
  {
    forall sl: Slot ensures Members(r, sl) == Members(s, sl) {}
    Relabel(s, r);
    ReplyLinesSame(s, r);
    AlikeTasks(s, r);
  }

  lemma AlikeTasks(s: State, r: State)
    requires Shape(s) && TasksOk(s) && OneRunning(s) && Alike(s, r)
    ensures TasksOk(r) && OneRunning(r)
  {
    forall j: nat | j < |r.tasks| ensures TaskOk(r.tasks[j], j, |r.tasks|) && (r.tasks[j].state == Running ==> j == r.current) {
      assert TaskOk(s.tasks[j], j, |s.tasks|) && SameControl(s.tasks[j], r.tasks[j]);
    }
  }

  // ---------------------------------------------------------------------------
  // Receive and send
  // ---------------------------------------------------------------------------

  /** Under the invariant a receive takes the last queued sender's message, or waits; it
      never drops or rescues anybody. */
  function RecvIdeal(s: State, e: nat): State
    requires Shape(s) && e < |s.endpoints|
    requires forall k :: 0 <= k < |s.endpoints[e].senders| ==>
      s.endpoints[e].senders[k] < |s.tasks| && s.tasks[s.endpoints[e].senders[k]].pendingMsg.Some?
  {
    var q := s.endpoints[e].senders;
    if q != [] then TakenFrom(s, e, q[|q| - 1])
    else if s.endpoints[e].receiver.Some? then SetReply(s, s.current, IPC_ERR_RECV_ALREADY_WAITING)
    else Schedule(Listening(s, e))
  }

  lemma SendersReady(s: State, e: nat)
    requires Settled(s) && e < |s.endpoints|
    ensures forall k :: 0 <= k < |s.endpoints[e].senders| ==>
      s.endpoints[e].senders[k] < |s.tasks| && s.tasks[s.endpoints[e].senders[k]].pendingMsg.Some?
  {
    forall k | 0 <= k < |s.endpoints[e].senders|
      ensures s.endpoints[e].senders[k] < |s.tasks| && s.tasks[s.endpoints[e].senders[k]].pendingMsg.Some?
    {
      assert s.endpoints[e].senders[k] in Members(s, AtSend(e));
    }
  }

  ghost function RecvOpen(s: State, e: nat): State
    requires Shape(s) && e < |s.endpoints|
  {
    var (s2, done) := RecvFast(s, e);
    if done then s2 else RecvSlow(s2, e)
  }

  lemma RecvOpenIdeal(s: State, e: nat)
    requires Calling(s, e)
    ensures forall k :: 0 <= k < |s.endpoints[e].senders| ==>
      s.endpoints[e].senders[k] < |s.tasks| && s.tasks[s.endpoints[e].senders[k]].pendingMsg.Some?
    ensures RecvOpen(s, e) == RecvIdeal(s, e)
  {
    SendersReady(s, e);
    NotQueued(s, s.current);
    var q := s.endpoints[e].senders;
    if q != [] {
      var x := q[|q| - 1];
      assert x in Members(s, AtSend(e));
      assert x !in Members(s, AtReady) && x !in Members(s, AtReply(e));
      Room(s, AtReply(e), x);
      RecvFastForm(s, e, x);
    } else {
      assert PopSender(s, e) == (s, None);
      if s.endpoints[e].receiver == None {
        RecvWaitForm(s, e);
      }
    }
  }

  lemma RecvOpenCore(s: State, e: nat)
    requires Calling(s, e)
    ensures Core(RecvOpen(s, e))
  {
    RecvOpenIdeal(s, e);
    var q := s.endpoints[e].senders;
    if q != [] {
      TakenFromSettles(s, e, q[|q| - 1]);
    } else if s.endpoints[e].receiver.Some? {
      AlikeSettled(s, SetReply(s, s.current, IPC_ERR_RECV_ALREADY_WAITING));
    } else {
      ListeningSettles(s, e);
      ScheduleOk(Listening(s, e));
    }
  }

  /** Under the invariant a send hands over to the waiting receiver, or queues. */
  function SendIdeal(s: State, e: nat, msg: Word): State
    requires Shape(s) && e < |s.endpoints|
    requires s.endpoints[e].receiver.Some? ==> s.endpoints[e].receiver.value < |s.tasks|
  {
    if s.endpoints[e].receiver.Some? then Schedule(HandedOver(s, e, s.endpoints[e].receiver.value, msg))
    else Schedule(Queued(s, e, msg))
  }

  lemma SendOpenIdeal(s: State, e: nat, msg: Word)
    requires Calling(s, e)
    ensures s.endpoints[e].receiver.Some? ==> s.endpoints[e].receiver.value < |s.tasks|
    ensures SendOpen(s, e, msg) == SendIdeal(s, e, msg)
  {
    var me := s.current;
    NotQueued(s, me);
    if s.endpoints[e].receiver.Some? {
      var x := s.endpoints[e].receiver.value;
      assert x in Members(s, AtRecv(e));
      assert x !in Members(s, AtReady);
      Room(s, AtReady, x);
      Room(s, AtReply(e), me);
      HandoverForm(s, e, x, msg);
    } else {
      Room(s, AtSend(e), me);
      SendWaitForm(s, e, msg);
    }
  }
}
