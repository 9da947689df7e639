/** kill_task: the dead task leaves every queue, and exactly the right waiters are woken. */
module KillPath {
  import opened KernelTypes
  import opened KernelSpec
  import opened Counting
  import opened Slots
  import opened Invariant
  import opened Links
  import opened Scheduling
  import opened IpcPaths
  import opened EventLists

  /** A waiter that is released with an error. */
  function Freed(t: Task, err: Word): Task {
    t.(state := Ready, reason := None, slice := 0, lastReply := Some(err), pendingMsg := None)
  }

  /** The same waiter between leaving its line and being woken. */
  function Limbo(t: Task): Task {
    t.(reason := None, lastReply := Some(IPC_ERR_DEAD_PARTNER))
  }

  /** The part of the state that waking tasks does not touch. */
  predicate Apart(s: State, r: State) {
    && r.current == s.current && r.cr3 == s.cr3 && r.sentByTask1 == s.sentByTask1 && r.counters == s.counters
    && r.clock == s.clock && r.config == s.config && r.taken == s.taken && |r.tasks| == |s.tasks| && |r.endpoints| == |s.endpoints|
  }

  /** The tasks in `l`, and only they, were appended to the ready queue, in that order,
      and each left a Ready event. */
  predicate Woke(s: State, r: State, l: seq<nat>) {
    r.ready == s.ready + l && r.history == s.history + ReadyEvents(l)
  }

  lemma WokeTwice(s: State, m: State, r: State, l: seq<nat>, l': seq<nat>)
    requires Woke(s, m, l) && Woke(m, r, l')
    ensures Woke(s, r, l + l')
  {
    assert ReadyEvents(l + l') == ReadyEvents(l) + ReadyEvents(l');
    assert s.ready + l + l' == s.ready + (l + l');
  }

  // ---------------------------------------------------------------------------
  // Closing an endpoint
  // ---------------------------------------------------------------------------

  lemma RescueClosedForm(s: State, x: nat, dropMsg: bool)
    requires x < |s.tasks| && s.tasks[x].state == Blocked && x !in s.ready && |s.ready| < |s.tasks|
    requires s.tasks[x].id == x + 1 && (dropMsg || s.tasks[x].pendingMsg == None)
    ensures RescueClosed(s, x, dropMsg) == s.(
      tasks := s.tasks[x := Freed(s.tasks[x], IPC_ERR_ENDPOINT_CLOSED)],
      ready := s.ready + [x],
      history := s.history + [ReadyEvent(x)])
  {
    var t := s.tasks[x];
    var t' := t.(reason := None, lastReply := Some(IPC_ERR_ENDPOINT_CLOSED),
                 pendingMsg := if dropMsg then None else t.pendingMsg);
    WakeForm(SetTask(s, x, t'), x);
    SetTaskTwice(s, x, t', Woken(t'));
  }

  /** What draining relies on and keeps. */
  ghost predicate Orderly(s: State) {
    Linked(s) && TasksOk(s)
  }

  /** A waiter leaves slot `sl` and becomes ready. */
  lemma FreedOrderly(s: State, r: State, x: nat, sl: Slot, err: Word)
    requires Orderly(s) && 0 < x < |s.tasks| && sl != AtReady && Home(s.tasks[x], x) == Some(sl)
    requires r.tasks == s.tasks[x := Freed(s.tasks[x], err)] && r.ready == s.ready + [x]
    requires forall sl': Slot {:trigger Members(r, sl')} :: sl' != AtReady && sl' != sl ==> Members(r, sl') == Members(s, sl')
    requires Without(Members(s, sl), Members(r, sl), x)
    ensures Orderly(r)
  {
    Move(s, r, x, Some(sl), Some(AtReady));
    FreedTasks(s, r, x, err);
  }

  lemma FreedTasks(s: State, r: State, x: nat, err: Word)
    requires TasksOk(s) && 0 < x < |s.tasks| && s.tasks[x].state == Blocked
    requires r.tasks == s.tasks[x := Freed(s.tasks[x], err)]
    ensures TasksOk(r)
  {
  }

  /** The tasks in `l` were freed with `err`; no other task changed. */
  predicate FreedAll(s: State, r: State, l: seq<nat>, err: Word) {
    |r.tasks| == |s.tasks|
    && forall j: nat {:trigger r.tasks[j]} :: j < |s.tasks| ==>
         r.tasks[j] == if j in l then Freed(s.tasks[j], err) else s.tasks[j]
  }

  function Reversed(q: seq<nat>): (r: seq<nat>)
    ensures |r| == |q|
  {
    if q == [] then [] else [q[|q| - 1]] + Reversed(q[..|q| - 1])
  }

  lemma {:induction false} ReversedMembers(q: seq<nat>)
    ensures forall y: nat :: y in Reversed(q) <==> y in q
  {
    if q != [] {
      ReversedMembers(q[..|q| - 1]);
      assert q == q[..|q| - 1] + [q[|q| - 1]];
    }
  }

  lemma FreedMore(s: State, m: State, r: State, x: nat, l: seq<nat>, err: Word)
    requires x < |s.tasks| && x !in l && |m.tasks| == |s.tasks|
    requires m.tasks == s.tasks[x := Freed(s.tasks[x], err)] && FreedAll(m, r, l, err)
    ensures FreedAll(s, r, [x] + l, err)
  {
  }

  /** One waiter of endpoint `e` is freed and its line shortened to `ep`. */
  function Release(s: State, e: nat, ep: Endpoint, x: nat): State
    requires e < |s.endpoints| && x < |s.tasks|
  {
    s.(tasks := s.tasks[x := Freed(s.tasks[x], IPC_ERR_ENDPOINT_CLOSED)],
       ready := s.ready + [x],
       endpoints := s.endpoints[e := ep],
       history := s.history + [ReadyEvent(x)])
  }

  /** Freeing `x` and then, in a state that only lacks `x`, the tasks of `l`. */
  lemma ReleaseThen(s: State, e: nat, ep: Endpoint, x: nat, r: State, l: seq<nat>)
    requires e < |s.endpoints| && x < |s.tasks| && x !in l
    requires var m := Release(s, e, ep, x);
      Apart(m, r) && Woke(m, r, l) && FreedAll(m, r, l, IPC_ERR_ENDPOINT_CLOSED)
    ensures Apart(s, r) && Woke(s, r, [x] + l) && FreedAll(s, r, [x] + l, IPC_ERR_ENDPOINT_CLOSED)
  {
    var m := Release(s, e, ep, x);
    assert ReadyEvents([x]) == [ReadyEvent(x)];
    WokeTwice(s, m, r, [x], l);
    FreedMore(s, m, r, x, l, IPC_ERR_ENDPOINT_CLOSED);
  }

  lemma ReleaseForm(s: State, e: nat, ep: Endpoint, x: nat, sl: Slot, dropMsg: bool)
    requires Orderly(s) && e < |s.endpoints| && sl != AtReady && x in Members(s, sl)
    requires dropMsg <==> sl.AtSend?
    ensures 0 < x < |s.tasks| && s.tasks[x].state == Blocked && Home(s.tasks[x], x) == Some(sl)
    ensures RescueClosed(SetEp(s, e, ep), x, dropMsg) == Release(s, e, ep, x)
  {
    assert x !in Members(s, AtReady);
    Room(s, AtReady, x);
    RescueClosedForm(SetEp(s, e, ep), x, dropMsg);
  }

  lemma SenderReleased(s: State, e: nat)
    requires Orderly(s) && e < |s.endpoints| && s.endpoints[e].senders != []
    ensures var ep := s.endpoints[e];
      var x := ep.senders[|ep.senders| - 1];
      var ep' := ep.(senders := ep.senders[..|ep.senders| - 1]);
      && x < |s.tasks| && x !in ep'.senders
      && RescueClosed(SetEp(s, e, ep'), x, true) == Release(s, e, ep', x)
      && Orderly(Release(s, e, ep', x))
  {
    var ep := s.endpoints[e];
    var x := ep.senders[|ep.senders| - 1];
    var ep' := ep.(senders := ep.senders[..|ep.senders| - 1]);
    assert x in Members(s, AtSend(e));
    assert Distinct(Members(s, AtSend(e)));
    ReleaseForm(s, e, ep', x, AtSend(e), true);
    WithoutLast(ep.senders);
    FreedOrderly(s, Release(s, e, ep', x), x, AtSend(e), IPC_ERR_ENDPOINT_CLOSED);
  }

  lemma ReplierReleased(s: State, e: nat)
    requires Orderly(s) && e < |s.endpoints| && s.endpoints[e].repliers != []
    ensures var ep := s.endpoints[e];
      var x := ep.repliers[|ep.repliers| - 1];
      var ep' := ep.(repliers := ep.repliers[..|ep.repliers| - 1]);
      && x < |s.tasks| && x !in ep'.repliers
      && RescueClosed(SetEp(s, e, ep'), x, false) == Release(s, e, ep', x)
      && Orderly(Release(s, e, ep', x))
  {
    var ep := s.endpoints[e];
    var x := ep.repliers[|ep.repliers| - 1];
    var ep' := ep.(repliers := ep.repliers[..|ep.repliers| - 1]);
    assert x in Members(s, AtReply(e));
    assert Distinct(Members(s, AtReply(e)));
    ReleaseForm(s, e, ep', x, AtReply(e), false);
    WithoutLast(ep.repliers);
    FreedOrderly(s, Release(s, e, ep', x), x, AtReply(e), IPC_ERR_ENDPOINT_CLOSED);
  }

  lemma ReceiverReleased(s: State, e: nat)
    requires Orderly(s) && e < |s.endpoints| && s.endpoints[e].receiver.Some?
    ensures var x := s.endpoints[e].receiver.value;
      var ep' := s.endpoints[e].(receiver := None);
      && x < |s.tasks| && DrainReceiver(s, e) == Release(s, e, ep', x) && Orderly(Release(s, e, ep', x))
  {
    var x := s.endpoints[e].receiver.value;
    var ep' := s.endpoints[e].(receiver := None);
    assert x in Members(s, AtRecv(e));
    ReleaseForm(s, e, ep', x, AtRecv(e), false);
    FreedOrderly(s, Release(s, e, ep', x), x, AtRecv(e), IPC_ERR_ENDPOINT_CLOSED);
  }

  /** What a drain that frees the tasks of `l` and leaves endpoint `e` as `ep` achieves. */
  ghost predicate Drained(s: State, r: State, e: nat, ep: Endpoint, l: seq<nat>) {
    && e < |s.endpoints| && Orderly(r) && Apart(s, r) && Woke(s, r, l) && FreedAll(s, r, l, IPC_ERR_ENDPOINT_CLOSED)
    && r.endpoints == s.endpoints[e := ep]
  }

  lemma DrainedNothing(s: State, e: nat)
    requires Orderly(s) && e < |s.endpoints|
    ensures Drained(s, s, e, s.endpoints[e], [])
  {
    assert s.endpoints[e := s.endpoints[e]] == s.endpoints;
    assert s.ready + [] == s.ready && s.history + ReadyEvents([]) == s.history;
  }

  lemma DrainedMore(s: State, e: nat, ep: Endpoint, x: nat, r: State, ep': Endpoint, l: seq<nat>)
    requires e < |s.endpoints| && x < |s.tasks| && x !in l
    requires Drained(Release(s, e, ep, x), r, e, ep', l)
    ensures Drained(s, r, e, ep', [x] + l)
  {
    ReleaseThen(s, e, ep, x, r, l);
    assert s.endpoints[e := ep][e := ep'] == s.endpoints[e := ep'];
  }

  lemma {:induction false} DrainSendersForm(s: State, e: nat)
    requires Orderly(s) && e < |s.endpoints|
    ensures Drained(s, DrainSenders(s, e), e, s.endpoints[e].(senders := []), Reversed(s.endpoints[e].senders))
    decreases |s.endpoints[e].senders|
  {
    var ep := s.endpoints[e];
    if ep.senders == [] {
      DrainedNothing(s, e);
    } else {
      var init := ep.senders[..|ep.senders| - 1];
      var x := ep.senders[|ep.senders| - 1];
      SenderReleased(s, e);
      var m := Release(s, e, ep.(senders := init), x);
      DrainSendersForm(m, e);
      ReversedMembers(init);
      DrainedMore(s, e, ep.(senders := init), x, DrainSenders(m, e), ep.(senders := []), Reversed(init));
    }
  }

  lemma {:induction false} DrainRepliersForm(s: State, e: nat)
    requires Orderly(s) && e < |s.endpoints|
    ensures Drained(s, DrainRepliers(s, e), e, s.endpoints[e].(repliers := []), Reversed(s.endpoints[e].repliers))
    decreases |s.endpoints[e].repliers|
  {
    var ep := s.endpoints[e];
    if ep.repliers == [] {
      DrainedNothing(s, e);
    } else {
      var init := ep.repliers[..|ep.repliers| - 1];
      var x := ep.repliers[|ep.repliers| - 1];
      ReplierReleased(s, e);
      var m := Release(s, e, ep.(repliers := init), x);
      DrainRepliersForm(m, e);
      ReversedMembers(init);
      DrainedMore(s, e, ep.(repliers := init), x, DrainRepliers(m, e), ep.(repliers := []), Reversed(init));
    }
  }

  lemma DrainReceiverForm(s: State, e: nat)
    requires Orderly(s) && e < |s.endpoints|
    ensures Drained(s, DrainReceiver(s, e), e, s.endpoints[e].(receiver := None), Members(s, AtRecv(e)))
  {
    DrainedNothing(s, e);
    if s.endpoints[e].receiver.Some? {
      ReceiverReleased(s, e);
      var x := s.endpoints[e].receiver.value;
      var m := Release(s, e, s.endpoints[e].(receiver := None), x);
      DrainedNothing(m, e);
      DrainedMore(s, e, s.endpoints[e].(receiver := None), x, m, m.endpoints[e], []);
      assert [x] + [] == Members(s, AtRecv(e));
    }
  }

  /** Everybody who waits at endpoint `e`, in the order in which closing it frees them. */
  function Waiters(ep: Endpoint): seq<nat> {
    (if ep.receiver.Some? then [ep.receiver.value] else []) + Reversed(ep.senders) + Reversed(ep.repliers)
  }

  function Emptied(ep: Endpoint): Endpoint {
    ep.(closed := true, receiver := None, senders := [], repliers := [])
  }

  lemma DrainedTwice(s: State, m: State, r: State, e: nat, ep: Endpoint, ep': Endpoint, l: seq<nat>, l': seq<nat>)
    requires Drained(s, m, e, ep, l) && Drained(m, r, e, ep', l')
    requires forall x: nat :: x in l ==> x !in l'
    ensures Drained(s, r, e, ep', l + l')
  {
    WokeTwice(s, m, r, l, l');
    assert s.endpoints[e := ep][e := ep'] == s.endpoints[e := ep'];
  }

  lemma WaitersApart(s: State, e: nat)
    requires Forward(s) && e < |s.endpoints|
    ensures forall x: nat :: x in Members(s, AtRecv(e)) ==> x !in s.endpoints[e].senders && x !in s.endpoints[e].repliers
    ensures forall x: nat :: x in s.endpoints[e].senders ==> x !in s.endpoints[e].repliers
  {
    forall x: nat | x in Members(s, AtRecv(e)) ensures x !in s.endpoints[e].senders && x !in s.endpoints[e].repliers {
      assert x !in Members(s, AtSend(e)) && x !in Members(s, AtReply(e));
    }
    forall x: nat | x in s.endpoints[e].senders ensures x !in s.endpoints[e].repliers {
      assert x in Members(s, AtSend(e));
      assert x !in Members(s, AtReply(e));
    }
  }

  lemma DrainForm(s: State, e: nat)
    requires Orderly(s) && e < |s.endpoints|
    ensures var ep := s.endpoints[e];
      Drained(s, DrainRepliers(DrainSenders(DrainReceiver(s, e), e), e), e,
              ep.(receiver := None, senders := [], repliers := []), Waiters(ep))
  {
    var ep := s.endpoints[e];
    WaitersApart(s, e);
    DrainReceiverForm(s, e);
    var s1 := DrainReceiver(s, e);
    DrainSendersForm(s1, e);
    var s2 := DrainSenders(s1, e);
    DrainRepliersForm(s2, e);
    var s3 := DrainRepliers(s2, e);
    ReversedMembers(ep.senders);
    ReversedMembers(ep.repliers);
    var a := Members(s, AtRecv(e));
    DrainedTwice(s, s1, s2, e, s1.endpoints[e], s2.endpoints[e], a, Reversed(ep.senders));
    DrainedTwice(s, s2, s3, e, s2.endpoints[e], s3.endpoints[e], a + Reversed(ep.senders), Reversed(ep.repliers));
  }

  lemma CloseForm(s: State, e: nat)
    requires Orderly(s) && e < |s.endpoints| && !s.endpoints[e].closed
    ensures Drained(s, CloseEndpoint(s, e), e, Emptied(s.endpoints[e]), Waiters(s.endpoints[e]))
  {
    var ep := s.endpoints[e];
    var s0 := SetEp(s, e, ep.(closed := true));
    forall sl: Slot ensures Members(s0, sl) == Members(s, sl) {}
    Relabel(s, s0);
    DrainForm(s0, e);
    assert s0.endpoints[e := Emptied(ep)] == s.endpoints[e := Emptied(ep)];
  }

  // ---------------------------------------------------------------------------
  // Closing what the dead task owned
  // ---------------------------------------------------------------------------

  /** The waiters freed by closing, from endpoint `e` on, what `dead` owns. */
  function OwnedWaiters(eps: seq<Endpoint>, dead: TaskId, e: nat): seq<nat>
    decreases |eps| - e
  {
    if e >= |eps| then []
    else (if eps[e].owner == Some(dead) then Waiters(eps[e]) else []) + OwnedWaiters(eps, dead, e + 1)
  }

  lemma {:induction false} OwnedWaitersFrom(eps: seq<Endpoint>, eps': seq<Endpoint>, dead: TaskId, e: nat)
    requires |eps| == |eps'| && forall f :: e <= f < |eps| ==> eps[f] == eps'[f]
    ensures OwnedWaiters(eps, dead, e) == OwnedWaiters(eps', dead, e)
    decreases |eps| - e
  {
    if e < |eps| { OwnedWaitersFrom(eps, eps', dead, e + 1); }
  }

  /** From endpoint `e` on, `j` waits at an endpoint that `dead` owns. */
  predicate WaitsAtOwned(eps: seq<Endpoint>, dead: TaskId, e: nat, j: nat) {
    exists f :: e <= f < |eps| && eps[f].owner == Some(dead) && j in Waiters(eps[f])
  }

  lemma {:induction false} OwnedWaitersMembers(eps: seq<Endpoint>, dead: TaskId, e: nat, j: nat)
    ensures j in OwnedWaiters(eps, dead, e) <==> WaitsAtOwned(eps, dead, e, j)
    decreases |eps| - e
  {
    if e < |eps| {
      OwnedWaitersMembers(eps, dead, e + 1, j);
      var here := eps[e].owner == Some(dead) && j in Waiters(eps[e]);
      assert WaitsAtOwned(eps, dead, e, j) <==> here || WaitsAtOwned(eps, dead, e + 1, j);
    }
  }

  /** Waiting at an endpoint is being in one of its three slots. */
  lemma WaitersAreMembers(s: State, e: nat, j: nat)
    requires e < |s.endpoints|
    ensures j in Waiters(s.endpoints[e]) <==>
      j in Members(s, AtRecv(e)) || j in Members(s, AtSend(e)) || j in Members(s, AtReply(e))
  {
    ReversedMembers(s.endpoints[e].senders);
    ReversedMembers(s.endpoints[e].repliers);
  }

  function ClosedFor(ep: Endpoint, dead: TaskId): Endpoint {
    if ep.owner == Some(dead) then Emptied(ep) else ep
  }

  /** What closing the endpoints of `dead` from `e` on achieves. */
  ghost predicate ClosedAll(s: State, r: State, dead: TaskId, e: nat) {
    var l := OwnedWaiters(s.endpoints, dead, e);
    && Orderly(r) && Apart(s, r) && Woke(s, r, l) && FreedAll(s, r, l, IPC_ERR_ENDPOINT_CLOSED)
    && (forall f: nat {:trigger r.endpoints[f]} :: f < |s.endpoints| ==>
          r.endpoints[f] == if e <= f then ClosedFor(s.endpoints[f], dead) else s.endpoints[f])
  }

  lemma AlreadyClosed(ep: Endpoint)
    requires EndpointOk(ep) && ep.closed
    ensures Emptied(ep) == ep && Waiters(ep) == []
  {
  }

  lemma ClosedStep(s: State, m: State, r: State, dead: TaskId, e: nat)
    requires e < |s.endpoints| && s.endpoints[e].owner == Some(dead) && Forward(s)
    requires Drained(s, m, e, Emptied(s.endpoints[e]), Waiters(s.endpoints[e])) && ClosedAll(m, r, dead, e + 1)
    ensures ClosedAll(s, r, dead, e)
  {
    var l := Waiters(s.endpoints[e]);
    var l' := OwnedWaiters(m.endpoints, dead, e + 1);
    OwnedWaitersFrom(s.endpoints, m.endpoints, dead, e + 1);
    WokeTwice(s, m, r, l, l');
    forall x: nat | x in l ensures x !in l' {
      NotAtLaterOwned(s, dead, e, x);
    }
  }

  lemma NotAtLaterOwned(s: State, dead: TaskId, e: nat, x: nat)
    requires Forward(s) && e < |s.endpoints| && x in Waiters(s.endpoints[e])
    ensures x !in OwnedWaiters(s.endpoints, dead, e + 1)
  {
    OwnedWaitersMembers(s.endpoints, dead, e + 1, x);
    WaitersAreMembers(s, e, x);
    forall f | e + 1 <= f < |s.endpoints| ensures x !in Waiters(s.endpoints[f]) {
      WaitersAreMembers(s, f, x);
      assert x !in Members(s, AtRecv(f)) && x !in Members(s, AtSend(f)) && x !in Members(s, AtReply(f));
    }
  }

  lemma {:induction false} CloseOwnedForm(s: State, dead: TaskId, e: nat)
    requires Orderly(s) && EndpointsOk(s)
    ensures ClosedAll(s, CloseOwned(s, dead, e), dead, e)
    decreases |s.endpoints| - e
  {
    if e >= |s.endpoints| {
      assert s.ready + [] == s.ready && s.history + ReadyEvents([]) == s.history;
    } else if s.endpoints[e].owner != Some(dead) {
      CloseOwnedForm(s, dead, e + 1);
      assert [] + OwnedWaiters(s.endpoints, dead, e + 1) == OwnedWaiters(s.endpoints, dead, e + 1);
    } else {
      var m := CloseEndpoint(s, e);
      if s.endpoints[e].closed {
        AlreadyClosed(s.endpoints[e]);
        DrainedNothing(s, e);
      } else {
        CloseForm(s, e);
      }
      assert Drained(s, m, e, Emptied(s.endpoints[e]), Waiters(s.endpoints[e]));
      CloseOwnedForm(m, dead, e + 1);
      ClosedStep(s, m, CloseOwned(m, dead, e + 1), dead, e);
    }
  }

  // ---------------------------------------------------------------------------
  // Waking the reply waiters of the dead task
  // ---------------------------------------------------------------------------

  /** The tasks in `l` went to limbo; no other task changed. */
  predicate LimboAll(s: State, r: State, l: seq<nat>) {
    |r.tasks| == |s.tasks|
    && forall j: nat {:trigger r.tasks[j]} :: j < |s.tasks| ==>
         r.tasks[j] == if j in l then Limbo(s.tasks[j]) else s.tasks[j]
  }

  /** The wake list so far: distinct tasks in limbo, the dead task `k` not among them. */
  predicate WakeListOk(s: State, wakes: seq<nat>, k: nat) {
    && Distinct(wakes) && k < |s.tasks| && k !in wakes
    && forall x: nat :: x in wakes ==> x < |s.tasks| && s.tasks[x].state == Blocked && s.tasks[x].reason == None
  }

  /** What resolving one line achieves: its orphans, and only they, join the wake list. */
  ghost predicate LineResolved(s: State, r: State, dead: TaskId, e: nat, wakes: seq<nat>, w: seq<nat>, k: nat) {
    && e < |s.endpoints| && |r.endpoints| == |s.endpoints| && Linked(r) && wakes <= w && WakeListOk(r, w, k)
    && LimboAll(s, r, w[|wakes|..])
    && (forall x: nat :: x in w[|wakes|..] <==> x in s.endpoints[e].repliers && Orphan(s, x, dead, e))
    && r == s.(tasks := r.tasks, endpoints := s.endpoints[e := s.endpoints[e].(repliers := r.endpoints[e].repliers)])
    && (forall y: nat :: y in r.endpoints[e].repliers <==> y in s.endpoints[e].repliers && !Orphan(s, y, dead, e))
    && (|r.endpoints[e].repliers| == |s.endpoints[e].repliers| ==> r.endpoints == s.endpoints)
    && |r.endpoints[e].repliers| <= |s.endpoints[e].repliers|
  }

  lemma OrphanedLinks(s: State, e: nat, pos: nat)
    requires Linked(s) && e < |s.endpoints| && pos < |s.endpoints[e].repliers|
    ensures s.endpoints[e].repliers[pos] < |s.tasks| && Linked(FreeOrphan(s, e, pos))
  {
    var x := s.endpoints[e].repliers[pos];
    assert x in Members(s, AtReply(e));
    assert Distinct(Members(s, AtReply(e)));
    SwapRemoveMembers(s.endpoints[e].repliers, pos);
    Move(s, FreeOrphan(s, e, pos), x, Some(AtReply(e)), None);
  }

  lemma OrphanedList(s: State, dead: TaskId, e: nat, pos: nat, wakes: seq<nat>, k: nat)
    requires e < |s.endpoints| && pos < |s.endpoints[e].repliers| && WakeListOk(s, wakes, k)
    requires Orphan(s, s.endpoints[e].repliers[pos], dead, e) && s.tasks[k].state != Blocked
    ensures |wakes| < |s.tasks|
    ensures WakeListOk(FreeOrphan(s, e, pos), wakes + [s.endpoints[e].repliers[pos]], k)
  {
    Pigeonhole(wakes, |s.tasks|, k);
  }

  lemma LineStep(s: State, r: State, dead: TaskId, e: nat, pos: nat, wakes: seq<nat>, w: seq<nat>, k: nat)
    requires e < |s.endpoints| && pos < |s.endpoints[e].repliers| && Distinct(s.endpoints[e].repliers)
    requires Orphan(s, s.endpoints[e].repliers[pos], dead, e)
    requires LineResolved(FreeOrphan(s, e, pos), r, dead, e, wakes + [s.endpoints[e].repliers[pos]], w, k)
    ensures LineResolved(s, r, dead, e, wakes, w, k)
  {
    var x := s.endpoints[e].repliers[pos];
    var m := FreeOrphan(s, e, pos);
    var l := w[|wakes| + 1..];
    SwapRemoveMembers(s.endpoints[e].repliers, pos);
    assert w[|wakes|] == x;
    assert w[|wakes|..] == [x] + l;
    assert forall y: nat :: y != x ==> (Orphan(m, y, dead, e) <==> Orphan(s, y, dead, e));
    assert x !in l;
    assert wakes <= w by { assert wakes <= wakes + [x]; }
    assert s.endpoints[e := m.endpoints[e]][e := r.endpoints[e]] == s.endpoints[e := r.endpoints[e]];
  }

  lemma {:induction false} ResolveLineForm(s: State, dead: TaskId, e: nat, pos: nat, wakes: seq<nat>, k: nat)
    requires Linked(s) && e < |s.endpoints| && WakeListOk(s, wakes, k) && s.tasks[k].state != Blocked
    requires forall p :: 0 <= p < pos && p < |s.endpoints[e].repliers| ==> !Orphan(s, s.endpoints[e].repliers[p], dead, e)
    ensures var (r, w) := ResolveLine(s, dead, e, pos, wakes);
      LineResolved(s, r, dead, e, wakes, w, k)
    decreases |s.endpoints[e].repliers| - pos
  {
    var ep := s.endpoints[e];
    if pos >= |ep.repliers| {
      assert s.endpoints[e := ep] == s.endpoints;
      assert wakes[|wakes|..] == [];
    } else if Orphan(s, ep.repliers[pos], dead, e) {
      OrphanedLinks(s, e, pos);
      OrphanedList(s, dead, e, pos, wakes, k);
      assert Distinct(Members(s, AtReply(e)));
      var m := FreeOrphan(s, e, pos);
      var w' := wakes + [ep.repliers[pos]];
      ResolveLineForm(m, dead, e, pos, w', k);
      var (r, w) := ResolveLine(m, dead, e, pos, w');
      assert ResolveLine(s, dead, e, pos, wakes) == (r, w);
      LineStep(s, r, dead, e, pos, wakes, w, k);
    } else {
      ResolveLineForm(s, dead, e, pos + 1, wakes, k);
    }
  }

  /** In a reply line from endpoint `e` on, `x` awaits the dead task. */
  predicate OrphanFrom(s: State, x: nat, dead: TaskId, e: nat) {
    && x < |s.tasks| && s.tasks[x].reason.Some? && s.tasks[x].reason.value.IpcReply?
    && var f := s.tasks[x].reason.value.ep;
       e <= f < |s.endpoints| && x in s.endpoints[f].repliers && Orphan(s, x, dead, f)
  }

  /** A line after resolution: no orphans left, nothing else lost. */
  ghost predicate LineKept(s: State, ep: Endpoint, ep': Endpoint, dead: TaskId, f: nat) {
    && ep' == ep.(repliers := ep'.repliers)
    && (forall y: nat :: y in ep'.repliers <==> y in ep.repliers && !Orphan(s, y, dead, f))
    && (ep' == ep || |ep'.repliers| < |ep.repliers|)
  }

  /** What resolving the lines from endpoint `e` on achieves. */
  ghost predicate Resolved(s: State, r: State, dead: TaskId, e: nat, wakes: seq<nat>, w: seq<nat>, k: nat) {
    && Linked(r) && wakes <= w && WakeListOk(r, w, k) && |r.endpoints| == |s.endpoints|
    && LimboAll(s, r, w[|wakes|..])
    && (forall x: nat :: x in w[|wakes|..] <==> OrphanFrom(s, x, dead, e))
    && r == s.(tasks := r.tasks, endpoints := r.endpoints)
    && (forall f: nat {:trigger r.endpoints[f]} :: f < |s.endpoints| ==>
          if e <= f then LineKept(s, s.endpoints[f], r.endpoints[f], dead, f) else r.endpoints[f] == s.endpoints[f])
  }

  lemma ResolvedStep(s: State, m: State, r: State, dead: TaskId, e: nat,
                     wakes: seq<nat>, v: seq<nat>, w: seq<nat>, k: nat)
    requires Linked(s) && LineResolved(s, m, dead, e, wakes, v, k) && Resolved(m, r, dead, e + 1, v, w, k)
    ensures Resolved(s, r, dead, e, wakes, w, k)
  {
    var a := v[|wakes|..];
    var b := w[|v|..];
    assert wakes <= w && w[|wakes|..] == a + b;
    LinesDisjoint(s, e);
    forall x: nat ensures (x in a + b <==> OrphanFrom(s, x, dead, e)) && !(x in a && x in b) {
      ResolvedWakes(s, m, dead, e, a, b, x);
    }
    LimboChain(s, m, r, a, b);
    OrphansKept(s, m, dead, a);
    ResolvedLines(s, m, r, dead, e, wakes, v);
  }

  lemma LimboChain(s: State, m: State, r: State, a: seq<nat>, b: seq<nat>)
    requires LimboAll(s, m, a) && LimboAll(m, r, b) && forall x: nat {:trigger x in a} :: !(x in a && x in b)
    ensures LimboAll(s, r, a + b)
  {
    forall j: nat | j < |s.tasks| ensures r.tasks[j] == if j in a + b then Limbo(s.tasks[j]) else s.tasks[j] {
      assert r.tasks[j] == if j in b then Limbo(m.tasks[j]) else m.tasks[j];
    }
  }

  /** Who is not in limbo awaits whom it awaited. */
  lemma OrphansKept(s: State, m: State, dead: TaskId, a: seq<nat>)
    requires LimboAll(s, m, a)
    ensures forall x: nat, f: nat :: x !in a ==> (Orphan(m, x, dead, f) <==> Orphan(s, x, dead, f))
  {
  }

  /** The wake list: the orphans of this line and of the later ones, nobody twice. */
  lemma ResolvedWakes(s: State, m: State, dead: TaskId, e: nat, a: seq<nat>, b: seq<nat>, x: nat)
    requires e < |s.endpoints| == |m.endpoints| && LimboAll(s, m, a) && m.endpoints == s.endpoints[e := m.endpoints[e]]
    requires forall f: nat, y: nat {:trigger y in s.endpoints[f].repliers} ::
      f < |s.endpoints| && f != e && y in s.endpoints[f].repliers ==> y !in s.endpoints[e].repliers
    requires x in a <==> x in s.endpoints[e].repliers && Orphan(s, x, dead, e)
    requires x in b <==> OrphanFrom(m, x, dead, e + 1)
    ensures (x in a + b <==> OrphanFrom(s, x, dead, e)) && !(x in a && x in b)
  {
    if x < |s.tasks| { assert m.tasks[x] == if x in a then Limbo(s.tasks[x]) else s.tasks[x]; }
  }

  /** Nobody stands in two reply lines. */
  lemma LinesDisjoint(s: State, e: nat)
    requires Linked(s) && e < |s.endpoints|
    ensures forall f: nat, x: nat {:trigger x in s.endpoints[f].repliers} ::
      f < |s.endpoints| && f != e && x in s.endpoints[f].repliers ==> x !in s.endpoints[e].repliers
  {
    forall f: nat, x: nat {:trigger x in s.endpoints[f].repliers} | f < |s.endpoints| && f != e && x in s.endpoints[f].repliers
      ensures x !in s.endpoints[e].repliers
    {
      assert x in Members(s, AtReply(f));
      assert x !in Members(s, AtReply(e));
    }
  }

  lemma ResolvedLines(s: State, m: State, r: State, dead: TaskId, e: nat, wakes: seq<nat>, v: seq<nat>)
    requires e < |s.endpoints| == |m.endpoints| == |r.endpoints| && |wakes| <= |v|
    requires m.endpoints == s.endpoints[e := m.endpoints[e]] && LineKept(s, s.endpoints[e], m.endpoints[e], dead, e)
    requires forall f: nat {:trigger r.endpoints[f]} :: f < |s.endpoints| ==>
      if e + 1 <= f then LineKept(m, m.endpoints[f], r.endpoints[f], dead, f) else r.endpoints[f] == m.endpoints[f]
    requires forall f: nat, x: nat {:trigger x in s.endpoints[f].repliers} ::
      f < |s.endpoints| && f != e && x in s.endpoints[f].repliers ==> x !in s.endpoints[e].repliers
    requires forall x: nat :: x in v[|wakes|..] ==> x in s.endpoints[e].repliers
    requires forall x: nat, f: nat :: x !in v[|wakes|..] ==> (Orphan(m, x, dead, f) <==> Orphan(s, x, dead, f))
    ensures forall f: nat {:trigger r.endpoints[f]} :: f < |s.endpoints| ==>
      if e <= f then LineKept(s, s.endpoints[f], r.endpoints[f], dead, f) else r.endpoints[f] == s.endpoints[f]
  {
  }

  lemma {:induction false} ResolveFromForm(s: State, dead: TaskId, e: nat, wakes: seq<nat>, k: nat)
    requires Linked(s) && WakeListOk(s, wakes, k) && s.tasks[k].state != Blocked
    ensures var (r, w) := ResolveFrom(s, dead, e, wakes);
      Resolved(s, r, dead, e, wakes, w, k)
    decreases |s.endpoints| - e
  {
    if e >= |s.endpoints| {
      assert wakes[|wakes|..] == [];
    } else {
      ResolveLineForm(s, dead, e, 0, wakes, k);
      var (m, v) := ResolveLine(s, dead, e, 0, wakes);
      assert m.tasks[k].state != Blocked;
      ResolveFromForm(m, dead, e + 1, v, k);
      var (r, w) := ResolveFrom(m, dead, e + 1, v);
      ResolvedStep(s, m, r, dead, e, wakes, v, w, k);
    }
  }

  /** The tasks in `l` left limbo; no other task changed. */
  predicate WokenAll(s: State, r: State, l: seq<nat>) {
    |r.tasks| == |s.tasks|
    && forall j: nat {:trigger r.tasks[j]} :: j < |s.tasks| ==>
         r.tasks[j] == if j in l then Woken(s.tasks[j]) else s.tasks[j]
  }

  lemma WakeOne(s: State, x: nat)
    requires Linked(s) && 0 < x < |s.tasks| && s.tasks[x].state == Blocked && s.tasks[x].reason == None
    requires s.tasks[x].id == x + 1
    ensures Linked(Wake(s, x))
    ensures Wake(s, x) == s.(tasks := s.tasks[x := Woken(s.tasks[x])], ready := s.ready + [x], history := s.history + [ReadyEvent(x)])
  {
    WakeLinks(s, x);
    assert x !in Members(s, AtReady);
    Room(s, AtReady, x);
    WakeForm(s, x);
  }

  lemma WakeRest(s: State, m: State, w: seq<nat>, k: nat)
    requires WakeListOk(s, w, k) && w != [] && w[0] < |s.tasks| && (forall x: nat :: x in w ==> s.tasks[x].id == x + 1)
    requires m.tasks == s.tasks[w[0] := Woken(s.tasks[w[0]])]
    ensures WakeListOk(m, w[1..], k) && w[0] !in w[1..] && (forall x: nat :: x in w[1..] ==> m.tasks[x].id == x + 1)
  {
    assert forall y: nat :: y in w[1..] ==> y in w;
  }

  lemma {:induction false} WakeAllForm(s: State, w: seq<nat>, k: nat)
    requires Linked(s) && WakeListOk(s, w, k) && 0 !in w
    requires forall x: nat :: x in w ==> s.tasks[x].id == x + 1
    ensures var r := WakeAll(s, w);
      Linked(r) && Apart(s, r) && r.endpoints == s.endpoints && Woke(s, r, w) && WokenAll(s, r, w)
    decreases |w|
  {
    if w == [] {
      assert s.ready + [] == s.ready && s.history + ReadyEvents([]) == s.history;
    } else {
      var x := w[0];
      assert x in w;
      WakeOne(s, x);
      var m := Wake(s, x);
      WakeRest(s, m, w, k);
      WakeAllForm(m, w[1..], k);
      assert ReadyEvents([x]) == [ReadyEvent(x)];
      assert [x] + w[1..] == w;
      WokeTwice(s, m, WakeAll(m, w[1..]), [x], w[1..]);
    }
  }

  // ---------------------------------------------------------------------------
  // The dead task leaves every queue
  // ---------------------------------------------------------------------------

  lemma PurgedLine(q: seq<nat>, i: nat)
    requires Distinct(q)
    ensures Without(q, SwapPurge(q, i, 0), i) && Without(q, RemoveAll(q, i), i)
    ensures i !in q ==> SwapPurge(q, i, 0) == q && RemoveAll(q, i) == q
  {
    RemoveAllMembers(q, i);
    SwapPurgeMembers(q, i, 0);
    if i !in q {
      RemoveAllAbsent(q, i);
      SwapPurgeAbsent(q, i, 0);
    }
  }

  lemma PurgedSlot(s: State, i: nat, sl: Slot)
    requires Distinct(Members(s, sl)) && i < |s.tasks|
    ensures Without(Members(s, sl), Members(Bury(s, i), sl), i)
    ensures i !in Members(s, sl) ==> Members(Bury(s, i), sl) == Members(s, sl)
  {
    PurgedLine(Members(s, sl), i);
    BuriedSlot(s, i, sl);
  }

  lemma BuriedSlot(s: State, i: nat, sl: Slot)
    requires i < |s.tasks|
    ensures Members(Bury(s, i), sl) ==
      match sl
      case AtReady => RemoveAll(s.ready, i)
      case AtRecv(e) => if e < |s.endpoints| && s.endpoints[e].receiver == Some(i) then [] else Members(s, sl)
      case AtSend(e) => if e < |s.endpoints| then SwapPurge(Members(s, sl), i, 0) else []
      case AtReply(e) => if e < |s.endpoints| then SwapPurge(Members(s, sl), i, 0) else []
  {
  }

  lemma PurgedSlots(s: State, i: nat)
    requires NoRepeats(s) && i < |s.tasks|
    ensures forall sl: Slot {:trigger Members(Bury(s, i), sl)} ::
      && Without(Members(s, sl), Members(Bury(s, i), sl), i)
      && (i !in Members(s, sl) ==> Members(Bury(s, i), sl) == Members(s, sl))
  {
    var b := Bury(s, i);
    forall sl: Slot
      ensures Without(Members(s, sl), Members(b, sl), i) && (i !in Members(s, sl) ==> Members(b, sl) == Members(s, sl))
    {
      assert Distinct(Members(s, sl));
      PurgedSlot(s, i, sl);
    }
  }

  lemma BuryLinks(s: State, i: nat)
    requires Linked(s) && i < |s.tasks|
    ensures Linked(Bury(s, i))
  {
    var b := Bury(s, i);
    PurgedSlots(s, i);
    var a := Home(s.tasks[i], i);
    forall sl: Slot ensures !At(a, sl) ==> Members(b, sl) == Members(s, sl) {
      assert i in Members(s, sl) ==> At(a, sl);
    }
    if a.Some? { Move(s, b, i, a, None); } else { Relabel(s, b); }
  }

  /** Whoever is in a reply line waits for a live task, or for the one being buried. */
  ghost predicate PartnersBut(s: State, dead: TaskId) {
    forall e: nat, x: nat {:trigger x in Members(s, AtReply(e))} ::
      x in Members(s, AtReply(e)) ==>
        x < |s.tasks| && (PartnerLives(s, s.tasks[x]) || s.tasks[x].reason == Some(IpcReply(dead, e)))
  }

  lemma BuryPartners(s: State, i: nat)
    requires Linked(s) && LivePartners(s) && i < |s.tasks|
    ensures PartnersBut(Bury(s, i), i + 1)
  {
    var b := Bury(s, i);
    PurgedSlots(s, i);
    forall e: nat, x: nat {:trigger x in Members(b, AtReply(e))} | x in Members(b, AtReply(e))
      ensures x < |b.tasks| && (PartnerLives(b, b.tasks[x]) || b.tasks[x].reason == Some(IpcReply(i + 1, e)))
    {
      assert x in Members(s, AtReply(e)) && x != i;
      assert b.tasks[x] == s.tasks[x] && PartnerLives(s, s.tasks[x]);
    }
  }

  lemma BuryTasks(s: State, i: nat)
    requires TasksOk(s) && OneRunning(s) && 0 < i < |s.tasks|
    ensures TasksOk(Bury(s, i)) && OneRunning(Bury(s, i))
  {
  }

  lemma BuryEndpoints(s: State, i: nat)
    requires EndpointsOk(s) && i < |s.tasks|
    ensures EndpointsOk(Bury(s, i))
  {
    var b := Bury(s, i);
    forall e: nat | e < |b.endpoints| ensures EndpointOk(b.endpoints[e]) {
      assert b.endpoints[e] == PurgeEndpoint(s.endpoints[e], i);
      assert SwapPurge([], i, 0) == [];
    }
  }

  // ---------------------------------------------------------------------------
  // kill_task as a whole
  // ---------------------------------------------------------------------------

  /** Task `j` waits in the slot that its blocked reason names. */
  predicate Waiting(s: State, j: nat) {
    j < |s.tasks| && s.tasks[j].state == Blocked && s.tasks[j].reason.Some?
    && s.tasks[j].reason.value.ep < |s.endpoints| && j in Members(s, ReasonSlot(s.tasks[j].reason.value))
  }

  /** Task `j` waits at an endpoint that task `i` owns. */
  predicate ClosedOut(s: State, i: nat, j: nat) {
    j != i && Waiting(s, j) && s.endpoints[s.tasks[j].reason.value.ep].owner == Some(i + 1)
  }

  /** Task `j` awaits a reply from task `i` at an endpoint that `i` does not own. */
  predicate Bereaved(s: State, i: nat, j: nat) {
    && j != i && Waiting(s, j) && s.tasks[j].reason.value.IpcReply? && s.tasks[j].reason.value.partner == i + 1
    && s.endpoints[s.tasks[j].reason.value.ep].owner != Some(i + 1)
  }

  /** What becomes of task `j` when task `i` is killed. */
  function Fate(s: State, i: nat, j: nat): Task
    requires j < |s.tasks|
  {
    if j == i then DeadTask(s.tasks[j])
    else if ClosedOut(s, i, j) then Freed(s.tasks[j], IPC_ERR_ENDPOINT_CLOSED)
    else if Bereaved(s, i, j) then Freed(s.tasks[j], IPC_ERR_DEAD_PARTNER)
    else s.tasks[j]
  }

  /** What becomes of endpoint `e` when task `i` is killed. */
  ghost predicate EndpointFate(s: State, i: nat, e: nat, ep': Endpoint)
    requires e < |s.endpoints|
  {
    var ep := s.endpoints[e];
    if ep.owner == Some(i + 1) then ep' == Emptied(ep)
    else
      && ep' == PurgeEndpoint(ep, i).(repliers := ep'.repliers)
      && (forall y: nat :: y in ep'.repliers <==> y in ep.repliers && y != i && !Bereaved(s, i, y))
      && (ep'.repliers == ep.repliers || |ep'.repliers| < |ep.repliers|)
  }

  /** kill_task up to its last two events, in four stages. */
  function Buried(s: State, i: nat, why: KillReason): State
    requires i < |s.tasks|
  {
    Bury(s.(counters := CountKill(s.counters, why)), i)
  }

  lemma BuriedOk(s: State, i: nat, why: KillReason)
    requires Settled(s) && 0 < i < |s.tasks|
    ensures var b := Buried(s, i, why);
      && Orderly(b) && OneRunning(b) && EndpointsOk(b) && PartnersBut(b, i + 1)
      && b == Bury(s, i).(counters := b.counters)
  {
    var s' := s.(counters := CountKill(s.counters, why));
    forall sl: Slot ensures Members(s', sl) == Members(s, sl) {}
    AlikeSettled(s, s');
    BuryLinks(s', i);
    BuryPartners(s', i);
    BuryTasks(s', i);
    BuryEndpoints(s', i);
  }

  /** In the buried state, a task other than the dead one is freed by closing exactly
      when it waits at an endpoint the dead task owned. */
  lemma ClosedOutWaiters(s: State, i: nat, why: KillReason, j: nat)
    requires Settled(s) && 0 < i < |s.tasks| && j < |s.tasks|
    ensures j in OwnedWaiters(Buried(s, i, why).endpoints, i + 1, 0) <==> ClosedOut(s, i, j)
  {
    var eps := Buried(s, i, why).endpoints;
    OwnedWaitersMembers(eps, i + 1, 0, j);
    forall e: nat | e < |eps| ensures j in Waiters(eps[e]) <==> j != i && WaitingAt(s, j, e) {
      BuriedWaiters(s, i, why, e, j);
    }
    assert forall e :: 0 <= e < |eps| ==> eps[e].owner == s.endpoints[e].owner;
    if ClosedOut(s, i, j) { assert WaitingAt(s, j, s.tasks[j].reason.value.ep); }
  }

  predicate WaitingAt(s: State, j: nat, e: nat) {
    Waiting(s, j) && s.tasks[j].reason.value.ep == e
  }

  lemma BuriedWaiters(s: State, i: nat, why: KillReason, e: nat, j: nat)
    requires Settled(s) && 0 < i < |s.tasks| && e < |s.endpoints|
    ensures j in Waiters(Buried(s, i, why).endpoints[e]) <==> j != i && WaitingAt(s, j, e)
  {
    WaitersAreMembers(Buried(s, i, why), e, j);
    BuriedMembers(s, i, why, e, j);
    assert j in Members(s, AtRecv(e)) ==> Home(s.tasks[j], j) == Some(AtRecv(e));
    assert j in Members(s, AtSend(e)) ==> Home(s.tasks[j], j) == Some(AtSend(e));
    assert j in Members(s, AtReply(e)) ==> Home(s.tasks[j], j) == Some(AtReply(e));
  }

  lemma BuriedMembers(s: State, i: nat, why: KillReason, e: nat, j: nat)
    requires Settled(s) && 0 < i < |s.tasks| && e < |s.endpoints|
    ensures var b := Buried(s, i, why);
      && (j in Members(b, AtRecv(e)) <==> j in Members(s, AtRecv(e)) && j != i)
      && (j in Members(b, AtSend(e)) <==> j in Members(s, AtSend(e)) && j != i)
      && (j in Members(b, AtReply(e)) <==> j in Members(s, AtReply(e)) && j != i)
  {
    PurgedSlots(s, i);
    var b := Buried(s, i, why);
    assert b.endpoints == Bury(s, i).endpoints;
    assert Members(b, AtRecv(e)) == Members(Bury(s, i), AtRecv(e));
    assert Members(b, AtSend(e)) == Members(Bury(s, i), AtSend(e));
    assert Members(b, AtReply(e)) == Members(Bury(s, i), AtReply(e));
  }
}
