/** The scheduler restores the invariant and picks a ready task of the highest priority. */
module Scheduling {
  import opened KernelTypes
  import opened KernelSpec
  import opened Counting
  import opened Slots
  import opened Invariant
  import opened Links

  lemma {:induction false} KeepReadySame(tasks: seq<Task>, q: seq<nat>)
    requires forall k :: 0 <= k < |q| ==> q[k] < |tasks| && tasks[q[k]].state == Ready
    ensures KeepReady(tasks, q) == q
  {
    if q != [] {
      KeepReadySame(tasks, q[..|q| - 1]);
      assert q == q[..|q| - 1] + [q[|q| - 1]];
    }
  }

  /** Compaction of the ready queue is the identity. */
  lemma CompactionIdle(s: State)
    requires Forward(s)
    ensures KeepReady(s.tasks, s.ready) == s.ready
  {
    forall k | 0 <= k < |s.ready| ensures s.ready[k] < |s.tasks| && s.tasks[s.ready[k]].state == Ready {
      assert s.ready[k] in Members(s, AtReady);
    }
    KeepReadySame(s.tasks, s.ready);
  }

  lemma {:induction false} BestPosWins(tasks: seq<Task>, q: seq<nat>, k: nat)
    requires 0 < k <= |q|
    requires forall j :: 0 <= j < |q| ==> q[j] < |tasks|
    ensures forall j :: 0 <= j < k ==> PriorityOf(tasks, q[j]) <= PriorityOf(tasks, q[BestPos(tasks, q, k)])
    ensures forall j :: 0 <= j < BestPos(tasks, q, k) ==>
      PriorityOf(tasks, q[j]) < PriorityOf(tasks, q[BestPos(tasks, q, k)])
  {
    if k > 1 {
      BestPosWins(tasks, q, k - 1);
    }
  }

  /** No task runs; the previous one has been put back. */
  ghost predicate Vacant(s: State) {
    && Shape(s) && s.config.quantum > 0 && Linked(s) && TasksOk(s) && EndpointsOk(s) && LivePartners(s)
    && forall i: nat {:trigger s.tasks[i]} :: i < |s.tasks| ==> s.tasks[i].state != Running
  }

  function Vacated(s: State): State
    requires Shape(s)
  {
    var s1 := s.(ready := KeepReady(s.tasks, s.ready));
    if s1.tasks[s.current].state == Running then Requeue(s1, s.current) else s1
  }

  lemma RequeueForm(s: State)
    requires Shape(s) && Linked(s) && s.tasks[s.current].state == Running && s.current != 0
    ensures Requeue(s, s.current) == s.(
      tasks := s.tasks[s.current := Woken(s.tasks[s.current])],
      ready := s.ready + [s.current],
      history := s.history + [TaskStateChanged(s.tasks[s.current].id, Ready)] + [ReadyQueued(s.tasks[s.current].id)])
  {
    NotQueued(s, s.current);
    Room(s, AtReady, s.current);
  }

  lemma VacatedLinks(s: State)
    requires Shape(s) && Linked(s)
    ensures Linked(Vacated(s)) && Vacated(s).endpoints == s.endpoints && |Vacated(s).tasks| == |s.tasks|
    ensures Vacated(s).tasks == if s.tasks[s.current].state == Running
                                then s.tasks[s.current := Woken(s.tasks[s.current])] else s.tasks
  {
    CompactionIdle(s);
    assert s.(ready := s.ready) == s;
    var r := Vacated(s);
    if s.tasks[s.current].state == Running {
      if s.current != 0 {
        RequeueForm(s);
        Move(s, r, s.current, None, Some(AtReady));
      } else {
        forall sl: Slot ensures Members(r, sl) == Members(s, sl) {}
        Relabel(s, r);
      }
    }
  }

  /** Linking depends only on the slots and the tasks' homes. */
  lemma Relabel(s: State, r: State)
    requires Linked(s) && |r.tasks| == |s.tasks|
    requires forall j: nat {:trigger r.tasks[j]} :: j < |s.tasks| ==> Home(r.tasks[j], j) == Home(s.tasks[j], j)
    requires forall sl: Slot {:trigger Members(r, sl)} :: Members(r, sl) == Members(s, sl)
    ensures Linked(r)
  {
    forall j: nat | j < |r.tasks| && NeedsSlot(r.tasks[j], j) ensures j in Members(r, Home(r.tasks[j], j).value) {
      assert NeedsSlot(s.tasks[j], j);
      assert j in Members(s, Home(s.tasks[j], j).value);
    }
    forall sl: Slot ensures Distinct(Members(r, sl)) { assert Distinct(Members(s, sl)); }
  }

  lemma VacatedOk(s: State)
    requires Settled(s)
    ensures Vacant(Vacated(s))
  {
    VacatedLinks(s);
    var r := Vacated(s);
    forall e: nat, x: nat | x in Members(r, AtReply(e))
      ensures x in Members(s, AtReply(e)) && x < |s.tasks| && r.tasks[x].reason == s.tasks[x].reason
    {
      assert x in Members(s, AtReply(e));
    }
    PartnersKept(s, r);
    VacatedTasks(s, r);
  }

  lemma VacatedTasks(s: State, r: State)
    requires Shape(s) && TasksOk(s) && OneRunning(s)
    requires r.tasks == if s.tasks[s.current].state == Running
                        then s.tasks[s.current := Woken(s.tasks[s.current])] else s.tasks
    ensures TasksOk(r)
    ensures forall i: nat {:trigger r.tasks[i]} :: i < |r.tasks| ==> r.tasks[i].state != Running
  {
  }

  /** A vacant state in which task `next` takes over. */
  ghost predicate Takes(s: State, r: State, next: nat) {
    && next < |s.tasks| && s.tasks[next].state == Ready
    && r.tasks == s.tasks[next := Dispatched(s.tasks[next])] && r.current == next && r.endpoints == s.endpoints
    && r.config == s.config
  }

  lemma TakesCore(s: State, r: State, next: nat)
    requires Vacant(s) && Takes(s, r, next) && Linked(r)
    ensures Core(r)
  {
    forall e: nat, x: nat | x in Members(r, AtReply(e))
      ensures x in Members(s, AtReply(e)) && x < |s.tasks| && r.tasks[x].reason == s.tasks[x].reason
    {
      assert x in Members(s, AtReply(e));
    }
    PartnersKept(s, r);
  }

  lemma RunIdleOk(s: State)
    requires Vacant(s)
    ensures Core(RunIdle(s)) && RunIdle(s).current == 0 && RunIdle(s).ready == s.ready
    ensures Takes(s, RunIdle(s), 0)
  {
    var r := RunIdle(s);
    assert TaskOk(s.tasks[0], 0, |s.tasks|);
    Relabel(s, r);
    TakesCore(s, r, 0);
  }

  /** The task that Dispatch picks. */
  function Choice(s: State): nat
    requires s.ready != []
  {
    s.ready[BestPos(s.tasks, s.ready, |s.ready|)]
  }

  lemma DispatchForm(s: State, prev: nat)
    requires Shape(s) && Linked(s) && s.ready != []
    ensures Choice(s) < |s.tasks| && s.tasks[Choice(s)].state == Ready && Choice(s) != 0
    ensures var t := s.tasks[Choice(s)];
      Dispatch(s, prev) == s.(
        tasks := s.tasks[Choice(s) := Dispatched(t)],
        ready := SwapRemove(s.ready, BestPos(s.tasks, s.ready, |s.ready|)),
        current := Choice(s),
        cr3 := NextCr3(s, Choice(s)),
        counters := if Choice(s) != prev then s.counters.(switches := s.counters.switches + 1) else s.counters,
        history := s.history + [ReadyDequeued(t.id)] + [TaskSwitched(t.id)] + [TaskStateChanged(t.id, Running)])
  {
    CompactionIdle(s);
    assert Choice(s) in Members(s, AtReady);
  }

  lemma DispatchLinks(s: State, r: State)
    requires Linked(s) && s.ready != [] && Choice(s) < |s.tasks| && s.tasks[Choice(s)].state == Ready && Choice(s) != 0
    requires r.tasks == s.tasks[Choice(s) := Dispatched(s.tasks[Choice(s)])]
    requires r.ready == SwapRemove(s.ready, BestPos(s.tasks, s.ready, |s.ready|)) && r.endpoints == s.endpoints
    ensures Linked(r)
  {
    assert Distinct(Members(s, AtReady));
    SwapRemoveMembers(s.ready, BestPos(s.tasks, s.ready, |s.ready|));
    Move(s, r, Choice(s), Some(AtReady), None);
  }

  lemma DispatchOk(s: State, prev: nat)
    requires Vacant(s) && s.ready != []
    ensures Core(Dispatch(s, prev)) && Dispatch(s, prev).current == Choice(s)
    ensures Takes(s, Dispatch(s, prev), Choice(s))
  {
    DispatchForm(s, prev);
    var r := Dispatch(s, prev);
    DispatchLinks(s, r);
    TakesCore(s, r, Choice(s));
  }

  /** schedule_next_task restores the invariant from every settled state, whether the
      current task still runs, has just blocked, or has just died. */
  lemma ScheduleOk(s: State)
    requires Settled(s)
    ensures Core(Schedule(s))
  {
    VacatedOk(s);
    var v := Vacated(s);
    if v.ready == [] { RunIdleOk(v); } else { DispatchOk(v, s.current); }
  }

  lemma ChoiceBest(s: State, u: nat)
    requires Linked(s) && 0 < u < |s.tasks| && s.tasks[u].state == Ready
    ensures s.ready != [] && Choice(s) < |s.tasks| && Choice(s) != 0
    ensures s.tasks[u].priority <= s.tasks[Choice(s)].priority
  {
    assert NeedsSlot(s.tasks[u], u);
    assert u in Members(s, AtReady);
    forall j | 0 <= j < |s.ready| ensures s.ready[j] < |s.tasks| && s.ready[j] != 0 {
      assert s.ready[j] in Members(s, AtReady);
    }
    BestPosWins(s.tasks, s.ready, |s.ready|);
  }

  /** It picks a ready task of the highest priority, and the idle task only when no
      user task is ready. */
  lemma SchedulePicksBest(s: State, u: nat)
    requires Settled(s) && 0 < u < |s.tasks|
    requires s.tasks[u].state == Ready || (s.tasks[u].state == Running && u == s.current)
    ensures Schedule(s).current != 0
    ensures s.tasks[u].priority <= s.tasks[Schedule(s).current].priority
  {
    VacatedLinks(s);
    ChoiceBest(Vacated(s), u);
    DispatchForm(Vacated(s), s.current);
  }

  /** What schedule_next_task does to task `j`: at most a change between Ready and Running. */
  lemma ScheduleTask(s: State, j: nat)
    requires Settled(s) && j < |s.tasks|
    ensures var t := s.tasks[j];
      var t' := Schedule(s).tasks[j];
      && t' == t.(state := t'.state, slice := t'.slice)
      && (t.state == Blocked || t.state == Dead ==> t' == t)
      && (t.state == Ready || t.state == Running ==> t'.slice == 0 && (t'.state == Ready || t'.state == Running))
  {
    VacatedOk(s);
    VacatedLinks(s);
    assert TaskOk(s.tasks[j], j, |s.tasks|);
    var v := Vacated(s);
    if v.ready == [] { RunIdleOk(v); } else { DispatchOk(v, s.current); }
  }

  /** A schedule takes no frame. */
  lemma ScheduleFrame(s: State)
    requires Settled(s)
    ensures Schedule(s).config == s.config && Schedule(s).taken == s.taken
  {
    VacatedLinks(s);
    CompactionIdle(s);
    var v := Vacated(s);
    assert v.config == s.config && v.taken == s.taken;
    if v.ready != [] { DispatchForm(v, s.current); }
  }
}
