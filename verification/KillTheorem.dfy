/** kill_task is complete, exact and final. */
module KillTheorem {
  import opened KernelTypes
  import opened PageOps
  import opened KernelSpec
  import opened Slots
  import opened Invariant
  import opened Scheduling
  import opened KillPath
  import opened KillOutcome
  import opened Actions
  import opened Steps
  import opened Roots
  import opened Runs

  /** Task `t` has met fate `f`, up to the scheduling that may follow. */
  predicate Met(f: Task, t: Task) {
    && t == f.(state := t.state, slice := t.slice)
    && (f.state == Blocked || f.state == Dead ==> t == f)
    && (f.state == Ready || f.state == Running ==> t.state == Ready || t.state == Running)
  }

  /** A kill ends in a panic exactly when the killed task's mappings cannot be cleaned up: its
      space has no root, or a recorded user page is not really mapped. */
  lemma KillPanicsIff(s: State, i: nat, why: KillReason)
    requires Core(s) && 0 < i < |s.tasks| && !s.clock.panicked
    ensures Kill(s, i, why).clock.panicked <==> !CleanOk(s.tasks[i].space)
  {
    var q := KillQuietly(s, i, why);
    assert s.tasks[i].kind == UserSpace;
    KillLog(s, i, why);
    KillSettles(s, i, why);
    ScheduleClock(q);
  }

  lemma ScheduleClock(s: State)
    requires Settled(s)
    ensures Schedule(s).clock == s.clock
  {
    VacatedLinks(s);
    CompactionIdle(s);
    VacatedOk(s);
    if Vacated(s).ready != [] { DispatchForm(Vacated(s), s.current); }
  }

  /** A kill that does not panic puts the kernel back in its invariant, and every task has met its
      fate: the killed task is dead and wiped, whoever waited at an endpoint it owned is released
      with ENDPOINT_CLOSED, whoever else awaited its reply is released with DEAD_PARTNER, and
      nobody else is touched. */
  lemma KillExact(s: State, i: nat, why: KillReason, j: nat)
    requires Core(s) && 0 < i < |s.tasks| && j < |s.tasks|
    ensures Core(Kill(s, i, why))
    ensures if CleanOk(s.tasks[i].space) then Met(Fate(s, i, j), Kill(s, i, why).tasks[j]) else Kill(s, i, why) == Panic(s)
  {
    assert s.tasks[i].kind == UserSpace;
    AnythingInductive();
    KillStepKeeps(s, i, why, (x: State) => true, ALL);
    if CleanOk(s.tasks[i].space) { FateFollows(s, i, why, j); }
  }

  lemma FateFollows(s: State, i: nat, why: KillReason, j: nat)
    requires Core(s) && 0 < i < |s.tasks| && j < |s.tasks| && Removable(s.tasks[i])
    ensures Met(Fate(s, i, j), Kill(s, i, why).tasks[j])
  {
    var q := KillQuietly(s, i, why);
    assert s.tasks[i].id == i + 1;
    KillSettles(s, i, why);
    KillQuietlyForm(s, i, why);
    FateMet(s, i, why, j);
    ScheduleTask(q, j);
  }

  /** The tasks that such a kill wakes are exactly the waiters at the endpoints of the killed
      task and those that awaited its reply. */
  lemma KillWakes(s: State, i: nat, why: KillReason, j: nat)
    requires Core(s) && 0 < i < |s.tasks| && j < |s.tasks| && s.tasks[j].state == Blocked && CleanOk(s.tasks[i].space)
    ensures var t := Kill(s, i, why).tasks[j];
      t.state == Ready || t.state == Running <==> ClosedOut(s, i, j) || Bereaved(s, i, j)
    ensures var t := Kill(s, i, why).tasks[j];
      && (ClosedOut(s, i, j) ==> t.lastReply == Some(IPC_ERR_ENDPOINT_CLOSED) && t.reason == None && t.pendingMsg == None)
      && (Bereaved(s, i, j) ==> t.lastReply == Some(IPC_ERR_DEAD_PARTNER) && t.reason == None && t.pendingMsg == None)
      && (j != i && !ClosedOut(s, i, j) && !Bereaved(s, i, j) ==> t == s.tasks[j])
  {
    KillExact(s, i, why, j);
    assert TaskOk(s.tasks[j], j, |s.tasks|);
    assert Met(Fate(s, i, j), Kill(s, i, why).tasks[j]);
  }

  lemma Wiped(t: Task, t': Task)
    requires t.kind == UserSpace && Met(DeadTask(t), t')
    ensures t' == Task(t.id, Dead, t.priority, t.runtimeTicks, 0, UserSpace, Cleaned(t.space),
                       None, None, None, None, false, None, None, 0, None, false)
  {
  }

  /** The killed task is dead and wiped: only its id, priority, kind and run time are left, and its space
      without its user pages. It sits in no queue and no endpoint, and nobody in a reply line waits for it. */
  lemma KillComplete(s: State, i: nat, why: KillReason)
    requires Core(s) && 0 < i < |s.tasks| && CleanOk(s.tasks[i].space)
    ensures var r := Kill(s, i, why);
      && r.tasks[i] == Task(s.tasks[i].id, Dead, s.tasks[i].priority, s.tasks[i].runtimeTicks, 0, UserSpace, Cleaned(s.tasks[i].space),
                            None, None, None, None, false, None, None, 0, None, false)
      && (forall sl: Slot :: i !in Members(r, sl))
      && (forall e: nat, x: nat {:trigger x in Members(r, AtReply(e))} :: x in Members(r, AtReply(e)) ==>
            x < |r.tasks| && r.tasks[x].reason != Some(IpcReply(i + 1, e)))
  {
    var r := Kill(s, i, why);
    assert s.tasks[i].kind == UserSpace;
    KillExact(s, i, why, i);
    Wiped(s.tasks[i], r.tasks[i]);
    NotQueued(r, i);
    forall e: nat, x: nat {:trigger x in Members(r, AtReply(e))} | x in Members(r, AtReply(e))
      ensures x < |r.tasks| && r.tasks[x].reason != Some(IpcReply(i + 1, e))
    {
      assert PartnerLives(r, r.tasks[x]);
    }
  }

  /** When nobody was stranded, nobody at all waits for the dead task. */
  lemma NobodyAwaitsTheDead(s: State, i: nat, why: KillReason, j: nat, e: nat)
    requires Core(s) && 0 < i < |s.tasks| && j < |s.tasks| && NoStray(s) && CleanOk(s.tasks[i].space)
    ensures Kill(s, i, why).tasks[j].reason != Some(IpcReply(i + 1, e))
  {
    FateFollows(s, i, why, j);
    FateFrees(s, i, j, e);
  }

  lemma FateFrees(s: State, i: nat, j: nat, e: nat)
    requires Core(s) && 0 < i < |s.tasks| && j < |s.tasks| && NoStray(s)
    ensures Fate(s, i, j).reason != Some(IpcReply(i + 1, e))
  {
    assert TaskOk(s.tasks[j], j, |s.tasks|) && !IsStray(s, j);
    if s.tasks[j].reason == Some(IpcReply(i + 1, e)) {
      assert j in Members(s, AtReply(e));
    }
  }

  /** Dead is final: through any further run the killed task stays dead and out of every queue. */
  lemma KillFinal(s: State, i: nat, why: KillReason, steps: seq<Step>)
    requires Core(s) && 0 < i < |s.tasks| && Legal(steps) && CleanOk(s.tasks[i].space)
    ensures var r := Run(Kill(s, i, why), steps);
      IsDead(r, i) && forall sl: Slot :: i !in Members(r, sl)
  {
    KillExact(s, i, why, i);
    var k := Kill(s, i, why);
    DeadForever(k, steps, i);
    AnythingInductive();
    RunKeeps(k, steps, (x: State) => true, ALL);
    NotQueued(Run(k, steps), i);
  }
}
