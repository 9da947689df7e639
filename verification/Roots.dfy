/** Which page-table root is loaded, and that the dead stay dead. */
module Roots {
  import opened KernelTypes
  import opened KernelSpec
  import opened Slots
  import opened Invariant
  import opened Scheduling
  import opened KillOutcome
  import opened Actions

  /** Every task's address space has a root of its own. */
  predicate AllRooted(s: State) {
    forall i: nat {:trigger s.tasks[i]} :: i < |s.tasks| ==> s.tasks[i].space.rooted
  }

  /** The loaded root is the kernel's or the current task's, and the kernel's if real
      switches are not allowed. */
  predicate RootOk(s: State) {
    AllRooted(s) && (s.cr3 == 0 || (s.cr3 == s.current && s.config.allowSwitch))
  }

  lemma RescheduleRoot(s: State, r: State)
    requires Settled(s) && RootOk(s) && Reschedules(s, r)
    ensures RootOk(r)
  {
    forall j: nat | j < |r.tasks| ensures r.tasks[j].space.rooted { ScheduleTask(s, j); }
    RescheduleLoads(s);
  }

  /** What a schedule loads. */
  lemma RescheduleLoads(s: State)
    requires Settled(s) && RootOk(s)
    ensures var r := Schedule(s);
      r.config == s.config && (r.cr3 == 0 || (r.cr3 == r.current && s.config.allowSwitch))
  {
    VacatedLinks(s);
    CompactionIdle(s);
    var v := Vacated(s);
    assert v.cr3 == s.cr3 && v.config == s.config && v.current == s.current;
    if v.ready != [] { DispatchLoads(v, s.current); }
  }

  lemma DispatchLoads(v: State, prev: nat)
    requires Shape(v) && Linked(v) && v.ready != [] && AllRooted(v) && (v.cr3 == 0 || v.config.allowSwitch)
    ensures var r := Dispatch(v, prev);
      r.config == v.config && (r.cr3 == 0 || (r.cr3 == r.current && v.config.allowSwitch))
  {
    DispatchForm(v, prev);
    assert v.tasks[Choice(v)].space.rooted;
  }

  lemma SlayRoot(s: State, i: nat, why: KillReason, r: State)
    requires Settled(s) && RootOk(s) && Slays(s, i, why, r)
    ensures RootOk(r)
  {
    KillLog(s, i, why);
    assert s.tasks[i].id == i + 1;
    KillQuietlyForm(s, i, why);
    forall j: nat | j < |r.tasks| ensures r.tasks[j].space.rooted { FateMet(s, i, why, j); }
  }

  lemma NoteRoot(s: State, r: State)
    requires RootOk(s) && Noted(s, r)
    ensures RootOk(r)
  {
    forall j: nat | j < |r.tasks| ensures r.tasks[j].space.rooted { assert SameButSlice(s.tasks[j], r.tasks[j]); }
  }

  lemma ActionRoot(s: State, a: Action, r: State)
    requires Settled(s) && RootOk(s) && Does(s, a, r)
    ensures RootOk(r)
  {
    if a.Note? {
      NoteRoot(s, r);
    } else if a.Reschedule? {
      RescheduleRoot(s, r);
    } else if a.Slay? {
      SlayRoot(s, a.task, a.why, r);
    } else if Replies(a) {
      ReplyRoot(s, a, r);
    } else {
      AskRoot(s, a, r);
    }
  }

  lemma ReplyRoot(s: State, a: Action, r: State)
    requires Settled(s) && RootOk(s) && Does(s, a, r) && Replies(a)
    ensures RootOk(r)
  {
  }

  lemma AskRoot(s: State, a: Action, r: State)
    requires Settled(s) && RootOk(s) && Does(s, a, r) && (a.QueueSend? || a.HandOver? || a.TakeSend? || a.Listen?)
    ensures RootOk(r)
  {
  }

  lemma RootInductive()
    ensures Inductive(RootOk, ALL)
  {
    forall s: State, a: Action, r: State {:trigger RootOk(s), Does(s, a, r)} | Settled(s) && RootOk(s) && Does(s, a, r)
      ensures RootOk(r)
    {
      ActionRoot(s, a, r);
    }
  }

  // ---------------------------------------------------------------------------
  // Death is final
  // ---------------------------------------------------------------------------

  predicate IsDead(s: State, i: nat) {
    i < |s.tasks| && s.tasks[i].state == Dead
  }

  lemma SlayDead(s: State, k: nat, why: KillReason, r: State, i: nat)
    requires Settled(s) && IsDead(s, i) && Slays(s, k, why, r)
    ensures IsDead(r, i)
  {
    assert s.tasks[k].id == k + 1;
    KillQuietlyForm(s, k, why);
    FateMet(s, k, why, i);
  }

  /** A blocked task is not the dead one, and IPC touches only blocked tasks and the caller. */
  lemma PassDead(s: State, a: Action, r: State, i: nat)
    requires Settled(s) && IsDead(s, i) && Does(s, a, r) && (a.HandOver? || a.TakeSend?)
    ensures IsDead(r, i)
  {
    match a
    case HandOver(e, x, _) => assert x in Members(s, AtRecv(e));
    case TakeSend(e, x) => assert x in Members(s, AtSend(e));
  }

  lemma CallDead(s: State, a: Action, r: State, i: nat)
    requires Settled(s) && IsDead(s, i) && Does(s, a, r) && !a.Note? && !a.Reschedule? && !a.Slay?
    ensures IsDead(r, i)
  {
    match a
    case HandOver(e, x, msg) => PassDead(s, a, r, i);
    case TakeSend(e, x) => PassDead(s, a, r, i);
    case Answer(e, k, msg) => ReplyDead(s, a, r, i);
    case Misdirect(e) => ReplyDead(s, a, r, i);
    case _ =>
  }

  lemma ReplyDead(s: State, a: Action, r: State, i: nat)
    requires Settled(s) && IsDead(s, i) && Does(s, a, r) && (a.Answer? || a.Misdirect?)
    ensures IsDead(r, i)
  {
    match a
    case Answer(e, k, _) => assert s.endpoints[e].repliers[k] in Members(s, AtReply(e));
    case Misdirect(e) => assert s.endpoints[e].repliers[|s.endpoints[e].repliers| - 1] in Members(s, AtReply(e));
  }

  lemma ActionDead(s: State, a: Action, r: State, i: nat)
    requires Settled(s) && IsDead(s, i) && Does(s, a, r)
    ensures IsDead(r, i)
  {
    if a.Note? {
      assert SameButSlice(s.tasks[i], r.tasks[i]);
    } else if a.Reschedule? {
      ScheduleTask(s, i);
    } else if a.Slay? {
      SlayDead(s, a.task, a.why, r, i);
    } else {
      CallDead(s, a, r, i);
    }
  }

  lemma DeadInductive(i: nat)
    ensures Inductive((s: State) => IsDead(s, i), ALL)
  {
    var P := (s: State) => IsDead(s, i);
    forall s: State, a: Action, r: State {:trigger P(s), Does(s, a, r)} | Settled(s) && P(s) && Does(s, a, r) ensures P(r) {
      ActionDead(s, a, r, i);
    }
  }
}
