/** Address spaces over all runs: user pages stay in their slot, and the dead keep none. */
module Spaces {
  import opened KernelTypes
  import opened KernelSpec
  import opened Slots
  import opened Invariant
  import opened Agreement
  import opened Holdings
  import opened Scheduling
  import opened KillOutcome
  import opened Actions

  predicate SpaceOk(t: Task) {
    Fit(t.space) && (t.state == Dead ==> NoUserPages(t.space))
  }

  /** Every user space is fit, and a dead task's space has no user page left. */
  predicate SpacesOk(s: State) {
    forall i: nat {:trigger s.tasks[i]} :: 0 < i < |s.tasks| ==> SpaceOk(s.tasks[i])
  }

  /** Nobody's memory changes, and nobody dies. */
  predicate Untouched(s: State, r: State) {
    && |r.tasks| == |s.tasks| && r.taken == s.taken && r.config == s.config
    && forall j: nat {:trigger r.tasks[j]} :: j < |s.tasks| ==>
         && r.tasks[j].space == s.tasks[j].space && r.tasks[j].demoFrame == s.tasks[j].demoFrame
         && r.tasks[j].kind == s.tasks[j].kind && (r.tasks[j].state == Dead <==> s.tasks[j].state == Dead)
  }

  lemma RescheduleUntouched(s: State, r: State)
    requires Settled(s) && Reschedules(s, r)
    ensures Untouched(s, r)
  {
    forall j: nat | j < |s.tasks| ensures SameButState(s.tasks[j], r.tasks[j]) { ScheduleTask(s, j); }
    ScheduleFrame(s);
  }

  predicate SameButState(t: Task, t': Task) {
    t' == t.(state := t'.state, slice := t'.slice) && (t'.state == Dead <==> t.state == Dead)
  }

  lemma ReplyUntouched(s: State, a: Action, r: State)
    requires Settled(s) && Does(s, a, r) && (a.Answer? || a.Misdirect?)
    ensures Untouched(s, r)
  {
    match a
    case Answer(e, k, msg) => AnswerUntouched(s, e, k, msg, r);
    case Misdirect(e) => MisdirectUntouched(s, e, r);
  }

  lemma AnswerUntouched(s: State, e: nat, k: nat, msg: Word, r: State)
    requires Settled(s) && Answers(s, e, k, msg, r)
    ensures Untouched(s, r)
  {
    assert s.endpoints[e].repliers[k] in Members(s, AtReply(e));
  }

  lemma MisdirectUntouched(s: State, e: nat, r: State)
    requires Settled(s) && Misdirects(s, e, r)
    ensures Untouched(s, r)
  {
    assert s.endpoints[e].repliers[|s.endpoints[e].repliers| - 1] in Members(s, AtReply(e));
  }

  lemma PassUntouched(s: State, a: Action, r: State)
    requires Settled(s) && Does(s, a, r) && (a.HandOver? || a.TakeSend?)
    ensures Untouched(s, r)
  {
    match a
    case HandOver(e, x, msg) => HandOverUntouched(s, e, x, msg, r);
    case TakeSend(e, x) => TakeSendUntouched(s, e, x, r);
  }

  lemma HandOverUntouched(s: State, e: nat, x: nat, msg: Word, r: State)
    requires Settled(s) && HandsOver(s, e, x, msg, r)
    ensures Untouched(s, r)
  {
    assert x in Members(s, AtRecv(e));
  }

  lemma TakeSendUntouched(s: State, e: nat, x: nat, r: State)
    requires Settled(s) && TakesSend(s, e, x, r)
    ensures Untouched(s, r)
  {
    assert x in Members(s, AtSend(e));
  }

  lemma ActionUntouched(s: State, a: Action, r: State)
    requires Settled(s) && Does(s, a, r) && !a.Note? && !a.Slay?
    ensures Untouched(s, r)
  {
    if a.Reschedule? {
      RescheduleUntouched(s, r);
    } else if Replies(a) {
      ReplyUntouched(s, a, r);
    } else if a.HandOver? || a.TakeSend? {
      PassUntouched(s, a, r);
    }
  }

  lemma SlaySpaces(s: State, i: nat, why: KillReason, r: State)
    requires Settled(s) && SpacesOk(s) && Slays(s, i, why, r)
    ensures SpacesOk(r)
  {
    assert s.tasks[i].id == i + 1 && s.tasks[i].kind == UserSpace;
    KillQuietlyForm(s, i, why);
    CleanedFits(s.tasks[i].space);
    forall j: nat | 0 < j < |r.tasks| ensures SpaceOk(r.tasks[j]) {
      FateMet(s, i, why, j);
      assert SpaceOk(s.tasks[j]);
    }
  }

  lemma NoteSpaces(s: State, r: State)
    requires Settled(s) && SpacesOk(s) && Noted(s, r)
    ensures SpacesOk(r)
  {
    forall j: nat | 0 < j < |r.tasks| ensures SpaceOk(r.tasks[j]) {
      assert SpaceOk(s.tasks[j]) && SpaceKept(s.tasks[j], r.tasks[j]) && SameButSlice(s.tasks[j], r.tasks[j]);
      assert TaskOk(s.tasks[j], j, |s.tasks|);
    }
  }

  lemma UntouchedSpaces(s: State, r: State)
    requires SpacesOk(s) && Untouched(s, r)
    ensures SpacesOk(r)
  {
    forall j: nat | 0 < j < |r.tasks| ensures SpaceOk(r.tasks[j]) { assert SpaceOk(s.tasks[j]); }
  }

  lemma ActionSpaces(s: State, a: Action, r: State)
    requires Settled(s) && SpacesOk(s) && Does(s, a, r)
    ensures SpacesOk(r)
  {
    if a.Note? {
      NoteSpaces(s, r);
    } else if a.Slay? {
      SlaySpaces(s, a.task, a.why, r);
    } else {
      ActionUntouched(s, a, r);
      UntouchedSpaces(s, r);
    }
  }

  lemma SpacesInductive()
    ensures Inductive(SpacesOk, ALL)
  {
    forall s: State, a: Action, r: State {:trigger SpacesOk(s), Does(s, a, r)} | Settled(s) && SpacesOk(s) && Does(s, a, r)
      ensures SpacesOk(r)
    {
      ActionSpaces(s, a, r);
    }
  }
}
