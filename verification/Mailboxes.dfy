/** What a task finds in its mailbox is the last message that was delivered to it. */
module Mailboxes {
  import opened KernelTypes
  import opened KernelSpec
  import opened Slots
  import opened Invariant
  import opened Scheduling
  import opened KillOutcome
  import opened Actions

  /** The last message delivered to task `id`. */
  function LastFor(h: seq<Event>, id: TaskId): Option<Word> {
    if h == [] then None
    else
      match h[|h| - 1]
      case IpcDelivered(_, to, _, msg) => if to == id then Some(msg) else LastFor(h[..|h| - 1], id)
      case _ => LastFor(h[..|h| - 1], id)
  }

  predicate MailOk(s: State) {
    forall i: nat {:trigger s.tasks[i]} :: i < |s.tasks| && s.tasks[i].lastMsg.Some? ==>
      LastFor(s.history, i + 1) == s.tasks[i].lastMsg
  }

  /** `h'` continues `h` without a delivery. */
  predicate Undelivered(h: seq<Event>, h': seq<Event>) {
    h <= h' && forall k :: |h| <= k < |h'| ==> !h'[k].IpcDelivered?
  }

  /** `h'` continues `h` without a delivery or a call. */
  predicate Silent(h: seq<Event>, h': seq<Event>) {
    h <= h' && forall k :: |h| <= k < |h'| ==> !h'[k].IpcDelivered? && !h'[k].IpcSendCalled?
  }

  lemma {:induction false} LastForKept(h: seq<Event>, h': seq<Event>, id: TaskId)
    requires Undelivered(h, h')
    ensures LastFor(h', id) == LastFor(h, id)
    decreases |h'|
  {
    if |h'| > |h| {
      LastForKept(h, h'[..|h'| - 1], id);
    } else {
      assert h' == h;
    }
  }

  /** Nothing is delivered, and mailboxes are at most emptied. */
  lemma MailKept(s: State, r: State)
    requires MailOk(s) && |r.tasks| == |s.tasks| && Undelivered(s.history, r.history)
    requires forall i: nat {:trigger r.tasks[i]} :: i < |s.tasks| ==>
      r.tasks[i].lastMsg == s.tasks[i].lastMsg || r.tasks[i].lastMsg == None
    ensures MailOk(r)
  {
    forall i: nat | i < |r.tasks| && r.tasks[i].lastMsg.Some? ensures LastFor(r.history, i + 1) == r.tasks[i].lastMsg {
      assert s.tasks[i].lastMsg == r.tasks[i].lastMsg;
      LastForKept(s.history, r.history, i + 1);
    }
  }

  /** One message is delivered, to `x`, as the last event of `r`. */
  lemma MailDelivered(s: State, r: State, h: seq<Event>, from: TaskId, x: nat, e: nat, msg: Word)
    requires MailOk(s) && |r.tasks| == |s.tasks| && x < |s.tasks| && Undelivered(s.history, h)
    requires r.history == h + [IpcDelivered(from, x + 1, e, msg)] && r.tasks[x].lastMsg == Some(msg)
    requires forall i: nat {:trigger r.tasks[i]} :: i < |s.tasks| && i != x ==> r.tasks[i].lastMsg == s.tasks[i].lastMsg
    ensures MailOk(r)
  {
    assert r.history[..|r.history| - 1] == h;
    forall i: nat | i < |r.tasks| && r.tasks[i].lastMsg.Some? ensures LastFor(r.history, i + 1) == r.tasks[i].lastMsg {
      if i != x {
        assert s.tasks[i].lastMsg == r.tasks[i].lastMsg;
        LastForKept(s.history, h, i + 1);
      }
    }
  }

  lemma ScheduleSilent(s: State)
    requires Settled(s)
    ensures Silent(s.history, Schedule(s).history)
  {
    VacatedLinks(s);
    VacatedSilent(s);
    if Vacated(s).ready != [] { DispatchSilent(Vacated(s), s.current); }
  }

  lemma VacatedSilent(s: State)
    requires Settled(s)
    ensures Silent(s.history, Vacated(s).history)
  {
    CompactionIdle(s);
    if s.tasks[s.current].state == Running && s.current != 0 { RequeueForm(s); }
  }

  lemma DispatchSilent(v: State, prev: nat)
    requires Shape(v) && Linked(v) && v.ready != []
    ensures Silent(v.history, Dispatch(v, prev).history)
  {
    DispatchForm(v, prev);
    var id := v.tasks[Choice(v)].id;
    ThreeSilent(v.history, ReadyDequeued(id), TaskSwitched(id), TaskStateChanged(id, Running));
  }

  lemma ThreeSilent(h: seq<Event>, a: Event, b: Event, c: Event)
    requires !a.IpcDelivered? && !b.IpcDelivered? && !c.IpcDelivered?
    requires !a.IpcSendCalled? && !b.IpcSendCalled? && !c.IpcSendCalled?
    ensures Silent(h, h + [a] + [b] + [c])
  {
  }

  lemma RescheduleMail(s: State, r: State)
    requires Settled(s) && MailOk(s) && Reschedules(s, r)
    ensures MailOk(r)
  {
    ScheduleSilent(s);
    forall i: nat | i < |s.tasks| ensures r.tasks[i].lastMsg == s.tasks[i].lastMsg { ScheduleTask(s, i); }
    MailKept(s, r);
  }

  lemma SlayMail(s: State, i: nat, why: KillReason, r: State)
    requires Settled(s) && MailOk(s) && Slays(s, i, why, r)
    ensures MailOk(r)
  {
    KillLog(s, i, why);
    assert s.tasks[i].id == i + 1;
    KillQuietlyForm(s, i, why);
    forall j: nat | j < |s.tasks| ensures r.tasks[j].lastMsg == s.tasks[j].lastMsg || r.tasks[j].lastMsg == None {
      FateMet(s, i, why, j);
    }
    MailKept(s, r);
  }

  lemma CallMail(s: State, a: Action, r: State)
    requires Settled(s) && MailOk(s) && Does(s, a, r) && (a.QueueSend? || a.Listen? || a.Answer? || a.Misdirect?)
    ensures MailOk(r)
  {
    MailKept(s, r);
  }

  lemma HandOverMail(s: State, e: nat, x: nat, msg: Word, r: State)
    requires Settled(s) && MailOk(s) && HandsOver(s, e, x, msg, r)
    ensures MailOk(r)
  {
    assert x in Members(s, AtRecv(e));
    assert s.tasks[x].id == x + 1 && s.tasks[s.current].id == s.current + 1;
    MailDelivered(s, r, r.history[..|r.history| - 1], s.current + 1, x, e, msg);
  }

  lemma TakeSendMail(s: State, e: nat, x: nat, r: State)
    requires Settled(s) && MailOk(s) && TakesSend(s, e, x, r)
    ensures MailOk(r)
  {
    assert x in Members(s, AtSend(e));
    assert s.tasks[x].id == x + 1 && s.tasks[s.current].id == s.current + 1;
    MailDelivered(s, r, r.history[..|r.history| - 1], x + 1, s.current, e, s.tasks[x].pendingMsg.value);
  }

  lemma NoteMail(s: State, r: State)
    requires MailOk(s) && Noted(s, r)
    ensures MailOk(r)
  {
    assert forall i: nat {:trigger r.tasks[i]} :: i < |s.tasks| ==> SameButSlice(s.tasks[i], r.tasks[i]);
    MailKept(s, r);
  }

  lemma ActionMail(s: State, a: Action, r: State)
    requires Settled(s) && MailOk(s) && Does(s, a, r)
    ensures MailOk(r)
  {
    if a.Note? {
      NoteMail(s, r);
    } else if a.HandOver? {
      HandOverMail(s, a.ep, a.to, a.msg, r);
    } else if a.TakeSend? {
      TakeSendMail(s, a.ep, a.from, r);
    } else if a.Reschedule? {
      RescheduleMail(s, r);
    } else if a.Slay? {
      SlayMail(s, a.task, a.why, r);
    } else {
      CallMail(s, a, r);
    }
  }

  lemma MailInductive()
    ensures Inductive(MailOk, ALL)
  {
    forall s: State, a: Action, r: State {:trigger MailOk(s), Does(s, a, r)} | Settled(s) && MailOk(s) && Does(s, a, r)
      ensures MailOk(r)
    {
      ActionMail(s, a, r);
    }
  }
}
