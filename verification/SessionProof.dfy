/** Every reachable history is unbroken, and each task's state says where its session is. */
module SessionProof {
  import opened KernelTypes
  import opened KernelSpec
  import opened Slots
  import opened Invariant
  import opened Scheduling
  import opened KillPath
  import opened KillOutcome
  import opened Actions
  import opened Sessions

  /** The session that a task's state stands for. */
  predicate Agrees(x: Session, t: Task) {
    if t.state == Dead then x == Over
    else if t.reason.Some? && t.reason.value.IpcSend? then
      t.pendingMsg.Some? && x == Called(t.reason.value.ep, t.pendingMsg.value)
    else if t.reason.Some? && t.reason.value.IpcReply? then
      x.Awaiting? && x.partner == t.reason.value.partner && x.ep == t.reason.value.ep
    else x == AtRest
  }

  /** The session of the task at index `i`. */
  function SessionAt(s: State, i: nat): Session {
    SessionOf(s.history, i + 1)
  }

  predicate SessionsOk(s: State) {
    forall i: nat {:trigger s.tasks[i]} :: i < |s.tasks| ==> Agrees(SessionAt(s, i), s.tasks[i])
  }

  lemma {:induction false} BenignSuffix(h: seq<Event>, h': seq<Event>, id: TaskId)
    requires h <= h' && forall k :: |h| <= k < |h'| ==> Benign(h'[k])
    ensures SessionOf(h', id) == SessionOf(h, id)
    decreases |h'|
  {
    if |h'| > |h| {
      var init := h'[..|h'| - 1];
      BenignSuffix(h, init, id);
      assert Benign(h'[|h'| - 1]);
    } else {
      assert h' == h;
    }
  }

  /** The session moves of one action: task `x` goes to session `y`, nobody else moves. */
  lemma OneMoves(s: State, r: State, x: nat, y: Session)
    requires SessionsOk(s) && x < |s.tasks| == |r.tasks| && MovesTo(s.history, r.history, x + 1, y)
    requires forall i: nat {:trigger r.tasks[i]} :: i < |s.tasks| && i != x ==> SameSession(s.tasks[i], r.tasks[i])
    requires Agrees(y, r.tasks[x])
    ensures SessionsOk(r)
  {
    forall i: nat | i < |r.tasks| ensures Agrees(SessionAt(r, i), r.tasks[i]) {
      assert Agrees(SessionAt(s, i), s.tasks[i]);
    }
  }

  /** Two task states that stand for the same sessions. */
  predicate SameSession(t: Task, t': Task) {
    && (t'.state == Dead <==> t.state == Dead)
    && (t'.reason == t.reason || (Restful(t) && Restful(t')))
    && t'.pendingMsg == t.pendingMsg
  }

  predicate Restful(t: Task) {
    t.reason == None || t.reason.value.IpcRecv?
  }

  lemma NoteSessions(s: State, r: State)
    requires SessionsOk(s) && Noted(s, r)
    ensures SessionsOk(r)
  {
    forall i: nat | i < |r.tasks| ensures Agrees(SessionAt(r, i), r.tasks[i]) {
      BenignSuffix(s.history, r.history, i + 1);
      assert SameButSlice(s.tasks[i], r.tasks[i]);
      assert Agrees(SessionAt(s, i), s.tasks[i]);
    }
  }

  lemma QueueSessions(s: State, e: nat, msg: Word, r: State)
    requires Settled(s) && SessionsOk(s) && QueuesSend(s, e, msg, r)
    ensures SessionsOk(r)
  {
    var me := s.current;
    assert TaskOk(s.tasks[me], me, |s.tasks|);
    assert Agrees(SessionAt(s, me), s.tasks[me]);
    QueueHistory(s.history, me + 1, e, msg);
    OneMoves(s, r, me, Called(e, msg));
  }

  lemma HandOverSessions(s: State, e: nat, x: nat, msg: Word, r: State)
    requires Settled(s) && SessionsOk(s) && HandsOver(s, e, x, msg, r)
    ensures SessionsOk(r)
  {
    var me := s.current;
    assert x in Members(s, AtRecv(e));
    assert TaskOk(s.tasks[me], me, |s.tasks|) && TaskOk(s.tasks[x], x, |s.tasks|);
    assert Agrees(SessionAt(s, me), s.tasks[me]) && Agrees(SessionAt(s, x), s.tasks[x]);
    HandOverHistory(s.history, me + 1, x + 1, e, msg);
    OneMoves(s, r, me, Awaiting(x + 1, e, msg));
  }

  lemma TakeSessions(s: State, e: nat, x: nat, r: State)
    requires Settled(s) && SessionsOk(s) && TakesSend(s, e, x, r)
    ensures SessionsOk(r)
  {
    var me := s.current;
    var msg := s.tasks[x].pendingMsg.value;
    assert x in Members(s, AtSend(e));
    assert TaskOk(s.tasks[me], me, |s.tasks|) && TaskOk(s.tasks[x], x, |s.tasks|);
    assert Agrees(SessionAt(s, x), s.tasks[x]);
    TakeHistory(s.history, x + 1, me + 1, e, msg);
    OneMoves(s, r, x, Awaiting(me + 1, e, msg));
  }

  lemma ListenSessions(s: State, e: nat, r: State)
    requires Settled(s) && SessionsOk(s) && Listens(s, e, r)
    ensures SessionsOk(r)
  {
    var me := s.current;
    assert TaskOk(s.tasks[me], me, |s.tasks|);
    assert Agrees(SessionAt(s, me), s.tasks[me]);
    ListenHistory(s.history, me + 1, e);
    NobodyMoves(s, r);
  }

  lemma AnswerSessions(s: State, e: nat, k: nat, msg: Word, r: State)
    requires Settled(s) && SessionsOk(s) && Answers(s, e, k, msg, r)
    ensures SessionsOk(r)
  {
    var me := s.current;
    var x := s.endpoints[e].repliers[k];
    assert x in Members(s, AtReply(e));
    assert TaskOk(s.tasks[me], me, |s.tasks|) && TaskOk(s.tasks[x], x, |s.tasks|);
    assert Agrees(SessionAt(s, x), s.tasks[x]);
    AnswerHistory(s.history, me + 1, x + 1, e);
    OneMoves(s, r, x, AtRest);
  }

  lemma MisdirectSessions(s: State, e: nat, r: State)
    requires Settled(s) && SessionsOk(s) && Misdirects(s, e, r)
    ensures SessionsOk(r)
  {
    var x := s.endpoints[e].repliers[|s.endpoints[e].repliers| - 1];
    assert x in Members(s, AtReply(e));
    assert TaskOk(s.tasks[x], x, |s.tasks|);
    assert Agrees(SessionAt(s, x), s.tasks[x]);
    RescueHistory(s.history, x + 1);
    OneMoves(s, r, x, AtRest);
  }

  /** A schedule only logs wake-ups of tasks that are at rest. */
  lemma ScheduleHistory(s: State)
    requires Settled(s) && (s.tasks[s.current].state == Running ==> SessionOf(s.history, s.current + 1) == AtRest)
    ensures Unmoved(s.history, Schedule(s).history)
  {
    var v := Vacated(s);
    VacatedHistory(s);
    VacatedLinks(s);
    if v.ready == [] { SwitchHistory(v.history, v.tasks[0].id); } else { DispatchHistory(v, s.current); }
    UnmovedChain(s.history, v.history, Schedule(s).history);
  }

  lemma DispatchHistory(v: State, prev: nat)
    requires Shape(v) && Linked(v) && v.ready != []
    ensures Unmoved(v.history, Dispatch(v, prev).history)
  {
    DispatchForm(v, prev);
    SwitchHistory(v.history, v.tasks[Choice(v)].id);
  }

  lemma VacatedHistory(s: State)
    requires Settled(s) && (s.tasks[s.current].state == Running ==> SessionOf(s.history, s.current + 1) == AtRest)
    ensures Unmoved(s.history, Vacated(s).history)
  {
    CompactionIdle(s);
    assert s.(ready := s.ready) == s;
    if s.tasks[s.current].state == Running {
      assert TaskOk(s.tasks[s.current], s.current, |s.tasks|);
      PreemptHistory(s.history, s.current + 1);
      if s.current != 0 { RequeueForm(s); }
    }
  }

  /** No session moves, and every task stands for the session it stood for. */
  lemma NobodyMoves(s: State, r: State)
    requires SessionsOk(s) && |r.tasks| == |s.tasks| && Unmoved(s.history, r.history)
    requires forall i: nat {:trigger r.tasks[i]} :: i < |s.tasks| ==> SameSession(s.tasks[i], r.tasks[i])
    ensures SessionsOk(r)
  {
    forall i: nat | i < |r.tasks| ensures Agrees(SessionAt(r, i), r.tasks[i]) {
      assert SessionOf(r.history, i + 1) == SessionOf(s.history, i + 1);
      assert Agrees(SessionAt(s, i), s.tasks[i]);
    }
  }

  lemma RescheduleKeeps(s: State, r: State)
    requires Settled(s) && Reschedules(s, r)
    ensures |r.tasks| == |s.tasks| && forall i: nat {:trigger r.tasks[i]} :: i < |s.tasks| ==> SameSession(s.tasks[i], r.tasks[i])
  {
    forall i: nat {:trigger r.tasks[i]} | i < |s.tasks| ensures SameSession(s.tasks[i], r.tasks[i]) { ScheduleTask(s, i); }
  }

  lemma CurrentRests(s: State)
    requires Shape(s) && TasksOk(s) && SessionsOk(s)
    ensures s.tasks[s.current].state == Running ==> SessionOf(s.history, s.current + 1) == AtRest
  {
    assert Agrees(SessionAt(s, s.current), s.tasks[s.current]);
    assert TaskOk(s.tasks[s.current], s.current, |s.tasks|);
  }

  lemma RescheduleSessions(s: State, r: State)
    requires Settled(s) && SessionsOk(s) && Reschedules(s, r)
    ensures SessionsOk(r)
  {
    CurrentRests(s);
    ScheduleHistory(s);
    RescheduleKeeps(s, r);
    NobodyMoves(s, r);
  }

  lemma SlayHistory(s: State, i: nat, why: KillReason, r: State, j: nat)
    requires Settled(s) && Slays(s, i, why, r) && j < |s.tasks| && SessionAt(s, i) != Broken
    ensures SessionAt(r, j) == KilledSession(SessionAt(s, j), j == i, ClosedOut(s, i, j) || Bereaved(s, i, j))
  {
    var l := OwnedList(s, i, why) + Orphans(s, i, why);
    KillLog(s, i, why);
    OrphansOk(s, i, why, j);
    KillHistory(s.history, l, i, why, j);
  }

  lemma SlaySession(s: State, i: nat, why: KillReason, r: State, j: nat)
    requires Settled(s) && SessionsOk(s) && Slays(s, i, why, r) && j < |s.tasks|
    ensures Agrees(SessionAt(r, j), Fate(s, i, j))
  {
    assert Agrees(SessionAt(s, i), s.tasks[i]) && Agrees(SessionAt(s, j), s.tasks[j]);
    SlayHistory(s, i, why, r, j);
    assert TaskOk(s.tasks[j], j, |s.tasks|);
  }

  lemma SlaySessions(s: State, i: nat, why: KillReason, r: State)
    requires Settled(s) && SessionsOk(s) && Slays(s, i, why, r)
    ensures SessionsOk(r)
  {
    KillQuietlyForm(s, i, why);
    forall j: nat | j < |r.tasks| ensures Agrees(SessionAt(r, j), r.tasks[j]) {
      FateMet(s, i, why, j);
      SlaySession(s, i, why, r, j);
    }
  }

  lemma CallSessions(s: State, a: Action, r: State)
    requires Settled(s) && SessionsOk(s) && Does(s, a, r) && !a.Note? && !a.Reschedule? && !a.Slay?
    ensures SessionsOk(r)
  {
    if a.QueueSend? {
      QueueSessions(s, a.ep, a.msg, r);
    } else if a.HandOver? {
      HandOverSessions(s, a.ep, a.to, a.msg, r);
    } else if a.TakeSend? {
      TakeSessions(s, a.ep, a.from, r);
    } else if a.Listen? {
      ListenSessions(s, a.ep, r);
    } else if a.Answer? {
      AnswerSessions(s, a.ep, a.pos, a.msg, r);
    } else {
      MisdirectSessions(s, a.ep, r);
    }
  }

  lemma ActionSessions(s: State, a: Action, r: State)
    requires Settled(s) && SessionsOk(s) && Does(s, a, r)
    ensures SessionsOk(r)
  {
    if a.Note? {
      NoteSessions(s, r);
    } else if a.Reschedule? {
      RescheduleSessions(s, r);
    } else if a.Slay? {
      SlaySessions(s, a.task, a.why, r);
    } else {
      CallSessions(s, a, r);
    }
  }

  lemma SessionsInductive()
    ensures Inductive(SessionsOk, ALL)
  {
    forall s: State, a: Action, r: State {:trigger SessionsOk(s), Does(s, a, r)} |
      Settled(s) && SessionsOk(s) && Does(s, a, r) ensures SessionsOk(r)
    {
      ActionSessions(s, a, r);
    }
  }
}
