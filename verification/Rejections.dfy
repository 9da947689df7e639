/** Calls that are turned away, and endpoints that stay closed. */
module Rejections {
  import opened KernelTypes
  import opened PageOps
  import opened KernelSpec
  import opened Invariant
  import opened KillOutcome
  import opened KillTheorem
  import opened Actions
  import opened Strays
  import opened Runs

  /** The running task has found `code` where a reply would be, and nothing else has changed. */
  predicate Refused(s: State, r: State, code: Word) {
    Shape(s) && r == s.(tasks := s.tasks[s.current := s.tasks[s.current].(lastReply := Some(code))])
  }

  /** A user task that sends, receives or replies on a closed endpoint is told so, and nothing else happens. */
  lemma ClosedRefuses(s: State, e: nat, msg: Word)
    requires Core(s) && s.current != 0 && e < |s.endpoints| && s.endpoints[e].closed
    ensures Refused(s, Send(s, e, msg), 0xC105_ED00_C105_ED00) && Refused(s, Recv(s, e), 0xC105_ED00_C105_ED00)
    ensures Refused(s, Reply(s, e, msg), 0xC105_ED00_C105_ED00)
  {
    assert TaskOk(s.tasks[s.current], s.current, |s.tasks|);
  }

  /** A receive where somebody else waits already is logged and turned away. */
  lemma SecondReceiverRefused(s: State, e: nat)
    requires Core(s) && s.current != 0 && e < |s.endpoints| && !s.endpoints[e].closed && s.endpoints[e].receiver.Some?
    ensures Refused(Emit(s, IpcRecvCalled(s.current + 1, e)), Recv(s, e), 0xBADC_0FFE_BADC_0FFE)
  {
    assert TaskOk(s.tasks[s.current], s.current, |s.tasks|);
    assert EndpointOk(s.endpoints[e]);
  }

  /** On an endpoint that does not exist nothing happens at all. */
  lemma MissingRefuses(s: State, e: nat, msg: Word)
    requires Core(s) && e >= |s.endpoints|
    ensures Send(s, e, msg) == s && Recv(s, e) == s && Reply(s, e, msg) == s
  {
  }

  /** An IPC call of the kernel task never reaches an endpoint: it is dropped, and only logged as issued. */
  lemma KernelDropped(s: State, inp: TickInput)
    requires Core(s) && s.current == 0 && s.tasks[0].pendingCall.Some? && IsIpc(s.tasks[0].pendingCall.value)
    ensures HandlePending(s, inp) == s.(tasks := s.tasks[0 := s.tasks[0].(pendingCall := None)], history := s.history + [SyscallIssued(1)])
  {
    assert TaskOk(s.tasks[0], 0, |s.tasks|);
  }

  /** A user task's call on an open endpoint is let through, and only such a call. */
  lemma GateOpensIff(s: State, e: nat)
    requires Core(s)
    ensures Gate(s, e) == None <==> s.current != 0 && e < |s.endpoints| && !s.endpoints[e].closed
  {
    assert TaskOk(s.tasks[s.current], s.current, |s.tasks|);
  }

  // ---------------------------------------------------------------------------
  // Closed for good
  // ---------------------------------------------------------------------------

  predicate Shut(s: State, e: nat) {
    e < |s.endpoints| && s.endpoints[e].closed
  }

  lemma CallShut(s: State, a: Action, r: State, e: nat)
    requires Settled(s) && Shut(s, e) && Does(s, a, r) && (a.QueueSend? || a.HandOver? || a.TakeSend? || a.Listen?)
    ensures Shut(r, e)
  {
  }

  lemma ReplyShut(s: State, a: Action, r: State, e: nat)
    requires Settled(s) && Shut(s, e) && Does(s, a, r) && Replies(a)
    ensures Shut(r, e)
  {
  }

  lemma SlayShut(s: State, i: nat, why: KillReason, r: State, e: nat)
    requires Settled(s) && Shut(s, e) && Slays(s, i, why, r)
    ensures Shut(r, e)
  {
    assert s.tasks[i].id == i + 1;
    KillQuietlyForm(s, i, why);
    EndpointFateMet(s, i, why, e);
  }

  lemma ShutInductive(e: nat)
    ensures Inductive((x: State) => Shut(x, e), ALL)
  {
    var P := (x: State) => Shut(x, e);
    forall s: State, a: Action, r: State {:trigger P(s), Does(s, a, r)} | Settled(s) && P(s) && Does(s, a, r) ensures P(r) {
      if a.Slay? {
        SlayShut(s, a.task, a.why, r, e);
      } else if a.Reschedule? {
        ScheduleEndpoints(s);
      } else if Replies(a) {
        ReplyShut(s, a, r, e);
      } else if !a.Note? {
        CallShut(s, a, r, e);
      }
    }
  }

  /** The endpoints of a killed task are closed for good: after any further run they are closed and empty, and
      every call of a user task on one is refused with ENDPOINT_CLOSED. */
  lemma ClosedForever(s: State, i: nat, why: KillReason, steps: seq<Step>, e: nat, msg: Word)
    requires Core(s) && 0 < i < |s.tasks| && CleanOk(s.tasks[i].space) && Legal(steps)
    requires e < |s.endpoints| && s.endpoints[e].owner == Some(i + 1)
    ensures var r := Run(Kill(s, i, why), steps);
      && Shut(r, e) && r.endpoints[e].receiver == None && r.endpoints[e].senders == [] && r.endpoints[e].repliers == []
      && (r.current != 0 ==> Refused(r, Send(r, e, msg), 0xC105_ED00_C105_ED00) && Refused(r, Recv(r, e), 0xC105_ED00_C105_ED00)
                             && Refused(r, Reply(r, e, msg), 0xC105_ED00_C105_ED00))
  {
    KillShuts(s, i, why, e);
    var k := Kill(s, i, why);
    ShutInductive(e);
    RunKeeps(k, steps, (x: State) => Shut(x, e), ALL);
    var r := Run(k, steps);
    assert EndpointOk(r.endpoints[e]);
    if r.current != 0 { ClosedRefuses(r, e, msg); }
  }

  lemma KillShuts(s: State, i: nat, why: KillReason, e: nat)
    requires Core(s) && 0 < i < |s.tasks| && CleanOk(s.tasks[i].space) && e < |s.endpoints| && s.endpoints[e].owner == Some(i + 1)
    ensures Core(Kill(s, i, why)) && Shut(Kill(s, i, why), e)
  {
    KillExact(s, i, why, i);
    assert s.tasks[i].id == i + 1;
    var q := KillQuietly(s, i, why);
    KillQuietlyForm(s, i, why);
    KillSettles(s, i, why);
    EndpointFateMet(s, i, why, e);
    ScheduleEndpoints(q);
  }
}
