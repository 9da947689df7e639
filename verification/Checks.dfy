/** debug_check_invariants: the checks the kernel makes after every tick, written as the
    kernel makes them, and that none of them ever fails. */
module Checks {
  import opened KernelTypes
  import opened PageOps
  import opened Spaces
  import opened KernelSpec
  import opened Slots
  import opened Invariant
  import opened Roots
  import opened Runs

  /** TaskState against blocked reason, and no leftovers in dead tasks. */
  predicate TaskCheck(t: Task) {
    match t.state
    case Blocked => t.reason.Some?
    case Dead => t.reason == None && t.lastMsg == None && t.lastReply == None && t.pendingMsg == None && t.pendingCall == None
    case Ready => t.reason == None
    case Running => t.reason == None
  }

  /** The first space is the kernel's, all others are user spaces, and all have roots. */
  predicate SpaceCheck(t: Task, i: nat) {
    t.kind == (if i == 0 then KernelSpace else UserSpace) && t.space.rooted
  }

  /** Every recorded user page of a user space lies in the user slot. */
  predicate OffsetCheck(t: Task) {
    t.kind == UserSpace ==>
      forall p :: p in t.space.record && t.space.record[p].flags.user ==> p * PAGE_SIZE < SLOT_PAGES * PAGE_SIZE
  }

  /** A dead task's user space has no user page left. */
  predicate LeftoverCheck(t: Task) {
    t.state == Dead && t.kind == UserSpace ==> forall p :: p in t.space.record ==> !t.space.record[p].flags.user
  }

  const PAGE_SIZE: nat := 4096

  predicate CurrentCheck(s: State) {
    s.current < |s.tasks| && s.tasks[s.current].state == Running
  }

  /** A queued task is in range, a user task, alive and blocked for the right reason. */
  predicate QueuedCheck(s: State, x: nat) {
    x < |s.tasks| && s.tasks[x].kind != KernelSpace && s.tasks[x].state != Dead && s.tasks[x].state == Blocked
  }

  predicate PartnerCheck(s: State, partner: TaskId) {
    forall p :: 0 <= p < |s.tasks| && s.tasks[p].id == partner ==> s.tasks[p].state != Dead
  }

  predicate EndpointCheck(s: State, e: nat)
    requires e < |s.endpoints|
  {
    var ep := s.endpoints[e];
    && (ep.closed ==> ep.receiver == None && |ep.senders| == 0 && |ep.repliers| == 0)
    && (ep.receiver.Some? ==>
          QueuedCheck(s, ep.receiver.value) && s.tasks[ep.receiver.value].reason == Some(IpcRecv(e)))
    && (forall pos :: 0 <= pos < |ep.senders| ==>
          QueuedCheck(s, ep.senders[pos]) && s.tasks[ep.senders[pos]].reason == Some(IpcSend(e)))
    && (forall pos :: 0 <= pos < |ep.repliers| ==>
          && QueuedCheck(s, ep.repliers[pos])
          && var why := s.tasks[ep.repliers[pos]].reason;
             why.Some? && why.value.IpcReply? && why.value.ep == e && PartnerCheck(s, why.value.partner))
  }

  predicate DeadCheck(s: State, i: nat)
    requires i < |s.tasks|
  {
    s.tasks[i].state == Dead ==> i !in s.ready
  }

  /** The reverse check: from the task to the queue it should be in. */
  predicate ReverseCheck(s: State, i: nat)
    requires i < |s.tasks|
  {
    s.tasks[i].state == Blocked ==>
      && s.tasks[i].reason.Some?
      && s.tasks[i].reason.value.ep < |s.endpoints|
      && var ep := s.endpoints[s.tasks[i].reason.value.ep];
         match s.tasks[i].reason.value
         case IpcRecv(_) => ep.receiver == Some(i)
         case IpcSend(_) => exists pos :: 0 <= pos < |ep.senders| && ep.senders[pos] == i
         case IpcReply(partner, _) =>
           (exists pos :: 0 <= pos < |ep.repliers| && ep.repliers[pos] == i) && PartnerCheck(s, partner)
  }

  /** No "INVARIANT VIOLATION" line would be logged in state `s`. */
  predicate NoViolation(s: State) {
    && CurrentCheck(s)
    && (forall i :: 0 <= i < |s.tasks| ==>
          SpaceCheck(s.tasks[i], i) && OffsetCheck(s.tasks[i]) && LeftoverCheck(s.tasks[i]))
    && (forall i :: 0 <= i < |s.tasks| ==> TaskCheck(s.tasks[i]) && DeadCheck(s, i) && ReverseCheck(s, i))
    && (forall e :: 0 <= e < |s.endpoints| ==> EndpointCheck(s, e))
  }

  lemma PartnerFine(s: State, e: nat, x: nat)
    requires Settled(s) && e < |s.endpoints| && x in s.endpoints[e].repliers
    ensures x < |s.tasks| && s.tasks[x].reason.Some? && s.tasks[x].reason.value.IpcReply? && s.tasks[x].reason.value.ep == e
    ensures PartnerCheck(s, s.tasks[x].reason.value.partner)
  {
    assert x in Members(s, AtReply(e));
    var partner := s.tasks[x].reason.value.partner;
    forall p | 0 <= p < |s.tasks| && s.tasks[p].id == partner ensures s.tasks[p].state != Dead {
      assert TaskOk(s.tasks[p], p, |s.tasks|);
    }
  }

  lemma MemberFine(s: State, sl: Slot, x: nat)
    requires Settled(s) && x in Members(s, sl) && sl != AtReady
    ensures QueuedCheck(s, x)
  {
    assert TaskOk(s.tasks[x], x, |s.tasks|);
  }

  lemma EndpointFine(s: State, e: nat)
    requires Settled(s) && e < |s.endpoints|
    ensures EndpointCheck(s, e)
  {
    var ep := s.endpoints[e];
    assert EndpointOk(ep);
    if ep.receiver.Some? {
      assert ep.receiver.value in Members(s, AtRecv(e));
      MemberFine(s, AtRecv(e), ep.receiver.value);
    }
    forall pos | 0 <= pos < |ep.senders|
      ensures QueuedCheck(s, ep.senders[pos]) && s.tasks[ep.senders[pos]].reason == Some(IpcSend(e))
    {
      assert ep.senders[pos] in Members(s, AtSend(e));
      MemberFine(s, AtSend(e), ep.senders[pos]);
    }
    forall pos | 0 <= pos < |ep.repliers|
      ensures QueuedCheck(s, ep.repliers[pos])
      ensures var why := s.tasks[ep.repliers[pos]].reason;
        why.Some? && why.value.IpcReply? && why.value.ep == e && PartnerCheck(s, why.value.partner)
    {
      assert ep.repliers[pos] in Members(s, AtReply(e));
      MemberFine(s, AtReply(e), ep.repliers[pos]);
      PartnerFine(s, e, ep.repliers[pos]);
    }
  }

  lemma ReverseFine(s: State, i: nat)
    requires Settled(s) && NoStray(s) && i < |s.tasks|
    ensures ReverseCheck(s, i)
  {
    var t := s.tasks[i];
    assert TaskOk(t, i, |s.tasks|);
    if t.state == Blocked {
      assert !IsStray(s, i);
      var sl := ReasonSlot(t.reason.value);
      if !sl.AtReply? { assert NeedsSlot(t, i); }
      assert i in Members(s, sl);
      if sl.AtReply? { PartnerFine(s, t.reason.value.ep, i); }
    }
  }

  lemma TaskFine(s: State, i: nat)
    requires Settled(s) && i < |s.tasks|
    ensures TaskCheck(s.tasks[i]) && DeadCheck(s, i)
  {
    assert TaskOk(s.tasks[i], i, |s.tasks|);
    assert s.tasks[i].state == Dead ==> i !in Members(s, AtReady);
  }

  lemma SpaceFine(s: State, i: nat)
    requires Settled(s) && AllRooted(s) && SpacesOk(s) && i < |s.tasks|
    ensures SpaceCheck(s.tasks[i], i) && OffsetCheck(s.tasks[i]) && LeftoverCheck(s.tasks[i])
  {
    assert TaskOk(s.tasks[i], i, |s.tasks|);
    if i > 0 { assert SpaceOk(s.tasks[i]); }
  }

  lemma CoreNoViolation(s: State)
    requires Core(s) && NoStray(s) && AllRooted(s) && SpacesOk(s)
    ensures NoViolation(s)
  {
    forall i: nat | i < |s.tasks| ensures SpaceCheck(s.tasks[i], i) && OffsetCheck(s.tasks[i]) && LeftoverCheck(s.tasks[i]) {
      SpaceFine(s, i);
    }
    forall i | 0 <= i < |s.tasks| ensures TaskCheck(s.tasks[i]) && DeadCheck(s, i) && ReverseCheck(s, i) {
      TaskFine(s, i);
      ReverseFine(s, i);
    }
    forall e | 0 <= e < |s.endpoints| ensures EndpointCheck(s, e) {
      EndpointFine(s, e);
    }
  }

  /** With up to three user tasks no check of the kernel ever fails, whatever the programs
      do and whoever is killed. */
  lemma NoViolationForever(s: State, steps: seq<Step>)
    requires Booted(s) && Legal(steps) && |s.tasks| <= 4
    ensures NoViolation(Run(s, steps))
  {
    CoreForever(s, steps);
    NobodyStrandedForever(s, steps);
    RootedForever(s, steps);
    SpacesForever(s, steps);
    CoreNoViolation(Run(s, steps));
  }
}
