/** Where a task waits. Every queue of the kernel is a slot, a task's state and blocked
    reason name the slot it belongs in, and the two must agree in both directions. */
module Slots {
  import opened KernelTypes
  import opened KernelSpec
  import opened Counting

  datatype Slot = AtReady | AtRecv(ep: nat) | AtSend(ep: nat) | AtReply(ep: nat)

  /** The tasks that a slot holds. */
  function Members(s: State, sl: Slot): seq<nat> {
    match sl
    case AtReady => s.ready
    case AtRecv(e) =>
      if e < |s.endpoints| && s.endpoints[e].receiver.Some? then [s.endpoints[e].receiver.value] else []
    case AtSend(e) => if e < |s.endpoints| then s.endpoints[e].senders else []
    case AtReply(e) => if e < |s.endpoints| then s.endpoints[e].repliers else []
  }

  function ReasonSlot(why: BlockedReason): Slot {
    match why
    case IpcRecv(e) => AtRecv(e)
    case IpcSend(e) => AtSend(e)
    case IpcReply(_, e) => AtReply(e)
  }

  /** The slot a task belongs in. The idle task is never queued. */
  function Home(t: Task, i: nat): Option<Slot> {
    match t.state
    case Ready => if i == TASK0_INDEX then None else Some(AtReady)
    case Blocked => if t.reason.Some? then Some(ReasonSlot(t.reason.value)) else None
    case Running => None
    case Dead => None
  }

  ghost predicate Forward(s: State) {
    forall sl: Slot, i: nat {:trigger i in Members(s, sl)} :: i in Members(s, sl) ==> i < |s.tasks| && Home(s.tasks[i], i) == Some(sl)
  }

  predicate NeedsSlot(t: Task, i: nat) {
    var h := Home(t, i);
    h.Some? && !h.value.AtReply?
  }

  ghost predicate Backward(s: State) {
    forall i: nat {:trigger NeedsSlot(s.tasks[i], i)} :: i < |s.tasks| && NeedsSlot(s.tasks[i], i) ==> i in Members(s, Home(s.tasks[i], i).value)
  }

  ghost predicate NoRepeats(s: State) {
    forall sl :: Distinct(Members(s, sl))
  }

  /** Queues and task states agree; only the backward half for reply lines is missing,
      see `NoStray`. */
  ghost predicate Linked(s: State) {
    Forward(s) && Backward(s) && NoRepeats(s)
  }

  /** A task that waits for a reply but is in no reply line: nobody can wake it. */
  predicate IsStray(s: State, i: nat) {
    i < |s.tasks| && s.tasks[i].state == Blocked && s.tasks[i].reason.Some? && s.tasks[i].reason.value.IpcReply?
    && i !in Members(s, AtReply(s.tasks[i].reason.value.ep))
  }

  predicate NoStray(s: State) {
    forall i :: 0 <= i < |s.tasks| ==> !IsStray(s, i)
  }

  lemma WakeLinks(s: State, i: nat)
    requires Linked(s) && 0 < i < |s.tasks| && s.tasks[i].state == Blocked && s.tasks[i].reason == None
    ensures Linked(Wake(s, i))
    ensures Wake(s, i).ready == s.ready + [i]
  {
    var r := Wake(s, i);
    assert i !in Members(s, AtReady);
    assert Distinct(Members(s, AtReady));
    forall x: nat | x in s.ready ensures x < |s.tasks| { assert x in Members(s, AtReady); }
    Pigeonhole(s.ready, |s.tasks|, i);
    assert r.ready == s.ready + [i];
    assert r.endpoints == s.endpoints;
    assert r.tasks == s.tasks[i := s.tasks[i].(state := Ready, reason := None, slice := 0)];
    assert forall sl :: sl != AtReady ==> Members(r, sl) == Members(s, sl);
  }
}
