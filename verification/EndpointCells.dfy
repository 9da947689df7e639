/** An endpoint as the kernel stores it: a receiver slot and two fixed buffers. */
module EndpointCells {
  import opened KernelTypes
  import opened KernelSpec
  import opened Buffers

  class EndpointCell {
    var owner: Option<TaskId>
    var closed: bool
    var receiver: Option<nat>
    const sendQueue: array<nat>
    var sendLen: nat
    const replyQueue: array<nat>
    var replyLen: nat

    ghost predicate Valid()
      reads this
    {
      sendLen <= sendQueue.Length && replyLen <= replyQueue.Length && sendQueue != replyQueue
    }

    /** The endpoint this cell stands for. */
    ghost function Value(): Endpoint
      reads this, sendQueue, replyQueue
      requires Valid()
    {
      Endpoint(owner, closed, receiver, sendQueue[..sendLen], replyQueue[..replyLen])
    }

    constructor (capacity: nat, owner: Option<TaskId>)
      ensures Valid() && fresh(sendQueue) && fresh(replyQueue)
      ensures sendQueue.Length == capacity && replyQueue.Length == capacity
      ensures Value() == Endpoint(owner, false, None, [], [])
    {
      this.owner, closed, receiver := owner, false, None;
      sendQueue := new nat[capacity](_ => 0);
      replyQueue := new nat[capacity](_ => 0);
      sendLen, replyLen := 0, 0;
    }

    /** try_enqueue_sender */
    method TryEnqueueSender(i: nat) returns (ok: bool)
      requires Valid()
      modifies this, sendQueue
      ensures Valid()
      ensures (Value().senders, ok) == Enqueue(old(Value().senders), i, sendQueue.Length)
      ensures Value() == old(Value()).(senders := Value().senders)
    {
      if sendLen >= sendQueue.Length { return false; }
      var found := Contains(sendQueue, sendLen, i);
      if !found {
        sendQueue[sendLen] := i;
        sendLen := sendLen + 1;
        assert sendQueue[..sendLen] == old(sendQueue[..sendLen]) + [i];
      }
      ok := true;
    }

    /** try_enqueue_reply_waiter */
    method TryEnqueueReplyWaiter(i: nat) returns (ok: bool)
      requires Valid()
      modifies this, replyQueue
      ensures Valid()
      ensures (Value().repliers, ok) == Enqueue(old(Value().repliers), i, replyQueue.Length)
      ensures Value() == old(Value()).(repliers := Value().repliers)
    {
      if replyLen >= replyQueue.Length { return false; }
      var found := Contains(replyQueue, replyLen, i);
      if !found {
        replyQueue[replyLen] := i;
        replyLen := replyLen + 1;
        assert replyQueue[..replyLen] == old(replyQueue[..replyLen]) + [i];
      }
      ok := true;
    }

    /** dequeue_sender */
    method DequeueSender() returns (r: Option<nat>)
      requires Valid()
      modifies this
      ensures Valid()
      ensures var q := old(Value().senders);
        if q == [] then r == None && Value() == old(Value())
        else r == Some(q[|q| - 1]) && Value() == old(Value()).(senders := q[..|q| - 1])
    {
      if sendLen == 0 { return None; }
      r := Some(sendQueue[sendLen - 1]);
      sendLen := sendLen - 1;
      assert sendQueue[..sendLen] == old(sendQueue[..sendLen])[..sendLen];
    }

    /** remove_reply_waiter_at */
    method RemoveReplyWaiterAt(pos: nat) returns (r: Option<nat>)
      requires Valid()
      modifies this, replyQueue
      ensures Valid()
      ensures var q := old(Value().repliers);
        if pos >= |q| then r == None && Value() == old(Value())
        else r == Some(q[pos]) && Value() == old(Value()).(repliers := SwapRemove(q, pos))
    {
      if pos >= replyLen { return None; }
      r := Some(replyQueue[pos]);
      replyLen := SwapOut(replyQueue, replyLen, pos);
    }

    /** This endpoint's share of remove_task_from_endpoints. */
    method Purge(i: nat)
      requires Valid()
      modifies this, sendQueue, replyQueue
      ensures Valid() && Value() == PurgeEndpoint(old(Value()), i)
    {
      if receiver == Some(i) { receiver := None; }
      sendLen := PurgeBySwap(sendQueue, sendLen, i);
      replyLen := PurgeBySwap(replyQueue, replyLen, i);
    }
  }
}
