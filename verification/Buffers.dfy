/** Waiting lines as the kernel stores them: a fixed buffer and the length of its filled part.
    Each loop is proved against the operation on the line it stands for. */
module Buffers {
  import opened KernelTypes
  import opened KernelSpec

  /** is_in_ready_queue, ready_queue_contains, send_queue_contains, reply_queue_contains */
  method Contains(buf: array<nat>, len: nat, x: nat) returns (found: bool)
    requires len <= buf.Length
    ensures found <==> x in buf[..len]
  {
    found := false;
    for pos := 0 to len
      invariant !found && x !in buf[..pos]
    {
      if buf[pos] == x { return true; }
      assert buf[..pos + 1] == buf[..pos] + [buf[pos]];
    }
  }

  /** remove_from_ready_queue: compaction in place, keeping the order. */
  method RemoveInOrder(buf: array<nat>, len: nat, x: nat) returns (n: nat)
    requires len <= buf.Length
    modifies buf
    ensures n <= len && buf[..n] == RemoveAll(old(buf[..len]), x)
  {
    ghost var q := buf[..len];
    n := 0;
    for pos := 0 to len
      invariant n <= pos && buf[..n] == RemoveAll(q[..pos], x)
      invariant forall k :: pos <= k < len ==> buf[k] == q[k]
    {
      assert q[..pos + 1][..pos] == q[..pos];
      var v := buf[pos];
      if v != x {
        buf[n] := v;
        n := n + 1;
        assert buf[..n] == RemoveAll(q[..pos], x) + [v];
      }
    }
    assert q[..len] == q;
  }

  /** compact_ready_queue_to_ready_only */
  method KeepReadyOnly(tasks: array<Task>, buf: array<nat>, len: nat) returns (n: nat)
    requires len <= buf.Length && tasks as object != buf
    modifies buf
    ensures n <= len && buf[..n] == KeepReady(tasks[..], old(buf[..len]))
  {
    ghost var q := buf[..len];
    n := 0;
    for pos := 0 to len
      invariant n <= pos && buf[..n] == KeepReady(tasks[..], q[..pos])
      invariant forall k :: pos <= k < len ==> buf[k] == q[k]
    {
      assert q[..pos + 1][..pos] == q[..pos];
      var v := buf[pos];
      if v < tasks.Length && tasks[v].state == Ready {
        buf[n] := v;
        n := n + 1;
        assert buf[..n] == KeepReady(tasks[..], q[..pos]) + [v];
      }
    }
    assert q[..len] == q;
  }

  /** Swap-removal at one position: remove_reply_waiter_at, and the end of
      dequeue_ready_highest_priority. */
  method SwapOut(buf: array<nat>, len: nat, pos: nat) returns (n: nat)
    requires pos < len <= buf.Length
    modifies buf
    ensures n == len - 1 && buf[..n] == SwapRemove(old(buf[..len]), pos)
  {
    buf[pos] := buf[len - 1];
    n := len - 1;
  }

  /** One line's share of remove_task_from_endpoints. */
  method PurgeBySwap(buf: array<nat>, len: nat, x: nat) returns (n: nat)
    requires len <= buf.Length
    modifies buf
    ensures n <= len && buf[..n] == SwapPurge(old(buf[..len]), x, 0)
  {
    n := len;
    var pos := 0;
    while pos < n
      invariant pos <= n <= len
      invariant SwapPurge(buf[..n], x, pos) == SwapPurge(old(buf[..len]), x, 0)
    {
      if buf[pos] == x {
        n := SwapOut(buf, n, pos);
      } else {
        pos := pos + 1;
      }
    }
  }

  /** The choice in dequeue_ready_highest_priority; it is given up when the first entry is out
      of range. */
  method FindBest(tasks: array<Task>, buf: array<nat>, len: nat) returns (r: Option<nat>)
    requires 0 < len <= buf.Length
    ensures r == None <==> buf[0] >= tasks.Length
    ensures r.Some? ==> r.value < len && r.value == BestPos(tasks[..], buf[..len], len) && buf[r.value] < tasks.Length
  {
    ghost var q := buf[..len];
    if buf[0] >= tasks.Length { return None; }
    var best := 0;
    var priority := tasks[buf[0]].priority;
    for pos := 1 to len
      invariant best < pos && best == BestPos(tasks[..], q, pos)
      invariant buf[best] < tasks.Length && priority == tasks[buf[best]].priority
    {
      var v := buf[pos];
      if v < tasks.Length && tasks[v].priority > priority {
        priority := tasks[v].priority;
        best := pos;
      }
    }
    r := Some(best);
  }
}
