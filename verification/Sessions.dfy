/** The event history of every task is a sequence of sessions: a send, its delivery, its
    answer; or a send that is released early because an endpoint closed, a partner died or
    the wait was broken off. */
module Sessions {
  import opened KernelTypes
  import opened EventLists

  /** Where a sender stands. `Broken` is reached by any event out of order. */
  datatype Session =
    | AtRest
    | Called(ep: nat, msg: Word)
    | Awaiting(partner: TaskId, ep: nat, msg: Word)
    | Answering(partner: TaskId, ep: nat)
    | Over
    | Broken

  function Advance(x: Session, ev: Event, id: TaskId): Session {
    match ev
    case IpcSendCalled(t, e, msg) => if t != id then x else if x == AtRest then Called(e, msg) else Broken
    case IpcDelivered(from, to, e, msg) =>
      if from != id then x else if x == Called(e, msg) then Awaiting(to, e, msg) else Broken
    case IpcReplyCalled(t, e, to) =>
      if to != id then x else if x.Awaiting? && x.partner == t && x.ep == e then Answering(t, e) else Broken
    case IpcReplyDelivered(from, to, e) => if to != id then x else if x == Answering(from, e) then AtRest else Broken
    case TaskStateChanged(t, st) => if t == id && st == Ready && (x.Called? || x.Awaiting?) then AtRest else x
    case TaskKilled(t, _) => if t == id && x != Broken then Over else x
    case _ => x
  }

  /** The session of task `id` after history `h`. */
  function SessionOf(h: seq<Event>, id: TaskId): Session {
    if h == [] then AtRest else Advance(SessionOf(h[..|h| - 1], id), h[|h| - 1], id)
  }

  lemma Extend(h: seq<Event>, ev: Event, id: TaskId)
    ensures SessionOf(h + [ev], id) == Advance(SessionOf(h, id), ev, id)
  {
    assert (h + [ev])[..|h|] == h;
  }

  // ---------------------------------------------------------------------------
  // What an unbroken session says about the positions in the history
  // ---------------------------------------------------------------------------

  /** Events that move the session of `id`. */
  predicate Concerns(ev: Event, id: TaskId) {
    match ev
    case IpcSendCalled(t, _, _) => t == id
    case IpcDelivered(from, _, _, _) => from == id
    case IpcReplyCalled(_, _, to) => to == id
    case IpcReplyDelivered(_, to, _) => to == id
    case TaskStateChanged(t, st) => t == id && st == Ready
    case TaskKilled(t, _) => t == id
    case _ => false
  }

  /** From position `j` on, nothing moves the session of `id`. */
  predicate QuietFrom(h: seq<Event>, id: TaskId, j: nat) {
    forall k :: j <= k < |h| ==> !Concerns(h[k], id)
  }

  /** A session that is open on a call or a delivery has that event as its last move. */
  lemma {:induction false} OpenSession(h: seq<Event>, id: TaskId) returns (j: nat)
    requires SessionOf(h, id).Called? || SessionOf(h, id).Awaiting?
    ensures j < |h| && QuietFrom(h, id, j + 1)
    ensures match SessionOf(h, id)
      case Called(e, msg) => h[j] == IpcSendCalled(id, e, msg)
      case Awaiting(p, e, msg) => h[j] == IpcDelivered(id, p, e, msg)
      case _ => true
  {
    var init := h[..|h| - 1];
    var ev := h[|h| - 1];
    if Concerns(ev, id) {
      j := |h| - 1;
    } else {
      j := OpenSession(init, id);
      forall k | j + 1 <= k < |h| ensures !Concerns(h[k], id) {
        if k < |h| - 1 { assert h[k] == init[k]; }
      }
    }
  }

  lemma {:induction false} PrefixUnbroken(h: seq<Event>, id: TaskId, k: nat)
    requires k <= |h| && SessionOf(h, id) != Broken
    ensures SessionOf(h[..k], id) != Broken
    decreases |h| - k
  {
    if k < |h| {
      PrefixUnbroken(h, id, k + 1);
      assert h[..k + 1][..k] == h[..k];
    } else {
      assert h[..k] == h;
    }
  }

  lemma At(h: seq<Event>, id: TaskId, k: nat)
    requires k < |h| && SessionOf(h, id) != Broken
    ensures SessionOf(h[..k + 1], id) == Advance(SessionOf(h[..k], id), h[k], id) != Broken
  {
    PrefixUnbroken(h, id, k + 1);
    assert h[..k + 1][..k] == h[..k];
  }

  /** Every delivery carries the message of the sender's latest call, on the same endpoint,
      with no other move of that sender in between. */
  lemma DeliveryHasCall(h: seq<Event>, id: TaskId, k: nat) returns (j: nat)
    requires k < |h| && SessionOf(h, id) != Broken && h[k].IpcDelivered? && h[k].from == id
    ensures j < k && h[j] == IpcSendCalled(id, h[k].ep, h[k].msg)
    ensures QuietFrom(h[..k], id, j + 1)
  {
    At(h, id, k);
    j := OpenSession(h[..k], id);
  }

  /** Every reply call answers the delivery that is the sender's latest move, between the
      same pair on the same endpoint. */
  lemma ReplyHasDelivery(h: seq<Event>, id: TaskId, k: nat) returns (j: nat)
    requires k < |h| && SessionOf(h, id) != Broken && h[k].IpcReplyCalled? && h[k].to == id
    ensures j < k && h[j].IpcDelivered? && h[j].from == id && h[j].to == h[k].task && h[j].ep == h[k].ep
    ensures QuietFrom(h[..k], id, j + 1)
  {
    At(h, id, k);
    j := OpenSession(h[..k], id);
  }

  /** An answering session began with a reply call; since then only wake-ups moved it. */
  lemma {:induction false} OpenAnswer(h: seq<Event>, id: TaskId) returns (j: nat)
    requires SessionOf(h, id).Answering?
    ensures j < |h| && h[j] == IpcReplyCalled(SessionOf(h, id).partner, SessionOf(h, id).ep, id)
    ensures forall k :: j < k < |h| ==> Concerns(h[k], id) ==> h[k].TaskStateChanged?
  {
    var init := h[..|h| - 1];
    var ev := h[|h| - 1];
    if ev.IpcReplyCalled? && ev.to == id {
      j := |h| - 1;
    } else {
      j := OpenAnswer(init, id);
      forall k | j < k < |h| ensures Concerns(h[k], id) ==> h[k].TaskStateChanged? {
        if k < |h| - 1 { assert h[k] == init[k]; }
      }
    }
  }

  /** Every delivered reply completes one reply call to the same task on the same endpoint,
      and through it one delivery; no second reply can complete the same call. */
  lemma DeliveredReplyHasCall(h: seq<Event>, id: TaskId, k: nat) returns (j: nat, d: nat)
    requires k < |h| && SessionOf(h, id) != Broken && h[k].IpcReplyDelivered? && h[k].to == id
    ensures d < j < k && h[j] == IpcReplyCalled(h[k].from, h[k].ep, id)
    ensures forall m :: j < m < k ==> Concerns(h[m], id) ==> h[m].TaskStateChanged?
    ensures h[d].IpcDelivered? && h[d].from == id && h[d].to == h[k].from && h[d].ep == h[k].ep
    ensures forall m :: d < m < j ==> !Concerns(h[m], id)
  {
    At(h, id, k);
    j := OpenAnswer(h[..k], id);
    d := ReplyHasDelivery(h, id, j);
    forall m | d < m < j ensures !Concerns(h[m], id) { assert h[..j][m] == h[m]; }
    forall m | j < m < k ensures Concerns(h[m], id) ==> h[m].TaskStateChanged? { assert h[..k][m] == h[m]; }
  }

  /** A task at rest: its latest move, if any, was a completed reply or a wake-up. */
  lemma {:induction false} RestSince(h: seq<Event>, id: TaskId) returns (j: int)
    requires SessionOf(h, id) == AtRest
    ensures -1 <= j < |h| && QuietFrom(h, id, (j + 1) as nat)
    ensures j >= 0 ==> Concerns(h[j], id) && (h[j].IpcReplyDelivered? || h[j].TaskStateChanged?)
  {
    if h == [] {
      j := -1;
    } else if Concerns(h[|h| - 1], id) {
      j := |h| - 1;
    } else {
      var init := h[..|h| - 1];
      j := RestSince(init, id);
      forall k | j + 1 <= k < |h| ensures !Concerns(h[k], id) {
        if k < |h| - 1 { assert h[k] == init[k]; }
      }
    }
  }

  /** No new send starts before the last one was answered, closed or rescued: the latest move of
      the caller's session before a call, if any, is a reply delivered to it or its own wake-up. */
  lemma CallStartsAtRest(h: seq<Event>, id: TaskId, k: nat) returns (j: int)
    requires k < |h| && SessionOf(h, id) != Broken && h[k].IpcSendCalled? && h[k].task == id
    ensures -1 <= j < k && QuietFrom(h[..k], id, (j + 1) as nat)
    ensures forall i: nat :: i < k && h[i].IpcSendCalled? && h[i].task == id ==> i < j
    ensures j >= 0 ==> Concerns(h[j], id) && (h[j].IpcReplyDelivered? || h[j].TaskStateChanged?)
  {
    At(h, id, k);
    j := RestSince(h[..k], id);
    forall i: nat | i < k && h[i].IpcSendCalled? && h[i].task == id ensures i < j {
      assert h[..k][i] == h[i] && Concerns(h[i], id);
    }
  }

  // ---------------------------------------------------------------------------
  // Runs of events that the kernel logs together
  // ---------------------------------------------------------------------------

  /** The session of `id` after events are appended one by one. */
  lemma Extend2(h: seq<Event>, a: Event, b: Event, id: TaskId)
    ensures SessionOf(h + [a] + [b], id) == Advance(Advance(SessionOf(h, id), a, id), b, id)
  {
    Extend(h, a, id);
    Extend(h + [a], b, id);
  }

  lemma Extend3(h: seq<Event>, a: Event, b: Event, c: Event, id: TaskId)
    ensures SessionOf(h + [a] + [b] + [c], id)
         == Advance(Advance(Advance(SessionOf(h, id), a, id), b, id), c, id)
  {
    Extend2(h, a, b, id);
    Extend(h + [a] + [b], c, id);
  }

  lemma LastReadyEvent(h: seq<Event>, l: seq<nat>)
    requires l != []
    ensures h + ReadyEvents(l) == (h + ReadyEvents(l[..|l| - 1])) + [ReadyEvent(l[|l| - 1])]
  {
    assert ReadyEvents(l) == ReadyEvents(l[..|l| - 1]) + [ReadyEvent(l[|l| - 1])];
  }

  /** A session once its task may have been woken. */
  function Released(x: Session, woken: bool): Session {
    if woken && (x.Called? || x.Awaiting?) then AtRest else x
  }

  /** Wake-ups release exactly the sessions of the tasks they name. */
  lemma {:induction false} WakeEvents(h: seq<Event>, l: seq<nat>, j: nat)
    ensures SessionOf(h + ReadyEvents(l), j + 1) == Released(SessionOf(h, j + 1), j in l)
  {
    if l == [] {
      assert h + ReadyEvents(l) == h;
    } else {
      var init := l[..|l| - 1];
      var last := l[|l| - 1];
      WakeEvents(h, init, j);
      LastReadyEvent(h, l);
      Extend(h + ReadyEvents(init), ReadyEvent(last), j + 1);
      assert j in l <==> j in init || j == last;
    }
  }

  /** From `h` to `h'` the session of `id` has moved to `y`, and no other session has moved. */
  ghost predicate MovesTo(h: seq<Event>, h': seq<Event>, id: TaskId, y: Session) {
    forall j: TaskId {:trigger SessionOf(h', j)} :: SessionOf(h', j) == if j == id then y else SessionOf(h, j)
  }

  /** No session has moved. */
  ghost predicate Unmoved(h: seq<Event>, h': seq<Event>) {
    forall j: TaskId {:trigger SessionOf(h', j)} :: SessionOf(h', j) == SessionOf(h, j)
  }

  lemma UnmovedChain(h: seq<Event>, m: seq<Event>, h': seq<Event>)
    requires Unmoved(h, m) && Unmoved(m, h')
    ensures Unmoved(h, h')
  {
    forall j: TaskId ensures SessionOf(h', j) == SessionOf(h, j) { assert SessionOf(m, j) == SessionOf(h, j); }
  }

  /** A receiver `a` starts to wait. */
  lemma ListenHistory(h: seq<Event>, a: TaskId, e: nat)
    ensures Unmoved(h, h + [TaskStateChanged(a, Blocked)] + [IpcRecvBlocked(a, e)])
  {
    var h' := h + [TaskStateChanged(a, Blocked)] + [IpcRecvBlocked(a, e)];
    forall j: TaskId ensures SessionOf(h', j) == SessionOf(h, j) {
      Extend2(h, TaskStateChanged(a, Blocked), IpcRecvBlocked(a, e), j);
    }
  }

  /** A sender `a` calls and queues. */
  lemma QueueHistory(h: seq<Event>, a: TaskId, e: nat, msg: Word)
    requires SessionOf(h, a) == AtRest
    ensures MovesTo(h, h + [IpcSendCalled(a, e, msg)] + [TaskStateChanged(a, Blocked)] + [IpcSendBlocked(a, e)], a, Called(e, msg))
  {
    var h' := h + [IpcSendCalled(a, e, msg)] + [TaskStateChanged(a, Blocked)] + [IpcSendBlocked(a, e)];
    forall j: TaskId ensures SessionOf(h', j) == if j == a then Called(e, msg) else SessionOf(h, j) {
      Extend3(h, IpcSendCalled(a, e, msg), TaskStateChanged(a, Blocked), IpcSendBlocked(a, e), j);
    }
  }

  /** Queued sender `a` is taken by receiver `b`. */
  lemma TakeHistory(h: seq<Event>, a: TaskId, b: TaskId, e: nat, msg: Word)
    requires SessionOf(h, a) == Called(e, msg)
    ensures MovesTo(h, h + [TaskStateChanged(a, Blocked)] + [IpcDelivered(a, b, e, msg)], a, Awaiting(b, e, msg))
  {
    var h' := h + [TaskStateChanged(a, Blocked)] + [IpcDelivered(a, b, e, msg)];
    forall j: TaskId ensures SessionOf(h', j) == if j == a then Awaiting(b, e, msg) else SessionOf(h, j) {
      Extend2(h, TaskStateChanged(a, Blocked), IpcDelivered(a, b, e, msg), j);
    }
  }

  /** A sender `a` hands its message straight to a waiting receiver `b`. */
  lemma HandOverHistory(h: seq<Event>, a: TaskId, b: TaskId, e: nat, msg: Word)
    requires a != b && SessionOf(h, a) == AtRest && SessionOf(h, b) == AtRest
    ensures MovesTo(h, h + [IpcSendCalled(a, e, msg)] + [TaskStateChanged(b, Ready)] + [TaskStateChanged(a, Blocked)]
                       + [IpcDelivered(a, b, e, msg)], a, Awaiting(b, e, msg))
  {
    var m := h + [IpcSendCalled(a, e, msg)] + [TaskStateChanged(b, Ready)] + [TaskStateChanged(a, Blocked)];
    var h' := m + [IpcDelivered(a, b, e, msg)];
    forall j: TaskId ensures SessionOf(h', j) == if j == a then Awaiting(b, e, msg) else SessionOf(h, j) {
      Extend3(h, IpcSendCalled(a, e, msg), TaskStateChanged(b, Ready), TaskStateChanged(a, Blocked), j);
      Extend(m, IpcDelivered(a, b, e, msg), j);
    }
  }

  /** `a` answers `b`, who awaits it. */
  lemma AnswerHistory(h: seq<Event>, a: TaskId, b: TaskId, e: nat)
    requires SessionOf(h, b).Awaiting? && SessionOf(h, b).partner == a && SessionOf(h, b).ep == e
    ensures MovesTo(h, h + [IpcReplyCalled(a, e, b)] + [TaskStateChanged(b, Ready)] + [IpcReplyDelivered(a, b, e)], b, AtRest)
  {
    var h' := h + [IpcReplyCalled(a, e, b)] + [TaskStateChanged(b, Ready)] + [IpcReplyDelivered(a, b, e)];
    forall j: TaskId ensures SessionOf(h', j) == if j == b then AtRest else SessionOf(h, j) {
      Extend3(h, IpcReplyCalled(a, e, b), TaskStateChanged(b, Ready), IpcReplyDelivered(a, b, e), j);
    }
  }

  /** `b` is woken while it awaits a reply. */
  lemma RescueHistory(h: seq<Event>, b: TaskId)
    requires SessionOf(h, b).Awaiting?
    ensures MovesTo(h, h + [TaskStateChanged(b, Ready)], b, AtRest)
  {
    var h' := h + [TaskStateChanged(b, Ready)];
    forall j: TaskId ensures SessionOf(h', j) == if j == b then AtRest else SessionOf(h, j) {
      Extend(h, TaskStateChanged(b, Ready), j);
    }
  }

  /** What a kill does to a session: the victim's ends, a woken task's is released. */
  function KilledSession(x: Session, victim: bool, woken: bool): Session {
    if victim then Over else Released(x, woken)
  }

  lemma KillHistory(h: seq<Event>, l: seq<nat>, i: nat, why: KillReason, j: nat)
    requires SessionOf(h, i + 1) != Broken
    ensures SessionOf(h + ReadyEvents(l) + [TaskKilled(i + 1, why)] + [TaskStateChanged(i + 1, Dead)], j + 1)
         == KilledSession(SessionOf(h, j + 1), j == i, j in l)
  {
    WakeEvents(h, l, j);
    Extend2(h + ReadyEvents(l), TaskKilled(i + 1, why), TaskStateChanged(i + 1, Dead), j + 1);
  }

  /** Dispatching a task moves no session. */
  lemma SwitchHistory(h: seq<Event>, t: TaskId)
    ensures Unmoved(h, h + [ReadyDequeued(t)] + [TaskSwitched(t)] + [TaskStateChanged(t, Running)])
    ensures Unmoved(h, h + [TaskSwitched(t)] + [TaskStateChanged(t, Running)])
  {
    forall j: TaskId
      ensures SessionOf(h + [ReadyDequeued(t)] + [TaskSwitched(t)] + [TaskStateChanged(t, Running)], j) == SessionOf(h, j)
      ensures SessionOf(h + [TaskSwitched(t)] + [TaskStateChanged(t, Running)], j) == SessionOf(h, j)
    {
      Extend3(h, ReadyDequeued(t), TaskSwitched(t), TaskStateChanged(t, Running), j);
      Extend2(h, TaskSwitched(t), TaskStateChanged(t, Running), j);
    }
  }

  /** Preempting a task at rest moves no session. */
  lemma PreemptHistory(h: seq<Event>, t: TaskId)
    requires SessionOf(h, t) == AtRest
    ensures Unmoved(h, h + [TaskStateChanged(t, Ready)] + [ReadyQueued(t)]) && Unmoved(h, h + [TaskStateChanged(t, Ready)])
  {
    forall j: TaskId
      ensures SessionOf(h + [TaskStateChanged(t, Ready)] + [ReadyQueued(t)], j) == SessionOf(h, j)
      ensures SessionOf(h + [TaskStateChanged(t, Ready)], j) == SessionOf(h, j)
    {
      Extend2(h, TaskStateChanged(t, Ready), ReadyQueued(t), j);
      Extend(h, TaskStateChanged(t, Ready), j);
    }
  }
}
