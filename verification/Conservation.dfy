/** The IPC counters account for everybody who waits. */
module Conservation {
  import opened KernelTypes
  import opened KernelSpec
  import opened Counting
  import opened Slots
  import opened Invariant
  import opened Scheduling
  import opened IpcPaths
  import opened Actions

  datatype Line = Receivers | Senders | Repliers

  function Size(ep: Endpoint, line: Line): nat {
    match line
    case Receivers => if ep.receiver.Some? then 1 else 0
    case Senders => |ep.senders|
    case Repliers => |ep.repliers|
  }

  /** How many tasks stand in the lines of one kind, over all endpoints. */
  function Total(eps: seq<Endpoint>, line: Line): nat {
    if eps == [] then 0 else Total(eps[..|eps| - 1], line) + Size(eps[|eps| - 1], line)
  }

  lemma {:induction false} TotalUpdate(eps: seq<Endpoint>, e: nat, ep: Endpoint, line: Line)
    requires e < |eps|
    ensures Total(eps[e := ep], line) == Total(eps, line) - Size(eps[e], line) + Size(ep, line)
  {
    var eps' := eps[e := ep];
    var n := |eps| - 1;
    if e == n {
      assert eps'[..n] == eps[..n];
    } else {
      assert eps'[..n] == eps[..n][e := ep];
      TotalUpdate(eps[..n], e, ep, line);
    }
  }

  /** Slow sends not yet received are queued; slow receives not yet served are waiting. */
  predicate Balanced(s: State) {
    && s.counters.sendSlow == s.counters.recvFast + Total(s.endpoints, Senders)
    && s.counters.recvSlow == s.counters.sendFast + Total(s.endpoints, Receivers)
  }

  /** Deliveries not yet answered stand in reply lines. */
  predicate Answerable(s: State) {
    s.counters.sendFast + s.counters.recvFast == s.counters.replyDelivered + Total(s.endpoints, Repliers)
  }

  lemma CallTotals(s: State, e: nat, ep: Endpoint)
    requires e < |s.endpoints|
    ensures forall line: Line ::
      Total(s.endpoints[e := ep], line) == Total(s.endpoints, line) - Size(s.endpoints[e], line) + Size(ep, line)
  {
    forall line: Line
      ensures Total(s.endpoints[e := ep], line) == Total(s.endpoints, line) - Size(s.endpoints[e], line) + Size(ep, line)
    {
      TotalUpdate(s.endpoints, e, ep, line);
    }
  }

  lemma RescheduleCounters(s: State, r: State)
    requires Settled(s) && Reschedules(s, r)
    ensures r.endpoints == s.endpoints && SameIpcCounters(s.counters, r.counters)
  {
    VacatedLinks(s);
    var v := Vacated(s);
    CompactionIdle(s);
    assert v.counters == s.counters;
    if v.ready != [] { DispatchForm(v, s.current); }
  }

  lemma ActionBalanced(s: State, a: Action, r: State)
    requires Settled(s) && Balanced(s) && Does(s, a, r) && !a.Slay?
    ensures Balanced(r)
  {
    if a.Reschedule? {
      RescheduleCounters(s, r);
    } else if a.QueueSend? || a.HandOver? {
      SendBalanced(s, a, r);
    } else if a.TakeSend? || a.Listen? {
      RecvBalanced(s, a, r);
    } else if !a.Note? {
      ReplyBalanced(s, a, r);
    }
  }

  lemma SendBalanced(s: State, a: Action, r: State)
    requires Settled(s) && Balanced(s) && Does(s, a, r) && (a.QueueSend? || a.HandOver?)
    ensures Balanced(r)
  {
    CallTotals(s, a.ep, r.endpoints[a.ep]);
  }

  lemma RecvBalanced(s: State, a: Action, r: State)
    requires Settled(s) && Balanced(s) && Does(s, a, r) && (a.TakeSend? || a.Listen?)
    ensures Balanced(r)
  {
    CallTotals(s, a.ep, r.endpoints[a.ep]);
  }

  lemma ReplyBalanced(s: State, a: Action, r: State)
    requires Settled(s) && Balanced(s) && Does(s, a, r) && (a.Answer? || a.Misdirect?)
    ensures Balanced(r)
  {
    CallTotals(s, a.ep, r.endpoints[a.ep]);
  }

  /** In every kill-free run, for any number of tasks. */
  lemma BalancedInductive()
    ensures Inductive(Balanced, PEACE)
  {
    forall s: State, a: Action, r: State {:trigger Balanced(s), Does(s, a, r)} |
      Settled(s) && Balanced(s) && !a.Slay? && Does(s, a, r) ensures Balanced(r)
    {
      ActionBalanced(s, a, r);
    }
  }

  lemma FirstTwoDiffer(q: seq<nat>)
    requires Distinct(q)
    ensures |q| >= 2 ==> q[0] != q[1]
  {
  }

  /** With two user tasks the only possible waiter of a line awaits the caller: a reply
      never meets a mismatched waiter. */
  lemma NoMismatch(s: State, e: nat)
    requires Calling(s, e) && |s.tasks| <= 3
    ensures |s.endpoints[e].repliers| <= 1
    ensures forall k :: 0 <= k < |s.endpoints[e].repliers| ==>
      AwaitsReply(s, s.endpoints[e].repliers[k], s.current + 1, e)
  {
    var q := s.endpoints[e].repliers;
    assert Distinct(Members(s, AtReply(e)));
    forall k | 0 <= k < |q| ensures q[k] == 3 - s.current && AwaitsReply(s, q[k], s.current + 1, e) {
      assert q[k] in Members(s, AtReply(e));
      assert TaskOk(s.tasks[q[k]], q[k], |s.tasks|);
    }
    FirstTwoDiffer(q);
  }

  ghost predicate TwoUserBalance(s: State) {
    |s.tasks| <= 3 && Answerable(s)
  }

  lemma ActionAnswerable(s: State, a: Action, r: State)
    requires Settled(s) && TwoUserBalance(s) && Does(s, a, r) && !a.Slay?
    ensures TwoUserBalance(r)
  {
    if a.Reschedule? {
      RescheduleCounters(s, r);
    } else if a.QueueSend? || a.HandOver? {
      SendAnswerable(s, a, r);
    } else if a.TakeSend? || a.Listen? {
      RecvAnswerable(s, a, r);
    } else if !a.Note? {
      ReplyAnswerable(s, a, r);
    }
  }

  lemma ReplyAnswerable(s: State, a: Action, r: State)
    requires Settled(s) && TwoUserBalance(s) && Does(s, a, r) && Replies(a)
    ensures TwoUserBalance(r)
  {
    NoMismatch(s, a.ep);
    CallTotals(s, a.ep, r.endpoints[a.ep]);
  }

  lemma RecvAnswerable(s: State, a: Action, r: State)
    requires Settled(s) && TwoUserBalance(s) && Does(s, a, r) && (a.TakeSend? || a.Listen?)
    ensures TwoUserBalance(r)
  {
    CallTotals(s, a.ep, r.endpoints[a.ep]);
  }

  lemma SendAnswerable(s: State, a: Action, r: State)
    requires Settled(s) && TwoUserBalance(s) && Does(s, a, r) && (a.QueueSend? || a.HandOver?)
    ensures TwoUserBalance(r)
  {
    CallTotals(s, a.ep, r.endpoints[a.ep]);
  }

  /** In every kill-free run with up to two user tasks. */
  lemma AnswerableInductive()
    ensures Inductive(TwoUserBalance, PEACE)
  {
    forall s: State, a: Action, r: State {:trigger TwoUserBalance(s), Does(s, a, r)} |
      Settled(s) && TwoUserBalance(s) && !a.Slay? && Does(s, a, r) ensures TwoUserBalance(r)
    {
      ActionAnswerable(s, a, r);
    }
  }
}
