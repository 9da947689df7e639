/** ipc_reply: what it does, whom it loses, and exactly when it loses nobody. */
module ReplyPath {
  import opened KernelTypes
  import opened KernelSpec
  import opened Counting
  import opened Slots
  import opened Invariant
  import opened Links
  import opened IpcPaths

  /** Position of the last entry that awaits a reply from `partner`, or the line's length. */
  function LastMatch(s: State, q: seq<nat>, partner: TaskId, e: nat): (k: nat)
    ensures k <= |q|
    ensures k < |q| ==> AwaitsReply(s, q[k], partner, e)
    ensures k < |q| ==> forall j :: k < j < |q| ==> !AwaitsReply(s, q[j], partner, e)
    ensures k == |q| ==> forall j :: 0 <= j < |q| ==> !AwaitsReply(s, q[j], partner, e)
  {
    if q == [] then 0
    else if AwaitsReply(s, q[|q| - 1], partner, e) then |q| - 1
    else
      var k := LastMatch(s, q[..|q| - 1], partner, e);
      if k == |q| - 1 then |q| else k
  }

  /** The scan keeps what is before the match, and remembers the first entry it dropped. */
  lemma {:induction false} TakeScanForm(s: State, q: seq<nat>, partner: TaskId, e: nat, dropped: Option<nat>)
    requires forall j :: 0 <= j < |q| ==> q[j] < |s.tasks| && s.tasks[q[j]].state != Dead
    ensures var k := LastMatch(s, q, partner, e);
      var first := if dropped.Some? || q == [] || k == |q| - 1 then dropped else Some(q[|q| - 1]);
      TakeScan(s, q, partner, e, dropped)
      == if k < |q| then (q[..k], Some(q[k]), first) else ([], None, first)
  {
    if q != [] && !AwaitsReply(s, q[|q| - 1], partner, e) {
      var rest := q[..|q| - 1];
      var d := if dropped.Some? then dropped else Some(q[|q| - 1]);
      TakeScanForm(s, rest, partner, e, d);
      var k := LastMatch(s, rest, partner, e);
      if k < |rest| { assert rest[..k] == q[..k]; }
    }
  }

  /** Waiter `x` at position `k` of the line gets its answer. */
  function Answered(s: State, e: nat, k: nat, msg: Word): State
    requires Shape(s) && e < |s.endpoints| && k < |s.endpoints[e].repliers| && s.endpoints[e].repliers[k] < |s.tasks|
  {
    var ep := s.endpoints[e];
    var x := ep.repliers[k];
    var me := s.tasks[s.current].id;
    s.(tasks := s.tasks[x := Woken(s.tasks[x]).(lastReply := Some(msg))],
       ready := s.ready + [x],
       endpoints := s.endpoints[e := ep.(repliers := ep.repliers[..k])],
       counters := s.counters.(replyDelivered := s.counters.replyDelivered + 1),
       history := s.history + [IpcReplyCalled(me, e, s.tasks[x].id)] + [TaskStateChanged(s.tasks[x].id, Ready)]
                  + [IpcReplyDelivered(me, s.tasks[x].id, e)])
  }

  /** Nobody in the line awaits the caller: the line is emptied, and only the entry at its
      end is woken, with an error. */
  function Misdirected(s: State, e: nat): State
    requires Shape(s) && e < |s.endpoints|
    requires forall k :: 0 <= k < |s.endpoints[e].repliers| ==> s.endpoints[e].repliers[k] < |s.tasks|
  {
    var ep := s.endpoints[e];
    if ep.repliers == [] then s
    else
      var x := ep.repliers[|ep.repliers| - 1];
      s.(tasks := s.tasks[x := Woken(s.tasks[x]).(pendingMsg := None, lastReply := Some(IPC_ERR_DEAD_PARTNER))],
         ready := s.ready + [x],
         endpoints := s.endpoints[e := ep.(repliers := [])],
         history := s.history + [TaskStateChanged(s.tasks[x].id, Ready)])
  }

  lemma WaitersOk(s: State, e: nat)
    requires Settled(s) && e < |s.endpoints|
    ensures forall k :: 0 <= k < |s.endpoints[e].repliers| ==>
      var x := s.endpoints[e].repliers[k];
      0 < x < |s.tasks| && s.tasks[x].state == Blocked && s.tasks[x].reason.Some? && s.tasks[x].reason.value.IpcReply?
      && s.tasks[x].reason.value.ep == e && x !in s.ready
  {
    forall k | 0 <= k < |s.endpoints[e].repliers|
      ensures var x := s.endpoints[e].repliers[k];
      0 < x < |s.tasks| && s.tasks[x].state == Blocked && s.tasks[x].reason.Some? && s.tasks[x].reason.value.IpcReply?
      && s.tasks[x].reason.value.ep == e && x !in s.ready
    {
      var x := s.endpoints[e].repliers[k];
      assert x in Members(s, AtReply(e));
      assert x !in Members(s, AtReady);
    }
  }

  lemma AnsweredForm(s: State, e: nat, msg: Word, k: nat)
    requires Settled(s) && e < |s.endpoints|
    requires k == LastMatch(s, s.endpoints[e].repliers, s.tasks[s.current].id, e) && k < |s.endpoints[e].repliers|
    ensures s.endpoints[e].repliers[k] < |s.tasks|
    ensures ReplyOpen(s, e, msg) == Answered(s, e, k, msg)
  {
    WaitersOk(s, e);
    var ep := s.endpoints[e];
    var x := ep.repliers[k];
    var me := s.tasks[s.current].id;
    TakeScanForm(s, ep.repliers, me, e, None);
    assert x !in Members(s, AtReady);
    Room(s, AtReady, x);
    var s2 := Emit(SetEp(s, e, ep.(repliers := ep.repliers[..k])), IpcReplyCalled(me, e, s.tasks[x].id));
    var s2' := SetReply(s2, x, msg);
    WakeForm(s2', x);
    SetTaskTwice(s2, x, s2'.tasks[x], Woken(s2'.tasks[x]));
  }

  lemma MisdirectedForm(s: State, e: nat, msg: Word)
    requires Settled(s) && e < |s.endpoints|
    requires LastMatch(s, s.endpoints[e].repliers, s.tasks[s.current].id, e) == |s.endpoints[e].repliers|
    ensures forall k :: 0 <= k < |s.endpoints[e].repliers| ==> s.endpoints[e].repliers[k] < |s.tasks|
    ensures ReplyOpen(s, e, msg) == Misdirected(s, e)
  {
    WaitersOk(s, e);
    var ep := s.endpoints[e];
    TakeScanForm(s, ep.repliers, s.tasks[s.current].id, e, None);
    var s1 := SetEp(s, e, ep.(repliers := []));
    if ep.repliers == [] {
      assert s1.endpoints == s.endpoints;
    } else {
      var x := ep.repliers[|ep.repliers| - 1];
      assert x !in Members(s, AtReady);
      Room(s, AtReady, x);
      var t := s.tasks[x].(pendingMsg := None, reason := None, lastReply := Some(IPC_ERR_DEAD_PARTNER));
      WakeForm(SetTask(s1, x, t), x);
      SetTaskTwice(s1, x, t, Woken(t));
    }
  }

  /** Cutting a reply line keeps the links: only the backward half for reply lines is lost. */
  lemma TrimLinks(s: State, e: nat, k: nat)
    requires Linked(s) && e < |s.endpoints| && k <= |s.endpoints[e].repliers|
    ensures Linked(s.(endpoints := s.endpoints[e := s.endpoints[e].(repliers := s.endpoints[e].repliers[..k])]))
  {
    var q := s.endpoints[e].repliers;
    var r := s.(endpoints := s.endpoints[e := s.endpoints[e].(repliers := q[..k])]);
    assert forall sl: Slot :: sl != AtReply(e) ==> Members(r, sl) == Members(s, sl);
    assert Distinct(Members(s, AtReply(e)));
    forall sl: Slot, i: nat | i in Members(r, sl) ensures i in Members(s, sl) {}
    forall j: nat | j < |r.tasks| && NeedsSlot(r.tasks[j], j) ensures j in Members(r, Home(r.tasks[j], j).value) {
      assert NeedsSlot(s.tasks[j], j);
      assert j in Members(s, Home(s.tasks[j], j).value);
    }
    forall sl: Slot ensures Distinct(Members(r, sl)) {
      assert Distinct(Members(s, sl));
    }
  }

  /** The task at the end of a reply line becomes ready. */
  lemma LineEndLinks(m: State, r: State, e: nat, x: nat)
    requires Linked(m) && e < |m.endpoints| && m.endpoints[e].repliers != [] && 0 < x < |m.tasks|
    requires m.endpoints[e].repliers[|m.endpoints[e].repliers| - 1] == x
    requires |r.tasks| == |m.tasks| && r.tasks == m.tasks[x := r.tasks[x]] && r.tasks[x].state == Ready
    requires r.ready == m.ready + [x]
    requires r.endpoints == m.endpoints[e := m.endpoints[e].(repliers := m.endpoints[e].repliers[..|m.endpoints[e].repliers| - 1])]
    ensures Linked(r)
  {
    assert x in Members(m, AtReply(e));
    assert Distinct(Members(m, AtReply(e)));
    WithoutLast(m.endpoints[e].repliers);
    Move(m, r, x, Some(AtReply(e)), Some(AtReady));
  }

  lemma AnsweredLinks(s: State, e: nat, k: nat, msg: Word)
    requires Shape(s) && Linked(s) && e < |s.endpoints| && k < |s.endpoints[e].repliers|
    requires 0 < s.endpoints[e].repliers[k] < |s.tasks|
    ensures Linked(Answered(s, e, k, msg))
  {
    var q := s.endpoints[e].repliers;
    TrimLinks(s, e, k + 1);
    var m := s.(endpoints := s.endpoints[e := s.endpoints[e].(repliers := q[..k + 1])]);
    var r := Answered(s, e, k, msg);
    assert q[..k + 1][..k] == q[..k];
    assert m.endpoints[e := m.endpoints[e].(repliers := q[..k])] == r.endpoints;
    LineEndLinks(m, r, e, q[k]);
  }

  lemma MisdirectedLinks(s: State, e: nat)
    requires Settled(s) && e < |s.endpoints| && s.endpoints[e].repliers != []
    requires forall k :: 0 <= k < |s.endpoints[e].repliers| ==> s.endpoints[e].repliers[k] < |s.tasks|
    ensures Linked(Misdirected(s, e))
  {
    WaitersOk(s, e);
    var q := s.endpoints[e].repliers;
    TrimLinks(s, e, 0);
    var m := s.(endpoints := s.endpoints[e := s.endpoints[e].(repliers := q[..0])]);
    Move(m, Misdirected(s, e), q[|q| - 1], Some(AtReply(e)), Some(AtReady));
  }

  /** One waiter leaves a reply line that may also get shorter otherwise. */
  lemma WokenSettles(s: State, r: State, e: nat, x: nat)
    requires Settled(s) && e < |s.endpoints| && 0 < x < |s.tasks| && x in s.endpoints[e].repliers
    requires Linked(r) && r.current == s.current && r.config == s.config
    requires |r.tasks| == |s.tasks| && |r.endpoints| == |s.endpoints|
    requires SameControl(Woken(s.tasks[x]), r.tasks[x]) && r.tasks == s.tasks[x := r.tasks[x]]
    requires r.endpoints == s.endpoints[e := s.endpoints[e].(repliers := r.endpoints[e].repliers)]
    requires forall y: nat :: y in r.endpoints[e].repliers ==> y in s.endpoints[e].repliers && y != x
    ensures Settled(r)
    ensures Core(s) ==> Core(r)
  {
    assert x in Members(s, AtReply(e));
    forall f: nat, y: nat | y in Members(r, AtReply(f))
      ensures y in Members(s, AtReply(f)) && y < |s.tasks| && r.tasks[y].reason == s.tasks[y].reason
    {
      assert y in Members(s, AtReply(f));
      assert y != x;
    }
    PartnersKept(s, r);
  }

  lemma AnsweredCore(s: State, e: nat, k: nat, msg: Word)
    requires Calling(s, e) && k < |s.endpoints[e].repliers|
    ensures s.endpoints[e].repliers[k] < |s.tasks| && Core(Answered(s, e, k, msg))
  {
    WaitersOk(s, e);
    var q := s.endpoints[e].repliers;
    AnsweredLinks(s, e, k, msg);
    assert Distinct(Members(s, AtReply(e)));
    var r := Answered(s, e, k, msg);
    assert forall y: nat :: y in q[..k] ==> y in q && y != q[k];
    WokenSettles(s, r, e, q[k]);
  }

  lemma MisdirectedCore(s: State, e: nat)
    requires Calling(s, e)
    ensures forall k :: 0 <= k < |s.endpoints[e].repliers| ==> s.endpoints[e].repliers[k] < |s.tasks|
    ensures Core(Misdirected(s, e))
  {
    WaitersOk(s, e);
    var q := s.endpoints[e].repliers;
    if q != [] {
      var x := q[|q| - 1];
      var r := Misdirected(s, e);
      MisdirectedLinks(s, e);
      assert TaskOk(s.tasks[x], x, |s.tasks|);
      assert s.tasks[x].pendingMsg == None;
      assert SameControl(Woken(s.tasks[x]), r.tasks[x]);
      assert r.endpoints[e].repliers == [];
      WokenSettles(s, r, e, x);
    }
  }

  /** ipc_reply keeps the invariant, whoever waits and however many tasks there are. */
  lemma ReplyOpenCore(s: State, e: nat, msg: Word)
    requires Calling(s, e)
    ensures Core(ReplyOpen(s, e, msg))
  {
    var k := LastMatch(s, s.endpoints[e].repliers, s.tasks[s.current].id, e);
    if k < |s.endpoints[e].repliers| {
      AnsweredForm(s, e, msg, k);
      AnsweredCore(s, e, k, msg);
    } else {
      MisdirectedForm(s, e, msg);
      MisdirectedCore(s, e);
    }
  }

  // ---------------------------------------------------------------------------
  // Strays
  // ---------------------------------------------------------------------------

  /** The entries that a reply on `e` drops without waking them. */
  function Lost(s: State, e: nat): (r: seq<nat>)
    requires Shape(s) && e < |s.endpoints|
  {
    var q := s.endpoints[e].repliers;
    var k := LastMatch(s, q, s.tasks[s.current].id, e);
    if k < |q| then q[k + 1..] else if q == [] then [] else q[..|q| - 1]
  }

  lemma SplitAt(q: seq<nat>, k: nat, i: nat)
    requires Distinct(q) && k < |q|
    ensures i in q[k + 1..] <==> i in q && i !in q[..k] && i != q[k]
    ensures i in q[..k] ==> i in q && i != q[k]
  {
    assert q == q[..k] + [q[k]] + q[k + 1..];
    if i in q[k + 1..] {
      var j :| 0 <= j < |q[k + 1..]| && q[k + 1..][j] == i;
      assert q[k + 1 + j] == i;
    }
  }

  lemma AnsweredStrays(s: State, e: nat, k: nat, msg: Word, i: nat)
    requires Settled(s) && e < |s.endpoints| && k < |s.endpoints[e].repliers| && s.endpoints[e].repliers[k] < |s.tasks|
    ensures IsStray(Answered(s, e, k, msg), i) <==> IsStray(s, i) || i in s.endpoints[e].repliers[k + 1..]
  {
    var q := s.endpoints[e].repliers;
    assert Distinct(Members(s, AtReply(e)));
    SplitAt(q, k, i);
    StrayAfter(s, Answered(s, e, k, msg), e, q[k], i);
    assert q[k] in Members(s, AtReply(e));
    assert !IsStray(s, q[k]);
  }

  lemma LastSplit(q: seq<nat>, i: nat)
    requires Distinct(q) && q != []
    ensures i in q[..|q| - 1] <==> i in q && i != q[|q| - 1]
  {
    var k := |q| - 1;
    SplitAt(q, k, i);
    assert q == q[..k] + [q[k]];
  }

  lemma MisdirectedStrays(s: State, e: nat, i: nat)
    requires Settled(s) && e < |s.endpoints| && s.endpoints[e].repliers != []
    requires forall k :: 0 <= k < |s.endpoints[e].repliers| ==> s.endpoints[e].repliers[k] < |s.tasks|
    ensures IsStray(Misdirected(s, e), i) <==>
      IsStray(s, i) || i in s.endpoints[e].repliers[..|s.endpoints[e].repliers| - 1]
  {
    var q := s.endpoints[e].repliers;
    var k := |q| - 1;
    assert Distinct(Members(s, AtReply(e)));
    LastSplit(q, i);
    StrayAfter(s, Misdirected(s, e), e, q[k], i);
    assert q[k] in Members(s, AtReply(e));
    assert !IsStray(s, q[k]);
  }

  /** A reply makes strays of exactly the waiters it loses. */
  lemma ReplyStrays(s: State, e: nat, msg: Word, i: nat)
    requires Calling(s, e)
    ensures IsStray(ReplyOpen(s, e, msg), i) <==> IsStray(s, i) || i in Lost(s, e)
  {
    var q := s.endpoints[e].repliers;
    var k := LastMatch(s, q, s.tasks[s.current].id, e);
    if k < |q| {
      AnsweredForm(s, e, msg, k);
      AnsweredStrays(s, e, k, msg, i);
    } else {
      MisdirectedForm(s, e, msg);
      if q != [] { MisdirectedStrays(s, e, i); }
    }
  }

  lemma StrayAfter(s: State, r: State, e: nat, x: nat, i: nat)
    requires Settled(s) && e < |s.endpoints| && x < |s.tasks| && x in s.endpoints[e].repliers
    requires |r.tasks| == |s.tasks| && |r.endpoints| == |s.endpoints|
    requires r.tasks[x].state == Ready && r.tasks == s.tasks[x := r.tasks[x]]
    requires r.endpoints == s.endpoints[e := s.endpoints[e].(repliers := r.endpoints[e].repliers)]
    requires forall y: nat :: y in r.endpoints[e].repliers ==> y in s.endpoints[e].repliers
    ensures IsStray(r, i) <==>
      i != x && (IsStray(s, i) || (i in s.endpoints[e].repliers && i !in r.endpoints[e].repliers))
  {
    assert x in Members(s, AtReply(e));
    assert i in s.endpoints[e].repliers ==> i in Members(s, AtReply(e));
  }

  /** A reply is safe when the line's last waiter awaits the caller, or nobody else waits. */
  predicate ReplySafe(s: State, e: nat)
    requires Shape(s) && e < |s.endpoints|
  {
    var q := s.endpoints[e].repliers;
    |q| <= 1 || AwaitsReply(s, q[|q| - 1], s.tasks[s.current].id, e)
  }

  /** ipc_reply leaves no task stranded if and only if the reply was safe. */
  lemma ReplyStrandsIff(s: State, e: nat, msg: Word)
    requires Calling(s, e) && NoStray(s)
    ensures NoStray(ReplyOpen(s, e, msg)) <==> ReplySafe(s, e)
  {
    var r := ReplyOpen(s, e, msg);
    var q := s.endpoints[e].repliers;
    var lost := Lost(s, e);
    forall i: nat ensures IsStray(r, i) <==> i in lost {
      ReplyStrays(s, e, msg, i);
    }
    WaitersOk(s, e);
    if ReplySafe(s, e) {
      assert lost == [];
    } else {
      assert IsStray(r, lost[0]);
    }
  }

  // ---------------------------------------------------------------------------
  // Misdirected replies
  // ---------------------------------------------------------------------------

  predicate Wakes(s: State, r: State, x: nat) {
    x < |s.tasks| && |r.tasks| == |s.tasks| && s.tasks[x].state == Blocked && r.tasks[x].state == Ready
  }

  /** Between `s` and `r` the log says that a reply has arrived. */
  predicate LogsReply(s: State, r: State) {
    exists k: nat {:trigger r.history[k]} :: |s.history| <= k < |r.history| && r.history[k].IpcReplyDelivered?
  }

  /** Somebody is in the line, but nobody there awaits the caller. */
  predicate NobodyAsked(s: State, e: nat)
    requires Shape(s) && e < |s.endpoints|
  {
    var q := s.endpoints[e].repliers;
    q != [] && forall k: nat {:trigger q[k]} :: k < |q| ==> !AwaitsReply(s, q[k], s.tasks[s.current].id, e)
  }

  lemma MisdirectedEffect(s: State, e: nat)
    requires Calling(s, e) && s.endpoints[e].repliers != []
    requires forall k :: 0 <= k < |s.endpoints[e].repliers| ==> s.endpoints[e].repliers[k] < |s.tasks|
    ensures var q := s.endpoints[e].repliers;
      var x := q[|q| - 1];
      var r := Misdirected(s, e);
      Wakes(s, r, x) && !LogsReply(s, r) && r.tasks[x].lastReply == Some(IPC_ERR_DEAD_PARTNER) && PartnerLives(s, s.tasks[x])
  {
    WaitersOk(s, e);
    var x := s.endpoints[e].repliers[|s.endpoints[e].repliers| - 1];
    assert x in Members(s, AtReply(e));
  }

  lemma AnsweredEffect(s: State, e: nat, k: nat, msg: Word)
    requires Shape(s) && e < |s.endpoints| && k < |s.endpoints[e].repliers| && s.endpoints[e].repliers[k] < |s.tasks|
    ensures LogsReply(s, Answered(s, e, k, msg))
  {
    var r := Answered(s, e, k, msg);
    assert r.history[|s.history| + 2].IpcReplyDelivered?;
  }

  /** A reply wakes a waiter without having delivered a reply if and only if the line is not
      empty and nobody in it awaits the caller. The waiter at the end of the line then gets the
      error for a dead partner, although its partner lives. */
  lemma MisdirectsIff(s: State, e: nat, msg: Word)
    requires Calling(s, e)
    ensures var r := ReplyOpen(s, e, msg);
      ((exists x: nat :: Wakes(s, r, x)) && !LogsReply(s, r)) <==> NobodyAsked(s, e)
    ensures NobodyAsked(s, e) ==>
      var q := s.endpoints[e].repliers;
      var x := q[|q| - 1];
      var r := ReplyOpen(s, e, msg);
      Wakes(s, r, x) && r.tasks[x].lastReply == Some(IPC_ERR_DEAD_PARTNER) && PartnerLives(s, s.tasks[x])
  {
    var q := s.endpoints[e].repliers;
    var k := LastMatch(s, q, s.tasks[s.current].id, e);
    if k < |q| {
      AnsweredForm(s, e, msg, k);
      AnsweredEffect(s, e, k, msg);
    } else {
      MisdirectedForm(s, e, msg);
      if q != [] { MisdirectedEffect(s, e); }
    }
  }
}
