/** Reply waits are never stranded with up to three user tasks. */
module Strays {
  import opened KernelTypes
  import opened KernelSpec
  import opened Counting
  import opened Slots
  import opened Invariant
  import opened Scheduling
  import opened IpcPaths
  import opened ReplyPath
  import opened KillPath
  import opened KillOutcome
  import opened Actions
  import opened WaitGraph

  function PartnerOf(t: Task): TaskId {
    if t.reason.Some? && t.reason.value.IpcReply? then t.reason.value.partner else 0
  }

  /** No waiter stands in a line behind the one it waits for. */
  predicate LineOrdered(s: State, q: seq<nat>) {
    forall a, b :: 0 <= a < b < |q| && q[b] < |s.tasks| ==> PartnerOf(s.tasks[q[b]]) != q[a] + 1
  }

  predicate Ordered(s: State) {
    forall e: nat {:trigger s.endpoints[e]} :: e < |s.endpoints| ==> LineOrdered(s, s.endpoints[e].repliers)
  }

  lemma LineMember(s: State, e: nat, k: nat)
    requires Settled(s) && e < |s.endpoints| && k < |s.endpoints[e].repliers|
    ensures var x := s.endpoints[e].repliers[k];
      && 0 < x < |s.tasks| && s.tasks[x].state == Blocked && s.tasks[x].reason.Some?
      && s.tasks[x].reason == Some(IpcReply(PartnerOf(s.tasks[x]), e))
      && 2 <= PartnerOf(s.tasks[x]) <= |s.tasks| && PartnerOf(s.tasks[x]) != x + 1
  {
    var x := s.endpoints[e].repliers[k];
    assert x in Members(s, AtReply(e));
    assert TaskOk(s.tasks[x], x, |s.tasks|);
  }

  lemma LineDistinct(s: State, e: nat)
    requires Settled(s) && e < |s.endpoints|
    ensures Distinct(s.endpoints[e].repliers)
  {
    assert Distinct(Members(s, AtReply(e)));
  }

  /** Three user tasks cannot all await replies: somebody would wait in a circle. */
  lemma NotAllThree(s: State)
    requires Ranked(s) && |s.tasks| == 4 && TasksOk(s)
    ensures !(PartnerOf(s.tasks[1]) != 0 && PartnerOf(s.tasks[2]) != 0 && PartnerOf(s.tasks[3]) != 0)
  {
    var rank :| RankOk(s, rank);
    assert TaskOk(s.tasks[1], 1, 4) && TaskOk(s.tasks[2], 2, 4) && TaskOk(s.tasks[3], 3, 4);
    if PartnerOf(s.tasks[1]) != 0 && PartnerOf(s.tasks[2]) != 0 && PartnerOf(s.tasks[3]) != 0 {
      assert WaitsFor(s, 1, PartnerOf(s.tasks[1]) - 1);
      assert WaitsFor(s, 2, PartnerOf(s.tasks[2]) - 1);
      assert WaitsFor(s, 3, PartnerOf(s.tasks[3]) - 1);
      assert false;
    }
  }

  /** With up to three user tasks at most two stand in one reply line. */
  lemma ShortLines(s: State, e: nat)
    requires Settled(s) && Ranked(s) && |s.tasks| <= 4 && e < |s.endpoints|
    ensures |s.endpoints[e].repliers| <= 2
  {
    var q := s.endpoints[e].repliers;
    if |q| >= 3 {
      LineDistinct(s, e);
      LineMember(s, e, 0);
      LineMember(s, e, 1);
      LineMember(s, e, 2);
      NotAllThree(s);
      assert false;
    }
  }

  /** With up to three user tasks every reply is safe. */
  lemma ThreeUsersSafe(s: State, e: nat)
    requires Calling(s, e) && Ranked(s) && Ordered(s) && |s.tasks| <= 4
    ensures ReplySafe(s, e)
  {
    var q := s.endpoints[e].repliers;
    ShortLines(s, e);
    if |q| == 2 {
      LineDistinct(s, e);
      LineMember(s, e, 0);
      LineMember(s, e, 1);
      assert LineOrdered(s, q);
      assert PartnerOf(s.tasks[q[1]]) != q[0] + 1;
      assert PartnerOf(s.tasks[q[1]]) == s.current + 1;
      assert TaskOk(s.tasks[s.current], s.current, |s.tasks|);
    }
  }

  // ---------------------------------------------------------------------------
  // Order
  // ---------------------------------------------------------------------------

  predicate LinesAlike(s: State, r: State, e: nat) {
    e < |s.endpoints| == |r.endpoints| && |r.tasks| == |s.tasks| && r.endpoints[e].repliers == s.endpoints[e].repliers
    && forall k :: 0 <= k < |s.endpoints[e].repliers| ==>
         s.endpoints[e].repliers[k] < |s.tasks|
         && r.tasks[s.endpoints[e].repliers[k]].reason == s.tasks[s.endpoints[e].repliers[k]].reason
  }

  lemma AlikeOrdered(s: State, r: State, e: nat)
    requires Ordered(s) && LinesAlike(s, r, e)
    ensures LineOrdered(r, r.endpoints[e].repliers)
  {
    var q := s.endpoints[e].repliers;
    assert LineOrdered(s, q);
    forall a, b | 0 <= a < b < |q| ensures PartnerOf(r.tasks[q[b]]) != q[a] + 1 {}
  }

  /** Lines other than the changed one are alike when nobody in them changes its reason. */
  lemma UntouchedLine(s: State, r: State, e: nat)
    requires Settled(s) && e < |s.endpoints| == |r.endpoints| && |r.tasks| == |s.tasks|
    requires r.endpoints[e].repliers == s.endpoints[e].repliers
    requires forall j: nat {:trigger r.tasks[j]} :: j < |s.tasks| && PartnerOf(s.tasks[j]) != 0 ==>
      r.tasks[j].reason == s.tasks[j].reason || j !in s.endpoints[e].repliers
    ensures LinesAlike(s, r, e)
  {
    forall k | 0 <= k < |s.endpoints[e].repliers|
      ensures s.endpoints[e].repliers[k] < |s.tasks|
      && r.tasks[s.endpoints[e].repliers[k]].reason == s.tasks[s.endpoints[e].repliers[k]].reason
    {
      LineMember(s, e, k);
    }
  }

  lemma HandOverOrdered(s: State, e: nat, x: nat, msg: Word, r: State)
    requires Settled(s) && Ordered(s) && HandsOver(s, e, x, msg, r)
    ensures Ordered(r)
  {
    assert x in Members(s, AtRecv(e));
    assert x !in Members(s, AtReply(e));
    assert TaskOk(s.tasks[x], x, |s.tasks|);
    NotQueued(s, s.current);
    forall f: nat | f < |r.endpoints| ensures LineOrdered(r, r.endpoints[f].repliers) {
      AppendOrdered(s, r, f, s.current, x);
    }
  }

  lemma AppendOrdered(s: State, r: State, f: nat, me: nat, partner: nat)
    requires Settled(s) && Ordered(s) && f < |s.endpoints| == |r.endpoints| && |r.tasks| == |s.tasks|
    requires r.endpoints[f].repliers == s.endpoints[f].repliers
          || r.endpoints[f].repliers == s.endpoints[f].repliers + [me]
    requires me !in s.endpoints[f].repliers && me < |s.tasks| && PartnerOf(r.tasks[me]) == partner + 1
    requires r.endpoints[f].repliers != s.endpoints[f].repliers ==> partner !in s.endpoints[f].repliers
    requires forall j: nat {:trigger r.tasks[j]} :: j < |s.tasks| && PartnerOf(s.tasks[j]) != 0 ==>
      r.tasks[j].reason == s.tasks[j].reason || j == me
    ensures LineOrdered(r, r.endpoints[f].repliers)
  {
    var q := s.endpoints[f].repliers;
    assert LineOrdered(s, q);
    var q' := r.endpoints[f].repliers;
    forall a, b | 0 <= a < b < |q'| && q'[b] < |r.tasks| ensures PartnerOf(r.tasks[q'[b]]) != q'[a] + 1 {
      LineMember(s, f, a);
      if b < |q| {
        LineMember(s, f, b);
        assert PartnerOf(s.tasks[q[b]]) != q[a] + 1;
      }
    }
  }

  lemma TakeSendOrdered(s: State, e: nat, x: nat, r: State)
    requires Settled(s) && Ordered(s) && TakesSend(s, e, x, r)
    ensures Ordered(r)
  {
    assert x in Members(s, AtSend(e));
    NotQueued(s, s.current);
    assert TaskOk(s.tasks[s.current], s.current, |s.tasks|);
    forall f: nat | f < |r.endpoints| ensures LineOrdered(r, r.endpoints[f].repliers) {
      assert x !in Members(s, AtReply(f));
      AppendOrdered(s, r, f, x, s.current);
    }
  }

  lemma PrefixOrdered(s: State, r: State, f: nat, k: nat)
    requires Settled(s) && Ordered(s) && f < |s.endpoints| == |r.endpoints| && |r.tasks| == |s.tasks|
    requires k <= |s.endpoints[f].repliers| && r.endpoints[f].repliers == s.endpoints[f].repliers[..k]
    requires forall b :: 0 <= b < k && s.endpoints[f].repliers[b] < |s.tasks| ==>
      r.tasks[s.endpoints[f].repliers[b]].reason == s.tasks[s.endpoints[f].repliers[b]].reason
    ensures LineOrdered(r, r.endpoints[f].repliers)
  {
    var q := s.endpoints[f].repliers;
    assert LineOrdered(s, q);
    forall a, b | 0 <= a < b < k && q[b] < |r.tasks| ensures PartnerOf(r.tasks[q[b]]) != q[a] + 1 {
      LineMember(s, f, b);
    }
  }

  lemma AnswerOrdered(s: State, e: nat, k: nat, msg: Word, r: State)
    requires Settled(s) && Ordered(s) && Answers(s, e, k, msg, r)
    ensures Ordered(r)
  {
    LineDistinct(s, e);
    var x := s.endpoints[e].repliers[k];
    LineMember(s, e, k);
    assert x in Members(s, AtReply(e));
    forall f: nat | f < |r.endpoints| ensures LineOrdered(r, r.endpoints[f].repliers) {
      if f == e {
        PrefixOrdered(s, r, e, k);
      } else {
        assert x !in Members(s, AtReply(f));
        UntouchedLine(s, r, f);
        AlikeOrdered(s, r, f);
      }
    }
  }

  lemma MisdirectOrdered(s: State, e: nat, r: State)
    requires Settled(s) && Ordered(s) && Misdirects(s, e, r)
    ensures Ordered(r)
  {
    var q := s.endpoints[e].repliers;
    var x := q[|q| - 1];
    assert x in Members(s, AtReply(e));
    forall f: nat | f < |r.endpoints| ensures LineOrdered(r, r.endpoints[f].repliers) {
      if f != e {
        assert x !in Members(s, AtReply(f));
        UntouchedLine(s, r, f);
        AlikeOrdered(s, r, f);
      }
    }
  }

  lemma SlayOrdered(s: State, i: nat, why: KillReason, r: State)
    requires Settled(s) && Ordered(s) && Ranked(s) && |s.tasks| <= 4 && Slays(s, i, why, r)
    ensures Ordered(r)
  {
    assert s.tasks[i].id == i + 1;
    KillQuietlyForm(s, i, why);
    forall f: nat | f < |r.endpoints| ensures LineOrdered(r, r.endpoints[f].repliers) {
      EndpointFateMet(s, i, why, f);
      ShortLines(s, f);
      if |r.endpoints[f].repliers| > 1 {
        SurvivingLine(s, i, why, r, f);
        AlikeOrdered(s, r, f);
      }
    }
  }

  lemma SurvivingLine(s: State, i: nat, why: KillReason, r: State, f: nat)
    requires Settled(s) && Slays(s, i, why, r) && f < |s.endpoints| == |r.endpoints|
    requires r.endpoints[f] == Released(s, i, why).endpoints[f] && r.tasks == Released(s, i, why).tasks
    requires EndpointFate(s, i, f, r.endpoints[f]) && r.endpoints[f].repliers == s.endpoints[f].repliers != []
    ensures LinesAlike(s, r, f)
  {
    var q := s.endpoints[f].repliers;
    FateMet(s, i, why, i);
    forall k | 0 <= k < |q| ensures q[k] < |s.tasks| && r.tasks[q[k]].reason == s.tasks[q[k]].reason {
      assert q[k] in r.endpoints[f].repliers;
      LineMember(s, f, k);
      assert q[k] in Members(s, AtReply(f));
      FateMet(s, i, why, q[k]);
    }
  }

  lemma ActionOrdered(s: State, a: Action, r: State)
    requires Settled(s) && Ordered(s) && Ranked(s) && |s.tasks| <= 4 && Does(s, a, r)
    ensures Ordered(r)
  {
    if a.HandOver? {
      HandOverOrdered(s, a.ep, a.to, a.msg, r);
    } else if a.TakeSend? {
      TakeSendOrdered(s, a.ep, a.from, r);
    } else if a.Answer? {
      AnswerOrdered(s, a.ep, a.pos, a.msg, r);
    } else if a.Misdirect? {
      MisdirectOrdered(s, a.ep, r);
    } else if a.Slay? {
      SlayOrdered(s, a.task, a.why, r);
    } else {
      QuietOrdered(s, a, r);
    }
  }

  lemma QuietOrdered(s: State, a: Action, r: State)
    requires Settled(s) && Ordered(s) && Does(s, a, r)
    requires a.Note? || a.QueueSend? || a.Listen? || a.Reschedule?
    ensures Ordered(r)
  {
    QuietReasons(s, a, r);
    forall f: nat | f < |r.endpoints| ensures LineOrdered(r, r.endpoints[f].repliers) {
      UntouchedLine(s, r, f);
      AlikeOrdered(s, r, f);
    }
  }

  /** These actions change no reply line and no reply wait. */
  lemma QuietReasons(s: State, a: Action, r: State)
    requires Settled(s) && Does(s, a, r) && (a.Note? || a.QueueSend? || a.Listen? || a.Reschedule?)
    ensures |r.tasks| == |s.tasks| && |r.endpoints| == |s.endpoints|
    ensures forall f: nat {:trigger r.endpoints[f]} :: f < |s.endpoints| ==> r.endpoints[f].repliers == s.endpoints[f].repliers
    ensures forall j: nat {:trigger r.tasks[j]} :: j < |s.tasks| && PartnerOf(s.tasks[j]) != 0 ==> r.tasks[j].reason == s.tasks[j].reason
    ensures forall j: nat {:trigger r.tasks[j]} :: j < |s.tasks| && PartnerOf(s.tasks[j]) == 0 ==> PartnerOf(r.tasks[j]) == 0
  {
    assert TaskOk(s.tasks[s.current], s.current, |s.tasks|);
    if a.Reschedule? {
      VacatedLinks(s);
      forall j: nat | j < |s.tasks| ensures r.tasks[j].reason == s.tasks[j].reason { ScheduleTask(s, j); }
      ScheduleEndpoints(s);
    } else if a.Note? {
      forall j: nat | j < |s.tasks| ensures r.tasks[j].reason == s.tasks[j].reason {
        assert SameButSlice(s.tasks[j], r.tasks[j]);
      }
    }
  }

  lemma ScheduleEndpoints(s: State)
    requires Settled(s)
    ensures Schedule(s).endpoints == s.endpoints
  {
    VacatedOk(s);
    VacatedLinks(s);
    var v := Vacated(s);
    if v.ready == [] { RunIdleOk(v); } else { DispatchOk(v, s.current); }
  }

  // ---------------------------------------------------------------------------
  // No strays
  // ---------------------------------------------------------------------------

  lemma ReplyActionStrays(s: State, a: Action, r: State)
    requires Settled(s) && NoStray(s) && Ordered(s) && Ranked(s) && |s.tasks| <= 4 && Does(s, a, r)
    requires a.Answer? || a.Misdirect?
    ensures NoStray(r)
  {
    var e := a.ep;
    assert TaskOk(s.tasks[s.current], s.current, |s.tasks|);
    ThreeUsersSafe(s, e);
    var msg := if a.Answer? then a.msg else 0;
    if a.Answer? { AnsweredForm(s, e, msg, a.pos); } else { MisdirectedForm(s, e, msg); }
    ReplyStrandsIff(s, e, msg);
  }

  lemma SlayStrays(s: State, i: nat, why: KillReason, r: State)
    requires Settled(s) && NoStray(s) && Slays(s, i, why, r)
    ensures NoStray(r)
  {
    assert s.tasks[i].id == i + 1;
    KillQuietlyForm(s, i, why);
    FateMet(s, i, why, i);
    forall j: nat | j < |r.tasks| ensures !IsStray(r, j) {
      FateMet(s, i, why, j);
      assert !IsStray(s, j);
      if r.tasks[j].reason.Some? && r.tasks[j].reason.value.IpcReply? {
        var e := s.tasks[j].reason.value.ep;
        assert j in Members(s, AtReply(e));
        EndpointFateMet(s, i, why, e);
      }
    }
  }

  /** Task `n` joins the reply line of `e`; besides it only `o` changes, which awaits no reply. */
  predicate Joins(s: State, r: State, e: nat, n: nat, o: nat) {
    && |r.tasks| == |s.tasks| && |r.endpoints| == |s.endpoints| && e < |s.endpoints| && n < |s.tasks| && o < |s.tasks| && n != o
    && r.tasks == s.tasks[n := r.tasks[n]][o := r.tasks[o]]
    && r.endpoints == s.endpoints[e := r.endpoints[e]] && r.endpoints[e].repliers == s.endpoints[e].repliers + [n]
    && r.tasks[n].reason.Some? && r.tasks[n].reason.value.IpcReply? && r.tasks[n].reason.value.ep == e
    && !(r.tasks[o].reason.Some? && r.tasks[o].reason.value.IpcReply?)
    && !IsStray(s, n) && !IsStray(s, o)
  }

  lemma HandOverJoins(s: State, e: nat, x: nat, msg: Word, r: State)
    requires Settled(s) && HandsOver(s, e, x, msg, r)
    ensures Joins(s, r, e, s.current, x)
  {
    assert x in Members(s, AtRecv(e));
    var s1 := Emit(s, IpcSendCalled(s.current + 1, e, msg));
    assert s1.tasks == s.tasks && s1.endpoints == s.endpoints;
    assert s.tasks[x := r.tasks[x]][s.current := r.tasks[s.current]] == s.tasks[s.current := r.tasks[s.current]][x := r.tasks[x]];
  }

  lemma TakeSendJoins(s: State, e: nat, x: nat, r: State)
    requires Settled(s) && TakesSend(s, e, x, r)
    ensures Joins(s, r, e, x, s.current)
  {
    assert x in Members(s, AtSend(e));
    assert TaskOk(s.tasks[s.current], s.current, |s.tasks|);
  }

  lemma JoinStrays(s: State, r: State, e: nat, n: nat, o: nat, i: nat)
    requires Joins(s, r, e, n, o)
    ensures IsStray(r, i) <==> IsStray(s, i)
  {
  }

  /** A delivery neither makes nor frees a stray. */
  lemma PassStrays(s: State, a: Action, r: State, i: nat)
    requires Settled(s) && Does(s, a, r) && (a.HandOver? || a.TakeSend?)
    ensures IsStray(r, i) <==> IsStray(s, i)
  {
    if a.HandOver? {
      HandOverJoins(s, a.ep, a.to, a.msg, r);
      JoinStrays(s, r, a.ep, s.current, a.to, i);
    } else {
      TakeSendJoins(s, a.ep, a.from, r);
      JoinStrays(s, r, a.ep, a.from, s.current, i);
    }
  }

  lemma PassNoStray(s: State, a: Action, r: State)
    requires Settled(s) && NoStray(s) && Does(s, a, r) && (a.HandOver? || a.TakeSend?)
    ensures NoStray(r)
  {
    forall i: nat ensures !IsStray(r, i) { PassStrays(s, a, r, i); }
  }

  lemma UntouchedStrays(s: State, r: State)
    requires NoStray(s) && TasksOk(s) && |r.tasks| == |s.tasks| && |r.endpoints| == |s.endpoints|
    requires forall f: nat {:trigger r.endpoints[f]} :: f < |s.endpoints| ==> r.endpoints[f].repliers == s.endpoints[f].repliers
    requires forall j: nat {:trigger r.tasks[j]} :: j < |s.tasks| && PartnerOf(s.tasks[j]) != 0 ==> r.tasks[j].reason == s.tasks[j].reason
    requires forall j: nat {:trigger r.tasks[j]} :: j < |s.tasks| && PartnerOf(s.tasks[j]) == 0 ==> PartnerOf(r.tasks[j]) == 0
    requires forall j: nat {:trigger r.tasks[j]} :: j < |s.tasks| && PartnerOf(r.tasks[j]) == 0 ==>
      !(r.tasks[j].reason.Some? && r.tasks[j].reason.value.IpcReply?)
    ensures NoStray(r)
  {
    forall j: nat | j < |r.tasks| ensures !IsStray(r, j) {
      assert !IsStray(s, j);
      assert TaskOk(s.tasks[j], j, |s.tasks|);
    }
  }

  lemma QuietStrays(s: State, a: Action, r: State)
    requires Settled(s) && Settled(r) && NoStray(s) && Does(s, a, r)
    requires a.Note? || a.QueueSend? || a.Listen? || a.Reschedule?
    ensures NoStray(r)
  {
    QuietReasons(s, a, r);
    forall j: nat | j < |r.tasks| && PartnerOf(r.tasks[j]) == 0
      ensures !(r.tasks[j].reason.Some? && r.tasks[j].reason.value.IpcReply?)
    {
      assert TaskOk(r.tasks[j], j, |r.tasks|);
    }
    UntouchedStrays(s, r);
  }

  /** What holds in every reachable state with up to three user tasks. */
  ghost predicate NobodyStranded(s: State) {
    |s.tasks| <= 4 && NoStray(s) && Ordered(s) && Ranked(s)
  }

  lemma ActionStrands(s: State, a: Action, r: State)
    requires Settled(s) && NobodyStranded(s) && Does(s, a, r)
    ensures NobodyStranded(r)
  {
    DoesSettled(s, a, r);
    ActionRanked(s, a, r);
    ActionOrdered(s, a, r);
    if Replies(a) { ReplyActionStrays(s, a, r); } else { ApartStrays(s, a, r); }
  }

  lemma StrandsInductive()
    ensures Inductive(NobodyStranded, ALL)
  {
    forall s: State, a: Action, r: State {:trigger NobodyStranded(s), Does(s, a, r)} |
      Settled(s) && NobodyStranded(s) && Does(s, a, r) ensures NobodyStranded(r)
    {
      ActionStrands(s, a, r);
    }
  }

  // ---------------------------------------------------------------------------
  // Any number of tasks
  // ---------------------------------------------------------------------------

  lemma ApartStrays(s: State, a: Action, r: State)
    requires Settled(s) && NoStray(s) && Does(s, a, r) && !Replies(a)
    ensures NoStray(r)
  {
    DoesSettled(s, a, r);
    if a.Slay? {
      SlayStrays(s, a.task, a.why, r);
    } else if a.HandOver? || a.TakeSend? {
      PassNoStray(s, a, r);
    } else {
      QuietStrays(s, a, r);
    }
  }

  /** Only replies make strays. */
  lemma StraysApart()
    ensures Inductive(NoStray, NO_REPLIES)
  {
    forall s: State, a: Action, r: State {:trigger NoStray(s), Does(s, a, r)} |
      Settled(s) && NoStray(s) && !Replies(a) && Does(s, a, r) ensures NoStray(r)
    {
      ApartStrays(s, a, r);
    }
  }

  lemma SlayLeavesStray(s: State, j: nat, why: KillReason, r: State, i: nat)
    requires Settled(s) && IsStray(s, i) && Slays(s, j, why, r) && i != j
    ensures IsStray(r, i)
  {
    assert s.tasks[j].id == j + 1;
    KillQuietlyForm(s, j, why);
    FateMet(s, j, why, i);
    var e := s.tasks[i].reason.value.ep;
    if e < |s.endpoints| { EndpointFateMet(s, j, why, e); }
  }

  lemma UntouchedStray(s: State, r: State, i: nat)
    requires IsStray(s, i) && |r.tasks| == |s.tasks| && |r.endpoints| == |s.endpoints|
    requires r.tasks[i].state == Blocked && r.tasks[i].reason == s.tasks[i].reason
    requires forall f: nat {:trigger r.endpoints[f]} :: f < |s.endpoints| ==> r.endpoints[f].repliers == s.endpoints[f].repliers
    ensures IsStray(r, i)
  {
  }

  lemma QuietLeavesStray(s: State, a: Action, r: State, i: nat)
    requires Settled(s) && Settled(r) && IsStray(s, i) && Does(s, a, r) && (a.Note? || a.QueueSend? || a.Listen? || a.Reschedule?)
    ensures IsStray(r, i)
  {
    QuietReasons(s, a, r);
    assert TaskOk(s.tasks[i], i, |s.tasks|);
    assert PartnerOf(s.tasks[i]) != 0;
    assert TaskOk(r.tasks[i], i, |r.tasks|);
    UntouchedStray(s, r, i);
  }

  lemma ReplyLeavesStray(s: State, a: Action, r: State, i: nat)
    requires Settled(s) && IsStray(s, i) && Does(s, a, r) && Replies(a)
    ensures IsStray(r, i)
  {
    assert TaskOk(s.tasks[s.current], s.current, |s.tasks|);
    var e := a.ep;
    var msg := if a.Answer? then a.msg else 0;
    if a.Answer? { AnsweredForm(s, e, msg, a.pos); } else { MisdirectedForm(s, e, msg); }
    ReplyStrays(s, e, msg, i);
  }

  lemma ActionLeavesStray(s: State, a: Action, r: State, i: nat)
    requires Settled(s) && IsStray(s, i) && Does(s, a, r) && !(a.Slay? && a.task == i)
    ensures IsStray(r, i)
  {
    DoesSettled(s, a, r);
    if a.Slay? {
      SlayLeavesStray(s, a.task, a.why, r, i);
    } else if Replies(a) {
      ReplyLeavesStray(s, a, r, i);
    } else if a.HandOver? || a.TakeSend? {
      PassStrays(s, a, r, i);
    } else {
      QuietLeavesStray(s, a, r, i);
    }
  }

  /** Nothing but its own death ends a stray's wait. */
  lemma StrayInductive(i: nat)
    ensures Inductive((s: State) => IsStray(s, i), PEACE)
  {
    forall s: State, a: Action, r: State {:trigger IsStray(s, i), Does(s, a, r)} |
      Settled(s) && IsStray(s, i) && !a.Slay? && Does(s, a, r) ensures IsStray(r, i)
    {
      ActionLeavesStray(s, a, r, i);
    }
  }
}
