/** Nobody waits for itself: the graph of reply waits has no cycle in any reachable state,
    for any number of tasks. */
module WaitGraph {
  import opened KernelTypes
  import opened Slots
  import opened Invariant
  import opened Scheduling
  import opened KillOutcome
  import opened Actions

  /** Task `i` awaits a reply from task `j`. */
  predicate WaitsFor(s: State, i: nat, j: nat) {
    && i < |s.tasks| && j < |s.tasks| && s.tasks[i].reason.Some? && s.tasks[i].reason.value.IpcReply?
    && s.tasks[i].reason.value.partner == j + 1
  }

  /** A chain of waits: each entry awaits the next. */
  predicate Chain(s: State, p: seq<nat>) {
    forall k :: 0 <= k < |p| - 1 ==> WaitsFor(s, p[k], p[k + 1])
  }

  /** No chain of waits comes back to where it started. */
  ghost predicate NoCycle(s: State) {
    forall p: seq<nat> :: Chain(s, p) && |p| >= 2 ==> p[0] != p[|p| - 1]
  }

  ghost predicate RankOk(s: State, rank: seq<nat>) {
    |rank| == |s.tasks| && forall i: nat, j: nat {:trigger WaitsFor(s, i, j)} :: WaitsFor(s, i, j) ==> rank[j] < rank[i]
  }

  /** The tasks can be ranked so that everybody waits for somebody of a lower rank. */
  ghost predicate Ranked(s: State) {
    exists rank: seq<nat> :: RankOk(s, rank)
  }

  lemma {:induction false} ChainDescends(s: State, rank: seq<nat>, p: seq<nat>)
    requires RankOk(s, rank) && Chain(s, p) && |p| >= 2
    ensures p[0] < |rank| && p[|p| - 1] < |rank| && rank[p[|p| - 1]] < rank[p[0]]
  {
    assert WaitsFor(s, p[0], p[1]);
    if |p| > 2 {
      var q := p[1..];
      forall k | 0 <= k < |q| - 1 ensures WaitsFor(s, q[k], q[k + 1]) {
        assert WaitsFor(s, p[k + 1], p[k + 2]);
      }
      ChainDescends(s, rank, q);
    }
  }

  lemma RankedNoCycle(s: State)
    requires Ranked(s)
    ensures NoCycle(s)
  {
    var rank :| RankOk(s, rank);
    forall p: seq<nat> | Chain(s, p) && |p| >= 2 ensures p[0] != p[|p| - 1] {
      ChainDescends(s, rank, p);
    }
  }

  /** Waits that only disappear keep a ranking. */
  lemma RankKept(s: State, r: State)
    requires Ranked(s) && |r.tasks| == |s.tasks|
    requires forall j: nat {:trigger r.tasks[j]} :: j < |r.tasks| ==>
      r.tasks[j].reason == s.tasks[j].reason || r.tasks[j].reason == None || !r.tasks[j].reason.value.IpcReply?
    ensures Ranked(r)
  {
    var rank :| RankOk(s, rank);
    forall i: nat, j: nat | WaitsFor(r, i, j) ensures rank[j] < rank[i] {
      assert WaitsFor(s, i, j);
    }
    assert RankOk(r, rank);
  }

  /** A new wait for a task that itself waits for nobody keeps a ranking: that task goes to
      the bottom. */
  lemma RankShifted(s: State, r: State, x: nat, y: nat)
    requires Ranked(s) && |r.tasks| == |s.tasks| && x < |s.tasks| && y < |s.tasks| && x != y
    requires r.tasks[y].reason == None
    requires r.tasks[x].reason.Some? && r.tasks[x].reason.value.IpcReply? && r.tasks[x].reason.value.partner == y + 1
    requires forall j: nat {:trigger r.tasks[j]} :: j < |r.tasks| && j != x && j != y ==> r.tasks[j].reason == s.tasks[j].reason
    ensures Ranked(r)
  {
    var rank :| RankOk(s, rank);
    var rank' := seq(|rank|, k requires 0 <= k < |rank| => if k == y then 0 else rank[k] + 1);
    forall i: nat, j: nat | WaitsFor(r, i, j) ensures rank'[j] < rank'[i] {
      if i != x {
        assert WaitsFor(s, i, j);
      }
    }
    assert RankOk(r, rank');
  }

  lemma SlayRanked(s: State, i: nat, why: KillReason, r: State)
    requires Settled(s) && Ranked(s) && Slays(s, i, why, r)
    ensures Ranked(r)
  {
    FateMet(s, i, why, i);
    assert s.tasks[i].id == i + 1;
    KillQuietlyForm(s, i, why);
    forall j: nat | j < |r.tasks| ensures r.tasks[j].reason == s.tasks[j].reason || r.tasks[j].reason == None {
      FateMet(s, i, why, j);
    }
    RankKept(s, r);
  }

  lemma RescheduleRanked(s: State, r: State)
    requires Settled(s) && Ranked(s) && Reschedules(s, r)
    ensures Ranked(r)
  {
    forall j: nat | j < |r.tasks| ensures r.tasks[j].reason == s.tasks[j].reason {
      ScheduleTask(s, j);
    }
    RankKept(s, r);
  }

  lemma HandOverRanked(s: State, e: nat, x: nat, msg: Word, r: State)
    requires Settled(s) && Ranked(s) && HandsOver(s, e, x, msg, r)
    ensures Ranked(r)
  {
    assert x in Members(s, AtRecv(e));
    assert TaskOk(s.tasks[x], x, |s.tasks|);
    RankShifted(s, r, s.current, x);
  }

  lemma TakeSendRanked(s: State, e: nat, x: nat, r: State)
    requires Settled(s) && Ranked(s) && TakesSend(s, e, x, r)
    ensures Ranked(r)
  {
    assert x in Members(s, AtSend(e));
    assert TaskOk(s.tasks[s.current], s.current, |s.tasks|);
    RankShifted(s, r, x, s.current);
  }

  lemma ActionRanked(s: State, a: Action, r: State)
    requires Settled(s) && Ranked(s) && Does(s, a, r)
    ensures Ranked(r)
  {
    if a.HandOver? {
      HandOverRanked(s, a.ep, a.to, a.msg, r);
    } else if a.TakeSend? {
      TakeSendRanked(s, a.ep, a.from, r);
    } else if a.Reschedule? {
      RescheduleRanked(s, r);
    } else if a.Slay? {
      SlayRanked(s, a.task, a.why, r);
    } else {
      PlainRanked(s, a, r);
    }
  }

  /** These actions add no wait. */
  lemma PlainRanked(s: State, a: Action, r: State)
    requires Settled(s) && Ranked(s) && Does(s, a, r) && (a.Note? || a.QueueSend? || a.Listen? || a.Answer? || a.Misdirect?)
    ensures Ranked(r)
  {
    RankKept(s, r);
  }

  lemma RankedInductive()
    ensures Inductive(Ranked, ALL)
  {
    forall s: State, a: Action, r: State {:trigger Ranked(s), Does(s, a, r)} | Settled(s) && Ranked(s) && Does(s, a, r)
      ensures Ranked(r)
    {
      ActionRanked(s, a, r);
    }
  }
}
