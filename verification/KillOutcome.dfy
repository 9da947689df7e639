/** kill_task as a whole: complete, exact, and back to the invariant. */
module KillOutcome {
  import opened KernelTypes
  import opened KernelSpec
  import opened Counting
  import opened Slots
  import opened Invariant
  import opened IpcPaths
  import opened KillPath
  import opened EventLists

  function Closed(s: State, i: nat, why: KillReason): State
    requires i < |s.tasks|
  {
    CloseOwned(Buried(s, i, why), i + 1, 0)
  }

  function Orphans(s: State, i: nat, why: KillReason): seq<nat>
    requires i < |s.tasks|
  {
    ResolveFrom(Closed(s, i, why), i + 1, 0, []).1
  }

  function Cleared(s: State, i: nat, why: KillReason): State
    requires i < |s.tasks|
  {
    ResolveFrom(Closed(s, i, why), i + 1, 0, []).0
  }

  function OwnedList(s: State, i: nat, why: KillReason): seq<nat>
    requires i < |s.tasks|
  {
    OwnedWaiters(Buried(s, i, why).endpoints, i + 1, 0)
  }

  lemma ClosedOk(s: State, i: nat, why: KillReason)
    requires Settled(s) && 0 < i < |s.tasks|
    ensures ClosedAll(Buried(s, i, why), Closed(s, i, why), i + 1, 0)
    ensures i !in OwnedList(s, i, why) && Closed(s, i, why).tasks[i] == DeadTask(s.tasks[i])
  {
    BuriedOk(s, i, why);
    CloseOwnedForm(Buried(s, i, why), i + 1, 0);
    ClosedOutWaiters(s, i, why, i);
  }

  lemma ClearedOk(s: State, i: nat, why: KillReason)
    requires Settled(s) && 0 < i < |s.tasks|
    ensures Resolved(Closed(s, i, why), Cleared(s, i, why), i + 1, 0, [], Orphans(s, i, why), i)
    ensures forall x: nat :: x in Orphans(s, i, why) <==> OrphanFrom(Closed(s, i, why), x, i + 1, 0)
    ensures LimboAll(Closed(s, i, why), Cleared(s, i, why), Orphans(s, i, why))
  {
    ClosedOk(s, i, why);
    ResolveFromForm(Closed(s, i, why), i + 1, 0, [], i);
    var w := Orphans(s, i, why);
    assert w[0..] == w;
  }

  /** A task not freed by closing waits on, in the same line. */
  lemma StillWaiting(s: State, i: nat, why: KillReason, e: nat, j: nat)
    requires Settled(s) && 0 < i < |s.tasks| && j < |s.tasks| && j != i && !ClosedOut(s, i, j) && e < |s.endpoints|
    ensures var c := Closed(s, i, why);
      && |c.tasks| == |s.tasks| && |c.endpoints| == |s.endpoints| && c.tasks[j] == s.tasks[j]
      && (j in c.endpoints[e].repliers <==> j in s.endpoints[e].repliers && s.endpoints[e].owner != Some(i + 1))
  {
    ClosedOk(s, i, why);
    ClosedOutWaiters(s, i, why, j);
    ClosedLine(s, i, why, e);
    BuriedMembers(s, i, why, e, j);
    assert j in Buried(s, i, why).endpoints[e].repliers <==> j in Members(Buried(s, i, why), AtReply(e));
    assert j in s.endpoints[e].repliers <==> j in Members(s, AtReply(e));
  }

  lemma ClosedLine(s: State, i: nat, why: KillReason, e: nat)
    requires Settled(s) && 0 < i < |s.tasks| && e < |s.endpoints|
    ensures |Closed(s, i, why).endpoints| == |Buried(s, i, why).endpoints| == |s.endpoints|
    ensures Closed(s, i, why).endpoints[e].repliers ==
      if s.endpoints[e].owner == Some(i + 1) then [] else Buried(s, i, why).endpoints[e].repliers
  {
    ClosedOk(s, i, why);
    var b := Buried(s, i, why);
    assert Closed(s, i, why).endpoints[e] == ClosedFor(b.endpoints[e], i + 1);
    assert b.endpoints[e].owner == s.endpoints[e].owner;
  }

  /** A dead task, and a task freed by closing, awaits nothing. */
  lemma NotWaitingAnyMore(s: State, i: nat, why: KillReason, j: nat)
    requires Settled(s) && 0 < i < |s.tasks| && j < |s.tasks| && (j == i || ClosedOut(s, i, j))
    ensures |Closed(s, i, why).tasks| == |s.tasks| && Closed(s, i, why).tasks[j].reason == None
  {
    ClosedOk(s, i, why);
    ClosedOutWaiters(s, i, why, j);
  }

  /** The tasks woken as orphans are exactly the bereaved ones. */
  lemma OrphansBereaved(s: State, i: nat, why: KillReason, j: nat)
    requires Settled(s) && 0 < i < |s.tasks| && j < |s.tasks|
    ensures OrphanFrom(Closed(s, i, why), j, i + 1, 0) <==> Bereaved(s, i, j)
  {
    if j == i || ClosedOut(s, i, j) {
      NotWaitingAnyMore(s, i, why, j);
    } else {
      BystanderOrphan(s, i, why, j);
    }
  }

  lemma BystanderOrphan(s: State, i: nat, why: KillReason, j: nat)
    requires Settled(s) && 0 < i < |s.tasks| && j < |s.tasks| && j != i && !ClosedOut(s, i, j)
    ensures OrphanFrom(Closed(s, i, why), j, i + 1, 0) <==> Bereaved(s, i, j)
  {
    var t := s.tasks[j];
    assert TaskOk(t, j, |s.tasks|);
    assert |Closed(s, i, why).endpoints| == |s.endpoints|;
    if 0 < |s.endpoints| {
      StillWaiting(s, i, why, if t.reason.Some? && t.reason.value.ep < |s.endpoints| then t.reason.value.ep else 0, j);
    }
  }

  lemma OrphansOk(s: State, i: nat, why: KillReason, j: nat)
    requires Settled(s) && 0 < i < |s.tasks| && j < |s.tasks|
    ensures j in Orphans(s, i, why) <==> Bereaved(s, i, j)
    ensures j in OwnedList(s, i, why) <==> ClosedOut(s, i, j)
  {
    ClearedOk(s, i, why);
    OrphansBereaved(s, i, why, j);
    ClosedOutWaiters(s, i, why, j);
  }

  lemma WakeOk(s: State, i: nat, why: KillReason)
    requires Settled(s) && 0 < i < |s.tasks|
    ensures var d := Cleared(s, i, why);
      var w := Orphans(s, i, why);
      var r := WakeAll(d, w);
      Linked(r) && Apart(d, r) && r.endpoints == d.endpoints && Woke(d, r, w) && WokenAll(d, r, w)
  {
    var d := Cleared(s, i, why);
    var w := Orphans(s, i, why);
    ClosedOk(s, i, why);
    ClearedOk(s, i, why);
    forall x: nat | x in w ensures x != 0 && d.tasks[x].id == x + 1 {
      OrphansOk(s, i, why, x);
      assert TaskOk(s.tasks[x], x, |s.tasks|);
    }
    WakeAllForm(d, w, i);
  }

  /** The state of the kill before its last two events. */
  function Released(s: State, i: nat, why: KillReason): State
    requires i < |s.tasks|
  {
    WakeAll(Cleared(s, i, why), Orphans(s, i, why))
  }

  /** Every task meets its fate: the killed one is dead and wiped, whoever waited at an
      endpoint it owned is released with ENDPOINT_CLOSED, whoever else awaited its reply
      is released with DEAD_PARTNER, and nobody else is touched. */
  lemma FateMet(s: State, i: nat, why: KillReason, j: nat)
    requires Settled(s) && 0 < i < |s.tasks| && j < |s.tasks|
    ensures |Released(s, i, why).tasks| == |s.tasks|
    ensures Released(s, i, why).tasks[j] == Fate(s, i, j)
  {
    ClosedOk(s, i, why);
    ClearedOk(s, i, why);
    WakeOk(s, i, why);
    OrphansOk(s, i, why, j);
    assert TaskOk(s.tasks[j], j, |s.tasks|);
    var c := Closed(s, i, why);
    var d := Cleared(s, i, why);
    assert d.tasks[j] == if j in Orphans(s, i, why) then Limbo(c.tasks[j]) else c.tasks[j];
  }

  lemma EndpointFateMet(s: State, i: nat, why: KillReason, e: nat)
    requires Settled(s) && 0 < i < |s.tasks| && e < |s.endpoints|
    ensures |Released(s, i, why).endpoints| == |s.endpoints|
    ensures EndpointFate(s, i, e, Released(s, i, why).endpoints[e])
  {
    ClosedOk(s, i, why);
    ClearedOk(s, i, why);
    WakeOk(s, i, why);
    var b := Buried(s, i, why);
    var c := Closed(s, i, why);
    var d := Cleared(s, i, why);
    var ep := s.endpoints[e];
    assert b.endpoints[e] == PurgeEndpoint(ep, i);
    assert c.endpoints[e] == ClosedFor(b.endpoints[e], i + 1);
    assert LineKept(c, c.endpoints[e], d.endpoints[e], i + 1, e);
    if ep.owner == Some(i + 1) {
      EmptyLine(d.endpoints[e].repliers);
    } else {
      assert Distinct(Members(s, AtReply(e)));
      PurgedLine(ep.repliers, i);
      SwapPurgeShorter(ep.repliers, i, 0);
      forall y: nat ensures y in d.endpoints[e].repliers <==> y in ep.repliers && y != i && !Bereaved(s, i, y) {
        LineFate(s, i, why, e, y);
      }
    }
  }

  lemma EmptyLine(q: seq<nat>)
    ensures q == [] || exists y: nat :: y in q
  {
    if q != [] { assert q[0] in q; }
  }

  lemma {:induction false} SwapPurgeShorter(q: seq<nat>, x: nat, pos: nat)
    ensures SwapPurge(q, x, pos) == q || |SwapPurge(q, x, pos)| < |q|
    decreases |q| - pos
  {
    if pos < |q| {
      if q[pos] == x {
        SwapPurgeShorter(SwapRemove(q, pos), x, pos);
      } else {
        SwapPurgeShorter(q, x, pos + 1);
      }
    }
  }

  lemma LineFate(s: State, i: nat, why: KillReason, e: nat, y: nat)
    requires Settled(s) && 0 < i < |s.tasks| && e < |s.endpoints| && s.endpoints[e].owner != Some(i + 1)
    ensures y in Cleared(s, i, why).endpoints[e].repliers <==>
      y in s.endpoints[e].repliers && y != i && !Bereaved(s, i, y)
  {
    ClosedOk(s, i, why);
    ClearedOk(s, i, why);
    var c := Closed(s, i, why);
    var d := Cleared(s, i, why);
    assert LineKept(c, c.endpoints[e], d.endpoints[e], i + 1, e);
    BuriedMembers(s, i, why, e, y);
    assert c.endpoints[e] == Buried(s, i, why).endpoints[e];
    if y in s.endpoints[e].repliers && y != i {
      assert y in Members(s, AtReply(e));
      OrphansBereaved(s, i, why, y);
      ClosedOutWaiters(s, i, why, y);
      assert c.tasks[y] == s.tasks[y];
      assert y in c.endpoints[e].repliers;
    }
  }

  // ---------------------------------------------------------------------------
  // Back to the invariant
  // ---------------------------------------------------------------------------

  lemma FateTaskOk(s: State, i: nat, j: nat)
    requires TasksOk(s) && 0 < i < |s.tasks| && j < |s.tasks|
    ensures TaskOk(Fate(s, i, j), j, |s.tasks|)
  {
    assert TaskOk(s.tasks[j], j, |s.tasks|);
  }

  lemma ReleasedTasks(s: State, i: nat, why: KillReason)
    requires Settled(s) && 0 < i < |s.tasks|
    ensures var r := Released(s, i, why);
      |r.tasks| == |s.tasks| && r.current == s.current && TasksOk(r) && OneRunning(r)
  {
    var r := Released(s, i, why);
    WakeOk(s, i, why);
    ClosedOk(s, i, why);
    ClearedOk(s, i, why);
    FateMet(s, i, why, 0);
    forall j: nat | j < |r.tasks|
      ensures TaskOk(r.tasks[j], j, |r.tasks|) && (r.tasks[j].state == Running ==> j == r.current)
    {
      FateMet(s, i, why, j);
      FateTaskOk(s, i, j);
      assert s.tasks[j].state == Running ==> j == s.current;
    }
  }

  lemma ReleasedEndpoints(s: State, i: nat, why: KillReason)
    requires Settled(s) && 0 < i < |s.tasks|
    ensures EndpointsOk(Released(s, i, why))
  {
    var r := Released(s, i, why);
    forall e: nat | e < |r.endpoints| ensures EndpointOk(r.endpoints[e]) {
      EndpointFateMet(s, i, why, e);
      assert EndpointOk(s.endpoints[e]);
      assert SwapPurge([], i, 0) == [];
      if s.endpoints[e].closed { EmptyLine(r.endpoints[e].repliers); }
    }
  }

  lemma ReleasedPartners(s: State, i: nat, why: KillReason)
    requires Settled(s) && 0 < i < |s.tasks|
    ensures LivePartners(Released(s, i, why))
  {
    var r := Released(s, i, why);
    FateMet(s, i, why, 0);
    forall e: nat, x: nat {:trigger x in Members(r, AtReply(e))} | x in Members(r, AtReply(e))
      ensures x < |r.tasks| && PartnerLives(r, r.tasks[x])
    {
      EndpointFateMet(s, i, why, e);
      assert x in Members(s, AtReply(e)) && x != i && !Bereaved(s, i, x);
      PartnerSurvives(s, i, why, e, x);
    }
  }

  /** A waiter at somebody else's endpoint who does not await the dead task stays as it is. */
  lemma WaiterStays(s: State, i: nat, e: nat, x: nat)
    requires Settled(s) && 0 < i < |s.tasks| && e < |s.endpoints|
    requires x in Members(s, AtReply(e)) && x != i && !Bereaved(s, i, x) && s.endpoints[e].owner != Some(i + 1)
    ensures x < |s.tasks| && Fate(s, i, x) == s.tasks[x] && s.tasks[x].reason.Some? && s.tasks[x].reason.value.IpcReply?
    ensures s.tasks[x].reason.value.partner != i + 1
  {
    assert PartnerLives(s, s.tasks[x]);
  }

  lemma SurvivorLives(s: State, i: nat, p: nat)
    requires p < |s.tasks| && p != i && s.tasks[p].state != Dead
    ensures Fate(s, i, p).state != Dead
  {
  }

  lemma PartnerSurvives(s: State, i: nat, why: KillReason, e: nat, x: nat)
    requires Settled(s) && 0 < i < |s.tasks| && e < |s.endpoints|
    requires x in Members(s, AtReply(e)) && x != i && !Bereaved(s, i, x) && s.endpoints[e].owner != Some(i + 1)
    ensures |Released(s, i, why).tasks| == |s.tasks| && x < |s.tasks|
    ensures PartnerLives(Released(s, i, why), Released(s, i, why).tasks[x])
  {
    FateMet(s, i, why, x);
    assert PartnerLives(s, s.tasks[x]);
    var p := s.tasks[x].reason.value.partner - 1;
    FateMet(s, i, why, p);
    WaiterStays(s, i, e, x);
    SurvivorLives(s, i, p);
  }

  /** kill_task leaves a settled state, whoever is killed and whatever it owned. */
  lemma KillSettles(s: State, i: nat, why: KillReason)
    requires Settled(s) && 0 < i < |s.tasks|
    ensures Settled(KillQuietly(s, i, why))
  {
    var f := Released(s, i, why);
    WakeOk(s, i, why);
    ClosedOk(s, i, why);
    ClearedOk(s, i, why);
    ReleasedTasks(s, i, why);
    ReleasedEndpoints(s, i, why);
    ReleasedPartners(s, i, why);
    assert Settled(f);
    KillQuietlyForm(s, i, why);
    AlikeSettled(f, KillQuietly(s, i, why));
  }

  lemma KillQuietlyForm(s: State, i: nat, why: KillReason)
    requires Shape(s) && i < |s.tasks| && s.tasks[i].id == i + 1
    ensures KillQuietly(s, i, why)
         == Emit(Emit(Released(s, i, why), TaskKilled(i + 1, why)), TaskStateChanged(i + 1, Dead))
  {
  }

  /** Who was appended to the ready queue, in which order, and what the log says. */
  lemma KillLog(s: State, i: nat, why: KillReason)
    requires Settled(s) && 0 < i < |s.tasks|
    ensures var r := KillQuietly(s, i, why);
      var l := OwnedList(s, i, why) + Orphans(s, i, why);
      && r.ready == RemoveAll(s.ready, i) + l
      && r.history == s.history + ReadyEvents(l) + [TaskKilled(i + 1, why)] + [TaskStateChanged(i + 1, Dead)]
      && r == s.(tasks := r.tasks, ready := r.ready, endpoints := r.endpoints, history := r.history,
                 counters := CountKill(s.counters, why))
  {
    var b := Buried(s, i, why);
    var c := Closed(s, i, why);
    var d := Cleared(s, i, why);
    var f := Released(s, i, why);
    ClosedOk(s, i, why);
    ClearedOk(s, i, why);
    WakeOk(s, i, why);
    assert Woke(d, f, Orphans(s, i, why)) && Woke(c, f, Orphans(s, i, why));
    WokeTwice(b, c, f, OwnedList(s, i, why), Orphans(s, i, why));
    KillQuietlyForm(s, i, why);
  }
}
