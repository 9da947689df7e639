/** Every elementary move keeps queues and task states in agreement. */
module Links {
  import opened KernelTypes
  import opened KernelSpec
  import opened Counting
  import opened Slots
  import opened Invariant

  /** From `s` to `r` only task `i` changed its place. */
  ghost predicate OnlyMoved(s: State, r: State, i: nat) {
    && |r.tasks| == |s.tasks| && i < |s.tasks|
    && (forall j: nat {:trigger r.tasks[j]} :: j < |s.tasks| && j != i ==> Home(r.tasks[j], j) == Home(s.tasks[j], j))
    && (forall sl: Slot, j: nat {:trigger j in Members(r, sl)} :: j != i ==> (j in Members(r, sl) <==> j in Members(s, sl)))
    && (forall sl: Slot {:trigger Members(r, sl)} :: Distinct(Members(r, sl)))
    && (forall sl: Slot {:trigger Members(r, sl)} :: i in Members(r, sl) <==> Home(r.tasks[i], i) == Some(sl))
  }

  lemma Moved(s: State, r: State, i: nat)
    requires Linked(s) && OnlyMoved(s, r, i)
    ensures Linked(r)
  {
    forall j: nat | j < |r.tasks| && NeedsSlot(r.tasks[j], j) ensures j in Members(r, Home(r.tasks[j], j).value) {
      if j != i {
        assert NeedsSlot(s.tasks[j], j);
        assert j in Members(s, Home(s.tasks[j], j).value);
      }
    }
  }

  /** `q'` is `q` without `i`. */
  ghost predicate Without(q: seq<nat>, q': seq<nat>, i: nat) {
    Distinct(q') && forall y: nat :: y in q' <==> y in q && y != i
  }

  predicate At(h: Option<Slot>, sl: Slot) {
    h == Some(sl)
  }

  /** Task `i` leaves slot `a`, if any, and joins the end of slot `b`, if any. */
  lemma Move(s: State, r: State, i: nat, a: Option<Slot>, b: Option<Slot>)
    requires Linked(s) && |r.tasks| == |s.tasks| && i < |s.tasks|
    requires Home(s.tasks[i], i) == a && Home(r.tasks[i], i) == b && a != b
    requires forall j: nat {:trigger r.tasks[j]} :: j < |s.tasks| && j != i ==> Home(r.tasks[j], j) == Home(s.tasks[j], j)
    requires forall sl: Slot {:trigger Members(r, sl)} :: !At(a, sl) && !At(b, sl) ==> Members(r, sl) == Members(s, sl)
    requires a.Some? ==> Without(Members(s, a.value), Members(r, a.value), i)
    requires b.Some? ==> Members(r, b.value) == Members(s, b.value) + [i]
    ensures Linked(r)
  {
    forall sl: Slot ensures Distinct(Members(r, sl)) && (i in Members(r, sl) <==> At(b, sl)) {
      assert Distinct(Members(s, sl));
      assert i in Members(s, sl) ==> At(a, sl);
    }
    forall sl: Slot, j: nat | j != i ensures j in Members(r, sl) <==> j in Members(s, sl) {
      if At(a, sl) {
      } else if At(b, sl) {
      } else {
        assert Members(r, sl) == Members(s, sl);
      }
    }
    Moved(s, r, i);
  }

  /** Dropping the last entry of a line without repeats. */
  lemma WithoutLast(q: seq<nat>)
    requires Distinct(q) && q != []
    ensures Without(q, q[..|q| - 1], q[|q| - 1])
  {
    var init := q[..|q| - 1];
    assert q == init + [q[|q| - 1]];
  }

  lemma QueuedLinks(s: State, e: nat, msg: Word)
    requires Shape(s) && e < |s.endpoints| && Linked(s) && s.tasks[s.current].state == Running
    ensures Linked(Queued(s, e, msg))
  {
    Move(s, Queued(s, e, msg), s.current, None, Some(AtSend(e)));
  }

  /** A receiver that finds no sender becomes the endpoint's waiting receiver. */
  function Listening(s: State, e: nat): State
    requires Shape(s) && e < |s.endpoints|
  {
    s.(tasks := s.tasks[s.current := Parked(s.tasks[s.current], IpcRecv(e))],
       endpoints := s.endpoints[e := s.endpoints[e].(receiver := Some(s.current))],
       counters := s.counters.(recvSlow := s.counters.recvSlow + 1),
       history := s.history + [TaskStateChanged(s.tasks[s.current].id, Blocked)]
                  + [IpcRecvBlocked(s.tasks[s.current].id, e)])
  }

  lemma ListeningLinks(s: State, e: nat)
    requires Shape(s) && e < |s.endpoints| && Linked(s) && s.tasks[s.current].state == Running
    requires s.endpoints[e].receiver == None
    ensures Linked(Listening(s, e))
  {
    Move(s, Listening(s, e), s.current, None, Some(AtRecv(e)));
  }

  lemma HandedOverLinks(s: State, e: nat, x: nat, msg: Word)
    requires Shape(s) && e < |s.endpoints| && Linked(s) && s.tasks[s.current].state == Running
    requires 0 < x < |s.tasks| && s.tasks[x].state == Blocked && s.tasks[x].reason == Some(IpcRecv(e))
    requires s.endpoints[e].receiver == Some(x)
    ensures Linked(HandedOver(s, e, x, msg))
  {
    var r := HandedOver(s, e, x, msg);
    var m := s.(tasks := s.tasks[x := Woken(s.tasks[x]).(lastMsg := Some(msg))], ready := s.ready + [x],
                endpoints := s.endpoints[e := s.endpoints[e].(receiver := None)]);
    Move(s, m, x, Some(AtRecv(e)), Some(AtReady));
    Move(m, r, s.current, None, Some(AtReply(e)));
  }

  lemma TakenFromLinks(s: State, e: nat, x: nat)
    requires Shape(s) && e < |s.endpoints| && s.endpoints[e].senders != [] && Linked(s)
    requires s.tasks[s.current].state == Running
    requires x < |s.tasks| && x == s.endpoints[e].senders[|s.endpoints[e].senders| - 1]
    requires QueuedSender(s, e, x) && s.tasks[x].pendingMsg.Some?
    ensures Linked(TakenFrom(s, e, x))
  {
    assert Distinct(Members(s, AtSend(e)));
    WithoutLast(s.endpoints[e].senders);
    Move(s, TakenFrom(s, e, x), x, Some(AtSend(e)), Some(AtReply(e)));
  }

  predicate NoNewDead(s: State, r: State) {
    |r.tasks| == |s.tasks|
    && forall j: nat {:trigger r.tasks[j]} :: j < |r.tasks| && r.tasks[j].state == Dead ==> s.tasks[j].state == Dead
  }

  /** Reply lines that only lose entries keep their live partners while nobody dies. */
  lemma PartnersKept(s: State, r: State)
    requires LivePartners(s) && NoNewDead(s, r)
    requires forall e: nat, x: nat {:trigger x in Members(r, AtReply(e))} ::
      x in Members(r, AtReply(e)) ==> x in Members(s, AtReply(e)) && x < |s.tasks| && r.tasks[x].reason == s.tasks[x].reason
    ensures LivePartners(r)
  {
    forall e: nat, x: nat | x in Members(r, AtReply(e)) ensures x < |r.tasks| && PartnerLives(r, r.tasks[x]) {
      assert x in Members(s, AtReply(e));
      assert r.tasks[r.tasks[x].reason.value.partner - 1].state == Dead ==> s.tasks[r.tasks[x].reason.value.partner - 1].state == Dead;
    }
  }
}
