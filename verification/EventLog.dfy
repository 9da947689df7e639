/** The bounded event log: a ring that keeps exactly the latest events. */
module EventLog {
  import opened KernelTypes

  /** The last `n` events, or all of them if there are fewer. */
  function Latest(h: seq<Event>, n: nat): (r: seq<Event>)
    ensures |r| == if |h| < n then |h| else n
    ensures r <= h[|h| - |r|..]
  {
    if |h| <= n then h else h[|h| - n..]
  }

  /** Pushing one more event drops the oldest one exactly when the log is full. */
  lemma LatestPush(h: seq<Event>, ev: Event, n: nat)
    requires n > 0
    ensures Latest(h + [ev], n) == (if |h| < n then Latest(h, n) else Latest(h, n)[1..]) + [ev]
  {
    if |h| >= n {
      assert (h + [ev])[|h| + 1 - n..] == h[|h| - n..][1..] + [ev];
    }
  }

  /** `x` modulo the capacity, for positions that wrap around at most once. */
  function Wrap(x: nat, cap: nat): (p: nat)
    requires x < 2 * cap
    ensures p == if x < cap then x else x - cap
  {
    if x >= cap then Overshoot(x, cap); x % cap else x % cap
  }

  lemma Overshoot(x: nat, cap: nat)
    requires cap <= x < 2 * cap
    ensures x % cap == x - cap
  {
    assert x == 1 * cap + (x - cap);
    assert x / cap == 1;
  }

  predicate Sized(slots: seq<Option<Event>>, head: nat, n: nat) {
    n <= |slots| && (n < |slots| ==> head == 0) && (|slots| > 0 ==> head < |slots|)
  }

  /** The `n` slots from the head on. */
  function Unrolled(slots: seq<Option<Event>>, head: nat, n: nat): (r: seq<Option<Event>>)
    requires Sized(slots, head, n)
    ensures |r| == n && forall i: nat {:trigger r[i]} :: i < n ==> r[i] == slots[Wrap(head + i, |slots|)]
  {
    seq(n, i requires 0 <= i < n => slots[Wrap(head + i, |slots|)])
  }

  function Present(events: seq<Event>): (r: seq<Option<Event>>)
    ensures |r| == |events| && forall i: nat {:trigger r[i]} :: i < |r| ==> r[i] == Some(events[i])
  {
    seq(|events|, i requires 0 <= i < |events| => Some(events[i]))
  }

  lemma FillHolds(slots: seq<Option<Event>>, recent: seq<Event>, ev: Event)
    requires |recent| < |slots| && Unrolled(slots, 0, |recent|) == Present(recent)
    ensures Unrolled(slots[|recent| := Some(ev)], 0, |recent| + 1) == Present(recent + [ev])
  {
    var slots' := slots[|recent| := Some(ev)];
    forall i: nat | i < |recent| ensures slots'[i] == Some(recent[i]) {
      assert Unrolled(slots, 0, |recent|)[i] == Present(recent)[i];
    }
  }

  /** In a full ring the new event replaces the oldest, and the head moves by one. */
  lemma TurnHolds(slots: seq<Option<Event>>, head: nat, recent: seq<Event>, ev: Event)
    requires |recent| == |slots| && head < |slots| && Unrolled(slots, head, |slots|) == Present(recent)
    ensures Unrolled(slots[head := Some(ev)], Wrap(head + 1, |slots|), |slots|) == Present(recent[1..] + [ev])
  {
    var cap := |slots|;
    var slots' := slots[head := Some(ev)];
    var head' := Wrap(head + 1, cap);
    var u := Unrolled(slots', head', cap);
    forall i: nat | i < cap ensures u[i] == Present(recent[1..] + [ev])[i] {
      if i < cap - 1 {
        assert Unrolled(slots, head, cap)[i + 1] == Present(recent)[i + 1];
        assert Wrap(head' + i, cap) == Wrap(head + i + 1, cap) != head;
      }
    }
  }

  /** What a ring holds: its slots, the position of its oldest event and how many there are. */
  datatype RingState = RingState(slots: seq<Option<Event>>, head: nat, len: nat)

  /** One more event: at the first free slot, or in place of the oldest. */
  function Pushed(r: RingState, ev: Event): RingState {
    var cap := |r.slots|;
    if cap == 0 then r
    else
      var slots := r.slots[(r.head + r.len) % cap := Some(ev)];
      if r.len < cap then RingState(slots, r.head, r.len + 1) else RingState(slots, (r.head + 1) % cap, r.len)
  }

  /** The ring of capacity `cap` after all of `h` was pushed. */
  function RingAfter(h: seq<Event>, cap: nat): RingState {
    if h == [] then RingState(seq(cap, _ => None), 0, 0) else Pushed(RingAfter(h[..|h| - 1], cap), h[|h| - 1])
  }

  /** A ring holds exactly the latest events, in order from its head on. */
  predicate HoldsLatest(r: RingState, h: seq<Event>, cap: nat) {
    |r.slots| == cap && Sized(r.slots, r.head, r.len) && Unrolled(r.slots, r.head, r.len) == Present(Latest(h, cap))
  }

  lemma PushHolds(r: RingState, h: seq<Event>, cap: nat, ev: Event)
    requires HoldsLatest(r, h, cap)
    ensures HoldsLatest(Pushed(r, ev), h + [ev], cap)
  {
    if cap > 0 {
      LatestPush(h, ev, cap);
      var recent := Latest(h, cap);
      assert |Present(recent)| == r.len;
      assert (r.head + r.len) % cap == Wrap(r.head + r.len, cap) && (r.head + 1) % cap == Wrap(r.head + 1, cap);
      if r.len < cap { FillHolds(r.slots, recent, ev); } else { TurnHolds(r.slots, r.head, recent, ev); }
    }
  }

  /** However often the ring has wrapped around, it holds the latest events. */
  lemma {:induction false} RingHolds(h: seq<Event>, cap: nat)
    ensures HoldsLatest(RingAfter(h, cap), h, cap)
  {
    if h != [] {
      RingHolds(h[..|h| - 1], cap);
      PushHolds(RingAfter(h[..|h| - 1], cap), h[..|h| - 1], cap, h[|h| - 1]);
      assert h[..|h| - 1] + [h[|h| - 1]] == h;
    }
  }

  class Ring {
    const slots: array<Option<Event>>
    var head: nat
    var len: nat
    /** Everything ever pushed. */
    ghost var history: seq<Event>

    ghost predicate Valid()
      reads this, slots
    {
      RingState(slots[..], head, len) == RingAfter(history, slots.Length)
    }

    constructor (capacity: nat)
      ensures Valid() && fresh(slots) && slots.Length == capacity && history == []
    {
      slots := new Option<Event>[capacity](_ => None);
      head, len := 0, 0;
      history := [];
    }

    /** push_event */
    method Push(ev: Event)
      requires Valid()
      modifies this, slots
      ensures Valid() && history == old(history) + [ev]
    {
      RingHolds(history, slots.Length);
      history := history + [ev];
      assert history[..|history| - 1] == old(history);
      if slots.Length == 0 { return; }
      var pos := (head + len) % slots.Length;
      slots[pos] := Some(ev);
      assert slots[..] == old(slots[..])[pos := Some(ev)];
      if len < slots.Length {
        len := len + 1;
      } else {
        head := (head + 1) % slots.Length;
      }
    }

    /** dump_events: reading `len` slots from the head gives the latest events in order, however
        often the ring has wrapped around. */
    method Dump() returns (events: seq<Event>)
      requires Valid()
      ensures events == Latest(history, slots.Length)
    {
      RingHolds(history, slots.Length);
      events := [];
      ghost var recent := Latest(history, slots.Length);
      assert |Present(recent)| == len;
      for i := 0 to len
        invariant events == recent[..i]
      {
        assert Unrolled(slots[..], head, len)[i] == Present(recent)[i];
        match slots[Wrap(head + i, slots.Length)]
        case Some(ev) => events := events + [ev];
        case None => assert false;
      }
    }
  }
}
