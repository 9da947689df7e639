/** What the log says about switches, and which page-table root each of them loads. */
module Switches {
  import opened KernelTypes
  import opened KernelSpec
  import opened Slots
  import opened Invariant
  import opened Scheduling
  import opened KillOutcome
  import opened Actions
  import opened Roots

  // ---------------------------------------------------------------------------
  // A schedule
  // ---------------------------------------------------------------------------

  lemma VacatedStill(s: State)
    requires Settled(s)
    ensures var v := Vacated(s);
      && Shuffles(s.history, v.history) && v.counters == s.counters && v.cr3 == s.cr3 && v.config == s.config
  {
    CompactionIdle(s);
    if s.tasks[s.current].state == Running && s.current != 0 { RequeueForm(s); }
  }

  /** `h'` adds only changes of states and of the ready queue to `h`. */
  predicate Shuffles(h: seq<Event>, h': seq<Event>) {
    h <= h' && forall k: nat {:trigger h'[k]} :: |h| <= k < |h'| ==> h'[k].TaskStateChanged? || h'[k].ReadyQueued? || h'[k].ReadyDequeued?
  }

  /** The root for task `i`: the kernel's for the idle task; its own for a user task, unless the build
      does not allow real switches. */
  function RootFor(i: nat, allowSwitch: bool): nat {
    if allowSwitch then i else 0
  }

  /** A schedule from `s` has led to `r`: it logs one switch, to the task that now runs, and counts it
      unless that is the idle task or the one that ran before. */
  predicate SwitchedFrom(s: State, r: State, h: seq<Event>) {
    && Shuffles(s.history, h) && r.history == h + [TaskSwitched(r.current + 1)] + [TaskStateChanged(r.current + 1, Running)]
    && r.config == s.config
    && r.counters == s.counters.(switches := s.counters.switches + if r.current != 0 && r.current != s.current then 1 else 0)
  }

  /** What a dispatch from `v` to `r` logs, counts and loads. */
  predicate DispatchedFrom(v: State, prev: nat, r: State) {
    && 0 < r.current < |v.tasks|
    && r.history == v.history + [ReadyDequeued(r.current + 1)] + [TaskSwitched(r.current + 1)] + [TaskStateChanged(r.current + 1, Running)]
    && r.config == v.config && r.counters == v.counters.(switches := v.counters.switches + if r.current != prev then 1 else 0)
    && r.cr3 == if v.tasks[r.current].space.rooted && v.config.allowSwitch then r.current else v.cr3
  }

  lemma DispatchSwitch(v: State, prev: nat)
    requires Shape(v) && Linked(v) && TasksOk(v) && v.ready != []
    ensures DispatchedFrom(v, prev, Dispatch(v, prev))
  {
    DispatchForm(v, prev);
    assert TaskOk(v.tasks[Choice(v)], Choice(v), |v.tasks|);
  }

  predicate IdledFrom(v: State, r: State) {
    && r.current == 0 && r.history == v.history + [TaskSwitched(1)] + [TaskStateChanged(1, Running)]
    && r.config == v.config && r.counters == v.counters && r.cr3 == 0
  }

  lemma IdleSwitch(v: State)
    requires Shape(v) && TasksOk(v)
    ensures IdledFrom(v, RunIdle(v))
  {
    assert TaskOk(v.tasks[0], 0, |v.tasks|);
  }

  lemma ScheduleSplit(s: State)
    requires Settled(s)
    ensures var v := Vacated(s); if v.ready == [] then IdledFrom(v, Schedule(s)) else DispatchedFrom(v, s.current, Schedule(s))
  {
    VacatedOk(s);
    VacatedLinks(s);
    var v := Vacated(s);
    if v.ready == [] { IdleSwitch(v); } else { DispatchSwitch(v, s.current); }
  }

  lemma ScheduleSwitch(s: State) returns (h: seq<Event>)
    requires Settled(s)
    ensures SwitchedFrom(s, Schedule(s), h)
  {
    VacatedStill(s);
    ScheduleSplit(s);
    h := SplitSwitch(s, Vacated(s), Schedule(s));
  }

  lemma SplitSwitch(s: State, v: State, r: State) returns (h: seq<Event>)
    requires Shuffles(s.history, v.history) && v.counters == s.counters && v.config == s.config
    requires IdledFrom(v, r) || DispatchedFrom(v, s.current, r)
    ensures SwitchedFrom(s, r, h)
  {
    h := if r.current == 0 then v.history else v.history + [ReadyDequeued(r.current + 1)];
  }

  /** What a schedule loads: the root of the user task it picks where real switches are allowed, no other
      root than before where they are not, and the kernel's under the idle task. */
  lemma ScheduleLoads(s: State)
    requires Settled(s) && RootOk(s)
    ensures var r := Schedule(s);
      && (r.current != 0 && s.config.allowSwitch ==> r.cr3 == r.current)
      && (r.current != 0 && !s.config.allowSwitch ==> r.cr3 == s.cr3)
      && (r.current == 0 ==> r.cr3 == 0)
  {
    VacatedStill(s);
    ScheduleSplit(s);
    if Vacated(s).ready != [] { VacatedRooted(s, Schedule(s).current); }
  }

  lemma VacatedRooted(s: State, j: nat)
    requires Settled(s) && AllRooted(s) && j < |s.tasks|
    ensures Vacated(s).tasks[j].space.rooted
  {
    CompactionIdle(s);
    if s.tasks[s.current].state == Running && s.current != 0 { RequeueForm(s); }
  }

  // ---------------------------------------------------------------------------
  // The other actions
  // ---------------------------------------------------------------------------

  /** Nobody else runs, and no switch is logged or counted. */
  predicate Still(s: State, r: State) {
    r.current == s.current && r.config == s.config && r.counters.switches == s.counters.switches && Unswitched(s.history, r.history)
  }

  lemma NoteStill(s: State, k: Entry, r: State)
    requires Noted(s, r) && Books(s, k, r)
    ensures Still(s, r) && (!k.Ground? && !k.Quit? ==> r.cr3 == s.cr3)
  {
  }

  lemma SlayStill(s: State, i: nat, why: KillReason, r: State)
    requires Settled(s) && Slays(s, i, why, r)
    ensures Still(s, r) && r.cr3 == s.cr3
  {
    KillLog(s, i, why);
  }

  lemma SendStill(s: State, a: Action, r: State)
    requires Settled(s) && Does(s, a, r) && (a.QueueSend? || a.HandOver?)
    ensures Still(s, r) && r.cr3 == s.cr3
  {
  }

  lemma RecvStill(s: State, a: Action, r: State)
    requires Settled(s) && Does(s, a, r) && (a.TakeSend? || a.Listen?)
    ensures Still(s, r) && r.cr3 == s.cr3
  {
  }

  lemma ReplyStill(s: State, a: Action, r: State)
    requires Settled(s) && Does(s, a, r) && Replies(a)
    ensures Still(s, r) && r.cr3 == s.cr3
  {
  }

  lemma ActionStill(s: State, a: Action, r: State)
    requires Settled(s) && Does(s, a, r) && !a.Reschedule?
    ensures Still(s, r) && (a != Note(Ground) && a != Note(Quit) ==> r.cr3 == s.cr3)
  {
    if a.Note? {
      NoteStill(s, a.entry, r);
    } else if a.Slay? {
      SlayStill(s, a.task, a.why, r);
    } else {
      CallStill(s, a, r);
    }
  }

  lemma CallStill(s: State, a: Action, r: State)
    requires Settled(s) && Does(s, a, r) && !a.Reschedule? && !a.Note? && !a.Slay?
    ensures Still(s, r) && r.cr3 == s.cr3
  {
    match a
    case QueueSend(_, _) => SendStill(s, a, r);
    case HandOver(_, _, _) => SendStill(s, a, r);
    case TakeSend(_, _) => RecvStill(s, a, r);
    case Listen(_) => RecvStill(s, a, r);
    case Answer(_, _, _) => ReplyStill(s, a, r);
    case Misdirect(_) => ReplyStill(s, a, r);
  }

  // ---------------------------------------------------------------------------
  // The log of switches
  // ---------------------------------------------------------------------------

  /** The task that the log last switched to; at first the idle task, whose id is 1. */
  function LastSwitched(h: seq<Event>): TaskId {
    if h == [] then 1
    else if h[|h| - 1].TaskSwitched? then h[|h| - 1].task
    else LastSwitched(h[..|h| - 1])
  }

  /** How often the log switches to a user task other than the one before. */
  function SwitchCount(h: seq<Event>): nat {
    if h == [] then 0
    else
      var init := h[..|h| - 1];
      var ev := h[|h| - 1];
      SwitchCount(init) + if ev.TaskSwitched? && ev.task != 1 && ev.task != LastSwitched(init) then 1 else 0
  }

  lemma {:induction false} UnswitchedSame(h: seq<Event>, h': seq<Event>)
    requires Unswitched(h, h')
    ensures LastSwitched(h') == LastSwitched(h) && SwitchCount(h') == SwitchCount(h)
    decreases |h'|
  {
    if |h'| > |h| { UnswitchedSame(h, h'[..|h'| - 1]); } else { assert h' == h; }
  }

  lemma SwitchedOn(h: seq<Event>, id: TaskId)
    ensures var h' := h + [TaskSwitched(id)] + [TaskStateChanged(id, Running)];
      && LastSwitched(h') == id
      && SwitchCount(h') == SwitchCount(h) + if id != 1 && id != LastSwitched(h) then 1 else 0
  {
    var m := h + [TaskSwitched(id)];
    assert m[..|h|] == h;
    assert Unswitched(m, m + [TaskStateChanged(id, Running)]);
    UnswitchedSame(m, m + [TaskStateChanged(id, Running)]);
  }

  /** The running task is the one that the log last switched to, and the counter of switches counts
      the logged ones. */
  predicate LogOk(s: State) {
    LastSwitched(s.history) == s.current + 1 && SwitchCount(s.history) == s.counters.switches
  }

  lemma ActionLog(s: State, a: Action, r: State)
    requires Settled(s) && LogOk(s) && Does(s, a, r)
    ensures LogOk(r)
  {
    if a.Reschedule? {
      var h := ScheduleSwitch(s);
      SwitchedLog(s, r, h);
    } else {
      ActionStill(s, a, r);
      StillLog(s, r);
    }
  }

  lemma SwitchedLog(s: State, r: State, h: seq<Event>)
    requires LogOk(s) && SwitchedFrom(s, r, h)
    ensures LogOk(r)
  {
    UnswitchedSame(s.history, h);
    SwitchedOn(h, r.current + 1);
  }

  lemma StillLog(s: State, r: State)
    requires LogOk(s) && Still(s, r)
    ensures LogOk(r)
  {
    UnswitchedSame(s.history, r.history);
  }

  lemma LogInductive()
    ensures Inductive(LogOk, ALL)
  {
    forall s: State, a: Action, r: State {:trigger LogOk(s), Does(s, a, r)} | Settled(s) && LogOk(s) && Does(s, a, r)
      ensures LogOk(r)
    {
      ActionLog(s, a, r);
    }
  }

  // ---------------------------------------------------------------------------
  // The loaded root
  // ---------------------------------------------------------------------------

  /** From `b` to `x`: without a switch, task and root are the same; after one, the root is that of the
      running task. */
  predicate Turn(b: State, x: State) {
    && RootOk(x) && x.config == b.config && b.history <= x.history
    && if Unswitched(b.history, x.history) then x.current == b.current && x.cr3 == b.cr3
       else x.cr3 == RootFor(x.current, x.config.allowSwitch)
  }

  lemma TurnChain(b: State, s: State, r: State)
    requires Turn(b, s) && Turn(s, r)
    ensures Turn(b, r)
  {
    if !Unswitched(b.history, s.history) {
      var k: nat :| |b.history| <= k < |s.history| && s.history[k].TaskSwitched?;
      assert r.history[k].TaskSwitched?;
    } else if !Unswitched(s.history, r.history) {
      var k: nat :| |s.history| <= k < |r.history| && r.history[k].TaskSwitched?;
      assert !Unswitched(b.history, r.history);
    }
  }

  lemma RescheduleTurns(s: State, r: State)
    requires Settled(s) && RootOk(s) && Reschedules(s, r)
    ensures Turn(s, r)
  {
    RescheduleRoot(s, r);
    ScheduleLoads(s);
    var h := ScheduleSwitch(s);
    assert r.history[|h|].TaskSwitched?;
  }

  /** When the kernel stops, the kernel root is loaded already. */
  lemma QuitTurns(s: State, r: State)
    requires Settled(s) && RootOk(s) && Quits(s, r)
    ensures r.cr3 == s.cr3
  {
    assert TaskOk(s.tasks[s.current], s.current, |s.tasks|);
    assert s.tasks[s.current].kind != UserSpace;
  }

  lemma ActionTurns(s: State, a: Action, r: State)
    requires Settled(s) && RootOk(s) && Does(s, a, r) && a != Note(Ground)
    ensures Turn(s, r)
  {
    if a.Reschedule? {
      RescheduleTurns(s, r);
    } else {
      ActionStill(s, a, r);
      if a == Note(Quit) { QuitTurns(s, r); }
      ActionRoot(s, a, r);
    }
  }

  const NO_GROUNDS := Scope(true, true, false, true, true)

  lemma TurnInductive(b: State)
    ensures Inductive((x: State) => Turn(b, x), NO_GROUNDS)
  {
    var P := (x: State) => Turn(b, x);
    forall s: State, a: Action, r: State {:trigger P(s), Does(s, a, r)} |
      Settled(s) && P(s) && Within(a, NO_GROUNDS) && Does(s, a, r) ensures P(r)
    {
      ActionTurns(s, a, r);
      TurnChain(b, s, r);
    }
  }
}
