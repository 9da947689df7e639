/** Who dies in a tick, why, and what is counted and logged about it. */
module Deaths {
  import opened KernelTypes
  import opened PageOps
  import opened KernelSpec
  import opened Invariant
  import opened Scheduling
  import opened Links
  import opened IpcPaths
  import opened KillOutcome
  import opened KillTheorem
  import opened Actions
  import opened Steps
  import opened Spaces
  import opened Switches
  import opened Runs

  // ---------------------------------------------------------------------------
  // Nobody dies
  // ---------------------------------------------------------------------------

  predicate NoKill(h: seq<Event>, h': seq<Event>) {
    h <= h' && forall k: nat {:trigger h'[k]} :: |h| <= k < |h'| ==> !h'[k].TaskKilled?
  }

  predicate SameKills(c: Counters, c': Counters) {
    c'.killedUserPf == c.killedUserPf && c'.killedDemo == c.killedDemo
  }

  predicate SameDead(s: State, r: State) {
    |r.tasks| == |s.tasks| && forall j: nat {:trigger r.tasks[j]} :: j < |s.tasks| ==> (r.tasks[j].state == Dead <==> s.tasks[j].state == Dead)
  }

  /** Nobody has died, and no kill is counted or logged. */
  predicate Bloodless(s: State, r: State) {
    SameDead(s, r) && SameKills(s.counters, r.counters) && NoKill(s.history, r.history)
  }

  lemma BloodlessChain(b: State, s: State, r: State)
    requires Bloodless(b, s) && Bloodless(s, r)
    ensures Bloodless(b, r)
  {
    forall j: nat | j < |b.tasks| ensures r.tasks[j].state == Dead <==> b.tasks[j].state == Dead { assert s.tasks[j].state == Dead <==> b.tasks[j].state == Dead; }
    forall k: nat | |b.history| <= k < |r.history| ensures !r.history[k].TaskKilled? {
      if k < |s.history| { assert !s.history[k].TaskKilled?; }
    }
  }

  lemma NoteBloodless(s: State, k: Entry, r: State)
    requires Noted(s, r) && Books(s, k, r) && !k.Miss?
    ensures Bloodless(s, r)
  {
    forall j: nat | j < |s.tasks| ensures r.tasks[j].state == Dead <==> s.tasks[j].state == Dead { assert SameButSlice(s.tasks[j], r.tasks[j]); }
    assert SameKills(s.counters, r.counters);
  }

  lemma RescheduleBloodless(s: State, r: State)
    requires Settled(s) && Reschedules(s, r)
    ensures Bloodless(s, r)
  {
    RescheduleUntouched(s, r);
    var h := ScheduleSwitch(s);
    SwitchQuiet(s, r, h);
  }

  lemma SwitchQuiet(s: State, r: State, h: seq<Event>)
    requires SwitchedFrom(s, r, h)
    ensures SameKills(s.counters, r.counters) && NoKill(s.history, r.history)
  {
  }

  lemma SendQuiet(s: State, a: Action, r: State)
    requires Settled(s) && Does(s, a, r) && (a.QueueSend? || a.HandOver?)
    ensures SameKills(s.counters, r.counters) && NoKill(s.history, r.history)
  {
  }

  lemma RecvQuiet(s: State, a: Action, r: State)
    requires Settled(s) && Does(s, a, r) && (a.TakeSend? || a.Listen?)
    ensures SameKills(s.counters, r.counters) && NoKill(s.history, r.history)
  {
  }

  lemma ReplyQuiet(s: State, a: Action, r: State)
    requires Settled(s) && Does(s, a, r) && Replies(a)
    ensures SameKills(s.counters, r.counters) && NoKill(s.history, r.history)
  {
  }

  lemma CallBloodless(s: State, a: Action, r: State)
    requires Settled(s) && Does(s, a, r) && !a.Note? && !a.Slay? && !a.Reschedule?
    ensures Bloodless(s, r)
  {
    ActionUntouched(s, a, r);
    if Replies(a) { ReplyQuiet(s, a, r); } else if a.QueueSend? || a.HandOver? { SendQuiet(s, a, r); } else { RecvQuiet(s, a, r); }
  }

  const DEATHLESS := Scope(false, true, true, true, false)

  lemma ActionBloodless(s: State, a: Action, r: State)
    requires Settled(s) && Within(a, DEATHLESS) && Does(s, a, r)
    ensures Bloodless(s, r)
  {
    if a.Note? { NoteBloodless(s, a.entry, r); } else if a.Reschedule? { RescheduleBloodless(s, r); } else { CallBloodless(s, a, r); }
  }

  lemma BloodlessInductive(b: State)
    ensures Inductive((x: State) => Bloodless(b, x), DEATHLESS)
  {
    var P := (x: State) => Bloodless(b, x);
    forall s: State, a: Action, r: State {:trigger P(s), Does(s, a, r)} |
      Settled(s) && P(s) && Within(a, DEATHLESS) && Does(s, a, r) ensures P(r)
    {
      ActionBloodless(s, a, r);
      BloodlessChain(b, s, r);
    }
  }

  // ---------------------------------------------------------------------------
  // One task is killed
  // ---------------------------------------------------------------------------

  /** Task `i` has died, and nobody else; the kill is counted under its reason, and logged once, with it. */
  predicate OneKilled(s: State, r: State, i: nat, why: KillReason) {
    && i < |s.tasks| && |r.tasks| == |s.tasks| && s.tasks[i].state != Dead && r.tasks[i].state == Dead
    && (forall j: nat {:trigger r.tasks[j]} :: j < |s.tasks| && j != i ==> (r.tasks[j].state == Dead <==> s.tasks[j].state == Dead))
    && r.counters.killedUserPf == s.counters.killedUserPf + (if why == UserPageFault then 1 else 0)
    && r.counters.killedDemo == s.counters.killedDemo + (if why == DemoInjected then 1 else 0)
    && exists n: nat {:trigger LoggedAt(s.history, r.history, n, TaskKilled(i + 1, why))} :: n < |r.history| && LoggedAt(s.history, r.history, n, TaskKilled(i + 1, why))
  }

  /** `ev` is the one kill that `h'` adds to `h`, at position `n`. */
  predicate LoggedAt(h: seq<Event>, h': seq<Event>, n: nat, ev: Event) {
    && h <= h' && |h| <= n < |h'| && h'[n] == ev
    && forall k: nat {:trigger h'[k]} :: |h| <= k < |h'| && k != n ==> !h'[k].TaskKilled?
  }

  lemma LoggedLater(b: seq<Event>, h: seq<Event>, m: seq<Event>, h': seq<Event>, n: nat, ev: Event)
    requires NoKill(b, h) && LoggedAt(h, m, n, ev) && NoKill(m, h')
    ensures LoggedAt(b, h', n, ev)
  {
    forall k: nat | |b| <= k < |h'| && k != n ensures !h'[k].TaskKilled? {
      if k < |h| { assert h'[k] == h[k]; } else if k < |m| { assert h'[k] == m[k]; }
    }
  }

  lemma KilledBetween(b: State, s: State, m: State, r: State, i: nat, why: KillReason)
    requires Bloodless(b, s) && OneKilled(s, m, i, why) && Bloodless(m, r)
    ensures OneKilled(b, r, i, why)
  {
    var n: nat :| n < |m.history| && LoggedAt(s.history, m.history, n, TaskKilled(i + 1, why));
    LoggedLater(b.history, s.history, m.history, r.history, n, TaskKilled(i + 1, why));
    assert r.history[n] == TaskKilled(i + 1, why);
    forall j: nat | j < |b.tasks| && j != i ensures r.tasks[j].state == Dead <==> b.tasks[j].state == Dead {
      assert m.tasks[j].state == Dead <==> s.tasks[j].state == Dead;
      assert s.tasks[j].state == Dead <==> b.tasks[j].state == Dead;
    }
    assert s.tasks[i].state == Dead <==> b.tasks[i].state == Dead;
    assert m.tasks[i].state == Dead;
  }

  lemma SlainLog(s: State, i: nat, why: KillReason)
    requires Settled(s) && 0 < i < |s.tasks|
    ensures var r := KillQuietly(s, i, why);
      LoggedAt(s.history, r.history, |r.history| - 2, TaskKilled(i + 1, why)) && r.counters == CountKill(s.counters, why)
  {
    KillLog(s, i, why);
  }

  lemma SlainTasks(s: State, i: nat, why: KillReason)
    requires Settled(s) && 0 < i < |s.tasks|
    ensures var r := KillQuietly(s, i, why);
      && r.tasks[i].state == Dead
      && forall j: nat {:trigger r.tasks[j]} :: j < |s.tasks| && j != i ==> (r.tasks[j].state == Dead <==> s.tasks[j].state == Dead)
  {
    var r := KillQuietly(s, i, why);
    assert s.tasks[i].id == i + 1;
    KillQuietlyForm(s, i, why);
    FateMet(s, i, why, i);
    forall j: nat | j < |s.tasks| && j != i ensures r.tasks[j].state == Dead <==> s.tasks[j].state == Dead {
      FateMet(s, i, why, j);
    }
  }

  lemma Slain(s: State, i: nat, why: KillReason)
    requires Settled(s) && 0 < i < |s.tasks| && s.tasks[i].state != Dead
    ensures OneKilled(s, KillQuietly(s, i, why), i, why)
  {
    SlainLog(s, i, why);
    SlainTasks(s, i, why);
    var r := KillQuietly(s, i, why);
    assert r.history[|r.history| - 2] == TaskKilled(i + 1, why);
  }

  /** A kill of a living user task that does not panic kills it and nobody else, and is counted and logged
      under its reason. */
  lemma KillRecorded(s: State, i: nat, why: KillReason)
    requires Core(s) && 0 < i < |s.tasks| && s.tasks[i].state != Dead && CleanOk(s.tasks[i].space)
    ensures OneKilled(s, Kill(s, i, why), i, why)
  {
    Slain(s, i, why);
    var q := KillQuietly(s, i, why);
    KillSettles(s, i, why);
    var m := if i == s.current then Schedule(q) else q;
    if i == s.current { RescheduleBloodless(q, m); }
    assert Kill(s, i, why) == MaybeHalt(m);
    assert Bloodless(m, MaybeHalt(m));
    if i == s.current { BloodlessChain(q, m, MaybeHalt(m)); }
    assert Bloodless(s, s);
    KilledBetween(s, s, q, MaybeHalt(m), i, why);
  }

  // ---------------------------------------------------------------------------
  // Ticks
  // ---------------------------------------------------------------------------

  lemma PeacefulTick(s: State, inp: TickInput)
    requires Core(s) && (s.clock.halted || !Fatal(s, inp))
    ensures Bloodless(s, Tick(s, inp))
  {
    if !s.clock.halted {
      BloodlessInductive(s);
      TickKeeps(s, inp, (x: State) => Bloodless(s, x), DEATHLESS);
    }
  }

  /** A tick whose access to user memory faults is the kill of the running task. */
  lemma StrikeForm(s: State, inp: TickInput)
    requires Core(s) && Strikes(s, inp) && !s.clock.halted && !s.clock.panicked
    ensures var i := s.current;
      var k := Kill(StartTick(s).(cr3 := 0), i, UserPageFault);
      Tick(s, inp) == if CleanOk(s.tasks[i].space) then SetActivity(SetStage(k, i, 0), NextActivity(s.clock.activity)) else k
  {
    var i := s.current;
    var s1 := StartTick(s).(cr3 := 0);
    AlikeSettled(s, s1);
    KillStruck(s1);
    StruckAct(StartTick(s), inp);
  }

  lemma StruckAct(s: State, inp: TickInput)
    requires Strikes(s, inp) && s.tasks[s.current].state != Dead
    ensures var k := Kill(s.(cr3 := 0), s.current, UserPageFault);
      Act(s, inp) == if k.clock.panicked then k else SetStage(k, s.current, 0)
  {
    var next := if s.tasks[s.current].stage == 1 then 2 else 0;
    assert Act(s, inp) == GuardedAccess(s, inp, next);
  }

  lemma KillStruck(s: State)
    requires Core(s) && s.current != 0 && !s.clock.panicked
    ensures var k := Kill(s, s.current, UserPageFault);
      && (CleanOk(s.tasks[s.current].space) ==> !k.clock.panicked && k.tasks[s.current].state == Dead && Core(k))
      && (!CleanOk(s.tasks[s.current].space) ==> k == Panic(s))
  {
    KillPanicsIff(s, s.current, UserPageFault);
    KillExact(s, s.current, UserPageFault, s.current);
  }

  lemma StrikeTick(s: State, inp: TickInput)
    requires Core(s) && Strikes(s, inp) && !s.clock.halted && !s.clock.panicked
    ensures var r := Tick(s, inp);
      && (CleanOk(s.tasks[s.current].space) ==> OneKilled(s, r, s.current, UserPageFault) && !r.clock.panicked)
      && (!CleanOk(s.tasks[s.current].space) ==> Bloodless(s, r) && r.clock.panicked)
  {
    StrikeForm(s, inp);
    var i := s.current;
    var s1 := StartTick(s).(cr3 := 0);
    AlikeSettled(s, s1);
    KillStruck(s1);
    assert Bloodless(s, s1);
    if CleanOk(s.tasks[i].space) {
      var k := Kill(s1, i, UserPageFault);
      KillRecorded(s1, i, UserPageFault);
      StruckEnds(k, i, NextActivity(s.clock.activity));
      KilledBetween(s, s1, k, Tick(s, inp), i, UserPageFault);
    }
  }

  lemma StruckEnds(k: State, i: nat, next: Activity)
    requires i < |k.tasks|
    ensures Bloodless(k, SetActivity(SetStage(k, i, 0), next))
  {
  }

  // ---------------------------------------------------------------------------
  // The kill hook of receives
  // ---------------------------------------------------------------------------

  /** A receive leaves everybody's address space alone. */
  lemma RecvSpace(x: State, e: nat, i: nat)
    requires Core(x) && i < |x.tasks|
    ensures Recv(x, e).tasks[i].space == x.tasks[i].space
  {
    if Gate(x, e) == None {
      var x1 := Emit(x, IpcRecvCalled(x.tasks[x.current].id, e));
      AlikeSettled(x, x1);
      assert TaskOk(x1.tasks[x.current], x.current, |x.tasks|);
      RecvOpenSpace(x1, e, i);
    }
  }

  lemma RecvOpenSpace(x: State, e: nat, i: nat)
    requires Calling(x, e) && i < |x.tasks|
    ensures RecvOpen(x, e).tasks[i].space == x.tasks[i].space
  {
    RecvOpenIdeal(x, e);
    if x.endpoints[e].senders == [] && x.endpoints[e].receiver == None {
      ListeningSettles(x, e);
      ScheduleTask(Listening(x, e), i);
    }
  }

  /** A receive stops no clock. */
  lemma RecvClock(x: State, e: nat)
    requires Core(x)
    ensures Recv(x, e).clock == x.clock
  {
    if Gate(x, e) == None {
      var x1 := Emit(x, IpcRecvCalled(x.tasks[x.current].id, e));
      AlikeSettled(x, x1);
      assert TaskOk(x1.tasks[x.current], x.current, |x.tasks|);
      RecvOpenClock(x1, e);
    }
  }

  lemma RecvOpenClock(x: State, e: nat)
    requires Calling(x, e)
    ensures RecvOpen(x, e).clock == x.clock
  {
    RecvOpenIdeal(x, e);
    if x.endpoints[e].senders == [] && x.endpoints[e].receiver == None {
      ListeningSettles(x, e);
      ScheduleClock(Listening(x, e));
    }
  }

  /** What a hooked tick has done before the kill. */
  lemma HookedRecv(s: State, inp: TickInput)
    requires Core(s) && !Strikes(s, inp) && Serves(s, inp) && Hooked(Chosen(s, inp), inp)
    ensures var u := Chosen(s, inp);
      var m := Recv(Issued(u), u.tasks[u.current].pendingCall.value.ep);
      && u.current == s.current && Core(m) && Bloodless(s, m) && m.tasks[s.current].space == u.tasks[s.current].space && !m.clock.panicked
  {
    HookedIssued(s, inp);
    var x := Issued(Chosen(s, inp));
    var e := Chosen(s, inp).tasks[s.current].pendingCall.value.ep;
    BloodlessInductive(s);
    RecvKept(x, e, (y: State) => Bloodless(s, y), DEATHLESS);
    RecvSpace(x, e, s.current);
    RecvClock(x, e);
  }

  lemma HookedIssued(s: State, inp: TickInput)
    requires Core(s) && !Strikes(s, inp) && Serves(s, inp)
    ensures var u := Chosen(s, inp);
      && u.current == s.current && Core(Issued(u)) && Bloodless(s, Issued(u)) && !Issued(u).clock.panicked
      && Issued(u).tasks[s.current].space == u.tasks[s.current].space
  {
    BloodlessInductive(s);
    IssuedKeeps(s, inp, (y: State) => Bloodless(s, y), DEATHLESS);
    UserStepClock(Act(StartTick(s), inp), inp.choice);
  }

  lemma UserStepClock(a: State, choice: UserChoice)
    requires Shape(a)
    ensures UserStep(a, a.current, choice).clock == a.clock
  {
  }

  /** The state after the call of a hooked tick: the receiver is killed. */
  lemma HookedForm(s: State, inp: TickInput)
    requires Core(s) && Serves(s, inp) && Hooked(Chosen(s, inp), inp) && Chosen(s, inp).current == s.current != 0
    requires Core(Recv(Issued(Chosen(s, inp)), Chosen(s, inp).tasks[s.current].pendingCall.value.ep))
    ensures var u := Chosen(s, inp);
      var k := Kill(Recv(Issued(u), u.tasks[s.current].pendingCall.value.ep), s.current, DemoInjected);
      Tick(s, inp) == if k.clock.panicked then k else
        if Account(k, s.current).clock.panicked then Account(k, s.current) else Ended(k, s.current, NextActivity(s.clock.activity))
  {
    var u := Chosen(s, inp);
    CarriedForm(u, inp);
    ServeForm(Act(StartTick(s), inp), inp);
    var m := Recv(Issued(u), u.tasks[s.current].pendingCall.value.ep);
    assert TaskOk(m.tasks[s.current], s.current, |m.tasks|);
  }

  lemma EndsBloodless(k: State, ran: nat, next: Activity)
    requires Core(k) && ran < |k.tasks|
    ensures Bloodless(k, Account(k, ran)) && Bloodless(k, Ended(k, ran, next))
  {
    BloodlessInductive(k);
    EndedKeeps(k, ran, next, (x: State) => Bloodless(k, x), DEATHLESS);
  }

  lemma HookKill(m: State, i: nat)
    requires Core(m) && 0 < i < |m.tasks| && m.tasks[i].state != Dead && !m.clock.panicked
    ensures var k := Kill(m, i, DemoInjected);
      Core(k) && if CleanOk(m.tasks[i].space) then OneKilled(m, k, i, DemoInjected) && !k.clock.panicked else k == Panic(m)
  {
    KillPanicsIff(m, i, DemoInjected);
    KillExact(m, i, DemoInjected, i);
    if CleanOk(m.tasks[i].space) { KillRecorded(m, i, DemoInjected); }
  }

  lemma HookTick(s: State, inp: TickInput)
    requires Core(s) && !Strikes(s, inp) && Serves(s, inp) && Hooked(Chosen(s, inp), inp) && s.current != 0
    ensures var r := Tick(s, inp);
      if CleanOk(Chosen(s, inp).tasks[s.current].space) then OneKilled(s, r, s.current, DemoInjected) else r.clock.panicked && Bloodless(s, r)
  {
    HookedRecv(s, inp);
    HookedForm(s, inp);
    var i := s.current;
    var m := Recv(Issued(Chosen(s, inp)), Chosen(s, inp).tasks[i].pendingCall.value.ep);
    HookKill(m, i);
    var k := Kill(m, i, DemoInjected);
    if CleanOk(m.tasks[i].space) {
      EndsBloodless(k, i, NextActivity(s.clock.activity));
      KilledBetween(s, m, k, Tick(s, inp), i, DemoInjected);
    } else {
      assert Bloodless(m, k);
      BloodlessChain(s, m, k);
    }
  }

  /** Who dies in a tick. If its access to user memory faults, the running task dies of a user page fault; if
      the hook strikes its receive, it dies of that; and then nobody else does, and the one kill is counted
      and logged under its reason. In every other tick nobody dies and no kill is counted or logged. A kill
      whose cleanup fails is a panic instead. */
  lemma TickDeaths(s: State, inp: TickInput)
    requires Core(s) && !s.clock.halted && !s.clock.panicked
    ensures var r := Tick(s, inp);
      if Strikes(s, inp) then
        if CleanOk(s.tasks[s.current].space) then OneKilled(s, r, s.current, UserPageFault) else r.clock.panicked && Bloodless(s, r)
      else if Serves(s, inp) && Hooked(Chosen(s, inp), inp) then
        if CleanOk(Chosen(s, inp).tasks[s.current].space) then OneKilled(s, r, s.current, DemoInjected) else r.clock.panicked && Bloodless(s, r)
      else Bloodless(s, r)
  {
    if Strikes(s, inp) {
      StrikeTick(s, inp);
    } else if Serves(s, inp) && Hooked(Chosen(s, inp), inp) {
      HookedRuns(s, inp);
      HookTick(s, inp);
    } else {
      PeacefulTick(s, inp);
    }
  }

  /** Only a user task's receive is hooked. */
  lemma HookedRuns(s: State, inp: TickInput)
    requires Core(s) && !Strikes(s, inp) && Serves(s, inp) && Hooked(Chosen(s, inp), inp)
    ensures s.current != 0
  {
    BloodlessInductive(s);
    IssuedKeeps(s, inp, (x: State) => Bloodless(s, x), DEATHLESS);
    var x := Issued(Chosen(s, inp));
    assert TaskOk(x.tasks[x.current], x.current, |x.tasks|);
  }

  // ---------------------------------------------------------------------------
  // Runs
  // ---------------------------------------------------------------------------

  /** How many kills of a reason the log shows. */
  function KillCount(h: seq<Event>, why: KillReason): nat {
    if h == [] then 0 else KillCount(h[..|h| - 1], why) + if h[|h| - 1].TaskKilled? && h[|h| - 1].reason == why then 1 else 0
  }

  lemma {:induction false} NoKillCount(h: seq<Event>, h': seq<Event>, why: KillReason)
    requires NoKill(h, h')
    ensures KillCount(h', why) == KillCount(h, why)
    decreases |h'|
  {
    if |h'| > |h| { NoKillCount(h, h'[..|h'| - 1], why); } else { assert h' == h; }
  }

  /** The counters of kills count the logged ones. */
  predicate KillsCounted(s: State) {
    s.counters.killedUserPf == KillCount(s.history, UserPageFault) && s.counters.killedDemo == KillCount(s.history, DemoInjected)
  }

  lemma OneCounted(h: seq<Event>, h': seq<Event>, n: nat, id: TaskId, why: KillReason, w: KillReason)
    requires LoggedAt(h, h', n, TaskKilled(id, why))
    ensures KillCount(h', w) == KillCount(h, w) + if w == why then 1 else 0
  {
    NoKillCount(h, h'[..n], w);
    assert h'[..n + 1][..n] == h'[..n];
    NoKillCount(h'[..n + 1], h', w);
  }

  lemma BloodlessCounted(s: State, r: State)
    requires KillsCounted(s) && Bloodless(s, r)
    ensures KillsCounted(r)
  {
    NoKillCount(s.history, r.history, UserPageFault);
    NoKillCount(s.history, r.history, DemoInjected);
  }

  lemma SlayCounted(s: State, i: nat, why: KillReason, r: State)
    requires Settled(s) && KillsCounted(s) && Slays(s, i, why, r)
    ensures KillsCounted(r)
  {
    SlainLog(s, i, why);
    OneCounted(s.history, r.history, |r.history| - 2, i + 1, why, UserPageFault);
    OneCounted(s.history, r.history, |r.history| - 2, i + 1, why, DemoInjected);
  }

  const NO_MISSES := Scope(true, true, true, true, false)

  lemma CountedInductive()
    ensures Inductive(KillsCounted, NO_MISSES)
  {
    forall s: State, a: Action, r: State {:trigger KillsCounted(s), Does(s, a, r)} |
      Settled(s) && KillsCounted(s) && Within(a, NO_MISSES) && Does(s, a, r) ensures KillsCounted(r)
    {
      if a.Slay? {
        SlayCounted(s, a.task, a.why, r);
      } else {
        ActionBloodless(s, a, r);
        BloodlessCounted(s, r);
      }
    }
  }

  /** Kills name tasks that exist. */
  predicate InRange(steps: seq<Step>, n: nat) {
    forall k :: 0 <= k < |steps| && steps[k].KillStep? ==> 0 < steps[k].task < n
  }

  /** In every run whose kills name existing user tasks, the counters of kills are the numbers of logged
      kills by reason. */
  lemma {:induction false} KillsForever(s: State, steps: seq<Step>)
    requires Booted(s) && InRange(steps, |s.tasks|)
    ensures KillsCounted(Run(s, steps))
    decreases |steps|
  {
    BootedCore(s);
    if steps != [] {
      var init := steps[..|steps| - 1];
      KillsForever(s, init);
      CoreForever(s, init);
      StepCounted(Run(s, init), steps[|steps| - 1]);
    }
  }

  lemma StepCounted(m: State, step: Step)
    requires Core(m) && KillsCounted(m) && (step.KillStep? ==> 0 < step.task < |m.tasks|)
    ensures KillsCounted(Apply(m, step))
  {
    CountedInductive();
    if !m.clock.panicked {
      match step
      case TickStep(inp) => TickKeeps(m, inp, KillsCounted, NO_MISSES);
      case KillStep(i, why) => KillStepKeeps(m, i, why, KillsCounted, NO_MISSES);
    }
  }
}
