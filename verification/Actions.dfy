/** Every tick and every kill is a sequence of protocol actions. A property of the
    kernel state that each action keeps is therefore kept by every step. */
module Actions {
  import opened KernelTypes
  import opened KernelSpec
  import opened Holdings
  import opened Slots
  import opened Invariant
  import opened Links
  import opened Scheduling
  import opened IpcPaths
  import opened ReplyPath
  import opened KillOutcome

  /** What is noted: something that leaves root, run times and switches alone; one more tick of run
      time; a return to the kernel root; the stop once no user task lives; or a kill of nobody, which is
      only counted. */
  datatype Entry = Plain | Charge(task: nat) | Ground | Quit | Miss(why: KillReason)

  datatype Action =
    | Note(entry: Entry)
    | QueueSend(ep: nat, msg: Word)
    | HandOver(ep: nat, to: nat, msg: Word)
    | TakeSend(ep: nat, from: nat)
    | Listen(ep: nat)
    | Answer(ep: nat, pos: nat, msg: Word)
    | Misdirect(ep: nat)
    | Reschedule
    | Slay(task: nat, why: KillReason)

  /** Events that say nothing about a task's state or its IPC sessions. */
  predicate Benign(ev: Event) {
    && !ev.TaskStateChanged? && !ev.IpcSendCalled? && !ev.IpcDelivered? && !ev.IpcReplyCalled?
    && !ev.IpcReplyDelivered? && !ev.TaskKilled?
  }

  predicate SameButSlice(t: Task, t': Task) {
    SameControl(t, t'.(slice := t.slice)) && (t'.slice == t.slice || t.state == Running)
  }

  predicate SameIpcCounters(c: Counters, c': Counters) {
    c' == c.(switches := c'.switches, killedUserPf := c'.killedUserPf, killedDemo := c'.killedDemo)
  }

  /** Bookkeeping: clocks, task-local data, page calls, benign events, the running task's slice,
      or a return to the kernel root. */
  ghost predicate Noted(s: State, r: State) {
    && |r.tasks| == |s.tasks| && r.current == s.current && r.ready == s.ready && r.endpoints == s.endpoints
    && r.config == s.config && SameIpcCounters(s.counters, r.counters) && (r.cr3 == s.cr3 || r.cr3 == 0)
    && (forall j: nat {:trigger r.tasks[j]} :: j < |s.tasks| ==> SameButSlice(s.tasks[j], r.tasks[j]))
    && s.history <= r.history && (forall k :: |s.history| <= k < |r.history| ==> Benign(r.history[k]))
    && Memory(s, r)
  }

  /** The kernel stops only in a panic or for want of frames, and does not start again. */
  predicate Steady(s: State, r: State) {
    && (s.clock.halted ==> r.clock.halted) && (s.clock.panicked ==> r.clock.panicked)
    && r.clock.haltDumped == s.clock.haltDumped && (r.clock.panicked && !s.clock.panicked ==> r.clock.halted)
    && (r.clock.halted && !s.clock.halted ==> r.clock.panicked || r.taken >= r.config.supply)
  }

  /** `h'` continues `h` without a switch. */
  predicate Unswitched(h: seq<Event>, h': seq<Event>) {
    h <= h' && forall k: nat {:trigger h'[k]} :: |h| <= k < |h'| ==> !h'[k].TaskSwitched?
  }

  predicate SameRuntimes(s: State, r: State) {
    |r.tasks| == |s.tasks| && forall j: nat {:trigger r.tasks[j]} :: j < |s.tasks| ==> r.tasks[j].runtimeTicks == s.tasks[j].runtimeTicks
  }

  /** Root, run times, switches and the counters of kills stay as they are. */
  predicate Strict(s: State, r: State) {
    && r.cr3 == s.cr3 && r.counters == s.counters && SameRuntimes(s, r)
    && Unswitched(s.history, r.history) && Steady(s, r)
  }

  ghost predicate Notes(s: State, r: State) {
    Noted(s, r) && Strict(s, r)
  }

  ghost predicate Charges(s: State, i: nat, r: State) {
    Noted(s, r) && i < |s.tasks| && r == UpdateRuntime(s, i)
  }

  ghost predicate Grounds(s: State, r: State) {
    Noted(s, r) && r == s.(cr3 := 0)
  }

  ghost predicate Quits(s: State, r: State) {
    && Noted(s, r) && Live(s) && !UserAlive(s)
    && r == s.(cr3 := 0, clock := s.clock.(haltDumped := true, halted := true))
  }

  ghost predicate Misses(s: State, why: KillReason, r: State) {
    Noted(s, r) && r == s.(counters := CountKill(s.counters, why))
  }

  ghost predicate Books(s: State, k: Entry, r: State) {
    match k
    case Plain => Notes(s, r)
    case Charge(i) => Charges(s, i, r)
    case Ground => Grounds(s, r)
    case Quit => Quits(s, r)
    case Miss(why) => Misses(s, why, r)
  }

  ghost predicate QueuesSend(s: State, e: nat, msg: Word, r: State) {
    Calling(s, e) && s.endpoints[e].receiver == None && r == Queued(Emit(s, IpcSendCalled(s.current + 1, e, msg)), e, msg)
  }

  ghost predicate HandsOver(s: State, e: nat, x: nat, msg: Word, r: State) {
    && Calling(s, e) && s.endpoints[e].receiver == Some(x) && x < |s.tasks|
    && r == HandedOver(Emit(s, IpcSendCalled(s.current + 1, e, msg)), e, x, msg)
  }

  ghost predicate TakesSend(s: State, e: nat, x: nat, r: State) {
    && Calling(s, e) && s.endpoints[e].senders != [] && x == s.endpoints[e].senders[|s.endpoints[e].senders| - 1]
    && x < |s.tasks| && s.tasks[x].pendingMsg.Some? && r == TakenFrom(s, e, x)
  }

  ghost predicate Listens(s: State, e: nat, r: State) {
    Calling(s, e) && s.endpoints[e].receiver == None && s.endpoints[e].senders == [] && r == Listening(s, e)
  }

  ghost predicate Answers(s: State, e: nat, k: nat, msg: Word, r: State) {
    && Calling(s, e) && k == LastMatch(s, s.endpoints[e].repliers, s.current + 1, e) && k < |s.endpoints[e].repliers|
    && s.endpoints[e].repliers[k] < |s.tasks| && r == Answered(s, e, k, msg)
  }

  ghost predicate Misdirects(s: State, e: nat, r: State) {
    && Calling(s, e) && LastMatch(s, s.endpoints[e].repliers, s.current + 1, e) == |s.endpoints[e].repliers| > 0
    && (forall k :: 0 <= k < |s.endpoints[e].repliers| ==> s.endpoints[e].repliers[k] < |s.tasks|)
    && r == Misdirected(s, e)
  }

  predicate Reschedules(s: State, r: State) {
    Shape(s) && r == Schedule(s)
  }

  predicate Slays(s: State, i: nat, why: KillReason, r: State) {
    Shape(s) && 0 < i < |s.tasks| && r == KillQuietly(s, i, why)
  }

  /** Action `a` leads from `s` to `r`. */
  ghost predicate Does(s: State, a: Action, r: State) {
    match a
    case Note(k) => Noted(s, r) && Books(s, k, r)
    case QueueSend(e, msg) => QueuesSend(s, e, msg, r)
    case HandOver(e, x, msg) => HandsOver(s, e, x, msg, r)
    case TakeSend(e, x) => TakesSend(s, e, x, r)
    case Listen(e) => Listens(s, e, r)
    case Answer(e, k, msg) => Answers(s, e, k, msg, r)
    case Misdirect(e) => Misdirects(s, e, r)
    case Reschedule => Reschedules(s, r)
    case Slay(i, why) => Slays(s, i, why, r)
  }

  lemma NotedSettled(s: State, r: State)
    requires Settled(s) && Noted(s, r)
    ensures Settled(r)
    ensures s.tasks[s.current].state == Running && r.tasks[s.current].slice < s.config.quantum ==> Core(r)
  {
    forall sl: Slot ensures Members(r, sl) == Members(s, sl) {}
    Relabel(s, r);
    ReplyLinesSame(s, r);
    NotedTasks(s, r);
  }

  lemma NotedTasks(s: State, r: State)
    requires Shape(s) && TasksOk(s) && OneRunning(s) && Noted(s, r)
    ensures TasksOk(r) && OneRunning(r)
  {
    forall j: nat | j < |r.tasks| ensures TaskOk(r.tasks[j], j, |r.tasks|) && (r.tasks[j].state == Running ==> j == r.current) {
      assert TaskOk(s.tasks[j], j, |s.tasks|) && SameButSlice(s.tasks[j], r.tasks[j]);
    }
  }

  lemma EmitCalling(s: State, e: nat, ev: Event)
    requires Calling(s, e)
    ensures Calling(Emit(s, ev), e)
  {
    AlikeSettled(s, Emit(s, ev));
  }

  lemma DoesSettled(s: State, a: Action, r: State)
    requires Settled(s) && Does(s, a, r)
    ensures Settled(r)
  {
    match a
    case Note(_) => NotedSettled(s, r);
    case QueueSend(e, msg) =>
      EmitCalling(s, e, IpcSendCalled(s.current + 1, e, msg));
      QueuedSettles(Emit(s, IpcSendCalled(s.current + 1, e, msg)), e, msg);
    case HandOver(e, x, msg) =>
      EmitCalling(s, e, IpcSendCalled(s.current + 1, e, msg));
      HandedOverSettles(Emit(s, IpcSendCalled(s.current + 1, e, msg)), e, x, msg);
    case TakeSend(e, x) => TakenFromSettles(s, e, x);
    case Listen(e) => ListeningSettles(s, e);
    case Answer(e, k, msg) => AnsweredCore(s, e, k, msg);
    case Misdirect(e) => MisdirectedCore(s, e);
    case Reschedule => ScheduleOk(s);
    case Slay(i, why) => KillSettles(s, i, why);
  }

  // ---------------------------------------------------------------------------
  // The principle
  // ---------------------------------------------------------------------------

  /** Which actions count besides sends, receives, schedules and plain notes. */
  datatype Scope = Scope(kills: bool, replies: bool, grounds: bool, charges: bool, misses: bool)

  const ALL := Scope(true, true, true, true, true)
  const PEACE := Scope(false, true, true, true, true)
  const NO_REPLIES := Scope(true, false, true, true, true)

  predicate Replies(a: Action) {
    a.Answer? || a.Misdirect?
  }

  predicate Within(a: Action, sc: Scope) {
    && (a.Slay? ==> sc.kills) && (Replies(a) ==> sc.replies) && (a.Note? && a.entry.Ground? ==> sc.grounds)
    && (a.Note? && a.entry.Charge? ==> sc.charges) && (a.Note? && a.entry.Miss? ==> sc.misses)
  }

  /** Every action that counts keeps `P`. */
  ghost predicate Inductive(P: State -> bool, sc: Scope) {
    forall s: State, a: Action, r: State {:trigger P(s), Does(s, a, r)} ::
      Settled(s) && P(s) && Within(a, sc) && Does(s, a, r) ==> P(r)
  }

  /** A name to ask for `Settled` by, where a proof needs it. */
  ghost predicate Ask(s: State) {
    true
  }

  /** `Q` implies a settled state and is kept by every action that counts. */
  ghost predicate Stable(Q: State -> bool, sc: Scope) {
    KeptByKernel(Q, sc) && KeptByNotes(Q, sc) && KeptByMisses(Q, sc) && KeptBySends(Q) && KeptByReceives(Q) && (sc.replies ==> KeptByReplies(Q))
  }

  /** `Q` implies a settled state and is kept by schedules and kills. */
  ghost predicate KeptByKernel(Q: State -> bool, sc: Scope) {
    && (forall s: State {:trigger Ask(s)} :: Ask(s) && Q(s) ==> Settled(s))
    && (forall s: State, r: State {:trigger Q(s), Reschedules(s, r)} :: Q(s) && Reschedules(s, r) ==> Q(r))
    && (sc.kills ==> forall s: State, i: nat, why: KillReason, r: State {:trigger Q(s), Slays(s, i, why, r)} ::
          Q(s) && Slays(s, i, why, r) ==> Q(r))
  }

  /** `Q` is kept by notes. */
  ghost predicate KeptByNotes(Q: State -> bool, sc: Scope) {
    && (forall s: State, r: State {:trigger Q(s), Notes(s, r)} :: Q(s) && Notes(s, r) ==> Q(r))
    && (sc.grounds ==> forall s: State, r: State {:trigger Q(s), Grounds(s, r)} :: Q(s) && Grounds(s, r) ==> Q(r))
    && (sc.charges ==> forall s: State, i: nat, r: State {:trigger Q(s), Charges(s, i, r)} :: Q(s) && Charges(s, i, r) ==> Q(r))
  }

  /** `Q` is kept by kills of nobody and by the stop for want of user tasks. */
  ghost predicate KeptByMisses(Q: State -> bool, sc: Scope) {
    && (sc.misses ==> forall s: State, why: KillReason, r: State {:trigger Q(s), Misses(s, why, r)} :: Q(s) && Misses(s, why, r) ==> Q(r))
    && (forall s: State, r: State {:trigger Q(s), Quits(s, r)} :: Q(s) && Quits(s, r) ==> Q(r))
  }

  /** `Q` is kept by the actions of sends. */
  ghost predicate KeptBySends(Q: State -> bool) {
    && (forall s: State, e: nat, msg: Word, r: State {:trigger Q(s), QueuesSend(s, e, msg, r)} ::
          Q(s) && QueuesSend(s, e, msg, r) ==> Q(r))
    && (forall s: State, e: nat, x: nat, msg: Word, r: State {:trigger Q(s), HandsOver(s, e, x, msg, r)} ::
          Q(s) && HandsOver(s, e, x, msg, r) ==> Q(r))
  }

  /** `Q` is kept by the actions of receives. */
  ghost predicate KeptByReceives(Q: State -> bool) {
    && (forall s: State, e: nat, x: nat, r: State {:trigger Q(s), TakesSend(s, e, x, r)} ::
          Q(s) && TakesSend(s, e, x, r) ==> Q(r))
    && (forall s: State, e: nat, r: State {:trigger Q(s), Listens(s, e, r)} :: Q(s) && Listens(s, e, r) ==> Q(r))
  }

  /** `Q` is kept by the actions of replies. */
  ghost predicate KeptByReplies(Q: State -> bool) {
    && (forall s: State, e: nat, k: nat, msg: Word, r: State {:trigger Q(s), Answers(s, e, k, msg, r)} ::
          Q(s) && Answers(s, e, k, msg, r) ==> Q(r))
    && (forall s: State, e: nat, r: State {:trigger Q(s), Misdirects(s, e, r)} :: Q(s) && Misdirects(s, e, r) ==> Q(r))
  }

  lemma Lift(P: State -> bool, sc: Scope, s: State, a: Action, r: State)
    requires Inductive(P, sc) && Settled(s) && P(s) && Within(a, sc) && Does(s, a, r)
    ensures Settled(r) && P(r)
  {
    DoesSettled(s, a, r);
  }

  lemma StrengthenKernel(P: State -> bool, sc: Scope)
    requires Inductive(P, sc)
    ensures KeptByKernel((s: State) => Settled(s) && P(s), sc)
  {
    var Q := (s: State) => Settled(s) && P(s);
    forall s: State, r: State {:trigger Q(s), Reschedules(s, r)} | Q(s) && Reschedules(s, r) ensures Q(r) {
      Lift(P, sc, s, Reschedule, r);
    }
    if sc.kills {
      forall s: State, i: nat, why: KillReason, r: State {:trigger Q(s), Slays(s, i, why, r)} |
        Q(s) && Slays(s, i, why, r) ensures Q(r)
      {
        Lift(P, sc, s, Slay(i, why), r);
      }
    }
  }

  lemma StrengthenNotes(P: State -> bool, sc: Scope)
    requires Inductive(P, sc)
    ensures KeptByNotes((s: State) => Settled(s) && P(s), sc)
  {
    var Q := (s: State) => Settled(s) && P(s);
    forall s: State, r: State {:trigger Q(s), Notes(s, r)} | Q(s) && Notes(s, r) ensures Q(r) {
      Lift(P, sc, s, Note(Plain), r);
    }
    if sc.grounds {
      forall s: State, r: State {:trigger Q(s), Grounds(s, r)} | Q(s) && Grounds(s, r) ensures Q(r) {
        Lift(P, sc, s, Note(Ground), r);
      }
    }
    if sc.charges {
      forall s: State, i: nat, r: State {:trigger Q(s), Charges(s, i, r)} | Q(s) && Charges(s, i, r) ensures Q(r) {
        Lift(P, sc, s, Note(Charge(i)), r);
      }
    }
  }

  lemma StrengthenMisses(P: State -> bool, sc: Scope)
    requires Inductive(P, sc)
    ensures KeptByMisses((s: State) => Settled(s) && P(s), sc)
  {
    var Q := (s: State) => Settled(s) && P(s);
    if sc.misses {
      forall s: State, why: KillReason, r: State {:trigger Q(s), Misses(s, why, r)} | Q(s) && Misses(s, why, r) ensures Q(r) {
        Lift(P, sc, s, Note(Miss(why)), r);
      }
    }
    forall s: State, r: State {:trigger Q(s), Quits(s, r)} | Q(s) && Quits(s, r) ensures Q(r) {
      Lift(P, sc, s, Note(Quit), r);
    }
  }

  lemma StrengthenSends(P: State -> bool, sc: Scope)
    requires Inductive(P, sc)
    ensures KeptBySends((s: State) => Settled(s) && P(s))
  {
    var Q := (s: State) => Settled(s) && P(s);
    forall s: State, e: nat, msg: Word, r: State {:trigger Q(s), QueuesSend(s, e, msg, r)} |
      Q(s) && QueuesSend(s, e, msg, r) ensures Q(r)
    {
      Lift(P, sc, s, QueueSend(e, msg), r);
    }
    forall s: State, e: nat, x: nat, msg: Word, r: State {:trigger Q(s), HandsOver(s, e, x, msg, r)} |
      Q(s) && HandsOver(s, e, x, msg, r) ensures Q(r)
    {
      Lift(P, sc, s, HandOver(e, x, msg), r);
    }
  }

  lemma StrengthenReceives(P: State -> bool, sc: Scope)
    requires Inductive(P, sc)
    ensures KeptByReceives((s: State) => Settled(s) && P(s))
  {
    var Q := (s: State) => Settled(s) && P(s);
    forall s: State, e: nat, x: nat, r: State {:trigger Q(s), TakesSend(s, e, x, r)} |
      Q(s) && TakesSend(s, e, x, r) ensures Q(r)
    {
      Lift(P, sc, s, TakeSend(e, x), r);
    }
    forall s: State, e: nat, r: State {:trigger Q(s), Listens(s, e, r)} | Q(s) && Listens(s, e, r) ensures Q(r) {
      Lift(P, sc, s, Listen(e), r);
    }
  }

  lemma StrengthenReplies(P: State -> bool, sc: Scope)
    requires Inductive(P, sc) && sc.replies
    ensures KeptByReplies((s: State) => Settled(s) && P(s))
  {
    var Q := (s: State) => Settled(s) && P(s);
    forall s: State, e: nat, k: nat, msg: Word, r: State {:trigger Q(s), Answers(s, e, k, msg, r)} |
      Q(s) && Answers(s, e, k, msg, r) ensures Q(r)
    {
      Lift(P, sc, s, Answer(e, k, msg), r);
    }
    forall s: State, e: nat, r: State {:trigger Q(s), Misdirects(s, e, r)} | Q(s) && Misdirects(s, e, r) ensures Q(r) {
      Lift(P, sc, s, Misdirect(e), r);
    }
  }

  lemma Strengthen(P: State -> bool, sc: Scope)
    requires Inductive(P, sc)
    ensures Stable((s: State) => Settled(s) && P(s), sc)
  {
    StrengthenKernel(P, sc);
    StrengthenNotes(P, sc);
    StrengthenMisses(P, sc);
    StrengthenSends(P, sc);
    StrengthenReceives(P, sc);
    if sc.replies { StrengthenReplies(P, sc); }
  }

  /** The current task runs, within its quantum. */
  predicate Live(s: State) {
    Shape(s) && s.tasks[s.current].state == Running && s.tasks[s.current].slice < s.config.quantum
  }
}
