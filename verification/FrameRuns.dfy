/** Frames that no task gets: those of page tables, and those that a tick merely takes. */
module FrameRuns {
  import opened KernelTypes
  import opened PageOps
  import opened KernelSpec
  import opened Invariant
  import opened Agreement
  import opened Holdings
  import opened Frames
  import opened Actions
  import opened Steps
  import opened PageCalls
  import opened Runs
  import opened Halting
  import opened Deaths

  /** A taken frame that no task holds is never held again. */
  lemma SpentForever(s: State, steps: seq<Step>, f: nat)
    requires Core(s) && Legal(steps) && Spent(s, f)
    ensures Spent(Run(s, steps), f)
  {
    SpentInductive(f);
    RunKeeps(s, steps, (x: State) => Spent(x, f), ALL);
  }

  // ---------------------------------------------------------------------------
  // Tables
  // ---------------------------------------------------------------------------

  /** The tick carries out a map call for a USER page of the slot, from an agreeing space, and it succeeds. */
  predicate MapsPage(s: State, inp: TickInput, page: nat, flags: Flags)
    requires Shape(s)
  {
    && Serves(s, inp) && Admitted(Chosen(s, inp)) && Chosen(s, inp).tasks[Chosen(s, inp).current].pendingCall == Some(CallPageMap(page, flags))
    && var u := Chosen(s, inp);
       && u.tasks[u.current].kind == UserSpace && page < SLOT_PAGES && flags.user && MapSucceeds(u, u.current, page, inp.tables)
  }

  /** A tick with a page call that does not panic is the call and the end of the tick. */
  lemma PageTickForm(s: State, inp: TickInput, call: Syscall)
    requires Core(s) && Serves(s, inp) && Admitted(Chosen(s, inp)) && Chosen(s, inp).current == s.current && !IsIpc(call)
    requires Chosen(s, inp).tasks[s.current].pendingCall == Some(call)
    requires !PageCall(Issued(Chosen(s, inp)), call, inp.tables).clock.panicked
    ensures var m := PageCall(Issued(Chosen(s, inp)), call, inp.tables);
      Tick(s, inp) == if Account(m, s.current).clock.panicked then Account(m, s.current) else Ended(m, s.current, NextActivity(s.clock.activity))
  {
    ServeForm(Act(StartTick(s), inp), inp);
    CarriedForm(Chosen(s, inp), inp);
  }

  /** The frames that the call takes for tables are nobody's. */
  lemma TablesSpent(x: State, page: nat, flags: Flags, n: nat, f: nat)
    requires Core(x) && Isolated(x) && x.tasks[x.current].kind == UserSpace && page < SLOT_PAGES && flags.user
    requires Proper(x.tasks[x.current].space) && Agree(x.tasks[x.current].space)
    requires MapSucceeds(x, x.current, page, n) && TakenWith(x, x.current) <= f < TakenWith(x, x.current) + n
    ensures var m := PageCall(x, CallPageMap(page, flags), n); m.clock == x.clock && Spent(m, f)
  {
    MapCallExact(x, page, flags, n);
    var m := PageCall(x, CallPageMap(page, flags), n);
    PageCallNoted(x, CallPageMap(page, flags), n);
    forall j: nat {:trigger Holds(m.tasks[j], f)} | j < |m.tasks| ensures !Holds(m.tasks[j], f) {
      if Holds(m.tasks[j], f) {
        TablesFree(x, page, flags, n, f, j);
      }
    }
  }

  lemma TablesFree(x: State, page: nat, flags: Flags, n: nat, f: nat, j: nat)
    requires Shape(x) && Isolated(x) && x.tasks[x.current].kind == UserSpace && x.tasks[x.current].state != Dead && page < SLOT_PAGES && flags.user
    requires Proper(x.tasks[x.current].space) && Agree(x.tasks[x.current].space) && j < |x.tasks|
    requires MapSucceeds(x, x.current, page, n) && TakenWith(x, x.current) <= f < TakenWith(x, x.current) + n
    ensures !Holds(PageCall(x, CallPageMap(page, flags), n).tasks[j], f)
  {
    MapCallExact(x, page, flags, n);
    var t := x.tasks[j];
    var t' := PageCall(x, CallPageMap(page, flags), n).tasks[j];
    assert !Holds(t, f);
    assert t.demoFrame.Some? ==> Holds(t, t.demoFrame.value);
    if j == x.current { MappedMaps(t.space, page, FrameFor(x, j).value, flags, f); }
  }

  lemma MappedMaps(s: Space, page: nat, frame: nat, flags: Flags, f: nat)
    ensures Maps(Mapped(s, page, frame, flags), f) ==> f == frame || Maps(s, f)
  {
    if Maps(Mapped(s, page, frame, flags), f) && f != frame {
      var v :| v in Mapped(s, page, frame, flags).leaves && Mapped(s, page, frame, flags).leaves[v].frame == f;
      assert v in s.leaves;
    }
  }

  /** A map call that succeeds takes exactly the frames for the page and for the missing tables, and the frames
      of the tables are never a task's: neither after the tick nor after any further run does a task map one
      or keep it for later. */
  lemma TableFrames(s: State, inp: TickInput, page: nat, flags: Flags, steps: seq<Step>, f: nat)
    requires Core(s) && Isolated(s) && MapsPage(s, inp, page, flags) && Legal(steps)
    requires var u := Chosen(s, inp);
      && Proper(u.tasks[u.current].space) && Agree(u.tasks[u.current].space)
      && TakenWith(u, u.current) <= f < TakenWith(u, u.current) + inp.tables
    ensures Spent(Run(Tick(s, inp), steps), f)
  {
    MapTickSpent(s, inp, page, flags, f);
    TickCore(s, inp);
    SpentForever(Tick(s, inp), steps, f);
  }

  lemma MapTickSpent(s: State, inp: TickInput, page: nat, flags: Flags, f: nat)
    requires Core(s) && Isolated(s) && MapsPage(s, inp, page, flags)
    requires var u := Chosen(s, inp);
      && Proper(u.tasks[u.current].space) && Agree(u.tasks[u.current].space)
      && TakenWith(u, u.current) <= f < TakenWith(u, u.current) + inp.tables
    ensures Spent(Tick(s, inp), f)
  {
    MapsIssued(s, inp);
    var x := Issued(Chosen(s, inp));
    IssuedFrames(Chosen(s, inp), page, inp.tables);
    TablesSpent(x, page, flags, inp.tables, f);
    PageTickForm(s, inp, CallPageMap(page, flags));
    TickSpent(s, x, CallPageMap(page, flags), inp.tables, f);
  }

  lemma MapsIssued(s: State, inp: TickInput)
    requires Core(s) && Isolated(s) && Serves(s, inp)
    ensures var u := Chosen(s, inp); u.current == s.current && Core(Issued(u)) && Isolated(Issued(u)) && !u.clock.panicked
  {
    IsolatedInductive();
    IssuedKeeps(s, inp, Isolated, ALL);
    UserStepClock(Act(StartTick(s), inp), inp.choice);
  }

  lemma IssuedFrames(u: State, page: nat, n: nat)
    requires Shape(u)
    ensures var x := Issued(u);
      && FrameFor(x, u.current) == FrameFor(u, u.current) && TakenWith(x, u.current) == TakenWith(u, u.current)
      && (MapSucceeds(u, u.current, page, n) ==> MapSucceeds(x, u.current, page, n))
      && x.tasks[u.current].space == u.tasks[u.current].space && x.tasks[u.current].kind == u.tasks[u.current].kind && !x.clock.panicked == !u.clock.panicked
  {
  }

  lemma TickSpent(s: State, x: State, call: Syscall, n: nat, f: nat)
    requires Core(x) && s.current == x.current && Spent(PageCall(x, call, n), f)
    ensures Spent(Account(PageCall(x, call, n), s.current), f) && Spent(Ended(PageCall(x, call, n), s.current, NextActivity(s.clock.activity)), f)
  {
    PageCallNoted(x, call, n);
    NotedSettled(x, PageCall(x, call, n));
    SpentInductive(f);
    EndedKeeps(PageCall(x, call, n), s.current, NextActivity(s.clock.activity), (y: State) => Spent(y, f), ALL);
  }

  lemma TickCore(s: State, inp: TickInput)
    requires Core(s)
    ensures Core(Tick(s, inp))
  {
    AnythingInductive();
    TickKeeps(s, inp, (x: State) => true, ALL);
  }

  // ---------------------------------------------------------------------------
  // The frame of a tick
  // ---------------------------------------------------------------------------

  /** The tick that allocates a frame takes the next one, and it is never a task's; when there is none left,
      the kernel stops. */
  lemma ScratchFrames(s: State, inp: TickInput, steps: seq<Step>)
    requires Core(s) && Isolated(s) && s.clock.activity == AllocatingFrame && !s.clock.halted && !s.clock.panicked && Legal(steps)
    ensures s.taken < s.config.supply ==> Spent(Run(Tick(s, inp), steps), s.taken)
    ensures s.taken >= s.config.supply ==> Tick(s, inp).clock.halted
  {
    if s.taken < s.config.supply {
      ScratchSpent(s, inp);
      TickCore(s, inp);
      SpentForever(Tick(s, inp), steps, s.taken);
    } else {
      HaltStays(s, inp);
    }
  }

  lemma ScratchSpent(s: State, inp: TickInput)
    requires Core(s) && Isolated(s) && s.clock.activity == AllocatingFrame && !s.clock.halted && !s.clock.panicked && s.taken < s.config.supply
    ensures Spent(Tick(s, inp), s.taken)
  {
    var f := s.taken;
    var a := Act(StartTick(s), inp);
    assert Spent(a, f);
    ScratchCore(s, inp);
    SpentInductive(f);
    ServedKeeps(s, inp, (x: State) => Spent(x, f));
  }

  lemma ScratchCore(s: State, inp: TickInput)
    requires Core(s) && s.clock.activity == AllocatingFrame
    ensures var a := Act(StartTick(s), inp); Core(a) && a.current == s.current
  {
    ClockNoted(s, StartTick(s));
    NotedSettled(s, StartTick(s));
    ClockNoted(StartTick(s), Act(StartTick(s), inp));
    NotedSettled(StartTick(s), Act(StartTick(s), inp));
  }

  /** A stopped kernel stays stopped. */
  lemma HaltedInductive()
    ensures Inductive((x: State) => x.clock.halted, ALL)
  {
    var P := (x: State) => x.clock.halted;
    forall s: State, a: Action, r: State {:trigger P(s), Does(s, a, r)} | Settled(s) && P(s) && Does(s, a, r) ensures P(r) {
      if !a.Note? { ActionClock(s, a, r); }
    }
  }

  lemma HaltStays(s: State, inp: TickInput)
    requires Core(s) && s.clock.activity == AllocatingFrame && !s.clock.halted && !s.clock.panicked && s.taken >= s.config.supply
    ensures Tick(s, inp).clock.halted
  {
    ScratchCore(s, inp);
    HaltedInductive();
    ServedKeeps(s, inp, (x: State) => x.clock.halted);
  }
}
