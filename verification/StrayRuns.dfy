/** Runs of any number of tasks: exactly the unsafe replies strand somebody, and for good. */
module StrayRuns {
  import opened KernelTypes
  import opened KernelSpec
  import opened Slots
  import opened Invariant
  import opened ReplyPath
  import opened Actions
  import opened Steps
  import opened Strays
  import opened KillOutcome
  import opened Roots
  import opened Runs

  // ---------------------------------------------------------------------------
  // One tick
  // ---------------------------------------------------------------------------

  /** The tick makes a reply that is not rejected. */
  predicate MakesReply(s: State, inp: TickInput)
    requires Shape(s)
  {
    Serves(s, inp) && Replying(Chosen(s, inp))
  }

  /** If the tick makes a reply, it is a safe one: the line's last waiter awaits the caller, or nobody
      else waits. */
  predicate TickSafe(s: State, inp: TickInput)
    requires Shape(s)
  {
    MakesReply(s, inp) ==>
      var u := Chosen(s, inp);
      var e := u.tasks[u.current].pendingCall.value.ep;
      e < |u.endpoints| && ReplySafe(Issued(u), e)
  }

  /** A tick that makes a reply is the reply and the end of the tick. */
  lemma ReplyTickForm(s: State, inp: TickInput)
    requires Core(s) && MakesReply(s, inp) && Chosen(s, inp).current == s.current
    ensures var u := Chosen(s, inp);
      var call := u.tasks[u.current].pendingCall.value;
      var m := Reply(Issued(u), call.ep, call.msg);
      Tick(s, inp) == if m.clock.panicked then m else
        if Account(m, s.current).clock.panicked then Account(m, s.current)
        else Ended(m, s.current, NextActivity(s.clock.activity))
  {
    ServeForm(Act(StartTick(s), inp), inp);
    CarriedForm(Chosen(s, inp), inp);
  }

  /** The rest of a tick neither makes strays nor frees one. */
  lemma EndedStrays(m: State, ran: nat, next: Activity)
    requires Core(m) && ran < |m.tasks|
    ensures (NoStray(Account(m, ran)) <==> NoStray(m)) && (NoStray(Ended(m, ran, next)) <==> NoStray(m))
  {
    if NoStray(m) {
      StraysApart();
      EndedKeeps(m, ran, next, NoStray, NO_REPLIES);
    } else {
      var i :| 0 <= i < |m.tasks| && IsStray(m, i);
      StrayInductive(i);
      EndedKeeps(m, ran, next, (x: State) => IsStray(x, i), PEACE);
    }
  }

  lemma ReplyMade(x: State, e: nat, msg: Word)
    requires Core(x) && NoStray(x) && Gate(x, e) == None
    ensures e < |x.endpoints| && Core(Reply(x, e, msg)) && (NoStray(Reply(x, e, msg)) <==> ReplySafe(x, e))
  {
    assert TaskOk(x.tasks[x.current], x.current, |x.tasks|);
    ReplyStrandsIff(x, e, msg);
    ReplyOpenCore(x, e, msg);
  }

  lemma ReplyTickStrays(s: State, inp: TickInput)
    requires Core(s) && NoStray(s) && MakesReply(s, inp)
    ensures NoStray(Tick(s, inp)) <==> TickSafe(s, inp)
  {
    StraysApart();
    IssuedKeeps(s, inp, NoStray, NO_REPLIES);
    ReplyTickForm(s, inp);
    var u := Chosen(s, inp);
    var call := u.tasks[u.current].pendingCall.value;
    ReplyMade(Issued(u), call.ep, call.msg);
    EndedStrays(Reply(Issued(u), call.ep, call.msg), s.current, NextActivity(s.clock.activity));
  }

  /** A tick strands nobody if and only if the reply made in it, if any, was safe. */
  lemma TickStrandsIff(s: State, inp: TickInput)
    requires Core(s) && NoStray(s)
    ensures NoStray(Tick(s, inp)) <==> TickSafe(s, inp)
  {
    if MakesReply(s, inp) {
      ReplyTickStrays(s, inp);
    } else {
      StraysApart();
      TickKeeps(s, inp, NoStray, NO_REPLIES);
    }
  }

  // ---------------------------------------------------------------------------
  // Runs
  // ---------------------------------------------------------------------------

  predicate StepSafe(s: State, step: Step)
    requires Shape(s)
  {
    s.clock.panicked || step.KillStep? || TickSafe(s, step.inp)
  }

  /** Every reply made in the run was safe. */
  predicate RepliesSafe(s: State, steps: seq<Step>)
    requires Shape(s)
  {
    if steps == [] then true
    else
      var init := steps[..|steps| - 1];
      RepliesSafe(s, init) && StepSafe(Run(s, init), steps[|steps| - 1])
  }

  /** No state of the run has a stray. */
  predicate NeverStray(s: State, steps: seq<Step>)
    requires Shape(s)
  {
    NoStray(Run(s, steps)) && (steps != [] ==> NeverStray(s, steps[..|steps| - 1]))
  }

  lemma StepStrandsIff(s: State, step: Step)
    requires Core(s) && NoStray(s) && (step.KillStep? ==> step.task != 0)
    ensures NoStray(Apply(s, step)) <==> StepSafe(s, step)
  {
    if !s.clock.panicked {
      match step
      case TickStep(inp) => TickStrandsIff(s, inp);
      case KillStep(i, why) =>
        StraysApart();
        KillStepKeeps(s, i, why, NoStray, NO_REPLIES);
    }
  }

  /** For any number of tasks: no state of a run has a stray if and only if every reply made in the
      run was safe. */
  lemma {:induction false} RunStrandsIff(s: State, steps: seq<Step>)
    requires Booted(s) && Legal(steps)
    ensures NeverStray(s, steps) <==> RepliesSafe(s, steps)
    decreases |steps|
  {
    BootedCore(s);
    if steps != [] {
      var init := steps[..|steps| - 1];
      RunStrandsIff(s, init);
      CoreForever(s, init);
      if NoStray(Run(s, init)) { StepStrandsIff(Run(s, init), steps[|steps| - 1]); }
    }
  }

  predicate StrayOrDead(s: State, i: nat) {
    IsStray(s, i) || IsDead(s, i)
  }

  lemma SlainIsDead(s: State, i: nat, why: KillReason, r: State)
    requires Settled(s) && Slays(s, i, why, r)
    ensures IsDead(r, i)
  {
    KillQuietlyForm(s, i, why);
    FateMet(s, i, why, i);
  }

  lemma ActionStrayOrDead(s: State, a: Action, r: State, i: nat)
    requires Settled(s) && StrayOrDead(s, i) && Does(s, a, r)
    ensures StrayOrDead(r, i)
  {
    if IsDead(s, i) {
      ActionDead(s, a, r, i);
    } else if a.Slay? && a.task == i {
      SlainIsDead(s, i, a.why, r);
    } else {
      ActionLeavesStray(s, a, r, i);
    }
  }

  /** A stranded task waits for ever: after every further run it is still stranded, or dead. */
  lemma StrayForever(s: State, steps: seq<Step>, i: nat)
    requires Core(s) && Legal(steps) && IsStray(s, i)
    ensures IsStray(Run(s, steps), i) || IsDead(Run(s, steps), i)
  {
    var P := (x: State) => StrayOrDead(x, i);
    forall x: State, a: Action, r: State {:trigger P(x), Does(x, a, r)} | Settled(x) && P(x) && Does(x, a, r) ensures P(r) {
      ActionStrayOrDead(x, a, r, i);
    }
    RunKeeps(s, steps, P, ALL);
  }
}
