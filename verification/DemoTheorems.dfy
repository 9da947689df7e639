/** The demo program on this kernel follows its timetable in every run without faults or
    kills. */
module DemoTheorems {
  import opened KernelTypes
  import opened Words
  import opened KernelSpec
  import opened Invariant
  import opened Actions
  import opened Steps
  import opened Mailboxes
  import opened CallLog
  import opened Runs
  import opened Halting
  import opened DemoTicks
  import opened DemoRun
  import opened DemoScenes

  // ---------------------------------------------------------------------------
  // From beat to beat
  // ---------------------------------------------------------------------------

  function NextBeat(b: nat): nat {
    if b == 34 then 11 else b + 1
  }

  lemma {:induction false} BeatNext(t: nat)
    ensures Beat(t + 1) == NextBeat(Beat(t))
  {
    if t >= 35 { BeatNext(t - 24); }
  }

  lemma OpeningScenes(msg: Word, answer: Word)
    ensures SceneIn(5, msg, answer) == SwitchScene(SceneIn(4, msg, answer))
    ensures SceneIn(6, msg, answer) == QueueScene(SceneIn(5, msg, answer), msg)
    ensures SceneIn(7, msg, answer) == TakeScene(SceneIn(6, msg, answer))
    ensures SceneIn(8, msg, answer) == StallScene(SceneIn(7, msg, answer))
    ensures SceneIn(9, msg, answer) == AnswerScene(SceneIn(8, msg, answer), answer)
    ensures SceneIn(10, msg, answer) == ListenScene(SceneIn(9, msg, answer))
  {
  }

  lemma ServiceScenes(earlier: Word, msg: Word, answer: Word)
    ensures SceneIn(16, msg, answer) == SendScene(SceneIn(15, earlier, answer), msg)
    ensures SceneIn(17, msg, answer) == AnswerScene(SceneIn(16, msg, answer), answer)
    ensures SceneIn(18, msg, answer) == ListenScene(SceneIn(17, msg, answer))
  {
  }

  /** The client runs, the server listens. */
  predicate Steady(b: nat) {
    10 <= b < 35 && b != 16 && b != 17
  }

  lemma SteadyScenes(b: nat, msg: Word, answer: Word)
    requires Steady(b) && b != 15
    ensures SceneIn(NextBeat(b), msg, answer) ==
      if b % 4 != 3 then QuietScene(SceneIn(b, msg, answer))
      else if ClientStage(b) == 1 then PassScene(SceneIn(b, msg, answer))
      else StallScene(SceneIn(b, msg, answer))
    ensures SliceIn(NextBeat(b)) == None
  {
  }

  predicate Advances(s: State, r: State, b: nat, msg: Word, answer: Word) {
    AtBeat(r, b, msg, answer) && r.clock.tickCount == s.clock.tickCount + 1
  }

  lemma Arrives(s: State, r: State, b: nat, b': nat, msg: Word, answer: Word, slice: nat)
    requires s.clock.activity == ActivityIn(b) && ActivityIn(b') == NextActivity(ActivityIn(b))
    requires After(s, r, SceneIn(b', msg, answer), slice) && (SliceIn(b').Some? ==> SliceIn(b').value == slice)
    ensures Advances(s, r, b', msg, answer)
  {
  }

  // ---------------------------------------------------------------------------
  // One tick
  // ---------------------------------------------------------------------------

  lemma IdleArrives(s: State, r: State, b: nat, msg: Word, answer: Word)
    requires AtBeat(s, b, msg, answer) && b < 4 && After(s, r, SceneOf(s), b + 1)
    ensures Advances(s, r, b + 1, msg, answer)
  {
  }

  lemma IdleBeat(s: State, inp: TickInput, b: nat, msg: Word, answer: Word)
    requires Poised(s, inp) && AtBeat(s, b, msg, answer) && b < 4
    ensures (b == 3 && Panics(s, Tick(s, inp))) || Advances(s, Tick(s, inp), b + 1, msg, answer)
  {
    assert s.current == 0 && s.tasks[0].slice == b && s.tasks[1].state == Ready;
    IdleTick(s, inp);
    if Panics(s, Tick(s, inp)) { MappingBeat(s, b, msg, answer); } else { IdleArrives(s, Tick(s, inp), b, msg, answer); }
  }

  lemma MappingBeat(s: State, b: nat, msg: Word, answer: Word)
    requires AtBeat(s, b, msg, answer) && b < 4 && s.clock.activity == MappingDemoPage
    ensures b == 3
  {
  }

  lemma SwitchBeat(s: State, inp: TickInput, msg: Word, answer: Word)
    requires Poised(s, inp) && AtBeat(s, 4, msg, answer)
    ensures Advances(s, Tick(s, inp), 5, msg, answer)
  {
    assert SceneOf(s) == SceneIn(4, msg, answer) && s.tasks[0].slice == 4;
    FirstSwitch(s, inp);
    SwitchArrives(s, Tick(s, inp), msg, answer);
  }

  lemma SwitchArrives(s: State, r: State, msg: Word, answer: Word)
    requires AtBeat(s, 4, msg, answer) && After(s, r, SwitchScene(SceneOf(s)), 0)
    ensures Advances(s, r, 5, msg, answer)
  {
    OpeningScenes(msg, answer);
  }

  lemma QueueBeat(s: State, inp: TickInput, msg: Word, answer: Word)
    requires Poised(s, inp) && AtBeat(s, 5, msg, answer) && msg == KickMessage(s.clock.tickCount + 1)
    ensures Advances(s, Tick(s, inp), 6, msg, answer)
  {
    OpeningScenes(msg, answer);
    QueueTick(s, inp, msg);
    Arrives(s, Tick(s, inp), 5, 6, msg, answer, 0);
  }

  lemma TakeBeat(s: State, inp: TickInput, msg: Word, answer: Word)
    requires Poised(s, inp) && AtBeat(s, 6, msg, answer)
    ensures Advances(s, Tick(s, inp), 7, msg, answer)
  {
    OpeningScenes(msg, answer);
    TakeTick(s, inp);
    Arrives(s, Tick(s, inp), 6, 7, msg, answer, 1);
  }

  lemma StallBeat(s: State, inp: TickInput, msg: Word, answer: Word)
    requires Poised(s, inp) && AtBeat(s, 7, msg, answer)
    ensures Advances(s, Tick(s, inp), 8, msg, answer)
  {
    OpeningScenes(msg, answer);
    StalledTick(s, inp);
    Arrives(s, Tick(s, inp), 7, 8, msg, answer, 2);
  }

  lemma FirstAnswerBeat(s: State, inp: TickInput, msg: Word, answer: Word)
    requires Poised(s, inp) && AtBeat(s, 8, msg, answer) && answer == ServerReply(msg)
    ensures Advances(s, Tick(s, inp), 9, msg, answer)
  {
    OpeningScenes(msg, answer);
    AnswerTick(s, inp, answer);
    Arrives(s, Tick(s, inp), 8, 9, msg, answer, 3);
  }

  lemma FirstListenBeat(s: State, inp: TickInput, msg: Word, answer: Word)
    requires Poised(s, inp) && AtBeat(s, 9, msg, answer)
    ensures Advances(s, Tick(s, inp), 10, msg, answer)
  {
    assert SceneOf(s) == SceneIn(9, msg, answer);
    ListenTick(s, inp);
    FirstListenArrives(s, Tick(s, inp), msg, answer);
  }

  lemma FirstListenArrives(s: State, r: State, msg: Word, answer: Word)
    requires AtBeat(s, 9, msg, answer) && After(s, r, ListenScene(SceneOf(s)), 0)
    ensures Advances(s, r, 10, msg, answer)
  {
    OpeningScenes(msg, answer);
  }

  lemma SendArrives(s: State, r: State, earlier: Word, answer: Word, msg: Word, next: Word)
    requires AtBeat(s, 15, earlier, answer) && After(s, r, SendScene(SceneOf(s), msg), 0)
    ensures Advances(s, r, 16, msg, next)
  {
    ServiceScenes(earlier, msg, answer);
  }

  lemma SendBeat(s: State, inp: TickInput, earlier: Word, answer: Word, msg: Word, next: Word)
    requires Poised(s, inp) && AtBeat(s, 15, earlier, answer) && (s.clock.tickCount + 1) % 8 == 0
    requires msg == PeriodicMessage(s.clock.tickCount + 1)
    ensures Advances(s, Tick(s, inp), 16, msg, next)
  {
    SteadyFacts(s, 15, earlier, answer);
    assert s.endpoints[0].receiver == Some(2);
    SendTick(s, inp, msg);
    SendArrives(s, Tick(s, inp), earlier, answer, msg, next);
  }

  lemma AnswerBeat(s: State, inp: TickInput, msg: Word, answer: Word)
    requires Poised(s, inp) && AtBeat(s, 16, msg, answer) && answer == ServerReply(msg)
    ensures Advances(s, Tick(s, inp), 17, msg, answer)
  {
    ServiceScenes(msg, msg, answer);
    AnswerTick(s, inp, answer);
    Arrives(s, Tick(s, inp), 16, 17, msg, answer, 1);
  }

  lemma ListenArrives(s: State, r: State, msg: Word, answer: Word)
    requires AtBeat(s, 17, msg, answer) && After(s, r, ListenScene(SceneOf(s)), 0)
    ensures Advances(s, r, 18, msg, answer)
  {
    ServiceScenes(msg, msg, answer);
  }

  lemma ListenBeat(s: State, inp: TickInput, msg: Word, answer: Word)
    requires Poised(s, inp) && AtBeat(s, 17, msg, answer)
    ensures Advances(s, Tick(s, inp), 18, msg, answer)
  {
    assert SceneOf(s) == SceneIn(17, msg, answer);
    ListenTick(s, inp);
    ListenArrives(s, Tick(s, inp), msg, answer);
  }

  /** What the timetable says of a steady beat. */
  predicate Relaxed(s: State, b: nat) {
    && |s.tasks| == 3 && |s.endpoints| > 0 && s.current == 1 && s.ready == [] && s.sentByTask1 && s.tasks[1].state == Running
    && s.tasks[1].stage == ClientStage(b) && (s.clock.activity == MappingDemoPage <==> b % 4 == 3)
  }

  lemma SteadyFacts(s: State, b: nat, msg: Word, answer: Word)
    requires AtBeat(s, b, msg, answer) && Steady(b)
    ensures Relaxed(s, b)
  {
  }

  lemma SteadyArrives(s: State, r: State, b: nat, msg: Word, answer: Word, slice: nat)
    requires AtBeat(s, b, msg, answer) && Steady(b) && b != 15
    requires After(s, r, if b % 4 != 3 then QuietScene(SceneOf(s)) else if ClientStage(b) == 1 then PassScene(SceneOf(s))
                         else StallScene(SceneOf(s)), slice)
    ensures Advances(s, r, NextBeat(b), msg, answer)
  {
    SteadyScenes(b, msg, answer);
    ActivityNext(b);
    Arrives(s, r, b, NextBeat(b), msg, answer, slice);
  }

  lemma ActivityNext(b: nat)
    requires b < 35
    ensures ActivityIn(NextBeat(b)) == NextActivity(ActivityIn(b))
  {
  }

  lemma SteadyTick(s: State, inp: TickInput, b: nat)
    requires Poised(s, inp) && Relaxed(s, b) && Steady(b) && b != 15 && s.clock.tickCount % 8 == b % 8
    ensures After(s, Tick(s, inp), if b % 4 != 3 then QuietScene(SceneOf(s)) else if ClientStage(b) == 1 then PassScene(SceneOf(s))
                                   else StallScene(SceneOf(s)), Charged(s.tasks[1].slice, 5))
  {
    assert b % 4 != 3 || ClientStage(b) == 1 ==> (s.clock.tickCount + 1) % 8 != 0;
    if b % 4 != 3 {
      QuietTick(s, inp);
    } else if ClientStage(b) == 1 {
      PassTick(s, inp);
    } else {
      StalledTick(s, inp);
    }
  }

  lemma SteadyBeat(s: State, inp: TickInput, b: nat, msg: Word, answer: Word)
    requires Poised(s, inp) && AtBeat(s, b, msg, answer) && Steady(b) && b != 15 && s.clock.tickCount % 8 == b % 8
    ensures Advances(s, Tick(s, inp), NextBeat(b), msg, answer)
  {
    SteadyFacts(s, b, msg, answer);
    SteadyTick(s, inp, b);
    SteadyArrives(s, Tick(s, inp), b, msg, answer, Charged(s.tasks[1].slice, 5));
  }

  // ---------------------------------------------------------------------------
  // Every tick
  // ---------------------------------------------------------------------------

  /** The tick of the client's last call before or at tick `t`. */
  function LastCall(t: nat): nat {
    if t < 16 then 6 else if t < 40 then 16 else LastCall(t - 24) + 24
  }

  function LastMessage(t: nat): Word {
    if t < 16 then KickMessage(6) else PeriodicMessage(LastCall(t))
  }

  predicate OnTime(s: State) {
    var t := s.clock.tickCount;
    AtBeat(s, Beat(t), LastMessage(t), ServerReply(LastMessage(t)))
  }

  lemma {:induction false} BeatResidue(t: nat)
    ensures Beat(t) % 8 == t % 8 && (Beat(t) < 11 ==> Beat(t) == t)
  {
    if t >= 35 { BeatResidue(t - 24); }
  }

  /** The client calls at beat 16 and never else after its first call. */
  lemma {:induction false} CallNext(t: nat)
    requires t >= 6
    ensures LastCall(t + 1) == if Beat(t) == 15 then t + 1 else LastCall(t)
  {
    if t >= 40 { CallNext(t - 24); }
  }

  lemma MessageNext(t: nat)
    ensures LastMessage(t + 1) == if Beat(t) == 15 then PeriodicMessage(t + 1) else LastMessage(t)
  {
    if t >= 6 { CallNext(t); }
    BeatResidue(t);
    if t < 16 { assert Beat(t) == t; }
  }

  lemma EarlyBeats(s: State, inp: TickInput, b: nat, msg: Word, answer: Word)
    requires Poised(s, inp) && AtBeat(s, b, msg, answer) && b < 8 && b != 5
    ensures (b == 3 && Panics(s, Tick(s, inp))) || Advances(s, Tick(s, inp), b + 1, msg, answer)
  {
    if b < 4 { IdleBeat(s, inp, b, msg, answer); }
    else if b == 4 { SwitchBeat(s, inp, msg, answer); }
    else { ServiceBeats(s, inp, b, msg, answer); }
  }

  lemma ServiceBeats(s: State, inp: TickInput, b: nat, msg: Word, answer: Word)
    requires Poised(s, inp) && AtBeat(s, b, msg, answer) && (b == 6 || b == 7)
    ensures Advances(s, Tick(s, inp), b + 1, msg, answer)
  {
    if b == 6 { TakeBeat(s, inp, msg, answer); } else { StallBeat(s, inp, msg, answer); }
  }

  lemma OpeningBeats(s: State, inp: TickInput, b: nat, msg: Word, answer: Word)
    requires Poised(s, inp) && AtBeat(s, b, msg, answer) && b < 10 && b != 5 && answer == ServerReply(msg)
    ensures (b == 3 && Panics(s, Tick(s, inp))) || Advances(s, Tick(s, inp), b + 1, msg, answer)
  {
    if b < 8 { EarlyBeats(s, inp, b, msg, answer); }
    else if b == 8 { FirstAnswerBeat(s, inp, msg, answer); }
    else { FirstListenBeat(s, inp, msg, answer); }
  }

  lemma LaterBeats(s: State, inp: TickInput, b: nat, msg: Word, answer: Word)
    requires Poised(s, inp) && AtBeat(s, b, msg, answer) && 10 <= b < 35 && b != 15
    requires answer == ServerReply(msg) && s.clock.tickCount % 8 == b % 8
    ensures Advances(s, Tick(s, inp), NextBeat(b), msg, answer)
  {
    if b == 16 { AnswerBeat(s, inp, msg, answer); }
    else if b == 17 { ListenBeat(s, inp, msg, answer); }
    else { SteadyBeat(s, inp, b, msg, answer); }
  }

  /** A tick without a call. */
  lemma PlainTick(s: State, inp: TickInput, b: nat, msg: Word, answer: Word)
    requires Poised(s, inp) && AtBeat(s, b, msg, answer) && b < 35 && b != 5 && b != 15
    requires answer == ServerReply(msg) && s.clock.tickCount % 8 == b % 8
    ensures (b == 3 && Panics(s, Tick(s, inp))) || Advances(s, Tick(s, inp), NextBeat(b), msg, answer)
  {
    if b < 10 {
      OpeningBeats(s, inp, b, msg, answer);
    } else {
      LaterBeats(s, inp, b, msg, answer);
    }
  }

  /** From `s` to `r` the demo goes on, or the idle task's first map call panics at tick 4. */
  predicate Goes(s: State, r: State) {
    || (r.clock.panicked && s.clock.tickCount == 3 && r.clock.tickCount == 4)
    || (OnTime(r) && r.clock.tickCount == s.clock.tickCount + 1)
  }

  lemma PlainOnTime(s: State, inp: TickInput)
    requires OnTime(s) && Poised(s, inp) && Beat(s.clock.tickCount) != 5 && Beat(s.clock.tickCount) != 15
    ensures Goes(s, Tick(s, inp))
  {
    var t := s.clock.tickCount;
    BeatNext(t);
    BeatResidue(t);
    MessageNext(t);
    PlainTick(s, inp, Beat(t), LastMessage(t), ServerReply(LastMessage(t)));
  }

  lemma CallFacts(t: nat)
    requires Beat(t) == 15
    ensures Beat(t + 1) == 16 && (t + 1) % 8 == 0
  {
    BeatNext(t);
    BeatResidue(t + 1);
  }

  lemma Reaches(s: State, r: State, t: nat, msg: Word)
    requires Advances(s, r, Beat(t + 1), msg, ServerReply(msg)) && s.clock.tickCount == t && msg == LastMessage(t + 1)
    ensures OnTime(r)
  {
  }

  lemma CallOnTime(s: State, inp: TickInput)
    requires OnTime(s) && Poised(s, inp) && Beat(s.clock.tickCount) == 15
    ensures OnTime(Tick(s, inp)) && Tick(s, inp).clock.tickCount == s.clock.tickCount + 1
  {
    var t := s.clock.tickCount;
    var msg := PeriodicMessage(t + 1);
    CallFacts(t);
    MessageNext(t);
    SendBeat(s, inp, LastMessage(t), ServerReply(LastMessage(t)), msg, ServerReply(msg));
    Reaches(s, Tick(s, inp), t, msg);
  }

  lemma FirstCallOnTime(s: State, inp: TickInput)
    requires OnTime(s) && Poised(s, inp) && s.clock.tickCount == 5
    ensures OnTime(Tick(s, inp)) && Tick(s, inp).clock.tickCount == s.clock.tickCount + 1
  {
    QueueBeat(s, inp, LastMessage(5), ServerReply(LastMessage(5)));
  }

  lemma TickOnTime(s: State, inp: TickInput)
    requires OnTime(s) && Poised(s, inp)
    ensures Goes(s, Tick(s, inp))
  {
    var t := s.clock.tickCount;
    BeatResidue(t);
    if Beat(t) == 5 {
      FirstCallOnTime(s, inp);
    } else if Beat(t) == 15 {
      CallOnTime(s, inp);
    } else {
      PlainOnTime(s, inp);
    }
  }

  // ---------------------------------------------------------------------------
  // What the log shows
  // ---------------------------------------------------------------------------

  lemma ServerSilent(s: State, inp: TickInput)
    requires Poised(s, inp) && s.current != 1 && !Begun(s, inp).clock.panicked
    ensures !Sends(Chosen(s, inp))
  {
    if s.clock.activity != MappingDemoPage {
      BegunQuiet(s, inp);
    } else if s.current == 0 {
      BegunIdle(s, inp);
    } else {
      assert s.tasks[s.current].kind == UserSpace;
      BegunDemo(s, inp);
    }
    var a := Begun(s, inp);
    if s.current == 0 {
      IdleActs(a);
    } else if a.tasks[2].pendingCall == None {
      ServerActs(a);
    }
  }

  lemma ClientSilent(s: State, inp: TickInput)
    requires Poised(s, inp) && s.current == 1 && s.sentByTask1
    requires (s.clock.activity == MappingDemoPage && (s.tasks[1].stage == 0 || s.tasks[1].stage == 2)) || (s.clock.tickCount + 1) % 8 != 0
    ensures !Sends(Chosen(s, inp))
  {
    if s.clock.activity != MappingDemoPage { BegunQuiet(s, inp); } else { BegunDemo(s, inp); }
    var a := Begun(s, inp);
    if a.tasks[1].pendingCall == None && (s.clock.tickCount + 1) % 8 != 0 { ClientIdles(a); }
  }

  /** Except at beats 5 and 15 nobody sends. */
  lemma BeatSilent(s: State, inp: TickInput, b: nat, msg: Word, answer: Word)
    requires Poised(s, inp) && AtBeat(s, b, msg, answer) && b < 35 && b != 5 && b != 15 && s.clock.tickCount % 8 == b % 8
    requires !Begun(s, inp).clock.panicked
    ensures !Sends(Chosen(s, inp))
  {
    if Steady(b) {
      SteadyFacts(s, b, msg, answer);
      SteadyQuiet(b, s.clock.tickCount);
      ClientSilent(s, inp);
    } else {
      assert SceneOf(s) == SceneIn(b, msg, answer);
      ServerSilent(s, inp);
    }
  }

  lemma SteadyQuiet(b: nat, t: nat)
    requires Steady(b) && b != 15 && t % 8 == b % 8
    ensures (b % 4 == 3 && (ClientStage(b) == 0 || ClientStage(b) == 2)) || (t + 1) % 8 != 0
  {
  }

  lemma TickLogged(s: State, inp: TickInput)
    requires OnTime(s) && Poised(s, inp) && Logged(s) && OnTime(Tick(s, inp)) && !Tick(s, inp).clock.panicked
    requires Tick(s, inp).clock.tickCount == s.clock.tickCount + 1
    ensures Logged(Tick(s, inp))
  {
    var t := s.clock.tickCount;
    BeatResidue(t);
    MessageNext(t);
    if Beat(t) == 5 {
      FirstCallLogged(s, inp, LastMessage(5), ServerReply(LastMessage(5)));
    } else if Beat(t) == 15 {
      CallFacts(t);
      PeriodicCallLogged(s, inp, LastMessage(t), ServerReply(LastMessage(t)), PeriodicMessage(t + 1));
    } else {
      BeatSilent(s, inp, Beat(t), LastMessage(t), ServerReply(LastMessage(t)));
      TickKeepsCalls(s, inp, 2);
    }
  }

  /** The client has chosen to send `msg`. */
  predicate SendChosen(s: State, u: State, msg: Word) {
    && Shape(u) && u.current == s.current == 1 && u.tasks[1].pendingCall == Some(CallSend(0, msg))
    && 0 < |u.endpoints| && !u.endpoints[0].closed
  }

  lemma FirstSendChosen(s: State, inp: TickInput, msg: Word)
    requires Poised(s, inp) && s.current == 1 && s.clock.activity != MappingDemoPage && !s.sentByTask1
    requires msg == KickMessage(s.clock.tickCount + 1)
    ensures SendChosen(s, Chosen(s, inp), msg)
  {
    BegunQuiet(s, inp);
    ClientCalls(Begun(s, inp));
  }

  lemma LaterSendChosen(s: State, inp: TickInput, msg: Word)
    requires Poised(s, inp) && s.current == 1 && s.clock.activity == MappingDemoPage && s.tasks[1].stage == 1
    requires s.sentByTask1 && s.endpoints[0].receiver.Some? && (s.clock.tickCount + 1) % 8 == 0
    requires msg == PeriodicMessage(s.clock.tickCount + 1)
    ensures SendChosen(s, Chosen(s, inp), msg)
  {
    BegunDemo(s, inp);
    ClientCalls(Begun(s, inp));
  }

  lemma SendLogged(s: State, inp: TickInput, msg: Word)
    requires Poised(s, inp) && SendChosen(s, Chosen(s, inp), msg) && !Tick(s, inp).clock.panicked
    ensures LastCallBy(Tick(s, inp).history, 2) == Some(msg)
  {
    TickLogsCall(s, inp, 0, msg);
  }

  lemma FirstCallLogged(s: State, inp: TickInput, msg: Word, answer: Word)
    requires AtBeat(s, 5, msg, answer) && Poised(s, inp) && msg == KickMessage(s.clock.tickCount + 1) && !Tick(s, inp).clock.panicked
    ensures LastCallBy(Tick(s, inp).history, 2) == Some(msg)
  {
    FirstBeatFacts(s, msg, answer);
    FirstSendLogged(s, inp, msg);
  }

  lemma FirstBeatFacts(s: State, msg: Word, answer: Word)
    requires AtBeat(s, 5, msg, answer)
    ensures s.current == 1 && s.clock.activity != MappingDemoPage && !s.sentByTask1
  {
  }

  lemma FirstSendLogged(s: State, inp: TickInput, msg: Word)
    requires Poised(s, inp) && s.current == 1 && s.clock.activity != MappingDemoPage && !s.sentByTask1
    requires msg == KickMessage(s.clock.tickCount + 1) && !Tick(s, inp).clock.panicked
    ensures LastCallBy(Tick(s, inp).history, 2) == Some(msg)
  {
    FirstSendChosen(s, inp, msg);
    SendLogged(s, inp, msg);
  }

  lemma PeriodicCallLogged(s: State, inp: TickInput, msg: Word, answer: Word, next: Word)
    requires AtBeat(s, 15, msg, answer) && Poised(s, inp) && (s.clock.tickCount + 1) % 8 == 0
    requires next == PeriodicMessage(s.clock.tickCount + 1) && !Tick(s, inp).clock.panicked
    ensures LastCallBy(Tick(s, inp).history, 2) == Some(next)
  {
    SendBeatFacts(s, msg, answer);
    LaterSendLogged(s, inp, next);
  }

  lemma LaterSendLogged(s: State, inp: TickInput, msg: Word)
    requires Poised(s, inp) && s.current == 1 && s.clock.activity == MappingDemoPage && s.tasks[1].stage == 1
    requires s.sentByTask1 && s.endpoints[0].receiver.Some? && (s.clock.tickCount + 1) % 8 == 0
    requires msg == PeriodicMessage(s.clock.tickCount + 1) && !Tick(s, inp).clock.panicked
    ensures LastCallBy(Tick(s, inp).history, 2) == Some(msg)
  {
    LaterSendChosen(s, inp, msg);
    SendLogged(s, inp, msg);
  }

  lemma SendBeatFacts(s: State, msg: Word, answer: Word)
    requires AtBeat(s, 15, msg, answer)
    ensures s.current == 1 && s.clock.activity == MappingDemoPage && s.tasks[1].stage == 1 && s.sentByTask1
    ensures s.endpoints[0].receiver == Some(2)
  {
    SteadyFacts(s, 15, msg, answer);
  }

  // ---------------------------------------------------------------------------
  // Every run
  // ---------------------------------------------------------------------------

  predicate DemoSteps(steps: seq<Step>) {
    forall k :: 0 <= k < |steps| ==> steps[k].TickStep? && DemoInput(steps[k].inp)
  }

  /** The log's last call of the client is its last message. */
  predicate Logged(s: State) {
    s.clock.tickCount >= 6 ==> LastCallBy(s.history, 2) == Some(LastMessage(s.clock.tickCount))
  }

  /** Where the kernel is after `n` ticks of the demo. */
  ghost predicate Timed(s: State, n: nat) {
    && Core(s) && (s.clock.panicked ==> s.clock.tickCount == 4)
    && (!s.clock.panicked ==> OnTime(s) && Logged(s) && (s.clock.halted || s.clock.tickCount == n))
  }

  lemma TimedStep(m: State, inp: TickInput, n: nat)
    requires Timed(m, n) && DemoInput(inp)
    ensures Timed(Apply(m, TickStep(inp)), n + 1)
  {
    if !m.clock.panicked { DemoTick(m, inp); }
  }

  /** By induction over the run; `DemoOnTime` adds why the kernel may have stopped. */
  lemma {:induction false} DemoTimed(steps: seq<Step>, allowSwitch: bool, supply: nat, mapped: map<nat, Leaf>)
    requires DemoSteps(steps) && BootMap(mapped, supply)
    ensures Timed(Run(Boot(allowSwitch, false, supply, mapped), steps), |steps|)
    decreases |steps|
  {
    var b := Boot(allowSwitch, false, supply, mapped);
    if steps == [] {
      BootIsBooted(allowSwitch, false, supply, mapped);
      BootedCore(b);
    } else {
      var init := steps[..|steps| - 1];
      DemoTimed(init, allowSwitch, supply, mapped);
      TimedStep(Run(b, init), steps[|steps| - 1].inp, |init|);
    }
  }

  /** In every run of the demo the kernel is where the timetable says, however many frames there
      are. It stops only for want of a frame, or by a panic at tick 4, when the idle task's first
      map call is refused. */
  lemma DemoOnTime(steps: seq<Step>, allowSwitch: bool, supply: nat, mapped: map<nat, Leaf>)
    requires DemoSteps(steps) && BootMap(mapped, supply)
    ensures var s := Run(Boot(allowSwitch, false, supply, mapped), steps);
      && Core(s) && (s.clock.panicked ==> s.clock.tickCount == 4)
      && (!s.clock.panicked ==> OnTime(s) && Logged(s) && (s.clock.tickCount == |steps| || (s.clock.halted && s.taken >= s.config.supply)))
  {
    DemoTimed(steps, allowSwitch, supply, mapped);
    var s := Run(Boot(allowSwitch, false, supply, mapped), steps);
    if !s.clock.panicked && s.clock.halted {
      ClientLives(s);
      DemoLegal(steps);
      BootIsBooted(allowSwitch, false, supply, mapped);
      HaltForever(Boot(allowSwitch, false, supply, mapped), steps);
    }
  }

  lemma ClientLives(s: State)
    requires OnTime(s)
    ensures UserAlive(s)
  {
    var t := s.clock.tickCount;
    BeatForm(t);
    BeatLives(Beat(t), LastMessage(t), ServerReply(LastMessage(t)));
  }

  lemma BeatLives(b: nat, msg: Word, answer: Word)
    requires b < 35
    ensures SceneIn(b, msg, answer).client.state != Dead
  {
  }

  lemma DemoLegal(steps: seq<Step>)
    requires DemoSteps(steps)
    ensures Legal(steps)
  {
  }

  lemma DemoTick(s: State, inp: TickInput)
    requires OnTime(s) && Logged(s) && Core(s) && DemoInput(inp)
    ensures var r := Tick(s, inp);
      && Core(r) && (r.clock.panicked ==> r.clock.tickCount == 4)
      && (!r.clock.panicked ==> OnTime(r) && Logged(r) && (s.clock.halted || r.clock.tickCount == s.clock.tickCount + 1))
      && (s.clock.halted ==> r == s)
  {
    AnythingInductive();
    TickKeeps(s, inp, (x: State) => true, ALL);
    if !s.clock.halted {
      TickOnTime(s, inp);
      if !Tick(s, inp).clock.panicked { TickLogged(s, inp); }
    }
  }

  lemma {:induction false} BeatForm(t: nat)
    ensures Beat(t) == if t < 11 then t else 11 + (t - 11) % 24
  {
    if t >= 35 { BeatForm(t - 24); }
  }

  /** What the timetable promises of a beat. */
  lemma BeatPromises(b: nat, msg: Word, answer: Word)
    requires b < 35
    ensures var sc := SceneIn(b, msg, answer);
      && (sc.current == 0 <==> b < 5)
      && (sc.current == 1 && sc.sent <==> sc.receiver == Some(2))
      && !(sc.client.state == Blocked && sc.server.state == Blocked)
      && (sc.client.state == Blocked <==> 6 <= b <= 8 || b == 16)
      && (sc.current == 2 <==> 6 <= b <= 9 || b == 16 || b == 17)
      && (sc.current == 2 ==> SliceIn(b).Some? && SliceIn(b).value < 4)
      && (sc.server.lastMsg.Some? ==> sc.server.lastMsg == Some(msg))
      && (if b == 9 || b == 10 || b == 17 || b == 18 then sc.client.lastReply == Some(answer) else sc.client.lastReply == None)
  {
  }

  /** The server's answer carries its own tag and the low 16 bits of the message. */
  lemma AnswerBits(m: Word)
    ensures ServerReply(m) >> 16 == 0xABCD_0000_0000 && ServerReply(m) & 0xFFFF == m & 0xFFFF
  {
  }

  lemma KickBits(tick: nat)
    ensures KickMessage(tick) >> 16 == 0x1111_0000_0000 && (KickMessage(tick) & 0xFFFF) as nat == tick % 0x10000
  {
    var low := Low16(tick % 0x10000);
    Low16Exact(tick % 0x10000);
    Tagged(0x1111_0000_0000_0000, low);
    Widened(low);
  }

  lemma PeriodicBits(tick: nat)
    ensures PeriodicMessage(tick) >> 16 == 0x2222_0000_0000 && (PeriodicMessage(tick) & 0xFFFF) as nat == tick % 0x10000
  {
    var low := Low16(tick % 0x10000);
    Low16Exact(tick % 0x10000);
    Tagged(0x2222_0000_0000_0000, low);
    Widened(low);
  }

  lemma {:induction false} LastCallWhen(t: nat)
    ensures LastCall(t) == if t < 16 then 6 else 16 + 24 * ((t - 16) / 24)
  {
    if t >= 40 {
      LastCallWhen(t - 24);
      assert (t - 16) / 24 == (t - 40) / 24 + 1;
    }
  }

  /** The message of the client's last call: its tag says whether it is the first call or a periodic one, and
      its low 16 bits are those of the tick of that call, which is tick 6, and then every 24th from tick 16 on. */
  lemma MessageBits(t: nat)
    ensures LastMessage(t) >> 16 == (if t < 16 then 0x1111_0000_0000 else 0x2222_0000_0000)
    ensures (LastMessage(t) & 0xFFFF) as nat == (if t < 16 then 6 else 16 + 24 * ((t - 16) / 24)) % 0x10000
  {
    LastCallWhen(t);
    if t < 16 { KickBits(6); } else { PeriodicBits(LastCall(t)); }
  }

  /** The server attends to the client: `m` is the message of the client's last call, `answer` what the server
      answers to it. */
  ghost predicate Attends(s: State, m: Word, answer: Word) {
    var t := s.clock.tickCount;
    && |s.tasks| == 3 && |s.endpoints| == 2 && Shape(s)
    && (s.current == 0 <==> t < 5)
    && (t >= 6 ==> LastCallBy(s.history, 2) == Some(m))
    && (s.current == 1 && s.sentByTask1 <==> s.endpoints[0].receiver == Some(2))
    && !(s.tasks[1].state == Blocked && s.tasks[2].state == Blocked)
    && (s.current == 2 ==> s.tasks[2].slice < 4 && s.config.quantum == 5)
    && (s.tasks[2].lastMsg.Some? ==> s.tasks[2].lastMsg == Some(m) == LastFor(s.history, 3))
    && s.tasks[1].lastReply == (if t == 9 || t == 10 || (t >= 17 && (t % 24 == 17 || t % 24 == 18)) then Some(answer) else None)
  }

  lemma DemoAttends(steps: seq<Step>, allowSwitch: bool, supply: nat, mapped: map<nat, Leaf>)
    requires DemoSteps(steps) && BootMap(mapped, supply)
    ensures var s := Run(Boot(allowSwitch, false, supply, mapped), steps);
      var t := s.clock.tickCount;
      !s.clock.panicked ==> Attends(s, LastMessage(t), ServerReply(LastMessage(t)))
  {
    DemoOnTime(steps, allowSwitch, supply, mapped);
    var t := Run(Boot(allowSwitch, false, supply, mapped), steps).clock.tickCount;
    BeatForm(t);
    BeatPromises(Beat(t), LastMessage(t), ServerReply(LastMessage(t)));
    AnswerBeats(t);
    BootIsBooted(allowSwitch, false, supply, mapped);
    MailForever(Boot(allowSwitch, false, supply, mapped), steps, 2);
  }

  /** After the client's first call: the idle task never runs again; whenever the client
      runs, the server is the endpoint's waiting receiver; client and server never block
      together; the server is always within its first four ticks, so its quantum of five never
      expires; the client's last call carries its tag, 0x1111 for the first and 0x2222 for the later
      ones, and the low 16 bits of the tick of that call; the server holds nothing but that message, which
      is the last one delivered to it; and the client sees an answer at ticks 9 and 10 and at two ticks in
      every 24 from tick 17 on, which carries the server's tag and the low 16 bits of that message. */
  lemma DemoServes(steps: seq<Step>, allowSwitch: bool, supply: nat, mapped: map<nat, Leaf>)
    requires DemoSteps(steps) && BootMap(mapped, supply)
    ensures var s := Run(Boot(allowSwitch, false, supply, mapped), steps);
      !s.clock.panicked ==> exists m: Word, answer: Word :: Attends(s, m, answer) && RightWords(s.clock.tickCount, m, answer)
  {
    DemoAttends(steps, allowSwitch, supply, mapped);
    var t := Run(Boot(allowSwitch, false, supply, mapped), steps).clock.tickCount;
    WordsRight(t);
  }

  /** What message and answer look like after `t` ticks. */
  predicate RightWords(t: nat, m: Word, answer: Word) {
    && m >> 16 == (if t < 16 then 0x1111_0000_0000 else 0x2222_0000_0000)
    && (m & 0xFFFF) as nat == (if t < 16 then 6 else 16 + 24 * ((t - 16) / 24)) % 0x10000
    && answer >> 16 == 0xABCD_0000_0000 && answer & 0xFFFF == m & 0xFFFF
  }

  lemma WordsRight(t: nat)
    ensures RightWords(t, LastMessage(t), ServerReply(LastMessage(t)))
  {
    MessageBits(t);
    AnswerBits(LastMessage(t));
  }

  lemma AnswerBeats(t: nat)
    ensures Beat(t) == 9 || Beat(t) == 10 || Beat(t) == 17 || Beat(t) == 18 <==>
      t == 9 || t == 10 || (t >= 17 && (t % 24 == 17 || t % 24 == 18))
  {
    BeatForm(t);
  }

  lemma CallBeats(t: nat)
    ensures 6 <= Beat(t) <= 8 || Beat(t) == 16 <==> 6 <= t <= 8 || (t >= 16 && t % 24 == 16)
  {
    BeatForm(t);
  }

  /** The client waits for the server exactly during ticks 6 to 8, and for one tick in 24
      from tick 16 on. */
  lemma DemoCallsWhen(steps: seq<Step>, allowSwitch: bool, supply: nat, mapped: map<nat, Leaf>)
    requires DemoSteps(steps) && BootMap(mapped, supply)
    ensures var s := Run(Boot(allowSwitch, false, supply, mapped), steps);
      var t := s.clock.tickCount;
      |s.tasks| == 3 && (!s.clock.panicked ==> (s.tasks[1].state == Blocked <==> 6 <= t <= 8 || (t >= 16 && t % 24 == 16)))
  {
    DemoOnTime(steps, allowSwitch, supply, mapped);
    var t := Run(Boot(allowSwitch, false, supply, mapped), steps).clock.tickCount;
    CallBeats(t);
    BeatPromises(Beat(t), LastMessage(t), ServerReply(LastMessage(t)));
  }
}
