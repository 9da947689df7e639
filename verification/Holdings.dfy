/** Which frames a task holds, and how page calls change spaces and holdings. */
module Holdings {
  import opened KernelTypes
  import opened PageOps
  import opened KernelSpec
  import opened Agreement

  predicate Maps(space: Space, f: nat) {
    exists v :: v in space.leaves && space.leaves[v].frame == f
  }

  /** The task's space really maps frame `f`, or the task keeps it for its next map call. */
  predicate Holds(t: Task, f: nat) {
    t.demoFrame == Some(f) || Maps(t.space, f)
  }

  /** A user space stays fit; a dead task's memory does not change. */
  predicate SpaceKept(t: Task, t': Task) {
    && (t.kind == UserSpace && Fit(t.space) ==> Fit(t'.space))
    && (t.state == Dead ==> t'.space == t.space && t'.demoFrame == t.demoFrame)
  }

  /** New frames come from the allocator, and only the current task gets them. */
  ghost predicate Frugal(s: State, r: State) {
    && s.taken <= r.taken && (s.taken <= s.config.supply ==> r.taken <= s.config.supply)
    && forall j: nat, f: nat {:trigger Holds(r.tasks[j], f)} :: j < |s.tasks| && j < |r.tasks| && Holds(r.tasks[j], f) ==>
         Holds(s.tasks[j], f) || (j == s.current && s.taken <= f < r.taken)
  }

  ghost predicate Memory(s: State, r: State) {
    && |r.tasks| == |s.tasks| && Frugal(s, r)
    && forall j: nat {:trigger r.tasks[j]} :: j < |s.tasks| ==> SpaceKept(s.tasks[j], r.tasks[j])
  }

  /** No space changes, and nobody gets a frame. */
  lemma MemorySame(s: State, r: State)
    requires |r.tasks| == |s.tasks| && s.taken <= r.taken && (s.taken <= s.config.supply ==> r.taken <= s.config.supply)
    requires forall j: nat {:trigger r.tasks[j]} :: j < |s.tasks| ==>
      r.tasks[j].space == s.tasks[j].space && r.tasks[j].demoFrame == s.tasks[j].demoFrame
    ensures Memory(s, r)
  {
  }

  // ---------------------------------------------------------------------------
  // Map and unmap calls
  // ---------------------------------------------------------------------------

  lemma MapHolds(t: Task, page: nat, frame: Option<nat>, flags: Flags, tables: bool, f: nat)
    requires Maps(PageMap(t.space, t.kind, page, frame, flags, tables).0, f)
    ensures Maps(t.space, f) || frame == Some(f)
  {
    var r := PageMap(t.space, t.kind, page, frame, flags, tables).0;
    var v :| v in r.leaves && r.leaves[v].frame == f;
    if v in t.space.leaves { assert r.leaves[v] == t.space.leaves[v] || frame == Some(f); }
  }

  lemma UnmapHolds(t: Task, page: nat, f: nat)
    requires Maps(PageUnmap(t.space, t.kind, page).0, f)
    ensures Maps(t.space, f)
  {
    var r := PageUnmap(t.space, t.kind, page).0;
    var v :| v in r.leaves && r.leaves[v].frame == f;
    assert v in t.space.leaves;
  }

  lemma MapKept(t: Task, page: nat, frame: Option<nat>, flags: Flags, tables: bool)
    requires PageMap(t.space, t.kind, page, frame, flags, tables).1.Returned? && t.kind == UserSpace && Fit(t.space)
    ensures Fit(PageMap(t.space, t.kind, page, frame, flags, tables).0)
  {
    MapFits(t.space, page, frame, flags, tables);
  }

  lemma UnmapKept(t: Task, page: nat)
    requires PageUnmap(t.space, t.kind, page).1.Returned? && t.kind == UserSpace && Fit(t.space)
    ensures Fit(PageUnmap(t.space, t.kind, page).0)
  {
    UnmapFits(t.space, page);
  }

  /** What a map or unmap call may change: one task's memory, the allocator, the log, and the
      clock if it panics. */
  predicate OnlyMemory(s: State, r: State, i: nat) {
    && i < |s.tasks| == |r.tasks| && r.tasks == s.tasks[i := r.tasks[i]]
    && r.tasks[i] == s.tasks[i].(space := r.tasks[i].space, demoFrame := r.tasks[i].demoFrame)
    && r.tasks[i].space.rooted == s.tasks[i].space.rooted
    && r == s.(tasks := r.tasks, taken := r.taken, history := r.history, clock := r.clock)
    && s.history <= r.history && forall k :: |s.history| <= k < |r.history| ==> r.history[k] == FrameAllocated
  }

  lemma DemoFrameMemory(s: State, i: nat)
    requires i < |s.tasks|
    ensures var (r, frame) := DemoFrame(s, i);
      && OnlyMemory(s, r, i) && r.clock == s.clock && r.tasks[i].space == s.tasks[i].space
      && (frame.Some? ==> r.tasks[i].demoFrame == frame)
      && s.taken <= r.taken && (s.taken <= s.config.supply ==> r.taken <= s.config.supply)
      && (r.tasks[i].demoFrame == s.tasks[i].demoFrame || (r.tasks[i].demoFrame == Some(s.taken) && r.taken == s.taken + 1))
      && (frame == None ==> r == s)
  {
  }

  lemma MapForForm(s: State, i: nat, page: nat, flags: Flags, n: nat)
    requires i < |s.tasks|
    ensures OnlyMemory(s, MapFor(s, i, page, flags, n).0, i)
    ensures MapFor(s, i, page, flags, n).0.clock == if MapFor(s, i, page, flags, n).1.Panicked? then Panic(s).clock else s.clock
  {
    DemoFrameMemory(s, i);
    var (s1, frame) := DemoFrame(s, i);
    MappedForm(s, s1, i, page, frame, flags, n);
  }

  /** The second half of a map call. */
  lemma MappedForm(s: State, s1: State, i: nat, page: nat, frame: Option<nat>, flags: Flags, n: nat)
    requires OnlyMemory(s, s1, i) && s1.clock == s.clock
    ensures var t := s1.tasks[i];
      var (space, out) := PageMap(t.space, t.kind, page, frame, flags, s1.taken + n <= s.config.supply);
      && OnlyMemory(s, Panic(s1), i) && (out.Returned? ==> OnlyMemory(s, SetTask(s1, i, t.(space := space)), i))
  {
    var t := s1.tasks[i];
    var space := PageMap(t.space, t.kind, page, frame, flags, s1.taken + n <= s.config.supply).0;
    assert s.tasks[i := t][i := t.(space := space)] == s.tasks[i := t.(space := space)];
  }

  lemma MapForFrugal(s: State, page: nat, flags: Flags, n: nat)
    requires Shape(s)
    ensures Frugal(s, MapFor(s, s.current, page, flags, n).0)
  {
    var i := s.current;
    DemoFrameMemory(s, i);
    MapForForm(s, i, page, flags, n);
    var (s1, frame) := DemoFrame(s, i);
    var r := MapFor(s, i, page, flags, n).0;
    forall j: nat, f: nat {:trigger Holds(r.tasks[j], f)} | j < |s.tasks| && Holds(r.tasks[j], f)
      ensures Holds(s.tasks[j], f) || (j == s.current && s.taken <= f < r.taken)
    {
      if j == i && Maps(r.tasks[i].space, f) && !Maps(s.tasks[i].space, f) {
        MapHolds(s1.tasks[i], page, frame, flags, s1.taken + n <= s.config.supply, f);
      }
    }
  }

  /** The running task's map call. */
  lemma MapForMemory(s: State, page: nat, flags: Flags, n: nat)
    requires Shape(s) && s.tasks[s.current].state != Dead
    ensures Memory(s, MapFor(s, s.current, page, flags, n).0)
  {
    var i := s.current;
    DemoFrameMemory(s, i);
    MapForForm(s, i, page, flags, n);
    MapForFrugal(s, page, flags, n);
    var (s1, frame) := DemoFrame(s, i);
    var t := s1.tasks[i];
    var fed := s1.taken + n <= s.config.supply;
    if t.kind == UserSpace && Fit(t.space) && PageMap(t.space, t.kind, page, frame, flags, fed).1.Returned? {
      MapKept(t, page, frame, flags, fed);
    }
  }

  lemma UnmapForForm(s: State, i: nat, page: nat)
    requires i < |s.tasks|
    ensures OnlyMemory(s, UnmapFor(s, i, page).0, i) && UnmapFor(s, i, page).0.history == s.history
    ensures UnmapFor(s, i, page).0.clock == if UnmapFor(s, i, page).1.Panicked? then Panic(s).clock else s.clock
  {
  }

  lemma UnmapForMemory(s: State, page: nat)
    requires Shape(s) && s.tasks[s.current].state != Dead
    ensures Memory(s, UnmapFor(s, s.current, page).0)
  {
    var i := s.current;
    var t := s.tasks[i];
    var r := UnmapFor(s, i, page).0;
    forall j: nat, f: nat {:trigger Holds(r.tasks[j], f)} | j < |s.tasks| && Holds(r.tasks[j], f) ensures Holds(s.tasks[j], f) {
      if j == i && Maps(r.tasks[i].space, f) && !Maps(s.tasks[i].space, f) { UnmapHolds(t, page, f); }
    }
    if t.kind == UserSpace && Fit(t.space) && PageUnmap(t.space, t.kind, page).1.Returned? { UnmapKept(t, page); }
  }
}
