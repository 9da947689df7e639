/** Frames over all runs: no two spaces share one, and no root is mapped. */
module Frames {
  import opened KernelTypes
  import opened PageOps
  import opened Invariant
  import opened Holdings
  import opened KillOutcome
  import opened Actions
  import opened Spaces

  /** The first frames are the roots of the user spaces, task `i`'s being number i - 1. A frame of
      the allocator that anybody holds has been handed out, is no root, and nobody else holds it. */
  ghost predicate Isolated(s: State) {
    && |s.tasks| - 1 <= s.taken <= s.config.supply
    && (forall j: nat, f: nat {:trigger Holds(s.tasks[j], f)} :: j < |s.tasks| && Holds(s.tasks[j], f) && f < s.config.supply ==>
          |s.tasks| - 1 <= f < s.taken)
    && (forall i: nat, j: nat, f: nat {:trigger Holds(s.tasks[i], f), Holds(s.tasks[j], f)} ::
          i < |s.tasks| && j < |s.tasks| && Holds(s.tasks[i], f) && Holds(s.tasks[j], f) && f < s.config.supply ==> i == j)
  }

  lemma FrugalIsolates(s: State, r: State)
    requires Isolated(s) && Frugal(s, r) && |r.tasks| == |s.tasks| && r.config == s.config
    ensures Isolated(r)
  {
    forall i: nat, j: nat, f: nat {:trigger Holds(r.tasks[i], f), Holds(r.tasks[j], f)} |
      i < |r.tasks| && j < |r.tasks| && Holds(r.tasks[i], f) && Holds(r.tasks[j], f) && f < r.config.supply
      ensures i == j
    {
      assert Holds(s.tasks[i], f) || (i == s.current && s.taken <= f);
      assert Holds(s.tasks[j], f) || (j == s.current && s.taken <= f);
    }
  }

  lemma UntouchedFrugal(s: State, r: State)
    requires Untouched(s, r)
    ensures Frugal(s, r)
  {
  }

  lemma SlayFrugal(s: State, i: nat, why: KillReason, r: State)
    requires Settled(s) && Slays(s, i, why, r)
    ensures Frugal(s, r) && |r.tasks| == |s.tasks| && r.config == s.config
  {
    KillLog(s, i, why);
    assert s.tasks[i].id == i + 1;
    KillQuietlyForm(s, i, why);
    forall j: nat, f: nat {:trigger Holds(r.tasks[j], f)} | j < |s.tasks| && Holds(r.tasks[j], f) ensures Holds(s.tasks[j], f) {
      FateMet(s, i, why, j);
      if j == i { CleanedMaps(s.tasks[i].space, f); }
    }
  }

  lemma CleanedMaps(space: Space, f: nat)
    ensures Maps(Cleaned(space), f) ==> Maps(space, f)
  {
    if Maps(Cleaned(space), f) {
      var v :| v in Cleaned(space).leaves && Cleaned(space).leaves[v].frame == f;
      assert v in space.leaves;
    }
  }

  /** Whatever happens, frames come only from the allocator, and only to the running task. */
  lemma ActionFrugal(s: State, a: Action, r: State)
    requires Settled(s) && Does(s, a, r)
    ensures Frugal(s, r) && |r.tasks| == |s.tasks| && r.config == s.config
  {
    if a.Slay? {
      SlayFrugal(s, a.task, a.why, r);
    } else if !a.Note? {
      ActionUntouched(s, a, r);
      UntouchedFrugal(s, r);
    }
  }

  lemma ActionIsolated(s: State, a: Action, r: State)
    requires Settled(s) && Isolated(s) && Does(s, a, r)
    ensures Isolated(r)
  {
    ActionFrugal(s, a, r);
    FrugalIsolates(s, r);
  }

  /** Frame `f` has been taken, and no task holds it. */
  ghost predicate Spent(s: State, f: nat) {
    f < s.taken && forall j: nat {:trigger Holds(s.tasks[j], f)} :: j < |s.tasks| ==> !Holds(s.tasks[j], f)
  }

  /** Such a frame never comes back. */
  lemma SpentInductive(f: nat)
    ensures Inductive((x: State) => Spent(x, f), ALL)
  {
    var P := (x: State) => Spent(x, f);
    forall s: State, a: Action, r: State {:trigger P(s), Does(s, a, r)} | Settled(s) && P(s) && Does(s, a, r) ensures P(r) {
      ActionFrugal(s, a, r);
      FrugalSpent(s, r, f);
    }
  }

  lemma FrugalSpent(s: State, r: State, f: nat)
    requires Spent(s, f) && Frugal(s, r) && |r.tasks| == |s.tasks|
    ensures Spent(r, f)
  {
    forall j: nat {:trigger Holds(r.tasks[j], f)} | j < |r.tasks| ensures !Holds(r.tasks[j], f) {
      assert !Holds(s.tasks[j], f);
    }
  }

  lemma IsolatedInductive()
    ensures Inductive(Isolated, ALL)
  {
    forall s: State, a: Action, r: State {:trigger Isolated(s), Does(s, a, r)} | Settled(s) && Isolated(s) && Does(s, a, r)
      ensures Isolated(r)
    {
      ActionIsolated(s, a, r);
    }
  }

  // ---------------------------------------------------------------------------
  // What boot fixed stays fixed
  // ---------------------------------------------------------------------------

  lemma ConfigInductive(c: Config)
    ensures Inductive((x: State) => x.config == c, ALL)
  {
    var P := (x: State) => x.config == c;
    forall s: State, a: Action, r: State {:trigger P(s), Does(s, a, r)} | Settled(s) && P(s) && Does(s, a, r) ensures P(r) {
      ActionConfig(s, a, r);
    }
  }

  lemma ActionConfig(s: State, a: Action, r: State)
    requires Settled(s) && Does(s, a, r)
    ensures r.config == s.config
  {
    ActionFrugal(s, a, r);
  }
}
