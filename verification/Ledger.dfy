/** Conservation of messages, task by task and with any number of tasks: every call is delivered,
    withdrawn or still queued, and every delivery is answered, broken off or still awaited. */
module Ledger {
  import opened KernelTypes
  import opened Sessions
  import opened SessionProof
  import opened KernelSpec
  import opened Runs

  /** What the log says of one sender: its calls, the deliveries of its messages, the replies it got;
      the calls withdrawn from the line and the waits broken off when it was woken without a reply;
      the calls and waits that ended in its own death. */
  datatype Tally = Tally(calls: nat, deliveries: nat, answers: nat, withdrawn: nat, brokenOff: nat, lostCalls: nat, lostWaits: nat)

  const BLANK := Tally(0, 0, 0, 0, 0, 0, 0)

  /** One more event, for a sender whose session is `x`. */
  function Book(t: Tally, x: Session, ev: Event, id: TaskId): Tally {
    match ev
    case IpcSendCalled(a, _, _) => if a == id then t.(calls := t.calls + 1) else t
    case IpcDelivered(from, _, _, _) => if from == id then t.(deliveries := t.deliveries + 1) else t
    case IpcReplyDelivered(_, to, _) => if to == id then t.(answers := t.answers + 1) else t
    case TaskStateChanged(a, st) =>
      if a != id || st != Ready then t
      else if x.Called? then t.(withdrawn := t.withdrawn + 1)
      else if x.Awaiting? then t.(brokenOff := t.brokenOff + 1)
      else t
    case TaskKilled(a, _) =>
      if a != id then t
      else if x.Called? then t.(lostCalls := t.lostCalls + 1)
      else if x.Awaiting? || x.Answering? then t.(lostWaits := t.lostWaits + 1)
      else t
    case _ => t
  }

  function TallyOf(h: seq<Event>, id: TaskId): Tally {
    if h == [] then BLANK
    else Book(TallyOf(h[..|h| - 1], id), SessionOf(h[..|h| - 1], id), h[|h| - 1], id)
  }

  /** The books balance in every unbroken history. */
  predicate Balances(t: Tally, x: Session) {
    && t.calls == t.deliveries + t.withdrawn + t.lostCalls + (if x.Called? then 1 else 0)
    && t.deliveries == t.answers + t.brokenOff + t.lostWaits + (if x.Awaiting? || x.Answering? then 1 else 0)
    && t.lostCalls + t.lostWaits <= (if x == Over then 1 else 0)
  }

  lemma {:induction false} TallyBalances(h: seq<Event>, id: TaskId)
    requires SessionOf(h, id) != Broken
    ensures Balances(TallyOf(h, id), SessionOf(h, id))
  {
    if h != [] {
      PrefixUnbroken(h, id, |h| - 1);
      TallyBalances(h[..|h| - 1], id);
    }
  }

  predicate Queues(t: Task) {
    t.reason.Some? && t.reason.value.IpcSend?
  }

  predicate AwaitsAnswer(t: Task) {
    t.reason.Some? && t.reason.value.IpcReply?
  }

  /** The books of a task, by where it stands. */
  predicate InBalance(t: Tally, task: Task) {
    if task.state != Dead then
      && t.calls == t.deliveries + t.withdrawn + (if Queues(task) then 1 else 0)
      && t.deliveries == t.answers + t.brokenOff + (if AwaitsAnswer(task) then 1 else 0)
    else
      && t.calls == t.deliveries + t.withdrawn + t.lostCalls
      && t.deliveries == t.answers + t.brokenOff + t.lostWaits && t.lostCalls + t.lostWaits <= 1
  }

  /** In every run, for any number of tasks and whoever is killed: a task's calls are its deliveries,
      its withdrawn calls, and the one it still queues with; its deliveries are the replies it got, the
      waits broken off with an error, and the one it still waits in, whether or not a line holds it.
      Only a death loses one. */
  lemma LedgerForever(s: State, steps: seq<Step>, i: nat)
    requires Booted(s) && Legal(steps) && i < |s.tasks|
    ensures InBalance(TallyOf(Run(s, steps).history, i + 1), Run(s, steps).tasks[i])
  {
    SessionsForever(s, steps, i);
    TallyBalances(Run(s, steps).history, i + 1);
    Accounted(TallyOf(Run(s, steps).history, i + 1), SessionOf(Run(s, steps).history, i + 1), Run(s, steps).tasks[i]);
  }

  lemma Accounted(t: Tally, x: Session, task: Task)
    requires Balances(t, x) && Agrees(x, task)
    ensures InBalance(t, task)
  {
  }
}
