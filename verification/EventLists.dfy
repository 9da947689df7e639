/** The log entries of tasks that are woken one after the other. */
module EventLists {
  import opened KernelTypes

  function ReadyEvent(x: nat): Event {
    TaskStateChanged(x + 1, Ready)
  }

  function ReadyEvents(l: seq<nat>): (r: seq<Event>)
    ensures |r| == |l|
    ensures forall k :: 0 <= k < |l| ==> r[k] == ReadyEvent(l[k])
  {
    seq(|l|, k requires 0 <= k < |l| => ReadyEvent(l[k]))
  }
}
