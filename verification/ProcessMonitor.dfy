/** The thread that waits for processes to end (ProcessMonitor in DebugViewppLib/ProcessMonitor.cpp).
    The system waits on at most 64 handles, one of them the monitor's own event, so the thread waits
    on a window of the process list that moves on every time-out. */
module ProcessMonitoring {
  import Arithmetic

  const MAXIMUM_WAIT_OBJECTS := 64
  const WINDOW := MAXIMUM_WAIT_OBJECTS - 1

  datatype Process = Process(pid: nat, handle: nat)

  datatype Task = AddProcess(process: Process) | End

  /** WaitForAnyObject: nothing within a second, or the lowest signalled slot. */
  datatype WaitResult = TimedOut | Signaled(index: nat)

  datatype State = State(
    processes: seq<Process>,
    offset: nat,
    queue: seq<Task>,
    end: bool,
    added: multiset<Process>,  // everything ever passed to Add
    reported: seq<Process>)    // every process-ended report so far

  function Count(n: nat): nat {
    if n <= WINDOW then n else WINDOW
  }

  /** The index of the process that slot i + 1 of the wait stands for. */
  function Slot(n: nat, offset: nat, i: nat): nat
    requires n > 0
  {
    (offset + i) % n
  }

  /** What the operating system may answer: a time-out only where the wait has one. */
  predicate Possible(s: State, result: WaitResult) {
    match result
    case TimedOut => Count(|s.processes|) < |s.processes|
    case Signaled(index) => index <= Count(|s.processes|)
  }

  /** Entry i replaced by the last one, and the list cut by one. */
  function SwapRemoved(ps: seq<Process>, i: nat): seq<Process>
    requires i < |ps|
  {
    ps[i := ps[|ps| - 1]][..|ps| - 1]
  }

  function Added(queue: seq<Task>): seq<Process> {
    if queue == [] then []
    else (if queue[0].AddProcess? then [queue[0].process] else []) + Added(queue[1..])
  }

  datatype Action = Push(task: Task) | Wait(result: WaitResult)

  predicate Can(s: State, a: Action) {
    a.Wait? ==> !s.end && Possible(s, a.result)
  }

  function Do(s: State, a: Action): State
    requires Can(s, a)
  {
    match a
    case Push(task) =>
      s.(queue := s.queue + [task],
         added := if task.AddProcess? then s.added + multiset{task.process} else s.added)
    case Wait(TimedOut) => s.(offset := (s.offset + Count(|s.processes|)) % |s.processes|)
    case Wait(Signaled(index)) =>
      if index == 0 then s.(processes := s.processes + Added(s.queue), queue := [], end := End in s.queue)
      else
        var i := Slot(|s.processes|, s.offset, index - 1);
        s.(processes := SwapRemoved(s.processes, i), reported := s.reported + [s.processes[i]])
  }

  const START: State := State([], 0, [], false, multiset{}, [])

  ghost predicate IsRun(run: seq<State>, acts: seq<Action>) {
    && |run| == |acts| + 1 && run[0] == START
    && forall i :: 0 <= i < |acts| ==> Can(run[i], acts[i]) && run[i + 1] == Do(run[i], acts[i])
  }

  // ----- conservation -----

  lemma SwapRemoveConserves(ps: seq<Process>, i: nat)
    requires i < |ps|
    ensures multiset(SwapRemoved(ps, i)) + multiset{ps[i]} == multiset(ps)
    ensures forall j :: 0 <= j < |ps| - 1 && j != i ==> SwapRemoved(ps, i)[j] == ps[j]
  {
    var n := |ps| - 1;
    var swapped := ps[i := ps[n]];
    assert swapped == swapped[..n] + [ps[n]];
    assert multiset(swapped) == multiset(ps) - multiset{ps[i]} + multiset{ps[n]};
    assert multiset(swapped) == multiset(swapped[..n]) + multiset{ps[n]};
  }

  lemma {:induction false} AddedAppend(queue: seq<Task>, task: Task)
    ensures Added(queue + [task]) == Added(queue) + if task.AddProcess? then [task.process] else []
  {
    if queue == [] {
      assert (queue + [task])[1..] == [];
    } else {
      AddedAppend(queue[1..], task);
      assert (queue + [task])[1..] == queue[1..] + [task];
    }
  }

  /** Added processes are waiting in the queue, monitored, or reported. */
  ghost predicate Conserved(s: State) {
    s.added == multiset(Added(s.queue)) + multiset(s.processes) + multiset(s.reported)
  }

  lemma StepConserves(s: State, a: Action)
    requires Conserved(s) && Can(s, a)
    ensures Conserved(Do(s, a))
  {
    match a
    case Push(task) => AddedAppend(s.queue, task);
    case Wait(TimedOut) =>
    case Wait(Signaled(index)) =>
      if index > 0 {
        SwapRemoveConserves(s.processes, Slot(|s.processes|, s.offset, index - 1));
      }
  }

  /** Over every run the processes added are, with multiplicity, those queued, those still monitored
      and those reported; each process is reported at most as often as it was added. */
  lemma {:induction false} RunConserves(run: seq<State>, acts: seq<Action>, i: nat)
    requires IsRun(run, acts) && i < |run|
    ensures Conserved(run[i])
  {
    if i > 0 {
      RunConserves(run, acts, i - 1);
      StepConserves(run[i - 1], acts[i - 1]);
    }
  }

  // ----- the end -----

  /** An Abort that the monitor has not been woken up for since. */
  ghost predicate AbortPending(acts: seq<Action>, i: nat)
    requires i <= |acts|
  {
    exists j :: 0 <= j < i && acts[j] == Push(End) && forall k :: j < k < i ==> acts[k] != Wait(Signaled(0))
  }

  /** The monitor has been woken up after an Abort. */
  ghost predicate Aborted(acts: seq<Action>, i: nat)
    requires i <= |acts|
  {
    exists j, k :: 0 <= j < k < i && acts[j] == Push(End) && acts[k] == Wait(Signaled(0))
  }

  lemma AbortedNext(acts: seq<Action>, i: nat)
    requires i < |acts|
    ensures AbortPending(acts, i + 1)
      <==> acts[i] == Push(End) || (AbortPending(acts, i) && acts[i] != Wait(Signaled(0)))
    ensures Aborted(acts, i + 1) <==> Aborted(acts, i) || (AbortPending(acts, i) && acts[i] == Wait(Signaled(0)))
  {
    if AbortPending(acts, i) {
      var j :| 0 <= j < i && acts[j] == Push(End) && forall k :: j < k < i ==> acts[k] != Wait(Signaled(0));
      assert acts[i] == Wait(Signaled(0)) ==> 0 <= j < i < i + 1;
    }
    if Aborted(acts, i + 1) && !Aborted(acts, i) {
      var j, k :| 0 <= j < k < i + 1 && acts[j] == Push(End) && acts[k] == Wait(Signaled(0));
      assert k == i;
      assert forall l :: j < l < i ==> acts[l] != Wait(Signaled(0));
    }
  }

  lemma {:induction false} EndFollowsAbort(run: seq<State>, acts: seq<Action>, i: nat)
    requires IsRun(run, acts) && i < |run|
    ensures End in run[i].queue <==> AbortPending(acts, i)
    ensures run[i].end <==> Aborted(acts, i)
  {
    if i > 0 {
      EndFollowsAbort(run, acts, i - 1);
      AbortedNext(acts, i - 1);
    }
  }

  /** Over every run the loop is over exactly if its event has woken it up after an Abort. */
  lemma EndsIff(run: seq<State>, acts: seq<Action>, i: nat)
    requires IsRun(run, acts) && i < |run|
    ensures (forall result :: !Can(run[i], Wait(result)))
      <==> exists j, k :: 0 <= j < k < i && acts[j] == Push(End) && acts[k] == Wait(Signaled(0))
  {
    EndFollowsAbort(run, acts, i);
    assert !run[i].end ==> Can(run[i], Wait(Signaled(0)));
  }

  // ----- the window -----

  /** The slots of one wait stand for distinct entries of the list. */
  lemma SlotsDistinct(n: nat, offset: nat, i: nat, j: nat)
    requires i < j < Count(n)
    ensures Slot(n, offset, i) != Slot(n, offset, j)
  {
    Arithmetic.ModDistinct(offset + i, j - i, n);
  }

  /** The state after k time-outs in a row. */
  ghost function AfterTimeouts(s: State, k: nat): (s': State)
    requires !s.end && Possible(s, TimedOut)
    ensures s' == s.(offset := s'.offset)
  {
    if k == 0 then s else Do(AfterTimeouts(s, k - 1), Wait(TimedOut))
  }

  lemma {:induction false} OffsetAfter(s: State, k: nat, d: nat)
    requires !s.end && Possible(s, TimedOut)
    ensures (AfterTimeouts(s, k).offset + d) % |s.processes| == (s.offset + WINDOW * k + d) % |s.processes|
  {
    if k > 0 {
      var n, before := |s.processes|, AfterTimeouts(s, k - 1).offset;
      Arithmetic.ModAdd(before + WINDOW, d, n);
      OffsetAfter(s, k - 1, WINDOW + d);
    }
  }

  /** The number of windows that cover n processes: n / 63, rounded up. */
  function Rounds(n: nat): nat {
    (n + WINDOW - 1) / WINDOW
  }

  lemma RoundsAre(n: nat)
    ensures Rounds(n) == (n + 62) / 63 && Count(n) == if n < 63 then n else 63
  {
  }

  /** Fairness: wherever the window starts, every process is waited on within Rounds(n) windows. */
  lemma EveryProcessIsWaitedOn(s: State, p: nat) returns (k: nat, i: nat)
    requires !s.end && p < |s.processes|
    ensures k < Rounds(|s.processes|) && i < Count(|s.processes|)
    ensures Possible(s, TimedOut) || k == 0
    ensures Slot(|s.processes|, if k == 0 then s.offset else AfterTimeouts(s, k).offset, i) == p
  {
    var n := |s.processes|;
    var d := (p - s.offset) % n;
    k, i := d / WINDOW, d % WINDOW;
    Arithmetic.ModReturns(p - s.offset, s.offset, n);
    if n > WINDOW {
      OffsetAfter(s, k, i);
      assert s.offset + WINDOW * k + i == s.offset + d;
    }
  }

  // ----- the class -----

  class ProcessMonitor {
    const event: nat  // the handle of the monitor's own event
    var processes: seq<Process>
    var offset: nat
    var queue: seq<Task>
    var end: bool
    ghost var added: multiset<Process>
    var reported: seq<Process>

    ghost function Abstract(): State
      reads this
    {
      State(processes, offset, queue, end, added, reported)
    }

    constructor (event: nat)
      ensures Abstract() == START && this.event == event
    {
      this.event := event;
      processes, offset, queue, end, added, reported := [], 0, [], false, multiset{}, [];
    }

    method Add(pid: nat, handle: nat)
      modifies this
      ensures Abstract() == Do(old(Abstract()), Push(AddProcess(Process(pid, handle))))
    {
      queue := queue + [AddProcess(Process(pid, handle))];
      added := added + multiset{Process(pid, handle)};
    }

    method Abort()
      modifies this
      ensures Abstract() == Do(old(Abstract()), Push(End))
    {
      queue := queue + [End];
    }

    /** The array handed to the wait: the event, then one handle per slot of the window. */
    method Handles() returns (handles: array<nat>, count: nat)
      ensures fresh(handles) && handles.Length == MAXIMUM_WAIT_OBJECTS
      ensures count == Count(|processes|) && handles[0] == event
      ensures forall i :: 0 <= i < count ==> handles[i + 1] == processes[Slot(|processes|, offset, i)].handle
    {
      handles := new nat[MAXIMUM_WAIT_OBJECTS];
      handles[0] := event;
      count := if |processes| < MAXIMUM_WAIT_OBJECTS - 1 then |processes| else MAXIMUM_WAIT_OBJECTS - 1;
      for i := 0 to count
        invariant handles[0] == event
        invariant forall j :: 0 <= j < i ==> handles[j + 1] == processes[Slot(|processes|, offset, j)].handle
      {
        handles[i + 1] := processes[(offset + i) % |processes|].handle;
      }
    }

    /** What Run does with the answer of the wait on handles.  A report names the process whose
        handle stood in the signalled slot. */
    method Dispatch(handles: array<nat>, count: nat, result: WaitResult)
      requires !end && Possible(Abstract(), result)
      requires count == Count(|processes|) && handles.Length == MAXIMUM_WAIT_OBJECTS
      requires forall i :: 0 <= i < count ==> handles[i + 1] == processes[Slot(|processes|, offset, i)].handle
      modifies this
      ensures Abstract() == Do(old(Abstract()), Wait(result))
      ensures result.Signaled? && result.index > 0 ==>
        |reported| == |old(reported)| + 1 && reported[|old(reported)|].handle == handles[result.index]
    {
      if result.TimedOut? {
        offset := (offset + count) % |processes|;
      } else if result.index == 0 {
        ghost var before := Abstract();
        while queue != []
          invariant processes + Added(queue) == before.processes + Added(before.queue)
          invariant (end || End in queue) <==> End in before.queue
          invariant offset == before.offset && added == before.added && reported == before.reported
          decreases |queue|
        {
          var task := queue[0];
          queue := queue[1..];
          match task
          case AddProcess(p) => processes := processes + [p];
          case End => end := true;
        }
      } else {
        var i := (offset + result.index - 1) % |processes|;
        reported := reported + [processes[i]];
        processes := processes[i := processes[|processes| - 1]];
        processes := processes[..|processes| - 1];
      }
    }

    /** One pass through the loop of Run. */
    method Round(result: WaitResult)
      requires !end && Possible(Abstract(), result)
      modifies this
      ensures Abstract() == Do(old(Abstract()), Wait(result))
    {
      var handles, count := Handles();
      Dispatch(handles, count, result);
    }
  }
}
