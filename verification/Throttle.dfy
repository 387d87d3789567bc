/** The rate limiter (CobaltFusion/Throttle.cpp): any number of threads call it, and it lets a
    function run on an executor at most once per delta, without forgetting the last call.

    The two locked sections are functions on the three fields the mutex guards; the class runs
    them, and the transition system interleaves callers, the clock and the executor around them.
    A caller reads the clock before it takes the lock, so Call carries its own reading. */
module Throttling {
  import opened Options

  /** The fields guarded by m_mutex. */
  datatype Fields = Fields(pending: bool, lastCall: int, lastScheduling: int)

  /** The locked section of operator(): the new fields, and when to schedule PendingCall if at all. */
  function Enter(f: Fields, now: int, delta: int): (Fields, Option<int>) {
    if f.pending then (f.(lastCall := now), None)
    else (Fields(true, now, now), Some(now + delta))
  }

  /** The locked section of PendingCall, after the function has run. */
  function Leave(f: Fields, now: int, delta: int): (Fields, Option<int>) {
    if f.lastCall > f.lastScheduling then (f.(lastScheduling := now), Some(now + delta))
    else (f.(pending := false), None)
  }

  /** The throttle object; the caller passes on a returned time to the executor's CallAt. */
  class Throttle {
    const delta: int
    var callPending: bool
    var lastCallTime: int
    var lastSchedulingTime: int

    function Guarded(): Fields
      reads this
    {
      Fields(callPending, lastCallTime, lastSchedulingTime)
    }

    /** delta is in milliseconds, the quotient truncated: 1000ms / callsPerSecond. */
    constructor (callsPerSecond: int)
      requires callsPerSecond != 0
      ensures Guarded() == Fields(false, 0, 0)
      ensures delta > 0 <==> 1 <= callsPerSecond <= 1000
      ensures callsPerSecond > 0 ==> delta * callsPerSecond <= 1000 < (delta + 1) * callsPerSecond
      ensures callsPerSecond < 0 ==> delta * callsPerSecond <= 1000 < (delta - 1) * callsPerSecond
    {
      delta := 1000 / callsPerSecond;
      callPending, lastCallTime, lastSchedulingTime := false, 0, 0;
    }

    method Call(now: int) returns (scheduleAt: Option<int>)
      modifies this
      ensures (Guarded(), scheduleAt) == Enter(old(Guarded()), now, delta)
    {
      lastCallTime := now;
      scheduleAt := None;
      if !callPending {
        lastSchedulingTime := now;
        callPending := true;
        scheduleAt := Some(now + delta);
      }
    }

    method PendingCallReturned(now: int) returns (scheduleAt: Option<int>)
      modifies this
      ensures (Guarded(), scheduleAt) == Leave(old(Guarded()), now, delta)
    {
      scheduleAt := None;
      if lastCallTime > lastSchedulingTime {
        lastSchedulingTime := now;
        scheduleAt := Some(now + delta);
      } else {
        callPending := false;
      }
    }
  }

  // ----- the transition system -----

  datatype Event = Called(at: int) | Started(at: int)

  /** Where PendingCall is on the executor: running the function, past it, past its clock reading,
      or out of the lock and about to call CallAt. */
  datatype Phase = Idle | Running | Returned | Read(now: int) | Rescheduling(at: int)

  datatype State = State(
    clock: int,
    fields: Fields,
    posting: multiset<int>,    // callers that left the lock and are about to call CallAt
    scheduled: multiset<int>,  // PendingCall entries waiting in the executor
    phase: Phase,
    history: seq<Event>)       // calls, at the moment they hold the lock, and starts of the function

  datatype Action =
    | Tick(ns: nat)
    | Call(reading: int)
    | Post(at: int)
    | Begin(at: int)
    | Return
    | ReadClock
    | Lock
    | Reschedule

  ghost predicate Can(s: State, a: Action) {
    match a
    case Tick(_) => true
    case Call(reading) => reading <= s.clock
    case Post(at) => at in s.posting
    case Begin(at) => at in s.scheduled && at <= s.clock && s.phase == Idle
    case Return => s.phase == Running
    case ReadClock => s.phase == Returned
    case Lock => s.phase.Read?
    case Reschedule => s.phase.Rescheduling?
  }

  ghost function Do(delta: int, s: State, a: Action): State
    requires Can(s, a)
  {
    match a
    case Tick(ns) => s.(clock := s.clock + ns)
    case Call(reading) =>
      var (fields, at) := Enter(s.fields, reading, delta);
      s.(fields := fields, history := s.history + [Called(reading)],
         posting := if at.Some? then s.posting + multiset{at.value} else s.posting)
    case Post(at) => s.(posting := s.posting - multiset{at}, scheduled := s.scheduled + multiset{at})
    case Begin(at) =>
      s.(scheduled := s.scheduled - multiset{at}, phase := Running, history := s.history + [Started(s.clock)])
    case Return => s.(phase := Returned)
    case ReadClock => s.(phase := Read(s.clock))
    case Lock =>
      var (fields, at) := Leave(s.fields, s.phase.now, delta);
      s.(fields := fields, phase := if at.Some? then Rescheduling(at.value) else Idle)
    case Reschedule => s.(scheduled := s.scheduled + multiset{s.phase.at}, phase := Idle)
  }

  ghost predicate IsInit(s: State) {
    s.fields == Fields(false, 0, 0) && s.posting == s.scheduled == multiset{} && s.phase == Idle && s.history == []
      && s.clock >= 0
  }

  /** The times at which the function started. */
  ghost function Starts(history: seq<Event>): seq<int> {
    if history == [] then []
    else
      var last := history[|history| - 1];
      Starts(history[..|history| - 1]) + if last.Started? then [last.at] else []
  }

  /** The function starts at least delta after every earlier start. */
  ghost predicate Spaced(delta: int, starts: seq<int>) {
    forall i, j :: 0 <= i < j < |starts| ==> starts[j] - starts[i] >= delta
  }

  /** Every call so far has been followed by a start. */
  ghost predicate AllServed(history: seq<Event>) {
    forall i :: 0 <= i < |history| && history[i].Called? ==> exists j :: i < j < |history| && history[j].Started?
  }

  /** How many PendingCalls are about to be scheduled, scheduled or running. */
  ghost function Pending(s: State): nat {
    |s.posting| + |s.scheduled| + if s.phase == Idle then 0 else 1
  }

  /** The three promises. */
  ghost predicate Safe(delta: int, s: State) {
    && Pending(s) == (if s.fields.pending then 1 else 0)
    && Spaced(delta, Starts(s.history))
    && (!s.fields.pending ==> AllServed(s.history))
  }

  /** A PendingCall due at "at" cannot start less than delta after the last of starts. */
  predicate FarEnough(delta: int, clock: int, starts: seq<int>, at: int) {
    starts != [] ==> at >= starts[|starts| - 1] + delta || clock >= starts[|starts| - 1] + delta
  }

  /** Whether a call with this clock reading is in order.  Otherwise an idle throttle would schedule it less
      than delta after the last start, or one past its start would not see it as new. */
  ghost predicate InOrder(delta: int, s: State, reading: int) {
    && (!s.fields.pending ==> FarEnough(delta, s.clock, Starts(s.history), reading + delta))
    && (Past(s.phase) ==> reading > s.fields.lastScheduling)
  }

  /** The function has started and the lock that decides about another round is still to be taken. */
  predicate Past(p: Phase) {
    p == Running || p == Returned || p.Read?
  }

  ghost function LastStart(s: State): int
    requires Starts(s.history) != []
  {
    var starts := Starts(s.history);
    starts[|starts| - 1]
  }

  ghost predicate IsRun(delta: int, run: seq<State>, acts: seq<Action>) {
    && |run| == |acts| + 1
    && forall i :: 0 <= i < |acts| ==> Can(run[i], acts[i]) && run[i + 1] == Do(delta, run[i], acts[i])
  }

  ghost predicate CallsInOrder(delta: int, run: seq<State>, acts: seq<Action>)
    requires |run| == |acts| + 1
  {
    forall i :: 0 <= i < |acts| && acts[i].Call? ==> InOrder(delta, run[i], acts[i].reading)
  }

  // ----- the invariant -----

  ghost predicate Unserved(history: seq<Event>) {
    history != [] && history[|history| - 1].Called?
  }

  predicate Waiting(s: State, at: int) {
    at in s.posting || at in s.scheduled || s.phase == Rescheduling(at)
  }

  /** The invariant, with the starts so far and whether a call came after the last one as parameters. */
  ghost predicate Core(delta: int, s: State, starts: seq<int>, unserved: bool) {
    && Pending(s) == (if s.fields.pending then 1 else 0)
    && (!s.fields.pending ==> !unserved)
    && (starts != [] ==> starts[|starts| - 1] <= s.clock)
    && s.fields.lastScheduling <= s.clock
    && (forall at :: Waiting(s, at) ==> at == s.fields.lastScheduling + delta && FarEnough(delta, s.clock, starts, at))
    && (Past(s.phase) ==> starts != [] && s.fields.lastScheduling + delta <= starts[|starts| - 1])
    && (Past(s.phase) && unserved ==> s.fields.lastCall > s.fields.lastScheduling)
    && (s.phase.Read? ==> starts[|starts| - 1] <= s.phase.now <= s.clock)
  }

  ghost predicate Inv(delta: int, s: State) {
    Core(delta, s, Starts(s.history), Unserved(s.history)) && Spaced(delta, Starts(s.history))
  }

  lemma StartsAppend(history: seq<Event>, e: Event)
    ensures Starts(history + [e]) == Starts(history) + if e.Started? then [e.at] else []
  {
    assert (history + [e])[..|history|] == history;
  }

  /** With one PendingCall about, finding it in one place empties the others. */
  lemma OneToken(s: State, at: int)
    requires Pending(s) == 1
    ensures at in s.posting ==> s.posting == multiset{at} && s.scheduled == multiset{} && s.phase == Idle
    ensures at in s.scheduled ==> s.scheduled == multiset{at} && s.posting == multiset{} && s.phase == Idle
    ensures s.phase != Idle ==> s.posting == multiset{} && s.scheduled == multiset{}
  {
    if at in s.posting {
      assert |s.posting - multiset{at}| == |s.posting| - 1;
    }
    if at in s.scheduled {
      assert |s.scheduled - multiset{at}| == |s.scheduled| - 1;
    }
  }

  lemma CallKeeps(delta: int, s: State, reading: int, starts: seq<int>, unserved: bool)
    requires delta > 0 && Core(delta, s, starts, unserved) && reading <= s.clock
    requires !s.fields.pending ==> FarEnough(delta, s.clock, starts, reading + delta)
    requires Past(s.phase) ==> reading > s.fields.lastScheduling
    ensures Core(delta, Do(delta, s, Call(reading)), starts, true)
  {
    var s' := Do(delta, s, Call(reading));
    if !s.fields.pending {
      assert s.posting == s.scheduled == multiset{};
    }
    forall at | Waiting(s', at)
      ensures at == s'.fields.lastScheduling + delta && FarEnough(delta, s'.clock, starts, at)
    {
      if s.fields.pending {
        assert Waiting(s, at);
      }
    }
  }

  lemma BeginKeeps(delta: int, s: State, at: int, starts: seq<int>, unserved: bool)
    requires delta > 0 && Core(delta, s, starts, unserved) && Can(s, Begin(at))
    ensures Core(delta, Do(delta, s, Begin(at)), starts + [s.clock], false)
    ensures FarEnough(delta, s.clock, starts, at)
  {
    OneToken(s, at);
    assert Waiting(s, at);
  }

  lemma SpacedAppend(delta: int, starts: seq<int>, clock: int, at: int)
    requires Spaced(delta, starts) && at <= clock && FarEnough(delta, clock, starts, at) && delta > 0
    ensures Spaced(delta, starts + [clock])
  {
    var n := |starts|;
    forall i, j | 0 <= i < j <= n
      ensures (starts + [clock])[j] - (starts + [clock])[i] >= delta
    {
      if j == n && i < n - 1 {
        assert starts[n - 1] - starts[i] >= delta;
      }
    }
  }

  lemma PostKeeps(delta: int, s: State, at: int, starts: seq<int>, unserved: bool)
    requires delta > 0 && Core(delta, s, starts, unserved) && Can(s, Post(at))
    ensures Core(delta, Do(delta, s, Post(at)), starts, unserved)
  {
    OneToken(s, at);
    assert Waiting(s, at);
  }

  lemma ExecutorKeeps(delta: int, s: State, a: Action, starts: seq<int>, unserved: bool)
    requires delta > 0 && Core(delta, s, starts, unserved) && Can(s, a)
    requires a == Return || a == ReadClock || a == Lock || a == Reschedule
    ensures Core(delta, Do(delta, s, a), starts, unserved)
  {
    OneToken(s, 0);
    if a == Reschedule {
      assert Waiting(s, s.phase.at);
    }
  }

  lemma CallStep(delta: int, s: State, reading: int)
    requires delta > 0 && Inv(delta, s) && Can(s, Call(reading)) && InOrder(delta, s, reading)
    ensures Inv(delta, Do(delta, s, Call(reading)))
  {
    var starts, s' := Starts(s.history), Do(delta, s, Call(reading));
    CallKeeps(delta, s, reading, starts, Unserved(s.history));
    StartsAppend(s.history, Called(reading));
    assert s'.history == s.history + [Called(reading)];
    assert Starts(s'.history) == starts && Unserved(s'.history);
  }

  lemma BeginStep(delta: int, s: State, at: int)
    requires delta > 0 && Inv(delta, s) && Can(s, Begin(at))
    ensures Inv(delta, Do(delta, s, Begin(at)))
  {
    BeginKeeps(delta, s, at, Starts(s.history), Unserved(s.history));
    SpacedAppend(delta, Starts(s.history), s.clock, at);
    StartsAppend(s.history, Started(s.clock));
  }

  lemma StepKeeps(delta: int, s: State, a: Action)
    requires delta > 0 && Inv(delta, s) && Can(s, a)
    requires a.Call? ==> InOrder(delta, s, a.reading)
    ensures Inv(delta, Do(delta, s, a))
  {
    match a
    case Tick(ns) => assert forall at :: Waiting(Do(delta, s, a), at) ==> Waiting(s, at);
    case Call(reading) => CallStep(delta, s, reading);
    case Post(at) => PostKeeps(delta, s, at, Starts(s.history), Unserved(s.history));
    case Begin(at) => BeginStep(delta, s, at);
    case _ => ExecutorKeeps(delta, s, a, Starts(s.history), Unserved(s.history));
  }

  lemma {:induction false} RunKeeps(delta: int, run: seq<State>, acts: seq<Action>, i: nat)
    requires delta > 0 && IsRun(delta, run, acts) && IsInit(run[0]) && CallsInOrder(delta, run, acts) && i < |run|
    ensures Inv(delta, run[i])
  {
    if i > 0 {
      RunKeeps(delta, run, acts, i - 1);
      StepKeeps(delta, run[i - 1], acts[i - 1]);
    }
  }

  lemma {:induction false} ServedBy(history: seq<Event>)
    requires !Unserved(history)
    ensures AllServed(history)
  {
    if history != [] {
      assert history[|history| - 1].Started?;
    }
  }

  // ----- the promises, over every run -----

  /** In every interleaving whose calls come in order: the flag marks exactly one PendingCall, starts
      are at least delta apart, and an idle throttle owes no call a start. */
  lemma RunsAreSafe(delta: int, run: seq<State>, acts: seq<Action>, i: nat)
    requires delta > 0 && IsRun(delta, run, acts) && IsInit(run[0]) && CallsInOrder(delta, run, acts) && i < |run|
    ensures Safe(delta, run[i])
  {
    RunKeeps(delta, run, acts, i);
    if !run[i].fields.pending {
      ServedBy(run[i].history);
    }
  }

  /** A caller that reads the clock and takes the lock in one step is always in order. */
  lemma AtomicCallInOrder(delta: int, s: State)
    requires delta > 0 && Inv(delta, s)
    ensures InOrder(delta, s, s.clock)
  {
  }

  lemma {:induction false} AtomicRunKeeps(delta: int, run: seq<State>, acts: seq<Action>, i: nat)
    requires delta > 0 && IsRun(delta, run, acts) && IsInit(run[0]) && i < |run|
    requires forall j :: 0 <= j < |acts| && acts[j].Call? ==> acts[j].reading == run[j].clock
    ensures Inv(delta, run[i])
  {
    if i > 0 {
      AtomicRunKeeps(delta, run, acts, i - 1);
      AtomicCallInOrder(delta, run[i - 1]);
      StepKeeps(delta, run[i - 1], acts[i - 1]);
    }
  }

  /** So every interleaving of such callers with the executor keeps the promises. */
  lemma AtomicRunsAreSafe(delta: int, run: seq<State>, acts: seq<Action>, i: nat)
    requires delta > 0 && IsRun(delta, run, acts) && IsInit(run[0]) && i < |run|
    requires forall j :: 0 <= j < |acts| && acts[j].Call? ==> acts[j].reading == run[j].clock
    ensures Safe(delta, run[i])
  {
    AtomicRunKeeps(delta, run, acts, i);
    if !run[i].fields.pending {
      ServedBy(run[i].history);
    }
  }

  /** Any window of length t holds at most t / delta + 1 starts. */
  lemma {:induction false} RateLimit(delta: int, starts: seq<int>, i: nat, j: nat, t: nat)
    requires delta > 0 && Spaced(delta, starts)
    requires i <= j < |starts| && starts[j] - starts[i] <= t
    ensures j - i + 1 <= t / delta + 1
  {
    SpanOfStarts(delta, starts, i, j);
    var q, n := t / delta, j - i;
    assert t == q * delta + t % delta;
    if n > q {
      Monotone(q + 1, n, delta);
    }
  }

  lemma Monotone(a: int, b: int, m: int)
    requires a <= b && m >= 0
    ensures a * m <= b * m
  {
  }

  lemma {:induction false} SpanOfStarts(delta: int, starts: seq<int>, i: nat, j: nat)
    requires Spaced(delta, starts) && i <= j < |starts|
    ensures starts[j] - starts[i] >= (j - i) * delta
    decreases j - i
  {
    if i < j {
      SpanOfStarts(delta, starts, i, j - 1);
      assert starts[j] - starts[j - 1] >= delta;
      assert (j - i) * delta == (j - 1 - i) * delta + delta;
    }
  }

  /** The call, then other steps only. */
  ghost predicate Continues(delta: int, s: State, reading: int, run: seq<State>, acts: seq<Action>) {
    && IsRun(delta, run, acts) && run[0] == s
    && |acts| > 0 && acts[0] == Call(reading)
    && forall i :: 1 <= i < |acts| ==> !acts[i].Call?
  }

  /** A call out of order can be continued, without a further call, to a state that breaks a promise;
      Inv holds wherever calls in order have led. */
  lemma OutOfOrderBreaks(delta: int, s: State, reading: int) returns (run: seq<State>, acts: seq<Action>)
    requires delta > 0 && Inv(delta, s) && Can(s, Call(reading)) && !InOrder(delta, s, reading)
    ensures Continues(delta, s, reading, run, acts) && !Safe(delta, run[|acts|])
  {
    if s.fields.pending {
      run, acts := LateForItsRound(delta, s, reading);
    } else {
      run, acts := TooSoonAfterTheLast(delta, s, reading);
    }
  }

  /** Steps other than calls, from anywhere. */
  ghost predicate CallFree(delta: int, s: State, run: seq<State>, acts: seq<Action>) {
    IsRun(delta, run, acts) && run[0] == s && forall i :: 0 <= i < |acts| ==> !acts[i].Call?
  }

  /** However the run goes on from any of its states without further calls, the promises are kept. */
  ghost predicate SafeOnward(delta: int, run: seq<State>) {
    forall i, on, more :: 0 <= i < |run| && CallFree(delta, run[i], on, more) ==> Safe(delta, on[|more|])
  }

  lemma {:induction false} CallFreeKeeps(delta: int, s: State, run: seq<State>, acts: seq<Action>, i: nat)
    requires delta > 0 && Inv(delta, s) && CallFree(delta, s, run, acts) && i < |run|
    ensures Inv(delta, run[i])
  {
    if i > 0 {
      CallFreeKeeps(delta, s, run, acts, i - 1);
      StepKeeps(delta, run[i - 1], acts[i - 1]);
    }
  }

  lemma InvIsSafe(delta: int, s: State)
    requires Inv(delta, s)
    ensures Safe(delta, s)
  {
    if !s.fields.pending {
      ServedBy(s.history);
    }
  }

  /** The order of calls is exactly what is needed: over every run, all calls are in order if and only
      if no state of the run can be continued without further calls to one that breaks a promise. */
  lemma CallsInOrderIff(delta: int, run: seq<State>, acts: seq<Action>)
    requires delta > 0 && IsRun(delta, run, acts) && IsInit(run[0])
    ensures CallsInOrder(delta, run, acts) <==> SafeOnward(delta, run)
  {
    if CallsInOrder(delta, run, acts) {
      forall i, on, more | 0 <= i < |run| && CallFree(delta, run[i], on, more)
        ensures Safe(delta, on[|more|])
      {
        RunKeeps(delta, run, acts, i);
        CallFreeKeeps(delta, run[i], on, more, |more|);
        InvIsSafe(delta, on[|more|]);
      }
    } else {
      var j := FirstOutOfOrder(delta, run, acts);
      RunKeeps(delta, run[..j + 1], acts[..j], j);
      var on, more := OutOfOrderBreaks(delta, run[j], acts[j].reading);
      assert CallFree(delta, run[j + 1], on[1..], more[1..]) && on[1..][|more[1..]|] == on[|more|];
    }
  }

  /** The first call out of order; up to there the run is one of calls in order. */
  lemma FirstOutOfOrder(delta: int, run: seq<State>, acts: seq<Action>) returns (j: nat)
    requires IsRun(delta, run, acts) && !CallsInOrder(delta, run, acts)
    ensures j < |acts| && acts[j].Call? && !InOrder(delta, run[j], acts[j].reading)
    ensures IsRun(delta, run[..j + 1], acts[..j]) && CallsInOrder(delta, run[..j + 1], acts[..j])
  {
    j := 0;
    while !(acts[j].Call? && !InOrder(delta, run[j], acts[j].reading))
      invariant j < |acts|
      invariant forall i :: 0 <= i < j && acts[i].Call? ==> InOrder(delta, run[i], acts[i].reading)
      decreases |acts| - j
    {
      j := j + 1;
    }
  }

  // ----- promptness -----

  lemma Before(delta: int, s: State, a: Action, run: seq<State>, acts: seq<Action>)
      returns (run': seq<State>, acts': seq<Action>)
    requires Can(s, a) && !a.Call? && CallFree(delta, Do(delta, s, a), run, acts)
    ensures CallFree(delta, s, run', acts') && run'[|acts'|] == run[|acts|]
  {
    run', acts' := [s] + run, [a] + acts;
    forall i | 0 <= i < |acts'|
      ensures Can(run'[i], acts'[i]) && run'[i + 1] == Do(delta, run'[i], acts'[i]) && !acts'[i].Call?
    {
      if i > 0 {
        assert run'[i] == run[i - 1] && run'[i + 1] == run[i] && acts'[i] == acts[i - 1];
      }
    }
  }

  /** The function starts as soon as a PendingCall in the executor is due. */
  lemma ScheduledStarts(delta: int, s: State, at: int) returns (run: seq<State>, acts: seq<Action>)
    requires at in s.scheduled && s.phase == Idle
    ensures CallFree(delta, s, run, acts)
    ensures var time := if at > s.clock then at else s.clock;
      run[|acts|].clock == time && run[|acts|].history == s.history + [Started(time)]
  {
    var wait := if at > s.clock then at - s.clock else 0;
    var t := Do(delta, s, Tick(wait));
    run, acts := [Do(delta, t, Begin(at))], [];
    run, acts := Before(delta, t, Begin(at), run, acts);
    run, acts := Before(delta, s, Tick(wait), run, acts);
  }

  lemma WaitingStarts(delta: int, s: State, at: int) returns (run: seq<State>, acts: seq<Action>)
    requires Waiting(s, at) && Pending(s) == 1
    ensures CallFree(delta, s, run, acts)
    ensures var time := if at > s.clock then at else s.clock;
      run[|acts|].clock == time && run[|acts|].history == s.history + [Started(time)]
  {
    OneToken(s, at);
    if at in s.posting {
      run, acts := ScheduledStarts(delta, Do(delta, s, Post(at)), at);
      run, acts := Before(delta, s, Post(at), run, acts);
    } else if at in s.scheduled {
      run, acts := ScheduledStarts(delta, s, at);
    } else {
      run, acts := ScheduledStarts(delta, Do(delta, s, Reschedule), at);
      run, acts := Before(delta, s, Reschedule, run, acts);
    }
  }

  /** A function that has started and has a call to answer for goes round again. */
  lemma PastStarts(delta: int, s: State) returns (run: seq<State>, acts: seq<Action>)
    requires Past(s.phase) && s.fields.lastCall > s.fields.lastScheduling && Pending(s) == 1 && delta > 0
    requires s.phase.Read? ==> s.phase.now <= s.clock
    ensures CallFree(delta, s, run, acts)
    ensures s.clock <= run[|acts|].clock <= s.clock + delta
    ensures run[|acts|].history == s.history + [Started(run[|acts|].clock)]
    decreases if s.phase.Running? then 2 else if s.phase.Returned? then 1 else 0
  {
    var a := if s.phase.Running? then Return else if s.phase.Returned? then ReadClock else Lock;
    var t := Do(delta, s, a);
    if a == Lock {
      run, acts := WaitingStarts(delta, t, s.phase.now + delta);
    } else {
      run, acts := PastStarts(delta, t);
    }
    run, acts := Before(delta, s, a, run, acts);
  }

  lemma NoneIn(m: multiset<int>)
    requires forall y :: y !in m
    ensures m == multiset{}
  {
    assert forall y :: m[y] == 0;
    assert m == multiset{};
  }

  lemma SomeOf(m: multiset<int>) returns (x: int)
    requires |m| > 0
    ensures x in m
  {
    if forall y :: y !in m {
      NoneIn(m);
    }
    x :| x in m;
  }

  lemma SomeoneWaits(s: State) returns (at: int)
    requires Pending(s) == 1 && !Past(s.phase)
    ensures Waiting(s, at)
  {
    if s.phase.Rescheduling? {
      at := s.phase.at;
    } else if |s.posting| > 0 {
      at := SomeOf(s.posting);
    } else {
      at := SomeOf(s.scheduled);
    }
  }

  /** In every run of calls in order, a call that has no start after it yet can be followed by one no
      later than delta from now, with nothing but the executor going on; and if the function is not
      running, exactly delta after the last scheduling, or at once if that has passed. */
  lemma ServedWithinDelta(delta: int, run: seq<State>, acts: seq<Action>) returns (on: seq<State>, more: seq<Action>)
    requires delta > 0 && IsRun(delta, run, acts) && IsInit(run[0]) && CallsInOrder(delta, run, acts)
    requires Unserved(run[|acts|].history)
    ensures CallFree(delta, run[|acts|], on, more)
    ensures var s, t := run[|acts|], on[|more|];
      && t.clock <= s.clock + delta && t.history == s.history + [Started(t.clock)]
      && (!Past(s.phase) ==>
            var at := s.fields.lastScheduling + delta; t.clock == if at > s.clock then at else s.clock)
  {
    var s := run[|acts|];
    RunKeeps(delta, run, acts, |acts|);
    if Past(s.phase) {
      on, more := PastStarts(delta, s);
    } else {
      var at := SomeoneWaits(s);
      on, more := WaitingStarts(delta, s, at);
    }
  }

  lemma StartWith(delta: int, s: State, reading: int) returns (run: seq<State>, acts: seq<Action>)
    requires Can(s, Call(reading))
    ensures Continues(delta, s, reading, run, acts) && run[|acts|] == Do(delta, s, Call(reading))
  {
    run, acts := [s, Do(delta, s, Call(reading))], [Call(reading)];
  }

  lemma Extend(delta: int, s: State, reading: int, run: seq<State>, acts: seq<Action>, a: Action)
      returns (run': seq<State>, acts': seq<Action>)
    requires Continues(delta, s, reading, run, acts) && !a.Call? && Can(run[|acts|], a)
    ensures Continues(delta, s, reading, run', acts') && run'[|acts'|] == Do(delta, run[|acts|], a)
  {
    run', acts' := run + [Do(delta, run[|acts|], a)], acts + [a];
  }

  lemma LateForItsRound(delta: int, s: State, reading: int) returns (run: seq<State>, acts: seq<Action>)
    requires delta > 0 && Inv(delta, s) && reading <= s.clock
    requires s.fields.pending && Past(s.phase) && reading <= s.fields.lastScheduling
    ensures Continues(delta, s, reading, run, acts) && !Safe(delta, run[|acts|])
  {
    run, acts := StartWith(delta, s, reading);
    if s.phase == Running {
      run, acts := Extend(delta, s, reading, run, acts, Return);
    }
    if !s.phase.Read? {
      run, acts := Extend(delta, s, reading, run, acts, ReadClock);
    }
    run, acts := Extend(delta, s, reading, run, acts, Lock);
    var history := run[|acts|].history;
    assert history == s.history + [Called(reading)];
    assert history[|s.history|].Called?;
  }

  lemma TooSoonAfterTheLast(delta: int, s: State, reading: int) returns (run: seq<State>, acts: seq<Action>)
    requires delta > 0 && Inv(delta, s) && !s.fields.pending && Starts(s.history) != []
    requires reading < LastStart(s) && reading <= s.clock < LastStart(s) + delta
    ensures Continues(delta, s, reading, run, acts) && !Safe(delta, run[|acts|])
  {
    var at := reading + delta;
    run, acts := StartWith(delta, s, reading);
    run, acts := Extend(delta, s, reading, run, acts, Post(at));
    run, acts := Extend(delta, s, reading, run, acts, Tick(if at > s.clock then at - s.clock else 0));
    var time := run[|acts|].clock;
    run, acts := Extend(delta, s, reading, run, acts, Begin(at));
    TwoStartsTooClose(delta, s, reading, time);
    assert run[|acts|].history == s.history + [Called(reading)] + [Started(time)];
  }

  lemma TwoStartsTooClose(delta: int, s: State, reading: int, time: int)
    requires Starts(s.history) != [] && time < LastStart(s) + delta
    ensures !Spaced(delta, Starts(s.history + [Called(reading)] + [Started(time)]))
  {
    StartsAppend(s.history, Called(reading));
    StartsAppend(s.history + [Called(reading)], Started(time));
    var starts := Starts(s.history + [Called(reading)] + [Started(time)]);
    assert starts[|starts| - 1] - starts[|starts| - 2] < delta;
  }
}
