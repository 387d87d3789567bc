/** The queue-driven executor (TimedExecutor and Executor in CobaltFusion/Executor.cpp): clients on
    any thread post tasks to a FIFO queue, one executor thread takes them and runs timed calls.

    Each Action is one atomic step of a client, of the clock or of the executor thread, so a run is
    any interleaving.  The properties are stated in terms of what a client asked for, over every run. */
module TimedExecution {
  import opened TimedCallList
  import GuiExecution

  datatype Task =
    | InsertAt(id: nat, at: int)
    | InsertEvery(id: nat, interval: nat)
    | Remove(id: nat)
    | Other  // a client's own function

  /** What the client passed to CallAt, or to CallEvery and when. */
  datatype Request = At(at: int) | Every(interval: nat, asked: int)

  /** Where the executor thread is: between RunOne calls, past a wait that timed out, in a callback. */
  datatype Phase = Idle | Popping | Busy

  datatype Start = Start(id: nat, time: int)

  datatype State = State(
    clock: int,
    lastId: nat,                // GetCallId's counter
    reserved: set<nat>,         // ids drawn by a client that has not posted its insert yet
    asked: map<nat, Request>,   // calls whose CallAt or CallEvery has posted its insert
    queue: seq<Task>,
    timed: seq<CallData>,       // the TimedCalls vector
    phase: Phase,
    starts: seq<Start>)         // every timed callback started so far

  datatype Action =
    | Tick(ns: nat)
    | Reserve
    | PostAt(id: nat, at: int)
    | PostEvery(id: nat, interval: nat)
    | PostCancel(id: nat)       // Cancel on another thread
    | PostOther
    | TakeTask                  // Executor::RunOne
    | WaitTimedOut              // WaitForNotEmpty returned false
    | PopAndStart
    | CancelHere(id: nat)       // Cancel on the executor thread, inside a callback
    | Finish                    // the callback returns

  ghost function Init(clock: int): State {
    State(clock, 0, {}, map[], [], [], Idle, [])
  }

  predicate Inserts(t: Task, id: nat) {
    (t.InsertAt? || t.InsertEvery?) && t.id == id
  }

  ghost predicate Queued(queue: seq<Task>, id: nat) {
    exists t :: t in queue && Inserts(t, id)
  }

  ghost predicate Can(s: State, a: Action) {
    match a
    case Tick(_) => true
    case Reserve => true
    case PostAt(id, _) => id in s.reserved
    case PostEvery(id, interval) => id in s.reserved && interval > 0
    case PostCancel(id) => id in s.asked
    case PostOther => true
    case TakeTask => s.phase == Idle && s.queue != []
    case WaitTimedOut => s.phase == Idle && s.queue == [] && s.timed != [] && s.timed[|s.timed| - 1].at <= s.clock
    case PopAndStart => s.phase == Popping && s.timed != []
    case CancelHere(id) => s.phase == Busy && id in s.asked
    case Finish => s.phase == Busy
  }

  /** The effect of taking the head of the queue. */
  ghost function Take(s: State): State
    requires s.queue != []
  {
    var rest := s.(queue := s.queue[1..]);
    match s.queue[0]
    case InsertAt(id, at) => rest.(timed := Place(s.timed, CallData(id, at, 0)))
    case InsertEvery(id, interval) => rest.(timed := Place(s.timed, CallData(id, s.clock + interval, interval)))
    case Remove(id) => rest.(timed := Without(s.timed, id))
    case Other => rest.(phase := Busy)
  }

  ghost function Do(s: State, a: Action): State
    requires Can(s, a)
  {
    match a
    case Tick(ns) => s.(clock := s.clock + ns)
    case Reserve => s.(lastId := s.lastId + 1, reserved := s.reserved + {s.lastId + 1})
    case PostAt(id, at) =>
      s.(reserved := s.reserved - {id}, asked := s.asked[id := At(at)], queue := s.queue + [InsertAt(id, at)])
    case PostEvery(id, interval) =>
      s.(reserved := s.reserved - {id}, asked := s.asked[id := Every(interval, s.clock)],
         queue := s.queue + [InsertEvery(id, interval)])
    case PostCancel(id) => s.(queue := s.queue + [Remove(id)])
    case PostOther => s.(queue := s.queue + [Other])
    case TakeTask => Take(s)
    case WaitTimedOut => s.(phase := Popping)
    case PopAndStart =>
      s.(timed := AfterPop(s.timed), phase := Busy, starts := s.starts + [Start(s.timed[|s.timed| - 1].id, s.clock)])
    case CancelHere(id) => s.(timed := Without(s.timed, id))
    case Finish => s.(phase := Idle)
  }

  /** A run: the states visited by some interleaving of enabled actions. */
  ghost predicate IsRun(run: seq<State>, acts: seq<Action>) {
    && |run| == |acts| + 1
    && run[0] == Init(run[0].clock)
    && forall i :: 0 <= i < |acts| ==> Can(run[i], acts[i]) && run[i + 1] == Do(run[i], acts[i])
  }

  function CountStarts(starts: seq<Start>, id: nat): nat {
    if starts == [] then 0
    else CountStarts(starts[..|starts| - 1], id) + if starts[|starts| - 1].id == id then 1 else 0
  }

  /** The earliest time at which the client lets the n-th start (from 0) of its call happen. */
  function Earliest(r: Request, n: nat): int {
    match r
    case At(at) => at
    case Every(interval, asked) => asked + (n + 1) * interval
  }

  // ----- the invariant -----

  ghost predicate Keeps(r: Request, c: CallData, n: nat) {
    match r
    case At(at) => c.interval == 0 && n == 0 && c.at == at
    case Every(interval, _) => c.interval == interval && interval > 0 && c.at >= Earliest(r, n)
  }

  ghost predicate TimedOk(s: State) {
    && Descending(s.timed) && UniqueIds(s.timed)
    && forall c :: c in s.timed ==> c.id in s.asked && Keeps(s.asked[c.id], c, CountStarts(s.starts, c.id))
  }

  ghost predicate TaskOk(s: State, t: Task) {
    match t
    case InsertAt(id, at) =>
      id in s.asked && s.asked[id] == At(at) && CountStarts(s.starts, id) == 0 && !HasId(s.timed, id)
    case InsertEvery(id, interval) =>
      && id in s.asked && s.asked[id].Every? && s.asked[id].interval == interval > 0 && s.asked[id].asked <= s.clock
      && CountStarts(s.starts, id) == 0 && !HasId(s.timed, id)
    case Remove(id) => id in s.asked
    case Other => true
  }

  /** An insert is queued once, and no earlier removal of the same call is waiting. */
  ghost predicate QueueOrder(queue: seq<Task>) {
    forall i, j :: 0 <= i < j < |queue| && (queue[j].InsertAt? || queue[j].InsertEvery?) ==>
      !Inserts(queue[i], queue[j].id) && queue[i] != Remove(queue[j].id)
  }

  ghost predicate StartsOk(s: State) {
    forall k :: 0 <= k < |s.starts| ==> StartOk(s.asked, s.starts, k)
  }

  ghost predicate StartOk(asked: map<nat, Request>, starts: seq<Start>, k: nat)
    requires k < |starts|
  {
    var id, n := starts[k].id, CountStarts(starts[..k], starts[k].id);
    id in asked && starts[k].time >= Earliest(asked[id], n) && (asked[id].At? ==> n == 0)
  }

  ghost predicate IdsOk(s: State) {
    && (forall id :: id in s.reserved ==> id <= s.lastId && id !in s.asked)
    && (forall id :: id in s.asked ==> id <= s.lastId)
  }

  ghost predicate Inv(s: State) {
    && TimedOk(s) && QueueOrder(s.queue) && StartsOk(s) && IdsOk(s)
    && (forall t :: t in s.queue ==> TaskOk(s, t))
    && (s.phase == Popping ==> s.timed != [] && s.timed[|s.timed| - 1].at <= s.clock)
  }

  lemma TickKeeps(s: State, ns: nat)
    requires Inv(s)
    ensures Inv(s.(clock := s.clock + ns))
  {
  }

  lemma ReserveKeeps(s: State)
    requires Inv(s)
    ensures Inv(Do(s, Reserve))
  {
  }

  /** Posting an insert for a freshly drawn id. */
  lemma PostKeeps(s: State, id: nat, r: Request, t: Task)
    requires Inv(s) && id in s.reserved
    requires match r case At(at) => t == InsertAt(id, at)
                     case Every(interval, asked) => t == InsertEvery(id, interval) && interval > 0 && asked == s.clock
    ensures Inv(s.(reserved := s.reserved - {id}, asked := s.asked[id := r], queue := s.queue + [t]))
  {
    var s' := s.(reserved := s.reserved - {id}, asked := s.asked[id := r], queue := s.queue + [t]);
    NeverStarted(s, id);
    forall k | 0 <= k < |s.starts|
      ensures StartOk(s'.asked, s'.starts, k)
    {
      assert StartOk(s.asked, s.starts, k);
    }
    assert !HasId(s.timed, id);
    forall i, j | 0 <= i < j < |s'.queue| && (s'.queue[j].InsertAt? || s'.queue[j].InsertEvery?)
      ensures !Inserts(s'.queue[i], s'.queue[j].id) && s'.queue[i] != Remove(s'.queue[j].id)
    {
      assert s.queue[i] in s.queue && TaskOk(s, s.queue[i]);
    }
  }

  lemma {:induction false} NeverStarted(s: State, id: nat)
    requires StartsOk(s) && id !in s.asked
    ensures CountStarts(s.starts, id) == 0
    decreases |s.starts|
  {
    if s.starts != [] {
      var n := |s.starts| - 1;
      assert StartOk(s.asked, s.starts, n);
      var s' := s.(starts := s.starts[..n]);
      forall k | 0 <= k < n
        ensures StartOk(s'.asked, s'.starts, k)
      {
        assert StartOk(s.asked, s.starts, k);
        assert s'.starts[..k] == s.starts[..k];
      }
      NeverStarted(s', id);
    }
  }

  lemma EnqueueKeeps(s: State, t: Task)
    requires Inv(s) && (t == Other || (t.Remove? && t.id in s.asked))
    ensures Inv(s.(queue := s.queue + [t]))
  {
    var q := s.queue + [t];
    forall i, j | 0 <= i < j < |q| && (q[j].InsertAt? || q[j].InsertEvery?)
      ensures !Inserts(q[i], q[j].id) && q[i] != Remove(q[j].id)
    {
      assert q[i] == s.queue[i] && q[j] == s.queue[j];
    }
  }

  /** Taking entries out of the vector. */
  lemma WithoutKeepsInv(s: State, id: nat)
    requires Inv(s) && s.phase != Popping
    ensures Inv(s.(timed := Without(s.timed, id)))
  {
    WithoutDescending(s.timed, id);
    WithoutUnique(s.timed, id);
    WithoutElements(s.timed, id);
  }

  lemma DequeueKeeps(s: State)
    requires Inv(s) && s.queue != []
    ensures Inv(s.(queue := s.queue[1..]))
  {
    var s' := s.(queue := s.queue[1..]);
    assert forall i :: 0 <= i < |s'.queue| ==> s'.queue[i] == s.queue[i + 1];
    forall t | t in s'.queue
      ensures TaskOk(s', t)
    {
      assert t in s.queue && TaskOk(s, t);
    }
  }

  /** The insert task of a call whose insert is no longer queued. */
  lemma PlaceKeepsInv(s: State, c: CallData)
    requires Inv(s) && s.phase != Popping && !HasId(s.timed, c.id) && !Queued(s.queue, c.id)
    requires c.id in s.asked && Keeps(s.asked[c.id], c, CountStarts(s.starts, c.id))
    ensures Inv(s.(timed := Place(s.timed, c)))
  {
    PlaceKeeps(s.timed, c);
    PlaceUnique(s.timed, c);
    PlaceElements(s.timed, c);
    var s' := s.(timed := Place(s.timed, c));
    forall t | t in s'.queue
      ensures TaskOk(s', t)
    {
      assert TaskOk(s, t) && !Inserts(t, c.id);
    }
  }

  lemma HeadInsertLeaves(s: State, id: nat)
    requires Inv(s) && s.queue != [] && Inserts(s.queue[0], id)
    ensures !Queued(s.queue[1..], id)
  {
    forall t | t in s.queue[1..]
      ensures !Inserts(t, id)
    {
      var j :| 0 <= j < |s.queue| - 1 && s.queue[1..][j] == t;
      assert s.queue[j + 1] == t;
    }
  }

  lemma TakeInsertKeeps(s: State, c: CallData)
    requires Inv(s) && s.phase == Idle && s.queue != []
    requires (s.queue[0] == InsertAt(c.id, c.at) && c.interval == 0)
      || (s.queue[0] == InsertEvery(c.id, c.interval) && c.at == s.clock + c.interval)
    ensures Inv(s.(queue := s.queue[1..], timed := Place(s.timed, c)))
  {
    assert TaskOk(s, s.queue[0]);
    DequeueKeeps(s);
    HeadInsertLeaves(s, c.id);
    PlaceKeepsInv(s.(queue := s.queue[1..]), c);
  }

  lemma TakeRemoveKeeps(s: State)
    requires Inv(s) && s.phase == Idle && s.queue != [] && s.queue[0].Remove?
    ensures Inv(s.(queue := s.queue[1..], timed := Without(s.timed, s.queue[0].id)))
  {
    DequeueKeeps(s);
    WithoutKeepsInv(s.(queue := s.queue[1..]), s.queue[0].id);
  }

  lemma TakeOtherKeeps(s: State)
    requires Inv(s) && s.phase == Idle && s.queue != []
    ensures Inv(s.(queue := s.queue[1..], phase := Busy))
  {
    DequeueKeeps(s);
  }

  lemma TakeKeeps(s: State)
    requires Inv(s) && s.phase == Idle && s.queue != []
    ensures Inv(Take(s))
  {
    match s.queue[0]
    case InsertAt(id, at) => TakeInsertKeeps(s, CallData(id, at, 0));
    case InsertEvery(id, interval) => TakeInsertKeeps(s, CallData(id, s.clock + interval, interval));
    case Remove(id) => TakeRemoveKeeps(s);
    case Other => TakeOtherKeeps(s);
  }

  /** Starting the call at the back: it keeps its own schedule and every other call keeps its count. */
  lemma StartKeeps(s: State)
    requires Inv(s) && s.phase == Popping
    ensures Inv(Do(s, PopAndStart))
  {
    var s' := Do(s, PopAndStart);
    var c := s.timed[|s.timed| - 1];
    assert c in s.timed;
    AfterPopDescending(s.timed);
    AfterPopUnique(s.timed);
    AfterPopElements(s.timed);
    var n := |s.starts|;
    assert s'.starts[..n] == s.starts;
    forall k | 0 <= k < |s'.starts|
      ensures StartOk(s'.asked, s'.starts, k)
    {
      if k < n {
        assert StartOk(s.asked, s.starts, k);
        assert s'.starts[..k] == s.starts[..k];
      }
    }
    PopSchedules(s);
  }

  lemma PopSchedules(s: State)
    requires Inv(s) && s.phase == Popping
    ensures var s' := Do(s, PopAndStart);
      && (forall x :: x in s'.timed ==> x.id in s'.asked && Keeps(s'.asked[x.id], x, CountStarts(s'.starts, x.id)))
      && (forall t :: t in s'.queue ==> TaskOk(s', t))
  {
    var s' := Do(s, PopAndStart);
    var c := s.timed[|s.timed| - 1];
    assert c in s.timed;
    AfterPopUnique(s.timed);
    AfterPopElements(s.timed);
    assert s'.starts[..|s.starts|] == s.starts;
    forall x | x in s'.timed
      ensures x.id in s'.asked && Keeps(s'.asked[x.id], x, CountStarts(s'.starts, x.id))
    {
      if x in s.timed[..|s.timed| - 1] {
        assert x.id != c.id;
      } else {
        assert c.interval != 0;
      }
    }
    forall t | t in s'.queue
      ensures TaskOk(s', t)
    {
      assert TaskOk(s, t);
    }
  }

  lemma StepKeeps(s: State, a: Action)
    requires Inv(s) && Can(s, a)
    ensures Inv(Do(s, a))
  {
    match a
    case Tick(ns) => TickKeeps(s, ns);
    case Reserve => ReserveKeeps(s);
    case PostAt(id, at) => PostKeeps(s, id, At(at), InsertAt(id, at));
    case PostEvery(id, interval) => PostKeeps(s, id, Every(interval, s.clock), InsertEvery(id, interval));
    case PostCancel(id) => EnqueueKeeps(s, Remove(id));
    case PostOther => EnqueueKeeps(s, Other);
    case TakeTask => TakeKeeps(s);
    case WaitTimedOut =>
    case PopAndStart => StartKeeps(s);
    case CancelHere(id) => WithoutKeepsInv(s, id);
    case Finish =>
  }

  lemma {:induction false} RunKeeps(run: seq<State>, acts: seq<Action>, i: nat)
    requires IsRun(run, acts) && i < |run|
    ensures Inv(run[i])
  {
    if i > 0 {
      RunKeeps(run, acts, i - 1);
      StepKeeps(run[i - 1], acts[i - 1]);
    }
  }

  // ----- what a client can rely on -----

  /** In every run a one-shot call starts at most once and never before its deadline, and the n-th
      start of a periodic call never happens before its request time plus n intervals. */
  lemma NoEarlyStart(run: seq<State>, acts: seq<Action>, i: nat, k: nat)
    requires IsRun(run, acts) && i < |run| && k < |run[i].starts|
    ensures var s := run[i];
      var id, n := s.starts[k].id, CountStarts(s.starts[..k], s.starts[k].id);
      && id in s.asked
      && s.starts[k].time >= Earliest(s.asked[id], n)
      && (s.asked[id].At? ==> n == 0)
  {
    RunKeeps(run, acts, i);
    assert StartOk(run[i].asked, run[i].starts, k);
  }

  // ----- when a scheduled call is due -----

  /** The call's insert has been taken at time taken: after n starts its entry, if it has one, is due
      at its deadline, or n + 1 intervals after taken. */
  ghost predicate OnTime(s: State, id: nat, insert: Task, taken: int) {
    && id in s.asked && !Queued(s.queue, id)
    && Inserts(insert, id) && (insert.InsertEvery? ==> insert.interval > 0)
    && forall c :: c in s.timed && c.id == id ==> DueOnTime(c, insert, taken, CountStarts(s.starts, id))
  }

  ghost predicate DueOnTime(c: CallData, insert: Task, taken: int, n: nat) {
    match insert
    case InsertAt(_, at) => c.interval == 0 && c.at == at
    case InsertEvery(_, interval) => c.interval == interval && c.at == taken + (n + 1) * interval
    case _ => false
  }

  /** Taking the insert schedules the call, on time. */
  lemma InsertIsOnTime(s: State, id: nat)
    requires Inv(s) && Can(s, TakeTask) && Inserts(s.queue[0], id)
    ensures var t := Do(s, TakeTask);
      OnTime(t, id, s.queue[0], s.clock) && HasId(t.timed, id) && CountStarts(t.starts, id) == 0
  {
    var insert := s.queue[0];
    assert TaskOk(s, insert);
    HeadInsertLeaves(s, id);
    PlaceElements(s.timed, if insert.InsertAt? then CallData(id, insert.at, 0)
                           else CallData(id, s.clock + insert.interval, insert.interval));
  }

  lemma StartIsOnTime(s: State, id: nat, insert: Task, taken: int)
    requires Inv(s) && Can(s, PopAndStart) && OnTime(s, id, insert, taken)
    ensures OnTime(Do(s, PopAndStart), id, insert, taken)
    ensures HasId(s.timed, id) && insert.InsertEvery? ==> HasId(Do(s, PopAndStart).timed, id)
    ensures HasId(s.timed, id) ==> HasId(Do(s, PopAndStart).timed, id) || CountStarts(Do(s, PopAndStart).starts, id) > 0
  {
    var t, back := Do(s, PopAndStart), s.timed[|s.timed| - 1];
    assert back in s.timed;
    AfterPopElements(s.timed);
    AfterPopUnique(s.timed);
    assert t.starts[..|s.starts|] == s.starts;
    forall c | c in t.timed && c.id == id
      ensures DueOnTime(c, insert, taken, CountStarts(t.starts, id))
    {
      if back.id == id {
        assert c == back.Next();
        var n := CountStarts(s.starts, id);
        assert taken + (n + 1) * back.interval + back.interval == taken + (n + 2) * back.interval;
      }
    }
    if HasId(s.timed, id) {
      var c :| c in s.timed && c.id == id;
      if c != back {
        StaysBehind(s.timed, c);
      } else if insert.InsertEvery? {
        PlaceElements(s.timed[..|s.timed| - 1], back.Next());
        assert back.Next() in t.timed;
      }
    }
  }

  lemma OtherTaskIsOnTime(s: State, id: nat, insert: Task, taken: int)
    requires Inv(s) && Can(s, TakeTask) && OnTime(s, id, insert, taken)
    ensures OnTime(Take(s), id, insert, taken)
    ensures HasId(s.timed, id) && s.queue[0] != Remove(id) ==> HasId(Take(s).timed, id)
  {
    var t := s.queue[0];
    assert t in s.queue && !Inserts(t, id);
    match t
    case InsertAt(x, at) => PlaceElements(s.timed, CallData(x, at, 0));
    case InsertEvery(x, interval) => PlaceElements(s.timed, CallData(x, s.clock + interval, interval));
    case Remove(x) => WithoutElements(s.timed, x);
    case Other =>
  }

  /** Whether a step removes the call. */
  ghost predicate Removes(s: State, a: Action, id: nat) {
    a == CancelHere(id) || (a == TakeTask && s.queue != [] && s.queue[0] == Remove(id))
  }

  lemma StepIsOnTime(s: State, a: Action, id: nat, insert: Task, taken: int)
    requires Inv(s) && Can(s, a) && OnTime(s, id, insert, taken)
    ensures OnTime(Do(s, a), id, insert, taken)
    ensures Lasts(s, id, insert) && !Removes(s, a, id) ==> Lasts(Do(s, a), id, insert)
  {
    match a
    case TakeTask => OtherTaskIsOnTime(s, id, insert, taken);
    case PopAndStart =>
      StartIsOnTime(s, id, insert, taken);
      assert Do(s, a).starts[..|s.starts|] == s.starts;
    case CancelHere(x) => WithoutElements(s.timed, x);
    case _ =>
  }

  /** The call is scheduled, or has been started once and for all. */
  ghost predicate Lasts(s: State, id: nat, insert: Task) {
    HasId(s.timed, id) || (insert.InsertAt? && CountStarts(s.starts, id) > 0)
  }

  lemma {:induction false} OnTimeFromInsert(run: seq<State>, acts: seq<Action>, i: nat, j: nat, id: nat)
    requires IsRun(run, acts) && i < j < |run|
    requires acts[i] == TakeTask && Inserts(run[i].queue[0], id)
    ensures OnTime(run[j], id, run[i].queue[0], run[i].clock)
    ensures (forall k :: i < k < j ==> !Removes(run[k], acts[k], id)) ==> Lasts(run[j], id, run[i].queue[0])
  {
    var insert, taken := run[i].queue[0], run[i].clock;
    RunKeeps(run, acts, j - 1);
    if j == i + 1 {
      InsertIsOnTime(run[i], id);
    } else {
      OnTimeFromInsert(run, acts, i, j - 1, id);
      StepIsOnTime(run[j - 1], acts[j - 1], id, insert, taken);
    }
  }

  /** Over every run, from the step on that takes the insert of a call: while the call is scheduled a
      periodic one is, after n starts, due exactly n + 1 intervals after the clock reading of that
      step, a one-shot one exactly at its deadline; and it stays scheduled, a periodic one for good
      and a one-shot one until it starts, unless it is removed. */
  lemma DueExactly(run: seq<State>, acts: seq<Action>, i: nat, j: nat, id: nat)
    requires IsRun(run, acts) && i < j < |run|
    requires acts[i] == TakeTask && Inserts(run[i].queue[0], id)
    ensures forall c :: c in run[j].timed && c.id == id ==>
      match run[i].queue[0]
      case InsertAt(_, at) => c.interval == 0 && c.at == at
      case InsertEvery(_, interval) =>
        c.interval == interval && c.at == run[i].clock + (CountStarts(run[j].starts, id) + 1) * interval
      case _ => false
    ensures (forall k :: i < k < j ==> !Removes(run[k], acts[k], id)) ==> Lasts(run[j], id, run[i].queue[0])
  {
    OnTimeFromInsert(run, acts, i, j, id);
    OnTimeMeans(run[j], id, run[i].queue[0], run[i].clock);
  }

  lemma OnTimeMeans(s: State, id: nat, insert: Task, taken: int)
    requires OnTime(s, id, insert, taken)
    ensures forall c :: c in s.timed && c.id == id ==>
      match insert
      case InsertAt(_, at) => c.interval == 0 && c.at == at
      case InsertEvery(_, interval) =>
        c.interval == interval && c.at == taken + (CountStarts(s.starts, id) + 1) * interval
      case _ => false
  {
    assert forall c :: c in s.timed && c.id == id ==> DueOnTime(c, insert, taken, CountStarts(s.starts, id));
  }

  /** The call is neither scheduled nor on its way to be. */
  ghost predicate Dead(s: State, id: nat) {
    id in s.asked && !HasId(s.timed, id) && !Queued(s.queue, id)
  }

  lemma DeadSurvivesTask(s: State, id: nat)
    requires Dead(s, id) && s.queue != []
    ensures Dead(Take(s), id)
  {
    assert s.queue[0] in s.queue && !Inserts(s.queue[0], id);
    match s.queue[0]
    case InsertAt(x, at) => PlaceElements(s.timed, CallData(x, at, 0));
    case InsertEvery(x, interval) => PlaceElements(s.timed, CallData(x, s.clock + interval, interval));
    case Remove(x) => WithoutElements(s.timed, x);
    case Other =>
  }

  lemma DeadStaysDead(s: State, a: Action, id: nat)
    requires Inv(s) && Can(s, a) && Dead(s, id)
    ensures Dead(Do(s, a), id) && CountStarts(Do(s, a).starts, id) == CountStarts(s.starts, id)
  {
    match a
    case TakeTask => DeadSurvivesTask(s, id);
    case PopAndStart =>
      AfterPopElements(s.timed);
      assert s.timed[|s.timed| - 1] in s.timed;
      assert Do(s, a).starts[..|s.starts|] == s.starts;
    case CancelHere(x) => WithoutElements(s.timed, x);
    case _ =>
  }

  lemma {:induction false} DeadNeverStarts(run: seq<State>, acts: seq<Action>, i: nat, j: nat, id: nat)
    requires IsRun(run, acts) && i <= j < |run| && Dead(run[i], id)
    ensures Dead(run[j], id) && CountStarts(run[j].starts, id) == CountStarts(run[i].starts, id)
  {
    if i < j {
      DeadNeverStarts(run, acts, i, j - 1, id);
      RunKeeps(run, acts, j - 1);
      DeadStaysDead(run[j - 1], acts[j - 1], id);
    }
  }

  /** Cancel from another thread is a blocking call: it returns after its task has run, and from
      then on the call never starts again. */
  lemma CancelStopsCalls(run: seq<State>, acts: seq<Action>, i: nat, j: nat, id: nat)
    requires IsRun(run, acts) && i < j < |run|
    requires acts[i] == TakeTask && run[i].queue[0] == Remove(id)
    ensures CountStarts(run[j].starts, id) == CountStarts(run[i].starts, id)
  {
    RunKeeps(run, acts, i);
    RemovalKills(run[i], id);
    DeadNeverStarts(run, acts, i + 1, j, id);
  }

  lemma AskedStays(s: State, a: Action, id: nat)
    requires Inv(s) && Can(s, a) && id in s.asked
    ensures id in Do(s, a).asked && Do(s, a).asked[id] == s.asked[id]
  {
  }

  /** The insert of a call says what its client asked for. */
  lemma InsertSaysRequest(s: State, t: Task, id: nat)
    requires Inv(s) && t in s.queue && Inserts(t, id)
    ensures id in s.asked
    ensures match s.asked[id]
            case At(at) => t == InsertAt(id, at)
            case Every(interval, _) => t == InsertEvery(id, interval)
  {
    assert TaskOk(s, t);
  }

  /** What a client asks for in a step is queued, and stays what it asked for. */
  lemma {:induction false} RequestIsKept(run: seq<State>, acts: seq<Action>, i: nat, j: nat)
    requires IsRun(run, acts) && i < j < |run| && (acts[i].PostAt? || acts[i].PostEvery?)
    ensures acts[i].id in run[j].asked
    ensures acts[i].PostAt? ==>
      run[j].asked[acts[i].id] == At(acts[i].at) && InsertAt(acts[i].id, acts[i].at) in run[i + 1].queue
    ensures acts[i].PostEvery? ==>
      run[j].asked[acts[i].id] == Every(acts[i].interval, run[i].clock)
      && InsertEvery(acts[i].id, acts[i].interval) in run[i + 1].queue
  {
    var q := run[i + 1].queue;
    assert q[|q| - 1] in q;
    if j > i + 1 {
      RequestIsKept(run, acts, i, j - 1);
      RunKeeps(run, acts, j - 1);
      AskedStays(run[j - 1], acts[j - 1], acts[i].id);
    }
  }

  /** How many tasks are taken in a stretch of a run. */
  function Takes(acts: seq<Action>, begin: nat, end: nat): nat
    requires begin <= end <= |acts|
  {
    if begin == end then 0 else Takes(acts, begin, end - 1) + if acts[end - 1] == TakeTask then 1 else 0
  }

  /** The removal of a call has left tasks in front of it, or has been taken. */
  ghost predicate InTurn(s: State, id: nat, left: int) {
    if left >= 0 then left < |s.queue| && s.queue[left] == Remove(id) else Dead(s, id)
  }

  lemma StepInTurn(s: State, a: Action, id: nat, left: int)
    requires Inv(s) && Can(s, a) && InTurn(s, id, left)
    ensures InTurn(Do(s, a), id, if a == TakeTask then left - 1 else left)
  {
    if left < 0 {
      DeadStaysDead(s, a, id);
    } else if left == 0 && a == TakeTask {
      RemovalKills(s, id);
    }
  }

  /** A Cancel posted from another thread takes its turn behind the tasks queued before it; once these
      and its own have been taken the call is dead. */
  lemma {:induction false} CancelTakesItsTurn(run: seq<State>, acts: seq<Action>, i: nat, j: nat, id: nat)
    requires IsRun(run, acts) && i < j < |run| && acts[i] == PostCancel(id)
    ensures InTurn(run[j], id, |run[i].queue| - Takes(acts, i + 1, j))
  {
    if j > i + 1 {
      CancelTakesItsTurn(run, acts, i, j - 1, id);
      RunKeeps(run, acts, j - 1);
      StepInTurn(run[j - 1], acts[j - 1], id, |run[i].queue| - Takes(acts, i + 1, j - 1));
    }
  }

  // ----- Cancel on the executor thread -----

  /** The call is dead, or a removal of it is queued and comes before the next time-out. */
  ghost predicate Doomed(s: State, id: nat) {
    Dead(s, id) || (id in s.asked && s.phase != Popping && Remove(id) in s.queue)
  }

  lemma RemovalKills(s: State, id: nat)
    requires Inv(s) && s.queue != [] && s.queue[0] == Remove(id)
    ensures Dead(Take(s), id)
  {
    assert TaskOk(s, s.queue[0]);
    WithoutElements(s.timed, id);
    forall t | t in s.queue[1..]
      ensures !Inserts(t, id)
    {
      var k :| 0 <= k < |s.queue| - 1 && s.queue[1..][k] == t;
      assert s.queue[k + 1] == t;
    }
  }

  lemma DoomedStaysDoomed(s: State, a: Action, id: nat)
    requires Inv(s) && Can(s, a) && Doomed(s, id)
    ensures Doomed(Do(s, a), id) && CountStarts(Do(s, a).starts, id) == CountStarts(s.starts, id)
  {
    if Dead(s, id) {
      DeadStaysDead(s, a, id);
    } else if a == TakeTask && s.queue[0] == Remove(id) {
      RemovalKills(s, id);
    } else if a == TakeTask {
      var k :| 0 <= k < |s.queue| && s.queue[k] == Remove(id);
      assert s.queue[1..][k - 1] == Remove(id);
    }
  }

  /** A run that starts anywhere. */
  ghost predicate Path(s: State, run: seq<State>, acts: seq<Action>) {
    && |run| == |acts| + 1 && run[0] == s
    && forall i :: 0 <= i < |acts| ==> Can(run[i], acts[i]) && run[i + 1] == Do(run[i], acts[i])
  }

  /** Nobody cancels anything. */
  ghost predicate NoCancel(acts: seq<Action>) {
    forall i :: 0 <= i < |acts| ==> !acts[i].PostCancel? && !acts[i].CancelHere?
  }

  lemma {:induction false} DoomedNeverStarts(s: State, run: seq<State>, acts: seq<Action>, i: nat, id: nat)
    requires Path(s, run, acts) && i < |run| && Inv(s) && Doomed(s, id)
    ensures Inv(run[i]) && Doomed(run[i], id) && CountStarts(run[i].starts, id) == CountStarts(s.starts, id)
  {
    if i > 0 {
      DoomedNeverStarts(s, run, acts, i - 1, id);
      StepKeeps(run[i - 1], acts[i - 1]);
      DoomedStaysDoomed(run[i - 1], acts[i - 1], id);
    }
  }

  lemma Before(s: State, a: Action, run: seq<State>, acts: seq<Action>) returns (run': seq<State>, acts': seq<Action>)
    requires Can(s, a) && Path(Do(s, a), run, acts) && NoCancel(acts) && !a.PostCancel? && !a.CancelHere?
    ensures Path(s, run', acts') && NoCancel(acts') && run'[|acts'|] == run[|acts|]
  {
    run', acts' := [s] + run, [a] + acts;
    forall i | 0 <= i < |acts'|
      ensures Can(run'[i], acts'[i]) && run'[i + 1] == Do(run'[i], acts'[i])
    {
      if i > 0 {
        assert run'[i] == run[i - 1] && run'[i + 1] == run[i] && acts'[i] == acts[i - 1];
      }
    }
  }

  lemma Join(s: State, run1: seq<State>, acts1: seq<Action>, run2: seq<State>, acts2: seq<Action>)
      returns (run: seq<State>, acts: seq<Action>)
    requires Path(s, run1, acts1) && Path(run1[|acts1|], run2, acts2) && NoCancel(acts1) && NoCancel(acts2)
    ensures Path(s, run, acts) && NoCancel(acts) && run[|acts|] == run2[|acts2|]
  {
    run, acts := run1 + run2[1..], acts1 + acts2;
    var n := |acts1|;
    forall i | 0 <= i < |acts|
      ensures Can(run[i], acts[i]) && run[i + 1] == Do(run[i], acts[i])
    {
      if i >= n {
        assert run[i] == run2[i - n] && run[i + 1] == run2[i - n + 1] && acts[i] == acts2[i - n];
      }
    }
  }

  /** The call is scheduled or will be, and no removal of it is queued. */
  ghost predicate Coming(s: State, id: nat) {
    (HasId(s.timed, id) || Queued(s.queue, id)) && Remove(id) !in s.queue
  }

  /** When the call is due, if its insert is taken at the present clock reading. */
  ghost predicate DueAt(s: State, id: nat, at: int) {
    || (exists c :: c in s.timed && c.id == id && c.at == at)
    || InsertAt(id, at) in s.queue
    || (exists interval :: InsertEvery(id, interval) in s.queue && at == s.clock + interval)
  }

  lemma TakeKeepsDue(s: State, id: nat, at: int)
    requires s.queue != [] && DueAt(Take(s), id, at)
    ensures DueAt(s, id, at)
  {
    var t := s.queue[0];
    assert t in s.queue && forall u :: u in s.queue[1..] ==> u in s.queue;
    match t
    case InsertAt(x, at') => PlaceElements(s.timed, CallData(x, at', 0));
    case InsertEvery(x, interval) => PlaceElements(s.timed, CallData(x, s.clock + interval, interval));
    case Remove(x) => WithoutElements(s.timed, x);
    case Other =>
  }

  lemma TakeKeepsAllDue(s: State, u: State, id: nat)
    requires s.queue != [] && forall at :: DueAt(u, id, at) ==> DueAt(Take(s), id, at)
    ensures forall at :: DueAt(u, id, at) ==> DueAt(s, id, at)
  {
    forall at | DueAt(u, id, at)
      ensures DueAt(s, id, at)
    {
      TakeKeepsDue(s, id, at);
    }
  }

  lemma TakeKeepsComing(s: State, id: nat)
    requires s.queue != [] && Coming(s, id)
    ensures Coming(Take(s), id)
  {
    var t := s.queue[0];
    if Queued(s.queue, id) && !Inserts(t, id) {
      var u :| u in s.queue && Inserts(u, id);
      var k :| 0 <= k < |s.queue| && s.queue[k] == u;
      assert s.queue[1..][k - 1] == u;
    }
    match t
    case InsertAt(x, at) => PlaceElements(s.timed, CallData(x, at, 0));
    case InsertEvery(x, interval) => PlaceElements(s.timed, CallData(x, s.clock + interval, interval));
    case Remove(x) =>
      assert t in s.queue;
      WithoutElements(s.timed, x);
    case Other =>
  }

  /** What a stretch without cancels keeps of a call on its way. */
  ghost predicate Onward(s: State, t: State, id: nat) {
    && Inv(t) && t.phase == Idle && Coming(t, id) && t.starts == s.starts && t.clock == s.clock
    && forall at :: DueAt(t, id, at) ==> DueAt(s, id, at)
  }

  lemma TakeIsOnward(s: State, id: nat)
    requires Inv(s) && s.phase == Idle && Coming(s, id) && s.queue != []
    ensures Onward(s, Take(s).(phase := Idle), id) && Inv(Take(s)) && |Take(s).queue| == |s.queue| - 1
    ensures Take(s).phase == Idle || Take(s).phase == Busy
  {
    TakeKeeps(s);
    TakeKeepsComing(s, id);
    TakeKeepsAllDue(s, Take(s).(phase := Idle), id);
  }

  lemma TakesOne(s: State, id: nat) returns (run: seq<State>, acts: seq<Action>)
    requires Inv(s) && s.phase == Idle && Coming(s, id) && s.queue != []
    ensures Path(s, run, acts) && NoCancel(acts)
    ensures Onward(s, run[|acts|], id) && |run[|acts|].queue| == |s.queue| - 1
  {
    var t := Take(s);
    TakeIsOnward(s, id);
    run, acts := [t], [];
    if t.phase == Busy {
      run, acts := [Do(t, Finish)], [];
      run, acts := Before(t, Finish, run, acts);
    } else {
      assert t == t.(phase := Idle);
    }
    run, acts := Before(s, TakeTask, run, acts);
  }

  /** The executor works through its queue. */
  lemma {:induction false} QueueEmpties(s: State, id: nat) returns (run: seq<State>, acts: seq<Action>)
    requires Inv(s) && s.phase == Idle && Coming(s, id)
    ensures Path(s, run, acts) && NoCancel(acts)
    ensures Onward(s, run[|acts|], id) && run[|acts|].queue == []
    decreases |s.queue|
  {
    if s.queue == [] {
      run, acts := [s], [];
    } else {
      var run1, acts1 := TakesOne(s, id);
      var run2, acts2 := QueueEmpties(run1[|acts1|], id);
      run, acts := Join(s, run1, acts1, run2, acts2);
    }
  }

  lemma StaysBehind(timed: seq<CallData>, c: CallData)
    requires c in timed && c != timed[|timed| - 1]
    ensures c in AfterPop(timed)
  {
    var n := |timed| - 1;
    PlaceElements(timed[..n], timed[n].Next());
    assert timed == timed[..n] + [timed[n]];
  }

  /** With the clock standing still, calls are served until one that is due has its turn; the calls
      in front of it owe only so many runs. */
  lemma {:induction false} GetsItsTurn(s: State, c: CallData) returns (run: seq<State>, acts: seq<Action>)
    requires Inv(s) && s.phase == Idle && s.queue == [] && c in s.timed && c.at <= s.clock
    ensures Path(s, run, acts) && NoCancel(acts)
    ensures CountStarts(run[|acts|].starts, c.id) == CountStarts(s.starts, c.id) + 1
    ensures run[|acts|].clock == s.clock
    decreases |GuiExecution.AllRuns(s.timed, s.clock)|
  {
    var back := s.timed[|s.timed| - 1];
    var t := Do(s, WaitTimedOut);
    var u := Do(t, PopAndStart);
    StepKeeps(s, WaitTimedOut);
    StepKeeps(t, PopAndStart);
    assert u.starts[..|s.starts|] == s.starts;
    if back == c {
      run, acts := [u], [];
    } else {
      assert back.id != c.id;
      StaysBehind(s.timed, c);
      GuiExecution.DrainStep(s.timed, s.clock);
      var v := Do(u, Finish);
      StepKeeps(u, Finish);
      run, acts := GetsItsTurn(v, c);
      run, acts := Before(u, Finish, run, acts);
    }
    run, acts := Before(t, PopAndStart, run, acts);
    run, acts := Before(s, WaitTimedOut, run, acts);
  }

  lemma WaitsItsTurn(s: State, c: CallData) returns (run: seq<State>, acts: seq<Action>)
    requires Inv(s) && s.phase == Idle && s.queue == [] && c in s.timed
    ensures Path(s, run, acts) && NoCancel(acts)
    ensures CountStarts(run[|acts|].starts, c.id) == CountStarts(s.starts, c.id) + 1
    ensures run[|acts|].clock == if c.at > s.clock then c.at else s.clock
  {
    var wait := if c.at > s.clock then c.at - s.clock else 0;
    StepKeeps(s, Tick(wait));
    run, acts := GetsItsTurn(Do(s, Tick(wait)), c);
    run, acts := Before(s, Tick(wait), run, acts);
  }

  /** A call on its way is started if the executor just goes on, at once if it is due and else without
      waiting for longer than its deadline. */
  lemma ComesToStart(s: State, id: nat) returns (run: seq<State>, acts: seq<Action>, at: int)
    requires Inv(s) && s.phase == Busy && Coming(s, id)
    ensures Path(s, run, acts) && NoCancel(acts) && DueAt(s, id, at)
    ensures CountStarts(run[|acts|].starts, id) == CountStarts(s.starts, id) + 1
    ensures run[|acts|].clock == if at > s.clock then at else s.clock
  {
    var idle := Do(s, Finish);
    StepKeeps(s, Finish);
    var run1, acts1 := QueueEmpties(idle, id);
    var t := run1[|acts1|];
    var c :| c in t.timed && c.id == id;
    at := c.at;
    assert DueAt(t, id, at);
    var run2, acts2 := WaitsItsTurn(t, c);
    run, acts := Join(idle, run1, acts1, run2, acts2);
    run, acts := Before(s, Finish, run, acts);
  }

  /** No run from s on starts the call. */
  ghost predicate NeverStartsAgain(s: State, id: nat) {
    forall run: seq<State>, acts: seq<Action> ::
      Path(s, run, acts) ==> CountStarts(run[|acts|].starts, id) == CountStarts(s.starts, id)
  }

  /** Over every run, a Cancel on the executor thread stops the call for good exactly when the call's
      insert is not queued, or a removal of it is queued as well.  Otherwise the call is started if
      nobody cancels anything further. */
  lemma CancelHereWorksIff(run: seq<State>, acts: seq<Action>, i: nat, id: nat)
    requires IsRun(run, acts) && i < |acts| && acts[i] == CancelHere(id)
    ensures NeverStartsAgain(run[i + 1], id) <==> !Queued(run[i].queue, id) || Remove(id) in run[i].queue
    ensures Queued(run[i].queue, id) && Remove(id) !in run[i].queue ==>
      exists on: seq<State>, more: seq<Action> :: Path(run[i + 1], on, more) && NoCancel(more)
        && CountStarts(on[|more|].starts, id) == CountStarts(run[i].starts, id) + 1
  {
    var s, t := run[i], run[i + 1];
    RunKeeps(run, acts, i);
    StepKeeps(s, acts[i]);
    CancelHereKills(s, id);
    if !Queued(s.queue, id) || Remove(id) in s.queue {
      forall on: seq<State>, more: seq<Action> | Path(t, on, more)
        ensures CountStarts(on[|more|].starts, id) == CountStarts(t.starts, id)
      {
        DoomedNeverStarts(t, on, more, |more|, id);
      }
    } else {
      var on, more, at := ComesToStart(t, id);
    }
  }

  lemma CancelHereKills(s: State, id: nat)
    requires Can(s, CancelHere(id))
    ensures Dead(Do(s, CancelHere(id)), id) <==> !Queued(s.queue, id)
  {
    WithoutElements(s.timed, id);
  }

  /** A callback that cancels its own call is such a case: Pop queued the next round before it ran. */
  lemma SelfCancelStopsCalls(run: seq<State>, acts: seq<Action>, i: nat, j: nat, id: nat)
    requires IsRun(run, acts) && i < j < |run|
    requires acts[i] == CancelHere(id) && CountStarts(run[i].starts, id) > 0
    ensures CountStarts(run[j].starts, id) == CountStarts(run[i].starts, id)
  {
    var s := run[i];
    RunKeeps(run, acts, i);
    forall t | t in s.queue
      ensures !Inserts(t, id)
    {
      assert TaskOk(s, t);
    }
    CancelHereKills(s, id);
    DeadNeverStarts(run, acts, i + 1, j, id);
  }

  lemma Extend(run: seq<State>, acts: seq<Action>, a: Action, next: State)
      returns (run': seq<State>, acts': seq<Action>)
    requires IsRun(run, acts) && Can(run[|acts|], a) && next == Do(run[|acts|], a)
    ensures run' == run + [next] && acts' == acts + [a] && IsRun(run', acts')
  {
    run', acts' := run + [next], acts + [a];
  }

  const EARLY: State := State(0, 1, {}, map[1 := At(0)], [InsertAt(1, 0)], [], Busy, [])

  /** A callback schedules call 1 and cancels it at once, while its insert is still queued. */
  lemma CancelBeforeInsert() returns (run: seq<State>, acts: seq<Action>)
    ensures IsRun(run, acts) && |acts| == 5 && acts[4] == CancelHere(1) && run[5] == EARLY
  {
    var idle := Init(0);
    var busy := idle.(phase := Busy);
    run, acts := [idle], [];
    run, acts := Extend(run, acts, PostOther, idle.(queue := [Other]));
    run, acts := Extend(run, acts, TakeTask, busy);
    run, acts := Extend(run, acts, Reserve, busy.(lastId := 1, reserved := {1}));
    run, acts := Extend(run, acts, PostAt(1, 0), EARLY);
    run, acts := Extend(run, acts, CancelHere(1), EARLY);
  }

  /** The other case is real: that cancel has no effect, and the call starts. */
  lemma CancelBeforeInsertIsLost() returns (run: seq<State>, acts: seq<Action>)
    ensures IsRun(run, acts) && |acts| == 9 && acts[4] == CancelHere(1)
    ensures CountStarts(run[5].starts, 1) == 0 && CountStarts(run[9].starts, 1) == 1
  {
    var c := CallData(1, 0, 0);
    var due := EARLY.(queue := [], timed := [c], phase := Idle);
    run, acts := CancelBeforeInsert();
    run, acts := Extend(run, acts, Finish, EARLY.(phase := Idle));
    run, acts := Extend(run, acts, TakeTask, due);
    run, acts := Extend(run, acts, WaitTimedOut, due.(phase := Popping));
    assert AfterPop([c]) == [];
    run, acts := Extend(run, acts, PopAndStart, due.(timed := [], phase := Busy, starts := [Start(1, 0)]));
  }

  // ----- the class -----

  /** The executor object.  The ghost state is the abstract state its fields are a view of. */
  class TimedExecutor {
    const scheduled: TimedCalls
    var queue: seq<Task>
    var lastId: nat
    ghost var state: State

    ghost predicate Valid()
      reads this, scheduled
    {
      && Inv(state) && scheduled.Valid()
      && scheduled.calls == state.timed && queue == state.queue && lastId == state.lastId
    }

    constructor (ghost clock: int)
      ensures Valid() && state == Init(clock) && fresh(scheduled)
    {
      scheduled := new TimedCalls();
      queue := [];
      lastId := 0;
      state := Init(clock);
    }

    /** Time passes. */
    ghost method Tick(ns: nat)
      requires Valid()
      modifies this`state
      ensures Valid() && state == Do(old(state), Action.Tick(ns))
    {
      StepKeeps(state, Action.Tick(ns));
      state := Do(state, Action.Tick(ns));
    }

    /** The callback that RunOne started returns, and the next round may begin. */
    method Finish()
      requires Valid() && state.phase == Busy
      modifies this`state
      ensures Valid() && state == Do(old(state), Action.Finish) && state.phase == Idle
    {
      StepKeeps(state, Action.Finish);
      state := Do(state, Action.Finish);
    }

    method CallAt(at: int) returns (id: nat)
      requires Valid()
      modifies this
      ensures Valid()
      ensures id == old(lastId) + 1 && Can(old(state), Reserve)
      ensures state == Do(Do(old(state), Reserve), PostAt(id, at))
    {
      lastId := lastId + 1;
      id := lastId;
      queue := queue + [InsertAt(id, at)];
      StepKeeps(state, Reserve);
      state := Do(state, Reserve);
      StepKeeps(state, PostAt(id, at));
      state := Do(state, PostAt(id, at));
    }

    method CallEvery(interval: nat) returns (id: nat)
      requires Valid() && interval > 0
      modifies this
      ensures Valid()
      ensures id == old(lastId) + 1 && Can(old(state), Reserve)
      ensures state == Do(Do(old(state), Reserve), PostEvery(id, interval))
    {
      lastId := lastId + 1;
      id := lastId;
      queue := queue + [InsertEvery(id, interval)];
      StepKeeps(state, Reserve);
      state := Do(state, Reserve);
      StepKeeps(state, PostEvery(id, interval));
      state := Do(state, PostEvery(id, interval));
    }

    /** Direct on the executor thread, posted from any other. */
    method Cancel(id: nat, onExecutorThread: bool)
      requires Valid() && id in state.asked && (onExecutorThread ==> state.phase == Busy)
      modifies this, scheduled
      ensures Valid()
      ensures state == Do(old(state), if onExecutorThread then CancelHere(id) else PostCancel(id))
    {
      StepKeeps(state, if onExecutorThread then CancelHere(id) else PostCancel(id));
      state := Do(state, if onExecutorThread then CancelHere(id) else PostCancel(id));
      if onExecutorThread {
        scheduled.Remove(id);
      } else {
        queue := queue + [Remove(id)];
      }
    }

    /** One round: a due call if waiting for a task timed out, else the next task.  now is the clock
        reading; the queue's wait reports a time-out only at or after the deadline and with no task. */
    method RunOne(now: int, timedOut: bool) returns (started: bool)
      requires Valid() && state.phase == Idle && now == state.clock
      requires timedOut ==> queue == [] && !scheduled.IsEmpty() && scheduled.NextDeadline() <= now
      requires !timedOut ==> queue != []
      modifies this, scheduled
      ensures Valid() && started == timedOut
      ensures timedOut ==> state == Do(Do(old(state), WaitTimedOut), PopAndStart)
      ensures !timedOut ==> state == Do(old(state), TakeTask)
    {
      if !scheduled.IsEmpty() && timedOut {
        StepKeeps(state, WaitTimedOut);
        state := Do(state, WaitTimedOut);
        StepKeeps(state, PopAndStart);
        state := Do(state, PopAndStart);
        var call := scheduled.Pop();
        started := true;
      } else {
        StepKeeps(state, TakeTask);
        ghost var before := state;
        assert TaskOk(state, queue[0]);
        state := Do(state, TakeTask);
        var task := queue[0];
        queue := queue[1..];
        started := false;
        match task
        case InsertAt(id, at) => scheduled.Insert(CallData(id, at, 0));
        case InsertEvery(id, interval) => scheduled.Insert(CallData(id, now + interval, interval));
        case Remove(id) => scheduled.Remove(id);
        case Other =>
      }
    }
  }
}
