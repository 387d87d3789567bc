/** How polled messages travel from a source's own thread to the user interface: PolledLogSource
    collects them and raises an event, the listener swaps its two buffers and delivers to the line
    buffer, and VectorLineBuffer hands them on by swapping again
    (DebugViewppLib/PolledLogSource.cpp, VectorLineBuffer.cpp).

    The classes are the two objects; the transition system runs them on three kinds of thread. */
module PolledSources {

  datatype PollLine =
    | ByHandle(handle: nat, message: string)
    | Timed(time: int, systemTime: int, pid: nat, processName: string, message: string)
    | Plain(pid: nat, processName: string, message: string)

  datatype Stamp = Stamp(time: int, systemTime: int)

  datatype Origin = OfHandle(handle: nat) | OfPid(pid: nat, processName: string)

  datatype Line = Line(stamp: Stamp, origin: Origin, message: string)

  /** The three ways Notify adds a line; only a line that came without times gets the present ones. */
  function LineOf(p: PollLine, now: Stamp): Line {
    match p
    case ByHandle(handle, message) => Line(now, OfHandle(handle), message)
    case Timed(time, systemTime, pid, name, message) => Line(Stamp(time, systemTime), OfPid(pid, name), message)
    case Plain(pid, name, message) => Line(now, OfPid(pid, name), message)
  }

  /** A line with p's message, its handle or its process, and its times if it has any. */
  predicate Carries(line: Line, p: PollLine) {
    match p
    case ByHandle(handle, message) => line.message == message && line.origin == OfHandle(handle)
    case Timed(time, systemTime, pid, name, message) =>
      line.message == message && line.origin == OfPid(pid, name) && line.stamp == Stamp(time, systemTime)
    case Plain(pid, name, message) => line.message == message && line.origin == OfPid(pid, name)
  }

  predicate CarryAll(lines: seq<Line>, ps: seq<PollLine>) {
    |lines| == |ps| && forall i :: 0 <= i < |lines| ==> Carries(lines[i], ps[i])
  }

  /** Lines stamped one after the other; now(i) is the clock at the i-th. */
  function Stamped(ps: seq<PollLine>, now: nat -> Stamp): (r: seq<Line>)
    ensures |r| == |ps| && forall i :: 0 <= i < |r| ==> r[i] == LineOf(ps[i], now(i))
  {
    seq(|ps|, i requires 0 <= i < |ps| => LineOf(ps[i], now(i)))
  }

  /** The stamps of lines that came without times are those of the clock at each. */
  ghost predicate StampedBy(lines: seq<Line>, ps: seq<PollLine>, now: nat -> Stamp) {
    |lines| == |ps| && forall i :: 0 <= i < |ps| && !ps[i].Timed? ==> lines[i].stamp == now(i)
  }

  lemma StampedCarries(ps: seq<PollLine>, now: nat -> Stamp)
    ensures CarryAll(Stamped(ps, now), ps) && StampedBy(Stamped(ps, now), ps, now)
  {
  }

  // ----- the objects -----

  class VectorLineBuffer {
    var buffer: seq<Line>
    var backingBuffer: seq<Line>

    constructor ()
      ensures buffer == []
    {
      buffer, backingBuffer := [], [];
    }

    method Add(line: Line)
      modifies this`buffer
      ensures buffer == old(buffer) + [line]
    {
      buffer := buffer + [line];
    }

    /** Everything added since the last call, in order. */
    method GetLines() returns (lines: seq<Line>)
      modifies this
      ensures lines == old(buffer) && buffer == []
    {
      backingBuffer := [];
      buffer, backingBuffer := backingBuffer, buffer;
      lines := backingBuffer;
    }
  }

  class PolledLogSource {
    var lines: seq<PollLine>
    var backBuffer: seq<PollLine>
    var event: bool

    constructor ()
      ensures lines == [] && backBuffer == [] && !event
    {
      lines, backBuffer, event := [], [], false;
    }

    method AddMessage(p: PollLine)
      modifies this`lines
      ensures lines == old(lines) + [p]
    {
      lines := lines + [p];
    }

    method Signal()
      modifies this`event
      ensures event == (old(event) || lines != [])
    {
      if lines != [] {
        event := true;
      }
    }

    /** Delivers every collected line once, in order. */
    method Notify(lineBuffer: VectorLineBuffer, now: nat -> Stamp)
      requires backBuffer == []
      modifies this`lines, this`backBuffer, lineBuffer`buffer
      ensures lines == [] && backBuffer == []
      ensures lineBuffer.buffer == old(lineBuffer.buffer) + Stamped(old(lines), now)
      ensures var fetched := lineBuffer.buffer[|old(lineBuffer.buffer)|..];
        CarryAll(fetched, old(lines)) && StampedBy(fetched, old(lines), now)
    {
      StampedCarries(lines, now);
      lines, backBuffer := backBuffer, lines;
      ghost var before, stamped := lineBuffer.buffer, Stamped(backBuffer, now);
      for i := 0 to |backBuffer|
        invariant lines == [] && backBuffer == old(lines)
        invariant lineBuffer.buffer == before + stamped[..i]
      {
        lineBuffer.Add(LineOf(backBuffer[i], now(i)));
        assert stamped[..i + 1] == stamped[..i] + [stamped[i]];
      }
      assert stamped[..|backBuffer|] == stamped;
      backBuffer := [];
    }
  }

  // ----- the transition system -----

  /** A message and the thread that added it. */
  datatype Entry = Entry(from: nat, line: PollLine)

  /** The source's own polling thread. */
  const LOOP := 0

  datatype Loop = Polling | Checking | Sleeping | Exited

  /** The one thread that calls Notify, or Abort and then Notify. */
  datatype Notifier = Waiting | Joining | Woken | Delivering(next: nat) | Finished

  datatype State = State(
    lines: seq<Entry>,
    backBuffer: seq<Entry>,
    event: bool,            // auto-reset
    end: bool,
    loop: Loop,
    owing: set<nat>,        // threads that added a message and have not called Signal since
    notifier: Notifier,
    buffer: seq<Line>,
    received: seq<Line>,    // everything GetLines has returned
    added: seq<Entry>)      // everything ever added, in the order of the source's lock

  datatype Action =
    | Add(from: nat, line: PollLine)
    | Signal(from: nat)
    | Check              // the loop looks at AtEnd
    | WakeUp             // the loop's sleep is over
    | EventTaken         // the wait on the event is over, and resets it
    | Abort              // sets the end flag
    | Join               // the loop thread is gone
    | Swap
    | Deliver(now: Stamp)
    | ClearBack
    | GetLines

  ghost predicate Can(s: State, a: Action) {
    match a
    case Add(from, _) => from == LOOP ==> s.loop == Polling
    case Signal(from) => from == LOOP ==> s.loop == Polling
    case Check => s.loop == Checking
    case WakeUp => s.loop == Sleeping
    case EventTaken => s.notifier == Waiting && s.event
    case Abort => s.notifier == Waiting
    case Join => s.notifier == Joining && s.loop == Exited
    case Swap => s.notifier == Woken
    case Deliver(_) => s.notifier.Delivering? && s.notifier.next < |s.backBuffer|
    case ClearBack => s.notifier == Delivering(|s.backBuffer|)
    case GetLines => true
  }

  ghost function Do(s: State, a: Action): State
    requires Can(s, a)
  {
    match a
    case Add(from, line) =>
      s.(lines := s.lines + [Entry(from, line)], added := s.added + [Entry(from, line)], owing := s.owing + {from})
    case Signal(from) =>
      s.(event := s.event || s.lines != [], owing := s.owing - {from},
         loop := if from == LOOP then Checking else s.loop)
    case Check => s.(loop := if s.end then Exited else Sleeping)
    case WakeUp => s.(loop := Polling)
    case EventTaken => s.(event := false, notifier := Woken)
    case Abort => s.(end := true, notifier := Joining)
    case Join => s.(notifier := Woken)
    case Swap => s.(lines := s.backBuffer, backBuffer := s.lines, notifier := Delivering(0))
    case Deliver(now) =>
      s.(buffer := s.buffer + [LineOf(s.backBuffer[s.notifier.next].line, now)],
         notifier := Delivering(s.notifier.next + 1))
    case ClearBack => s.(backBuffer := [], notifier := if s.end then Finished else Waiting)
    case GetLines => s.(received := s.received + s.buffer, buffer := [])
  }

  /** A fresh source, with or without a polling thread. */
  ghost predicate IsInit(s: State) {
    s == State([], [], false, false, s.loop, {}, Waiting, [], [], []) && (s.loop == Polling || s.loop == Exited)
  }

  ghost predicate IsRun(run: seq<State>, acts: seq<Action>) {
    && |run| == |acts| + 1 && IsInit(run[0])
    && forall i :: 0 <= i < |acts| ==> Can(run[i], acts[i]) && run[i + 1] == Do(run[i], acts[i])
  }

  // ----- the invariant -----

  function Lines(entries: seq<Entry>): (r: seq<PollLine>)
    ensures |r| == |entries|
  {
    seq(|entries|, i requires 0 <= i < |entries| => entries[i].line)
  }

  /** What the notifier has swapped out and not delivered yet. */
  function InHand(s: State): seq<Entry> {
    if s.notifier.Delivering? && s.notifier.next <= |s.backBuffer| then s.backBuffer[s.notifier.next..]
    else s.backBuffer
  }

  /** Exactly once, in order: what has come out, what is in hand and what is collected make up what went in. */
  ghost predicate Fifo(s: State) {
    var out := s.received + s.buffer;
    && |out| <= |s.added|
    && CarryAll(out, Lines(s.added[..|out|]))
    && s.added[|out|..] == InHand(s) + s.lines
  }

  /** Collected lines have the event set, a notifier on its way to the swap, or a Signal to come. */
  ghost predicate NoLostWakeUp(s: State) {
    s.lines != [] ==> s.event || s.notifier == Woken || s.owing != {}
  }

  predicate NoneFromLoop(entries: seq<Entry>) {
    forall i :: 0 <= i < |entries| ==> entries[i].from != LOOP
  }

  ghost predicate Inv(s: State) {
    && Fifo(s) && NoLostWakeUp(s)
    && (s.notifier.Delivering? ==> s.notifier.next <= |s.backBuffer|)
    && (!s.notifier.Delivering? ==> s.backBuffer == [])
    && (s.notifier == Joining || s.notifier == Finished ==> s.end)
    && (s.end && s.notifier != Joining ==> s.loop == Exited)
    && (s.end && (s.notifier.Delivering? || s.notifier == Finished) ==> NoneFromLoop(s.lines))
  }

  lemma LinesAppend(entries: seq<Entry>, e: Entry, n: nat)
    requires n <= |entries|
    ensures (entries + [e])[..n] == entries[..n] && (entries + [e])[n..] == entries[n..] + [e]
  {
  }

  lemma AddKeeps(s: State, from: nat, line: PollLine)
    requires Inv(s) && Can(s, Add(from, line))
    ensures Inv(Do(s, Add(from, line)))
  {
    var s', e := Do(s, Add(from, line)), Entry(from, line);
    LinesAppend(s.added, e, |s.received + s.buffer|);
    assert InHand(s') == InHand(s);
    assert InHand(s) + s.lines + [e] == InHand(s) + (s.lines + [e]);
  }

  lemma DeliverKeeps(s: State, now: Stamp)
    requires Inv(s) && Can(s, Deliver(now))
    ensures Fifo(Do(s, Deliver(now)))
  {
    var s' := Do(s, Deliver(now));
    var e := s.backBuffer[s.notifier.next];
    var out, line := s.received + s.buffer, LineOf(e.line, now);
    assert s'.received + s'.buffer == out + [line];
    assert InHand(s) == [e] + InHand(s');
    HeadMoves(s.added, |out|, e, InHand(s'), s.lines);
    assert Carries(line, e.line);
    CarryAllAppend(out, Lines(s.added[..|out|]), line, e.line);
  }

  lemma HeadMoves(added: seq<Entry>, n: nat, e: Entry, hand: seq<Entry>, lines: seq<Entry>)
    requires n <= |added| && added[n..] == [e] + hand + lines
    ensures n < |added| && added[n + 1..] == hand + lines
    ensures Lines(added[..n + 1]) == Lines(added[..n]) + [e.line]
  {
    assert added[n] == added[n..][0] == e;
    assert added[n + 1..] == added[n..][1..];
  }

  lemma CarryAllAppend(lines: seq<Line>, ps: seq<PollLine>, line: Line, p: PollLine)
    requires CarryAll(lines, ps) && Carries(line, p)
    ensures CarryAll(lines + [line], ps + [p])
  {
  }

  lemma SwapKeeps(s: State)
    requires Inv(s) && Can(s, Swap)
    ensures Inv(Do(s, Swap))
  {
    assert InHand(Do(s, Swap)) == s.lines;
    assert [] + s.lines == s.lines + [];
  }

  lemma StepKeeps(s: State, a: Action)
    requires Inv(s) && Can(s, a)
    ensures Inv(Do(s, a))
  {
    match a
    case Add(from, line) => AddKeeps(s, from, line);
    case Swap => SwapKeeps(s);
    case Deliver(now) => DeliverKeeps(s, now);
    case ClearBack => assert InHand(s) == [];
    case GetLines => assert s.received + s.buffer + [] == s.received + s.buffer;
    case _ => assert InHand(Do(s, a)) == InHand(s);
  }

  // ----- the methods as steps -----

  /** Signal is one step. */
  lemma SignalIsStep(s: State, from: nat)
    requires Can(s, Action.Signal(from))
    ensures Do(s, Action.Signal(from)).event == (s.event || s.lines != [])
    ensures Do(s, Action.Signal(from)).lines == s.lines && Do(s, Action.Signal(from)).buffer == s.buffer
  {
  }

  /** A run that starts anywhere. */
  ghost predicate Path(s: State, run: seq<State>, acts: seq<Action>) {
    && |run| == |acts| + 1 && run[0] == s
    && forall i :: 0 <= i < |acts| ==> Can(run[i], acts[i]) && run[i + 1] == Do(run[i], acts[i])
  }

  /** The state when the swapped lines before k have been delivered. */
  ghost function Delivered(s: State, now: nat -> Stamp, k: nat): State
    requires k <= |s.lines|
  {
    s.(lines := [], backBuffer := s.lines, notifier := Delivering(k),
       buffer := s.buffer + Stamped(Lines(s.lines), now)[..k])
  }

  /** Notify, undisturbed, is the swap, a delivery for each line and the clearing of the back buffer;
      together they do to lines and buffer what the method does. */
  lemma NotifyIsSteps(s: State, now: nat -> Stamp) returns (run: seq<State>, acts: seq<Action>)
    requires s.notifier == Woken && s.backBuffer == []
    ensures Path(s, run, acts) && |acts| == |s.lines| + 2
    ensures acts[0] == Swap && acts[|s.lines| + 1] == ClearBack
    ensures forall i :: 0 <= i < |s.lines| ==> acts[i + 1] == Deliver(now(i))
    ensures run[|acts|] == s.(lines := [], buffer := s.buffer + Stamped(Lines(s.lines), now),
                              notifier := if s.end then Finished else Waiting)
  {
    var n := |s.lines|;
    var stamped := Stamped(Lines(s.lines), now);
    var last := s.(lines := [], buffer := s.buffer + stamped, notifier := if s.end then Finished else Waiting);
    acts := [Swap] + seq(n, i requires 0 <= i < n => Deliver(now(i))) + [ClearBack];
    run := [s] + seq(n + 1, k requires 0 <= k <= n => Delivered(s, now, k)) + [last];
    assert s.buffer + stamped[..0] == s.buffer && stamped[..n] == stamped;
    forall i | 0 <= i < |acts|
      ensures Can(run[i], acts[i]) && run[i + 1] == Do(run[i], acts[i])
    {
      if 0 < i <= n {
        DeliverStep(s, now, i - 1);
      }
    }
  }

  lemma DeliverStep(s: State, now: nat -> Stamp, k: nat)
    requires k < |s.lines|
    ensures Can(Delivered(s, now, k), Deliver(now(k)))
    ensures Do(Delivered(s, now, k), Deliver(now(k))) == Delivered(s, now, k + 1)
  {
    var stamped := Stamped(Lines(s.lines), now);
    assert stamped[..k + 1] == stamped[..k] + [stamped[k]];
    assert stamped[k] == LineOf(s.lines[k].line, now(k));
    assert s.buffer + stamped[..k] + [stamped[k]] == s.buffer + stamped[..k + 1];
  }

  // ----- the promises, over every run -----

  lemma {:induction false} RunKeeps(run: seq<State>, acts: seq<Action>, i: nat)
    requires IsRun(run, acts) && i < |run|
    ensures Inv(run[i])
  {
    if i > 0 {
      RunKeeps(run, acts, i - 1);
      StepKeeps(run[i - 1], acts[i - 1]);
    }
  }

  /** In every interleaving, GetLines has returned the first messages added, each once, in order; the
      others are still on the way, in order; and no wake-up for them is lost. */
  lemma DeliveredOnceInOrder(run: seq<State>, acts: seq<Action>, i: nat)
    requires IsRun(run, acts) && i < |run|
    ensures var s := run[i];
      && |s.received| <= |s.added|
      && CarryAll(s.received, Lines(s.added[..|s.received|]))
      && |s.received| + |s.buffer| <= |s.added|
      && CarryAll(s.buffer, Lines(s.added[|s.received|..|s.received| + |s.buffer|]))
      && s.added[|s.received| + |s.buffer|..] == InHand(s) + s.lines
      && NoLostWakeUp(s)
  {
    RunKeeps(run, acts, i);
    var s := run[i];
    var out := s.received + s.buffer;
    var n := |s.received|;
    forall j | 0 <= j < |s.buffer|
      ensures Carries(s.buffer[j], Lines(s.added[n..n + |s.buffer|])[j])
    {
      assert out[n + j] == s.buffer[j] && Carries(out[n + j], Lines(s.added[..|out|])[n + j]);
    }
    forall j | 0 <= j < |s.received|
      ensures Carries(s.received[j], Lines(s.added[..|s.received|])[j])
    {
      assert out[j] == s.received[j] && Carries(out[j], Lines(s.added[..|out|])[j]);
    }
  }

  /** When Abort has returned, everything the polling thread added has reached the line buffer, in
      order; only what other threads added since can be left in the source. */
  lemma AbortLeavesNothing(run: seq<State>, acts: seq<Action>, i: nat)
    requires IsRun(run, acts) && i < |run| && run[i].notifier == Finished
    ensures var s := run[i];
      var out := s.received + s.buffer;
      && s.backBuffer == [] && |out| <= |s.added|
      && CarryAll(out, Lines(s.added[..|out|]))
      && s.added[|out|..] == s.lines && NoneFromLoop(s.lines)
      && ((forall e :: e in s.added ==> e.from == LOOP) ==> s.lines == [])
  {
    RunKeeps(run, acts, i);
    var s := run[i];
    var n := |s.received + s.buffer|;
    assert s.added[n..] == s.lines;
    assert s.lines != [] ==> s.lines[0] in s.added;
  }
}
