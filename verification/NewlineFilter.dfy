/** Splitting what processes print into lines (DebugViewppLib/NewlineFilter.cpp). */
module NewlineFilters {

  const LIMIT := 8192

  /** A log source, or no source for a flushed line. */
  datatype Source = Null | Source(id: nat, autoNewLine: bool)

  datatype Line =
    Line(time: real, systemTime: int, pid: nat, processName: string, message: string, source: Source)

  datatype Event = Print(line: Line) | Exit(pid: nat)

  type Buffers = map<nat, string>

  function Pending(b: Buffers, pid: nat): string {
    if pid in b then b[pid] else ""
  }

  // ----- one process -----

  /** Text s after unfinished text p: the lines it completes, and the text still unfinished. */
  function Feed(p: string, s: string): (seq<string>, string)
    decreases s
  {
    if s == "" then ([], p)
    else if s[0] == '\r' then Feed(p, s[1..])
    else if s[0] == '\n' then
      var (lines, rest) := Feed("", s[1..]);
      ([p] + lines, rest)
    else Feed(p + [s[0]], s[1..])
  }

  /** Unfinished text is not kept for a source that ends lines itself, or beyond the limit. */
  predicate Forced(p: string, autoNewLine: bool) {
    p != "" && (autoNewLine || |p| > LIMIT)
  }

  function After(p: string, s: string, autoNewLine: bool): (seq<string>, string) {
    var (lines, rest) := Feed(p, s);
    if Forced(rest, autoNewLine) then (lines + [rest], "") else (lines, rest)
  }

  // ----- all processes -----

  /** Lines that copy everything but the message. */
  function Wrap(line: Line, messages: seq<string>): seq<Line> {
    if messages == [] then [] else [line.(message := messages[0])] + Wrap(line, messages[1..])
  }

  function Flushed(pid: nat, message: string): Line {
    Line(0.0, 0, pid, "<flush>", message, Null)
  }

  function Step(b: Buffers, e: Event): (seq<Line>, Buffers)
    requires e.Print? ==> e.line.source.Source?
  {
    match e
    case Print(line) =>
      var (messages, rest) := After(Pending(b, line.pid), line.message, line.source.autoNewLine);
      (Wrap(line, messages), b[line.pid := rest])
    case Exit(pid) =>
      (if Pending(b, pid) != "" then [Flushed(pid, b[pid])] else [], b - {pid})
  }

  /** Every printed line comes from a source. */
  predicate Sourced(events: seq<Event>) {
    forall i :: 0 <= i < |events| ==> events[i].Print? ==> events[i].line.source.Source?
  }

  function Run(b: Buffers, events: seq<Event>): (seq<Line>, Buffers)
    requires Sourced(events)
    decreases events
  {
    if events == [] then ([], b)
    else
      var (first, next) := Step(b, events[0]);
      var (lines, last) := Run(next, events[1..]);
      (first + lines, last)
  }

  class NewlineFilter {
    var lineBuffers: Buffers

    constructor ()
      ensures lineBuffers == map[]
    {
      lineBuffers := map[];
    }

    method Process(line: Line) returns (lines: seq<Line>)
      requires line.source.Source?
      modifies this
      ensures lines == Step(old(lineBuffers), Print(line)).0
      ensures lineBuffers == Step(old(lineBuffers), Print(line)).1
    {
      var message := if line.pid in lineBuffers then lineBuffers[line.pid] else "";
      lines := [];
      ghost var p, texts := message, [];
      for i := 0 to |line.message|
        invariant Feed(p, line.message[..i]).0 == texts && Feed(p, line.message[..i]).1 == message
        invariant lines == Wrap(line, texts) && lineBuffers == old(lineBuffers)
      {
        var c := line.message[i];
        assert line.message[..i + 1] == line.message[..i] + [c];
        FeedNext(p, line.message[..i], c);
        if c == '\r' {
          continue;
        }
        if c == '\n' {
          WrapAppend(line, texts, [message]);
          lines := lines + [line.(message := message)];
          texts := texts + [message];
          message := "";
        } else {
          message := message + [c];
        }
      }
      assert line.message[..|line.message|] == line.message;
      if message != "" {
        if line.source.autoNewLine || |message| > LIMIT {
          WrapAppend(line, texts, [message]);
          lines := lines + [line.(message := message)];
          message := "";
        }
      }
      lineBuffers := lineBuffers[line.pid := message];
    }

    method FlushLinesFromTerminatedProcess(pid: nat) returns (lines: seq<Line>)
      modifies this
      ensures lines == Step(old(lineBuffers), Exit(pid)).0
      ensures lineBuffers == Step(old(lineBuffers), Exit(pid)).1
    {
      lines := [];
      if pid in lineBuffers {
        if lineBuffers[pid] != "" {
          lines := lines + [Flushed(pid, lineBuffers[pid])];
        }
        lineBuffers := lineBuffers - {pid};
      } else {
        assert lineBuffers - {pid} == lineBuffers;
      }
    }
  }

  lemma {:induction false} WrapAppend(line: Line, a: seq<string>, b: seq<string>)
    ensures Wrap(line, a + b) == Wrap(line, a) + Wrap(line, b)
  {
    if a == [] {
      assert a + b == b;
    } else {
      assert (a + b)[1..] == a[1..] + b;
      WrapAppend(line, a[1..], b);
    }
  }

  /** Cutting the text anywhere makes no difference. */
  lemma {:induction false} FeedAppend(p: string, s: string, t: string)
    ensures var (lines, rest) := Feed(p, s);
      Feed(p, s + t) == (lines + Feed(rest, t).0, Feed(rest, t).1)
    decreases s
  {
    if s == "" {
      assert s + t == t;
      assert [] + Feed(p, t).0 == Feed(p, t).0;
    } else {
      assert (s + t)[1..] == s[1..] + t;
      var q := if s[0] == '\r' then p else if s[0] == '\n' then "" else p + [s[0]];
      FeedAppend(q, s[1..], t);
      if s[0] == '\n' {
        var lines, more := Feed("", s[1..]).0, Feed(Feed("", s[1..]).1, t).0;
        assert [p] + (lines + more) == [p] + lines + more;
      }
    }
  }

  lemma FeedNext(p: string, s: string, c: char)
    ensures var (lines, rest) := Feed(p, s);
      Feed(p, s + [c]) ==
        if c == '\r' then (lines, rest) else if c == '\n' then (lines + [rest], "") else (lines, rest + [c])
  {
    var (lines, rest) := Feed(p, s);
    FeedAppend(p, s, [c]);
    assert [c][1..] == "";
    assert lines + [] == lines && [rest] + [] == [rest];
  }

  // ----- nothing is lost -----

  function Without(s: string, ends: set<char>): string {
    if s == "" then "" else (if s[0] in ends then "" else [s[0]]) + Without(s[1..], ends)
  }

  /** The text without line ends. */
  function Kept(s: string): string {
    Without(s, {'\r', '\n'})
  }

  function Concat(messages: seq<string>): string {
    if messages == [] then "" else messages[0] + Concat(messages[1..])
  }

  /** The messages of one process, oldest first. */
  function Messages(lines: seq<Line>, pid: nat): seq<string> {
    if lines == [] then []
    else (if lines[0].pid == pid then [lines[0].message] else []) + Messages(lines[1..], pid)
  }

  function Printed(e: Event, pid: nat): string {
    if e.Print? && e.line.pid == pid then e.line.message else ""
  }

  /** All text printed by one process. */
  function Input(events: seq<Event>, pid: nat): string {
    if events == [] then "" else Printed(events[0], pid) + Input(events[1..], pid)
  }

  lemma {:induction false} WithoutAppend(s: string, t: string, ends: set<char>)
    ensures Without(s + t, ends) == Without(s, ends) + Without(t, ends)
  {
    if s == "" {
      assert s + t == t;
    } else {
      assert (s + t)[1..] == s[1..] + t;
      WithoutAppend(s[1..], t, ends);
    }
  }

  lemma {:induction false} ConcatAppend(a: seq<string>, b: seq<string>)
    ensures Concat(a + b) == Concat(a) + Concat(b)
  {
    if a == [] {
      assert a + b == b;
    } else {
      assert (a + b)[1..] == a[1..] + b;
      ConcatAppend(a[1..], b);
      assert a[0] + (Concat(a[1..]) + Concat(b)) == a[0] + Concat(a[1..]) + Concat(b);
    }
  }

  lemma {:induction false} MessagesAppend(a: seq<Line>, b: seq<Line>, pid: nat)
    ensures Messages(a + b, pid) == Messages(a, pid) + Messages(b, pid)
  {
    if a == [] {
      assert a + b == b;
    } else {
      assert (a + b)[1..] == a[1..] + b;
      MessagesAppend(a[1..], b, pid);
    }
  }

  lemma {:induction false} WrapMessages(line: Line, messages: seq<string>, pid: nat)
    ensures Messages(Wrap(line, messages), pid) == if line.pid == pid then messages else []
  {
    if messages != [] {
      WrapMessages(line, messages[1..], pid);
      assert Wrap(line, messages)[1..] == Wrap(line, messages[1..]);
    }
  }

  lemma {:induction false} FeedConserves(p: string, s: string)
    ensures Concat(Feed(p, s).0) + Feed(p, s).1 == p + Kept(s)
    decreases s
  {
    if s == "" {
    } else if s[0] == '\r' {
      FeedConserves(p, s[1..]);
    } else if s[0] == '\n' {
      FeedConserves("", s[1..]);
      var (lines, rest) := Feed("", s[1..]);
      assert ([p] + lines)[1..] == lines;
      assert p + Concat(lines) + rest == p + (Concat(lines) + rest);
    } else {
      FeedConserves(p + [s[0]], s[1..]);
      assert p + [s[0]] + Kept(s[1..]) == p + ([s[0]] + Kept(s[1..]));
    }
  }

  lemma AfterConserves(p: string, s: string, autoNewLine: bool)
    ensures Concat(After(p, s, autoNewLine).0) + After(p, s, autoNewLine).1 == p + Kept(s)
  {
    FeedConserves(p, s);
    var (lines, rest) := Feed(p, s);
    ConcatAppend(lines, [rest]);
    assert Concat([rest]) == rest;
  }

  lemma StepConserves(b: Buffers, e: Event, pid: nat)
    requires e.Print? ==> e.line.source.Source?
    ensures var (lines, next) := Step(b, e);
      Concat(Messages(lines, pid)) + Pending(next, pid) == Pending(b, pid) + Kept(Printed(e, pid))
  {
    match e
    case Print(line) =>
      var p := Pending(b, line.pid);
      AfterConserves(p, line.message, line.source.autoNewLine);
      WrapMessages(line, After(p, line.message, line.source.autoNewLine).0, pid);
    case Exit(exited) =>
      assert Kept("") == "";
  }

  /** For every process and every interleaving, what was emitted followed by what is pending is what
      was pending at first followed by everything printed, line ends aside. */
  lemma {:induction false} RunConserves(b: Buffers, events: seq<Event>, pid: nat)
    requires Sourced(events)
    ensures var (lines, last) := Run(b, events);
      Concat(Messages(lines, pid)) + Pending(last, pid) == Pending(b, pid) + Kept(Input(events, pid))
    decreases events
  {
    if events != [] {
      var e := events[0];
      var (first, next) := Step(b, e);
      var (lines, last) := Run(next, events[1..]);
      StepConserves(b, e, pid);
      RunConserves(next, events[1..], pid);
      MessagesAppend(first, lines, pid);
      ConcatAppend(Messages(first, pid), Messages(lines, pid));
      WithoutAppend(Printed(e, pid), Input(events[1..], pid), {'\r', '\n'});
      Regroup(Concat(Messages(first, pid)), Concat(Messages(lines, pid)), Pending(last, pid),
              Pending(next, pid), Pending(b, pid), Kept(Printed(e, pid)), Kept(Input(events[1..], pid)));
    }
  }

  lemma Regroup(a: string, b: string, c: string, n: string, p: string, k: string, l: string)
    requires a + n == p + k && b + c == n + l
    ensures (a + b) + c == p + (k + l)
  {
    calc {
      (a + b) + c;
      a + (b + c);
      a + (n + l);
      (a + n) + l;
      (p + k) + l;
      p + (k + l);
    }
  }

  // ----- what lines look like -----

  predicate Tidy(s: string) {
    '\r' !in s && '\n' !in s
  }

  lemma {:induction false} FeedTidy(p: string, s: string)
    requires Tidy(p)
    ensures Tidy(Feed(p, s).1) && forall i :: 0 <= i < |Feed(p, s).0| ==> Tidy(Feed(p, s).0[i])
    decreases s
  {
    if s != "" {
      FeedTidy(if s[0] == '\r' then p else if s[0] == '\n' then "" else p + [s[0]], s[1..]);
    }
  }

  /** What holds of the buffers between calls. */
  ghost predicate Valid(b: Buffers) {
    forall pid :: pid in b ==> Tidy(b[pid]) && |b[pid]| <= LIMIT
  }

  lemma {:induction false} WrapAt(line: Line, messages: seq<string>, i: nat)
    requires i < |messages|
    ensures |Wrap(line, messages)| == |messages| && Wrap(line, messages)[i] == line.(message := messages[i])
  {
    if i > 0 {
      WrapAt(line, messages[1..], i - 1);
    } else if |messages| > 1 {
      WrapAt(line, messages[1..], 0);
    } else {
      assert Wrap(line, messages[1..]) == [];
    }
  }

  /** No line holds a line end; pending text stays within the limit, and is empty right after a
      source that ends lines itself. */
  lemma StepKeeps(b: Buffers, e: Event)
    requires Valid(b) && (e.Print? ==> e.line.source.Source?)
    ensures Valid(Step(b, e).1) && forall i :: 0 <= i < |Step(b, e).0| ==> Tidy(Step(b, e).0[i].message)
    ensures e.Print? && e.line.source.autoNewLine ==> Pending(Step(b, e).1, e.line.pid) == ""
  {
    if e.Print? {
      var line := e.line;
      var p := Pending(b, line.pid);
      FeedTidy(p, line.message);
      var (messages, rest) := After(p, line.message, line.source.autoNewLine);
      if messages != [] {
        WrapAt(line, messages, 0);
      }
      forall i | 0 <= i < |Wrap(line, messages)| ensures Tidy(Wrap(line, messages)[i].message) {
        WrapAt(line, messages, i);
      }
    }
  }

  lemma {:induction false} RunKeeps(b: Buffers, events: seq<Event>)
    requires Valid(b) && Sourced(events)
    ensures Valid(Run(b, events).1) && forall i :: 0 <= i < |Run(b, events).0| ==> Tidy(Run(b, events).0[i].message)
    decreases events
  {
    if events != [] {
      StepKeeps(b, events[0]);
      RunKeeps(Step(b, events[0]).1, events[1..]);
    }
  }

  // ----- chunks -----

  /** Lines with their ends put back. */
  function Unlines(lines: seq<string>): string {
    if lines == [] then "" else lines[0] + "\n" + Unlines(lines[1..])
  }

  function Newlines(s: string): nat {
    if s == "" then 0 else (if s[0] == '\n' then 1 else 0) + Newlines(s[1..])
  }

  lemma {:induction false} NewlinesAppend(s: string, t: string)
    ensures Newlines(s + t) == Newlines(s) + Newlines(t)
  {
    if s == "" {
      assert s + t == t;
    } else {
      assert (s + t)[1..] == s[1..] + t;
      NewlinesAppend(s[1..], t);
    }
  }

  /** Feed cuts exactly at the newlines: with them put back, the text is as it was but for its
      carriage returns. */
  lemma {:induction false} FeedSplits(p: string, s: string)
    ensures Unlines(Feed(p, s).0) + Feed(p, s).1 == p + Without(s, {'\r'})
    ensures |Feed(p, s).0| == Newlines(s)
    decreases s
  {
    if s == "" {
    } else if s[0] == '\r' {
      FeedSplits(p, s[1..]);
    } else if s[0] == '\n' {
      FeedSplits("", s[1..]);
      var (lines, rest) := Feed("", s[1..]);
      assert ([p] + lines)[1..] == lines;
      assert p + "\n" + Unlines(lines) + rest == p + ("\n" + (Unlines(lines) + rest));
    } else {
      FeedSplits(p + [s[0]], s[1..]);
      assert p + [s[0]] + Without(s[1..], {'\r'}) == p + ([s[0]] + Without(s[1..], {'\r'}));
    }
  }

  /** Whether an event emits unfinished text of a process. */
  predicate Cuts(b: Buffers, e: Event, pid: nat)
    requires e.Print? ==> e.line.source.Source?
  {
    match e
    case Print(line) => line.pid == pid && Forced(Feed(Pending(b, pid), line.message).1, line.source.autoNewLine)
    case Exit(exited) => exited == pid && Pending(b, pid) != ""
  }

  function CutsIn(b: Buffers, events: seq<Event>, pid: nat): nat
    requires Sourced(events)
    decreases events
  {
    if events == [] then 0
    else (if Cuts(b, events[0], pid) then 1 else 0) + CutsIn(Step(b, events[0]).1, events[1..], pid)
  }

  lemma StepMessages(b: Buffers, e: Event, pid: nat)
    requires e.Print? ==> e.line.source.Source?
    ensures var (messages, rest) := Feed(Pending(b, pid), Printed(e, pid));
      && Messages(Step(b, e).0, pid) == (if Cuts(b, e, pid) then messages + [rest] else messages)
      && Pending(Step(b, e).1, pid) == (if Cuts(b, e, pid) then "" else rest)
  {
    match e
    case Print(line) =>
      WrapMessages(line, After(Pending(b, line.pid), line.message, line.source.autoNewLine).0, pid);
    case Exit(exited) =>
      if exited == pid && Pending(b, pid) != "" {
        assert Messages([Flushed(pid, b[pid])], pid) == [b[pid]];
      }
  }

  /** A process emits one line for each newline it printed and each cut of unfinished text; without
      cuts, the lines and the pending text are those of its whole text, however it was chunked. */
  lemma {:induction false} RunMessages(b: Buffers, events: seq<Event>, pid: nat)
    requires Sourced(events)
    ensures |Messages(Run(b, events).0, pid)| == Newlines(Input(events, pid)) + CutsIn(b, events, pid)
    ensures CutsIn(b, events, pid) == 0 ==>
      (Messages(Run(b, events).0, pid), Pending(Run(b, events).1, pid)) == Feed(Pending(b, pid), Input(events, pid))
    decreases events
  {
    if events != [] {
      var e, rest := events[0], events[1..];
      var (first, next) := Step(b, e);
      StepMessages(b, e, pid);
      FeedSplits(Pending(b, pid), Printed(e, pid));
      RunMessages(next, rest, pid);
      MessagesAppend(first, Run(next, rest).0, pid);
      NewlinesAppend(Printed(e, pid), Input(rest, pid));
      FeedAppend(Pending(b, pid), Printed(e, pid), Input(rest, pid));
    }
  }

  /** What one print gives: the lines it completes, and after them the unfinished text as a line of its
      own only if the source ends lines itself or the text is over 8192 characters.  Every line keeps
      the times, the process and the source of what was printed. */
  lemma PrintGives(b: Buffers, line: Line)
    requires line.source.Source?
    ensures var (messages, rest) := Feed(Pending(b, line.pid), line.message);
      var (lines, next) := Step(b, Print(line));
      var ended := rest != "" && (line.source.autoNewLine || |rest| > 8192);
      && Messages(lines, line.pid) == (if ended then messages + [rest] else messages)
      && Pending(next, line.pid) == (if ended then "" else rest)
      && |lines| == |Messages(lines, line.pid)|
      && (forall i :: 0 <= i < |lines| ==>
            lines[i].time == line.time && lines[i].systemTime == line.systemTime && lines[i].pid == line.pid
            && lines[i].processName == line.processName && lines[i].source == line.source)
      && (forall pid: nat :: pid != line.pid ==> Pending(next, pid) == Pending(b, pid))
  {
    var messages := After(Pending(b, line.pid), line.message, line.source.autoNewLine).0;
    WrapMessages(line, messages, line.pid);
    if messages != [] {
      WrapAt(line, messages, 0);
    }
    forall i | 0 <= i < |messages|
      ensures Wrap(line, messages)[i] == line.(message := messages[i])
    {
      WrapAt(line, messages, i);
    }
  }

  /** What an exit gives: the unfinished text, if there is any, as one line of that process. */
  lemma ExitGives(b: Buffers, exited: nat)
    ensures var (lines, next) := Step(b, Exit(exited));
      var p := Pending(b, exited);
      && (if p == "" then lines == [] else lines == [Line(0.0, 0, exited, "<flush>", p, Null)])
      && exited !in next
      && (forall pid: nat :: pid != exited ==> Pending(next, pid) == Pending(b, pid))
  {
  }

  /** The process's text so far, taken as a whole, is unfinished after a print only within 8192
      characters and from a source that does not end lines itself, and finished when it exits. */
  ghost predicate EndsItsLines(p: string, events: seq<Event>, pid: nat)
    requires Sourced(events)
  {
    forall i :: 0 <= i < |events| ==> EndsLine(p, events, pid, i)
  }

  ghost predicate EndsLine(p: string, events: seq<Event>, pid: nat, i: nat)
    requires Sourced(events) && i < |events|
  {
    var rest := Feed(p, Input(events[..i + 1], pid)).1;
    match events[i]
    case Print(line) => line.pid == pid ==> rest == "" || (!line.source.autoNewLine && |rest| <= 8192)
    case Exit(exited) => exited == pid ==> rest == ""
  }

  lemma EndsLineLater(p: string, events: seq<Event>, pid: nat, i: nat)
    requires Sourced(events) && i + 1 < |events|
    ensures EndsLine(p, events, pid, i + 1) <==> EndsLine(Feed(p, Printed(events[0], pid)).1, events[1..], pid, i)
  {
    assert events[..i + 2][1..] == events[1..][..i + 1];
    FeedAppend(p, Printed(events[0], pid), Input(events[1..][..i + 1], pid));
  }

  lemma EndsLineFirst(b: Buffers, events: seq<Event>, pid: nat)
    requires Sourced(events) && events != []
    ensures EndsLine(Pending(b, pid), events, pid, 0) <==> !Cuts(b, events[0], pid)
  {
    var e := events[0];
    assert events[..1] == [e];
    assert Input([e], pid) == Printed(e, pid) by {
      assert [e][1..] == [];
      assert Printed(e, pid) + "" == Printed(e, pid);
    }
  }

  lemma EndsLinesFromFirst(p: string, events: seq<Event>, pid: nat)
    requires Sourced(events) && events != []
    ensures EndsItsLines(p, events, pid)
      <==> EndsLine(p, events, pid, 0) && EndsItsLines(Feed(p, Printed(events[0], pid)).1, events[1..], pid)
  {
    var q, rest := Feed(p, Printed(events[0], pid)).1, events[1..];
    forall i: nat | 0 < i < |events|
      ensures EndsLine(p, events, pid, i) <==> EndsLine(q, rest, pid, i - 1)
    {
      EndsLineLater(p, events, pid, i - 1);
    }
    if EndsItsLines(p, events, pid) {
      forall i | 0 <= i < |rest|
        ensures EndsLine(q, rest, pid, i)
      {
        assert EndsLine(p, events, pid, i + 1);
      }
    }
  }

  lemma {:induction false} CutsIff(b: Buffers, events: seq<Event>, pid: nat)
    requires Sourced(events)
    ensures CutsIn(b, events, pid) == 0 <==> EndsItsLines(Pending(b, pid), events, pid)
    decreases events
  {
    if events != [] {
      var e, next := events[0], Step(b, events[0]).1;
      EndsLineFirst(b, events, pid);
      EndsLinesFromFirst(Pending(b, pid), events, pid);
      StepMessages(b, e, pid);
      CutsIff(next, events[1..], pid);
    }
  }

  /** Over every run a process's lines are exactly those its whole text completes if and only if it
      ends its lines; then the pending text is what that text leaves unfinished. */
  lemma LinesAreWholeIff(b: Buffers, events: seq<Event>, pid: nat)
    requires Sourced(events)
    ensures Messages(Run(b, events).0, pid) == Feed(Pending(b, pid), Input(events, pid)).0
      <==> EndsItsLines(Pending(b, pid), events, pid)
    ensures EndsItsLines(Pending(b, pid), events, pid) ==>
      Pending(Run(b, events).1, pid) == Feed(Pending(b, pid), Input(events, pid)).1
  {
    CutsIff(b, events, pid);
    LinesIff(b, events, pid);
    RunMessages(b, events, pid);
  }

  /** A process's lines are exactly its newline-terminated ones if and only if no call left it over
      the limit or came from a source that ends lines itself, and it did not exit mid-line. */
  lemma LinesIff(b: Buffers, events: seq<Event>, pid: nat)
    requires Sourced(events)
    ensures Messages(Run(b, events).0, pid) == Feed(Pending(b, pid), Input(events, pid)).0
      <==> CutsIn(b, events, pid) == 0
  {
    RunMessages(b, events, pid);
    FeedSplits(Pending(b, pid), Input(events, pid));
  }

  // ----- processes do not disturb one another -----

  function LinesOf(lines: seq<Line>, pid: nat): seq<Line> {
    if lines == [] then [] else (if lines[0].pid == pid then [lines[0]] else []) + LinesOf(lines[1..], pid)
  }

  predicate Concerns(e: Event, pid: nat) {
    if e.Print? then e.line.pid == pid else e.pid == pid
  }

  function Only(events: seq<Event>, pid: nat): (r: seq<Event>)
    ensures Sourced(events) ==> Sourced(r)
  {
    if events == [] then []
    else (if Concerns(events[0], pid) then [events[0]] else []) + Only(events[1..], pid)
  }

  lemma {:induction false} LinesOfAppend(a: seq<Line>, b: seq<Line>, pid: nat)
    ensures LinesOf(a + b, pid) == LinesOf(a, pid) + LinesOf(b, pid)
  {
    if a == [] {
      assert a + b == b;
    } else {
      assert (a + b)[1..] == a[1..] + b;
      LinesOfAppend(a[1..], b, pid);
      var first := if a[0].pid == pid then [a[0]] else [];
      assert first + (LinesOf(a[1..], pid) + LinesOf(b, pid)) == first + LinesOf(a[1..], pid) + LinesOf(b, pid);
    }
  }

  lemma {:induction false} LinesOfWrap(line: Line, messages: seq<string>, pid: nat)
    ensures LinesOf(Wrap(line, messages), pid) == if line.pid == pid then Wrap(line, messages) else []
  {
    if messages != [] {
      LinesOfWrap(line, messages[1..], pid);
      assert Wrap(line, messages)[1..] == Wrap(line, messages[1..]);
    }
  }

  lemma StepOnly(b: Buffers, c: Buffers, e: Event, pid: nat)
    requires (e.Print? ==> e.line.source.Source?) && Pending(b, pid) == Pending(c, pid)
    ensures if Concerns(e, pid)
            then LinesOf(Step(b, e).0, pid) == Step(c, e).0 && Pending(Step(b, e).1, pid) == Pending(Step(c, e).1, pid)
            else LinesOf(Step(b, e).0, pid) == [] && Pending(Step(b, e).1, pid) == Pending(b, pid)
  {
    match e
    case Print(line) =>
      LinesOfWrap(line, After(Pending(b, line.pid), line.message, line.source.autoNewLine).0, pid);
    case Exit(exited) =>
      if Pending(b, exited) != "" {
        assert LinesOf([Flushed(exited, b[exited])], pid) == if exited == pid then [Flushed(exited, b[exited])] else [];
      }
  }

  /** A process's lines, time stamps and all, are those of a run in which it is alone. */
  lemma {:induction false} ProcessesAreIndependent(b: Buffers, c: Buffers, events: seq<Event>, pid: nat)
    requires Sourced(events) && Pending(b, pid) == Pending(c, pid)
    ensures LinesOf(Run(b, events).0, pid) == Run(c, Only(events, pid)).0
    ensures Pending(Run(b, events).1, pid) == Pending(Run(c, Only(events, pid)).1, pid)
    decreases events
  {
    if events != [] {
      var e, rest := events[0], events[1..];
      var (first, next) := Step(b, e);
      StepOnly(b, c, e, pid);
      LinesOfAppend(first, Run(next, rest).0, pid);
      if Concerns(e, pid) {
        assert Only(events, pid)[1..] == Only(rest, pid);
        ProcessesAreIndependent(next, Step(c, e).1, rest, pid);
      } else {
        ProcessesAreIndependent(next, c, rest, pid);
        assert Only(events, pid) == Only(rest, pid);
        assert [] + LinesOf(Run(next, rest).0, pid) == LinesOf(Run(next, rest).0, pid);
      }
    }
  }
}
