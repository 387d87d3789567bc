/** The filtered view of the log (CLogView in DebugViewpp/LogView.cpp, without its drawing).

    The view keeps a list of the shown lines up to date one message at a time; ApplyFilters computes
    it again from the log.  Shown is the recomputation, and InStep says that the view agrees with it,
    Once filters included. */
module LogViews {
  import Arithmetic
  import opened Filters

  datatype Message = Message(processName: string, text: string)

  datatype LogFilter = LogFilter(message: seq<Filter>, process: seq<Filter>)

  datatype LogLine = LogLine(bookmark: bool, line: int)

  // ----- verdicts on messages -----

  /** CLogView::IsIncluded: the process filters decide first, and only a process they let through
      is shown to the message filters. */
  ghost function Decide(f: LogFilter, m: Message): (bool, LogFilter) {
    var process := Updated(f.process, m.processName);
    if !Included(f.process, m.processName) then (false, f.(process := process))
    else (Included(f.message, m.text), LogFilter(Updated(f.message, m.text), process))
  }

  function ResetBoth(f: LogFilter): LogFilter {
    LogFilter(Reset(f.message), Reset(f.process))
  }

  function HushBoth(f: LogFilter): LogFilter {
    LogFilter(Hush(f.message), Hush(f.process))
  }

  /** The lines shown of log[first..count], and the filters after them, starting from f. */
  ghost function Shown(log: seq<Message>, first: nat, count: nat, f: LogFilter): (seq<int>, LogFilter)
    requires count <= |log|
  {
    if count <= first then ([], f)
    else
      var (lines, g) := Shown(log, first, count - 1, f);
      var (included, g') := Decide(g, log[count - 1]);
      (if included then lines + [count - 1] else lines, g')
  }

  ghost predicate Increasing(lines: seq<int>) {
    forall i, j :: 0 <= i < j < |lines| ==> lines[i] < lines[j]
  }

  function LineNumbers(lines: seq<LogLine>): (r: seq<int>)
    ensures |r| == |lines|
  {
    seq(|lines|, i requires 0 <= i < |lines| => lines[i].line)
  }

  // ----- facts about Shown -----

  lemma {:induction false} ShownIncreasing(log: seq<Message>, first: nat, count: nat, f: LogFilter)
    requires count <= |log|
    ensures var lines := Shown(log, first, count, f).0;
      Increasing(lines) && forall i :: 0 <= i < |lines| ==> first <= lines[i] < count
  {
    if count > first {
      ShownIncreasing(log, first, count - 1, f);
      AppendIncreasing(Shown(log, first, count - 1, f).0, count - 1);
    }
  }

  /** What a verdict is made of: a message is shown if both filter lists include it, the message filters
      being asked, and marked, only about messages of a process that is included. */
  lemma VerdictOfBoth(f: LogFilter, m: Message)
    ensures var (included, g) := Decide(f, m);
      && (included <==> Included(f.process, m.processName) && Included(f.message, m.text))
      && g.process == Updated(f.process, m.processName)
      && g.message == (if Included(f.process, m.processName) then Updated(f.message, m.text) else f.message)
  {
  }

  /** Line i is shown exactly if it is in range and both lists, as the lines before left them, include it. */
  lemma {:induction false} ShownIff(log: seq<Message>, first: nat, count: nat, f: LogFilter, i: int)
    requires count <= |log|
    ensures i in Shown(log, first, count, f).0 <==>
      && first <= i < count
      && var g := Shown(log, first, i, f).1;
         Included(g.process, log[i].processName) && Included(g.message, log[i].text)
  {
    if count > first {
      ShownIff(log, first, count - 1, f, i);
      VerdictOfBoth(Shown(log, first, count - 1, f).1, log[count - 1]);
    }
  }

  /** The process names of the lines from first on. */
  function Names(log: seq<Message>, first: nat, count: nat): seq<string>
    requires count <= |log|
  {
    if count <= first then [] else Names(log, first, count - 1) + [log[count - 1].processName]
  }

  /** The texts of those lines whose process the process filters include. */
  ghost function Asked(log: seq<Message>, first: nat, count: nat, process: seq<Filter>): seq<string>
    requires count <= |log|
  {
    if count <= first then []
    else
      var before := Asked(log, first, count - 1, process);
      if Included(Filters.After(process, Names(log, first, count - 1)), log[count - 1].processName)
      then before + [log[count - 1].text] else before
  }

  /** The lines before have left the process filters as all their names do, and the message filters as
      the texts of the included processes do. */
  lemma {:induction false} FiltersLeft(log: seq<Message>, first: nat, count: nat, f: LogFilter)
    requires count <= |log|
    ensures var g := Shown(log, first, count, f).1;
      && g.process == Filters.After(f.process, Names(log, first, count))
      && g.message == Filters.After(f.message, Asked(log, first, count, f.process))
  {
    if count > first {
      var names, texts := Names(log, first, count - 1), Asked(log, first, count - 1, f.process);
      var name, text := log[count - 1].processName, log[count - 1].text;
      FiltersLeft(log, first, count - 1, f);
      VerdictOfBoth(Shown(log, first, count - 1, f).1, log[count - 1]);
      assert (names + [name])[..|names|] == names;
      assert (texts + [text])[..|texts|] == texts;
    }
  }

  lemma AppendIncreasing(lines: seq<int>, line: int)
    requires Increasing(lines) && forall i :: 0 <= i < |lines| ==> lines[i] < line
    ensures Increasing(lines + [line])
  {
  }

  lemma {:induction false} ShownOfPrefix(log: seq<Message>, more: seq<Message>, first: nat, count: nat, f: LogFilter)
    requires count <= |log|
    ensures Shown(log + more, first, count, f) == Shown(log, first, count, f)
  {
    if count > first {
      ShownOfPrefix(log, more, first, count - 1, f);
      assert (log + more)[count - 1] == log[count - 1];
    }
  }

  lemma HushDecides(f: LogFilter, m: Message)
    ensures Decide(HushBoth(f), m) == (Decide(f, m).0, HushBoth(Decide(f, m).1))
  {
    HushIsNeutral(f.process, m.processName);
    HushIsNeutral(f.message, m.text);
  }

  lemma {:induction false} HushShows(log: seq<Message>, first: nat, count: nat, f: LogFilter)
    requires count <= |log|
    ensures Shown(log, first, count, HushBoth(f)).0 == Shown(log, first, count, f).0
    ensures Shown(log, first, count, HushBoth(f)).1 == HushBoth(Shown(log, first, count, f).1)
  {
    if count > first {
      HushShows(log, first, count - 1, f);
      HushDecides(Shown(log, first, count - 1, f).1, log[count - 1]);
    }
  }

  lemma ResetDecided(f: LogFilter, m: Message)
    ensures ResetBoth(Decide(f, m).1) == ResetBoth(f)
  {
    ResetForgets(f.process, m.processName);
    ResetForgets(f.message, m.text);
  }

  lemma {:induction false} ResetShown(log: seq<Message>, first: nat, count: nat, f: LogFilter)
    requires count <= |log|
    ensures ResetBoth(Shown(log, first, count, f).1) == ResetBoth(f)
  {
    if count > first {
      ResetShown(log, first, count - 1, f);
      ResetDecided(Shown(log, first, count - 1, f).1, log[count - 1]);
    }
  }

  lemma ResetTwice(f: LogFilter)
    ensures ResetBoth(ResetBoth(f)) == ResetBoth(f)
    ensures ResetBoth(HushBoth(f)) == HushBoth(ResetBoth(f))
    ensures HushBoth(HushBoth(f)) == HushBoth(f)
  {
    assert Reset(Reset(f.message)) == Reset(f.message) && Reset(Reset(f.process)) == Reset(f.process);
    assert Hush(Hush(f.message)) == Hush(f.message) && Hush(Hush(f.process)) == Hush(f.process);
    ResetForgets(f.message, "");
    ResetForgets(f.process, "");
  }

  // ----- the view agrees with the recomputation -----

  /** The incremental list is what ApplyFilters would compute now, and so is the state of every filter
      except for which Track filters are enabled. */
  ghost predicate InStep(log: seq<Message>, first: nat, lines: seq<int>, f: LogFilter) {
    var (shown, g) := Shown(log, first, |log|, ResetBoth(f));
    lines == shown && HushBoth(f) == HushBoth(g)
  }

  ghost predicate NoClearFilter(f: LogFilter) {
    forall i :: 0 <= i < |f.message| ==> !(f.message[i].enable && f.message[i].filterType == FilterType.Clear)
  }

  /** A verdict on the newest message keeps the view in step. */
  lemma DecidingKeepsInStep(log: seq<Message>, m: Message, first: nat, lines: seq<int>, f: LogFilter)
    requires first <= |log| && InStep(log, first, lines, f)
    ensures var (included, f') := Decide(f, m);
      InStep(log + [m], first, if included then lines + [|log|] else lines, f')
  {
    ResetDecided(f, m);
    ShownNext(log, m, first, ResetBoth(f));
    SameVerdict(f, Shown(log, first, |log|, ResetBoth(f)).1, m);
  }

  lemma ShownNext(log: seq<Message>, m: Message, first: nat, start: LogFilter)
    requires first <= |log|
    ensures var (lines, g) := Shown(log, first, |log|, start);
      Shown(log + [m], first, |log| + 1, start)
        == (if Decide(g, m).0 then lines + [|log|] else lines, Decide(g, m).1)
  {
    ShownOfPrefix(log, [m], first, |log|, start);
    assert (log + [m])[|log|] == m;
  }

  /** Filters that differ only in Track filters decide alike. */
  lemma SameVerdict(f: LogFilter, g: LogFilter, m: Message)
    requires HushBoth(f) == HushBoth(g)
    ensures Decide(f, m).0 == Decide(g, m).0 && HushBoth(Decide(f, m).1) == HushBoth(Decide(g, m).1)
  {
    HushDecides(f, m);
    HushDecides(g, m);
  }

  /** Disabling Track filters in between does not matter. */
  lemma HushKeepsInStep(log: seq<Message>, first: nat, lines: seq<int>, f: LogFilter)
    requires InStep(log, first, lines, f)
    ensures InStep(log, first, lines, HushBoth(f))
  {
    ResetTwice(f);
    HushShows(log, first, |log|, ResetBoth(f));
    ResetTwice(Shown(log, first, |log|, ResetBoth(f)).1);
  }

  /** Recomputing, or clearing, starts in step. */
  lemma RecomputedIsInStep(log: seq<Message>, first: nat, f: LogFilter)
    ensures var (lines, g) := Shown(log, first, |log|, ResetBoth(f)); InStep(log, first, lines, g)
    ensures InStep(log, |log|, [], ResetBoth(f))
  {
    ResetShown(log, first, |log|, ResetBoth(f));
    ResetTwice(f);
  }

  // ----- where the focus goes -----

  /** item is the last line not after focusLine, or -1 if there is none. */
  ghost predicate IsFocusItem(lines: seq<int>, focusLine: int, item: int) {
    && -1 <= item < |lines|
    && (forall i :: 0 <= i <= item ==> lines[i] <= focusLine)
    && (forall i :: item < i < |lines| ==> focusLine < lines[i])
  }

  lemma FocusItemUnique(lines: seq<int>, focusLine: int, a: int)
    requires IsFocusItem(lines, focusLine, a)
    ensures forall b :: IsFocusItem(lines, focusLine, b) ==> b == a
  {
    forall b | -1 <= b < |lines| && b != a
      ensures !IsFocusItem(lines, focusLine, b)
    {
      if a < b {
        assert lines[b] > focusLine;
      } else {
        assert lines[a] <= focusLine;
      }
    }
  }

  /** One more line shown. */
  lemma FocusStep(lines: seq<int>, focusLine: int, item: int, line: int)
    requires IsFocusItem(lines, focusLine, item) && forall x :: x in lines ==> x < line
    ensures IsFocusItem(lines + [line], focusLine, if line <= focusLine then |lines| else item)
  {
    assert forall i :: 0 <= i < |lines| ==> lines[i] in lines;
  }

  // ----- which bookmarks survive -----

  function Bookmarks(lines: seq<LogLine>): seq<int> {
    if lines == [] then []
    else
      var n := |lines| - 1;
      Bookmarks(lines[..n]) + if lines[n].bookmark then [lines[n].line] else []
  }

  lemma {:induction false} BookmarksAreLines(lines: seq<LogLine>)
    requires Increasing(LineNumbers(lines))
    ensures Increasing(Bookmarks(lines))
    ensures forall i :: 0 <= i < |Bookmarks(lines)| ==> lines != [] && Bookmarks(lines)[i] <= lines[|lines| - 1].line
  {
    if lines != [] {
      var n := |lines| - 1;
      var all := LineNumbers(lines);
      assert LineNumbers(lines[..n]) == all[..n];
      BookmarksAreLines(lines[..n]);
      assert n > 0 ==> all[n - 1] < all[n];
    }
  }

  /** The number of old bookmarks before the first that is not shown any more. */
  function Surviving(bookmarks: seq<int>, shown: seq<int>): (n: nat)
    ensures n <= |bookmarks|
    ensures forall i :: 0 <= i < n ==> bookmarks[i] in shown
    ensures n < |bookmarks| ==> bookmarks[n] !in shown
  {
    if bookmarks == [] || bookmarks[0] !in shown then 0 else 1 + Surviving(bookmarks[1..], shown)
  }

  /** A bookmark whose line is still shown is lost exactly when an earlier one is hidden. */
  lemma BookmarkSurvivesIff(bookmarks: seq<int>, shown: seq<int>, i: nat)
    requires Increasing(bookmarks) && i < |bookmarks|
    ensures bookmarks[i] in bookmarks[..Surviving(bookmarks, shown)] <==>
      forall j :: 0 <= j <= i ==> bookmarks[j] in shown
  {
    var n := Surviving(bookmarks, shown);
    if i < n {
      assert bookmarks[..n][i] == bookmarks[i];
    } else {
      assert forall j :: 0 <= j < n ==> bookmarks[j] != bookmarks[i];
    }
  }

  /** The first k bookmarks are among the lines scanned so far, and the next is not. */
  ghost predicate Carried(bookmarks: seq<int>, shown: seq<int>, k: nat) {
    && k <= |bookmarks|
    && (forall j :: 0 <= j < k ==> bookmarks[j] in shown)
    && (k < |bookmarks| ==> bookmarks[k] !in shown)
  }

  lemma CarriedStep(bookmarks: seq<int>, shown: seq<int>, k: nat, line: int)
    requires Increasing(bookmarks) && Carried(bookmarks, shown, k)
    requires forall x :: x in shown ==> x < line
    ensures Carried(bookmarks, shown + [line], if k < |bookmarks| && bookmarks[k] == line then k + 1 else k)
  {
  }

  lemma CarriedIsSurviving(bookmarks: seq<int>, shown: seq<int>, k: nat)
    ensures Carried(bookmarks, shown, k) ==> k == Surviving(bookmarks, shown)
  {
    var n := Surviving(bookmarks, shown);
    if k < n {
      assert bookmarks[k] in shown;
    } else if n < k <= |bookmarks| {
      assert bookmarks[n] !in shown;
    }
  }

  // ----- the scan of ApplyFilters -----

  /** The variables of the scan: the list, the filters, the next old bookmark and the focused item. */
  datatype Progress = Progress(out: seq<LogLine>, filter: LogFilter, next: nat, focus: int)

  ghost function ScanLine(log: seq<Message>, line: nat, bookmarks: seq<int>, focusLine: int, p: Progress): Progress
    requires line < |log|
  {
    var (included, g) := Decide(p.filter, log[line]);
    if !included then p.(filter := g)
    else
      var mark := p.next < |bookmarks| && bookmarks[p.next] == line;
      Progress(p.out + [LogLine(mark, line)], g, if mark then p.next + 1 else p.next,
               if line <= focusLine then |p.out| else p.focus)
  }

  /** The scan when it has come to line. */
  ghost function ScanTo(log: seq<Message>, first: nat, line: nat, start: LogFilter, bookmarks: seq<int>,
      focusLine: int): Progress
    decreases line
  {
    if line <= first || line > |log| then Progress([], start, 0, -1)
    else ScanLine(log, line - 1, bookmarks, focusLine, ScanTo(log, first, line - 1, start, bookmarks, focusLine))
  }

  /** What the variables mean. */
  ghost predicate Scanned(log: seq<Message>, first: nat, line: nat, start: LogFilter, bookmarks: seq<int>,
      focusLine: int, p: Progress)
  {
    && line <= |log|
    && (LineNumbers(p.out), p.filter) == Shown(log, first, line, start)
    && Carried(bookmarks, LineNumbers(p.out), p.next) && Bookmarks(p.out) == bookmarks[..p.next]
    && IsFocusItem(LineNumbers(p.out), focusLine, p.focus)
  }

  lemma AppendLine(out: seq<LogLine>, mark: bool, line: int)
    ensures LineNumbers(out + [LogLine(mark, line)]) == LineNumbers(out) + [line]
    ensures Bookmarks(out + [LogLine(mark, line)]) == Bookmarks(out) + if mark then [line] else []
  {
    assert (out + [LogLine(mark, line)])[..|out|] == out;
  }

  lemma ScanShows(log: seq<Message>, first: nat, line: nat, start: LogFilter, bookmarks: seq<int>,
      focusLine: int, p: Progress)
    requires Scanned(log, first, line, start, bookmarks, focusLine, p)
    requires first <= line < |log| && Increasing(bookmarks) && Decide(p.filter, log[line]).0
    ensures Scanned(log, first, line + 1, start, bookmarks, focusLine, ScanLine(log, line, bookmarks, focusLine, p))
  {
    var shown, mark := LineNumbers(p.out), p.next < |bookmarks| && bookmarks[p.next] == line;
    ShownIncreasing(log, first, line, start);
    AppendLine(p.out, mark, line);
    CarriedStep(bookmarks, shown, p.next, line);
    FocusStep(shown, focusLine, p.focus, line);
  }

  lemma ScanHides(log: seq<Message>, first: nat, line: nat, start: LogFilter, bookmarks: seq<int>,
      focusLine: int, p: Progress)
    requires Scanned(log, first, line, start, bookmarks, focusLine, p)
    requires first <= line < |log| && !Decide(p.filter, log[line]).0
    ensures Scanned(log, first, line + 1, start, bookmarks, focusLine, ScanLine(log, line, bookmarks, focusLine, p))
  {
  }

  lemma ScanStarts(log: seq<Message>, first: nat, line: nat, start: LogFilter, bookmarks: seq<int>, focusLine: int)
    requires line <= |log| && line <= first
    ensures Scanned(log, first, line, start, bookmarks, focusLine, Progress([], start, 0, -1))
  {
    assert LineNumbers([]) == [];
  }

  lemma ScanStep(log: seq<Message>, first: nat, line: nat, start: LogFilter, bookmarks: seq<int>,
      focusLine: int, p: Progress)
    requires Scanned(log, first, line, start, bookmarks, focusLine, p)
    requires first <= line < |log| && Increasing(bookmarks)
    ensures Scanned(log, first, line + 1, start, bookmarks, focusLine, ScanLine(log, line, bookmarks, focusLine, p))
  {
    if Decide(p.filter, log[line]).0 {
      ScanShows(log, first, line, start, bookmarks, focusLine, p);
    } else {
      ScanHides(log, first, line, start, bookmarks, focusLine, p);
    }
  }

  lemma {:induction false} ScanToIsScanned(log: seq<Message>, first: nat, line: nat, start: LogFilter,
      bookmarks: seq<int>, focusLine: int, p: Progress)
    requires line <= |log| && Increasing(bookmarks)
    requires p == ScanTo(log, first, line, start, bookmarks, focusLine)
    ensures Scanned(log, first, line, start, bookmarks, focusLine, p)
  {
    if line <= first {
      ScanStarts(log, first, line, start, bookmarks, focusLine);
    } else {
      var q := ScanTo(log, first, line - 1, start, bookmarks, focusLine);
      ScanToIsScanned(log, first, line - 1, start, bookmarks, focusLine, q);
      ScanStep(log, first, line - 1, start, bookmarks, focusLine, q);
    }
  }

  /** What the finished scan means for the view. */
  lemma ScanDone(log: seq<Message>, first: nat, before: LogFilter, bookmarks: seq<int>, focusLine: int)
    requires Increasing(bookmarks)
    ensures var p := ScanTo(log, first, |log|, ResetBoth(before), bookmarks, focusLine);
      var shown := LineNumbers(p.out);
      && (shown, p.filter) == Shown(log, first, |log|, ResetBoth(before))
      && InStep(log, first, shown, p.filter) && InStep(log, first, shown, HushBoth(p.filter))
      && Bookmarks(p.out) == bookmarks[..Surviving(bookmarks, shown)]
      && IsFocusItem(shown, focusLine, p.focus)
  {
    var p := ScanTo(log, first, |log|, ResetBoth(before), bookmarks, focusLine);
    ScanToIsScanned(log, first, |log|, ResetBoth(before), bookmarks, focusLine, p);
    CarriedIsSurviving(bookmarks, LineNumbers(p.out), p.next);
    RecomputedIsInStep(log, first, before);
    HushKeepsInStep(log, first, LineNumbers(p.out), p.filter);
  }

  /** CLogView::IsIncluded, with the filters it changes passed through. */
  method IsMessageIncluded(f: LogFilter, m: Message) returns (included: bool, updated: LogFilter)
    ensures (included, updated) == Decide(f, m)
  {
    var filters;
    included, filters := Filters.IsIncluded(f.process, m.processName);
    updated := f.(process := filters);
    if included {
      included, filters := Filters.IsIncluded(f.message, m.text);
      updated := updated.(message := filters);
    }
  }

  /** The loop of ApplyFilters over the log. */
  method Scan(log: seq<Message>, first: nat, start: LogFilter, bookmarks: seq<int>, focusLine: int)
      returns (out: seq<LogLine>, f: LogFilter, focus: int)
    ensures var p := ScanTo(log, first, |log|, start, bookmarks, focusLine);
      out == p.out && f == p.filter && focus == p.focus
  {
    var itBookmark, line := 0, first;
    out, f, focus := [], start, -1;
    while line < |log|
      invariant first <= line && (line <= |log| || line == first)
      invariant Progress(out, f, itBookmark, focus) == ScanTo(log, first, line, start, bookmarks, focusLine)
    {
      var included, g := IsMessageIncluded(f, log[line]);
      if included {
        var bookmark := itBookmark < |bookmarks| && bookmarks[itBookmark] == line;
        focus := if line <= focusLine then |out| else focus;
        itBookmark := if bookmark then itBookmark + 1 else itBookmark;
        out := out + [LogLine(bookmark, line)];
      }
      f := g;
      line := line + 1;
    }
  }

  // ----- one message, and every run -----

  /** The lines left when those before beginIndex are erased from the front. */
  function Below(lines: seq<int>, beginIndex: int): seq<int> {
    if lines != [] && lines[0] < beginIndex then Below(lines[1..], beginIndex) else lines
  }

  ghost predicate Clears(f: LogFilter, m: Message) {
    AnyHits(f.message, FilterType.Clear, m.text)
  }

  /** The filters that decide about a message: fresh ones if it clears the view first. */
  ghost function FilterFor(f: LogFilter, m: Message): LogFilter {
    if Clears(f, m) then ResetBoth(f) else f
  }

  /** The view's lines after a message was logged as the given line. */
  ghost function Added(lines: seq<int>, f: LogFilter, beginIndex: int, line: nat, m: Message): seq<int> {
    var base := if Clears(f, m) then [] else lines;
    if Decide(FilterFor(f, m), m).0 then Below(base, beginIndex) + [line] else base
  }

  lemma NoClearStays(f: LogFilter, m: Message)
    requires NoClearFilter(f)
    ensures !Clears(f, m) && NoClearFilter(Decide(f, m).1) && NoClearFilter(HushBoth(f))
  {
    var g, h := Decide(f, m).1.message, HushBoth(f).message;
    assert |g| == |f.message| && |h| == |f.message|;
    assert forall i :: 0 <= i < |g| ==>
        g[i].enable == f.message[i].enable && g[i].filterType == f.message[i].filterType;
    assert forall i :: 0 <= i < |h| ==>
        (h[i].enable ==> f.message[i].enable) && h[i].filterType == f.message[i].filterType;
  }

  /** Without Clear filters, adding a message keeps the view in step: nothing is erased, since the
      log begins no later than the view. */
  lemma AddKeepsInStep(log: seq<Message>, m: Message, first: nat, lines: seq<int>, f: LogFilter, beginIndex: int)
    requires first <= |log| && beginIndex <= first && NoClearFilter(f) && InStep(log, first, lines, f)
    ensures InStep(log + [m], first, Added(lines, f, beginIndex, |log|, m), Decide(FilterFor(f, m), m).1)
  {
    NoClearStays(f, m);
    ShownIncreasing(log, first, |log|, ResetBoth(f));
    DecidingKeepsInStep(log, m, first, lines, f);
  }

  /** The message, decided about by fresh filters, marks a Once filter: an enabled one found in a text
      that is looked at and not excluded. */
  ghost predicate Marks(f: LogFilter, m: Message) {
    || (!AnyHits(f.process, Exclude, m.processName) && AnyHits(f.process, Once, m.processName))
    || (Included(Reset(f.process), m.processName)
        && !AnyHits(f.message, Exclude, m.text) && AnyHits(f.message, Once, m.text))
  }

  /** Deciding with fresh filters leaves them fresh exactly if nothing is marked. */
  lemma FreshIff(filters: seq<Filter>, text: string)
    ensures Hush(Updated(Reset(filters), text)) == Hush(Reset(filters))
      <==> AnyHits(filters, Exclude, text) || !AnyHits(filters, Once, text)
  {
    var reset := Reset(filters);
    var updated := Updated(reset, text);
    assert forall i :: 0 <= i < |filters| ==> reset[i] == Fresh(filters[i]);
    assert forall i, t :: 0 <= i < |filters| ==> Hits(reset[i], t, text) == Hits(filters[i], t, text);
    assert AnyHits(reset, Exclude, text) == AnyHits(filters, Exclude, text);
    if !AnyHits(filters, Exclude, text) {
      assert forall i :: 0 <= i < |filters| ==> updated[i] == Touched(reset[i], text);
      if AnyHits(filters, Once, text) {
        var i :| 0 <= i < |filters| && Hits(filters[i], Once, text);
        assert Hits(reset[i], Once, text) && !reset[i].matched;
        assert Hush(updated)[i].matched && !Hush(reset)[i].matched;
      } else {
        assert forall i :: 0 <= i < |filters| ==> updated[i] == reset[i];
        assert updated == reset;
      }
    }
  }

  lemma MarksIff(f: LogFilter, m: Message)
    ensures HushBoth(Decide(ResetBoth(f), m).1) == HushBoth(ResetBoth(f)) <==> !Marks(f, m)
  {
    FreshIff(f.process, m.processName);
    FreshIff(f.message, m.text);
  }

  /** After a Clear filter the view is in step exactly if the clearing line is filtered out and marks
      no Once filter: a shown one stays in the view, although it lies before the line recomputation
      now starts from, and a mark it left decides about lines recomputation asks fresh filters about. */
  lemma ClearingLineStays(log: seq<Message>, m: Message, lines: seq<int>, f: LogFilter, beginIndex: int)
    requires Clears(f, m)
    ensures var g := Decide(FilterFor(f, m), m);
      InStep(log + [m], |log| + 1, Added(lines, f, beginIndex, |log|, m), g.1) <==> !g.0 && !Marks(f, m)
  {
    var g := Decide(ResetBoth(f), m);
    ResetDecided(ResetBoth(f), m);
    ResetTwice(f);
    MarksIff(f, m);
    assert Shown(log + [m], |log| + 1, |log| + 1, ResetBoth(g.1)) == ([], ResetBoth(f));
  }

  /** The entries themselves, bookmarks and all. */
  function Erased(lines: seq<LogLine>, beginIndex: int): seq<LogLine> {
    if lines != [] && lines[0].line < beginIndex then Erased(lines[1..], beginIndex) else lines
  }

  lemma {:induction false} ErasedNumbers(lines: seq<LogLine>, beginIndex: int)
    ensures LineNumbers(Erased(lines, beginIndex)) == Below(LineNumbers(lines), beginIndex)
  {
    if lines != [] && lines[0].line < beginIndex {
      ErasedNumbers(lines[1..], beginIndex);
      assert LineNumbers(lines)[1..] == LineNumbers(lines[1..]);
    }
  }

  /** Erases the entries before the log's first line. */
  method EraseBelow(lines: seq<LogLine>, beginIndex: int) returns (kept: seq<LogLine>)
    ensures kept == Erased(lines, beginIndex)
  {
    var n := 0;
    while n < |lines| && lines[n].line < beginIndex
      invariant 0 <= n <= |lines|
      invariant Erased(lines, beginIndex) == Erased(lines[n..], beginIndex)
    {
      assert lines[n..][1..] == lines[n + 1..];
      n := n + 1;
    }
    kept := lines[n..];
  }

  /** Exactly the lines from beginIndex on are kept. */
  lemma {:induction false} BelowIff(lines: seq<int>, beginIndex: int, line: int)
    requires Increasing(lines)
    ensures line in Below(lines, beginIndex) <==> line in lines && line >= beginIndex
  {
    if lines != [] {
      assert forall i :: 0 < i < |lines| ==> lines[0] < lines[i];
      if lines[0] < beginIndex {
        BelowIff(lines[1..], beginIndex, line);
        assert lines == [lines[0]] + lines[1..];
      }
    }
  }

  /** Whether the view scrolls down when a message is decided about. */
  ghost predicate Scrolling(f: LogFilter, m: Message, autoScrollDown: bool, autoScrollStop: bool) {
    autoScrollDown || (Clears(f, m) && autoScrollStop)
  }

  datatype View = View(log: seq<Message>, first: nat, lines: seq<int>, filter: LogFilter)

  /** A message is logged and added to the view, scrolling stops at a Stop filter, the user sets other
      filters, or clears the view. */
  datatype Event = Arrive(message: Message) | StopScrolling | SetFilters(filter: LogFilter) | ClearView

  ghost function Next(w: View, e: Event): View {
    match e
    case Arrive(m) =>
      View(w.log + [m], if Clears(w.filter, m) then |w.log| + 1 else w.first,
           Added(w.lines, w.filter, 0, |w.log|, m), Decide(FilterFor(w.filter, m), m).1)
    case StopScrolling => w.(filter := HushBoth(w.filter))
    case SetFilters(f) =>
      var (lines, g) := Shown(w.log, w.first, |w.log|, ResetBoth(f));
      w.(lines := lines, filter := g)
    case ClearView => View(w.log, |w.log|, [], ResetBoth(w.filter))
  }

  ghost function After(v: View, events: seq<Event>): View {
    if events == [] then v else Next(After(v, events[..|events| - 1]), events[|events| - 1])
  }

  ghost predicate NoClearSet(events: seq<Event>) {
    forall i :: 0 <= i < |events| && events[i].SetFilters? ==> NoClearFilter(events[i].filter)
  }

  /** However long messages, scroll stops, filter changes and clearings by the user keep coming, the
      view shows what recomputing would show, in increasing order of line. */
  lemma {:induction false} RunsStayInStep(v: View, events: seq<Event>)
    requires v.first <= |v.log| && NoClearFilter(v.filter) && InStep(v.log, v.first, v.lines, v.filter)
    requires NoClearSet(events)
    ensures var w := After(v, events);
      && w.first <= |w.log| && NoClearFilter(w.filter)
      && InStep(w.log, w.first, w.lines, w.filter)
      && Increasing(w.lines)
    ensures ClearView !in events ==> After(v, events).first == v.first
  {
    if events != [] {
      var n := |events| - 1;
      RunsStayInStep(v, events[..n]);
      NextStaysInStep(After(v, events[..n]), events[n]);
      NoClearStays(After(v, events[..n]).filter, Message("", ""));
    }
    var w := After(v, events);
    ShownIncreasing(w.log, w.first, |w.log|, ResetBoth(w.filter));
  }

  lemma NextStaysInStep(w: View, e: Event)
    requires w.first <= |w.log| && NoClearFilter(w.filter) && InStep(w.log, w.first, w.lines, w.filter)
    requires e.SetFilters? ==> NoClearFilter(e.filter)
    ensures var x := Next(w, e);
      && x.first <= |x.log| && NoClearFilter(x.filter) && InStep(x.log, x.first, x.lines, x.filter)
      && (e != ClearView ==> x.first == w.first)
  {
    match e
    case Arrive(m) =>
      AddKeepsInStep(w.log, m, w.first, w.lines, w.filter, 0);
      NoClearStays(w.filter, m);
    case StopScrolling =>
      HushKeepsInStep(w.log, w.first, w.lines, w.filter);
      NoClearStays(w.filter, Message("", ""));
    case SetFilters(f) =>
      RecomputedIsInStep(w.log, w.first, f);
      ShownNoClear(w.log, w.first, |w.log|, ResetBoth(f));
    case ClearView => RecomputedIsInStep(w.log, w.first, w.filter);
  }

  lemma {:induction false} ShownNoClear(log: seq<Message>, first: nat, count: nat, f: LogFilter)
    requires count <= |log| && NoClearFilter(f)
    ensures NoClearFilter(Shown(log, first, count, f).1)
  {
    if count > first {
      ShownNoClear(log, first, count - 1, f);
      NoClearStays(Shown(log, first, count - 1, f).1, log[count - 1]);
    }
  }

  // ----- runs with Clear filters -----

  /** Since the view last started anew: the lines it started with, and the filters it went on with. */
  datatype Origin = Origin(head: seq<int>, filter: LogFilter)

  /** What the clearing line makes of the view. */
  ghost function Cleared(w: View, m: Message): Origin {
    var (shown, g) := Decide(ResetBoth(w.filter), m);
    Origin(if shown then [|w.log|] else [], g)
  }

  ghost function NextOrigin(o: Origin, w: View, e: Event): Origin {
    match e
    case Arrive(m) =>
      if Clears(w.filter, m) then Cleared(w, m) else o
    case StopScrolling => o
    case SetFilters(f) => Origin([], ResetBoth(f))
    case ClearView => Origin([], ResetBoth(w.filter))
  }

  ghost function OriginAfter(o: Origin, v: View, events: seq<Event>): Origin {
    if events == [] then o
    else
      var n := |events| - 1;
      NextOrigin(OriginAfter(o, v, events[..n]), After(v, events[..n]), events[n])
  }

  /** The view is its first lines, then what its filters let through of the log from its first line on. */
  ghost predicate Since(v: View, o: Origin) {
    var (shown, g) := Shown(v.log, v.first, |v.log|, o.filter);
    v.lines == o.head + shown && HushBoth(v.filter) == HushBoth(g)
  }

  lemma NothingBelow(lines: seq<int>)
    requires forall i :: 0 <= i < |lines| ==> 0 <= lines[i]
    ensures Below(lines, 0) == lines
  {
  }

  lemma ArriveKeepsSince(w: View, m: Message, o: Origin)
    requires w.first <= |w.log| && Since(w, o) && !Clears(w.filter, m)
    requires forall i :: 0 <= i < |w.lines| ==> 0 <= w.lines[i]
    ensures Since(Next(w, Arrive(m)), o)
  {
    var (shown, g) := Shown(w.log, w.first, |w.log|, o.filter);
    ShownNext(w.log, m, w.first, o.filter);
    SameVerdict(w.filter, g, m);
    NothingBelow(w.lines);
    assert o.head + shown + [|w.log|] == o.head + (shown + [|w.log|]);
  }

  lemma ClearingStartsAnew(w: View, m: Message)
    requires Clears(w.filter, m)
    ensures Since(Next(w, Arrive(m)), Cleared(w, m))
  {
    assert Below([], 0) == [];
  }

  lemma NextSince(w: View, e: Event, o: Origin)
    requires w.first <= |w.log| && Since(w, o) && forall i :: 0 <= i < |w.lines| ==> 0 <= w.lines[i]
    ensures Since(Next(w, e), NextOrigin(o, w, e))
  {
    match e
    case Arrive(m) =>
      if Clears(w.filter, m) {
        ClearingStartsAnew(w, m);
      } else {
        ArriveKeepsSince(w, m, o);
      }
    case StopScrolling => ResetTwice(w.filter);
    case SetFilters(_) =>
    case ClearView =>
  }

  /** What every run keeps, Clear filters or not: lines increase and lie within the log. */
  ghost predicate Sound(v: View) {
    v.first <= |v.log| && Increasing(v.lines) && forall i :: 0 <= i < |v.lines| ==> 0 <= v.lines[i] < |v.log|
  }

  lemma {:induction false} BelowSound(lines: seq<int>, beginIndex: int)
    requires Increasing(lines)
    ensures Increasing(Below(lines, beginIndex))
    ensures forall i :: 0 <= i < |Below(lines, beginIndex)| ==> Below(lines, beginIndex)[i] in lines
  {
    if lines != [] && lines[0] < beginIndex {
      BelowSound(lines[1..], beginIndex);
    }
  }

  lemma AddedSound(lines: seq<int>, f: LogFilter, beginIndex: int, line: nat, m: Message)
    requires Increasing(lines) && forall i :: 0 <= i < |lines| ==> 0 <= lines[i] < line
    ensures var after := Added(lines, f, beginIndex, line, m);
      Increasing(after) && forall i :: 0 <= i < |after| ==> 0 <= after[i] <= line
  {
    var base := if Clears(f, m) then [] else lines;
    BelowSound(base, beginIndex);
    AppendIncreasing(Below(base, beginIndex), line);
  }

  lemma NextSound(w: View, e: Event)
    requires Sound(w)
    ensures Sound(Next(w, e))
  {
    match e
    case Arrive(m) => AddedSound(w.lines, w.filter, 0, |w.log|, m);
    case StopScrolling =>
    case SetFilters(f) => ShownIncreasing(w.log, w.first, |w.log|, ResetBoth(f));
    case ClearView =>
  }

  lemma {:induction false} RunsStaySound(v: View, events: seq<Event>)
    requires Sound(v)
    ensures Sound(After(v, events))
  {
    if events != [] {
      var n := |events| - 1;
      RunsStaySound(v, events[..n]);
      NextSound(After(v, events[..n]), events[n]);
    }
  }

  /** Over every run, Clear filters included, the view is the line that cleared it last, if that was
      shown, followed by what the filters left by that line let through of the later messages. */
  lemma {:induction false} RunsShowSinceClear(v: View, o: Origin, events: seq<Event>)
    requires Sound(v) && Since(v, o)
    ensures Since(After(v, events), OriginAfter(o, v, events))
  {
    if events != [] {
      var n := |events| - 1;
      RunsShowSinceClear(v, o, events[..n]);
      RunsStaySound(v, events[..n]);
      NextSince(After(v, events[..n]), events[n], OriginAfter(o, v, events[..n]));
    }
  }

  /** Messages that clear nothing, and scroll stops. */
  ghost predicate NoRestart(v: View, events: seq<Event>) {
    forall n :: 0 <= n < |events| ==>
      match events[n]
      case Arrive(m) => !Clears(After(v, events[..n]).filter, m)
      case StopScrolling => true
      case _ => false
  }

  lemma {:induction false} OriginStays(o: Origin, v: View, events: seq<Event>)
    requires NoRestart(v, events)
    ensures OriginAfter(o, v, events) == o && After(v, events).first == v.first
  {
    if events != [] {
      var n := |events| - 1;
      assert forall k :: 0 <= k < n ==> events[..n][k] == events[k] && events[..n][..k] == events[..k];
      OriginStays(o, v, events[..n]);
    }
  }

  /** So, after a line that clears the view and until it starts anew again: the clearing line if it is
      shown, then the later lines its filters let through, marks of the clearing line included. */
  lemma AfterClearingLine(v: View, m: Message, events: seq<Event>)
    requires Sound(v) && Clears(v.filter, m) && NoRestart(Next(v, Arrive(m)), events)
    ensures var (shown, g) := Decide(ResetBoth(v.filter), m);
      var w := After(Next(v, Arrive(m)), events);
      && w.lines == (if shown then [|v.log|] else []) + Shown(w.log, |v.log| + 1, |w.log|, g).0
      && HushBoth(w.filter) == HushBoth(Shown(w.log, |v.log| + 1, |w.log|, g).1)
  {
    var w := Next(v, Arrive(m));
    NextSound(v, Arrive(m));
    ClearingStartsAnew(v, m);
    RunsShowSinceClear(w, Cleared(v, m), events);
    OriginStays(Cleared(v, m), w, events);
    RunsStaySound(w, events);
  }

  // ----- the cyclic order of FindLine -----

  /** The k-th line looked at, starting from the focused one. */
  function Visited(begin: nat, k: nat, direction: int, size: nat): int {
    var line := if direction > 0 then begin + k else begin - k;
    if line < 0 then line + size else if line >= size then line - size else line
  }

  /** found is the first line in that order to satisfy pred. */
  ghost predicate NextMatch(lines: seq<LogLine>, pred: LogLine -> bool, begin: nat, direction: int, found: int)
    requires begin < |lines| && (direction == 1 || direction == -1)
  {
    && 0 <= found < |lines| && pred(lines[found])
    && exists k :: 1 <= k <= |lines| && Visited(begin, k, direction, |lines|) == found
         && forall j :: 1 <= j < k ==> !pred(lines[Visited(begin, j, direction, |lines|)])
  }

  // ----- the class -----

  class LogView {
    var firstLine: nat
    var lines: seq<LogLine>
    var filter: LogFilter
    var autoScrollDown: bool
    var autoScrollStop: bool
    var stop: bool  // whether the deferred m_stop is set

    constructor (filter: LogFilter, autoScrollStop: bool)
      ensures firstLine == 0 && lines == [] && this.filter == filter && !stop
    {
      this.firstLine, this.lines, this.filter := 0, [], filter;
      this.autoScrollDown, this.autoScrollStop, this.stop := true, autoScrollStop, false;
    }

    method ResetFilters()
      modifies this`filter
      ensures filter == ResetBoth(old(filter))
    {
      filter := LogFilter(Reset(filter.message), Reset(filter.process));
    }

    /** count is the length of the log. */
    method Clear(count: nat)
      modifies this`firstLine, this`lines, this`filter, this`autoScrollDown
      ensures firstLine == count && lines == [] && filter == ResetBoth(old(filter))
      ensures autoScrollDown == (old(autoScrollDown) || autoScrollStop)
    {
      firstLine := count;
      lines := [];
      if autoScrollStop {
        autoScrollDown := true;
      }
      ResetFilters();
    }

    method Matches(filterType: FilterType, m: Message) returns (found: bool)
      ensures found <==> Marked(filter, filterType, m)
    {
      found := MatchFilterType(filter.message, filterType, m.text);
      if !found {
        found := MatchFilterType(filter.process, filterType, m.processName);
      }
    }

    /** A message has been logged as the given line; beginIndex is the log's BeginIndex(). */
    method Add(beginIndex: int, line: nat, m: Message)
      modifies this`firstLine, this`lines, this`filter, this`autoScrollDown, this`stop
      ensures filter == Decide(FilterFor(old(filter), m), m).1
      ensures firstLine == if Clears(old(filter), m) then line + 1 else old(firstLine)
      ensures LineNumbers(lines) == Added(LineNumbers(old(lines)), old(filter), beginIndex, line, m)
      ensures var base := if Clears(old(filter), m) then [] else old(lines);
        lines == if Decide(FilterFor(old(filter), m), m).0
                 then Erased(base, beginIndex) + [LogLine(Marked(filter, Bookmark, m), line)] else base
      ensures var shown := Decide(FilterFor(old(filter), m), m).0;
        var scrolling := Scrolling(old(filter), m, old(autoScrollDown), autoScrollStop);
        var stops := shown && scrolling && Marked(filter, Stop, m);
        && stop == (old(stop) || stops)
        && autoScrollDown == (scrolling && (stops || !shown || !Marked(filter, Track, m)))
    {
      var clears := MatchFilterType(filter.message, FilterType.Clear, m.text);
      if clears {
        Clear(line + 1);
      }
      assert filter == FilterFor(old(filter), m);
      var included, updated := IsMessageIncluded(filter, m);
      filter := updated;
      if !included {
        assert LineNumbers([]) == [];
        return;
      }
      ErasedNumbers(lines, beginIndex);
      lines := EraseBelow(lines, beginIndex);
      var bookmark := Matches(Bookmark, m);
      AppendLine(lines, bookmark, line);
      lines := lines + [LogLine(bookmark, line)];
      assert LineNumbers(lines) == Added(LineNumbers(old(lines)), old(filter), beginIndex, line, m);
      var stops := Matches(Stop, m);
      if autoScrollDown && stops {
        stop := true;
        return;
      }
      var tracks := Matches(Track, m);
      if tracks {
        autoScrollDown := false;
      }
    }

    /** StopScrolling, which EndUpdate runs for a message that hit a Stop filter. */
    method EndUpdate()
      modifies this`filter, this`autoScrollDown, this`stop
      ensures !stop && autoScrollDown == (old(autoScrollDown) && !old(stop))
      ensures filter == if old(stop) then HushBoth(old(filter)) else old(filter)
    {
      if stop {
        autoScrollDown := false;
        filter := LogFilter(Hush(filter.message), Hush(filter.process));
        stop := false;
      }
    }

    method GetBookmarks() returns (bookmarks: seq<int>)
      ensures bookmarks == Bookmarks(lines)
    {
      bookmarks := [];
      for i := 0 to |lines|
        invariant bookmarks == Bookmarks(lines[..i])
      {
        assert lines[..i + 1][..i] == lines[..i];
        if lines[i].bookmark {
          bookmarks := bookmarks + [lines[i].line];
        }
      }
      assert lines[..|lines|] == lines;
    }

    /** Computes the list again from the log; focusItem is the focused item or negative.  The items
        shown, the surviving bookmarks and the focus of the new list are exactly determined. */
    method ApplyFilters(log: seq<Message>, focusItem: int) returns (newFocus: int)
      requires focusItem < |lines| && Increasing(LineNumbers(lines))
      modifies this`lines, this`filter, this`autoScrollDown, this`stop
      ensures LineNumbers(lines) == Shown(log, firstLine, |log|, ResetBoth(old(filter))).0
      ensures InStep(log, firstLine, LineNumbers(lines), filter) && firstLine == old(firstLine)
      ensures var after := Shown(log, firstLine, |log|, ResetBoth(old(filter))).1;
        filter == if old(stop) then HushBoth(after) else after
      ensures !stop && autoScrollDown == (old(autoScrollDown) && !old(stop))
      ensures var marks := Bookmarks(old(lines));
        Bookmarks(lines) == marks[..Surviving(marks, LineNumbers(lines))]
      ensures IsFocusItem(LineNumbers(lines), if focusItem < 0 then -1 else old(lines)[focusItem].line, newFocus)
    {
      ResetFilters();
      var focusLine := if focusItem < 0 then -1 else lines[focusItem].line;
      var bookmarks := GetBookmarks();
      BookmarksAreLines(lines);
      lines, filter, newFocus := Scan(log, firstLine, filter, bookmarks, focusLine);
      ScanDone(log, firstLine, old(filter), bookmarks, focusLine);
      EndUpdate();
    }

    /** std::upper_bound, less one: the item ScrollToIndex gets. */
    method SetFocusLine(line: int) returns (item: int)
      requires Increasing(LineNumbers(lines))
      ensures IsFocusItem(LineNumbers(lines), line, item)
    {
      var lo, hi := 0, |lines|;
      ghost var all := LineNumbers(lines);
      while lo < hi
        invariant 0 <= lo <= hi <= |lines|
        invariant forall i :: 0 <= i < lo ==> all[i] <= line
        invariant forall i :: hi <= i < |lines| ==> line < all[i]
      {
        var mid := (lo + hi) / 2;
        if line < lines[mid].line {
          assert line < all[mid];
          hi := mid;
        } else {
          assert all[mid] <= line;
          lo := mid + 1;
        }
      }
      item := lo - 1;
    }

    /** The next line that satisfies pred in cyclic order from the focused item (or the first if none
        is focused), the focused one itself last; -1 exactly if there is none. */
    method FindLine(pred: LogLine -> bool, direction: int, focusItem: int) returns (found: int)
      requires direction == 1 || direction == -1
      requires focusItem < |lines|
      ensures found == -1 <==> forall i :: 0 <= i < |lines| ==> !pred(lines[i])
      ensures found != -1 ==> NextMatch(lines, pred, if focusItem < 0 then 0 else focusItem, direction, found)
    {
      var begin := if focusItem < 0 then 0 else focusItem;
      if lines == [] {
        return -1;
      }
      var size, line := |lines|, begin;
      var started := false;
      ghost var k := 0;
      while !started || line != begin
        invariant started <==> k > 0
        invariant 0 <= k <= size && 0 <= line < size && line == Visited(begin, k, direction, size)
        invariant forall j :: 1 <= j <= k ==> !pred(lines[Visited(begin, j, direction, size)])
        decreases size - k
      {
        NextVisited(begin, k, direction, size);
        line := line + direction;
        if line < 0 {
          line := line + size;
        }
        if line >= size {
          line := line - size;
        }
        started := true;
        k := k + 1;
        if pred(lines[line]) {
          assert Visited(begin, k, direction, size) == line;
          return line;
        }
      }
      FullTurn(begin, k, direction, size);
      forall i | 0 <= i < size
        ensures !pred(lines[i])
      {
        ReachedBy(begin, i, direction, size);
      }
      return -1;
    }
  }

  lemma NextVisited(begin: nat, k: nat, direction: int, size: nat)
    requires begin < size && (direction == 1 || direction == -1) && k <= size
    requires k > 0 ==> Visited(begin, k, direction, size) != begin
    ensures k < size && 0 <= Visited(begin, k + 1, direction, size) < size
    ensures var line := Visited(begin, k, direction, size) + direction;
      Visited(begin, k + 1, direction, size)
        == if line < 0 then line + size else if line >= size then line - size else line
  {
  }

  lemma FullTurn(begin: nat, k: nat, direction: int, size: nat)
    requires begin < size && (direction == 1 || direction == -1) && 0 < k <= size
    ensures Visited(begin, k, direction, size) == begin ==> k == size
  {
  }

  ghost predicate Marked(f: LogFilter, filterType: FilterType, m: Message) {
    AnyHits(f.message, filterType, m.text) || AnyHits(f.process, filterType, m.processName)
  }

  /** A filter list marks a message if an enabled filter of the type is found in the message's text, or,
      for the process filters, in its process name. */
  lemma MarkedIff(f: LogFilter, filterType: FilterType, m: Message)
    ensures Marked(f, filterType, m) <==>
      || (exists i :: 0 <= i < |f.message|
            && f.message[i].enable && f.message[i].filterType == filterType && f.message[i].re(m.text))
      || (exists i :: 0 <= i < |f.process|
            && f.process[i].enable && f.process[i].filterType == filterType && f.process[i].re(m.processName))
  {
    AnyHitsIff(f.message, filterType, m.text);
    AnyHitsIff(f.process, filterType, m.processName);
  }

  /** Only message filters clear the view. */
  lemma ClearsIff(f: LogFilter, m: Message)
    ensures Clears(f, m) <==>
      exists i :: 0 <= i < |f.message| && f.message[i].enable && f.message[i].filterType == FilterType.Clear
        && f.message[i].re(m.text)
  {
    AnyHitsIff(f.message, FilterType.Clear, m.text);
  }

  /** The lines are visited in steps of one, modulo their number. */
  lemma VisitedInTurn(begin: nat, k: nat, direction: int, size: nat)
    requires begin < size && k <= size && (direction == 1 || direction == -1)
    ensures Visited(begin, k, direction, size) == (begin + direction * k) % size
  {
    var line: int := begin + direction * k;
    assert line == if direction == 1 then begin + k else begin - k;
    if line < 0 {
      assert line == -1 * size + (line + size);
      Arithmetic.DivModUnique(-1, line + size, size);
    } else if line >= size {
      assert line == 1 * size + (line - size);
      Arithmetic.DivModUnique(1, line - size, size);
    } else {
      assert line == 0 * size + line;
      Arithmetic.DivModUnique(0, line, size);
    }
  }

  /** Every line is visited once in a full turn. */
  lemma ReachedBy(begin: nat, i: nat, direction: int, size: nat)
    requires begin < size && i < size && (direction == 1 || direction == -1)
    ensures exists k :: 1 <= k <= size && Visited(begin, k, direction, size) == i
  {
    var d := if direction == 1 then i - begin else begin - i;
    var k := if d <= 0 then d + size else d;
    assert Visited(begin, k, direction, size) == i;
  }
}
