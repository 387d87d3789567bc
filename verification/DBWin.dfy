/** The hand-off of debug messages through one shared buffer and two auto-reset events
    (DebugViewppLib/DBWinWriter.cpp, DBWinReader.cpp).

    Any number of writers and one reader take turns in steps; each wait, each signal and each access
    to a cell of the buffer is a step of its own. */
module DBWin {

  /** 4096 bytes less the process id. */
  const DATA_SIZE := 4092
  const SYSTEM_PIDS := 5

  datatype Message = Message(pid: nat, text: string)

  /** What fits in front of the terminating NUL. */
  function Cut(text: string): (r: string)
    ensures |r| < DATA_SIZE && r <= text
    ensures |text| < DATA_SIZE ==> r == text
  {
    if |text| < DATA_SIZE - 1 then text else text[..DATA_SIZE - 1]
  }

  lemma CutLength(text: string)
    ensures |Cut(text)| == if |text| < 4091 then |text| else 4091
  {
  }

  /** A C string: the characters before the first NUL. */
  function UpToNul(s: string): (r: string)
    ensures r <= s && '\0' !in r
    ensures |r| < |s| ==> s[|r|] == '\0'
    ensures '\0' !in s ==> r == s
  {
    if s == "" || s[0] == '\0' then "" else [s[0]] + UpToNul(s[1..])
  }

  lemma {:induction false} UpToNulOf(a: string, b: string)
    ensures UpToNul(a + ['\0'] + b) == UpToNul(a)
  {
    var s := a + ['\0'] + b;
    if a != "" {
      assert s[1..] == a[1..] + ['\0'] + b;
      UpToNulOf(a[1..], b);
    }
  }

  lemma TextEnds(s: string, n: nat)
    requires n < |s| && s[n] == '\0' && '\0' !in s[..n]
    ensures UpToNul(s) == s[..n]
  {
    assert s == s[..n] + ['\0'] + s[n + 1..];
    UpToNulOf(s[..n], s[n + 1..]);
  }

  /** What a reader makes of a message. */
  function Received(m: Message): Message {
    Message(m.pid, UpToNul(Cut(m.text)))
  }

  function AllReceived(messages: seq<Message>): (r: seq<Message>)
    ensures |r| == |messages| && forall i :: 0 <= i < |r| ==> r[i] == Received(messages[i])
  {
    seq(|messages|, i requires 0 <= i < |messages| => Received(messages[i]))
  }

  /** A message arrives unchanged exactly when it fits and holds no NUL. */
  lemma ArrivesWholeIff(m: Message)
    ensures Received(m) == m <==> |m.text| < DATA_SIZE && '\0' !in m.text
  {
  }

  // ----- one write and one read -----

  /** A line from a system process, from one that could be opened, or from another. */
  datatype Entry = Named(pid: nat, name: string, text: string) | Opened(pid: nat, text: string)

  function SystemName(pid: nat): string
    requires pid < SYSTEM_PIDS
  {
    "SYSTEM_PID_" + ["01234"[pid]]
  }

  /** The sender's kind of name does not touch pid and text. */
  function EntryOf(m: Message, found: bool): (e: Entry)
    ensures e.pid == m.pid && e.text == m.text
    ensures e.Opened? <==> m.pid >= 5 && found
    ensures e.Named? && m.pid >= 5 ==> e.name == "<system>"
    ensures m.pid == 0 ==> e.name == "SYSTEM_PID_0"
    ensures m.pid == 1 ==> e.name == "SYSTEM_PID_1"
    ensures m.pid == 2 ==> e.name == "SYSTEM_PID_2"
    ensures m.pid == 3 ==> e.name == "SYSTEM_PID_3"
    ensures m.pid == 4 ==> e.name == "SYSTEM_PID_4"
  {
    if m.pid < SYSTEM_PIDS then Named(m.pid, SystemName(m.pid), m.text)
    else if found then Opened(m.pid, m.text)
    else Named(m.pid, "<system>", m.text)
  }

  /** The process id is m's, and the data starts with m's text, cut and terminated. */
  predicate Holds(pid: nat, cells: string, m: Message) {
    pid == m.pid && |cells| == DATA_SIZE && cells[..|Cut(m.text)| + 1] == Cut(m.text) + ['\0']
  }

  lemma HoldsText(pid: nat, cells: string, m: Message)
    requires Holds(pid, cells, m)
    ensures Message(pid, UpToNul(cells)) == Received(m) && '\0' in cells
  {
    var t := Cut(m.text);
    assert cells == t + ['\0'] + cells[|t| + 1..];
    UpToNulOf(t, cells[|t| + 1..]);
    assert cells[..|t| + 1][|t|] == '\0';
  }

  /** The data after a write. */
  function Stored(cells: string, text: string): (r: string)
    requires |cells| == DATA_SIZE
    ensures forall pid :: Holds(pid, r, Message(pid, text))
  {
    Cut(text) + ['\0'] + cells[|Cut(text)| + 1..]
  }

  class SharedBuffer {
    var bufferReady: bool
    var dataReady: bool
    var processId: nat
    const data: array<char>

    ghost predicate Valid()
      reads this
    {
      data.Length == DATA_SIZE
    }

    constructor ()
      ensures Valid() && fresh(data) && bufferReady && !dataReady
    {
      bufferReady, dataReady, processId := true, false, 0;
      data := new char[DATA_SIZE](_ => '\0');
    }

    /** A write that is not interrupted; without BUFFER_READY the wait times out. */
    method Write(pid: nat, message: string)
      requires Valid()
      modifies this, data
      ensures Valid() && !bufferReady
      ensures old(bufferReady) ==> dataReady && processId == pid && data[..] == Stored(old(data[..]), message)
      ensures !old(bufferReady) ==>
        dataReady == old(dataReady) && processId == old(processId) && data[..] == old(data[..])
    {
      if !bufferReady {
        return;
      }
      bufferReady := false;
      processId := pid;
      var length := if |message| < DATA_SIZE - 1 then |message| else DATA_SIZE - 1;
      for i := 0 to length
        invariant data[..i] == message[..i] && data[i..] == old(data[i..])
        invariant processId == pid && !bufferReady && dataReady == old(dataReady)
      {
        assert old(data[i..])[1..] == old(data[i + 1..]);
        data[i] := message[i];
        assert data[i + 1..] == old(data[i + 1..]);
      }
      assert old(data[length..])[1..] == old(data[length + 1..]);
      data[length] := '\0';
      assert data[..length] == Cut(message);
      assert data[..][..length + 1] == data[..length] + ['\0'];
      assert data[length + 1..] == old(data[length + 1..]);
      assert data[..] == data[..length] + ['\0'] + data[length + 1..];
      dataReady := true;
    }

    /** DATA_READY has just been waited for. */
    method Notify(found: bool) returns (entry: Entry)
      requires Valid() && '\0' in data[..]
      modifies this`bufferReady
      ensures bufferReady && entry == EntryOf(Message(processId, UpToNul(data[..])), found)
    {
      ghost var cells := data[..];
      var end := 0;
      while data[end] != '\0'
        invariant end < data.Length && '\0' !in cells[..end]
        decreases data.Length - end
      {
        assert cells[..end + 1] == cells[..end] + [cells[end]];
        assert cells[..data.Length] == cells;
        end := end + 1;
      }
      TextEnds(cells, end);
      entry := EntryOf(Message(processId, data[..end]), found);
      bufferReady := true;
    }

    /** A write and the read of it. */
    method Pass(pid: nat, message: string, found: bool) returns (entry: Entry)
      requires Valid() && bufferReady
      modifies this, data
      ensures entry == EntryOf(Received(Message(pid, message)), found) && bufferReady && !dataReady
      ensures entry.pid == pid && entry.text <= message && '\0' !in entry.text
      ensures |entry.text| < |message| && |entry.text| < 4091 ==> message[|entry.text|] == '\0'
    {
      Write(pid, message);
      dataReady := false;
      HoldsText(processId, data[..], Message(pid, message));
      CutLength(message);
      entry := Notify(found);
    }
  }

  // ----- the protocol -----

  datatype Writer =
    | Idle
    | Waiting(m: Message)
    | Took(m: Message)
    | Copying(m: Message, i: nat)
    | Terminated(m: Message)

  datatype Reader = Starting | Sleeping | Woken | Reading(pid: nat, text: string) | Added

  datatype State = State(
    bufferReady: bool,
    dataReady: bool,
    pid: nat,
    cells: string,
    writers: seq<Writer>,
    reader: Reader,
    written: seq<Message>,  // the messages signalled, in order
    lines: seq<Message>)    // the messages added by the reader, in order

  datatype Action =
    | Call(w: nat, m: Message)
    | Take(w: nat)
    | GiveUp(w: nat)
    | SetPid(w: nat)
    | CopyNext(w: nat)
    | Terminate(w: nat)
    | SignalData(w: nat)
    | SetReadyAgain
    | Wake
    | ReadPid
    | ReadNext
    | AddLine
    | SignalReady

  predicate IsWriterStep(a: Action) {
    a.Call? || a.Take? || a.GiveUp? || a.SetPid? || a.CopyNext? || a.Terminate? || a.SignalData?
  }

  predicate Can(s: State, a: Action) {
    if IsWriterStep(a) then a.w < |s.writers| && WriterCan(s, s.writers[a.w], a)
    else match a
      case SetReadyAgain => s.reader.Starting?
      case Wake => s.reader.Sleeping? && s.dataReady
      case ReadPid => s.reader.Woken?
      case ReadNext => s.reader.Reading? && |s.reader.text| < |s.cells| && s.cells[|s.reader.text|] != '\0'
      case AddLine => s.reader.Reading? && |s.reader.text| < |s.cells| && s.cells[|s.reader.text|] == '\0'
      case _ => s.reader.Added?
  }

  predicate WriterCan(s: State, w: Writer, a: Action)
    requires IsWriterStep(a)
  {
    match a
    case Call(_, _) => w.Idle?
    case Take(_) => w.Waiting? && s.bufferReady
    case GiveUp(_) => w.Waiting?
    case SetPid(_) => w.Took?
    case CopyNext(_) => w.Copying? && w.i < |Cut(w.m.text)| && w.i < |s.cells|
    case Terminate(_) => w.Copying? && w.i == |Cut(w.m.text)| && w.i < |s.cells|
    case _ => w.Terminated?
  }

  function Do(s: State, a: Action): State
    requires Can(s, a)
  {
    if IsWriterStep(a) then WriterDo(s, s.writers[a.w], a)
    else match a
      case SetReadyAgain => s.(bufferReady := true, reader := Sleeping)
      case Wake => s.(dataReady := false, reader := Woken)
      case ReadPid => s.(reader := Reading(s.pid, ""))
      case ReadNext => s.(reader := Reading(s.reader.pid, s.reader.text + [s.cells[|s.reader.text|]]))
      case AddLine => s.(reader := Added, lines := s.lines + [Message(s.reader.pid, s.reader.text)])
      case _ => s.(bufferReady := true, reader := Sleeping)
  }

  function WriterDo(s: State, w: Writer, a: Action): State
    requires IsWriterStep(a) && a.w < |s.writers| && WriterCan(s, w, a)
  {
    match a
    case Call(k, m) => s.(writers := s.writers[k := Waiting(m)])
    case Take(k) => s.(bufferReady := false, writers := s.writers[k := Took(w.m)])
    case GiveUp(k) => s.(writers := s.writers[k := Idle])
    case SetPid(k) => s.(pid := w.m.pid, writers := s.writers[k := Copying(w.m, 0)])
    case CopyNext(k) =>
      s.(cells := s.cells[w.i := w.m.text[w.i]], writers := s.writers[k := Copying(w.m, w.i + 1)])
    case Terminate(k) => s.(cells := s.cells[w.i := '\0'], writers := s.writers[k := Terminated(w.m)])
    case _ => s.(dataReady := true, writers := s.writers[a.w := Idle], written := s.written + [w.m])
  }

  predicate IsStart(s: State) {
    && s.bufferReady && !s.dataReady && s.reader.Starting? && |s.cells| == DATA_SIZE
    && s.written == [] && s.lines == [] && forall k :: 0 <= k < |s.writers| ==> s.writers[k].Idle?
  }

  ghost predicate IsRun(s: State, actions: seq<Action>)
    decreases actions
  {
    actions == [] || (Can(s, actions[0]) && IsRun(Do(s, actions[0]), actions[1..]))
  }

  function Run(s: State, actions: seq<Action>): State
    requires IsRun(s, actions)
    decreases actions
  {
    if actions == [] then s else Run(Do(s, actions[0]), actions[1..])
  }

  lemma OneMore(s: State, actions: seq<Action>, t: State)
    requires if actions == [] then s == t
             else Can(s, actions[0]) && IsRun(Do(s, actions[0]), actions[1..])
                  && Run(Do(s, actions[0]), actions[1..]) == t
    ensures IsRun(s, actions) && Run(s, actions) == t
  {
  }

  // ----- the methods as steps -----

  /** Every step is one of writer w. */
  predicate AllBy(actions: seq<Action>, w: nat) {
    forall i :: 0 <= i < |actions| ==> IsWriterStep(actions[i]) && actions[i].w == w
  }

  lemma {:induction false} CopyIsSteps(s: State, w: nat, m: Message, i: nat) returns (actions: seq<Action>)
    requires |s.cells| == DATA_SIZE && w < |s.writers| && s.writers[w] == Copying(m, i)
    requires i <= |Cut(m.text)| && s.cells[..i] == Cut(m.text)[..i]
    ensures AllBy(actions, w) && IsRun(s, actions)
    ensures Run(s, actions) == s.(cells := Stored(s.cells, m.text), writers := s.writers[w := Terminated(m)])
    decreases |Cut(m.text)| - i
  {
    var cut := Cut(m.text);
    var next := if i < |cut| then CopyNext(w) else Terminate(w);
    var t := Do(s, next);
    if i < |cut| {
      assert t.cells[..i + 1] == s.cells[..i] + [cut[i]] == cut[..i + 1];
      assert t.cells[|cut| + 1..] == s.cells[|cut| + 1..];
      assert t.writers[w := Terminated(m)] == s.writers[w := Terminated(m)];
      actions := CopyIsSteps(t, w, m, i + 1);
    } else {
      assert t.cells == Stored(s.cells, m.text);
      actions := [];
    }
    OneMore(s, [next] + actions, Run(t, actions));
    actions := [next] + actions;
  }

  /** Write, once it has the buffer and nobody interferes, is a series of the writer's steps; together
      they do to events, process id and data what the method does. */
  lemma WriteIsSteps(s: State, w: nat, m: Message) returns (actions: seq<Action>)
    requires |s.cells| == DATA_SIZE && w < |s.writers| && s.writers[w] == Waiting(m) && s.bufferReady
    ensures AllBy(actions, w) && IsRun(s, actions)
    ensures Run(s, actions) == s.(bufferReady := false, dataReady := true, pid := m.pid,
      cells := Stored(s.cells, m.text), writers := s.writers[w := Idle], written := s.written + [m])
  {
    var s1 := Do(s, Take(w));
    var s2 := Do(s1, SetPid(w));
    var copies := CopyIsSteps(s2, w, m, 0);
    var s3 := Run(s2, copies);
    var s4 := Do(s3, SignalData(w));
    OneMore(s4, [], s4);
    OneMore(s3, [SignalData(w)], s4);
    RunOn(s2, copies, [SignalData(w)]);
    OneMore(s1, [SetPid(w)] + (copies + [SignalData(w)]), s4);
    actions := [SetPid(w)] + (copies + [SignalData(w)]);
    OneMore(s, [Take(w)] + actions, s4);
    actions := [Take(w)] + actions;
    assert s4.writers == s.writers[w := Idle];
  }

  lemma {:induction false} RunOn(s: State, first: seq<Action>, second: seq<Action>)
    requires IsRun(s, first) && IsRun(Run(s, first), second)
    ensures IsRun(s, first + second) && Run(s, first + second) == Run(Run(s, first), second)
    decreases first
  {
    if first == [] {
      assert first + second == second;
    } else {
      assert (first + second)[1..] == first[1..] + second;
      RunOn(Do(s, first[0]), first[1..], second);
    }
  }

  lemma {:induction false} ReadingIsSteps(s: State) returns (actions: seq<Action>)
    requires s.reader.Reading? && '\0' in s.cells && s.reader.text <= UpToNul(s.cells)
    ensures IsRun(s, actions) && forall i :: 0 <= i < |actions| ==> !IsWriterStep(actions[i])
    ensures Run(s, actions) == s.(bufferReady := true, reader := Sleeping,
      lines := s.lines + [Message(s.reader.pid, UpToNul(s.cells))])
    decreases |s.cells| - |s.reader.text|
  {
    var text := s.reader.text;
    assert |UpToNul(s.cells)| < |s.cells|;
    ReadOn(s.cells, text);
    var next := if s.cells[|text|] == '\0' then AddLine else ReadNext;
    var t := Do(s, next);
    if next == AddLine {
      var u := Do(t, SignalReady);
      OneMore(u, [], u);
      OneMore(t, [SignalReady], u);
      actions := [SignalReady];
    } else {
      actions := ReadingIsSteps(t);
    }
    OneMore(s, [next] + actions, Run(t, actions));
    actions := [next] + actions;
  }

  /** Notify, if nobody interferes, is a series of the reader's steps that adds the line the method
      adds and sets BUFFER_READY. */
  lemma NotifyIsSteps(s: State) returns (actions: seq<Action>)
    requires s.reader.Woken? && '\0' in s.cells
    ensures IsRun(s, actions) && forall i :: 0 <= i < |actions| ==> !IsWriterStep(actions[i])
    ensures Run(s, actions) == s.(bufferReady := true, reader := Sleeping,
      lines := s.lines + [Message(s.pid, UpToNul(s.cells))])
  {
    var t := Do(s, ReadPid);
    actions := ReadingIsSteps(t);
    OneMore(s, [ReadPid] + actions, Run(t, actions));
    actions := [ReadPid] + actions;
  }

  // ----- the invariant -----

  predicate Filling(w: Writer) {
    w.Took? || w.Copying? || w.Terminated?
  }

  predicate Busy(r: Reader) {
    r.Woken? || r.Reading? || r.Added?
  }

  /** Who may touch the buffer next. */
  datatype Owner = BufferEvent | DataEvent | TheWriter(w: nat) | TheReader

  /** Exactly one of: BUFFER_READY set, DATA_READY set, one writer filling, the reader reading. */
  ghost predicate Owned(s: State, o: Owner) {
    && (s.bufferReady <==> o == BufferEvent)
    && (s.dataReady <==> o == DataEvent)
    && (Busy(s.reader) <==> o == TheReader)
    && (forall k: nat :: k < |s.writers| ==> (Filling(s.writers[k]) <==> o == TheWriter(k)))
    && (o.TheWriter? ==> o.w < |s.writers|)
  }

  /** How far the writer that fills the buffer has come. */
  predicate Filled(s: State, w: Writer)
    requires |s.cells| == DATA_SIZE
  {
    match w
    case Copying(m, i) => s.pid == m.pid && i <= |Cut(m.text)| && s.cells[..i] == Cut(m.text)[..i]
    case Terminated(m) => Holds(s.pid, s.cells, m)
    case _ => true
  }

  /** How far the reader has come with the last message written. */
  predicate Seen(s: State, m: Message) {
    match s.reader
    case Reading(pid, text) => pid == m.pid && text <= Received(m).text
    case _ => true
  }

  /** A message signalled and not read is in the buffer; all others are in the lines, in order. */
  ghost predicate Delivered(s: State, o: Owner) {
    if o.DataEvent? || s.reader.Woken? || s.reader.Reading? then
      && s.written != []
      && Holds(s.pid, s.cells, s.written[|s.written| - 1])
      && Seen(s, s.written[|s.written| - 1])
      && s.lines == AllReceived(s.written[..|s.written| - 1])
    else s.lines == AllReceived(s.written)
  }

  ghost predicate InvWith(s: State, o: Owner) {
    && |s.cells| == DATA_SIZE
    && (s.written != [] ==> s.writers != [])
    && Owned(s, o)
    && (o.TheWriter? ==> Filled(s, s.writers[o.w]))
    && Delivered(s, o)
  }

  ghost predicate Inv(s: State) {
    exists o :: InvWith(s, o)
  }

  function NextOwner(o: Owner, a: Action): Owner {
    match a
    case Take(k) => TheWriter(k)
    case SignalData(_) => DataEvent
    case Wake => TheReader
    case SignalReady => BufferEvent
    case _ => o
  }

  lemma StartHolds(s: State)
    requires IsStart(s)
    ensures Inv(s)
  {
    assert InvWith(s, BufferEvent);
  }

  lemma WriterStepOwned(s: State, o: Owner, a: Action)
    requires Owned(s, o) && Can(s, a) && IsWriterStep(a)
    ensures Owned(Do(s, a), NextOwner(o, a))
    ensures Filling(s.writers[a.w]) ==> o == TheWriter(a.w)
  {
  }

  /** The steps that leave the buffer alone. */
  lemma WriterAsideKeeps(s: State, o: Owner, a: Action)
    requires InvWith(s, o) && Can(s, a) && (a.Call? || a.Take? || a.GiveUp?)
    ensures InvWith(Do(s, a), NextOwner(o, a))
  {
    WriterStepOwned(s, o, a);
  }

  lemma CopyFills(cells: string, m: Message, i: nat)
    requires i < |Cut(m.text)| && |cells| == DATA_SIZE && cells[..i] == Cut(m.text)[..i]
    ensures cells[i := m.text[i]][..i + 1] == Cut(m.text)[..i + 1]
  {
    assert cells[i := m.text[i]][..i + 1] == cells[..i] + [m.text[i]];
  }

  lemma TerminateFills(cells: string, m: Message)
    requires |cells| == DATA_SIZE && cells[..|Cut(m.text)|] == Cut(m.text)
    ensures Holds(m.pid, cells[|Cut(m.text)| := '\0'], m)
  {
    var n := |Cut(m.text)|;
    assert cells[n := '\0'][..n + 1] == cells[..n] + ['\0'];
  }

  lemma WriterFillsKeeps(s: State, o: Owner, a: Action)
    requires InvWith(s, o) && Can(s, a) && (a.SetPid? || a.CopyNext? || a.Terminate?)
    ensures InvWith(Do(s, a), NextOwner(o, a))
  {
    WriterStepOwned(s, o, a);
    var w, t := s.writers[a.w], Do(s, a);
    assert Filled(t, t.writers[a.w]) by {
      if a.CopyNext? {
        CopyFills(s.cells, w.m, w.i);
      } else if a.Terminate? {
        assert Cut(w.m.text)[..w.i] == Cut(w.m.text);
        TerminateFills(s.cells, w.m);
      }
    }
  }

  lemma WriterSignalKeeps(s: State, o: Owner, a: Action)
    requires InvWith(s, o) && Can(s, a) && a.SignalData?
    ensures InvWith(Do(s, a), NextOwner(o, a))
  {
    WriterStepOwned(s, o, a);
    var w, t := s.writers[a.w], Do(s, a);
    assert o == TheWriter(a.w) && Filled(s, w);
    assert t.written == s.written + [w.m];
    assert t.written[..|t.written| - 1] == s.written && t.written[|t.written| - 1] == w.m;
    assert !s.reader.Woken? && !s.reader.Reading?;
    assert Delivered(t, DataEvent);
  }

  lemma WriterStepKeeps(s: State, o: Owner, a: Action)
    requires InvWith(s, o) && Can(s, a) && IsWriterStep(a)
    ensures InvWith(Do(s, a), NextOwner(o, a))
  {
    if a.SignalData? {
      WriterSignalKeeps(s, o, a);
    } else if a.SetPid? || a.CopyNext? || a.Terminate? {
      WriterFillsKeeps(s, o, a);
    } else {
      WriterAsideKeeps(s, o, a);
    }
  }

  lemma ReadingKeeps(s: State, o: Owner, a: Action)
    requires InvWith(s, o) && Can(s, a) && (a.ReadNext? || a.AddLine?)
    ensures InvWith(Do(s, a), NextOwner(o, a))
  {
    var m := s.written[|s.written| - 1];
    HoldsText(s.pid, s.cells, m);
    ReadOn(s.cells, s.reader.text);
    LastReceived(s.written);
  }

  lemma ReaderStepKeeps(s: State, o: Owner, a: Action)
    requires InvWith(s, o) && Can(s, a) && !IsWriterStep(a) && (a.SetReadyAgain? ==> s.bufferReady)
    ensures InvWith(Do(s, a), NextOwner(o, a))
  {
    if a.ReadNext? || a.AddLine? {
      ReadingKeeps(s, o, a);
    }
  }

  /** The text read so far is a start of the C string; the next cell decides whether it is all. */
  lemma ReadOn(cells: string, text: string)
    requires text <= UpToNul(cells) && |text| < |cells|
    ensures if cells[|text|] == '\0' then text == UpToNul(cells) else text + [cells[|text|]] <= UpToNul(cells)
  {
    PrefixNext(cells, UpToNul(cells), text);
  }

  lemma PrefixNext(cells: string, all: string, text: string)
    requires all <= cells && '\0' !in all && (|all| < |cells| ==> cells[|all|] == '\0')
    requires text <= all && |text| < |cells|
    ensures if cells[|text|] == '\0' then text == all else text + [cells[|text|]] <= all
  {
    if |text| < |all| {
      assert cells[|text|] == all[|text|];
    }
  }

  lemma LastReceived(written: seq<Message>)
    requires written != []
    ensures AllReceived(written) == AllReceived(written[..|written| - 1]) + [Received(written[|written| - 1])]
  {
  }

  /** A step keeps the invariant, but for the second setting of BUFFER_READY in the constructor:
      that one does exactly when the event is still set. */
  lemma StepKeepsIff(s: State, a: Action)
    requires Inv(s) && Can(s, a)
    ensures Inv(Do(s, a)) <==> (a.SetReadyAgain? ==> s.bufferReady)
  {
    var o :| InvWith(s, o);
    if IsWriterStep(a) {
      WriterStepKeeps(s, o, a);
    } else if a.SetReadyAgain? ==> s.bufferReady {
      ReaderStepKeeps(s, o, a);
    } else {
      TwoOwners(s, o);
    }
  }

  lemma TwoOwners(s: State, o: Owner)
    requires InvWith(s, o) && Can(s, SetReadyAgain) && !s.bufferReady
    ensures !Inv(Do(s, SetReadyAgain))
  {
    var t := Do(s, SetReadyAgain);
    assert o.TheWriter? ==> Filling(s.writers[o.w]);
    forall p ensures !Owned(t, p) {
    }
  }

  /** No writer has taken the buffer before the constructor is through. */
  ghost predicate StartsInTime(s: State, actions: seq<Action>)
    requires IsRun(s, actions)
    decreases actions
  {
    actions == [] || ((actions[0].SetReadyAgain? ==> s.bufferReady) && StartsInTime(Do(s, actions[0]), actions[1..]))
  }

  lemma {:induction false} RunKeeps(s: State, actions: seq<Action>)
    requires Inv(s) && IsRun(s, actions) && StartsInTime(s, actions)
    ensures Inv(Run(s, actions))
    decreases actions
  {
    if actions != [] {
      StepKeepsIff(s, actions[0]);
      RunKeeps(Do(s, actions[0]), actions[1..]);
    }
  }

  /** In every reachable state the lines are the messages written, in order and cut, each once,
      and at most the last one written is still to be read. */
  lemma ReadOnceInOrder(s: State, actions: seq<Action>)
    requires IsStart(s) && IsRun(s, actions) && StartsInTime(s, actions)
    ensures var t := Run(s, actions);
      && |t.written| - 1 <= |t.lines| <= |t.written|
      && t.lines == AllReceived(t.written[..|t.lines|])
      && (t.bufferReady ==> t.lines == AllReceived(t.written))
  {
    StartHolds(s);
    RunKeeps(s, actions);
    var t := Run(s, actions);
    var o :| InvWith(t, o);
    assert t.written[..|t.written|] == t.written;
  }

  // ----- the second setting of BUFFER_READY -----

  /** The lines are the first messages written, in order and each once. */
  ghost predicate InOrderOnce(s: State) {
    |s.lines| <= |s.written| && s.lines == AllReceived(s.written[..|s.lines|])
  }

  lemma InvInOrder(s: State)
    requires Inv(s)
    ensures InOrderOnce(s)
  {
    var o :| InvWith(s, o);
    assert s.written[..|s.written|] == s.written;
  }

  /** The constructor is left once, so a run that ends in it, or starts behind it, starts in time. */
  lemma {:induction false} StartedOnce(s: State, actions: seq<Action>)
    requires IsRun(s, actions)
    ensures Run(s, actions).reader.Starting? ==> s.reader.Starting? && StartsInTime(s, actions)
    ensures !s.reader.Starting? ==> StartsInTime(s, actions)
    decreases actions
  {
    if actions != [] {
      StartedOnce(Do(s, actions[0]), actions[1..]);
    }
  }

  /** A message is in the buffer, signalled and not read. */
  ghost predicate Unread(s: State, m: Message) {
    && |s.cells| == DATA_SIZE && s.dataReady && s.reader.Sleeping?
    && s.written != [] && s.written[|s.written| - 1] == m
    && s.lines == AllReceived(s.written[..|s.written| - 1])
  }

  /** A writer that is filling the buffer finishes. */
  lemma FinishIsSteps(s: State, w: nat) returns (actions: seq<Action>)
    requires |s.cells| == DATA_SIZE && w < |s.writers| && Filling(s.writers[w]) && Filled(s, s.writers[w])
    ensures IsRun(s, actions)
    ensures var m := s.writers[w].m; var t := Run(s, actions);
      t == s.(dataReady := true, pid := m.pid, cells := t.cells, writers := s.writers[w := Idle],
              written := s.written + [m]) && |t.cells| == DATA_SIZE
    decreases s.writers[w].Took?
  {
    var m := s.writers[w].m;
    if s.writers[w].Took? {
      var t := Do(s, SetPid(w));
      actions := FinishIsSteps(t, w);
      OneMore(s, [SetPid(w)] + actions, Run(t, actions));
      actions := [SetPid(w)] + actions;
      assert t.writers[w := Idle] == s.writers[w := Idle];
    } else {
      var copies, t := [], s;
      if s.writers[w].Copying? {
        copies := CopyIsSteps(s, w, m, s.writers[w].i);
        t := Run(s, copies);
      }
      var u := Do(t, SignalData(w));
      OneMore(u, [], u);
      OneMore(t, [SignalData(w)], u);
      RunOn(s, copies, [SignalData(w)]);
      actions := copies + [SignalData(w)];
      assert u.writers == s.writers[w := Idle];
    }
  }

  /** With BUFFER_READY set although a message is unread, the next write destroys it. */
  lemma UnreadIsLost(s: State, m: Message, w: nat) returns (actions: seq<Action>)
    requires Unread(s, m) && s.bufferReady && w < |s.writers| && s.writers[w].Idle?
    ensures IsRun(s, actions) && !InOrderOnce(Run(s, actions))
  {
    var x := Message(m.pid + 1, "");
    var s1 := Do(s, Call(w, x));
    var writes := WriteIsSteps(s1, w, x);
    var s2 := Run(s1, writes);
    var s3 := Do(s2, Wake);
    HoldsText(s3.pid, s3.cells, x);
    var readings := NotifyIsSteps(s3);
    var s4 := Run(s3, readings);
    OneMore(s2, [Wake] + readings, s4);
    RunOn(s1, writes, [Wake] + readings);
    OneMore(s, [Call(w, x)] + (writes + ([Wake] + readings)), s4);
    actions := [Call(w, x)] + (writes + ([Wake] + readings));
    var n := |s.written| - 1;
    assert s4.lines[n] == Received(x) && s4.written[n] == m;
    assert |s4.lines| == n + 1;
    assert AllReceived(s4.written[..n + 1])[n] == Received(m);
  }

  lemma LateSetLoses(s: State, o: Owner) returns (actions: seq<Action>)
    requires InvWith(s, o) && Can(s, SetReadyAgain) && !s.bufferReady
    ensures IsRun(Do(s, SetReadyAgain), actions) && !InOrderOnce(Run(Do(s, SetReadyAgain), actions))
  {
    var t := Do(s, SetReadyAgain);
    if o.TheWriter? {
      var finish := FinishIsSteps(t, o.w);
      var u := Run(t, finish);
      assert u.written[..|u.written| - 1] == s.written;
      var more := UnreadIsLost(u, s.writers[o.w].m, o.w);
      RunOn(t, finish, more);
      actions := finish + more;
    } else {
      assert o == DataEvent && !Filling(s.writers[0]);
      var m := s.written[|s.written| - 1];
      if t.writers[0].Idle? {
        actions := UnreadIsLost(t, m, 0);
      } else {
        var u := Do(t, GiveUp(0));
        actions := UnreadIsLost(u, m, 0);
        OneMore(t, [GiveUp(0)] + actions, Run(u, actions));
        actions := [GiveUp(0)] + actions;
      }
    }
  }

  /** Over every run, whenever the constructor comes to its second set: the lines stay the messages
      written, in order and each once, however the run goes on, exactly if BUFFER_READY is still set. */
  lemma SecondSetIff(s: State, actions: seq<Action>)
    requires IsStart(s) && IsRun(s, actions) && Can(Run(s, actions), SetReadyAgain)
    ensures var t := Run(s, actions);
      t.bufferReady <==>
        forall more :: IsRun(Do(t, SetReadyAgain), more) ==> InOrderOnce(Run(Do(t, SetReadyAgain), more))
  {
    var t := Run(s, actions);
    StartHolds(s);
    StartedOnce(s, actions);
    RunKeeps(s, actions);
    var u := Do(t, SetReadyAgain);
    if t.bufferReady {
      StepKeepsIff(t, SetReadyAgain);
      forall more | IsRun(u, more)
        ensures InOrderOnce(Run(u, more))
      {
        StartedOnce(u, more);
        RunKeeps(u, more);
        InvInOrder(Run(u, more));
      }
    } else {
      var o :| InvWith(t, o);
      var more := LateSetLoses(t, o);
    }
  }

  /** The buffer changes only when every message signalled has been read, and nobody else uses it. */
  lemma NeverOverwritten(s: State, a: Action)
    requires Inv(s) && Can(s, a) && (Do(s, a).cells != s.cells || Do(s, a).pid != s.pid)
    ensures s.lines == AllReceived(s.written) && !Busy(s.reader) && !s.bufferReady && !s.dataReady
    ensures IsWriterStep(a) && forall k: nat :: k < |s.writers| && Filling(s.writers[k]) ==> k == a.w
  {
    var o :| InvWith(s, o);
    assert IsWriterStep(a) && Filling(s.writers[a.w]);
  }

  /** A second BUFFER_READY set too late lets two writers fill the buffer at once. */
  lemma LateSetOverlaps(s: State, m: Message, n: Message)
    requires IsStart(s) && |s.writers| == 2
    ensures var late := [Call(0, m), Take(0), SetReadyAgain, Call(1, n), Take(1)];
      && IsRun(s, late) && !StartsInTime(s, late) && |Run(s, late).writers| == 2
      && Filling(Run(s, late).writers[0]) && Filling(Run(s, late).writers[1])
  {
    var s1 := Do(s, Call(0, m));
    var s2 := Do(s1, Take(0));
    var s3 := Do(s2, SetReadyAgain);
    var s4 := Do(s3, Call(1, n));
    var s5 := Do(s4, Take(1));
    OneMore(s5, [], s5);
    OneMore(s4, [Take(1)], s5);
    OneMore(s3, [Call(1, n), Take(1)], s5);
    OneMore(s2, [SetReadyAgain, Call(1, n), Take(1)], s5);
    OneMore(s1, [Take(0), SetReadyAgain, Call(1, n), Take(1)], s5);
    OneMore(s, [Call(0, m), Take(0), SetReadyAgain, Call(1, n), Take(1)], s5);
    assert !StartsInTime(s2, [SetReadyAgain, Call(1, n), Take(1)]);
    assert !StartsInTime(s1, [Take(0), SetReadyAgain, Call(1, n), Take(1)]);
  }
}
