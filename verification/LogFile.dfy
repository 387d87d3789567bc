/** The message log (DebugViewppLib/LogFile.cpp) over its interned process identities
    (ProcessInfo in DebugViewppLib/ProcessInfo.cpp) and the compressing string store.

    Abstractly a log is a sequence of entries.  Random colours are parameters, and text is its own
    wide form. */
module LogFiles {
  import opened IndexedStorages

  datatype Properties = Properties(pid: nat, name: string, color: nat)

  class ProcessInfo {
    var properties: map<nat, Properties>
    var uniqueId: nat

    /** Uids are handed out in order, one per pair of pid and name. */
    ghost predicate Valid()
      reads this
    {
      && (forall uid: nat :: uid in properties <==> uid < uniqueId)
      && forall u, v :: u in properties && v in properties && u != v ==> !SameProcess(properties[u], properties[v])
    }

    constructor ()
      ensures Valid() && properties == map[] && uniqueId == 0
    {
      properties, uniqueId := map[], 0;
    }

    method Clear()
      modifies this
      ensures Valid() && properties == map[] && uniqueId == 0
    {
      uniqueId := 0;
      properties := map[];
    }

    /** The uid of this pid and name, a new one only for a new pair. */
    method GetUid(pid: nat, name: string, color: nat) returns (uid: nat)
      requires Valid()
      modifies this
      ensures Valid()
      ensures uid in properties && properties[uid].pid == pid && properties[uid].name == name
      ensures forall u :: u in old(properties) ==> u in properties && properties[u] == old(properties)[u]
      ensures properties == old(properties)
        || (uid == old(uniqueId) && properties == old(properties)[uid := Properties(pid, name, color)])
    {
      var items := properties.Keys;
      while items != {}
        invariant items <= properties.Keys
        invariant forall u :: u in properties && u !in items ==>
          !(properties[u].pid == pid && properties[u].name == name)
        decreases |items|
      {
        var item :| item in items;
        if properties[item].pid == pid && properties[item].name == name {
          return item;
        }
        items := items - {item};
      }
      uid := uniqueId;
      uniqueId := uniqueId + 1;
      properties := properties[uid := Properties(pid, name, color)];
    }

    /** The lookup by uid; an unknown uid gives the default properties. */
    function Lookup(uid: nat): (p: Properties)
      reads this
      ensures uid in properties ==> p == properties[uid]
    {
      if uid in properties then properties[uid] else Properties(0, "", 0)
    }
  }

  predicate SameProcess(a: Properties, b: Properties) {
    a.pid == b.pid && a.name == b.name
  }

  /** What a caller stores: systemTime is a file time, time the offset since the start. */
  datatype Message = Message(time: int, systemTime: int, pid: nat, processName: string, text: string)

  datatype InternalMessage = InternalMessage(time: int, systemTime: int, uid: nat)

  /** s[b..e], empty when b is not below e. */
  function Slice(s: seq<Message>, b: nat, e: int): seq<Message> {
    if b < e <= |s| then s[b..e] else []
  }

  function Texts(s: seq<Message>): (r: seq<string>)
    ensures |r| == |s| && forall i :: 0 <= i < |r| ==> r[i] == s[i].text
  {
    seq(|s|, i requires 0 <= i < |s| => s[i].text)
  }

  /** The i-th message as the string store reads it back. */
  ghost function ReadAt(s: seq<Message>, i: nat): Message
    requires i < |s|
  {
    s[i].(text := ReadBack(Texts(s), i))
  }

  /** target after messages i to end of source have been copied behind it one by one.  A log copied to
      itself is read as it has grown. */
  ghost function Copied(target: seq<Message>, source: seq<Message>, self: bool, i: nat, end: int): seq<Message>
    requires end < |source| && (self ==> |source| <= |target|)
    decreases end - i
  {
    if i > end then target
    else Copied(target + [ReadAt(if self then target else source, i)], source, self, i + 1, end)
  }

  lemma CopiedStep(target: seq<Message>, source: seq<Message>, self: bool, i: nat, end: int, msg: Message)
    requires i <= end < |source| && (self ==> |source| <= |target|)
    requires msg == ReadAt(if self then target else source, i)
    ensures Copied(target, source, self, i, end) == Copied(target + [msg], source, self, i + 1, end)
  {
  }

  lemma CopiedEnd(target: seq<Message>, source: seq<Message>, self: bool, begin: nat, end: int, clean: bool)
    requires end < |source| && (self ==> source == target) && (clean ==> AllNulFree(Texts(source)))
    ensures clean ==> Copied(target, source, self, begin, end) == target + Slice(source, begin, end + 1)
  {
    if clean {
      CopiedWhenNulFree(target, source, self, begin, end);
    }
  }

  /** Messages whose texts hold no NUL are copied as they are. */
  lemma {:induction false} CopiedWhenNulFree(target: seq<Message>, source: seq<Message>, self: bool, i: nat, end: int)
    requires end < |source| && (self ==> source <= target && AllNulFree(Texts(target)))
    requires AllNulFree(Texts(source))
    ensures Copied(target, source, self, i, end) == target + Slice(source, i, end + 1)
    decreases end - i
  {
    if i > end {
      assert target + [] == target;
    } else {
      ReadAtNulFree(if self then target else source, i);
      OneMoreNulFree(target, source, i);
      CopiedWhenNulFree(target + [source[i]], source, self, i + 1, end);
      SliceFrom(source, i, end + 1);
      Regroup(target, source[i], Slice(source, i + 1, end + 1));
    }
  }

  lemma ReadAtNulFree(s: seq<Message>, i: nat)
    requires i < |s| && AllNulFree(Texts(s))
    ensures ReadAt(s, i) == s[i]
  {
    ReadBackIff(Texts(s));
  }

  lemma OneMoreNulFree(target: seq<Message>, source: seq<Message>, i: nat)
    requires i < |source| && AllNulFree(Texts(source))
    ensures AllNulFree(Texts(target)) ==> AllNulFree(Texts(target + [source[i]]))
    ensures source <= target ==> source <= target + [source[i]] && target[i] == source[i]
  {
    assert Texts(source)[i] == source[i].text;
    var next := target + [source[i]];
    assert forall j :: 0 <= j < |target| ==> Texts(next)[j] == Texts(target)[j];
  }

  lemma Regroup(target: seq<Message>, m: Message, rest: seq<Message>)
    ensures target + [m] + rest == target + ([m] + rest)
  {
  }

  lemma SliceFrom(s: seq<Message>, b: nat, e: int)
    requires b < e <= |s|
    ensures Slice(s, b, e) == [s[b]] + Slice(s, b + 1, e)
  {
  }

  class LogFile {
    var messages: seq<InternalMessage>
    const storage: SnappyStorage
    const processInfo: ProcessInfo

    ghost predicate Valid()
      reads this, storage, processInfo
    {
      && storage.Valid() && processInfo.Valid()
      && |messages| == |storage.contents|
      && forall i :: 0 <= i < |messages| ==> messages[i].uid in processInfo.properties
    }

    /** The i-th message as it was added. */
    ghost function Entry(i: nat): Message
      requires Valid() && i < |messages|
      reads this, storage, processInfo
    {
      var m := messages[i];
      var p := processInfo.properties[m.uid];
      Message(m.time, m.systemTime, p.pid, p.name, storage.contents[i])
    }

    ghost function Contents(): (r: seq<Message>)
      requires Valid()
      reads this, storage, processInfo
      ensures |r| == |messages|
    {
      seq(|messages|, i requires 0 <= i < |messages| && Valid() reads this, storage, processInfo => Entry(i))
    }

    /** Where the colour of the i-th message comes from. */
    ghost function Color(i: nat): nat
      requires Valid() && i < |messages|
      reads this, storage, processInfo
    {
      processInfo.properties[messages[i].uid].color
    }

    constructor (snappy: string -> string, unsnappy: string -> string)
      requires forall s :: unsnappy(snappy(s)) == s
      ensures Valid() && Contents() == [] && fresh(storage) && fresh(processInfo)
    {
      messages := [];
      storage := new SnappyStorage(snappy, unsnappy);
      processInfo := new ProcessInfo();
    }

    method Clear()
      requires Valid()
      modifies this, storage, processInfo
      ensures Valid() && Contents() == []
    {
      messages := [];
      storage.Clear();
      processInfo.Clear();
    }

    method Add(msg: Message, color: nat)
      requires Valid()
      modifies this, storage, processInfo
      ensures Valid() && Contents() == old(Contents()) + [msg]
      ensures storage.contents == old(storage.contents) + [msg.text]
      ensures forall i :: 0 <= i < |old(messages)| ==> messages[i] == old(messages)[i] && Color(i) == old(Color(i))
    {
      ghost var before := Contents();
      var uid := processInfo.GetUid(msg.pid, msg.processName, color);
      messages := messages + [InternalMessage(msg.time, msg.systemTime, uid)];
      var index := storage.Add(msg.text);
      assert Contents() == before + [msg];
    }

    function Count(): (n: int)
      requires Valid()
      reads this, storage, processInfo
      ensures n == |Contents()|
    {
      |messages|
    }

    /** operator[]: the message and its colour; only the string cache changes. */
    method Get(i: nat) returns (msg: Message, color: nat)
      requires Valid() && i < |messages|
      modifies storage`readList, storage`readBlockIndex
      ensures Valid() && Contents() == old(Contents())
      ensures msg == Entry(i).(text := ReadBack(storage.contents, i)) && color == Color(i)
      ensures BlocksNulFree(storage.contents) ==> msg == Contents()[i]
    {
      var m := messages[i];
      var props := processInfo.Lookup(m.uid);
      var text := storage.GetString(i);
      ReadBackIff(storage.contents);
      msg := Message(m.time, m.systemTime, props.pid, props.name, text);
      color := props.color;
    }

    /** Distinct logs do not share their parts. */
    ghost predicate Apart(other: LogFile) {
      other == this || (other.storage != storage && other.processInfo != processInfo)
    }

    /** Add(other[i]). */
    method AddFrom(other: LogFile, i: nat, color: nat) returns (ghost msg: Message)
      requires Valid() && other.Valid() && i < |other.messages| && Apart(other)
      modifies this, storage, processInfo, other.storage`readList, other.storage`readBlockIndex
      ensures Valid() && other.Valid()
      ensures Contents() == old(Contents()) + [msg]
      ensures other != this ==> other.Contents() == old(other.Contents())
      ensures msg == ReadAt(old(other.Contents()), i)
      ensures AllNulFree(old(other.storage.contents)) ==>
        AllNulFree(other.storage.contents) && msg == old(other.Contents())[i]
    {
      assert Texts(other.Contents()) == other.storage.contents;
      var m, c := other.Get(i);
      assert AllNulFree(other.storage.contents) ==> m.text == other.storage.contents[i];
      Add(m, color);
      msg := m;
    }

    /** Appends other[beginIndex..endIndex], both included; other may be this log.  colors(i) is the
        colour drawn if message i introduces a new process. */
    method Append(other: LogFile, beginIndex: nat, endIndex: int, colors: nat -> nat)
      requires Valid() && other.Valid() && endIndex < |other.messages| && Apart(other)
      modifies this, storage, processInfo, other.storage`readList, other.storage`readBlockIndex
      ensures Valid() && other.Valid()
      ensures Contents() == Copied(old(Contents()), old(other.Contents()), other == this, beginIndex, endIndex)
      ensures AllNulFree(old(other.storage.contents)) ==>
        Contents() == old(Contents()) + Slice(old(other.Contents()), beginIndex, endIndex + 1)
      ensures other != this ==> other.Contents() == old(other.Contents())
    {
      ghost var source, target, self := other.Contents(), Contents(), other == this;
      ghost var clean := AllNulFree(other.storage.contents);
      assert Texts(source) == other.storage.contents;
      var i: int := beginIndex;
      while i <= endIndex
        invariant Valid() && other.Valid()
        invariant beginIndex <= i && endIndex < |source|
        invariant if self then |source| <= |Contents()| else other.Contents() == source
        invariant Copied(target, source, self, beginIndex, endIndex)
          == Copied(Contents(), source, self, i, endIndex)
      {
        ghost var before := Contents();
        var msg := AddFrom(other, i, colors(i));
        CopiedStep(before, source, self, i, endIndex, msg);
        i := i + 1;
      }
      CopiedEnd(target, source, self, beginIndex, endIndex, clean);
    }

    /** Two messages share a uid, and so a colour source, exactly when pid and name are equal. */
    lemma SameUidIff(i: nat, j: nat)
      requires Valid() && i < |messages| && j < |messages|
      ensures messages[i].uid == messages[j].uid <==>
        Contents()[i].pid == Contents()[j].pid && Contents()[i].processName == Contents()[j].processName
      ensures messages[i].uid == messages[j].uid ==> Color(i) == Color(j)
    {
      var p := processInfo.properties;
      var u, v := messages[i].uid, messages[j].uid;
      assert u in p && v in p;
      assert u != v ==> !SameProcess(p[u], p[v]);
    }
  }
}
