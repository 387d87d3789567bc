/** The call list both executors share: a vector kept in descending order of deadline, filled by
    binary search and popped from the back (class TimedCalls in CobaltFusion/Executor.cpp).

    The specification is a plain queue in order of arrival.  Arrange gives the vector that a queue
    stands for, and the refinement lemmas say what Insert, Pop and Remove on the vector mean for
    the queue: Pop serves the least deadline and, among equals, the earliest arrival. */
module TimedCallList {

  /** A scheduled call; its callback is identified by id.  An interval of 0 means "once";
      CallEvery asserts that its interval is positive. */
  datatype CallData = CallData(id: nat, at: int, interval: nat) {
    /** The entry Pop puts back when a periodic call is served. */
    function Next(): CallData {
      this.(at := at + interval)
    }
  }

  ghost predicate Descending(s: seq<CallData>) {
    forall i, j :: 0 <= i < j < |s| ==> s[i].at >= s[j].at
  }

  ghost predicate UniqueIds(s: seq<CallData>) {
    forall i, j :: 0 <= i < j < |s| ==> s[i].id != s[j].id
  }

  ghost predicate HasId(s: seq<CallData>, id: nat) {
    exists c :: c in s && c.id == id
  }

  /** s with c in front of the first entry that is due no later than c. */
  ghost function Place(s: seq<CallData>, c: CallData): seq<CallData> {
    if s == [] || s[0].at <= c.at then [c] + s else [s[0]] + Place(s[1..], c)
  }

  /** s without the calls named id. */
  ghost function Without(s: seq<CallData>, id: nat): seq<CallData> {
    if s == [] then []
    else if s[0].id == id then Without(s[1..], id)
    else [s[0]] + Without(s[1..], id)
  }

  /** What is left after serving the last entry, with a periodic call queued again. */
  ghost function AfterPop(s: seq<CallData>): seq<CallData>
    requires s != []
  {
    var c := s[|s| - 1];
    if c.interval != 0 then Place(s[..|s| - 1], c.Next()) else s[..|s| - 1]
  }

  /** The vector that holds the calls of an arrival-ordered queue. */
  ghost function Arrange(queue: seq<CallData>): seq<CallData> {
    if queue == [] then [] else Place(Arrange(queue[..|queue| - 1]), queue[|queue| - 1])
  }

  /** i is the call a stable priority queue serves next: least deadline, earliest arrival. */
  ghost predicate IsFirstDue(queue: seq<CallData>, i: int) {
    && 0 <= i < |queue|
    && (forall j :: 0 <= j < i ==> queue[i].at < queue[j].at)
    && (forall j :: i <= j < |queue| ==> queue[i].at <= queue[j].at)
  }

  ghost function Dropped(queue: seq<CallData>, i: nat): seq<CallData>
    requires i < |queue|
  {
    queue[..i] + queue[i + 1..]
  }

  // ----- facts about Place and Without -----

  lemma {:induction false} PlaceAt(s: seq<CallData>, c: CallData, i: nat)
    requires i <= |s|
    requires forall j :: 0 <= j < i ==> s[j].at > c.at
    requires i < |s| ==> s[i].at <= c.at
    ensures Place(s, c) == s[..i] + [c] + s[i..]
  {
    if i > 0 {
      PlaceAt(s[1..], c, i - 1);
      assert s[..i] == [s[0]] + s[1..][..i - 1];
      assert s[1..][i - 1..] == s[i..];
    }
  }

  lemma DescendingCons(c: CallData, s: seq<CallData>)
    ensures Descending([c] + s) <==> Descending(s) && (s == [] || c.at >= s[0].at)
  {
    var t := [c] + s;
    assert forall i :: 0 <= i < |s| ==> t[i + 1] == s[i];
    if Descending(t) && s != [] {
      assert t[0].at >= t[1].at;
    }
    if Descending(t) {
      forall i, j | 0 <= i < j < |s|
        ensures s[i].at >= s[j].at
      {
        assert t[i + 1].at >= t[j + 1].at;
      }
    }
  }

  lemma {:induction false} PlaceElements(s: seq<CallData>, c: CallData)
    ensures multiset(Place(s, c)) == multiset(s) + multiset{c}
    ensures |Place(s, c)| == |s| + 1
    ensures forall x :: x in Place(s, c) <==> x in s || x == c
  {
    if s != [] && s[0].at > c.at {
      PlaceElements(s[1..], c);
      assert s == [s[0]] + s[1..];
    }
  }

  lemma {:induction false} PlaceKeeps(s: seq<CallData>, c: CallData)
    requires Descending(s)
    ensures Descending(Place(s, c))
  {
    if s != [] {
      assert s == [s[0]] + s[1..];
      DescendingCons(s[0], s[1..]);
      if s[0].at > c.at {
        PlaceKeeps(s[1..], c);
        DescendingCons(s[0], Place(s[1..], c));
      } else {
        DescendingCons(c, s);
      }
    }
  }

  lemma UniqueIdsCons(c: CallData, s: seq<CallData>)
    ensures UniqueIds([c] + s) <==> !HasId(s, c.id) && UniqueIds(s)
  {
    var t := [c] + s;
    assert forall i :: 0 <= i < |s| ==> t[i + 1] == s[i];
    if UniqueIds(t) {
      forall x | x in s
        ensures x.id != c.id
      {
        var i :| 0 <= i < |s| && s[i] == x;
        assert t[0].id != t[i + 1].id;
      }
      forall i, j | 0 <= i < j < |s|
        ensures s[i].id != s[j].id
      {
        assert t[i + 1].id != t[j + 1].id;
      }
    }
  }

  lemma {:induction false} PlaceUnique(s: seq<CallData>, c: CallData)
    requires UniqueIds(s) && !HasId(s, c.id)
    ensures UniqueIds(Place(s, c))
  {
    if s != [] && s[0].at > c.at {
      assert s == [s[0]] + s[1..];
      UniqueIdsCons(s[0], s[1..]);
      PlaceUnique(s[1..], c);
      PlaceElements(s[1..], c);
      UniqueIdsCons(s[0], Place(s[1..], c));
    } else {
      UniqueIdsCons(c, s);
    }
  }

  lemma {:induction false} WithoutElements(s: seq<CallData>, id: nat)
    ensures forall c :: c in Without(s, id) <==> c in s && c.id != id
  {
    if s != [] {
      WithoutElements(s[1..], id);
      assert s == [s[0]] + s[1..];
    }
  }

  lemma {:induction false} WithoutDescending(s: seq<CallData>, id: nat)
    requires Descending(s)
    ensures Descending(Without(s, id))
  {
    if s != [] {
      var w := Without(s[1..], id);
      assert s == [s[0]] + s[1..];
      WithoutDescending(s[1..], id);
      WithoutElements(s[1..], id);
      DescendingCons(s[0], s[1..]);
      DescendingCons(s[0], w);
    }
  }

  lemma {:induction false} WithoutUnique(s: seq<CallData>, id: nat)
    requires UniqueIds(s)
    ensures UniqueIds(Without(s, id))
  {
    if s != [] {
      var w := Without(s[1..], id);
      assert s == [s[0]] + s[1..];
      UniqueIdsCons(s[0], s[1..]);
      WithoutUnique(s[1..], id);
      WithoutElements(s[1..], id);
      UniqueIdsCons(s[0], w);
    }
  }

  lemma {:induction false} WithoutAbsent(s: seq<CallData>, id: nat)
    requires !HasId(s, id)
    ensures Without(s, id) == s
  {
    if s != [] {
      assert s == [s[0]] + s[1..];
      WithoutAbsent(s[1..], id);
    }
  }

  /** Taking the one entry named id out of the middle is what Without does. */
  lemma {:induction false} WithoutAt(s: seq<CallData>, i: nat)
    requires i < |s| && UniqueIds(s)
    ensures Without(s, s[i].id) == s[..i] + s[i + 1..]
  {
    assert s == [s[0]] + s[1..];
    UniqueIdsCons(s[0], s[1..]);
    if i == 0 {
      WithoutAbsent(s[1..], s[0].id);
    } else {
      assert s[1..][i - 1] == s[i];
      WithoutAt(s[1..], i - 1);
      assert s[..i] == [s[0]] + s[1..][..i - 1];
    }
  }

  lemma {:induction false} WithoutPlace(s: seq<CallData>, c: CallData, id: nat)
    requires Descending(s)
    ensures Without(Place(s, c), id) == if c.id == id then Without(s, id) else Place(Without(s, id), c)
  {
    if s == [] || s[0].at <= c.at {
      assert ([c] + s)[1..] == s;
      WithoutElements(s, id);
      var w := Without(s, id);
      assert w != [] ==> w[0] in s && w[0].at <= c.at;
    } else {
      WithoutPlace(s[1..], c, id);
      assert Place(s, c)[0] == s[0] && Place(s, c)[1..] == Place(s[1..], c);
      if s[0].id != id {
        assert ([s[0]] + Without(s[1..], id))[1..] == Without(s[1..], id);
      }
    }
  }

  // ----- the vector refines a stable priority queue -----

  lemma {:induction false} ArrangeKeeps(queue: seq<CallData>)
    ensures Descending(Arrange(queue))
    ensures multiset(Arrange(queue)) == multiset(queue)
    ensures |Arrange(queue)| == |queue|
  {
    if queue != [] {
      var front := queue[..|queue| - 1];
      ArrangeKeeps(front);
      PlaceKeeps(Arrange(front), queue[|queue| - 1]);
      PlaceElements(Arrange(front), queue[|queue| - 1]);
      assert queue == front + [queue[|queue| - 1]];
    }
  }

  /** An arrival is one Insert. */
  lemma InsertRefines(queue: seq<CallData>, c: CallData)
    ensures Arrange(queue + [c]) == Place(Arrange(queue), c)
  {
    assert (queue + [c])[..|queue|] == queue;
  }

  /** How one more arrival changes which call is served next. */
  lemma FirstDueExtends(front: seq<CallData>, c: CallData, k: int)
    requires IsFirstDue(front, k)
    ensures IsFirstDue(front + [c], if c.at < front[k].at then |front| else k)
  {
    var queue := front + [c];
    assert forall j :: 0 <= j < |front| ==> queue[j] == front[j];
  }

  /** An arrival due before the back becomes the back. */
  lemma NewBack(v: seq<CallData>, c: CallData)
    requires v != [] && Descending(v) && c.at < v[|v| - 1].at
    ensures Place(v, c) == v + [c]
  {
    PlaceAt(v, c, |v|);
  }

  /** An arrival that is not due before the back goes in front of it. */
  lemma {:induction false} PlaceBeforeBack(v: seq<CallData>, back: CallData, c: CallData)
    requires c.at >= back.at
    ensures Place(v + [back], c) == Place(v, c) + [back]
  {
    if v != [] && v[0].at > c.at {
      PlaceBeforeBack(v[1..], back, c);
      assert (v + [back])[1..] == v[1..] + [back];
    } else if v == [] {
      assert v + [back] == [back];
    } else {
      assert [c] + (v + [back]) == [c] + v + [back];
    }
  }

  lemma DroppedAppend(front: seq<CallData>, c: CallData, k: nat)
    requires k < |front|
    ensures Dropped(front + [c], k) == Dropped(front, k) + [c]
  {
  }

  lemma ArriveBehind(front: seq<CallData>, c: CallData, k: nat)
    requires k < |front| && c.at >= front[k].at
    requires Arrange(front) == Arrange(Dropped(front, k)) + [front[k]]
    ensures Arrange(front + [c]) == Arrange(Dropped(front + [c], k)) + [front[k]]
  {
    InsertRefines(front, c);
    var rest := Dropped(front, k);
    PlaceBeforeBack(Arrange(rest), front[k], c);
    InsertRefines(rest, c);
    DroppedAppend(front, c, k);
  }

  lemma ArriveFirst(front: seq<CallData>, c: CallData, k: nat)
    requires k < |front| && c.at < front[k].at
    requires Arrange(front) == Arrange(Dropped(front, k)) + [front[k]]
    ensures Arrange(front + [c]) == Arrange(front) + [c]
  {
    InsertRefines(front, c);
    ArrangeKeeps(front);
    NewBack(Arrange(front), c);
  }

  lemma SingleFirstDue(c: CallData)
    ensures IsFirstDue([c], 0) && Arrange([c]) == Arrange(Dropped([c], 0)) + [c]
  {
    assert Arrange([c]) == Place(Arrange([]), c) by {
      assert [] + [c] == [c];
      InsertRefines([], c);
    }
    assert Dropped([c], 0) == [];
  }

  lemma NextFirstDue(front: seq<CallData>, c: CallData, k: nat) returns (i: nat)
    requires IsFirstDue(front, k) && Arrange(front) == Arrange(Dropped(front, k)) + [front[k]]
    ensures var queue := front + [c];
      IsFirstDue(queue, i) && Arrange(queue) == Arrange(Dropped(queue, i)) + [queue[i]]
  {
    FirstDueExtends(front, c, k);
    if c.at < front[k].at {
      i := |front|;
      ArriveFirst(front, c, k);
      assert Dropped(front + [c], i) == front;
    } else {
      i := k;
      ArriveBehind(front, c, k);
    }
  }

  /** The back of the vector is the call the queue owes next, and dropping it keeps the refinement. */
  lemma {:induction false} BackIsFirstDue(queue: seq<CallData>) returns (i: nat)
    requires queue != []
    ensures IsFirstDue(queue, i) && Arrange(queue) == Arrange(Dropped(queue, i)) + [queue[i]]
  {
    var n := |queue| - 1;
    var front, c := queue[..n], queue[n];
    assert queue == front + [c];
    if n == 0 {
      i := 0;
      SingleFirstDue(c);
      assert queue == [c];
    } else {
      var k := BackIsFirstDue(front);
      i := NextFirstDue(front, c, k);
    }
  }

  /** Pop serves the first due call, and puts a periodic one back behind the calls already waiting. */
  lemma PopRefines(queue: seq<CallData>) returns (i: nat)
    requires queue != []
    ensures IsFirstDue(queue, i)
    ensures var v := Arrange(queue);
      && v != []
      && v[|v| - 1] == queue[i]
      && AfterPop(v) == Arrange(Dropped(queue, i) + if queue[i].interval != 0 then [queue[i].Next()] else [])
  {
    i := BackIsFirstDue(queue);
    var v := Arrange(queue);
    assert v[..|v| - 1] == Arrange(Dropped(queue, i));
    InsertRefines(Dropped(queue, i), queue[i].Next());
    assert Dropped(queue, i) + [] == Dropped(queue, i);
  }

  /** Removing a call from the vector removes it from the queue, and nothing else. */
  lemma {:induction false} RemoveRefines(queue: seq<CallData>, id: nat)
    ensures Without(Arrange(queue), id) == Arrange(Without(queue, id))
  {
    if queue != [] {
      var n := |queue| - 1;
      RemoveRefines(queue[..n], id);
      ArrangeKeeps(queue[..n]);
      WithoutPlace(Arrange(queue[..n]), queue[n], id);
      WithoutLast(queue, id);
      if queue[n].id != id {
        InsertRefines(Without(queue[..n], id), queue[n]);
      } else {
        assert Without(queue[..n], id) + [] == Without(queue[..n], id);
      }
    }
  }

  lemma {:induction false} WithoutLast(s: seq<CallData>, id: nat)
    requires s != []
    ensures var n := |s| - 1;
      Without(s, id) == Without(s[..n], id) + if s[n].id == id then [] else [s[n]]
  {
    var n := |s| - 1;
    if n > 0 {
      WithoutLast(s[1..], id);
      assert s[1..][..n - 1] == s[..n][1..];
    }
  }

  lemma AfterPopElements(s: seq<CallData>)
    requires s != []
    ensures forall c :: c in AfterPop(s) ==> c in s[..|s| - 1] || c == s[|s| - 1].Next()
  {
    PlaceElements(s[..|s| - 1], s[|s| - 1].Next());
  }

  lemma AfterPopDescending(s: seq<CallData>)
    requires s != [] && Descending(s)
    ensures Descending(AfterPop(s))
  {
    PlaceKeeps(s[..|s| - 1], s[|s| - 1].Next());
  }

  lemma AfterPopUnique(s: seq<CallData>)
    requires s != [] && UniqueIds(s)
    ensures UniqueIds(AfterPop(s))
    ensures !HasId(s[..|s| - 1], s[|s| - 1].id)
  {
    var n := |s| - 1;
    forall c | c in s[..n]
      ensures c.id != s[n].id
    {
      var i :| 0 <= i < n && s[i] == c;
    }
    assert UniqueIds(s[..n]) by {
      assert forall i :: 0 <= i < n ==> s[..n][i] == s[i];
    }
    PlaceUnique(s[..n], s[n].Next());
  }

  // ----- the class -----

  /** The vector itself.  Ids come from one atomic counter (GetCallId), hence UniqueIds. */
  class TimedCalls {
    var calls: seq<CallData>

    ghost predicate Valid()
      reads this
    {
      Descending(calls) && UniqueIds(calls)
    }

    constructor ()
      ensures Valid() && calls == []
    {
      calls := [];
    }

    predicate IsEmpty()
      reads this
    {
      calls == []
    }

    /** std::lower_bound over "due later", then insert. */
    method Insert(call: CallData)
      requires Valid() && !HasId(calls, call.id)
      modifies this
      ensures Valid() && calls == Place(old(calls), call)
    {
      var lo, hi := 0, |calls|;
      while lo < hi
        invariant 0 <= lo <= hi <= |calls|
        invariant forall j :: 0 <= j < lo ==> calls[j].at > call.at
        invariant forall j :: hi <= j < |calls| ==> calls[j].at <= call.at
      {
        var mid := (lo + hi) / 2;
        if calls[mid].at > call.at {
          lo := mid + 1;
        } else {
          hi := mid;
        }
      }
      PlaceAt(calls, call, lo);
      PlaceKeeps(calls, call);
      PlaceUnique(calls, call);
      calls := calls[..lo] + [call] + calls[lo..];
    }

    /** std::find_if by id, then erase. */
    method Remove(id: nat)
      requires Valid()
      modifies this
      ensures Valid() && calls == Without(old(calls), id)
    {
      WithoutDescending(calls, id);
      WithoutUnique(calls, id);
      var i := 0;
      while i < |calls| && calls[i].id != id
        invariant 0 <= i <= |calls|
        invariant forall j :: 0 <= j < i ==> calls[j].id != id
      {
        i := i + 1;
      }
      if i < |calls| {
        WithoutAt(calls, i);
        calls := calls[..i] + calls[i + 1..];
      } else {
        WithoutAbsent(calls, id);
      }
    }

    function NextDeadline(): (at: int)
      requires !IsEmpty() && Valid()
      reads this
      ensures forall c :: c in calls ==> at <= c.at
    {
      calls[|calls| - 1].at
    }

    method Pop() returns (call: CallData)
      requires Valid() && !IsEmpty()
      modifies this
      ensures Valid()
      ensures call == old(calls)[|old(calls)| - 1] && calls == AfterPop(old(calls))
    {
      AfterPopDescending(calls);
      AfterPopUnique(calls);
      ghost var before := calls;
      call := calls[|calls| - 1];
      calls := calls[..|calls| - 1];
      if call.interval != 0 {
        Insert(call.Next());
      }
    }
  }
}
