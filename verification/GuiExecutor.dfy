/** The executor of the GUI thread (CobaltFusion/GuiExecutor.cpp): every task ends in ResetTimer,
    which runs whatever is due and then arms the window timer for the first call that is not.

    Drain is the specification of that loop for a clock that stands still and callbacks that leave the
    call list alone.  Its termination measure is the number of runs still owed.  Serve is the loop with
    a clock reading of its own for every round; it amounts to Drain at the last reading. */
module GuiExecution {
  import opened TimedCallList
  import Arithmetic

  datatype Timer = Cleared | Armed(ms: int)

  const NS_PER_MS := 1_000_000

  /** How often a call is due by now. */
  function Firings(c: CallData, now: int): nat
  {
    if c.at > now then 0 else if c.interval == 0 then 1 else (now - c.at) / c.interval + 1
  }

  /** Every run of one call that is due by now, first to last. */
  ghost function Runs(c: CallData, now: int): seq<CallData>
    decreases now - c.at
  {
    if c.at > now then [] else if c.interval == 0 then [c] else [c] + Runs(c.Next(), now)
  }

  /** What remains scheduled of one call once its due runs are done. */
  ghost function Residue(c: CallData, now: int): multiset<CallData>
  {
    if c.at <= now && c.interval == 0 then multiset{}
    else multiset{c.(at := c.at + Firings(c, now) * c.interval)}
  }

  ghost function AllRuns(s: seq<CallData>, now: int): multiset<CallData>
  {
    if s == [] then multiset{} else multiset(Runs(s[0], now)) + AllRuns(s[1..], now)
  }

  ghost function AllResidue(s: seq<CallData>, now: int): multiset<CallData>
  {
    if s == [] then multiset{} else Residue(s[0], now) + AllResidue(s[1..], now)
  }

  /** The loop of ResetTimer: the callbacks it runs, in order, and the calls it leaves. */
  ghost function Drain(s: seq<CallData>, now: int): (result: (seq<CallData>, seq<CallData>))
    decreases |AllRuns(s, now)|
  {
    if s == [] || s[|s| - 1].at > now then ([], s)
    else
      ServedOnce(s, now);
      var rest := Drain(AfterPop(s), now);
      ([s[|s| - 1]] + rest.0, rest.1)
  }

  lemma DrainStep(s: seq<CallData>, now: int)
    requires s != [] && s[|s| - 1].at <= now
    ensures |AllRuns(AfterPop(s), now)| < |AllRuns(s, now)|
    ensures Drain(s, now).0 == [s[|s| - 1]] + Drain(AfterPop(s), now).0
    ensures Drain(s, now).1 == Drain(AfterPop(s), now).1
  {
    ServedOnce(s, now);
  }

  lemma Shift(before: seq<CallData>, call: CallData, after: seq<CallData>)
    ensures before + ([call] + after) == before + [call] + after
  {
  }

  /** duration_cast of a non-negative delay to milliseconds. */
  function DelayMs(at: int, now: int): int {
    (at - now) / NS_PER_MS
  }

  ghost function TimerFor(left: seq<CallData>, now: int): Timer {
    if left == [] then Cleared else Armed(DelayMs(left[|left| - 1].at, now))
  }

  /** The timer is armed exactly if calls are left, for the whole milliseconds up to their least deadline. */
  lemma TimerIsForFirst(left: seq<CallData>, now: int)
    requires Descending(left) && forall c :: c in left ==> c.at > now
    ensures TimerFor(left, now).Armed? <==> left != []
    ensures left != [] ==>
      var ms, first := TimerFor(left, now).ms, left[|left| - 1].at;
      && ms >= 0 && now + 1_000_000 * ms <= first && first < now + 1_000_000 * ms + 1_000_000
      && forall c :: c in left ==> first <= c.at
  {
    if left != [] {
      assert left[|left| - 1] in left;
    }
  }

  // ----- one call -----

  lemma {:induction false} RunsAt(c: CallData, now: int, k: nat)
    ensures |Runs(c, now)| == Firings(c, now)
    ensures k < Firings(c, now) ==> Runs(c, now)[k] == c.(at := c.at + k * c.interval)
    decreases now - c.at
  {
    if c.at <= now && c.interval > 0 {
      RunsAt(c.Next(), now, if k > 0 then k - 1 else 0);
      FiringsOfNext(c, now);
      if k > 0 {
        assert c.at + c.interval + (k - 1) * c.interval == c.at + k * c.interval;
      }
    }
  }

  lemma FiringsOfNext(c: CallData, now: int)
    requires c.interval > 0 && c.at <= now
    ensures Firings(c, now) == Firings(c.Next(), now) + 1
  {
    var d, m := now - c.at, c.interval;
    var q, r := d / m, d % m;
    assert d == q * m + r;
    if d < m {
      Arithmetic.DivModUnique(0, d, m);
    } else {
      assert d - m == (q - 1) * m + r;
      Arithmetic.DivModUnique(q - 1, r, m);
    }
  }

  lemma ResidueOfNext(c: CallData, now: int)
    requires c.interval > 0 && c.at <= now
    ensures Residue(c, now) == Residue(c.Next(), now)
  {
    FiringsOfNext(c, now);
    var n := Firings(c.Next(), now);
    assert c.at + (n + 1) * c.interval == c.at + c.interval + n * c.interval;
  }

  // ----- the whole list -----

  lemma {:induction false} RunsPlace(s: seq<CallData>, c: CallData, now: int)
    ensures AllRuns(Place(s, c), now) == AllRuns(s, now) + multiset(Runs(c, now))
  {
    if s != [] && s[0].at > c.at {
      RunsPlace(s[1..], c, now);
      assert Place(s, c)[1..] == Place(s[1..], c);
    } else {
      assert ([c] + s)[1..] == s;
    }
  }

  lemma {:induction false} ResiduePlace(s: seq<CallData>, c: CallData, now: int)
    ensures AllResidue(Place(s, c), now) == AllResidue(s, now) + Residue(c, now)
  {
    if s != [] && s[0].at > c.at {
      ResiduePlace(s[1..], c, now);
      assert Place(s, c)[1..] == Place(s[1..], c);
    } else {
      assert ([c] + s)[1..] == s;
    }
  }

  lemma {:induction false} AllRunsLast(s: seq<CallData>, c: CallData, now: int)
    ensures AllRuns(s + [c], now) == AllRuns(s, now) + multiset(Runs(c, now))
  {
    if s == [] {
      assert (s + [c])[1..] == [];
    } else {
      AllRunsLast(s[1..], c, now);
      assert (s + [c])[1..] == s[1..] + [c];
    }
  }

  lemma {:induction false} AllResidueLast(s: seq<CallData>, c: CallData, now: int)
    ensures AllResidue(s + [c], now) == AllResidue(s, now) + Residue(c, now)
  {
    if s == [] {
      assert (s + [c])[1..] == [];
    } else {
      AllResidueLast(s[1..], c, now);
      assert (s + [c])[1..] == s[1..] + [c];
    }
  }

  /** One Pop performs exactly one of the owed runs and owes the rest as before. */
  lemma ServedOnce(s: seq<CallData>, now: int)
    requires s != [] && s[|s| - 1].at <= now
    ensures AllRuns(s, now) == AllRuns(AfterPop(s), now) + multiset{s[|s| - 1]}
    ensures AllResidue(s, now) == AllResidue(AfterPop(s), now)
  {
    var front, c := s[..|s| - 1], s[|s| - 1];
    assert s == front + [c];
    AllRunsLast(front, c, now);
    AllResidueLast(front, c, now);
    if c.interval != 0 {
      RunsPlace(front, c.Next(), now);
      ResiduePlace(front, c.Next(), now);
      ResidueOfNext(c, now);
    }
  }

  /** No run is lost or added, and the calls left are the due ones moved past now and the others untouched. */
  lemma {:induction false} DrainConserves(s: seq<CallData>, now: int)
    requires Descending(s)
    ensures multiset(Drain(s, now).0) == AllRuns(s, now)
    ensures multiset(Drain(s, now).1) == AllResidue(s, now)
    decreases |AllRuns(s, now)|
  {
    if s == [] {
    } else if s[|s| - 1].at > now {
      NothingDue(s, now);
    } else {
      ServedOnce(s, now);
      AfterPopDescending(s);
      DrainConserves(AfterPop(s), now);
    }
  }

  lemma NotDue(c: CallData, now: int)
    requires c.at > now
    ensures Runs(c, now) == [] && Residue(c, now) == multiset{c}
  {
    assert 0 * c.interval == 0;
  }

  lemma {:induction false} NothingDue(s: seq<CallData>, now: int)
    requires forall c :: c in s ==> c.at > now
    ensures AllRuns(s, now) == multiset{} && AllResidue(s, now) == multiset(s)
  {
    if s != [] {
      NotDue(s[0], now);
      NothingDue(s[1..], now);
      assert s == [s[0]] + s[1..];
    }
  }

  ghost predicate Ascending(s: seq<CallData>) {
    forall i, j :: 0 <= i < j < |s| ==> s[i].at <= s[j].at
  }

  /** Every call the loop leaves is due later than now. */
  lemma {:induction false} DrainLeavesNoneDue(s: seq<CallData>, now: int)
    requires Descending(s)
    ensures Descending(Drain(s, now).1)
    ensures forall c :: c in Drain(s, now).1 ==> c.at > now
    decreases |AllRuns(s, now)|
  {
    if s != [] && s[|s| - 1].at <= now {
      DrainStep(s, now);
      AfterPopDescending(s);
      DrainLeavesNoneDue(AfterPop(s), now);
    }
  }

  /** Callbacks run in deadline order, and none before its deadline. */
  lemma {:induction false} DrainOrder(s: seq<CallData>, now: int)
    requires Descending(s)
    ensures Ascending(Drain(s, now).0)
    ensures forall c :: c in Drain(s, now).0 ==> c.at <= now && s != [] && s[|s| - 1].at <= c.at
    decreases |AllRuns(s, now)|
  {
    if s != [] && s[|s| - 1].at <= now {
      DrainStep(s, now);
      AfterPopDescending(s);
      DrainOrder(AfterPop(s), now);
      BackNotLater(s);
      AscendingCons(s[|s| - 1], Drain(AfterPop(s), now).0);
    }
  }

  lemma BackNotLater(s: seq<CallData>)
    requires Descending(s) && s != []
    ensures var next := AfterPop(s); next != [] ==> s[|s| - 1].at <= next[|next| - 1].at
  {
    AfterPopElements(s);
    var next := AfterPop(s);
    assert next != [] ==> next[|next| - 1] in next;
  }

  lemma AscendingCons(c: CallData, s: seq<CallData>)
    requires Ascending(s) && forall x :: x in s ==> c.at <= x.at
    ensures Ascending([c] + s)
  {
    assert forall i :: 0 <= i < |s| ==> ([c] + s)[i + 1] == s[i] && s[i] in s;
  }

  // ----- a moving clock -----

  ghost predicate NonDecreasing(readings: seq<int>) {
    forall i, j :: 0 <= i < j < |readings| ==> readings[i] <= readings[j]
  }

  /** The loop with one clock reading a round. */
  ghost function Serve(s: seq<CallData>, readings: seq<int>): (seq<CallData>, seq<CallData>)
    decreases |readings|
  {
    if s == [] || readings == [] || s[|s| - 1].at > readings[0] then ([], s)
    else
      var rest := Serve(AfterPop(s), readings[1..]);
      ([s[|s| - 1]] + rest.0, rest.1)
  }

  /** The loop is over before the readings are. */
  ghost predicate Ends(s: seq<CallData>, readings: seq<int>)
    decreases |readings|
  {
    s == [] || (readings != [] && (s[|s| - 1].at > readings[0] || Ends(AfterPop(s), readings[1..])))
  }

  /** The reading of the last round. */
  ghost function LastReading(s: seq<CallData>, readings: seq<int>): int
    decreases |readings|
  {
    if readings == [] then 0
    else if s == [] || s[|s| - 1].at > readings[0] || AfterPop(s) == [] then readings[0]
    else LastReading(AfterPop(s), readings[1..])
  }

  lemma {:induction false} LastReadingIsReading(s: seq<CallData>, readings: seq<int>)
    requires readings != [] && Ends(s, readings)
    ensures LastReading(s, readings) in readings
    decreases |readings|
  {
    if s != [] && s[|s| - 1].at <= readings[0] && AfterPop(s) != [] {
      LastReadingIsReading(AfterPop(s), readings[1..]);
    }
  }

  /** Whatever the clock does between the rounds, as long as it does not go back, the loop runs and
      leaves what it would if the clock had stood at its last reading all the time. */
  lemma {:induction false} ServeIsDrain(s: seq<CallData>, readings: seq<int>)
    requires NonDecreasing(readings) && Ends(s, readings)
    ensures Serve(s, readings) == Drain(s, LastReading(s, readings))
    decreases |readings|
  {
    if s != [] && s[|s| - 1].at <= readings[0] {
      var next, later := AfterPop(s), readings[1..];
      ServeIsDrain(next, later);
      if next != [] {
        LastReadingIsReading(next, later);
        var k :| 0 <= k < |later| && later[k] == LastReading(next, later);
        assert readings[0] <= readings[k + 1];
      }
      DrainStep(s, LastReading(s, readings));
    }
  }

  /** No callback runs before its deadline by the reading of its own round. */
  lemma {:induction false} ServeNotEarly(s: seq<CallData>, readings: seq<int>, k: nat)
    requires k < |Serve(s, readings).0|
    ensures k < |readings| && Serve(s, readings).0[k].at <= readings[k]
    decreases |readings|
  {
    if k > 0 {
      ServeNotEarly(AfterPop(s), readings[1..], k - 1);
    }
  }

  /** The callbacks run in deadline order, and what is left is due later than the last reading. */
  lemma ServeOrder(s: seq<CallData>, readings: seq<int>)
    requires Descending(s) && NonDecreasing(readings) && Ends(s, readings)
    ensures Ascending(Serve(s, readings).0) && Descending(Serve(s, readings).1)
    ensures forall c :: c in Serve(s, readings).1 ==> c.at > LastReading(s, readings)
  {
    var now := LastReading(s, readings);
    ServeIsDrain(s, readings);
    DrainOrder(s, now);
    DrainLeavesNoneDue(s, now);
  }

  /** The loop ends if the clock stays within a limit for more rounds than runs are owed by then. */
  lemma {:induction false} EndsInTime(s: seq<CallData>, readings: seq<int>, limit: int)
    requires forall i :: 0 <= i < |readings| ==> readings[i] <= limit
    requires |readings| > |AllRuns(s, limit)|
    ensures Ends(s, readings)
    decreases |readings|
  {
    if s != [] && s[|s| - 1].at <= readings[0] {
      DrainStep(s, limit);
      EndsInTime(AfterPop(s), readings[1..], limit);
    }
  }

  /** The loop has made k rounds; before and ran are the callbacks run before it and so far. */
  ghost predicate Serving(first: seq<CallData>, readings: seq<int>, before: seq<CallData>, calls: seq<CallData>,
      ran: seq<CallData>, k: nat)
  {
    && k <= |readings| && Ends(calls, readings[k..])
    && before + Serve(first, readings).0 == ran + Serve(calls, readings[k..]).0
    && Serve(first, readings).1 == Serve(calls, readings[k..]).1
    && (calls != [] ==> LastReading(first, readings) == LastReading(calls, readings[k..]))
  }

  lemma Served(first: seq<CallData>, readings: seq<int>, before: seq<CallData>, ran: seq<CallData>, k: nat)
    requires Serving(first, readings, before, [], ran, k)
    ensures ran == before + Serve(first, readings).0 && Serve(first, readings).1 == []
  {
    assert ran + [] == ran;
  }

  lemma ServingStep(first: seq<CallData>, readings: seq<int>, before: seq<CallData>, calls: seq<CallData>,
      ran: seq<CallData>, k: nat)
    requires Serving(first, readings, before, calls, ran, k) && calls != []
    ensures k < |readings|
    ensures if calls[|calls| - 1].at <= readings[k]
            then Serving(first, readings, before, AfterPop(calls), ran + [calls[|calls| - 1]], k + 1)
            else (ran == before + Serve(first, readings).0 && calls == Serve(first, readings).1
                  && LastReading(first, readings) == readings[k])
  {
    assert readings[k..][0] == readings[k] && readings[k..][1..] == readings[k + 1..];
    if calls[|calls| - 1].at <= readings[k] {
      Shift(ran, calls[|calls| - 1], Serve(AfterPop(calls), readings[k + 1..]).0);
    } else {
      assert ran + [] == ran;
    }
  }

  // ----- counting the runs of one id -----

  function CountId(s: seq<CallData>, id: nat): nat {
    if s == [] then 0 else (if s[0].id == id then 1 else 0) + CountId(s[1..], id)
  }

  ghost function Owed(s: seq<CallData>, id: nat, now: int): nat
  {
    if s == [] then 0 else (if s[0].id == id then Firings(s[0], now) else 0) + Owed(s[1..], id, now)
  }

  lemma {:induction false} OwedPlace(s: seq<CallData>, c: CallData, id: nat, now: int)
    ensures Owed(Place(s, c), id, now) == Owed(s, id, now) + if c.id == id then Firings(c, now) else 0
  {
    PlaceElements(s, c);
    if s != [] && s[0].at > c.at {
      OwedPlace(s[1..], c, id, now);
      assert Place(s, c)[1..] == Place(s[1..], c);
    } else {
      assert ([c] + s)[1..] == s;
    }
  }

  lemma {:induction false} OwedLast(s: seq<CallData>, c: CallData, id: nat, now: int)
    ensures Owed(s + [c], id, now) == Owed(s, id, now) + if c.id == id then Firings(c, now) else 0
  {
    if s == [] {
      assert (s + [c])[1..] == [];
    } else {
      OwedLast(s[1..], c, id, now);
      assert (s + [c])[1..] == s[1..] + [c];
    }
  }

  lemma OwedAfterPop(s: seq<CallData>, id: nat, now: int)
    requires s != [] && s[|s| - 1].at <= now
    ensures Owed(s, id, now) == (if s[|s| - 1].id == id then 1 else 0) + Owed(AfterPop(s), id, now)
  {
    var front, c := s[..|s| - 1], s[|s| - 1];
    assert s == front + [c];
    OwedLast(front, c, id, now);
    if c.interval != 0 {
      OwedPlace(front, c.Next(), id, now);
      FiringsOfNext(c, now);
    }
  }

  lemma {:induction false} DrainCount(s: seq<CallData>, id: nat, now: int)
    requires Descending(s)
    ensures CountId(Drain(s, now).0, id) == Owed(s, id, now)
    decreases |AllRuns(s, now)|
  {
    if s == [] {
    } else if s[|s| - 1].at > now {
      NothingOwed(s, id, now);
    } else {
      DrainStep(s, now);
      AfterPopDescending(s);
      DrainCount(AfterPop(s), id, now);
      OwedAfterPop(s, id, now);
      var c, runs := s[|s| - 1], Drain(AfterPop(s), now).0;
      assert ([c] + runs)[1..] == runs;
    }
  }

  lemma {:induction false} NothingOwed(s: seq<CallData>, id: nat, now: int)
    requires (forall c :: c in s ==> c.at > now) || !HasId(s, id)
    ensures Owed(s, id, now) == 0
  {
    if s != [] {
      NothingOwed(s[1..], id, now);
    }
  }

  lemma {:induction false} OwedByOne(s: seq<CallData>, i: nat, now: int)
    requires UniqueIds(s) && i < |s|
    ensures Owed(s, s[i].id, now) == Firings(s[i], now)
  {
    assert s == [s[0]] + s[1..];
    UniqueIdsCons(s[0], s[1..]);
    if i == 0 {
      NothingOwed(s[1..], s[0].id, now);
    } else {
      assert s[1..][i - 1] == s[i] && s[i] in s[1..];
      OwedByOne(s[1..], i - 1, now);
    }
  }

  /** Each due one-shot call runs once, each due periodic call floor((now - at) / interval) + 1 times. */
  lemma RunsPerCall(s: seq<CallData>, i: nat, now: int)
    requires UniqueIds(s) && Descending(s) && i < |s|
    ensures CountId(Drain(s, now).0, s[i].id) == Firings(s[i], now)
  {
    DrainCount(s, s[i].id, now);
    OwedByOne(s, i, now);
  }

  /** Once cancelled, a call neither runs in the loop nor stays scheduled. */
  lemma CancelledNeverRuns(s: seq<CallData>, id: nat, now: int)
    requires Descending(s)
    ensures CountId(Drain(Without(s, id), now).0, id) == 0
    ensures !HasId(Drain(Without(s, id), now).1, id)
  {
    var w := Without(s, id);
    WithoutElements(s, id);
    WithoutDescending(s, id);
    DrainCount(w, id, now);
    NothingOwed(w, id, now);
    DrainConserves(w, now);
    ResidueIds(w, now);
    var left := Drain(w, now).1;
    assert forall c :: c in left ==> c in multiset(left);
  }

  lemma {:induction false} ResidueIds(s: seq<CallData>, now: int)
    ensures forall c :: c in AllResidue(s, now) ==> HasId(s, c.id)
  {
    if s != [] {
      ResidueIds(s[1..], now);
      assert s == [s[0]] + s[1..];
      assert forall c :: c in AllResidue(s, now) ==> c in Residue(s[0], now) || c in AllResidue(s[1..], now);
    }
  }

  // ----- the class -----

  class GuiExecutor {
    const scheduled: TimedCalls
    var ran: seq<CallData>  // the callbacks run so far, in order
    var timer: Timer

    ghost predicate Valid()
      reads this, scheduled
    {
      scheduled.Valid()
    }

    constructor ()
      ensures Valid() && fresh(scheduled) && scheduled.calls == [] && ran == []
    {
      scheduled := new TimedCalls();
      ran := [];
      timer := Cleared;
    }

    /** Runs everything due, one clock reading a round, then arms the timer for what is left.  The
        readings are those the loop makes before it ends, or more. */
    method ResetTimer(readings: seq<int>)
      requires Valid() && NonDecreasing(readings) && Ends(scheduled.calls, readings)
      modifies this, scheduled
      ensures Valid()
      ensures ran == old(ran) + Serve(old(scheduled.calls), readings).0
      ensures scheduled.calls == Serve(old(scheduled.calls), readings).1
      ensures timer == TimerFor(scheduled.calls, LastReading(old(scheduled.calls), readings))
    {
      timer := Cleared;
      ghost var first, before := scheduled.calls, ran;
      var k := 0;
      assert Serving(first, readings, before, scheduled.calls, ran, k) by {
        assert readings[0..] == readings;
      }
      while !scheduled.IsEmpty()
        invariant Valid() && timer == Cleared && Serving(first, readings, before, scheduled.calls, ran, k)
        decreases |readings| - k
      {
        ServingStep(first, readings, before, scheduled.calls, ran, k);
        var now := readings[k];
        var at := scheduled.NextDeadline();
        if at <= now {
          var call := scheduled.Pop();
          ran := ran + [call];
          k := k + 1;
        } else {
          timer := Armed(DelayMs(at, now));
          break;
        }
      }
      if scheduled.IsEmpty() {
        Served(first, readings, before, ran, k);
      }
    }

    /** The closure posted by CallAt (interval 0) and CallEvery. */
    method Schedule(call: CallData, readings: seq<int>)
      requires Valid() && !HasId(scheduled.calls, call.id)
      requires NonDecreasing(readings) && Ends(Place(scheduled.calls, call), readings)
      modifies this, scheduled
      ensures Valid()
      ensures ran == old(ran) + Serve(Place(old(scheduled.calls), call), readings).0
      ensures scheduled.calls == Serve(Place(old(scheduled.calls), call), readings).1
      ensures forall c :: c in scheduled.calls ==> c.at > LastReading(Place(old(scheduled.calls), call), readings)
    {
      scheduled.Insert(call);
      ServeOrder(scheduled.calls, readings);
      ResetTimer(readings);
    }

    /** Cancel, on the GUI thread or in the closure it posts there. */
    method Cancel(id: nat, readings: seq<int>)
      requires Valid() && NonDecreasing(readings) && Ends(Without(scheduled.calls, id), readings)
      modifies this, scheduled
      ensures Valid() && !HasId(scheduled.calls, id)
      ensures CountId(ran, id) == CountId(old(ran), id)
      ensures ran == old(ran) + Serve(Without(old(scheduled.calls), id), readings).0
      ensures scheduled.calls == Serve(Without(old(scheduled.calls), id), readings).1
    {
      scheduled.Remove(id);
      ghost var now := LastReading(Without(old(scheduled.calls), id), readings);
      CancelledNeverRuns(old(scheduled.calls), id, now);
      ServeIsDrain(scheduled.calls, readings);
      CountIdConcat(ran, Drain(scheduled.calls, now).0, id);
      ResetTimer(readings);
    }
  }

  lemma {:induction false} CountIdConcat(a: seq<CallData>, b: seq<CallData>, id: nat)
    ensures CountId(a + b, id) == CountId(a, id) + CountId(b, id)
  {
    if a == [] {
      assert a + b == b;
    } else {
      CountIdConcat(a[1..], b, id);
      assert (a + b)[1..] == a[1..] + b;
    }
  }
}
