/** Zooming on the timeline (DebugViewpp/CLogViewTabItem2.cpp).

    Times, durations and pixels are unbounded integers; a duration is a number of nanoseconds. */
module ViewPorts {
  import opened Arithmetic

  const START_UNIT := 500_000
  const START := Port(0, 5_000_000_000, START_UNIT, START_UNIT)

  /** C++ division truncates towards zero. */
  function Quotient(a: int, b: int): int
    requires b != 0
  {
    if a < 0 then -(-a / b) else a / b
  }

  // ----- one step along 1, 2, 5, 10, ... -----

  /** The value left of d by dividing by ten while it is more than ten. */
  function Leading(d: int): (r: int)
    ensures r <= 10
  {
    if d > 10 then Leading(d / 10) else d
  }

  function Increased(d: int): int {
    if Leading(d) == 2 then d * 2 + Quotient(d, 2) else d * 2
  }

  function Decreased(d: int): int {
    if Leading(d) == 5 then Quotient(d - Quotient(d, 5), 2)
    else if Quotient(d, 2) < 1 then 1 else Quotient(d, 2)
  }

  method Lead(d: int) returns (temp: int)
    ensures temp == Leading(d)
  {
    temp := d;
    while temp > 10
      invariant Leading(temp) == Leading(d)
    {
      temp := Quotient(temp, 10);
    }
  }

  method Increase(d: int) returns (r: int)
    ensures r == Increased(d)
  {
    var temp := Lead(d);
    if temp == 2 {
      return d * 2 + Quotient(d, 2);
    }
    return d * 2;
  }

  method Decrease(d: int) returns (r: int)
    ensures r == Decreased(d)
  {
    var temp := Lead(d);
    if temp == 5 {
      return Quotient(d - Quotient(d, 5), 2);
    }
    return if 1 > Quotient(d, 2) then 1 else Quotient(d, 2);
  }

  /** The n-th value of 1, 2, 5, 10, 20, 50, ... */
  function Rung(n: nat): (d: nat)
    ensures d >= 1
  {
    if n == 0 then 1 else if n == 1 then 2 else if n == 2 then 5 else 10 * Rung(n - 3)
  }

  /** The rungs are the products of 1, 2 or 5 with a power of ten. */
  lemma {:induction false} RungIs(n: nat)
    ensures Rung(n) == Power10(n / 3) * (if n % 3 == 0 then 1 else if n % 3 == 1 then 2 else 5)
  {
    if n > 2 {
      RungIs(n - 3);
      assert n / 3 == (n - 3) / 3 + 1 && n % 3 == (n - 3) % 3;
    }
  }

  lemma {:induction false} RungRises(n: nat)
    ensures if n % 3 == 1 then 2 * Rung(n + 1) == 5 * Rung(n) else Rung(n + 1) == 2 * Rung(n)
    ensures n % 3 == 1 ==> Rung(n) % 2 == 0
  {
    if n > 2 {
      RungRises(n - 3);
      assert n % 3 == (n - 3) % 3;
    }
  }

  lemma {:induction false} RungLeads(n: nat)
    ensures Leading(Rung(n)) == if n == 0 then 1 else if n % 3 == 0 then 10 else if n % 3 == 1 then 2 else 5
  {
    if n > 3 {
      RungLeads(n - 3);
      assert n % 3 == (n - 3) % 3;
      assert Rung(n) / 10 == Rung(n - 3);
      RungRises(n - 3);
      assert Rung(n) > 10;
    }
  }

  /** Increasing climbs one rung, decreasing goes down one rung, or stays on the lowest. */
  lemma StepsAlongRungs(n: nat)
    ensures Increased(Rung(n)) == Rung(n + 1)
    ensures Decreased(Rung(n)) == Rung(if n == 0 then 0 else n - 1)
  {
    RungLeads(n);
    RungRises(n);
    if n > 0 {
      RungRises(n - 1);
    }
  }

  lemma {:induction false} RungsGrow(m: nat, n: nat)
    requires m < n
    ensures Rung(m) < Rung(n)
  {
    RungRises(n - 1);
    if m < n - 1 {
      RungsGrow(m, n - 1);
    }
  }

  /** Decreasing undoes increasing. */
  lemma DecreaseUndoesIncrease(n: nat)
    ensures Decreased(Increased(Rung(n))) == Rung(n)
  {
    StepsAlongRungs(n);
    StepsAlongRungs(n + 1);
  }

  /** Increasing undoes decreasing exactly above a nanosecond. */
  lemma IncreaseUndoesDecreaseIff(n: nat)
    ensures Increased(Decreased(Rung(n))) == Rung(n) <==> Rung(n) > 1
  {
    var m := if n == 0 then 0 else n - 1;
    StepsAlongRungs(n);
    StepsAlongRungs(m);
    if n > 0 {
      RungsGrow(0, n);
    }
  }

  // ----- the viewport -----

  datatype Port = Port(begin: int, end: int, base: int, unit: int)

  datatype Zoom = In(position: int) | Out(position: int)

  /** The time at a pixel. */
  function TimeAt(v: Port, p: int): int {
    v.begin + p * v.unit
  }

  /** A zoom steps the unit and moves the begin by what that did to the time under the cursor. */
  function Zoomed(v: Port, z: Zoom): Port {
    var unit := if z.In? then Decreased(v.unit) else Increased(v.unit);
    v.(begin := v.begin + (TimeAt(v, z.position) - TimeAt(v.(unit := unit), z.position)), unit := unit)
  }

  function Run(v: Port, zooms: seq<Zoom>): Port
    decreases zooms
  {
    if zooms == [] then v else Run(Zoomed(v, zooms[0]), zooms[1..])
  }

  class ViewPort {
    var begin: int
    var end: int
    var unitBase: int
    var unit: int

    function Abstract(): Port
      reads this
    {
      Port(begin, end, unitBase, unit)
    }

    constructor (begin: int, end: int, unit: int)
      ensures Abstract() == Port(begin, end, unit, unit)
    {
      this.begin, this.end, this.unitBase, this.unit := begin, end, unit, unit;
    }

    function ToPx(t: int): int
      requires begin <= t && unit != 0
      reads this
    {
      Quotient(t - begin, unit)
    }

    function ToTimePoint(p: int): int
      reads this
    {
      begin + p * unit
    }

    predicate Contains(t: int)
      reads this
    {
      t >= begin && t <= end
    }

    method ZoomInTo(position: int)
      modifies this
      ensures Abstract() == Zoomed(old(Abstract()), In(position))
    {
      var t1 := ToTimePoint(position);
      unit := Decrease(unit);
      var t2 := ToTimePoint(position);
      begin := begin + (t1 - t2);
    }

    method ZoomOut(position: int)
      modifies this
      ensures Abstract() == Zoomed(old(Abstract()), Out(position))
    {
      var t1 := ToTimePoint(position);
      unit := Increase(unit);
      var t2 := ToTimePoint(position);
      begin := begin + (t1 - t2);
    }

    /** From pixels to times and back. */
    lemma PixelRoundTrip(p: nat)
      requires unit > 0
      ensures ToTimePoint(p) >= begin && ToPx(ToTimePoint(p)) == p
    {
      DivModUnique(p, 0, unit);
      assert p * unit >= 0;
    }

    /** From times to pixels and back: the pixel is the one the time falls in. */
    lemma PixelHolds(t: int)
      requires begin <= t && unit > 0
      ensures ToTimePoint(ToPx(t)) <= t < ToTimePoint(ToPx(t) + 1)
    {
      var d := t - begin;
      assert d == d / unit * unit + d % unit;
      assert (d / unit + 1) * unit == d / unit * unit + unit;
    }
  }

  /** Zooming leaves the time under the cursor where it is, whatever the unit. */
  lemma CursorStays(v: Port, z: Zoom)
    ensures TimeAt(Zoomed(v, z), z.position) == TimeAt(v, z.position)
  {
  }

  // ----- whole runs -----

  /** The rung after one zoom. */
  function Climb(n: nat, z: Zoom): nat {
    if z.Out? then n + 1 else if n == 0 then 0 else n - 1
  }

  /** The rung a run ends on. */
  function Level(n: nat, zooms: seq<Zoom>): nat
    decreases zooms
  {
    if zooms == [] then n
    else Level(Climb(n, zooms[0]), zooms[1..])
  }

  /** Every unit a run reaches is a rung, and which one depends only on the directions zoomed. */
  lemma {:induction false} RunStaysOnRungs(v: Port, n: nat, zooms: seq<Zoom>)
    requires v.unit == Rung(n)
    ensures Run(v, zooms).unit == Rung(Level(n, zooms))
    ensures Run(v, zooms).end == v.end && Run(v, zooms).base == v.base
    decreases zooms
  {
    if zooms != [] {
      StepsAlongRungs(n);
      RunStaysOnRungs(Zoomed(v, zooms[0]), Climb(n, zooms[0]), zooms[1..]);
    }
  }

  /** From the unit the timeline starts with, every unit is 1, 2 or 5 times a power of ten. */
  lemma StartIsOnRungs(zooms: seq<Zoom>)
    ensures var n := Level(17, zooms);
      Run(START, zooms).unit
        == Power10(n / 3) * (if n % 3 == 0 then 1 else if n % 3 == 1 then 2 else 5)
  {
    assert Rung(11) == 5000;
    assert Rung(17) == START_UNIT;
    RunStaysOnRungs(START, 17, zooms);
    RungIs(Level(17, zooms));
  }

  predicate AllAt(zooms: seq<Zoom>, p: int) {
    forall i :: 0 <= i < |zooms| ==> zooms[i].position == p
  }

  /** Zooming at one pixel, any number of times, fixes its time; so coming back to the first unit
      comes back to the first viewport. */
  lemma {:induction false} RunAtOnePixel(v: Port, zooms: seq<Zoom>, p: int)
    requires AllAt(zooms, p)
    ensures TimeAt(Run(v, zooms), p) == TimeAt(v, p)
    ensures Run(v, zooms).unit == v.unit <==> Run(v, zooms) == v
    decreases zooms
  {
    if zooms != [] {
      var next := Zoomed(v, zooms[0]);
      RunAtOnePixel(next, zooms[1..], p);
      CursorStays(v, zooms[0]);
    }
    var last := Run(v, zooms);
    RunKeepsEnd(v, zooms);
    assert last.unit == v.unit ==> p * last.unit == p * v.unit;
  }

  lemma {:induction false} RunKeepsEnd(v: Port, zooms: seq<Zoom>)
    ensures Run(v, zooms).end == v.end && Run(v, zooms).base == v.base
    decreases zooms
  {
    if zooms != [] {
      RunKeepsEnd(Zoomed(v, zooms[0]), zooms[1..]);
    }
  }

  function Flip(z: Zoom): Zoom {
    if z.In? then Out(z.position) else In(z.position)
  }

  /** The opposite zooms in the opposite order. */
  function Undo(zooms: seq<Zoom>): seq<Zoom> {
    if zooms == [] then [] else Undo(zooms[1..]) + [Flip(zooms[0])]
  }

  lemma {:induction false} RunAppend(v: Port, zooms: seq<Zoom>, z: Zoom)
    ensures Run(v, zooms + [z]) == Zoomed(Run(v, zooms), z)
    decreases zooms
  {
    if zooms == [] {
      assert zooms + [z] == [z];
    } else {
      assert (zooms + [z])[1..] == zooms[1..] + [z];
      RunAppend(Zoomed(v, zooms[0]), zooms[1..], z);
    }
  }

  /** A zoom is undone by its opposite exactly when it was not a zoom in from a nanosecond. */
  lemma FlipUndoes(v: Port, n: nat, z: Zoom)
    requires v.unit == Rung(n)
    ensures Zoomed(Zoomed(v, z), Flip(z)) == v <==> z.Out? || v.unit > 1
  {
    if z.Out? {
      DecreaseUndoesIncrease(n);
    } else {
      IncreaseUndoesDecreaseIff(n);
    }
    var next := Zoomed(v, z);
    var last := Zoomed(next, Flip(z));
    CursorStays(v, z);
    CursorStays(next, Flip(z));
    assert last.unit == v.unit ==> z.position * last.unit == z.position * v.unit;
  }

  /** How many zooms of a run are zooms in from a nanosecond. */
  function Stuck(n: nat, zooms: seq<Zoom>): nat
    decreases zooms
  {
    if zooms == [] then 0
    else (if zooms[0].In? && n == 0 then 1 else 0) + Stuck(Climb(n, zooms[0]), zooms[1..])
  }

  lemma {:induction false} LevelAppend(n: nat, zooms: seq<Zoom>, z: Zoom)
    ensures Level(n, zooms + [z]) == Climb(Level(n, zooms), z)
    decreases zooms
  {
    if zooms == [] {
      assert zooms + [z] == [z];
    } else {
      assert (zooms + [z])[1..] == zooms[1..] + [z];
      LevelAppend(Climb(n, zooms[0]), zooms[1..], z);
    }
  }

  /** Going back never gets stuck, and ends as many rungs higher as the way out got stuck. */
  lemma {:induction false} LevelUndone(n: nat, m: nat, zooms: seq<Zoom>)
    requires m >= Level(n, zooms)
    ensures Level(m, Undo(zooms)) == m - Level(n, zooms) + n + Stuck(n, zooms)
    decreases zooms
  {
    if zooms != [] {
      LevelUndone(Climb(n, zooms[0]), m, zooms[1..]);
      LevelAppend(m, Undo(zooms[1..]), Flip(zooms[0]));
    }
  }

  lemma {:induction false} FreeRunUndone(v: Port, n: nat, zooms: seq<Zoom>)
    requires v.unit == Rung(n) && Stuck(n, zooms) == 0
    ensures Run(Run(v, zooms), Undo(zooms)) == v
    decreases zooms
  {
    if zooms != [] {
      var z, rest := zooms[0], zooms[1..];
      var next := Zoomed(v, z);
      StepsAlongRungs(n);
      FreeRunUndone(next, Climb(n, z), rest);
      RunAppend(Run(next, rest), Undo(rest), Flip(z));
      if n > 0 {
        RungsGrow(0, n);
      }
      FlipUndoes(v, n, z);
    }
  }

  lemma UnitUndone(v: Port, n: nat, zooms: seq<Zoom>)
    requires v.unit == Rung(n)
    ensures Run(Run(v, zooms), Undo(zooms)).unit == Rung(n + Stuck(n, zooms))
  {
    var m := Level(n, zooms);
    RunStaysOnRungs(v, n, zooms);
    RunStaysOnRungs(Run(v, zooms), m, Undo(zooms));
    LevelUndone(n, m, zooms);
  }

  /** Playing the opposite zooms backwards, at whatever pixels they were, restores the viewport
      exactly when none of the zooms was a zoom in from a nanosecond. */
  lemma UndoRestoresIff(v: Port, n: nat, zooms: seq<Zoom>)
    requires v.unit == Rung(n)
    ensures Run(Run(v, zooms), Undo(zooms)) == v <==> Stuck(n, zooms) == 0
  {
    if Stuck(n, zooms) == 0 {
      FreeRunUndone(v, n, zooms);
    } else {
      UnitUndone(v, n, zooms);
      RungsGrow(n, n + Stuck(n, zooms));
    }
  }
}
