/** Filter lists (DebugViewppLib/Filter.cpp).  Whether a filter's regular expression is found in a
    text is its field re; Once filters remember in matched that they have been. */
module Filters {

  datatype FilterType =
    Include | Exclude | Highlight | Token | Stop | Track | Once | Clear | Beep | MatchColor | Bookmark

  datatype Filter = Filter(filterType: FilterType, enable: bool, matched: bool, re: string -> bool)

  /** An enabled filter of this type is found in the text. */
  predicate Hits(f: Filter, filterType: FilterType, text: string) {
    f.enable && f.filterType == filterType && f.re(text)
  }

  ghost predicate AnyHits(filters: seq<Filter>, filterType: FilterType, text: string) {
    exists i :: 0 <= i < |filters| && Hits(filters[i], filterType, text)
  }

  ghost predicate HasInclude(filters: seq<Filter>) {
    exists i :: 0 <= i < |filters| && filters[i].enable && filters[i].filterType == Include
  }

  ghost predicate FirstOnce(filters: seq<Filter>, text: string) {
    exists i :: 0 <= i < |filters| && Hits(filters[i], Once, text) && !filters[i].matched
  }

  /** The verdict: not excluded, and let in by an Include filter, by a Once filter that has not been
      found before, or by the absence of Include filters. */
  ghost predicate Included(filters: seq<Filter>, text: string) {
    !AnyHits(filters, Exclude, text)
    && (HasInclude(filters) ==> AnyHits(filters, Include, text) || FirstOnce(filters, text))
  }

  function Touched(f: Filter, text: string): Filter {
    if Hits(f, Once, text) then f.(matched := true) else f
  }

  /** The filters after the verdict; an excluded text leaves no trace. */
  ghost function Updated(filters: seq<Filter>, text: string): (r: seq<Filter>)
    ensures |r| == |filters|
  {
    if AnyHits(filters, Exclude, text) then filters
    else seq(|filters|, i requires 0 <= i < |filters| => Touched(filters[i], text))
  }

  method MatchFilterType(filters: seq<Filter>, filterType: FilterType, text: string) returns (found: bool)
    ensures found <==> AnyHits(filters, filterType, text)
    ensures found <==>
      exists i :: 0 <= i < |filters| && filters[i].enable && filters[i].filterType == filterType && filters[i].re(text)
  {
    for i := 0 to |filters|
      invariant forall j :: 0 <= j < i ==> !Hits(filters[j], filterType, text)
    {
      if filters[i].enable && filters[i].filterType == filterType && filters[i].re(text) {
        assert Hits(filters[i], filterType, text);
        return true;
      }
    }
    return false;
  }

  method IsIncluded(filters: seq<Filter>, text: string) returns (verdict: bool, updated: seq<Filter>)
    ensures verdict <==> Included(filters, text)
    ensures updated == Updated(filters, text)
  {
    updated := filters;
    for i := 0 to |filters|
      invariant forall j :: 0 <= j < i ==> !Hits(filters[j], Exclude, text)
    {
      if !filters[i].enable {
        continue;
      }
      if filters[i].filterType == Exclude && filters[i].re(text) {
        assert Hits(filters[i], Exclude, text);
        return false, updated;
      }
    }
    var included, includeFilterPresent := false, false;
    for i := 0 to |filters|
      invariant |updated| == |filters|
      invariant forall j :: 0 <= j < i ==> updated[j] == Touched(filters[j], text)
      invariant forall j :: i <= j < |filters| ==> updated[j] == filters[j]
      invariant includeFilterPresent <==> HasInclude(filters[..i])
      invariant included <==> AnyHits(filters[..i], Include, text) || FirstOnce(filters[..i], text)
    {
      SoFar(filters, i, text);
      if !filters[i].enable {
        continue;
      }
      if filters[i].filterType == Include {
        includeFilterPresent := true;
        included := included || filters[i].re(text);
      }
      if filters[i].filterType == Once && filters[i].re(text) {
        included := included || !filters[i].matched;
        updated := updated[i := filters[i].(matched := true)];
      }
    }
    assert filters[..|filters|] == filters;
    verdict := !includeFilterPresent || included;
  }

  lemma SoFar(filters: seq<Filter>, i: nat, text: string)
    requires i < |filters|
    ensures var f := filters[i];
      && (HasInclude(filters[..i + 1]) <==> HasInclude(filters[..i]) || (f.enable && f.filterType == Include))
      && (AnyHits(filters[..i + 1], Include, text) <==> AnyHits(filters[..i], Include, text) || Hits(f, Include, text))
      && (FirstOnce(filters[..i + 1], text) <==> FirstOnce(filters[..i], text) || (Hits(f, Once, text) && !f.matched))
  {
    var a, b := filters[..i], filters[..i + 1];
    assert b == a + [filters[i]];
    assert b[i] == filters[i];
    assert forall j :: 0 <= j < i ==> a[j] == b[j];
  }

  // ----- verdicts over a run of texts -----

  /** The filters after a run of texts. */
  ghost function After(filters: seq<Filter>, texts: seq<string>): (r: seq<Filter>)
    ensures |r| == |filters|
  {
    if texts == [] then filters else Updated(After(filters, texts[..|texts| - 1]), texts[|texts| - 1])
  }

  ghost predicate Excluded(filters: seq<Filter>, text: string) {
    exists i :: 0 <= i < |filters| && filters[i].enable && filters[i].filterType == Exclude && filters[i].re(text)
  }

  /** Filter i is an enabled Once filter found in the text, which is not excluded. */
  ghost predicate UsesUp(filters: seq<Filter>, text: string, i: nat)
    requires i < |filters|
  {
    filters[i].enable && filters[i].filterType == Once && filters[i].re(text) && !Excluded(filters, text)
  }

  ghost predicate UsedUp(filters: seq<Filter>, texts: seq<string>, i: nat)
    requires i < |filters|
  {
    exists j :: 0 <= j < |texts| && UsesUp(filters, texts[j], i)
  }

  /** A text is let in by an enabled Include filter, or by an enabled Once filter not used up before. */
  ghost predicate LetIn(filters: seq<Filter>, before: seq<string>, text: string, i: nat)
    requires i < |filters|
  {
    && filters[i].enable && filters[i].re(text)
    && (filters[i].filterType == Include
        || (filters[i].filterType == Once && !filters[i].matched && !UsedUp(filters, before, i)))
  }

  lemma ExcludedIsAnyHits(filters: seq<Filter>, text: string)
    ensures AnyHits(filters, Exclude, text) <==> Excluded(filters, text)
  {
    AnyHitsIff(filters, Exclude, text);
  }

  lemma AnyHitsIff(filters: seq<Filter>, filterType: FilterType, text: string)
    ensures AnyHits(filters, filterType, text) <==>
      exists i :: 0 <= i < |filters| && filters[i].enable && filters[i].filterType == filterType && filters[i].re(text)
  {
    if AnyHits(filters, filterType, text) {
      var i :| 0 <= i < |filters| && Hits(filters[i], filterType, text);
    }
    if i :| 0 <= i < |filters| && filters[i].enable && filters[i].filterType == filterType && filters[i].re(text) {
      assert Hits(filters[i], filterType, text);
    }
  }

  lemma SameExclude(a: seq<Filter>, b: seq<Filter>, text: string)
    requires |a| == |b| && forall i :: 0 <= i < |a| ==> a[i] == b[i].(matched := a[i].matched)
    ensures Excluded(a, text) <==> Excluded(b, text)
    ensures HasInclude(a) <==> HasInclude(b)
  {
  }

  /** A run only marks filters, namely those it uses up. */
  lemma {:induction false} AfterMarks(filters: seq<Filter>, texts: seq<string>)
    ensures var after := After(filters, texts);
      forall i :: 0 <= i < |filters| ==>
        after[i] == filters[i].(matched := filters[i].matched || UsedUp(filters, texts, i))
  {
    if texts != [] {
      var n := |texts| - 1;
      var before, text := After(filters, texts[..n]), texts[n];
      AfterMarks(filters, texts[..n]);
      ExcludedIsAnyHits(before, text);
      SameExclude(before, filters, text);
      forall i | 0 <= i < |filters|
        ensures UsedUp(filters, texts, i) <==> UsedUp(filters, texts[..n], i) || UsesUp(filters, text, i)
      {
        UsedUpNext(filters, texts, i);
      }
    }
  }

  lemma UsedUpNext(filters: seq<Filter>, texts: seq<string>, i: nat)
    requires i < |filters| && texts != []
    ensures var n := |texts| - 1;
      UsedUp(filters, texts, i) <==> UsedUp(filters, texts[..n], i) || UsesUp(filters, texts[n], i)
  {
    var n := |texts| - 1;
    assert forall j :: 0 <= j < n ==> texts[..n][j] == texts[j];
  }

  /** Over every run of texts the next one is included exactly if no enabled Exclude filter is found in
      it and, should there be an enabled Include filter, one of those lets it in, or a Once filter
      that no earlier text, excluded ones aside, has used up. */
  lemma IncludedOverRuns(filters: seq<Filter>, before: seq<string>, text: string)
    ensures Included(After(filters, before), text) <==>
      && !Excluded(filters, text)
      && ((exists i :: 0 <= i < |filters| && filters[i].enable && filters[i].filterType == Include) ==>
            exists i :: 0 <= i < |filters| && LetIn(filters, before, text, i))
  {
    var after := After(filters, before);
    AfterMarks(filters, before);
    ExcludedIsAnyHits(after, text);
    SameExclude(after, filters, text);
    forall i | 0 <= i < |filters|
      ensures LetIn(filters, before, text, i) <==>
        Hits(after[i], Include, text) || (Hits(after[i], Once, text) && !after[i].matched)
    {
    }
    if AnyHits(after, Include, text) {
      var i :| 0 <= i < |after| && Hits(after[i], Include, text);
      assert LetIn(filters, before, text, i);
    }
    if FirstOnce(after, text) {
      var i :| 0 <= i < |after| && Hits(after[i], Once, text) && !after[i].matched;
      assert LetIn(filters, before, text, i);
    }
  }

  // ----- resetting, and what Track filters cannot influence -----

  /** ResetFilters for one filter. */
  function Fresh(f: Filter): Filter {
    if f.filterType == Once then f.(matched := false) else f
  }

  function Reset(filters: seq<Filter>): (r: seq<Filter>)
    ensures |r| == |filters|
  {
    seq(|filters|, i requires 0 <= i < |filters| => Fresh(filters[i]))
  }

  /** StopScrolling for one filter: Track filters are disabled. */
  function Hushed(f: Filter): Filter {
    if f.filterType == Track then f.(enable := false) else f
  }

  function Hush(filters: seq<Filter>): (r: seq<Filter>)
    ensures |r| == |filters|
  {
    seq(|filters|, i requires 0 <= i < |filters| => Hushed(filters[i]))
  }

  lemma HushHits(filters: seq<Filter>, filterType: FilterType, text: string)
    requires filterType != Track
    ensures AnyHits(Hush(filters), filterType, text) <==> AnyHits(filters, filterType, text)
    ensures FirstOnce(Hush(filters), text) <==> FirstOnce(filters, text)
    ensures HasInclude(Hush(filters)) <==> HasInclude(filters)
    ensures forall i :: 0 <= i < |filters| && filters[i].filterType == Track ==> !Hush(filters)[i].enable
  {
    var h := Hush(filters);
    assert forall i :: 0 <= i < |filters| ==> h[i] == Hushed(filters[i]);
    assert forall i :: 0 <= i < |filters| ==> Hits(h[i], filterType, text) == Hits(filters[i], filterType, text);
    assert forall i :: 0 <= i < |filters| ==> Hits(h[i], Once, text) == Hits(filters[i], Once, text);
  }

  /** Disabling the Track filters changes no verdict and commutes with the update. */
  lemma HushIsNeutral(filters: seq<Filter>, text: string)
    ensures Included(Hush(filters), text) <==> Included(filters, text)
    ensures Updated(Hush(filters), text) == Hush(Updated(filters, text))
  {
    HushHits(filters, Exclude, text);
    HushHits(filters, Include, text);
    if !AnyHits(filters, Exclude, text) {
      forall i | 0 <= i < |filters|
        ensures Touched(Hushed(filters[i]), text) == Hushed(Touched(filters[i], text))
      {
      }
    }
  }

  /** Verdicts leave only matched flags behind, which Reset takes back. */
  lemma ResetForgets(filters: seq<Filter>, text: string)
    ensures Reset(Updated(filters, text)) == Reset(filters)
    ensures Reset(Hush(filters)) == Hush(Reset(filters))
  {
  }
}
