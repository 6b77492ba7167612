/**
 * The spot list widget (src/termlogger/widgets/spots_table.py): a capped,
 * newest-first list of spots, the sub-list that passes a band filter and a
 * mode filter, the two filter selectors that cycle through fixed lists,
 * and the header line that summarises them.
 */
module Spots {
  import opened Prelude
  import opened Strings
  import opened Models

  /** One spot of on-air activity; only its band and mode take part in filtering. */
  datatype Spot = Spot(
    callsign: string,
    frequency: int,
    band: Option<Band>,
    mode: Option<string>,
    spotter: string,
    info: string)

  /** The filter value that lets everything through. */
  const All: string := "All"

  /** The most spots `AddSpot` keeps. */
  const MaxSpots: nat := 100

  /** Mode filter values, in cycle order. */
  const FilterModes: seq<string> := ["All", "CW", "SSB", "FT8", "FT4", "RTTY", "FM", "DIGITAL"]

  /** Band filter values, in cycle order. */
  const FilterBands: seq<string> :=
    ["All", "160m", "80m", "40m", "30m", "20m", "17m", "15m", "12m", "10m", "6m", "2m"]

  predicate PassesBand(spot: Spot, bandFilter: string) {
    bandFilter == All || (spot.band.Some? && BandName(spot.band.value) == bandFilter)
  }

  /** The mode comparison ignores case. */
  predicate PassesMode(spot: Spot, modeFilter: string) {
    modeFilter == All || (spot.mode.Some? && Upper(spot.mode.value) == Upper(modeFilter))
  }

  predicate Passes(spot: Spot, bandFilter: string, modeFilter: string) {
    PassesBand(spot, bandFilter) && PassesMode(spot, modeFilter)
  }

  /** The spots of `spots` that pass both filters, in their original order. */
  function Filtered(spots: seq<Spot>, bandFilter: string, modeFilter: string): (r: seq<Spot>)
    ensures |r| <= |spots|
  {
    if spots == [] then []
    else
      var last := spots[|spots| - 1];
      Filtered(spots[..|spots| - 1], bandFilter, modeFilter)
        + (if Passes(last, bandFilter, modeFilter) then [last] else [])
  }

  /** `a` is `b` with some elements left out, the rest kept in order. */
  ghost predicate IsSubsequence<T>(a: seq<T>, b: seq<T>)
    decreases |b|
  {
    if b == [] then a == []
    else
      || IsSubsequence(a, b[..|b| - 1])
      || (a != [] && a[|a| - 1] == b[|b| - 1] && IsSubsequence(a[..|a| - 1], b[..|b| - 1]))
  }

  /** The filtered list is an order-preserving subsequence of the full list. */
  lemma {:induction false} FilteredIsSubsequence(spots: seq<Spot>, bandFilter: string, modeFilter: string)
    ensures IsSubsequence(Filtered(spots, bandFilter, modeFilter), spots)
  {
    if spots != [] {
      var init := spots[..|spots| - 1];
      FilteredIsSubsequence(init, bandFilter, modeFilter);
      var r := Filtered(spots, bandFilter, modeFilter);
      var f := Filtered(init, bandFilter, modeFilter);
      if Passes(spots[|spots| - 1], bandFilter, modeFilter) {
        assert r == f + [spots[|spots| - 1]];
        assert r[..|r| - 1] == f;
        assert r[|r| - 1] == spots[|spots| - 1];
      } else {
        assert r == f;
      }
    }
  }

  /** A spot is in the filtered list exactly when it is in the full list and passes both filters. */
  lemma {:induction false} FilteredMembers(spots: seq<Spot>, bandFilter: string, modeFilter: string, x: Spot)
    ensures x in Filtered(spots, bandFilter, modeFilter) <==> x in spots && Passes(x, bandFilter, modeFilter)
  {
    if spots != [] {
      var init := spots[..|spots| - 1];
      FilteredMembers(init, bandFilter, modeFilter, x);
      assert spots == init + [spots[|spots| - 1]];
    }
  }

  /** With both filters at "All" nothing is filtered out. */
  lemma {:induction false} FilteredAllIsIdentity(spots: seq<Spot>)
    ensures Filtered(spots, All, All) == spots
  {
    if spots != [] {
      FilteredAllIsIdentity(spots[..|spots| - 1]);
    }
  }

  /** Filtering a list with a new spot in front filters the rest and keeps the newcomer if it passes. */
  lemma {:induction false} FilteredPrepend(x: Spot, spots: seq<Spot>, bandFilter: string, modeFilter: string)
    ensures Filtered([x] + spots, bandFilter, modeFilter)
      == (if Passes(x, bandFilter, modeFilter) then [x] else []) + Filtered(spots, bandFilter, modeFilter)
  {
    if spots != [] {
      var s := [x] + spots;
      assert s[..|s| - 1] == [x] + spots[..|spots| - 1];
      FilteredPrepend(x, spots[..|spots| - 1], bandFilter, modeFilter);
    }
  }

  /** Filtering the first `k` spots gives a prefix of filtering them all. */
  lemma {:induction false} FilteredPrefix(spots: seq<Spot>, k: nat, bandFilter: string, modeFilter: string)
    requires k <= |spots|
    ensures Filtered(spots[..k], bandFilter, modeFilter) <= Filtered(spots, bandFilter, modeFilter)
    decreases |spots| - k
  {
    if k < |spots| {
      var init := spots[..|spots| - 1];
      assert init[..k] == spots[..k];
      FilteredPrefix(init, k, bandFilter, modeFilter);
      assert Filtered(init, bandFilter, modeFilter) <= Filtered(spots, bandFilter, modeFilter);
    } else {
      assert spots[..k] == spots;
    }
  }

  /** A spot without a band never passes a band filter other than "All";
      a spot without a mode never passes a mode filter other than "All". */
  lemma MissingFieldsFailFilters(spot: Spot, bandFilter: string, modeFilter: string)
    ensures spot.band.None? && bandFilter != All ==> !Passes(spot, bandFilter, modeFilter)
    ensures spot.mode.None? && modeFilter != All ==> !Passes(spot, bandFilter, modeFilter)
  {
  }

  /** Two mode filters that differ only in letter case pass the same spots. */
  lemma ModeFilterIgnoresCase(spot: Spot, m1: string, m2: string)
    requires m1 != All && m2 != All && Upper(m1) == Upper(m2)
    ensures PassesMode(spot, m1) == PassesMode(spot, m2)
  {
  }

  /** The band filter list has no entry for 60 m or 70 cm: spots on those bands
      pass none of its values except "All". */
  lemma UnlistedBandsOnlyUnderAll(spot: Spot, bandFilter: string)
    requires spot.band == Some(Band60m) || spot.band == Some(Band70cm)
    requires bandFilter in FilterBands
    ensures PassesBand(spot, bandFilter) <==> bandFilter == All
  {
  }

  /** The list after a new spot is put in front and the tail is cut to `MaxSpots`. */
  function NewestFirst(spot: Spot, spots: seq<Spot>): (r: seq<Spot>)
    ensures |r| == if |spots| + 1 > MaxSpots then MaxSpots else |spots| + 1
    ensures r[0] == spot
    ensures r[1..] <= spots
  {
    var s := [spot] + spots;
    if |s| > MaxSpots then s[..MaxSpots] else s
  }

  /** After adding a spot, the filtered list is a prefix of the new spot (if it passes)
      followed by the old filtered list. */
  lemma NewestFirstFiltered(spot: Spot, spots: seq<Spot>, bandFilter: string, modeFilter: string)
    ensures Filtered(NewestFirst(spot, spots), bandFilter, modeFilter)
      <= (if Passes(spot, bandFilter, modeFilter) then [spot] else []) + Filtered(spots, bandFilter, modeFilter)
  {
    var s := [spot] + spots;
    FilteredPrepend(spot, spots, bandFilter, modeFilter);
    if |s| > MaxSpots {
      FilteredPrefix(s, MaxSpots, bandFilter, modeFilter);
    }
  }

  /** No value occurs twice. */
  predicate Distinct(options: seq<string>) {
    forall i, j :: 0 <= i < j < |options| ==> options[i] != options[j]
  }

  /** `options.index(x)`: the first position of `x`, or `|options|` when absent. */
  function IndexOf(options: seq<string>, x: string): (i: nat)
    ensures i <= |options|
    ensures i < |options| ==> options[i] == x
    ensures forall j :: 0 <= j < i ==> options[j] != x
    ensures i == |options| ==> x !in options
  {
    if options == [] then 0
    else if options[0] == x then 0
    else 1 + IndexOf(options[1..], x)
  }

  /** The filter value after one press: the next entry, wrapping to the first;
      a value not in the list counts as the first entry. */
  function NextFilter(options: seq<string>, current: string): (r: string)
    requires |options| > 0
    ensures r in options
  {
    var i := if current in options then IndexOf(options, current) else 0;
    options[(i + 1) % |options|]
  }

  /** The position after `i` in a list of length `n`, wrapping to the first. */
  function Successor(i: nat, n: nat): nat {
    if i + 1 < n then i + 1 else 0
  }

  /** From the entry at position `i`, one press moves to the next position, wrapping. */
  lemma NextFilterAt(options: seq<string>, i: nat)
    requires Distinct(options) && i < |options|
    ensures NextFilter(options, options[i]) == options[Successor(i, |options|)]
  {
    IndexOfDistinct(options, i);
    WrapIncrement(i, |options|);
  }

  lemma IndexOfDistinct(options: seq<string>, i: nat)
    requires Distinct(options) && i < |options|
    ensures IndexOf(options, options[i]) == i
  {
  }

  lemma WrapIncrement(i: nat, n: nat)
    requires i < n
    ensures (i + 1) % n == Successor(i, n)
  {
  }

  /** An unrecognised value moves to the second entry, as if it were the first. */
  lemma NextFilterUnrecognised(options: seq<string>, current: string)
    requires |options| > 0 && current !in options
    ensures NextFilter(options, current) == options[Successor(0, |options|)]
  {
    if |options| == 1 {
      assert 1 % |options| == 0;
    } else {
      assert 1 % |options| == 1;
    }
  }

  /** The value after `times` presses. */
  function Cycled(options: seq<string>, current: string, times: nat): string
    requires |options| > 0
  {
    if times == 0 then current else NextFilter(options, Cycled(options, current, times - 1))
  }

  lemma {:induction false} CycledAt(options: seq<string>, i: nat, times: nat)
    requires Distinct(options) && i < |options| && times <= |options|
    ensures Cycled(options, options[i], times)
      == options[if i + times < |options| then i + times else i + times - |options|]
  {
    if times > 0 {
      CycledAt(options, i, times - 1);
      var n := |options|;
      var j := if i + times - 1 < n then i + times - 1 else i + times - 1 - n;
      assert Cycled(options, options[i], times - 1) == options[j];
      NextFilterAt(options, j);
      assert Successor(j, n) == if i + times < n then i + times else i + times - n;
    }
  }

  /** Pressing as many times as the list is long comes back to the starting value. */
  lemma CycleReturns(options: seq<string>, i: nat)
    requires Distinct(options) && i < |options|
    ensures Cycled(options, options[i], |options|) == options[i]
  {
    CycledAt(options, i, |options|);
  }

  lemma FilterListsDistinct()
    ensures FilterBands[0] == All && FilterModes[0] == All
    ensures Distinct(FilterBands) && Distinct(FilterModes)
  {
  }

  /** From the last band filter, one press wraps to "All". */
  lemma BandFilterWrapsToAll()
    ensures NextFilter(FilterBands, "2m") == All
  {
    FilterListsDistinct();
    NextFilterAt(FilterBands, |FilterBands| - 1);
  }

  /** From the last mode filter, one press wraps to "All". */
  lemma ModeFilterWrapsToAll()
    ensures NextFilter(FilterModes, "DIGITAL") == All
  {
    FilterListsDistinct();
    NextFilterAt(FilterModes, |FilterModes| - 1);
  }

  /** The filters that are not "All", band first. */
  function ActiveFilters(bandFilter: string, modeFilter: string): (r: seq<string>)
    ensures |r| == (if bandFilter != All then 1 else 0) + (if modeFilter != All then 1 else 0)
    ensures forall v :: v in r <==> v != All && (v == bandFilter || v == modeFilter)
    ensures bandFilter != All ==> |r| >= 1 && r[0] == bandFilter
    ensures modeFilter != All ==> |r| >= 1 && r[|r| - 1] == modeFilter
  {
    (if bandFilter != All then [bandFilter] else []) + (if modeFilter != All then [modeFilter] else [])
  }

  /** The header line: the spot total when no filter is active, otherwise the shown
      and total counts followed by the active filters joined with "+". */
  function HeaderText(title: string, bandFilter: string, modeFilter: string, shown: nat, total: nat): (r: string)
    ensures "[bold]" + title + "[/bold] [dim](" <= r
    ensures EndsWith(r, ")[/dim]")
  {
    if bandFilter == All && modeFilter == All then
      "[bold]" + title + "[/bold] [dim](" + Decimal(total) + ")[/dim]"
    else
      "[bold]" + title + "[/bold] [dim](" + Decimal(shown) + "/" + Decimal(total) + " "
        + Join("+", ActiveFilters(bandFilter, modeFilter)) + ")[/dim]"
  }

  /** When a filter is active and neither filter value holds a "+", the header's filter
      label splits back into exactly the active filters, band first. */
  lemma FilterLabelNamesActiveFilters(bandFilter: string, modeFilter: string)
    requires bandFilter != All || modeFilter != All
    requires '+' !in bandFilter && '+' !in modeFilter
    ensures Split(Join("+", ActiveFilters(bandFilter, modeFilter)), '+') == ActiveFilters(bandFilter, modeFilter)
  {
    assert "+" == ['+'];
    SplitJoin(ActiveFilters(bandFilter, modeFilter), '+');
  }

  lemma FilterValuesHaveNoPlus()
    ensures forall v :: v in FilterBands ==> '+' !in v
    ensures forall v :: v in FilterModes ==> '+' !in v
  {
  }

  class SpotsTable {
    var spots: seq<Spot>
    var filteredSpots: seq<Spot>
    var title: string
    var bandFilter: string
    var modeFilter: string
    /** The text of the header widget. */
    var header: string

    /** The filtered list is always the filter of the full list. */
    ghost predicate Valid()
      reads this
    {
      filteredSpots == Filtered(spots, bandFilter, modeFilter)
    }

    /** The header that reflects the current state. */
    function CurrentHeader(): string
      reads this
    {
      HeaderText(title, bandFilter, modeFilter, |filteredSpots|, |spots|)
    }

    constructor (title: string := "Spots")
      ensures Valid()
      ensures spots == [] && filteredSpots == []
      ensures this.title == title && bandFilter == All && modeFilter == All
      ensures header == "[bold]" + title + "[/bold]"
    {
      spots := [];
      filteredSpots := [];
      this.title := title;
      bandFilter := All;
      modeFilter := All;
      header := "[bold]" + title + "[/bold]";
    }

    method UpdateHeader()
      modifies this`header
      ensures header == CurrentHeader()
    {
      header := CurrentHeader();
    }

    /** Rebuilds the filtered list from the full list, then the header. */
    method ApplyFilters()
      modifies this`filteredSpots, this`header
      ensures Valid()
      ensures header == CurrentHeader()
    {
      var result: seq<Spot> := [];
      for i := 0 to |spots|
        invariant result == Filtered(spots[..i], bandFilter, modeFilter)
      {
        var spot := spots[i];
        assert spots[..i + 1][..i] == spots[..i];
        if bandFilter != All {
          if spot.band.None? || BandName(spot.band.value) != bandFilter {
            continue;
          }
        }
        if modeFilter != All {
          if spot.mode.None? || Upper(spot.mode.value) != Upper(modeFilter) {
            continue;
          }
        }
        result := result + [spot];
      }
      assert spots[..|spots|] == spots;
      filteredSpots := result;
      UpdateHeader();
    }

    /** Replaces the whole list; no cap applies here. */
    method LoadSpots(newSpots: seq<Spot>)
      modifies this`spots, this`filteredSpots, this`header
      ensures spots == newSpots
      ensures Valid()
      ensures header == CurrentHeader()
    {
      spots := newSpots;
      ApplyFilters();
      UpdateHeader();
    }

    /** Puts a spot at the top, keeps at most `MaxSpots`, and re-filters. */
    method AddSpot(spot: Spot)
      modifies this`spots, this`filteredSpots, this`header
      ensures spots == NewestFirst(spot, old(spots))
      ensures Valid()
      ensures header == CurrentHeader()
    {
      spots := [spot] + spots;
      if |spots| > MaxSpots {
        spots := spots[..MaxSpots];
      }
      ApplyFilters();
    }

    method ClearSpots()
      modifies this`spots, this`filteredSpots, this`header
      ensures spots == [] && filteredSpots == []
      ensures Valid()
      ensures header == CurrentHeader()
    {
      spots := [];
      filteredSpots := [];
      UpdateHeader();
    }

    method CycleBandFilter()
      modifies this`bandFilter, this`filteredSpots, this`header
      ensures bandFilter == NextFilter(FilterBands, old(bandFilter))
      ensures Valid()
      ensures header == CurrentHeader()
    {
      var i := if bandFilter in FilterBands then IndexOf(FilterBands, bandFilter) else 0;
      bandFilter := FilterBands[(i + 1) % |FilterBands|];
      ApplyFilters();
      UpdateHeader();
    }

    method CycleModeFilter()
      modifies this`modeFilter, this`filteredSpots, this`header
      ensures modeFilter == NextFilter(FilterModes, old(modeFilter))
      ensures Valid()
      ensures header == CurrentHeader()
    {
      var i := if modeFilter in FilterModes then IndexOf(FilterModes, modeFilter) else 0;
      modeFilter := FilterModes[(i + 1) % |FilterModes|];
      ApplyFilters();
      UpdateHeader();
    }

    /** Both filters back to "All": every spot is shown. The new state depends only on
        the list and title, which it leaves alone, so a second call changes nothing. */
    method ResetFilters()
      modifies this`bandFilter, this`modeFilter, this`filteredSpots, this`header
      ensures bandFilter == All && modeFilter == All
      ensures filteredSpots == spots
      ensures Valid()
      ensures header == "[bold]" + title + "[/bold] [dim](" + Decimal(|spots|) + ")[/dim]"
    {
      bandFilter := All;
      modeFilter := All;
      ApplyFilters();
      FilteredAllIsIdentity(spots);
      UpdateHeader();
    }

    method SetTitle(newTitle: string)
      modifies this`title, this`header
      ensures title == newTitle
      ensures header == CurrentHeader()
    {
      title := newTitle;
      UpdateHeader();
    }

    /** The number of spots shown; never more than the total. */
    function SpotCount(): (n: nat)
      reads this
      requires Valid()
      ensures n <= TotalSpotCount()
    {
      |filteredSpots|
    }

    /** The number of spots held. */
    function TotalSpotCount(): nat
      reads this
    {
      |spots|
    }

    /** The spot under the table cursor, if the cursor is on a shown row. */
    function SelectedSpot(cursorRow: Option<nat>): (r: Option<Spot>)
      reads this
      requires Valid()
      ensures r.Some? <==> cursorRow.Some? && cursorRow.value < SpotCount()
      ensures r.Some? ==>
        cursorRow.value < |filteredSpots| && r.value == filteredSpots[cursorRow.value]
      ensures r.Some? ==> r.value in spots && Passes(r.value, bandFilter, modeFilter)
    {
      if cursorRow.Some? && cursorRow.value < |filteredSpots| then
        var spot := filteredSpots[cursorRow.value];
        FilteredMembers(spots, bandFilter, modeFilter, spot);
        Some(spot)
      else
        None
    }
  }
}
