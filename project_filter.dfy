/**
 * components/ProjectFilter.tsx: the tab list of platform filters.  A click
 * asks the parent to change the filter unless that filter is already active
 * or an animation is running; the arrow, Home and End keys move the focus
 * with wrap-around; the focused index follows the active filter.
 */
module ProjectFilter {
  import opened Projects

  /** The number of tabs, `platformOptions.length`. */
  function OptionCount(): (n: nat)
    ensures n == 4
  {
    |PlatformOptions|
  }

  /** The index ArrowLeft moves to: one to the left, wrapping from the first tab to the last. */
  function PrevIndex(index: int, n: nat): (r: int)
    requires 0 <= index < n
    ensures 0 <= r < n
    ensures index > 0 ==> r == index - 1
    ensures index == 0 ==> r == n - 1
  {
    if index > 0 then index - 1 else n - 1
  }

  /** The index ArrowRight moves to: one to the right, wrapping from the last tab to the first. */
  function NextIndex(index: int, n: nat): (r: int)
    requires 0 <= index < n
    ensures 0 <= r < n
    ensures index < n - 1 ==> r == index + 1
    ensures index == n - 1 ==> r == 0
  {
    if index < n - 1 then index + 1 else 0
  }

  /** Left and right undo each other. */
  lemma PrevNextInverse(index: int, n: nat)
    requires 0 <= index < n
    ensures PrevIndex(NextIndex(index, n), n) == index
    ensures NextIndex(PrevIndex(index, n), n) == index
  {
  }

  /** `platformOptions.findIndex(option => option.value === activeFilter)`, or -1. */
  function FindOption(options: seq<(PlatformFilter, string)>, f: PlatformFilter): (r: int)
    ensures -1 <= r < |options|
    ensures r == -1 <==> forall i :: 0 <= i < |options| ==> options[i].0 != f
    ensures r >= 0 ==> options[r].0 == f && forall j :: 0 <= j < r ==> options[j].0 != f
  {
    if options == [] then -1
    else if options[0].0 == f then 0
    else
      var r := FindOption(options[1..], f);
      if r == -1 then -1 else r + 1
  }

  /** Every filter value has its tab, so the focus sync always lands on a tab. */
  lemma FindOptionIsTab(f: PlatformFilter)
    ensures FindOption(PlatformOptions, f) == OptionIndex(f)
  {
  }

  class FilterTabs {
    /** The `activeFilter` prop. */
    var activeFilter: PlatformFilter
    var isAnimating: bool
    /** The `focusedIndex` state; the component writes it and never reads it. */
    var focusedIndex: int
    /** The calls made to `onFilterChange`, oldest first. */
    var requested: seq<PlatformFilter>

    predicate Valid()
      reads this
    {
      -1 <= focusedIndex < OptionCount()
    }

    /** First render: not animating, nothing focused. */
    constructor (activeFilter: PlatformFilter)
      ensures Valid()
      ensures this.activeFilter == activeFilter && !isAnimating && focusedIndex == -1 && requested == []
    {
      this.activeFilter := activeFilter;
      isAnimating := false;
      focusedIndex := -1;
      requested := [];
    }

    /** The effect on `activeFilter`: focus the active filter's tab (run after mount and after each change). */
    method SyncFocus(activeFilter: PlatformFilter)
      requires Valid()
      modifies this
      ensures Valid()
      ensures this.activeFilter == activeFilter && focusedIndex == OptionIndex(activeFilter)
      ensures isAnimating == old(isAnimating) && requested == old(requested)
    {
      this.activeFilter := activeFilter;
      FindOptionIsTab(activeFilter);
      focusedIndex := FindOption(PlatformOptions, activeFilter);
    }

    /** handleFilterClick(filterValue) */
    method HandleFilterClick(filterValue: PlatformFilter)
      requires Valid()
      modifies this
      ensures Valid()
      ensures filterValue == old(activeFilter) || old(isAnimating) ==>
        isAnimating == old(isAnimating) && requested == old(requested)
      ensures !(filterValue == old(activeFilter) || old(isAnimating)) ==>
        isAnimating && requested == old(requested) + [filterValue]
      ensures activeFilter == old(activeFilter) && focusedIndex == old(focusedIndex)
    {
      if filterValue == activeFilter || isAnimating {
        return;
      }
      isAnimating := true;
      requested := requested + [filterValue];
    }

    /** The 300 ms timer started by a click. */
    method EndAnimation()
      requires Valid()
      modifies this
      ensures Valid()
      ensures !isAnimating
      ensures activeFilter == old(activeFilter) && focusedIndex == old(focusedIndex) && requested == old(requested)
    {
      isAnimating := false;
    }

    /** handleKeyDown(event, filterValue, index) on the tab at `index`. */
    method HandleKeyDown(key: string, index: int)
      requires Valid() && 0 <= index < OptionCount()
      modifies this
      ensures Valid()
      ensures activeFilter == old(activeFilter)
      ensures (key == "Enter" || key == " ") ==> focusedIndex == old(focusedIndex)
      ensures (key == "Enter" || key == " ") && (PlatformOptions[index].0 == old(activeFilter) || old(isAnimating)) ==>
        isAnimating == old(isAnimating) && requested == old(requested)
      ensures (key == "Enter" || key == " ") && !(PlatformOptions[index].0 == old(activeFilter) || old(isAnimating)) ==>
        isAnimating && requested == old(requested) + [PlatformOptions[index].0]
      ensures key == "ArrowLeft" ==> focusedIndex == PrevIndex(index, OptionCount())
      ensures key == "ArrowRight" ==> focusedIndex == NextIndex(index, OptionCount())
      ensures key == "Home" ==> focusedIndex == 0
      ensures key == "End" ==> focusedIndex == OptionCount() - 1
      ensures key !in {"Enter", " "} ==> isAnimating == old(isAnimating) && requested == old(requested)
      ensures key !in {"Enter", " ", "ArrowLeft", "ArrowRight", "Home", "End"} ==> focusedIndex == old(focusedIndex)
    {
      if key == "Enter" || key == " " {
        HandleFilterClick(PlatformOptions[index].0);
      } else if key == "ArrowLeft" {
        focusedIndex := PrevIndex(index, OptionCount());
      } else if key == "ArrowRight" {
        focusedIndex := NextIndex(index, OptionCount());
      } else if key == "Home" {
        focusedIndex := 0;
      } else if key == "End" {
        focusedIndex := OptionCount() - 1;
      }
    }
  }

  /** A second click during the animation is ignored: the parent hears of the first one only. */
  method DoubleClickRequestsOnce(tabs: FilterTabs, f: PlatformFilter)
    requires tabs.Valid() && !tabs.isAnimating && f != tabs.activeFilter
    modifies tabs
    ensures tabs.requested == old(tabs.requested) + [f]
  {
    tabs.HandleFilterClick(f);
    tabs.HandleFilterClick(f);
  }
}
