/**
 * The Toolbar component's state container: the managed/controlled decision
 * for the toggle group, the expanded flag that closes on window resize, and
 * the per-category filter counts behind the "clear all filters" button.
 */
module Toolbar {
  import opened Wrappers

  /** Identity of a callback function supplied by the consumer. */
  datatype Callback = Callback(id: nat)

  /** The props that decide how the toggle group is driven. */
  datatype ToolbarProps = ToolbarProps(isExpanded: Option<bool>, toggleIsExpanded: Option<Callback>)

  /** The toggle handler the toolbar context hands to its toggle group. */
  datatype ToggleHandler = ManagedToggle | ConsumerToggle(callback: Option<Callback>)

  /** One own property of the filter-count object: a category and its number of filters. */
  datatype Entry = Entry(category: string, count: int)

  /**
   * The expand state is managed by the toolbar itself exactly when the
   * consumer neither sets `isExpanded` to true nor supplies a toggle callback.
   */
  function IsToggleManaged(p: ToolbarProps): (r: bool)
    ensures r <==> p.isExpanded != Some(true) && p.toggleIsExpanded == None
  {
    !(p.isExpanded == Some(true) || p.toggleIsExpanded.Some?)
  }

  /** The effective expanded flag: internal state when managed, the prop otherwise. */
  function EffectiveExpanded(p: ToolbarProps, managedExpanded: bool): (r: Option<bool>)
    ensures IsToggleManaged(p) ==> r == Some(managedExpanded)
    ensures !IsToggleManaged(p) ==> r == p.isExpanded
    ensures !IsToggleManaged(p) && p.toggleIsExpanded.None? ==> r == Some(true)
  {
    if IsToggleManaged(p) then Some(managedExpanded) else p.isExpanded
  }

  /** The effective toggle handler: the toolbar's own when managed, the consumer's otherwise. */
  function EffectiveToggle(p: ToolbarProps): (r: ToggleHandler)
    ensures r == ManagedToggle <==> IsToggleManaged(p)
    ensures r.ConsumerToggle? ==> r.callback == p.toggleIsExpanded
  {
    if IsToggleManaged(p) then ManagedToggle else ConsumerToggle(p.toggleIsExpanded)
  }

  // ---------------------------------------------------------------------
  // The filter-count object, as its own properties in insertion order.
  // ---------------------------------------------------------------------

  /** Every category appears at most once, as in a JavaScript object. */
  predicate DistinctCategories(f: seq<Entry>) {
    forall i, j :: 0 <= i < j < |f| ==> f[i].category != f[j].category
  }

  function Categories(f: seq<Entry>): set<string> {
    set e | e in f :: e.category
  }

  /** Own-property lookup: `f.hasOwnProperty(c) ? f[c] : undefined`. */
  function Lookup(f: seq<Entry>, c: string): (r: Option<int>)
    ensures r.Some? <==> c in Categories(f)
    ensures r.Some? ==> Entry(c, r.value) in f
  {
    if f == [] then None
    else if f[0].category == c then Some(f[0].count)
    else Lookup(f[1..], c)
  }

  /** Property assignment `f[c] = n`: overwrite in place, or append a new property. */
  function Assign(f: seq<Entry>, c: string, n: int): (r: seq<Entry>)
    ensures |f| <= |r| <= |f| + 1
    ensures forall i :: 0 <= i < |f| && f[i].category != c ==> r[i] == f[i]
  {
    if f == [] then [Entry(c, n)]
    else if f[0].category == c then [Entry(c, n)] + f[1..]
    else [f[0]] + Assign(f[1..], c, n)
  }

  /** The object viewed as a dictionary. */
  function AsMap(f: seq<Entry>): (r: map<string, int>)
    ensures |r| <= |f|
    ensures forall i :: 0 <= i < |f| ==> f[i].category in r
  {
    if f == [] then map[] else AsMap(f[1..])[f[0].category := f[0].count]
  }

  /** `Object.values(f).reduce((acc, cur) => acc + cur, acc)`, taken left to right. */
  function Reduce(acc: int, f: seq<Entry>): int
    decreases f
  {
    if f == [] then acc else Reduce(acc + f[0].count, f[1..])
  }

  /** The accumulator of `Reduce` only adds to the sum of the counts. */
  lemma {:induction false} ReduceShift(acc: int, f: seq<Entry>)
    ensures Reduce(acc, f) == acc + Reduce(0, f)
    decreases f
  {
    if f != [] {
      ReduceShift(acc + f[0].count, f[1..]);
      ReduceShift(f[0].count, f[1..]);
    }
  }

  /** The sum of the counts, which is what the `reduce` from 0 computes. */
  function Total(f: seq<Entry>): (r: int)
    ensures r == Reduce(0, f)
  {
    if f == [] then 0
    else
      ReduceShift(f[0].count, f[1..]);
      f[0].count + Total(f[1..])
  }

  predicate NonNegativeCounts(f: seq<Entry>) {
    forall i :: 0 <= i < |f| ==> f[i].count >= 0
  }

  /** The clear-filters button shows exactly when some filter is applied in total. */
  function ShowClearFilters(f: seq<Entry>): (r: bool)
    ensures f == [] ==> !r
  {
    Total(f) > 0
  }

  lemma {:induction false} LookupAsMap(f: seq<Entry>, c: string)
    ensures Lookup(f, c) == if c in AsMap(f) then Some(AsMap(f)[c]) else None
  {
    if f != [] && f[0].category != c {
      LookupAsMap(f[1..], c);
    }
  }

  /** After `f[c] = n` the property `c` holds `n` and every other property is unchanged. */
  lemma {:induction false} LookupAssign(f: seq<Entry>, c: string, n: int, other: string)
    ensures Lookup(Assign(f, c, n), c) == Some(n)
    ensures other != c ==> Lookup(Assign(f, c, n), other) == Lookup(f, other)
  {
    if f != [] && f[0].category != c {
      LookupAssign(f[1..], c, n, other);
    }
  }

  /** As a dictionary, assignment is a map update. */
  lemma {:induction false} AsMapAssign(f: seq<Entry>, c: string, n: int)
    ensures AsMap(Assign(f, c, n)) == AsMap(f)[c := n]
  {
    if f == [] {
    } else if f[0].category == c {
      var g := Assign(f, c, n);
      assert g[1..] == f[1..];
      assert AsMap(g) == AsMap(f[1..])[c := n];
      assert AsMap(f) == AsMap(f[1..])[c := f[0].count];
    } else {
      var g := Assign(f, c, n);
      AsMapAssign(f[1..], c, n);
      assert g[1..] == Assign(f[1..], c, n);
      assert AsMap(g) == AsMap(f[1..])[c := n][f[0].category := f[0].count];
    }
  }

  lemma {:induction false} CategoriesAssign(f: seq<Entry>, c: string, n: int)
    ensures Categories(Assign(f, c, n)) == Categories(f) + {c}
    ensures |Assign(f, c, n)| == if c in Categories(f) then |f| else |f| + 1
  {
    if f == [] {
    } else if f[0].category == c {
      assert f == [f[0]] + f[1..];
      assert Categories(f) == {f[0].category} + Categories(f[1..]);
      assert Categories(Assign(f, c, n)) == {c} + Categories(f[1..]);
    } else {
      CategoriesAssign(f[1..], c, n);
      assert f == [f[0]] + f[1..];
      assert Categories(f) == {f[0].category} + Categories(f[1..]);
      assert Categories(Assign(f, c, n)) == {f[0].category} + Categories(Assign(f[1..], c, n));
    }
  }

  /** Assignment keeps the object free of duplicate properties. */
  lemma {:induction false} AssignDistinct(f: seq<Entry>, c: string, n: int)
    requires DistinctCategories(f)
    ensures DistinctCategories(Assign(f, c, n))
  {
    if f == [] {
    } else if f[0].category == c {
      var g := Assign(f, c, n);
      assert forall i :: 0 <= i < |g| ==> g[i].category == f[i].category;
    } else {
      var rest := Assign(f[1..], c, n);
      AssignDistinct(f[1..], c, n);
      CategoriesAssign(f[1..], c, n);
      assert f[0].category !in Categories(f[1..]) by {
        forall e | e in f[1..] ensures e.category != f[0].category {
          var j :| 0 <= j < |f[1..]| && f[1..][j] == e;
          assert f[j + 1] == e;
        }
      }
      assert f[0].category !in Categories(rest);
      var g := [f[0]] + rest;
      forall i, j | 0 <= i < j < |g| ensures g[i].category != g[j].category {
        if i == 0 {
          assert g[j] in rest;
        } else {
          assert g[i] == rest[i - 1] && g[j] == rest[j - 1];
        }
      }
    }
  }

  /** Overwriting category `c` with `n` moves the total by `n` minus the old count of `c`. */
  lemma {:induction false} TotalAssign(f: seq<Entry>, c: string, n: int)
    ensures Total(Assign(f, c, n)) == Total(f) - Lookup(f, c).GetOr(0) + n
  {
    if f == [] {
    } else if f[0].category == c {
      assert Assign(f, c, n)[1..] == f[1..];
    } else {
      TotalAssign(f[1..], c, n);
      assert Assign(f, c, n)[1..] == Assign(f[1..], c, n);
    }
  }

  /** Raising one category's count by `k` raises the total by `k`. */
  lemma TotalRaise(f: seq<Entry>, c: string, k: int)
    requires Lookup(f, c).Some?
    ensures Total(Assign(f, c, Lookup(f, c).value + k)) == Total(f) + k
  {
    TotalAssign(f, c, Lookup(f, c).value + k);
  }

  /** With non-negative counts, the button shows iff some category has a filter applied. */
  lemma {:induction false} ShowClearFiltersIffSomeCount(f: seq<Entry>)
    requires NonNegativeCounts(f)
    ensures ShowClearFilters(f) <==> exists i :: 0 <= i < |f| && f[i].count > 0
  {
    if f != [] {
      ShowClearFiltersIffSomeCount(f[1..]);
      assert Total(f[1..]) >= 0 by { TotalNonNegative(f[1..]); }
      if exists i :: 0 <= i < |f[1..]| && f[1..][i].count > 0 {
        var i :| 0 <= i < |f[1..]| && f[1..][i].count > 0;
        assert f[i + 1].count > 0;
      }
      if exists i :: 0 <= i < |f| && f[i].count > 0 {
        var i :| 0 <= i < |f| && f[i].count > 0;
        if i > 0 {
          assert f[1..][i - 1].count > 0;
        }
      }
    }
  }

  lemma {:induction false} TotalNonNegative(f: seq<Entry>)
    requires NonNegativeCounts(f)
    ensures Total(f) >= 0
  {
    if f != [] {
      TotalNonNegative(f[1..]);
    }
  }

  // ---------------------------------------------------------------------
  // The component instance.
  // ---------------------------------------------------------------------

  /**
   * A mounted Toolbar: its state fields, the `staticFilterInfo` instance
   * field, and whether its resize listener is registered on the window.
   * Props are fixed for the instance's lifetime.
   */
  class ToolbarComponent {
    const props: ToolbarProps
    const canUseDOM: bool
    var isManagedToggleExpanded: bool
    var filterInfo: seq<Entry>
    var windowWidth: int
    var staticFilterInfo: seq<Entry>
    var resizeListener: bool

    /** The instance field and the state always hold the same filter table. */
    ghost predicate Valid()
      reads this
    {
      staticFilterInfo == filterInfo && DistinctCategories(filterInfo)
    }

    /** A fresh instance: collapsed, no filters, the window's width (1200 without a DOM). */
    constructor (props: ToolbarProps, canUseDOM: bool, innerWidth: int)
      ensures Valid()
      ensures this.props == props && this.canUseDOM == canUseDOM
      ensures !isManagedToggleExpanded && filterInfo == [] && AsMap(filterInfo) == map[]
      ensures windowWidth == if canUseDOM then innerWidth else 1200
      ensures !resizeListener
    {
      this.props := props;
      this.canUseDOM := canUseDOM;
      isManagedToggleExpanded := false;
      filterInfo := [];
      windowWidth := if canUseDOM then innerWidth else 1200;
      staticFilterInfo := [];
      resizeListener := false;
    }

    /** The expanded flag handed to the toggle group and label group content. */
    function IsExpanded(): (r: Option<bool>)
      reads this
      ensures IsToggleManaged(props) ==> r == Some(isManagedToggleExpanded)
      ensures !IsToggleManaged(props) ==> r == props.isExpanded
    {
      EffectiveExpanded(props, isManagedToggleExpanded)
    }

    /** `getNumberOfFilters`: the sum of every category's count. */
    function NumberOfFilters(): (r: int)
      reads this
      ensures filterInfo == [] ==> r == 0
      ensures NonNegativeCounts(filterInfo) ==> r >= 0
    {
      TotalNonNegativeIf(filterInfo);
      Total(filterInfo)
    }

    function ShowClearFiltersButton(): (r: bool)
      reads this
      ensures r <==> NumberOfFilters() > 0
    {
      ShowClearFilters(filterInfo)
    }

    /** The toolbar's own toggle: flips the managed flag and nothing else. */
    method ToggleIsExpanded()
      modifies this`isManagedToggleExpanded
      ensures isManagedToggleExpanded == !old(isManagedToggleExpanded)
    {
      isManagedToggleExpanded := !isManagedToggleExpanded;
    }

    /** The resize handler: a new window width collapses the toggle group and is recorded. */
    method CloseExpandableContent(innerWidth: int)
      modifies this`isManagedToggleExpanded, this`windowWidth
      ensures innerWidth != old(windowWidth) ==> !isManagedToggleExpanded && windowWidth == innerWidth
      ensures innerWidth == old(windowWidth) ==>
        isManagedToggleExpanded == old(isManagedToggleExpanded) && windowWidth == old(windowWidth)
    {
      if innerWidth != windowWidth {
        isManagedToggleExpanded := false;
        windowWidth := innerWidth;
      }
    }

    /** A window `resize` event: runs the handler only while it is registered. */
    method WindowResized(innerWidth: int)
      modifies this`isManagedToggleExpanded, this`windowWidth
      ensures resizeListener && innerWidth != old(windowWidth) ==>
        !isManagedToggleExpanded && windowWidth == innerWidth
      ensures !resizeListener || innerWidth == old(windowWidth) ==>
        isManagedToggleExpanded == old(isManagedToggleExpanded) && windowWidth == old(windowWidth)
    {
      if resizeListener {
        CloseExpandableContent(innerWidth);
      }
    }

    /** Registers the resize listener when the toggle is managed and a DOM exists. */
    method ComponentDidMount()
      modifies this`resizeListener
      ensures resizeListener == (old(resizeListener) || (IsToggleManaged(props) && canUseDOM))
    {
      if IsToggleManaged(props) && canUseDOM {
        resizeListener := true;
      }
    }

    /** Removes the resize listener under the same condition as it was added. */
    method ComponentWillUnmount()
      modifies this`resizeListener
      ensures resizeListener == (old(resizeListener) && !(IsToggleManaged(props) && canUseDOM))
    {
      if IsToggleManaged(props) && canUseDOM {
        resizeListener := false;
      }
    }

    /**
     * Records `numberOfFilters` for `categoryName`, replacing both the instance
     * field and the state only when the count actually changes.
     */
    method UpdateNumberFilters(categoryName: string, numberOfFilters: int)
      requires Valid()
      modifies this`filterInfo, this`staticFilterInfo
      ensures Valid()
      ensures AsMap(filterInfo) == old(AsMap(filterInfo))[categoryName := numberOfFilters]
      ensures Lookup(old(filterInfo), categoryName) == Some(numberOfFilters) ==> filterInfo == old(filterInfo)
      ensures Lookup(old(filterInfo), categoryName) != Some(numberOfFilters) ==>
        filterInfo == Assign(old(filterInfo), categoryName, numberOfFilters)
      ensures NumberOfFilters() == old(NumberOfFilters()) - Lookup(old(filterInfo), categoryName).GetOr(0) + numberOfFilters
    {
      var filterInfoToUpdate := staticFilterInfo;
      AsMapAssign(filterInfoToUpdate, categoryName, numberOfFilters);
      TotalAssign(filterInfoToUpdate, categoryName, numberOfFilters);
      if Lookup(filterInfoToUpdate, categoryName) != Some(numberOfFilters) {
        filterInfoToUpdate := Assign(filterInfoToUpdate, categoryName, numberOfFilters);
        AssignDistinct(staticFilterInfo, categoryName, numberOfFilters);
        staticFilterInfo := filterInfoToUpdate;
        filterInfo := filterInfoToUpdate;
      } else {
        LookupAsMap(filterInfo, categoryName);
      }
    }
  }

  lemma TotalNonNegativeIf(f: seq<Entry>)
    ensures NonNegativeCounts(f) ==> Total(f) >= 0
  {
    if NonNegativeCounts(f) {
      TotalNonNegative(f);
    }
  }

  /** Toggling twice restores the expanded flag and touches nothing else. */
  method ToggleTwice(t: ToolbarComponent)
    modifies t`isManagedToggleExpanded
    ensures t.isManagedToggleExpanded == old(t.isManagedToggleExpanded)
    ensures t.filterInfo == old(t.filterInfo) && t.windowWidth == old(t.windowWidth)
    ensures t.staticFilterInfo == old(t.staticFilterInfo) && t.resizeListener == old(t.resizeListener)
  {
    t.ToggleIsExpanded();
    t.ToggleIsExpanded();
  }

  /** Mounting and then unmounting leaves no resize listener behind. */
  method MountThenUnmount(t: ToolbarComponent)
    requires !t.resizeListener
    modifies t
    ensures !t.resizeListener
  {
    t.ComponentDidMount();
    t.ComponentWillUnmount();
  }
}
