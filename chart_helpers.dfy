/**
 * Types shared by the bullet-chart title components, and the chart utility
 * functions they call. Those utilities (padding resolution, label placement
 * and text measurement) are defined in files outside this model, so they are
 * taken as parameters: every property proved about a title holds whatever
 * these functions compute.
 */
module ChartHelpers {
  import opened Wrappers

  datatype Side = TopSide | BottomSide | LeftSide | RightSide

  /** `PaddingProps`: one number for all sides, or an object with optional per-side numbers. */
  datatype Padding =
    | Uniform(all: real)
    | PerSide(top: Option<real>, bottom: Option<real>, left: Option<real>, right: Option<real>)

  /** Where a label is placed relative to the chart. */
  datatype LabelPosition = Top | Bottom | Left | TopLeft

  datatype LegendPosition = LegendBottom | LegendBottomLeft | LegendRight

  /** Padding resolved to one number per side. */
  datatype Sides = Sides(top: real, bottom: real, left: real, right: real)

  /** The argument object of `getBulletLabelX`. */
  datatype LabelXArgs = LabelXArgs(
    chartWidth: real,
    dx: Option<real>,
    labelPosition: LabelPosition,
    legendPosition: Option<LegendPosition>,
    svgWidth: Option<real>)

  /** The argument object of `getBulletLabelY`. */
  datatype LabelYArgs = LabelYArgs(chartHeight: real, dy: real, labelPosition: LabelPosition)

  /**
   * `getPaddingForSide`, `getBulletLabelX`, `getBulletLabelY` and the height
   * reported by `getLabelTextSize` under the component's theme.
   */
  datatype Utils = Utils(
    paddingForSide: (Side, Option<Padding>, Padding) -> real,
    bulletLabelX: LabelXArgs -> real,
    bulletLabelY: LabelYArgs -> real,
    labelTextHeight: Option<string> -> real)

  /** The four sides of `padding`, each resolved by `getPaddingForSide` against `fallback`. */
  function ResolvePadding(u: Utils, padding: Option<Padding>, fallback: Padding): (r: Sides)
    ensures r.top == u.paddingForSide(TopSide, padding, fallback)
    ensures r.bottom == u.paddingForSide(BottomSide, padding, fallback)
    ensures r.left == u.paddingForSide(LeftSide, padding, fallback)
    ensures r.right == u.paddingForSide(RightSide, padding, fallback)
  {
    Sides(
      u.paddingForSide(TopSide, padding, fallback),
      u.paddingForSide(BottomSide, padding, fallback),
      u.paddingForSide(LeftSide, padding, fallback),
      u.paddingForSide(RightSide, padding, fallback))
  }

  /** JavaScript truthiness of an optional string: defined and non-empty. */
  predicate Present(s: Option<string>)
    ensures Present(s) <==> s.Some? && |s.value| > 0
  {
    s.Some? && s.value != ""
  }

  /** `sub` occurs in `s` starting at offset `i`. */
  predicate OccursAt(s: string, sub: string, i: int) {
    0 <= i && i + |sub| <= |s| && s[i..i + |sub|] == sub
  }

  /** Offsets into `s[1..]` are the offsets into `s` shifted down by one. */
  lemma OccursAtTail(s: string, sub: string)
    requires s != []
    ensures forall i :: OccursAt(s[1..], sub, i) ==> OccursAt(s, sub, i + 1)
    ensures forall j :: OccursAt(s, sub, j) && j != 0 ==> OccursAt(s[1..], sub, j - 1)
  {
    forall i | OccursAt(s[1..], sub, i)
      ensures OccursAt(s, sub, i + 1)
    {
      assert s[i + 1..i + 1 + |sub|] == s[1..][i..i + |sub|];
    }
    forall j | OccursAt(s, sub, j) && j != 0
      ensures OccursAt(s[1..], sub, j - 1)
    {
      assert s[1..][j - 1..j - 1 + |sub|] == s[j..j + |sub|];
    }
  }

  /** JavaScript `String.prototype.includes`, tried at each offset from the left. */
  predicate Includes(s: string, sub: string)
    ensures Includes(s, sub) <==> exists i :: OccursAt(s, sub, i)
    decreases |s|
  {
    assert OccursAt(s, sub, 0) <==> |sub| <= |s| && s[..|sub|] == sub;
    |sub| <= |s| && (s[..|sub|] == sub || (OccursAtTail(s, sub); Includes(s[1..], sub)))
  }
}
