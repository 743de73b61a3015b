/**
 * ChartCursorTooltip: a tooltip with defaults for use with a cursor
 * container. It resolves its prop defaults against the theme, forces the
 * label text anchor into its style, and fills in the flyout's pointer length.
 */
module ChartCursorTooltip {
  import opened Wrappers
  import opened Elements

  /** The tooltip part of a chart theme. */
  datatype TooltipTheme = TooltipTheme(pointerLength: Option<real>, pointerWidth: Option<real>)

  /** The parts of the chart theme the tooltip reads; a theme need not define a tooltip. */
  datatype CursorTheme = CursorTheme(tooltip: Option<TooltipTheme>)

  /** The props the tooltip resolves (undefined ones as `None`; callbacks already evaluated). */
  datatype CursorTooltipProps = CursorTooltipProps(
    constrainToVisibleArea: Option<bool>,
    labelTextAnchor: Option<Anchor>,
    pointerLength: Option<real>,
    pointerWidth: Option<real>,
    showPointer: Option<bool>,
    style: StyleProp)

  /** The props after destructuring with defaults. */
  datatype Resolved = Resolved(
    constrainToVisibleArea: bool,
    labelTextAnchor: Anchor,
    showPointer: bool,
    pointerLength: Option<real>,
    pointerWidth: Option<real>)

  /** What is handed to the underlying tooltip. */
  datatype TooltipConfig = TooltipConfig(
    constrainToVisibleArea: bool,
    labelTextAnchor: Anchor,
    style: StyleProp,
    flyout: Props)

  const DefaultFlyoutPointerLength: real := 10.0

  /** The default `pointerLength`: the theme tooltip's when the pointer shows and the theme has a tooltip, else 0. */
  function DefaultPointerLength(showPointer: bool, theme: CursorTheme): (r: Option<real>)
    ensures showPointer && theme.tooltip.Some? ==> r == theme.tooltip.value.pointerLength
    ensures !showPointer || theme.tooltip.None? ==> r == Some(0.0)
  {
    if showPointer && theme.tooltip.Some? then theme.tooltip.value.pointerLength else Some(0.0)
  }

  /**
   * The default `pointerWidth` reads the theme tooltip without a guard, so a
   * theme without a tooltip throws when no `pointerWidth` is given.
   */
  function ResolvePointerWidth(pointerWidth: Option<real>, theme: CursorTheme): (r: Result<Option<real>, TypeError>)
    ensures r.Err? <==> pointerWidth.None? && theme.tooltip.None?
    ensures pointerWidth.Some? ==> r == Ok(pointerWidth)
    ensures pointerWidth.None? && theme.tooltip.Some? ==> r == Ok(theme.tooltip.value.pointerWidth)
  {
    match pointerWidth
    case Some(_) => Ok(pointerWidth)
    case None =>
      match theme.tooltip
      case Some(t) => Ok(t.pointerWidth)
      case None => Err(ReadOfUndefined("pointerWidth"))
  }

  /** Destructuring with defaults: `constrainToVisibleArea = true`, `labelTextAnchor = 'start'`, `showPointer = true`. */
  function ResolveProps(p: CursorTooltipProps, theme: CursorTheme): (r: Result<Resolved, TypeError>)
    ensures r.Err? <==> p.pointerWidth.None? && theme.tooltip.None?
    ensures r.Ok? ==> r.value.constrainToVisibleArea == (p.constrainToVisibleArea != Some(false))
    ensures r.Ok? ==> r.value.showPointer == (p.showPointer != Some(false))
    ensures r.Ok? ==> r.value.labelTextAnchor == p.labelTextAnchor.GetOr(Start)
    ensures r.Ok? && p.pointerLength.Some? ==> r.value.pointerLength == p.pointerLength
    ensures r.Ok? && p.pointerLength.None? ==> r.value.pointerLength == DefaultPointerLength(r.value.showPointer, theme)
    ensures r.Ok? ==> r.value.pointerWidth == ResolvePointerWidth(p.pointerWidth, theme).value
  {
    var showPointer := p.showPointer.GetOr(true);
    match ResolvePointerWidth(p.pointerWidth, theme)
    case Err(e) => Err(e)
    case Ok(pointerWidth) =>
      Ok(Resolved(
        p.constrainToVisibleArea.GetOr(true),
        p.labelTextAnchor.GetOr(Start),
        showPointer,
        if p.pointerLength.Some? then p.pointerLength else DefaultPointerLength(showPointer, theme),
        pointerWidth))
  }

  /** `{ ...customStyle, textAnchor: labelTextAnchor }`. */
  function ApplyDefaultStyle(customStyle: Style, labelTextAnchor: Anchor): (r: Style)
    ensures r.Keys == customStyle.Keys + {"textAnchor"}
    ensures r["textAnchor"] == CssStr(AnchorName(labelTextAnchor))
    ensures forall k :: k in customStyle && k != "textAnchor" ==> r[k] == customStyle[k]
  {
    customStyle["textAnchor" := CssStr(AnchorName(labelTextAnchor))]
  }

  /** `newStyle`: an array of styles rewritten element by element, a single (or absent) style rewritten once. */
  function NewStyle(style: StyleProp, labelTextAnchor: Anchor): (r: StyleProp)
    ensures style.StyleArray? ==> r.StyleArray? && |r.styles| == |style.styles|
    ensures style.StyleArray? ==>
      forall i :: 0 <= i < |style.styles| ==> r.styles[i] == ApplyDefaultStyle(style.styles[i], labelTextAnchor)
    ensures style.OneStyle? ==> r == OneStyle(ApplyDefaultStyle(style.style, labelTextAnchor))
    ensures style.NoStyle? ==> r == OneStyle(map["textAnchor" := CssStr(AnchorName(labelTextAnchor))])
  {
    match style
    case StyleArray(ss) => StyleArray(MapStyles(ss, s => ApplyDefaultStyle(s, labelTextAnchor)))
    case OneStyle(s) => OneStyle(ApplyDefaultStyle(s, labelTextAnchor))
    case NoStyle => OneStyle(ApplyDefaultStyle(map[], labelTextAnchor))
  }

  /** Forcing the text anchor a second time changes nothing. */
  lemma NewStyleIdempotent(style: StyleProp, labelTextAnchor: Anchor)
    ensures NewStyle(NewStyle(style, labelTextAnchor), labelTextAnchor) == NewStyle(style, labelTextAnchor)
  {
    var once := NewStyle(style, labelTextAnchor);
    var twice := NewStyle(once, labelTextAnchor);
    if style.StyleArray? {
      assert |twice.styles| == |once.styles|;
      forall i | 0 <= i < |once.styles| ensures twice.styles[i] == once.styles[i] {
        assert ApplyDefaultStyle(once.styles[i], labelTextAnchor) == once.styles[i];
      }
    } else {
      assert ApplyDefaultStyle(once.style, labelTextAnchor) == once.style;
    }
  }

  /** Every rewritten style carries the label text anchor. */
  lemma NewStyleCarriesAnchor(style: StyleProp, labelTextAnchor: Anchor)
    ensures var r := NewStyle(style, labelTextAnchor);
      && !r.NoStyle?
      && (r.OneStyle? ==> "textAnchor" in r.style && r.style["textAnchor"] == CssStr(AnchorName(labelTextAnchor)))
      && (r.StyleArray? ==> forall i :: 0 <= i < |r.styles| ==>
            "textAnchor" in r.styles[i] && r.styles[i]["textAnchor"] == CssStr(AnchorName(labelTextAnchor)))
  {
  }

  /**
   * The flyout's pointer length: a zero length on a shown pointer falls back
   * to the theme tooltip's length, or to 10 without a theme tooltip.
   */
  function FlyoutPointerLength(showPointer: bool, pointerLength: Option<real>, theme: CursorTheme): (r: Option<real>)
    ensures showPointer && pointerLength == Some(0.0) && theme.tooltip.Some? ==> r == theme.tooltip.value.pointerLength
    ensures showPointer && pointerLength == Some(0.0) && theme.tooltip.None? ==> r == Some(DefaultFlyoutPointerLength)
    ensures !(showPointer && pointerLength == Some(0.0)) ==> r == pointerLength
  {
    if showPointer && pointerLength == Some(0.0) then
      if theme.tooltip.Some? then theme.tooltip.value.pointerLength else Some(DefaultFlyoutPointerLength)
    else pointerLength
  }

  /** The rendered flyout: the flyout component's own props override the computed pointer length and width. */
  function FlyoutElement(own: Props, pointerLength: Option<real>, pointerWidth: Option<real>): (r: Props)
    ensures r.Keys == own.Keys + {"pointerLength", "pointerWidth"}
    ensures forall k :: k in own ==> r[k] == own[k]
    ensures "pointerLength" !in own ==> r["pointerLength"] == NumOr(pointerLength)
    ensures "pointerWidth" !in own ==> r["pointerWidth"] == NumOr(pointerWidth)
  {
    var computed := map["pointerLength" := NumOr(pointerLength), "pointerWidth" := NumOr(pointerWidth)];
    CloneElement(own, Spread(computed, own))
  }

  /** The tooltip as rendered, or the error its defaults raise. */
  function CursorTooltip(p: CursorTooltipProps, theme: CursorTheme, flyoutOwn: Props): (r: Result<TooltipConfig, TypeError>)
    ensures r.Err? <==> ResolveProps(p, theme).Err?
    ensures r.Ok? ==> var q := ResolveProps(p, theme).value;
      && r.value.constrainToVisibleArea == q.constrainToVisibleArea
      && r.value.labelTextAnchor == q.labelTextAnchor
      && r.value.style == NewStyle(p.style, q.labelTextAnchor)
      && r.value.flyout == FlyoutElement(flyoutOwn, FlyoutPointerLength(q.showPointer, q.pointerLength, theme), q.pointerWidth)
  {
    match ResolveProps(p, theme)
    case Err(e) => Err(e)
    case Ok(q) =>
      Ok(TooltipConfig(
        q.constrainToVisibleArea,
        q.labelTextAnchor,
        NewStyle(p.style, q.labelTextAnchor),
        FlyoutElement(flyoutOwn, FlyoutPointerLength(q.showPointer, q.pointerLength, theme), q.pointerWidth)))
  }

  /** Without a theme tooltip the component renders only when `pointerWidth` is given. */
  lemma NoThemeTooltipNeedsPointerWidth(p: CursorTooltipProps, theme: CursorTheme, flyoutOwn: Props)
    requires theme.tooltip.None?
    ensures CursorTooltip(p, theme, flyoutOwn).Ok? <==> p.pointerWidth.Some?
  {
  }

  /**
   * With no `pointerLength` prop and a theme tooltip, the flyout's pointer
   * length is the theme's when the pointer shows and 0 when it does not.
   */
  lemma DefaultFlyoutLength(p: CursorTooltipProps, theme: CursorTheme, flyoutOwn: Props)
    requires p.pointerLength.None? && theme.tooltip.Some? && "pointerLength" !in flyoutOwn
    ensures var r := CursorTooltip(p, theme, flyoutOwn);
      && r.Ok?
      && r.value.flyout["pointerLength"]
         == if p.showPointer != Some(false) then NumOr(theme.tooltip.value.pointerLength) else Num(0.0)
  {
  }

  /** A shown pointer never gets a zero length unless the theme itself asks for one. */
  lemma ShownPointerIsNonZero(p: CursorTooltipProps, theme: CursorTheme, flyoutOwn: Props)
    requires p.showPointer != Some(false) && "pointerLength" !in flyoutOwn
    requires theme.tooltip.Some? ==> theme.tooltip.value.pointerLength != Some(0.0)
    requires CursorTooltip(p, theme, flyoutOwn).Ok?
    ensures CursorTooltip(p, theme, flyoutOwn).value.flyout["pointerLength"] != Num(0.0)
  {
  }
}
