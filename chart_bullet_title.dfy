/**
 * ChartBulletTitle: the title of a bullet chart. Every value here is
 * recomputed from the props on each render; nothing is stored.
 */
module ChartBulletTitle {
  import opened Wrappers
  import opened Elements
  import opened ChartHelpers

  /** The `titlePosition` prop: `'left'` or `'top-left'`. */
  datatype TitlePosition = TitleLeft | TitleTopLeft

  function TitlePositionName(p: TitlePosition): string {
    match p
    case TitleLeft => "left"
    case TitleTopLeft => "top-left"
  }

  /** The parts of the bullet theme the title reads. */
  datatype BulletTheme = BulletTheme(height: real, width: real, padding: Padding)

  /**
   * Style constants: the legend margin, the label margin and the qualitative
   * range width of the common and bullet styles, and the two label styles.
   */
  datatype Styles = Styles(
    legendMargin: real,
    labelMargin: real,
    qualitativeRangeWidth: real,
    titleStyle: Style,
    subTitleStyle: Style)

  /** The props of the title that feed its layout (undefined ones as `None`). */
  datatype TitleProps = TitleProps(
    capHeight: Option<real>,
    height: Option<real>,
    horizontal: Option<bool>,
    legendPosition: Option<LegendPosition>,
    name: Option<string>,
    padding: Option<Padding>,
    subTitle: Option<string>,
    title: Option<string>,
    titlePosition: Option<TitlePosition>,
    width: Option<real>)

  datatype Size = Size(height: real, width: real)

  /** The title label's computed props, before the component's own props and the theme override them. */
  datatype TitleLabel = TitleLabel(
    capHeight: Option<real>,
    id: Option<string>,
    style: seq<Style>,
    text: Value,
    textAnchor: Anchor,
    verticalAnchor: Anchor,
    x: real,
    y: real)

  const DefaultCapHeight: real := 1.1

  /** `horizontal = true` unless the prop says otherwise. */
  function Horizontal(p: TitleProps): (r: bool)
    ensures r <==> p.horizontal != Some(false)
  {
    p.horizontal.GetOr(true)
  }

  /** The `height` prop, defaulting to the theme height when horizontal and the theme width when vertical. */
  function DefaultHeight(horizontal: bool, theme: BulletTheme, height: Option<real>): (r: real)
    ensures height.Some? ==> r == height.value
    ensures height.None? && horizontal ==> r == theme.height
    ensures height.None? && !horizontal ==> r == theme.width
  {
    height.GetOr(if horizontal then theme.height else theme.width)
  }

  /** The `width` prop, defaulting to the theme width when horizontal and the theme height when vertical. */
  function DefaultWidth(horizontal: bool, theme: BulletTheme, width: Option<real>): (r: real)
    ensures width.Some? ==> r == width.value
    ensures width.None? && horizontal ==> r == theme.width
    ensures width.None? && !horizontal ==> r == theme.height
  {
    width.GetOr(if horizontal then theme.width else theme.height)
  }

  /** A vertical chart's default size is the horizontal one with the axes swapped. */
  lemma VerticalSwapsDefaultSize(theme: BulletTheme)
    ensures DefaultHeight(false, theme, None) == DefaultWidth(true, theme, None)
    ensures DefaultWidth(false, theme, None) == DefaultHeight(true, theme, None)
  {
  }

  /** `chartSize`: the theme height on the fixed axis, the resolved size on the other. */
  function ChartSize(horizontal: bool, theme: BulletTheme, height: real, width: real): (r: Size)
    ensures horizontal ==> r == Size(theme.height, width)
    ensures !horizontal ==> r == Size(height, theme.height)
  {
    Size(if horizontal then theme.height else height, if horizontal then width else theme.height)
  }

  /** Both `titlePosition` values contain `'left'`: `"left"` at offset 0, `"top-left"` at offset 4. */
  lemma TitlePositionIncludesLeft(p: TitlePosition)
    ensures Includes(TitlePositionName(p), "left")
  {
    assert "left"[..4] == "left";
    assert Includes("left", "left");
    assert "top-left"[1..] == "op-left" && "op-left"[1..] == "p-left";
    assert "p-left"[1..] == "-left" && "-left"[1..] == "left";
  }

  /**
   * The label position: `'left'` when horizontal and `'bottom'` when vertical,
   * unless a horizontal title is given a `titlePosition` containing `'left'`.
   */
  function LabelPositionFor(horizontal: bool, titlePosition: Option<TitlePosition>): (r: LabelPosition)
    ensures !horizontal ==> r == Bottom
    ensures horizontal ==> r == if titlePosition == Some(TitleTopLeft) then TopLeft else Left
  {
    TitlePositionIncludesLeft(titlePosition.GetOr(TitleLeft));
    if titlePosition.Some? && Includes(TitlePositionName(titlePosition.value), "left") && horizontal then
      match titlePosition.value
      case TitleLeft => Left
      case TitleTopLeft => TopLeft
    else if horizontal then Left else Bottom
  }

  /** The horizontal anchor: start at the top left, otherwise end when horizontal and middle when vertical. */
  function TextAnchorFor(horizontal: bool, pos: LabelPosition): (r: Anchor)
    ensures r == Start <==> pos == TopLeft
    ensures pos != TopLeft && horizontal ==> r == End
    ensures pos != TopLeft && !horizontal ==> r == Middle
  {
    if pos == TopLeft then Start else if horizontal then End else Middle
  }

  /** The vertical anchor: end at the top left, middle everywhere else. */
  function VerticalAnchorFor(pos: LabelPosition): (r: Anchor)
    ensures r == End <==> pos == TopLeft
    ensures r != End ==> r == Middle
  {
    if pos == TopLeft then End else Middle
  }

  /** The vertical offset handed to `getBulletLabelY`. */
  function TitleDy(s: Styles, pad: Sides, pos: LabelPosition, horizontal: bool, showBoth: bool): (r: real)
    ensures pos == TopLeft ==>
      r == pad.top / 2.0 - pad.bottom / 2.0 + 58.0 - s.legendMargin + (if showBoth then 0.0 else 1.0)
    ensures pos != TopLeft && horizontal ==> r == pad.top / 2.0 - pad.bottom / 2.0
    ensures pos != TopLeft && !horizontal ==> r == 2.0 * s.legendMargin - pad.bottom
  {
    if pos == TopLeft then
      var offsetLabelPosition := if showBoth then 0.0 else 1.0;
      pad.top * 0.5 + (pad.bottom * 0.5 - pad.bottom) + 58.0 - s.legendMargin + offsetLabelPosition
    else if horizontal then
      pad.top * 0.5 + (pad.bottom * 0.5 - pad.bottom)
    else
      s.legendMargin * 2.0 - pad.bottom
  }

  /** Moving a horizontal title to the top left lowers it by 58 less the legend margin, plus one for a lone line. */
  lemma TopLeftDyShift(s: Styles, pad: Sides, showBoth: bool)
    ensures TitleDy(s, pad, TopLeft, true, showBoth) - TitleDy(s, pad, Left, true, showBoth)
         == 58.0 - s.legendMargin + (if showBoth then 0.0 else 1.0)
  {
  }

  /** The horizontal position of the title. */
  function TitleX(u: Utils, s: Styles, pad: Sides, pos: LabelPosition, horizontal: bool,
                  chartWidth: real, svgWidth: real, legendPosition: LegendPosition): (r: real)
    ensures horizontal ==> r == u.bulletLabelX(LabelXArgs(
      chartWidth,
      Some(if pos == TopLeft then pad.left else pad.left - 1.75 * s.labelMargin),
      Left,
      Some(legendPosition),
      Some(svgWidth)))
    ensures !horizontal ==> r == pad.left / 2.0 - pad.right / 2.0 + 50.0 + s.qualitativeRangeWidth / 2.0
  {
    if horizontal then
      u.bulletLabelX(LabelXArgs(
        chartWidth,
        Some(if pos == TopLeft then pad.left else pad.left - s.labelMargin * 1.75),
        Left,
        Some(legendPosition),
        Some(svgWidth)))
    else
      pad.left * 0.5 + (pad.right * 0.5 - (pad.right - 50.0)) + s.qualitativeRangeWidth / 2.0
  }

  /** The label text: both lines when title and subtitle are present, the title alone otherwise. */
  function TitleText(title: Option<string>, subTitle: Option<string>): (r: Value)
    ensures Present(title) && Present(subTitle) ==> r == Strs([title.value, subTitle.value])
    ensures !(Present(title) && Present(subTitle)) ==> r == (if title.Some? then Str(title.value) else Undefined)
  {
    if Present(title) && Present(subTitle) then Strs([title.value, subTitle.value])
    else if title.Some? then Str(title.value)
    else Undefined
  }

  /** `getTitle`'s computed props. */
  function GetTitle(u: Utils, s: Styles, theme: BulletTheme, p: TitleProps, displayName: string): (r: TitleLabel)
    ensures r.capHeight.Some? <==> Present(p.title) && Present(p.subTitle)
    ensures r.capHeight.Some? ==> r.capHeight.value == p.capHeight.GetOr(DefaultCapHeight)
    ensures r.id.Some? <==> Present(p.name)
    ensures r.style == [s.titleStyle, s.subTitleStyle]
    ensures r.text == TitleText(p.title, p.subTitle)
  {
    var horizontal := Horizontal(p);
    var height := DefaultHeight(horizontal, theme, p.height);
    var width := DefaultWidth(horizontal, theme, p.width);
    var size := ChartSize(horizontal, theme, height, width);
    var pad := ResolvePadding(u, p.padding, theme.padding);
    var showBoth := Present(p.title) && Present(p.subTitle);
    var pos := LabelPositionFor(horizontal, p.titlePosition);
    var dy := TitleDy(s, pad, pos, horizontal, showBoth);
    TitleLabel(
      if showBoth then Some(p.capHeight.GetOr(DefaultCapHeight)) else None,
      if Present(p.name) then Some(p.name.value + "-" + displayName) else None,
      [s.titleStyle, s.subTitleStyle],
      TitleText(p.title, p.subTitle),
      TextAnchorFor(horizontal, pos),
      VerticalAnchorFor(pos),
      TitleX(u, s, pad, pos, horizontal, size.width, width, p.legendPosition.GetOr(LegendBottom)),
      u.bulletLabelY(LabelYArgs(size.height, dy, pos)))
  }

  /** The anchors agree: start-anchored exactly when end-anchored vertically, exactly for a horizontal top-left title. */
  lemma AnchorsAgree(u: Utils, s: Styles, theme: BulletTheme, p: TitleProps, displayName: string)
    ensures var t := GetTitle(u, s, theme, p, displayName);
      (t.textAnchor == Start <==> t.verticalAnchor == End)
      && (t.verticalAnchor == End <==> Horizontal(p) && p.titlePosition == Some(TitleTopLeft))
      && (t.textAnchor != Start ==> t.verticalAnchor == Middle && t.textAnchor == (if Horizontal(p) then End else Middle))
  {
  }

  /** A vertical title sits at the bottom, middle-anchored, offset from the padding and the range width. */
  lemma VerticalTitle(u: Utils, s: Styles, theme: BulletTheme, p: TitleProps, displayName: string)
    requires !Horizontal(p)
    ensures var t := GetTitle(u, s, theme, p, displayName);
      var pad := ResolvePadding(u, p.padding, theme.padding);
      && t.textAnchor == Middle && t.verticalAnchor == Middle
      && t.x == pad.left / 2.0 - pad.right / 2.0 + 50.0 + s.qualitativeRangeWidth / 2.0
      && t.y == u.bulletLabelY(LabelYArgs(
           DefaultHeight(false, theme, p.height), 2.0 * s.legendMargin - pad.bottom, Bottom))
  {
  }

  /** A horizontal title is placed by `getBulletLabelX` with position `'left'`, over the full chart width. */
  lemma HorizontalTitle(u: Utils, s: Styles, theme: BulletTheme, p: TitleProps, displayName: string)
    requires Horizontal(p)
    ensures var t := GetTitle(u, s, theme, p, displayName);
      var pad := ResolvePadding(u, p.padding, theme.padding);
      var topLeft := p.titlePosition == Some(TitleTopLeft);
      var w := DefaultWidth(true, theme, p.width);
      && t.x == u.bulletLabelX(LabelXArgs(
           w, Some(if topLeft then pad.left else pad.left - 1.75 * s.labelMargin),
           Left, Some(p.legendPosition.GetOr(LegendBottom)), Some(w)))
      && t.y == u.bulletLabelY(LabelYArgs(
           theme.height,
           TitleDy(s, pad, if topLeft then TopLeft else Left, true, Present(p.title) && Present(p.subTitle)),
           if topLeft then TopLeft else Left))
  {
  }

  /** The computed props as a property bag. */
  function LabelProps(t: TitleLabel): (r: Props)
    ensures "capHeight" in r <==> t.capHeight.Some?
    ensures "id" in r <==> t.id.Some?
    ensures "textAnchor" in r && r["textAnchor"] == AnchorValue(t.textAnchor)
    ensures "verticalAnchor" in r && r["verticalAnchor"] == AnchorValue(t.verticalAnchor)
    ensures "x" in r && r["x"] == Num(t.x) && "y" in r && r["y"] == Num(t.y)
    ensures "text" in r && r["text"] == t.text
  {
    var base := map[
      "style" := StyleValue(StyleArray(t.style)),
      "text" := t.text,
      "textAnchor" := AnchorValue(t.textAnchor),
      "verticalAnchor" := AnchorValue(t.verticalAnchor),
      "x" := Num(t.x),
      "y" := Num(t.y)];
    var withCap := if t.capHeight.Some? then base["capHeight" := Num(t.capHeight.value)] else base;
    if t.id.Some? then withCap["id" := Str(t.id.value)] else withCap
  }

  /**
   * The rendered title: the title component cloned with the computed props,
   * then its own props, then the theme's label props, each layer overriding
   * the one before.
   */
  function TitleElement(u: Utils, s: Styles, theme: BulletTheme, p: TitleProps, displayName: string,
                        own: Props, themeLabel: Option<Props>): (r: Props)
    ensures forall k :: k in LayoutKeys && k !in own && k !in themeLabel.GetOr(map[]) ==>
      k in r && r[k] == LabelProps(GetTitle(u, s, theme, p, displayName))[k]
  {
    CloneWithThemeLabel(own, LabelProps(GetTitle(u, s, theme, p, displayName)), themeLabel)
  }

  /** The size of the standalone container: the resolved `height` and `width`. */
  function ContainerSize(theme: BulletTheme, p: TitleProps): (r: Size)
    ensures Horizontal(p) && p.height.None? && p.width.None? ==> r == Size(theme.height, theme.width)
    ensures !Horizontal(p) && p.height.None? && p.width.None? ==> r == Size(theme.width, theme.height)
  {
    Size(DefaultHeight(Horizontal(p), theme, p.height), DefaultWidth(Horizontal(p), theme, p.width))
  }
}
