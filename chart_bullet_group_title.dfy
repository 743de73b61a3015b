/**
 * ChartBulletGroupTitle: a centred title for a group of bullet charts with a
 * horizontal divider line underneath it.
 */
module ChartBulletGroupTitle {
  import opened Wrappers
  import opened Elements
  import opened ChartHelpers

  /** The parts of the group-title theme the component reads. */
  datatype GroupTheme = GroupTheme(
    height: real,
    width: real,
    padding: Padding,
    legendLabelPadding: real,
    dividerStyle: Style)

  /** The props of the group title that feed its layout (undefined ones as `None`). */
  datatype GroupTitleProps = GroupTitleProps(
    capHeight: Option<real>,
    height: Option<real>,
    name: Option<string>,
    padding: Option<Padding>,
    subTitle: Option<string>,
    title: Option<string>,
    width: Option<real>)

  /** The group-title and subtitle label styles of the bullet styles. */
  datatype LabelStyles = LabelStyles(groupTitle: Style, subTitle: Style)

  /** The divider line's computed endpoints and style. */
  datatype Divider = Divider(x1: real, x2: real, y1: real, y2: real, style: Style)

  /** The title label's computed props. */
  datatype GroupLabel = GroupLabel(
    capHeight: Option<real>,
    id: Option<string>,
    style: seq<Style>,
    text: Value,
    textAnchor: Anchor,
    verticalAnchor: Anchor,
    x: real,
    y: real)

  const DefaultCapHeight: real := 1.1

  /** `height = theme.chart.height` unless the prop is given. */
  function Height(theme: GroupTheme, p: GroupTitleProps): (r: real)
    ensures p.height.Some? ==> r == p.height.value
    ensures p.height.None? ==> r == theme.height
  {
    p.height.GetOr(theme.height)
  }

  /** `width = theme.chart.width` unless the prop is given. */
  function Width(theme: GroupTheme, p: GroupTitleProps): (r: real)
    ensures p.width.Some? ==> r == p.width.value
    ensures p.width.None? ==> r == theme.width
  {
    p.width.GetOr(theme.width)
  }

  /** `defaultPadding`: each side resolved against the chart theme's padding. */
  function DefaultPadding(u: Utils, theme: GroupTheme, padding: Option<Padding>): (r: Sides)
    ensures r == ResolvePadding(u, padding, theme.padding)
  {
    ResolvePadding(u, padding, theme.padding)
  }

  /** `labelPadding`: each side resolved against the theme's legend label padding instead. */
  function LabelPadding(u: Utils, theme: GroupTheme, padding: Option<Padding>): (r: Sides)
    ensures r == ResolvePadding(u, padding, Uniform(theme.legendLabelPadding))
  {
    ResolvePadding(u, padding, Uniform(theme.legendLabelPadding))
  }

  /** The divider's offset below the top padding: the height of the text block plus the label padding. */
  function DividerDy(u: Utils, title: Option<string>, subTitle: Option<string>, labelPad: Sides): (r: real)
    ensures Present(title) && Present(subTitle) ==>
      r == u.labelTextHeight(title) + u.labelTextHeight(subTitle) + labelPad.top + labelPad.bottom
    ensures !(Present(title) && Present(subTitle)) ==>
      r == u.labelTextHeight(title) + labelPad.top + labelPad.bottom
  {
    var titleHeight := u.labelTextHeight(title);
    var subTitleHeight := u.labelTextHeight(subTitle);
    if Present(title) && Present(subTitle) then titleHeight + subTitleHeight + labelPad.top + labelPad.bottom
    else titleHeight + labelPad.top + labelPad.bottom
  }

  /** A subtitle lowers the divider by exactly its own height: the line sits under the whole block. */
  lemma SubTitleLowersDivider(u: Utils, title: Option<string>, subTitle: Option<string>, labelPad: Sides)
    requires Present(title) && Present(subTitle)
    ensures DividerDy(u, title, subTitle, labelPad) == DividerDy(u, title, None, labelPad) + u.labelTextHeight(subTitle)
  {
  }

  /** `getDivider`'s computed props. */
  function GetDivider(u: Utils, theme: GroupTheme, p: GroupTitleProps): (r: Divider)
    ensures var pad := DefaultPadding(u, theme, p.padding);
      && r.y1 == r.y2
      && r.y1 == pad.top + DividerDy(u, p.title, p.subTitle, LabelPadding(u, theme, p.padding))
      && r.x1 == pad.left
      && r.x2 - r.x1 == Width(theme, p) - pad.left - pad.right
      && r.style == theme.dividerStyle
  {
    var pad := DefaultPadding(u, theme, p.padding);
    var dy := DividerDy(u, p.title, p.subTitle, LabelPadding(u, theme, p.padding));
    Divider(pad.left, Width(theme, p) - pad.right, pad.top + dy, pad.top + dy, theme.dividerStyle)
  }

  function DividerProps(d: Divider): (r: Props)
    ensures "x1" in r && r["x1"] == Num(d.x1) && "x2" in r && r["x2"] == Num(d.x2)
    ensures "y1" in r && r["y1"] == Num(d.y1) && "y2" in r && r["y2"] == Num(d.y2)
    ensures "style" in r && r["style"] == StyleValue(OneStyle(d.style))
  {
    map["x1" := Num(d.x1), "x2" := Num(d.x2), "y1" := Num(d.y1), "y2" := Num(d.y2),
        "style" := StyleValue(OneStyle(d.style))]
  }

  /** The rendered divider: the divider component's own props override the computed ones. */
  function DividerElement(u: Utils, theme: GroupTheme, p: GroupTitleProps, own: Props): (r: Props)
    ensures var computed := DividerProps(GetDivider(u, theme, p));
      && r.Keys == computed.Keys + own.Keys
      && (forall k :: k in own ==> r[k] == own[k])
      && (forall k :: k in computed && k !in own ==> r[k] == computed[k])
  {
    CloneElement(own, Spread(DividerProps(GetDivider(u, theme, p)), own))
  }

  /** `getTitle`'s computed props: centred at the top, one or two lines. */
  function GetTitle(u: Utils, theme: GroupTheme, p: GroupTitleProps, displayName: string, styles: LabelStyles): (r: GroupLabel)
    ensures r.textAnchor == Middle && r.verticalAnchor == Middle
    ensures r.style == [styles.groupTitle, styles.subTitle]
    ensures r.capHeight.Some? <==> Present(p.title) && Present(p.subTitle)
    ensures Present(p.title) && Present(p.subTitle) ==> r.text == Strs([p.title.value, p.subTitle.value])
    ensures !(Present(p.title) && Present(p.subTitle)) ==> r.text == (if p.title.Some? then Str(p.title.value) else Undefined)
    ensures r.x == u.bulletLabelX(LabelXArgs(Width(theme, p), None, Top, None, None))
    ensures r.y == u.bulletLabelY(LabelYArgs(Height(theme, p), DefaultPadding(u, theme, p.padding).top, Top))
  {
    var showBoth := Present(p.title) && Present(p.subTitle);
    GroupLabel(
      if showBoth then Some(p.capHeight.GetOr(DefaultCapHeight)) else None,
      if Present(p.name) then Some(p.name.value + "-" + displayName) else None,
      [styles.groupTitle, styles.subTitle],
      if showBoth then Strs([p.title.value, p.subTitle.value])
      else if p.title.Some? then Str(p.title.value) else Undefined,
      Middle,
      Middle,
      u.bulletLabelX(LabelXArgs(Width(theme, p), None, Top, None, None)),
      u.bulletLabelY(LabelYArgs(Height(theme, p), DefaultPadding(u, theme, p.padding).top, Top)))
  }

  function LabelProps(t: GroupLabel): (r: Props)
    ensures "capHeight" in r <==> t.capHeight.Some?
    ensures "id" in r <==> t.id.Some?
    ensures "text" in r && r["text"] == t.text
    ensures "x" in r && r["x"] == Num(t.x) && "y" in r && r["y"] == Num(t.y)
  {
    var base := map[
      "style" := StyleValue(StyleArray(t.style)),
      "text" := t.text,
      "textAnchor" := AnchorValue(t.textAnchor),
      "verticalAnchor" := AnchorValue(t.verticalAnchor),
      "x" := Num(t.x),
      "y" := Num(t.y)];
    var withCap := if t.capHeight.Some? then base["capHeight" := Num(t.capHeight.value)] else base;
    if t.id.Some? then withCap["id" := Str(t.id.value)] else withCap
  }

  /** The rendered title: computed props, then the title component's own props, then the theme's label props. */
  function TitleElement(u: Utils, theme: GroupTheme, p: GroupTitleProps, displayName: string, styles: LabelStyles,
                        own: Props, themeLabel: Option<Props>): (r: Props)
    ensures forall k :: k in LayoutKeys && k !in own && k !in themeLabel.GetOr(map[]) ==>
      k in r && r[k] == LabelProps(GetTitle(u, theme, p, displayName, styles))[k]
  {
    CloneWithThemeLabel(own, LabelProps(GetTitle(u, theme, p, displayName, styles)), themeLabel)
  }

  /** What the component renders: the title and its divider, or nothing when the title is falsy. */
  datatype GroupTitle = GroupTitle(title: Props, divider: Props)

  function RenderGroupTitle(u: Utils, theme: GroupTheme, p: GroupTitleProps, displayName: string, styles: LabelStyles,
                            titleOwn: Props, themeLabel: Option<Props>, dividerOwn: Props): (r: Option<GroupTitle>)
    ensures r.Some? <==> Present(p.title)
    ensures r.Some? ==> r.value.title == TitleElement(u, theme, p, displayName, styles, titleOwn, themeLabel)
    ensures r.Some? ==> r.value.divider == DividerElement(u, theme, p, dividerOwn)
  {
    if Present(p.title) then
      Some(GroupTitle(
        TitleElement(u, theme, p, displayName, styles, titleOwn, themeLabel),
        DividerElement(u, theme, p, dividerOwn)))
    else None
  }

  /**
   * When the divider component sets none of its endpoints, the rendered line
   * is horizontal, starts at the left padding and ends at the width less the
   * right padding, below the title block.
   */
  lemma RenderedDividerIsHorizontal(u: Utils, theme: GroupTheme, p: GroupTitleProps, own: Props)
    requires "x1" !in own && "x2" !in own && "y1" !in own && "y2" !in own
    ensures var r := DividerElement(u, theme, p, own);
      var pad := DefaultPadding(u, theme, p.padding);
      var dy := DividerDy(u, p.title, p.subTitle, LabelPadding(u, theme, p.padding));
      && "x1" in r && "x2" in r && "y1" in r && "y2" in r
      && r["y1"] == r["y2"] == Num(pad.top + dy)
      && r["x1"] == Num(pad.left)
      && r["x2"] == Num(Width(theme, p) - pad.right)
  {
  }
}
