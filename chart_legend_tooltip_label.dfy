/**
 * ChartLegendTooltipLabel: one line of a legend tooltip, a legend name on the
 * left and a value label shifted by `dx`, both with a default fill colour.
 */
module ChartLegendTooltipLabel {
  import opened Wrappers
  import opened Elements

  /** One entry of `legendData` (its symbol is not read here). */
  datatype LegendDatum = LegendDatum(name: Option<string>)

  /** The props the label reads (undefined ones as `None`; callbacks already evaluated). */
  datatype LegendLabelProps = LegendLabelProps(
    dx: Option<real>,
    index: Option<int>,
    legendData: Option<seq<LegendDatum>>,
    style: StyleProp,
    text: Value,
    textAnchor: Option<Anchor>,
    x: Option<real>,
    y: Option<real>,
    rest: Props)

  /** The rendered pair of labels. */
  datatype LegendTooltipLabel = LegendTooltipLabel(legendLabel: Props, valueLabel: Props)

  /** The prop names the component destructures; every other prop is passed on to the value label. */
  const Destructured: set<string> := {
    "dx", "index", "legendData", "legendLabelComponent", "style", "text",
    "textAnchor", "valueLabelComponent", "x", "y"}

  /** `defaults({ ...customStyle }, { fill })`: `fill` is filled in only where it is missing or undefined. */
  function ApplyDefaultFill(customStyle: Style, fill: CssValue): (r: Style)
    ensures r.Keys == customStyle.Keys + {"fill"}
    ensures "fill" in customStyle && customStyle["fill"] != CssUndefined ==> r["fill"] == customStyle["fill"]
    ensures !("fill" in customStyle && customStyle["fill"] != CssUndefined) ==> r["fill"] == fill
    ensures forall k :: k in customStyle && k != "fill" ==> r[k] == customStyle[k]
  {
    if "fill" in customStyle && customStyle["fill"] != CssUndefined then customStyle
    else customStyle["fill" := fill]
  }

  /** `getStyle`: array styles defaulted element by element, a single (or absent) style once. */
  function GetStyle(styles: StyleProp, fill: CssValue): (r: StyleProp)
    ensures styles.StyleArray? ==> r.StyleArray? && |r.styles| == |styles.styles|
    ensures styles.StyleArray? ==>
      forall i :: 0 <= i < |styles.styles| ==> r.styles[i] == ApplyDefaultFill(styles.styles[i], fill)
    ensures styles.OneStyle? ==> r == OneStyle(ApplyDefaultFill(styles.style, fill))
    ensures styles.NoStyle? ==> r == OneStyle(map["fill" := fill])
  {
    match styles
    case StyleArray(ss) => StyleArray(MapStyles(ss, s => ApplyDefaultFill(s, fill)))
    case OneStyle(s) => OneStyle(ApplyDefaultFill(s, fill))
    case NoStyle => OneStyle(ApplyDefaultFill(map[], fill))
  }

  /** Defaulting the fill twice is the same as once, provided the default is itself defined. */
  lemma GetStyleIdempotent(styles: StyleProp, fill: CssValue)
    requires fill != CssUndefined
    ensures GetStyle(GetStyle(styles, fill), fill) == GetStyle(styles, fill)
  {
  }

  /**
   * The legend name: `legendData[index].name` when `legendData` is non-empty,
   * `undefined` otherwise; an index with no entry throws.
   */
  function LegendLabelText(legendData: Option<seq<LegendDatum>>, index: int): (r: Result<Option<string>, TypeError>)
    ensures legendData.None? || legendData.value == [] ==> r == Ok(None)
    ensures legendData.Some? && 0 <= index < |legendData.value| ==> r == Ok(legendData.value[index].name)
    ensures r.Err? <==> legendData.Some? && legendData.value != [] && !(0 <= index < |legendData.value|)
  {
    if legendData.None? || |legendData.value| == 0 then Ok(None)
    else if 0 <= index < |legendData.value| then Ok(legendData.value[index].name)
    else Err(ReadOfUndefined("name"))
  }

  /** `x + dx`: undefined `x` gives NaN; `dx` defaults to 0. */
  function ValueLabelX(x: Option<real>, dx: Option<real>): (r: Value)
    ensures x.Some? ==> r == Num(x.value + dx.GetOr(0.0))
    ensures x.Some? && dx.None? ==> r == Num(x.value)
    ensures x.None? ==> r == NaN
  {
    match x
    case Some(v) => Num(v + dx.GetOr(0.0))
    case None => NaN
  }

  function OptionalText(s: Option<string>): (v: Value)
    ensures s.Some? ==> v == Str(s.value)
    ensures s.None? ==> v == Undefined
  {
    match s
    case Some(t) => Str(t)
    case None => Undefined
  }

  /**
   * The legend label: the computed props override the component's own, so it
   * is always start-anchored at the unshifted position with only the default fill.
   */
  function LegendLabelElement(p: LegendLabelProps, fill: CssValue, own: Props): (r: Result<Props, TypeError>)
    ensures r.Err? <==> LegendLabelText(p.legendData, p.index.GetOr(0)).Err?
    ensures r.Ok? ==>
      && r.value.Keys == own.Keys + {"style", "text", "textAnchor", "x", "y"}
      && r.value["style"] == StyleValue(OneStyle(map["fill" := fill]))
      && r.value["text"] == OptionalText(LegendLabelText(p.legendData, p.index.GetOr(0)).value)
      && r.value["textAnchor"] == AnchorValue(Start)
      && r.value["x"] == NumOr(p.x) && r.value["y"] == NumOr(p.y)
      && (forall k :: k in own && k !in {"style", "text", "textAnchor", "x", "y"} ==> r.value[k] == own[k])
  {
    match LegendLabelText(p.legendData, p.index.GetOr(0))
    case Err(e) => Err(e)
    case Ok(name) =>
      Ok(CloneElement(own, map[
        "style" := StyleValue(GetStyle(OneStyle(map[]), fill)),
        "text" := OptionalText(name),
        "textAnchor" := AnchorValue(Start),
        "x" := NumOr(p.x),
        "y" := NumOr(p.y)]))
  }

  /** The value label's computed props. */
  function ValueLabelProps(p: LegendLabelProps, fill: CssValue): (r: Props)
    ensures r.Keys == {"style", "text", "textAnchor", "x", "y"}
    ensures r["x"] == ValueLabelX(p.x, p.dx) && r["y"] == NumOr(p.y)
    ensures r["textAnchor"] == AnchorValue(p.textAnchor.GetOr(End))
    ensures r["style"] == StyleValue(GetStyle(p.style, fill))
    ensures r["text"] == p.text
  {
    map[
      "style" := StyleValue(GetStyle(p.style, fill)),
      "text" := p.text,
      "textAnchor" := AnchorValue(p.textAnchor.GetOr(End)),
      "x" := ValueLabelX(p.x, p.dx),
      "y" := NumOr(p.y)]
  }

  /** The value label: computed props, overridden by the remaining props, over the component's own. */
  function ValueLabelElement(p: LegendLabelProps, fill: CssValue, own: Props): (r: Props)
    ensures var rest := p.rest - Destructured;
      var computed := ValueLabelProps(p, fill);
      && r.Keys == own.Keys + computed.Keys + rest.Keys
      && (forall k :: k in computed ==> r[k] == computed[k])
      && (forall k :: k in rest ==> r[k] == rest[k])
      && (forall k :: k in own && k !in computed && k !in rest ==> r[k] == own[k])
  {
    CloneElement(own, Spread(ValueLabelProps(p, fill), p.rest - Destructured))
  }

  /** Both labels, or the error the legend-name lookup raises. */
  function LegendTooltipLabelOf(p: LegendLabelProps, fill: CssValue, legendOwn: Props, valueOwn: Props)
    : (r: Result<LegendTooltipLabel, TypeError>)
    ensures r.Err? <==> LegendLabelElement(p, fill, legendOwn).Err?
    ensures r.Ok? ==> r.value.legendLabel == LegendLabelElement(p, fill, legendOwn).value
    ensures r.Ok? ==> r.value.valueLabel == ValueLabelElement(p, fill, valueOwn)
  {
    match LegendLabelElement(p, fill, legendOwn)
    case Err(e) => Err(e)
    case Ok(legend) => Ok(LegendTooltipLabel(legend, ValueLabelElement(p, fill, valueOwn)))
  }

  /** The two labels share a baseline; the value label is shifted right of the legend label by `dx`. */
  lemma LabelsShareBaseline(p: LegendLabelProps, fill: CssValue, legendOwn: Props, valueOwn: Props)
    requires LegendTooltipLabelOf(p, fill, legendOwn, valueOwn).Ok?
    requires p.x.Some?
    ensures var r := LegendTooltipLabelOf(p, fill, legendOwn, valueOwn).value;
      && r.legendLabel["y"] == r.valueLabel["y"]
      && r.legendLabel["x"].Num? && r.valueLabel["x"].Num?
      && r.valueLabel["x"].n - r.legendLabel["x"].n == p.dx.GetOr(0.0)
  {
  }
}
