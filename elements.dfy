/**
 * Element properties as the charting components hand them to the renderer:
 * a property bag keyed by name, style objects, and the shallow override that
 * object spread and `cloneElement` perform.
 */
module Elements {
  import opened Wrappers

  /** A CSS property value; `CssUndefined` is a key that is present but holds `undefined`. */
  datatype CssValue = CssNum(n: real) | CssStr(s: string) | CssUndefined

  /** A style object. */
  type Style = map<string, CssValue>

  /** A `style` prop: absent, one style object, or an array of style objects. */
  datatype StyleProp = NoStyle | OneStyle(style: Style) | StyleArray(styles: seq<Style>)

  /** A text anchor (`textAnchor` or `verticalAnchor`). */
  datatype Anchor = Start | Middle | End | Inherit

  function AnchorName(a: Anchor): string {
    match a
    case Start => "start"
    case Middle => "middle"
    case End => "end"
    case Inherit => "inherit"
  }

  /** A property value handed to a rendered element. */
  datatype Value =
    | Num(n: real)
    | NaN
    | Str(s: string)
    | Strs(ss: seq<string>)
    | Undefined
    | AnchorValue(anchor: Anchor)
    | StyleValue(style: StyleProp)

  /** A property bag. */
  type Props = map<string, Value>

  /** An optional number as a property value (`undefined` when absent). */
  function NumOr(x: Option<real>): (v: Value)
    ensures x.Some? <==> v.Num?
    ensures x.Some? ==> v == Num(x.value)
    ensures x.None? ==> v == Undefined
  {
    match x
    case Some(n) => Num(n)
    case None => Undefined
  }

  /** `{ ...base, ...over }`: every key of either object, the later one winning. */
  function Spread(base: Props, over: Props): (r: Props)
    ensures r.Keys == base.Keys + over.Keys
    ensures forall k :: k in over ==> r[k] == over[k]
    ensures forall k :: k in base && k !in over ==> r[k] == base[k]
  {
    base + over
  }

  /** `cloneElement(element, config)`: the element's own props, overridden by `config`. */
  function CloneElement(own: Props, config: Props): (r: Props)
    ensures r.Keys == own.Keys + config.Keys
    ensures forall k :: k in config ==> r[k] == config[k]
    ensures forall k :: k in own && k !in config ==> r[k] == own[k]
  {
    Spread(own, config)
  }

  /**
   * `cloneElement(c, { ...computed, ...c.props, ...themeLabel })`: the theme's
   * label props win over the component's own props, which win over the
   * computed ones. An undefined theme label spreads nothing.
   */
  function CloneWithThemeLabel(own: Props, computed: Props, themeLabel: Option<Props>): (r: Props)
    ensures var over := themeLabel.GetOr(map[]);
      && r.Keys == computed.Keys + own.Keys + over.Keys
      && (forall k :: k in over ==> r[k] == over[k])
      && (forall k :: k in own && k !in over ==> r[k] == own[k])
      && (forall k :: k in computed && k !in own && k !in over ==> r[k] == computed[k])
  {
    CloneElement(own, Spread(Spread(computed, own), themeLabel.GetOr(map[])))
  }

  /** The layout props every title label computes. */
  const LayoutKeys: set<string> := {"text", "textAnchor", "verticalAnchor", "x", "y"}

  /** `styles.map(f)`: one rewritten style per input style, in order. */
  function MapStyles(ss: seq<Style>, f: Style -> Style): (r: seq<Style>)
    ensures |r| == |ss|
    ensures forall i :: 0 <= i < |ss| ==> r[i] == f(ss[i])
  {
    if ss == [] then [] else [f(ss[0])] + MapStyles(ss[1..], f)
  }
}
