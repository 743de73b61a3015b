# Toolbar state, bullet-chart titles, tooltip labels and the Switch demo, in Dafny

This project models the small pieces of decision logic in a React component
library that sit between a component's props and what it renders:

- **Toolbar** (`toolbar.dfy`): the toolbar's state container. It decides
  whether the toggle group's expand state is managed internally or by the
  consumer. It flips the internal flag on toggle and closes it when the window
  width changes. It keeps a per-category filter-count table, replaced only when
  a count actually changes, and derives the total that shows or hides the
  "clear all filters" button. The component is a Dafny `class` whose methods
  update its fields. The filter table is kept as its own properties in
  insertion order (`seq<Entry>`, like a JavaScript object), with `AsMap` as
  its dictionary view.
- **ChartBulletTitle** and **ChartBulletGroupTitle** (`chart_bullet_title.dfy`,
  `chart_bullet_group_title.dfy`): the layout rules of the bullet-chart title
  and group title. These cover label position, text and vertical anchors, the
  `dy` offsets, the x position, the text lines, and the group title's divider
  line. Layout arithmetic uses `real`.
- **ChartCursorTooltip** (`chart_cursor_tooltip.dfy`): prop defaults, the
  style rewrite that forces `textAnchor`, and the flyout pointer-length
  fallback.
- **ChartLegendTooltipLabel** (`chart_legend_tooltip_label.dfy`): the default
  fill, the legend-name lookup, and the value label shifted by `dx`.
- **SwitchDemo** (`switch_demo.dfy`): the demo page's state. It updates one row
  by id, toggles "show all", and hides the first row when not showing all.

Shared modules: `Wrappers` (Option, Result, TypeError), `Elements` (property
bags, styles, and the shallow override that object spread and `cloneElement`
perform) and `ChartHelpers` (padding and label-placement types).

Some chart utility functions are defined in files that are not part of this
model: `getPaddingForSide`, `getBulletLabelX`, `getBulletLabelY` and
`getLabelTextSize`. They are passed in as function-valued parameters (the
`ChartHelpers.Utils` record). Every property proved about the titles holds
whatever those functions compute.

Where the source throws, the model returns `Err(TypeError)` instead of
narrowing the input with a precondition. Two such places are modelled:
`legendData[index].name` with an index that has no entry, and
`theme.tooltip.pointerWidth` read from a theme that has no tooltip. Other
throws are listed under "Left out": reads from an incomplete theme, and the
toolbar's filter table after a category named `hasOwnProperty`.

## Model

| member | source | states |
|---|---|---|
| `Toolbar.IsToggleManaged` | packages/react-core/src/components/Toolbar/Toolbar.tsx:91 | managed exactly when `isExpanded` is not true and no toggle callback is supplied |
| `Toolbar.EffectiveExpanded` | packages/react-core/src/components/Toolbar/Toolbar.tsx:155-156 | expanded flag comes from internal state when managed, from the prop otherwise; a controlled toolbar without a callback is expanded |
| `Toolbar.EffectiveToggle` | packages/react-core/src/components/Toolbar/Toolbar.tsx:183 | the context gets the toolbar's own toggle iff managed, otherwise the consumer's callback |
| `Toolbar.Lookup` | packages/react-core/src/components/Toolbar/Toolbar.tsx:122 | the own-property lookup finds a value iff `c` is a property of the table, and the value found is that property's count |
| `Toolbar.Assign` | packages/react-core/src/components/Toolbar/Toolbar.tsx:123 | `f[c] = n` adds at most one property and leaves every other property at its position with its count (that `c` then holds `n` is `Toolbar.LookupAssign`) |
| `Toolbar.AsMap` | packages/react-core/src/components/Toolbar/Toolbar.tsx:121-123 | every property of the table is a key of its dictionary view, with no more keys than properties |
| `Toolbar.ReduceShift` | packages/react-core/src/components/Toolbar/Toolbar.tsx:130 | the `reduce` accumulator only adds to the sum: starting from `acc` gives `acc` plus the sum from 0 |
| `Toolbar.Total` | packages/react-core/src/components/Toolbar/Toolbar.tsx:129-130 | the sum of the counts equals the left-to-right `reduce` from 0 (`Toolbar.Reduce`) |
| `Toolbar.LookupAsMap` | packages/react-core/src/components/Toolbar/Toolbar.tsx:122 | the own-property lookup agrees with the dictionary view of the table |
| `Toolbar.LookupAssign` | packages/react-core/src/components/Toolbar/Toolbar.tsx:123 | after `f[c] = n`, `c` holds `n` and every other category's lookup is unchanged |
| `Toolbar.AsMapAssign` | packages/react-core/src/components/Toolbar/Toolbar.tsx:121-123 | as a dictionary, property assignment is the map update `m[c := n]` |
| `Toolbar.CategoriesAssign` | packages/react-core/src/components/Toolbar/Toolbar.tsx:123 | assignment adds `c` to the categories and grows the table only for a new category |
| `Toolbar.AssignDistinct` | packages/react-core/src/components/Toolbar/Toolbar.tsx:121-124 | assignment never creates a duplicate category |
| `Toolbar.TotalAssign` | packages/react-core/src/components/Toolbar/Toolbar.tsx:129-130 | overwriting `c` with `n` changes the total by `n` minus the old count of `c` (0 if absent) |
| `Toolbar.TotalRaise` | packages/react-core/src/components/Toolbar/Toolbar.tsx:129-130 | raising one category's count by `k` raises the total by `k` |
| `Toolbar.TotalNonNegative` | packages/react-core/src/components/Toolbar/Toolbar.tsx:129-130 | non-negative counts give a non-negative total |
| `Toolbar.ShowClearFilters` | packages/react-core/src/components/Toolbar/Toolbar.tsx:158 | an empty table never shows the clear-filters button |
| `Toolbar.ShowClearFiltersIffSomeCount` | packages/react-core/src/components/Toolbar/Toolbar.tsx:157-158 | with non-negative counts, the button shows iff some category has a count above 0 |
| `Toolbar.ToolbarComponent.constructor` | packages/react-core/src/components/Toolbar/Toolbar.tsx:82-89 | initial state: collapsed, empty table in both state and instance field, window width or 1200 without a DOM, no listener |
| `Toolbar.ToolbarComponent.IsExpanded` | packages/react-core/src/components/Toolbar/Toolbar.tsx:153-156 | the rendered expanded flag: internal state when managed, the prop otherwise |
| `Toolbar.ToolbarComponent.NumberOfFilters` | packages/react-core/src/components/Toolbar/Toolbar.tsx:129-130 | the total is 0 for an empty table and non-negative for non-negative counts |
| `Toolbar.ToolbarComponent.ShowClearFiltersButton` | packages/react-core/src/components/Toolbar/Toolbar.tsx:157-158 | the button shows iff the number of filters is above 0 |
| `Toolbar.ToolbarComponent.ToggleIsExpanded` | packages/react-core/src/components/Toolbar/Toolbar.tsx:93-97 | negates the managed flag and modifies no other field |
| `Toolbar.ToolbarComponent.CloseExpandableContent` | packages/react-core/src/components/Toolbar/Toolbar.tsx:99-106 | a different width collapses and records the width; the same width changes nothing |
| `Toolbar.ToolbarComponent.WindowResized` | packages/react-core/src/components/Toolbar/Toolbar.tsx:110 | a resize reaches the handler only while the listener is registered |
| `Toolbar.ToolbarComponent.ComponentDidMount` | packages/react-core/src/components/Toolbar/Toolbar.tsx:108-112 | registers the listener iff managed and a DOM exists |
| `Toolbar.ToolbarComponent.ComponentWillUnmount` | packages/react-core/src/components/Toolbar/Toolbar.tsx:114-118 | removes the listener under the same condition |
| `Toolbar.ToolbarComponent.UpdateNumberFilters` | packages/react-core/src/components/Toolbar/Toolbar.tsx:120-127 | the dictionary becomes `old[c := n]`; nothing changes when `c` already held `n`; state and instance field stay the same table; the total moves by `n` minus the old count |
| `Toolbar.ToggleTwice` | packages/react-core/src/components/Toolbar/Toolbar.tsx:93-97 | toggling twice restores the flag, the table and the width |
| `Toolbar.MountThenUnmount` | packages/react-core/src/components/Toolbar/Toolbar.tsx:108-118 | mount followed by unmount leaves no listener |
| `ChartBulletTitle.Horizontal` | packages/react-charts/src/victory/components/ChartBullet/ChartBulletTitle.tsx:133 | the title is horizontal unless the `horizontal` prop is `false` |
| `ChartHelpers.Present` | packages/react-charts/src/victory/components/ChartBullet/ChartBulletTitle.tsx:164 | an optional string is truthy iff it is defined and non-empty |
| `ChartHelpers.Includes` | packages/react-charts/src/victory/components/ChartBullet/ChartBulletTitle.tsx:167 | `s.includes(sub)` holds iff `sub` occurs in `s` at some offset |
| `ChartBulletTitle.DefaultHeight` | packages/react-charts/src/victory/components/ChartBullet/ChartBulletTitle.tsx:146 | height defaults to the theme height when horizontal, the theme width when vertical |
| `ChartBulletTitle.DefaultWidth` | packages/react-charts/src/victory/components/ChartBullet/ChartBulletTitle.tsx:147 | width defaults to the theme width when horizontal, the theme height when vertical |
| `ChartBulletTitle.VerticalSwapsDefaultSize` | packages/react-charts/src/victory/components/ChartBullet/ChartBulletTitle.tsx:146-147 | the vertical default size is the horizontal one with the axes swapped |
| `ChartBulletTitle.ChartSize` | packages/react-charts/src/victory/components/ChartBullet/ChartBulletTitle.tsx:149-152 | the fixed axis takes the theme height, the other the resolved size |
| `ChartHelpers.ResolvePadding` | packages/react-charts/src/victory/components/ChartBullet/ChartBulletTitle.tsx:154-159 | each side comes from `getPaddingForSide` for that side, the `padding` prop and the given fallback (the chart theme padding here) |
| `ChartBulletTitle.TitlePositionIncludesLeft` | packages/react-charts/src/victory/components/ChartBullet/ChartBulletTitle.tsx:167 | both title positions contain `'left'` |
| `ChartBulletTitle.LabelPositionFor` | packages/react-charts/src/victory/components/ChartBullet/ChartBulletTitle.tsx:166-169 | vertical is always `bottom`; horizontal is `top-left` iff `titlePosition` is `top-left`, else `left` |
| `ChartBulletTitle.TextAnchorFor` | packages/react-charts/src/victory/components/ChartBullet/ChartBulletTitle.tsx:171-176 | `start` iff top-left; otherwise `end` when horizontal, `middle` when vertical |
| `ChartBulletTitle.VerticalAnchorFor` | packages/react-charts/src/victory/components/ChartBullet/ChartBulletTitle.tsx:199 | `end` iff top-left, `middle` otherwise |
| `ChartBulletTitle.TitleDy` | packages/react-charts/src/victory/components/ChartBullet/ChartBulletTitle.tsx:178-189 | vertical: 2·margin − bottom; horizontal left: top/2 − bottom/2; top-left adds 58 − margin + 1 for a lone line |
| `ChartBulletTitle.TopLeftDyShift` | packages/react-charts/src/victory/components/ChartBullet/ChartBulletTitle.tsx:179-188 | top-left minus left `dy` is 58 − legend margin, plus 1 when not showing both lines |
| `ChartBulletTitle.TitleX` | packages/react-charts/src/victory/components/ChartBullet/ChartBulletTitle.tsx:201-214 | horizontal: `getBulletLabelX` with `left`, dx = left padding (top-left) or left padding − 1.75·label margin; vertical: left/2 − right/2 + 50 + range width/2 |
| `ChartBulletTitle.TitleText` | packages/react-charts/src/victory/components/ChartBullet/ChartBulletTitle.tsx:197 | both lines when title and subtitle are present, otherwise the title alone |
| `ChartBulletTitle.GetTitle` | packages/react-charts/src/victory/components/ChartBullet/ChartBulletTitle.tsx:162-219 | `capHeight` set iff both lines show; `id` iff a name is given; the two label styles; the selected text |
| `ChartBulletTitle.AnchorsAgree` | packages/react-charts/src/victory/components/ChartBullet/ChartBulletTitle.tsx:166-199 | start text anchor iff end vertical anchor iff horizontal with `top-left`; otherwise middle and end/middle |
| `ChartBulletTitle.VerticalTitle` | packages/react-charts/src/victory/components/ChartBullet/ChartBulletTitle.tsx:178-219 | a vertical title is middle/middle anchored at the vertical x formula and bottom y with dy = 2·margin − bottom |
| `ChartBulletTitle.HorizontalTitle` | packages/react-charts/src/victory/components/ChartBullet/ChartBulletTitle.tsx:166-219 | a horizontal title's x and y helper arguments, over the theme height and resolved width |
| `ChartBulletTitle.LabelProps` | packages/react-charts/src/victory/components/ChartBullet/ChartBulletTitle.tsx:193-219 | the prop bag holds `capHeight`/`id` only when set, and the computed anchors, x, y and text |
| `Elements.Spread` | packages/react-charts/src/victory/components/ChartLegendTooltip/ChartLegendTooltipLabel.tsx:278-285 | object spread: the keys of both objects, the later object's values where it has the key, the earlier one's elsewhere |
| `Elements.CloneElement` | packages/react-charts/src/victory/components/ChartLegendTooltip/ChartLegendTooltipLabel.tsx:266-272 | `cloneElement`: the element's own props, each overridden by the config's value where the config has the key |
| `Elements.MapStyles` | packages/react-charts/src/victory/components/ChartLegendTooltip/ChartLegendTooltipLabel.tsx:260 | `styles.map(f)`: same length, each style replaced by `f` of it |
| `Elements.CloneWithThemeLabel` | packages/react-charts/src/victory/components/ChartBullet/ChartBulletTitle.tsx:193-222 | the theme label overrides the component's own props, which override the computed props; no key is lost |
| `ChartBulletTitle.TitleElement` | packages/react-charts/src/victory/components/ChartBullet/ChartBulletTitle.tsx:193-222 | unless the component or the theme label sets them, the rendered title keeps the computed text, anchors, x and y |
| `ChartBulletTitle.ContainerSize` | packages/react-charts/src/victory/components/ChartBullet/ChartBulletTitle.tsx:225-227 | the standalone container has the default size, swapped when vertical |
| `ChartBulletGroupTitle.Height` | packages/react-charts/src/victory/components/ChartBullet/ChartBulletGroupTitle.tsx:131 | the `height` prop when given, `theme.chart.height` otherwise |
| `ChartBulletGroupTitle.Width` | packages/react-charts/src/victory/components/ChartBullet/ChartBulletGroupTitle.tsx:132 | the `width` prop when given, `theme.chart.width` otherwise |
| `ChartBulletGroupTitle.DefaultPadding` | packages/react-charts/src/victory/components/ChartBullet/ChartBulletGroupTitle.tsx:134-139 | each side resolved against the chart theme's padding |
| `ChartBulletGroupTitle.LabelPadding` | packages/react-charts/src/victory/components/ChartBullet/ChartBulletGroupTitle.tsx:141-146 | each side resolved against the theme's legend label padding |
| `ChartBulletGroupTitle.DividerDy` | packages/react-charts/src/victory/components/ChartBullet/ChartBulletGroupTitle.tsx:150-155 | title + subtitle heights + label top + bottom when both present, else the title height + label top + bottom |
| `ChartBulletGroupTitle.SubTitleLowersDivider` | packages/react-charts/src/victory/components/ChartBullet/ChartBulletGroupTitle.tsx:152-155 | a subtitle lowers the divider by exactly its own height |
| `ChartBulletGroupTitle.GetDivider` | packages/react-charts/src/victory/components/ChartBullet/ChartBulletGroupTitle.tsx:149-162 | a horizontal line at top padding + dy from the left padding, of length width − left − right, with the theme line style |
| `ChartBulletGroupTitle.DividerProps` | packages/react-charts/src/victory/components/ChartBullet/ChartBulletGroupTitle.tsx:157-162 | the endpoints and style as props |
| `ChartBulletGroupTitle.DividerElement` | packages/react-charts/src/victory/components/ChartBullet/ChartBulletGroupTitle.tsx:157-164 | the divider component's own props override the computed endpoints and style |
| `ChartBulletGroupTitle.RenderedDividerIsHorizontal` | packages/react-charts/src/victory/components/ChartBullet/ChartBulletGroupTitle.tsx:157-163 | without own endpoint props the rendered line is horizontal from left padding to width − right padding |
| `ChartBulletGroupTitle.GetTitle` | packages/react-charts/src/victory/components/ChartBullet/ChartBulletGroupTitle.tsx:168-187 | middle/middle anchored at label position `top`, y offset by the top padding, both lines only when both present |
| `ChartBulletGroupTitle.LabelProps` | packages/react-charts/src/victory/components/ChartBullet/ChartBulletGroupTitle.tsx:172-187 | the prop bag holds `capHeight`/`id` only when set, and the text, x and y |
| `ChartBulletGroupTitle.TitleElement` | packages/react-charts/src/victory/components/ChartBullet/ChartBulletGroupTitle.tsx:172-190 | unless the component or the theme label sets them, the rendered group title keeps the computed text, anchors, x and y |
| `ChartBulletGroupTitle.RenderGroupTitle` | packages/react-charts/src/victory/components/ChartBullet/ChartBulletGroupTitle.tsx:193-198 | title and divider are produced iff the title is truthy |
| `ChartCursorTooltip.DefaultPointerLength` | packages/react-charts/src/victory/components/ChartCursorTooltip/ChartCursorTooltip.tsx:278 | the theme tooltip's length when the pointer shows and a theme tooltip exists, else 0 |
| `ChartCursorTooltip.ResolvePointerWidth` | packages/react-charts/src/victory/components/ChartCursorTooltip/ChartCursorTooltip.tsx:279 | the prop, else the theme tooltip's width; throws iff neither the prop nor a theme tooltip exists |
| `ChartCursorTooltip.ResolveProps` | packages/react-charts/src/victory/components/ChartCursorTooltip/ChartCursorTooltip.tsx:266-280 | defaults `constrainToVisibleArea = true`, `labelTextAnchor = 'start'`, `showPointer = true`; an explicit pointer length is kept |
| `ChartCursorTooltip.ApplyDefaultStyle` | packages/react-charts/src/victory/components/ChartCursorTooltip/ChartCursorTooltip.tsx:283-286 | every key of the custom style is kept except `textAnchor`, which becomes the label text anchor |
| `ChartCursorTooltip.NewStyle` | packages/react-charts/src/victory/components/ChartCursorTooltip/ChartCursorTooltip.tsx:287 | an array is rewritten element by element with the same length; a single or absent style is rewritten once |
| `ChartCursorTooltip.NewStyleIdempotent` | packages/react-charts/src/victory/components/ChartCursorTooltip/ChartCursorTooltip.tsx:283-287 | forcing the anchor twice equals forcing it once |
| `ChartCursorTooltip.NewStyleCarriesAnchor` | packages/react-charts/src/victory/components/ChartCursorTooltip/ChartCursorTooltip.tsx:283-287 | every resulting style carries the label text anchor |
| `ChartCursorTooltip.FlyoutPointerLength` | packages/react-charts/src/victory/components/ChartCursorTooltip/ChartCursorTooltip.tsx:290-293 | a zero length on a shown pointer becomes the theme's, or 10 without a theme tooltip; any other length is kept |
| `ChartCursorTooltip.FlyoutElement` | packages/react-charts/src/victory/components/ChartCursorTooltip/ChartCursorTooltip.tsx:294-298 | the flyout's own props override the computed pointer length and width |
| `ChartCursorTooltip.CursorTooltip` | packages/react-charts/src/victory/components/ChartCursorTooltip/ChartCursorTooltip.tsx:266-311 | the tooltip configuration from the resolved props, or the error the defaults raise |
| `ChartCursorTooltip.NoThemeTooltipNeedsPointerWidth` | packages/react-charts/src/victory/components/ChartCursorTooltip/ChartCursorTooltip.tsx:278-279 | without a theme tooltip the component renders iff `pointerWidth` is given |
| `ChartCursorTooltip.DefaultFlyoutLength` | packages/react-charts/src/victory/components/ChartCursorTooltip/ChartCursorTooltip.tsx:278-298 | with no length prop and a theme tooltip, the flyout length is the theme's when shown and 0 when hidden |
| `ChartCursorTooltip.ShownPointerIsNonZero` | packages/react-charts/src/victory/components/ChartCursorTooltip/ChartCursorTooltip.tsx:290-298 | a shown pointer never gets length 0 unless the theme sets 0 |
| `ChartLegendTooltipLabel.ApplyDefaultFill` | packages/react-charts/src/victory/components/ChartLegendTooltip/ChartLegendTooltipLabel.tsx:251-259 | keeps a defined `fill`, fills in the default when missing or undefined, preserves every other key |
| `ChartLegendTooltipLabel.GetStyle` | packages/react-charts/src/victory/components/ChartLegendTooltip/ChartLegendTooltipLabel.tsx:250-261 | arrays defaulted element by element with the same length; a single or absent style once |
| `ChartLegendTooltipLabel.GetStyleIdempotent` | packages/react-charts/src/victory/components/ChartLegendTooltip/ChartLegendTooltipLabel.tsx:250-261 | defaulting twice equals defaulting once |
| `ChartLegendTooltipLabel.LegendLabelText` | packages/react-charts/src/victory/components/ChartLegendTooltip/ChartLegendTooltipLabel.tsx:264 | the entry's name for non-empty data, undefined for absent or empty data, an error iff the index has no entry |
| `ChartLegendTooltipLabel.ValueLabelX` | packages/react-charts/src/victory/components/ChartLegendTooltip/ChartLegendTooltipLabel.tsx:276 | x + dx with dx defaulting to 0; NaN for undefined x |
| `ChartLegendTooltipLabel.LegendLabelElement` | packages/react-charts/src/victory/components/ChartLegendTooltip/ChartLegendTooltipLabel.tsx:263-273 | start-anchored at the unshifted (x, y) with only the default fill, over the component's own props |
| `ChartLegendTooltipLabel.ValueLabelProps` | packages/react-charts/src/victory/components/ChartLegendTooltip/ChartLegendTooltipLabel.tsx:275-283 | x + dx, the same y, `textAnchor` defaulting to `end`, fill-defaulted style, the given text |
| `ChartLegendTooltipLabel.ValueLabelElement` | packages/react-charts/src/victory/components/ChartLegendTooltip/ChartLegendTooltipLabel.tsx:275-286 | the remaining props override the computed fields, which override the component's own |
| `ChartLegendTooltipLabel.LegendTooltipLabelOf` | packages/react-charts/src/victory/components/ChartLegendTooltip/ChartLegendTooltipLabel.tsx:288-295 | both labels, or the lookup's error |
| `ChartLegendTooltipLabel.LabelsShareBaseline` | packages/react-charts/src/victory/components/ChartLegendTooltip/ChartLegendTooltipLabel.tsx:266-284 | both labels share y, and the value label sits `dx` right of the legend label |
| `SwitchDemo.SetChecked` | packages/react-integration/demo-app-ts/src/components/demos/SwitchDemo/SwitchDemo.tsx:39 | same length and ids; rows with the id get the new value, every other row is unchanged |
| `SwitchDemo.SetCheckedLastWins` | packages/react-integration/demo-app-ts/src/components/demos/SwitchDemo/SwitchDemo.tsx:35-42 | setting the same switch twice keeps only the last value |
| `SwitchDemo.SetCheckedCommutes` | packages/react-integration/demo-app-ts/src/components/demos/SwitchDemo/SwitchDemo.tsx:35-42 | changes to different switches commute |
| `SwitchDemo.DisplayedRows` | packages/react-integration/demo-app-ts/src/components/demos/SwitchDemo/SwitchDemo.tsx:72-77 | all rows when `all`; otherwise every row but the first (none for an empty table) |
| `SwitchDemo.SwitchDemoComponent.constructor` | packages/react-integration/demo-app-ts/src/components/demos/SwitchDemo/SwitchDemo.tsx:17-29 | three unchecked rows, `all` true, the simple switch on |
| `SwitchDemo.SwitchDemoComponent.HandleChangeSimple` | packages/react-integration/demo-app-ts/src/components/demos/SwitchDemo/SwitchDemo.tsx:31-33 | sets the simple switch and leaves the table untouched |
| `SwitchDemo.SwitchDemoComponent.HandleChangeTable` | packages/react-integration/demo-app-ts/src/components/demos/SwitchDemo/SwitchDemo.tsx:35-42 | the rows become `SetChecked(old, id, b)`; `all` and the simple switch are unchanged |
| `SwitchDemo.SwitchDemoComponent.ShowAllTable` | packages/react-integration/demo-app-ts/src/components/demos/SwitchDemo/SwitchDemo.tsx:44-46 | negates `all`, leaves the rows and the simple switch unchanged |
| `SwitchDemo.SwitchDemoComponent.RenderedRows` | packages/react-integration/demo-app-ts/src/components/demos/SwitchDemo/SwitchDemo.tsx:67-77 | the rendered rows: all of them, or all but the first |
| `SwitchDemo.ShowAllTwice` | packages/react-integration/demo-app-ts/src/components/demos/SwitchDemo/SwitchDemo.tsx:44-46 | pressing "Show all" twice restores the state |
| `SwitchDemo.InitialHiddenRows` | packages/react-integration/demo-app-ts/src/components/demos/SwitchDemo/SwitchDemo.tsx:17-29 | hiding the first row of the initial table leaves rows id2 and id3, unchecked |

## Left out

- Rendering: JSX trees, `Fragment`, `ChartContainer`, `PageContext.Consumer`, `ToolbarContext.Provider`, CSS class composition, `GenerateId` and OUIA identifiers. Elements are modelled only by the props they receive, as `Elements.Props` maps; `cloneElement` is the shallow override `CloneElement`. React's `cloneElement` replaces a config value of `undefined` with the element type's `defaultProps` entry for that key (for example `text: label` for a legend without data, or an undefined flyout `pointerLength`); the model keeps `Undefined` there.
- The DOM: `window`, `canUseDOM` and the `resize` event are reduced to a `canUseDOM` constant, an `innerWidth` parameter and a `resizeListener` flag.
- React's asynchronous, batched `setState` is modelled as immediate. Under that reading `staticFilterInfo` and `state.filterInfo` are always the same table (`Toolbar.ToolbarComponent.Valid`). In React the instance field can run ahead of the state between renders.
- Toolbar props are fixed for an instance's lifetime. If `isExpanded` or `toggleIsExpanded` changed between mount and unmount, the mount and unmount conditions could differ; that is not modelled.
- `Toolbar.ToolbarComponent.UpdateNumberFilters`: the own-property test calls `hasOwnProperty` on the copied table. Once a category named `hasOwnProperty` has been stored, that property shadows the method. The spread copies it into every later copy, so every later call throws a `TypeError`, whatever its category. The model treats `hasOwnProperty` as an ordinary category and keeps updating the table.
- Toolbar filter counts are integers. JavaScript's ordering of integer-like keys is not modelled; it does not affect the sum.
- `Toolbar.Assign`: the category `__proto__` is treated as an ordinary property. In the program, assigning a number to `__proto__` on a plain object creates no own property, so that count is left out of the total; the model adds it to the table and counts it.
- Functions in files that are not part of this model are taken as parameters: `getPaddingForSide`, `getBulletLabelX`, `getBulletLabelY` and the height from `getLabelTextSize`. The themes (`getBulletTheme`, `getBulletGroupTitleTheme`, `getTheme`, `getComponentTheme`) and the `ChartStyles` constants are passed in as values.
- `ChartCursorTooltip`: the `centerOffset` and `pointerOrientation` defaults come from helpers outside this model and are not modelled. The `...rest` props forwarded to the underlying tooltip are not modelled either.
- Callback-valued props (`NumberOrCallback` and the like) are taken as already evaluated (`Helpers.evaluateProp`). The `id` callback is modelled as the string it returns.
- Numbers: layout arithmetic is exact `real` arithmetic, with no IEEE rounding. `Number(...)` of the legend label padding is taken as a number, and its NaN case is not modelled.
- `ChartLegendTooltipLabel`: a string-valued `index` and the legend symbol are not modelled.
- `capHeight` is modelled as a number. The prop's type also admits a string (such as `"1.2em"`) or a callback, which the components pass on unchanged; nothing is computed from the value.
- `ChartLegendTooltipLabel.ValueLabelX`: `dx` is taken as a number. The prop's type also admits a string, and then `x + dx` concatenates (`10` and `"5"` give `"105"`); that case is not modelled.
- Themes are taken as complete: the parts the components read without a guard (`theme.chart.height` and `theme.chart.width` in the bullet title, `theme.legend.style.labels` and `theme.line.style.data` in the group title) are assumed to exist, so a theme missing one of them, which would throw, is not modelled.
- `SwitchDemo`: the disabled second switch, the table columns and the per-row `onChange` binding are rendering only.
- The padding resolution order described for the library is a property of `getPaddingForSide`, which is outside this model, so it is not stated here.
