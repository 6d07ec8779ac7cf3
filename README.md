# Pie plot bindings and quantitative scale domains

This project models two parts of the Plottable charting library:

- **The pie plot's bindings** (`Plots.Pie`). A pie plot has three numeric attributes: the sector value, the inner radius and the outer radius. Each attribute has:
  - an accessor, which may be missing;
  - an optional scale;
  - the per-dataset extents last computed for it;
  - a fixed extent provider, which the bound scale pulls whenever it re-derives its domain.

  Setting an attribute does four things:
  - it wraps the argument with `d3.functor`;
  - it recomputes the cached extents with the coercer of the scale bound at that moment;
  - it moves the plot's render callback and the attribute's provider from the old scale to the new one;
  - it stores the new scale.

  Until the plot is anchored, its providers answer `[]`. The model proves that an unanchored pie therefore changes no scale's extents.
- **`QuantitativeScale`**, together with the part of its base class `Scale` that the plot relies on:
  - the domain and the automatic-mode flag;
  - the insertion-ordered registries of extent providers and update callbacks;
  - the guard that refuses a domain containing NaN or an infinity;
  - the domainer and the tick generator;
  - the operations that only a concrete subclass may provide, which always fail on this class.

Modules:

- `Values` (`values.dfy`): domain values and the `d3.extent` primitive.
- `Datasets` (`datasets.dfy`): datasets, accessors, `d3.functor`, and the extent a dataset reports.
- `Scales` (`scales.dfy`): the registries, the domain guard, and the class `QuantitativeScale`.
- `Pies` (`pie.dfy`): the class `Pie`, its providers and bindings, and the inner-radius getter scenario.

Some things are outside the plot and the scale. Each becomes a parameter:

- Extent providers and update callbacks are closures in the source. Here they are natural-number handles.
- When a scale pulls its providers, the caller passes a `Pull`. A `Pull` is each provider's answer at that moment.
- The pie computes its own three answers (`Pie.Pulls`). The `others` argument answers for every other component.
- The domainer and the scale's mapping `scale(x)` are supplied functions. Each scale carries its own domainer, so a scale's `domainer` stands for `computeDomain(·, this)` of that scale. That covers the fallback to the scale's default extent when there are no extents. The fallback is why `GetExtent` gives a value with silent providers even though `DefaultExtent` always fails on this class: a concrete subclass supplies both.

## Model

| member | source | states |
|---|---|---|
| Values.D3ExtentSpec | src/scales/quantitativeScale.ts:25-30 | `d3.extent` finds no bound exactly when every value is NaN (or there is none); otherwise both bounds are values of the input, not NaN, and every non-NaN value lies between them |
| Datasets.Functor | src/components/plots/piePlot.ts:114 | an accessor function is kept as it is; a literal becomes an accessor returning that literal for every datum |
| Datasets.GetExtentSpec | src/components/plots/piePlot.ts:200 | a dataset's extent is `[]` exactly when no coerced value is comparable, and otherwise the pair of the least and greatest coerced value |
| Scales.QuantitativeScale.GetExtentFromDomain | src/scales/quantitativeScale.ts:24-31 | `[]` exactly when all data are NaN (or there are none); otherwise `[min, max]` of the data |
| Scales.QuantitativeScale.GetExtentOfSilentProviders | src/scales/quantitativeScale.ts:10-12 | `_getExtent()` (the function `GetExtent`): when every registered provider answers `[]`, the extent is what the domainer makes of no extents at all |
| Scales.QuantitativeScale.SetDomain | src/scales/quantitativeScale.ts:33-40 | a proposal whose first or second value is NaN or infinite leaves the domain unchanged and appends the warning; any other proposal becomes the domain with no warning |
| Scales.NextDomain | src/scales/quantitativeScale.ts:33-40 | one automatic-mode pass changes the domain only in automatic mode and only to an accepted proposal, and always does so when both hold |
| Scales.AutoDomainIdempotent | src/scales/quantitativeScale.ts:33-40 | a second automatic-mode pass over the same extent leaves the domain where the first put it |
| Scales.QuantitativeScale.SetUserDomain | src/scales/quantitativeScale.ts:33-40 | the base class's `domain(values)` (the base class is not part of this model), reaching this class's guard: an explicit domain leaves automatic mode, is stored exactly when the guard accepts it, and otherwise only appends the warning |
| Scales.QuantitativeScale.AutoDomain | src/scales/quantitativeScale.ts:10-12 | the base class's `autoDomain()` (the base class is not part of this model) over this class's `_getExtent`: re-enters automatic mode; the domain becomes the domainer's combination of the pulled extents when the guard accepts it, and otherwise the warning is appended |
| Scales.QuantitativeScale.AutoDomainIfAutomaticMode | src/scales/quantitativeScale.ts:10-12 | the domain follows `_getExtent()` only in automatic mode and subject to the guard; a rejected extent appends the warning, an accepted one none; a manual domain and its warnings are untouched |
| Scales.QuantitativeScale.constructor | src/scales/quantitativeScale.ts:5-8 | a new scale is in automatic mode and has no providers or callbacks; its domainer is the default one, not user-set, and its tick generator is the default |
| Scales.QuantitativeScale.GetDomainer | src/scales/quantitativeScale.ts:86-87 | the getter returns the current domainer |
| Scales.QuantitativeScale.SetDomainer | src/scales/quantitativeScale.ts:88-92 | stores the domainer, marks it user-set, and re-derives the domain with the NEW domainer (only in automatic mode, subject to the guard, with the warning exactly when the guard rejects) |
| Scales.QuantitativeScale.GetTickGenerator | src/scales/quantitativeScale.ts:114-115 | the getter returns the current tick generator |
| Scales.QuantitativeScale.SetTickGenerator | src/scales/quantitativeScale.ts:116-118 | the generator is replaced |
| Scales.QuantitativeScale.Ticks | src/scales/quantitativeScale.ts:54-56 | with the default generator, ticks fail as `getDefaultTicks` does; any other generator yields its ticks of the current domain |
| Scales.QuantitativeScale.Invert | src/scales/quantitativeScale.ts:20-22 | always fails with the message "Subclasses should override _invert" |
| Scales.QuantitativeScale.GetDefaultTicks | src/scales/quantitativeScale.ts:45-47 | always fails with "Subclasses should override _getDefaultTicks" |
| Scales.QuantitativeScale.NiceDomain | src/scales/quantitativeScale.ts:62-64 | always fails with "Subclasses should override _niceDomain" |
| Scales.QuantitativeScale.DefaultExtent | src/scales/quantitativeScale.ts:96-98 | always fails with "Subclasses should override _defaultExtent" |
| Scales.Added | src/components/plots/piePlot.ts:221-222 | registering keeps the old entries in order and contains exactly the old entries plus the new one, never twice |
| Scales.Removed | src/components/plots/piePlot.ts:215-216 | deregistering leaves exactly the other entries; an absent entry changes nothing; no duplicates arise |
| Scales.RemovedConcat | src/components/plots/piePlot.ts:215-216 | removal keeps the order of the remaining entries: removing from a concatenation is removing from each part |
| Scales.RemovedUndoesAdded | src/components/plots/piePlot.ts:213-223 | binding a scale and unbinding it again restores that scale's registry exactly, order included |
| Scales.RemovedLast | src/components/plots/piePlot.ts:216 | deregistering the entry that was appended last gives back the registry as it was before |
| Scales.AllExtentsOfSilent | src/scales/quantitativeScale.ts:11 | `_getAllExtents` (the function `AllExtents`): when every registered provider answers `[]`, nothing is pulled; order and contents are stated by `AllExtentsOnlyRegistered`, `AllExtentsLast`, `AllExtentsAdded` and `AllExtentsRemoved` |
| Scales.AllExtentsOnlyRegistered | src/scales/quantitativeScale.ts:11 | only registered providers are pulled: two pulls that agree on every registered handle give the same extents |
| Scales.AllExtentsAdded | src/components/plots/piePlot.ts:222 | a newly registered provider adds exactly its own extents, after those already pulled |
| Scales.AllExtentsLast | src/scales/quantitativeScale.ts:11 | the provider registered last is pulled last: its extents follow everyone else's |
| Scales.AllExtentsRemoved | src/components/plots/piePlot.ts:216 | once a provider is removed, nothing it answers reaches the scale |
| Scales.SilentProviderIsInvisible | src/components/plots/piePlot.ts:179-181 | a provider answering `[]` contributes exactly what its absence would |
| Scales.QuantitativeScale.OnUpdate | src/components/plots/piePlot.ts:221 | the callback is registered once, and the registry keeps its invariant |
| Scales.QuantitativeScale.OffUpdate | src/components/plots/piePlot.ts:215 | the callback is deregistered, and the registry keeps its invariant |
| Scales.QuantitativeScale.AddExtentProvider | src/components/plots/piePlot.ts:222 | the provider is registered once, and the registry keeps its invariant |
| Scales.QuantitativeScale.RemoveExtentProvider | src/components/plots/piePlot.ts:216 | the provider is deregistered, and the registry keeps its invariant |
| Pies.CoercerOf | src/components/plots/piePlot.ts:195 | the bound scale's type coercer, and the identity without a scale |
| Pies.AnchoredExtents | src/components/plots/piePlot.ts:179-181 | an unanchored plot answers `[]`; an anchored one answers its cached extents |
| Pies.DatasetExtentsSpec | src/components/plots/piePlot.ts:193-202 | `undefined` exactly when the accessor is missing; otherwise one extent per dataset key in key order, each being the dataset's extent under the accessor and coercer |
| Pies.ScaledAccessor | src/components/plots/piePlot.ts:204-208 | without a scale, the accessor itself; with one, the accessor's value passed through the scale |
| Pies.UnanchoredPieIsInvisible | src/components/plots/piePlot.ts:47-49 | before anchoring, pulling a registry that holds the pie's three providers gives exactly what the registry without them gives |
| Values.NatToString | src/components/plots/piePlot.ts:86 | `String(i)` of a datum index is a non-empty string of decimal digits, without a leading zero, whose decimal value is `i` |
| Values.NatToStringInjective | src/components/plots/piePlot.ts:86 | different datum indices give different strings, so each index has its own colour key |
| Datasets.Mapped | src/components/plots/piePlot.ts:200 | the values a dataset's extent is taken over: one per datum, in order, each the coerced accessor value of that datum |
| Pies.Pie.constructor | src/components/plots/piePlot.ts:42-51 | a new pie is unanchored and has no datasets or scales; the inner radius is the constant 0 and the outer radius the layout default; it has three distinct providers |
| Pies.Pie.SectorValueExtentProvider | src/components/plots/piePlot.ts:49 | before anchoring the provider answers `[]`, and afterwards the cached sector value extents |
| Pies.Pie.InnerRadiusExtentProvider | src/components/plots/piePlot.ts:47 | before anchoring the provider answers `[]`, and afterwards the cached inner radius extents |
| Pies.Pie.OuterRadiusExtentProvider | src/components/plots/piePlot.ts:48 | before anchoring the provider answers `[]`, and afterwards the cached outer radius extents |
| Pies.Pie.AddDataset | src/components/plots/piePlot.ts:74-81 | a pie that already holds one dataset keeps its datasets and warns; otherwise the dataset is added under its key without warning |
| Pies.Pie.GenerateAttrToProjector | src/components/plots/piePlot.ts:83-90 | every entry of the base table is kept, an existing "fill" included; a missing "fill" becomes the colour scale applied to the datum's index as a decimal string |
| Pies.Pie.SectorValue | src/components/plots/piePlot.ts:111-113 | the getter returns the sector value accessor and scale |
| Pies.Pie.InnerRadius | src/components/plots/piePlot.ts:126-128 | as written, the getter returns the OUTER radius accessor and scale |
| Pies.Pie.InnerRadiusBinding | src/components/plots/piePlot.ts:126-128 | the getter as intended returns the inner radius accessor and scale |
| Pies.Pie.OuterRadius | src/components/plots/piePlot.ts:151-153 | the getter returns the outer radius accessor and scale |
| Pies.Pie.ScaledSectorValueAccessor | src/components/plots/piePlot.ts:170-172 | the sector value accessor, passed through its scale under the scale's current domain when one is bound |
| Pies.Pie.ScaledInnerRadiusAccessor | src/components/plots/piePlot.ts:162-164 | the inner radius accessor, passed through its scale when one is bound |
| Pies.Pie.ScaledOuterRadiusAccessor | src/components/plots/piePlot.ts:166-168 | the outer radius accessor, passed through its scale when one is bound |
| Pies.Pie.UpdateSectorValueScaleExtents | src/components/plots/piePlot.ts:188-191 | the cached extents become the datasets' extents under the currently bound scale's coercer; that scale then re-derives its domain from all its providers |
| Pies.Pie.UpdateInnerRadiusScaleExtents | src/components/plots/piePlot.ts:183-186 | the same for the inner radius |
| Pies.Pie.UpdateOuterRadiusScaleExtents | src/components/plots/piePlot.ts:174-177 | the same for the outer radius |
| Pies.Pie.ReplaceScaleBinding | src/components/plots/piePlot.ts:210-225 | the same scale object is left untouched; otherwise the old scale loses the callback and the provider and re-derives its domain, and the new scale gains both without its domain changing |
| Pies.Pie.RebindSectorValueScale | src/components/plots/piePlot.ts:116-117 | the sector value binding moves to the new scale as above, and the new scale is stored |
| Pies.Pie.RebindInnerRadiusScale | src/components/plots/piePlot.ts:131-132 | the inner radius binding moves to the new scale as above, and the new scale is stored |
| Pies.Pie.RebindOuterRadiusScale | src/components/plots/piePlot.ts:156-157 | the outer radius binding moves to the new scale as above, and the new scale is stored |
| Pies.Pie.SetSectorValue | src/components/plots/piePlot.ts:114-119 | stores the wrapped accessor and the new scale. The extents are computed with the OLD scale's coercer. An unchanged scale keeps its registries and re-derives its domain. A replaced scale re-derives twice (before and after losing the provider) and loses callback and provider. A new scale gains both with its domain untouched |
| Pies.Pie.SetInnerRadius | src/components/plots/piePlot.ts:129-134 | the same for the inner radius |
| Pies.Pie.SetOuterRadius | src/components/plots/piePlot.ts:154-159 | the same for the outer radius |
| Pies.Pie.Anchor | src/components/plots/piePlot.ts:66-72 | the pie becomes anchored, all three extents are recomputed under the bound scales' coercers, and the sector value scale ends settled on what the providers now answer |
| Pies.Pie.RefreshOuterRadius | src/components/plots/piePlot.ts:139-140 | the outer radius extents are recomputed; the scale's domain ends where one pass put it and is settled |
| Pies.Pie.RefreshInnerRadius | src/components/plots/piePlot.ts:141-142 | the same for the inner radius |
| Pies.Pie.RefreshSectorValue | src/components/plots/piePlot.ts:143-144 | the same for the sector value |
| Pies.Pie.UpdateExtents | src/components/plots/piePlot.ts:137-145 | all three extents are recomputed, and the sector value scale ends settled |
| Pies.InnerRadiusGetterReportsOuter | src/components/plots/piePlot.ts:127 | after binding the inner radius to a fresh scale, the getter as written does not report that scale |
| Pies.InnerRadiusRoundTrip | src/components/plots/piePlot.ts:125-135 | on any valid pie, `innerRadius(value, scale)` followed by the corrected getter reads back exactly the wrapped accessor and the scale just bound |

## Left out

- The rendering pipeline is not modelled. That covers `_render`, the DOM selection passed to `anchor`, `computeLayout`, `getAllPlotData` and `_getDrawer`. A setter's request to re-render is not recorded.
- The base `Plot` is modelled only as far as the pie uses it:
  - `super.anchor` is modelled only by its effect of setting the anchored flag;
  - `super._updateExtents` is not modelled (the extents of other attributes);
  - `super.addDataset` is modelled as recording the key and the plot metadata. Key generation is not modelled.
  - Adding a dataset, or a change to a dataset, does not refresh the cached extents or re-derive any scale's domain in this model. The cached extents stay as they were until `UpdateExtents`, `Anchor` or a setter recomputes them.
- `Domainer.computeDomain` is a supplied function. Its padding, `include` values and nice-ification belong to another file.
- A tick generator other than the default is a function of the domain only, not of the whole scale.
- `Dataset._getExtent` is modelled for numeric values only. Its string branch (unique values) and its cache are not modelled.
- Other components' extent providers are the `others` argument.
- Update callbacks are registered and removed, but calling them when the domain changes is not modelled.
- `Pies.Pie.ScaledSectorValueAccessor`: the returned accessor uses the scale's domain at the moment of the call. In the source, the closure reads the scale's domain at each later call.
- `Pies.Pie.ScaledInnerRadiusAccessor`: the same as above. The returned accessor uses the inner radius scale's domain at the moment of the call, not at each later call.
- `Pies.Pie.ScaledOuterRadiusAccessor`: the same as above. The returned accessor uses the outer radius scale's domain at the moment of the call, not at each later call.
- The registries of extent providers and update callbacks are assumed to behave as an insertion-ordered set: adding a present element changes nothing. The set class is not part of this model. One consequence follows under this assumption. All three attributes register the same render callback (piePlot.ts:116, 131 and 156). Suppose two attributes are bound to one scale and one of them is then rebound elsewhere. The scale then loses the callback that the other attribute still relies on. Since callback dispatch is not modelled, the model records this only in the registry contents.
- `Utils.Methods.warn` appends to a `warnings` sequence, instead of writing to the console.
- `Scales.Color` is a supplied string-to-colour function.
- JavaScript numbers are modelled as finite reals, NaN and the two infinities. Rounding is not modelled.
- `Pies.Pie.Anchor`: it does not state the domains the two radius scales end with. These are one `_autoDomainIfAutomaticMode` pass each, taken before the later attributes are recomputed. The same holds for the sector value scale's exact new domain; only its final settled state is stated.
- The pie's methods that let a scale re-derive its domain state that scale's new domain, but not its warning log. These are `Update*ScaleExtents`, `Refresh*`, `ReplaceScaleBinding`, `Rebind*`, `Set*`, `Anchor` and `UpdateExtents`. The warning each pass emits is stated by `Scales.QuantitativeScale.AutoDomainIfAutomaticMode`, which they call.
- `Pies.Pie.UpdateExtents`: it does not state the domains the two radius scales end with, for the same reason. Each of them is stated by `RefreshOuterRadius` and `RefreshInnerRadius` for its own step.
- The pie's binding getters return the scale as a `QuantitativeScale`. The source accepts any `Scale`; other kinds of scale are not part of this model.

## Findings

| source | as written | input that shows it | evidently intended | confidence | as-written member | corrected member |
|---|---|---|---|---|---|---|
| src/components/plots/piePlot.ts:127 | `innerRadius()` with no argument returns `{accessor: this._outerRadius, scale: this._outerRadiusScale}` | `pie.innerRadius(5, s)` on a new pie, then `pie.innerRadius()`: the reported scale is not `s` | return `this._innerRadius` and `this._innerRadiusScale` | high; not executed | Pies.InnerRadiusGetterReportsOuter | Pies.InnerRadiusRoundTrip |
