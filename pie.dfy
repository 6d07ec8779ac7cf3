/**
 * The pie plot's accessor–scale bindings (src/components/plots/piePlot.ts).
 *
 * A pie has three numeric attributes: the sector value, the inner radius
 * and the outer radius. Each has an accessor, an optional scale, the
 * extents last computed for it, and a fixed extent provider that the
 * bound scale pulls. Rebinding an attribute to another scale moves the
 * plot's render callback and the attribute's provider from the old scale
 * to the new one.
 *
 * Closures that the source registers on scales are handles here: one
 * render callback per plot and one provider per attribute. When a scale
 * pulls its providers, this plot answers for its own three and `others`
 * answers for the providers of every other component.
 */
module Pies {
  import opened Values
  import opened Datasets
  import opened Scales

  /** `AccessorScaleBinding`: an accessor and the scale it feeds, if any. */
  datatype Binding = Binding(accessor: Option<Accessor>, scale: QuantitativeScale?)

  /** What a projector yields for one datum: a number, or a colour for "fill". */
  datatype AttrValue = Number(n: Num) | Color(c: string)

  type Projector = (Datum, nat, Metadata, PlotMetadata) -> AttrValue

  /** The plot's attribute-to-projector table. */
  type AttributeToProjector = map<string, Projector>

  /** What the plot keeps for a dataset it holds. */
  datatype PlotDatasetKey = PlotDatasetKey(dataset: Dataset, plotMetadata: PlotMetadata)

  const OneDatasetWarning := "Only one dataset is supported in Pie plots"

  /** `(scale != null) ? scale._typeCoercer : (d) => d`. */
  function CoercerOf(scale: QuantitativeScale?): (c: Coercer)
    ensures scale != null ==> c == scale.typeCoercer
    ensures scale == null ==> forall x :: c(x) == x
  {
    if scale == null then x => x else scale.typeCoercer
  }

  /**
   * `_anchoredExtents(extents)`: what an extent provider returns. Before the
   * plot is anchored nothing; afterwards the cached extents.
   */
  function AnchoredExtents(anchored: bool, extents: Option<seq<Extent>>): (r: Option<seq<Extent>>)
    ensures !anchored ==> r == Some([])
    ensures anchored ==> r == extents
  {
    if anchored then extents else Some([])
  }

  /** The extents a scale receives from a provider's answer; an `undefined` answer contributes nothing. */
  function Provided(answer: Option<seq<Extent>>): seq<Extent>
  {
    match answer
    case None => []
    case Some(extents) => extents
  }

  /** One extent per dataset key, in key order: `keys.map(...)`. */
  function ExtentsInOrder(keys: seq<string>, datasets: map<string, PlotDatasetKey>, accessor: Accessor, coercer: Coercer): seq<Extent>
    requires forall k :: k in keys ==> k in datasets
  {
    seq(|keys|, i requires 0 <= i < |keys| =>
      GetExtent(datasets[keys[i]].dataset, accessor, coercer, datasets[keys[i]].plotMetadata))
  }

  /**
   * `_datasetExtents(accessor, scale)`: nothing (`undefined`) for a missing
   * accessor, and otherwise one extent per dataset key, in key order.
   */
  function DatasetExtents(keys: seq<string>, datasets: map<string, PlotDatasetKey>, accessor: Option<Accessor>, coercer: Coercer): Option<seq<Extent>>
    requires forall k :: k in keys ==> k in datasets
  {
    match accessor
    case None => None
    case Some(a) => Some(ExtentsInOrder(keys, datasets, a, coercer))
  }

  /**
   * What `_datasetExtents` hands to the scales: nothing exactly when the
   * accessor is missing, and otherwise, for each dataset in key order, `[]`
   * when none of its values is comparable and else its least and greatest
   * coerced value.
   */
  lemma DatasetExtentsSpec(keys: seq<string>, datasets: map<string, PlotDatasetKey>, accessor: Option<Accessor>, coercer: Coercer)
    requires forall k :: k in keys ==> k in datasets
    ensures DatasetExtents(keys, datasets, accessor, coercer).None? <==> accessor.None?
    ensures accessor.Some? ==>
      var r := DatasetExtents(keys, datasets, accessor, coercer).value;
      && |r| == |keys|
      && forall i :: 0 <= i < |keys| ==>
           var values := Mapped(datasets[keys[i]].dataset, accessor.value, coercer, datasets[keys[i]].plotMetadata);
           && (r[i] == [] <==> AllNaN(values))
           && (r[i] != [] ==> |r[i]| == 2 && IsExtentOf(Bounds(r[i][0], r[i][1]), values))
  {
    if accessor.Some? {
      forall i | 0 <= i < |keys|
        ensures var values := Mapped(datasets[keys[i]].dataset, accessor.value, coercer, datasets[keys[i]].plotMetadata);
          var e := DatasetExtents(keys, datasets, accessor, coercer).value[i];
          && (e == [] <==> AllNaN(values))
          && (e != [] ==> |e| == 2 && IsExtentOf(Bounds(e[0], e[1]), values))
      {
        GetExtentSpec(datasets[keys[i]].dataset, accessor.value, coercer, datasets[keys[i]].plotMetadata);
      }
    }
  }

  /**
   * `_scaledAccessor(accessor, scale)`: the accessor itself without a
   * scale, and otherwise the accessor followed by the scale's mapping.
   */
  function ScaledAccessor(accessor: Option<Accessor>, scale: Option<Num -> Num>): (r: Option<Accessor>)
    requires scale.Some? ==> accessor.Some?
    ensures scale.None? ==> r == accessor
    ensures scale.Some? ==> r.Some? && forall d, i, u, m ::
      r.value(d, i, u, m) == scale.value(accessor.value(d, i, u, m))
  {
    match scale
    case None => accessor
    case Some(f) =>
      var a := accessor.value;
      Some((d: Datum, i: nat, u: Metadata, m: PlotMetadata) => f(a(d, i, u, m)))
  }

  /** A scale's `scale(x)` under its current domain. */
  function ScaleFunction(scale: QuantitativeScale?): (f: Option<Num -> Num>)
    reads {scale}
    ensures f.None? <==> scale == null
    ensures scale != null ==> forall x :: f.value(x) == scale.transform(scale.domain, x)
  {
    if scale == null then None
    else
      var t, dom := scale.transform, scale.domain;
      Some(x => t(dom, x))
  }

  /**
   * What this pie's three providers return, given the cached extents and
   * whether the pie is anchored; every other handle is answered by `others`.
   */
  function ProviderAnswers(anchored: bool, sectorValue: (ProviderId, Option<seq<Extent>>),
                           innerRadius: (ProviderId, Option<seq<Extent>>), outerRadius: (ProviderId, Option<seq<Extent>>),
                           others: Pull): (pull: Pull)
    requires sectorValue.0 != innerRadius.0 && sectorValue.0 != outerRadius.0 && innerRadius.0 != outerRadius.0
  {
    var sv := Provided(AnchoredExtents(anchored, sectorValue.1));
    var ir := Provided(AnchoredExtents(anchored, innerRadius.1));
    var or := Provided(AnchoredExtents(anchored, outerRadius.1));
    (p: ProviderId) => if p == sectorValue.0 then sv else if p == innerRadius.0 then ir else if p == outerRadius.0 then or else others(p)
  }

  /**
   * Before it is anchored, a pie adds nothing to any scale it is bound to:
   * pulling a registry that holds its providers yields exactly what the
   * registry yields without them.
   */
  lemma {:induction false} UnanchoredPieIsInvisible(ids: seq<ProviderId>, sectorValue: (ProviderId, Option<seq<Extent>>),
                                                    innerRadius: (ProviderId, Option<seq<Extent>>), outerRadius: (ProviderId, Option<seq<Extent>>),
                                                    others: Pull)
    requires sectorValue.0 != innerRadius.0 && sectorValue.0 != outerRadius.0 && innerRadius.0 != outerRadius.0
    ensures AllExtents(ids, ProviderAnswers(false, sectorValue, innerRadius, outerRadius, others))
         == AllExtents(Removed(Removed(Removed(ids, sectorValue.0), innerRadius.0), outerRadius.0), others)
  {
    var pull := ProviderAnswers(false, sectorValue, innerRadius, outerRadius, others);
    var ids1 := Removed(ids, sectorValue.0);
    var ids2 := Removed(ids1, innerRadius.0);
    var ids3 := Removed(ids2, outerRadius.0);
    assert AllExtents(ids, pull) == AllExtents(ids1, pull) by {
      SilentProviderIsInvisible(ids, sectorValue.0, pull);
    }
    assert AllExtents(ids1, pull) == AllExtents(ids2, pull) by {
      SilentProviderIsInvisible(ids1, innerRadius.0, pull);
    }
    assert AllExtents(ids2, pull) == AllExtents(ids3, pull) by {
      SilentProviderIsInvisible(ids2, outerRadius.0, pull);
    }
    assert AllExtents(ids3, pull) == AllExtents(ids3, others) by {
      forall p | p in ids3
        ensures pull(p) == others(p)
      {
      }
      AllExtentsOnlyRegistered(ids3, pull, others);
    }
  }

  class Pie {
    /** The plot's `_renderCallback`, registered on every scale it is bound to. */
    const renderCallback: CallbackId
    /** The three fixed extent providers of the constructor. */
    const sectorValueProvider: ProviderId
    const innerRadiusProvider: ProviderId
    const outerRadiusProvider: ProviderId
    /** `_colorScale.scale`: the colour palette, keyed by string. */
    const colorScale: string -> string

    var isAnchored: bool
    var datasetKeysInOrder: seq<string>
    var key2PlotDatasetKey: map<string, PlotDatasetKey>

    var sectorValue: Option<Accessor>
    var sectorValueScale: QuantitativeScale?
    var sectorValueExtents: Option<seq<Extent>>
    var innerRadius: Option<Accessor>
    var innerRadiusScale: QuantitativeScale?
    var innerRadiusExtents: Option<seq<Extent>>
    var outerRadius: Option<Accessor>
    var outerRadiusScale: QuantitativeScale?
    var outerRadiusExtents: Option<seq<Extent>>

    /** Warnings the plot has emitted, oldest first. */
    var warnings: seq<string>

    /**
     * The pie's invariant: distinct provider handles, at most one dataset
     * with a known key, and every binding complete.
     */
    predicate Valid()
      reads this`datasetKeysInOrder, this`key2PlotDatasetKey
      reads this`sectorValue, this`sectorValueScale, this`sectorValueExtents
      reads this`innerRadius, this`innerRadiusScale, this`innerRadiusExtents
      reads this`outerRadius, this`outerRadiusScale, this`outerRadiusExtents
    {
      DistinctProviders() && DatasetsKnown() && BindingsComplete()
    }

    /** The three extent providers are three different handles. */
    predicate DistinctProviders()
    {
      && sectorValueProvider != innerRadiusProvider
      && sectorValueProvider != outerRadiusProvider
      && innerRadiusProvider != outerRadiusProvider
    }

    /** At most one dataset, and its key is recorded. */
    predicate DatasetsKnown()
      reads this`datasetKeysInOrder, this`key2PlotDatasetKey
    {
      |datasetKeysInOrder| <= 1 && forall k :: k in datasetKeysInOrder ==> k in key2PlotDatasetKey
    }

    /**
     * The radii always have accessors, and an attribute bound to a scale
     * has an accessor and computed extents.
     */
    predicate BindingsComplete()
      reads this`sectorValue, this`sectorValueScale, this`sectorValueExtents
      reads this`innerRadius, this`innerRadiusScale, this`innerRadiusExtents
      reads this`outerRadius, this`outerRadiusScale, this`outerRadiusExtents
    {
      && innerRadius.Some? && outerRadius.Some?
      && (sectorValueScale != null ==> sectorValue.Some? && sectorValueExtents.Some?)
      && (innerRadiusScale != null ==> innerRadiusExtents.Some?)
      && (outerRadiusScale != null ==> outerRadiusExtents.Some?)
    }

    /**
     * A new pie: not anchored, no dataset, no scales, no extents computed
     * yet; the inner radius is the constant 0, the outer radius is the
     * layout-dependent default (supplied, since layout is not modelled),
     * and the sector value is not set.
     */
    constructor (callback: CallbackId, sectorValueProvider: ProviderId, innerRadiusProvider: ProviderId,
                 outerRadiusProvider: ProviderId, colorScale: string -> string, defaultOuterRadius: Accessor)
      requires sectorValueProvider != innerRadiusProvider && sectorValueProvider != outerRadiusProvider
      requires innerRadiusProvider != outerRadiusProvider
      ensures Valid()
      ensures renderCallback == callback && this.colorScale == colorScale
      ensures this.sectorValueProvider == sectorValueProvider && this.innerRadiusProvider == innerRadiusProvider
      ensures this.outerRadiusProvider == outerRadiusProvider
      ensures !isAnchored && datasetKeysInOrder == [] && key2PlotDatasetKey == map[]
      ensures sectorValue == None && innerRadius == Some(Functor(Literal(Finite(0.0)))) && outerRadius == Some(defaultOuterRadius)
      ensures sectorValueScale == null && innerRadiusScale == null && outerRadiusScale == null
      ensures sectorValueExtents == None && innerRadiusExtents == None && outerRadiusExtents == None
      ensures warnings == []
    {
      renderCallback := callback;
      this.sectorValueProvider := sectorValueProvider;
      this.innerRadiusProvider := innerRadiusProvider;
      this.outerRadiusProvider := outerRadiusProvider;
      this.colorScale := colorScale;
      isAnchored := false;
      datasetKeysInOrder := [];
      key2PlotDatasetKey := map[];
      sectorValue := None;
      sectorValueScale := null;
      sectorValueExtents := None;
      innerRadius := Some(Functor(Literal(Finite(0.0))));
      innerRadiusScale := null;
      innerRadiusExtents := None;
      outerRadius := Some(defaultOuterRadius);
      outerRadiusScale := null;
      outerRadiusExtents := None;
      warnings := [];
    }

    /**
     * What every provider returns right now: this pie's three from its
     * cached extents and its anchoring, the rest from `others`.
     */
    function Pulls(others: Pull): (pull: Pull)
      reads this`isAnchored, this`sectorValueExtents, this`innerRadiusExtents, this`outerRadiusExtents
      requires sectorValueProvider != innerRadiusProvider && sectorValueProvider != outerRadiusProvider
      requires innerRadiusProvider != outerRadiusProvider
    {
      ProviderAnswers(isAnchored, (sectorValueProvider, sectorValueExtents), (innerRadiusProvider, innerRadiusExtents),
                      (outerRadiusProvider, outerRadiusExtents), others)
    }

    // --- extent providers ---------------------------------------------

    /** The sector-value extent provider's answer. */
    function SectorValueExtentProvider(): (r: Option<seq<Extent>>)
      reads this`isAnchored, this`sectorValueExtents
      ensures !isAnchored ==> r == Some([])
      ensures isAnchored ==> r == sectorValueExtents
    {
      AnchoredExtents(isAnchored, sectorValueExtents)
    }

    /** The inner-radius extent provider's answer. */
    function InnerRadiusExtentProvider(): (r: Option<seq<Extent>>)
      reads this`isAnchored, this`innerRadiusExtents
      ensures !isAnchored ==> r == Some([])
      ensures isAnchored ==> r == innerRadiusExtents
    {
      AnchoredExtents(isAnchored, innerRadiusExtents)
    }

    /** The outer-radius extent provider's answer. */
    function OuterRadiusExtentProvider(): (r: Option<seq<Extent>>)
      reads this`isAnchored, this`outerRadiusExtents
      ensures !isAnchored ==> r == Some([])
      ensures isAnchored ==> r == outerRadiusExtents
    {
      AnchoredExtents(isAnchored, outerRadiusExtents)
    }

    // --- datasets -------------------------------------------------------

    /**
     * `addDataset(key, dataset)`: a pie that already holds a dataset keeps
     * it and only warns; otherwise the base plot appends the key and
     * records the dataset with its plot metadata.
     */
    method AddDataset(key: string, dataset: Dataset)
      requires Valid()
      modifies this`datasetKeysInOrder, this`key2PlotDatasetKey, this`warnings
      ensures Valid()
      ensures |old(datasetKeysInOrder)| == 1 ==>
        && datasetKeysInOrder == old(datasetKeysInOrder)
        && key2PlotDatasetKey == old(key2PlotDatasetKey)
        && warnings == old(warnings) + [OneDatasetWarning]
      ensures |old(datasetKeysInOrder)| != 1 ==>
        && datasetKeysInOrder == [key]
        && key2PlotDatasetKey == old(key2PlotDatasetKey)[key := PlotDatasetKey(dataset, PlotMetadata(key))]
        && warnings == old(warnings)
    {
      if |datasetKeysInOrder| == 1 {
        warnings := warnings + [OneDatasetWarning];
        return;
      }
      datasetKeysInOrder := datasetKeysInOrder + [key];
      key2PlotDatasetKey := key2PlotDatasetKey[key := PlotDatasetKey(dataset, PlotMetadata(key))];
    }

    // --- attribute projectors ------------------------------------------

    /**
     * `_generateAttrToProjector`, given the table the base plot builds: a
     * "fill" projector that is already there is kept; only when none is
     * there does "fill" become the colour scale applied to the datum's index
     * as a string.
     */
    function GenerateAttrToProjector(base: AttributeToProjector): (r: AttributeToProjector)
      ensures r.Keys == base.Keys + {"fill"}
      ensures forall k :: k in base ==> r[k] == base[k]
      ensures "fill" !in base ==> forall d, i, u, m :: r["fill"](d, i, u, m) == Color(colorScale(NatToString(i)))
    {
      if "fill" in base then base
      else base["fill" := (d: Datum, i: nat, u: Metadata, m: PlotMetadata) => Color(colorScale(NatToString(i)))]
    }

    // --- bindings: getters ----------------------------------------------

    /** `sectorValue()`. */
    method SectorValue() returns (b: Binding)
      ensures b.accessor == sectorValue && b.scale == sectorValueScale
    {
      b := Binding(sectorValue, sectorValueScale);
    }

    /** `innerRadius()` as written: it reports the OUTER radius binding. */
    method InnerRadius() returns (b: Binding)
      ensures b.accessor == outerRadius && b.scale == outerRadiusScale
    {
      b := Binding(outerRadius, outerRadiusScale);
    }

    /** The inner radius binding that `innerRadius()` is meant to report. */
    method InnerRadiusBinding() returns (b: Binding)
      ensures b.accessor == innerRadius && b.scale == innerRadiusScale
    {
      b := Binding(innerRadius, innerRadiusScale);
    }

    /** `outerRadius()`. */
    method OuterRadius() returns (b: Binding)
      ensures b.accessor == outerRadius && b.scale == outerRadiusScale
    {
      b := Binding(outerRadius, outerRadiusScale);
    }

    // --- scaled accessors -------------------------------------------------

    function ScaledSectorValueAccessor(): (a: Option<Accessor>)
      reads this, {sectorValueScale}
      requires Valid()
      ensures sectorValueScale == null ==> a == sectorValue
      ensures sectorValueScale != null ==> a.Some? && forall d, i, u, m ::
        a.value(d, i, u, m) == sectorValueScale.transform(sectorValueScale.domain, sectorValue.value(d, i, u, m))
    {
      ScaledAccessor(sectorValue, ScaleFunction(sectorValueScale))
    }

    function ScaledInnerRadiusAccessor(): (a: Option<Accessor>)
      reads this, {innerRadiusScale}
      requires Valid()
      ensures innerRadiusScale == null ==> a == innerRadius
      ensures innerRadiusScale != null ==> a.Some? && forall d, i, u, m ::
        a.value(d, i, u, m) == innerRadiusScale.transform(innerRadiusScale.domain, innerRadius.value(d, i, u, m))
    {
      ScaledAccessor(innerRadius, ScaleFunction(innerRadiusScale))
    }

    function ScaledOuterRadiusAccessor(): (a: Option<Accessor>)
      reads this, {outerRadiusScale}
      requires Valid()
      ensures outerRadiusScale == null ==> a == outerRadius
      ensures outerRadiusScale != null ==> a.Some? && forall d, i, u, m ::
        a.value(d, i, u, m) == outerRadiusScale.transform(outerRadiusScale.domain, outerRadius.value(d, i, u, m))
    {
      ScaledAccessor(outerRadius, ScaleFunction(outerRadiusScale))
    }

    // --- extent bookkeeping ---------------------------------------------

    /**
     * `_updateSectorValueScaleExtents`: recompute the cached extents with
     * the coercer of the scale bound NOW, then let that scale re-derive its
     * domain if it is in automatic mode.
     */
    method UpdateSectorValueScaleExtents(others: Pull)
      requires Valid()
      modifies this`sectorValueExtents, {sectorValueScale}`domain, {sectorValueScale}`warnings
      ensures Valid()
      ensures sectorValueExtents
        == DatasetExtents(datasetKeysInOrder, key2PlotDatasetKey, sectorValue, CoercerOf(sectorValueScale))
      ensures sectorValueScale != null ==>
        sectorValueScale.domain == NextDomain(sectorValueScale.autoDomainAutomatically, old(sectorValueScale.domain),
                                              sectorValueScale.GetExtent(Pulls(others)))
    {
      sectorValueExtents := DatasetExtents(datasetKeysInOrder, key2PlotDatasetKey, sectorValue, CoercerOf(sectorValueScale));
      if sectorValueScale != null {
        sectorValueScale.AutoDomainIfAutomaticMode(Pulls(others));
      }
    }

    /** `_updateInnerRadiusScaleExtents`. */
    method UpdateInnerRadiusScaleExtents(others: Pull)
      requires Valid()
      modifies this`innerRadiusExtents, {innerRadiusScale}`domain, {innerRadiusScale}`warnings
      ensures Valid()
      ensures innerRadiusExtents
        == DatasetExtents(datasetKeysInOrder, key2PlotDatasetKey, innerRadius, CoercerOf(innerRadiusScale))
      ensures innerRadiusScale != null ==>
        innerRadiusScale.domain == NextDomain(innerRadiusScale.autoDomainAutomatically, old(innerRadiusScale.domain),
                                              innerRadiusScale.GetExtent(Pulls(others)))
    {
      innerRadiusExtents := DatasetExtents(datasetKeysInOrder, key2PlotDatasetKey, innerRadius, CoercerOf(innerRadiusScale));
      if innerRadiusScale != null {
        innerRadiusScale.AutoDomainIfAutomaticMode(Pulls(others));
      }
    }

    /** `_updateOuterRadiusScaleExtents`. */
    method UpdateOuterRadiusScaleExtents(others: Pull)
      requires Valid()
      modifies this`outerRadiusExtents, {outerRadiusScale}`domain, {outerRadiusScale}`warnings
      ensures Valid()
      ensures outerRadiusExtents
        == DatasetExtents(datasetKeysInOrder, key2PlotDatasetKey, outerRadius, CoercerOf(outerRadiusScale))
      ensures outerRadiusScale != null ==>
        outerRadiusScale.domain == NextDomain(outerRadiusScale.autoDomainAutomatically, old(outerRadiusScale.domain),
                                              outerRadiusScale.GetExtent(Pulls(others)))
    {
      outerRadiusExtents := DatasetExtents(datasetKeysInOrder, key2PlotDatasetKey, outerRadius, CoercerOf(outerRadiusScale));
      if outerRadiusScale != null {
        outerRadiusScale.AutoDomainIfAutomaticMode(Pulls(others));
      }
    }

    // --- rebinding --------------------------------------------------------

    /**
     * `_replaceScaleBinding`: nothing happens when the scale stays the same
     * object. Otherwise the old scale loses the callback and the provider
     * and re-derives its domain; the new scale gains both and is left for
     * the next render pass to recompute.
     */
    static method ReplaceScaleBinding(oldScale: QuantitativeScale?, newScale: QuantitativeScale?,
                                      callback: CallbackId, provider: ProviderId, pull: Pull)
      requires oldScale != null ==> oldScale.Valid()
      requires newScale != null ==> newScale.Valid()
      modifies {oldScale}`updateCallbacks, {oldScale}`extentProviders
      modifies {oldScale}`domain, {oldScale}`warnings
      modifies {newScale}`updateCallbacks, {newScale}`extentProviders
      ensures oldScale == newScale && oldScale != null ==> unchanged(oldScale)
      ensures oldScale != newScale && oldScale != null ==>
        && oldScale.Valid()
        && oldScale.updateCallbacks == Removed(old(oldScale.updateCallbacks), callback)
        && oldScale.extentProviders == Removed(old(oldScale.extentProviders), provider)
        && oldScale.domain == NextDomain(oldScale.autoDomainAutomatically, old(oldScale.domain), oldScale.GetExtent(pull))
      ensures oldScale != newScale && newScale != null ==>
        && newScale.Valid()
        && newScale.updateCallbacks == Added(old(newScale.updateCallbacks), callback)
        && newScale.extentProviders == Added(old(newScale.extentProviders), provider)
        && newScale.domain == old(newScale.domain)
    {
      if oldScale != newScale {
        if oldScale != null {
          oldScale.OffUpdate(callback);
          oldScale.RemoveExtentProvider(provider);
          oldScale.AutoDomainIfAutomaticMode(pull);
        }
        if newScale != null {
          newScale.OnUpdate(callback);
          newScale.AddExtentProvider(provider);
        }
      }
    }

    // --- bindings: setters --------------------------------------------------

    /** The rebinding half of `sectorValue(value, scale)`: `_replaceScaleBinding`, then the new scale is stored. */
    method RebindSectorValueScale(scale: QuantitativeScale?, others: Pull)
      requires Valid() && sectorValue.Some? && sectorValueExtents.Some?
      requires sectorValueScale != null ==> sectorValueScale.Valid()
      requires scale != null ==> scale.Valid()
      modifies this`sectorValueScale
      modifies {sectorValueScale}`updateCallbacks, {sectorValueScale}`extentProviders
      modifies {sectorValueScale}`domain, {sectorValueScale}`warnings
      modifies {scale}`updateCallbacks, {scale}`extentProviders
      ensures Valid() && sectorValueScale == scale
      ensures old(sectorValueScale) == scale && scale != null ==> unchanged(scale)
      ensures old(sectorValueScale) != scale && old(sectorValueScale) != null ==>
        var was := old(sectorValueScale);
        && was.Valid()
        && was.updateCallbacks == Removed(old(was.updateCallbacks), renderCallback)
        && was.extentProviders == Removed(old(was.extentProviders), sectorValueProvider)
        && was.domain == NextDomain(was.autoDomainAutomatically, old(was.domain), was.GetExtent(Pulls(others)))
      ensures old(sectorValueScale) != scale && scale != null ==>
        && scale.Valid()
        && scale.updateCallbacks == Added(old(scale.updateCallbacks), renderCallback)
        && scale.extentProviders == Added(old(scale.extentProviders), sectorValueProvider)
        && scale.domain == old(scale.domain)
    {
      ReplaceScaleBinding(sectorValueScale, scale, renderCallback, sectorValueProvider, Pulls(others));
      sectorValueScale := scale;
    }

    /**
     * `sectorValue(value, scale)`: store the new accessor, recompute the
     * extents (still with the OLD scale's coercer, auto-domaining the old
     * scale), move the callback and provider from the old scale to the new
     * one, and store the scale. A missing `scale` unbinds.
     */
    method SetSectorValue(value: AccessorArg, scale: QuantitativeScale?, others: Pull)
      requires Valid()
      requires sectorValueScale != null ==> sectorValueScale.Valid()
      requires scale != null ==> scale.Valid()
      modifies this`sectorValue, this`sectorValueExtents, this`sectorValueScale
      modifies {sectorValueScale}`updateCallbacks, {sectorValueScale}`extentProviders
      modifies {sectorValueScale}`domain, {sectorValueScale}`warnings
      modifies {scale}`updateCallbacks, {scale}`extentProviders
      ensures Valid()
      ensures sectorValue == Some(Functor(value)) && sectorValueScale == scale
      ensures sectorValueExtents
        == DatasetExtents(datasetKeysInOrder, key2PlotDatasetKey, sectorValue, CoercerOf(old(sectorValueScale)))
      ensures old(sectorValueScale) == scale && scale != null ==>
        && scale.updateCallbacks == old(scale.updateCallbacks)
        && scale.extentProviders == old(scale.extentProviders)
        && scale.domain == NextDomain(scale.autoDomainAutomatically, old(scale.domain), scale.GetExtent(Pulls(others)))
      ensures old(sectorValueScale) != scale && old(sectorValueScale) != null ==>
        var was := old(sectorValueScale);
        && was.Valid()
        && was.updateCallbacks == Removed(old(was.updateCallbacks), renderCallback)
        && was.extentProviders == Removed(old(was.extentProviders), sectorValueProvider)
        && was.domain == NextDomain(was.autoDomainAutomatically,
                                    NextDomain(was.autoDomainAutomatically, old(was.domain),
                                               was.domainer(AllExtents(old(was.extentProviders), Pulls(others)))),
                                    was.GetExtent(Pulls(others)))
      ensures old(sectorValueScale) != scale && scale != null ==>
        && scale.Valid()
        && scale.updateCallbacks == Added(old(scale.updateCallbacks), renderCallback)
        && scale.extentProviders == Added(old(scale.extentProviders), sectorValueProvider)
        && scale.domain == old(scale.domain)
    {
      sectorValue := Some(Functor(value));
      UpdateSectorValueScaleExtents(others);
      RebindSectorValueScale(scale, others);
    }

    /** The rebinding half of `innerRadius(value, scale)`: `_replaceScaleBinding`, then the new scale is stored. */
    method RebindInnerRadiusScale(scale: QuantitativeScale?, others: Pull)
      requires Valid() && innerRadiusExtents.Some?
      requires innerRadiusScale != null ==> innerRadiusScale.Valid()
      requires scale != null ==> scale.Valid()
      modifies this`innerRadiusScale
      modifies {innerRadiusScale}`updateCallbacks, {innerRadiusScale}`extentProviders
      modifies {innerRadiusScale}`domain, {innerRadiusScale}`warnings
      modifies {scale}`updateCallbacks, {scale}`extentProviders
      ensures Valid() && innerRadiusScale == scale
      ensures old(innerRadiusScale) == scale && scale != null ==> unchanged(scale)
      ensures old(innerRadiusScale) != scale && old(innerRadiusScale) != null ==>
        var was := old(innerRadiusScale);
        && was.Valid()
        && was.updateCallbacks == Removed(old(was.updateCallbacks), renderCallback)
        && was.extentProviders == Removed(old(was.extentProviders), innerRadiusProvider)
        && was.domain == NextDomain(was.autoDomainAutomatically, old(was.domain), was.GetExtent(Pulls(others)))
      ensures old(innerRadiusScale) != scale && scale != null ==>
        && scale.Valid()
        && scale.updateCallbacks == Added(old(scale.updateCallbacks), renderCallback)
        && scale.extentProviders == Added(old(scale.extentProviders), innerRadiusProvider)
        && scale.domain == old(scale.domain)
    {
      ReplaceScaleBinding(innerRadiusScale, scale, renderCallback, innerRadiusProvider, Pulls(others));
      innerRadiusScale := scale;
    }

    /**
     * `innerRadius(value, scale)`: store the new accessor, recompute the
     * extents (still with the OLD scale's coercer, auto-domaining the old
     * scale), move the callback and provider from the old scale to the new
     * one, and store the scale. A missing `scale` unbinds.
     */
    method SetInnerRadius(value: AccessorArg, scale: QuantitativeScale?, others: Pull)
      requires Valid()
      requires innerRadiusScale != null ==> innerRadiusScale.Valid()
      requires scale != null ==> scale.Valid()
      modifies this`innerRadius, this`innerRadiusExtents, this`innerRadiusScale
      modifies {innerRadiusScale}`updateCallbacks, {innerRadiusScale}`extentProviders
      modifies {innerRadiusScale}`domain, {innerRadiusScale}`warnings
      modifies {scale}`updateCallbacks, {scale}`extentProviders
      ensures Valid()
      ensures innerRadius == Some(Functor(value)) && innerRadiusScale == scale
      ensures innerRadiusExtents
        == DatasetExtents(datasetKeysInOrder, key2PlotDatasetKey, innerRadius, CoercerOf(old(innerRadiusScale)))
      ensures old(innerRadiusScale) == scale && scale != null ==>
        && scale.updateCallbacks == old(scale.updateCallbacks)
        && scale.extentProviders == old(scale.extentProviders)
        && scale.domain == NextDomain(scale.autoDomainAutomatically, old(scale.domain), scale.GetExtent(Pulls(others)))
      ensures old(innerRadiusScale) != scale && old(innerRadiusScale) != null ==>
        var was := old(innerRadiusScale);
        && was.Valid()
        && was.updateCallbacks == Removed(old(was.updateCallbacks), renderCallback)
        && was.extentProviders == Removed(old(was.extentProviders), innerRadiusProvider)
        && was.domain == NextDomain(was.autoDomainAutomatically,
                                    NextDomain(was.autoDomainAutomatically, old(was.domain),
                                               was.domainer(AllExtents(old(was.extentProviders), Pulls(others)))),
                                    was.GetExtent(Pulls(others)))
      ensures old(innerRadiusScale) != scale && scale != null ==>
        && scale.Valid()
        && scale.updateCallbacks == Added(old(scale.updateCallbacks), renderCallback)
        && scale.extentProviders == Added(old(scale.extentProviders), innerRadiusProvider)
        && scale.domain == old(scale.domain)
    {
      innerRadius := Some(Functor(value));
      UpdateInnerRadiusScaleExtents(others);
      RebindInnerRadiusScale(scale, others);
    }

    /** The rebinding half of `outerRadius(value, scale)`: `_replaceScaleBinding`, then the new scale is stored. */
    method RebindOuterRadiusScale(scale: QuantitativeScale?, others: Pull)
      requires Valid() && outerRadiusExtents.Some?
      requires outerRadiusScale != null ==> outerRadiusScale.Valid()
      requires scale != null ==> scale.Valid()
      modifies this`outerRadiusScale
      modifies {outerRadiusScale}`updateCallbacks, {outerRadiusScale}`extentProviders
      modifies {outerRadiusScale}`domain, {outerRadiusScale}`warnings
      modifies {scale}`updateCallbacks, {scale}`extentProviders
      ensures Valid() && outerRadiusScale == scale
      ensures old(outerRadiusScale) == scale && scale != null ==> unchanged(scale)
      ensures old(outerRadiusScale) != scale && old(outerRadiusScale) != null ==>
        var was := old(outerRadiusScale);
        && was.Valid()
        && was.updateCallbacks == Removed(old(was.updateCallbacks), renderCallback)
        && was.extentProviders == Removed(old(was.extentProviders), outerRadiusProvider)
        && was.domain == NextDomain(was.autoDomainAutomatically, old(was.domain), was.GetExtent(Pulls(others)))
      ensures old(outerRadiusScale) != scale && scale != null ==>
        && scale.Valid()
        && scale.updateCallbacks == Added(old(scale.updateCallbacks), renderCallback)
        && scale.extentProviders == Added(old(scale.extentProviders), outerRadiusProvider)
        && scale.domain == old(scale.domain)
    {
      ReplaceScaleBinding(outerRadiusScale, scale, renderCallback, outerRadiusProvider, Pulls(others));
      outerRadiusScale := scale;
    }

    /**
     * `outerRadius(value, scale)`: store the new accessor, recompute the
     * extents (still with the OLD scale's coercer, auto-domaining the old
     * scale), move the callback and provider from the old scale to the new
     * one, and store the scale. A missing `scale` unbinds.
     */
    method SetOuterRadius(value: AccessorArg, scale: QuantitativeScale?, others: Pull)
      requires Valid()
      requires outerRadiusScale != null ==> outerRadiusScale.Valid()
      requires scale != null ==> scale.Valid()
      modifies this`outerRadius, this`outerRadiusExtents, this`outerRadiusScale
      modifies {outerRadiusScale}`updateCallbacks, {outerRadiusScale}`extentProviders
      modifies {outerRadiusScale}`domain, {outerRadiusScale}`warnings
      modifies {scale}`updateCallbacks, {scale}`extentProviders
      ensures Valid()
      ensures outerRadius == Some(Functor(value)) && outerRadiusScale == scale
      ensures outerRadiusExtents
        == DatasetExtents(datasetKeysInOrder, key2PlotDatasetKey, outerRadius, CoercerOf(old(outerRadiusScale)))
      ensures old(outerRadiusScale) == scale && scale != null ==>
        && scale.updateCallbacks == old(scale.updateCallbacks)
        && scale.extentProviders == old(scale.extentProviders)
        && scale.domain == NextDomain(scale.autoDomainAutomatically, old(scale.domain), scale.GetExtent(Pulls(others)))
      ensures old(outerRadiusScale) != scale && old(outerRadiusScale) != null ==>
        var was := old(outerRadiusScale);
        && was.Valid()
        && was.updateCallbacks == Removed(old(was.updateCallbacks), renderCallback)
        && was.extentProviders == Removed(old(was.extentProviders), outerRadiusProvider)
        && was.domain == NextDomain(was.autoDomainAutomatically,
                                    NextDomain(was.autoDomainAutomatically, old(was.domain),
                                               was.domainer(AllExtents(old(was.extentProviders), Pulls(others)))),
                                    was.GetExtent(Pulls(others)))
      ensures old(outerRadiusScale) != scale && scale != null ==>
        && scale.Valid()
        && scale.updateCallbacks == Added(old(scale.updateCallbacks), renderCallback)
        && scale.extentProviders == Added(old(scale.extentProviders), outerRadiusProvider)
        && scale.domain == old(scale.domain)
    {
      outerRadius := Some(Functor(value));
      UpdateOuterRadiusScaleExtents(others);
      RebindOuterRadiusScale(scale, others);
    }

    // --- anchoring and extent refresh -------------------------------------

    /**
     * `anchor(selection)`: once anchored, the providers answer with the
     * cached extents; the outer radius, inner radius and sector value
     * extents are then recomputed in that order, each re-deriving the
     * domain of its scale.
     */
    method Anchor(others: Pull)
      requires Valid()
      modifies this`isAnchored, this`sectorValueExtents, this`innerRadiusExtents, this`outerRadiusExtents
      modifies {sectorValueScale}`domain, {sectorValueScale}`warnings
      modifies {innerRadiusScale}`domain, {innerRadiusScale}`warnings
      modifies {outerRadiusScale}`domain, {outerRadiusScale}`warnings
      ensures Valid() && isAnchored
      ensures sectorValueExtents == DatasetExtents(datasetKeysInOrder, key2PlotDatasetKey, sectorValue, CoercerOf(sectorValueScale))
      ensures innerRadiusExtents == DatasetExtents(datasetKeysInOrder, key2PlotDatasetKey, innerRadius, CoercerOf(innerRadiusScale))
      ensures outerRadiusExtents == DatasetExtents(datasetKeysInOrder, key2PlotDatasetKey, outerRadius, CoercerOf(outerRadiusScale))
      ensures sectorValueScale != null ==> sectorValueScale.Settled(Pulls(others))
    {
      isAnchored := true;
      UpdateOuterRadiusScaleExtents(others);
      UpdateInnerRadiusScaleExtents(others);
      UpdateSectorValueScaleExtents(others);
    }

    /**
     * One step of `_updateExtents`: the outer radius extents are refreshed
     * and the bound scale is auto-domained once more, which leaves the
     * domain where the refresh put it.
     */
    method RefreshOuterRadius(others: Pull)
      requires Valid()
      modifies this`outerRadiusExtents, {outerRadiusScale}`domain, {outerRadiusScale}`warnings
      ensures Valid()
      ensures outerRadiusExtents
        == DatasetExtents(datasetKeysInOrder, key2PlotDatasetKey, outerRadius, CoercerOf(outerRadiusScale))
      ensures outerRadiusScale != null ==>
        outerRadiusScale.domain == NextDomain(outerRadiusScale.autoDomainAutomatically, old(outerRadiusScale.domain),
                                              outerRadiusScale.GetExtent(Pulls(others)))
      ensures outerRadiusScale != null ==> outerRadiusScale.Settled(Pulls(others))
    {
      UpdateOuterRadiusScaleExtents(others);
      if outerRadiusScale != null {
        outerRadiusScale.AutoDomainIfAutomaticMode(Pulls(others));
        AutoDomainIdempotent(outerRadiusScale.autoDomainAutomatically, old(outerRadiusScale.domain),
                             outerRadiusScale.GetExtent(Pulls(others)));
      }
    }

    /**
     * One step of `_updateExtents`: the inner radius extents are refreshed
     * and the bound scale is auto-domained once more, which leaves the
     * domain where the refresh put it.
     */
    method RefreshInnerRadius(others: Pull)
      requires Valid()
      modifies this`innerRadiusExtents, {innerRadiusScale}`domain, {innerRadiusScale}`warnings
      ensures Valid()
      ensures innerRadiusExtents
        == DatasetExtents(datasetKeysInOrder, key2PlotDatasetKey, innerRadius, CoercerOf(innerRadiusScale))
      ensures innerRadiusScale != null ==>
        innerRadiusScale.domain == NextDomain(innerRadiusScale.autoDomainAutomatically, old(innerRadiusScale.domain),
                                              innerRadiusScale.GetExtent(Pulls(others)))
      ensures innerRadiusScale != null ==> innerRadiusScale.Settled(Pulls(others))
    {
      UpdateInnerRadiusScaleExtents(others);
      if innerRadiusScale != null {
        innerRadiusScale.AutoDomainIfAutomaticMode(Pulls(others));
        AutoDomainIdempotent(innerRadiusScale.autoDomainAutomatically, old(innerRadiusScale.domain),
                             innerRadiusScale.GetExtent(Pulls(others)));
      }
    }

    /**
     * One step of `_updateExtents`: the sector value extents are refreshed
     * and the bound scale is auto-domained once more, which leaves the
     * domain where the refresh put it.
     */
    method RefreshSectorValue(others: Pull)
      requires Valid()
      modifies this`sectorValueExtents, {sectorValueScale}`domain, {sectorValueScale}`warnings
      ensures Valid()
      ensures sectorValueExtents
        == DatasetExtents(datasetKeysInOrder, key2PlotDatasetKey, sectorValue, CoercerOf(sectorValueScale))
      ensures sectorValueScale != null ==>
        sectorValueScale.domain == NextDomain(sectorValueScale.autoDomainAutomatically, old(sectorValueScale.domain),
                                              sectorValueScale.GetExtent(Pulls(others)))
      ensures sectorValueScale != null ==> sectorValueScale.Settled(Pulls(others))
    {
      UpdateSectorValueScaleExtents(others);
      if sectorValueScale != null {
        sectorValueScale.AutoDomainIfAutomaticMode(Pulls(others));
        AutoDomainIdempotent(sectorValueScale.autoDomainAutomatically, old(sectorValueScale.domain),
                             sectorValueScale.GetExtent(Pulls(others)));
      }
    }

    /**
     * `_updateExtents`: the outer radius, inner radius and sector value
     * extents are refreshed in that order, each bound scale auto-domained
     * right after its own refresh.
     */
    method UpdateExtents(others: Pull)
      requires Valid()
      modifies this`sectorValueExtents, this`innerRadiusExtents, this`outerRadiusExtents
      modifies {sectorValueScale}`domain, {sectorValueScale}`warnings
      modifies {innerRadiusScale}`domain, {innerRadiusScale}`warnings
      modifies {outerRadiusScale}`domain, {outerRadiusScale}`warnings
      ensures Valid()
      ensures sectorValueExtents == DatasetExtents(datasetKeysInOrder, key2PlotDatasetKey, sectorValue, CoercerOf(sectorValueScale))
      ensures innerRadiusExtents == DatasetExtents(datasetKeysInOrder, key2PlotDatasetKey, innerRadius, CoercerOf(innerRadiusScale))
      ensures outerRadiusExtents == DatasetExtents(datasetKeysInOrder, key2PlotDatasetKey, outerRadius, CoercerOf(outerRadiusScale))
      ensures sectorValueScale != null ==> sectorValueScale.Settled(Pulls(others))
    {
      RefreshOuterRadius(others);
      RefreshInnerRadius(others);
      RefreshSectorValue(others);
    }
  }

  // -------------------------------------------------------------------------
  // The inner radius getter
  // -------------------------------------------------------------------------

  /** A pie with its three providers and one linear scale to bind, for the two scenarios below. */
  method NewPieAndScale() returns (pie: Pie, s: QuantitativeScale)
    ensures fresh(pie) && fresh(s) && pie.Valid() && s.Valid()
    ensures pie.sectorValueScale == null && pie.innerRadiusScale == null && pie.outerRadiusScale == null
  {
    pie := new Pie(0, 0, 1, 2, k => k, (d, i, u, m) => Finite(1.0));
    s := new QuantitativeScale([Finite(0.0), Finite(1.0)], x => x, (dom, x) => x, extents => []);
  }

  /**
   * `innerRadius(value, scale)` followed by `innerRadius()` as written:
   * the getter does not report the scale that was just bound.
   */
  method InnerRadiusGetterReportsOuter() returns (chosen: QuantitativeScale, reported: Binding)
    ensures reported.scale != chosen
  {
    var pie;
    pie, chosen := NewPieAndScale();
    pie.SetInnerRadius(Literal(Finite(5.0)), chosen, p => []);
    reported := pie.InnerRadius();
  }

  /**
   * Any binding set through `innerRadius(value, scale)` is read back by the
   * corrected getter: the wrapped accessor and the scale just bound.
   */
  method InnerRadiusRoundTrip(pie: Pie, value: AccessorArg, scale: QuantitativeScale?, others: Pull) returns (reported: Binding)
    requires pie.Valid()
    requires pie.innerRadiusScale != null ==> pie.innerRadiusScale.Valid()
    requires scale != null ==> scale.Valid()
    modifies pie`innerRadius, pie`innerRadiusExtents, pie`innerRadiusScale
    modifies {pie.innerRadiusScale}`updateCallbacks, {pie.innerRadiusScale}`extentProviders
    modifies {pie.innerRadiusScale}`domain, {pie.innerRadiusScale}`warnings
    modifies {scale}`updateCallbacks, {scale}`extentProviders
    ensures reported == Binding(Some(Functor(value)), scale)
  {
    pie.SetInnerRadius(value, scale, others);
    reported := pie.InnerRadiusBinding();
  }
}
