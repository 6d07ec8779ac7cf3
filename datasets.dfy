/**
 * The data side of a plot: datasets, accessors and the per-dataset extent
 * that a plot reports to its scales.
 *
 * `Dataset` itself (its change broadcaster and its extent cache) is not
 * part of this model; `GetExtent` gives `Dataset._getExtent` the shape the
 * plots rely on: the accessor applied to every datum, the result passed
 * through the scale's type coercer, and the `d3.extent` of that.
 */
module Datasets {
  import opened Values

  /** A data item; the model never looks inside one. */
  type Datum(!new)

  /** The user metadata a dataset carries; never looked inside either. */
  type Metadata(!new)

  /** What a plot attaches to each of its datasets: the key it was added under. */
  datatype PlotMetadata = PlotMetadata(datasetKey: string)

  datatype Dataset = Dataset(data: seq<Datum>, metadata: Metadata)

  /** `(datum, index, userMetadata, plotMetadata) -> value`. */
  type Accessor = (Datum, nat, Metadata, PlotMetadata) -> Num

  /** A scale's `_typeCoercer`: normalises raw accessor output before extents are taken. */
  type Coercer = Num -> Num

  /** The argument of a binding setter: a literal, or an accessor function. */
  datatype AccessorArg = Literal(value: Num) | Callable(f: Accessor)

  /**
   * `d3.functor(x)`: a function is returned as it is, anything else is
   * wrapped in a function that always returns it.
   */
  function Functor(arg: AccessorArg): (a: Accessor)
    ensures arg.Callable? ==> a == arg.f
    ensures arg.Literal? ==> forall d, i, u, m :: a(d, i, u, m) == arg.value
  {
    match arg
    case Literal(v) => (d: Datum, i: nat, u: Metadata, m: PlotMetadata) => v
    case Callable(f) => f
  }

  /** The accessor applied to every datum of `ds`, each result coerced. */
  function Mapped(ds: Dataset, accessor: Accessor, coercer: Coercer, pm: PlotMetadata): (values: seq<Num>)
    ensures |values| == |ds.data|
    ensures forall i :: 0 <= i < |ds.data| ==>
      values[i] == coercer(accessor(ds.data[i], i, ds.metadata, pm))
  {
    seq(|ds.data|, i requires 0 <= i < |ds.data| => coercer(accessor(ds.data[i], i, ds.metadata, pm)))
  }

  /**
   * `Dataset._getExtent(accessor, coercer, plotMetadata)` for numeric data:
   * `[]` when no datum yields a comparable value, and otherwise the least
   * and the greatest of the coerced values.
   */
  function GetExtent(ds: Dataset, accessor: Accessor, coercer: Coercer, pm: PlotMetadata): Extent
  {
    match D3Extent(Mapped(ds, accessor, coercer, pm))
    case None => []
    case Some(b) => [b.lo, b.hi]
  }

  /**
   * What a dataset reports: `[]` exactly when no datum yields a comparable
   * value, and otherwise the least and the greatest coerced value.
   */
  lemma GetExtentSpec(ds: Dataset, accessor: Accessor, coercer: Coercer, pm: PlotMetadata)
    ensures GetExtent(ds, accessor, coercer, pm) == [] <==> AllNaN(Mapped(ds, accessor, coercer, pm))
    ensures GetExtent(ds, accessor, coercer, pm) != [] ==>
      var r := GetExtent(ds, accessor, coercer, pm);
      |r| == 2 && IsExtentOf(Bounds(r[0], r[1]), Mapped(ds, accessor, coercer, pm))
  {
    D3ExtentSpec(Mapped(ds, accessor, coercer, pm));
  }
}
