/**
 * `QuantitativeScale` (src/scales/quantitativeScale.ts) together with the
 * part of its base class `Scale` that the plots and the quantitative scale
 * use: the domain, the automatic-mode flag, and the registries of extent
 * providers and update callbacks.
 *
 * Dafny has no class inheritance here, so the base class and the
 * subclass are one class; where the subclass overrides (`_getExtent`,
 * `_setDomain`) the class holds the overriding version, and the base
 * version that `super` reaches is written inline.
 *
 * Extent providers and update callbacks are closures in the source; here
 * they are identity handles. A provider is code of another component, so
 * whenever the scale pulls its providers, the caller supplies `pull`: what
 * each provider returns at that moment.
 */
module Scales {
  import opened Values
  import opened Datasets

  type ProviderId = nat
  type CallbackId = nat

  /** A provider's answer for every handle: the extents it returns when pulled. */
  type Pull = ProviderId -> seq<Extent>

  /** `Domainer.computeDomain`: combines the pulled extents into one domain. */
  type Domainer = seq<Extent> -> Extent

  datatype Result<+T> = Success(value: T) | Failure(error: string)

  /**
   * A tick generator maps the scale to its ticks. The default one defers to
   * `getDefaultTicks`; any other is a function of the scale's domain.
   */
  datatype TickGenerator = DefaultTicks | FromDomain(ticksOf: seq<Num> -> seq<Num>)

  const NonFiniteDomainWarning := "Warning: QuantitativeScales cannot take NaN or Infinity as a domain value. Ignoring."

  // ---------------------------------------------------------------------
  // Registries of providers and callbacks. They are taken to behave as an
  // insertion-ordered set: adding a present element changes nothing,
  // removing takes the element out wherever it is. The set class itself
  // is not part of this model.
  // ---------------------------------------------------------------------

  predicate NoDuplicates(ids: seq<nat>)
  {
    forall i, j :: 0 <= i < j < |ids| ==> ids[i] != ids[j]
  }

  /** The registry after `add(x)`. */
  function Added(ids: seq<nat>, x: nat): (r: seq<nat>)
    ensures forall y :: y in r <==> y in ids || y == x
    ensures NoDuplicates(ids) ==> NoDuplicates(r)
    ensures |ids| <= |r| && r[..|ids|] == ids
  {
    if x in ids then ids else ids + [x]
  }

  /** The registry after `delete(x)`: every other element, in the same order. */
  function Removed(ids: seq<nat>, x: nat): (r: seq<nat>)
    ensures forall y :: y in r <==> y in ids && y != x
    ensures NoDuplicates(ids) ==> NoDuplicates(r)
    ensures x !in ids ==> r == ids
    ensures |r| <= |ids|
  {
    if |ids| == 0 then []
    else if ids[0] == x then Removed(ids[1..], x)
    else
      var rest := Removed(ids[1..], x);
      assert NoDuplicates(ids) ==> ids[0] !in ids[1..] && NoDuplicates(ids[1..]) by {
        if NoDuplicates(ids) {
          forall k | 0 <= k < |ids| - 1
            ensures ids[1..][k] != ids[0]
          {
            assert ids[1..][k] == ids[k + 1];
          }
        }
      }
      [ids[0]] + rest
  }

  /**
   * Registering a handle that was not there and then deregistering it
   * restores the registry exactly, order included.
   */
  lemma {:induction false} RemovedUndoesAdded(ids: seq<nat>, x: nat)
    requires x !in ids
    ensures Removed(Added(ids, x), x) == ids
  {
    assert Added(ids, x) == ids + [x];
    RemovedLast(ids, x);
  }

  /** Removing an element that was only appended at the end gives back what it was appended to. */
  lemma {:induction false} RemovedLast(ids: seq<nat>, x: nat)
    requires x !in ids
    ensures Removed(ids + [x], x) == ids
  {
    if |ids| == 0 {
      assert ids + [x] == [x];
      assert [x][1..] == [];
    } else {
      assert (ids + [x])[0] == ids[0] != x;
      assert (ids + [x])[1..] == ids[1..] + [x];
      RemovedLast(ids[1..], x);
      assert ids == [ids[0]] + ids[1..];
    }
  }

  /**
   * Removal works element by element and keeps order: removing from a
   * concatenation is removing from each part.
   */
  lemma {:induction false} RemovedConcat(a: seq<nat>, b: seq<nat>, x: nat)
    ensures Removed(a + b, x) == Removed(a, x) + Removed(b, x)
  {
    if |a| == 0 {
      assert a + b == b;
    } else {
      assert (a + b)[0] == a[0];
      assert (a + b)[1..] == a[1..] + b;
      RemovedConcat(a[1..], b, x);
    }
  }

  /** `_getAllExtents`: every registered provider pulled, their extents concatenated in registration order. */
  function AllExtents(ids: seq<ProviderId>, pull: Pull): seq<Extent>
  {
    if |ids| == 0 then [] else pull(ids[0]) + AllExtents(ids[1..], pull)
  }

  /** When every registered provider answers `[]`, nothing is pulled. */
  lemma {:induction false} AllExtentsOfSilent(ids: seq<ProviderId>, pull: Pull)
    requires forall p :: p in ids ==> pull(p) == []
    ensures AllExtents(ids, pull) == []
  {
    if |ids| > 0 {
      assert ids[0] in ids;
      AllExtentsOfSilent(ids[1..], pull);
    }
  }

  /** Only registered providers are pulled: two pulls that agree on every registered handle give the same extents. */
  lemma {:induction false} AllExtentsOnlyRegistered(ids: seq<ProviderId>, pull: Pull, pull': Pull)
    requires forall p :: p in ids ==> pull(p) == pull'(p)
    ensures AllExtents(ids, pull) == AllExtents(ids, pull')
  {
    if |ids| > 0 {
      assert ids[0] in ids;
      AllExtentsOnlyRegistered(ids[1..], pull, pull');
    }
  }

  /** Registering a new provider appends exactly its extents to what the scale pulls. */
  lemma {:induction false} AllExtentsAdded(ids: seq<ProviderId>, p: ProviderId, pull: Pull)
    requires p !in ids
    ensures AllExtents(Added(ids, p), pull) == AllExtents(ids, pull) + pull(p)
  {
    assert Added(ids, p) == ids + [p];
    AllExtentsLast(ids, p, pull);
  }

  /** The provider registered last is pulled last. */
  lemma {:induction false} AllExtentsLast(ids: seq<ProviderId>, p: ProviderId, pull: Pull)
    ensures AllExtents(ids + [p], pull) == AllExtents(ids, pull) + pull(p)
  {
    if |ids| == 0 {
      assert ids + [p] == [p];
      assert [p][1..] == [];
    } else {
      assert (ids + [p])[0] == ids[0];
      assert (ids + [p])[1..] == ids[1..] + [p];
      AllExtentsLast(ids[1..], p, pull);
    }
  }

  /**
   * Once a provider is removed, what it returns no longer reaches the
   * scale: two pulls that differ only at `p` give the same extents.
   */
  lemma {:induction false} AllExtentsRemoved(ids: seq<ProviderId>, p: ProviderId, pull: Pull, pull': Pull)
    requires forall q :: q != p ==> pull(q) == pull'(q)
    ensures AllExtents(Removed(ids, p), pull) == AllExtents(Removed(ids, p), pull')
  {
    if |ids| > 0 {
      AllExtentsRemoved(ids[1..], p, pull, pull');
      if ids[0] != p {
        assert Removed(ids, p)[1..] == Removed(ids[1..], p);
      }
    }
  }

  /**
   * A provider that returns no extents is as good as absent: pulling it is
   * the same as pulling the registry without it.
   */
  lemma {:induction false} SilentProviderIsInvisible(ids: seq<ProviderId>, p: ProviderId, pull: Pull)
    requires pull(p) == []
    ensures AllExtents(ids, pull) == AllExtents(Removed(ids, p), pull)
  {
    if |ids| > 0 {
      SilentProviderIsInvisible(ids[1..], p, pull);
      if ids[0] != p {
        assert Removed(ids, p)[1..] == Removed(ids[1..], p);
      }
    }
  }

  // ---------------------------------------------------------------------
  // The domain guard of `_setDomain`.
  // ---------------------------------------------------------------------

  /** `x !== x || x === Infinity || x === -Infinity`. */
  predicate IsNaNOrInfinity(x: Num)
  {
    x.NaN? || x.PosInf? || x.NegInf?
  }

  /**
   * The guard rejects a proposed domain whose first or second value is NaN
   * or infinite. A missing entry reads as `undefined`, which the guard lets
   * through.
   */
  predicate RejectsDomain(values: seq<Num>)
  {
    (|values| > 0 && IsNaNOrInfinity(values[0])) || (|values| > 1 && IsNaNOrInfinity(values[1]))
  }

  /**
   * The domain after one `_autoDomainIfAutomaticMode` pass that proposes
   * `proposed`: replaced only in automatic mode and only when the guard
   * accepts the proposal.
   */
  function NextDomain(automatic: bool, current: seq<Num>, proposed: Extent): (d: seq<Num>)
    ensures d == current || d == proposed
    ensures d != current ==> automatic && !RejectsDomain(proposed)
    ensures automatic && !RejectsDomain(proposed) ==> d == proposed
  {
    if automatic && !RejectsDomain(proposed) then proposed else current
  }

  /** A second pass with nothing changed in between leaves the domain where the first put it. */
  lemma AutoDomainIdempotent(automatic: bool, current: seq<Num>, proposed: Extent)
    ensures NextDomain(automatic, NextDomain(automatic, current, proposed), proposed)
         == NextDomain(automatic, current, proposed)
  {
  }

  class QuantitativeScale {
    // State of the base `Scale` that this model keeps.
    var domain: seq<Num>
    var autoDomainAutomatically: bool
    var extentProviders: seq<ProviderId>
    var updateCallbacks: seq<CallbackId>
    const typeCoercer: Coercer
    /** The mapping `scale(x)` of the concrete scale, as a function of its domain. */
    const transform: (seq<Num>, Num) -> Num
    /** Warnings the scale has emitted, oldest first. */
    var warnings: seq<string>

    // State of `QuantitativeScale`.
    var userSetDomainer: bool
    var domainer: Domainer
    var tickGenerator: TickGenerator

    /** Each provider and each callback is registered at most once. */
    predicate Valid()
      reads this`extentProviders, this`updateCallbacks
    {
      NoDuplicates(extentProviders) && NoDuplicates(updateCallbacks)
    }

    /**
     * A fresh scale: automatic mode, no providers or callbacks, the
     * default domainer (`new Domainer()`, supplied by the caller) not set by
     * the user, and the default tick generator.
     */
    constructor (initialDomain: seq<Num>, coercer: Coercer, transform: (seq<Num>, Num) -> Num, defaultDomainer: Domainer)
      ensures Valid()
      ensures domain == initialDomain && autoDomainAutomatically
      ensures extentProviders == [] && updateCallbacks == [] && warnings == []
      ensures typeCoercer == coercer && this.transform == transform
      ensures !userSetDomainer && domainer == defaultDomainer && tickGenerator == DefaultTicks
    {
      domain := initialDomain;
      autoDomainAutomatically := true;
      extentProviders := [];
      updateCallbacks := [];
      typeCoercer := coercer;
      this.transform := transform;
      warnings := [];
      userSetDomainer := false;
      domainer := defaultDomainer;
      tickGenerator := DefaultTicks;
    }

    // --- registries (base class) ---------------------------------------

    method OnUpdate(callback: CallbackId)
      requires Valid()
      modifies this`updateCallbacks
      ensures Valid()
      ensures updateCallbacks == Added(old(updateCallbacks), callback)
    {
      updateCallbacks := Added(updateCallbacks, callback);
    }

    method OffUpdate(callback: CallbackId)
      requires Valid()
      modifies this`updateCallbacks
      ensures Valid()
      ensures updateCallbacks == Removed(old(updateCallbacks), callback)
    {
      updateCallbacks := Removed(updateCallbacks, callback);
    }

    method AddExtentProvider(provider: ProviderId)
      requires Valid()
      modifies this`extentProviders
      ensures Valid()
      ensures extentProviders == Added(old(extentProviders), provider)
    {
      extentProviders := Added(extentProviders, provider);
    }

    method RemoveExtentProvider(provider: ProviderId)
      requires Valid()
      modifies this`extentProviders
      ensures Valid()
      ensures extentProviders == Removed(old(extentProviders), provider)
    {
      extentProviders := Removed(extentProviders, provider);
    }

    // --- domain --------------------------------------------------------

    /** `_getExtent`: the domainer's combination of everything the providers return. */
    function GetExtent(pull: Pull): Extent
      reads this`extentProviders, this`domainer
    {
      domainer(AllExtents(extentProviders, pull))
    }

    /**
     * With every registered provider silent, `_getExtent()` is what the
     * domainer makes of no extents at all.
     */
    lemma GetExtentOfSilentProviders(pull: Pull)
      requires forall p :: p in extentProviders ==> pull(p) == []
      ensures GetExtent(pull) == domainer([])
    {
      AllExtentsOfSilent(extentProviders, pull);
    }

    /**
     * The domain is where an automatic-mode pass over `pull` would put it:
     * in automatic mode, whenever the guard accepts the extent, the domain
     * is that extent.
     */
    predicate Settled(pull: Pull)
      reads this`domain, this`autoDomainAutomatically, this`extentProviders, this`domainer
    {
      autoDomainAutomatically && !RejectsDomain(GetExtent(pull)) ==> domain == GetExtent(pull)
    }

    /**
     * `_setDomain(values)`: a proposal whose first or second value is NaN
     * or infinite is ignored with a warning; any other is handed to the
     * base setter unchanged, which stores it.
     */
    method SetDomain(values: seq<Num>)
      modifies this`domain, this`warnings
      ensures RejectsDomain(values) ==> domain == old(domain) && warnings == old(warnings) + [NonFiniteDomainWarning]
      ensures !RejectsDomain(values) ==> domain == values && warnings == old(warnings)
    {
      if RejectsDomain(values) {
        warnings := warnings + [NonFiniteDomainWarning];
        return;
      }
      domain := values;
    }

    /** The base class's `domain(values)`: an explicit domain leaves automatic mode. */
    method SetUserDomain(values: seq<Num>)
      modifies this`domain, this`warnings, this`autoDomainAutomatically
      ensures !autoDomainAutomatically
      ensures domain == if RejectsDomain(values) then old(domain) else values
      ensures warnings == old(warnings) + (if RejectsDomain(values) then [NonFiniteDomainWarning] else [])
    {
      autoDomainAutomatically := false;
      SetDomain(values);
    }

    /** The base class's `autoDomain()`: re-enters automatic mode and recomputes. */
    method AutoDomain(pull: Pull)
      modifies this`domain, this`warnings, this`autoDomainAutomatically
      ensures autoDomainAutomatically
      ensures domain == NextDomain(true, old(domain), GetExtent(pull))
      ensures warnings == old(warnings) + (if RejectsDomain(GetExtent(pull)) then [NonFiniteDomainWarning] else [])
    {
      autoDomainAutomatically := true;
      SetDomain(GetExtent(pull));
    }

    /**
     * `_autoDomainIfAutomaticMode`: in automatic mode the domain becomes
     * `_getExtent()` (subject to the guard); a manual domain never changes.
     */
    method AutoDomainIfAutomaticMode(pull: Pull)
      modifies this`domain, this`warnings
      ensures domain == NextDomain(autoDomainAutomatically, old(domain), GetExtent(pull))
      ensures warnings == old(warnings)
        + (if autoDomainAutomatically && RejectsDomain(GetExtent(pull)) then [NonFiniteDomainWarning] else [])
    {
      if autoDomainAutomatically {
        SetDomain(GetExtent(pull));
      }
    }

    // --- domainer ------------------------------------------------------

    /** `domainer()`. */
    method GetDomainer() returns (d: Domainer)
      ensures d == domainer
    {
      d := domainer;
    }

    /**
     * `domainer(d)`: stores `d`, records that the user chose it, and
     * recomputes the domain with it when in automatic mode.
     */
    method SetDomainer(d: Domainer, pull: Pull)
      modifies this`domainer, this`userSetDomainer, this`domain, this`warnings
      ensures domainer == d && userSetDomainer
      ensures domain == NextDomain(autoDomainAutomatically, old(domain), d(AllExtents(extentProviders, pull)))
      ensures warnings == old(warnings)
        + (if autoDomainAutomatically && RejectsDomain(d(AllExtents(extentProviders, pull))) then [NonFiniteDomainWarning] else [])
    {
      domainer := d;
      userSetDomainer := true;
      AutoDomainIfAutomaticMode(pull);
    }

    // --- ticks ---------------------------------------------------------

    /** `tickGenerator()`. */
    method GetTickGenerator() returns (g: TickGenerator)
      ensures g == tickGenerator
    {
      g := tickGenerator;
    }

    /** `tickGenerator(g)`: replaces the generator and nothing else. */
    method SetTickGenerator(g: TickGenerator)
      modifies this`tickGenerator
      ensures tickGenerator == g
    {
      tickGenerator := g;
    }

    /** `ticks()`: the current tick generator applied to this scale. */
    function Ticks(): (r: Result<seq<Num>>)
      reads this
      ensures tickGenerator.DefaultTicks? ==> r == GetDefaultTicks() && r.Failure?
      ensures tickGenerator.FromDomain? ==> r == Success(tickGenerator.ticksOf(domain))
    {
      match tickGenerator
      case DefaultTicks => GetDefaultTicks()
      case FromDomain(f) => Success(f(domain))
    }

    // --- operations the concrete scales must override ------------------

    /** `invert(value)` always fails on this class. */
    function Invert(value: Num): (r: Result<Num>)
      ensures r == Failure("Subclasses should override _invert")
    {
      Failure("Subclasses should override _invert")
    }

    /** `getDefaultTicks()` always fails on this class. */
    function GetDefaultTicks(): (r: Result<seq<Num>>)
      ensures r == Failure("Subclasses should override _getDefaultTicks")
    {
      Failure("Subclasses should override _getDefaultTicks")
    }

    /** `_niceDomain(domain, count?)` always fails on this class. */
    function NiceDomain(values: seq<Num>, count: Option<nat>): (r: Result<seq<Num>>)
      ensures r == Failure("Subclasses should override _niceDomain")
    {
      Failure("Subclasses should override _niceDomain")
    }

    /** `_defaultExtent()` always fails on this class. */
    function DefaultExtent(): (r: Result<seq<Num>>)
      ensures r == Failure("Subclasses should override _defaultExtent")
    {
      Failure("Subclasses should override _defaultExtent")
    }

    // --- extent of raw data --------------------------------------------

    /**
     * `getExtentFromDomain(data)`: `[]` when `d3.extent` finds no bound
     * (every value NaN, or no value at all), and otherwise `[min, max]`.
     */
    static function GetExtentFromDomain(data: seq<Num>): (r: Extent)
      ensures r == [] <==> AllNaN(data)
      ensures r != [] ==> |r| == 2 && IsExtentOf(Bounds(r[0], r[1]), data)
    {
      D3ExtentSpec(data);
      match D3Extent(data)
      case None => []
      case Some(b) => [b.lo, b.hi]
    }
  }
}
