/**
 * Hexbin value accumulation in js/main.js: `interpolateCancerRates` and
 * `interpolateNitrateRates` walk the hexbins `turf.interpolate` produced and
 * push each one's interpolated property onto a module-level array that is
 * never cleared. The hexbins are an input here; the interpolation is not modelled.
 */
module Hexbins {

  /** A hexbin cell of the interpolated grid, reduced to its numeric properties. */
  datatype Hexbin = Hexbin(properties: map<string, real>)

  /** The property the cancer-rate interpolation writes on each cell. */
  const CanRate: string := "canrate"

  /** The property the nitrate interpolation writes on each cell. */
  const NitrateRate: string := "nitr_ran"

  /** Every hexbin carries property `key`, as `turf.interpolate` guarantees for `options.property`. */
  ghost predicate AllHave(hexbins: seq<Hexbin>, key: string)
  {
    forall i :: 0 <= i < |hexbins| ==> key in hexbins[i].properties
  }

  /** The values of property `key`, one per hexbin, in feature order. */
  function PropertyValues(hexbins: seq<Hexbin>, key: string): (r: seq<real>)
    requires AllHave(hexbins, key)
    ensures |r| == |hexbins|
    ensures forall i :: 0 <= i < |hexbins| ==> r[i] == hexbins[i].properties[key]
  {
    if |hexbins| == 0 then []
    else PropertyValues(hexbins[..|hexbins| - 1], key) + [hexbins[|hexbins| - 1].properties[key]]
  }

  /** Reading two batches of hexbins gives the first batch's values followed by the second's. */
  lemma PropertyValuesAppend(h1: seq<Hexbin>, h2: seq<Hexbin>, key: string)
    requires AllHave(h1, key) && AllHave(h2, key)
    ensures AllHave(h1 + h2, key)
    ensures PropertyValues(h1 + h2, key) == PropertyValues(h1, key) + PropertyValues(h2, key)
  {
    assert forall i :: 0 <= i < |h1| ==> (h1 + h2)[i] == h1[i];
    assert forall i :: 0 <= i < |h2| ==> (h1 + h2)[|h1| + i] == h2[i];
  }

  /** The two module-level arrays `interpolatedNitrateRatesArray` and `interpolatedCancerRatesArray`. */
  class InterpolatedRates {
    var nitrateRates: seq<real>
    var cancerRates: seq<real>

    /** Both arrays start empty when the script loads. */
    constructor ()
      ensures nitrateRates == [] && cancerRates == []
    {
      nitrateRates := [];
      cancerRates := [];
    }

    /**
     * The loop of `interpolateCancerRates`: one value per hexbin, in order,
     * appended after whatever the array already held; the nitrate array is untouched.
     */
    method InterpolateCancerRates(hexbins: seq<Hexbin>)
      requires AllHave(hexbins, CanRate)
      modifies this
      ensures cancerRates == old(cancerRates) + PropertyValues(hexbins, CanRate)
      ensures |cancerRates| == |old(cancerRates)| + |hexbins|
      ensures nitrateRates == old(nitrateRates)
    {
      for i := 0 to |hexbins|
        invariant cancerRates == old(cancerRates) + PropertyValues(hexbins[..i], CanRate)
        invariant nitrateRates == old(nitrateRates)
      {
        assert hexbins[..i + 1] == hexbins[..i] + [hexbins[i]];
        PropertyValuesAppend(hexbins[..i], [hexbins[i]], CanRate);
        cancerRates := cancerRates + [hexbins[i].properties[CanRate]];
      }
      assert hexbins[..|hexbins|] == hexbins;
    }

    /**
     * The loop of `interpolateNitrateRates`: one value per hexbin, in order,
     * appended after whatever the array already held; the cancer array is untouched.
     */
    method InterpolateNitrateRates(hexbins: seq<Hexbin>)
      requires AllHave(hexbins, NitrateRate)
      modifies this
      ensures nitrateRates == old(nitrateRates) + PropertyValues(hexbins, NitrateRate)
      ensures |nitrateRates| == |old(nitrateRates)| + |hexbins|
      ensures cancerRates == old(cancerRates)
    {
      for i := 0 to |hexbins|
        invariant nitrateRates == old(nitrateRates) + PropertyValues(hexbins[..i], NitrateRate)
        invariant cancerRates == old(cancerRates)
      {
        assert hexbins[..i + 1] == hexbins[..i] + [hexbins[i]];
        PropertyValuesAppend(hexbins[..i], [hexbins[i]], NitrateRate);
        nitrateRates := nitrateRates + [hexbins[i].properties[NitrateRate]];
      }
      assert hexbins[..|hexbins|] == hexbins;
    }
  }

  /**
   * Because the arrays are never cleared, interpolating the same grid twice
   * leaves every value in the array twice: the accumulation is not idempotent.
   */
  method InterpolateCancerTwice(hexbins: seq<Hexbin>) returns (rates: seq<real>)
    requires AllHave(hexbins, CanRate)
    ensures rates == PropertyValues(hexbins, CanRate) + PropertyValues(hexbins, CanRate)
    ensures |hexbins| > 0 ==> rates != PropertyValues(hexbins, CanRate)
  {
    var arrays := new InterpolatedRates();
    arrays.InterpolateCancerRates(hexbins);
    arrays.InterpolateCancerRates(hexbins);
    rates := arrays.cancerRates;
  }
}
