/** Rwandan PAYE (pay-as-you-earn income tax) on a monthly gross, by brackets. */
module Tax {

  /** PAYE on a monthly gross. Brackets: nothing up to 60000, 10% of the part
      above 60000 up to 100000, then 4000 plus 20% of the part above 100000 up
      to 200000, then 24000 plus 30% of the part above 200000. A negative gross
      falls in the first bracket. */
  function Paye(g: real): (tax: real)
    ensures 0.0 <= tax
    ensures tax <= 0.30 * (if g > 0.0 then g else 0.0)
  {
    if g <= 60000.0 then 0.0
    else if g <= 100000.0 then 0.10 * (g - 60000.0)
    else if g <= 200000.0 then 4000.0 + 0.20 * (g - 100000.0)
    else 24000.0 + 0.30 * (g - 200000.0)
  }

  /** One marginal band: the part of the gross above `floor` (and below the
      next band's floor) is taxed at `rate`. */
  datatype Band = Band(floor: real, rate: real)

  /** The Rwandan monthly bands as marginal rates, without the bracket bases. */
  const RwandaBands: seq<Band> := [Band(60000.0, 0.10), Band(100000.0, 0.20), Band(200000.0, 0.30)]

  /** Tax by marginal bands: each band taxes the slice of `g` that lies between
      its own floor and the next band's floor (the last band is unbounded). */
  function BandTax(bands: seq<Band>, g: real): (tax: real)
    decreases |bands|
  {
    if bands == [] then 0.0
    else
      var top := if |bands| > 1 && bands[1].floor < g then bands[1].floor else g;
      (if top > bands[0].floor then bands[0].rate * (top - bands[0].floor) else 0.0)
      + BandTax(bands[1..], g)
  }

  /** The bracket formula with its bases 4000 and 24000 is the marginal-band
      tax: the bases are exactly the tax accumulated in the lower bands, so the
      brackets join without a jump at 100000 and 200000. */
  lemma PayeIsBandTax(g: real)
    ensures Paye(g) == BandTax(RwandaBands, g)
  {
    var b := RwandaBands;
    assert b[1..][1..][1..] == [];
    assert BandTax(b[1..][1..][1..], g) == 0.0;
    var t2 := if g > 200000.0 then 0.30 * (g - 200000.0) else 0.0;
    assert BandTax(b[1..][1..], g) == t2;
    var t1 := (if g > 100000.0 then 0.20 * ((if g > 200000.0 then 200000.0 else g) - 100000.0) else 0.0) + t2;
    assert BandTax(b[1..], g) == t1;
  }

  /** PAYE never decreases as the gross grows, and each extra unit of gross
      costs at most 30% in tax (so the function is continuous). */
  lemma PayeMarginal(g1: real, g2: real)
    requires g1 <= g2
    ensures 0.0 <= Paye(g2) - Paye(g1) <= 0.30 * (g2 - g1)
  {
  }
}
