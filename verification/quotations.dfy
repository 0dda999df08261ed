/** The provider's fixed-point price: a whole part `units` and a fractional part `nano`, in 10^-9 units. */
module Quotations {
  import opened Wrappers
  import opened Numeric

  const NanosPerUnit: int := 1_000_000_000

  /** A quotation object as decoded from JSON; a field is `None` when missing or null. */
  datatype RawQuotation = RawQuotation(units: Option<int>, nano: Option<int>)

  /** The exact value of a quotation counted in nanos; a missing field counts as 0. */
  function Nanos(q: Option<RawQuotation>): int {
    match q
    case None => 0
    case Some(raw) => raw.units.GetOr(0) * NanosPerUnit + raw.nano.GetOr(0)
  }

  /** `_quotation_to_float`: `units + nano / 10^9`, 0 for a missing quotation; exact here. */
  function ToReal(q: Option<RawQuotation>): (r: real)
    ensures r * NanosPerUnit as real == Nanos(q) as real
  {
    match q
    case None => 0.0
    case Some(raw) => raw.units.GetOr(0) as real + raw.nano.GetOr(0) as real / NanosPerUnit as real
  }

  /** A missing quotation, an empty one and one with missing fields all read as zero. */
  lemma MissingQuotationIsZero(units: Option<int>, nano: Option<int>)
    ensures ToReal(None) == 0.0
    ensures ToReal(Some(RawQuotation(None, None))) == 0.0
    ensures ToReal(Some(RawQuotation(units, None))) == units.GetOr(0) as real
    ensures ToReal(Some(RawQuotation(None, nano))) * NanosPerUnit as real == nano.GetOr(0) as real
  {
  }

  /** A quotation reads as zero (and so as "absent" to a truthiness test) exactly when its nano count is zero. */
  lemma ZeroIffNoNanos(q: Option<RawQuotation>)
    ensures ToReal(q) == 0.0 <==> Nanos(q) == 0
  {
  }

  /** With the fractional part in [0, 10^9), `units` is the integer part and `nano` the fraction in nanos. */
  lemma QuotationParts(units: int, nano: int)
    requires 0 <= nano < NanosPerUnit
    ensures ToReal(Some(RawQuotation(Some(units), Some(nano)))).Floor == units
    ensures (ToReal(Some(RawQuotation(Some(units), Some(nano)))) - units as real) * NanosPerUnit as real == nano as real
  {
    var r := ToReal(Some(RawQuotation(Some(units), Some(nano))));
    assert r == units as real + nano as real / NanosPerUnit as real;
    assert 0.0 <= nano as real / NanosPerUnit as real < 1.0;
  }

  /** `round(p, 4) if p else None`: the reported form of a price; zero is reported as absent. */
  function Reported(p: real): (r: Option<real>)
    ensures r.None? <==> p == 0.0
    ensures r.Some? ==> -0.5 <= (r.value - p) * Pow10(4) <= 0.5
  {
    if p != 0.0 then
      RoundError(p, 4);
      Some(Round(p, 4))
    else None
  }

  /** A quotation for a whole number of units, as the provider sends `{"units": n, "nano": 0}`. */
  function Whole(units: int): (q: Option<RawQuotation>)
    ensures ToReal(q) == units as real
  {
    Some(RawQuotation(Some(units), Some(0)))
  }
}
