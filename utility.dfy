/**
 * The shared pricing functions: the RAM tier lookup, the linear storage
 * price, the three-band data-transfer price with its hard ceiling, and the
 * total that first enforces the RAM tier's minimum storage.
 */
module Utility {
  import opened JsValues
  import opened Tariffs

  /** Upper limit for data transfer, in GB. */
  const MaxDataTransferGb: int := 5000

  /** What the RAM lookup yields: the monthly price and the minimum storage for that tier. */
  datatype CompQuote = CompQuote(compPrice: real, minStorageRequired: int)

  /** How a JavaScript function that may `return;` or `throw` ends. */
  datatype Returned<+T> = Returns(value: T) | ReturnsUndefined | Throws(error: PriceError)

  /**
   * Matches `ramGb` strictly against the three tier sizes, first match first;
   * a tier's missing or zero minimum storage counts as 0.
   */
  function ComputeComputationPrice(ramGb: int, cd: Option<ComputationRecord>): (r: Returned<CompQuote>)
    ensures r.ReturnsUndefined? <==> cd.None?
    ensures r.Throws? <==> cd.Some? && NoMatch(cd.value, ramGb)
    ensures r.Throws? ==> r.error == InvalidRamSize(ramGb)
    ensures r.Returns? ==> forall i :: 1 <= i <= 3 && FirstMatch(cd.value, ramGb, i) ==>
              r.value == CompQuote(Tier(cd.value, i).price, OrDefault(Tier(cd.value, i).minStorage, 0))
  {
    match cd
    case None => ReturnsUndefined
    case Some(c) =>
      assert Tier(c, 1).ram == c.ramTier1 && Tier(c, 2).ram == c.ramTier2 && Tier(c, 3).ram == c.ramTier3;
      if ramGb == c.ramTier1 then Returns(CompQuote(c.priceTier1, OrDefault(c.minStorageTier1, 0)))
      else if ramGb == c.ramTier2 then Returns(CompQuote(c.priceTier2, OrDefault(c.minStorageTier2, 0)))
      else if ramGb == c.ramTier3 then Returns(CompQuote(c.priceTier3, OrDefault(c.minStorageTier3, 0)))
      else Throws(InvalidRamSize(ramGb))
  }

  /** Storage is priced per TB with no tiering; `undefined` when there is no storage record. */
  function ComputeStoragePrice(storageTb: int, sd: Option<StorageRecord>): (r: Option<real>)
    ensures r.Some? <==> sd.Some?
  {
    match sd
    case None => None
    case Some(s) => Some(storageTb as real * s.price)
  }

  /** Band 1 formula: base price plus the overage into band 1, amortised over the base tier. */
  function Band1Price(t: DataTransferRecord, dataGb: int): (r: real)
    requires t.baseTier != 0
  {
    var bt := t.baseTier as real;
    t.basePrice + ((dataGb as real - bt) / bt) * (t.basePrice * t.tier1Multiplier)
  }

  /** Band 2 formula: base price, the whole of band 1, and the overage into band 2. */
  function Band2Price(t: DataTransferRecord, dataGb: int): (r: real)
    requires t.baseTier != 0
  {
    var bt, t1 := t.baseTier as real, t.tier1 as real;
    t.basePrice + (t1 / bt) * (t.basePrice * t.tier1Multiplier)
      + ((dataGb as real - bt - t1) / bt) * (t.basePrice * t.tier2Multiplier)
  }

  /** The banded data price without a ceiling; the band is chosen by the two guards of the source. */
  function BandedPrice(t: DataTransferRecord, dataGb: int): (r: real)
    requires t.baseTier != 0
  {
    if dataGb > t.baseTier && dataGb - t.baseTier <= t.tier1 then Band1Price(t, dataGb)
    else if dataGb - t.baseTier > t.tier1 then Band2Price(t, dataGb)
    else t.basePrice
  }

  /** Data-transfer price: `undefined` without a record, 0 above the ceiling, else the banded price. */
  function ComputeDataTransferPrice(dataGb: int, dtd: Option<DataTransferRecord>): (r: Option<real>)
    requires HasBaseTier(dtd)
    ensures r.Some? <==> dtd.Some?
    ensures dtd.Some? && dataGb > MaxDataTransferGb ==> r == Some(0.0)
  {
    match dtd
    case None => None
    case Some(t) => if dataGb > MaxDataTransferGb then Some(0.0) else Some(BandedPrice(t, dataGb))
  }

  /** The RAM matches a tier and the storage is below that tier's minimum (a missing minimum counts as 0). */
  predicate StorageBelowTierMinimum(ramGb: int, storageTb: int, cd: Option<ComputationRecord>) {
    var q := ComputeComputationPrice(ramGb, cd);
    q.Returns? && storageTb < q.value.minStorageRequired
  }

  /** The RAM matches a tier and the storage meets that tier's minimum. */
  predicate PassesTierCheck(ramGb: int, storageTb: int, cd: Option<ComputationRecord>) {
    var q := ComputeComputationPrice(ramGb, cd);
    q.Returns? && storageTb >= q.value.minStorageRequired
  }

  /**
   * Total price. Fails when the RAM lookup fails (destructuring an `undefined`
   * quote is itself a TypeError) or when the storage is below the tier's
   * minimum; a missing storage or data-transfer record makes the sum `NaN`.
   */
  function ComputePrice(ramGb: int, storageTb: int, dataGb: int,
                        cd: Option<ComputationRecord>, sd: Option<StorageRecord>,
                        dtd: Option<DataTransferRecord>): (r: Result<Num, PriceError>)
    requires HasBaseTier(dtd)
    ensures r.Err? && r.error == ComputationQuoteUndefined <==> cd.None?
    ensures r.Err? && r.error.InvalidRamSize? <==> cd.Some? && NoMatch(cd.value, ramGb)
    ensures r.Err? && r.error.InvalidRamSize? ==> r.error == InvalidRamSize(ramGb)
    ensures r.Err? && r.error.StorageTooLow? <==> StorageBelowTierMinimum(ramGb, storageTb, cd)
    ensures r.Err? && r.error.StorageTooLow? ==>
              r.error == StorageTooLow(ramGb, ComputeComputationPrice(ramGb, cd).value.minStorageRequired)
    ensures r.Ok? <==> PassesTierCheck(ramGb, storageTb, cd)
    ensures r.Ok? ==> (r.value.NaN? <==> sd.None? || dtd.None?)
  {
    match ComputeComputationPrice(ramGb, cd)
    case ReturnsUndefined => Err(ComputationQuoteUndefined)
    case Throws(e) => Err(e)
    case Returns(q) =>
      if storageTb < q.minStorageRequired then Err(StorageTooLow(ramGb, q.minStorageRequired))
      else Ok(SumWithUndefined(q.compPrice,
                               ComputeStoragePrice(storageTb, sd),
                               ComputeDataTransferPrice(dataGb, dtd)))
  }

  // ---------------------------------------------------------------------------
  // Properties of the RAM lookup

  /** Each tier is found by its own size unless an earlier tier has the same size. */
  lemma RamTierLookup(cd: ComputationRecord, i: int)
    requires 1 <= i <= 3 && FirstMatch(cd, Tier(cd, i).ram, i)
    ensures ComputeComputationPrice(Tier(cd, i).ram, Some(cd))
            == Returns(CompQuote(Tier(cd, i).price, OrDefault(Tier(cd, i).minStorage, 0)))
  {
  }

  /** When two tiers share a size the earlier one wins. */
  lemma FirstTierWins(cd: ComputationRecord)
    requires cd.ramTier1 == cd.ramTier2
    ensures ComputeComputationPrice(cd.ramTier2, Some(cd)).value.compPrice == cd.priceTier1
  {
  }

  // ---------------------------------------------------------------------------
  // Properties of the storage price

  /** The storage price is linear in the amount of storage. */
  lemma StoragePriceIsLinear(s: StorageRecord, a: int, b: int, k: int)
    ensures ComputeStoragePrice(0, Some(s)) == Some(0.0)
    ensures ComputeStoragePrice(a + b, Some(s)).value
            == ComputeStoragePrice(a, Some(s)).value + ComputeStoragePrice(b, Some(s)).value
    ensures ComputeStoragePrice(k * a, Some(s)).value == k as real * ComputeStoragePrice(a, Some(s)).value
  {
    assert (k * a) as real == k as real * a as real;
  }

  // ---------------------------------------------------------------------------
  // Properties of the data-transfer price

  function Max0(x: real): (r: real) { if x < 0.0 then 0.0 else x }

  function Clamp(x: real, lo: real, hi: real): (r: real)
    requires lo <= hi
  {
    if x < lo then lo else if x > hi then hi else x
  }

  /**
   * An independent reading of the tariff as marginal rates: the flat base price,
   * plus every GB in band 1 at `basePrice * tier1Multiplier / baseTier`, plus
   * every GB beyond band 1 at `basePrice * tier2Multiplier / baseTier`.
   */
  function MarginalPrice(t: DataTransferRecord, dataGb: int): (r: real)
    requires t.baseTier != 0 && t.tier1 >= 0
  {
    t.basePrice + Band1Charge(t, dataGb) + Band2Charge(t, dataGb)
  }

  /** The GBs of the request that fall in band 1, at the band-1 rate. */
  function Band1Charge(t: DataTransferRecord, dataGb: int): (r: real)
    requires t.baseTier != 0 && t.tier1 >= 0
  {
    Rate(t, t.tier1Multiplier) * Clamp(dataGb as real - t.baseTier as real, 0.0, t.tier1 as real)
  }

  /** The GBs of the request beyond band 1, at the band-2 rate. */
  function Band2Charge(t: DataTransferRecord, dataGb: int): (r: real)
    requires t.baseTier != 0
  {
    Rate(t, t.tier2Multiplier) * Max0(dataGb as real - t.baseTier as real - t.tier1 as real)
  }

  /** The price of one GB in a band with the given multiplier. */
  function Rate(t: DataTransferRecord, multiplier: real): (r: real)
    requires t.baseTier != 0
  {
    t.basePrice * multiplier / t.baseTier as real
  }

  lemma AmortisedIsRate(x: real, bt: real, c: real)
    requires bt != 0.0
    ensures (x / bt) * c == (c / bt) * x
  {
  }

  lemma Band1IsMarginal(t: DataTransferRecord, dataGb: int)
    requires t.baseTier != 0 && t.tier1 >= 0
    requires dataGb > t.baseTier && dataGb - t.baseTier <= t.tier1
    ensures Band1Price(t, dataGb) == MarginalPrice(t, dataGb)
  {
    var x := dataGb as real - t.baseTier as real;
    assert Clamp(x, 0.0, t.tier1 as real) == x;
    assert Band1Charge(t, dataGb) == Rate(t, t.tier1Multiplier) * x;
    assert Max0(x - t.tier1 as real) == 0.0;
    assert Band2Charge(t, dataGb) == 0.0;
    AmortisedIsRate(x, t.baseTier as real, t.basePrice * t.tier1Multiplier);
  }

  lemma Band2IsMarginal(t: DataTransferRecord, dataGb: int)
    requires t.baseTier != 0 && t.tier1 >= 0
    requires dataGb - t.baseTier > t.tier1
    ensures Band2Price(t, dataGb) == MarginalPrice(t, dataGb)
  {
    var bt, t1 := t.baseTier as real, t.tier1 as real;
    var x := dataGb as real - bt;
    assert Clamp(x, 0.0, t1) == t1;
    assert Band1Charge(t, dataGb) == Rate(t, t.tier1Multiplier) * t1;
    assert Max0(x - t1) == x - t1;
    assert Band2Charge(t, dataGb) == Rate(t, t.tier2Multiplier) * (x - t1);
    AmortisedIsRate(t1, bt, t.basePrice * t.tier1Multiplier);
    AmortisedIsRate(x - t1, bt, t.basePrice * t.tier2Multiplier);
  }

  lemma BaseBandIsMarginal(t: DataTransferRecord, dataGb: int)
    requires t.baseTier != 0 && t.tier1 >= 0
    requires dataGb <= t.baseTier
    ensures t.basePrice == MarginalPrice(t, dataGb)
  {
    var x := dataGb as real - t.baseTier as real;
    assert Clamp(x, 0.0, t.tier1 as real) == 0.0;
    assert Band1Charge(t, dataGb) == 0.0;
    assert Max0(x - t.tier1 as real) == 0.0;
    assert Band2Charge(t, dataGb) == 0.0;
  }

  /** The banded formula of the source is the marginal-rate tariff. */
  lemma BandedPriceIsMarginal(t: DataTransferRecord, dataGb: int)
    requires t.baseTier != 0 && t.tier1 >= 0
    ensures BandedPrice(t, dataGb) == MarginalPrice(t, dataGb)
  {
    if dataGb > t.baseTier && dataGb - t.baseTier <= t.tier1 {
      Band1IsMarginal(t, dataGb);
    } else if dataGb - t.baseTier > t.tier1 {
      Band2IsMarginal(t, dataGb);
    } else {
      BaseBandIsMarginal(t, dataGb);
    }
  }

  /** Up to and including the base tier (0 included) the price is the flat base price. */
  lemma BaseBandIsFlat(t: DataTransferRecord, dataGb: int)
    requires t.baseTier != 0 && t.tier1 >= 0 && dataGb <= t.baseTier && dataGb <= MaxDataTransferGb
    ensures ComputeDataTransferPrice(dataGb, Some(t)) == Some(t.basePrice)
  {
  }

  /** Inside band 1 the overage is divided by the base tier, not by the band width. */
  lemma Band1Formula(t: DataTransferRecord, dataGb: int)
    requires t.baseTier != 0 && t.baseTier < dataGb <= t.baseTier + t.tier1 && dataGb <= MaxDataTransferGb
    ensures ComputeDataTransferPrice(dataGb, Some(t)) == Some(t.basePrice
              + ((dataGb - t.baseTier) as real / t.baseTier as real) * (t.basePrice * t.tier1Multiplier))
  {
    assert BandedPrice(t, dataGb) == Band1Price(t, dataGb);
    assert ComputeDataTransferPrice(dataGb, Some(t)) == Some(Band1Price(t, dataGb));
    assert (dataGb - t.baseTier) as real == dataGb as real - t.baseTier as real;
    assert Band1Price(t, dataGb) == t.basePrice
             + ((dataGb - t.baseTier) as real / t.baseTier as real) * (t.basePrice * t.tier1Multiplier);
  }

  /** Beyond band 1, band 1 is charged at its full width and the rest at the band-2 multiplier. */
  lemma Band2Formula(t: DataTransferRecord, dataGb: int)
    requires t.baseTier != 0 && dataGb - t.baseTier > t.tier1 && dataGb <= MaxDataTransferGb
    ensures ComputeDataTransferPrice(dataGb, Some(t)) == Some(t.basePrice
              + (t.tier1 as real / t.baseTier as real) * (t.basePrice * t.tier1Multiplier)
              + ((dataGb - t.baseTier - t.tier1) as real / t.baseTier as real) * (t.basePrice * t.tier2Multiplier))
  {
    assert BandedPrice(t, dataGb) == Band2Price(t, dataGb);
    assert ComputeDataTransferPrice(dataGb, Some(t)) == Some(Band2Price(t, dataGb));
    assert (dataGb - t.baseTier - t.tier1) as real == dataGb as real - t.baseTier as real - t.tier1 as real;
    assert Band2Price(t, dataGb) == t.basePrice
             + (t.tier1 as real / t.baseTier as real) * (t.basePrice * t.tier1Multiplier)
             + ((dataGb - t.baseTier - t.tier1) as real / t.baseTier as real) * (t.basePrice * t.tier2Multiplier);
  }

  /** The band formulas agree where the bands meet. */
  lemma BandsMeet(t: DataTransferRecord)
    requires t.baseTier != 0
    ensures Band1Price(t, t.baseTier) == t.basePrice
    ensures Band1Price(t, t.baseTier + t.tier1) == Band2Price(t, t.baseTier + t.tier1)
  {
  }

  /** Exactly at the end of band 1 the price is base plus the whole of band 1, with nothing from band 2. */
  lemma EndOfBand1(t: DataTransferRecord)
    requires t.baseTier != 0 && t.tier1 >= 0 && t.baseTier + t.tier1 <= MaxDataTransferGb
    ensures ComputeDataTransferPrice(t.baseTier + t.tier1, Some(t)) == Some(t.basePrice
              + (t.tier1 as real / t.baseTier as real) * (t.basePrice * t.tier1Multiplier))
  {
    var d := t.baseTier + t.tier1;
    if t.tier1 == 0 {
      assert ComputeDataTransferPrice(d, Some(t)) == Some(t.basePrice);
    } else {
      assert ComputeDataTransferPrice(d, Some(t)) == Some(Band1Price(t, d));
      assert d as real - t.baseTier as real == t.tier1 as real;
      assert Band1Price(t, d) == t.basePrice
               + (t.tier1 as real / t.baseTier as real) * (t.basePrice * t.tier1Multiplier);
    }
  }

  lemma ScaleMonotone(r: real, x: real, y: real)
    requires r >= 0.0 && x <= y
    ensures r * x <= r * y
  {
    assert r * y - r * x == r * (y - x);
  }

  lemma RateNonNegative(t: DataTransferRecord, multiplier: real)
    requires WellFormedDataTariff(t) && multiplier >= 0.0
    ensures Rate(t, multiplier) >= 0.0
  {
    assert t.basePrice * multiplier >= 0.0;
  }

  lemma ClampMonotone(x: real, y: real, lo: real, hi: real)
    requires lo <= hi && x <= y
    ensures Clamp(x, lo, hi) <= Clamp(y, lo, hi)
  {
  }

  lemma Max0Monotone(x: real, y: real)
    requires x <= y
    ensures Max0(x) <= Max0(y)
  {
  }

  /** The charge for the part of a request that falls in band 1 never decreases with the request. */
  lemma Band1ChargeMonotone(t: DataTransferRecord, d1: int, d2: int)
    requires WellFormedDataTariff(t) && d1 <= d2
    ensures Band1Charge(t, d1) <= Band1Charge(t, d2)
  {
    RateNonNegative(t, t.tier1Multiplier);
    ClampMonotone(d1 as real - t.baseTier as real, d2 as real - t.baseTier as real, 0.0, t.tier1 as real);
    ScaleMonotone(Rate(t, t.tier1Multiplier),
                  Clamp(d1 as real - t.baseTier as real, 0.0, t.tier1 as real),
                  Clamp(d2 as real - t.baseTier as real, 0.0, t.tier1 as real));
  }

  /** The charge for the part of a request beyond band 1 never decreases with the request. */
  lemma Band2ChargeMonotone(t: DataTransferRecord, d1: int, d2: int)
    requires WellFormedDataTariff(t) && d1 <= d2
    ensures Band2Charge(t, d1) <= Band2Charge(t, d2)
  {
    RateNonNegative(t, t.tier2Multiplier);
    Max0Monotone(d1 as real - t.baseTier as real - t.tier1 as real, d2 as real - t.baseTier as real - t.tier1 as real);
    ScaleMonotone(Rate(t, t.tier2Multiplier),
                  Max0(d1 as real - t.baseTier as real - t.tier1 as real),
                  Max0(d2 as real - t.baseTier as real - t.tier1 as real));
  }

  /** The marginal-rate reading never decreases as more data is requested. */
  lemma MarginalPriceMonotone(t: DataTransferRecord, d1: int, d2: int)
    requires WellFormedDataTariff(t) && d1 <= d2
    ensures MarginalPrice(t, d1) <= MarginalPrice(t, d2)
  {
    Band1ChargeMonotone(t, d1, d2);
    Band2ChargeMonotone(t, d1, d2);
  }

  /** With a well-formed tariff the price never decreases as more data is requested, up to the ceiling. */
  lemma DataPriceMonotone(t: DataTransferRecord, d1: int, d2: int)
    requires WellFormedDataTariff(t) && d1 <= d2 <= MaxDataTransferGb
    ensures ComputeDataTransferPrice(d1, Some(t)).value <= ComputeDataTransferPrice(d2, Some(t)).value
  {
    BandedPriceIsMarginal(t, d1);
    BandedPriceIsMarginal(t, d2);
    MarginalPriceMonotone(t, d1, d2);
    assert ComputeDataTransferPrice(d1, Some(t)) == Some(BandedPrice(t, d1));
    assert ComputeDataTransferPrice(d2, Some(t)) == Some(BandedPrice(t, d2));
  }

  /** With a well-formed tariff the banded price is never below the base price. */
  lemma BandedPriceAtLeastBase(t: DataTransferRecord, dataGb: int)
    requires WellFormedDataTariff(t)
    ensures BandedPrice(t, dataGb) >= t.basePrice
  {
    var low := if dataGb < t.baseTier then dataGb else t.baseTier;
    BandedPriceIsMarginal(t, low);
    BandedPriceIsMarginal(t, dataGb);
    MarginalPriceMonotone(t, low, dataGb);
    assert BandedPrice(t, low) == t.basePrice;
  }

  /** At the ceiling the request is priced normally; one GB above it it costs nothing. */
  lemma CeilingIsNotAnError(t: DataTransferRecord)
    requires t.baseTier != 0
    ensures ComputeDataTransferPrice(MaxDataTransferGb, Some(t)) == Some(BandedPrice(t, MaxDataTransferGb))
    ensures ComputeDataTransferPrice(MaxDataTransferGb + 1, Some(t)) == Some(0.0)
  {
  }

  // ---------------------------------------------------------------------------
  // Properties of the total

  /** The storage check does not depend on the data requested: any failure is the same for every `dataGb`. */
  lemma FailureIndependentOfData(ramGb: int, storageTb: int, d1: int, d2: int,
                                 cd: Option<ComputationRecord>, sd: Option<StorageRecord>,
                                 dtd: Option<DataTransferRecord>)
    requires HasBaseTier(dtd)
    requires ComputePrice(ramGb, storageTb, d1, cd, sd, dtd).Err?
    ensures ComputePrice(ramGb, storageTb, d2, cd, sd, dtd) == ComputePrice(ramGb, storageTb, d1, cd, sd, dtd)
  {
  }

  /** Passing the tier check with every record present yields computation + storage + data-transfer price. */
  lemma TotalIsSumOfComponents(ramGb: int, storageTb: int, dataGb: int,
                               cd: ComputationRecord, s: StorageRecord, t: DataTransferRecord)
    requires t.baseTier != 0
    requires PassesTierCheck(ramGb, storageTb, Some(cd))
    ensures ComputePrice(ramGb, storageTb, dataGb, Some(cd), Some(s), Some(t)) == Ok(Finite(
              ComputeComputationPrice(ramGb, Some(cd)).value.compPrice
              + storageTb as real * s.price
              + ComputeDataTransferPrice(dataGb, Some(t)).value))
  {
    var q := ComputeComputationPrice(ramGb, Some(cd));
    var sp, dp := ComputeStoragePrice(storageTb, Some(s)), ComputeDataTransferPrice(dataGb, Some(t));
    assert q.Returns? && storageTb >= q.value.minStorageRequired;
    assert sp.Some? && sp.value == storageTb as real * s.price;
    assert SumWithUndefined(q.value.compPrice, sp, dp) == Finite(q.value.compPrice + sp.value + dp.value);
  }

  /** Two worked examples: 10 + 2 + 1 at the end of the base tier, and 10 + 2 + 2.6 at the end of band 1. */
  lemma WorkedExamples()
    ensures var cd := ComputationRecord(Some(1), 16, 32, 64, 10.0, 20.0, 40.0, Some(1), Some(2), Some(4));
            var s := StorageRecord(2.0, Some(1), Some(100));
            var t := DataTransferRecord(1.0, 10, 20, 0.8, 0.5);
            && ComputePrice(16, 1, 10, Some(cd), Some(s), Some(t)) == Ok(Finite(13.0))
            && ComputePrice(16, 1, 30, Some(cd), Some(s), Some(t)) == Ok(Finite(14.6))
  {
  }
}
