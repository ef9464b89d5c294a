/**
 * The order form's own copy of the total price. It repeats the RAM tier
 * match and the data-transfer bands of the shared pricing functions in its
 * own code, throws a distinct error for each missing tariff record, and has
 * no data-transfer ceiling.
 */
module LayoutPricing {
  import opened JsValues
  import opened Tariffs
  import opened Utility

  /** The form's RAM `if` chain: strict, first match first, a missing or zero minimum counts as 0. */
  function TierQuote(ramGb: int, c: ComputationRecord): (r: Option<CompQuote>)
    ensures r.None? <==> NoMatch(c, ramGb)
    ensures forall i :: 1 <= i <= 3 && FirstMatch(c, ramGb, i) ==>
              r == Some(CompQuote(Tier(c, i).price, OrDefault(Tier(c, i).minStorage, 0)))
  {
    assert Tier(c, 1).ram == c.ramTier1 && Tier(c, 2).ram == c.ramTier2 && Tier(c, 3).ram == c.ramTier3;
    if ramGb == c.ramTier1 then Some(CompQuote(c.priceTier1, OrDefault(c.minStorageTier1, 0)))
    else if ramGb == c.ramTier2 then Some(CompQuote(c.priceTier2, OrDefault(c.minStorageTier2, 0)))
    else if ramGb == c.ramTier3 then Some(CompQuote(c.priceTier3, OrDefault(c.minStorageTier3, 0)))
    else None
  }

  /** The form's `if` chain picks the same tier as the shared `switch`. */
  lemma TierQuoteIsShared(ramGb: int, c: ComputationRecord)
    ensures TierQuote(ramGb, c).None? <==> ComputeComputationPrice(ramGb, Some(c)).Throws?
    ensures TierQuote(ramGb, c).Some? ==> ComputeComputationPrice(ramGb, Some(c)) == Returns(TierQuote(ramGb, c).value)
  {
    if !NoMatch(c, ramGb) {
      var i := if c.ramTier1 == ramGb then 1 else if c.ramTier2 == ramGb then 2 else 3;
      assert FirstMatch(c, ramGb, i);
    }
  }

  /** The form's data price: the base price, plus the overage of whichever band the request reaches. */
  function DataPrice(t: DataTransferRecord, dataGb: int): (r: real)
    requires t.baseTier != 0
  {
    var basePrice, baseTier, tier1 := t.basePrice, t.baseTier as real, t.tier1 as real;
    var d := dataGb as real;
    var extra :=
      if dataGb > t.baseTier && dataGb - t.baseTier <= t.tier1 then
        ((d - baseTier) / baseTier) * (basePrice * t.tier1Multiplier)
      else if dataGb - t.baseTier > t.tier1 then
        (tier1 / baseTier) * (basePrice * t.tier1Multiplier)
        + ((d - baseTier - tier1) / baseTier) * (basePrice * t.tier2Multiplier)
      else 0.0;
    basePrice + extra
  }

  /** The form's data formula is the shared banded price, for every amount. */
  lemma DataPriceIsBanded(t: DataTransferRecord, dataGb: int)
    requires t.baseTier != 0
    ensures DataPrice(t, dataGb) == BandedPrice(t, dataGb)
  {
  }

  /**
   * Total price: RAM tier lookup, then the storage minimum (before any storage
   * or data record is consulted), then storage and data-transfer prices.
   */
  function ComputePrice(ramGb: int, storageTb: int, dataGb: int,
                        cd: Option<ComputationRecord>, sd: Option<StorageRecord>,
                        dtd: Option<DataTransferRecord>): (r: Result<real, PriceError>)
    requires HasBaseTier(dtd)
    ensures r == Err(NoComputationService) <==> cd.None?
    ensures r.Err? && r.error.InvalidRamSize? <==> cd.Some? && NoMatch(cd.value, ramGb)
    ensures r.Err? && r.error.InvalidRamSize? ==> r.error.ram == ramGb
    ensures r.Err? && r.error.StorageTooLow? <==> StorageBelowTierMinimum(ramGb, storageTb, cd)
    ensures r.Err? && r.error.StorageTooLow? ==>
              r.error == StorageTooLow(ramGb, ComputeComputationPrice(ramGb, cd).value.minStorageRequired)
    ensures r == Err(NoStorageService) <==> PassesTierCheck(ramGb, storageTb, cd) && sd.None?
    ensures r == Err(NoDataTransferService) <==> PassesTierCheck(ramGb, storageTb, cd) && sd.Some? && dtd.None?
    ensures r.Ok? <==> PassesTierCheck(ramGb, storageTb, cd) && sd.Some? && dtd.Some?
    ensures r.Ok? ==> r.value == ComputeComputationPrice(ramGb, cd).value.compPrice
                                 + storageTb as real * sd.value.price + BandedPrice(dtd.value, dataGb)
  {
    if cd.None? then Err(NoComputationService)
    else
      TierQuoteIsShared(ramGb, cd.value);
      match TierQuote(ramGb, cd.value)
      case None => Err(InvalidRamSize(ramGb))
      case Some(q) =>
        if storageTb < q.minStorageRequired then Err(StorageTooLow(ramGb, q.minStorageRequired))
        else if sd.None? then Err(NoStorageService)
        else if dtd.None? then Err(NoDataTransferService)
        else
          DataPriceIsBanded(dtd.value, dataGb);
          Ok(q.compPrice + storageTb as real * sd.value.price + DataPrice(dtd.value, dataGb))
  }

  /** A total of this copy, seen as a result of the shared copy (which returns numbers). */
  function AsSharedResult(r: Result<real, PriceError>): (s: Result<Num, PriceError>) {
    match r
    case Ok(p) => Ok(Finite(p))
    case Err(e) => Err(e)
  }

  /** Storage below the tier minimum fails the same way whatever storage and data records exist. */
  lemma StorageCheckComesFirst(ramGb: int, storageTb: int, dataGb: int, cd: Option<ComputationRecord>,
                               sd1: Option<StorageRecord>, dtd1: Option<DataTransferRecord>,
                               sd2: Option<StorageRecord>, dtd2: Option<DataTransferRecord>)
    requires HasBaseTier(dtd1) && HasBaseTier(dtd2)
    requires StorageBelowTierMinimum(ramGb, storageTb, cd)
    ensures ComputePrice(ramGb, storageTb, dataGb, cd, sd1, dtd1)
            == ComputePrice(ramGb, storageTb, dataGb, cd, sd2, dtd2)
            == Err(StorageTooLow(ramGb, ComputeComputationPrice(ramGb, cd).value.minStorageRequired))
  {
  }

  /** With every record present and the request within the ceiling, both copies give the same outcome. */
  lemma AgreesWithSharedBelowCeiling(ramGb: int, storageTb: int, dataGb: int,
                                     cd: ComputationRecord, s: StorageRecord, t: DataTransferRecord)
    requires t.baseTier != 0 && dataGb <= MaxDataTransferGb
    ensures Utility.ComputePrice(ramGb, storageTb, dataGb, Some(cd), Some(s), Some(t))
            == AsSharedResult(ComputePrice(ramGb, storageTb, dataGb, Some(cd), Some(s), Some(t)))
  {
    var local := ComputePrice(ramGb, storageTb, dataGb, Some(cd), Some(s), Some(t));
    if local.Ok? {
      TotalIsSumOfComponents(ramGb, storageTb, dataGb, cd, s, t);
      assert ComputeDataTransferPrice(dataGb, Some(t)) == Some(BandedPrice(t, dataGb));
    }
  }

  /**
   * Above the ceiling the shared copy charges nothing for data while this copy
   * keeps charging the banded price, which past band 1 is the band-2 formula.
   */
  lemma NoCeilingAboveMax(ramGb: int, storageTb: int, dataGb: int,
                          cd: ComputationRecord, s: StorageRecord, t: DataTransferRecord)
    requires t.baseTier != 0 && dataGb > MaxDataTransferGb
    requires ComputePrice(ramGb, storageTb, dataGb, Some(cd), Some(s), Some(t)).Ok?
    ensures var local := ComputePrice(ramGb, storageTb, dataGb, Some(cd), Some(s), Some(t)).value;
            var shared := Utility.ComputePrice(ramGb, storageTb, dataGb, Some(cd), Some(s), Some(t));
            && shared.Ok? && shared.value.Finite?
            && local == shared.value.amount + BandedPrice(t, dataGb)
            && (dataGb - t.baseTier > t.tier1 ==> local == shared.value.amount + Band2Price(t, dataGb))
  {
    TotalIsSumOfComponents(ramGb, storageTb, dataGb, cd, s, t);
  }

  /** On missing records the two copies fail differently; the shared one may even yield `NaN`. */
  lemma MissingRecordsDiffer(ramGb: int, storageTb: int, dataGb: int,
                             cd: Option<ComputationRecord>, t: Option<DataTransferRecord>)
    requires HasBaseTier(t)
    ensures cd.None? ==>
              && Utility.ComputePrice(ramGb, storageTb, dataGb, cd, None, t) == Err(ComputationQuoteUndefined)
              && ComputePrice(ramGb, storageTb, dataGb, cd, None, t) == Err(NoComputationService)
    ensures PassesTierCheck(ramGb, storageTb, cd) ==>
              && Utility.ComputePrice(ramGb, storageTb, dataGb, cd, None, t) == Ok(NaN)
              && ComputePrice(ramGb, storageTb, dataGb, cd, None, t) == Err(NoStorageService)
  {
  }

  /** With non-negative prices, well-formed bands and non-negative storage, a total is never negative. */
  lemma TotalNonNegative(ramGb: int, storageTb: int, dataGb: int,
                         cd: ComputationRecord, s: StorageRecord, t: DataTransferRecord)
    requires NonNegativeComputationPrices(cd) && s.price >= 0.0 && WellFormedDataTariff(t) && storageTb >= 0
    requires ComputePrice(ramGb, storageTb, dataGb, Some(cd), Some(s), Some(t)).Ok?
    ensures ComputePrice(ramGb, storageTb, dataGb, Some(cd), Some(s), Some(t)).value >= 0.0
  {
    BandedPriceAtLeastBase(t, dataGb);
    assert storageTb as real * s.price >= 0.0;
    var q := ComputeComputationPrice(ramGb, Some(cd));
    assert q.value.compPrice >= 0.0;
  }
}
