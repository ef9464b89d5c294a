/**
 * The tariff records the client receives from the server (the first row of
 * each of the computation, storage and data-transfer tables), the aggregate
 * usage it receives as the cloud status, and the pricing errors.
 */
module Tariffs {
  import opened JsValues

  /** Computation service: instance cap and three (RAM size, price, minimum storage) tiers. */
  datatype ComputationRecord = ComputationRecord(
    maxInstances: Option<int>,
    ramTier1: int, ramTier2: int, ramTier3: int,
    priceTier1: real, priceTier2: real, priceTier3: real,
    minStorageTier1: Option<int>, minStorageTier2: Option<int>, minStorageTier3: Option<int>)

  /** Storage service: price per TB per month, per-order minimum, global cap. */
  datatype StorageRecord = StorageRecord(
    price: real,
    minStorageTbPerOrder: Option<int>,
    maxGlobalStorage: Option<int>)

  /** Data-transfer service: flat price for the base tier, band-1 width, band multipliers. */
  datatype DataTransferRecord = DataTransferRecord(
    basePrice: real,
    baseTier: int,
    tier1: int,
    tier1Multiplier: real,
    tier2Multiplier: real)

  /** Aggregate usage: number of orders and sum of their storage. */
  datatype CloudStatus = CloudStatus(usedComputation: Reported, usedStorage: Reported)

  /** One of the three computation tiers, viewed uniformly. */
  datatype RamTier = RamTier(ram: int, price: real, minStorage: Option<int>)

  function Tier(cd: ComputationRecord, i: int): (t: RamTier)
    requires 1 <= i <= 3
  {
    if i == 1 then RamTier(cd.ramTier1, cd.priceTier1, cd.minStorageTier1)
    else if i == 2 then RamTier(cd.ramTier2, cd.priceTier2, cd.minStorageTier2)
    else RamTier(cd.ramTier3, cd.priceTier3, cd.minStorageTier3)
  }

  /** `i` is the first tier whose RAM size is strictly equal to `ram`. */
  predicate FirstMatch(cd: ComputationRecord, ram: int, i: int)
    requires 1 <= i <= 3
  {
    Tier(cd, i).ram == ram && forall j :: 1 <= j < i ==> Tier(cd, j).ram != ram
  }

  /** `ram` equals none of the three tier sizes. */
  predicate NoMatch(cd: ComputationRecord, ram: int) {
    forall i :: 1 <= i <= 3 ==> Tier(cd, i).ram != ram
  }

  /** The tariff shape under which the data-transfer formula divides by a non-zero base tier. */
  predicate HasBaseTier(dtd: Option<DataTransferRecord>) {
    dtd.Some? ==> dtd.value.baseTier != 0
  }

  /** Tariffs as configured: positive base tier, non-negative band width, prices and multipliers. */
  predicate WellFormedDataTariff(t: DataTransferRecord) {
    t.baseTier > 0 && t.tier1 >= 0 && t.basePrice >= 0.0
    && t.tier1Multiplier >= 0.0 && t.tier2Multiplier >= 0.0
  }

  predicate NonNegativeComputationPrices(cd: ComputationRecord) {
    cd.priceTier1 >= 0.0 && cd.priceTier2 >= 0.0 && cd.priceTier3 >= 0.0
  }

  /** The errors thrown by the two pricing routines. */
  datatype PriceError =
    | InvalidRamSize(ram: int)                       // "Invalid RAM size ... for computation service"
    | StorageTooLow(ram: int, required: int)         // "Storage too low for selected RAM ..."
    | ComputationQuoteUndefined                      // destructuring the `undefined` computation quote
    | NoComputationService                           // "No computation service available"
    | NoStorageService                               // "No storage service available"
    | NoDataTransferService                          // "No data transfer service available"
}
