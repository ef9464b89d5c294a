/**
 * The client-side capacity and form rules of the portal, which the React
 * components keep as state and update from effects and handlers: whether a
 * computation instance and the selected storage are still available, the
 * minimum storage for the selected RAM, the displayed total, and the
 * submit-time validation with the submit button's disabled condition.
 *
 * A form field is `None` when it holds the empty string and `Some(v)` when it
 * holds text that parses to `v`.
 */
module LayoutState {
  import opened JsValues
  import opened Tariffs
  import Utility
  import LayoutPricing

  // ---------------------------------------------------------------------------
  // Availability rules

  function UsedComputation(status: Option<CloudStatus>): (r: Reported) {
    if status.None? then Undefined else status.value.usedComputation
  }

  function UsedStorage(status: Option<CloudStatus>): (r: Reported) {
    if status.None? then Undefined else status.value.usedStorage
  }

  /** The RAM check runs only with a truthy instance cap and a defined instance count. */
  predicate RamCheckApplies(cd: Option<ComputationRecord>, status: Option<CloudStatus>) {
    cd.Some? && Truthy(cd.value.maxInstances) && !UsedComputation(status).Undefined?
  }

  /** The new value of the RAM availability flag, given its previous value. */
  function RamAvailability(cd: Option<ComputationRecord>, status: Option<CloudStatus>, previous: bool): (r: bool)
    ensures !RamCheckApplies(cd, status) ==> r == previous
  {
    if RamCheckApplies(cd, status)
    then UsedComputation(status).AsNumber() < cd.value.maxInstances.value
    else previous
  }

  /** The storage check runs only with a truthy global cap and a defined storage sum. */
  predicate StorageCheckApplies(sd: Option<StorageRecord>, status: Option<CloudStatus>) {
    sd.Some? && Truthy(sd.value.maxGlobalStorage) && !UsedStorage(status).Undefined?
  }

  /** The selected storage, or 1 TB when the field is empty. */
  function SelectedOrOne(selectedStorage: Option<int>): (r: int) {
    if selectedStorage.None? then 1 else selectedStorage.value
  }

  /** Storage is available when the used storage plus the selection fits under the global cap. */
  function StorageAvailability(sd: Option<StorageRecord>, status: Option<CloudStatus>,
                               selectedStorage: Option<int>): (r: bool)
    ensures !StorageCheckApplies(sd, status) ==> r
  {
    if StorageCheckApplies(sd, status)
    then UsedStorage(status).AsNumber() + SelectedOrOne(selectedStorage) <= sd.value.maxGlobalStorage.value
    else true
  }

  /** The availability flags held by the page layout. */
  class CloudAvailability {
    var availableRam: bool
    var availableStorage: bool

    /** Both flags start out true. */
    constructor ()
      ensures availableRam && availableStorage
    {
      availableRam := true;
      availableStorage := true;
    }

    /** Effect run when the instance count or the computation tariff changes. */
    method CheckRam(cd: Option<ComputationRecord>, status: Option<CloudStatus>)
      modifies this`availableRam
      ensures availableRam == RamAvailability(cd, status, old(availableRam))
    {
      if cd.Some? && Truthy(cd.value.maxInstances) && !UsedComputation(status).Undefined? {
        availableRam := UsedComputation(status).AsNumber() < cd.value.maxInstances.value;
      }
    }

    /** Effect run when the storage sum, the storage tariff or the selection changes. */
    method CheckStorage(sd: Option<StorageRecord>, status: Option<CloudStatus>, selectedStorage: Option<int>)
      modifies this`availableStorage
      ensures availableStorage == StorageAvailability(sd, status, selectedStorage)
    {
      var isStorageAvailable := true;
      if sd.Some? && Truthy(sd.value.maxGlobalStorage) && !UsedStorage(status).Undefined? {
        var tot := UsedStorage(status).AsNumber() + SelectedOrOne(selectedStorage);
        isStorageAvailable := tot <= sd.value.maxGlobalStorage.value;
      }
      availableStorage := isStorageAvailable;
    }
  }

  /** When the check applies, an instance is available exactly when fewer orders exist than the cap. */
  lemma RamAvailableIffBelowCap(cd: ComputationRecord, used: int, usedStorage: Reported, previous: bool)
    requires Truthy(cd.maxInstances)
    ensures RamAvailability(Some(cd), Some(CloudStatus(Value(used), usedStorage)), previous)
            <==> used < cd.maxInstances.value
  {
  }

  /** Fewer orders (a cancellation) never take away an available instance. */
  lemma FewerOrdersKeepRamAvailable(cd: Option<ComputationRecord>, u1: int, u2: int, st: Reported, previous: bool)
    requires u2 <= u1
    requires RamAvailability(cd, Some(CloudStatus(Value(u1), st)), previous)
    ensures RamAvailability(cd, Some(CloudStatus(Value(u2), st)), previous)
  {
  }

  /** When the check applies, storage is available exactly when used + selected fits under the cap. */
  lemma StorageAvailableIffFits(s: StorageRecord, usedComputation: Reported, used: int, selected: int)
    requires Truthy(s.maxGlobalStorage)
    ensures StorageAvailability(Some(s), Some(CloudStatus(usedComputation, Value(used))), Some(selected))
            <==> used + selected <= s.maxGlobalStorage.value
  {
  }

  /** With no orders the storage sum is SQL `NULL`, which still enables the check and counts as 0. */
  lemma NoOrdersStorageCheck(s: StorageRecord, usedComputation: Reported, selectedStorage: Option<int>)
    requires Truthy(s.maxGlobalStorage)
    ensures StorageAvailability(Some(s), Some(CloudStatus(usedComputation, Null)), selectedStorage)
            <==> SelectedOrOne(selectedStorage) <= s.maxGlobalStorage.value
  {
  }

  /** An empty storage field is checked as a selection of 1 TB. */
  lemma EmptySelectionCountsAsOne(s: StorageRecord, c: Reported, used: Reported)
    requires Truthy(s.maxGlobalStorage) && !used.Undefined?
    ensures StorageAvailability(Some(s), Some(CloudStatus(c, used)), None)
            <==> used.AsNumber() + 1 <= s.maxGlobalStorage.value
  {
  }

  /** A cap of 0 is falsy, so it means no limit: the RAM flag is kept and storage is available. */
  lemma ZeroCapMeansNoLimit(cd: ComputationRecord, sd: StorageRecord, status: Option<CloudStatus>,
                            previous: bool, selectedStorage: Option<int>)
    requires cd.maxInstances == Some(0) && sd.maxGlobalStorage == Some(0)
    ensures RamAvailability(Some(cd), status, previous) == previous
    ensures StorageAvailability(Some(sd), status, selectedStorage)
  {
  }

  /** Less storage in use or a smaller selection never takes availability away. */
  lemma LessStorageKeepsAvailability(sd: Option<StorageRecord>, c: Reported,
                                     u1: int, u2: int, sel1: int, sel2: int)
    requires u2 <= u1 && sel2 <= sel1
    requires StorageAvailability(sd, Some(CloudStatus(c, Value(u1))), Some(sel1))
    ensures StorageAvailability(sd, Some(CloudStatus(c, Value(u2))), Some(sel2))
  {
  }

  // ---------------------------------------------------------------------------
  // Form rules

  /**
   * The minimum storage shown for the selected RAM: the matched tier's minimum,
   * with only a missing minimum replaced by 1, or 1 when no tier matches.
   */
  function FormMinStorage(ramGb: int, cd: Option<ComputationRecord>): (r: int)
    ensures cd.None? || NoMatch(cd.value, ramGb) ==> r == 1
    ensures cd.Some? ==> forall i :: 1 <= i <= 3 && FirstMatch(cd.value, ramGb, i) ==>
              r == Coalesce(Tier(cd.value, i).minStorage, 1)
  {
    match cd
    case None => 1
    case Some(c) =>
      assert Tier(c, 1).ram == c.ramTier1 && Tier(c, 2).ram == c.ramTier2 && Tier(c, 3).ram == c.ramTier3;
      if ramGb == c.ramTier1 then Coalesce(c.minStorageTier1, 1)
      else if ramGb == c.ramTier2 then Coalesce(c.minStorageTier2, 1)
      else if ramGb == c.ramTier3 then Coalesce(c.minStorageTier3, 1)
      else 1
  }

  /** The form's minimum and the pricing minimum differ exactly when the tier's minimum is missing. */
  lemma FormMinimumVsPricingMinimum(ramGb: int, cd: ComputationRecord, i: int)
    requires 1 <= i <= 3 && FirstMatch(cd, ramGb, i)
    ensures Tier(cd, i).minStorage.None? ==>
              FormMinStorage(ramGb, Some(cd)) == 1
              && Utility.ComputeComputationPrice(ramGb, Some(cd)).value.minStorageRequired == 0
    ensures Tier(cd, i).minStorage.Some? ==>
              FormMinStorage(ramGb, Some(cd))
              == Utility.ComputeComputationPrice(ramGb, Some(cd)).value.minStorageRequired
  {
  }

  /** Storage meeting the form's minimum never makes pricing fail for too little storage. */
  lemma FormMinimumCoversPricing(ramGb: int, storageTb: int, dataGb: int, cd: Option<ComputationRecord>,
                                 sd: Option<StorageRecord>, dtd: Option<DataTransferRecord>)
    requires HasBaseTier(dtd)
    requires storageTb >= FormMinStorage(ramGb, cd)
    ensures !(LayoutPricing.ComputePrice(ramGb, storageTb, dataGb, cd, sd, dtd).Err?
              && LayoutPricing.ComputePrice(ramGb, storageTb, dataGb, cd, sd, dtd).error.StorageTooLow?)
  {
    if cd.Some? && !NoMatch(cd.value, ramGb) {
      var c := cd.value;
      var i := if c.ramTier1 == ramGb then 1 else if c.ramTier2 == ramGb then 2 else 3;
      assert FirstMatch(c, ramGb, i);
      FormMinimumVsPricingMinimum(ramGb, c, i);
    }
  }

  /**
   * The displayed total: the form's price when all three fields are filled and pricing succeeds, else 0.
   * The effect also tests the three tariff lists, but they are arrays and so always truthy.
   */
  function DisplayedPrice(selectedRam: Option<int>, selectedStorage: Option<int>, selectedData: Option<int>,
                          cd: Option<ComputationRecord>, sd: Option<StorageRecord>,
                          dtd: Option<DataTransferRecord>): (r: real)
    requires HasBaseTier(dtd)
    ensures selectedRam.None? || selectedStorage.None? || selectedData.None? ==> r == 0.0
    ensures selectedRam.Some? && selectedStorage.Some? && selectedData.Some? ==>
              var ram, storage, data := selectedRam.value, selectedStorage.value, selectedData.value;
              && (!Utility.PassesTierCheck(ram, storage, cd) ==> r == 0.0)
              && (sd.None? || dtd.None? ==> r == 0.0)
              && (Utility.PassesTierCheck(ram, storage, cd) && sd.Some? && dtd.Some? ==>
                    r == Utility.ComputeComputationPrice(ram, cd).value.compPrice
                         + storage as real * sd.value.price + Utility.BandedPrice(dtd.value, data))
  {
    if selectedRam.Some? && selectedStorage.Some? && selectedData.Some? then
      match LayoutPricing.ComputePrice(selectedRam.value, selectedStorage.value, selectedData.value, cd, sd, dtd)
      case Ok(p) => p
      case Err(_) => 0.0
    else 0.0
  }

  /** With non-negative tariffs and a non-negative storage selection the displayed total is never negative. */
  lemma DisplayedPriceNonNegative(ram: Option<int>, storage: Option<int>, data: Option<int>,
                                  cd: ComputationRecord, s: StorageRecord, t: DataTransferRecord)
    requires NonNegativeComputationPrices(cd) && s.price >= 0.0 && WellFormedDataTariff(t)
    requires storage.Some? ==> storage.value >= 0
    ensures DisplayedPrice(ram, storage, data, Some(cd), Some(s), Some(t)) >= 0.0
  {
    if ram.Some? && storage.Some? && data.Some? {
      var quote := LayoutPricing.ComputePrice(ram.value, storage.value, data.value, Some(cd), Some(s), Some(t));
      if quote.Ok? {
        LayoutPricing.TotalNonNegative(ram.value, storage.value, data.value, cd, s, t);
      }
    }
  }

  /** The messages the form shows when it refuses a submission. */
  datatype FormError =
    | FillAllFields                                  // "Please fill in all fields"
    | StorageBelowMinimum(minStorage: int, ram: int) // "Storage must be at least ... TB for ... GB RAM"

  /** The submit-time validation: `None` when the confirmation dialog may open. */
  function SubmitCheck(selectedRam: Option<int>, selectedStorage: Option<int>, selectedData: Option<int>,
                       minStorage: int): (r: Option<FormError>)
    ensures r == Some(FillAllFields) <==> selectedRam.None? || selectedStorage.None? || selectedData.None?
    ensures r.None? <==> selectedRam.Some? && selectedStorage.Some? && selectedData.Some?
                         && selectedStorage.value >= minStorage
    ensures r.Some? && r.value.StorageBelowMinimum? ==>
              r.value == StorageBelowMinimum(minStorage, selectedRam.value)
  {
    if selectedRam.None? || selectedStorage.None? || selectedData.None? then Some(FillAllFields)
    else if selectedStorage.value < minStorage then Some(StorageBelowMinimum(minStorage, selectedRam.value))
    else None
  }

  /** `parseInt(selectedStorage) < minStorage`; an empty field parses to `NaN`, which compares false. */
  predicate StorageBelow(selectedStorage: Option<int>, minStorage: int) {
    selectedStorage.Some? && selectedStorage.value < minStorage
  }

  /**
   * The submit button is disabled without capacity, while loading, or with too little storage;
   * an empty storage field alone does not disable it, and with capacity, not loading and
   * enough storage it is enabled.
   */
  function SubmitDisabled(availableRam: bool, availableStorage: bool, loading: bool,
                          selectedStorage: Option<int>, minStorage: int): (r: bool)
    ensures !availableRam || !availableStorage || loading ==> r
    ensures selectedStorage.None? ==> (r <==> !availableRam || !availableStorage || loading)
    ensures !r && selectedStorage.Some? ==> selectedStorage.value >= minStorage
    ensures (availableRam && availableStorage && !loading
             && (selectedStorage.None? || selectedStorage.value >= minStorage)) ==> !r
  {
    !availableRam || !availableStorage || loading || StorageBelow(selectedStorage, minStorage)
  }

  /** An enabled button on a filled form always passes the submit-time validation. */
  lemma EnabledFilledFormIsAccepted(availableRam: bool, availableStorage: bool, loading: bool,
                                    ram: Option<int>, storage: Option<int>, data: Option<int>, minStorage: int)
    requires !SubmitDisabled(availableRam, availableStorage, loading, storage, minStorage)
    requires ram.Some? && storage.Some? && data.Some?
    ensures SubmitCheck(ram, storage, data, minStorage).None?
  {
  }

  /** An accepted submission never has a storage selection the button would have refused. */
  lemma AcceptedFormPassesStorageRule(ram: Option<int>, storage: Option<int>, data: Option<int>, minStorage: int)
    requires SubmitCheck(ram, storage, data, minStorage).None?
    ensures !StorageBelow(storage, minStorage)
  {
  }

  /** An accepted submission, with the minimum taken from the selected RAM, is never priced as too low. */
  lemma AcceptedSubmissionMeetsTierMinimum(ram: Option<int>, storage: Option<int>, data: Option<int>,
                                           cd: Option<ComputationRecord>, sd: Option<StorageRecord>,
                                           dtd: Option<DataTransferRecord>)
    requires HasBaseTier(dtd)
    requires ram.Some? && SubmitCheck(ram, storage, data, FormMinStorage(ram.value, cd)).None?
    ensures !(LayoutPricing.ComputePrice(ram.value, storage.value, data.value, cd, sd, dtd).Err?
              && LayoutPricing.ComputePrice(ram.value, storage.value, data.value, cd, sd, dtd).error.StorageTooLow?)
  {
    FormMinimumCoversPricing(ram.value, storage.value, data.value, cd, sd, dtd);
  }

  /** The order form's own state. */
  class NewOrderForm {
    var minStorage: int
    var totalPrice: real
    var error: Option<FormError>
    var showConfirm: bool
    var loading: bool

    /** Minimum storage 1, total 0, no error, dialog closed, not loading. */
    constructor ()
      ensures minStorage == 1 && totalPrice == 0.0 && error == None && !showConfirm && !loading
    {
      minStorage := 1;
      totalPrice := 0.0;
      error := None;
      showConfirm := false;
      loading := false;
    }

    /** Effect run when the selected RAM or the computation tariff changes; skipped for an empty RAM field. */
    method UpdateMinStorage(selectedRam: Option<int>, cd: Option<ComputationRecord>)
      modifies this`minStorage
      ensures minStorage == if selectedRam.Some? then FormMinStorage(selectedRam.value, cd) else old(minStorage)
    {
      if selectedRam.Some? {
        var minStor := 1;
        var ramValue := selectedRam.value;
        if cd.Some? {
          if ramValue == cd.value.ramTier1 {
            minStor := Coalesce(cd.value.minStorageTier1, 1);
          } else if ramValue == cd.value.ramTier2 {
            minStor := Coalesce(cd.value.minStorageTier2, 1);
          } else if ramValue == cd.value.ramTier3 {
            minStor := Coalesce(cd.value.minStorageTier3, 1);
          }
        }
        minStorage := minStor;
      }
    }

    /** Effect run when a selection changes: the form's quote, or 0 when a field is empty or pricing throws. */
    method UpdateTotalPrice(selectedRam: Option<int>, selectedStorage: Option<int>, selectedData: Option<int>,
                            cd: Option<ComputationRecord>, sd: Option<StorageRecord>, dtd: Option<DataTransferRecord>)
      requires HasBaseTier(dtd)
      modifies this`totalPrice
      ensures totalPrice == DisplayedPrice(selectedRam, selectedStorage, selectedData, cd, sd, dtd)
    {
      if selectedRam.Some? && selectedStorage.Some? && selectedData.Some? {
        var price := LayoutPricing.ComputePrice(selectedRam.value, selectedStorage.value, selectedData.value,
                                                cd, sd, dtd);
        if price.Ok? {
          totalPrice := price.value;
        } else {
          totalPrice := 0.0;
        }
      } else {
        totalPrice := 0.0;
      }
    }

    /**
     * Submit handler: clears the error, refuses an incomplete form or too little
     * storage with a message, and otherwise starts loading and opens the
     * confirmation dialog.
     */
    method HandleSubmit(selectedRam: Option<int>, selectedStorage: Option<int>, selectedData: Option<int>)
      modifies this`error, this`loading, this`showConfirm
      ensures error == SubmitCheck(selectedRam, selectedStorage, selectedData, minStorage)
      ensures error.None? ==> showConfirm && loading
      ensures error.Some? ==> showConfirm == old(showConfirm) && loading == old(loading)
    {
      error := None;
      if selectedRam.None? || selectedStorage.None? || selectedData.None? {
        error := Some(FillAllFields);
        return;
      }
      if selectedStorage.value < minStorage {
        error := Some(StorageBelowMinimum(minStorage, selectedRam.value));
        return;
      }
      loading := true;
      showConfirm := true;
    }
  }
}
