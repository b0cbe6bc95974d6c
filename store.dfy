/**
 * The hosted relational store as the treatment routes see it: three tables
 * (treatments, treatment_items, assets) and the six calls the routes make.
 *
 * Every call is a step that may succeed or fail. Which calls fail is fixed by
 * a failure schedule: the call at log position k (made when the log already
 * holds k calls) fails exactly when k is in `failing`. Every call, failed or not, is appended to an
 * operation log, so "no store operation was issued" reads "the log is unchanged".
 */
module DataStore {
  import opened Wrappers

  type Id = nat
  type AssetId = string

  /** A row of `treatments`. */
  datatype TreatmentRow = TreatmentRow(
    id: Id, patientId: string, date: string, valuePaid: Option<real>, nextDate: Option<string>)

  /** A line item as the route hands it to the batch insert. `None` quantity is JavaScript's NaN. */
  datatype NewItem = NewItem(assetId: AssetId, quantity: Option<real>)

  /** A row of `treatment_items`. A NaN quantity reaches the table as null, modelled as `None`. */
  datatype ItemRow = ItemRow(id: Id, treatmentId: Id, assetId: AssetId, quantity: Option<real>)

  /** A row of `assets`, keyed by its id in the asset table. A null quantity is `None`. */
  datatype AssetRow = AssetRow(name: string, unit: Option<string>, quantity: Option<real>)

  /** The joined `asset:assets(id,name,unit)` part of a fetched item. */
  datatype AssetInfo = AssetInfo(id: AssetId, name: string, unit: Option<string>)

  /** A row returned by the batched item lookup, joined with its asset (absent when no asset matches). */
  datatype FetchedItem = FetchedItem(id: Id, treatmentId: Id, quantity: Option<real>, asset: Option<AssetInfo>)

  /** One call issued to the store. */
  datatype Op =
    | InsertTreatment(patientId: string)
    | InsertItems(treatmentId: Id, count: nat)
    | ReadAsset(assetId: AssetId)
    | UpdateAsset(assetId: AssetId, quantity: Option<real>)
    | SelectTreatments(patientId: string)
    | SelectItems(treatmentIds: seq<Id>)

  /** The whole store as a value: the tables, the id counter and the log of calls received. */
  datatype Tables = Tables(
    treatments: seq<TreatmentRow>,
    items: seq<ItemRow>,
    assets: map<AssetId, AssetRow>,
    nextId: Id,
    log: seq<Op>)

  /**
   * Every treatment id, and every treatment id an item row refers to, lies
   * below the counter, so a new treatment's id is not yet used by any
   * treatment or item row. Item row ids themselves are not constrained.
   */
  ghost predicate Valid(t: Tables) {
    && (forall i :: 0 <= i < |t.treatments| ==> t.treatments[i].id < t.nextId)
    && (forall i :: 0 <= i < |t.items| ==> t.items[i].treatmentId < t.nextId)
  }

  predicate Fails(t: Tables, failing: set<nat>) {
    |t.log| in failing
  }

  function Issue(t: Tables, op: Op): Tables {
    t.(log := t.log + [op])
  }

  /** The rows a batch insert of `items` for treatment `treatmentId` adds, with ids from `firstId` on. */
  function ItemRows(firstId: Id, treatmentId: Id, items: seq<NewItem>): (rows: seq<ItemRow>)
    ensures |rows| == |items|
    ensures forall i :: 0 <= i < |items| ==>
      rows[i] == ItemRow(firstId + i, treatmentId, items[i].assetId, items[i].quantity)
  {
    seq(|items|, i requires 0 <= i < |items| =>
      ItemRow(firstId + i, treatmentId, items[i].assetId, items[i].quantity))
  }

  /** The rows of `treatments` whose patient is `patientId`, in table order (`.eq("patient_id", …)`). */
  function OfPatient(ts: seq<TreatmentRow>, patientId: string): seq<TreatmentRow> {
    if ts == [] then []
    else (if ts[0].patientId == patientId then [ts[0]] else []) + OfPatient(ts[1..], patientId)
  }

  /** One item row joined with its asset, as the select `asset:assets(id,name,unit)` returns it. */
  function Join(it: ItemRow, assets: map<AssetId, AssetRow>): FetchedItem {
    FetchedItem(it.id, it.treatmentId, it.quantity,
      if it.assetId in assets
      then Some(AssetInfo(it.assetId, assets[it.assetId].name, assets[it.assetId].unit))
      else None)
  }

  /** The item rows whose treatment is among `ids`, in table order, joined with their assets (`.in("treatment_id", ids)`). */
  function Fetch(items: seq<ItemRow>, ids: seq<Id>, assets: map<AssetId, AssetRow>): seq<FetchedItem> {
    if items == [] then []
    else (if items[0].treatmentId in ids then [Join(items[0], assets)] else []) + Fetch(items[1..], ids, assets)
  }

  // The six store calls as steps on the table value: (what the call returns, the store afterwards).

  function InsertTreatmentStep(t: Tables, failing: set<nat>, patientId: string, date: string,
                               valuePaid: Option<real>, nextDate: Option<string>): (Option<TreatmentRow>, Tables)
  {
    var t' := Issue(t, InsertTreatment(patientId));
    if Fails(t, failing) then (None, t')
    else
      var row := TreatmentRow(t.nextId, patientId, date, valuePaid, nextDate);
      (Some(row), t'.(treatments := t.treatments + [row], nextId := t.nextId + 1))
  }

  function InsertItemsStep(t: Tables, failing: set<nat>, treatmentId: Id, items: seq<NewItem>): (bool, Tables)
  {
    var t' := Issue(t, InsertItems(treatmentId, |items|));
    if Fails(t, failing) then (false, t')
    else (true, t'.(items := t.items + ItemRows(t.nextId, treatmentId, items), nextId := t.nextId + |items|))
  }

  /** `.select("id, quantity").eq("id", a).single()`: fails too when no asset has that id. */
  function ReadAssetStep(t: Tables, failing: set<nat>, assetId: AssetId): (Option<Option<real>>, Tables)
  {
    var t' := Issue(t, ReadAsset(assetId));
    if Fails(t, failing) || assetId !in t.assets then (None, t')
    else (Some(t.assets[assetId].quantity), t')
  }

  /** `.update({ quantity }).eq("id", a)`: an update that matches no row succeeds and changes nothing. */
  function UpdateAssetStep(t: Tables, failing: set<nat>, assetId: AssetId, quantity: Option<real>): (bool, Tables)
  {
    var t' := Issue(t, UpdateAsset(assetId, quantity));
    if Fails(t, failing) then (false, t')
    else if assetId in t.assets then
      (true, t'.(assets := t.assets[assetId := t.assets[assetId].(quantity := quantity)]))
    else (true, t')
  }

  function SelectTreatmentsStep(t: Tables, failing: set<nat>, patientId: string): (Option<seq<TreatmentRow>>, Tables)
  {
    var t' := Issue(t, SelectTreatments(patientId));
    if Fails(t, failing) then (None, t') else (Some(OfPatient(t.treatments, patientId)), t')
  }

  function SelectItemsStep(t: Tables, failing: set<nat>, ids: seq<Id>): (Option<seq<FetchedItem>>, Tables)
  {
    var t' := Issue(t, SelectItems(ids));
    if Fails(t, failing) then (None, t') else (Some(Fetch(t.items, ids, t.assets)), t')
  }

  /** The store the routes talk to. Its state is the value `State()`; each method is one call. */
  class Store {
    var treatments: seq<TreatmentRow>
    var items: seq<ItemRow>
    var assets: map<AssetId, AssetRow>
    var nextId: Id
    var log: seq<Op>
    const failing: set<nat>

    function State(): Tables
      reads this
    {
      Tables(treatments, items, assets, nextId, log)
    }

    constructor (t: Tables, failing: set<nat>)
      ensures State() == t && this.failing == failing
    {
      treatments, items, assets, nextId, log := t.treatments, t.items, t.assets, t.nextId, t.log;
      this.failing := failing;
    }

    method InsertTreatment(patientId: string, date: string, valuePaid: Option<real>, nextDate: Option<string>)
      returns (created: Option<TreatmentRow>)
      modifies this
      ensures (created, State()) == InsertTreatmentStep(old(State()), failing, patientId, date, valuePaid, nextDate)
    {
      var fails := |log| in failing;
      log := log + [Op.InsertTreatment(patientId)];
      if fails {
        created := None;
      } else {
        var row := TreatmentRow(nextId, patientId, date, valuePaid, nextDate);
        treatments := treatments + [row];
        nextId := nextId + 1;
        created := Some(row);
      }
    }

    method InsertItems(treatmentId: Id, batch: seq<NewItem>) returns (ok: bool)
      modifies this
      ensures (ok, State()) == InsertItemsStep(old(State()), failing, treatmentId, batch)
    {
      var fails := |log| in failing;
      log := log + [Op.InsertItems(treatmentId, |batch|)];
      ok := !fails;
      if ok {
        items := items + ItemRows(nextId, treatmentId, batch);
        nextId := nextId + |batch|;
      }
    }

    method ReadAsset(assetId: AssetId) returns (quantity: Option<Option<real>>)
      modifies this
      ensures (quantity, State()) == ReadAssetStep(old(State()), failing, assetId)
    {
      var fails := |log| in failing;
      log := log + [Op.ReadAsset(assetId)];
      if fails || assetId !in assets {
        quantity := None;
      } else {
        quantity := Some(assets[assetId].quantity);
      }
    }

    method UpdateAsset(assetId: AssetId, quantity: Option<real>) returns (ok: bool)
      modifies this
      ensures (ok, State()) == UpdateAssetStep(old(State()), failing, assetId, quantity)
    {
      var fails := |log| in failing;
      log := log + [Op.UpdateAsset(assetId, quantity)];
      ok := !fails;
      if ok && assetId in assets {
        assets := assets[assetId := assets[assetId].(quantity := quantity)];
      }
    }

    method SelectTreatments(patientId: string) returns (rows: Option<seq<TreatmentRow>>)
      modifies this
      ensures (rows, State()) == SelectTreatmentsStep(old(State()), failing, patientId)
    {
      var fails := |log| in failing;
      log := log + [Op.SelectTreatments(patientId)];
      rows := if fails then None else Some(OfPatient(treatments, patientId));
    }

    method SelectItems(ids: seq<Id>) returns (rows: Option<seq<FetchedItem>>)
      modifies this
      ensures (rows, State()) == SelectItemsStep(old(State()), failing, ids)
    {
      var fails := |log| in failing;
      log := log + [Op.SelectItems(ids)];
      rows := if fails then None else Some(Fetch(items, ids, assets));
    }
  }
}
