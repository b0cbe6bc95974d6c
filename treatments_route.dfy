/**
 * The treatment routes: `POST /api/treatments` (normalise the body, validate,
 * insert the treatment, batch-insert its items, decrement each item's asset
 * stock, read the result back), `GET /api/treatments?patientId=…`, and the
 * read-composition helper `listWithItems` they share.
 *
 * Each route is a method over a `Store`, proved against a specification
 * function on the table value (`CreateSpec`, `GetSpec`, `ListSpec`); the
 * properties of those functions are proved in module TreatmentsProperties.
 */
module TreatmentsRoute {
  import opened Wrappers
  import opened DataStore

  // ---------------------------------------------------------------------------
  // Request bodies. Field names are the JSON keys the route accepts; `None` is
  // a key that is absent, `null` or `undefined`.

  /** A numeric JSON field: absent (`undefined`), `null`, or a number. */
  datatype JsQuantity = Missing | Null | Num(value: real) {

    /** `??`: this value unless it is `null` or `undefined`. */
    function OrElse(other: JsQuantity): JsQuantity {
      if Num? then this else other
    }
  }

  /** An element of `items` or `assets`, used as it is. */
  datatype ItemIn = ItemIn(asset_id: AssetId, quantity: JsQuantity)

  /** An element of `lines`, whose quantity is `qty ?? quantity`. */
  datatype LineIn = LineIn(asset_id: AssetId, qty: JsQuantity, quantity: JsQuantity)

  datatype PostBody = PostBody(
    patient_id: Option<string>, patientId: Option<string>, patient: Option<string>,
    date: Option<string>, application_date: Option<string>,
    value_paid: Option<real>, value: Option<real>,
    next_date: Option<string>, next_application: Option<string>,
    items: Option<seq<ItemIn>>, assets: Option<seq<ItemIn>>, lines: Option<seq<LineIn>>)

  /** The normalised request, in the canonical field names. */
  datatype Request = Request(
    patientId: string, date: string, valuePaid: Option<real>, nextDate: Option<string>, items: seq<NewItem>)

  datatype BadRequest = MissingPatient | NoItems

  // ---------------------------------------------------------------------------
  // Responses.

  /** One line item of the composed view (`asset?.id`, `asset?.name`, `asset?.unit` are absent without an asset). */
  datatype ViewItem = ViewItem(
    id: Id, assetId: Option<AssetId>, assetName: Option<string>, unit: Option<string>, quantity: Option<real>)

  /** `{ ...treatment, items }`. */
  datatype TreatmentView = TreatmentView(row: TreatmentRow, items: seq<ViewItem>)

  /** What POST answers with: the treatment as listed, or the bare inserted row when the listing lacks it. */
  datatype Created = Listed(view: TreatmentView) | Bare(row: TreatmentRow)

  /** `StoreError` is the payload of every 500: a failed store call, or a body that does not parse. */
  datatype Payload =
    | Error(message: string)
    | StoreError
    | CreatedTreatment(created: Created)
    | TreatmentList(views: seq<TreatmentView>)

  datatype Response = Response(status: nat, payload: Payload)

  const ServerError := Response(500, StoreError)

  const MissingQueryMessage := "Parâmetro patientId é obrigatório"

  function Message(e: BadRequest): string {
    match e
    case MissingPatient => "patient_id é obrigatório"
    case NoItems => "Informe pelo menos um item (asset_id, quantity)"
  }

  // ---------------------------------------------------------------------------
  // Body normalisation.

  /** JavaScript truthiness of an optional string: present and not empty. */
  predicate Truthy(s: Option<string>) {
    s.Some? && s.value != ""
  }

  /** `body.patient_id ?? body.patientId ?? body.patient ?? null`. */
  function PatientOf(body: PostBody): Option<string> {
    body.patient_id.OrElse(body.patientId).OrElse(body.patient)
  }

  /** `body.date || body.application_date || today`. */
  function DateOf(body: PostBody, today: string): string {
    if Truthy(body.date) then body.date.value
    else if Truthy(body.application_date) then body.application_date.value
    else today
  }

  function ValuePaidOf(body: PostBody): Option<real> {
    body.value_paid.OrElse(body.value)
  }

  function NextDateOf(body: PostBody): Option<string> {
    body.next_date.OrElse(body.next_application)
  }

  /** `Number(q)`: `undefined` is NaN (`None`), `null` is 0. */
  function ToNumber(q: JsQuantity): Option<real> {
    match q
    case Missing => None
    case Null => Some(0.0)
    case Num(x) => Some(x)
  }

  /**
   * The line items with `Number(it.quantity)` applied, as on lines 108 and
   * 123 (both convert the same raw value, so converting once is the same).
   */
  function FromItems(xs: seq<ItemIn>): seq<NewItem> {
    seq(|xs|, i requires 0 <= i < |xs| => NewItem(xs[i].asset_id, ToNumber(xs[i].quantity)))
  }

  function FromLines(ls: seq<LineIn>): seq<NewItem> {
    seq(|ls|, i requires 0 <= i < |ls| => NewItem(ls[i].asset_id, ToNumber(ls[i].qty.OrElse(ls[i].quantity))))
  }

  /** `body.items ?? body.assets ?? body.lines?.map(l => ({ asset_id, quantity: l.qty ?? l.quantity })) ?? []`. */
  function RawItems(body: PostBody): (items: seq<NewItem>)
    ensures body.items.Some? ==>
      |items| == |body.items.value| &&
      forall i :: 0 <= i < |items| ==>
        items[i].assetId == body.items.value[i].asset_id && items[i].quantity == ToNumber(body.items.value[i].quantity)
    ensures body.items.None? && body.assets.Some? ==>
      |items| == |body.assets.value| &&
      forall i :: 0 <= i < |items| ==>
        items[i].assetId == body.assets.value[i].asset_id && items[i].quantity == ToNumber(body.assets.value[i].quantity)
    ensures body.items.None? && body.assets.None? && body.lines.Some? ==>
      |items| == |body.lines.value| &&
      forall i :: 0 <= i < |items| ==>
        items[i].assetId == body.lines.value[i].asset_id &&
        items[i].quantity == ToNumber(if body.lines.value[i].qty.Num? then body.lines.value[i].qty else body.lines.value[i].quantity)
    ensures body.items.None? && body.assets.None? && body.lines.None? ==> items == []
  {
    if body.items.Some? then FromItems(body.items.value)
    else if body.assets.Some? then FromItems(body.assets.value)
    else if body.lines.Some? then FromLines(body.lines.value)
    else []
  }

  /**
   * Lines 66-94: the patient check comes first, then the item check; no store
   * call is involved. A present but empty first alias is not skipped by `??`
   * and fails the truthiness test.
   */
  function NormalizeBody(body: PostBody, today: string): (r: Result<Request, BadRequest>)
    ensures r == Failure(MissingPatient) <==> !Truthy(PatientOf(body))
    ensures r == Failure(NoItems) <==> Truthy(PatientOf(body)) && RawItems(body) == []
    ensures r.Success? ==>
      && r.value.patientId == PatientOf(body).value && r.value.patientId != ""
      && r.value.items == RawItems(body) && |r.value.items| > 0
      && r.value.date == DateOf(body, today)
      && r.value.valuePaid == ValuePaidOf(body)
      && r.value.nextDate == NextDateOf(body)
  {
    var patient := PatientOf(body);
    if !Truthy(patient) then Failure(MissingPatient)
    else
      var items := RawItems(body);
      if |items| == 0 then Failure(NoItems)
      else Success(Request(patient.value, DateOf(body, today), ValuePaidOf(body), NextDateOf(body), items))
  }

  // ---------------------------------------------------------------------------
  // The stock ledger: `newQty = Math.max(0, Number(assetRow.quantity ?? 0) - Number(it.quantity))`.

  /** `Math.max(0, x)`. */
  function Max0(x: real): real {
    if x < 0.0 then 0.0 else x
  }

  /**
   * The quantity written back for one item. A null stock reads as 0; a NaN
   * item quantity makes the whole expression NaN, which is written as null.
   */
  function NewQuantity(current: Option<real>, quantity: Option<real>): (q: Option<real>)
    ensures q.Some? <==> quantity.Some?
    ensures q.Some? ==> q.value >= 0.0
    ensures quantity.Some? && current.GetOr(0.0) >= quantity.value ==> q == Some(current.GetOr(0.0) - quantity.value)
    ensures quantity.Some? && current.GetOr(0.0) < quantity.value ==> q == Some(0.0)
  {
    if quantity.None? then None else Some(Max0(current.GetOr(0.0) - quantity.value))
  }

  /** The asset table after one item's read-modify-write (an unknown asset is left alone). */
  function ApplyItem(assets: map<AssetId, AssetRow>, item: NewItem): map<AssetId, AssetRow> {
    if item.assetId in assets
    then assets[item.assetId := assets[item.assetId].(quantity := NewQuantity(assets[item.assetId].quantity, item.quantity))]
    else assets
  }

  /** The asset table after the items' read-modify-writes, one after another, in order. */
  function ApplyAll(assets: map<AssetId, AssetRow>, items: seq<NewItem>): map<AssetId, AssetRow>
    decreases |items|
  {
    if items == [] then assets
    else ApplyItem(ApplyAll(assets, items[..|items| - 1]), items[|items| - 1])
  }

  /** How the stock phase ended: every item processed, or the store call for item `index` failed. */
  datatype Outcome = Done | FailedAt(index: nat)

  /** Lines 117-128 for item number `k`: read the asset, then write the new quantity. */
  function DecrementOne(t: Tables, failing: set<nat>, item: NewItem, k: nat): (Outcome, Tables) {
    var (current, t1) := ReadAssetStep(t, failing, item.assetId);
    if current.None? then (FailedAt(k), t1)
    else
      var (updated, t2) := UpdateAssetStep(t1, failing, item.assetId, NewQuantity(current.value, item.quantity));
      if !updated then (FailedAt(k), t2) else (Done, t2)
  }

  /** Lines 116-129: the items in order, stopping at the first failed store call. */
  function DecrementAll(t: Tables, failing: set<nat>, items: seq<NewItem>): (Outcome, Tables)
    decreases |items|
  {
    if items == [] then (Done, t)
    else
      var (o, t1) := DecrementAll(t, failing, items[..|items| - 1]);
      if o.FailedAt? then (o, t1) else DecrementOne(t1, failing, items[|items| - 1], |items| - 1)
  }

  /** Once a prefix of the items has failed, the later items are never processed. */
  lemma {:induction false} DecrementAllStops(t: Tables, failing: set<nat>, items: seq<NewItem>, j: nat)
    requires j <= |items|
    requires DecrementAll(t, failing, items[..j]).0.FailedAt?
    ensures DecrementAll(t, failing, items) == DecrementAll(t, failing, items[..j])
    decreases |items| - j
  {
    if j < |items| {
      var prefix := items[..|items| - 1];
      assert prefix[..j] == items[..j];
      DecrementAllStops(t, failing, prefix, j);
    } else {
      assert items[..j] == items;
    }
  }

  // ---------------------------------------------------------------------------
  // Read composition (`listWithItems`).

  /** One fetched row as the view shows it (lines 29-35). */
  function ViewOf(f: FetchedItem): ViewItem {
    ViewItem(
      f.id,
      if f.asset.Some? then Some(f.asset.value.id) else None,
      if f.asset.Some? then Some(f.asset.value.name) else None,
      if f.asset.Some? then f.asset.value.unit else None,
      f.quantity)
  }

  /** The fetched rows of treatment `tid`, in fetch order, as view items. */
  function ItemsFor(fetched: seq<FetchedItem>, tid: Id): seq<ViewItem>
    decreases |fetched|
  {
    if fetched == [] then []
    else
      ItemsFor(fetched[..|fetched| - 1], tid)
      + (if fetched[|fetched| - 1].treatmentId == tid then [ViewOf(fetched[|fetched| - 1])] else [])
  }

  /** Every treatment, in the given order, with exactly its fetched items. */
  function Compose(ts: seq<TreatmentRow>, fetched: seq<FetchedItem>): (views: seq<TreatmentView>)
    ensures |views| == |ts|
    ensures forall i :: 0 <= i < |ts| ==> views[i].row == ts[i] && views[i].items == ItemsFor(fetched, ts[i].id)
  {
    seq(|ts|, i requires 0 <= i < |ts| => TreatmentView(ts[i], ItemsFor(fetched, ts[i].id)))
  }

  function IdsOf(ts: seq<TreatmentRow>): (ids: seq<Id>)
    ensures |ids| == |ts| && forall i :: 0 <= i < |ts| ==> ids[i] == ts[i].id
  {
    seq(|ts|, i requires 0 <= i < |ts| => ts[i].id)
  }

  /** Lines 7-42: select the patient's treatments, stop with `[]` when there are none, else fetch and compose. */
  function ListSpec(t: Tables, failing: set<nat>, patientId: string): (Option<seq<TreatmentView>>, Tables) {
    var (ts, t1) := SelectTreatmentsStep(t, failing, patientId);
    if ts.None? then (None, t1)
    else if |ts.value| == 0 then (Some([]), t1)
    else
      var (fetched, t2) := SelectItemsStep(t1, failing, IdsOf(ts.value));
      if fetched.None? then (None, t2) else (Some(Compose(ts.value, fetched.value)), t2)
  }

  predicate NoneBefore(views: seq<TreatmentView>, id: Id, i: nat)
    requires i <= |views|
  {
    forall j :: 0 <= j < i ==> views[j].row.id != id
  }

  /** `full.find(t => t.id === id)`: the first view with that id. */
  function FindById(views: seq<TreatmentView>, id: Id): (r: Option<TreatmentView>)
    ensures r.Some? ==> r.value.row.id == id && r.value in views
    ensures r.None? <==> forall i :: 0 <= i < |views| ==> views[i].row.id != id
    ensures forall i :: 0 <= i < |views| && views[i].row.id == id && NoneBefore(views, id, i) ==> r == Some(views[i])
  {
    if views == [] then None
    else if views[0].row.id == id then Some(views[0])
    else FindById(views[1..], id)
  }

  /** Line 133: the listed treatment, or the inserted row itself. */
  function Pick(views: seq<TreatmentView>, row: TreatmentRow): Created {
    var found := FindById(views, row.id);
    if found.Some? then Listed(found.value) else Bare(row)
  }

  // ---------------------------------------------------------------------------
  // The routes as functions of the store.

  /**
   * `POST /api/treatments` (lines 61-142): the response and the store
   * afterwards. `None` is a body that is not valid JSON, or is the JSON
   * `null`: the `req.json()` of line 63, or the field access on line 67,
   * throws, and the catch answers 500 before any store call. Any other JSON
   * value reads its fields as `undefined`, which is the `PostBody` with every
   * field `None` (a 400).
   */
  function CreateSpec(t: Tables, failing: set<nat>, body: Option<PostBody>, today: string): (Response, Tables) {
    if body.None? then (ServerError, t)
    else
      match NormalizeBody(body.value, today)
      case Failure(e) => (Response(400, Error(Message(e))), t)
      case Success(req) => WriteSpec(t, failing, req)
  }

  /** Lines 96-135: the three write phases, then the read-back; any failed store call answers 500. */
  function WriteSpec(t: Tables, failing: set<nat>, req: Request): (Response, Tables) {
    var (created, t1) := InsertTreatmentStep(t, failing, req.patientId, req.date, req.valuePaid, req.nextDate);
    if created.None? then (ServerError, t1)
    else
      var (inserted, t2) := InsertItemsStep(t1, failing, created.value.id, req.items);
      if !inserted then (ServerError, t2)
      else StockSpec(t2, failing, req, created.value)
  }

  /** Lines 114-135: the stock phase, then the read-back of the created treatment. */
  function StockSpec(t: Tables, failing: set<nat>, req: Request, created: TreatmentRow): (Response, Tables) {
    var (outcome, t1) := DecrementAll(t, failing, req.items);
    if outcome.FailedAt? then (ServerError, t1)
    else ReadBackSpec(t1, failing, req.patientId, created)
  }

  /** Lines 132-135: list the patient's treatments and answer with the one just created. */
  function ReadBackSpec(t: Tables, failing: set<nat>, patientId: string, created: TreatmentRow): (Response, Tables) {
    var (full, t1) := ListSpec(t, failing, patientId);
    if full.None? then (ServerError, t1)
    else (Response(201, CreatedTreatment(Pick(full.value, created))), t1)
  }

  /** `GET /api/treatments?patientId=…` (lines 44-59). */
  function GetSpec(t: Tables, failing: set<nat>, patientId: Option<string>): (Response, Tables) {
    if !Truthy(patientId) then (Response(400, Error(MissingQueryMessage)), t)
    else
      var (list, t1) := ListSpec(t, failing, patientId.value);
      if list.None? then (ServerError, t1) else (Response(200, TreatmentList(list.value)), t1)
  }

  // ---------------------------------------------------------------------------
  // The routes as the source runs them.

  /** Lines 27-41: bucket the fetched rows by treatment id in a dictionary, then attach a bucket to each treatment. */
  method Attach(ts: seq<TreatmentRow>, fetched: seq<FetchedItem>) returns (views: seq<TreatmentView>)
    ensures |views| == |ts|
    ensures forall i :: 0 <= i < |ts| ==> views[i].row == ts[i] && views[i].items == ItemsFor(fetched, ts[i].id)
  {
    var byTreat: map<Id, seq<ViewItem>> := map[];
    for i := 0 to |fetched|
      invariant forall k :: k in byTreat <==> ItemsFor(fetched[..i], k) != []
      invariant forall k :: k in byTreat ==> byTreat[k] == ItemsFor(fetched[..i], k)
    {
      assert fetched[..i + 1][..i] == fetched[..i];
      var it := fetched[i];
      var list := if it.treatmentId in byTreat then byTreat[it.treatmentId] else [];
      byTreat := byTreat[it.treatmentId := list + [ViewOf(it)]];
    }
    assert fetched[..|fetched|] == fetched;
    views := [];
    for j := 0 to |ts|
      invariant |views| == j
      invariant forall i :: 0 <= i < j ==> views[i].row == ts[i] && views[i].items == ItemsFor(fetched, ts[i].id)
    {
      var items := if ts[j].id in byTreat then byTreat[ts[j].id] else [];
      views := views + [TreatmentView(ts[j], items)];
    }
  }

  /** `listWithItems` (lines 7-42); `None` is the error it throws. */
  method ListWithItems(store: Store, patientId: string) returns (list: Option<seq<TreatmentView>>)
    modifies store
    ensures (list, store.State()) == ListSpec(old(store.State()), store.failing, patientId)
  {
    var ts := store.SelectTreatments(patientId);
    if ts.None? {
      return None;
    }
    var ids := IdsOf(ts.value);
    if |ids| == 0 {
      return Some([]);
    }
    var fetched := store.SelectItems(ids);
    if fetched.None? {
      return None;
    }
    var views := Attach(ts.value, fetched.value);
    assert views == Compose(ts.value, fetched.value);
    list := Some(views);
  }

  /** `POST /api/treatments`; `today` is the date the clock would give. */
  method Post(store: Store, body: Option<PostBody>, today: string) returns (resp: Response)
    modifies store
    ensures (resp, store.State()) == CreateSpec(old(store.State()), store.failing, body, today)
  {
    if body.None? {
      return ServerError;
    }
    var normalized := NormalizeBody(body.value, today);
    if normalized.Failure? {
      return Response(400, Error(Message(normalized.error)));
    }
    resp := Write(store, normalized.value);
  }

  /** Lines 96-135 on the store. */
  method Write(store: Store, req: Request) returns (resp: Response)
    modifies store
    ensures (resp, store.State()) == WriteSpec(old(store.State()), store.failing, req)
  {
    var created := store.InsertTreatment(req.patientId, req.date, req.valuePaid, req.nextDate);
    if created.None? {
      return ServerError;
    }
    var inserted := store.InsertItems(created.value.id, req.items);
    if !inserted {
      return ServerError;
    }
    var outcome := DecrementStock(store, req.items);
    if outcome.FailedAt? {
      return ServerError;
    }
    var full := ListWithItems(store, req.patientId);
    if full.None? {
      return ServerError;
    }
    resp := Response(201, CreatedTreatment(Pick(full.value, created.value)));
  }

  /** Lines 117-128: read one item's stock and write back the floored difference. */
  method DecrementItem(store: Store, item: NewItem, k: nat) returns (outcome: Outcome)
    modifies store
    ensures (outcome, store.State()) == DecrementOne(old(store.State()), store.failing, item, k)
  {
    var current := store.ReadAsset(item.assetId);
    if current.None? {
      return FailedAt(k);
    }
    var updated := store.UpdateAsset(item.assetId, NewQuantity(current.value, item.quantity));
    if !updated {
      return FailedAt(k);
    }
    outcome := Done;
  }

  /** Lines 116-129: for each item in order, read its asset's stock and write back the floored difference. */
  method DecrementStock(store: Store, items: seq<NewItem>) returns (outcome: Outcome)
    modifies store
    ensures (outcome, store.State()) == DecrementAll(old(store.State()), store.failing, items)
  {
    ghost var t0 := store.State();
    var i := 0;
    while i < |items|
      invariant 0 <= i <= |items|
      invariant DecrementAll(t0, store.failing, items[..i]) == (Done, store.State())
    {
      assert items[..i + 1][..i] == items[..i];
      var o := DecrementItem(store, items[i], i);
      if o.FailedAt? {
        DecrementAllStops(t0, store.failing, items, i + 1);
        return o;
      }
      i := i + 1;
    }
    assert items[..i] == items;
    outcome := Done;
  }

  /** `GET /api/treatments?patientId=…`; `patientId` is the query parameter, absent or present. */
  method Get(store: Store, patientId: Option<string>) returns (resp: Response)
    modifies store
    ensures (resp, store.State()) == GetSpec(old(store.State()), store.failing, patientId)
  {
    if !Truthy(patientId) {
      return Response(400, Error(MissingQueryMessage));
    }
    var list := ListWithItems(store, patientId.value);
    if list.None? {
      return ServerError;
    }
    resp := Response(200, TreatmentList(list.value));
  }
}
