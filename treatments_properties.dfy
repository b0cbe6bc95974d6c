/**
 * What `POST` and `GET /api/treatments` promise, proved about their
 * specification functions: validation before any store call, the order and
 * the partial-failure states of the three write phases, the floor at zero and
 * the closed form of the stock decrement, and the read-back round trip.
 */
module TreatmentsProperties {
  import opened Wrappers
  import opened DataStore
  import opened TreatmentsRoute

  // ---------------------------------------------------------------------------
  // Reference definitions.

  /** The quantities of the items that name asset `a`, in item order. */
  function QuantitiesOf(items: seq<NewItem>, a: AssetId): seq<Option<real>>
    decreases |items|
  {
    if items == [] then []
    else
      QuantitiesOf(items[..|items| - 1], a)
      + (if items[|items| - 1].assetId == a then [items[|items| - 1].quantity] else [])
  }

  /** One asset's stock after decrementing it by each quantity in turn, each against the latest value. */
  function Fold(q0: Option<real>, qs: seq<Option<real>>): Option<real>
    decreases |qs|
  {
    if qs == [] then q0 else NewQuantity(Fold(q0, qs[..|qs| - 1]), qs[|qs| - 1])
  }

  function Total(qs: seq<Option<real>>): real
    decreases |qs|
  {
    if qs == [] then 0.0 else Total(qs[..|qs| - 1]) + qs[|qs| - 1].GetOr(0.0)
  }

  /** The rows of `items` that belong to treatment `tid`, in table order. */
  function RowsOf(items: seq<ItemRow>, tid: Id): seq<ItemRow> {
    if items == [] then []
    else (if items[0].treatmentId == tid then [items[0]] else []) + RowsOf(items[1..], tid)
  }

  /** Item rows as the listing shows them, each joined with its asset. */
  function Views(rows: seq<ItemRow>, assets: map<AssetId, AssetRow>): (vs: seq<ViewItem>)
    ensures |vs| == |rows|
    ensures forall j :: 0 <= j < |rows| ==> vs[j] == ViewOf(Join(rows[j], assets))
  {
    if rows == [] then [] else [ViewOf(Join(rows[0], assets))] + Views(rows[1..], assets)
  }

  predicate NonNegative(items: seq<NewItem>) {
    forall i :: 0 <= i < |items| ==> items[i].quantity.Some? && items[i].quantity.value >= 0.0
  }

  // ---------------------------------------------------------------------------
  // The stock ledger.

  /** Decrementing changes quantities only: the same assets, with the same names and units. */
  lemma {:induction false} ApplyAllKeepsAssets(assets: map<AssetId, AssetRow>, items: seq<NewItem>)
    ensures ApplyAll(assets, items).Keys == assets.Keys
    ensures forall a :: a in assets ==>
      ApplyAll(assets, items)[a].name == assets[a].name && ApplyAll(assets, items)[a].unit == assets[a].unit
    decreases |items|
  {
    if items != [] {
      ApplyAllKeepsAssets(assets, items[..|items| - 1]);
    }
  }

  /** Each asset ends at its own quantities applied one after another; other items do not touch it. */
  lemma {:induction false} ApplyAllAt(assets: map<AssetId, AssetRow>, items: seq<NewItem>, a: AssetId)
    requires a in assets
    ensures a in ApplyAll(assets, items)
    ensures ApplyAll(assets, items)[a].quantity == Fold(assets[a].quantity, QuantitiesOf(items, a))
    decreases |items|
  {
    if items != [] {
      var p := items[..|items| - 1];
      var last := items[|items| - 1];
      ApplyAllAt(assets, p, a);
      ApplyAllKeepsAssets(assets, p);
      var qs := QuantitiesOf(p, a);
      if last.assetId == a {
        assert QuantitiesOf(items, a) == qs + [last.quantity];
        assert (qs + [last.quantity])[..|qs|] == qs;
      } else {
        assert QuantitiesOf(items, a) == qs;
      }
    }
  }

  /** An asset no item names keeps its row. */
  lemma {:induction false} ApplyAllUntouched(assets: map<AssetId, AssetRow>, items: seq<NewItem>, a: AssetId)
    requires forall i :: 0 <= i < |items| ==> items[i].assetId != a
    ensures a in ApplyAll(assets, items) <==> a in assets
    ensures a in assets ==> ApplyAll(assets, items)[a] == assets[a]
    decreases |items|
  {
    if items != [] {
      ApplyAllUntouched(assets, items[..|items| - 1], a);
    }
  }

  lemma {:induction false} QuantitiesOfNonNegative(items: seq<NewItem>, a: AssetId)
    requires NonNegative(items)
    ensures forall j :: 0 <= j < |QuantitiesOf(items, a)| ==>
      QuantitiesOf(items, a)[j].Some? && QuantitiesOf(items, a)[j].value >= 0.0
    ensures QuantitiesOf(items, a) == [] <==> forall i :: 0 <= i < |items| ==> items[i].assetId != a
    decreases |items|
  {
    if items != [] {
      QuantitiesOfNonNegative(items[..|items| - 1], a);
    }
  }

  /** With non-negative quantities, sequential flooring equals one floored subtraction of the sum. */
  lemma {:induction false} FoldClosedForm(q0: Option<real>, qs: seq<Option<real>>)
    requires |qs| > 0
    requires forall j :: 0 <= j < |qs| ==> qs[j].Some? && qs[j].value >= 0.0
    ensures Fold(q0, qs) == Some(Max0(q0.GetOr(0.0) - Total(qs)))
    decreases |qs|
  {
    var p := qs[..|qs| - 1];
    if |p| > 0 {
      FoldClosedForm(q0, p);
    }
  }

  /**
   * The final stock of an asset named by some item is `max(0, initial - sum of
   * that asset's quantities)` (a null initial stock counting as 0); an asset no
   * item names is unchanged.
   */
  lemma {:induction false} StockAfterDecrements(assets: map<AssetId, AssetRow>, items: seq<NewItem>, a: AssetId)
    requires a in assets
    requires NonNegative(items)
    ensures a in ApplyAll(assets, items)
    ensures (exists i :: 0 <= i < |items| && items[i].assetId == a) ==>
      ApplyAll(assets, items)[a].quantity
        == Some(Max0(assets[a].quantity.GetOr(0.0) - Total(QuantitiesOf(items, a))))
    ensures (forall i :: 0 <= i < |items| ==> items[i].assetId != a) ==>
      ApplyAll(assets, items)[a] == assets[a]
  {
    ApplyAllAt(assets, items, a);
    QuantitiesOfNonNegative(items, a);
    if QuantitiesOf(items, a) != [] {
      FoldClosedForm(assets[a].quantity, QuantitiesOf(items, a));
    } else {
      ApplyAllUntouched(assets, items, a);
    }
  }

  /** No decrement leaves a negative stock behind: a touched asset holds null or a value >= 0. */
  lemma {:induction false} StockNeverNegative(assets: map<AssetId, AssetRow>, items: seq<NewItem>, a: AssetId)
    requires a in assets
    requires exists i :: 0 <= i < |items| && items[i].assetId == a
    ensures a in ApplyAll(assets, items)
    ensures ApplyAll(assets, items)[a].quantity.Some? ==> ApplyAll(assets, items)[a].quantity.value >= 0.0
  {
    ApplyAllAt(assets, items, a);
    var qs := QuantitiesOf(items, a);
    if qs == [] {
      var i :| 0 <= i < |items| && items[i].assetId == a;
      QuantitiesEmpty(items, a, i);
      assert false;
    }
  }

  lemma {:induction false} QuantitiesEmpty(items: seq<NewItem>, a: AssetId, i: nat)
    requires i < |items| && items[i].assetId == a
    ensures QuantitiesOf(items, a) != []
    decreases |items|
  {
    if i < |items| - 1 {
      QuantitiesEmpty(items[..|items| - 1], a, i);
    }
  }

  /** Stock 10 with items of 4 and 9 on the same asset ends at 0, not at -3. */
  lemma {:induction false} TwoItemsOnOneAsset()
    ensures var assets := map["A" := AssetRow("A", Some("ml"), Some(10.0))];
      var after := ApplyAll(assets, [NewItem("A", Some(4.0)), NewItem("A", Some(9.0))]);
      "A" in after && after["A"].quantity == Some(0.0)
  {
    var assets := map["A" := AssetRow("A", Some("ml"), Some(10.0))];
    var items := [NewItem("A", Some(4.0)), NewItem("A", Some(9.0))];
    assert items[..1] == [NewItem("A", Some(4.0))];
    assert items[..1][..0] == [];
  }

  // ---------------------------------------------------------------------------
  // The stock phase on the store (lines 116-129).

  /** The stock phase touches asset quantities only, and only appends to the log. */
  lemma {:induction false} DecrementAllFrame(t: Tables, failing: set<nat>, items: seq<NewItem>)
    ensures DecrementAll(t, failing, items).1.treatments == t.treatments
    ensures DecrementAll(t, failing, items).1.items == t.items
    ensures DecrementAll(t, failing, items).1.nextId == t.nextId
    ensures DecrementAll(t, failing, items).1.assets.Keys == t.assets.Keys
    ensures |t.log| <= |DecrementAll(t, failing, items).1.log|
    ensures DecrementAll(t, failing, items).1.log[..|t.log|] == t.log
    decreases |items|
  {
    if items != [] {
      DecrementAllFrame(t, failing, items[..|items| - 1]);
    }
  }

  /**
   * A completed stock phase issued exactly two calls per item, in item order:
   * a read of the item's asset and then a write to it, also when two items
   * share an asset.
   */
  lemma {:induction false} DecrementAllCalls(t: Tables, failing: set<nat>, items: seq<NewItem>)
    requires DecrementAll(t, failing, items).0.Done?
    ensures var log := DecrementAll(t, failing, items).1.log;
      && |log| == |t.log| + 2 * |items|
      && forall i :: 0 <= i < |items| ==>
           && log[|t.log| + 2 * i] == ReadAsset(items[i].assetId)
           && log[|t.log| + 2 * i + 1].UpdateAsset?
           && log[|t.log| + 2 * i + 1].assetId == items[i].assetId
    decreases |items|
  {
    if items != [] {
      var p := items[..|items| - 1];
      DecrementAllCalls(t, failing, p);
      DecrementAllFrame(t, failing, p);
    }
  }

  /** A completed stock phase issued two store calls per item. */
  lemma {:induction false} DecrementAllLength(t: Tables, failing: set<nat>, items: seq<NewItem>)
    requires DecrementAll(t, failing, items).0.Done?
    ensures |DecrementAll(t, failing, items).1.log| == |t.log| + 2 * |items|
    decreases |items|
  {
    if items != [] {
      DecrementAllLength(t, failing, items[..|items| - 1]);
    }
  }

  /** A completed stock phase found every item's asset and leaves the stock the ledger computes. */
  lemma {:induction false} DecrementAllDone(t: Tables, failing: set<nat>, items: seq<NewItem>)
    requires DecrementAll(t, failing, items).0.Done?
    ensures DecrementAll(t, failing, items).1.assets == ApplyAll(t.assets, items)
    ensures forall i :: 0 <= i < |items| ==> items[i].assetId in t.assets
    decreases |items|
  {
    if items != [] {
      var p := items[..|items| - 1];
      DecrementAllDone(t, failing, p);
      DecrementAllFrame(t, failing, p);
    }
  }

  /**
   * When the store call for item k fails (its read, its write, or the asset
   * does not exist), items before k have been applied, in order, and no item
   * from k on has.
   */
  lemma {:induction false} DecrementAllFailed(t: Tables, failing: set<nat>, items: seq<NewItem>)
    requires DecrementAll(t, failing, items).0.FailedAt?
    ensures var k := DecrementAll(t, failing, items).0.index;
      && k < |items|
      && DecrementAll(t, failing, items).1.assets == ApplyAll(t.assets, items[..k])
      && (|t.log| + 2 * k in failing || items[k].assetId !in t.assets || |t.log| + 2 * k + 1 in failing)
      && CallsSucceeded(|t.log|, failing, items, t.assets, k)
    decreases |items|
  {
    var p := items[..|items| - 1];
    var (o1, t1) := DecrementAll(t, failing, p);
    if o1.FailedAt? {
      assert DecrementAll(t, failing, items) == (o1, t1);
      DecrementAllFailed(t, failing, p);
      assert items[..o1.index] == p[..o1.index];
      assert items[o1.index] == p[o1.index];
      assert forall j :: 0 <= j < o1.index ==> items[j] == p[j];
    } else {
      DecrementAllFailedLast(t, failing, items);
    }
  }

  /** The case of DecrementAllFailed where the last item is the one that fails. */
  lemma {:induction false} DecrementAllFailedLast(t: Tables, failing: set<nat>, items: seq<NewItem>)
    requires items != []
    requires DecrementAll(t, failing, items[..|items| - 1]).0.Done?
    requires DecrementAll(t, failing, items).0.FailedAt?
    ensures var k := DecrementAll(t, failing, items).0.index;
      && k == |items| - 1
      && DecrementAll(t, failing, items).1.assets == ApplyAll(t.assets, items[..k])
      && (|t.log| + 2 * k in failing || items[k].assetId !in t.assets || |t.log| + 2 * k + 1 in failing)
      && CallsSucceeded(|t.log|, failing, items, t.assets, k)
  {
    var p := items[..|items| - 1];
    var t1 := DecrementAll(t, failing, p).1;
    assert DecrementAll(t, failing, items) == DecrementOne(t1, failing, items[|p|], |p|);
    DecrementAllDone(t, failing, p);
    DecrementAllLength(t, failing, p);
    DecrementAllFrame(t, failing, p);
    DecrementOneFailed(t1, failing, items[|p|], |p|);
    assert items[..|p|] == p;
    DecrementAllSucceeded(t, failing, p);
    assert forall j :: 0 <= j < |p| ==> items[j] == p[j];
  }

  /**
   * Item j's calls all went through for every j < k: its read (call
   * `base + 2j`) succeeded and found the asset, and its write (call
   * `base + 2j + 1`) succeeded.
   */
  ghost predicate CallsSucceeded(base: nat, failing: set<nat>, items: seq<NewItem>,
                                 assets: map<AssetId, AssetRow>, k: nat) {
    forall j :: 0 <= j < k && j < |items| ==>
      base + 2 * j !in failing && items[j].assetId in assets && base + 2 * j + 1 !in failing
  }

  /** A completed stock phase had no failed call and found every asset. */
  lemma {:induction false} DecrementAllSucceeded(t: Tables, failing: set<nat>, items: seq<NewItem>)
    requires DecrementAll(t, failing, items).0.Done?
    ensures CallsSucceeded(|t.log|, failing, items, t.assets, |items|)
    decreases |items|
  {
    if items != [] {
      var p := items[..|items| - 1];
      var t1 := DecrementAll(t, failing, p).1;
      assert DecrementAll(t, failing, p).0.Done?;
      assert DecrementAll(t, failing, items) == DecrementOne(t1, failing, items[|p|], |p|);
      DecrementAllSucceeded(t, failing, p);
      DecrementAllLength(t, failing, p);
      DecrementAllFrame(t, failing, p);
      DecrementOneDone(t1, failing, items[|p|], |p|);
      assert forall j :: 0 <= j < |p| ==> items[j] == p[j];
    }
  }

  /** A single item's read-modify-write that completes had both calls succeed on an existing asset. */
  lemma {:induction false} DecrementOneDone(t: Tables, failing: set<nat>, item: NewItem, k: nat)
    requires DecrementOne(t, failing, item, k).0.Done?
    ensures |t.log| !in failing && item.assetId in t.assets && |t.log| + 1 !in failing
  {
  }

  /** A single item's read-modify-write that fails leaves the asset table as it was. */
  lemma {:induction false} DecrementOneFailed(t: Tables, failing: set<nat>, item: NewItem, k: nat)
    requires DecrementOne(t, failing, item, k).0.FailedAt?
    ensures DecrementOne(t, failing, item, k).0.index == k
    ensures DecrementOne(t, failing, item, k).1.assets == t.assets
    ensures |t.log| in failing || item.assetId !in t.assets || |t.log| + 1 in failing
  {
  }

  /** Against a store that never fails, the stock phase completes when every item's asset exists. */
  lemma {:induction false} DecrementAllWithoutFaults(t: Tables, items: seq<NewItem>)
    requires forall i :: 0 <= i < |items| ==> items[i].assetId in t.assets
    ensures DecrementAll(t, {}, items).0.Done?
  {
    if DecrementAll(t, {}, items).0.FailedAt? {
      DecrementAllFailed(t, {}, items);
    }
  }

  // ---------------------------------------------------------------------------
  // The listing.

  lemma {:induction false} ItemsForAppend(a: seq<FetchedItem>, b: seq<FetchedItem>, k: Id)
    ensures ItemsFor(a + b, k) == ItemsFor(a, k) + ItemsFor(b, k)
    decreases |b|
  {
    if b == [] {
      assert a + b == a;
    } else {
      var b' := b[..|b| - 1];
      ItemsForAppend(a, b', k);
      assert (a + b)[..|a + b| - 1] == a + b';
    }
  }

  /** The fetched items a treatment gets are exactly its own rows, in table order, joined with their assets. */
  lemma {:induction false} FetchedItemsOf(items: seq<ItemRow>, ids: seq<Id>, assets: map<AssetId, AssetRow>, k: Id)
    requires k in ids
    ensures ItemsFor(Fetch(items, ids, assets), k) == Views(RowsOf(items, k), assets)
    decreases |items|
  {
    if items != [] {
      var head := if items[0].treatmentId in ids then [Join(items[0], assets)] else [];
      var rest := Fetch(items[1..], ids, assets);
      assert Fetch(items, ids, assets) == head + rest;
      FetchedItemsOf(items[1..], ids, assets, k);
      ItemsForAppend(head, rest, k);
      var later := RowsOf(items[1..], k);
      if items[0].treatmentId == k {
        var rows := [items[0]] + later;
        assert RowsOf(items, k) == rows;
        assert rows[1..] == later;
        assert head[..0] == [];
        assert ItemsFor(head, k) == [ViewOf(Join(items[0], assets))];
      } else {
        assert RowsOf(items, k) == [] + later;
        if head != [] {
          assert head[..0] == [];
        }
        assert ItemsFor(head, k) == [];
      }
    }
  }

  /** A treatment has no items in the listing exactly when no fetched row carries its id. */
  lemma {:induction false} ItemsForEmpty(fetched: seq<FetchedItem>, k: Id)
    ensures ItemsFor(fetched, k) == [] <==> forall j :: 0 <= j < |fetched| ==> fetched[j].treatmentId != k
    decreases |fetched|
  {
    if fetched != [] {
      ItemsForEmpty(fetched[..|fetched| - 1], k);
    }
  }

  lemma {:induction false} RowsOfAppend(a: seq<ItemRow>, b: seq<ItemRow>, k: Id)
    ensures RowsOf(a + b, k) == RowsOf(a, k) + RowsOf(b, k)
    decreases |a|
  {
    if a == [] {
      assert a + b == b;
    } else {
      RowsOfAppend(a[1..], b, k);
      assert (a + b)[1..] == a[1..] + b;
    }
  }

  lemma {:induction false} RowsOfNone(items: seq<ItemRow>, k: Id)
    requires forall i :: 0 <= i < |items| ==> items[i].treatmentId != k
    ensures RowsOf(items, k) == []
    decreases |items|
  {
    if items != [] {
      RowsOfNone(items[1..], k);
    }
  }

  lemma {:induction false} RowsOfAll(items: seq<ItemRow>, k: Id)
    requires forall i :: 0 <= i < |items| ==> items[i].treatmentId == k
    ensures RowsOf(items, k) == items
    decreases |items|
  {
    if items != [] {
      RowsOfAll(items[1..], k);
    }
  }

  lemma {:induction false} OfPatientAppend(ts: seq<TreatmentRow>, row: TreatmentRow, p: string)
    ensures OfPatient(ts + [row], p) == OfPatient(ts, p) + (if row.patientId == p then [row] else [])
    decreases |ts|
  {
    var tail := if row.patientId == p then [row] else [];
    if ts == [] {
      assert ts + [row] == [row];
      assert OfPatient([row], p) == tail + OfPatient([row][1..], p);
    } else {
      var whole := ts + [row];
      assert whole[0] == ts[0] && whole[1..] == ts[1..] + [row];
      var head := if ts[0].patientId == p then [ts[0]] else [];
      var mid := OfPatient(ts[1..], p);
      OfPatientAppend(ts[1..], row, p);
      assert OfPatient(whole, p) == head + (mid + tail);
      assert OfPatient(ts, p) == head + mid;
      assert head + (mid + tail) == (head + mid) + tail;
    }
  }

  lemma {:induction false} OfPatientBelow(ts: seq<TreatmentRow>, p: string, bound: Id)
    requires forall i :: 0 <= i < |ts| ==> ts[i].id < bound
    ensures forall i :: 0 <= i < |OfPatient(ts, p)| ==> OfPatient(ts, p)[i].id < bound
    decreases |ts|
  {
    if ts != [] {
      OfPatientBelow(ts[1..], p, bound);
    }
  }

  /**
   * `listWithItems` keeps the order of the selected treatments, gives each
   * exactly its own item rows in table order, joined with the current asset
   * name and unit, and only reads the store.
   */
  lemma {:induction false} ListShape(t: Tables, failing: set<nat>, patientId: string)
    ensures var (list, t') := ListSpec(t, failing, patientId);
      && t'.treatments == t.treatments && t'.items == t.items && t'.assets == t.assets && t'.nextId == t.nextId
      && (list.Some? ==>
            var ts := OfPatient(t.treatments, patientId);
            && |list.value| == |ts|
            && forall i :: 0 <= i < |ts| ==>
                 list.value[i].row == ts[i] && list.value[i].items == Views(RowsOf(t.items, ts[i].id), t.assets))
  {
    var (list, t') := ListSpec(t, failing, patientId);
    if list.Some? {
      var ts := OfPatient(t.treatments, patientId);
      var ids := IdsOf(ts);
      forall i | 0 <= i < |ts|
        ensures list.value[i].items == Views(RowsOf(t.items, ts[i].id), t.assets)
      {
        assert ids[i] == ts[i].id;
        FetchedItemsOf(t.items, ids, t.assets, ts[i].id);
      }
    }
  }

  /** A patient without treatments lists as `[]`, after a single store call. */
  lemma {:induction false} ListNoTreatments(t: Tables, failing: set<nat>, patientId: string)
    requires OfPatient(t.treatments, patientId) == []
    requires |t.log| !in failing
    ensures ListSpec(t, failing, patientId) == (Some([]), t.(log := t.log + [SelectTreatments(patientId)]))
  {
  }


  // ---------------------------------------------------------------------------
  // POST /api/treatments.

  /** The treatment row the insert of line 99 creates. */
  function RowFor(t: Tables, req: Request): TreatmentRow {
    TreatmentRow(t.nextId, req.patientId, req.date, req.valuePaid, req.nextDate)
  }

  /** The item rows the batch insert of lines 105-112 creates: created id, i-th asset, i-th quantity. */
  function RowsFor(t: Tables, req: Request): seq<ItemRow> {
    ItemRows(t.nextId + 1, t.nextId, req.items)
  }

  /** Phase 1 failed: nothing was written. */
  ghost predicate NothingWritten(t: Tables, t': Tables) {
    t'.treatments == t.treatments && t'.items == t.items && t'.assets == t.assets
  }

  /** Phase 2 failed: the treatment row stays, without items, and no stock was touched. */
  ghost predicate TreatmentOnly(t: Tables, req: Request, t': Tables) {
    t'.treatments == t.treatments + [RowFor(t, req)] && t'.items == t.items && t'.assets == t.assets
  }

  /** Both inserts went through, and the stock is that of the first `k` items applied. */
  ghost predicate RowsWritten(t: Tables, req: Request, t': Tables, k: nat)
    requires k <= |req.items|
  {
    && t'.treatments == t.treatments + [RowFor(t, req)]
    && t'.items == t.items + RowsFor(t, req)
    && t'.assets == ApplyAll(t.assets, req.items[..k])
  }

  /**
   * The stock phase stopped at item k, its first failure: both inserts went
   * through, the items before k are applied and had all their calls succeed,
   * and item k's read (log position |t.log| + 2 + 2k) failed or found no
   * asset, or its write (log position |t.log| + 3 + 2k) failed.
   */
  ghost predicate StoppedAt(t: Tables, failing: set<nat>, req: Request, t': Tables, k: nat) {
    && k < |req.items| && RowsWritten(t, req, t', k)
    && (|t.log| + 2 + 2 * k in failing || req.items[k].assetId !in t.assets || |t.log| + 3 + 2 * k in failing)
    && CallsSucceeded(|t.log| + 2, failing, req.items, t.assets, k)
  }

  /** The item the stock phase stopped at is determined: no two items can both be its first failure. */
  lemma {:induction false} StoppedAtUnique(t: Tables, failing: set<nat>, req: Request, t': Tables, k: nat, k': nat)
    requires StoppedAt(t, failing, req, t', k) && StoppedAt(t, failing, req, t', k')
    ensures k == k'
  {
  }

  /** The created treatment as the listing shows it: its row and its N items, carrying the current asset name and unit. */
  ghost predicate ShowsCreated(t: Tables, req: Request, resp: Response) {
    && resp.payload.CreatedTreatment? && resp.payload.created.Listed?
    && resp.payload.created.view.row == RowFor(t, req)
    && |resp.payload.created.view.items| == |req.items|
    && forall j :: 0 <= j < |req.items| ==>
         && req.items[j].assetId in t.assets
         && resp.payload.created.view.items[j]
              == ViewItem(t.nextId + 1 + j, Some(req.items[j].assetId),
                          Some(t.assets[req.items[j].assetId].name),
                          t.assets[req.items[j].assetId].unit, req.items[j].quantity)
  }

  /**
   * A 400 comes from validation alone and leaves the store untouched: no call
   * is issued. The same holds for the 500 of a body that does not parse.
   */
  lemma {:induction false} CreateRejects(t: Tables, failing: set<nat>, body: Option<PostBody>, today: string)
    ensures var (resp, t') := CreateSpec(t, failing, body, today);
      && resp.status in {201, 400, 500}
      && (resp.status == 400 <==> body.Some? && NormalizeBody(body.value, today).Failure?)
      && (resp.status == 400 ==> t' == t && resp.payload == Error(Message(NormalizeBody(body.value, today).error)))
      && (body.None? ==> resp == ServerError && t' == t)
  {
    if body.Some? && NormalizeBody(body.value, today).Success? {
      WritePhases(t, failing, NormalizeBody(body.value, today).value);
    }
  }

  /** The listing after the writes shows the new treatment with exactly its new rows. */
  lemma {:induction false} ListShowsCreated(t: Tables, failing: set<nat>, row: TreatmentRow, rows: seq<ItemRow>, prior: Tables)
    requires forall i :: 0 <= i < |prior.treatments| ==> prior.treatments[i].id < row.id
    requires forall i :: 0 <= i < |prior.items| ==> prior.items[i].treatmentId < row.id
    requires forall j :: 0 <= j < |rows| ==> rows[j].treatmentId == row.id
    requires t.treatments == prior.treatments + [row] && t.items == prior.items + rows
    requires ListSpec(t, failing, row.patientId).0.Some?
    ensures Pick(ListSpec(t, failing, row.patientId).0.value, row) == Listed(TreatmentView(row, Views(rows, t.assets)))
  {
    var full := ListSpec(t, failing, row.patientId).0.value;
    ListShape(t, failing, row.patientId);
    var before := OfPatient(prior.treatments, row.patientId);
    OfPatientAppend(prior.treatments, row, row.patientId);
    OfPatientBelow(prior.treatments, row.patientId, row.id);
    RowsOfAppend(prior.items, rows, row.id);
    RowsOfNone(prior.items, row.id);
    RowsOfAll(rows, row.id);
    assert RowsOf(t.items, row.id) == rows;
    assert full[|before|] == TreatmentView(row, Views(rows, t.assets));
    assert NoneBefore(full, row.id, |before|);
  }

  /** The read-back only reads, and answers 500 or the created treatment with exactly its new rows. */
  lemma {:induction false} ReadBackShows(t: Tables, failing: set<nat>, row: TreatmentRow, rows: seq<ItemRow>, prior: Tables)
    requires forall i :: 0 <= i < |prior.treatments| ==> prior.treatments[i].id < row.id
    requires forall i :: 0 <= i < |prior.items| ==> prior.items[i].treatmentId < row.id
    requires forall j :: 0 <= j < |rows| ==> rows[j].treatmentId == row.id
    requires t.treatments == prior.treatments + [row] && t.items == prior.items + rows
    ensures var (resp, t') := ReadBackSpec(t, failing, row.patientId, row);
      && t'.treatments == t.treatments && t'.items == t.items && t'.assets == t.assets && t'.nextId == t.nextId
      && (resp == ServerError || resp == Response(201, CreatedTreatment(Listed(TreatmentView(row, Views(rows, t.assets))))))
  {
    ListShape(t, failing, row.patientId);
    if ListSpec(t, failing, row.patientId).0.Some? {
      ListShowsCreated(t, failing, row, rows, prior);
    }
  }

  /** The store once both inserts have gone through. */
  ghost function Inserted(t: Tables, req: Request): Tables {
    t.(treatments := t.treatments + [RowFor(t, req)], items := t.items + RowsFor(t, req),
       nextId := t.nextId + 1 + |req.items|,
       log := t.log + [InsertTreatment(req.patientId), InsertItems(t.nextId, |req.items|)])
  }

  /** The two inserts take log positions `|t.log|` and `|t.log| + 1`; a failed one answers 500 at once. */
  lemma {:induction false} WritePhases(t: Tables, failing: set<nat>, req: Request)
    ensures WriteSpec(t, failing, req) ==
      if |t.log| in failing then (ServerError, t.(log := t.log + [InsertTreatment(req.patientId)]))
      else if |t.log| + 1 in failing then
        (ServerError, Inserted(t, req).(items := t.items, nextId := t.nextId + 1))
      else StockSpec(Inserted(t, req), failing, req, RowFor(t, req))
  {
    var (created, t1) := InsertTreatmentStep(t, failing, req.patientId, req.date, req.valuePaid, req.nextDate);
    if created.Some? {
      assert created.value == RowFor(t, req);
      var (inserted, t2) := InsertItemsStep(t1, failing, created.value.id, req.items);
      if inserted {
        assert t2 == Inserted(t, req);
      } else {
        assert t2 == Inserted(t, req).(items := t.items, nextId := t.nextId + 1);
      }
    }
  }

  /** The created item rows as the listing shows them once the stock phase is done. */
  lemma {:induction false} CreatedViews(t: Tables, req: Request)
    requires forall i :: 0 <= i < |req.items| ==> req.items[i].assetId in t.assets
    ensures var vs := Views(RowsFor(t, req), ApplyAll(t.assets, req.items));
      && |vs| == |req.items|
      && forall j :: 0 <= j < |req.items| ==>
           vs[j] == ViewItem(t.nextId + 1 + j, Some(req.items[j].assetId),
                             Some(t.assets[req.items[j].assetId].name),
                             t.assets[req.items[j].assetId].unit, req.items[j].quantity)
  {
    ApplyAllKeepsAssets(t.assets, req.items);
  }

  /** The stock phase stopped at item k: both inserts stay, items before k are applied, and the route answers 500. */
  lemma {:induction false} StockFailed(t: Tables, failing: set<nat>, req: Request)
    requires DecrementAll(Inserted(t, req), failing, req.items).0.FailedAt?
    ensures var (resp, t') := StockSpec(Inserted(t, req), failing, req, RowFor(t, req));
      && resp == ServerError
      && t'.nextId == t.nextId + 1 + |req.items|
      && StoppedAt(t, failing, req, t', DecrementAll(Inserted(t, req), failing, req.items).0.index)
  {
    var t2 := Inserted(t, req);
    var t3 := StockSpec(t2, failing, req, RowFor(t, req)).1;
    StockStopped(t2, failing, req, RowFor(t, req));
    var k := DecrementAll(t2, failing, req.items).0.index;
    assert |t2.log| == |t.log| + 2;
    assert t2.assets == t.assets;
    assert t3.treatments == t.treatments + [RowFor(t, req)];
    assert t3.items == t.items + RowsFor(t, req);
    assert RowsWritten(t, req, t3, k);
  }

  /** StockFailed for any store state: the inserted rows stay and the items before k are applied. */
  lemma {:induction false} StockStopped(t: Tables, failing: set<nat>, req: Request, created: TreatmentRow)
    requires DecrementAll(t, failing, req.items).0.FailedAt?
    ensures var (resp, t') := StockSpec(t, failing, req, created);
      && resp == ServerError
      && t'.treatments == t.treatments && t'.items == t.items && t'.nextId == t.nextId
      && var k := DecrementAll(t, failing, req.items).0.index;
      && k < |req.items| && t'.assets == ApplyAll(t.assets, req.items[..k])
      && (|t.log| + 2 * k in failing || req.items[k].assetId !in t.assets || |t.log| + 2 * k + 1 in failing)
      && CallsSucceeded(|t.log|, failing, req.items, t.assets, k)
  {
    DecrementAllFrame(t, failing, req.items);
    DecrementAllFailed(t, failing, req.items);
  }

  /** The stock phase completed: every item is applied and the read-back answers 500 or the created treatment. */
  lemma {:induction false} StockDone(t: Tables, failing: set<nat>, req: Request)
    requires Valid(t)
    requires DecrementAll(Inserted(t, req), failing, req.items).0.Done?
    ensures var (resp, t') := StockSpec(Inserted(t, req), failing, req, RowFor(t, req));
      && t'.nextId == t.nextId + 1 + |req.items|
      && RowsWritten(t, req, t', |req.items|)
      && CallsSucceeded(|t.log| + 2, failing, req.items, t.assets, |req.items|)
      && (resp == ServerError || (resp.status == 201 && ShowsCreated(t, req, resp)))
  {
    var t2 := Inserted(t, req);
    DecrementAllSucceeded(t2, failing, req.items);
    var row := RowFor(t, req);
    var rows := RowsFor(t, req);
    var t3 := DecrementAll(t2, failing, req.items).1;
    assert StockSpec(t2, failing, req, row) == ReadBackSpec(t3, failing, req.patientId, row);
    DecrementAllFrame(t2, failing, req.items);
    DecrementAllDone(t2, failing, req.items);
    assert req.items[..|req.items|] == req.items;
    assert t3.assets == ApplyAll(t.assets, req.items);
    assert t3.treatments == t.treatments + [row] && t3.items == t.items + rows;
    assert RowsWritten(t, req, t3, |req.items|);
    assert forall j :: 0 <= j < |rows| ==> rows[j].treatmentId == row.id;
    ReadBackShows(t3, failing, row, rows, t);
    var resp := ReadBackSpec(t3, failing, req.patientId, row).0;
    if resp != ServerError {
      assert resp == CreatedResponse(t, req);
      CreatedShown(t, req);
    }
  }

  /** The 201 answer of a completed write: the new row and its item rows, joined with the updated stock. */
  ghost function CreatedResponse(t: Tables, req: Request): Response {
    Response(201, CreatedTreatment(Listed(TreatmentView(RowFor(t, req),
      Views(RowsFor(t, req), ApplyAll(t.assets, req.items))))))
  }

  lemma {:induction false} CreatedShown(t: Tables, req: Request)
    requires forall i :: 0 <= i < |req.items| ==> req.items[i].assetId in t.assets
    ensures ShowsCreated(t, req, CreatedResponse(t, req))
  {
    CreatedViews(t, req);
  }

  /**
   * After both inserts: either the stock phase stops at its first failing
   * item k (its read, at log position `|t.log| + 2 + 2k`, found no asset or
   * failed, or its write, at `|t.log| + 3 + 2k`, failed) with the items
   * before k applied, or every item's read and write succeeded, every item
   * is applied, and the read-back answers 500 or the created treatment with
   * its N items.
   */
  lemma {:induction false} StockOutcomes(t: Tables, failing: set<nat>, req: Request)
    requires Valid(t)
    ensures var (resp, t') := StockSpec(Inserted(t, req), failing, req, RowFor(t, req));
      && t'.nextId == t.nextId + 1 + |req.items|
      && (resp.status == 201 || resp == ServerError)
      && (resp == ServerError ==>
            || (exists k: nat :: StoppedAt(t, failing, req, t', k))
            || (RowsWritten(t, req, t', |req.items|) && CallsSucceeded(|t.log| + 2, failing, req.items, t.assets, |req.items|)))
      && (resp.status == 201 ==> RowsWritten(t, req, t', |req.items|) && CallsSucceeded(|t.log| + 2, failing, req.items, t.assets, |req.items|) && ShowsCreated(t, req, resp))
  {
    if DecrementAll(Inserted(t, req), failing, req.items).0.FailedAt? {
      StockFailed(t, failing, req);
      var k := DecrementAll(Inserted(t, req), failing, req.items).0.index;
      var t' := StockSpec(Inserted(t, req), failing, req, RowFor(t, req)).1;
      assert StoppedAt(t, failing, req, t', k);
    } else {
      StockDone(t, failing, req);
    }
  }

  /**
   * The write phases end in 201 or 500. A 500 leaves one of four states, by
   * the first failed call: the treatment insert (log position `|t.log|`:
   * nothing written), the item insert (`|t.log| + 1`: the treatment row
   * alone), the stock phase at item k
   * (both inserts done and items before k applied), or the read-back
   * (everything written). A 201 means one treatment row and N item rows were
   * inserted, every item's asset was decremented in turn, and the answer is
   * the new treatment with its N items.
   */
  lemma {:induction false} WriteOutcomes(t: Tables, failing: set<nat>, req: Request)
    requires Valid(t)
    ensures var (resp, t') := WriteSpec(t, failing, req);
      && (resp.status == 201 || resp == ServerError)
      && (resp == ServerError ==>
            || (|t.log| in failing && NothingWritten(t, t'))
            || (|t.log| + 1 in failing && TreatmentOnly(t, req, t'))
            || (exists k: nat :: StoppedAt(t, failing, req, t', k))
            || (RowsWritten(t, req, t', |req.items|) && CallsSucceeded(|t.log| + 2, failing, req.items, t.assets, |req.items|)))
      && (resp.status == 201 ==> RowsWritten(t, req, t', |req.items|) && CallsSucceeded(|t.log| + 2, failing, req.items, t.assets, |req.items|) && ShowsCreated(t, req, resp))
      && Valid(t')
  {
    WritePhases(t, failing, req);
    var (resp, t') := WriteSpec(t, failing, req);
    if |t.log| !in failing && |t.log| + 1 !in failing {
      StockOutcomes(t, failing, req);
      assert t'.treatments == t.treatments + [RowFor(t, req)] && t'.items == t.items + RowsFor(t, req);
    }
  }

  /**
   * `POST /api/treatments` answers 400 (validation, no call issued), 500 (a
   * failed call, in one of the four states of `WriteOutcomes`) or 201 (one
   * treatment, its N items in input order, every item's stock decremented,
   * the answer showing the new treatment with its items).
   */
  lemma {:induction false} CreateOutcomes(t: Tables, failing: set<nat>, body: PostBody, today: string)
    requires Valid(t)
    ensures var (resp, t') := CreateSpec(t, failing, Some(body), today);
      && Valid(t')
      && (resp.status != 400 ==>
            && NormalizeBody(body, today).Success?
            && var req := NormalizeBody(body, today).value;
               && req.items == RawItems(body) && |req.items| > 0
               && (resp == ServerError ==>
                     || (|t.log| in failing && NothingWritten(t, t'))
                     || (|t.log| + 1 in failing && TreatmentOnly(t, req, t'))
                     || (exists k: nat :: StoppedAt(t, failing, req, t', k))
                     || (RowsWritten(t, req, t', |req.items|) && CallsSucceeded(|t.log| + 2, failing, req.items, t.assets, |req.items|)))
               && (resp.status == 201 ==> RowsWritten(t, req, t', |req.items|) && CallsSucceeded(|t.log| + 2, failing, req.items, t.assets, |req.items|)
                                           && ShowsCreated(t, req, resp)))
  {
    if NormalizeBody(body, today).Success? {
      var req := NormalizeBody(body, today).value;
      WriteOutcomes(t, failing, req);
    }
  }

  /**
   * `??` skips only null and undefined: an empty `patient_id` hides a later
   * `patientId` and the request is refused.
   */
  lemma {:induction false} EmptyAliasNotSkipped(t: Tables, failing: set<nat>, today: string)
    ensures var body := PostBody(Some(""), Some("p1"), None, None, None, None, None, None, None,
                                 Some([ItemIn("a1", Num(1.0))]), None, None);
      CreateSpec(t, failing, Some(body), today) == (Response(400, Error("patient_id é obrigatório")), t)
  {
    var body := PostBody(Some(""), Some("p1"), None, None, None, None, None, None, None,
                         Some([ItemIn("a1", Num(1.0))]), None, None);
    assert PatientOf(body) == Some("");
  }

  /**
   * A line item whose quantity is `null` counts as 0: a stock of x >= 0 stays
   * x, and a null stock (read as 0) becomes 0. One whose quantity is absent
   * is NaN, written back as null whatever the stock was; a `null` item after
   * it then writes 0.
   */
  lemma {:induction false} NullAndMissingQuantities(assets: map<AssetId, AssetRow>)
    requires "a1" in assets
    ensures var zero := ApplyAll(assets, FromItems([ItemIn("a1", Null)]));
            var missing := ApplyAll(assets, FromItems([ItemIn("a1", Missing)]));
            var both := ApplyAll(assets, FromItems([ItemIn("a1", Missing), ItemIn("a1", Null)]));
      && "a1" in zero && "a1" in missing && "a1" in both
      && (assets["a1"].quantity.Some? && assets["a1"].quantity.value >= 0.0 ==>
            zero["a1"].quantity == assets["a1"].quantity)
      && (assets["a1"].quantity.None? ==> zero["a1"].quantity == Some(0.0))
      && missing["a1"].quantity == None
      && both["a1"].quantity == Some(0.0)
  {
    var n := FromItems([ItemIn("a1", Null)]);
    var m := FromItems([ItemIn("a1", Missing)]);
    var b := FromItems([ItemIn("a1", Missing), ItemIn("a1", Null)]);
    assert n[..0] == [] && m[..0] == [];
    assert b[..1] == m && b[1] == n[0];
  }

  /** Against a store that never fails, a valid body whose assets all exist is answered with 201. */
  lemma {:induction false} CreateWithoutFaults(t: Tables, body: PostBody, today: string)
    requires NormalizeBody(body, today).Success?
    requires forall i :: 0 <= i < |NormalizeBody(body, today).value.items| ==>
      NormalizeBody(body, today).value.items[i].assetId in t.assets
    ensures CreateSpec(t, {}, Some(body), today).0.status == 201
  {
    var req := NormalizeBody(body, today).value;
    var (created, t1) := InsertTreatmentStep(t, {}, req.patientId, req.date, req.valuePaid, req.nextDate);
    var (inserted, t2) := InsertItemsStep(t1, {}, created.value.id, req.items);
    DecrementAllWithoutFaults(t2, req.items);
  }

  /**
   * Not idempotent: the same body posted twice and answered 201 twice gives
   * two treatments with distinct ids and decrements the stock twice.
   */
  lemma {:induction false} CreateTwice(t: Tables, failing: set<nat>, body: PostBody, today: string)
    requires Valid(t)
    ensures var (r1, t1) := CreateSpec(t, failing, Some(body), today);
            var (r2, t2) := CreateSpec(t1, failing, Some(body), today);
      r1.status == 201 && r2.status == 201 ==>
        && |t2.treatments| == |t.treatments| + 2
        && t2.treatments[|t.treatments|].id < t2.treatments[|t.treatments| + 1].id
        && t2.assets == ApplyAll(ApplyAll(t.assets, RawItems(body)), RawItems(body))
  {
    var (r1, t1) := CreateSpec(t, failing, Some(body), today);
    CreateOutcomes(t, failing, body, today);
    var (r2, t2) := CreateSpec(t1, failing, Some(body), today);
    CreateOutcomes(t1, failing, body, today);
    if r1.status == 201 && r2.status == 201 {
      var req := NormalizeBody(body, today).value;
      assert req.items[..|req.items|] == req.items;
      assert t1.nextId > t.nextId by {
        assert Valid(t1);
        assert t1.treatments[|t.treatments|] == RowFor(t, req);
      }
    }
  }

  // ---------------------------------------------------------------------------
  // GET /api/treatments.

  /** GET only reads: 400 exactly without a `patientId`, otherwise 200 with the listing or 500. */
  lemma {:induction false} GetOutcomes(t: Tables, failing: set<nat>, patientId: Option<string>)
    ensures var (resp, t') := GetSpec(t, failing, patientId);
      && t'.treatments == t.treatments && t'.items == t.items && t'.assets == t.assets && t'.nextId == t.nextId
      && (resp.status == 400 <==> !Truthy(patientId))
      && (resp.status == 400 ==> t' == t)
      && (resp.status != 400 ==>
            resp == ServerError
            || resp == Response(200, TreatmentList(ListSpec(t, failing, patientId.value).0.value)))
  {
    if Truthy(patientId) {
      ListShape(t, failing, patientId.value);
    }
  }

  /** A missing or empty `patientId` is a 400 before any store call. */
  lemma {:induction false} GetRequiresPatient(t: Tables, failing: set<nat>, patientId: Option<string>)
    requires !Truthy(patientId)
    ensures GetSpec(t, failing, patientId) == (Response(400, Error(MissingQueryMessage)), t)
  {
  }

  /** A patient with no treatments gets 200 and `[]`, not an error. */
  lemma {:induction false} GetNoTreatments(t: Tables, failing: set<nat>, patientId: string)
    requires patientId != ""
    requires OfPatient(t.treatments, patientId) == []
    requires |t.log| !in failing
    ensures GetSpec(t, failing, Some(patientId)).0 == Response(200, TreatmentList([]))
  {
  }
}
