/**
 * `groupAppsByTreatment` (app/api/_utils/treatments.ts): index the assets by
 * the string form of their id, then bucket the applications by the string
 * form of their treatment id, each entry carrying its asset's name and unit
 * (or `""` when the asset is not in the index).
 *
 * Keys are JavaScript object keys, so an id is compared through `String(id)`:
 * the number 7 and the string "7" name the same key.
 */
module TreatmentGrouping {
  import opened Wrappers

  /** The largest integer a JavaScript number holds exactly (2^53 - 1, `Number.MAX_SAFE_INTEGER`). */
  const MaxSafeInteger: nat := 0x1F_FFFF_FFFF_FFFF

  /**
   * A numeric id: a non-negative safe integer. Below 10^21, `String(n)`
   * writes such a number as its plain decimal numeral.
   */
  type SafeNat = n: nat | n <= MaxSafeInteger

  /** An id as the JSON value carries it: `string | number`. */
  datatype JsId = Text(s: string) | Number(n: SafeNat)

  datatype Asset = Asset(id: JsId, name: string, unit: Option<string>)

  datatype Application = Application(id: JsId, treatmentId: JsId, assetId: JsId, quantity: real)

  /** `{ asset_id, asset_name, unit, quantity }`. */
  datatype Entry = Entry(assetId: string, assetName: string, unit: string, quantity: real)

  function DigitChar(d: nat): char
    requires d < 10
  {
    "0123456789"[d]
  }

  /** The decimal numeral of `n`: `String(n)` for a non-negative integer below 10^21. */
  function Decimal(n: nat): (s: string)
    ensures |s| >= 1
    ensures forall i :: 0 <= i < |s| ==> '0' <= s[i] <= '9'
    decreases n
  {
    if n < 10 then [DigitChar(n)] else Decimal(n / 10) + [DigitChar(n % 10)]
  }

  /** `String(id)`. */
  function Str(id: JsId): string {
    match id
    case Text(s) => s
    case Number(n) => Decimal(n)
  }

  // ---------------------------------------------------------------------------
  // Reference definitions.

  /** The asset the index of lines 30-33 holds under `key`: the last one whose id reads `key`. */
  function LastAsset(assets: seq<Asset>, key: string): Option<Asset>
    decreases |assets|
  {
    if assets == [] then None
    else if Str(assets[|assets| - 1].id) == key then Some(assets[|assets| - 1])
    else LastAsset(assets[..|assets| - 1], key)
  }

  /** Lines 43-48: the entry for `app` given the asset found for it, if any. */
  function EntryOf(app: Application, found: Option<Asset>): Entry {
    Entry(
      Str(app.assetId),
      if found.Some? then found.value.name else "",
      if found.Some? && found.value.unit.Some? then found.value.unit.value else "",
      app.quantity)
  }

  /** The entry of `app`, looking its asset up in `assets`. */
  function EntryIn(app: Application, assets: seq<Asset>): Entry {
    EntryOf(app, LastAsset(assets, Str(app.assetId)))
  }

  /** The group under key `k`: the entries of the applications whose treatment id reads `k`, in input order. */
  function Bucket(apps: seq<Application>, assets: seq<Asset>, k: string): seq<Entry>
    decreases |apps|
  {
    if apps == [] then []
    else
      var last := apps[|apps| - 1];
      Bucket(apps[..|apps| - 1], assets, k) + (if Str(last.treatmentId) == k then [EntryIn(last, assets)] else [])
  }

  /** The treatment ids occurring in `apps`, as keys. */
  function KeysOf(apps: seq<Application>): set<string>
    decreases |apps|
  {
    if apps == [] then {} else KeysOf(apps[..|apps| - 1]) + {Str(apps[|apps| - 1].treatmentId)}
  }

  // ---------------------------------------------------------------------------
  // The function as the source runs it.

  /** Lines 29-33: the first loop, filling `assetsById` with each asset under its id read as a string. */
  method IndexById(assets: seq<Asset>) returns (assetsById: map<string, Asset>)
    ensures forall k :: k in assetsById <==> LastAsset(assets, k).Some?
    ensures forall k :: k in assetsById ==> LastAsset(assets, k) == Some(assetsById[k])
  {
    assetsById := map[];
    for i := 0 to |assets|
      invariant forall k :: k in assetsById <==> LastAsset(assets[..i], k).Some?
      invariant forall k :: k in assetsById ==> LastAsset(assets[..i], k) == Some(assetsById[k])
    {
      assert assets[..i + 1][..i] == assets[..i];
      assetsById := assetsById[Str(assets[i].id) := assets[i]];
    }
    assert assets[..|assets|] == assets;
  }

  /** Lines 23-52: the asset index, then a loop filling the dictionary `grouped` in place. */
  method GroupAppsByTreatment(apps: seq<Application>, assets: seq<Asset>) returns (grouped: map<string, seq<Entry>>)
    ensures grouped.Keys == KeysOf(apps)
    ensures forall k :: k in grouped ==> grouped[k] == Bucket(apps, assets, k)
  {
    var assetsById := IndexById(assets);
    grouped := map[];
    for i := 0 to |apps|
      invariant grouped.Keys == KeysOf(apps[..i])
      invariant forall k :: k in grouped ==> grouped[k] == Bucket(apps[..i], assets, k)
    {
      assert apps[..i + 1][..i] == apps[..i];
      var app := apps[i];
      var key := Str(app.treatmentId);
      var list := if key in grouped then grouped[key] else [];
      if key !in grouped {
        BucketEmpty(apps[..i], assets, key);
      }
      var a := Str(app.assetId);
      var found := if a in assetsById then Some(assetsById[a]) else None;
      assert found == LastAsset(assets, a);
      assert list + [EntryOf(app, found)] == Bucket(apps[..i + 1], assets, key);
      grouped := grouped[key := list + [EntryOf(app, found)]];
      assert KeysOf(apps[..i + 1]) == KeysOf(apps[..i]) + {key};
    }
    assert apps[..|apps|] == apps;
  }

  // ---------------------------------------------------------------------------
  // Properties.

  /** The output keys are exactly the treatment ids occurring in `apps`. */
  lemma {:induction false} KeysOfMembers(apps: seq<Application>, k: string)
    ensures k in KeysOf(apps) <==> exists i :: 0 <= i < |apps| && Str(apps[i].treatmentId) == k
    decreases |apps|
  {
    if apps != [] {
      var p := apps[..|apps| - 1];
      var last := Str(apps[|p|].treatmentId);
      KeysOfMembers(p, k);
      assert KeysOf(apps) == KeysOf(p) + {last};
      if k in KeysOf(p) {
        var i :| 0 <= i < |p| && Str(p[i].treatmentId) == k;
        assert apps[i] == p[i];
      } else if k != last {
        forall i | 0 <= i < |apps|
          ensures Str(apps[i].treatmentId) != k
        {
          if i < |p| {
            assert apps[i] == p[i];
          }
        }
      }
    }
  }

  /** No empty group: a key has entries exactly when some application carries it. */
  lemma {:induction false} BucketEmpty(apps: seq<Application>, assets: seq<Asset>, k: string)
    ensures Bucket(apps, assets, k) == [] <==> k !in KeysOf(apps)
    decreases |apps|
  {
    if apps != [] {
      BucketEmpty(apps[..|apps| - 1], assets, k);
    }
  }

  /** The indices of the applications whose treatment id reads `k`, in increasing order. */
  function Positions(apps: seq<Application>, k: string): seq<nat>
    decreases |apps|
  {
    if apps == [] then []
    else Positions(apps[..|apps| - 1], k) + (if Str(apps[|apps| - 1].treatmentId) == k then [|apps| - 1] else [])
  }

  /**
   * Every application appears exactly once, in input order, in the group of
   * its own treatment id: the positions listed under `k` are increasing, each
   * names an application with key `k`, and every such application is listed.
   */
  lemma {:induction false} PositionsExact(apps: seq<Application>, k: string)
    ensures forall j :: 0 <= j < |Positions(apps, k)| ==>
      Positions(apps, k)[j] < |apps| && Str(apps[Positions(apps, k)[j]].treatmentId) == k
    ensures forall j, j' :: 0 <= j < j' < |Positions(apps, k)| ==> Positions(apps, k)[j] < Positions(apps, k)[j']
    ensures forall i :: 0 <= i < |apps| && Str(apps[i].treatmentId) == k ==> i in Positions(apps, k)
  {
    PositionsValid(apps, k);
    PositionsIncreasing(apps, k);
    PositionsComplete(apps, k);
  }

  lemma {:induction false} PositionsValid(apps: seq<Application>, k: string)
    ensures forall j :: 0 <= j < |Positions(apps, k)| ==>
      Positions(apps, k)[j] < |apps| && Str(apps[Positions(apps, k)[j]].treatmentId) == k
    decreases |apps|
  {
    if apps != [] {
      var p := apps[..|apps| - 1];
      var ps := Positions(p, k);
      var tail: seq<nat> := if Str(apps[|p|].treatmentId) == k then [|p|] else [];
      var all := Positions(apps, k);
      assert all == ps + tail;
      PositionsValid(p, k);
      forall j | 0 <= j < |all|
        ensures all[j] < |apps| && Str(apps[all[j]].treatmentId) == k
      {
        if j < |ps| {
          assert all[j] == ps[j];
          assert apps[ps[j]] == p[ps[j]];
        } else {
          assert all[j] == tail[j - |ps|] == |p|;
        }
      }
    }
  }

  lemma {:induction false} PositionsIncreasing(apps: seq<Application>, k: string)
    ensures forall j :: 0 <= j < |Positions(apps, k)| ==> Positions(apps, k)[j] < |apps|
    ensures forall j, j' :: 0 <= j < j' < |Positions(apps, k)| ==> Positions(apps, k)[j] < Positions(apps, k)[j']
    decreases |apps|
  {
    if apps != [] {
      var p := apps[..|apps| - 1];
      PositionsIncreasing(p, k);
    }
  }

  lemma {:induction false} PositionsComplete(apps: seq<Application>, k: string)
    ensures forall i :: 0 <= i < |apps| && Str(apps[i].treatmentId) == k ==> i in Positions(apps, k)
    decreases |apps|
  {
    if apps != [] {
      var p := apps[..|apps| - 1];
      PositionsComplete(p, k);
      forall i | 0 <= i < |p|
        ensures apps[i] == p[i]
      {
      }
    }
  }

  /** The group under `k` holds, in order, the entries of the applications at `Positions(apps, k)`. */
  lemma {:induction false} BucketAt(apps: seq<Application>, assets: seq<Asset>, k: string)
    ensures |Bucket(apps, assets, k)| == |Positions(apps, k)|
    ensures forall j :: 0 <= j < |Positions(apps, k)| ==>
      Positions(apps, k)[j] < |apps| && Bucket(apps, assets, k)[j] == EntryIn(apps[Positions(apps, k)[j]], assets)
    decreases |apps|
  {
    if apps != [] {
      var p := apps[..|apps| - 1];
      BucketAt(p, assets, k);
      PositionsExact(p, k);
      forall j | 0 <= j < |Positions(p, k)|
        ensures apps[Positions(p, k)[j]] == p[Positions(p, k)[j]]
      {
      }
    }
  }

  /** The keys in order of first occurrence. */
  function KeyOrder(apps: seq<Application>): seq<string>
    decreases |apps|
  {
    if apps == [] then []
    else
      var seen := KeyOrder(apps[..|apps| - 1]);
      var k := Str(apps[|apps| - 1].treatmentId);
      if k in seen then seen else seen + [k]
  }

  lemma {:induction false} KeyOrderExact(apps: seq<Application>)
    ensures forall i, j :: 0 <= i < j < |KeyOrder(apps)| ==> KeyOrder(apps)[i] != KeyOrder(apps)[j]
    ensures forall k :: k in KeyOrder(apps) <==> k in KeysOf(apps)
    decreases |apps|
  {
    if apps != [] {
      KeyOrderExact(apps[..|apps| - 1]);
    }
  }

  /** The sizes of the groups under `keys`, added up. */
  function GroupSizes(apps: seq<Application>, assets: seq<Asset>, keys: seq<string>): nat
    decreases |keys|
  {
    if keys == [] then 0 else GroupSizes(apps, assets, keys[..|keys| - 1]) + |Bucket(apps, assets, keys[|keys| - 1])|
  }

  lemma {:induction false} GroupSizesStep(apps: seq<Application>, app: Application, assets: seq<Asset>, keys: seq<string>)
    requires forall i, j :: 0 <= i < j < |keys| ==> keys[i] != keys[j]
    ensures GroupSizes(apps + [app], assets, keys)
      == GroupSizes(apps, assets, keys) + (if Str(app.treatmentId) in keys then 1 else 0)
    decreases |keys|
  {
    assert (apps + [app])[..|apps + [app]| - 1] == apps;
    if keys != [] {
      var p := keys[..|keys| - 1];
      GroupSizesStep(apps, app, assets, p);
      assert Str(app.treatmentId) in keys <==> Str(app.treatmentId) in p || Str(app.treatmentId) == keys[|keys| - 1];
    }
  }

  lemma {:induction false} GroupSizesEmpty(apps: seq<Application>, assets: seq<Asset>, keys: seq<string>, k: string)
    requires Bucket(apps, assets, k) == []
    ensures GroupSizes(apps, assets, keys + [k]) == GroupSizes(apps, assets, keys)
  {
    assert (keys + [k])[..|keys + [k]| - 1] == keys;
  }

  /** The number of entries across all groups equals the number of applications. */
  lemma {:induction false} TotalEntries(apps: seq<Application>, assets: seq<Asset>)
    ensures GroupSizes(apps, assets, KeyOrder(apps)) == |apps|
    decreases |apps|
  {
    if apps != [] {
      var p, app := apps[..|apps| - 1], apps[|apps| - 1];
      assert apps == p + [app];
      var k := Str(app.treatmentId);
      TotalEntries(p, assets);
      KeyOrderExact(p);
      KeyOrderExact(apps);
      if k in KeyOrder(p) {
        GroupSizesStep(p, app, assets, KeyOrder(p));
      } else {
        BucketEmpty(p, assets, k);
        GroupSizesEmpty(p, assets, KeyOrder(p), k);
        GroupSizesStep(p, app, assets, KeyOrder(p) + [k]);
        assert k in KeyOrder(p) + [k];
      }
    }
  }

  /** No later asset in `assets` reads `key` after index `i`. */
  predicate NoLaterMatch(assets: seq<Asset>, key: string, i: nat)
    requires i < |assets|
  {
    forall j :: i < j < |assets| ==> Str(assets[j].id) != key
  }

  /**
   * With duplicate ids the later asset wins: the index holds the asset at the
   * last position whose id reads `key`, and nothing when no id reads `key`.
   */
  lemma {:induction false} LastAssetWins(assets: seq<Asset>, key: string)
    ensures LastAsset(assets, key).None? <==> forall i :: 0 <= i < |assets| ==> Str(assets[i].id) != key
    ensures forall i :: 0 <= i < |assets| && Str(assets[i].id) == key && NoLaterMatch(assets, key, i) ==>
      LastAsset(assets, key) == Some(assets[i])
    decreases |assets|
  {
    LastAssetNone(assets, key);
    forall i | 0 <= i < |assets| && Str(assets[i].id) == key && NoLaterMatch(assets, key, i)
      ensures LastAsset(assets, key) == Some(assets[i])
    {
      LastAssetAt(assets, key, i);
    }
  }

  /** The index holds nothing under `key` exactly when no id reads `key`. */
  lemma {:induction false} LastAssetNone(assets: seq<Asset>, key: string)
    ensures LastAsset(assets, key).None? <==> forall i :: 0 <= i < |assets| ==> Str(assets[i].id) != key
    decreases |assets|
  {
    if assets != [] {
      var p := assets[..|assets| - 1];
      LastAssetNone(p, key);
      if Str(assets[|p|].id) != key {
        assert LastAsset(assets, key) == LastAsset(p, key);
        if LastAsset(p, key).None? {
          forall i | 0 <= i < |assets|
            ensures Str(assets[i].id) != key
          {
            if i < |p| {
              assert assets[i] == p[i];
            }
          }
        } else {
          var i :| 0 <= i < |p| && Str(p[i].id) == key;
          assert assets[i] == p[i];
        }
      }
    }
  }

  /** The asset at the last position whose id reads `key` is the one the index holds. */
  lemma {:induction false} LastAssetAt(assets: seq<Asset>, key: string, i: nat)
    requires i < |assets| && Str(assets[i].id) == key && NoLaterMatch(assets, key, i)
    ensures LastAsset(assets, key) == Some(assets[i])
    decreases |assets|
  {
    var p := assets[..|assets| - 1];
    if i < |p| {
      assert Str(assets[|assets| - 1].id) != key;
      assert p[i] == assets[i];
      assert NoLaterMatch(p, key, i) by {
        assert forall j :: i < j < |p| ==> p[j] == assets[j];
      }
      LastAssetAt(p, key, i);
    }
  }

  /**
   * The entry keeps the application's asset id, as a string, and its quantity;
   * the name and unit are the indexed asset's (a null unit reads `""`), or
   * `""` and `""` when no asset has that id.
   */
  lemma {:induction false} EntryFields(app: Application, assets: seq<Asset>)
    ensures EntryIn(app, assets).assetId == Str(app.assetId)
    ensures EntryIn(app, assets).quantity == app.quantity
    ensures (forall i :: 0 <= i < |assets| ==> Str(assets[i].id) != Str(app.assetId)) ==>
      EntryIn(app, assets).assetName == "" && EntryIn(app, assets).unit == ""
    ensures forall i :: 0 <= i < |assets| && Str(assets[i].id) == Str(app.assetId)
                        && NoLaterMatch(assets, Str(app.assetId), i) ==>
      && EntryIn(app, assets).assetName == assets[i].name
      && EntryIn(app, assets).unit == assets[i].unit.GetOr("")
  {
    LastAssetWins(assets, Str(app.assetId));
  }

  /** A numeric id and its decimal string are one key: asset 7 and asset "7" collide, and the later one wins. */
  lemma {:induction false} NumberAndTextCollide()
    ensures var assets := [Asset(Number(7), "Soro", Some("ml")), Asset(Text("7"), "Vitamina", None)];
      EntryIn(Application(Number(1), Number(3), Text("7"), 2.0), assets) == Entry("7", "Vitamina", "", 2.0)
  {
    var assets := [Asset(Number(7), "Soro", Some("ml")), Asset(Text("7"), "Vitamina", None)];
    assert Str(Number(7)) == "7";
    assert LastAsset(assets, "7") == Some(assets[1]);
  }
}
