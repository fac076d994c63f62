/** The two transactions that read many keys at once: ReadAllAssets, a range
    scan of the "asset" namespace collected into a map keyed by the first key
    part, and UpdateAssetsByType, which increments every asset a rich query
    returns. */
module Queries {
  import opened GoInts
  import opened Ledger
  import opened Invariant

  /** A key the partial-composite-key scan over ("asset", []) visits: every
      composite key of that namespace, whatever its number of parts. */
  predicate InAssetScan(k: Key) {
    k.Composite? && k.namespace == AssetNamespace
  }

  /** A scanned entry the loop body handles without failing: the value
      decodes as an asset, and the key has a first part to index. */
  predicate ScanEntryOk(k: Key, v: Value) {
    k.Composite? && |k.parts| > 0 && v.AssetRecord?
  }

  function ScanKeys(w: map<Key, Value>): set<Key> {
    set k | k in w && InAssetScan(k)
  }

  /** The distinct first key parts among the scanned keys. */
  function FirstParts(w: map<Key, Value>): set<string> {
    set k | k in w && InAssetScan(k) && |k.parts| > 0 :: k.parts[0]
  }

  predicate NoDuplicates(xs: seq<string>) {
    forall i, j :: 0 <= i < j < |xs| ==> xs[i] != xs[j]
  }

  /** Some scanned key with first part c holds exactly asset a. */
  predicate Witnessed(w: map<Key, Value>, c: string, a: Asset) {
    exists k :: k in w && InAssetScan(k) && |k.parts| > 0 && k.parts[0] == c && w[k] == AssetRecord(a)
  }

  /** The scan loop of ReadAllAssets: each visited entry is decoded and stored
      in a Go map under its first key part, a later entry with the same first
      part replacing an earlier one. The scan order is left open: each step
      picks any remaining key. */
  method CollectByFirstPart(w: map<Key, Value>) returns (r: Result<map<string, Asset>>)
    ensures r.Err? <==> exists k :: k in w && InAssetScan(k) && !ScanEntryOk(k, w[k])
    ensures r.Err? ==> r.error == Unmarshal || r.error == IndexOutOfRange
    ensures r.Ok? ==> r.value.Keys == FirstParts(w)
    ensures r.Ok? ==> forall c :: c in r.value ==> Witnessed(w, c, r.value[c])
  {
    var todo := ScanKeys(w);
    var found: map<string, Asset> := map[];
    ghost var done: set<Key> := {};
    while todo != {}
      invariant todo + done == ScanKeys(w) && todo !! done
      invariant forall k :: k in done ==> ScanEntryOk(k, w[k])
      invariant forall c :: c in found <==> exists k :: k in done && |k.parts| > 0 && k.parts[0] == c
      invariant forall c :: c in found ==> Witnessed(w, c, found[c])
      decreases todo
    {
      var k :| k in todo;
      var v := w[k];
      if !v.AssetRecord? {
        return Err(Unmarshal);
      }
      if |k.parts| == 0 {
        return Err(IndexOutOfRange);
      }
      found := found[k.parts[0] := v.asset];
      todo := todo - {k};
      done := done + {k};
    }
    AllScanned(w, found.Keys, done);
    return Ok(found);
  }

  /** The final loop of ReadAllAssets: the map's values, in the (unspecified)
      iteration order of the Go map. `firsts` (ghost) lists the map keys in
      the same order. */
  method MapValues(m: map<string, Asset>) returns (out: seq<Asset>, ghost firsts: seq<string>)
    ensures forall i :: 0 <= i < |out| ==> out[i] in m.Values
    ensures forall c :: c in m ==> m[c] in out
    ensures |out| == |firsts| && NoDuplicates(firsts)
    ensures forall c :: c in firsts <==> c in m
    ensures forall i :: 0 <= i < |firsts| ==> firsts[i] in m && out[i] == m[firsts[i]]
  {
    out := [];
    firsts := [];
    var rest := m.Keys;
    while rest != {}
      invariant rest <= m.Keys
      invariant |out| == |firsts| && NoDuplicates(firsts)
      invariant forall c :: c in firsts <==> c in m && c !in rest
      invariant forall i :: 0 <= i < |firsts| ==> firsts[i] in m && out[i] == m[firsts[i]]
      invariant forall i :: 0 <= i < |out| ==> out[i] in m.Values
      invariant forall c :: c in m && c !in rest ==> m[c] in out
      decreases rest
    {
      var c :| c in rest;
      out := out + [m[c]];
      firsts := firsts + [c];
      rest := rest - {c};
    }
  }

  /** ReadAllAssets: the scan, then the map's values. `firsts` (ghost) names
      the map key each returned asset came from. */
  method ReadAllAssets(s: State) returns (r: Result<seq<Asset>>, ghost firsts: seq<string>)
    ensures r.Err? <==> exists k :: k in s.world && InAssetScan(k) && !ScanEntryOk(k, s.world[k])
    ensures r.Err? ==> r.error == Unmarshal || r.error == IndexOutOfRange
    ensures r.Ok? ==> |r.value| == |firsts| && NoDuplicates(firsts)
    ensures r.Ok? ==> forall c :: c in firsts <==> c in FirstParts(s.world)
    ensures r.Ok? ==> forall i :: 0 <= i < |firsts| ==> Witnessed(s.world, firsts[i], r.value[i])
    ensures WellFormedWorld(s.world) ==> r.Ok?
    ensures WellFormedWorld(s.world) && r.Ok? ==>
              && (forall id :: AssetKey(id) in s.world <==> id in firsts)
              && (forall i :: 0 <= i < |firsts| ==>
                    AssetKey(firsts[i]) in s.world && s.world[AssetKey(firsts[i])] == AssetRecord(r.value[i]))
  {
    var collected := CollectByFirstPart(s.world);
    if collected.Err? {
      return Err(collected.error), [];
    }
    var found := collected.value;
    var out;
    out, firsts := MapValues(found);
    r := Ok(out);
    if WellFormedWorld(s.world) {
      ScanOfWellFormed(s.world, firsts, out);
    }
  }

  /** Once every scanned key is done, the first parts collected are all of
      them. */
  lemma AllScanned(w: map<Key, Value>, found: set<string>, done: set<Key>)
    requires done == ScanKeys(w)
    requires forall c :: c in found <==> exists k :: k in done && |k.parts| > 0 && k.parts[0] == c
    ensures forall c :: c in found <==> c in FirstParts(w)
  {
    forall c
      ensures c in found <==> c in FirstParts(w)
    {
      if c in FirstParts(w) {
        var k :| k in w && InAssetScan(k) && |k.parts| > 0 && k.parts[0] == c;
        assert k in done;
      }
    }
  }

  /** On a well-formed world the scan's first parts are exactly the asset ids,
      and the asset found for each is the one under its asset key. */
  lemma ScanOfWellFormed(w: map<Key, Value>, firsts: seq<string>, out: seq<Asset>)
    requires WellFormedWorld(w) && |out| == |firsts|
    requires forall c :: c in firsts <==> c in FirstParts(w)
    requires forall i :: 0 <= i < |firsts| ==> Witnessed(w, firsts[i], out[i])
    ensures forall id :: AssetKey(id) in w <==> id in firsts
    ensures forall i :: 0 <= i < |firsts| ==> AssetKey(firsts[i]) in w && w[AssetKey(firsts[i])] == AssetRecord(out[i])
  {
    forall i | 0 <= i < |firsts|
      ensures AssetKey(firsts[i]) in w && w[AssetKey(firsts[i])] == AssetRecord(out[i])
    {
      assert Witnessed(w, firsts[i], out[i]);
      var k :| k in w && InAssetScan(k) && |k.parts| > 0 && k.parts[0] == firsts[i] && w[k] == AssetRecord(out[i]);
      OnlyAssetKeys(w, k);
    }
    forall id
      ensures AssetKey(id) in w <==> id in firsts
    {
      if AssetKey(id) in w {
        assert AssetKey(id).parts[0] == id;
        assert id in FirstParts(w);
      }
    }
  }

  /** The rich query `{"selector":{"assetType":...}}` as it selects from the
      index: asset documents whose type equals the argument. */
  predicate Selected(index: map<Key, Value>, assetType: string, k: Key) {
    k in index && index[k].AssetRecord? && index[k].asset.assetType == assetType
  }

  /** `asset.Amount += 1`, in int32 arithmetic. */
  function Bumped(a: Asset): Asset {
    a.(amount := Wrap32(a.amount + 1))
  }

  /** UpdateAssetsByType. `index` is the state database as the rich query
      sees it; it may lag behind the committed world. Each hit is written back
      under its own key, computed from the indexed document, without reading
      the key again. */
  function UpdateAssetsByType(s: State, index: map<Key, Value>, assetType: string): (r: Step<()>)
    ensures r.result.Ok?
    ensures forall k :: Selected(index, assetType, k) ==>
              k in r.post.world && r.post.world[k] == AssetRecord(Bumped(index[k].asset))
    ensures forall k :: !Selected(index, assetType, k) ==>
              (k in r.post.world <==> k in s.world) && (k in s.world ==> r.post.world[k] == s.world[k])
    ensures r.post.collection == s.collection
    ensures r.post.ownerCounter == s.ownerCounter && r.post.totalCapacity == s.totalCapacity
  {
    var writes := map k | k in index && Selected(index, assetType, k) :: AssetRecord(Bumped(index[k].asset));
    Step(Ok(()), Commit(Begin(s).(writes := writes)))
  }
}
