/** Properties that relate several transactions: reading back what was
    created, owners minted one after another, re-initialisation, repeated
    description updates, stale replies, amount bounds and the rich-query
    snapshot. */
module Properties {
  import opened GoInts
  import opened Strconv
  import opened Ledger
  import opened Contract
  import Aggregation
  import Queries

  /** After a successful CreateAsset, ReadAsset returns the new record with
      amount 1, and creating the same asset again fails as a duplicate. */
  lemma CreateThenRead(s: State, env: Env, env': Env, assetId: string, description: string, assetType: string,
                       ownerId: string, ownerId': string)
    requires CreateAsset(s, env, assetId, description, assetType, ownerId).result.Ok?
    ensures var t := CreateAsset(s, env, assetId, description, assetType, ownerId).post;
            && ReadAsset(t, assetId) == Ok(Asset(assetType, assetId, description, 1, env.ownerAddress, env.timestamp))
            && CreateAsset(t, env', assetId, description, assetType, ownerId').result == Err(AssetExists(assetId))
  {
  }

  /** Two successful CreateOwner calls in a row (with no counter overflow in
      between) mint consecutive ids under distinct keys, so the second does not
      overwrite the first. */
  lemma ConsecutiveOwnersKept(s: State, tr1: map<string, string>, n1: string, d1: string,
                              tr2: map<string, string>, n2: string, d2: string)
    requires s.ownerCounter < MaxInt64
    requires AgeAccepted(tr1) && AgeAccepted(tr2)
    ensures var id := s.ownerCounter;
            var u := CreateOwner(CreateOwner(s, tr1, n1, d1).post, tr2, n2, d2).post;
            && Itoa(id) != Itoa(id + 1)
            && u.world[Simple(Itoa(id))] == OwnerRecord(PublicOwner(id))
            && u.world[Simple(Itoa(id + 1))] == OwnerRecord(PublicOwner(id + 1))
            && u.collection[Itoa(id)] == PrivateOwner(n1, ParseUint(AgeText(tr1)).value, d1)
            && u.collection[Itoa(id + 1)] == PrivateOwner(n2, ParseUint(AgeText(tr2)).value, d2)
            && u.ownerCounter == Wrap64(id + 2)
  {
    var id := s.ownerCounter;
    if Itoa(id) == Itoa(id + 1) {
      ItoaInjective(id, id + 1);
    }
  }

  /** InitContract resets the counter to 1, so the next owner is written
      under key "1" whatever that key held, public and private alike. */
  lemma ReinitOverwritesFirstOwner(s: State, tr: map<string, string>, name: string, documentNumber: string)
    requires AgeAccepted(tr)
    ensures var u := CreateOwner(InitContract(s), tr, name, documentNumber).post;
            && u.world[Simple("1")] == OwnerRecord(PublicOwner(1))
            && u.collection["1"] == PrivateOwner(name, ParseUint(AgeText(tr)).value, documentNumber)
            && u.ownerCounter == 2
  {
    assert Digits(1) == "1";
  }

  /** Before InitContract the counter is Go's zero value, so the first owner
      created by a fresh process gets id 0 and key "0". */
  lemma FirstOwnerBeforeInit(world: map<Key, Value>, collection: map<string, Owner>, tr: map<string, string>,
                             name: string, documentNumber: string)
    requires AgeAccepted(tr)
    ensures var u := CreateOwner(ProcessStart(world, collection), tr, name, documentNumber).post;
            && u.world[Simple("0")] == OwnerRecord(PublicOwner(0))
            && u.collection["0"] == PrivateOwner(name, ParseUint(AgeText(tr)).value, documentNumber)
            && u.ownerCounter == 1
  {
    assert Digits(0) == "0";
  }

  /** Before InitContract the capacity is 0: an amount update can only keep
      the amount or bring it to exactly 0. */
  lemma AmountBeforeInit(world: map<Key, Value>, collection: map<string, Owner>, assetId: string,
                         amounts: Option<seq<string>>)
    ensures var s := ProcessStart(world, collection);
            var r := UpdateAssetAmount(s, assetId, amounts);
            r.result.Ok? ==>
              var after := StoredAsset(r.post, assetId).amount;
              after == StoredAsset(s, assetId).amount || after == 0
  {
    var s := ProcessStart(world, collection);
    if UpdateAssetAmount(s, assetId, amounts).result.Ok? {
      Aggregation.FoldStaysInRange(StoredAsset(s, assetId).amount, Aggregation.Deltas(amounts.value), 0);
    }
  }

  /** After InitContract, an amount within [0, 500] stays within it. */
  lemma InitBoundsAmounts(s: State, assetId: string, amounts: Option<seq<string>>)
    ensures var t := InitContract(s);
            var r := UpdateAssetAmount(t, assetId, amounts);
            r.result.Ok? && 0 <= StoredAsset(t, assetId).amount <= 500 ==>
              0 <= StoredAsset(r.post, assetId).amount <= 500
  {
    var t := InitContract(s);
    if UpdateAssetAmount(t, assetId, amounts).result.Ok? {
      Aggregation.FoldStaysInRange(StoredAsset(t, assetId).amount, Aggregation.Deltas(amounts.value), 500);
    }
  }

  /** writeAsset followed by ReadAsset: the transaction that writes still
      reads the committed record, and the next transaction reads the new one. */
  lemma WriteThenRead(s: State, assetId: string, a: Asset)
    requires ValidKeyAttribute(assetId)
    ensures WriteAsset(Begin(s), assetId, a).Ok?
    ensures var tx := WriteAsset(Begin(s), assetId, a).value;
            && ReadAssetIn(tx, assetId) == ReadAsset(s, assetId)
            && ReadAsset(Commit(tx), assetId) == Ok(a)
  {
  }

  /** ChangeTotalCapacity on the decimal text of any uint64 sets exactly that
      capacity. */
  lemma SetCapacity(s: State, n: Uint64)
    ensures ChangeTotalCapacity(s, Digits(n)) == Step(Ok(()), s.(totalCapacity := n))
  {
    ParseUintDigits(Digits(n));
  }

  /** A capacity whose low 32 bits read as a negative int32 (2^31 up to
      2^32-1, modulo 2^32) freezes every asset amount. */
  lemma LargeCapacityFreezesAmounts(s: State, n: Uint64, assetId: string, amounts: Option<seq<string>>)
    requires Aggregation.Bound(n) < 0
    ensures var t := ChangeTotalCapacity(s, Digits(n)).post;
            var r := UpdateAssetAmount(t, assetId, amounts);
            r.result.Ok? ==> StoredAsset(r.post, assetId) == StoredAsset(s, assetId)
  {
    SetCapacity(s, n);
    var t := ChangeTotalCapacity(s, Digits(n)).post;
    if UpdateAssetAmount(t, assetId, amounts).result.Ok? {
      Aggregation.NegativeBoundFreezesAmount(StoredAsset(t, assetId).amount, Aggregation.Deltas(amounts.value), n);
      assert StoredAsset(t, assetId).(amount := StoredAsset(t, assetId).amount) == StoredAsset(t, assetId);
    }
  }

  /** Updating the description twice with the same text leaves the state the
      first update left; the same holds for the interprocedural variant. */
  lemma DescriptionUpdateIdempotent(s: State, assetId: string, description: string)
    ensures var t := UpdateAssetDescription(s, assetId, description).post;
            UpdateAssetDescription(t, assetId, description).post == t
    ensures var t := UpdateAssetDescriptionInterprocedural(s, assetId, description).post;
            UpdateAssetDescriptionInterprocedural(t, assetId, description).post == t
  {
    var r := UpdateAssetDescription(s, assetId, description);
    if r.result.Ok? {
      var t := r.post;
      assert Simple(assetId) != AssetKey(assetId);
      assert t.world[Simple(assetId)] == s.world[Simple(assetId)];
      assert t.world[AssetKey(assetId)] == AssetRecord(s.world[Simple(assetId)].asset.(description := description));
      assert t.world[AssetKey(assetId) := t.world[AssetKey(assetId)]] == t.world;
    }
    var q := UpdateAssetDescriptionInterprocedural(s, assetId, description);
    if q.result.Ok? {
      var t := q.post;
      assert t.world[AssetKey(assetId) := t.world[AssetKey(assetId)]] == t.world;
    }
  }

  /** The description updates only touch `description`: every other field of
      the record stored under the composite key comes from the record read. */
  lemma DescriptionUpdateKeepsOtherFields(s: State, assetId: string, description: string)
    requires UpdateAssetDescriptionInterprocedural(s, assetId, description).result.Ok?
    ensures var before := StoredAsset(s, assetId);
            var after := StoredAsset(UpdateAssetDescriptionInterprocedural(s, assetId, description).post, assetId);
            && after.description == description
            && after.(description := before.description) == before
  {
  }

  /** The reply of a description update is read after the write, but the read
      sees the committed record: whenever the description actually changes,
      the reply disagrees with what is now stored. */
  lemma DescriptionReplyIsStale(s: State, assetId: string, description: string)
    requires UpdateAssetDescriptionInterprocedural(s, assetId, description).result.Ok?
    requires StoredAsset(s, assetId).description != description
    ensures var r := UpdateAssetDescriptionInterprocedural(s, assetId, description);
            r.result.value != StoredAsset(r.post, assetId)
  {
  }

  /** UpdateAssetAmount keeps an amount that starts within
      [0, int32(totalCapacity)] inside that range, and changes nothing else. */
  lemma AmountUpdateStaysInBounds(s: State, assetId: string, amounts: Option<seq<string>>)
    requires UpdateAssetAmount(s, assetId, amounts).result.Ok?
    requires 0 <= StoredAsset(s, assetId).amount <= Aggregation.Bound(s.totalCapacity)
    ensures var after := StoredAsset(UpdateAssetAmount(s, assetId, amounts).post, assetId);
            && 0 <= after.amount <= Aggregation.Bound(s.totalCapacity)
            && after.(amount := StoredAsset(s, assetId).amount) == StoredAsset(s, assetId)
  {
    var a := StoredAsset(s, assetId);
    Aggregation.FoldStaysInRange(a.amount, Aggregation.Deltas(amounts.value), s.totalCapacity);
  }

  /** Phantom read: an asset of the requested type that the index does not
      yet show is left as it is. */
  lemma PhantomAssetUntouched(s: State, index: map<Key, Value>, assetType: string, k: Key)
    requires k in s.world && s.world[k].AssetRecord? && s.world[k].asset.assetType == assetType
    requires k !in index
    ensures var t := Queries.UpdateAssetsByType(s, index, assetType).post;
            k in t.world && t.world[k] == s.world[k]
  {
  }

  /** Lost update: a hit is rewritten from the indexed document, so a newer
      committed amount under the same key is replaced by the index's amount
      plus one. */
  lemma IndexedValueWins(s: State, index: map<Key, Value>, assetType: string, k: Key)
    requires Queries.Selected(index, assetType, k)
    ensures var t := Queries.UpdateAssetsByType(s, index, assetType).post;
            t.world[k].asset.amount == Wrap32(index[k].asset.amount + 1)
  {
  }

  /** With an index that is up to date, exactly the assets of the requested
      type are incremented, with int32 wrap-around, and nothing else moves. */
  lemma FreshIndexIncrementsExactlyMatches(s: State, assetType: string, k: Key)
    requires k in s.world
    ensures var t := Queries.UpdateAssetsByType(s, s.world, assetType).post;
            && k in t.world
            && (Queries.Selected(s.world, assetType, k) ==>
                  t.world[k] == AssetRecord(s.world[k].asset.(amount := Wrap32(s.world[k].asset.amount + 1))))
            && (!Queries.Selected(s.world, assetType, k) ==> t.world[k] == s.world[k])
  {
  }

  /** The increment wraps: an asset at the int32 maximum comes back at the
      int32 minimum. */
  lemma IncrementWraps(a: Asset)
    requires a.amount == MaxInt32
    ensures Queries.Bumped(a).amount == MinInt32
  {
  }

  /** The plain-key read misses every asset CreateAsset stores: with the asset
      under its composite key and nothing under the plain key, the as-written
      update reports the asset missing while the corrected one succeeds. */
  lemma PlainKeyMissesStoredAsset(s: State, assetId: string, description: string)
    requires ValidKeyAttribute(assetId) && AssetStored(s, assetId) && Simple(assetId) !in s.world
    ensures UpdateAssetDescription(s, assetId, description).result == Err(AssetMissing(assetId))
    ensures UpdateAssetDescriptionFixed(s, assetId, description).result == Ok(StoredAsset(s, assetId))
  {
  }

  /** Concretely: an owner "1", then CreateAsset("A1", ...) owned by it, then
      UpdateAssetDescription("A1", ...) fails. */
  lemma CreatedAssetCannotBeRedescribed(env: Env, description: string, assetType: string, newDescription: string)
    ensures var s := State(map[Simple("1") := OwnerRecord(PublicOwner(1))], map[], 2, 500);
            var t := CreateAsset(s, env, "A1", description, assetType, "1");
            && t.result.Ok?
            && UpdateAssetDescription(t.post, "A1", newDescription).result == Err(AssetMissing("A1"))
            && UpdateAssetDescriptionFixed(t.post, "A1", newDescription).result.Ok?
  {
    var s := State(map[Simple("1") := OwnerRecord(PublicOwner(1))], map[], 2, 500);
    assert ValidKeyAttribute("A1");
    assert Simple("A1") != Simple("1");
  }

  /** Once the key is corrected, the direct and the interprocedural updates
      agree: same success condition, same reply, same state afterwards. */
  lemma FixedAgreesWithInterprocedural(s: State, assetId: string, description: string)
    ensures var f := UpdateAssetDescriptionFixed(s, assetId, description);
            var g := UpdateAssetDescriptionInterprocedural(s, assetId, description);
            && (f.result.Ok? <==> g.result.Ok?)
            && (f.result.Ok? ==> f.result.value == g.result.value)
            && f.post == g.post
  {
  }

  /** The corrected update only touches `description` of the record under the
      composite key, and repeating it changes nothing more. */
  lemma FixedUpdateKeepsOtherFields(s: State, assetId: string, description: string)
    requires UpdateAssetDescriptionFixed(s, assetId, description).result.Ok?
    ensures var t := UpdateAssetDescriptionFixed(s, assetId, description).post;
            && StoredAsset(t, assetId).description == description
            && StoredAsset(t, assetId).(description := StoredAsset(s, assetId).description) == StoredAsset(s, assetId)
            && UpdateAssetDescriptionFixed(t, assetId, description).post == t
  {
    var t := UpdateAssetDescriptionFixed(s, assetId, description).post;
    assert t.world[AssetKey(assetId) := t.world[AssetKey(assetId)]] == t.world;
  }
}
