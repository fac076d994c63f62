/** The asset/owner contract's transactions, each a function from the state
    before to the reply and the state after. Reads within a transaction see
    the committed state (see Ledger); a failed transaction leaves the whole
    state unchanged, because every failure the model covers happens before
    any write and before the owner counter moves. The owner counter and the
    capacity are fields of the contract process; here they change only with
    the transaction that changes them, in a single process. */
module Contract {
  import opened GoInts
  import opened Strconv
  import opened Ledger
  import Aggregation

  const InitialCapacity: Uint64 := 500
  const InitialOwnerCounter: Int64 := 1
  const MinimumAge: nat := 18

  /** The transient-data field that carries the owner's age. */
  const AgeField: string := "ownerAge"

  /** Values the transaction context supplies to CreateAsset: the `%p`
      rendering of the owner's address and the wall-clock timestamp. Neither
      is reproducible across peers; the model treats both as opaque text. */
  datatype Env = Env(ownerAddress: string, timestamp: string)

  /** CreateOwner's success message, which interpolates the name and the
      document number. */
  datatype Receipt = OwnerCreated(name: string, documentNumber: string)

  /** InitContract: capacity 500, owner counter 1; the ledger is not touched. */
  function InitContract(s: State): (r: State)
    ensures r.world == s.world && r.collection == s.collection
    ensures r.totalCapacity == 500 && r.ownerCounter == 1
  {
    s.(totalCapacity := InitialCapacity, ownerCounter := InitialOwnerCounter)
  }

  /** The record CreateAsset stores. */
  function NewAsset(env: Env, assetId: string, description: string, assetType: string): Asset {
    Asset(assetType, assetId, description, 1, env.ownerAddress, env.timestamp)
  }

  /** The owner named by `ownerId` exists as a decodable public record. */
  predicate OwnerPresent(s: State, ownerId: string) {
    Simple(ownerId) in s.world && s.world[Simple(ownerId)].OwnerRecord?
  }

  function CreateAsset(s: State, env: Env, assetId: string, description: string, assetType: string, ownerId: string): (r: Step<()>)
    ensures r.result.Ok? <==>
              ValidKeyAttribute(assetId) && AssetKey(assetId) !in s.world && OwnerPresent(s, ownerId)
    ensures !ValidKeyAttribute(assetId) ==> r.result == Err(InvalidCompositeKey)
    ensures ValidKeyAttribute(assetId) && AssetKey(assetId) in s.world ==> r.result == Err(AssetExists(assetId))
    ensures ValidKeyAttribute(assetId) && AssetKey(assetId) !in s.world && Simple(ownerId) !in s.world ==>
              r.result == Err(OwnerMissing)
    ensures r.result.Err? ==> r.post == s
    ensures r.result.Ok? ==>
              r.post == s.(world := s.world[AssetKey(assetId) := AssetRecord(NewAsset(env, assetId, description, assetType))])
  {
    AssetKeyOk(assetId);
    match CreateCompositeKey(AssetNamespace, [assetId])
    case Err(e) => Step(Err(e), s)
    case Ok(key) =>
      var tx := Begin(s);
      if GetState(tx, key).Some? then Step(Err(AssetExists(assetId)), s)
      else match GetState(tx, Simple(ownerId))
      case None => Step(Err(OwnerMissing), s)
      case Some(ownerBytes) =>
        match DecodeOwner(ownerBytes)
        case None => Step(Err(Unmarshal), s)
        case Some(_) =>
          var asset := NewAsset(env, assetId, description, assetType);
          Step(Ok(()), Commit(PutState(tx, key, AssetRecord(asset))))
  }

  /** The age text from the transient map; a missing entry reads as "". */
  function AgeText(transient: map<string, string>): string {
    if AgeField in transient then transient[AgeField] else ""
  }

  /** The owner's public record: only the id, every other field zero. */
  function PublicOwner(id: Int64): Owner {
    Owner(id, "", 0, "")
  }

  /** The owner's private record: everything except the id. */
  function PrivateOwner(name: string, age: Uint64, documentNumber: string): Owner {
    Owner(0, name, age, documentNumber)
  }

  /** The transient age parses as a uint64 and is at least the minimum age. */
  predicate AgeAccepted(transient: map<string, string>) {
    var age := ParseUint(AgeText(transient));
    age.Parsed? && age.value >= MinimumAge
  }

  function CreateOwner(s: State, transient: map<string, string>, name: string, documentNumber: string): (r: Step<Receipt>)
    ensures r.result.Ok? <==> AgeAccepted(transient)
    ensures !ParseUint(AgeText(transient)).Parsed? ==> r.result == Err(AgeUnparsable)
    ensures var age := ParseUint(AgeText(transient));
            age.Parsed? && age.value < MinimumAge ==> r.result == Err(Underage(name, documentNumber))
    ensures r.result.Err? ==> r.post == s
    ensures r.result.Ok? ==>
              var id := s.ownerCounter;
              var key := Itoa(id);
              && r.result.value == OwnerCreated(name, documentNumber)
              && r.post.world == s.world[Simple(key) := OwnerRecord(PublicOwner(id))]
              && r.post.collection == s.collection[key := PrivateOwner(name, ParseUint(AgeText(transient)).value, documentNumber)]
              && r.post.ownerCounter == Wrap64(id + 1)
              && r.post.totalCapacity == s.totalCapacity
    ensures r.result.Ok? && s.ownerCounter < MaxInt64 ==> r.post.ownerCounter == s.ownerCounter + 1
  {
    match ParseUint(AgeText(transient))
    case SyntaxError => Step(Err(AgeUnparsable), s)
    case RangeError => Step(Err(AgeUnparsable), s)
    case Parsed(age) =>
      if age < MinimumAge then Step(Err(Underage(name, documentNumber)), s)
      else
        var id := s.ownerCounter;
        var key := Itoa(id);
        var tx := Begin(s);
        var tx1 := PutState(tx, Simple(key), OwnerRecord(PublicOwner(id)));
        var tx2 := PutPrivateData(tx1, key, PrivateOwner(name, age, documentNumber));
        Step(Ok(OwnerCreated(name, documentNumber)), Commit(tx2).(ownerCounter := Wrap64(id + 1)))
  }

  /** The stored asset at `AssetKey(assetId)`, when there is one. */
  predicate AssetStored(s: State, assetId: string) {
    AssetKey(assetId) in s.world && s.world[AssetKey(assetId)].AssetRecord?
  }

  function StoredAsset(s: State, assetId: string): Asset
    requires AssetStored(s, assetId)
  {
    s.world[AssetKey(assetId)].asset
  }

  /** UpdateAssetAmount, with the goroutines serialized into a left fold. The
      `amounts` argument is the decoded JSON list, or None when it is not a
      JSON list of strings. */
  function UpdateAssetAmount(s: State, assetId: string, amounts: Option<seq<string>>): (r: Step<()>)
    ensures r.result.Ok? <==> amounts.Some? && ValidKeyAttribute(assetId) && AssetStored(s, assetId)
    ensures amounts.None? ==> r.result == Err(AmountsUnparsable)
    ensures amounts.Some? && ValidKeyAttribute(assetId) && AssetKey(assetId) !in s.world ==>
              r.result == Err(AssetMissing(assetId))
    ensures r.result.Err? ==> r.post == s
    ensures r.result.Ok? ==>
              var before := StoredAsset(s, assetId);
              var after := before.(amount := Aggregation.Fold(before.amount, Aggregation.Deltas(amounts.value), s.totalCapacity));
              r.post == s.(world := s.world[AssetKey(assetId) := AssetRecord(after)])
  {
    match amounts
    case None => Step(Err(AmountsUnparsable), s)
    case Some(deltas) =>
      AssetKeyOk(assetId);
      match CreateCompositeKey(AssetNamespace, [assetId])
      case Err(e) => Step(Err(e), s)
      case Ok(key) =>
        var tx := Begin(s);
        match GetState(tx, key)
        case None => Step(Err(AssetMissing(assetId)), s)
        case Some(bytes) =>
          match DecodeAsset(bytes)
          case None => Step(Err(Unmarshal), s)
          case Some(asset) =>
            var updated := asset.(amount := Aggregation.Fold(asset.amount, Aggregation.Deltas(deltas), s.totalCapacity));
            Step(Ok(()), Commit(PutState(tx, key, AssetRecord(updated))))
  }

  /** ReadAsset on a transaction: the decoded record under the asset's
      composite key in the committed state. */
  function ReadAssetIn(tx: TxView, assetId: string): (r: Result<Asset>)
    ensures r.Ok? <==> ValidKeyAttribute(assetId) && AssetStored(tx.committed, assetId)
    ensures r.Ok? ==> r.value == StoredAsset(tx.committed, assetId)
    ensures ValidKeyAttribute(assetId) && AssetKey(assetId) !in tx.committed.world ==>
              r == Err(KeyMissing(AssetKey(assetId)))
  {
    AssetKeyOk(assetId);
    match CreateCompositeKey(AssetNamespace, [assetId])
    case Err(e) => Err(e)
    case Ok(key) =>
      match GetState(tx, key)
      case None => Err(KeyMissing(key))
      case Some(bytes) =>
        match DecodeAsset(bytes)
        case None => Err(Unmarshal)
        case Some(asset) => Ok(asset)
  }

  /** ReadAsset as a transaction of its own: it never changes the state. */
  function ReadAsset(s: State, assetId: string): (r: Result<Asset>)
    ensures r.Ok? <==> ValidKeyAttribute(assetId) && AssetStored(s, assetId)
    ensures r.Ok? ==> r.value == StoredAsset(s, assetId)
    ensures ValidKeyAttribute(assetId) && AssetKey(assetId) !in s.world ==> r == Err(KeyMissing(AssetKey(assetId)))
  {
    ReadAssetIn(Begin(s), assetId)
  }

  /** writeAsset: put the record under the asset's composite key. */
  function WriteAsset(tx: TxView, assetId: string, asset: Asset): (r: Result<TxView>)
    ensures r.Ok? <==> ValidKeyAttribute(assetId)
    ensures r.Ok? ==> r.value == PutState(tx, AssetKey(assetId), AssetRecord(asset))
  {
    AssetKeyOk(assetId);
    match CreateCompositeKey(AssetNamespace, [assetId])
    case Err(e) => Err(e)
    case Ok(key) => Ok(PutState(tx, key, AssetRecord(asset)))
  }

  /** The record UpdateAssetDescription reads: the one under the PLAIN key
      `assetId`, not under the asset's composite key. */
  predicate PlainAssetStored(s: State, assetId: string) {
    Simple(assetId) in s.world && s.world[Simple(assetId)].AssetRecord?
  }

  /** UpdateAssetDescription as written: it reads the plain key `assetId`,
      writes the composite key, then re-reads the composite key, which shows
      the committed record rather than the one just written. */
  function UpdateAssetDescription(s: State, assetId: string, description: string): (r: Step<Asset>)
    ensures r.result.Ok? <==>
              ValidKeyAttribute(assetId) && PlainAssetStored(s, assetId) && AssetStored(s, assetId)
    ensures ValidKeyAttribute(assetId) && Simple(assetId) !in s.world ==> r.result == Err(AssetMissing(assetId))
    ensures r.result.Err? ==> r.post == s
    ensures r.result.Ok? ==>
              && r.result.value == StoredAsset(s, assetId)
              && r.post == s.(world := s.world[AssetKey(assetId) :=
                                AssetRecord(s.world[Simple(assetId)].asset.(description := description))])
  {
    AssetKeyOk(assetId);
    match CreateCompositeKey(AssetNamespace, [assetId])
    case Err(e) => Step(Err(e), s)
    case Ok(key) =>
      var tx := Begin(s);
      match GetState(tx, Simple(assetId))
      case None => Step(Err(AssetMissing(assetId)), s)
      case Some(bytes) =>
        match DecodeAsset(bytes)
        case None => Step(Err(Unmarshal), s)
        case Some(asset) =>
          var tx1 := PutState(tx, key, AssetRecord(asset.(description := description)));
          match GetState(tx1, key)
          case None => Step(Err(Unmarshal), s)
          case Some(again) =>
            match DecodeAsset(again)
            case None => Step(Err(Unmarshal), s)
            case Some(reread) => Step(Ok(reread), Commit(tx1))
  }

  /** UpdateAssetDescription with its first read taken from the composite
      key it writes, as evidently intended. The re-read after the write is
      kept, so the reply is still the committed record. */
  function UpdateAssetDescriptionFixed(s: State, assetId: string, description: string): (r: Step<Asset>)
    ensures r.result.Ok? <==> ValidKeyAttribute(assetId) && AssetStored(s, assetId)
    ensures ValidKeyAttribute(assetId) && AssetKey(assetId) !in s.world ==> r.result == Err(AssetMissing(assetId))
    ensures r.result.Err? ==> r.post == s
    ensures r.result.Ok? ==>
              && r.result.value == StoredAsset(s, assetId)
              && r.post == s.(world := s.world[AssetKey(assetId) :=
                                AssetRecord(StoredAsset(s, assetId).(description := description))])
  {
    AssetKeyOk(assetId);
    match CreateCompositeKey(AssetNamespace, [assetId])
    case Err(e) => Step(Err(e), s)
    case Ok(key) =>
      var tx := Begin(s);
      match GetState(tx, key)
      case None => Step(Err(AssetMissing(assetId)), s)
      case Some(bytes) =>
        match DecodeAsset(bytes)
        case None => Step(Err(Unmarshal), s)
        case Some(asset) =>
          var tx1 := PutState(tx, key, AssetRecord(asset.(description := description)));
          match GetState(tx1, key)
          case None => Step(Err(Unmarshal), s)
          case Some(again) =>
            match DecodeAsset(again)
            case None => Step(Err(Unmarshal), s)
            case Some(reread) => Step(Ok(reread), Commit(tx1))
  }

  /** UpdateAssetDescriptionInterprocedural: ReadAsset, change the
      description, writeAsset, ReadAsset again. Both reads see the committed
      record, so the value returned is the record as it was before. */
  function UpdateAssetDescriptionInterprocedural(s: State, assetId: string, description: string): (r: Step<Asset>)
    ensures r.result.Ok? <==> ValidKeyAttribute(assetId) && AssetStored(s, assetId)
    ensures ValidKeyAttribute(assetId) && AssetKey(assetId) !in s.world ==>
              r.result == Err(KeyMissing(AssetKey(assetId)))
    ensures r.result.Err? ==> r.post == s
    ensures r.result.Ok? ==>
              && r.result.value == StoredAsset(s, assetId)
              && r.post == s.(world := s.world[AssetKey(assetId) :=
                                AssetRecord(StoredAsset(s, assetId).(description := description))])
  {
    var tx := Begin(s);
    match ReadAssetIn(tx, assetId)
    case Err(e) => Step(Err(e), s)
    case Ok(asset) =>
      match WriteAsset(tx, assetId, asset.(description := description))
      case Err(e) => Step(Err(e), s)
      case Ok(tx1) =>
        match ReadAssetIn(tx1, assetId)
        case Err(e) => Step(Err(e), s)
        case Ok(reread) => Step(Ok(reread), Commit(tx1))
  }

  /** ChangeTotalCapacity: a value that does not parse as a uint64 leaves the
      capacity as it was. */
  function ChangeTotalCapacity(s: State, valueStr: string): (r: Step<()>)
    ensures r.result.Ok? <==> ParseUint(valueStr).Parsed?
    ensures r.result.Err? ==> r.result.error == CapacityUnparsable && r.post == s
    ensures r.result.Ok? ==> r.post == s.(totalCapacity := ParseUint(valueStr).value)
  {
    match ParseUint(valueStr)
    case Parsed(v) => Step(Ok(()), s.(totalCapacity := v))
    case SyntaxError => Step(Err(CapacityUnparsable), s)
    case RangeError => Step(Err(CapacityUnparsable), s)
  }
}
