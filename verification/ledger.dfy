/** The contract's data model and the slice of the Fabric shim it uses.

    The world state maps keys to stored records. Owner public records live
    under plain keys (the decimal owner id); assets live under composite keys
    built from the namespace "asset" and the asset id. Owners' private details
    live in the private collection "collectionID". The owner counter and the
    total capacity are process-local fields of the running contract, not
    ledger data; they are carried in the same State so that each operation is
    a pure function of it. The model has a single contract process, and these
    fields change together with the transaction that changes them.

    A transaction reads the committed state only: like Fabric's GetState, a
    read does not see the PutState calls made earlier in the same
    transaction. Writes collect in a write set that takes effect when the
    transaction succeeds; a failed transaction commits nothing. */
module Ledger {
  import opened GoInts

  const AssetNamespace: string := "asset"

  /** The private data collection holding owners' restricted attributes. */
  const OwnerCollection: string := "collectionID"

  datatype Option<T> = None | Some(value: T)

  /** A plain key, or a composite key made of a namespace and its parts.
      Composite keys are kept apart from plain keys by construction; the byte
      encoding that Fabric uses for both is not modelled, so a plain key whose
      text spells a composite key's encoding is not identified with it. */
  datatype Key = Simple(name: string) | Composite(namespace: string, parts: seq<string>)

  /** Owner record; the public copy carries only `id`, the private copy
      everything except `id`. */
  datatype Owner = Owner(id: Int64, name: string, age: Uint64, documentNumber: string)

  datatype Asset = Asset(
    assetType: string,
    id: string,
    description: string,
    amount: Int32,
    owner: string,
    creationTime: string)

  /** The JSON document stored under a key. */
  datatype Value = OwnerRecord(owner: Owner) | AssetRecord(asset: Asset)

  datatype State = State(
    world: map<Key, Value>,
    collection: map<string, Owner>,
    ownerCounter: Int64,
    totalCapacity: Uint64)

  /** A freshly started contract process: Go zero values for the counter and
      the capacity, over whatever the ledger already holds. */
  function ProcessStart(world: map<Key, Value>, collection: map<string, Owner>): (s: State)
    ensures s.ownerCounter == 0 && s.totalCapacity == 0
    ensures s.world == world && s.collection == collection
  {
    State(world, collection, 0, 0)
  }

  /** The failures the contract reports, as a tag plus the fields its
      message interpolates. */
  datatype Error =
    | InvalidCompositeKey
    | AssetExists(assetId: string)
    | OwnerMissing
    | Unmarshal
    | AgeUnparsable
    | Underage(name: string, documentNumber: string)
    | AmountsUnparsable
    | AssetMissing(assetId: string)
    | KeyMissing(key: Key)
    | CapacityUnparsable
    | IndexOutOfRange

  datatype Result<T> = Ok(value: T) | Err(error: Error)

  /** What an operation returns, and the state after it. */
  datatype Step<T> = Step(result: Result<T>, post: State)

  /** Fabric refuses composite key attributes holding U+0000 or U+10FFFF. */
  predicate ValidKeyAttribute(s: string) {
    forall i :: 0 <= i < |s| ==> s[i] != '\0' && s[i] != '\U{10FFFF}'
  }

  predicate ValidKeyParts(parts: seq<string>) {
    forall i :: 0 <= i < |parts| ==> ValidKeyAttribute(parts[i])
  }

  /** `stub.CreateCompositeKey(namespace, parts)`. */
  function CreateCompositeKey(namespace: string, parts: seq<string>): (r: Result<Key>)
    ensures r.Ok? <==> ValidKeyAttribute(namespace) && ValidKeyParts(parts)
    ensures r.Ok? ==> r.value.Composite? && r.value.namespace == namespace && r.value.parts == parts
    ensures r.Err? ==> r.error == InvalidCompositeKey
  {
    if ValidKeyAttribute(namespace) && ValidKeyParts(parts) then Ok(Composite(namespace, parts))
    else Err(InvalidCompositeKey)
  }

  /** The composite key of an asset id. */
  function AssetKey(assetId: string): Key {
    Composite(AssetNamespace, [assetId])
  }

  lemma AssetKeyOk(assetId: string)
    ensures CreateCompositeKey(AssetNamespace, [assetId]).Ok? <==> ValidKeyAttribute(assetId)
    ensures ValidKeyAttribute(assetId) ==> CreateCompositeKey(AssetNamespace, [assetId]) == Ok(AssetKey(assetId))
  {
    assert ValidKeyAttribute(AssetNamespace);
    assert ValidKeyParts([assetId]) <==> ValidKeyAttribute([assetId][0]);
  }

  /** Distinct asset ids have distinct keys, and no asset key is a plain key:
      an owner record and an asset record are never stored under one key. */
  lemma AssetKeysDistinct(a: string, b: string, name: string)
    ensures AssetKey(a) == AssetKey(b) <==> a == b
    ensures AssetKey(a) != Simple(name)
    ensures CreateCompositeKey(AssetNamespace, [a]).Ok? ==> CreateCompositeKey(AssetNamespace, [a]).value != Simple(name)
  {
    if AssetKey(a) == AssetKey(b) {
      assert AssetKey(a).parts[0] == a && AssetKey(b).parts[0] == b;
    }
  }

  /** `json.Unmarshal` into an Asset. An owner document does not decode as an
      asset: its `id` is a JSON number where Asset.ID is a string. */
  function DecodeAsset(v: Value): (r: Option<Asset>)
    ensures r.Some? <==> v.AssetRecord?
    ensures r.Some? ==> r.value == v.asset
  {
    match v
    case AssetRecord(a) => Some(a)
    case OwnerRecord(_) => None
  }

  /** `json.Unmarshal` into an Owner. An asset document does not decode as an
      owner: its `id` is a JSON string where Owner.ID is an int. */
  function DecodeOwner(v: Value): (r: Option<Owner>)
    ensures r.Some? <==> v.OwnerRecord?
    ensures r.Some? ==> r.value == v.owner
  {
    match v
    case OwnerRecord(o) => Some(o)
    case AssetRecord(_) => None
  }

  /** One transaction in progress: the committed state it reads, and the
      public and private writes it has made so far. */
  datatype TxView = TxView(committed: State, writes: map<Key, Value>, privateWrites: map<string, Owner>)

  function Begin(s: State): (tx: TxView)
    ensures tx.committed == s && tx.writes == map[] && tx.privateWrites == map[]
  {
    TxView(s, map[], map[])
  }

  /** `stub.GetState(key)`: the committed value, or None for an absent key. */
  function GetState(tx: TxView, k: Key): (r: Option<Value>)
    ensures r.Some? <==> k in tx.committed.world
    ensures r.Some? ==> r.value == tx.committed.world[k]
  {
    if k in tx.committed.world then Some(tx.committed.world[k]) else None
  }

  /** `stub.PutState(key, value)`: recorded in the write set, invisible to
      the rest of the transaction's reads. */
  function PutState(tx: TxView, k: Key, v: Value): (r: TxView)
    ensures forall k' :: GetState(r, k') == GetState(tx, k')
    ensures r.writes == tx.writes[k := v] && r.privateWrites == tx.privateWrites
  {
    tx.(writes := tx.writes[k := v])
  }

  /** `stub.PutPrivateData("collectionID", key, value)`. */
  function PutPrivateData(tx: TxView, key: string, o: Owner): (r: TxView)
    ensures forall k' :: GetState(r, k') == GetState(tx, k')
    ensures r.writes == tx.writes && r.privateWrites == tx.privateWrites[key := o]
  {
    tx.(privateWrites := tx.privateWrites[key := o])
  }

  /** The state after a successful transaction: every written key takes its
      last written value, every other key keeps its committed one. */
  function Commit(tx: TxView): (s: State)
    ensures forall k :: k in tx.writes ==> k in s.world && s.world[k] == tx.writes[k]
    ensures forall k :: k !in tx.writes ==> (k in s.world <==> k in tx.committed.world)
    ensures forall k :: k !in tx.writes && k in tx.committed.world ==> s.world[k] == tx.committed.world[k]
    ensures s.collection == tx.committed.collection + tx.privateWrites
    ensures s.ownerCounter == tx.committed.ownerCounter && s.totalCapacity == tx.committed.totalCapacity
  {
    tx.committed.(world := tx.committed.world + tx.writes,
                  collection := tx.committed.collection + tx.privateWrites)
  }

  /** A value put in one transaction is invisible to that transaction's own
      reads, and is what the next transaction reads once the first commits;
      every other key reads as before. */
  lemma ReadBack(s: State, k: Key, v: Value)
    ensures GetState(PutState(Begin(s), k, v), k) == GetState(Begin(s), k)
    ensures GetState(Begin(Commit(PutState(Begin(s), k, v))), k) == Some(v)
    ensures forall k' :: k' != k ==>
              GetState(Begin(Commit(PutState(Begin(s), k, v))), k') == GetState(Begin(s), k')
  {
  }
}
