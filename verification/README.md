# Asset/owner ledger contract: a Dafny model

This project models the Hyperledger Fabric contract `FabricVulnBenchmark`. The contract keeps two kinds of records:

- **assets**, under the composite key `("asset", [id])`;
- **owners**, whose public copy sits under the plain key `Itoa(id)` and whose private copy sits in the private collection `"collectionID"`.

The contract also keeps two process-local values: the owner counter and the global `totalCapacity`. Every exported transaction is a pure function from a `State` (world state, private collection, counter, capacity) to a reply and the state afterwards.

Modules:

- `GoInts`: Go's fixed-width integers. The `int32(x)` conversion and int32/int64 addition are written as explicit two's-complement wraps (`Wrap32`, `Wrap64`).
- `Strconv`: `ParseUint(s, 10, 64)`, `ParseInt(s, 10, 64)` and `Itoa`, as Go performs them. Go's scan stops at the first bad digit or the first overflow. A range error yields the clamped bound.
- `Ledger`: the records, keys, errors and the slice of the shim the contract uses (`CreateCompositeKey`, `GetState`, `PutState`, `PutPrivateData`, commit). A transaction reads the committed state: as in Fabric, `GetState` does not see the same transaction's pending `PutState` writes. A failed transaction commits nothing.
- `Aggregation`: the amount adjustment of `UpdateAssetAmount`, serialized as a left fold over the deltas in list order.
- `Contract`: the transactions.
- `Queries`: `ReadAllAssets` and `UpdateAssetsByType`.
- `Invariant`: the shape every ledger the contract produces keeps.
- `Executor`: dispatch of all calls, and runs of calls from a fresh process.
- `Properties`: lemmas relating several transactions.

Three behaviours of the code are worth stating up front, because the model keeps them:

- Fabric's `GetState` does not return the transaction's pending writes. So the re-reads in both description updates return the record as committed before the transaction, not the one just written.
- `CreateOwner` puts the owner's name and document number into the underage error and into the success message. The model keeps both fields in `Underage` and `OwnerCreated`.
- `CreateAsset` stores `time.Now()` and the `%p` rendering of a local variable's address, which differ from peer to peer. The model takes both as opaque strings from the context (`Contract.Env`).

## Model

| member | source | states |
|---|---|---|
| GoInts.Wrap32 | chaincode/fabric_vuln_benchmark.go:181-182 | `int32(x)` and int32 addition: the result is the int32 congruent to x modulo 2^32, and equals x when x already fits |
| GoInts.Wrap64 | chaincode/fabric_vuln_benchmark.go:115-116 | `ownerCounter + 1` on a 64-bit `int`: the int64 congruent to the sum modulo 2^64, the sum itself when it fits |
| Strconv.ParseUintMeetsSpec | chaincode/fabric_vuln_benchmark.go:105-108 | Go's left-to-right digit scan agrees on every string with an independent description. The result is a range error when the leading digits already exceed 2^64-1, otherwise a syntax error if anything else follows or the text is empty, otherwise the decimal value |
| Strconv.ParseUintDigits | chaincode/fabric_vuln_benchmark.go:337-340 | a non-empty digit string parses to its value exactly when the value fits in a uint64, and is a range error otherwise |
| Strconv.ParseInt | chaincode/fabric_vuln_benchmark.go:179 | `ParseInt` with its error discarded: a syntax error gives 0, a range error gives MinInt64 for text starting with '-' and MaxInt64 otherwise, and a success has the sign of the text |
| Strconv.ParseIntMeetsSpec | chaincode/fabric_vuln_benchmark.go:179 | on every string, `ParseInt` agrees with a reference stated on the digits after an optional sign. Their leading run beyond 2^64-1 is a range error. Otherwise any other character, or no digit at all, is a syntax error. Otherwise a value outside int64 on the side of the sign is a range error, and anything else is the signed decimal value |
| Strconv.ParseIntValue | chaincode/fabric_vuln_benchmark.go:179 | a successful parse is exactly the signed decimal value of the non-empty digit string after the sign. Conversely, every such text whose value fits in int64 parses to that value |
| Strconv.NonCanonicalDeltas | chaincode/fabric_vuln_benchmark.go:179 | delta texts that `Itoa` never produces: "+5" is 5, "007" is 7 and "-0" is 0, while "5a" and "-" are syntax errors |
| Strconv.ParseIntItoa | chaincode/fabric_vuln_benchmark.go:123 | `ParseInt(Itoa(n)) == n` for every int64 n |
| Strconv.ItoaInjective | chaincode/fabric_vuln_benchmark.go:123 | distinct owner ids never produce the same plain key |
| Strconv.OverlongPositiveIsMinusOne | chaincode/fabric_vuln_benchmark.go:179-181 | a digit string beyond int64 parses as MaxInt64, and its int32 truncation is -1, so the delta acts as a decrement |
| Ledger.AssetKeysDistinct | chaincode/fabric_vuln_benchmark.go:49-61 | distinct asset ids give distinct composite keys, and no asset key is a plain key, so the owner lookup by plain key and the asset lookup by composite key never meet |
| Ledger.AssetKeyOk | chaincode/fabric_vuln_benchmark.go:155-158 | the asset key of an id can be built exactly when the id is a valid attribute |
| Ledger.ReadBack | chaincode/fabric_vuln_benchmark.go:233-247 | a value put in a transaction is invisible to that transaction's reads of the key. The next transaction reads it after commit, and every other key reads as before |
| Ledger.PutState | chaincode/fabric_vuln_benchmark.go:238-242 | a write is recorded in the write set and changes no later read of the same transaction |
| Ledger.PutPrivateData | chaincode/fabric_vuln_benchmark.go:137 | a private write is recorded in the private write set and changes no public read |
| Ledger.Commit | chaincode/fabric_vuln_benchmark.go:88-93 | after success, each written key holds its last written value and every other key keeps its committed one |
| Aggregation.Deltas | chaincode/fabric_vuln_benchmark.go:174-181 | one int32 delta per decoded string, in list order |
| Aggregation.UnparsableDeltaIsNoOp | chaincode/fabric_vuln_benchmark.go:179 | a delta that fails to parse is read as 0 and never changes the amount |
| Aggregation.Boundaries | chaincode/fabric_vuln_benchmark.go:181-183 | with no overflow, landing on exactly 0 or exactly the capacity is accepted, and landing on -1 or capacity+1 is rejected |
| Aggregation.FoldCongruent | chaincode/fabric_vuln_benchmark.go:174-187 | the final amount is congruent modulo 2^32 to the starting amount plus the accepted deltas |
| Aggregation.FoldIsBasePlusAccepted | chaincode/fabric_vuln_benchmark.go:174-187 | the final amount is the starting amount plus the sum of the accepted deltas, in int32 arithmetic, so it depends only on which deltas were accepted |
| Aggregation.FoldStaysInRange | chaincode/fabric_vuln_benchmark.go:174-187 | the fold either leaves the amount untouched or ends inside [0, int32(totalCapacity)]; an amount starting in that range stays there |
| Aggregation.FoldAppend | chaincode/fabric_vuln_benchmark.go:175-186 | applying two batches one after the other equals applying their concatenation |
| Aggregation.Parsable | chaincode/fabric_vuln_benchmark.go:179 | the deltas kept are exactly those that parse, and the list gets no longer |
| Aggregation.FoldIgnoresUnparsable | chaincode/fabric_vuln_benchmark.go:179 | removing every delta that fails to parse does not change the result |
| Aggregation.NegativeBoundFreezesAmount | chaincode/fabric_vuln_benchmark.go:182 | when `int32(totalCapacity)` is negative, no delta is ever accepted |
| Aggregation.SmallLiterals | chaincode/fabric_vuln_benchmark.go:123 | `Itoa` spells the small numbers used in the scenarios as expected |
| Aggregation.ScenarioDeltas | chaincode/fabric_vuln_benchmark.go:179-181 | the literal delta strings of the scenarios parse to their own values |
| Aggregation.Scenario | chaincode/fabric_vuln_benchmark.go:174-187 | capacity 500, amount 10, deltas "5", "-3", "1000": the first two are accepted and the result is 12 |
| Aggregation.OrderMatters | chaincode/fabric_vuln_benchmark.go:174-187 | the same two deltas in the two orders give 25 and 5, so an unordered execution of the goroutines has no single result |
| Properties.FirstOwnerBeforeInit | chaincode/fabric_vuln_benchmark.go:20 | in a process where InitContract has not run, the counter is Go's zero value, so the first owner is created under key "0" with id 0, public and private |
| Properties.AmountBeforeInit | chaincode/fabric_vuln_benchmark.go:15 | in a process where InitContract has not run, the capacity is 0, so an amount update either keeps the amount or brings it to exactly 0 |
| Properties.InitBoundsAmounts | chaincode/fabric_vuln_benchmark.go:23-27 | after InitContract, an amount within [0, 500] stays within [0, 500] under any amount update |
| Contract.CreateAsset | chaincode/fabric_vuln_benchmark.go:46-94 | fails with no write on an invalid id, an occupied composite key (duplicate), an absent plain owner key, or a non-owner document there. Otherwise it stores exactly one new asset at `("asset",[id])` with amount 1 and the given id, type and description |
| Contract.CreateOwner | chaincode/fabric_vuln_benchmark.go:97-144 | an unparsable age, or one below 18, fails and changes nothing. Success writes the public owner (old counter as id, all else zero) under `Itoa(counter)`, writes the private name, age and document number under the same key string, increments the counter by one (wrapping at int64), and changes no other key |
| Contract.UpdateAssetAmount | chaincode/fabric_vuln_benchmark.go:147-200 | fails with no write on malformed JSON, an invalid id, a missing composite key or a non-asset document. On success, only `Amount` of the stored asset changes, to the fold of the deltas, and no other key changes |
| Contract.ReadAssetIn | chaincode/fabric_vuln_benchmark.go:252-275 | within a transaction, returns exactly the committed record under the asset's composite key; otherwise an error naming the key |
| Contract.ReadAsset | chaincode/fabric_vuln_benchmark.go:252-275 | as above, as a read-only transaction of its own |
| Properties.WriteThenRead | chaincode/fabric_vuln_benchmark.go:403-422 | writeAsset succeeds on every valid id. The same transaction still reads the committed record, and after commit ReadAsset returns exactly the written asset |
| Contract.UpdateAssetDescription | chaincode/fabric_vuln_benchmark.go:203-250 | as written: succeeds only when the plain key `assetId` and the composite key both hold assets. It then writes the plain-key record with the new description under the composite key, and returns the committed composite record. Every failure leaves the state unchanged |
| Contract.UpdateAssetDescriptionFixed | chaincode/fabric_vuln_benchmark.go:206-233 | with the first read taken from the composite key: succeeds exactly when that key holds an asset, changes only its description, and returns the committed record |
| Contract.UpdateAssetDescriptionInterprocedural | chaincode/fabric_vuln_benchmark.go:278-293 | succeeds exactly when the composite key holds an asset. It then stores that asset with only the description replaced, and returns the record as committed before the write |
| Properties.SetCapacity | chaincode/fabric_vuln_benchmark.go:336-345 | ChangeTotalCapacity given the decimal text of any uint64 succeeds and sets exactly that capacity, changing nothing else |
| Properties.LargeCapacityFreezesAmounts | chaincode/fabric_vuln_benchmark.go:336-345 | after ChangeTotalCapacity to a value whose low 32 bits are a negative int32, every successful amount update leaves the asset unchanged |
| Queries.CollectByFirstPart | chaincode/fabric_vuln_benchmark.go:299-325 | the scan fails exactly when some "asset" entry is not an asset (unmarshal) or has no key part (index out of range). Otherwise the map's keys are exactly the first key parts, each mapped to an asset held by a scanned key with that first part |
| Queries.MapValues | chaincode/fabric_vuln_benchmark.go:327-331 | the list holds every value of the map exactly once, in some order |
| Queries.ScanOfWellFormed | chaincode/fabric_vuln_benchmark.go:324 | on a well-formed ledger, the first key parts are exactly the asset ids, each with the asset under its own asset key |
| Queries.ReadAllAssets | chaincode/fabric_vuln_benchmark.go:296-334 | fails exactly when some scanned "asset" entry is not an asset or has no first key part. Otherwise it returns one asset per distinct first key part, each held by a scanned key with that first part. On a well-formed ledger these are exactly the stored assets, one per asset key, in an unspecified order |
| Queries.UpdateAssetsByType | chaincode/fabric_vuln_benchmark.go:360-396 | every asset the index selects by type is written back under its own key, computed from the indexed document, with `Amount` incremented (int32 wrap-around); every other key is untouched |
| Invariant.OnlyAssetKeys | chaincode/fabric_vuln_benchmark.go:49 | in a well-formed ledger every composite key is the asset key of its first part |
| Executor.DescriptionUpdateAlwaysFails | chaincode/fabric_vuln_benchmark.go:211-217 | on a well-formed ledger, `UpdateAssetDescription` fails and changes nothing |
| Executor.CreateAssetPreserves | chaincode/fabric_vuln_benchmark.go:46-94 | CreateAsset keeps the ledger well-formed |
| Executor.CreateOwnerPreserves | chaincode/fabric_vuln_benchmark.go:97-144 | CreateOwner keeps the ledger well-formed: the public copy carries no restricted field, and the private record has its public counterpart |
| Executor.UpdateAssetAmountPreserves | chaincode/fabric_vuln_benchmark.go:147-200 | UpdateAssetAmount keeps the ledger well-formed |
| Executor.InterproceduralPreserves | chaincode/fabric_vuln_benchmark.go:278-293 | UpdateAssetDescriptionInterprocedural keeps the ledger well-formed |
| Executor.UpdateAssetsByTypePreserves | chaincode/fabric_vuln_benchmark.go:360-396 | UpdateAssetsByType keeps the ledger well-formed when the index it reads is well-formed |
| Executor.ExecutePreservesWellFormed | chaincode/fabric_vuln_benchmark.go:23-422 | every transaction keeps the ledger well-formed, provided a rich query reads a well-formed index (as every earlier world is, by `Executor.EarlierIndexesWellFormed`): owners under their decimal id with no restricted field public, one-part asset keys naming their own asset, and no private record without a public one |
| Executor.RunPreservesWellFormed | chaincode/fabric_vuln_benchmark.go:23-422 | any run of transactions from a well-formed state ends in a well-formed state, provided every rich query of the run reads a well-formed index |
| Executor.DescriptionUpdateNeverSucceeds | chaincode/fabric_vuln_benchmark.go:211-217 | from a fresh process over an empty ledger, `UpdateAssetDescription` fails after every run of transactions whose rich queries read well-formed indexes |
| Executor.EarlierIndexesWellFormed | chaincode/fabric_vuln_benchmark.go:362-371 | when each rich query reads the world of a state the run has already reached (the state database lags the ledger but is a copy of it), every index is well formed, and so is every state of the run. The run lemmas' assumption is thus proved for such runs |
| Executor.DescriptionUpdateNeverSucceedsOnLedger | chaincode/fabric_vuln_benchmark.go:211-217 | from a fresh process over an empty ledger, `UpdateAssetDescription` fails after every run whose rich queries read earlier worlds of that same ledger, with no other assumption |
| Properties.CreateThenRead | chaincode/fabric_vuln_benchmark.go:55-88 | after a successful creation, ReadAsset returns the new asset with amount 1, and creating the same id again fails as a duplicate |
| Properties.ConsecutiveOwnersKept | chaincode/fabric_vuln_benchmark.go:114-137 | two successful owner creations (counter below the int64 maximum) write distinct keys `Itoa(id)` and `Itoa(id+1)`. Each holds its public record with its own id and its full private record: name, parsed age and document number. The second creation keeps the first's records |
| Properties.ReinitOverwritesFirstOwner | chaincode/fabric_vuln_benchmark.go:23-27 | after InitContract, the next owner overwrites whatever key "1" held, public and private |
| Properties.DescriptionUpdateIdempotent | chaincode/fabric_vuln_benchmark.go:211-249 | for both description updates, applying one twice with the same description leaves the state the first left |
| Properties.DescriptionUpdateKeepsOtherFields | chaincode/fabric_vuln_benchmark.go:279-286 | the interprocedural update changes only `description` of the stored asset |
| Properties.DescriptionReplyIsStale | chaincode/fabric_vuln_benchmark.go:291-292 | when the description changes, the returned asset differs from the record now stored |
| Properties.AmountUpdateStaysInBounds | chaincode/fabric_vuln_benchmark.go:174-194 | an amount starting in [0, int32(totalCapacity)] ends there, and no other field of the asset changes |
| Properties.PhantomAssetUntouched | chaincode/fabric_vuln_benchmark.go:363-371 | an asset of the requested type that the index does not show is not incremented |
| Properties.IndexedValueWins | chaincode/fabric_vuln_benchmark.go:376-389 | each hit's new amount is the indexed amount plus one, whatever the committed value is |
| Properties.FreshIndexIncrementsExactlyMatches | chaincode/fabric_vuln_benchmark.go:360-396 | with an up-to-date index, exactly the assets of the requested type are incremented and nothing else moves |
| Properties.IncrementWraps | chaincode/fabric_vuln_benchmark.go:382 | an asset at the int32 maximum is incremented to the int32 minimum |
| Properties.PlainKeyMissesStoredAsset | chaincode/fabric_vuln_benchmark.go:211-217 | an asset under its composite key with nothing under the plain key makes the as-written update report it missing, while the corrected one succeeds |
| Properties.CreatedAssetCannotBeRedescribed | chaincode/fabric_vuln_benchmark.go:206-217 | concretely: owner "1", CreateAsset("A1"), then UpdateAssetDescription("A1") fails with "does not exist" |
| Properties.FixedAgreesWithInterprocedural | chaincode/fabric_vuln_benchmark.go:278-293 | with the key corrected, the direct and interprocedural updates have the same success condition, reply and resulting state |
| Properties.FixedUpdateKeepsOtherFields | chaincode/fabric_vuln_benchmark.go:206-233 | the corrected update changes only `description` and is idempotent |

## Findings

| source | as written | input that shows it | evidently intended | confidence | as-written member | corrected member |
|---|---|---|---|---|---|---|
| chaincode/fabric_vuln_benchmark.go:211 | `UpdateAssetDescription` reads `stub.GetState(assetID)`, the plain key. It builds the composite key `assetKey` at line 206 and writes it at line 233 | owner "1" exists; `CreateAsset("A1", ..., "1")`; then `UpdateAssetDescription("A1", d)` returns "Does not exist" | read `stub.GetState(assetKey)`, as `UpdateAssetAmount` and `ReadAsset` do | high (proved; not executed) | Contract.UpdateAssetDescription, shown by Properties.CreatedAssetCannotBeRedescribed and Executor.DescriptionUpdateNeverSucceedsOnLedger | Contract.UpdateAssetDescriptionFixed, with Properties.FixedUpdateKeepsOtherFields and Properties.FixedAgreesWithInterprocedural |

`Executor` dispatches the as-written `UpdateAssetDescription`, because it models the contract as deployed.

The deliberate defects the contract carries are modelled as written and exhibited by lemmas rather than listed as findings:

- the stale re-read after a write (`Properties.DescriptionReplyIsStale`);
- the int32 overflow and truncation (`Strconv.OverlongPositiveIsMinusOne`, `Aggregation.NegativeBoundFreezesAmount`, `Properties.IncrementWraps`);
- the order-dependent aggregation (`Aggregation.OrderMatters`);
- the phantom and lost updates of the rich query (`Properties.PhantomAssetUntouched`, `Properties.IndexedValueWins`);
- the private fields in messages (`Contract.CreateOwner`).

## Left out

- Goroutines and the data race in `UpdateAssetAmount`: the model applies the deltas in list order. `Aggregation.OrderMatters` shows why an unordered execution is not deterministic.
- JSON encoding: records are datatypes. `json.Marshal` cannot fail on these structs. `json.Unmarshal` (`Ledger.DecodeAsset`, `Ledger.DecodeOwner`) is modelled only as "an owner document is not an asset and vice versa" (the `id` field is a number in one and a string in the other). The decoded delta list of `UpdateAssetAmount` is an `Option` argument, None standing for malformed JSON.
- Store and shim I/O failures: `GetState`, `PutState`, `PutPrivateData`, `GetTransient`, `GetQueryResult` and iterator errors. The model's store is always available. `GetState`'s ignored error in `CreateAsset` therefore has no effect here.
- Exact error and success message strings: each is an error tag carrying the fields the message interpolates.
- The byte encoding of composite keys and the order of the range scan. `Key` is a datatype, so splitting a composite key is its exact inverse by construction.
- Contract.CreateAsset: `ownerID` is not validated, so in Fabric it can be the text of a composite key (`"\u0000asset\u0000A1\u0000"`). The owner lookup then finds an asset document and fails with "unable to unmarshal". The model keeps plain and composite keys apart, so it reports `OwnerMissing` for such an id. Only the error differs.
- Ledger.CreateCompositeKey: Fabric also rejects attributes that are not valid UTF-8. A Dafny string cannot hold such text, so the model checks only for U+0000 and U+10FFFF. Again only the error differs.
- Process-local fields: `ownerCounter` and `totalCapacity` live in each peer's contract process. In Fabric they change during simulation, including for a query that is only evaluated and for a proposal that is never ordered or committed, and each endorsing peer keeps its own copy. The model has one process whose fields change only together with the transaction that changes them.
- Queries.ReadAllAssets: when two scanned keys share a first part, the model lets either value win, because the scan's key order is not modelled.
- Queries.UpdateAssetsByType: the rich-query index is a parameter, possibly stale. The operation itself accepts any map. The run lemmas take it to be a well-formed world, which `Executor.EarlierIndexesWellFormed` proves for an index copied from an earlier world of the run. An index that never was the ledger's world is outside them. The selector matches `assetType` literally. A type containing JSON quote characters would change or break the query text the source builds with `%s`, and that is not modelled.
- Any document other than owner and asset records: the contract writes only these two kinds.
- `time.Now()` and the `%p` owner address in `CreateAsset`: opaque strings supplied by `Contract.Env`.
- Go's `int` is taken as 64 bits wide for `ownerCounter`.
- A Go panic (`cKeyParts[0]` on a key with no parts) is reported as the error `IndexOutOfRange`.
- `TransferAnotherAsset`: a call into another contract whose code is not part of this model. `toChaincodeArgs` is argument packing for it.
- `UnhandledError`: a read whose result is discarded, with no effect on the state.
- `main.go`: process bootstrap only.
