/** The contract as a whole: one call per exported transaction, dispatched
    to its operation, and runs of calls from a freshly started process over
    an empty ledger. ReadAllAssets is a read-only query and does not appear
    among the calls. */
module Executor {
  import opened GoInts
  import opened Strconv
  import opened Ledger
  import opened Invariant
  import Contract
  import Queries

  datatype Call =
    | InitContractCall
    | CreateAssetCall(env: Contract.Env, assetId: string, description: string, assetType: string, ownerId: string)
    | CreateOwnerCall(transient: map<string, string>, name: string, documentNumber: string)
    | UpdateAssetAmountCall(amountAssetId: string, amounts: Option<seq<string>>)
    | UpdateAssetDescriptionCall(descAssetId: string, newDescription: string)
    | UpdateAssetDescriptionInterproceduralCall(ipAssetId: string, ipDescription: string)
    | ReadAssetCall(readAssetId: string)
    | ChangeTotalCapacityCall(valueStr: string)
    | UpdateAssetsByTypeCall(index: map<Key, Value>, byType: string)

  /** The state after one call, whatever it returned. */
  function Execute(s: State, call: Call): State {
    match call
    case InitContractCall => Contract.InitContract(s)
    case CreateAssetCall(env, id, d, t, o) => Contract.CreateAsset(s, env, id, d, t, o).post
    case CreateOwnerCall(tr, n, doc) => Contract.CreateOwner(s, tr, n, doc).post
    case UpdateAssetAmountCall(id, amounts) => Contract.UpdateAssetAmount(s, id, amounts).post
    case UpdateAssetDescriptionCall(id, d) => Contract.UpdateAssetDescription(s, id, d).post
    case UpdateAssetDescriptionInterproceduralCall(id, d) => Contract.UpdateAssetDescriptionInterprocedural(s, id, d).post
    case ReadAssetCall(_) => s
    case ChangeTotalCapacityCall(v) => Contract.ChangeTotalCapacity(s, v).post
    case UpdateAssetsByTypeCall(index, t) => Queries.UpdateAssetsByType(s, index, t).post
  }

  /** The state after a run of calls, in order. */
  function Run(s: State, calls: seq<Call>): State
    decreases |calls|
  {
    if calls == [] then s else Run(Execute(s, calls[0]), calls[1..])
  }

  /** Every rich query of the run reads an index that is itself well formed,
      as any earlier state of the ledger is. */
  predicate IndexesWellFormed(calls: seq<Call>) {
    forall i :: 0 <= i < |calls| && calls[i].UpdateAssetsByTypeCall? ==> WellFormedWorld(calls[i].index)
  }

  /** A description update by plain key can never succeed on a well-formed
      ledger: the plain key holds an owner record or nothing. */
  lemma DescriptionUpdateAlwaysFails(s: State, assetId: string, description: string)
    requires WellFormed(s)
    ensures Contract.UpdateAssetDescription(s, assetId, description).result.Err?
    ensures Contract.UpdateAssetDescription(s, assetId, description).post == s
  {
    if Simple(assetId) in s.world {
      assert WellFormedEntry(Simple(assetId), s.world[Simple(assetId)]);
    }
  }

  /** A created asset sits under the asset key of its own id. */
  lemma CreateAssetPreserves(s: State, env: Contract.Env, id: string, d: string, ty: string, o: string)
    requires WellFormed(s)
    ensures WellFormed(Contract.CreateAsset(s, env, id, d, ty, o).post)
  {
    var t := Contract.CreateAsset(s, env, id, d, ty, o).post;
    if Contract.CreateAsset(s, env, id, d, ty, o).result.Ok? {
      forall k | k in t.world ensures WellFormedEntry(k, t.world[k]) {
        if k != AssetKey(id) {
          assert WellFormedEntry(k, s.world[k]);
        }
      }
    }
  }

  /** A new owner is written publicly under its decimal id with no restricted field, and privately under the same key string. */
  lemma CreateOwnerPreserves(s: State, tr: map<string, string>, n: string, doc: string)
    requires WellFormed(s)
    ensures WellFormed(Contract.CreateOwner(s, tr, n, doc).post)
  {
    var t := Contract.CreateOwner(s, tr, n, doc).post;
    if Contract.CreateOwner(s, tr, n, doc).result.Ok? {
      forall k | k in t.world ensures WellFormedEntry(k, t.world[k]) {
        if k != Simple(Itoa(s.ownerCounter)) {
          assert WellFormedEntry(k, s.world[k]);
        }
      }
    }
  }

  /** Only the amount of an existing asset changes. */
  lemma UpdateAssetAmountPreserves(s: State, id: string, amounts: Option<seq<string>>)
    requires WellFormed(s)
    ensures WellFormed(Contract.UpdateAssetAmount(s, id, amounts).post)
  {
    var t := Contract.UpdateAssetAmount(s, id, amounts).post;
    if Contract.UpdateAssetAmount(s, id, amounts).result.Ok? {
      assert WellFormedEntry(AssetKey(id), s.world[AssetKey(id)]);
      forall k | k in t.world ensures WellFormedEntry(k, t.world[k]) {
        if k != AssetKey(id) {
          assert WellFormedEntry(k, s.world[k]);
        }
      }
    }
  }

  /** Only the description of an existing asset changes. */
  lemma InterproceduralPreserves(s: State, id: string, d: string)
    requires WellFormed(s)
    ensures WellFormed(Contract.UpdateAssetDescriptionInterprocedural(s, id, d).post)
  {
    var t := Contract.UpdateAssetDescriptionInterprocedural(s, id, d).post;
    if Contract.UpdateAssetDescriptionInterprocedural(s, id, d).result.Ok? {
      assert WellFormedEntry(AssetKey(id), s.world[AssetKey(id)]);
      forall k | k in t.world ensures WellFormedEntry(k, t.world[k]) {
        if k != AssetKey(id) {
          assert WellFormedEntry(k, s.world[k]);
        }
      }
    }
  }

  /** Every hit is an indexed asset document written back under its own key. */
  lemma UpdateAssetsByTypePreserves(s: State, index: map<Key, Value>, ty: string)
    requires WellFormed(s) && WellFormedWorld(index)
    ensures WellFormed(Queries.UpdateAssetsByType(s, index, ty).post)
  {
    var t := Queries.UpdateAssetsByType(s, index, ty).post;
    forall k | k in t.world ensures WellFormedEntry(k, t.world[k]) {
      if Queries.Selected(index, ty, k) {
        assert WellFormedEntry(k, index[k]);
      } else {
        assert WellFormedEntry(k, s.world[k]);
      }
    }
  }

  /** Every call keeps the ledger well formed. */
  lemma ExecutePreservesWellFormed(s: State, call: Call)
    requires WellFormed(s)
    requires call.UpdateAssetsByTypeCall? ==> WellFormedWorld(call.index)
    ensures WellFormed(Execute(s, call))
  {
    match call
    case InitContractCall =>
    case CreateAssetCall(env, id, d, ty, o) => CreateAssetPreserves(s, env, id, d, ty, o);
    case CreateOwnerCall(tr, n, doc) => CreateOwnerPreserves(s, tr, n, doc);
    case UpdateAssetAmountCall(id, amounts) => UpdateAssetAmountPreserves(s, id, amounts);
    case UpdateAssetDescriptionCall(id, d) => DescriptionUpdateAlwaysFails(s, id, d);
    case UpdateAssetDescriptionInterproceduralCall(id, d) => InterproceduralPreserves(s, id, d);
    case ReadAssetCall(_) =>
    case ChangeTotalCapacityCall(v) =>
    case UpdateAssetsByTypeCall(index, ty) => UpdateAssetsByTypePreserves(s, index, ty);
  }

  /** Every ledger reachable from a fresh process over an empty ledger is well
      formed, whatever calls are made (rich queries reading well-formed
      indexes). */
  lemma {:induction false} RunPreservesWellFormed(s: State, calls: seq<Call>)
    requires WellFormed(s) && IndexesWellFormed(calls)
    ensures WellFormed(Run(s, calls))
    decreases |calls|
  {
    if calls != [] {
      ExecutePreservesWellFormed(s, calls[0]);
      assert IndexesWellFormed(calls[1..]) by {
        forall i | 0 <= i < |calls[1..]| && calls[1..][i].UpdateAssetsByTypeCall?
          ensures WellFormedWorld(calls[1..][i].index)
        {
          assert calls[1..][i] == calls[i + 1];
        }
      }
      RunPreservesWellFormed(Execute(s, calls[0]), calls[1..]);
    }
  }

  /** Consequence: from a fresh process over an empty ledger,
      UpdateAssetDescription fails after every run of calls. */
  lemma DescriptionUpdateNeverSucceeds(calls: seq<Call>, assetId: string, description: string)
    requires IndexesWellFormed(calls)
    ensures Contract.UpdateAssetDescription(Run(ProcessStart(map[], map[]), calls), assetId, description).result.Err?
  {
    var s0 := ProcessStart(map[], map[]);
    RunPreservesWellFormed(s0, calls);
    DescriptionUpdateAlwaysFails(Run(s0, calls), assetId, description);
  }

  /** Running one more call is executing it after the run so far. */
  lemma {:induction false} RunSnoc(s: State, calls: seq<Call>, c: Call)
    ensures Run(s, calls + [c]) == Execute(Run(s, calls), c)
    decreases |calls|
  {
    if calls != [] {
      assert (calls + [c])[1..] == calls[1..] + [c];
      RunSnoc(Execute(s, calls[0]), calls[1..], c);
    }
  }

  /** Every rich query of the run reads the world of some state the run has
      already passed through, up to and including the current one: the state
      database behind the query is a copy of the ledger, possibly behind it. */
  predicate IndexesEarlier(s: State, calls: seq<Call>) {
    forall i :: 0 <= i < |calls| && calls[i].UpdateAssetsByTypeCall? ==>
      exists j :: 0 <= j <= i && calls[i].index == Run(s, calls[..j]).world
  }

  /** Every state of a run whose rich queries read earlier worlds is well
      formed, by strong induction on the length of the prefix. */
  lemma {:induction false} PrefixesWellFormed(s: State, calls: seq<Call>, n: nat)
    requires WellFormed(s) && IndexesEarlier(s, calls) && n <= |calls|
    ensures WellFormed(Run(s, calls[..n]))
    decreases n
  {
    if n == 0 {
      assert calls[..0] == [];
    } else {
      var c := calls[n - 1];
      PrefixesWellFormed(s, calls, n - 1);
      if c.UpdateAssetsByTypeCall? {
        var j :| 0 <= j <= n - 1 && c.index == Run(s, calls[..j]).world;
        PrefixesWellFormed(s, calls, j);
      }
      ExecutePreservesWellFormed(Run(s, calls[..n - 1]), c);
      assert calls[..n] == calls[..n - 1] + [c];
      RunSnoc(s, calls[..n - 1], c);
    }
  }

  /** An index copied from an earlier world of the run is well formed, so the
      assumption of the run lemmas holds on every such run. */
  lemma EarlierIndexesWellFormed(s: State, calls: seq<Call>)
    requires WellFormed(s) && IndexesEarlier(s, calls)
    ensures IndexesWellFormed(calls)
    ensures WellFormed(Run(s, calls))
  {
    forall i | 0 <= i < |calls| && calls[i].UpdateAssetsByTypeCall?
      ensures WellFormedWorld(calls[i].index)
    {
      var j :| 0 <= j <= i && calls[i].index == Run(s, calls[..j]).world;
      PrefixesWellFormed(s, calls, j);
    }
    PrefixesWellFormed(s, calls, |calls|);
    assert calls[..|calls|] == calls;
  }

  /** From a fresh process over an empty ledger, UpdateAssetDescription fails
      after every run whose rich queries read earlier worlds of the ledger. */
  lemma DescriptionUpdateNeverSucceedsOnLedger(calls: seq<Call>, assetId: string, description: string)
    requires IndexesEarlier(ProcessStart(map[], map[]), calls)
    ensures Contract.UpdateAssetDescription(Run(ProcessStart(map[], map[]), calls), assetId, description).result.Err?
  {
    EarlierIndexesWellFormed(ProcessStart(map[], map[]), calls);
    DescriptionUpdateNeverSucceeds(calls, assetId, description);
  }
}
