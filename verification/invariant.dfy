/** The shape every ledger the contract produces keeps: owners under plain
    keys spelled as their decimal id, with no restricted field in the public
    copy; assets under one-part "asset" composite keys naming their own id;
    and no private owner record without its public counterpart. */
module Invariant {
  import opened Strconv
  import opened Ledger

  /** A public owner record reveals none of name, age and document number. */
  predicate PublicOnly(o: Owner) {
    o.name == "" && o.age == 0 && o.documentNumber == ""
  }

  predicate WellFormedEntry(k: Key, v: Value) {
    match k
    case Simple(name) => v.OwnerRecord? && name == Itoa(v.owner.id) && PublicOnly(v.owner)
    case Composite(ns, parts) => ns == AssetNamespace && |parts| == 1 && v.AssetRecord? && v.asset.id == parts[0]
  }

  predicate WellFormedWorld(w: map<Key, Value>) {
    forall k :: k in w ==> WellFormedEntry(k, w[k])
  }

  predicate WellFormed(s: State) {
    && WellFormedWorld(s.world)
    && (forall key :: key in s.collection ==> Simple(key) in s.world)
  }

  /** In a well-formed world the only composite key with first part c is the
      asset key of c. */
  lemma OnlyAssetKeys(w: map<Key, Value>, k: Key)
    requires WellFormedWorld(w) && k in w && k.Composite?
    ensures k == AssetKey(k.parts[0])
  {
    assert WellFormedEntry(k, w[k]);
    assert k.parts == [k.parts[0]];
  }
}
