/** The amount adjustment inside UpdateAssetAmount, serialized: the deltas are
    applied one after another in list order, each one reading the running
    amount the previous one left. Each delta is parsed with `ParseInt` (its
    error discarded), truncated to int32, added in int32 arithmetic, and kept
    only when the result lies between 0 and `int32(totalCapacity)`. */
module Aggregation {
  import opened GoInts
  import opened Strconv

  /** The int64 a goroutine computes with: `value, _ := strconv.ParseInt(...)`. */
  function DeltaValue(delta: string): Int64 {
    ParseInt(delta).value
  }

  /** `int32(value)`: the int32 a goroutine adds. */
  function Int32Delta(delta: string): Int32 {
    Wrap32(DeltaValue(delta))
  }

  /** The int32 deltas of the decoded list, one per goroutine, in list order. */
  function Deltas(deltas: seq<string>): (r: seq<Int32>)
    ensures |r| == |deltas|
    ensures forall i :: 0 <= i < |r| ==> r[i] == Int32Delta(deltas[i])
    decreases |deltas|
  {
    if deltas == [] then [] else [Int32Delta(deltas[0])] + Deltas(deltas[1..])
  }

  /** `asset.Amount + int32(value)`, in int32 arithmetic. */
  function Candidate(amount: Int32, v: Int32): Int32 {
    Wrap32(amount + v)
  }

  /** `int32(totalCapacity)`: the uint64 capacity truncated to its low 32 bits. */
  function Bound(capacity: Uint64): Int32 {
    Wrap32(capacity)
  }

  predicate Accepts(amount: Int32, v: Int32, capacity: Uint64) {
    0 <= Candidate(amount, v) <= Bound(capacity)
  }

  /** One goroutine's read-modify-write of the running amount. */
  function ApplyDelta(amount: Int32, v: Int32, capacity: Uint64): (r: Int32)
    ensures Accepts(amount, v, capacity) ==> r == Candidate(amount, v) && 0 <= r <= Bound(capacity)
    ensures !Accepts(amount, v, capacity) ==> r == amount
  {
    var res := Candidate(amount, v);
    if res <= Bound(capacity) && res >= 0 then res else amount
  }

  /** All deltas, left to right. */
  function Fold(amount: Int32, vs: seq<Int32>, capacity: Uint64): Int32
    decreases |vs|
  {
    if vs == [] then amount
    else Fold(ApplyDelta(amount, vs[0], capacity), vs[1..], capacity)
  }

  /** A delta that does not parse is read as 0 and leaves the amount as it is. */
  lemma UnparsableDeltaIsNoOp(amount: Int32, delta: string, capacity: Uint64)
    requires ParseInt(delta).err == Syntax
    ensures DeltaValue(delta) == 0 && Int32Delta(delta) == 0
    ensures ApplyDelta(amount, Int32Delta(delta), capacity) == amount
  {
  }

  /** The boundary cases: with no int32 overflow involved, landing exactly on 0
      or on the capacity is accepted, one past either end is rejected. */
  lemma Boundaries(amount: Int32, d: Int32, capacity: Uint64)
    requires 0 <= capacity <= MaxInt32
    requires MinInt32 <= amount + d <= MaxInt32
    ensures amount + d == 0 || amount + d == capacity ==> ApplyDelta(amount, Int32Delta(Itoa(d)), capacity) == amount + d
    ensures amount + d == -1 || amount + d == capacity + 1 ==> ApplyDelta(amount, Int32Delta(Itoa(d)), capacity) == amount
  {
    ParseIntItoa(d);
  }

  /** The deltas the fold accepts, in order. */
  function Accepted(amount: Int32, vs: seq<Int32>, capacity: Uint64): seq<Int32>
    decreases |vs|
  {
    if vs == [] then []
    else
      var next := ApplyDelta(amount, vs[0], capacity);
      (if Accepts(amount, vs[0], capacity) then [vs[0]] else []) + Accepted(next, vs[1..], capacity)
  }

  function Sum(xs: seq<int>): int
    decreases |xs|
  {
    if xs == [] then 0 else xs[0] + Sum(xs[1..])
  }

  /** The fold is congruent, modulo 2^32, to the starting amount plus the
      accepted deltas. */
  lemma {:induction false} FoldCongruent(amount: Int32, vs: seq<Int32>, capacity: Uint64)
    ensures (amount + Sum(Accepted(amount, vs, capacity)) - Fold(amount, vs, capacity)) % Two32 == 0
    decreases |vs|
  {
    if vs != [] {
      var v := vs[0];
      var next := ApplyDelta(amount, v, capacity);
      var rest := Accepted(next, vs[1..], capacity);
      var f := Fold(next, vs[1..], capacity);
      FoldCongruent(next, vs[1..], capacity);
      assert Fold(amount, vs, capacity) == f;
      if Accepts(amount, v, capacity) {
        assert Accepted(amount, vs, capacity) == [v] + rest;
        assert Sum([v] + rest) == v + Sum(rest) by {
          assert ([v] + rest)[1..] == rest;
        }
        assert (amount + v - next) % Two32 == 0;
        MultiplesOf32(amount + v - next, next + Sum(rest) - f);
        assert amount + Sum([v] + rest) - f == (amount + v - next) + (next + Sum(rest) - f);
      } else {
        assert Accepted(amount, vs, capacity) == rest;
      }
    }
  }

  /** The final amount depends only on which deltas were accepted: it is the
      starting amount plus their sum, in int32 arithmetic. */
  lemma FoldIsBasePlusAccepted(amount: Int32, vs: seq<Int32>, capacity: Uint64)
    ensures Fold(amount, vs, capacity) == Wrap32(amount + Sum(Accepted(amount, vs, capacity)))
  {
    FoldCongruent(amount, vs, capacity);
    Wrap32Unique(amount + Sum(Accepted(amount, vs, capacity)), Fold(amount, vs, capacity));
  }

  /** Once the amount is within [0, int32(totalCapacity)] the fold keeps it
      there; a starting amount outside that range is either kept untouched or
      brought into it by an accepted delta. */
  lemma {:induction false} FoldStaysInRange(amount: Int32, vs: seq<Int32>, capacity: Uint64)
    ensures var r := Fold(amount, vs, capacity);
            r == amount || 0 <= r <= Bound(capacity)
    ensures 0 <= amount <= Bound(capacity) ==> 0 <= Fold(amount, vs, capacity) <= Bound(capacity)
    decreases |vs|
  {
    if vs != [] {
      FoldStaysInRange(ApplyDelta(amount, vs[0], capacity), vs[1..], capacity);
    }
  }

  /** Applying two batches in turn is applying their concatenation. */
  lemma {:induction false} FoldAppend(amount: Int32, xs: seq<Int32>, ys: seq<Int32>, capacity: Uint64)
    ensures Fold(amount, xs + ys, capacity) == Fold(Fold(amount, xs, capacity), ys, capacity)
    decreases |xs|
  {
    if xs == [] {
      assert xs + ys == ys;
    } else {
      assert (xs + ys)[0] == xs[0];
      assert (xs + ys)[1..] == xs[1..] + ys;
      FoldAppend(ApplyDelta(amount, xs[0], capacity), xs[1..], ys, capacity);
    }
  }

  /** The deltas that parse (possibly with a range error), in order. */
  function Parsable(deltas: seq<string>): (r: seq<string>)
    ensures forall i :: 0 <= i < |r| ==> ParseInt(r[i]).err != Syntax
    ensures forall x :: x in r ==> x in deltas
    ensures forall x :: x in deltas && ParseInt(x).err != Syntax ==> x in r
    ensures |r| <= |deltas|
    decreases |deltas|
  {
    if deltas == [] then []
    else if ParseInt(deltas[0]).err == Syntax then Parsable(deltas[1..])
    else [deltas[0]] + Parsable(deltas[1..])
  }

  /** Dropping every delta that fails to parse does not change the result. */
  lemma {:induction false} FoldIgnoresUnparsable(amount: Int32, deltas: seq<string>, capacity: Uint64)
    ensures Fold(amount, Deltas(deltas), capacity) == Fold(amount, Deltas(Parsable(deltas)), capacity)
    decreases |deltas|
  {
    if deltas != [] {
      var d := deltas[0];
      assert Deltas(deltas)[0] == Int32Delta(d);
      assert Deltas(deltas)[1..] == Deltas(deltas[1..]);
      if ParseInt(d).err == Syntax {
        UnparsableDeltaIsNoOp(amount, d, capacity);
        FoldIgnoresUnparsable(amount, deltas[1..], capacity);
      } else {
        var next := ApplyDelta(amount, Int32Delta(d), capacity);
        var p := [d] + Parsable(deltas[1..]);
        assert p[0] == d && p[1..] == Parsable(deltas[1..]);
        assert Deltas(p)[0] == Int32Delta(d);
        assert Deltas(p)[1..] == Deltas(Parsable(deltas[1..]));
        FoldIgnoresUnparsable(next, deltas[1..], capacity);
      }
    }
  }

  /** When `int32(totalCapacity)` is negative (a capacity of 2^31 up to 2^32-1
      modulo 2^32) no delta is ever accepted. */
  lemma {:induction false} NegativeBoundFreezesAmount(amount: Int32, vs: seq<Int32>, capacity: Uint64)
    requires Bound(capacity) < 0
    ensures Fold(amount, vs, capacity) == amount
    decreases |vs|
  {
    if vs != [] {
      NegativeBoundFreezesAmount(amount, vs[1..], capacity);
    }
  }

  lemma SmallLiterals()
    ensures Itoa(5) == "5" && Itoa(-3) == "-3" && Itoa(15) == "15" && Itoa(-20) == "-20"
    ensures Itoa(1000) == "1000"
  {
    assert Digits(1) == "1";
    assert Digits(2) == "2";
    assert Digits(10) == "10";
    assert Digits(100) == "100";
  }

  /** The literal deltas of the scenarios below parse to their values. */
  lemma ScenarioDeltas()
    ensures Deltas(["5", "-3", "1000"]) == [5, -3, 1000]
    ensures Deltas(["-20", "15"]) == [-20, 15]
    ensures Deltas(["15", "-20"]) == [15, -20]
  {
    SmallLiterals();
    ParseIntItoa(5);
    ParseIntItoa(-3);
    ParseIntItoa(1000);
    ParseIntItoa(15);
    ParseIntItoa(-20);
    assert ["5", "-3", "1000"][1..] == ["-3", "1000"];
    assert ["-3", "1000"][1..] == ["1000"];
    assert ["-20", "15"][1..] == ["15"];
    assert ["15", "-20"][1..] == ["-20"];
  }

  /** Capacity 500, amount 10, deltas "5", "-3", "1000": the first two are
      accepted (15, then 12), the third would reach 1012 and is rejected. */
  lemma Scenario()
    ensures Accepted(10, Deltas(["5", "-3", "1000"]), 500) == [5, -3]
    ensures Fold(10, Deltas(["5", "-3", "1000"]), 500) == 12
  {
    ScenarioDeltas();
    var vs: seq<Int32> := [5, -3, 1000];
    assert vs[1..] == [-3, 1000];
    assert vs[1..][1..] == [1000];
  }

  /** The result depends on the order of the deltas, which is why the
      concurrent goroutines of the source do not give a deterministic result. */
  lemma OrderMatters()
    ensures Fold(10, Deltas(["-20", "15"]), 500) == 25
    ensures Fold(10, Deltas(["15", "-20"]), 500) == 5
  {
    ScenarioDeltas();
    var xs: seq<Int32> := [-20, 15];
    var ys: seq<Int32> := [15, -20];
    assert xs[1..] == [15];
    assert ys[1..] == [-20];
  }
}
