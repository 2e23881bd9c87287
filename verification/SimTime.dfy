/** Simulated time: 64-bit nanosecond counts with saturating arithmetic. */
module SimTime {

  const MAX_NANOS: nat := 0xFFFF_FFFF_FFFF_FFFF

  type Time = t: nat | t <= 0xFFFF_FFFF_FFFF_FFFF

  function Saturate(n: nat): (t: Time)
    ensures n <= MAX_NANOS ==> t == n
    ensures n > MAX_NANOS ==> t == MAX_NANOS
  {
    if n > MAX_NANOS then MAX_NANOS else n
  }

  function Plus(a: Time, b: Time): (t: Time)
    ensures a <= t && b <= t
    ensures a + b <= MAX_NANOS ==> t == a + b
    ensures a + b > MAX_NANOS ==> t == MAX_NANOS
  {
    Saturate(a + b)
  }

  function Scale(a: Time, k: nat): Time {
    Saturate(a * k)
  }

  /** Saturating difference. */
  function Since(a: Time, b: Time): Time {
    if a <= b then 0 else a - b
  }
}

module Options {
  datatype Option<+T> = None | Some(value: T)
}

/** Sequences, and vectors with constant-time removal. */
module Vectors {

  lemma {:induction false} TailOfConcat<T>(a: seq<T>, b: seq<T>)
    requires a != []
    ensures a + b != [] && (a + b)[0] == a[0] && (a + b)[1..] == a[1..] + b
  {}

  lemma {:induction false} ConcatAssoc<T>(a: seq<T>, b: seq<T>, c: seq<T>)
    ensures (a + b) + c == a + (b + c)
  {}

  /** Removes index i by moving the last element into its place. */
  function SwapRemove<T>(v: seq<T>, i: nat): (r: seq<T>)
    requires i < |v|
    ensures |r| == |v| - 1
  {
    v[i := v[|v| - 1]][..|v| - 1]
  }

  lemma {:induction false} SwapRemoveMultiset<T>(v: seq<T>, i: nat)
    requires i < |v|
    ensures multiset(SwapRemove(v, i)) == multiset(v) - multiset{v[i]}
  {
    var n := |v| - 1;
    if i == n {
      assert v == v[..n] + [v[n]];
      assert SwapRemove(v, i) == v[..n];
    } else {
      assert v == v[..i] + [v[i]] + v[i + 1..n] + [v[n]];
      assert SwapRemove(v, i) == v[..i] + [v[n]] + v[i + 1..n];
    }
  }

  /** Removes index i and closes the gap. */
  lemma {:induction false} RemovedMultiset<T>(v: seq<T>, i: nat)
    requires i < |v|
    ensures multiset(v) == multiset(v[..i] + v[i + 1..]) + multiset{v[i]}
  {
    assert v == v[..i] + [v[i]] + v[i + 1..];
  }

  ghost predicate Distinct<T(!new)>(v: seq<T>) {
    forall i, j :: 0 <= i < j < |v| ==> v[i] != v[j]
  }

  /** An answer past the end means the last element. */
  function Clamp(pick: nat, length: nat): (i: nat)
    ensures length > 0 ==> i < length
    ensures pick < length ==> i == pick
    ensures 0 < length <= pick ==> i == length - 1
  {
    if pick < length then pick else if length == 0 then 0 else length - 1
  }
}
