/** Running sums of part lengths, the arithmetic behind `SeqChain`: a chain
    of parts with lengths `lens` owns the positions [0, Sum(lens)), and part
    k owns [Prefix(lens, k), Prefix(lens, k) + lens[k]).
 */
module PrefixSums {

  function Sum(lens: seq<nat>): nat
  {
    if lens == [] then 0 else lens[0] + Sum(lens[1..])
  }

  /** The total length of the parts before part k. */
  function Prefix(lens: seq<nat>, k: nat): nat
    requires k <= |lens|
  {
    Sum(lens[..k])
  }

  lemma {:induction false} SumAppend(a: seq<nat>, b: seq<nat>)
    ensures Sum(a + b) == Sum(a) + Sum(b)
  {
    if a != [] {
      assert (a + b)[1..] == a[1..] + b;
      SumAppend(a[1..], b);
    } else {
      assert a + b == b;
    }
  }

  lemma PrefixStep(lens: seq<nat>, k: nat)
    requires k < |lens|
    ensures Prefix(lens, k + 1) == Prefix(lens, k) + lens[k]
  {
    assert lens[..k + 1] == lens[..k] + [lens[k]];
    SumAppend(lens[..k], [lens[k]]);
  }

  lemma PrefixAll(lens: seq<nat>)
    ensures Prefix(lens, |lens|) == Sum(lens)
  {
    assert lens[..|lens|] == lens;
  }

  /** Dropping the first part shifts every prefix by its length. */
  lemma PrefixTail(lens: seq<nat>, k: nat)
    requires k < |lens|
    ensures Prefix(lens, k + 1) == lens[0] + Prefix(lens[1..], k)
  {
    assert lens[..k + 1][1..] == lens[1..][..k];
  }

  /** Part i ends no later than any later part begins. */
  lemma {:induction false} PrefixMonotone(lens: seq<nat>, i: nat, j: nat)
    requires i < |lens| && j <= |lens|
    ensures i < j ==> Prefix(lens, i) + lens[i] <= Prefix(lens, j)
    decreases j
  {
    if i < j {
      PrefixStep(lens, j - 1);
      if i < j - 1 {
        PrefixMonotone(lens, i, j - 1);
      }
    }
  }

  /** The part that owns position `index` of the concatenation. */
  function Owner(lens: seq<nat>, index: nat): (k: nat)
    requires index < Sum(lens)
    ensures k < |lens| && Prefix(lens, k) <= index < Prefix(lens, k) + lens[k]
  {
    if index < lens[0] then
      assert lens[..0] == [];
      0
    else
      var k := Owner(lens[1..], index - lens[0]);
      PrefixTail(lens, k);
      PrefixTail(lens, k + 1);
      1 + k
  }

  /** Owners are unique: a part whose range holds `index` is the owner. */
  lemma OwnerUnique(lens: seq<nat>, index: nat, k: nat)
    requires k < |lens| && Prefix(lens, k) <= index < Prefix(lens, k) + lens[k]
    ensures index < Sum(lens) && Owner(lens, index) == k
  {
    PrefixMonotone(lens, k, |lens|);
    PrefixAll(lens);
    var owner := Owner(lens, index);
    PrefixMonotone(lens, owner, k);
    PrefixMonotone(lens, k, owner);
  }

  function Flatten<X>(ss: seq<seq<X>>): seq<X>
  {
    if ss == [] then [] else ss[0] + Flatten(ss[1..])
  }

  /** Position `index` of a concatenation is position `index - Prefix` of
      the owning piece, and the length of the concatenation is the sum of
      the lengths of the pieces. */
  lemma {:induction false} FlattenAt<X>(ss: seq<seq<X>>, lens: seq<nat>, index: nat)
    requires |ss| == |lens| && forall k :: 0 <= k < |ss| ==> |ss[k]| == lens[k]
    ensures |Flatten(ss)| == Sum(lens)
    ensures index < Sum(lens) ==>
              var k := Owner(lens, index); Flatten(ss)[index] == ss[k][index - Prefix(lens, k)]
  {
    if ss != [] {
      var rest := if index >= lens[0] then index - lens[0] else 0;
      FlattenAt(ss[1..], lens[1..], rest);
      if index < Sum(lens) {
        if index < lens[0] {
          assert lens[..0] == [];
        } else {
          PrefixTail(lens, Owner(lens[1..], rest));
        }
      }
    }
  }
}
