/** What a `SeqChain` shows: while its parts keep the lengths they had at
    construction, the concatenation of what they show; once any part
    changes length, nothing at all.
 */
module ChainProperties {
  import opened Errors
  import opened IndexMath
  import opened PrefixSums
  import opened Views
  import opened SeqProperties

  /** What integer indexing shows of one sequence now, position by position. */
  ghost function Snapshot<T>(s: Sequence<T>): (r: seq<Result<T>>)
    reads Footprint(s)
    ensures |r| == Length(s) && forall j :: 0 <= j < |r| ==> r[j] == ItemAt(s, j)
  {
    seq(Length(s), j reads Footprint(s) => ItemAt(s, j))
  }

  ghost function Snapshots<T>(parts: seq<Sequence<T>>): (r: seq<seq<Result<T>>>)
    reads PartsFootprint(parts)
    ensures |r| == |parts| && forall k :: 0 <= k < |parts| ==> r[k] == Snapshot(parts[k])
  {
    seq(|parts|, k requires 0 <= k < |parts| reads PartsFootprint(parts) => Snapshot(parts[k]))
  }

  /** A chain whose parts still add up to its recorded length shows the
      concatenation of its parts: `len(chain)` items, item i being item i
      of the parts laid end to end. */
  lemma ChainIsConcatenation<T>(c: View<T>)
    requires c.ChainView? && Sum(PartLengths(c.parts)) == c.len
    ensures |Flatten(Snapshots(c.parts))| == c.len
    ensures forall i :: 0 <= i < c.len ==> ViewAt(c, i) == Flatten(Snapshots(c.parts))[i]
  {
    var ss, lens := Snapshots(c.parts), PartLengths(c.parts);
    FlattenAt(ss, lens, 0);
    forall i | 0 <= i < c.len
      ensures ViewAt(c, i) == Flatten(ss)[i]
    {
      FlattenAt(ss, lens, i);
    }
  }

  /** An index in the range of part k is answered by part k, at the index
      less the lengths of the parts before it. */
  lemma ChainIndexOwner<T>(c: View<T>, i: int, k: nat)
    requires c.ChainView? && Sum(PartLengths(c.parts)) == c.len
    requires k < |c.parts|
    requires Prefix(PartLengths(c.parts), k) <= i < Prefix(PartLengths(c.parts), k) + Length(c.parts[k])
    ensures ViewAt(c, i) == ItemAt(c.parts[k], i - Prefix(PartLengths(c.parts), k))
  {
    OwnerUnique(PartLengths(c.parts), i, k);
  }

  /** `len(chain)` bounds the indices it answers: an index that succeeds
      lies in [0, len). When the parts are lists whose lengths still add
      up, every index in that range succeeds. */
  lemma ChainLenCountsIndices<T>(c: View<T>, i: int)
    requires c.ChainView?
    ensures ViewAt(c, i).Ok? ==> 0 <= i < Length(Viewed(c))
    ensures && Sum(PartLengths(c.parts)) == c.len
            && (forall k :: 0 <= k < |c.parts| ==> c.parts[k].Native?)
            && 0 <= i < Length(Viewed(c))
            ==> ViewAt(c, i).Ok?
  {
  }

  /** Changing one length changes the sum. */
  lemma SumDetectsOneChange(a: seq<nat>, b: seq<nat>, k: nat)
    requires |a| == |b| && k < |a| && a[k] != b[k]
    requires forall m :: 0 <= m < |a| && m != k ==> a[m] == b[m]
    ensures Sum(a) != Sum(b)
  {
    assert a == a[..k] + [a[k]] + a[k + 1..];
    assert b == b[..k] + [b[k]] + b[k + 1..];
    assert a[..k] == b[..k];
    assert a[k + 1..] == b[k + 1..];
    SumAppend(a[..k] + [a[k]], a[k + 1..]);
    SumAppend(a[..k], [a[k]]);
    SumAppend(b[..k] + [b[k]], b[k + 1..]);
    SumAppend(b[..k], [b[k]]);
  }

  /** A chain built over parts with lengths `recorded` refuses every index
      once a single part has changed length, even an index that part does
      not own. */
  lemma OneResizedPartIsDetected<T>(c: View<T>, recorded: seq<nat>, k: nat, i: int)
    requires c.ChainView? && |recorded| == |c.parts| && Sum(recorded) == c.len
    requires k < |c.parts| && Length(c.parts[k]) != recorded[k]
    requires forall m :: 0 <= m < |c.parts| && m != k ==> Length(c.parts[m]) == recorded[m]
    requires 0 <= i < c.len
    ensures ViewAt(c, i) == Err(LengthChangedError)
  {
    SumDetectsOneChange(PartLengths(c.parts), recorded, k);
  }

  /** Slicing a chain never checks the parts: it succeeds for any non-zero
      step even when they are stale, and the new `Seq`, whose recorded
      length is the chain's own, never sees a change itself. Its integer
      access then fails: with `LengthChangedError` from the chain when the
      bounds are a fixpoint of re-slicing (always for a positive step), and
      otherwise possibly with `IndexError` for a negative position. */
  lemma ChainSliceDefersStaleness<T>(c: View<T>, start: Option<int>, stop: Option<int>, step: Option<int>, j: int)
    requires c.ChainView? && step != Some(0)
    ensures SliceView(c, start, stop, step).Ok?
    ensures SliceView(c, start, stop, step).value.base == Viewed(c)
    ensures SliceView(c, start, stop, step).value.lenOrig == c.len
    ensures (step.None? || step.value > 0) ==>
              RangeSlice(c.len, SliceView(c, start, stop, step).value.bounds) == SliceView(c, start, stop, step).value.bounds
    ensures Sum(PartLengths(c.parts)) != c.len && 0 <= j < SliceView(c, start, stop, step).value.len ==>
              || ViewAt(SliceView(c, start, stop, step).value, j) == Err(LengthChangedError)
              || ViewAt(SliceView(c, start, stop, step).value, j) == Err(IndexError)
    ensures && Sum(PartLengths(c.parts)) != c.len && 0 <= j < SliceView(c, start, stop, step).value.len
            && RangeSlice(c.len, SliceView(c, start, stop, step).value.bounds) == SliceView(c, start, stop, step).value.bounds
            ==> ViewAt(SliceView(c, start, stop, step).value, j) == Err(LengthChangedError)
  {
    var w := SliceView(c, start, stop, step).value;
    RangeSliceFixpoint(c.len, w.bounds);
    if 0 <= j < w.len && RangeSlice(c.len, w.bounds) == w.bounds {
      RangeElementsAt(w.bounds);
      NormalizedTermInBounds(w.bounds, c.len, j);
    }
  }

  /** `chain[-100:2:-1]` over a chain of length 5 reports length 2, yet both
      its items fail with `IndexError`: they are read at the chain's
      positions -1 and -2, which a chain refuses. */
  lemma ChainClampedReverse<T>(c: View<T>)
    requires c.ChainView? && c.len == 5
    ensures SliceView(c, Some(-100), Some(2), Some(-1)).Ok?
    ensures var w := SliceView(c, Some(-100), Some(2), Some(-1)).value;
            && w.bounds == Bounds(-1, 2, -1)
            && w.len == 2
            && ViewAt(w, 0) == Err(IndexError)
            && ViewAt(w, 1) == Err(IndexError)
  {
    var w := SliceView(c, Some(-100), Some(2), Some(-1)).value;
    DescendingFromBeforeFront(Sequential(Viewed(c)), -100, Some(2), -1, w, 0);
    DescendingFromBeforeFront(Sequential(Viewed(c)), -100, Some(2), -1, w, 1);
  }

  /** `SeqChain([0, 1], [2, 3, 4])`: position 2 is the first item of the
      second part; after the second list loses an item, even position 0,
      which the first list still holds, is refused. */
  method TruncatedPartScenario() returns (before: Result<Option<(nat, nat)>>, after: Result<Option<(nat, nat)>>)
    ensures before == Ok(Some((1, 0)))
    ensures after == Err(LengthChangedError)
  {
    var first := new ListObject([0, 1]);
    var second := new ListObject([2, 3, 4]);
    var parts := [Sequential(Native(first)), Sequential(Native(second))];
    assert AllSequences(parts);
    var chain := NewChain(parts);
    var c := chain.value;
    assert c.parts == Members(parts) == [Native(first), Native(second)];
    SumOfTwo(PartLengths(c.parts));
    assert c.len == 5;
    before := FindPosition(c, 2);
    ghost var lens := PartLengths(c.parts);
    assert lens[0] == 2 && lens[1] == 3;
    SumOfTwo(lens);
    OwnerUnique(lens, 2, 1);
    second.SetItems([2, 3]);
    after := FindPosition(c, 0);
    ghost var shorter := PartLengths(c.parts);
    assert shorter[0] == 2 && shorter[1] == 2;
    SumOfTwo(shorter);
  }

  lemma SumOfTwo(lens: seq<nat>)
    requires |lens| == 2
    ensures Prefix(lens, 1) == lens[0] && Sum(lens) == lens[0] + lens[1]
  {
    assert lens[..1] == [lens[0]] && lens[..1][1..] == [];
    assert Sum(lens[..1]) == lens[0];
    assert lens[1..][1..] == [];
    assert Sum(lens[1..]) == lens[1];
  }
}
