/** What a `Seq` view shows, compared with Python's own slicing of a list.

    A `Seq` over a list shows exactly the items `xs[start:stop:step]` would
    copy whenever re-slicing the recorded range leaves the normalised bounds
    alone (always for a positive step). That alone does not make slices of
    the view compose: the composed start and stop of views.py:121-122 are
    positions in the backing sequence, and `slice.indices` (views.py:100)
    reads a negative one from the end, so composition is proved for
    positive steps only. `ReversedSeqIsEmpty` and
    `DescendingUnitSliceIsEmpty` show descending views whose bounds
    re-slicing leaves alone, yet whose slices come out empty.

    Where re-slicing does change the bounds, a descending -1 is read by
    `range(lenOrig)[...]` as the last position:
    - a stop of -1 (the slice runs down to the first item) gives length 0;
    - a start of -1 (the slice starts before the first item) gives a
      positive length, read at the negative positions -1, -1 + step, ...,
      which a list counts from its end and a chain refuses, while the list
      slice is empty.
 */
module SeqProperties {
  import opened Errors
  import opened IndexMath
  import opened Views

  lemma MulStrict(a: int, b: int, k: int)
    requires 0 < k
    ensures a < b <==> a * k < b * k
  {
    if a < b {
      MulMonotone(a + 1, b, k);
    } else {
      MulMonotone(b, a, k);
    }
  }

  /** Item i of a list slice is the list's item at the i-th position of
      the normalised range. */
  lemma ListSliceAt<T>(xs: seq<T>, start: Option<int>, stop: Option<int>, step: Option<int>, i: int)
    requires step != Some(0)
    ensures ListSlice(xs, start, stop, step).Ok?
    ensures |ListSlice(xs, start, stop, step).value| == RangeLen(SliceIndices(start, stop, step, |xs|).value)
    ensures 0 <= i < RangeLen(SliceIndices(start, stop, step, |xs|).value) ==>
              && 0 <= Term(SliceIndices(start, stop, step, |xs|).value, i) < |xs|
              && ListSlice(xs, start, stop, step).value[i] == xs[Term(SliceIndices(start, stop, step, |xs|).value, i)]
  {
    var b := SliceIndices(start, stop, step, |xs|).value;
    RangeElementsAt(b);
    if 0 <= i < RangeLen(b) {
      NormalizedTermInBounds(b, |xs|, i);
    }
  }

  /** The length and the items of a `Seq` over a list agree with Python's
      list slicing, for non-negative and negative indices, and every other
      index fails with `IndexError`. */
  lemma SeqMatchesListSlice<T>(cell: ListObject<T>, start: Option<int>, stop: Option<int>, step: Option<int>, v: View<T>)
    requires NewSeq(Sequential(Native(cell)), start, stop, step) == Ok(v)
    requires RangeSlice(v.lenOrig, v.bounds) == v.bounds
    ensures ListSlice(cell.items, start, stop, step).Ok?
    ensures v.len == |ListSlice(cell.items, start, stop, step).value|
    ensures forall i :: 0 <= i < v.len ==>
              ViewAt(v, i) == Ok(ListSlice(cell.items, start, stop, step).value[i])
    ensures forall i :: 0 <= i + v.len < v.len ==>
              ViewAt(v, i) == Ok(ListSlice(cell.items, start, stop, step).value[i + v.len])
    ensures forall i :: i + v.len < 0 || i >= v.len ==> ViewAt(v, i) == Err(IndexError)
  {
    RangeElementsAt(v.bounds);
    ListSliceAt(cell.items, start, stop, step, 0);
    forall i | 0 <= i < v.len
      ensures ViewAt(v, i) == Ok(ListSlice(cell.items, start, stop, step).value[i])
    {
      ListSliceAt(cell.items, start, stop, step, i);
    }
  }

  /** With a positive step the recorded length is the length of the
      normalised range, so `SeqMatchesListSlice` applies. */
  lemma AscendingSeqMatchesListSlice<T>(cell: ListObject<T>, start: Option<int>, stop: Option<int>, step: Option<int>, v: View<T>)
    requires NewSeq(Sequential(Native(cell)), start, stop, step) == Ok(v)
    requires step.None? || step.value > 0
    ensures v.len == |ListSlice(cell.items, start, stop, step).value|
    ensures forall i :: 0 <= i < v.len ==>
              ViewAt(v, i) == Ok(ListSlice(cell.items, start, stop, step).value[i])
  {
    RangeSliceFixpoint(v.lenOrig, v.bounds);
    SeqMatchesListSlice(cell, start, stop, step, v);
  }

  /** A descending `Seq` without a stop is empty, while the list slice it
      stands for is non-empty whenever its start is a position. The normalised stop -1 is read by
      `range(lenOrig)[...]` as the last position. */
  lemma DescendingToFrontIsEmpty<T>(o: Operand<T>, start: Option<int>, step: int, v: View<T>)
    requires step < 0 && NewSeq(o, start, None, Some(step)) == Ok(v)
    ensures v.bounds.stop == -1 && v.len == 0
    ensures o.s.Native? ==> |ListSlice(o.s.cell.items, start, None, Some(step)).value| == RangeLen(v.bounds)
    ensures v.bounds.start >= 0 ==> RangeLen(v.bounds) > 0
  {
    RangeSliceFixpoint(v.lenOrig, v.bounds);
    RangeElementsAt(RangeSlice(v.lenOrig, v.bounds));
    RangeElementsAt(v.bounds);
  }

  /** `Seq(list(range(10)), step=-1)`: ten items reversed, length 0. */
  lemma FullReverseIsEmpty<T>(cell: ListObject<T>)
    requires |cell.items| == 10
    ensures NewSeq(Sequential(Native(cell)), None, None, Some(-1)).Ok?
    ensures NewSeq(Sequential(Native(cell)), None, None, Some(-1)).value.len == 0
    ensures |ListSlice(cell.items, None, None, Some(-1)).value| == 10
  {
    DescendingToFrontIsEmpty(Sequential(Native(cell)), None, -1, NewSeq(Sequential(Native(cell)), None, None, Some(-1)).value);
  }

  /** Composition breaks once a composed bound is negative: the composed
      start and stop are positions of the backing sequence, and the new
      `Seq` hands them to `slice.indices`, which counts a negative one from
      the end. `Seq([0, 1, 2])[::-1]` composes to (2, -1, -1), normalised
      to (2, 2, -1), so the reversed view is empty while `xs[::-1]` has
      three items. */
  lemma ReversedSeqIsEmpty(cell: ListObject<int>)
    requires cell.items == [0, 1, 2]
    ensures NewSeq(Sequential(Native(cell)), None, None, None).Ok?
    ensures var v := NewSeq(Sequential(Native(cell)), None, None, None).value;
            && v.len == 3
            && SliceView(v, None, None, Some(-1)).Ok?
            && SliceView(v, None, None, Some(-1)).value.bounds == Bounds(2, 2, -1)
            && SliceView(v, None, None, Some(-1)).value.len == 0
    ensures |ListSlice(cell.items, None, None, Some(-1)).value| == 3
  {
    var v := NewSeq(Sequential(Native(cell)), None, None, None).value;
    assert SliceIndices(None, None, None, 3) == Ok(Bounds(0, 3, 1));
    assert RangeSlice(3, Bounds(0, 3, 1)) == Bounds(0, 3, 1);
    assert v == SeqView(Native(cell), 3, Bounds(0, 3, 1), 3);
    assert SliceIndices(None, None, Some(-1), 3) == Ok(Bounds(2, -1, -1));
    assert SliceIndices(Some(2), Some(-1), Some(-1), 3) == Ok(Bounds(2, 2, -1));
    assert RangeSlice(3, Bounds(2, 2, -1)) == Bounds(2, 2, -1);
    ListSliceAt(cell.items, None, None, Some(-1), 0);
  }

  /** For a descending view even an ascending one-item slice can compose to
      a negative stop: `Seq(list(range(10)), 8, 0, -3)` shows 8, 5, 2, yet
      `v[2:3]` composes to (2, -1, -3), normalised to (2, 9, -3), and is
      empty, so `v[2] == v[2:3][0]` fails. */
  lemma DescendingUnitSliceIsEmpty(cell: ListObject<int>)
    requires cell.items == [0, 1, 2, 3, 4, 5, 6, 7, 8, 9]
    ensures NewSeq(Sequential(Native(cell)), Some(8), Some(0), Some(-3)).Ok?
    ensures var v := NewSeq(Sequential(Native(cell)), Some(8), Some(0), Some(-3)).value;
            && v.len == 3
            && ViewAt(v, 2) == Ok(2)
            && SliceView(v, Some(2), Some(3), None).Ok?
            && SliceView(v, Some(2), Some(3), None).value.bounds == Bounds(2, 9, -3)
            && SliceView(v, Some(2), Some(3), None).value.len == 0
  {
    var v := NewSeq(Sequential(Native(cell)), Some(8), Some(0), Some(-3)).value;
    assert SliceIndices(Some(8), Some(0), Some(-3), 10) == Ok(Bounds(8, 0, -3));
    assert RangeSlice(10, Bounds(8, 0, -3)) == Bounds(8, 0, -3);
    assert v == SeqView(Native(cell), 10, Bounds(8, 0, -3), 3);
    assert ViewAt(v, 2) == ItemAt(Native(cell), 2) == Ok(2);
    assert SliceIndices(Some(2), Some(3), None, 3) == Ok(Bounds(2, 3, 1));
    assert SliceIndices(Some(2), Some(-1), Some(-3), 10) == Ok(Bounds(2, 9, -3));
    assert RangeSlice(10, Bounds(2, 9, -3)) == Bounds(2, 9, -3);
  }

  /** A descending `Seq` whose start lies before the first item has the
      normalised start -1, so the list slice it stands for is empty; but
      `range(lenOrig)[...]` reads that -1 as `lenOrig - 1`, so its length
      counts from the last position down to the stop, and its items are
      read at negative positions of the backing sequence. */
  lemma DescendingFromBeforeFront<T>(o: Operand<T>, start: int, stop: Option<int>, step: int, v: View<T>, j: int)
    requires step < 0 && NewSeq(o, Some(start), stop, Some(step)) == Ok(v)
    requires start + v.lenOrig < 0
    ensures v.bounds.start == -1 && RangeLen(v.bounds) == 0
    ensures o.s.Native? ==> ListSlice(o.s.cell.items, Some(start), stop, Some(step)) == Ok([])
    ensures 0 <= v.bounds.stop ==> v.len == RangeLen(Bounds(v.lenOrig - 1, v.bounds.stop, step))
    ensures 0 <= j < v.len ==> Term(v.bounds, j) < 0 && ViewAt(v, j) == ItemAt(v.base, Term(v.bounds, j))
  {
    assert v.bounds.start == -1 && v.bounds.step == step;
    if 0 <= v.bounds.stop {
      assert RangeSlice(v.lenOrig, v.bounds) == Bounds(v.lenOrig - 1, v.bounds.stop, step);
    }
    if o.s.Native? {
      ListSliceAt(o.s.cell.items, Some(start), stop, Some(step), 0);
    }
    if 0 <= j {
      MulMonotone(0, j, -step);
      assert j * step == -(j * -step);
    }
  }

  /** `Seq(list(range(10)), -100, 5, -1)`: `xs[-100:5:-1]` is empty, yet the
      view has length 4 and shows 9, 8, 7, 6 from positions -1 to -4. */
  lemma ClampedReverseExample(cell: ListObject<int>)
    requires cell.items == [0, 1, 2, 3, 4, 5, 6, 7, 8, 9]
    ensures NewSeq(Sequential(Native(cell)), Some(-100), Some(5), Some(-1)).Ok?
    ensures var v := NewSeq(Sequential(Native(cell)), Some(-100), Some(5), Some(-1)).value;
            && v.bounds == Bounds(-1, 5, -1)
            && v.len == 4
            && ViewAt(v, 0) == Ok(9)
            && ViewAt(v, 3) == Ok(6)
    ensures ListSlice(cell.items, Some(-100), Some(5), Some(-1)) == Ok([])
  {
    var v := NewSeq(Sequential(Native(cell)), Some(-100), Some(5), Some(-1)).value;
    DescendingFromBeforeFront(Sequential(Native(cell)), -100, Some(5), -1, v, 0);
    DescendingFromBeforeFront(Sequential(Native(cell)), -100, Some(5), -1, v, 3);
  }

  /** `len(seq_view)` bounds the indices it answers: an index that succeeds
      lies in [-len, len). Over a list that kept its length, with bounds
      that re-slicing leaves alone, every index in that range succeeds. */
  lemma SeqLenCountsIndices<T>(v: View<T>, i: int)
    requires v.SeqView?
    ensures ViewAt(v, i).Ok? ==> 0 <= i + Length(Viewed(v)) && i < Length(Viewed(v))
    ensures && v.base.Native? && Length(v.base) == v.lenOrig
            && Normalized(v.bounds, v.lenOrig) && v.len == RangeLen(v.bounds)
            && 0 <= i + Length(Viewed(v)) && i < Length(Viewed(v))
            ==> ViewAt(v, i).Ok?
  {
    if v.base.Native? && Length(v.base) == v.lenOrig && Normalized(v.bounds, v.lenOrig) && v.len == RangeLen(v.bounds)
       && 0 <= i + v.len && i < v.len {
      var j := if i < 0 then i + v.len else i;
      NormalizedTermInBounds(v.bounds, v.lenOrig, j);
    }
  }

  /** Non-negative bounds with a positive step are only clamped to n. */
  lemma ClampNonNegative(x: int, y: int, k: int, n: nat)
    requires 0 <= x && 0 <= y && 0 < k
    ensures SliceIndices(Some(x), Some(y), Some(k), n).value.start == (if x < n then x else n)
    ensures SliceIndices(Some(x), Some(y), Some(k), n).value.stop == (if y < n then y else n)
  {
  }

  /** The composed bounds are clamped into [0, n]. */
  lemma ComposedClamp(b: Bounds, n: nat, idx: Bounds, wb: Bounds)
    requires 0 <= b.start && 0 < b.step && 0 <= idx.start && 0 <= idx.stop && 0 < idx.step
    requires wb == SliceIndices(Some(ComposedStart(b, idx)), Some(ComposedStop(b, idx)), Some(b.step * idx.step), n).value
    ensures 0 <= ComposedStart(b, idx) && ComposedStop(b, idx) == b.start + idx.stop * b.step
    ensures wb.start == (if ComposedStart(b, idx) < n then ComposedStart(b, idx) else n)
    ensures wb.stop == (if ComposedStop(b, idx) < n then ComposedStop(b, idx) else n)
  {
    MulStrict(0, idx.step, b.step);
    MulMonotone(0, idx.start, b.step);
    MulMonotone(0, idx.stop, b.step);
    ComposedStopIdentity(b, idx);
    ClampNonNegative(ComposedStart(b, idx), ComposedStop(b, idx), b.step * idx.step, n);
  }

  lemma ComposedStopIdentity(b: Bounds, idx: Bounds)
    ensures ComposedStop(b, idx) == b.start + idx.stop * b.step
  {
    assert b.step * (idx.stop - idx.start) == idx.stop * b.step - idx.start * b.step;
  }

  lemma ComposedTermIdentity(b: Bounds, idx: Bounds, j: int)
    ensures ComposedStart(b, idx) + j * (b.step * idx.step) == Term(b, Term(idx, j))
  {
    assert j * (b.step * idx.step) == (j * idx.step) * b.step;
    assert (idx.start + j * idx.step) * b.step == idx.start * b.step + (j * idx.step) * b.step;
  }

  /** The arithmetic of composing two ascending slices: the j-th position
      of the composed slice lies before its stop exactly when the j-th
      position of the outer slice lies before the outer stop, and it is
      then the position the inner bounds give that outer position. */
  lemma ComposedTermAscending(b: Bounds, n: nat, idx: Bounds, wb: Bounds, j: nat)
    requires Normalized(b, n) && b.step > 0
    requires Normalized(idx, RangeLen(b)) && idx.step > 0
    requires wb == SliceIndices(Some(ComposedStart(b, idx)), Some(ComposedStop(b, idx)), Some(b.step * idx.step), n).value
    ensures j < RangeLen(idx) <==> Before(wb, Term(wb, j))
    ensures j < RangeLen(idx) ==> 0 <= Term(idx, j) < RangeLen(b) && Term(wb, j) == Term(b, Term(idx, j))
  {
    var m := Term(idx, j);
    ComposedClamp(b, n, idx, wb);
    ComposedTermIdentity(b, idx, j);
    MulStrict(0, idx.step, b.step);
    MulMonotone(0, j, wb.step);
    MulMonotone(0, j, idx.step);
    RangeLenCounts(idx, j);
    MulStrict(m, idx.stop, b.step);
    if m < idx.stop {
      RangeLenCounts(b, m);
      MulMonotone(idx.start, m, b.step);
      assert ComposedStart(b, idx) < n;
    }
  }

  /** Slicing an ascending `Seq` by an ascending slice composes: the new
      view has the length of the outer slice taken of the old view, and
      its j-th item is the old view's item at the outer slice's j-th
      position. */
  lemma SliceOfSliceAscending<T>(base: Sequence<T>, a1: Option<int>, b1: Option<int>, c1: Option<int>,
                                 a2: Option<int>, b2: Option<int>, c2: Option<int>, v: View<T>)
    requires NewSeq(Sequential(base), a1, b1, c1) == Ok(v)
    requires c1.None? || c1.value > 0
    requires c2.None? || c2.value > 0
    ensures SliceView(v, a2, b2, c2).Ok?
    ensures SliceView(v, a2, b2, c2).value.len == RangeLen(SliceIndices(a2, b2, c2, v.len).value)
    ensures forall j :: 0 <= j < SliceView(v, a2, b2, c2).value.len ==>
              && 0 <= Term(SliceIndices(a2, b2, c2, v.len).value, j) < v.len
              && ViewAt(SliceView(v, a2, b2, c2).value, j) == ViewAt(v, Term(SliceIndices(a2, b2, c2, v.len).value, j))
  {
    RangeSliceFixpoint(v.lenOrig, v.bounds);
    RangeElementsAt(v.bounds);
    var idx := SliceIndices(a2, b2, c2, v.len).value;
    var w := SliceView(v, a2, b2, c2).value;
    SliceViewComposes(v, a2, b2, c2);
    ComposedLength(v.bounds, v.lenOrig, idx, w);
    forall j | 0 <= j < w.len
      ensures 0 <= Term(idx, j) < v.len && ViewAt(w, j) == ViewAt(v, Term(idx, j))
    {
      ComposedItem(v, idx, w, j);
    }
  }

  /** Slicing a fresh ascending `Seq` builds the `Seq` of the composed bounds. */
  lemma SliceViewComposes<T>(v: View<T>, a2: Option<int>, b2: Option<int>, c2: Option<int>)
    requires v.SeqView? && Length(v.base) == v.lenOrig && v.bounds.step > 0
    requires c2.None? || c2.value > 0
    ensures SliceView(v, a2, b2, c2).Ok?
    ensures var idx := SliceIndices(a2, b2, c2, v.len).value;
            && idx.step > 0
            && SliceView(v, a2, b2, c2) ==
                 NewSeq(Sequential(v.base), Some(ComposedStart(v.bounds, idx)), Some(ComposedStop(v.bounds, idx)),
                        Some(v.bounds.step * idx.step))
  {
    var idx := SliceIndices(a2, b2, c2, v.len).value;
    MulStrict(0, idx.step, v.bounds.step);
  }

  /** Item j of the composed view is the old view's item at the outer
      slice's j-th position. */
  lemma ComposedItem<T>(v: View<T>, idx: Bounds, w: View<T>, j: int)
    requires v.SeqView? && Length(v.base) == v.lenOrig
    requires Normalized(v.bounds, v.lenOrig) && v.bounds.step > 0 && v.len == RangeLen(v.bounds)
    requires Normalized(idx, v.len) && idx.step > 0
    requires w.SeqView? && w.base == v.base && w.lenOrig == v.lenOrig
    requires w.bounds == SliceIndices(Some(ComposedStart(v.bounds, idx)), Some(ComposedStop(v.bounds, idx)),
                                      Some(v.bounds.step * idx.step), v.lenOrig).value
    requires w.len == RangeLen(idx) && 0 <= j < w.len
    ensures 0 <= Term(idx, j) < v.len && ViewAt(w, j) == ViewAt(v, Term(idx, j))
  {
    ComposedTermAscending(v.bounds, v.lenOrig, idx, w.bounds, j);
  }

  /** The length of the composed view is the length of the outer slice. */
  lemma ComposedLength<T>(b: Bounds, n: nat, idx: Bounds, w: View<T>)
    requires Normalized(b, n) && b.step > 0
    requires Normalized(idx, RangeLen(b)) && idx.step > 0
    requires w.SeqView? && w.lenOrig == n
    requires w.bounds == SliceIndices(Some(ComposedStart(b, idx)), Some(ComposedStop(b, idx)), Some(b.step * idx.step), n).value
    requires w.len == |RangeElements(RangeSlice(n, w.bounds))|
    ensures w.len == RangeLen(idx)
  {
    var wb := w.bounds;
    RangeSliceFixpoint(n, wb);
    RangeElementsAt(wb);
    forall j: nat
      ensures j < RangeLen(idx) <==> Before(wb, Term(wb, j))
    {
      ComposedTermAscending(b, n, idx, wb, j);
    }
    RangeLenUnique(wb, RangeLen(idx));
  }

  /** Re-slicing is associative: `Seq(xs, s1)[s2]` shows `xs[s1][s2]`
      item for item, for ascending `s1` and `s2`. */
  lemma NestedListSliceAscending<T>(cell: ListObject<T>, a1: Option<int>, b1: Option<int>, c1: Option<int>,
                                    a2: Option<int>, b2: Option<int>, c2: Option<int>, v: View<T>)
    requires NewSeq(Sequential(Native(cell)), a1, b1, c1) == Ok(v)
    requires c1.None? || c1.value > 0
    requires c2.None? || c2.value > 0
    ensures ListSlice(cell.items, a1, b1, c1).Ok?
    ensures ListSlice(ListSlice(cell.items, a1, b1, c1).value, a2, b2, c2).Ok?
    ensures SliceView(v, a2, b2, c2).Ok?
    ensures SliceView(v, a2, b2, c2).value.len == |ListSlice(ListSlice(cell.items, a1, b1, c1).value, a2, b2, c2).value|
    ensures forall j :: 0 <= j < SliceView(v, a2, b2, c2).value.len ==>
              ViewAt(SliceView(v, a2, b2, c2).value, j) == Ok(ListSlice(ListSlice(cell.items, a1, b1, c1).value, a2, b2, c2).value[j])
  {
    AscendingSeqMatchesListSlice(cell, a1, b1, c1, v);
    SliceOfSliceAscending(Native(cell), a1, b1, c1, a2, b2, c2, v);
    var inner := ListSlice(cell.items, a1, b1, c1).value;
    var w := SliceView(v, a2, b2, c2).value;
    ListSliceAt(inner, a2, b2, c2, 0);
    forall j | 0 <= j < w.len
      ensures ViewAt(w, j) == Ok(ListSlice(inner, a2, b2, c2).value[j])
    {
      ListSliceAt(inner, a2, b2, c2, j);
    }
  }

  /** Indexing agrees with a one-item slice: `v[i] == v[i:i+1][0]`. */
  lemma IndexAgreesWithUnitSlice<T>(base: Sequence<T>, a1: Option<int>, b1: Option<int>, c1: Option<int>, v: View<T>, i: int)
    requires NewSeq(Sequential(base), a1, b1, c1) == Ok(v)
    requires c1.None? || c1.value > 0
    requires 0 <= i < v.len
    ensures SliceView(v, Some(i), Some(i + 1), None).Ok?
    ensures SliceView(v, Some(i), Some(i + 1), None).value.len == 1
    ensures ViewAt(SliceView(v, Some(i), Some(i + 1), None).value, 0) == ViewAt(v, i)
  {
    var idx := SliceIndices(Some(i), Some(i + 1), None, v.len).value;
    assert idx == Bounds(i, i + 1, 1);
    SliceOfSliceAscending(base, a1, b1, c1, Some(i), Some(i + 1), None, v);
    assert RangeLen(idx) == 1 && Term(idx, 0) == i;
  }

  /** `Seq(list(range(10)), 1, 8, 2)[1:3]` has the bounds (3, 7, 2) and
      shows 3 and 5. */
  lemma ComposedSliceExample(cell: ListObject<int>)
    requires cell.items == [0, 1, 2, 3, 4, 5, 6, 7, 8, 9]
    ensures NewSeq(Sequential(Native(cell)), Some(1), Some(8), Some(2)).Ok?
    ensures var v := NewSeq(Sequential(Native(cell)), Some(1), Some(8), Some(2)).value;
            && v.len == 4
            && SliceView(v, Some(1), Some(3), None).Ok?
            && SliceView(v, Some(1), Some(3), None).value.bounds == Bounds(3, 7, 2)
            && SliceView(v, Some(1), Some(3), None).value.len == 2
            && ViewAt(SliceView(v, Some(1), Some(3), None).value, 0) == Ok(3)
            && ViewAt(SliceView(v, Some(1), Some(3), None).value, 1) == Ok(5)
  {
    ExampleSeq(cell, 1, 8, Bounds(1, 8, 2), 4);
    ExampleSeq(cell, 3, 7, Bounds(3, 7, 2), 2);
    var v := SeqView(Native(cell), 10, Bounds(1, 8, 2), 4);
    var w := SeqView(Native(cell), 10, Bounds(3, 7, 2), 2);
    assert SliceIndices(Some(1), Some(3), None, 4) == Ok(Bounds(1, 3, 1));
    assert SliceView(v, Some(1), Some(3), None) == Ok(w);
    assert ViewAt(w, 0) == ItemAt(Native(cell), 3) == Ok(3);
    assert ViewAt(w, 1) == ItemAt(Native(cell), 5) == Ok(5);
  }

  /** `Seq(list(range(10)), start, stop, 2)` for the bounds the example uses. */
  lemma ExampleSeq(cell: ListObject<int>, start: int, stop: int, b: Bounds, len: nat)
    requires |cell.items| == 10
    requires (start, stop, b, len) == (1, 8, Bounds(1, 8, 2), 4) || (start, stop, b, len) == (3, 7, Bounds(3, 7, 2), 2)
    ensures NewSeq(Sequential(Native(cell)), Some(start), Some(stop), Some(2)) == Ok(SeqView(Native(cell), 10, b, len))
  {
    assert SliceIndices(Some(start), Some(stop), Some(2), 10) == Ok(b);
    assert RangeSlice(10, b) == b;
  }

  /** The view of `StaleSeqScenario`, built over the list while it still has five items. */
  lemma StaleExampleSeq(cell: ListObject<int>)
    requires cell.items == [0, 1, 2, 3, 4]
    ensures NewSeq(Sequential(Native(cell)), None, None, Some(2)) == Ok(SeqView(Native(cell), 5, Bounds(0, 5, 2), 3))
    ensures ViewAt(SeqView(Native(cell), 5, Bounds(0, 5, 2), 3), 0) == Ok(0)
  {
    assert SliceIndices(None, None, Some(2), 5) == Ok(Bounds(0, 5, 2));
    assert RangeSlice(5, Bounds(0, 5, 2)) == Bounds(0, 5, 2);
    RangeElementsAt(Bounds(0, 5, 2));
    assert ViewAt(SeqView(Native(cell), 5, Bounds(0, 5, 2), 3), 0) == ItemAt(Native(cell), 0);
  }

  /** `Seq([0, 1, 2, 3, 4], step=2)` has length 3 and shows 0, 2, 4; once
      the list is cut to two items it still reports length 3, and both an
      index and a slice fail with `LengthChangedError`. */
  method StaleSeqScenario() returns (lenBefore: nat, first: Result<int>, lenAfter: nat, afterIndex: Result<Item<int>>, afterSlice: Result<Item<int>>)
    ensures lenBefore == 3 && first == Ok(0)
    ensures lenAfter == 3
    ensures afterIndex == Err(LengthChangedError) && afterSlice == Err(LengthChangedError)
  {
    var cell := new ListObject([0, 1, 2, 3, 4]);
    StaleExampleSeq(cell);
    var made := NewSeq(Sequential(Native(cell)), None, None, Some(2));
    var v := made.value;
    lenBefore := Length(Viewed(v));
    first := ViewAt(v, 0);
    cell.SetItems([0, 1]);
    lenAfter := Length(Viewed(v));
    afterIndex := GetItem(v, Index(0));
    afterSlice := GetItem(v, Slice(Some(1), None, None));
  }
}
