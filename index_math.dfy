/** Index arithmetic of Python slices and ranges, on which both views rest.

    `SliceIndices` is `slice(start, stop, step).indices(length)`, `RangeLen`
    is `len(range(start, stop, step))` and `RangeSlice` is the bounds of
    `range(length)[slice(start, stop, step)]`. `RangeElements` enumerates a
    progression one term at a time: the independent reference for the
    closed form `RangeLen`. `ListSlice` is Python's slicing of a list, built
    on the same `SliceIndices`; what stands behind both slicings is the
    case-by-case contract of `SliceIndices`.
 */
module IndexMath {
  import opened Errors

  /** A `(start, stop, step)` triple as `slice.indices` returns it. */
  datatype Bounds = Bounds(start: int, stop: int, step: int)

  /** The bounds `slice.indices(length)` can return: a non-zero step, and
      both bounds in [0, length] when ascending, in [-1, length - 1] when
      descending. */
  predicate Normalized(b: Bounds, length: nat)
  {
    && b.step != 0
    && (b.step > 0 ==> 0 <= b.start <= length && 0 <= b.stop <= length)
    && (b.step < 0 ==> -1 <= b.start <= length - 1 && -1 <= b.stop <= length - 1)
  }

  /** A given bound that names an existing position, from the front or from the end. */
  predicate NamesPosition(bound: Option<int>, length: nat)
  {
    bound.Some? && 0 <= bound.value + length && bound.value < length
  }

  /** The position a bound in [-length, length) names. */
  function FromEnd(x: int, length: nat): int
  {
    if x < 0 then x + length else x
  }

  /** One bound as `slice.indices` treats it: `None` takes the default, a
      negative bound counts from the end, and the result is clamped to
      [lower, upper]. */
  function AdjustBound(bound: Option<int>, length: nat, lower: int, upper: int, default: int): int
  {
    match bound
    case None => default
    case Some(x) =>
      if x < 0 then (if x + length < lower then lower else x + length)
      else if x > upper then upper else x
  }

  /** `slice(start, stop, step).indices(length)`. */
  function SliceIndices(start: Option<int>, stop: Option<int>, step: Option<int>, length: nat): (r: Result<Bounds>)
    ensures r.Err? <==> step == Some(0)
    ensures r.Err? ==> r.error == ValueError
    ensures r.Ok? ==> Normalized(r.value, length)
    ensures r.Ok? ==> r.value.step == (if step.Some? then step.value else 1)
    // missing bounds select the whole sequence in the direction of the step
    ensures r.Ok? && start.None? ==> r.value.start == (if r.value.step > 0 then 0 else length - 1)
    ensures r.Ok? && stop.None? ==> r.value.stop == (if r.value.step > 0 then length else -1)
    // a bound naming a position keeps it, counting negative bounds from the end
    ensures r.Ok? && NamesPosition(start, length) ==> r.value.start == FromEnd(start.value, length)
    ensures r.Ok? && NamesPosition(stop, length) ==> r.value.stop == FromEnd(stop.value, length)
    // bounds beyond either end are clamped
    ensures r.Ok? && start.Some? && start.value >= length ==>
              r.value.start == (if r.value.step > 0 then length else length - 1)
    ensures r.Ok? && start.Some? && start.value + length < 0 ==> r.value.start == (if r.value.step > 0 then 0 else -1)
    ensures r.Ok? && stop.Some? && stop.value >= length ==>
              r.value.stop == (if r.value.step > 0 then length else length - 1)
    ensures r.Ok? && stop.Some? && stop.value + length < 0 ==> r.value.stop == (if r.value.step > 0 then 0 else -1)
  {
    var k := if step.Some? then step.value else 1;
    if k == 0 then Err(ValueError)
    else
      var lower := if k < 0 then -1 else 0;
      var upper := if k < 0 then length - 1 else length;
      Ok(Bounds(AdjustBound(start, length, lower, upper, if k < 0 then upper else lower),
                AdjustBound(stop, length, lower, upper, if k < 0 then lower else upper),
                k))
  }

  /** `len(range(b.start, b.stop, b.step))`, by CPython's closed form. */
  function RangeLen(b: Bounds): nat
    requires b.step != 0
  {
    if b.step > 0 then
      (if b.start < b.stop then (b.stop - b.start - 1) / b.step + 1 else 0)
    else
      (if b.start > b.stop then (b.start - b.stop - 1) / (-b.step) + 1 else 0)
  }

  /** The j-th term of the progression `b.start, b.start + b.step, ...`. */
  function Term(b: Bounds, j: int): int
  {
    b.start + j * b.step
  }

  /** `x` lies strictly before `b.stop` in the direction of `b.step`. */
  predicate Before(b: Bounds, x: int)
  {
    if b.step > 0 then x < b.stop else x > b.stop
  }

  /** `range(length)[slice(b.start, b.stop, b.step)]`: slicing a range
      normalises the given bounds once more against the range's length. */
  function RangeSlice(length: nat, b: Bounds): (r: Bounds)
    requires b.step != 0
    ensures Normalized(r, length) && r.step == b.step
  {
    SliceIndices(Some(b.start), Some(b.stop), Some(b.step), length).value
  }

  /** The progression enumerated term by term: the reference for `RangeLen`. */
  ghost function RangeElements(b: Bounds): seq<int>
    requires b.step != 0
    decreases if b.step > 0 then b.stop - b.start else b.start - b.stop
  {
    if Before(b, b.start) then [b.start] + RangeElements(b.(start := b.start + b.step)) else []
  }

  /** `xs[start:stop:step]` for a Python list `xs`: the items at the
      positions `range(*slice(start, stop, step).indices(len(xs)))`. */
  ghost function ListSlice<T>(xs: seq<T>, start: Option<int>, stop: Option<int>, step: Option<int>): Result<seq<T>>
  {
    match SliceIndices(start, stop, step, |xs|)
    case Err(e) => Err(e)
    case Ok(b) =>
      var positions := RangeElements(b);
      RangeElementsInBounds(b, |xs|);
      Ok(seq(|positions|, k requires 0 <= k < |positions| => xs[positions[k]]))
  }

  lemma MulMonotone(a: int, b: int, d: int)
    requires a <= b && 0 <= d
    ensures a * d <= b * d
  {
    assert b * d - a * d == (b - a) * d;
  }

  lemma FloorDivBound(x: int, d: int, j: int)
    requires 0 <= x && 0 < d
    ensures j <= x / d <==> j * d <= x
  {
    var q := x / d;
    assert q * d <= x < q * d + d;
    if j <= q {
      MulMonotone(j, q, d);
    } else {
      MulMonotone(q + 1, j, d);
    }
  }

  /** `RangeLen(b)` counts exactly the leading terms that lie before the
      stop: the j-th term is counted if and only if it is before the stop. */
  lemma RangeLenCounts(b: Bounds, j: nat)
    requires b.step != 0
    ensures j < RangeLen(b) <==> Before(b, Term(b, j))
  {
    if b.step > 0 {
      MulMonotone(0, j, b.step);
      if b.start < b.stop {
        FloorDivBound(b.stop - b.start - 1, b.step, j);
      }
    } else {
      var d := -b.step;
      assert j * b.step == -(j * d);
      MulMonotone(0, j, d);
      if b.start > b.stop {
        FloorDivBound(b.start - b.stop - 1, d, j);
      }
    }
  }

  /** A count with the property of `RangeLenCounts` is `RangeLen`. */
  lemma RangeLenUnique(b: Bounds, n: nat)
    requires b.step != 0
    requires forall j: nat :: j < n <==> Before(b, Term(b, j))
    ensures RangeLen(b) == n
  {
    RangeLenCounts(b, RangeLen(b));
    RangeLenCounts(b, n);
  }

  /** The closed form agrees with the enumeration: `RangeLen(b)` terms, the
      j-th being `b.start + j * b.step`. */
  lemma {:induction false} RangeElementsAt(b: Bounds)
    requires b.step != 0
    ensures |RangeElements(b)| == RangeLen(b)
    ensures forall j :: 0 <= j < |RangeElements(b)| ==> RangeElements(b)[j] == Term(b, j)
    decreases if b.step > 0 then b.stop - b.start else b.start - b.stop
  {
    var next := b.(start := b.start + b.step);
    if Before(b, b.start) {
      RangeElementsAt(next);
      forall j: nat
        ensures j < RangeLen(next) + 1 <==> Before(b, Term(b, j))
      {
        if j > 0 {
          RangeLenCounts(next, j - 1);
          assert Term(next, j - 1) == Term(b, j) by {
            assert (j - 1) * b.step + b.step == j * b.step;
          }
        }
      }
      RangeLenUnique(b, RangeLen(next) + 1);
      forall j | 0 <= j < |RangeElements(b)|
        ensures RangeElements(b)[j] == Term(b, j)
      {
        if j > 0 {
          assert RangeElements(b)[j] == RangeElements(next)[j - 1];
          assert (j - 1) * b.step + b.step == j * b.step;
        }
      }
    } else {
      RangeLenCounts(b, 0);
    }
  }

  /** Every term of a normalised progression is a position of the sequence. */
  lemma NormalizedTermInBounds(b: Bounds, length: nat, j: nat)
    requires Normalized(b, length) && j < RangeLen(b)
    ensures 0 <= Term(b, j) < length
  {
    RangeLenCounts(b, j);
    if b.step > 0 {
      MulMonotone(0, j, b.step);
    } else {
      MulMonotone(0, j, -b.step);
      assert j * b.step == -(j * -b.step);
    }
  }

  lemma RangeElementsInBounds(b: Bounds, length: nat)
    requires Normalized(b, length)
    ensures forall k :: 0 <= k < |RangeElements(b)| ==> 0 <= RangeElements(b)[k] < length
  {
    RangeElementsAt(b);
    forall k | 0 <= k < |RangeElements(b)|
      ensures 0 <= RangeElements(b)[k] < length
    {
      NormalizedTermInBounds(b, length, k);
    }
  }

  /** Re-slicing a range by already normalised bounds changes them exactly
      when the step is negative, the range is non-empty and a bound is -1:
      that -1 is then read from the end, as `length - 1`. */
  lemma RangeSliceFixpoint(length: nat, b: Bounds)
    requires Normalized(b, length)
    ensures RangeSlice(length, b) == b <==> (b.step > 0 || length == 0 || (b.start >= 0 && b.stop >= 0))
    ensures b.step < 0 && b.stop == -1 ==> RangeSlice(length, b).stop == length - 1
  {
  }

  /** `range(length)[s]` lists exactly the items of `range(length)` that the
      slice `s` selects, in order. Both sides normalise `s` by
      `SliceIndices`; the content is that `range(length)` enumerates
      0, ..., length - 1, so the positions a slice selects are its items. */
  lemma RangeSliceSelects(length: nat, b: Bounds)
    requires b.step != 0
    ensures ListSlice(RangeElements(Bounds(0, length, 1)), Some(b.start), Some(b.stop), Some(b.step)).Ok?
    ensures RangeElements(RangeSlice(length, b)) ==
            ListSlice(RangeElements(Bounds(0, length, 1)), Some(b.start), Some(b.stop), Some(b.step)).value
  {
    var all := Bounds(0, length, 1);
    RangeElementsAt(all);
    var xs := RangeElements(all);
    assert |xs| == length;
    var r := RangeSlice(length, b);
    var positions := RangeElements(r);
    RangeElementsInBounds(r, length);
    var selected := ListSlice(xs, Some(b.start), Some(b.stop), Some(b.step)).value;
    assert |selected| == |positions|;
    forall k | 0 <= k < |positions|
      ensures selected[k] == positions[k]
    {
      assert xs[positions[k]] == Term(all, positions[k]);
    }
  }
}
