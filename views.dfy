/** The view algebra of `views.py`: `Seq`, a windowed and strided view over
    one sequence, and `SeqChain`, a concatenation view over several.

    A view never changes once built, so both are datatype values. What can
    change is a native sequence they read from (a Python list, say): that is
    the class `ListObject`, whose contents another part of the program may
    replace. The functions that read through views therefore read the set of
    `ListObject`s a view reaches, its `Footprint`.
 */
module Views {
  import opened Errors
  import opened IndexMath
  import opened PrefixSums

  /** A native sequence the views read from but do not own. */
  class ListObject<T> {
    var items: seq<T>

    constructor (items: seq<T>)
      ensures this.items == items
    {
      this.items := items;
    }

    /** Another part of the program replaces the contents, possibly
        changing the length. */
    method SetItems(s: seq<T>)
      modifies this
      ensures items == s
    {
      items := s;
    }
  }

  /** Something with a length and integer indexing: a native sequence or a view. */
  datatype Sequence<T> = Native(cell: ListObject<T>) | Viewed(view: View<T>)

  /** `Seq` keeps its backing sequence, the length that sequence had when
      the view was built (`lenOrig`), the normalised bounds and its own
      length; `SeqChain` keeps its parts and the sum of their lengths at
      construction. */
  datatype View<T> =
    | SeqView(base: Sequence<T>, lenOrig: nat, bounds: Bounds, len: nat)
    | ChainView(parts: seq<Sequence<T>>, len: nat)

  /** An object offered to a constructor. The source accepts any object
      whose type has `__getitem__` and `__len__`; here that test is the tag. */
  datatype Operand<T> = Sequential(s: Sequence<T>) | NonSequential

  /** The subscripts a view distinguishes: an integer (or an object with
      `__index__`), a slice, a tuple, and anything else. */
  datatype Subscript =
    | Index(i: int)
    | Slice(start: Option<int>, stop: Option<int>, step: Option<int>)
    | Tuple
    | NotAnIndex

  /** What a subscript returns: an element for an index, a view for a slice. */
  datatype Item<T> = Element(x: T) | Subview(view: View<T>)

  /** `issequence(obj)`. */
  predicate IsSequence<T>(o: Operand<T>)
  {
    o.Sequential?
  }

  function Footprint<T>(s: Sequence<T>): set<object>
    decreases s
  {
    match s
    case Native(cell) => {cell}
    case Viewed(v) => ViewFootprint(v)
  }

  function ViewFootprint<T>(v: View<T>): set<object>
    decreases v
  {
    match v
    case SeqView(base, _, _, _) => Footprint(base)
    case ChainView(parts, _) => PartsFootprint(parts)
  }

  function PartsFootprint<T>(parts: seq<Sequence<T>>): (r: set<object>)
    ensures forall k :: 0 <= k < |parts| ==> Footprint(parts[k]) <= r
    decreases parts
  {
    set k, o | 0 <= k < |parts| && o in Footprint(parts[k]) :: o
  }

  function OperandFootprint<T>(o: Operand<T>): set<object>
  {
    if o.Sequential? then Footprint(o.s) else {}
  }

  /** `len(s)`: the current length of a native sequence; the length a view
      recorded when it was built. */
  function Length<T>(s: Sequence<T>): nat
    reads Footprint(s)
  {
    match s
    case Native(cell) => |cell.items|
    case Viewed(v) => v.len
  }

  /** The current lengths of a chain's parts. */
  function PartLengths<T>(parts: seq<Sequence<T>>): (r: seq<nat>)
    reads PartsFootprint(parts)
    ensures |r| == |parts| && forall k :: 0 <= k < |parts| ==> r[k] == Length(parts[k])
  {
    seq(|parts|, k requires 0 <= k < |parts| reads PartsFootprint(parts) => Length(parts[k]))
  }

  /** `s[k]` for an integer `k`. A native sequence counts a negative `k`
      from its end, as Python's sequences do; a view answers by `ViewAt`. */
  function ItemAt<T>(s: Sequence<T>, k: int): Result<T>
    reads Footprint(s)
    decreases s
  {
    match s
    case Native(cell) =>
      var n := |cell.items|;
      var j := if k < 0 then k + n else k;
      if 0 <= j < n then Ok(cell.items[j]) else Err(IndexError)
    case Viewed(v) => ViewAt(v, k)
  }

  /** The specification of `SeqChain._find_position`, from the parts'
      current lengths `lens`: `None` for an index outside [0, recorded); a
      `LengthChangedError` when the lengths no longer add up to the recorded
      length; otherwise the part that owns the index and the offset in it. */
  function Locate(lens: seq<nat>, index: int, recorded: nat): (r: Result<Option<(nat, nat)>>)
    ensures r == Ok(None) <==> (index < 0 || index >= recorded)
    ensures r.Err? <==> (0 <= index < recorded && Sum(lens) != recorded)
    ensures r.Err? ==> r.error == LengthChangedError
    ensures r.Ok? && r.value.Some? ==>
              && r.value.value.0 < |lens|
              && r.value.value.1 < lens[r.value.value.0]
              && Prefix(lens, r.value.value.0) + r.value.value.1 == index
  {
    if index < 0 || index >= recorded then Ok(None)
    else if Sum(lens) != recorded then Err(LengthChangedError)
    else
      var k := Owner(lens, index);
      Ok(Some((k, index - Prefix(lens, k))))
  }

  /** Integer access to a view, `Seq.__getitem__` and `SeqChain.__getitem__`
      with an integer subscript.

      A `Seq` first fails if its backing sequence no longer has the length
      it had at construction, then counts a negative index from its own
      end, fails outside [0, len), and reads position `start + i * step` of
      the backing sequence.

      A `SeqChain` rejects every index outside [0, len), negative ones
      included, then fails if the parts' current lengths no longer add up
      to the recorded length, and reads the owning part at the offset. */
  function ViewAt<T>(v: View<T>, i: int): (r: Result<T>)
    reads ViewFootprint(v)
    ensures v.SeqView? && Length(v.base) != v.lenOrig ==> r == Err(LengthChangedError)
    ensures v.SeqView? && Length(v.base) == v.lenOrig && (i + v.len < 0 || v.len <= i) ==> r == Err(IndexError)
    ensures v.SeqView? && Length(v.base) == v.lenOrig && 0 <= i < v.len ==> r == ItemAt(v.base, Term(v.bounds, i))
    ensures v.SeqView? && Length(v.base) == v.lenOrig && 0 <= i + v.len && i < 0 ==> r == ItemAt(v.base, Term(v.bounds, i + v.len))
    ensures v.ChainView? && (i < 0 || v.len <= i) ==> r == Err(IndexError)
    ensures v.ChainView? && 0 <= i < v.len && Sum(PartLengths(v.parts)) != v.len ==> r == Err(LengthChangedError)
    ensures v.ChainView? && 0 <= i < v.len && Sum(PartLengths(v.parts)) == v.len ==>
              var k := Owner(PartLengths(v.parts), i);
              r == ItemAt(v.parts[k], i - Prefix(PartLengths(v.parts), k))
    decreases v
  {
    match v
    case SeqView(base, lenOrig, b, len) =>
      if Length(base) != lenOrig then Err(LengthChangedError)
      else
        var j := if i < 0 then len + i else i;
        if j < 0 || j >= len then Err(IndexError)
        else ItemAt(base, b.start + j * b.step)
    case ChainView(parts, len) =>
      match Locate(PartLengths(parts), i, len)
      case Err(e) => Err(e)
      case Ok(None) => Err(IndexError)
      case Ok(Some(position)) => ItemAt(parts[position.0], position.1)
  }

  /** What `issequence` promises of an object it accepts: it has a length
      (`Length` is total) and integer indexing, which never raises
      `TypeError`; an index can only be out of range or meet a sequence
      whose length changed. */
  lemma {:induction false} SequenceSupportsIndexing<T>(s: Sequence<T>, k: int)
    ensures ItemAt(s, k).Err? ==> ItemAt(s, k).error == IndexError || ItemAt(s, k).error == LengthChangedError
    decreases s
  {
    if s.Viewed? {
      var v := s.view;
      if v.SeqView? && Length(v.base) == v.lenOrig {
        var j := if k < 0 then v.len + k else k;
        if 0 <= j < v.len {
          assert ItemAt(s, k) == ItemAt(v.base, Term(v.bounds, j));
          SequenceSupportsIndexing(v.base, Term(v.bounds, j));
        }
      } else if v.ChainView? {
        var lens := PartLengths(v.parts);
        if 0 <= k < v.len && Sum(lens) == v.len {
          var m := Owner(lens, k);
          assert ItemAt(s, k) == ItemAt(v.parts[m], k - Prefix(lens, m));
          SequenceSupportsIndexing(v.parts[m], k - Prefix(lens, m));
        }
      }
    }
  }

  /** `Seq(o, start, stop, step)`: records the backing sequence's current
      length, normalises the bounds against it, and takes as its length the
      length of `range(lenOrig)[slice(*bounds)]`. That second use of the
      normalised bounds as an ordinary slice reads a descending stop of -1
      as `lenOrig - 1` (see `IndexMath.RangeSliceFixpoint`). */
  function NewSeq<T>(o: Operand<T>, start: Option<int>, stop: Option<int>, step: Option<int>): (r: Result<View<T>>)
    reads OperandFootprint(o)
    ensures !IsSequence(o) ==> r == Err(TypeError)
    ensures IsSequence(o) ==> (r.Err? <==> step == Some(0))
    ensures IsSequence(o) && r.Err? ==> r.error == ValueError
    ensures r.Ok? ==>
              && r.value.SeqView?
              && r.value.base == o.s
              && r.value.lenOrig == Length(o.s)
              && r.value.bounds == SliceIndices(start, stop, step, Length(o.s)).value
              && r.value.len == |RangeElements(RangeSlice(r.value.lenOrig, r.value.bounds))|
              && r.value.len == RangeLen(RangeSlice(r.value.lenOrig, r.value.bounds))
  {
    match o
    case NonSequential => Err(TypeError)
    case Sequential(s) =>
      var n := Length(s);
      match SliceIndices(start, stop, step, n)
      case Err(e) => Err(e)
      case Ok(b) =>
        RangeElementsAt(RangeSlice(n, b));
        Ok(SeqView(s, n, b, RangeLen(RangeSlice(n, b))))
  }

  /** The start and stop with which slicing a `Seq` by `idx` composes its bounds `b`. */
  function ComposedStart(b: Bounds, idx: Bounds): int { b.start + idx.start * b.step }
  function ComposedStop(b: Bounds, idx: Bounds): int { ComposedStart(b, idx) + b.step * (idx.stop - idx.start) }

  /** Slicing a view.

      A `Seq` fails if its backing sequence changed length, normalises the
      slice against its own length and composes it with its bounds:
      `start' = start + idx.start * step`,
      `stop' = start' + step * (idx.stop - idx.start)`,
      `step' = step * idx.step`. The source hands these to `SeqView`, a name
      `views.py` never defines, so there slicing a `Seq` raises `NameError`;
      the model builds `Seq(base, start', stop', step')` over the same
      backing sequence instead, as `SeqChain` does.

      A `SeqChain` is wrapped, unchecked, as the backing sequence of a new
      `Seq` with the slice's own bounds. */
  function SliceView<T>(v: View<T>, start: Option<int>, stop: Option<int>, step: Option<int>): (r: Result<View<T>>)
    reads ViewFootprint(v)
    ensures v.SeqView? && Length(v.base) != v.lenOrig ==> r == Err(LengthChangedError)
    ensures r.Err? ==> r.error == LengthChangedError || r.error == ValueError
    ensures v.ChainView? ==> (r.Err? <==> step == Some(0))
    ensures v.SeqView? && Length(v.base) == v.lenOrig && v.bounds.step != 0 ==> (r.Err? <==> step == Some(0))
    ensures r.Ok? ==> r.value.SeqView? && r.value.base == (if v.SeqView? then v.base else Viewed(v))
    ensures r.Ok? ==> r.value.lenOrig == (if v.SeqView? then v.lenOrig else v.len)
    ensures r.Ok? ==> Normalized(r.value.bounds, r.value.lenOrig)
    ensures r.Ok? ==> r.value.len == RangeLen(RangeSlice(r.value.lenOrig, r.value.bounds))
    // a chain keeps the slice's own bounds; a `Seq` composes them with its own
    ensures r.Ok? && v.ChainView? ==> r.value.bounds == SliceIndices(start, stop, step, v.len).value
    ensures r.Ok? && v.SeqView? ==>
              SliceIndices(start, stop, step, v.len).Ok? &&
              var idx := SliceIndices(start, stop, step, v.len).value;
              var composed := SliceIndices(Some(ComposedStart(v.bounds, idx)), Some(ComposedStop(v.bounds, idx)),
                                           Some(v.bounds.step * idx.step), v.lenOrig);
              composed.Ok? && r.value.bounds == composed.value
  {
    match v
    case SeqView(base, lenOrig, b, len) =>
      if Length(base) != lenOrig then Err(LengthChangedError)
      else
        (match SliceIndices(start, stop, step, len)
         case Err(e) => Err(e)
         case Ok(idx) =>
           NewSeq(Sequential(base), Some(ComposedStart(b, idx)), Some(ComposedStop(b, idx)), Some(b.step * idx.step)))
    case ChainView(_, _) =>
      NewSeq(Sequential(Viewed(v)), start, stop, step)
  }

  /** `view[subscript]`. A tuple is refused before anything else; a `Seq`
      then checks its backing length for every other subscript, a slice
      included; an object that is neither an integer nor a slice is refused. */
  function GetItem<T>(v: View<T>, sub: Subscript): (r: Result<Item<T>>)
    reads ViewFootprint(v)
    ensures sub.Tuple? ==> r == Err(TypeError)
    ensures v.SeqView? && !sub.Tuple? && Length(v.base) != v.lenOrig ==> r == Err(LengthChangedError)
    ensures sub.NotAnIndex? && (v.ChainView? || Length(v.base) == v.lenOrig) ==> r == Err(TypeError)
    ensures sub.Index? ==> (r.Ok? <==> ViewAt(v, sub.i).Ok?)
    ensures sub.Index? && r.Ok? ==> r.value == Element(ViewAt(v, sub.i).value)
    ensures sub.Index? && r.Err? ==> ViewAt(v, sub.i) == Err(r.error)
    ensures sub.Slice? ==> (r.Ok? <==> SliceView(v, sub.start, sub.stop, sub.step).Ok?)
    ensures sub.Slice? && r.Ok? ==> r.value == Subview(SliceView(v, sub.start, sub.stop, sub.step).value)
    ensures sub.Slice? && r.Err? ==> SliceView(v, sub.start, sub.stop, sub.step) == Err(r.error)
    ensures v.ChainView? && sub.Slice? ==> r != Err(LengthChangedError)
  {
    match sub
    case Tuple => Err(TypeError)
    case Slice(start, stop, step) =>
      (match SliceView(v, start, stop, step)
       case Err(e) => Err(e)
       case Ok(w) => Ok(Subview(w)))
    case NotAnIndex =>
      if v.SeqView? && Length(v.base) != v.lenOrig then Err(LengthChangedError) else Err(TypeError)
    case Index(i) =>
      match ViewAt(v, i)
      case Err(e) => Err(e)
      case Ok(x) => Ok(Element(x))
  }

  predicate AllSequences<T>(parts: seq<Operand<T>>)
  {
    forall k :: 0 <= k < |parts| ==> IsSequence(parts[k])
  }

  function Members<T>(parts: seq<Operand<T>>): (r: seq<Sequence<T>>)
    requires AllSequences(parts)
    ensures |r| == |parts| && forall k :: 0 <= k < |parts| ==> r[k] == parts[k].s
  {
    seq(|parts|, k requires 0 <= k < |parts| => parts[k].s)
  }

  /** `SeqChain(*parts)`: refuses any part that is not a sequence, and
      records the sum of the parts' lengths at construction. */
  method NewChain<T>(parts: seq<Operand<T>>) returns (r: Result<View<T>>)
    ensures r.Err? <==> exists k :: 0 <= k < |parts| && !IsSequence(parts[k])
    ensures r.Err? ==> r.error == TypeError
    ensures r.Ok? ==> r.value == ChainView(Members(parts), Sum(PartLengths(Members(parts))))
  {
    var total := 0;
    var k := 0;
    while k < |parts|
      invariant 0 <= k <= |parts|
      invariant AllSequences(parts[..k])
      invariant total == Sum(PartLengths(Members(parts[..k])))
    {
      if !IsSequence(parts[k]) {
        return Err(TypeError);
      }
      ghost var before := PartLengths(Members(parts[..k]));
      assert PartLengths(Members(parts[..k + 1])) == before + [Length(parts[k].s)];
      SumAppend(before, [Length(parts[k].s)]);
      total := total + Length(parts[k].s);
      k := k + 1;
    }
    assert parts[..k] == parts;
    return Ok(ChainView(Members(parts), total));
  }

  /** `SeqChain._find_position`: walks every part, accumulating the current
      lengths, remembers the part whose range holds the index, and checks
      after the walk that the total still equals the recorded length. */
  method FindPosition<T>(chain: View<T>, index: int) returns (r: Result<Option<(nat, nat)>>)
    requires chain.ChainView?
    ensures r == Locate(PartLengths(chain.parts), index, chain.len)
  {
    if index < 0 || index >= chain.len {
      return Ok(None);
    }
    var parts := chain.parts;
    ghost var lens := PartLengths(parts);
    var start := 0;
    // Python leaves `ret` unbound until a part holds the index.
    var ret: Option<(nat, nat)> := None;
    var k := 0;
    while k < |parts|
      invariant 0 <= k <= |parts|
      invariant start == Prefix(lens, k)
      invariant ret.None? <==> index >= start
      invariant ret.Some? ==>
                  && ret.value.0 < k
                  && Prefix(lens, ret.value.0) <= index < Prefix(lens, ret.value.0) + lens[ret.value.0]
                  && ret.value.1 == index - Prefix(lens, ret.value.0)
    {
      PrefixStep(lens, k);
      var newstart := start + Length(parts[k]);
      if start <= index < newstart {
        ret := Some((k, index - start));
      }
      start := newstart;
      k := k + 1;
    }
    PrefixAll(lens);
    assert start == Sum(lens) && lens == PartLengths(chain.parts);
    if start != chain.len {
      return Err(LengthChangedError);
    }
    OwnerUnique(lens, index, ret.value.0);
    assert Locate(lens, index, chain.len) == Ok(ret);
    return Ok(ret);
  }
}
