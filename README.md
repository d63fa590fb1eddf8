# Sequence views (`views.py`) in Dafny

`views.py` is a small algebra of lazy, read-only sequence views. This model covers three of its parts:

- **`Seq(seq, start, stop, step)`**: a windowed, strided view over one backing sequence;
- **`SeqChain(*parts)`**: a concatenation view over several sequences;
- **`seq[...]`**: literal syntax that splits its entries into runs of plain items and embedded sequences, then chains them.

A view only records what it needs at construction: `Seq` keeps its backing sequence, that sequence's length (`len_orig`), the normalised slice and its own length; `SeqChain` keeps its parts and the sum of their lengths. Because a backing list can still change afterwards, both views re-check lengths and raise `LengthChangedError` once they no longer match. A `Seq` re-checks its backing length on every subscript other than a tuple. A chain re-checks the sum of its parts' lengths on integer access only; slicing a chain never checks.

The model is organised as follows:

- `errors.dfy`: the exceptions become constructors of `Errors.Error`, and every operation that can raise returns a `Result`.
- `index_math.dfy`: Python's slice and range arithmetic:
  - `slice.indices` as `SliceIndices`;
  - `len(range(...))` by CPython's closed form as `RangeLen`;
  - the bounds of `range(n)[slice]` as `RangeSlice`;
  - `RangeElements`, a term-by-term enumeration that the closed form `RangeLen` is proved against;
  - `ListSlice`, Python's list slicing, built on `SliceIndices` and `RangeElements`. `ListSlice` shares `SliceIndices` with the views, so its value rests on the case-by-case contract of `SliceIndices`.
- `prefix_sums.dfy`: running sums of part lengths, the owner of a position in a concatenation, and `Flatten`.
- `views.dfy`: the view algebra itself.
  - A backing Python list is the class `ListObject`, whose `items` another part of the program may replace with `SetItems`.
  - Views never change once built, so `Seq` and `SeqChain` are the datatype `View`; functions that read through a view read the set of lists it reaches.
  - `NewSeq` is `Seq.__init__`, `ViewAt` is integer subscripting of either view, `SliceView` is slicing, and `GetItem` is the full `__getitem__` dispatch.
  - `NewChain` is `SeqChain.__init__` with its accumulating loop, and `FindPosition` is `_find_position` with its walk over the parts.
  - `len(view)` is `Length(Viewed(v))`, the length recorded at construction, which no later change to a backing list affects.
- `seq_properties.dfy`: what a `Seq` shows, compared with Python's list slicing, and how slices of slices compose.
- `chain_properties.dfy`: what a `SeqChain` shows (the concatenation of its parts) and when it refuses to show anything.
- `builder.dfy`: the `parts()` generator of `seq.__getitem__` as the loop `SplitParts`, specified by the step function `Advance`, and `BuildChain` for the whole of `seq[...]`.

Two behaviours of the source are reproduced on purpose:

- **A `Seq`'s length is normalised twice** (views.py:100-101). The normalised triple is applied once more to `range(len_orig)` as an ordinary slice, so a descending bound of -1 is read as `len_orig - 1`. This has two forms:
  - A descending stop of -1, from a slice that runs down to the first item, makes the view empty. For example, `Seq(xs, step=-1)` over ten items has length 0. `SeqProperties.DescendingToFrontIsEmpty` and `SeqProperties.FullReverseIsEmpty` state this.
  - A descending start of -1, from a start before the first item, gives a positive length where the list slice is empty. The items are then read at negative positions (-1, -1 + step, ...). A list counts those from its end, so `Seq(list(range(10)), -100, 5, -1)` has length 4 and shows 9, 8, 7, 6. A chain refuses them with `IndexError`. `SeqProperties.DescendingFromBeforeFront`, `SeqProperties.ClampedReverseExample` and `ChainProperties.ChainClampedReverse` state this.
- **A chain rejects negative indices** (views.py:163). A `Seq` counts them from its end; a chain does not.
- **A step of zero** raises `ValueError` through `slice.indices`, both when a `Seq` is built and when either view is sliced.

Where the model departs from the code:

- **Slicing a `Seq`.** views.py:124 calls `SeqView`, a name the file never defines, so in the source slicing a `Seq` raises `NameError`. The model builds `Seq(base, start', stop', step')` with the composed bounds of views.py:121-123, the way `SeqChain` slices itself at views.py:183. `Views.SliceView` says this in its comment.
- **Duck typing becomes tags.** `issequence` is the tag `Sequential` of `Views.Operand`. A subscript is `Index`, `Slice`, `Tuple` or `NotAnIndex`, and slice bounds are integers or `None`.

## Model

| member | source | states |
|---|---|---|
| `IndexMath.SliceIndices` | venv/Lib/site-packages/views.py:100 | `slice.indices`: a step of 0 is exactly the `ValueError` case; otherwise the bounds are normalised to [0, n] when ascending or [-1, n-1] when descending, `None` selects the whole sequence in the step's direction, a bound naming a position counts negatives from the end, and bounds beyond either end are clamped |
| `IndexMath.RangeSlice` | venv/Lib/site-packages/views.py:101 | re-slicing `range(n)` by a triple yields bounds normalised against n, with the same step; `RangeSliceSelects` says which items they list |
| `IndexMath.RangeSliceSelects` | venv/Lib/site-packages/views.py:101 | `range(n)[s]` lists exactly the items of `range(n)` that the slice `s` selects, in order: the enumeration of `RangeSlice(n, s)` equals the list slice of the enumerated `range(n)`. Both sides normalise `s` by `SliceIndices`, so the content is that `range(n)` enumerates 0 to n-1 |
| `IndexMath.RangeLenCounts` | venv/Lib/site-packages/views.py:101 | the closed-form range length counts exactly the terms `start + j*step` that lie before the stop, in both directions |
| `IndexMath.RangeLenUnique` | venv/Lib/site-packages/views.py:101 | any count with that property is the range length |
| `IndexMath.RangeElementsAt` | venv/Lib/site-packages/views.py:101 | the closed form agrees with term-by-term enumeration: `RangeLen(b)` terms, the j-th being `start + j*step` |
| `IndexMath.NormalizedTermInBounds` | venv/Lib/site-packages/views.py:136-139 | the first `RangeLen(b)` terms of a normalised range are valid positions of the backing sequence. A `Seq`'s index reads inside it when the `Seq`'s length is `RangeLen(bounds)`, which holds whenever re-slicing leaves the bounds unchanged. A descending start of -1 breaks this (see `SeqProperties.DescendingFromBeforeFront`) |
| `IndexMath.RangeSliceFixpoint` | venv/Lib/site-packages/views.py:100-101 | re-slicing by normalised bounds changes them if and only if the step is negative, the sequence is non-empty and a bound is -1; a descending stop of -1 becomes `n - 1` |
| `PrefixSums.PrefixMonotone` | venv/Lib/site-packages/views.py:165-169 | part i's range ends no later than any later part's range begins |
| `PrefixSums.Owner` | venv/Lib/site-packages/views.py:165-168 | each position below the total length lies in the range `[prefix_k, prefix_k + len_k)` of some part k |
| `PrefixSums.OwnerUnique` | venv/Lib/site-packages/views.py:165-168 | that part is unique: any part whose range holds the position is `Owner` |
| `PrefixSums.FlattenAt` | venv/Lib/site-packages/views.py:192-195 | the concatenation has the summed length, and its item i is item `i - prefix_k` of the owner k |
| `Views.SequenceSupportsIndexing` | venv/Lib/site-packages/views.py:71-73 | what `issequence` vouches for: an accepted object (`IsSequence`, a native list or a view) has a length, and integer indexing it never raises `TypeError`, only `IndexError` or `LengthChangedError` |
| `Views.Locate` | venv/Lib/site-packages/views.py:161-174 | `None` if and only if the index is outside [0, len); `LengthChangedError` if and only if the index is inside it and the current lengths no longer sum to len; otherwise a part and an offset inside that part at that position |
| `Views.ViewAt` | venv/Lib/site-packages/views.py:133-195 | integer access to a view. A `Seq` whose backing sequence changed length raises `LengthChangedError`. Otherwise an index outside [-len, len) is an `IndexError`, a negative index is shifted by len, and index i reads backing position `start + i*step`. A chain refuses indices outside [0, len), negative ones included, with `IndexError`. Inside that range it raises `LengthChangedError` when the current lengths no longer sum to len, and otherwise reads the owning part at the offset |
| `SeqProperties.SeqLenCountsIndices` | venv/Lib/site-packages/views.py:107-108 | `len(seq_view)` bounds the indices the view answers: any index that succeeds lies in [-len, len). Over a list that kept its length, with a length equal to its bounds' range length, every index in that range succeeds |
| `ChainProperties.ChainLenCountsIndices` | venv/Lib/site-packages/views.py:158-159 | `len(chain)` bounds the indices it answers: any index that succeeds lies in [0, len). Over lists whose lengths still sum to len, every index in that range succeeds |
| `Views.NewSeq` | venv/Lib/site-packages/views.py:93-101 | `TypeError` for a non-sequence; `ValueError` if and only if the step is 0; otherwise a `Seq` over the given sequence recording its current length, the `slice.indices` bounds, and as its length the size of `range(len_orig)[bounds]` |
| `Views.SliceView` | venv/Lib/site-packages/views.py:114-124 | slicing a stale `Seq` raises `LengthChangedError`, and the only other error is `ValueError`. Slicing a chain, or a fresh `Seq` with a non-zero step, fails if and only if the step is 0. The result is a `Seq`. For a chain it wraps the chain itself, records the chain's length and takes the slice's own `slice.indices` bounds. For a `Seq` it keeps the backing sequence and its recorded length, and its bounds normalise the composed start, stop and step. Its length is that of `range(len_orig)[bounds]` |
| `Views.GetItem` | venv/Lib/site-packages/views.py:110-195 | a tuple raises `TypeError` before anything else. A stale `Seq` raises `LengthChangedError` for every other subscript. An object that is neither an integer nor a slice raises `TypeError`. An integer succeeds or fails exactly as `ViewAt` does, with the same item or error. A slice succeeds or fails exactly as `SliceView` does, with that view or error, so slicing a chain never raises `LengthChangedError` |
| `Views.NewChain` | venv/Lib/site-packages/views.py:143-152 | `TypeError` if and only if some part is not a sequence; otherwise a chain of exactly those parts whose length is the sum of their lengths |
| `Views.FindPosition` | venv/Lib/site-packages/views.py:161-174 | the walk over the parts returns exactly what `Locate` specifies |
| `SeqProperties.SeqMatchesListSlice` | venv/Lib/site-packages/views.py:99-139 | when re-slicing leaves the bounds unchanged, a `Seq` over a list has the length of `xs[start:stop:step]` and shows its items, at non-negative indices and at negative ones counted from the end; every other index is an `IndexError` |
| `SeqProperties.AscendingSeqMatchesListSlice` | venv/Lib/site-packages/views.py:99-139 | for a positive or missing step that condition always holds, so the `Seq` shows exactly `xs[start:stop:step]` |
| `SeqProperties.DescendingToFrontIsEmpty` | venv/Lib/site-packages/views.py:100-101 | a descending `Seq` without a stop has normalised stop -1 and length 0, while the list slice it stands for is non-empty whenever its start is a position |
| `SeqProperties.FullReverseIsEmpty` | venv/Lib/site-packages/views.py:100-101 | `Seq(xs, step=-1)` over ten items has length 0 while `xs[::-1]` has ten |
| `SeqProperties.ComposedTermAscending` | venv/Lib/site-packages/views.py:120-123 | with the composed bounds, the j-th position is before the composed stop if and only if the outer slice's j-th position is before its stop, and it is then that outer position read through the inner bounds |
| `SeqProperties.ComposedLength` | venv/Lib/site-packages/views.py:120-123 | for positive steps, the composed `Seq` has the length of the outer slice taken over the inner view |
| `SeqProperties.SliceOfSliceAscending` | venv/Lib/site-packages/views.py:119-124 | slicing an ascending `Seq` by an ascending slice has the outer slice's length, and item j is the old view's item at the outer slice's j-th position |
| `SeqProperties.NestedListSliceAscending` | venv/Lib/site-packages/views.py:119-124 | for ascending slices, `Seq(xs, s1)[s2]` shows `xs[s1][s2]` item for item |
| `SeqProperties.IndexAgreesWithUnitSlice` | venv/Lib/site-packages/views.py:119-139 | `v[i]` equals `v[i:i+1][0]`, and that slice has length 1 |
| `SeqProperties.ReversedSeqIsEmpty` | venv/Lib/site-packages/views.py:119-124 | `Seq([0, 1, 2])[::-1]` composes to (2, -1, -1). `slice.indices` reads that -1 from the end, giving bounds (2, 2, -1), so the reversed view has length 0 while `xs[::-1]` has 3 items |
| `SeqProperties.DescendingUnitSliceIsEmpty` | venv/Lib/site-packages/views.py:119-124 | `Seq(list(range(10)), 8, 0, -3)` has length 3 and shows 2 at index 2, yet `v[2:3]` composes to (2, -1, -3), normalised to (2, 9, -3), and is empty |
| `SeqProperties.ComposedSliceExample` | venv/Lib/site-packages/views.py:119-124 | `Seq(list(range(10)), 1, 8, 2)[1:3]` has bounds (3, 7, 2) and shows 3 and 5 |
| `SeqProperties.DescendingFromBeforeFront` | venv/Lib/site-packages/views.py:100-101 | a descending `Seq` whose start lies before the first item has normalised start -1 and an empty list slice. Its length nevertheless counts from the last position down to the stop, and its items are read at negative positions of the backing sequence |
| `SeqProperties.ClampedReverseExample` | venv/Lib/site-packages/views.py:100-101 | `Seq(list(range(10)), -100, 5, -1)` has bounds (-1, 5, -1), length 4, and shows 9 at index 0 and 6 at index 3, while `xs[-100:5:-1]` is empty |
| `SeqProperties.StaleSeqScenario` | venv/Lib/site-packages/views.py:107-117 | after the backing list is cut, `len` still reports the length recorded at construction, and both indexing and slicing raise `LengthChangedError` |
| `ChainProperties.ChainIsConcatenation` | venv/Lib/site-packages/views.py:161-195 | while the parts still sum to the recorded length, `chain[i]` is item i of the parts laid end to end, and the concatenation has the chain's length |
| `ChainProperties.ChainIndexOwner` | venv/Lib/site-packages/views.py:165-168 | an index in part k's range is answered by part k at the index less the lengths before it |
| `ChainProperties.OneResizedPartIsDetected` | venv/Lib/site-packages/views.py:165-173 | once a single part has changed length, every index of the chain is refused, even one that part does not own |
| `ChainProperties.ChainSliceDefersStaleness` | venv/Lib/site-packages/views.py:180-183 | slicing a chain with any non-zero step succeeds even when its parts are stale. The resulting `Seq` wraps the chain with the chain's recorded length. With stale parts, each of its indices then fails with `LengthChangedError` or `IndexError`. The failure is `LengthChangedError` whenever re-slicing leaves the bounds unchanged, which always holds for a positive step |
| `ChainProperties.ChainClampedReverse` | venv/Lib/site-packages/views.py:180-183 | for a chain of length 5, `chain[-100:2:-1]` has bounds (-1, 2, -1) and length 2, yet both its items fail with `IndexError` |
| `ChainProperties.TruncatedPartScenario` | venv/Lib/site-packages/views.py:161-174 | in `SeqChain([0, 1], [2, 3, 4])` position 2 is offset 0 of part 1; after the second list loses an item, position 0 is refused too |
| `Builder.SplittingInvariant` | venv/Lib/site-packages/views.py:220-242 | the generator fails if and only if some entry is malformed, with the first entry's error; otherwise the parts yielded so far plus the run in progress carry exactly the tokens of the entries, and the parts are well split (no empty run, no two runs adjacent) |
| `Builder.SplittingErrorExtends` | venv/Lib/site-packages/views.py:222-238 | once an entry has raised, later entries change nothing |
| `Builder.SplitMeetsTokens` | venv/Lib/site-packages/views.py:220-242 | the finished split fails exactly with the first error of the entries; otherwise its parts carry the entries' tokens in order (items as themselves, each marker as its sequence), with non-empty maximal runs |
| `Builder.SplitParts` | venv/Lib/site-packages/views.py:220-242 | the loop computes the specified split, so it fails exactly with the first error, `SyntaxError` for a slice with a start or a stop and `TypeError` for a step that is not a sequence, and otherwise returns well-split parts carrying the entries' tokens |
| `Builder.SplitExample` | venv/Lib/site-packages/views.py:220-242 | `seq[::a, 7, 8, ::b, 9]` splits into `a`, `[7, 8]`, `b`, `[9]`; `seq[7, 1:2:a]` is a `SyntaxError` |
| `Builder.Realise` | venv/Lib/site-packages/views.py:231-242 | every run becomes a new list holding its items, a distinct list for each run; embedded sequences are kept as they are |
| `Builder.BuildChain` | venv/Lib/site-packages/views.py:214-244 | a single entry counts as a tuple of one; `seq[...]` fails exactly with the first entry's error; otherwise it is a chain whose parts are, in order, new and distinct lists for the runs and the embedded sequences themselves, carrying the entries' tokens, with the summed length |

## Left out

- `gen` (views.py:15-65) is not modelled. Its iterators and generators are lazy, possibly infinite streams.
- `SeqMixin.__repr__` and `Repr` (views.py:75-90) are not modelled. They only format output.
- The `make` decorator (views.py:12-13), the `deps` properties (views.py:103-105, 154-156) and `seq.chain` (views.py:246) are not modelled. They are plumbing, or another name for `SeqChain`.
- Duck typing is not modelled. `issequence` tests a type for `__getitem__` and `__len__`, so a dict also passes it. The model has only two kinds of sequence: lists (the class `ListObject`) and views.
- The `__index__` protocol is collapsed. Any object with `__index__` is modelled by the integer it returns.
- Non-integer slice bounds, and the `TypeError` `slice.indices` raises for them, are not modelled.
- The `NameError` of views.py:124 is replaced by the evident intent (see above).
- Exception messages are not modelled; only the exception class is.
- `parts()` is lazy, but `tuple` consumes all of it before `SeqChain` is built. The model therefore splits eagerly, which has the same outcome.
- `BuildChain` states what the chain holds as tokens and parts, not as items. Item by item, `ChainProperties.ChainIsConcatenation` completes it.
- `SeqMatchesListSlice` is stated only when re-normalising the bounds leaves them unchanged. Otherwise the stored length can disagree with Python list slicing, as `DescendingToFrontIsEmpty` shows.
- `ComposedLength` is proved for positive steps only, like the composition lemmas that use it.
- `SliceOfSliceAscending`: composition is proved for positive steps only. The composed start and stop (views.py:121-122) are absolute positions in the backing sequence, and the new `Seq` hands them to `slice.indices` (views.py:100), which counts a negative one from the end. So composition can break once a composed bound is negative. For example, `Seq(xs)[::-1]` composes to a stop of -1 and comes out empty (`SeqProperties.ReversedSeqIsEmpty`).
- `NestedListSliceAscending` is stated for ascending views and slices only, for the same reason.
- `IndexAgreesWithUnitSlice` is stated for ascending views only. For a descending view, even `v[i:i+1]` can compose to a negative stop, leaving it empty (`SeqProperties.DescendingUnitSliceIsEmpty`).
