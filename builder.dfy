/** The `seq[...]` literal: `seq[a, b, ::s, c]` chains the items `a, b`,
    the sequence `s` and the item `c`. A slice entry with neither start nor
    stop marks its step as a sequence to embed; every other entry is an
    item. Runs of consecutive items become new lists, and the lists and the
    embedded sequences become the parts of a `SeqChain`.
 */
module Builder {
  import opened Errors
  import opened PrefixSums
  import opened Views

  /** One entry of the subscript: an item, or a slice `start:stop:step`.
      Of a slice only whether its start and stop are given matters, and
      its step, the object to embed. */
  datatype Arg<T> = Plain(x: T) | Marker(hasStart: bool, hasStop: bool, target: Operand<T>)

  /** The subscript itself: several entries arrive as a tuple, a single
      one as it is. */
  datatype Args<T> = Entries(entries: seq<Arg<T>>) | Single(entry: Arg<T>)

  /** A part of the chain under construction: a run of items still to be
      put into a list, or a sequence to embed. */
  datatype Part<T> = Run(items: seq<T>) | Embedded(s: Sequence<T>)

  /** What the chain shows, entry by entry, before any list is built: an
      item, or a reference to an embedded sequence. */
  datatype Token<T> = Elem(x: T) | Ref(s: Sequence<T>)

  /** A subscript that is not a tuple is treated as a tuple of one. */
  function ArgList<T>(sub: Args<T>): seq<Arg<T>>
  {
    match sub
    case Entries(entries) => entries
    case Single(entry) => [entry]
  }

  /** The error one entry raises: a slice with a start or a stop is a
      `SyntaxError`, a marker whose step is not a sequence a `TypeError`. */
  function ArgError<T>(a: Arg<T>): Option<Error>
  {
    match a
    case Plain(_) => None
    case Marker(hasStart, hasStop, target) =>
      if hasStart || hasStop then Some(SyntaxError)
      else if !IsSequence(target) then Some(TypeError)
      else None
  }

  /** The error of the earliest entry that raises one. */
  function FirstError<T>(args: seq<Arg<T>>): Option<Error>
  {
    if args == [] then None
    else if FirstError(args[..|args| - 1]).Some? then FirstError(args[..|args| - 1])
    else ArgError(args[|args| - 1])
  }

  /** What one entry contributes to the chain. */
  function ArgToken<T>(a: Arg<T>): seq<Token<T>>
  {
    match a
    case Plain(x) => [Elem(x)]
    case Marker(_, _, target) => if target.Sequential? then [Ref(target.s)] else []
  }

  /** The tokens of all entries, in order. */
  function ArgTokens<T>(args: seq<Arg<T>>): seq<Token<T>>
  {
    if args == [] then [] else ArgTokens(args[..|args| - 1]) + ArgToken(args[|args| - 1])
  }

  function Elems<T>(xs: seq<T>): (r: seq<Token<T>>)
    ensures |r| == |xs| && forall k :: 0 <= k < |xs| ==> r[k] == Elem(xs[k])
  {
    seq(|xs|, k requires 0 <= k < |xs| => Elem(xs[k]))
  }

  /** What one part contributes to the chain. */
  function PartToken<T>(p: Part<T>): seq<Token<T>>
  {
    match p
    case Run(items) => Elems(items)
    case Embedded(s) => [Ref(s)]
  }

  /** The tokens of all parts, in order. */
  function PartTokens<T>(parts: seq<Part<T>>): seq<Token<T>>
  {
    if parts == [] then [] else PartTokens(parts[..|parts| - 1]) + PartToken(parts[|parts| - 1])
  }

  /** Runs are never empty and never adjacent: each is as long as the run
      of items that produced it. */
  predicate WellSplit<T>(parts: seq<Part<T>>)
  {
    forall k :: 0 <= k < |parts| && parts[k].Run? ==>
      parts[k].items != [] && (k + 1 < |parts| ==> parts[k + 1].Embedded?)
  }

  /** Yields the run in progress, if there is one. */
  function Close<T>(parts: seq<Part<T>>, part: seq<T>): seq<Part<T>>
  {
    if part != [] then parts + [Run(part)] else parts
  }

  /** One step of the `parts()` generator: an item extends the run in
      progress; a well-formed marker yields that run, if any, and then its
      sequence; a malformed marker raises. */
  function Advance<T>(state: Result<(seq<Part<T>>, seq<T>)>, a: Arg<T>): Result<(seq<Part<T>>, seq<T>)>
  {
    match state
    case Err(e) => Err(e)
    case Ok((parts, part)) =>
      if a.Plain? then Ok((parts, part + [a.x]))
      else if ArgError(a).Some? then Err(ArgError(a).value)
      else Ok((Close(parts, part) + [Embedded(a.target.s)], []))
  }

  /** The state of the `parts()` generator after the given entries: the
      parts yielded so far and the run in progress, or the error raised. */
  function Splitting<T>(args: seq<Arg<T>>): Result<(seq<Part<T>>, seq<T>)>
  {
    if args == [] then Ok(([], [])) else Advance(Splitting(args[..|args| - 1]), args[|args| - 1])
  }

  lemma SplittingStep<T>(args: seq<Arg<T>>, k: nat)
    requires k < |args|
    ensures Splitting(args[..k + 1]) == Advance(Splitting(args[..k]), args[k])
  {
    assert args[..k + 1][..k] == args[..k];
  }

  /** Everything the generator yields, or the error it raises. */
  function Split<T>(args: seq<Arg<T>>): Result<seq<Part<T>>>
  {
    match Splitting(args)
    case Err(e) => Err(e)
    case Ok((parts, part)) => Ok(Close(parts, part))
  }

  lemma PartTokensAppend<T>(parts: seq<Part<T>>, p: Part<T>)
    ensures PartTokens(parts + [p]) == PartTokens(parts) + PartToken(p)
  {
    assert (parts + [p])[..|parts|] == parts;
  }

  lemma WellSplitAppend<T>(parts: seq<Part<T>>, p: Part<T>)
    requires WellSplit(parts)
    requires parts != [] && parts[|parts| - 1].Run? ==> p.Embedded?
    requires p.Run? ==> p.items != []
    ensures WellSplit(parts + [p])
  {
  }

  /** Closing the run in progress keeps the tokens and the shape. */
  lemma CloseKeepsTokens<T>(parts: seq<Part<T>>, part: seq<T>)
    requires WellSplit(parts) && (parts != [] ==> parts[|parts| - 1].Embedded?)
    ensures PartTokens(Close(parts, part)) == PartTokens(parts) + Elems(part)
    ensures WellSplit(Close(parts, part))
  {
    if part != [] {
      PartTokensAppend(parts, Run(part));
      WellSplitAppend(parts, Run(part));
    } else {
      assert PartTokens(parts) + Elems(part) == PartTokens(parts);
    }
  }

  /** While no entry is malformed, the generator has yielded exactly the
      tokens of the entries so far, less the run in progress, and its parts
      are well split; once an entry is malformed, it has raised the first
      error. */
  lemma {:induction false} SplittingInvariant<T>(args: seq<Arg<T>>)
    ensures Splitting(args).Err? <==> FirstError(args).Some?
    ensures Splitting(args).Err? ==> Splitting(args).error == FirstError(args).value
    ensures Splitting(args).Ok? ==>
              var (parts, part) := Splitting(args).value;
              && PartTokens(parts) + Elems(part) == ArgTokens(args)
              && WellSplit(parts)
              && (parts != [] ==> parts[|parts| - 1].Embedded?)
  {
    if args != [] {
      var init, a := args[..|args| - 1], args[|args| - 1];
      SplittingInvariant(init);
      if Splitting(init).Ok? {
        var (parts, part) := Splitting(init).value;
        if a.Plain? {
          assert Elems(part + [a.x]) == Elems(part) + [Elem(a.x)];
        } else if ArgError(a).None? {
          CloseKeepsTokens(parts, part);
          PartTokensAppend(Close(parts, part), Embedded(a.target.s));
          WellSplitAppend(Close(parts, part), Embedded(a.target.s));
        }
      }
    }
  }

  /** `Split` fails exactly with the first error of the entries; otherwise
      its parts yield the entries' tokens in order, well split. */
  lemma SplitMeetsTokens<T>(args: seq<Arg<T>>)
    ensures Split(args).Err? <==> FirstError(args).Some?
    ensures Split(args).Err? ==> Split(args).error == FirstError(args).value
    ensures Split(args).Ok? ==> PartTokens(Split(args).value) == ArgTokens(args) && WellSplit(Split(args).value)
  {
    SplittingInvariant(args);
    if Splitting(args).Ok? {
      var (parts, part) := Splitting(args).value;
      CloseKeepsTokens(parts, part);
    }
  }

  /** Once the generator has raised, later entries change nothing. */
  lemma {:induction false} SplittingErrorExtends<T>(args: seq<Arg<T>>, m: nat)
    requires m <= |args| && Splitting(args[..m]).Err?
    ensures Splitting(args) == Splitting(args[..m])
    decreases |args|
  {
    if m < |args| {
      var init := args[..|args| - 1];
      assert init[..m] == args[..m];
      SplittingErrorExtends(init, m);
    } else {
      assert args[..m] == args;
    }
  }

  /** The `parts()` generator of `seq.__getitem__`: collects consecutive
      items into a run, closes the run at each marker and yields the
      marker's sequence, and yields the last run at the end. Fails at the
      first malformed marker. */
  method SplitParts<T>(args: seq<Arg<T>>) returns (r: Result<seq<Part<T>>>)
    ensures r == Split(args)
    ensures r.Err? <==> FirstError(args).Some?
    ensures r.Err? ==> r.error == FirstError(args).value
    ensures r.Ok? ==> PartTokens(r.value) == ArgTokens(args) && WellSplit(r.value)
  {
    var parts: seq<Part<T>> := [];
    var part: seq<T> := [];
    var k := 0;
    while k < |args|
      invariant 0 <= k <= |args|
      invariant Splitting(args[..k]) == Ok((parts, part))
    {
      SplittingStep(args, k);
      var a := args[k];
      if a.Plain? {
        part := part + [a.x];
      } else if ArgError(a).Some? {
        SplittingErrorExtends(args, k + 1);
        SplitMeetsTokens(args);
        return Err(ArgError(a).value);
      } else {
        if part != [] {
          parts := parts + [Run(part)];
          part := [];
        }
        parts := parts + [Embedded(a.target.s)];
      }
      k := k + 1;
    }
    assert args[..k] == args;
    SplitMeetsTokens(args);
    if part != [] {
      parts := parts + [Run(part)];
    }
    return Ok(parts);
  }

  /** `seq[::a, 7, 8, ::b, 9]` splits into `a`, `[7, 8]`, `b` and `[9]`;
      `seq[7, 1:2:a]` raises `SyntaxError`. */
  lemma SplitExample(a: Sequence<int>, b: Sequence<int>)
    ensures Split([Marker(false, false, Sequential(a)), Plain(7), Plain(8), Marker(false, false, Sequential(b)), Plain(9)])
            == Ok([Embedded(a), Run([7, 8]), Embedded(b), Run([9])])
    ensures Split([Plain(7), Marker(true, true, Sequential(a))]) == Err(SyntaxError)
  {
    var args := [Marker(false, false, Sequential(a)), Plain(7), Plain(8), Marker(false, false, Sequential(b)), Plain(9)];
    var none: seq<int> := [];
    var s0: seq<Part<int>> := [];
    var s1 := [Embedded(a)];
    var s4 := [Embedded(a), Run([7, 8]), Embedded(b)];
    assert args[..0] == [] && args[..5] == args;
    assert s0 + [Embedded(a)] == s1 && none + [7] == [7] && [7] + [8] == [7, 8] && none + [9] == [9];
    assert s1 + [Run([7, 8])] + [Embedded(b)] == s4;
    assert Advance(Ok((s0, none)), args[0]) == Ok((s1, none));
    assert Advance(Ok((s1, none)), args[1]) == Ok((s1, [7]));
    assert Advance(Ok((s1, [7])), args[2]) == Ok((s1, [7, 8]));
    assert Advance(Ok((s1, [7, 8])), args[3]) == Ok((s4, none));
    assert Advance(Ok((s4, none)), args[4]) == Ok((s4, [9]));
    SplittingStep(args, 0);
    SplittingStep(args, 1);
    SplittingStep(args, 2);
    SplittingStep(args, 3);
    SplittingStep(args, 4);
    assert s4 + [Run([9])] == [Embedded(a), Run([7, 8]), Embedded(b), Run([9])];
    var bad := [Plain(7), Marker(true, true, Sequential(a))];
    assert bad[..0] == [] && bad[..2] == bad;
    SplittingStep(bad, 0);
    SplittingStep(bad, 1);
  }

  /** The sequence a chain part stands for: a new list holding a run, or
      the embedded sequence itself. */
  predicate Realises<T(==)>(s: Sequence<T>, p: Part<T>)
    reads Footprint(s)
  {
    match p
    case Run(items) => s.Native? && s.cell.items == items
    case Embedded(e) => s == e
  }

  /** Puts every run into a new list; embedded sequences are kept as they are. */
  method Realise<T(==)>(pieces: seq<Part<T>>) returns (operands: seq<Operand<T>>)
    ensures |operands| == |pieces| && AllSequences(operands)
    ensures forall k :: 0 <= k < |pieces| ==>
              Realises(operands[k].s, pieces[k]) && (pieces[k].Run? ==> fresh(operands[k].s.cell))
    ensures forall k, m :: 0 <= k < m < |pieces| && pieces[k].Run? && pieces[m].Run? ==>
              operands[k].s.Native? && operands[m].s.Native? && operands[k].s.cell != operands[m].s.cell
  {
    operands := [];
    var k := 0;
    while k < |pieces|
      invariant 0 <= k <= |pieces|
      invariant |operands| == k && AllSequences(operands)
      invariant forall m :: 0 <= m < k ==>
                  Realises(operands[m].s, pieces[m]) && (pieces[m].Run? ==> fresh(operands[m].s.cell))
      invariant forall m, n :: 0 <= m < n < k && pieces[m].Run? && pieces[n].Run? ==>
                  operands[m].s.Native? && operands[n].s.Native? && operands[m].s.cell != operands[n].s.cell
    {
      match pieces[k] {
        case Run(items) =>
          var cell := new ListObject(items);
          operands := operands + [Sequential(Native(cell))];
        case Embedded(s) =>
          operands := operands + [Sequential(s)];
      }
      k := k + 1;
    }
  }

  /** `seq[sub]`: splits the entries into parts, puts every run into a new
      list, and chains the lists and the embedded sequences in order. */
  method BuildChain<T(==)>(sub: Args<T>) returns (r: Result<View<T>>, ghost split: seq<Part<T>>)
    ensures r.Err? <==> FirstError(ArgList(sub)).Some?
    ensures r.Err? ==> r.error == FirstError(ArgList(sub)).value
    ensures r.Ok? ==> PartTokens(split) == ArgTokens(ArgList(sub)) && WellSplit(split)
    ensures r.Ok? ==> r.value.ChainView? && |r.value.parts| == |split|
    ensures r.Ok? ==> forall k :: 0 <= k < |split| ==>
              Realises(r.value.parts[k], split[k]) && (split[k].Run? ==> fresh(r.value.parts[k].cell))
    ensures r.Ok? ==> forall k, m :: 0 <= k < m < |split| && split[k].Run? && split[m].Run? ==>
              r.value.parts[k].Native? && r.value.parts[m].Native? && r.value.parts[k].cell != r.value.parts[m].cell
    ensures r.Ok? ==> r.value.len == Sum(PartLengths(r.value.parts))
  {
    var parts := SplitParts(ArgList(sub));
    if parts.Err? {
      return Err(parts.error), [];
    }
    split := parts.value;
    var operands := Realise(parts.value);
    r := NewChain(operands);
  }
}
