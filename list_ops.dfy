/** The list primitives of Python and numpy that the loader is built from,
    restricted to the non-negative arguments the loader passes them. */
module ListOps {

  datatype Option<+T> = None | Some(value: T)

  /** Python's `min` on two counts. */
  function Min(a: nat, b: nat): (m: nat)
    ensures m <= a && m <= b
    ensures m == a || m == b
  {
    if a <= b then a else b
  }

  /** `s[beg:end]` with non-negative bounds: the end is clamped to the length
      of `s`, and a start past the clamped end gives the empty list. */
  function Slice<T>(s: seq<T>, beg: nat, end: nat): (r: seq<T>)
    ensures beg <= Min(end, |s|) ==> |r| == Min(end, |s|) - beg
    ensures beg > Min(end, |s|) ==> r == []
    ensures forall k :: 0 <= k < |r| ==> r[k] == s[beg + k]
  {
    var stop := Min(end, |s|);
    if beg <= stop then s[beg..stop] else []
  }

  /** `zip(xs, ys)`: pairs up the two lists and stops at the shorter one. */
  function Zip<A, B>(xs: seq<A>, ys: seq<B>): (r: seq<(A, B)>)
    ensures |r| == Min(|xs|, |ys|)
    ensures forall k :: 0 <= k < |r| ==> r[k] == (xs[k], ys[k])
  {
    if |xs| == 0 || |ys| == 0 then []
    else [(xs[0], ys[0])] + Zip(xs[1..], ys[1..])
  }

  /** `s.index(x)`: the first position of `x` in `s`; None stands for the
      ValueError Python raises when `x` does not occur. */
  function Index<T(==)>(s: seq<T>, x: T): (r: Option<nat>)
    ensures r.None? <==> x !in s
    ensures r.Some? ==> r.value < |s| && s[r.value] == x && x !in s[..r.value]
  {
    if |s| == 0 then None
    else if s[0] == x then Some(0)
    else
      match Index(s[1..], x)
      case None => None
      case Some(i) =>
        assert s[..i + 1] == [s[0]] + s[1..][..i];
        Some(i + 1)
  }

  /** No element occurs twice. */
  predicate Distinct<T(==)>(s: seq<T>) {
    forall i, j :: 0 <= i < j < |s| ==> s[i] != s[j]
  }

  /** The parts laid end to end, in order. */
  function Flatten<T>(parts: seq<seq<T>>): seq<T> {
    if parts == [] then []
    else Flatten(parts[..|parts| - 1]) + parts[|parts| - 1]
  }

  /** The lengths of the parts added up. */
  function TotalLength<T>(parts: seq<seq<T>>): nat {
    if parts == [] then 0
    else TotalLength(parts[..|parts| - 1]) + |parts[|parts| - 1]|
  }

  /** The parts in front of part i, and part i itself, fit in the total. */
  lemma {:induction false} TotalLengthPrefix<T>(parts: seq<seq<T>>, i: nat)
    requires i < |parts|
    ensures TotalLength(parts[..i]) + |parts[i]| <= TotalLength(parts)
  {
    var front := parts[..|parts| - 1];
    assert parts[..|parts| - 1] == front;
    if i < |parts| - 1 {
      TotalLengthPrefix(front, i);
      assert parts[..i] == front[..i];
    }
  }

  lemma {:induction false} FlattenLength<T>(parts: seq<seq<T>>)
    ensures |Flatten(parts)| == TotalLength(parts)
  {
    if parts != [] {
      FlattenLength(parts[..|parts| - 1]);
    }
  }

  /** Part i occupies the stretch of the flattened sequence that starts right
      after the parts in front of it. */
  lemma {:induction false} FlattenAt<T>(parts: seq<seq<T>>, i: nat)
    requires i < |parts|
    ensures TotalLength(parts[..i]) + |parts[i]| <= |Flatten(parts)|
    ensures Flatten(parts)[TotalLength(parts[..i])..TotalLength(parts[..i]) + |parts[i]|] == parts[i]
  {
    var front := parts[..|parts| - 1];
    assert parts[..|parts| - 1] == front;
    FlattenLength(parts);
    FlattenLength(front);
    TotalLengthPrefix(parts, i);
    if i < |parts| - 1 {
      FlattenAt(front, i);
      assert parts[..i] == front[..i];
    }
  }

  /** Flattening keeps every part, in order: part i sits right after the
      parts in front of it, and nothing else is added. */
  lemma {:induction false} FlattenLayout<T>(parts: seq<seq<T>>)
    ensures |Flatten(parts)| == TotalLength(parts)
    ensures forall i :: 0 <= i < |parts| ==>
              TotalLength(parts[..i]) + |parts[i]| <= |Flatten(parts)| &&
              Flatten(parts)[TotalLength(parts[..i])..TotalLength(parts[..i]) + |parts[i]|] == parts[i]
  {
    FlattenLength(parts);
    forall i | 0 <= i < |parts|
      ensures TotalLength(parts[..i]) + |parts[i]| <= |Flatten(parts)| &&
              Flatten(parts)[TotalLength(parts[..i])..TotalLength(parts[..i]) + |parts[i]|] == parts[i]
    {
      FlattenAt(parts, i);
    }
  }

  /** `numpy.concatenate(parts, axis=0)` on one-dimensional arrays; None stands
      for the ValueError numpy raises when there is nothing to concatenate.
      Otherwise the result is as long as all parts together, and part i
      occupies it right after the parts in front of it. */
  function Concatenate<T>(parts: seq<seq<T>>): (r: Option<seq<T>>)
    ensures r.None? <==> parts == []
    ensures r.Some? ==> |r.value| == TotalLength(parts)
    ensures r.Some? ==> forall i :: 0 <= i < |parts| ==>
              TotalLength(parts[..i]) + |parts[i]| <= |r.value| &&
              r.value[TotalLength(parts[..i])..TotalLength(parts[..i]) + |parts[i]|] == parts[i]
  {
    if parts == [] then None
    else
      FlattenLayout(parts);
      Some(Flatten(parts))
  }

  lemma FlattenAppend<T>(parts: seq<seq<T>>, part: seq<T>)
    ensures Flatten(parts + [part]) == Flatten(parts) + part
  {
    assert (parts + [part])[..|parts|] == parts;
  }
}
