/**
 * Immutable's `List.splice` and the two splices with which
 * js/stores/windowStore.js moves a tab, stated over any element type.
 */
module Splices {
  import opened Wrappers

  /** Where Immutable starts a splice in a list of length `n`: a negative index counts back from the end. */
  function Clamp(index: int, n: nat): (b: int)
    ensures 0 <= b <= n
    ensures 0 <= index <= n ==> b == index
  {
    if index < 0 then Max(0, n + index) else Min(index, n)
  }

  /** Immutable's `list.splice(index, removeNum, ...values)`. */
  function Splice<T>(s: seq<T>, index: int, removeNum: nat, values: seq<T>): seq<T>
  {
    var b := Clamp(index, |s|);
    var e := Min(b + removeNum, |s|);
    s[..b] + values + s[e..]
  }

  /** The list without its element at `i`. */
  function Without<T>(xs: seq<T>, i: int): seq<T>
    requires 0 <= i < |xs|
  {
    xs[..i] + xs[i + 1..]
  }

  /** The list with `x` inserted at position `b`. */
  function Insert<T>(xs: seq<T>, b: int, x: T): seq<T>
    requires 0 <= b <= |xs|
  {
    xs[..b] + [x] + xs[b..]
  }

  lemma SpliceRemoveOne<T>(s: seq<T>, i: int)
    requires 0 <= i < |s|
    ensures Splice(s, i, 1, []) == Without(s, i)
  {
  }

  lemma SpliceInsertOne<T>(s: seq<T>, index: int, x: T)
    ensures Splice(s, index, 0, [x]) == Insert(s, Clamp(index, |s|), x)
  {
  }

  /** The element at `j` once the one at `i` is gone. */
  lemma WithoutAt<T>(xs: seq<T>, i: int, j: int)
    requires 0 <= i < |xs| && 0 <= j < |xs| - 1
    ensures Without(xs, i)[j] == if j < i then xs[j] else xs[j + 1]
  {
  }

  /** Inserting `x` at `b`: it sits at `b`, its neighbours are the old elements around `b`, and removing it gives the list back. */
  lemma InsertedAt<T>(xs: seq<T>, b: int, x: T)
    requires 0 <= b <= |xs|
    ensures var r := Insert(xs, b, x);
      && |r| == |xs| + 1 && r[b] == x && Without(r, b) == xs
      && (b < |xs| ==> r[b + 1] == xs[b])
      && (0 < b ==> r[b - 1] == xs[b - 1])
  {
    var r := Insert(xs, b, x);
    assert r[..b] == xs[..b];
    assert r[b + 1..] == xs[b..];
  }

  /** Putting an element back where it was taken from restores the list. */
  lemma InsertWithout<T>(xs: seq<T>, i: int)
    requires 0 <= i < |xs|
    ensures Insert(Without(xs, i), i, xs[i]) == xs
  {
    var w := Without(xs, i);
    assert w[..i] == xs[..i];
    assert w[i..] == xs[i + 1..];
  }

  lemma MultisetWithout<T>(xs: seq<T>, i: int)
    requires 0 <= i < |xs|
    ensures multiset(Without(xs, i)) + multiset{xs[i]} == multiset(xs)
  {
    assert xs == xs[..i] + [xs[i]] + xs[i + 1..];
  }

  lemma MultisetInsert<T>(xs: seq<T>, b: int, x: T)
    requires 0 <= b <= |xs|
    ensures multiset(Insert(xs, b, x)) == multiset(xs) + multiset{x}
  {
    assert xs == xs[..b] + xs[b..];
  }

  /** Where a move puts the element back, in the list without it. */
  function MovePos(si: int, newIndex: int, n: nat): int
    requires 0 <= si < n
  {
    Clamp(if newIndex > si then newIndex - 1 else newIndex, n - 1)
  }

  /** Immutable's two splices of a move: take the element at `si` out, put `x` back where `newIndex` says. */
  function Moved<T>(xs: seq<T>, si: int, newIndex: int, x: T): seq<T>
  {
    Splice(Splice(xs, si, 1, []), if newIndex > si then newIndex - 1 else newIndex, 0, [x])
  }

  lemma MovedIsInsert<T>(xs: seq<T>, si: int, newIndex: int, x: T)
    requires 0 <= si < |xs|
    ensures Moved(xs, si, newIndex, x) == Insert(Without(xs, si), MovePos(si, newIndex, |xs|), x)
  {
    SpliceRemoveOne(xs, si);
    SpliceInsertOne(Without(xs, si), if newIndex > si then newIndex - 1 else newIndex, x);
  }

  /**
   * `r` is `xs` with the element at `si` moved to position `p`, next to the
   * one at `di`: just before it when `prepend` is set, just after it
   * otherwise, the other elements keeping their order.
   */
  ghost predicate PlacedAt<T>(r: seq<T>, xs: seq<T>, si: int, di: int, x: T, prepend: bool, p: int)
    requires 0 <= si < |xs| && 0 <= di < |xs|
  {
    && |r| == |xs|
    && 0 <= p < |r| && r[p] == x
    && Without(r, p) == Without(xs, si)
    && (if prepend then p + 1 < |r| && r[p + 1] == xs[di] else 0 < p && r[p - 1] == xs[di])
  }

  /** `r` is `xs` with the element at `si` moved next to the one at `di`. */
  ghost predicate PlacedNextTo<T>(r: seq<T>, xs: seq<T>, si: int, di: int, x: T, prepend: bool)
    requires 0 <= si < |xs| && 0 <= di < |xs|
  {
    exists p :: PlacedAt(r, xs, si, di, x, prepend, p)
  }

  lemma MovedPlacement<T>(xs: seq<T>, si: int, di: int, x: T, prepend: bool)
    requires 0 <= si < |xs| && 0 <= di < |xs| && si != di
    ensures PlacedNextTo(Moved(xs, si, di + (if prepend then 0 else 1), x), xs, si, di, x, prepend)
  {
    var newIndex := di + (if prepend then 0 else 1);
    var rest := Without(xs, si);
    var d := if di < si then di else di - 1;
    WithoutAt(xs, si, d);
    var p := if prepend then d else d + 1;
    assert p == MovePos(si, newIndex, |xs|);
    MovedIsInsert(xs, si, newIndex, x);
    InsertedAt(rest, p, x);
    assert PlacedAt(Moved(xs, si, newIndex, x), xs, si, di, x, prepend, p);
  }

  /** Moving an element of the list back into it is a permutation. */
  lemma MovedPermutation<T>(xs: seq<T>, si: int, newIndex: int)
    requires 0 <= si < |xs|
    ensures multiset(Moved(xs, si, newIndex, xs[si])) == multiset(xs)
  {
    MovedIsInsert(xs, si, newIndex, xs[si]);
    MultisetInsert(Without(xs, si), MovePos(si, newIndex, |xs|), xs[si]);
    MultisetWithout(xs, si);
  }

  /** Moving an element onto its own position leaves the list as it was. */
  lemma MovedOntoItself<T>(xs: seq<T>, si: int, prepend: bool)
    requires 0 <= si < |xs|
    ensures Moved(xs, si, si + (if prepend then 0 else 1), xs[si]) == xs
  {
    MovedIsInsert(xs, si, si + (if prepend then 0 else 1), xs[si]);
    InsertWithout(xs, si);
  }
}
