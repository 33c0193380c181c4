/** The array operations the components apply to their state:
    `filter`, `find`, `map` with an id test, and `splice(idx, 1)`. */
module Collections {
  import opened Js

  /** `a` is `b` with some elements left out, the rest in their original order. */
  predicate IsSubsequence<T(==)>(a: seq<T>, b: seq<T>)
    decreases |b|
  {
    if a == [] then true
    else if b == [] then false
    else (a[0] == b[0] && IsSubsequence(a[1..], b[1..])) || IsSubsequence(a, b[1..])
  }

  /** `xs.filter(p)` */
  function Filter<T(==,!new)>(xs: seq<T>, p: T -> bool): (r: seq<T>)
    ensures |r| <= |xs|
    ensures IsSubsequence(r, xs)
    ensures forall x :: x in r ==> x in xs && p(x)
    ensures forall x :: x in xs && p(x) ==> x in r
    ensures (forall i :: 0 <= i < |xs| ==> p(xs[i])) ==> r == xs
    ensures forall x :: multiset(r)[x] == if p(x) then multiset(xs)[x] else 0
  {
    if xs == [] then []
    else
      assert xs == [xs[0]] + xs[1..];
      if p(xs[0]) then [xs[0]] + Filter(xs[1..], p)
      else Filter(xs[1..], p)
  }

  /** The position of the element `xs.find(p)` returns: the first one satisfying `p`. */
  function FindIndex<T>(xs: seq<T>, p: T -> bool): (r: Option<nat>)
    ensures r.Some? ==> r.value < |xs| && p(xs[r.value])
    ensures r.Some? ==> forall j :: 0 <= j < r.value ==> !p(xs[j])
    ensures r.None? ==> forall j :: 0 <= j < |xs| ==> !p(xs[j])
    ensures forall i :: 0 <= i < |xs| && p(xs[i]) && (forall j :: 0 <= j < i ==> !p(xs[j])) ==> r == Some(i)
  {
    if xs == [] then None
    else if p(xs[0]) then Some(0)
    else match FindIndex(xs[1..], p)
      case None => None
      case Some(i) => Some(i + 1)
  }

  /** `xs.map(x => idOf(x) === idOf(updated) ? updated : x)` */
  function ReplaceById<T>(xs: seq<T>, idOf: T -> JsValue, updated: T): (r: seq<T>)
    ensures |r| == |xs|
    ensures forall i :: 0 <= i < |xs| && StrictEquals(idOf(xs[i]), idOf(updated)) ==> r[i] == updated
    ensures forall i :: 0 <= i < |xs| && !StrictEquals(idOf(xs[i]), idOf(updated)) ==> r[i] == xs[i]
  {
    if xs == [] then []
    else [if StrictEquals(idOf(xs[0]), idOf(updated)) then updated else xs[0]]
         + ReplaceById(xs[1..], idOf, updated)
  }

  /** `xs.filter(x => idOf(x) !== id)` */
  function RemoveById<T(==,!new)>(xs: seq<T>, idOf: T -> JsValue, id: JsValue): (r: seq<T>)
    ensures IsSubsequence(r, xs)
    ensures forall x :: x in r ==> !StrictEquals(idOf(x), id)
    ensures forall x :: x in xs && !StrictEquals(idOf(x), id) ==> x in r
    ensures (forall i :: 0 <= i < |xs| ==> !StrictEquals(idOf(xs[i]), id)) ==> r == xs
    ensures forall x :: multiset(r)[x] == if StrictEquals(idOf(x), id) then 0 else multiset(xs)[x]
  {
    Filter(xs, x => !StrictEquals(idOf(x), id))
  }

  /** `next = xs.slice(); next.splice(idx, 1)`: `xs` without its element at `idx`. */
  function RemoveAt<T>(xs: seq<T>, idx: nat): (r: seq<T>)
    requires idx < |xs|
    ensures |r| == |xs| - 1
    ensures forall k :: 0 <= k < idx ==> r[k] == xs[k]
    ensures forall k :: idx <= k < |r| ==> r[k] == xs[k + 1]
    ensures multiset(r) + multiset{xs[idx]} == multiset(xs)
  {
    assert xs == xs[..idx] + [xs[idx]] + xs[idx + 1..];
    xs[..idx] + xs[idx + 1..]
  }
}
