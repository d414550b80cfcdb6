/** Sequence operations that the application performs with JavaScript array methods
    (`filter`, `find`, index-based removal) or with Prisma's `skip`/`take`. */
module Seqs {
  import opened Wrappers

  /** The elements of `s` that satisfy `p`, in their original order (`Array.prototype.filter`). */
  function Filter<T(!new)>(s: seq<T>, p: T -> bool): (r: seq<T>)
    ensures |r| <= |s|
    ensures forall x :: x in r <==> x in s && p(x)
    ensures forall i :: 0 <= i < |r| ==> p(r[i])
    ensures multiset(r) <= multiset(s)
  {
    if s == [] then []
    else
      assert s == [s[0]] + s[1..];
      (if p(s[0]) then [s[0]] else []) + Filter(s[1..], p)
  }

  /** Filtering distributes over concatenation. */
  lemma {:induction false} FilterAppend<T(!new)>(a: seq<T>, b: seq<T>, p: T -> bool)
    ensures Filter(a + b, p) == Filter(a, p) + Filter(b, p)
  {
    if a == [] {
      assert a + b == b;
    } else {
      assert (a + b)[0] == a[0];
      assert (a + b)[1..] == a[1..] + b;
      FilterAppend(a[1..], b, p);
    }
  }

  /** When every element satisfies `p`, filtering keeps the whole sequence. */
  lemma {:induction false} FilterAll<T(!new)>(s: seq<T>, p: T -> bool)
    requires forall x :: x in s ==> p(x)
    ensures Filter(s, p) == s
  {
    if s != [] {
      FilterAll(s[1..], p);
    }
  }

  /** Replacing the element at `k` changes the number of kept elements by exactly the
      difference the old and the new element make. */
  lemma {:induction false} FilterCountUpdate<T(!new)>(s: seq<T>, k: nat, x: T, p: T -> bool)
    requires k < |s|
    ensures |Filter(s[k := x], p)| ==
            |Filter(s, p)| - (if p(s[k]) then 1 else 0) + (if p(x) then 1 else 0)
  {
    if k == 0 {
      assert s[k := x][1..] == s[1..];
    } else {
      assert s[k := x][1..] == s[1..][k - 1 := x];
      FilterCountUpdate(s[1..], k - 1, x, p);
    }
  }

  /** `s` without the element at index `i`; an index outside `s` removes nothing
      (`s.filter((_, j) => j !== i)`). */
  function RemoveAt<T>(s: seq<T>, i: int): (r: seq<T>)
    ensures 0 <= i < |s| ==> |r| == |s| - 1
    ensures 0 <= i < |s| ==> forall j :: 0 <= j < i ==> r[j] == s[j]
    ensures 0 <= i < |s| ==> forall j :: i <= j < |r| ==> r[j] == s[j + 1]
    ensures !(0 <= i < |s|) ==> r == s
  {
    if s == [] then []
    else if i == 0 then s[1..]
    else [s[0]] + RemoveAt(s[1..], i - 1)
  }

  /** The index of the first element satisfying `p` (`Array.prototype.findIndex`, or a lookup by
      a unique key). */
  function IndexWhere<T>(s: seq<T>, p: T -> bool): (r: Option<nat>)
    ensures r.Some? ==> r.value < |s| && p(s[r.value])
    ensures r.Some? ==> forall j :: 0 <= j < r.value ==> !p(s[j])
    ensures r.None? <==> forall j :: 0 <= j < |s| ==> !p(s[j])
  {
    if s == [] then None
    else if p(s[0]) then Some(0)
    else match IndexWhere(s[1..], p)
      case None => None
      case Some(k) => Some(k + 1)
  }

  /** Prisma's `skip`/`take`: the elements of `s` from position `skip` on, at most `take` of them. */
  function Page<T>(s: seq<T>, skip: nat, take: nat): (r: seq<T>)
    ensures |r| <= take
    ensures |r| == if skip >= |s| then 0 else if |s| - skip < take then |s| - skip else take
    ensures forall k :: 0 <= k < |r| ==> r[k] == s[skip + k]
  {
    if skip >= |s| then []
    else if skip + take >= |s| then s[skip..]
    else s[skip..skip + take]
  }
}
