/** The row order a database `ORDER BY` produces, modelled as a sort by a total preorder.
    Rows that compare equal may come out in any order in the database; the model fixes one. */
module Sorting {

  /** `le` orders every pair of values and is transitive. */
  ghost predicate TotalPreorder<T(!new)>(le: (T, T) -> bool) {
    && (forall a, b :: le(a, b) || le(b, a))
    && (forall a, b, c :: le(a, b) && le(b, c) ==> le(a, c))
  }

  /** Every element of `s` comes no later in the `le` order than every element after it. */
  predicate SortedBy<T>(s: seq<T>, le: (T, T) -> bool) {
    forall i, j :: 0 <= i < j < |s| ==> le(s[i], s[j])
  }

  /** `s` with `x` placed before the first element it precedes. */
  function Insert<T(!new)>(x: T, s: seq<T>, le: (T, T) -> bool): (r: seq<T>)
    requires TotalPreorder(le) && SortedBy(s, le)
    ensures SortedBy(r, le)
    ensures multiset(r) == multiset(s) + multiset{x}
  {
    if s == [] || le(x, s[0]) then [x] + s
    else
      var rest := Insert(x, s[1..], le);
      assert s == [s[0]] + s[1..];
      assert le(s[0], x);
      FirstPrecedesAll(s[0], x, s[1..], rest, le);
      [s[0]] + rest
  }

  /** `h` comes no later than `x` and than every element of `others`, so it comes no later
      than every element of a permutation of `others` with `x` added. */
  lemma FirstPrecedesAll<T>(h: T, x: T, others: seq<T>, rest: seq<T>, le: (T, T) -> bool)
    requires le(h, x)
    requires forall k :: 0 <= k < |others| ==> le(h, others[k])
    requires multiset(rest) == multiset(others) + multiset{x}
    ensures forall k :: 0 <= k < |rest| ==> le(h, rest[k])
  {
    forall k | 0 <= k < |rest| ensures le(h, rest[k]) {
      assert rest[k] in multiset(rest);
      if rest[k] != x {
        assert rest[k] in others;
        var i :| 0 <= i < |others| && others[i] == rest[k];
      }
    }
  }

  /** The elements of `s`, ordered by `le` (insertion sort). */
  function SortBy<T(!new)>(s: seq<T>, le: (T, T) -> bool): (r: seq<T>)
    requires TotalPreorder(le)
    ensures SortedBy(r, le)
    ensures multiset(r) == multiset(s)
    ensures |r| == |s|
  {
    if s == [] then []
    else
      assert s == [s[0]] + s[1..];
      Insert(s[0], SortBy(s[1..], le), le)
  }
}
