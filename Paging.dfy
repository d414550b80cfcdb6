/** The page arithmetic shared by the list routes: the requested page and page size are clamped
    (`Math.max`/`Math.min`) and turned into a row offset. A query parameter that is absent is
    `None`; one that is present has already been read as an integer. */
module Paging {
  import opened Wrappers

  const DefaultPage: int := 1
  const DefaultPageSize: int := 20
  const MaxPageSize: int := 100

  /** `Math.max(1, page ?? 1)`. */
  function ClampPage(requested: Option<int>): (page: int)
    ensures page >= 1
    ensures requested.None? ==> page == DefaultPage
    ensures requested.Some? && requested.value >= 1 ==> page == requested.value
    ensures requested.Some? && requested.value < 1 ==> page == 1
  {
    var p := if requested.Some? then requested.value else DefaultPage;
    if p < 1 then 1 else p
  }

  /** `Math.min(100, Math.max(1, pageSize ?? 20))`. */
  function ClampPageSize(requested: Option<int>): (size: int)
    ensures 1 <= size <= MaxPageSize
    ensures requested.None? ==> size == DefaultPageSize
    ensures requested.Some? && 1 <= requested.value <= MaxPageSize ==> size == requested.value
    ensures requested.Some? && requested.value > MaxPageSize ==> size == MaxPageSize
    ensures requested.Some? && requested.value < 1 ==> size == 1
  {
    var s := if requested.Some? then requested.value else DefaultPageSize;
    var atLeastOne := if s < 1 then 1 else s;
    if atLeastOne > MaxPageSize then MaxPageSize else atLeastOne
  }

  /** `(page - 1) * pageSize`: the number of rows on the pages before `page`. */
  function Skip(page: int, pageSize: int): (skip: nat)
    requires page >= 1 && pageSize >= 1
    ensures skip % pageSize == 0 && skip / pageSize == page - 1
  {
    MultipleOf(page - 1, pageSize);
    (page - 1) * pageSize
  }

  /** How many rows `skip`/`take` return out of `total`: none past the end, otherwise `take`
      or whatever is left, whichever is fewer. */
  function PageLength(total: nat, skip: nat, take: nat): (n: nat)
    ensures n <= take
    ensures n > 0 ==> skip + n <= total
    ensures skip < total && take > 0 ==> n > 0
    ensures skip + take <= total ==> n == take
    ensures skip < total ==> n == (if total - skip < take then total - skip else take)
  {
    if skip >= total then 0 else if total - skip < take then total - skip else take
  }

  /** `q * d` divided by `d` leaves quotient `q` and no remainder. */
  lemma MultipleOf(q: nat, d: int)
    requires d >= 1
    ensures q * d >= 0 && (q * d) % d == 0 && (q * d) / d == q
  {
    var x := q * d;
    var q' := x / d;
    assert x == q' * d + x % d;
    if q' < q {
      MulStep(q, q', d);
    } else if q' > q {
      MulStep(q', q, d);
    }
  }

  /** Multiplying by a positive `d` keeps a gap of at least one as a gap of at least `d`. */
  lemma MulStep(a: int, b: int, d: int)
    requires a >= b + 1 && d >= 1
    ensures a * d >= b * d + d
  {
    var k := a - b - 1;
    assert a * d == b * d + d + k * d;
    assert k * d >= 0;
  }
}
