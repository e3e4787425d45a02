/** Pages of a list, as both job repositories cut them. */
module Paging {

  function PageCount(total: nat, limit: nat): (n: nat)
    requires limit >= 1
    ensures total == 0 ==> n == 0
    ensures total > 0 ==> n >= 1 && (n - 1) * limit < total <= n * limit
  {
    if total > 0 then (total - 1) / limit + 1 else 0
  }

  /** `xs[(page - 1) * limit : page * limit]`, cut to the list as slices are. */
  function Page<T>(xs: seq<T>, page: nat, limit: nat): seq<T>
    requires page >= 1 && limit >= 1
  {
    var start := (page - 1) * limit;
    var end := start + limit;
    if start >= |xs| then [] else if end >= |xs| then xs[start..] else xs[start..end]
  }

  /** Pages 1 to `n`, one after the other. */
  function PagesUpTo<T>(xs: seq<T>, limit: nat, n: nat): seq<T>
    requires limit >= 1
  {
    if n == 0 then [] else PagesUpTo(xs, limit, n - 1) + Page(xs, n, limit)
  }

  function Cut(total: nat, end: nat): nat {
    if end < total then end else total
  }

  lemma {:induction false} PagesArePrefix<T>(xs: seq<T>, limit: nat, n: nat)
    requires limit >= 1
    ensures n * limit >= 0 && PagesUpTo(xs, limit, n) == xs[..Cut(|xs|, n * limit)]
  {
    if n > 0 {
      PagesArePrefix(xs, limit, n - 1);
      OneMore(n - 1, limit);
      PageAppended(xs, (n - 1) * limit, limit);
    }
  }

  lemma PageAppended<T>(xs: seq<T>, start: nat, limit: nat)
    ensures xs[..Cut(|xs|, start)] + xs[Cut(|xs|, start)..Cut(|xs|, start + limit)] == xs[..Cut(|xs|, start + limit)]
  {
  }

  lemma OneMore(n: nat, limit: nat)
    ensures (n + 1) * limit == n * limit + limit
  {
  }

  lemma Product(a: nat, b: nat, limit: nat)
    requires a <= b
    ensures a * limit <= b * limit
  {
  }

  /** A page is a cut of the list between two multiples of the limit. */
  lemma PageIsCut<T>(xs: seq<T>, p: nat, limit: nat)
    requires p >= 1 && limit >= 1
    ensures (p - 1) * limit >= 0
    ensures Page(xs, p, limit) == xs[Cut(|xs|, (p - 1) * limit)..Cut(|xs|, (p - 1) * limit + limit)]
  {
  }

  lemma FullPage<T>(xs: seq<T>, p: nat, n: nat, limit: nat)
    requires limit >= 1 && 1 <= p < n && (n - 1) * limit < |xs|
    ensures |Page(xs, p, limit)| == limit
  {
    PageIsCut(xs, p, limit);
    OneMore(p - 1, limit);
    Product(p, n - 1, limit);
  }

  lemma LastPage<T>(xs: seq<T>, n: nat, limit: nat)
    requires limit >= 1 && n >= 1 && (n - 1) * limit < |xs| <= n * limit
    ensures 1 <= |Page(xs, n, limit)| <= limit
  {
    PageIsCut(xs, n, limit);
    OneMore(n - 1, limit);
  }

  lemma LatePage<T>(xs: seq<T>, p: nat, n: nat, limit: nat)
    requires limit >= 1 && p > n && |xs| <= n * limit
    ensures Page(xs, p, limit) == []
  {
    PageIsCut(xs, p, limit);
    Product(n, p - 1, limit);
  }

  /** Pages 1 to `PageCount` are the list: every page but the last is full, the last is not empty, and every
      later page is. */
  lemma PagesCover<T>(xs: seq<T>, limit: nat)
    requires limit >= 1
    ensures var n := PageCount(|xs|, limit);
            && PagesUpTo(xs, limit, n) == xs
            && (forall p :: 1 <= p < n ==> |Page(xs, p, limit)| == limit)
            && (n >= 1 ==> 1 <= |Page(xs, n, limit)| <= limit)
            && (forall p :: p > n ==> Page(xs, p, limit) == [])
  {
    var n := PageCount(|xs|, limit);
    PagesArePrefix(xs, limit, n);
    forall p | 1 <= p < n
      ensures |Page(xs, p, limit)| == limit
    {
      FullPage(xs, p, n, limit);
    }
    if n >= 1 {
      LastPage(xs, n, limit);
    }
    forall p | p > n
      ensures Page(xs, p, limit) == []
    {
      LatePage(xs, p, n, limit);
    }
  }
}
