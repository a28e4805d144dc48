/** The pagination metadata every `findAll` builds from the `current` and
    `pageSize` query parameters and the number of matching documents. The
    parameters arrive as numbers converted from query strings; an absent `pageSize` is NaN, modelled as
    `None`. */
module Pagination {
  import opened Common

  datatype Meta = Meta(current: int, pageSize: Option<int>, pages: int, total: nat)

  /** The limit actually applied: NaN and 0 are falsy and give the default
      10, every other number is kept. */
  function EffectiveLimit(limit: Option<int>): (l: int)
    ensures l != 0
    ensures limit.None? ==> l == 10
    ensures limit.Some? ==> l == (if limit.value == 0 then 10 else limit.value)
  {
    match limit
    case None => 10
    case Some(n) => if n == 0 then 10 else n
  }

  /** The number of documents skipped, (current - 1) times the raw limit;
      NaN (`None`) when `pageSize` is absent. */
  function Offset(current: int, limit: Option<int>): (r: Option<int>)
    ensures r.Some? <==> limit.Some?
    ensures limit.Some? ==> r.value == (current - 1) * limit.value
    ensures limit.Some? && current >= 1 && limit.value >= 0 ==> r.value >= 0
  {
    match limit
    case None => None
    case Some(n) =>
      var off := (current - 1) * n;
      assert current >= 1 && n >= 0 ==> off >= 0 by {
        if current >= 1 && n >= 0 { MulNonNegative(current - 1, n); }
      }
      Some(off)
  }

  /** MongoDB refuses a negative `skip`; the query fails and the service
      answers BadRequest. A NaN skip (no `pageSize`) is not refused. */
  predicate SkipRejected(current: int, limit: Option<int>) {
    limit.Some? && Offset(current, limit).value < 0
  }

  /** The skip is negative exactly when the page number is below 1 under a
      positive limit, or above 1 under a negative one. */
  lemma {:induction false} SkipRejectedIff(current: int, limit: Option<int>)
    ensures SkipRejected(current, limit) <==>
              limit.Some? && ((current < 1 && limit.value > 0) || (current > 1 && limit.value < 0))
  {
    if limit.Some? {
      var a, n := current - 1, limit.value;
      assert Offset(current, limit).value == a * n;
      if a < 0 && n > 0 {
        MulNegative(-a, n);
      } else if a > 0 && n < 0 {
        MulNegative(a, -n);
      } else if a >= 0 && n >= 0 {
        MulNonNegative(a, n);
      } else if a <= 0 && n <= 0 {
        MulNonNegative(-a, -n);
      }
    }
  }

  lemma MulNegative(a: int, b: int)
    requires a > 0 && b > 0
    ensures -a * b < 0 && a * -b < 0
  {
  }

  lemma MulNonNegative(a: int, b: int)
    requires a >= 0 && b >= 0
    ensures a * b >= 0
  {
  }

  /** The ceiling of total / l (JavaScript's Math.ceil) for a non-zero integer
      divisor: the least integer not below the rational quotient. */
  function CeilDiv(total: nat, l: int): (q: int)
    requires l != 0
    ensures l > 0 ==> (q - 1) * l < total <= q * l
    ensures l < 0 ==> q * l <= total < (q - 1) * l
  {
    if l > 0 then
      var q := (total + l - 1) / l;
      CeilBounds(total, l, q);
      q
    else
      var m := -l;
      var f := total / m;
      assert f * m <= total < (f + 1) * m by { FloorBounds(total, m, f); }
      assert (-f) * l == f * m;
      assert (-f - 1) * l == (f + 1) * m;
      -f
  }

  lemma FloorBounds(a: nat, m: int, f: int)
    requires m > 0 && f == a / m
    ensures f * m <= a < (f + 1) * m
  {
    assert a == f * m + a % m;
  }

  lemma CeilBounds(total: nat, l: int, q: int)
    requires l > 0 && q == (total + l - 1) / l
    ensures (q - 1) * l < total <= q * l
  {
    var a := total + l - 1;
    assert a == q * l + a % l;
    assert 0 <= a % l < l;
  }

  /** The `meta` object of every `findAll` response. */
  function PageMeta(current: int, limit: Option<int>, total: nat): (m: Meta)
    ensures m.current == current && m.pageSize == limit && m.total == total
    ensures m.pages == CeilDiv(total, EffectiveLimit(limit))
  {
    Meta(current, limit, CeilDiv(total, EffectiveLimit(limit)), total)
  }

  /** With a positive effective limit the page count is exactly enough: item
      number `i` (from 0) sits on page `i / l + 1`, which is a page that
      exists, and the last page is not empty; no items means no pages
      (`NoItemsNoPages`). */
  lemma {:induction false} PagesCoverItems(current: int, limit: Option<int>, total: nat, i: nat)
    requires EffectiveLimit(limit) > 0 && i < total
    ensures var l := EffectiveLimit(limit);
            var m := PageMeta(current, limit, total);
            && 1 <= i / l + 1 <= m.pages
            && (m.pages - 1) * l < total
  {
    var l := EffectiveLimit(limit);
    var q := CeilDiv(total, l);
    var p := i / l;
    assert p * l <= i by { FloorBounds(i, l, p); }
    assert p >= 0;
    if q <= p {
      MonotoneMul(q, p, l);
    }
  }

  lemma MonotoneMul(a: int, b: int, l: int)
    requires a <= b && l > 0
    ensures a * l <= b * l
  {
  }

  /** With a positive page size `l`, the `l` documents the query keeps after
      skipping `Offset(current, Some(l))` are exactly the items (numbered from
      0) that sit on page `current`, that is, the items `i` with
      `i / l + 1 == current`. */
  lemma {:induction false} OffsetSelectsPage(current: int, l: int, i: nat)
    requires current >= 1 && l > 0
    ensures var off := Offset(current, Some(l)).value;
            off <= i < off + l <==> i / l + 1 == current
  {
    var off := Offset(current, Some(l)).value;
    var p := i / l;
    assert p * l <= i < (p + 1) * l by { FloorBounds(i, l, p); }
    assert off == (current - 1) * l;
    assert off + l == current * l;
    if p < current - 1 {
      MonotoneMul(p + 1, current - 1, l);
    } else if p > current - 1 {
      MonotoneMul(current, p, l);
    }
  }

  /** The page `current` asked for holds at least one of the `total` items
      exactly when it is one of the pages the `meta` object counts. */
  lemma {:induction false} OffsetWithinPages(current: int, l: int, total: nat)
    requires current >= 1 && l > 0
    ensures Offset(current, Some(l)).value < total <==> current <= PageMeta(current, Some(l), total).pages
  {
    var q := PageMeta(current, Some(l), total).pages;
    assert (q - 1) * l < total <= q * l;
    var off := Offset(current, Some(l)).value;
    assert off == (current - 1) * l;
    if current <= q {
      MonotoneMul(current - 1, q - 1, l);
    } else {
      MonotoneMul(q, current - 1, l);
    }
  }

  /** Corollary of `CeilDiv`'s bounds: an empty result set has no pages,
      whatever the page size. */
  lemma NoItemsNoPages(current: int, limit: Option<int>)
    ensures PageMeta(current, limit, 0).pages == 0
  {
  }
}
