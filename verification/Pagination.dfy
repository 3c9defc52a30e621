// internal/pagination/pagination.go on a 64-bit platform: int is 64 bits wide and wraps.

module Pagination {
  import opened Prelude

  const DEFAULT_PAGE := 1
  const DEFAULT_LIMIT := 20
  const MAX_LIMIT := 100

  predicate IsInt64(n: int) {
    -TWO_63 <= n < TWO_63
  }

  // The 64-bit two's-complement value of a mathematical integer.
  function Wrap(n: int): int {
    (n + TWO_63) % TWO_64 - TWO_63
  }

  // Go's integer division truncates toward zero.
  function Quotient(a: int, b: int): int
    requires b > 0
  {
    if a >= 0 then a / b else -(-a / b)
  }

  datatype PageQuery = PageQuery(page: int, limit: int) {
    ghost predicate Valid() {
      1 <= page < TWO_63 && 1 <= limit <= MAX_LIMIT
    }

    function Offset(): int {
      Wrap(Wrap(page - 1) * limit)
    }
  }

  function NewPageQuery(page: int, limit: int): (q: PageQuery)
    requires IsInt64(page) && IsInt64(limit)
    ensures q.Valid()
    ensures q.page == if page >= 1 then page else 1
    ensures 1 <= limit <= 100 ==> q.limit == limit
    ensures limit < 1 ==> q.limit == 20
    ensures limit > 100 ==> q.limit == 100
  {
    var p := if page < DEFAULT_PAGE then DEFAULT_PAGE else page;
    var l := if limit < 1 then DEFAULT_LIMIT else limit;
    PageQuery(p, if l > MAX_LIMIT then MAX_LIMIT else l)
  }

  datatype PageMeta = PageMeta(page: int, limit: int, totalCount: int, totalPages: int)

  function NewPageMeta(q: PageQuery, total: int): (m: PageMeta)
    requires q.limit > 0
    ensures m.page == q.page && m.limit == q.limit && m.totalCount == total
  {
    var tp := Quotient(Wrap(Wrap(total + q.limit) - 1), q.limit);
    PageMeta(q.page, q.limit, total, tp)
  }

  lemma WrapExact(n: int)
    ensures IsInt64(Wrap(n)) && (Wrap(n) == n <==> IsInt64(n)) && (Wrap(n) - n) % TWO_64 == 0
  {
  }

  // The offset is the number of rows the earlier pages hold exactly as long as that number fits
  // in 63 bits; the handler accepts larger pages, and for every one of them it is wrong.
  lemma OffsetExact(q: PageQuery)
    requires q.Valid()
    ensures q.Offset() == (q.page - 1) * q.limit <==> (q.page - 1) * q.limit < TWO_63
  {
  }

  // A page the handler accepts whose offset is that of the first page.
  lemma OffsetWrapsToFirstPage()
    ensures PageQuery(0x4000_0000_0000_0001, 4).Valid()
    ensures PageQuery(0x4000_0000_0000_0001, 4).Offset() == PageQuery(1, 4).Offset() == 0
  {
  }

  lemma WrapAbove(n: int)
    requires TWO_63 <= n < TWO_64
    ensures Wrap(n) == n - TWO_64
  {
  }

  // The int64 expression total + limit - 1.
  lemma RoundedUp(total: int, l: int)
    requires 0 <= total < TWO_63 && 1 <= l <= MAX_LIMIT
    ensures var n := total + l - 1; Wrap(Wrap(total + l) - 1) == if n < TWO_63 then n else n - TWO_64
  {
    if total + l < TWO_63 {
      WrapExact(total + l);
      WrapExact(total + l - 1);
    } else {
      WrapAbove(total + l);
      assert Wrap(total + l) - 1 == total + l - 1 - TWO_64;
      if total + l - 1 >= TWO_63 { WrapExact(total + l - 1 - TWO_64); }
    }
  }

  lemma QuotientNegative(x: int, l: int)
    requires 0 < l <= MAX_LIMIT && x <= -l
    ensures Quotient(x, l) < 0 && x <= Quotient(x, l) * l < x + l
  {
    DivisionBounds(-x, l);
  }

  // Where total + limit - 1 stays in range, and what becomes of the page count where it does not.
  lemma TotalPagesValue(q: PageQuery, total: int)
    requires q.Valid() && 0 <= total < TWO_63
    ensures var n := total + q.limit - 1; var tp := NewPageMeta(q, total).totalPages;
      if n < TWO_63 then tp == n / q.limit
      else tp < 0 && n - TWO_64 <= tp * q.limit < n - TWO_64 + q.limit
  {
    RoundedUp(total, q.limit);
    var n := total + q.limit - 1;
    if n >= TWO_63 {
      QuotientNegative(n - TWO_64, q.limit);
    }
  }

  lemma DivisionBounds(n: nat, l: int)
    requires 0 < l <= 100
    ensures n / l * l <= n < n / l * l + l
    ensures n >= l ==> n / l > 0
  {
  }

  // Total pages is the least number of pages that hold every row, exactly as long as
  // total + limit - 1 fits in 63 bits. Beyond that it is not even positive.
  lemma TotalPagesIsCeiling(q: PageQuery, total: int, upTo: int)
    requires q.Valid() && 0 <= total < TWO_63 && upTo == NewPageMeta(q, total).totalPages * q.limit
    ensures upTo >= 0 && total <= upTo < total + q.limit <==> total + q.limit - 1 < TWO_63
    ensures NewPageMeta(q, total).totalPages >= 0 <==> total + q.limit - 1 < TWO_63
  {
    TotalPagesValue(q, total);
    var n := total + q.limit - 1;
    if n < TWO_63 {
      DivisionBounds(n, q.limit);
    } else {
      Negative(NewPageMeta(q, total).totalPages, q.limit);
    }
  }

  lemma Negative(a: int, b: int)
    requires a < 0 < b
    ensures a * b < 0
  {
  }
}
