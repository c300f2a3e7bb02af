/** Offset/limit pagination shared by the chat, project and message listings. */
module Pagination {
  import opened Common

  /** `(total + page_size - 1) // page_size`: the number of pages of page_size
      items needed for total items. */
  function TotalPages(total: nat, pageSize: nat): (r: nat)
    requires pageSize >= 1
    ensures r * pageSize >= total
    ensures r == 0 || (r - 1) * pageSize < total
    ensures r == 0 <==> total == 0
  {
    var q := (total + pageSize - 1) / pageSize;
    var m := (total + pageSize - 1) % pageSize;
    assert total + pageSize - 1 == q * pageSize + m && 0 <= m < pageSize;
    assert q * pageSize >= total;
    assert q == 0 || (q - 1) * pageSize < total by {
      if q > 0 {
        assert (q - 1) * pageSize == q * pageSize - pageSize;
      }
    }
    q
  }

  /** p is page `page` of the rows: at most pageSize consecutive rows from the
      page's offset on, fewer only where the rows run out. */
  ghost predicate IsPage<T>(p: seq<T>, rows: seq<T>, page: nat, pageSize: nat)
    requires page >= 1
  {
    && |p| <= pageSize
    && (|p| < pageSize ==> (page - 1) * pageSize + |p| >= |rows|)
    && forall i :: 0 <= i < |p| ==> (page - 1) * pageSize + i < |rows| && p[i] == rows[(page - 1) * pageSize + i]
  }

  /** `.offset((page - 1) * page_size).limit(page_size)` applied to the ordered rows. */
  function PageSlice<T>(rows: seq<T>, page: nat, pageSize: nat): (r: seq<T>)
    requires page >= 1 && pageSize >= 1
    ensures IsPage(r, rows, page, pageSize)
  {
    var offset := (page - 1) * pageSize;
    if offset >= |rows| then []
    else if offset + pageSize >= |rows| then rows[offset..]
    else rows[offset..offset + pageSize]
  }

  /** A page is determined by the rows, the page number and the page size. */
  lemma PageUnique<T>(p: seq<T>, q: seq<T>, rows: seq<T>, page: nat, pageSize: nat)
    requires page >= 1
    requires IsPage(p, rows, page, pageSize) && IsPage(q, rows, page, pageSize)
    ensures p == q
  {
    var offset := (page - 1) * pageSize;
    if |p| > 0 {
      var last := p[|p| - 1];
      assert offset + (|p| - 1) < |rows|;
    }
    if |q| > 0 {
      var last := q[|q| - 1];
      assert offset + (|q| - 1) < |rows|;
    }
    assert |p| == |q|;
  }

  lemma MulMonotonic(a: nat, b: nat, k: nat)
    requires a <= b
    ensures a * k <= b * k
  {
  }

  /** Pages 1 .. total_pages are exactly the non-empty ones; each is the run of
      rows beginning at its offset, and every page but the last is full. */
  lemma PagesCoverRows<T>(rows: seq<T>, page: nat, pageSize: nat)
    requires page >= 1 && pageSize >= 1
    ensures PageSlice(rows, page, pageSize) != [] <==> page <= TotalPages(|rows|, pageSize)
    ensures page < TotalPages(|rows|, pageSize) ==> |PageSlice(rows, page, pageSize)| == pageSize
    ensures PageSlice(rows, page, pageSize) != [] ==>
      PageSlice(rows, page, pageSize)[0] == rows[(page - 1) * pageSize]
  {
    var n := TotalPages(|rows|, pageSize);
    if page <= n {
      MulMonotonic(page - 1, n - 1, pageSize);
    } else {
      MulMonotonic(n, page - 1, pageSize);
    }
    if page < n {
      MulMonotonic(page, n - 1, pageSize);
      assert page * pageSize == (page - 1) * pageSize + pageSize;
    }
  }

  /** A page of an ordered listing is ordered, and holds only listed rows. */
  lemma PageOfSorted<T>(rows: seq<T>, page: nat, pageSize: nat, le: (T, T) -> bool)
    requires page >= 1 && pageSize >= 1
    requires SortedBy(rows, le)
    ensures SortedBy(PageSlice(rows, page, pageSize), le)
    ensures forall x :: x in PageSlice(rows, page, pageSize) ==> x in rows
  {
    var r := PageSlice(rows, page, pageSize);
    var offset := (page - 1) * pageSize;
    forall i, j | 0 <= i < j < |r| ensures le(r[i], r[j]) {
      assert r[i] == rows[offset + i] && r[j] == rows[offset + j];
    }
  }
}
