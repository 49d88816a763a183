/**
 * Page arithmetic shared by the feed (pages/Home.tsx) and the dashboard
 * (pages/AdminDashboard.tsx), and the page selector component
 * (components/Pagination.tsx).
 */
module Pagination {
  import Text
  import opened Types

  /** `Math.ceil(count / size)` for a non-negative count and a positive size. */
  function TotalPages(count: nat, size: nat): (t: nat)
    requires size > 0
    ensures t == 0 <==> count == 0
    ensures count <= t * size
    ensures t > 0 ==> (t - 1) * size < count
  {
    var q := (count + size - 1) / size;
    var r := (count + size - 1) % size;
    assert count + size - 1 == q * size + r;
    assert (q - 1) * size == q * size - size;
    q
  }

  /** `items.slice(page * size - size, page * size)`, exactly as both pages compute it. */
  function PageSlice<T>(items: seq<T>, page: int, size: nat): seq<T>
    requires size > 0
  {
    Text.Slice(items, page * size - size, page * size)
  }

  function Min(a: int, b: int): int { if a < b then a else b }

  /** A page numbered from 1 holds the items from `(page-1)*size`, at most `size` of them. */
  lemma PageContents<T>(items: seq<T>, page: int, size: nat)
    requires size > 0 && page >= 1
    ensures (page - 1) * size <= page * size
    ensures PageSlice(items, page, size)
         == items[Min((page - 1) * size, |items|) .. Min(page * size, |items|)]
  {
    assert (page - 1) * size == page * size - size;
    assert page * size - size >= 0;
  }

  /** Page 0 and every page past the last are empty; neither fails. */
  lemma OutOfRangePagesEmpty<T>(items: seq<T>, page: int, size: nat)
    requires size > 0
    requires page == 0 || page > TotalPages(|items|, size)
    ensures PageSlice(items, page, size) == []
  {
    if page > 0 {
      var t := TotalPages(|items|, size);
      assert page - 1 >= t;
      MulMonotone(t, page - 1, size);
      assert (page - 1) * size == page * size - size;
    }
  }

  lemma MulMonotone(a: nat, b: nat, c: nat)
    requires a <= b
    ensures a * c <= b * c
  {
  }

  /** The page that holds position `k`. */
  function PageOf(k: nat, size: nat): (p: nat)
    requires size > 0
    ensures p >= 1
  {
    k / size + 1
  }

  lemma MulDistributes(a: int, c: int)
    ensures (a - 1) * c == a * c - c
    ensures (a + 1) * c == a * c + c
  {
  }

  /** Page `p` covers position `k` exactly when `p` is the page of `k`. */
  lemma PageCovers(k: nat, size: nat, p: int)
    requires size > 0 && p >= 1
    ensures (p - 1) * size <= k < p * size <==> p == PageOf(k, size)
  {
    var q := k / size;
    assert q * size <= k < q * size + size;
    MulDistributes(p, size);
    MulDistributes(q, size);
    if p <= q {
      MulMonotone(p, q, size);
    } else if p > q + 1 {
      MulMonotone(q + 1, p - 1, size);
    }
  }

  /**
   * Every position lies on exactly one page, that page is among 1..TotalPages,
   * and the page shows it at offset `k % size`.
   */
  lemma EachItemOnOnePage<T>(items: seq<T>, k: nat, size: nat)
    requires size > 0 && k < |items|
    ensures 1 <= PageOf(k, size) <= TotalPages(|items|, size)
    ensures forall p: int :: p >= 1 ==> ((p - 1) * size <= k < p * size <==> p == PageOf(k, size))
    ensures k % size < |PageSlice(items, PageOf(k, size), size)|
    ensures PageSlice(items, PageOf(k, size), size)[k % size] == items[k]
  {
    var q := k / size;
    assert k == q * size + k % size;
    var t := TotalPages(|items|, size);
    if q + 1 > t {
      MulMonotone(t, q, size);
      assert false;
    }
    forall p: int | p >= 1
      ensures (p - 1) * size <= k < p * size <==> p == PageOf(k, size)
    {
      PageCovers(k, size, p);
    }
    PageContents(items, q + 1, size);
    MulDistributes(q + 1, size);
  }

  /** The worked example: 15 items, 6 to a page, make pages of 6, 6 and 3. */
  lemma FifteenItemsBySix<T>(items: seq<T>)
    requires |items| == 15
    ensures TotalPages(|items|, 6) == 3
    ensures |PageSlice(items, 1, 6)| == 6 && |PageSlice(items, 2, 6)| == 6
    ensures |PageSlice(items, 3, 6)| == 3 && PageSlice(items, 4, 6) == []
  {
  }

  // ---- components/Pagination.tsx ----

  /** The `for` loop that lists the page numbers 1..totalPages. */
  method PageNumbers(totalPages: int) returns (numbers: seq<int>)
    ensures |numbers| == if totalPages > 0 then totalPages else 0
    ensures forall i :: 0 <= i < |numbers| ==> numbers[i] == i + 1
  {
    numbers := [];
    var i := 1;
    while i <= totalPages
      invariant 1 <= i <= (if totalPages >= 1 then totalPages + 1 else 1)
      invariant |numbers| == i - 1
      invariant forall j :: 0 <= j < |numbers| ==> numbers[j] == j + 1
    {
      numbers := numbers + [i];
      i := i + 1;
    }
  }

  datatype NumberButton = NumberButton(number: int, highlighted: bool)

  /** What the component renders: nothing, or Previous, the numbered buttons and Next. */
  datatype View =
    | Hidden
    | Nav(previousDisabled: bool, buttons: seq<NumberButton>, nextDisabled: bool)

  method Render(currentPage: int, totalPages: int) returns (v: View)
    ensures v.Hidden? <==> totalPages <= 1
    ensures v.Nav? ==>
      && v.previousDisabled == (currentPage == 1)
      && v.nextDisabled == (currentPage == totalPages)
      && |v.buttons| == totalPages
      && (forall i :: 0 <= i < totalPages ==> v.buttons[i].number == i + 1)
      && (forall i :: 0 <= i < totalPages ==> (v.buttons[i].highlighted <==> i + 1 == currentPage))
  {
    var numbers := PageNumbers(totalPages);
    if totalPages <= 1 {
      return Hidden;
    }
    var buttons := seq(|numbers|, i requires 0 <= i < |numbers| =>
      NumberButton(numbers[i], currentPage == numbers[i]));
    v := Nav(currentPage == 1, buttons, currentPage == totalPages);
  }

  datatype Control = Previous | Number(page: int) | Next

  /** The page a click emits through `onPageChange`, or None for a disabled or absent control. */
  function OnClick(currentPage: int, totalPages: int, c: Control): (next: Option<int>)
    ensures totalPages <= 1 ==> next.None?
    ensures c.Previous? && next.Some? ==> next.value == currentPage - 1
    ensures c.Next? && next.Some? ==> next.value == currentPage + 1
    ensures c.Previous? ==> (next.None? <==> totalPages <= 1 || currentPage == 1)
    ensures c.Next? ==> (next.None? <==> totalPages <= 1 || currentPage == totalPages)
    ensures c.Number? && totalPages > 1 ==> (next == Some(c.page) <==> 1 <= c.page <= totalPages)
  {
    if totalPages <= 1 then None
    else match c
      case Previous => if currentPage == 1 then None else Some(currentPage - 1)
      case Number(n) => if 1 <= n <= totalPages then Some(n) else None
      case Next => if currentPage == totalPages then None else Some(currentPage + 1)
  }

  /** From a page in range, every click leads to a page in range. */
  lemma ClicksStayInRange(currentPage: int, totalPages: int, c: Control)
    requires 1 <= currentPage <= totalPages
    ensures OnClick(currentPage, totalPages, c).Some? ==>
      1 <= OnClick(currentPage, totalPages, c).value <= totalPages
  {
  }

  /**
   * The arrows undo each other: from any page but the first, Previous then
   * Next comes back to it, and from any page but the last, Next then
   * Previous does.
   */
  lemma ArrowsUndoEachOther(currentPage: int, totalPages: int)
    requires 1 <= currentPage <= totalPages
    ensures currentPage > 1 ==>
      && OnClick(currentPage, totalPages, Previous).Some?
      && OnClick(OnClick(currentPage, totalPages, Previous).value, totalPages, Next) == Some(currentPage)
    ensures currentPage < totalPages ==>
      && OnClick(currentPage, totalPages, Next).Some?
      && OnClick(OnClick(currentPage, totalPages, Next).value, totalPages, Previous) == Some(currentPage)
  {
  }
}
