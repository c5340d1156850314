/**
 * Pagination of a list for the catalog screens: the number of pages, the
 * items of one page with the page number clamped into range, and the
 * navigation keyboard with previous/next buttons.
 */
module Pagination {
  import opened Wrappers
  import opened Text
  import opened Keyboard

  /** `Paginator(data, page_size)` */
  datatype Paginator<T> = Paginator(data: seq<T>, pageSize: nat)
  {
    /** `total_pages`: the fewest pages of `page_size` items that hold all of `data`. */
    function TotalPages(): (n: nat)
      requires pageSize > 0
      ensures n * pageSize >= |data|
      ensures n == 0 || (n - 1) * pageSize < |data|
    {
      var n := (|data| + pageSize - 1) / pageSize;
      assert n * pageSize + (|data| + pageSize - 1) % pageSize == |data| + pageSize - 1;
      n
    }

    /** `max(1, min(page, total_pages))` */
    function ClampPage(page: int): (p: int)
      requires pageSize > 0
      ensures 1 <= p
      ensures TotalPages() > 0 ==> p <= TotalPages()
      ensures 1 <= page <= TotalPages() ==> p == page
      ensures TotalPages() == 0 ==> p == 1
    {
      var m := if page < TotalPages() then page else TotalPages();
      if 1 < m then m else 1
    }

    /** The items of page `p` (counted from 1): `data[(p - 1) * size : p * size]`. */
    function PageItems(p: int): (items: seq<T>)
      requires pageSize > 0 && 1 <= p
      ensures 0 <= (p - 1) * pageSize
      ensures |items| <= pageSize
      ensures forall i :: 0 <= i < |items| ==> (p - 1) * pageSize + i < |data| && items[i] == data[(p - 1) * pageSize + i]
      ensures (p - 1) * pageSize + pageSize <= |data| ==> |items| == pageSize
      ensures (p - 1) * pageSize < |data| ==> |items| > 0
      ensures |items| == if (p - 1) * pageSize >= |data| then 0
                         else if (p - 1) * pageSize + pageSize < |data| then pageSize
                         else |data| - (p - 1) * pageSize
    {
      MulLe(0, p - 1, pageSize);
      var start := (p - 1) * pageSize;
      var end := start + pageSize;
      if start >= |data| then [] else data[start..if end < |data| then end else |data|]
    }

    /** Where the clamped page starts and ends, against the length of the data. */
    lemma ClampedPageBounds(p: int)
      requires pageSize > 0 && 1 <= p && (TotalPages() > 0 ==> p <= TotalPages())
      ensures p < TotalPages() ==> (p - 1) * pageSize + pageSize <= |data|
      ensures TotalPages() > 0 ==> (p - 1) * pageSize < |data|
    {
      var t := TotalPages();
      if t > 0 {
        MulLe(p - 1, t - 1, pageSize);
        if p < t {
          MulLe(p, t - 1, pageSize);
          MulPred(p, pageSize);
        }
      }
    }

    /** `get_page(page)`: the items of the clamped page and that page's number. */
    function GetPage(page: int): (r: (seq<T>, int))
      requires pageSize > 0
      ensures r.1 == ClampPage(page)
      ensures 0 <= (r.1 - 1) * pageSize
      ensures |r.0| <= pageSize
      ensures forall i :: 0 <= i < |r.0| ==> (r.1 - 1) * pageSize + i < |data| && r.0[i] == data[(r.1 - 1) * pageSize + i]
      ensures r.1 < TotalPages() ==> |r.0| == pageSize
      ensures TotalPages() > 0 ==> |r.0| > 0
    {
      var p := ClampPage(page);
      ClampedPageBounds(p);
      (PageItems(p), p)
    }
  }

  lemma MulLe(a: int, b: int, s: nat)
    requires a <= b
    ensures a * s <= b * s
  {
  }

  lemma MulPred(k: int, s: int)
    ensures (k - 1) * s + s == k * s
  {
  }

  /** `get_page` is idempotent: asking again for the page it returned gives the same answer. */
  lemma GetPageIdempotent<T>(pag: Paginator<T>, page: int)
    requires pag.pageSize > 0
    ensures pag.GetPage(pag.GetPage(page).1) == pag.GetPage(page)
  {
    var p := pag.ClampPage(page);
    assert pag.TotalPages() > 0 ==> pag.ClampPage(p) == p;
  }

  /** Pages 1..k one after another. */
  function FirstPages<T>(pag: Paginator<T>, k: nat): seq<T>
    requires pag.pageSize > 0
  {
    if k == 0 then [] else FirstPages(pag, k - 1) + pag.PageItems(k)
  }

  /** One more page: the prefix of `data` before `start`, followed by the page at `start`. */
  lemma PrefixStep<T>(data: seq<T>, before: seq<T>, items: seq<T>, start: int, size: int)
    requires 0 <= start && 0 < size
    requires start <= |data| ==> before == data[..start]
    requires start > |data| ==> before == data
    requires |items| == if start >= |data| then 0 else if start + size < |data| then size else |data| - start
    requires forall i :: 0 <= i < |items| ==> start + i < |data| && items[i] == data[start + i]
    ensures start + size <= |data| ==> before + items == data[..start + size]
    ensures start + size > |data| ==> before + items == data
  {
    if start >= |data| {
      assert items == [];
    } else if start + size <= |data| {
      assert items == data[start..start + size];
      assert data[..start + size] == data[..start] + data[start..start + size];
    } else {
      assert items == data[start..];
      assert data == data[..start] + data[start..];
    }
  }

  lemma {:induction false} FirstPagesPrefix<T>(pag: Paginator<T>, k: nat)
    requires pag.pageSize > 0
    ensures k * pag.pageSize <= |pag.data| ==> FirstPages(pag, k) == pag.data[..k * pag.pageSize]
    ensures k * pag.pageSize > |pag.data| ==> FirstPages(pag, k) == pag.data
    decreases k
  {
    if k > 0 {
      FirstPagesPrefix(pag, k - 1);
      MulPred(k, pag.pageSize);
      MulLe(0, k - 1, pag.pageSize);
      FirstPagesStep(pag, k, (k - 1) * pag.pageSize, k * pag.pageSize);
    }
  }

  /** One step of `FirstPagesPrefix`: page `k` extends the prefix ending at `start` to the one ending at `end`. */
  lemma FirstPagesStep<T>(pag: Paginator<T>, k: nat, start: int, end: int)
    requires pag.pageSize > 0 && k > 0
    requires start == (k - 1) * pag.pageSize && 0 <= start && end == start + pag.pageSize
    requires start <= |pag.data| ==> FirstPages(pag, k - 1) == pag.data[..start]
    requires start > |pag.data| ==> FirstPages(pag, k - 1) == pag.data
    ensures end <= |pag.data| ==> FirstPages(pag, k) == pag.data[..end]
    ensures end > |pag.data| ==> FirstPages(pag, k) == pag.data
  {
    var before, items := FirstPages(pag, k - 1), pag.PageItems(k);
    assert FirstPages(pag, k) == before + items;
    PrefixStep(pag.data, before, items, start, pag.pageSize);
  }

  /** The pages partition the data: pages 1..total_pages, concatenated, are `data`. */
  lemma PagesPartitionData<T>(pag: Paginator<T>)
    requires pag.pageSize > 0
    ensures FirstPages(pag, pag.TotalPages()) == pag.data
  {
    FirstPagesPrefix(pag, pag.TotalPages());
  }

  const PrevText := "⬅️ Пред."
  const NextText := "След. ➡️"

  /** Callback data of a navigation button: `f"{prefix}_page_{n}_{parent_id or ''}"`. */
  function NavData(prefix: string, page: int, parentId: Option<nat>): string
  {
    prefix + "_page_" + IntToString(page) + "_" + OrEmpty(parentId)
  }

  /** The back button: to the parent category when there is one, else to the main menu. */
  function BackButton(parentId: Option<nat>): (b: Button)
    ensures Truthy(parentId) ==> b.data == "category_" + NatToString(parentId.value)
    ensures !Truthy(parentId) ==> b.data == "back_to_start"
  {
    if Truthy(parentId) then Button("⬅️ Назад", "category_" + NatToString(parentId.value))
    else Button("⬅️ Главное меню", "back_to_start")
  }

  /**
   * The navigation buttons of `build_pagination_kb`: a previous button
   * exactly when the current page is not the first, the page indicator, and
   * a next button exactly when it is not the last.
   */
  function NavButtons(totalPages: int, prefix: string, currentPage: int, parentId: Option<nat>): seq<Button>
  {
    (if currentPage > 1 then [Button(PrevText, NavData(prefix, currentPage - 1, parentId))] else [])
    + [Button(IntToString(currentPage) + "/" + IntToString(totalPages), "no_action")]
    + (if currentPage < totalPages then [Button(NextText, NavData(prefix, currentPage + 1, parentId))] else [])
  }

  /**
   * The buttons of `build_pagination_kb(prefix, current_page, parent_id)`, in
   * order: a previous button exactly when the current page is not the first,
   * the page indicator, a next button exactly when it is not the last, and
   * the back button.
   */
  function PaginationButtons(totalPages: int, prefix: string, currentPage: int, parentId: Option<nat>)
    : (bs: seq<Button>)
    ensures var prev := if currentPage > 1 then 1 else 0;
      var next := if currentPage < totalPages then 1 else 0;
      |bs| == prev + 2 + next
      && (currentPage > 1 ==> bs[0] == Button(PrevText, NavData(prefix, currentPage - 1, parentId)))
      && bs[prev] == Button(IntToString(currentPage) + "/" + IntToString(totalPages), "no_action")
      && (currentPage < totalPages ==> bs[prev + 1] == Button(NextText, NavData(prefix, currentPage + 1, parentId)))
      && bs[|bs| - 1] == BackButton(parentId)
  {
    NavButtons(totalPages, prefix, currentPage, parentId) + [BackButton(parentId)]
  }

  /**
   * `build_pagination_kb(prefix, current_page, parent_id)`: the buttons above,
   * laid out three to the first row and one to each row after.
   */
  method BuildPaginationKb<T>(pag: Paginator<T>, prefix: string, currentPage: int, parentId: Option<nat>)
    returns (kb: Markup)
    requires pag.pageSize > 0
    ensures Flatten(kb) == PaginationButtons(pag.TotalPages(), prefix, currentPage, parentId)
    ensures kb == Regroup(Flatten(kb), [3, 1], false, 0)
  {
    var total := pag.TotalPages();
    var builder := new Builder();
    AddNavButtons(builder, prefix, currentPage, total, parentId);
    var back := BackButton(parentId);
    builder.AddButton(back.text, back.data);
    AppendEmpty(NavButtons(total, prefix, currentPage, parentId));
    builder.Adjust([3, 1], false);
    kb := builder.rows;
  }

  /** The navigation part of `build_pagination_kb`, pushed onto `builder`. */
  method AddNavButtons(builder: Builder, prefix: string, currentPage: int, total: int, parentId: Option<nat>)
    modifies builder
    ensures Flatten(builder.rows) == Flatten(old(builder.rows)) + NavButtons(total, prefix, currentPage, parentId)
  {
    ghost var start := Flatten(builder.rows);
    ghost var prevs: seq<Button> := [];
    if currentPage > 1 {
      builder.AddButton(PrevText, NavData(prefix, currentPage - 1, parentId));
      prevs := [Button(PrevText, NavData(prefix, currentPage - 1, parentId))];
    } else {
      AppendEmpty(start);
    }
    var indicator := Button(IntToString(currentPage) + "/" + IntToString(total), "no_action");
    builder.AddButton(indicator.text, indicator.data);
    ButtonsAssoc(start, prevs, [indicator]);
    ghost var nexts: seq<Button> := [];
    if currentPage < total {
      builder.AddButton(NextText, NavData(prefix, currentPage + 1, parentId));
      nexts := [Button(NextText, NavData(prefix, currentPage + 1, parentId))];
    } else {
      AppendEmpty(start + (prevs + [indicator]));
      AppendEmpty(prevs + [indicator]);
    }
    ButtonsAssoc(start, prevs + [indicator], nexts);
  }
}
