/**
 * The HR home page: the vacancy list filtered by a search text and a status
 * filter, cut into pages of six, the table row shown for each vacancy, the
 * row of page links with ellipses, and the current-page state that the
 * previous / next / page-link buttons and the page's two effects update.
 */
module HomePage {
  import opened Wrappers
  import opened Strings
  import opened Store
  import opened Seqs

  const ItemsPerPage: nat := 6
  const MaxVisiblePages: nat := 5

  /** The status filter of the dropdown: 'all', 'active' or 'closed' (any other value keeps everything). */
  predicate StatusMatches(statusFilter: string, v: Vacancy)
  {
    var status := if "status" in v.fields then v.fields["status"] else FNull;
    if statusFilter == "active" then status == FStr("active")
    else if statusFilter == "closed" then status == FStr("closed") || status == FStr("stopped")
    else true
  }

  /** JavaScript truthiness of a property value. */
  predicate FieldTruthy(f: Field)
  {
    match f
    case FStr(s) => s != ""
    case FNum(n) => n != 0
    case FBool(b) => b
    case FNull => false
  }

  function FieldOf(v: Vacancy, key: string): Field
  {
    if key in v.fields then v.fields[key] else FNull
  }

  /**
   * One vacancy against the search text and status filter: Some(keep), or None
   * when its name is truthy but not a string, where toLowerCase throws.
   */
  function Keep(v: Vacancy, searchQuery: string, statusFilter: string): (r: Option<bool>)
    ensures r.None? <==> FieldTruthy(FieldOf(v, "name")) && JsTrim(searchQuery) != "" && !FieldOf(v, "name").FStr?
    ensures r.Some? ==> (r.value <==>
      FieldTruthy(FieldOf(v, "name")) && StatusMatches(statusFilter, v)
      && (JsTrim(searchQuery) == "" || Contains(Lower(FieldOf(v, "name").s), Lower(searchQuery))))
  {
    var name := FieldOf(v, "name");
    if !FieldTruthy(name) then Some(false)
    else if JsTrim(searchQuery) == "" then Some(StatusMatches(statusFilter, v))
    else if !name.FStr? then None
    else Some(Contains(Lower(name.s), Lower(searchQuery)) && StatusMatches(statusFilter, v))
  }

  predicate Kept(v: Vacancy, searchQuery: string, statusFilter: string)
  {
    Keep(v, searchQuery, statusFilter) == Some(true)
  }

  predicate Throws(v: Vacancy, searchQuery: string, statusFilter: string)
  {
    Keep(v, searchQuery, statusFilter).None?
  }

  /**
   * Array.prototype.filter with a callback that may throw (None): the kept
   * elements in their order, or None as soon as one callback throws.
   */
  function FilterOrThrow<T>(s: seq<T>, keep: T -> Option<bool>): (r: Option<seq<T>>)
    ensures r.Some? ==> |r.value| <= |s|
    ensures r.Some? ==> forall i :: 0 <= i < |r.value| ==> r.value[i] in s && keep(r.value[i]) == Some(true)
    ensures r.Some? ==> forall i :: 0 <= i < |s| && keep(s[i]) == Some(true) ==> s[i] in r.value
    ensures r.None? <==> exists i :: 0 <= i < |s| && keep(s[i]).None?
    ensures r.Some? ==> forall i :: 0 <= i < |s| ==>
      multiset(r.value)[s[i]] == if keep(s[i]) == Some(true) then multiset(s)[s[i]] else 0
  {
    if exists i :: 0 <= i < |s| && keep(s[i]).None? then None
    else
      FilterCounts(s, Accepts(keep));
      Some(Filter(s, Accepts(keep)))
  }

  /** The callback's verdict as a predicate: the element is kept. */
  function Accepts<T>(keep: T -> Option<bool>): T -> bool
  {
    x => keep(x) == Some(true)
  }

  /**
   * filter visits the elements in order: one element more at the end throws
   * when its callback throws, and is otherwise kept at the end exactly when
   * the callback says so.
   */
  lemma FilterOrThrowSnoc<T>(s: seq<T>, x: T, keep: T -> Option<bool>)
    ensures FilterOrThrow(s + [x], keep) ==
      if FilterOrThrow(s, keep).None? || keep(x).None? then None
      else Some(FilterOrThrow(s, keep).value + (if keep(x) == Some(true) then [x] else []))
  {
    var t := s + [x];
    assert forall i :: 0 <= i < |s| ==> t[i] == s[i];
    assert t[|s|] == x;
    if FilterOrThrow(s, keep).Some? && keep(x).Some? {
      forall i | 0 <= i < |t|
        ensures keep(t[i]).Some?
      {
        if i < |s| {
          assert t[i] == s[i];
        }
      }
      FilterSnoc(s, x, Accepts(keep));
    } else if FilterOrThrow(s, keep).None? {
      var i :| 0 <= i < |s| && keep(s[i]).None?;
      assert keep(t[i]).None?;
    } else {
      assert keep(t[|s|]).None?;
    }
  }

  /** vacancies.filter(...): the kept vacancies in their order, or None when the filter throws. */
  function FilterVacancies(vs: seq<Vacancy>, searchQuery: string, statusFilter: string): (r: Option<seq<Vacancy>>)
    ensures r.Some? ==> |r.value| <= |vs|
    ensures r.Some? ==> forall i :: 0 <= i < |r.value| ==> r.value[i] in vs && Kept(r.value[i], searchQuery, statusFilter)
    ensures r.Some? ==> forall i :: 0 <= i < |vs| && Kept(vs[i], searchQuery, statusFilter) ==> vs[i] in r.value
    ensures r.None? <==> exists i :: 0 <= i < |vs| && Throws(vs[i], searchQuery, statusFilter)
    ensures r.Some? ==> forall i :: 0 <= i < |vs| ==>
      multiset(r.value)[vs[i]] == if Kept(vs[i], searchQuery, statusFilter) then multiset(vs)[vs[i]] else 0
  {
    FilterOrThrow(vs, KeepBy(searchQuery, statusFilter))
  }

  /** The filter callback. */
  function KeepBy(searchQuery: string, statusFilter: string): Vacancy -> Option<bool>
  {
    v => Keep(v, searchQuery, statusFilter)
  }

  /** The filtered list keeps the vacancies' order: one vacancy more at the end is kept at the end when it passes. */
  lemma FilterVacanciesSnoc(vs: seq<Vacancy>, v: Vacancy, searchQuery: string, statusFilter: string)
    ensures FilterVacancies(vs + [v], searchQuery, statusFilter) ==
      if FilterVacancies(vs, searchQuery, statusFilter).None? || Throws(v, searchQuery, statusFilter) then None
      else Some(FilterVacancies(vs, searchQuery, statusFilter).value + (if Kept(v, searchQuery, statusFilter) then [v] else []))
  {
    FilterOrThrowSnoc(vs, v, KeepBy(searchQuery, statusFilter));
  }

  /** The search is case-insensitive: a query and its lower-case form select the same vacancies. */
  lemma SearchIgnoresCase(v: Vacancy, searchQuery: string, statusFilter: string)
    ensures JsTrim(searchQuery) != "" && JsTrim(Lower(searchQuery)) != "" ==>
      Keep(v, searchQuery, statusFilter) == Keep(v, Lower(searchQuery), statusFilter)
  {
    LowerIdempotent(searchQuery);
  }

  /** With an empty search and the 'all' filter every vacancy with a name is listed. */
  lemma BlankSearchKeepsNamed(v: Vacancy, searchQuery: string)
    requires JsTrim(searchQuery) == ""
    ensures Keep(v, searchQuery, "all") == Some(FieldTruthy(FieldOf(v, "name")))
  {
  }

  /** Math.max(1, Math.ceil(n / 6)). */
  function TotalPages(n: nat): (r: nat)
    ensures r >= 1
    ensures (r - 1) * ItemsPerPage < n || (n == 0 && r == 1)
    ensures n <= r * ItemsPerPage
  {
    if n == 0 then 1 else (n + ItemsPerPage - 1) / ItemsPerPage
  }

  /**
   * The vacancies shown on one page: filtered.slice(start, end) with both ends clamped to the list.
   * A page below 1 would give a negative start, which slice counts from the end; the Pager keeps
   * the current page at 1 or above, so that case never arises and is modelled as an empty page.
   */
  function PageSlice<T>(filtered: seq<T>, currentPage: int): (r: seq<T>)
    ensures |r| <= ItemsPerPage
    ensures currentPage >= 1 && (currentPage - 1) * ItemsPerPage < |filtered| ==> |r| >= 1
  {
    var start := if (currentPage - 1) * ItemsPerPage < |filtered| then (currentPage - 1) * ItemsPerPage else |filtered|;
    var end := if start + ItemsPerPage < |filtered| then start + ItemsPerPage else |filtered|;
    if start < 0 then filtered[..0] else filtered[start..end]
  }

  /** Every filtered vacancy appears on exactly one page within the page count, at its position. */
  lemma EveryVacancyOnItsPage<T>(filtered: seq<T>, i: nat)
    requires i < |filtered|
    ensures var p := i / ItemsPerPage + 1;
      1 <= p <= TotalPages(|filtered|) && i % ItemsPerPage < |PageSlice(filtered, p)|
      && PageSlice(filtered, p)[i % ItemsPerPage] == filtered[i]
  {
    var p := i / ItemsPerPage + 1;
    assert (p - 1) * ItemsPerPage == i - i % ItemsPerPage;
  }

  /** Pages after the last one are empty. */
  lemma PagesBeyondAreEmpty<T>(filtered: seq<T>, p: int)
    requires p > TotalPages(|filtered|)
    ensures PageSlice(filtered, p) == []
  {
    var tp := TotalPages(|filtered|);
    assert (p - 1) * ItemsPerPage >= tp * ItemsPerPage;
  }

  /** getStatusText. */
  function StatusText(status: Field): (r: string)
    ensures r == "Неизвестно" <==> status !in {FStr("active"), FStr("closed"), FStr("stopped")}
  {
    if status == FStr("active") then "Активная"
    else if status == FStr("closed") then "Закрыта"
    else if status == FStr("stopped") then "Остановлена"
    else "Неизвестно"
  }

  /** Template-literal / toString text of a property value. */
  function FieldText(f: Field): string
  {
    match f
    case FStr(s) => s
    case FNum(n) => IntToString(n)
    case FBool(b) => if b then "true" else "false"
    case FNull => "null"
  }

  /** `value || fallback`. */
  function Or(f: Field, fallback: Field): Field
  {
    if FieldTruthy(f) then f else fallback
  }

  datatype Row = Row(cells: seq<string>, vacancyId: int)

  /** The text of a number cell: the value, or "0" when it is missing or falsy. */
  function CellOrZero(f: Field): (r: string)
    ensures !FieldTruthy(f) ==> r == "0"
    ensures FieldTruthy(f) ==> r == FieldText(f)
  {
    FieldText(Or(f, FNum(0)))
  }

  function RowWithCount(v: Vacancy, countKey: string): (r: Row)
    ensures |r.cells| == 5 && r.vacancyId == v.vacancyId
    ensures r.cells[0] == if FieldTruthy(FieldOf(v, "name")) then FieldText(FieldOf(v, "name")) else "Н/Д"
    ensures r.cells[1] == if FieldTruthy(FieldOf(v, "region")) then FieldText(FieldOf(v, "region")) else "Н/Д"
    ensures r.cells[2] == if FieldTruthy(FieldOf(v, countKey)) then FieldText(FieldOf(v, countKey)) else "0"
    ensures r.cells[3] == CellOrZero(FieldOf(v, "salaryMin")) + " - " + CellOrZero(FieldOf(v, "salaryMax"))
    ensures r.cells[4] == StatusText(FieldOf(v, "status"))
  {
    Row([ FieldText(Or(FieldOf(v, "name"), FStr("Н/Д"))),
          FieldText(Or(FieldOf(v, "region"), FStr("Н/Д"))),
          FieldText(Or(FieldOf(v, countKey), FNum(0))),
          FieldText(Or(FieldOf(v, "salaryMin"), FNum(0))) + " - " + FieldText(Or(FieldOf(v, "salaryMax"), FNum(0))),
          StatusText(FieldOf(v, "status")) ],
        v.vacancyId)
  }

  /** The table row as written: the responses cell reads the misspelt property "responces". */
  function TableRowAsWritten(v: Vacancy): (r: Row)
    ensures |r.cells| == 5 && r.cells[2] == FieldText(Or(FieldOf(v, "responces"), FNum(0)))
  {
    RowWithCount(v, "responces")
  }

  /** The table row as intended: the responses cell shows the vacancy's "responses" count. */
  function TableRow(v: Vacancy): (r: Row)
    ensures |r.cells| == 5 && r.vacancyId == v.vacancyId
    ensures FieldOf(v, "responses") == FNum(0) || !FieldTruthy(FieldOf(v, "responses")) ==> r.cells[2] == "0"
    ensures FieldOf(v, "responses").FNum? ==> r.cells[2] == IntToString(FieldOf(v, "responses").n)
  {
    RowWithCount(v, "responses")
  }

  /** Every preset vacancy shows 0 responses with the row as written, though the first has 1376. */
  lemma ResponsesCellAsWritten()
    ensures TableRowAsWritten(PresetVacancies()[0]).cells[2] == "0"
    ensures TableRow(PresetVacancies()[0]).cells[2] == IntToString(1376)
  {
    assert "responces" !in PresetVacancies()[0].fields;
  }

  /** The message shown when no vacancy passes the filters. */
  function EmptyMessage(searchQuery: string, statusFilter: string): (r: string)
    ensures r == "Вакансии не найдены" <==> JsTrim(searchQuery) == "" && statusFilter == "all"
  {
    if JsTrim(searchQuery) != "" || statusFilter != "all" then "По заданным критериям ничего не найдено"
    else "Вакансии не найдены"
  }

  datatype PageItem = Num(n: int) | Ellipsis

  /** [a, a+1, ..., b] as page links (empty when b < a). */
  function Range(a: int, b: int): (r: seq<PageItem>)
    ensures |r| == if b < a then 0 else b - a + 1
    ensures forall k :: 0 <= k < |r| ==> r[k] == Num(a + k)
    decreases b - a
  {
    if b < a then [] else [Num(a)] + Range(a + 1, b)
  }

  /** The page links: all pages when there are at most five, otherwise a window with ellipses. */
  function PageNumbers(totalPages: int, currentPage: int): (r: seq<PageItem>)
    ensures totalPages <= MaxVisiblePages ==> forall k :: 0 <= k < |r| ==> r[k] == Num(k + 1)
    ensures totalPages <= MaxVisiblePages ==> |r| == if totalPages < 1 then 0 else totalPages
    ensures totalPages > MaxVisiblePages ==>
      6 <= |r| <= 7 && r[0] == Num(1) && r[|r| - 1] == Num(totalPages) && Ellipsis in r
  {
    if totalPages <= MaxVisiblePages then Range(1, totalPages)
    else if currentPage <= 3 then Range(1, 4) + [Ellipsis, Num(totalPages)]
    else if currentPage >= totalPages - 2 then [Num(1), Ellipsis] + Range(totalPages - 3, totalPages)
    else [Num(1), Ellipsis] + Range(currentPage - 1, currentPage + 1) + [Ellipsis, Num(totalPages)]
  }

  /** getPageNumbers, with its loops. */
  method GetPageNumbers(totalPages: int, currentPage: int) returns (pages: seq<PageItem>)
    ensures pages == PageNumbers(totalPages, currentPage)
  {
    pages := [];
    if totalPages <= MaxVisiblePages {
      var i := 1;
      while i <= totalPages
        invariant 1 <= i <= if totalPages >= 1 then totalPages + 1 else 1
        invariant pages == Range(1, i - 1)
      {
        pages := pages + [Num(i)];
        i := i + 1;
      }
    } else if currentPage <= 3 {
      var i := 1;
      while i <= 4
        invariant 1 <= i <= 5 && pages == Range(1, i - 1)
      {
        pages := pages + [Num(i)];
        i := i + 1;
      }
      pages := pages + [Ellipsis];
      pages := pages + [Num(totalPages)];
      assert pages == Range(1, 4) + [Ellipsis, Num(totalPages)];
      assert pages == PageNumbers(totalPages, currentPage);
    } else if currentPage >= totalPages - 2 {
      pages := pages + [Num(1)];
      pages := pages + [Ellipsis];
      var i := totalPages - 3;
      while i <= totalPages
        invariant totalPages - 3 <= i <= totalPages + 1
        invariant pages == [Num(1), Ellipsis] + Range(totalPages - 3, i - 1)
      {
        pages := pages + [Num(i)];
        i := i + 1;
      }
    } else {
      pages := pages + [Num(1)];
      pages := pages + [Ellipsis];
      var i := currentPage - 1;
      while i <= currentPage + 1
        invariant currentPage - 1 <= i <= currentPage + 2
        invariant pages == [Num(1), Ellipsis] + Range(currentPage - 1, i - 1)
      {
        pages := pages + [Num(i)];
        i := i + 1;
      }
      pages := pages + [Ellipsis];
      pages := pages + [Num(totalPages)];
      assert pages == [Num(1), Ellipsis] + Range(currentPage - 1, currentPage + 1) + [Ellipsis, Num(totalPages)];
      assert pages == PageNumbers(totalPages, currentPage);
    }
  }

  /**
   * What the page links look like for a current page within range: at most
   * seven items, the first is page 1 and the last the final page, numbers
   * next to each other are consecutive, an ellipsis stands exactly where
   * pages are skipped, and the current page is always shown.
   */
  predicate WellFormedPager(items: seq<PageItem>, totalPages: int, currentPage: int)
  {
    |items| <= 7 && items != []
    && items[0] == Num(1) && items[|items| - 1] == Num(totalPages)
    && (forall k :: 0 <= k < |items| - 1 && items[k].Num? && items[k + 1].Num? ==> items[k + 1].n == items[k].n + 1)
    && (forall k :: 0 <= k < |items| - 1 && items[k].Ellipsis? ==> items[k + 1].Num?)
    && (forall k :: 0 < k < |items| - 1 && items[k].Ellipsis? ==> items[k - 1].Num? && items[k + 1].n > items[k - 1].n + 1)
    && Num(currentPage) in items
  }

  lemma PageNumbersWellFormed(totalPages: int, currentPage: int)
    requires 1 <= currentPage <= totalPages
    ensures WellFormedPager(PageNumbers(totalPages, currentPage), totalPages, currentPage)
  {
    var items := PageNumbers(totalPages, currentPage);
    if totalPages <= MaxVisiblePages {
      assert items[currentPage - 1] == Num(currentPage);
    } else if currentPage <= 3 {
      assert items == [Num(1), Num(2), Num(3), Num(4), Ellipsis, Num(totalPages)];
      NearStartWellFormed(totalPages, currentPage);
    } else if currentPage >= totalPages - 2 {
      assert items == [Num(1), Ellipsis, Num(totalPages - 3), Num(totalPages - 2), Num(totalPages - 1), Num(totalPages)];
      NearEndWellFormed(totalPages, currentPage);
    } else {
      assert items == [Num(1), Ellipsis, Num(currentPage - 1), Num(currentPage), Num(currentPage + 1), Ellipsis, Num(totalPages)];
      MiddleWellFormed(totalPages, currentPage);
    }
  }

  /** The links near the first page: 1 2 3 4 … last. */
  lemma NearStartWellFormed(totalPages: int, currentPage: int)
    requires 1 <= currentPage <= 3 && totalPages > MaxVisiblePages
    ensures WellFormedPager([Num(1), Num(2), Num(3), Num(4), Ellipsis, Num(totalPages)], totalPages, currentPage)
  {
    var items := [Num(1), Num(2), Num(3), Num(4), Ellipsis, Num(totalPages)];
    assert items[currentPage - 1] == Num(currentPage);
  }

  /** The links near the last page: 1 … last-3 last-2 last-1 last. */
  lemma NearEndWellFormed(totalPages: int, currentPage: int)
    requires totalPages - 2 <= currentPage <= totalPages && totalPages > MaxVisiblePages
    ensures WellFormedPager([Num(1), Ellipsis, Num(totalPages - 3), Num(totalPages - 2), Num(totalPages - 1), Num(totalPages)],
      totalPages, currentPage)
  {
    var items := [Num(1), Ellipsis, Num(totalPages - 3), Num(totalPages - 2), Num(totalPages - 1), Num(totalPages)];
    assert items[currentPage - totalPages + 5] == Num(currentPage);
  }

  /** The links in the middle: 1 … current-1 current current+1 … last. */
  lemma MiddleWellFormed(totalPages: int, currentPage: int)
    requires 3 < currentPage < totalPages - 2 && totalPages > MaxVisiblePages
    ensures WellFormedPager([Num(1), Ellipsis, Num(currentPage - 1), Num(currentPage), Num(currentPage + 1), Ellipsis, Num(totalPages)],
      totalPages, currentPage)
  {
    var items := [Num(1), Ellipsis, Num(currentPage - 1), Num(currentPage), Num(currentPage + 1), Ellipsis, Num(totalPages)];
    assert items[3] == Num(currentPage);
  }

  /** Every page link points to an existing page. */
  lemma PageNumbersInRange(totalPages: int, currentPage: int)
    requires totalPages >= 1
    ensures forall item :: item in PageNumbers(totalPages, currentPage) && item.Num? ==> 1 <= item.n <= totalPages
  {
  }

  /** The current page of the list; the page's two effects keep it between 1 and the page count. */
  class Pager {
    var currentPage: int
    var totalPages: int

    ghost predicate Valid()
      reads this
    {
      1 <= currentPage <= totalPages
    }

    /** First render: page 1 of the given result count. */
    constructor(resultCount: nat)
      ensures Valid() && currentPage == 1 && totalPages == TotalPages(resultCount)
    {
      currentPage := 1;
      totalPages := TotalPages(resultCount);
    }

    /** The reset effect: the result count, search text or filter changed, so go back to page 1. */
    method ResultsChanged(resultCount: nat)
      modifies this
      ensures Valid() && currentPage == 1 && totalPages == TotalPages(resultCount)
    {
      totalPages := TotalPages(resultCount);
      currentPage := 1;
    }

    /** The clamp effect: a page past the end becomes the last page. */
    method Clamp()
      requires totalPages >= 1
      modifies this
      ensures totalPages == old(totalPages)
      ensures currentPage == if old(currentPage) > totalPages then totalPages else old(currentPage)
    {
      if currentPage > totalPages && totalPages > 0 {
        currentPage := totalPages;
      }
    }

    /** The previous-page button. */
    method Previous()
      requires Valid()
      modifies this
      ensures Valid() && totalPages == old(totalPages)
      ensures currentPage == if old(currentPage) > 1 then old(currentPage) - 1 else 1
    {
      currentPage := if currentPage - 1 > 1 then currentPage - 1 else 1;
    }

    /** The next-page button. */
    method Next()
      requires Valid()
      modifies this
      ensures Valid() && totalPages == old(totalPages)
      ensures currentPage == if old(currentPage) < totalPages then old(currentPage) + 1 else totalPages
    {
      currentPage := if currentPage + 1 < totalPages then currentPage + 1 else totalPages;
    }

    /** A page link: the pages offered are those of the link row. */
    method GoTo(page: int)
      requires Valid() && Num(page) in PageNumbers(totalPages, currentPage)
      modifies this
      ensures Valid() && totalPages == old(totalPages) && currentPage == page
    {
      PageNumbersInRange(totalPages, currentPage);
      currentPage := page;
    }

    /** The vacancies shown now: a non-empty page whenever the filtered list is non-empty. */
    function Visible<T>(filtered: seq<T>): (r: seq<T>)
      reads this
      requires Valid() && totalPages == TotalPages(|filtered|)
      ensures |r| <= ItemsPerPage
      ensures filtered != [] ==> r != []
    {
      assert (currentPage - 1) * ItemsPerPage < |filtered| || filtered == [] by {
        if filtered != [] {
          assert (totalPages - 1) * ItemsPerPage < |filtered|;
          assert (currentPage - 1) * ItemsPerPage <= (totalPages - 1) * ItemsPerPage;
        }
      }
      PageSlice(filtered, currentPage)
    }
  }
}
