/**
 * The shift list (src/screens/ShiftListScreen.js): the active shift shown
 * first, pages of three, the page count and the pager's clamped moves.
 */
module ShiftList {
  import opened Wrappers

  datatype Shift = Shift(id: string, name: string, startTime: int, endTime: int)

  /** `ITEMS_PER_PAGE`. */
  const ItemsPerPage: int := 3

  /** `item.id === activeShiftId`; with no active shift (`None`) nothing is active. */
  predicate IsActive(s: Shift, activeShiftId: Option<string>) {
    activeShiftId == Some(s.id)
  }

  function Actives(shifts: seq<Shift>, activeShiftId: Option<string>): seq<Shift> {
    if shifts == [] then []
    else (if IsActive(shifts[0], activeShiftId) then [shifts[0]] else []) + Actives(shifts[1..], activeShiftId)
  }

  function Others(shifts: seq<Shift>, activeShiftId: Option<string>): seq<Shift> {
    if shifts == [] then []
    else (if IsActive(shifts[0], activeShiftId) then [] else [shifts[0]]) + Others(shifts[1..], activeShiftId)
  }

  /**
   * `[...shifts].sort(activeFirst)`: a stable sort with that comparator
   * puts the active shifts first and keeps the original order otherwise.
   */
  function SortedShifts(shifts: seq<Shift>, activeShiftId: Option<string>): seq<Shift> {
    Actives(shifts, activeShiftId) + Others(shifts, activeShiftId)
  }

  lemma {:induction false} PartitionSpec(shifts: seq<Shift>, activeShiftId: Option<string>)
    ensures multiset(Actives(shifts, activeShiftId)) + multiset(Others(shifts, activeShiftId)) == multiset(shifts)
    ensures forall s | s in Actives(shifts, activeShiftId) :: IsActive(s, activeShiftId)
    ensures forall s | s in Others(shifts, activeShiftId) :: !IsActive(s, activeShiftId)
  {
    if shifts != [] {
      PartitionSpec(shifts[1..], activeShiftId);
      assert shifts == [shifts[0]] + shifts[1..];
    }
  }

  /**
   * The sorted list is a permutation of the shifts in which every active
   * shift comes before every other one.
   */
  lemma SortedShiftsSpec(shifts: seq<Shift>, activeShiftId: Option<string>)
    ensures multiset(SortedShifts(shifts, activeShiftId)) == multiset(shifts)
    ensures |SortedShifts(shifts, activeShiftId)| == |shifts|
    ensures forall i, j :: 0 <= i < j < |shifts| && IsActive(SortedShifts(shifts, activeShiftId)[j], activeShiftId) ==>
      IsActive(SortedShifts(shifts, activeShiftId)[i], activeShiftId)
  {
    var a, o := Actives(shifts, activeShiftId), Others(shifts, activeShiftId);
    var r := SortedShifts(shifts, activeShiftId);
    PartitionSpec(shifts, activeShiftId);
    assert |multiset(r)| == |multiset(shifts)|;
    forall i, j | 0 <= i < j < |r| && IsActive(r[j], activeShiftId)
      ensures IsActive(r[i], activeShiftId)
    {
      assert r[i] == a[i];
      assert r[i] in a;
    }
  }

  /** When no shift is active the order is left alone. */
  lemma {:induction false} NoActiveKeepsOrder(shifts: seq<Shift>, activeShiftId: Option<string>)
    requires forall s | s in shifts :: !IsActive(s, activeShiftId)
    ensures Actives(shifts, activeShiftId) == [] && Others(shifts, activeShiftId) == shifts
    ensures SortedShifts(shifts, activeShiftId) == shifts
  {
    if shifts != [] {
      NoActiveKeepsOrder(shifts[1..], activeShiftId);
      assert shifts == [shifts[0]] + shifts[1..];
    }
  }

  /** When some shift is active, the sorted list starts with an active one. */
  lemma ActiveShiftFirst(shifts: seq<Shift>, activeShiftId: Option<string>, s: Shift)
    requires s in shifts && IsActive(s, activeShiftId)
    ensures |SortedShifts(shifts, activeShiftId)| > 0
    ensures IsActive(SortedShifts(shifts, activeShiftId)[0], activeShiftId)
  {
    PartitionSpec(shifts, activeShiftId);
    assert s in multiset(shifts);
    assert s !in multiset(Others(shifts, activeShiftId));
    assert s in Actives(shifts, activeShiftId);
  }

  /** With distinct ids at most one shift is active, so only the first row can be marked active. */
  lemma {:induction false} DistinctIdsOneActive(shifts: seq<Shift>, activeShiftId: Option<string>)
    requires forall i, j :: 0 <= i < j < |shifts| ==> shifts[i].id != shifts[j].id
    ensures |Actives(shifts, activeShiftId)| <= 1
    ensures forall i :: 1 <= i < |SortedShifts(shifts, activeShiftId)| ==>
      !IsActive(SortedShifts(shifts, activeShiftId)[i], activeShiftId)
  {
    if shifts != [] {
      var tail := shifts[1..];
      assert forall i, j :: 0 <= i < j < |tail| ==> tail[i].id != tail[j].id by {
        forall i, j | 0 <= i < j < |tail| ensures tail[i].id != tail[j].id {
          assert tail[i] == shifts[i + 1] && tail[j] == shifts[j + 1];
        }
      }
      DistinctIdsOneActive(tail, activeShiftId);
      if IsActive(shifts[0], activeShiftId) {
        NoActiveKeepsOrder(tail, activeShiftId) by {
          forall x | x in tail ensures !IsActive(x, activeShiftId) {
            var k :| 0 <= k < |tail| && tail[k] == x;
            assert shifts[k + 1] == x;
          }
        }
      }
    }
    var a, o := Actives(shifts, activeShiftId), Others(shifts, activeShiftId);
    PartitionSpec(shifts, activeShiftId);
    forall i | 1 <= i < |a + o| ensures !IsActive((a + o)[i], activeShiftId) {
      assert (a + o)[i] == o[i - |a|];
      assert o[i - |a|] in o;
    }
  }

  function Min(a: int, b: int): int { if a < b then a else b }

  /** `sortedShifts.slice(page * 3, (page + 1) * 3)`, clamped to the list as JavaScript's `slice` does. */
  function Paginate(sorted: seq<Shift>, page: nat): seq<Shift> {
    sorted[Min(page * ItemsPerPage, |sorted|)..Min((page + 1) * ItemsPerPage, |sorted|)]
  }

  /** A page holds at most three shifts: those at positions `page * 3 + k` of the sorted list. */
  lemma PaginateSpec(sorted: seq<Shift>, page: nat)
    ensures |Paginate(sorted, page)| <= 3
    ensures forall k :: 0 <= k < |Paginate(sorted, page)| ==> Paginate(sorted, page)[k] == sorted[page * 3 + k]
    ensures |Paginate(sorted, page)| == Min(3, |sorted| - page * 3) || (page * 3 >= |sorted| && Paginate(sorted, page) == [])
  {
  }

  /** `Math.ceil(shifts.length / ITEMS_PER_PAGE)`. */
  function TotalPages(n: nat): nat {
    (n + ItemsPerPage - 1) / ItemsPerPage
  }

  /** The page count is the least number of pages of three that holds `n` shifts. */
  lemma TotalPagesIsCeiling(n: nat)
    ensures TotalPages(n) * 3 >= n
    ensures TotalPages(n) == 0 || (TotalPages(n) - 1) * 3 < n
  {
  }

  /** `totalPages > 1`: the pager is shown exactly when there are more than three shifts. */
  predicate PagerVisible(n: nat) {
    TotalPages(n) > 1
  }

  lemma PagerVisibleIff(n: nat)
    ensures PagerVisible(n) <==> n > 3
  {
  }

  /** The first `k` pages together are the first `3k` shifts. */
  function PagesUpTo(sorted: seq<Shift>, k: nat): seq<Shift> {
    if k == 0 then [] else PagesUpTo(sorted, k - 1) + Paginate(sorted, k - 1)
  }

  lemma {:induction false} PagesUpToPrefix(sorted: seq<Shift>, k: nat)
    ensures PagesUpTo(sorted, k) == sorted[..Min(k * 3, |sorted|)]
  {
    if k > 0 {
      PagesUpToPrefix(sorted, k - 1);
      var lo, hi := Min((k - 1) * 3, |sorted|), Min(k * 3, |sorted|);
      assert sorted[..lo] + sorted[lo..hi] == sorted[..hi];
    }
  }

  /** Read in order, the pages from 0 to `totalPages - 1` give back the whole sorted list. */
  lemma PagesCoverList(sorted: seq<Shift>)
    ensures PagesUpTo(sorted, TotalPages(|sorted|)) == sorted
  {
    PagesUpToPrefix(sorted, TotalPages(|sorted|));
    TotalPagesIsCeiling(|sorted|);
  }

  /** The previous-page move: `Math.max(0, prev - 1)`. */
  function PrevPage(page: int): int {
    if page - 1 > 0 then page - 1 else 0
  }

  /** The next-page move: `Math.min(totalPages - 1, prev + 1)`. */
  function NextPage(page: int, totalPages: int): int {
    if totalPages - 1 < page + 1 then totalPages - 1 else page + 1
  }

  /**
   * The previous move never goes below page 0 and the next move never
   * beyond the last page; from a page in range both stay in range and move
   * by at most one.
   */
  lemma PageMovesClamp(page: int, totalPages: int)
    ensures PrevPage(page) >= 0 && PrevPage(page) <= (if page > 0 then page else 0)
    ensures NextPage(page, totalPages) <= totalPages - 1
    ensures 0 <= page < totalPages ==>
      0 <= PrevPage(page) < totalPages && 0 <= NextPage(page, totalPages) < totalPages
      && page - 1 <= PrevPage(page) <= page && page <= NextPage(page, totalPages) <= page + 1
  {
  }

  /** The screen's page state. */
  class ShiftListState {
    var currentPage: int

    constructor ()
      ensures currentPage == 0
    {
      currentPage := 0;
    }

    method GoToPrevPage()
      modifies this
      ensures currentPage == PrevPage(old(currentPage)) && currentPage >= 0
    {
      currentPage := if currentPage - 1 > 0 then currentPage - 1 else 0;
    }

    method GoToNextPage(totalPages: int)
      modifies this
      ensures currentPage == NextPage(old(currentPage), totalPages) && currentPage <= totalPages - 1
    {
      currentPage := if totalPages - 1 < currentPage + 1 then totalPages - 1 else currentPage + 1;
    }

    /** The shifts shown on the current page, when the page is not negative. */
    function VisibleShifts(shifts: seq<Shift>, activeShiftId: Option<string>): (r: seq<Shift>)
      reads this
      requires currentPage >= 0
      ensures |r| <= ItemsPerPage
      ensures forall x | x in r :: x in shifts
    {
      SortedShiftsSpec(shifts, activeShiftId);
      PaginateSpec(SortedShifts(shifts, activeShiftId), currentPage);
      var sorted := SortedShifts(shifts, activeShiftId);
      assert forall x | x in Paginate(sorted, currentPage) :: x in multiset(sorted);
      Paginate(SortedShifts(shifts, activeShiftId), currentPage)
    }
  }
}
