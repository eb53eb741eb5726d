/**
 * The part of Spring Data's paging that the trip views use: a page request, the page
 * built over a list (PageImpl) and the response envelope the views return. The formulas
 * are those of Spring Data 2.x (PageImpl, Chunk); they are library code, restated here
 * under that assumption.
 */
module Paging {

  /** AppConstants.DEFAULT_PAGE_NUMBER, assumed to be "0". */
  const DefaultPageNumber: nat := 0

  /** PagedListHolder.DEFAULT_PAGE_SIZE of Spring. */
  const DefaultPageSize: nat := 10

  /** `PageRequest.of(page, size)` accepts these arguments: a page index of zero or more and a size of one or more. */
  predicate ValidPageRequest(page: int, size: int)
  {
    page >= 0 && size >= 1
  }

  /** `new PageRequest(page, size)`; Spring refuses a negative page or a size below one. */
  datatype PageRequest = PageRequest(page: nat, size: nat) {
    function Offset(): nat { page * size }
  }

  /** A page over `content`; `total` is the element count the page reports. */
  datatype Page<T> = Page(content: seq<T>, pageable: PageRequest, total: nat) {

    function Number(): nat { pageable.page }

    function Size(): nat { pageable.size }

    function TotalElements(): nat { total }

    /** ceil(total / size), or 1 for a page of size zero. */
    function TotalPages(): nat
    {
      if Size() == 0 then 1 else (total + Size() - 1) / Size()
    }

    predicate HasNext() { Number() + 1 < TotalPages() }

    predicate IsLast() { !HasNext() }
  }

  /**
   * `new PageImpl<>(content, pageable, total)`: when the content is not empty and the
   * requested page reaches past `total`, the reported total becomes offset + |content|.
   */
  function PageImpl<T>(content: seq<T>, pageable: PageRequest, total: nat): (p: Page<T>)
    ensures p.content == content && p.pageable == pageable
    ensures content == [] ==> p.total == total
    ensures pageable.page == 0 && |content| == total ==> p.total == total
  {
    var adjusted :=
      if content != [] && pageable.Offset() + pageable.size > total
      then pageable.Offset() + |content|
      else total;
    Page(content, pageable, adjusted)
  }

  /** The number of pages of `size` items needed to hold `total` items. */
  lemma TotalPagesBounds<T>(p: Page<T>)
    requires p.Size() > 0
    ensures p.TotalPages() * p.Size() >= p.total
    ensures p.TotalPages() > 0 ==> (p.TotalPages() - 1) * p.Size() < p.total
    ensures p.TotalPages() == 0 <==> p.total == 0
  {
  }

  /** The envelope MultiItemsResponse(content, page, size, totalElements, totalPages, last). */
  datatype MultiItemsResponse<R> = MultiItemsResponse(
    content: seq<R>,
    page: nat,
    size: nat,
    totalElements: nat,
    totalPages: nat,
    last: bool)
}
