/**
 * `PagingInfo`: the state of one paged listing. Its page count is kept in
 * step with the item total and the page size by every constructor and by
 * the two setters that change them.
 */
module Paging {
  import opened Wrappers
  import opened JavaLang

  /** The page count `PagingInfo` keeps: `total + pageSize - 1` divided by `pageSize`, truncated. */
  function TotalPages(total: int, pageSize: int): int
    requires pageSize != 0
  {
    JavaDiv(total + pageSize - 1, pageSize)
  }

  /** For a non-negative total and a positive page size, that is the least number of pages holding every item. */
  lemma TotalPagesIsCeiling(total: int, pageSize: int)
    requires total >= 0 && pageSize >= 1
    ensures TotalPages(total, pageSize) >= 0
    ensures TotalPages(total, pageSize) * pageSize >= total
    ensures (TotalPages(total, pageSize) - 1) * pageSize < total
  {
    var n := total + pageSize - 1;
    var q := TotalPages(total, pageSize);
    assert q == n / pageSize;
    assert n == q * pageSize + n % pageSize;
    assert (q - 1) * pageSize == q * pageSize - pageSize;
  }

  /** Ten items in pages of three take four pages; none take none. */
  lemma TotalPagesExamples()
    ensures TotalPages(10, 3) == 4 && TotalPages(9, 3) == 3 && TotalPages(0, 3) == 0 && TotalPages(0, 1) == 0
  {
  }

  class PagingInfo {
    var key: Option<string>
    var url: Option<string>
    var total: int
    var pageIndex: int
    var pageSize: int
    var totalPage: int

    /** The page count agrees with the current total and page size. */
    predicate Consistent()
      reads this
    {
      pageSize != 0 && totalPage == TotalPages(total, pageSize)
    }

    /** `PagingInfo()`: an empty key and url, no items, page 0, pages of one. */
    constructor Default()
      ensures key == Some("") && url == Some("") && total == 0 && pageIndex == 0 && pageSize == 1
      ensures totalPage == 0 && Consistent()
    {
      key := Some("");
      url := Some("");
      total := 0;
      pageIndex := 0;
      pageSize := 1;
      totalPage := 0;
    }

    /** `PagingInfo(key, url, total, pageIndex, pageSize)`: a page size of 0 or less becomes 1; key and url may be null. */
    constructor (key: Option<string>, url: Option<string>, total: int, pageIndex: int, pageSize: int)
      ensures this.key == key && this.url == url && this.total == total && this.pageIndex == pageIndex
      ensures this.pageSize == if pageSize <= 0 then 1 else pageSize
      ensures Consistent()
    {
      this.key := key;
      this.url := url;
      this.total := total;
      this.pageIndex := pageIndex;
      if pageSize <= 0 {
        this.pageSize := 1;
      } else {
        this.pageSize := pageSize;
      }
      new;
      var thrown := ComputeTotalPage();
    }

    /** `setKey`; null is accepted. */
    method SetKey(key: Option<string>)
      modifies this
      ensures this.key == key
      ensures url == old(url) && total == old(total) && pageIndex == old(pageIndex)
      ensures pageSize == old(pageSize) && totalPage == old(totalPage)
    {
      this.key := key;
    }

    /** `setUrl`; null is accepted. */
    method SetUrl(url: Option<string>)
      modifies this
      ensures this.url == url
      ensures key == old(key) && total == old(total) && pageIndex == old(pageIndex)
      ensures pageSize == old(pageSize) && totalPage == old(totalPage)
    {
      this.url := url;
    }

    method SetPageIndex(pageIndex: int)
      modifies this
      ensures this.pageIndex == pageIndex
      ensures key == old(key) && url == old(url) && total == old(total)
      ensures pageSize == old(pageSize) && totalPage == old(totalPage)
    {
      this.pageIndex := pageIndex;
    }

    /** `setTotal`: stores the total and recounts the pages, which fails while the page size is 0. */
    method SetTotal(total: int) returns (thrown: Option<JavaException>)
      modifies this
      ensures this.total == total
      ensures key == old(key) && url == old(url) && pageIndex == old(pageIndex) && pageSize == old(pageSize)
      ensures thrown.Some? <==> pageSize == 0
      ensures thrown.Some? ==> thrown.value == ArithmeticException && totalPage == old(totalPage)
      ensures thrown.None? ==> Consistent()
    {
      this.total := total;
      thrown := ComputeTotalPage();
    }

    /**
     * `setPageSize`: stores the page size as given, without the
     * constructor's clamp, and recounts the pages; a size of 0 is stored
     * and then the recount fails, leaving the old page count.
     */
    method SetPageSize(pageSize: int) returns (thrown: Option<JavaException>)
      modifies this
      ensures this.pageSize == pageSize
      ensures key == old(key) && url == old(url) && total == old(total) && pageIndex == old(pageIndex)
      ensures thrown.Some? <==> pageSize == 0
      ensures thrown.Some? ==> thrown.value == ArithmeticException && totalPage == old(totalPage)
      ensures thrown.None? ==> Consistent()
    {
      this.pageSize := pageSize;
      thrown := ComputeTotalPage();
    }

    /** `computeTotalPage`; dividing by a page size of 0 throws. */
    method ComputeTotalPage() returns (thrown: Option<JavaException>)
      modifies this
      ensures key == old(key) && url == old(url) && total == old(total)
      ensures pageIndex == old(pageIndex) && pageSize == old(pageSize)
      ensures thrown.Some? <==> pageSize == 0
      ensures thrown.Some? ==> thrown.value == ArithmeticException && totalPage == old(totalPage)
      ensures thrown.None? ==> Consistent()
    {
      if pageSize == 0 {
        return Some(ArithmeticException);
      }
      totalPage := JavaDiv(total + pageSize - 1, pageSize);
      return None;
    }
  }
}
