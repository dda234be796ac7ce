/** The page slicing of the PDF download: one tall image of height `imgHeight` (millimetres, at the
    210 mm page width) is placed on successive A4 pages, shifted up one page height each time. */
module Pagination {
  const PageHeight: real := 297.0

  /** How many pages the slicing loop emits: one, plus one more each time the remaining height is
      still non-negative after subtracting a page, that is floor(h / 297) + 1 for h >= 0. */
  function PageCount(h: real): (n: nat)
    ensures n >= 1
  {
    if h < 0.0 then 1 else (h / PageHeight).Floor + 1
  }

  /** The vertical offset of the image on each emitted page. The first page carries it at 0;
      each later page at `heightLeft - imgHeight`. */
  method Paginate(imgHeight: real) returns (offsets: seq<real>)
    ensures |offsets| == PageCount(imgHeight)
    ensures forall k :: 0 <= k < |offsets| ==> offsets[k] == -PageHeight * k as real
  {
    var heightLeft := imgHeight;
    var position := 0.0;
    offsets := [position];
    heightLeft := heightLeft - PageHeight;
    while heightLeft >= 0.0
      invariant 1 <= |offsets| <= PageCount(imgHeight)
      invariant heightLeft == imgHeight - PageHeight * |offsets| as real
      invariant heightLeft >= 0.0 ==> |offsets| < PageCount(imgHeight)
      invariant heightLeft < 0.0 ==> |offsets| == PageCount(imgHeight)
      invariant forall k :: 0 <= k < |offsets| ==> offsets[k] == -PageHeight * k as real
      decreases PageCount(imgHeight) - |offsets|
    {
      position := heightLeft - imgHeight;
      offsets := offsets + [position];
      heightLeft := heightLeft - PageHeight;
    }
  }

  /** For a non-negative height the pages leave no gap at the end: the last page starts at or above
      the bottom of the image, and together the pages reach past it. Page k shows the band
      [297 k, 297 (k + 1)) of the image, so consecutive bands meet without gap or overlap. */
  lemma PagesCoverImage(h: real)
    requires h >= 0.0
    ensures PageHeight * (PageCount(h) - 1) as real <= h < PageHeight * PageCount(h) as real
  {
  }

  /** A positive height that is an exact multiple of the page height gets one page more than it
      fills: the last page starts exactly where the image ends and shows none of it. */
  lemma TrailingBlankPage(n: nat)
    requires n >= 1
    ensures PageCount(PageHeight * n as real) == n + 1
    ensures PageHeight * (PageCount(PageHeight * n as real) - 1) as real == PageHeight * n as real
  {
    assert (PageHeight * n as real) / PageHeight == n as real;
  }

  /** Compared with ceil(h / 297): the same count, except one more when h is a positive multiple of 297. */
  lemma PageCountVersusCeiling(h: real, c: nat)
    requires h > 0.0
    requires PageHeight * (c - 1) as real < h <= PageHeight * c as real  // c is ceil(h / 297)
    ensures PageCount(h) == if h == PageHeight * c as real then c + 1 else c
  {
    if h == PageHeight * c as real {
      assert h / PageHeight == c as real;
    } else {
      assert (c - 1) as real < h / PageHeight < c as real;
    }
  }
}
