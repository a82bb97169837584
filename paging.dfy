/** Page arithmetic shared by the order history and the related-products
    carousel: `Array.prototype.slice` with non-negative bounds, the page
    count `Math.ceil(n / size)`, and the pages they cut a list into. */
module Paging {

  function Min(a: int, b: int): int { if a <= b then a else b }
  function Max(a: int, b: int): int { if a >= b then a else b }

  /** `s.slice(start, end)` for non-negative bounds: both are clamped to
      the length, and a start at or past the end gives nothing. */
  function Slice<T>(s: seq<T>, start: nat, end: nat): (r: seq<T>)
    ensures |r| == Max(0, Min(end, |s|) - Min(start, |s|))
    ensures start <= end && end <= |s| ==> r == s[start..end]
    ensures start <= |s| && |s| <= end ==> r == s[start..]
    ensures |s| <= start ==> r == []
  {
    var a := Min(start, |s|);
    var b := Min(end, |s|);
    if a < b then s[a..b] else []
  }

  /** Page `page` (counted from 0) of `size` elements. */
  function PageAt<T>(s: seq<T>, page: nat, size: nat): (r: seq<T>)
    requires size > 0
    ensures |r| <= size
  {
    Slice(s, page * size, (page + 1) * size)
  }

  /** `Math.ceil(n / size)`. */
  function TotalPages(n: nat, size: nat): (t: nat)
    requires size > 0
    ensures t == 0 <==> n == 0
    ensures n <= t * size
    ensures t > 0 ==> (t - 1) * size < n
  {
    (n + size - 1) / size
  }

  /** A page below the count is non-empty; a page at or past it is empty. */
  lemma PageAtCount<T>(s: seq<T>, page: nat, size: nat)
    requires size > 0
    ensures page < TotalPages(|s|, size) ==> |PageAt(s, page, size)| > 0
    ensures page >= TotalPages(|s|, size) ==> PageAt(s, page, size) == []
  {
    var t := TotalPages(|s|, size);
    assert (page + 1) * size == page * size + size;
    if page >= t {
      MulMono(t, page, size);
    } else {
      MulMono(page, t - 1, size);
    }
  }

  lemma {:induction false} MulMono(a: nat, b: nat, c: nat)
    requires a <= b
    ensures a * c <= b * c
    decreases b - a
  {
    if a < b {
      MulMono(a, b - 1, c);
      assert (b - 1) * c + c == b * c;
    }
  }

  /** Every page but the last is full. */
  lemma FullPagesBeforeLast<T>(s: seq<T>, page: nat, size: nat)
    requires size > 0 && page + 1 < TotalPages(|s|, size)
    ensures |PageAt(s, page, size)| == size
  {
    var t := TotalPages(|s|, size);
    assert (page + 1) * size <= (t - 1) * size;
  }

  /** Pages 0 to k - 1, one after the other. */
  function PagesUpTo<T>(s: seq<T>, size: nat, k: nat): seq<T>
    requires size > 0
  {
    if k == 0 then [] else PagesUpTo(s, size, k - 1) + PageAt(s, k - 1, size)
  }

  lemma {:induction false} PagesUpToPrefix<T>(s: seq<T>, size: nat, k: nat)
    requires size > 0
    ensures PagesUpTo(s, size, k) == s[..Min(k * size, |s|)]
  {
    if k > 0 {
      PagesUpToPrefix(s, size, k - 1);
      var a := Min((k - 1) * size, |s|);
      var b := Min(k * size, |s|);
      assert (k - 1) * size + size == k * size;
      assert a <= b;
      assert s[..a] + s[a..b] == s[..b];
    }
  }

  /** The pages, read one after the other, are the whole list. */
  lemma PagesCoverList<T>(s: seq<T>, size: nat)
    requires size > 0
    ensures PagesUpTo(s, size, TotalPages(|s|, size)) == s
  {
    PagesUpToPrefix(s, size, TotalPages(|s|, size));
    assert s[..|s|] == s;
  }
}
