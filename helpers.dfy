/**
 * Input validators and the pagination window of the explorer's list views.
 */
module Helpers {
  import opened Text
  import opened Regex

  // ---------------------------------------------------------------------------
  // Validators: anchored regular expressions, written in the Regex fragment.

  /** `/^0x[a-fA-F0-9]{40}$/` */
  const AddressPattern: seq<Atom> := [Char('0'), Char('x'), Times(HexDigit, 40)]
  /** `/^0x[a-fA-F0-9]{64}$/` */
  const TransactionHashPattern: seq<Atom> := [Char('0'), Char('x'), Times(HexDigit, 64)]
  /** `/^\d+$/` */
  const BlockNumberPattern: seq<Atom> := [Plus(Digit)]

  /** `isValidEthereumAddress`: `0x` and exactly 40 hex digits of either case, 42 characters. */
  function IsValidEthereumAddress(address: string): (b: bool)
    ensures b <==> |address| == 42 && address[..2] == "0x" && AllHexDigits(address[2..])
  {
    AddressShape(address);
    Matches(AddressPattern, address)
  }

  /** `isValidTransactionHash`: `0x` and exactly 64 hex digits of either case, 66 characters. */
  function IsValidTransactionHash(hash: string): (b: bool)
    ensures b <==> |hash| == 66 && hash[..2] == "0x" && AllHexDigits(hash[2..])
  {
    TransactionHashShape(hash);
    Matches(TransactionHashPattern, hash)
  }

  /** `isValidBlockNumber`: a non-empty run of ASCII digits, with no sign, space or comma. */
  function IsValidBlockNumber(input: string): (b: bool)
    ensures b <==> |input| >= 1 && AllDigits(input)
  {
    BlockNumberShape(input);
    Matches(BlockNumberPattern, input)
  }

  lemma HexClassIsHexDigit(s: string)
    ensures AllIn(HexDigit, s) <==> AllHexDigits(s)
  {
    assert forall i :: 0 <= i < |s| ==> (InClass(HexDigit, s[i]) <==> IsHexDigit(s[i]));
  }

  /** The address pattern matches `0x` and exactly 40 hex digits of either case. */
  lemma AddressShape(s: string)
    ensures Matches(AddressPattern, s) <==> |s| == 42 && s[..2] == "0x" && AllHexDigits(s[2..])
  {
    PrefixedMatches(HexDigit, 40, s);
    if |s| >= 2 { HexClassIsHexDigit(s[2..]); }
  }

  /** The hash pattern matches `0x` and exactly 64 hex digits of either case. */
  lemma TransactionHashShape(s: string)
    ensures Matches(TransactionHashPattern, s) <==> |s| == 66 && s[..2] == "0x" && AllHexDigits(s[2..])
  {
    PrefixedMatches(HexDigit, 64, s);
    if |s| >= 2 { HexClassIsHexDigit(s[2..]); }
  }

  /** The block-number pattern matches a non-empty run of ASCII digits. */
  lemma BlockNumberShape(s: string)
    ensures Matches(BlockNumberPattern, s) <==> |s| >= 1 && AllDigits(s)
  {
    PlusMatches(Digit, s);
    assert AllIn(Digit, s) <==> AllDigits(s);
  }

  /** No string passes two validators: the lengths 42 and 66 differ, and `x` is not a digit. */
  lemma ValidatorsDisjoint(s: string)
    ensures !(IsValidEthereumAddress(s) && IsValidTransactionHash(s))
    ensures IsValidBlockNumber(s) ==> !IsValidEthereumAddress(s) && !IsValidTransactionHash(s)
  {
    if IsValidBlockNumber(s) && |s| >= 2 {
      assert s[..2][1] == s[1];
      assert IsDigit(s[1]);
    }
  }

  // ---------------------------------------------------------------------------
  // Pagination window.

  /** One entry of the page list: a page number or the `'...'` marker. */
  datatype PageItem = Page(number: int) | Ellipsis

  function Max(a: int, b: int): int { if a >= b then a else b }
  function Min(a: int, b: int): int { if a <= b then a else b }

  /** The consecutive pages lo, lo+1, ..., hi (empty when hi < lo). */
  function PageRun(lo: int, hi: int): (r: seq<PageItem>)
    ensures |r| == if hi >= lo then hi - lo + 1 else 0
    ensures forall k :: 0 <= k < |r| ==> r[k] == Page(lo + k)
  {
    seq(if hi >= lo then hi - lo + 1 else 0, k => Page(lo + k))
  }

  /** The first page of the window and the last. */
  function WindowStart(current: int, delta: int): int { Max(2, current - delta) }
  function WindowEnd(current: int, total: int, delta: int): int { Min(total - 1, current + delta) }

  /** Page 1, followed by `'...'` when the window starts beyond page 3. */
  function Head(current: int, delta: int): seq<PageItem> {
    if current - delta > 2 then [Page(1), Ellipsis] else [Page(1)]
  }

  /** The last page, preceded by `'...'` when the window stops short of total - 1. */
  function Tail(current: int, total: int, delta: int): seq<PageItem> {
    if current + delta < total - 1 then [Ellipsis, Page(total)]
    else if total > 1 then [Page(total)]
    else []
  }

  /** The page list `calculatePaginationRange` returns; it always starts with page 1. */
  function PaginationRange(current: int, total: int, delta: int): (r: seq<PageItem>)
    ensures |r| >= 1 && r[0] == Page(1)
  {
    Head(current, delta)
    + PageRun(WindowStart(current, delta), WindowEnd(current, total, delta))
    + Tail(current, total, delta)
  }

  /**
   * The loop collects the window, then the page list is assembled around it
   * with the first page, the last page and the `'...'` markers.
   */
  method CalculatePaginationRange(currentPage: int, totalPages: int, delta: int := 2)
    returns (rangeWithDots: seq<PageItem>)
    ensures rangeWithDots == PaginationRange(currentPage, totalPages, delta)
  {
    var range: seq<int> := [];
    var lo := Max(2, currentPage - delta);
    var i := lo;
    while i <= Min(totalPages - 1, currentPage + delta)
      invariant lo <= i
      invariant i > lo ==> i <= Min(totalPages - 1, currentPage + delta) + 1
      invariant |range| == i - lo
      invariant forall k :: 0 <= k < |range| ==> range[k] == lo + k
      decreases Min(totalPages - 1, currentPage + delta) - i
    {
      range := range + [i];
      i := i + 1;
    }

    rangeWithDots := [];
    if currentPage - delta > 2 {
      rangeWithDots := rangeWithDots + [Page(1), Ellipsis];
    } else {
      rangeWithDots := rangeWithDots + [Page(1)];
    }

    rangeWithDots := rangeWithDots + seq(|range|, k requires 0 <= k < |range| => Page(range[k]));

    if currentPage + delta < totalPages - 1 {
      rangeWithDots := rangeWithDots + [Ellipsis, Page(totalPages)];
    } else if totalPages > 1 {
      rangeWithDots := rangeWithDots + [Page(totalPages)];
    }
  }

  /** Each `'...'` stands between two pages and hides at least one page. */
  ghost predicate EllipsesHidePages(r: seq<PageItem>) {
    forall i :: 0 <= i < |r| && r[i].Ellipsis? ==>
      0 < i < |r| - 1 && r[i - 1].Page? && r[i + 1].Page? && r[i + 1].number >= r[i - 1].number + 2
  }

  /** Two pages shown side by side are consecutive. */
  ghost predicate AdjacentPagesConsecutive(r: seq<PageItem>) {
    forall i :: 0 <= i < |r| - 1 && r[i].Page? && r[i + 1].Page? ==> r[i + 1].number == r[i].number + 1
  }

  ghost predicate StrictlyIncreasing(r: seq<PageItem>) {
    forall i, j :: 0 <= i < j < |r| && r[i].Page? && r[j].Page? ==> r[i].number < r[j].number
  }

  /** Pages are increasing as soon as every gap between neighbours is positive. */
  lemma {:induction false} GapsGiveIncrease(r: seq<PageItem>, i: nat, j: nat)
    requires EllipsesHidePages(r) && AdjacentPagesConsecutive(r)
    requires i < j < |r| && r[i].Page? && r[j].Page?
    ensures r[i].number < r[j].number
    decreases j - i
  {
    if r[i + 1].Page? {
      if i + 1 < j { GapsGiveIncrease(r, i + 1, j); }
    } else {
      assert r[i + 2].Page?;
      if i + 2 < j { GapsGiveIncrease(r, i + 2, j); }
    }
  }

  /** The entry at index k, read off the three parts of the list. */
  lemma PaginationAt(current: int, total: int, delta: int, k: int)
    requires 0 <= k < |PaginationRange(current, total, delta)|
    ensures var h := Head(current, delta);
            var m := PageRun(WindowStart(current, delta), WindowEnd(current, total, delta));
            PaginationRange(current, total, delta)[k]
              == if k < |h| then h[k]
                 else if k < |h| + |m| then Page(WindowStart(current, delta) + k - |h|)
                 else Tail(current, total, delta)[k - |h| - |m|]
  {
  }

  /** The list as its three parts, entry by entry. */
  ghost predicate ReadsAsParts(current: int, total: int, delta: int) {
    var r := PaginationRange(current, total, delta);
    var h := Head(current, delta);
    var m := PageRun(WindowStart(current, delta), WindowEnd(current, total, delta));
    var t := Tail(current, total, delta);
    forall k :: 0 <= k < |r| ==>
      r[k] == if k < |h| then h[k] else if k < |h| + |m| then Page(WindowStart(current, delta) + k - |h|) else t[k - |h| - |m|]
  }

  lemma PaginationParts(current: int, total: int, delta: int)
    ensures ReadsAsParts(current, total, delta)
  {
    forall k | 0 <= k < |PaginationRange(current, total, delta)| {
      PaginationAt(current, total, delta, k);
    }
  }

  /**
   * For a current page within [1, total] and delta >= 0: the list starts with
   * page 1, ends with the last page when there is more than one, and shows
   * pages within [1, total] only.
   */
  lemma PaginationEnds(current: int, total: int, delta: int)
    requires 1 <= current <= total && delta >= 0
    ensures var r := PaginationRange(current, total, delta);
      && |r| >= 1 && r[0] == Page(1)
      && (total > 1 <==> r[|r| - 1] == Page(total) && |r| > 1)
      && (total == 1 ==> r == [Page(1)])
      && (forall k :: 0 <= k < |r| && r[k].Page? ==> 1 <= r[k].number <= total)
  {
    PaginationParts(current, total, delta);
  }

  /** Neighbouring pages are consecutive and every `'...'` hides at least one page. */
  lemma PaginationGaps(current: int, total: int, delta: int)
    requires 1 <= current <= total && delta >= 0
    ensures EllipsesHidePages(PaginationRange(current, total, delta))
    ensures AdjacentPagesConsecutive(PaginationRange(current, total, delta))
  {
    PaginationParts(current, total, delta);
  }

  /**
   * For a current page within [1, total] and delta >= 0: the list starts with
   * page 1, ends with the last page when there is more than one, shows pages
   * within [1, total] only, and every gap between shown pages is marked by
   * exactly one `'...'`.
   */
  lemma PaginationShape(current: int, total: int, delta: int)
    requires 1 <= current <= total && delta >= 0
    ensures var r := PaginationRange(current, total, delta);
      && |r| >= 1 && r[0] == Page(1)
      && (total > 1 <==> r[|r| - 1] == Page(total) && |r| > 1)
      && (total == 1 ==> r == [Page(1)])
      && (forall k :: 0 <= k < |r| && r[k].Page? ==> 1 <= r[k].number <= total)
      && EllipsesHidePages(r)
      && AdjacentPagesConsecutive(r)
  {
    PaginationEnds(current, total, delta);
    PaginationGaps(current, total, delta);
  }

  /** Page numbers strictly increase along the list, so none is shown twice. */
  lemma PaginationIncreasing(current: int, total: int, delta: int)
    requires 1 <= current <= total && delta >= 0
    ensures StrictlyIncreasing(PaginationRange(current, total, delta))
  {
    var r := PaginationRange(current, total, delta);
    PaginationShape(current, total, delta);
    forall i, j | 0 <= i < j < |r| && r[i].Page? && r[j].Page?
      ensures r[i].number < r[j].number
    {
      GapsGiveIncrease(r, i, j);
    }
  }

  /**
   * The window: every page within delta of the current one (and within
   * [1, total]) is shown, and every page shown is page 1, the last page or
   * one of the window from max(2, current - delta) to min(total - 1, current + delta).
   */
  lemma PaginationWindow(current: int, total: int, delta: int)
    requires 1 <= current <= total && delta >= 0
    ensures var r := PaginationRange(current, total, delta);
      && (forall p :: Max(1, current - delta) <= p <= Min(total, current + delta) ==> Page(p) in r)
      && (forall k :: 0 <= k < |r| && r[k].Page? ==>
            r[k].number == 1 || r[k].number == total
            || WindowStart(current, delta) <= r[k].number <= WindowEnd(current, total, delta))
  {
    var r := PaginationRange(current, total, delta);
    var h := Head(current, delta);
    var lo, hi := WindowStart(current, delta), WindowEnd(current, total, delta);
    var m := PageRun(lo, hi);
    forall p | Max(1, current - delta) <= p <= Min(total, current + delta)
      ensures Page(p) in r
    {
      if p == 1 {
        assert r[0] == Page(1);
      } else if p == total {
        PaginationShape(current, total, delta);
        assert r[|r| - 1] == Page(total);
      } else {
        assert m[p - lo] == Page(p);
        PaginationAt(current, total, delta, |h| + p - lo);
      }
    }
    forall k | 0 <= k < |r| && r[k].Page?
      ensures r[k].number == 1 || r[k].number == total || lo <= r[k].number <= hi
    {
      PaginationAt(current, total, delta, k);
    }
  }

  /**
   * The current page is always shown; a `'...'` comes before it exactly when
   * current - delta > 2, and after it exactly when current + delta < total - 1.
   */
  lemma PaginationEllipses(current: int, total: int, delta: int) returns (k: nat)
    requires 1 <= current <= total && delta >= 0
    ensures var r := PaginationRange(current, total, delta);
      && k < |r| && r[k] == Page(current)
      && (Ellipsis in r[..k] <==> current - delta > 2)
      && (Ellipsis in r[k + 1..] <==> current + delta < total - 1)
  {
    var r := PaginationRange(current, total, delta);
    var h := Head(current, delta);
    var lo, hi := WindowStart(current, delta), WindowEnd(current, total, delta);
    var m := PageRun(lo, hi);
    var t := Tail(current, total, delta);
    assert r == h + m + t;
    if current == 1 {
      k := 0;
      assert r[k + 1..] == h[1..] + m + t;
    } else if current == total {
      k := |r| - 1;
      assert t == [Page(total)];
      assert r[..k] == h + m;
    } else {
      k := |h| + current - lo;
      assert m[current - lo] == Page(current);
      assert r[..k] == h + m[..current - lo];
      assert r[k + 1..] == m[current - lo + 1..] + t;
    }
  }

  /**
   * With no pages at all (`totalPages` 0, current page 1) the list is still
   * `[1]`: page 1 is shown although it lies outside [1, total].
   */
  lemma PaginationWithoutPages(delta: int)
    requires delta >= 0
    ensures PaginationRange(1, 0, delta) == [Page(1)]
  {
    assert PageRun(WindowStart(1, delta), WindowEnd(1, 0, delta)) == [];
  }

  /** However many pages there are, the list holds at most 2 * delta + 5 entries. */
  lemma PaginationBounded(current: int, total: int, delta: int)
    requires delta >= 0
    ensures |PaginationRange(current, total, delta)| <= 2 * delta + 5
  {
    assert |PageRun(WindowStart(current, delta), WindowEnd(current, total, delta))| <= 2 * delta + 1;
  }
}
