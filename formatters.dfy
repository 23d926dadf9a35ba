/**
 * Display formatters: hash truncation, address shortening and the zero-total
 * guard of the percentage formatter.
 */
module Formatters {
  import opened Text

  /** The default number of leading and trailing characters `truncateHash` keeps. */
  const DefaultStartChars := 6
  const DefaultEndChars := 4

  /**
   * `truncateHash`: an empty input, or one no longer than start + end, is
   * returned as it is; otherwise the first `startChars` characters, `"..."`
   * and the last `endChars` characters. The counts follow `substring`, which
   * clamps out-of-range indices.
   */
  function TruncateHash(hash: string, startChars: int := DefaultStartChars, endChars: int := DefaultEndChars): (r: string)
    ensures |hash| == 0 || |hash| <= startChars + endChars ==> r == hash
  {
    if |hash| == 0 || |hash| <= startChars + endChars then hash
    else Substring(hash, 0, startChars) + "..." + SubstringFrom(hash, |hash| - endChars)
  }

  /**
   * With non-negative counts, a truncated hash keeps exactly the first
   * `startChars` and the last `endChars` characters around `"..."`, so its
   * length is startChars + endChars + 3 whatever the input's length.
   */
  lemma TruncateShape(hash: string, startChars: nat, endChars: nat)
    requires |hash| > startChars + endChars
    ensures var r := TruncateHash(hash, startChars, endChars);
      && |r| == startChars + endChars + 3
      && r[..startChars] == hash[..startChars]
      && r[startChars..startChars + 3] == "..."
      && r[startChars + 3..] == hash[|hash| - endChars..]
  {
  }

  /**
   * Truncation can lengthen its input: by 2 characters at start + end + 1,
   * by 1 at start + end + 2, and it shortens only inputs longer than
   * start + end + 3.
   */
  lemma TruncateLength(hash: string, startChars: nat, endChars: nat)
    ensures var r := TruncateHash(hash, startChars, endChars);
      && |r| <= |hash| + 2
      && (|r| > |hash| <==> startChars + endChars < |hash| <= startChars + endChars + 2)
      && (|r| < |hash| <==> |hash| > startChars + endChars + 3)
  {
    if |hash| > startChars + endChars {
      TruncateShape(hash, startChars, endChars);
    }
  }

  /**
   * `shortenAddress(a)` is `truncateHash(a, 6, 4)`: an address longer than
   * 10 characters keeps `0x` and the next 4 characters and the last 4, so a
   * 42-character address becomes 13 characters; up to 10 characters are kept
   * as they are.
   */
  function ShortenAddress(address: string): (r: string)
    ensures |address| > 10 ==> |r| == 13 && r[..6] == address[..6] && r[6..9] == "..."
                               && r[9..] == address[|address| - 4..]
    ensures |address| <= 10 ==> r == address
  {
    if |address| > 10 then TruncateShape(address, 6, 4); TruncateHash(address, 6, 4)
    else TruncateHash(address, 6, 4)
  }

  /** What `formatPercentage` shows: the literal `'0%'`, or the ratio rendered with two decimals. */
  datatype PercentageText = ZeroPercent | TwoDecimals(percent: real)

  /** `formatPercentage`: a zero total shows `'0%'` whatever the value. */
  function FormatPercentage(value: real, total: real): (r: PercentageText)
    ensures r == ZeroPercent <==> total == 0.0
    ensures total != 0.0 ==> r.percent * total == value * 100.0
  {
    if total == 0.0 then ZeroPercent else TwoDecimals(value / total * 100.0)
  }
}
