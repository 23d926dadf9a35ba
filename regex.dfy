/**
 * The fragment of JavaScript regular expressions the explorer uses, always
 * anchored at both ends (`^...$`, no `m` flag): a literal character, a
 * character class repeated exactly n times (`[a-fA-F0-9]{64}`) and a character
 * class repeated one or more times (`\d+`). `Matches` is the backtracking
 * semantics of such a pattern.
 */
module Regex {
  import opened Text

  datatype CharClass = Digit | HexDigit

  datatype Atom =
    | Char(c: char)
    | Times(cls: CharClass, n: nat)
    | Plus(cls: CharClass)

  predicate InClass(cls: CharClass, c: char) {
    match cls
    case Digit => IsDigit(c)
    case HexDigit => IsHexDigit(c)
  }

  predicate AllIn(cls: CharClass, s: string) {
    forall i :: 0 <= i < |s| ==> InClass(cls, s[i])
  }

  /** Does the whole of `s` match the pattern `^p$`? */
  predicate Matches(p: seq<Atom>, s: string)
    decreases |s|, |p|
  {
    if p == [] then s == []
    else match p[0]
      case Char(c) => |s| > 0 && s[0] == c && Matches(p[1..], s[1..])
      case Times(cls, n) =>
        if n == 0 then Matches(p[1..], s)
        else |s| > 0 && InClass(cls, s[0]) && Matches([Times(cls, n - 1)] + p[1..], s[1..])
      case Plus(cls) =>
        |s| > 0 && InClass(cls, s[0]) && (Matches(p[1..], s[1..]) || Matches(p, s[1..]))
  }

  /** `x{n}` followed by `rest` matches exactly: n class characters, then a match of `rest`. */
  lemma {:induction false} TimesMatches(cls: CharClass, n: nat, rest: seq<Atom>, s: string)
    ensures Matches([Times(cls, n)] + rest, s) <==> n <= |s| && AllIn(cls, s[..n]) && Matches(rest, s[n..])
    decreases n
  {
    var p := [Times(cls, n)] + rest;
    assert p[1..] == rest;
    if n > 0 && |s| > 0 {
      TimesMatches(cls, n - 1, rest, s[1..]);
      if n <= |s| {
        assert s[1..][..n - 1] == s[1..n];
        assert s[1..][n - 1..] == s[n..];
      }
      if n <= |s| && AllIn(cls, s[..n]) {
        assert InClass(cls, s[..n][0]);
        assert forall i :: 0 <= i < n - 1 ==> s[1..n][i] == s[..n][i + 1];
      }
      if n <= |s| && InClass(cls, s[0]) && AllIn(cls, s[1..n]) {
        assert forall i :: 1 <= i < n ==> s[..n][i] == s[1..n][i - 1];
      }
    }
  }

  /** `^x+$` matches exactly the non-empty strings of class characters. */
  lemma {:induction false} PlusMatches(cls: CharClass, s: string)
    ensures Matches([Plus(cls)], s) <==> |s| >= 1 && AllIn(cls, s)
    decreases |s|
  {
    var p := [Plus(cls)];
    assert p[1..] == [];
    if |s| > 1 {
      PlusMatches(cls, s[1..]);
      if |s| >= 1 && AllIn(cls, s) {
        assert forall i :: 0 <= i < |s| - 1 ==> s[1..][i] == s[i + 1];
      }
    }
  }

  /** `^0x[class]{n}$`: the literal `0x` then exactly n class characters. */
  lemma PrefixedMatches(cls: CharClass, n: nat, s: string)
    ensures Matches([Char('0'), Char('x'), Times(cls, n)], s)
        <==> |s| == n + 2 && s[..2] == "0x" && AllIn(cls, s[2..])
  {
    var p := [Char('0'), Char('x'), Times(cls, n)];
    assert p[1..] == [Char('x'), Times(cls, n)];
    assert p[1..][1..] == [Times(cls, n)] + [];
    if |s| >= 2 {
      TimesMatches(cls, n, [], s[2..]);
      assert s[1..][1..] == s[2..];
      assert s[2..][..n] == s[2..] <== |s| == n + 2;
      if |s| == n + 2 && s[..2] == "0x" {
        assert s[0] == s[..2][0] && s[1] == s[..2][1];
      }
    }
  }
}
