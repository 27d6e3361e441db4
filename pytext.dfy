/**
 * Python's built-in string operations that the logging core relies on:
 * slicing with a possibly negative stop, ASCII upper-casing, `find`,
 * `lstrip` with a character set and `replace`.
 */
module PyText {

  function Min(a: int, b: int): int { if a <= b then a else b }
  function Max(a: int, b: int): int { if a <= b then b else a }

  /** The length of `s[:stop]` under Python's slicing rules. */
  function PrefixLength(s: string, stop: int): (n: nat)
    ensures n <= |s|
    ensures 0 <= stop <= |s| ==> n == stop
    ensures stop > |s| ==> n == |s|
    ensures stop < 0 ==> n == Max(0, |s| + stop)
  {
    if stop >= 0 then Min(stop, |s|) else Max(0, |s| + stop)
  }

  /** Python's `s[:stop]` (and `s[0:stop]`): a negative stop counts from the end. */
  function Prefix(s: string, stop: int): (r: string)
    ensures r <= s
    ensures |r| == PrefixLength(s, stop)
  {
    s[..PrefixLength(s, stop)]
  }

  /** No element of `s` occurs twice. */
  predicate Distinct<T(==)>(s: seq<T>) {
    forall i, j :: 0 <= i < j < |s| ==> s[i] != s[j]
  }

  function UpperChar(c: char): char {
    if 'a' <= c <= 'z' then (c as int - 32) as char else c
  }

  /** `s.upper()` on ASCII letters; every other character is kept. */
  function Upper(s: string): (r: string)
    ensures |r| == |s|
    ensures forall i :: 0 <= i < |s| ==> r[i] == UpperChar(s[i])
  {
    seq(|s|, i requires 0 <= i < |s| => UpperChar(s[i]))
  }

  lemma UpperIdempotent(s: string)
    ensures Upper(Upper(s)) == Upper(s)
  {
  }

  /** The first index at or after `i` holding `c`, or `|s|` when there is none. */
  function FindFrom(s: string, c: char, i: nat): (j: nat)
    requires i <= |s|
    ensures i <= j <= |s|
    ensures forall k :: i <= k < j ==> s[k] != c
    ensures j < |s| ==> s[j] == c
    decreases |s| - i
  {
    if i == |s| || s[i] == c then i else FindFrom(s, c, i + 1)
  }

  /**
   * `s.lstrip(chars)`: drops leading characters as long as they belong to
   * the SET of characters of `chars` (not the prefix `chars`).
   */
  function LStrip(s: string, chars: string): (r: string)
    ensures |r| <= |s| && r == s[|s| - |r|..]
    ensures forall i :: 0 <= i < |s| - |r| ==> s[i] in chars
    ensures r == [] || r[0] !in chars
    decreases |s|
  {
    if s != [] && s[0] in chars then LStrip(s[1..], chars) else s
  }

  /** `pat` starts nowhere in `s`. */
  predicate NoOccurrence(s: string, pat: string) {
    forall i :: 0 <= i < |s| ==> !(pat <= s[i..])
  }

  /**
   * `s.replace(pat, rep)`: every non-overlapping occurrence of `pat`, found
   * from left to right, becomes `rep`; the replacements are not rescanned.
   */
  function Replace(s: string, pat: string, rep: string): string
    requires pat != []
    decreases |s|
  {
    if s == [] then []
    else if pat <= s then rep + Replace(s[|pat|..], pat, rep)
    else [s[0]] + Replace(s[1..], pat, rep)
  }

  /** A prefix in which no occurrence of `pat` starts is copied unchanged. */
  lemma {:induction false} ReplaceSkips(a: string, b: string, pat: string, rep: string)
    requires pat != []
    requires forall i :: 0 <= i < |a| ==> !(pat <= (a + b)[i..])
    ensures Replace(a + b, pat, rep) == a + Replace(b, pat, rep)
  {
    if a != [] {
      assert !(pat <= (a + b)[0..]);
      assert (a + b)[1..] == a[1..] + b;
      forall i | 0 <= i < |a[1..]|
        ensures !(pat <= (a[1..] + b)[i..])
      {
        assert (a[1..] + b)[i..] == (a + b)[i + 1..];
      }
      ReplaceSkips(a[1..], b, pat, rep);
      assert [a[0]] + a[1..] == a;
    }
  }

  /** Without an occurrence of `pat`, `replace` returns its input. */
  lemma ReplaceAbsent(s: string, pat: string, rep: string)
    requires pat != []
    requires NoOccurrence(s, pat)
    ensures Replace(s, pat, rep) == s
  {
    assert s + [] == s;
    ReplaceSkips(s, [], pat, rep);
  }

  /**
   * Stripping the characters of `p` from `p + rest` removes exactly `p`
   * when `rest` does not begin with one of them.
   */
  lemma {:induction false} LStripExactly(p: string, rest: string, chars: string)
    requires forall i :: 0 <= i < |p| ==> p[i] in chars
    requires rest == [] || rest[0] !in chars
    ensures LStrip(p + rest, chars) == rest
  {
    if p != [] {
      assert (p + rest)[0] == p[0];
      assert (p + rest)[1..] == p[1..] + rest;
      LStripExactly(p[1..], rest, chars);
    }
  }
}
