/** The parts of <ctype.h>, <string.h> and of C integer arithmetic that the
    converter uses, over ASCII characters and mathematical integers.
    A C string is a `string` with no NUL character in it; a pointer into it
    is an index. */
module CLib {
  import opened Options

  // ---------------------------------------------------------------- ctype

  /** isspace in the "C" locale: space, \t, \n, \v, \f and \r. */
  predicate IsSpace(c: char) { c == ' ' || ('\t' <= c <= '\r') }

  /** isdigit: the ten decimal digits. */
  predicate IsDigit(c: char) { '0' <= c <= '9' }

  predicate AllDigits(s: string) { forall k :: 0 <= k < |s| ==> IsDigit(s[k]) }

  /** tolower in the "C" locale: only 'A'..'Z' change. */
  function ToLower(c: char): char { if 'A' <= c <= 'Z' then (c as int + 32) as char else c }

  /** Applies tolower to every character, as the loop over a buffer does. */
  function Lower(s: string): string { seq(|s|, k requires 0 <= k < |s| => ToLower(s[k])) }

  // ---------------------------------------------------------------- string.h

  /** `pat` occurs in `s` starting at index `i`. */
  predicate OccursAt(s: string, pat: string, i: nat) { i + |pat| <= |s| && s[i..i + |pat|] == pat }

  /** The first occurrence of `pat` in `s` at or after index `from`. */
  function IndexFrom(s: string, pat: string, from: nat): (r: Option<nat>)
    decreases |s| - from
    ensures r.Some? ==> from <= r.value && OccursAt(s, pat, r.value)
    ensures r.Some? ==> forall k :: from <= k < r.value ==> !OccursAt(s, pat, k)
    ensures r.None? ==> forall k :: from <= k ==> !OccursAt(s, pat, k)
  {
    if from + |pat| > |s| then None
    else if s[from..from + |pat|] == pat then Some(from)
    else IndexFrom(s, pat, from + 1)
  }

  /** strstr: the index of the first occurrence of `pat`, or None for NULL. */
  function IndexOf(s: string, pat: string): (r: Option<nat>)
    ensures r.Some? ==> OccursAt(s, pat, r.value) && forall k :: 0 <= k < r.value ==> !OccursAt(s, pat, k)
    ensures r.None? ==> forall k: nat :: !OccursAt(s, pat, k)
  {
    IndexFrom(s, pat, 0)
  }

  /** strstr(s, pat) != NULL: `pat` occurs somewhere in `s`. */
  predicate Contains(s: string, pat: string): (b: bool)
    ensures b <==> exists k: nat :: OccursAt(s, pat, k)
  {
    IndexOf(s, pat).Some?
  }

  /** strstr finds `pat` at `m` when it occurs there and nowhere earlier. */
  lemma IndexOfAt(s: string, pat: string, m: nat)
    requires OccursAt(s, pat, m)
    requires forall k :: 0 <= k < m ==> !OccursAt(s, pat, k)
    ensures IndexOf(s, pat) == Some(m)
  {
  }

  /** strrchr: the index of the last occurrence of `c`, or None for NULL. */
  function LastIndexOf(s: string, c: char): (r: Option<nat>)
    ensures r.Some? ==> r.value < |s| && s[r.value] == c
    ensures r.Some? ==> forall k :: r.value < k < |s| ==> s[k] != c
    ensures r.None? ==> forall k :: 0 <= k < |s| ==> s[k] != c
  {
    if |s| == 0 then None
    else if s[|s| - 1] == c then Some(|s| - 1)
    else LastIndexOf(s[..|s| - 1], c)
  }

  /** strrchr finds `c` at `d` when no later character is `c`. */
  lemma LastIndexOfAt(s: string, c: char, d: nat)
    requires d < |s| && s[d] == c
    requires forall k :: d < k < |s| ==> s[k] != c
    ensures LastIndexOf(s, c) == Some(d)
  {
  }

  /** strcspn(s, "\r\n"): the length of the longest prefix free of CR and LF. */
  function LineEndIndex(s: string): (n: nat)
    ensures n <= |s|
    ensures forall k :: 0 <= k < n ==> s[k] != '\r' && s[k] != '\n'
    ensures n == |s| || s[n] == '\r' || s[n] == '\n'
  {
    if |s| == 0 || s[0] == '\r' || s[0] == '\n' then 0 else 1 + LineEndIndex(s[1..])
  }

  /** strcspn stops at the line break that ends a line free of CR and LF. */
  lemma {:induction false} LineEndIndexAt(line: string, eol: string)
    requires forall k :: 0 <= k < |line| ==> line[k] != '\r' && line[k] != '\n'
    requires eol == [] || eol[0] == '\r' || eol[0] == '\n'
    ensures LineEndIndex(line + eol) == |line|
  {
    if |line| > 0 {
      assert (line + eol)[0] == line[0];
      assert (line + eol)[1..] == line[1..] + eol;
      LineEndIndexAt(line[1..], eol);
    } else {
      assert line + eol == eol;
    }
  }

  /** A pattern whose first character does not occur in `pre` occurs in
      `pre + post` only if it occurs in `post`. */
  lemma NotContainsAfter(pre: string, post: string, pat: string)
    requires 0 < |pat| && forall k :: 0 <= k < |pre| ==> pre[k] != pat[0]
    requires !Contains(post, pat)
    ensures !Contains(pre + post, pat)
  {
    var s := pre + post;
    forall k: nat | OccursAt(s, pat, k)
      ensures false
    {
      assert s[k..k + |pat|][0] == s[k];
      if k >= |pre| {
        assert post[k - |pre|..k - |pre| + |pat|] == s[k..k + |pat|];
        assert OccursAt(post, pat, k - |pre|);
      }
    }
  }

  // ---------------------------------------------------------------- scanning

  /** Where a `while (isspace(*p)) p++;` loop started at `i` stops. */
  function SkipSpaces(s: string, i: nat): (j: nat)
    requires i <= |s|
    decreases |s| - i
    ensures i <= j <= |s|
    ensures forall k :: i <= k < j ==> IsSpace(s[k])
    ensures j == |s| || !IsSpace(s[j])
  {
    if i < |s| && IsSpace(s[i]) then SkipSpaces(s, i + 1) else i
  }

  /** Where a `while (isdigit(*p)) p++;` loop started at `i` stops. */
  function DigitRunEnd(s: string, i: nat): (j: nat)
    requires i <= |s|
    decreases |s| - i
    ensures i <= j <= |s|
    ensures AllDigits(s[i..j])
    ensures j == |s| || !IsDigit(s[j])
  {
    if i < |s| && IsDigit(s[i]) then
      DigitRunEnd(s, i + 1)
    else i
  }

  /** A digit run that ends at `e` is exactly what the scan from `i` covers. */
  lemma {:induction false} DigitRunEndAt(s: string, i: nat, e: nat)
    requires i <= e <= |s| && AllDigits(s[i..e])
    requires e == |s| || !IsDigit(s[e])
    ensures DigitRunEnd(s, i) == e
    decreases e - i
  {
    if i < e {
      assert IsDigit(s[i..e][0]);
      assert s[i + 1..e] == s[i..e][1..];
      DigitRunEndAt(s, i + 1, e);
    }
  }

  /** A white-space run that ends at `e` is exactly what the skip from `i` covers. */
  lemma {:induction false} SkipSpacesAt(s: string, i: nat, e: nat)
    requires i <= e <= |s|
    requires forall k :: i <= k < e ==> IsSpace(s[k])
    requires e == |s| || !IsSpace(s[e])
    ensures SkipSpaces(s, i) == e
    decreases e - i
  {
    if i < e {
      SkipSpacesAt(s, i + 1, e);
    }
  }

  /** Where a loop that drops trailing whitespace from s[lo..hi] stops:
      the end of that span once its trailing whitespace is removed. */
  function TrimRightEnd(s: string, lo: nat, hi: nat): (e: nat)
    requires lo <= hi <= |s|
    decreases hi
    ensures lo <= e <= hi
    ensures forall k :: e <= k < hi ==> IsSpace(s[k])
    ensures e == lo || !IsSpace(s[e - 1])
  {
    if hi > lo && IsSpace(s[hi - 1]) then TrimRightEnd(s, lo, hi - 1) else hi
  }

  /** Trailing white space that starts at `e` is exactly what the trim drops. */
  lemma {:induction false} TrimRightEndAt(s: string, lo: nat, e: nat, hi: nat)
    requires lo <= e <= hi <= |s|
    requires forall k :: e <= k < hi ==> IsSpace(s[k])
    requires e == lo || !IsSpace(s[e - 1])
    ensures TrimRightEnd(s, lo, hi) == e
    decreases hi
  {
    if e < hi {
      TrimRightEndAt(s, lo, e, hi - 1);
    }
  }

  // ---------------------------------------------------------------- numbers

  function DigitValue(c: char): nat
    requires IsDigit(c)
  {
    c as int - '0' as int
  }

  /** The number a run of decimal digits denotes (leading zeros allowed). */
  function DigitsValue(ds: string): nat
    requires AllDigits(ds)
  {
    if |ds| == 0 then 0 else DigitsValue(ds[..|ds| - 1]) * 10 + DigitValue(ds[|ds| - 1])
  }

  /** C99 integer division, which truncates toward zero (unlike Dafny's `/`). */
  function CDiv(a: int, b: int): (q: int)
    requires b > 0
    ensures a >= 0 ==> 0 <= a - q * b < b
    ensures a < 0 ==> -b < a - q * b <= 0
  {
    if a >= 0 then a / b else -((-a) / b)
  }

  /** C99 `%`: the remainder that goes with CDiv, carrying the sign of `a`. */
  function CMod(a: int, b: int): (r: int)
    requires b > 0
    ensures a == CDiv(a, b) * b + r
    ensures a >= 0 ==> 0 <= r < b
    ensures a < 0 ==> -b < r <= 0
  {
    a - CDiv(a, b) * b
  }
}
