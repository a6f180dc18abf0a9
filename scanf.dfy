/** The subset of sscanf the converter uses: formats made of `%d`
    conversions and ordinary characters, none of them white space. */
module Scanf {
  import opened Options
  import opened CLib
  import opened Printf

  /** One directive of a format: `%d`, or an ordinary character that the
      next input character must equal (no white space is skipped before it). */
  datatype Directive = Int | Lit(c: char)

  /** The number of `%d` conversions in a format. */
  function IntCount(fmt: seq<Directive>): nat
  {
    if |fmt| == 0 then 0 else (if fmt[0].Int? then 1 else 0) + IntCount(fmt[1..])
  }

  /** `%d` at index `i`: skip white space, take an optional sign, then at
      least one digit. Yields the value and the index after the last digit,
      or None when no digit follows (a matching failure). */
  function ScanInt(s: string, i: nat): (r: Option<(int, nat)>)
    requires i <= |s|
    ensures r.Some? ==> i < r.value.1 <= |s| && IsDigit(s[r.value.1 - 1])
    ensures r.Some? ==> r.value.1 == |s| || !IsDigit(s[r.value.1])
  {
    var j := SkipSpaces(s, i);
    var negative := j < |s| && s[j] == '-';
    var k := if j < |s| && (s[j] == '+' || s[j] == '-') then j + 1 else j;
    var e := DigitRunEnd(s, k);
    if e == k then None
    else
      var magnitude: int := DigitsValue(s[k..e]);
      Some((if negative then -magnitude else magnitude, e))
  }

  /** sscanf(s + i, fmt) when every directive must succeed: the converted
      values in order, or None as soon as one directive fails. Input after
      the last directive is ignored. */
  function Scan(fmt: seq<Directive>, s: string, i: nat): (r: Option<seq<int>>)
    requires i <= |s|
    decreases |fmt|
    ensures r.Some? ==> |r.value| == IntCount(fmt)
  {
    if |fmt| == 0 then Some([])
    else match fmt[0]
      case Int =>
        (match ScanInt(s, i)
         case None => None
         case Some((v, j)) =>
           match Scan(fmt[1..], s, j)
           case None => None
           case Some(vs) => Some([v] + vs))
      case Lit(c) =>
        if i < |s| && s[i] == c then Scan(fmt[1..], s, i + 1) else None
  }

  /** No ordinary character of the format is a digit, and no `%d` directly
      follows another, so that printed fields cannot run together. */
  predicate Separated(fmt: seq<Directive>)
  {
    forall k :: 0 <= k < |fmt| ==>
      (fmt[k].Lit? ==> !IsDigit(fmt[k].c)) && (fmt[k].Int? && k + 1 < |fmt| ==> fmt[k + 1].Lit?)
  }

  /** What printf writes for `fmt` when the k-th `%d` is `%0<widths[k]>d`
      and is given vals[k]. */
  function Render(fmt: seq<Directive>, vals: seq<int>, widths: seq<nat>): string
    requires |vals| == IntCount(fmt) && |widths| == IntCount(fmt)
    decreases |fmt|
  {
    if |fmt| == 0 then []
    else match fmt[0]
      case Lit(c) => [c] + Render(fmt[1..], vals, widths)
      case Int => ZeroPad(vals[0], widths[0]) + Render(fmt[1..], vals[1..], widths[1..])
  }

  /** `%d` at `i` when s[i] starts the number itself: a digit, or the
      minus sign of a negative number; the digits run up to `e`. */
  lemma ScanIntShape(s: string, i: nat, e: nat, negative: bool)
    requires i < |s|
    requires negative ==> s[i] == '-'
    requires !negative ==> IsDigit(s[i])
    requires (if negative then i + 1 else i) < e <= |s|
    requires DigitRunEnd(s, if negative then i + 1 else i) == e
    ensures negative ==> ScanInt(s, i) == Some((-(DigitsValue(s[i + 1..e]) as int), e))
    ensures !negative ==> ScanInt(s, i) == Some((DigitsValue(s[i..e]) as int, e))
  {
    assert SkipSpaces(s, i) == i;
  }

  /** `%d` reads an unsigned digit run `ds` found at `i` and stops after it. */
  lemma ScanIntOfDigits(s: string, i: nat, ds: string)
    requires 1 <= |ds| && AllDigits(ds)
    requires i + |ds| <= |s| && s[i..i + |ds|] == ds
    requires i + |ds| == |s| || !IsDigit(s[i + |ds|])
    ensures ScanInt(s, i) == Some((DigitsValue(ds) as int, i + |ds|))
  {
    assert s[i] == ds[0];
    DigitRunEndAt(s, i, i + |ds|);
    ScanIntShape(s, i, i + |ds|, false);
  }

  /** `%d` reads a minus sign followed by a digit run `ds` found at `i`. */
  lemma ScanIntOfNegative(s: string, i: nat, ds: string)
    requires 1 <= |ds| && AllDigits(ds)
    requires i + 1 + |ds| <= |s| && s[i] == '-' && s[i + 1..i + 1 + |ds|] == ds
    requires i + 1 + |ds| == |s| || !IsDigit(s[i + 1 + |ds|])
    ensures ScanInt(s, i) == Some((-(DigitsValue(ds) as int), i + 1 + |ds|))
  {
    DigitRunEndAt(s, i + 1, i + 1 + |ds|);
    ScanIntShape(s, i, i + 1 + |ds|, true);
  }

  /** `%d` reads back what `%0<w>d` printed, and stops right after it. */
  lemma ScanIntOfZeroPad(s: string, i: nat, n: int, w: nat)
    requires i <= |s| && |ZeroPad(n, w)| <= |s| - i
    requires s[i..i + |ZeroPad(n, w)|] == ZeroPad(n, w)
    requires i + |ZeroPad(n, w)| == |s| || !IsDigit(s[i + |ZeroPad(n, w)|])
    ensures ScanInt(s, i) == Some((n, i + |ZeroPad(n, w)|))
  {
    var p := ZeroPad(n, w);
    ZeroPadValue(n, w);
    if n >= 0 {
      ScanIntOfDigits(s, i, p);
    } else {
      assert s[i] == p[0];
      assert s[i + 1..i + |p|] == p[1..];
      ScanIntOfNegative(s, i, p[1..]);
    }
  }

  lemma SeparatedTail(fmt: seq<Directive>)
    requires Separated(fmt) && |fmt| > 0
    ensures Separated(fmt[1..])
  {
    forall k | 0 <= k < |fmt[1..]|
      ensures (fmt[1..][k].Lit? ==> !IsDigit(fmt[1..][k].c))
      ensures (fmt[1..][k].Int? && k + 1 < |fmt[1..]| ==> fmt[1..][k + 1].Lit?)
    {
      assert fmt[1..][k] == fmt[k + 1];
    }
  }

  /** Splits the text at index i into a printed piece and what follows it. */
  lemma SplitAt(s: string, i: nat, p: string, tail: string, rest: string)
    requires i <= |s| && s[i..] == (p + tail) + rest
    ensures i + |p| <= |s| && s[i..i + |p|] == p && s[i + |p|..] == tail + rest
  {
    assert s[i..] == p + (tail + rest);
    assert s[i..i + |p|] == s[i..][..|p|];
    assert s[i + |p|..] == s[i..][|p|..];
  }

  /** One `%d` step of Scan. */
  lemma ScanIntStep(fmt: seq<Directive>, s: string, i: nat, v: int, j: nat)
    requires |fmt| > 0 && fmt[0].Int? && i <= |s|
    requires ScanInt(s, i) == Some((v, j))
    ensures j <= |s|
    ensures Scan(fmt, s, i) == if Scan(fmt[1..], s, j).Some? then Some([v] + Scan(fmt[1..], s, j).value) else None
  {
  }

  /** One ordinary-character step of Scan. */
  lemma ScanLitStep(fmt: seq<Directive>, s: string, i: nat)
    requires |fmt| > 0 && fmt[0].Lit? && i < |s| && s[i] == fmt[0].c
    ensures Scan(fmt, s, i) == Scan(fmt[1..], s, i + 1)
  {
  }

  /** When the text at i was rendered from a format that starts with `%d`,
      `%d` reads the first value back and stops where the rest was rendered. */
  lemma ScanRenderedInt(fmt: seq<Directive>, vals: seq<int>, widths: seq<nat>, s: string, i: nat, rest: string)
    requires |fmt| > 0 && fmt[0].Int? && Separated(fmt)
    requires |vals| == IntCount(fmt) && |widths| == IntCount(fmt)
    requires i <= |s| && s[i..] == Render(fmt, vals, widths) + rest
    requires |fmt| == 1 ==> rest == [] || !IsDigit(rest[0])
    ensures i + |ZeroPad(vals[0], widths[0])| <= |s|
    ensures s[i + |ZeroPad(vals[0], widths[0])|..] == Render(fmt[1..], vals[1..], widths[1..]) + rest
    ensures ScanInt(s, i) == Some((vals[0], i + |ZeroPad(vals[0], widths[0])|))
  {
    var p := ZeroPad(vals[0], widths[0]);
    var tail := Render(fmt[1..], vals[1..], widths[1..]);
    SplitAt(s, i, p, tail, rest);
    if |fmt| > 1 {
      assert fmt[1].Lit? && tail[0] == fmt[1].c;
      assert s[i + |p|] == (tail + rest)[0];
    }
    ScanIntOfZeroPad(s, i, vals[0], widths[0]);
  }

  /** Round trip: scanning what printf rendered from a format yields the
      printed values, whatever text follows (unless it begins with a digit). */
  lemma {:induction false} ScanRender(fmt: seq<Directive>, vals: seq<int>, widths: seq<nat>, s: string, i: nat, rest: string)
    requires Separated(fmt)
    requires |vals| == IntCount(fmt) && |widths| == IntCount(fmt)
    requires i <= |s| && s[i..] == Render(fmt, vals, widths) + rest
    requires rest == [] || !IsDigit(rest[0])
    ensures Scan(fmt, s, i) == Some(vals)
    decreases |fmt|, 1
  {
    if |fmt| == 0 {
    } else if fmt[0].Lit? {
      SeparatedTail(fmt);
      SplitAt(s, i, [fmt[0].c], Render(fmt[1..], vals, widths), rest);
      ScanRender(fmt[1..], vals, widths, s, i + 1, rest);
      ScanLitStep(fmt, s, i);
    } else {
      ScanRenderInt(fmt, vals, widths, s, i, rest);
    }
  }

  /** The `%d` case of ScanRender. */
  lemma {:induction false} ScanRenderInt(fmt: seq<Directive>, vals: seq<int>, widths: seq<nat>, s: string, i: nat, rest: string)
    requires Separated(fmt) && |fmt| > 0 && fmt[0].Int?
    requires |vals| == IntCount(fmt) && |widths| == IntCount(fmt)
    requires i <= |s| && s[i..] == Render(fmt, vals, widths) + rest
    requires rest == [] || !IsDigit(rest[0])
    ensures Scan(fmt, s, i) == Some(vals)
    decreases |fmt|, 0
  {
    SeparatedTail(fmt);
    ScanRenderedInt(fmt, vals, widths, s, i, rest);
    var j := i + |ZeroPad(vals[0], widths[0])|;
    ScanRender(fmt[1..], vals[1..], widths[1..], s, j, rest);
    ScanIntStep(fmt, s, i, vals[0], j);
    assert [vals[0]] + vals[1..] == vals;
  }

  /** `fmt` and `other` agree directive by directive until both have an
      ordinary character there, and the two characters differ. */
  predicate Diverge(fmt: seq<Directive>, other: seq<Directive>)
    decreases |fmt|
  {
    0 < |fmt| && 0 < |other| &&
    if fmt[0] == other[0] then Diverge(fmt[1..], other[1..])
    else fmt[0].Lit? && other[0].Lit?
  }

  /** Two formats that share their first `k` directives and then have
      different ordinary characters diverge. */
  lemma {:induction false} DivergeAt(fmt: seq<Directive>, other: seq<Directive>, k: nat)
    requires k < |fmt| && k < |other| && fmt[..k] == other[..k]
    requires fmt[k].Lit? && other[k].Lit? && fmt[k] != other[k]
    ensures Diverge(fmt, other)
    decreases k
  {
    if k > 0 {
      assert fmt[0] == fmt[..k][0] == other[..k][0] == other[0];
      assert fmt[1..][..k - 1] == fmt[..k][1..];
      assert other[1..][..k - 1] == other[..k][1..];
      DivergeAt(fmt[1..], other[1..], k - 1);
    }
  }

  /** Scanning text rendered from a different format fails at the first
      ordinary character on which the two formats disagree. */
  lemma {:induction false} ScanRejectsRender(fmt: seq<Directive>, other: seq<Directive>, vals: seq<int>, widths: seq<nat>, s: string, i: nat, rest: string)
    requires Diverge(fmt, other) && Separated(other)
    requires |vals| == IntCount(other) && |widths| == IntCount(other)
    requires i <= |s| && s[i..] == Render(other, vals, widths) + rest
    ensures Scan(fmt, s, i) == None
    decreases |fmt|
  {
    SeparatedTail(other);
    if fmt[0] != other[0] || other[0].Lit? {
      SplitAt(s, i, [other[0].c], Render(other[1..], vals, widths), rest);
      if fmt[0] == other[0] {
        ScanRejectsRender(fmt[1..], other[1..], vals, widths, s, i + 1, rest);
        ScanLitStep(fmt, s, i);
      }
    } else {
      ScanRenderedInt(other, vals, widths, s, i, rest);
      var j := i + |ZeroPad(vals[0], widths[0])|;
      ScanRejectsRender(fmt[1..], other[1..], vals[1..], widths[1..], s, j, rest);
      ScanIntStep(fmt, s, i, vals[0], j);
    }
  }

  /** Two formats that diverge never both succeed on the same text: up to
      the point of divergence both read the same fields and stop at the
      same place, and there one needs a character the other does not. */
  lemma {:induction false} DivergeExclusive(fmt: seq<Directive>, other: seq<Directive>, s: string, i: nat)
    requires Diverge(fmt, other) && i <= |s|
    ensures Scan(fmt, s, i).None? || Scan(other, s, i).None?
    decreases |fmt|
  {
    if fmt[0] == other[0] {
      match fmt[0]
      case Int =>
        match ScanInt(s, i) {
          case None =>
          case Some((v, j)) =>
            DivergeExclusive(fmt[1..], other[1..], s, j);
        }
      case Lit(c) =>
        if i < |s| && s[i] == c {
          DivergeExclusive(fmt[1..], other[1..], s, i + 1);
        }
    }
  }
}
