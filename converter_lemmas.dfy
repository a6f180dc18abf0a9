/** What the conversion promises, line by line and over a whole file. */
module ConverterLemmas {
  import opened Options
  import opened CLib
  import opened Printf
  import opened Scanf
  import opened Converter

  // ---------------------------------------------------------------- the header flag

  /** The header flag is cleared by a WEBVTT line and by nothing else. */
  lemma HeaderFlag(st: State, raw: string)
    ensures Step(st, raw).state.awaitingHeader <==> st.awaitingHeader && !Contains(CutLine(raw), "WEBVTT")
  {
  }

  /** While the header is awaited, a WEBVTT line and an empty line write
      nothing and keep the timestamp flag. */
  lemma HeaderLinesDropped(st: State, raw: string)
    requires st.awaitingHeader
    requires Contains(CutLine(raw), "WEBVTT") || |CutLine(raw)| == 0
    ensures Step(st, raw).output == []
    ensures Step(st, raw).state.timestampFound == st.timestampFound
  {
  }

  /** A header is not required: any other line is handled the same way
      whether or not the header has been seen. */
  lemma HeaderNotRequired(found: bool, raw: string)
    requires !Contains(CutLine(raw), "WEBVTT") && |CutLine(raw)| > 0
    ensures Step(State(true, found), raw).output == Step(State(false, found), raw).output
    ensures Step(State(true, found), raw).state.timestampFound == Step(State(false, found), raw).state.timestampFound
  {
    var line := CutLine(raw);
    assert line[0] != '\r';
  }

  // ---------------------------------------------------------------- skipped lines

  /** Metadata lines, empty lines and cue numbers write nothing and leave
      both flags as they are (unless they clear the header flag). */
  lemma SkippedLinesUnchanged(st: State, raw: string)
    requires IsMetadataOrBlank(CutLine(raw)) || IsCueNumber(CutLine(raw))
    requires !(st.awaitingHeader && Contains(CutLine(raw), "WEBVTT"))
    ensures Step(st, raw) == Conversion(st, [])
  {
  }

  // ---------------------------------------------------------------- parsing the start time

  /** The position of a format in the order in which they are tried. */
  function Rank(f: TimeFormat): nat
  {
    match f
    case HmsDot => 0
    case MsDot => 1
    case HmsComma => 2
    case MsComma => 3
  }

  lemma DirectivesSeparated(f: TimeFormat)
    ensures Separated(Directives(f))
  {
    var fmt := Directives(f);
    forall k | 0 <= k < |fmt|
      ensures (fmt[k].Lit? ==> !IsDigit(fmt[k].c)) && (fmt[k].Int? && k + 1 < |fmt| ==> fmt[k + 1].Lit?)
    {
      assert k % 2 == 0 <==> fmt[k].Int?;
    }
  }

  /** Text written in one format fails every format tried before it, at
      the first separator on which the two differ. */
  lemma DirectivesDiverge(g: TimeFormat, f: TimeFormat)
    requires Rank(g) < Rank(f)
    ensures Diverge(Directives(g), Directives(f))
  {
    var k := if WithHour(g) && WithHour(f) then 5 else 3;
    assert Directives(g)[..k] == Directives(f)[..k];
    DivergeAt(Directives(g), Directives(f), k);
  }

  /** No text is read by two of the four formats. */
  lemma FormatsExclusive(f: TimeFormat, g: TimeFormat, field: string)
    requires f != g
    ensures ScanTime(f, field).None? || ScanTime(g, field).None?
  {
    if Rank(f) < Rank(g) {
      DirectivesDiverge(f, g);
      DivergeExclusive(Directives(f), Directives(g), field, 0);
    } else {
      DirectivesDiverge(g, f);
      DivergeExclusive(Directives(g), Directives(f), field, 0);
    }
  }

  /** Whatever the field, the chain of attempts yields what any format that
      reads it yields: the order in which the formats are tried does not
      matter. */
  lemma ParseStartTimeOrderFree(f: TimeFormat, field: string)
    requires ScanTime(f, field).Some?
    ensures ParseStartTime(field) == ScanTime(f, field)
  {
    match f
    case HmsDot =>
    case MsDot =>
      FormatsExclusive(f, HmsDot, field);
    case HmsComma =>
      FormatsExclusive(f, HmsDot, field);
      FormatsExclusive(f, MsDot, field);
    case MsComma =>
      FormatsExclusive(f, HmsDot, field);
      FormatsExclusive(f, MsDot, field);
      FormatsExclusive(f, HmsComma, field);
  }

  /** Every form tried before `f` fails on a start field written in form
      `f`, whatever follows it. */
  lemma EarlierFormatsFail(f: TimeFormat, vals: seq<int>, widths: seq<nat>, rest: string)
    requires |vals| == IntCount(Directives(f)) && |widths| == IntCount(Directives(f))
    ensures forall g :: Rank(g) < Rank(f) ==> ScanTime(g, Render(Directives(f), vals, widths) + rest).None?
  {
    var s := Render(Directives(f), vals, widths) + rest;
    assert s[0..] == s;
    DirectivesSeparated(f);
    forall g | Rank(g) < Rank(f)
      ensures ScanTime(g, s).None?
    {
      DirectivesDiverge(g, f);
      ScanRejectsRender(Directives(g), Directives(f), vals, widths, s, 0, rest);
    }
  }

  /** Each of the four forms is read back by the chain of attempts: a
      start field written in form `f` (fields of any width, then any text
      that does not begin with a digit) yields the fields of `f`, with the
      hour 0 for the forms without one. */
  lemma ParseRendered(f: TimeFormat, vals: seq<int>, widths: seq<nat>, rest: string)
    requires |vals| == IntCount(Directives(f)) && |widths| == IntCount(Directives(f))
    requires rest == [] || !IsDigit(rest[0])
    ensures ParseStartTime(Render(Directives(f), vals, widths) + rest) == Some(FromFields(f, vals))
  {
    var s := Render(Directives(f), vals, widths) + rest;
    assert s[0..] == s;
    DirectivesSeparated(f);
    ScanRender(Directives(f), vals, widths, s, 0, rest);
    EarlierFormatsFail(f, vals, widths, rest);
    assert Rank(HmsDot) == 0 && Rank(MsDot) == 1 && Rank(HmsComma) == 2;
  }

  // ---------------------------------------------------------------- the tag

  /** What fprintf writes for "[%02d:%02d.%02d]". */
  lemma TagText(t: CueTime)
    ensures Tag(t) == "[" + (ZeroPad(TagValues(t)[0], 2) + (":" + (ZeroPad(TagValues(t)[1], 2) + ("." + (ZeroPad(TagValues(t)[2], 2) + "]")))))
  {
    var v := TagValues(t);
    var f := TagFormat;
    assert f[1..] == [Int, Lit(':'), Int, Lit('.'), Int, Lit(']')];
    assert f[1..][1..] == [Lit(':'), Int, Lit('.'), Int, Lit(']')];
    assert f[1..][1..][1..] == [Int, Lit('.'), Int, Lit(']')];
    assert f[1..][1..][1..][1..] == [Lit('.'), Int, Lit(']')];
    assert f[1..][1..][1..][1..][1..] == [Int, Lit(']')];
    assert f[1..][1..][1..][1..][1..][1..] == [Lit(']')];
    var w: seq<nat> := [2, 2, 2];
    assert v[1..] == [v[1], v[2]] && v[1..][1..] == [v[2]] && v[1..][1..][1..] == [];
    assert w[1..] == [2, 2] && w[1..][1..] == [2] && w[1..][1..][1..] == [];
    var r6 := Render([Lit(']')], [], []);
    assert r6 == "]";
    var r5 := Render([Int, Lit(']')], [v[2]], [2]);
    assert r5 == ZeroPad(v[2], 2) + r6;
    var r4 := Render([Lit('.'), Int, Lit(']')], [v[2]], [2]);
    assert r4 == "." + r5;
    var r3 := Render([Int, Lit('.'), Int, Lit(']')], [v[1], v[2]], [2, 2]);
    assert r3 == ZeroPad(v[1], 2) + r4;
    var r2 := Render([Lit(':'), Int, Lit('.'), Int, Lit(']')], [v[1], v[2]], [2, 2]);
    assert r2 == ":" + r3;
    var r1 := Render([Int, Lit(':'), Int, Lit('.'), Int, Lit(']')], v, w);
    assert r1 == ZeroPad(v[0], 2) + r2;
    assert Tag(t) == "[" + r1;
  }

  lemma TagFormatSeparated()
    ensures Separated(TagFormat)
  {
    forall k | 0 <= k < |TagFormat|
      ensures (TagFormat[k].Lit? ==> !IsDigit(TagFormat[k].c))
      ensures (TagFormat[k].Int? && k + 1 < |TagFormat| ==> TagFormat[k + 1].Lit?)
    {
      assert k % 2 == 1 <==> TagFormat[k].Int?;
    }
  }

  /** The tag reads back with "[%d:%d.%d]" as the three values it was
      written from, whatever their size or sign. */
  lemma TagReadsBack(t: CueTime)
    ensures Scan(TagFormat, Tag(t), 0) == Some(TagValues(t))
  {
    var s := Tag(t);
    TagFormatCount();
    TagFormatSeparated();
    assert s[0..] == s + [];
    ScanRender(TagFormat, TagValues(t), [2, 2, 2], s, 0, []);
  }

  /** What the three values mean for a time that is not negative: whole
      minutes and the seconds left over, and the milliseconds rounded half
      up to centiseconds (with no carry into the seconds). */
  lemma TagValuesMeaning(t: CueTime)
    requires TotalSeconds(t) >= 0 && t.millisecond >= 0
    ensures TagValues(t)[0] * 60 + TagValues(t)[1] == TotalSeconds(t) && 0 <= TagValues(t)[1] < 60
    ensures 10 * TagValues(t)[2] <= t.millisecond + 5 < 10 * TagValues(t)[2] + 10
  {
  }

  /** "%02d" of a number from 0 to 99 is two characters. */
  lemma TwoDigits(n: int)
    requires 0 <= n < 100
    ensures |ZeroPad(n, 2)| == 2
  {
    ZeroPadLength(n, 2);
    ShowNatLength(n);
  }

  /** The tag is the ten characters "[MM:SS.CC]" for a time under 100
      minutes whose milliseconds round to fewer than 100 centiseconds. */
  lemma TagWidth(t: CueTime)
    requires 0 <= TotalSeconds(t) < 6000 && 0 <= t.millisecond < 995
    ensures |Tag(t)| == 10
  {
    TagText(t);
    TwoDigits(TagValues(t)[0]);
    TwoDigits(TagValues(t)[1]);
    TwoDigits(TagValues(t)[2]);
  }

  /** Milliseconds from 995 to 999 give the centisecond field "100", three
      characters wide, and the seconds are not carried. */
  lemma CentisecondOverflow(t: CueTime)
    requires 995 <= t.millisecond <= 999
    ensures TagValues(t)[2] == 100
    ensures Tag(t) == "[" + (ZeroPad(TagValues(t)[0], 2) + (":" + (ZeroPad(TagValues(t)[1], 2) + ".100]")))
  {
    TagText(t);
    assert ZeroPad(100, 2) == "100";
    assert "." + ("100" + "]") == ".100]";
  }

  // ---------------------------------------------------------------- text lines

  /** A text line that ends in a space and a run of digits loses both. */
  lemma StripsNumberToken(text: string, digits: string)
    requires 0 < |digits| && AllDigits(digits)
    ensures StripTrailingNumber(text + " " + digits) == text
  {
    var line := text + " " + digits;
    forall k | |text| < k < |line|
      ensures line[k] != ' '
    {
      assert line[k] == digits[k - |text| - 1];
    }
    LastIndexOfAt(line, ' ', |text|);
    assert line[|text| + 1..] == digits;
    assert line[..|text|] == text;
  }

  /** All that is ever removed is the last space and a non-empty run of
      digits after it. */
  lemma StripRemovesOnlyNumber(line: string)
    ensures StripTrailingNumber(line) == line ||
      (|StripTrailingNumber(line)| + 1 < |line| &&
       line == StripTrailingNumber(line) + " " + line[|StripTrailingNumber(line)| + 1..] &&
       AllDigits(line[|StripTrailingNumber(line)| + 1..]))
  {
    var r := StripTrailingNumber(line);
    if r != line {
      assert line == line[..|r|] + [line[|r|]] + line[|r| + 1..];
    }
  }

  /** A line that reaches the text branch: dropped before the first tag,
      written with a newline after it, less its trailing number. */
  lemma LyricLine(st: State, raw: string)
    requires !(st.awaitingHeader && HeaderGuard(CutLine(raw)))
    requires !IsMetadataOrBlank(CutLine(raw)) && !IsCueNumber(CutLine(raw))
    requires !Contains(CutLine(raw), "-->")
    ensures Step(st, raw) == Conversion(st, if st.timestampFound then StripTrailingNumber(CutLine(raw)) + "\n" else [])
  {
  }

  // ---------------------------------------------------------------- timing lines

  /** A timing line gets as far as the arrow search: it is not dropped as
      a header, metadata, blank or cue-number line, and it has an arrow. */
  predicate ReachesArrow(st: State, line: string)
  {
    !(st.awaitingHeader && HeaderGuard(line)) && !IsMetadataOrBlank(line) && !IsCueNumber(line)
    && Contains(line, "-->")
  }

  /** A timing line with no start time, because the cue number and the
      white space skipped reach the arrow, or only white space precedes
      the arrow, writes nothing and changes nothing. */
  lemma TimingLineWithoutStart(st: State, raw: string)
    requires ReachesArrow(st, CutLine(raw))
    requires var line := CutLine(raw); var arrow := IndexOf(line, "-->").value;
      TimeStart(line) >= arrow || forall k :: TimeStart(line) <= k < arrow ==> IsSpace(line[k])
    ensures Step(st, raw) == Conversion(st, [])
  {
  }

  /** A start field that none of the four formats reads writes nothing and
      leaves the timestamp flag as it is. */
  lemma UnparsedStartIgnored(st: State, raw: string)
    requires ReachesArrow(st, CutLine(raw))
    requires var line := CutLine(raw); var arrow := IndexOf(line, "-->").value;
      StartField(line, arrow).Some? &&
      forall f: TimeFormat :: Scan(Directives(f), StartField(line, arrow).value, 0).None?
    ensures Step(st, raw) == Conversion(st, [])
  {
    var line := CutLine(raw);
    var field := StartField(line, IndexOf(line, "-->").value).value;
    assert Scan(Directives(HmsDot), field, 0).None?;
    assert Scan(Directives(MsDot), field, 0).None?;
    assert Scan(Directives(HmsComma), field, 0).None?;
    assert Scan(Directives(MsComma), field, 0).None?;
  }

  /** Characters that can appear in a start field written with
      non-negative fields. */
  predicate TimeChar(c: char) { IsDigit(c) || c == ':' || c == '.' || c == ',' }

  predicate NonNegative(vals: seq<int>) { forall k :: 0 <= k < |vals| ==> vals[k] >= 0 }

  lemma {:induction false} RenderChars(fmt: seq<Directive>, vals: seq<int>, widths: seq<nat>)
    requires |vals| == IntCount(fmt) && |widths| == IntCount(fmt) && NonNegative(vals)
    requires forall k :: 0 <= k < |fmt| && fmt[k].Lit? ==> TimeChar(fmt[k].c)
    ensures forall k :: 0 <= k < |Render(fmt, vals, widths)| ==> TimeChar(Render(fmt, vals, widths)[k])
    decreases |fmt|
  {
    if |fmt| > 0 {
      forall k | 0 <= k < |fmt[1..]| && fmt[1..][k].Lit?
        ensures TimeChar(fmt[1..][k].c)
      {
        assert fmt[1..][k] == fmt[k + 1];
      }
      if fmt[0].Lit? {
        RenderChars(fmt[1..], vals, widths);
      } else {
        assert forall k :: 0 <= k < |vals[1..]| ==> vals[1..][k] == vals[k + 1];
        RenderChars(fmt[1..], vals[1..], widths[1..]);
        ZeroPadValue(vals[0], widths[0]);
      }
    }
  }

  lemma {:induction false} RenderEndsInDigit(fmt: seq<Directive>, vals: seq<int>, widths: seq<nat>)
    requires |vals| == IntCount(fmt) && |widths| == IntCount(fmt) && NonNegative(vals)
    requires |fmt| > 0 && fmt[|fmt| - 1].Int?
    ensures |Render(fmt, vals, widths)| > 0 && IsDigit(Render(fmt, vals, widths)[|Render(fmt, vals, widths)| - 1])
    decreases |fmt|
  {
    var r := Render(fmt, vals, widths);
    if |fmt| == 1 {
      ZeroPadValue(vals[0], widths[0]);
      assert fmt[0].Int? && |fmt[1..]| == 0;
      assert Render(fmt[1..], vals[1..], widths[1..]) == [];
      assert r == ZeroPad(vals[0], widths[0]) + [];
    } else {
      assert fmt[1..][|fmt[1..]| - 1] == fmt[|fmt| - 1];
      if fmt[0].Lit? {
        RenderEndsInDigit(fmt[1..], vals, widths);
      } else {
        assert forall k :: 0 <= k < |vals[1..]| ==> vals[1..][k] == vals[k + 1];
        RenderEndsInDigit(fmt[1..], vals[1..], widths[1..]);
      }
    }
  }

  /** Each start-time format begins with "%d:", ends with "%d", and has
      only time characters as literals. */
  lemma DirectivesShape(f: TimeFormat)
    ensures var fmt := Directives(f);
      |fmt| >= 3 && fmt[0] == Int && fmt[1] == Lit(':') && fmt[|fmt| - 1] == Int &&
      forall k :: 0 <= k < |fmt| && fmt[k].Lit? ==> TimeChar(fmt[k].c)
  {
  }

  /** A rendering of a format that begins with "%d:" and a non-negative
      first value: digits, then the colon. */
  lemma RenderLeadingField(fmt: seq<Directive>, vals: seq<int>, widths: seq<nat>)
    requires |vals| == IntCount(fmt) && |widths| == IntCount(fmt)
    requires |fmt| >= 2 && fmt[0] == Int && fmt[1] == Lit(':') && vals[0] >= 0
    ensures var time := Render(fmt, vals, widths); var n := |ZeroPad(vals[0], widths[0])|;
      0 < n < |time| && AllDigits(time[..n]) && time[n] == ':'
  {
    var p := ZeroPad(vals[0], widths[0]);
    ZeroPadValue(vals[0], widths[0]);
    assert fmt[1..][0] == Lit(':');
    var tail := Render(fmt[1..][1..], vals[1..], widths[1..]);
    var time := Render(fmt, vals, widths);
    assert Render(fmt[1..], vals[1..], widths[1..]) == [':'] + tail;
    assert time == p + ([':'] + tail);
    assert time[..|p|] == p;
  }

  /** The text of a start field written in form `f`: a first field of
      digits, then a colon; only time characters; a digit at the end. */
  lemma TimeShape(f: TimeFormat, vals: seq<int>, widths: seq<nat>)
    requires |vals| == IntCount(Directives(f)) && |widths| == IntCount(Directives(f)) && NonNegative(vals)
    ensures var time := Render(Directives(f), vals, widths); var n := |ZeroPad(vals[0], widths[0])|;
      0 < n < |time| && AllDigits(time[..n]) && time[n] == ':' &&
      IsDigit(time[|time| - 1]) &&
      forall k :: 0 <= k < |time| ==> TimeChar(time[k])
  {
    var fmt := Directives(f);
    DirectivesShape(f);
    RenderLeadingField(fmt, vals, widths);
    RenderChars(fmt, vals, widths);
    RenderEndsInDigit(fmt, vals, widths);
  }

  /** White space that does not end a line. */
  predicate InlineSpace(s: string)
  {
    forall k :: 0 <= k < |s| ==> IsSpace(s[k]) && s[k] != '\r' && s[k] != '\n'
  }

  /** What a timing line may start with: nothing, or a cue number followed
      by a space or a tab and possibly more white space. */
  predicate CuePrefix(num: string, sep: string)
  {
    (num == [] && sep == []) ||
    (|num| > 0 && AllDigits(num) && |sep| > 0 && (sep[0] == ' ' || sep[0] == '\t') && InlineSpace(sep))
  }

  /** The characters before the arrow of such a line. */
  predicate Plain(c: char)
  {
    TimeChar(c) || (IsSpace(c) && c != '\r' && c != '\n')
  }

  lemma PlainBeforeArrow(num: string, sep: string, time: string, gap: string)
    requires CuePrefix(num, sep) && InlineSpace(gap)
    requires forall k :: 0 <= k < |time| ==> TimeChar(time[k])
    ensures forall k :: 0 <= k < |num + sep + time + gap| ==> Plain((num + sep + time + gap)[k])
  {
    var pre := num + sep + time + gap;
    forall k | 0 <= k < |pre|
      ensures Plain(pre[k])
    {
      if k < |num| {
        assert pre[k] == num[k];
      } else if k < |num| + |sep| {
        assert pre[k] == sep[k - |num|];
      } else if k < |num| + |sep| + |time| {
        assert pre[k] == time[k - |num| - |sep|];
      } else {
        assert pre[k] == gap[k - |num| - |sep| - |time|];
      }
    }
  }

  /** The arrow found is the one that follows the plain text. */
  lemma ArrowAfterPlain(pre: string, rest: string)
    requires forall k :: 0 <= k < |pre| ==> Plain(pre[k])
    ensures IndexOf(pre + "-->" + rest, "-->") == Some(|pre|)
  {
    var line := pre + "-->" + rest;
    assert line[|pre|..|pre| + 3] == "-->";
    forall k | 0 <= k < |pre|
      ensures !OccursAt(line, "-->", k)
    {
      assert line[k] == pre[k];
      assert k + 3 <= |line| ==> line[k..k + 3][0] == line[k];
    }
    IndexOfAt(line, "-->", |pre|);
  }

  /** Such a line has no line break in it, and a keyword that is not in the
      text after the arrow is not in it at all. */
  lemma PlainLine(pre: string, rest: string, kw: string)
    requires forall k :: 0 <= k < |pre| ==> Plain(pre[k])
    requires '\r' !in rest && '\n' !in rest
    requires 0 < |kw| && 'A' <= kw[0] <= 'Z' && !Contains(rest, kw)
    ensures forall k :: 0 <= k < |pre + "-->" + rest| ==> (pre + "-->" + rest)[k] != '\r' && (pre + "-->" + rest)[k] != '\n'
    ensures !Contains(pre + "-->" + rest, kw)
  {
    var head := pre + "-->";
    var line := head + rest;
    forall k | 0 <= k < |line|
      ensures line[k] != '\r' && line[k] != '\n'
    {
      if k >= |head| {
        assert line[k] == rest[k - |head|] && rest[k - |head|] in rest;
      }
    }
    NotContainsAfter(head, rest, kw);
  }

  /** A line with a '-' anywhere in it is not a cue number. */
  lemma DashNotCueNumber(line: string, a: nat)
    requires a < |line| && line[a] == '-'
    ensures !IsCueNumber(line)
  {
    var t := SkipSpaces(line, 0);
    if t < |line| {
      assert t <= a;
      assert line[t..][a - t] == '-';
    }
  }

  /** TimeStart skips exactly the cue number and the white space after it. */
  lemma TimeStartAfterCue(num: string, sep: string, time: string, after: string, n: nat)
    requires CuePrefix(num, sep)
    requires 0 < n < |time| && AllDigits(time[..n]) && time[n] == ':'
    ensures TimeStart(num + sep + time + after) == |num| + |sep|
  {
    var line := num + sep + time + after;
    assert IsDigit(time[..n][0]);
    if num == [] {
      assert line == time + after;
      assert line[..n] == time[..n];
      DigitRunEndAt(line, 0, n);
      assert line[n] == ':';
    } else {
      assert line[..|num|] == num;
      assert line[|num|] == sep[0];
      DigitRunEndAt(line, 0, |num|);
      forall k | |num| + 1 <= k < |num| + |sep|
        ensures IsSpace(line[k])
      {
        assert line[k] == sep[k - |num|];
      }
      assert line[|num| + |sep|] == time[0];
      SkipSpacesAt(line, |num| + 1, |num| + |sep|);
    }
  }

  /** The start field is the written time once the white space before the
      arrow is trimmed. */
  lemma FieldBeforeArrow(line: string, t: nat, time: string, gap: string, a: nat)
    requires TimeStart(line) == t && 0 < |time| && IsDigit(time[|time| - 1]) && InlineSpace(gap)
    requires a == t + |time| + |gap| && a <= |line|
    requires line[t..t + |time|] == time && line[t + |time|..a] == gap
    ensures StartField(line, a) == Some(time)
  {
    forall k | t + |time| <= k < a
      ensures IsSpace(line[k])
    {
      assert line[k] == gap[k - t - |time|];
    }
    assert line[t + |time| - 1] == time[|time| - 1];
    TrimRightEndAt(line, t, t + |time|, a);
  }

  /** Classify on a line free of keywords whose arrow is at `arrow` and
      whose start time is `t`. */
  lemma ClassifyTimingLine(st: State, line: string, arrow: nat, t: CueTime)
    requires !Contains(line, "NOTE") && !Contains(line, "STYLE") && !Contains(line, "REGION")
    requires 0 < |line| && !IsCueNumber(line)
    requires IndexOf(line, "-->") == Some(arrow) && arrow <= |line| && StartTime(line, arrow) == Some(t)
    ensures Classify(st, line) == Conversion(st.(timestampFound := true), Tag(t))
  {
  }

  /** Step on a line free of line breaks and keywords, whose arrow is at
      `arrow` and whose start time is `t`. */
  lemma StepOnTimingLine(st: State, line: string, eol: string, arrow: nat, t: CueTime)
    requires forall k :: 0 <= k < |line| ==> line[k] != '\r' && line[k] != '\n'
    requires eol == "" || eol == "\n" || eol == "\r\n"
    requires !Contains(line, "NOTE") && !Contains(line, "STYLE") && !Contains(line, "REGION")
    requires st.awaitingHeader ==> !Contains(line, "WEBVTT")
    requires 0 < |line| && !IsCueNumber(line)
    requires IndexOf(line, "-->") == Some(arrow) && arrow <= |line| && StartTime(line, arrow) == Some(t)
    ensures Step(st, line + eol) == Conversion(st.(timestampFound := true), Tag(t))
  {
    LineEndIndexAt(line, eol);
    assert CutLine(line + eol) == line by {
      assert (line + eol)[..|line|] == line;
    }
    ClassifyTimingLine(st, line, arrow, t);
  }

  lemma Regroup(x: string, a: string, b: string, c: string)
    ensures x + a + b + c == x + (a + b + c) == x + a + (b + c)
  {
  }

  lemma MiddleSlice(a: string, b: string, c: string)
    ensures (a + b + c)[|a|..|a| + |b|] == b
  {
  }

  /** The start field of a line written as cue number, time, white space,
      arrow and text is the time. */
  lemma StartFieldOfTimingLine(num: string, sep: string, time: string, gap: string, rest: string, n: nat)
    requires CuePrefix(num, sep) && InlineSpace(gap)
    requires 0 < n < |time| && AllDigits(time[..n]) && time[n] == ':' && IsDigit(time[|time| - 1])
    ensures var pre := num + sep + time + gap;
      |pre| <= |pre + "-->" + rest| && StartField(pre + "-->" + rest, |pre|) == Some(time)
  {
    var x := num + sep + time;
    var line := x + gap + "-->" + rest;
    Regroup(x, gap, "-->", rest);
    TimeStartAfterCue(num, sep, time, gap + "-->" + rest, n);
    MiddleSlice(num + sep, time, gap + "-->" + rest);
    MiddleSlice(x, gap, "-->" + rest);
    FieldBeforeArrow(line, |num| + |sep|, time, gap, |x + gap|);
  }

  /** The start time of a line written as cue number, time, white space,
      arrow and text. */
  lemma StartTimeOfTimingLine(num: string, sep: string, f: TimeFormat, vals: seq<int>, widths: seq<nat>,
                              gap: string, rest: string)
    requires CuePrefix(num, sep) && InlineSpace(gap)
    requires |vals| == IntCount(Directives(f)) && |widths| == IntCount(Directives(f)) && NonNegative(vals)
    ensures var pre := num + sep + Render(Directives(f), vals, widths) + gap;
      |pre| <= |pre + "-->" + rest| &&
      StartTime(pre + "-->" + rest, |pre|) == Some(FromFields(f, vals))
  {
    var time := Render(Directives(f), vals, widths);
    TimeShape(f, vals, widths);
    StartFieldOfTimingLine(num, sep, time, gap, rest, |ZeroPad(vals[0], widths[0])|);
    assert time + [] == time;
    ParseRendered(f, vals, widths, []);
  }

  /** A cue timing line: an optional cue number, a start time written in
      any of the four forms (non-negative fields of any width), white space,
      the arrow, and any text with no line break and no keyword, ended by
      nothing, LF or CRLF. It writes the tag of its start time, with hour 0
      for the forms without one, and sets the timestamp flag. */
  lemma TimingLineWritesTag(st: State, num: string, sep: string, f: TimeFormat, vals: seq<int>, widths: seq<nat>,
                            gap: string, rest: string, eol: string)
    requires CuePrefix(num, sep) && InlineSpace(gap)
    requires |vals| == IntCount(Directives(f)) && |widths| == IntCount(Directives(f)) && NonNegative(vals)
    requires '\r' !in rest && '\n' !in rest
    requires !Contains(rest, "NOTE") && !Contains(rest, "STYLE") && !Contains(rest, "REGION")
    requires st.awaitingHeader ==> !Contains(rest, "WEBVTT")
    requires eol == "" || eol == "\n" || eol == "\r\n"
    ensures Step(st, num + sep + Render(Directives(f), vals, widths) + gap + "-->" + rest + eol)
         == Conversion(st.(timestampFound := true), Tag(FromFields(f, vals)))
  {
    var time := Render(Directives(f), vals, widths);
    TimeShape(f, vals, widths);
    var pre := num + sep + time + gap;
    var line := pre + "-->" + rest;
    PlainBeforeArrow(num, sep, time, gap);
    PlainLine(pre, rest, "NOTE");
    PlainLine(pre, rest, "STYLE");
    PlainLine(pre, rest, "REGION");
    if st.awaitingHeader {
      PlainLine(pre, rest, "WEBVTT");
    }
    ArrowAfterPlain(pre, rest);
    DashNotCueNumber(line, |pre|);
    StartTimeOfTimingLine(num, sep, f, vals, widths, gap, rest);
    StepOnTimingLine(st, line, eol, |pre|, FromFields(f, vals));
  }
}
