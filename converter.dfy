/** convert_vtt_to_lrc without its file handles: a single pass over the
    lines of a WebVTT file that keeps two flags, drops the header, metadata
    blocks and cue numbers, turns the start time of each cue timing line
    into an LRC tag and copies the text lines that follow a tag. */
module Converter {
  import opened Options
  import opened CLib
  import opened Printf
  import opened Scanf

  /** The two flags of the conversion loop: the WEBVTT header has not been
      seen yet, and a cue start time has been written. */
  datatype State = State(awaitingHeader: bool, timestampFound: bool)

  const Initial := State(true, false)

  /** A state and the text written so far (or by one line). */
  datatype Conversion = Conversion(state: State, output: string)

  /** The start time of a cue as sscanf reads it. */
  datatype CueTime = CueTime(hour: int, minute: int, second: int, millisecond: int)

  // ---------------------------------------------------------------- classifying a line

  /** A line as the loop sees it: cut at its first CR or LF. */
  function CutLine(raw: string): (line: string)
    ensures line <= raw
    ensures forall k :: 0 <= k < |line| ==> line[k] != '\r' && line[k] != '\n'
    ensures |line| == |raw| || raw[|line|] == '\r' || raw[|line|] == '\n'
  {
    raw[..LineEndIndex(raw)]
  }

  /** The header guard: while the header is awaited, WEBVTT lines and empty
      lines are dropped. */
  predicate HeaderGuard(line: string)
  {
    Contains(line, "WEBVTT") || |line| == 0 || line[0] == '\r'
  }

  /** Lines of metadata blocks, and empty lines. */
  predicate IsMetadataOrBlank(line: string)
  {
    Contains(line, "NOTE") || Contains(line, "STYLE") || Contains(line, "REGION") || |line| == 0
  }

  /** A cue number on a line of its own: after leading white space, at
      least one character, and digits only. */
  predicate IsCueNumber(line: string)
  {
    var t := SkipSpaces(line, 0);
    t < |line| && AllDigits(line[t..])
  }

  // ---------------------------------------------------------------- the start time

  /** Where the start time begins on a timing line: after a leading digit
      run that is followed by a space or a tab, and after the white space
      that follows it; otherwise at the start of the line. */
  function TimeStart(line: string): (t: nat)
    ensures t <= |line|
  {
    if |line| > 0 && IsDigit(line[0]) then
      var p := DigitRunEnd(line, 0);
      if p < |line| && (line[p] == ' ' || line[p] == '\t') then SkipSpaces(line, p + 1) else 0
    else 0
  }

  /** The start-time field: from TimeStart to the arrow at index `arrow`,
      less trailing white space. None when it is empty or when TimeStart is
      not before the arrow. */
  function StartField(line: string, arrow: nat): (r: Option<string>)
    requires arrow <= |line|
    ensures r.Some? ==> 0 < |r.value| && !IsSpace(r.value[|r.value| - 1])
  {
    var t := TimeStart(line);
    if t >= arrow then None
    else
      var e := TrimRightEnd(line, t, arrow);
      if e == t then None else Some(line[t..e])
  }

  /** The four formats tried on the start-time field, in this order:
      "%d:%d:%d.%d", "%d:%d.%d", "%d:%d:%d,%d" and "%d:%d,%d". */
  datatype TimeFormat = HmsDot | MsDot | HmsComma | MsComma

  predicate WithHour(f: TimeFormat) { f == HmsDot || f == HmsComma }

  function Directives(f: TimeFormat): (fmt: seq<Directive>)
    ensures IntCount(fmt) == if WithHour(f) then 4 else 3
  {
    match f
    case HmsDot => [Int, Lit(':'), Int, Lit(':'), Int, Lit('.'), Int]
    case MsDot => [Int, Lit(':'), Int, Lit('.'), Int]
    case HmsComma => [Int, Lit(':'), Int, Lit(':'), Int, Lit(','), Int]
    case MsComma => [Int, Lit(':'), Int, Lit(','), Int]
  }

  /** The fields a format fills, with the hour set to 0 when it has none. */
  function FromFields(f: TimeFormat, v: seq<int>): CueTime
    requires |v| == IntCount(Directives(f))
  {
    if WithHour(f) then CueTime(v[0], v[1], v[2], v[3]) else CueTime(0, v[0], v[1], v[2])
  }

  /** sscanf with format `f` on the field, when it converts every field. */
  function ScanTime(f: TimeFormat, field: string): Option<CueTime>
  {
    match Scan(Directives(f), field, 0)
    case Some(v) => Some(FromFields(f, v))
    case None => None
  }

  /** The four formats tried in order; the first that converts every field
      gives the start time. */
  function ParseStartTime(field: string): (r: Option<CueTime>)
    ensures r.Some? <==> exists f :: ScanTime(f, field).Some?
    ensures r.Some? ==> exists f :: ScanTime(f, field) == r
  {
    if ScanTime(HmsDot, field).Some? then ScanTime(HmsDot, field)
    else if ScanTime(MsDot, field).Some? then ScanTime(MsDot, field)
    else if ScanTime(HmsComma, field).Some? then ScanTime(HmsComma, field)
    else ScanTime(MsComma, field)
  }

  /** The start time of a timing line whose arrow is at `arrow`. */
  function StartTime(line: string, arrow: nat): Option<CueTime>
    requires arrow <= |line|
  {
    match StartField(line, arrow)
    case None => None
    case Some(field) => ParseStartTime(field)
  }

  // ---------------------------------------------------------------- what is written

  /** "[%02d:%02d.%02d]" as a format. */
  const TagFormat: seq<Directive> := [Lit('['), Int, Lit(':'), Int, Lit('.'), Int, Lit(']')]

  lemma TagFormatCount()
    ensures IntCount(TagFormat) == 3
  {
  }

  function TotalSeconds(t: CueTime): int { t.hour * 3600 + t.minute * 60 + t.second }

  /** Minutes, seconds and centiseconds (rounded half up, not carried). */
  function TagValues(t: CueTime): (v: seq<int>)
    ensures |v| == 3
  {
    [CDiv(TotalSeconds(t), 60), CMod(TotalSeconds(t), 60), CDiv(t.millisecond + 5, 10)]
  }

  /** The LRC tag written for a cue start time. */
  function Tag(t: CueTime): string
  {
    TagFormatCount();
    Render(TagFormat, TagValues(t), [2, 2, 2])
  }

  /** A text line less its trailing cue number: when the characters after
      the last space are at least one and all digits, the line is cut at
      that space. */
  function StripTrailingNumber(line: string): (r: string)
    ensures r <= line
  {
    match LastIndexOf(line, ' ')
    case None => line
    case Some(sp) => if sp + 1 < |line| && AllDigits(line[sp + 1..]) then line[..sp] else line
  }

  // ---------------------------------------------------------------- the loop

  /** A timing line whose arrow is at `arrow`: the tag of its start time,
      or nothing when it has none. */
  function TimingStep(st: State, line: string, arrow: nat): Conversion
    requires arrow <= |line|
  {
    match StartTime(line, arrow)
    case None => Conversion(st, [])
    case Some(t) => Conversion(st.(timestampFound := true), Tag(t))
  }

  /** Any other line: text, written once a tag has been written. */
  function LyricStep(st: State, line: string): Conversion
  {
    if st.timestampFound && |line| > 0 then Conversion(st, StripTrailingNumber(line) + "\n")
    else Conversion(st, [])
  }

  /** A line that has passed the header guard. */
  function Classify(st: State, line: string): Conversion
  {
    if IsMetadataOrBlank(line) || IsCueNumber(line) then Conversion(st, [])
    else match IndexOf(line, "-->")
      case Some(arrow) => TimingStep(st, line, arrow)
      case None => LyricStep(st, line)
  }

  /** One pass of the loop body over the raw line `raw`. */
  function Step(st: State, raw: string): Conversion
  {
    var line := CutLine(raw);
    if st.awaitingHeader && HeaderGuard(line) then
      Conversion(State(!Contains(line, "WEBVTT"), st.timestampFound), [])
    else Classify(st, line)
  }

  /** A line loop with one-step function `step`, from state `st`: the final
      state and all that was written, in order. */
  function Fold(step: (State, string) -> Conversion, st: State, lines: seq<string>): Conversion
    decreases |lines|
  {
    if |lines| == 0 then Conversion(st, [])
    else
      var before := Fold(step, st, lines[..|lines| - 1]);
      var after := step(before.state, lines[|lines| - 1]);
      Conversion(after.state, before.output + after.output)
  }

  /** The conversion loop over `lines` from state `st`. */
  function RunFrom(st: State, lines: seq<string>): Conversion
  {
    Fold(Step, st, lines)
  }

  /** The LRC text for a WebVTT file given as its lines. */
  function Convert(lines: seq<string>): string
  {
    RunFrom(Initial, lines).output
  }

  // ---------------------------------------------------------------- the source's loops

  /** `while (isspace(*p)) p++;` from index `from`. */
  method SkipWhitespace(line: string, from: nat) returns (j: nat)
    requires from <= |line|
    ensures j == SkipSpaces(line, from)
  {
    j := from;
    while j < |line| && IsSpace(line[j])
      invariant from <= j <= |line|
      invariant SkipSpaces(line, j) == SkipSpaces(line, from)
    {
      j := j + 1;
    }
  }

  /** `while (isdigit(*p)) p++;` from index `from`. */
  method SkipDigits(line: string, from: nat) returns (p: nat)
    requires from <= |line|
    ensures p == DigitRunEnd(line, from)
  {
    p := from;
    while p < |line| && IsDigit(line[p])
      invariant from <= p <= |line|
      invariant DigitRunEnd(line, p) == DigitRunEnd(line, from)
    {
      p := p + 1;
    }
  }

  /** The loop that checks that every character from `from` on is a digit,
      leaving it at the first one that is not. */
  method AllDigitsFrom(line: string, from: nat) returns (allDigits: bool)
    requires from <= |line|
    ensures allDigits <==> AllDigits(line[from..])
  {
    allDigits := true;
    var p := from;
    while p < |line|
      invariant from <= p <= |line|
      invariant AllDigits(line[from..p])
    {
      if !IsDigit(line[p]) {
        assert line[from..][p - from] == line[p];
        allDigits := false;
        break;
      }
      assert line[from..p + 1] == line[from..p] + [line[p]];
      p := p + 1;
    }
    if allDigits {
      assert line[from..p] == line[from..];
    }
  }

  /** The loop that shortens the start field while it ends in white space. */
  method TrimmedLength(line: string, start: nat, arrow: nat) returns (len: nat)
    requires start <= arrow <= |line|
    ensures start + len == TrimRightEnd(line, start, arrow)
  {
    len := arrow - start;
    while len > 0 && IsSpace(line[start + len - 1])
      invariant start + len <= arrow
      invariant TrimRightEnd(line, start, start + len) == TrimRightEnd(line, start, arrow)
    {
      len := len - 1;
    }
  }

  /** The sscanf chain: the four formats in order, hour 0 for the two
      forms without it. */
  method ScanStartTime(startTime: string) returns (parsed: bool, t: CueTime)
    ensures parsed <==> ParseStartTime(startTime).Some?
    ensures parsed ==> t == ParseStartTime(startTime).value
  {
    var r := Scan(Directives(HmsDot), startTime, 0);
    parsed := true;
    if r.Some? {
      t := CueTime(r.value[0], r.value[1], r.value[2], r.value[3]);
      return;
    }
    r := Scan(Directives(MsDot), startTime, 0);
    if r.Some? {
      t := CueTime(0, r.value[0], r.value[1], r.value[2]);
      return;
    }
    r := Scan(Directives(HmsComma), startTime, 0);
    if r.Some? {
      t := CueTime(r.value[0], r.value[1], r.value[2], r.value[3]);
      return;
    }
    r := Scan(Directives(MsComma), startTime, 0);
    if r.Some? {
      t := CueTime(0, r.value[0], r.value[1], r.value[2]);
      return;
    }
    parsed := false;
    t := CueTime(0, 0, 0, 0);
  }

  /** The lyric branch: find the last space, check that what follows it is
      a non-empty run of digits, and cut the line there if so. */
  method StripLyric(line: string) returns (lyric: string)
    ensures lyric == StripTrailingNumber(line)
  {
    lyric := line;
    var lastSpace := LastIndexOf(lyric, ' ');
    if lastSpace.Some? {
      var sp := lastSpace.value;
      var p := sp + 1;
      var allDigits := true;
      while p < |lyric|
        invariant sp + 1 <= p <= |lyric|
        invariant AllDigits(lyric[sp + 1..p])
      {
        if !IsDigit(lyric[p]) {
          assert lyric[sp + 1..][p - sp - 1] == lyric[p];
          allDigits := false;
          break;
        }
        assert lyric[sp + 1..p + 1] == lyric[sp + 1..p] + [lyric[p]];
        p := p + 1;
      }
      if allDigits {
        assert lyric[sp + 1..p] == lyric[sp + 1..];
      }
      if allDigits && p > sp + 1 {
        lyric := lyric[..sp];
      }
    }
  }

  /** The cue-number test: skip leading white space, then check that
      something is left and that it is all digits. */
  method CueNumberLine(line: string) returns (isCueNumber: bool)
    ensures isCueNumber == IsCueNumber(line)
  {
    var trimmed := SkipWhitespace(line, 0);
    isCueNumber := false;
    if trimmed < |line| {
      isCueNumber := AllDigitsFrom(line, trimmed);
    }
  }

  /** Skips a leading cue number followed by a space or a tab, and the
      white space after it. */
  method SkipCueNumber(line: string) returns (timeStart: nat)
    ensures timeStart == TimeStart(line)
  {
    timeStart := 0;
    if |line| > 0 && IsDigit(line[0]) {
      var p := SkipDigits(line, 0);
      if p < |line| && (line[p] == ' ' || line[p] == '\t') {
        timeStart := SkipWhitespace(line, p + 1);
      }
    }
  }

  /** The timing-line branch up to sscanf: skip a leading cue number and
      trim the start field. */
  method ReadStartField(line: string, arrow: nat) returns (field: Option<string>)
    requires arrow <= |line|
    ensures field == StartField(line, arrow)
  {
    var timeStart := SkipCueNumber(line);
    if timeStart >= arrow {
      return None;
    }
    var len := TrimmedLength(line, timeStart, arrow);
    if len <= 0 {
      return None;
    }
    return Some(line[timeStart..timeStart + len]);
  }

  /** The start-time field and its sscanf chain. */
  method ReadStartTime(line: string, arrow: nat) returns (r: Option<CueTime>)
    requires arrow <= |line|
    ensures r == StartTime(line, arrow)
  {
    var startTime := ReadStartField(line, arrow);
    if startTime.None? {
      return None;
    }
    var parsed, t := ScanStartTime(startTime.value);
    if !parsed {
      return None;
    }
    return Some(t);
  }

  /** The timing-line branch: parse the start time and write its tag. */
  method ProcessTimingLine(isFirst: bool, foundFirstTimestamp: bool, line: string, arrow: nat)
    returns (found: bool, written: string)
    requires arrow <= |line|
    ensures Conversion(State(isFirst, found), written) == TimingStep(State(isFirst, foundFirstTimestamp), line, arrow)
  {
    found, written := foundFirstTimestamp, [];
    var start := ReadStartTime(line, arrow);
    if start.None? {
      return;
    }
    var t := start.value;
    found := true;
    var totalSeconds := t.hour * 3600 + t.minute * 60 + t.second;
    assert totalSeconds == TotalSeconds(t);
    var centiseconds := CDiv(t.millisecond + 5, 10);
    var fields := [CDiv(totalSeconds, 60), CMod(totalSeconds, 60), centiseconds];
    assert fields == TagValues(t);
    TagFormatCount();
    written := Render(TagFormat, fields, [2, 2, 2]);
  }

  /** The loop body after the header guard: skip metadata, blank lines and
      cue numbers, then handle a timing line or a text line. */
  method ProcessContent(isFirst: bool, foundFirstTimestamp: bool, line: string)
    returns (found: bool, written: string)
    ensures Conversion(State(isFirst, found), written) == Classify(State(isFirst, foundFirstTimestamp), line)
  {
    found, written := foundFirstTimestamp, [];
    if Contains(line, "NOTE") || Contains(line, "STYLE") || Contains(line, "REGION") || |line| == 0 {
      return;
    }
    var isCueNumber := CueNumberLine(line);
    if isCueNumber {
      return;
    }
    var arrowPos := IndexOf(line, "-->");
    if arrowPos.Some? {
      found, written := ProcessTimingLine(isFirst, found, line, arrowPos.value);
    } else if found && |line| > 0 {
      written := StripLyric(line);
      written := written + "\n";
    }
  }

  /** One pass of the loop body: the two flags before and after, and what
      is written to the LRC file. */
  method ProcessLine(isFirstWebvttLine: bool, foundFirstTimestamp: bool, raw: string)
    returns (isFirst: bool, found: bool, written: string)
    ensures Conversion(State(isFirst, found), written) == Step(State(isFirstWebvttLine, foundFirstTimestamp), raw)
  {
    isFirst, found, written := isFirstWebvttLine, foundFirstTimestamp, [];
    var line := raw[..LineEndIndex(raw)];
    if isFirst && (Contains(line, "WEBVTT") || |line| == 0 || line[0] == '\r') {
      if Contains(line, "WEBVTT") {
        isFirst := false;
      }
      return;
    }
    found, written := ProcessContent(isFirst, found, line);
  }

  /** The loop over the lines of the file, writing as it goes. */
  method ConvertVttToLrc(lines: seq<string>) returns (lrc: string)
    ensures lrc == Convert(lines)
  {
    var isFirstWebvttLine := true;
    var foundFirstTimestamp := false;
    lrc := [];
    var i := 0;
    while i < |lines|
      invariant i <= |lines|
      invariant RunFrom(Initial, lines[..i]) == Conversion(State(isFirstWebvttLine, foundFirstTimestamp), lrc)
    {
      var written;
      isFirstWebvttLine, foundFirstTimestamp, written := ProcessLine(isFirstWebvttLine, foundFirstTimestamp, lines[i]);
      lrc := lrc + written;
      assert lines[..i + 1][..i] == lines[..i];
      i := i + 1;
    }
    assert lines[..|lines|] == lines;
  }
}
