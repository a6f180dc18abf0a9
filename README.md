# WebVTT to LRC conversion, modelled and proved in Dafny

The program converts WebVTT subtitle files into LRC lyric files. It comes as
two C++ sources, `Generation5EnVer.cpp` and `Generation5.cpp`, whose code is
the same; only their messages and comments differ. Two routines make up the
part modelled here.

- `remove_audio_extension` computes the name of the output file from the name
  of the subtitle file. It finds the subtitle extension: the first `.vtt`,
  else the first `.VTT`. It takes the text before that extension. If the dot
  segment just before the extension lowercases to one of `.wav`, `.mp3`,
  `.flac`, `.ogg`, `.m4a`, `.aac` or `.wma`, that segment is dropped as well.
- `convert_vtt_to_lrc` reads the file line by line with two flags:
  - "the header has not been seen yet";
  - "a start time has been written".

  Each line is cut at its first CR or LF. The line is then handled in one of
  three ways:
  - it is dropped (a header line, a `NOTE`/`STYLE`/`REGION` line, a blank
    line, or a cue number on its own);
  - it is a timing line, and it writes the tag `[MM:SS.CC]` of its start
    time with no newline;
  - it is text. Once a tag has been written, the text is written followed
    by a newline, less a trailing space-separated number.

Layout:

| file | module | what it holds |
|---|---|---|
| `options.dfy` | `Options` | `Option` |
| `clib.dfy` | `CLib` | the C library calls the code relies on: `isspace`, `isdigit`, `tolower`, `strstr`, `strrchr`, `strcspn`, and C's truncating `/` and `%` |
| `printf.dfy` | `Printf` | `%d` and `%0Nd` |
| `scanf.dfy` | `Scanf` | `sscanf` with `%d` and literal characters, `fprintf` of such a format, and the round trip between the two |
| `normalizer.dfy` | `Normalizer` | `remove_audio_extension`: the specification `CleanName`, the source's loops as methods, and its properties |
| `converter.dfy` | `Converter` | one pass of the loop body as the function `Step`, the loop as a left fold (`RunFrom`), and the source's loops as methods proved equal to them |
| `converter_lemmas.dfy` | `ConverterLemmas` | what one line does: the header, skipped lines, cue numbers, parsing, the tag, text lines |
| `run_lemmas.dfy` | `RunLemmas` | what a whole file does: composition, output is only appended, how the flags evolve |

Input and output are modelled as values:
- The file is a sequence of lines. Each line still holds its line ending, as
  `fgets` returns it.
- All that `fprintf` writes to the LRC file is one string.

The methods follow the source statement by statement. The loops over `line`,
`trimmed`, `time_start`, `len`, `prev_dot`, `potential_ext` and `lyric` are
`while` loops with invariants. The two flags are local variables of
`ConvertVttToLrc` that each iteration updates. Each method is proved equal to
a specification function, and the lemmas are stated about those functions.

## Model

| member | source | states |
|---|---|---|
| Normalizer.MarkerPos | Generation5EnVer.cpp:12-13 | the position found is an occurrence of `.vtt` or of `.VTT`, and there is none exactly when the name contains neither |
| Normalizer.CleanName | Generation5EnVer.cpp:9-44 | the clean name is a prefix of the input, and ends no later than the subtitle extension when there is one |
| Normalizer.UnchangedIffNoMarker | Generation5EnVer.cpp:12-17 | the name comes back unchanged if and only if it contains neither `.vtt` nor `.VTT` (mixed case such as `.Vtt` is not recognised) |
| Normalizer.MarkerAt | Generation5EnVer.cpp:12-13 | when `.vtt` does not occur before it, the first `.vtt` is the marker; `.VTT` is used only when there is no `.vtt` at all |
| Normalizer.MarkerFirstAfterPlainStem | Generation5EnVer.cpp:12-13 | after a stem with no `.v` or `.V`, a `.vtt`, or a `.VTT` with no `.vtt` after it, is the marker |
| Normalizer.StripsAudioExtension | Generation5EnVer.cpp:24-37 | a dot segment that lowercases to one of the seven audio extensions and sits right before the marker is removed with it (`track.MP3.VTT` gives `track`) |
| Normalizer.KeepsOtherExtension | Generation5EnVer.cpp:41-43 | when no dot segment ending at the marker is an audio extension, the result is the text before the marker (`notes.txt.vtt` gives `notes.txt`) |
| Normalizer.NoAudioSuffixAt | Generation5EnVer.cpp:31-38 | under `NoAudioSuffix`, no dot-started suffix lowercases to an audio extension |
| Normalizer.LastDotBefore | Generation5EnVer.cpp:19-22 | the pointer loop ends with the last `.` strictly before the marker, or none |
| Normalizer.LowerInPlace | Generation5EnVer.cpp:29 | the buffer holds `tolower` of each of its old characters, in place |
| Normalizer.IsAudioExtension | Generation5EnVer.cpp:31-38 | the `strcmp` loop finds a match if and only if the buffer is one of the seven extensions |
| Normalizer.RemoveAudioExtension | Generation5EnVer.cpp:9-44 | the procedure's result is `CleanName` of its input |
| CLib.IndexFrom | Generation5EnVer.cpp:93 | the match found from index `from` on is an occurrence of the pattern with none between `from` and it; no match means no occurrence from `from` on |
| CLib.IndexOf | Generation5EnVer.cpp:93 | `strstr` returns the first occurrence of the pattern, or NULL when there is none anywhere |
| CLib.Contains | Generation5EnVer.cpp:72 | `strstr(s, pat) != NULL` holds if and only if `pat` occurs in `s` at some index |
| CLib.SkipSpaces | Generation5EnVer.cpp:103 | the `isspace` loop passes only white space and stops at the end or at the first other character |
| CLib.DigitRunEnd | Generation5EnVer.cpp:100 | the `isdigit` loop passes only digits and stops at the end or at the first non-digit |
| CLib.LastIndexOf | Generation5EnVer.cpp:136 | `strrchr` returns a position holding the character with none after it, or none when the character does not occur |
| CLib.LineEndIndex | Generation5EnVer.cpp:65 | `strcspn(line, "\r\n")` is the first CR or LF, or the length; nothing before it is CR or LF |
| CLib.LineEndIndexAt | Generation5EnVer.cpp:65 | a line with no CR or LF, followed by its line ending, is cut back to itself |
| CLib.CDiv | Generation5EnVer.cpp:129-130 | C's `/` truncates toward zero: what is left over lies in [0, b) for a non-negative numerator and in (-b, 0] for a negative one |
| CLib.CMod | Generation5EnVer.cpp:130 | C's `%` is what `/` leaves over: a = (a / b)·b + r, with r taking the sign of a |
| CLib.TrimRightEnd | Generation5EnVer.cpp:110 | the trimmed end leaves only white space between it and the arrow, and the character before it, if any is left, is not white space |
| Printf.ZeroPadValue | Generation5EnVer.cpp:130 | `%0Nd` reads back as its number: an optional minus sign, then digits whose value is the magnitude |
| Printf.ZeroPadLength | Generation5EnVer.cpp:130 | `%0Nd` is N characters long, or the length of `%d` if that is longer: it never truncates |
| Printf.ZeroPad | Generation5EnVer.cpp:130 | `%02d`: partnered by `ZeroPadValue` (it reads back as its number) and `ZeroPadLength` (it is never shorter than the width and never truncates) |
| Scanf.Render | Generation5EnVer.cpp:130 | `fprintf` of a format of `%0Nd` and literals: partnered by `ScanRender`, which scans it back to the values printed |
| Scanf.ScanInt | Generation5EnVer.cpp:120-123 | `%d` consumes at least one digit and stops at the end of the digit run |
| Scanf.Scan | Generation5EnVer.cpp:120-123 | a successful scan yields one value per `%d` |
| Scanf.ScanIntOfZeroPad | Generation5EnVer.cpp:120-123 | `%d` reads back the number that `%0Nd` wrote |
| Scanf.ScanRender | Generation5EnVer.cpp:120-123 | scanning what a format renders, followed by anything that does not start with a digit, gives back the rendered values, when no two `%d` are adjacent and no literal is a digit |
| Scanf.ScanRejectsRender | Generation5EnVer.cpp:120-123 | a format that needs a different literal at the first point where the two formats differ fails on text rendered by the other |
| Scanf.DivergeExclusive | Generation5EnVer.cpp:120-123 | two formats that first differ at a literal character never both succeed on the same text, whatever that text is |
| Converter.CutLine | Generation5EnVer.cpp:65 | the cut line is a prefix of the raw line and holds no CR or LF, and it ends at the end of the raw line or at a CR or LF: it is cut at the first line break |
| Converter.HeaderGuard | Generation5EnVer.cpp:68 | the guard while the header is awaited: partnered by `HeaderFlag`, `HeaderLinesDropped` and `HeaderNotRequired` |
| Converter.IsMetadataOrBlank | Generation5EnVer.cpp:72 | `NOTE`, `STYLE`, `REGION` and empty lines: `SkippedLinesUnchanged` shows they write nothing and change no flag, except a `WEBVTT` line while the header is awaited, which clears the header flag |
| Converter.IsCueNumber | Generation5EnVer.cpp:77-91 | a line that is all digits after its leading white space: `CueNumberLine` proves the source's loops compute it, and `DashNotCueNumber` shows a time range never matches |
| Converter.TimeStart | Generation5EnVer.cpp:96-105 | the start index lies within the line; `SkipCueNumber` proves the source's loops compute it, and `TimeStartAfterCue` gives its value after a cue number |
| Converter.ScanTime | Generation5EnVer.cpp:120-123 | one `sscanf` attempt: `ParseRendered` and `EarlierFormatsFail` show which attempt accepts a start time written in each form |
| Converter.ParseStartTime | Generation5EnVer.cpp:117-125 | the chain succeeds if and only if one of the four formats converts every field, and its result is what one of them reads; `ParseStartTimeOrderFree` shows that this is what every format that reads the field gives |
| Converter.StartTime | Generation5EnVer.cpp:96-125 | the start time of a timing line: `ReadStartTime` proves the source computes it, and `StartTimeOfTimingLine` shows it is the time written on the line |
| Converter.TotalSeconds | Generation5EnVer.cpp:128 | `hour * 3600 + minute * 60 + second`: `TagValuesMeaning` splits it into the minutes and seconds of the tag |
| Converter.TagValues | Generation5EnVer.cpp:128-130 | the three values printed, always three: `TagValuesMeaning` gives their meaning |
| Converter.Tag | Generation5EnVer.cpp:130 | the tag text: `TagText` gives its characters, `TagReadsBack` scans it back to its values, and `TagWidth` gives its length |
| Converter.TimingStep | Generation5EnVer.cpp:93-131 | a timing line: `ProcessTimingLine` proves the source's branch computes it, and `TimingLineWritesTag`, `TimingLineWithoutStart` and `UnparsedStartIgnored` say what it writes |
| Converter.LyricStep | Generation5EnVer.cpp:132-152 | a text line: `LyricLine` shows it writes nothing before the first tag and afterwards the stripped text and a newline |
| Converter.Classify | Generation5EnVer.cpp:72-152 | a line past the header guard: `ProcessContent` proves the source computes it, and `SkippedLinesUnchanged` covers the lines it drops |
| Converter.Step | Generation5EnVer.cpp:65-152 | one iteration of the loop: `ProcessLine` proves the source's body computes it, and `StepFlags` says how it moves the flags and what it may write |
| Converter.StartField | Generation5EnVer.cpp:96-111 | a start field, when there is one, is non-empty and does not end in white space |
| Converter.Directives | Generation5EnVer.cpp:120-123 | the formats with an hour read four integers, the others three |
| Converter.StripTrailingNumber | Generation5EnVer.cpp:136-149 | the text written is a prefix of the line |
| Converter.SkipWhitespace | Generation5EnVer.cpp:78 | the `isspace` loop stops at the first non-space character |
| Converter.SkipDigits | Generation5EnVer.cpp:100 | the `isdigit` loop stops at the end of the digit run |
| Converter.AllDigitsFrom | Generation5EnVer.cpp:80-86 | the flag loop with its `break` answers whether every character from the start position is a digit |
| Converter.CueNumberLine | Generation5EnVer.cpp:77-91 | the trimming and digit loops recognise a line that is a cue number on its own |
| Converter.SkipCueNumber | Generation5EnVer.cpp:96-105 | the leading `digits + space/tab + white space` skip ends at `TimeStart` |
| Converter.TrimmedLength | Generation5EnVer.cpp:109-110 | `len` ends where the trimming of trailing white space before the arrow ends |
| Converter.ReadStartField | Generation5EnVer.cpp:96-115 | the copied `start_time` is the start field, or none when the skip reaches the arrow or the field is blank |
| Converter.ScanStartTime | Generation5EnVer.cpp:117-125 | the `sscanf` chain succeeds exactly when one of the four formats matches, and yields the first match, with hour 0 for the two-field forms |
| Converter.ReadStartTime | Generation5EnVer.cpp:96-125 | the start time read from a timing line is `StartTime` of the line |
| Converter.StripLyric | Generation5EnVer.cpp:134-149 | the lyric buffer after the `strrchr` and digit loop is `StripTrailingNumber` of the line |
| Converter.ProcessTimingLine | Generation5EnVer.cpp:96-130 | a timing line writes the tag of its start time and sets the timestamp flag, or writes nothing and changes nothing |
| Converter.ProcessContent | Generation5EnVer.cpp:72-152 | a line past the header guard is dropped, handled as a timing line, or handled as text, as `Classify` says |
| Converter.ProcessLine | Generation5EnVer.cpp:65-152 | one iteration of the loop body computes `Step` of the two flags and the raw line |
| Converter.ConvertVttToLrc | Generation5EnVer.cpp:60-153 | the loop writes `Convert(lines)`: the invariant is that the flags and output so far equal the left fold of `Step` over the lines read |
| ConverterLemmas.HeaderFlag | Generation5EnVer.cpp:68-69 | the header flag is set after a line if and only if it was set before and the cut line holds no `WEBVTT` |
| ConverterLemmas.HeaderLinesDropped | Generation5EnVer.cpp:68-70 | while the header flag is set, `WEBVTT` lines and empty lines write nothing and keep the timestamp flag |
| ConverterLemmas.HeaderNotRequired | Generation5EnVer.cpp:68-71 | any other line writes the same and sets the timestamp flag the same way whether or not the header was seen, so a header is not required |
| ConverterLemmas.SkippedLinesUnchanged | Generation5EnVer.cpp:72-91 | a line that contains `NOTE`/`STYLE`/`REGION`, is empty, or is all digits after leading white space writes nothing and leaves both flags unchanged, except a `WEBVTT` line while the header is awaited, which clears the header flag |
| ConverterLemmas.DashNotCueNumber | Generation5EnVer.cpp:77-91 | a line with a `-` in it is never skipped as a cue number |
| ConverterLemmas.TimeStartAfterCue | Generation5EnVer.cpp:96-105 | after an optional leading cue number followed by a space or tab and more white space, the start field begins at the time |
| ConverterLemmas.TimingLineWithoutStart | Generation5EnVer.cpp:107-111 | a timing line whose skip reaches the arrow, or whose field is only white space, writes nothing and changes nothing |
| ConverterLemmas.FieldBeforeArrow | Generation5EnVer.cpp:107-115 | the start field is the time, with the white space before the arrow trimmed off |
| ConverterLemmas.ParseRendered | Generation5EnVer.cpp:117-125 | a start time written in any of the four forms, followed by anything that does not start with a digit, parses to its own fields, with hour 0 for the two-field forms |
| ConverterLemmas.EarlierFormatsFail | Generation5EnVer.cpp:120-123 | every format the chain tries before form `f` fails on a start time written in form `f`, whatever follows it, so no earlier attempt takes it |
| ConverterLemmas.DirectivesDiverge | Generation5EnVer.cpp:120-123 | each format tried earlier and each later one first differ at a literal character (for example `%d:%d:%d.%d` against `%d:%d.%d` at `:` against `.`) |
| ConverterLemmas.FormatsExclusive | Generation5EnVer.cpp:120-123 | no text, printed time or not, is read by two of the four formats |
| ConverterLemmas.ParseStartTimeOrderFree | Generation5EnVer.cpp:117-125 | on any field, when some format reads it, the chain yields exactly that format's fields: the first success is the only one, so the order of the attempts does not matter |
| ConverterLemmas.UnparsedStartIgnored | Generation5EnVer.cpp:117-125 | a start field that none of the four formats reads writes nothing and leaves the timestamp flag as it is |
| ConverterLemmas.TagText | Generation5EnVer.cpp:130 | the tag is `[`, `%02d` of the minutes, `:`, `%02d` of the seconds, `.`, `%02d` of the centiseconds, then `]` |
| ConverterLemmas.TagValuesMeaning | Generation5EnVer.cpp:128-130 | minutes·60 + seconds is the total of h·3600+m·60+s, with seconds in 0..59 for a non-negative time, and the centiseconds are ms/10 rounded half up |
| ConverterLemmas.TagReadsBack | Generation5EnVer.cpp:130 | scanning the tag with the format it was printed with gives back the three values |
| ConverterLemmas.TagWidth | Generation5EnVer.cpp:130 | below 100 minutes and below 995 ms, the tag is exactly ten characters |
| ConverterLemmas.CentisecondOverflow | Generation5EnVer.cpp:129-130 | 995 to 999 ms give centiseconds 100, printed as `.100]`, with no carry into the seconds |
| ConverterLemmas.StartTimeOfTimingLine | Generation5EnVer.cpp:96-125 | on a line of cue number, time, white space, arrow and text, the start time read is the time written |
| ConverterLemmas.TimingLineWritesTag | Generation5EnVer.cpp:65-130 | such a line, with any line ending and no keyword, writes exactly the tag of its start time and sets the timestamp flag |
| ConverterLemmas.StripsNumberToken | Generation5EnVer.cpp:136-149 | a text line that ends in a space and a non-empty digit run loses both (`Hello world 7` gives `Hello world`) |
| ConverterLemmas.StripRemovesOnlyNumber | Generation5EnVer.cpp:136-149 | the text is unchanged, or what was removed is exactly the last space and a non-empty digit run after it |
| ConverterLemmas.LyricLine | Generation5EnVer.cpp:132-152 | a text line writes nothing before the first tag, and after it writes the stripped text and a newline; both flags are unchanged |
| RunLemmas.StepFlags | Generation5EnVer.cpp:64-153 | one iteration never clears the timestamp flag and never sets the header flag again; it writes only when the timestamp flag ends up set; the iteration that sets the flag writes exactly `Tag(t)` for some start time `t` |
| Converter.Fold | Generation5EnVer.cpp:64-153 | a left fold over the lines: `FoldAppend` shows that folding over two parts is folding over the first, then over the second from the state it left |
| Converter.RunFrom | Generation5EnVer.cpp:64-153 | the loop from given flags: `RunAppend`, `OutputPrefix` and `RunFlags` state its composition, prefix and flag properties |
| Converter.Convert | Generation5EnVer.cpp:60-153 | the LRC text of a file: `ConvertVttToLrc` proves the source's loop writes it, and `ConvertStartsWithTag` says how it starts |
| RunLemmas.FoldAppend | Generation5EnVer.cpp:64-153 | for any step function, folding over `a + b` is folding over `b` from the state after `a`, with the outputs concatenated |
| RunLemmas.RunAppend | Generation5EnVer.cpp:64-153 | running over two parts of a file is running over the first, then over the second from the flags it left, with the outputs concatenated |
| RunLemmas.OutputPrefix | Generation5EnVer.cpp:64-153 | what the first lines write is a prefix of what the whole file writes |
| RunLemmas.RunFlags | Generation5EnVer.cpp:61-153 | over a whole run, the timestamp flag once set stays set, the header flag once cleared stays cleared, nothing is written unless the timestamp flag ends set, and when a run sets the flag, its output starts with `Tag(t)` for some start time `t` |
| RunLemmas.ConvertStartsWithTag | Generation5EnVer.cpp:60-153 | the LRC text of any input is empty or starts with `Tag(t)` for some start time `t`, so with `[` |

## Line correspondence

The code of `Generation5.cpp` is the same as that of `Generation5EnVer.cpp`.
Its lines are shifted by one extra comment line at 76-77 and another at 93:

| Generation5EnVer.cpp | Generation5.cpp |
|---|---|
| 9-44 (`remove_audio_extension`) | 9-44 |
| 60-75 | 60-75 |
| 76-91 (cue-number lines) | 76-92 |
| 93-153 (arrow, start time, tag, text) | 95-155 |

## Left out

- `main`: listing the directory, selecting `.vtt` names with `strcasecmp`, forming the `.lrc` name with `sprintf`, console messages and `system("pause")`. This is operating-system glue.
- `fopen`, `fclose` and `perror`, and their error paths: the model takes the lines of the file and returns the text written.
- `fgets` into a 1024-byte buffer, which splits a longer physical line into several chunks: the model takes lines that are already split.
- NUL characters inside a line, which C string functions treat as its end.
- The fixed buffers `potential_ext[32]`, `start_time[64]` and `lyric[1024]`, and the 512-byte name buffers of `main`: the model's strings are unbounded. With `potential_ext`, a dot segment longer than 31 characters overflows the buffer in C. In the model it is compared in full, and it can never match, because no audio extension is longer than five characters.
- `int` overflow in `sscanf` on very long digit runs and in `hour * 3600 + minute * 60 + second`: the model uses mathematical integers.
- Locale: `isspace`, `isdigit` and `tolower` are their ASCII definitions in the "C" locale.
- In-place truncation of `line` at the CR/LF, and of `lyric` at the last space: they are modelled as taking a prefix. The `lyric` copy is a separate string value, not an aliased buffer.
- The header guard's `line[0] == '\r'` test is modelled as written. After the cut it never holds, which is why `HeaderNotRequired` needs only a non-empty line without `WEBVTT`.
- ConverterLemmas.TimingLineWritesTag: stated for lines with non-negative time fields and either no cue number or a cue number followed by white space. Other accepted start fields are covered only by the general `Step` definition and by `ParseRendered`. These include negative fields written with `-`, and leading white space with no cue number.
- ConverterLemmas.TagWidth: stated only below 100 minutes and below 995 ms, where each field has two digits. Longer times widen the minutes field, as `ZeroPadLength` states.
