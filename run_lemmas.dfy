/** Properties of the whole conversion loop: how runs compose, how the two
    flags evolve, and what the output can start with. */
module RunLemmas {
  import opened Options
  import opened CLib
  import opened Converter
  import opened ConverterLemmas

  /** One step never clears the timestamp flag and never sets the header
      flag again; it writes only once the timestamp flag is set, and what it
      writes on the step that sets the flag is a tag. */
  lemma StepFlags(st: State, raw: string)
    ensures st.timestampFound ==> Step(st, raw).state.timestampFound
    ensures !st.awaitingHeader ==> !Step(st, raw).state.awaitingHeader
    ensures !Step(st, raw).state.timestampFound ==> Step(st, raw).output == []
    ensures !st.timestampFound && Step(st, raw).state.timestampFound
            ==> Step(st, raw).output != [] && Step(st, raw).output[0] == '['
    ensures !st.timestampFound && Step(st, raw).state.timestampFound
            ==> exists t :: Step(st, raw).output == Tag(t)
  {
    var line := CutLine(raw);
    if !(st.awaitingHeader && HeaderGuard(line)) && !IsMetadataOrBlank(line) && !IsCueNumber(line) {
      match IndexOf(line, "-->") {
        case Some(arrow) =>
          match StartTime(line, arrow) {
            case Some(t) =>
              TagText(t);
              assert Step(st, raw).output == Tag(t);
            case None =>
          }
        case None =>
      }
    }
  }

  /** Folding over `xs + ys` is folding over `xs`, then over `ys` from
      where `xs` left off; the outputs are concatenated. */
  lemma {:induction false} FoldAppend(step: (State, string) -> Conversion, st: State, xs: seq<string>, ys: seq<string>)
    ensures Fold(step, st, xs + ys)
         == Conversion(Fold(step, Fold(step, st, xs).state, ys).state,
                       Fold(step, st, xs).output + Fold(step, Fold(step, st, xs).state, ys).output)
    decreases |ys|
  {
    if |ys| == 0 {
      assert xs + ys == xs;
    } else {
      var init := ys[..|ys| - 1];
      assert (xs + ys)[..|xs + ys| - 1] == xs + init;
      FoldAppend(step, st, xs, init);
    }
  }

  /** Running over `xs + ys` is running over `xs`, then over `ys` from
      where `xs` left off; the outputs are concatenated. */
  lemma RunAppend(st: State, xs: seq<string>, ys: seq<string>)
    ensures RunFrom(st, xs + ys)
         == Conversion(RunFrom(RunFrom(st, xs).state, ys).state,
                       RunFrom(st, xs).output + RunFrom(RunFrom(st, xs).state, ys).output)
  {
    FoldAppend(Step, st, xs, ys);
  }

  /** Output is only ever appended to: what the first `i` lines write is a
      prefix of what the whole file writes. */
  lemma OutputPrefix(st: State, lines: seq<string>, i: nat)
    requires i <= |lines|
    ensures RunFrom(st, lines[..i]).output <= RunFrom(st, lines).output
  {
    assert lines == lines[..i] + lines[i..];
    RunAppend(st, lines[..i], lines[i..]);
  }

  /** Over a whole run: the timestamp flag once set stays set, the header
      flag once cleared stays cleared, nothing is written unless the flag
      ends up set, and a run that starts before any timestamp writes a tag
      first. */
  lemma {:induction false} RunFlags(st: State, lines: seq<string>)
    ensures st.timestampFound ==> RunFrom(st, lines).state.timestampFound
    ensures !st.awaitingHeader ==> !RunFrom(st, lines).state.awaitingHeader
    ensures !RunFrom(st, lines).state.timestampFound ==> RunFrom(st, lines).output == []
    ensures !st.timestampFound && RunFrom(st, lines).state.timestampFound
            ==> RunFrom(st, lines).output != [] && RunFrom(st, lines).output[0] == '['
    ensures !st.timestampFound && RunFrom(st, lines).state.timestampFound
            ==> exists t :: Tag(t) <= RunFrom(st, lines).output
    decreases |lines|
  {
    if |lines| > 0 {
      var init := lines[..|lines| - 1];
      var before := RunFrom(st, init);
      var step := Step(before.state, lines[|lines| - 1]);
      RunFlags(st, init);
      StepFlags(before.state, lines[|lines| - 1]);
      assert RunFrom(st, lines).output == before.output + step.output;
      if !st.timestampFound && step.state.timestampFound {
        if before.state.timestampFound {
          var t :| Tag(t) <= before.output;
          assert Tag(t) <= RunFrom(st, lines).output;
        } else {
          var t :| step.output == Tag(t);
          assert RunFrom(st, lines).output == Tag(t);
        }
      }
    }
  }

  /** The LRC text of any WebVTT file is empty or begins with a tag. */
  lemma ConvertStartsWithTag(lines: seq<string>)
    ensures Convert(lines) == [] || Convert(lines)[0] == '['
    ensures Convert(lines) == [] || exists t :: Tag(t) <= Convert(lines)
  {
    RunFlags(Initial, lines);
  }
}
