/** remove_audio_extension: the name of the LRC file is the name of the VTT
    file cut at its subtitle extension; when the segment just before that
    extension is a known audio extension ("song.mp3.vtt"), it goes too. */
module Normalizer {
  import opened Options
  import opened CLib

  /** The audio extensions that are dropped, compared after tolower. */
  const AudioExtensions: seq<string> := [".wav", ".mp3", ".flac", ".ogg", ".m4a", ".aac", ".wma"]

  /** Where the subtitle extension starts: the first ".vtt", or, when there
      is none, the first ".VTT". Mixed case is not recognised. */
  function MarkerPos(name: string): (r: Option<nat>)
    ensures r.Some? ==> OccursAt(name, ".vtt", r.value) || OccursAt(name, ".VTT", r.value)
    ensures r.None? <==> !Contains(name, ".vtt") && !Contains(name, ".VTT")
  {
    if Contains(name, ".vtt") then IndexOf(name, ".vtt") else IndexOf(name, ".VTT")
  }

  /** The clean name of a subtitle file: unchanged without a subtitle
      extension; otherwise everything before it, less a trailing audio
      extension (the segment from the last dot up to the subtitle
      extension, in any case). */
  function CleanName(name: string): (r: string)
    ensures r <= name
    ensures MarkerPos(name).Some? ==> |r| <= MarkerPos(name).value
  {
    match MarkerPos(name)
    case None => name
    case Some(m) =>
      match LastIndexOf(name[..m], '.')
      case None => name[..m]
      case Some(d) => if Lower(name[d..m]) in AudioExtensions then name[..d] else name[..m]
  }

  /** strrchr over a buffer one character longer. */
  lemma LastIndexOfSnoc(s: string, c: char, x: char)
    ensures LastIndexOf(s + [x], c) == if x == c then Some(|s|) else LastIndexOf(s, c)
  {
    assert (s + [x])[..|s|] == s;
  }

  /** The loop that remembers the last dot before index `end`. */
  method LastDotBefore(name: string, end: nat) returns (prevDot: Option<nat>)
    requires end <= |name|
    ensures prevDot == LastIndexOf(name[..end], '.')
  {
    prevDot := None;
    var current := 0;
    while current < end
      invariant current <= end
      invariant prevDot == LastIndexOf(name[..current], '.')
    {
      LastIndexOfSnoc(name[..current], '.', name[current]);
      assert name[..current + 1] == name[..current] + [name[current]];
      if name[current] == '.' {
        prevDot := Some(current);
      }
      current := current + 1;
    }
  }

  /** The loop that applies tolower to a buffer in place. */
  method LowerInPlace(buf: array<char>)
    modifies buf
    ensures buf[..] == Lower(old(buf[..]))
  {
    var p := 0;
    while p < buf.Length
      invariant p <= buf.Length
      invariant forall k :: 0 <= k < p ==> buf[k] == ToLower(old(buf[k]))
      invariant forall k :: p <= k < buf.Length ==> buf[k] == old(buf[k])
    {
      buf[p] := ToLower(buf[p]);
      p := p + 1;
    }
  }

  /** The loop that compares a buffer with each audio extension (strcmp). */
  method IsAudioExtension(buf: array<char>) returns (found: bool)
    ensures found <==> buf[..] in AudioExtensions
  {
    var i := 0;
    while i < |AudioExtensions|
      invariant i <= |AudioExtensions|
      invariant forall k :: 0 <= k < i ==> AudioExtensions[k] != buf[..]
    {
      if buf[..] == AudioExtensions[i] {
        return true;
      }
      i := i + 1;
    }
    return false;
  }

  /** The source's procedure: find the subtitle extension with strstr, find
      the last dot before it, copy the segment from that dot into a buffer,
      lower-case it there and compare it with the audio extensions. */
  method RemoveAudioExtension(vttName: string) returns (cleanName: string)
    ensures cleanName == CleanName(vttName)
  {
    var marker := IndexOf(vttName, ".vtt");
    if marker.None? {
      marker := IndexOf(vttName, ".VTT");
    }
    if marker.None? {
      return vttName;
    }
    var m := marker.value;
    var prevDot := LastDotBefore(vttName, m);
    if prevDot.Some? {
      var d := prevDot.value;
      var potentialExt := new char[m - d](k requires 0 <= k < m - d => vttName[d + k]);
      assert potentialExt[..] == vttName[d..m];
      LowerInPlace(potentialExt);
      var isAudio := IsAudioExtension(potentialExt);
      if isAudio {
        return vttName[..d];
      }
    }
    return vttName[..m];
  }

  /** A name is left as it is exactly when it holds neither ".vtt" nor ".VTT". */
  lemma UnchangedIffNoMarker(name: string)
    ensures CleanName(name) == name <==> !Contains(name, ".vtt") && !Contains(name, ".VTT")
  {
    if MarkerPos(name).Some? {
      assert |CleanName(name)| <= MarkerPos(name).value < |name|;
    }
  }

  /** `marker` is a subtitle extension and, placed after `stem`, it is the
      one the search finds: no earlier occurrence of it, and for ".VTT" no
      ".vtt" anywhere in the name. */
  predicate MarkerFirstAfter(stem: string, marker: string, tail: string)
  {
    (marker == ".vtt" || (marker == ".VTT" && !Contains(stem + marker + tail, ".vtt")))
    && !Contains(stem + marker[..3], marker)
  }

  lemma MarkerAt(stem: string, marker: string, tail: string)
    requires MarkerFirstAfter(stem, marker, tail)
    ensures MarkerPos(stem + marker + tail) == Some(|stem|)
  {
    var name := stem + marker + tail;
    var pre := stem + marker[..3];
    forall k | 0 <= k < |stem|
      ensures !OccursAt(name, marker, k)
    {
      assert !OccursAt(pre, marker, k);
      assert name[k..k + 4] == pre[k..k + 4];
    }
    assert name[|stem|..|stem| + 4] == marker;
    IndexOfAt(name, marker, |stem|);
  }

  /** "base.MP3.vtt" becomes "base": the audio extension before the
      subtitle extension is dropped whatever its case, and so is
      everything after the subtitle extension. */
  lemma StripsAudioExtension(base: string, ext: string, marker: string, tail: string)
    requires Lower(ext) in AudioExtensions
    requires MarkerFirstAfter(base + ext, marker, tail)
    ensures CleanName(base + ext + marker + tail) == base
  {
    var name := base + ext + marker + tail;
    var m := |base| + |ext|;
    MarkerAt(base + ext, marker, tail);
    assert name[..m] == base + ext;
    forall k | |base| < k < m
      ensures name[..m][k] != '.'
    {
      assert Lower(ext)[k - |base|] != '.';
    }
    assert Lower(ext)[0] == '.';
    LastIndexOfAt(name[..m], '.', |base|);
    assert name[|base|..m] == ext;
  }

  /** No suffix of `s` that starts at a dot is an audio extension. */
  predicate NoAudioSuffix(s: string)
  {
    |s| == 0 || ((s[0] != '.' || Lower(s) !in AudioExtensions) && NoAudioSuffix(s[1..]))
  }

  lemma {:induction false} NoAudioSuffixAt(s: string, d: nat)
    requires NoAudioSuffix(s) && d < |s| && s[d] == '.'
    ensures Lower(s[d..]) !in AudioExtensions
  {
    if d > 0 {
      assert s[1..][d - 1..] == s[d..];
      NoAudioSuffixAt(s[1..], d - 1);
    }
  }

  /** "notes.txt.vtt" becomes "notes.txt": when the name before the subtitle
      extension does not end in an audio extension, only the subtitle
      extension and what follows it are dropped. */
  lemma KeepsOtherExtension(stem: string, marker: string, tail: string)
    requires NoAudioSuffix(stem)
    requires MarkerFirstAfter(stem, marker, tail)
    ensures CleanName(stem + marker + tail) == stem
  {
    var name := stem + marker + tail;
    MarkerAt(stem, marker, tail);
    assert name[..|stem|] == stem;
    match LastIndexOf(stem, '.')
    case None =>
    case Some(d) =>
      assert name[d..|stem|] == stem[d..];
      NoAudioSuffixAt(stem, d);
  }

  /** No dot in `s` is directly followed by 'v' or 'V'. */
  predicate NoDotThenV(s: string)
  {
    |s| < 2 || ((s[0] != '.' || ToLower(s[1]) != 'v') && NoDotThenV(s[1..]))
  }

  lemma {:induction false} NoDotThenVAt(s: string, k: nat)
    requires NoDotThenV(s) && k + 1 < |s| && s[k] == '.'
    ensures ToLower(s[k + 1]) != 'v'
  {
    if k > 0 {
      assert s[1..][k - 1] == s[k] && s[1..][k] == s[k + 1];
      NoDotThenVAt(s[1..], k - 1);
    }
  }

  /** A subtitle extension after a stem with no ".v" or ".V" in it is the
      one the search finds (for ".VTT", when no ".vtt" follows it). */
  lemma MarkerFirstAfterPlainStem(stem: string, marker: string, tail: string)
    requires NoDotThenV(stem)
    requires marker == ".vtt" || (marker == ".VTT" && !Contains(tail, ".vtt"))
    ensures MarkerFirstAfter(stem, marker, tail)
  {
    var pre := stem + marker[..3];
    forall k: nat | OccursAt(pre, marker, k)
      ensures false
    {
      assert pre[k..k + 4][0] == '.' && pre[k..k + 4][1] == marker[1];
      if k + 1 < |stem| {
        NoDotThenVAt(stem, k);
      }
    }
    if marker == ".VTT" {
      var name := stem + marker + tail;
      forall k: nat | OccursAt(name, ".vtt", k)
        ensures false
      {
        assert name[k] == name[k..k + 4][0] == '.';
        assert name[k + 1] == name[k..k + 4][1] == 'v';
        if k + 1 < |stem| {
          NoDotThenVAt(stem, k);
        } else if k >= |stem| + 4 {
          assert name[|stem| + 4..] == tail;
          assert tail[k - |stem| - 4..k - |stem|] == name[k..k + 4];
          assert OccursAt(tail, ".vtt", k - |stem| - 4);
        }
      }
    }
  }
}
