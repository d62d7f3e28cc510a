/** Companion audio filename: Python's `str.replace` of ".avi" by "_audio.wav". */
module Filenames {

  /** The extension the recorder looks for in the video filename. */
  const VideoExtension: string := ".avi"
  /** What each occurrence of the extension is replaced by. */
  const AudioSuffix: string := "_audio.wav"

  /** `pat` occurs in `s` starting at index `i`. */
  predicate OccursAt(s: string, pat: string, i: int) {
    0 <= i && i + |pat| <= |s| && s[i..i + |pat|] == pat
  }

  predicate Contains(s: string, pat: string) {
    exists i :: 0 <= i <= |s| - |pat| && OccursAt(s, pat, i)
  }

  /**
   * Python's `s.replace(pat, rep)` for a non-empty `pat`: the string is scanned from
   * the left; an occurrence of `pat` is replaced by `rep` and the scan resumes after
   * it, so occurrences never overlap; characters that start no occurrence are kept.
   */
  function Replace(s: string, pat: string, rep: string): (r: string)
    requires pat != []
    ensures |rep| >= |pat| ==> |r| >= |s|
    decreases |s|
  {
    if |s| < |pat| then s
    else if s[..|pat|] == pat then rep + Replace(s[|pat|..], pat, rep)
    else [s[0]] + Replace(s[1..], pat, rep)
  }

  /**
   * The name `save_audio` writes the audio to, derived from the video filename. It is
   * never shorter, and it equals the video filename exactly when the latter holds no ".avi".
   */
  function AudioFilename(videoFilename: string): (r: string)
    ensures |r| >= |videoFilename|
    ensures r == videoFilename <==> !Contains(videoFilename, VideoExtension)
  {
    ReplaceChangesIffOccurrence(videoFilename, VideoExtension, AudioSuffix);
    Replace(videoFilename, VideoExtension, AudioSuffix)
  }

  /** A string in which `pat` does not occur is returned unchanged. */
  lemma {:induction false} ReplaceWithoutOccurrence(s: string, pat: string, rep: string)
    requires pat != []
    requires !Contains(s, pat)
    ensures Replace(s, pat, rep) == s
    decreases |s|
  {
    if |s| >= |pat| {
      assert !OccursAt(s, pat, 0);
      forall i ensures !OccursAt(s[1..], pat, i) {
        if OccursAt(s[1..], pat, i) {
          assert s[1..][i..i + |pat|] == s[i + 1..i + 1 + |pat|];
          assert OccursAt(s, pat, i + 1);
        }
      }
      ReplaceWithoutOccurrence(s[1..], pat, rep);
    }
  }

  /** When the replacement is longer than the pattern, an occurrence makes the result longer. */
  lemma {:induction false} ReplaceLengthensOccurrence(s: string, pat: string, rep: string)
    requires pat != [] && |rep| > |pat|
    requires Contains(s, pat)
    ensures |Replace(s, pat, rep)| > |s|
    decreases |s|
  {
    var i :| 0 <= i <= |s| - |pat| && OccursAt(s, pat, i);
    if s[..|pat|] == pat {
      assert |Replace(s[|pat|..], pat, rep)| >= |s[|pat|..]|;
    } else {
      assert i != 0;
      var j := i - 1;
      assert s[1..][j..j + |pat|] == s[i..i + |pat|];
      assert OccursAt(s[1..], pat, j);
      ReplaceLengthensOccurrence(s[1..], pat, rep);
    }
  }

  /** A prefix in which no occurrence of `pat` starts is copied through unchanged. */
  lemma {:induction false} ReplaceKeepsPrefix(p: string, t: string, pat: string, rep: string)
    requires pat != []
    requires forall i :: 0 <= i < |p| ==> !OccursAt(p + t, pat, i)
    ensures Replace(p + t, pat, rep) == p + Replace(t, pat, rep)
    decreases |p|
  {
    if p != [] {
      var s := p + t;
      assert !OccursAt(s, pat, 0);
      if |s| >= |pat| {
        assert s[..|pat|] == s[0..|pat|] != pat;
        assert Replace(s, pat, rep) == [s[0]] + Replace(s[1..], pat, rep);
        assert s[1..] == p[1..] + t;
        forall i | 0 <= i < |p[1..]| ensures !OccursAt(p[1..] + t, pat, i) {
          if OccursAt(p[1..] + t, pat, i) {
            assert s[1..][i..i + |pat|] == s[i + 1..i + 1 + |pat|];
            assert OccursAt(s, pat, i + 1);
          }
        }
        ReplaceKeepsPrefix(p[1..], t, pat, rep);
        assert [s[0]] + (p[1..] + Replace(t, pat, rep)) == p + Replace(t, pat, rep);
        assert Replace(s, pat, rep) == p + Replace(t, pat, rep);
      } else {
        assert Replace(t, pat, rep) == t;
        assert Replace(s, pat, rep) == s;
      }
    } else {
      assert p + t == t;
    }
  }

  /** With a longer replacement, the result equals the input exactly when the pattern is absent. */
  lemma ReplaceChangesIffOccurrence(s: string, pat: string, rep: string)
    requires pat != [] && |rep| > |pat|
    ensures Replace(s, pat, rep) == s <==> !Contains(s, pat)
  {
    if Contains(s, pat) {
      ReplaceLengthensOccurrence(s, pat, rep);
    } else {
      ReplaceWithoutOccurrence(s, pat, rep);
    }
  }

  /**
   * Left-to-right scanning: the first ".avi" after a prefix holding none is the one
   * replaced, and the scan carries on with what follows it.
   */
  lemma FirstOccurrenceReplaced(p: string, rest: string)
    requires !Contains(p, VideoExtension)
    ensures AudioFilename(p + VideoExtension + rest) == p + AudioSuffix + AudioFilename(rest)
  {
    var s := p + VideoExtension + rest;
    var t := VideoExtension + rest;
    assert s == p + t;
    forall i | 0 <= i < |p| ensures !OccursAt(s, VideoExtension, i) {
      if i + 4 <= |p| {
        assert s[i..i + 4] == p[i..i + 4];
        assert !OccursAt(p, VideoExtension, i);
      } else {
        // the '.' of the extension at index |p| would sit inside an occurrence at i
        var k := |p| - i;
        assert s[i..i + 4][k] == s[|p|] == '.';
        assert VideoExtension[k] != '.';
      }
    }
    ReplaceKeepsPrefix(p, t, VideoExtension, AudioSuffix);
    assert t[..4] == VideoExtension && t[4..] == rest;
  }

  /** A name whose only ".avi" is its suffix maps to its stem followed by "_audio.wav". */
  lemma SuffixOnlyReplaced(stem: string)
    requires !Contains(stem, VideoExtension)
    ensures AudioFilename(stem + VideoExtension) == stem + AudioSuffix
  {
    FirstOccurrenceReplaced(stem, []);
    assert stem + VideoExtension + [] == stem + VideoExtension;
  }

  /** The first character of a replaced string: '_' if an occurrence starts there, else kept. */
  lemma HeadOfAudioFilename(t: string)
    requires |AudioFilename(t)| > 0
    ensures |t| > 0
    ensures AudioFilename(t)[0] == if OccursAt(t, VideoExtension, 0) then '_' else t[0]
  {
    if |t| >= 4 && t[..4] != VideoExtension {
      assert !OccursAt(t, VideoExtension, 0);
    }
  }

  /** A prefix of the result that holds no '_' was copied from the input. */
  lemma {:induction false} PrefixWithoutUnderscoreKept(t: string, w: string)
    requires |w| <= |AudioFilename(t)| && AudioFilename(t)[..|w|] == w
    requires forall k :: 0 <= k < |w| ==> w[k] != '_'
    ensures |w| <= |t| && t[..|w|] == w
    decreases |w|
  {
    if w != [] {
      HeadOfAudioFilename(t);
      assert AudioFilename(t)[0] == w[0];
      if |t| >= 4 {
        assert t[..4] != VideoExtension;
        var r := AudioFilename(t[1..]);
        assert AudioFilename(t) == [t[0]] + r;
        assert r[..|w| - 1] == w[1..];
        PrefixWithoutUnderscoreKept(t[1..], w[1..]);
        assert t[..|w|] == [t[0]] + t[1..][..|w| - 1];
      }
    }
  }

  /** No ".avi" survives in the audio filename. */
  lemma {:induction false} NoVideoExtensionLeft(s: string)
    ensures !Contains(AudioFilename(s), VideoExtension)
    decreases |s|
  {
    var r := AudioFilename(s);
    if |s| >= 4 {
      if s[..4] == VideoExtension {
        var u := AudioFilename(s[4..]);
        NoVideoExtensionLeft(s[4..]);
        assert r == AudioSuffix + u;
        forall i ensures !OccursAt(r, VideoExtension, i) {
          // an occurrence inside "_audio.wav" or across its end is ruled out character-wise
          if i >= 10 && OccursAt(r, VideoExtension, i) {
            assert r[i..i + 4] == u[i - 10..i - 10 + 4];
            assert OccursAt(u, VideoExtension, i - 10);
          } else if 0 <= i < 10 && i + 4 <= |r| {
            assert r[..10] == AudioSuffix;
            if i == 6 {
              assert r[i..i + 4][1] == r[7] == 'w';
            } else {
              assert r[i..i + 4][0] == r[i] != '.';
            }
          }
        }
      } else {
        var u := AudioFilename(s[1..]);
        NoVideoExtensionLeft(s[1..]);
        assert r == [s[0]] + u;
        forall i ensures !OccursAt(r, VideoExtension, i) {
          if OccursAt(r, VideoExtension, i) {
            if i >= 1 {
              assert r[i..i + 4] == u[i - 1..i - 1 + 4];
              assert OccursAt(u, VideoExtension, i - 1);
            } else {
              assert r[0..4] == VideoExtension;
              assert u[..3] == r[0..4][1..] == "avi";
              PrefixWithoutUnderscoreKept(s[1..], "avi");
            }
          }
        }
      }
    }
  }

  /** Deriving the audio filename twice is the same as deriving it once. */
  lemma AudioFilenameIdempotent(s: string)
    ensures AudioFilename(AudioFilename(s)) == AudioFilename(s)
  {
    NoVideoExtensionLeft(s);
    ReplaceWithoutOccurrence(AudioFilename(s), VideoExtension, AudioSuffix);
  }
}
