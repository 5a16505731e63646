/**
 * The encoding preset table of the stream controller and the orientation
 * transform applied to a preset's `WxH` resolution
 * (`YOUTUBE_PRESET` and `adjust_resolution_for_mode` in livestream.py).
 */
module Presets {
  import opened Wrappers
  import opened Document

  datatype Preset = Preset(
    resolution: string, fps: string,
    videoBitrate: string, audioBitrate: string,
    maxrate: string, bufsize: string)

  const P480 := Preset("854x480", "60", "1500k", "128k", "2000k", "4000k")
  const P720 := Preset("1280x720", "60", "4500k", "192k", "6000k", "12000k")
  const P1080 := Preset("1920x1080", "60", "9000k", "192k", "12000k", "24000k")

  const YoutubePreset: map<string, Preset> := map["480p" := P480, "720p60" := P720, "1080p60" := P1080]

  /** The quality assumed when the document has no `resolution` entry. */
  const DefaultQuality := "720p60"

  /**
   * `YOUTUBE_PRESET.get(quality, YOUTUBE_PRESET["720p60"])`: a known
   * quality selects its entry, anything else (including a non-string
   * value) falls back to the 720p60 entry.
   */
  function PresetFor(quality: Val): (p: Preset)
    ensures p in YoutubePreset.Values
    ensures quality == Str("480p") ==> p == P480
    ensures quality == Str("720p60") ==> p == P720
    ensures quality == Str("1080p60") ==> p == P1080
    ensures quality !in {Str("480p"), Str("720p60"), Str("1080p60")} ==> p == P720
  {
    if quality.Str? && quality.s in YoutubePreset then YoutubePreset[quality.s]
    else YoutubePreset[DefaultQuality]
  }

  /** With no `resolution` key the controller reads "720p60", hence the 720p60 entry. */
  lemma MissingQualityIs720(doc: Doc)
    requires "resolution" !in doc
    ensures PresetFor(Get(doc, "resolution", Str(DefaultQuality))) == P720
  {
  }

  // ---------------------------------------------------------------------
  // `str.split(c)` and the orientation swap
  // ---------------------------------------------------------------------

  /** Python's `s.split(c)` for a one-character separator. */
  function SplitOn(s: string, c: char): (parts: seq<string>)
    ensures |parts| >= 1
  {
    if s == [] then [""]
    else
      var rest := SplitOn(s[1..], c);
      if s[0] == c then [""] + rest else [[s[0]] + rest[0]] + rest[1..]
  }

  /** The parts glued back together with the separator. */
  function Glue(parts: seq<string>, c: char): string
    requires |parts| >= 1
  {
    if |parts| == 1 then parts[0] else parts[0] + [c] + Glue(parts[1..], c)
  }

  /** Splitting loses nothing: the parts glue back to the input. */
  lemma {:induction false} SplitGlue(s: string, c: char)
    ensures Glue(SplitOn(s, c), c) == s
  {
    if s != [] {
      var rest := SplitOn(s[1..], c);
      SplitGlue(s[1..], c);
      if s[0] != c {
        var parts := SplitOn(s, c);
        assert parts == [[s[0]] + rest[0]] + rest[1..];
        if |rest| > 1 {
          assert parts[1..] == rest[1..];
          assert Glue(rest, c) == rest[0] + [c] + Glue(rest[1..], c);
        }
      } else {
        assert ([""] + rest)[1..] == rest;
      }
      assert [s[0]] + s[1..] == s;
    }
  }

  /** The parts hold no separator, and there is one more part than separators. */
  lemma {:induction false} SplitParts(s: string, c: char)
    ensures forall k :: 0 <= k < |SplitOn(s, c)| ==> c !in SplitOn(s, c)[k]
    ensures |SplitOn(s, c)| == multiset(s)[c] + 1
  {
    if s != [] {
      var rest := SplitOn(s[1..], c);
      SplitParts(s[1..], c);
      assert s == [s[0]] + s[1..];
      assert multiset(s) == multiset{s[0]} + multiset(s[1..]);
      if s[0] != c {
        var parts := SplitOn(s, c);
        forall k | 0 <= k < |parts| ensures c !in parts[k] {
          if k > 0 { assert parts[k] == rest[k]; }
        }
      }
    }
  }

  /** A piece without the separator splits into itself. */
  lemma {:induction false} SplitNoSeparator(w: string, c: char)
    requires c !in w
    ensures SplitOn(w, c) == [w]
  {
    if w != [] {
      SplitNoSeparator(w[1..], c);
      assert [w[0]] + w[1..] == w;
    }
  }

  /** The first separator ends the first part. */
  lemma {:induction false} SplitAtFirst(w: string, c: char, h: string)
    requires c !in w
    ensures SplitOn(w + [c] + h, c) == [w] + SplitOn(h, c)
  {
    var s := w + [c] + h;
    if w == [] {
      assert s[1..] == h;
    } else {
      assert s[1..] == w[1..] + [c] + h;
      SplitAtFirst(w[1..], c, h);
      assert [w[0]] + w[1..] == w;
    }
  }

  /** `adjust_resolution_for_mode`: `None` stands for the ValueError of an unpackable split. */
  function AdjustResolution(resolution: string, mode: string): (r: Option<string>)
    ensures mode != "portrait" ==> r == Some(resolution)
  {
    if mode == "portrait" then
      var parts := SplitOn(resolution, 'x');
      if |parts| == 2 then Some(parts[1] + "x" + parts[0]) else None
    else Some(resolution)
  }

  /** Portrait turns `WxH` into `HxW`. */
  lemma PortraitSwaps(w: string, h: string)
    requires 'x' !in w && 'x' !in h
    ensures AdjustResolution(w + "x" + h, "portrait") == Some(h + "x" + w)
  {
    SplitAtFirst(w, 'x', h);
    SplitNoSeparator(h, 'x');
  }

  /** Portrait succeeds exactly when the resolution holds one `x`. */
  lemma PortraitNeedsOneX(resolution: string)
    ensures AdjustResolution(resolution, "portrait").Some? <==> multiset(resolution)['x'] == 1
  {
    SplitParts(resolution, 'x');
  }

  /** Portrait applied twice gives the original resolution back. */
  lemma PortraitInvolution(resolution: string, swapped: string)
    requires AdjustResolution(resolution, "portrait") == Some(swapped)
    ensures AdjustResolution(swapped, "portrait") == Some(resolution)
  {
    var parts := SplitOn(resolution, 'x');
    SplitGlue(resolution, 'x');
    SplitParts(resolution, 'x');
    assert parts[1..] == [parts[1]];
    assert resolution == parts[0] + "x" + parts[1];
    assert 'x' !in parts[0] && 'x' !in parts[1];
    PortraitSwaps(parts[1], parts[0]);
  }

  /** Portrait on the 480p entry. */
  lemma Portrait480()
    ensures AdjustResolution(P480.resolution, "portrait") == Some("480x854")
  {
    assert P480.resolution == "854" + "x" + "480";
    assert "480" + "x" + "854" == "480x854";
    PortraitSwaps("854", "480");
  }

  /** Portrait on the 720p60 entry. */
  lemma Portrait720()
    ensures AdjustResolution(P720.resolution, "portrait") == Some("720x1280")
  {
    assert P720.resolution == "1280" + "x" + "720";
    assert "720" + "x" + "1280" == "720x1280";
    PortraitSwaps("1280", "720");
  }

  /** Portrait on the 1080p60 entry. */
  lemma Portrait1080()
    ensures AdjustResolution(P1080.resolution, "portrait") == Some("1080x1920")
  {
    assert P1080.resolution == "1920" + "x" + "1080";
    assert "1080" + "x" + "1920" == "1080x1920";
    PortraitSwaps("1920", "1080");
  }

  /** The transform never fails on a resolution the controller takes from the table. */
  lemma PresetAdjustable(quality: Val, mode: string)
    ensures AdjustResolution(PresetFor(quality).resolution, mode).Some?
  {
    Portrait480();
    Portrait720();
    Portrait1080();
  }
}
