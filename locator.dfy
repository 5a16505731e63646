/**
 * The two "first match" searches of the stream controller: the encoder
 * executable (`find_ffmpeg`) and the fallback input video
 * (`find_first_video`). A directory walk is given as the sequence of
 * directories `os.walk` would visit, each with its file names in listing
 * order; the executable-path lookup is given as its result.
 */
module Locator {
  import opened Wrappers
  import opened Text

  /** One directory visited by the walk: its path and its file names. */
  datatype WalkEntry = WalkEntry(dir: string, files: seq<string>)

  const VideoExtensions: seq<string> := [".mp4", ".mkv", ".mov", ".avi", ".flv", ".webm"]

  /** The fallback video test: the lower-cased name ends in a supported extension. */
  predicate IsVideoName(name: string) {
    EndsWithAny(Lower(name), VideoExtensions)
  }

  /** The local executable test: the lower-cased name is `ffmpeg` or `ffmpeg.exe`. */
  predicate IsFfmpegName(name: string) {
    Lower(name) == "ffmpeg" || Lower(name) == "ffmpeg.exe"
  }

  // ---------------------------------------------------------------------
  // Specification of the search
  // ---------------------------------------------------------------------

  /** The path of the first accepted name of one directory. */
  function FirstInDir(dir: string, files: seq<string>, accept: string -> bool): Option<string> {
    if files == [] then None
    else if accept(files[0]) then Some(Join(dir, files[0]))
    else FirstInDir(dir, files[1..], accept)
  }

  /** The path of the first accepted name of the whole walk, in visiting order. */
  function FirstInWalk(walk: seq<WalkEntry>, accept: string -> bool): Option<string> {
    if walk == [] then None
    else match FirstInDir(walk[0].dir, walk[0].files, accept)
      case Some(p) => Some(p)
      case None => FirstInWalk(walk[1..], accept)
  }

  /** File `j` of directory `i` exists and is accepted. */
  ghost predicate AcceptedAt(walk: seq<WalkEntry>, accept: string -> bool, i: int, j: int) {
    0 <= i < |walk| && 0 <= j < |walk[i].files| && accept(walk[i].files[j])
  }

  /** File `j` of directory `i` is the first accepted one of the walk. */
  ghost predicate FirstAcceptedAt(walk: seq<WalkEntry>, accept: string -> bool, i: int, j: int) {
    AcceptedAt(walk, accept, i, j)
    && (forall i', j' :: 0 <= i' < i && AcceptedAt(walk, accept, i', j') ==> false)
    && (forall j' :: 0 <= j' < j ==> !accept(walk[i].files[j']))
  }

  lemma {:induction false} FirstInDirSpec(dir: string, files: seq<string>, accept: string -> bool)
    ensures FirstInDir(dir, files, accept).None? <==> forall j :: 0 <= j < |files| ==> !accept(files[j])
    ensures FirstInDir(dir, files, accept).Some? ==>
      exists j :: 0 <= j < |files| && accept(files[j]) && (forall j' :: 0 <= j' < j ==> !accept(files[j']))
                  && FirstInDir(dir, files, accept) == Some(Join(dir, files[j]))
  {
    if files != [] && !accept(files[0]) {
      FirstInDirSpec(dir, files[1..], accept);
      if FirstInDir(dir, files, accept).Some? {
        var j :| 0 <= j < |files[1..]| && accept(files[1..][j]) && (forall j' :: 0 <= j' < j ==> !accept(files[1..][j']))
                 && FirstInDir(dir, files[1..], accept) == Some(Join(dir, files[1..][j]));
        assert forall j' :: 0 <= j' < j + 1 ==> !accept(files[j']) by {
          forall j' | 0 <= j' < j + 1 ensures !accept(files[j']) {
            if j' > 0 { assert files[j'] == files[1..][j' - 1]; }
          }
        }
      } else {
        assert forall j :: 0 <= j < |files| ==> !accept(files[j]) by {
          forall j | 0 <= j < |files| ensures !accept(files[j]) {
            if j > 0 { assert files[j] == files[1..][j - 1]; }
          }
        }
      }
    }
  }

  /**
   * The search finds nothing exactly when no name in the walk is accepted,
   * and otherwise the path of the first accepted name in visiting order.
   */
  lemma {:induction false} FirstInWalkSpec(walk: seq<WalkEntry>, accept: string -> bool)
    ensures FirstInWalk(walk, accept).None? <==> forall i, j :: !AcceptedAt(walk, accept, i, j)
    ensures FirstInWalk(walk, accept).Some? ==>
      exists i, j :: FirstAcceptedAt(walk, accept, i, j)
                     && FirstInWalk(walk, accept) == Some(Join(walk[i].dir, walk[i].files[j]))
  {
    if walk != [] {
      var head := walk[0];
      FirstInDirSpec(head.dir, head.files, accept);
      FirstInWalkSpec(walk[1..], accept);
      assert forall i, j :: 0 < i && AcceptedAt(walk, accept, i, j) <==> AcceptedAt(walk[1..], accept, i - 1, j) by {
        forall i, j ensures 0 < i && AcceptedAt(walk, accept, i, j) <==> AcceptedAt(walk[1..], accept, i - 1, j) {
          if 0 < i < |walk| { assert walk[1..][i - 1] == walk[i]; }
        }
      }
      match FirstInDir(head.dir, head.files, accept)
      case Some(p) =>
        var j :| 0 <= j < |head.files| && accept(head.files[j]) && (forall j' :: 0 <= j' < j ==> !accept(head.files[j']))
                 && p == Join(head.dir, head.files[j]);
        assert FirstAcceptedAt(walk, accept, 0, j);
      case None =>
        assert forall j :: !AcceptedAt(walk, accept, 0, j);
        if FirstInWalk(walk, accept).Some? {
          var i, j :| FirstAcceptedAt(walk[1..], accept, i, j)
                      && FirstInWalk(walk[1..], accept) == Some(Join(walk[1..][i].dir, walk[1..][i].files[j]));
          assert walk[i + 1] == walk[1..][i];
          assert FirstAcceptedAt(walk, accept, i + 1, j);
        }
    }
  }

  // ---------------------------------------------------------------------
  // The searches
  // ---------------------------------------------------------------------

  /** The nested walk loop with early return shared by both searches. */
  method SearchWalk(walk: seq<WalkEntry>, accept: string -> bool) returns (found: Option<string>)
    ensures found == FirstInWalk(walk, accept)
  {
    var i := 0;
    while i < |walk|
      invariant 0 <= i <= |walk|
      invariant FirstInWalk(walk, accept) == FirstInWalk(walk[i..], accept)
    {
      var entry := walk[i];
      var j := 0;
      while j < |entry.files|
        invariant 0 <= j <= |entry.files|
        invariant FirstInDir(entry.dir, entry.files, accept) == FirstInDir(entry.dir, entry.files[j..], accept)
      {
        if accept(entry.files[j]) {
          return Some(Join(entry.dir, entry.files[j]));
        }
        assert entry.files[j..][1..] == entry.files[j + 1..];
        j := j + 1;
      }
      assert walk[i..][1..] == walk[i + 1..];
      i := i + 1;
    }
    return None;
  }

  /** `find_first_video`: the first name with a video extension, compared case-insensitively. */
  method FindFirstVideo(walk: seq<WalkEntry>) returns (found: Option<string>)
    ensures found == FirstInWalk(walk, IsVideoName)
  {
    found := SearchWalk(walk, IsVideoName);
  }

  /** The executable the controller runs: the path lookup's answer, else the first `ffmpeg` file. */
  function FfmpegLookup(which: Option<string>, walk: seq<WalkEntry>): Option<string> {
    if which.Some? && which.value != "" then which else FirstInWalk(walk, IsFfmpegName)
  }

  /** `find_ffmpeg`: `None` stands for the FileNotFoundError it raises. */
  method FindFfmpeg(which: Option<string>, walk: seq<WalkEntry>) returns (found: Option<string>)
    ensures found == FfmpegLookup(which, walk)
    ensures which.Some? && which.value != "" ==> found == which
    ensures found.Some? ==> found.value != ""
  {
    if which.Some? && which.value != "" {
      return which;
    }
    found := SearchWalk(walk, IsFfmpegName);
    if found.Some? {
      FirstInWalkSpec(walk, IsFfmpegName);
      ghost var i, j :| FirstAcceptedAt(walk, IsFfmpegName, i, j) && found == Some(Join(walk[i].dir, walk[i].files[j]));
      assert |walk[i].files[j]| > 0;
    }
  }
}
