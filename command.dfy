/**
 * The destination URL and the encoder argument list the stream controller
 * launches (`url` and `cmd` in livestream.py), together with a parser that
 * reads an argument list back, so that the list is shown to carry every
 * setting and nothing else.
 */
module Command {
  import opened Wrappers

  /** `f"{rtmp_url}/{stream_key}"`: one slash in between, no normalisation. */
  function Url(rtmpUrl: string, streamKey: string): (u: string)
    ensures |u| == |rtmpUrl| + 1 + |streamKey|
    ensures u[..|rtmpUrl|] == rtmpUrl && u[|rtmpUrl|] == '/' && u[|rtmpUrl| + 1..] == streamKey
  {
    rtmpUrl + "/" + streamKey
  }

  /** The settings one encoder launch is made from. */
  datatype Invocation = Invocation(
    executable: string, looping: bool, input: string, size: string, fps: string,
    videoBitrate: string, maxrate: string, bufsize: string, audioBitrate: string,
    url: string)

  /** The ffmpeg argument list, program name first. */
  function Arguments(inv: Invocation): seq<string>
  {
    [inv.executable, "-re", "-stream_loop", if inv.looping then "-1" else "0", "-i", inv.input,
     "-s", inv.size,
     "-r", inv.fps,
     "-c:v", "libx264", "-preset", "veryfast",
     "-b:v", inv.videoBitrate,
     "-maxrate", inv.maxrate,
     "-bufsize", inv.bufsize,
     "-c:a", "aac", "-b:a", inv.audioBitrate,
     "-f", "flv", inv.url]
  }

  /** The fixed words of the argument list, by position. */
  predicate FixedWordsAt(args: seq<string>)
    requires |args| == 27
  {
    args[1] == "-re" && args[2] == "-stream_loop" && (args[3] == "-1" || args[3] == "0")
    && args[4] == "-i" && args[6] == "-s" && args[8] == "-r"
    && args[10] == "-c:v" && args[11] == "libx264" && args[12] == "-preset" && args[13] == "veryfast"
    && args[14] == "-b:v" && args[16] == "-maxrate" && args[18] == "-bufsize"
    && args[20] == "-c:a" && args[21] == "aac" && args[22] == "-b:a"
    && args[24] == "-f" && args[25] == "flv"
  }

  /** Reads the settings back from an argument list of the shape `Arguments` produces. */
  function ParseArguments(args: seq<string>): Option<Invocation> {
    if |args| == 27 && FixedWordsAt(args) then
      Some(Invocation(args[0], args[3] == "-1", args[5], args[7], args[9],
                      args[15], args[17], args[19], args[23], args[26]))
    else None
  }

  /** Every setting survives the trip through the argument list. */
  lemma ParseArgumentsInverts(inv: Invocation)
    ensures ParseArguments(Arguments(inv)) == Some(inv)
  {
    var args := Arguments(inv);
    assert |args| == 27 && FixedWordsAt(args);
    assert args[3] == "-1" <==> inv.looping;
  }

  /**
   * Where the settings stand in the list: `-stream_loop` is followed by
   * "-1" exactly when looping and by "0" otherwise, `-i` by the input,
   * `-s` by the size, and the list ends with `-f flv` and the URL.
   */
  lemma ArgumentsShape(inv: Invocation)
    ensures var args := Arguments(inv);
      |args| == 27 && args[0] == inv.executable
      && args[2] == "-stream_loop" && (args[3] == "-1" <==> inv.looping) && (args[3] == "0" <==> !inv.looping)
      && args[4] == "-i" && args[5] == inv.input
      && args[6] == "-s" && args[7] == inv.size
      && args[24..] == ["-f", "flv", inv.url]
  {
  }

  /** An argument list that parses is exactly the one built from what it parses to. */
  lemma ArgumentsDetermined(args: seq<string>, inv: Invocation)
    requires ParseArguments(args) == Some(inv)
    ensures Arguments(inv) == args
  {
    var built := Arguments(inv);
    forall i | 0 <= i < 27 ensures built[i] == args[i] {
      if i == 3 {
        assert args[3] == "-1" || args[3] == "0";
      }
    }
  }
}
