/**
 * Helper.cs: `ReadErrorStreamAsync`, which reads a process's error stream line by line and,
 * for ffmpeg, keeps the bot's playback position up to date from the progress lines.
 *
 * The stream is the sequence of its lines; logging them is not modelled. `double.Parse` is
 * the parameter `parse`, as in `TimeStringToSeconds`.
 */
module HelperErrors {
  import opened Wrappers
  import opened HelperParse
  import opened MusicBots

  /** Where the position stands after some lines, and whether a line made the parse throw. */
  datatype Scan = Scan(location: real, failed: bool)

  /**
   * The position after `lines`, starting from `location`: a line without `time=` (or with a
   * token of the wrong shape) leaves it, a time sets it, and a part `double.Parse` rejects
   * throws out of the loop with the position as it stood.
   */
  function TrackLocation(lines: seq<string>, parse: string -> Option<real>, location: real): (r: Scan)
    ensures r.failed <==> exists i :: 0 <= i < |lines| && TimeStringToSeconds(lines[i], parse) == ParseFailure
    ensures !r.failed ==> r.location == location || exists i :: 0 <= i < |lines| && TimeStringToSeconds(lines[i], parse) == Seconds(r.location)
    decreases |lines|
  {
    if lines == [] then Scan(location, false)
    else
      assert forall i :: 0 <= i < |lines[1..]| ==> lines[1..][i] == lines[i + 1];
      match TimeStringToSeconds(lines[0], parse)
      case NoTime => TrackLocation(lines[1..], parse, location)
      case Seconds(v) => TrackLocation(lines[1..], parse, v)
      case ParseFailure => Scan(location, true)
  }

  /** Reading two runs of lines one after the other is reading their concatenation. */
  lemma {:induction false} TrackLocationAppend(a: seq<string>, b: seq<string>, parse: string -> Option<real>, location: real)
    ensures TrackLocation(a + b, parse, location)
         == (var s := TrackLocation(a, parse, location); if s.failed then s else TrackLocation(b, parse, s.location))
    decreases |a|
  {
    if a != [] {
      assert (a + b)[1..] == a[1..] + b;
      match TimeStringToSeconds(a[0], parse)
      case NoTime => TrackLocationAppend(a[1..], b, parse, location);
      case Seconds(v) => TrackLocationAppend(a[1..], b, parse, v);
      case ParseFailure =>
    } else {
      assert a + b == b;
    }
  }

  /** After a line with a time, the position is that time: the last progress line wins. */
  lemma LastTimeWins(lines: seq<string>, last: string, parse: string -> Option<real>, location: real, v: real)
    requires !TrackLocation(lines, parse, location).failed
    requires TimeStringToSeconds(last, parse) == Seconds(v)
    ensures TrackLocation(lines + [last], parse, location) == Scan(v, false)
  {
    TrackLocationAppend(lines, [last], parse, location);
  }

  /**
   * `ReadErrorStreamAsync` over the lines of the stream. Only when `processName` is `ffmpeg`
   * and a bot is given does a line move the bot's position, and nothing else of the bot
   * changes; `failed` is the exception a rejected number throws out of the loop.
   */
  method ReadErrorStream(lines: seq<string>, processName: string, musicBot: MusicBot?, parse: string -> Option<real>)
    returns (failed: bool)
    modifies (if musicBot == null then {} else {musicBot})`currentMusicLocation
    ensures musicBot != null && processName == "ffmpeg" ==>
      TrackLocation(lines, parse, old(musicBot.currentMusicLocation)) == Scan(musicBot.currentMusicLocation, failed)
    ensures musicBot == null || processName != "ffmpeg" ==> !failed
    ensures musicBot != null && processName != "ffmpeg" ==> unchanged(musicBot)
  {
    if musicBot != null && processName == "ffmpeg" {
      failed := FollowPosition(lines, musicBot, parse);
    } else {
      failed := false;
    }
  }

  /** The loop of `ReadErrorStreamAsync` for ffmpeg: each progress line sets the position. */
  method FollowPosition(lines: seq<string>, musicBot: MusicBot, parse: string -> Option<real>) returns (failed: bool)
    modifies musicBot`currentMusicLocation
    ensures TrackLocation(lines, parse, old(musicBot.currentMusicLocation)) == Scan(musicBot.currentMusicLocation, failed)
  {
    var i := 0;
    while i < |lines|
      invariant 0 <= i <= |lines|
      invariant TrackLocation(lines, parse, old(musicBot.currentMusicLocation)) == TrackLocation(lines[i..], parse, musicBot.currentMusicLocation)
    {
      var currentTime := TimeStringToSeconds(lines[i], parse);
      if currentTime.ParseFailure? {
        return true;
      }
      if currentTime.Seconds? {
        musicBot.currentMusicLocation := currentTime.value;
      }
      assert lines[i..][1..] == lines[i + 1..];
      i := i + 1;
    }
    failed := false;
  }
}
