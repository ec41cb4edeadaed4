/**
 * Helper.cs: `TimeStringToSeconds`, which reads the playback position out of an ffmpeg
 * progress line, and `GetMusicInfo`, which asks yt-dlp for a track's title, duration,
 * uploader and page and turns its four output lines into a queue item.
 *
 * `double.Parse` is the parameter `parse`: `None` where it would throw. Running yt-dlp is the
 * parameter `run`, which says how the process ended.
 */
module HelperParse {
  import opened Wrappers
  import opened Text
  import opened Items

  // ---------------------------------------------------------------- TimeStringToSeconds

  const TimeMarker: string := "time="

  /**
   * The text after the first `time=`, up to the next space or the end of the line;
   * `None` when the line has no `time=`.
   */
  function TimeToken(input: string): (r: Option<string>)
    ensures r.None? <==> forall k :: !OccursAt(input, TimeMarker, k)
    ensures r.Some? ==> ' ' !in r.value
  {
    var timeIndex := IndexOf(input, TimeMarker, 0);
    if timeIndex == -1 then None
    else
      var start := timeIndex + |TimeMarker|;
      var spaceIndex := IndexOf(input, " ", start);
      var token := if spaceIndex == -1 then input[start..] else input[start..spaceIndex];
      assert ' ' !in token by {
        forall j | 0 <= j < |token| ensures token[j] != ' ' {
          assert !OccursAt(input, " ", start + j);
          assert input[start + j..start + j + 1] == [token[j]];
        }
      }
      Some(token)
  }

  /** How `TimeStringToSeconds` ends: `null`, a number of seconds, or `double.Parse` throws. */
  datatype TimeResult = NoTime | Seconds(value: real) | ParseFailure

  /**
   * The `:`-separated parts of the token: hours, minutes and seconds, or minutes and seconds;
   * any other number of parts gives `null`. The parts are parsed in order, and the first one
   * `double.Parse` rejects makes the call throw.
   */
  function TimeOfParts(timeParts: seq<string>, parse: string -> Option<real>): (r: TimeResult)
    ensures r.Seconds? ==> |timeParts| in {2, 3}
    ensures r.ParseFailure? ==> exists i :: 0 <= i < |timeParts| && parse(timeParts[i]).None?
  {
    if |timeParts| == 3 then
      var hours, minutes, seconds := parse(timeParts[0]), parse(timeParts[1]), parse(timeParts[2]);
      if hours.Some? && minutes.Some? && seconds.Some? then
        Seconds(hours.value * 3600.0 + minutes.value * 60.0 + seconds.value)
      else ParseFailure
    else if |timeParts| == 2 then
      var minutes, seconds := parse(timeParts[0]), parse(timeParts[1]);
      if minutes.Some? && seconds.Some? then Seconds(minutes.value * 60.0 + seconds.value)
      else ParseFailure
    else NoTime
  }

  /** `TimeStringToSeconds`: `null` without a `time=`, otherwise the reading of the token's parts. */
  function TimeStringToSeconds(input: string, parse: string -> Option<real>): (r: TimeResult)
    ensures (forall k :: !OccursAt(input, TimeMarker, k)) ==> r == NoTime
  {
    match TimeToken(input)
    case None => NoTime
    case Some(timeString) => TimeOfParts(Split(timeString, ':'), parse)
  }

  /** An occurrence with none before it (from `from` on) is what `IndexOf` finds. */
  lemma IndexOfFirst(s: string, pat: string, from: nat, p: nat)
    requires from <= p && OccursAt(s, pat, p)
    requires forall k :: from <= k < p ==> !OccursAt(s, pat, k)
    ensures IndexOf(s, pat, from) == p
  {
  }

  /** With no occurrence from `from` on, `IndexOf` gives -1. */
  lemma IndexOfNone(s: string, pat: string, from: nat)
    requires from <= |s|
    requires forall k :: from <= k ==> !OccursAt(s, pat, k)
    ensures IndexOf(s, pat, from) == -1
  {
  }

  /** Text appended after a first `time=` does not move it. */
  lemma MarkerStays(head: string, rest: string, at: nat)
    requires IndexOf(head, TimeMarker, 0) == at
    ensures IndexOf(head + rest, TimeMarker, 0) == at
  {
    var line := head + rest;
    forall k | 0 <= k < at ensures !OccursAt(line, TimeMarker, k) {
      assert !OccursAt(head, TimeMarker, k);
      assert line[k..k + |TimeMarker|] == head[k..k + |TimeMarker|];
    }
    assert line[at..at + |TimeMarker|] == head[at..at + |TimeMarker|];
    IndexOfFirst(line, TimeMarker, 0, at);
  }

  /** A run of non-spaces holds no occurrence of `" "`. */
  lemma NoSpaceIn(line: string, start: nat, end: nat)
    requires start <= end <= |line|
    requires forall k :: start <= k < end ==> line[k] != ' '
    ensures forall k :: start <= k < end ==> !OccursAt(line, " ", k)
  {
    forall k | start <= k < end ensures !OccursAt(line, " ", k) {
      assert line[k..k + 1] == [line[k]];
    }
  }

  /** After `head`, the first space is the one that ends `token`, if `tail` starts with one. */
  lemma SpaceAfter(head: string, token: string, tail: string)
    requires ' ' !in token
    requires tail == [] || tail[0] == ' '
    ensures IndexOf(head + token + tail, " ", |head|) == if tail == [] then -1 else |head| + |token|
  {
    var line := head + token + tail;
    var start, end := |head|, |head| + |token|;
    assert line[start..end] == token;
    NoSpaceIn(line, start, end);
    if tail == [] {
      IndexOfNone(line, " ", start);
    } else {
      assert line[end..end + 1] == [tail[0]];
      IndexOfFirst(line, " ", start, end);
    }
  }

  /** `TimeToken` cuts the line between the end of the marker and the first space after it. */
  lemma TokenBetween(line: string, at: nat, end: nat)
    requires IndexOf(line, TimeMarker, 0) == at
    requires at + |TimeMarker| <= end <= |line|
    requires IndexOf(line, " ", at + |TimeMarker|) == if end == |line| then -1 else end
    ensures TimeToken(line) == Some(line[at + |TimeMarker|..end])
  {
    if end == |line| {
      assert line[at + |TimeMarker|..] == line[at + |TimeMarker|..end];
    }
  }

  /**
   * The token of a line whose first `time=` follows `prefix` is the text after it, when the
   * token holds no space and is followed by the end of the line or by a space.
   */
  lemma TokenAfterMarker(prefix: string, token: string, tail: string)
    requires IndexOf(prefix + TimeMarker, TimeMarker, 0) == |prefix|
    requires ' ' !in token
    requires tail == [] || tail[0] == ' '
    ensures TimeToken(prefix + TimeMarker + token + tail) == Some(token)
  {
    var head := prefix + TimeMarker;
    var line := head + token + tail;
    assert line == head + (token + tail);
    MarkerStays(head, token + tail, |prefix|);
    SpaceAfter(head, token, tail);
    TokenBetween(line, |prefix|, |head| + |token|);
    assert line[|head|..|head| + |token|] == token;
  }

  /** A token without `:` or spaces. */
  predicate IsTimeField(s: string) {
    ':' !in s && ' ' !in s
  }

  predicate AllTimeFields(fields: seq<string>) {
    forall i :: 0 <= i < |fields| ==> IsTimeField(fields[i])
  }

  lemma ThreeFields(h: string, m: string, s: string)
    requires IsTimeField(h) && IsTimeField(m) && IsTimeField(s)
    ensures AllTimeFields([h, m, s])
  {
    forall i | 0 <= i < 3 ensures IsTimeField([h, m, s][i]) {
      if i == 0 { assert [h, m, s][i] == h; }
      else if i == 1 { assert [h, m, s][i] == m; }
      else { assert [h, m, s][i] == s; }
    }
  }

  lemma TwoFields(m: string, s: string)
    requires IsTimeField(m) && IsTimeField(s)
    ensures AllTimeFields([m, s])
  {
    forall i | 0 <= i < 2 ensures IsTimeField([m, s][i]) {
      if i == 0 { assert [m, s][i] == m; }
      else { assert [m, s][i] == s; }
    }
  }

  /** The token of such a line splits into the fields it was joined from. */
  lemma TokenFields(prefix: string, fields: seq<string>, tail: string)
    requires IndexOf(prefix + TimeMarker, TimeMarker, 0) == |prefix|
    requires |fields| >= 1 && AllTimeFields(fields)
    requires tail == [] || tail[0] == ' '
    ensures TimeToken(prefix + TimeMarker + Join(fields, ':') + tail) == Some(Join(fields, ':'))
    ensures Split(Join(fields, ':'), ':') == fields
  {
    JoinFields(fields);
    TokenAfterMarker(prefix, Join(fields, ':'), tail);
    JoinSplit(fields, ':');
  }

  /** A line whose token is `fields` joined by `:` reads as those fields. */
  lemma TimeOfLine(prefix: string, fields: seq<string>, tail: string, parse: string -> Option<real>)
    requires IndexOf(prefix + TimeMarker, TimeMarker, 0) == |prefix|
    requires |fields| >= 1 && AllTimeFields(fields)
    requires tail == [] || tail[0] == ' '
    ensures TimeStringToSeconds(prefix + TimeMarker + Join(fields, ':') + tail, parse) == TimeOfParts(fields, parse)
  {
    TokenFields(prefix, fields, tail);
  }

  /** `HH:MM:SS.xx` after the first `time=` reads as hours * 3600 + minutes * 60 + seconds. */
  lemma HoursMinutesSeconds(prefix: string, h: string, m: string, s: string, tail: string, parse: string -> Option<real>)
    requires IndexOf(prefix + TimeMarker, TimeMarker, 0) == |prefix|
    requires IsTimeField(h) && IsTimeField(m) && IsTimeField(s)
    requires tail == [] || tail[0] == ' '
    requires parse(h).Some? && parse(m).Some? && parse(s).Some?
    ensures TimeStringToSeconds(prefix + TimeMarker + Join([h, m, s], ':') + tail, parse)
         == Seconds(parse(h).value * 3600.0 + parse(m).value * 60.0 + parse(s).value)
  {
    ThreeFields(h, m, s);
    TimeOfLine(prefix, [h, m, s], tail, parse);
    ThreeParts(h, m, s, parse);
  }

  lemma ThreeParts(h: string, m: string, s: string, parse: string -> Option<real>)
    requires parse(h).Some? && parse(m).Some? && parse(s).Some?
    ensures TimeOfParts([h, m, s], parse) == Seconds(parse(h).value * 3600.0 + parse(m).value * 60.0 + parse(s).value)
  {
  }

  /** `MM:SS.xx` after the first `time=` reads as minutes * 60 + seconds. */
  lemma MinutesSeconds(prefix: string, m: string, s: string, tail: string, parse: string -> Option<real>)
    requires IndexOf(prefix + TimeMarker, TimeMarker, 0) == |prefix|
    requires IsTimeField(m) && IsTimeField(s)
    requires tail == [] || tail[0] == ' '
    requires parse(m).Some? && parse(s).Some?
    ensures TimeStringToSeconds(prefix + TimeMarker + Join([m, s], ':') + tail, parse)
         == Seconds(parse(m).value * 60.0 + parse(s).value)
  {
    TwoFields(m, s);
    TimeOfLine(prefix, [m, s], tail, parse);
    TwoParts(m, s, parse);
  }

  lemma TwoParts(m: string, s: string, parse: string -> Option<real>)
    requires parse(m).Some? && parse(s).Some?
    ensures TimeOfParts([m, s], parse) == Seconds(parse(m).value * 60.0 + parse(s).value)
  {
  }

  /** A token of one part, or of four or more, gives `null` whatever the parts hold. */
  lemma OtherPartCounts(prefix: string, fields: seq<string>, tail: string, parse: string -> Option<real>)
    requires IndexOf(prefix + TimeMarker, TimeMarker, 0) == |prefix|
    requires |fields| >= 1 && |fields| != 2 && |fields| != 3
    requires AllTimeFields(fields)
    requires tail == [] || tail[0] == ' '
    ensures TimeStringToSeconds(prefix + TimeMarker + Join(fields, ':') + tail, parse) == NoTime
  {
    TimeOfLine(prefix, fields, tail, parse);
  }

  /** Fields without spaces joined by `:` hold no space. */
  lemma {:induction false} JoinFields(fields: seq<string>)
    requires |fields| >= 1
    requires AllTimeFields(fields)
    ensures ' ' !in Join(fields, ':')
    decreases |fields|
  {
    if |fields| > 1 {
      JoinFields(fields[1..]);
    }
  }

  /** A field that does not parse makes the call throw, once the count is right. */
  lemma UnparsableField(prefix: string, fields: seq<string>, tail: string, parse: string -> Option<real>, bad: nat)
    requires IndexOf(prefix + TimeMarker, TimeMarker, 0) == |prefix|
    requires |fields| == 2 || |fields| == 3
    requires AllTimeFields(fields)
    requires tail == [] || tail[0] == ' '
    requires bad < |fields| && parse(fields[bad]).None?
    ensures TimeStringToSeconds(prefix + TimeMarker + Join(fields, ':') + tail, parse) == ParseFailure
  {
    TimeOfLine(prefix, fields, tail, parse);
    BadPart(fields, parse, bad);
  }

  lemma BadPart(timeParts: seq<string>, parse: string -> Option<real>, bad: nat)
    requires |timeParts| == 2 || |timeParts| == 3
    requires bad < |timeParts| && parse(timeParts[bad]).None?
    ensures TimeOfParts(timeParts, parse) == ParseFailure
  {
  }

  // ---------------------------------------------------------------- GetMusicInfo

  /**
   * The arguments `GetMusicInfo` starts yt-dlp with: print four fields of the input, one per
   * line; the input, in quotes, is the last argument.
   */
  function MusicInfoArgs(input: string): (r: string)
    ensures var q := "\"" + input + "\"";
      |r| > |q| && r[|r| - |q|..] == q
  {
    var fields := "--print \"title,duration,uploader,webpage_url\" ";
    var quoted := "\"" + input + "\"";
    assert (fields + quoted)[|fields|..] == quoted;
    fields + quoted
  }

  /**
   * How the yt-dlp process ended: it did not finish within the time-out, it exited with a
   * code and printed `output`, or starting or reading it threw.
   */
  datatype IndexerRun = TimedOut | Exited(exitCode: int, output: string) | Failed

  /** The non-empty lines of yt-dlp's output. */
  function InfoLines(output: string): seq<string> {
    RemoveEmpty(Split(output, '\n'))
  }

  /**
   * The parse of the output: with at least four non-empty lines, title, duration, uploader
   * and page; a duration that `uint.TryParse` rejects becomes 0.
   */
  function ParseMusicInfo(output: string): (r: Option<MusicQueueItem>)
    ensures r.Some? <==> |InfoLines(output)| >= 4
    ensures r.Some? ==>
      var lines := InfoLines(output);
      && r.value.songName == lines[0] && r.value.author == lines[2] && r.value.fileOrURL == lines[3]
      && !r.value.isFile
      && r.value.duration == TryParseUnsigned(lines[1], UInt32Max).GetOr(0)
  {
    var lines := InfoLines(output);
    if |lines| >= 4 then
      var duration: UInt32 := match TryParseUnsigned(lines[1], UInt32Max)
        case Some(d) => d
        case None => 0;
      Some(MusicQueueItem(lines[3], lines[0], false, lines[2], duration))
    else None
  }

  /** `GetMusicInfo`: nothing unless yt-dlp exits with code 0 in time; then the parse of its output. */
  function GetMusicInfo(input: string, run: string -> IndexerRun): (r: Option<MusicQueueItem>)
    ensures r.Some? ==> run(MusicInfoArgs(input)).Exited? && run(MusicInfoArgs(input)).exitCode == 0
    ensures r.Some? ==> !r.value.isFile
    ensures run(MusicInfoArgs(input)).Exited? && run(MusicInfoArgs(input)).exitCode == 0 ==>
      r == ParseMusicInfo(run(MusicInfoArgs(input)).output)
  {
    match run(MusicInfoArgs(input))
    case Exited(0, output) => ParseMusicInfo(output)
    case _ => None
  }

  /** The four lines yt-dlp prints for a track, each ended by a line break. */
  function InfoOutput(item: MusicQueueItem): string {
    item.songName + "\n" + NatToString(item.duration) + "\n" + item.author + "\n" + item.fileOrURL + "\n"
  }

  predicate IsInfoField(s: string) {
    s != [] && '\n' !in s
  }

  /** Parsing what yt-dlp prints for a web track gives that track back. */
  lemma ParseInfoOutput(item: MusicQueueItem)
    requires !item.isFile
    requires IsInfoField(item.songName) && IsInfoField(item.author) && IsInfoField(item.fileOrURL)
    ensures ParseMusicInfo(InfoOutput(item)) == Some(item)
  {
    var fields := [item.songName, NatToString(item.duration), item.author, item.fileOrURL, ""];
    assert '\n' !in NatToString(item.duration) by {
      forall i | 0 <= i < |NatToString(item.duration)| ensures NatToString(item.duration)[i] != '\n' {
        assert IsDigit(NatToString(item.duration)[i]);
      }
    }
    InfoJoin(item.songName, NatToString(item.duration), item.author, item.fileOrURL);
    JoinSplit(fields, '\n');
    RemoveEmptyInfo(fields);
    ParseRendered(item.duration, UInt32Max);
  }

  /**
   * When yt-dlp exits with code 0 after printing a web track's four fields, `GetMusicInfo`
   * gives exactly that track; when it times out, fails or exits otherwise, it gives nothing.
   */
  lemma GetMusicInfoOfRun(input: string, run: string -> IndexerRun, item: MusicQueueItem)
    requires !item.isFile
    requires IsInfoField(item.songName) && IsInfoField(item.author) && IsInfoField(item.fileOrURL)
    ensures run(MusicInfoArgs(input)) == Exited(0, InfoOutput(item)) ==> GetMusicInfo(input, run) == Some(item)
    ensures !(run(MusicInfoArgs(input)).Exited? && run(MusicInfoArgs(input)).exitCode == 0) ==>
      GetMusicInfo(input, run) == None
  {
    ParseInfoOutput(item);
  }

  lemma InfoJoin(a: string, b: string, c: string, d: string)
    ensures Join([a, b, c, d, ""], '\n') == a + "\n" + b + "\n" + c + "\n" + d + "\n"
  {
    var e: string := "";
    assert [a, b, c, d, e][1..] == [b, c, d, e];
    assert [b, c, d, e][1..] == [c, d, e];
    assert [c, d, e][1..] == [d, e];
    assert [d, e][1..] == [e];
    assert Join([d, e], '\n') == d + "\n";
    assert Join([c, d, e], '\n') == c + "\n" + (d + "\n");
    assert Join([b, c, d, e], '\n') == b + "\n" + (c + "\n" + (d + "\n"));
  }

  lemma RemoveEmptyInfo(fields: seq<string>)
    requires |fields| == 5 && fields[4] == []
    requires fields[0] != [] && fields[1] != [] && fields[2] != [] && fields[3] != []
    ensures RemoveEmpty(fields) == fields[..4]
  {
    assert RemoveEmpty(fields[4..]) == [] by {
      assert fields[4..][1..] == [];
    }
    assert fields[3..][1..] == fields[4..];
    assert RemoveEmpty(fields[3..]) == [fields[3]];
    assert fields[2..][1..] == fields[3..];
    assert RemoveEmpty(fields[2..]) == [fields[2], fields[3]];
    assert fields[1..][1..] == fields[2..];
    assert RemoveEmpty(fields[1..]) == [fields[1], fields[2], fields[3]];
    assert fields[0..][1..] == fields[1..];
    assert fields == fields[0..];
  }

  /** A duration line with a character `uint.TryParse` cannot accept is read as 0. */
  lemma UnparsableDuration(output: string, k: nat)
    requires |InfoLines(output)| >= 4
    requires var d := InfoLines(output)[1];
      k < |d| && !IsDigit(d[k]) && !IsWhiteSpace(d[k]) && d[k] != '+' && d[k] != '-'
    ensures ParseMusicInfo(output).Some? && ParseMusicInfo(output).value.duration == 0
  {
    ParseRejectsNonDigit(InfoLines(output)[1], UInt32Max, k);
  }
}
