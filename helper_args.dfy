/**
 * Helper.cs: `BuildFFMPEGArgs` and `BuildYTDLPArgs`. Both append lines to a `StringBuilder`,
 * then replace every line break by a space and trim the result.
 *
 * Each command line is specified by the list of lines the builder appends (`FfmpegLines`,
 * `YtdlpLines`); `Builders.CommandLine` turns lines into the string the builder returns and
 * `Builders.CommandLineIsJoin` shows it is the lines joined by single spaces when they hold
 * no line breaks and the ends are not blank.
 */
module HelperArgs {
  import opened Wrappers
  import opened Text
  import opened MusicSettings
  import opened Builders

  // ---------------------------------------------------------------- the ffmpeg filter chain

  /**
   * `order` is an enumeration of the filter dictionary: every key exactly once. .NET does not
   * fix the order in which a `ConcurrentDictionary` enumerates its entries, so the model takes
   * it as given.
   */
  predicate Enumerates(filters: map<AudioFilter, MusicFilter>, order: seq<AudioFilter>) {
    && (forall k :: k in filters <==> k in order)
    && (forall i, j :: 0 <= i < j < |order| ==> order[i] != order[j])
  }

  /** The rendered expression of each filter, in the order given. */
  function Expressions(filters: map<AudioFilter, MusicFilter>, order: seq<AudioFilter>, fmt: real -> string): (r: seq<string>)
    requires forall k :: k in order ==> k in filters
    ensures |r| == |order|
    decreases |order|
  {
    if |order| == 0 then []
    else Expressions(filters, order[..|order| - 1], fmt) + [Render(filters[order[|order| - 1]].musicFilter, fmt)]
  }

  lemma {:induction false} ExpressionsAt(filters: map<AudioFilter, MusicFilter>, order: seq<AudioFilter>, fmt: real -> string, i: nat)
    requires forall k :: k in order ==> k in filters
    requires i < |order|
    ensures Expressions(filters, order, fmt)[i] == Render(filters[order[i]].musicFilter, fmt)
    decreases |order|
  {
    if i < |order| - 1 {
      ExpressionsAt(filters, order[..|order| - 1], fmt, i);
    }
  }

  /** `,e1,e2,...`: each expression preceded by a comma. */
  function FilterChain(exprs: seq<string>): string
    decreases |exprs|
  {
    if |exprs| == 0 then "" else FilterChain(exprs[..|exprs| - 1]) + "," + exprs[|exprs| - 1]
  }

  // ---------------------------------------------------------------- ffmpeg

  function LogLevel(debug: bool): string {
    if debug then "debug" else "8"
  }

  /** Proof step: two lines appended one by one are the two lines appended at once. */
  lemma AppendTwo(h: seq<string>, a: string, b: string)
    ensures h + [a] + [b] == h + [a, b]
  {
  }

  /** Seven lines appended one by one are the seven lines appended at once. */
  lemma AppendSeven(h: seq<string>, a: string, b: string, c: string, d: string, e: string, f: string, g: string)
    ensures h + [a] + [b] + [c] + [d] + [e] + [f] + [g] == h + [a, b, c, d, e, f, g]
  {
  }

  /** The input switch and the input, when there is one. */
  function InputLines(input: Option<string>): seq<string> {
    if input.Some? then ["-i", input.value] else []
  }

  /** Stereo, 48 kHz, signed 16-bit little-endian output, then the audio-filter switch. */
  const OutputFormat: seq<string> := ["-ac", "2", "-ar", "48000", "-f", "s16le", "-filter:a"]

  /** The option lines before the filter chain: log level, the input when there is one, the output format. */
  function FfmpegOptions(debug: bool, input: Option<string>): seq<string> {
    ["-loglevel", LogLevel(debug)] + InputLines(input) + OutputFormat
  }

  /** Proof step: regrouping three appended runs of lines. */
  lemma AppendThree<T>(s: seq<T>, a: seq<T>, b: seq<T>, c: seq<T>)
    ensures s + a + b + c == s + (a + b + c)
  {
  }

  /** The audio-filter argument: the volume, then each filter expression after a comma, all in double quotes. */
  function ChainLine(volumeText: string, exprs: seq<string>): string {
    "\"volume=" + volumeText + FilterChain(exprs) + "\""
  }

  /**
   * The lines of the ffmpeg command: the options (stereo 48 kHz signed 16-bit little-endian
   * output), the quoted audio-filter chain that starts with the volume and continues with
   * every filter expression, then the output when there is one.
   */
  function FfmpegLines(debug: bool, input: Option<string>, volumeText: string, exprs: seq<string>, output: Option<string>): seq<string> {
    FfmpegOptions(debug, input)
      + [ChainLine(volumeText, exprs)]
      + (if output.Some? then [output.value] else [])
  }

  /**
   * The ffmpeg lines: the log level (`debug` or `8`), `-i` and the input only when there is
   * one, stereo 48 kHz `s16le` output, the quoted chain, and the output only when there is one.
   */
  lemma FfmpegLinesShape(debug: bool, input: Option<string>, volumeText: string, exprs: seq<string>, output: Option<string>)
    ensures var r := FfmpegLines(debug, input, volumeText, exprs, output);
      var q := if input.Some? then 11 else 9;
      && |r| == (if output.Some? then q + 2 else q + 1)
      && r[0] == "-loglevel" && r[1] == (if debug then "debug" else "8")
      && (input.Some? <==> r[2] == "-i")
      && (input.Some? ==> r[3] == input.value)
      && r[q - 7..q] == ["-ac", "2", "-ar", "48000", "-f", "s16le", "-filter:a"]
      && r[q] == "\"volume=" + volumeText + FilterChain(exprs) + "\""
      && (output.Some? ==> r[q + 1] == output.value)
  {
    var r := FfmpegLines(debug, input, volumeText, exprs, output);
    var q := if input.Some? then 11 else 9;
    var options := FfmpegOptions(debug, input);
    assert r[..q] == options;
    assert options[q - 7..] == OutputFormat;
    assert r[q - 7..q] == options[q - 7..];
  }

  /** The expressions the filter dictionary contributes, in enumeration order; none when it is absent. */
  function ActiveExpressions(filters: Option<map<AudioFilter, MusicFilter>>, order: seq<AudioFilter>, fmt: real -> string): seq<string>
    requires filters.Some? ==> Enumerates(filters.value, order)
  {
    if filters.Some? then Expressions(filters.value, order, fmt) else []
  }

  /** Proof step: regrouping the pending line as the filter chain grows. */
  lemma AppendAssoc(a: string, b: string, c: string)
    ensures a + b + c == a + (b + c)
  {
  }

  /**
   * The `foreach` over the filter dictionary: `,expression` for each entry, in enumeration
   * order. `exprs` holds the entries' rendered expressions (`Expressions`).
   */
  method AppendExpressions(sb: StringBuilder, exprs: seq<string>)
    requires sb.Valid()
    modifies sb
    ensures sb.Valid() && sb.lines == old(sb.lines)
    ensures sb.pending == old(sb.pending) + FilterChain(exprs)
  {
    var i := 0;
    while i < |exprs|
      invariant 0 <= i <= |exprs|
      invariant sb.Valid() && sb.lines == old(sb.lines)
      invariant sb.pending == old(sb.pending) + FilterChain(exprs[..i])
    {
      assert exprs[..i + 1][..i] == exprs[..i];
      AppendAssoc(old(sb.pending), FilterChain(exprs[..i]), "," + exprs[i]);
      sb.Append("," + exprs[i]);
      i := i + 1;
    }
    assert exprs[..i] == exprs;
  }

  /**
   * The filter part of `BuildFFMPEGArgs`: the opening quote and the volume, the expressions of
   * the filter dictionary when there is one, then the closing quote and a space.
   */
  method AppendFilterChain(sb: StringBuilder, volumeText: string, exprs: Option<seq<string>>)
    requires sb.Valid() && sb.pending == ""
    modifies sb
    ensures sb.Valid() && sb.lines == old(sb.lines)
    ensures sb.pending == ChainLine(volumeText, exprs.GetOr([])) + " "
  {
    sb.Append("\"volume=" + volumeText);
    ghost var opening := sb.pending;
    if exprs.Some? {
      AppendExpressions(sb, exprs.value);
    } else {
      assert sb.pending == opening + FilterChain([]);
    }
    ghost var body := sb.pending;
    sb.Append("\" ");
    ChainClosed(volumeText, FilterChain(exprs.GetOr([])), opening, body, sb.pending);
  }

  /** Proof step: the pending line after the closing quote, spelled out from its pieces. */
  lemma ChainClosed(volumeText: string, chain: string, opening: string, body: string, closed: string)
    requires opening == "" + ("\"volume=" + volumeText)
    requires body == opening + chain
    requires closed == body + "\" "
    ensures closed == "\"volume=" + volumeText + chain + "\"" + " "
  {
    assert "\" " == "\"" + " ";
  }

  /** The output format lines of `BuildFFMPEGArgs` and the audio-filter switch. */
  method AppendOutputFormat(sb: StringBuilder)
    requires sb.Valid() && sb.pending == ""
    modifies sb
    ensures sb.Valid() && sb.pending == ""
    ensures sb.lines == old(sb.lines) + OutputFormat
  {
    ghost var start := sb.lines;
    sb.AppendLine("-ac");
    sb.AppendLine("2");
    sb.AppendLine("-ar");
    sb.AppendLine("48000");
    sb.AppendLine("-f");
    sb.AppendLine("s16le");
    sb.AppendLine("-filter:a");
    AppendSeven(start, "-ac", "2", "-ar", "48000", "-f", "s16le", "-filter:a");
  }

  /** The option lines of `BuildFFMPEGArgs`, appended one per line to a builder with no unfinished line. */
  method AppendFfmpegOptions(sb: StringBuilder, debug: bool, input: Option<string>)
    requires sb.Valid() && sb.pending == ""
    modifies sb
    ensures sb.Valid() && sb.pending == ""
    ensures sb.lines == old(sb.lines) + FfmpegOptions(debug, input)
  {
    ghost var start := sb.lines;
    sb.AppendLine("-loglevel");
    sb.AppendLine(if debug then "debug" else "8");
    AppendTwo(start, "-loglevel", LogLevel(debug));
    ghost var level := sb.lines;
    if input.Some? {
      sb.AppendLine("-i");
      sb.AppendLine(input.value);
      AppendTwo(level, "-i", input.value);
    } else {
      assert level + InputLines(input) == level;
    }
    AppendOutputFormat(sb);
    AppendThree(start, ["-loglevel", LogLevel(debug)], InputLines(input), OutputFormat);
  }

  /**
   * `BuildFFMPEGArgs`: `debug` is the global debug switch, `fmt` how a `float` is printed.
   * The filter dictionary, when given, contributes one `,expression` per entry in enumeration order.
   */
  method BuildFfmpegArgs(debug: bool, input: Option<string>, output: Option<string>, volume: real,
                         filters: Option<map<AudioFilter, MusicFilter>>, order: seq<AudioFilter>, fmt: real -> string)
    returns (r: string)
    requires filters.Some? ==> Enumerates(filters.value, order)
    ensures r == CommandLine(FfmpegLines(debug, input, fmt(volume), ActiveExpressions(filters, order, fmt), output))
  {
    var sb := new StringBuilder();
    AppendFfmpegOptions(sb, debug, input);
    ghost var opening := sb.lines;
    var exprs := if filters.Some? then Some(Expressions(filters.value, order, fmt)) else Option.None;
    AppendFilterChain(sb, fmt(volume), exprs);
    assert exprs.GetOr([]) == ActiveExpressions(filters, order, fmt);
    ghost var afterChain := sb.pending;
    if output.Some? {
      sb.AppendLine(output.value);
    }
    FfmpegBuilt(debug, input, fmt(volume), ActiveExpressions(filters, order, fmt), output, opening, afterChain,
                sb.content, sb.lines, sb.pending);
    sb.ReplaceNewLines();
    r := Trim(sb.ToString());
  }

  /** What the builder holds at the end of `BuildFFMPEGArgs` reads as the ffmpeg command line. */
  lemma FfmpegBuilt(debug: bool, input: Option<string>, volumeText: string, exprs: seq<string>, output: Option<string>,
                    opening: seq<string>, afterChain: string, content: string, lines: seq<string>, pending: string)
    requires opening == [] + FfmpegOptions(debug, input)
    requires afterChain == ChainLine(volumeText, exprs) + " "
    requires output.Some? ==> lines == opening + [afterChain + output.value] && pending == ""
    requires output.None? ==> lines == opening && pending == afterChain
    requires content == LinesText(lines) + pending
    ensures Trim(Unline(content)) == CommandLine(FfmpegLines(debug, input, volumeText, exprs, output))
  {
    var chain := ChainLine(volumeText, exprs);
    assert opening == FfmpegOptions(debug, input);
    var all := FfmpegLines(debug, input, volumeText, exprs, output);
    assert all == opening + [chain] + (if output.Some? then [output.value] else []);
    FfmpegTail(opening, chain, output, lines, pending);
    BuilderView(content, lines, pending);
  }

  /** The quoted chain, closed by a space, and the output line end the lines as `FfmpegLines` says. */
  lemma FfmpegTail(opening: seq<string>, chain: string, output: Option<string>, lines: seq<string>, pending: string)
    requires output.Some? ==> lines == opening + [chain + " " + output.value] && pending == ""
    requires output.None? ==> lines == opening && pending == chain + " "
    ensures SpaceLine(lines) + pending == SpaceLine(opening + [chain] + (if output.Some? then [output.value] else []))
  {
    SpaceLineSnoc(opening, chain);
    if output.Some? {
      SpaceLineSnoc(opening + [chain], output.value);
      SpaceLineSnoc(opening, chain + " " + output.value);
    } else {
      assert opening + [chain] + [] == opening + [chain];
    }
  }

  lemma FormatPlain()
    ensures PlainLines(OutputFormat)
  {
  }

  /** With a plain input, no option line holds a line break or a space. */
  lemma OptionsPlain(debug: bool, input: Option<string>)
    requires input.Some? ==> NewLine !in input.value && ' ' !in input.value
    ensures PlainLines(FfmpegOptions(debug, input))
  {
    var level := ["-loglevel", LogLevel(debug)];
    assert PlainLines(level);
    assert PlainLines(InputLines(input));
    FormatPlain();
    PlainConcat(level, InputLines(input));
    PlainConcat(level + InputLines(input), OutputFormat);
  }

  /** With plain values and an output, the ffmpeg lines are plain, start with `-loglevel` and end with the output. */
  lemma FfmpegPlain(debug: bool, input: Option<string>, volumeText: string, exprs: seq<string>, output: string)
    requires input.Some? ==> NewLine !in input.value && ' ' !in input.value
    requires NewLine !in volumeText + FilterChain(exprs) && ' ' !in volumeText + FilterChain(exprs)
    requires NewLine !in output && ' ' !in output
    ensures var lines := FfmpegLines(debug, input, volumeText, exprs, Some(output));
      PlainLines(lines) && lines[0] == "-loglevel" && lines[|lines| - 1] == output
  {
    var options := FfmpegOptions(debug, input);
    var chain := "\"volume=" + (volumeText + FilterChain(exprs)) + "\"";
    assert chain == ChainLine(volumeText, exprs);
    assert NewLine !in chain && ' ' !in chain;
    OptionsPlain(debug, input);
    PlainConcat(options, [chain]);
    PlainConcat(options + [chain], [output]);
    assert FfmpegLines(debug, input, volumeText, exprs, Some(output)) == options + [chain] + [output];
  }

  /**
   * With no line breaks or blanks in the values and an output given, the ffmpeg command line
   * is the lines joined by spaces, and splitting it at spaces gives the lines back.
   */
  lemma FfmpegCommandLine(debug: bool, input: Option<string>, volumeText: string, exprs: seq<string>, output: string)
    requires input.Some? ==> NewLine !in input.value && ' ' !in input.value
    requires NewLine !in volumeText + FilterChain(exprs) && ' ' !in volumeText + FilterChain(exprs)
    requires output != [] && NewLine !in output && ' ' !in output && !IsWhiteSpace(output[|output| - 1])
    ensures var lines := FfmpegLines(debug, input, volumeText, exprs, Some(output));
      && CommandLine(lines) == Join(lines, ' ')
      && Split(CommandLine(lines), ' ') == lines
  {
    FfmpegPlain(debug, input, volumeText, exprs, output);
    CommandLineIsJoin(FfmpegLines(debug, input, volumeText, exprs, Some(output)));
  }

  // ---------------------------------------------------------------- yt-dlp

  /** The playlist switch, then the shuffle switch when asked for. */
  function YtdlpPlaylistLines(randomPlaylist: bool, completePlaylist: bool): seq<string> {
    [if completePlaylist then "--yes-playlist" else "--no-playlist"]
      + (if randomPlaylist then ["--playlist-random"] else [])
  }

  /**
   * The lines of the yt-dlp command: playlist handling, an optional shuffle, audio to
   * standard output quietly but verbosely, the best audio format, extraction, then the track.
   */
  function YtdlpLines(track: string, randomPlaylist: bool, completePlaylist: bool): seq<string> {
    YtdlpPlaylistLines(randomPlaylist, completePlaylist)
      + ["-o -", "-q", "--verbose", "--no-progress", "-f bestaudio/best", "-x", track]
  }

  /**
   * The yt-dlp lines: the playlist switch first, the shuffle switch second exactly when asked
   * for, the track last.
   */
  lemma YtdlpLinesShape(track: string, randomPlaylist: bool, completePlaylist: bool)
    ensures var r := YtdlpLines(track, randomPlaylist, completePlaylist);
      && |r| == (if randomPlaylist then 9 else 8)
      && r[0] == (if completePlaylist then "--yes-playlist" else "--no-playlist")
      && (randomPlaylist <==> r[1] == "--playlist-random")
      && r[|r| - 1] == track
  {
  }

  /** Audio to standard output, quiet but verbose, no progress, the best audio format, extraction, then the track. */
  method AppendDownloadOptions(sb: StringBuilder, track: string)
    requires sb.Valid() && sb.pending == ""
    modifies sb
    ensures sb.Valid() && sb.pending == ""
    ensures sb.lines == old(sb.lines) + ["-o -", "-q", "--verbose", "--no-progress", "-f bestaudio/best", "-x", track]
  {
    ghost var start := sb.lines;
    sb.AppendLine("-o -");
    sb.AppendLine("-q");
    sb.AppendLine("--verbose");
    sb.AppendLine("--no-progress");
    sb.AppendLine("-f bestaudio/best");
    sb.AppendLine("-x");
    sb.AppendLine(track);
    AppendSeven(start, "-o -", "-q", "--verbose", "--no-progress", "-f bestaudio/best", "-x", track);
  }

  /** `BuildYTDLPArgs`. */
  method BuildYtdlpArgs(track: string, randomPlaylist: bool := false, completePlaylist: bool := true) returns (r: string)
    ensures r == CommandLine(YtdlpLines(track, randomPlaylist, completePlaylist))
  {
    var sb := new StringBuilder();
    sb.AppendLine(if completePlaylist then "--yes-playlist" else "--no-playlist");
    ghost var head := YtdlpPlaylistLines(randomPlaylist, completePlaylist);
    if randomPlaylist {
      sb.AppendLine("--playlist-random");
      assert sb.lines == head;
    } else {
      assert sb.lines == head;
    }
    AppendDownloadOptions(sb, track);
    YtdlpBuilt(track, randomPlaylist, completePlaylist, head, sb.content, sb.lines, sb.pending);
    sb.ReplaceNewLines();
    r := Trim(sb.ToString());
  }

  /** What the builder holds at the end of `BuildYTDLPArgs` reads as the yt-dlp command line. */
  lemma YtdlpBuilt(track: string, randomPlaylist: bool, completePlaylist: bool,
                   head: seq<string>, content: string, lines: seq<string>, pending: string)
    requires head == YtdlpPlaylistLines(randomPlaylist, completePlaylist)
    requires lines == head + ["-o -", "-q", "--verbose", "--no-progress", "-f bestaudio/best", "-x", track]
    requires pending == "" && content == LinesText(lines) + pending
    ensures Trim(Unline(content)) == CommandLine(YtdlpLines(track, randomPlaylist, completePlaylist))
  {
    assert content == LinesText(lines);
    FinishedLines(content, lines);
  }

  /** A track without line breaks gives yt-dlp lines without line breaks. */
  lemma YtdlpUnbroken(track: string, randomPlaylist: bool, completePlaylist: bool)
    requires NewLine !in track
    ensures Unbroken(YtdlpLines(track, randomPlaylist, completePlaylist))
  {
    var head := YtdlpPlaylistLines(randomPlaylist, completePlaylist);
    var tail := ["-o -", "-q", "--verbose", "--no-progress", "-f bestaudio/best", "-x", track];
    assert Unbroken(head);
    assert Unbroken(tail);
    UnbrokenConcat(head, tail);
  }

  /**
   * For a track without line breaks or blank end, the yt-dlp command line is the lines joined
   * by single spaces: it starts with the playlist switch and ends with the track.
   */
  lemma YtdlpCommandLine(track: string, randomPlaylist: bool, completePlaylist: bool)
    requires track != [] && NewLine !in track && !IsWhiteSpace(track[|track| - 1])
    ensures var r := CommandLine(YtdlpLines(track, randomPlaylist, completePlaylist));
      var first := if completePlaylist then "--yes-playlist" else "--no-playlist";
      && r == Join(YtdlpLines(track, randomPlaylist, completePlaylist), ' ')
      && |first| <= |r| && r[..|first|] == first
      && |track| <= |r| && r[|r| - |track|..] == track
  {
    var lines := YtdlpLines(track, randomPlaylist, completePlaylist);
    YtdlpUnbroken(track, randomPlaylist, completePlaylist);
    YtdlpLinesShape(track, randomPlaylist, completePlaylist);
    CommandLineIsJoin(lines);
    JoinEnds(lines, ' ');
  }
}
