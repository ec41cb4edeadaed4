# BloodysDiscordBot music engine in Dafny

BloodysDiscordBot is a Discord bot. Each guild gets its own music bot, which takes tracks
from a queue, looks them up with yt-dlp and streams them through ffmpeg into a voice
channel. This project models the bookkeeping of that engine and proves what it does:

- the `ConcurrentQueue` of tracks and the two helpers that drain and rebuild it;
- the loop modes (none, current song, current queue) and how a mode change during a track
  is reconciled afterwards;
- the pause-aware relay between yt-dlp's output and ffmpeg's input;
- the ffmpeg and yt-dlp command lines;
- the parsing of ffmpeg progress lines and of yt-dlp's four-line track description;
- the state of the `MusicBot` and the decisions of its slash commands (volume, filter,
  loop, queue page, shuffle, remove, clear, pause, resume, skip);
- the registry of bots per guild and kind;
- the audio-filter factories;
- the command-line parser.

## Modules

- `Wrappers` (wrappers.dfy): `Option`
- `Text` (text.dfy): the .NET string operations the bot uses: `Trim`, `Replace`, `IndexOf`, `Split`, `ToLower`, unsigned `TryParse`
- `Items` (music_queue_item.dfy): `MusicQueueItem`
- `MusicSettings` (music_settings.dfy): `LoopType`, `AudioFilter`, the `MusicFilter` factories
- `Queues` (queues.dfy): `ConcurrentQueue<T>` as a class over a sequence
- `HelperQueue` (helper_queue.dfy): `ConcurrentQueueAddToFront`, `ConcurrentQueueTryRemoveLast`
- `Builders` (string_builder.dfy): `StringBuilder` with a ghost reading of its lines
- `HelperArgs` (helper_args.dfy): `BuildFFMPEGArgs`, `BuildYTDLPArgs`
- `HelperParse` (helper_parse.dfy): `TimeStringToSeconds`, `GetMusicInfo`
- `HelperErrors` (helper_errors.dfy): `ReadErrorStreamAsync`
- `HelperRelay` (helper_relay.dfy): `StreamDataAsync`
- `Bots` (bot.dfy): `Bot`: the registry `AllBots`, `GetVoiceState`, `LeaveVoiceChannelAsync`
- `Globals` (globals.dfy): the settings `HandleArgs` assigns and the two constants the commands use
- `LoopModes` (loop_modes.dfy): the queue step and reconciliation of `StartPlayingMusic` as functions, and what they do over many tracks
- `MusicBots` (music_bot.dfy): `MusicBot`
- `MusicModule` (music_module.dfy): the slash commands of `MusicModule`
- `Program` (program.dfy): `HandleArgs`

Parameters stand in for what the bot does not decide itself:

- how a `float` is printed (`fmt`);
- `double.Parse` (`parse`);
- the result of running yt-dlp (`run`);
- `Helper.IsValidUrl` (`isValidUrl`);
- the enumeration order of the filter dictionary (`order`);
- what Discord's voice-state cache holds (`found`);
- what happens while a track plays (`TrackRun`: the voice state found, the loop mode at the
  end, whether the track was cut short by a skip or an exception after both processes started);
- the pause and cancellation signals the relay sees on each pass (`Signal`).

## Model

| member | source | states |
|---|---|---|
| `Text.TrimEnd` | BloodysDiscordBot/Helper.cs:53 | the result is a prefix of the input that does not end in white space, and everything cut off is white space |
| `Text.TrimStart` | BloodysDiscordBot/Helper.cs:53 | the result does not start with white space, and everything cut off in front is white space |
| `Text.TrimStartSuffix` | BloodysDiscordBot/Helper.cs:53 | what the front trim keeps is a suffix of its input |
| `Text.TrimEndConcat` | BloodysDiscordBot/Helper.cs:53 | trimming the end of `a + b` trims `b`, and reaches into `a` only when `b` is all blank |
| `Text.TrimNoBlankEnds` | BloodysDiscordBot/Helper.cs:53 | a string with no blank at either end is its own trim |
| `Text.Replace` | BloodysDiscordBot/Helper.cs:53 | replacing one character keeps the length |
| `Text.ReplaceAt` | BloodysDiscordBot/Helper.cs:53 | each position holds the replacement where the input held the replaced character, and the input character elsewhere |
| `Text.ReplaceConcat` | BloodysDiscordBot/Helper.cs:53 | replacing distributes over concatenation |
| `Text.UnlineConcat` | BloodysDiscordBot/Helper.cs:53 | replacing line breaks by spaces distributes over concatenation |
| `Text.UnlineNoNewLine` | BloodysDiscordBot/Helper.cs:53 | text without line breaks is unchanged by that replacement |
| `Text.IndexOf` | BloodysDiscordBot/Helper.cs:83-88 | the result is -1 or a position at or after the start where the pattern occurs, and no position before it (from the start) holds the pattern |
| `Text.Split` | BloodysDiscordBot/Helper.cs:93 | splitting always gives at least one part |
| `Text.SplitJoin` | BloodysDiscordBot/Helper.cs:93 | joining the parts with the separator gives the input back, and no part holds the separator |
| `Text.SplitNoSeparator` | BloodysDiscordBot/Helper.cs:93 | text without the separator splits into itself alone |
| `Text.SplitAfterPart` | BloodysDiscordBot/Helper.cs:93 | a separator-free part followed by the separator splits off as the first part |
| `Text.JoinSplit` | BloodysDiscordBot/Helper.cs:93 | splitting a join of separator-free parts gives the parts back |
| `Text.RemoveEmpty` | BloodysDiscordBot/Helper.cs:246 | no part left is empty, and there are no more parts than before |
| `Text.RemoveEmptyConcat` | BloodysDiscordBot/Helper.cs:246 | removing empty parts works piece by piece: on a concatenation it is the concatenation of the two results, so the non-empty parts are kept in order |
| `Text.RemoveEmptySingle` | BloodysDiscordBot/Helper.cs:246 | a single part is dropped exactly when it is empty |
| `Text.ToLower` | BloodysDiscordBot/Program.cs:78 | same length; each character is lower-cased on its own |
| `Text.DigitChar` | BloodysDiscordBot/MusicSettings.cs:40 | the digit character for a value below ten has that value |
| `Text.NatToString` | BloodysDiscordBot/MusicSettings.cs:40 | an unsigned integer prints as decimal digits with no leading zero |
| `Text.NatToStringValue` | BloodysDiscordBot/MusicSettings.cs:40 | the printed digits have the printed value |
| `Text.TryParseUnsigned` | BloodysDiscordBot/Helper.cs:250 | a parsed value is never above the type's maximum |
| `Text.ParseRendered` | BloodysDiscordBot/Helper.cs:250 | parsing a printed value in range gives that value back |
| `Text.ParseRejectsNonDigit` | BloodysDiscordBot/Helper.cs:250 | a character that is not a digit, a sign or white space makes the parse fail |
| `MusicSettings.LoopOrdinal` | BloodysDiscordBot/MusicSettings.cs:3-8 | each loop mode's value is below 3 |
| `MusicSettings.LoopFromOrdinal` | BloodysDiscordBot/MusicSettings.cs:3-8 | exactly the values 0, 1 and 2 name a loop mode |
| `MusicSettings.LoopOrdinalsRoundTrip` | BloodysDiscordBot/MusicSettings.cs:3-8 | None=0, CurrentSong=1, CurrentQueue=2 and back: the three modes and the three values correspond one to one |
| `MusicSettings.AllFiltersListsEveryKindOnce` | BloodysDiscordBot/MusicSettings.cs:10-24 | the declaration order lists every filter kind exactly once |
| `MusicSettings.RenderWithoutHoles` | BloodysDiscordBot/MusicSettings.cs:48-56 | an expression with no interpolated numbers renders as its text, whatever the number formatting |
| `MusicSettings.Clamp` | BloodysDiscordBot/MusicSettings.cs:38 | the result lies in the range, equals the input inside it, and is the nearer bound outside it |
| `MusicSettings.ToUInt` | BloodysDiscordBot/MusicSettings.cs:40 | the `(uint)` cast is at most `uint.MaxValue`, and in range it drops the fraction |
| `MusicSettings.BassFilter` | BloodysDiscordBot/MusicSettings.cs:34 | named "Bass", no strength; interpolates gain, frequency and bandwidth unclamped, in that order |
| `MusicSettings.PitchFilter` | BloodysDiscordBot/MusicSettings.cs:36 | named "Pitch", no strength; the expression is `rubberband=pitch=` followed by the pitch, unclamped |
| `MusicSettings.TempoFilter` | BloodysDiscordBot/MusicSettings.cs:38 | named "Tempo", no strength; its `atempo` is the tempo inside [0.5, 2.0] and the nearer bound outside it |
| `MusicSettings.NightcoreFilter` | BloodysDiscordBot/MusicSettings.cs:40 | named "Nightcore", no strength; the expression is `asetrate=` with 48000 x pitch cast to `uint`, then `, atempo=` with the clamped tempo |
| `MusicSettings.SlowdownFilter` | BloodysDiscordBot/MusicSettings.cs:42 | named "Slowdown", no strength; the same `asetrate=`, `, atempo=` expression as Nightcore |
| `MusicSettings.ReverbFilter` | BloodysDiscordBot/MusicSettings.cs:44 | named "Reverb", no strength; the expression is `aecho=` with the two gains, the delay clamped to [0, 90000] and the decay clamped to [0, 1], separated by `:`; a clamped value out of range is the nearer bound |
| `MusicSettings.ChorusFilter` | BloodysDiscordBot/MusicSettings.cs:46 | named "Chorus", no strength; the expression is `chorus=` with all six parameters unclamped, in order, separated by `:` |
| `MusicSettings.Fixed` | BloodysDiscordBot/MusicSettings.cs:48-56 | a fixed expression renders as its text under every number formatting |
| `MusicSettings.DistortionFilter` | BloodysDiscordBot/MusicSettings.cs:48 | named "Distortion", no strength; always the fixed `acrusher` expression |
| `MusicSettings.FlangerFilter` | BloodysDiscordBot/MusicSettings.cs:50 | named "Flanger", no strength; always `flanger` |
| `MusicSettings.TremoloFilter` | BloodysDiscordBot/MusicSettings.cs:52 | named "Tremolo", no strength; the expression is `tremolo=f=` with the frequency clamped to [0.1, 20000], then `:d=` with the depth clamped to [0, 1], each the nearer bound when out of range |
| `MusicSettings.VibratoFilter` | BloodysDiscordBot/MusicSettings.cs:54 | named "Vibrato", no strength; the expression is `vibrato=f=` with the clamped frequency, then `:d=` with the clamped depth, as for Tremolo |
| `MusicSettings.PhaserFilter` | BloodysDiscordBot/MusicSettings.cs:56 | named "Phaser", no strength; always the fixed `aphaser` expression |
| `MusicSettings.FixedExpressions` | BloodysDiscordBot/MusicSettings.cs:48-56 | Distortion, Flanger and Phaser render their fixed text whatever the number formatting |
| `MusicSettings.ResampleRate` | BloodysDiscordBot/MusicSettings.cs:40-42 | Nightcore and Slowdown resample to the same rate, 48000 x pitch with the fraction dropped |
| `MusicSettings.RenderedExamples` | BloodysDiscordBot/MusicSettings.cs:34-38 | the rendered Bass and Tempo expressions, spelled out piece by piece |
| `MusicSettings.RenderedPitch` | BloodysDiscordBot/MusicSettings.cs:36 | the Pitch expression renders as `rubberband=pitch=` and the pitch |
| `MusicSettings.RenderedResample` | BloodysDiscordBot/MusicSettings.cs:40-42 | Nightcore and Slowdown render as `asetrate=`, the truncated rate, `, atempo=` and the clamped tempo |
| `MusicSettings.RenderedReverb` | BloodysDiscordBot/MusicSettings.cs:44 | the Reverb expression renders as `aecho=` and the gains, clamped delay and clamped decay, colon-separated |
| `MusicSettings.RenderedChorus` | BloodysDiscordBot/MusicSettings.cs:46 | the Chorus expression renders as `chorus=` and its six parameters, colon-separated |
| `MusicSettings.RenderedModulation` | BloodysDiscordBot/MusicSettings.cs:52-54 | Tremolo and Vibrato render as `tremolo=f=` or `vibrato=f=`, the clamped frequency, `:d=` and the clamped depth |
| `Queues.ConcurrentQueue.constructor` | BloodysDiscordBot/MusicBot.cs:42 | a new queue is empty |
| `Queues.ConcurrentQueue.TryPeek` | BloodysDiscordBot/MusicBot.cs:160 | the head if and only if the queue is non-empty |
| `Queues.ConcurrentQueue.Enqueue` | BloodysDiscordBot/MusicBot.cs:94 | the item is added at the tail |
| `Queues.ConcurrentQueue.TryDequeue` | BloodysDiscordBot/MusicBot.cs:160 | takes the head off a non-empty queue; an empty queue gives nothing and stays empty |
| `Queues.ConcurrentQueue.Clear` | BloodysDiscordBot/MusicBot.cs:149 | the queue is empty afterwards |
| `HelperQueue.Reverse` | BloodysDiscordBot/Helper.cs:275-278 | popping the stack reverses: same length, same items |
| `HelperQueue.ReverseIndex` | BloodysDiscordBot/Helper.cs:275-278 | position `i` of the reversal holds the item `i` places from the end |
| `HelperQueue.ReverseReverse` | BloodysDiscordBot/Helper.cs:275-278 | reversing twice gives the sequence back |
| `HelperQueue.DrainAll` | BloodysDiscordBot/Helper.cs:268-271 | the `TryDequeue` loop takes every item off, head first, and leaves the queue empty |
| `HelperQueue.AddToFront` | BloodysDiscordBot/Helper.cs:264-279 | afterwards the queue is the new item followed by the old contents back to front |
| `HelperQueue.AddToFrontCounts` | BloodysDiscordBot/Helper.cs:264-279 | the queue grows by one, the new item is at the head, and the multiset gains exactly that item |
| `HelperQueue.AddToFrontSwapsTwo` | BloodysDiscordBot/Helper.cs:264-279 | two queued items come back swapped behind the new one |
| `HelperQueue.TryRemoveLast` | BloodysDiscordBot/Helper.cs:281-306 | true exactly on a non-empty queue, which loses its last item and keeps the order of the rest; an empty queue stays empty |
| `Builders.StringBuilder.constructor` | BloodysDiscordBot/Helper.cs:14 | a new builder is empty |
| `Builders.StringBuilder.Append` | BloodysDiscordBot/Helper.cs:38-48 | the text extends the unfinished line |
| `Builders.StringBuilder.AppendLine` | BloodysDiscordBot/Helper.cs:16-35 | the unfinished line plus the text becomes a finished line |
| `Builders.StringBuilder.ReplaceNewLines` | BloodysDiscordBot/Helper.cs:53 | the contents have every line break replaced by a space |
| `Builders.UnlineLines` | BloodysDiscordBot/Helper.cs:53 | lines ended by line breaks read, once the breaks are replaced, as lines ended by spaces |
| `Builders.BuilderView` | BloodysDiscordBot/Helper.cs:53 | a builder's contents with the breaks replaced are its lines each followed by a space, then the unfinished line |
| `Builders.FinishedLines` | BloodysDiscordBot/Helper.cs:77 | a builder with every line finished returns the command line of its lines |
| `Builders.UnbrokenConcat` | BloodysDiscordBot/Helper.cs:53 | lines without line breaks stay so when concatenated |
| `Builders.PlainConcat` | BloodysDiscordBot/Helper.cs:53 | lines without line breaks or spaces stay so when concatenated |
| `Builders.SpaceLineJoin` | BloodysDiscordBot/Helper.cs:53 | lines each followed by a space are the lines joined by spaces plus one trailing space |
| `Builders.JoinSnoc` | BloodysDiscordBot/Helper.cs:53 | joining one more part adds a separator and the part |
| `Builders.JoinNoNewLine` | BloodysDiscordBot/Helper.cs:53 | joining parts without line breaks gives text without line breaks |
| `Builders.JoinEnds` | BloodysDiscordBot/Helper.cs:53 | a join starts with its first part and ends with its last |
| `Builders.CommandLineIsJoin` | BloodysDiscordBot/Helper.cs:53 | the trimmed, un-lined builder is the lines joined by single spaces, and splitting it at spaces gives the lines back when none holds a space |
| `HelperArgs.Expressions` | BloodysDiscordBot/Helper.cs:43-46 | one rendered expression per enumerated filter |
| `HelperArgs.ExpressionsAt` | BloodysDiscordBot/Helper.cs:43-46 | the `i`-th expression is the rendering of the `i`-th enumerated filter |
| `HelperArgs.FfmpegLinesShape` | BloodysDiscordBot/Helper.cs:16-51 | `-loglevel` then `debug` or `8`; `-i` and the input exactly when there is an input; `-ac 2 -ar 48000 -f s16le -filter:a`; the quoted volume and filter chain; the output last exactly when there is one |
| `HelperArgs.AppendExpressions` | BloodysDiscordBot/Helper.cs:41-47 | the `foreach` adds `,expression` for each filter, in enumeration order, to the unfinished line |
| `HelperArgs.AppendFilterChain` | BloodysDiscordBot/Helper.cs:37-48 | the unfinished line becomes the opening quote, `volume=`, the chain, and the closing quote and a space |
| `HelperArgs.AppendOutputFormat` | BloodysDiscordBot/Helper.cs:25-37 | adds the lines `-ac 2 -ar 48000 -f s16le -filter:a` in order |
| `HelperArgs.AppendFfmpegOptions` | BloodysDiscordBot/Helper.cs:16-37 | adds the log level, the input lines when there is an input, and the output format |
| `HelperArgs.BuildFfmpegArgs` | BloodysDiscordBot/Helper.cs:12-54 | the result is the command line of the ffmpeg lines for the given settings |
| `HelperArgs.FfmpegBuilt` | BloodysDiscordBot/Helper.cs:48-53 | what the builder holds at the end reads as the ffmpeg command line |
| `HelperArgs.FfmpegCommandLine` | BloodysDiscordBot/Helper.cs:12-54 | with plain values and an output, the ffmpeg arguments are the lines joined by spaces, and splitting them at spaces gives the lines back |
| `HelperArgs.YtdlpLinesShape` | BloodysDiscordBot/Helper.cs:60-75 | the playlist switch first, `--playlist-random` second exactly when asked for, the track last |
| `HelperArgs.AppendDownloadOptions` | BloodysDiscordBot/Helper.cs:65-75 | adds `-o -`, `-q`, `--verbose`, `--no-progress`, `-f bestaudio/best`, `-x`, then the track |
| `HelperArgs.BuildYtdlpArgs` | BloodysDiscordBot/Helper.cs:56-78 | the result is the command line of the yt-dlp lines |
| `HelperArgs.YtdlpBuilt` | BloodysDiscordBot/Helper.cs:77 | what the builder holds at the end reads as the yt-dlp command line |
| `HelperArgs.YtdlpCommandLine` | BloodysDiscordBot/Helper.cs:56-78 | for a track without line breaks, the yt-dlp arguments are the lines joined by spaces, start with the playlist switch and end with the track |
| `HelperParse.TimeToken` | BloodysDiscordBot/Helper.cs:83-91 | nothing exactly when the line has no `time=`; otherwise a token without spaces |
| `HelperParse.TimeOfParts` | BloodysDiscordBot/Helper.cs:93-115 | a number of seconds only from two or three parts; a throw only when some part fails to parse |
| `HelperParse.TimeStringToSeconds` | BloodysDiscordBot/Helper.cs:80-116 | a line without `time=` gives null |
| `HelperParse.MarkerStays` | BloodysDiscordBot/Helper.cs:83 | text appended after the first `time=` does not move it |
| `HelperParse.TokenAfterMarker` | BloodysDiscordBot/Helper.cs:83-91 | the token is the text after the first `time=` up to the next space or the end of the line |
| `HelperParse.TokenFields` | BloodysDiscordBot/Helper.cs:83-93 | the token of such a line splits at `:` into the fields it was joined from |
| `HelperParse.TimeOfLine` | BloodysDiscordBot/Helper.cs:80-116 | such a line reads as its fields |
| `HelperParse.HoursMinutesSeconds` | BloodysDiscordBot/Helper.cs:98-103 | `HH:MM:SS.xx` reads as hours x 3600 + minutes x 60 + seconds |
| `HelperParse.MinutesSeconds` | BloodysDiscordBot/Helper.cs:104-108 | `MM:SS.xx` reads as minutes x 60 + seconds |
| `HelperParse.OtherPartCounts` | BloodysDiscordBot/Helper.cs:109-112 | one part, or four and more, give null |
| `HelperParse.UnparsableField` | BloodysDiscordBot/Helper.cs:98-108 | with two or three parts, one that `double.Parse` rejects makes the call throw |
| `HelperParse.ParseMusicInfo` | BloodysDiscordBot/Helper.cs:246-255 | an item exactly when there are at least four non-empty lines; title line 0, author line 2, URL line 3, not a file, duration line 1 as a `uint` or 0 |
| `HelperParse.GetMusicInfo` | BloodysDiscordBot/Helper.cs:203-262 | an item only when yt-dlp exited with code 0 in time, and then exactly the parse of what it printed; never a file |
| `HelperParse.MusicInfoArgs` | BloodysDiscordBot/Helper.cs:207 | the input, in quotes, is the last argument yt-dlp gets |
| `HelperParse.GetMusicInfoOfRun` | BloodysDiscordBot/Helper.cs:203-262 | a run that exits with code 0 after printing a web track's four fields gives that track; any other run gives nothing |
| `HelperParse.ParseInfoOutput` | BloodysDiscordBot/Helper.cs:246-255 | parsing the four lines yt-dlp prints for a web track gives that track back |
| `HelperParse.UnparsableDuration` | BloodysDiscordBot/Helper.cs:250-251 | a duration line with a character `uint.TryParse` cannot accept gives duration 0, and the item is still made |
| `HelperErrors.TrackLocation` | BloodysDiscordBot/Helper.cs:131-137 | the loop throws exactly when some line's time fails to parse; otherwise the position is the start or some line's time |
| `HelperErrors.TrackLocationAppend` | BloodysDiscordBot/Helper.cs:122-137 | reading two runs of lines one after the other is reading their concatenation |
| `HelperErrors.LastTimeWins` | BloodysDiscordBot/Helper.cs:134-136 | after a line with a time, the position is that time |
| `HelperErrors.ReadErrorStream` | BloodysDiscordBot/Helper.cs:118-139 | only for `ffmpeg` with a bot does the position move, as `TrackLocation` says; otherwise nothing of the bot changes and nothing throws |
| `HelperErrors.FollowPosition` | BloodysDiscordBot/Helper.cs:122-138 | the loop leaves the bot's position, and the throw, as `TrackLocation` says |
| `HelperRelay.SignalAt` | BloodysDiscordBot/Helper.cs:150-153 | past the given signals the bot plays and nothing is cancelled |
| `HelperRelay.Repeat` | BloodysDiscordBot/Helper.cs:186 | `n` copies of a flag |
| `HelperRelay.Relay.constructor` | BloodysDiscordBot/Helper.cs:144-148 | a 4096-byte buffer, an empty queue, `wasPaused` false, nothing read or written |
| `HelperRelay.Relay.Read` | BloodysDiscordBot/Helper.cs:165 | the next chunk lands at the start of the buffer, at most 4096 bytes; 0 at the end of the stream |
| `HelperRelay.Relay.Drain` | BloodysDiscordBot/Helper.cs:182-188 | paused, nothing is written; otherwise the whole queue is written in order, each write paced exactly when `wasPaused` |
| `HelperRelay.Relay.Pass` | BloodysDiscordBot/Helper.cs:150-189 | paused: `wasPaused` set, nothing written, no read once `maxQueueSize` chunks are queued, the queue bounded; exit on cancel or an empty read with an empty queue; what is written is a prefix of the source |
| `HelperRelay.StreamData` | BloodysDiscordBot/Helper.cs:141-190 | the written chunks are a prefix of the source, all of it at the end of the stream, which is reached when nothing is cancelled; pacing only after a pause, and then on every later write |
| `HelperRelay.WrittenFirst` | BloodysDiscordBot/Helper.cs:178-185 | what was written comes first in the source |
| `Bots.Lookup` | BloodysDiscordBot/Bot.cs:48-57 | a bot exactly when one is registered under the guild and kind |
| `Bots.Added` | BloodysDiscordBot/Bot.cs:27-32 | refused exactly when the pair is taken; otherwise the pair holds the new bot and no other entry changes |
| `Bots.Removed` | BloodysDiscordBot/Bot.cs:35-46 | the pair is gone and every other entry stays; a guild kept keeps its other kinds |
| `Bots.PrunedKept` | BloodysDiscordBot/Bot.cs:35-46 | no guild is left with an empty map, after adding or deleting |
| `Bots.AddAfterRemove` | BloodysDiscordBot/Bot.cs:27-46 | after `Delete` a bot of the same kind can be created for that guild again |
| `Bots.OtherKindAccepted` | BloodysDiscordBot/Bot.cs:27-32 | a different kind in the same guild is accepted |
| `Bots.RemoveLastPrunes` | BloodysDiscordBot/Bot.cs:41-44 | deleting a guild's last kind removes the guild key |
| `Bots.BotRegistry.constructor` | BloodysDiscordBot/Bot.cs:10 | the registry starts empty |
| `Bots.BotRegistry.Register` | BloodysDiscordBot/Bot.cs:27-32 | registers unless the pair is taken, in which case nothing changes |
| `Bots.BotRegistry.Delete` | BloodysDiscordBot/Bot.cs:35-46 | the registry becomes `Removed` |
| `Bots.BotRegistry.GetBot` | BloodysDiscordBot/Bot.cs:48-57 | a bot exactly when one is registered under the guild and kind, and then that bot |
| `Bots.Bot.constructor` | BloodysDiscordBot/Bot.cs:22-25 | a new bot has its guild and kind, no voice state and no connection |
| `Bots.Bot.GetVoiceState` | BloodysDiscordBot/Bot.cs:59-66 | the cached state when there is one; only otherwise is the cache consulted, and its answer kept |
| `Bots.Bot.LeaveVoiceChannel` | BloodysDiscordBot/Bot.cs:68-97 | with no state cached or found nothing changes; otherwise voice state and connection are both cleared |
| `Globals.GlobalSettings.constructor` | BloodysDiscordBot/Globals.cs:14-22 | no token, no author (0), debug mode off |
| `LoopModes.Advance` | BloodysDiscordBot/MusicBot.cs:157-175 | the step keeps the length except with loop off, which removes one |
| `LoopModes.AdvanceKeepsTracks` | BloodysDiscordBot/MusicBot.cs:157-175 | loop off drops exactly the head; the other modes keep every track; looping the queue moves the head to the tail and keeps the rest in order |
| `LoopModes.ReconcileCounts` | BloodysDiscordBot/MusicBot.cs:264-285 | no change of mode leaves the queue; a change to None removes one track (none from an empty queue) and adds none; a change to CurrentQueue or CurrentSong adds the track, at the tail or the head |
| `LoopModes.AfterTrackBounds` | BloodysDiscordBot/MusicBot.cs:157-285 | one track changes the queue's length by at most one, and the only track it can add again is the one played |
| `LoopModes.Played` | BloodysDiscordBot/MusicBot.cs:130-155 | the loop ends with an empty queue when it ran out or lost the voice connection, and with a non-empty one when the tracks given ran out |
| `LoopModes.ReconcileMatchesNewMode` | BloodysDiscordBot/MusicBot.cs:264-285 | CurrentSong to None, CurrentQueue to None and None to CurrentQueue leave the queue as if the new mode had been in force from the start |
| `LoopModes.SongToQueueDuplicates` | BloodysDiscordBot/MusicBot.cs:275-277 | CurrentSong to CurrentQueue enqueues a track the peek never removed: it is there twice |
| `LoopModes.NoneToSongReverses` | BloodysDiscordBot/MusicBot.cs:278-279 | None to CurrentSong puts the track back in front and reverses the rest of the queue |
| `LoopModes.NoLoopDrains` | BloodysDiscordBot/MusicBot.cs:130-175 | with the loop off, `n` tracks remove the first `n`, and the loop ends when the queue runs out |
| `LoopModes.SongLoopKeepsQueue` | BloodysDiscordBot/MusicBot.cs:157-168 | looping the song never changes the queue |
| `LoopModes.SteadyTail` | BloodysDiscordBot/MusicBot.cs:264 | a steady loop mode stays steady for the remaining tracks |
| `LoopModes.QueueLoopKeepsTracks` | BloodysDiscordBot/MusicBot.cs:170-175 | looping the queue never loses or adds a track, and never ends the loop |
| `LoopModes.RotationAdvances` | BloodysDiscordBot/MusicBot.cs:160-175 | looping the queue moves a rotation by `k` to a rotation by `k + 1` |
| `LoopModes.QueueLoopStep` | BloodysDiscordBot/MusicBot.cs:130-175 | one track of a looped, rotated queue rotates it by one more |
| `LoopModes.QueueLoopFrom` | BloodysDiscordBot/MusicBot.cs:130-175 | from a rotation by `k`, `n` more tracks give a rotation by `k + n` |
| `LoopModes.QueueLoopRotates` | BloodysDiscordBot/MusicBot.cs:130-175 | after `n` tracks, at most as many as queued, the first `n` have moved to the tail in order |
| `LoopModes.QueueLoopFullTurn` | BloodysDiscordBot/MusicBot.cs:130-175 | after as many tracks as it holds, a looped queue is back in its first order |
| `MusicBots.MusicBot.constructor` | BloodysDiscordBot/MusicBot.cs:34-48 | empty queue, no track, no filters, volume 1, not paused, loop off, no processes |
| `MusicBots.MusicBot.IsPlayingMusic` | BloodysDiscordBot/MusicBot.cs:391 | playing exactly when there is a current track and yt-dlp or ffmpeg is still running |
| `MusicBots.MusicBot.ForceStopCurrentMusic` | BloodysDiscordBot/MusicBot.cs:103-126 | no track, no processes, no cancellation source, so not playing; a second call changes nothing; volume, loop mode and filters stay |
| `MusicBots.MusicBot.PausePlayback` | BloodysDiscordBot/MusicBot.cs:379-383 | sets `isPaused` and nothing else |
| `MusicBots.MusicBot.ResumePlayback` | BloodysDiscordBot/MusicBot.cs:385-389 | clears `isPaused` and nothing else |
| `MusicBots.MusicBot.LeaveVoiceChannel` | BloodysDiscordBot/MusicBot.cs:50-63 | leaves as `Bot` does, resets the volume to the default and disables every filter |
| `MusicBots.MusicBot.StopMusic` | BloodysDiscordBot/MusicBot.cs:369-377 | empty queue, nothing playing, not paused, the volume back to the unchanged default, no filters; loop mode, playback position and argument strings kept; the voice state and connection dropped when there was a state to leave |
| `MusicBots.MusicBot.AddMusicToQueue` | BloodysDiscordBot/MusicBot.cs:65-101 | a failed lookup enqueues nothing and returns null; a found track is appended at the tail and announced |
| `MusicBots.MusicBot.MoveToChannel` | BloodysDiscordBot/MusicBot.cs:324-342 | the voice state becomes the caller's unless already in that channel; the bot joins when it had no connection or moved; it throws exactly when it has no state, no connection and the caller no channel |
| `MusicBots.MusicBot.PlayMusic` | BloodysDiscordBot/MusicBot.cs:308-367 | idle: the queue is cleared first, so a successful add leaves exactly that track and the bot is in the caller's channel, while a failed lookup leaves the channel (default volume, no filters, no voice state); busy: the track is appended and the voice state is kept; the loop mode, pause flag, track and processes never change |
| `MusicBots.MusicBot.PickNext` | BloodysDiscordBot/MusicBot.cs:157-175 | the head is picked, and the queue steps as the loop mode says |
| `MusicBots.MusicBot.StartTrack` | BloodysDiscordBot/MusicBot.cs:177-234 | the track is current, both processes run, the position is 0, and the argument strings are recorded |
| `MusicBots.MusicBot.ReconcileQueue` | BloodysDiscordBot/MusicBot.cs:263-285 | the queue is reconciled exactly as `Reconcile` says for the old and new mode |
| `MusicBots.MusicBot.PlayNext` | BloodysDiscordBot/MusicBot.cs:136-302 | without a voice state or connection: queue cleared, both dropped, loop returns; otherwise the queue steps and is reconciled as `AfterTrack` says, and the track is forgotten |
| `MusicBots.MusicBot.PlayPicked` | BloodysDiscordBot/MusicBot.cs:157-302 | the queue ends as `AfterTrack` says; ffmpeg and yt-dlp were started with the command lines built from the volume, the filters and the track |
| `MusicBots.MusicBot.FinishTrack` | BloodysDiscordBot/MusicBot.cs:263-302 | a track cut short after both processes started leaves the queue; otherwise it is reconciled; the track is forgotten |
| `MusicBots.MusicBot.StartPlayingMusic` | BloodysDiscordBot/MusicBot.cs:128-306 | the queue, the loop mode and why it stopped are as `Played` says; when the queue runs out the bot leaves, resetting volume and filters |
| `MusicBots.MusicBot.PlayTracks` | BloodysDiscordBot/MusicBot.cs:130-303 | the `while` loop leaves the queue and loop mode as `Played` says, and stops for want of a voice connection exactly when `Played` does |
| `MusicBots.SearchTarget` | BloodysDiscordBot/MusicBot.cs:69-80 | a URL is looked up as given; anything else is prefixed with `ytsearch:` |
| `MusicBots.TrackArgs` | BloodysDiscordBot/MusicBot.cs:190-191 | ffmpeg reads `pipe:0` and writes `pipe:1` with the volume and filters; yt-dlp gets the track's URL |
| `MusicBots.AddedMessage` | BloodysDiscordBot/MusicBot.cs:99-100 | the reply is the Markdown link `[title](url)` followed by " was added to the queue!" |
| `MusicBots.Create` | BloodysDiscordBot/Bot.cs:22-33 | a new bot is registered exactly when the guild has no music bot yet, starting idle with an empty queue; otherwise the registry is unchanged |
| `MusicModule.GetOrCreate` | BloodysDiscordBot/MusicModule.cs:178-180 | the bot registered for the guild, or a new registered idle one when there is none |
| `MusicModule.NewVolume` | BloodysDiscordBot/MusicModule.cs:182-209 | an accepted value v is stored as v/100 and is never negative; others than a configured author stay within the maximum; in-range values are always accepted, and the author or anyone without an author configured may set any non-negative value |
| `MusicModule.VolumeCommand` | BloodysDiscordBot/MusicModule.cs:175-210 | the volume changes exactly when `NewVolume` accepts, to that value |
| `MusicModule.VolumeLimitAppliesToOthers` | BloodysDiscordBot/MusicModule.cs:188-206 | above the maximum only the author, or anyone when no author is configured, is accepted |
| `MusicModule.MakeFilter` | BloodysDiscordBot/MusicModule.cs:244-286 | the kind's filter with its display name and no strength; without a strength, the defaults |
| `MusicModule.StrengthIgnoredWhereFixed` | BloodysDiscordBot/MusicModule.cs:267-281 | Distortion, Flanger and Phaser ignore the strength |
| `MusicModule.UnitStrengthIsDefault` | BloodysDiscordBot/MusicModule.cs:246-281 | strength 1 builds exactly the default filter of every kind |
| `MusicModule.BassGainScales` | BloodysDiscordBot/MusicModule.cs:246-247 | the bass gain is ten times the strength |
| `MusicModule.TremoloScalesDepth` | BloodysDiscordBot/MusicModule.cs:274 | with a strength, Tremolo keeps the frequency 5 and its depth is 0.8 x strength, clamped to [0, 1] |
| `MusicModule.VibratoScalesDepth` | BloodysDiscordBot/MusicModule.cs:277 | with a strength, Vibrato keeps the frequency 5 and its depth is 0.1 x strength, clamped to [0, 1] |
| `MusicModule.Configured` | BloodysDiscordBot/MusicModule.cs:244-288 | the stored filter is the one `MakeFilter` builds, with its expression and name, carrying the given strength, or 1 when none was given |
| `MusicModule.Toggled` | BloodysDiscordBot/MusicModule.cs:294-315 | the kind is on afterwards exactly when it was off, with the configured filter; no other kind changes |
| `MusicModule.ToggleOnOff` | BloodysDiscordBot/MusicModule.cs:294-315 | switching a filter on and off again leaves the filters as they were |
| `MusicModule.FilterCommand` | BloodysDiscordBot/MusicModule.cs:212-318 | without a kind nothing changes; with one, the filters become `Toggled` and the answer says whether it is now on |
| `MusicModule.NextLoopType` | BloodysDiscordBot/MusicModule.cs:391 | a requested mode is taken; otherwise None becomes CurrentSong and any other mode becomes None |
| `MusicModule.LoopToggleTwice` | BloodysDiscordBot/MusicModule.cs:391 | toggling twice takes None back to None and any other mode to CurrentSong, so toggling never reaches the queue loop |
| `MusicModule.LoopCommand` | BloodysDiscordBot/MusicModule.cs:384-398 | the loop mode becomes `NextLoopType` |
| `MusicModule.QueuePage` | BloodysDiscordBot/MusicModule.cs:358-374 | nothing exactly for an empty queue; otherwise one page below ten tracks and `Count / 10` pages (rounded down) from ten on; the requested page, or the last when it asks for more; up to ten entries, the queue's in order from `(page - 1) x 10`, fewer only when the queue ends there |
| `MusicModule.FirstPageFromHead` | BloodysDiscordBot/MusicModule.cs:369-370 | page 1 lists the queue from its head |
| `MusicModule.NextPageContinues` | BloodysDiscordBot/MusicModule.cs:363-370 | a page before the last is full, and the next page continues the queue where it ends |
| `MusicModule.TailBeyondLastPage` | BloodysDiscordBot/MusicModule.cs:363-370 | the page count rounds down, so the last `Count % 10` items are on no page |
| `MusicModule.Refill` | BloodysDiscordBot/MusicModule.cs:427-431 | after `Clear` and the `Enqueue` loop, the queue is exactly the items in order |
| `MusicModule.ShuffleCommand` | BloodysDiscordBot/MusicModule.cs:400-435 | an empty or single-item queue is left alone; otherwise the queue is a permutation of the old one |
| `MusicModule.RemovedAt` | BloodysDiscordBot/MusicModule.cs:443-452 | refused exactly when the index is at least `Count`; otherwise exactly the item at `index - 1` goes and the others keep their order |
| `MusicModule.LastItemStays` | BloodysDiscordBot/MusicModule.cs:443 | the last item can never be removed |
| `MusicModule.RemoveCommand` | BloodysDiscordBot/MusicModule.cs:437-463 | the queue becomes `RemovedAt`, or stays when that refuses |
| `MusicModule.ClearCommand` | BloodysDiscordBot/MusicModule.cs:337-347 | the queue is empty |
| `MusicModule.PauseCommand` | BloodysDiscordBot/MusicModule.cs:465-485 | pauses exactly a playing, unpaused bot, which keeps playing the same track; only `isPaused` can change, and otherwise nothing changes |
| `MusicModule.ResumeCommand` | BloodysDiscordBot/MusicModule.cs:487-508 | resumes exactly a playing, paused bot, which keeps playing the same track; only `isPaused` can change, and otherwise nothing changes |
| `MusicModule.SkipCommand` | BloodysDiscordBot/MusicModule.cs:320-335 | stops the track exactly when one is playing; only the track, the two processes and the cancellation source can change, so volume, filters, pause state and queue stay; otherwise nothing changes |
| `Program.StepOf` | BloodysDiscordBot/Program.cs:78-108 | a token or author flag with a value uses two arguments, any other flag one; exit exactly on an unknown flag; only the value can become the token; an author is at most `ulong.MaxValue`; debug mode is never switched off |
| `Program.FlagOf` | BloodysDiscordBot/Program.cs:78-108 | `-bt`/`-bottoken`, `-ba`/`-botauthor` and `-d`/`-debug` in any case name the three flags; anything else is unknown |
| `Program.ArgsFrom` | BloodysDiscordBot/Program.cs:76-110 | the author stays or is at most `ulong.MaxValue`, debug mode once on stays on, and the token stays or is a later argument |
| `Program.ArgsShift` | BloodysDiscordBot/Program.cs:76-110 | parsing depends only on the arguments from the current position on |
| `Program.ToLowerIdempotent` | BloodysDiscordBot/Program.cs:78 | lower-casing twice is lower-casing once |
| `Program.FlagCaseInsensitive` | BloodysDiscordBot/Program.cs:78 | flags are matched regardless of case |
| `Program.TokenTakesValue` | BloodysDiscordBot/Program.cs:80-86 | `-bt value` sets the token and consumes the value, whatever it looks like |
| `Program.AuthorTakesValue` | BloodysDiscordBot/Program.cs:87-99 | `-ba value` sets the author when the value is a `ulong`, and otherwise leaves it; the value is consumed either way |
| `Program.TrailingFlagIgnored` | BloodysDiscordBot/Program.cs:82-90 | a token or author flag with nothing after it changes nothing |
| `Program.DebugTakesNothing` | BloodysDiscordBot/Program.cs:100-103 | `-d` sets debug mode and consumes nothing else |
| `Program.UnknownExits` | BloodysDiscordBot/Program.cs:104-108 | an unknown argument ends parsing with an exit and the settings so far |
| `Program.LaterTokenWins` | BloodysDiscordBot/Program.cs:76-86 | of two token flags the later one decides |
| `Program.HandleArgs` | BloodysDiscordBot/Program.cs:74-111 | the loop leaves the settings and the exit as `ArgsFrom` says |

## Left out

- Processes: starting, killing and disposing yt-dlp and ffmpeg, `WaitForExit` and its time-out, exit codes, and reading their streams. A process is reduced to whether it has exited, and the result of a yt-dlp run is a parameter.
- The voice transport and Discord calls: joining and closing voice connections, `UpdateVoiceStateAsync`, the Opus stream, and every reply, message and log line.
- Concurrency: `Task.Run`, the background playback task `PlayMusicAsync` starts, and the atomicity of `ConcurrentQueue` and `ConcurrentDictionary`. Calls are taken one at a time, so the `TryAdd`/`TryRemove` failure branches of the `filter` command cannot happen. For the same reason, the "queue is empty" return of `StartPlayingMusic` after its loop check cannot happen.
- Commands interleaved with a playing track: their only effects modelled are the loop mode at the end of a track and a skip (`TrackRun`).
- Time: the 100 ms waits and the length of the pacing delays in `StreamDataAsync`. A write records only whether a delay followed it.
- Floating point: `float` and `double` values are `real`, so rounding is not modelled. Printing a number is the parameter `fmt`, and `double.Parse` is the parameter `parse`.
- MusicSettings.ToUInt: the cast of an out-of-range `float` saturates at 0 and `uint.MaxValue`, which is how current .NET converts; older runtimes leave it unspecified.
- Text.NewLine: `Environment.NewLine` is taken to be the single character `\n`. On a host where it is `\r\n`, `Replace(Environment.NewLine, " ")` replaces only that pair, so a lone `\n` inside a track or filter text survives into the command line. The model does not capture that case.
- HelperRelay.Relay.Drain: writes the whole queue once it starts. In the source, `WriteAsync` and `Task.Delay` take the cancellation token, so a cancellation can stop the drain part-way through the queue; the model only cancels between passes.
- MusicBots.MusicBot.FinishTrack: `aborted` stands for a skip, or an exception raised after both yt-dlp and ffmpeg started. A failed process start (`Process.Start` throwing, MusicBot.cs:233-234) is not modelled. The unstarted process then stays in its field, so every later pass throws at `HasExited` inside `ForceStopCurrentMusic`, before dequeuing. The queue never advances and the loop spins until `stop` clears it, whereas the model moves on to the next track.
- Text.IndexOf: ordinal comparison. The `IndexOf("time=")` call is culture-sensitive in .NET, and the two differ only on lines with ignorable or combining characters around the marker: a soft hyphen inside `time=` is skipped by the culture-sensitive search, which then finds the marker where the ordinal one does not.
- Text.ToLower: lower-cases ASCII letters only; .NET's culture-sensitive lower-casing of other letters is not modelled.
- Text.TrimEnd: white space is the ASCII set; `Trim` also removes Unicode spaces.
- HelperRelay.Relay.Pass: reads `isPaused` once per pass. The source reads it again before each write of the inner loop, so a pause that starts during the writes is not modelled.
- HelperRelay.StreamData: the pause and cancellation signals are a finite sequence; after it the bot plays and nothing is cancelled. This is the "pause eventually lifted" case.
- MusicBots.MusicBot.StartPlayingMusic: runs over a finite sequence of tracks (`runs`). The source keeps going while the queue is non-empty, which can be forever with a loop mode on.
- MusicBots.MusicBot.PlayMusic: does not start the playback loop; `StartPlayingMusic` models it separately.
- The filter dictionary's enumeration order is a parameter (`order`): .NET does not fix the order in which a `ConcurrentDictionary` lists its entries.
- `Helper.IsValidUrl` is the parameter `isValidUrl`, because it wraps `System.Uri`.
- `Random.Next` in `shuffle` is a nondeterministic choice of index.
- MusicModule.QueuePage and MusicModule.RemovedAt: require a page or index of at least 1, which Discord enforces through `MinValue = 1` before the command runs.
- The `switch` default branches for loop-mode or filter values outside their enums cannot be reached with Dafny datatypes.
- Not modelled, because they only list, reply or log:
  - the filter listing of the `filter` command without a kind;
  - the text of the queue page;
  - `now_playing`;
  - the `playfile` command, which plays a local file directly through foreign voice calls;
  - `ReadErrorStreamAsync`'s logging of `[error]` lines.
- `stop` is `GetOrCreate` followed by `StopMusic`, and the core of `play` is `GetOrCreate` followed by `PlayMusic`; neither is a member of its own. Three further steps of `play` are not modelled: it replies and returns before anything else when the user has no voice state in the guild, it sets the bot's `textChannel` (a field the model does not have), and it catches every exception from `PlayMusicAsync` and reports it. Every command takes the bot `GetOrCreate` found.
- `Program.Main`, `Log.cs`, `Handlers.cs` and `TestModule.cs` are console and gateway wiring. `Environment.Exit` in `HandleArgs` is the `exited` outcome; the console message and the wait for a key before it are not modelled.
