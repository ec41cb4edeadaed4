/**
 * MusicBot.cs: the per-guild music engine. Its queue, the track it is playing, the loop mode,
 * volume, filters and the two processes of a playback are fields that its methods update.
 *
 * `MusicBot` derives from `Bot`; here it holds its `Bot` part in `bot`. Processes are
 * reduced to whether they have exited; the yt-dlp lookup, `Helper.IsValidUrl` and the guild's
 * voice-state cache are parameters.
 */
module MusicBots {
  import opened Wrappers
  import opened Items
  import opened MusicSettings
  import opened Queues
  import opened HelperQueue
  import opened HelperArgs
  import opened HelperParse
  import opened Bots
  import opened Builders
  import opened LoopModes

  /** The prefix that turns a query into a yt-dlp search. */
  const DefaultSearchOption: string := "ytsearch:"

  /** The relay's chunk limit while paused. */
  const MaxQueueSizeForPlaybackCopy: int := 10

  /** A started process, as far as the engine asks about it. */
  datatype ProcessState = ProcessState(hasExited: bool)

  datatype CancellationSource = CancellationSource(cancelled: bool)

  // ---------------------------------------------------------------- the engine

  class MusicBot {
    /** The `Bot` part: voice client and voice state. */
    const bot: Bot
    const musicQueue: ConcurrentQueue<MusicQueueItem>
    var ffmpegargs: Option<string>
    var ytdlpargs: Option<string>
    var ytdlpProcess: Option<ProcessState>
    var ffmpegProcess: Option<ProcessState>
    var currentMusicLocation: real
    var musicVolume: real
    var defaultMusicVolume: real
    var isPaused: bool
    var loopType: LoopType
    var currentMusic: Option<MusicQueueItem>
    var musicFilters: map<AudioFilter, MusicFilter>
    var playbackCancellationSource: Option<CancellationSource>

    /** The field initialisers; registering the bot is `Create`'s part. */
    constructor(guildId: nat)
      ensures fresh(bot) && fresh(musicQueue)
      ensures bot.guildId == guildId && bot.kind == Music && bot.voiceState == Option.None && bot.voiceClient == Option.None
      ensures musicQueue.items == [] && currentMusic == Option.None && musicFilters == map[]
      ensures musicVolume == 1.0 && defaultMusicVolume == 1.0 && !isPaused && loopType == LoopType.None
      ensures ytdlpProcess == Option.None && ffmpegProcess == Option.None && playbackCancellationSource == Option.None
    {
      bot := new Bot(guildId, Music);
      musicQueue := new ConcurrentQueue();
      ffmpegargs := Option.None;
      ytdlpargs := Option.None;
      ytdlpProcess := Option.None;
      ffmpegProcess := Option.None;
      currentMusicLocation := 0.0;
      musicVolume := 1.0;
      defaultMusicVolume := 1.0;
      isPaused := false;
      loopType := LoopType.None;
      currentMusic := Option.None;
      musicFilters := map[];
      playbackCancellationSource := Option.None;
    }

    /** `IsPlayingMusic`: a current track, and a process of it that has not exited. */
    predicate IsPlayingMusic()
      reads this
      ensures IsPlayingMusic() <==> currentMusic.Some? && (Running(ytdlpProcess) || Running(ffmpegProcess))
    {
      !(currentMusic.None? ||
        ((ytdlpProcess.None? || ytdlpProcess.value.hasExited) && (ffmpegProcess.None? || ffmpegProcess.value.hasExited)))
    }

    /** Nothing left of a playback: no track, no processes, no cancellation source. */
    predicate Stopped()
      reads this
    {
      currentMusic == Option.None && ytdlpProcess == Option.None && ffmpegProcess == Option.None && playbackCancellationSource == Option.None
    }

    /**
     * `ForceStopCurrentMusic` (and `SkipCurrentMusic`): kills and forgets both processes,
     * cancels the playback and forgets the track. Called again, it changes nothing.
     */
    method ForceStopCurrentMusic()
      modifies this`currentMusic, this`ytdlpProcess, this`ffmpegProcess, this`playbackCancellationSource
      ensures Stopped() && !IsPlayingMusic()
      ensures old(Stopped()) ==> unchanged(this)
      ensures musicVolume == old(musicVolume) && isPaused == old(isPaused) && loopType == old(loopType)
      ensures musicFilters == old(musicFilters) && currentMusicLocation == old(currentMusicLocation)
      ensures ffmpegargs == old(ffmpegargs) && ytdlpargs == old(ytdlpargs) && defaultMusicVolume == old(defaultMusicVolume)
    {
      currentMusic := Option.None;
      if ytdlpProcess.Some? {
        ytdlpProcess := Option.None;
      }
      if ffmpegProcess.Some? {
        ffmpegProcess := Option.None;
      }
      if playbackCancellationSource.Some? {
        playbackCancellationSource := Option.None;
      }
    }

    /** `PausePlayback`: only `isPaused` changes. */
    method PausePlayback()
      modifies this`isPaused
      ensures isPaused
      ensures currentMusic == old(currentMusic) && ytdlpProcess == old(ytdlpProcess) && ffmpegProcess == old(ffmpegProcess)
      ensures musicVolume == old(musicVolume) && loopType == old(loopType) && musicFilters == old(musicFilters)
      ensures playbackCancellationSource == old(playbackCancellationSource) && currentMusicLocation == old(currentMusicLocation)
    {
      isPaused := true;
    }

    /** `ResumePlayback`: only `isPaused` changes. */
    method ResumePlayback()
      modifies this`isPaused
      ensures !isPaused
      ensures currentMusic == old(currentMusic) && ytdlpProcess == old(ytdlpProcess) && ffmpegProcess == old(ffmpegProcess)
      ensures musicVolume == old(musicVolume) && loopType == old(loopType) && musicFilters == old(musicFilters)
      ensures playbackCancellationSource == old(playbackCancellationSource) && currentMusicLocation == old(currentMusicLocation)
    {
      isPaused := false;
    }

    /**
     * `LeaveVoiceChannelAsync`: leaves as `Bot` does, then resets the volume to the default
     * and disables every filter.
     */
    method LeaveVoiceChannel(found: Option<VoiceState>)
      modifies this, bot
      ensures musicVolume == defaultMusicVolume && musicFilters == map[]
      ensures old(bot.voiceState).Some? || found.Some? ==> bot.voiceState == Option.None && bot.voiceClient == Option.None
      ensures old(bot.voiceState).None? && found.None? ==> bot.voiceState == Option.None && bot.voiceClient == old(bot.voiceClient)
      ensures currentMusic == old(currentMusic) && isPaused == old(isPaused) && loopType == old(loopType)
      ensures ytdlpProcess == old(ytdlpProcess) && ffmpegProcess == old(ffmpegProcess)
      ensures playbackCancellationSource == old(playbackCancellationSource) && defaultMusicVolume == old(defaultMusicVolume)
      ensures currentMusicLocation == old(currentMusicLocation) && ffmpegargs == old(ffmpegargs) && ytdlpargs == old(ytdlpargs)
    {
      bot.LeaveVoiceChannel(found);
      musicVolume := defaultMusicVolume;
      if musicFilters != map[] {
        musicFilters := map[];
      }
    }

    /** `StopMusicAsync`: empties the queue, stops the track, unpauses and leaves. */
    method StopMusic(found: Option<VoiceState>)
      modifies this, bot, musicQueue
      ensures musicQueue.items == [] && Stopped() && !isPaused && !IsPlayingMusic()
      ensures musicVolume == defaultMusicVolume && musicFilters == map[] && loopType == old(loopType)
      ensures old(bot.voiceState).Some? || found.Some? ==> bot.voiceState == Option.None && bot.voiceClient == Option.None
      ensures defaultMusicVolume == old(defaultMusicVolume) && currentMusicLocation == old(currentMusicLocation)
      ensures ffmpegargs == old(ffmpegargs) && ytdlpargs == old(ytdlpargs)
    {
      musicQueue.Clear();
      ForceStopCurrentMusic();
      isPaused := false;
      LeaveVoiceChannel(found);
    }

    /**
     * `AddMusicToQueueAsync`: looks the input up (as a search unless it is an http(s) URL)
     * and enqueues the track; a failed lookup enqueues nothing.
     */
    method AddMusicToQueue(musicInput: string, isValidUrl: string -> bool, run: string -> IndexerRun)
      returns (message: Option<string>)
      modifies musicQueue
      ensures var music := GetMusicInfo(SearchTarget(musicInput, isValidUrl), run);
        && (music.None? ==> message == Option.None && musicQueue.items == old(musicQueue.items))
        && (music.Some? ==> message == Some(AddedMessage(music.value)) && musicQueue.items == old(musicQueue.items) + [music.value])
    {
      var musicToIndex := if isValidUrl(musicInput) then musicInput else DefaultSearchOption + musicInput;
      var music := GetMusicInfo(musicToIndex, run);
      if music.None? {
        return Option.None;
      }
      musicQueue.Enqueue(music.value);
      message := Some(AddedMessage(music.value));
    }

    /**
     * The part of `PlayMusicAsync` that moves to the caller's channel: the bot's voice state
     * becomes the caller's unless it already names the same channel, and the bot joins when it
     * has no connection or has just moved. `thrown` is the dereference of a missing voice state.
     */
    method MoveToChannel(newVoiceState: VoiceState, found: Option<VoiceState>) returns (thrown: bool)
      modifies bot
      ensures var current := CachedOr(old(bot.voiceState), found);
        && (thrown <==> current.None? && newVoiceState.channelId.None? && old(bot.voiceClient).None?)
        && bot.voiceState == (if ChannelOf(current) != newVoiceState.channelId then Some(newVoiceState) else current)
        && (!thrown ==> ChannelOf(bot.voiceState) == newVoiceState.channelId)
        && (!thrown && (ChannelOf(current) != newVoiceState.channelId || old(bot.voiceClient).None?) ==>
              bot.voiceClient == Some(VoiceClient(newVoiceState.channelId.GetOr(0))))
        && (ChannelOf(current) == newVoiceState.channelId && old(bot.voiceClient).Some? ==>
              bot.voiceClient == old(bot.voiceClient))
    {
      var newVoiceStateSet := false;
      var current := bot.GetVoiceState(found);
      if ChannelOf(current) != newVoiceState.channelId {
        bot.voiceState := Some(newVoiceState);
        newVoiceStateSet := true;
      }
      thrown := false;
      if bot.voiceClient.None? || newVoiceStateSet {
        if bot.voiceState.None? {
          return true;
        }
        bot.voiceClient := Some(VoiceClient(bot.voiceState.value.channelId.GetOr(0)));
      }
    }

    /**
     * `PlayMusicAsync`. Idle, it clears the queue and adds the track, leaving the voice
     * channel if that fails. It then moves to the caller's voice channel unless already there,
     * and joins it if it has no connection or has just moved; the playback loop then starts in
     * the background. Busy, it only adds the track. `thrown` is the null dereference of the
     * bot's voice state when there is none and the caller's has no channel.
     */
    method PlayMusic(musicInput: string, newVoiceState: VoiceState, isValidUrl: string -> bool,
                     run: string -> IndexerRun, found: Option<VoiceState>)
      returns (message: Option<string>, thrown: bool)
      modifies this, bot, musicQueue
      ensures var music := GetMusicInfo(SearchTarget(musicInput, isValidUrl), run);
        && (message.Some? <==> music.Some? && !thrown)
        && (message.Some? ==> message == Some(AddedMessage(music.value)))
        && (old(IsPlayingMusic()) ==>
              !thrown && musicQueue.items == old(musicQueue.items) + (if music.Some? then [music.value] else []))
        && (!old(IsPlayingMusic()) ==>
              musicQueue.items == (if music.Some? then [music.value] else []))
      ensures var music := GetMusicInfo(SearchTarget(musicInput, isValidUrl), run);
        var current := CachedOr(old(bot.voiceState), found);
        && (thrown <==> !old(IsPlayingMusic()) && music.Some? && current.None? && newVoiceState.channelId.None?
                        && old(bot.voiceClient).None?)
        && (!old(IsPlayingMusic()) && music.Some? && !thrown ==>
              ChannelOf(bot.voiceState) == newVoiceState.channelId && bot.voiceClient.Some?)
      // an idle bot whose lookup fails leaves the channel: default volume, no filters, no voice state
      ensures var music := GetMusicInfo(SearchTarget(musicInput, isValidUrl), run);
        && (!old(IsPlayingMusic()) && music.None? ==>
              && musicVolume == defaultMusicVolume && musicFilters == map[] && bot.voiceState == Option.None
              && (old(bot.voiceState).Some? || found.Some? ==> bot.voiceClient == Option.None))
        && (old(IsPlayingMusic()) || music.Some? ==> musicVolume == old(musicVolume) && musicFilters == old(musicFilters))
      ensures old(IsPlayingMusic()) ==> bot.voiceState == old(bot.voiceState) && bot.voiceClient == old(bot.voiceClient)
      ensures loopType == old(loopType) && isPaused == old(isPaused) && currentMusic == old(currentMusic)
      ensures ytdlpProcess == old(ytdlpProcess) && ffmpegProcess == old(ffmpegProcess)
      ensures playbackCancellationSource == old(playbackCancellationSource) && defaultMusicVolume == old(defaultMusicVolume)
    {
      thrown := false;
      if !IsPlayingMusic() {
        musicQueue.Clear();
        var queueMessage := AddMusicToQueue(musicInput, isValidUrl, run);
        if queueMessage.None? {
          LeaveVoiceChannel(found);
          return Option.None, false;
        }
        thrown := MoveToChannel(newVoiceState, found);
        if thrown {
          return Option.None, true;
        }
        message := queueMessage;
      } else {
        message := AddMusicToQueue(musicInput, isValidUrl, run);
      }
    }

    /** The track to play next: `TryPeek` when looping the song, else `TryDequeue`, re-enqueued when looping the queue. */
    method PickNext() returns (picked: Option<MusicQueueItem>)
      modifies musicQueue
      ensures old(musicQueue.items) == [] ==> picked == Option.None && musicQueue.items == []
      ensures old(musicQueue.items) != [] ==>
        picked == Some(old(musicQueue.items)[0]) && musicQueue.items == Advance(old(musicQueue.items), loopType)
    {
      if loopType == CurrentSong {
        picked := musicQueue.TryPeek();
      } else {
        picked := musicQueue.TryDequeue();
      }
      if picked.Some? && loopType == CurrentQueue {
        musicQueue.Enqueue(picked.value);
      }
    }

    /** Starts the two processes for `item` on the argument strings built for it. */
    method StartTrack(item: MusicQueueItem, ffmpeg: string, ytdlp: string)
      modifies this
      ensures currentMusic == Some(item) && currentMusicLocation == 0.0 && IsPlayingMusic()
      ensures ffmpegargs == Some(ffmpeg) && ytdlpargs == Some(ytdlp)
      ensures musicFilters == old(musicFilters) && musicVolume == old(musicVolume) && loopType == old(loopType)
      ensures isPaused == old(isPaused) && defaultMusicVolume == old(defaultMusicVolume)
      ensures playbackCancellationSource == old(playbackCancellationSource)
    {
      currentMusic, ffmpegargs, ytdlpargs := Some(item), Some(ffmpeg), Some(ytdlp);
      ytdlpProcess, ffmpegProcess := Some(ProcessState(false)), Some(ProcessState(false));
      currentMusicLocation := 0.0;
    }

    /** The end of a track: undoes or redoes the queue step when the loop mode changed from `oldLoopType`. */
    method ReconcileQueue(oldLoopType: LoopType, item: MusicQueueItem)
      modifies musicQueue
      ensures musicQueue.items == Reconcile(old(musicQueue.items), oldLoopType, loopType, item)
    {
      if oldLoopType != loopType {
        match loopType {
          case None =>
            if oldLoopType == CurrentSong {
              var _ := musicQueue.TryDequeue();
            } else if oldLoopType == CurrentQueue {
              var _ := TryRemoveLast(musicQueue);
            }
          case CurrentQueue =>
            musicQueue.Enqueue(item);
          case CurrentSong =>
            AddToFront(musicQueue, item);
        }
      }
    }

    /**
     * One pass of the `StartPlayingMusic` loop: stop what is left of the last track, check
     * the voice connection, pick the next track by loop mode, start it with the argument
     * strings the helpers build, let the environment play it, and reconcile the queue if the
     * loop mode changed meanwhile. A skip during the track (`run.aborted`) stops it and makes
     * the rest of the body throw, so nothing is reconciled. The `finally` block forgets the
     * track and the cancellation source.
     */
    method PlayNext(run: TrackRun, debug: bool, order: seq<AudioFilter>, fmt: real -> string)
      returns (outcome: Option<Outcome>)
      requires Enumerates(musicFilters, order)
      modifies this, bot, musicQueue
      ensures currentMusic == Option.None && playbackCancellationSource == Option.None
      ensures musicFilters == old(musicFilters) && musicVolume == old(musicVolume)
      ensures var ok := CachedOr(old(bot.voiceState), run.voiceFound).Some? && old(bot.voiceClient).Some?;
        && (!ok ==>
              && outcome == Some(NoVoice) && musicQueue.items == [] && loopType == old(loopType)
              && bot.voiceState == Option.None && bot.voiceClient == Option.None)
        && (ok && old(musicQueue.items) == [] ==>
              outcome == Some(QueueEmptied) && musicQueue.items == [] && loopType == old(loopType))
        && (ok && old(musicQueue.items) != [] ==>
              && outcome == Option.None && musicQueue.items == AfterTrack(old(musicQueue.items), old(loopType), run)
              && loopType == run.loopTypeAtEnd && bot.voiceState.Some? && bot.voiceClient == old(bot.voiceClient))
    {
      ForceStopCurrentMusic();
      playbackCancellationSource := Some(CancellationSource(false));
      var voicestate := bot.GetVoiceState(run.voiceFound);
      if voicestate.None? || bot.voiceClient.None? {
        musicQueue.Clear();
        bot.voiceClient := Option.None;
        bot.voiceState := Option.None;
        currentMusic := Option.None;
        playbackCancellationSource := Option.None;
        return Some(NoVoice);
      }
      outcome := PlayPicked(run, debug, order, fmt);
    }

    /**
     * The rest of the loop body once the voice connection is there: pick, start and play the
     * track, reconcile the queue, and forget the track.
     */
    method PlayPicked(run: TrackRun, debug: bool, order: seq<AudioFilter>, fmt: real -> string)
      returns (outcome: Option<Outcome>)
      requires Enumerates(musicFilters, order)
      modifies this, musicQueue
      ensures currentMusic == Option.None && playbackCancellationSource == Option.None
      ensures musicFilters == old(musicFilters) && musicVolume == old(musicVolume)
      ensures old(musicQueue.items) == [] ==>
        outcome == Some(QueueEmptied) && musicQueue.items == [] && loopType == old(loopType)
      ensures old(musicQueue.items) != [] ==>
        && outcome == Option.None && musicQueue.items == AfterTrack(old(musicQueue.items), old(loopType), run)
        && loopType == run.loopTypeAtEnd
        && ffmpegargs == Some(FfmpegCommand(debug, old(musicVolume), old(musicFilters), order, fmt))
        && ytdlpargs == Some(YtdlpCommand(old(musicQueue.items)[0].fileOrURL))
    {
      var oldLoopType := loopType;
      var currentMusicCached := PickNext();
      if currentMusicCached.None? {
        currentMusic := Option.None;
        playbackCancellationSource := Option.None;
        return Some(QueueEmptied);
      }
      var item := currentMusicCached.value;
      var ffmpeg, ytdlp := TrackArgs(item, debug, musicVolume, musicFilters, order, fmt);
      StartTrack(item, ffmpeg, ytdlp);
      FinishTrack(run, oldLoopType, item);
      outcome := Option.None;
    }

    /**
     * While the track plays the loop command may change the mode; a skip stops the track and
     * makes the rest of the body throw. Otherwise the queue is reconciled. The `finally` block
     * then forgets the track and the cancellation source.
     */
    method FinishTrack(run: TrackRun, oldLoopType: LoopType, item: MusicQueueItem)
      modifies this, musicQueue
      ensures loopType == run.loopTypeAtEnd && currentMusic == Option.None && playbackCancellationSource == Option.None
      ensures musicQueue.items == if run.aborted then old(musicQueue.items)
                                  else Reconcile(old(musicQueue.items), oldLoopType, run.loopTypeAtEnd, item)
      ensures musicFilters == old(musicFilters) && musicVolume == old(musicVolume)
      ensures ffmpegargs == old(ffmpegargs) && ytdlpargs == old(ytdlpargs)
    {
      loopType := run.loopTypeAtEnd;
      if run.aborted {
        ForceStopCurrentMusic();
      } else {
        ReconcileQueue(oldLoopType, item);
      }
      currentMusic := Option.None;
      playbackCancellationSource := Option.None;
    }

    /**
     * `StartPlayingMusic` over the tracks the environment plays: the queue and loop mode end
     * as `Played` says; when the queue runs out the bot leaves the voice channel, resetting
     * volume and filters.
     */
    method StartPlayingMusic(runs: seq<TrackRun>, debug: bool, order: seq<AudioFilter>, fmt: real -> string,
                             leaveFound: Option<VoiceState>)
      returns (outcome: Outcome)
      requires Enumerates(musicFilters, order)
      modifies this, bot, musicQueue
      ensures var s := Played(old(musicQueue.items), old(loopType), old(bot.voiceState).Some?, old(bot.voiceClient).Some?, runs);
        && outcome == s.outcome && musicQueue.items == s.queue && loopType == s.loopType
      ensures old(musicQueue.items) != [] && runs != [] ==> currentMusic == Option.None
      ensures outcome == QueueEmptied ==> musicVolume == defaultMusicVolume && musicFilters == map[] && bot.voiceState == Option.None
      ensures outcome == NoVoice ==> bot.voiceState == Option.None && bot.voiceClient == Option.None
    {
      var noVoice := PlayTracks(runs, debug, order, fmt);
      if noVoice {
        return NoVoice;
      }
      if musicQueue.IsEmpty() {
        LeaveVoiceChannel(leaveFound);
        outcome := QueueEmptied;
      } else {
        outcome := RunsUsed;
      }
    }

    /** The `while` loop of `StartPlayingMusic`; `noVoice` when it stopped for want of a voice connection. */
    method PlayTracks(runs: seq<TrackRun>, debug: bool, order: seq<AudioFilter>, fmt: real -> string)
      returns (noVoice: bool)
      requires Enumerates(musicFilters, order)
      modifies this, bot, musicQueue
      ensures var s := Played(old(musicQueue.items), old(loopType), old(bot.voiceState).Some?, old(bot.voiceClient).Some?, runs);
        && (noVoice <==> s.outcome == NoVoice) && musicQueue.items == s.queue && loopType == s.loopType
      ensures old(musicQueue.items) != [] && runs != [] ==> currentMusic == Option.None
      ensures noVoice ==> bot.voiceState == Option.None && bot.voiceClient == Option.None
    {
      var t := 0;
      ghost var cached := bot.voiceState.Some?;
      ghost var open := bot.voiceClient.Some?;
      noVoice := false;
      while !musicQueue.IsEmpty() && t < |runs|
        invariant 0 <= t <= |runs|
        invariant Enumerates(musicFilters, order)
        invariant t > 0 ==> currentMusic == Option.None
        invariant t == 0 ==> musicQueue.items == old(musicQueue.items)
        invariant open == bot.voiceClient.Some?
        invariant (cached || t > 0) == bot.voiceState.Some?
        invariant Played(old(musicQueue.items), old(loopType), cached, open, runs)
               == Played(musicQueue.items, loopType, bot.voiceState.Some?, open, runs[t..])
        decreases |runs| - t
      {
        ghost var queue, mode, cachedNow := musicQueue.items, loopType, bot.voiceState.Some?;
        var step := PlayNext(runs[t], debug, order, fmt);
        if step.Some? {
          PlayedAt(queue, mode, cachedNow, open, runs, t, []);
          assert step == Some(NoVoice);
          return true;
        }
        PlayedAt(queue, mode, cachedNow, open, runs, t, musicQueue.items);
        t := t + 1;
      }
    }
  }

  /** What yt-dlp is asked for: the URL itself, or a search for anything else. */
  function SearchTarget(musicInput: string, isValidUrl: string -> bool): (r: string)
    ensures isValidUrl(musicInput) ==> r == musicInput
    ensures !isValidUrl(musicInput) ==> r == DefaultSearchOption + musicInput && r[..|DefaultSearchOption|] == DefaultSearchOption
  {
    if isValidUrl(musicInput) then musicInput else DefaultSearchOption + musicInput
  }

  /** The ffmpeg command line of a playback: from ffmpeg's stdin to its stdout. */
  function FfmpegCommand(debug: bool, volume: real, filters: map<AudioFilter, MusicFilter>, order: seq<AudioFilter>,
                         fmt: real -> string): string
    requires Enumerates(filters, order)
  {
    CommandLine(FfmpegLines(debug, Some("pipe:0"), fmt(volume), ActiveExpressions(Some(filters), order, fmt), Some("pipe:1")))
  }

  /** The yt-dlp command line of a playback: the whole playlist, in order. */
  function YtdlpCommand(track: string): string {
    CommandLine(YtdlpLines(track, false, true))
  }

  /** The argument strings `StartPlayingMusic` starts ffmpeg and yt-dlp with for `item`. */
  method TrackArgs(item: MusicQueueItem, debug: bool, volume: real, filters: map<AudioFilter, MusicFilter>,
                   order: seq<AudioFilter>, fmt: real -> string)
    returns (ffmpeg: string, ytdlp: string)
    requires Enumerates(filters, order)
    ensures ffmpeg == FfmpegCommand(debug, volume, filters, order, fmt)
    ensures ytdlp == YtdlpCommand(item.fileOrURL)
  {
    ffmpeg := BuildFfmpegArgs(debug, Some("pipe:0"), Some("pipe:1"), volume, Some(filters), order, fmt);
    ytdlp := BuildYtdlpArgs(item.fileOrURL);
  }

  /** What `GetVoiceState` returns: the cached state, or else the guild's. */
  function CachedOr(cached: Option<VoiceState>, found: Option<VoiceState>): Option<VoiceState> {
    if cached.Some? then cached else found
  }

  /** A process that was started and has not exited. */
  predicate Running(p: Option<ProcessState>) {
    p.Some? && !p.value.hasExited
  }

  /** `state?.ChannelId`: no channel when there is no state. */
  function ChannelOf(state: Option<VoiceState>): Option<nat> {
    if state.Some? then state.value.channelId else Option.None
  }

  /** The reply for an added track: a Markdown link to it. */
  function AddedMessage(music: MusicQueueItem): (r: string)
    ensures var link := "[" + music.songName + "](" + music.fileOrURL + ")";
      |r| > |link| && r[..|link|] == link && r[|link|..] == " was added to the queue!"
  {
    var link := "[" + music.songName + "](" + music.fileOrURL + ")";
    var tail := " was added to the queue!";
    assert (link + tail)[..|link|] == link && (link + tail)[|link|..] == tail;
    link + tail
  }

  /** `new MusicBot(...)`: field initialisers, then registration under (guild, `MusicBot`); `None` where it throws. */
  method Create(registry: BotRegistry<MusicBot>, guildId: nat) returns (r: Option<MusicBot>)
    modifies registry
    ensures r.Some? <==> Lookup(old(registry.allBots), guildId, Music).None?
    ensures r.Some? ==> fresh(r.value) && Some(registry.allBots) == Added(old(registry.allBots), guildId, Music, r.value)
    ensures r.Some? ==> r.value.musicQueue.items == [] && r.value.loopType == LoopType.None && !r.value.IsPlayingMusic()
    ensures r.None? ==> registry.allBots == old(registry.allBots)
  {
    var musicBot := new MusicBot(guildId);
    var added := registry.Register(guildId, Music, musicBot);
    r := if added then Some(musicBot) else Option.None;
  }
}
