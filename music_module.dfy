/**
 * MusicModule.cs: the slash commands' decisions and the state they change on the guild's
 * music bot. Every command starts from `GetOrCreate`; here each takes the bot it found.
 *
 * The replies sent to Discord, the logging and the filter listing are not modelled; a
 * command's outcome is what it returns. `Random.Next` is a nondeterministic choice.
 */
module MusicModule {
  import opened Wrappers
  import opened Items
  import opened MusicSettings
  import opened Queues
  import opened Bots
  import opened Globals
  import opened MusicBots

  /**
   * `Bot.GetBot<MusicBot>(guild) ?? new MusicBot(...)`: the registered bot, or a new one,
   * which registers itself because the guild has none yet.
   */
  method GetOrCreate(registry: BotRegistry<MusicBot>, guildId: nat) returns (musicBot: MusicBot)
    modifies registry
    ensures Lookup(registry.allBots, guildId, Music) == Some(musicBot)
    ensures Lookup(old(registry.allBots), guildId, Music).Some? ==> registry.allBots == old(registry.allBots)
    ensures Lookup(old(registry.allBots), guildId, Music).None? ==>
      && fresh(musicBot) && Some(registry.allBots) == Added(old(registry.allBots), guildId, Music, musicBot)
      && musicBot.musicQueue.items == [] && !musicBot.IsPlayingMusic()
  {
    var found := registry.GetBot(guildId, Music);
    if found.Some? {
      return found.value;
    }
    var created := Create(registry, guildId);
    musicBot := created.value;
  }

  // ---------------------------------------------------------------- volume

  /**
   * The volume the `volume` command stores, or `None` when it changes nothing: no argument,
   * a negative value, or, for anyone but a configured author, more than the maximum.
   */
  function NewVolume(volume: Option<int>, author: nat, userId: nat): (r: Option<real>)
    ensures r.Some? ==> volume.Some? && r.value == volume.value as real / 100.0 && 0.0 <= r.value
    ensures r.Some? && author != NoAuthor && userId != author ==> r.value <= BotMusicMaxVolume as real / 100.0
    ensures volume.Some? && 0 <= volume.value <= BotMusicMaxVolume ==> r.Some?
    ensures volume.Some? && 0 <= volume.value && (author == NoAuthor || userId == author) ==> r.Some?
  {
    if volume.None? then Option.None
    else if author != NoAuthor && userId != author then
      if volume.value < 0 || volume.value > BotMusicMaxVolume then Option.None
      else Some(volume.value as real / 100.0)
    else if volume.value < 0 then Option.None
    else Some(volume.value as real / 100.0)
  }

  /** The `volume` command: a percentage stored as a fraction; only the volume may change. */
  method VolumeCommand(musicBot: MusicBot, volume: Option<int>, author: nat, userId: nat) returns (accepted: bool)
    modifies musicBot`musicVolume
    ensures accepted <==> NewVolume(volume, author, userId).Some?
    ensures accepted ==> musicBot.musicVolume == NewVolume(volume, author, userId).value
    ensures !accepted ==> musicBot.musicVolume == old(musicBot.musicVolume)
  {
    if volume.None? {
      return false;
    }
    if author != NoAuthor && userId != author {
      if volume.value < 0 || volume.value > BotMusicMaxVolume {
        return false;
      }
      musicBot.musicVolume := volume.value as real / 100.0;
      return true;
    }
    if volume.value < 0 {
      return false;
    }
    musicBot.musicVolume := volume.value as real / 100.0;
    accepted := true;
  }

  /** Without an author configured, nobody is held to the maximum; with one, only the author is not. */
  lemma VolumeLimitAppliesToOthers(v: int, author: nat, userId: nat)
    requires v > BotMusicMaxVolume
    ensures NewVolume(Some(v), author, userId).Some? <==> author == NoAuthor || userId == author
  {
  }

  // ---------------------------------------------------------------- filters

  /** Each kind's factory with its default parameters. */
  function DefaultFilter(filter: AudioFilter): MusicFilter {
    match filter
    case BassBost => BassFilter()
    case Pitch => PitchFilter()
    case Tempo => TempoFilter()
    case Nightcore => NightcoreFilter()
    case Slowdown => SlowdownFilter()
    case Reverb => ReverbFilter()
    case Chorus => ChorusFilter()
    case Distortion => DistortionFilter()
    case Flanger => FlangerFilter()
    case Tremolo => TremoloFilter()
    case Vibrato => VibratoFilter()
    case Phaser => PhaserFilter()
  }

  /**
   * The filter the `filter` command builds: each default parameter scaled by the strength, the
   * bass gain by ten times the strength; Tremolo and Vibrato scale only their depth and keep the
   * default frequency. Distortion, Flanger and Phaser take no strength.
   */
  function MakeFilter(filter: AudioFilter, strength: Option<real>): (f: MusicFilter)
    ensures f.Valid() && f.strength == Option.None
    ensures f.filterName == DefaultFilter(filter).filterName
    ensures strength.None? ==> f == DefaultFilter(filter)
  {
    if strength.None? then DefaultFilter(filter)
    else
      var s := strength.value;
      match filter
      case BassBost => BassFilter(s * 10.0)
      case Pitch => PitchFilter(s * 1.0)
      case Tempo => TempoFilter(s * 1.0)
      case Nightcore => NightcoreFilter(s * 1.15, s * 1.25)
      case Slowdown => SlowdownFilter(s * 0.83, s * 0.87)
      case Reverb => ReverbFilter(s * 0.8, s * 0.9, s * 1000.0, s * 0.3)
      case Chorus => ChorusFilter(s * 0.5, s * 0.9, s * 60.0, s * 0.4, s * 0.25, s * 2.0)
      case Distortion => DistortionFilter()
      case Flanger => FlangerFilter()
      case Tremolo => TremoloFilter(depth := s * 0.8)
      case Vibrato => VibratoFilter(depth := s * 0.1)
      case Phaser => PhaserFilter()
  }

  /** Distortion, Flanger and Phaser come out the same whatever the strength. */
  lemma StrengthIgnoredWhereFixed(filter: AudioFilter, strength: Option<real>)
    requires filter in {Distortion, Flanger, Phaser}
    ensures MakeFilter(filter, strength) == DefaultFilter(filter)
  {
  }

  /** The scale factors are the defaults: strength 1 builds exactly the default filter. */
  lemma UnitStrengthIsDefault(filter: AudioFilter)
    ensures MakeFilter(filter, Some(1.0)) == DefaultFilter(filter)
  {
  }

  /** Tremolo keeps the default frequency of 5 and scales only the depth, clamped to [0, 1]. */
  lemma TremoloScalesDepth(s: real)
    ensures MakeFilter(Tremolo, Some(s)).musicFilter.holes == [Float(5.0), Float(Clamp(s * 0.8, 0.0, 1.0))]
  {
  }

  /** Vibrato, likewise, from its default depth of 0.1. */
  lemma VibratoScalesDepth(s: real)
    ensures MakeFilter(Vibrato, Some(s)).musicFilter.holes == [Float(5.0), Float(Clamp(s * 0.1, 0.0, 1.0))]
  {
  }

  /** The bass boost's gain is ten times the strength. */
  lemma BassGainScales(s: real)
    ensures MakeFilter(BassBost, Some(s)).musicFilter.holes[0] == Float(10.0 * s)
  {
  }

  /** The filter as stored: built, then given the strength, 1 when none was given. */
  function Configured(filter: AudioFilter, strength: Option<real>): (f: MusicFilter)
    ensures f.Valid() && f.strength == Some(strength.GetOr(1.0))
    ensures f.filterName == DefaultFilter(filter).filterName
    ensures f.musicFilter == MakeFilter(filter, strength).musicFilter
  {
    MakeFilter(filter, strength).(strength := Some(strength.GetOr(1.0)))
  }

  /**
   * The filters after the `filter` command for `filter`: an active filter of that kind is
   * switched off, otherwise it is switched on. No other kind is touched.
   */
  function Toggled(filters: map<AudioFilter, MusicFilter>, filter: AudioFilter, strength: Option<real>)
    : (r: map<AudioFilter, MusicFilter>)
    ensures filter in r <==> filter !in filters
    ensures filter in r ==> r[filter] == Configured(filter, strength)
    ensures forall k :: k != filter ==> (k in r <==> k in filters)
    ensures forall k :: k != filter && k in r ==> r[k] == filters[k]
  {
    if filter in filters then filters - {filter} else filters[filter := Configured(filter, strength)]
  }

  /** Switching a filter on and then off again leaves the filters as they were. */
  lemma ToggleOnOff(filters: map<AudioFilter, MusicFilter>, filter: AudioFilter, strength: Option<real>, again: Option<real>)
    requires filter !in filters
    ensures Toggled(Toggled(filters, filter, strength), filter, again) == filters
  {
    var r := Toggled(Toggled(filters, filter, strength), filter, again);
    assert r.Keys == filters.Keys;
  }

  /**
   * The `filter` command with a kind given; without one it only lists the active filters.
   * `enabled` says whether the kind is now on.
   */
  method FilterCommand(musicBot: MusicBot, filter: Option<AudioFilter>, strength: Option<real>)
    returns (enabled: Option<bool>)
    modifies musicBot`musicFilters
    ensures filter.None? ==> enabled == Option.None && musicBot.musicFilters == old(musicBot.musicFilters)
    ensures filter.Some? ==> && musicBot.musicFilters == Toggled(old(musicBot.musicFilters), filter.value, strength)
                             && enabled == Some(filter.value in musicBot.musicFilters)
  {
    if filter.None? {
      return Option.None;
    }
    var musicFilter := MakeFilter(filter.value, strength);
    musicFilter := musicFilter.(strength := Some(strength.GetOr(1.0)));
    if musicBot.musicFilters != map[] && filter.value in musicBot.musicFilters {
      musicBot.musicFilters := musicBot.musicFilters - {filter.value};
      return Some(false);
    }
    musicBot.musicFilters := musicBot.musicFilters[filter.value := musicFilter];
    enabled := Some(true);
  }

  // ---------------------------------------------------------------- loop

  /** The `loop` command's new mode: the one given, or else a toggle between None and CurrentSong. */
  function NextLoopType(current: LoopType, requested: Option<LoopType>): (r: LoopType)
    ensures requested.Some? ==> r == requested.value
    ensures requested.None? ==> r != CurrentQueue && (r == LoopType.None <==> current != LoopType.None)
  {
    if requested.Some? then requested.value
    else if current == LoopType.None then CurrentSong else LoopType.None
  }

  /** Toggling twice from any mode ends in the song loop or without a loop, never back in the queue loop. */
  lemma LoopToggleTwice(current: LoopType)
    ensures NextLoopType(NextLoopType(current, Option.None), Option.None)
         == (if current == LoopType.None then LoopType.None else CurrentSong)
  {
  }

  method LoopCommand(musicBot: MusicBot, requested: Option<LoopType>)
    modifies musicBot`loopType
    ensures musicBot.loopType == NextLoopType(old(musicBot.loopType), requested)
  {
    var loopType := if requested.Some? then requested.value
                    else if musicBot.loopType == LoopType.None then CurrentSong else LoopType.None;
    musicBot.loopType := loopType;
  }

  // ---------------------------------------------------------------- the queue view

  const EntriesPerPage: nat := 10

  /** One page of the `queue` command: its number, the number of pages, the entries it lists. */
  datatype Page = Page(page: nat, pageCount: nat, entries: seq<MusicQueueItem>)

  /**
   * The `queue` command: nothing when the queue is empty; otherwise `Count / 10` pages (at
   * least one), the requested page capped at the last, and that page's entries in order.
   */
  function QueuePage(items: seq<MusicQueueItem>, page: int): (r: Option<Page>)
    requires page >= 1
    ensures r.None? <==> items == []
    // the page count: one page for fewer than ten tracks, otherwise the number of whole pages
    ensures r.Some? ==> && 1 <= r.value.pageCount
                        && (|items| < EntriesPerPage ==> r.value.pageCount == 1)
                        && (|items| >= EntriesPerPage ==>
                              r.value.pageCount * EntriesPerPage <= |items| < (r.value.pageCount + 1) * EntriesPerPage)
    // the page shown: the requested one, or the last when it asks for more
    ensures r.Some? ==> && (page <= r.value.pageCount ==> r.value.page == page)
                        && (page > r.value.pageCount ==> r.value.page == r.value.pageCount)
    // the entries: a full page of ten, or what is left of the queue after the earlier pages
    ensures r.Some? ==> && 0 < |r.value.entries| <= EntriesPerPage
                        && (r.value.page - 1) * EntriesPerPage + |r.value.entries| <= |items|
                        && (|r.value.entries| < EntriesPerPage ==>
                              (r.value.page - 1) * EntriesPerPage + |r.value.entries| == |items|)
    ensures r.Some? ==> forall j :: 0 <= j < |r.value.entries| ==>
      r.value.entries[j] == items[(r.value.page - 1) * EntriesPerPage + j]
  {
    if items == [] then Option.None
    else
      var pageCount := if |items| / EntriesPerPage < 1 then 1 else |items| / EntriesPerPage;
      var shown := if page > pageCount then pageCount else page;
      var startIndex := (shown - 1) * EntriesPerPage;
      var endIndex := if |items| < startIndex + EntriesPerPage then |items| else startIndex + EntriesPerPage;
      Some(Page(shown, pageCount, items[startIndex..endIndex]))
  }

  /** Page 1 lists the queue from its head. */
  lemma FirstPageFromHead(items: seq<MusicQueueItem>)
    requires items != []
    ensures QueuePage(items, 1).value.entries == items[..if |items| < EntriesPerPage then |items| else EntriesPerPage]
  {
  }

  /** Consecutive pages list consecutive runs of the queue: page p + 1 starts where page p ends. */
  lemma {:induction false} NextPageContinues(items: seq<MusicQueueItem>, page: int)
    requires items != [] && page >= 1 && page + 1 <= QueuePage(items, page).value.pageCount
    ensures var p := QueuePage(items, page).value;
      var q := QueuePage(items, page + 1).value;
      && p.page == page && q.page == page + 1
      && |p.entries| == EntriesPerPage
      && p.entries + q.entries == items[(page - 1) * EntriesPerPage .. (page - 1) * EntriesPerPage + |p.entries| + |q.entries|]
  {
    var p := QueuePage(items, page).value;
    var q := QueuePage(items, page + 1).value;
    var start := (page - 1) * EntriesPerPage;
    assert p.pageCount == q.pageCount;
    assert |p.entries| == EntriesPerPage;
    var all := items[start .. start + |p.entries| + |q.entries|];
    forall j | 0 <= j < |p.entries| + |q.entries|
      ensures (p.entries + q.entries)[j] == all[j]
    {
      if j >= |p.entries| {
        assert q.entries[j - |p.entries|] == items[page * EntriesPerPage + (j - |p.entries|)];
      }
    }
  }

  /**
   * The page count rounds down: once the queue holds ten or more tracks, the last
   * `Count % 10` of them are on no page at all.
   */
  lemma TailBeyondLastPage(items: seq<MusicQueueItem>, page: int)
    requires |items| >= EntriesPerPage && page >= 1
    ensures var p := QueuePage(items, page).value;
      (p.page - 1) * EntriesPerPage + |p.entries| <= |items| - |items| % EntriesPerPage
  {
  }

  // ---------------------------------------------------------------- rewriting the queue

  /** `Clear`, then `Enqueue` of every item in order. */
  method Refill(queue: ConcurrentQueue<MusicQueueItem>, items: seq<MusicQueueItem>)
    modifies queue
    ensures queue.items == items
  {
    queue.Clear();
    for k := 0 to |items|
      invariant queue.items == items[..k]
    {
      queue.Enqueue(items[k]);
    }
  }

  /** How the `shuffle` command ended. */
  datatype ShuffleOutcome = EmptyQueue | SingleItem | Shuffled

  /**
   * The `shuffle` command: Fisher-Yates over a copy of the queue, from the last position
   * down, each swapped with a position at or before it; then the queue is rebuilt from the
   * copy. An empty or one-item queue is left alone.
   */
  method ShuffleCommand(musicBot: MusicBot) returns (outcome: ShuffleOutcome)
    modifies musicBot.musicQueue
    ensures old(musicBot.musicQueue.items) == [] ==> outcome == EmptyQueue && musicBot.musicQueue.items == []
    ensures |old(musicBot.musicQueue.items)| == 1 ==> outcome == SingleItem && musicBot.musicQueue.items == old(musicBot.musicQueue.items)
    ensures |old(musicBot.musicQueue.items)| > 1 ==> outcome == Shuffled
    ensures |musicBot.musicQueue.items| == |old(musicBot.musicQueue.items)|
    ensures multiset(musicBot.musicQueue.items) == multiset(old(musicBot.musicQueue.items))
  {
    var queue := musicBot.musicQueue;
    if queue.IsEmpty() {
      return EmptyQueue;
    }
    if queue.Count() == 1 {
      return SingleItem;
    }
    var items := queue.items;
    var i := |items| - 1;
    while i > 0
      invariant 0 <= i < |items| == |queue.items|
      invariant multiset(items) == multiset(queue.items)
    {
      var j :| 0 <= j <= i;
      items := items[i := items[j]][j := items[i]];
      i := i - 1;
    }
    Refill(queue, items);
    outcome := Shuffled;
  }

  /**
   * The queue after `remove` with a 1-based index: refused (`None`) unless the index is below
   * `Count`, so the last item can never be removed; otherwise the item at `index - 1` goes
   * and the others keep their order.
   */
  function RemovedAt(items: seq<MusicQueueItem>, queueItemIndex: int): (r: Option<seq<MusicQueueItem>>)
    requires queueItemIndex >= 1
    ensures r.None? <==> |items| <= queueItemIndex
    ensures r.Some? ==> |r.value| == |items| - 1
    ensures r.Some? ==> forall j :: 0 <= j < |r.value| ==> r.value[j] == if j < queueItemIndex - 1 then items[j] else items[j + 1]
    ensures r.Some? ==> multiset(r.value) + multiset{items[queueItemIndex - 1]} == multiset(items)
  {
    if |items| <= queueItemIndex then Option.None
    else
      var k := queueItemIndex - 1;
      assert items == items[..k] + [items[k]] + items[k + 1..];
      Some(items[..k] + items[k + 1..])
  }

  /** The last track stays in the queue whatever the index given. */
  lemma LastItemStays(items: seq<MusicQueueItem>, queueItemIndex: int)
    requires queueItemIndex >= 1 && RemovedAt(items, queueItemIndex).Some?
    ensures var r := RemovedAt(items, queueItemIndex).value;
      r != [] && r[|r| - 1] == items[|items| - 1]
  {
    var r := RemovedAt(items, queueItemIndex).value;
    assert r[|r| - 1] == items[|r|];
  }

  /** The `remove` command: a copy of the queue loses the item, then the queue is rebuilt from it. */
  method RemoveCommand(musicBot: MusicBot, queueItemIndex: int) returns (removed: bool)
    requires queueItemIndex >= 1
    modifies musicBot.musicQueue
    ensures var r := RemovedAt(old(musicBot.musicQueue.items), queueItemIndex);
      && (removed <==> r.Some?)
      && musicBot.musicQueue.items == (if r.Some? then r.value else old(musicBot.musicQueue.items))
  {
    var queue := musicBot.musicQueue;
    if queue.Count() <= queueItemIndex {
      return false;
    }
    var items := queue.items;
    var k := queueItemIndex - 1;
    items := items[..k] + items[k + 1..];
    Refill(queue, items);
    removed := true;
  }

  /** The `clear` command. */
  method ClearCommand(musicBot: MusicBot)
    modifies musicBot.musicQueue
    ensures musicBot.musicQueue.items == []
  {
    musicBot.musicQueue.Clear();
  }

  // ---------------------------------------------------------------- playback guards

  /** The `pause` command: only a playing, unpaused bot is paused, and only its pause flag changes; otherwise nothing changes. */
  method PauseCommand(musicBot: MusicBot) returns (paused: bool)
    modifies musicBot`isPaused
    ensures paused <==> old(musicBot.IsPlayingMusic()) && !old(musicBot.isPaused)
    ensures paused ==> musicBot.isPaused && musicBot.IsPlayingMusic() && musicBot.loopType == old(musicBot.loopType)
    ensures !paused ==> unchanged(musicBot)
  {
    if !musicBot.IsPlayingMusic() {
      return false;
    } else if musicBot.isPaused {
      return false;
    }
    musicBot.PausePlayback();
    paused := true;
  }

  /** The `resume` command: only a playing, paused bot is resumed, and only its pause flag changes; otherwise nothing changes. */
  method ResumeCommand(musicBot: MusicBot) returns (resumed: bool)
    modifies musicBot`isPaused
    ensures resumed <==> old(musicBot.IsPlayingMusic()) && old(musicBot.isPaused)
    ensures resumed ==> !musicBot.isPaused && musicBot.IsPlayingMusic() && musicBot.loopType == old(musicBot.loopType)
    ensures !resumed ==> unchanged(musicBot)
  {
    if !musicBot.IsPlayingMusic() {
      return false;
    } else if !musicBot.isPaused {
      return false;
    }
    musicBot.ResumePlayback();
    resumed := true;
  }

  /**
   * The `skip` command: a playing track is stopped, which touches only the track, the two processes
   * and the cancellation source; with none playing nothing changes.
   */
  method SkipCommand(musicBot: MusicBot) returns (skipped: bool)
    modifies musicBot`currentMusic, musicBot`ytdlpProcess, musicBot`ffmpegProcess, musicBot`playbackCancellationSource
    ensures skipped <==> old(musicBot.IsPlayingMusic())
    ensures skipped ==> musicBot.Stopped() && !musicBot.IsPlayingMusic() && musicBot.loopType == old(musicBot.loopType)
    ensures !skipped ==> unchanged(musicBot)
  {
    if !musicBot.IsPlayingMusic() {
      return false;
    }
    musicBot.ForceStopCurrentMusic();
    skipped := true;
  }
}
