/**
 * MusicBot.cs, the loop-mode state machine of `StartPlayingMusic`: how the step that picks a
 * track and the reconciliation after it change the queue, over a whole session of tracks.
 */
module LoopModes {
  import opened Wrappers
  import opened Items
  import opened MusicSettings
  import opened HelperQueue
  import opened Bots

  /**
   * The queue after the step that picks the next track (its head): `CurrentSong` only peeks,
   * `None` dequeues, `CurrentQueue` dequeues and enqueues the track again at the tail.
   */
  function Advance(queue: seq<MusicQueueItem>, mode: LoopType): (r: seq<MusicQueueItem>)
    requires queue != []
    ensures |r| == if mode == LoopType.None then |queue| - 1 else |queue|
  {
    match mode
    case CurrentSong => queue
    case None => queue[1..]
    case CurrentQueue => queue[1..] + [queue[0]]
  }

  /**
   * Only `None` lets go of the track it plays; the other modes keep every track, and looping
   * the queue moves the played one from the head to the tail.
   */
  lemma AdvanceKeepsTracks(queue: seq<MusicQueueItem>, mode: LoopType)
    requires queue != []
    ensures mode == LoopType.None ==> multiset(Advance(queue, mode)) + multiset{queue[0]} == multiset(queue)
    ensures mode != LoopType.None ==> multiset(Advance(queue, mode)) == multiset(queue)
    ensures mode == CurrentQueue ==> Advance(queue, mode)[|queue| - 1] == queue[0] && Advance(queue, mode)[..|queue| - 1] == queue[1..]
  {
    assert queue == [queue[0]] + queue[1..];
  }

  /** What `ConcurrentQueueTryRemoveLast` leaves. */
  function DropLast(queue: seq<MusicQueueItem>): seq<MusicQueueItem> {
    if queue == [] then [] else queue[..|queue| - 1]
  }

  /**
   * The queue after a track during which the loop mode changed from `oldMode` to `newMode`:
   * switching to `None` undoes the peek (dequeue the head) or the re-enqueue (drop the last
   * item), switching to `CurrentQueue` enqueues the track at the tail, switching to
   * `CurrentSong` puts it in front with `AddToFront`. Without a change the queue stays.
   */
  function Reconcile(queue: seq<MusicQueueItem>, oldMode: LoopType, newMode: LoopType, item: MusicQueueItem): seq<MusicQueueItem> {
    if oldMode == newMode then queue
    else
      match newMode
      case None =>
        if oldMode == CurrentSong then (if queue == [] then [] else queue[1..])
        else DropLast(queue)
      case CurrentQueue => queue + [item]
      case CurrentSong => [item] + Reverse(queue)
  }

  /**
   * What reconciling does to the tracks: no change of mode leaves the queue; a change to
   * `None` lets go of one track (none of an empty queue); a change to either loop takes the
   * played track back, at the tail for `CurrentQueue` and at the head for `CurrentSong`.
   */
  lemma ReconcileCounts(queue: seq<MusicQueueItem>, oldMode: LoopType, newMode: LoopType, item: MusicQueueItem)
    ensures var r := Reconcile(queue, oldMode, newMode, item);
      && (oldMode == newMode ==> r == queue)
      && (oldMode != newMode && newMode == LoopType.None ==>
            |r| == (if queue == [] then 0 else |queue| - 1) && multiset(r) <= multiset(queue))
      && (oldMode != newMode && newMode != LoopType.None ==>
            |r| == |queue| + 1 && multiset(r) == multiset(queue) + multiset{item})
      && (oldMode != newMode && newMode == CurrentQueue ==> r[|r| - 1] == item)
      && (oldMode != newMode && newMode == CurrentSong ==> r[0] == item)
  {
    if queue != [] {
      assert queue == [queue[0]] + queue[1..];
      assert queue == queue[..|queue| - 1] + [queue[|queue| - 1]];
    }
  }

  /**
   * One track as the environment plays it: what the guild's voice-state cache holds when the
   * track starts, the loop mode when it ends, and whether it was cut short by a skip or by an
   * exception after both processes started (the path that skips the reconciliation).
   */
  datatype TrackRun = TrackRun(voiceFound: Option<VoiceState>, loopTypeAtEnd: LoopType, aborted: bool)

  /** The queue after one track that started from `queue` in loop mode `mode`. */
  function AfterTrack(queue: seq<MusicQueueItem>, mode: LoopType, run: TrackRun): seq<MusicQueueItem>
    requires queue != []
  {
    var advanced := Advance(queue, mode);
    if run.aborted then advanced else Reconcile(advanced, mode, run.loopTypeAtEnd, queue[0])
  }

  /**
   * One track changes the queue's length by at most one, and the only track it can bring in
   * again is the one it played.
   */
  lemma AfterTrackBounds(queue: seq<MusicQueueItem>, mode: LoopType, run: TrackRun)
    requires queue != []
    ensures var r := AfterTrack(queue, mode, run);
      |queue| - 1 <= |r| <= |queue| + 1 && multiset(r) <= multiset(queue) + multiset{queue[0]}
  {
    AdvanceKeepsTracks(queue, mode);
    ReconcileCounts(Advance(queue, mode), mode, run.loopTypeAtEnd, queue[0]);
  }

  /** Why `StartPlayingMusic` returned. */
  datatype Outcome =
    | QueueEmptied  // the loop ran out of tracks, then left the voice channel
    | NoVoice       // not in a voice channel: queue cleared, connection dropped
    | RunsUsed      // every supplied track has been played (the source keeps going)

  datatype Session = Session(queue: seq<MusicQueueItem>, loopType: LoopType, outcome: Outcome)

  /**
   * The `while (!musicQueue.IsEmpty)` loop of `StartPlayingMusic` over the supplied tracks.
   * `cached` is whether a voice state is cached, `open` whether a voice connection exists.
   */
  function Played(queue: seq<MusicQueueItem>, mode: LoopType, cached: bool, open: bool, runs: seq<TrackRun>): (s: Session)
    ensures s.outcome == QueueEmptied ==> s.queue == []
    ensures s.outcome == NoVoice ==> s.queue == []
    ensures s.outcome == RunsUsed ==> s.queue != []
    decreases |runs|
  {
    if queue == [] then Session(queue, mode, QueueEmptied)
    else if runs == [] then Session(queue, mode, RunsUsed)
    else if !((cached || runs[0].voiceFound.Some?) && open) then Session([], mode, NoVoice)
    else Played(AfterTrack(queue, mode, runs[0]), runs[0].loopTypeAtEnd, true, open, runs[1..])
  }

  /**
   * Track `t` of a session: without a voice connection the session ends with an empty queue,
   * otherwise it goes on with the tracks after `t` from `next`, the queue that track left.
   */
  lemma PlayedAt(queue: seq<MusicQueueItem>, mode: LoopType, cached: bool, open: bool, runs: seq<TrackRun>, t: nat,
                 next: seq<MusicQueueItem>)
    requires queue != [] && t < |runs|
    requires (cached || runs[t].voiceFound.Some?) && open ==> next == AfterTrack(queue, mode, runs[t])
    ensures !((cached || runs[t].voiceFound.Some?) && open) ==> Played(queue, mode, cached, open, runs[t..]) == Session([], mode, NoVoice)
    ensures (cached || runs[t].voiceFound.Some?) && open ==>
      Played(queue, mode, cached, open, runs[t..]) == Played(next, runs[t].loopTypeAtEnd, true, open, runs[t + 1..])
  {
    assert runs[t..][0] == runs[t] && runs[t..][1..] == runs[t + 1..];
  }

  /**
   * Three of the mode changes leave the queue exactly as if the new mode had been in force
   * when the track was picked: CurrentSong to None, CurrentQueue to None, None to CurrentQueue.
   */
  lemma ReconcileMatchesNewMode(queue: seq<MusicQueueItem>, run: TrackRun, oldMode: LoopType)
    requires queue != [] && !run.aborted
    requires (oldMode, run.loopTypeAtEnd) in {(CurrentSong, LoopType.None), (CurrentQueue, LoopType.None), (LoopType.None, CurrentQueue)}
    ensures AfterTrack(queue, oldMode, run) == Advance(queue, run.loopTypeAtEnd)
  {
    if oldMode == CurrentQueue {
      var advanced := queue[1..] + [queue[0]];
      assert DropLast(advanced) == queue[1..];
    }
  }

  /**
   * Switching from CurrentSong to CurrentQueue enqueues a track that the peek never removed:
   * it is in the queue twice afterwards, once more than the rotation of CurrentQueue keeps.
   */
  lemma SongToQueueDuplicates(queue: seq<MusicQueueItem>, run: TrackRun)
    requires queue != [] && !run.aborted && run.loopTypeAtEnd == CurrentQueue
    ensures AfterTrack(queue, CurrentSong, run) == queue + [queue[0]]
    ensures multiset(AfterTrack(queue, CurrentSong, run))[queue[0]] == multiset(Advance(queue, CurrentQueue))[queue[0]] + 1
  {
    assert queue == [queue[0]] + queue[1..];
  }

  /**
   * Switching from None to CurrentSong puts the track back in front, but `AddToFront` reverses
   * the rest of the queue on the way.
   */
  lemma NoneToSongReverses(queue: seq<MusicQueueItem>, run: TrackRun)
    requires queue != [] && !run.aborted && run.loopTypeAtEnd == CurrentSong
    ensures AfterTrack(queue, LoopType.None, run) == [queue[0]] + Reverse(queue[1..])
    ensures |queue| >= 3 && queue[1] != queue[|queue| - 1] ==> AfterTrack(queue, LoopType.None, run) != queue
  {
    var r := [queue[0]] + Reverse(queue[1..]);
    if |queue| >= 3 && queue[1] != queue[|queue| - 1] {
      ReverseIndex(queue[1..]);
      assert r[1] == queue[|queue| - 1];
    }
  }

  /** Every track of `runs` ends in loop mode `mode`. */
  predicate Steady(runs: seq<TrackRun>, mode: LoopType) {
    forall i :: 0 <= i < |runs| ==> runs[i].loopTypeAtEnd == mode
  }

  /** With the loop off throughout, each track played is dequeued: `n` tracks drop the first `n`. */
  lemma {:induction false} NoLoopDrains(queue: seq<MusicQueueItem>, runs: seq<TrackRun>)
    requires Steady(runs, LoopType.None)
    ensures var s := Played(queue, LoopType.None, true, true, runs);
      && s.queue == queue[if |runs| < |queue| then |runs| else |queue|..]
      && s.loopType == LoopType.None
      && s.outcome == (if |runs| >= |queue| then QueueEmptied else RunsUsed)
    decreases |runs|
  {
    if queue != [] && runs != [] {
      assert AfterTrack(queue, LoopType.None, runs[0]) == queue[1..];
      SteadyTail(runs, LoopType.None);
      NoLoopDrains(queue[1..], runs[1..]);
      var m := if |runs| - 1 < |queue| - 1 then |runs| - 1 else |queue| - 1;
      assert queue[1..][m..] == queue[m + 1..];
    }
  }

  /** Looping the song plays the same track over and over: the queue never changes. */
  lemma {:induction false} SongLoopKeepsQueue(queue: seq<MusicQueueItem>, runs: seq<TrackRun>)
    requires queue != [] && Steady(runs, CurrentSong)
    ensures Played(queue, CurrentSong, true, true, runs) == Session(queue, CurrentSong, RunsUsed)
    decreases |runs|
  {
    if runs != [] {
      SteadyTail(runs, CurrentSong);
      SongLoopKeepsQueue(queue, runs[1..]);
    }
  }

  /** `Steady` holds of every suffix. */
  lemma SteadyTail(runs: seq<TrackRun>, mode: LoopType)
    requires runs != [] && Steady(runs, mode)
    ensures Steady(runs[1..], mode)
  {
    forall i | 0 <= i < |runs[1..]| ensures runs[1..][i].loopTypeAtEnd == mode {
      assert runs[1..][i] == runs[i + 1];
    }
  }

  /** Looping the queue never loses or adds a track, however many tracks are played. */
  lemma {:induction false} QueueLoopKeepsTracks(queue: seq<MusicQueueItem>, runs: seq<TrackRun>)
    requires queue != [] && Steady(runs, CurrentQueue)
    ensures var s := Played(queue, CurrentQueue, true, true, runs);
      && multiset(s.queue) == multiset(queue) && s.loopType == CurrentQueue && s.outcome == RunsUsed
    decreases |runs|
  {
    if runs != [] {
      SteadyTail(runs, CurrentQueue);
      AdvanceKeepsTracks(queue, CurrentQueue);
      QueueLoopKeepsTracks(Advance(queue, CurrentQueue), runs[1..]);
    }
  }

  /** Looping the queue, rotated by `k`, picks its `k`-th track and leaves it rotated by `k + 1`. */
  lemma RotationAdvances(queue: seq<MusicQueueItem>, k: nat)
    requires k < |queue|
    ensures Advance(queue[k..] + queue[..k], CurrentQueue) == queue[k + 1..] + queue[..k + 1]
  {
    var r := queue[k..] + queue[..k];
    assert r[0] == queue[k];
    assert r[1..] == queue[k + 1..] + queue[..k];
    assert queue[..k + 1] == queue[..k] + [queue[k]];
  }

  /** One track of a looped queue, rotated by `k`, leaves it rotated by `k + 1`. */
  lemma QueueLoopStep(queue: seq<MusicQueueItem>, k: nat, runs: seq<TrackRun>)
    requires k < |queue| && runs != [] && runs[0].loopTypeAtEnd == CurrentQueue
    ensures Played(queue[k..] + queue[..k], CurrentQueue, true, true, runs)
         == Played(queue[k + 1..] + queue[..k + 1], CurrentQueue, true, true, runs[1..])
  {
    RotationAdvances(queue, k);
  }

  /** From the rotation by `k`, each further track of a looped queue rotates it by one more. */
  lemma {:induction false} QueueLoopFrom(queue: seq<MusicQueueItem>, k: nat, runs: seq<TrackRun>)
    requires queue != [] && k + |runs| <= |queue| && Steady(runs, CurrentQueue)
    ensures var n := k + |runs|;
      Played(queue[k..] + queue[..k], CurrentQueue, true, true, runs) == Session(queue[n..] + queue[..n], CurrentQueue, RunsUsed)
    decreases |runs|
  {
    if runs != [] {
      QueueLoopStep(queue, k, runs);
      SteadyTail(runs, CurrentQueue);
      QueueLoopFrom(queue, k + 1, runs[1..]);
      assert k + 1 + |runs[1..]| == k + |runs|;
    } else {
      assert |queue[k..] + queue[..k]| == |queue|;
    }
  }

  /**
   * Looping the queue rotates it by one per track: after `n` tracks, at most as many as it
   * holds, the first `n` tracks have moved to the tail in order.
   */
  lemma QueueLoopRotates(queue: seq<MusicQueueItem>, runs: seq<TrackRun>)
    requires queue != [] && |runs| <= |queue| && Steady(runs, CurrentQueue)
    ensures var n := |runs|;
      Played(queue, CurrentQueue, true, true, runs) == Session(queue[n..] + queue[..n], CurrentQueue, RunsUsed)
  {
    assert queue[0..] + queue[..0] == queue;
    QueueLoopFrom(queue, 0, runs);
  }

  /** After exactly as many tracks as it holds, a looped queue is back in its first order. */
  lemma QueueLoopFullTurn(queue: seq<MusicQueueItem>, runs: seq<TrackRun>)
    requires queue != [] && |runs| == |queue| && Steady(runs, CurrentQueue)
    ensures Played(queue, CurrentQueue, true, true, runs) == Session(queue, CurrentQueue, RunsUsed)
  {
    QueueLoopRotates(queue, runs);
    assert queue[|queue|..] + queue[..|queue|] == queue;
  }
}
