/** The transport controls of the footer (src/ui/footer/MediaButtons.tsx):
    now-playing / next / previous derived from the current play queue, the
    repeat setting and its button, the taskbar event gating, the button
    disable rules, and the prev / next / play-pause handlers as state changes
    of a `Transport` object that holds the player's flags, the component's
    flags, the cached player state and the log of external calls made. */
module MediaButtons {
  import opened Wrappers
  import opened Timeline

  datatype Track = Track(id: int, duration: int)
  datatype PlayQueueItem = PlayQueueItem(id: int, track: Track)
  /** The server's play queue as cached by the client. */
  datatype PlayQueue = PlayQueue(items: seq<PlayQueueItem>, selectedItemId: int)

  /** The `repeat` field of AppSettings. */
  datatype Repeat = RepeatNone | RepeatOne | RepeatAll

  /** The cached `player-state` record; every field is optional in the source. */
  datatype PlayerState = PlayerState(duration: Option<int>, isPlaying: Option<bool>, position: Option<int>)

  /** JavaScript truthiness of an optional boolean. */
  predicate Truthy(b: Option<bool>) {
    b == Some(true)
  }

  // ---------------------------------------------------------------------------
  // Queue neighbours

  /** `items.findIndex(item => item.id === id)`: the first matching index, or -1. */
  function FindIndex(items: seq<PlayQueueItem>, id: int): (r: int)
    ensures -1 <= r < |items|
    ensures r >= 0 ==> items[r].id == id
    ensures r >= 0 ==> forall j :: 0 <= j < r ==> items[j].id != id
    ensures r == -1 <==> forall j :: 0 <= j < |items| ==> items[j].id != id
  {
    if items == [] then -1
    else if items[0].id == id then 0
    else
      var k := FindIndex(items[1..], id);
      if k == -1 then -1 else k + 1
  }

  /** `items[i]`, which is `undefined` outside the array. */
  function ItemAt(items: seq<PlayQueueItem>, i: int): (r: Option<PlayQueueItem>)
    ensures r.Some? <==> 0 <= i < |items|
    ensures r.Some? ==> r.value == items[i]
  {
    if 0 <= i < |items| then Some(items[i]) else None
  }

  datatype Neighbours = Neighbours(
    nowPlaying: Option<PlayQueueItem>,
    nextTrack: Option<PlayQueueItem>,
    prevTrack: Option<PlayQueueItem>)

  /** The three queue positions the component renders and acts on: none
      without a cached queue, and never a previous track without a
      now-playing item. */
  function QueueNeighbours(q: Option<PlayQueue>): (n: Neighbours)
    ensures q.None? ==> n == Neighbours(None, None, None)
    ensures n.prevTrack.Some? ==> n.nowPlaying.Some?
  {
    match q
    case None => Neighbours(None, None, None)
    case Some(pq) =>
      var i := FindIndex(pq.items, pq.selectedItemId);
      Neighbours(ItemAt(pq.items, i), ItemAt(pq.items, i + 1), ItemAt(pq.items, i - 1))
  }

  /** With the selected item first found at index i, now playing is items[i],
      next exists exactly before the end and previous exactly after the start. */
  lemma NeighboursAtSelected(pq: PlayQueue, i: nat)
    requires i < |pq.items| && pq.items[i].id == pq.selectedItemId
    requires forall j :: 0 <= j < i ==> pq.items[j].id != pq.selectedItemId
    ensures QueueNeighbours(Some(pq)).nowPlaying == Some(pq.items[i])
    ensures QueueNeighbours(Some(pq)).nextTrack.Some? <==> i < |pq.items| - 1
    ensures i < |pq.items| - 1 ==> QueueNeighbours(Some(pq)).nextTrack == Some(pq.items[i + 1])
    ensures QueueNeighbours(Some(pq)).prevTrack.Some? <==> i > 0
    ensures i > 0 ==> QueueNeighbours(Some(pq)).prevTrack == Some(pq.items[i - 1])
  {
  }

  /** When the selected id is not in the queue, findIndex gives -1: nothing is
      playing, there is no previous track, yet the first item counts as next. */
  lemma NeighboursWhenSelectedAbsent(pq: PlayQueue)
    requires forall j :: 0 <= j < |pq.items| ==> pq.items[j].id != pq.selectedItemId
    ensures QueueNeighbours(Some(pq)).nowPlaying == None
    ensures QueueNeighbours(Some(pq)).prevTrack == None
    ensures QueueNeighbours(Some(pq)).nextTrack == if pq.items == [] then None else Some(pq.items[0])
  {
  }

  // ---------------------------------------------------------------------------
  // Repeat

  datatype PlayerFlags = PlayerFlags(loop: bool, singleMode: bool)

  /** What handleRepeat assigns to `player.loop` and `player.singleMode`. */
  function RepeatFlags(value: Repeat): (f: PlayerFlags)
    ensures f.loop <==> value != RepeatNone
    ensures f.singleMode <==> value == RepeatOne
  {
    match value
    case RepeatOne => PlayerFlags(true, true)
    case RepeatNone => PlayerFlags(false, false)
    case RepeatAll => PlayerFlags(true, false)
  }

  /** The flags determine the repeat setting: no two settings share flags. */
  lemma RepeatFlagsInjective(a: Repeat, b: Repeat)
    requires RepeatFlags(a) == RepeatFlags(b)
    ensures a == b
  {
  }

  /** Single mode never runs without looping. */
  lemma SingleModeImpliesLoop(value: Repeat)
    ensures RepeatFlags(value).singleMode ==> RepeatFlags(value).loop
  {
  }

  /** The value the visible repeat button passes to handleRepeat when pressed:
      none -> all -> one -> none. */
  function CycleRepeat(r: Repeat): (n: Repeat)
    ensures n != r
    ensures r == RepeatNone ==> n == RepeatAll
    ensures r == RepeatAll ==> n == RepeatOne
    ensures r == RepeatOne ==> n == RepeatNone
  {
    match r
    case RepeatNone => RepeatAll
    case RepeatAll => RepeatOne
    case RepeatOne => RepeatNone
  }

  /** The repeat button rendered for the stored setting and the value a click
      stores; with no stored setting none of the three buttons renders. */
  function RepeatButtonTarget(setting: Option<Repeat>): (r: Option<Repeat>)
    ensures r.Some? <==> setting.Some?
    ensures setting.Some? ==> r == Some(CycleRepeat(setting.value))
  {
    match setting
    case None => None
    case Some(v) => Some(CycleRepeat(v))
  }

  /** Three presses return to the starting setting, and fewer do not. */
  lemma RepeatCyclePeriod(r: Repeat)
    ensures CycleRepeat(CycleRepeat(CycleRepeat(r))) == r
    ensures CycleRepeat(CycleRepeat(r)) != r
  {
  }

  // ---------------------------------------------------------------------------
  // Prev decision, icons, gating and disable rules

  /** handlePrev cues the current track instead of stepping back exactly when
      there is no previous track or more than five seconds have elapsed. */
  const RestartThresholdMs := 5000

  function Restarts(prevTrack: Option<PlayQueueItem>, currentPositionMs: int): (restart: bool)
    ensures prevTrack.None? ==> restart
    ensures currentPositionMs > RestartThresholdMs ==> restart
    ensures !restart ==> prevTrack.Some? && currentPositionMs <= RestartThresholdMs
  {
    prevTrack.None? || currentPositionMs > RestartThresholdMs
  }

  datatype PlayIcon = StopIcon | PauseIcon | PlayIcon

  /** getPlayIcon: stop while Ctrl/Meta is held over a playing item, else pause
      while playing, else play. */
  function PlayButtonIcon(n: Neighbours, ctrlPress: bool, s: PlayerState): (icon: PlayIcon)
    ensures icon == StopIcon <==> n.nowPlaying.Some? && ctrlPress
    ensures icon == PauseIcon <==> !(n.nowPlaying.Some? && ctrlPress) && Truthy(s.isPlaying)
  {
    if n.nowPlaying.Some? && ctrlPress then StopIcon
    else if Truthy(s.isPlaying) then PauseIcon
    else PlayIcon
  }

  datatype Handler = OnPlayPause | OnPrev | OnNext | Ignored

  /** onEvent: which handler a taskbar event reaches. */
  function TaskbarRoute(event: string, n: Neighbours, disablePrev: bool, disableNext: bool): (h: Handler)
    ensures h == OnPlayPause <==> event == "play-pause" && n.nowPlaying.Some?
    ensures h == OnPrev <==> event == "prev" && !disablePrev
    ensures h == OnNext <==> event == "next" && !disableNext && n.nextTrack.Some?
  {
    if event == "play-pause" && n.nowPlaying.Some? then OnPlayPause
    else if event == "prev" && !disablePrev then OnPrev
    else if event == "next" && !disableNext && n.nextTrack.Some? then OnNext
    else Ignored
  }

  /** Events other than the three names never reach a handler. */
  lemma UnknownEventIgnored(event: string, n: Neighbours, disablePrev: bool, disableNext: bool)
    requires event != "play-pause" && event != "prev" && event != "next"
    ensures TaskbarRoute(event, n, disablePrev, disableNext) == Ignored
  {
  }

  datatype ButtonsDisabled = ButtonsDisabled(shuffle: bool, prev: bool, playPause: bool, next: bool)

  /** The `disabled` props of the four transport buttons. */
  function Disabled(queueId: int, n: Neighbours, disablePrev: bool, disableNext: bool): (d: ButtonsDisabled)
    ensures d.shuffle <==> n.nowPlaying.None?
    ensures d.prev <==> queueId == 0 || disablePrev
    ensures d.playPause <==> queueId == 0
    ensures d.next <==> queueId == 0 || disableNext || n.nextTrack.None?
  {
    ButtonsDisabled(n.nowPlaying.None?, queueId == 0 || disablePrev, queueId == 0,
                    queueId == 0 || disableNext || n.nextTrack.None?)
  }

  /** With no queue (queueId 0) prev, play/pause and next are all disabled. */
  lemma NoQueueDisablesTransport(n: Neighbours, disablePrev: bool, disableNext: bool)
    ensures Disabled(0, n, disablePrev, disableNext).prev
    ensures Disabled(0, n, disablePrev, disableNext).playPause
    ensures Disabled(0, n, disablePrev, disableNext).next
  {
  }

  /** The next button and the taskbar "next" event are enabled together,
      whenever a queue exists. */
  lemma NextButtonAgreesWithTaskbar(queueId: int, n: Neighbours, disablePrev: bool, disableNext: bool)
    requires queueId != 0
    ensures !Disabled(queueId, n, disablePrev, disableNext).next
            <==> TaskbarRoute("next", n, disablePrev, disableNext) == OnNext
  {
  }

  // ---------------------------------------------------------------------------
  // Player-state updates and external calls

  /** The player state written by handleNext. */
  function StateAfterNext(n: Neighbours): (s: PlayerState)
    ensures Truthy(s.isPlaying) && s.position == Some(0)
    ensures s.duration == Some(if n.nextTrack.Some? then n.nextTrack.value.track.duration else 0)
  {
    match n.nextTrack
    case Some(t) => PlayerState(Some(t.track.duration), Some(true), Some(0))
    case None => PlayerState(Some(0), Some(true), Some(0))
  }

  /** The player state written when prev cues the current track again. */
  function StateAfterRestart(s: PlayerState): (r: PlayerState)
    ensures r.position == Some(0) && r.duration == s.duration && r.isPlaying == s.isPlaying
  {
    s.(position := Some(0))
  }

  /** The player state written when prev steps back. */
  function StateAfterStepBack(s: PlayerState, prev: Option<PlayQueueItem>): (r: PlayerState)
    ensures r.position == Some(0) && r.isPlaying == s.isPlaying
    ensures r.duration == Some(if prev.Some? then prev.value.track.duration else 0)
  {
    match prev
    case Some(p) => s.(duration := Some(p.track.duration), position := Some(0))
    case None => s.(duration := Some(0), position := Some(0))
  }

  /** The player state written by play/pause without Ctrl. */
  function StateAfterToggle(s: PlayerState): (r: PlayerState)
    ensures Truthy(r.isPlaying) <==> !Truthy(s.isPlaying)
    ensures r.duration == s.duration && r.position == s.position
  {
    s.(isPlaying := Some(!Truthy(s.isPlaying)))
  }

  /** Toggling twice restores any state whose isPlaying is set. */
  lemma ToggleTwice(s: PlayerState)
    requires s.isPlaying.Some?
    ensures StateAfterToggle(StateAfterToggle(s)) == s
  {
    var b := s.isPlaying.value;
    assert StateAfterToggle(s).isPlaying == Some(!b);
    assert StateAfterToggle(StateAfterToggle(s)).isPlaying == Some(b);
  }

  /** The external effects the handlers bring about, in the order made. */
  datatype Call =
    | WriteRepeatSetting(value: Repeat)
    | RefetchSettings
    | UpdateTimeline(update: TimelineUpdate)
    | RefetchQueue(queueId: int)
    | PlayerNext
    | PlayerPlay
    | PlayerPause
    | PlayerCue
    | StartTimer(itemId: int)
    | ClearTimer
    | ResetApp
    | UpdateTracks(direction: string)

  function Report(item: PlayQueueItem, status: TimelineStatus, time: Option<int>): Call {
    UpdateTimeline(TimelineUpdate(item.id, status, time, item.track.id))
  }

  /** The calls handleRepeat makes: write the settings file, then refetch it. */
  function RepeatCalls(value: Repeat): seq<Call> {
    [WriteRepeatSetting(value), RefetchSettings]
  }

  /** The calls handleNext makes after resetting repeat, given a now-playing
      item: the stop report first, the player advanced, started only when it
      was not playing, and the track list updated last. */
  function NextCalls(np: PlayQueueItem, next: Option<PlayQueueItem>, queueId: int,
                     positionMs: int, wasPlaying: bool): (r: seq<Call>)
    ensures |r| >= 2 && r[0] == Report(np, Stopped, Some(positionMs)) && r[|r| - 1] == UpdateTracks("next")
    ensures PlayerNext in r && PlayerCue !in r
    ensures PlayerPlay in r <==> !wasPlaying
    ensures next.Some? ==> Report(next.value, Playing, Some(0)) in r
  {
    [Report(np, Stopped, Some(positionMs))]
    + (if next.Some? then [Report(next.value, Playing, Some(0))] else [])
    + [RefetchQueue(queueId), PlayerNext]
    + (if wasPlaying then [] else [PlayerPlay])
    + [UpdateTracks("next")]
  }

  /** The calls handlePrev makes when it cues the current track again: the
      player is cued, never advanced, and paused only when it was not playing. */
  function RestartCalls(np: Option<PlayQueueItem>, s: PlayerState): (r: seq<Call>)
    ensures PlayerCue in r && PlayerNext !in r
    ensures PlayerPause in r <==> !Truthy(s.isPlaying)
    ensures np.None? ==> r == [PlayerCue] + (if Truthy(s.isPlaying) then [] else [PlayerPause])
  {
    (if np.Some? then [Report(np.value, Stopped, s.position)] else [])
    + [PlayerCue]
    + (if Truthy(s.isPlaying) then [] else [PlayerPause])
    + (if np.Some? then [Report(np.value, if Truthy(s.isPlaying) then Playing else Paused, Some(0))] else [])
  }

  /** The calls handlePrev makes after resetting repeat when it steps back:
      the stop report first, the previous item's timer started, the track
      list updated last, and the player neither cued nor advanced. */
  function StepBackCalls(np: PlayQueueItem, prev: Option<PlayQueueItem>, queueId: int,
                         positionMs: int): (r: seq<Call>)
    ensures |r| >= 2 && r[0] == Report(np, Stopped, Some(positionMs)) && r[|r| - 1] == UpdateTracks("prev")
    ensures PlayerCue !in r && PlayerNext !in r
    ensures prev.Some? ==> Report(prev.value, Playing, Some(0)) in r && StartTimer(prev.value.id) in r
  {
    [Report(np, Stopped, Some(positionMs))]
    + (if prev.Some? then [Report(prev.value, Playing, Some(0)), StartTimer(prev.value.id)] else [])
    + [RefetchQueue(queueId), UpdateTracks("prev")]
  }

  /** The calls handlePlayPause makes: the app is reset exactly when Ctrl is
      held, and the now-playing item, if any, is reported stopped (Ctrl),
      paused (was playing) or playing (was not) at the cached position. */
  function PlayPauseCalls(np: Option<PlayQueueItem>, ctrlPress: bool, s: PlayerState): (r: seq<Call>)
    ensures ResetApp in r <==> ctrlPress
    ensures np.Some? ==>
              Report(np.value, if ctrlPress then Stopped else if Truthy(s.isPlaying) then Paused else Playing,
                     s.position) in r
  {
    if ctrlPress then
      (if np.Some? then [ClearTimer, Report(np.value, Stopped, s.position)] else []) + [ResetApp]
    else if Truthy(s.isPlaying) then
      [PlayerPause] + (if np.Some? then [ClearTimer, Report(np.value, Paused, s.position)] else [])
    else
      [PlayerPlay] + (if np.Some? then [Report(np.value, Playing, s.position), StartTimer(np.value.id)] else [])
  }

  /** A restart reports the current item as stopped before cueing, and its
      last report is at time 0. */
  lemma RestartReportsStopThenZero(np: PlayQueueItem, s: PlayerState)
    ensures RestartCalls(Some(np), s)[0] == Report(np, Stopped, s.position)
    ensures RestartCalls(Some(np), s)[|RestartCalls(Some(np), s)| - 1].update.time == Some(0)
  {
  }

  /** Play/pause without Ctrl touches the player exactly once: pause when it
      was playing, play otherwise; with Ctrl it always ends in a reset. */
  lemma PlayPauseTouchesPlayerOnce(np: Option<PlayQueueItem>, ctrlPress: bool, s: PlayerState)
    ensures !ctrlPress ==> PlayPauseCalls(np, ctrlPress, s)[0] == (if Truthy(s.isPlaying) then PlayerPause else PlayerPlay)
    ensures !ctrlPress ==> (PlayerPause !in PlayPauseCalls(np, ctrlPress, s)[1..]
                            && PlayerPlay !in PlayPauseCalls(np, ctrlPress, s)[1..])
    ensures ctrlPress ==> PlayPauseCalls(np, ctrlPress, s)[|PlayPauseCalls(np, ctrlPress, s)| - 1] == ResetApp
  {
  }

  // ---------------------------------------------------------------------------
  // The handlers as state changes

  /** The state the transport handlers read and write: the player's `loop`,
      `singleMode` and `playlist.trackNumber`, the stored `repeat` setting,
      the component's `disableNext` / `disablePrev`, the cached player state,
      and the external calls made so far. */
  class Transport {
    var loop: bool
    var singleMode: bool
    var trackNumber: int
    var repeat: Option<Repeat>
    var disableNext: bool
    var disablePrev: bool
    var state: PlayerState
    var calls: seq<Call>

    /** Flags consistent with the stored setting, once one is stored:
        handleRepeat establishes it and the handlers keep it. */
    ghost predicate Valid()
      reads this
    {
      repeat.Some? ==> PlayerFlags(loop, singleMode) == RepeatFlags(repeat.value)
    }

    /** Mounting the component: both disable flags start false over whatever
        player, setting and cached state exist; nothing is called. */
    constructor (setting: Option<Repeat>, loop: bool, singleMode: bool, trackNumber: int, state: PlayerState)
      ensures this.repeat == setting && this.loop == loop && this.singleMode == singleMode
      ensures this.trackNumber == trackNumber && this.state == state
      ensures !disableNext && !disablePrev && calls == []
    {
      this.loop, this.singleMode := loop, singleMode;
      this.trackNumber := trackNumber;
      repeat := setting;
      disableNext, disablePrev := false, false;
      this.state := state;
      calls := [];
    }

    /** handleRepeat: store the setting, then set the player flags for it. */
    method HandleRepeat(value: Repeat)
      modifies this
      ensures Valid()
      ensures repeat == Some(value) && PlayerFlags(loop, singleMode) == RepeatFlags(value)
      ensures calls == old(calls) + RepeatCalls(value)
      ensures trackNumber == old(trackNumber) && state == old(state)
      ensures disableNext == old(disableNext) && disablePrev == old(disablePrev)
    {
      repeat := Some(value);
      calls := calls + RepeatCalls(value);
      if value == RepeatOne {
        loop := true;
        singleMode := true;
        return;
      }
      if value == RepeatNone {
        loop := false;
        singleMode := false;
        return;
      }
      if value == RepeatAll {
        loop := true;
        singleMode := false;
      }
    }

    /** handleNext. `positionMs` is what player.currentPosition() reports and
        `advancedTrackNumber` where player.next() leaves the current playlist position. */
    method HandleNext(q: Option<PlayQueue>, queueId: int, positionMs: int, advancedTrackNumber: int)
      modifies this
      ensures Valid()
      ensures repeat == Some(RepeatNone) && !loop && !singleMode
      ensures disablePrev == old(disablePrev)
      ensures disableNext <==> QueueNeighbours(q).nowPlaying.None?
      ensures QueueNeighbours(q).nowPlaying.None? ==>
                state == old(state) && trackNumber == old(trackNumber)
                && calls == old(calls) + RepeatCalls(RepeatNone)
      ensures QueueNeighbours(q).nowPlaying.Some? ==>
                state == StateAfterNext(QueueNeighbours(q)) && trackNumber == advancedTrackNumber
                && calls == old(calls) + RepeatCalls(RepeatNone)
                            + NextCalls(QueueNeighbours(q).nowPlaying.value, QueueNeighbours(q).nextTrack,
                                        queueId, positionMs, Truthy(old(state).isPlaying))
    {
      var n := QueueNeighbours(q);
      disableNext := true;
      HandleRepeat(RepeatNone);
      if n.nowPlaying.Some? {
        Advance(n, queueId, positionMs, advancedTrackNumber);
      }
    }

    /** The part of handleNext after the repeat reset, with a now-playing item:
        report it stopped and the next one playing, refetch the queue, advance
        the player (starting it if it was not playing), update its tracks and
        the cached state, and enable next again. */
    method Advance(n: Neighbours, queueId: int, positionMs: int, advancedTrackNumber: int)
      requires n.nowPlaying.Some?
      modifies this
      ensures state == StateAfterNext(n) && trackNumber == advancedTrackNumber && !disableNext
      ensures calls == old(calls) + NextCalls(n.nowPlaying.value, n.nextTrack, queueId, positionMs,
                                              Truthy(old(state).isPlaying))
      ensures loop == old(loop) && singleMode == old(singleMode) && repeat == old(repeat)
      ensures disablePrev == old(disablePrev)
    {
      var np := n.nowPlaying.value;
      calls := calls + [Report(np, Stopped, Some(positionMs))];
      if n.nextTrack.Some? {
        calls := calls + [Report(n.nextTrack.value, Playing, Some(0))];
      }
      calls := calls + [RefetchQueue(queueId), PlayerNext];
      trackNumber := advancedTrackNumber;
      if !Truthy(state.isPlaying) {
        calls := calls + [PlayerPlay];
      }
      calls := calls + [UpdateTracks("next")];
      state := StateAfterNext(n);
      disableNext := false;
    }

    /** handlePrev. `positionMs` is what player.currentPosition() reports when
        the handler decides, `laterPositionMs` what it reports after the
        repeat reset has been awaited on the step-back path, and
        `cuedTrackNumber` where player.cue() leaves the current playlist position. */
    method HandlePrev(q: Option<PlayQueue>, queueId: int, positionMs: int, laterPositionMs: int,
                      cuedTrackNumber: int)
      modifies this
      ensures old(Valid()) ==> Valid()
      ensures !disablePrev && disableNext == old(disableNext)
      ensures trackNumber == old(trackNumber)
      ensures Restarts(QueueNeighbours(q).prevTrack, positionMs) ==>
                state == StateAfterRestart(old(state))
                && repeat == old(repeat) && loop == old(loop) && singleMode == old(singleMode)
                && calls == old(calls) + RestartCalls(QueueNeighbours(q).nowPlaying, old(state))
      ensures !Restarts(QueueNeighbours(q).prevTrack, positionMs) ==>
                state == StateAfterStepBack(old(state), QueueNeighbours(q).prevTrack)
                && repeat == Some(RepeatNone) && !loop && !singleMode
                && calls == old(calls) + RepeatCalls(RepeatNone)
                            + StepBackCalls(QueueNeighbours(q).nowPlaying.value, QueueNeighbours(q).prevTrack,
                                            queueId, laterPositionMs)
    {
      var n := QueueNeighbours(q);
      disablePrev := true;
      if Restarts(n.prevTrack, positionMs) {
        Restart(n, cuedTrackNumber);
        return;
      }
      if n.nowPlaying.Some? {
        HandleRepeat(RepeatNone);
        StepBack(n, queueId, laterPositionMs);
      }
    }

    /** The restart path of handlePrev: report the item stopped at the cached
        position, cue it while keeping the playlist's track number, pause a
        player that was not playing, report it again at 0, and zero the
        cached position. */
    method Restart(n: Neighbours, cuedTrackNumber: int)
      modifies this
      ensures state == StateAfterRestart(old(state)) && !disablePrev
      ensures calls == old(calls) + RestartCalls(n.nowPlaying, old(state))
      ensures trackNumber == old(trackNumber) && repeat == old(repeat)
      ensures loop == old(loop) && singleMode == old(singleMode) && disableNext == old(disableNext)
    {
      if n.nowPlaying.Some? {
        calls := calls + [Report(n.nowPlaying.value, Stopped, state.position)];
      }
      var saved := trackNumber;
      calls := calls + [PlayerCue];
      trackNumber := cuedTrackNumber;
      trackNumber := saved;
      if !Truthy(state.isPlaying) {
        calls := calls + [PlayerPause];
      }
      if n.nowPlaying.Some? {
        var status := if Truthy(state.isPlaying) then Playing else Paused;
        calls := calls + [Report(n.nowPlaying.value, status, Some(0))];
      }
      state := StateAfterRestart(state);
      disablePrev := false;
    }

    /** The step-back path of handlePrev after the repeat reset: report the
        item stopped, report the previous one playing and start its timer,
        refetch the queue, update the player's tracks and the cached state. */
    method StepBack(n: Neighbours, queueId: int, positionMs: int)
      requires n.nowPlaying.Some?
      modifies this
      ensures state == StateAfterStepBack(old(state), n.prevTrack) && !disablePrev
      ensures calls == old(calls) + StepBackCalls(n.nowPlaying.value, n.prevTrack, queueId, positionMs)
      ensures trackNumber == old(trackNumber) && repeat == old(repeat)
      ensures loop == old(loop) && singleMode == old(singleMode) && disableNext == old(disableNext)
    {
      var np := n.nowPlaying.value;
      calls := calls + [Report(np, Stopped, Some(positionMs))];
      if n.prevTrack.Some? {
        calls := calls + [Report(n.prevTrack.value, Playing, Some(0)), StartTimer(n.prevTrack.value.id)];
      }
      calls := calls + [RefetchQueue(queueId), UpdateTracks("prev")];
      state := StateAfterStepBack(state, n.prevTrack);
      disablePrev := false;
    }

    /** handlePlayPause. Both branches test the player state captured when
        the handler was created, so exactly one of them runs. */
    method HandlePlayPause(q: Option<PlayQueue>, ctrlPress: bool)
      modifies this
      ensures ctrlPress ==> state == old(state)
      ensures !ctrlPress ==> state == StateAfterToggle(old(state))
      ensures calls == old(calls) + PlayPauseCalls(QueueNeighbours(q).nowPlaying, ctrlPress, old(state))
      ensures loop == old(loop) && singleMode == old(singleMode) && trackNumber == old(trackNumber)
      ensures repeat == old(repeat) && disableNext == old(disableNext) && disablePrev == old(disablePrev)
    {
      var np := QueueNeighbours(q).nowPlaying;
      var captured := state;
      if ctrlPress {
        if np.Some? {
          calls := calls + [ClearTimer, Report(np.value, Stopped, captured.position)];
        }
        calls := calls + [ResetApp];
        return;
      }
      if Truthy(captured.isPlaying) {
        calls := calls + [PlayerPause];
        if np.Some? {
          calls := calls + [ClearTimer, Report(np.value, Paused, captured.position)];
        }
        state := captured.(isPlaying := Some(false));
      }
      if !Truthy(captured.isPlaying) {
        calls := calls + [PlayerPlay];
        if np.Some? {
          calls := calls + [Report(np.value, Playing, captured.position), StartTimer(np.value.id)];
        }
        state := captured.(isPlaying := Some(true));
      }
    }
  }

  /** A queue whose selected id is missing but which has items lets a "next"
      event through (first item counts as next) while nothing is playing, so
      handleNext sets disableNext and never clears it. */
  lemma NextReachableWithoutNowPlaying(pq: PlayQueue, disablePrev: bool)
    requires pq.items != []
    requires forall j :: 0 <= j < |pq.items| ==> pq.items[j].id != pq.selectedItemId
    ensures TaskbarRoute("next", QueueNeighbours(Some(pq)), disablePrev, false) == OnNext
    ensures QueueNeighbours(Some(pq)).nowPlaying.None?
  {
    NeighboursWhenSelectedAbsent(pq);
  }
}
