/** BrainzPlayer: chooses the next listen to play, chooses the playback backend
    ("data source") for it, drops backends that cannot play, and estimates the
    playback position between progress reports from the backend. */
module Player {
  import opened Wrappers
  import opened Lists

  /** A playback backend, known only by its kind. */
  datatype SourceKind = Spotify | Youtube

  /** The play direction through the listens list; `Unrecognised` stands for any other
      value the `direction` prop may carry at run time. */
  datatype Direction = Up | Down | Unrecognised

  /** A listen: its timestamp and the fields of its track metadata that the player
      reads. Datatype equality compares all of them, as the deep equality
      `isCurrentListen` does; the same track listened to twice is two listens. */
  datatype Listen = Listen(
    listenedAt: int,                // listened_at
    trackName: string,
    artistName: string,
    listeningFrom: Option<string>,  // track_metadata.additional_info.listening_from
    originUrl: Option<string>,      // track_metadata.additional_info.origin_url
    spotifyId: Option<string>       // track_metadata.additional_info.spotify_id
  )

  /** The warnings the player raises, by title. */
  datatype Warning =
    | NoListensToPlay       // "No listens to play"
    | UnrecognisedState     // "Unrecognised state"
    | NoMoreListens         // "No more listens to play"
    | CannotPlayFromSource  // "Cannot play from this source"
    | NoMatchingSong        // "Oh no !"

  /** A transport command forwarded to a backend. */
  datatype Command = Play(listen: Listen) | Toggle | Seek(ms: int)

  /** What the player makes visible: an alert, a call of `onCurrentListenChange`,
      or a command sent to a backend. */
  datatype Event =
    | Warned(warning: Warning)
    | CurrentListenChanged(listen: Listen)
    | Sent(source: SourceKind, command: Command)

  /** The decision `playNextTrack` takes: raise a warning, or play the listen at `index`. */
  datatype Choice = Warn(warning: Warning) | PlayAt(index: nat)

  /** JavaScript truthiness of an optional string field. */
  predicate Truthy(o: Option<string>)
  {
    o.Some? && o.value != ""
  }

  /** JavaScript `x || fallback` on a number: `fallback` exactly when `x` is 0. */
  function JsOr(x: int, fallback: int): int
  {
    if x != 0 then x else fallback
  }

  const YoutubeWatchPattern: string := "youtube.com/watch?"

  predicate IsSpotifyListen(listen: Listen)
  {
    listen.listeningFrom == Some("spotify") || Truthy(listen.spotifyId)
  }

  predicate IsYoutubeListen(listen: Listen)
  {
    || listen.listeningFrom == Some("youtube")
    || (listen.originUrl.Some? && Contains(listen.originUrl.value, YoutubeWatchPattern))
  }

  /** The backends the constructor registers, in order. */
  function InitialSources(hasAccessToken: bool, hasPermission: bool): (r: seq<SourceKind>)
    ensures 1 <= |r| <= 2 && NoDuplicates(r)
    ensures r[|r| - 1] == Youtube
    ensures r[0] == Spotify <==> hasAccessToken && hasPermission
  {
    (if hasAccessToken && hasPermission then [Spotify] else []) + [Youtube]
  }

  /** The position of the current listen in `listens`, or -1 (also when there is none). */
  function CurrentIndex(listens: seq<Listen>, current: Option<Listen>): (r: int)
    ensures r == -1 <==> current.None? || current.value !in listens
    ensures r != -1 ==> 0 <= r < |listens| && listens[r] == current.value && current.value !in listens[..r]
  {
    if current.None? then -1 else FindIndex(listens, current.value)
  }

  /** The index `playNextTrack` computes, or None for an unrecognised direction. */
  function NextIndex(count: nat, currentIndex: int, direction: Direction, invert: bool): (r: Option<int>)
    ensures r.None? <==> currentIndex != -1 && direction.Unrecognised?
    ensures r.Some? && currentIndex != -1 ==>
      r.value == if (direction == Down) != invert then currentIndex + 1 else currentIndex - 1
  {
    if currentIndex == -1 then Some(if direction == Up then count - 1 else 0)
    else if direction == Up then Some(if invert then currentIndex + 1 else JsOr(currentIndex - 1, 0))
    else if direction == Down then Some(if invert then JsOr(currentIndex - 1, 0) else currentIndex + 1)
    else None
  }

  /** The decision of `playNextTrack(invert)` for the given props and direction. */
  function NextChoice(listens: seq<Listen>, current: Option<Listen>, direction: Direction, invert: bool): (c: Choice)
    ensures c.PlayAt? ==> c.index < |listens|
  {
    if |listens| == 0 then Warn(NoListensToPlay)
    else
      match NextIndex(|listens|, CurrentIndex(listens, current), direction, invert)
      case None => Warn(UnrecognisedState)
      case Some(i) => if 0 <= i < |listens| then PlayAt(i) else Warn(NoMoreListens)
  }

  /** The backend index `playListen` settles on: the listen's own service when it names
      one that is registered (YouTube checked last, so it wins), else `requested`. */
  function SelectSource(sources: seq<SourceKind>, listen: Listen, requested: int): (r: int)
    ensures r == requested || 0 <= r < |sources|
    ensures IsYoutubeListen(listen) ==>
      if Youtube in sources then 0 <= r < |sources| && sources[r] == Youtube else r == requested
    ensures !IsYoutubeListen(listen) && IsSpotifyListen(listen) ==>
      if Spotify in sources then 0 <= r < |sources| && sources[r] == Spotify else r == requested
    ensures !IsYoutubeListen(listen) && !IsSpotifyListen(listen) ==> r == requested
  {
    var afterSpotify := if IsSpotifyListen(listen) then FindIndex(sources, Spotify) else requested;
    var afterYoutube := if IsYoutubeListen(listen) then FindIndex(sources, Youtube) else afterSpotify;
    if afterYoutube == -1 then requested else afterYoutube
  }

  /** The index `invalidateDataSource` removes when it is not negative: the named
      backend's position, or the current index when no backend is named. */
  function InvalidationIndex(sources: seq<SourceKind>, currentIndex: int, source: Option<SourceKind>): (r: int)
    ensures source.None? ==> r == currentIndex
    ensures source.Some? ==> (r == -1 <==> source.value !in sources)
    ensures source.Some? && r != -1 ==> 0 <= r < |sources| && sources[r] == source.value
  {
    if source.Some? then FindIndex(sources, source.value) else currentIndex
  }

  /** The direction after `toggleDirection`. */
  function Toggled(d: Direction): (r: Direction)
    ensures r != d && r != Unrecognised
    ensures d != Down ==> r == Down
  {
    if d == Down then Up else Down
  }

  /** The progress `getStatePosition` estimates after `elapsedMs` since the last update. */
  function EstimatedProgress(paused: bool, progressMs: int, durationMs: int, elapsedMs: int): (p: int)
    ensures paused ==> p == progressMs
    ensures !paused ==> p <= durationMs && p <= progressMs + elapsedMs
    ensures !paused ==> p == durationMs || p == progressMs + elapsedMs
  {
    if paused then JsOr(progressMs, 0)
    else
      var position := progressMs + elapsedMs;
      if position > durationMs then durationMs else position
  }

  class BrainzPlayer {
    var dataSources: seq<SourceKind>
    var firstRun: bool
    var direction: Direction
    var currentDataSourceIndex: int
    var playerPaused: bool
    var durationMs: int
    var progressMs: int
    var updateTime: int
    var log: seq<Event>

    ghost predicate Valid()
      reads this
    {
      NoDuplicates(dataSources) && 0 <= currentDataSourceIndex
    }

    /** The effect of `playListen(listen, requested)`, with `raised` the events logged
        earlier in the same call chain. */
    twostate predicate ListenStarted(listen: Listen, requested: int, raised: seq<Event>)
      reads this
    {
      var selected := SelectSource(old(dataSources), listen, requested);
      && !firstRun
      && currentDataSourceIndex == selected
      && dataSources == old(dataSources)
      && log == old(log) + raised + [CurrentListenChanged(listen)]
                + (if 0 <= selected < |dataSources| then [Sent(dataSources[selected], Play(listen))] else [])
    }

    /** The effect of `playNextTrack(invert)`, with `raised` as above. */
    twostate predicate NextTrackStarted(listens: seq<Listen>, current: Option<Listen>, invert: bool, raised: seq<Event>)
      reads this
    {
      match NextChoice(listens, current, old(direction), invert)
      case Warn(w) =>
        && log == old(log) + raised + [Warned(w)]
        && dataSources == old(dataSources)
        && firstRun == old(firstRun)
        && currentDataSourceIndex == old(currentDataSourceIndex)
      case PlayAt(i) => ListenStarted(listens[i], 0, raised)
    }

    constructor (hasAccessToken: bool, hasPermission: bool, requestedDirection: Option<Direction>, nowMs: int)
      ensures Valid()
      ensures dataSources == InitialSources(hasAccessToken, hasPermission)
      ensures firstRun && currentDataSourceIndex == 0
      ensures direction == if requestedDirection.Some? then requestedDirection.value else Down
      ensures playerPaused && progressMs == 0 && durationMs == 0 && updateTime == nowMs
      ensures log == []
    {
      var sources := [];
      if hasAccessToken && hasPermission {
        sources := sources + [Spotify];
      }
      sources := sources + [Youtube];
      dataSources := sources;
      firstRun := true;
      currentDataSourceIndex := 0;
      direction := if requestedDirection.Some? then requestedDirection.value else Down;
      playerPaused := true;
      progressMs := 0;
      durationMs := 0;
      updateTime := nowMs;
      log := [];
    }

    /** `handleWarning`: an alert with the warning's title. */
    method HandleWarning(w: Warning)
      modifies this`log
      ensures log == old(log) + [Warned(w)]
    {
      log := log + [Warned(w)];
    }

    method InvalidateDataSource(source: Option<SourceKind>, message: Option<string>)
      requires Valid()
      modifies this`dataSources, this`log
      ensures Valid()
      ensures var i := InvalidationIndex(old(dataSources), currentDataSourceIndex, source);
        && dataSources == (if i >= 0 then RemoveAt(old(dataSources), i) else old(dataSources))
        && log == old(log) + (if i >= 0 && Truthy(message) then [Warned(CannotPlayFromSource)] else [])
    {
      var index := currentDataSourceIndex;
      if source.Some? {
        index := FindIndex(dataSources, source.value);
      }
      if index >= 0 {
        if Truthy(message) {
          HandleWarning(CannotPlayFromSource);
        }
        RemoveAtKeepsDistinct(dataSources, index);
        dataSources := RemoveAt(dataSources, index);
      }
    }

    method PlayListen(listen: Listen, datasourceIndex: nat)
      requires Valid()
      modifies this`firstRun, this`currentDataSourceIndex, this`dataSources, this`log
      ensures Valid()
      ensures ListenStarted(listen, datasourceIndex, [])
    {
      log := log + [CurrentListenChanged(listen)];
      if firstRun {
        firstRun := false;
      }
      currentDataSourceIndex := SelectSource(dataSources, listen, datasourceIndex);
      if 0 <= currentDataSourceIndex < |dataSources| {
        log := log + [Sent(dataSources[currentDataSourceIndex], Play(listen))];
      } else {
        // the index is past the end, so this removes nothing
        InvalidateDataSource(None, None);
      }
    }

    method PlayNextTrack(listens: seq<Listen>, currentListen: Option<Listen>, invert: bool)
      requires Valid()
      modifies this`firstRun, this`currentDataSourceIndex, this`dataSources, this`log
      ensures Valid()
      ensures NextTrackStarted(listens, currentListen, invert, [])
    {
      if |listens| == 0 {
        HandleWarning(NoListensToPlay);
        return;
      }
      var currentListenIndex := CurrentIndex(listens, currentListen);
      var nextListenIndex;
      if currentListenIndex == -1 {
        nextListenIndex := if direction == Up then |listens| - 1 else 0;
      } else if direction == Up {
        nextListenIndex := if invert then currentListenIndex + 1 else JsOr(currentListenIndex - 1, 0);
      } else if direction == Down {
        nextListenIndex := if invert then JsOr(currentListenIndex - 1, 0) else currentListenIndex + 1;
      } else {
        HandleWarning(UnrecognisedState);
        return;
      }
      if !(0 <= nextListenIndex < |listens|) {
        HandleWarning(NoMoreListens);
        return;
      }
      PlayListen(listens[nextListenIndex], 0);
    }

    method PlayPreviousTrack(listens: seq<Listen>, currentListen: Option<Listen>)
      requires Valid()
      modifies this`firstRun, this`currentDataSourceIndex, this`dataSources, this`log
      ensures Valid()
      ensures NextTrackStarted(listens, currentListen, true, [])
    {
      PlayNextTrack(listens, currentListen, true);
    }

    method FailedToFindTrack(listens: seq<Listen>, currentListen: Option<Listen>)
      requires Valid()
      modifies this`firstRun, this`currentDataSourceIndex, this`dataSources, this`log
      ensures Valid()
      ensures currentListen.None? ==> NextTrackStarted(listens, currentListen, false, [])
      ensures currentListen.Some? && old(currentDataSourceIndex) < |old(dataSources)| - 1 ==>
        ListenStarted(currentListen.value, old(currentDataSourceIndex) + 1, [])
      ensures currentListen.Some? && old(currentDataSourceIndex) >= |old(dataSources)| - 1 ==>
        NextTrackStarted(listens, currentListen, false, [Warned(NoMatchingSong)])
    {
      if currentListen.None? {
        PlayNextTrack(listens, currentListen, false);
        return;
      }
      if currentDataSourceIndex < |dataSources| - 1 {
        PlayListen(currentListen.value, currentDataSourceIndex + 1);
      } else {
        HandleWarning(NoMatchingSong);
        PlayNextTrack(listens, currentListen, false);
      }
    }

    method ToggleDirection()
      modifies this`direction
      ensures direction == Toggled(old(direction))
    {
      direction := Toggled(direction);
    }

    method TogglePlay()
      requires Valid()
      modifies this`dataSources, this`log
      ensures Valid() && dataSources == old(dataSources)
      ensures log == old(log) +
        if currentDataSourceIndex < |dataSources| then [Sent(dataSources[currentDataSourceIndex], Toggle)] else []
    {
      if currentDataSourceIndex < |dataSources| {
        log := log + [Sent(dataSources[currentDataSourceIndex], Toggle)];
      } else {
        InvalidateDataSource(None, None);
      }
    }

    method SeekToPositionMs(msTimecode: int)
      requires Valid()
      modifies this`dataSources, this`log
      ensures Valid() && dataSources == old(dataSources)
      ensures log == old(log) +
        if currentDataSourceIndex < |dataSources| then [Sent(dataSources[currentDataSourceIndex], Seek(msTimecode))] else []
    {
      if currentDataSourceIndex < |dataSources| {
        log := log + [Sent(dataSources[currentDataSourceIndex], Seek(msTimecode))];
      } else {
        InvalidateDataSource(None, None);
      }
    }

    method PlayerPauseChange(paused: bool)
      modifies this`playerPaused
      ensures playerPaused == paused
    {
      playerPaused := paused;
    }

    method ProgressChange(newProgressMs: int, nowMs: int)
      modifies this`progressMs, this`updateTime
      ensures progressMs == newProgressMs && updateTime == nowMs
    {
      progressMs := newProgressMs;
      updateTime := nowMs;
    }

    method DurationChange(newDurationMs: int)
      modifies this`durationMs
      ensures durationMs == newDurationMs
    {
      durationMs := newDurationMs;
    }

    method GetStatePosition(nowMs: int)
      modifies this`progressMs, this`updateTime
      ensures progressMs == EstimatedProgress(playerPaused, old(progressMs), durationMs, nowMs - old(updateTime))
      ensures !playerPaused ==> progressMs <= durationMs
      ensures playerPaused ==> progressMs == old(progressMs)
      ensures updateTime == nowMs
    {
      var newProgressMs;
      if playerPaused {
        newProgressMs := JsOr(progressMs, 0);
      } else {
        var position := progressMs + (nowMs - updateTime);
        newProgressMs := if position > durationMs then durationMs else position;
      }
      progressMs := newProgressMs;
      updateTime := nowMs;
    }
  }

  /** Removing one entry keeps a duplicate-free list duplicate-free. */
  lemma RemoveAtKeepsDistinct<T>(s: seq<T>, i: nat)
    requires NoDuplicates(s)
    ensures NoDuplicates(RemoveAt(s, i))
  {
    var r := RemoveAt(s, i);
    if i < |s| {
      forall a, b | 0 <= a < b < |r| ensures r[a] != r[b] {
        var a' := if a < i then a else a + 1;
        var b' := if b < i then b else b + 1;
        assert r[a] == s[a'] && r[b] == s[b'];
      }
    }
  }
}
