/** Properties of BrainzPlayer's track choice, backend choice and backend removal. */
module PlayerProperties {
  import opened Wrappers
  import opened Lists
  import opened Player

  /** Without listens the player only warns. */
  lemma EmptyListensOnlyWarn(current: Option<Listen>, direction: Direction, invert: bool)
    ensures NextChoice([], current, direction, invert) == Warn(NoListensToPlay)
  {
  }

  /** When the current listen is absent from the list, playback starts at the end of the
      list for "up" and at its start otherwise. */
  lemma AbsentCurrentStartsAtEdge(listens: seq<Listen>, current: Option<Listen>, direction: Direction, invert: bool)
    requires |listens| > 0
    requires current.None? || current.value !in listens
    ensures NextChoice(listens, current, direction, invert) == PlayAt(if direction == Up then |listens| - 1 else 0)
  {
  }

  /** From the listen at `i` (its first occurrence), a step goes to `i + 1` for "down"
      and to `i - 1` for "up", the other way when inverted; a step off either end of the
      list warns. */
  lemma StepFromCurrent(listens: seq<Listen>, i: nat, direction: Direction, invert: bool)
    requires i < |listens| && FindIndex(listens, listens[i]) == i
    requires direction != Unrecognised
    ensures var j := if (direction == Down) != invert then i + 1 else i - 1;
      NextChoice(listens, Some(listens[i]), direction, invert)
        == if 0 <= j < |listens| then PlayAt(j) else Warn(NoMoreListens)
  {
  }

  /** A listen is found at its own position when no earlier listen has its timestamp,
      even if the same track was played earlier. */
  lemma ListenFoundByTimestamp(listens: seq<Listen>, i: nat)
    requires i < |listens|
    requires forall j :: 0 <= j < i ==> listens[j].listenedAt != listens[i].listenedAt
    ensures CurrentIndex(listens, Some(listens[i])) == i
  {
  }

  /** `currentListenIndex - 1 || 0` is -1 at the first listen, so "previous" (and "next"
      going up) from the first listen warns instead of replaying index 0. */
  lemma NothingBeforeFirstListen(listens: seq<Listen>)
    requires |listens| > 0
    ensures NextChoice(listens, Some(listens[0]), Down, true) == Warn(NoMoreListens)
    ensures NextChoice(listens, Some(listens[0]), Up, false) == Warn(NoMoreListens)
  {
    assert FindIndex(listens, listens[0]) == 0;
  }

  /** An unrecognised direction warns once a current listen is found in the list. */
  lemma UnrecognisedDirectionWarns(listens: seq<Listen>, i: nat, invert: bool)
    requires i < |listens|
    ensures NextChoice(listens, Some(listens[i]), Unrecognised, invert) == Warn(UnrecognisedState)
  {
    assert listens[i] in listens;
  }

  /** In a list without repeated listens, "previous" undoes "next". */
  lemma PreviousUndoesNext(listens: seq<Listen>, i: nat, direction: Direction)
    requires NoDuplicates(listens) && i < |listens|
    requires direction != Unrecognised
    requires NextChoice(listens, Some(listens[i]), direction, false).PlayAt?
    ensures var j := NextChoice(listens, Some(listens[i]), direction, false).index;
      NextChoice(listens, Some(listens[j]), direction, true) == PlayAt(i)
  {
    FindIndexOfDistinct(listens, i);
    var j := NextChoice(listens, Some(listens[i]), direction, false).index;
    FindIndexOfDistinct(listens, j);
  }

  /** In a list without repeated listens, "next" undoes "previous". */
  lemma NextUndoesPrevious(listens: seq<Listen>, i: nat, direction: Direction)
    requires NoDuplicates(listens) && i < |listens|
    requires direction != Unrecognised
    requires NextChoice(listens, Some(listens[i]), direction, true).PlayAt?
    ensures var j := NextChoice(listens, Some(listens[i]), direction, true).index;
      NextChoice(listens, Some(listens[j]), direction, false) == PlayAt(i)
  {
    FindIndexOfDistinct(listens, i);
    var j := NextChoice(listens, Some(listens[i]), direction, true).index;
    FindIndexOfDistinct(listens, j);
  }

  /** Toggling twice restores a recognised direction. */
  lemma ToggleTwice(d: Direction)
    requires d != Unrecognised
    ensures Toggled(Toggled(d)) == d
  {
  }

  /** Invalidating a registered backend removes exactly that backend: the list shrinks
      by one, the backend is gone, and putting it back where it was restores the list. */
  lemma InvalidateRegisteredSource(sources: seq<SourceKind>, currentIndex: int, kind: SourceKind)
    requires NoDuplicates(sources) && kind in sources
    ensures var i := InvalidationIndex(sources, currentIndex, Some(kind));
      var r := RemoveAt(sources, i);
      && 0 <= i < |sources|
      && |r| == |sources| - 1
      && kind !in r
      && sources == r[..i] + [kind] + r[i..]
  {
    var i := InvalidationIndex(sources, currentIndex, Some(kind));
    var r := RemoveAt(sources, i);
    RemoveAtReinsert(sources, i);
  }

  /** Invalidating a backend that is not registered leaves the list as it is. */
  lemma InvalidateUnregisteredSource(sources: seq<SourceKind>, currentIndex: int, kind: SourceKind)
    requires kind !in sources
    ensures InvalidationIndex(sources, currentIndex, Some(kind)) == -1
  {
  }

  /** When a listen names a registered service, the index `playListen` is asked for
      makes no difference. So `failedToFindTrack`, which asks for the next backend,
      sends such a listen to the same backend again. */
  lemma NamedServiceOverridesFallback(sources: seq<SourceKind>, listen: Listen, a: int, b: int)
    requires NoDuplicates(sources)
    requires (IsYoutubeListen(listen) && Youtube in sources)
          || (!IsYoutubeListen(listen) && IsSpotifyListen(listen) && Spotify in sources)
    ensures SelectSource(sources, listen, a) == SelectSource(sources, listen, b)
  {
    var ra, rb := SelectSource(sources, listen, a), SelectSource(sources, listen, b);
    assert sources[ra] == sources[rb];
  }

  /** An origin URL that contains a YouTube watch link selects the YouTube backend. */
  lemma YoutubeUrlSelectsYoutube(sources: seq<SourceKind>, listen: Listen, requested: int, at: nat)
    requires Youtube in sources && listen.originUrl.Some?
    requires OccursAt(listen.originUrl.value, YoutubeWatchPattern, at)
    ensures var r := SelectSource(sources, listen, requested); 0 <= r < |sources| && sources[r] == Youtube
  {
    ContainsMeansOccurs(listen.originUrl.value, YoutubeWatchPattern);
  }
}
