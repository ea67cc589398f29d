# BrainzPlayer and LastFMImporter, modelled in Dafny

This project models the index and list rules of two ListenBrainz web components.

**BrainzPlayer** plays a list of listens through embedded backends ("data sources":
Spotify, YouTube). The model covers:
- which listen it plays next or previous, and which warning it raises when it cannot;
- which backend it picks for a listen;
- how a backend is removed from its ordered `dataSources` list;
- how it falls back to the next backend when a track is not found;
- how it estimates the playback position between progress reports.

**LastFMImporter** imports a Last.fm user's scrobbles into ListenBrainz. It counts pages down
from the last one, fetches each page, keeps only dated scrobbles, hands each page to the
submission API under ListenBrainz's rate limit, and records the newest timestamp imported.

Files:
- `wrappers.dfy`: `Option`.
- `lists.dfy`: the JavaScript array operations used: `findIndex`, `splice(i, 1)` and a
  literal substring search.
- `player.dfy`: module `Player`. It holds the pure choices and the class `BrainzPlayer`,
  whose fields are the component's `dataSources`, `firstRun` and state.
- `player_properties.dfy`: lemmas about the player.
- `importer.dfy`: module `Importer`. It holds the filter, the rate-limit rule, the page
  decision, the folds over pages and the class `LastFMImporter`.
- `importer_properties.dfy`: lemmas about the importer.

Modelling choices:
- Props (`listens`, `currentListen`) and the results of remote calls are method parameters.
- Clock readings are method parameters in milliseconds.
- What the player makes visible goes into a `log` field, in order: warnings by title,
  `onCurrentListenChange` calls, and commands sent to a backend.
- A backend is known only by its kind.
- `setState` takes effect at once.

Behaviour the proofs bring out:
- `currentListenIndex - 1 || 0` equals `currentListenIndex - 1` for every index. So
  "previous" from the first listen computes -1 and raises "No more listens to play". It does
  not replay index 0.
- When `playListen` finds no backend at the chosen index, it calls `invalidateDataSource()`.
  The chosen index is then past the end of the list, and `splice` past the end removes
  nothing. So that call never shrinks `dataSources` (`PlayListen` ensures
  `dataSources == old(dataSources)`).
- A listen that names a registered service goes to that service whatever index `playListen`
  is asked for. So `failedToFindTrack`'s fallback to "the next backend" sends such a listen
  to the same backend again.
- An ok Last.fm response with an empty track list makes `track[0]` undefined. The `"date" in`
  test then throws, and the catch schedules a retry.
- `getPage` retries on any status whose decimal form starts with 5, not only on 500 to 599.
- An empty payload array is truthy in JavaScript, so it is still passed to `submitPage`.
- An accepted page whose first track has no date (the track playing now) sets
  `maxTimestampForImport` to the clock instead of taking a maximum, so it can lower the value.
  Page 1 is fetched last, so such a page decides the value the loop ends with.

## Model

| member | source | states |
|---|---|---|
| Lists.FindIndex | listenbrainz/webserver/static/js/src/BrainzPlayer.tsx:125 | the result is -1 exactly when the value is absent; otherwise it is the first position holding the value |
| Lists.FindIndexOfDistinct | listenbrainz/webserver/static/js/src/BrainzPlayer.tsx:180-182 | in a list without repeats, the position found for an element is its own position |
| Lists.Contains | listenbrainz/webserver/static/js/src/BrainzPlayer.tsx:222 | a search for the pattern as a contiguous part of the sequence |
| Lists.RemoveAt | listenbrainz/webserver/static/js/src/BrainzPlayer.tsx:188 | `splice(i, 1)` drops the length by one, and keeps the entries before and after `i` in order; past the end it changes nothing |
| Lists.RemoveAtReinsert | listenbrainz/webserver/static/js/src/BrainzPlayer.tsx:188 | putting the removed entry back at `i` restores the original list |
| Lists.ContainsMeansOccurs | listenbrainz/webserver/static/js/src/BrainzPlayer.tsx:222 | the URL test holds exactly when the pattern occurs at some position of the URL |
| Player.InitialSources | listenbrainz/webserver/static/js/src/BrainzPlayer.tsx:82-90 | 1 or 2 distinct backends, YouTube last, Spotify first exactly when both the access token and the permission are set |
| Player.NextChoice | listenbrainz/webserver/static/js/src/BrainzPlayer.tsx:141-149 | a listen is played only at an index inside the list |
| Player.CurrentIndex | listenbrainz/webserver/static/js/src/BrainzPlayer.tsx:104-107 | -1 exactly when there is no current listen or it is not in the list; otherwise the first position holding a listen equal to it in every field |
| Player.NextIndex | listenbrainz/webserver/static/js/src/BrainzPlayer.tsx:127-139 | None exactly for an unrecognised direction with a current listen; from a current index, one step: +1 when "down" differs from `invert`, -1 otherwise (also at index 0) |
| Player.IsSpotifyListen | listenbrainz/webserver/static/js/src/BrainzPlayer.tsx:210-213 | a listen is a Spotify listen when `listening_from` is "spotify" or it carries a non-empty `spotify_id` |
| Player.IsYoutubeListen | listenbrainz/webserver/static/js/src/BrainzPlayer.tsx:220-223 | a listen is a YouTube listen when `listening_from` is "youtube" or its origin URL contains `youtube.com/watch?` |
| Player.SelectSource | listenbrainz/webserver/static/js/src/BrainzPlayer.tsx:192-232 | a YouTube listen gets the YouTube backend if registered; otherwise a Spotify listen gets Spotify if registered; otherwise the requested index is kept |
| Player.InvalidationIndex | listenbrainz/webserver/static/js/src/BrainzPlayer.tsx:178-183 | with no backend named, the current index; with one named, -1 exactly when it is not registered, otherwise its position |
| Player.Toggled | listenbrainz/webserver/static/js/src/BrainzPlayer.tsx:286-291 | toggling always changes the direction and yields "up" or "down"; anything other than "down" becomes "down" |
| Player.EstimatedProgress | listenbrainz/webserver/static/js/src/BrainzPlayer.tsx:346-356 | when paused, progress is unchanged; when playing, it is the smaller of progress plus elapsed time and the duration |
| Player.RemoveAtKeepsDistinct | listenbrainz/webserver/static/js/src/BrainzPlayer.tsx:188 | removing a backend keeps the list free of repeats |
| Player.BrainzPlayer.constructor | listenbrainz/webserver/static/js/src/BrainzPlayer.tsx:79-102 | sources as in InitialSources; `firstRun` set; index 0; the direction prop, or "down" when absent; paused at 0 of 0 ms |
| Player.BrainzPlayer.HandleWarning | listenbrainz/webserver/static/js/src/BrainzPlayer.tsx:164-167 | a warning is appended to the log |
| Player.BrainzPlayer.InvalidateDataSource | listenbrainz/webserver/static/js/src/BrainzPlayer.tsx:174-190 | removes the entry at the resolved index when it is not negative; warns only then, and only with a message; keeps the sources distinct |
| Player.BrainzPlayer.PlayListen | listenbrainz/webserver/static/js/src/BrainzPlayer.tsx:192-246 | reports the listen; clears `firstRun`; sets the index SelectSource gives; sends the listen to that backend when one is there; leaves the sources unchanged |
| Player.BrainzPlayer.PlayNextTrack | listenbrainz/webserver/static/js/src/BrainzPlayer.tsx:113-150 | warns or plays, exactly as NextChoice decides |
| Player.BrainzPlayer.PlayPreviousTrack | listenbrainz/webserver/static/js/src/BrainzPlayer.tsx:109-111 | has the effect of `playNextTrack` with `invert` set |
| Player.BrainzPlayer.FailedToFindTrack | listenbrainz/webserver/static/js/src/BrainzPlayer.tsx:295-313 | with no current listen, acts as next track; with a backend left, replays the listen asking for the next index; otherwise warns, then acts as next track |
| Player.BrainzPlayer.ToggleDirection | listenbrainz/webserver/static/js/src/BrainzPlayer.tsx:286-291 | the direction becomes `Toggled` of the old one |
| Player.BrainzPlayer.TogglePlay | listenbrainz/webserver/static/js/src/BrainzPlayer.tsx:248-262 | the play/pause command reaches the current backend when there is one; the sources do not change |
| Player.BrainzPlayer.SeekToPositionMs | listenbrainz/webserver/static/js/src/BrainzPlayer.tsx:274-284 | the seek reaches the current backend when there is one; the sources do not change |
| Player.BrainzPlayer.PlayerPauseChange | listenbrainz/webserver/static/js/src/BrainzPlayer.tsx:315-323 | records the paused flag |
| Player.BrainzPlayer.ProgressChange | listenbrainz/webserver/static/js/src/BrainzPlayer.tsx:325-327 | records the reported progress and the time it arrived |
| Player.BrainzPlayer.DurationChange | listenbrainz/webserver/static/js/src/BrainzPlayer.tsx:329-331 | records the duration |
| Player.BrainzPlayer.GetStatePosition | listenbrainz/webserver/static/js/src/BrainzPlayer.tsx:346-356 | while playing, the new progress never exceeds the duration; while paused, it is unchanged; the update time is now |
| PlayerProperties.EmptyListensOnlyWarn | listenbrainz/webserver/static/js/src/BrainzPlayer.tsx:117-123 | with no listens the choice is the "No listens to play" warning |
| PlayerProperties.AbsentCurrentStartsAtEdge | listenbrainz/webserver/static/js/src/BrainzPlayer.tsx:125-129 | with no current listen in the list, play the last index for "up" and index 0 otherwise |
| PlayerProperties.StepFromCurrent | listenbrainz/webserver/static/js/src/BrainzPlayer.tsx:130-148 | from index i: "down" gives i+1 and "up" gives i-1, swapped when inverted; off either end, "No more listens to play" |
| PlayerProperties.ListenFoundByTimestamp | listenbrainz/webserver/static/js/src/BrainzPlayer.tsx:104-107 | a listen whose timestamp no earlier listen has is found at its own position, even when its track was played before |
| PlayerProperties.NothingBeforeFirstListen | listenbrainz/webserver/static/js/src/BrainzPlayer.tsx:130-148 | at index 0, `i - 1 || 0` is -1, so the step warns instead of playing index 0 |
| PlayerProperties.UnrecognisedDirectionWarns | listenbrainz/webserver/static/js/src/BrainzPlayer.tsx:136-139 | an unrecognised direction with a current listen found raises "Unrecognised state" |
| PlayerProperties.PreviousUndoesNext | listenbrainz/webserver/static/js/src/BrainzPlayer.tsx:109-150 | without repeated listens, previous after next returns to the same index |
| PlayerProperties.NextUndoesPrevious | listenbrainz/webserver/static/js/src/BrainzPlayer.tsx:109-150 | without repeated listens, next after previous returns to the same index |
| PlayerProperties.ToggleTwice | listenbrainz/webserver/static/js/src/BrainzPlayer.tsx:286-291 | toggling twice restores "up" or "down" |
| PlayerProperties.InvalidateRegisteredSource | listenbrainz/webserver/static/js/src/BrainzPlayer.tsx:174-190 | invalidating a registered backend removes exactly that backend; the rest keep their order |
| PlayerProperties.InvalidateUnregisteredSource | listenbrainz/webserver/static/js/src/BrainzPlayer.tsx:179-184 | a backend that is not registered resolves to -1, so nothing is removed |
| PlayerProperties.NamedServiceOverridesFallback | listenbrainz/webserver/static/js/src/BrainzPlayer.tsx:209-232 | for a listen naming a registered service, the requested index makes no difference |
| PlayerProperties.YoutubeUrlSelectsYoutube | listenbrainz/webserver/static/js/src/BrainzPlayer.tsx:219-227 | an origin URL containing `youtube.com/watch?` selects the YouTube backend |
| Importer.CeilDiv | listenbrainz/webserver/static/js/src/LastFMImporter.tsx:199 | the least integer q with q * b >= a |
| Importer.KeptListensBounds | listenbrainz/webserver/static/js/src/LastFMImporter.tsx:31-42 | the filter returns no more elements than its input, each with `listened_at > 0` |
| Importer.Encoded | listenbrainz/webserver/static/js/src/LastFMImporter.tsx:22-29 | `encodeScrobbles` returns no more listens than the page has tracks, each with `listened_at > 0` |
| Importer.Map | listenbrainz/webserver/static/js/src/LastFMImporter.tsx:31-42 | the loop returns the mapped elements with `listened_at > 0`, in input order |
| Importer.LeadingDigit | listenbrainz/webserver/static/js/src/LastFMImporter.tsx:178 | the first decimal digit: a digit, nonzero for a nonzero status, and `d * 10^(k-1) <= n < (d + 1) * 10^(k-1)` for `n` of `k` digits |
| Importer.Decide | listenbrainz/webserver/static/js/src/LastFMImporter.tsx:159-189 | a page is accepted exactly when the response is ok and has tracks; it is skipped only on a non-ok status |
| Importer.NextMaxTimestamp | listenbrainz/webserver/static/js/src/LastFMImporter.tsx:164-171 | unchanged unless the page is accepted; with a dated first track, the larger of the old value and that track's timestamp; with an undated first track, the clock in whole seconds, even when that is lower |
| Importer.RateLimitDelay | listenbrainz/webserver/static/js/src/LastFMImporter.tsx:192-204 | 0 with no limit or after the window; otherwise the ceiling of window/remaining, or the whole window when none remain; never negative |
| Importer.MismatchWarning | listenbrainz/webserver/static/js/src/LastFMImporter.tsx:300-302 | the count-mismatch warning shows for a full import with a known play count that differs from the count received |
| Importer.SubmitDisabled | listenbrainz/webserver/static/js/src/LastFMImporter.tsx:369-373 | the submit button is disabled exactly when the username is empty |
| Importer.LastFMImporter.constructor | listenbrainz/webserver/static/js/src/LastFMImporter.tsx:46-76 | the counters and rate-limit fields start at their declared values; the modal is hidden and can close |
| Importer.LastFMImporter.GetRateLimitDelay | listenbrainz/webserver/static/js/src/LastFMImporter.tsx:192-204 | the delay for the stored rate-limit fields: never negative, and 0 once the window has passed |
| Importer.LastFMImporter.HandleChange | listenbrainz/webserver/static/js/src/LastFMImporter.tsx:206-208 | stores the typed username |
| Importer.LastFMImporter.ToggleModal | listenbrainz/webserver/static/js/src/LastFMImporter.tsx:216-220 | negates `show` |
| Importer.LastFMImporter.UpdateRateLimitParameters | listenbrainz/webserver/static/js/src/LastFMImporter.tsx:348-353 | the remaining and reset fields take the header values (0 when absent); the origin takes the current time |
| Importer.LastFMImporter.SubmitPage | listenbrainz/webserver/static/js/src/LastFMImporter.tsx:329-346 | waits the delay of the old rate-limit fields, then updates them from the response |
| Importer.LastFMImporter.ScheduleRetry | listenbrainz/webserver/static/js/src/LastFMImporter.tsx:148-154 | a refetch of the page is scheduled |
| Importer.LastFMImporter.GetPage | listenbrainz/webserver/static/js/src/LastFMImporter.tsx:140-190 | returns the filtered payload only for an accepted page; adds its length to `countReceived`; updates `maxTimestampForImport`; schedules a retry exactly on Retry |
| Importer.LastFMImporter.ImportPages | listenbrainz/webserver/static/js/src/LastFMImporter.tsx:238-268 | visits pages from `page` down to 1; `numCompleted` grows by the number visited; ends with `page <= 0`; the counters follow the page folds |
| Importer.LastFMImporter.StartImport | listenbrainz/webserver/static/js/src/LastFMImporter.tsx:222-327 | aborts if the play count fails; otherwise sets the incremental flag iff the latest import time is positive, runs the loop, sends at least that time, and reports the mismatch warning |
| ImporterProperties.KeptListensMembership | listenbrainz/webserver/static/js/src/LastFMImporter.tsx:31-42 | a listen is kept iff some input maps to it and its `listened_at > 0` |
| ImporterProperties.KeptListensAppend | listenbrainz/webserver/static/js/src/LastFMImporter.tsx:31-42 | filtering a concatenation is the concatenation of the filtered parts, so input order is kept |
| ImporterProperties.LeadingDigitOfThreeDigits | listenbrainz/webserver/static/js/src/LastFMImporter.tsx:178 | a three-digit status starts with its hundreds digit |
| ImporterProperties.StatusDecision | listenbrainz/webserver/static/js/src/LastFMImporter.tsx:159-189 | 5xx and network errors retry; other non-ok statuses skip; an ok page with tracks is accepted |
| ImporterProperties.PagesCountDown | listenbrainz/webserver/static/js/src/LastFMImporter.tsx:236-247 | the visited pages are `totalPages, ..., 1`: one per iteration, each one below the last |
| ImporterProperties.NoPagesWithoutPositiveCount | listenbrainz/webserver/static/js/src/LastFMImporter.tsx:126-137 | when the page count request fails (-1) or finds nothing, no page is visited |
| ImporterProperties.ReceivedMatchesQueued | listenbrainz/webserver/static/js/src/LastFMImporter.tsx:174-175 | `countReceived` grows by exactly the number of listens passed to `submitPage` |
| ImporterProperties.MaxTimestampCoversPages | listenbrainz/webserver/static/js/src/LastFMImporter.tsx:164-168 | when accepted pages carry dates, `maxTimestampForImport` never decreases and covers each page's first timestamp |
| ImporterProperties.UndatedLastPageSetsClock | listenbrainz/webserver/static/js/src/LastFMImporter.tsx:164-171 | when page 1, fetched last, is accepted with an undated first track, the import ends with `maxTimestampForImport` equal to the clock in seconds, below any larger start value |

## Left out

- Rendering: all JSX output is out, and so is `Importer.tsx`, a presentational wrapper.
  The track name and artist shown (`getCurrentTrackName`, `getCurrentTrackArtists`,
  `trackInfoChange`) are out. So are the progress and final messages of the importer.
- `handleError` and `handleSuccess` are out. They only relay text from the vendor players.
  Alert text is out too: a warning is recorded by its title only.
- The Spotify and YouTube players are vendor code. A backend is modelled by its kind; its
  React ref is assumed mounted, so `.current` is never null. With a null ref,
  `playListen`, `togglePlay` and `seekToPositionMs` could remove a backend. The model does
  not capture that.
- `togglePlay` awaits the backend and catches its exceptions. Those exceptions are vendor
  behaviour and are not modelled.
- Timers are out: `startPlayerStateTimer`, `stopPlayerStateTimer` and the 200 ms interval.
  `playerPauseChange` and `durationChange` only set their field.
- `performance.now()` and `Date.now()` are parameters in integer milliseconds.
  `rlOrigin` is therefore kept in milliseconds. The comparison "now is past origin plus
  reset seconds" is then exact on integers.
- Network calls are out, and their results are parameters:
  - `getTotalNumberOfScrobbles`: an option, None when it throws;
  - `getNumberOfPages`: the page count, -1 on failure;
  - `getLatestImport`;
  - the response of each page;
  - the headers of `submitListens`.
  `setLatestImport` is reduced to the timestamp it is sent. Its catch-and-retry is not modelled.
- Concurrency is out. The unawaited `submitPage` in the loop is modelled as appending the
  payload to `queued`. `SubmitPage` models one such call run alone. A scheduled refetch is
  recorded in `scheduledRetries`, but the refetch itself is not modelled. When it finally
  runs, it updates `countReceived` and `maxTimestampForImport`, and its payload is dropped.
- `Scrobble` is not part of this model. `AsSubmission` stands in for
  `Scrobble(raw).asJSONSerializable()`: it gives `listened_at` from `date.uts`, and -1 for
  an undated track. `Map` and its lemmas hold for any mapping function.
- Floating point is out. Header values, play counts and timestamps are integers, so NaN
  from a non-numeric header is not modelled. `Math.ceil` is an exact integer ceiling
  division.
- An HTTP status is a natural number. Its decimal leading digit stands for the `/^5/` test.
- Lodash `_isEqual` is datatype equality on listens. `_get` reads an optional field.
- Player.NextChoice: a listen holds its `listened_at` and the track metadata the player reads.
  Other fields (such as the release name) are not modelled, so two listens that agree on the
  modelled fields but differ elsewhere are one value here, and are found at the first copy.
- React `setState` is asynchronous. The model applies each update at once, in program order.
