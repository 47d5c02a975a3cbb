# Media player controller, modelled in Dafny

A model of the player controller inside the single screen (`MainActivity`) of a
small Android audio player: a fixed catalog of tracks held as three parallel
arrays (audio resource, cover image, display name), one platform media player,
play/pause, previous/next with wrap-around, automatic rollover when a track
completes, seeking from the seek bar, a once-a-second refresh of the seek bar
and time label, a search box that loads the first matching track, and the
release of the player when the screen is destroyed.

Modules, one per concern of the source file:

- `JavaInt` (`java_int.dfy`): Java's `int` range and its truncating `/` and `%`.
- `TimeFormat` (`time_format.dfy`): `formatTime`, the `"m:ss"` label, with a
  reader `ParseTime` as its partner and round-trip lemmas in both directions.
- `SongSearch` (`song_search.dfy`): ASCII lowering, `String.contains`, and the
  first-match search behind `filterSongs`.
- `TrackIndex` (`track_index.dfy`): the next/previous index arithmetic, and what
  pressing next or previous `k` times does.
- `Player` (`player.dfy`): the class `Controller`, whose fields are the activity's
  fields and whose methods are `loadSong` and the listeners.
- `Scenarios` (`scenarios.dfy`): runs on the app's own two-track catalog and
  properties spanning several events.

Abstractions:

- The platform media player is a `Session` value (resource, duration, position,
  playing) plus a `released` flag, because the field keeps pointing at a released
  player until it is replaced. A ghost counter `liveHandles` counts players created
  and not yet released. `Create` requires it to be zero, so release-before-create
  is checked at every load, and `Consistent()` keeps it at most one.
- The `Handler` queue is the count `pendingTicks` of posted refresh runs.
  `postDelayed` adds one and `removeCallbacks` clears them all. A run consumes one
  and posts the next while the player plays. The 1000 ms delay is not modelled.
- The views are the record `Screen`. Resource ids are plain integers.
- The duration the player reports for each resource is part of the catalog
  (`durations`). The position the player reports when the tick runs is a
  parameter of `Tick`, since it depends on the clock.

Behaviour of the code that the model keeps as written:

- `loadSong` does not change `currentSongIndex`. The callers set it first.
- Every load and every resume posts one more refresh run without removing the
  pending ones. Chains of refresh runs therefore add up: after `next` has been
  pressed twice, three runs are pending. Pausing does not remove a pending run.
  That run fires once, sees the player paused, and ends its chain.
- `formatTime` divides with truncation, so `-65000` gives `"-1:-5"` and `-1`
  gives `"0:00"`. Minutes are not wrapped, so one hour is `"60:00"`.
- An empty search query matches every name, so it loads the first track.

## Model

| member | source | states |
|---|---|---|
| JavaInt.Div | app/src/main/java/com/example/media4/MainActivity.java:166-168 | Java division of a `long` by a positive constant rounds toward zero: the quotient times the divisor lies between 0 and the dividend, within one divisor of it |
| JavaInt.Rem | app/src/main/java/com/example/media4/MainActivity.java:76 | Java `%`: dividend = divisor·quotient + remainder; the remainder is in [0, b) for a non-negative dividend and in (-b, 0] for a negative one |
| TimeFormat.Decimal | app/src/main/java/com/example/media4/MainActivity.java:165 | `%d` of a non-negative number: non-empty, all digits, no leading zero unless the number is 0, one digit exactly below 10 |
| TimeFormat.FormatD | app/src/main/java/com/example/media4/MainActivity.java:165 | `%d`: a minus sign exactly for negative values, then canonical digits that read back as the magnitude |
| TimeFormat.Format02D | app/src/main/java/com/example/media4/MainActivity.java:165 | `%02d`: at least two characters, a minus sign exactly for negative values, and for 0..99 exactly two digits denoting the value (0..9 zero-padded) |
| TimeFormat.Minutes | app/src/main/java/com/example/media4/MainActivity.java:166 | `toMinutes` rounds toward zero: ms / 60000 for ms ≥ 0, minus the minutes of -ms below zero |
| TimeFormat.Seconds | app/src/main/java/com/example/media4/MainActivity.java:167-168 | for ms ≥ 0 the seconds within the minute, in [0, 60), with 60·minutes + seconds = ms / 1000; below zero in (-60, 0], mirroring -ms |
| TimeFormat.SecondsDigits | app/src/main/java/com/example/media4/MainActivity.java:165-168 | for ms ≥ 0 the seconds field is written as the two digits of (ms / 1000) mod 60 |
| TimeFormat.FormatTime | app/src/main/java/com/example/media4/MainActivity.java:164-169 | for ms ≥ 0 the label is the unpadded decimal minutes ms / 60000 (not wrapped at 60), ":", then the two digits of the seconds within the minute; ParseFormatTime and FormatTimeOfParse prove the round trip both ways |
| TimeFormat.TwoDigitSeconds | app/src/main/java/com/example/media4/MainActivity.java:165 | `%02d` writes seconds 0..59 as exactly two digits, tens then units |
| TimeFormat.ParseDecimalOfDecimal | app/src/main/java/com/example/media4/MainActivity.java:165 | the digits written for a number read back as that number |
| TimeFormat.DecimalOfParseDecimal | app/src/main/java/com/example/media4/MainActivity.java:165 | every canonical digit string is the one written for the number it denotes |
| TimeFormat.ParseFormatTime | app/src/main/java/com/example/media4/MainActivity.java:164-169 | reading back the label of ms ≥ 0 gives ms / 1000, the whole seconds elapsed |
| TimeFormat.FormatTimeOfParse | app/src/main/java/com/example/media4/MainActivity.java:164-169 | every well-formed "m:ss" label (canonical minutes, seconds < 60) is exactly the label written for that many seconds |
| TimeFormat.FormatTimeExamples | app/src/main/java/com/example/media4/MainActivity.java:164-169 | 65000 → "1:05", 5000 → "0:05", 600000 → "10:00", 3600000 → "60:00", -1 → "0:00", -65000 → "-1:-5" |
| SongSearch.ToLower | app/src/main/java/com/example/media4/MainActivity.java:175 | lowering keeps the length, leaves no upper-case letter, keeps every other character where it was, and replaces each upper-case letter in place by its lower-case form |
| SongSearch.LowerIdempotent | app/src/main/java/com/example/media4/MainActivity.java:175 | lowering an already lowered string changes nothing |
| SongSearch.LowerChar | app/src/main/java/com/example/media4/MainActivity.java:175 | an upper-case ASCII letter becomes the same letter in lower case, every other character is kept, and no upper-case letter results |
| SongSearch.OccursInTail | app/src/main/java/com/example/media4/MainActivity.java:175 | when the part is not a prefix of a non-empty string, its occurrences are exactly those in the tail, shifted by one |
| SongSearch.Contains | app/src/main/java/com/example/media4/MainActivity.java:175 | `contains` holds exactly when the part occurs as a contiguous block somewhere in the string (the empty part always does) |
| SongSearch.Matches | app/src/main/java/com/example/media4/MainActivity.java:175 | a name matches exactly when the lowered query occurs somewhere in the lowered name |
| SongSearch.FirstMatchFrom | app/src/main/java/com/example/media4/MainActivity.java:174-178 | the search from a position returns the smallest matching index at or after it, or none exactly when no later name matches |
| SongSearch.FirstMatch | app/src/main/java/com/example/media4/MainActivity.java:172-181 | the chosen index is a match, no earlier name matches, and nothing is chosen exactly when no name matches |
| SongSearch.EmptyQuerySelectsFirst | app/src/main/java/com/example/media4/MainActivity.java:174-178 | with a non-empty catalog the empty query selects index 0 |
| SongSearch.QueryCaseIrrelevant | app/src/main/java/com/example/media4/MainActivity.java:175 | a query and its lowered form select the same track |
| SongSearch.NoOccurrence | app/src/main/java/com/example/media4/MainActivity.java:175 | a string lacking one of the query's characters does not contain the query |
| SongSearch.SourceNamesLowered | app/src/main/java/com/example/media4/MainActivity.java:26 | the catalog names, lowered: "umyttynba" has no 's' or 'z', "tusinbedin" starts with "tus" and has no 'z' |
| SongSearch.SourceCatalogQueries | app/src/main/java/com/example/media4/MainActivity.java:26 | on the app's catalog "tus" and "TUS" select index 1 and "zzz" selects nothing |
| TrackIndex.Next | app/src/main/java/com/example/media4/MainActivity.java:82 | `(i + 1) % N` stays in [0, N) and is i + 1, or 0 after the last index |
| TrackIndex.Previous | app/src/main/java/com/example/media4/MainActivity.java:76 | `(i - 1 + N) % N` stays in [0, N) and is i - 1, or N - 1 before index 0 |
| TrackIndex.PreviousUndoesNext | app/src/main/java/com/example/media4/MainActivity.java:75-84 | previous undoes next and next undoes previous |
| TrackIndex.NextTimes | app/src/main/java/com/example/media4/MainActivity.java:82 | pressing next k times stays in [0, N) |
| TrackIndex.PreviousTimes | app/src/main/java/com/example/media4/MainActivity.java:76 | pressing previous k times stays in [0, N) |
| TrackIndex.ModUnique | app/src/main/java/com/example/media4/MainActivity.java:82 | a decomposition x = n·q + r with 0 ≤ r < n fixes the remainder |
| TrackIndex.ModSucc | app/src/main/java/com/example/media4/MainActivity.java:82 | adding one moves the remainder one step forward, wrapping from n - 1 to 0 |
| TrackIndex.ModPred | app/src/main/java/com/example/media4/MainActivity.java:76 | subtracting one moves the remainder one step back, wrapping from 0 to n - 1 |
| TrackIndex.NextTimesAdvances | app/src/main/java/com/example/media4/MainActivity.java:82 | pressing next k times from i reaches (i + k) mod N |
| TrackIndex.PreviousTimesRetreats | app/src/main/java/com/example/media4/MainActivity.java:76 | pressing previous k times from i reaches (i - k) mod N |
| TrackIndex.FullCircle | app/src/main/java/com/example/media4/MainActivity.java:75-84 | N presses of next, or of previous, return to the starting index |
| Player.Controller.constructor | app/src/main/java/com/example/media4/MainActivity.java:16-27 | before `onCreate`: index 0, no player, nothing posted, no live player |
| Player.Controller.AtMostOnePlayer | app/src/main/java/com/example/media4/MainActivity.java:139-143 | at most one player is unreleased, and one is exactly when the field holds an unreleased player |
| Player.Controller.Release | app/src/main/java/com/example/media4/MainActivity.java:140 | `release()` leaves the field pointing at the player, marks it released and leaves no live player |
| Player.Controller.Create | app/src/main/java/com/example/media4/MainActivity.java:143 | `create` needs no live player and yields the track's stopped player at position 0 with the track's duration |
| Player.Controller.Start | app/src/main/java/com/example/media4/MainActivity.java:158 | `start()` sets the player playing and changes nothing else of it |
| Player.Controller.LoadSong | app/src/main/java/com/example/media4/MainActivity.java:138-161 | the old player is released before the new one is created. Afterwards the track's player plays from 0, the title and cover are the track's, and the seek-bar max and total-time label come from its duration. The icon shows "pause", one more tick is posted, exactly one player is live, and the index is untouched |
| Player.Controller.OnCreate | app/src/main/java/com/example/media4/MainActivity.java:59-60 | `onCreate` loads the current track, leaving the controller valid and playing |
| Player.Controller.TogglePlayPause | app/src/main/java/com/example/media4/MainActivity.java:63-72 | from playing: paused, "play" icon, nothing posted. From paused: playing, "pause" icon, one tick posted. Index, track and everything else are unchanged |
| Player.Controller.Previous | app/src/main/java/com/example/media4/MainActivity.java:75-78 | the index becomes `(i - 1 + N) % N` and that track is loaded and playing |
| Player.Controller.Next | app/src/main/java/com/example/media4/MainActivity.java:81-84 | the index becomes `(i + 1) % N` and that track is loaded and playing |
| Player.Controller.OnCompletion | app/src/main/java/com/example/media4/MainActivity.java:150-155 | completion advances the index with wrap-around, loads that track and leaves it playing |
| Player.Controller.OnProgressChanged | app/src/main/java/com/example/media4/MainActivity.java:89-94 | a change not made by the user changes nothing. A user change moves the player to `progress` and shows `formatTime(progress)`, and nothing else changes |
| Player.Controller.OnStartTrackingTouch | app/src/main/java/com/example/media4/MainActivity.java:97-99 | drag start removes every posted refresh tick |
| Player.Controller.OnStopTrackingTouch | app/src/main/java/com/example/media4/MainActivity.java:102-104 | drag stop posts one refresh tick |
| Player.Controller.Tick | app/src/main/java/com/example/media4/MainActivity.java:30-40 | while playing, a tick copies the reported position to the player, the seek bar and the time label, and posts the next tick. Otherwise nothing changes and the chain ends. On a released player it reports the exception |
| Player.Controller.FilterSongs | app/src/main/java/com/example/media4/MainActivity.java:172-181 | when some name matches, the index becomes the first match and that track is loaded and playing. When none matches, nothing changes |
| Player.Controller.OnDestroyAsWritten | app/src/main/java/com/example/media4/MainActivity.java:184-189 | `onDestroy` as written releases the player (none stays live) but leaves every posted tick pending |
| Player.Controller.OnDestroy | app/src/main/java/com/example/media4/MainActivity.java:184-189 | `onDestroy` with the posted ticks removed: no player live and no tick pending |
| Scenarios.Started | app/src/main/java/com/example/media4/MainActivity.java:24-27 | the app's catalog after `onCreate`: index 0, playing, one tick pending |
| Scenarios.ToggleTwice | app/src/main/java/com/example/media4/MainActivity.java:63-72 | two presses of play/pause restore the player and the screen, and post one tick |
| Scenarios.NextThenPrevious | app/src/main/java/com/example/media4/MainActivity.java:75-84 | next then previous returns to the same index, with the track reloaded from 0 and playing |
| Scenarios.SearchTus | app/src/main/java/com/example/media4/MainActivity.java:172-181 | typing "tus" on the app's catalog loads and plays "Tusinbedin", index 1 |
| Scenarios.SearchZzz | app/src/main/java/com/example/media4/MainActivity.java:172-181 | typing "zzz" leaves index 0 playing |
| Scenarios.CompletionAtLastTrack | app/src/main/java/com/example/media4/MainActivity.java:150-155 | completing the last track loads the first one, index 0, playing |
| Scenarios.DestroyWhilePlayingCrashes | app/src/main/java/com/example/media4/MainActivity.java:32-33 | destroyed while playing, as written: the tick left pending runs against the released player |
| Scenarios.DestroyWhilePlayingCorrected | app/src/main/java/com/example/media4/MainActivity.java:184-189 | with the ticks removed on destroy, none is pending and no player is live |

## Findings

| source | as written | input that shows it | evidently intended | confidence | as-written member | corrected member |
|---|---|---|---|---|---|---|
| app/src/main/java/com/example/media4/MainActivity.java:184-189 | `onDestroy` releases the player but leaves `updateSeekBar` posted. The next run calls `isPlaying()` on the released player (line 33), which throws IllegalStateException | destroy the activity (back press, rotation) at any moment while a track plays, since each run re-posts itself (line 37) so one is always pending; or within a second of a pause, a drag stop, a load or a resume, whose posted run is still pending | remove the posted refresh runs when the player is released (`handler.removeCallbacks(updateSeekBar)` in `onDestroy`) | medium; not executed | Scenarios.DestroyWhilePlayingCrashes | Player.Controller.OnDestroy |

## Left out

- The volume seek bar (lines 108-120): it maps `progress / 100f` to a floating-point gain, which is not modelled.
- Widget wiring in `onCreate` (`findViewById`, registering the listeners, the `SearchView` plumbing): the listeners are methods of `Controller`. `onQueryTextSubmit` only returns false, and only `onQueryTextChange` calls the filter.
- The seek bar's own behaviour: `setMax` clamping the progress, the user's drag moving the thumb, and `setProgress` calling the listener back with `fromUser == false`. That callback changes nothing in the listener.
- Platform media player internals: decoding, a failed `create` (the code has no error path for it, so the model assumes success), the position advancing with the clock, and the engine delivering completion.
- Player.Controller.Tick: the position comes from the player's clock, so it is taken as a parameter. It is not derived from elapsed time.
- Player.Controller.OnProgressChanged: a user change requires 0 ≤ progress ≤ duration, which the seek bar whose max is the duration guarantees. The code does not clamp, and out-of-range seeks are not modelled.
- `Handler` timing: the 1000 ms delay, drift and message ordering. Only the number of pending runs is kept.
- `toLowerCase()` is locale-sensitive and covers all of Unicode. The model lowers ASCII letters only.
- `String.format` uses the default locale's digits. The model writes ASCII digits.
- An empty catalog: the code has none and would fail on index 0, so every `Controller` has at least one track.
- Activity lifecycle beyond `onCreate` and `onDestroy` (pause, resume, saved state).
