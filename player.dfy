/**
 * The player controller inside the app's single screen: one current track
 * index over a fixed catalog of three parallel arrays (audio resource, cover
 * image, display name), one platform media player handle, the "refresh" tick
 * that copies the playback position to the seek bar once a second, and the
 * view fields that loading a track sets.
 *
 * The platform media player is abstracted to a `Session` (its resource,
 * duration, position and whether it is playing), plus a `released` flag: the
 * field keeps referring to a player after `release()` until it is replaced.
 * The ghost counter `liveHandles` counts players created and not released;
 * `Create` demands that it be zero, so every load must release first.
 *
 * The `Handler` queue is abstracted to `pendingTicks`, the number of posted
 * runs of the refresh tick: `postDelayed` adds one, `removeCallbacks` drops
 * them all, and each run consumes one and posts the next while playing.
 */
module Player {
  import opened Wrappers
  import opened JavaInt
  import TimeFormat
  import SongSearch
  import TrackIndex

  /** The play button's image: "play" while paused, "pause" while playing. */
  datatype Icon = PlayIcon | PauseIcon

  /** What the platform media player holds for one created player. */
  datatype Session = Session(resource: int, duration: Int32, position: Int32, playing: bool)

  /** The widgets the controller writes to. */
  datatype Screen = Screen(
    songTitle: string,
    albumCover: int,
    totalTimeText: string,
    currentTimeText: string,
    seekMax: Int32,
    seekProgress: Int32,
    playIcon: Icon)

  class Controller {
    /** The catalog: three parallel arrays, and the duration the player reports for each resource. */
    const songResources: seq<int>
    const albumCovers: seq<int>
    const songNames: seq<string>
    const durations: seq<Int32>

    var currentSongIndex: int
    /** The `mediaPlayer` field; `None` is `null`. */
    var mediaPlayer: Option<Session>
    /** Whether the player `mediaPlayer` refers to has been released. */
    var released: bool
    var pendingTicks: nat
    var screen: Screen
    ghost var liveHandles: nat

    /** The catalog is well formed, the index is in range, and the live players are counted. */
    ghost predicate Consistent()
      reads this
    {
      && 0 < |songResources|
      && |albumCovers| == |songResources|
      && |songNames| == |songResources|
      && |durations| == |songResources|
      && 0 <= currentSongIndex < |songResources|
      && (mediaPlayer.None? ==> !released)
      && liveHandles == (if mediaPlayer.Some? && !released then 1 else 0)
    }

    /** The player and the screen are bound to track `i`. */
    ghost predicate Shows(i: int)
      reads this
      requires Consistent()
    {
      && 0 <= i < |songResources|
      && mediaPlayer.Some?
      && mediaPlayer.value.resource == songResources[i]
      && mediaPlayer.value.duration == durations[i]
      && screen.songTitle == songNames[i]
      && screen.albumCover == albumCovers[i]
      && screen.seekMax == durations[i]
      && screen.totalTimeText == TimeFormat.FormatTime(durations[i])
    }

    /** Between events: consistent, any player is the current track's, and while
        it is live the button shows "pause" exactly when it is playing. */
    ghost predicate Valid()
      reads this
    {
      && Consistent()
      && (mediaPlayer.Some? ==> Shows(currentSongIndex))
      && (mediaPlayer.Some? && !released ==> (screen.playIcon == PauseIcon <==> mediaPlayer.value.playing))
    }

    /** A player exists and has not been released: the screen's listeners can run. */
    ghost predicate Live()
      reads this
    {
      mediaPlayer.Some? && !released
    }

    /** At most one player is ever unreleased. */
    lemma AtMostOnePlayer()
      requires Consistent()
      ensures liveHandles <= 1
      ensures liveHandles == 1 <==> Live()
    {
    }

    /** The state `loadSong(i)` leaves: track `i` freshly created and started,
        its title, cover and duration on screen, the "pause" icon, one more tick posted. */
    ghost predicate JustLoaded(i: int, before: Screen, ticksBefore: nat)
      reads this
    {
      && Consistent()
      && Shows(i)
      && mediaPlayer == Some(Session(songResources[i], durations[i], 0, true))
      && !released
      && screen.playIcon == PauseIcon
      && screen.currentTimeText == before.currentTimeText
      && screen.seekProgress == before.seekProgress
      && pendingTicks == ticksBefore + 1
    }

    /** The activity before `onCreate`: index 0, no player, nothing posted. */
    constructor (songResources: seq<int>, albumCovers: seq<int>, songNames: seq<string>, durations: seq<Int32>)
      requires 0 < |songResources|
      requires |albumCovers| == |songResources| && |songNames| == |songResources| && |durations| == |songResources|
      ensures Valid()
      ensures this.songResources == songResources && this.albumCovers == albumCovers
      ensures this.songNames == songNames && this.durations == durations
      ensures currentSongIndex == 0 && mediaPlayer == None && !released
      ensures pendingTicks == 0 && liveHandles == 0
    {
      this.songResources := songResources;
      this.albumCovers := albumCovers;
      this.songNames := songNames;
      this.durations := durations;
      currentSongIndex := 0;
      mediaPlayer := None;
      released := false;
      pendingTicks := 0;
      screen := Screen("", 0, "", "", 0, 0, PlayIcon);
      liveHandles := 0;
    }

    /** `mediaPlayer.release()`: the field keeps the handle, which is no longer live. */
    method Release()
      requires Consistent() && mediaPlayer.Some?
      modifies this
      ensures Consistent() && liveHandles == 0
      ensures mediaPlayer == old(mediaPlayer) && released
      ensures currentSongIndex == old(currentSongIndex) && pendingTicks == old(pendingTicks)
      ensures screen == old(screen)
    {
      if !released {
        liveHandles := liveHandles - 1;
      }
      released := true;
    }

    /** `MediaPlayer.create` for track `i`: a prepared, stopped player at position 0.
        No player may be live when it is called. */
    method Create(i: int)
      requires Consistent() && 0 <= i < |songResources|
      requires liveHandles == 0
      modifies this
      ensures Consistent() && liveHandles == 1
      ensures mediaPlayer == Some(Session(songResources[i], durations[i], 0, false)) && !released
      ensures currentSongIndex == old(currentSongIndex) && pendingTicks == old(pendingTicks)
      ensures screen == old(screen)
    {
      mediaPlayer := Some(Session(songResources[i], durations[i], 0, false));
      released := false;
      liveHandles := liveHandles + 1;
    }

    /** `mediaPlayer.start()`. */
    method Start()
      requires Consistent() && Live()
      modifies this`mediaPlayer
      ensures Consistent() && Live()
      ensures mediaPlayer == Some(old(mediaPlayer).value.(playing := true))
    {
      mediaPlayer := Some(mediaPlayer.value.(playing := true));
    }

    /** `loadSong(index)`: release the old player, create and show the new one, start it,
        show "pause", post a refresh tick. The current index is not touched. */
    method LoadSong(index: int)
      requires Consistent() && 0 <= index < |songResources|
      modifies this
      ensures JustLoaded(index, old(screen), old(pendingTicks))
      ensures currentSongIndex == old(currentSongIndex)
      ensures liveHandles == 1
    {
      if mediaPlayer.Some? {
        Release();
      }
      Create(index);
      var duration := mediaPlayer.value.duration;
      screen := screen.(seekMax := duration);
      screen := screen.(totalTimeText := TimeFormat.FormatTime(duration));
      screen := screen.(songTitle := songNames[index]);
      screen := screen.(albumCover := albumCovers[index]);
      Start();
      screen := screen.(playIcon := PauseIcon);
      pendingTicks := pendingTicks + 1;
    }

    /** `onCreate`: load the current (first) track. */
    method OnCreate()
      requires Valid() && mediaPlayer.None?
      modifies this
      ensures Valid() && Live()
      ensures currentSongIndex == old(currentSongIndex)
      ensures JustLoaded(currentSongIndex, old(screen), old(pendingTicks))
    {
      LoadSong(currentSongIndex);
    }

    /** The play button: pause a playing player and show "play"; otherwise start it,
        show "pause" and post a refresh tick. Nothing else changes. */
    method TogglePlayPause()
      requires Valid() && Live()
      modifies this
      ensures Valid() && Live()
      ensures old(mediaPlayer.value.playing) ==>
        && mediaPlayer == Some(old(mediaPlayer.value).(playing := false))
        && screen == old(screen).(playIcon := PlayIcon)
        && pendingTicks == old(pendingTicks)
      ensures !old(mediaPlayer.value.playing) ==>
        && mediaPlayer == Some(old(mediaPlayer.value).(playing := true))
        && screen == old(screen).(playIcon := PauseIcon)
        && pendingTicks == old(pendingTicks) + 1
      ensures currentSongIndex == old(currentSongIndex) && liveHandles == old(liveHandles)
    {
      if mediaPlayer.value.playing {
        mediaPlayer := Some(mediaPlayer.value.(playing := false));
        screen := screen.(playIcon := PlayIcon);
      } else {
        Start();
        screen := screen.(playIcon := PauseIcon);
        pendingTicks := pendingTicks + 1;
      }
    }

    /** The previous button: step back with wrap-around and load that track. */
    method Previous()
      requires Valid() && Live()
      modifies this
      ensures Valid() && Live()
      ensures currentSongIndex == TrackIndex.Previous(old(currentSongIndex), |songResources|)
      ensures JustLoaded(currentSongIndex, old(screen), old(pendingTicks))
    {
      currentSongIndex := TrackIndex.Previous(currentSongIndex, |songResources|);
      LoadSong(currentSongIndex);
    }

    /** The next button: step forward with wrap-around and load that track. */
    method Next()
      requires Valid() && Live()
      modifies this
      ensures Valid() && Live()
      ensures currentSongIndex == TrackIndex.Next(old(currentSongIndex), |songResources|)
      ensures JustLoaded(currentSongIndex, old(screen), old(pendingTicks))
    {
      currentSongIndex := TrackIndex.Next(currentSongIndex, |songResources|);
      LoadSong(currentSongIndex);
    }

    /** The completion listener: advance with wrap-around, load that track and start it
        (a second, redundant start). */
    method OnCompletion()
      requires Valid() && Live()
      modifies this
      ensures Valid() && Live()
      ensures currentSongIndex == TrackIndex.Next(old(currentSongIndex), |songResources|)
      ensures JustLoaded(currentSongIndex, old(screen), old(pendingTicks))
    {
      currentSongIndex := TrackIndex.Next(currentSongIndex, |songResources|);
      LoadSong(currentSongIndex);
      Start();
    }

    /** The seek bar's progress listener: only a change made by the user moves the
        player and the current-time label; the source does not clamp `progress`. */
    method OnProgressChanged(progress: Int32, fromUser: bool)
      requires Valid() && Live()
      requires fromUser ==> 0 <= progress <= mediaPlayer.value.duration
      modifies this
      ensures Valid() && Live()
      ensures !fromUser ==> unchanged(this)
      ensures fromUser ==>
        && mediaPlayer == Some(old(mediaPlayer.value).(position := progress))
        && screen == old(screen).(currentTimeText := TimeFormat.FormatTime(progress))
        && pendingTicks == old(pendingTicks)
      ensures currentSongIndex == old(currentSongIndex) && liveHandles == old(liveHandles)
    {
      if fromUser {
        mediaPlayer := Some(mediaPlayer.value.(position := progress));
        screen := screen.(currentTimeText := TimeFormat.FormatTime(progress));
      }
    }

    /** Drag start: `removeCallbacks` drops every posted refresh tick. */
    method OnStartTrackingTouch()
      requires Valid() && Live()
      modifies this`pendingTicks
      ensures Valid() && Live()
      ensures pendingTicks == 0
    {
      pendingTicks := 0;
    }

    /** Drag stop: post one refresh tick. */
    method OnStopTrackingTouch()
      requires Valid() && Live()
      modifies this`pendingTicks
      ensures Valid() && Live()
      ensures pendingTicks == old(pendingTicks) + 1
    {
      pendingTicks := pendingTicks + 1;
    }

    /**
     * One run of the posted refresh tick (`updateSeekBar.run`). `position` is what
     * the player reports as its current position at that moment. While playing it
     * copies the position to the seek bar and the current-time label and posts the
     * next run; otherwise the chain ends. On a released player `isPlaying()` throws
     * IllegalStateException: `crashed` reports it.
     */
    method Tick(position: Int32) returns (crashed: bool)
      requires Valid() && pendingTicks > 0
      modifies this
      ensures Valid()
      ensures crashed == old(mediaPlayer.Some? && released)
      ensures old(Live() && mediaPlayer.value.playing) ==>
        && mediaPlayer == Some(old(mediaPlayer.value).(position := position))
        && screen == old(screen).(seekProgress := position, currentTimeText := TimeFormat.FormatTime(position))
        && pendingTicks == old(pendingTicks)
      ensures !old(Live() && mediaPlayer.value.playing) ==>
        && mediaPlayer == old(mediaPlayer)
        && screen == old(screen)
        && pendingTicks == old(pendingTicks) - 1
      ensures currentSongIndex == old(currentSongIndex) && released == old(released)
      ensures liveHandles == old(liveHandles)
    {
      crashed := false;
      pendingTicks := pendingTicks - 1;
      if mediaPlayer.Some? {
        if released {
          crashed := true;
        } else if mediaPlayer.value.playing {
          mediaPlayer := Some(mediaPlayer.value.(position := position));
          screen := screen.(seekProgress := position);
          screen := screen.(currentTimeText := TimeFormat.FormatTime(position));
          pendingTicks := pendingTicks + 1;
        }
      }
    }

    /**
     * The search box: lower the query and each name in catalog order, and load the
     * first name that contains the query. When none does, nothing changes.
     */
    method FilterSongs(query: string)
      requires Valid() && Live()
      modifies this
      ensures Valid() && Live()
      ensures SongSearch.FirstMatch(songNames, query).None? ==> unchanged(this)
      ensures SongSearch.FirstMatch(songNames, query).Some? ==>
        && currentSongIndex == SongSearch.FirstMatch(songNames, query).value
        && JustLoaded(currentSongIndex, old(screen), old(pendingTicks))
    {
      for i := 0 to |songNames|
        invariant forall j :: 0 <= j < i ==> !SongSearch.Matches(songNames[j], query)
        invariant unchanged(this)
      {
        if SongSearch.Matches(songNames[i], query) {
          currentSongIndex := i;
          LoadSong(currentSongIndex);
          break;
        }
      }
    }

    /** `onDestroy` as the app has it: release the player, but leave the posted
        refresh ticks in the queue. */
    method OnDestroyAsWritten()
      requires Valid()
      modifies this
      ensures Valid() && liveHandles == 0
      ensures mediaPlayer == old(mediaPlayer) && released == mediaPlayer.Some?
      ensures pendingTicks == old(pendingTicks)
      ensures currentSongIndex == old(currentSongIndex) && screen == old(screen)
    {
      if mediaPlayer.Some? {
        Release();
      }
    }

    /** `onDestroy` with `removeCallbacks(updateSeekBar)` added: no player stays live
        and no tick can run against the released player. */
    method OnDestroy()
      requires Valid()
      modifies this
      ensures Valid() && liveHandles == 0
      ensures mediaPlayer == old(mediaPlayer) && released == mediaPlayer.Some?
      ensures pendingTicks == 0
      ensures currentSongIndex == old(currentSongIndex) && screen == old(screen)
    {
      if mediaPlayer.Some? {
        Release();
      }
      pendingTicks := 0;
    }
  }
}
