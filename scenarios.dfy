/**
 * Runs of the controller on the app's own two-track catalog, and properties
 * that take more than one event. The resource ids are opaque, so any four
 * distinct numbers stand for R.raw.sample_audio, R.raw.tusinbedin,
 * R.drawable.cover1 and R.drawable.cover2; the durations are whatever the
 * player reports for the two files.
 */
module Scenarios {
  import opened Wrappers
  import opened JavaInt
  import SongSearch
  import TrackIndex
  import Player

  const SampleAudio: int := 1
  const Tusinbedin: int := 2
  const Cover1: int := 3
  const Cover2: int := 4
  const SongNames: seq<string> := ["Umyttynba", "Tusinbedin"]

  /** The activity after `onCreate`, playing the first track. */
  method Started(d0: Int32, d1: Int32) returns (c: Player.Controller)
    ensures fresh(c) && c.Valid() && c.Live()
    ensures c.songNames == SongNames && c.songResources == [SampleAudio, Tusinbedin]
    ensures c.currentSongIndex == 0 && c.mediaPlayer.value.playing && c.pendingTicks == 1
  {
    c := new Player.Controller([SampleAudio, Tusinbedin], [Cover1, Cover2], SongNames, [d0, d1]);
    c.OnCreate();
  }

  /** Two presses of the play button restore the player and the screen; one of
      them posts a refresh tick. */
  method ToggleTwice(c: Player.Controller)
    requires c.Valid() && c.Live()
    modifies c
    ensures c.Valid() && c.Live()
    ensures c.mediaPlayer == old(c.mediaPlayer) && c.screen == old(c.screen)
    ensures c.currentSongIndex == old(c.currentSongIndex)
    ensures c.pendingTicks == old(c.pendingTicks) + 1
  {
    c.TogglePlayPause();
    c.TogglePlayPause();
  }

  /** Next then previous comes back to the same track, reloaded from position 0. */
  method NextThenPrevious(c: Player.Controller)
    requires c.Valid() && c.Live()
    modifies c
    ensures c.Valid() && c.Live()
    ensures c.currentSongIndex == old(c.currentSongIndex)
    ensures c.mediaPlayer.value.position == 0 && c.mediaPlayer.value.playing
  {
    c.Next();
    c.Previous();
    TrackIndex.PreviousUndoesNext(old(c.currentSongIndex), |c.songResources|);
  }

  /** Typing "tus" selects and plays the second track. */
  method SearchTus(d0: Int32, d1: Int32) returns (index: int, title: string, playing: bool)
    ensures index == 1 && title == "Tusinbedin" && playing
  {
    var c := Started(d0, d1);
    SongSearch.SourceCatalogQueries();
    c.FilterSongs("tus");
    index, title, playing := c.currentSongIndex, c.screen.songTitle, c.mediaPlayer.value.playing;
  }

  /** Typing "zzz" matches nothing: the first track keeps playing. */
  method SearchZzz(d0: Int32, d1: Int32) returns (index: int, playing: bool)
    ensures index == 0 && playing
  {
    var c := Started(d0, d1);
    SongSearch.SourceCatalogQueries();
    c.FilterSongs("zzz");
    index, playing := c.currentSongIndex, c.mediaPlayer.value.playing;
  }

  /** When the last track completes, the first one is loaded and playing. */
  method CompletionAtLastTrack(d0: Int32, d1: Int32) returns (index: int, resource: int, playing: bool)
    ensures index == 0 && resource == SampleAudio && playing
  {
    var c := Started(d0, d1);
    c.Previous();
    assert c.currentSongIndex == 1;
    c.OnCompletion();
    index, resource, playing := c.currentSongIndex, c.mediaPlayer.value.resource, c.mediaPlayer.value.playing;
  }

  /** The activity destroyed while playing, as written: the refresh tick posted by
      `loadSong` still runs, and `isPlaying()` on the released player throws. */
  method DestroyWhilePlayingCrashes(d0: Int32, d1: Int32) returns (crashed: bool)
    ensures crashed
  {
    var c := Started(d0, d1);
    c.OnDestroyAsWritten();
    crashed := c.Tick(0);
  }

  /** With the posted ticks removed on destroy, no tick is left to run. */
  method DestroyWhilePlayingCorrected(d0: Int32, d1: Int32) returns (pending: nat, live: bool)
    ensures pending == 0 && !live
  {
    var c := Started(d0, d1);
    c.OnDestroy();
    pending, live := c.pendingTicks, c.mediaPlayer.Some? && !c.released;
  }
}
