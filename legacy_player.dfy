/**
 * The older player page (app/player/page.tsx): a fixed 234-second mock
 * track, a one-second clock that always loops, a slider seek without clamp,
 * and a play toggle that acts only on the video of the open modal.
 */
module LegacyPlayer {
  const TrackDuration: real := 234.0

  class LegacyPlayerState {
    var isPlaying: bool
    var currentTime: real
    /** The video modal, whose `<video>` is the page's only video element. */
    var showVideoModal: bool

    /**
     * The position is never negative and stays below one second past the end:
     * the clock only wraps once the position has reached 234, so a position
     * reached by seeking to a fractional time can overshoot the end.
     */
    ghost predicate Valid()
      reads this
    {
      0.0 <= currentTime < TrackDuration + 1.0
    }

    /** The page starts playing at position 0. */
    constructor ()
      ensures Valid() && isPlaying && currentTime == 0.0 && !showVideoModal
    {
      isPlaying := true;
      currentTime := 0.0;
      showVideoModal := false;
    }

    /** One second of the clock (playing): back to 0 at or past the end, otherwise one second on. */
    method Tick()
      requires Valid() && isPlaying
      modifies this
      ensures Valid()
      ensures currentTime == if old(currentTime) >= TrackDuration then 0.0 else old(currentTime) + 1.0
      ensures isPlaying && showVideoModal == old(showVideoModal)
    {
      if currentTime >= TrackDuration {
        currentTime := 0.0;
        return;
      }
      currentTime := currentTime + 1.0;
    }

    /** handleSeek: the slider position (0 to 100) maps onto the track, with no clamp and no stop. */
    method Seek(percent: real)
      requires Valid() && 0.0 <= percent <= 100.0
      modifies this
      ensures Valid()
      ensures currentTime == percent / 100.0 * TrackDuration
      ensures 0.0 <= currentTime <= TrackDuration
      ensures isPlaying == old(isPlaying) && showVideoModal == old(showVideoModal)
    {
      currentTime := percent / 100.0 * TrackDuration;
    }

    /** handleNextTrack: back to the start of the (only) track. */
    method NextTrack()
      requires Valid()
      modifies this
      ensures Valid() && currentTime == 0.0 && isPlaying == old(isPlaying)
      ensures showVideoModal == old(showVideoModal)
    {
      currentTime := 0.0;
    }

    /**
     * togglePlay: nothing while the modal is closed (there is no video element
     * then); otherwise play a paused video, pause a playing one, and follow it.
     * `videoPaused` is the modal video's state.
     */
    method TogglePlay(videoPaused: bool)
      requires Valid()
      modifies this
      ensures Valid() && currentTime == old(currentTime) && showVideoModal == old(showVideoModal)
      ensures isPlaying == if showVideoModal then videoPaused else old(isPlaying)
    {
      if !showVideoModal {
        return;
      }
      if videoPaused {
        isPlaying := true;
      } else {
        isPlaying := false;
      }
    }

    /** openVideoModal and handleViewSavedVideo: show the video modal. */
    method OpenVideoModal()
      requires Valid()
      modifies this
      ensures Valid() && showVideoModal
      ensures isPlaying == old(isPlaying) && currentTime == old(currentTime)
    {
      showVideoModal := true;
    }

    /** closeVideoModal: hide the video modal. */
    method CloseVideoModal()
      requires Valid()
      modifies this
      ensures Valid() && !showVideoModal
      ensures isPlaying == old(isPlaying) && currentTime == old(currentTime)
    {
      showVideoModal := false;
    }
  }

  /**
   * With the modal closed there is no video element, so the play button changes
   * nothing however often it is pressed; with the modal open it pauses.
   */
  method PlayButtonWithoutVideoScenario() returns (playing: bool, withModal: bool)
    ensures playing && !withModal
  {
    var p := new LegacyPlayerState();
    p.TogglePlay(true);
    p.TogglePlay(false);
    p.TogglePlay(true);
    playing := p.isPlaying;
    p.OpenVideoModal();
    p.TogglePlay(false);
    withModal := p.isPlaying;
  }

  /** Seeking to 99% (231.66 s) and letting the clock run three seconds shows 234.66 s, past the end. */
  method OvershootScenario() returns (position: real)
    ensures position == 234.66 && position > TrackDuration
  {
    var p := new LegacyPlayerState();
    p.Seek(99.0);
    p.Tick();
    p.Tick();
    p.Tick();
    position := p.currentTime;
  }
}
