/**
 * The turntable player (app/player/PlayerClient.tsx): asset lookup by uuid,
 * the simulated one-second clock used when a track has no audio file, the
 * audio element's event bridge, seeking from the 0-100 slider, the tonearm
 * angle and the record's rotation.
 *
 * Times are `real` seconds. The rotation is kept in integer milli-degrees:
 * 360 degrees per 10000 ms is 36 milli-degrees per millisecond.
 */
module Transport {
  import opened Wrappers
  import opened Arithmetic

  datatype Track = Track(id: string, title: string, artist: string, duration: real, colors: seq<string>)

  datatype AssetBundle = AssetBundle(image: string, video: string, audio: Option<string>, track: Track)

  const DefaultTrack: Track := Track("ghost-01", "봄노래", "Ghost Bookstore", 234.0, ["#a8e6cf", "#dcedc1", "#ffd3b6"])

  const DefaultBundle: AssetBundle := AssetBundle("/image.png", "/video.mov", None, DefaultTrack)

  /** The own entries of `assetsByUuid`; titles and artists come from the first five mock albums. */
  const AssetsByUuid: map<string, AssetBundle> := map[
    "1" := AssetBundle("/1.png", "/video1.mov", Some("/1.mp3"),
      Track("1", "기도의 순간", "조용한 공간에서 무언가를 염원하는 모습.", 215.0, ["#ffb347", "#ff6f61", "#b33951"])),
    "2" := AssetBundle("/2.png", "/video2.mov", Some("/2.mp3"),
      Track("2", "달리기 승부", "두 인물 간의 팽팽한 긴장감이 흐르는 장면.", 202.0, ["#74ebd5", "#9face6", "#a1c4fd"])),
    "3" := AssetBundle("/3.png", "/video3.mov", Some("/3.mp3"),
      Track("3", "함께하는 배움", "늦은 밤에도 밝게 빛나는 도시의 한 공간.", 198.0, ["#ff9a9e", "#fad0c4", "#fbc2eb"])),
    "4" := AssetBundle("/4.png", "/video4.mov", Some("/4.mp3"),
      Track("4", "맑은 가을날", "높고 푸른 하늘과 따스한 햇살이 담긴 풍경.", 210.0, ["#fbd3e9", "#bb377d", "#d4a5c0"])),
    "5" := AssetBundle("/5.png", "/video5.mov", Some("/5.mp3"),
      Track("5", "휴식 시간", "바쁜 일상 속, 잠시 눈을 감고 쉬는 모습.", 225.0, ["#83a4d4", "#b6fbff", "#a0d4e8"]))
  ]

  /**
   * Property names every plain JavaScript object inherits from
   * `Object.prototype`; indexing `assetsByUuid` with one of them yields a
   * function (or the prototype object), never `undefined`.
   */
  const InheritedNames: set<string> := {
    "constructor", "__proto__", "toString", "toLocaleString", "valueOf", "hasOwnProperty",
    "isPrototypeOf", "propertyIsEnumerable", "__defineGetter__", "__defineSetter__",
    "__lookupGetter__", "__lookupSetter__"
  }

  /**
   * The lookup as written: `assetsByUuid[uuid] ?? fallback`. `None` stands for
   * the non-bundle value an inherited name produces: its `track` is undefined,
   * and reading `track.duration` while rendering throws.
   */
  function LookupAsWritten(uuid: Option<string>): (r: Option<AssetBundle>)
    ensures r.None? <==> uuid.Some? && uuid.value in InheritedNames
  {
    if uuid.None? || uuid.value == "" then Some(DefaultBundle)
    else if uuid.value in AssetsByUuid then Some(AssetsByUuid[uuid.value])
    else if uuid.value in InheritedNames then None
    else Some(DefaultBundle)
  }

  /** The page for `/player/constructor` gets no asset bundle from the lookup as written. */
  lemma InheritedNameDefeatsFallback()
    ensures LookupAsWritten(Some("constructor")).None?
    ensures LookupAsWritten(Some("toString")).None?
  {
  }

  /**
   * The lookup the fallback evidently intends: own entries only, and the
   * default bundle for a missing, empty or unknown uuid. Only ids "1" to "5"
   * carry an audio file.
   */
  function AssetsFor(uuid: Option<string>): (b: AssetBundle)
    ensures b.audio.Some? <==> uuid.Some? && uuid.value in AssetsByUuid
    ensures (uuid.None? || uuid.value !in AssetsByUuid) ==> b == DefaultBundle
    ensures uuid.Some? && uuid.value in AssetsByUuid ==> b.track.id == uuid.value
    ensures b.track.duration > 0.0
    ensures uuid.Some? && uuid.value !in InheritedNames ==> LookupAsWritten(uuid) == Some(b)
  {
    if uuid.None? || uuid.value == "" then DefaultBundle
    else if uuid.value in AssetsByUuid then AssetsByUuid[uuid.value]
    else DefaultBundle
  }

  /** The ids that carry audio are exactly "1" to "5". */
  lemma AudioIds()
    ensures AssetsByUuid.Keys == {"1", "2", "3", "4", "5"}
    ensures forall id :: id in AssetsByUuid ==> AssetsFor(Some(id)).audio.Some?
  {
  }

  /** JavaScript's `d || 1` for a duration that is never NaN. */
  function OrOne(d: real): real {
    if d == 0.0 then 1.0 else d
  }

  /** Slider position (0 to 100) of a time. */
  function Progress(currentTime: real, duration: real): (p: real)
    ensures 0.0 <= currentTime <= duration ==> 0.0 <= p <= 100.0
    ensures currentTime == 0.0 ==> p == 0.0
    ensures duration > 0.0 && currentTime == duration ==> p == 100.0
  {
    currentTime / OrOne(duration) * 100.0
  }

  /** Time selected by a slider position (0 to 100). */
  function SeekTime(percent: real, duration: real): (t: real)
    requires 0.0 <= percent <= 100.0 && duration > 0.0
    ensures 0.0 <= t <= duration
  {
    percent / 100.0 * OrOne(duration)
  }

  /** Only the rightmost slider position reaches the end of the track. */
  lemma SeekReachesEndOnlyAtFullSlider(percent: real, duration: real)
    requires 0.0 <= percent <= 100.0 && duration > 0.0
    ensures SeekTime(percent, duration) >= duration <==> percent == 100.0
  {
    var f := percent / 100.0;
    assert duration - SeekTime(percent, duration) == (1.0 - f) * duration;
    if percent < 100.0 {
      assert (1.0 - f) * duration > 0.0;
    }
  }

  /** Seeking to the slider position of a time in the track selects that time again. */
  lemma SeekProgressRoundTrip(currentTime: real, duration: real)
    requires 0.0 <= currentTime <= duration && duration > 0.0
    ensures 0.0 <= Progress(currentTime, duration) <= 100.0
    ensures SeekTime(Progress(currentTime, duration), duration) == currentTime
  {
    var p := currentTime / duration;
    assert 0.0 <= p <= 1.0 by {
      assert p * duration == currentTime;
    }
    assert p * 100.0 / 100.0 * duration == p * duration;
  }

  function ClampUnit(x: real): (r: real)
    ensures 0.0 <= r <= 1.0
    ensures 0.0 <= x <= 1.0 ==> r == x
  {
    if x < 0.0 then 0.0 else if x > 1.0 then 1.0 else x
  }

  /** tonearmAngle: -6 degrees at the start to 28 at the end, linearly, then a bias of -3. */
  function TonearmAngle(currentTime: real, duration: real): (a: real)
    ensures -9.0 <= a <= 25.0
  {
    var p := ClampUnit(currentTime / OrOne(duration));
    var min, max := -6.0, 28.0;
    min + (max - min) * p + -3.0
  }

  lemma TonearmEndpoints(duration: real)
    requires duration > 0.0
    ensures TonearmAngle(0.0, duration) == -9.0
    ensures TonearmAngle(duration, duration) == 25.0
  {
  }

  /** The tonearm never moves back as the track advances. */
  lemma TonearmMonotone(t1: real, t2: real, duration: real)
    requires t1 <= t2 && duration > 0.0
    ensures TonearmAngle(t1, duration) <= TonearmAngle(t2, duration)
  {
    assert t2 / duration - t1 / duration == (t2 - t1) / duration;
    assert (t2 - t1) / duration >= 0.0 by {
      var q := (t2 - t1) / duration;
      assert q * duration == t2 - t1;
    }
  }

  const RotationPeriodMs: int := 10000
  /** 360 degrees per RotationPeriodMs, in milli-degrees per millisecond. */
  const MilliDegPerMs: int := 36
  const FullTurnMilliDeg: int := 360000

  /** The rotation after `dt` milliseconds. */
  function Rotated(rotation: int, dt: int): (r: int)
    requires 0 <= rotation && dt >= 0
    ensures 0 <= r < FullTurnMilliDeg
  {
    (rotation + dt * MilliDegPerMs) % FullTurnMilliDeg
  }

  /** Splitting an interval over two frames rotates the record as far as one frame would. */
  lemma RotatedAdditive(rotation: int, dt1: int, dt2: int)
    requires 0 <= rotation && dt1 >= 0 && dt2 >= 0
    ensures Rotated(Rotated(rotation, dt1), dt2) == Rotated(rotation, dt1 + dt2)
  {
    ModOfSum(rotation + dt1 * MilliDegPerMs, dt2 * MilliDegPerMs, FullTurnMilliDeg);
  }

  /** A full period of playing brings the record back to the same angle. */
  lemma RotationPeriodic(rotation: int)
    requires 0 <= rotation < FullTurnMilliDeg
    ensures Rotated(rotation, RotationPeriodMs) == rotation
  {
    ModUnique(rotation + RotationPeriodMs * MilliDegPerMs, 1, rotation, FullTurnMilliDeg);
  }

  /** What the player can observe of an audio or video element. */
  datatype MediaStatus = MediaStatus(paused: bool, playSucceeds: bool)

  class Player {
    const bundle: AssetBundle
    var isPlaying: bool
    var currentTime: real
    var duration: real
    var repeat: bool
    var shuffle: bool
    var showVideoModal: bool
    /** rotationDegRef, in milli-degrees. */
    var rotation: int
    /** lastTsRef: the timestamp of the previous animation frame. */
    var lastTs: Option<int>

    ghost predicate Valid()
      reads this
    {
      && bundle.track.duration > 0.0
      && duration > 0.0
      && currentTime >= 0.0
      && 0 <= rotation < FullTurnMilliDeg
      // the frame loop, and with it the last timestamp, exists only while playing
      && (!isPlaying ==> lastTs.None?)
      // without audio the simulated clock is the only writer and never passes the end
      && (bundle.audio.None? ==> duration == bundle.track.duration && currentTime <= duration)
    }

    /** Mounting the page for `uuid`: paused, at 0, with the track's duration. */
    constructor (uuid: Option<string>)
      ensures Valid()
      ensures bundle == AssetsFor(uuid)
      ensures !isPlaying && currentTime == 0.0 && duration == bundle.track.duration
      ensures !repeat && !shuffle && !showVideoModal && rotation == 0 && lastTs.None?
    {
      bundle := AssetsFor(uuid);
      isPlaying := false;
      currentTime := 0.0;
      duration := AssetsFor(uuid).track.duration;
      repeat := false;
      shuffle := false;
      showVideoModal := false;
      rotation := 0;
      lastTs := None;
    }

    /**
     * setIsPlaying together with the rotation effect it re-runs: the effect's
     * cleanup cancels the frame loop and forgets the last timestamp.
     */
    method SetPlaying(playing: bool)
      requires Valid()
      modifies this
      ensures Valid()
      ensures isPlaying == playing
      ensures lastTs == if playing == old(isPlaying) then old(lastTs) else None
      ensures currentTime == old(currentTime) && duration == old(duration)
      ensures repeat == old(repeat) && shuffle == old(shuffle)
      ensures showVideoModal == old(showVideoModal) && rotation == old(rotation)
    {
      if playing != isPlaying {
        isPlaying := playing;
        lastTs := None;
      }
    }

    /** One second of the simulated clock (no audio file, playing). */
    method Tick()
      requires Valid() && bundle.audio.None? && isPlaying
      modifies this
      ensures Valid()
      ensures var next := old(currentTime) + 1.0;
        if next >= duration then
          if repeat then currentTime == 0.0 && isPlaying
          else currentTime == duration && !isPlaying
        else currentTime == next && isPlaying
      ensures duration == old(duration) && repeat == old(repeat) && shuffle == old(shuffle)
      ensures rotation == old(rotation)
      ensures showVideoModal == old(showVideoModal)
      ensures lastTs == if isPlaying == old(isPlaying) then old(lastTs) else None
    {
      var next := currentTime + 1.0;
      if next >= duration {
        if repeat {
          currentTime := 0.0;
          return;
        }
        SetPlaying(false);
        currentTime := duration;
        return;
      }
      currentTime := next;
    }

    /** loadedmetadata: a finite, positive media duration replaces the current one. */
    method OnLoadedMetadata(mediaDuration: Option<real>)
      requires Valid() && bundle.audio.Some?
      modifies this
      ensures Valid()
      ensures duration == if mediaDuration.Some? && mediaDuration.value > 0.0 then mediaDuration.value else old(duration)
      ensures currentTime == old(currentTime) && isPlaying == old(isPlaying) && lastTs == old(lastTs)
      ensures repeat == old(repeat) && shuffle == old(shuffle) && rotation == old(rotation)
      ensures showVideoModal == old(showVideoModal)
    {
      if mediaDuration.Some? && mediaDuration.value > 0.0 {
        duration := mediaDuration.value;
      }
    }

    /** timeupdate: the position mirrors the audio element's clock. */
    method OnTimeUpdate(mediaTime: real)
      requires Valid() && bundle.audio.Some? && mediaTime >= 0.0
      modifies this
      ensures Valid()
      ensures currentTime == mediaTime
      ensures duration == old(duration) && isPlaying == old(isPlaying) && lastTs == old(lastTs)
      ensures repeat == old(repeat) && shuffle == old(shuffle) && rotation == old(rotation)
      ensures showVideoModal == old(showVideoModal)
    {
      currentTime := mediaTime;
    }

    /**
     * ended: with repeat the element is rewound to 0 and restarted (`restart`)
     * and the player keeps playing; otherwise it stops.
     */
    method OnEnded() returns (restart: bool)
      requires Valid() && bundle.audio.Some?
      modifies this
      ensures Valid()
      ensures restart == old(repeat) && isPlaying == old(repeat)
      ensures currentTime == old(currentTime) && duration == old(duration)
      ensures repeat == old(repeat) && shuffle == old(shuffle) && rotation == old(rotation)
      ensures showVideoModal == old(showVideoModal)
      ensures lastTs == if isPlaying == old(isPlaying) then old(lastTs) else None
    {
      if repeat {
        restart := true;
        SetPlaying(true);
      } else {
        restart := false;
        SetPlaying(false);
      }
    }

    /**
     * handleSeek from slider position `percent`. With audio the target is
     * clamped into [0, duration]; without audio a target at or past the end
     * stops playback there unless repeat is on.
     */
    method Seek(percent: real)
      requires Valid() && 0.0 <= percent <= 100.0
      modifies this
      ensures Valid()
      ensures var target := percent / 100.0 * OrOne(old(duration));
        if bundle.audio.Some? then
          currentTime == (if target < 0.0 then 0.0 else if target > duration then duration else target)
          && isPlaying == old(isPlaying)
        else if !old(repeat) && target >= duration then
          currentTime == duration && !isPlaying
        else
          currentTime == target && isPlaying == old(isPlaying)
      ensures currentTime == SeekTime(percent, duration) || currentTime == duration
      ensures duration == old(duration) && repeat == old(repeat) && shuffle == old(shuffle)
      ensures rotation == old(rotation)
      ensures showVideoModal == old(showVideoModal)
      ensures lastTs == if isPlaying == old(isPlaying) then old(lastTs) else None
    {
      var newTime := percent / 100.0 * OrOne(duration);
      assert newTime == SeekTime(percent, duration);
      if bundle.audio.Some? {
        var upper := if duration == 0.0 then newTime else duration;
        var lower := if newTime > 0.0 then newTime else 0.0;
        currentTime := if lower < upper then lower else upper;
        return;
      }
      if !repeat && newTime >= duration {
        currentTime := duration;
        SetPlaying(false);
        return;
      }
      currentTime := newTime;
    }

    /** One animation frame at timestamp `ts` (frames arrive only while playing, in time order). */
    method Frame(ts: int)
      requires Valid() && isPlaying
      requires lastTs.Some? ==> lastTs.value <= ts
      modifies this
      ensures Valid()
      ensures lastTs == Some(ts)
      ensures rotation == Rotated(old(rotation), if old(lastTs).Some? then ts - old(lastTs).value else 0)
      ensures old(lastTs).None? ==> rotation == old(rotation)
      ensures currentTime == old(currentTime) && isPlaying == old(isPlaying) && duration == old(duration)
      ensures repeat == old(repeat) && shuffle == old(shuffle)
      ensures showVideoModal == old(showVideoModal)
    {
      if lastTs.None? {
        lastTs := Some(ts);
      }
      var dt := ts - lastTs.value;
      lastTs := Some(ts);
      rotation := (rotation + dt * MilliDegPerMs) % FullTurnMilliDeg;
    }

    /**
     * togglePlay. With audio the element is started or paused and the player
     * follows the outcome. Otherwise, while the video modal is open (its
     * `<video>` is the only one on the page, so `videoRef` is set exactly
     * then), the video is toggled and the player follows it; with the modal
     * closed the flag simply flips. `videoPaused` is the modal video's state.
     */
    method TogglePlay(audio: MediaStatus, videoPaused: bool)
      requires Valid()
      modifies this
      ensures Valid()
      ensures isPlaying ==
        if bundle.audio.Some? then audio.paused && audio.playSucceeds
        else if showVideoModal then videoPaused
        else !old(isPlaying)
      ensures currentTime == old(currentTime) && duration == old(duration) && rotation == old(rotation)
      ensures repeat == old(repeat) && shuffle == old(shuffle) && showVideoModal == old(showVideoModal)
      ensures lastTs == if isPlaying == old(isPlaying) then old(lastTs) else None
    {
      if bundle.audio.Some? {
        if audio.paused {
          SetPlaying(audio.playSucceeds);
        } else {
          SetPlaying(false);
        }
        return;
      }
      if showVideoModal {
        SetPlaying(videoPaused);
        return;
      }
      SetPlaying(!isPlaying);
    }

    /** openVideoModal and handleViewSavedVideo: show the video modal. */
    method OpenVideoModal()
      requires Valid()
      modifies this
      ensures Valid() && showVideoModal
      ensures isPlaying == old(isPlaying) && currentTime == old(currentTime) && duration == old(duration)
      ensures repeat == old(repeat) && shuffle == old(shuffle) && rotation == old(rotation) && lastTs == old(lastTs)
    {
      showVideoModal := true;
    }

    /** closeVideoModal: hide the video modal (and with it the page's only video element). */
    method CloseVideoModal()
      requires Valid()
      modifies this
      ensures Valid() && !showVideoModal
      ensures isPlaying == old(isPlaying) && currentTime == old(currentTime) && duration == old(duration)
      ensures repeat == old(repeat) && shuffle == old(shuffle) && rotation == old(rotation) && lastTs == old(lastTs)
    {
      showVideoModal := false;
    }

    /** handleCoverClick: with audio, start (whatever the outcome) or pause; otherwise open the video. */
    method CoverClick(audio: MediaStatus)
      requires Valid()
      modifies this
      ensures Valid()
      ensures bundle.audio.Some? ==> isPlaying == audio.paused && showVideoModal == old(showVideoModal)
      ensures bundle.audio.None? ==> showVideoModal && isPlaying == old(isPlaying)
      ensures currentTime == old(currentTime) && duration == old(duration) && rotation == old(rotation)
      ensures repeat == old(repeat) && shuffle == old(shuffle)
      ensures lastTs == if isPlaying == old(isPlaying) then old(lastTs) else None
    {
      if bundle.audio.Some? {
        if audio.paused {
          SetPlaying(true);
        } else {
          SetPlaying(false);
        }
      } else {
        showVideoModal := true;
      }
    }

    /**
     * handleNextTrack. Without shuffle the track restarts at 0; with shuffle it
     * jumps to `floor(random * track.duration)` and plays, `random` in [0, 1).
     */
    method NextTrack(random: real)
      requires Valid() && 0.0 <= random < 1.0
      modifies this
      ensures Valid()
      ensures !shuffle ==> currentTime == 0.0 && isPlaying == old(isPlaying)
      ensures shuffle ==> isPlaying && currentTime == (random * bundle.track.duration).Floor as real
      ensures currentTime < bundle.track.duration
      ensures duration == old(duration) && repeat == old(repeat) && shuffle == old(shuffle)
      ensures rotation == old(rotation)
      ensures showVideoModal == old(showVideoModal)
      ensures lastTs == if isPlaying == old(isPlaying) then old(lastTs) else None
    {
      if shuffle {
        var t := (random * bundle.track.duration).Floor;
        ScaledBelow(random, bundle.track.duration);
        assert 0.0 <= t as real <= random * bundle.track.duration < bundle.track.duration;
        SetPlaying(true);
        currentTime := t as real;
        return;
      }
      currentTime := 0.0;
    }

    method ToggleRepeat()
      requires Valid()
      modifies this
      ensures Valid() && repeat == !old(repeat)
      ensures currentTime == old(currentTime) && isPlaying == old(isPlaying) && shuffle == old(shuffle)
      ensures duration == old(duration) && rotation == old(rotation)
      ensures showVideoModal == old(showVideoModal)
      ensures lastTs == old(lastTs)
    {
      repeat := !repeat;
    }

    method ToggleShuffle()
      requires Valid()
      modifies this
      ensures Valid() && shuffle == !old(shuffle)
      ensures currentTime == old(currentTime) && isPlaying == old(isPlaying) && repeat == old(repeat)
      ensures duration == old(duration) && rotation == old(rotation)
      ensures showVideoModal == old(showVideoModal)
      ensures lastTs == old(lastTs)
    {
      shuffle := !shuffle;
    }
  }

  /** A 234-second default track, repeat off, seeking to 100% stops at 234 seconds. */
  method SeekToEndScenario() returns (position: real, playing: bool)
    ensures position == 234.0 && !playing
  {
    var p := new Player(None);
    p.TogglePlay(MediaStatus(true, true), true);
    p.Seek(100.0);
    position, playing := p.currentTime, p.isPlaying;
  }

  /** With repeat on, the simulated clock wraps to 0 at the end and keeps playing. */
  method RepeatWrapScenario() returns (position: real, playing: bool)
    ensures position == 0.0 && playing
  {
    var p := new Player(Some("no-such-id"));
    p.ToggleRepeat();
    p.TogglePlay(MediaStatus(true, true), true);
    p.Seek(99.9);
    p.Tick();
    position, playing := p.currentTime, p.isPlaying;
  }

  /**
   * Without audio, the play button follows the modal's video while the modal is
   * open, and flips the flag once it is closed: a playing video is paused, and
   * after closing the modal the next press starts playback again.
   */
  method VideoModalScenario() returns (withModal: bool, afterClose: bool)
    ensures !withModal && afterClose
  {
    var p := new Player(None);
    p.TogglePlay(MediaStatus(true, true), true);
    p.OpenVideoModal();
    p.TogglePlay(MediaStatus(true, true), false);
    withModal := p.isPlaying;
    p.CloseVideoModal();
    p.TogglePlay(MediaStatus(true, true), false);
    afterClose := p.isPlaying;
  }
}
