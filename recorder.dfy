/**
 * The recording controls of the capture page (app/create/page.tsx), without
 * the camera and recorder devices: the choice of a supported MIME type, the
 * record guard, the start/stop transitions, the 100 ms countdown, the chunk
 * filter and the hand-off of the finished clip. Platform support, device
 * outcomes and timer firings are parameters or explicit event methods.
 */
module Recorder {
  import opened Wrappers

  const RecordingDurationMs: int := 3000
  const CountdownStepMs: int := 100

  const PreferredMimeTypes: seq<string> := [
    "video/webm;codecs=vp9,opus",
    "video/webm;codecs=vp8,opus",
    "video/webm"
  ]

  const CameraError: string := "카메라를 사용할 수 없어요. 권한을 확인해 주세요."
  const UnsupportedError: string := "이 브라우저에서는 영상을 녹화할 수 없어요."
  const StartError: string := "녹화를 시작할 수 없어요. 잠시 후 다시 시도해 주세요."
  const LoadingRoute: string := "/create/loading"
  const RecordingStorageKey: string := "create-recording"

  /** Index of the first entry `isSupported` accepts, or |types| if there is none. */
  function FirstSupportedIndex(types: seq<string>, isSupported: string -> bool): (i: nat)
    ensures i <= |types|
    ensures i < |types| ==> isSupported(types[i])
    ensures forall j :: 0 <= j < i ==> !isSupported(types[j])
  {
    if types == [] then 0
    else if isSupported(types[0]) then 0
    else 1 + FirstSupportedIndex(types[1..], isSupported)
  }

  /**
   * pickSupportedMimeType: nothing without a MediaRecorder API, otherwise the
   * first preferred type the platform supports, if any.
   */
  function PickSupportedMimeType(recorderAvailable: bool, isSupported: string -> bool): (r: Option<string>)
    ensures r.Some? ==> recorderAvailable
    ensures r.Some? ==> exists k :: 0 <= k < |PreferredMimeTypes| && PreferredMimeTypes[k] == r.value
                          && isSupported(PreferredMimeTypes[k])
                          && forall j :: 0 <= j < k ==> !isSupported(PreferredMimeTypes[j])
    ensures r.None? ==> !recorderAvailable || forall k :: 0 <= k < |PreferredMimeTypes| ==> !isSupported(PreferredMimeTypes[k])
  {
    if !recorderAvailable then None
    else
      var i := FirstSupportedIndex(PreferredMimeTypes, isSupported);
      if i < |PreferredMimeTypes| then Some(PreferredMimeTypes[i]) else None
  }

  /** One tick of the countdown interval: null stays null, otherwise 100 ms less, not below 0. */
  function CountdownStep(remaining: Option<int>): (r: Option<int>)
    ensures r.Some? <==> remaining.Some?
    ensures remaining.Some? ==> r.value >= 0
    ensures remaining.Some? && remaining.value >= 0 ==> r.value <= remaining.value
    ensures remaining.Some? && remaining.value > 0 ==> r.value < remaining.value
  {
    if remaining.None? then None
    else
      var next := remaining.value - CountdownStepMs;
      Some(if next > 0 then next else 0)
  }

  /** `k` ticks of the countdown. */
  function CountdownAfter(remaining: Option<int>, k: nat): Option<int> {
    if k == 0 then remaining else CountdownStep(CountdownAfter(remaining, k - 1))
  }

  /** After k ticks the countdown shows the start value less k * 100 ms, but never less than 0. */
  lemma {:induction false} CountdownAfterTicks(start: nat, k: nat)
    ensures CountdownAfter(Some(start), k) == Some(if start > k * CountdownStepMs then start - k * CountdownStepMs else 0)
  {
    if k > 0 {
      CountdownAfterTicks(start, k - 1);
    }
  }

  /** A recording's countdown reaches 0 after exactly 30 ticks. */
  lemma CountdownReachesZero(k: nat)
    ensures CountdownAfter(Some(RecordingDurationMs), k) == Some(0) <==> k >= 30
  {
    CountdownAfterTicks(RecordingDurationMs, k);
  }

  /** The size of a Blob built from chunks of the given sizes. */
  function TotalSize(chunks: seq<nat>): nat {
    if chunks == [] then 0 else chunks[0] + TotalSize(chunks[1..])
  }

  /** When every kept chunk is non-empty, the clip is empty exactly when no chunk was kept. */
  lemma EmptyClipIffNoChunks(chunks: seq<nat>)
    requires forall i :: 0 <= i < |chunks| ==> chunks[i] > 0
    ensures TotalSize(chunks) == 0 <==> chunks == []
  {
  }

  /** What persistRecording does with the finished clip. */
  datatype Persist =
    | NavigateOnly(route: string)
    | StoreThenNavigate(storageKey: string, size: nat, route: string)

  /** persistRecording: an empty clip navigates at once; otherwise it is stored, then the page navigates. */
  function PersistClip(size: nat): (p: Persist)
    ensures p.route == LoadingRoute
    ensures p.NavigateOnly? <==> size == 0
  {
    if size == 0 then NavigateOnly(LoadingRoute)
    else StoreThenNavigate(RecordingStorageKey, size, LoadingRoute)
  }

  class CapturePage {
    /** `typeof MediaRecorder !== "undefined"`. */
    const recorderAvailable: bool
    /** supportedMimeType, chosen once on mount. */
    const mimeType: Option<string>
    var cameraReady: bool
    var hasStream: bool
    var isRecording: bool
    var remainingMs: Option<int>
    var error: Option<string>
    /** chunksRef: the sizes of the data chunks kept so far. */
    var chunks: seq<nat>
    /** The recorder's own state is "recording" (a stop has not been requested yet). */
    var recorderRecording: bool
    var countdownRunning: bool
    var stopTimerPending: bool

    ghost predicate Valid()
      reads this
    {
      && (cameraReady ==> hasStream)
      && (forall i :: 0 <= i < |chunks| ==> chunks[i] > 0)
      && (remainingMs.Some? <==> isRecording)
      && (remainingMs.Some? ==> 0 <= remainingMs.value <= RecordingDurationMs)
      && (countdownRunning <==> isRecording)
      && (stopTimerPending ==> isRecording)
      && (recorderRecording ==> isRecording)
    }

    /** Disabled state of the record button. */
    predicate RecordButtonDisabled()
      reads this
      ensures Valid() && !RecordButtonDisabled() ==> cameraReady && hasStream && !isRecording && error.None?
    {
      !cameraReady || isRecording || error.Some?
    }

    constructor (recorderAvailable: bool, isSupported: string -> bool)
      ensures Valid()
      ensures this.recorderAvailable == recorderAvailable
      ensures mimeType == PickSupportedMimeType(recorderAvailable, isSupported)
      ensures !cameraReady && !hasStream && !isRecording && remainingMs.None? && error.None? && chunks == []
      ensures !recorderRecording && !countdownRunning && !stopTimerPending
    {
      this.recorderAvailable := recorderAvailable;
      mimeType := PickSupportedMimeType(recorderAvailable, isSupported);
      cameraReady := false;
      hasStream := false;
      isRecording := false;
      remainingMs := None;
      error := None;
      chunks := [];
      recorderRecording := false;
      countdownRunning := false;
      stopTimerPending := false;
    }

    /** The camera stream was obtained. */
    method OnCameraStarted()
      requires Valid()
      modifies this
      ensures Valid() && hasStream && cameraReady && error.None?
      ensures isRecording == old(isRecording) && remainingMs == old(remainingMs) && chunks == old(chunks)
      ensures recorderRecording == old(recorderRecording) && countdownRunning == old(countdownRunning)
      ensures stopTimerPending == old(stopTimerPending)
    {
      hasStream := true;
      error := None;
      cameraReady := true;
    }

    /** Neither camera request succeeded. */
    method OnCameraFailed()
      requires Valid()
      modifies this
      ensures Valid() && !cameraReady && error == Some(CameraError)
      ensures hasStream == old(hasStream) && isRecording == old(isRecording) && chunks == old(chunks)
      ensures remainingMs == old(remainingMs) && recorderRecording == old(recorderRecording)
      ensures countdownRunning == old(countdownRunning) && stopTimerPending == old(stopTimerPending)
    {
      error := Some(CameraError);
      cameraReady := false;
    }

    /**
     * handleRecord. Does nothing unless the camera is ready, no recording is in
     * progress and a stream exists; reports a missing recorder API; otherwise
     * clears the chunks and starts recording with a 3000 ms countdown, or
     * reports the failure if the recorder cannot start.
     */
    method HandleRecord(startFails: bool)
      requires Valid()
      modifies this
      ensures Valid()
      ensures !old(cameraReady) || old(isRecording) || !old(hasStream) ==>
        isRecording == old(isRecording) && remainingMs == old(remainingMs)
        && chunks == old(chunks) && error == old(error) && recorderRecording == old(recorderRecording)
        && countdownRunning == old(countdownRunning) && stopTimerPending == old(stopTimerPending)
      ensures old(cameraReady) && !old(isRecording) && old(hasStream) ==>
        if !recorderAvailable then
          error == Some(UnsupportedError) && !isRecording && remainingMs.None? && chunks == old(chunks)
          && !recorderRecording && !countdownRunning && !stopTimerPending
        else if startFails then
          error == Some(StartError) && !isRecording && remainingMs.None? && chunks == []
          && !recorderRecording && !countdownRunning && !stopTimerPending
        else
          isRecording && remainingMs == Some(RecordingDurationMs) && chunks == []
          && recorderRecording && countdownRunning && stopTimerPending && error == old(error)
      ensures !old(RecordButtonDisabled()) && recorderAvailable && !startFails ==> isRecording
      ensures cameraReady == old(cameraReady) && hasStream == old(hasStream)
    {
      if !cameraReady || isRecording || !hasStream {
        return;
      }
      if !recorderAvailable {
        error := Some(UnsupportedError);
        return;
      }
      chunks := [];
      if startFails {
        error := Some(StartError);
        isRecording := false;
        remainingMs := None;
        return;
      }
      recorderRecording := true;
      isRecording := true;
      remainingMs := Some(RecordingDurationMs);
      countdownRunning := true;
      stopTimerPending := true;
    }

    /** The 100 ms countdown interval fires. */
    method CountdownTick()
      requires Valid() && countdownRunning
      modifies this
      ensures Valid()
      ensures remainingMs == CountdownStep(old(remainingMs))
      ensures isRecording == old(isRecording) && chunks == old(chunks) && error == old(error)
      ensures countdownRunning && stopTimerPending == old(stopTimerPending)
      ensures recorderRecording == old(recorderRecording) && cameraReady == old(cameraReady)
      ensures hasStream == old(hasStream)
    {
      remainingMs := CountdownStep(remainingMs);
    }

    /** The 3000 ms timeout fires: stopRecording asks a recording recorder to stop. */
    method StopTimeout()
      requires Valid() && stopTimerPending
      modifies this
      ensures Valid()
      ensures !stopTimerPending && !recorderRecording
      ensures isRecording == old(isRecording) && remainingMs == old(remainingMs) && chunks == old(chunks)
      ensures countdownRunning == old(countdownRunning) && error == old(error) && cameraReady == old(cameraReady)
      ensures hasStream == old(hasStream)
    {
      stopTimerPending := false;
      if recorderRecording {
        recorderRecording := false;
      }
    }

    /** ondataavailable: only a present, non-empty chunk is kept. */
    method OnDataAvailable(data: Option<nat>)
      requires Valid()
      modifies this
      ensures Valid()
      ensures chunks == if data.Some? && data.value > 0 then old(chunks) + [data.value] else old(chunks)
      ensures isRecording == old(isRecording) && remainingMs == old(remainingMs) && error == old(error)
      ensures countdownRunning == old(countdownRunning) && stopTimerPending == old(stopTimerPending)
      ensures recorderRecording == old(recorderRecording) && cameraReady == old(cameraReady)
      ensures hasStream == old(hasStream)
    {
      if data.Some? && data.value > 0 {
        chunks := chunks + [data.value];
      }
    }

    /**
     * onstop: the timers are cleared, recording ends, the countdown is hidden,
     * and the clip built from the kept chunks is handed to persistRecording.
     */
    method OnStop() returns (persist: Persist)
      requires Valid()
      modifies this
      ensures Valid()
      ensures !isRecording && remainingMs.None? && !countdownRunning && !stopTimerPending
      ensures persist == PersistClip(TotalSize(chunks))
      ensures persist.NavigateOnly? <==> chunks == []
      ensures chunks == old(chunks) && error == old(error) && cameraReady == old(cameraReady)
      ensures hasStream == old(hasStream) && !recorderRecording
    {
      countdownRunning := false;
      stopTimerPending := false;
      recorderRecording := false;
      isRecording := false;
      remainingMs := None;
      EmptyClipIffNoChunks(chunks);
      persist := PersistClip(TotalSize(chunks));
    }
  }

  /** Once recording has started, thirty countdown ticks bring the countdown to 0. */
  method CountdownScenario(page: CapturePage) returns (remaining: Option<int>)
    requires page.Valid() && page.isRecording && page.remainingMs == Some(RecordingDurationMs)
    modifies page
    ensures remaining == Some(0)
  {
    var k := 0;
    while k < 30
      invariant 0 <= k <= 30
      invariant page.Valid() && page.countdownRunning
      invariant page.remainingMs == CountdownAfter(Some(RecordingDurationMs), k)
    {
      page.CountdownTick();
      k := k + 1;
    }
    CountdownReachesZero(30);
    remaining := page.remainingMs;
  }

  /** A capture where an empty chunk and a 512-byte chunk arrive: only the second is kept and stored. */
  method CaptureScenario() returns (persist: Persist)
    ensures persist == StoreThenNavigate(RecordingStorageKey, 512, LoadingRoute)
  {
    var page := new CapturePage(true, t => t == "video/webm");
    page.OnCameraStarted();
    page.HandleRecord(false);
    page.StopTimeout();
    page.OnDataAvailable(Some(0));
    page.OnDataAvailable(Some(512));
    persist := page.OnStop();
  }
}
