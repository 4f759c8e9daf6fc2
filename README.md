# Campfire front-end: verified model of its interaction state machines

This project models, in Dafny, the logic of a small browser demo. A user records a three-second clip,
picks a mood keyword, watches a mocked "generating" stage and ends on a turntable-style music player.
Rendering, device access and timers are left to the host. What remains is a set of event-driven state
machines and pure helpers:

- **Carousel** (`carousel.dfy`, app/page.tsx) is the home screen's circular stack. It holds one create
  card and ten albums, so N = 11. The current index wraps modulo N. The animation lock is released by
  an unlock timer and keeps at most one transition in flight. Wheel input is accumulated and commits
  once its magnitude exceeds 120. A pointer drag offsets the stack by at most ±176 and snaps one card
  when released at least 64 px away. Arrow and page keys step one card. Each card's layout (scale,
  visibility, blur, z-order) comes from its shortest signed distance around the ring.
- **Transport** (`transport.dfy`, app/player/PlayerClient.tsx) is the turntable player. It covers:
  - the uuid → asset-bundle lookup;
  - the simulated one-second clock, with repeat or stop at the end;
  - the audio element's metadata/time/ended events;
  - slider seeking;
  - the tonearm angle;
  - the record's rotation, in integer milli-degrees;
  - play/pause, next track, repeat and shuffle.
- **LegacyPlayer** (`legacy_player.dfy`, app/player/page.tsx) is the older player page. Its clock
  always loops, its seek has no clamp, and its play button only acts on the video of the open modal.
- **TimeFormat** (`time_format.dfy`) is `formatTime`. It is identical in app/player/PlayerClient.tsx:94-98
  and app/player/page.tsx:25-29. A parser of its output shows that the display keeps every whole second.
- **KeywordSelect** (`keyword_select.dfy`, app/create/select/page.tsx) holds the selected keyword and
  the error, and "continue" yields a route.
- **Recorder** (`recorder.dfy`, app/create/page.tsx) covers the recording controls:
  - MIME-type choice;
  - the record guard;
  - start/stop;
  - the 100 ms countdown;
  - the chunk filter;
  - the hand-off of the clip.
- **BorderGradients** (`border_gradients.dfy`, app/utils/borderGradients.ts) maps a key to a gradient.
  The 32-bit wrapped sum of the key's UTF-16 code units selects one of twelve gradients.

Objects that the source updates in place (React state and refs) are classes. Each class has a
`Valid()` invariant that every event method and constructor keeps. The one exception is
`Carousel.CarouselState.ScheduleUnlock`, an internal step of `ShiftBy` that is called after the lock is
taken and has no invariant of its own. Every method states the new value of every field, unchanged
ones included. Pure code is written as
functions, with lemmas about them. Timers, animation frames and media events are explicit event
methods. Platform facts enter as parameters: MIME support, media element status, `Math.random`, and
URL encoding.

Behaviours of the code worth noting:

- The animation lock does not keep the drag offset at zero. Key presses are not ignored during a drag,
  so a key press locks the carousel mid-drag, and the next pointer move offsets the stack while locked
  (`Carousel.KeyDuringDragScenario`).
- In the new player, the position is bounded by the duration only when the track has no audio file.
  With audio, position and duration mirror the media element (`Transport.Player.Valid`).
- In the new player, `ended` with repeat rewinds the audio element and keeps playing. The position
  shown follows through the next `timeupdate`.
- The old player's clock wraps only once the position has reached 234 s. A fractional seek can
  therefore carry the shown position past the end, for example 99 % and three ticks give 234.66 s. The
  proved bound is `0 <= position < 235` (`LegacyPlayer.OvershootScenario`).

## Model

| member | source | states |
|---|---|---|
| Carousel.StackShape | app/page.tsx:94-95 | the stack has 11 cards, exactly the first is the create card, and the React keys of its cards are distinct |
| Carousel.Shifted | app/page.tsx:137 | one step keeps the index in [0, N); +1 from N−1 wraps to 0, −1 from 0 wraps to N−1, otherwise the index moves by one |
| Carousel.ShiftedForwardIsModular | app/page.tsx:136-139 | k consecutive forward shifts from i land on (i + k) mod N |
| Carousel.FullTurn | app/page.tsx:136-139 | N forward shifts return to the starting card |
| Carousel.ShiftInverse | app/page.tsx:136-139 | a forward and a backward shift cancel, in either order |
| Carousel.CircularDelta | app/page.tsx:311-313 | the signed ring distance lies in [−N/2, N/2] and differs from index − current by 0 or ±N |
| Carousel.CircularDeltaIsShortest | app/page.tsx:311-313 | no offset congruent to index − current modulo N is shorter than the chosen distance (the shorter way round) |
| Carousel.CircularDeltaInjective | app/page.tsx:311-313 | two different cards never get the same ring distance |
| Carousel.LayoutAt | app/page.tsx:316-353 | the distance is the absolute ring position; scale stays in [0.85, 1]; a card is visible and interactive exactly below distance 3 and blurred exactly for distances in [2, 3); z-index never exceeds N |
| Carousel.CardLayoutFor | app/page.tsx:311-316 | the selected card sits at distance abs(offset)/160; no card is farther than half the ring plus the drag |
| Carousel.LayoutMonotone | app/page.tsx:318-347 | a card at least as close is at least as large and stacked at least as high, and is hidden only if the farther one is |
| Carousel.RestingLayout | app/page.tsx:311-353 | with no drag, a card is shown exactly when it is at most 2 positions away, blurred exactly at 2, z-index N − 10·distance, scale 1 − 0.08·distance up to distance 1 |
| Carousel.SelectedCardInFocus | app/page.tsx:314-349 | for any drag within ±176 the selected card stays visible, sharp, clickable, with scale ≥ 0.912 and z-index ≥ N − 11 |
| Carousel.Clamp | app/page.tsx:190 | the result lies within the bounds, and a value already within them is unchanged |
| Carousel.WheelAdjusted | app/page.tsx:159 | deltas of magnitude ≥ 40 pass unchanged, smaller ones are amplified by at most 1.3, and the sign is kept |
| Carousel.Without | app/page.tsx:127 | the filtered timer list drops every copy of the fired id and keeps every other id with its multiplicity; a list without the id is returned unchanged |
| Carousel.CarouselState.constructor | app/page.tsx:89-101 | mounting starts at card 0, no offset, unlocked, not dragging, empty accumulator, no timers |
| Carousel.CarouselState.ScheduleUnlock | app/page.tsx:124-130 | registers one new unlock timer and changes nothing else |
| Carousel.CarouselState.FireUnlockTimer | app/page.tsx:125-128 | the firing timer clears the lock and leaves no pending timer; the index and offset are kept |
| Carousel.CarouselState.ShiftBy | app/page.tsx:132-144 | locked: nothing changes; unlocked: lock set, exactly one unlock timer pending, index shifted one step with wrap-around, offset 0 |
| Carousel.CarouselState.HandleWheel | app/page.tsx:153-172 | dropped while locked or dragging; otherwise the adjusted delta is accumulated, and a total beyond ±120 shifts once in its direction and resets the accumulator, which stays within ±120 |
| Carousel.CarouselState.PointerDown | app/page.tsx:174-184 | ignored while locked; otherwise starts a drag at the pointer's y |
| Carousel.CarouselState.PointerMove | app/page.tsx:186-194 | only while dragging, the offset becomes the displacement clamped to ±176; the index never changes |
| Carousel.CarouselState.EndDrag | app/page.tsx:196-226 | ends an active drag with offset 0; shifts exactly once, to the previous card for a downward drag and to the next otherwise, iff it is a snap, unlocked and displaced by ≥ 64 |
| Carousel.CarouselState.PointerUp | app/page.tsx:228-233 | without an active drag nothing changes; otherwise the drag ends with offset 0, and a release displaced by ≥ 64 while unlocked shifts exactly once in the drag's direction with one new unlock timer, while a locked or smaller release keeps the index, lock and timers |
| Carousel.CarouselState.PointerLeave | app/page.tsx:235-240 | leaving never shifts, always ends the drag and zeroes the offset of an active drag; everything else is kept |
| Carousel.CarouselState.PointerCancel | app/page.tsx:242-247 | cancelling never shifts, always ends the drag and zeroes the offset of an active drag; everything else is kept |
| Carousel.CarouselState.KeyDown | app/page.tsx:249-261 | ArrowDown/PageDown shift +1, ArrowUp/PageUp shift −1 (when unlocked); any other key changes nothing |
| Carousel.ThreeShiftsScenario | app/page.tsx:132-147 | from card 0, three forward shifts separated by the unlock visit cards 1, 2, 3 |
| Carousel.WheelScenario | app/page.tsx:153-172 | wheel events of 150 commit one shift each and leave the accumulator at 0 |
| Carousel.KeyDuringDragScenario | app/page.tsx:249-258 | a key press during a drag locks the stack, and a later move still offsets it by 50 |
| Transport.LookupAsWritten | app/player/PlayerClient.tsx:103-106 | the lookup as written fails to produce a bundle exactly for names inherited from Object.prototype |
| Transport.InheritedNameDefeatsFallback | app/player/PlayerClient.tsx:105 | uuid "constructor" (and "toString") gets no bundle from the lookup as written |
| Transport.AssetsFor | app/player/PlayerClient.tsx:103-106 | a missing, empty or unknown uuid gets the default bundle (no audio, 234 s track); a known id gets its own track; audio present iff the id is known; agrees with the lookup as written on every non-inherited name |
| Transport.AudioIds | app/player/PlayerClient.tsx:29-90 | the known ids are exactly "1"–"5" and each carries an audio file |
| Transport.Progress | app/player/PlayerClient.tsx:122 | an in-track time gives a slider position in [0, 100]: 0 at the start, 100 at the end |
| Transport.SeekTime | app/player/PlayerClient.tsx:273 | a slider position in [0, 100] selects a time in [0, duration] |
| Transport.SeekReachesEndOnlyAtFullSlider | app/player/PlayerClient.tsx:273-284 | the selected time reaches the end exactly when the slider is at 100 |
| Transport.SeekProgressRoundTrip | app/player/PlayerClient.tsx:122 | the slider position of an in-track time lies in [0, 100], and seeking to it selects that time again |
| Transport.TonearmAngle | app/player/PlayerClient.tsx:290-297 | the tonearm angle always lies in [−9, 25] degrees |
| Transport.TonearmEndpoints | app/player/PlayerClient.tsx:290-297 | the angle is −9 at the start and 25 at the end of the track |
| Transport.TonearmMonotone | app/player/PlayerClient.tsx:290-297 | for a fixed positive duration the angle never decreases as the time advances |
| Transport.Rotated | app/player/PlayerClient.tsx:215-222 | the rotation stays in [0, 360000) milli-degrees |
| Transport.RotatedAdditive | app/player/PlayerClient.tsx:218-222 | two frames of dt1 and dt2 rotate as far as one frame of dt1 + dt2 |
| Transport.RotationPeriodic | app/player/PlayerClient.tsx:215-222 | 10000 ms of playing bring the record back to the same angle |
| Transport.Player.constructor | app/player/PlayerClient.tsx:100-121 | mounting selects the uuid's bundle, paused at 0 with the track's duration, repeat and shuffle off, angle 0 |
| Transport.Player.SetPlaying | app/player/PlayerClient.tsx:227-239 | changing the playing flag re-runs the frame effect, which forgets the last timestamp and keeps the angle; the invariant is kept |
| Transport.Player.Tick | app/player/PlayerClient.tsx:131-152 | one second on; at or past the end: repeat wraps to 0 still playing, otherwise clamps to the duration and stops; position ≤ duration is kept |
| Transport.Player.OnLoadedMetadata | app/player/PlayerClient.tsx:171-175 | only a present, positive media duration replaces the duration |
| Transport.Player.OnTimeUpdate | app/player/PlayerClient.tsx:176-178 | the position mirrors the audio clock |
| Transport.Player.OnEnded | app/player/PlayerClient.tsx:179-187 | repeat rewinds and restarts the element and keeps playing; otherwise playback stops |
| Transport.Player.Seek | app/player/PlayerClient.tsx:271-288 | audio: target clamped into [0, duration]; no audio: a target at or past the end without repeat stops at the duration, else the target is taken |
| Transport.Player.Frame | app/player/PlayerClient.tsx:218-225 | the angle advances by 36 milli-degrees per elapsed ms modulo a full turn; the first frame after a start does not move it |
| Transport.Player.TogglePlay | app/player/PlayerClient.tsx:242-269 | audio: playing iff it was paused and play succeeded; else, while the video modal is open (its video being the only one, lines 431-439), playing iff that video was paused; with the modal closed the flag flips |
| Transport.Player.OpenVideoModal | app/player/PlayerClient.tsx:309 | the modal opens; nothing else changes |
| Transport.Player.CloseVideoModal | app/player/PlayerClient.tsx:324 | the modal closes; nothing else changes |
| Transport.Player.CoverClick | app/player/PlayerClient.tsx:311-323 | audio: playing iff it was paused (even if play is rejected); no audio: the video opens |
| Transport.Player.NextTrack | app/player/PlayerClient.tsx:299-307 | without shuffle the position returns to 0; with shuffle it jumps to floor(random·track duration), before the end, and plays |
| Transport.Player.ToggleRepeat | app/player/PlayerClient.tsx:417 | flips repeat only |
| Transport.Player.ToggleShuffle | app/player/PlayerClient.tsx:391 | flips shuffle only |
| Transport.SeekToEndScenario | app/player/PlayerClient.tsx:271-288 | default 234 s track, repeat off: seeking to 100 % leaves the position at 234 and stops |
| Transport.RepeatWrapScenario | app/player/PlayerClient.tsx:131-152 | with repeat on, the clock running past the end wraps to 0 and keeps playing |
| Transport.VideoModalScenario | app/player/PlayerClient.tsx:242-269 | without audio, play follows the open modal's playing video (pausing) and, once the modal is closed, flips the flag back on |
| TimeFormat.Decimal | app/player/PlayerClient.tsx:97 | a number's decimal rendering is a non-empty digit string with no leading zero, of length 1 exactly below 10 |
| TimeFormat.DecimalRoundTrip | app/player/PlayerClient.tsx:97 | reading back a decimal rendering gives the number |
| TimeFormat.PadStart2 | app/player/PlayerClient.tsx:97 | strings shorter than two are left-padded with zeros to length two; longer ones are unchanged |
| TimeFormat.MinutesSeconds | app/player/PlayerClient.tsx:95-96 | seconds < 60 and minutes·60 + seconds = ⌊time⌋ |
| TimeFormat.FormatTime | app/player/PlayerClient.tsx:94-98 | the display is digits, ':' and exactly two digits |
| TimeFormat.FormatTimeRoundTrip | app/player/PlayerClient.tsx:94-98 | parsing the m:ss display gives back ⌊time⌋: only the fraction of a second is lost |
| LegacyPlayer.LegacyPlayerState.constructor | app/player/page.tsx:33-34 | the page starts playing at position 0 |
| LegacyPlayer.LegacyPlayerState.Tick | app/player/page.tsx:48-63 | at or past 234 the position wraps to 0, otherwise it advances a second; playback never stops and 0 ≤ position < 235 is kept |
| LegacyPlayer.LegacyPlayerState.Seek | app/player/page.tsx:79-82 | the position becomes percent/100·234, with no clamp and no stop |
| LegacyPlayer.LegacyPlayerState.NextTrack | app/player/page.tsx:85-88 | the position returns to 0 |
| LegacyPlayer.LegacyPlayerState.TogglePlay | app/player/page.tsx:66-77 | with the video modal closed (no video element, lines 254-276) nothing changes; with it open, playing iff the video was paused |
| LegacyPlayer.LegacyPlayerState.OpenVideoModal | app/player/page.tsx:90-92 | the modal opens; position and playing flag are kept |
| LegacyPlayer.LegacyPlayerState.CloseVideoModal | app/player/page.tsx:94-96 | the modal closes; position and playing flag are kept |
| LegacyPlayer.PlayButtonWithoutVideoScenario | app/player/page.tsx:66-77 | pressing play repeatedly with the modal closed keeps the page playing; with the modal open and its video playing, a press pauses |
| LegacyPlayer.OvershootScenario | app/player/page.tsx:52-57 | seeking to 99 % and three ticks show 234.66 s, past the 234 s end |
| KeywordSelect.InitialKeyword | app/create/select/page.tsx:35-37 | the initial selection is the keyword query parameter, or "" when it is absent |
| KeywordSelect.IsActive | app/create/select/page.tsx:81 | an option is highlighted only when the selection is its id, so an empty selection highlights no option |
| KeywordSelect.AtMostOneActive | app/create/select/page.tsx:13-29 | option ids are distinct, so at most one option is shown as selected |
| KeywordSelect.RouteFor | app/create/select/page.tsx:50 | the route is the generation path followed by the encoded keyword |
| KeywordSelect.RouteDeterminesKeyword | app/create/select/page.tsx:50 | with an injective encoding, equal routes come from equal keywords |
| KeywordSelect.SelectState.constructor | app/create/select/page.tsx:35-38 | starts with the initial keyword and no error; the only error ever shown is the missing-keyword message, and only while nothing is selected |
| KeywordSelect.SelectState.Select | app/create/select/page.tsx:40-43 | selects the id and clears the error |
| KeywordSelect.SelectState.Continue | app/create/select/page.tsx:45-51 | empty selection: the error "키워드를 선택해 주세요." and no route; otherwise the generation route for the selection, error untouched |
| KeywordSelect.UnlistedKeywordScenario | app/create/select/page.tsx:35-51 | a query keyword that is not an option still navigates to generation |
| Recorder.FirstSupportedIndex | app/create/page.tsx:25 | the index found is the first accepted entry, or past the end when none is accepted |
| Recorder.PickSupportedMimeType | app/create/page.tsx:20-26 | without the recorder API: none; otherwise the first preferred type the platform supports, or none if it supports none |
| Recorder.CountdownStep | app/create/page.tsx:197-201 | null stays null; a value never goes negative, never increases, and strictly decreases while positive |
| Recorder.CountdownAfterTicks | app/create/page.tsx:196-202 | after k ticks the countdown shows max(start − 100·k, 0) |
| Recorder.CountdownReachesZero | app/create/page.tsx:194-202 | from 3000 ms the countdown shows 0 exactly from the 30th tick on |
| Recorder.EmptyClipIffNoChunks | app/create/page.tsx:169-173 | with only non-empty chunks kept, the clip is empty exactly when no chunk was kept |
| Recorder.PersistClip | app/create/page.tsx:121-144 | every outcome navigates to /create/loading; the clip is stored unless it is empty |
| Recorder.CapturePage.RecordButtonDisabled | app/create/page.tsx:262 | an enabled button means the camera is ready with a stream, nothing is recording and no error is shown, so a press passes the guard at line 153 |
| Recorder.CapturePage.constructor | app/create/page.tsx:38-43 | the MIME type is chosen once; nothing is ready, recording, counted down or failed |
| Recorder.CapturePage.OnCameraStarted | app/create/page.tsx:72-74 | the stream is kept, the error cleared and the camera ready |
| Recorder.CapturePage.OnCameraFailed | app/create/page.tsx:84-88 | the camera error is shown and the camera is not ready |
| Recorder.CapturePage.HandleRecord | app/create/page.tsx:152-213 | no change unless ready, idle and streaming; no recorder API: error; start failure: error, chunks cleared, not recording; success: recording with 3000 ms left and empty chunks; an enabled button (line 262) always starts when the recorder can |
| Recorder.CapturePage.CountdownTick | app/create/page.tsx:196-202 | the countdown takes one step |
| Recorder.CapturePage.StopTimeout | app/create/page.tsx:146-150 | the 3 s timeout asks a recording recorder to stop |
| Recorder.CapturePage.OnDataAvailable | app/create/page.tsx:169-173 | only a present, non-empty chunk is appended |
| Recorder.CapturePage.OnStop | app/create/page.tsx:175-190 | recording ends, the countdown is cleared, and the clip goes straight to navigation exactly when no chunk was kept |
| Recorder.CountdownScenario | app/create/page.tsx:194-206 | thirty 100 ms countdown ticks after a start bring the remaining time to 0 |
| Recorder.CaptureScenario | app/create/page.tsx:152-213 | of an empty and a 512-byte chunk only the second is kept, and the clip is stored |
| BorderGradients.WrappedSumIsPlainSumMod | app/utils/borderGradients.ts:19 | wrapping the sum to 32 bits at each step equals wrapping once at the end |
| BorderGradients.PlainSumPermutation | app/utils/borderGradients.ts:19 | the code-unit sum depends only on the multiset of code units |
| BorderGradients.GradientIndexPermutation | app/utils/borderGradients.ts:17-22 | permuting the characters of a key gives the same gradient |
| BorderGradients.GradientForKey | app/utils/borderGradients.ts:17-22 | the loop computes the wrapped sum; the result is the table entry at sum mod 12, always one of the twelve; the empty key gets the first |

## Findings

| source | as written | input that shows it | evidently intended | confidence | as-written member | corrected member |
|---|---|---|---|---|---|---|
| app/player/PlayerClient.tsx:105 | `assetsByUuid[uuid] ?? fallback` also reads names inherited from `Object.prototype`; they are not nullish, so the fallback is skipped and `track` is undefined | the route /player/constructor (uuid "constructor", likewise "toString", "__proto__") | unknown ids, inherited names included, get the default bundle | high, not executed | Transport.InheritedNameDefeatsFallback | Transport.AssetsFor |

## Left out

- Rendering is not modelled: JSX, CSS, gradient and shadow strings, transforms, the card depth shift
  and elevation, and class names. Neither are AlbumCover, Tonearm and the generate page, which only
  render.
- Timer and frame scheduling (`setTimeout`, `setInterval`, `requestAnimationFrame`) is replaced by
  explicit event methods, so the delays themselves are not modelled. These are the 510 ms carousel
  unlock, the 480 ms transition, the 1 s clocks, and the 100 ms countdown with its 3 s stop. The host is trusted to call them only while the source's timer or loop
  exists.
- Unmount cleanup is not modelled (clearing timers, removing window listeners, stopping device
  tracks), because no event reaches an unmounted view.
- The random slogan on the home screen is not modelled. It is randomness with no effect on state.
- Pointer capture and `preventDefault` are not modelled. They are browser effects.
- The audio element's own behaviour is not modelled: `load()`, the effect that calls play/pause when
  the flag changes, autoplay rejection, and playback rate. The audio element is taken to be mounted
  exactly when the track has an audio file.
- Back navigation and the "more" menu are not modelled. They only navigate or log. The video modal's
  open and close handlers are modelled: "view saved video" is the same action as `OpenVideoModal`.
- Camera acquisition (`getUserMedia` with its exact/non-exact fallback), MediaRecorder internals,
  FileReader and sessionStorage are not modelled. Only their outcomes are: chunks are their sizes, and
  the clip hand-off is the `Persist` value.
- The `toFixed` countdown label is not modelled.
- `encodeURIComponent` is a parameter of the model, and router navigation is a returned route.
- app/create/loading/video/page.tsx is not part of this model. It is a timed mock sequence plus a
  sessionStorage redirect.
- Floating point is not modelled: times, offsets and wheel deltas are exact reals. The 1.3 wheel factor is
  13/10. The drag limit 160·1.1 and the snap threshold 160·0.4 are exactly 176 and 64 in binary64.
- Carousel.CarouselState.HandleWheel: the accumulated total is kept in a local until the shift is
  done, then stored. The shift never reads the accumulator, so the resulting state is the same as the
  source's.
- Transport.Player.Frame and Transport.Rotated take frame timestamps as whole milliseconds and
  the rotation as integer milli-degrees (36 per ms, modulo 360000). `requestAnimationFrame` delivers
  fractional timestamps, so rotations by fractions of a millisecond are not modelled.
- Transport.Player.OnEnded: the rewind of the audio element is returned as a restart flag. The shown
  position follows through the next `timeupdate`.
