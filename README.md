# eye-candy recording and playback core, modelled in Dafny

eye-candy shows visual stimuli to retinal tissue on a projector and records
or replays what was shown. A stimulus program (an EPL script) generates a
stream of stimuli from a seeded random source. An Electron main process
queues them, hands them to a stimulus window in batches and captures every
rendered frame. A native C++ library (`eye-native`) turns those frames into
video and plays video back. It is a chain of stages joined by frame queues:

- a capture stage writes each frame to an ffmpeg encoder;
- a playback stage decodes a video into fixed-size frames;
- a presentation stage shows frames on the projector;
- a preview sender and receiver pass frames over a named pipe;
- a calibration stage measures the projector's latency against a photodiode.

This project models that core and proves what each part promises. Each
source file is modelled in its own form. Stage loops, handle bookkeeping and
queues become classes and methods with loop invariants. Arithmetic, text,
program construction and dispatch become datatypes, functions and lemmas.
Every loop that reads from a thread, a queue or the platform runs over a
finite sequence of observed answers ("ticks"). Each tick holds the stop
flag, the item dequeued and what each platform call returned. The ticks
running out ends a loop the way a stop request does.

| file | module | what it models |
|---|---|---|
| ints.dfy | Ints | the fixed-width integers and the C conversions between them (wrap-around written out) |
| wrappers.dfy | Wrappers | optional values and results with an error string |
| seqs.dfy | Seqs | a fact about sequences that several loop proofs share |
| text.dfy | Text | `std::to_string` on unsigned values, C `atoi`, lower-case hex digits |
| frame_wrapper.dfy | Frames | `FrameWrapper`: a borrowed buffer never freed, an owned buffer freed at most once |
| native.dfy | Native | the command guards, frame ids, resize decision and preview hand-over of `Native.cpp` |
| child_process.dfy | ChildProcess | what the four process wrappers share: handles, `cleanUpProcess`, `waitForExit`, `isProcessRunning`, `writeStdin`, `splitString` and the monitor loop of `run` |
| ffmpeg.dfy | Ffmpeg | the two encoders' and the decoder's argument lists, `readStdout`, teardown |
| ffprobe.dfy | Ffprobe | the probe's argument list and the extraction of width, height, rate and frame count |
| handoff.dfy | Handoff | the preview channel name handed over once by the capture and playback stages |
| record_thread.dfy | RecordStage | `RecordThread`: buffer choice, encoder write, hand-over, forwarding, shutdown |
| playback_thread.dfy | PlaybackStage | `PlaybackThread`: `formatDuration`, the refresh-rate filter, frame reassembly, back-pressure |
| projector_thread.dfy | ProjectorStage | `ProjectorThread`: display, position report, forwarding |
| preview_send.dfy | PreviewSend | `PreviewSendThread`: the four-state pipe machine, `writeAll`, forwarding or release |
| preview_receive.dfy | PreviewReceive | `PreviewThread`: open retries, `readAll`, the grow-only buffer, the frame loop |
| pipe_reader.dfy | PipeReaderStage | `PipeReader`: the append loop and the take-and-clear `getData` |
| external_event.dfy | ExternalEvent | `ExternalEventThread`: the latest-wins, take-and-clear event slot |
| calibration.dfy | CalibrationStage | `CalibrationThread`: the twelve-frame cycle and the latency rule |
| random.dfy | Random | `DeterministicRandom`: `randi`, the in-place Fisher-Yates `shuffle`, `uuid` |
| stimuli.dfy | Stimuli | the stimulus records the programs build and the renderers draw |
| renderer.dfy | Renderers | frame counting, skip and stamp decisions, and `#rrggbb` colours (section 5.2 of CSS Color Module Level 4) |
| factories.dfy | RendererFactory, StimulusFactory, AppStimulusFactory | the three dispatches on `stimulusType` |
| main_process.dfy | MainProcess | `main.dev.ts`: stimulus generation, batches, frame capture, the frame-clean timer, `runStopped` |
| programs.dfy | Programs | `measureIntegrity` and the checkerboard, tiled-letter and grating programs |
| celltyping.dfy | CellTyping | `pix2checker`, the balanced noise frames, their buffer layout, job chunking |

Code that the repository repeats word for word is modelled once:

- `Renderers.StimulusRenderer` stands for the identical base-class code in
  `eye-candy/app/stimuli/renderers/StimulusRenderer.ts`,
  `eye-projector/app/stimuli/renderers/StimulusRenderer.ts`,
  `eye-candy/app/stimulus/stimuli/StimulusBase.ts` and
  `app/stimulus/stimuli/StimulusBase.ts`.
- `ChildProcess` stands for the handle code that `FfprobeProcess.cpp`,
  `FfmpegRecordProcess.cpp`, `FfmpegPlaybackProcess.cpp` and
  `FfmpegProcess.cpp` each carry.
- `Programs.MeasureIntegrity` stands for the three copies of
  `measureIntegrity` in the checkerboard, tiled-letter and grating programs.

Where the design description of the system and the code differ, the model
follows the code:

- The presentation stage has no start-up buffering, target-position pacing
  or refresh-ratio holding in `ProjectorThread.cpp`. It displays a frame,
  reports `timestampMs + (int)(1000 / fps) + 1`, and forwards the frame.
- Two of the stage loops are modelled as intended, not as written (see
  Findings and Left out). In the code, a short write to the encoder is
  accepted by `writeStdin`, and the capture goes on and forwards the frame.
  The model's capture loop uses the corrected check and ends on that write.
  In the code, a failed preview pipe create, connect or write abandons the
  channel and also loses the frame being sent. The model's sender loop
  hands that frame on and counts it. The code's behaviour is modelled one
  pass at a time, by the as-written members named in Findings.
- Where a header disagrees with its `.cpp` file, the `.cpp` file is
  followed. `PreviewSendThread.cpp` reads `width`, `height`, `length` and
  `frame`, which `FrameWrapper` does not declare; they are modelled as the
  borrowed `electron*` fields.

## Model

| member | source | states |
|---|---|---|
| Native.IdsDistinct | eye-native/src/Native.cpp:77 | two frames accepted fewer than 2^32 acceptances apart get different ids from the `gNextFrameId++` counter |
| Native.LastIdLooksRefused | eye-native/src/Native.cpp:68-94 | the frame accepted when the counter reads 0xFFFFFFFF is reported as `int32_t` -1, the value that also means "refused" |
| Native.NewCapturedFrame | eye-native/src/Native.cpp:77-92 | the new frame carries the id and Electron's pointer, length and size; it owns a resized target-size buffer exactly when its width or height differs from the target |
| Native.Session.constructor | eye-native/src/Native.cpp:14-25 | every flag false, counter and size zero, no stage, all queues empty |
| Native.Session.Initialize | eye-native/src/Native.cpp:27-35 | stores the tool paths and sets the initialised flag, nothing else changes |
| Native.Session.CreateVideoOutput | eye-native/src/Native.cpp:37-60 | "Library has not been initialized" / "Recording already in progress" with all state unchanged; otherwise stores the target size, starts the record stage, sets the recording flag and returns "" |
| Native.Session.QueueNextFrame | eye-native/src/Native.cpp:62-95 | -1 and no change unless initialised and recording; otherwise the frame gets the counter's value as id, the counter advances modulo 2^32, the owned buffer rule of `NewCapturedFrame` holds and the frame joins the end of the pending queue |
| Native.Session.CheckCompletedFrames | eye-native/src/Native.cpp:97-107 | returns the ids of the completed queue in dequeue order and leaves that queue empty, all else unchanged |
| Native.DrainNumbers | eye-native/src/Native.cpp:100-106 | the dequeue loop returns the ids of the queued frames in order |
| Native.Session.CloseVideoOutput | eye-native/src/Native.cpp:109-124 | no change when not recording; otherwise the record stage is dropped and the flag cleared, so a second call changes nothing |
| Native.Session.BeginVideoPlayback | eye-native/src/Native.cpp:126-149 | "Library has not been initialized" / "Playback already in progress" with all state unchanged; otherwise starts the playback stage, sets the flag and returns "" |
| Native.Session.EndVideoPlayback | eye-native/src/Native.cpp:151-167 | always returns ""; no change when not playing, otherwise the playback stage is dropped and the flag cleared |
| Native.Session.CreatePreviewChannel | eye-native/src/Native.cpp:174-196 | "Create video input or output before preview channel" when neither stage exists, "Failed to create uniquely named pipe" when no name is generated, both with nothing changed; otherwise every existing stage receives the name and "" is returned |
| Native.Session.OpenPreviewChannel | eye-native/src/Native.cpp:198-205 | a preview receiver on the given name replaces any earlier one; returns "" |
| Native.Session.ClosePreviewChannel | eye-native/src/Native.cpp:258-268 | the preview receiver is gone afterwards; nothing changes when there was none |
| Native.Session.GetNextFrame | eye-native/src/Native.cpp:207-256 | false and nothing changed on an empty preview queue; otherwise the newest image is shown, all earlier ones are freed in queue order, then the newest is freed too, and the queue is empty |
| Native.Session.BeginCalibration | eye-native/src/Native.cpp:275-296 | "Library has not been initialized" / "Calibration already in progress" with all state unchanged; otherwise starts the calibration stage, sets the flag and returns "" |
| Native.Session.EndCalibration | eye-native/src/Native.cpp:298-313 | no change when not calibrating; otherwise the stage is dropped and the flag cleared |
| Frames.FrameWrapper.constructor | eye-native/src/FrameWrapper.cpp:3-16 | the number is stored and the timestamp, fps and every borrowed and owned pointer, length and dimension are zero; nothing freed yet |
| Frames.FrameWrapper.AttachNative | eye-native/src/Native.cpp:87-91 | a fresh owned buffer is attached with its length and target dimensions; the borrowed fields are untouched |
| Frames.FrameWrapper.FreeNative | eye-native/src/FrameWrapper.cpp:18-25 | frees the owned pointer exactly when it is non-null and nulls it; the borrowed buffer is never freed and the free count never exceeds one |
| Frames.ReleaseThenDestroy | eye-native/src/FrameWrapper.cpp:20-24 | a consumer's free followed by the destructor frees the owned buffer once: the second free finds a null pointer |
| RecordStage.BufferOf | eye-native/src/RecordThread.cpp:54-66 | the owned pointer and length when the owned pointer is non-null, else the borrowed ones; the length narrowed to `uint32_t` |
| RecordStage.RecordThread.constructor | eye-native/src/RecordThread.cpp:11-23 | stores the tool path, size, rate and output path; no channel name pending |
| RecordStage.RecordThread.SetPreviewChannel | eye-native/src/RecordThread.cpp:25-29 | the name is stored for the next forwarded frame |
| RecordStage.Capture | eye-native/src/RecordThread.cpp:45-85 | as intended, with the corrected write check (see Left out): every completed pass was not stopped and had its write accepted; the loop ends on a stop (or the passes running out) or on the first rejected write, whose buffer is written but whose frame is not forwarded; writes, forwarded frames, handed names and the stored name are those of `Captured`, and after a failed write the stored name is the one that pass read |
| RecordStage.CapturedForwardsItems | eye-native/src/RecordThread.cpp:49-84 | the frames forwarded are exactly the frames dequeued, in order, and the k-th buffer written is the one `BufferOf` picks for the k-th forwarded frame; an empty wait writes and forwards nothing |
| RecordStage.CapturedHandsOver | eye-native/src/RecordThread.cpp:76-83 | the names handed to the preview sender and the name left stored are those of the hand-over rule `Handoff.Run` over the passes' events |
| RecordStage.RecordThread.RunLoop | eye-native/src/RecordThread.cpp:45-85 | as intended, with the corrected write check (see Left out): every completed pass was not stopped and had its write accepted; the loop ends on a stop (or the passes running out) or on the first rejected write; the frames forwarded are the frames dequeued by the completed passes, each after its own buffer was written, and a rejected write leaves one buffer written but no frame forwarded; the handed names and the stored name follow `Handoff.Run`, and after a failed write the stored name is what the earlier passes left, or the name stored during the failing pass |
| RecordStage.RecordThread.Shutdown | eye-native/src/RecordThread.cpp:87-99 | waits for the encoder (closing stdin once) exactly when its process still runs, else leaves the handles alone; stops the preview sender exactly when it still runs |
| Handoff.After | eye-native/src/PlaybackThread.cpp:236-244 | a pass that reaches the hand-over step leaves no name stored; any other pass leaves the name its `setPreviewChannel` call stored, or the old one |
| Handoff.HandedIn | eye-native/src/PlaybackThread.cpp:236-244 | a pass hands over at most one name, and never an empty one |
| Handoff.Run | eye-native/src/RecordThread.cpp:25-83 | the names handed over by a run of passes are never empty |
| Handoff.HandedAtMostOnce | eye-native/src/RecordThread.cpp:76-83 | a run hands over no more names than were stored (the initial name included), counting a name still pending as not yet handed |
| Handoff.NothingStoredNothingHanded | eye-native/src/PlaybackThread.cpp:236-244 | without a stored name and without `setPreviewChannel` calls nothing is ever handed over |
| Handoff.HandedOnFirstDelivery | eye-native/src/RecordThread.cpp:76-83 | a stored name is handed over, exactly once, by the first pass that delivers data, and is then cleared |
| Handoff.UndeliveredKeeps | eye-native/src/PlaybackThread.cpp:236-244 | passes that neither store a name nor deliver data keep the stored name and hand nothing over |
| PlaybackStage.TwoDigits | eye-native/src/PlaybackThread.cpp:41-49 | a minute or second count below 60 is written as exactly two decimal digits |
| PlaybackStage.TwoDigitsValue | eye-native/src/PlaybackThread.cpp:41-49 | the two digits read back as the count (the leading zero pads, it does not change the value) |
| PlaybackStage.FormatDuration | eye-native/src/PlaybackThread.cpp:33-52 | the text has the shape `h:mm:ss`: at least seven characters, with colons three and six from the end |
| PlaybackStage.FormatDurationFields | eye-native/src/PlaybackThread.cpp:33-52 | the text is hours, then two-digit minutes, then two-digit seconds; minutes and seconds are below 60, and hours, minutes and seconds add up to the duration |
| PlaybackStage.MatchesRate | eye-native/src/PlaybackThread.cpp:106-115 | the divisor search succeeds exactly when some n from 1 to 4 divides the frequency with quotient equal to the frame rate |
| PlaybackStage.Keep | eye-native/src/PlaybackThread.cpp:103-123 | filtering never lengthens the list |
| PlaybackStage.EraseUnsuited | eye-native/src/PlaybackThread.cpp:103-123 | erasing in place leaves exactly the frequencies that suit the frame rate, in their original order |
| PlaybackStage.KeepSuitingAll | eye-native/src/PlaybackThread.cpp:100-124 | filtering for one more video's rate after filtering for the earlier ones is filtering for all of them |
| PlaybackStage.SurvivorsSuitAll | eye-native/src/PlaybackThread.cpp:100-124 | the video-by-video filter equals the one-shot filter for frequencies that suit every video |
| PlaybackStage.NoRatesKeepAll | eye-native/src/PlaybackThread.cpp:100-124 | with no videos every display frequency survives |
| PlaybackStage.SuitingAllMembers | eye-native/src/PlaybackThread.cpp:100-124 | a frequency survives if and only if it was offered and suits every video |
| PlaybackStage.FilterFrequencies | eye-native/src/PlaybackThread.cpp:99-124 | the surviving frequencies are exactly those that suit every video's rate, in the display's order |
| PlaybackStage.FrameRates | eye-native/src/PlaybackThread.cpp:74-80 | one rate per video, the rate the probe reported for it, in order |
| PlaybackStage.Prepare | eye-native/src/PlaybackThread.cpp:63-133 | it stops after the first probe that saw a stop request and reports nothing; otherwise it fails, reporting a duration and a position of 0, exactly when no display frequency suits every video; otherwise it picks the first frequency that does and reports nothing yet (the duration report that follows is not modelled) |
| PlaybackStage.CopyLength | eye-native/src/PlaybackThread.cpp:215-223 | a copy never takes more than the chunk holds nor overfills the frame, and it either uses up the chunk or completes the frame |
| PlaybackStage.InnerLoop | eye-native/src/PlaybackThread.cpp:204-234 | the loop never leaves more of the chunk than it started with |
| PlaybackStage.ZeroFrameSizeNeverConsumes | eye-native/src/PlaybackThread.cpp:181-234 | with a frame size of 0 no number of iterations consumes any byte of a non-empty chunk, and every iteration pushes an empty frame |
| PlaybackStage.PositiveFrameSizeConsumes | eye-native/src/PlaybackThread.cpp:204-234 | with a positive frame size the chunk is used up within as many iterations as it has bytes, leaving the frame not yet full |
| PlaybackStage.Reassembly.constructor | eye-native/src/PlaybackThread.cpp:181-182 | a frame size of width times height times 4 in 32 bits, frame counter 0, nothing buffered or pushed |
| PlaybackStage.Reassembly.Take | eye-native/src/PlaybackThread.cpp:204-234 | with a positive frame size every byte of the chunk is taken, in order, and frames already pushed stay as they were; the frames pushed followed by the partial frame are always exactly the bytes taken, and the k-th frame pushed holds the k-th frame's worth of those bytes in an owned buffer of the video's dimensions and is numbered k (in 32 bits) |
| PlaybackStage.Reassembly.Fill | eye-native/src/PlaybackThread.cpp:224-232 | the piece is appended to the frame being filled, and a full frame is pushed; every frame pushed so far still holds its own chunk of the bytes taken, numbered by position |
| PlaybackStage.Reassembly.Push | eye-native/src/PlaybackThread.cpp:206-232 | one new frame record is appended, numbered by its position, owning exactly the frame's bytes in the video's dimensions and rate; the counter advances and the partial frame is emptied |
| PlaybackStage.NewDecodedFrame | eye-native/src/PlaybackThread.cpp:206-214 | a fresh record with the counter as number, the given buffer, length, dimensions and rate |
| PlaybackStage.DecodeEvent | eye-native/src/PlaybackThread.cpp:188-244 | a pass reaches the hand-over step exactly when it is not throttled and reads a non-empty chunk |
| PlaybackStage.ThrottledReadsNothing | eye-native/src/PlaybackThread.cpp:188-192 | passes throttled by a full pending queue read nothing and hand no name over |
| PlaybackStage.TakenIn | eye-native/src/PlaybackThread.cpp:188-234 | a pass takes the whole chunk it read or nothing |
| PlaybackStage.DecodingMeaning | eye-native/src/PlaybackThread.cpp:183-245 | the loop's progress takes exactly the bytes read by unthrottled passes (when the frame size is positive) and hands names over exactly as the hand-over rule `Handoff.Run` does |
| PlaybackStage.DecodePass | eye-native/src/PlaybackThread.cpp:188-244 | one pass takes what `TakenIn` says, and hands over and keeps names as `Handoff` says |
| PlaybackStage.Decode | eye-native/src/PlaybackThread.cpp:183-245 | the loop runs while no stop is requested and fewer than `frameCount` frames were pushed; the bytes taken, the names handed over and the name left stored are those of `Decoding` over the completed passes, and every frame pushed holds its own frame's worth of those bytes, numbered by position |
| PlaybackStage.PlaybackThread.constructor | eye-native/src/PlaybackThread.cpp:11-25 | stores the position, video list, scaling flag and tool paths, with no channel name stored |
| PlaybackStage.PlaybackThread.SetPreviewChannel | eye-native/src/PlaybackThread.cpp:27-31 | the name is stored for the decoding loop |
| PlaybackStage.PlaybackThread.DecodeVideo | eye-native/src/PlaybackThread.cpp:165-245 | a fresh reassembly of the video's dimensions and rate takes every byte read by unthrottled passes (when the frame size is positive), and the stored name is handed over as `Handoff.Run` says |
| PlaybackStage.PlaybackThread.FinishVideo | eye-native/src/PlaybackThread.cpp:247-259 | waits for a still-running decoder unless a stop was requested, terminates it when one was, closes its handles and stops its readers |
| ProjectorStage.DurationMs | eye-native/src/ProjectorThread.cpp:47 | one frame's duration in whole milliseconds plus one: the smallest count whose product with the rate exceeds 1000, and 1 for rates above 1000 |
| ProjectorStage.Position | eye-native/src/ProjectorThread.cpp:47-48 | the position reported is the frame's timestamp plus its duration, when that fits in 64 bits |
| ProjectorStage.Dequeue | eye-native/src/ProjectorThread.cpp:31-35 | a wait yields at most one frame |
| ProjectorStage.ShownInOrder | eye-native/src/ProjectorThread.cpp:28-50 | every dequeued frame, in order, is displayed, then its position reported, then forwarded; nothing else happens in the loop |
| ProjectorStage.ForwardedShown | eye-native/src/ProjectorThread.cpp:49 | the frames forwarded to the output queue are exactly the frames dequeued, in order |
| ProjectorStage.ForwardedPass | eye-native/src/ProjectorThread.cpp:31-49 | a pass forwards the frame it dequeued, and nothing after a timed-out wait |
| ProjectorStage.ProjectorThread.constructor | eye-native/src/ProjectorThread.cpp:6-19 | stores the window position and the scaling flag |
| ProjectorStage.ProjectorThread.Run | eye-native/src/ProjectorThread.cpp:21-53 | a window that cannot be created is reported and returns 1; otherwise the loop runs until a stop request, showing every frame in order and returning 0 after destroying the window, or stops at the first frame that fails to display, which is reported, the window destroyed and 1 returned |
| PipeReaderStage.Appended | eye-native/src/PipeReader.cpp:28-53 | a pass appends at most one read buffer's worth, and only after a wait that reported data and a positive read |
| PipeReaderStage.PipeReader.constructor | eye-native/src/PipeReader.cpp:6-10 | stores the handle, with an empty buffer |
| PipeReaderStage.PipeReader.GetData | eye-native/src/PipeReader.cpp:12-18 | returns the buffered bytes and leaves the buffer empty; what was handed out followed by what is buffered stays exactly what was read |
| PipeReaderStage.PipeReader.Pass | eye-native/src/PipeReader.cpp:24-53 | a pass ends the loop exactly on a stop request or a -1 from the wait or the read; it appends exactly what a positive read delivered |
| PipeReaderStage.PipeReader.Run | eye-native/src/PipeReader.cpp:20-56 | returns 0; the loop runs until a pass ends it, and the buffer gains exactly the bytes the completed passes read, in order |
| PipeReaderStage.PipeReader.Terminate | eye-native/src/PipeReader.cpp:24 | asking the reader to stop leaves the buffer as it is |
| CalibrationStage.DeltaOf | eye-native/src/CalibrationThread.cpp:51-57 | a latency is measured exactly when both timestamps are set and the event is later than the white frame; it is the difference in milliseconds, narrowed to 32 bits |
| CalibrationStage.Latency | eye-native/src/CalibrationThread.cpp:51-57 | returns the latency `DeltaOf` defines, and clears the white-frame timestamp exactly when one was measured |
| CalibrationStage.CalibrationCycle | eye-native/src/CalibrationThread.cpp:41-86 | after n frames the counter is n mod 12; frame k is white exactly when k mod 12 is at least 6; the external event is cleared once per first white frame; and no more latencies are measured than white cycles began |
| CalibrationStage.FirstWhitesStep | eye-native/src/CalibrationThread.cpp:61-86 | a frame adds a first white frame exactly at position 6 of the cycle, and the counter's reset at 12 is arithmetic modulo 12 |
| CalibrationStage.Calibrate | eye-native/src/CalibrationThread.cpp:43-87 | the loop ends on a stop request (state of the completed passes), on a dead event thread (same) or on a failed display (after that pass's latency check); every completed pass went through |
| CalibrationStage.CalibrationThread.constructor | eye-native/src/CalibrationThread.cpp:7-17 | stores the window position |
| CalibrationStage.CalibrationThread.Run | eye-native/src/CalibrationThread.cpp:19-96 | a card or window failure is reported and returns 1; otherwise the event thread is spawned, the loop's frames and clears are those of the cycle, each exit reports its error, and the event thread is terminated if running, the window destroyed and the card released before returning 0 |
| ExternalEvent.LatestEvent | eye-native/src/ExternalEventThread.cpp:26-37 | the slot holds its initial value or a detected timestamp |
| ExternalEvent.LatestEventIsLast | eye-native/src/ExternalEventThread.cpp:33-36 | the latest detection wins: the slot holds the last detected timestamp |
| ExternalEvent.LatestEventWithoutDetection | eye-native/src/ExternalEventThread.cpp:28-32 | without a detection the slot keeps its value |
| ExternalEvent.ExternalEventThread.constructor | eye-native/src/ExternalEventThread.cpp:6-10 | the slot starts at 0 and detection is not started |
| ExternalEvent.ExternalEventThread.GetEventTimestamp | eye-native/src/ExternalEventThread.cpp:12-18 | returns the stored timestamp and resets the slot to 0 |
| ExternalEvent.ExternalEventThread.Run | eye-native/src/ExternalEventThread.cpp:20-40 | a failed start returns 1 and leaves the slot alone; otherwise the loop runs until a stop request, the slot ends holding the last detected timestamp, detection is stopped and 0 returned |
| PreviewSend.WriteAllRun | eye-native/src/PreviewSendThread.cpp:129-142 | a failed `writeAll` ended on a write that reported -1, and never uses more answers than the platform gave |
| PreviewSend.WriteAll | eye-native/src/PreviewSendThread.cpp:129-142 | the loop ends exactly as `WriteAllRun` says: the whole buffer accepted, a failed write, or the platform's answers used up |
| PreviewSend.WrittenCoversBuffer | eye-native/src/PreviewSendThread.cpp:131-141 | a completed `writeAll` made only successful calls, which together accepted at least the whole buffer, and stopped at the first call that reached it |
| PreviewSend.WriteAllExact | eye-native/src/PreviewSendThread.cpp:131-141 | when every write stays within the bytes still missing, a completed `writeAll` was reported exactly the buffer's length, so its 32-bit count never wraps |
| PreviewSend.ZeroWritesNeverFinish | eye-native/src/PreviewSendThread.cpp:131-141 | writes that keep accepting zero bytes never complete a non-empty buffer |
| PreviewSend.SendStep | eye-native/src/PreviewSendThread.cpp:35-96 | the error state is final and attempts no write; leaving a pass early always lands in the error state; header and frame went through in full exactly when the pipe ends the pass open; a write attempted but not completed had a failed header or frame write and leaves the pass early in the error state; nothing is attempted while the pipe is closed or opening |
| PreviewSend.Transmit | eye-native/src/PreviewSendThread.cpp:35-96 | the pipe's new state and id, whether the header write was tried, and whether header and frame both went through in full, are those `SendStep` gives |
| PreviewSend.PassAsWritten | eye-native/src/PreviewSendThread.cpp:26-113 | every dequeued frame is either handed on or lost, never both and never neither |
| PreviewSend.Pass | eye-native/src/PreviewSendThread.cpp:26-113 | as intended, every dequeued frame is handed on and none is lost; a pass adds at most one send to the pipe, and only for a dequeued frame: the one numbered with the counter before the pass and carrying that frame |
| PreviewSend.Dequeue | eye-native/src/PreviewSendThread.cpp:28-32 | a pass dequeues one frame exactly when its wait returned one |
| PreviewSend.EveryFrameHandedOn | eye-native/src/PreviewSendThread.cpp:98-112 | as intended, the frames handed on are exactly the frames dequeued, in order, and the frame counter advances once per dequeued frame, modulo 2^32 |
| PreviewSend.PassCounts | eye-native/src/PreviewSendThread.cpp:112 | a pass advances the 32-bit frame counter exactly when it dequeued a frame |
| PreviewSend.ErrorIsFinal | eye-native/src/PreviewSendThread.cpp:35-96 | once in the error state the pipe stays there and nothing more is written, as written and as intended |
| PreviewSend.NoChannelNoWrites | eye-native/src/PreviewSendThread.cpp:35-53 | without a channel name the pipe is never created and nothing is written |
| PreviewSend.FailedWriteSendsNothing | eye-native/src/PreviewSendThread.cpp:72-94 | a pass that finds the pipe open but whose header write fails logs no send and moves the pipe to the error state, as intended and as written; as written the frame of that pass is also lost |
| PreviewSend.FailedCreateLosesFrame | eye-native/src/PreviewSendThread.cpp:41-47 | as written, a frame dequeued in a pass whose pipe creation fails is neither forwarded nor released; as intended it is handed on |
| PreviewSend.PayloadOf | eye-native/src/PreviewSendThread.cpp:74-95 | the header carries the frame counter and the length written; an owned buffer is sent with its own dimensions, otherwise the borrowed buffer with its dimensions |
| PreviewSend.PreviewSendThread.constructor | eye-native/src/PreviewSendThread.cpp:13-19 | records whether there is an output queue; no channel name yet |
| PreviewSend.PreviewSendThread.SetPreviewChannel | eye-native/src/PreviewSendThread.cpp:123-127 | the name is stored for the next pass |
| PreviewSend.SendPass | eye-native/src/PreviewSendThread.cpp:26-113 | as intended (see Left out): one pass is `Pass`: the renaming, the pipe handling, the hand-on and the count |
| PreviewSend.SendLoop | eye-native/src/PreviewSendThread.cpp:26-113 | as intended (see Left out): the loop runs until a stop request; its state is `Pass` folded over the completed passes; the frames handed on are exactly the frames dequeued, in order; what went down the pipe in full is, send by send, the header and buffer `PayloadOf` gives for the send's number and frame; a failed write logs no send |
| PreviewSend.PreviewSendThread.Run | eye-native/src/PreviewSendThread.cpp:21-121 | as intended (see Left out): every dequeued frame goes to the output queue when there is one and is released otherwise; what went down the pipe in full is the `PayloadOf` of each send, in order, and a failed write logs no send; the pipe is closed at the end exactly when it left the closed state |
| PreviewReceive.OpenRun | eye-native/src/PreviewThread.cpp:19-42 | the loop gives up exactly when 30 "not found" answers were counted, and never counts more |
| PreviewReceive.OpenRunMeaning | eye-native/src/PreviewThread.cpp:22-37 | the failures counted are exactly the "not found" answers; giving up means every answer so far asked for a retry; an open pipe or a hard failure is the first answer that did not, and an open pipe has a non-zero id |
| PreviewReceive.OpenPipe | eye-native/src/PreviewThread.cpp:19-42 | the retry loop, sleeping after each "not found", ends exactly as `OpenRun` says |
| PreviewReceive.ReadAllRun | eye-native/src/PreviewThread.cpp:98-111 | a `readAll` succeeds exactly when the bytes read reach the length, and fails (closed pipe or error) on the read that reported the failure |
| PreviewReceive.ReadAllExact | eye-native/src/PreviewThread.cpp:98-111 | when every read stays within the bytes still missing, `readAll` never reads past the buffer, and a successful one has read exactly the length asked for |
| PreviewReceive.ReadAll | eye-native/src/PreviewThread.cpp:98-111 | the loop ends exactly as `ReadAllRun` says |
| PreviewReceive.Grow | eye-native/src/PreviewThread.cpp:68-76 | the frame buffer never shrinks and after a parsed header holds at least the announced length |
| PreviewReceive.ReceivedInOrder | eye-native/src/PreviewThread.cpp:49-92 | when every pass receives a frame, each frame is queued exactly once, in arrival order |
| PreviewReceive.BufferIsLargestAnnounced | eye-native/src/PreviewThread.cpp:68-76 | the buffer's size is the largest length announced so far, so it holds every frame read into it |
| PreviewReceive.ReceiveOne | eye-native/src/PreviewThread.cpp:52-91 | a pass reads the header, parses it, grows the buffer and reads the frame; it ends as `PassOf` says and leaves the buffer sized as `Grow` says |
| PreviewReceive.Receive | eye-native/src/PreviewThread.cpp:49-92 | every completed pass received a frame and the frames queued are those of `Receiving`; the loop ends on a stop request or on the first pass that did not receive a frame, with the buffer as that pass left it |
| PreviewReceive.PreviewThread.constructor | eye-native/src/PreviewThread.cpp:8-13 | stores the channel name and the queue |
| PreviewReceive.PreviewThread.Run | eye-native/src/PreviewThread.cpp:15-96 | a pipe that cannot be opened returns 1 and queues nothing; otherwise every received frame is appended to the preview queue in order; the pipe is closed and 0 returned exactly when the loop ended on a stop request or a closed pipe; any other read or parse failure returns 1 |
| ChildProcess.TokenLength | eye-native/src/FfmpegProcess.cpp:175-186 | the token at the front runs up to the first separator: no separator inside it, and a separator right after it unless the text ends |
| ChildProcess.Tokens | eye-native/src/FfmpegProcess.cpp:175-186 | every token returned is non-empty and free of separators |
| ChildProcess.FlattenTokens | eye-native/src/FfmpegProcess.cpp:175-186 | nothing but separators is lost: the tokens, end to end, are the text without its separator characters |
| ChildProcess.TokensOfJoin | eye-native/src/FfmpegProcess.cpp:175-186 | splitting lines joined with a newline gives back exactly those lines |
| ChildProcess.SplitString | eye-native/src/FfmpegProcess.cpp:175-186 | the scan returns exactly the tokens `Tokens` defines, in order |
| ChildProcess.TokenEnd | eye-native/src/FfmpegProcess.cpp:179-183 | the scan stops at the first separator from the start position, or at the end of the text |
| ChildProcess.TokensAt | eye-native/src/FfmpegProcess.cpp:179-183 | the text from a token's start splits into that token followed by the tokens of the rest |
| ChildProcess.ProcessHandles.constructor | eye-native/src/FfmpegProcess.cpp:7-11 | no process, no handles, nothing closed or terminated |
| ChildProcess.ProcessHandles.StartProcess | eye-native/src/FfmpegProcess.cpp:112-116 | a successful spawn stores the process id and the three pipe handles; a failed one changes nothing |
| ChildProcess.ProcessHandles.IsProcessRunning | eye-native/src/FfmpegProcess.cpp:118-126 | running exactly when there is a process id and the platform says it runs |
| ChildProcess.ProcessHandles.WaitForExit | eye-native/src/FfmpegProcess.cpp:128-139 | stdin is closed once, if still held, and zeroed; nothing else changes |
| ChildProcess.ProcessHandles.TerminateProcess | eye-native/src/FfmpegProcess.cpp:151-154 | exactly one forced termination; the handles are untouched |
| ChildProcess.ProcessHandles.CleanUpProcess | eye-native/src/FfmpegProcess.cpp:156-173 | every handle still held is closed once, in the order stdin, stdout, stderr, and zeroed; no handle is ever closed twice |
| ChildProcess.ProcessHandles.WriteStdinAsWritten | eye-native/src/FfmpegProcess.cpp:141-149 | as written, a write reports success whenever stdin is open and the platform did not fail, or when the length is 0xFFFFFFFF |
| ChildProcess.ProcessHandles.WriteStdin | eye-native/src/FfmpegProcess.cpp:141-149 | as intended, success exactly when stdin is open and the whole buffer was accepted; whatever it accepts the written check accepts too |
| ChildProcess.ShortWriteAccepted | eye-native/src/FfmpegProcess.cpp:147-148 | as written, a write of half a 100-byte buffer reports success, where the intended check reports failure |
| ChildProcess.FailedWriteAccepted | eye-native/src/FfmpegProcess.cpp:147-148 | as written, a failed write of a 0xFFFFFFFF-byte buffer reports success |
| ChildProcess.Monitor | eye-native/src/FfmpegProcess.cpp:71-103 | the loop runs while the process runs; it ends at a dead drainer or at a stop request, which asks for termination; every full pass saw the process and both drainers running; the probe collects exactly the stdout bytes of the full passes |
| Ffmpeg.VideoSize | eye-native/src/FfmpegProcess.cpp:26-27 | the size value has the form width, 'x', height |
| Ffmpeg.VideoSizeRoundTrip | eye-native/src/FfmpegRecordProcess.cpp:22-23 | the number before the 'x' reads back as the width and the number after it as the height |
| Ffmpeg.InputArguments | eye-native/src/FfmpegRecordProcess.cpp:15-29 | raw BGRA frames of the given size and rate, read from stdin |
| Ffmpeg.RecordArguments | eye-native/src/FfmpegRecordProcess.cpp:7-47 | the input options, then libx264 in the high profile at rate factor 10 to yuv420p, overwriting the output path |
| Ffmpeg.EncodeArguments | eye-native/src/FfmpegProcess.cpp:7-50 | the input options, then the chosen encoder in the high profile to yuv420p, overwriting the output path, with no rate factor |
| Ffmpeg.RecordIsEncodeWithCrf | eye-native/src/FfmpegRecordProcess.cpp:31-46 | with libx264 the recording command line is the general one with the rate-factor pair inserted before the pixel format |
| Ffmpeg.PlaybackArguments | eye-native/src/FfmpegPlaybackProcess.cpp:7-29 | decode the video to raw BGRA images on stdout |
| Ffmpeg.EncoderProcess.constructor | eye-native/src/FfmpegRecordProcess.cpp:7-47 | stores the executable and the argument list, with fresh empty handles |
| Ffmpeg.EncoderProcess.Run | eye-native/src/FfmpegRecordProcess.cpp:49-105 | a failed spawn of the process or the drainers returns 1; otherwise the monitor loop runs, a stop request terminates the process once, the drainers are stopped, every handle is closed once and 0 returned |
| Ffmpeg.EncoderProcess.WriteStdin | eye-native/src/FfmpegRecordProcess.cpp:136-144 | as intended, success exactly when stdin is open and the whole frame was accepted |
| Ffmpeg.PlaybackProcess.constructor | eye-native/src/FfmpegPlaybackProcess.cpp:7-29 | stores the executable and the decode command line, with no drainers and fresh empty handles |
| Ffmpeg.PlaybackProcess.Run | eye-native/src/FfmpegPlaybackProcess.cpp:44-88 | a failed spawn returns 1; otherwise it creates the two drainers on stdout and stderr, returns 1 if they cannot start, else runs the monitor loop (terminating on a stop request) and returns 0, leaving handles and drainers to the destructor |
| Ffmpeg.PlaybackProcess.ReadStdout | eye-native/src/FfmpegPlaybackProcess.cpp:119-129 | hands over and empties the stdout drainer's buffer, or returns nothing without a drainer |
| Ffmpeg.PlaybackProcess.Destroy | eye-native/src/FfmpegPlaybackProcess.cpp:31-42 | stops whichever drainers exist, then closes every handle still held, once |
| Ffprobe.Arguments | eye-native/src/FfprobeProcess.cpp:10-27 | quiet, JSON output, all streams of the video |
| Ffprobe.FindChar | eye-native/src/FfprobeProcess.cpp:96 | the position of the first occurrence of the character, or none when it does not occur |
| Ffprobe.ParseFps | eye-native/src/FfprobeProcess.cpp:95-100 | a rate without '/' keeps the previous frame rate |
| Ffprobe.FindCharAfter | eye-native/src/FfprobeProcess.cpp:96 | the search skips a prefix free of the character |
| Ffprobe.ParseFpsOfRatio | eye-native/src/FfprobeProcess.cpp:95-100 | a rate written as n/d reads as n |
| Ffprobe.FirstVideoStream | eye-native/src/FfprobeProcess.cpp:86-92 | the first stream whose codec type is video, or none when there is none |
| Ffprobe.ReadStreams | eye-native/src/FfprobeProcess.cpp:85-104 | without a video stream the four fields keep their values |
| Ffprobe.ReadStreamsIgnoresLater | eye-native/src/FfprobeProcess.cpp:103 | streams after the first video stream are ignored |
| Ffprobe.FirstVideoStreamOfPrefix | eye-native/src/FfprobeProcess.cpp:86-92 | appending streams does not change which video stream comes first |
| Ffprobe.ReadStreamsSkipsOthers | eye-native/src/FfprobeProcess.cpp:89-92 | non-video streams in front of the video stream change nothing |
| Ffprobe.FirstVideoStreamAfterOthers | eye-native/src/FfprobeProcess.cpp:89-92 | the first video stream after a run of non-video streams is found behind them |
| Ffprobe.ReadStreamsRoundTrip | eye-native/src/FfprobeProcess.cpp:93-102 | a video stream reported with a rate "fps/d" and a frame count is read back as exactly its width, height, rate and count |
| Ffprobe.FfprobeProcess.constructor | eye-native/src/FfprobeProcess.cpp:10-27 | stores the executable and the probe command line; all four fields start at 0 |
| Ffprobe.FfprobeProcess.Run | eye-native/src/FfprobeProcess.cpp:29-106 | a failed spawn returns 1 and leaves the fields alone; otherwise stdout is collected by the monitor loop, the drainers stopped, the handles closed once, and the fields read from the parsed streams of exactly that output |
| Random.MaxAccepted | eye-candy/app/main/epl/random.js:28-31 | the rejection threshold is the largest multiple of the range not above 2^31 - 1 |
| Random.HitsCount | eye-candy/app/main/epl/random.js:37 | among the samples below n, a residue is hit once per whole block of the range, plus once if the last partial block reaches it |
| Random.RandiUniform | eye-candy/app/main/epl/random.js:26-38 | with the corrected acceptance test every residue is hit equally often, so `randi` is uniform over its range |
| Random.RandiAsWrittenBias | eye-candy/app/main/epl/random.js:33-35 | as written, the test accepts one sample more than a multiple of the range, so residue 0 (the value `start`) is hit once more than residue 1 |
| Random.Nibble | eye-candy/app/main/epl/random.js:53 | `random() * 16 \| 0` is the output's top four bits, a value below 16 |
| Random.Variant | eye-candy/app/main/epl/random.js:54 | `(r & 0x3) \| 0x8` is 8 plus the nibble's low two bits, between 8 and 11 |
| Random.TemplateSlots | eye-candy/app/main/epl/random.js:46 | the template takes 31 draws, one per `x` or `y` |
| Random.Filled | eye-candy/app/main/epl/random.js:46-56 | filling keeps the template's length |
| Random.FilledChars | eye-candy/app/main/epl/random.js:46-56 | every `x` becomes a lower-case hex digit, the `y` one of 8, 9, a and b, and every other character stays |
| Random.UuidFormat | eye-candy/app/main/epl/random.js:45-58 | the result has the version-4 format of section 4.4 of RFC 4122: 36 characters, dashes at 8, 13, 18 and 23, the version digit 4 at 14, a variant digit at 19 and lower-case hex digits elsewhere |
| Random.Swap | eye-candy/app/main/epl/random.js:14-16 | the two elements trade places and every other element stays |
| Random.FisherYates | eye-candy/app/main/epl/random.js:9-19 | the shuffle keeps the length |
| Random.FisherYatesStep | eye-candy/app/main/epl/random.js:12-17 | one more pass of the loop is one more swap, of position n-1-k with a partner drawn below n-k |
| Random.SwapPermutes | eye-candy/app/main/epl/random.js:14-16 | a swap rearranges the elements without adding or losing any |
| Random.FisherYatesPermutes | eye-candy/app/main/epl/random.js:9-19 | the shuffled array is a permutation of the original |
| Random.FisherYatesSettles | eye-candy/app/main/epl/random.js:12-17 | once a position at the end has been swapped, later passes leave it alone |
| Random.SwapItems | eye-candy/app/main/epl/random.js:14-16 | the array after the swap is `Swap` of the array before |
| Random.DeterministicRandom.constructor | eye-candy/app/main/epl/random.js:4-6 | the generator is fixed by the seed and nothing has been drawn |
| Random.DeterministicRandom.Int | eye-candy/app/main/epl/random.js:40-42 | the next output, consuming one draw |
| Random.DeterministicRandom.Random | eye-candy/app/main/epl/random.js:22-24 | the next output scaled into [0, 1), consuming one draw |
| Random.DeterministicRandom.Randi | eye-candy/app/main/epl/random.js:27-38 | a value in [start, end): the residue of the first accepted sample shifted to `start`, every sample drawn before it rejected |
| Random.DeterministicRandom.Shuffle | eye-candy/app/main/epl/random.js:9-19 | the array ends as the Fisher-Yates shuffle of its old contents with the partners drawn, one per position from the last down to 1, and is a permutation of them |
| Random.DeterministicRandom.Uuid | eye-candy/app/main/epl/random.js:45-58 | the template filled from the next 31 draws, in order |
| Renderers.HexNumeral | eye-candy/app/stimuli/renderers/StimulusRenderer.ts:36-38 | `toString(16)` gives at least one lower-case hex digit |
| Renderers.PackedNumeral | eye-candy/app/stimuli/renderers/StimulusRenderer.ts:35-39 | the packed value's numeral is "1" followed by each channel's two digits, zero-padded |
| Renderers.RgbToHex | eye-candy/app/stimuli/renderers/StimulusRenderer.ts:35-39 | the result is '#' followed by exactly six lower-case hex digits, two per channel, high digit first |
| Renderers.ExpandShorthand | eye-candy/app/stimuli/renderers/StimulusRenderer.ts:42-51 | a whole string of three hex digits, with or without '#', becomes the six digits with each doubled and no '#'; any other string is unchanged |
| Renderers.PairValue | eye-candy/app/stimuli/renderers/StimulusRenderer.ts:58-60 | `parseInt(pair, 16)`: the high digit's value times 16 plus the low digit's |
| Renderers.MatchSix | eye-candy/app/stimuli/renderers/StimulusRenderer.ts:53 | the six-digit pattern matches exactly six hex digits after an optional '#' |
| Renderers.HexToRgb | eye-candy/app/stimuli/renderers/StimulusRenderer.ts:41-62 | conversion succeeds exactly when the expanded string is six hex digits after an optional '#', and otherwise throws the conversion error |
| Renderers.HexToRgbOrNull | eye-candy/app/stimulus/stimuli/StimulusBase.ts:41-56 | as intended, the recorder's version returns null exactly where the renderers' version throws, and the same channels otherwise |
| Renderers.HexToRgbAsWritten | eye-candy/app/stimulus/stimuli/StimulusBase.ts:44 | as written, the assignment to an undeclared name throws on every call |
| Renderers.HexRoundTrip | eye-projector/app/stimuli/renderers/StimulusRenderer.ts:68-95 | converting channels to hex and back gives the same channels |
| Renderers.ChannelDigits | eye-projector/app/stimuli/renderers/StimulusRenderer.ts:68-93 | a channel's two hex digits read back as the channel |
| Renderers.HexToRgbAsWrittenFails | eye-candy/app/stimulus/stimuli/StimulusBase.ts:35-56 | as written, the recorder's `hexToRgb` cannot convert even the colours its own `rgbToHex` produces; the corrected one can |
| Renderers.ShorthandDoubles | eye-projector/app/stimuli/renderers/StimulusRenderer.ts:75-84 | the shorthand `#rgb` means `#rrggbb`: each channel is 17 times its digit's value |
| Renderers.HashOptional | eye-projector/app/stimuli/renderers/StimulusRenderer.ts:76-86 | the leading '#' is optional |
| Renderers.LowerChar | eye-projector/app/stimuli/renderers/StimulusRenderer.ts:76-86 | lower-casing keeps hex digits hex, with the same value, and keeps '#' |
| Renderers.CaseInsensitive | eye-projector/app/stimuli/renderers/StimulusRenderer.ts:76-86 | the patterns' `i` flag: the case of the letters does not change the result |
| Renderers.Ceil | eye-projector/app/stimuli/renderers/StimulusRenderer.ts:20-22 | the least integer not below the value |
| Renderers.FramesRendered | app/stimulus/stimuli/StimulusBase.ts:17-22 | there are frames left exactly for frame numbers below the frame count rounded up: a stimulus renders ceil(lifespan * fps) frames |
| Renderers.StimulusRenderer.constructor | eye-projector/app/stimuli/renderers/StimulusRenderer.ts:13-18 | frame 0 of lifespan * fps frames |
| Renderers.StimulusRenderer.CanSkipRendering | eye-projector/app/stimuli/renderers/StimulusRenderer.ts:24-42 | the first frame, and every frame when frames are stamped, must be drawn; any other may be skipped |
| Renderers.StimulusRenderer.StampText | eye-projector/app/stimuli/renderers/StimulusRenderer.ts:44-55 | nothing unless frames are stamped; otherwise the stimulus type, a space and the frame number, which reads back as the frame number |
| Renderers.StimulusRenderer.Render | eye-projector/app/stimuli/renderers/StimulusRenderer.ts:108-110 | the base `render` always throws its error |
| RendererFactory.CreateRenderer | eye-candy/app/stimuli/renderers/RendererFactory.ts:17-58 | a renderer is built exactly for the twelve known tags, of the class named by the tag, with the stimulus and video settings passed through; any other tag throws "Unknown stimulus type: " and the tag |
| RendererFactory.TagSelectsClass | eye-candy/app/stimuli/renderers/RendererFactory.ts:18-54 | every renderer class is reachable, through its own tag |
| RendererFactory.ClassesDistinct | eye-candy/app/stimuli/renderers/RendererFactory.ts:18-54 | no two tags select the same class |
| RendererFactory.DependsOnlyOnType | eye-candy/app/stimuli/renderers/RendererFactory.ts:18 | the choice, and the error, depend on nothing but the tag |
| StimulusFactory.CreateStimulus | eye-candy/app/stimulus/stimuli/StimulusFactory.ts:17-58 | a built stimulus is of the class named by the tag, with the arguments passed through; any other tag throws "Unknown stimulus type: " and the tag |
| StimulusFactory.TagSelectsClass | eye-candy/app/stimulus/stimuli/StimulusFactory.ts:18-54 | every stimulus class is reachable, through its own tag |
| StimulusFactory.SameTagsAsRenderers | eye-candy/app/stimulus/stimuli/StimulusFactory.ts:18-57 | the stimulus factory accepts exactly the tags the renderer factory accepts, so every stimulus it builds can be rendered |
| StimulusFactory.DependsOnlyOnType | eye-candy/app/stimulus/stimuli/StimulusFactory.ts:18 | the choice, and the error, depend on nothing but the tag |
| AppStimulusFactory.CreateStimulus | app/stimulus/stimuli/StimulusFactory.ts:10-30 | only BAR, CHECKERBOARD, CHIRP, SOLID and WAIT are accepted, each for its own class, with the arguments passed through; any other tag throws "Unknown stimulus type: " and the tag |
| AppStimulusFactory.TagSelectsClass | app/stimulus/stimuli/StimulusFactory.ts:11-26 | every one of the five classes is reachable, through its own tag |
| AppStimulusFactory.DependsOnlyOnType | app/stimulus/stimuli/StimulusFactory.ts:11 | the choice, and the error, depend on nothing but the tag |
| MainProcess.GenerateLoop | eye-candy/app/main/main.dev.ts:530-550 | the `while (true)` loop over the program's values computes exactly what the generation function `Generate` describes: stimuli taken, summed lifespan, and whether a null value ended it |
| MainProcess.GenerateStops | eye-candy/app/main/main.dev.ts:531-550 | the queued stimuli are the program's values in order; the loop ends early only on a null value or once the summed lifespan reaches a non-zero limit, and every shorter prefix stays below that limit |
| MainProcess.GenerateStep | eye-candy/app/main/main.dev.ts:532-550 | one pass over a non-null value below the limit puts that stimulus in front of what the rest of the loop queues |
| MainProcess.Submit | eye-candy/app/main/main.dev.ts:229-238 | handing a frame to the native layer appends exactly that frame to what the native layer received |
| MainProcess.SubmitAll | eye-candy/app/main/main.dev.ts:207-216 | handing over a list of frames appends them in order and changes nothing but the pending map and the handed-over frames |
| MainProcess.CapturedExtends | eye-candy/app/main/main.dev.ts:190-238 | a capture only ever appends to what the native layer received and never changes the first frame number; without video info it changes nothing; before the first stimulus frame is known it hands nothing over |
| MainProcess.CaptureAll | eye-candy/app/main/main.dev.ts:190-238 | a series of captures never changes the first stimulus frame number |
| MainProcess.HoldBack | eye-candy/app/main/main.dev.ts:195-199 | before the first stimulus frame is known, captures are held back in order and counted, and nothing else changes |
| MainProcess.Record | eye-candy/app/main/main.dev.ts:223-238 | after the hand-over, captures are handed over in order while the frame count is below the expected count past the first frame, and later ones are dropped |
| MainProcess.CaptureAllFlushed | eye-candy/app/main/main.dev.ts:202-221 | the first capture once the first stimulus frame is known hands over the held frames from that frame on, empties the held queue and starts the clean timer |
| MainProcess.StartedHolds | eye-candy/app/main/main.dev.ts:195-199 | a fresh run whose first frame is reported after `held` captures holds exactly those frames and counts them, with nothing handed over |
| MainProcess.RunQueued | eye-candy/app/main/main.dev.ts:190-238 | in a whole run the native layer receives the held frames from the first stimulus frame on, followed by as many later frames as the expected count leaves room for |
| MainProcess.RecordsFromFirstFrame | eye-candy/app/main/main.dev.ts:190-238 | the recorded video is exactly the `frameCount` captured frames starting at the first stimulus frame, in order (all of them from there when fewer were captured) |
| MainProcess.RunStartsTimer | eye-candy/app/main/main.dev.ts:218-221 | in such a run the clean timer is running once the held frames have been handed over |
| MainProcess.TimerStaysRunning | eye-candy/app/main/main.dev.ts:190-238 | captures never stop a running clean timer |
| MainProcess.TickReleases | eye-candy/app/main/main.dev.ts:153-188 | a timer tick removes exactly the completed ids from the pending frames and keeps the rest unchanged; it ends the run exactly when video info exists, nothing is pending and the frame count reached the expected count past the first frame, and then the timer is stopped |
| MainProcess.Release | eye-candy/app/main/main.dev.ts:155-161 | the release loop leaves exactly the pending frames whose ids were not reported completed |
| MainProcess.Main.constructor | eye-candy/app/main/main.dev.ts:38-53 | the process starts with no video info, no program, empty queues and image set, first frame number -1, nothing pending and no timer |
| MainProcess.Main.GenerateStimuli | eye-candy/app/main/main.dev.ts:520-572 | throws without a program and changes nothing; otherwise queues the generated stimuli, adds their images to the image set and sets the expected frame count to summed lifespan times fps; a null value throws after the earlier stimuli are queued |
| MainProcess.Main.GetStimulusBatch | eye-candy/app/main/main.dev.ts:723-744 | throws without video info; otherwise hands out the first 50 queued stimuli (all when fewer) and keeps exactly the rest queued, so batch followed by the new queue is the old queue |
| MainProcess.Main.StartStimuli | eye-candy/app/main/main.dev.ts:688-690 | records the reported first stimulus frame number and changes nothing else |
| MainProcess.Main.StartFrameCleanTimer | eye-candy/app/main/main.dev.ts:148-153 | throws when the timer already runs, otherwise starts it |
| MainProcess.Main.QueueNextFrame | eye-candy/app/main/main.dev.ts:232-237 | hands a frame to the native layer and keeps it pending under the id the native layer returns |
| MainProcess.Main.HandOverEarly | eye-candy/app/main/main.dev.ts:207-216 | the loop over the held frames hands over exactly those from the first stimulus frame on, in order |
| MainProcess.Main.FrameCaptured | eye-candy/app/main/main.dev.ts:190-238 | a capture updates the recording state exactly as the capture function says, whose consequences the lemmas above prove |
| MainProcess.Main.RunStopped | eye-candy/app/main/main.dev.ts:116-137 | drops the program, the stimulus queue, the image set and the held frames, and resets the first frame number to -1 |
| MainProcess.Main.FrameCleanTick | eye-candy/app/main/main.dev.ts:153-188 | a timer tick releases the completed frames and, when the run is complete, stops the timer and the run |
| Programs.MeasureIntegrity | web/src/programs/checkerboard.js:22-39 | the generator's loop yields exactly the pieces the flash rule describes: each input stimulus, preceded by a flash where the rule puts one, with the running total starting at `every` |
| Programs.MeasureOne | web/src/programs/checkerboard.js:26-37 | one stimulus gets a flash (wait 1 s, white 0.5 s, wait 2 s under one fresh integrity group) exactly when the running total reached `every` and it is not marked `block`; the total then restarts from its own lifespan |
| Programs.PiecesShape | web/src/programs/checkerboard.js:22-39 | every input stimulus is yielded exactly once and in order, alone or right after a well-formed flash, and only stimuli not marked `block` get a flash |
| Programs.PiecesMarks | web/src/programs/checkerboard.js:27-37 | the flashes sit exactly where the flash rule marks them |
| Programs.FlashRuleFirst | web/src/programs/checkerboard.js:25-37 | before any flash, a stimulus gets one exactly when it is not marked `block` and the starting total plus the lifespans before it reach `every` |
| Programs.FlashRuleAfterHead | web/src/programs/checkerboard.js:27-37 | after a flash on the first stimulus, the next flash goes to the first unblocked stimulus once the lifespans since then reach `every` |
| Programs.FlashRuleAfter | web/src/programs/checkerboard.js:27-37 | after any flash, the next one goes exactly to a stimulus not marked `block` once the lifespans of the stimuli from the flashed one (included) reach `every`; the flash's own 3.5 s do not count |
| Programs.FirstUnblockedFlashed | web/src/programs/checkerboard.js:25-27 | because the total starts at `every`, the first stimulus not marked `block` always gets a flash |
| Programs.UnflashedIsInput | web/src/programs/checkerboard.js:22-39 | removing the flashes from the output gives back the input exactly |
| Programs.FlashesAtGroupStarts | web/src/programs/checkerboard.js:27-70 | in groups that open with an unblocked stimulus and are otherwise blocked, no stimulus after the opening one gets a flash |
| Programs.CheckerboardGroupShape | web/src/programs/checkerboard.js:41-72 | a group is a wait, two checkerboards and a closing wait sharing one id; the target is SAME exactly when the classes agree; class A is white on black and class B black on white |
| Programs.CheckerboardCount | web/src/programs/checkerboard.js:83-94 | the program makes four groups for every size, duration and repetition |
| Programs.CheckerboardLayout | web/src/programs/checkerboard.js:83-94 | group c of repetition i at a given size and duration sits at its row-major position, with that repetition's cohort and its own drawn id and closing wait |
| Programs.CheckerboardCovers | web/src/programs/checkerboard.js:83-94 | every position of the list holds such a group: the loops build nothing else |
| Programs.CheckerboardRepetitionPush | web/src/programs/checkerboard.js:85-92 | a pass of the repetition loop appends AB, AA, BB and BA under one fresh cohort |
| Programs.CheckerboardDurationPush | web/src/programs/checkerboard.js:84-93 | a pass of the duration loop appends a whole repetition loop |
| Programs.CheckerboardSizePush | web/src/programs/checkerboard.js:83-94 | a pass of the size loop appends a whole duration loop |
| Programs.BuildCheckerboard | web/src/programs/checkerboard.js:83-94 | the nested loops build exactly the group list the layout lemmas describe |
| Programs.CheckerboardGroupsShape | web/src/programs/checkerboard.js:41-94 | every group built is an unblocked opening wait, two blocked checkerboards of one cohort at the loop's size and duration, and a blocked closing wait, all in one group |
| Programs.LettersCount | eye-candy/app/resources/programs/letters-tiled.js:44-64 | the program makes one triple per duration, size, repetition and letter |
| Programs.LettersLayout | eye-candy/app/resources/programs/letters-tiled.js:44-64 | the triple of a given letter, repetition, size and duration sits at its row-major position |
| Programs.LettersCover | eye-candy/app/resources/programs/letters-tiled.js:44-64 | every position of the list holds such a triple |
| Programs.LettersLetterPush | eye-candy/app/resources/programs/letters-tiled.js:50-61 | a pass of the letter loop appends the triple of the next letter |
| Programs.LettersRepetitionPush | eye-candy/app/resources/programs/letters-tiled.js:48-62 | a pass of the repetition loop appends one triple per letter |
| Programs.LettersSizePush | eye-candy/app/resources/programs/letters-tiled.js:45-63 | a pass of the size loop appends a whole repetition loop |
| Programs.LettersDurationPush | eye-candy/app/resources/programs/letters-tiled.js:44-64 | a pass of the duration loop appends a whole size loop |
| Programs.BuildLetters | eye-candy/app/resources/programs/letters-tiled.js:44-64 | the four nested loops build exactly the triple list the layout lemmas describe |
| Programs.LetterTriplesShape | eye-candy/app/resources/programs/letters-tiled.js:49-60 | every triple is an unblocked one-second wait, a blocked tiled letter of the program's letters at the loop's size (padding equal to size), and a blocked closing wait, all in one group |
| Programs.GratingCount | eye-projector/app/resources/programs/grating-sinusoidal-durations.js:55-80 | the program makes two triples per size, angle, speed, duration and repetition |
| Programs.GratingLayout | eye-projector/app/resources/programs/grating-sinusoidal-durations.js:55-80 | direction c of a repetition sits at twice the repetition's row-major index plus c |
| Programs.GratingCovers | eye-projector/app/resources/programs/grating-sinusoidal-durations.js:55-80 | every position of the list holds such a triple |
| Programs.GratingRepetitionPush | eye-projector/app/resources/programs/grating-sinusoidal-durations.js:59-76 | a pass of the repetition loop appends the forward and then the reverse triple of that repetition |
| Programs.GratingDurationPush | eye-projector/app/resources/programs/grating-sinusoidal-durations.js:58-77 | a pass of the duration loop appends a whole repetition loop |
| Programs.GratingSpeedPush | eye-projector/app/resources/programs/grating-sinusoidal-durations.js:57-78 | a pass of the speed loop appends a whole duration loop |
| Programs.GratingAnglePush | eye-projector/app/resources/programs/grating-sinusoidal-durations.js:56-79 | a pass of the angle loop appends a whole speed loop |
| Programs.GratingSizePush | eye-projector/app/resources/programs/grating-sinusoidal-durations.js:55-80 | a pass of the size loop appends a whole angle loop |
| Programs.GratingRepetition | eye-projector/app/resources/programs/grating-sinusoidal-durations.js:61-75 | one repetition builds the forward triple at the angle and the reverse triple at its inverse, both opening with the wait built from the previous `id` |
| Programs.GratingPasses | eye-projector/app/resources/programs/grating-sinusoidal-durations.js:59-76 | the repetition loop appends exactly its passes' triples and advances the repetition counter and `id` accordingly |
| Programs.GratingDurations | eye-projector/app/resources/programs/grating-sinusoidal-durations.js:58-77 | the duration loop appends exactly a repetition loop per duration |
| Programs.GratingSpeeds | eye-projector/app/resources/programs/grating-sinusoidal-durations.js:57-78 | the speed loop appends exactly a duration loop per speed |
| Programs.GratingAngles | eye-projector/app/resources/programs/grating-sinusoidal-durations.js:56-79 | the angle loop appends exactly a speed loop per angle |
| Programs.BuildGrating | eye-projector/app/resources/programs/grating-sinusoidal-durations.js:55-80 | the five nested loops build exactly the triple list the layout lemmas describe |
| Programs.GratingStaleGroup | eye-projector/app/resources/programs/grating-sinusoidal-durations.js:62-64 | as written, a triple's opening wait carries the previous repetition's reverse id (no group at all for the first), so it shares its triple's group only when two uuid draws collide |
| Programs.GratingTripleIntended | eye-projector/app/resources/programs/grating-sinusoidal-durations.js:61-75 | the corrected triple puts all three stimuli in the triple's own group, keeps the shape of an unblocked opening wait before blocked stimuli, and differs from the as-written triple only in the opening wait |
| Programs.GratingTriplesShape | eye-projector/app/resources/programs/grating-sinusoidal-durations.js:61-75 | every triple is an unblocked opening wait, a blocked grating of the loop's size, speed and duration (forward at the angle, reverse at its inverse) with the repetition's cohort, and a blocked closing wait in the triple's group |
| Programs.ShuffledForm | web/src/programs/checkerboard.js:96 | the shuffle only permutes the groups, so every group keeps its form |
| Programs.FlashesOnlyAtGroupStarts | web/src/programs/checkerboard.js:98 | once the groups are flattened, no flash ever splits a group |
| Programs.FirstGroupFlashed | web/src/programs/checkerboard.js:25 | the first group's opening wait always gets a flash |
| Programs.Finish | web/src/programs/checkerboard.js:96-101 | a program's ending shuffles the groups, flattens them and passes them through the integrity rule every five minutes |
| Programs.StreamForm | web/src/programs/checkerboard.js:96-101 | what a program yields is a permutation of its groups flattened, each stimulus alone or after a well-formed flash, with the first stimulus flashed and no group split |
| Programs.CheckerboardProgram | web/src/programs/checkerboard.js:83-101 | the checkerboard program yields its groups, shuffled, flattened and with integrity flashes |
| Programs.LettersProgram | eye-candy/app/resources/programs/letters-tiled.js:44-74 | the letters program yields its triples, shuffled, flattened and with integrity flashes |
| Programs.GratingProgram | eye-projector/app/resources/programs/grating-sinusoidal-durations.js:55-90 | the grating program yields its triples, shuffled, flattened and with integrity flashes |
| Programs.CheckerboardStream | web/src/programs/checkerboard.js:41-101 | in the checkerboard output flashes fall only before a group's opening wait, and the first stimulus gets one |
| Programs.LettersStream | eye-candy/app/resources/programs/letters-tiled.js:44-74 | in the letters output flashes fall only before a triple's opening wait, and the first stimulus gets one |
| Programs.GratingStream | eye-projector/app/resources/programs/grating-sinusoidal-durations.js:55-90 | in the grating output flashes fall only before a triple's opening wait, and the first stimulus gets one |
| CellTyping.CeilDivBounds | old/web/programs/celltyping.js:28-51 | the rounded-up quotient is the least count of blocks that covers the length |
| CellTyping.CeilDivExact | old/web/programs/celltyping.js:115 | the rounded-up quotient is the quotient when the division is exact, and one more otherwise |
| CellTyping.Pix2CheckerNextRow | old/web/programs/celltyping.js:23 | the first pixel of the 81st row of a 1280 by 800 screen in 80-pixel checkers is in checker 16 |
| CellTyping.Pix2CheckerFirstRow | old/web/programs/celltyping.js:24 | the first pixel of the 80th row is in checker 0 |
| CellTyping.Pix2CheckerRowEnd | old/web/programs/celltyping.js:25 | the last pixel of the first row is in checker 15 |
| CellTyping.CheckersPerRowExample | old/web/programs/celltyping.js:28 | a 1280-pixel row holds 16 checkers of 80 pixels |
| CellTyping.Pix2CheckerContains | old/web/programs/celltyping.js:20-40 | the checker found really holds the pixel: its row and column, read back from the index, span the pixel's row and column |
| CellTyping.ColumnInRow | old/web/programs/celltyping.js:28-34 | a pixel column inside the screen lies in one of the row's checkers, including a last checker cut off by the edge |
| CellTyping.Pix2CheckerBound | old/web/programs/celltyping.js:20-52 | every pixel of the screen maps to one of the `nCheckers` checkers, so the lookup into the checker levels is in range |
| CellTyping.Repeat | old/web/programs/celltyping.js:55 | the filled array has the requested length and holds only the fill value |
| CellTyping.RepeatCounts | old/web/programs/celltyping.js:55 | a filled array holds the fill value exactly that many times and nothing else |
| CellTyping.SinglePixelBalanced | old/web/programs/celltyping.js:42-55 | the level array exists exactly for an even frame count, and then has one entry per frame, half black and half white |
| CellTyping.PermutationBalanced | old/web/programs/celltyping.js:46-65 | any rearrangement of balanced levels stays balanced |
| CellTyping.ShuffledCopies | old/web/programs/celltyping.js:62-72 | the checker loop keeps one copy per checker, each a permutation of the original levels, though each shuffle continues from the previous arrangement |
| CellTyping.CheckerLevels | old/web/programs/celltyping.js:55-72 | there is one level sequence per checker, each a permutation of the half-black, half-white sequence |
| CellTyping.FrameIndexInjective | old/web/programs/celltyping.js:88-91 | distinct pixels, frames or channels are written at distinct places of the buffer, so no write overwrites another |
| CellTyping.FrameIndexBound | old/web/programs/celltyping.js:60-91 | every write lands inside the buffer of `nFrames * nPixels * 4` bytes |
| CellTyping.FrameIndexCovers | old/web/programs/celltyping.js:60-91 | every byte of the buffer is the place of some pixel, frame and channel |
| CellTyping.PaintKeeps | old/web/programs/celltyping.js:88-91 | painting one pixel of one frame leaves every other pixel of every frame as it was |
| CellTyping.PaintPixel | old/web/programs/celltyping.js:88-91 | the red, green and blue channels take the level and alpha takes 255, and nothing else changes |
| CellTyping.PaintFrames | old/web/programs/celltyping.js:78-95 | the frame loop gives the pixel its checker's level in every frame and leaves every other pixel as it was |
| CellTyping.FillFrames | old/web/programs/celltyping.js:60-100 | after the pixel loop every pixel of every frame holds its checker's level on red, green and blue and 255 on alpha |
| CellTyping.FrameSlice | old/web/programs/celltyping.js:103 | frame n is one contiguous slice of the buffer, and pixel p of that slice is pixel p of frame n |
| CellTyping.YieldFrames | old/web/programs/celltyping.js:102-104 | the yielded frames are the buffer's consecutive slices of one frame each, in order |
| CellTyping.Trace | old/web/programs/celltyping.js:102-104 | a pixel's trace over time has one level per yielded frame |
| CellTyping.PixelOverTime | old/web/programs/celltyping.js:75-104 | over the yielded frames a pixel is grey and opaque and follows exactly the level sequence of the checker that holds it |
| CellTyping.FramesBalanced | old/web/programs/celltyping.js:46-104 | every pixel is grey and opaque in every frame, and black in exactly half of the frames and white in the other half |
| CellTyping.PreRender | old/web/programs/celltyping.js:7-105 | the pre-render function fails exactly for an odd frame count; otherwise it yields `nFrames` frames of RGBA pixels, each pixel grey, opaque and balanced over time |
| CellTyping.ChunkJobs | old/web/programs/celltyping.js:115-134 | the job loop makes the rounded-up number of jobs; job i is seeded `renderSeed + i`, starts at frame `i * chunkSize` and renders the remainder if it is the last, uneven job, or else a whole chunk |
| CellTyping.FramesBeforeWhole | old/web/programs/celltyping.js:126-134 | every job before the last renders a whole chunk |
| CellTyping.JobFramesRange | old/web/programs/celltyping.js:127-131 | every job renders between one frame and a whole chunk |
| CellTyping.JobsTile | old/web/programs/celltyping.js:126-134 | job i starts exactly where the frames of the jobs before it end |
| CellTyping.JobsSum | old/web/programs/celltyping.js:115-134 | the jobs' frame counts add up to the total frame count, so the jobs render every frame once |
| CellTyping.ProgramJobs | old/web/programs/celltyping.js:107-116 | the program's 1500 noise frames split into 30 jobs of 50 frames |
| Text.NatToString | eye-native/src/FfmpegProcess.cpp:27-30 | `to_string` of an unsigned value is a non-empty string of decimal digits without a leading zero |
| Text.DigitsValueOfNatToString | eye-native/src/FfmpegProcess.cpp:27-30 | reading the written numeral back gives the number it was written from |
| Text.AtoiOfNatToString | eye-native/src/FfprobeProcess.cpp:95-100 | `atoi` reads back what `to_string` wrote, even with text after the digits |
| Text.HexDigit | eye-candy/app/stimuli/renderers/StimulusRenderer.ts:37 | `toString(16)` writes one lower-case hexadecimal digit whose value is the digit given |

## Left out

- Threads, mutexes and condition variables are not modelled. `checkForExit()` and the other threads' `isRunning()` are per-pass inputs. A stage's loop over its ticks is the whole of its thread.
- `terminate` in the presentation and calibration stages always waits 1000 ms, whatever timeout is asked for (`eye-native/src/ProjectorThread.cpp:55-60`, `eye-native/src/CalibrationThread.cpp:98-103`). Thread joining and timing are not modelled.
- The frame queues (`Queue.hpp`) are sequences. `Queue.hpp` is not part of this model.
- The preview frame header codec (`frameheader::format`/`parse`, `FRAME_HEADER_SIZE`) is not part of this model. The header is opaque, and no header round trip is stated.
- Process spawning, pipes, windows, the timing card and waits on hardware events are platform calls. Their answers are inputs of each pass.
- OpenCV `resize` and `imencode` are not modelled. A resized or encoded buffer is an address the caller supplies.
- Ffprobe.ReadStreams: the JSON text is taken as already parsed into streams. The exceptions `json::parse` and `get<>` throw on malformed output, missing keys or wrong types (`eye-native/src/FfprobeProcess.cpp:85-102`) are not modelled, so the model promises nothing for them.
- The Mersenne Twister is the oracle `mt`: the k-th draw of a seeded generator is `mt(k)`. The generator's own `random()` (the Mersenne Twister's output) and the vm2 sandbox that runs the programs are not modelled. `Random.DeterministicRandom.Random` is modelled on top of the oracle, as the draw divided by 2^32.
- Random.DeterministicRandom.Randi: it requires `start < end`, and that some later draw passes the acceptance test. It states the corrected acceptance test `r < max`, not the source's `r <= max` (see Findings). So when a draw equals `max`, the model draws again where the source returns, and every later draw of that seeded stream shifts.
- The binding layers (`Wrapper.cpp`, `index.js`, `native.js`, the FFmpeg wrapper) only marshal arguments and are not modelled.
- Floating point is not modelled bit for bit. JavaScript numbers (lifespans, frame rates, `frameCount`, `limitSeconds`) are `real`, with no rounding. The preview aspect-ratio scaling, `timestampSec`/`totalDurationMs`, `logMARtoPx`, `inverseAngle` and the `toFixed` duration log are left out, or are parameters where a result is needed.
- ProjectorStage.DurationMs: for a rate of 0 the source converts an infinite `double` to `int32_t`, which C++ leaves undefined. The model picks the x86 result (-2^31), and no contract promises anything for that case.
- PreviewSend.WrittenCoversBuffer: the counts the platform reports are not bounded, so it states that they reach at least the length. The exact length, and so no wrap of the `uint32_t` counter, is stated by `WriteAllExact` under the platform's promise to write no more than asked. The receiver's `readAll` has the same shape in `ReadAllExact`.
- The `uint32_t` counters of `writeAll` and `readAll` are unbounded counts in the model. A platform answering more than asked, which would wrap them, is not modelled.
- RecordStage.Capture: uses the corrected `writeStdin` check, so it ends with `EncoderWriteFailed` on a short write (or a -1 answer for a 0xFFFFFFFF-byte buffer). The source accepts that write, forwards the frame and goes on (`eye-native/src/RecordThread.cpp:69-84`, `eye-native/src/FfmpegRecordProcess.cpp:142-143`). The as-written check is `ChildProcess.ProcessHandles.WriteStdinAsWritten` (see Findings).
- RecordStage.RecordThread.RunLoop: runs `Capture`, so it has the same corrected write check. Where the source forwards a short-written frame and keeps capturing, the model stops.
- PreviewSend.SendPass: is the intended pass `Pass`, which hands on and counts the frame even when the pipe create, connect or write fails. The source's `continue` loses that frame: it is neither forwarded nor released, and the counter does not move (the `continue` at lines 46, 63, 82 and 93 of `eye-native/src/PreviewSendThread.cpp`). The as-written pass is `PassAsWritten` (see Findings).
- PreviewSend.SendLoop: folds the intended `Pass`, so the frame lost by the source on a failed pipe create, connect or write (`eye-native/src/PreviewSendThread.cpp:41-93`) is handed on in the model.
- PreviewSend.PreviewSendThread.Run: runs `SendLoop`, so every dequeued frame is forwarded or released. In the source, a frame taken on a pass whose pipe create, connect or write fails (`eye-native/src/PreviewSendThread.cpp:41-93`) is neither forwarded nor released.
- PlaybackStage.Reassembly.Take: returns at once when the frame size is 0, where the source loops forever pushing empty frames. The hang is stated by `ZeroFrameSizeNeverConsumes` (see Findings).
- The calibration stage's rolling latency list, the no-signal and average-latency callbacks, the `delayMs` pacing and the pipe reader's `maxBuffer` back-pressure are declared in headers only. They are not modelled.
- Canvas drawing, `renderBackground`, `renderFrame`, `colorToRGB`, `getDiagonalLength`, progress messages, logging, IPC, dialogs and the React and server code are not modelled. The base `render` is the error it always throws.
- MainProcess.Main.GetStimulusBatch: returns the stimulus records themselves, not their JSON text. JSON serialisation is not modelled.
- The main process's windows and its calls into the native library are not modelled. The native frame ids are the oracle `idOf`.
- Frame ids wrap at 2^32 as the native counter does, and the id 0xFFFFFFFF reads as -1, the refusal value (`Native.LastIdLooksRefused`). The model keeps this, since the code shows no other intent.
- Stimulus metadata is a record of the keys the programs and `measureIntegrity` use (`group`, `block`, `target`, `cohort`, `class`). Free-form keys are not kept.
- Program draws (`r.uuid()`, `r.randi(...)`) are oracles indexed by the loop position that makes them. Their link to one seeded stream is not modelled.

## Findings

| source | as written | input that shows it | evidently intended | confidence | as-written member | corrected member |
|---|---|---|---|---|---|---|
| eye-native/src/FfmpegRecordProcess.cpp:142-143 | `writeStdin` reports success when `n >= 0` or `(uint32_t)n == length`, so a short write succeeds and so does a failed one of length 0xFFFFFFFF; `RecordThread.cpp:69-84` then forwards the frame | length 100 with 50 bytes written; or length 0xFFFFFFFF with -1 returned | success only when the whole buffer was written | high, not executed | ChildProcess.ShortWriteAccepted | ChildProcess.ProcessHandles.WriteStdin |
| eye-native/src/PreviewSendThread.cpp:41-47 | on a failed pipe create, connect or write, `continue` skips the end of the pass, so the frame is neither forwarded nor released and the frame counter does not move | a pass whose pipe create fails | every dequeued frame is forwarded (or released) and counted, whether or not it reached the pipe | high, not executed | PreviewSend.FailedCreateLosesFrame | PreviewSend.EveryFrameHandedOn |
| eye-candy/app/main/epl/random.js:33 | `randi` rejects only `r > max`, so `max` itself is accepted, and `max % range == 0`, so 0 is drawn once more often than the other values | `randi(0, 3)`: `max` is 2147483646, and of the accepted samples 0..2147483646, 715827883 give 0 and 715827882 each give 1 and 2 | reject `r >= max`, which gives every value the same number of samples | medium, not executed | Random.RandiAsWrittenBias | Random.RandiUniform |
| eye-projector/app/resources/programs/grating-sinusoidal-durations.js:62-64 | the opening wait of each triple is built with the `id` of the previous repetition, before `id` is drawn anew | the first repetition (no group at all), and any later one (the previous reverse triple's group) | the opening wait shares its triple's group, as the other two stimuli do | medium, not executed | Programs.GratingStaleGroup | Programs.GratingTripleIntended |
| eye-candy/app/stimulus/stimuli/StimulusBase.ts:44 | `hexToRgb` assigns to `hexReplace`, which is never declared, so in a module (strict mode) every call throws a ReferenceError | any colour, such as `rgbToHex(0, 0, 0)` | a local declaration, so the function returns channels or null | high, not executed | Renderers.HexToRgbAsWrittenFails | Renderers.HexToRgbOrNull |
| eye-native/src/PlaybackThread.cpp:204-234 | with a frame size of 0 each pass of the inner loop copies nothing, pushes an empty frame and never shortens the chunk, so the loop never ends | a video of width 0, or a width times height times 4 that wraps to 0 in 32 bits | the loop ends for every chunk; an empty frame size takes nothing into frames | medium, not executed | PlaybackStage.ZeroFrameSizeNeverConsumes | PlaybackStage.Reassembly.Take |
