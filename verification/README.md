# Verified model of the buffr-app state machines

buffr-app is the window process of a browser: it composites frames that engines paint off screen,
decides when a hidden window may stop painting, proves its liveness to a supervisor, and turns
gestures, tab commands, permission prompts and page focus into actions. Most of its state is a set of
small caches and flags that are only correct together, changed by actors that race: an engine's paint
thread, the GPU worker, the compositor, a heartbeat thread, page scripts.

Each part is written twice. A step function on values says what one event does, with the source's
branches and constants; a class (or a method with a loop) does the same in place, and its contract ties
the new state to the step function. The results are then proved about the step functions, over every
input and every run.

| file | what it models |
|---|---|
| `osr.dfy` | the shared off-screen frame, its two producers, and the freshness gate |
| `gpu.dfy` | the render worker: page texture with generation dedupe, chrome texture with band uploads, its reports and the outcome of a frame |
| `popup.dfy` | painting a popup window, against a reference window that caches nothing |
| `main_window.dfy` | painting the main window: swap, four paint paths, chrome bands, short-circuit, retry, tab and engine switches |
| `occlusion.dfy` | occlusion belief, sleep policy, debounce and wake probes |
| `presents.dfy` | that policy together with the worker whose timings it judges by |
| `heartbeat.dfy` | UI thread, heartbeat thread and supervisor deadline, in real time |
| `crash_guard.dfy` | the crash-loop log over an atomic file replacement that may stop at any step |
| `gestures.dfy` | the history swipe shared by all surfaces, and wheel momentum |
| `tabs.dfy` | one engine's tab list, pinned-tab confirmation, context-menu closes, middle click |
| `context_menu.dfy` | keyboard selection in a context menu |
| `permissions.dfy` | the permission prompt under arrival and withdrawal of requests |
| `edit_focus.dfy` | page field focus, the deferred blur, the ways out of Insert |
| `pixels.dfy` | modal geometry in 32 bits, rectangle fill on a flat buffer |

## What turned out false

Where the code does not meet what its comments promise, the model keeps the code, a lemma gives a
failing input or run, and another says exactly when the promise holds.

- The animation arm swaps a fresh frame out without raising the stale flag, so a later frame skips
  pixels the GPU never had (apps/buffr-app/src/main.rs:3904-3935 and :4112-4117):
  `ResizeLeaksFreshFrame`, `LeakedFrameStaysHidden`; exact condition in `PaintPage`.
- The idle short-circuit does not look at the stale flag, so the retry of a skipped page frame does
  nothing while the chrome is clean (apps/buffr-app/src/main.rs:3775-3781):
  `SkippedPageFrameIsStranded`; exact condition in `RetryReachesGpuIff`.
- The animation counts as off before the frame that clears its picture is known to be submitted
  (apps/buffr-app/src/main.rs:3791-3807). If that frame is skipped the picture stays over the page:
  `SkippedEndKeepsSplash`; exact condition in `SplashLeavesIff`.
- A chrome texture reallocated at a new logical size stays blank unless the chrome is dirty:
  `MainWindow.CleanChromeStaysUpToDateIff`, `Popup.CleanBarStaysUpToDateIff`.
- Switching or closing tabs by keyboard does not tell the window
  (apps/buffr-app/src/main.rs:2649-2659), so the old tab's picture stays up until the new one paints:
  `KeySwitchKeepsOldPicture`; exact condition in `OldPictureGivesWayIff`.
- Generations are counted per engine but the watermark and the worker's dedupe compare them across
  engines: `EngineSwitchReconsumesIff`, `FreshFrameIsShownIff`.
- A comment promises that no probe wakes the window on a stale number without having presented
  (apps/buffr-app/src/main.rs:4083-4101) and calls the sample a same-frame signal. The number that
  comes with a submitted frame is the previous frame's (apps/buffr-app/src/render.rs:1378-1382), so a
  probe can wake the window whatever becomes of its own frame: `SlowPresentFastSubmitWakesBlindly`;
  exact condition in `ProbeWakesIff`.
- A report of the worker that arrives between a paint's own poll and the renderer's
  (apps/buffr-app/src/render.rs:1178-1180) lets the frame through, but how long that present took is
  never judged: `LateReportIsNotJudged`, whose condition is that very moment.
- The main window's resize makes the gate wait for a fresh paint, so that an old frame is not shown when
  the view comes back to its size (`ResizeWaitsForPaint`). A popup's resize does not
  (crates/buffr-cef/src/host.rs:767-781): `ResizedPopupTakesOldFrameIff` says exactly when a popup takes
  the old frame.
- WebKit's ingest resizes a buffer only when it is too short, so after a shrink no frame of that size
  passes the gate again (crates/buffr-webkit/src/platform/wpe_subclass.rs:426):
  `ShrinkFreezesWebKitOnly`; exact condition in `IngestIsFreshIff`. The freeze is latent: it takes a
  consumer that swaps buffers, as buffr-app does, but buffr-app builds CEF only
  (apps/buffr-app/src/main.rs:317) and the workspace leaves buffr-webkit out (Cargo.toml:22-34).
- Focusing the window does not cancel an occlusion debounce; how long it then stays awake is exactly
  `FocusKeepsAwakeIff`.
- The heartbeat's tolerance for the gap between UI marks, timeout plus deadline less two periods, is
  exact for wake-ups exactly a whole-microsecond interval apart (`ExactWakeUpsTolerate`,
  `ExactBoundIsExact`), the shipped 1 s included. With any jitter the stamp's truncation costs 999 ns
  of it, no less: `NoFalseKill`, `JitterBoundIsExact`.
- A clock that steps back hides a crash loop: `ClockStepBackHidesLoop`; exact condition for the log to
  be the documented window, under any clock, in `WindowIsCountedIff`.
- Closing a background tab moves the focus to its neighbour: `CloseKeepsFocusIff`.
- Reopening a closed tab at or before the active slot leaves the old active browser in the
  foreground: `ReopenForegroundIff`.
- Duplicating a pinned tab, or pasting a URL beside one, can put an unpinned tab among the pinned
  ones: `StepKeepsPinnedFirstIff`.
- A middle click takes the id from the strip as drawn and the pin from the same slot of the list as it
  is, so a stale strip closes a pinned tab unasked: `StaleMiddleClickClosesPinned`; exact condition in
  `PinnedLeavesIff`.
- A focused field's blur is dropped once its tab is no longer active, so switching tabs while typing
  leaves every key going to the new page: `FocusOutlivesTabSwitch`; exact condition in
  `BlurIsHeardIff`.

## Model

| member | source | states |
|---|---|---|
| `Osr.SharedFrame.OnPaint` | crates/buffr-cef/src/osr.rs:206-299 | a CEF paint replaces dimensions and pixels, raises the generation by one and clears `needs_fresh`, whatever buffer a swap left behind; a non-positive dimension drops it whole |
| `Osr.SharedFrame.Ingest` | crates/buffr-webkit/src/platform/wpe_subclass.rs:407-452 | a WebKit ingest does the same but keeps a buffer that is too long at its length; the view then expects its size, so a consumer takes it exactly if the buffer was not too long |
| `Osr.SharedFrame.RequireFresh` | crates/buffr-cef/src/host.rs:1071-1088 | a resize makes the view expect another size, and no consumer takes the frame that is there, at any size |
| `Osr.CefPaintIsFresh` | apps/buffr-app/src/paint_policy.rs:460-478 | every CEF paint at the expected size passes the gate of a consumer that has not seen it |
| `Osr.ResizedFrameIsRejected` | apps/buffr-app/src/paint_policy.rs:460-478 | after a resize every frame is rejected until the engine paints, and that paint is taken exactly at its own size |
| `Osr.IngestIsFreshIff` | crates/buffr-webkit/src/platform/wpe_subclass.rs:426-452 | a WebKit ingest passes the same gate if and only if the buffer handed back is not an oversized one |
| `Osr.OversizedBufferFreezes` | crates/buffr-webkit/src/platform/wpe_subclass.rs:426-430 | once oversized, no number of ingests at that size is ever shown |
| `Osr.ShrinkFreezesWebKitOnly` | crates/buffr-webkit/src/platform/wpe_subclass.rs:417-430 | consuming a larger and then a smaller frame reaches that state; CEF recovers with its next paint, WebKit never at that size |
| `Gpu.RealUploadHoldsIff` | apps/buffr-app/src/render.rs:228-277 | an upload with pixels is what the texture holds afterwards if and only if the dedupe does not already know its size and generation with other pixels |
| `Gpu.EmptyUploadIsIgnored` | apps/buffr-app/src/render.rs:511-520 | a frame with an empty side leaves the page texture as it is |
| `Gpu.BandsFit` | apps/buffr-app/src/render.rs:324-343 | the two bands lie inside the texture, read the rows they write, and do not overlap |
| `Gpu.WriteChromeCells` | apps/buffr-app/src/render.rs:369-413 | a band upload changes exactly the cells in the two bands, to the buffer's |
| `Gpu.FullBandIsFullUpload` | apps/buffr-app/src/render.rs:324-343 | a top band of the full height uploads everything |
| `Gpu.Renderer.PollPresentStats` | apps/buffr-app/src/render.rs:1089-1104 | draining the channel keeps its newest report and counts every one against the frames in flight |
| `Gpu.RunKeepsWorkerInv` | apps/buffr-app/src/render.rs:1193-1204 | at most one frame is unpresented, and the counter, the channel and the last report agree with what the worker has reported |
| `Gpu.SampleIsPreviousFrames` | apps/buffr-app/src/render.rs:1176-1204 | however reports, polls and frames interleave, a frame is submitted exactly if a texture is had and all earlier frames have reported, fails exactly if the surface does then, and returns the previous frame's submit time |
| `Popup.PopupWindow.AcquireFrame` | apps/buffr-app/src/main.rs:5555-5577 | the swap under the frame lock takes pixels, dimensions and generation exactly when the gate accepts the frame |
| `Popup.PopupWindow.PaintPopupWindow` | apps/buffr-app/src/main.rs:5531-5678 | one popup paint in place is the specified step for the outcome the renderer really gives |
| `Popup.PopupWindow.Settle` | apps/buffr-app/src/main.rs:5648-5677 | only a submitted frame retires the dirty bar and the stale flag; a skipped one arms the retry |
| `Popup.PopupWindow.OnTick` | apps/buffr-app/src/event_loop.rs:1984-1990 | a due retry is cleared and requests the redraw |
| `Popup.RunKeepsInv` | apps/buffr-app/src/main.rs:5531-5678 | over any run: a frame that skips pixels finds the scratch buffer on the GPU, no upload exceeds its buffer, consumed generations strictly increase, a stale GPU has a retry armed, a redraw requested or a failed last frame, and nothing is drawn below the bar |
| `Popup.CachedPopupRefinesReference` | apps/buffr-app/src/main.rs:5531-5678 | over any run of paints, resizes and Yes/No/Err outcomes the cached window shows what a window that uploads everything every frame shows |
| `Popup.EveryRunShowsTheReference` | apps/buffr-app/src/main.rs:5531-5678 | and so from the popup's creation on, together with sound skipping, single consumption and an owed repaint |
| `Popup.SubmittedShowsScratch` | apps/buffr-app/src/main.rs:5588-5635 | a submitted frame leaves the scratch buffer on the GPU whether or not pixels travelled |
| `Popup.PaintConsumesIff` | apps/buffr-app/src/main.rs:5555-5577 | a paint takes the shared frame exactly if no resize waits for a fresh one, it is whole and of the size asked for, and it was not the last one taken; otherwise nothing of it |
| `Popup.ResizedPopupTakesOldFrameIff` | crates/buffr-cef/src/host.rs:767-781 | a popup's resize does not ask for a fresh paint: whatever resizes come, an old frame is taken exactly if it fits the view they end at |
| `Popup.CefPaintIsShown` | crates/buffr-cef/src/osr.rs:206-299 | what CEF paints at the view's size asks for a redraw and is on the GPU once that is submitted; a paint with a non-positive side changes nothing |
| `Popup.SkippedFrameIsRetried` | apps/buffr-app/src/main.rs:5671-5677 | a skipped frame, and no other, is retried, by the first tick 8 ms on |
| `Popup.DirtyBarReachesGpu` | apps/buffr-app/src/main.rs:5648-5677 | a pending bar change is retired exactly by a submitted frame, which shows it |
| `Popup.SubmittedBarCell` | apps/buffr-app/src/main.rs:5593-5605 | cell by cell: the bar in the first 30 rows, nothing below |
| `Popup.ChangedBarIsShown` | apps/buffr-app/src/main.rs:5648-5663 | a changed address and a resize are shown by their submitted frame, and stay owed otherwise |
| `Popup.CleanBarStaysUpToDateIff` | apps/buffr-app/src/main.rs:5579-5581 | a clean bar stays right exactly unless a frame is submitted at another logical size |
| `MainWindow.Window.AcquireFrame` | apps/buffr-app/src/main.rs:3668-3704 | the swap takes the frame exactly when the gate accepts it and reports what it consumed |
| `MainWindow.Window.BuildUpload` | apps/buffr-app/src/main.rs:3903-4011 | each of the four paths uploads the right buffer, size and generation, and skips pixels only on a re-send with the stale flag down |
| `MainWindow.Window.BuildCommand` | apps/buffr-app/src/main.rs:3863-3873 | the rows that travel are the two bands unless something is or was painted between them |
| `MainWindow.Window.Settle` | apps/buffr-app/src/main.rs:4023-4132 | which bookkeeping a submitted, skipped or failed frame may change |
| `MainWindow.Window.PaintBodyInPlace` | apps/buffr-app/src/main.rs:3618-4164 | swap, short-circuit, frame and settling in place are the specified paint body |
| `MainWindow.Window.PaintChromeWith` | apps/buffr-app/src/main.rs:3555-3617 | a whole paint in place, with probe, guard, re-arming and the renderer's own answers, is the specified paint |
| `MainWindow.Window.OnResized` | apps/buffr-app/src/event_loop.rs:618-624 | a resize marks the chrome dirty, flags the drift and paints at once |
| `MainWindow.Window.OnTabSwitch` | apps/buffr-app/src/main.rs:4301-4315 | the watermark is seeded with the active engine's current generation |
| `MainWindow.Window.OsrResize` | crates/buffr-cef/src/host.rs:1071-1088 | the engine's frame no longer counts and another size is expected |
| `MainWindow.Window.ServeRetry` | apps/buffr-app/src/event_loop.rs:2026-2029 | a due retry is cleared and requests the redraw |
| `MainWindow.BandUploadsRefineFullUploads` | apps/buffr-app/src/main.rs:3851-3873 | no ghost pixels: over any run, uploading the two bands leaves the very state that uploading every row would, and the rows between the bands are transparent unless `chrome_middle_on_gpu` says otherwise |
| `MainWindow.ChromeUploadIsFull` | apps/buffr-app/src/main.rs:3863-3873 | a dirty chrome arrives whole whatever bands its frame carries |
| `MainWindow.PendingChromeIsNeverLost` | apps/buffr-app/src/main.rs:4118-4132 | a pending chrome change is retired exactly by a submitted frame, which shows it; a skipped one arms a retry |
| `MainWindow.OverlayIsShown` | apps/buffr-app/src/main.rs:3863-3888 | an open overlay is on the texture, cell by cell and over the page, once its frame is submitted |
| `MainWindow.PageShowsThrough` | apps/buffr-app/src/chrome_paint.rs:189-215 | with neither overlay nor animation the strips are shown in the first 62 and the last 30 rows and all between is transparent |
| `MainWindow.SplashCoversPage` | apps/buffr-app/src/main.rs:3904-3930 | while the animation is wanted its picture covers exactly the page's rows, in windows of any height |
| `MainWindow.ChangedChromeIsShown` | apps/buffr-app/src/main.rs:4118-4123 | a changed chrome asks for a redraw, which shows it when submitted and owes it otherwise |
| `MainWindow.ResizeRepaintsChrome` | apps/buffr-app/src/event_loop.rs:618-624 | the frame of a resize repaints the chrome at the new size, asleep or not, or leaves it owed |
| `MainWindow.PaintDrawsIff` | apps/buffr-app/src/main.rs:3759-3781 | exactly when a paint reaches the renderer, and when the loading animation runs |
| `MainWindow.CleanChromeStaysUpToDateIff` | apps/buffr-app/src/main.rs:3733 | equal generations mean up to date exactly unless a clean frame is submitted at another logical size |
| `MainWindow.SplashLeavesIff` | apps/buffr-app/src/main.rs:3775-3807 | once the loading animation is not wanted, its last picture leaves the chrome texture exactly with a submitted frame on which the chrome is dirty or the animation was still on |
| `MainWindow.ChromeStaysAtRest` | apps/buffr-app/src/main.rs:3775-3807 | with clean chrome and no animation, no number of page frames changes what the chrome texture shows |
| `MainWindow.SkippedEndKeepsSplash` | apps/buffr-app/src/main.rs:3787-3807 | so when the frame that ends the animation is skipped, its picture stays over the page through any such run |
| `MainWindow.StripsShowThrough` | apps/buffr-app/src/chrome_paint.rs:189-215 | every row outside the page region lies in a band, so masking never loses a strip |
| `MainWindow.PaintPage` | apps/buffr-app/src/main.rs:3904-4117 | one paint keeps the texture behind the watermark, and keeps skipping sound exactly unless the animation arm took a fresh frame with the stale flag down |
| `MainWindow.EachGenerationConsumedOnce` | apps/buffr-app/src/main.rs:3644-3704 | with one engine, across tab switches and all paths and outcomes, no generation is swapped out twice, consumed generations increase, and every upload fits its buffer |
| `MainWindow.PaintConsumesIff` | apps/buffr-app/src/main.rs:3668-3704 | what a paint takes: the active engine's frame, exactly if the guard admits the paint, no resize waits for a fresh one, it is whole, of the size asked for, and not the last one taken; and the buffer handed back |
| `MainWindow.ResizeWaitsForPaint` | crates/buffr-cef/src/host.rs:1076-1086 | after a resize nothing is taken until the engine paints again, even if the view returns to the size of the frame lying there |
| `MainWindow.PaintedFrameIsShown` | apps/buffr-app/src/main.rs:3951-3962 | from a resize over the engine's paint to the texture |
| `MainWindow.SkippedFrameIsRetried` | apps/buffr-app/src/event_loop.rs:2026-2029 | a skipped frame is retried by the first tick 8 ms on, and by none before |
| `MainWindow.SkippedPixelsAreOnTheGpu` | apps/buffr-app/src/main.rs:3963-3998 | over any run in which no paint leaks, a frame that skips pixels finds exactly the scratch buffer on the GPU |
| `MainWindow.ResizeLeaksFreshFrame` | apps/buffr-app/src/main.rs:3904-3940 | a resize that meets a fresh frame always leaks it |
| `MainWindow.LeakedFrameStaysHidden` | apps/buffr-app/src/main.rs:4112-4117 | a leaked frame stays off the screen through any number of successful repaints |
| `MainWindow.SkippedPageFrameIsStranded` | apps/buffr-app/src/main.rs:3775-3781 | a page frame skipped while the chrome is clean arms its retry in vain, however often it is served |
| `MainWindow.StrandedStaysStranded` | apps/buffr-app/src/main.rs:3775-3781 | no redraw, signal or tick at an unchanged layout gets out of that state |
| `MainWindow.RetryReachesGpuIff` | apps/buffr-app/src/main.rs:3775-3781 | a retry carries the skipped page exactly if the chrome is dirty or the animation has just ended |
| `MainWindow.TabSwitchShowsOnlyNewer` | apps/buffr-app/src/main.rs:4301-4315 | after a tab switch only generations newer than the seed are consumed, and no page is sent before the first of them |
| `MainWindow.KeySwitchKeepsOldPicture` | apps/buffr-app/src/main.rs:2649-2659 | after a keyboard switch or close the old tab's picture, shown or not yet shown, stays up through any run in which the new tab has not painted |
| `MainWindow.OldPictureGivesWayIff` | apps/buffr-app/src/main.rs:3668-3704 | it gives way exactly in a paint past the sleep guard whose gate accepts a frame newer than the switch |
| `MainWindow.EngineSwitchReconsumesIff` | apps/buffr-app/src/main.rs:2566 | after a switch of engines an old generation is accepted again exactly when the watermark differs and the buffer handed back fits |
| `MainWindow.EngineSwitchCanReconsume` | apps/buffr-app/src/main.rs:2771 | such a state exists |
| `MainWindow.FreshFrameIsShownIff` | apps/buffr-app/src/render.rs:254-275 | a submitted fresh frame is on the texture exactly unless the worker's dedupe takes it for another engine's |
| `MainWindow.RunKeepsSleep` | apps/buffr-app/src/main.rs:3598-3617 | driven by the window's own paints, frames submitted while asleep without drift are at most one per probe |
| `MainWindow.SignalsDriveSleep` | apps/buffr-app/src/event_loop.rs:660-739 | the window's signals and waits are the sleep machine's |
| `MainWindow.DriftIsRepainted` | apps/buffr-app/src/main.rs:4134-4161 | a surface that moved on during the frame is painted again, and the flag falls with the first frame that fits |
| `MainWindow.EveryRunFromTheStart` | apps/buffr-app/src/main.rs:3555-4164 | all of these from the window's start on |
| `MainWindow.WiredRunsAreRuns` | apps/buffr-app/src/render.rs:1165-1419 | every run wired to the renderer's real answers is one of the runs above, with at most one frame in flight |
| `MainWindow.WiredPaintIsPresents` | apps/buffr-app/src/main.rs:3582-3617 | a wired paint moves sleep policy and worker as the module `Presents` says |
| `Occlusion.RecordPresentUs` | apps/buffr-app/src/paint_policy.rs:120-125 | the rolling history is the last five samples |
| `Occlusion.SleepMachine.ObservePresentUs` | apps/buffr-app/src/main.rs:2413-2458 | one sample in place: history, belief, probe and policy |
| `Occlusion.SleepMachine.RecomputePaintPolicy` | apps/buffr-app/src/main.rs:2470-2501 | the policy follows the belief, and waking requests a redraw |
| `Occlusion.SleepMachine.BeginPaint` | apps/buffr-app/src/main.rs:3582-3617 | the probe flag is consumed once and the guard admits only an active, drifted or probing paint |
| `Occlusion.SleepMachine.EndPaint` | apps/buffr-app/src/main.rs:3563-3569 | a probe that never reached the GPU is re-armed |
| `Occlusion.SleepMachine.FinishDraw` | apps/buffr-app/src/main.rs:4124-4161 | the number the renderer returned is sampled only with a submitted frame, and the drift flag is set from the live size |
| `Occlusion.SleepMachine.OnOccluded` | apps/buffr-app/src/event_loop.rs:705-739 | hiding arms the debounce, revealing wakes at once |
| `Occlusion.SleepMachine.OnFocused` | apps/buffr-app/src/event_loop.rs:660-686 | focus wakes an occluded window |
| `Occlusion.SleepMachine.OnAboutToWait` | apps/buffr-app/src/event_loop.rs:1351-1439 | debounce expiry, policy and due probe, in that order |
| `Occlusion.RunSleepKeepsInv` | apps/buffr-app/src/main.rs:2413-2501 | at every event boundary: asleep if and only if believed occluded, no probe armed while active, a probe armed or under way in every heuristic sleep, probes at least an interval apart, and the history is the last five samples since the last clear |
| `Occlusion.ObserveSleepsIff` | apps/buffr-app/src/paint_policy.rs:132-138 | the heuristic sleeps on a sample exactly when it alone, or three of the last five, are too slow |
| `Occlusion.HistoryIsNewest` | apps/buffr-app/src/paint_policy.rs:120-125 | the history is the newest five samples, in order, since the window was last believed visible |
| `Occlusion.ObserveWakesIff` | apps/buffr-app/src/main.rs:2416-2434 | asleep, exactly a fast sample wakes, and any other keeps a probe coming |
| `Occlusion.SkippedFramesAreNoEvidence` | apps/buffr-app/src/main.rs:4083-4126 | any number of skipped or failed frames changes neither history nor belief |
| `Occlusion.HeuristicSleepIsProbed` | apps/buffr-app/src/event_loop.rs:1421-1439 | from any heuristic sleep, whatever became of the probe under way, the next is pending within the interval |
| `Occlusion.DebounceDecidesIff` | apps/buffr-app/src/event_loop.rs:1351-1372 | left alone an active window sleeps exactly when a pending debounce runs out, and then without a probe |
| `Occlusion.FocusKeepsAwakeIff` | apps/buffr-app/src/event_loop.rs:660-686 | a focus wakes the window, and left alone it stays awake exactly until the debounce deadline that was pending before the focus |
| `Occlusion.RevealWakes` | apps/buffr-app/src/event_loop.rs:725-738 | a reveal wakes at once, with no debounce, probe or history left, and left alone the window stays awake |
| `Occlusion.HideSleepsIff` | apps/buffr-app/src/event_loop.rs:720-724 | a hide sleeps an active window exactly once 200 ms have passed without another signal |
| `Occlusion.QuickRevealForgetsHide` | apps/buffr-app/src/event_loop.rs:720-738 | a reveal within them leaves the window as if it had never been hidden |
| `Occlusion.ResizeGetsThrough` | apps/buffr-app/src/main.rs:3598-3617 | a sleeping window lets a resize's frame through without spending a probe, and a plain redraw's not |
| `Presents.EveryRunKeepsInv` | apps/buffr-app/src/main.rs:3582-3617 | from the start, with a real worker: the policy is the belief, frames past the sleep guard are at most one per probe, and one frame at most is unpresented |
| `Presents.ProbeWakesIff` | apps/buffr-app/src/main.rs:4083-4126 | a probe's paint wakes exactly on a fast report of an earlier frame, or by submitting while the previous frame's submit time was fast; never on its own present, which is still unreported |
| `Presents.LateReportIsNotJudged` | apps/buffr-app/src/render.rs:1178-1180 | a report between a paint's own poll and the renderer's lets the frame through, but its present time is never judged |
| `Presents.ResizeReachesWorker` | apps/buffr-app/src/main.rs:3598-3617 | a resize reaches an idle worker from any sleep |
| `Presents.HangingPresentFreezesBelief` | apps/buffr-app/src/render.rs:1193-1204 | while a submitted frame's present hangs, no number of paints and waits changes the belief |
| `Presents.SlowPresentFastSubmitWakesBlindly` | apps/buffr-app/src/main.rs:4091-4101 | from any sleep over a slow present with a fast submit, the next probe wakes the window whatever becomes of it, for as long as it hangs |
| `Presents.HeuristicSleepRecovers` | apps/buffr-app/src/event_loop.rs:1421-1439 | with the worker idle and no compositor signal, two probe intervals and a fast report of the first probe's frame end every heuristic sleep |
| `Heartbeat.Link.TickHeartbeat` | apps/buffr-app/src/main.rs:5997-6003 | a UI tick marks, and lets go of the handle only after a fatal write |
| `Heartbeat.Link.CheckAndPing` | apps/buffr-app/src/heartbeat.rs:200-252 | one wake-up: withhold when stale, recover, ping, retry or leave |
| `Heartbeat.Link.RunHeartbeatLoop` | apps/buffr-app/src/heartbeat.rs:184-255 | the loop with the UI's ticks in its sleeps is the specified run, and returns only on a broken write |
| `Heartbeat.RunKeepsFlags` | apps/buffr-app/src/heartbeat.rs:197-254 | `thread_alive` is `!stalled` until the fatal exit, the fatal flag rises only with it, and the handle goes only after it |
| `Heartbeat.StallIsNeverFatal` | apps/buffr-app/src/heartbeat.rs:205-223 | without a broken write no stall closes the stream, raises the fatal flag or costs the handle |
| `Heartbeat.HandleGoesIff` | apps/buffr-app/src/heartbeat.rs:248-251 | over any run the loop is gone exactly if a wake-up that was not stale found the socket broken, and the handle exactly if the UI has also ticked since |
| `Heartbeat.FatalIsFinal` | apps/buffr-app/src/heartbeat.rs:248-251 | after it nothing is written, both flags say so, and the next UI tick lets go of the handle |
| `Heartbeat.WakeUpIff` | apps/buffr-app/src/heartbeat.rs:197-250 | a wake-up pings exactly if the UI is not overdue and the write goes through, and its flags say whether it was |
| `Heartbeat.TickMarks` | apps/buffr-app/src/main.rs:5997-6003 | a UI tick stamps whole microseconds while the handle is held and touches nothing of the loop's |
| `Heartbeat.HangSilencesPings` | apps/buffr-app/src/heartbeat.rs:200-223 | after the last mark no ping is written later than the liveness timeout |
| `Heartbeat.HangIsDetected` | apps/buffr-app/src/heartbeat.rs:46-49 | so a hang always runs out the supervisor's deadline |
| `Heartbeat.RecoveryPings` | apps/buffr-app/src/heartbeat.rs:224-235 | from any state that is not fatal one UI tick and one timely wake-up write a ping |
| `Heartbeat.NoFalseKill` | apps/buffr-app/src/heartbeat.rs:43-49 | if marks are no further apart than timeout plus deadline less two periods and the rounding of the stamp on the loop's grid, the supervisor never waits its deadline out, at any instant of any run |
| `Heartbeat.ExactWakeUpsTolerate` | apps/buffr-app/src/heartbeat.rs:43-49 | for wake-ups exactly a whole-microsecond interval apart the rounding vanishes: timeout plus deadline less two intervals is safe |
| `Heartbeat.ProductionTolerance` | apps/buffr-app/src/heartbeat.rs:43-49 | the shipped constants against an 8 s deadline: 11 s between marks at exactly 1 Hz, 13 s less two periods and 999 ns under jitter |
| `Heartbeat.JitterBoundIsExact` | apps/buffr-app/src/heartbeat.rs:141-146 | under jitter one nanosecond more is unsafe, for every configuration whose wake-ups can fill the deadline less two periods |
| `Heartbeat.ExactBoundIsExact` | apps/buffr-app/src/heartbeat.rs:141-146 | and so is the round figure for exact whole-microsecond wake-ups that divide the deadline |
| `Heartbeat.ProductionBoundIsExact` | apps/buffr-app/src/heartbeat.rs:43-49 | at 1 Hz against 8 s, one nanosecond past 11 s can be killed |
| `CrashGuard.Store.WriteJsonAtomic` | apps/buffr-app/src/atomic_write.rs:17-36 | directory, temporary file, mode, rename: what each stop leaves on disk |
| `CrashGuard.Store.RecordStartAt` | apps/buffr-app/src/crash_guard.rs:64-86 | trim, push, decide in memory, then write; a failed write does not change the verdict |
| `CrashGuard.Store.RecordCleanExit` | apps/buffr-app/src/crash_guard.rs:56-60 | a clean exit writes an empty log |
| `CrashGuard.InterruptedWritesLeaveNoTrace` | apps/buffr-app/src/atomic_write.rs:12-16 | over any history, writes that failed or crashed at any step leave the log as if they had not begun, and it stays whole and owner-only |
| `CrashGuard.LogHoldsSurvivors` | apps/buffr-app/src/crash_guard.rs:64-72 | under any clock the log is the persisted starts since the last persisted clean exit that no later one outlived by more than the window |
| `CrashGuard.DetectionIff` | apps/buffr-app/src/crash_guard.rs:64-69 | a loop is reported exactly when three starts, this one counted, survive |
| `CrashGuard.WindowDetectionIff` | apps/buffr-app/src/crash_guard.rs:45-50 | with a clock that does not step back: exactly when this is at least the third persisted start of the last 60 s since the last clean exit |
| `CrashGuard.WindowIsCountedIff` | apps/buffr-app/src/crash_guard.rs:64-69 | under any clock, what is counted is the documented window exactly when no start in it was trimmed by a later one further ahead, and never more, so there is no false alarm |
| `CrashGuard.ClockStepBackHidesLoop` | apps/buffr-app/src/crash_guard.rs:66-67 | a clock that steps back hides a loop, for any such times |
| `Gestures.SwipeDetector.FeedScroll` | apps/buffr-app/src/main.rs:1533-1574 | one delta in place |
| `Gestures.SwipeDetector.DetectSwipe` | apps/buffr-app/src/main.rs:3484-3500 | another surface resets; and the event is swallowed exactly when its gesture has crossed the threshold |
| `Gestures.AccumulatorIsLastGesture` | apps/buffr-app/src/main.rs:1533-1574 | the accumulators are the sums over the maximal run of events on one surface at most 200 ms apart |
| `Gestures.GestureStartUnique` | apps/buffr-app/src/main.rs:3491-3498 | that run is the only one of its kind |
| `Gestures.CommitIff` | apps/buffr-app/src/main.rs:1552-1571 | a swipe fires exactly on the event that first takes its own gesture past the threshold, in the direction of the sum |
| `Gestures.CrossesIff` | apps/buffr-app/src/main.rs:1552-1558 | the threshold: at least 150 sideways and by more than twice the vertical sum |
| `Gestures.OneSwipePerGesture` | apps/buffr-app/src/main.rs:1523-1526 | between two swipes the fingers rested or changed surface |
| `Gestures.WheelMomentum.TickWheelMomentum` | apps/buffr-app/src/main.rs:3506-3540 | one momentum frame in place |
| `Gestures.CoastFollowsIdeal` | apps/buffr-app/src/main.rs:3506-3531 | under ticks at any times only those past the grace window count; over them each axis is its ideal exponential decay until below 8 and 0 after, and the machine disarms in the first frame in which both are |
| `Gestures.MomentumStops` | apps/buffr-app/src/main.rs:3516-3531 | momentum has stopped once 0.64 times the decay frames exceeds the larger velocity less 8 |
| `Gestures.MomentumScrollBounded` | apps/buffr-app/src/main.rs:3526-3539 | whenever it is ticked, it adds at most 11.5 times the starting velocity on each axis, in its direction |
| `Gestures.LastScrollDecides` | apps/buffr-app/src/event_loop.rs:1235-1244 | high-resolution input starts momentum from its own deltas 30 ms on, a discrete wheel silences it for good |
| `Tabs.TabState.SetActiveIndex` | crates/buffr-cef/src/host.rs:1402-1437 | hide the previous, show the new |
| `Tabs.TabState.CloseAt` | crates/buffr-cef/src/host.rs:1650-1747 | close by slot, with the undo stack and the choice of the next active tab |
| `Tabs.TabState.CloseWithId` | crates/buffr-cef/src/host.rs:1637-1648 | close by id |
| `Tabs.TabState.OpenTabAt` | crates/buffr-cef/src/host.rs:1181-1229 | open at a slot, shifting the active slot |
| `Tabs.TabState.Reopen` | crates/buffr-cef/src/host.rs:1129-1173 | reopen at the old slot and re-partition |
| `Tabs.TabState.Drag` | crates/buffr-cef/src/host.rs:1752-1792 | move within the tab's own region |
| `Tabs.TabState.EnforceOrdering` | crates/buffr-cef/src/host.rs:1842-1869 | re-partition and re-resolve the active slot by id |
| `Tabs.TabState.CloseActiveTabOrExit` | apps/buffr-app/src/main.rs:2832-2860 | closing a pinned active tab only arms the confirmation |
| `Tabs.TabState.ResolvePinnedClose` | apps/buffr-app/src/main.rs:2864-2885 | the answer closes the recorded id or nothing |
| `Tabs.TabState.MenuTabClose` | apps/buffr-app/src/context_menu.rs:640-663 | the menu's close acts on the tab's id at its current slot, and asks for a pinned one |
| `Tabs.TabState.MenuTabCloseOthers` | apps/buffr-app/src/context_menu.rs:664-690 | snapshot, close each, select the kept tab |
| `Tabs.TabState.MenuTabCloseToRight` | apps/buffr-app/src/context_menu.rs:691-716 | snapshot of the slots behind the tab's current one, close each |
| `Tabs.TabState.MiddleClickOn` | apps/buffr-app/src/event_loop.rs:1066-1095 | middle click on a slot of the drawn strip |
| `Tabs.CollectOthers` | apps/buffr-app/src/context_menu.rs:670-679 | the victims of close-others, in order |
| `Tabs.CollectRight` | apps/buffr-app/src/context_menu.rs:697-707 | the victims of close-to-the-right, in order |
| `Tabs.CloseKeeps` | crates/buffr-cef/src/host.rs:1729-1746 | a close removes exactly that tab, leaves exactly the active tab in the foreground, and activates the right neighbour or the new last tab |
| `Tabs.CloseKeepsFocusIff` | crates/buffr-cef/src/host.rs:1729-1746 | closing a background tab keeps the focus exactly for the tab that was to receive it |
| `Tabs.OpenAtKeeps` | crates/buffr-cef/src/host.rs:1181-1229 | a tab opened at a slot is the only one in the foreground and ids stay unique |
| `Tabs.OpenAtKeepsPinnedFirstIff` | apps/buffr-app/src/main.rs:2597-2601 | opening at a slot keeps pinned tabs leading exactly when the slot is behind all of them |
| `Tabs.PartitionStable` | crates/buffr-cef/src/host.rs:1842-1863 | the re-partition leads with pinned tabs and reorders neither group |
| `Tabs.EnforceKeeps` | crates/buffr-cef/src/host.rs:1842-1869 | and the focus follows its tab |
| `Tabs.ReopenRestores` | crates/buffr-cef/src/host.rs:1124-1173 | reopening restores the tab, pinned first, as the active one |
| `Tabs.ReopenForegroundIff` | crates/buffr-cef/src/host.rs:1145-1171 | it leaves only the restored tab in the foreground exactly when that goes back behind the active one |
| `Tabs.ReopenUndoesClose` | crates/buffr-cef/src/host.rs:1124-1173 | reopening undoes a close: the list is as it was and the closed tab has the focus |
| `Tabs.CycleThereAndBack` | crates/buffr-cef/src/host.rs:1607-1627 | next then previous, and previous then next, end where they began |
| `Tabs.CycleVisitsNeighbour` | crates/buffr-cef/src/host.rs:1607-1627 | stepping goes to the neighbouring slot, around the end |
| `Tabs.OpensAt` | crates/buffr-cef/src/host.rs:1181-1229 | an opened tab is in its slot with the page asked for, and nothing else has moved |
| `Tabs.OnlyPagesAreKept` | crates/buffr-cef/src/host.rs:1665-1712 | a blank tab is not kept for reopening |
| `Tabs.SelectShows` | crates/buffr-cef/src/host.rs:1440-1450 | selecting an id shows exactly that tab, or nothing happens |
| `Tabs.PinChangesOne` | crates/buffr-cef/src/host.rs:1810-1840 | pinning changes that tab's pin and no other, keeps the focus, and pinned tabs lead |
| `Tabs.DragLands` | crates/buffr-cef/src/host.rs:1749-1792 | a dragged tab lands in the nearest slot of its own band, the others in order |
| `Tabs.MoveKeeps` | crates/buffr-cef/src/host.rs:1749-1792 | a drag permutes the list, keeps pinned tabs leading and the focus on its tab |
| `Tabs.CloseOthersIsFilter` | apps/buffr-app/src/context_menu.rs:664-690 | close-others is the order-preserving filter of the list, with the focus on the clicked tab |
| `Tabs.CloseToRightIsFilter` | apps/buffr-app/src/context_menu.rs:691-716 | close-to-the-right keeps everything up to the clicked tab and the pinned tabs behind it, in order |
| `Tabs.RunKeeps` | crates/buffr-cef/src/host.rs:1402-1437 | in every reachable state ids are unique and the active slot exists, and exactly the active tab is in the foreground unless a reopen leaked one |
| `Tabs.ConfirmationIsKept` | apps/buffr-app/src/main.rs:2808-2822 | a confirmation that is up stays up for its tab until answered, and only closing that tab puts one up |
| `Tabs.PinnedLeavesIff` | apps/buffr-app/src/main.rs:2808-2885 | a pinned tab is gone after a step if and only if the user confirmed closing that very id, or a middle click met a stale slot |
| `Tabs.UnpinnedLeavesIff` | apps/buffr-app/src/context_menu.rs:640-716 | an unpinned tab is gone after a step exactly if a close took it: its own, a bulk close covering it, a middle click on it, or a late confirmation |
| `Tabs.AsksIff` | apps/buffr-app/src/main.rs:2808-2860 | a confirmation goes up exactly for a pinned tab the keyboard, the menu or a middle click would have closed |
| `Tabs.MenuEdits` | apps/buffr-app/src/context_menu.rs:600-629 | the menu's pin flips that tab's pin, its duplicate opens the same page right behind it |
| `Tabs.StripIsRedrawn` | apps/buffr-app/src/context_menu.rs:640-716 | menu, mouse and confirmation leave the strip drawn as the list is, keyboard and engine as it was drawn |
| `Tabs.SyncedMiddleClickAsks` | apps/buffr-app/src/event_loop.rs:1069-1086 | while the drawn strip is current a middle click on a pinned tab asks first |
| `Tabs.StaleMiddleClickClosesPinned` | apps/buffr-app/src/event_loop.rs:1069-1089 | a run of duplicate, close and middle click that closes a pinned tab unasked |
| `Tabs.PinnedSurvives` | apps/buffr-app/src/main.rs:2808-2885 | over any run a pinned tab nobody confirmed or unpinned is still there and pinned |
| `Tabs.StepKeepsPinnedFirstIff` | apps/buffr-app/src/context_menu.rs:600-617 | every step keeps pinned tabs leading except opening or duplicating into their band |
| `ContextMenu.ActiveContextMenu.constructor` | apps/buffr-app/src/context_menu.rs:99-114 | the first item that is not a separator is selected |
| `ContextMenu.ActiveContextMenu.SelectPrev` | apps/buffr-app/src/context_menu.rs:132-146 | the selection moves to the nearest such item above, or stays |
| `ContextMenu.ActiveContextMenu.SelectNext` | apps/buffr-app/src/context_menu.rs:148-162 | and below |
| `ContextMenu.MovesAreInverse` | apps/buffr-app/src/context_menu.rs:132-162 | a move one way and back returns to the same row |
| `Permissions.PromptState.SyncPermissionsPrompt` | apps/buffr-app/src/main.rs:5273-5318 | one sync in place; without a reported change nothing on screen moved |
| `Permissions.PromptState.ResolvePermission` | apps/buffr-app/src/main.rs:5346-5409 | one answer in place, applied or discarded |
| `Permissions.PromptState.StoreDecisions` | apps/buffr-app/src/main.rs:5380-5400 | the store loop over the capabilities |
| `Permissions.PromptState.DrainEngine` | apps/buffr-app/src/main.rs:1086-1093 | shutdown of one engine: callbacks deferred, then the queue drained |
| `Permissions.SyncShowsFront` | apps/buffr-app/src/main.rs:5273-5318 | after a sync exactly the front of the active queue is on screen, and prompt and identity come and go together |
| `Permissions.StaleAnswerIsDiscarded` | apps/buffr-app/src/main.rs:5338-5376 | an answer to a withdrawn request changes neither store nor queue and reaches no backend |
| `Permissions.AnswerAppliesOnce` | crates/buffr-engine/src/permissions.rs:198-212 | an answer that lands takes one entry off one queue and fires its callback if still held |
| `Permissions.AnswerReachesCallback` | crates/buffr-cef/src/host.rs:3593-3614 | the answered request's callback gets exactly the user's outcome, once, and is let go, unless it was withdrawn or deferred before |
| `Permissions.AnswerShowsNext` | apps/buffr-app/src/main.rs:5401-5409 | an answer takes its prompt down and puts up what the queue then begins with |
| `Permissions.ArrivalWaitsItsTurn` | crates/buffr-cef/src/permissions.rs:350-357 | an arrival waits behind those queued and is shown at once only in an empty queue |
| `Permissions.WithdrawalClearsItsPrompt` | apps/buffr-app/src/main.rs:5286-5300 | a withdrawn request leaves the prompt if it is up, and leaves any other alone |
| `Permissions.SwitchShowsItsQueue` | apps/buffr-app/src/main.rs:5273-5318 | another engine's front is shown once it is the active one |
| `Permissions.RememberedIs` | apps/buffr-app/src/main.rs:5378-5400 | the store changes exactly for that origin and those capabilities, and only when asked to remember |
| `Permissions.AnswerIsForWhatWasRead` | crates/buffr-cef/src/permissions.rs:57-64 | ids come from one counter, so an answer that lands is for the very request that was read, whatever engine is active by then |
| `Permissions.ShutdownSettlesAll` | crates/buffr-cef/src/permissions.rs:366-377 | after shutdown every tracked request was fired exactly once, with its answer or deferred, or withdrawn and never fired |
| `Permissions.ShutdownLeavesNothing` | apps/buffr-app/src/main.rs:1086-1093 | and so in every engine |
| `Permissions.WithdrawnNeverFires` | crates/buffr-cef/src/handlers.rs:1614-1655 | a withdrawn callback is never fired, whatever follows |
| `Permissions.RunRecords` | apps/buffr-app/src/main.rs:5334-5409 | over any interleaving of arrivals, withdrawals, engine switches, syncs, answers and shutdown the record stays faithful and the store is its replay |
| `Permissions.EveryRunRecords` | apps/buffr-app/src/main.rs:5334-5409 | from the start: every applied answer was for what was read, the store is exactly those answers, no id is shared, and every request settles right: answered and fired at most once, fired with its answer or deferred, never after a withdrawal, and lost nowhere on its way |
| `EditFocus.EditPlumbing.DrainEditFocusEvents` | apps/buffr-app/src/main.rs:4835-4958 | one drain in place |
| `EditFocus.EditPlumbing.ExpirePendingBlur` | apps/buffr-app/src/main.rs:4964-4987 | one expiry in place |
| `EditFocus.EditPlumbing.HandleEsc` | apps/buffr-app/src/main.rs:5090-5135 | escape leaves the field, or Insert when there is none |
| `EditFocus.DrainIgnoresOthers` | apps/buffr-app/src/main.rs:4837-4855 | draining any queue does what draining the active browser's own events does |
| `EditFocus.FocusAfterDrain` | apps/buffr-app/src/main.rs:4857-4930 | only the last focus and the blurs behind it decide what has the focus |
| `EditFocus.NewFocusEntersInsert` | apps/buffr-app/src/main.rs:4889-4908 | whatever a drain puts the focus on, it enters Insert for, attaches to and remembers, calling off a waiting blur |
| `EditFocus.DrainCopiesSelections` | apps/buffr-app/src/main.rs:4941-4953 | exactly the active browser's selections reach the clipboard, in order, empty ones left out |
| `EditFocus.RunKeeps` | apps/buffr-app/src/main.rs:4880-4930 | in every reachable state a pending blur means nothing is focused |
| `EditFocus.ExpiryLeavesInsertIff` | apps/buffr-app/src/main.rs:4964-4987 | expiry leaves Insert exactly when the window is over, and never takes it from a focused field |
| `EditFocus.TransferStaysInInsert` | apps/buffr-app/src/main.rs:4921-4930 | a transfer between fields inside the window never leaves Insert, nor does any later tick |
| `EditFocus.BlurLeavesInsertIff` | apps/buffr-app/src/main.rs:4960-4987 | a blur with no focus behind it leaves Insert exactly at the first tick 250 ms on |
| `EditFocus.UntouchedFocusStays` | apps/buffr-app/src/main.rs:4835-4855 | a field keeps the keyboard through any run, tab switches included, until an event of the browser then active, escape or the exit action touches it |
| `EditFocus.FocusOutlivesTabSwitch` | apps/buffr-app/src/main.rs:4847-4855 | after a switch to another browser's tab nothing the old page raises is heard, its field's own blur included |
| `EditFocus.BlurIsHeardIff` | apps/buffr-app/src/main.rs:4843-4855 | a field's blur raised after a switch is heard exactly if the switch led to its own browser |
| `EditFocus.EscapeLeaves` | apps/buffr-app/src/main.rs:5090-5135 | escape lets go of the field and of Insert, to Normal from a field, to where Insert was entered from without one, and changes nothing else |
| `EditFocus.ExitLeaves` | apps/buffr-app/src/main.rs:2705-2716 | the exit action ends with nothing focused in Normal |
| `EditFocus.IdleEventsChangeNothing` | apps/buffr-app/src/main.rs:4857-4953 | repeated focus, stray blur, mutation and empty selection change nothing, in any number |
| `Pixels.NewPanel` | apps/buffr-app/src/chrome_paint.rs:98-116 | no step of the layout leaves 32 bits, the panel stays inside any window, respects floor and ceiling, and is centred to the pixel |
| `Pixels.FillRect` | apps/buffr-app/src/chrome_paint.rs:164-187 | exactly the cells of rectangle and buffer in rows that fit whole are written |
| `Pixels.FillIsClipped` | apps/buffr-app/src/chrome_paint.rs:164-187 | by rows and columns: inside the rectangle, the first rows and a whole row, or left alone |
| `Pixels.RowAdvances` | apps/buffr-app/src/chrome_paint.rs:179-186 | one row's slice is exactly that row's part of the rectangle |
| `Pixels.InnerIsInsideRing` | apps/buffr-app/src/chrome_paint.rs:106-115 | the content box is the panel less a two-pixel ring, for any size of panel |
| `Pixels.PaintPanel` | apps/buffr-app/src/chrome_paint.rs:222-253 | border fill then content fill leave exactly that ring, the content, and everything else as it was |

## Left out

- CEF, WPE, wgpu, Wayland, sockets and SQLite: each is an adversarial step (a frame, an outcome, an event, a write result) with the assumptions below.
- Assumed of the GPU side: the worker executes submitted commands one at a time and in order; a new texture is transparent; the renderer is there whenever the window is.
- Assumed of engines in `main_window.dfy`: an engine may replace its frame at any time but never lowers its generation. Generations are unbounded; the 64-bit wrap-around is not modelled.
- `MainWindow.Window.OsrResize`: CEF's resize, in one step; WebKit's, which raises the flag from its worker later, is not modelled.
- The main window's shared frames are map values updated in one step each, not objects behind a mutex; the popup's frame is an object, `Osr.SharedFrame`.
- The worker of `gpu.dfy` reports each frame once and in order; which report arrives when, and every answer of the compositor, is adversarial. A worker thread that exits, and a full command channel, are the outcome of a refused texture.
- `MainWindow.Window.PaintChromeWith` takes scale and geometry as inputs: the f32 conversions between logical and physical sizes are not modelled.
- The resize debounce, the resize watchdog, the smoke-test exit, native compositing beyond its flag, and glyphs, labels, colours and favicons.
- Engine sleep bits: what `osr_sleep` tells the engines is not tracked, only the window's own policy.
- Audio and media activity: they feed `media_active`, which the policy does not consult.
- `Heartbeat.Link.RunHeartbeatLoop`: the loop's read of the mark and of the clock are one step, a UI tick's mark and check are one step, and the endless loop is any finite run of wake-ups.
- `CrashGuard.Store.WriteJsonAtomic`: a completed step is durable in order; JSON itself is abstracted to a log that parses or one that does not. `quarantine_session` is left out.
- Floats: swipe and momentum use real arithmetic, so rounding of f32 sums and products is not modelled; velocities come from 32-bit deltas, so the integer cast never saturates.
- `Gestures.CoastFollowsIdeal`: is about ticks between two inputs; an input in between starts over from its own velocity.
- Tabs: one engine's list. Cross-engine hand-off, the `cancel_closes_tab` omnibar close, session restore, the exit after the last tab, and closes by the page itself are left out; `shown` follows the tab operations only, not sleep.
- `Tabs.PinnedLeavesIff`: counts a middle click on a stale strip among the ways a pinned tab can leave, because the code does.
- Permissions: CEF's ids only, its counter unbounded; WebKit's worker counts for itself, in another format, and no binary of the workspace builds it. The store does not fail, and the second, identical write by CEF's own resolve is not counted. The prompt's "more pending" number is not modelled.
- Edit focus: hint mode, Tab cycling, clipboard paste and the key translation itself; other sources of mode changes are one adversarial event.
- `Pixels.NewPanel`: requires that the content height leaves room for the border in 32 bits, which every caller's does.
- Command-line parsing, configuration, `cef_translate.rs` tables, `engine_router.rs`, `loading_anim.rs` beyond the picture it paints, and `xtask`: tables and parsers whose functions are read off their bodies, with no state of their own for a property to span.
