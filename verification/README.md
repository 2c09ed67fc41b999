# Clippr highlight engine — a Dafny model

This project models the part of Clippr (ViralityClip) that turns a video into
short "highlight" clips, and proves properties of that model.

- **Highlight-window engine** (`analyzer.ts`):
  - decodes the silence detector's log into speech sections, and the scene
    detector's log into scene-change times;
  - slides 50 %-overlapping windows across each speech section;
  - scores each window by speech coverage plus 2.5 per scene change;
  - keeps a small, low-overlap, best-first selection.
- **Materialisation** (`videoProcessor.ts`, `tempManager.ts`): stream-copies
  each window into a temporary clip, builds the concat manifest, and cleans up
  the registered temporary files.
- **Pipeline effect** (`ProcessingScreen.tsx`): clamps the open-ended tail
  section to the probed duration, then runs the stages in order.
- **Transcript and clip services** (`WhisperService.js`,
  `VideoProcessingService.js`):
  - key phrases, tone, engagement and speech intensity;
  - the weighted highlight threshold;
  - duration normalisation into 15–60 s;
  - thumbnails, the best-clip filter, and the service's progress and
    cancel state.
- **Screen helpers** (`VideoSelectScreen.js`, `ClipPreviewScreen.js`,
  `VideoProcessingScreen.js`, `HomeScreen.js`, `ExportScreen.js`): file
  validation, recent-file shelves, clock formatting, score bands, step icons
  and status, export file naming, and the export loop.

Seconds and scores are `real`. Everything outside the program becomes a
function parameter (an oracle):

- the ffmpeg runs;
- file existence;
- `uuid.v4()`, `Date.now()` and `toISOString()`;
- the probed duration.

Module layout, one file per source file:

- `analyzer.dfy`, `video_processor.dfy`, `temp_manager.dfy` and `processing_screen.dfy`;
- `whisper_service.dfy` and `video_processing_service.dfy`;
- one file per screen.

Shared modules:

- `Wrappers`: Option and the settled promise `Outcome`;
- `Text`: string helpers and decimal rendering and parsing;
- `Sequences`: `Filter`, `Take` (JavaScript `slice`), and the stable
  descending sort behind `Array.prototype.sort`;
- `Media`: engine commands, decoded log lines, and directory constants.

Where the source mutates state, the model does too:

- The temp registry, the service object and the screens' React state are
  classes whose methods state their whole new state.
- The sentinel clamp works in place on an `array`.
- The loops (speech decoding, window sliding, greedy selection, clip, thumbnail
  and export loops) are `while` and `for` loops. Each is proved equal to a specification
  function, and the properties are lemmas about that function.

The design notes of the system describe a threshold-retry ladder, a
balance-penalty term in the score, and a 0.6 overlap ratio. The code has none
of them, and the model follows the code:

- single detector thresholds (-35 dB, 0.4 s, 0.35);
- score `coverage + 2.5 · sceneCount`;
- rejection when the intersection exceeds `windowSize / 2`.

As a consequence, a single 40 s speech section yields three windows (starts
0, 15 and 30), not two (`Analyzer.SingleSectionSelection`). `registerTemp` has
no caller in the pipeline shown.

## Model

| member | source | states |
|---|---|---|
| Analyzer.ScanSpeech | ViralityClipprx/src/services/analyzer.ts:33-51 | Every emitted section starts at the initial cursor or at some `silence_end` time, is non-empty, and is non-negative for unsigned logs; at most one section per line |
| Analyzer.FinalCursor | ViralityClipprx/src/services/analyzer.ts:33-51 | The cursor after the walk is the initial one or the time of some `silence_end` line |
| Analyzer.FinalCursorIsLastMove | ViralityClipprx/src/services/analyzer.ts:33-51 | The cursor after the walk is the time of the last `silence_end` line without a `silence_start`, or the initial cursor when there is no such line |
| Analyzer.ScanSpeechExactly | ViralityClipprx/src/services/analyzer.ts:33-51 | A section is emitted if and only if some `silence_start` line ends it, it starts at the cursor the lines before that one left, and it is non-empty |
| Analyzer.SpeechSectionsExactly | ViralityClipprx/src/services/analyzer.ts:33-57 | `detectSpeechSections` returns exactly the closed sections and the open tail `[last silence end, MAX_SAFE_INTEGER]` that last more than 1 s and start at or after 0 |
| Analyzer.SpeechSectionsOf | ViralityClipprx/src/services/analyzer.ts:53-57 | Returned sections all satisfy `end - start > 1` and `start >= 0`; at most one more than the lines |
| Analyzer.DetectSpeechSections | ViralityClipprx/src/services/analyzer.ts:15-58 | A rejected engine run gives `[]`; a settled run (even a failed one) decodes whatever logs came back, exactly as `SpeechSectionsOf` |
| Analyzer.ScanOrdered | ViralityClipprx/src/services/analyzer.ts:33-51 | On an alternating silence log the sections come out chronologically ordered and non-overlapping, between the cursor and the final cursor |
| Analyzer.SpeechSectionsOrdered | ViralityClipprx/src/services/analyzer.ts:33-57 | For a well-formed silence log the decoded sections are ordered and non-empty |
| Analyzer.TailSectionKept | ViralityClipprx/src/services/analyzer.ts:53-57 | The tail section `[lastSilenceEnd, MAX_SAFE_INTEGER]` is always appended and survives the filter as the last section |
| Analyzer.UnclosedSilenceOverlapsTail | ViralityClipprx/src/services/analyzer.ts:33-57 | A `silence_start` with no `silence_end` yields a section and a tail that overlap, both starting at 0 |
| Analyzer.PtsTimes | ViralityClipprx/src/services/analyzer.ts:71-78 | One time per `pts_time` line, in line order, each equal to that line's time |
| Analyzer.PtsTimesComplete | ViralityClipprx/src/services/analyzer.ts:71-78 | Every `pts_time` line contributes its time |
| Analyzer.SceneTimesSorted | ViralityClipprx/src/services/analyzer.ts:71-79 | Scene times are ascending and are exactly the matching lines' times as a multiset, duplicates kept |
| Analyzer.DetectSceneChanges | ViralityClipprx/src/services/analyzer.ts:61-80 | A rejected run gives `[]`; otherwise the sorted decoded times |
| Analyzer.GenerateThumbnails | ViralityClipprx/src/services/analyzer.ts:83-97 | Rejects iff some capture run rejects; otherwise returns, in input order, exactly the thumbnail paths that exist, at most one per time |
| Analyzer.SpeechCoverage | ViralityClipprx/src/services/analyzer.ts:119 | Coverage is positive, at most the window size and at most the rest of the section, and equals one of the two |
| Analyzer.Score | ViralityClipprx/src/services/analyzer.ts:120 | The score is at least the coverage, with equality iff no scene change falls in the window |
| Analyzer.CandidateAt | ViralityClipprx/src/services/analyzer.ts:117-121 | The candidate's window is `{start: winStart, duration: windowSize}` and its score lies between the coverage and the window size plus 2.5 per scene time |
| Analyzer.SlideCandidates | ViralityClipprx/src/services/analyzer.ts:115-122 | Every slid window has the window size and starts inside `[winStart, endSpeech)` |
| Analyzer.SlideGrid | ViralityClipprx/src/services/analyzer.ts:115-122 | Candidate starts are exactly `startSpeech + k·windowSize/2` while below `endSpeech`; no candidate iff the section is empty; each is the scored candidate at its start |
| Analyzer.SlideCount | ViralityClipprx/src/services/analyzer.ts:114-122 | A section's 30-second windows, 15 s apart, number at least the section's length divided by 15 s |
| Analyzer.SentinelSectionOverflows | ViralityClipprx/src/services/analyzer.ts:110-122 | A section open to `MAX_SAFE_INTEGER` that starts within the first 10^15 s yields more than 2^32 − 1 candidate windows |
| Analyzer.SectionsCandidatesSnoc | ViralityClipprx/src/services/analyzer.ts:110-123 | The candidates of one more section are those of the earlier sections followed by its own windows, none when it lasts at most 1 s |
| Analyzer.SectionCandidatesIncluded | ViralityClipprx/src/services/analyzer.ts:110-123 | Every section's windows are all among the candidates |
| Analyzer.SlideWindows | ViralityClipprx/src/services/analyzer.ts:115-122 | The sliding loop pushes exactly `SlideCandidates` |
| Analyzer.SectionsCandidates | ViralityClipprx/src/services/analyzer.ts:110-123 | Every candidate comes from a section longer than 1 s and starts inside it |
| Analyzer.RankedCandidatesOrder | ViralityClipprx/src/services/analyzer.ts:126 | The sorted candidates are in non-increasing score order, a permutation of the generated ones, and ties keep generation order (stable sort) |
| Analyzer.GreedyFacts | ViralityClipprx/src/services/analyzer.ts:127-137 | The greedy pass extends the kept list, keeps it pairwise within `windowSize/2` overlap, never exceeds `topK`, takes only candidates, and stops short of `topK` only when every candidate is kept or overlaps a kept one |
| Analyzer.HighlightWindowsFacts | ViralityClipprx/src/services/analyzer.ts:100-140 | At most `topK` windows, pairwise overlap at most `windowSize/2`, each inside a long-enough speech section, and maximal when fewer than `topK` |
| Analyzer.ScoreHighlightWindows | ViralityClipprx/src/services/analyzer.ts:100-140 | The imperative scorer returns exactly `HighlightWindows`, hence at most `topK` pairwise-spread windows |
| Analyzer.SingleSectionSelection | ViralityClipprx/src/services/analyzer.ts:100-140 | A lone 40 s section with no scenes gives the windows at 0, 15 and 30 |
| Analyzer.NoSpeechNoWindows | ViralityClipprx/src/services/analyzer.ts:110-137 | No speech sections give no windows |
| Sequences.SortDescOrdersAndPermutes | ViralityClipprx/src/services/analyzer.ts:126 | The descending sort orders by key and is a permutation of its input |
| Sequences.SortDescStable | src/services/WhisperService.js:273 | For every key value, the elements with that key keep their relative order |
| VideoProcessor.ClipCommand | ViralityClipprx/src/services/videoProcessor.ts:25-26 | The clip command stream-copies `[start, start + duration)` of the input into `TEMP_DIR/clip_<id>.mp4` |
| VideoProcessor.SucceededClips | ViralityClipprx/src/services/videoProcessor.ts:24-31 | Every returned path is the output of a window whose run succeeded; at most one per window |
| VideoProcessor.SucceededClipsComplete | ViralityClipprx/src/services/videoProcessor.ts:24-31 | Every succeeded window's output is returned |
| VideoProcessor.SucceededClipsAllOk | ViralityClipprx/src/services/videoProcessor.ts:24-32 | When every run succeeds, the result is one path per window, in window order |
| VideoProcessor.GenerateHighlightClips | ViralityClipprx/src/services/videoProcessor.ts:17-33 | Issues one clip command per window in order and returns exactly the succeeded paths |
| VideoProcessor.ConcatManifestReadsBack | ViralityClipprx/src/services/videoProcessor.ts:44-46 | Splitting the manifest at newlines gives one `file '<path>'` line per clip, in order, from which the path reads back |
| VideoProcessor.ConcatAndFormatVertical | ViralityClipprx/src/services/videoProcessor.ts:39-56 | An empty list returns null with no effects; otherwise it writes the manifest, runs the engine once, and returns the output path iff the run succeeds |
| ProcessingScreen.ClampedSections | ViralityClipprx/src/screens/ProcessingScreen.tsx:31-36 | With a truthy duration every sentinel end becomes the duration and all else is unchanged; with none the sections are untouched |
| ProcessingScreen.ClampRemovesSentinel | ViralityClipprx/src/screens/ProcessingScreen.tsx:31-36 | After clamping with a real duration no section ends at the sentinel |
| ProcessingScreen.ClampIdempotent | ViralityClipprx/src/screens/ProcessingScreen.tsx:31-36 | Clamping twice is clamping once |
| ProcessingScreen.ClampSentinels | ViralityClipprx/src/screens/ProcessingScreen.tsx:32-35 | The in-place loop leaves the array equal to the clamped sections |
| ProcessingScreen.ThumbTimes | ViralityClipprx/src/screens/ProcessingScreen.tsx:52 | One thumbnail time per window, in order, each strictly inside its window |
| ProcessingScreen.PipelineWindows | ViralityClipprx/src/screens/ProcessingScreen.tsx:29-44 | Scoring runs with window 30 and top 5 on the clamped sections, so at most 5 windows of 30 s, pairwise spread |
| ProcessingScreen.AnalyzeStages | ViralityClipprx/src/screens/ProcessingScreen.tsx:29-44 | Scoring throws, leaving no windows, exactly when the candidates do not fit in an array; otherwise the windows are `PipelineWindows`; the three stage texts are shown in order |
| ProcessingScreen.UnknownDurationOverflows | ViralityClipprx/src/screens/ProcessingScreen.tsx:26-44 | Without a truthy duration, a speech section left open at `MAX_SAFE_INTEGER` and starting within the first 10^15 s makes scoring overflow its array |
| ProcessingScreen.GenerateStages | ViralityClipprx/src/screens/ProcessingScreen.tsx:46-58 | Fails if and only if a thumbnail capture rejects; otherwise navigates with exactly the succeeded clips and the existing thumbnails (at most 5 each); the two generation texts, then "Processing failed" on failure |
| ProcessingScreen.Process | ViralityClipprx/src/screens/ProcessingScreen.tsx:22-63 | When scoring overflows, fails after the scoring text; otherwise fails if and only if a thumbnail capture rejects, and else navigates with exactly the succeeded clips and the existing thumbnails (at most 5 each); stage texts in order, then "Processing failed" on failure |
| TempManager.AfterCleanup | ViralityClipprx/src/utils/tempManager.ts:9-17 | Cleanup only removes files: unregistered files stay, registered ones whose unlink succeeds go, and ones whose unlink fails stay |
| TempManager.CleanupIdempotent | ViralityClipprx/src/utils/tempManager.ts:9-17 | Cleaning the same registrations twice changes nothing more |
| TempManager.TempRegistry.constructor | ViralityClipprx/src/utils/tempManager.ts:3 | The registry starts empty |
| TempManager.TempRegistry.RegisterTemp | ViralityClipprx/src/utils/tempManager.ts:5-7 | Adds the path; registering an already present path leaves the set unchanged |
| TempManager.TempRegistry.CleanupTemps | ViralityClipprx/src/utils/tempManager.ts:9-17 | The registry ends empty and the file system is exactly `AfterCleanup` of its old state; per-file errors never fail the call |
| WhisperService.DetectKeyPhrases | src/services/WhisperService.js:171-189 | The loop returns exactly `KeyPhrasesOf(text)` |
| WhisperService.KeyPhrasesExactly | src/services/WhisperService.js:171-189 | A token is returned iff it is a lowercased space-separated token whose letters-only form is a keyword |
| WhisperService.KeyPhrasesOfWord | src/services/WhisperService.js:171-189 | Key phrases come out in text order, punctuation intact |
| WhisperService.AnalyzeEmotionalTone | src/services/WhisperService.js:191-207 | Positive iff a positive word occurs; neutral iff no word of any list occurs |
| WhisperService.ExcitedOnlyThroughWow | src/services/WhisperService.js:191-207 | Excited iff the text contains "wow" and no positive word (positive takes precedence) |
| WhisperService.CountMentioned | src/services/WhisperService.js:213-220 | The count of engaging words present is at most the list length and is zero iff none occurs |
| WhisperService.EngagementScore | src/services/WhisperService.js:209-233 | The score is `min(base, 1)`: at most 1, at most the uncapped sum and equal to one of the two; non-negative for non-negative confidence |
| WhisperService.EngagementMonotone | src/services/WhisperService.js:209-233 | Higher confidence never lowers the engagement score |
| WhisperService.CalculateEngagementScore | src/services/WhisperService.js:209-233 | The accumulating method equals `EngagementScore` |
| WhisperService.SpeechIntensity | src/services/WhisperService.js:146-154 | A finite intensity is at most 1; a segment with no words gives NaN; a non-empty, non-zero-length segment gives a finite value |
| WhisperService.SpeechIntensityPerTenSeconds | src/services/WhisperService.js:146-154 | For a positive-length segment the intensity is `min(wordDensity·avgConfidence/10, 1)` |
| WhisperService.AnalyzeTranscription | src/services/WhisperService.js:120-169 | One key-phrase, tone, intensity and engagement entry per segment, each timestamped at the segment start |
| WhisperService.NearbyAudio | src/services/WhisperService.js:247-250 | Finds a level within 2.5 s, and none iff no level is within 2.5 s |
| WhisperService.NearbyScene | src/services/WhisperService.js:253-256 | Finds a scene within 3 s, and none iff no scene is within 3 s |
| WhisperService.AudioScore | src/services/WhisperService.js:247-250 | The audio score lies in [0, 1] |
| WhisperService.HighlightReason | src/services/WhisperService.js:280-286 | First-match precedence: engagement > 0.8, then intensity > 0.7, then audio > 0.6, then scene > 0.7, else "Multiple factors" |
| WhisperService.SegmentHighlight | src/services/WhisperService.js:241-270 | A produced highlight scores above 0.6, spans `[max(0, start-2), min(end+2, duration)]`, keeps the segment text, and carries the segment's combined score and reason |
| WhisperService.SegmentHighlightAbove | src/services/WhisperService.js:243-268 | A highlight is produced if and only if the intensity is not minus infinity and `0.4·eng + 0.3·int + 0.2·audio + 0.1·scene` exceeds 0.6, a NaN intensity counting as 0; it is then exactly that highlight, with its reason |
| WhisperService.HighlightCandidates | src/services/WhisperService.js:239-271 | Every candidate is some segment's highlight; at most one per segment |
| WhisperService.HighlightCandidatesComplete | src/services/WhisperService.js:239-271 | Every segment's highlight is a candidate |
| WhisperService.HighlightsFacts | src/services/WhisperService.js:235-278 | At most 5 highlights, by non-increasing score, each above 0.6, inside the video, and each some segment's highlight |
| WhisperService.HighlightsAreTheTopScores | src/services/WhisperService.js:273 | A highlight left out means 5 were kept, all scoring at least as high |
| WhisperService.FindHighlightMoments | src/services/WhisperService.js:235-278 | The method returns exactly `HighlightsOf`, at most 5, best first |
| VideoProcessingService.OptimizedDuration | src/services/VideoProcessingService.js:106 | The duration is clamped into [15, 60], unchanged when already inside |
| VideoProcessingService.OptimizedStart | src/services/VideoProcessingService.js:107 | The start is non-negative; it re-centres the clip on the highlight's midpoint, and is 0 only when the re-centred start would not be positive |
| VideoProcessingService.InRangeHighlightKept | src/services/VideoProcessingService.js:106-107 | A highlight already 15–60 s long keeps its start and end |
| VideoProcessingService.PlannedClip | src/services/VideoProcessingService.js:106-130 | A planned clip lasts 15–60 s from a non-negative start, ends at start + duration, has id `clip_{i+1}`, the highlight's score, text and reason, 9:16, no thumbnail |
| VideoProcessingService.OptimizedClipsFacts | src/services/VideoProcessingService.js:97-138 | Clips are at most one per highlight, well-formed, each successfully extracted, and a planned clip is kept iff its extraction succeeds |
| VideoProcessingService.FailedExtractionLeavesIdGap | src/services/VideoProcessingService.js:108-134 | A failed first extraction leaves the second clip with id `clip_2` |
| VideoProcessingService.Thumbnailed | src/services/VideoProcessingService.js:140-161 | Same length and order; each clip gains its thumbnail on success and is otherwise unchanged; nothing else changes |
| VideoProcessingService.OrDefault | src/services/VideoProcessingService.js:205-206 | JavaScript logical or: a missing or zero option falls back to the default |
| VideoProcessingService.ClipCount | src/services/VideoProcessingService.js:204 | A missing or zero `maxClips` means 5 |
| VideoProcessingService.BestClipsFacts | src/services/VideoProcessingService.js:212-220 | Best clips are in-range input clips, by non-increasing score, at most N, and any in-range clip left out is beaten by all N kept |
| VideoProcessingService.EnhancedPathOfMp4 | src/services/VideoProcessingService.js:165 | The enhanced path of `base.mp4` is `base_enhanced.mp4` |
| VideoProcessingService.EnhanceClip | src/services/VideoProcessingService.js:163-179 | Without subtitles or text the clip is returned as is; otherwise it resolves iff the overlay run succeeds, to the original or the enhanced path |
| VideoProcessingService.ProgressStepsRise | src/services/VideoProcessingService.js:26-68 | Progress is reported as 0, 10, …, 100: eleven strictly rising steps |
| VideoProcessingService.StepsReached | src/services/VideoProcessingService.js:23-95 | At least two steps are always reported, never more than eleven |
| VideoProcessingService.ProcessedClipsFacts | src/services/VideoProcessingService.js:23-95 | A successful run returns at most 5 clips, each 15–60 s from a non-negative start |
| VideoProcessingService.VideoProcessingService.constructor | src/services/VideoProcessingService.js:6-10 | Not processing, progress 0, no callback |
| VideoProcessingService.VideoProcessingService.SetProgressCallback | src/services/VideoProcessingService.js:12-14 | Sets the callback and nothing else |
| VideoProcessingService.VideoProcessingService.UpdateProgress | src/services/VideoProcessingService.js:16-21 | Sets the progress and reports `(p, s)` iff a callback is set |
| VideoProcessingService.VideoProcessingService.ProcessVideo | src/services/VideoProcessingService.js:23-95 | Returns the pipeline outcome, ends not processing on success and error, and reports the rising progress steps reached, in order |
| VideoProcessingService.VideoProcessingService.GenerateOptimizedClips | src/services/VideoProcessingService.js:97-138 | The loop returns exactly `OptimizedClips` |
| VideoProcessingService.VideoProcessingService.AddThumbnailsToClips | src/services/VideoProcessingService.js:140-161 | The loop returns exactly `Thumbnailed` |
| VideoProcessingService.VideoProcessingService.AnalyzeVideoForBestClips | src/services/VideoProcessingService.js:202-230 | Fails when processing fails; otherwise replaces the clips by the best clips under the logical-or defaults 5, 15, 60 |
| VideoProcessingService.VideoProcessingService.CancelProcessing | src/services/VideoProcessingService.js:258-269 | Not processing and progress 0, callback and reports unchanged |
| VideoSelectScreen.ExtensionShape | src/screens/VideoSelectScreen.js:123 | With a dot, the extension is the lowercased suffix from the last dot; without one, it is the whole lowercased name (`substring(-1)`) |
| VideoSelectScreen.ValidateVideoFile | src/screens/VideoSelectScreen.js:108-139 | Too large iff size > 500 MiB, checked first; valid iff not too large and the extension is one of the five |
| VideoSelectScreen.NoDotRejected | src/screens/VideoSelectScreen.js:123-132 | A name without a dot is rejected as unsupported |
| VideoSelectScreen.SizeBoundary | src/screens/VideoSelectScreen.js:111-119 | Exactly 500 MiB is accepted and one byte more is rejected; case of the extension does not matter |
| VideoSelectScreen.RecentVideos | src/screens/VideoSelectScreen.js:38-46 | The first 5, in directory order, of the files ending `.mp4`, `.mov` or `.avi` |
| VideoSelectScreen.VideoSelectState.HandleProcessVideo | src/screens/VideoSelectScreen.js:169-185 | Navigates iff a video is selected, with its path, name and info |
| ClipPreviewScreen.ClockParts | src/screens/ClipPreviewScreen.js:68-72 | Minutes and seconds below 60 that recombine to the whole seconds |
| ClipPreviewScreen.FormatClockReadsBack | src/screens/ClipPreviewScreen.js:68-72 | `m:ss` splits into digits and two padded digits below 60 that parse back to the whole seconds |
| ClipPreviewScreen.ScoreColor | src/screens/ClipPreviewScreen.js:74-78 | Teal above 0.8, orange in (0.6, 0.8], red otherwise |
| ClipPreviewScreen.ScoreLabel | src/screens/ClipPreviewScreen.js:80-84 | Excellent above 0.8, Good in (0.6, 0.8], Fair otherwise |
| ClipPreviewScreen.BandsAgree | src/screens/ClipPreviewScreen.js:74-84 | Colour and label use the same bands |
| ClipPreviewScreen.ClipPreviewState.constructor | src/screens/ClipPreviewScreen.js:25-27 | Starts on the first clip, paused, at time 0 |
| ClipPreviewScreen.ClipPreviewState.HandlePlayPause | src/screens/ClipPreviewScreen.js:35-37 | Negates `isPlaying` and changes nothing else |
| ClipPreviewScreen.ClipPreviewState.HandleClipSelect | src/screens/ClipPreviewScreen.js:44-48 | Selects the clip, pauses, rewinds to 0 |
| ClipPreviewScreen.ClipPreviewState.HandleExport | src/screens/ClipPreviewScreen.js:50-57 | Exports `[clip]` with all clips alongside |
| ClipPreviewScreen.ClipPreviewState.HandleExportAll | src/screens/ClipPreviewScreen.js:59-66 | Exports the whole list |
| VideoProcessingScreen.DurationParts | src/screens/VideoProcessingScreen.js:181-190 | Minutes and seconds below 60 that recombine to the whole seconds of the milliseconds |
| VideoProcessingScreen.FormatRemainingReadsBack | src/screens/VideoProcessingScreen.js:181-190 | Under a minute it shows `Ys`; otherwise `Xm Ys` with X the minutes and Y the seconds mod 60 |
| VideoProcessingScreen.EstimatedTimeLeft | src/screens/VideoProcessingScreen.js:102-107 | The estimate is never negative |
| VideoProcessingScreen.NothingLeftAtFull | src/screens/VideoProcessingScreen.js:102-107 | At 100 % the estimate is 0 |
| VideoProcessingScreen.StepIcon | src/screens/VideoProcessingScreen.js:192-205 | "Starting" wins over every other match; `settings` iff nothing matches |
| VideoProcessingScreen.StepIconFirstMatch | src/screens/VideoProcessingScreen.js:192-205 | The status gets the icon of the first phrase in the table (Starting, Extracting video, Extracting audio, Transcribing, ..., complete) that it contains |
| VideoProcessingScreen.StepIconNoMatch | src/screens/VideoProcessingScreen.js:192-205 | A status containing none of the phrases gets `settings` |
| VideoProcessingScreen.StartingWins | src/screens/VideoProcessingScreen.js:193 | Any step text beginning "Starting" gets the play icon |
| VideoProcessingScreen.CompletedStepsArePrefix | src/screens/VideoProcessingScreen.js:319-320 | If a step is completed, so is every earlier step |
| VideoProcessingScreen.ActiveAndCompleted | src/screens/VideoProcessingScreen.js:319-321 | An active step is also completed unless progress sits exactly on its boundary |
| VideoProcessingScreen.HalfwayStepBoth | src/screens/VideoProcessingScreen.js:319-321 | At 50 % step 4 is both completed and active |
| VideoProcessingScreen.FullChecklist | src/screens/VideoProcessingScreen.js:308-321 | At 100 % every listed step is completed and none active |
| VideoProcessingScreen.ProcessingScreenState.constructor | src/screens/VideoProcessingScreen.js:24-30 | Progress 0, the starting step text, not processing, no error, no estimate |
| VideoProcessingScreen.ProcessingScreenState.OnProgress | src/screens/VideoProcessingScreen.js:97-108 | Records progress and step; estimates the time left only for positive progress; nothing else changes |
| VideoProcessingScreen.ProcessingScreenState.HandleBackPress | src/screens/VideoProcessingScreen.js:148-168 | The on-screen Cancel check on the current state: swallows the press if and only if processing |
| VideoProcessingScreen.ProcessingScreenState.HandleRetry | src/screens/VideoProcessingScreen.js:174-179 | Clears the error, resets progress and step text, restarts processing |
| HomeScreen.RecentClipsFacts | src/screens/HomeScreen.js:36-45 | At most 5 `.mp4` clips, newest first, and any `.mp4` left out is no newer than all 5 shown |
| HomeScreen.CeilThird | src/screens/HomeScreen.js:63 | `ceil(n/3)`: the least r with `3r >= n` |
| HomeScreen.AppStatsOf | src/screens/HomeScreen.js:20-66 | `totalClips` is the number of `.mp4` files and `totalVideosProcessed` is its ceiling third; an unreadable directory leaves both at 0 |
| HomeScreen.ShelfWithinCount | src/screens/HomeScreen.js:38-63 | The shelf never shows more clips than the count |
| ExportScreen.ExportTimestamp | src/screens/ExportScreen.js:112 | Every `:` and `.` becomes `-` and all other characters are kept in place |
| ExportScreen.ExportFileNamesDistinct | src/screens/ExportScreen.js:112-113 | Different clip indexes give different file names, whatever the timestamps |
| ExportScreen.ExportOutcome | src/screens/ExportScreen.js:110-139 | An export succeeds if and only if the copy to the export path succeeds and, with subtitles on a non-empty text, the overlay succeeds; it then returns the enhanced path with subtitles and the export path without |
| ExportScreen.Mp4ExportPath | src/screens/ExportScreen.js:112-120 | An mp4 export goes to `<Downloads or Documents>/ViralityClip_{i+1}_{ts}.mp4` |
| ExportScreen.SubtitledMp4Export | src/screens/ExportScreen.js:123-132 | With subtitles and text, an mp4 export ends at `…_enhanced.mp4` |
| ExportScreen.ExportedClipsSound | src/screens/ExportScreen.js:71-84 | Every exported entry is some selected clip with its successful export path |
| ExportScreen.ExportedClipsComplete | src/screens/ExportScreen.js:71-84 | Every selected clip whose export gives a path is among the exported entries with that path |
| ExportScreen.AllExported | src/screens/ExportScreen.js:71-84 | When every export succeeds, all clips are exported in order |
| ExportScreen.ExportProgressAfter | src/screens/ExportScreen.js:85 | Progress after clip i is in (0, 100] and reaches 100 at the last clip |
| ExportScreen.ExportScreenState.constructor | src/screens/ExportScreen.js:28-31 | Progress 0, not exporting, nothing exported, index 0 |
| ExportScreen.ExportScreenState.HandleExport | src/screens/ExportScreen.js:62-108 | Exports in clip order keeping only the non-null paths, ends not exporting, progress 100 (0 for none) and index at the last clip |

## Left out

- Engine and probe wrappers (`ffmpeg.ts`, `whisper.ts`, `FFmpegService.js`): run outcomes, file existence, audio levels, scene changes and the probed duration are oracle parameters.
- Raw regex matching and `parseFloat` over engine logs: each log line is its already decoded captures, unsigned as the regexes require.
- `WhisperService` plumbing (`initialize`, `extractAudio`, `transcribeAudio`, `simulateWhisperTranscription`, `cleanup`): I/O and mock data.
- The random emotional intensity (`Math.random()`) in `analyzeTranscription`: nondeterministic, and unused by highlight scoring.
- `VideoProcessingService.exportClip`, `getClipMetadata`, `isCurrentlyProcessing` and `getCurrentProgress`: engine wrappers and plain getters.
- `ViralityClipprx/src/config/directories.ts` is not part of this model: the directories are assumed to exist.
- Concurrency: the `Promise.all` deletions in `cleanupTemps` are modelled one after another, since they are independent.
- Floating-point formatting (`formatFileSize`, `getEstimatedSize`, `toFixed`): the model uses exact reals.
- `Date.now()`, `uuid.v4()` and `toISOString()`: opaque values passed in as parameters.
- Case folding is ASCII only: `toLowerCase` on other letters is not modelled.
- `VideoSelectScreen` `selectVideo` and `selectRecentVideo`: document-picker and probe I/O around `validateVideoFile`, which is modelled.
- Dialogs, toasts, alerts, sharing, permissions, animations, styles and the app shell.
- The elapsed time of the processing estimate is a parameter: the stale `startTime` closure at `VideoProcessingScreen.js:103` is not modelled.
- `HandleBackPress`'s dialog and navigation are not modelled: only whether the press is swallowed.
- VideoProcessingScreen.ProcessingScreenState.HandleBackPress: models the check against the current state, as the on-screen Cancel button (`handleCancel`, `VideoProcessingScreen.js:170-172`) makes it. The hardware back listener is registered once with no dependencies (`VideoProcessingScreen.js:36-45`). It keeps the first render's `isProcessing`, which is false, so it never swallows the press. That stale closure is not modelled.
- ExportScreen.Mp4ExportPath: the export directories are the placeholder constants of `Media`, which contain no dot. A real platform directory may contain dots; the `_enhanced.mp4` name proved in `ExportScreen.SubtitledMp4Export` relies on there being none.
- ProcessingScreen.Process: when scoring overflows, the model lets `push` throw the `RangeError` that JavaScript prescribes past 2^32 − 1 elements, and the pipeline fails. On a device the engine runs out of memory long before, and the app may hang or crash instead of showing "Processing failed". The model checks the candidate count before scoring rather than part-way through it.
- `executeWithLogs` is imported by `analyzer.ts` but not defined in the `ffmpeg.ts` shown, so every engine run behind it is an oracle parameter.
- Analyzer.SlideWindows: requires `windowSize > 0`, because with a non-positive step the source loop never ends on a section longer than 1 s.
- Analyzer.ScoreHighlightWindows: requires `windowSize > 0`, for the same reason.
- Analyzer.SlideCandidates: requires `windowSize > 0`, for the same reason.
- ProcessingScreen.ThumbTimes: its contract states the length, the order and that each time lies inside its window; the exact 0.5 s offset is its definition.
