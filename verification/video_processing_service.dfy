/**
 * The clip service behind the processing screen: it runs the analysis
 * stages in order while reporting progress, normalises each highlight into
 * a 15 to 60 second vertical clip, attaches thumbnails and picks the best
 * clips. Probing, audio extraction, transcription and the engine are
 * oracles bundled in a `Backend`.
 */
module VideoProcessingService {
  import opened Wrappers
  import opened Text
  import opened Sequences
  import opened Media
  import opened WhisperService

  datatype Clip = Clip(
    id: string, path: string, startTime: real, duration: real, endTime: real,
    score: real, text: string, reason: string, aspectRatio: string, thumbnail: Option<string>)

  /* ---------------------------------------------------------------------
   * Clip normalisation
   * ------------------------------------------------------------------- */

  const MinViralDuration: real := 15.0
  const MaxViralDuration: real := 60.0

  /** The highlight length clamped to the viral range. */
  function OptimizedDuration(d: real): (r: real)
    ensures MinViralDuration <= r <= MaxViralDuration
    ensures MinViralDuration <= d <= MaxViralDuration ==> r == d
    ensures d < MinViralDuration ==> r == MinViralDuration
    ensures d > MaxViralDuration ==> r == MaxViralDuration
  {
    Min(Max(d, MinViralDuration), MaxViralDuration)
  }

  /**
   * The clip start: the clip is re-centred on the highlight's midpoint,
   * unless that would start before the beginning of the video.
   */
  function OptimizedStart(h: Highlight): (r: real)
    ensures r >= 0.0
    ensures r == 0.0 || r + OptimizedDuration(h.endTime - h.startTime) / 2.0 == (h.startTime + h.endTime) / 2.0
    ensures r > 0.0 ==> r == h.startTime - (OptimizedDuration(h.endTime - h.startTime) - (h.endTime - h.startTime)) / 2.0
    ensures r == 0.0 ==> (h.startTime + h.endTime) / 2.0 - OptimizedDuration(h.endTime - h.startTime) / 2.0 <= 0.0
  {
    var clipDuration := h.endTime - h.startTime;
    Max(0.0, h.startTime - (OptimizedDuration(clipDuration) - clipDuration) / 2.0)
  }

  /** A highlight already in range keeps its start and length. */
  lemma InRangeHighlightKept(h: Highlight)
    requires MinViralDuration <= h.endTime - h.startTime <= MaxViralDuration && h.startTime >= 0.0
    ensures OptimizedStart(h) == h.startTime
    ensures OptimizedStart(h) + OptimizedDuration(h.endTime - h.startTime) == h.endTime
  {
  }

  function ClipId(i: nat): string
  {
    "clip_" + NatToString(i + 1)
  }

  function ClipPath(i: nat, stamp: string): string
  {
    ClipsDir + "/clip_" + NatToString(i + 1) + "_" + stamp + ".mp4"
  }

  /** The clip the `i`-th highlight becomes when its extraction succeeds. */
  function PlannedClip(h: Highlight, i: nat, stamp: string): (c: Clip)
    ensures MinViralDuration <= c.duration <= MaxViralDuration && c.startTime >= 0.0
    ensures c.endTime == c.startTime + c.duration
    ensures c.id == ClipId(i) && c.path == ClipPath(i, stamp)
    ensures c.score == h.score && c.text == h.text && c.reason == h.reason
    ensures c.aspectRatio == "9:16" && c.thumbnail.None?
  {
    var optimizedStartTime := OptimizedStart(h);
    var optimizedDuration := OptimizedDuration(h.endTime - h.startTime);
    Clip(ClipId(i), ClipPath(i, stamp), optimizedStartTime, optimizedDuration,
         optimizedStartTime + optimizedDuration, h.score, h.text, h.reason, "9:16", None)
  }

  function PlannedClips(highlights: seq<Highlight>, stamp: nat -> string): (r: seq<Clip>)
    ensures |r| == |highlights|
  {
    seq(|highlights|, i requires 0 <= i < |highlights| => PlannedClip(highlights[i], i, stamp(i)))
  }

  function ExtractCommand(videoPath: string, c: Clip): Command
  {
    CropVertical(videoPath, c.startTime, c.duration, c.path)
  }

  /** What `generateOptimizedClips` returns: the planned clips whose extraction succeeded, in highlight order. */
  function OptimizedClips(videoPath: string, highlights: seq<Highlight>, extract: Command -> bool, stamp: nat -> string): seq<Clip>
  {
    Filter(PlannedClips(highlights, stamp), (c: Clip) => extract(ExtractCommand(videoPath, c)))
  }

  /**
   * A failed extraction drops only its own clip: the `i`-th planned clip is
   * kept exactly when its extraction succeeds, and every clip kept is in the
   * viral range with a consistent end and no thumbnail yet.
   */
  lemma OptimizedClipsFacts(videoPath: string, highlights: seq<Highlight>, extract: Command -> bool, stamp: nat -> string)
    ensures var r := OptimizedClips(videoPath, highlights, extract, stamp);
      && |r| <= |highlights|
      && (forall c :: c in r ==>
            && MinViralDuration <= c.duration <= MaxViralDuration && c.startTime >= 0.0
            && c.endTime == c.startTime + c.duration && c.thumbnail.None?
            && extract(ExtractCommand(videoPath, c)))
      && (forall i :: 0 <= i < |highlights| ==>
            (PlannedClip(highlights[i], i, stamp(i)) in r <==>
             extract(ExtractCommand(videoPath, PlannedClip(highlights[i], i, stamp(i))))))
  {
    var planned := PlannedClips(highlights, stamp);
    var p := (c: Clip) => extract(ExtractCommand(videoPath, c));
    forall i | 0 <= i < |highlights| && extract(ExtractCommand(videoPath, PlannedClip(highlights[i], i, stamp(i))))
      ensures PlannedClip(highlights[i], i, stamp(i)) in OptimizedClips(videoPath, highlights, extract, stamp)
    {
      assert planned[i] == PlannedClip(highlights[i], i, stamp(i));
      FilterContains(planned, p, planned[i]);
    }
  }

  /** Ids follow the highlight index, so a failed extraction leaves a gap: when only the second of two succeeds, the one clip is `clip_2`. */
  lemma FailedExtractionLeavesIdGap(videoPath: string, h1: Highlight, h2: Highlight, extract: Command -> bool, stamp: nat -> string)
    requires !extract(ExtractCommand(videoPath, PlannedClip(h1, 0, stamp(0))))
    requires extract(ExtractCommand(videoPath, PlannedClip(h2, 1, stamp(1))))
    ensures var r := OptimizedClips(videoPath, [h1, h2], extract, stamp);
      |r| == 1 && r[0].id == "clip_2"
  {
    var planned := PlannedClips([h1, h2], stamp);
    var p := (c: Clip) => extract(ExtractCommand(videoPath, c));
    assert NatToString(2) == "2";
    assert planned[..1][..0] == [];
    assert planned[..1] == [planned[0]];
    assert Filter(planned[..1], p) == [];
    assert planned[..2] == planned;
  }

  /* ---------------------------------------------------------------------
   * Thumbnails
   * ------------------------------------------------------------------- */

  function ThumbnailPath(stamp: string): string
  {
    ClipsDir + "/thumb_" + stamp + ".jpg"
  }

  /** The frame in the middle of the clip. */
  function ThumbnailCommand(c: Clip, stamp: string): Command
  {
    PortraitThumbnail(c.path, c.duration / 2.0, ThumbnailPath(stamp))
  }

  /**
   * What `addThumbnailsToClips` returns: the same clips in the same order,
   * each with its thumbnail set when the capture succeeds and otherwise
   * untouched.
   */
  function Thumbnailed(clips: seq<Clip>, run: Command -> bool, stamp: nat -> string): (r: seq<Clip>)
    ensures |r| == |clips|
    ensures forall k :: 0 <= k < |clips| ==> r[k] == clips[k].(thumbnail := r[k].thumbnail)
    ensures forall k :: 0 <= k < |clips| ==>
      if run(ThumbnailCommand(clips[k], stamp(k))) then r[k].thumbnail == Some(ThumbnailPath(stamp(k))) else r[k] == clips[k]
  {
    seq(|clips|, k requires 0 <= k < |clips| =>
      if run(ThumbnailCommand(clips[k], stamp(k))) then clips[k].(thumbnail := Some(ThumbnailPath(stamp(k))))
      else clips[k])
  }

  /* ---------------------------------------------------------------------
   * Best clips
   * ------------------------------------------------------------------- */

  /** `value || fallback`: a missing value or 0 falls back. */
  function OrDefault(value: Option<real>, fallback: real): (r: real)
    ensures value.Some? && value.value != 0.0 ==> r == value.value
    ensures value.None? || value.value == 0.0 ==> r == fallback
  {
    if value.Some? && value.value != 0.0 then value.value else fallback
  }

  function ClipCount(maxClips: Option<int>): (n: int)
    ensures maxClips.Some? && maxClips.value != 0 ==> n == maxClips.value
    ensures maxClips.None? || maxClips.value == 0 ==> n == 5
  {
    if maxClips.Some? && maxClips.value != 0 then maxClips.value else 5
  }

  function ByClipScore(c: Clip): real
  {
    c.score
  }

  /** Clips whose length is within `[lo, hi]`, best score first (ties in list order), the first `n` of them. */
  function BestClips(clips: seq<Clip>, n: int, lo: real, hi: real): seq<Clip>
  {
    Take(SortDesc(Filter(clips, (c: Clip) => lo <= c.duration <= hi), ByClipScore), n)
  }

  /**
   * At most `n` clips (for `n >= 0`), all taken from the input and within
   * the length bounds, best first; a clip within bounds that was dropped
   * scores no higher than any clip kept, and only when `n` clips were kept.
   */
  lemma BestClipsFacts(clips: seq<Clip>, n: int, lo: real, hi: real)
    ensures var r := BestClips(clips, n, lo, hi);
      && |r| <= |clips| && (n >= 0 ==> |r| <= n)
      && NonIncreasing(r, ByClipScore)
      && (forall c :: c in r ==> c in clips && lo <= c.duration <= hi)
      && (forall c :: c in clips && lo <= c.duration <= hi && c !in r ==>
            (n >= 0 ==> |r| == n) && forall d :: d in r ==> d.score >= c.score)
  {
    var p := (c: Clip) => lo <= c.duration <= hi;
    var kept := Filter(clips, p);
    var sorted := SortDesc(kept, ByClipScore);
    SortDescOrdersAndPermutes(kept, ByClipScore);
    var r := BestClips(clips, n, lo, hi);
    assert r == sorted[..|r|];
    forall c | c in r
      ensures c in clips && lo <= c.duration <= hi
    {
      assert c in sorted;
      assert c in multiset(kept);
    }
    forall c | c in clips && lo <= c.duration <= hi && c !in r
      ensures (n >= 0 ==> |r| == n) && forall d :: d in r ==> d.score >= c.score
    {
      FilterContains(clips, p, c);
      TopOfSortDesc(kept, ByClipScore, n, c);
    }
  }

  /* ---------------------------------------------------------------------
   * Enhancement
   * ------------------------------------------------------------------- */

  /** `clipPath.replace('.mp4', '_enhanced.mp4')`: the first `.mp4` only, and no change without one. */
  function EnhancedPath(clipPath: string): string
  {
    ReplaceFirst(clipPath, ".mp4", "_enhanced.mp4")
  }

  /** A path whose only dot starts its `.mp4` ending gets `_enhanced` before the extension. */
  lemma {:induction false} EnhancedPathOfMp4(base: string)
    requires '.' !in base
    ensures EnhancedPath(base + ".mp4") == base + "_enhanced.mp4"
  {
    if base == [] {
      assert IsPrefix(".mp4", ".mp4");
    } else {
      assert !IsPrefix(".mp4", base + ".mp4") by {
        assert (base + ".mp4")[0] == base[0] != '.';
      }
      assert (base + ".mp4")[1..] == base[1..] + ".mp4";
      EnhancedPathOfMp4(base[1..]);
      assert [base[0]] + base[1..] == base;
    }
  }

  /**
   * `enhanceClip`: with subtitles requested and a non-empty text, burns the
   * text into a copy at the enhanced path and answers that path, failing
   * when the engine fails; otherwise answers the clip path unchanged.
   */
  function EnhanceClip(clipPath: string, addSubtitles: bool, text: string, overlay: Command -> bool): (r: Outcome<string>)
    ensures !(addSubtitles && text != "") ==> r == Resolved(clipPath)
    ensures addSubtitles && text != "" ==>
      (r.Resolved? <==> overlay(TextOverlay(clipPath, text, EnhancedPath(clipPath))))
    ensures r.Resolved? ==> r.value == clipPath || r.value == EnhancedPath(clipPath)
  {
    var enhancedPath := EnhancedPath(clipPath);
    if addSubtitles && text != "" then
      if overlay(TextOverlay(clipPath, text, enhancedPath)) then Resolved(enhancedPath) else Rejected
    else Resolved(clipPath)
  }

  /* ---------------------------------------------------------------------
   * The service
   * ------------------------------------------------------------------- */

  datatype Report = Report(progress: int, status: string)

  /** The progress reports of a complete run, in order. */
  const ProgressSteps: seq<Report> := [
    Report(0, "Starting video analysis..."),
    Report(10, "Extracting video information..."),
    Report(20, "Extracting audio track..."),
    Report(30, "Transcribing speech..."),
    Report(45, "Detecting scene changes..."),
    Report(55, "Analyzing silence patterns..."),
    Report(65, "Analyzing audio levels..."),
    Report(75, "Finding highlight moments..."),
    Report(85, "Generating optimized clips..."),
    Report(95, "Creating thumbnails..."),
    Report(100, "Processing complete!")]

  /** Progress starts at 0, rises at every step and ends at 100. */
  lemma ProgressStepsRise()
    ensures |ProgressSteps| == 11
    ensures ProgressSteps[0].progress == 0 && ProgressSteps[10].progress == 100
    ensures forall i, j :: 0 <= i < j < |ProgressSteps| ==> ProgressSteps[i].progress < ProgressSteps[j].progress
  {
    forall i, j | 0 <= i < j < |ProgressSteps|
      ensures ProgressSteps[i].progress < ProgressSteps[j].progress
    {
      assert forall k :: 0 <= k < 10 ==> ProgressSteps[k].progress < ProgressSteps[k + 1].progress;
      var k := i;
      while k < j
        invariant i <= k <= j
        invariant ProgressSteps[i].progress <= ProgressSteps[k].progress
        invariant k > i ==> ProgressSteps[i].progress < ProgressSteps[k].progress
      {
        k := k + 1;
      }
    }
  }

  datatype VideoInfo = VideoInfo(duration: real, width: int, height: int, format: string)
  datatype SilenceSegment = SilenceSegment(start: real, end: real)

  datatype ProcessResult = ProcessResult(
    clips: seq<Clip>,
    videoPath: string,
    info: VideoInfo,
    transcription: Transcription,
    sceneChanges: seq<SceneChange>,
    silenceSegments: seq<SilenceSegment>,
    audioLevels: seq<AudioLevel>,
    highlights: seq<Highlight>)

  /**
   * The collaborators of `processVideo`. The first three stages may fail;
   * the detectors swallow their own errors and answer a list. `run` is the
   * engine, `clipStamp(i)` and `thumbStamp(i)` the clock readings taken for
   * the `i`-th clip and thumbnail.
   */
  datatype Backend = Backend(
    videoInfo: string -> Outcome<VideoInfo>,
    extractAudio: string -> Outcome<string>,
    transcribe: string -> Outcome<Transcription>,
    sceneChanges: string -> seq<SceneChange>,
    silence: string -> seq<SilenceSegment>,
    audioLevels: string -> seq<AudioLevel>,
    run: Command -> bool,
    clipStamp: nat -> string,
    thumbStamp: nat -> string)

  /** The reports a callback receives over the first `n` steps of a run; none without a callback. */
  function StepReports(hasCallback: bool, n: nat): seq<Report>
    requires n <= |ProgressSteps|
  {
    if hasCallback then ProgressSteps[..n] else []
  }

  /** How many progress reports a run makes before it finishes or fails. */
  function StepsReached(b: Backend, videoPath: string): (n: nat)
    ensures 2 <= n <= |ProgressSteps|
  {
    if b.videoInfo(videoPath).Rejected? then 2
    else if b.extractAudio(videoPath).Rejected? then 3
    else if b.transcribe(b.extractAudio(videoPath).value).Rejected? then 4
    else 11
  }

  /** The outcome of `processVideo`: a failure of one of the first three stages, or the full result. */
  function ProcessOutcome(b: Backend, videoPath: string): Outcome<ProcessResult>
  {
    if StepsReached(b, videoPath) < 11 then Rejected
    else
      var info := b.videoInfo(videoPath).value;
      var transcription := b.transcribe(b.extractAudio(videoPath).value).value;
      var sceneChanges := b.sceneChanges(videoPath);
      var audioLevels := b.audioLevels(videoPath);
      var highlights := HighlightsOf(transcription, audioLevels, sceneChanges);
      var clips := OptimizedClips(videoPath, highlights, b.run, b.clipStamp);
      Resolved(ProcessResult(Thumbnailed(clips, b.run, b.thumbStamp), videoPath, info, transcription,
                             sceneChanges, b.silence(videoPath), audioLevels, highlights))
  }

  /** A processed video yields at most five clips, each 15 to 60 seconds long and starting at or after 0. */
  lemma ProcessedClipsFacts(b: Backend, videoPath: string)
    requires ProcessOutcome(b, videoPath).Resolved?
    ensures var clips := ProcessOutcome(b, videoPath).value.clips;
      && |clips| <= 5
      && forall k :: 0 <= k < |clips| ==>
           MinViralDuration <= clips[k].duration <= MaxViralDuration && clips[k].startTime >= 0.0
  {
    var r := ProcessOutcome(b, videoPath).value;
    HighlightsFacts(r.transcription, r.audioLevels, r.sceneChanges);
    var clips := OptimizedClips(videoPath, r.highlights, b.run, b.clipStamp);
    OptimizedClipsFacts(videoPath, r.highlights, b.run, b.clipStamp);
    assert r.clips == Thumbnailed(clips, b.run, b.thumbStamp);
    forall k | 0 <= k < |r.clips|
      ensures MinViralDuration <= r.clips[k].duration <= MaxViralDuration && r.clips[k].startTime >= 0.0
    {
      assert clips[k] in clips;
    }
  }

  class VideoProcessingService {
    var isProcessing: bool
    var currentProgress: int
    var hasProgressCallback: bool
    /** The calls the progress callback has received, oldest first. */
    var reported: seq<Report>

    constructor()
      ensures !isProcessing && currentProgress == 0 && !hasProgressCallback && reported == []
    {
      isProcessing := false;
      currentProgress := 0;
      hasProgressCallback := false;
      reported := [];
    }

    /** Installs (or, with `present == false`, removes) the progress callback. */
    method SetProgressCallback(present: bool)
      modifies this
      ensures hasProgressCallback == present
      ensures isProcessing == old(isProcessing) && currentProgress == old(currentProgress) && reported == old(reported)
    {
      hasProgressCallback := present;
    }

    /** Records the progress and passes it to the callback, if there is one. */
    method UpdateProgress(progress: int, status: string)
      modifies this
      ensures currentProgress == progress
      ensures reported == old(reported) + (if hasProgressCallback then [Report(progress, status)] else [])
      ensures isProcessing == old(isProcessing) && hasProgressCallback == old(hasProgressCallback)
    {
      currentProgress := progress;
      if hasProgressCallback {
        reported := reported + [Report(progress, status)];
      }
    }

    /** Reports step `n - 1` of the ladder; the reports so far then cover the first `n` steps. */
    method ReportStep(n: nat, ghost before: seq<Report>)
      requires 1 <= n <= |ProgressSteps|
      requires reported == before + StepReports(hasProgressCallback, n - 1)
      modifies this
      ensures reported == before + StepReports(hasProgressCallback, n)
      ensures currentProgress == ProgressSteps[n - 1].progress
      ensures isProcessing == old(isProcessing) && hasProgressCallback == old(hasProgressCallback)
    {
      assert ProgressSteps[..n] == ProgressSteps[..n - 1] + [ProgressSteps[n - 1]];
      UpdateProgress(ProgressSteps[n - 1].progress, ProgressSteps[n - 1].status);
    }

    /**
     * `processVideo`: reports the progress ladder in order, stops at the
     * first stage that fails, and is no longer processing afterwards
     * either way.
     */
    method ProcessVideo(videoPath: string, b: Backend) returns (result: Outcome<ProcessResult>)
      modifies this
      ensures result == ProcessOutcome(b, videoPath)
      ensures !isProcessing
      ensures hasProgressCallback == old(hasProgressCallback)
      ensures reported == old(reported) + StepReports(hasProgressCallback, StepsReached(b, videoPath))
      ensures currentProgress == ProgressSteps[StepsReached(b, videoPath) - 1].progress
    {
      ghost var before := reported;
      isProcessing := true;
      ReportStep(1, before);
      ReportStep(2, before);
      var videoInfo := b.videoInfo(videoPath);
      if videoInfo.Rejected? {
        assert StepsReached(b, videoPath) - 1 == 1;
        isProcessing := false;
        return Rejected;
      }
      ReportStep(3, before);
      var audioPath := b.extractAudio(videoPath);
      if audioPath.Rejected? {
        assert StepsReached(b, videoPath) - 1 == 2;
        isProcessing := false;
        return Rejected;
      }
      ReportStep(4, before);
      var transcription := b.transcribe(audioPath.value);
      if transcription.Rejected? {
        assert StepsReached(b, videoPath) - 1 == 3;
        isProcessing := false;
        return Rejected;
      }
      ReportStep(5, before);
      var sceneChanges := b.sceneChanges(videoPath);
      ReportStep(6, before);
      var silenceSegments := b.silence(videoPath);
      ReportStep(7, before);
      var audioLevels := b.audioLevels(videoPath);
      ReportStep(8, before);
      var highlights := FindHighlightMoments(transcription.value, audioLevels, sceneChanges);
      ReportStep(9, before);
      var clips := GenerateOptimizedClips(videoPath, highlights, b.run, b.clipStamp);
      ReportStep(10, before);
      var clipsWithThumbnails := AddThumbnailsToClips(clips, b.run, b.thumbStamp);
      ReportStep(11, before);
      assert StepsReached(b, videoPath) - 1 == 10;
      isProcessing := false;
      result := Resolved(ProcessResult(clipsWithThumbnails, videoPath, videoInfo.value, transcription.value,
                                       sceneChanges, silenceSegments, audioLevels, highlights));
    }

    /** `generateOptimizedClips`: one extraction per highlight; failures are skipped. */
    method GenerateOptimizedClips(videoPath: string, highlights: seq<Highlight>, extract: Command -> bool, stamp: nat -> string)
      returns (clips: seq<Clip>)
      ensures clips == OptimizedClips(videoPath, highlights, extract, stamp)
    {
      clips := [];
      ghost var planned := PlannedClips(highlights, stamp);
      ghost var p := (c: Clip) => extract(ExtractCommand(videoPath, c));
      for i := 0 to |highlights|
        invariant clips == Filter(planned[..i], p)
      {
        FilterPrefixStep(planned, p, i);
        var highlight := highlights[i];
        var clipDuration := highlight.endTime - highlight.startTime;
        var optimizedDuration := Min(Max(clipDuration, 15.0), 60.0);
        var optimizedStartTime := Max(0.0, highlight.startTime - (optimizedDuration - clipDuration) / 2.0);
        var clipPath := ClipsDir + "/clip_" + NatToString(i + 1) + "_" + stamp(i) + ".mp4";
        var clip := Clip("clip_" + NatToString(i + 1), clipPath, optimizedStartTime, optimizedDuration,
                         optimizedStartTime + optimizedDuration, highlight.score, highlight.text, highlight.reason,
                         "9:16", None);
        assert clip == planned[i];
        assert ExtractCommand(videoPath, clip) == CropVertical(videoPath, optimizedStartTime, optimizedDuration, clipPath);
        if extract(CropVertical(videoPath, optimizedStartTime, optimizedDuration, clipPath)) {
          clips := clips + [clip];
        }
      }
      assert planned[..|highlights|] == planned;
    }

    /** `addThumbnailsToClips`: captures the middle frame of every clip, keeping clips whose capture fails. */
    method AddThumbnailsToClips(clips: seq<Clip>, run: Command -> bool, stamp: nat -> string)
      returns (clipsWithThumbnails: seq<Clip>)
      ensures clipsWithThumbnails == Thumbnailed(clips, run, stamp)
    {
      clipsWithThumbnails := [];
      for i := 0 to |clips|
        invariant clipsWithThumbnails == Thumbnailed(clips, run, stamp)[..i]
      {
        var clip := clips[i];
        var thumbnailPath := ClipsDir + "/thumb_" + stamp(i) + ".jpg";
        if run(PortraitThumbnail(clip.path, clip.duration / 2.0, thumbnailPath)) {
          clipsWithThumbnails := clipsWithThumbnails + [clip.(thumbnail := Some(thumbnailPath))];
        } else {
          clipsWithThumbnails := clipsWithThumbnails + [clip];
        }
      }
    }

    /**
     * `analyzeVideoForBestClips`: processes the video, then keeps the best
     * clips within the length bounds; options that are missing or 0 take
     * the defaults 5, 15 and 60.
     */
    method AnalyzeVideoForBestClips(videoPath: string, b: Backend, maxClips: Option<int>,
                                    minClipDuration: Option<real>, maxClipDuration: Option<real>)
      returns (result: Outcome<ProcessResult>)
      modifies this
      ensures ProcessOutcome(b, videoPath).Rejected? ==> result.Rejected?
      ensures ProcessOutcome(b, videoPath).Resolved? ==>
        var processed := ProcessOutcome(b, videoPath).value;
        result == Resolved(processed.(clips := BestClips(processed.clips, ClipCount(maxClips),
                                                         OrDefault(minClipDuration, 15.0),
                                                         OrDefault(maxClipDuration, 60.0))))
      ensures !isProcessing && hasProgressCallback == old(hasProgressCallback)
      ensures reported == old(reported) + StepReports(hasProgressCallback, StepsReached(b, videoPath))
    {
      var n := if maxClips.Some? && maxClips.value != 0 then maxClips.value else 5;
      var lo := if minClipDuration.Some? && minClipDuration.value != 0.0 then minClipDuration.value else 15.0;
      var hi := if maxClipDuration.Some? && maxClipDuration.value != 0.0 then maxClipDuration.value else 60.0;
      var processed := ProcessVideo(videoPath, b);
      if processed.Rejected? {
        return Rejected;
      }
      var optimizedClips := Filter(processed.value.clips, (c: Clip) => lo <= c.duration <= hi);
      optimizedClips := Take(SortDesc(optimizedClips, ByClipScore), n);
      result := Resolved(processed.value.(clips := optimizedClips));
    }

    /** `cancelProcessing`: stops and resets progress; cleanup errors are swallowed. */
    method CancelProcessing()
      modifies this
      ensures !isProcessing && currentProgress == 0
      ensures hasProgressCallback == old(hasProgressCallback) && reported == old(reported)
    {
      isProcessing := false;
      currentProgress := 0;
    }
  }
}
