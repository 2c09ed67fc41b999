/**
 * The pipeline effect of the processing screen: speech and scene
 * detection, the sentinel clamp, scoring with 30-second windows and at most
 * five picks, clip extraction and thumbnails, then navigation to the
 * preview.
 */
module ProcessingScreen {
  import opened Wrappers
  import opened Sequences
  import opened Media
  import opened VideoProcessor
  import opened Analyzer

  /** JavaScript truthiness of the parsed duration: `None` stands for undefined or NaN. */
  predicate Truthy(durationSec: Option<real>)
  {
    durationSec.Some? && durationSec.value != 0.0
  }

  function ClampSentinel(sec: Section, durationSec: real): Section
  {
    if sec.end == MaxSafeInteger then Section(sec.start, durationSec) else sec
  }

  /** The speech sections as the screen hands them to scoring. */
  function ClampedSections(secs: seq<Section>, durationSec: Option<real>): (r: seq<Section>)
    ensures |r| == |secs|
    ensures forall k :: 0 <= k < |secs| ==> r[k].start == secs[k].start
    ensures forall k :: 0 <= k < |secs| && secs[k].end != MaxSafeInteger ==> r[k] == secs[k]
    ensures !Truthy(durationSec) ==> r == secs
    ensures Truthy(durationSec) ==>
      forall k :: 0 <= k < |secs| && secs[k].end == MaxSafeInteger ==> r[k].end == durationSec.value
  {
    if Truthy(durationSec) then ClampAll(secs, durationSec.value) else secs
  }

  /** Every sentinel end replaced by `durationSec`. */
  function ClampAll(secs: seq<Section>, durationSec: real): seq<Section>
  {
    seq(|secs|, k requires 0 <= k < |secs| => ClampSentinel(secs[k], durationSec))
  }

  /** Once clamped with a known duration below the sentinel, no section ends at the sentinel. */
  lemma ClampRemovesSentinel(secs: seq<Section>, durationSec: Option<real>)
    requires Truthy(durationSec) && durationSec.value != MaxSafeInteger
    ensures forall sec :: sec in ClampedSections(secs, durationSec) ==> sec.end != MaxSafeInteger
  {
    var r := ClampedSections(secs, durationSec);
    forall sec | sec in r
      ensures sec.end != MaxSafeInteger
    {
      var k :| 0 <= k < |r| && r[k] == sec;
    }
  }

  /** Clamping twice with the same duration is clamping once. */
  lemma ClampIdempotent(secs: seq<Section>, durationSec: Option<real>)
    requires Truthy(durationSec) ==> durationSec.value != MaxSafeInteger
    ensures ClampedSections(ClampedSections(secs, durationSec), durationSec) == ClampedSections(secs, durationSec)
  {
  }

  /** The in-place clamp inside the `if (durationSec)` branch. */
  method ClampSentinels(secs: array<Section>, durationSec: real)
    modifies secs
    ensures secs[..] == ClampAll(old(secs[..]), durationSec)
  {
    for i := 0 to secs.Length
      invariant forall k :: 0 <= k < i ==> secs[k] == ClampSentinel(old(secs[k]), durationSec)
      invariant forall k :: i <= k < secs.Length ==> secs[k] == old(secs[k])
    {
      if secs[i].end == MaxSafeInteger {
        secs[i] := Section(secs[i].start, durationSec);
      }
    }
    assert secs[..] == ClampAll(old(secs[..]), durationSec);
  }

  /** Thumbnails are taken half a second into each selected window. */
  function ThumbTimes(windows: seq<ClipWindow>): (r: seq<real>)
    ensures |r| == |windows|
    ensures forall k :: 0 <= k < |windows| && windows[k].duration > 0.5 ==>
      windows[k].start < r[k] < windows[k].start + windows[k].duration
  {
    seq(|windows|, k requires 0 <= k < |windows| => windows[k].start + 0.5)
  }

  const ScoringWindowSize: real := 30.0
  const ScoringTopK: int := 5

  /** The stage texts shown before navigation, in order. */
  const Starting: string := "Starting..."
  const DetectingSilence: string := "Detecting silence..."
  const DetectingScenes: string := "Detecting scene changes..."
  const Scoring: string := "Scoring highlights..."
  const GeneratingClips: string := "Generating clips..."
  const GeneratingThumbnails: string := "Generating thumbnails..."
  const FailureText: string := "Processing failed"
  const StageTexts: seq<string> := [Starting, DetectingSilence, DetectingScenes, Scoring, GeneratingClips, GeneratingThumbnails]

  lemma StageTextsInOrder()
    ensures [Starting] + [DetectingSilence, DetectingScenes, Scoring] + [GeneratingClips, GeneratingThumbnails] == StageTexts
  {
  }

  function DecodedSpeech(videoUri: string, run: Command -> Outcome<RunLog>): seq<Section>
  {
    var reply := run(SpeechCommand(videoUri, DefaultNoiseDb, DefaultMinSilence));
    if reply.Rejected? then [] else SpeechSectionsOf(reply.value.logs)
  }

  function DecodedScenes(videoUri: string, run: Command -> Outcome<RunLog>): seq<real>
  {
    var reply := run(SceneCommand(videoUri, DefaultSceneThreshold));
    if reply.Rejected? then [] else SceneTimesOf(reply.value.logs)
  }

  /** The windows the pipeline selects for a video. */
  function PipelineWindows(videoUri: string, durationSec: Option<real>, run: Command -> Outcome<RunLog>): (r: seq<ClipWindow>)
    ensures |r| <= 5
    ensures Spread(r, 30.0)
    ensures forall w :: w in r ==> w.duration == 30.0
  {
    var sections := ClampedSections(DecodedSpeech(videoUri, run), durationSec);
    HighlightWindowsFacts(sections, DecodedScenes(videoUri, run), ScoringWindowSize, ScoringTopK);
    HighlightWindows(sections, DecodedScenes(videoUri, run), ScoringWindowSize, ScoringTopK)
  }

  /**
   * Scoring pushes every candidate window into one array; the run gets past
   * scoring only when they fit in a JavaScript array.
   */
  predicate CandidatesFit(videoUri: string, durationSec: Option<real>, run: Command -> Outcome<RunLog>)
  {
    |SectionsCandidates(ClampedSections(DecodedSpeech(videoUri, run), durationSec), DecodedScenes(videoUri, run), ScoringWindowSize)|
      <= MaxArrayLength
  }

  /**
   * Without a usable duration the sentinel end is never clamped, and a
   * speech section left open at the sentinel yields more candidate windows
   * than an array can hold.
   */
  lemma UnknownDurationOverflows(videoUri: string, durationSec: Option<real>, run: Command -> Outcome<RunLog>, k: nat)
    requires !Truthy(durationSec)
    requires k < |DecodedSpeech(videoUri, run)| && DecodedSpeech(videoUri, run)[k].end == MaxSafeInteger
    requires 0.0 <= DecodedSpeech(videoUri, run)[k].start <= 1000000000000000.0
    ensures !CandidatesFit(videoUri, durationSec, run)
  {
    var secs := DecodedSpeech(videoUri, run);
    assert ClampedSections(secs, durationSec) == secs;
    assert secs[k] == Section(secs[k].start, MaxSafeInteger);
    SentinelSectionOverflows(secs[k].start, DecodedScenes(videoUri, run));
    SectionCandidatesIncluded(secs, DecodedScenes(videoUri, run), ScoringWindowSize, k);
  }

  datatype PipelineResult = Navigated(clips: seq<string>, thumbs: seq<string>) | Failed

  /** What scoring hands on: no windows when it throws, the pipeline's windows otherwise. */
  function ScoredWindows(videoUri: string, durationSec: Option<real>, run: Command -> Outcome<RunLog>): (r: Option<seq<ClipWindow>>)
    ensures r.None? <==> !CandidatesFit(videoUri, durationSec, run)
    ensures r.Some? ==> |r.value| <= 5
  {
    if CandidatesFit(videoUri, durationSec, run) then Some(PipelineWindows(videoUri, durationSec, run)) else None
  }

  lemma ScoredWindowsOf(videoUri: string, durationSec: Option<real>, run: Command -> Outcome<RunLog>,
                        sections: seq<Section>, sceneTimes: seq<real>)
    requires sections == ClampedSections(DecodedSpeech(videoUri, run), durationSec)
    requires sceneTimes == DecodedScenes(videoUri, run)
    ensures ScoredWindows(videoUri, durationSec, run)
         == if |SectionsCandidates(sections, sceneTimes, ScoringWindowSize)| > MaxArrayLength then None
            else Some(HighlightWindows(sections, sceneTimes, ScoringWindowSize, ScoringTopK))
  {
  }

  /**
   * The analysis half of the `process` effect: speech detection, the
   * sentinel clamp when the duration is truthy, scene detection and scoring,
   * each stage announced by its progress text. Scoring throws (no windows)
   * when its candidates overflow the array that collects them: `push`
   * raises a `RangeError` past `MaxArrayLength` elements.
   */
  method AnalyzeStages(videoUri: string, durationSec: Option<real>, run: Command -> Outcome<RunLog>, textsBefore: seq<string>)
    returns (windows: Option<seq<ClipWindow>>, texts: seq<string>)
    ensures windows == ScoredWindows(videoUri, durationSec, run)
    ensures texts == textsBefore + [DetectingSilence, DetectingScenes, Scoring]
  {
    texts := textsBefore + [DetectingSilence];
    var speech := DetectSpeechSections(videoUri, DefaultNoiseDb, DefaultMinSilence, run);
    var secs := new Section[|speech|](k requires 0 <= k < |speech| => speech[k]);
    assert secs[..] == speech;
    if Truthy(durationSec) {
      ClampSentinels(secs, durationSec.value);
    }
    texts := texts + [DetectingScenes];
    var sceneTimes := DetectSceneChanges(videoUri, DefaultSceneThreshold, run);
    texts := texts + [Scoring];
    ScoredWindowsOf(videoUri, durationSec, run, secs[..], sceneTimes);
    if |SectionsCandidates(secs[..], sceneTimes, ScoringWindowSize)| > MaxArrayLength {
      return None, texts;
    }
    var selected := ScoreHighlightWindows(secs[..], sceneTimes, ScoringWindowSize, ScoringTopK);
    windows := Some(selected);
  }

  /** Some thumbnail capture's engine call throws. */
  predicate CaptureThrows(videoUri: string, windows: seq<ClipWindow>, run: Command -> Outcome<RunLog>, thumbIds: nat -> string)
  {
    exists k :: 0 <= k < |windows| && run(ThumbCommand(videoUri, ThumbTimes(windows)[k], thumbIds(k))).Rejected?
  }

  /** What navigation hands to the preview: the clips that were cut and the thumbnails that exist. */
  predicate NavigatesWith(result: PipelineResult, videoUri: string, windows: seq<ClipWindow>, runFFmpeg: Command -> bool,
                          fileExists: string -> bool, clipIds: nat -> string, thumbIds: nat -> string)
  {
    result.Navigated? ==>
      && result.clips == SucceededClips(videoUri, windows, runFFmpeg, clipIds)
      && result.thumbs == Filter(ThumbPaths(|windows|, thumbIds), fileExists)
      && |result.clips| <= 5 && |result.thumbs| <= 5
  }

  /**
   * The generation half of the `process` effect: clips, then thumbnails at
   * half a second into each window. It fails exactly when one capture's
   * engine call throws (the engine wrapper never throws for clips).
   */
  method GenerateStages(videoUri: string, windows: seq<ClipWindow>, run: Command -> Outcome<RunLog>,
                        runFFmpeg: Command -> bool, fileExists: string -> bool,
                        clipIds: nat -> string, thumbIds: nat -> string, textsBefore: seq<string>)
    returns (result: PipelineResult, texts: seq<string>)
    requires |windows| <= 5
    ensures result.Failed? <==> CaptureThrows(videoUri, windows, run, thumbIds)
    ensures NavigatesWith(result, videoUri, windows, runFFmpeg, fileExists, clipIds, thumbIds)
    ensures texts == textsBefore + [GeneratingClips, GeneratingThumbnails] + (if result.Failed? then [FailureText] else [])
  {
    texts := textsBefore + [GeneratingClips];
    var clips, _ := GenerateHighlightClips(videoUri, windows, runFFmpeg, clipIds);
    texts := texts + [GeneratingThumbnails];
    var thumbTimes := ThumbTimes(windows);
    var thumbs := GenerateThumbnails(videoUri, thumbTimes, run, fileExists, thumbIds);
    if thumbs.Rejected? {
      texts := texts + [FailureText];
      return Failed, texts;
    }
    result := Navigated(clips, thumbs.value);
  }

  /** The texts shown when scoring throws: the stages up to scoring, then the failure. */
  const ScoringFailedTexts: seq<string> := [Starting, DetectingSilence, DetectingScenes, Scoring, FailureText]

  lemma ScoringFailedTextsInOrder()
    ensures [Starting] + [DetectingSilence, DetectingScenes, Scoring] + [FailureText] == ScoringFailedTexts
  {
  }

  /**
   * The `process` effect. Scoring throws when its candidates overflow an
   * array, and thumbnail capture throws when one capture's engine call
   * throws (the decoders catch their own errors, the engine wrapper never
   * throws); the pipeline fails exactly then. Otherwise it navigates with
   * the successful clips and the existing thumbnails. `texts` is the
   * sequence of progress texts shown.
   */
  method Process(videoUri: string, durationSec: Option<real>, run: Command -> Outcome<RunLog>,
                 runFFmpeg: Command -> bool, fileExists: string -> bool,
                 clipIds: nat -> string, thumbIds: nat -> string)
    returns (result: PipelineResult, texts: seq<string>)
    ensures var scored := ScoredWindows(videoUri, durationSec, run);
      && (scored.None? ==> result == Failed && texts == ScoringFailedTexts)
      && (scored.Some? ==> (result.Failed? <==> CaptureThrows(videoUri, scored.value, run, thumbIds)))
      && (scored.Some? ==> NavigatesWith(result, videoUri, scored.value, runFFmpeg, fileExists, clipIds, thumbIds))
      && (scored.Some? ==> texts == StageTexts + (if result.Failed? then [FailureText] else []))
  {
    var scored;
    scored, texts := AnalyzeStages(videoUri, durationSec, run, [Starting]);
    if scored.None? {
      ScoringFailedTextsInOrder();
      texts := texts + [FailureText];
      return Failed, texts;
    }
    StageTextsInOrder();
    result, texts := GenerateStages(videoUri, scored.value, run, runFFmpeg, fileExists, clipIds, thumbIds, texts);
  }
}
