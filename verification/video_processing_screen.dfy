/**
 * The processing screen of the clip service: the remaining-time estimate
 * and its `Xm Ys` format, the step icons, the nine-step checklist and the
 * back and retry handlers.
 */
module VideoProcessingScreen {
  import opened Wrappers
  import opened Text

  /** Whole seconds, minutes and leftover seconds of a non-negative millisecond count. */
  function DurationParts(milliseconds: real): (parts: (nat, nat))
    requires milliseconds >= 0.0
    ensures parts.1 < 60
    ensures parts.0 * 60 + parts.1 == (milliseconds / 1000.0).Floor
  {
    var seconds := (milliseconds / 1000.0).Floor;
    (seconds / 60, seconds % 60)
  }

  /** `formatTime`: `"Xm Ys"` from one whole minute on, `"Ys"` below. */
  function FormatRemaining(milliseconds: real): string
    requires milliseconds >= 0.0
  {
    var (minutes, remainingSeconds) := DurationParts(milliseconds);
    if minutes > 0 then NatToString(minutes) + "m " + NatToString(remainingSeconds) + "s"
    else NatToString(remainingSeconds) + "s"
  }

  /** Under a minute the text is the whole seconds; from a minute on it splits into minutes and seconds that add back up. */
  lemma FormatRemainingReadsBack(milliseconds: real)
    requires milliseconds >= 0.0
    ensures var seconds := (milliseconds / 1000.0).Floor;
      seconds < 60 ==> FormatRemaining(milliseconds) == NatToString(seconds) + "s"
    ensures var seconds := (milliseconds / 1000.0).Floor;
      var parts := Split(FormatRemaining(milliseconds), ' ');
      seconds >= 60 ==>
        && |parts| == 2
        && parts[0] == NatToString(seconds / 60) + "m"
        && parts[1] == NatToString(seconds % 60) + "s"
  {
    var (minutes, secs) := DurationParts(milliseconds);
    if minutes > 0 {
      var m := NatToString(minutes) + "m";
      var s := NatToString(secs) + "s";
      assert ' ' !in m by {
        forall i | 0 <= i < |m|
          ensures m[i] != ' '
        {
          if i < |m| - 1 {
            assert IsDigit(NatToString(minutes)[i]);
          }
        }
      }
      assert ' ' !in s by {
        forall i | 0 <= i < |s|
          ensures s[i] != ' '
        {
          if i < |s| - 1 {
            assert IsDigit(NatToString(secs)[i]);
          }
        }
      }
      assert FormatRemaining(milliseconds) == m + [' '] + s;
      SplitAtFirstSeparator(m, ' ', s);
      SplitNoSeparator(s, ' ');
    }
  }

  /**
   * The estimate the progress callback keeps: the elapsed time scaled up
   * to 100 percent, minus the elapsed time, never below zero.
   */
  function EstimatedTimeLeft(elapsed: real, progress: real): (r: real)
    requires progress > 0.0
    ensures r >= 0.0
  {
    Max(0.0, (elapsed / progress) * 100.0 - elapsed)
  }

  /** Nothing is left once progress reaches 100. */
  lemma NothingLeftAtFull(elapsed: real, progress: real)
    requires elapsed >= 0.0 && progress >= 100.0
    ensures EstimatedTimeLeft(elapsed, progress) == 0.0
  {
    var q := elapsed / progress;
    assert q * progress == elapsed;
    assert q >= 0.0;
    assert q * 100.0 <= q * progress;
  }

  /** The phrases `getStepIcon` looks for, in the order it tries them, each with its icon. */
  const IconRules: seq<(string, string)> := [
    ("Starting", "play-arrow"), ("Extracting video", "info"), ("Extracting audio", "audiotrack"),
    ("Transcribing", "record-voice-over"), ("Detecting scene", "auto-awesome"), ("Analyzing silence", "volume-off"),
    ("Analyzing audio", "volume-up"), ("Finding highlight", "star"), ("Generating", "movie-creation"),
    ("Creating thumbnails", "image"), ("complete", "check-circle")]

  /** `getStepIcon`: the icon of the first listed phrase the status contains, `settings` when none. */
  function StepIcon(step: string): (r: string)
    ensures r == "play-arrow" <==> Contains(step, "Starting")
    ensures r == "settings" <==>
      && !Contains(step, "Starting") && !Contains(step, "Extracting video") && !Contains(step, "Extracting audio")
      && !Contains(step, "Transcribing") && !Contains(step, "Detecting scene") && !Contains(step, "Analyzing silence")
      && !Contains(step, "Analyzing audio") && !Contains(step, "Finding highlight") && !Contains(step, "Generating")
      && !Contains(step, "Creating thumbnails") && !Contains(step, "complete")
  {
    if Contains(step, "Starting") then "play-arrow"
    else if Contains(step, "Extracting video") then "info"
    else if Contains(step, "Extracting audio") then "audiotrack"
    else if Contains(step, "Transcribing") then "record-voice-over"
    else if Contains(step, "Detecting scene") then "auto-awesome"
    else if Contains(step, "Analyzing silence") then "volume-off"
    else if Contains(step, "Analyzing audio") then "volume-up"
    else if Contains(step, "Finding highlight") then "star"
    else if Contains(step, "Generating") then "movie-creation"
    else if Contains(step, "Creating thumbnails") then "image"
    else if Contains(step, "complete") then "check-circle"
    else "settings"
  }

  /** The status gets the icon of the first phrase of the table that it contains. */
  lemma StepIconFirstMatch(step: string, k: nat)
    requires k < |IconRules| && Contains(step, IconRules[k].0)
    requires forall j :: 0 <= j < k ==> !Contains(step, IconRules[j].0)
    ensures StepIcon(step) == IconRules[k].1
  {
    assert IconRules[0] == ("Starting", "play-arrow");
    assert IconRules[1] == ("Extracting video", "info");
    assert IconRules[2] == ("Extracting audio", "audiotrack");
    assert IconRules[3] == ("Transcribing", "record-voice-over");
    assert IconRules[4] == ("Detecting scene", "auto-awesome");
    assert IconRules[5] == ("Analyzing silence", "volume-off");
    assert IconRules[6] == ("Analyzing audio", "volume-up");
    assert IconRules[7] == ("Finding highlight", "star");
    assert IconRules[8] == ("Generating", "movie-creation");
    assert IconRules[9] == ("Creating thumbnails", "image");
    assert IconRules[10] == ("complete", "check-circle");
    assert k > 0 ==> !Contains(step, "Starting") by { if k > 0 { assert !Contains(step, IconRules[0].0); } }
    assert k > 1 ==> !Contains(step, "Extracting video") by { if k > 1 { assert !Contains(step, IconRules[1].0); } }
    assert k > 2 ==> !Contains(step, "Extracting audio") by { if k > 2 { assert !Contains(step, IconRules[2].0); } }
    assert k > 3 ==> !Contains(step, "Transcribing") by { if k > 3 { assert !Contains(step, IconRules[3].0); } }
    assert k > 4 ==> !Contains(step, "Detecting scene") by { if k > 4 { assert !Contains(step, IconRules[4].0); } }
    assert k > 5 ==> !Contains(step, "Analyzing silence") by { if k > 5 { assert !Contains(step, IconRules[5].0); } }
    assert k > 6 ==> !Contains(step, "Analyzing audio") by { if k > 6 { assert !Contains(step, IconRules[6].0); } }
    assert k > 7 ==> !Contains(step, "Finding highlight") by { if k > 7 { assert !Contains(step, IconRules[7].0); } }
    assert k > 8 ==> !Contains(step, "Generating") by { if k > 8 { assert !Contains(step, IconRules[8].0); } }
    assert k > 9 ==> !Contains(step, "Creating thumbnails") by { if k > 9 { assert !Contains(step, IconRules[9].0); } }
  }

  /** A status containing none of the phrases gets the `settings` icon. */
  lemma StepIconNoMatch(step: string)
    requires forall k :: 0 <= k < |IconRules| ==> !Contains(step, IconRules[k].0)
    ensures StepIcon(step) == "settings"
  {
    assert !Contains(step, IconRules[0].0);
    assert !Contains(step, IconRules[1].0);
    assert !Contains(step, IconRules[2].0);
    assert !Contains(step, IconRules[3].0);
    assert !Contains(step, IconRules[4].0);
    assert !Contains(step, IconRules[5].0);
    assert !Contains(step, IconRules[6].0);
    assert !Contains(step, IconRules[7].0);
    assert !Contains(step, IconRules[8].0);
    assert !Contains(step, IconRules[9].0);
    assert !Contains(step, IconRules[10].0);
  }

  /** "Starting" takes precedence: whatever else the status says, it shows the start icon. */
  lemma StartingWins(rest: string)
    ensures StepIcon("Starting" + rest) == "play-arrow"
  {
    assert IsPrefix("Starting", "Starting" + rest);
  }

  const ChecklistLength: nat := 9

  /** Where the progress falls on the nine-step checklist. */
  function StepProgress(progress: real): real
  {
    progress / 100.0 * 9.0
  }

  predicate StepCompleted(progress: real, index: nat)
  {
    StepProgress(progress) > index as real
  }

  predicate StepActive(progress: real, index: nat)
  {
    StepProgress(progress).Floor == index
  }

  /** The completed steps are always a prefix of the checklist. */
  lemma CompletedStepsArePrefix(progress: real, i: nat, j: nat)
    requires j <= i && StepCompleted(progress, i)
    ensures StepCompleted(progress, j)
  {
  }

  /** The active step counts as completed too unless the progress sits exactly on its boundary. */
  lemma ActiveAndCompleted(progress: real, index: nat)
    requires StepActive(progress, index)
    ensures StepCompleted(progress, index) <==> StepProgress(progress) != index as real
  {
  }

  /** At 50 percent, step 4 (the fifth) is both completed and active. */
  lemma HalfwayStepBoth()
    ensures StepCompleted(50.0, 4) && StepActive(50.0, 4)
  {
    assert StepProgress(50.0) == 4.5;
  }

  /** At 100 percent every step is completed and none is active. */
  lemma FullChecklist(index: nat)
    requires index < ChecklistLength
    ensures StepCompleted(100.0, index) && !StepActive(100.0, index)
  {
    assert StepProgress(100.0) == 9.0;
  }

  const StartingStep: string := "Starting analysis..."

  class ProcessingScreenState {
    var progress: real
    var currentStep: string
    var isProcessing: bool
    var error: Option<string>
    var estimatedTimeLeft: Option<real>

    constructor()
      ensures progress == 0.0 && currentStep == StartingStep && !isProcessing
      ensures error.None? && estimatedTimeLeft.None?
    {
      progress := 0.0;
      currentStep := StartingStep;
      isProcessing := false;
      error := None;
      estimatedTimeLeft := None;
    }

    /** The progress callback: shows the report and, past 0, refreshes the estimate from the elapsed time. */
    method OnProgress(reported: real, status: string, elapsed: real)
      modifies this
      ensures progress == reported && currentStep == status
      ensures reported > 0.0 ==> estimatedTimeLeft == Some(EstimatedTimeLeft(elapsed, reported))
      ensures reported <= 0.0 ==> estimatedTimeLeft == old(estimatedTimeLeft)
      ensures isProcessing == old(isProcessing) && error == old(error)
    {
      progress := reported;
      currentStep := status;
      if reported > 0.0 {
        estimatedTimeLeft := Some(EstimatedTimeLeft(elapsed, reported));
      }
    }

    /** `handleBackPress`: consumes the press (and offers to cancel) exactly while processing. */
    method HandleBackPress() returns (handled: bool)
      ensures handled == isProcessing
    {
      handled := isProcessing;
    }

    /** `handleRetry`: clears the error, resets the progress and step text, and starts processing again. */
    method HandleRetry()
      modifies this
      ensures error.None? && progress == 0.0 && currentStep == StartingStep && isProcessing
      ensures estimatedTimeLeft == old(estimatedTimeLeft)
    {
      error := None;
      progress := 0.0;
      currentStep := StartingStep;
      isProcessing := true;
    }
  }
}
