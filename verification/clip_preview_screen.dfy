/**
 * The clip preview: the `m:ss` clock, the score bands and the playback and
 * selection state.
 */
module ClipPreviewScreen {
  import opened Wrappers
  import opened Text
  import opened VideoProcessingService

  /** Whole minutes and the whole seconds left over (`Math.floor(seconds % 60)`), for a non-negative time. */
  function ClockParts(seconds: real): (parts: (nat, nat))
    requires seconds >= 0.0
    ensures parts.1 < 60
    ensures parts.0 * 60 + parts.1 == seconds.Floor
  {
    var mins := (seconds / 60.0).Floor;
    var rest := seconds - 60.0 * (mins as real);
    assert 0.0 <= rest < 60.0;
    var secs := rest.Floor;
    assert (rest + 60.0 * (mins as real)).Floor == secs + 60 * mins;
    (mins, secs)
  }

  /** `formatTime`: minutes, a colon, and the seconds padded to two digits. */
  function FormatClock(seconds: real): string
    requires seconds >= 0.0
  {
    var (mins, secs) := ClockParts(seconds);
    NatToString(mins) + ":" + Pad2(NatToString(secs))
  }

  /** The clock reads back: split at the colon, the two numbers give the whole seconds again. */
  lemma FormatClockReadsBack(seconds: real)
    requires seconds >= 0.0
    ensures var parts := Split(FormatClock(seconds), ':');
      && |parts| == 2 && |parts[1]| == 2
      && (forall i :: 0 <= i < |parts[0]| ==> IsDigit(parts[0][i]))
      && (forall i :: 0 <= i < |parts[1]| ==> IsDigit(parts[1][i]))
      && ParseNat(parts[1]) < 60
      && ParseNat(parts[0]) * 60 + ParseNat(parts[1]) == seconds.Floor
  {
    var (mins, secs) := ClockParts(seconds);
    var m, s := NatToString(mins), Pad2(NatToString(secs));
    assert ':' !in m by {
      forall i | 0 <= i < |m|
        ensures m[i] != ':'
      {
        assert IsDigit(m[i]);
      }
    }
    ParsePaddedNat(secs);
    assert ':' !in s by {
      forall i | 0 <= i < |s|
        ensures s[i] != ':'
      {
        assert IsDigit(s[i]);
      }
    }
    SplitAtFirstSeparator(m, ':', s);
    SplitNoSeparator(s, ':');
    ParseNatOfNatToString(mins);
    assert FormatClock(seconds) == m + [':'] + s;
  }

  const Teal: string := "#4ECDC4"
  const Orange: string := "#FFA726"
  const Red: string := "#FF6B6B"

  /** `getScoreColor`: above 0.8, above 0.6, otherwise. */
  function ScoreColor(score: real): (r: string)
    ensures r == Teal <==> score > 0.8
    ensures r == Orange <==> 0.6 < score <= 0.8
    ensures r == Red <==> score <= 0.6
  {
    if score > 0.8 then Teal else if score > 0.6 then Orange else Red
  }

  /** `getScoreLabel`: the same bands as the colour. */
  function ScoreLabel(score: real): (r: string)
    ensures r == "Excellent" <==> score > 0.8
    ensures r == "Good" <==> 0.6 < score <= 0.8
    ensures r == "Fair" <==> score <= 0.6
  {
    if score > 0.8 then "Excellent" else if score > 0.6 then "Good" else "Fair"
  }

  /** Colour and label always name the same band. */
  lemma BandsAgree(score: real)
    ensures ScoreColor(score) == Teal <==> ScoreLabel(score) == "Excellent"
    ensures ScoreColor(score) == Orange <==> ScoreLabel(score) == "Good"
    ensures ScoreColor(score) == Red <==> ScoreLabel(score) == "Fair"
  {
  }

  /** The route to the export screen with the clips to export and the whole list. */
  datatype ExportRoute = ExportRoute(selectedClips: seq<Clip>, allClips: seq<Clip>)

  class ClipPreviewState {
    const clips: seq<Clip>
    var selectedClip: Option<Clip>
    var isPlaying: bool
    var currentTime: real

    /** The first clip is selected, paused at the start; nothing is selected when there are no clips. */
    constructor(clips: seq<Clip>)
      ensures this.clips == clips
      ensures selectedClip == if |clips| > 0 then Some(clips[0]) else None
      ensures !isPlaying && currentTime == 0.0
    {
      this.clips := clips;
      selectedClip := if |clips| > 0 then Some(clips[0]) else None;
      isPlaying := false;
      currentTime := 0.0;
    }

    method HandlePlayPause()
      modifies this
      ensures isPlaying == !old(isPlaying)
      ensures selectedClip == old(selectedClip) && currentTime == old(currentTime)
    {
      isPlaying := !isPlaying;
    }

    /** Selecting a clip pauses playback and rewinds to the start. */
    method HandleClipSelect(clip: Clip)
      modifies this
      ensures selectedClip == Some(clip) && !isPlaying && currentTime == 0.0
    {
      selectedClip := Some(clip);
      isPlaying := false;
      currentTime := 0.0;
    }

    method HandleExport(clip: Clip) returns (route: ExportRoute)
      ensures route.selectedClips == [clip] && route.allClips == clips
    {
      route := ExportRoute([clip], clips);
    }

    method HandleExportAll() returns (route: ExportRoute)
      ensures route.selectedClips == clips && route.allClips == clips
    {
      route := ExportRoute(clips, clips);
    }
  }

  /** Pressing play/pause twice restores the state. */
  method PlayPauseTwice(preview: ClipPreviewState)
    modifies preview
    ensures preview.isPlaying == old(preview.isPlaying)
    ensures preview.selectedClip == old(preview.selectedClip) && preview.currentTime == old(preview.currentTime)
  {
    preview.HandlePlayPause();
    preview.HandlePlayPause();
  }
}
