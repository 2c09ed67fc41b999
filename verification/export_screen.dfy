/**
 * The export screen: where each clip is copied to and under which name,
 * the optional subtitle pass, and the loop that exports the selection
 * while reporting progress.
 */
module ExportScreen {
  import opened Wrappers
  import opened Text
  import opened Media
  import opened VideoProcessingService

  /** The choices that affect what `exportClip` does. */
  datatype ExportSettings = ExportSettings(isAndroid: bool, exportFormat: string, addSubtitles: bool)

  /** The ISO timestamp with every `:` and `.` turned into `-`. */
  function ExportTimestamp(iso: string): (r: string)
    ensures |r| == |iso| && ':' !in r && '.' !in r
    ensures forall i :: 0 <= i < |iso| && iso[i] != ':' && iso[i] != '.' ==> r[i] == iso[i]
    ensures forall i :: 0 <= i < |iso| && (iso[i] == ':' || iso[i] == '.') ==> r[i] == '-'
  {
    ReplaceChars(iso, {':', '.'}, '-')
  }

  function ExportFileName(index: nat, iso: string, format: string): string
  {
    "ViralityClip_" + NatToString(index + 1) + "_" + ExportTimestamp(iso) + "." + format
  }

  /** Downloads on Android, Documents elsewhere. */
  function ExportDirectory(isAndroid: bool): string
  {
    if isAndroid then DownloadDirectoryPath else DocumentDirectoryPath
  }

  function ExportPath(index: nat, iso: string, settings: ExportSettings): string
  {
    ExportDirectory(settings.isAndroid) + "/" + ExportFileName(index, iso, settings.exportFormat)
  }

  /** A run of digits followed by `_` is read back unambiguously. */
  lemma DigitsPrefixUnique(a: string, x: string, b: string, y: string)
    requires forall i :: 0 <= i < |a| ==> IsDigit(a[i])
    requires forall i :: 0 <= i < |b| ==> IsDigit(b[i])
    requires a + "_" + x == b + "_" + y
    ensures a == b
  {
    var s := a + "_" + x;
    assert s == b + "_" + y;
    assert s[|a|] == '_' && s[|b|] == '_';
    assert |a| < |b| ==> IsDigit(s[|a|]);
    assert |b| < |a| ==> IsDigit(s[|b|]);
    assert s[..|a|] == a;
    assert s[..|b|] == b;
  }

  /** String regrouping used to peel the fixed prefix off an export file name. */
  lemma NameRegroup(p: string, n: string, ts: string, f: string)
    ensures p + n + "_" + ts + "." + f == p + (n + "_" + (ts + "." + f))
    ensures (p + (n + "_" + (ts + "." + f)))[|p|..] == n + "_" + (ts + "." + f)
  {
  }

  /** Two clips of one batch never get the same file name, even within the same millisecond. */
  lemma ExportFileNamesDistinct(i: nat, j: nat, iso1: string, iso2: string, format: string)
    requires i != j
    ensures ExportFileName(i, iso1, format) != ExportFileName(j, iso2, format)
  {
    var a, b := NatToString(i + 1), NatToString(j + 1);
    var t1, t2 := ExportTimestamp(iso1), ExportTimestamp(iso2);
    var p := "ViralityClip_";
    NameRegroup(p, a, t1, format);
    NameRegroup(p, b, t2, format);
    if ExportFileName(i, iso1, format) == ExportFileName(j, iso2, format) {
      DigitsPrefixUnique(a, t1 + "." + format, b, t2 + "." + format);
      ParseNatOfNatToString(i + 1);
      ParseNatOfNatToString(j + 1);
    }
  }

  /**
   * `exportClip`: copy the clip to its export path, then, with subtitles on
   * and a non-empty clip text, run the enhancement on the copy. Any failure
   * gives no path.
   */
  function ExportOutcome(clip: Clip, index: nat, iso: string, settings: ExportSettings,
                         copy: (string, string) -> bool, overlay: Command -> bool): (r: Option<string>)
    ensures r.Some? ==> copy(clip.path, ExportPath(index, iso, settings))
    ensures r.Some? ==> r.value == ExportPath(index, iso, settings) || r.value == EnhancedPath(ExportPath(index, iso, settings))
    ensures r.Some? <==>
      && copy(clip.path, ExportPath(index, iso, settings))
      && (settings.addSubtitles && clip.text != "" ==>
            overlay(TextOverlay(ExportPath(index, iso, settings), clip.text, EnhancedPath(ExportPath(index, iso, settings)))))
    ensures copy(clip.path, ExportPath(index, iso, settings)) && !(settings.addSubtitles && clip.text != "") ==>
      r == Some(ExportPath(index, iso, settings))
    ensures r.Some? && settings.addSubtitles && clip.text != "" ==> r.value == EnhancedPath(ExportPath(index, iso, settings))
  {
    var exportPath := ExportPath(index, iso, settings);
    if !copy(clip.path, exportPath) then None
    else if settings.addSubtitles && clip.text != "" then
      var enhanced := EnhanceClip(exportPath, true, clip.text, overlay);
      if enhanced.Resolved? then Some(enhanced.value) else None
    else Some(exportPath)
  }

  /** The export path up to its extension has no dot. */
  lemma ExportBaseHasNoDot(dir: string, n: string, ts: string)
    requires dir == DownloadDirectoryPath || dir == DocumentDirectoryPath
    requires forall i :: 0 <= i < |n| ==> IsDigit(n[i])
    requires '.' !in ts
    ensures '.' !in dir + "/ViralityClip_" + n + "_" + ts
  {
    assert '.' !in n by {
      forall i | 0 <= i < |n|
        ensures n[i] != '.'
      {
        assert IsDigit(n[i]);
      }
    }
    assert '.' !in dir;
    assert '.' !in dir + "/ViralityClip_";
    assert '.' !in dir + "/ViralityClip_" + n;
  }

  lemma Mp4PathShape(dir: string, n: string, ts: string)
    ensures dir + "/" + ("ViralityClip_" + n + "_" + ts + "." + "mp4") == dir + "/ViralityClip_" + n + "_" + ts + ".mp4"
  {
    var name := "ViralityClip_" + n + "_" + ts;
    assert "." + "mp4" == ".mp4";
    assert dir + "/" + (name + ".mp4") == dir + "/" + name + ".mp4";
  }

  /** The export path of an `.mp4` export has no dot before its extension. */
  lemma Mp4ExportPath(index: nat, iso: string, settings: ExportSettings)
    requires settings.exportFormat == "mp4"
    ensures var base := ExportDirectory(settings.isAndroid) + "/ViralityClip_" + NatToString(index + 1) + "_" + ExportTimestamp(iso);
      '.' !in base && ExportPath(index, iso, settings) == base + ".mp4"
  {
    var dir := ExportDirectory(settings.isAndroid);
    var n := NatToString(index + 1);
    var ts := ExportTimestamp(iso);
    ExportBaseHasNoDot(dir, n, ts);
    Mp4PathShape(dir, n, ts);
  }

  /** With subtitles on an `.mp4` export, the file handed back is the `_enhanced.mp4` copy. */
  lemma SubtitledMp4Export(clip: Clip, index: nat, iso: string, settings: ExportSettings,
                           copy: (string, string) -> bool, overlay: Command -> bool)
    requires settings.exportFormat == "mp4" && settings.addSubtitles && clip.text != ""
    requires copy(clip.path, ExportPath(index, iso, settings))
    requires overlay(TextOverlay(ExportPath(index, iso, settings), clip.text, EnhancedPath(ExportPath(index, iso, settings))))
    ensures ExportOutcome(clip, index, iso, settings, copy, overlay) ==
      Some(ExportDirectory(settings.isAndroid) + "/ViralityClip_" + NatToString(index + 1) + "_" + ExportTimestamp(iso) + "_enhanced.mp4")
  {
    var base := ExportDirectory(settings.isAndroid) + "/ViralityClip_" + NatToString(index + 1) + "_" + ExportTimestamp(iso);
    Mp4ExportPath(index, iso, settings);
    EnhancedPathOfMp4(base);
  }

  datatype ExportedClip = ExportedClip(clip: Clip, exportPath: string)

  /** The clips of the selection whose export gave a path, in selection order, with their paths. */
  function ExportedClips(selectedClips: seq<Clip>, settings: ExportSettings, stamp: nat -> string,
                         copy: (string, string) -> bool, overlay: Command -> bool): (r: seq<ExportedClip>)
    ensures |r| <= |selectedClips|
  {
    if selectedClips == [] then []
    else
      var n := |selectedClips| - 1;
      var outcome := ExportOutcome(selectedClips[n], n, stamp(n), settings, copy, overlay);
      ExportedClips(selectedClips[..n], settings, stamp, copy, overlay)
        + (if outcome.Some? then [ExportedClip(selectedClips[n], outcome.value)] else [])
  }

  /** Every exported entry is a clip of the selection with the path its own export gave. */
  lemma {:induction false} ExportedClipsSound(selectedClips: seq<Clip>, settings: ExportSettings, stamp: nat -> string,
                                              copy: (string, string) -> bool, overlay: Command -> bool)
    ensures forall e :: e in ExportedClips(selectedClips, settings, stamp, copy, overlay) ==>
      exists k :: 0 <= k < |selectedClips| && e.clip == selectedClips[k] &&
        ExportOutcome(selectedClips[k], k, stamp(k), settings, copy, overlay) == Some(e.exportPath)
  {
    if selectedClips != [] {
      var n := |selectedClips| - 1;
      assert forall k :: 0 <= k < n ==> selectedClips[..n][k] == selectedClips[k];
      ExportedClipsSound(selectedClips[..n], settings, stamp, copy, overlay);
    }
  }

  /** Every clip of the selection whose export gave a path is among the exported entries, with that path. */
  lemma {:induction false} ExportedClipsComplete(selectedClips: seq<Clip>, settings: ExportSettings, stamp: nat -> string,
                                                 copy: (string, string) -> bool, overlay: Command -> bool, k: nat)
    requires k < |selectedClips|
    requires ExportOutcome(selectedClips[k], k, stamp(k), settings, copy, overlay).Some?
    ensures ExportedClip(selectedClips[k], ExportOutcome(selectedClips[k], k, stamp(k), settings, copy, overlay).value)
      in ExportedClips(selectedClips, settings, stamp, copy, overlay)
  {
    var n := |selectedClips| - 1;
    if k < n {
      assert selectedClips[..n][k] == selectedClips[k];
      ExportedClipsComplete(selectedClips[..n], settings, stamp, copy, overlay, k);
    }
  }

  /** When every export succeeds, every clip of the selection is exported, in order. */
  lemma {:induction false} AllExported(selectedClips: seq<Clip>, settings: ExportSettings, stamp: nat -> string,
                                       copy: (string, string) -> bool, overlay: Command -> bool)
    requires forall k :: 0 <= k < |selectedClips| ==> ExportOutcome(selectedClips[k], k, stamp(k), settings, copy, overlay).Some?
    ensures var r := ExportedClips(selectedClips, settings, stamp, copy, overlay);
      |r| == |selectedClips| && forall k :: 0 <= k < |r| ==> r[k].clip == selectedClips[k]
  {
    if selectedClips != [] {
      var n := |selectedClips| - 1;
      assert forall k :: 0 <= k < n ==> selectedClips[..n][k] == selectedClips[k];
      AllExported(selectedClips[..n], settings, stamp, copy, overlay);
    }
  }

  function Paths(exported: seq<ExportedClip>): (r: seq<string>)
    ensures |r| == |exported| && forall k :: 0 <= k < |r| ==> r[k] == exported[k].exportPath
  {
    seq(|exported|, k requires 0 <= k < |exported| => exported[k].exportPath)
  }

  /** The progress shown once `done` of `total` clips have been handled. */
  function ExportProgressAfter(done: nat, total: nat): (r: real)
    requires 0 < done <= total
    ensures 0.0 < r <= 100.0
    ensures done == total ==> r == 100.0
  {
    (done as real) / (total as real) * 100.0
  }

  /** One more clip handled: the exported entries and their paths grow together. */
  lemma ExportStep(selectedClips: seq<Clip>, i: nat, settings: ExportSettings, stamp: nat -> string,
                   copy: (string, string) -> bool, overlay: Command -> bool,
                   outcome: Option<string>, done: seq<ExportedClip>, paths: seq<string>)
    requires i < |selectedClips|
    requires outcome == ExportOutcome(selectedClips[i], i, stamp(i), settings, copy, overlay)
    requires done == ExportedClips(selectedClips[..i], settings, stamp, copy, overlay)
    requires paths == Paths(done)
    ensures ExportedClips(selectedClips[..i + 1], settings, stamp, copy, overlay)
         == done + (if outcome.Some? then [ExportedClip(selectedClips[i], outcome.value)] else [])
    ensures Paths(done + (if outcome.Some? then [ExportedClip(selectedClips[i], outcome.value)] else []))
         == paths + (if outcome.Some? then [outcome.value] else [])
  {
    assert selectedClips[..i + 1][..i] == selectedClips[..i];
    PathsAppend(done, if outcome.Some? then [ExportedClip(selectedClips[i], outcome.value)] else []);
  }

  lemma PathsAppend(done: seq<ExportedClip>, added: seq<ExportedClip>)
    ensures Paths(done + added) == Paths(done) + Paths(added)
  {
  }

  class ExportScreenState {
    var exportProgress: real
    var isExporting: bool
    var exportedClips: seq<ExportedClip>
    var currentExportIndex: nat

    constructor()
      ensures exportProgress == 0.0 && !isExporting && exportedClips == [] && currentExportIndex == 0
    {
      exportProgress := 0.0;
      isExporting := false;
      exportedClips := [];
      currentExportIndex := 0;
    }

    /**
     * `handleExport`: exports the selection one clip at a time; the paths
     * are those of the exports that succeeded, the progress reaches 100 on
     * a non-empty selection, and exporting is over at the end.
     */
    method HandleExport(selectedClips: seq<Clip>, settings: ExportSettings, stamp: nat -> string,
                        copy: (string, string) -> bool, overlay: Command -> bool)
      returns (exportedPaths: seq<string>)
      modifies this
      ensures exportedClips == ExportedClips(selectedClips, settings, stamp, copy, overlay)
      ensures exportedPaths == Paths(exportedClips)
      ensures !isExporting
      ensures exportProgress == if selectedClips == [] then 0.0 else 100.0
      ensures currentExportIndex == if selectedClips == [] then 0 else |selectedClips| - 1
    {
      isExporting := true;
      exportProgress := 0.0;
      exportedClips := [];
      currentExportIndex := 0;
      exportedPaths := [];
      for i := 0 to |selectedClips|
        invariant exportedClips == ExportedClips(selectedClips[..i], settings, stamp, copy, overlay)
        invariant exportedPaths == Paths(exportedClips)
        invariant exportProgress == if i == 0 then 0.0 else ExportProgressAfter(i, |selectedClips|)
        invariant currentExportIndex == if i == 0 then 0 else i - 1
      {
        var clip := selectedClips[i];
        currentExportIndex := i;
        var exportPath := ExportOutcome(clip, i, stamp(i), settings, copy, overlay);
        ExportStep(selectedClips, i, settings, stamp, copy, overlay, exportPath, exportedClips, exportedPaths);
        if exportPath.Some? {
          exportedPaths := exportedPaths + [exportPath.value];
          exportedClips := exportedClips + [ExportedClip(clip, exportPath.value)];
        }
        exportProgress := ExportProgressAfter(i + 1, |selectedClips|);
      }
      assert selectedClips[..|selectedClips|] == selectedClips;
      isExporting := false;
    }
  }
}
