/**
 * Clip materialisation: one stream-copy extraction per selected window, and
 * concatenation of clips into a single vertical video through a concat
 * manifest.
 */
module VideoProcessor {
  import opened Wrappers
  import opened Text
  import opened Media

  /** A selected highlight window, in seconds. */
  datatype ClipWindow = ClipWindow(start: real, duration: real)

  function ClipOutputPath(id: string): string
  {
    TempDir + "/clip_" + id + ".mp4"
  }

  /** The extraction of one window: copy `[start, start + duration)` into a fresh temp clip. */
  function ClipCommand(inputPath: string, w: ClipWindow, id: string): (c: Command)
    ensures c.StreamCopy? && c.input == inputPath
    ensures c.start == w.start && c.duration == w.duration
    ensures c.output == TempDir + "/clip_" + id + ".mp4"
  {
    StreamCopy(inputPath, w.start, w.duration, ClipOutputPath(id))
  }

  /**
   * The clip paths `generateHighlightClips` returns: the output of every
   * window whose extraction succeeded, in window order. `uuid(k)` is the
   * fresh identifier drawn for the k-th window.
   */
  function SucceededClips(inputPath: string, windows: seq<ClipWindow>, runFFmpeg: Command -> bool,
                          uuid: nat -> string): (r: seq<string>)
    ensures |r| <= |windows|
    ensures forall p :: p in r ==>
      exists k :: 0 <= k < |windows| && p == ClipOutputPath(uuid(k))
                  && runFFmpeg(ClipCommand(inputPath, windows[k], uuid(k)))
  {
    if windows == [] then []
    else
      var n := |windows| - 1;
      var earlier := SucceededClips(inputPath, windows[..n], runFFmpeg, uuid);
      assert forall k :: 0 <= k < n ==> windows[..n][k] == windows[k];
      earlier + (if runFFmpeg(ClipCommand(inputPath, windows[n], uuid(n))) then [ClipOutputPath(uuid(n))] else [])
  }

  lemma {:induction false} SucceededClipsComplete(inputPath: string, windows: seq<ClipWindow>,
                                                  runFFmpeg: Command -> bool, uuid: nat -> string, k: nat)
    requires k < |windows| && runFFmpeg(ClipCommand(inputPath, windows[k], uuid(k)))
    ensures ClipOutputPath(uuid(k)) in SucceededClips(inputPath, windows, runFFmpeg, uuid)
  {
    var n := |windows| - 1;
    if k < n {
      assert windows[..n][k] == windows[k];
      SucceededClipsComplete(inputPath, windows[..n], runFFmpeg, uuid, k);
    }
  }

  lemma {:induction false} SucceededClipsAllOk(inputPath: string, windows: seq<ClipWindow>,
                                               runFFmpeg: Command -> bool, uuid: nat -> string)
    requires forall k :: 0 <= k < |windows| ==> runFFmpeg(ClipCommand(inputPath, windows[k], uuid(k)))
    ensures SucceededClips(inputPath, windows, runFFmpeg, uuid)
         == seq(|windows|, k requires 0 <= k < |windows| => ClipOutputPath(uuid(k)))
  {
    if windows != [] {
      var n := |windows| - 1;
      assert forall k :: 0 <= k < n ==> windows[..n][k] == windows[k];
      SucceededClipsAllOk(inputPath, windows[..n], runFFmpeg, uuid);
    }
  }

  /**
   * `generateHighlightClips`: issues one extraction per window, in order, and
   * keeps the output path of each run that succeeded. `issued` lists the
   * engine commands in the order they were run.
   */
  method GenerateHighlightClips(inputPath: string, windows: seq<ClipWindow>, runFFmpeg: Command -> bool,
                                uuid: nat -> string)
    returns (results: seq<string>, issued: seq<Command>)
    ensures |issued| == |windows|
    ensures forall k :: 0 <= k < |windows| ==> issued[k] == ClipCommand(inputPath, windows[k], uuid(k))
    ensures results == SucceededClips(inputPath, windows, runFFmpeg, uuid)
    ensures |results| <= |windows|
  {
    results, issued := [], [];
    for i := 0 to |windows|
      invariant |issued| == i
      invariant forall k :: 0 <= k < i ==> issued[k] == ClipCommand(inputPath, windows[k], uuid(k))
      invariant results == SucceededClips(inputPath, windows[..i], runFFmpeg, uuid)
    {
      var outputPath := ClipOutputPath(uuid(i));
      var cmd := StreamCopy(inputPath, windows[i].start, windows[i].duration, outputPath);
      issued := issued + [cmd];
      var ok := runFFmpeg(cmd);
      if ok {
        results := results + [outputPath];
      }
      assert windows[..i + 1][..i] == windows[..i];
    }
    assert windows[..|windows|] == windows;
  }

  /** One manifest entry: `file '<path>'`. */
  function ManifestLine(path: string): string
  {
    "file '" + path + "'"
  }

  function ManifestLines(clips: seq<string>): seq<string>
  {
    seq(|clips|, k requires 0 <= k < |clips| => ManifestLine(clips[k]))
  }

  /** The concat list file: one entry per clip, in order, joined by newlines. */
  function ConcatManifest(clips: seq<string>): string
  {
    Join(ManifestLines(clips), '\n')
  }

  /**
   * The manifest reads back, line by line, as the clips in order, provided
   * no path contains a newline.
   */
  lemma ConcatManifestReadsBack(clips: seq<string>)
    requires |clips| >= 1
    requires forall k :: 0 <= k < |clips| ==> '\n' !in clips[k]
    ensures |Split(ConcatManifest(clips), '\n')| == |clips|
    ensures forall k :: 0 <= k < |clips| ==>
      var line := Split(ConcatManifest(clips), '\n')[k];
      line == "file '" + clips[k] + "'" && line[6..|line| - 1] == clips[k]
  {
    var lines := ManifestLines(clips);
    forall k | 0 <= k < |lines|
      ensures '\n' !in lines[k]
    {
      assert lines[k] == "file '" + clips[k] + "'";
    }
    SplitJoin(lines, '\n');
  }

  /** A side effect of an operation on the device. */
  datatype Effect = WriteFile(path: string, content: string) | Run(cmd: Command)

  function ConcatListPath(stamp: string): string
  {
    TempDir + "/concat_" + stamp + ".txt"
  }

  function VerticalOutputPath(stamp: string): string
  {
    OutputDir + "/highlight_" + stamp + ".mp4"
  }

  /**
   * `concatAndFormatVertical`: nothing at all for no clips; otherwise write
   * the manifest, run one concat-and-crop, and return the output path iff
   * the run succeeded. `listStamp` and `outputStamp` are the two clock
   * readings used in the file names.
   */
  method ConcatAndFormatVertical(clips: seq<string>, runFFmpeg: Command -> bool,
                                 listStamp: string, outputStamp: string)
    returns (result: Option<string>, effects: seq<Effect>)
    ensures clips == [] ==> result == None && effects == []
    ensures clips != [] ==>
      var listFile := ConcatListPath(listStamp);
      var cmd := ConcatVertical(listFile, VerticalOutputPath(outputStamp));
      && effects == [WriteFile(listFile, ConcatManifest(clips)), Run(cmd)]
      && (result.Some? <==> runFFmpeg(cmd))
      && (result.Some? ==> result.value == VerticalOutputPath(outputStamp))
  {
    if |clips| == 0 {
      return None, [];
    }
    var listFile := ConcatListPath(listStamp);
    var concatContent := ConcatManifest(clips);
    effects := [WriteFile(listFile, concatContent)];
    var outputFinal := VerticalOutputPath(outputStamp);
    var cmd := ConcatVertical(listFile, outputFinal);
    effects := effects + [Run(cmd)];
    var ok := runFFmpeg(cmd);
    result := if ok then Some(outputFinal) else None;
  }
}
