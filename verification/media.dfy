/**
 * The boundary with the media engine and the device filesystem: directory
 * names, the engine commands the core issues, and what an engine run hands
 * back. The engine itself and the filesystem are oracles given to each
 * operation as function parameters.
 */
module Media {
  import opened Wrappers

  /** Stand-ins for the platform directories the filesystem module reports. */
  const DocumentDirectoryPath: string := "<documents>"
  const CachesDirectoryPath: string := "<caches>"
  const DownloadDirectoryPath: string := "<downloads>"

  /** Directory layout of the highlight pipeline. */
  const RootDir: string := DocumentDirectoryPath + "/ViralityClipprx"
  const OutputDir: string := RootDir + "/output"
  const CacheDir: string := CachesDirectoryPath + "/ViralityClipprx"
  const TempDir: string := CacheDir + "/temp"

  /** Output directory of the older engine wrapper used by the processing service. */
  const ClipsDir: string := DocumentDirectoryPath + "/clips"

  /**
   * One line of engine log output, given as what the three decoders'
   * patterns capture on it: the number after `silence_start: `, the number
   * after `silence_end: `, and the `pts_time:` of a `showinfo` line. The
   * patterns accept unsigned decimals only, so every capture is >= 0.
   */
  datatype LogLine = LogLine(silenceStart: Option<real>, silenceEnd: Option<real>, ptsTime: Option<real>)

  predicate UnsignedCaptures(line: LogLine)
  {
    && (line.silenceStart.Some? ==> line.silenceStart.value >= 0.0)
    && (line.silenceEnd.Some? ==> line.silenceEnd.value >= 0.0)
    && (line.ptsTime.Some? ==> line.ptsTime.value >= 0.0)
  }

  /** A directory entry as the filesystem module lists it; `mtime` in milliseconds. */
  datatype FileEntry = FileEntry(name: string, path: string, size: int, mtime: real)

  /** What an engine run that returns hands back: its exit status and its log. */
  datatype RunLog = RunLog(ok: bool, logs: seq<LogLine>)

  /** The engine invocations the core issues, with the parameters that matter. */
  datatype Command =
    | SilenceDetect(input: string, noiseDb: int, minSilence: real)
      // audio only, silencedetect filter, no output file
    | SceneDetect(input: string, threshold: real)
      // select frames whose scene score exceeds threshold, showinfo, no output file
    | ThumbnailFrame(input: string, at: real, output: string)
      // seek to `at`, scale to width 320, one frame, JPEG quality 3
    | StreamCopy(input: string, start: real, duration: real, output: string)
      // seek to `start`, keep `duration` seconds, copy streams without re-encoding
    | ConcatVertical(listFile: string, output: string)
      // concat demuxer over the list file, scale 1080 wide, crop 1080x1920, x264 veryfast crf 23
    | CropVertical(input: string, start: real, duration: real, output: string)
      // seek to `start`, keep `duration` seconds, scale and crop to 720x1280, x264 fast crf 23 with AAC audio
    | PortraitThumbnail(input: string, at: real, output: string)
      // seek to `at`, one frame scaled to 360x640
    | TextOverlay(input: string, text: string, output: string)
      // burn `text` in, centred near the bottom on a half-transparent box, audio copied
}
