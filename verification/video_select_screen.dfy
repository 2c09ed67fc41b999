/**
 * The video picker: file validation, the recent-video list and the guard
 * in front of the processing screen.
 */
module VideoSelectScreen {
  import opened Wrappers
  import opened Text
  import opened Sequences
  import opened Media

  /** 500 MB. */
  const MaxVideoSize: int := 500 * 1024 * 1024
  const ValidExtensions: seq<string> := [".mp4", ".mov", ".avi", ".mkv", ".wmv"]

  /**
   * The lowercased name from its last dot on. A name without a dot asks for
   * `substring(-1)`, which JavaScript reads as `substring(0)`: the whole
   * lowercased name.
   */
  function Extension(name: string): string
  {
    SubstringFrom(ToLower(name), LastIndexOf(name, '.'))
  }

  /** The extension runs from the last dot, has no other dot, and ends the lowercased name. */
  lemma ExtensionShape(name: string)
    ensures '.' in name ==> var ext := Extension(name);
      |ext| >= 1 && ext[0] == '.' && '.' !in ext[1..] && EndsWith(ToLower(name), ext)
    ensures '.' !in name ==> Extension(name) == ToLower(name)
  {
    var lowered := ToLower(name);
    var dot := LastIndexOf(name, '.');
    if dot >= 0 {
      var ext := lowered[dot..];
      assert Extension(name) == ext;
      assert ext[0] == '.' by {
        assert name[dot] == '.';
      }
      forall j | 1 <= j < |ext|
        ensures ext[j] != '.'
      {
        assert name[dot + j] != '.';
      }
    } else {
      assert '.' !in name;
    }
  }

  datatype Validation = Valid | TooLarge | UnsupportedFormat

  /**
   * `validateVideoFile`: the size check comes first and an exact 500 MB
   * passes it; then the extension must be one of the five supported ones.
   * A size the picker did not report (`None`) does not fail the size check.
   */
  function ValidateVideoFile(name: string, size: Option<int>): (r: Validation)
    ensures r == TooLarge <==> size.Some? && size.value > MaxVideoSize
    ensures r == Valid <==> !(size.Some? && size.value > MaxVideoSize) && Extension(name) in ValidExtensions
  {
    if size.Some? && size.value > MaxVideoSize then TooLarge
    else if Extension(name) in ValidExtensions then Valid
    else UnsupportedFormat
  }

  /** A name without a dot is rejected once its size passes: its "extension" is the whole name. */
  lemma NoDotRejected(name: string, size: Option<int>)
    requires '.' !in name && !(size.Some? && size.value > MaxVideoSize)
    ensures ValidateVideoFile(name, size) == UnsupportedFormat
  {
    var ext := Extension(name);
    ExtensionShape(name);
    assert '.' !in ext by {
      forall i | 0 <= i < |ext|
        ensures ext[i] != '.'
      {
        assert name[i] != '.';
      }
    }
  }

  /** Exactly 500 MB passes, one byte more does not; upper-case extensions pass. */
  lemma SizeBoundary()
    ensures ValidateVideoFile("clip.MP4", Some(MaxVideoSize)) == Valid
    ensures ValidateVideoFile("clip.MP4", Some(MaxVideoSize + 1)) == TooLarge
  {
    var ext := Extension("clip.MP4");
    assert "clip.MP4"[4] == '.';
    assert LastIndexOf("clip.MP4", '.') == 4;
    assert ToLower("clip.MP4") == "clip.mp4";
    assert ext == ".mp4";
  }

  predicate IsRecentVideoName(name: string)
  {
    EndsWith(name, ".mp4") || EndsWith(name, ".mov") || EndsWith(name, ".avi")
  }

  /**
   * The recent-video list: the first five entries, in directory order, whose
   * names end in `.mp4`, `.mov` or `.avi` (case-sensitive); empty when the
   * directory does not exist.
   */
  function RecentVideos(listing: Option<seq<FileEntry>>): (r: seq<FileEntry>)
    ensures |r| <= 5
    ensures forall f :: f in r ==> IsRecentVideoName(f.name)
    ensures listing.Some? ==>
      var matching := Filter(listing.value, (f: FileEntry) => IsRecentVideoName(f.name));
      |r| <= |matching| && r == matching[..|r|]
    ensures listing.Some? ==>
      var matching := Filter(listing.value, (f: FileEntry) => IsRecentVideoName(f.name));
      |r| == if |matching| < 5 then |matching| else 5
  {
    if listing.None? then []
    else
      var matching := Filter(listing.value, (f: FileEntry) => IsRecentVideoName(f.name));
      var recent := Take(matching, 5);
      assert forall f :: f in recent ==> f in matching;
      recent
  }

  datatype SelectedVideo = SelectedVideo(name: string, path: string, size: Option<int>)

  /** The mock summary shown for a selected video. */
  datatype DisplayInfo = DisplayInfo(duration: string, size: string, resolution: string, format: string)

  /** The route to the processing screen and its parameters. */
  datatype ProcessingRoute = ProcessingRoute(videoPath: string, videoName: string, videoInfo: Option<DisplayInfo>)

  class VideoSelectState {
    var selectedVideo: Option<SelectedVideo>
    var videoInfo: Option<DisplayInfo>

    constructor()
      ensures selectedVideo.None? && videoInfo.None?
    {
      selectedVideo := None;
      videoInfo := None;
    }

    /** `handleProcessVideo`: navigates only when a video is selected, with its path, name and info. */
    method HandleProcessVideo() returns (navigation: Option<ProcessingRoute>)
      ensures navigation.None? <==> selectedVideo.None?
      ensures navigation.Some? ==>
        navigation.value == ProcessingRoute(selectedVideo.value.path, selectedVideo.value.name, videoInfo)
    {
      if selectedVideo.None? {
        return None;
      }
      navigation := Some(ProcessingRoute(selectedVideo.value.path, selectedVideo.value.name, videoInfo));
    }
  }
}
