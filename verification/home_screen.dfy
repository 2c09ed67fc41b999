/**
 * The home screen's clip shelf and statistics over the listing of the clip
 * directory.
 */
module HomeScreen {
  import opened Wrappers
  import opened Text
  import opened Sequences
  import opened Media

  function IsClipFile(f: FileEntry): bool
  {
    EndsWith(f.name, ".mp4")
  }

  function ClipFiles(files: seq<FileEntry>): seq<FileEntry>
  {
    Filter(files, IsClipFile)
  }

  function ByMtime(f: FileEntry): real
  {
    f.mtime
  }

  /** `loadRecentClips`: the `.mp4` files, newest first (ties in listing order), at most five; none without the directory. */
  function RecentClips(listing: Option<seq<FileEntry>>): seq<FileEntry>
  {
    if listing.None? then [] else Take(SortDesc(ClipFiles(listing.value), ByMtime), 5)
  }

  /**
   * At most five `.mp4` files from the listing, newest first; a `.mp4` file
   * left out is no newer than any shown, and is left out only when five are shown.
   */
  lemma RecentClipsFacts(files: seq<FileEntry>)
    ensures var r := RecentClips(Some(files));
      && |r| <= 5
      && NonIncreasing(r, ByMtime)
      && (forall f :: f in r ==> f in files && EndsWith(f.name, ".mp4"))
      && (forall f :: f in files && EndsWith(f.name, ".mp4") && f !in r ==>
            |r| == 5 && forall g :: g in r ==> g.mtime >= f.mtime)
  {
    var clips := ClipFiles(files);
    var sorted := SortDesc(clips, ByMtime);
    SortDescOrdersAndPermutes(clips, ByMtime);
    var r := RecentClips(Some(files));
    assert r == sorted[..|r|];
    forall f | f in r
      ensures f in files && EndsWith(f.name, ".mp4")
    {
      assert f in multiset(sorted);
      assert f in clips;
    }
    forall f | f in files && EndsWith(f.name, ".mp4") && f !in r
      ensures |r| == 5 && forall g :: g in r ==> g.mtime >= f.mtime
    {
      FilterContains(files, IsClipFile, f);
      TopOfSortDesc(clips, ByMtime, 5, f);
    }
  }

  /** `Math.ceil(n / 3)` for a count. */
  function CeilThird(n: nat): (r: nat)
    ensures 3 * r >= n
    ensures r == 0 || 3 * (r - 1) < n
  {
    (n + 2) / 3
  }

  datatype AppStats = AppStats(totalClips: nat, totalVideosProcessed: nat)

  /** `loadAppStats`: the `.mp4` count and a third of it rounded up; zeros without the directory. */
  function AppStatsOf(listing: Option<seq<FileEntry>>): (s: AppStats)
    ensures listing.Some? ==> s.totalClips == |ClipFiles(listing.value)|
    ensures 3 * s.totalVideosProcessed >= s.totalClips
    ensures s.totalVideosProcessed <= s.totalClips
    ensures s.totalVideosProcessed == CeilThird(s.totalClips)
    ensures listing.None? ==> s == AppStats(0, 0)
  {
    if listing.None? then AppStats(0, 0)
    else
      var n := |ClipFiles(listing.value)|;
      AppStats(n, CeilThird(n))
  }

  /** The shelf never shows more clips than the statistics count. */
  lemma ShelfWithinCount(listing: Option<seq<FileEntry>>)
    ensures |RecentClips(listing)| <= AppStatsOf(listing).totalClips
  {
    if listing.Some? {
      SortDescOrdersAndPermutes(ClipFiles(listing.value), ByMtime);
    }
  }
}
