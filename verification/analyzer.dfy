/**
 * The highlight-window engine: decoding the engine's silence and scene logs
 * into speech sections and scene-change times, thumbnail capture, and the
 * sliding-window scorer with greedy low-overlap selection.
 */
module Analyzer {
  import opened Wrappers
  import opened Sequences
  import opened Media
  import opened VideoProcessor

  /** Number.MAX_SAFE_INTEGER, the open end of the tail speech section. */
  const MaxSafeInteger: real := 9007199254740991.0

  const DefaultNoiseDb: int := -35
  const DefaultMinSilence: real := 0.4
  const DefaultSceneThreshold: real := 0.35

  /** A stretch of speech `[start, end]`, in seconds. */
  datatype Section = Section(start: real, end: real)

  predicate AllUnsigned(lines: seq<LogLine>)
  {
    forall k :: 0 <= k < |lines| ==> UnsignedCaptures(lines[k])
  }

  /* ---------------------------------------------------------------------
   * Speech sections from silence detection
   * ------------------------------------------------------------------- */

  /**
   * The sections the decoder pushes while reading `lines` with the last
   * silence end at `cursor`: a `silence_start` at t after the cursor closes
   * the speech `[cursor, t]`; a `silence_end` moves the cursor. A line
   * carrying both captures counts as a `silence_start` only.
   */
  function ScanSpeech(lines: seq<LogLine>, cursor: real): (r: seq<Section>)
    ensures |r| <= |lines|
    ensures forall sec :: sec in r ==> sec.start == cursor || exists k :: 0 <= k < |lines| && lines[k].silenceEnd == Some(sec.start)
    ensures forall sec :: sec in r ==> sec.start < sec.end
    ensures cursor >= 0.0 && AllUnsigned(lines) ==> forall sec :: sec in r ==> sec.start >= 0.0
    decreases |lines|
  {
    if lines == [] then []
    else
      var rest := lines[1..];
      assert forall k :: 0 <= k < |rest| ==> rest[k] == lines[k + 1];
      if lines[0].silenceStart.Some? then
        var t := lines[0].silenceStart.value;
        (if t > cursor then [Section(cursor, t)] else []) + ScanSpeech(rest, cursor)
      else if lines[0].silenceEnd.Some? then
        ScanSpeech(rest, lines[0].silenceEnd.value)
      else
        ScanSpeech(rest, cursor)
  }

  /** A line that moves the cursor: a `silence_end` capture on a line without a `silence_start`. */
  predicate MovesCursor(line: LogLine)
  {
    line.silenceStart.None? && line.silenceEnd.Some?
  }

  /**
   * The last silence end once all of `lines` has been read: the time of the
   * last line that moves the cursor, or the initial cursor when none does.
   */
  function FinalCursor(lines: seq<LogLine>, cursor: real): (r: real)
    ensures r == cursor || exists k :: 0 <= k < |lines| && lines[k].silenceEnd == Some(r)
    decreases |lines|
  {
    if lines == [] then cursor
    else
      var rest := lines[1..];
      assert forall k :: 0 <= k < |rest| ==> rest[k] == lines[k + 1];
      if lines[0].silenceStart.Some? then FinalCursor(rest, cursor)
      else if lines[0].silenceEnd.Some? then FinalCursor(rest, lines[0].silenceEnd.value)
      else FinalCursor(rest, cursor)
  }

  /**
   * The final cursor is the time of the last line that moves the cursor,
   * and the initial cursor when no line does.
   */
  lemma {:induction false} FinalCursorIsLastMove(lines: seq<LogLine>, cursor: real)
    ensures (forall k :: 0 <= k < |lines| ==> !MovesCursor(lines[k])) ==> FinalCursor(lines, cursor) == cursor
    ensures forall k :: 0 <= k < |lines| && MovesCursor(lines[k]) && (forall j :: k < j < |lines| ==> !MovesCursor(lines[j])) ==>
      FinalCursor(lines, cursor) == lines[k].silenceEnd.value
    decreases |lines|
  {
    if lines != [] {
      var rest := lines[1..];
      var next := if MovesCursor(lines[0]) then lines[0].silenceEnd.value else cursor;
      assert forall k :: 0 <= k < |rest| ==> rest[k] == lines[k + 1];
      assert FinalCursor(lines, cursor) == FinalCursor(rest, next);
      FinalCursorIsLastMove(rest, next);
    }
  }

  /** Everything pushed before the final filter, the open tail included. */
  function RawSpeechSections(lines: seq<LogLine>): seq<Section>
  {
    ScanSpeech(lines, 0.0) + [Section(FinalCursor(lines, 0.0), MaxSafeInteger)]
  }

  predicate KeepSection(sec: Section)
  {
    sec.end - sec.start > 1.0 && sec.start >= 0.0
  }

  /** What `detectSpeechSections` returns for a log it could read. */
  function SpeechSectionsOf(lines: seq<LogLine>): (r: seq<Section>)
    ensures |r| <= |lines| + 1
    ensures forall sec :: sec in r ==> sec.end - sec.start > 1.0 && sec.start >= 0.0
  {
    Filter(RawSpeechSections(lines), KeepSection)
  }

  function SpeechCommand(path: string, noiseDb: int, minSilence: real): Command
  {
    SilenceDetect(path, noiseDb, minSilence)
  }

  /**
   * `detectSpeechSections`: an engine call that throws yields no sections;
   * otherwise the log is decoded whether or not the run reported success.
   */
  method DetectSpeechSections(path: string, noiseDb: int, minSilence: real, run: Command -> Outcome<RunLog>)
    returns (sections: seq<Section>)
    ensures run(SpeechCommand(path, noiseDb, minSilence)).Rejected? ==> sections == []
    ensures run(SpeechCommand(path, noiseDb, minSilence)).Resolved? ==>
      sections == SpeechSectionsOf(run(SpeechCommand(path, noiseDb, minSilence)).value.logs)
  {
    var reply := run(SilenceDetect(path, noiseDb, minSilence));
    assert reply == run(SpeechCommand(path, noiseDb, minSilence));
    if reply.Rejected? {
      return [];
    }
    var lines := reply.value.logs;
    var speechSections: seq<Section> := [];
    var lastSilenceEnd := 0.0;
    var currentSilenceStart: Option<real> := None;
    for i := 0 to |lines|
      invariant speechSections + ScanSpeech(lines[i..], lastSilenceEnd) == ScanSpeech(lines, 0.0)
      invariant FinalCursor(lines[i..], lastSilenceEnd) == FinalCursor(lines, 0.0)
    {
      ScanStep(lines[i..], lastSilenceEnd);
      assert lines[i..][0] == lines[i] && lines[i..][1..] == lines[i + 1..];
      if lines[i].silenceStart.Some? {
        var silenceStart := lines[i].silenceStart.value;
        if silenceStart > lastSilenceEnd {
          speechSections := speechSections + [Section(lastSilenceEnd, silenceStart)];
        }
        currentSilenceStart := Some(silenceStart);
        continue;
      }
      if lines[i].silenceEnd.Some? {
        lastSilenceEnd := lines[i].silenceEnd.value;
        currentSilenceStart := None;
      }
    }
    assert lines[|lines|..] == [];
    assert speechSections == ScanSpeech(lines, 0.0) && lastSilenceEnd == FinalCursor(lines, 0.0);
    speechSections := speechSections + [Section(lastSilenceEnd, MaxSafeInteger)];
    assert speechSections == RawSpeechSections(lines);
    sections := Filter(speechSections, KeepSection);
  }

  /**
   * Line `k` closes the speech `sec`: it is a `silence_start` at `sec.end`,
   * later than the cursor `sec.start` that the lines before it left.
   */
  predicate ClosesAt(lines: seq<LogLine>, cursor: real, k: int, sec: Section)
    requires 0 <= k < |lines|
  {
    lines[k].silenceStart == Some(sec.end) && sec.start == FinalCursor(lines[..k], cursor) && sec.start < sec.end
  }

  /**
   * The decoder emits exactly the sections closed by some `silence_start`:
   * every `silence_start` after the current cursor emits `[cursor, t]`, and
   * nothing else is emitted.
   */
  lemma {:induction false} ScanSpeechExactly(lines: seq<LogLine>, cursor: real, sec: Section)
    ensures sec in ScanSpeech(lines, cursor) <==> exists k :: 0 <= k < |lines| && ClosesAt(lines, cursor, k, sec)
    decreases |lines|
  {
    if lines != [] {
      var rest := lines[1..];
      var next := if MovesCursor(lines[0]) then lines[0].silenceEnd.value else cursor;
      ScanSpeechExactly(rest, next, sec);
      assert ScanSpeech(lines, cursor) == (if lines[0].silenceStart.Some? && lines[0].silenceStart.value > cursor
                                           then [Section(cursor, lines[0].silenceStart.value)] else []) + ScanSpeech(rest, next);
      forall k | 1 <= k < |lines|
        ensures ClosesAt(lines, cursor, k, sec) <==> ClosesAt(rest, next, k - 1, sec)
      {
        assert lines[..k][0] == lines[0] && lines[..k][1..] == rest[..k - 1];
        assert rest[k - 1] == lines[k];
      }
      assert lines[..0] == [];
      if sec in ScanSpeech(lines, cursor) {
        if sec !in ScanSpeech(rest, next) {
          assert ClosesAt(lines, cursor, 0, sec);
        } else {
          var k :| 0 <= k < |rest| && ClosesAt(rest, next, k, sec);
          assert ClosesAt(lines, cursor, k + 1, sec);
        }
      }
      if exists k :: 0 <= k < |lines| && ClosesAt(lines, cursor, k, sec) {
        var k :| 0 <= k < |lines| && ClosesAt(lines, cursor, k, sec);
        if k > 0 {
          assert ClosesAt(rest, next, k - 1, sec);
        }
      }
    }
  }

  /**
   * What `detectSpeechSections` returns, section by section: the sections
   * closed by a `silence_start` and the open tail, whichever pass the filter.
   */
  lemma SpeechSectionsExactly(lines: seq<LogLine>, sec: Section)
    ensures sec in SpeechSectionsOf(lines) <==>
      && sec.end - sec.start > 1.0 && sec.start >= 0.0
      && (|| sec == Section(FinalCursor(lines, 0.0), MaxSafeInteger)
          || exists k :: 0 <= k < |lines| && ClosesAt(lines, 0.0, k, sec))
  {
    ScanSpeechExactly(lines, 0.0, sec);
    var raw := RawSpeechSections(lines);
    if KeepSection(sec) && sec in raw {
      FilterContains(raw, KeepSection, sec);
    }
  }

  /** One decoding step, as the loop of `DetectSpeechSections` takes it. */
  lemma ScanStep(lines: seq<LogLine>, cursor: real)
    requires lines != []
    ensures lines[0].silenceStart.Some? ==>
      && ScanSpeech(lines, cursor) == (if lines[0].silenceStart.value > cursor then [Section(cursor, lines[0].silenceStart.value)] else []) + ScanSpeech(lines[1..], cursor)
      && FinalCursor(lines, cursor) == FinalCursor(lines[1..], cursor)
    ensures lines[0].silenceStart.None? && lines[0].silenceEnd.Some? ==>
      && ScanSpeech(lines, cursor) == ScanSpeech(lines[1..], lines[0].silenceEnd.value)
      && FinalCursor(lines, cursor) == FinalCursor(lines[1..], lines[0].silenceEnd.value)
    ensures lines[0].silenceStart.None? && lines[0].silenceEnd.None? ==>
      && ScanSpeech(lines, cursor) == ScanSpeech(lines[1..], cursor)
      && FinalCursor(lines, cursor) == FinalCursor(lines[1..], cursor)
  {
  }

  /**
   * Silence markers as the engine emits them: starts and ends alternate,
   * beginning with a start and ending with an end, at non-decreasing times.
   * `expectStart` says which marker comes next and `lo` is the latest time seen.
   */
  predicate Alternating(lines: seq<LogLine>, expectStart: bool, lo: real)
    decreases |lines|
  {
    if lines == [] then expectStart
    else if lines[0].silenceStart.Some? then
      expectStart && lines[0].silenceStart.value >= lo && Alternating(lines[1..], false, lines[0].silenceStart.value)
    else if lines[0].silenceEnd.Some? then
      !expectStart && lines[0].silenceEnd.value >= lo && Alternating(lines[1..], true, lines[0].silenceEnd.value)
    else
      Alternating(lines[1..], expectStart, lo)
  }

  predicate WellFormedSilenceLog(lines: seq<LogLine>)
  {
    Alternating(lines, true, 0.0)
  }

  /** Each section ends no later than the next one starts. */
  predicate Ordered(secs: seq<Section>)
  {
    forall i, j :: 0 <= i < j < |secs| ==> secs[i].end <= secs[j].start
  }

  /** Speech `[cursor, t]` ahead of ordered sections that start at or after `t` keeps them ordered. */
  lemma PrependSection(cursor: real, t: real, tail: seq<Section>, fin: real)
    requires cursor <= t <= fin
    requires Ordered(tail) && forall sec :: sec in tail ==> sec.start >= t && sec.end <= fin
    ensures var r := (if t > cursor then [Section(cursor, t)] else []) + tail;
      Ordered(r) && forall sec :: sec in r ==> sec.start >= cursor && sec.end <= fin
  {
    var head: seq<Section> := if t > cursor then [Section(cursor, t)] else [];
    var r := head + tail;
    forall i, j | 0 <= i < j < |r|
      ensures r[i].end <= r[j].start
    {
      assert r[j] == tail[j - |head|];
      if i >= |head| {
        assert r[i] == tail[i - |head|];
      } else {
        assert tail[j - |head|] in tail;
      }
    }
    forall sec | sec in r
      ensures sec.start >= cursor && sec.end <= fin
    {
      if sec !in head {
        assert sec in tail;
      }
    }
  }

  lemma {:induction false} ScanOrdered(lines: seq<LogLine>, expectStart: bool, lo: real, cursor: real)
    requires Alternating(lines, expectStart, lo) && cursor <= lo
    ensures Ordered(ScanSpeech(lines, cursor))
    ensures forall sec :: sec in ScanSpeech(lines, cursor) ==>
      sec.start >= (if expectStart then cursor else lo) && sec.end <= FinalCursor(lines, cursor)
    ensures FinalCursor(lines, cursor) >= (if expectStart then cursor else lo)
    decreases |lines|
  {
    if lines != [] {
      var rest := lines[1..];
      if lines[0].silenceStart.Some? {
        var t := lines[0].silenceStart.value;
        ScanOrdered(rest, false, t, cursor);
        var tail := ScanSpeech(rest, cursor);
        assert ScanSpeech(lines, cursor) == (if t > cursor then [Section(cursor, t)] else []) + tail;
        assert FinalCursor(lines, cursor) == FinalCursor(rest, cursor);
        PrependSection(cursor, t, tail, FinalCursor(rest, cursor));
      } else if lines[0].silenceEnd.Some? {
        ScanOrdered(rest, true, lines[0].silenceEnd.value, lines[0].silenceEnd.value);
      } else {
        ScanOrdered(rest, expectStart, lo, cursor);
      }
    }
  }

  lemma {:induction false} FilterOrdered(s: seq<Section>, p: Section -> bool)
    requires Ordered(s)
    ensures Ordered(Filter(s, p))
  {
    if s != [] {
      var n := |s| - 1;
      var init := s[..n];
      assert Ordered(init) by {
        forall i, j | 0 <= i < j < |init|
          ensures init[i].end <= init[j].start
        {
          assert init[i] == s[i] && init[j] == s[j];
        }
      }
      FilterOrdered(init, p);
      var earlier := Filter(init, p);
      var last: seq<Section> := if p(s[n]) then [s[n]] else [];
      assert Filter(s, p) == earlier + last;
      forall i, j | 0 <= i < j < |earlier + last|
        ensures (earlier + last)[i].end <= (earlier + last)[j].start
      {
        if j >= |earlier| {
          var x := earlier[i];
          assert (earlier + last)[i] == x && (earlier + last)[j] == s[n];
          assert x in earlier;
          assert x in init;
          var k :| 0 <= k < n && init[k] == x;
          assert s[k] == x;
        } else {
          assert (earlier + last)[i] == earlier[i] && (earlier + last)[j] == earlier[j];
        }
      }
    }
  }

  /**
   * For a well-formed silence log the speech sections come out in time
   * order and pairwise disjoint (at most touching).
   */
  lemma SpeechSectionsOrdered(lines: seq<LogLine>)
    requires WellFormedSilenceLog(lines)
    ensures Ordered(SpeechSectionsOf(lines))
    ensures forall sec :: sec in SpeechSectionsOf(lines) ==> sec.start < sec.end
  {
    ScanOrdered(lines, true, 0.0, 0.0);
    var scan := ScanSpeech(lines, 0.0);
    var raw := RawSpeechSections(lines);
    forall i, j | 0 <= i < j < |raw|
      ensures raw[i].end <= raw[j].start
    {
      assert raw[i] == scan[i];
      if j == |scan| {
        assert scan[i] in scan;
      } else {
        assert raw[j] == scan[j];
      }
    }
    FilterOrdered(raw, KeepSection);
  }

  /**
   * When every capture is in range, the open tail after the last silence end
   * always survives the filter and comes last.
   */
  lemma {:induction false} TailSectionKept(lines: seq<LogLine>)
    requires AllUnsigned(lines)
    requires forall k :: 0 <= k < |lines| && lines[k].silenceEnd.Some? ==> lines[k].silenceEnd.value < MaxSafeInteger - 1.0
    ensures |SpeechSectionsOf(lines)| >= 1
    ensures SpeechSectionsOf(lines)[|SpeechSectionsOf(lines)| - 1] == Section(FinalCursor(lines, 0.0), MaxSafeInteger)
  {
    var raw := RawSpeechSections(lines);
    var last := Section(FinalCursor(lines, 0.0), MaxSafeInteger);
    var fc := FinalCursor(lines, 0.0);
    if fc != 0.0 {
      var k :| 0 <= k < |lines| && lines[k].silenceEnd == Some(fc);
      assert UnsignedCaptures(lines[k]);
    }
    assert KeepSection(last);
    assert raw[..|raw| - 1] == ScanSpeech(lines, 0.0);
  }

  /**
   * A log that ends inside a silence (a `silence_start` with no matching
   * `silence_end`) yields a tail section that overlaps the last speech
   * section: the tail restarts from the last silence end.
   */
  lemma UnclosedSilenceOverlapsTail()
    ensures SpeechSectionsOf([LogLine(Some(5.0), None, None)]) == [Section(0.0, 5.0), Section(0.0, MaxSafeInteger)]
  {
    var lines := [LogLine(Some(5.0), None, None)];
    assert ScanSpeech(lines[1..], 0.0) == [];
    assert ScanSpeech(lines, 0.0) == [Section(0.0, 5.0)];
    assert FinalCursor(lines[1..], 0.0) == 0.0;
    var raw := RawSpeechSections(lines);
    assert raw == [Section(0.0, 5.0), Section(0.0, MaxSafeInteger)];
    assert raw[..1][..0] == [];
    assert Filter(raw[..1], KeepSection) == [Section(0.0, 5.0)];
  }

  /* ---------------------------------------------------------------------
   * Scene-change times
   * ------------------------------------------------------------------- */

  /** The `pts_time` captures of `showinfo` lines, in log order. */
  predicate HasPtsTime(line: LogLine)
  {
    line.ptsTime.Some?
  }

  function PtsTimes(lines: seq<LogLine>): (r: seq<real>)
    ensures |r| <= |lines|
    ensures |r| == |Filter(lines, HasPtsTime)|
    ensures forall i :: 0 <= i < |r| ==> Filter(lines, HasPtsTime)[i].ptsTime == Some(r[i])
    ensures forall t :: t in r ==> exists k :: 0 <= k < |lines| && lines[k].ptsTime == Some(t)
  {
    if lines == [] then []
    else
      var n := |lines| - 1;
      assert forall k :: 0 <= k < n ==> lines[..n][k] == lines[k];
      PtsTimes(lines[..n]) + (if lines[n].ptsTime.Some? then [lines[n].ptsTime.value] else [])
  }

  lemma {:induction false} PtsTimesComplete(lines: seq<LogLine>, k: nat)
    requires k < |lines| && lines[k].ptsTime.Some?
    ensures lines[k].ptsTime.value in PtsTimes(lines)
  {
    var n := |lines| - 1;
    if k < n {
      assert lines[..n][k] == lines[k];
      PtsTimesComplete(lines[..n], k);
    }
  }

  /** What `detectSceneChanges` returns for a log it could read. */
  function SceneTimesOf(lines: seq<LogLine>): seq<real>
  {
    SortAscending(PtsTimes(lines))
  }

  /**
   * Scene times come out ascending, as a rearrangement of the captured
   * times, and hold exactly the times that some `showinfo` line reported.
   */
  lemma SceneTimesSorted(lines: seq<LogLine>)
    ensures Ascending(SceneTimesOf(lines))
    ensures multiset(SceneTimesOf(lines)) == multiset(PtsTimes(lines))
    ensures forall t :: t in SceneTimesOf(lines) <==> exists k :: 0 <= k < |lines| && lines[k].ptsTime == Some(t)
  {
    SortAscendingSorts(PtsTimes(lines));
    forall t | exists k :: 0 <= k < |lines| && lines[k].ptsTime == Some(t)
      ensures t in SceneTimesOf(lines)
    {
      var k :| 0 <= k < |lines| && lines[k].ptsTime == Some(t);
      PtsTimesComplete(lines, k);
      assert t in multiset(PtsTimes(lines));
    }
    forall t | t in SceneTimesOf(lines)
      ensures t in PtsTimes(lines)
    {
      assert t in multiset(SceneTimesOf(lines));
    }
  }

  function SceneCommand(path: string, threshold: real): Command
  {
    SceneDetect(path, threshold)
  }

  /** `detectSceneChanges`: no times when the engine call throws. */
  method DetectSceneChanges(path: string, threshold: real, run: Command -> Outcome<RunLog>)
    returns (times: seq<real>)
    ensures run(SceneCommand(path, threshold)).Rejected? ==> times == []
    ensures run(SceneCommand(path, threshold)).Resolved? ==>
      times == SceneTimesOf(run(SceneCommand(path, threshold)).value.logs)
  {
    var reply := run(SceneDetect(path, threshold));
    if reply.Rejected? {
      return [];
    }
    var lines := reply.value.logs;
    times := [];
    for i := 0 to |lines|
      invariant times == PtsTimes(lines[..i])
    {
      assert lines[..i + 1][..i] == lines[..i];
      if lines[i].ptsTime.Some? {
        times := times + [lines[i].ptsTime.value];
      }
    }
    assert lines[..|lines|] == lines;
    times := SortAscending(times);
  }

  /* ---------------------------------------------------------------------
   * Thumbnails
   * ------------------------------------------------------------------- */

  function ThumbPath(id: string): string
  {
    CacheDir + "/thumb_" + id + ".jpg"
  }

  function ThumbCommand(path: string, t: real, id: string): Command
  {
    ThumbnailFrame(path, t, ThumbPath(id))
  }

  function ThumbPaths(n: nat, uuid: nat -> string): seq<string>
  {
    seq(n, k requires 0 <= k < n => ThumbPath(uuid(k)))
  }

  lemma ThumbPathsExtend(n: nat, uuid: nat -> string, fileExists: string -> bool)
    ensures Filter(ThumbPaths(n + 1, uuid), fileExists)
         == Filter(ThumbPaths(n, uuid), fileExists) + (if fileExists(ThumbPath(uuid(n))) then [ThumbPath(uuid(n))] else [])
  {
    var longer := ThumbPaths(n + 1, uuid);
    assert longer[..n] == ThumbPaths(n, uuid);
    assert longer[n] == ThumbPath(uuid(n));
  }

  /** The first `n` captures all ran without the engine throwing. */
  predicate CapturesResolved(path: string, times: seq<real>, run: Command -> Outcome<RunLog>, uuid: nat -> string, n: nat)
    requires n <= |times|
  {
    n == 0 || (CapturesResolved(path, times, run, uuid, n - 1) && run(ThumbCommand(path, times[n - 1], uuid(n - 1))).Resolved?)
  }

  lemma {:induction false} CapturesResolvedExactly(path: string, times: seq<real>, run: Command -> Outcome<RunLog>,
                                                   uuid: nat -> string, n: nat)
    requires n <= |times|
    ensures CapturesResolved(path, times, run, uuid, n)
        <==> !exists k :: 0 <= k < n && run(ThumbCommand(path, times[k], uuid(k))).Rejected?
  {
    if n > 0 {
      CapturesResolvedExactly(path, times, run, uuid, n - 1);
    }
  }

  lemma ThumbPathsStep(fileExists: string -> bool, uuid: nat -> string, i: nat, outputPaths: seq<string>)
    requires outputPaths == Filter(ThumbPaths(i, uuid), fileExists)
    ensures (if fileExists(ThumbPath(uuid(i))) then outputPaths + [ThumbPath(uuid(i))] else outputPaths)
         == Filter(ThumbPaths(i + 1, uuid), fileExists)
  {
    ThumbPathsExtend(i, uuid, fileExists);
  }

  /**
   * `generateThumbnails`: one frame capture per time, in order; a capture
   * counts when its file exists afterwards. The run's status is ignored, but
   * an engine call that throws aborts the whole operation.
   */
  method GenerateThumbnails(path: string, times: seq<real>, run: Command -> Outcome<RunLog>,
                            fileExists: string -> bool, uuid: nat -> string)
    returns (r: Outcome<seq<string>>)
    ensures r.Rejected? <==> exists k :: 0 <= k < |times| && run(ThumbCommand(path, times[k], uuid(k))).Rejected?
    ensures r.Resolved? ==> r.value == Filter(ThumbPaths(|times|, uuid), fileExists)
    ensures r.Resolved? ==> |r.value| <= |times|
  {
    var outputPaths: seq<string> := [];
    for i := 0 to |times|
      invariant CapturesResolved(path, times, run, uuid, i)
      invariant outputPaths == Filter(ThumbPaths(i, uuid), fileExists)
    {
      var outPath := ThumbPath(uuid(i));
      var cmd := ThumbnailFrame(path, times[i], outPath);
      assert cmd == ThumbCommand(path, times[i], uuid(i));
      var logs := run(cmd);
      if logs.Rejected? {
        CapturesResolvedExactly(path, times, run, uuid, |times|);
        assert run(ThumbCommand(path, times[i], uuid(i))).Rejected?;
        return Rejected;
      }
      ThumbPathsStep(fileExists, uuid, i, outputPaths);
      if fileExists(outPath) {
        outputPaths := outputPaths + [outPath];
      }
    }
    CapturesResolvedExactly(path, times, run, uuid, |times|);
    return Resolved(outputPaths);
  }

  /* ---------------------------------------------------------------------
   * Window scoring and selection
   * ------------------------------------------------------------------- */

  const SpeechWeight: real := 1.0
  const SceneWeight: real := 2.5
  const DefaultWindowSize: real := 30.0
  const DefaultTopK: int := 5

  /** A scored window, kept only until selection. */
  datatype Candidate = Candidate(window: ClipWindow, score: real)

  /** Scene changes inside the closed window `[winStart, winEnd]`. */
  function SceneCount(sceneTimes: seq<real>, winStart: real, winEnd: real): (n: nat)
    ensures n <= |sceneTimes|
  {
    |Filter(sceneTimes, t => t >= winStart && t <= winEnd)|
  }

  /** How much of the window lies inside the speech section that produced it. */
  function SpeechCoverage(winStart: real, endSpeech: real, windowSize: real): (r: real)
    requires winStart < endSpeech && windowSize > 0.0
    ensures 0.0 < r <= windowSize && r <= endSpeech - winStart
    ensures r == windowSize || r == endSpeech - winStart
  {
    Min(endSpeech, winStart + windowSize) - winStart
  }

  /** The weighted score of a window. */
  function Score(speechCoverage: real, sceneCount: nat): (r: real)
    ensures r >= speechCoverage
    ensures r == speechCoverage <==> sceneCount == 0
  {
    speechCoverage * SpeechWeight + (sceneCount as real) * SceneWeight
  }

  /** The candidate for the window starting at `winStart`. */
  function CandidateAt(winStart: real, endSpeech: real, sceneTimes: seq<real>, windowSize: real): (c: Candidate)
    requires winStart < endSpeech && windowSize > 0.0
    ensures c.window == ClipWindow(winStart, windowSize)
    ensures c.score >= SpeechCoverage(winStart, endSpeech, windowSize) > 0.0
    ensures c.score <= windowSize + SceneWeight * (|sceneTimes| as real)
  {
    var speechCoverage := SpeechCoverage(winStart, endSpeech, windowSize);
    var sceneCount := SceneCount(sceneTimes, winStart, winStart + windowSize);
    Candidate(ClipWindow(winStart, windowSize), Score(speechCoverage, sceneCount))
  }

  /** Window starts still to come when sliding from `winStart` in steps of `step`. */
  function StepsLeft(winStart: real, endSpeech: real, step: real): nat
    requires step > 0.0
  {
    if winStart < endSpeech then ((endSpeech - winStart) / step).Floor + 1 else 0
  }

  lemma StepsLeftDecreases(winStart: real, endSpeech: real, step: real)
    requires step > 0.0 && winStart < endSpeech
    ensures StepsLeft(winStart + step, endSpeech, step) < StepsLeft(winStart, endSpeech, step)
  {
    var q := (endSpeech - winStart) / step;
    var q' := (endSpeech - (winStart + step)) / step;
    assert q * step == endSpeech - winStart;
    assert q' * step == endSpeech - winStart - step;
    assert (q - 1.0) * step == q * step - step;
    assert (q' - (q - 1.0)) * step == 0.0;
    ZeroProduct(q' - (q - 1.0), step);
  }

  lemma ZeroProduct(x: real, y: real)
    requires y > 0.0 && x * y == 0.0
    ensures x == 0.0
  {
  }

  /** The candidates of one speech section: window starts `winStart`, `winStart + windowSize/2`, ... below `endSpeech`. */
  function SlideCandidates(winStart: real, endSpeech: real, sceneTimes: seq<real>, windowSize: real): (r: seq<Candidate>)
    requires windowSize > 0.0
    ensures forall c :: c in r ==> c.window.duration == windowSize && winStart <= c.window.start < endSpeech
    decreases StepsLeft(winStart, endSpeech, windowSize / 2.0)
  {
    if winStart < endSpeech then
      StepsLeftDecreases(winStart, endSpeech, windowSize / 2.0);
      [CandidateAt(winStart, endSpeech, sceneTimes, windowSize)]
        + SlideCandidates(winStart + windowSize / 2.0, endSpeech, sceneTimes, windowSize)
    else
      []
  }

  lemma SlideStep(winStart: real, endSpeech: real, sceneTimes: seq<real>, windowSize: real)
    requires windowSize > 0.0 && winStart < endSpeech
    ensures SlideCandidates(winStart, endSpeech, sceneTimes, windowSize)
         == [CandidateAt(winStart, endSpeech, sceneTimes, windowSize)]
            + SlideCandidates(winStart + windowSize / 2.0, endSpeech, sceneTimes, windowSize)
  {
  }

  lemma {:induction false} SlideSpacing(winStart: real, endSpeech: real, sceneTimes: seq<real>, windowSize: real)
    requires windowSize > 0.0
    ensures var r := SlideCandidates(winStart, endSpeech, sceneTimes, windowSize);
      (|r| > 0 ==> r[0].window.start == winStart)
      && forall k :: 0 <= k < |r| - 1 ==> r[k + 1].window.start == r[k].window.start + windowSize / 2.0
    decreases StepsLeft(winStart, endSpeech, windowSize / 2.0)
  {
    if winStart < endSpeech {
      var step := windowSize / 2.0;
      StepsLeftDecreases(winStart, endSpeech, step);
      SlideSpacing(winStart + step, endSpeech, sceneTimes, windowSize);
      var r := SlideCandidates(winStart, endSpeech, sceneTimes, windowSize);
      var rest := SlideCandidates(winStart + step, endSpeech, sceneTimes, windowSize);
      SlideStep(winStart, endSpeech, sceneTimes, windowSize);
      forall k | 0 <= k < |r| - 1
        ensures r[k + 1].window.start == r[k].window.start + step
      {
        assert r[k + 1] == rest[k];
        if k > 0 {
          assert r[k] == rest[k - 1];
        }
      }
    }
  }

  lemma {:induction false} SlideAreCandidates(winStart: real, endSpeech: real, sceneTimes: seq<real>, windowSize: real)
    requires windowSize > 0.0
    ensures var r := SlideCandidates(winStart, endSpeech, sceneTimes, windowSize);
      forall k :: 0 <= k < |r| ==> r[k] == CandidateAt(r[k].window.start, endSpeech, sceneTimes, windowSize)
    decreases StepsLeft(winStart, endSpeech, windowSize / 2.0)
  {
    if winStart < endSpeech {
      var step := windowSize / 2.0;
      StepsLeftDecreases(winStart, endSpeech, step);
      SlideAreCandidates(winStart + step, endSpeech, sceneTimes, windowSize);
      var r := SlideCandidates(winStart, endSpeech, sceneTimes, windowSize);
      var rest := SlideCandidates(winStart + step, endSpeech, sceneTimes, windowSize);
      SlideStep(winStart, endSpeech, sceneTimes, windowSize);
      forall k | 0 <= k < |r|
        ensures r[k] == CandidateAt(r[k].window.start, endSpeech, sceneTimes, windowSize)
      {
        if k > 0 {
          assert r[k] == rest[k - 1];
        }
      }
    }
  }

  lemma {:induction false} SlideLast(winStart: real, endSpeech: real, sceneTimes: seq<real>, windowSize: real)
    requires windowSize > 0.0
    ensures var r := SlideCandidates(winStart, endSpeech, sceneTimes, windowSize);
      (|r| > 0 <==> winStart < endSpeech)
      && (|r| > 0 ==> r[|r| - 1].window.start + windowSize / 2.0 >= endSpeech)
    decreases StepsLeft(winStart, endSpeech, windowSize / 2.0)
  {
    if winStart < endSpeech {
      var step := windowSize / 2.0;
      StepsLeftDecreases(winStart, endSpeech, step);
      SlideLast(winStart + step, endSpeech, sceneTimes, windowSize);
      var r := SlideCandidates(winStart, endSpeech, sceneTimes, windowSize);
      var rest := SlideCandidates(winStart + step, endSpeech, sceneTimes, windowSize);
      SlideStep(winStart, endSpeech, sceneTimes, windowSize);
      if rest == [] {
        assert r[0].window.start == winStart;
      } else {
        assert r[|r| - 1] == rest[|rest| - 1];
      }
    }
  }

  /** One step of the sliding loop keeps the candidates found plus those still to come equal to the whole. */
  lemma SlideAdvance(done: seq<Candidate>, x: Candidate, winStart: real, next: real, endSpeech: real,
                     sceneTimes: seq<real>, windowSize: real, target: seq<Candidate>)
    requires windowSize > 0.0 && winStart < endSpeech && next == winStart + windowSize / 2.0
    requires x == CandidateAt(winStart, endSpeech, sceneTimes, windowSize)
    requires done + SlideCandidates(winStart, endSpeech, sceneTimes, windowSize) == target
    ensures (done + [x]) + SlideCandidates(next, endSpeech, sceneTimes, windowSize) == target
  {
    SlideStepTo(winStart, next, endSpeech, sceneTimes, windowSize);
    AppendRegroup(done, x, SlideCandidates(next, endSpeech, sceneTimes, windowSize), target);
  }

  lemma SlideStepTo(winStart: real, next: real, endSpeech: real, sceneTimes: seq<real>, windowSize: real)
    requires windowSize > 0.0 && winStart < endSpeech && next == winStart + windowSize / 2.0
    ensures SlideCandidates(winStart, endSpeech, sceneTimes, windowSize)
         == [CandidateAt(winStart, endSpeech, sceneTimes, windowSize)] + SlideCandidates(next, endSpeech, sceneTimes, windowSize)
  {
    SlideStep(winStart, endSpeech, sceneTimes, windowSize);
  }

  /** The candidate scored inline by the sliding loop is `CandidateAt`. */
  lemma CandidateAtInline(winStart: real, endSpeech: real, sceneTimes: seq<real>, windowSize: real, winEnd: real,
                          speechCoverage: real, sceneCount: nat, candidate: Candidate)
    requires winStart < endSpeech && windowSize > 0.0 && winEnd == winStart + windowSize
    requires speechCoverage == Min(endSpeech, winEnd) - winStart && sceneCount == SceneCount(sceneTimes, winStart, winEnd)
    requires candidate == Candidate(ClipWindow(winStart, windowSize), Score(speechCoverage, sceneCount))
    ensures candidate == CandidateAt(winStart, endSpeech, sceneTimes, windowSize)
  {
  }

  lemma AppendRegroup<T>(done: seq<T>, x: T, later: seq<T>, target: seq<T>)
    requires done + ([x] + later) == target
    ensures (done + [x]) + later == target
  {
    assert (done + [x]) + later == done + ([x] + later);
  }

  /**
   * A section's candidates are the consecutive window starts `winStart`,
   * `winStart + windowSize/2`, ... that lie before `endSpeech`: the first
   * is `winStart`, each next one is half a window later, and one more step
   * after the last would reach `endSpeech`.
   */
  lemma SlideGrid(winStart: real, endSpeech: real, sceneTimes: seq<real>, windowSize: real)
    requires windowSize > 0.0
    ensures var r := SlideCandidates(winStart, endSpeech, sceneTimes, windowSize);
      && (|r| > 0 <==> winStart < endSpeech)
      && (|r| > 0 ==> r[0].window.start == winStart)
      && (forall k :: 0 <= k < |r| - 1 ==> r[k + 1].window.start == r[k].window.start + windowSize / 2.0)
      && (forall k :: 0 <= k < |r| ==> r[k] == CandidateAt(r[k].window.start, endSpeech, sceneTimes, windowSize))
      && (|r| > 0 ==> r[|r| - 1].window.start + windowSize / 2.0 >= endSpeech)
  {
    SlideSpacing(winStart, endSpeech, sceneTimes, windowSize);
    SlideAreCandidates(winStart, endSpeech, sceneTimes, windowSize);
    SlideLast(winStart, endSpeech, sceneTimes, windowSize);
  }

  /** In candidates spaced 15 seconds apart from `first`, the `k`-th starts `15 k` seconds after the first. */
  lemma {:induction false} SpacedStart(r: seq<Candidate>, first: real, k: nat)
    requires k < |r| && r[0].window.start == first
    requires forall j :: 0 <= j < |r| - 1 ==> r[j + 1].window.start == r[j].window.start + 15.0
    ensures r[k].window.start == first + (k as real) * 15.0
  {
    if k > 0 {
      SpacedStart(r, first, k - 1);
    }
  }

  /**
   * The 30-second windows of a section cover it: they take as many
   * 15-second steps as it takes to reach its end.
   */
  lemma SlideCount(winStart: real, endSpeech: real, sceneTimes: seq<real>)
    requires winStart < endSpeech
    ensures (|SlideCandidates(winStart, endSpeech, sceneTimes, 30.0)| as real) * 15.0 >= endSpeech - winStart
  {
    var r := SlideCandidates(winStart, endSpeech, sceneTimes, 30.0);
    SlideSpacing(winStart, endSpeech, sceneTimes, 30.0);
    SlideLast(winStart, endSpeech, sceneTimes, 30.0);
    SpacedStart(r, winStart, |r| - 1);
  }

  /** The largest length of a JavaScript array: one more `push` throws a `RangeError`. */
  const MaxArrayLength: nat := 4294967295

  /**
   * A section left open at the sentinel end, starting anywhere in the first
   * 10^15 seconds, yields more 30-second windows than an array can hold.
   */
  lemma SentinelSectionOverflows(start: real, sceneTimes: seq<real>)
    requires 0.0 <= start <= 1000000000000000.0
    ensures |SectionsCandidates([Section(start, MaxSafeInteger)], sceneTimes, 30.0)| > MaxArrayLength
  {
    var n := |SlideCandidates(start, MaxSafeInteger, sceneTimes, 30.0)|;
    SlideCount(start, MaxSafeInteger, sceneTimes);
    assert (n as real) * 15.0 >= 8007199254740991.0;
    SectionsCandidatesSnoc([], Section(start, MaxSafeInteger), sceneTimes, 30.0);
    assert [] + [Section(start, MaxSafeInteger)] == [Section(start, MaxSafeInteger)];
  }

  /** Appending a section appends its windows, none when it lasts at most a second. */
  lemma SectionsCandidatesSnoc(front: seq<Section>, sec: Section, sceneTimes: seq<real>, windowSize: real)
    requires windowSize > 0.0
    ensures SectionsCandidates(front + [sec], sceneTimes, windowSize)
         == SectionsCandidates(front, sceneTimes, windowSize)
          + (if sec.end - sec.start <= 1.0 then [] else SlideCandidates(sec.start, sec.end, sceneTimes, windowSize))
  {
    assert (front + [sec])[..|front|] == front;
  }

  /** Every section contributes all its windows to the candidates. */
  lemma {:induction false} SectionCandidatesIncluded(sections: seq<Section>, sceneTimes: seq<real>, windowSize: real, k: nat)
    requires windowSize > 0.0 && k < |sections|
    ensures |SectionsCandidates(sections, sceneTimes, windowSize)| >= |SectionsCandidates([sections[k]], sceneTimes, windowSize)|
  {
    var n := |sections| - 1;
    assert sections == sections[..n] + [sections[n]];
    SectionsCandidatesSnoc(sections[..n], sections[n], sceneTimes, windowSize);
    SectionsCandidatesSnoc([], sections[k], sceneTimes, windowSize);
    assert [] + [sections[k]] == [sections[k]];
    if k < n {
      assert sections[..n][k] == sections[k];
      SectionCandidatesIncluded(sections[..n], sceneTimes, windowSize, k);
    }
  }

  /** All candidates, section by section in input order; sections of at most one second contribute none. */
  function SectionsCandidates(sections: seq<Section>, sceneTimes: seq<real>, windowSize: real): (r: seq<Candidate>)
    requires windowSize > 0.0
    ensures forall c :: c in r ==>
      && c.window.duration == windowSize
      && exists sec :: sec in sections && sec.end - sec.start > 1.0 && sec.start <= c.window.start < sec.end
  {
    if sections == [] then []
    else
      var n := |sections| - 1;
      var sec := sections[n];
      assert forall x :: x in sections[..n] ==> x in sections;
      SectionsCandidates(sections[..n], sceneTimes, windowSize)
        + (if sec.end - sec.start <= 1.0 then [] else SlideCandidates(sec.start, sec.end, sceneTimes, windowSize))
  }

  function ByScore(c: Candidate): real
  {
    c.score
  }

  /** Candidates by descending score; equal scores keep their generation order. */
  function RankedCandidates(sections: seq<Section>, sceneTimes: seq<real>, windowSize: real): seq<Candidate>
    requires windowSize > 0.0
  {
    SortDesc(SectionsCandidates(sections, sceneTimes, windowSize), ByScore)
  }

  lemma RankedCandidatesOrder(sections: seq<Section>, sceneTimes: seq<real>, windowSize: real)
    requires windowSize > 0.0
    ensures NonIncreasing(RankedCandidates(sections, sceneTimes, windowSize), ByScore)
    ensures multiset(RankedCandidates(sections, sceneTimes, windowSize))
         == multiset(SectionsCandidates(sections, sceneTimes, windowSize))
    ensures forall v :: WithKey(RankedCandidates(sections, sceneTimes, windowSize), ByScore, v)
                     == WithKey(SectionsCandidates(sections, sceneTimes, windowSize), ByScore, v)
  {
    var cands := SectionsCandidates(sections, sceneTimes, windowSize);
    SortDescOrdersAndPermutes(cands, ByScore);
    forall v
      ensures WithKey(SortDesc(cands, ByScore), ByScore, v) == WithKey(cands, ByScore, v)
    {
      SortDescStable(cands, ByScore, v);
    }
  }

  /** Length of the intersection of two windows (negative when they are apart). */
  function Overlap(a: ClipWindow, b: ClipWindow): real
  {
    Min(a.start + a.duration, b.start + b.duration) - Max(a.start, b.start)
  }

  lemma OverlapSymmetric(a: ClipWindow, b: ClipWindow)
    ensures Overlap(a, b) == Overlap(b, a)
  {
  }

  /** More than half a window of `w` is shared with an already selected window. */
  predicate OverlapsAny(selected: seq<ClipWindow>, w: ClipWindow, windowSize: real)
  {
    exists k :: 0 <= k < |selected| && Overlap(selected[k], w) > windowSize / 2.0
  }

  /** No two selected windows share more than half a window. */
  predicate Spread(ws: seq<ClipWindow>, windowSize: real)
  {
    forall i, j :: 0 <= i < |ws| && 0 <= j < |ws| && i != j ==> Overlap(ws[i], ws[j]) <= windowSize / 2.0
  }

  /**
   * Greedy selection over the candidates in order: stop once `topK` windows
   * are selected, skip a candidate that overlaps a selected window by more
   * than half a window, select it otherwise.
   */
  function Greedy(cands: seq<Candidate>, selected: seq<ClipWindow>, topK: int, windowSize: real): seq<ClipWindow>
    decreases |cands|
  {
    if cands == [] || |selected| >= topK then selected
    else if OverlapsAny(selected, cands[0].window, windowSize) then Greedy(cands[1..], selected, topK, windowSize)
    else Greedy(cands[1..], selected + [cands[0].window], topK, windowSize)
  }

  lemma OverlapsAnyPrefix(selected: seq<ClipWindow>, r: seq<ClipWindow>, w: ClipWindow, windowSize: real)
    requires selected <= r && OverlapsAny(selected, w, windowSize)
    ensures OverlapsAny(r, w, windowSize)
  {
    var k :| 0 <= k < |selected| && Overlap(selected[k], w) > windowSize / 2.0;
    assert r[k] == selected[k];
  }

  lemma {:induction false} GreedyFacts(cands: seq<Candidate>, selected: seq<ClipWindow>, topK: int, windowSize: real)
    requires Spread(selected, windowSize)
    ensures var r := Greedy(cands, selected, topK, windowSize);
      && selected <= r
      && Spread(r, windowSize)
      && |r| <= (if |selected| >= topK then |selected| else topK)
      && (forall k :: |selected| <= k < |r| ==> exists c :: c in cands && c.window == r[k])
      && (|r| < topK ==> forall c :: c in cands ==> c.window in r || OverlapsAny(r, c.window, windowSize))
    decreases |cands|
  {
    if cands == [] || |selected| >= topK {
    } else {
      var w := cands[0].window;
      var rest := cands[1..];
      assert forall c :: c in rest ==> c in cands;
      if OverlapsAny(selected, w, windowSize) {
        GreedyFacts(rest, selected, topK, windowSize);
        var r := Greedy(rest, selected, topK, windowSize);
        OverlapsAnyPrefix(selected, r, w, windowSize);
        assert cands == [cands[0]] + rest;
      } else {
        var more := selected + [w];
        forall i, j | 0 <= i < |more| && 0 <= j < |more| && i != j
          ensures Overlap(more[i], more[j]) <= windowSize / 2.0
        {
          if j == |selected| {
            assert more[i] == selected[i];
          } else if i == |selected| {
            assert more[j] == selected[j];
            OverlapSymmetric(selected[j], w);
          } else {
            assert more[i] == selected[i] && more[j] == selected[j];
          }
        }
        GreedyFacts(rest, more, topK, windowSize);
        var r := Greedy(rest, more, topK, windowSize);
        assert r[|selected|] == more[|selected|] == w;
        assert cands == [cands[0]] + rest;
      }
    }
  }

  /** What `scoreHighlightWindows` returns. */
  function HighlightWindows(sections: seq<Section>, sceneTimes: seq<real>, windowSize: real, topK: int): seq<ClipWindow>
    requires windowSize > 0.0
  {
    Greedy(RankedCandidates(sections, sceneTimes, windowSize), [], topK, windowSize)
  }

  /**
   * The selection holds at most `topK` windows (none when `topK <= 0`), no
   * two of them share more than half a window, each is a full-size window
   * starting inside a speech section longer than one second, and when fewer
   * than `topK` were selected every candidate left out overlaps a selected
   * window by more than half a window.
   */
  lemma HighlightWindowsFacts(sections: seq<Section>, sceneTimes: seq<real>, windowSize: real, topK: int)
    requires windowSize > 0.0
    ensures var r := HighlightWindows(sections, sceneTimes, windowSize, topK);
      && |r| <= (if topK > 0 then topK else 0)
      && Spread(r, windowSize)
      && (forall w :: w in r ==>
            && w.duration == windowSize
            && exists sec :: sec in sections && sec.end - sec.start > 1.0 && sec.start <= w.start < sec.end)
      && (|r| < topK ==> forall c :: c in SectionsCandidates(sections, sceneTimes, windowSize) ==>
            c.window in r || OverlapsAny(r, c.window, windowSize))
  {
    var cands := SectionsCandidates(sections, sceneTimes, windowSize);
    var ranked := RankedCandidates(sections, sceneTimes, windowSize);
    RankedSameCandidates(sections, sceneTimes, windowSize);
    GreedyFacts(ranked, [], topK, windowSize);
    var r := HighlightWindows(sections, sceneTimes, windowSize, topK);
    forall w | w in r
      ensures w.duration == windowSize
      ensures exists sec :: sec in sections && sec.end - sec.start > 1.0 && sec.start <= w.start < sec.end
    {
      var k :| 0 <= k < |r| && r[k] == w;
      var c :| c in ranked && c.window == r[k];
      assert c in cands;
    }
  }

  lemma RankedSameCandidates(sections: seq<Section>, sceneTimes: seq<real>, windowSize: real)
    requires windowSize > 0.0
    ensures forall c :: c in RankedCandidates(sections, sceneTimes, windowSize)
                   <==> c in SectionsCandidates(sections, sceneTimes, windowSize)
  {
    var cands := SectionsCandidates(sections, sceneTimes, windowSize);
    var ranked := RankedCandidates(sections, sceneTimes, windowSize);
    RankedCandidatesOrder(sections, sceneTimes, windowSize);
    forall c
      ensures c in ranked <==> c in cands
    {
      assert c in ranked <==> c in multiset(ranked);
      assert c in cands <==> c in multiset(cands);
    }
  }

  /**
   * The body of the per-section callback of `scoreHighlightWindows`: slides
   * the window across one speech section and scores each position.
   */
  method SlideWindows(startSpeech: real, endSpeech: real, sceneTimes: seq<real>, windowSize: real)
    returns (candidates: seq<Candidate>)
    requires windowSize > 0.0
    ensures candidates == SlideCandidates(startSpeech, endSpeech, sceneTimes, windowSize)
  {
    candidates := [];
    var step := windowSize / 2.0;
    var winStart := startSpeech;
    ghost var target := SlideCandidates(startSpeech, endSpeech, sceneTimes, windowSize);
    while winStart < endSpeech
      invariant candidates + SlideCandidates(winStart, endSpeech, sceneTimes, windowSize) == target
      decreases StepsLeft(winStart, endSpeech, step)
    {
      var winEnd := winStart + windowSize;
      var sceneCount := SceneCount(sceneTimes, winStart, winEnd);
      var speechCoverage := Min(endSpeech, winEnd) - winStart;
      var score := Score(speechCoverage, sceneCount);
      var candidate := Candidate(ClipWindow(winStart, windowSize), score);
      CandidateAtInline(winStart, endSpeech, sceneTimes, windowSize, winEnd, speechCoverage, sceneCount, candidate);
      StepsLeftDecreases(winStart, endSpeech, step);
      ghost var done, prev := candidates, winStart;
      candidates := candidates + [candidate];
      winStart := winStart + step;
      SlideAdvance(done, candidate, prev, winStart, endSpeech, sceneTimes, windowSize, target);
    }
  }

  /**
   * `scoreHighlightWindows`: builds the candidates section by section,
   * ranks them by score, and selects greedily. A non-positive `windowSize`
   * makes the source loop forever, hence the precondition.
   */
  method ScoreHighlightWindows(speechSections: seq<Section>, sceneTimes: seq<real>, windowSize: real, topK: int)
    returns (selected: seq<ClipWindow>)
    requires windowSize > 0.0
    ensures selected == HighlightWindows(speechSections, sceneTimes, windowSize, topK)
    ensures |selected| <= (if topK > 0 then topK else 0)
    ensures Spread(selected, windowSize)
  {
    var candidates: seq<Candidate> := [];
    for i := 0 to |speechSections|
      invariant candidates == SectionsCandidates(speechSections[..i], sceneTimes, windowSize)
    {
      assert speechSections[..i + 1][..i] == speechSections[..i];
      var startSpeech := speechSections[i].start;
      var endSpeech := speechSections[i].end;
      var speechDuration := endSpeech - startSpeech;
      if speechDuration > 1.0 {
        var sectionCandidates := SlideWindows(startSpeech, endSpeech, sceneTimes, windowSize);
        candidates := candidates + sectionCandidates;
      }
    }
    assert speechSections[..|speechSections|] == speechSections;

    candidates := SortDesc(candidates, ByScore);
    selected := [];
    var i := 0;
    while i < |candidates|
      invariant 0 <= i <= |candidates|
      invariant Greedy(candidates[i..], selected, topK, windowSize) == Greedy(candidates, [], topK, windowSize)
    {
      if |selected| >= topK {
        break;
      }
      var c := candidates[i];
      assert candidates[i..][1..] == candidates[i + 1..];
      var overlaps := OverlapsAny(selected, c.window, windowSize);
      if !overlaps {
        selected := selected + [c.window];
      }
      i := i + 1;
    }
    HighlightWindowsFacts(speechSections, sceneTimes, windowSize, topK);
  }

  /**
   * One 40-second speech section, no scene changes, 30-second windows:
   * candidates start at 0, 15 and 30 (coverage 30, 25 and 10), and all three
   * are selected, since neighbours share exactly half a window.
   */
  lemma SingleSectionSelection()
    ensures HighlightWindows([Section(0.0, 40.0)], [], 30.0, 5)
         == [ClipWindow(0.0, 30.0), ClipWindow(15.0, 30.0), ClipWindow(30.0, 30.0)]
  {
    var w0, w15, w30 := ClipWindow(0.0, 30.0), ClipWindow(15.0, 30.0), ClipWindow(30.0, 30.0);
    var cands := [Candidate(w0, 30.0), Candidate(w15, 25.0), Candidate(w30, 10.0)];
    SingleSectionRanked();
    SingleSectionApart();
    GreedyTakes(cands, [], 5, 30.0);
    GreedyTakes(cands[1..], [w0], 5, 30.0);
    GreedyTakes(cands[2..], [w0, w15], 5, 30.0);
    assert cands[1..][1..] == cands[2..] && cands[2..][1..] == [];
    assert [] + [w0] == [w0] && [w0] + [w15] == [w0, w15] && [w0, w15] + [w30] == [w0, w15, w30];
  }

  /** A candidate that fits while fewer than `topK` are selected is selected. */
  lemma GreedyTakes(cands: seq<Candidate>, selected: seq<ClipWindow>, topK: int, windowSize: real)
    requires cands != [] && |selected| < topK && !OverlapsAny(selected, cands[0].window, windowSize)
    ensures Greedy(cands, selected, topK, windowSize) == Greedy(cands[1..], selected + [cands[0].window], topK, windowSize)
  {
  }

  lemma SingleSectionApart()
    ensures !OverlapsAny([], ClipWindow(0.0, 30.0), 30.0)
    ensures !OverlapsAny([ClipWindow(0.0, 30.0)], ClipWindow(15.0, 30.0), 30.0)
    ensures !OverlapsAny([ClipWindow(0.0, 30.0), ClipWindow(15.0, 30.0)], ClipWindow(30.0, 30.0), 30.0)
  {
    var w0, w15, w30 := ClipWindow(0.0, 30.0), ClipWindow(15.0, 30.0), ClipWindow(30.0, 30.0);
    var one, two := [w0], [w0, w15];
    forall k | 0 <= k < |one|
      ensures Overlap(one[k], w15) <= 15.0
    {
      assert one[k] == w0;
    }
    forall k | 0 <= k < |two|
      ensures Overlap(two[k], w30) <= 15.0
    {
      assert two[k] == w0 || two[k] == w15;
    }
  }

  lemma SingleSectionRanked()
    ensures RankedCandidates([Section(0.0, 40.0)], [], 30.0)
         == [Candidate(ClipWindow(0.0, 30.0), 30.0), Candidate(ClipWindow(15.0, 30.0), 25.0),
             Candidate(ClipWindow(30.0, 30.0), 10.0)]
  {
    var cands := [Candidate(ClipWindow(0.0, 30.0), 30.0), Candidate(ClipWindow(15.0, 30.0), 25.0),
                  Candidate(ClipWindow(30.0, 30.0), 10.0)];
    SingleSectionCandidates();
    SortDescOfSorted(cands, ByScore);
  }

  lemma SingleSectionCandidates()
    ensures SectionsCandidates([Section(0.0, 40.0)], [], 30.0)
         == [Candidate(ClipWindow(0.0, 30.0), 30.0), Candidate(ClipWindow(15.0, 30.0), 25.0),
             Candidate(ClipWindow(30.0, 30.0), 10.0)]
  {
    var none: seq<real> := [];
    assert Filter(none, t => t >= 0.0 && t <= 30.0) == [];
    assert Filter(none, t => t >= 15.0 && t <= 45.0) == [];
    assert Filter(none, t => t >= 30.0 && t <= 60.0) == [];
    SlideStep(0.0, 40.0, none, 30.0);
    SlideStep(15.0, 40.0, none, 30.0);
    SlideStep(30.0, 40.0, none, 30.0);
    var sections := [Section(0.0, 40.0)];
    assert sections[..0] == [];
  }

  /** Scene changes alone never produce a window. */
  lemma NoSpeechNoWindows(sceneTimes: seq<real>, windowSize: real, topK: int)
    requires windowSize > 0.0
    ensures HighlightWindows([], sceneTimes, windowSize, topK) == []
  {
  }
}
