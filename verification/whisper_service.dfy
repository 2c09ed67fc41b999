/**
 * Transcript scoring rules: key phrases, tone, engagement and speech
 * intensity per segment, and the weighted highlight threshold that turns
 * segments into padded highlight moments.
 */
module WhisperService {
  import opened Wrappers
  import opened Text
  import opened Sequences

  datatype Word = Word(start: real, end: real, text: string, confidence: real)
  datatype Segment = Segment(start: real, end: real, text: string, confidence: real, words: seq<Word>)
  datatype Transcription = Transcription(segments: seq<Segment>, duration: real)

  /** A JavaScript number that may have left the reals along the way. */
  datatype Measure = Finite(value: real) | NegativeInfinity | NotANumber

  datatype Tone = Positive | Excited | Instructional | Neutral

  /* ---------------------------------------------------------------------
   * Key phrases
   * ------------------------------------------------------------------- */

  const KeyWords: seq<string> := [
    "amazing", "incredible", "awesome", "fantastic", "wonderful",
    "important", "crucial", "essential", "key", "significant",
    "tutorial", "learn", "technique", "method", "strategy",
    "follow", "practice", "step", "process", "guide"]

  /** A token is a key phrase when its ASCII letters alone spell a keyword. */
  predicate IsKeyPhrase(token: string)
  {
    LettersOnly(token) in KeyWords
  }

  function Tokens(text: string): seq<string>
  {
    Split(ToLower(text), ' ')
  }

  function KeyPhrasesOf(text: string): seq<string>
  {
    Filter(Tokens(text), IsKeyPhrase)
  }

  /** `detectKeyPhrases`: the lowercased tokens that are key phrases, punctuation kept, in text order. */
  method DetectKeyPhrases(text: string) returns (phrases: seq<string>)
    ensures phrases == KeyPhrasesOf(text)
  {
    phrases := [];
    var words := Split(ToLower(text), ' ');
    for i := 0 to |words|
      invariant phrases == Filter(words[..i], IsKeyPhrase)
    {
      assert words[..i + 1][..i] == words[..i];
      if LettersOnly(words[i]) in KeyWords {
        phrases := phrases + [words[i]];
      }
    }
    assert words[..|words|] == words;
  }

  /** Exactly the tokens whose letters spell a keyword are returned. */
  lemma KeyPhrasesExactly(text: string)
    ensures forall t :: t in KeyPhrasesOf(text) <==> t in Tokens(text) && LettersOnly(t) in KeyWords
  {
    forall t | t in Tokens(text) && LettersOnly(t) in KeyWords
      ensures t in KeyPhrasesOf(text)
    {
      FilterContains(Tokens(text), IsKeyPhrase, t);
    }
  }

  /** Key phrases are found word by word: the first word, then the rest of the text. */
  lemma KeyPhrasesOfWord(w: string, rest: string)
    requires ' ' !in w
    ensures KeyPhrasesOf(w + " " + rest)
         == (if IsKeyPhrase(ToLower(w)) then [ToLower(w)] else []) + KeyPhrasesOf(rest)
  {
    var lw, lr := ToLower(w), ToLower(rest);
    var text := w + " " + rest;
    assert ToLower(text) == lw + [' '] + lr by {
      forall i | 0 <= i < |text|
        ensures ToLower(text)[i] == (lw + [' '] + lr)[i]
      {
        if i < |w| {
          assert text[i] == w[i];
        } else if i > |w| {
          assert text[i] == rest[i - |w| - 1];
        }
      }
    }
    assert ' ' !in lw by {
      forall i | 0 <= i < |lw|
        ensures lw[i] != ' '
      {
        assert w[i] != ' ';
      }
    }
    SplitAtFirstSeparator(lw, ' ', lr);
    assert Tokens(text) == [lw] + Tokens(rest);
    FilterAppend([lw], Tokens(rest), IsKeyPhrase);
    assert [lw][..0] == [];
    assert Filter([lw], IsKeyPhrase) == (if IsKeyPhrase(lw) then [lw] else []);
  }

  /* ---------------------------------------------------------------------
   * Tone
   * ------------------------------------------------------------------- */

  const PositiveWords: seq<string> := ["amazing", "incredible", "awesome", "fantastic", "wonderful", "great", "excellent"]
  const ExcitementWords: seq<string> := ["wow", "amazing", "incredible", "fantastic", "awesome"]
  const InstructionalWords: seq<string> := ["learn", "follow", "practice", "step", "guide", "tutorial"]

  /** Some word of `words` occurs somewhere in `text`. */
  predicate MentionsAny(text: string, words: seq<string>)
  {
    exists k :: 0 <= k < |words| && Contains(text, words[k])
  }

  /** `analyzeEmotionalTone`: the first word list, in precedence order, that the lowercased text mentions. */
  function AnalyzeEmotionalTone(text: string): (t: Tone)
    ensures t == Positive <==> MentionsAny(ToLower(text), PositiveWords)
    ensures t == Neutral <==>
      && !MentionsAny(ToLower(text), PositiveWords)
      && !MentionsAny(ToLower(text), ExcitementWords)
      && !MentionsAny(ToLower(text), InstructionalWords)
  {
    var lowerText := ToLower(text);
    if MentionsAny(lowerText, PositiveWords) then Positive
    else if MentionsAny(lowerText, ExcitementWords) then Excited
    else if MentionsAny(lowerText, InstructionalWords) then Instructional
    else Neutral
  }

  /**
   * Every excitement word except "wow" is also a positive word, so the
   * `excited` tone is reached only through "wow".
   */
  lemma ExcitedOnlyThroughWow(text: string)
    ensures AnalyzeEmotionalTone(text) == Excited <==>
      Contains(ToLower(text), "wow") && !MentionsAny(ToLower(text), PositiveWords)
  {
    var lowerText := ToLower(text);
    forall k | 1 <= k < |ExcitementWords| && Contains(lowerText, ExcitementWords[k])
      ensures MentionsAny(lowerText, PositiveWords)
    {
      var j := if k == 1 then 0 else if k == 2 then 1 else if k == 3 then 3 else 2;
      assert PositiveWords[j] == ExcitementWords[k];
    }
    assert ExcitementWords[0] == "wow";
  }

  /* ---------------------------------------------------------------------
   * Engagement
   * ------------------------------------------------------------------- */

  const EngagingWords: seq<string> := ["amazing", "incredible", "awesome", "wow", "fantastic"]

  /** How many of `words` occur in `text`, each counted once. */
  function CountMentioned(text: string, words: seq<string>): (n: nat)
    ensures n <= |words|
    ensures n == 0 <==> !MentionsAny(text, words)
  {
    if words == [] then 0
    else
      var m := |words| - 1;
      assert forall k :: 0 <= k < m ==> words[..m][k] == words[k];
      CountMentioned(text, words[..m]) + (if Contains(text, words[m]) then 1 else 0)
  }

  function EngagementBase(text: string, confidence: real): real
  {
    confidence * 0.5 + 0.1 * (CountMentioned(ToLower(text), EngagingWords) as real)
      + (if '?' in text then 0.15 else 0.0) + (if '!' in text then 0.1 else 0.0)
  }

  /** What `calculateEngagementScore` returns: the weighted sum, capped at 1. */
  function EngagementScore(text: string, confidence: real): (r: real)
    ensures r <= 1.0
    ensures confidence >= 0.0 ==> r >= 0.0
    ensures r == 1.0 || r == EngagementBase(text, confidence)
    ensures r <= EngagementBase(text, confidence)
  {
    Min(EngagementBase(text, confidence), 1.0)
  }

  /** A higher transcription confidence never lowers the engagement score. */
  lemma EngagementMonotone(text: string, c1: real, c2: real)
    requires c1 <= c2
    ensures EngagementScore(text, c1) <= EngagementScore(text, c2)
  {
  }

  method CalculateEngagementScore(text: string, confidence: real) returns (score: real)
    ensures score == EngagementScore(text, confidence)
  {
    score := confidence * 0.5;
    var lowerText := ToLower(text);
    for i := 0 to |EngagingWords|
      invariant score == confidence * 0.5 + 0.1 * (CountMentioned(lowerText, EngagingWords[..i]) as real)
    {
      assert EngagingWords[..i + 1][..i] == EngagingWords[..i];
      if Contains(lowerText, EngagingWords[i]) {
        score := score + 0.1;
      }
    }
    assert EngagingWords[..|EngagingWords|] == EngagingWords;
    if '?' in text {
      score := score + 0.15;
    }
    if '!' in text {
      score := score + 0.1;
    }
    score := Min(score, 1.0);
  }

  /* ---------------------------------------------------------------------
   * Speech intensity
   * ------------------------------------------------------------------- */

  function SumConfidence(words: seq<Word>): real
  {
    if words == [] then 0.0 else SumConfidence(words[..|words| - 1]) + words[|words| - 1].confidence
  }

  /**
   * `min(wordDensity * avgConfidence / 10, 1)` in JavaScript numbers: no
   * words gives NaN (0/0), a zero-length segment gives an infinite density.
   */
  function SpeechIntensity(seg: Segment): (m: Measure)
    ensures m.Finite? ==> m.value <= 1.0
    ensures |seg.words| == 0 ==> m.NotANumber?
    ensures |seg.words| > 0 && seg.end != seg.start ==> m.Finite?
  {
    var n := |seg.words|;
    var span := seg.end - seg.start;
    var total := SumConfidence(seg.words);
    if n == 0 then NotANumber
    else if span == 0.0 then
      (if total > 0.0 then Finite(1.0) else if total == 0.0 then NotANumber else NegativeInfinity)
    else
      Finite(Min((n as real / span) * (total / n as real) / 10.0, 1.0))
  }

  /** For a segment with words and positive length, intensity is total confidence per ten seconds, capped at 1. */
  lemma SpeechIntensityPerTenSeconds(seg: Segment)
    requires |seg.words| > 0 && seg.end > seg.start
    ensures SpeechIntensity(seg) == Finite(Min(SumConfidence(seg.words) / ((seg.end - seg.start) * 10.0), 1.0))
  {
    var n := |seg.words| as real;
    var span := seg.end - seg.start;
    var total := SumConfidence(seg.words);
    assert (n / span) * (total / n) == total / span by {
      assert (n / span) * span == n;
      assert (total / n) * n == total;
      assert ((n / span) * (total / n)) * span == (total / n) * ((n / span) * span);
    }
  }

  /* ---------------------------------------------------------------------
   * Transcription analysis
   * ------------------------------------------------------------------- */

  datatype Stamped<T> = Stamped(timestamp: real, value: T)

  /** The per-segment analysis, without the random emotional intensity. */
  datatype Analysis = Analysis(
    keyPhrases: seq<Stamped<seq<string>>>,
    emotionalTones: seq<Stamped<Tone>>,
    speechIntensity: seq<Stamped<Measure>>,
    engagementScore: seq<Stamped<real>>)

  /** `analyzeTranscription`: one entry per segment in every list, stamped with the segment start. */
  method AnalyzeTranscription(transcription: Transcription) returns (analysis: Analysis)
    ensures |analysis.keyPhrases| == |transcription.segments|
    ensures |analysis.emotionalTones| == |transcription.segments|
    ensures |analysis.speechIntensity| == |transcription.segments|
    ensures |analysis.engagementScore| == |transcription.segments|
    ensures forall k :: 0 <= k < |transcription.segments| ==>
      var seg := transcription.segments[k];
      && analysis.keyPhrases[k] == Stamped(seg.start, KeyPhrasesOf(seg.text))
      && analysis.emotionalTones[k] == Stamped(seg.start, AnalyzeEmotionalTone(seg.text))
      && analysis.speechIntensity[k] == Stamped(seg.start, SpeechIntensity(seg))
      && analysis.engagementScore[k] == Stamped(seg.start, EngagementScore(seg.text, seg.confidence))
  {
    analysis := Analysis([], [], [], []);
    var segments := transcription.segments;
    for i := 0 to |segments|
      invariant |analysis.keyPhrases| == i && |analysis.emotionalTones| == i
      invariant |analysis.speechIntensity| == i && |analysis.engagementScore| == i
      invariant forall k :: 0 <= k < i ==>
        var seg := segments[k];
        && analysis.keyPhrases[k] == Stamped(seg.start, KeyPhrasesOf(seg.text))
        && analysis.emotionalTones[k] == Stamped(seg.start, AnalyzeEmotionalTone(seg.text))
        && analysis.speechIntensity[k] == Stamped(seg.start, SpeechIntensity(seg))
        && analysis.engagementScore[k] == Stamped(seg.start, EngagementScore(seg.text, seg.confidence))
    {
      var segment := segments[i];
      var keyPhrases := DetectKeyPhrases(segment.text);
      var tone := AnalyzeEmotionalTone(segment.text);
      var intensity := SpeechIntensity(segment);
      var engagementScore := CalculateEngagementScore(segment.text, segment.confidence);
      analysis := Analysis(
        analysis.keyPhrases + [Stamped(segment.start, keyPhrases)],
        analysis.emotionalTones + [Stamped(segment.start, tone)],
        analysis.speechIntensity + [Stamped(segment.start, intensity)],
        analysis.engagementScore + [Stamped(segment.start, engagementScore)]);
    }
  }

  /* ---------------------------------------------------------------------
   * Highlight moments
   * ------------------------------------------------------------------- */

  datatype AudioLevel = AudioLevel(timestamp: real, level: real)
  datatype SceneChange = SceneChange(timestamp: real, score: real)
  datatype Highlight = Highlight(startTime: real, endTime: real, score: real, text: string, reason: string)

  const HighlightThreshold: real := 0.6
  const MaxHighlights: int := 5

  function Abs(x: real): real
  {
    if x < 0.0 then -x else x
  }

  /** The first audio level measured less than 2.5 seconds from `t`. */
  function NearbyAudio(levels: seq<AudioLevel>, t: real): (r: Option<AudioLevel>)
    ensures r.Some? ==> r.value in levels && Abs(r.value.timestamp - t) < 2.5
    ensures r.None? <==> forall k :: 0 <= k < |levels| ==> Abs(levels[k].timestamp - t) >= 2.5
  {
    if levels == [] then None
    else if Abs(levels[0].timestamp - t) < 2.5 then Some(levels[0])
    else
      assert forall k :: 1 <= k < |levels| ==> levels[k] == levels[1..][k - 1];
      NearbyAudio(levels[1..], t)
  }

  /** The first scene change less than 3 seconds from `t`. */
  function NearbyScene(scenes: seq<SceneChange>, t: real): (r: Option<SceneChange>)
    ensures r.Some? ==> r.value in scenes && Abs(r.value.timestamp - t) < 3.0
    ensures r.None? <==> forall k :: 0 <= k < |scenes| ==> Abs(scenes[k].timestamp - t) >= 3.0
  {
    if scenes == [] then None
    else if Abs(scenes[0].timestamp - t) < 3.0 then Some(scenes[0])
    else
      assert forall k :: 1 <= k < |scenes| ==> scenes[k] == scenes[1..][k - 1];
      NearbyScene(scenes[1..], t)
  }

  function AudioScore(levels: seq<AudioLevel>, t: real): (r: real)
    ensures 0.0 <= r <= 1.0
  {
    var near := NearbyAudio(levels, t);
    if near.Some? then Min(Abs(near.value.level) / 20.0, 1.0) else 0.0
  }

  function SceneScore(scenes: seq<SceneChange>, t: real): real
  {
    var near := NearbyScene(scenes, t);
    if near.Some? then near.value.score else 0.0
  }

  /** `getHighlightReason`: the first factor, in this order, that is above its own bar. */
  function HighlightReason(engagement: real, speechIntensity: real, audioLevel: real, sceneChange: real): (r: string)
    ensures r == "High engagement content" <==> engagement > 0.8
    ensures r == "Intense speech pattern" <==> engagement <= 0.8 && speechIntensity > 0.7
    ensures r == "Strong audio presence" <==> engagement <= 0.8 && speechIntensity <= 0.7 && audioLevel > 0.6
    ensures r == "Significant scene change" <==>
      engagement <= 0.8 && speechIntensity <= 0.7 && audioLevel <= 0.6 && sceneChange > 0.7
    ensures r == "Multiple factors" <==>
      engagement <= 0.8 && speechIntensity <= 0.7 && audioLevel <= 0.6 && sceneChange <= 0.7
  {
    if engagement > 0.8 then "High engagement content"
    else if speechIntensity > 0.7 then "Intense speech pattern"
    else if audioLevel > 0.6 then "Strong audio presence"
    else if sceneChange > 0.7 then "Significant scene change"
    else "Multiple factors"
  }

  function CombinedScore(engagement: real, speechIntensity: real, audioScore: real, sceneScore: real): real
  {
    engagement * 0.4 + speechIntensity * 0.3 + audioScore * 0.2 + sceneScore * 0.1
  }

  /** `analysis.speechIntensity[i]?.intensity || 0` for a finite or NaN intensity. */
  function IntensityOrZero(m: Measure): real
  {
    if m.Finite? then m.value else 0.0
  }

  /** The combined score of a segment whose intensity is not negative infinity. */
  function SegmentScore(seg: Segment, levels: seq<AudioLevel>, scenes: seq<SceneChange>): real
  {
    CombinedScore(EngagementScore(seg.text, seg.confidence), IntensityOrZero(SpeechIntensity(seg)),
                  AudioScore(levels, seg.start), SceneScore(scenes, seg.start))
  }

  function SegmentReason(seg: Segment, levels: seq<AudioLevel>, scenes: seq<SceneChange>): string
  {
    HighlightReason(EngagementScore(seg.text, seg.confidence), IntensityOrZero(SpeechIntensity(seg)),
                    AudioScore(levels, seg.start), SceneScore(scenes, seg.start))
  }

  /**
   * The highlight a segment yields, if any. A NaN intensity reads as 0
   * (`|| 0`); a negative infinite one makes the combined score negative
   * infinity, which never passes the threshold.
   */
  function SegmentHighlight(seg: Segment, duration: real, levels: seq<AudioLevel>, scenes: seq<SceneChange>): (r: Option<Highlight>)
    ensures r.Some? ==> r.value.score > HighlightThreshold
    ensures r.Some? ==> r.value.startTime >= 0.0 && r.value.startTime == Max(0.0, seg.start - 2.0)
    ensures r.Some? ==> r.value.endTime <= duration && r.value.endTime == Min(seg.end + 2.0, duration)
    ensures r.Some? ==> r.value.text == seg.text
    ensures r.Some? ==> r.value.score == SegmentScore(seg, levels, scenes) && r.value.reason == SegmentReason(seg, levels, scenes)
  {
    var engagement := EngagementScore(seg.text, seg.confidence);
    var intensity := SpeechIntensity(seg);
    if intensity.NegativeInfinity? then None
    else
      var speechIntensity := if intensity.Finite? then intensity.value else 0.0;
      var audioScore := AudioScore(levels, seg.start);
      var sceneScore := SceneScore(scenes, seg.start);
      var combinedScore := CombinedScore(engagement, speechIntensity, audioScore, sceneScore);
      if combinedScore > HighlightThreshold then
        Some(Highlight(Max(0.0, seg.start - 2.0), Min(seg.end + 2.0, duration), combinedScore, seg.text,
                       HighlightReason(engagement, speechIntensity, audioScore, sceneScore)))
      else None
  }

  /**
   * The threshold rule in both directions: a segment yields a highlight iff
   * its combined score is above 0.6, and then exactly the padded one.
   */
  lemma SegmentHighlightAbove(seg: Segment, duration: real, levels: seq<AudioLevel>, scenes: seq<SceneChange>)
    ensures SegmentHighlight(seg, duration, levels, scenes).Some? <==>
      !SpeechIntensity(seg).NegativeInfinity? && SegmentScore(seg, levels, scenes) > HighlightThreshold
    ensures !SpeechIntensity(seg).NegativeInfinity? && SegmentScore(seg, levels, scenes) <= HighlightThreshold ==>
      SegmentHighlight(seg, duration, levels, scenes) == None
    ensures !SpeechIntensity(seg).NegativeInfinity? && SegmentScore(seg, levels, scenes) > HighlightThreshold ==>
      SegmentHighlight(seg, duration, levels, scenes)
      == Some(Highlight(Max(0.0, seg.start - 2.0), Min(seg.end + 2.0, duration), SegmentScore(seg, levels, scenes),
                        seg.text, SegmentReason(seg, levels, scenes)))
  {
  }

  /** The highlights of the segments, in segment order, before ranking. */
  function HighlightCandidates(segments: seq<Segment>, duration: real, levels: seq<AudioLevel>, scenes: seq<SceneChange>): (r: seq<Highlight>)
    ensures |r| <= |segments|
    ensures forall h :: h in r ==> exists k :: 0 <= k < |segments| && SegmentHighlight(segments[k], duration, levels, scenes) == Some(h)
  {
    if segments == [] then []
    else
      var n := |segments| - 1;
      assert forall k :: 0 <= k < n ==> segments[..n][k] == segments[k];
      var h := SegmentHighlight(segments[n], duration, levels, scenes);
      HighlightCandidates(segments[..n], duration, levels, scenes) + (if h.Some? then [h.value] else [])
  }

  lemma {:induction false} HighlightCandidatesComplete(segments: seq<Segment>, duration: real, levels: seq<AudioLevel>,
                                                       scenes: seq<SceneChange>, k: nat)
    requires k < |segments| && SegmentHighlight(segments[k], duration, levels, scenes).Some?
    ensures SegmentHighlight(segments[k], duration, levels, scenes).value in HighlightCandidates(segments, duration, levels, scenes)
  {
    var n := |segments| - 1;
    if k < n {
      assert segments[..n][k] == segments[k];
      HighlightCandidatesComplete(segments[..n], duration, levels, scenes, k);
    }
  }

  lemma HighlightCandidatesStep(segments: seq<Segment>, duration: real, levels: seq<AudioLevel>,
                                scenes: seq<SceneChange>, i: nat)
    requires i < |segments|
    ensures var h := SegmentHighlight(segments[i], duration, levels, scenes);
      HighlightCandidates(segments[..i + 1], duration, levels, scenes)
      == HighlightCandidates(segments[..i], duration, levels, scenes) + (if h.Some? then [h.value] else [])
  {
    assert segments[..i + 1][..i] == segments[..i];
  }

  function ByHighlightScore(h: Highlight): real
  {
    h.score
  }

  /** What `findHighlightMoments` returns: the candidates by descending score, at most five. */
  function HighlightsOf(transcription: Transcription, levels: seq<AudioLevel>, scenes: seq<SceneChange>): seq<Highlight>
  {
    Take(SortDesc(HighlightCandidates(transcription.segments, transcription.duration, levels, scenes), ByHighlightScore), MaxHighlights)
  }

  /**
   * At most five highlights, by descending score, each above the threshold,
   * padded by two seconds and clamped to `[0, duration]`, and each the
   * highlight of one of the segments.
   */
  lemma HighlightsFacts(transcription: Transcription, levels: seq<AudioLevel>, scenes: seq<SceneChange>)
    ensures var r := HighlightsOf(transcription, levels, scenes);
      && |r| <= 5
      && NonIncreasing(r, ByHighlightScore)
      && (forall h :: h in r ==> h.score > 0.6 && 0.0 <= h.startTime && h.endTime <= transcription.duration)
      && (forall h :: h in r ==>
            exists k :: 0 <= k < |transcription.segments| &&
              SegmentHighlight(transcription.segments[k], transcription.duration, levels, scenes) == Some(h))
  {
    var cands := HighlightCandidates(transcription.segments, transcription.duration, levels, scenes);
    var sorted := SortDesc(cands, ByHighlightScore);
    SortDescOrdersAndPermutes(cands, ByHighlightScore);
    var r := HighlightsOf(transcription, levels, scenes);
    assert r == sorted[..|r|];
    forall h | h in r
      ensures h in cands
    {
      assert h in multiset(sorted);
    }
  }

  /**
   * A segment's highlight is left out only when five highlights were kept,
   * none of them scoring below it.
   */
  lemma HighlightsAreTheTopScores(transcription: Transcription, levels: seq<AudioLevel>, scenes: seq<SceneChange>, k: nat)
    requires k < |transcription.segments|
    requires SegmentHighlight(transcription.segments[k], transcription.duration, levels, scenes).Some?
    requires SegmentHighlight(transcription.segments[k], transcription.duration, levels, scenes).value
             !in HighlightsOf(transcription, levels, scenes)
    ensures var r := HighlightsOf(transcription, levels, scenes);
      |r| == 5 && forall h :: h in r ==>
        h.score >= SegmentHighlight(transcription.segments[k], transcription.duration, levels, scenes).value.score
  {
    var cands := HighlightCandidates(transcription.segments, transcription.duration, levels, scenes);
    HighlightCandidatesComplete(transcription.segments, transcription.duration, levels, scenes, k);
    TopOfSortDesc(cands, ByHighlightScore, MaxHighlights,
                  SegmentHighlight(transcription.segments[k], transcription.duration, levels, scenes).value);
  }

  /** `findHighlightMoments` over the analysis of the transcription. */
  method FindHighlightMoments(transcription: Transcription, audioLevels: seq<AudioLevel>, sceneChanges: seq<SceneChange>)
    returns (highlights: seq<Highlight>)
    ensures highlights == HighlightsOf(transcription, audioLevels, sceneChanges)
    ensures |highlights| <= 5 && NonIncreasing(highlights, ByHighlightScore)
  {
    var found: seq<Highlight> := [];
    var analysis := AnalyzeTranscription(transcription);
    var segments := transcription.segments;
    for i := 0 to |segments|
      invariant found == HighlightCandidates(segments[..i], transcription.duration, audioLevels, sceneChanges)
    {
      var segment := segments[i];
      ghost var expected := SegmentHighlight(segment, transcription.duration, audioLevels, sceneChanges);
      HighlightCandidatesStep(segments, transcription.duration, audioLevels, sceneChanges, i);
      var engagement := analysis.engagementScore[i].value;
      var intensity := analysis.speechIntensity[i].value;
      assert engagement == EngagementScore(segment.text, segment.confidence);
      assert intensity == SpeechIntensity(segment);
      if !intensity.NegativeInfinity? {
        var speechIntensity := if intensity.Finite? then intensity.value else 0.0;
        var audioScore := AudioScore(audioLevels, segment.start);
        var sceneScore := SceneScore(sceneChanges, segment.start);
        var combinedScore := CombinedScore(engagement, speechIntensity, audioScore, sceneScore);
        if combinedScore > HighlightThreshold {
          var highlight := Highlight(Max(0.0, segment.start - 2.0), Min(segment.end + 2.0, transcription.duration),
                                     combinedScore, segment.text,
                                     HighlightReason(engagement, speechIntensity, audioScore, sceneScore));
          SegmentHighlightAbove(segment, transcription.duration, audioLevels, sceneChanges);
          found := found + [highlight];
        } else {
          assert expected == None;
        }
      } else {
        assert expected == None;
      }
    }
    assert segments[..|segments|] == segments;
    highlights := Take(SortDesc(found, ByHighlightScore), MaxHighlights);
    HighlightsFacts(transcription, audioLevels, sceneChanges);
  }
}
