/** The scoring block of the `/analyze` handler (backend/index.js): from a
    finished transcription it derives the filler count, the mean sentiment,
    the speaking rate, a rounded confidence and the ordered list of tips.
    Numbers are exact reals; `Math.round` is floor(x + 1/2). */
module SpeechScore {
  import opened Wrappers
  import opened RecordingTypes

  /** A detected entity; only its type matters to the score. */
  datatype Entity = Entity(entityType: string, text: string)

  /** A transcript segment with the provider's sentiment label. */
  datatype SentimentSegment = SentimentSegment(text: string, sentiment: string)

  /** A recognised word with its start and end times. */
  datatype Word = Word(text: string, start: int, end: int)

  /** A transcription job as the provider reports it; the list fields may be
      absent, and `audioDuration` is in seconds. */
  datatype Transcript = Transcript(
    status: string,
    text: string,
    entities: Option<seq<Entity>>,
    sentimentResults: Option<seq<SentimentSegment>>,
    words: Option<seq<Word>>,
    audioDuration: real)

  const ToneTip: string := "Try a more positive tone to sound confident"
  const FillerTip: string := "Reduce filler words (e.g., \"um\") for authority"
  const SlowDownTip: string := "Slow down to improve clarity"
  const SpeakFasterTip: string := "Speak faster for more energy"

  predicate IsFiller(e: Entity) { e.entityType == "filler" }

  /** `entities.filter(e => e.entity_type === 'filler')` */
  function Fillers(es: seq<Entity>): (r: seq<Entity>)
    ensures |r| <= |es|
    ensures forall e :: e in r <==> e in es && IsFiller(e)
  {
    if es == [] then []
    else
      var last := es[|es| - 1];
      Fillers(es[..|es| - 1]) + (if IsFiller(last) then [last] else [])
  }

  /** The filler count: how many filler entities there are, 0 when the
      entity list is absent. */
  function FillerCount(entities: Option<seq<Entity>>): (n: nat)
    ensures entities.None? ==> n == 0
    ensures entities.Some? ==> n <= |entities.value|
  {
    if entities.Some? then |Fillers(entities.value)| else 0
  }

  /** Positions of the filler entities. */
  ghost function FillerIndices(es: seq<Entity>): set<int> {
    set i | 0 <= i < |es| && IsFiller(es[i])
  }

  /** The filler count is the number of positions whose entity is a filler. */
  lemma {:induction false} FillerCountIsFillerPositions(es: seq<Entity>)
    ensures FillerCount(Some(es)) == |FillerIndices(es)|
  {
    if es != [] {
      var n := |es| - 1;
      var init := es[..n];
      FillerCountIsFillerPositions(init);
      var before, after := FillerIndices(init), FillerIndices(es);
      assert forall i :: 0 <= i < n ==> init[i] == es[i];
      assert n !in before;
      var added := if IsFiller(es[n]) then {n} else {};
      forall i | i in after
        ensures i in before + added
      {
        if i < n {
          assert IsFiller(init[i]);
        }
      }
      forall i | i in before + added
        ensures i in after
      {
      }
      assert after == before + added;
    }
  }

  /** POSITIVE counts 1, NEUTRAL 0.5, any other sentiment 0. */
  function SentimentValue(sentiment: string): (v: real)
    ensures v == 1.0 <==> sentiment == "POSITIVE"
    ensures v == 0.5 <==> sentiment == "NEUTRAL"
    ensures v == 0.0 <==> sentiment != "POSITIVE" && sentiment != "NEUTRAL"
  {
    if sentiment == "POSITIVE" then 1.0 else if sentiment == "NEUTRAL" then 0.5 else 0.0
  }

  /** The `reduce` over the segments, from the left, starting at 0. */
  function SentimentSum(segments: seq<SentimentSegment>): (sum: real)
    ensures 0.0 <= sum <= |segments| as real
  {
    if segments == [] then 0.0
    else SentimentSum(segments[..|segments| - 1]) + SentimentValue(segments[|segments| - 1].sentiment)
  }

  /** Positions of the segments with the given sentiment. */
  ghost function LabelIndices(segments: seq<SentimentSegment>, sentiment: string): set<int> {
    set i | 0 <= i < |segments| && segments[i].sentiment == sentiment
  }

  /** The sum counts each POSITIVE segment once and each NEUTRAL segment
      half. */
  lemma {:induction false} SentimentSumByLabel(segments: seq<SentimentSegment>)
    ensures SentimentSum(segments)
         == |LabelIndices(segments, "POSITIVE")| as real + 0.5 * |LabelIndices(segments, "NEUTRAL")| as real
  {
    if segments != [] {
      var n := |segments| - 1;
      SentimentSumByLabel(segments[..n]);
      LabelIndicesSnoc(segments, "POSITIVE");
      LabelIndicesSnoc(segments, "NEUTRAL");
    }
  }

  /** The last segment adds one position exactly when it has the sentiment. */
  lemma LabelIndicesSnoc(segments: seq<SentimentSegment>, sentiment: string)
    requires segments != []
    ensures |LabelIndices(segments, sentiment)|
         == |LabelIndices(segments[..|segments| - 1], sentiment)|
            + (if segments[|segments| - 1].sentiment == sentiment then 1 else 0)
  {
    var n := |segments| - 1;
    var init := segments[..n];
    var before, after := LabelIndices(init, sentiment), LabelIndices(segments, sentiment);
    assert forall i :: 0 <= i < n ==> init[i] == segments[i];
    assert n !in before;
    var added := if segments[n].sentiment == sentiment then {n} else {};
    forall i | i in after
      ensures i in before + added
    {
      if i < n {
        assert init[i].sentiment == sentiment;
      }
    }
    forall i | i in before + added
      ensures i in after
    {
    }
    assert after == before + added;
  }

  /** The mean sentiment: 0 without results; otherwise the mean value of the
      segments, which lies in [0, 1]. An empty but present list (0/0 in JavaScript)
      is excluded. */
  function SentimentScore(results: Option<seq<SentimentSegment>>): (s: real)
    requires results.Some? ==> |results.value| > 0
    ensures 0.0 <= s <= 1.0
    ensures results.None? ==> s == 0.0
  {
    if results.Some? then SentimentSum(results.value) / |results.value| as real else 0.0
  }

  /** A list of only POSITIVE segments scores 1, one with no POSITIVE or
      NEUTRAL segment scores 0. */
  lemma SentimentScoreExtremes(segments: seq<SentimentSegment>)
    requires |segments| > 0
    ensures (forall i :: 0 <= i < |segments| ==> segments[i].sentiment == "POSITIVE")
            ==> SentimentScore(Some(segments)) == 1.0
    ensures (forall i :: 0 <= i < |segments| ==> segments[i].sentiment != "POSITIVE" && segments[i].sentiment != "NEUTRAL")
            ==> SentimentScore(Some(segments)) == 0.0
  {
    var n := |segments| as real;
    if forall i :: 0 <= i < |segments| ==> segments[i].sentiment == "POSITIVE" {
      AllPositiveSum(segments);
      assert SentimentScore(Some(segments)) == n / n;
    }
    if forall i :: 0 <= i < |segments| ==> segments[i].sentiment != "POSITIVE" && segments[i].sentiment != "NEUTRAL" {
      NoPositiveSum(segments);
      assert SentimentScore(Some(segments)) == 0.0 / n;
    }
  }

  lemma {:induction false} NoPositiveSum(segments: seq<SentimentSegment>)
    requires forall i :: 0 <= i < |segments| ==> segments[i].sentiment != "POSITIVE" && segments[i].sentiment != "NEUTRAL"
    ensures SentimentSum(segments) == 0.0
  {
    if segments != [] {
      NoPositiveSum(segments[..|segments| - 1]);
    }
  }

  lemma {:induction false} AllPositiveSum(segments: seq<SentimentSegment>)
    requires forall i :: 0 <= i < |segments| ==> segments[i].sentiment == "POSITIVE"
    ensures SentimentSum(segments) == |segments| as real
  {
    if segments != [] {
      AllPositiveSum(segments[..|segments| - 1]);
    }
  }

  /** Words per minute: 0 without a word list. A word list with a zero
      duration (Infinity in JavaScript, or NaN for an empty list) or a
      negative duration (a negative rate) is excluded. */
  function SpeakingRate(words: Option<seq<Word>>, audioDuration: real): (rate: real)
    requires words.Some? ==> audioDuration > 0.0
    ensures rate >= 0.0
    ensures words.None? ==> rate == 0.0
  {
    if words.Some? then |words.value| as real / (audioDuration / 60.0) else 0.0
  }

  /** The rate lies in the ideal band [120, 150] exactly when the word count
      is between 2 and 2.5 words per second of audio. */
  lemma RateInBand(words: seq<Word>, audioDuration: real)
    requires audioDuration > 0.0
    ensures 120.0 <= SpeakingRate(Some(words), audioDuration) <= 150.0
        <==> 2.0 * audioDuration <= |words| as real <= 2.5 * audioDuration
  {
    var n := |words| as real;
    var rate := SpeakingRate(Some(words), audioDuration);
    assert rate * audioDuration == 60.0 * n;
    assert 120.0 <= rate <==> 120.0 * audioDuration <= rate * audioDuration;
    assert rate <= 150.0 <==> rate * audioDuration <= 150.0 * audioDuration;
  }

  /** `Math.round(x)`: the nearest integer, halves rounded up. */
  function Round(x: real): (r: int)
    ensures r as real - 0.5 <= x < r as real + 0.5
  {
    (x + 0.5).Floor
  }

  /** The confidence: 40 points times the mean sentiment, 30 points when
      there are fewer than 5 fillers (15 otherwise), 30 points when the rate
      is within [120, 150] (18 otherwise), rounded. With a mean sentiment in
      [0, 1] it lies in [33, 100]. */
  function Confidence(sentimentScore: real, fillers: nat, speakingRate: real): (c: int)
    ensures 0.0 <= sentimentScore <= 1.0 ==> 33 <= c <= 100
    ensures sentimentScore == 1.0 && fillers < 5 && 120.0 <= speakingRate <= 150.0 ==> c == 100
    ensures sentimentScore == 0.0 && fillers >= 5 && !(120.0 <= speakingRate <= 150.0) ==> c == 33
  {
    Round(0.4 * sentimentScore * 100.0
          + 0.3 * (if fillers < 5 then 100.0 else 50.0)
          + 0.3 * (if 120.0 <= speakingRate && speakingRate <= 150.0 then 100.0 else 60.0))
  }

  /** Where a tip stands in the fixed order tone, filler, slow down, speak
      faster; 4 for anything else. */
  function TipRank(tip: string): nat {
    if tip == ToneTip then 0
    else if tip == FillerTip then 1
    else if tip == SlowDownTip then 2
    else if tip == SpeakFasterTip then 3
    else 4
  }

  /** The tips: the tone tip exactly when the mean sentiment is below 0.7,
      the filler tip exactly when there are more than 5 fillers, "slow down"
      exactly above 150 words per minute and "speak faster" exactly below
      120, never both; at most three, in the fixed order, none repeated. */
  function TipsFor(sentimentScore: real, fillers: nat, speakingRate: real): (tips: seq<string>)
    ensures ToneTip in tips <==> sentimentScore < 0.7
    ensures FillerTip in tips <==> fillers > 5
    ensures SlowDownTip in tips <==> speakingRate > 150.0
    ensures SpeakFasterTip in tips <==> speakingRate < 120.0
    ensures SlowDownTip !in tips && SpeakFasterTip !in tips <==> 120.0 <= speakingRate <= 150.0
    ensures |tips| <= 3
    ensures forall t :: t in tips ==> TipRank(t) < 4
    ensures forall i, j :: 0 <= i < j < |tips| ==> TipRank(tips[i]) < TipRank(tips[j])
  {
    (if sentimentScore < 0.7 then [ToneTip] else [])
    + (if fillers > 5 then [FillerTip] else [])
    + (if speakingRate > 150.0 then [SlowDownTip] else if speakingRate < 120.0 then [SpeakFasterTip] else [])
  }

  /** The `tips.push` sequence of the handler. */
  method CollectTips(sentimentScore: real, fillers: nat, speakingRate: real) returns (tips: seq<string>)
    ensures tips == TipsFor(sentimentScore, fillers, speakingRate)
  {
    tips := [];
    if sentimentScore < 0.7 {
      tips := tips + [ToneTip];
    }
    if fillers > 5 {
      tips := tips + [FillerTip];
    }
    if speakingRate > 150.0 {
      tips := tips + [SlowDownTip];
    } else if speakingRate < 120.0 {
      tips := tips + [SpeakFasterTip];
    }
  }

  /** What a scorable transcript excludes: an empty but present sentiment
      list, and a word list without a positive duration. */
  predicate Scorable(t: Transcript) {
    && (t.sentimentResults.Some? ==> |t.sentimentResults.value| > 0)
    && (t.words.Some? ==> t.audioDuration > 0.0)
  }

  /** The response body of a completed transcription. */
  function Score(t: Transcript): (r: AudioAnalysisResponse)
    requires Scorable(t)
    ensures r.transcript == t.text
    ensures 33 <= r.confidence <= 100 && |r.tips| <= 3
  {
    var fillers := FillerCount(t.entities);
    var sentimentScore := SentimentScore(t.sentimentResults);
    var speakingRate := SpeakingRate(t.words, t.audioDuration);
    AudioAnalysisResponse(t.text, Confidence(sentimentScore, fillers, speakingRate),
                          TipsFor(sentimentScore, fillers, speakingRate))
  }

  /** At exactly 5 fillers there is no filler tip, yet the filler term has
      already dropped from 30 to 15 points; the tip starts at 6. */
  lemma FillerBoundary(sentimentScore: real, speakingRate: real)
    ensures FillerTip !in TipsFor(sentimentScore, 5, speakingRate)
    ensures FillerTip in TipsFor(sentimentScore, 6, speakingRate)
    ensures Confidence(sentimentScore, 5, speakingRate) == Confidence(sentimentScore, 4, speakingRate) - 15
  {
    var rest := 0.4 * sentimentScore * 100.0
                + 0.3 * (if 120.0 <= speakingRate && speakingRate <= 150.0 then 100.0 else 60.0);
    assert Round(rest + 15.0) == Round(rest + 30.0) - 15;
  }

  /** A positive, fluent talk at 135 words per minute scores 100 with no
      tips. */
  lemma BestTalkExample()
    ensures Confidence(1.0, 0, 135.0) == 100 && TipsFor(1.0, 0, 135.0) == []
  {
  }

  /** A half-neutral talk with 8 fillers at 160 words per minute scores 53
      and gets the tone, filler and slow-down tips in that order. */
  lemma HurriedTalkExample()
    ensures Confidence(0.5, 8, 160.0) == 53
    ensures TipsFor(0.5, 8, 160.0) == [ToneTip, FillerTip, SlowDownTip]
  {
  }
}
