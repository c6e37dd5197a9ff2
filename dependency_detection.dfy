/** Dependency detection: the score of one interaction, the intervention level derived
    from it, and the trend over a chronological list of interactions. Scores and
    durations are exact reals, not IEEE floats. */
module DependencyDetection {
  import opened Text

  /** One interaction of a user. Only `text`, `dailyInteractions` and `sessionDuration`
      take part in scoring; the other fields are carried and never read. */
  datatype UserSession = UserSession(
    userId: string,
    text: string,
    timestamp: int,            // an opaque point in time
    dailyInteractions: int,
    sessionDuration: real,     // minutes
    emotionalIntensity: real)  // 0-10 scale

  const EmotionalDependencyKeywords: seq<string> := [
    "only you understand", "nobody else", "you're my only friend",
    "can't live without", "save me", "desperate", "hopeless",
    "you're all I have", "need you", "depend on you"
  ]

  const IsolationKeywords: seq<string> := [
    "no friends", "alone", "nobody cares", "isolated",
    "have no one", "can't talk to anyone", "no one understands",
    "everybody left me", "completely alone"
  ]

  const CrisisKeywords: seq<string> := [
    "want to die", "suicide", "end it all", "give up",
    "no point", "can't go on", "nothing matters",
    "better off dead", "harm myself"
  ]

  // ---------------------------------------------------------------------------
  // Keyword scoring

  /** The positions of the keywords that occur in `textLower`. */
  function MatchedIndices(keywords: seq<string>, textLower: string): set<int> {
    set i | 0 <= i < |keywords| && Contains(textLower, keywords[i])
  }

  /** How many of `keywords` occur in `textLower`, each counted once however often it occurs. */
  function CountMatches(keywords: seq<string>, textLower: string): (n: nat)
    ensures n <= |keywords|
    ensures n == 0 <==> forall i :: 0 <= i < |keywords| ==> !Contains(textLower, keywords[i])
  {
    if |keywords| == 0 then 0
    else
      CountMatches(keywords[..|keywords| - 1], textLower)
      + (if Contains(textLower, keywords[|keywords| - 1]) then 1 else 0)
  }

  /** The count is the number of distinct keyword positions that match. */
  lemma {:induction false} CountMatchesIsMatchedCount(keywords: seq<string>, textLower: string)
    ensures CountMatches(keywords, textLower) == |MatchedIndices(keywords, textLower)|
  {
    if |keywords| > 0 {
      var init := keywords[..|keywords| - 1];
      CountMatchesIsMatchedCount(init, textLower);
      var last := |keywords| - 1;
      var m := MatchedIndices(init, textLower);
      assert last !in m;
      if Contains(textLower, keywords[last]) {
        assert MatchedIndices(keywords, textLower) == m + {last};
      } else {
        assert MatchedIndices(keywords, textLower) == m;
      }
    }
  }

  /** Every keyword matching in `t1` also matches in `t2`. */
  predicate MatchesIncluded(keywords: seq<string>, t1: string, t2: string) {
    forall i :: 0 <= i < |keywords| && Contains(t1, keywords[i]) ==> Contains(t2, keywords[i])
  }

  /** Matching more keywords never lowers the count. */
  lemma {:induction false} CountMatchesMonotone(keywords: seq<string>, t1: string, t2: string)
    requires MatchesIncluded(keywords, t1, t2)
    ensures CountMatches(keywords, t1) <= CountMatches(keywords, t2)
  {
    if |keywords| > 0 {
      var init := keywords[..|keywords| - 1];
      assert MatchesIncluded(init, t1, t2) by {
        forall i | 0 <= i < |init| && Contains(t1, init[i]) ensures Contains(t2, init[i]) {
          assert init[i] == keywords[i];
        }
      }
      CountMatchesMonotone(init, t1, t2);
    }
  }

  /** `_score_keywords`: weight times the number of keywords occurring in the lower-cased text.
      Only the text is lower-cased, the keywords are compared as written. */
  function ScoreKeywords(text: string, keywords: seq<string>, weight: int): (r: int)
    ensures 0 <= weight ==> 0 <= r <= weight * |keywords|
  {
    var n := CountMatches(keywords, Lower(text));
    assert 0 <= weight ==> n * weight <= |keywords| * weight by {
      if 0 <= weight { MulMonotone(n, |keywords|, weight); }
    }
    n * weight
  }

  lemma MulMonotone(a: nat, b: nat, w: nat)
    requires a <= b
    ensures a * w <= b * w
  {
  }

  /** The keyword score is the weight times the number of DISTINCT keywords present:
      repeating a keyword in the text adds nothing. */
  lemma ScoreKeywordsCountsDistinct(text: string, keywords: seq<string>, weight: int)
    ensures ScoreKeywords(text, keywords, weight) == weight * |MatchedIndices(keywords, Lower(text))|
  {
    CountMatchesIsMatchedCount(keywords, Lower(text));
  }

  /** A keyword with an upper-case letter in it never counts, whatever the text. */
  lemma UppercaseKeywordNeverMatches(text: string, keywords: seq<string>, j: nat, k: nat)
    requires j < |keywords| && k < |keywords[j]| && IsUpper(keywords[j][k])
    ensures j !in MatchedIndices(keywords, Lower(text))
  {
    UpperNeverContained(Lower(text), keywords[j], k);
  }

  /** "you're all I have" holds a capital I, so it can never be matched, and at most
      nine of the ten emotional keywords ever count. */
  lemma AllIHaveNeverMatches(text: string)
    ensures !Contains(Lower(text), EmotionalDependencyKeywords[7])
    ensures CountMatches(EmotionalDependencyKeywords, Lower(text)) <= 9
  {
    UppercaseKeywordNeverMatches(text, EmotionalDependencyKeywords, 7, 11);
    var m := MatchedIndices(EmotionalDependencyKeywords, Lower(text));
    var others := {0, 1, 2, 3, 4, 5, 6, 8, 9};
    forall i | i in m ensures i in others {
      assert 0 <= i < 10 && i != 7;
    }
    CardinalityOfSubset(m, others);
    CountMatchesIsMatchedCount(EmotionalDependencyKeywords, Lower(text));
  }

  lemma CardinalityOfSubset(a: set<int>, b: set<int>)
    requires a <= b
    ensures |a| <= |b|
  {
    assert b == a + (b - a);
  }

  // ---------------------------------------------------------------------------
  // The five sub-scores and the total

  /** Frequency sub-score: two points per interaction today, capped at 30. */
  function FrequencyScore(dailyInteractions: int): (r: int)
    ensures r <= 30
    ensures r == 30 <==> dailyInteractions >= 15
    ensures 0 <= dailyInteractions ==> 0 <= r
  {
    if dailyInteractions * 2 < 30 then dailyInteractions * 2 else 30
  }

  /** Duration sub-score: half a point per minute, capped at 20. */
  function DurationScore(sessionDuration: real): (r: real)
    ensures r <= 20.0
    ensures r == 20.0 <==> sessionDuration >= 40.0
    ensures 0.0 <= sessionDuration ==> 0.0 <= r
  {
    if sessionDuration * 0.5 < 20.0 then sessionDuration * 0.5 else 20.0
  }

  /** Emotional sub-score: 5 per emotional keyword present, capped at 25. */
  function EmotionalScore(text: string): (r: int)
    ensures 0 <= r <= 25
    ensures r == 0 <==> forall i :: 0 <= i < |EmotionalDependencyKeywords| ==> !Contains(Lower(text), EmotionalDependencyKeywords[i])
  {
    var s := ScoreKeywords(text, EmotionalDependencyKeywords, 5);
    if s < 25 then s else 25
  }

  /** Isolation sub-score: 7 per isolation keyword present, capped at 25. */
  function IsolationScore(text: string): (r: int)
    ensures 0 <= r <= 25
    ensures r == 0 <==> forall i :: 0 <= i < |IsolationKeywords| ==> !Contains(Lower(text), IsolationKeywords[i])
  {
    var s := ScoreKeywords(text, IsolationKeywords, 7);
    if s < 25 then s else 25
  }

  /** Crisis sub-score: 15 per crisis keyword present, capped at 30. */
  function CrisisScore(text: string): (r: int)
    ensures 0 <= r <= 30
    ensures r == 0 <==> forall i :: 0 <= i < |CrisisKeywords| ==> !Contains(Lower(text), CrisisKeywords[i])
  {
    var s := ScoreKeywords(text, CrisisKeywords, 15);
    if s < 30 then s else 30
  }

  /** The numeric inputs are what the source expects of its callers. */
  predicate NonNegativeInputs(s: UserSession) {
    0 <= s.dailyInteractions && 0.0 <= s.sessionDuration
  }

  /** `calculate_dependency_score`: the sum of the five sub-scores, capped at 100. */
  function CalculateDependencyScore(s: UserSession): (r: real)
    ensures r <= 100.0
    ensures NonNegativeInputs(s) ==> 0.0 <= r
  {
    var total := FrequencyScore(s.dailyInteractions) as real + DurationScore(s.sessionDuration)
      + EmotionalScore(s.text) as real + IsolationScore(s.text) as real + CrisisScore(s.text) as real;
    if total < 100.0 then total else 100.0
  }

  /** The keywords of all three lists that match in `s1` also match in `s2`. */
  predicate KeywordsIncluded(s1: UserSession, s2: UserSession) {
    && MatchesIncluded(EmotionalDependencyKeywords, Lower(s1.text), Lower(s2.text))
    && MatchesIncluded(IsolationKeywords, Lower(s1.text), Lower(s2.text))
    && MatchesIncluded(CrisisKeywords, Lower(s1.text), Lower(s2.text))
  }

  /** The score is monotone in every input: more interactions, a longer session or
      more matching keywords never lower it. */
  lemma ScoreMonotone(s1: UserSession, s2: UserSession)
    requires s1.dailyInteractions <= s2.dailyInteractions
    requires s1.sessionDuration <= s2.sessionDuration
    requires KeywordsIncluded(s1, s2)
    ensures CalculateDependencyScore(s1) <= CalculateDependencyScore(s2)
  {
    KeywordScoreMonotone(s1.text, s2.text, EmotionalDependencyKeywords, 5);
    KeywordScoreMonotone(s1.text, s2.text, IsolationKeywords, 7);
    KeywordScoreMonotone(s1.text, s2.text, CrisisKeywords, 15);
    assert EmotionalScore(s1.text) <= EmotionalScore(s2.text);
    assert IsolationScore(s1.text) <= IsolationScore(s2.text);
    assert CrisisScore(s1.text) <= CrisisScore(s2.text);
    assert FrequencyScore(s1.dailyInteractions) <= FrequencyScore(s2.dailyInteractions);
    assert DurationScore(s1.sessionDuration) <= DurationScore(s2.sessionDuration);
  }

  lemma KeywordScoreMonotone(t1: string, t2: string, keywords: seq<string>, weight: nat)
    requires MatchesIncluded(keywords, Lower(t1), Lower(t2))
    ensures ScoreKeywords(t1, keywords, weight) <= ScoreKeywords(t2, keywords, weight)
  {
    CountMatchesMonotone(keywords, Lower(t1), Lower(t2));
    MulMonotone(CountMatches(keywords, Lower(t1)), CountMatches(keywords, Lower(t2)), weight);
  }

  /** Adding words to a message, before or after it, never lowers its score. */
  lemma ScoreGrowsWithText(s: UserSession, before: string, after: string)
    ensures CalculateDependencyScore(s) <= CalculateDependencyScore(s.(text := before + s.text + after))
  {
    var s2 := s.(text := before + s.text + after);
    LowerConcat(before, s.text);
    LowerConcat(before + s.text, after);
    assert Lower(s2.text) == Lower(before) + Lower(s.text) + Lower(after);
    forall kw | Contains(Lower(s.text), kw)
      ensures Contains(Lower(s2.text), kw)
    {
      ContainsExtended(Lower(before), Lower(s.text), Lower(after), kw);
    }
    ScoreMonotone(s, s2);
  }

  // ---------------------------------------------------------------------------
  // Intervention level

  const HighIntervention := "HIGH_INTERVENTION"
  const ModerateIntervention := "MODERATE_INTERVENTION"
  const GentleGuidance := "GENTLE_GUIDANCE"
  const NormalInteraction := "NORMAL_INTERACTION"

  /** `determine_intervention_level`: four bands, each closed at its lower edge. */
  function DetermineInterventionLevel(score: real): (level: string)
    ensures level == HighIntervention <==> score >= 70.0
    ensures level == ModerateIntervention <==> 40.0 <= score < 70.0
    ensures level == GentleGuidance <==> 20.0 <= score < 40.0
    ensures level == NormalInteraction <==> score < 20.0
  {
    if score >= 70.0 then HighIntervention
    else if score >= 40.0 then ModerateIntervention
    else if score >= 20.0 then GentleGuidance
    else NormalInteraction
  }

  /** The strength of a level, from 0 (normal) to 3 (high). */
  function LevelRank(level: string): nat {
    if level == HighIntervention then 3
    else if level == ModerateIntervention then 2
    else if level == GentleGuidance then 1
    else 0
  }

  /** A higher score never yields a weaker intervention. */
  lemma LevelMonotone(a: real, b: real)
    requires a <= b
    ensures LevelRank(DetermineInterventionLevel(a)) <= LevelRank(DetermineInterventionLevel(b))
  {
  }

  // ---------------------------------------------------------------------------
  // Trend over several sessions

  /** Python's `sum` of a list of scores. */
  function Sum(s: seq<real>): real {
    if |s| == 0 then 0.0 else Sum(s[..|s| - 1]) + s[|s| - 1]
  }

  /** Python's `max` of a non-empty list. */
  function MaxOf(s: seq<real>): (m: real)
    requires |s| > 0
    ensures m in s
    ensures forall i :: 0 <= i < |s| ==> s[i] <= m
  {
    if |s| == 1 then s[0]
    else
      var rest := MaxOf(s[..|s| - 1]);
      if s[|s| - 1] > rest then s[|s| - 1] else rest
  }

  /** The least element of a non-empty list. */
  function MinOf(s: seq<real>): (m: real)
    requires |s| > 0
    ensures m in s
    ensures forall i :: 0 <= i < |s| ==> m <= s[i]
  {
    if |s| == 1 then s[0]
    else
      var rest := MinOf(s[..|s| - 1]);
      if s[|s| - 1] < rest then s[|s| - 1] else rest
  }

  lemma {:induction false} SumBounds(s: seq<real>, lo: real, hi: real)
    requires forall i :: 0 <= i < |s| ==> lo <= s[i] <= hi
    ensures |s| as real * lo <= Sum(s) <= |s| as real * hi
  {
    if |s| > 0 {
      var init := s[..|s| - 1];
      assert forall i :: 0 <= i < |init| ==> init[i] == s[i];
      SumBounds(init, lo, hi);
      var n := |init| as real;
      assert Sum(s) == Sum(init) + s[|s| - 1];
      assert |s| as real * lo == n * lo + lo && |s| as real * hi == n * hi + hi;
    }
  }

  /** The mean of a non-empty list lies between its least and greatest element. */
  lemma AverageWithinRange(s: seq<real>)
    requires |s| > 0
    ensures MinOf(s) <= Sum(s) / |s| as real <= MaxOf(s)
  {
    AverageBetween(s, MinOf(s), MaxOf(s));
  }

  lemma AverageBetween(s: seq<real>, lo: real, hi: real)
    requires |s| > 0
    requires forall i :: 0 <= i < |s| ==> lo <= s[i] <= hi
    ensures lo <= Sum(s) / |s| as real <= hi
  {
    SumBounds(s, lo, hi);
    DivisionBounds(Sum(s), |s| as real, lo, hi);
  }

  lemma DivisionBounds(x: real, n: real, lo: real, hi: real)
    requires n > 0.0
    requires n * lo <= x <= n * hi
    ensures lo <= x / n <= hi
  {
    var q := x / n;
    assert q * n == x;
    assert (q - lo) * n == x - n * lo;
    assert (hi - q) * n == n * hi - x;
    PositiveFactor(q - lo, n);
    PositiveFactor(hi - q, n);
  }

  lemma PositiveFactor(a: real, n: real)
    requires n > 0.0 && a * n >= 0.0
    ensures a >= 0.0
  {
  }

  /** The scores of the sessions, in order. */
  function ScoresOf(sessions: seq<UserSession>): (scores: seq<real>)
    ensures |scores| == |sessions|
    ensures forall i :: 0 <= i < |sessions| ==> scores[i] == CalculateDependencyScore(sessions[i])
  {
    seq(|sessions|, i requires 0 <= i < |sessions| => CalculateDependencyScore(sessions[i]))
  }

  const Increasing := "increasing"
  const Decreasing := "decreasing"
  const InsufficientDataTrend := "insufficient_data"

  /** Mean of the last three scores. */
  function RecentAverage(scores: seq<real>): (r: real)
    requires |scores| >= 3
    ensures r == (scores[|scores| - 3] + scores[|scores| - 2] + scores[|scores| - 1]) / 3.0
  {
    var last := scores[|scores| - 3..];
    assert last == [scores[|scores| - 3], scores[|scores| - 2], scores[|scores| - 1]];
    SumOfThree(scores[|scores| - 3], scores[|scores| - 2], scores[|scores| - 1]);
    Sum(last) / 3.0
  }

  /** Mean of all but the last three scores; the divisor is at least one, so an empty
      rest has mean 0. */
  function EarlierAverage(scores: seq<real>): (r: real)
    requires |scores| >= 3
    ensures |scores| == 3 ==> r == 0.0
    ensures |scores| > 3 ==> r == Sum(scores[..|scores| - 3]) / (|scores| - 3) as real
  {
    var earlier := scores[..|scores| - 3];
    Sum(earlier) / (if |earlier| > 1 then |earlier| else 1) as real
  }

  /** The trend direction: "increasing" when the recent mean (or, for two sessions, the
      last score) is strictly above the earlier one, otherwise "decreasing". */
  function TrendDirection(scores: seq<real>): (trend: string)
    requires |scores| >= 2
    ensures trend == Increasing || trend == Decreasing
    ensures |scores| >= 3 ==> (trend == Increasing <==> RecentAverage(scores) > EarlierAverage(scores))
    ensures |scores| == 2 ==> (trend == Increasing <==> scores[1] > scores[0])
  {
    if |scores| >= 3 then
      (if RecentAverage(scores) > EarlierAverage(scores) then Increasing else Decreasing)
    else if scores[|scores| - 1] > scores[0] then Increasing
    else Decreasing
  }

  /** With exactly three sessions the earlier mean is 0, so the trend is "increasing"
      exactly when the three scores add up to more than 0. */
  lemma ThreeSessionTrend(scores: seq<real>)
    requires |scores| == 3
    ensures TrendDirection(scores) == Increasing <==> scores[0] + scores[1] + scores[2] > 0.0
  {
    assert scores[..0] == [];
    assert scores[0..] == scores == [scores[0], scores[1], scores[2]];
    SumOfThree(scores[0], scores[1], scores[2]);
  }

  lemma SumOfThree(a: real, b: real, c: real)
    ensures Sum([a, b, c]) == a + b + c
  {
    assert [a, b, c][..2] == [a, b];
    assert Sum([a, b, c]) == Sum([a, b]) + c;
    assert [a, b][..1] == [a];
    assert Sum([a, b]) == Sum([a]) + b;
    assert [a][..0] == [];
    assert Sum([a]) == Sum([]) + a;
  }

  const ImmediateInterventionRequired := "immediate_intervention_required"
  const EscalateBoundaryEnforcement := "escalate_boundary_enforcement"
  const IncreaseBoundaryReminders := "increase_boundary_reminders"
  const MaintainCurrentApproach := "maintain_current_approach"
  const ContinueMonitoring := "continue_monitoring"

  /** `_get_trend_recommendation`: the cascade, first match wins. */
  function TrendRecommendation(currentScore: real, trend: string): (rec: string)
    ensures rec == ImmediateInterventionRequired <==> currentScore >= 70.0
    ensures rec == EscalateBoundaryEnforcement <==> 50.0 <= currentScore < 70.0 && trend == Increasing
    ensures rec == IncreaseBoundaryReminders <==> 30.0 <= currentScore < 50.0 && trend == Increasing
    ensures rec == MaintainCurrentApproach <==>
      currentScore < 70.0 && trend == Decreasing
    ensures rec == ContinueMonitoring <==>
      currentScore < 70.0 && trend != Decreasing && !(currentScore >= 30.0 && trend == Increasing)
  {
    if currentScore >= 70.0 then ImmediateInterventionRequired
    else if currentScore >= 50.0 && trend == Increasing then EscalateBoundaryEnforcement
    else if currentScore >= 30.0 && trend == Increasing then IncreaseBoundaryReminders
    else if trend == Decreasing then MaintainCurrentApproach
    else ContinueMonitoring
  }

  /** The dictionary returned by `analyze_dependency_trend`: only a trend of
      "insufficient_data", or the full analysis. */
  datatype TrendAnalysis =
    | InsufficientData
    | Analysis(trend: string, currentScore: real, averageScore: real, peakScore: real,
               sessionsAnalyzed: nat, recommendation: string)
  {
    /** The value under the "trend" key. */
    function Trend(): string {
      if InsufficientData? then InsufficientDataTrend else trend
    }
  }

  /** The analysis of at least two scores. */
  function AnalyzeScores(scores: seq<real>): (a: TrendAnalysis)
    requires |scores| >= 2
    ensures a.Analysis?
    ensures a.currentScore == scores[|scores| - 1]
    ensures a.sessionsAnalyzed == |scores|
    ensures a.peakScore in scores && forall i :: 0 <= i < |scores| ==> scores[i] <= a.peakScore
    ensures a.averageScore == Sum(scores) / |scores| as real
    ensures MinOf(scores) <= a.averageScore <= a.peakScore
    ensures a.trend == TrendDirection(scores)
    ensures a.recommendation == TrendRecommendation(a.currentScore, a.trend)
  {
    AverageWithinRange(scores);
    var trend := TrendDirection(scores);
    Analysis(trend, scores[|scores| - 1], Sum(scores) / |scores| as real, MaxOf(scores),
             |scores|, TrendRecommendation(scores[|scores| - 1], trend))
  }

  /** `analyze_dependency_trend`. */
  function AnalyzeDependencyTrend(sessions: seq<UserSession>): (a: TrendAnalysis)
    ensures a.InsufficientData? <==> |sessions| < 2
    ensures a.Analysis? ==> a == AnalyzeScores(ScoresOf(sessions))
  {
    if |sessions| < 2 then InsufficientData
    else AnalyzeScores(ScoresOf(sessions))
  }

  /** What the full analysis of a session list promises: the last session's score, a
      peak no session exceeds, a mean between the lowest score and the peak, and, for
      sessions with non-negative inputs, all of them within [0, 100]. */
  lemma TrendAnalysisBounds(sessions: seq<UserSession>)
    requires |sessions| >= 2
    ensures var a := AnalyzeDependencyTrend(sessions);
      && a.Trend() in {Increasing, Decreasing}
      && a.currentScore == CalculateDependencyScore(sessions[|sessions| - 1])
      && a.sessionsAnalyzed == |sessions|
      && (forall i :: 0 <= i < |sessions| ==> CalculateDependencyScore(sessions[i]) <= a.peakScore)
      && (exists i :: 0 <= i < |sessions| && CalculateDependencyScore(sessions[i]) <= a.averageScore)
      && a.averageScore <= a.peakScore <= 100.0
      && ((forall i :: 0 <= i < |sessions| ==> NonNegativeInputs(sessions[i])) ==> 0.0 <= a.averageScore)
  {
    var scores := ScoresOf(sessions);
    var a := AnalyzeScores(scores);
    assert AnalyzeDependencyTrend(sessions) == a;
    var lo := MinOf(scores);
    var k :| 0 <= k < |scores| && scores[k] == lo;
    assert CalculateDependencyScore(sessions[k]) <= a.averageScore;
    var p :| 0 <= p < |scores| && scores[p] == a.peakScore;
    assert a.peakScore == CalculateDependencyScore(sessions[p]) <= 100.0;
    if forall i :: 0 <= i < |sessions| ==> NonNegativeInputs(sessions[i]) {
      assert 0.0 <= CalculateDependencyScore(sessions[k]);
    }
  }

  /** In a full analysis the last, catch-all recommendation is reached exactly when the
      trend is increasing and the current score is below 30. */
  lemma ContinueMonitoringOnlyWhenLowAndIncreasing(sessions: seq<UserSession>)
    requires |sessions| >= 2
    ensures var a := AnalyzeDependencyTrend(sessions);
      a.recommendation == ContinueMonitoring <==> a.trend == Increasing && a.currentScore < 30.0
  {
  }
}
