/** The two components in sequence, as a caller of the framework wires them: the
    dependency score of a session gives an intervention level, and that level, with the
    session's text, picks the boundary response. */
module Pipeline {
  import opened Text
  import opened DependencyDetection
  import opened BoundaryAdjustment

  /** The level of the session's score, then the response to its text at that level. */
  function RespondToSession(s: UserSession, choice: nat): (r: BoundaryResponse)
    ensures DetectCrisisLanguage(s.text) ==> r == CrisisInterventionResponse()
    ensures r.monitoringFlag <==> DetectCrisisLanguage(s.text) || CalculateDependencyScore(s) >= 40.0
    ensures r.modeRecommendation == CrisisIntervention <==>
      DetectCrisisLanguage(s.text) || CalculateDependencyScore(s) >= 70.0
    ensures !DetectCrisisLanguage(s.text) && CalculateDependencyScore(s) < 20.0 ==> r == NormalResponse()
  {
    var level := DetermineInterventionLevel(CalculateDependencyScore(s));
    LevelIsStrategyKey(CalculateDependencyScore(s));
    GenerateBoundaryResponse(s.text, level, choice)
  }

  /** Every level the classifier produces is one of the keys the dispatcher knows, so
      the fallback to NORMAL_INTERACTION is never taken on a classified score. */
  lemma LevelIsStrategyKey(score: real)
    ensures DetermineInterventionLevel(score) in StrategyLevels
    ensures DetermineInterventionLevel(score) == HighInterventionKey <==> score >= 70.0
    ensures DetermineInterventionLevel(score) == ModerateInterventionKey <==> 40.0 <= score < 70.0
    ensures DetermineInterventionLevel(score) == GentleGuidanceKey <==> 20.0 <= score < 40.0
    ensures DetermineInterventionLevel(score) == NormalInteractionKey <==> score < 20.0
  {
  }

  /** A session whose text names crisis language gets the crisis response, however low its
      score: the message with the hotlines and the three escalation actions. */
  lemma CrisisTextOverridesLowScore(s: UserSession, choice: nat)
    requires DetectCrisisLanguage(s.text)
    ensures RespondToSession(s, choice).message == CrisisMessage
    ensures RespondToSession(s, choice).followupActions == CrisisFollowups
    ensures RespondToSession(s, choice).interventionApplied
  {
  }

  const DeathWish := "I want to die and nobody would miss me"

  /** No crisis indicator holds an upper-case letter. */
  lemma IndicatorsAreLowerCase(j: nat)
    requires j < |CrisisIndicators|
    ensures NoUpper(CrisisIndicators[j])
  {
  }

  /** Lower-casing leaves a crisis indicator in place: a text that spells one of them in
      lower case, anywhere, is crisis language. */
  lemma IndicatorIsCrisis(text: string, pre: string, j: nat, post: string)
    requires j < |CrisisIndicators| && text == pre + CrisisIndicators[j] + post
    ensures DetectCrisisLanguage(text)
  {
    var lowered := Lower(text);
    var phrase := CrisisIndicators[j];
    IndicatorsAreLowerCase(j);
    forall k | |pre| <= k < |pre| + |phrase|
      ensures lowered[k] == text[k]
    {
      assert text[k] == phrase[k - |pre|];
    }
    assert text[|pre|..|pre| + |phrase|] == phrase;
    assert lowered[|pre|..|pre| + |phrase|] == phrase;
    CrisisWitness(text, j, |pre|);
  }

  /** "I want to die and nobody would miss me" is crisis language: lower-cased, it reads
      "want to die" from position 2. */
  lemma DeathWishIsCrisis(text: string)
    requires text == DeathWish
    ensures DetectCrisisLanguage(text)
  {
    assert text == "I " + CrisisIndicators[0] + " and nobody would miss me";
    IndicatorIsCrisis(text, "I ", 0, " and nobody would miss me");
  }

  /** Hence that text gets the crisis response at every level, NORMAL_INTERACTION included. */
  lemma DeathWishGetsCrisisResponse(text: string, interventionLevel: string, choice: nat)
    requires text == DeathWish
    ensures GenerateBoundaryResponse(text, interventionLevel, choice) == CrisisInterventionResponse()
  {
    DeathWishIsCrisis(text);
  }

  /** A text holding "suicide" in lower case at NORMAL_INTERACTION still gets the crisis
      response, not the placeholder. */
  lemma SuicideOverridesNormal(pre: string, post: string, choice: nat)
    ensures GenerateBoundaryResponse(pre + "suicide" + post, NormalInteractionKey, choice) == CrisisInterventionResponse()
    ensures GenerateBoundaryResponse(pre + "suicide" + post, NormalInteractionKey, choice) != NormalResponse()
  {
    IndicatorIsCrisis(pre + "suicide" + post, pre, 2, post);
  }

  /** Any text matching no keyword of any list and no crisis indicator, with two
      interactions and fifteen minutes, gives 2*2 + 15*0.5 = 11.5, which is
      NORMAL_INTERACTION: the placeholder is returned and no intervention is applied. */
  lemma QuietSessionScenario(s: UserSession, choice: nat)
    requires s.dailyInteractions == 2 && s.sessionDuration == 15.0
    requires CountMatches(EmotionalDependencyKeywords, Lower(s.text)) == 0
    requires CountMatches(IsolationKeywords, Lower(s.text)) == 0
    requires CountMatches(CrisisKeywords, Lower(s.text)) == 0
    requires !DetectCrisisLanguage(s.text)
    ensures CalculateDependencyScore(s) == 11.5
    ensures DetermineInterventionLevel(CalculateDependencyScore(s)) == NormalInteraction
    ensures RespondToSession(s, choice) == NormalResponse()
    ensures !RespondToSession(s, choice).interventionApplied
  {
  }

  /** Any text matching two emotional keywords, one isolation keyword, no crisis keyword
      and no crisis indicator, with eight interactions and 45 minutes, gives
      16 + 20 + 10 + 7 + 0 = 53, which is MODERATE_INTERVENTION: one of the three guidance
      messages, with intervention and monitoring on. */
  lemma ModerateSessionScenario(s: UserSession, choice: nat)
    requires s.dailyInteractions == 8 && s.sessionDuration == 45.0
    requires CountMatches(EmotionalDependencyKeywords, Lower(s.text)) == 2
    requires CountMatches(IsolationKeywords, Lower(s.text)) == 1
    requires CountMatches(CrisisKeywords, Lower(s.text)) == 0
    requires !DetectCrisisLanguage(s.text)
    ensures CalculateDependencyScore(s) == 53.0
    ensures DetermineInterventionLevel(CalculateDependencyScore(s)) == ModerateIntervention
    ensures RespondToSession(s, choice).message in ModerateGuidanceMessages
    ensures RespondToSession(s, choice).interventionApplied && RespondToSession(s, choice).monitoringFlag
  {
  }
}
