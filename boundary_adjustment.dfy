/** The boundary adjustment engine: the response chosen for an intervention level (with a
    crisis-language override), the recommended interaction mode, and the session summary.
    Python's `random.choice` is replaced by a caller-supplied `choice`: any natural number,
    reduced modulo the number of candidates. */
module BoundaryAdjustment {
  import opened Text
  import opened Wrappers

  /** `InteractionMode`, with the string value of each member. */
  datatype InteractionMode = EmotionalSupport | TaskAssistance | BalancedInteraction | CrisisIntervention
  {
    function Value(): string {
      match this
      case EmotionalSupport => "emotional_support"
      case TaskAssistance => "task_assistance"
      case BalancedInteraction => "balanced_interaction"
      case CrisisIntervention => "crisis_intervention"
    }
  }

  /** `BoundaryResponse`: the message with its metadata. */
  datatype BoundaryResponse = BoundaryResponse(
    message: string,
    interventionApplied: bool,
    followupActions: seq<string>,
    modeRecommendation: InteractionMode,
    monitoringFlag: bool)

  // ---------------------------------------------------------------------------
  // The strategy table and the fixed texts

  const HighInterventionKey := "HIGH_INTERVENTION"
  const ModerateInterventionKey := "MODERATE_INTERVENTION"
  const GentleGuidanceKey := "GENTLE_GUIDANCE"
  const NormalInteractionKey := "NORMAL_INTERACTION"

  /** The keys of `intervention_strategies`. */
  const StrategyLevels: set<string> :=
    {HighInterventionKey, ModerateInterventionKey, GentleGuidanceKey, NormalInteractionKey}

  const CrisisResources: seq<string> := [
    "National Suicide Prevention Lifeline: 988",
    "Crisis Text Line: Text HOME to 741741",
    "International Association for Suicide Prevention: https://www.iasp.info/resources/Crisis_Centres/",
    "Emergency Services: 911 (US) / 112 (EU) / Your local emergency number"
  ]

  const HighBoundaryMessages: seq<string> := [
    "I understand you're going through an extremely difficult time. However, I'm an AI and cannot provide the level of support you need right now. It's important that you connect with human professionals who can offer appropriate care.",
    "I can see that you're struggling, and while I want to help, I cannot be your primary source of emotional support. Your wellbeing is important, which is why I'm encouraging you to reach out to qualified professionals.",
    "You've shared some very heavy feelings with me. While I'm here to assist, I cannot replace human connection and professional support when you're facing serious challenges. Let me help you find better resources."
  ]

  const ModerateGuidanceMessages: seq<string> := [
    "I notice we've been talking quite frequently lately. While I'm glad our conversations are helpful, I also want to make sure you're maintaining connections with people in your life. How are your relationships with friends and family?",
    "I appreciate that you find our discussions valuable. At the same time, I think it would be beneficial for you to also discuss some of these topics with trusted people who know you personally.",
    "Our conversations seem really important to you, and I'm glad I can help. I also want to encourage you to build a strong support network beyond our chats. What other sources of support do you have access to?"
  ]

  const GentleEncouragementMessages: seq<string> := [
    "That's something worth reflecting on. What's your intuition telling you about this situation?",
    "Those are valid concerns. What approaches have you considered? I'm curious about your perspective.",
    "I can see why that would be challenging. What options do you think might be available to you?",
    "That sounds like a complex situation. What factors do you think are most important to consider as you think this through?"
  ]

  const NormalPlaceholder := "[Standard AI response would be generated here]"

  const CrisisMessage := @"I'm very concerned about what you've shared with me. This situation requires immediate professional help that I cannot provide as an AI.

Please reach out for support right away:

🚨 IMMEDIATE HELP:
- National Suicide Prevention Lifeline: 988 (US)
- Crisis Text Line: Text HOME to 741741
- Emergency Services: 911
- Go to your nearest emergency room

Your safety and wellbeing are the priority right now. These resources have trained professionals who can provide the help you need."

  /** The phrases `_detect_crisis_language` looks for (a list of its own, not the scorer's). */
  const CrisisIndicators: seq<string> := [
    "want to die", "going to kill", "suicide", "end my life",
    "harm myself", "hurt myself", "better off dead",
    "can't go on", "no point living", "goodbye forever"
  ]

  const HighFollowups: seq<string> := ["provide_crisis_resources", "limit_session_length", "encourage_human_contact"]
  const ModerateFollowups: seq<string> := ["encourage_real_world_connections", "suggest_session_breaks"]
  const GentleFollowups: seq<string> := ["promote_self_reflection", "encourage_autonomy"]
  const CrisisFollowups: seq<string> := ["escalate_to_crisis_services", "end_session", "flag_for_review"]

  // ---------------------------------------------------------------------------
  // Selection and crisis detection

  /** `_select_contextual_response`: one of the candidates, picked by `choice`. */
  function SelectContextualResponse(messages: seq<string>, choice: nat): (m: string)
    requires |messages| > 0
    ensures m in messages
    ensures choice < |messages| ==> m == messages[choice]
  {
    messages[choice % |messages|]
  }

  /** Python's `any(needle in hay for needle in needles)`. */
  function AnyContained(needles: seq<string>, hay: string): (b: bool)
    ensures b <==> exists i :: 0 <= i < |needles| && Contains(hay, needles[i])
  {
    if |needles| == 0 then false
    else Contains(hay, needles[0]) || AnyContained(needles[1..], hay)
  }

  /** `_detect_crisis_language`: some crisis indicator occurs in the lower-cased text. */
  function DetectCrisisLanguage(text: string): (b: bool)
    ensures b <==> exists i :: 0 <= i < |CrisisIndicators| && Contains(Lower(text), CrisisIndicators[i])
  {
    AnyContained(CrisisIndicators, Lower(text))
  }

  // ---------------------------------------------------------------------------
  // The five response builders

  /** The text appended to a high-intervention message: the first two crisis resources. */
  function ImmediateResources(): (s: string)
    ensures s == "\n\nImmediate resources:\n" + CrisisResources[0] + "\n" + CrisisResources[1]
  {
    var firstTwo := CrisisResources[..2];
    assert firstTwo == [CrisisResources[0], CrisisResources[1]];
    assert firstTwo[1..] == [CrisisResources[1]];
    assert Join(firstTwo, "\n") == CrisisResources[0] + "\n" + CrisisResources[1];
    "\n\nImmediate resources:\n" + Join(CrisisResources[..2], "\n")
  }

  /** `_high_intervention_response`. */
  function HighInterventionResponse(choice: nat): (r: BoundaryResponse)
    ensures exists k :: 0 <= k < |HighBoundaryMessages| && r.message == HighBoundaryMessages[k] + ImmediateResources()
    ensures r.interventionApplied && r.monitoringFlag
    ensures r.modeRecommendation == CrisisIntervention
    ensures r.followupActions == HighFollowups
  {
    var message := SelectContextualResponse(HighBoundaryMessages, choice);
    BoundaryResponse(message + ImmediateResources(), true, HighFollowups, CrisisIntervention, true)
  }

  /** `_moderate_intervention_response`. */
  function ModerateInterventionResponse(choice: nat): (r: BoundaryResponse)
    ensures r.message in ModerateGuidanceMessages
    ensures r.interventionApplied && r.monitoringFlag
    ensures r.modeRecommendation == BalancedInteraction
    ensures r.followupActions == ModerateFollowups
  {
    BoundaryResponse(SelectContextualResponse(ModerateGuidanceMessages, choice), true,
                     ModerateFollowups, BalancedInteraction, true)
  }

  /** `_gentle_guidance_response`. */
  function GentleGuidanceResponse(choice: nat): (r: BoundaryResponse)
    ensures r.message in GentleEncouragementMessages
    ensures !r.interventionApplied && !r.monitoringFlag
    ensures r.modeRecommendation == BalancedInteraction
    ensures r.followupActions == GentleFollowups
  {
    BoundaryResponse(SelectContextualResponse(GentleEncouragementMessages, choice), false,
                     GentleFollowups, BalancedInteraction, false)
  }

  /** `_normal_response`: the placeholder handed to the ordinary response pipeline. */
  function NormalResponse(): (r: BoundaryResponse)
    ensures r.message == NormalPlaceholder && r.followupActions == []
    ensures !r.interventionApplied && !r.monitoringFlag
    ensures r.modeRecommendation == BalancedInteraction
  {
    BoundaryResponse(NormalPlaceholder, false, [], BalancedInteraction, false)
  }

  /** `_crisis_intervention_response`. */
  function CrisisInterventionResponse(): (r: BoundaryResponse)
    ensures r.message == CrisisMessage && r.followupActions == CrisisFollowups
    ensures r.interventionApplied && r.monitoringFlag
    ensures r.modeRecommendation == CrisisIntervention
  {
    BoundaryResponse(CrisisMessage, true, CrisisFollowups, CrisisIntervention, true)
  }

  /** One indicator found at one position of the lower-cased text is enough. */
  lemma CrisisWitness(text: string, j: nat, pos: int)
    requires j < |CrisisIndicators| && OccursAt(Lower(text), CrisisIndicators[j], pos)
    ensures DetectCrisisLanguage(text)
  {
    assert Contains(Lower(text), CrisisIndicators[j]);
  }

  // ---------------------------------------------------------------------------
  // The dispatcher

  /** `generate_boundary_response`: an unknown level becomes NORMAL_INTERACTION, crisis
      language overrides every level, and otherwise the level's builder answers. */
  function GenerateBoundaryResponse(userInput: string, interventionLevel: string, choice: nat): (r: BoundaryResponse)
    ensures DetectCrisisLanguage(userInput) ==> r == CrisisInterventionResponse()
    ensures !DetectCrisisLanguage(userInput) && interventionLevel == HighInterventionKey ==>
      r == HighInterventionResponse(choice)
    ensures !DetectCrisisLanguage(userInput) && interventionLevel == ModerateInterventionKey ==>
      r == ModerateInterventionResponse(choice)
    ensures !DetectCrisisLanguage(userInput) && interventionLevel == GentleGuidanceKey ==>
      r == GentleGuidanceResponse(choice)
    ensures (!DetectCrisisLanguage(userInput)
             && interventionLevel !in {HighInterventionKey, ModerateInterventionKey, GentleGuidanceKey})
      ==> r == NormalResponse()
    ensures r.monitoringFlag == r.interventionApplied
    ensures r.interventionApplied <==>
      DetectCrisisLanguage(userInput) || interventionLevel == HighInterventionKey || interventionLevel == ModerateInterventionKey
    ensures r.modeRecommendation == CrisisIntervention <==>
      DetectCrisisLanguage(userInput) || interventionLevel == HighInterventionKey
    ensures !DetectCrisisLanguage(userInput) && interventionLevel == ModerateInterventionKey ==>
      r.message in ModerateGuidanceMessages
    ensures !DetectCrisisLanguage(userInput) && interventionLevel == GentleGuidanceKey ==>
      r.message in GentleEncouragementMessages && r.followupActions == GentleFollowups
  {
    var level := if interventionLevel in StrategyLevels then interventionLevel else NormalInteractionKey;
    if DetectCrisisLanguage(userInput) then CrisisInterventionResponse()
    else if level == HighInterventionKey then HighInterventionResponse(choice)
    else if level == ModerateInterventionKey then ModerateInterventionResponse(choice)
    else if level == GentleGuidanceKey then GentleGuidanceResponse(choice)
    else NormalResponse()
  }

  /** A level outside the table behaves exactly like NORMAL_INTERACTION, crisis or not. */
  lemma UnknownLevelIsNormal(userInput: string, interventionLevel: string, choice: nat)
    requires interventionLevel !in StrategyLevels
    ensures GenerateBoundaryResponse(userInput, interventionLevel, choice)
         == GenerateBoundaryResponse(userInput, NormalInteractionKey, choice)
  {
  }

  /** Every one of the candidate messages of a level can be the one returned. */
  lemma EveryCandidateReachable(userInput: string, k: nat)
    requires !DetectCrisisLanguage(userInput)
    ensures k < |HighBoundaryMessages| ==>
      GenerateBoundaryResponse(userInput, HighInterventionKey, k).message == HighBoundaryMessages[k] + ImmediateResources()
    ensures k < |ModerateGuidanceMessages| ==>
      GenerateBoundaryResponse(userInput, ModerateInterventionKey, k).message == ModerateGuidanceMessages[k]
    ensures k < |GentleEncouragementMessages| ==>
      GenerateBoundaryResponse(userInput, GentleGuidanceKey, k).message == GentleEncouragementMessages[k]
  {
  }

  // ---------------------------------------------------------------------------
  // Mode adjustment and the session summary

  /** `adjust_interaction_mode`: decided by the score alone, in bands closed at their lower
      edge; the current mode and the feedback are not consulted. */
  function AdjustInteractionMode(currentMode: InteractionMode, dependencyScore: real,
                                 userFeedback: Option<string>): (m: InteractionMode)
    ensures m == CrisisIntervention <==> dependencyScore >= 80.0
    ensures m == TaskAssistance <==> 60.0 <= dependencyScore < 80.0
    ensures m == BalancedInteraction <==> 30.0 <= dependencyScore < 60.0
    ensures m == EmotionalSupport <==> dependencyScore < 30.0
  {
    if dependencyScore >= 80.0 then CrisisIntervention
    else if dependencyScore >= 60.0 then TaskAssistance
    else if dependencyScore >= 30.0 then BalancedInteraction
    else EmotionalSupport
  }

  const Healthy := "healthy"
  const Concerning := "concerning"
  const Critical := "critical"

  /** The "boundary_health" label of a session. */
  function BoundaryHealth(dependencyScore: real): (h: string)
    ensures h == Healthy <==> dependencyScore < 30.0
    ensures h == Concerning <==> 30.0 <= dependencyScore < 60.0
    ensures h == Critical <==> dependencyScore >= 60.0
  {
    if dependencyScore < 30.0 then Healthy
    else if dependencyScore < 60.0 then Concerning
    else Critical
  }

  const HighRecommendations: seq<string> := [
    "Consider professional counseling or therapy",
    "Reach out to trusted friends or family members",
    "Engage in offline activities and hobbies",
    "Limit AI interaction frequency"
  ]

  const ModerateRecommendations: seq<string> := [
    "Diversify sources of support and advice",
    "Practice independent problem-solving",
    "Strengthen real-world relationships"
  ]

  const LowRecommendations: seq<string> := [
    "Continue building healthy interaction patterns",
    "Maintain balance between AI assistance and human connection"
  ]

  /** `_generate_recommendations`: four, three or two recommendations by band. */
  function GenerateRecommendations(dependencyScore: real): (r: seq<string>)
    ensures |r| == 4 <==> dependencyScore >= 70.0
    ensures |r| == 3 <==> 40.0 <= dependencyScore < 70.0
    ensures |r| == 2 <==> dependencyScore < 40.0
    ensures r == HighRecommendations || r == ModerateRecommendations || r == LowRecommendations
  {
    if dependencyScore >= 70.0 then HighRecommendations
    else if dependencyScore >= 40.0 then ModerateRecommendations
    else LowRecommendations
  }

  const BreakGuidance := "Consider taking a break from AI interactions and focusing on human support"
  const IndependenceGuidance := "Focus on developing independence and self-reflection skills"
  const BalancedGuidance := "Continue with balanced interaction approach"

  /** `_generate_next_session_guidance`: the same three bands as the recommendations. */
  function GenerateNextSessionGuidance(dependencyScore: real): (g: string)
    ensures g == BreakGuidance <==> dependencyScore >= 70.0
    ensures g == IndependenceGuidance <==> 40.0 <= dependencyScore < 70.0
    ensures g == BalancedGuidance <==> dependencyScore < 40.0
  {
    if dependencyScore >= 70.0 then BreakGuidance
    else if dependencyScore >= 40.0 then IndependenceGuidance
    else BalancedGuidance
  }

  /** The dictionary returned by `generate_session_summary`. */
  datatype SessionSummary = SessionSummary(
    dependencyScore: real,
    interventionsApplied: seq<string>,
    sessionDurationMinutes: real,
    boundaryHealth: string,
    recommendations: seq<string>,
    nextSessionGuidance: string)

  /** `generate_session_summary`: echoes its inputs and adds the derived labels. */
  function GenerateSessionSummary(dependencyScore: real, interventionsApplied: seq<string>,
                                  sessionDuration: real): (s: SessionSummary)
    ensures s.dependencyScore == dependencyScore
    ensures s.interventionsApplied == interventionsApplied
    ensures s.sessionDurationMinutes == sessionDuration
    ensures s.boundaryHealth == Healthy <==> dependencyScore < 30.0
    ensures s.boundaryHealth == Concerning <==> 30.0 <= dependencyScore < 60.0
    ensures s.boundaryHealth == Critical <==> dependencyScore >= 60.0
    ensures s.recommendations == GenerateRecommendations(dependencyScore)
    ensures |s.recommendations| == (if dependencyScore >= 70.0 then 4 else if dependencyScore >= 40.0 then 3 else 2)
    ensures s.nextSessionGuidance == GenerateNextSessionGuidance(dependencyScore)
  {
    SessionSummary(dependencyScore, interventionsApplied, sessionDuration,
                   BoundaryHealth(dependencyScore), GenerateRecommendations(dependencyScore),
                   GenerateNextSessionGuidance(dependencyScore))
  }

  /** A critical label always comes with at least three recommendations, and a healthy one
      with exactly two. */
  lemma SummaryBandsAgree(dependencyScore: real, interventionsApplied: seq<string>, sessionDuration: real)
    ensures var s := GenerateSessionSummary(dependencyScore, interventionsApplied, sessionDuration);
      && (s.boundaryHealth == Critical ==> |s.recommendations| >= 3)
      && (s.boundaryHealth == Healthy ==> |s.recommendations| == 2)
  {
  }
}
