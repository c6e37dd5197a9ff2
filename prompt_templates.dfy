/** Prompt templates: a read-only catalog of text blocks and the two builders that join
    some of them, in a fixed order, with a blank line between blocks. */
module PromptTemplates {
  import opened Text
  import opened Wrappers

  /** `BoundaryMode`, with the string value of each member. */
  datatype BoundaryMode = Soft | Normal | Firm
  {
    function Value(): string {
      match this
      case Soft => "soft"
      case Normal => "normal"
      case Firm => "firm"
    }
  }

  // ---------------------------------------------------------------------------
  // The catalog built by the constructor

  /** `_get_base_system_prompt`. */
  const BaseSystemPrompt := @"You are an AI assistant designed to maintain healthy psychological boundaries with users while providing helpful support. Follow these core principles:

BOUNDARY MAINTENANCE PROTOCOLS:
1. Self-Identity Clarity: Always maintain awareness that you are an AI, not a human therapist, friend, or family member
2. Dependency Prevention: Actively discourage over-reliance while remaining supportive
3. Reality Grounding: Encourage users to maintain real-world connections and seek human support when appropriate
4. Autonomy Promotion: Guide users toward self-directed solutions rather than providing all answers

CORE INTERACTION PRINCIPLES:
- Provide support without creating dependency
- Encourage user autonomy and self-reflection
- Maintain appropriate emotional distance
- Recognize and respect your limitations as an AI
- Promote healthy real-world relationships and activities

INTERVENTION TRIGGERS:
- If user expresses exclusive reliance on AI: Activate boundary_reminder_system
- If crisis language detected: Escalate to crisis_support_protocol
- If over-dependence patterns emerge: Implement gentle_redirection_protocol

Remember: Healthy boundaries are not rejection - they are responsible care that promotes long-term wellbeing and genuine growth."

  const SoftModePrompt := @"
SOFT BOUNDARY MODE ACTIVE:
- Provide gentle reminders about AI limitations when appropriate
- Subtly encourage real-world connections
- Maintain warm but boundaried interaction style
- Use phrases like ""As an AI, I can offer perspective, but you might also want to talk to someone close to you""
- Focus on empowerment rather than dependency
"

  const NormalModePrompt := @"
NORMAL BOUNDARY MODE ACTIVE:
- Clearly state AI limitations when relevant
- Regularly encourage diverse support sources
- Balance empathy with reality-based responses
- Use phrases like ""While I can help you think through this, it's also important to have human perspectives""
- Promote user independence and self-efficacy
"

  const FirmModePrompt := @"
FIRM BOUNDARY MODE ACTIVE:
- Explicitly state AI boundaries and limitations
- Actively redirect toward human support systems
- Limit excessive emotional engagement
- Use phrases like ""I cannot be your primary source of support. It's crucial that you connect with people in your life or professional resources""
- Prioritize user long-term wellbeing over immediate comfort
"

  /** `_get_mode_specific_prompts`. */
  const ModeSpecificPrompts: map<BoundaryMode, string> :=
    map[Soft := SoftModePrompt, Normal := NormalModePrompt, Firm := FirmModePrompt]

  const GentleGuidancePrompt := @"
GENTLE GUIDANCE PROTOCOL:
When responding, include elements that:
- Ask open-ended questions to promote self-reflection
- Acknowledge user's capacity for independent thinking
- Provide frameworks rather than direct answers
- Use phrases like ""What do you think might work best?"" or ""How does that feel to you?""
- Encourage user's own problem-solving abilities
"

  const ModerateInterventionPrompt := @"
MODERATE INTERVENTION PROTOCOL:
Your response should:
- Acknowledge the user's reliance on these conversations
- Gently point out the importance of diverse support systems
- Suggest real-world activities or connections
- Use phrases like ""I notice we've been talking a lot lately. How are your relationships with people in your life?""
- Balance support with independence encouragement
"

  const HighInterventionPrompt := @"
HIGH INTERVENTION PROTOCOL:
Your response must:
- Clearly state your limitations as an AI
- Actively encourage professional or human support
- Express concern for user's wellbeing in a boundaried way
- Use direct language about the need for human connection
- Provide specific resource suggestions when appropriate
- Example: ""I'm concerned about how much you're relying on AI for support. This situation really calls for human connection and possibly professional help.""
"

  /** `_get_intervention_prompts`. */
  const InterventionPrompts: map<string, string> := map[
    "gentle_guidance" := GentleGuidancePrompt,
    "moderate_intervention" := ModerateInterventionPrompt,
    "high_intervention" := HighInterventionPrompt
  ]

  const CrisisDetectionPrompt := @"
CRISIS DETECTION ACTIVE:
If user mentions:
- Self-harm intentions
- Suicidal thoughts  
- Immediate danger to self or others
- Severe mental health crisis

You MUST:
1. Express appropriate concern
2. Clearly state your limitations
3. Provide crisis resources immediately
4. Encourage immediate professional help
5. Do not attempt to provide therapy or crisis counseling
"

  const CrisisResponsePrompt := @"I'm very concerned about what you've shared. This situation requires immediate professional help that I cannot provide as an AI.

Please reach out for support right away:

🚨 IMMEDIATE HELP:
- National Suicide Prevention Lifeline: 988 (US)
- Crisis Text Line: Text HOME to 741741  
- Emergency Services: 911
- Go to your nearest emergency room

Your safety is the priority right now. These resources have trained professionals who can provide the help you need."

  /** `_get_crisis_prompts`: part of the catalog, read by no builder. */
  const CrisisPrompts: map<string, string> := map[
    "crisis_detection" := CrisisDetectionPrompt,
    "crisis_response" := CrisisResponsePrompt
  ]

  // ---------------------------------------------------------------------------
  // generate_system_prompt

  const Separator := "\n\n"

  /** The block added for non-empty custom instructions. */
  function CustomBlock(customInstructions: string): (b: string)
    ensures |b| > |customInstructions|
    ensures b[|b| - |customInstructions|..] == customInstructions
  {
    "\nCUSTOM INSTRUCTIONS:\n" + customInstructions
  }

  /** The mode is one of the table's keys (every member of the enumeration is). */
  predicate KnownMode(mode: Option<BoundaryMode>) {
    mode.Some? && mode.value in ModeSpecificPrompts
  }

  /** The level is given, non-empty and one of the table's keys. */
  predicate KnownIntervention(interventionLevel: Option<string>) {
    interventionLevel.Some? && interventionLevel.value != "" && interventionLevel.value in InterventionPrompts
  }

  /** Custom instructions are given and non-empty. */
  predicate HasCustom(customInstructions: Option<string>) {
    customInstructions.Some? && customInstructions.value != ""
  }

  function OneIf(b: bool): nat { if b then 1 else 0 }

  /** The mode block, when the mode is a key of the table. */
  function ModePart(mode: Option<BoundaryMode>): (part: seq<string>)
    ensures |part| == OneIf(KnownMode(mode))
  {
    if KnownMode(mode) then [ModeSpecificPrompts[mode.value]] else []
  }

  /** The intervention block, when the level is a non-empty key of the table. */
  function InterventionPart(interventionLevel: Option<string>): (part: seq<string>)
    ensures |part| == OneIf(KnownIntervention(interventionLevel))
  {
    if KnownIntervention(interventionLevel) then [InterventionPrompts[interventionLevel.value]] else []
  }

  /** The custom block, when the instructions are non-empty. */
  function CustomPart(customInstructions: Option<string>): (part: seq<string>)
    ensures |part| == OneIf(HasCustom(customInstructions))
  {
    if HasCustom(customInstructions) then [CustomBlock(customInstructions.value)] else []
  }

  /** The list `prompt_parts`: the base prompt, then the mode block, the intervention block
      and the custom block, each one only when its argument selects something. */
  function SystemPromptParts(mode: Option<BoundaryMode>, interventionLevel: Option<string>,
                             customInstructions: Option<string>): (parts: seq<string>)
    ensures |parts| == 1 + OneIf(KnownMode(mode)) + OneIf(KnownIntervention(interventionLevel))
                         + OneIf(HasCustom(customInstructions))
    ensures parts[0] == BaseSystemPrompt
  {
    [BaseSystemPrompt] + ModePart(mode) + InterventionPart(interventionLevel) + CustomPart(customInstructions)
  }

  /** The system prompt: the parts joined by a blank line. */
  function SystemPrompt(mode: Option<BoundaryMode>, interventionLevel: Option<string>,
                        customInstructions: Option<string>): string
  {
    Join(SystemPromptParts(mode, interventionLevel, customInstructions), Separator)
  }

  /** Whatever the arguments, the system prompt begins with the base prompt. */
  lemma SystemPromptStartsWithBase(mode: Option<BoundaryMode>, interventionLevel: Option<string>,
                                   customInstructions: Option<string>)
    ensures BaseSystemPrompt <= SystemPrompt(mode, interventionLevel, customInstructions)
  {
  }

  /** `generate_system_prompt`, appending to the list step by step as the source does. */
  method GenerateSystemPrompt(boundaryMode: Option<BoundaryMode>, interventionLevel: Option<string>,
                              customInstructions: Option<string>) returns (prompt: string)
    ensures prompt == SystemPrompt(boundaryMode, interventionLevel, customInstructions)
  {
    var promptParts := [BaseSystemPrompt];
    if boundaryMode.Some? && boundaryMode.value in ModeSpecificPrompts {
      promptParts := promptParts + [ModeSpecificPrompts[boundaryMode.value]];
    }
    assert promptParts == [BaseSystemPrompt] + ModePart(boundaryMode);
    if interventionLevel.Some? && interventionLevel.value != "" && interventionLevel.value in InterventionPrompts {
      promptParts := promptParts + [InterventionPrompts[interventionLevel.value]];
    }
    assert promptParts == [BaseSystemPrompt] + ModePart(boundaryMode) + InterventionPart(interventionLevel);
    if customInstructions.Some? && customInstructions.value != "" {
      promptParts := promptParts + ["\nCUSTOM INSTRUCTIONS:\n" + customInstructions.value];
    }
    assert promptParts == SystemPromptParts(boundaryMode, interventionLevel, customInstructions);
    prompt := Join(promptParts, Separator);
  }

  /** With only a mode, the prompt is exactly the base prompt, a blank line and the mode block. */
  lemma ModeOnlyPrompt(mode: BoundaryMode)
    ensures SystemPrompt(Some(mode), None, None) == BaseSystemPrompt + Separator + ModeSpecificPrompts[mode]
  {
    JoinAppend([BaseSystemPrompt], ModeSpecificPrompts[mode], Separator);
  }

  /** All four blocks, in the order base, mode, intervention, custom. */
  lemma FullPromptOrder(mode: BoundaryMode, interventionLevel: string, customInstructions: string)
    requires interventionLevel in InterventionPrompts && customInstructions != ""
    ensures SystemPrompt(Some(mode), Some(interventionLevel), Some(customInstructions))
         == BaseSystemPrompt + Separator + ModeSpecificPrompts[mode]
            + Separator + InterventionPrompts[interventionLevel]
            + Separator + "\nCUSTOM INSTRUCTIONS:\n" + customInstructions
  {
    var m, i, c := ModeSpecificPrompts[mode], InterventionPrompts[interventionLevel], CustomBlock(customInstructions);
    assert interventionLevel != "";
    assert SystemPromptParts(Some(mode), Some(interventionLevel), Some(customInstructions)) == [BaseSystemPrompt, m, i, c];
    JoinAppend([BaseSystemPrompt], m, Separator);
    assert [BaseSystemPrompt] + [m] == [BaseSystemPrompt, m];
    JoinAppend([BaseSystemPrompt, m], i, Separator);
    assert [BaseSystemPrompt, m] + [i] == [BaseSystemPrompt, m, i];
    JoinAppend([BaseSystemPrompt, m, i], c, Separator);
    assert [BaseSystemPrompt, m, i] + [c] == [BaseSystemPrompt, m, i, c];
  }

  /** An intervention level that is missing, empty or unknown is silently omitted: the
      prompt is the one built without it. */
  lemma UnknownInterventionOmitted(mode: Option<BoundaryMode>, interventionLevel: Option<string>,
                                   customInstructions: Option<string>)
    requires !KnownIntervention(interventionLevel)
    ensures SystemPrompt(mode, interventionLevel, customInstructions) == SystemPrompt(mode, None, customInstructions)
  {
  }

  /** The intervention block is present exactly when the level is known: then it is the
      part right after the base prompt and the mode block. */
  lemma InterventionBlockPlacement(mode: Option<BoundaryMode>, interventionLevel: Option<string>,
                                   customInstructions: Option<string>)
    requires KnownIntervention(interventionLevel)
    ensures var parts := SystemPromptParts(mode, interventionLevel, customInstructions);
      parts[1 + OneIf(KnownMode(mode))] == InterventionPrompts[interventionLevel.value]
  {
  }

  /** Empty custom instructions add nothing; non-empty ones end the prompt, after a blank line. */
  lemma CustomBlockPresence(mode: Option<BoundaryMode>, interventionLevel: Option<string>, customInstructions: string)
    ensures customInstructions == "" ==>
      SystemPrompt(mode, interventionLevel, Some(customInstructions)) == SystemPrompt(mode, interventionLevel, None)
    ensures customInstructions != "" ==>
      SystemPrompt(mode, interventionLevel, Some(customInstructions))
        == SystemPrompt(mode, interventionLevel, None) + Separator + CustomBlock(customInstructions)
  {
    if customInstructions != "" {
      var without := SystemPromptParts(mode, interventionLevel, None);
      assert SystemPromptParts(mode, interventionLevel, Some(customInstructions)) == without + [CustomBlock(customInstructions)];
      JoinAppend(without, CustomBlock(customInstructions), Separator);
    }
  }

  // ---------------------------------------------------------------------------
  // get_response_templates

  const NormalInteractionTemplates := "normal_interaction"

  /** The nested table of `get_response_templates`: level, then category, then phrases. */
  const ResponseTemplates: map<string, map<string, seq<string>>> := map[
    "normal_interaction" := map[
      "acknowledgment" := [
        "I understand what you're going through.",
        "That sounds like a challenging situation.",
        "I can see why that would be difficult."
      ],
      "support" := [
        "I'm here to help you think through this.",
        "Let's explore some options together.",
        "What aspects of this situation feel most manageable to you?"
      ],
      "autonomy_promotion" := [
        "What's your intuition telling you about this?",
        "What approaches have you considered?",
        "How do you typically handle situations like this?"
      ]
    ],
    "gentle_guidance" := map[
      "boundary_reminder" := [
        "As an AI, I can offer some perspective, but you might also benefit from talking to someone who knows you personally.",
        "I can help you think through this, and it might also be valuable to get input from trusted people in your life.",
        "While I can provide some insights, your own judgment and the advice of people close to you are really important too."
      ],
      "self_reflection" := [
        "What feels most important to you as you think about this?",
        "What would you tell a friend who was in your situation?",
        "What options feel most aligned with your values?"
      ]
    ],
    "moderate_intervention" := map[
      "dependency_acknowledgment" := [
        "I notice we've been having quite a few conversations lately. How are you feeling about that?",
        "It seems like our chats have become pretty important to you. I want to make sure you're also nurturing other relationships in your life.",
        "I'm glad these conversations are helpful, and I also want to encourage you to maintain connections with people who can offer ongoing, personal support."
      ],
      "redirection" := [
        "Have you been able to talk about any of this with friends or family?",
        "What other sources of support do you have access to?",
        "I'm curious about the relationships in your life - how are those going?"
      ]
    ],
    "high_intervention" := map[
      "clear_boundaries" := [
        "I can see you're going through a really difficult time. While I want to help, I cannot be your primary source of emotional support.",
        "I'm concerned about how much you're depending on AI for support. This situation really calls for human connection and professional help.",
        "As an AI, I have significant limitations in what I can provide. You deserve support from people who can offer genuine human connection and professional expertise."
      ],
      "resource_direction" := [
        "I strongly encourage you to reach out to a counselor, therapist, or trusted person in your life.",
        "This sounds like something that would really benefit from professional support. Have you considered speaking with a mental health professional?",
        "Your wellbeing is important, which is why I'm encouraging you to connect with human resources that can provide the level of care you need."
      ]
    ]
  ]

  /** `get_response_templates`: the level's categories, or those of "normal_interaction"
      for any other key. Every category offers three phrases. */
  function GetResponseTemplates(interventionLevel: string): (t: map<string, seq<string>>)
    ensures interventionLevel in ResponseTemplates ==> t == ResponseTemplates[interventionLevel]
    ensures interventionLevel !in ResponseTemplates ==> t == ResponseTemplates[NormalInteractionTemplates]
    ensures interventionLevel !in ResponseTemplates ==> t.Keys == {"acknowledgment", "support", "autonomy_promotion"}
    ensures forall c :: c in t ==> |t[c]| == 3
  {
    if interventionLevel in ResponseTemplates then ResponseTemplates[interventionLevel]
    else ResponseTemplates[NormalInteractionTemplates]
  }

  // ---------------------------------------------------------------------------
  // create_custom_prompt_for_use_case

  const TherapyBotPrompt := @"
THERAPY BOT SPECIFIC BOUNDARIES:
- You are NOT a replacement for licensed therapy
- Always acknowledge limitations in providing mental health treatment
- Regularly encourage professional therapeutic support
- Never attempt to diagnose or provide clinical treatment
- Focus on psychoeducation and coping skills only
"

  const StudyAssistantPrompt := @"
EDUCATIONAL ASSISTANT BOUNDARIES:
- Encourage independent learning and critical thinking
- Provide guidance rather than complete answers
- Promote academic integrity and original work
- Suggest diverse learning resources beyond AI assistance
- Foster intellectual curiosity and self-directed learning
"

  const CustomerServicePrompt := @"
CUSTOMER SERVICE BOUNDARIES:
- Maintain professional, helpful demeanor
- Clearly communicate AI limitations and escalation options
- Focus on problem-solving rather than emotional support
- Direct complex issues to human representatives
- Avoid creating unrealistic expectations about AI capabilities
"

  const UseCasePrompts: map<string, string> := map[
    "therapy_bot" := TherapyBotPrompt,
    "study_assistant" := StudyAssistantPrompt,
    "customer_service" := CustomerServicePrompt
  ]

  /** The risk levels, each aliased to one of the mode blocks. */
  const RiskAdjustments: map<string, string> := map[
    "high" := ModeSpecificPrompts[Firm],
    "medium" := ModeSpecificPrompts[Normal],
    "low" := ModeSpecificPrompts[Soft]
  ]

  /** The list `components`: the base prompt, then the use-case block and the risk block
      when their keys are known. */
  function UseCaseParts(useCase: string, riskLevel: string): (parts: seq<string>)
    ensures |parts| == 1 + OneIf(useCase in UseCasePrompts) + OneIf(riskLevel in RiskAdjustments)
    ensures parts[0] == BaseSystemPrompt
    ensures riskLevel in RiskAdjustments ==> parts[|parts| - 1] == RiskAdjustments[riskLevel]
  {
    [BaseSystemPrompt]
    + (if useCase in UseCasePrompts then [UseCasePrompts[useCase]] else [])
    + (if riskLevel in RiskAdjustments then [RiskAdjustments[riskLevel]] else [])
  }

  /** The use-case prompt; it has no audience argument, since the audience is never read. */
  function UseCasePrompt(useCase: string, riskLevel: string): string
  {
    Join(UseCaseParts(useCase, riskLevel), Separator)
  }

  /** Whatever the arguments, the use-case prompt begins with the base prompt. */
  lemma UseCasePromptStartsWithBase(useCase: string, riskLevel: string)
    ensures BaseSystemPrompt <= UseCasePrompt(useCase, riskLevel)
  {
  }

  /** `create_custom_prompt_for_use_case`, appending as the source does. */
  method CreateCustomPromptForUseCase(useCase: string, riskLevel: string, targetAudience: string)
    returns (prompt: string)
    ensures prompt == UseCasePrompt(useCase, riskLevel)
  {
    var components := [BaseSystemPrompt];
    if useCase in UseCasePrompts {
      components := components + [UseCasePrompts[useCase]];
    }
    if riskLevel in RiskAdjustments {
      components := components + [RiskAdjustments[riskLevel]];
    }
    assert components == UseCaseParts(useCase, riskLevel);
    prompt := Join(components, Separator);
  }

  /** The mode whose block a risk level selects: high is firm, medium normal, low soft. */
  function RiskMode(riskLevel: string): (m: BoundaryMode)
    requires riskLevel in RiskAdjustments
    ensures m in ModeSpecificPrompts && RiskAdjustments[riskLevel] == ModeSpecificPrompts[m]
    ensures riskLevel == "high" <==> m == Firm
    ensures riskLevel == "low" <==> m == Soft
  {
    if riskLevel == "high" then Firm else if riskLevel == "medium" then Normal else Soft
  }

  /** For a use case outside the table, the use-case prompt is the system prompt in the
      mode the risk level selects, with no other block. */
  lemma UnknownUseCaseIsModePrompt(useCase: string, riskLevel: string)
    requires useCase !in UseCasePrompts && riskLevel in RiskAdjustments
    ensures UseCasePrompt(useCase, riskLevel) == SystemPrompt(Some(RiskMode(riskLevel)), None, None)
  {
    var mode := RiskMode(riskLevel);
    ModeOnlyPrompt(mode);
    JoinAppend([BaseSystemPrompt], RiskAdjustments[riskLevel], Separator);
  }

  /** With both keys known, the prompt is base, use-case block and risk block, in that order. */
  lemma KnownUseCasePrompt(useCase: string, riskLevel: string)
    requires useCase in UseCasePrompts && riskLevel in RiskAdjustments
    ensures UseCasePrompt(useCase, riskLevel)
         == BaseSystemPrompt + Separator + UseCasePrompts[useCase] + Separator + RiskAdjustments[riskLevel]
  {
    var u, r := UseCasePrompts[useCase], RiskAdjustments[riskLevel];
    assert UseCaseParts(useCase, riskLevel) == [BaseSystemPrompt, u, r];
    JoinAppend([BaseSystemPrompt], u, Separator);
    assert [BaseSystemPrompt] + [u] == [BaseSystemPrompt, u];
    JoinAppend([BaseSystemPrompt, u], r, Separator);
    assert [BaseSystemPrompt, u] + [r] == [BaseSystemPrompt, u, r];
  }
}
