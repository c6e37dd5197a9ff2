# Healthy-boundaries framework for AI assistants, modelled in Dafny

The framework watches how a person uses an AI assistant and adjusts the assistant's
behaviour so that the person does not come to depend on it. It has three rule components,
each modelled in its own module:

- **Dependency detection** (`DependencyDetection`, from `src/dependency-detection.py`).
  A session record is scored from 0 to 100. The score adds five capped sub-scores:
  - interaction frequency;
  - session duration;
  - emotional-dependency keywords;
  - isolation keywords;
  - crisis keywords.

  The score is then mapped to one of four intervention levels. A list of sessions gets a
  trend analysis: the current score, the mean, the peak, a direction and a recommendation.
- **Boundary adjustment** (`BoundaryAdjustment`, from `src/boundary-adjustment.py`).
  This picks the response to a user's message from the intervention level. Crisis
  language in the message overrides every level. It also recommends the next interaction
  mode and writes a session summary.
- **Prompt templates** (`PromptTemplates`, from `src/prompt-templates.py`).
  This builds the assistant's system prompt from a catalog of text blocks by ordered
  lookup and a `"\n\n"` join, with a second builder keyed by use case and risk level. It
  also serves the phrase templates of each level.

Three more modules support these:

- `Text` models the three Python string operations the code relies on: `str.lower()`, the
  substring test `in` and `str.join`.
- `Wrappers` holds the `Option` type, which stands for `Optional` arguments.
- `Pipeline` connects the two analysis components the way a caller wires them: score a
  session, classify the score, then pick the response. It also works through three
  sessions end to end: one matching no keyword at two interactions and fifteen minutes,
  one matching two emotional and one isolation keyword at eight interactions and 45
  minutes, and the text "I want to die and nobody would miss me".

All three components are pure computations over fixed catalogs, so they are modelled as
functions over datatypes. The two prompt builders build a list by successive appends
before joining it. They are therefore `method`s that append the same way, and each is
proved equal to a specifying function; the lemmas are stated about those functions.
Because each method's result is equal to a function of its arguments, both builders are
deterministic.

The keyword lists, crisis indicators, messages, follow-up actions and prompt blocks are
written out verbatim, because matching and output depend on them.

The emotional-dependency keyword list has 10 phrases (`src/dependency-detection.py:43-47`).
One of them, `"you're all I have"`, holds an upper-case `I`. Only the text is lower-cased,
never the keyword, so that phrase can never match. The model keeps this behaviour and
proves it (`DependencyDetection.AllIHaveNeverMatches`).

## Model

| member | source | states |
|---|---|---|
| Text.LowerChar | src/dependency-detection.py:101 | the result is never upper-case; a non-upper character is unchanged; `A`-`Z` map to the letter at the same position in `a`-`z` |
| Text.Lower | src/dependency-detection.py:101 | same length as the input, each character lowered on its own, no upper-case letter left |
| Text.LowerConcat | src/dependency-detection.py:101 | lowering distributes over concatenation |
| Text.Contains | src/dependency-detection.py:102 | Python's `needle in text`: the needle occurs as a contiguous block; a contained needle is no longer than the text, and the empty needle is contained in every text |
| Text.ContainsExtended | src/dependency-detection.py:102 | a substring stays a substring when text is added on either side |
| Text.UpperNeverContained | src/dependency-detection.py:101-102 | a needle holding an upper-case letter never occurs in a text without one |
| Text.Join | src/prompt-templates.py:185 | a non-empty join begins with its first part |
| Text.JoinAppend | src/prompt-templates.py:171-185 | appending a part to the list appends the separator and the part to the joined string |
| DependencyDetection.CountMatches | src/dependency-detection.py:102 | the number of matching keywords is at most the list length, and 0 exactly when no keyword occurs |
| DependencyDetection.CountMatchesIsMatchedCount | src/dependency-detection.py:102 | the count equals the size of the set of matching keyword positions, so each keyword counts once however often it occurs |
| DependencyDetection.CountMatchesMonotone | src/dependency-detection.py:102 | a text in which every keyword matching another text also matches has at least as many matches |
| DependencyDetection.ScoreKeywords | src/dependency-detection.py:99-103 | for a non-negative weight the score lies in [0, weight × number of keywords] |
| DependencyDetection.ScoreKeywordsCountsDistinct | src/dependency-detection.py:99-103 | the score is the weight times the number of distinct keywords found in the lowered text |
| DependencyDetection.UppercaseKeywordNeverMatches | src/dependency-detection.py:101-102 | a keyword holding an upper-case letter is never among the matches, whatever the text |
| DependencyDetection.AllIHaveNeverMatches | src/dependency-detection.py:43-47 | `"you're all I have"` never matches, so at most 9 of the 10 emotional keywords can count |
| DependencyDetection.FrequencyScore | src/dependency-detection.py:73 | at most 30, equal to 30 exactly from 15 interactions on, non-negative for non-negative counts |
| DependencyDetection.DurationScore | src/dependency-detection.py:76 | at most 20, equal to 20 exactly from 40 minutes on, non-negative for non-negative durations |
| DependencyDetection.EmotionalScore | src/dependency-detection.py:79-82 | within [0, 25], and 0 exactly when no emotional keyword occurs in the lowered text |
| DependencyDetection.IsolationScore | src/dependency-detection.py:85-88 | within [0, 25], and 0 exactly when no isolation keyword occurs |
| DependencyDetection.CrisisScore | src/dependency-detection.py:91-94 | within [0, 30], and 0 exactly when no crisis keyword occurs |
| DependencyDetection.CalculateDependencyScore | src/dependency-detection.py:72-97 | at most 100 always, and at least 0 when the interaction count and the duration are non-negative |
| DependencyDetection.ScoreMonotone | src/dependency-detection.py:72-97 | more interactions, a longer session and a superset of matched keywords never lower the score |
| DependencyDetection.KeywordScoreMonotone | src/dependency-detection.py:99-103 | a text matching a superset of keywords scores at least as much |
| DependencyDetection.ScoreGrowsWithText | src/dependency-detection.py:96-103 | adding text before or after the session's text never lowers the score |
| DependencyDetection.DetermineInterventionLevel | src/dependency-detection.py:115-122 | HIGH iff score ≥ 70, MODERATE iff 40 ≤ score < 70, GENTLE iff 20 ≤ score < 40, NORMAL iff score < 20 |
| DependencyDetection.LevelMonotone | src/dependency-detection.py:115-122 | a higher score never gets a weaker level |
| DependencyDetection.Sum | src/dependency-detection.py:141-150 | Python's `sum` of a list of scores; it has no ensures of its own, is specified by its body, and `SumBounds` bounds it |
| DependencyDetection.RecentAverage | src/dependency-detection.py:141 | the mean of the last three scores, that is their sum divided by 3 |
| DependencyDetection.EarlierAverage | src/dependency-detection.py:142 | the mean of all scores but the last three when there are any; with exactly three scores the `max(len, 1)` divisor makes it 0 |
| DependencyDetection.MaxOf | src/dependency-detection.py:151 | the peak is one of the scores and no score exceeds it |
| DependencyDetection.MinOf | src/dependency-detection.py:150 | the least score is one of the scores and below every score |
| DependencyDetection.SumBounds | src/dependency-detection.py:150 | a sum of n values within [lo, hi] lies within [n·lo, n·hi] |
| DependencyDetection.AverageWithinRange | src/dependency-detection.py:150 | the mean lies between the least and the greatest score |
| DependencyDetection.ScoresOf | src/dependency-detection.py:137 | one score per session, in session order, each the session's dependency score |
| DependencyDetection.TrendDirection | src/dependency-detection.py:140-145 | always increasing or decreasing; with 3 or more scores increasing iff the mean of the last three beats the mean of the rest; with 2 increasing iff the last beats the first, so a tie is decreasing |
| DependencyDetection.ThreeSessionTrend | src/dependency-detection.py:140-143 | with exactly three scores the rest has mean 0, so the trend is increasing iff the scores add up to more than 0 |
| DependencyDetection.TrendRecommendation | src/dependency-detection.py:156-167 | immediate intervention iff score ≥ 70, whatever the trend; escalate iff 50 ≤ score < 70 and increasing; more reminders iff 30 ≤ score < 50 and increasing; maintain iff score < 70 and decreasing; continue monitoring otherwise |
| DependencyDetection.AnalyzeScores | src/dependency-detection.py:137-154 | the current score is the last one, the peak bounds every score and is one of them, the average is the sum of the scores divided by their number and lies between the least score and the peak, and the trend and recommendation are those of the scores |
| DependencyDetection.AnalyzeDependencyTrend | src/dependency-detection.py:134-154 | insufficient data iff fewer than two sessions, otherwise the analysis of the sessions' scores |
| DependencyDetection.TrendAnalysisBounds | src/dependency-detection.py:147-153 | a full analysis reports the last session's score, a peak no session exceeds and at most 100, a mean at or above some session's score and at or below the peak, and a non-negative mean for non-negative inputs |
| DependencyDetection.ContinueMonitoringOnlyWhenLowAndIncreasing | src/dependency-detection.py:156-167 | the catch-all recommendation is reached exactly when the trend is increasing and the current score is below 30 |
| BoundaryAdjustment.SelectContextualResponse | src/boundary-adjustment.py:197-201 | the chosen message is one of the candidates, and an in-range choice picks exactly that candidate |
| BoundaryAdjustment.AnyContained | src/boundary-adjustment.py:195 | true iff some needle of the list occurs in the text |
| BoundaryAdjustment.DetectCrisisLanguage | src/boundary-adjustment.py:186-195 | true iff one of the 10 crisis indicators occurs in the lowered text |
| BoundaryAdjustment.ImmediateResources | src/boundary-adjustment.py:95 | the appended block is the header followed by the first two crisis resources, one per line |
| BoundaryAdjustment.HighInterventionResponse | src/boundary-adjustment.py:83-103 | one of the 3 boundary messages followed by the resource block; intervention and monitoring on; crisis mode; the three HIGH follow-ups |
| BoundaryAdjustment.ModerateInterventionResponse | src/boundary-adjustment.py:105-124 | one of the 3 guidance messages; intervention and monitoring on; balanced mode; the two MODERATE follow-ups |
| BoundaryAdjustment.GentleGuidanceResponse | src/boundary-adjustment.py:126-147 | one of the 4 encouragement messages; intervention and monitoring off; balanced mode; the two GENTLE follow-ups |
| BoundaryAdjustment.NormalResponse | src/boundary-adjustment.py:149-161 | the fixed placeholder, no follow-ups, intervention and monitoring off, balanced mode |
| BoundaryAdjustment.CrisisInterventionResponse | src/boundary-adjustment.py:163-184 | the fixed crisis message with the hotlines, the three escalation actions, intervention and monitoring on, crisis mode |
| BoundaryAdjustment.GenerateBoundaryResponse | src/boundary-adjustment.py:56-81 | crisis language gives the crisis response at every level; otherwise HIGH, MODERATE and GENTLE each give their own builder's response, and every other level, NORMAL_INTERACTION included, gives the NORMAL response; monitoring always equals intervention, which holds iff crisis, HIGH or MODERATE; crisis mode iff crisis or HIGH; the MODERATE and GENTLE messages come from their lists |
| BoundaryAdjustment.UnknownLevelIsNormal | src/boundary-adjustment.py:72-73 | a level outside the four keys behaves exactly like NORMAL_INTERACTION |
| BoundaryAdjustment.EveryCandidateReachable | src/boundary-adjustment.py:197-201 | without crisis language, every candidate message of HIGH, MODERATE and GENTLE is returned for some choice |
| BoundaryAdjustment.AdjustInteractionMode | src/boundary-adjustment.py:203-233 | crisis iff score ≥ 80, task assistance iff 60 ≤ score < 80, balanced iff 30 ≤ score < 60, emotional support iff score < 30; neither the current mode nor the feedback is read |
| BoundaryAdjustment.BoundaryHealth | src/boundary-adjustment.py:255 | healthy iff score < 30, concerning iff 30 ≤ score < 60, critical iff score ≥ 60 |
| BoundaryAdjustment.GenerateRecommendations | src/boundary-adjustment.py:260-279 | 4 entries iff score ≥ 70, 3 iff 40 ≤ score < 70, 2 iff score < 40, always one of the three fixed lists |
| BoundaryAdjustment.GenerateNextSessionGuidance | src/boundary-adjustment.py:281-288 | the break guidance iff score ≥ 70, independence iff 40 ≤ score < 70, balanced iff score < 40 |
| BoundaryAdjustment.GenerateSessionSummary | src/boundary-adjustment.py:235-258 | score, interventions and duration echoed unchanged; health label by the 30/60 bands; the recommendations are exactly the list `GenerateRecommendations` gives the score, so 4, 3 or 2 of them by the 70/40 bands; the guidance of the score |
| BoundaryAdjustment.SummaryBandsAgree | src/boundary-adjustment.py:251-279 | a critical summary carries at least three recommendations and a healthy one exactly two |
| BoundaryAdjustment.CrisisWitness | src/boundary-adjustment.py:194-195 | one indicator found at one position of the lowered text makes the text crisis language |
| PromptTemplates.CustomBlock | src/prompt-templates.py:182-183 | the custom block is longer than the instructions and ends with them |
| PromptTemplates.ModePart | src/prompt-templates.py:174-175 | one mode block iff the mode is a key of the mode table, none otherwise |
| PromptTemplates.InterventionPart | src/prompt-templates.py:178-179 | one intervention block iff the level is given, non-empty and a key of the table, none otherwise |
| PromptTemplates.CustomPart | src/prompt-templates.py:182-183 | one custom block iff the instructions are given and non-empty |
| PromptTemplates.SystemPromptParts | src/prompt-templates.py:171-183 | the base prompt comes first, and one part is added per block present |
| PromptTemplates.SystemPrompt | src/prompt-templates.py:185 | the parts joined by `"\n\n"`; it has no ensures of its own and is specified by its body and the system-prompt lemmas listed here |
| PromptTemplates.SystemPromptStartsWithBase | src/prompt-templates.py:171-185 | every system prompt begins with the base prompt |
| PromptTemplates.GenerateSystemPrompt | src/prompt-templates.py:155-185 | the appending builder returns exactly the specified join of base, mode, intervention and custom blocks, so equal arguments give equal prompts |
| PromptTemplates.ModeOnlyPrompt | src/prompt-templates.py:171-185 | with only a mode, the prompt is the base prompt, a blank line and the mode block |
| PromptTemplates.FullPromptOrder | src/prompt-templates.py:171-185 | with every block present the order is base, mode, intervention, custom, separated by blank lines |
| PromptTemplates.UnknownInterventionOmitted | src/prompt-templates.py:178-179 | a missing, empty or unknown level gives the prompt built without a level |
| PromptTemplates.InterventionBlockPlacement | src/prompt-templates.py:177-179 | a known level's block is the part right after the base prompt and the mode block |
| PromptTemplates.CustomBlockPresence | src/prompt-templates.py:181-185 | empty instructions add nothing; non-empty ones append a blank line and the `CUSTOM INSTRUCTIONS` block at the end |
| PromptTemplates.GetResponseTemplates | src/prompt-templates.py:187-257 | a known level gets its own categories; any other key gets the `normal_interaction` categories (acknowledgment, support, autonomy promotion); every category has 3 phrases |
| PromptTemplates.UseCaseParts | src/prompt-templates.py:315-321 | base prompt first, one part per known use case and known risk level, with the risk block last when present |
| PromptTemplates.UseCasePrompt | src/prompt-templates.py:323 | the components joined by `"\n\n"`; it has no ensures of its own and is specified by its body and the use-case lemmas listed here |
| PromptTemplates.UseCasePromptStartsWithBase | src/prompt-templates.py:315-323 | every use-case prompt begins with the base prompt |
| PromptTemplates.CreateCustomPromptForUseCase | src/prompt-templates.py:259-323 | the appending builder returns exactly the specified join, and the audience argument has no effect on it |
| PromptTemplates.RiskMode | src/prompt-templates.py:308-312 | each risk level's block is a mode block: high is the firm one, low the soft one, medium the normal one |
| PromptTemplates.UnknownUseCaseIsModePrompt | src/prompt-templates.py:315-323 | with an unknown use case, the result equals the system prompt of the risk level's mode alone |
| PromptTemplates.KnownUseCasePrompt | src/prompt-templates.py:315-323 | with both keys known, the result is base, use-case block and risk block, joined by blank lines |
| Pipeline.RespondToSession | src/boundary-adjustment.py:72-81 | scoring, classifying and responding gives the crisis response on crisis language, monitoring iff crisis language or score ≥ 40, crisis mode iff crisis language or score ≥ 70, and the placeholder below 20 |
| Pipeline.LevelIsStrategyKey | src/dependency-detection.py:115-122 | every level the classifier returns is a key of the dispatcher, so the unknown-level fallback is never taken for a classified score |
| Pipeline.CrisisTextOverridesLowScore | src/boundary-adjustment.py:75-77 | crisis language gets the crisis message and escalation actions whatever the session's score |
| Pipeline.IndicatorIsCrisis | src/boundary-adjustment.py:186-195 | a text spelling any crisis indicator in lower case, anywhere, is crisis language |
| Pipeline.DeathWishIsCrisis | src/boundary-adjustment.py:186-195 | "I want to die and nobody would miss me" is crisis language, because its lowered form holds "want to die" |
| Pipeline.DeathWishGetsCrisisResponse | src/boundary-adjustment.py:72-77 | that text gets the crisis response at every level |
| Pipeline.SuicideOverridesNormal | src/boundary-adjustment.py:72-77 | a text holding "suicide" at NORMAL_INTERACTION gets the crisis response, not the placeholder |
| Pipeline.QuietSessionScenario | src/dependency-detection.py:72-97 | 2 interactions, 15 minutes and no keyword give 11.5, NORMAL_INTERACTION and the placeholder without intervention |
| Pipeline.ModerateSessionScenario | src/dependency-detection.py:72-97 | 8 interactions, 45 minutes, 2 emotional and 1 isolation keyword give 53, MODERATE_INTERVENTION and a guidance message with intervention and monitoring |

## Left out

- `Text.Lower`: models `str.lower()` on the ASCII letters only. Python also lowers other
  Unicode letters, and some of them to ASCII letters (KELVIN SIGN becomes `k`). A text
  using them could match a keyword in Python that it does not match in the model.
- `BoundaryAdjustment.SelectContextualResponse`: `random.choice` is replaced by a choice
  index that the caller supplies, taken modulo the number of candidates. The model proves
  membership and reachability and does not prove uniformity.
- Scores, durations and averages are exact `real`s. IEEE floating-point rounding of the
  Python floats is not modelled.
- `user_id`, `timestamp` and `emotional_intensity` of a session are carried in
  `UserSession` but read by no operation. The same holds for the `context` argument of
  the response builders, and for the `user_input` of `_select_contextual_response` and of
  the builders. The model therefore has no `context` parameter.
- `dependency_indicators`, set in the detector's constructor, is never read and is not
  modelled.
- The `boundary_mode` argument of `generate_system_prompt` is an `Option<BoundaryMode>`.
  `None` stands for any value that is not a member of the enumeration, whose block is
  omitted. The `Optional[str]` arguments are `Option<string>`.
- The default argument values of the Python signatures are not modelled. Callers pass
  every argument.
- `CrisisPrompts` (`_get_crisis_prompts`) is part of the catalog, but no builder reads it.
  It is kept as a constant and nothing is proved about it.
- The `if __name__ == "__main__"` blocks of the three files only print. The demo driver
  `src/examples/quick-start.py` is not part of this model.
- `DependencyDetection.Sum`, `PromptTemplates.SystemPrompt` and `PromptTemplates.UseCasePrompt` carry no `ensures`
  of their own. What they promise is stated by the lemmas and builders listed above.
