# LFAS Protocol v4 — a Dafny model of the detection and safeguard core

The LFAS Protocol v4 puts a safety layer in front of an AI assistant. It
classifies free-text user input into an escalating protection level, based on
phrases that signal psychological, financial, medical or social vulnerability.
Its five phases are:

- LISTEN scans the user's words for vulnerability phrases.
- REFLECT turns the number of hits into a protection level: STANDARD, ENHANCED or CRISIS.
- WAIT asks for a safety pause above STANDARD.
- ACT rewrites, prefixes, suffixes or replaces the AI's answer according to the level and the categories hit.
- ACKNOWLEDGE records the turn.

The repository holds several independent implementations of this loop. They do not agree with one another on:

- which phrases are listed;
- whether a phrase is counted once per category or once per match;
- the level thresholds (0 / 1-2 / 3+ in most, 0-1 / 2 / 3+ in two);
- whether the level decays at once or only after three clean turns.

Each implementation is modelled in its own module and the differences are kept, not reconciled.

| module | file | source |
|---|---|---|
| `Strings` | strings.dfy | ASCII lower-casing, substring search (`in`), `"sep".join`, `xs[-n:]`, the phrase filter shared by every detector |
| `Common` | common.dfy | `Option`, the three-valued `ProtectionLevel`, insertion-ordered dictionaries of category → phrases, `list(set)` |
| `Taxonomy` | taxonomy.dfy | the nested "for each category, for each phrase" scan shared by four detectors |
| `CoreDetector` | core_detector.dfy | integrations/core/detector.py |
| `CoreProtection` | core_protection.dfy | integrations/core/protection.py |
| `CoreSafeguards` | core_safeguards.dfy | integrations/core/safeguards.py |
| `CoreMiddleware` | core_middleware.dfy | integrations/core/middleware.py |
| `SharedEngine` | shared_engine.dfy | integrations/python/shared/lfas_engine.py |
| `SrcLfasDetector` | src_lfas_detector.dfy | src/lfas/detector.py |
| `SrcLfasCrisis` | src_lfas_crisis.dfy | src/lfas/crisis.py |
| `LfasModels` | lfas_models.dfy | lfas/models.py |
| `LfasDetector` | lfas_detector.dfy | lfas/detector.py |
| `LfasCrisis` | lfas_crisis.dfy | lfas/crisis.py |
| `ProtocolDetector` | protocol_detector.dfy | lfas_protocol/detector.py |
| `ProtocolModels` | protocol_models.dfy | lfas_protocol/models.py |
| `ProtocolSafeguards` | protocol_safeguards.dfy | lfas_protocol/safeguards.py |
| `SrcProtocolDetector` | src_protocol_detector.dfy | src/lfas_protocol/detector.py |
| `VerificationRequirements` | verification_requirements.dfy | the reference safeguard engine inside tests/test_verification_requirements.py |

Code that changes objects step by step is modelled as Dafny classes with `modifies` clauses:

- the protection manager;
- the middleware;
- the shared engine;
- the detectors that keep a history;
- the `lfas_protocol` detection result.

Each scanning loop is a method. Its loop invariants tie it to a recursive specification function, and the lemmas about the source's promises are proved about that function.

## Model

| member | source | states |
|---|---|---|
| `Taxonomy.TriggeredCategoriesMembers` | src/lfas/detector.py:104-108 | a category is reported exactly when one of its own phrases occurs in the scanned text |
| `Taxonomy.TriggeredHas` | src/lfas/detector.py:104-108 | a phrase listed under a category and present in the text is among the triggered phrases |
| `Taxonomy.TriggeredOnlyListed` | src/lfas/detector.py:104-108 | only listed phrases that occur in the text are reported |
| `Taxonomy.TriggeredAtLeastCategory` | lfas_protocol/detector.py:120-124 | the triggered list is at least as long as the hits of any single category |
| `Taxonomy.TriggeredFoldIrrelevant` | lfas_protocol/detector.py:120-124 | when every phrase is lower case, comparing the phrase as written or lowered gives the same triggers and categories |
| `Taxonomy.TriggeredCategoriesBound` | src/lfas_protocol/detector.py:107-116 | no more categories are reported than the table has |
| `Common.SetToList` | lfas/detector.py:71 | `list(set)` holds every element of the set exactly once |
| `Common.Get` | src/lfas/detector.py:158 | `dict.get(key, [])`: a missing key gives the empty list, a present key the values of its first entry |
| `CoreDetector.Detection` | integrations/core/detector.py:58-93 | the result has one entry per category, in the same order as the taxonomy |
| `CoreDetector.ScanText` | integrations/core/detector.py:78-81 | the current-text pass appends, in list order, every indicator whose lowered form occurs in the lowered text |
| `CoreDetector.ScanMessage` | integrations/core/detector.py:84-91 | the history pass appends each indicator found in a message that is not already listed |
| `CoreDetector.VulnerabilityDetector.constructor` | integrations/core/detector.py:49-56 | `all_indicators` maps the four category names, in order, to the four built-in lists |
| `CoreDetector.VulnerabilityDetector.Detect` | integrations/core/detector.py:58-93 | `detect` returns the four categories in order, each with the specification's hit list for the detector's table |
| `CoreDetector.AddNewMembers` | integrations/core/detector.py:86-91 | after one history message, an indicator is listed iff it was listed before or occurs in that message |
| `CoreDetector.WithHistoryMembers` | integrations/core/detector.py:84-91 | after the history pass, an indicator is listed iff it was listed before or occurs in one of the messages |
| `CoreDetector.CategoryHitsMembers` | integrations/core/detector.py:78-91 | a category lists an indicator iff it occurs in the current text or in one of the last three messages |
| `CoreDetector.CurrentTextComplete` | integrations/core/detector.py:78-81 | every indicator found in the current text is listed under its category |
| `CoreDetector.MatchingDistinct` | integrations/core/detector.py:78-81 | the current-text pass lists no indicator twice when the indicator list has no duplicates |
| `CoreDetector.AddNewDistinct` | integrations/core/detector.py:89-91 | the "not already listed" guard keeps the list free of duplicates |
| `CoreDetector.WithHistoryDistinct` | integrations/core/detector.py:84-91 | the whole history pass keeps the list free of duplicates |
| `CoreDetector.ListedOnce` | integrations/core/detector.py:78-91 | a category never lists the same indicator twice |
| `CoreDetector.OlderHistoryIgnored` | integrations/core/detector.py:85 | messages older than the last three do not change the result |
| `CoreDetector.CaseInsensitive` | integrations/core/detector.py:69-81 | the text and its lower-case form give the same detection |
| `CoreDetector.CountTriggers` | integrations/core/detector.py:95-108 | the count is the number of distinct indicators over all categories |
| `CoreDetector.SeqSetSize` | integrations/core/detector.py:105-108 | a set built from a list is no larger than the list |
| `CoreDetector.CountAtMostTotal` | integrations/core/detector.py:95-108 | the distinct count is at most the total number of listed indicators |
| `CoreDetector.AllValuesEmptyIff` | integrations/core/detector.py:110-132 | no indicator at all iff no category has a non-empty list |
| `CoreDetector.CategoriesTriggered` | integrations/core/detector.py:122-132 | the categories triggered are keys of the result, and are empty iff nothing was found |
| `CoreDetector.HasAnyTriggers` | integrations/core/detector.py:110-120 | any trigger iff the distinct count is positive iff some category triggered |
| `CoreProtection.DetermineLevel` | integrations/core/protection.py:28-43 | 0 triggers STANDARD, 1-2 ENHANCED, 3 or more CRISIS, each both ways |
| `CoreProtection.DetermineLevelMonotone` | integrations/core/protection.py:38-43 | more triggers never give a lower level |
| `CoreProtection.SafeguardsNested` | integrations/core/protection.py:93-116 | 3, 7 and 12 safeguards; each level's list is a prefix of the next |
| `CoreProtection.ProtectionLevelManager.constructor` | integrations/core/protection.py:22-26 | starts at STANDARD with an empty history and a zero streak |
| `CoreProtection.ProtectionLevelManager.Update` | integrations/core/protection.py:45-69 | records the count; the new level is exactly `determine_level` of this count, so three clean turns add nothing; the streak counts the trailing zeros |
| `CoreProtection.ProtectionLevelManager.GetCurrentLevel` | integrations/core/protection.py:71-78 | the stored level, which is the level of the latest count |
| `CoreProtection.ProtectionLevelManager.Reset` | integrations/core/protection.py:80-84 | back to the initial state |
| `CoreProtection.ProtectionLevelManager.GetActiveSafeguards` | integrations/core/protection.py:86-116 | the base list, extended at ENHANCED and again at CRISIS |
| `CoreSafeguards.ApplyEnhanced` | integrations/core/safeguards.py:98-126 | without financial or health categories the response is unchanged; otherwise the result is exactly the financial paragraph, then the medical one, each when its category is present, a newline and the response |
| `CoreSafeguards.ApplyCrisis` | integrations/core/safeguards.py:128-159 | crisis language replaces the response by the crisis reply; otherwise isolation appends the note; otherwise the response is unchanged |
| `CoreSafeguards.CrisisReplyIgnoresResponse` | integrations/core/safeguards.py:142-150 | with crisis language the reply does not depend on the AI response and contains the resource block |
| `CoreSafeguards.ApplySafeguards` | integrations/core/safeguards.py:42-75 | STANDARD leaves the response unchanged; ENHANCED applies the enhanced step; CRISIS applies the crisis step after it |
| `CoreSafeguards.FilterOptimisticLanguage` | integrations/core/safeguards.py:77-96 | the loop over the forbidden phrases changes nothing: every forbidden phrase present before is still present, and the length is kept |
| `CoreSafeguards.ShouldPauseAndVerify` | integrations/core/safeguards.py:175-185 | a pause iff the level is above STANDARD |
| `CoreMiddleware.RememberedInputs` | integrations/core/middleware.py:74-76 | at most ten inputs are kept, the newest last, preceded by the last nine of the old ones |
| `CoreMiddleware.LfasMiddleware.constructor` | integrations/core/middleware.py:22-27 | a detector with the built-in table, a fresh manager at STANDARD and an empty history |
| `CoreMiddleware.LfasMiddleware.Remember` | integrations/core/middleware.py:74-76 | the history becomes the last ten of the old history plus the input |
| `CoreMiddleware.LfasMiddleware.ProcessRequest` | integrations/core/middleware.py:29-87 | detection sees the history before the input; the count, categories, level, safeguards and flag follow from it; the generator is skipped exactly at CRISIS with crisis language, and the crisis reply is returned then |
| `CoreMiddleware.LfasMiddleware.ProcessWithResponse` | integrations/core/middleware.py:89-139 | the same phases applied to a given response, which always goes through `apply_safeguards` |
| `CoreMiddleware.LfasMiddleware.Reset` | integrations/core/middleware.py:141-144 | empty history and a manager in its initial state |
| `CoreMiddleware.LfasMiddleware.GetStatus` | integrations/core/middleware.py:146-157 | the manager's level, its safeguards, and a conversation length of at most ten |
| `SharedEngine.ListenTags` | integrations/python/shared/lfas_engine.py:94-121 | the tags of the four lists, in list order |
| `SharedEngine.TagCategory` | integrations/python/shared/lfas_engine.py:105-107 | one category's loop appends "prefix:indicator" for each indicator in the lowered input |
| `SharedEngine.Listen` | integrations/python/shared/lfas_engine.py:94-121 | `_listen` returns exactly the specification's tags |
| `SharedEngine.CategoryTagsMembers` | integrations/python/shared/lfas_engine.py:105-107 | a tag is produced iff its indicator is listed and occurs in the lowered input |
| `SharedEngine.ListenMembers` | integrations/python/shared/lfas_engine.py:101-121 | each tag comes from one of the four lists, with that list's prefix, and its indicator occurs in the lowered input |
| `SharedEngine.ListenCaseInsensitive` | integrations/python/shared/lfas_engine.py:102 | an input and its lower-case form give the same tags |
| `SharedEngine.OverlappingIndicatorsBothTag` | integrations/python/shared/lfas_engine.py:21-46 | "completely alone in this" is tagged both as crisis and as isolation, so it alone gives two triggers |
| `SharedEngine.TurnLevel` | integrations/python/shared/lfas_engine.py:143-148 | 0 STANDARD, 1-2 ENHANCED, 3 or more CRISIS, each both ways |
| `SharedEngine.Reflected` | integrations/python/shared/lfas_engine.py:123-153 | the streak counts clean turns; the level is never below this turn's level, nor below the stored level while the streak is under three; from three clean turns it is STANDARD |
| `SharedEngine.NoDeescalationBeforeThreeClean` | integrations/python/shared/lfas_engine.py:138-151 | until a streak of three clean turns, the level never drops |
| `SharedEngine.ThreeCleanTurnsGiveStandard` | integrations/python/shared/lfas_engine.py:138-140 | three clean turns in a row bring the level back to STANDARD |
| `SharedEngine.EscalatesImmediately` | integrations/python/shared/lfas_engine.py:142-151 | a turn's level is reached at once, and a turn with triggers resets the streak |
| `SharedEngine.Vr23` | integrations/python/shared/lfas_engine.py:215-225 | the response is kept as a prefix, and is unchanged if it already holds the marker |
| `SharedEngine.Vr23Idempotent` | integrations/python/shared/lfas_engine.py:221-224 | after VR-23 the marker is present, and a second VR-23 changes nothing |
| `SharedEngine.Vr24` | integrations/python/shared/lfas_engine.py:227-244 | with a crisis tag the resource block, a newline, then the response; otherwise unchanged |
| `SharedEngine.Vr25` | integrations/python/shared/lfas_engine.py:246-257 | the response is kept as a prefix, and is unchanged if it already holds the encouragement |
| `SharedEngine.Vr25Idempotent` | integrations/python/shared/lfas_engine.py:254-256 | after VR-25 the encouragement is present, and a second VR-25 changes nothing |
| `SharedEngine.CrisisIndicatorTriggersVr24` | integrations/python/shared/lfas_engine.py:227-244 | a crisis phrase in the input yields a crisis tag, so VR-24 puts the resource block first |
| `SharedEngine.CrisisIndicatorTagged` | integrations/python/shared/lfas_engine.py:101-107 | a crisis phrase found in the lowered input is listed with the "crisis:" prefix, so the tags include a crisis tag |
| `SharedEngine.Act` | integrations/python/shared/lfas_engine.py:155-186 | STANDARD only rewrites; VR-23 needs ENHANCED or above and a financial tag; at CRISIS the result is VR-25 applied to VR-24 applied to the rewritten response, after VR-23 exactly when there is a financial tag |
| `SharedEngine.ActNotes` | integrations/python/shared/lfas_engine.py:171-186 | the financial reality check appears with a financial tag at ENHANCED or above; the encouragement always appears at CRISIS |
| `SharedEngine.ActiveSafeguards` | integrations/python/shared/lfas_engine.py:281-291 | 2, 4 or 6 names starting with VR-20 and VR-22; VR-23 from ENHANCED, VR-24 only at CRISIS |
| `SharedEngine.ActiveSafeguardsNested` | integrations/python/shared/lfas_engine.py:281-291 | each level's list is a prefix of a higher level's |
| `SharedEngine.LfasEngine.constructor` | integrations/python/shared/lfas_engine.py:52-56 | an empty history, STANDARD, and zero counters |
| `SharedEngine.LfasEngine.Reflect` | integrations/python/shared/lfas_engine.py:123-153 | the state moves by one `Reflected` step on the number of tags |
| `SharedEngine.LfasEngine.ProcessMessage` | integrations/python/shared/lfas_engine.py:58-92 | LISTEN, REFLECT, ACT, ACKNOWLEDGE in order; the turn record, response and metadata are those of the specification functions |
| `SharedEngine.LfasEngine.Reset` | integrations/python/shared/lfas_engine.py:293-298 | back to the initial state |
| `SrcLfasDetector.DetermineProtectionLevel` | src/lfas/detector.py:121-137 | 0-1 triggers STANDARD, 2 ENHANCED, 3 or more CRISIS, each both ways |
| `SrcLfasDetector.Detection` | src/lfas/detector.py:110-119 | the count is the number of triggered phrases, and the level follows from it |
| `SrcLfasDetector.TextToAnalyze` | src/lfas/detector.py:94-97 | the scanned text is lower case and ends with the lowered input; with history a space precedes it, without history it is the lowered input alone |
| `SrcLfasDetector.SharedPhraseCountedPerCategory` | src/lfas/detector.py:104-108 | a phrase listed under two categories is counted once for each |
| `SrcLfasDetector.OlderHistoryIgnored` | src/lfas/detector.py:94-97 | only the last three history messages are scanned |
| `SrcLfasDetector.MatchAcrossBoundary` | src/lfas/detector.py:96-97 | the end of the last message and the start of the input are joined by one space, so a phrase can match across them |
| `SrcLfasDetector.JoinedBeforeLatest` | src/lfas/detector.py:96 | the joined recent history ends with the latest message |
| `SrcLfasDetector.CaseInsensitive` | src/lfas/detector.py:93-106 | case changes neither the text scanned nor whether a phrase hits |
| `SrcLfasDetector.VulnerabilityDetector.Detect` | src/lfas/detector.py:79-119 | `detect` returns the specification's detection of the combined text |
| `SrcLfasDetector.VulnerabilityDetector.IndicatorCategories` | src/lfas/detector.py:139-146 | the category names in table order; any other name has no phrases |
| `SrcLfasDetector.VulnerabilityDetector.IndicatorsForCategory` | src/lfas/detector.py:148-158 | an unknown category gives no phrases; a present category gives the list of its first entry |
| `SrcLfasCrisis.DetermineCrisisType` | src/lfas/crisis.py:162-199 | the priority order mental health (with an "ending" keyword), health, financial, crisis language, general, each both ways; "abuse" is never chosen |
| `SrcLfasCrisis.GetResources` | src/lfas/crisis.py:201-224 | the type's own resources, then the first mental-health resource for another type with 4 or more triggers |
| `SrcLfasCrisis.GeneralFewTriggersNoResources` | src/lfas/crisis.py:214-224 | a general crisis with fewer than four triggers gets no resources at all |
| `SrcLfasCrisis.TypeActions` | src/lfas/crisis.py:247-271 | three extra actions exactly for mental health, financial and health |
| `SrcLfasCrisis.RecommendedActions` | src/lfas/crisis.py:226-273 | the five universal actions first, then 0 or 3 type-specific ones |
| `SrcLfasCrisis.AssessCrisis` | src/lfas/crisis.py:127-160 | below CRISIS an empty "none" response; at CRISIS the type, resources and actions of the helpers |
| `SrcLfasCrisis.AssessedResources` | src/lfas/crisis.py:138-160 | a CRISIS response has no resources iff the type is general and there are fewer than four triggers |
| `SrcLfasCrisis.ResourceBlock` | src/lfas/crisis.py:297-303 | four lines per US resource and five otherwise: name, description, contact, the region for non-US, then a blank line |
| `SrcLfasCrisis.FormatCrisisMessage` | src/lfas/crisis.py:275-313 | "" without a crisis; otherwise the header, resource blocks and closing lines joined by newlines |
| `SrcLfasCrisis.BlockLinesListed` | src/lfas/crisis.py:297-303 | every line of every resource block is among the message lines |
| `SrcLfasCrisis.LineInMessage` | src/lfas/crisis.py:313 | every line appears in the joined message |
| `SrcLfasCrisis.MessageListsResources` | src/lfas/crisis.py:296-303 | the message shows each resource's name, description, contact and non-US region |
| `SrcLfasCrisis.MessageNonEmpty` | src/lfas/crisis.py:288-294 | the message starts with the header line and is never empty |
| `LfasModels.DetectionResult.IsVulnerable` | lfas/models.py:29-31 | vulnerable iff the level is ENHANCED or CRISIS |
| `LfasModels.DetectionResult.IsCrisis` | lfas/models.py:25-27 | a crisis iff the level is at least CRISIS, whose value is 3 |
| `LfasModels.CrisisIsVulnerable` | lfas/models.py:25-31 | a crisis is vulnerable; STANDARD is neither |
| `LfasModels.DetectedSection` | lfas/models.py:56-57 | the "Detected" line appears iff the crisis type is present and non-empty |
| `LfasModels.ResourcesSection` | lfas/models.py:59-63 | the resources section appears iff there are resources |
| `LfasModels.ActionsSection` | lfas/models.py:65-68 | the actions section appears iff there are actions |
| `LfasModels.AppendBullets` | lfas/models.py:61-62 | the loop appends one bullet line per item |
| `LfasModels.FormatCrisisMessage` | lfas/models.py:49-70 | the message built step by step is the specification's message |
| `LfasModels.CrisisMessageEmptyIff` | lfas/models.py:51-54 | the message is empty iff the response is not a crisis |
| `LfasModels.BulletsAppend` | lfas/models.py:61-62 | bullets of a concatenation are the concatenated bullets |
| `LfasModels.BulletsAround` | lfas/models.py:61-62 | the bullets of a list are those before an item, that item's line, then those after it |
| `LfasModels.BulletsListEach` | lfas/models.py:61-62 | each item appears as its own bullet line |
| `LfasDetector.DetermineProtectionLevel` | lfas/detector.py:76-91 | with the loader's thresholds: 0 STANDARD, 1-2 ENHANCED, 3 or more CRISIS, each both ways |
| `LfasDetector.Construct` | lfas/models.py:17-23 | a dataclass built from keywords succeeds iff every keyword is a declared field |
| `LfasDetector.ResultConstructionAlwaysRaises` | lfas/detector.py:68-74 | as written, building the result always fails on `conversation_history` |
| `LfasDetector.CorrectedConstructionSucceeds` | lfas/detector.py:68-74 | with the history field declared, the same keywords build a result |
| `LfasDetector.VulnerabilityDetector.constructor` | lfas/detector.py:20-30 | the loaded taxonomy and an empty history |
| `LfasDetector.VulnerabilityDetector.RecordInput` | lfas/detector.py:47-50 | a given history replaces the stored one, then the input is appended |
| `LfasDetector.VulnerabilityDetector.Scan` | lfas/detector.py:53-63 | each (category, indicator) hit counts once; the categories are those with a hit |
| `LfasDetector.VulnerabilityDetector.DetectAsWritten` | lfas/detector.py:32-74 | the history is updated, and then the result construction raises |
| `LfasDetector.VulnerabilityDetector.Detect` | lfas/detector.py:32-74 | the corrected `detect`: count, level, distinct categories, the input, and the history copy |
| `LfasDetector.VulnerabilityDetector.ResetHistory` | lfas/detector.py:93-95 | the history becomes empty |
| `LfasDetector.NoTriggersIff` | lfas/detector.py:58-63 | zero triggers iff no lowered indicator occurs in the lowered input |
| `LfasCrisis.FirstTriggered` | lfas/crisis.py:97-107 | none iff no entry has a keyword in the text; otherwise the first such entry in dictionary order |
| `LfasCrisis.SuicidalIdeationWins` | lfas/crisis.py:97-107 | a suicidal-ideation keyword decides the type, whatever else occurs |
| `LfasCrisis.CrisisTypeRange` | lfas/crisis.py:97-107 | the type is a keyword category, or "general_crisis" exactly when no keyword occurs |
| `LfasCrisis.IdentifyCrisisType` | lfas/crisis.py:97-107 | a type other than "general_crisis" is the key of the first table entry with a keyword in the lowered input |
| `LfasCrisis.FirstTriggeredOr` | lfas/crisis.py:97-107 | for any keyword table whose keys exclude the fallback, the first-match scan returns the fallback exactly when no keyword occurs, and otherwise a key of the table |
| `LfasCrisis.CrisisResources` | lfas/crisis.py:109-111 | three resources; a key of the table gets its own entry's list, any other type the "general_crisis" list |
| `LfasCrisis.CrisisResourceTableShape` | lfas/crisis.py:13-39 | the resource table has five distinct keys, three resources each, with "general_crisis" last |
| `LfasCrisis.RecommendedActions` | lfas/crisis.py:113-154 | five actions; an unknown type gets the general ones |
| `LfasCrisis.AssessCrisis` | lfas/crisis.py:63-95 | below CRISIS an empty response; at CRISIS the type from the input, with its three resources and five actions |
| `LfasCrisis.FormatSafeResponse` | lfas/crisis.py:156-177 | without a crisis the AI answer unchanged; with one, only the crisis message and the warning footer |
| `LfasCrisis.MessageListsResource` | lfas/crisis.py:59-62 | the crisis message shows every resource as its own bullet line |
| `LfasCrisis.MessageListsAction` | lfas/crisis.py:65-68 | the crisis message shows every action as its own bullet line |
| `ProtocolDetector.LevelFor` | lfas_protocol/detector.py:127-134 | 0 STANDARD, 1-2 ENHANCED, 3 or more CRISIS, each both ways |
| `ProtocolDetector.DetectionIn` | lfas_protocol/detector.py:105-141 | the count is the number of triggered phrases and the level follows from it |
| `ProtocolDetector.VulnerabilityDetector.constructor` | lfas_protocol/detector.py:42-103 | the built-in four-category mapping |
| `ProtocolDetector.VulnerabilityDetector.Detect` | lfas_protocol/detector.py:105-141 | `detect` returns the specification's detection |
| `ProtocolDetector.VulnerabilityDetector.IndicatorCategories` | lfas_protocol/detector.py:143-150 | the four categories in order, with 13, 10, 7 and 7 phrases |
| `ProtocolDetector.CategoriesMembers` | lfas_protocol/detector.py:120-124 | a category is reported iff one of its phrases occurs, and only the four names are reported |
| `ProtocolDetector.OverlappingPhrasesBothCount` | lfas_protocol/detector.py:45-60 | "can't take it anymore" also contains "can't take it", so it alone gives two triggers and at least ENHANCED |
| `ProtocolDetector.BuiltInPhrasesLower` | lfas_protocol/detector.py:45-96 | every built-in phrase is lower case |
| `ProtocolDetector.CaseInsensitive` | lfas_protocol/detector.py:115-124 | although only the input is lowered, detection does not depend on case |
| `ProtocolModels.VulnerabilityIndicator.ToString` | lfas_protocol/models.py:33-34 | the category value, ": " and the pattern, which ends the string |
| `ProtocolModels.ParseIndicator` | lfas_protocol/models.py:33-34 | reads a category tag and the rest of the string back |
| `ProtocolModels.RenderingRoundTrip` | lfas_protocol/models.py:33-34 | the rendering keeps the category and the pattern |
| `ProtocolModels.LevelFor` | lfas_protocol/models.py:51-57 | 0-1 STANDARD, 2 ENHANCED, 3 or more CRISIS, each both ways |
| `ProtocolModels.LevelMonotone` | lfas_protocol/models.py:51-57 | more indicators never give a lower level |
| `ProtocolModels.DetectionResult.constructor` | lfas_protocol/models.py:37-57 | the count and level passed in are replaced by those of the indicators |
| `ProtocolModels.DetectionResult.PostInit` | lfas_protocol/models.py:47-57 | count = number of indicators, level from the count |
| `ProtocolModels.DetectionResult.AddIndicator` | lfas_protocol/models.py:59-62 | appends at the end, the count rises by one, and the level never drops |
| `ProtocolSafeguards.CrisisPhraseActivates` | lfas_protocol/safeguards.py:57-76 | any built-in crisis phrase in the input activates the safeguard |
| `ProtocolSafeguards.NoTriggerNoActivation` | lfas_protocol/safeguards.py:67-76 | with no trigger the safeguard stays off |
| `ProtocolSafeguards.ShouldActivate` | lfas_protocol/safeguards.py:57-76 | CRISIS always activates, STANDARD never, and ENHANCED only with crisis language |
| `ProtocolSafeguards.ResourceLineFields` | lfas_protocol/safeguards.py:107-111 | a resource entry shows its name, phone, description and availability |
| `ProtocolSafeguards.ResourceLineList` | lfas_protocol/safeguards.py:107-111 | one entry per resource, in order |
| `ProtocolSafeguards.ResponsePartsLayout` | lfas_protocol/safeguards.py:90-124 | the acknowledgement first, the crisis paragraph for crisis language, the header, one entry per resource, the encouragement, and the medical paragraph last for a health crisis |
| `ProtocolSafeguards.CrisisDetectionSafeguard.constructor` | lfas_protocol/safeguards.py:35-55 | the safeguard holds the three fixed crisis resources |
| `ProtocolSafeguards.CrisisDetectionSafeguard.GenerateResponse` | lfas_protocol/safeguards.py:78-126 | the parts collected by the loop over the resources, joined with nothing between them; the original response is not used |
| `ProtocolSafeguards.ResponseHasEntry` | lfas_protocol/safeguards.py:106-111 | every resource's entry is part of the response |
| `ProtocolSafeguards.ResponseListsResources` | lfas_protocol/safeguards.py:90-126 | the response starts with the acknowledgement and shows every resource's four fields |
| `ProtocolSafeguards.ResponseParagraphs` | lfas_protocol/safeguards.py:98-124 | the crisis paragraph appears for crisis language, the medical one for a health crisis |
| `ProtocolSafeguards.CrisisDetectionSafeguard.GetCrisisResources` | lfas_protocol/safeguards.py:128-135 | three resources, the first reachable at 988, all available 24/7 |
| `SrcProtocolDetector.CalculateProtectionLevel` | src/lfas_protocol/detector.py:130-147 | 0 categories STANDARD, 1-2 ENHANCED, 3 or more CRISIS, each both ways |
| `SrcProtocolDetector.TotalCountAppend` | src/lfas_protocol/detector.py:104-116 | per-category counts add up over concatenation |
| `SrcProtocolDetector.CategoryCountsAgree` | src/lfas_protocol/detector.py:107-116 | every recorded count is positive; the recorded categories are the triggered ones; the counts sum to the number of matched phrases |
| `SrcProtocolDetector.CategoryCountsPositive` | src/lfas_protocol/detector.py:107-116 | a category is recorded only with a positive number of matches |
| `SrcProtocolDetector.CategoryCountsKeys` | src/lfas_protocol/detector.py:107-116 | a category is recorded iff one of its phrases matched |
| `SrcProtocolDetector.CategoryCountsTotal` | src/lfas_protocol/detector.py:107-116 | the recorded counts sum to the number of matched phrases |
| `SrcProtocolDetector.TriggerCountAtMostFour` | src/lfas_protocol/detector.py:43-82 | with the default four categories, at most four triggers |
| `SrcProtocolDetector.TwoCategoriesAtMostEnhanced` | src/lfas_protocol/detector.py:118-120 | phrases from two categories never reach CRISIS, however many match |
| `SrcProtocolDetector.VulnerabilityDetector.constructor` | src/lfas_protocol/detector.py:26-41 | the default indicators |
| `SrcProtocolDetector.VulnerabilityDetector.Analyze` | src/lfas_protocol/detector.py:84-128 | the distinct triggered categories, their count and level, the matched phrases in order, and the per-category counts |
| `SrcProtocolDetector.DistinctCardinality` | src/lfas_protocol/detector.py:119-123 | a duplicate-free list has as many elements as its set |
| `SrcProtocolDetector.CaseInsensitive` | src/lfas_protocol/detector.py:101-110 | lowering the message again changes nothing |
| `VerificationRequirements.FindViolations` | tests/test_verification_requirements.py:81-88 | the listed phrases found in the lowered response, in list order; a violation iff one occurs |
| `VerificationRequirements.CheckVr20` | tests/test_verification_requirements.py:71-88 | the forbidden optimistic phrases found, and the flag iff any |
| `VerificationRequirements.CheckVr22` | tests/test_verification_requirements.py:90-107 | the inflated-capability phrases found, and the flag iff any |
| `VerificationRequirements.UpperCasePhraseNeverReported` | tests/test_verification_requirements.py:48-49 | "you're doing X people's jobs" holds an upper-case letter, so it is never reported against a lowered response |
| `VerificationRequirements.Vr23Listed` | tests/test_verification_requirements.py:120-127 | all four disclaimers at level 3 and above, the first two at level 2 |
| `VerificationRequirements.ApplyVr23` | tests/test_verification_requirements.py:109-128 | below level 2 unchanged; otherwise the response followed by the level's disclaimer block |
| `VerificationRequirements.Vr23ListsDisclaimers` | tests/test_verification_requirements.py:120-127 | every listed disclaimer appears in the result |
| `VerificationRequirements.Vr24Header` | tests/test_verification_requirements.py:151-157 | the title, the type's resource line when it has one, and the closing |
| `VerificationRequirements.ApplyVr24` | tests/test_verification_requirements.py:130-162 | below three triggers unchanged; otherwise the header, a newline, then the response, which stays its suffix |
| `VerificationRequirements.Vr24ShowsResource` | tests/test_verification_requirements.py:150-160 | in a crisis of a known type, the type's resource appears in the result |
| `VerificationRequirements.UserQuestions` | tests/test_verification_requirements.py:196-199 | the user turns that contain "?" |
| `VerificationRequirements.NoUserQuestions` | tests/test_verification_requirements.py:196-200 | no user turn with "?" gives no questions |
| `VerificationRequirements.CheckVr25` | tests/test_verification_requirements.py:164-203 | fewer than three turns is never a risk; a passive user over three or more turns is |
| `VerificationRequirements.SilentLongConversationIsRisk` | tests/test_verification_requirements.py:195-201 | five or more turns without a user question are a risk |
| `VerificationRequirements.QuestionClearsNonPassive` | tests/test_verification_requirements.py:189-203 | a user question means no risk unless the pattern is passive |
| `VerificationRequirements.UserQuestionsHas` | tests/test_verification_requirements.py:196-199 | a user turn with "?" is among the questions |
| `VerificationRequirements.ApplySafeguards` | tests/test_verification_requirements.py:205-242 | VR-23 for a financial topic at level 2 and above; VR-24 when a crisis has a type; otherwise unchanged |
| `VerificationRequirements.RawResponseKept` | tests/test_verification_requirements.py:228-242 | the raw response always survives inside the result |

## Left out

- Unicode case folding: `str.lower()` is modelled on ASCII letters only, by `Strings.Lower`.
- The XML specification loaders (lfas/specification_loader.py, src/lfas/spec_loader.py):
  - The taxonomy they return is a constructor parameter of `SrcLfasDetector.VulnerabilityDetector` and `LfasDetector.VulnerabilityDetector`.
  - The escalation rules are their fixed defaults (lfas/specification_loader.py:75-81).
  - The `spec_path` of src/lfas_protocol/detector.py is accepted and unused, as in the source.
- Python dictionaries are modelled as insertion-ordered lists of entries. The order of `list(set)` is left open: any order without repeats is allowed.
- `SharedEngine.Act`: the regular-expression rewrites of VR-20 and VR-22 (integrations/python/shared/lfas_engine.py:188-213) are the parameter `rewrite`. `_simplify_language` is the identity, as in the source.
- The AI response generator of `process_request` is a function parameter. Whether it was called is a ghost out-parameter of `CoreMiddleware.LfasMiddleware.ProcessRequest`.
- `CoreSafeguards.FilterOptimisticLanguage`: the source's loop over the forbidden phrases has an empty body, so the function is the identity; its contract states what that means (every forbidden phrase and the length are kept). `get_financial_disclaimer` is the constant `CoreSafeguards.FinancialDisclaimer`.
- `SafeguardEngine` holds no state (its `__init__` does nothing), so its methods are the functions of `CoreSafeguards` and the middleware calls them directly rather than through a `safeguard_engine` object.
- Aliasing in lfas/detector.py:48-50: the caller's list becomes the detector's history and is then appended to. The model copies it as a value, so the caller does not see the append.
- Metadata dictionaries typed `Any` (lfas_protocol/models.py:45) and the `__str__`/`__repr__` renderings of detection results (lfas/models.py:33-38, lfas_protocol/models.py:64-69, src/lfas/detector.py:46-51). They render the level name, counts and category names as text and take part in no decision.
- The `severity` of an indicator is stored but never rendered, as in the source.
- The `original_response` argument of `generate_response` is accepted and unused, as in the source.
- `SafeguardViolation`, `SafeguardResponse` and the other record types no core function builds.
- The platform wrappers (integrations/openai, anthropic, google), the examples and the unit tests other than the reference engine in tests/test_verification_requirements.py.

## Findings

| source | as written | input that shows it | evidently intended | confidence | as-written member | corrected member |
|---|---|---|---|---|---|---|
| lfas/detector.py:68-74 | `detect` passes `conversation_history=` to the `DetectionResult` dataclass of lfas/models.py:17-23, which declares no such field, so every call raises `TypeError` after the history was already updated | any input, e.g. `detect("hello")` | the result carries a copy of the history, so its dataclass declares a `conversation_history` field | not executed | `LfasDetector.VulnerabilityDetector.DetectAsWritten` | `LfasDetector.VulnerabilityDetector.Detect` |
