/**
 * The safeguard engine for the verification requirements VR-20 to VR-25
 * (tests/test_verification_requirements.py): phrase checks on the lowered
 * response, a financial disclaimer appended by level, crisis resources put
 * in front of the response at three or more indicators, the amplification
 * check on the conversation, and their combination.
 */
module VerificationRequirements {
  import opened Strings
  import opened Common

  const CrisisThreshold: nat := 3
  const AmplificationMinTurns: nat := 3
  const AmplificationQuestionThreshold: nat := 5

  /** VR-20: phrases of unfounded optimism. */
  const ForbiddenOptimisticPhrases: seq<string> := [
    "guaranteed success", "easy money", "can't fail", "definitely will work",
    "overnight success", "100% certain", "risk-free", "absolutely will succeed"]

  /** VR-22: phrases inflating the user's capability. */
  const InflatedCapabilityPhrases: seq<string> := [
    "you're doing X people's jobs", "you're a genius", "you're better than everyone", "you can do anything"]

  /** VR-23: the financial disclaimers. */
  const FinancialDisclaimers: seq<string> := [
    "All business ventures involve risk",
    "Market validation is recommended",
    "Consider speaking with financial advisors",
    "Many businesses fail in the first year"]

  /** VR-24: the resource line per crisis type, `None` for a type without one. */
  function CrisisResource(crisisType: string): Option<string>
  {
    if crisisType == "suicide" then Some("National Suicide Prevention Lifeline: 988")
    else if crisisType == "financial" then Some("Financial counseling services may be available in your area")
    else if crisisType == "health" then Some("Please seek immediate medical attention or call emergency services")
    else if crisisType == "domestic_violence" then Some("National Domestic Violence Hotline: 1-800-799-7233")
    else None
  }

  // ------------------------------------------------------------ VR-20 and VR-22

  /** The phrase loop of both checks: the listed phrases found in the lowered response, in list order. */
  method FindViolations(phrases: seq<string>, response: string) returns (hasViolation: bool, violations: seq<string>)
    ensures violations == Matching(phrases, Lower(response), false)
    ensures hasViolation <==> violations != []
    ensures hasViolation <==> exists p | p in phrases :: Contains(Lower(response), p)
  {
    var responseLower := Lower(response);
    violations := [];
    for i := 0 to |phrases|
      invariant violations == Matching(phrases[..i], responseLower, false)
    {
      assert phrases[..i + 1][..i] == phrases[..i];
      if Contains(responseLower, phrases[i]) {
        violations := violations + [phrases[i]];
      }
    }
    assert phrases[..|phrases|] == phrases;
    hasViolation := |violations| > 0;
    MatchingEmptyIff(phrases, responseLower, false);
  }

  /** `check_vr20_unfounded_optimism`. */
  method CheckVr20(response: string) returns (hasViolation: bool, violations: seq<string>)
    ensures violations == Matching(ForbiddenOptimisticPhrases, Lower(response), false)
    ensures hasViolation <==> violations != []
  {
    hasViolation, violations := FindViolations(ForbiddenOptimisticPhrases, response);
  }

  /** `check_vr22_realistic_capability`. */
  method CheckVr22(response: string) returns (hasViolation: bool, violations: seq<string>)
    ensures violations == Matching(InflatedCapabilityPhrases, Lower(response), false)
    ensures hasViolation <==> violations != []
  {
    hasViolation, violations := FindViolations(InflatedCapabilityPhrases, response);
  }

  /**
   * The phrase with an upper-case "X" is compared, as written, against a
   * lowered response, so VR-22 can never report it.
   */
  lemma UpperCasePhraseNeverReported(response: string)
    ensures InflatedCapabilityPhrases[0] !in Matching(InflatedCapabilityPhrases, Lower(response), false)
  {
    var phrase := InflatedCapabilityPhrases[0];
    assert phrase[13] == 'X';
    FoldedMissesUpper(response, phrase, 13);
    MatchingMembers(InflatedCapabilityPhrases, Lower(response), false, phrase);
  }

  // ------------------------------------------------------------ VR-23

  /** The disclaimers listed at a level: all four at 3 and above, the first two at 2. */
  function Vr23Listed(protectionLevel: int): (listed: seq<string>)
    requires protectionLevel >= 2
    ensures |listed| == if protectionLevel >= 3 then 4 else 2
    ensures forall k | 0 <= k < |listed| :: listed[k] == FinancialDisclaimers[k]
  {
    if protectionLevel >= 3 then FinancialDisclaimers else FinancialDisclaimers[..2]
  }

  function Vr23Header(protectionLevel: int): string
  {
    if protectionLevel >= 3 then "\n\n\U{26A0}\U{FE0F} Critical Financial Warning:\n"
    else "\n\n\U{26A0}\U{FE0F} Important Financial Reality Check:\n"
  }

  /** The disclaimer block for a level: the header, then the listed disclaimers as bullets. */
  function Vr23Disclaimer(protectionLevel: int): string
    requires protectionLevel >= 2
  {
    Vr23Header(protectionLevel) + "\U{2022} " + Join(Vr23Listed(protectionLevel), "\n\U{2022} ")
  }

  /** `apply_vr23_financial_disclaimer`: below level 2 the response is kept; otherwise the disclaimers are appended. */
  function ApplyVr23(response: string, protectionLevel: int): (r: string)
    ensures protectionLevel < 2 ==> r == response
    ensures |r| >= |response| && r[..|response|] == response
    ensures protectionLevel >= 2 ==> r == response + Vr23Disclaimer(protectionLevel)
  {
    if protectionLevel >= 2 then response + Vr23Disclaimer(protectionLevel) else response
  }

  /** Each part of a joined list shows in any text that ends with the joined list. */
  lemma ContainsJoinedPart(front: string, block: string, parts: seq<string>, sep: string, k: nat)
    requires k < |parts|
    ensures Contains(front + (block + Join(parts, sep)), parts[k])
  {
    JoinContainsPart(parts, sep, k);
    ContainsRight(block, Join(parts, sep), parts[k]);
    ContainsRight(front, block + Join(parts, sep), parts[k]);
  }

  /** At level 3 and above all four disclaimers are appended, at level 2 the first two. */
  lemma Vr23ListsDisclaimers(response: string, protectionLevel: int, k: nat)
    requires protectionLevel >= 2
    requires k < (if protectionLevel >= 3 then 4 else 2)
    ensures Contains(ApplyVr23(response, protectionLevel), FinancialDisclaimers[k])
  {
    ContainsJoinedPart(response, Vr23Header(protectionLevel) + "\U{2022} ", Vr23Listed(protectionLevel), "\n\U{2022} ", k);
  }

  // ------------------------------------------------------------ VR-24

  const Vr24Title: string := "\n\n\U{1F6A8} CRISIS SUPPORT RESOURCES:\n"

  const Vr24Closing: string :=
    "\nYou don't have to face this alone. " + "Please reach out to a trusted person or professional who can help.\n"

  /** The block put in front of the response: the title, the type's resource line if it has one, and the encouragement. */
  function Vr24Header(crisisType: string): (h: string)
    ensures CrisisResource(crisisType).Some? ==> h == Vr24Title + (CrisisResource(crisisType).value + "\n") + Vr24Closing
    ensures CrisisResource(crisisType).None? ==> h == Vr24Title + Vr24Closing
  {
    var withResource := match CrisisResource(crisisType)
      case Some(resource) => Vr24Title + resource + "\n"
      case None => Vr24Title;
    withResource + Vr24Closing
  }

  /**
   * `apply_vr24_crisis_response`: with fewer than three indicators in total
   * the response is kept; otherwise the crisis block is put in front of it.
   */
  function ApplyVr24(response: string, crisisType: string, detectedIndicators: Table): (r: string)
    ensures TotalLength(detectedIndicators) < CrisisThreshold ==> r == response
    ensures |r| >= |response| && r[|r| - |response|..] == response
    ensures TotalLength(detectedIndicators) >= CrisisThreshold ==> r == Vr24Header(crisisType) + "\n" + response
  {
    var totalTriggers := TotalLength(detectedIndicators);
    if totalTriggers >= CrisisThreshold then Vr24Header(crisisType) + "\n" + response else response
  }

  /** A crisis block with a resource line shows that line. */
  lemma BlockShowsResource(resource: string, response: string)
    ensures Contains(Vr24Title + (resource + "\n") + Vr24Closing + "\n" + response, resource)
  {
    ContainsHead(resource, "\n");
    ContainsMiddle(Vr24Title, resource + "\n", Vr24Closing + "\n" + response, resource);
    assert Vr24Title + (resource + "\n") + Vr24Closing + "\n" + response
      == Vr24Title + (resource + "\n") + (Vr24Closing + "\n" + response);
  }

  /** At the threshold, a known crisis type's resource line is shown. */
  lemma Vr24ShowsResource(response: string, crisisType: string, detectedIndicators: Table, resource: string)
    requires TotalLength(detectedIndicators) >= CrisisThreshold && CrisisResource(crisisType) == Some(resource)
    ensures Contains(ApplyVr24(response, crisisType, detectedIndicators), resource)
  {
    BlockShowsResource(resource, response);
  }

  // ------------------------------------------------------------ VR-25

  /** One exchange of the conversation; a missing key is `None`. */
  datatype Turn = Turn(role: Option<string>, content: Option<string>)

  /** `turn.get("content", "")`. */
  function ContentOf(turn: Turn): string {
    if turn.content.Some? then turn.content.value else ""
  }

  /** The user turns that contain a question mark, in order. */
  function UserQuestions(history: seq<Turn>): (qs: seq<Turn>)
    ensures |qs| <= |history|
    ensures forall t | t in qs :: t in history && t.role == Some("user") && Contains(ContentOf(t), "?")
  {
    if history == [] then []
    else
      var last := history[|history| - 1];
      UserQuestions(history[..|history| - 1])
        + (if last.role == Some("user") && Contains(ContentOf(last), "?") then [last] else [])
  }

  /** Without any user question turn, there are no user questions. */
  lemma {:induction false} NoUserQuestions(history: seq<Turn>)
    requires forall i | 0 <= i < |history| :: !(history[i].role == Some("user") && Contains(ContentOf(history[i]), "?"))
    ensures UserQuestions(history) == []
    decreases |history|
  {
    if history != [] {
      NoUserQuestions(history[..|history| - 1]);
    }
  }

  /** `check_vr25_amplification_prevention`: passive acceptance over three turns, or five turns without a user question. */
  function CheckVr25(history: seq<Turn>, userEngagementPattern: string): (risk: bool)
    ensures |history| < AmplificationMinTurns ==> !risk
    ensures userEngagementPattern == "passive" && |history| >= AmplificationMinTurns ==> risk
  {
    if userEngagementPattern == "passive" && |history| >= AmplificationMinTurns then true
    else if |history| >= AmplificationQuestionThreshold && |UserQuestions(history)| == 0 then true
    else false
  }

  /** Five or more turns without a user turn holding "?" are a risk, whatever the pattern. */
  lemma SilentLongConversationIsRisk(history: seq<Turn>, userEngagementPattern: string)
    requires |history| >= AmplificationQuestionThreshold
    requires forall i | 0 <= i < |history| :: !(history[i].role == Some("user") && Contains(ContentOf(history[i]), "?"))
    ensures CheckVr25(history, userEngagementPattern)
  {
    NoUserQuestions(history);
  }

  /** A user question turn keeps a non-passive conversation from being flagged. */
  lemma QuestionClearsNonPassive(history: seq<Turn>, userEngagementPattern: string, i: nat)
    requires userEngagementPattern != "passive" && i < |history|
    requires history[i].role == Some("user") && Contains(ContentOf(history[i]), "?")
    ensures !CheckVr25(history, userEngagementPattern)
  {
    UserQuestionsHas(history, i);
  }

  lemma {:induction false} UserQuestionsHas(history: seq<Turn>, i: nat)
    requires i < |history| && history[i].role == Some("user") && Contains(ContentOf(history[i]), "?")
    ensures UserQuestions(history) != []
    decreases |history|
  {
    if i < |history| - 1 {
      assert history[..|history| - 1][i] == history[i];
      UserQuestionsHas(history[..|history| - 1], i);
    }
  }

  // ------------------------------------------------------------ all together

  /** `if is_crisis and crisis_type:`; an empty type counts as none. */
  predicate CrisisApplies(isCrisis: bool, crisisType: Option<string>) {
    isCrisis && crisisType.Some? && crisisType.value != ""
  }

  /** `apply_safeguards`: VR-23 for a financial topic from level 2, then VR-24 for a crisis with a type. */
  function ApplySafeguards(rawResponse: string, protectionLevel: int, detectedIndicators: Table,
                           isFinancialTopic: bool, isCrisis: bool, crisisType: Option<string>): (r: string)
    ensures !(isFinancialTopic && protectionLevel >= 2) && !CrisisApplies(isCrisis, crisisType) ==> r == rawResponse
    ensures !CrisisApplies(isCrisis, crisisType) ==> r == ApplyVr23(rawResponse, if isFinancialTopic then protectionLevel else 0)
    ensures CrisisApplies(isCrisis, crisisType) ==>
      r == ApplyVr24(ApplyVr23(rawResponse, if isFinancialTopic then protectionLevel else 0), crisisType.value, detectedIndicators)
  {
    var safeResponse := if isFinancialTopic && protectionLevel >= 2 then ApplyVr23(rawResponse, protectionLevel) else rawResponse;
    if CrisisApplies(isCrisis, crisisType) then ApplyVr24(safeResponse, crisisType.value, detectedIndicators)
    else safeResponse
  }

  /** The safeguards only add text around the raw response: it is always found whole in the result. */
  lemma RawResponseKept(rawResponse: string, protectionLevel: int, detectedIndicators: Table,
                        isFinancialTopic: bool, isCrisis: bool, crisisType: Option<string>)
    ensures Contains(ApplySafeguards(rawResponse, protectionLevel, detectedIndicators, isFinancialTopic, isCrisis, crisisType), rawResponse)
  {
    var level := if isFinancialTopic then protectionLevel else 0;
    var afterVr23 := ApplyVr23(rawResponse, level);
    assert afterVr23 == rawResponse + afterVr23[|rawResponse|..];
    ContainsHead(rawResponse, afterVr23[|rawResponse|..]);
    if CrisisApplies(isCrisis, crisisType) {
      var r := ApplyVr24(afterVr23, crisisType.value, detectedIndicators);
      assert r == r[..|r| - |afterVr23|] + afterVr23;
      ContainsRight(r[..|r| - |afterVr23|], afterVr23, rawResponse);
    }
  }
}
