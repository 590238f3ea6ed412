/**
 * The `lfas` package's crisis detector (lfas/crisis.py): at CRISIS the
 * crisis type is the first keyword table entry, in dictionary order, with
 * a keyword in the lowered input; resources and actions are fixed per type;
 * the safe response puts the crisis message in place of the AI's answer.
 */
module LfasCrisis {
  import opened Strings
  import opened Common
  import opened LfasModels

  const SuicidalIdeationResources: seq<string> := [
    "National Suicide Prevention Lifeline: 988 (US)",
    "Crisis Text Line: Text HOME to 741741",
    "International Association for Suicide Prevention: https://www.iasp.info/resources/Crisis_Centres/"
  ]

  const FinancialCrisisResources: seq<string> := [
    "National Foundation for Credit Counseling: 1-800-388-2227",
    "211 (Community Resources): Dial 211",
    "Local social services and emergency assistance programs"
  ]

  const HealthEmergencyResources: seq<string> := [
    "Emergency Services: 911 (US) or local emergency number",
    "Poison Control: 1-800-222-1222",
    "Telemedicine services if available in your area"
  ]

  const DomesticViolenceResources: seq<string> := [
    "National Domestic Violence Hotline: 1-800-799-7233",
    "Text START to 88788",
    "Local women's shelters and support services"
  ]

  const GeneralCrisisResources: seq<string> := [
    "Crisis Text Line: Text HOME to 741741",
    "SAMHSA National Helpline: 1-800-662-4357",
    "Local community mental health services"
  ]

  /** The crisis keywords, in the dictionary's insertion order. */
  const CrisisKeywords: Table := [
    Entry("suicidal_ideation", [
      "suicide", "kill myself", "end my life", "want to die",
      "better off dead", "ending it", "no reason to live",
      "suicidal", "take my own life"]),
    Entry("financial_crisis", [
      "can't pay rent", "about to be evicted", "losing my home",
      "utilities shut off", "can't feed", "no money for food",
      "completely broke", "financial emergency"]),
    Entry("health_emergency", [
      "severe pain", "can't breathe", "chest pain", "overdose",
      "medical emergency", "serious injury", "urgent medical"]),
    Entry("domestic_violence", [
      "being abused", "domestic violence", "partner hurts me",
      "afraid for my safety", "violent relationship"])
  ]

  /** Does one of the keywords occur, as written, in the text? */
  predicate AnyKeyword(keywords: seq<string>, text: string) {
    exists k | k in keywords :: Contains(text, k)
  }

  /** The key of the first entry with a keyword in the text, or none. */
  function FirstTriggered(table: Table, text: string): (r: Option<string>)
    ensures r.None? <==> forall i | 0 <= i < |table| :: !AnyKeyword(table[i].values, text)
    ensures r.Some? ==> exists i | 0 <= i < |table| ::
      && table[i].key == r.value
      && AnyKeyword(table[i].values, text)
      && forall j | 0 <= j < i :: !AnyKeyword(table[j].values, text)
  {
    if table == [] then None
    else if AnyKeyword(table[0].values, text) then Some(table[0].key)
    else
      var rest := FirstTriggered(table[1..], text);
      assert forall j | 1 <= j < |table| :: table[1..][j - 1] == table[j];
      rest
  }

  /** `_identify_crisis_type`: the first matching type, or "general_crisis". */
  function IdentifyCrisisType(userInput: string): (t: string)
    ensures t != "general_crisis" ==> exists i | 0 <= i < |CrisisKeywords| ::
      && CrisisKeywords[i].key == t
      && AnyKeyword(CrisisKeywords[i].values, Lower(userInput))
      && forall j | 0 <= j < i :: !AnyKeyword(CrisisKeywords[j].values, Lower(userInput))
  {
    match FirstTriggered(CrisisKeywords, Lower(userInput))
    case Some(t) => t
    case None => "general_crisis"
  }

  /** A suicidal-ideation keyword decides the type, whatever other keywords occur. */
  lemma SuicidalIdeationWins(userInput: string, k: string)
    requires k in CrisisKeywords[0].values && Contains(Lower(userInput), k)
    ensures IdentifyCrisisType(userInput) == "suicidal_ideation"
  {
    assert AnyKeyword(CrisisKeywords[0].values, Lower(userInput));
  }

  /** The type is one of the four keyword categories or "general_crisis", the last exactly when no keyword occurs. */
  lemma CrisisTypeRange(userInput: string)
    ensures var t := IdentifyCrisisType(userInput);
      (t == "general_crisis" <==> forall i | 0 <= i < |CrisisKeywords| :: !AnyKeyword(CrisisKeywords[i].values, Lower(userInput)))
      && (t != "general_crisis" ==> exists i | 0 <= i < |CrisisKeywords| :: CrisisKeywords[i].key == t)
  {
    assert Keys(CrisisKeywords) == ["suicidal_ideation", "financial_crisis", "health_emergency", "domestic_violence"];
    FirstTriggeredOr(CrisisKeywords, Lower(userInput), "general_crisis");
  }

  /** With a fallback that is no key of the table, the fallback is chosen exactly when nothing triggers. */
  lemma FirstTriggeredOr(table: Table, text: string, fallback: string)
    requires fallback !in Keys(table)
    ensures var t := match FirstTriggered(table, text) case Some(k) => k case None => fallback;
      (t == fallback <==> forall i | 0 <= i < |table| :: !AnyKeyword(table[i].values, text))
      && (t != fallback ==> exists i | 0 <= i < |table| :: table[i].key == t)
  {
    var r := FirstTriggered(table, text);
    if r.Some? {
      var i :| 0 <= i < |table| && table[i].key == r.value;
      assert Keys(table)[i] == r.value;
    }
  }

  /** `CRISIS_RESOURCES`, in the dictionary's insertion order. */
  const CrisisResourceTable: Table := [
    Entry("suicidal_ideation", SuicidalIdeationResources),
    Entry("financial_crisis", FinancialCrisisResources),
    Entry("health_emergency", HealthEmergencyResources),
    Entry("domestic_violence", DomesticViolenceResources),
    Entry("general_crisis", GeneralCrisisResources)
  ]

  /** The keys of `CRISIS_RESOURCES` are distinct, every entry lists three resources, and "general_crisis" comes last. */
  lemma CrisisResourceTableShape()
    ensures Distinct(Keys(CrisisResourceTable))
    ensures forall i | 0 <= i < |CrisisResourceTable| :: |CrisisResourceTable[i].values| == 3
    ensures |CrisisResourceTable| == 5 && CrisisResourceTable[4] == Entry("general_crisis", GeneralCrisisResources)
  {
    assert Keys(CrisisResourceTable) ==
      ["suicidal_ideation", "financial_crisis", "health_emergency", "domestic_violence", "general_crisis"];
  }

  /**
   * `_get_crisis_resources`: the type's own entries when it is a key of the
   * table, the "general_crisis" entries otherwise.
   */
  function CrisisResources(crisisType: string): (resources: seq<string>)
    ensures |resources| == 3
    ensures forall i | 0 <= i < |CrisisResourceTable| && CrisisResourceTable[i].key == crisisType ::
      resources == CrisisResourceTable[i].values
    ensures crisisType !in Keys(CrisisResourceTable) ==> resources == GeneralCrisisResources
  {
    var table := CrisisResourceTable;
    CrisisResourceTableShape();
    if crisisType in Keys(table) then
      var i :| 0 <= i < |table| && Keys(table)[i] == crisisType;
      GetDistinctKey(table, i);
      Get(table, crisisType)
    else
      GetDistinctKey(table, 4);
      Get(table, "general_crisis")
  }

  const SuicidalIdeationActions: seq<string> := [
    "Call or text a crisis helpline immediately",
    "Reach out to a trusted friend or family member",
    "If in immediate danger, call emergency services (911)",
    "Remove access to means of self-harm if possible",
    "Consider going to the nearest emergency room"]

  const FinancialCrisisActions: seq<string> := [
    "Contact local social services (dial 211)",
    "Reach out to community organizations for emergency assistance",
    "Talk to your landlord or utility company about payment plans",
    "Avoid quick-fix financial schemes or high-interest loans",
    "Seek professional financial counseling"]

  const HealthEmergencyActions: seq<string> := [
    "Call emergency services (911) if life-threatening",
    "Go to the nearest emergency room if needed",
    "Contact a medical professional immediately",
    "Do not rely solely on AI for medical advice",
    "Have someone stay with you if possible"]

  const DomesticViolenceActions: seq<string> := [
    "Call the National Domestic Violence Hotline",
    "Create a safety plan with a professional",
    "Reach out to local domestic violence resources",
    "Trust your instincts about your safety",
    "Consider staying with someone you trust if safe to do so"]

  const GeneralCrisisActions: seq<string> := [
    "Reach out to a crisis helpline",
    "Talk to someone you trust about what you're experiencing",
    "Seek professional help from a counselor or therapist",
    "Remember: This situation is temporary and help is available",
    "Take care of your immediate safety and basic needs"]

  /** One of the four types with their own resources and actions. */
  predicate KnownType(crisisType: string) {
    crisisType == "suicidal_ideation" || crisisType == "financial_crisis"
    || crisisType == "health_emergency" || crisisType == "domestic_violence"
  }

  /** `_get_recommended_actions`: always five actions, the general ones for any other type. */
  function RecommendedActions(crisisType: string): (actions: seq<string>)
    ensures |actions| == 5
    ensures !KnownType(crisisType) ==> actions == GeneralCrisisActions
  {
    if crisisType == "suicidal_ideation" then SuicidalIdeationActions
    else if crisisType == "financial_crisis" then FinancialCrisisActions
    else if crisisType == "health_emergency" then HealthEmergencyActions
    else if crisisType == "domestic_violence" then DomesticViolenceActions
    else GeneralCrisisActions
  }

  /** `assess_crisis`: an empty response unless the level is CRISIS; otherwise the type from the input. */
  function AssessCrisis(d: DetectionResult): (r: CrisisResponse)
    ensures !d.IsCrisis() ==> r == CrisisResponse(false, None, [], [])
    ensures d.IsCrisis() ==>
      && r.isCrisis
      && r.crisisType == Some(IdentifyCrisisType(d.originalInput))
      && r.resources == CrisisResources(r.crisisType.value) && |r.resources| == 3
      && r.recommendedActions == RecommendedActions(r.crisisType.value) && |r.recommendedActions| == 5
  {
    if !d.IsCrisis() then CrisisResponse(false, None, [], [])
    else
      var crisisType := IdentifyCrisisType(d.originalInput);
      CrisisResponse(true, Some(crisisType), CrisisResources(crisisType), RecommendedActions(crisisType))
  }

  /** The warning placed under the crisis message. */
  const SafetyFooter: string :=
    "\n" + Repeat('=', 50) + "\n"
    + "\U{26A0}\U{FE0F} IMPORTANT: I'm an AI and cannot provide emergency support.\n"
    + "Please use the resources above to connect with real people who can help.\n"

  /** `format_safe_response`: the original answer without a crisis; otherwise only the crisis message and the warning. */
  method FormatSafeResponse(response: CrisisResponse, originalAiResponse: string) returns (safe: string)
    ensures !response.isCrisis ==> safe == originalAiResponse
    ensures response.isCrisis ==> safe == CrisisMessage(response) + SafetyFooter
  {
    if !response.isCrisis {
      return originalAiResponse;
    }
    safe := FormatCrisisMessage(response);
    safe := safe + "\n" + Repeat('=', 50) + "\n";
    safe := safe + "\U{26A0}\U{FE0F} IMPORTANT: I'm an AI and cannot provide emergency support.\n";
    safe := safe + "Please use the resources above to connect with real people who can help.\n";
  }

  /** Regrouping a concatenation of six pieces. */
  lemma Regroup(a: string, b: string, c: string, d: string, e: string, f: string)
    ensures (a + (b + c + d)) + e + f == (a + b) + c + (d + e + f)
  {
  }

  /** Regrouping a concatenation of four pieces. */
  lemma RegroupFour(a: string, b: string, c: string, d: string)
    ensures a + (b + c) + d == (a + b) + c + d
  {
  }

  /** A crisis message, whatever follows it, lists every resource as its own bullet line. */
  lemma MessageListsResource(r: CrisisResponse, footer: string, k: nat)
    requires r.isCrisis && k < |r.resources|
    ensures Contains(CrisisMessage(r) + footer, "\U{2022} " + r.resources[k] + "\n")
  {
    var lead, bullets, actions := MessageHeader + DetectedSection(r.crisisType), Bullets(r.resources), ActionsSection(r.recommendedActions);
    BulletsListEach(r.resources, k);
    ContainsMiddle(lead + "IMMEDIATE RESOURCES:\n", bullets, "\n" + actions + footer, "\U{2022} " + r.resources[k] + "\n");
    Regroup(lead, "IMMEDIATE RESOURCES:\n", bullets, "\n", actions, footer);
  }

  /** A crisis message, whatever follows it, lists every recommended action as its own bullet line. */
  lemma MessageListsAction(r: CrisisResponse, footer: string, k: nat)
    requires r.isCrisis && k < |r.recommendedActions|
    ensures Contains(CrisisMessage(r) + footer, "\U{2022} " + r.recommendedActions[k] + "\n")
  {
    var lead := MessageHeader + DetectedSection(r.crisisType) + ResourcesSection(r.resources);
    var bullets := Bullets(r.recommendedActions);
    BulletsListEach(r.recommendedActions, k);
    ContainsMiddle(lead + "RECOMMENDED ACTIONS:\n", bullets, footer, "\U{2022} " + r.recommendedActions[k] + "\n");
    RegroupFour(lead, "RECOMMENDED ACTIONS:\n", bullets, footer);
  }
}
