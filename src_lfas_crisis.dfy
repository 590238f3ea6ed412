/**
 * The packaged crisis safeguard (src/lfas/crisis.py): at CRISIS a crisis
 * type is chosen from the triggered categories by a fixed priority, the
 * type's resources and the recommended actions are looked up, and a
 * message listing the resources can be rendered.
 */
module SrcLfasCrisis {
  import opened Strings
  import opened Common
  import opened SrcLfasDetector

  /** A helpline entry; the region defaults to "US". */
  datatype CrisisResource = CrisisResource(name: string, description: string, contact: string, region: string)

  datatype CrisisResponse = CrisisResponse(
    crisisDetected: bool,
    crisisType: string,
    resources: seq<CrisisResource>,
    recommendedActions: seq<string>)

  const MentalHealthResources: seq<CrisisResource> := [
    CrisisResource("National Suicide Prevention Lifeline", "24/7 support for people in distress",
      "988 or 1-800-273-8255", "US"),
    CrisisResource("Crisis Text Line", "Text-based crisis support", "Text HOME to 741741", "US"),
    CrisisResource("International Association for Suicide Prevention", "Global crisis helpline directory",
      "https://findahelpline.com", "International")
  ]

  const FinancialResources: seq<CrisisResource> := [
    CrisisResource("National Foundation for Credit Counseling", "Free financial counseling",
      "1-800-388-2227 or https://nfcc.org", "US"),
    CrisisResource("211 Helpline", "Local community resources", "Dial 211", "US")
  ]

  const HealthResources: seq<CrisisResource> := [
    CrisisResource("Emergency Services", "Immediate medical emergency", "911", "US"),
    CrisisResource("SAMHSA National Helpline", "Substance abuse and mental health", "1-800-662-4357", "US")
  ]

  const AbuseResources: seq<CrisisResource> := [
    CrisisResource("National Domestic Violence Hotline", "24/7 support for domestic violence",
      "1-800-799-7233 or text START to 88788", "US"),
    CrisisResource("Childhelp National Child Abuse Hotline", "Support for child abuse cases",
      "1-800-422-4453", "US")
  ]

  /** `CRISIS_RESOURCES.get(crisis_type)`: the four typed entries of the resource table. */
  function ResourceTable(crisisType: string): Option<seq<CrisisResource>>
  {
    if crisisType == "mental_health" then Some(MentalHealthResources)
    else if crisisType == "financial" then Some(FinancialResources)
    else if crisisType == "health" then Some(HealthResources)
    else if crisisType == "abuse" then Some(AbuseResources)
    else None
  }

  const MentalHealthKeywords: seq<string> := ["ending it", "don't want to live", "thinking about ending"]

  /** Does some lowered triggered indicator contain one of the mental-health keywords? */
  predicate MentionsEnding(indicators: seq<string>) {
    exists i, k | 0 <= i < |indicators| && 0 <= k < |MentalHealthKeywords| ::
      Contains(Lower(indicators[i]), MentalHealthKeywords[k])
  }

  /**
   * `_determine_crisis_type`: mental health when crisis language comes with
   * an ending keyword, then health, then financial, then mental health for
   * any crisis language, and "general" otherwise.  "abuse" is never chosen.
   */
  function DetermineCrisisType(d: DetectionResult): (t: string)
    ensures t == "mental_health" <==>
      "crisis_language" in d.triggeredCategories
      && (MentionsEnding(d.triggeredIndicators)
          || ("health_crisis" !in d.triggeredCategories && "financial_desperation" !in d.triggeredCategories))
    ensures t == "health" <==>
      "health_crisis" in d.triggeredCategories
      && !("crisis_language" in d.triggeredCategories && MentionsEnding(d.triggeredIndicators))
    ensures t == "financial" <==>
      "financial_desperation" in d.triggeredCategories && "health_crisis" !in d.triggeredCategories
      && !("crisis_language" in d.triggeredCategories && MentionsEnding(d.triggeredIndicators))
    ensures t == "general" <==>
      "crisis_language" !in d.triggeredCategories && "health_crisis" !in d.triggeredCategories
      && "financial_desperation" !in d.triggeredCategories
    ensures t != "abuse"
  {
    var categories := d.triggeredCategories;
    if "crisis_language" in categories && MentionsEnding(d.triggeredIndicators) then "mental_health"
    else if "health_crisis" in categories then "health"
    else if "financial_desperation" in categories then "financial"
    else if "crisis_language" in categories then "mental_health"
    else "general"
  }

  /**
   * `_get_resources`: the type's table entries in order, then the first
   * mental-health resource exactly when the type is not mental health and
   * there are at least four triggers.
   */
  function GetResources(crisisType: string, d: DetectionResult): (rs: seq<CrisisResource>)
    ensures var own := if ResourceTable(crisisType).Some? then ResourceTable(crisisType).value else [];
      && |rs| >= |own| && rs[..|own|] == own
      && (|rs| == |own| + 1 <==> crisisType != "mental_health" && d.triggerCount >= 4)
      && (|rs| == |own| + 1 ==> rs[|own|] == MentalHealthResources[0])
      && (|rs| == |own| || |rs| == |own| + 1)
  {
    var own := if ResourceTable(crisisType).Some? then ResourceTable(crisisType).value else [];
    if crisisType != "mental_health" && d.triggerCount >= 4 then own + MentalHealthResources[..1] else own
  }

  /** With fewer than four triggers the "general" type gets no resources at all. */
  lemma GeneralFewTriggersNoResources(d: DetectionResult)
    requires d.triggerCount < 4
    ensures GetResources("general", d) == []
  {
    assert ResourceTable("general") == None;
  }

  const UniversalActions: seq<string> := [
    "Pause normal processing immediately",
    "Acknowledge the crisis state explicitly",
    "Provide immediate crisis resources",
    "Encourage seeking professional help",
    "Avoid any business or productivity advice"
  ]

  /** The three extra actions of a type, if it has any. */
  function TypeActions(crisisType: string): (actions: seq<string>)
    ensures |actions| == 3 <==> crisisType == "mental_health" || crisisType == "financial" || crisisType == "health"
    ensures |actions| == 0 || |actions| == 3
  {
    if crisisType == "mental_health" then [
      "Express empathy without minimizing feelings",
      "Do not attempt to provide therapy or counseling",
      "Strongly encourage contacting crisis support immediately"]
    else if crisisType == "financial" then [
      "Avoid suggesting risky financial strategies",
      "Recommend professional financial counseling",
      "Connect to local community resources"]
    else if crisisType == "health" then [
      "For emergencies, recommend calling 911 immediately",
      "Do not provide medical diagnosis or treatment advice",
      "Encourage seeking professional medical care"]
    else []
  }

  /** `_generate_recommended_actions`: the five universal actions first, then three for a known type. */
  function RecommendedActions(crisisType: string): (actions: seq<string>)
    ensures |actions| == 5 || |actions| == 8
    ensures actions[..5] == UniversalActions
    ensures |actions| == 8 <==> crisisType == "mental_health" || crisisType == "financial" || crisisType == "health"
  {
    UniversalActions + TypeActions(crisisType)
  }

  /** `assess_crisis`: nothing below CRISIS; otherwise the type, its resources and its actions. */
  function AssessCrisis(d: DetectionResult): (r: CrisisResponse)
    ensures d.protectionLevel != Crisis ==> r == CrisisResponse(false, "none", [], [])
    ensures d.protectionLevel == Crisis ==>
      && r.crisisDetected
      && r.crisisType == DetermineCrisisType(d)
      && r.resources == GetResources(r.crisisType, d)
      && r.recommendedActions == RecommendedActions(r.crisisType)
  {
    if !d.protectionLevel.AtLeast(Crisis) then CrisisResponse(false, "none", [], [])
    else
      var crisisType := DetermineCrisisType(d);
      CrisisResponse(true, crisisType, GetResources(crisisType, d), RecommendedActions(crisisType))
  }

  /** A detected crisis always has resources unless it is "general" with fewer than four triggers. */
  lemma AssessedResources(d: DetectionResult)
    requires d.protectionLevel == Crisis
    ensures AssessCrisis(d).resources == [] <==> DetermineCrisisType(d) == "general" && d.triggerCount < 4
  {
    var t := DetermineCrisisType(d);
    assert ResourceTable(t).Some? <==> t != "general";
  }

  const MessageHeader: seq<string> := [
    "\U{1F6A8} CRISIS SUPPORT RESOURCES",
    "",
    "It sounds like you're going through a very difficult time. ",
    "Please know that help is available:",
    ""
  ]

  const MessageClosing: seq<string> := [
    "You don't have to face this alone. Professional support can help.",
    "Please reach out to one of these resources - they are there for you."
  ]

  /** The lines of one resource: name, description, contact, a region line outside the US, a blank. */
  function ResourceBlock(r: CrisisResource): (lines: seq<string>)
    ensures |lines| == if r.region == "US" then 4 else 5
    ensures lines[0] == "\U{2022} " + r.name && lines[1] == "  " + r.description
    ensures lines[2] == "  Contact: " + r.contact && lines[|lines| - 1] == ""
    ensures r.region != "US" ==> lines[3] == "  (" + r.region + ")"
  {
    ["\U{2022} " + r.name, "  " + r.description, "  Contact: " + r.contact]
    + (if r.region != "US" then ["  (" + r.region + ")"] else [])
    + [""]
  }

  /** The lines of all resources, in order. */
  function ResourceLines(rs: seq<CrisisResource>): seq<string>
  {
    if rs == [] then [] else ResourceLines(rs[..|rs| - 1]) + ResourceBlock(rs[|rs| - 1])
  }

  /** All lines of the crisis message. */
  function MessageLines(rs: seq<CrisisResource>): seq<string>
  {
    MessageHeader + ResourceLines(rs) + MessageClosing
  }

  /** `format_crisis_message`: empty without a crisis, else the lines joined by newlines. */
  method FormatCrisisMessage(response: CrisisResponse) returns (message: string)
    ensures !response.crisisDetected ==> message == ""
    ensures response.crisisDetected ==> message == Join(MessageLines(response.resources), "\n")
  {
    if !response.crisisDetected {
      return "";
    }
    var lines := MessageHeader;
    var resources := response.resources;
    for i := 0 to |resources|
      invariant lines == MessageHeader + ResourceLines(resources[..i])
    {
      assert resources[..i + 1][..i] == resources[..i];
      var resource := resources[i];
      lines := lines + ["\U{2022} " + resource.name];
      lines := lines + ["  " + resource.description];
      lines := lines + ["  Contact: " + resource.contact];
      if resource.region != "US" {
        lines := lines + ["  (" + resource.region + ")"];
      }
      lines := lines + [""];
    }
    assert resources[..|resources|] == resources;
    lines := lines + MessageClosing;
    message := Join(lines, "\n");
  }

  /** Every line of every resource's block is a line of the resource listing. */
  lemma {:induction false} BlockLinesListed(rs: seq<CrisisResource>, k: nat, j: nat)
    requires k < |rs| && j < |ResourceBlock(rs[k])|
    ensures ResourceBlock(rs[k])[j] in ResourceLines(rs)
    decreases |rs|
  {
    var n := |rs| - 1;
    if k < n {
      BlockLinesListed(rs[..n], k, j);
      assert rs[..n][k] == rs[k];
    } else {
      assert ResourceLines(rs) == ResourceLines(rs[..n]) + ResourceBlock(rs[n]);
      assert ResourceLines(rs)[|ResourceLines(rs[..n])| + j] == ResourceBlock(rs[n])[j];
    }
  }

  /** A line of the message text occurs in the rendered message. */
  lemma LineInMessage(rs: seq<CrisisResource>, line: string)
    requires line in MessageLines(rs)
    ensures Contains(Join(MessageLines(rs), "\n"), line)
  {
    var lines := MessageLines(rs);
    var i :| 0 <= i < |lines| && lines[i] == line;
    JoinContainsPart(lines, "\n", i);
  }

  /**
   * A rendered crisis message is non-empty and names every resource with
   * its description and contact, and with its region when that is not "US".
   */
  lemma MessageListsResources(rs: seq<CrisisResource>, k: nat)
    requires k < |rs|
    ensures Contains(Join(MessageLines(rs), "\n"), "\U{2022} " + rs[k].name)
    ensures Contains(Join(MessageLines(rs), "\n"), "  " + rs[k].description)
    ensures Contains(Join(MessageLines(rs), "\n"), "  Contact: " + rs[k].contact)
    ensures rs[k].region != "US" ==> Contains(Join(MessageLines(rs), "\n"), "  (" + rs[k].region + ")")
  {
    var block := ResourceBlock(rs[k]);
    var lines := MessageLines(rs);
    forall j | 0 <= j < |block|
      ensures Contains(Join(lines, "\n"), block[j])
    {
      BlockLinesListed(rs, k, j);
      assert block[j] in lines;
      LineInMessage(rs, block[j]);
    }
  }

  /** A detected crisis always renders to a non-empty message that starts with the header line. */
  lemma MessageNonEmpty(rs: seq<CrisisResource>)
    ensures |Join(MessageLines(rs), "\n")| >= |MessageHeader[0]|
    ensures Join(MessageLines(rs), "\n")[..|MessageHeader[0]|] == MessageHeader[0]
    ensures |Join(MessageLines(rs), "\n")| > 0
  {
    var lines := MessageLines(rs);
    assert lines[0] == MessageHeader[0];
    JoinStartsWithFirst(lines, "\n");
  }
}
