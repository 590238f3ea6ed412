/**
 * The `lfas_protocol` crisis safeguard (lfas_protocol/safeguards.py): when
 * to activate, and the crisis response built from fixed parts, one line per
 * resource, and two paragraphs that depend on the detected categories.
 */
module ProtocolSafeguards {
  import opened Strings
  import opened Common
  import opened ProtocolDetector

  datatype CrisisResource = CrisisResource(name: string, phone: string, description: string, available: string)

  const CrisisResources: seq<CrisisResource> := [
    CrisisResource("988 Suicide & Crisis Lifeline", "988",
      "24/7 crisis support for mental health emergencies", "24/7"),
    CrisisResource("Crisis Text Line", "Text HOME to 741741",
      "24/7 crisis support via text message", "24/7"),
    CrisisResource("National Domestic Violence Hotline", "1-800-799-7233",
      "Support for domestic violence situations", "24/7")]

  /** `should_activate`: at CRISIS, or at ENHANCED when crisis language was detected. */
  predicate ShouldActivate(d: DetectionResult)
    ensures d.protectionLevel == Crisis ==> ShouldActivate(d)
    ensures d.protectionLevel == Standard ==> !ShouldActivate(d)
    ensures ShouldActivate(d) && d.protectionLevel != Crisis ==> "crisis_language" in d.categories
  {
    d.protectionLevel == Crisis || (d.protectionLevel == Enhanced && "crisis_language" in d.categories)
  }

  /** Any built-in crisis phrase in the input activates the safeguard. */
  lemma CrisisPhraseActivates(userInput: string, p: string)
    requires p in CrisisLanguage && Contains(Lower(userInput), p)
    ensures ShouldActivate(Detection(userInput))
  {
    var text := Lower(userInput);
    assert IndicatorsMap[0].values == CrisisLanguage;
    MatchingMembers(CrisisLanguage, text, false, p);
    Taxonomy.TriggeredAtLeastCategory(IndicatorsMap, text, false, 0);
    Taxonomy.TriggeredCategoriesMembers(IndicatorsMap, text, false, "crisis_language");
  }

  /** Without any trigger the safeguard stays off. */
  lemma NoTriggerNoActivation(userInput: string)
    requires Detection(userInput).indicatorCount == 0
    ensures !ShouldActivate(Detection(userInput))
  {
  }

  const Acknowledgement: string := "I hear the pain in your words. This sounds incredibly difficult."

  const CrisisMomentParagraph: string :=
    "\nBefore discussing anything else, I want to acknowledge this seems "
    + "like a crisis moment. Your safety and wellbeing are what matter most right now."

  const ResourcesHeader: string := "\n\n**Immediate Support Resources:**"

  const Encouragement: string :=
    "\n\nPlease consider reaching out to one of these resources or to someone "
    + "you trust. You don't have to go through this alone."

  const MedicalParagraph: string :=
    "\n\nFor medical concerns, please contact a healthcare provider or "
    + "visit an urgent care facility or emergency room if needed."

  /** One resource's entry: name, phone, description and availability. */
  function ResourceLine(r: CrisisResource): string
  {
    "\n\U{2022} **" + (r.name + ("**: " + (r.phone + ("\n  " + (r.description + (" (" + (r.available + ")")))))))
  }

  /** A resource's entry shows each of its four fields. */
  lemma ResourceLineFields(r: CrisisResource)
    ensures Contains(ResourceLine(r), r.name) && Contains(ResourceLine(r), r.phone)
    ensures Contains(ResourceLine(r), r.description) && Contains(ResourceLine(r), r.available)
  {
    var e := r.available + ")";
    var d := r.description + (" (" + e);
    var c := r.phone + ("\n  " + d);
    var b := r.name + ("**: " + c);
    ContainsHead(r.available, ")");
    ContainsRight(" (", e, r.available);
    ContainsHead(r.description, " (" + e);
    ContainsRight(r.description, " (" + e, r.available);
    ContainsRight("\n  ", d, r.description);
    ContainsRight("\n  ", d, r.available);
    ContainsHead(r.phone, "\n  " + d);
    ContainsRight(r.phone, "\n  " + d, r.description);
    ContainsRight(r.phone, "\n  " + d, r.available);
    ContainsRight("**: ", c, r.phone);
    ContainsRight("**: ", c, r.description);
    ContainsRight("**: ", c, r.available);
    ContainsHead(r.name, "**: " + c);
    ContainsRight(r.name, "**: " + c, r.phone);
    ContainsRight(r.name, "**: " + c, r.description);
    ContainsRight(r.name, "**: " + c, r.available);
    ContainsRight("\n\U{2022} **", b, r.name);
    ContainsRight("\n\U{2022} **", b, r.phone);
    ContainsRight("\n\U{2022} **", b, r.description);
    ContainsRight("\n\U{2022} **", b, r.available);
  }

  /** The resource entries in order. */
  function ResourceLineList(rs: seq<CrisisResource>): (lines: seq<string>)
    ensures |lines| == |rs| && forall i | 0 <= i < |rs| :: lines[i] == ResourceLine(rs[i])
  {
    if rs == [] then [] else ResourceLineList(rs[..|rs| - 1]) + [ResourceLine(rs[|rs| - 1])]
  }

  /** The parts before the resources: the acknowledgement, then the crisis-moment paragraph for crisis language. */
  function Opening(categories: set<string>): seq<string>
  {
    [Acknowledgement] + (if "crisis_language" in categories then [CrisisMomentParagraph] else [])
  }

  /** The parts after the resources: the encouragement, then the medical paragraph for a health crisis. */
  function Closing(categories: set<string>): seq<string>
  {
    [Encouragement] + (if "health_crisis" in categories then [MedicalParagraph] else [])
  }

  /** The parts `generate_response` collects, with the resources header and one entry per resource in the middle. */
  function ResponseParts(categories: set<string>, resources: seq<CrisisResource>): seq<string>
  {
    Opening(categories) + [ResourcesHeader] + ResourceLineList(resources) + Closing(categories)
  }

  /**
   * The order of the parts: the acknowledgement, the crisis-moment paragraph
   * for crisis language, the resources header, one entry per resource, the
   * encouragement, and the medical paragraph last for a health crisis.
   */
  lemma ResponsePartsLayout(categories: set<string>, resources: seq<CrisisResource>)
    ensures var parts := ResponseParts(categories, resources);
      var n := if "crisis_language" in categories then 2 else 1;
      && |parts| == n + 1 + |resources| + 1 + (if "health_crisis" in categories then 1 else 0)
      && parts[0] == Acknowledgement
      && ("crisis_language" in categories ==> parts[1] == CrisisMomentParagraph)
      && parts[n] == ResourcesHeader
      && parts[n + 1..n + 1 + |resources|] == ResourceLineList(resources)
      && parts[n + 1 + |resources|] == Encouragement
      && ("health_crisis" in categories ==> parts[|parts| - 1] == MedicalParagraph)
  {
    var opening, lines, closing := Opening(categories), ResourceLineList(resources), Closing(categories);
    var parts := ResponseParts(categories, resources);
    var n := |opening|;
    assert parts == opening + ([ResourcesHeader] + lines + closing);
    assert parts[..n] == opening;
    assert parts[n..] == [ResourcesHeader] + lines + closing;
    assert parts[n + 1..n + 1 + |resources|] == lines;
    assert parts[n + 1 + |resources|..] == closing;
  }

  /** The text of `generate_response`: the parts joined with nothing between them. */
  function ResponseText(categories: set<string>, resources: seq<CrisisResource>): string
  {
    Join(ResponseParts(categories, resources), "")
  }

  /** `CrisisDetectionSafeguard`: the crisis resources are a fixed attribute of the class. */
  class CrisisDetectionSafeguard {
    const crisisResources: seq<CrisisResource>

    constructor ()
      ensures crisisResources == CrisisResources
    {
      crisisResources := CrisisResources;
    }

    /**
     * `generate_response`: the parts are collected in a list and joined with
     * nothing between them; the original response is not used.
     */
    method GenerateResponse(d: DetectionResult, originalResponse: Option<string>) returns (response: string)
      ensures response == ResponseText(d.categories, crisisResources)
    {
      var responseParts: seq<string> := [];
      responseParts := responseParts + [Acknowledgement];
      if "crisis_language" in d.categories {
        responseParts := responseParts + [CrisisMomentParagraph];
      }
      assert responseParts == Opening(d.categories);
      responseParts := responseParts + [ResourcesHeader];
      ghost var beforeResources := responseParts;
      for i := 0 to |crisisResources|
        invariant responseParts == beforeResources + ResourceLineList(crisisResources[..i])
      {
        assert crisisResources[..i + 1][..i] == crisisResources[..i];
        var resource := crisisResources[i];
        responseParts := responseParts + ["\n\U{2022} **" + (resource.name + ("**: " + (resource.phone
          + ("\n  " + (resource.description + (" (" + (resource.available + ")")))))))];
      }
      assert crisisResources[..|crisisResources|] == crisisResources;
      ghost var beforeClosing := responseParts;
      responseParts := responseParts + [Encouragement];
      if "health_crisis" in d.categories {
        responseParts := responseParts + [MedicalParagraph];
      }
      assert responseParts == beforeClosing + Closing(d.categories);
      response := Join(responseParts, "");
    }

    /** `get_crisis_resources`: the three resources, the first reachable at 988. */
    function GetCrisisResources(): (rs: seq<CrisisResource>)
      requires crisisResources == CrisisResources
      ensures |rs| == 3 && rs[0].phone == "988"
      ensures forall i | 0 <= i < |rs| :: rs[i].available == "24/7"
    {
      crisisResources
    }
  }

  /** Resource `k`'s entry is one of the parts of the response. */
  lemma ResponseHasEntry(categories: set<string>, resources: seq<CrisisResource>, k: nat)
    requires k < |resources|
    ensures Contains(ResponseText(categories, resources), ResourceLine(resources[k]))
  {
    var opening, lines, closing := Opening(categories), ResourceLineList(resources), Closing(categories);
    var parts := ResponseParts(categories, resources);
    var at := |opening| + 1 + k;
    assert parts == (opening + [ResourcesHeader]) + lines + closing;
    assert parts[at] == lines[k];
    JoinContainsPart(parts, "", at);
  }

  /**
   * The response starts with the acknowledgement and lists every resource
   * with its name, phone, description and availability.
   */
  lemma ResponseListsResources(categories: set<string>, resources: seq<CrisisResource>, k: nat)
    requires k < |resources|
    ensures |ResponseText(categories, resources)| >= |Acknowledgement|
    ensures ResponseText(categories, resources)[..|Acknowledgement|] == Acknowledgement
    ensures Contains(ResponseText(categories, resources), ResourceLine(resources[k]))
    ensures Contains(ResponseText(categories, resources), resources[k].name)
    ensures Contains(ResponseText(categories, resources), resources[k].phone)
    ensures Contains(ResponseText(categories, resources), resources[k].description)
    ensures Contains(ResponseText(categories, resources), resources[k].available)
  {
    var text := ResponseText(categories, resources);
    var parts := ResponseParts(categories, resources);
    assert parts[0] == Acknowledgement;
    JoinStartsWithFirst(parts, "");
    var r := resources[k];
    var line := ResourceLine(r);
    ResponseHasEntry(categories, resources, k);
    ResourceLineFields(r);
    ContainsTransitive(text, line, r.name);
    ContainsTransitive(text, line, r.phone);
    ContainsTransitive(text, line, r.description);
    ContainsTransitive(text, line, r.available);
  }

  /** The crisis-moment paragraph is part of the response for crisis language, the medical one for a health crisis. */
  lemma ResponseParagraphs(categories: set<string>, resources: seq<CrisisResource>)
    ensures "crisis_language" in categories ==> Contains(ResponseText(categories, resources), CrisisMomentParagraph)
    ensures "health_crisis" in categories ==> Contains(ResponseText(categories, resources), MedicalParagraph)
  {
    var parts := ResponseParts(categories, resources);
    ResponsePartsLayout(categories, resources);
    if "crisis_language" in categories {
      JoinContainsPart(parts, "", 1);
    }
    if "health_crisis" in categories {
      JoinContainsPart(parts, "", |parts| - 1);
    }
  }
}
