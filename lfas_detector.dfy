/**
 * The `lfas` package's detector (lfas/detector.py).  The taxonomy comes
 * from the XML loader and is the constructor's parameter; the escalation
 * thresholds are the loader's fixed defaults.  Only the current input is
 * scanned, every (category, indicator) match counts once, and the detector
 * keeps the conversation history as a field.
 */
module LfasDetector {
  import opened Strings
  import opened Common
  import opened Taxonomy
  import opened LfasModels

  /** The escalation thresholds returned by the specification loader. */
  datatype EscalationRules = EscalationRules(
    standardMax: nat, enhancedMin: nat, enhancedMax: nat, crisisMin: nat, deescalationExchanges: nat)

  const Rules: EscalationRules := EscalationRules(0, 1, 2, 3, 3)

  /** `_determine_protection_level` with the loader's thresholds: 0, 1-2, 3 or more. */
  function DetermineProtectionLevel(triggerCount: nat): (level: ProtectionLevel)
    ensures level == Standard <==> triggerCount == 0
    ensures level == Enhanced <==> 1 <= triggerCount <= 2
    ensures level == Crisis <==> triggerCount >= 3
  {
    if triggerCount >= Rules.crisisMin then Crisis
    else if triggerCount >= Rules.enhancedMin then Enhanced
    else Standard
  }

  // ------------------------------------------------------------ the crash

  /** The fields lfas/models.py declares for its detection result. */
  const DeclaredResultFields: seq<string> :=
    ["protection_level", "triggers_count", "detected_categories", "original_input"]

  /** The keyword arguments `detect` passes when it builds the result. */
  const PassedResultKeywords: seq<string> :=
    ["protection_level", "triggers_count", "detected_categories", "original_input", "conversation_history"]

  /** Building a dataclass from keyword arguments: it succeeds, or raises on the first unknown keyword. */
  datatype Construction = Built | UnexpectedKeyword(keyword: string)

  function Construct(declared: seq<string>, passed: seq<string>): (c: Construction)
    ensures c == Built <==> forall k | k in passed :: k in declared
    ensures c.UnexpectedKeyword? ==> c.keyword in passed && c.keyword !in declared
  {
    if passed == [] then Built
    else if passed[0] !in declared then UnexpectedKeyword(passed[0])
    else Construct(declared, passed[1..])
  }

  /** As written, every result construction in `detect` raises a TypeError on `conversation_history`. */
  lemma ResultConstructionAlwaysRaises()
    ensures Construct(DeclaredResultFields, PassedResultKeywords) == UnexpectedKeyword("conversation_history")
  {
    assert PassedResultKeywords[1..][1..][1..][1..] == ["conversation_history"];
    assert "conversation_history" !in DeclaredResultFields;
  }

  /** The fields of the corrected result, which carries the history copy. */
  const CorrectedResultFields: seq<string> := DeclaredResultFields + ["conversation_history"]

  /** With the history field declared, the same keywords build a result. */
  lemma CorrectedConstructionSucceeds()
    ensures Construct(CorrectedResultFields, PassedResultKeywords) == Built
  {
    assert forall k | k in PassedResultKeywords :: k in CorrectedResultFields;
  }

  class VulnerabilityDetector {
    /** The taxonomy returned by the specification loader. */
    const indicators: Table
    var conversationHistory: seq<string>

    constructor (indicators: Table)
      ensures this.indicators == indicators && conversationHistory == []
    {
      this.indicators := indicators;
      conversationHistory := [];
    }

    /** The shared start of `detect`: a passed history replaces the stored one, then the input is appended. */
    method RecordInput(userInput: string, history: Option<seq<string>>)
      modifies this
      ensures conversationHistory == (if history.Some? then history.value else old(conversationHistory)) + [userInput]
    {
      if history.Some? {
        conversationHistory := history.value;
      }
      conversationHistory := conversationHistory + [userInput];
    }

    /** The nested scan of `detect`: the number of matches and the matched categories. */
    method Scan(inputLower: string) returns (totalTriggers: nat, detectedCategories: set<string>)
      ensures totalTriggers == |Triggered(indicators, inputLower, true)|
      ensures detectedCategories == TriggeredCategories(indicators, inputLower, true)
    {
      totalTriggers := 0;
      detectedCategories := {};
      for i := 0 to |indicators|
        invariant totalTriggers == |Triggered(indicators[..i], inputLower, true)|
        invariant detectedCategories == TriggeredCategories(indicators[..i], inputLower, true)
      {
        assert indicators[..i + 1][..i] == indicators[..i];
        var category := indicators[i].key;
        var phrases := indicators[i].values;
        ghost var countBefore := totalTriggers;
        ghost var categoriesBefore := detectedCategories;
        for j := 0 to |phrases|
          invariant totalTriggers == countBefore + |Matching(phrases[..j], inputLower, true)|
          invariant detectedCategories ==
            categoriesBefore + (if Matching(phrases[..j], inputLower, true) != [] then {category} else {})
        {
          assert phrases[..j + 1][..j] == phrases[..j];
          var indicatorLower := Lower(phrases[j]);
          if Contains(inputLower, indicatorLower) {
            detectedCategories := detectedCategories + {category};
            totalTriggers := totalTriggers + 1;
          }
        }
        assert phrases[..|phrases|] == phrases;
      }
      assert indicators[..|indicators|] == indicators;
    }

    /**
     * `detect` as written: the history is updated and the scan runs, then
     * building the result raises because the record has no
     * `conversation_history` field.
     */
    method DetectAsWritten(userInput: string, history: Option<seq<string>>) returns (outcome: Construction)
      modifies this
      ensures conversationHistory == (if history.Some? then history.value else old(conversationHistory)) + [userInput]
      ensures outcome == UnexpectedKeyword("conversation_history")
    {
      RecordInput(userInput, history);
      var totalTriggers, detectedCategories := Scan(Lower(userInput));
      outcome := Construct(DeclaredResultFields, PassedResultKeywords);
      ResultConstructionAlwaysRaises();
    }

    /**
     * `detect` with the result record carrying the history: triggers come
     * from the current input alone, the categories are listed once each,
     * and the result keeps its own copy of the updated history.
     */
    method Detect(userInput: string, history: Option<seq<string>>) returns (result: DetectionResult)
      modifies this
      ensures conversationHistory == (if history.Some? then history.value else old(conversationHistory)) + [userInput]
      ensures result.triggersCount == |Triggered(indicators, Lower(userInput), true)|
      ensures result.protectionLevel == DetermineProtectionLevel(|Triggered(indicators, Lower(userInput), true)|)
      ensures Distinct(result.detectedCategories)
      ensures ToSet(result.detectedCategories) == TriggeredCategories(indicators, Lower(userInput), true)
      ensures result.originalInput == userInput && result.conversationHistory == conversationHistory
    {
      RecordInput(userInput, history);
      var inputLower := Lower(userInput);
      var totalTriggers, detectedCategories := Scan(inputLower);
      var protectionLevel := DetermineProtectionLevel(totalTriggers);
      var categoryList := SetToList(detectedCategories);
      result := DetectionResult(protectionLevel, totalTriggers, categoryList, userInput, conversationHistory);
    }

    /** `reset_history`. */
    method ResetHistory()
      modifies this
      ensures conversationHistory == []
    {
      conversationHistory := [];
    }
  }

  /** The trigger count is zero exactly when no lowered indicator occurs in the lowered input. */
  lemma {:induction false} NoTriggersIff(table: Table, inputLower: string)
    ensures |Triggered(table, inputLower, true)| == 0 <==>
      forall i, p | 0 <= i < |table| && p in table[i].values :: !Hit(p, inputLower, true)
    decreases |table|
  {
    if table != [] {
      var n := |table| - 1;
      NoTriggersIff(table[..n], inputLower);
      MatchingEmptyIff(table[n].values, inputLower, true);
      assert forall i | 0 <= i < n :: table[..n][i] == table[i];
    }
  }
}
