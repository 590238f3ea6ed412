/**
 * The platform-independent middleware (integrations/core/middleware.py):
 * LISTEN (detect with the stored history), REFLECT (update the protection
 * manager), WAIT (the verification flag), ACT (safeguard the AI response, or
 * skip the AI entirely in a crisis with crisis language) and ACKNOWLEDGE
 * (remember the input, keeping only the last ten).
 */
module CoreMiddleware {
  import opened Strings
  import opened Common
  import opened CoreDetector
  import opened CoreProtection
  import opened CoreSafeguards

  /** The most user inputs the middleware remembers. */
  const MaxHistory: nat := 10

  /** The `metadata` dictionary of a processed request. */
  datatype Metadata = Metadata(
    protectionLevel: ProtectionLevel,
    triggerCount: nat,
    detectedCategories: set<string>,
    activeSafeguards: seq<string>,
    requiresVerification: bool)

  /** The dictionary returned by `get_status`. */
  datatype Status = Status(protectionLevel: ProtectionLevel, activeSafeguards: seq<string>, conversationLength: nat)

  /** The dictionary returned by `process_request` and `process_with_response`. */
  datatype Processed = Processed(response: string, metadata: Metadata)

  /** The remembered inputs after one more input: the last ten, in order, newest last. */
  lemma RememberedInputs(history: seq<string>, userInput: string)
    ensures var h := Last(history + [userInput], MaxHistory);
      && |h| <= MaxHistory
      && h[|h| - 1] == userInput
      && h[..|h| - 1] == Last(history, MaxHistory - 1)
  {
    var h := Last(history + [userInput], MaxHistory);
    assert h[..|h| - 1] == Last(history, MaxHistory - 1);
  }

  class LfasMiddleware {
    const detector: VulnerabilityDetector
    const protectionManager: ProtectionLevelManager
    var conversationHistory: seq<string>

    ghost predicate Valid()
      reads this, protectionManager
    {
      detector.Valid() && protectionManager.Valid() && |conversationHistory| <= MaxHistory
    }

    constructor ()
      ensures Valid() && fresh(protectionManager) && detector.allIndicators == AllIndicators
      ensures conversationHistory == []
      ensures protectionManager.currentLevel == Standard && protectionManager.triggerHistory == []
    {
      detector := new VulnerabilityDetector();
      protectionManager := new ProtectionLevelManager();
      conversationHistory := [];
    }

    /** ACKNOWLEDGE: append the input and keep the last ten. */
    method Remember(userInput: string)
      modifies this
      ensures conversationHistory == Last(old(conversationHistory) + [userInput], MaxHistory)
    {
      conversationHistory := conversationHistory + [userInput];
      if |conversationHistory| > MaxHistory {
        conversationHistory := conversationHistory[|conversationHistory| - MaxHistory..];
      }
    }

    /**
     * `process_request(user_input, ai_response_generator)`.  Detection sees
     * the history before this input is added.  In a crisis with crisis
     * language the generator is not called and the crisis reply is returned.
     */
    method ProcessRequest(userInput: string, generate: string -> string)
      returns (result: Processed, ghost generatorCalled: bool)
      requires Valid()
      modifies this, protectionManager
      ensures Valid()
      ensures var d := Detection(detector.allIndicators, userInput, old(conversationHistory));
        && result.metadata.triggerCount == |AllValues(d)|
        && result.metadata.detectedCategories == CategoriesTriggered(d)
        && result.metadata.protectionLevel == DetermineLevel(|AllValues(d)|)
      ensures result.metadata.protectionLevel == protectionManager.currentLevel
      ensures protectionManager.triggerHistory == old(protectionManager.triggerHistory) + [result.metadata.triggerCount]
      ensures result.metadata.activeSafeguards == SafeguardsFor(result.metadata.protectionLevel)
      ensures result.metadata.requiresVerification <==> result.metadata.protectionLevel != Standard
      ensures generatorCalled <==>
        !(result.metadata.protectionLevel == Crisis && "crisis_language" in result.metadata.detectedCategories)
      ensures !generatorCalled ==> result.response == CrisisMessage
      ensures generatorCalled ==>
        result.response == ApplySafeguards(generate(userInput), result.metadata.protectionLevel, result.metadata.detectedCategories)
      ensures conversationHistory == Last(old(conversationHistory) + [userInput], MaxHistory)
    {
      // LISTEN
      var detected := detector.Detect(userInput, conversationHistory);
      var triggerCount := CountTriggers(detected);
      var detectedCategories := CategoriesTriggered(detected);
      // REFLECT
      var protectionLevel := protectionManager.Update(triggerCount);
      var activeSafeguards := protectionManager.GetActiveSafeguards();
      // WAIT
      var requiresVerification := ShouldPauseAndVerify(protectionLevel);
      // ACT
      var safeResponse;
      if protectionLevel == Crisis && "crisis_language" in detectedCategories {
        safeResponse := ApplyCrisis("", detectedCategories);
        generatorCalled := false;
      } else {
        var rawResponse := generate(userInput);
        safeResponse := ApplySafeguards(rawResponse, protectionLevel, detectedCategories);
        generatorCalled := true;
      }
      // ACKNOWLEDGE
      Remember(userInput);
      result := Processed(safeResponse,
        Metadata(protectionLevel, triggerCount, detectedCategories, activeSafeguards, requiresVerification));
    }

    /** `process_with_response(user_input, raw_ai_response)`: the same flow on a given response. */
    method ProcessWithResponse(userInput: string, rawResponse: string) returns (result: Processed)
      requires Valid()
      modifies this, protectionManager
      ensures Valid()
      ensures var d := Detection(detector.allIndicators, userInput, old(conversationHistory));
        && result.metadata.triggerCount == |AllValues(d)|
        && result.metadata.detectedCategories == CategoriesTriggered(d)
        && result.metadata.protectionLevel == DetermineLevel(|AllValues(d)|)
      ensures result.metadata.protectionLevel == protectionManager.currentLevel
      ensures protectionManager.triggerHistory == old(protectionManager.triggerHistory) + [result.metadata.triggerCount]
      ensures result.metadata.activeSafeguards == SafeguardsFor(result.metadata.protectionLevel)
      ensures result.metadata.requiresVerification <==> result.metadata.protectionLevel != Standard
      ensures result.response ==
        ApplySafeguards(rawResponse, result.metadata.protectionLevel, result.metadata.detectedCategories)
      ensures conversationHistory == Last(old(conversationHistory) + [userInput], MaxHistory)
    {
      var detected := detector.Detect(userInput, conversationHistory);
      var triggerCount := CountTriggers(detected);
      var detectedCategories := CategoriesTriggered(detected);
      var protectionLevel := protectionManager.Update(triggerCount);
      var activeSafeguards := protectionManager.GetActiveSafeguards();
      var requiresVerification := ShouldPauseAndVerify(protectionLevel);
      var safeResponse := ApplySafeguards(rawResponse, protectionLevel, detectedCategories);
      Remember(userInput);
      result := Processed(safeResponse,
        Metadata(protectionLevel, triggerCount, detectedCategories, activeSafeguards, requiresVerification));
    }

    /** `reset`: forget the conversation and return the manager to its initial state. */
    method Reset()
      requires Valid()
      modifies this, protectionManager
      ensures Valid()
      ensures conversationHistory == []
      ensures protectionManager.currentLevel == Standard && protectionManager.triggerHistory == []
      ensures protectionManager.exchangesSinceClear == 0
    {
      protectionManager.Reset();
      conversationHistory := [];
    }

    /** `get_status`: the current level, its safeguards and how many inputs are remembered (at most ten). */
    method GetStatus() returns (status: Status)
      requires Valid()
      ensures status.protectionLevel == protectionManager.currentLevel
      ensures status.activeSafeguards == SafeguardsFor(status.protectionLevel)
      ensures status.conversationLength == |conversationHistory| <= MaxHistory
    {
      var level := protectionManager.GetCurrentLevel();
      var safeguards := protectionManager.GetActiveSafeguards();
      status := Status(level, safeguards, |conversationHistory|);
    }
  }
}
