/**
 * The `lfas_protocol` detector (lfas_protocol/detector.py): four built-in
 * phrase lists, the input lowered but the phrases compared as written,
 * every matched phrase one trigger, and the thresholds 0, 1-2, 3 or more.
 */
module ProtocolDetector {
  import opened Strings
  import opened Common
  import opened Taxonomy

  const CrisisLanguage: seq<string> := [
    "last hope", "only chance", "can't take it anymore", "nobody understands",
    "completely alone", "if this doesn't work, i'm done", "thinking about ending it",
    "don't want to live", "can't take it", "everything is hopeless", "no point",
    "want to die", "end it all"]

  const FinancialDesperation: seq<string> := [
    "lost my job", "last $", "need money fast", "desperate for income",
    "can't pay bills", "behind on rent", "facing eviction", "need cash now",
    "bills due", "can't afford"]

  const HealthCrisis: seq<string> := [
    "can't see a doctor", "no insurance", "pain won't stop", "no medical help",
    "can't afford medication", "can't get treatment", "health emergency"]

  const IsolationIndicators: seq<string> := [
    "no one to talk to", "family doesn't understand", "you're the only one who listens",
    "completely alone in this", "no one cares", "nobody listens", "all alone"]

  /** The category mapping, in insertion order. */
  const IndicatorsMap: Table := [
    Entry("crisis_language", CrisisLanguage),
    Entry("financial_desperation", FinancialDesperation),
    Entry("health_crisis", HealthCrisis),
    Entry("isolation", IsolationIndicators)]

  const CategoryNames: seq<string> := ["crisis_language", "financial_desperation", "health_crisis", "isolation"]

  datatype DetectionResult = DetectionResult(
    protectionLevel: ProtectionLevel,
    triggeredIndicators: seq<string>,
    indicatorCount: nat,
    categories: set<string>)

  /** The level choice of `detect`: 0, 1-2, 3 or more. */
  function LevelFor(indicatorCount: nat): (level: ProtectionLevel)
    ensures level == Standard <==> indicatorCount == 0
    ensures level == Enhanced <==> 1 <= indicatorCount <= 2
    ensures level == Crisis <==> indicatorCount >= 3
  {
    if indicatorCount == 0 then Standard
    else if indicatorCount <= 2 then Enhanced
    else Crisis
  }

  /** What `detect` returns on a category table: the phrases are compared as written against the lowered input. */
  function DetectionIn(table: Table, userInput: string): (d: DetectionResult)
    ensures d.indicatorCount == |d.triggeredIndicators|
    ensures d.protectionLevel == LevelFor(d.indicatorCount)
  {
    var triggered := Triggered(table, Lower(userInput), false);
    DetectionResult(LevelFor(|triggered|), triggered, |triggered|, TriggeredCategories(table, Lower(userInput), false))
  }

  /** What `detect` returns with the built-in phrases. */
  function Detection(userInput: string): DetectionResult
  {
    DetectionIn(IndicatorsMap, userInput)
  }

  class VulnerabilityDetector {
    const indicatorsMap: Table

    constructor ()
      ensures indicatorsMap == IndicatorsMap
    {
      indicatorsMap := IndicatorsMap;
    }

    /** `detect`: every listed phrase found in the lowered input, category by category. */
    method Detect(userInput: string) returns (result: DetectionResult)
      ensures result == DetectionIn(indicatorsMap, userInput)
      ensures result.indicatorCount == |result.triggeredIndicators|
    {
      var userInputLower := Lower(userInput);
      var triggeredIndicators: seq<string> := [];
      var categories: set<string> := {};
      for i := 0 to |indicatorsMap|
        invariant triggeredIndicators == Triggered(indicatorsMap[..i], userInputLower, false)
        invariant categories == TriggeredCategories(indicatorsMap[..i], userInputLower, false)
      {
        assert indicatorsMap[..i + 1][..i] == indicatorsMap[..i];
        var category := indicatorsMap[i].key;
        var indicators := indicatorsMap[i].values;
        ghost var before := triggeredIndicators;
        ghost var categoriesBefore := categories;
        for j := 0 to |indicators|
          invariant triggeredIndicators == before + Matching(indicators[..j], userInputLower, false)
          invariant categories ==
            categoriesBefore + (if Matching(indicators[..j], userInputLower, false) != [] then {category} else {})
        {
          assert indicators[..j + 1][..j] == indicators[..j];
          if Contains(userInputLower, indicators[j]) {
            triggeredIndicators := triggeredIndicators + [indicators[j]];
            categories := categories + {category};
          }
        }
        assert indicators[..|indicators|] == indicators;
      }
      assert indicatorsMap[..|indicatorsMap|] == indicatorsMap;
      var indicatorCount := |triggeredIndicators|;
      var protectionLevel;
      if indicatorCount == 0 {
        protectionLevel := Standard;
      } else if indicatorCount <= 2 {
        protectionLevel := Enhanced;
      } else {
        protectionLevel := Crisis;
      }
      result := DetectionResult(protectionLevel, triggeredIndicators, indicatorCount, categories);
    }

    /** `get_indicator_categories`: the four categories in order with all their phrases. */
    function IndicatorCategories(): (categories: Table)
      requires indicatorsMap == IndicatorsMap
      ensures Keys(categories) == CategoryNames
      ensures forall i | 0 <= i < |categories| :: categories[i].values == IndicatorsMap[i].values
      ensures |categories[0].values| == 13 && |categories[1].values| == 10
      ensures |categories[2].values| == 7 && |categories[3].values| == 7
    {
      indicatorsMap
    }
  }

  /** The categories reported are exactly those with a phrase in the lowered input, and all are among the four names. */
  lemma CategoriesMembers(userInput: string, c: string)
    ensures c in Detection(userInput).categories <==>
      exists i | 0 <= i < |IndicatorsMap| :: IndicatorsMap[i].key == c && exists p | p in IndicatorsMap[i].values :: Hit(p, Lower(userInput), false)
    ensures c in Detection(userInput).categories ==> c in CategoryNames
  {
    TriggeredCategoriesMembers(IndicatorsMap, Lower(userInput), false, c);
  }

  /** "can't take it anymore" contains "can't take it", so both phrases count and the level is at least ENHANCED. */
  lemma OverlappingPhrasesBothCount(userInput: string)
    requires Contains(Lower(userInput), "can't take it anymore")
    ensures |Detection(userInput).triggeredIndicators| >= 2
    ensures Detection(userInput).protectionLevel != Standard
  {
    var text := Lower(userInput);
    ContainsPrefix(text, "can't take it anymore", 13);
    assert "can't take it anymore"[..13] == "can't take it";
    assert CrisisLanguage[2] == "can't take it anymore" && CrisisLanguage[8] == "can't take it";
    TwoDistinctMatches(CrisisLanguage, text, false, "can't take it anymore", "can't take it");
    TriggeredAtLeastCategory(IndicatorsMap, text, false, 0);
  }

  /** The phrase holds no upper-case ASCII letter. */
  predicate NoUpper(p: string) {
    forall k | 0 <= k < |p| :: !('A' <= p[k] <= 'Z')
  }

  /** No phrase of the list holds an upper-case ASCII letter. */
  predicate NoUpperIn(ps: seq<string>) {
    forall i | 0 <= i < |ps| :: NoUpper(ps[i])
  }

  /** No phrase at a position from `lo` up to `hi` holds an upper-case ASCII letter. */
  predicate NoUpperBetween(ps: seq<string>, lo: nat, hi: nat)
    requires lo <= hi <= |ps|
  {
    forall i | lo <= i < hi :: NoUpper(ps[i])
  }

  // Each built-in list is checked a few phrases at a time.

  lemma CrisisLanguageLower0() ensures NoUpperBetween(CrisisLanguage, 0, 4) {
    forall i | 0 <= i < 4 ensures NoUpper(CrisisLanguage[i]) {
    }
  }

  lemma CrisisLanguageLower4() ensures NoUpperBetween(CrisisLanguage, 4, 6) {
    forall i | 4 <= i < 6 ensures NoUpper(CrisisLanguage[i]) {
    }
  }

  lemma CrisisLanguageLower6() ensures NoUpperBetween(CrisisLanguage, 6, 8) {
    forall i | 6 <= i < 8 ensures NoUpper(CrisisLanguage[i]) {
    }
  }

  lemma CrisisLanguageLower8() ensures NoUpperBetween(CrisisLanguage, 8, 13) {
    forall i | 8 <= i < 13 ensures NoUpper(CrisisLanguage[i]) {
    }
  }

  lemma CrisisLanguageLower() ensures NoUpperIn(CrisisLanguage) {
    CrisisLanguageLower0();
    CrisisLanguageLower4();
    CrisisLanguageLower6();
    CrisisLanguageLower8();
  }

  lemma FinancialDesperationLower0() ensures NoUpperBetween(FinancialDesperation, 0, 5) {
    forall i | 0 <= i < 5 ensures NoUpper(FinancialDesperation[i]) {
    }
  }

  lemma FinancialDesperationLower5() ensures NoUpperBetween(FinancialDesperation, 5, 10) {
    forall i | 5 <= i < 10 ensures NoUpper(FinancialDesperation[i]) {
    }
  }

  lemma FinancialDesperationLower() ensures NoUpperIn(FinancialDesperation) {
    FinancialDesperationLower0();
    FinancialDesperationLower5();
  }

  lemma HealthCrisisLower0() ensures NoUpperBetween(HealthCrisis, 0, 4) {
    forall i | 0 <= i < 4 ensures NoUpper(HealthCrisis[i]) {
    }
  }

  lemma HealthCrisisLower4() ensures NoUpperBetween(HealthCrisis, 4, 7) {
    forall i | 4 <= i < 7 ensures NoUpper(HealthCrisis[i]) {
    }
  }

  lemma HealthCrisisLower() ensures NoUpperIn(HealthCrisis) {
    HealthCrisisLower0();
    HealthCrisisLower4();
  }

  lemma IsolationIndicatorsLower0() ensures NoUpperBetween(IsolationIndicators, 0, 2) {
    forall i | 0 <= i < 2 ensures NoUpper(IsolationIndicators[i]) {
    }
  }

  lemma IsolationIndicatorsLower2() ensures NoUpperBetween(IsolationIndicators, 2, 4) {
    forall i | 2 <= i < 4 ensures NoUpper(IsolationIndicators[i]) {
    }
  }

  lemma IsolationIndicatorsLower4() ensures NoUpperBetween(IsolationIndicators, 4, 7) {
    forall i | 4 <= i < 7 ensures NoUpper(IsolationIndicators[i]) {
    }
  }

  lemma IsolationIndicatorsLower() ensures NoUpperIn(IsolationIndicators) {
    IsolationIndicatorsLower0();
    IsolationIndicatorsLower2();
    IsolationIndicatorsLower4();
  }

  /** Every built-in phrase is in lower case. */
  lemma BuiltInPhrasesLower()
    ensures forall i, p | 0 <= i < |IndicatorsMap| && p in IndicatorsMap[i].values :: IsLower(p)
  {
    CrisisLanguageLower();
    FinancialDesperationLower();
    HealthCrisisLower();
    IsolationIndicatorsLower();
    forall i, p | 0 <= i < |IndicatorsMap| && p in IndicatorsMap[i].values ensures IsLower(p) {
      var j :| 0 <= j < |IndicatorsMap[i].values| && IndicatorsMap[i].values[j] == p;
      NoUpperIsLower(p);
    }
  }

  /**
   * Although only the input is lowered, detection is case-insensitive: an
   * input and its lower-case form give the same result, which is also what
   * lowering every phrase would give.
   */
  lemma CaseInsensitive(userInput: string)
    ensures Detection(Lower(userInput)) == Detection(userInput)
    ensures Detection(userInput).triggeredIndicators == Triggered(IndicatorsMap, Lower(userInput), true)
    ensures Detection(userInput).categories == TriggeredCategories(IndicatorsMap, Lower(userInput), true)
  {
    LowerIsLower(userInput);
    BuiltInPhrasesLower();
    TriggeredFoldIrrelevant(IndicatorsMap, Lower(userInput));
  }
}
