/**
 * The packaged detector (src/lfas/detector.py).  Its taxonomy comes from the
 * specification loader, so here it is the constructor's parameter: an
 * insertion-ordered table of category to phrases.  Every matched phrase is
 * counted once per category it is listed in; the thresholds are 0-1
 * STANDARD, 2 ENHANCED, 3 or more CRISIS; the last three history messages
 * are joined and put in front of the input.
 */
module SrcLfasDetector {
  import opened Strings
  import opened Common
  import opened Taxonomy

  /** What `detect` returns. */
  datatype DetectionResult = DetectionResult(
    protectionLevel: ProtectionLevel,
    triggeredIndicators: seq<string>,
    triggeredCategories: set<string>,
    triggerCount: nat)

  /** `_determine_protection_level`: a single trigger stays STANDARD. */
  function DetermineProtectionLevel(triggerCount: nat): (level: ProtectionLevel)
    ensures level == Standard <==> triggerCount <= 1
    ensures level == Enhanced <==> triggerCount == 2
    ensures level == Crisis <==> triggerCount >= 3
  {
    if triggerCount >= 3 then Crisis
    else if triggerCount >= 2 then Enhanced
    else Standard
  }

  /**
   * The text that is scanned: the lowered input, preceded by the lowered
   * space-joined last three history messages and a space when there is
   * any history.
   */
  function TextToAnalyze(userInput: string, history: seq<string>): (text: string)
    ensures |text| >= |userInput| && text[|text| - |userInput|..] == Lower(userInput)
    ensures history == [] ==> text == Lower(userInput)
    ensures history != [] ==> |text| > |userInput| && text[|text| - |userInput| - 1] == ' '
    ensures IsLower(text)
  {
    LowerIsLower(userInput);
    if history == [] then Lower(userInput)
    else
      var recent := Lower(Join(Last(history, 3), " "));
      LowerIsLower(Join(Last(history, 3), " "));
      recent + " " + Lower(userInput)
  }

  /** The specification of `detect` on a table and a scanned text. */
  function Detection(table: Table, text: string): (d: DetectionResult)
    ensures d.triggerCount == |d.triggeredIndicators|
    ensures d.protectionLevel == DetermineProtectionLevel(d.triggerCount)
  {
    var triggered := Triggered(table, text, true);
    DetectionResult(DetermineProtectionLevel(|triggered|), triggered, TriggeredCategories(table, text, true), |triggered|)
  }

  /** A phrase listed under two categories is reported once for each of them. */
  lemma {:induction false} SharedPhraseCountedPerCategory(table: Table, text: string, i: nat, j: nat, p: string)
    requires i < j < |table|
    requires p in table[i].values && p in table[j].values && Hit(p, text, true)
    ensures multiset(Triggered(table, text, true))[p] >= 2
    decreases |table|
  {
    var n := |table| - 1;
    var init := table[..n];
    if j == n {
      assert init[i] == table[i];
      TriggeredHas(init, text, true, i, p);
      MatchingMembers(table[n].values, text, true, p);
    } else {
      assert init[i] == table[i] && init[j] == table[j];
      SharedPhraseCountedPerCategory(init, text, i, j, p);
    }
  }

  /** History older than the last three messages never reaches the scanned text. */
  lemma OlderHistoryIgnored(older: seq<string>, history: seq<string>, userInput: string)
    requires |history| >= 3
    ensures TextToAnalyze(userInput, older + history) == TextToAnalyze(userInput, history)
  {
    LastIgnoresOlder(older, history, 3);
  }

  /**
   * The joined history and the input are one text, so a phrase made of the
   * end of the latest message, a space and the start of the input is found
   * although neither message holds it.
   */
  lemma MatchAcrossBoundary(history: seq<string>, userInput: string, head: string, tail: string, rest: string)
    requires history != [] && history[|history| - 1] == head + tail
    ensures Contains(TextToAnalyze(userInput + rest, history), Lower(tail) + " " + Lower(userInput))
  {
    var front := JoinedBeforeLatest(history);
    assert Join(Last(history, 3), " ") == (front + head) + tail;
    LowerAppend(front + head, tail);
    LowerAppend(userInput, rest);
    ContainsAcross(Lower(front + head), Lower(tail), Lower(userInput), Lower(rest));
  }

  /** A text made of two halves joined by a space holds the end of the first, the space and the start of the second. */
  lemma ContainsAcross(a: string, b: string, c: string, d: string)
    ensures Contains((a + b) + " " + (c + d), b + " " + c)
  {
    assert (a + b) + " " + (c + d) == a + (b + " " + c) + d;
    ContainsPiece(a, b + " " + c, d);
  }

  /** The joined recent history ends with the latest message. */
  lemma JoinedBeforeLatest(history: seq<string>) returns (front: string)
    requires history != []
    ensures Join(Last(history, 3), " ") == front + history[|history| - 1]
  {
    var parts := Last(history, 3);
    assert parts[|parts| - 1] == history[|history| - 1];
    if |parts| == 1 {
      front := "";
    } else {
      front := Join(parts[..|parts| - 1], " ") + " ";
    }
  }

  /** Matching ignores the case of the input and of the phrases. */
  lemma CaseInsensitive(table: Table, userInput: string, history: seq<string>, p: string)
    ensures TextToAnalyze(Lower(userInput), history) == TextToAnalyze(userInput, history)
    ensures Hit(Lower(p), TextToAnalyze(userInput, history), true) <==> Hit(p, TextToAnalyze(userInput, history), true)
  {
    LowerIsLower(userInput);
    LowerIsLower(p);
  }

  class VulnerabilityDetector {
    /** The taxonomy returned by the specification loader. */
    const indicators: Table

    constructor (indicators: Table)
      ensures this.indicators == indicators
    {
      this.indicators := indicators;
    }

    /** `detect(user_input, conversation_history)`; no history and an empty one are the same. */
    method Detect(userInput: string, conversationHistory: seq<string>) returns (result: DetectionResult)
      ensures result == Detection(indicators, TextToAnalyze(userInput, conversationHistory))
      ensures result.triggerCount == |result.triggeredIndicators|
    {
      var text := Lower(userInput);
      if conversationHistory != [] {
        var recentHistory := Lower(Join(Last(conversationHistory, 3), " "));
        text := recentHistory + " " + text;
      }
      var triggeredIndicators: seq<string> := [];
      var triggeredCategories: set<string> := {};
      for i := 0 to |indicators|
        invariant triggeredIndicators == Triggered(indicators[..i], text, true)
        invariant triggeredCategories == TriggeredCategories(indicators[..i], text, true)
      {
        assert indicators[..i + 1][..i] == indicators[..i];
        var category := indicators[i].key;
        var phrases := indicators[i].values;
        ghost var before := triggeredIndicators;
        ghost var categoriesBefore := triggeredCategories;
        for j := 0 to |phrases|
          invariant triggeredIndicators == before + Matching(phrases[..j], text, true)
          invariant triggeredCategories ==
            categoriesBefore + (if Matching(phrases[..j], text, true) != [] then {category} else {})
        {
          assert phrases[..j + 1][..j] == phrases[..j];
          if Contains(text, Lower(phrases[j])) {
            triggeredIndicators := triggeredIndicators + [phrases[j]];
            triggeredCategories := triggeredCategories + {category};
          }
        }
        assert phrases[..|phrases|] == phrases;
      }
      assert indicators[..|indicators|] == indicators;
      var triggerCount := |triggeredIndicators|;
      result := DetectionResult(DetermineProtectionLevel(triggerCount), triggeredIndicators, triggeredCategories, triggerCount);
    }

    /** `get_indicator_categories`: the category names in table order; any other name has no phrases. */
    function IndicatorCategories(): (names: seq<string>)
      ensures |names| == |indicators| && forall i | 0 <= i < |indicators| :: names[i] == indicators[i].key
      ensures forall c | c !in names :: IndicatorsForCategory(c) == []
    {
      Keys(indicators)
    }

    /** `get_indicators_for_category`: the category's phrases, or none for an unknown category. */
    function IndicatorsForCategory(category: string): (phrases: seq<string>)
      ensures (forall i | 0 <= i < |indicators| :: indicators[i].key != category) ==> phrases == []
      ensures phrases != [] ==> exists i | 0 <= i < |indicators| :: indicators[i].key == category && indicators[i].values == phrases
      ensures forall i | 0 <= i < |indicators| && indicators[i].key == category &&
        (forall j | 0 <= j < i :: indicators[j].key != category) :: phrases == indicators[i].values
    {
      Get(indicators, category)
    }
  }
}
